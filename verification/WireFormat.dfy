// The Protocol Buffers wire format as internal/geodat/geodat.go walks it by hand.
// Groups (wire types 3 and 4) are not read.

module WireFormat {
  import opened Wrappers
  import opened MessageWalk

  type Byte = b: int | 0 <= b < 256

  // ------------------------------------------------------------------ varints

  /** What a varint may still hold after i bytes: 64 bits in ten bytes, the last holding one. */
  function Limit(i: nat): (r: nat)
    requires i <= 9
    ensures r >= 2
    decreases 9 - i
  {
    if i == 9 then 2 else 128 * Limit(i + 1)
  }

  /** A varint and its length; the i bytes before it belong to it. */
  function ConsumeVarint(data: seq<Byte>, i: nat): (r: Option<(nat, nat)>)
    requires i <= 9
    ensures r.Some? ==> 0 < r.value.1 <= |data|
    decreases |data|
  {
    if data == [] then None
    else if i == 9 then (if data[0] < 2 then Some((data[0], 1)) else None)
    else if data[0] < 128 then Some((data[0], 1))
    else match ConsumeVarint(data[1..], i + 1)
      case None => None
      case Some((value, n)) => Some((data[0] - 128 + 128 * value, n + 1))
  }

  function EncodeVarint(n: nat): (r: seq<Byte>)
    ensures r != []
  {
    if n < 128 then [n] else [n % 128 + 128] + EncodeVarint(n / 128)
  }

  lemma {:induction false} VarintRead(n: nat, i: nat, rest: seq<Byte>)
    requires i <= 9 && n < Limit(i)
    ensures ConsumeVarint(EncodeVarint(n) + rest, i) == Some((n, |EncodeVarint(n)|))
    decreases 9 - i
  {
    if n >= 128 {
      VarintRead(n / 128, i + 1, rest);
      assert (EncodeVarint(n) + rest)[1..] == EncodeVarint(n / 128) + rest;
    }
  }

  lemma {:induction false} VarintCut(n: nat, i: nat, k: nat)
    requires i <= 9 && n < Limit(i) && k < |EncodeVarint(n)|
    ensures ConsumeVarint(EncodeVarint(n)[..k], i) == None
    decreases 9 - i
  {
    if k > 0 && n >= 128 {
      VarintCut(n / 128, i + 1, k - 1);
      assert EncodeVarint(n)[..k][1..] == EncodeVarint(n / 128)[..k - 1];
    }
  }

  // ------------------------------------------------------------------- fields

  datatype Field =
    | Varint(number: nat, value: nat)
    | Bytes(number: nat, content: seq<Byte>)
    | Fixed(number: nat, wide: bool, content: seq<Byte>)

  const MAX_NUMBER := 0x7FFF_FFFF

  function KindOf(f: Field): nat {
    match f case Varint(_, _) => 0 case Bytes(_, _) => 2 case Fixed(_, wide, _) => if wide then 1 else 5
  }

  /** A field any encoder may write. */
  predicate ValidField(f: Field) {
    && 1 <= f.number <= MAX_NUMBER
    && match f
       case Varint(_, value) => value < Limit(0)
       case Bytes(_, content) => |content| < Limit(0)
       case Fixed(_, wide, content) => |content| == if wide then 8 else 4
  }

  /** The value of a field of a kind, after its tag. */
  function ConsumeValue(number: nat, kind: nat, data: seq<Byte>): (r: Option<(Field, nat)>)
    ensures r.Some? ==> r.value.1 <= |data|
  {
    match kind
    case 0 => (match ConsumeVarint(data, 0) case Some((value, n)) => Some((Varint(number, value), n)) case None => None)
    case 1 => if |data| >= 8 then Some((Fixed(number, true, data[..8]), 8)) else None
    case 2 =>
      (match ConsumeVarint(data, 0)
       case Some((size, n)) => if size <= |data| - n then Some((Bytes(number, data[n..n + size]), n + size)) else None
       case None => None)
    case 5 => if |data| >= 4 then Some((Fixed(number, false, data[..4]), 4)) else None
    case _ => None
  }

  function ConsumeField(data: seq<Byte>): (r: Option<(Field, nat)>)
    ensures r.Some? ==> 0 < r.value.1 <= |data|
  {
    match ConsumeVarint(data, 0)
    case None => None
    case Some((tag, n)) =>
      if tag / 8 < 1 || tag / 8 > MAX_NUMBER then None
      else match ConsumeValue(tag / 8, tag % 8, data[n..])
        case None => None
        case Some((f, m)) => Some((f, n + m))
  }

  /** The fields of a message up to the first malformed one, and whether there is none. */
  function Walk(data: seq<Byte>): (seq<Field>, bool) {
    FieldsAdvance();
    WalkWith(ConsumeField, data)
  }

  lemma FieldsAdvance()
    ensures Advances(ConsumeField)
  {
  }

  // ------------------------------------------------------------------ writing

  function TagOf(f: Field): nat { 8 * f.number + KindOf(f) }

  function EncodeValue(f: Field): seq<Byte> {
    match f
    case Varint(_, value) => EncodeVarint(value)
    case Bytes(_, content) => EncodeVarint(|content|) + content
    case Fixed(_, _, content) => content
  }

  function Encode(f: Field): seq<Byte> { EncodeVarint(TagOf(f)) + EncodeValue(f) }

  function Serialize(message: seq<Field>): seq<Byte> { SerializeWith(Encode, message) }

  lemma LimitZero()
    ensures Limit(0) == 0x1_0000_0000_0000_0000
  {
    assert Limit(8) == 256 && Limit(7) == 0x8000 && Limit(6) == 0x40_0000;
    assert Limit(5) == 0x2000_0000 && Limit(4) == 0x10_0000_0000 && Limit(3) == 0x800_0000_0000;
    assert Limit(2) == 0x4_0000_0000_0000 && Limit(1) == 0x200_0000_0000_0000;
  }

  lemma ValueRead(f: Field, rest: seq<Byte>)
    requires ValidField(f)
    ensures ConsumeValue(f.number, KindOf(f), EncodeValue(f) + rest) == Some((f, |EncodeValue(f)|))
  {
    match f
    case Varint(_, value) => VarintRead(value, 0, rest);
    case Bytes(_, content) =>
      VarintRead(|content|, 0, content + rest);
      var head := EncodeVarint(|content|);
      assert EncodeValue(f) + rest == head + (content + rest);
      assert (EncodeValue(f) + rest)[|head|..|head| + |content|] == content;
    case Fixed(_, _, content) =>
  }

  lemma TagRead(f: Field, rest: seq<Byte>)
    requires ValidField(f)
    ensures ConsumeVarint(EncodeVarint(TagOf(f)) + rest, 0) == Some((TagOf(f), |EncodeVarint(TagOf(f))|))
    ensures TagOf(f) / 8 == f.number && TagOf(f) % 8 == KindOf(f)
  {
    LimitZero();
    VarintRead(TagOf(f), 0, rest);
  }

  lemma FieldRead(f: Field, rest: seq<Byte>)
    requires ValidField(f)
    ensures ConsumeField(Encode(f) + rest) == Some((f, |Encode(f)|))
  {
    var tag := EncodeVarint(TagOf(f));
    TagRead(f, EncodeValue(f) + rest);
    ValueRead(f, rest);
    assert Encode(f) + rest == tag + (EncodeValue(f) + rest);
    assert (Encode(f) + rest)[|tag|..] == EncodeValue(f) + rest;
  }

  lemma FieldInverts(f: Field)
    requires ValidField(f)
    ensures Inverts(ConsumeField, Encode, f)
  {
    forall rest ensures ConsumeField(Encode(f) + rest) == Some((f, |Encode(f)|)) {
      FieldRead(f, rest);
    }
  }

  /** Walking a message gives back exactly the fields written. */
  lemma WalkSerialized(message: seq<Field>)
    requires forall f <- message :: ValidField(f)
    ensures Walk(Serialize(message)) == (message, true)
  {
    FieldsAdvance();
    forall f <- message ensures Inverts(ConsumeField, Encode, f) {
      FieldInverts(f);
    }
    WalkBack(ConsumeField, Encode, message);
  }

  lemma ValueCut(f: Field, k: nat)
    requires ValidField(f) && k < |EncodeValue(f)|
    ensures ConsumeValue(f.number, KindOf(f), EncodeValue(f)[..k]) == None
  {
    match f
    case Varint(_, value) => VarintCut(value, 0, k);
    case Bytes(_, content) =>
      var head := EncodeVarint(|content|);
      if k < |head| {
        assert EncodeValue(f)[..k] == head[..k];
        VarintCut(|content|, 0, k);
      } else {
        VarintRead(|content|, 0, content[..k - |head|]);
        assert EncodeValue(f)[..k] == head + content[..k - |head|];
      }
    case Fixed(_, _, content) =>
  }

  lemma FieldCut(f: Field, k: nat)
    requires ValidField(f) && 0 < k < |Encode(f)|
    ensures ConsumeField(Encode(f)[..k]) == None
  {
    var tag := EncodeVarint(TagOf(f));
    LimitZero();
    if k < |tag| {
      assert Encode(f)[..k] == tag[..k];
      VarintCut(TagOf(f), 0, k);
    } else {
      var part := EncodeValue(f)[..k - |tag|];
      assert Encode(f)[..k] == tag + part;
      TagRead(f, part);
      ValueCut(f, k - |tag|);
      assert (tag + part)[|tag|..] == part;
    }
  }

  /** A message cut inside a field is refused, after the fields before the cut. */
  lemma CutIsRefused(message: seq<Field>, f: Field, k: nat)
    requires (forall g <- message :: ValidField(g)) && ValidField(f) && 0 < k < |Encode(f)|
    ensures Walk(Serialize(message) + Encode(f)[..k]) == (message, false)
  {
    FieldsAdvance();
    forall g <- message ensures Inverts(ConsumeField, Encode, g) {
      FieldInverts(g);
    }
    FieldCut(f, k);
    WalkCut(ConsumeField, Encode, message, Encode(f)[..k]);
  }
}
