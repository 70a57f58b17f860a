// What geoip.dat and geosite.dat hold, and what looking codes up in them finds
// (internal/geodat/geodat.go).

module GeoSpec {
  import opened Wrappers
  import opened Sequences
  import opened WireFormat

  /** A reader of messages: the fields up to the first malformed one, and whether there is none. */
  datatype Reader = Reader(walk: seq<Byte> -> (seq<Field>, bool))

  const READER := Reader(Walk)

  /** It gives back the fields an encoder wrote. */
  ghost predicate Faithful(w: Reader) {
    forall message :: (forall f <- message :: ValidField(f)) ==> w.walk(Serialize(message)) == (message, true)
  }

  lemma ReaderIsFaithful()
    ensures Faithful(READER)
  {
    forall message | forall f <- message :: ValidField(f)
      ensures READER.walk(Serialize(message)) == (message, true)
    {
      WalkSerialized(message);
    }
  }

  function LowerByte(b: Byte): Byte { if 0x41 <= b <= 0x5A then b + 0x20 else b }

  /** ASCII only, which is all codes and attributes are made of. */
  function LowerBytes(s: seq<Byte>): seq<Byte> { Map(LowerByte, s) }

  function EntryContent(f: Field): Option<seq<Byte>> {
    if f.Bytes? && f.number == 1 then Some(f.content) else None
  }

  /** A list's entries: the byte fields numbered 1. */
  function EntriesIn(message: seq<Field>): seq<seq<Byte>> { Collect(EntryContent, message) }

  function TakeCode(code: seq<Byte>, f: Field): seq<Byte> {
    match EntryContent(f) case Some(given) => LowerBytes(given) case None => code
  }

  /** An entry's code: the last one it gives. */
  function CodeIn(message: seq<Field>): seq<Byte> { Fold(TakeCode, [], message) }

  function CodeOf(w: Reader, entry: seq<Byte>): seq<Byte> { CodeIn(w.walk(entry).0) }

  predicate Wellformed(w: Reader, entries: seq<seq<Byte>>) { forall e <- entries :: w.walk(e).1 }

  /** A file of this format: walked to its end, every entry too, and not empty. */
  predicate IsDat(w: Reader, data: seq<Byte>) {
    w.walk(data).1 && EntriesIn(w.walk(data).0) != [] && Wellformed(w, EntriesIn(w.walk(data).0))
  }

  /** What a code finds by itself: the last entry with it. */
  function EntryFor(w: Reader, entries: seq<seq<Byte>>, code: seq<Byte>): Option<seq<Byte>> {
    if entries == [] then None
    else if CodeOf(w, entries[|entries| - 1]) == code then Some(entries[|entries| - 1])
    else EntryFor(w, entries[..|entries| - 1], code)
  }

  function At<K, T>(found: map<K, T>, key: K): Option<T> {
    if key in found then Some(found[key]) else None
  }

  // -------------------------------------------------------------------- sites

  datatype Domain = Domain(kind: nat, value: seq<Byte>, attributes: seq<seq<Byte>>)

  const NO_DOMAIN := Domain(0, [], [])

  const PLAIN := 0
  const REGEX := 1
  const SUFFIX := 2
  const FULL := 3

  datatype Query = Query(code: seq<Byte>, attribute: seq<Byte>)

  datatype Sites = Sites(domain: seq<seq<Byte>>, suffix: seq<seq<Byte>>, keyword: seq<seq<Byte>>, regex: seq<seq<Byte>>)

  const NO_SITES := Sites([], [], [], [])

  /** An attribute's key, as often as it is given; a malformed one keeps what came before the damage. */
  function KeysIn(w: Reader, attribute: seq<Byte>): seq<seq<Byte>> {
    Map(LowerBytes, EntriesIn(w.walk(attribute).0))
  }

  function AddDomainField(w: Reader, d: Domain, f: Field): Domain {
    if f.Varint? && f.number == 1 then d.(kind := f.value)
    else if f.Bytes? && f.number == 2 then d.(value := f.content)
    else if f.Bytes? && f.number == 3 then d.(attributes := d.attributes + KeysIn(w, f.content))
    else d
  }

  function ReadDomain(w: Reader, message: seq<Field>): Domain {
    Fold((d, f) => AddDomainField(w, d, f), NO_DOMAIN, message)
  }

  function DomainContent(w: Reader, f: Field): Option<Domain> {
    if f.Bytes? && f.number == 2 then Some(ReadDomain(w, w.walk(f.content).0)) else None
  }

  function DomainsIn(w: Reader, entry: seq<Byte>): seq<Domain> { Collect(f => DomainContent(w, f), w.walk(entry).0) }

  predicate Wanted(d: Domain, attribute: seq<Byte>) {
    d.value != [] && (attribute != [] ==> attribute in d.attributes)
  }

  function AddSite(s: Sites, d: Domain): Sites {
    if d.kind == PLAIN then s.(keyword := s.keyword + [d.value])
    else if d.kind == REGEX then s.(regex := s.regex + [d.value])
    else if d.kind == SUFFIX then s.(suffix := s.suffix + [d.value])
    else if d.kind == FULL then s.(domain := s.domain + [d.value])
    else s
  }

  /** The sites a list of domains gives for an attribute. */
  function SitesOf(domains: seq<Domain>, attribute: seq<Byte>): Sites {
    if domains == [] then NO_SITES
    else
      var before, last := SitesOf(domains[..|domains| - 1], attribute), domains[|domains| - 1];
      if Wanted(last, attribute) then AddSite(before, last) else before
  }

  /** What a query finds by itself. */
  function SitesFor(w: Reader, entries: seq<seq<Byte>>, query: Query): Option<Sites> {
    match EntryFor(w, entries, query.code)
    case Some(entry) => Some(SitesOf(DomainsIn(w, entry), query.attribute))
    case None => None
  }

  // ------------------------------------------------------- all queries at once

  function QueriesFor(queries: seq<Query>, code: seq<Byte>): seq<Query> {
    Collect((q: Query) => if q.code == code then Some(q) else None, queries)
  }

  /** One domain, put into the results of every query that wants it. */
  function PutDomain(wanted: seq<Query>, results: seq<Sites>, d: Domain): (r: seq<Sites>)
    requires |results| == |wanted|
    ensures |r| == |wanted|
  {
    seq(|wanted|, i requires 0 <= i < |wanted| =>
      if Wanted(d, wanted[i].attribute) then AddSite(results[i], d) else results[i])
  }

  /** One walk over an entry's domains for all the queries of its code. */
  function Filled(wanted: seq<Query>, domains: seq<Domain>): (r: seq<Sites>)
    ensures |r| == |wanted|
  {
    if domains == [] then seq(|wanted|, i => NO_SITES)
    else PutDomain(wanted, Filled(wanted, domains[..|domains| - 1]), domains[|domains| - 1])
  }

  function Entered(found: map<Query, Sites>, wanted: seq<Query>, results: seq<Sites>): map<Query, Sites>
    requires |results| == |wanted|
  {
    if wanted == [] then found
    else
      var n := |wanted| - 1;
      Entered(found, wanted[..n], results[..n])[wanted[n] := results[n]]
  }

  function VisitSites(w: Reader, queries: seq<Query>, found: map<Query, Sites>, entry: seq<Byte>): map<Query, Sites> {
    var wanted := QueriesFor(queries, CodeOf(w, entry));
    Entered(found, wanted, Filled(wanted, DomainsIn(w, entry)))
  }

  /** One pass over a file's entries for all the queries. */
  function SitesPass(w: Reader, queries: seq<Query>, entries: seq<seq<Byte>>): map<Query, Sites> {
    Fold((found, entry) => VisitSites(w, queries, found, entry), map[], entries)
  }

  function LookupSites(w: Reader, data: seq<Byte>, queries: seq<Query>): Option<map<Query, Sites>> {
    if IsDat(w, data) then Some(SitesPass(w, queries, EntriesIn(w.walk(data).0))) else None
  }

  // ----------------------------------------------------------------- prefixes

  /** An address and how many of its leading bits count; the rest are cleared. */
  datatype Prefix = Prefix(address: seq<Byte>, bits: nat)

  /** The bits of a byte's last 8 - bits, as a modulus. */
  function Step(bits: nat): (r: nat)
    ensures r > 0
  {
    match bits
    case 0 => 256 case 1 => 128 case 2 => 64 case 3 => 32 case 4 => 16 case 5 => 8 case 6 => 4 case 7 => 2
    case _ => 1
  }

  function MaskByte(b: Byte, bits: nat): Byte {
    var cleared := b % Step(bits);
    if cleared <= b then b - cleared else 0
  }

  function Masked(address: seq<Byte>, bits: nat): (r: seq<Byte>)
    ensures |r| == |address|
  {
    if address == [] then []
    else if bits >= 8 then [address[0]] + Masked(address[1..], bits - 8)
    else [MaskByte(address[0], bits)] + Masked(address[1..], 0)
  }

  datatype Cidr = Cidr(address: seq<Byte>, bits: nat)

  const NO_CIDR := Cidr([], 0)

  function AddCidrField(c: Cidr, f: Field): Cidr {
    if f.Bytes? && f.number == 1 then c.(address := f.content)
    else if f.Varint? && f.number == 2 then c.(bits := f.value)
    else c
  }

  function ReadCidr(message: seq<Field>): Cidr { Fold(AddCidrField, NO_CIDR, message) }

  /** Four or sixteen bytes, and no more bits than they have. */
  function PrefixOf(c: Cidr): Option<Prefix> {
    if (|c.address| == 4 || |c.address| == 16) && c.bits <= 8 * |c.address|
    then Some(Prefix(Masked(c.address, c.bits), c.bits)) else None
  }

  function PrefixContent(w: Reader, f: Field): Option<Prefix> {
    if f.Bytes? && f.number == 2 then PrefixOf(ReadCidr(w.walk(f.content).0)) else None
  }

  function PrefixesIn(w: Reader, entry: seq<Byte>): seq<Prefix> { Collect(f => PrefixContent(w, f), w.walk(entry).0) }

  /** What a code finds by itself. */
  function PrefixesFor(w: Reader, entries: seq<seq<Byte>>, code: seq<Byte>): Option<seq<Prefix>> {
    match EntryFor(w, entries, code) case Some(entry) => Some(PrefixesIn(w, entry)) case None => None
  }

  function VisitIps(
      w: Reader, codes: seq<seq<Byte>>, found: map<seq<Byte>, seq<Prefix>>, entry: seq<Byte>): map<seq<Byte>, seq<Prefix>>
  {
    if CodeOf(w, entry) in codes then found[CodeOf(w, entry) := PrefixesIn(w, entry)] else found
  }

  /** One pass over a file's entries for all the codes. */
  function IpsPass(w: Reader, codes: seq<seq<Byte>>, entries: seq<seq<Byte>>): map<seq<Byte>, seq<Prefix>> {
    Fold((found, entry) => VisitIps(w, codes, found, entry), map[], entries)
  }

  function LookupIps(w: Reader, data: seq<Byte>, codes: seq<seq<Byte>>): Option<map<seq<Byte>, seq<Prefix>>> {
    if IsDat(w, data) then Some(IpsPass(w, Map(LowerBytes, codes), EntriesIn(w.walk(data).0))) else None
  }

  // --------------------------------------------------------- one pass is each

  lemma {:induction false} FilledIsEach(wanted: seq<Query>, domains: seq<Domain>, i: nat)
    requires i < |wanted|
    ensures Filled(wanted, domains)[i] == SitesOf(domains, wanted[i].attribute)
  {
    if domains != [] {
      FilledIsEach(wanted, domains[..|domains| - 1], i);
    }
  }

  lemma {:induction false} EnteredAt(
      found: map<Query, Sites>, wanted: seq<Query>, results: seq<Sites>, value: Query -> Sites, query: Query)
    requires |results| == |wanted| && forall i :: 0 <= i < |wanted| ==> results[i] == value(wanted[i])
    ensures At(Entered(found, wanted, results), query) == if query in wanted then Some(value(query)) else At(found, query)
  {
    if wanted != [] {
      var n := |wanted| - 1;
      EnteredAt(found, wanted[..n], results[..n], value, query);
      assert wanted == wanted[..n] + [wanted[n]];
    }
  }

  lemma VisitedAt(w: Reader, queries: seq<Query>, found: map<Query, Sites>, entry: seq<Byte>, query: Query)
    ensures At(VisitSites(w, queries, found, entry), query) ==
      if query in queries && CodeOf(w, entry) == query.code then Some(SitesOf(DomainsIn(w, entry), query.attribute))
      else At(found, query)
  {
    var code, domains := CodeOf(w, entry), DomainsIn(w, entry);
    var wanted := QueriesFor(queries, code);
    var accept := (q: Query) => if q.code == code then Some(q) else None;
    CollectMembers(accept, queries, query);
    assert query in queries && query.code == code ==> accept(query) == Some(query);
    forall i | 0 <= i < |wanted|
      ensures Filled(wanted, domains)[i] == SitesOf(domains, wanted[i].attribute)
    {
      FilledIsEach(wanted, domains, i);
    }
    EnteredAt(found, wanted, Filled(wanted, domains), (q: Query) => SitesOf(domains, q.attribute), query);
  }

  lemma {:induction false} PassAt(w: Reader, queries: seq<Query>, entries: seq<seq<Byte>>, query: Query)
    ensures At(SitesPass(w, queries, entries), query) == if query in queries then SitesFor(w, entries, query) else None
  {
    if entries != [] {
      var init, last := entries[..|entries| - 1], entries[|entries| - 1];
      PassAt(w, queries, init, query);
      VisitedAt(w, queries, SitesPass(w, queries, init), last, query);
    }
  }

  /**
   * Looking several queries up in one pass, which walks each entry once and puts
   * every domain into the results of all who want it, finds for each of them
   * what its own last entry gives it alone, and nothing that was not asked.
   */
  lemma OnePassIsEach(w: Reader, data: seq<Byte>, queries: seq<Query>)
    ensures LookupSites(w, data, queries).Some? <==> IsDat(w, data)
    ensures IsDat(w, data) ==> forall query ::
      At(LookupSites(w, data, queries).value, query) ==
        if query in queries then SitesFor(w, EntriesIn(w.walk(data).0), query) else None
  {
    if IsDat(w, data) {
      forall query
        ensures At(LookupSites(w, data, queries).value, query) ==
          if query in queries then SitesFor(w, EntriesIn(w.walk(data).0), query) else None
      {
        PassAt(w, queries, EntriesIn(w.walk(data).0), query);
      }
    }
  }

  lemma {:induction false} IpsPassAt(w: Reader, codes: seq<seq<Byte>>, entries: seq<seq<Byte>>, code: seq<Byte>)
    ensures At(IpsPass(w, codes, entries), code) == if code in codes then PrefixesFor(w, entries, code) else None
  {
    if entries != [] {
      IpsPassAt(w, codes, entries[..|entries| - 1], code);
    }
  }

  /** The same for prefixes: each code finds what its own last entry holds. */
  lemma OneIpPassIsEach(w: Reader, data: seq<Byte>, codes: seq<seq<Byte>>, code: seq<Byte>)
    ensures LookupIps(w, data, codes).Some? <==> IsDat(w, data)
    ensures IsDat(w, data) ==>
      At(LookupIps(w, data, codes).value, code) ==
        if code in Map(LowerBytes, codes) then PrefixesFor(w, EntriesIn(w.walk(data).0), code) else None
  {
    if IsDat(w, data) {
      IpsPassAt(w, Map(LowerBytes, codes), EntriesIn(w.walk(data).0), code);
    }
  }

  // ------------------------------------------------------------ what it means

  /** The domains carrying an attribute, in order. */
  function Carrying(domains: seq<Domain>, attribute: seq<Byte>): seq<Domain> {
    Collect(d => if Wanted(d, attribute) then Some(d) else None, domains)
  }

  /** code@attribute is code restricted to the entries carrying it, order kept. */
  lemma {:induction false} AttributeFilters(domains: seq<Domain>, attribute: seq<Byte>)
    ensures SitesOf(domains, attribute) == SitesOf(Carrying(domains, attribute), [])
  {
    var keep := (d: Domain) => if Wanted(d, attribute) then Some(d) else None;
    if domains != [] {
      var init, last := domains[..|domains| - 1], domains[|domains| - 1];
      AttributeFilters(init, attribute);
      assert Collect(keep, domains) == Collect(keep, init) + (if Wanted(last, attribute) then [last] else []);
      if Wanted(last, attribute) {
        assert (Carrying(init, attribute) + [last])[..|Carrying(init, attribute)|] == Carrying(init, attribute);
      }
    }
  }

  /** Bit i of an address, its first byte's highest first. */
  function Bit(address: seq<Byte>, i: nat): nat
    requires i < 8 * |address|
  {
    ByteBit(address[i / 8], i % 8)
  }

  function ByteBit(b: Byte, i: nat): nat {
    b / Step(i + 1) % 2
  }

  predicate Power(n: nat) {
    n == 1 || n == 2 || n == 4 || n == 8 || n == 16 || n == 32 || n == 64 || n == 128
  }

  lemma Divided(b: nat, n: nat)
    requires n > 0
    ensures b == n * (b / n) + b % n
  {
  }

  lemma HalvedMod(b: nat, half: nat)
    requires Power(half)
    ensures b % (2 * half) == 2 * (b / 2 % half) + b % 2
  {
    HalvedQuotient(b, half);
    var q := b / (2 * half);
    Divided(b, 2 * half);
    Divided(b / 2, half);
    Divided(b, 2);
    Doubled(half, q);
  }

  lemma Doubled(half: nat, q: nat)
    ensures 2 * half * q == 2 * (half * q)
  {
  }

  lemma HalvedDiv(x: nat, half: nat)
    requires Power(half)
    ensures 2 * x / (2 * half) == x / half
  {
    if half == 1 {} else if half == 2 {} else if half == 4 {} else if half == 8 {} else if half == 16 {}
    else if half == 32 {} else if half == 64 {} else {}
  }

  lemma HalvedQuotient(b: nat, half: nat)
    requires Power(half)
    ensures b / (2 * half) == b / 2 / half
  {
    if half == 1 {} else if half == 2 {} else if half == 4 {} else if half == 8 {} else if half == 16 {}
    else if half == 32 {} else if half == 64 {} else {}
  }

  lemma EvenRest(b: nat, half: nat)
    requires Power(half)
    ensures (b - b % (2 * half)) % 2 == 0
  {
    HalvedMod(b, half);
  }

  lemma HalvedCleared(b: nat, half: nat, unit: nat)
    requires Power(half) && Power(unit)
    ensures b % (2 * half) <= b && b / 2 % half <= b / 2
    ensures (b - b % (2 * half)) / (2 * unit) == (b / 2 - b / 2 % half) / unit
  {
    HalvedMod(b, half);
    Divided(b, 2 * half);
    Divided(b / 2, half);
    HalvedDiv(b / 2 - b / 2 % half, unit);
  }

  /** Clearing the bits worth less than cut leaves the others, one halving at a time. */
  lemma {:induction false} Cleared(b: nat, cut: nat, unit: nat)
    requires (cut == 256 || Power(cut)) && Power(unit)
    ensures b % cut <= b && (b - b % cut) / unit % 2 == if unit >= cut then b / unit % 2 else 0
    decreases cut
  {
    if cut > 1 {
      HalvedCleared(b, cut / 2, if unit > 1 then unit / 2 else 1);
      if unit == 1 {
        EvenRest(b, cut / 2);
      } else {
        Cleared(b / 2, cut / 2, unit / 2);
        HalvedQuotient(b, unit / 2);
      }
    }
  }

  lemma MaskedByte(b: Byte, bits: nat, i: nat)
    requires bits < 8 && i < 8
    ensures ByteBit(MaskByte(b, bits), i) == if i < bits then ByteBit(b, i) else 0
  {
    Cleared(b, Step(bits), Step(i + 1));
  }

  /** Masking keeps the leading bits as they are and clears every other. */
  lemma {:induction false} MaskedBits(address: seq<Byte>, bits: nat, i: nat)
    requires i < 8 * |address|
    ensures Bit(Masked(address, bits), i) == if i < bits then Bit(address, i) else 0
  {
    var rest := if bits >= 8 then bits - 8 else 0;
    if i < 8 {
      if bits < 8 {
        MaskedByte(address[0], bits, i);
      }
    } else {
      MaskedBits(address[1..], rest, i - 8);
      assert Masked(address, bits)[1..] == Masked(address[1..], rest);
      assert i / 8 == (i - 8) / 8 + 1 && i % 8 == (i - 8) % 8;
    }
  }
}
