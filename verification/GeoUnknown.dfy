// Fields the readers of internal/geodat/geodat.go do not know, at any depth of a
// file: inside the list, an entry, a domain, an attribute or a prefix.

module GeoUnknown {
  import opened Wrappers
  import opened Sequences
  import opened WireFormat
  import opened GeoSpec

  /** What a message is: the two lists and what they are made of. */
  datatype Shape = SiteList | SiteEntry | DomainMessage | AttributeMessage | IpList | IpEntry | CidrMessage

  /** The fields each reader looks at. */
  predicate Own(shape: Shape, f: Field) {
    match shape
    case DomainMessage => (f.Varint? && f.number == 1) || (f.Bytes? && (f.number == 2 || f.number == 3))
    case CidrMessage => (f.Bytes? && f.number == 1) || (f.Varint? && f.number == 2)
    case SiteEntry => f.Bytes? && (f.number == 1 || f.number == 2)
    case IpEntry => f.Bytes? && (f.number == 1 || f.number == 2)
    case _ => f.Bytes? && f.number == 1
  }

  /** Which of them are messages themselves. */
  function Nested(shape: Shape, number: nat): Option<Shape> {
    match (shape, number)
    case (SiteList, 1) => Some(SiteEntry)
    case (SiteEntry, 2) => Some(DomainMessage)
    case (DomainMessage, 3) => Some(AttributeMessage)
    case (IpList, 1) => Some(IpEntry)
    case (IpEntry, 2) => Some(CidrMessage)
    case _ => None
  }

  /** A message with a place in it: between two of its fields, or inside one of them. */
  datatype Spot =
    | Here(before: seq<Field>, unknown: Field, after: seq<Field>)
    | Inside(before: seq<Field>, number: nat, inner: Spot, after: seq<Field>)

  function With(s: Spot): seq<Field> {
    match s
    case Here(before, unknown, after) => before + [unknown] + after
    case Inside(before, number, inner, after) => before + [Bytes(number, Serialize(With(inner)))] + after
  }

  function Without(s: Spot): seq<Field> {
    match s
    case Here(before, _, after) => before + after
    case Inside(before, number, inner, after) => before + [Bytes(number, Serialize(Without(inner)))] + after
  }

  /** The field put there is none the reader of that message looks at. */
  predicate Fits(shape: Shape, s: Spot)
    decreases s
  {
    match s
    case Here(_, unknown, _) => !Own(shape, unknown)
    case Inside(_, number, inner, _) => Nested(shape, number).Some? && Fits(Nested(shape, number).value, inner)
  }

  predicate ValidMessage(message: seq<Field>) { forall f <- message :: ValidField(f) }

  /** Both forms can be written. */
  predicate Written(s: Spot) {
    ValidMessage(With(s)) && ValidMessage(Without(s)) && (s.Inside? ==> Written(s.inner))
  }

  // ---------------------------------------------------------- folds and lists

  lemma FoldSkips<S, E>(step: (S, E) -> S, s: S, before: seq<E>, e: E, after: seq<E>)
    requires forall t :: step(t, e) == t
    ensures Fold(step, s, before + [e] + after) == Fold(step, s, before + after)
  {
    FoldTwo(step, s, before + [e], after);
    FoldTwo(step, s, before, after);
    FoldMore(step, s, before, e);
  }

  lemma FoldSwaps<S, E>(step: (S, E) -> S, s: S, before: seq<E>, e: E, f: E, after: seq<E>)
    requires forall t :: step(t, e) == step(t, f)
    ensures Fold(step, s, before + [e] + after) == Fold(step, s, before + [f] + after)
  {
    FoldTwo(step, s, before + [e], after);
    FoldTwo(step, s, before + [f], after);
    FoldMore(step, s, before, e);
    FoldMore(step, s, before, f);
  }

  lemma CollectAround<S, T>(accept: S -> Option<T>, before: seq<S>, e: S, after: seq<S>)
    ensures Collect(accept, before + [e] + after) ==
      Collect(accept, before) + (match accept(e) case Some(value) => [value] case None => []) + Collect(accept, after)
  {
    CollectAppend(accept, before + [e], after);
    CollectAppend(accept, before, [e]);
    CollectOne(accept, e);
  }

  lemma CollectSkips<S, T>(accept: S -> Option<T>, before: seq<S>, e: S, after: seq<S>)
    requires accept(e).None?
    ensures Collect(accept, before + [e] + after) == Collect(accept, before + after)
  {
    CollectAround(accept, before, e, after);
    CollectAppend(accept, before, after);
    NothingAfter(Collect(accept, before));
  }

  lemma CollectSwaps<S, T>(accept: S -> Option<T>, before: seq<S>, e: S, f: S, after: seq<S>)
    requires accept(e) == accept(f)
    ensures Collect(accept, before + [e] + after) == Collect(accept, before + [f] + after)
  {
    CollectAround(accept, before, e, after);
    CollectAround(accept, before, f, after);
  }

  // -------------------------------------------------------------- level by level

  lemma SpotWalked(w: Reader, s: Spot)
    requires Faithful(w) && Written(s)
    ensures w.walk(Serialize(With(s))) == (With(s), true) && w.walk(Serialize(Without(s))) == (Without(s), true)
  {
  }

  lemma SameKeys(w: Reader, s: Spot)
    requires Faithful(w) && Written(s) && Fits(AttributeMessage, s)
    ensures KeysIn(w, Serialize(With(s))) == KeysIn(w, Serialize(Without(s)))
  {
    SpotWalked(w, s);
    CollectSkips(EntryContent, s.before, s.unknown, s.after);
  }

  lemma SameDomain(w: Reader, s: Spot)
    requires Faithful(w) && Written(s) && Fits(DomainMessage, s)
    ensures ReadDomain(w, With(s)) == ReadDomain(w, Without(s))
  {
    var add := (d, f) => AddDomainField(w, d, f);
    match s
    case Here(before, unknown, after) => FoldSkips(add, NO_DOMAIN, before, unknown, after);
    case Inside(before, number, inner, after) =>
      SameKeys(w, inner);
      FoldSwaps(add, NO_DOMAIN, before, Bytes(number, Serialize(With(inner))), Bytes(number, Serialize(Without(inner))), after);
  }

  lemma SameCidr(s: Spot)
    requires Written(s) && Fits(CidrMessage, s)
    ensures ReadCidr(With(s)) == ReadCidr(Without(s))
  {
    FoldSkips(AddCidrField, NO_CIDR, s.before, s.unknown, s.after);
  }

  /** An entry's code does not see what is inside its other fields. */
  lemma SameCode(shape: Shape, s: Spot)
    requires (shape.SiteEntry? || shape.IpEntry?) && Fits(shape, s)
    ensures CodeIn(With(s)) == CodeIn(Without(s))
  {
    match s
    case Here(before, unknown, after) => FoldSkips(TakeCode, [], before, unknown, after);
    case Inside(before, number, inner, after) =>
      FoldSwaps(TakeCode, [], before, Bytes(number, Serialize(With(inner))), Bytes(number, Serialize(Without(inner))), after);
  }

  lemma SameDomains(w: Reader, s: Spot)
    requires Faithful(w) && Written(s) && Fits(SiteEntry, s)
    ensures DomainsIn(w, Serialize(With(s))) == DomainsIn(w, Serialize(Without(s)))
  {
    var content := f => DomainContent(w, f);
    SpotWalked(w, s);
    match s
    case Here(before, unknown, after) => CollectSkips(content, before, unknown, after);
    case Inside(before, number, inner, after) =>
      SpotWalked(w, inner);
      SameDomain(w, inner);
      CollectSwaps(content, before, Bytes(number, Serialize(With(inner))), Bytes(number, Serialize(Without(inner))), after);
  }

  lemma SamePrefixes(w: Reader, s: Spot)
    requires Faithful(w) && Written(s) && Fits(IpEntry, s)
    ensures PrefixesIn(w, Serialize(With(s))) == PrefixesIn(w, Serialize(Without(s)))
  {
    var content := f => PrefixContent(w, f);
    SpotWalked(w, s);
    match s
    case Here(before, unknown, after) => CollectSkips(content, before, unknown, after);
    case Inside(before, number, inner, after) =>
      SpotWalked(w, inner);
      SameCidr(inner);
      CollectSwaps(content, before, Bytes(number, Serialize(With(inner))), Bytes(number, Serialize(Without(inner))), after);
  }

  lemma SameEntry(w: Reader, shape: Shape, s: Spot)
    requires Faithful(w) && Written(s) && (shape.SiteEntry? || shape.IpEntry?) && Fits(shape, s)
    ensures w.walk(Serialize(With(s))).1 && w.walk(Serialize(Without(s))).1
    ensures CodeOf(w, Serialize(With(s))) == CodeOf(w, Serialize(Without(s)))
  {
    SpotWalked(w, s);
    SameCode(shape, s);
  }

  // ---------------------------------------------------------------- whole files

  /** The entries on either side of one that differs. */
  lemma EntriesAround(before: seq<Field>, content: seq<Byte>, after: seq<Field>)
    ensures EntriesIn(before + [Bytes(1, content)] + after) == EntriesIn(before) + [content] + EntriesIn(after)
  {
    CollectAround(EntryContent, before, Bytes(1, content), after);
  }

  lemma StillWellformed(w: Reader, before: seq<seq<Byte>>, x: seq<Byte>, y: seq<Byte>, after: seq<seq<Byte>>)
    requires w.walk(x).1 && w.walk(y).1
    ensures Wellformed(w, before + [x] + after) <==> Wellformed(w, before + [y] + after)
  {
    assert forall e :: e in before + [x] + after <==> e in before || e == x || e in after;
    assert forall e :: e in before + [y] + after <==> e in before || e == y || e in after;
  }

  /** Two lists alike but for one entry, which two readers see the same in. */
  lemma AlikeFiles<T>(w: Reader, s: Spot, visit: (T, seq<Byte>) -> T, start: T)
    requires Faithful(w) && Written(s) && s.Inside? && s.number == 1
    requires var x, y := Serialize(With(s.inner)), Serialize(Without(s.inner));
      w.walk(x).1 && w.walk(y).1 && forall t :: visit(t, x) == visit(t, y)
    ensures var x, y := Serialize(With(s)), Serialize(Without(s));
      && (IsDat(w, x) <==> IsDat(w, y))
      && Fold(visit, start, EntriesIn(w.walk(x).0)) == Fold(visit, start, EntriesIn(w.walk(y).0))
  {
    var x, y := Serialize(With(s.inner)), Serialize(Without(s.inner));
    var before, after := EntriesIn(s.before), EntriesIn(s.after);
    SpotWalked(w, s);
    EntriesAround(s.before, x, s.after);
    EntriesAround(s.before, y, s.after);
    StillWellformed(w, before, x, y, after);
    FoldSwaps(visit, start, before, x, y, after);
  }

  lemma SameEntries(w: Reader, s: Spot)
    requires Faithful(w) && Written(s) && s.Here? && EntryContent(s.unknown).None?
    ensures EntriesIn(w.walk(Serialize(With(s))).0) == EntriesIn(w.walk(Serialize(Without(s))).0)
    ensures w.walk(Serialize(With(s))).1 && w.walk(Serialize(Without(s))).1
  {
    SpotWalked(w, s);
    CollectSkips(EntryContent, s.before, s.unknown, s.after);
  }

  lemma SitesUnchanged(w: Reader, s: Spot, queries: seq<Query>)
    requires Faithful(w) && Written(s) && Fits(SiteList, s)
    ensures LookupSites(w, Serialize(With(s)), queries) == LookupSites(w, Serialize(Without(s)), queries)
  {
    match s
    case Here(_, _, _) => SameEntries(w, s);
    case Inside(_, _, inner, _) =>
      SameEntry(w, SiteEntry, inner);
      SameDomains(w, inner);
      AlikeFiles(w, s, (found, entry) => VisitSites(w, queries, found, entry), map[]);
  }

  lemma IpsUnchanged(w: Reader, s: Spot, codes: seq<seq<Byte>>)
    requires Faithful(w) && Written(s) && Fits(IpList, s)
    ensures LookupIps(w, Serialize(With(s)), codes) == LookupIps(w, Serialize(Without(s)), codes)
  {
    match s
    case Here(_, _, _) => SameEntries(w, s);
    case Inside(_, _, inner, _) =>
      SameEntry(w, IpEntry, inner);
      SamePrefixes(w, inner);
      AlikeFiles(w, s, (found, entry) => VisitIps(w, Map(LowerBytes, codes), found, entry), map[]);
  }

  /**
   * A field no reader knows changes nothing, wherever it is put: between the
   * entries of a file, or inside an entry, a domain or an attribute.
   */
  lemma UnknownIgnored(s: Spot, queries: seq<Query>)
    requires Written(s) && Fits(SiteList, s)
    ensures LookupSites(READER, Serialize(With(s)), queries) == LookupSites(READER, Serialize(Without(s)), queries)
  {
    ReaderIsFaithful();
    SitesUnchanged(READER, s, queries);
  }

  /** Nor in a file of prefixes: between entries, or inside an entry or a prefix. */
  lemma UnknownIgnoredByIps(s: Spot, codes: seq<seq<Byte>>)
    requires Written(s) && Fits(IpList, s)
    ensures LookupIps(READER, Serialize(With(s)), codes) == LookupIps(READER, Serialize(Without(s)), codes)
  {
    ReaderIsFaithful();
    IpsUnchanged(READER, s, codes);
  }
}
