// Whole files written and read back (internal/geodat/geodat.go): the domains or
// prefixes under each code, in the order they were written.

module GeoFile {
  import opened Wrappers
  import opened Sequences
  import opened WireFormat
  import opened GeoSpec

  lemma MapSnoc<S, T>(f: S -> T, base: seq<T>, values: seq<S>)
    requires values != []
    ensures base + Map(f, values) == (base + Map(f, values[..|values| - 1])) + [f(values[|values| - 1])]
  {
  }

  lemma Resnoc<T>(base: seq<T>, values: seq<T>)
    requires values != []
    ensures base + values[..|values| - 1] + [values[|values| - 1]] == base + values
  {
  }

  lemma CollectMore<S, T>(accept: S -> Option<T>, before: seq<S>, e: S)
    ensures Collect(accept, before + [e]) ==
      Collect(accept, before) + match accept(e) case Some(value) => [value] case None => []
  {
    assert (before + [e])[..|before|] == before;
  }

  // ------------------------------------------------------------ an entry of parts

  /** An entry: its code, and its parts, each a field of its own. */
  function EntryFields<P>(code: seq<Byte>, field: P -> Field, parts: seq<P>): seq<Field> {
    [Bytes(1, code)] + Map(field, parts)
  }

  lemma {:induction false} PartsRead<P, T>(
      base: seq<Field>, field: P -> Field, parts: seq<P>, content: Field -> Option<T>, accept: P -> Option<T>)
    requires forall p <- parts :: EntryContent(field(p)).None? && content(field(p)) == accept(p)
    ensures CodeIn(base + Map(field, parts)) == CodeIn(base)
    ensures Collect(content, base + Map(field, parts)) == Collect(content, base) + Collect(accept, parts)
  {
    if parts == [] {
      NothingAfter(base);
      NothingAfter(Collect(content, base));
      assert Map(field, parts) == [];
    } else {
      var init, last := parts[..|parts| - 1], parts[|parts| - 1];
      assert last in parts && forall p <- init :: p in parts;
      PartsRead(base, field, init, content, accept);
      MapSnoc(field, base, parts);
      FoldMore(TakeCode, [], base + Map(field, init), field(last));
      CollectMore(content, base + Map(field, init), field(last));
    }
  }

  /** Read back, an entry has its code in lower case and its parts in order. */
  lemma EntryRead<P, T>(
      code: seq<Byte>, field: P -> Field, parts: seq<P>, content: Field -> Option<T>, accept: P -> Option<T>)
    requires content(Bytes(1, code)).None?
    requires forall p <- parts :: EntryContent(field(p)).None? && content(field(p)) == accept(p)
    ensures CodeIn(EntryFields(code, field, parts)) == LowerBytes(code)
    ensures Collect(content, EntryFields(code, field, parts)) == Collect(accept, parts)
  {
    PartsRead([Bytes(1, code)], field, parts, content, accept);
    assert [Bytes(1, code)][..0] == [];
    FoldMore(TakeCode, [], [], Bytes(1, code));
    assert [] + [Bytes(1, code)] == [Bytes(1, code)];
    NothingBefore(Collect(accept, parts));
  }

  lemma EntryFieldsValid<P>(code: seq<Byte>, field: P -> Field, parts: seq<P>)
    requires ValidField(Bytes(1, code)) && forall p <- parts :: ValidField(field(p))
    ensures forall f <- EntryFields(code, field, parts) :: ValidField(f)
  {
    forall f <- Map(field, parts) ensures ValidField(f) {
      MapMembers(field, parts, f);
    }
  }

  // --------------------------------------------------------------- a file of them

  /** A file whose entries are these contents, in order. */
  function ListOf<E>(content: E -> seq<Byte>, entries: seq<E>): seq<Field> {
    Map(e => Bytes(1, content(e)), entries)
  }

  lemma {:induction false} EntriesWritten<E>(content: E -> seq<Byte>, entries: seq<E>)
    ensures EntriesIn(ListOf(content, entries)) == Map(content, entries)
  {
    if entries != [] {
      EntriesWritten(content, entries[..|entries| - 1]);
      assert ListOf(content, entries)[..|entries| - 1] == ListOf(content, entries[..|entries| - 1]);
    }
  }

  lemma FileIsDat<E>(w: Reader, content: E -> seq<Byte>, entries: seq<E>)
    requires Faithful(w) && entries != []
    requires forall e <- entries :: ValidField(Bytes(1, content(e))) && w.walk(content(e)).1
    ensures var data := Serialize(ListOf(content, entries));
      IsDat(w, data) && EntriesIn(w.walk(data).0) == Map(content, entries)
  {
    var message := ListOf(content, entries);
    forall f <- message ensures ValidField(f) {
      MapMembers(e => Bytes(1, content(e)), entries, f);
    }
    assert w.walk(Serialize(message)) == (message, true);
    EntriesWritten(content, entries);
    forall c <- Map(content, entries) ensures w.walk(c).1 {
      MapMembers(content, entries, c);
    }
  }

  /** The last of them with a code. */
  function Named<E>(codeOf: E -> seq<Byte>, entries: seq<E>, code: seq<Byte>): Option<E> {
    if entries == [] then None
    else if LowerBytes(codeOf(entries[|entries| - 1])) == code then Some(entries[|entries| - 1])
    else Named(codeOf, entries[..|entries| - 1], code)
  }

  lemma {:induction false} NamedWritten<E>(
      w: Reader, content: E -> seq<Byte>, codeOf: E -> seq<Byte>, entries: seq<E>, code: seq<Byte>)
    requires forall e <- entries :: CodeOf(w, content(e)) == LowerBytes(codeOf(e))
    ensures EntryFor(w, Map(content, entries), code) ==
      match Named(codeOf, entries, code) case Some(e) => Some(content(e)) case None => None
    ensures Named(codeOf, entries, code).Some? ==> Named(codeOf, entries, code).value in entries
  {
    if entries != [] {
      var init, last := entries[..|entries| - 1], entries[|entries| - 1];
      assert last in entries && forall e <- init :: e in entries;
      NamedWritten(w, content, codeOf, init, code);
      assert Map(content, entries)[..|entries| - 1] == Map(content, init);
    }
  }

  // ------------------------------------------------------------------- geosite.dat

  datatype Site = Site(code: seq<Byte>, domains: seq<Domain>)

  function AttributeField(key: seq<Byte>): Field { Bytes(3, Serialize([Bytes(1, key)])) }

  function DomainFields(d: Domain): seq<Field> {
    [Varint(1, d.kind), Bytes(2, d.value)] + Map(AttributeField, d.attributes)
  }

  function DomainField(d: Domain): Field { Bytes(2, Serialize(DomainFields(d))) }

  function SiteContent(s: Site): seq<Byte> { Serialize(EntryFields(s.code, DomainField, s.domains)) }

  function SiteCode(s: Site): seq<Byte> { s.code }

  /** A geosite.dat of these codes, in order. */
  function GeoSiteFile(sites: seq<Site>): seq<Byte> { Serialize(ListOf(SiteContent, sites)) }

  /** Small enough to be written, and with lower-case attributes, which is how they are compared. */
  predicate WritableSite(s: Site) {
    && ValidField(Bytes(1, SiteContent(s))) && ValidField(Bytes(1, s.code))
    && forall d <- s.domains ::
         && ValidField(DomainField(d)) && (forall f <- DomainFields(d) :: ValidField(f))
         && forall key <- d.attributes :: ValidField(Bytes(1, key)) && LowerBytes(key) == key
  }

  lemma AttributeRead(w: Reader, key: seq<Byte>)
    requires Faithful(w) && ValidField(Bytes(1, key)) && LowerBytes(key) == key
    ensures KeysIn(w, AttributeField(key).content) == [key]
  {
    assert w.walk(Serialize([Bytes(1, key)])) == ([Bytes(1, key)], true);
  }

  lemma DomainMore(w: Reader, before: seq<Field>, f: Field)
    ensures ReadDomain(w, before + [f]) == AddDomainField(w, ReadDomain(w, before), f)
  {
    FoldMore((d, g) => AddDomainField(w, d, g), NO_DOMAIN, before, f);
  }

  lemma {:induction false} AttributesRead(w: Reader, base: seq<Field>, field: seq<Byte> -> Field, keys: seq<seq<Byte>>)
    requires forall key <- keys :: field(key).Bytes? && field(key).number == 3 && KeysIn(w, field(key).content) == [key]
    ensures var before := ReadDomain(w, base);
      ReadDomain(w, base + Map(field, keys)) == before.(attributes := before.attributes + keys)
  {
    if keys == [] {
      assert base + Map(field, keys) == base;
    } else {
      var init, last := keys[..|keys| - 1], keys[|keys| - 1];
      assert last in keys && forall key <- init :: key in keys;
      AttributesRead(w, base, field, init);
      MapSnoc(field, base, keys);
      DomainMore(w, base + Map(field, init), field(last));
      Resnoc(ReadDomain(w, base).attributes, keys);
    }
  }

  lemma BaseRead(w: Reader, kind: Field, value: Field)
    requires kind.Varint? && kind.number == 1 && value.Bytes? && value.number == 2
    ensures ReadDomain(w, [kind, value]) == Domain(kind.value, value.content, [])
  {
    DomainMore(w, [], kind);
    DomainMore(w, [kind], value);
    assert [] + [kind] == [kind] && [kind] + [value] == [kind, value];
  }

  lemma FieldsRead(w: Reader, d: Domain, field: seq<Byte> -> Field)
    requires forall key <- d.attributes :: field(key).Bytes? && field(key).number == 3 && KeysIn(w, field(key).content) == [key]
    ensures ReadDomain(w, [Varint(1, d.kind), Bytes(2, d.value)] + Map(field, d.attributes)) == d
  {
    BaseRead(w, Varint(1, d.kind), Bytes(2, d.value));
    AttributesRead(w, [Varint(1, d.kind), Bytes(2, d.value)], field, d.attributes);
  }

  lemma DomainWalked(w: Reader, d: Domain, message: seq<Field>)
    requires Faithful(w) && (forall f <- message :: ValidField(f)) && ReadDomain(w, message) == d
    ensures DomainContent(w, Bytes(2, Serialize(message))) == Some(d)
  {
  }

  lemma DomainRead(w: Reader, d: Domain)
    requires Faithful(w) && forall f <- DomainFields(d) :: ValidField(f)
    requires forall key <- d.attributes :: ValidField(Bytes(1, key)) && LowerBytes(key) == key
    ensures DomainContent(w, DomainField(d)) == Some(d)
  {
    forall key <- d.attributes ensures KeysIn(w, AttributeField(key).content) == [key] {
      AttributeRead(w, key);
    }
    FieldsRead(w, d, AttributeField);
    DomainWalked(w, d, DomainFields(d));
  }

  lemma {:induction false} AllKept<T(!new)>(accept: T -> Option<T>, values: seq<T>)
    requires forall v :: accept(v) == Some(v)
    ensures Collect(accept, values) == values
  {
    if values != [] {
      AllKept(accept, values[..|values| - 1]);
    }
  }

  lemma SitePartsRead(w: Reader, code: seq<Byte>, field: Domain -> Field, domains: seq<Domain>)
    requires forall d <- domains :: DomainContent(w, field(d)) == Some(d) && EntryContent(field(d)).None?
    ensures CodeIn(EntryFields(code, field, domains)) == LowerBytes(code)
    ensures Collect(f => DomainContent(w, f), EntryFields(code, field, domains)) == domains
  {
    var keep := (d: Domain) => Some(d);
    EntryRead(code, field, domains, f => DomainContent(w, f), keep);
    AllKept(keep, domains);
  }

  lemma SiteRead(w: Reader, s: Site)
    requires Faithful(w) && WritableSite(s)
    ensures w.walk(SiteContent(s)).1
    ensures CodeOf(w, SiteContent(s)) == LowerBytes(s.code) && DomainsIn(w, SiteContent(s)) == s.domains
  {
    forall d <- s.domains
      ensures DomainContent(w, DomainField(d)) == Some(d) && EntryContent(DomainField(d)).None?
    {
      DomainRead(w, d);
    }
    SitePartsRead(w, s.code, DomainField, s.domains);
    EntryFieldsValid(s.code, DomainField, s.domains);
    SiteWalked(w, EntryFields(s.code, DomainField, s.domains));
  }

  lemma SiteWalked(w: Reader, message: seq<Field>)
    requires Faithful(w) && forall f <- message :: ValidField(f)
    ensures w.walk(Serialize(message)).1 && CodeOf(w, Serialize(message)) == CodeIn(message)
    ensures DomainsIn(w, Serialize(message)) == Collect(f => DomainContent(w, f), message)
    ensures PrefixesIn(w, Serialize(message)) == Collect(f => PrefixContent(w, f), message)
  {
  }

  lemma SitesRead(w: Reader, sites: seq<Site>, queries: seq<Query>, query: Query)
    requires Faithful(w) && (forall s <- sites :: WritableSite(s)) && sites != []
    ensures LookupSites(w, GeoSiteFile(sites), queries).Some?
    ensures At(LookupSites(w, GeoSiteFile(sites), queries).value, query) ==
      if query !in queries then None
      else match Named(SiteCode, sites, query.code)
        case Some(s) => Some(SitesOf(Carrying(s.domains, query.attribute), []))
        case None => None
  {
    forall s <- sites
      ensures ValidField(Bytes(1, SiteContent(s))) && w.walk(SiteContent(s)).1
      ensures CodeOf(w, SiteContent(s)) == LowerBytes(SiteCode(s)) && DomainsIn(w, SiteContent(s)) == s.domains
    {
      SiteRead(w, s);
    }
    FileIsDat(w, SiteContent, sites);
    NamedWritten(w, SiteContent, SiteCode, sites, query.code);
    OnePassIsEach(w, GeoSiteFile(sites), queries);
    if Named(SiteCode, sites, query.code).Some? {
      AttributeFilters(Named(SiteCode, sites, query.code).value.domains, query.attribute);
    }
  }

  /**
   * A geosite.dat is read back: each query finds the domains written under its
   * code, those carrying its attribute, in the order they were written; and
   * nothing else is found.
   */
  lemma FileRoundTrip(sites: seq<Site>, queries: seq<Query>, query: Query)
    requires (forall s <- sites :: WritableSite(s)) && sites != []
    ensures LookupSites(READER, GeoSiteFile(sites), queries).Some?
    ensures At(LookupSites(READER, GeoSiteFile(sites), queries).value, query) ==
      if query !in queries then None
      else match Named(SiteCode, sites, query.code)
        case Some(s) => Some(SitesOf(Carrying(s.domains, query.attribute), []))
        case None => None
  {
    ReaderIsFaithful();
    SitesRead(READER, sites, queries, query);
  }

  // --------------------------------------------------------------------- geoip.dat

  datatype Ips = Ips(code: seq<Byte>, cidrs: seq<Cidr>)

  function CidrFields(c: Cidr): seq<Field> { [Bytes(1, c.address), Varint(2, c.bits)] }

  function CidrField(c: Cidr): Field { Bytes(2, Serialize(CidrFields(c))) }

  function IpsContent(s: Ips): seq<Byte> { Serialize(EntryFields(s.code, CidrField, s.cidrs)) }

  function IpsCode(s: Ips): seq<Byte> { s.code }

  /** A geoip.dat of these codes, in order. */
  function GeoIpFile(lists: seq<Ips>): seq<Byte> { Serialize(ListOf(IpsContent, lists)) }

  predicate WritableIps(s: Ips) {
    && ValidField(Bytes(1, IpsContent(s))) && ValidField(Bytes(1, s.code))
    && forall c <- s.cidrs :: ValidField(CidrField(c)) && forall f <- CidrFields(c) :: ValidField(f)
  }

  /** What the readable ones of these come to, in order: the rest are left out. */
  function PrefixesOf(cidrs: seq<Cidr>): seq<Prefix> { Collect(PrefixOf, cidrs) }

  lemma CidrRead(w: Reader, c: Cidr)
    requires Faithful(w) && forall f <- CidrFields(c) :: ValidField(f)
    ensures PrefixContent(w, CidrField(c)) == PrefixOf(c)
  {
    var address, bits := Bytes(1, c.address), Varint(2, c.bits);
    assert w.walk(Serialize(CidrFields(c))) == (CidrFields(c), true);
    FoldMore(AddCidrField, NO_CIDR, [], address);
    FoldMore(AddCidrField, NO_CIDR, [address], bits);
    assert [] + [address] == [address] && [address] + [bits] == CidrFields(c);
  }

  lemma IpPartsRead(w: Reader, code: seq<Byte>, field: Cidr -> Field, cidrs: seq<Cidr>)
    requires forall c <- cidrs :: PrefixContent(w, field(c)) == PrefixOf(c) && EntryContent(field(c)).None?
    ensures CodeIn(EntryFields(code, field, cidrs)) == LowerBytes(code)
    ensures Collect(f => PrefixContent(w, f), EntryFields(code, field, cidrs)) == PrefixesOf(cidrs)
  {
    EntryRead(code, field, cidrs, f => PrefixContent(w, f), PrefixOf);
  }

  lemma IpsRead(w: Reader, s: Ips)
    requires Faithful(w) && WritableIps(s)
    ensures w.walk(IpsContent(s)).1
    ensures CodeOf(w, IpsContent(s)) == LowerBytes(s.code) && PrefixesIn(w, IpsContent(s)) == PrefixesOf(s.cidrs)
  {
    forall c <- s.cidrs
      ensures PrefixContent(w, CidrField(c)) == PrefixOf(c) && EntryContent(CidrField(c)).None?
    {
      CidrRead(w, c);
    }
    IpPartsRead(w, s.code, CidrField, s.cidrs);
    EntryFieldsValid(s.code, CidrField, s.cidrs);
    SiteWalked(w, EntryFields(s.code, CidrField, s.cidrs));
  }

  lemma IpListsRead(w: Reader, lists: seq<Ips>, codes: seq<seq<Byte>>, code: seq<Byte>)
    requires Faithful(w) && (forall s <- lists :: WritableIps(s)) && lists != []
    ensures LookupIps(w, GeoIpFile(lists), codes).Some?
    ensures At(LookupIps(w, GeoIpFile(lists), codes).value, code) ==
      if code !in Map(LowerBytes, codes) then None
      else match Named(IpsCode, lists, code) case Some(s) => Some(PrefixesOf(s.cidrs)) case None => None
  {
    forall s <- lists
      ensures ValidField(Bytes(1, IpsContent(s))) && w.walk(IpsContent(s)).1
      ensures CodeOf(w, IpsContent(s)) == LowerBytes(IpsCode(s)) && PrefixesIn(w, IpsContent(s)) == PrefixesOf(s.cidrs)
    {
      IpsRead(w, s);
    }
    FileIsDat(w, IpsContent, lists);
    NamedWritten(w, IpsContent, IpsCode, lists, code);
    OneIpPassIsEach(w, GeoIpFile(lists), codes, code);
  }

  /**
   * A geoip.dat is read back: each code finds the prefixes written under it,
   * those of a valid length, masked to their bits, in the order they were
   * written; and nothing else is found.
   */
  lemma IpFileRoundTrip(lists: seq<Ips>, codes: seq<seq<Byte>>, code: seq<Byte>)
    requires (forall s <- lists :: WritableIps(s)) && lists != []
    ensures LookupIps(READER, GeoIpFile(lists), codes).Some?
    ensures At(LookupIps(READER, GeoIpFile(lists), codes).value, code) ==
      if code !in Map(LowerBytes, codes) then None
      else match Named(IpsCode, lists, code) case Some(s) => Some(PrefixesOf(s.cidrs)) case None => None
  {
    ReaderIsFaithful();
    IpListsRead(READER, lists, codes, code);
  }
}
