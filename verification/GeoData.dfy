// The reading loops of internal/geodat/geodat.go: a slice advanced, a map filled.

module GeoData {
  import opened Wrappers
  import opened Sequences
  import opened WireFormat
  import opened MessageWalk
  import opened GeoSpec

  /** What is still to be read. */
  class Cursor<B(!new)> {
    var data: seq<B>

    constructor (data: seq<B>)
      ensures this.data == data
    {
      this.data := data;
    }

    /** The next thing, or that it is malformed. */
    method Next<F>(consume: seq<B> -> Option<(F, nat)>) returns (f: Option<F>)
      requires Advances(consume)
      modifies this
      ensures match consume(old(data))
              case None => f.None? && data == old(data)
              case Some((field, n)) => f == Some(field) && data == old(data)[n..]
    {
      match consume(data) {
        case None => f := None;
        case Some((field, n)) =>
          data := data[n..];
          f := Some(field);
      }
    }
  }

  lemma ReadOn<F>(read: seq<F>, f: F, rest: seq<F>)
    ensures read + ([f] + rest) == (read + [f]) + rest
  {
  }

  lemma NothingRead<F>(read: seq<F>)
    ensures [] + read == read == read + []
  {
  }

  /** Everything up to the first malformed thing. */
  method ReadAll<B(!new), F>(consume: seq<B> -> Option<(F, nat)>, data: seq<B>) returns (read: seq<F>, ok: bool)
    requires Advances(consume)
    ensures (read, ok) == WalkWith(consume, data)
  {
    var cursor := new Cursor(data);
    read := [];
    NothingRead(WalkWith(consume, data).0);
    while cursor.data != []
      invariant WalkWith(consume, data) == (read + WalkWith(consume, cursor.data).0, WalkWith(consume, cursor.data).1)
      decreases |cursor.data|
    {
      var f := cursor.Next(consume);
      if f.None? {
        NothingRead(read);
        return read, false;
      }
      ReadOn(read, f.value, WalkWith(consume, cursor.data).0);
      read := read + [f.value];
    }
    NothingRead(read);
    return read, true;
  }

  method Fields(data: seq<Byte>) returns (read: seq<Field>, ok: bool)
    ensures (read, ok) == Walk(data)
  {
    FieldsAdvance();
    read, ok := ReadAll(ConsumeField, data);
  }

  /** The code an entry gives last. */
  method ReadCode(w: Reader, entry: seq<Byte>) returns (code: seq<Byte>)
    ensures code == CodeOf(w, entry)
  {
    var fields := w.walk(entry).0;
    code := [];
    for i := 0 to |fields|
      invariant code == CodeIn(fields[..i])
    {
      FoldOn(TakeCode, [], fields, i);
      if fields[i].Bytes? && fields[i].number == 1 {
        code := LowerBytes(fields[i].content);
      }
    }
    assert fields[..|fields|] == fields;
  }

  lemma FoldOn<S, E>(step: (S, E) -> S, s: S, events: seq<E>, i: nat)
    requires i < |events|
    ensures Fold(step, s, events[..i + 1]) == step(Fold(step, s, events[..i]), events[i])
  {
    assert events[..i + 1][..i] == events[..i];
  }

  lemma CollectOn<S, T>(accept: S -> Option<T>, values: seq<S>, i: nat)
    requires i < |values|
    ensures Collect(accept, values[..i + 1]) ==
      Collect(accept, values[..i]) + match accept(values[i]) case Some(value) => [value] case None => []
  {
    assert values[..i + 1][..i] == values[..i];
  }

  // -------------------------------------------------------------------- sites

  method ReadKeys(w: Reader, attribute: seq<Byte>) returns (keys: seq<seq<Byte>>)
    ensures keys == KeysIn(w, attribute)
  {
    var fields := w.walk(attribute).0;
    keys := [];
    for i := 0 to |fields|
      invariant keys == Map(LowerBytes, EntriesIn(fields[..i]))
    {
      CollectOn(EntryContent, fields, i);
      if fields[i].Bytes? && fields[i].number == 1 {
        keys := keys + [LowerBytes(fields[i].content)];
      }
    }
    assert fields[..|fields|] == fields;
  }

  method ReadDomainFields(w: Reader, content: seq<Byte>) returns (d: Domain)
    ensures d == ReadDomain(w, w.walk(content).0)
  {
    var fields := w.walk(content).0;
    var kind, value, attributes := 0, [], [];
    for i := 0 to |fields|
      invariant Domain(kind, value, attributes) == ReadDomain(w, fields[..i])
    {
      FoldOn((e, f) => AddDomainField(w, e, f), NO_DOMAIN, fields, i);
      match fields[i] {
        case Varint(number, n) => if number == 1 { kind := n; }
        case Bytes(number, given) =>
          if number == 2 {
            value := given;
          } else if number == 3 {
            var keys := ReadKeys(w, given);
            attributes := attributes + keys;
          }
        case _ =>
      }
    }
    assert fields[..|fields|] == fields;
    d := Domain(kind, value, attributes);
  }

  /** A domain put into the results of every query that wants it. */
  method Put(results: array<Sites>, wanted: seq<Query>, d: Domain)
    requires results.Length == |wanted|
    modifies results
    ensures results[..] == PutDomain(wanted, old(results[..]), d)
  {
    if d.value == [] {
      assert results[..] == PutDomain(wanted, old(results[..]), d);
      return;
    }
    for i := 0 to |wanted|
      invariant forall k :: 0 <= k < i ==> results[k] == PutDomain(wanted, old(results[..]), d)[k]
      invariant forall k :: i <= k < |wanted| ==> results[k] == old(results[k])
    {
      if wanted[i].attribute != [] && wanted[i].attribute !in d.attributes { continue; }
      if d.kind == PLAIN {
        results[i] := results[i].(keyword := results[i].keyword + [d.value]);
      } else if d.kind == REGEX {
        results[i] := results[i].(regex := results[i].regex + [d.value]);
      } else if d.kind == SUFFIX {
        results[i] := results[i].(suffix := results[i].suffix + [d.value]);
      } else if d.kind == FULL {
        results[i] := results[i].(domain := results[i].domain + [d.value]);
      }
    }
  }

  ghost function DomainsAmong(w: Reader, fields: seq<Field>): seq<Domain> { Collect(f => DomainContent(w, f), fields) }

  /** The domain a field of an entry holds, if it is one. */
  ghost function Given(w: Reader, f: Field): seq<Domain> {
    match DomainContent(w, f) case Some(d) => [d] case None => []
  }

  lemma DomainsOn(w: Reader, fields: seq<Field>, i: nat)
    requires i < |fields|
    ensures DomainsAmong(w, fields[..i + 1]) == DomainsAmong(w, fields[..i]) + Given(w, fields[i])
  {
    CollectOn(f => DomainContent(w, f), fields, i);
  }

  /** A field of an entry, put into the results when it is a domain. */
  method Take(w: Reader, results: array<Sites>, wanted: seq<Query>, f: Field, ghost domains: seq<Domain>)
    requires results.Length == |wanted| && results[..] == Filled(wanted, domains)
    modifies results
    ensures results[..] == Filled(wanted, domains + Given(w, f))
  {
    if !f.Bytes? || f.number != 2 {
      NothingAfter(domains);
      return;
    }
    var d := ReadDomainFields(w, f.content);
    FilledMore(wanted, domains, d);
    Put(results, wanted, d);
  }

  /** One walk over an entry for all the queries of its code. */
  method Fill(w: Reader, entry: seq<Byte>, wanted: seq<Query>) returns (results: array<Sites>)
    ensures fresh(results) && results.Length == |wanted|
    ensures results[..] == Filled(wanted, DomainsIn(w, entry))
    ensures forall i :: 0 <= i < |wanted| ==> results[..][i] == SitesOf(DomainsIn(w, entry), wanted[i].attribute)
  {
    results := new Sites[|wanted|](i => NO_SITES);
    var fields := w.walk(entry).0;
    assert results[..] == Filled(wanted, DomainsAmong(w, []));
    for i := 0 to |fields|
      invariant results[..] == Filled(wanted, DomainsAmong(w, fields[..i]))
    {
      DomainsOn(w, fields, i);
      Take(w, results, wanted, fields[i], DomainsAmong(w, fields[..i]));
    }
    Whole(fields);
    FilledIsAll(wanted, DomainsIn(w, entry));
  }

  lemma FilledIsAll(wanted: seq<Query>, domains: seq<Domain>)
    ensures forall i :: 0 <= i < |wanted| ==> Filled(wanted, domains)[i] == SitesOf(domains, wanted[i].attribute)
  {
    forall i | 0 <= i < |wanted|
      ensures Filled(wanted, domains)[i] == SitesOf(domains, wanted[i].attribute)
    {
      FilledIsEach(wanted, domains, i);
    }
  }

  lemma FilledMore(wanted: seq<Query>, domains: seq<Domain>, d: Domain)
    ensures Filled(wanted, domains + [d]) == PutDomain(wanted, Filled(wanted, domains), d)
  {
    assert (domains + [d])[..|domains|] == domains;
  }

  function Listed(byCode: map<seq<Byte>, seq<Query>>, code: seq<Byte>): seq<Query> {
    if code in byCode then byCode[code] else []
  }

  lemma QueriesOn(queries: seq<Query>, i: nat, code: seq<Byte>)
    requires i < |queries|
    ensures QueriesFor(queries[..i + 1], code) ==
      if queries[i].code == code then QueriesFor(queries[..i], code) + [queries[i]] else QueriesFor(queries[..i], code)
  {
    CollectOn((asked: Query) => if asked.code == code then Some(asked) else None, queries, i);
    NothingAfter(QueriesFor(queries[..i], code));
  }

  /** The queries of each code, in the order they were asked. */
  method IndexByCode(queries: seq<Query>) returns (byCode: map<seq<Byte>, seq<Query>>)
    ensures forall code :: Listed(byCode, code) == QueriesFor(queries, code)
  {
    byCode := map[];
    for i := 0 to |queries|
      invariant forall code :: Listed(byCode, code) == QueriesFor(queries[..i], code)
    {
      byCode := byCode[queries[i].code := Listed(byCode, queries[i].code) + [queries[i]]];
      forall code
        ensures Listed(byCode, code) == QueriesFor(queries[..i + 1], code)
      {
        QueriesOn(queries, i, code);
      }
    }
    Whole(queries);
  }

  method Enter(found: map<Query, Sites>, wanted: seq<Query>, results: array<Sites>) returns (entered: map<Query, Sites>)
    requires results.Length == |wanted|
    ensures entered == Entered(found, wanted, results[..])
  {
    entered := found;
    for i := 0 to |wanted|
      invariant entered == Entered(found, wanted[..i], results[..i])
    {
      assert wanted[..i + 1][..i] == wanted[..i] && results[..i + 1][..i] == results[..i];
      entered := entered[wanted[i] := results[i]];
    }
    assert wanted[..|wanted|] == wanted && results[..|wanted|] == results[..];
  }

  /** An entry visited for the queries of its code, if there are any. */
  method Visit(w: Reader, ghost queries: seq<Query>, byCode: map<seq<Byte>, seq<Query>>, found: map<Query, Sites>, entry: seq<Byte>)
    returns (after: map<Query, Sites>)
    requires forall code :: Listed(byCode, code) == QueriesFor(queries, code)
    ensures after == VisitSites(w, queries, found, entry)
  {
    var code := ReadCode(w, entry);
    var wanted := Listed(byCode, code);
    if |wanted| == 0 { return found; }
    var results := Fill(w, entry, wanted);
    after := Enter(found, wanted, results);
  }

  /**
   * One pass over a file for several queries; None when it is not a file of this
   * format. Each query finds what it finds alone.
   */
  method LookupAllSites(w: Reader, data: seq<Byte>, queries: seq<Query>) returns (found: Option<map<Query, Sites>>)
    ensures found == LookupSites(w, data, queries)
    ensures found.Some? <==> IsDat(w, data)
    ensures found.Some? ==> forall query ::
      At(found.value, query) == if query in queries then SitesFor(w, EntriesIn(w.walk(data).0), query) else None
  {
    OnePassIsEach(w, data, queries);
    found := PassSites(w, data, queries);
  }

  lemma SitesOn(w: Reader, queries: seq<Query>, entries: seq<seq<Byte>>, i: nat)
    requires i < |entries|
    ensures SitesPass(w, queries, entries[..i + 1]) == VisitSites(w, queries, SitesPass(w, queries, entries[..i]), entries[i])
  {
    FoldOn((all, entry) => VisitSites(w, queries, all, entry), map[], entries, i);
  }

  lemma WellformedOn(w: Reader, entries: seq<seq<Byte>>, i: nat)
    requires i < |entries| && Wellformed(w, entries[..i])
    ensures Wellformed(w, entries[..i + 1]) <==> w.walk(entries[i]).1
    ensures !w.walk(entries[i]).1 ==> !Wellformed(w, entries)
  {
    assert entries[i] in entries;
    assert entries[..i + 1] == entries[..i] + [entries[i]];
  }

  method PassSites(w: Reader, data: seq<Byte>, queries: seq<Query>) returns (found: Option<map<Query, Sites>>)
    ensures found == LookupSites(w, data, queries)
  {
    var byCode := IndexByCode(queries);
    var (fields, ok) := w.walk(data);
    var entries := EntriesIn(fields);
    if !ok || entries == [] { return None; }
    var sites: map<Query, Sites> := map[];
    for i := 0 to |entries|
      invariant Wellformed(w, entries[..i]) && sites == SitesPass(w, queries, entries[..i])
    {
      WellformedOn(w, entries, i);
      if !w.walk(entries[i]).1 { return None; }
      SitesOn(w, queries, entries, i);
      sites := Visit(w, queries, byCode, sites, entries[i]);
    }
    Whole(entries);
    return Some(sites);
  }

  // ------------------------------------------------------------------ prefixes

  method ReadCidrFields(w: Reader, content: seq<Byte>) returns (c: Cidr)
    ensures c == ReadCidr(w.walk(content).0)
  {
    var fields := w.walk(content).0;
    var address, bits := [], 0;
    for i := 0 to |fields|
      invariant Cidr(address, bits) == ReadCidr(fields[..i])
    {
      FoldOn(AddCidrField, NO_CIDR, fields, i);
      match fields[i] {
        case Bytes(number, given) => if number == 1 { address := given; }
        case Varint(number, n) => if number == 2 { bits := n; }
        case _ =>
      }
    }
    assert fields[..|fields|] == fields;
    c := Cidr(address, bits);
  }

  method ReadPrefixes(w: Reader, entry: seq<Byte>) returns (prefixes: seq<Prefix>)
    ensures prefixes == PrefixesIn(w, entry)
  {
    var fields := w.walk(entry).0;
    var content := f => PrefixContent(w, f);
    prefixes := [];
    for i := 0 to |fields|
      invariant prefixes == Collect(content, fields[..i])
    {
      CollectOn(content, fields, i);
      if fields[i].Bytes? && fields[i].number == 2 {
        var c := ReadCidrFields(w, fields[i].content);
        if (|c.address| == 4 || |c.address| == 16) && c.bits <= 8 * |c.address| {
          prefixes := prefixes + [Prefix(Masked(c.address, c.bits), c.bits)];
        }
      }
    }
    assert fields[..|fields|] == fields;
  }

  /** One pass for several codes. */
  method LookupAllIps(w: Reader, data: seq<Byte>, codes: seq<seq<Byte>>) returns (found: Option<map<seq<Byte>, seq<Prefix>>>)
    ensures found == LookupIps(w, data, codes)
  {
    var want := Map(LowerBytes, codes);
    var (fields, ok) := w.walk(data);
    var entries := EntriesIn(fields);
    if !ok || entries == [] { return None; }
    var ips: map<seq<Byte>, seq<Prefix>> := map[];
    for i := 0 to |entries|
      invariant Wellformed(w, entries[..i]) && ips == IpsPass(w, want, entries[..i])
    {
      WellformedOn(w, entries, i);
      if !w.walk(entries[i]).1 { return None; }
      FoldOn((all, entry) => VisitIps(w, want, all, entry), map[], entries, i);
      var code := ReadCode(w, entries[i]);
      if code in want {
        var prefixes := ReadPrefixes(w, entries[i]);
        ips := ips[code := prefixes];
      }
    }
    Whole(entries);
    return Some(ips);
  }
}
