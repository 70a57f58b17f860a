// Refreshing subscriptions (internal/remote/subscription.go): a source's servers
// are replaced, and each keeps the identity of the one it replaces.

module SubscriptionSpec {
  import opened Wrappers
  import opened Sequences
  import opened Text

  datatype Profile = Profile(
    id: string, name: string, link: string, source: string, url: string, group: string,
    up: Option<nat>, down: Option<nat>, favorite: bool, info: Option<string>)

  // ---------------------------------------------------------- keeping identities

  function LinkOf(p: Profile): string { Trim(p.link) }

  function NameOf(p: Profile): string { Trim(p.name) }

  /** A map filled in order keeps the last profile under each key. */
  function LastWith(key: Profile -> string, profiles: seq<Profile>, value: string): Option<Profile> {
    if profiles == [] then None
    else
      var last := profiles[|profiles| - 1];
      if key(last) == value then Some(last) else LastWith(key, profiles[..|profiles| - 1], value)
  }

  function Free(prior: Option<Profile>, taken: set<string>): Option<Profile> {
    if prior.Some? && prior.value.id !in taken then prior else None
  }

  /** The replaced profile: by link, which is exact, then by name. */
  function Matched(previous: seq<Profile>, taken: set<string>, p: Profile): Option<Profile> {
    var byLink := Free(LastWith(LinkOf, previous, LinkOf(p)), taken);
    if byLink.Some? then byLink else Free(LastWith(NameOf, previous, NameOf(p)), taken)
  }

  function Adopted(p: Profile, prior: Profile): Profile {
    p.(id := prior.id, up := prior.up, down := prior.down, favorite := prior.favorite,
       info := if p.info.None? then prior.info else p.info)
  }

  /** The refreshed profiles, and the old ids given to them. */
  function Kept(previous: seq<Profile>, renewed: seq<Profile>): (r: (seq<Profile>, set<string>))
    ensures |r.0| == |renewed|
  {
    if renewed == [] then ([], {})
    else
      var (kept, taken) := Kept(previous, renewed[..|renewed| - 1]);
      var last := renewed[|renewed| - 1];
      match Matched(previous, taken, last)
      case Some(prior) => (kept + [Adopted(last, prior)], taken + {prior.id})
      case None => (kept + [last], taken)
  }

  predicate HasId(profiles: seq<Profile>, id: string) { exists p <- profiles :: p.id == id }

  predicate DistinctIds(profiles: seq<Profile>) {
    forall i, j :: 0 <= i < j < |profiles| ==> profiles[i].id != profiles[j].id
  }

  lemma {:induction false} LastWithMeans(key: Profile -> string, profiles: seq<Profile>, value: string)
    ensures LastWith(key, profiles, value).Some? ==>
      LastWith(key, profiles, value).value in profiles && key(LastWith(key, profiles, value).value) == value
    ensures LastWith(key, profiles, value).None? ==> forall p <- profiles :: key(p) != value
  {
    if profiles != [] {
      var init, last := profiles[..|profiles| - 1], profiles[|profiles| - 1];
      LastWithMeans(key, init, value);
      assert forall p :: p in profiles ==> p in init || p == last;
    }
  }

  lemma MatchedIsOld(previous: seq<Profile>, taken: set<string>, p: Profile)
    ensures Matched(previous, taken, p).Some? ==>
      Matched(previous, taken, p).value in previous && Matched(previous, taken, p).value.id !in taken
  {
    LastWithMeans(LinkOf, previous, LinkOf(p));
    LastWithMeans(NameOf, previous, NameOf(p));
  }

  /** How refreshed profiles relate to what they came from. */
  ghost predicate Identified(previous: seq<Profile>, renewed: seq<Profile>, kept: seq<Profile>, taken: set<string>) {
    && |kept| == |renewed|
    && (forall id <- taken :: HasId(previous, id))
    && (forall i :: 0 <= i < |kept| ==> kept[i].id == renewed[i].id || kept[i].id in taken)
    && (forall i :: 0 <= i < |kept| ==>
          kept[i].(id := "", up := None, down := None, favorite := false, info := None)
          == renewed[i].(id := "", up := None, down := None, favorite := false, info := None))
    && DistinctIds(kept)
  }

  lemma OneMoreKept(previous: seq<Profile>, renewed: seq<Profile>, kept: seq<Profile>, taken: set<string>, last: Profile, prior: Option<Profile>)
    requires Identified(previous, renewed, kept, taken)
    requires prior.Some? ==> prior.value in previous && prior.value.id !in taken
    requires DistinctIds(renewed + [last]) && forall p <- renewed + [last] :: !HasId(previous, p.id)
    ensures match prior
      case Some(o) => Identified(previous, renewed + [last], kept + [Adopted(last, o)], taken + {o.id})
      case None => Identified(previous, renewed + [last], kept + [last], taken)
  {
    var all := renewed + [last];
    assert all[|renewed|] == last && last in all;
    forall i | 0 <= i < |kept|
      ensures renewed[i].id != last.id && !HasId(previous, renewed[i].id)
    {
      assert all[i] == renewed[i] && all[i] in all;
    }
    if prior.Some? {
      assert HasId(previous, prior.value.id);
    }
  }

  /**
   * A refresh never gives one id twice: each refreshed profile has its own new id
   * or one old id nobody else was given, and otherwise what the source says.
   */
  lemma {:induction false} IdentitiesStayDistinct(previous: seq<Profile>, renewed: seq<Profile>)
    requires DistinctIds(renewed) && forall p <- renewed :: !HasId(previous, p.id)
    ensures Identified(previous, renewed, Kept(previous, renewed).0, Kept(previous, renewed).1)
  {
    if renewed != [] {
      var init, last := renewed[..|renewed| - 1], renewed[|renewed| - 1];
      Unsnoc(renewed);
      assert last in renewed && forall p <- init :: p in renewed;
      assert DistinctIds(init);
      IdentitiesStayDistinct(previous, init);
      var (kept, taken) := Kept(previous, init);
      MatchedIsOld(previous, taken, last);
      OneMoreKept(previous, init, kept, taken, last, Matched(previous, taken, last));
    }
  }

  predicate DistinctLinks(profiles: seq<Profile>) {
    forall i, j :: 0 <= i < j < |profiles| ==> LinkOf(profiles[i]) != LinkOf(profiles[j])
  }

  predicate Listed(previous: seq<Profile>, p: Profile) { exists q <- previous :: LinkOf(q) == LinkOf(p) }

  /** The old profile with a link. */
  function OldOf(previous: seq<Profile>, p: Profile): Option<Profile> { LastWith(LinkOf, previous, LinkOf(p)) }

  lemma OldOfListed(previous: seq<Profile>, p: Profile)
    requires Listed(previous, p)
    ensures OldOf(previous, p).Some? && OldOf(previous, p).value in previous && LinkOf(OldOf(previous, p).value) == LinkOf(p)
  {
    LastWithMeans(LinkOf, previous, LinkOf(p));
  }

  lemma DistinctOwners(previous: seq<Profile>, a: Profile, b: Profile)
    requires DistinctIds(previous) && a in previous && b in previous && LinkOf(a) != LinkOf(b)
    ensures a.id != b.id
  {
    var i :| 0 <= i < |previous| && previous[i] == a;
    var j :| 0 <= j < |previous| && previous[j] == b;
    assert previous[i].id != previous[j].id;
  }

  /** The ids of the old profiles with these links. */
  function OldIds(previous: seq<Profile>, renewed: seq<Profile>): set<string> {
    set p <- renewed | OldOf(previous, p).Some? :: OldOf(previous, p).value.id
  }

  lemma NotGivenYet(previous: seq<Profile>, others: seq<Profile>, last: Profile)
    requires DistinctIds(previous) && Listed(previous, last) && forall p <- others :: Listed(previous, p)
    requires forall p <- others :: LinkOf(p) != LinkOf(last)
    ensures OldOf(previous, last).Some? && OldOf(previous, last).value.id !in OldIds(previous, others)
  {
    OldOfListed(previous, last);
    forall p <- others | OldOf(previous, p).Some?
      ensures OldOf(previous, p).value.id != OldOf(previous, last).value.id
    {
      OldOfListed(previous, p);
      DistinctOwners(previous, OldOf(previous, p).value, OldOf(previous, last).value);
    }
  }

  lemma OldIdsMore(previous: seq<Profile>, renewed: seq<Profile>)
    requires renewed != [] && OldOf(previous, renewed[|renewed| - 1]).Some?
    ensures OldIds(previous, renewed)
      == OldIds(previous, renewed[..|renewed| - 1]) + {OldOf(previous, renewed[|renewed| - 1]).value.id}
  {
    var init, last := renewed[..|renewed| - 1], renewed[|renewed| - 1];
    assert forall p :: p in renewed <==> p in init || p == last;
  }

  lemma OthersDiffer(renewed: seq<Profile>)
    requires renewed != [] && DistinctLinks(renewed)
    ensures DistinctLinks(renewed[..|renewed| - 1])
    ensures forall p <- renewed[..|renewed| - 1] :: LinkOf(p) != LinkOf(renewed[|renewed| - 1])
  {
  }

  /** The profile every refreshed one should be. */
  ghost predicate KeepsItsOwn(previous: seq<Profile>, renewed: seq<Profile>, kept: seq<Profile>) {
    && |kept| == |renewed|
    && forall i :: 0 <= i < |renewed| ==>
         OldOf(previous, renewed[i]).Some? && kept[i] == Adopted(renewed[i], OldOf(previous, renewed[i]).value)
  }

  lemma KeepsOneMore(previous: seq<Profile>, renewed: seq<Profile>, kept: seq<Profile>)
    requires renewed != [] && KeepsItsOwn(previous, renewed[..|renewed| - 1], kept)
    requires OldOf(previous, renewed[|renewed| - 1]).Some?
    ensures KeepsItsOwn(previous, renewed,
      kept + [Adopted(renewed[|renewed| - 1], OldOf(previous, renewed[|renewed| - 1]).value)])
  {
    assert forall i :: 0 <= i < |renewed| - 1 ==> renewed[..|renewed| - 1][i] == renewed[i];
  }

  /** A list that has not changed keeps every identity, however it is ordered. */
  lemma {:induction false} UnchangedKeepsIdentity(previous: seq<Profile>, renewed: seq<Profile>)
    requires DistinctIds(previous) && DistinctLinks(renewed) && forall p <- renewed :: Listed(previous, p)
    ensures KeepsItsOwn(previous, renewed, Kept(previous, renewed).0)
    ensures Kept(previous, renewed).1 == OldIds(previous, renewed)
  {
    if renewed != [] {
      var init, last := renewed[..|renewed| - 1], renewed[|renewed| - 1];
      assert last in renewed && forall p <- init :: p in renewed;
      OthersDiffer(renewed);
      UnchangedKeepsIdentity(previous, init);
      NotGivenYet(previous, init, last);
      OldIdsMore(previous, renewed);
      KeepsOneMore(previous, renewed, Kept(previous, init).0);
    }
  }

  // ------------------------------------------------------------------- refreshing

  /** What fetching a source brought. */
  datatype Fetched = Unusable | Unreachable | Renewed(profiles: seq<Profile>)

  function SourceOf(p: Profile): string { Trim(p.source) }

  function From(domain: string, profiles: seq<Profile>): seq<Profile> {
    Collect(p => if SourceOf(p) == domain then Some(p) else None, profiles)
  }

  function NotFrom(domain: string, profiles: seq<Profile>): seq<Profile> {
    Collect(p => if SourceOf(p) != domain then Some(p) else None, profiles)
  }

  datatype Summary = Summary(refreshed: nat, failed: nat, skipped: nat)

  function Replaced(profiles: seq<Profile>, domain: string, renewed: seq<Profile>): seq<Profile> {
    NotFrom(domain, profiles) + Kept(From(domain, profiles), renewed).0
  }

  /** Sources one after another; an empty answer counts as a failure. */
  function Refreshed(profiles: seq<Profile>, order: seq<string>, fetch: string -> Fetched): (seq<Profile>, Summary) {
    if order == [] then (profiles, Summary(0, 0, 0))
    else
      var (sofar, summary) := Refreshed(profiles, order[..|order| - 1], fetch);
      var domain := order[|order| - 1];
      match fetch(domain)
      case Unusable => (sofar, summary.(skipped := summary.skipped + 1))
      case Unreachable => (sofar, summary.(failed := summary.failed + 1))
      case Renewed(renewed) =>
        if renewed == [] then (sofar, summary.(failed := summary.failed + 1))
        else (Replaced(sofar, domain, renewed), summary.(refreshed := summary.refreshed + 1))
  }

  predicate Renews(fetch: string -> Fetched, domain: string) {
    fetch(domain).Renewed? && fetch(domain).profiles != []
  }

  /** Fetched profiles belong to the source they were fetched for. */
  predicate OwnProfiles(order: seq<string>, fetch: string -> Fetched) {
    forall d <- order :: fetch(d).Renewed? ==> forall p <- fetch(d).profiles :: SourceOf(p) == d
  }

  lemma {:induction false} FilterAll(keep: Profile -> Option<Profile>, profiles: seq<Profile>)
    requires forall p <- profiles :: keep(p) == Some(p)
    ensures Collect(keep, profiles) == profiles
  {
    if profiles != [] {
      var init := profiles[..|profiles| - 1];
      assert profiles[|profiles| - 1] in profiles && forall p <- init :: p in profiles;
      FilterAll(keep, init);
    }
  }

  lemma {:induction false} FilterNone(keep: Profile -> Option<Profile>, profiles: seq<Profile>)
    requires forall p <- profiles :: keep(p).None?
    ensures Collect(keep, profiles) == []
  {
    if profiles != [] {
      var init := profiles[..|profiles| - 1];
      assert profiles[|profiles| - 1] in profiles && forall p <- init :: p in profiles;
      FilterNone(keep, init);
    }
  }

  /** Leaving out what a filter drops anyway changes nothing. */
  lemma {:induction false} FilterOfNotFrom(keep: Profile -> Option<Profile>, domain: string, profiles: seq<Profile>)
    requires forall p <- profiles :: SourceOf(p) == domain ==> keep(p).None?
    ensures Collect(keep, NotFrom(domain, profiles)) == Collect(keep, profiles)
  {
    if profiles != [] {
      var init, last := profiles[..|profiles| - 1], profiles[|profiles| - 1];
      assert last in profiles && forall p <- init :: p in profiles;
      FilterOfNotFrom(keep, domain, init);
      if SourceOf(last) != domain {
        Pushed(NotFrom(domain, init), last);
      }
    }
  }

  lemma Pushed<T>(s: seq<T>, x: T)
    ensures (s + [x])[..|s + [x]| - 1] == s && (s + [x])[|s + [x]| - 1] == x
  {
  }

  lemma {:induction false} KeptSources(previous: seq<Profile>, renewed: seq<Profile>, domain: string)
    requires forall p <- renewed :: SourceOf(p) == domain
    ensures forall p <- Kept(previous, renewed).0 :: SourceOf(p) == domain
  {
    if renewed != [] {
      var init := renewed[..|renewed| - 1];
      assert renewed[|renewed| - 1] in renewed && forall p <- init :: p in renewed;
      KeptSources(previous, init, domain);
    }
  }

  /** Replacing one source's servers leaves the others' alone. */
  lemma ReplacedParts(profiles: seq<Profile>, domain: string, renewed: seq<Profile>, other: string)
    requires forall p <- renewed :: SourceOf(p) == domain
    ensures From(other, Replaced(profiles, domain, renewed)) ==
      if other == domain then Kept(From(domain, profiles), renewed).0 else From(other, profiles)
  {
    var keep := (p: Profile) => if SourceOf(p) == other then Some(p) else None;
    var rest, own := NotFrom(domain, profiles), Kept(From(domain, profiles), renewed).0;
    KeptSources(From(domain, profiles), renewed, domain);
    CollectAppend(keep, rest, own);
    if other == domain {
      FilterAll(keep, own);
      NotFromNone(profiles, domain);
      FilterNone(keep, rest);
      NothingBefore(own);
    } else {
      FilterNone(keep, own);
      FilterOfNotFrom(keep, domain, profiles);
      NothingAfter(From(other, profiles));
    }
  }

  lemma NotFromNone(profiles: seq<Profile>, domain: string)
    ensures forall p <- NotFrom(domain, profiles) :: SourceOf(p) != domain
  {
    forall p <- NotFrom(domain, profiles) ensures SourceOf(p) != domain {
      CollectMembers((q: Profile) => if SourceOf(q) != domain then Some(q) else None, profiles, p);
    }
  }

  /**
   * In whatever order the sources come, each one's servers end up as if it had
   * been refreshed alone, and every source is counted once.
   */
  lemma {:induction false} SourcesAreIndependent(profiles: seq<Profile>, order: seq<string>, fetch: string -> Fetched, domain: string)
    requires NoRepeats(order) && OwnProfiles(order, fetch)
    ensures From(domain, Refreshed(profiles, order, fetch).0) ==
      if domain in order && Renews(fetch, domain)
      then Kept(From(domain, profiles), fetch(domain).profiles).0 else From(domain, profiles)
    ensures var s := Refreshed(profiles, order, fetch).1; s.refreshed + s.failed + s.skipped == |order|
  {
    if order != [] {
      var init, last := order[..|order| - 1], order[|order| - 1];
      assert last in order && forall d <- init :: d in order;
      SourcesAreIndependent(profiles, init, fetch, domain);
      if Renews(fetch, last) {
        ReplacedParts(Refreshed(profiles, init, fetch).0, last, fetch(last).profiles, domain);
      }
      assert domain in order <==> domain in init || domain == last;
    }
  }

  predicate Untouched(order: seq<string>, p: Profile) { SourceOf(p) !in order }

  function Others(order: seq<string>, profiles: seq<Profile>): seq<Profile> {
    Collect(p => if Untouched(order, p) then Some(p) else None, profiles)
  }

  /** Profiles of no refreshed source keep their content and their order. */
  lemma {:induction false} OthersKeepTheirPlaces(profiles: seq<Profile>, order: seq<string>, part: seq<string>, fetch: string -> Fetched)
    requires OwnProfiles(order, fetch) && forall d <- part :: d in order
    ensures Others(order, Refreshed(profiles, part, fetch).0) == Others(order, profiles)
  {
    if part != [] {
      var init, last := part[..|part| - 1], part[|part| - 1];
      assert last in part && forall d <- init :: d in part;
      OthersKeepTheirPlaces(profiles, order, init, fetch);
      if Renews(fetch, last) {
        OthersOfReplaced(order, Refreshed(profiles, init, fetch).0, last, fetch(last).profiles);
      }
    }
  }

  lemma OthersOfReplaced(order: seq<string>, profiles: seq<Profile>, domain: string, renewed: seq<Profile>)
    requires domain in order && forall p <- renewed :: SourceOf(p) == domain
    ensures Others(order, Replaced(profiles, domain, renewed)) == Others(order, profiles)
  {
    var keep := (p: Profile) => if Untouched(order, p) then Some(p) else None;
    var own := Kept(From(domain, profiles), renewed).0;
    KeptSources(From(domain, profiles), renewed, domain);
    CollectAppend(keep, NotFrom(domain, profiles), own);
    FilterNone(keep, own);
    FilterOfNotFrom(keep, domain, profiles);
    NothingAfter(Others(order, profiles));
  }

  // ------------------------------------------------------- ids over the whole list

  lemma {:induction false} FilterIds(keep: Profile -> Option<Profile>, profiles: seq<Profile>)
    requires DistinctIds(profiles) && forall p :: keep(p).Some? ==> keep(p) == Some(p)
    ensures DistinctIds(Collect(keep, profiles))
    ensures forall p <- Collect(keep, profiles) :: p in profiles && keep(p).Some?
  {
    if profiles != [] {
      var init, last := profiles[..|profiles| - 1], profiles[|profiles| - 1];
      FilterIds(keep, init);
      forall p <- Collect(keep, init)
        ensures p.id != last.id
      {
        var i :| 0 <= i < |init| && init[i] == p;
        assert profiles[i] == p;
      }
      assert forall p :: p in init ==> p in profiles;
    }
  }

  lemma AppendIds(a: seq<Profile>, b: seq<Profile>)
    requires DistinctIds(a) && DistinctIds(b) && forall p <- a :: !HasId(b, p.id)
    ensures DistinctIds(a + b)
  {
    forall i, j | 0 <= i < j < |a + b|
      ensures (a + b)[i].id != (a + b)[j].id
    {
      if i < |a| <= j {
        assert a[i] in a && b[j - |a|] in b;
      }
    }
  }

  lemma SameIdSameProfile(profiles: seq<Profile>, p: Profile, q: Profile)
    requires DistinctIds(profiles) && p in profiles && q in profiles && p.id == q.id
    ensures p == q
  {
  }

  /** A source replaced in a list without repeats leaves it without. */
  lemma ReplacedIds(profiles: seq<Profile>, domain: string, renewed: seq<Profile>)
    requires DistinctIds(profiles) && DistinctIds(renewed) && forall p <- renewed :: !HasId(profiles, p.id)
    ensures DistinctIds(Replaced(profiles, domain, renewed))
    ensures forall p <- Replaced(profiles, domain, renewed) :: HasId(profiles, p.id) || HasId(renewed, p.id)
  {
    var previous, rest := From(domain, profiles), NotFrom(domain, profiles);
    var (kept, taken) := Kept(previous, renewed);
    FilterIds(p => if SourceOf(p) == domain then Some(p) else None, profiles);
    FilterIds(p => if SourceOf(p) != domain then Some(p) else None, profiles);
    IdentitiesStayDistinct(previous, renewed);
    forall p <- kept
      ensures (HasId(previous, p.id) || HasId(renewed, p.id)) && !HasId(rest, p.id)
    {
      var i :| 0 <= i < |kept| && kept[i] == p;
      assert renewed[i] in renewed;
      KeptIdIsNew(profiles, rest, previous, renewed, p.id);
    }
    forall q <- rest
      ensures !HasId(kept, q.id) && HasId(profiles, q.id)
    {
      if p :| p in kept && p.id == q.id {
        assert HasId(rest, p.id);
      }
    }
    AppendIds(rest, kept);
  }

  lemma KeptIdIsNew(profiles: seq<Profile>, rest: seq<Profile>, previous: seq<Profile>, renewed: seq<Profile>, id: string)
    requires DistinctIds(profiles) && forall p <- renewed :: !HasId(profiles, p.id)
    requires (forall p <- rest :: p in profiles) && (forall p <- previous :: p in profiles)
    requires forall p <- rest :: p !in previous
    requires HasId(previous, id) || HasId(renewed, id)
    ensures !HasId(rest, id)
  {
    if q :| q in rest && q.id == id {
      if p :| p in previous && p.id == id {
        SameIdSameProfile(profiles, p, q);
      }
    }
  }

  /** An id that was there, or came with one of these sources. */
  predicate Traced(profiles: seq<Profile>, order: seq<string>, fetch: string -> Fetched, id: string) {
    HasId(profiles, id) || exists d <- order :: Renews(fetch, d) && HasId(fetch(d).profiles, id)
  }

  /** The ids made for what is fetched: new, and no two the same. */
  ghost predicate NewIds(profiles: seq<Profile>, order: seq<string>, fetch: string -> Fetched) {
    && (forall d <- order :: Renews(fetch, d) ==>
          DistinctIds(fetch(d).profiles) && forall p <- fetch(d).profiles :: !HasId(profiles, p.id))
    && (forall d <- order, e <- order :: Renews(fetch, d) && Renews(fetch, e) && d != e ==>
          forall p <- fetch(d).profiles :: !HasId(fetch(e).profiles, p.id))
  }

  lemma NotYetTraced(
      profiles: seq<Profile>, order: seq<string>, part: seq<string>, domain: string, fetch: string -> Fetched, p: Profile)
    requires NewIds(profiles, order, fetch) && (forall d <- part :: d in order) && domain in order && domain !in part
    requires Renews(fetch, domain) && p in fetch(domain).profiles
    ensures !Traced(profiles, part, fetch, p.id)
  {
  }

  /** Over a whole refresh, of any sources in any order, no two profiles come to share an id. */
  lemma {:induction false} RefreshKeepsIdsApart(
      profiles: seq<Profile>, order: seq<string>, part: seq<string>, fetch: string -> Fetched)
    requires DistinctIds(profiles) && NoRepeats(part) && (forall d <- part :: d in order) && NewIds(profiles, order, fetch)
    ensures var result := Refreshed(profiles, part, fetch).0;
      DistinctIds(result) && forall p <- result :: Traced(profiles, part, fetch, p.id)
  {
    if part != [] {
      var init, last := part[..|part| - 1], part[|part| - 1];
      assert last in part && (forall d <- init :: d in part) && last !in init;
      RefreshKeepsIdsApart(profiles, order, init, fetch);
      var sofar := Refreshed(profiles, init, fetch).0;
      if Renews(fetch, last) {
        forall p <- fetch(last).profiles
          ensures !HasId(sofar, p.id)
        {
          NotYetTraced(profiles, order, init, last, fetch, p);
        }
        ReplacedIds(sofar, last, fetch(last).profiles);
        forall p <- Replaced(sofar, last, fetch(last).profiles)
          ensures Traced(profiles, part, fetch, p.id)
        {
          if q :| q in sofar && q.id == p.id {
            assert Traced(profiles, init, fetch, q.id);
          }
        }
      }
    }
  }

  // --------------------------------------------------------------------- sources

  function UrlOf(p: Profile): string { Trim(p.url) }

  predicate FromSource(domain: string, p: Profile) {
    SourceOf(p) == domain && domain != "" && domain != "local"
  }

  /** The first address a source's profiles give: a subscription's, else a link that is a web address. */
  function FirstUrl(web: string -> bool, profiles: seq<Profile>, domain: string, saved: bool): Option<string> {
    if profiles == [] then None
    else
      var earlier := FirstUrl(web, profiles[..|profiles| - 1], domain, saved);
      var last := profiles[|profiles| - 1];
      if earlier.Some? || !FromSource(domain, last) then earlier
      else if saved then (if UrlOf(last) != "" then Some(UrlOf(last)) else None)
      else if UrlOf(last) == "" && web(LinkOf(last)) then Some(LinkOf(last)) else None
  }

  function SourceUrl(web: string -> bool, profiles: seq<Profile>, domain: string): Option<string> {
    var saved := FirstUrl(web, profiles, domain, true);
    if saved.Some? then saved else FirstUrl(web, profiles, domain, false)
  }
}
