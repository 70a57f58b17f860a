// The refreshing loops of internal/remote/subscription.go.

module Subscriptions {
  import opened Wrappers
  import opened Sequences
  import opened Text
  import opened SubscriptionSpec

  method KeepIdentities(previous: seq<Profile>, renewed: seq<Profile>) returns (kept: seq<Profile>)
    ensures kept == Kept(previous, renewed).0
  {
    var byLink := IndexBy(LinkOf, previous);
    var byName := IndexBy(NameOf, previous);
    var taken: set<string> := {};
    kept := [];
    for i := 0 to |renewed|
      invariant (kept, taken) == Kept(previous, renewed[..i])
    {
      Took(renewed, i);
      var p := renewed[i];
      var prior: Option<Profile> := None;
      if LinkOf(p) in byLink && byLink[LinkOf(p)].id !in taken {
        prior := Some(byLink[LinkOf(p)]);
      } else if NameOf(p) in byName && byName[NameOf(p)].id !in taken {
        prior := Some(byName[NameOf(p)]);
      }
      if prior.Some? {
        taken := taken + {prior.value.id};
        p := p.(id := prior.value.id, up := prior.value.up, down := prior.value.down, favorite := prior.value.favorite);
        if p.info.None? {
          p := p.(info := prior.value.info);
        }
      }
      kept := kept + [p];
    }
    Whole(renewed);
  }

  method IndexBy(key: Profile -> string, profiles: seq<Profile>) returns (index: map<string, Profile>)
    ensures forall value :: (if value in index then Some(index[value]) else None) == LastWith(key, profiles, value)
  {
    index := map[];
    for i := 0 to |profiles|
      invariant forall value :: (if value in index then Some(index[value]) else None) == LastWith(key, profiles[..i], value)
    {
      Took(profiles, i);
      index := index[key(profiles[i]) := profiles[i]];
    }
    Whole(profiles);
  }

  /** A pass over all sources, in the order a map happens to give them. */
  method Refresh(profiles: seq<Profile>, order: seq<string>, fetch: string -> Fetched) returns (result: seq<Profile>, summary: Summary)
    ensures (result, summary) == Refreshed(profiles, order, fetch)
  {
    result, summary := profiles, Summary(0, 0, 0);
    for i := 0 to |order|
      invariant (result, summary) == Refreshed(profiles, order[..i], fetch)
    {
      Took(order, i);
      match fetch(order[i]) {
        case Unusable => summary := summary.(skipped := summary.skipped + 1);
        case Unreachable => summary := summary.(failed := summary.failed + 1);
        case Renewed(renewed) =>
          if renewed == [] {
            summary := summary.(failed := summary.failed + 1);
          } else {
            var filtered, previous := Split(order[i], result);
            var kept := KeepIdentities(previous, renewed);
            result := filtered + kept;
            summary := summary.(refreshed := summary.refreshed + 1);
          }
      }
    }
    Whole(order);
  }

  /** One source alone: all of it or nothing, with the list as it was when anything is wrong. */
  method RefreshOnly(web: string -> bool, profiles: seq<Profile>, asked: string, fetch: string -> Fetched)
    returns (ok: bool, result: seq<Profile>, summary: Summary)
    requires Trim(asked) != ""
    ensures ok <==> SourceUrl(web, profiles, Trim(asked)).Some? && Renews(fetch, Trim(asked))
    ensures ok ==> (result, summary) == Refreshed(profiles, [Trim(asked)], fetch) && summary == Summary(1, 0, 0)
    ensures !ok ==> result == profiles && summary == Summary(0, 0, 0)
  {
    var domain := Trim(asked);
    result, summary := profiles, Summary(0, 0, 0);
    if domain == "local" {
      NoLocalSource(web, profiles, true);
      NoLocalSource(web, profiles, false);
      return false, result, summary;
    }
    var sources := CollectSources(web, profiles);
    assert At(sources, domain) == SourceUrl(web, profiles, domain);
    if domain !in sources || !Renews(fetch, domain) { return false, result, summary; }
    assert [domain][..0] == [];
    result, summary := Refresh(profiles, [domain], fetch);
    ok := true;
  }

  lemma {:induction false} NoLocalSource(web: string -> bool, profiles: seq<Profile>, saved: bool)
    ensures FirstUrl(web, profiles, "local", saved).None?
  {
    if profiles != [] {
      NoLocalSource(web, profiles[..|profiles| - 1], saved);
    }
  }

  method Split(domain: string, profiles: seq<Profile>) returns (filtered: seq<Profile>, previous: seq<Profile>)
    ensures filtered == NotFrom(domain, profiles) && previous == From(domain, profiles)
  {
    filtered, previous := [], [];
    for i := 0 to |profiles|
      invariant filtered == NotFrom(domain, profiles[..i]) && previous == From(domain, profiles[..i])
    {
      Took(profiles, i);
      if SourceOf(profiles[i]) != domain {
        filtered := filtered + [profiles[i]];
      } else {
        previous := previous + [profiles[i]];
      }
    }
    Whole(profiles);
  }

  function At(urls: map<string, string>, domain: string): Option<string> {
    if domain in urls then Some(urls[domain]) else None
  }

  /** collectSubscriptionSources: saved addresses first, web links for sources that have none. */
  method CollectSources(web: string -> bool, profiles: seq<Profile>) returns (sources: map<string, string>)
    ensures forall domain :: At(sources, domain) == SourceUrl(web, profiles, domain)
  {
    var legacy: map<string, string> := map[];
    sources := map[];
    for i := 0 to |profiles|
      invariant forall domain :: At(sources, domain) == FirstUrl(web, profiles[..i], domain, true)
      invariant forall domain :: At(legacy, domain) == FirstUrl(web, profiles[..i], domain, false)
    {
      Took(profiles, i);
      var p := profiles[i];
      var source := SourceOf(p);
      if source != "" && source != "local" {
        if UrlOf(p) == "" {
          if web(LinkOf(p)) && source !in legacy {
            legacy := legacy[source := LinkOf(p)];
          }
        } else if source !in sources {
          sources := sources[source := UrlOf(p)];
        }
      }
    }
    Whole(profiles);
    ghost var saved := sources;
    sources := legacy + sources;
    forall domain
      ensures At(sources, domain) == SourceUrl(web, profiles, domain)
    {
      assert At(saved, domain) == FirstUrl(web, profiles, domain, true);
      assert At(legacy, domain) == FirstUrl(web, profiles, domain, false);
    }
  }
}
