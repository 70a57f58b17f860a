// The search and the selection as internal/link/singbox.go performs them, with a
// visited set shared by the whole search.

module GroupResolver {
  import opened Wrappers
  import opened Sequences
  import opened Text
  import opened GroupSpec

  /** The tags already tried, shared by the whole search. */
  class Visited {
    var tags: set<string>

    constructor ()
      ensures tags == {}
    {
      tags := {};
    }
  }

  method FindTagged(outbounds: seq<Outbound>, tag: string) returns (r: Option<Outbound>)
    ensures r == Find(outbounds, tag)
  {
    var i := 0;
    while i < |outbounds|
      invariant 0 <= i <= |outbounds|
      invariant Find(outbounds, tag) == Find(outbounds[i..], tag)
    {
      if TagOf(outbounds[i]) == tag { return Some(outbounds[i]); }
      i := i + 1;
    }
    return None;
  }

  method ResolveLeafByTag(outbounds: seq<Outbound>, tag: string, visited: Visited) returns (r: Option<Outbound>)
    modifies visited
    ensures (r, visited.tags) == Resolve(outbounds, tag, old(visited.tags))
    decreases Tags(outbounds) - visited.tags
  {
    var name := Trim(tag);
    if name == "" || name in visited.tags { return None; }
    visited.tags := visited.tags + {name};
    var found := FindTagged(outbounds, name);
    if found.None? { return None; }
    if !IsGroup(found.value) { return found; }
    assert name in Tags(outbounds);
    ghost var entered := visited.tags;
    var children := Children(found.value);
    var i := 0;
    while i < |children|
      invariant 0 <= i <= |children|
      invariant entered <= visited.tags
      invariant ResolveAmong(outbounds, children, entered) == ResolveAmong(outbounds, children[i..], visited.tags)
    {
      r := ResolveLeafByTag(outbounds, children[i], visited);
      if r.Some? { return; }
      i := i + 1;
    }
    return None;
  }

  method DialableLeafOf(outbounds: seq<Outbound>, tag: string) returns (r: Option<Outbound>)
    ensures r == DialableLeaf(outbounds, tag)
  {
    var visited := new Visited();
    r := ResolveLeafByTag(outbounds, tag, visited);
    if r.Some? && !Dialable(r.value) { r := None; }
  }

  method FirstLeafOf(outbounds: seq<Outbound>, tags: seq<string>) returns (r: Option<Outbound>)
    ensures r == FirstLeaf(outbounds, tags)
  {
    var i := 0;
    while i < |tags|
      invariant 0 <= i <= |tags|
      invariant FirstLeaf(outbounds, tags) == FirstLeaf(outbounds, tags[i..])
    {
      r := DialableLeafOf(outbounds, tags[i]);
      assert tags[i..][0] == tags[i] && tags[i..][1..] == tags[i + 1..];
      if r.Some? { return; }
      i := i + 1;
    }
    return None;
  }

  method FirstDialableOf(outbounds: seq<Outbound>) returns (r: Option<Outbound>)
    ensures r == FirstDialable(outbounds)
  {
    var i := 0;
    while i < |outbounds|
      invariant 0 <= i <= |outbounds|
      invariant FirstDialable(outbounds) == FirstDialable(outbounds[i..])
    {
      if Dialable(outbounds[i]) { return Some(outbounds[i]); }
      i := i + 1;
    }
    return None;
  }

  method SelectOutbound(outbounds: seq<Outbound>, final: string) returns (r: Option<Outbound>)
    ensures r == Select(outbounds, final)
    ensures r.None? <==> forall o <- outbounds :: !Dialable(o)
    ensures r.Some? ==> r.value in outbounds && Dialable(r.value)
  {
    SelectFailsOnlyOnNothing(outbounds, final);
    r := FirstLeafOf(outbounds, Preferred(final));
    if r.Some? { return; }
    r := FirstLeafOf(outbounds, Collect(GroupTag, outbounds));
    if r.Some? { return; }
    r := FirstDialableOf(outbounds);
  }
}
