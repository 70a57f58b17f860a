// Which outbound a pasted sing-box document exits through
// (internal/link/singbox.go): groups that name other groups, possibly in circles.

module GroupSpec {
  import opened Wrappers
  import opened Sequences
  import opened Text

  /** A decoded JSON value; shown is how anything but a string prints. */
  datatype Value = Str(text: string) | Number(n: int, shown: string) | Items(items: seq<Value>, shown: string) | Other(shown: string)

  type Outbound = map<string, Value>

  function StringValue(v: Option<Value>): string {
    match v
    case None => ""
    case Some(Str(text)) => text
    case Some(other) => other.shown
  }

  function IntValue(v: Option<Value>): int {
    match v
    case Some(Number(n, _)) => n
    case Some(Str(text)) => (match Atoi(Trim(text)) case Some(n) => n case None => 0)
    case _ => 0
  }

  function Field(o: Outbound, key: string): Option<Value> {
    if key in o then Some(o[key]) else None
  }

  function TypeOf(o: Outbound): string { StringValue(Field(o, "type")) }

  function TagOf(o: Outbound): string { Trim(StringValue(Field(o, "tag"))) }

  const GROUPS := ["selector", "urltest", "fallback"]
  const PSEUDO := ["", "direct", "block", "dns"] + GROUPS

  predicate IsGroup(o: Outbound) { TypeOf(o) in GROUPS }

  /** Something that can be dialed: a real protocol with a server and a port. */
  predicate Dialable(o: Outbound) {
    && TypeOf(o) !in PSEUDO
    && Trim(StringValue(Field(o, "server"))) != ""
    && (IntValue(Field(o, "server_port")) > 0 || IntValue(Field(o, "port")) > 0)
  }

  /** The first outbound with a tag. */
  function Find(outbounds: seq<Outbound>, tag: string): (r: Option<Outbound>)
    ensures r.Some? ==> r.value in outbounds && TagOf(r.value) == tag
  {
    if outbounds == [] then None
    else if TagOf(outbounds[0]) == tag then Some(outbounds[0])
    else Find(outbounds[1..], tag)
  }

  /** The tags a group tries, in order: its default, then its members. */
  function Children(o: Outbound): seq<string> {
    var chosen := Trim(StringValue(Field(o, "default")));
    (if chosen != "" then [chosen] else [])
    + match Field(o, "outbounds") case Some(Items(items, _)) => Map(item => StringValue(Some(item)), items) case _ => []
  }

  /** Every tag there is, which bounds how deep groups can nest. */
  ghost function Tags(outbounds: seq<Outbound>): set<string> {
    set o <- outbounds :: TagOf(o)
  }

  // ------------------------------------------------------------------ the search

  /** The leaf a tag leads to, and the tags visited by then: a tag is tried only once. */
  function Resolve(outbounds: seq<Outbound>, tag: string, visited: set<string>): (r: (Option<Outbound>, set<string>))
    ensures visited <= r.1
    decreases Tags(outbounds) - visited, 1, 0
  {
    var name := Trim(tag);
    if name == "" || name in visited then (None, visited)
    else
      var seen := visited + {name};
      match Find(outbounds, name)
      case None => (None, seen)
      case Some(found) =>
        if !IsGroup(found) then (Some(found), seen)
        else
          assert name in Tags(outbounds);
          ResolveAmong(outbounds, Children(found), seen)
  }

  function ResolveAmong(outbounds: seq<Outbound>, tags: seq<string>, visited: set<string>): (r: (Option<Outbound>, set<string>))
    ensures visited <= r.1
    decreases Tags(outbounds) - visited, 2, |tags|
  {
    if tags == [] then (None, visited)
    else
      var (found, seen) := Resolve(outbounds, tags[0], visited);
      if found.Some? then (found, seen)
      else ResolveAmong(outbounds, tags[1..], seen)
  }

  // --------------------------------------------------------------- what it means

  /** A way through groups to a leaf: each step is one the group before it names. */
  ghost predicate Leads(outbounds: seq<Outbound>, path: seq<string>, leaf: Outbound) {
    && path != [] && path[0] != ""
    && match Find(outbounds, path[0])
       case None => false
       case Some(found) =>
         if |path| == 1 then found == leaf && !IsGroup(found)
         else IsGroup(found) && Names(found, path[1]) && Leads(outbounds, path[1..], leaf)
  }

  predicate Names(group: Outbound, tag: string) {
    exists child <- Children(group) :: Trim(child) == tag
  }

  /** A tag that was visited to no avail: nothing there, or a group all of whose tags were visited too. */
  ghost predicate Dead(outbounds: seq<Outbound>, tag: string, visited: set<string>) {
    match Find(outbounds, tag)
    case None => true
    case Some(found) => IsGroup(found) && forall name :: Names(found, name) ==> name == "" || name in visited
  }

  lemma {:induction false} SearchSound(outbounds: seq<Outbound>, tag: string, visited: set<string>) returns (path: seq<string>)
    requires Resolve(outbounds, tag, visited).0.Some?
    ensures Leads(outbounds, path, Resolve(outbounds, tag, visited).0.value) && path[0] == Trim(tag)
    decreases Tags(outbounds) - visited, 1, 0
  {
    var name := Trim(tag);
    var found := Find(outbounds, name).value;
    if IsGroup(found) {
      assert name in Tags(outbounds);
      var child, rest := AmongSound(outbounds, Children(found), visited + {name});
      path := [name] + rest;
      assert path[1..] == rest && Names(found, path[1]);
    } else {
      path := [name];
    }
  }

  lemma {:induction false} AmongSound(outbounds: seq<Outbound>, tags: seq<string>, visited: set<string>)
    returns (child: string, path: seq<string>)
    requires ResolveAmong(outbounds, tags, visited).0.Some?
    ensures child in tags && Leads(outbounds, path, ResolveAmong(outbounds, tags, visited).0.value) && path[0] == Trim(child)
    decreases Tags(outbounds) - visited, 2, |tags|
  {
    var (found, seen) := Resolve(outbounds, tags[0], visited);
    if found.Some? {
      child := tags[0];
      path := SearchSound(outbounds, tags[0], visited);
    } else {
      child, path := AmongSound(outbounds, tags[1..], seen);
    }
  }

  /** A search that finds nothing visited the tag, and whatever it visited leads only to what it visited. */
  lemma {:induction false} SearchDead(outbounds: seq<Outbound>, tag: string, visited: set<string>)
    requires Resolve(outbounds, tag, visited).0.None?
    ensures var seen := Resolve(outbounds, tag, visited).1;
      && (Trim(tag) == "" || Trim(tag) in seen)
      && (forall t :: t in seen && t !in visited ==> Dead(outbounds, t, seen))
    decreases Tags(outbounds) - visited, 1, 0
  {
    var name := Trim(tag);
    if name != "" && name !in visited && Find(outbounds, name).Some? {
      var found := Find(outbounds, name).value;
      assert name in Tags(outbounds);
      AmongDead(outbounds, Children(found), visited + {name});
    }
  }

  lemma {:induction false} AmongDead(outbounds: seq<Outbound>, tags: seq<string>, visited: set<string>)
    requires ResolveAmong(outbounds, tags, visited).0.None?
    ensures var seen := ResolveAmong(outbounds, tags, visited).1;
      && (forall tag <- tags :: Trim(tag) == "" || Trim(tag) in seen)
      && (forall t :: t in seen && t !in visited ==> Dead(outbounds, t, seen))
    decreases Tags(outbounds) - visited, 2, |tags|
  {
    if tags != [] {
      var next := Resolve(outbounds, tags[0], visited).1;
      SearchDead(outbounds, tags[0], visited);
      AmongDead(outbounds, tags[1..], next);
      var seen := ResolveAmong(outbounds, tags, visited).1;
      forall tag <- tags
        ensures Trim(tag) == "" || Trim(tag) in seen
      {
        if tag != tags[0] {
          assert tag in tags[1..];
        }
      }
    }
  }

  lemma {:induction false} DeadLeadsNowhere(outbounds: seq<Outbound>, path: seq<string>, leaf: Outbound, seen: set<string>)
    requires forall t :: t in seen ==> Dead(outbounds, t, seen)
    requires Leads(outbounds, path, leaf)
    ensures path[0] !in seen
    decreases |path|
  {
    if |path| > 1 {
      DeadLeadsNowhere(outbounds, path[1..], leaf, seen);
      assert path[1] != "";
    }
  }

  /** A leaf can be reached from a tag. */
  ghost predicate Reaches(outbounds: seq<Outbound>, name: string, leaf: Outbound) {
    exists path :: Leads(outbounds, path, leaf) && path[0] == name
  }

  lemma FoundIsReached(outbounds: seq<Outbound>, tag: string)
    requires Resolve(outbounds, tag, {}).0.Some?
    ensures Reaches(outbounds, Trim(tag), Resolve(outbounds, tag, {}).0.value)
  {
    var path := SearchSound(outbounds, tag, {});
  }

  lemma NotFoundIsUnreached(outbounds: seq<Outbound>, tag: string, leaf: Outbound)
    requires Resolve(outbounds, tag, {}).0.None?
    ensures !Reaches(outbounds, Trim(tag), leaf)
  {
    SearchDead(outbounds, tag, {});
    forall path | Leads(outbounds, path, leaf)
      ensures path[0] != Trim(tag)
    {
      DeadLeadsNowhere(outbounds, path, leaf, Resolve(outbounds, tag, {}).1);
    }
  }

  /**
   * The search is complete, however the groups go round: it finds something
   * exactly when a leaf can be reached, and what it finds can be.
   */
  lemma ResolveIsComplete(outbounds: seq<Outbound>, tag: string)
    ensures var found := Resolve(outbounds, tag, {}).0;
      && (found.Some? <==> exists leaf :: Reaches(outbounds, Trim(tag), leaf))
      && (found.Some? ==> Reaches(outbounds, Trim(tag), found.value))
  {
    if Resolve(outbounds, tag, {}).0.Some? {
      FoundIsReached(outbounds, tag);
    } else {
      forall leaf ensures !Reaches(outbounds, Trim(tag), leaf) {
        NotFoundIsUnreached(outbounds, tag, leaf);
      }
    }
  }

  // ------------------------------------------------------------------- selection

  function DialableLeaf(outbounds: seq<Outbound>, tag: string): Option<Outbound> {
    match Resolve(outbounds, tag, {}).0
    case Some(found) => if Dialable(found) then Some(found) else None
    case None => None
  }

  /** The first tag that leads to something dialable decides. */
  function FirstLeaf(outbounds: seq<Outbound>, tags: seq<string>): Option<Outbound> {
    if tags == [] then None
    else
      var leaf := DialableLeaf(outbounds, tags[0]);
      if leaf.Some? then leaf else FirstLeaf(outbounds, tags[1..])
  }

  function GroupTag(o: Outbound): Option<string> {
    if IsGroup(o) && TagOf(o) != "" then Some(TagOf(o)) else None
  }

  function FirstDialable(outbounds: seq<Outbound>): Option<Outbound> {
    if outbounds == [] then None
    else if Dialable(outbounds[0]) then Some(outbounds[0])
    else FirstDialable(outbounds[1..])
  }

  /** final is route.final. */
  function Preferred(final: string): seq<string> {
    (if Trim(final) != "" then [Trim(final)] else []) + ["proxy", "select", "auto"]
  }

  function Select(outbounds: seq<Outbound>, final: string): Option<Outbound> {
    var named := FirstLeaf(outbounds, Preferred(final));
    if named.Some? then named
    else
      var grouped := FirstLeaf(outbounds, Collect(GroupTag, outbounds));
      if grouped.Some? then grouped else FirstDialable(outbounds)
  }

  lemma {:induction false} ResolvedIsListed(outbounds: seq<Outbound>, tag: string, visited: set<string>)
    ensures Resolve(outbounds, tag, visited).0.Some? ==>
      Resolve(outbounds, tag, visited).0.value in outbounds && !IsGroup(Resolve(outbounds, tag, visited).0.value)
  {
    if Resolve(outbounds, tag, visited).0.Some? {
      var path := SearchSound(outbounds, tag, visited);
      LeadsToListed(outbounds, path, Resolve(outbounds, tag, visited).0.value);
    }
  }

  lemma {:induction false} LeadsToListed(outbounds: seq<Outbound>, path: seq<string>, leaf: Outbound)
    requires Leads(outbounds, path, leaf)
    ensures leaf in outbounds && !IsGroup(leaf)
    decreases |path|
  {
    if |path| > 1 {
      LeadsToListed(outbounds, path[1..], leaf);
    }
  }

  lemma {:induction false} FirstLeafDialable(outbounds: seq<Outbound>, tags: seq<string>)
    ensures FirstLeaf(outbounds, tags).Some? ==>
      FirstLeaf(outbounds, tags).value in outbounds && Dialable(FirstLeaf(outbounds, tags).value)
  {
    if tags != [] {
      ResolvedIsListed(outbounds, tags[0], {});
      FirstLeafDialable(outbounds, tags[1..]);
    }
  }

  lemma {:induction false} FirstDialableFinds(outbounds: seq<Outbound>)
    ensures FirstDialable(outbounds).None? <==> forall o <- outbounds :: !Dialable(o)
    ensures FirstDialable(outbounds).Some? ==>
      FirstDialable(outbounds).value in outbounds && Dialable(FirstDialable(outbounds).value)
  {
    if outbounds != [] {
      FirstDialableFinds(outbounds[1..]);
      assert outbounds[0] in outbounds;
      assert forall o :: o in outbounds ==> o == outbounds[0] || o in outbounds[1..];
    }
  }

  /** Selection fails exactly when nothing in the list can be dialed, and only picks what can. */
  lemma SelectFailsOnlyOnNothing(outbounds: seq<Outbound>, final: string)
    ensures Select(outbounds, final).None? <==> forall o <- outbounds :: !Dialable(o)
    ensures Select(outbounds, final).Some? ==> Select(outbounds, final).value in outbounds && Dialable(Select(outbounds, final).value)
  {
    FirstLeafDialable(outbounds, Preferred(final));
    FirstLeafDialable(outbounds, Collect(GroupTag, outbounds));
    FirstDialableFinds(outbounds);
  }

  /** The document's own final outbound has the first say. */
  lemma FinalDecides(outbounds: seq<Outbound>, final: string)
    requires Trim(final) != "" && DialableLeaf(outbounds, Trim(final)).Some?
    ensures Select(outbounds, final) == DialableLeaf(outbounds, Trim(final))
    ensures Reaches(outbounds, Trim(final), Select(outbounds, final).value)
  {
    TrimFixes(Trim(final));
    TrimmedTwice(final);
    ResolveIsComplete(outbounds, Trim(final));
    assert Preferred(final)[0] == Trim(final);
  }

  // ---------------------------------------------------------------- sanitising

  predicate Kept(key: string) { key != "tag" && key != "detour" }

  /** Without what the builder owns; the old name of the port is accepted where the new one is missing. */
  function Sanitized(o: Outbound): Outbound {
    var kept := map key | key in o && Kept(key) :: o[key];
    if "server_port" !in kept && IntValue(Field(kept, "port")) > 0
    then (map key | key in kept && key != "port" :: kept[key])["server_port" := Number(IntValue(Field(kept, "port")), "")]
    else kept
  }

  /** Cleaning is done once: a second pass changes nothing, and no tag or detour survives the first. */
  lemma SanitizedTwice(o: Outbound)
    ensures "tag" !in Sanitized(o) && "detour" !in Sanitized(o)
    ensures Sanitized(Sanitized(o)) == Sanitized(o)
    ensures forall key :: key in o && Kept(key) && key != "port" && key != "server_port" ==> Field(Sanitized(o), key) == Field(o, key)
  {
  }

  /** The port dialed: a server_port, even a useless one, hides a good port. */
  lemma SanitizedPort(o: Outbound)
    requires Dialable(o)
    ensures IntValue(Field(Sanitized(o), "server_port")) > 0 <==>
      IntValue(Field(o, "server_port")) > 0 || "server_port" !in o
  {
  }
}
