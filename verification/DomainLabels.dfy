// Domain names as label sequences: what a suffix rule is meant to say.

module DomainLabels {
  import opened Wrappers
  import opened Text

  /** The labels of a name, cut at its dots. */
  function Labels(name: string): (r: seq<string>)
    ensures r != []
    decreases |name|
  {
    match CutAt(name, '.')
    case (first, None) => [first]
    case (first, Some(rest)) => [first] + Labels(rest)
  }

  function Join(labels: seq<string>): string
    requires labels != []
  {
    if |labels| == 1 then labels[0] else labels[0] + "." + Join(labels[1..])
  }

  lemma {:induction false} JoinLabels(name: string)
    ensures Join(Labels(name)) == name
    decreases |name|
  {
    CutAtMeans(name, '.');
    match CutAt(name, '.') {
      case (first, None) =>
      case (first, Some(rest)) =>
        JoinLabels(rest);
        assert Labels(name)[1..] == Labels(rest);
    }
  }

  lemma {:induction false} JoinAppend(a: seq<string>, b: seq<string>)
    requires a != [] && b != []
    ensures Join(a + b) == Join(a) + "." + Join(b)
  {
    if |a| == 1 {
      assert (a + b)[1..] == b;
    } else {
      assert (a + b)[1..] == a[1..] + b;
      JoinAppend(a[1..], b);
    }
  }

  lemma {:induction false} LabelsAppend(a: string, b: string)
    ensures Labels(a + "." + b) == Labels(a) + Labels(b)
    decreases |a|
  {
    CutAtMeans(a, '.');
    match CutAt(a, '.') {
      case (first, None) =>
        CutJoined(first, '.', b);
      case (first, Some(rest)) =>
        assert a + "." + b == first + "." + (rest + "." + b);
        CutJoined(first, '.', rest + "." + b);
        LabelsAppend(rest, b);
        assert [first] + (Labels(rest) + Labels(b)) == ([first] + Labels(rest)) + Labels(b);
    }
  }

  predicate EndsWith(labels: seq<string>, tail: seq<string>) {
    |tail| <= |labels| && labels[|labels| - |tail|..] == tail
  }

  /** name is strictly below parent in the domain tree. */
  predicate Below(name: string, parent: string) {
    |Labels(parent)| < |Labels(name)| && EndsWith(Labels(name), Labels(parent))
  }

  /** A raw suffix comparison with a leading dot is exactly "strictly below": it never cuts a label. */
  lemma SuffixIsBelow(name: string, parent: string)
    ensures HasSuffix(name, "." + parent) <==> Below(name, parent)
  {
    if HasSuffix(name, "." + parent) {
      var front := name[..|name| - |parent| - 1];
      assert name == front + name[|name| - |parent| - 1..];
      assert name == front + "." + parent;
      LabelsAppend(front, parent);
    }
    if Below(name, parent) {
      var all, tail := Labels(name), Labels(parent);
      var front := all[..|all| - |tail|];
      assert all == front + tail;
      JoinAppend(front, tail);
      JoinLabels(name);
      JoinLabels(parent);
      assert name == Join(front) + "." + parent;
    }
  }

  lemma SameLabels(a: string, b: string)
    requires Labels(a) == Labels(b)
    ensures a == b
  {
    JoinLabels(a);
    JoinLabels(b);
  }

  /** A bare suffix comparison does cut labels: the reason the compiler adds the dot. */
  lemma BareSuffixCutsLabels()
    ensures HasSuffix("notexample.com", "example.com")
    ensures !Below("notexample.com", "example.com") && Labels("notexample.com") != Labels("example.com")
  {
    var name, parent := "notexample.com", "example.com";
    assert name[3..] == parent;
    SuffixIsBelow(name, parent);
    assert name[|name| - |parent| - 1] == 't';
    if Labels(name) == Labels(parent) {
      SameLabels(name, parent);
    }
  }
}
