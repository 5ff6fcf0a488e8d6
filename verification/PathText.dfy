/** Paths as text: what an operation key is computed from.  However a path is split into a target
    root and a path below it, the text that is digested into the key is the same, and different
    paths have different texts. */
module PathText {

  /** A component the gateway lets through. */
  predicate Component(name: string) {
    name != "" && name != "." && name != ".." && '/' !in name
  }

  predicate Normal(path: seq<string>) {
    forall i :: 0 <= i < |path| ==> Component(path[i])
  }

  function Join(path: seq<string>): string
    requires path != []
  {
    if |path| == 1 then path[0] else path[0] + "/" + Join(path[1..])
  }

  function Text(path: seq<string>): string {
    if path == [] then "." else Join(path)
  }

  /** The text a key is computed from, from the texts of the root and of the path below it. */
  function TargetKeyPath(root: string, relative: string): string {
    if root == "." then relative else root + "/" + relative
  }

  lemma {:induction false} JoinAppend(a: seq<string>, b: seq<string>)
    requires a != [] && b != []
    ensures Join(a + b) == Join(a) + "/" + Join(b)
  {
    if |a| == 1 {
      assert (a + b)[1..] == b;
    } else {
      JoinAppend(a[1..], b);
      assert (a + b)[1..] == a[1..] + b;
    }
  }

  lemma JoinStarts(path: seq<string>)
    requires path != []
    ensures |Join(path)| >= |path[0]| && Join(path)[..|path[0]|] == path[0]
    ensures |path| == 1 <==> |Join(path)| == |path[0]|
    ensures |path| > 1 ==> Join(path)[|path[0]|] == '/' && Join(path)[|path[0]| + 1..] == Join(path[1..])
  {
    if |path| > 1 {
      SlashBetween(path[0], Join(path[1..]));
    }
  }

  lemma SlashBetween(head: string, rest: string)
    ensures var text := head + "/" + rest;
            && |text| == |head| + 1 + |rest| && text[..|head|] == head
            && text[|head|] == '/' && text[|head| + 1..] == rest
  {
  }

  lemma NoSlashBefore(path: seq<string>)
    requires path != [] && Normal(path)
    ensures |Join(path)| >= |path[0]| && forall i :: 0 <= i < |path[0]| ==> Join(path)[i] != '/'
  {
    JoinStarts(path);
    assert Component(path[0]);
    assert forall i :: 0 <= i < |path[0]| ==> Join(path)[i] == Join(path)[..|path[0]|][i];
  }

  /** The first component ends at the first slash. */
  lemma FirstComponent(a: seq<string>, b: seq<string>)
    requires a != [] && b != [] && Normal(a) && Normal(b) && Join(a) == Join(b)
    ensures a[0] == b[0] && (|a| == 1 <==> |b| == 1)
  {
    JoinStarts(a);
    JoinStarts(b);
    NoSlashBefore(a);
    NoSlashBefore(b);
  }

  lemma {:induction false} JoinInjective(a: seq<string>, b: seq<string>)
    requires a != [] && b != [] && Normal(a) && Normal(b) && Join(a) == Join(b)
    ensures a == b
  {
    FirstComponent(a, b);
    if |a| > 1 {
      JoinStarts(a);
      JoinStarts(b);
      JoinInjective(a[1..], b[1..]);
      assert a == [a[0]] + a[1..] && b == [b[0]] + b[1..];
    }
  }

  lemma NeverJustADot(path: seq<string>)
    requires Normal(path) && path != []
    ensures Join(path) != "."
  {
    JoinStarts(path);
    assert Component(path[0]);
  }

  /** Two splits give the same key text exactly when they are splits of the same path. */
  lemma KeysAreCanonical(root: seq<string>, relative: seq<string>, otherRoot: seq<string>, otherRelative: seq<string>)
    requires Normal(root) && Normal(relative) && relative != []
    requires Normal(otherRoot) && Normal(otherRelative) && otherRelative != []
    ensures TargetKeyPath(Text(root), Text(relative)) == Text(root + relative)
    ensures TargetKeyPath(Text(root), Text(relative)) == TargetKeyPath(Text(otherRoot), Text(otherRelative))
      <==> root + relative == otherRoot + otherRelative
  {
    SplitText(root, relative);
    SplitText(otherRoot, otherRelative);
    if Text(root + relative) == Text(otherRoot + otherRelative) {
      JoinInjective(root + relative, otherRoot + otherRelative);
    }
  }

  lemma SplitText(root: seq<string>, relative: seq<string>)
    requires Normal(root) && Normal(relative) && relative != []
    ensures TargetKeyPath(Text(root), Text(relative)) == Text(root + relative)
  {
    if root == [] {
      assert root + relative == relative;
    } else {
      NeverJustADot(root);
      JoinAppend(root, relative);
    }
  }

  /** The texts of a root and of a path below it, as the gateway writes them. */
  lemma KeyTextExamples()
    ensures Text([]) == "." && Text(["data"]) == "data" && Text(["data", "tv", "a.mkv"]) == "data/tv/a.mkv"
    ensures TargetKeyPath(".", "tv/a.mkv") == "tv/a.mkv" && TargetKeyPath("data", "tv/a.mkv") == "data/tv/a.mkv"
  {
    assert ["data", "tv", "a.mkv"][1..] == ["tv", "a.mkv"] && ["tv", "a.mkv"][1..] == ["a.mkv"];
    assert Join(["tv", "a.mkv"]) == "tv" + "/" + "a.mkv";
  }
}
