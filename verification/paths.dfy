/**
 * Folder paths as TemplateNode derives them: the slash-joined names of the
 * folders above a node, built one folder at a time while the tree is walked.
 */
module Paths {

  /** The separator put between two folder names. */
  const Sep: char := '/'

  predicate SlashFree(s: string) {
    forall i :: 0 <= i < |s| ==> s[i] != Sep
  }

  /** No name is empty and no name contains the separator. */
  predicate WellFormedNames(names: seq<string>) {
    forall k :: 0 <= k < |names| ==> names[k] != "" && SlashFree(names[k])
  }

  /**
   * The path a folder hands to its children: its own name when the incoming
   * path is empty (falsy), and otherwise the incoming path, a slash, and its name.
   */
  function ChildPath(path: string, folderName: string): (r: string)
    ensures path == "" ==> r == folderName
    ensures path != "" ==> |r| == |path| + 1 + |folderName|
    ensures path != "" ==> r[..|path|] == path && r[|path|] == Sep && r[|path| + 1..] == folderName
  {
    if path == "" then folderName else path + [Sep] + folderName
  }

  /** The names joined with single separators; no names give the empty path. */
  function Join(names: seq<string>): string
    decreases |names|
  {
    if |names| == 0 then ""
    else if |names| == 1 then names[0]
    else names[0] + [Sep] + Join(names[1..])
  }

  /**
   * The string cut at every separator, as JavaScript's `split("/")` does:
   * always at least one part, and the empty string gives one empty part.
   */
  function Split(s: string): (parts: seq<string>)
    ensures |parts| >= 1
    ensures Join(parts) == s
    ensures forall k :: 0 <= k < |parts| ==> SlashFree(parts[k])
    decreases |s|
  {
    if |s| == 0 then [""]
    else if s[0] == Sep then [""] + Split(s[1..])
    else
      var rest := Split(s[1..]);
      var parts := [[s[0]] + rest[0]] + rest[1..];
      assert parts[1..] == rest[1..];
      assert s == [s[0]] + s[1..];
      parts
  }

  /** The path reached from `path` by descending through the named folders, top down. */
  function PathFrom(path: string, ancestors: seq<string>): string
    decreases |ancestors|
  {
    if |ancestors| == 0 then path
    else PathFrom(ChildPath(path, ancestors[0]), ancestors[1..])
  }

  /** The names with the empty ones at the front removed. */
  function DropLeadingEmpty(names: seq<string>): (r: seq<string>)
    ensures |r| <= |names| && r == names[|names| - |r|..]
    ensures r == [] || r[0] != ""
    decreases |names|
  {
    if |names| > 0 && names[0] == "" then DropLeadingEmpty(names[1..]) else names
  }

  // ---------------------------------------------------------------------
  // Join and Split are inverse on slash-free names
  // ---------------------------------------------------------------------

  lemma {:induction false} SplitSlashFree(s: string)
    requires SlashFree(s)
    ensures Split(s) == [s]
    decreases |s|
  {
    if |s| > 0 {
      SplitSlashFree(s[1..]);
      assert [s[0]] + s[1..] == s;
    }
  }

  lemma {:induction false} SplitAfterSegment(a: string, b: string)
    requires SlashFree(a)
    ensures Split(a + [Sep] + b) == [a] + Split(b)
    decreases |a|
  {
    var s := a + [Sep] + b;
    if |a| == 0 {
      assert s[1..] == b;
    } else {
      assert s[1..] == a[1..] + [Sep] + b;
      SplitAfterSegment(a[1..], b);
      assert [s[0]] + a[1..] == a;
    }
  }

  /** Splitting a join of slash-free names gives those names back. */
  lemma {:induction false} SplitJoin(names: seq<string>)
    requires |names| >= 1
    requires forall k :: 0 <= k < |names| ==> SlashFree(names[k])
    ensures Split(Join(names)) == names
    decreases |names|
  {
    if |names| == 1 {
      SplitSlashFree(names[0]);
    } else {
      SplitJoin(names[1..]);
      SplitAfterSegment(names[0], Join(names[1..]));
      assert [names[0]] + names[1..] == names;
    }
  }

  /** A child path splits into the parent's segments plus the folder's name. */
  lemma SplitChildPath(path: string, folderName: string)
    requires SlashFree(folderName)
    ensures path == "" ==> Split(ChildPath(path, folderName)) == [folderName]
    ensures path != "" ==> Split(ChildPath(path, folderName)) == Split(path) + [folderName]
  {
    if path == "" {
      SplitSlashFree(folderName);
    } else {
      var parts := Split(path);
      var names := parts + [folderName];
      forall k | 0 <= k < |names| ensures SlashFree(names[k]) {
        if k < |parts| { assert names[k] == parts[k]; }
      }
      JoinSnoc(parts, folderName);
      SplitJoin(names);
    }
  }

  lemma {:induction false} JoinSnoc(names: seq<string>, name: string)
    requires |names| >= 1
    ensures Join(names + [name]) == Join(names) + [Sep] + name
    decreases |names|
  {
    if |names| > 1 {
      assert (names + [name])[1..] == names[1..] + [name];
      JoinSnoc(names[1..], name);
    }
  }

  // ---------------------------------------------------------------------
  // Descending from a path
  // ---------------------------------------------------------------------

  /**
   * Below a non-empty path, the derived path is that path joined with every
   * ancestor name, empty names included.
   */
  lemma {:induction false} PathFromNonEmpty(path: string, ancestors: seq<string>)
    requires path != ""
    ensures PathFrom(path, ancestors) == Join([path] + ancestors)
    decreases |ancestors|
  {
    if |ancestors| > 0 {
      var next := ChildPath(path, ancestors[0]);
      PathFromNonEmpty(next, ancestors[1..]);
      var rest := ancestors[1..];
      assert ([next] + rest)[1..] == rest;
      assert ([path] + ancestors)[1..] == ancestors;
      assert ancestors[1..] == rest;
      if |rest| > 0 {
        assert ([path] + ancestors)[1..][1..] == rest;
      }
    }
  }

  /**
   * From the top-level path "", the derived path is the join of the ancestor
   * names once the empty names at the front are dropped.
   */
  lemma {:induction false} PathFromTop(ancestors: seq<string>)
    ensures PathFrom("", ancestors) == Join(DropLeadingEmpty(ancestors))
    decreases |ancestors|
  {
    if |ancestors| > 0 {
      if ancestors[0] == "" {
        PathFromTop(ancestors[1..]);
      } else {
        PathFromNonEmpty(ancestors[0], ancestors[1..]);
        assert [ancestors[0]] + ancestors[1..] == ancestors;
      }
    }
  }

  /** With non-empty names, the path from the top is exactly their join. */
  lemma PathFromTopIsJoin(ancestors: seq<string>)
    requires forall k :: 0 <= k < |ancestors| ==> ancestors[k] != ""
    ensures PathFrom("", ancestors) == Join(ancestors)
  {
    PathFromTop(ancestors);
  }

  /** Splitting a path derived from the top recovers the ancestor names. */
  lemma SplitRecoversAncestors(ancestors: seq<string>)
    requires |ancestors| >= 1
    requires WellFormedNames(ancestors)
    ensures Split(PathFrom("", ancestors)) == ancestors
  {
    PathFromTopIsJoin(ancestors);
    SplitJoin(ancestors);
  }

  /**
   * A path derived from the top never starts with a separator as long as no
   * folder name does.
   */
  lemma {:induction false} NoLeadingSep(path: string, ancestors: seq<string>)
    requires path == "" || path[0] != Sep
    requires forall k :: 0 <= k < |ancestors| ==> ancestors[k] == "" || ancestors[k][0] != Sep
    ensures var r := PathFrom(path, ancestors); r == "" || r[0] != Sep
    decreases |ancestors|
  {
    if |ancestors| > 0 {
      NoLeadingSep(ChildPath(path, ancestors[0]), ancestors[1..]);
    }
  }

  /**
   * An empty name at the front vanishes from the path; below a non-empty path
   * an empty name leaves a trailing separator, and a name after it a doubled one.
   */
  lemma EmptyNameEffects(names: seq<string>, path: string, name: string)
    ensures PathFrom("", [""] + names) == PathFrom("", names)
    ensures path != "" ==> ChildPath(path, "") == path + [Sep]
    ensures path != "" ==> ChildPath(ChildPath(path, ""), name) == path + [Sep, Sep] + name
  {
    assert ([""] + names)[1..] == names;
  }
}
