/**
 * The walk TemplateNode makes over a tree: every node is rendered with the
 * path of its parent folder and a nesting level, and each folder hands its
 * own path and the next level to all of its children.
 */
module Rendering {
  import opened Options
  import opened Paths
  import opened TemplateTree

  /** One rendered node: the incoming path and level it was given, and the node. */
  datatype Rendered = Rendered(path: string, level: int, item: Item)

  /** A node with the names of the folders between the walk's start and it. */
  datatype Located = Located(ancestors: seq<string>, node: Item)

  /** The path a node is called with when the caller leaves it out. */
  function IncomingPath(path: Option<string>): (r: string)
    ensures path.Some? ==> r == path.value
    ensures path.None? ==> r == ""
  {
    path.GetOr("")
  }

  /**
   * Every node rendered for `item`, in rendering order: the node itself, then,
   * for a folder, each child in order, with the folder's own path and the next level.
   */
  function Annotate(item: Item, path: string, level: int): (out: seq<Rendered>)
    ensures |out| == Size(item)
    ensures out[0] == Rendered(path, level, item)
    decreases item
  {
    match item
    case File(_, _, _) => [Rendered(path, level, item)]
    case Folder(name, children) =>
      [Rendered(path, level, item)] + AnnotateAll(children, ChildPath(path, name), level + 1)
  }

  function AnnotateAll(items: seq<Item>, path: string, level: int): (out: seq<Rendered>)
    ensures |out| == SizeAll(items)
    decreases items
  {
    if |items| == 0 then []
    else Annotate(items[0], path, level) + AnnotateAll(items[1..], path, level)
  }

  /** The walk from a top-level call, whose path may be left out. */
  function AnnotateTop(item: Item, path: Option<string>, level: int): (out: seq<Rendered>)
    ensures |out| == Size(item)
    ensures out[0] == Rendered(IncomingPath(path), level, item)
  {
    Annotate(item, IncomingPath(path), level)
  }

  // ---------------------------------------------------------------------
  // Reference: where every node sits
  // ---------------------------------------------------------------------

  /** Every node of `item` in pre-order, with the folder names above it inside `item`. */
  function Nodes(item: Item): (r: seq<Located>)
    ensures |r| == Size(item)
    ensures r[0] == Located([], item)
    decreases item
  {
    match item
    case File(_, _, _) => [Located([], item)]
    case Folder(name, children) => [Located([], item)] + Under(name, NodesAll(children))
  }

  function NodesAll(items: seq<Item>): (r: seq<Located>)
    ensures |r| == SizeAll(items)
    decreases items
  {
    if |items| == 0 then [] else Nodes(items[0]) + NodesAll(items[1..])
  }

  /** The located nodes moved one folder down, below the folder `name`. */
  function Under(name: string, ls: seq<Located>): (r: seq<Located>)
    ensures |r| == |ls|
  {
    seq(|ls|, k requires 0 <= k < |ls| => Located([name] + ls[k].ancestors, ls[k].node))
  }

  /** The located nodes as rendered from a start path and level. */
  function Place(ls: seq<Located>, path: string, level: int): (r: seq<Rendered>)
    ensures |r| == |ls|
  {
    seq(|ls|, k requires 0 <= k < |ls| =>
      Rendered(PathFrom(path, ls[k].ancestors), level + |ls[k].ancestors|, ls[k].node))
  }

  lemma PlaceAppend(a: seq<Located>, b: seq<Located>, path: string, level: int)
    ensures Place(a + b, path, level) == Place(a, path, level) + Place(b, path, level)
  {
    var l, r := Place(a + b, path, level), Place(a, path, level) + Place(b, path, level);
    forall k | 0 <= k < |l| ensures l[k] == r[k] {
      if k >= |a| { assert (a + b)[k] == b[k - |a|]; }
    }
  }

  lemma PlaceUnder(name: string, ls: seq<Located>, path: string, level: int)
    ensures Place(Under(name, ls), path, level) == Place(ls, ChildPath(path, name), level + 1)
  {
    var l, r := Place(Under(name, ls), path, level), Place(ls, ChildPath(path, name), level + 1);
    forall k | 0 <= k < |l| ensures l[k] == r[k] {
      var anc := [name] + ls[k].ancestors;
      assert anc[1..] == ls[k].ancestors;
    }
  }

  /**
   * The walk renders each node with the path reached by descending through the
   * folders above it, and at the start level plus its depth.
   */
  lemma {:induction false} AnnotateIsPlace(item: Item, path: string, level: int)
    ensures Annotate(item, path, level) == Place(Nodes(item), path, level)
    decreases item
  {
    match item
    case File(_, _, _) =>
    case Folder(name, children) =>
      AnnotateAllIsPlace(children, ChildPath(path, name), level + 1);
      PlaceUnder(name, NodesAll(children), path, level);
      PlaceAppend([Located([], item)], Under(name, NodesAll(children)), path, level);
  }

  lemma {:induction false} AnnotateAllIsPlace(items: seq<Item>, path: string, level: int)
    ensures AnnotateAll(items, path, level) == Place(NodesAll(items), path, level)
    decreases items
  {
    if |items| > 0 {
      AnnotateIsPlace(items[0], path, level);
      AnnotateAllIsPlace(items[1..], path, level);
      PlaceAppend(Nodes(items[0]), NodesAll(items[1..]), path, level);
    }
  }

  /** Every folder name in the subtree is non-empty and slash-free. */
  predicate WellNamed(item: Item)
    decreases item
  {
    match item
    case File(_, _, _) => true
    case Folder(name, children) =>
      name != "" && SlashFree(name) && forall i :: 0 <= i < |children| ==> WellNamed(children[i])
  }

  /** The ancestors recorded for a node are folder names of the tree. */
  lemma {:induction false} NodesAncestorsWellFormed(item: Item)
    requires WellNamed(item)
    ensures forall k :: 0 <= k < |Nodes(item)| ==> WellFormedNames(Nodes(item)[k].ancestors)
    decreases item
  {
    match item
    case File(_, _, _) =>
    case Folder(name, children) =>
      NodesAllAncestorsWellFormed(children);
  }

  lemma {:induction false} NodesAllAncestorsWellFormed(items: seq<Item>)
    requires forall i :: 0 <= i < |items| ==> WellNamed(items[i])
    ensures forall k :: 0 <= k < |NodesAll(items)| ==> WellFormedNames(NodesAll(items)[k].ancestors)
    decreases items
  {
    if |items| > 0 {
      NodesAncestorsWellFormed(items[0]);
      NodesAllAncestorsWellFormed(items[1..]);
      var a: seq<Located>, b: seq<Located> := Nodes(items[0]), NodesAll(items[1..]);
      forall k | 0 <= k < |a + b| ensures WellFormedNames((a + b)[k].ancestors) {
        if k >= |a| { assert (a + b)[k] == b[k - |a|]; }
      }
    }
  }

  /** Every node the walk reaches from a well-named tree is well named. */
  lemma WellNamedNode(root: Item, k: int)
    requires WellNamed(root)
    requires 0 <= k < Size(root)
    ensures WellNamed(Nodes(root)[k].node)
  {
    NodesWellNamed(root);
  }

  lemma {:induction false} NodesWellNamed(item: Item)
    requires WellNamed(item)
    ensures forall k :: 0 <= k < |Nodes(item)| ==> WellNamed(Nodes(item)[k].node)
    decreases item
  {
    match item
    case File(_, _, _) =>
    case Folder(name, children) =>
      NodesAllWellNamed(children);
  }

  lemma {:induction false} NodesAllWellNamed(items: seq<Item>)
    requires forall i :: 0 <= i < |items| ==> WellNamed(items[i])
    ensures forall k :: 0 <= k < |NodesAll(items)| ==> WellNamed(NodesAll(items)[k].node)
    decreases items
  {
    if |items| > 0 {
      NodesWellNamed(items[0]);
      NodesAllWellNamed(items[1..]);
      var a: seq<Located>, b: seq<Located> := Nodes(items[0]), NodesAll(items[1..]);
      forall k | 0 <= k < |a + b| ensures WellNamed((a + b)[k].node) {
        if k >= |a| { assert (a + b)[k] == b[k - |a|]; }
      }
    }
  }

  /**
   * From the top-level call (path left out, level `level`), a node below
   * well-named folders is rendered with the join of its ancestors' names as
   * path, which splits back into those names, and with its depth added to the level.
   */
  lemma RenderedFromTop(root: Item, level: int, k: int)
    requires WellNamed(root)
    requires 0 <= k < Size(root)
    ensures var r := AnnotateTop(root, None, level)[k];
      var l := Nodes(root)[k];
      && r.item == l.node
      && r.level == level + |l.ancestors|
      && r.path == Join(l.ancestors)
      && (|l.ancestors| >= 1 ==> Split(r.path) == l.ancestors)
  {
    AnnotateIsPlace(root, "", level);
    NodesAncestorsWellFormed(root);
    var l := Nodes(root)[k];
    PathFromTopIsJoin(l.ancestors);
    if |l.ancestors| >= 1 {
      SplitRecoversAncestors(l.ancestors);
    }
  }

  /** From the top-level call at level 0, exactly the top two layers start expanded. */
  lemma OpenExactlyTopTwoLayers(root: Item, k: int)
    requires 0 <= k < Size(root)
    ensures StartsOpen(AnnotateTop(root, None, 0)[k].level) <==> |Nodes(root)[k].ancestors| < 2
  {
    AnnotateIsPlace(root, "", 0);
  }

  /** Every direct child of a folder is rendered with the folder's own path and the next level. */
  lemma ChildrenGetFolderPath(name: string, children: seq<Item>, path: string, level: int, i: int)
    requires 0 <= i < |children|
    ensures Rendered(ChildPath(path, name), level + 1, children[i]) in Annotate(Folder(name, children), path, level)
  {
    var q := ChildPath(path, name);
    ChildInAnnotateAll(children, q, level + 1, i);
    var rest := AnnotateAll(children, q, level + 1);
    assert Annotate(Folder(name, children), path, level) == [Rendered(path, level, Folder(name, children))] + rest;
  }

  lemma {:induction false} ChildInAnnotateAll(items: seq<Item>, path: string, level: int, i: int)
    requires 0 <= i < |items|
    ensures Rendered(path, level, items[i]) in AnnotateAll(items, path, level)
    decreases i
  {
    if i > 0 {
      ChildInAnnotateAll(items[1..], path, level, i - 1);
    } else {
      assert AnnotateAll(items, path, level)[0] == Annotate(items[0], path, level)[0];
    }
  }
}
