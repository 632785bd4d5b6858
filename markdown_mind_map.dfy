/** The collapsible heading-outline view: a set of expanded node ids, a
    toggle per node, and the rows the view shows for a tree. Its palette
    table is the diagram view's one (`MindMap.ColorsByPalette`); its
    export is `OutlineExport.GenerateMarkdown`. */
module MarkdownMindMap {
  import opened Util
  import opened Tree
  import opened PaletteSelector
  import opened MarkdownNode
  import MindMap

  /** `toggleNode` on a set value: copy, then delete the id if present and
      add it otherwise. */
  function ToggleSet(s: set<string>, id: string): (r: set<string>)
    ensures id in r <==> id !in s
    ensures forall other :: other != id ==> (other in r <==> other in s)
  {
    if id in s then s - {id} else s + {id}
  }

  /** Toggling the same node twice restores the set. */
  lemma ToggleTwice(s: set<string>, id: string)
    ensures ToggleSet(ToggleSet(s, id), id) == s
  {
  }

  /** The expand/collapse button of a row: absent on leaves; on a node with
      children it reads "−" (aria label "Collapse") when the node is
      expanded and "+" ("Expand") when it is not. */
  datatype Toggle = NoToggle | Collapse | Expand

  function Glyph(t: Toggle): (g: string)
    ensures t.NoToggle? <==> g == ""
    ensures t.Collapse? <==> g == "\U{2212}"
    ensures t.Expand? <==> g == "+"
  {
    match t
    case NoToggle => ""
    case Collapse => "\U{2212}"
    case Expand => "+"
  }

  /** One row of the view. `path` is the child-index path from the root,
      so the depth is `|path|`. */
  datatype Row = Row(path: seq<nat>, name: string, symbol: string, color: string, indent: nat, toggle: Toggle)

  /** The row of node `t` reached by `path`. */
  function RowFor(t: Node, path: seq<nat>, expanded: set<string>, colors: Colors): (r: Row)
    requires |colors| > 0
    ensures r.path == path && r.name == t.name
    ensures r.symbol == HeadingSymbol(|path|) && |r.symbol| == HeadingLevel(|path|)
    ensures r.color == ColorAt(colors, |path|)
    ensures r.indent == 20 * |path|
    ensures r.toggle.NoToggle? <==> |t.children| == 0
    ensures r.toggle.Collapse? <==> |t.children| > 0 && t.id in expanded
  {
    var d := Decorate(|path|, colors);
    var toggle := if |t.children| == 0 then NoToggle else if t.id in expanded then Collapse else Expand;
    Row(path, t.name, d.symbol, ColorAt(colors, |path|), |path| * 20, toggle)
  }

  /** `renderNode`: the node's own row, then, when the node is expanded and
      has children, the rows of each child in order. */
  function RenderNode(n: Node, path: seq<nat>, expanded: set<string>, colors: Colors): (rows: seq<Row>)
    requires |colors| > 0
    ensures |rows| >= 1 && rows[0] == RowFor(n, path, expanded, colors)
    ensures n.id !in expanded ==> |rows| == 1
  {
    [RowFor(n, path, expanded, colors)]
      + (if n.id in expanded && |n.children| > 0
         then Concat(seq(|n.children|, i requires 0 <= i < |n.children| => RenderNode(n.children[i], path + [i], expanded, colors)))
         else [])
  }

  /** Reference: the node at path `q` is visible when every proper
      ancestor on the way is expanded (and the path exists). */
  predicate Visible(n: Node, q: seq<nat>, expanded: set<string>)
    decreases |q|
  {
    q == [] || (n.id in expanded && q[0] < |n.children| && Visible(n.children[q[0]], q[1..], expanded))
  }

  /** A visible path leads to a node. */
  lemma {:induction false} VisibleIsPath(n: Node, q: seq<nat>, expanded: set<string>)
    requires Visible(n, q, expanded)
    ensures Subtree(n, q).Some?
    decreases |q|
  {
    if q != [] {
      VisibleIsPath(n.children[q[0]], q[1..], expanded);
    }
  }

  /** `r` is the row of the visible node at `q` below a node drawn at `path`. */
  predicate RowOfVisible(n: Node, q: seq<nat>, path: seq<nat>, expanded: set<string>, colors: Colors, r: Row)
    requires |colors| > 0
  {
    Visible(n, q, expanded) && Subtree(n, q).Some? && r == RowFor(Subtree(n, q).value, path + q, expanded, colors)
  }

  lemma ExtendRowOfVisible(n: Node, i: nat, q: seq<nat>, path: seq<nat>, expanded: set<string>, colors: Colors, r: Row)
    requires |colors| > 0
    requires n.id in expanded && i < |n.children|
    requires RowOfVisible(n.children[i], q, path + [i], expanded, colors, r)
    ensures RowOfVisible(n, [i] + q, path, expanded, colors, r)
  {
    var q2 := [i] + q;
    assert q2[0] == i && q2[1..] == q;
    assert path + [i] + q == path + q2;
  }

  /** Every row shown is the row of a visible node. */
  lemma {:induction false} RowsAreVisible(n: Node, path: seq<nat>, expanded: set<string>, colors: Colors)
    requires |colors| > 0
    ensures forall r :: r in RenderNode(n, path, expanded, colors) ==>
      exists q :: RowOfVisible(n, q, path, expanded, colors, r)
  {
    var rows := RenderNode(n, path, expanded, colors);
    forall r | r in rows
      ensures exists q :: RowOfVisible(n, q, path, expanded, colors, r)
    {
      if r == rows[0] {
        assert path + [] == path;
        assert RowOfVisible(n, [], path, expanded, colors, r);
      } else {
        var parts := seq(|n.children|, i requires 0 <= i < |n.children| => RenderNode(n.children[i], path + [i], expanded, colors));
        assert rows == [RowFor(n, path, expanded, colors)] + Concat(parts);
        ConcatMember(parts, r);
        var i :| 0 <= i < |parts| && r in parts[i];
        RowsAreVisible(n.children[i], path + [i], expanded, colors);
        var q :| RowOfVisible(n.children[i], q, path + [i], expanded, colors, r);
        ExtendRowOfVisible(n, i, q, path, expanded, colors, r);
      }
    }
  }

  /** The rows of a child of an expanded node are among the node's rows. */
  lemma ChildRowsShown(n: Node, path: seq<nat>, expanded: set<string>, colors: Colors, k: nat, r: Row)
    requires |colors| > 0
    requires n.id in expanded && k < |n.children|
    requires r in RenderNode(n.children[k], path + [k], expanded, colors)
    ensures r in RenderNode(n, path, expanded, colors)
  {
    var parts := seq(|n.children|, i requires 0 <= i < |n.children| => RenderNode(n.children[i], path + [i], expanded, colors));
    assert r in parts[k];
    ConcatMember(parts, r);
    assert RenderNode(n, path, expanded, colors) == [RowFor(n, path, expanded, colors)] + Concat(parts);
  }

  /** Every visible node has its row among those shown. */
  lemma {:induction false} VisibleNodesAreShown(n: Node, path: seq<nat>, q: seq<nat>, expanded: set<string>, colors: Colors)
    requires |colors| > 0
    requires Visible(n, q, expanded)
    ensures Subtree(n, q).Some?
    ensures RowFor(Subtree(n, q).value, path + q, expanded, colors) in RenderNode(n, path, expanded, colors)
    decreases |q|
  {
    if q == [] {
      assert path + q == path;
    } else {
      VisibleNodesAreShown(n.children[q[0]], path + [q[0]], q[1..], expanded, colors);
      PathThroughChild(path, q);
      ChildRowsShown(n, path, expanded, colors, q[0], RowFor(Subtree(n, q).value, path + q, expanded, colors));
    }
  }

  lemma PathThroughChild(path: seq<nat>, q: seq<nat>)
    requires q != []
    ensures path + [q[0]] + q[1..] == path + q
  {
    assert q == [q[0]] + q[1..];
  }

  /** The view's state: the ids of the expanded nodes. */
  class OutlineView {
    var expanded: set<string>

    constructor ()
      ensures expanded == {}
    {
      expanded := {};
    }

    /** The effect run whenever the data changes: only the root is
        expanded, so the view shows the root and its children. */
    method DataChanged(data: Node)
      modifies this
      ensures expanded == {data.id}
    {
      expanded := {data.id};
    }

    /** `toggleNode(id)`: flips the membership of `id`, nothing else. */
    method ToggleNode(id: string)
      modifies this
      ensures expanded == ToggleSet(old(expanded), id)
    {
      var next := expanded;
      if id in next {
        next := next - {id};
      } else {
        next := next + {id};
      }
      expanded := next;
    }

    /** The rows shown for `data` with the named palette. */
    function Rows(data: Node, palette: string): (rows: seq<Row>)
      reads this
      ensures |rows| >= 1 && rows[0] == RowFor(data, [], expanded, MindMap.ColorsByPalette(palette))
    {
      RenderNode(data, [], expanded, MindMap.ColorsByPalette(palette))
    }
  }

  /** Right after the data changes, the rows are the root's followed by one
      row per child, in order: each child is collapsed, so it is shown alone
      (children whose id equals the root's would be expanded too). */
  lemma FreshViewShowsRootAndChildren(data: Node, colors: Colors)
    requires |colors| > 0
    requires forall i :: 0 <= i < |data.children| ==> data.children[i].id != data.id
    ensures RenderNode(data, [], {data.id}, colors) ==
      [RowFor(data, [], {data.id}, colors)]
      + seq(|data.children|, i requires 0 <= i < |data.children| => RowFor(data.children[i], [i], {data.id}, colors))
    ensures |RenderNode(data, [], {data.id}, colors)| == 1 + |data.children|
  {
    var e := {data.id};
    var parts := seq(|data.children|, i requires 0 <= i < |data.children| => RenderNode(data.children[i], [] + [i], e, colors));
    var childRows := seq(|data.children|, i requires 0 <= i < |data.children| => RowFor(data.children[i], [i], e, colors));
    forall i | 0 <= i < |data.children|
      ensures parts[i] == [childRows[i]]
    {
      assert [] + [i] == [i];
    }
    ConcatSingletons(parts, childRows);
    if |data.children| > 0 {
      assert RenderNode(data, [], e, colors) == [RowFor(data, [], e, colors)] + Concat(parts);
    }
  }
}
