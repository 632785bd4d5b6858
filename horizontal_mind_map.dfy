/** The two-sided horizontal view. The root sits at the origin; its
    children are split into a left half and a right half; each half is
    stacked in vertical slots, one per child, sized by the child's number
    of children; grandchildren are spread around their parent's row one
    column further out. Deeper nodes are not placed. Edges are cubic
    curves between facing box edges.

    Every spacing constant is a multiple of 20 and every slot a multiple
    of 120, so the source's divisions by two are exact and coordinates are
    modelled as integers; the edge curves, whose control points the source
    computes with a factor 0.5, are modelled as reals. */
module HorizontalMindMap {
  import opened Util
  import opened Tree
  import opened PaletteSelector
  import opened Viewport
  import MindMap

  const CanvasWidth: int := 2000
  const CanvasHeight: int := 1200
  const NodeWidth: int := 180
  const NodeHeight: int := 40
  const HorizontalSpacing: int := 300
  const VerticalSpacing: int := 120
  const GrandchildSpacing: int := 100

  /** This view's own palette table: the same as the diagram view's except
      for "blue" and the default, which use a different blue. */
  function HorizontalColors(palette: string): (r: Colors)
    ensures |r| >= 4
  {
    match palette
    case "blue" => ["#4353a4", "#6a75d1", "#8a93e1", "#b1b7f1"]
    case "green" => ["#166534", "#22c55e", "#86efac", "#dcfce7"]
    case "red" => ["#991b1b", "#ef4444", "#fca5a5", "#fee2e2"]
    case "purple" => ["#6b21a8", "#a855f7", "#d8b4fe", "#f3e8ff"]
    case "orange" => ["#9a3412", "#f97316", "#fdba74", "#ffedd5"]
    case "rainbow" => ["#ef4444", "#f97316", "#eab308", "#22c55e", "#3b82f6", "#a855f7"]
    case "pastel" => ["#f87171", "#fdba74", "#fde047", "#86efac", "#93c5fd", "#d8b4fe"]
    case "earth" => ["#78350f", "#a16207", "#15803d", "#166534", "#1e3a8a"]
    case _ => ["#4353a4", "#6a75d1", "#8a93e1", "#b1b7f1"]
  }

  /** The horizontal view agrees with the diagram view's table on every
      named palette except "blue"; for "blue" and for unknown names it
      uses a different blue. */
  lemma HorizontalPaletteDiffers(palette: string)
    ensures palette in ["green", "red", "purple", "orange", "rainbow", "pastel", "earth"]
      ==> HorizontalColors(palette) == MindMap.ColorsByPalette(palette)
    ensures palette !in ["green", "red", "purple", "orange", "rainbow", "pastel", "earth"]
      ==> HorizontalColors(palette)[0] == "#4353a4" && HorizontalColors(palette) != MindMap.ColorsByPalette(palette)
  {
    match palette
    case "blue" => assert MindMap.ColorsByPalette(palette)[0] == "#1e40af";
    case "green" =>
    case "red" =>
    case "purple" =>
    case "orange" =>
    case "rainbow" =>
    case "pastel" =>
    case "earth" =>
    case _ => assert MindMap.ColorsByPalette(palette)[0] == "#4f46e5";
  }

  datatype Side = Left | Right

  /** -1 on the left, +1 on the right. */
  function Sign(side: Side): int
  {
    if side == Left then -1 else 1
  }

  /** `splitChildren`: the first `ceil(n / 2)` children go left, the rest
      right; no children gives two empty halves. */
  function SplitChildren(n: Node): (halves: (seq<Node>, seq<Node>))
    ensures halves.0 + halves.1 == n.children
    ensures 0 <= |halves.0| - |halves.1| <= 1
  {
    if |n.children| == 0 then ([], [])
    else
      var mid := (|n.children| + 1) / 2;
      (n.children[..mid], n.children[mid..])
  }

  /** A node with its computed position. `side` is absent for the root and
      `parentId` is present for grandchildren only. */
  datatype Placed = Placed(node: Node, x: int, y: int, level: nat, side: Option<Side>, parentId: Option<string>)

  datatype Layout = Layout(root: Placed, left: seq<Placed>, right: seq<Placed>)

  /** Vertical room a child needs: one row per grandchild, at least one. */
  function Slot(c: Node): (h: nat)
    ensures h >= VerticalSpacing
    ensures h == (if |c.children| > 1 then |c.children| else 1) * VerticalSpacing
  {
    (if |c.children| > 1 then |c.children| else 1) * VerticalSpacing
  }

  /** Total height of the slots of `cs`. */
  function Total(cs: seq<Node>): nat
  {
    if |cs| == 0 then 0 else Slot(cs[0]) + Total(cs[1..])
  }

  /** Number of entries a half produces: each child and its children. */
  function Count(cs: seq<Node>): nat
  {
    if |cs| == 0 then 0 else 1 + |cs[0].children| + Count(cs[1..])
  }

  /** The entry of a level-1 child drawn at row `y`. */
  function ChildEntry(c: Node, y: int, side: Side): Placed
  {
    Placed(c, Sign(side) * HorizontalSpacing, y, 1, Some(side), None)
  }

  /** The entries of a child's children, for a child drawn at row `y`:
      spaced `GrandchildSpacing` apart, centred on `y`. */
  function Grandchildren(c: Node, y: int, side: Side): (gs: seq<Placed>)
    ensures |gs| == |c.children|
  {
    var start := y - (|c.children| * GrandchildSpacing) / 2 + GrandchildSpacing / 2;
    seq(|c.children|, g requires 0 <= g < |c.children| =>
      Placed(c.children[g], Sign(side) * 2 * HorizontalSpacing, start + g * GrandchildSpacing, 2, Some(side), Some(c.id)))
  }

  /** A child drawn at row `y` followed by its children. */
  function Block(c: Node, y: int, side: Side): (b: seq<Placed>)
    ensures |b| == 1 + |c.children|
  {
    [ChildEntry(c, y, side)] + Grandchildren(c, y, side)
  }

  lemma BlockParts(c: Node, y: int, side: Side)
    ensures Block(c, y, side)[0] == ChildEntry(c, y, side)
    ensures Block(c, y, side)[1..] == Grandchildren(c, y, side)
    ensures forall g :: 0 <= g < |c.children| ==> Block(c, y, side)[1 + g] == Grandchildren(c, y, side)[g]
  {
  }

  /** The centre of child `k`'s slot when the slots of `cs` are stacked
      from row `top` down. */
  function RowOf(cs: seq<Node>, top: int, k: nat): int
    requires k < |cs|
  {
    top + Total(cs[..k]) + Slot(cs[k]) / 2
  }

  /** Each child's block, at the centre of its slot. */
  function Blocks(cs: seq<Node>, top: int, side: Side): (bs: seq<seq<Placed>>)
    ensures |bs| == |cs|
  {
    seq(|cs|, k requires 0 <= k < |cs| => Block(cs[k], RowOf(cs, top, k), side))
  }

  /** The entries of the children `cs` stacked from row `top` down. */
  function SideFrom(cs: seq<Node>, top: int, side: Side): seq<Placed>
  {
    Concat(Blocks(cs, top, side))
  }

  /** One half, centred on row 0. */
  function SideLayout(cs: seq<Node>, side: Side): seq<Placed>
  {
    if |cs| == 0 then [] else SideFrom(cs, Top(cs), side)
  }

  /** The row where the first slot of a half starts. */
  function Top(cs: seq<Node>): int
  {
    -(Total(cs) as int) / 2
  }

  /** The row of child `k` in a half that is laid out. */
  function ChildY(cs: seq<Node>, k: nat): int
    requires k < |cs|
  {
    RowOf(cs, Top(cs), k)
  }

  /** The whole layout as a function of the data. */
  function Positions(data: Node): Layout
  {
    var halves := SplitChildren(data);
    Layout(Placed(data, 0, 0, 0, None, None), SideLayout(halves.0, Left), SideLayout(halves.1, Right))
  }

  /** `calculateNodePositions`, with the left and right passes, which the
      source writes out twice, as two calls of `PlaceSide`. */
  method CalculateNodePositions(data: Node) returns (nodes: Layout)
    ensures nodes == Positions(data)
  {
    var rootNode := Placed(data, 0, 0, 0, None, None);
    var halves := SplitChildren(data);
    var leftNodes := PlaceSide(halves.0, Left);
    var rightNodes := PlaceSide(halves.1, Right);
    nodes := Layout(rootNode, leftNodes, rightNodes);
  }

  /** One half of `calculateNodePositions`: add up the slot heights, then
      stack the children starting half of that above row 0. */
  method PlaceSide(cs: seq<Node>, side: Side) returns (nodes: seq<Placed>)
    ensures nodes == SideLayout(cs, side)
  {
    nodes := [];
    if |cs| > 0 {
      var total := TotalHeight(cs);
      nodes := StackChildren(cs, -total / 2, side);
    }
  }

  /** The first pass of a half: the sum of the slot heights. */
  method TotalHeight(cs: seq<Node>) returns (total: int)
    ensures total == Total(cs)
  {
    total := 0;
    var i := 0;
    while i < |cs|
      invariant 0 <= i <= |cs|
      invariant total == Total(cs[..i])
    {
      TotalStep(cs, i);
      var childrenCount := |cs[i].children|;
      var spaceNeeded := (if childrenCount > 1 then childrenCount else 1) * VerticalSpacing;
      total := total + spaceNeeded;
      i := i + 1;
    }
    assert cs[..|cs|] == cs;
  }

  /** The second pass of a half: for each child, push it at the centre of
      its slot followed by its children, then move down one slot. */
  method StackChildren(cs: seq<Node>, top: int, side: Side) returns (nodes: seq<Placed>)
    ensures nodes == SideFrom(cs, top, side)
  {
    nodes := [];
    var currentY := top;
    var i := 0;
    assert Blocks(cs, top, side)[..0] == [];
    while i < |cs|
      invariant 0 <= i <= |cs|
      invariant currentY == top + Total(cs[..i])
      invariant nodes == Concat(Blocks(cs, top, side)[..i])
    {
      var child := cs[i];
      var childrenCount := |child.children|;
      var spaceNeeded := (if childrenCount > 1 then childrenCount else 1) * VerticalSpacing;
      var childNode := ChildEntry(child, currentY + spaceNeeded / 2, side);
      ghost var before := nodes;
      nodes := nodes + [childNode];
      nodes := PushGrandchildren(nodes, child, childNode.y, side);
      StackStep(cs, top, side, i, before, nodes);
      TotalStep(cs, i);
      currentY := currentY + spaceNeeded;
      i := i + 1;
    }
    assert Blocks(cs, top, side)[..|cs|] == Blocks(cs, top, side);
  }

  /** The inner loop: the children of a child drawn at row `y`, appended
      to `nodes`. */
  method PushGrandchildren(nodes: seq<Placed>, child: Node, y: int, side: Side) returns (out: seq<Placed>)
    ensures out == nodes + Grandchildren(child, y, side)
  {
    out := nodes;
    var childrenCount := |child.children|;
    if childrenCount > 0 {
      var grandchildrenHeight := childrenCount * GrandchildSpacing;
      var grandchildStartY := y - grandchildrenHeight / 2 + GrandchildSpacing / 2;
      var g := 0;
      while g < childrenCount
        invariant 0 <= g <= childrenCount
        invariant out == nodes + Grandchildren(child, y, side)[..g]
      {
        out := out + [Placed(child.children[g], Sign(side) * 2 * HorizontalSpacing,
                             grandchildStartY + g * GrandchildSpacing, 2, Some(side), Some(child.id))];
        g := g + 1;
      }
    }
    assert Grandchildren(child, y, side)[..childrenCount] == Grandchildren(child, y, side);
  }

  /** One turn of `StackChildren` appends child `i`'s block. */
  lemma StackStep(cs: seq<Node>, top: int, side: Side, i: nat, before: seq<Placed>, nodes: seq<Placed>)
    requires i < |cs| && before == Concat(Blocks(cs, top, side)[..i])
    requires nodes == before + [ChildEntry(cs[i], RowOf(cs, top, i), side)] + Grandchildren(cs[i], RowOf(cs, top, i), side)
    ensures nodes == Concat(Blocks(cs, top, side)[..i + 1])
  {
    var bs := Blocks(cs, top, side);
    assert bs[..i + 1] == bs[..i] + [bs[i]];
    ConcatAppend(bs[..i], [bs[i]]);
    ConcatOne(bs[i]);
  }

  // ---------------------------------------------------------------------
  // Properties of the layout

  lemma {:induction false} TotalStep(cs: seq<Node>, k: nat)
    requires k < |cs|
    ensures Total(cs[..k + 1]) == Total(cs[..k]) + Slot(cs[k])
  {
    if k == 0 {
      assert cs[..1][1..] == [];
      assert cs[..0] == [];
    } else {
      TotalStep(cs[1..], k - 1);
      assert cs[..k + 1][1..] == cs[1..][..k];
      assert cs[..k][1..] == cs[1..][..k - 1];
    }
  }

  lemma {:induction false} SumCount(xs: seq<Node>)
    ensures Sum(seq(|xs|, j requires 0 <= j < |xs| => 1 + |xs[j].children|)) == Count(xs)
  {
    if |xs| > 0 {
      SumCount(xs[1..]);
      var lens := seq(|xs|, j requires 0 <= j < |xs| => 1 + |xs[j].children|);
      assert lens[1..] == seq(|xs[1..]|, j requires 0 <= j < |xs[1..]| => 1 + |xs[1..][j].children|);
    }
  }

  /** The blocks of the first `k` children hold `Count(cs[..k])` entries. */
  lemma PrefixLength(cs: seq<Node>, top: int, side: Side, k: nat)
    requires k <= |cs|
    ensures |Concat(Blocks(cs, top, side)[..k])| == Count(cs[..k])
  {
    var xs := cs[..k];
    var lens := seq(|xs|, j requires 0 <= j < |xs| => 1 + |xs[j].children|);
    ConcatLength(Blocks(cs, top, side)[..k], lens);
    SumCount(xs);
  }

  /** A half holds one entry per child and per grandchild. */
  lemma SideLength(cs: seq<Node>, top: int, side: Side)
    ensures |SideFrom(cs, top, side)| == Count(cs)
  {
    PrefixLength(cs, top, side, |cs|);
    assert cs[..|cs|] == cs;
    assert Blocks(cs, top, side)[..|cs|] == Blocks(cs, top, side);
  }

  /** `out` holds, from position `at`, the entry of child `c` drawn at row
      `y` followed by the entries of its children. */
  predicate EntriesAt(out: seq<Placed>, at: nat, c: Node, y: int, side: Side)
  {
    at + 1 + |c.children| <= |out| && out[at..at + 1 + |c.children|] == Block(c, y, side)
  }

  lemma ShiftEntries(block: seq<Placed>, rest: seq<Placed>, at: nat, c: Node, y: int, side: Side)
    requires EntriesAt(rest, at, c, y, side)
    ensures EntriesAt(block + rest, |block| + at, c, y, side)
  {
    var out := block + rest;
    var m := |c.children|;
    assert out[|block| + at..|block| + at + 1 + m] == rest[at..at + 1 + m];
  }

  lemma FirstEntries(block: seq<Placed>, rest: seq<Placed>, c: Node, y: int, side: Side)
    requires block == Block(c, y, side)
    ensures EntriesAt(block + rest, 0, c, y, side)
  {
    assert (block + rest)[0..1 + |c.children|] == block;
  }

  /** Where child `k` and its children sit in a stacked half: the child at
      position `Count(cs[..k])`, at the centre of its slot, its children
      right after it. */
  lemma SideEntries(cs: seq<Node>, top: int, side: Side, k: nat)
    requires k < |cs|
    ensures EntriesAt(SideFrom(cs, top, side), Count(cs[..k]), cs[k], RowOf(cs, top, k), side)
  {
    var bs := Blocks(cs, top, side);
    var rest := bs[k..];
    assert bs == bs[..k] + rest;
    ConcatAppend(bs[..k], rest);
    assert rest[0] == bs[k] && Concat(rest) == bs[k] + Concat(rest[1..]);
    PrefixLength(cs, top, side, k);
    FirstEntries(bs[k], Concat(rest[1..]), cs[k], RowOf(cs, top, k), side);
    ShiftEntries(Concat(bs[..k]), Concat(rest), 0, cs[k], RowOf(cs, top, k), side);
  }

  /** Every child sits at the centre of its slot, followed by its
      children. */
  lemma SlotsHoldEntries(cs: seq<Node>, side: Side, k: nat)
    requires k < |cs|
    ensures EntriesAt(SideLayout(cs, side), Count(cs[..k]), cs[k], ChildY(cs, k), side)
  {
    SideEntries(cs, Top(cs), side, k);
  }

  /** Slots are contiguous and the half spans exactly [-Total/2, Total/2]:
      the first slot starts at -Total/2, each next slot starts where the
      previous ends, and the last ends at Total/2. */
  lemma SlotsTile(cs: seq<Node>, k: nat)
    requires k < |cs|
    ensures 2 * Top(cs) + Total(cs) == 0
    ensures k == 0 ==> ChildY(cs, k) - Slot(cs[k]) / 2 == Top(cs)
    ensures k + 1 < |cs| ==> ChildY(cs, k) + Slot(cs[k]) / 2 == ChildY(cs, k + 1) - Slot(cs[k + 1]) / 2
    ensures k + 1 == |cs| ==> ChildY(cs, k) + Slot(cs[k]) / 2 == -Top(cs)
  {
    assert cs[..0] == [];
    TotalStep(cs, k);
    TotalEven(cs);
    SlotEven(cs[k]);
    if k + 1 < |cs| {
      SlotEven(cs[k + 1]);
    } else {
      assert cs[..k + 1] == cs;
    }
  }

  lemma SlotEven(c: Node)
    ensures Slot(c) == 2 * (Slot(c) / 2)
  {
    var rows := if |c.children| > 1 then |c.children| else 1;
    var half := rows * (VerticalSpacing / 2);
    assert Slot(c) == 2 * half;
  }

  lemma {:induction false} TotalEven(cs: seq<Node>)
    ensures Total(cs) % 2 == 0
  {
    if |cs| > 0 {
      TotalEven(cs[1..]);
      SlotEven(cs[0]);
    }
  }

  /** Children appear top to bottom in their given order. */
  lemma ChildrenDescend(cs: seq<Node>, j: nat, k: nat)
    requires j < k < |cs|
    ensures ChildY(cs, j) < ChildY(cs, k)
    decreases k - j
  {
    TotalStep(cs, j);
    if j + 1 < k {
      ChildrenDescend(cs, j + 1, k);
      TotalPrefixGrows(cs, j + 1, k);
    }
  }

  lemma {:induction false} TotalPrefixGrows(cs: seq<Node>, j: nat, k: nat)
    requires j <= k <= |cs|
    ensures Total(cs[..j]) <= Total(cs[..k])
    decreases k - j
  {
    if j < k {
      TotalStep(cs, j);
      TotalPrefixGrows(cs, j + 1, k);
    }
  }

  /** A child's children are `GrandchildSpacing` apart in order, placed
      symmetrically about the child's row (so their mean row is the
      child's row), and all inside the child's slot. */
  lemma GrandchildrenAroundParent(c: Node, y: int, side: Side, g: nat)
    requires g < |c.children|
    ensures var gs := Grandchildren(c, y, side);
      && (g + 1 < |gs| ==> gs[g + 1].y - gs[g].y == GrandchildSpacing)
      && gs[g].y + gs[|gs| - 1 - g].y == 2 * y
      && y - Slot(c) / 2 <= gs[g].y - NodeHeight / 2
      && gs[g].y + NodeHeight / 2 <= y + Slot(c) / 2
      && gs[g].parentId == Some(c.id) && gs[g].node == c.children[g]
  {
    var m := |c.children|;
    assert (m * GrandchildSpacing) / 2 == m * 50;
  }

  /** Every entry of a half is on that side, at level 1 or 2, at the
      column of its level: x does not depend on any subtree's size. */
  lemma ColumnsFixed(cs: seq<Node>, top: int, side: Side)
    ensures forall p :: p in SideFrom(cs, top, side) ==>
      p.side == Some(side) && (p.level == 1 || p.level == 2) && p.x == Sign(side) * p.level * HorizontalSpacing
  {
    var bs := Blocks(cs, top, side);
    forall p | p in SideFrom(cs, top, side)
      ensures p.side == Some(side) && (p.level == 1 || p.level == 2) && p.x == Sign(side) * p.level * HorizontalSpacing
    {
      ConcatMember(bs, p);
      var i :| 0 <= i < |bs| && p in bs[i];
      var gs := Grandchildren(cs[i], RowOf(cs, top, i), side);
      assert p == ChildEntry(cs[i], RowOf(cs, top, i), side) || p in gs;
    }
  }

  /** The layout as a whole: the root at the origin, every child on its
      side's level-1 column and every grandchild on the level-2 column, and
      exactly one entry per child and grandchild. */
  lemma LayoutShape(data: Node)
    ensures var l := Positions(data);
      && l.root.x == 0 && l.root.y == 0 && l.root.level == 0 && l.root.node == data
      && |l.left| + |l.right| == Count(data.children)
      && (forall p :: p in l.left ==> p.side == Some(Left) && p.x == -(p.level as int) * HorizontalSpacing && 1 <= p.level <= 2)
      && (forall p :: p in l.right ==> p.side == Some(Right) && p.x == p.level * HorizontalSpacing && 1 <= p.level <= 2)
  {
    var halves := SplitChildren(data);
    if |halves.0| > 0 {
      ColumnsFixed(halves.0, Top(halves.0), Left);
      SideLength(halves.0, Top(halves.0), Left);
    }
    if |halves.1| > 0 {
      ColumnsFixed(halves.1, Top(halves.1), Right);
      SideLength(halves.1, Top(halves.1), Right);
    }
    CountAppend(halves.0, halves.1);
  }

  lemma {:induction false} CountAppend(a: seq<Node>, b: seq<Node>)
    ensures Count(a + b) == Count(a) + Count(b)
  {
    if |a| == 0 {
      assert a + b == b;
    } else {
      assert (a + b)[1..] == a[1..] + b;
      CountAppend(a[1..], b);
    }
  }

  // ---------------------------------------------------------------------
  // Drawing: boxes and edges

  /** `parentList.find((p) => p.id === id)`; an absent `parentId` matches
      nothing. */
  function FindById(list: seq<Placed>, id: Option<string>): (r: Option<Placed>)
    ensures r.Some? ==> id.Some? && (exists j :: 0 <= j < |list| && list[j] == r.value && list[j].node.id == id.value
                                                 && forall i :: 0 <= i < j ==> list[i].node.id != id.value)
    ensures r.None? ==> id.None? || forall j :: 0 <= j < |list| ==> list[j].node.id != id.value
  {
    if id.None? || |list| == 0 then None
    else if list[0].node.id == id.value then Some(list[0])
    else
      var r := FindById(list[1..], id);
      assert forall j :: 1 <= j < |list| ==> list[j] == list[1..][j - 1];
      r
  }

  predicate DistinctPlacedIds(list: seq<Placed>)
  {
    forall i, j :: 0 <= i < j < |list| ==> list[i].node.id != list[j].node.id
  }

  /** A cubic Bézier curve: start, two control points, end. */
  datatype Curve = Curve(startX: real, startY: real, c1x: real, c1y: real, c2x: real, c2y: real, endX: real, endY: real)

  /** The parent an edge is drawn from: the root for level 1, the first
      entry of the node's side list whose id is its `parentId` for level 2. */
  function ParentOf(node: Placed, parentNode: Placed, nodes: Layout): Option<Placed>
  {
    if node.level == 1 then Some(parentNode)
    else if node.level == 2 then FindById(if node.side == Some(Left) then nodes.left else nodes.right, node.parentId)
    else None
  }

  /** The curve from the parent's box edge facing the node to the node's
      box edge facing the parent. */
  function EdgeFrom(parent: Placed, node: Placed): (e: Curve)
    ensures e.c1x == e.c2x && 2.0 * e.c1x == e.startX + e.endX
    ensures e.c1y == e.startY == parent.y as real && e.c2y == e.endY == node.y as real
    ensures node.side == Some(Left) ==> e.startX == (parent.x - NodeWidth / 2) as real && e.endX == (node.x + NodeWidth / 2) as real
    ensures node.side != Some(Left) ==> e.startX == (parent.x + NodeWidth / 2) as real && e.endX == (node.x - NodeWidth / 2) as real
  {
    var half := (NodeWidth / 2) as real;
    var startX := parent.x as real + (if node.side == Some(Left) then -half else half);
    var startY := parent.y as real;
    var endX := node.x as real + (if node.side == Some(Left) then half else -half);
    var endY := node.y as real;
    Curve(startX, startY, startX + (endX - startX) * 0.5, startY, endX - (endX - startX) * 0.5, endY, endX, endY)
  }

  /** A node's box: top-left corner, size, stroke colour. */
  datatype Box = Box(x: int, y: int, width: int, height: int, stroke: string)

  datatype Drawn = Drawn(box: Box, textX: int, textY: int, edge: Option<Curve>)

  /** What `drawNodes` draws for one entry. */
  function Draw(node: Placed, parentNode: Placed, nodes: Layout, colors: Colors): (d: Drawn)
    requires |colors| > 0
    ensures d.box.x + NodeWidth / 2 == node.x == d.textX && d.box.y + NodeHeight / 2 == node.y == d.textY
    ensures d.box.stroke == ColorAt(colors, node.level)
    ensures d.edge.Some? <==> ParentOf(node, parentNode, nodes).Some?
    ensures d.edge.Some? ==> d.edge.value == EdgeFrom(ParentOf(node, parentNode, nodes).value, node)
  {
    var box := Box(node.x - NodeWidth / 2, node.y - NodeHeight / 2, NodeWidth, NodeHeight, colors[node.level % |colors|]);
    var edge := match ParentOf(node, parentNode, nodes)
      case None => None
      case Some(p) => Some(EdgeFrom(p, node));
    Drawn(box, node.x, node.y, edge)
  }

  /** `drawNodes(nodeList, parentNode)`: one drawing per entry, in order. */
  method DrawNodes(nodeList: seq<Placed>, parentNode: Placed, nodes: Layout, colors: Colors) returns (drawn: seq<Drawn>)
    requires |colors| > 0
    ensures |drawn| == |nodeList|
    ensures forall i :: 0 <= i < |nodeList| ==> drawn[i] == Draw(nodeList[i], parentNode, nodes, colors)
  {
    drawn := [];
    var i := 0;
    while i < |nodeList|
      invariant 0 <= i <= |nodeList|
      invariant |drawn| == i
      invariant forall j :: 0 <= j < i ==> drawn[j] == Draw(nodeList[j], parentNode, nodes, colors)
    {
      var node := nodeList[i];
      var box := Box(node.x - NodeWidth / 2, node.y - NodeHeight / 2, NodeWidth, NodeHeight, colors[node.level % |colors|]);
      var parent: Option<Placed> := None;
      if node.level == 1 {
        parent := Some(parentNode);
      } else if node.level == 2 {
        var parentList := if node.side == Some(Left) then nodes.left else nodes.right;
        parent := FindById(parentList, node.parentId);
      }
      var edge: Option<Curve> := None;
      if parent.Some? {
        edge := Some(EdgeFrom(parent.value, node));
      }
      drawn := drawn + [Drawn(box, node.x, node.y, edge)];
      i := i + 1;
    }
  }

  /** With distinct ids on a side, the edge of a grandchild starts at its
      true parent, the child it was placed under. */
  lemma GrandchildEdgeFromParent(cs: seq<Node>, side: Side, k: nat, g: nat)
    requires k < |cs| && g < |cs[k].children|
    requires DistinctPlacedIds(SideLayout(cs, side))
    ensures var out := SideLayout(cs, side);
      var at := Count(cs[..k]);
      at + 1 + g < |out| && FindById(out, out[at + 1 + g].parentId) == Some(out[at])
  {
    SlotsHoldEntries(cs, side, k);
    BlockFindsParent(SideLayout(cs, side), Count(cs[..k]), cs[k], ChildY(cs, k), side, g);
  }

  /** In any list holding a block, with distinct ids, the `parentId` of
      the block's `g`-th grandchild leads to the block's child. */
  lemma BlockFindsParent(out: seq<Placed>, at: nat, c: Node, y: int, side: Side, g: nat)
    requires EntriesAt(out, at, c, y, side) && DistinctPlacedIds(out) && g < |c.children|
    ensures at + 1 + g < |out| && FindById(out, out[at + 1 + g].parentId) == Some(out[at])
  {
    var b := out[at..at + 1 + |c.children|];
    assert out[at] == b[0] && out[at + 1 + g] == b[1 + g];
    assert b[0].node.id == c.id && b[1 + g].parentId == Some(c.id);
    FindUnique(out, at);
  }

  /** With distinct ids, looking an entry's id up finds that entry. */
  lemma FindUnique(list: seq<Placed>, j: nat)
    requires DistinctPlacedIds(list) && j < |list|
    ensures FindById(list, Some(list[j].node.id)) == Some(list[j])
  {
    var r := FindById(list, Some(list[j].node.id));
    var i :| 0 <= i < |list| && list[i] == r.value && list[i].node.id == list[j].node.id
              && forall h :: 0 <= h < i ==> list[h].node.id != list[j].node.id;
    assert i == j;
  }

  /** Every edge of a laid-out side runs from the parent's column towards
      the child's column and crosses the 120-unit gap between their boxes;
      level-1 edges leave the root's side edge at row 0. */
  lemma EdgeSpansGap(parent: Placed, node: Placed, side: Side)
    requires node.side == Some(side) && 1 <= node.level <= 2
    requires node.x == Sign(side) * node.level * HorizontalSpacing
    requires parent.x == Sign(side) * (node.level - 1) * HorizontalSpacing
    ensures var e := EdgeFrom(parent, node);
      (if side == Left then e.startX - e.endX else e.endX - e.startX) == (HorizontalSpacing - NodeWidth) as real
  {
  }

  /** Level-1 entries hang from the root. */
  lemma ChildEdgeFromRoot(data: Node, node: Placed)
    requires node in Positions(data).left || node in Positions(data).right
    requires node.level == 1
    ensures ParentOf(node, Positions(data).root, Positions(data)) == Some(Positions(data).root)
    ensures EdgeFrom(Positions(data).root, node).startY == 0.0
  {
  }

  /** The colour of a box depends only on its level; with this view's
      palettes, level 1 and level 2 get the palette's second and third
      colours. */
  lemma StrokeByLevel(palette: string, node: Placed, parentNode: Placed, nodes: Layout)
    requires 1 <= node.level <= 2
    ensures Draw(node, parentNode, nodes, HorizontalColors(palette)).box.stroke == HorizontalColors(palette)[node.level]
  {
  }

  // ---------------------------------------------------------------------
  // Placement on the canvas

  /** The pan/zoom effect's transform: the canvas centre plus the pan,
      then the zoom. */
  function ContainerTransform(pan: Point, zoom: real): (t: MindMap.Transform)
    ensures t.scale == zoom
    ensures MindMap.Apply(t, Origin) == Add(Point(CanvasWidth as real / 2.0, CanvasHeight as real / 2.0), pan)
  {
    MindMap.Transform(CanvasWidth as real / 2.0 + pan.x, CanvasHeight as real / 2.0 + pan.y, zoom)
  }

  /** The transform the container is meant to carry at all times, the
      pan/zoom effect's: the root stays at the canvas centre at rest (unlike
      the diagram view), and a pan moves every node by exactly the pan. */
  lemma RootCentred(pan: Point, zoom: real, p: Point)
    ensures ContainerTransform(Origin, 1.0) == MindMap.Transform(1000.0, 600.0, 1.0)
    ensures MindMap.Apply(ContainerTransform(Origin, 1.0), Origin) == Point(1000.0, 600.0)
    ensures MindMap.Apply(ContainerTransform(pan, zoom), p) == Add(MindMap.Apply(ContainerTransform(Origin, zoom), p), pan)
  {
  }

  /** What the container carries after a render step that no pan or zoom
      change follows (the data or the palette changed): the render step's
      own transform, the canvas centre with no pan and no scale, whatever
      the current pan and zoom are. */
  function RerenderedTransformAsWritten(pan: Point, zoom: real): (t: MindMap.Transform)
    ensures t.scale == 1.0
    ensures MindMap.Apply(t, Origin) == Point(1000.0, 600.0)
  {
    MindMap.Transform(CanvasWidth as real / 2.0, CanvasHeight as real / 2.0, 1.0)
  }

  /** Once mounted (zoom 0.8, no pan), a palette change leaves the drawing
      at 100% while the zoom control still reads 80%; after a pan, the same
      change moves the drawing back to the centre. */
  lemma RerenderDropsViewAsWritten(pan: Point)
    requires pan != Origin
    ensures RerenderedTransformAsWritten(Origin, 0.8).scale != 0.8
    ensures RerenderedTransformAsWritten(Origin, 0.8) != ContainerTransform(Origin, 0.8)
    ensures MindMap.Apply(RerenderedTransformAsWritten(pan, 1.0), Origin) != MindMap.Apply(ContainerTransform(pan, 1.0), Origin)
  {
  }
}
