/** The rendering rules of the d3-based diagram view that do not depend on
    d3 itself: the palette table, the style-to-shape rule, the layout
    configuration chosen per diagram type, where a node is drawn from the
    (x, y) pair d3 assigns it, the links, the fishbone path, the label
    placement, and the transform of the drawing group.

    d3's layout output is taken as input: `x` and `y` below are the values
    d3 wrote on a node, and for the radial layout `sinX` and `cosX` stand
    for `Math.sin(x)` and `Math.cos(x)`. */
module MindMap {
  import opened Catalog
  import opened PaletteSelector
  import LayoutStyleSelector
  import opened Viewport

  /** `getColorsByPalette`: eight named palettes, anything else gets the
      five-colour default. */
  function ColorsByPalette(palette: string): (r: Colors)
    ensures |r| >= 4
  {
    match palette
    case "blue" => ["#1e40af", "#3b82f6", "#93c5fd", "#dbeafe"]
    case "green" => ["#166534", "#22c55e", "#86efac", "#dcfce7"]
    case "red" => ["#991b1b", "#ef4444", "#fca5a5", "#fee2e2"]
    case "purple" => ["#6b21a8", "#a855f7", "#d8b4fe", "#f3e8ff"]
    case "orange" => ["#9a3412", "#f97316", "#fdba74", "#ffedd5"]
    case "rainbow" => ["#ef4444", "#f97316", "#eab308", "#22c55e", "#3b82f6", "#a855f7"]
    case "pastel" => ["#f87171", "#fdba74", "#fde047", "#86efac", "#93c5fd", "#d8b4fe"]
    case "earth" => ["#78350f", "#a16207", "#15803d", "#166534", "#1e3a8a"]
    case _ => ["#4f46e5", "#60a5fa", "#93c5fd", "#bfdbfe", "#dbeafe"]
  }

  /** The view draws every palette with exactly the colours the palette
      menu shows for it, unknown names included (both fall back to
      "default"). */
  lemma PaletteTablesAgree(palette: string)
    ensures ColorsByPalette(palette) == CurrentPalette(palette).value
  {
    match palette
    case "default" => PaletteAt(0);
    case "blue" => PaletteAt(1);
    case "green" => PaletteAt(2);
    case "red" => PaletteAt(3);
    case "purple" => PaletteAt(4);
    case "orange" => PaletteAt(5);
    case "rainbow" => PaletteAt(6);
    case "pastel" => PaletteAt(7);
    case "earth" => PaletteAt(8);
    case _ => UnknownPalette(palette);
  }

  /** The menu entry at position `k` is what looking its id up gives. */
  lemma PaletteAt(k: nat)
    requires k < 9
    ensures CurrentPalette(Palettes[k].id) == Palettes[k]
  {
    CatalogWellFormed();
    KnownIdSelectsItself(Palettes, k);
  }

  lemma UnknownPalette(palette: string)
    requires palette !in ["default", "blue", "green", "red", "purple", "orange", "rainbow", "pastel", "earth"]
    ensures CurrentPalette(palette) == Palettes[0]
  {
    var ids := ["default", "blue", "green", "red", "purple", "orange", "rainbow", "pastel", "earth"];
    forall k | 0 <= k < |Palettes|
      ensures Palettes[k].id != palette
    {
      assert Palettes[k].id == ids[k];
    }
  }

  /** The fill of a node at `depth`: `colors[d.depth % colors.length]`,
      always defined because no palette is empty. */
  function NodeFill(palette: string, depth: nat): (c: string)
    ensures c in ColorsByPalette(palette)
    ensures depth < 4 ==> c == ColorsByPalette(palette)[depth]
  {
    ColorAt(ColorsByPalette(palette), depth)
  }

  /** The fill is the catalog entry's colour for that depth, the entry the
      palette menu shows as current. */
  lemma NodeFillFromCatalog(palette: string, depth: nat)
    ensures NodeFill(palette, depth) == ColorAt(CurrentPalette(palette).value, depth)
  {
    PaletteTablesAgree(palette);
  }

  datatype Shape = Circle | Rect | Diamond

  /** `getNodeShape`: "rect" and "diamond" name themselves, every other
      style (including "standard") is drawn as a circle. */
  function NodeShape(style: string): (s: Shape)
    ensures s == Rect <==> style == "rect"
    ensures s == Diamond <==> style == "diamond"
    ensures s == Circle <==> style != "rect" && style != "diamond"
  {
    match style
    case "rect" => Rect
    case "diamond" => Diamond
    case _ => Circle
  }

  /** The three styles of the layout menu give three different shapes, and
      the menu's fallback style "standard" gives the circle. */
  lemma StyleMenuShapes()
    ensures forall i, j :: 0 <= i < j < |LayoutStyleSelector.LayoutStyles| ==>
      NodeShape(LayoutStyleSelector.LayoutStyles[i].id) != NodeShape(LayoutStyleSelector.LayoutStyles[j].id)
    ensures NodeShape(LayoutStyleSelector.CurrentStyle("").id) == Circle
  {
    assert LayoutStyleSelector.LayoutStyles[0].id == "standard";
  }

  /** Canvas and margins of the view. */
  const Width: real := 800.0
  const Height: real := 500.0
  const MarginTop: real := 50.0
  const MarginRight: real := 150.0
  const MarginBottom: real := 50.0
  const MarginLeft: real := 150.0

  /** The d3 layout chosen for a diagram type: a tidy tree or a cluster of
      the given size, or a radial tree over a full turn with the given
      radius. */
  datatype LayoutConfig =
    | TreeLayout(breadth: real, depth: real)
    | ClusterLayout(breadth: real, depth: real)
    | RadialTree(radius: real)

  function IsRadial(diagramType: string): bool
  {
    diagramType == "mind-map"
  }

  /** The layout `switch`: "mind-map" is the only radial type; org-chart
      and vertical-timeline lay the breadth along the canvas width;
      "catalog" uses a cluster; every other type, known or not, is a tree
      with the breadth along the canvas height. */
  function Layout(diagramType: string): (c: LayoutConfig)
    ensures c.RadialTree? <==> IsRadial(diagramType)
    ensures c.RadialTree? ==> c.radius == 500.0 / 3.0
    ensures c.ClusterLayout? <==> diagramType == "catalog"
    ensures diagramType == "org-chart" || diagramType == "vertical-timeline" ==> c == TreeLayout(500.0, 400.0)
    ensures !IsRadial(diagramType) && diagramType != "org-chart" && diagramType != "vertical-timeline" ==> c.breadth == 400.0 && c.depth == 500.0
  {
    var across := Height - MarginTop - MarginBottom;
    var along := Width - MarginRight - MarginLeft;
    match diagramType
    case "mind-map" => RadialTree((if Width < Height then Width else Height) / 3.0)
    case "org-chart" => TreeLayout(along, across)
    case "vertical-timeline" => TreeLayout(along, across)
    case "catalog" => ClusterLayout(across, along)
    case _ => TreeLayout(across, along)
  }

  /** Where the drawing group is moved when the diagram is rendered: the
      canvas centre for the radial map, the right margin for the
      right-to-left tree, the top-left margin otherwise. */
  function GroupOffset(diagramType: string): (p: Point)
    ensures IsRadial(diagramType) ==> p == Point(Width / 2.0, Height / 2.0)
    ensures !IsRadial(diagramType) ==> p.y == MarginTop
    ensures !IsRadial(diagramType) && diagramType != "logical-structure-left" ==> p.x == MarginLeft
    ensures diagramType == "logical-structure-left" ==> p.x == Width - MarginRight
  {
    if IsRadial(diagramType) then Point(Width / 2.0, Height / 2.0)
    else if diagramType == "logical-structure-left" then Point(Width - MarginRight, MarginTop)
    else if diagramType == "org-chart" || diagramType == "vertical-timeline" then Point(MarginLeft, MarginTop)
    else Point(MarginLeft, MarginTop)
  }

  /** The node transform: polar to Cartesian for the radial map, a mirrored
      swap for the right-to-left tree, d3's own axes for the vertical types,
      and a swap (breadth down, depth across) for everything else. */
  function NodePosition(diagramType: string, x: real, y: real, sinX: real, cosX: real): (p: Point)
    ensures IsRadial(diagramType) ==> p == Point(y * sinX, -y * cosX)
    ensures !IsRadial(diagramType) && diagramType == "logical-structure-left" ==> p == Point(-y, x)
    ensures !IsRadial(diagramType) && (diagramType == "org-chart" || diagramType == "vertical-timeline") ==> p == Point(x, y)
    ensures !IsRadial(diagramType) && diagramType != "logical-structure-left" && diagramType != "org-chart" && diagramType != "vertical-timeline" ==> p == Point(y, x)
  {
    if IsRadial(diagramType) then Point(y * sinX, -y * cosX)
    else if diagramType == "logical-structure-left" then Point(-y, x)
    else if diagramType == "org-chart" || diagramType == "vertical-timeline" then Point(x, y)
    else Point(y, x)
  }

  /** On the radial map a node lies at distance `y` from the root. */
  lemma RadialDistance(x: real, y: real, sinX: real, cosX: real)
    requires sinX * sinX + cosX * cosX == 1.0
    ensures var p := NodePosition("mind-map", x, y, sinX, cosX);
      p.x * p.x + p.y * p.y == y * y
  {
    var p := NodePosition("mind-map", x, y, sinX, cosX);
    calc {
      p.x * p.x + p.y * p.y;
      (y * sinX) * (y * sinX) + (y * cosX) * (y * cosX);
      y * y * (sinX * sinX + cosX * cosX);
      y * y;
    }
  }

  /** The right-to-left tree is the left-to-right tree mirrored in x. */
  lemma LeftTreeMirrors(x: real, y: real, s: real, c: real)
    ensures NodePosition("logical-structure-left", x, y, s, c) ==
      Point(-NodePosition("logical-structure", x, y, s, c).x, NodePosition("logical-structure", x, y, s, c).y)
  {
  }

  /** The end point the non-radial link generators read off a d3 node
      (`linkHorizontal`/`linkVertical` with their `.x`/`.y` accessors); the
      fishbone type draws its own path and is handled by `FishbonePath`. */
  function LinkEnd(diagramType: string, x: real, y: real): Point
  {
    match diagramType
    case "logical-structure" => Point(y, x)
    case "logical-structure-left" => Point(-y, x)
    case "org-chart" => Point(x, y)
    case "catalog" => Point(y, x)
    case "timeline" => Point(y, x)
    case "vertical-timeline" => Point(x, y)
    case _ => Point(y, x)
  }

  /** Links end exactly where the nodes are drawn, for every non-radial
      type; with the right-to-left tree the link is mirrored like its
      nodes. */
  lemma LinksMeetNodes(diagramType: string, x: real, y: real, s: real, c: real)
    requires !IsRadial(diagramType)
    ensures LinkEnd(diagramType, x, y) == NodePosition(diagramType, x, y, s, c)
  {
  }

  /** SVG path commands used by the fishbone links. */
  datatype PathCmd = MoveTo(x: real, y: real) | HorizontalTo(x: real) | VerticalTo(y: real)

  /** The fishbone link from a parent at d3 (sx, sy) to a child at (tx, ty):
      move to the parent, run across to half way, drop to the child's row,
      run across to the child. */
  function FishbonePath(sx: real, sy: real, tx: real, ty: real): (cmds: seq<PathCmd>)
    ensures |cmds| == 4 && cmds[0].MoveTo?
    ensures cmds[1].HorizontalTo? && cmds[2].VerticalTo? && cmds[3].HorizontalTo?
  {
    [MoveTo(sy, sx), HorizontalTo(sy + (ty - sy) / 2.0), VerticalTo(tx), HorizontalTo(ty)]
  }

  /** The points an SVG path passes through, from the current point `at`:
      a reference reading of the commands, independent of the fishbone
      rule. */
  function Trace(cmds: seq<PathCmd>, at: Point): (ps: seq<Point>)
    ensures |ps| == |cmds|
  {
    if |cmds| == 0 then []
    else
      var next := match cmds[0]
        case MoveTo(x, y) => Point(x, y)
        case HorizontalTo(x) => Point(x, at.y)
        case VerticalTo(y) => Point(at.x, y);
      [next] + Trace(cmds[1..], next)
  }

  /** The fishbone link starts where the parent is drawn, ends where the
      child is drawn, turns at the horizontal midpoint, and every segment
      is axis-parallel. */
  lemma FishboneConnects(sx: real, sy: real, tx: real, ty: real, s: real, c: real, at: Point)
    ensures var ps := Trace(FishbonePath(sx, sy, tx, ty), at);
      && ps[0] == NodePosition("fishbone", sx, sy, s, c)
      && ps[3] == NodePosition("fishbone", tx, ty, s, c)
      && ps[1].y == ps[0].y && ps[2].x == ps[1].x && ps[3].y == ps[2].y
      && 2.0 * ps[1].x == ps[0].x + ps[3].x
  {
    var cmds := FishbonePath(sx, sy, tx, ty);
    var mid := sy + (ty - sy) / 2.0;
    var p0 := Point(sy, sx);
    var p1 := Point(mid, sx);
    var p2 := Point(mid, tx);
    var p3 := Point(ty, tx);
    assert Trace(cmds[3..], p2) == [p3];
    assert Trace(cmds[2..], p1) == [p2, p3];
    assert Trace(cmds[1..], p0) == [p1, p2, p3];
    assert Trace(cmds, at) == [p0, p1, p2, p3];
  }

  datatype Anchor = Start | Middle | End

  datatype Label = Label(x: int, anchor: Anchor)

  /** The label of a node: its horizontal offset and text anchor.
      `hasChildren` is whether d3 gave the node children. */
  function NodeLabel(diagramType: string, shape: Shape, hasChildren: bool): (l: Label)
    ensures l.x < 0 <==> l.anchor == End
    ensures l.x == 0 <==> l.anchor == Middle
    ensures l.x > 0 <==> l.anchor == Start
    ensures diagramType == "logical-structure-left" ==> l.x == (if hasChildren then 8 else -8)
    ensures diagramType != "logical-structure-left" && shape == Rect ==> l == Label(0, Middle)
    ensures diagramType != "logical-structure-left" && shape != Rect ==> l.x == (if hasChildren then -8 else 8)
  {
    if diagramType == "logical-structure-left" then
      (if hasChildren then Label(8, Start) else Label(-8, End))
    else if shape == Rect then Label(0, Middle)
    else (if hasChildren then Label(-8, End) else Label(8, Start))
  }

  /** Inner nodes and leaves put their labels on opposite sides, and the
      right-to-left tree puts them on the side opposite to every other
      non-rectangular layout. */
  lemma LabelSides(diagramType: string, shape: Shape, hasChildren: bool)
    requires diagramType != "logical-structure-left"
    requires shape != Rect
    ensures NodeLabel(diagramType, shape, hasChildren).x == -NodeLabel(diagramType, shape, !hasChildren).x
    ensures NodeLabel("logical-structure-left", shape, hasChildren).x == -NodeLabel(diagramType, shape, hasChildren).x
  {
  }

  /** A translate-then-scale SVG transform. */
  datatype Transform = Transform(dx: real, dy: real, scale: real)

  function Apply(t: Transform, p: Point): Point
  {
    Point(t.dx + t.scale * p.x, t.dy + t.scale * p.y)
  }

  /** The group transform as the code leaves it: the pan/zoom effect
      replaces the transform set at render time with one built from pan
      and zoom only, so the per-type offset is lost. */
  function GroupTransformAsWritten(diagramType: string, pan: Point, zoom: real): (t: Transform)
    ensures Apply(t, Point(0.0, 0.0)) == pan
    ensures t.scale == zoom
  {
    Transform(pan.x, pan.y, zoom)
  }

  /** As written, the transform is the same for every diagram type. */
  lemma AsWrittenIgnoresType(t1: string, t2: string, pan: Point, zoom: real)
    ensures GroupTransformAsWritten(t1, pan, zoom) == GroupTransformAsWritten(t2, pan, zoom)
  {
  }

  /** The radial map as written is centred on the canvas's top-left corner:
      its root (d3 depth 0 has `y == 0`) is drawn at (0, 0), not at the
      centre (400, 250) that the render step aims for. */
  lemma RadialRootAtCornerAsWritten(x: real, s: real, c: real)
    ensures Apply(GroupTransformAsWritten("mind-map", Point(0.0, 0.0), 1.0), NodePosition("mind-map", x, 0.0, s, c)) == Point(0.0, 0.0)
    ensures GroupOffset("mind-map") == Point(400.0, 250.0)
  {
    var p := NodePosition("mind-map", x, 0.0, s, c);
    assert p == Point(0.0 * s, -0.0 * c);
    assert p == Point(0.0, 0.0);
  }

  /** The intended group transform: the per-type offset plus the pan, then
      the zoom, as the horizontal view composes them. */
  function GroupTransform(diagramType: string, pan: Point, zoom: real): (t: Transform)
    ensures pan == Point(0.0, 0.0) ==> Point(t.dx, t.dy) == GroupOffset(diagramType)
    ensures t.scale == zoom
  {
    var o := GroupOffset(diagramType);
    Transform(o.x + pan.x, o.y + pan.y, zoom)
  }

  /** Where a node lands on the 800 x 500 canvas. */
  function CanvasPosition(diagramType: string, pan: Point, zoom: real, x: real, y: real, s: real, c: real): Point
  {
    Apply(GroupTransform(diagramType, pan, zoom), NodePosition(diagramType, x, y, s, c))
  }

  /** With the intended transform, at rest (no pan, zoom 1): the radial root
      is at the canvas centre, and every node a tree layout places inside
      its layout size lies inside the canvas margins. */
  lemma PlacementAtRest(diagramType: string, x: real, y: real, s: real, c: real)
    requires !IsRadial(diagramType)
    requires 0.0 <= x <= Layout(diagramType).breadth && 0.0 <= y <= Layout(diagramType).depth
    ensures var p := CanvasPosition(diagramType, Point(0.0, 0.0), 1.0, x, y, s, c);
      MarginLeft <= p.x <= Width - MarginRight && MarginTop <= p.y <= Height - MarginBottom
    ensures CanvasPosition("mind-map", Point(0.0, 0.0), 1.0, x, 0.0, s, c) == Point(Width / 2.0, Height / 2.0)
  {
  }
}
