/** The flow-chart node component: on which sides its two connection
    handles sit for a diagram type, and how it draws itself for a shape
    name. */
module MindMapNode {
  import opened Util
  import MindMap

  datatype Side = Left | Right | Top | Bottom

  function Opposite(s: Side): Side
  {
    match s
    case Left => Right
    case Right => Left
    case Top => Bottom
    case Bottom => Top
  }

  /** `getSourcePosition`: where outgoing edges leave the node. */
  function SourceSide(diagramType: string): (s: Side)
    ensures s == Left <==> diagramType == "logical-structure-left"
    ensures s == Bottom <==> diagramType == "org-chart" || diagramType == "vertical-timeline"
    ensures s != Top
  {
    match diagramType
    case "logical-structure-left" => Left
    case "org-chart" => Bottom
    case "vertical-timeline" => Bottom
    case _ => Right
  }

  /** `getTargetPosition`: where incoming edges arrive. */
  function TargetSide(diagramType: string): (s: Side)
    ensures s == Right <==> diagramType == "logical-structure-left"
    ensures s == Top <==> diagramType == "org-chart" || diagramType == "vertical-timeline"
    ensures s != Bottom
  {
    match diagramType
    case "logical-structure-left" => Right
    case "org-chart" => Top
    case "vertical-timeline" => Top
    case _ => Left
  }

  /** For every diagram type the two handles face each other. */
  lemma HandlesOpposite(diagramType: string)
    ensures TargetSide(diagramType) == Opposite(SourceSide(diagramType))
  {
  }

  /** The handles agree with the diagram view's orientation: when d3 puts a
      child deeper than its parent (a larger `y`), the diagram view draws
      the child on the side of the parent where the source handle is (SVG
      y grows downwards). */
  lemma HandlesFaceChildren(diagramType: string, x1: real, y1: real, x2: real, y2: real, s: real, c: real)
    requires !MindMap.IsRadial(diagramType) && y1 < y2
    requires diagramType == "org-chart" || diagramType == "vertical-timeline" || x1 == x2
    ensures var parent := MindMap.NodePosition(diagramType, x1, y1, s, c);
      var child := MindMap.NodePosition(diagramType, x2, y2, s, c);
      match SourceSide(diagramType)
      case Left => child.x < parent.x && child.y == parent.y
      case Right => child.x > parent.x && child.y == parent.y
      case Bottom => child.y > parent.y
      case Top => false
  {
  }

  /** The first character of the first space-separated field of `text`
      (`label.split(" ")[0]?.charAt(0) || ""`). */
  function Initial(text: string): (r: string)
    ensures r == "" <==> text == "" || text[0] == ' '
    ensures r != "" ==> r == [text[0]]
  {
    JoinTakeSplit(text, 1);
    var first := Split(text)[0];
    assert Join(Take(Split(text), 1)) == first;
    if |first| == 0 then "" else [first[0]]
  }

  /** What the component draws: a rounded box or a diamond with the text
      inside, or a small circle showing the initial with the text below. */
  datatype NodeView =
    | RectBox(text: string, color: string)
    | DiamondBox(text: string, color: string)
    | CircleBadge(initial: string, text: string, color: string)

  /** `renderNodeShape`: "rect" and "diamond" name themselves; any other
      shape name is drawn as a circle. */
  function RenderNodeShape(shape: string, color: string, text: string): (v: NodeView)
    ensures v.text == text && v.color == color
    ensures v.RectBox? <==> shape == "rect"
    ensures v.DiamondBox? <==> shape == "diamond"
    ensures v.CircleBadge? ==> v.initial == Initial(text)
  {
    match shape
    case "rect" => RectBox(text, color)
    case "diamond" => DiamondBox(text, color)
    case _ => CircleBadge(Initial(text), text, color)
  }

  function ShapeOf(v: NodeView): MindMap.Shape
  {
    match v
    case RectBox(_, _) => MindMap.Rect
    case DiamondBox(_, _) => MindMap.Diamond
    case CircleBadge(_, _, _) => MindMap.Circle
  }

  /** The component draws the same shape the diagram view picks for the
      same style name. */
  lemma ShapesAgree(style: string, color: string, text: string)
    ensures ShapeOf(RenderNodeShape(style, color, text)) == MindMap.NodeShape(style)
  {
  }
}
