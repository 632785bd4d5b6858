/** How one outline row is decorated from its depth: the number of heading
    marks, the marks themselves, and the colour. */
module MarkdownNode {
  import opened Util
  import opened PaletteSelector

  /** `Math.min(depth + 1, 6)`. */
  function HeadingLevel(depth: nat): (r: nat)
    ensures 1 <= r <= 6
    ensures depth < 5 ==> r == depth + 1
    ensures depth >= 5 ==> r == 6
  {
    if depth + 1 < 6 then depth + 1 else 6
  }

  /** `"#".repeat(headingLevel)`. */
  function HeadingSymbol(depth: nat): (r: string)
    ensures |r| == HeadingLevel(depth)
    ensures forall i :: 0 <= i < |r| ==> r[i] == '#'
  {
    Repeat('#', HeadingLevel(depth))
  }

  /** Deeper rows never get fewer marks, and from depth 5 on all get six. */
  lemma HeadingMonotone(d1: nat, d2: nat)
    requires d1 <= d2
    ensures HeadingLevel(d1) <= HeadingLevel(d2)
    ensures d1 >= 5 ==> HeadingLevel(d1) == HeadingLevel(d2)
  {
  }

  /** The decoration of a row at `depth` drawn with palette `colors`. */
  datatype Decoration = Decoration(symbol: string, color: string)

  function Decorate(depth: nat, colors: Colors): (d: Decoration)
    requires |colors| > 0
    ensures d.symbol == HeadingSymbol(depth) && 1 <= |d.symbol| <= 6
    ensures d.color == ColorAt(colors, depth) && d.color in colors
    ensures d.color == ColorAt(colors, depth + |colors|)
  {
    ColorPeriodic(colors, depth);
    Decoration(HeadingSymbol(depth), ColorAt(colors, depth))
  }
}
