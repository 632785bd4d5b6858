/** The tree-to-heading-outline serialisers. Two variants exist: the
    exporters of the horizontal view and of the outline view cap the number
    of `#` marks at six; the markmap viewer's converter does not. */
module OutlineExport {
  import opened Util
  import opened Tree
  import MarkdownNode

  datatype HeadingRule = Capped | Uncapped

  /** Number of `#` marks for a 1-based level. */
  function Marks(rule: HeadingRule, level: nat): (r: nat)
    ensures rule == Capped ==> r <= 6
    ensures r <= level
    ensures rule == Uncapped || level <= 6 ==> r == level
  {
    if rule == Capped && level > 6 then 6 else level
  }

  /** One block of the output: marks, a space, the name, a blank line. */
  function Block(rule: HeadingRule, level: nat, name: string): string
  {
    Repeat('#', Marks(rule, level)) + " " + name + "\n\n"
  }

  /** `generateMarkdown(node, level)`: the node's block, then each child's
      output at `level + 1`, in child order. */
  function GenerateMarkdown(n: Node, level: nat): string
  {
    Block(Capped, level, n.name)
      + Concat(seq(|n.children|, i requires 0 <= i < |n.children| => GenerateMarkdown(n.children[i], level + 1)))
  }

  /** `convertToMarkdown(node, level)`: `None` stands for a null or
      undefined node; `level` is 0-based and gets `level + 1` marks. */
  function ConvertToMarkdown(n: Option<Node>, level: nat): (r: string)
    ensures n.None? ==> r == ""
  {
    match n
    case None => ""
    case Some(t) => ConvertNode(t, level)
  }

  function ConvertNode(t: Node, level: nat): string
  {
    Block(Uncapped, level + 1, t.name)
      + Concat(seq(|t.children|, i requires 0 <= i < |t.children| => ConvertNode(t.children[i], level + 1)))
  }

  /** The output described by a list of pre-order entries: one block each. */
  function Render(rule: HeadingRule, es: seq<Entry>): string
  {
    if |es| == 0 then "" else Block(rule, es[0].level, es[0].name) + Render(rule, es[1..])
  }

  lemma {:induction false} RenderAppend(rule: HeadingRule, a: seq<Entry>, b: seq<Entry>)
    ensures Render(rule, a + b) == Render(rule, a) + Render(rule, b)
  {
    if |a| == 0 {
      assert a + b == b;
    } else {
      assert (a + b)[1..] == a[1..] + b;
      RenderAppend(rule, a[1..], b);
    }
  }

  lemma {:induction false} RenderConcat(rule: HeadingRule, xs: seq<seq<Entry>>)
    ensures Render(rule, Concat(xs)) == Concat(seq(|xs|, i requires 0 <= i < |xs| => Render(rule, xs[i])))
  {
    var rs := seq(|xs|, i requires 0 <= i < |xs| => Render(rule, xs[i]));
    if |xs| > 0 {
      RenderAppend(rule, xs[0], Concat(xs[1..]));
      RenderConcat(rule, xs[1..]);
      assert rs[1..] == seq(|xs[1..]|, i requires 0 <= i < |xs[1..]| => Render(rule, xs[1..][i]));
    }
  }

  /** The capped exporter emits exactly one block per node, in pre-order,
      root at `level`. */
  lemma {:induction false} GenerateIsPreorder(n: Node, level: nat)
    ensures GenerateMarkdown(n, level) == Render(Capped, Preorder(n, level))
  {
    var parts := seq(|n.children|, i requires 0 <= i < |n.children| => Preorder(n.children[i], level + 1));
    var outs := seq(|n.children|, i requires 0 <= i < |n.children| => GenerateMarkdown(n.children[i], level + 1));
    forall i | 0 <= i < |n.children|
      ensures outs[i] == Render(Capped, parts[i])
    {
      GenerateIsPreorder(n.children[i], level + 1);
    }
    RenderConcat(Capped, parts);
    assert outs == seq(|parts|, i requires 0 <= i < |parts| => Render(Capped, parts[i]));
    assert Preorder(n, level) == [Entry(level, n.name)] + Concat(parts);
    RenderAppend(Capped, [Entry(level, n.name)], Concat(parts));
  }

  /** The uncapped converter emits exactly one block per node, in pre-order,
      root with `level + 1` marks. */
  lemma {:induction false} ConvertIsPreorder(t: Node, level: nat)
    ensures ConvertNode(t, level) == Render(Uncapped, Preorder(t, level + 1))
  {
    var parts := seq(|t.children|, i requires 0 <= i < |t.children| => Preorder(t.children[i], level + 1 + 1));
    var outs := seq(|t.children|, i requires 0 <= i < |t.children| => ConvertNode(t.children[i], level + 1));
    forall i | 0 <= i < |t.children|
      ensures outs[i] == Render(Uncapped, parts[i])
    {
      ConvertIsPreorder(t.children[i], level + 1);
    }
    RenderConcat(Uncapped, parts);
    assert outs == seq(|parts|, i requires 0 <= i < |parts| => Render(Uncapped, parts[i]));
    assert Preorder(t, level + 1) == [Entry(level + 1, t.name)] + Concat(parts);
    RenderAppend(Uncapped, [Entry(level + 1, t.name)], Concat(parts));
  }

  /** A leaf gives exactly its own block. */
  lemma LeafBlock(t: Node, level: nat)
    requires t.children == []
    ensures ConvertToMarkdown(Some(t), level) == Repeat('#', level + 1) + " " + t.name + "\n\n"
    ensures GenerateMarkdown(t, level + 1) == Block(Capped, level + 1, t.name)
  {
  }

  /** The two rules agree on entry lists whose levels are at most six. */
  lemma {:induction false} RenderRulesAgree(es: seq<Entry>)
    requires forall e :: e in es ==> e.level <= 6
    ensures Render(Capped, es) == Render(Uncapped, es)
  {
    if |es| > 0 {
      assert es[0] in es;
      RenderRulesAgree(es[1..]);
    }
  }

  /** For trees of at most six levels (depth at most five) the markmap
      converter and the capped exporter produce the same text. */
  lemma ExportsAgreeOnShallowTrees(t: Node)
    requires Height(t) <= 6
    ensures ConvertToMarkdown(Some(t), 0) == GenerateMarkdown(t, 1)
  {
    ConvertIsPreorder(t, 0);
    GenerateIsPreorder(t, 1);
    PreorderLevels(t, 1);
    RenderRulesAgree(Preorder(t, 1));
  }

  /** The exported outline has one block per node. */
  lemma BlockCount(t: Node)
    ensures GenerateMarkdown(t, 1) == Render(Capped, Preorder(t, 1))
    ensures |Preorder(t, 1)| == Size(t)
  {
    GenerateIsPreorder(t, 1);
    PreorderSize(t, 1);
  }

  /** The marks exported for a node at depth `d` (level `d + 1`) are the
      marks the outline view shows for that depth. */
  lemma ExportMatchesView(d: nat)
    ensures Repeat('#', Marks(Capped, d + 1)) == MarkdownNode.HeadingSymbol(d)
  {
  }

  lemma PreorderOneChild(id: string, name: string, c: Node, level: nat)
    ensures Preorder(Node(id, name, [c]), level) == [Entry(level, name)] + Preorder(c, level + 1)
  {
    var n := Node(id, name, [c]);
    var parts := seq(|n.children|, i requires 0 <= i < |n.children| => Preorder(n.children[i], level + 1));
    assert Preorder(n, level) == [Entry(level, n.name)] + Concat(parts);
    assert parts == [Preorder(c, level + 1)];
    assert Concat(parts) == Preorder(c, level + 1) + Concat(parts[1..]);
  }

  lemma PreorderLeaf(a: Node, level: nat)
    requires a.children == []
    ensures Preorder(a, level) == [Entry(level, a.name)]
  {
  }

  lemma PreorderTwoLeaves(id: string, name: string, a: Node, b: Node, level: nat)
    requires a.children == [] && b.children == []
    ensures Preorder(Node(id, name, [a, b]), level) == [Entry(level, name), Entry(level + 1, a.name), Entry(level + 1, b.name)]
  {
    var n := Node(id, name, [a, b]);
    var parts := seq(|n.children|, i requires 0 <= i < |n.children| => Preorder(n.children[i], level + 1));
    assert Preorder(n, level) == [Entry(level, n.name)] + Concat(parts);
    PreorderLeaf(a, level + 1);
    PreorderLeaf(b, level + 1);
    assert parts == [[Entry(level + 1, a.name)], [Entry(level + 1, b.name)]];
    assert Concat(parts) == [Entry(level + 1, a.name)] + Concat(parts[1..]);
    assert Concat(parts[1..]) == [Entry(level + 1, b.name)] + Concat(parts[2..]);
  }

  /** A chain of seven nodes, A to G. */
  function DeepChain(): Node
  {
    Node("a", "A", [Node("b", "B", [Node("c", "C", [Node("d", "D", [Node("e", "E", [Node("f", "F", [Leaf("g", "G")])])])])])])
  }

  /** A chain A to E whose last node has the leaves F and G. */
  function WideChain(): Node
  {
    Node("a", "A", [Node("b", "B", [Node("c", "C", [Node("d", "D", [Node("e", "E", [Leaf("f", "F"), Leaf("g", "G")])])])])])
  }

  /** Because of the cap, different trees can export the same text, so no
      parser can invert the capped exporter. */
  lemma CappedExportNotInjective()
    ensures DeepChain() != WideChain()
    ensures GenerateMarkdown(DeepChain(), 1) == GenerateMarkdown(WideChain(), 1)
  {
    var g, f := Leaf("g", "G"), Leaf("f", "F");
    var f' := Node("f", "F", [g]);
    var e1, e2 := Node("e", "E", [f']), Node("e", "E", [f, g]);
    var d1, d2 := Node("d", "D", [e1]), Node("d", "D", [e2]);
    var c1, c2 := Node("c", "C", [d1]), Node("c", "C", [d2]);
    var b1, b2 := Node("b", "B", [c1]), Node("b", "B", [c2]);
    var deep, wide := Node("a", "A", [b1]), Node("a", "A", [b2]);
    assert deep == DeepChain() && wide == WideChain();
    PreorderLeaf(g, 7);
    PreorderOneChild("f", "F", g, 6);
    PreorderOneChild("e", "E", f', 5);
    PreorderOneChild("d", "D", e1, 4);
    PreorderOneChild("c", "C", d1, 3);
    PreorderOneChild("b", "B", c1, 2);
    PreorderOneChild("a", "A", b1, 1);
    PreorderTwoLeaves("e", "E", f, g, 5);
    PreorderOneChild("d", "D", e2, 4);
    PreorderOneChild("c", "C", d2, 3);
    PreorderOneChild("b", "B", c2, 2);
    PreorderOneChild("a", "A", b2, 1);
    var prefix := [Entry(1, "A"), Entry(2, "B"), Entry(3, "C"), Entry(4, "D"), Entry(5, "E"), Entry(6, "F")];
    assert Preorder(deep, 1) == prefix + [Entry(7, "G")];
    assert Preorder(wide, 1) == prefix + [Entry(6, "G")];
    GenerateIsPreorder(deep, 1);
    GenerateIsPreorder(wide, 1);
    RenderAppend(Capped, prefix, [Entry(7, "G")]);
    RenderAppend(Capped, prefix, [Entry(6, "G")]);
    assert Render(Capped, [Entry(7, "G")]) == Render(Capped, [Entry(6, "G")]);
    assert e1 != e2 by {
      assert |e1.children| != |e2.children|;
    }
  }
}
