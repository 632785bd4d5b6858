/** The prompt form: the guard on the generate button, the root title
    derived from the prompt, and the placeholder tree the form shows once
    its simulated processing delay has passed. */
module MindMapGenerator {
  import opened Util
  import opened Tree

  /** The characters `String.prototype.trim` removes: white space and line
      terminators. */
  predicate IsWhitespace(c: char)
  {
    c == ' ' || c == '\t' || c == '\n' || c == '\r' || c == '\U{000B}' || c == '\U{000C}'
    || c == '\U{00A0}' || c == '\U{1680}' || ('\U{2000}' <= c <= '\U{200A}')
    || c == '\U{2028}' || c == '\U{2029}' || c == '\U{202F}' || c == '\U{205F}'
    || c == '\U{3000}' || c == '\U{FEFF}'
  }

  /** Drops leading white space. */
  function TrimStart(s: string): (r: string)
    ensures |r| <= |s| && r == s[|s| - |r|..]
    ensures r == [] || !IsWhitespace(r[0])
    ensures forall i :: 0 <= i < |s| - |r| ==> IsWhitespace(s[i])
  {
    if s == [] || !IsWhitespace(s[0]) then s else TrimStart(s[1..])
  }

  /** Drops trailing white space. */
  function TrimEnd(s: string): (r: string)
    ensures r <= s
    ensures r == [] || !IsWhitespace(r[|r| - 1])
    ensures forall i :: |r| <= i < |s| ==> IsWhitespace(s[i])
  {
    if s == [] || !IsWhitespace(s[|s| - 1]) then s else TrimEnd(s[..|s| - 1])
  }

  /** `s.trim()`. */
  function Trim(s: string): string
  {
    TrimEnd(TrimStart(s))
  }

  predicate Blank(s: string)
  {
    forall i :: 0 <= i < |s| ==> IsWhitespace(s[i])
  }

  /** The trimmed prompt is empty exactly when the prompt is all white
      space (the empty prompt included). */
  lemma TrimEmptyIffBlank(s: string)
    ensures Trim(s) == [] <==> Blank(s)
  {
    var t := TrimStart(s);
    var cut := |s| - |t|;
    if Trim(s) == [] {
      assert t == [];
    } else {
      assert t != [] && s[cut] == t[0];
    }
  }

  /** The root title: `input.split(" ").slice(0, 3).join(" ")`. */
  function RootName(input: string): (r: string)
    ensures r == PrefixBeforeSpace(input, 3)
    ensures r <= input
    ensures CountSpaces(r) < 3
    ensures CountSpaces(input) < 3 ==> r == input
  {
    JoinTakeSplit(input, 3);
    Join(Take(Split(input), 3))
  }

  /** The tree shown after a generation: the derived title at the root,
      three topics, two subtopics each. */
  function Placeholder(input: string): (t: Node)
    ensures t.id == "root" && t.name == RootName(input)
    ensures |t.children| == 3
    ensures forall k :: 0 <= k < 3 ==> |t.children[k].children| == 2
  {
    Node("root", RootName(input), [
      Node("1", "Tópico 1", [Leaf("1-1", "Subtópico 1.1"), Leaf("1-2", "Subtópico 1.2")]),
      Node("2", "Tópico 2", [Leaf("2-1", "Subtópico 2.1"), Leaf("2-2", "Subtópico 2.2")]),
      Node("3", "Tópico 3", [Leaf("3-1", "Subtópico 3.1"), Leaf("3-2", "Subtópico 3.2")])
    ])
  }

  lemma IdsOfLeaf(id: string, name: string)
    ensures Ids(Leaf(id, name)) == [id]
  {
  }

  lemma IdsOfTopic(n: Node)
    requires |n.children| == 2 && n.children[0].children == [] && n.children[1].children == []
    ensures Ids(n) == [n.id, n.children[0].id, n.children[1].id]
  {
    var a, b := n.children[0], n.children[1];
    var parts := seq(|n.children|, i requires 0 <= i < |n.children| => Ids(n.children[i]));
    assert Ids(n) == [n.id] + Concat(parts);
    IdsOfLeaf(a.id, a.name);
    IdsOfLeaf(b.id, b.name);
    assert a == Leaf(a.id, a.name) && b == Leaf(b.id, b.name);
    assert parts == [[a.id], [b.id]];
    assert Concat(parts) == [a.id] + Concat(parts[1..]);
    assert Concat(parts[1..]) == [b.id] + Concat(parts[2..]);
  }

  /** The placeholder's ids, in pre-order, and they are all different. */
  lemma PlaceholderIds(input: string)
    ensures Ids(Placeholder(input)) == ["root", "1", "1-1", "1-2", "2", "2-1", "2-2", "3", "3-1", "3-2"]
    ensures DistinctIds(Placeholder(input))
  {
    var n := Placeholder(input);
    var parts := seq(|n.children|, i requires 0 <= i < |n.children| => Ids(n.children[i]));
    IdsOfTopic(n.children[0]);
    IdsOfTopic(n.children[1]);
    IdsOfTopic(n.children[2]);
    assert Ids(n) == [n.id] + Concat(parts);
    assert parts == [["1", "1-1", "1-2"], ["2", "2-1", "2-2"], ["3", "3-1", "3-2"]];
    assert Concat(parts) == parts[0] + Concat(parts[1..]);
    assert Concat(parts[1..]) == parts[1] + Concat(parts[2..]);
    assert Concat(parts[2..]) == parts[2] + Concat(parts[3..]);
  }

  /** The form's state. `pending` holds, in firing order, the prompts
      captured by the delayed callbacks scheduled so far. */
  class Generator {
    var inputText: string
    var isGenerating: bool
    var data: Option<Node>
    var pending: seq<string>

    constructor ()
      ensures inputText == "" && !isGenerating && data == None && pending == []
    {
      inputText, isGenerating, data, pending := "", false, None, [];
    }

    /** Typing in the text area. */
    method SetInput(text: string)
      modifies this
      ensures inputText == text
      ensures isGenerating == old(isGenerating) && data == old(data) && pending == old(pending)
    {
      inputText := text;
    }

    /** Whether the generate button can be pressed. */
    function CanGenerate(): (b: bool)
      reads this
      ensures b <==> !Blank(inputText) && !isGenerating
    {
      TrimEmptyIffBlank(inputText);
      Trim(inputText) != [] && !isGenerating
    }

    /** `handleGenerate`: a blank prompt does nothing; otherwise the form
        starts generating and schedules a callback that will use the
        prompt as it is now. */
    method HandleGenerate()
      modifies this
      ensures Blank(old(inputText)) ==> isGenerating == old(isGenerating) && data == old(data) && pending == old(pending)
      ensures !Blank(old(inputText)) ==> isGenerating && data == old(data) && pending == old(pending) + [old(inputText)]
      ensures inputText == old(inputText)
    {
      TrimEmptyIffBlank(inputText);
      if Trim(inputText) == [] {
        return;
      }
      isGenerating := true;
      pending := pending + [inputText];
    }

    /** The earliest scheduled callback runs: it shows the placeholder tree
        for its prompt and ends the generation. */
    method TimerFires()
      requires |pending| > 0
      modifies this
      ensures data == Some(Placeholder(old(pending[0])))
      ensures !isGenerating
      ensures pending == old(pending[1..]) && inputText == old(inputText)
    {
      data := Some(Placeholder(pending[0]));
      isGenerating := false;
      pending := pending[1..];
    }
  }

  /** Pressing generate with a non-blank prompt and letting the delay pass
      shows the placeholder titled after that prompt. */
  method GenerateAndWait(g: Generator)
    requires g.pending == [] && !Blank(g.inputText)
    modifies g
    ensures g.data == Some(Placeholder(old(g.inputText)))
    ensures !g.isGenerating && g.pending == []
  {
    g.HandleGenerate();
    g.TimerFires();
  }
}
