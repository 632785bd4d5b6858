/** The mind-map tree shared by every view: a node has an id, a display name
    and an ordered list of children; a node whose `children` field is absent
    is modelled with the empty list. */
module Tree {
  import opened Util

  datatype Option<T> = None | Some(value: T)

  datatype Node = Node(id: string, name: string, children: seq<Node>)

  function Leaf(id: string, name: string): Node
  {
    Node(id, name, [])
  }

  /** Number of nodes in the tree. */
  function Size(n: Node): (r: nat)
    ensures r >= 1
  {
    1 + Sum(seq(|n.children|, i requires 0 <= i < |n.children| => Size(n.children[i])))
  }

  function MaxOf(xs: seq<nat>): (r: nat)
    ensures forall i :: 0 <= i < |xs| ==> xs[i] <= r
  {
    if |xs| == 0 then 0
    else
      var m := MaxOf(xs[1..]);
      assert forall i :: 1 <= i < |xs| ==> xs[i] == xs[1..][i - 1];
      if xs[0] < m then m else xs[0]
  }

  /** Number of levels: a leaf has height 1. */
  function Height(n: Node): (r: nat)
    ensures r >= 1
  {
    1 + MaxOf(seq(|n.children|, i requires 0 <= i < |n.children| => Height(n.children[i])))
  }

  /** One line of a pre-order walk: the node's 1-based heading level and its name. */
  datatype Entry = Entry(level: nat, name: string)

  /** Pre-order walk: the node itself at `level`, then each child's walk at
      `level + 1`, children in their given order. */
  function Preorder(n: Node, level: nat): seq<Entry>
  {
    [Entry(level, n.name)] + Concat(seq(|n.children|, i requires 0 <= i < |n.children| => Preorder(n.children[i], level + 1)))
  }

  /** The walk lists every node once. */
  lemma {:induction false} PreorderSize(n: Node, level: nat)
    ensures |Preorder(n, level)| == Size(n)
  {
    var cs := n.children;
    var parts := seq(|n.children|, i requires 0 <= i < |n.children| => Preorder(n.children[i], level + 1));
    var sizes := seq(|n.children|, i requires 0 <= i < |n.children| => Size(n.children[i]));
    forall i | 0 <= i < |cs| ensures |parts[i]| == sizes[i] {
      PreorderSize(cs[i], level + 1);
    }
    ConcatLength(parts, sizes);
    assert Preorder(n, level) == [Entry(level, n.name)] + Concat(parts);
    assert Size(n) == 1 + Sum(sizes);
  }

  /** Levels in the walk start at `level` and grow by at most `Height(n) - 1`. */
  lemma {:induction false} PreorderLevels(n: Node, level: nat)
    ensures Preorder(n, level)[0] == Entry(level, n.name)
    ensures forall e :: e in Preorder(n, level) ==> level <= e.level <= level + Height(n) - 1
  {
    var cs := n.children;
    var parts := seq(|n.children|, i requires 0 <= i < |n.children| => Preorder(n.children[i], level + 1));
    var hs := seq(|n.children|, i requires 0 <= i < |n.children| => Height(n.children[i]));
    assert Preorder(n, level) == [Entry(level, n.name)] + Concat(parts);
    assert Height(n) == 1 + MaxOf(hs);
    forall e | e in Preorder(n, level)
      ensures level <= e.level <= level + Height(n) - 1
    {
      if e != Entry(level, n.name) {
        assert e in Concat(parts);
        ConcatMember(parts, e);
        var i :| 0 <= i < |parts| && e in parts[i];
        PreorderLevels(cs[i], level + 1);
        assert hs[i] <= MaxOf(hs);
      }
    }
  }

  /** Ids of the tree in pre-order. */
  function Ids(n: Node): seq<string>
  {
    [n.id] + Concat(seq(|n.children|, i requires 0 <= i < |n.children| => Ids(n.children[i])))
  }

  predicate DistinctIds(n: Node)
  {
    var ids := Ids(n);
    forall i, j :: 0 <= i < j < |ids| ==> ids[i] != ids[j]
  }

  /** The subtree reached by following child indices from `n`. */
  function Subtree(n: Node, path: seq<nat>): Option<Node>
    decreases |path|
  {
    if path == [] then Some(n)
    else if path[0] < |n.children| then Subtree(n.children[path[0]], path[1..])
    else None
  }
}
