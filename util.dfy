/** Sequence and string helpers that the JavaScript built-ins of the source
    stand for: `Array.prototype.join`, `String.prototype.split(" ")`,
    `String.prototype.repeat`, and concatenation folds written with `+=`. */
module Util {

  /** Concatenation of a sequence of sequences, in order. */
  function Concat<T>(xs: seq<seq<T>>): seq<T>
  {
    if |xs| == 0 then [] else xs[0] + Concat(xs[1..])
  }

  /** Sum of a sequence of naturals. */
  function Sum(xs: seq<nat>): nat
  {
    if |xs| == 0 then 0 else xs[0] + Sum(xs[1..])
  }

  /** Concatenating one-element sequences gives back their elements. */
  lemma {:induction false} ConcatSingletons<T>(xs: seq<seq<T>>, ys: seq<T>)
    requires |xs| == |ys|
    requires forall i :: 0 <= i < |xs| ==> xs[i] == [ys[i]]
    ensures Concat(xs) == ys
  {
    if |xs| > 0 {
      ConcatSingletons(xs[1..], ys[1..]);
      assert ys == [ys[0]] + ys[1..];
    }
  }

  lemma ConcatOne<T>(x: seq<T>)
    ensures Concat([x]) == x
  {
    assert [x][1..] == [];
  }

  lemma {:induction false} ConcatAppend<T>(xs: seq<seq<T>>, ys: seq<seq<T>>)
    ensures Concat(xs + ys) == Concat(xs) + Concat(ys)
  {
    if |xs| == 0 {
      assert xs + ys == ys;
    } else {
      assert (xs + ys)[1..] == xs[1..] + ys;
      ConcatAppend(xs[1..], ys);
    }
  }

  /** An element is in the concatenation exactly when it is in one of the parts. */
  lemma {:induction false} ConcatMember<T>(xs: seq<seq<T>>, x: T)
    ensures x in Concat(xs) <==> exists i :: 0 <= i < |xs| && x in xs[i]
  {
    if |xs| > 0 {
      ConcatMember(xs[1..], x);
      if x in Concat(xs[1..]) {
        var i :| 0 <= i < |xs[1..]| && x in xs[1..][i];
        assert x in xs[i + 1];
      }
      if exists i :: 0 <= i < |xs| && x in xs[i] {
        var i :| 0 <= i < |xs| && x in xs[i];
        if i > 0 {
          assert x in xs[1..][i - 1];
        }
      }
    }
  }

  /** The length of a concatenation is the sum of the parts' lengths. */
  lemma {:induction false} ConcatLength<T>(xs: seq<seq<T>>, lens: seq<nat>)
    requires |lens| == |xs|
    requires forall i :: 0 <= i < |xs| ==> |xs[i]| == lens[i]
    ensures |Concat(xs)| == Sum(lens)
  {
    if |xs| > 0 {
      ConcatLength(xs[1..], lens[1..]);
    }
  }

  /** `"#".repeat(n)`: exactly `n` copies of `c`. */
  function Repeat(c: char, n: nat): (r: string)
    ensures |r| == n
    ensures forall i :: 0 <= i < n ==> r[i] == c
  {
    if n == 0 then [] else [c] + Repeat(c, n - 1)
  }

  /** `s.split(" ")`: the fields between single spaces, never an empty list. */
  function Split(s: string): (r: seq<string>)
    ensures |r| >= 1
    ensures forall i :: 0 <= i < |r| ==> ' ' !in r[i]
  {
    if s == [] then [[]]
    else
      var rest := Split(s[1..]);
      if s[0] == ' ' then [[]] + rest
      else [[s[0]] + rest[0]] + rest[1..]
  }

  /** `parts.join(" ")`. */
  function Join(parts: seq<string>): string
  {
    if |parts| == 0 then []
    else if |parts| == 1 then parts[0]
    else parts[0] + " " + Join(parts[1..])
  }

  /** `parts.slice(0, k)`. */
  function Take<T>(parts: seq<T>, k: nat): (r: seq<T>)
    ensures |r| == if k < |parts| then k else |parts|
    ensures r <= parts
  {
    parts[..if k < |parts| then k else |parts|]
  }

  function CountSpaces(s: string): nat
  {
    if s == [] then 0 else (if s[0] == ' ' then 1 else 0) + CountSpaces(s[1..])
  }

  /** The prefix of `s` that stops just before its `k`-th space (all of `s`
      when it has fewer than `k` spaces). */
  function PrefixBeforeSpace(s: string, k: nat): (r: string)
    requires k >= 1
    ensures r <= s
    ensures CountSpaces(r) < k
    ensures CountSpaces(s) < k ==> r == s
  {
    if s == [] then []
    else if s[0] == ' ' then (if k == 1 then [] else " " + PrefixBeforeSpace(s[1..], k - 1))
    else [s[0]] + PrefixBeforeSpace(s[1..], k)
  }

  /** Splitting on spaces and joining with spaces gives back the input. */
  lemma {:induction false} JoinSplit(s: string)
    ensures Join(Split(s)) == s
  {
    if s != [] {
      var rest := Split(s[1..]);
      JoinSplit(s[1..]);
      if s[0] == ' ' {
        assert ([[]] + rest)[1..] == rest;
        assert s == " " + s[1..];
      } else {
        JoinConsHead(s[0], rest[0], rest[1..]);
        assert [rest[0]] + rest[1..] == rest;
        assert s == [s[0]] + s[1..];
      }
    }
  }

  lemma JoinConsHead(c: char, p: string, more: seq<string>)
    ensures Join([[c] + p] + more) == [c] + Join([p] + more)
  {
    if |more| > 0 {
      assert ([[c] + p] + more)[1..] == more;
      assert ([p] + more)[1..] == more;
    }
  }

  /** Joining the first `k` fields gives the prefix before the `k`-th space. */
  lemma {:induction false} JoinTakeSplit(s: string, k: nat)
    requires k >= 1
    ensures Join(Take(Split(s), k)) == PrefixBeforeSpace(s, k)
  {
    if s != [] {
      if s[0] == ' ' {
        if k == 1 {
          assert Take(Split(s), 1) == [[]];
        } else {
          JoinTakeSplit(s[1..], k - 1);
          JoinTakeSplitSpace(s, k);
        }
      } else {
        JoinTakeSplit(s[1..], k);
        JoinTakeSplitLetter(s, k);
      }
    }
  }

  /** The step of `JoinTakeSplit` past a leading space. */
  lemma JoinTakeSplitSpace(s: string, k: nat)
    requires s != [] && s[0] == ' ' && k >= 2
    requires Join(Take(Split(s[1..]), k - 1)) == PrefixBeforeSpace(s[1..], k - 1)
    ensures Join(Take(Split(s), k)) == PrefixBeforeSpace(s, k)
  {
    var rest := Split(s[1..]);
    var t := Take(rest, k - 1);
    assert Split(s) == [[]] + rest;
    TakeCons([], rest, k);
    var parts := [[]] + t;
    assert |parts| >= 2 && parts[0] == [] && parts[1..] == t;
    assert Join(parts) == " " + Join(t);
  }

  /** The step of `JoinTakeSplit` past a leading non-space character. */
  lemma JoinTakeSplitLetter(s: string, k: nat)
    requires s != [] && s[0] != ' ' && k >= 1
    requires Join(Take(Split(s[1..]), k)) == PrefixBeforeSpace(s[1..], k)
    ensures Join(Take(Split(s), k)) == PrefixBeforeSpace(s, k)
  {
    var rest := Split(s[1..]);
    var t := Take(rest[1..], k - 1);
    assert Split(s) == [[s[0]] + rest[0]] + rest[1..];
    TakeCons([s[0]] + rest[0], rest[1..], k);
    assert rest == [rest[0]] + rest[1..];
    TakeCons(rest[0], rest[1..], k);
    JoinConsHead(s[0], rest[0], t);
  }

  /** Taking from a sequence with a given head. */
  lemma TakeCons<T>(x: T, xs: seq<T>, k: nat)
    requires k >= 1
    ensures Take([x] + xs, k) == [x] + Take(xs, k - 1)
  {
  }
}
