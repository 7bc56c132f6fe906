/** Sums of integer sequences, over all positions or over listed positions. */
module Sums {

  function Sum(w: seq<int>): int {
    if w == [] then 0 else Sum(w[..|w| - 1]) + w[|w| - 1]
  }

  ghost predicate Distinct(order: seq<nat>) {
    forall i, j :: 0 <= i < j < |order| ==> order[i] != order[j]
  }

  ghost predicate Within(order: seq<nat>, n: nat) {
    forall j :: 0 <= j < |order| ==> order[j] < n
  }

  function SumAt(order: seq<nat>, w: seq<int>): int
    requires Within(order, |w|)
  {
    if order == [] then 0 else SumAt(order[..|order| - 1], w) + w[order[|order| - 1]]
  }

  /** Keeps the positions listed in `order`, zero elsewhere. */
  function Mask(w: seq<int>, order: seq<nat>): (r: seq<int>)
    ensures |r| == |w|
    ensures forall c :: 0 <= c < |w| ==> r[c] == if c in order then w[c] else 0
  {
    seq(|w|, c requires 0 <= c < |w| => if c in order then w[c] else 0)
  }

  lemma {:induction false} SumUpdate(w: seq<int>, c: nat, x: int)
    requires c < |w|
    ensures Sum(w[c := x]) == Sum(w) - w[c] + x
  {
    var n := |w| - 1;
    if c == n {
      assert w[c := x][..n] == w[..n];
    } else {
      assert w[c := x][..n] == w[..n][c := x];
      SumUpdate(w[..n], c, x);
    }
  }

  lemma {:induction false} SumZero(w: seq<int>)
    requires forall c :: 0 <= c < |w| ==> w[c] == 0
    ensures Sum(w) == 0
  {
    if w != [] { SumZero(w[..|w| - 1]); }
  }

  /** Visiting distinct positions in any order adds up the same positions. */
  lemma {:induction false} SumAtIsMasked(order: seq<nat>, w: seq<int>)
    requires Within(order, |w|) && Distinct(order)
    ensures SumAt(order, w) == Sum(Mask(w, order))
  {
    if order == [] {
      SumZero(Mask(w, order));
    } else {
      var n := |order| - 1;
      var c := order[n];
      SumAtIsMasked(order[..n], w);
      assert c !in order[..n];
      assert order == order[..n] + [c];
      assert forall d :: d in order <==> d in order[..n] || d == c;
      assert Mask(w, order) == Mask(w, order[..n])[c := w[c]];
      SumUpdate(Mask(w, order[..n]), c, w[c]);
    }
  }

  /** Changing the weight of one visited position. */
  lemma {:induction false} SumAtUpdate(order: seq<nat>, w: seq<int>, c: nat, x: int)
    requires Within(order, |w|) && Distinct(order) && c < |w|
    ensures SumAt(order, w[c := x]) == SumAt(order, w) + (if c in order then x - w[c] else 0)
  {
    if order != [] {
      var n := |order| - 1;
      SumAtUpdate(order[..n], w, c, x);
      assert order == order[..n] + [order[n]];
      if order[n] == c { assert c !in order[..n]; }
    }
  }

  lemma {:induction false} SumAtSame(order: seq<nat>, w: seq<int>, w': seq<int>)
    requires Within(order, |w|) && Within(order, |w'|)
    requires forall j :: 0 <= j < |order| ==> w[order[j]] == w'[order[j]]
    ensures SumAt(order, w) == SumAt(order, w')
  {
    if order != [] { SumAtSame(order[..|order| - 1], w, w'); }
  }
}
