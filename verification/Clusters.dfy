/** Clusters: a block list with a type letter and two cached counters that every
operation has to keep in step with the list (simulation/utils.py). */
module Clusters {
  import opened Blocks

  /** What a cluster holds, without the cached counters. */
  datatype ClusterVal = ClusterVal(blocks: seq<Block>, kind: Kind)

  /** Type priority L > G > D. */
  function Promote(current: Kind, added: Kind): Kind {
    if added == L then L else if current == D && added == G then G else current
  }

  function AddVal(v: ClusterVal, b: Block): ClusterVal {
    ClusterVal(v.blocks + [b], Promote(v.kind, b.kind))
  }

  function PopVal(v: ClusterVal, i: nat): ClusterVal
    requires i < |v.blocks|
  {
    v.(blocks := v.blocks[..i] + v.blocks[i + 1..])
  }

  function DropVal(v: ClusterVal, s: int, t: Kind): ClusterVal {
    v.(blocks := Drop(v.blocks, s, t))
  }

  function RetagVal(v: ClusterVal, lo: int, hi: int, to: int): ClusterVal {
    v.(blocks := Retag(v.blocks, lo, hi, to))
  }

  /** Retagging stripe by stripe adds up to retagging the whole range. */
  lemma {:induction false} RetagStep(v: ClusterVal, lo: int, j: int, to: int)
    requires to <= lo <= j
    ensures RetagVal(RetagVal(v, lo, j, to), j, j + 1, to) == RetagVal(v, lo, j + 1, to)
  {
    var r := Retag(Retag(v.blocks, lo, j, to), j, j + 1, to);
    var e := Retag(v.blocks, lo, j + 1, to);
    assert |r| == |e|;
    assert forall p :: 0 <= p < |r| ==> r[p] == e[p];
    assert r == e;
  }

  lemma {:induction false} RetagNothing(v: ClusterVal, lo: int, to: int)
    ensures RetagVal(v, lo, lo, to) == v
  {
    assert Retag(v.blocks, lo, lo, to) == v.blocks;
  }

  /** The removal scan after `seen` blocks of `was`: the kept blocks, then the rest. */
  ghost predicate Scan(was: seq<Block>, seen: nat, bs: seq<Block>, i: int, groups: set<int>, s: int, t: Kind) {
    && seen <= |was|
    && i == |Drop(was[..seen], s, t)|
    && bs == Drop(was[..seen], s, t) + was[seen..]
    && groups == DoomedGroups(was[..seen], s, t)
  }

  lemma {:induction false} ScanStep(was: seq<Block>, seen: nat, bs: seq<Block>, i: int, groups: set<int>, s: int,
          t: Kind)
    requires Scan(was, seen, bs, i, groups, s, t) && i < |bs|
    ensures 0 <= i && seen < |was|
    ensures Doomed(bs[i], s, t) ==>
      Scan(was, seen + 1, bs[..i] + bs[i + 1..], i, groups + {bs[i].group}, s, t)
    ensures !Doomed(bs[i], s, t) ==> Scan(was, seen + 1, bs, i + 1, groups, s, t)
  {
    assert was[..seen + 1][..seen] == was[..seen];
    assert was[seen..] == [was[seen]] + was[seen + 1..];
    var kept := Drop(was[..seen], s, t);
    assert bs[..i] == kept && bs[i + 1..] == was[seen + 1..];
  }

  lemma {:induction false} ScanStart(was: seq<Block>, s: int, t: Kind)
    ensures Scan(was, 0, was, 0, {}, s, t)
  {
    assert was[..0] == [] && [] + was[0..] == was;
  }

  lemma {:induction false} ScanEnd(was: seq<Block>, seen: nat, bs: seq<Block>, i: int, groups: set<int>, s: int,
          t: Kind)
    requires Scan(was, seen, bs, i, groups, s, t) && i >= |bs|
    ensures bs == Drop(was, s, t) && groups == DoomedGroups(was, s, t)
  {
    assert was[..|was|] == was;
  }

  class Cluster {
    const id: int
    var blocks: seq<Block>
    var kind: Kind
    var numBlocks: int
    var numData: int

    ghost predicate Valid()
      reads this
    {
      numBlocks == |blocks| && numData == |Sel(blocks, AnyData)|
    }

    ghost function Val(): ClusterVal
      reads this
    {
      ClusterVal(blocks, kind)
    }

    constructor (id: int)
      ensures Valid() && this.id == id && Val() == ClusterVal([], D)
    {
      this.id := id;
      blocks, kind, numBlocks, numData := [], D, 0, 0;
    }

    method AddNewBlock(b: Block)
      requires Valid()
      modifies this
      ensures Valid() && Val() == AddVal(old(Val()), b)
    {
      blocks := blocks + [b];
      SelAppend(old(blocks), b, AnyData);
      if b.kind == L {
        kind := L;
      } else if kind == D && b.kind == G {
        kind := G;
      } else if b.kind == D {
        numData := numData + 1;
      }
      numBlocks := numBlocks + 1;
    }

    /** Takes the block at position i out of the list. */
    method Pop(i: nat)
      requires Valid() && i < |blocks|
      modifies this
      ensures Valid() && Val() == PopVal(old(Val()), i)
    {
      SelPop(blocks, i, AnyData);
      if blocks[i].kind == D {
        numData := numData - 1;
      }
      numBlocks := numBlocks - 1;
      blocks := blocks[..i] + blocks[i + 1..];
    }

    /** Removes every block of kind t of stripe s; returns the groups they had. */
    method RemoveBlock(s: int, t: Kind) returns (groups: set<int>)
      requires Valid()
      modifies this
      ensures Valid() && Val() == DropVal(old(Val()), s, t)
      ensures groups == DoomedGroups(old(blocks), s, t)
    {
      hide Scan; hide Drop; hide DoomedGroups; hide Sel;
      ghost var was := blocks;
      ghost var seen := 0;
      groups := {};
      var i := 0;
      ScanStart(was, s, t);
      while i < numBlocks
        invariant Valid() && kind == old(kind)
        invariant Scan(was, seen, blocks, i, groups, s, t)
        decreases |was| - seen
      {
        ScanStep(was, seen, blocks, i, groups, s, t);
        if blocks[i].stripe == s && blocks[i].kind == t {
          groups := groups + {blocks[i].group};
          Pop(i);
          i := i - 1;
        }
        i := i + 1;
        seen := seen + 1;
      }
      ScanEnd(was, seen, blocks, i, groups, s, t);
    }

    /** Retags, in place, every block that belongs to stripe `from`. */
    method MergeStripe(from: int, to: int)
      requires Valid()
      modifies this
      ensures Valid() && Val() == RetagVal(old(Val()), from, from + 1, to)
    {
      ghost var was := blocks;
      for j := 0 to numBlocks
        invariant |blocks| == |was| == numBlocks && kind == old(kind) && numData == old(numData)
        invariant forall p :: 0 <= p < j ==> blocks[p] == RetagOne(was[p], from, from + 1, to)
        invariant forall p :: j <= p < |was| ==> blocks[p] == was[p]
      {
        if blocks[j].stripe == from {
          blocks := blocks[j := blocks[j].(stripe := to)];
        }
      }
      assert blocks == Retag(was, from, from + 1, to);
      SelRetagOther(was, from, from + 1, to, AnyData);
    }

    /** Is there a local parity of the given stripe and group here? */
    method FindLocalParityBlock(s: int, group: int) returns (found: bool)
      ensures found <==> exists b :: b in blocks && Hit(b, ParityAt(L, s, group))
    {
      for j := 0 to |blocks|
        invariant forall p :: 0 <= p < j ==> !Hit(blocks[p], ParityAt(L, s, group))
      {
        if blocks[j].kind == L && blocks[j].stripe == s && blocks[j].group == group {
          assert blocks[j] in blocks;
          return true;
        }
      }
      return false;
    }
  }
}
