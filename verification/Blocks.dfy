/** Blocks and the ordered block lists that clusters hold (simulation/utils.py).

A block list is interrogated through queries: `Sel(bs, q)` is the sublist of
blocks that match `q`, in list order, so `|Sel(bs, q)|` is a count and
`Sel(bs, q) == [..]` pins the exact blocks. */
module Blocks {

  /** The first letter of a block id: data, local parity, global parity. */
  datatype Kind = D | L | G

  /** Block id (`kind` and `num`), its group, the stripe it is tagged with and
      the cluster it believes it is stored in. */
  datatype Block = Block(kind: Kind, num: int, group: int, stripe: int, cluster: int)

  datatype Query =
    | AnyData
    | DataAt(stripe: int, group: int)
    | DataNum(num: int)
    | ParityAt(kind: Kind, stripe: int, group: int)

  predicate Hit(b: Block, q: Query) {
    match q
    case AnyData => b.kind == D
    case DataAt(s, i) => b.kind == D && b.stripe == s && b.group == i
    case DataNum(n) => b.kind == D && b.num == n
    case ParityAt(t, s, i) => b.kind == t && b.stripe == s && b.group == i
  }

  function Sel(bs: seq<Block>, q: Query): (r: seq<Block>) {
    if bs == [] then []
    else
      var last := bs[|bs| - 1];
      Sel(bs[..|bs| - 1], q) + (if Hit(last, q) then [last] else [])
  }

  lemma {:induction false} SelConcat(a: seq<Block>, b: seq<Block>, q: Query)
    ensures Sel(a + b, q) == Sel(a, q) + Sel(b, q)
  {
    if b == [] {
      assert a + b == a;
    } else {
      var n := |b| - 1;
      assert (a + b)[..|a + b| - 1] == a + b[..n];
      SelConcat(a, b[..n], q);
    }
  }

  lemma {:induction false} SelOne(b: Block, q: Query)
    ensures Sel([b], q) == if Hit(b, q) then [b] else []
  {
    assert [b][..0] == [];
  }

  lemma {:induction false} SelAppend(bs: seq<Block>, b: Block, q: Query)
    ensures Sel(bs + [b], q) == Sel(bs, q) + (if Hit(b, q) then [b] else [])
  {
    assert (bs + [b])[..|bs|] == bs;
  }

  /** Popping position i takes away exactly that block's matches. */
  lemma {:induction false} SelPop(bs: seq<Block>, i: nat, q: Query)
    requires i < |bs|
    ensures |Sel(bs[..i] + bs[i + 1..], q)| == |Sel(bs, q)| - (if Hit(bs[i], q) then 1 else 0)
    ensures !Hit(bs[i], q) ==> Sel(bs[..i] + bs[i + 1..], q) == Sel(bs, q)
  {
    assert bs == (bs[..i] + [bs[i]]) + bs[i + 1..];
    SelConcat(bs[..i] + [bs[i]], bs[i + 1..], q);
    SelConcat(bs[..i], [bs[i]], q);
    SelConcat(bs[..i], bs[i + 1..], q);
    SelOne(bs[i], q);
  }

  lemma {:induction false} SelMembers(bs: seq<Block>, q: Query)
    ensures forall b :: b in Sel(bs, q) <==> b in bs && Hit(b, q)
    ensures |Sel(bs, q)| <= |bs|
  {
    if bs != [] {
      var n := |bs| - 1;
      SelMembers(bs[..n], q);
      assert bs == bs[..n] + [bs[n]];
    }
  }

  lemma {:induction false} SelAll(bs: seq<Block>, q: Query)
    requires forall j :: 0 <= j < |bs| ==> Hit(bs[j], q)
    ensures Sel(bs, q) == bs
  {
    if bs != [] {
      var n := |bs| - 1;
      SelAll(bs[..n], q);
      assert bs == bs[..n] + [bs[n]];
    }
  }

  lemma {:induction false} SelNone(bs: seq<Block>, q: Query)
    requires forall j :: 0 <= j < |bs| ==> !Hit(bs[j], q)
    ensures Sel(bs, q) == []
  {
    if bs != [] {
      SelNone(bs[..|bs| - 1], q);
    }
  }

  // ------------------------------------------------------------------
  // Dropping one stripe's parity blocks of one kind (Cluster.remove_block).

  predicate Doomed(b: Block, s: int, t: Kind) { b.stripe == s && b.kind == t }

  function Drop(bs: seq<Block>, s: int, t: Kind): (r: seq<Block>) {
    if bs == [] then []
    else
      var last := bs[|bs| - 1];
      Drop(bs[..|bs| - 1], s, t) + (if Doomed(last, s, t) then [] else [last])
  }

  /** The groups whose blocks Drop takes away. */
  function DoomedGroups(bs: seq<Block>, s: int, t: Kind): set<int> {
    if bs == [] then {}
    else
      var last := bs[|bs| - 1];
      DoomedGroups(bs[..|bs| - 1], s, t) + (if Doomed(last, s, t) then {last.group} else {})
  }

  lemma {:induction false} DropMembers(bs: seq<Block>, s: int, t: Kind)
    ensures forall b :: b in Drop(bs, s, t) <==> b in bs && !Doomed(b, s, t)
    ensures forall i :: i in DoomedGroups(bs, s, t) <==> exists b :: b in bs && Doomed(b, s, t) && b.group == i
  {
    if bs != [] {
      var n := |bs| - 1;
      DropMembers(bs[..n], s, t);
      assert bs == bs[..n] + [bs[n]];
    }
  }

  lemma {:induction false} DropConcat(a: seq<Block>, b: seq<Block>, s: int, t: Kind)
    ensures Drop(a + b, s, t) == Drop(a, s, t) + Drop(b, s, t)
  {
    if b == [] {
      assert a + b == a;
    } else {
      var n := |b| - 1;
      assert (a + b)[..|a + b| - 1] == a + b[..n];
      DropConcat(a, b[..n], s, t);
    }
  }

  /** A query none of the dropped blocks match keeps its exact answer. */
  lemma {:induction false} SelDrop(bs: seq<Block>, s: int, t: Kind, q: Query)
    requires forall b :: b in bs && Doomed(b, s, t) ==> !Hit(b, q)
    ensures Sel(Drop(bs, s, t), q) == Sel(bs, q)
  {
    if bs != [] {
      var n := |bs| - 1;
      SelDrop(bs[..n], s, t, q);
      SelConcat(Drop(bs[..n], s, t), if Doomed(bs[n], s, t) then [] else [bs[n]], q);
      SelOne(bs[n], q);
    }
  }

  // ------------------------------------------------------------------
  // Retagging: every block of stripes [lo, hi) becomes a block of `to`.

  function RetagOne(b: Block, lo: int, hi: int, to: int): Block {
    if lo <= b.stripe < hi then b.(stripe := to) else b
  }

  function Retag(bs: seq<Block>, lo: int, hi: int, to: int): (r: seq<Block>)
    ensures |r| == |bs|
    ensures forall j :: 0 <= j < |bs| ==> r[j] == RetagOne(bs[j], lo, hi, to)
  {
    seq(|bs|, j requires 0 <= j < |bs| => RetagOne(bs[j], lo, hi, to))
  }

  lemma {:induction false} RetagPrefix(bs: seq<Block>, lo: int, hi: int, to: int, n: nat)
    requires n <= |bs|
    ensures Retag(bs, lo, hi, to)[..n] == Retag(bs[..n], lo, hi, to)
  {}

  /** Queries on other stripes are untouched, and counts that ignore tags too. */
  lemma {:induction false} SelRetagOther(bs: seq<Block>, lo: int, hi: int, to: int, q: Query)
    requires q.DataAt? || q.ParityAt? ==> !(lo <= q.stripe < hi) && q.stripe != to
    ensures |Sel(Retag(bs, lo, hi, to), q)| == |Sel(bs, q)|
    ensures q.DataAt? || q.ParityAt? ==> Sel(Retag(bs, lo, hi, to), q) == Sel(bs, q)
  {
    if bs != [] {
      var n := |bs| - 1;
      RetagPrefix(bs, lo, hi, to, n);
      SelRetagOther(bs[..n], lo, hi, to, q);
    }
  }

  /** The number of data blocks of `group` over the stripes [lo, hi). */
  function BatchCount(bs: seq<Block>, lo: int, hi: int, group: int): nat
    decreases hi - lo
  {
    if hi <= lo then 0
    else BatchCount(bs, lo, hi - 1, group) + |Sel(bs, DataAt(hi - 1, group))|
  }

  lemma {:induction false} BatchCountEmpty(lo: int, hi: int, group: int)
    ensures BatchCount([], lo, hi, group) == 0
    decreases hi - lo
  {
    if lo < hi { BatchCountEmpty(lo, hi - 1, group); }
  }

  lemma {:induction false} BatchCountSnoc(bs: seq<Block>, lo: int, hi: int, group: int)
    requires bs != []
    ensures BatchCount(bs, lo, hi, group) == BatchCount(bs[..|bs| - 1], lo, hi, group)
      + var b := bs[|bs| - 1]; if b.kind == D && lo <= b.stripe < hi && b.group == group then 1 else 0
    decreases hi - lo
  {
    if lo < hi {
      BatchCountSnoc(bs, lo, hi - 1, group);
    }
  }

  /** After retagging, the target stripe owns exactly what the batch owned. */
  lemma {:induction false} SelRetagBatch(bs: seq<Block>, lo: int, hi: int, to: int, group: int)
    requires forall b :: b in bs ==> b.stripe != to || lo <= to < hi
    ensures |Sel(Retag(bs, lo, hi, to), DataAt(to, group))| == BatchCount(bs, lo, hi, group)
  {
    if bs == [] {
      BatchCountEmpty(lo, hi, group);
    } else {
      var n := |bs| - 1;
      assert forall b :: b in bs[..n] ==> b in bs;
      assert bs[n] in bs;
      RetagPrefix(bs, lo, hi, to, n);
      SelRetagBatch(bs[..n], lo, hi, to, group);
      BatchCountSnoc(bs, lo, hi, group);
    }
  }

  lemma {:induction false} BatchCountConst(bs: seq<Block>, lo: int, hi: int, group: int, n: nat)
    requires lo <= hi
    requires forall s :: lo <= s < hi ==> |Sel(bs, DataAt(s, group))| == n
    ensures BatchCount(bs, lo, hi, group) == (hi - lo) * n
    decreases hi - lo
  {
    if lo < hi {
      BatchCountConst(bs, lo, hi - 1, group, n);
      assert (hi - lo) * n == (hi - 1 - lo) * n + n;
    }
  }
}
