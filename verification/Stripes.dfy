/** The block ids a stripe records, group by group (simulation/utils.py, optimal.py). */
module Stripes {
  import opened Blocks
  import opened MergeState
  import opened Arith

  type BlockId = (Kind, int)

  /** The first n data ids of group i of original stripe o. */
  function DataIds(par: Params, o: nat, i: nat, n: nat): (r: seq<BlockId>)
    ensures |r| == n && forall e :: 0 <= e < n ==> r[e] == (D, o * par.K() + i * par.b + e)
  {
    seq(n, e => (D, o * par.K() + i * par.b + e))
  }

  /** Group i of the original stripes lo..hi-1, in order. */
  function GroupData(par: Params, lo: nat, hi: nat, i: nat): seq<BlockId>
    decreases hi
  {
    if hi <= lo then [] else GroupData(par, lo, hi - 1, i) + DataIds(par, hi - 1, i, par.b)
  }

  function GlobalIds(par: Params, s: nat): (r: seq<BlockId>)
    ensures |r| == par.g && forall e :: 0 <= e < par.g ==> r[e] == (G, e + s * par.g)
  {
    seq(par.g, e => (G, e + s * par.g))
  }

  /** Group i of stripe s, which covers the original stripes s p .. s p + p - 1:
      its data ids in order, then its local parity. */
  function GroupIds(par: Params, p: nat, s: nat, i: nat): seq<BlockId> {
    GroupData(par, s * p, s * p + p, i) + [(L, i + s * par.l)]
  }

  /** `info` lists the l groups of stripe s, then its global parities. */
  ghost predicate InfoOk(par: Params, p: nat, s: nat, info: seq<seq<BlockId>>) {
    && |info| == par.l + 1 && info[par.l] == GlobalIds(par, s)
    && forall i :: 0 <= i < par.l ==> info[i] == GroupIds(par, p, s, i)
  }

  lemma {:induction false} GroupDataSize(par: Params, lo: nat, hi: nat, i: nat)
    requires lo <= hi
    ensures |GroupData(par, lo, hi, i)| == (hi - lo) * par.b
    decreases hi
  {
    if lo < hi {
      GroupDataSize(par, lo, hi - 1, i);
      assert (hi - lo) * par.b == (hi - 1 - lo) * par.b + par.b;
    }
  }

  lemma {:induction false} GroupDataJoin(par: Params, lo: nat, mid: nat, hi: nat, i: nat)
    requires lo <= mid <= hi
    ensures GroupData(par, lo, hi, i) == GroupData(par, lo, mid, i) + GroupData(par, mid, hi, i)
    decreases hi
  {
    if mid < hi { GroupDataJoin(par, lo, mid, hi - 1, i); }
  }

  lemma {:induction false} GroupDataKind(par: Params, lo: nat, hi: nat, i: nat)
    ensures forall id :: id in GroupData(par, lo, hi, i) ==> id.0 == D
    decreases hi
  {
    if lo < hi { GroupDataKind(par, lo, hi - 1, i); }
  }

  /** The state of generating the data ids of stripe s: n ids so far. */
  ghost predicate Generating(par: Params, s: nat, info: seq<seq<BlockId>>, group: nat, n: nat) {
    && |info| == group + 1 && group * par.b <= n <= group * par.b + par.b && (group > 0 ==> group * par.b < n)
    && (forall i :: 0 <= i < group ==> info[i] == DataIds(par, s, i, par.b))
    && info[group] == DataIds(par, s, group, n - group * par.b)
  }

  lemma {:induction false} GenerateStep(par: Params, s: nat, info: seq<seq<BlockId>>, group: nat, n: nat)
    requires par.b >= 1 && Generating(par, s, info, group, n)
    ensures var full := n == par.b * (group + 1);
      var group', info' := if full then group + 1 else group, if full then info + [[]] else info;
      Generating(par, s, info'[group' := info'[group'] + [(D, n + s * par.K())]], group', n + 1)
  {
    assert par.b * (group + 1) == group * par.b + par.b == (group + 1) * par.b;
    var full := n == par.b * (group + 1);
    var group', info' := if full then group + 1 else group, if full then info + [[]] else info;
    var r := info'[group' := info'[group'] + [(D, n + s * par.K())]];
    assert r[group'] == DataIds(par, s, group', n + 1 - group' * par.b);
  }

  /** generate_stripe_information. */
  method Generate(par: Params, s: nat) returns (info: seq<seq<BlockId>>)
    requires par.Ok()
    ensures InfoOk(par, 1, s, info)
  {
    hide Generating;
    var group := 0;
    info := [[]];
    GenerateStart(par, s);
    for n := 0 to par.K()
      invariant Generating(par, s, info, group, n) && |info| == group + 1
    {
      GenerateStep(par, s, info, group, n);
      if n == par.b * (group + 1) {
        group := group + 1;
        info := info + [[]];
      }
      info := info[group := info[group] + [(D, n + s * par.K())]];
    }
    GenerateEnd(par, s, info, group);
    ghost var data := info;
    info := info + [[]];
    for e := 0 to par.g
      invariant |info| == par.l + 1 && info[..par.l] == data
      invariant |info[par.l]| == e && forall x :: 0 <= x < e ==> info[par.l][x] == (G, x + s * par.g)
    {
      info := info[par.l := info[par.l] + [(G, e + s * par.g)]];
    }
    assert info[par.l] == GlobalIds(par, s);
    for i := 0 to par.l
      invariant |info| == par.l + 1 && info[par.l] == GlobalIds(par, s)
      invariant forall x :: 0 <= x < i ==> info[x] == GroupIds(par, 1, s, x)
      invariant forall x :: i <= x < par.l ==> info[x] == data[x]
    {
      OriginalGroup(par, s, i);
      info := info[i := info[i] + [(L, i + s * par.l)]];
    }
  }

  lemma {:induction false} GenerateStart(par: Params, s: nat)
    ensures Generating(par, s, [[]], 0, 0)
  {
    assert DataIds(par, s, 0, 0) == [];
  }

  lemma {:induction false} GenerateEnd(par: Params, s: nat, info: seq<seq<BlockId>>, group: nat)
    requires par.Ok() && Generating(par, s, info, group, par.K())
    ensures group + 1 == par.l && |info| == par.l
    ensures forall i :: 0 <= i < par.l ==> info[i] == DataIds(par, s, i, par.b)
  {
    MulGe(par.l, par.b);
    MulCancelLt(group, par.l, par.b);
    assert (group + 2) * par.b == group * par.b + par.b + par.b;
    MulCancelLt(par.l, group + 2, par.b);
  }

  lemma {:induction false} OriginalGroup(par: Params, s: nat, i: nat)
    ensures GroupData(par, s * 1, s * 1 + 1, i) == DataIds(par, s, i, par.b)
  {
    assert GroupData(par, s, s, i) == [];
  }

  /** The data ids of one recorded group: everything but its parity. */
  method DataOf(group: seq<BlockId>, ghost data: seq<BlockId>, ghost parity: BlockId) returns (ids: seq<BlockId>)
    requires group == data + [parity] && parity.0 != D && forall id :: id in data ==> id.0 == D
    ensures ids == data
  {
    ids := [];
    for e := 0 to |group|
      invariant ids == if e <= |data| then data[..e] else data
    {
      assert e < |data| ==> group[e] == data[e] && data[e] in data;
      if group[e].0 == D { ids := ids + [group[e]]; }
    }
  }

  /** All data ids of group i over the recorded stripes lo..hi-1. */
  method CollectData(par: Params, ghost p: nat, infos: seq<seq<seq<BlockId>>>, lo: nat, hi: nat, i: nat)
    returns (ids: seq<BlockId>)
    requires lo <= hi <= |infos| && i < par.l
    requires forall j :: lo <= j < hi ==> InfoOk(par, p, j, infos[j])
    ensures ids == GroupData(par, lo * p, hi * p, i)
  {
    ids := [];
    for j := lo to hi
      invariant ids == GroupData(par, lo * p, j * p, i)
    {
      assert InfoOk(par, p, j, infos[j]);
      GroupDataKind(par, j * p, j * p + p, i);
      var more := DataOf(infos[j][i], GroupData(par, j * p, j * p + p, i), (L, i + j * par.l));
      ids := ids + more;
      assert (j + 1) * p == j * p + p;
      MulMono(lo, j, p);
      GroupDataJoin(par, lo * p, j * p, j * p + p, i);
    }
  }

  lemma {:induction false} MergedRange(t: nat, xi: nat, p: nat)
    ensures t * xi * p == t * (p * xi) && (t * xi + xi) * p == t * (p * xi) + p * xi
  {}

  /** The block ids of the stripe that merges stripes t xi .. t xi + xi - 1. */
  method MergeInfos(par: Params, ghost p: nat, infos: seq<seq<seq<BlockId>>>, t: nat, xi: nat)
    returns (info: seq<seq<BlockId>>)
    requires t * xi + xi <= |infos|
    requires forall j :: t * xi <= j < t * xi + xi ==> InfoOk(par, p, j, infos[j])
    ensures InfoOk(par, p * xi, t, info)
  {
    info := [];
    for i := 0 to par.l
      invariant |info| == i && forall x :: 0 <= x < i ==> info[x] == GroupIds(par, p * xi, t, x)
    {
      var ids := CollectData(par, p, infos, t * xi, t * xi + xi, i);
      MergedRange(t, xi, p);
      info := info + [ids + [(L, i + t * par.l)]];
    }
    var globals: seq<BlockId> := [];
    for e := 0 to par.g
      invariant |globals| == e && forall x :: 0 <= x < e ==> globals[x] == (G, x + t * par.g)
    {
      globals := globals + [(G, e + t * par.g)];
    }
    assert globals == GlobalIds(par, t);
    info := info + [globals];
  }
}
