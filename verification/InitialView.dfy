/** The Optimal placement as a value: full data clusters first, then one tail per
group (or none), then the global parities. */
module InitialView {
  import opened Blocks
  import opened Clusters
  import opened MergeState
  import opened MergeView
  import opened MergeStage
  import opened MergeBatch
  import opened Arith

  /** Data blocks per group that fit whole clusters, and the rest. */
  function Full(par: Params): nat { par.b / (par.g + 1) }
  function Left(par: Params): nat { par.b % (par.g + 1) }

  lemma {:induction false} FullLeft(par: Params)
    ensures par.b == Full(par) * (par.g + 1) + Left(par) && Left(par) <= par.g
    ensures Full(par) * (par.g + 1) <= par.b
  {}

  function First(par: Params, j: nat, i: nat): nat { j * par.K() + i * par.b }

  /** n consecutive data blocks of group i of stripe j, from offset a, in cluster c. */
  function Run(par: Params, j: nat, i: nat, a: nat, n: nat, c: nat): (r: seq<Block>)
    ensures |r| == n && forall e :: 0 <= e < n ==> r[e] == Block(D, First(par, j, i) + a + e, i, j, c)
  {
    seq(n, e => Block(D, First(par, j, i) + a + e, i, j, c))
  }

  /** Stripe, group and offset of a data block number. */
  function StripeOf(par: Params, n: int): int
    requires par.Ok()
  {
    MulGe(par.l, par.b); n / par.K()
  }

  function GroupOf(par: Params, n: int): int
    requires par.Ok()
  {
    MulGe(par.l, par.b); n % par.K() / par.b
  }

  function OffsetOf(par: Params, n: int): int
    requires par.Ok()
  {
    MulGe(par.l, par.b); n % par.K() % par.b
  }

  /** Numbers are composed of stripe, group and offset in one way only. */
  lemma {:induction false} Compose(par: Params, j: nat, i: nat, e: nat)
    requires par.Ok() && i < par.l && e < par.b
    ensures var n := First(par, j, i) + e; StripeOf(par, n) == j && GroupOf(par, n) == i && OffsetOf(par, n) == e
  {
    MulGe(par.l, par.b);
    MulMono(i + 1, par.l, par.b);
    assert (i + 1) * par.b == i * par.b + par.b;
    DivIs(First(par, j, i) + e, j, par.K());
    DivIs(i * par.b + e, i, par.b);
  }

  lemma {:induction false} Decompose(par: Params, n: nat)
    requires par.Ok()
    ensures 0 <= GroupOf(par, n) < par.l && 0 <= OffsetOf(par, n) < par.b && StripeOf(par, n) >= 0
    ensures n == First(par, StripeOf(par, n), GroupOf(par, n)) + OffsetOf(par, n)
  {
    MulGe(par.l, par.b);
    DivLess(n % par.K(), par.l, par.b);
    assert n == StripeOf(par, n) * par.K() + n % par.K();
  }

  lemma {:induction false} RunNums(par: Params, j: nat, i: nat, a: nat, len: nat, n: nat)
    requires par.Ok() && i < par.l && a + len <= par.b
    ensures First(par, j, i) + a <= n < First(par, j, i) + a + len <==>
      StripeOf(par, n) == j && GroupOf(par, n) == i && a <= OffsetOf(par, n) < a + len
  {
    Decompose(par, n);
    var e := n - First(par, j, i);
    if a <= e < a + len { Compose(par, j, i, e); }
  }

  /** What a run of len blocks from offset a contributes to each count. */
  function RunCount(par: Params, j: nat, i: nat, a: nat, len: nat, q: Query): nat {
    match q
    case AnyData => len
    case DataAt(s, i') => if s == j && i' == i then len else 0
    case DataNum(n) => if First(par, j, i) + a <= n < First(par, j, i) + a + len then 1 else 0
    case ParityAt(t, s, i') => if t == D && s == j && i' == i then len else 0
  }

  lemma {:induction false} RunSel(par: Params, j: nat, i: nat, a: nat, len: nat, c: nat, q: Query)
    ensures |Sel(Run(par, j, i, a, len, c), q)| == RunCount(par, j, i, a, len, q)
  {
    if len > 0 {
      var r := Run(par, j, i, a, len, c);
      assert r[..len - 1] == Run(par, j, i, a, len - 1, c);
      RunSel(par, j, i, a, len - 1, c, q);
    }
  }

  lemma {:induction false} RunCountAdd(par: Params, j: nat, i: nat, a: nat, len: nat, more: nat, q: Query)
    ensures RunCount(par, j, i, a, len + more, q) ==
      RunCount(par, j, i, a, len, q) + RunCount(par, j, i, a + len, more, q)
    ensures RunCount(par, j, i, a, 0, q) == 0
  {}

  lemma {:induction false} RunBlocks(par: Params, j: nat, i: nat, a: nat, len: nat, c: nat, tau: nat)
    requires par.Ok() && i < par.l && a + len <= par.b && j < par.x
    ensures forall b :: b in Run(par, j, i, a, len, c) ==> BlockOk(par, Begin(1, par.x, 1, tau), c, b)
  {
    var r := Run(par, j, i, a, len, c);
    forall e | 0 <= e < len ensures BlockOk(par, Begin(1, par.x, 1, tau), c, r[e]) {
      Compose(par, j, i, a + e);
      MulMono(j + 1, par.x, par.K());
      assert (j + 1) * par.K() == j * par.K() + par.K();
      MulMono(i + 1, par.l, par.b);
      assert (i + 1) * par.b == i * par.b + par.b;
    }
  }

  // ------------------------------------------------------------------
  // Full data clusters.

  function ChunkVal(par: Params, j: nat, i: nat, t: nat, c: nat): ClusterVal {
    ClusterVal(Run(par, j, i, t * (par.g + 1), par.g + 1, c), D)
  }

  /** The first t full clusters of (j, i), numbered from c. */
  function Chunks(par: Params, j: nat, i: nat, t: nat, c: nat): (r: View)
    ensures |r| == t && forall x :: 0 <= x < t ==> r[x] == ChunkVal(par, j, i, x, c + x)
  {
    seq(t, x requires 0 <= x < t => ChunkVal(par, j, i, x, c + x))
  }

  /** The data clusters of the first u pairs (group, stripe), groups outermost. */
  function DataView(par: Params, u: nat): (r: View)
    requires par.x >= 1
    ensures |r| == u * Full(par)
  {
    if u == 0 then [] else
      var before := DataView(par, u - 1);
      assert u * Full(par) == (u - 1) * Full(par) + Full(par);
      before + Chunks(par, (u - 1) % par.x, (u - 1) / par.x, Full(par), |before|)
  }

  lemma {:induction false} TotConcat(a: View, b: View, q: Query)
    ensures Tot(a + b, q) == Tot(a, q) + Tot(b, q)
  {
    if b == [] {
      assert a + b == a;
    } else {
      var n := |b| - 1;
      assert (a + b)[..|a + b| - 1] == a + b[..n];
      TotConcat(a, b[..n], q);
    }
  }

  /** The first t chunks of (j, i) hold its first t (g + 1) data blocks. */
  lemma {:induction false} ChunksTot(par: Params, j: nat, i: nat, t: nat, c: nat, q: Query)
    ensures Tot(Chunks(par, j, i, t, c), q) == RunCount(par, j, i, 0, t * (par.g + 1), q)
  {
    hide RunCount; hide Sel; hide Hit; hide Run; hide Chunks;
    if t == 0 {
      RunCountAdd(par, j, i, 0, 0, 0, q);
    } else {
      var r := Chunks(par, j, i, t, c);
      assert r[..t - 1] == Chunks(par, j, i, t - 1, c);
      ChunksTot(par, j, i, t - 1, c, q);
      RunSel(par, j, i, (t - 1) * (par.g + 1), par.g + 1, c + t - 1, q);
      RunCountAdd(par, j, i, 0, (t - 1) * (par.g + 1), par.g + 1, q);
      assert t * (par.g + 1) == (t - 1) * (par.g + 1) + (par.g + 1);
    }
  }

  lemma {:induction false} DataViewNone(par: Params, q: Query)
    requires par.x >= 1
    ensures Tot(DataView(par, 0), q) == 0
  {}

  /** Placing one more pair. */
  lemma {:induction false} DataViewStep(par: Params, u: nat, q: Query)
    requires par.x >= 1
    ensures Tot(DataView(par, u + 1), q) ==
      Tot(DataView(par, u), q) + RunCount(par, u % par.x, u / par.x, 0, Full(par) * (par.g + 1), q)
  {
    hide RunCount; hide Tot; hide Sel;
    var more := Chunks(par, u % par.x, u / par.x, Full(par), u * Full(par));
    assert DataView(par, u + 1) == DataView(par, u) + more;
    TotConcat(DataView(par, u), more, q);
    ChunksTot(par, u % par.x, u / par.x, Full(par), u * Full(par), q);
  }

  /** Position of a (group, stripe) pair in the placing order. */
  function PairIndex(par: Params, s: int, i: int): int { i * par.x + s }

  lemma {:induction false} PairIs(par: Params, u: nat, s: int, i: int)
    requires par.x >= 1 && 0 <= s < par.x && 0 <= i
    ensures PairIndex(par, s, i) == u <==> s == u % par.x && i == u / par.x
    ensures PairIndex(par, s, i) >= 0
  {
    MulMono(0, i, par.x);
    if PairIndex(par, s, i) == u { DivIs(u, i, par.x); }
  }

  /** The data clusters hold, of each pair placed, exactly the full part. */
  lemma {:induction false} DataTot(par: Params, u: nat, s: int, i: int)
    requires par.Ok() && 0 <= s < par.x && 0 <= i < par.l && u <= par.l * par.x
    ensures Tot(DataView(par, u), DataAt(s, i)) == if PairIndex(par, s, i) < u then Full(par) * (par.g + 1) else 0
  {
    hide Full; hide PairIndex; hide DataView;
    if u == 0 {
      PairIs(par, 0, s, i);
      DataViewNone(par, DataAt(s, i));
    } else {
      hide Tot;
      DataTot(par, u - 1, s, i);
      DataViewStep(par, u - 1, DataAt(s, i));
      PairIs(par, u - 1, s, i);
    }
  }

  lemma {:induction false} NumTot(par: Params, u: nat, n: nat)
    requires par.Ok() && n < par.x * par.K() && u <= par.l * par.x
    ensures Tot(DataView(par, u), DataNum(n)) ==
      if PairIndex(par, StripeOf(par, n), GroupOf(par, n)) < u && OffsetOf(par, n) < Full(par) * (par.g + 1) then 1
        else 0
  {
    hide StripeOf; hide GroupOf; hide OffsetOf; hide Full; hide First; hide PairIndex; hide DataView;
    NumRange(par, n);
    if u == 0 {
      PairIs(par, 0, StripeOf(par, n), GroupOf(par, n));
      DataViewNone(par, DataNum(n));
    } else {
      NumTot(par, u - 1, n);
      NumStep(par, u - 1, n);
    }
  }

  lemma {:induction false} NumStep(par: Params, u: nat, n: nat)
    requires par.Ok() && n < par.x * par.K() && u < par.l * par.x
    ensures Tot(DataView(par, u + 1), DataNum(n)) == Tot(DataView(par, u), DataNum(n)) +
      if PairIndex(par, StripeOf(par, n), GroupOf(par, n)) == u && OffsetOf(par, n) < Full(par) * (par.g + 1) then 1
        else 0
  {
    hide StripeOf; hide GroupOf; hide OffsetOf; hide Full; hide First; hide PairIndex; hide DataView; hide Tot;
    hide RunCount; hide Left;
    DataViewStep(par, u, DataNum(n));
    FullLeft(par);
    NumPair(par, u, Full(par) * (par.g + 1), n);
  }

  lemma {:induction false} NumPair(par: Params, u: nat, len: nat, n: nat)
    requires par.Ok() && n < par.x * par.K() && u < par.l * par.x && len <= par.b
    ensures RunCount(par, u % par.x, u / par.x, 0, len, DataNum(n)) ==
      if PairIndex(par, StripeOf(par, n), GroupOf(par, n)) == u && OffsetOf(par, n) < len then 1 else 0
  {
    hide StripeOf; hide GroupOf; hide OffsetOf; hide First; hide PairIndex; hide RunCount;
    NumRange(par, n);
    DivLess(u, par.l, par.x);
    PairIs(par, u, StripeOf(par, n), GroupOf(par, n));
    RunCountNum(par, u % par.x, u / par.x, len, n);
  }

  /** A run from the start of a group holds number n or not. */
  lemma {:induction false} RunCountNum(par: Params, j: nat, i: nat, len: nat, n: nat)
    requires par.Ok() && i < par.l && len <= par.b
    ensures RunCount(par, j, i, 0, len, DataNum(n)) ==
      if StripeOf(par, n) == j && GroupOf(par, n) == i && 0 <= OffsetOf(par, n) < len then 1 else 0
  {
    hide StripeOf; hide GroupOf; hide OffsetOf; hide First;
    RunNums(par, j, i, 0, len, n);
  }

  lemma {:induction false} NumRange(par: Params, n: nat)
    requires par.Ok() && n < par.x * par.K()
    ensures 0 <= StripeOf(par, n) < par.x && 0 <= GroupOf(par, n) < par.l && 0 <= OffsetOf(par, n) < par.b
  {
    Decompose(par, n);
    MulGe(par.l, par.b);
    DivLess(n, par.x, par.K());
  }

  function Ph(par: Params): Phase { Begin(1, par.x, 1, Left(par)) }

  lemma {:induction false} DataClusters(par: Params, u: nat, tails: bool, c: nat)
    requires par.Ok() && 1 <= u <= par.l * par.x && c < |DataView(par, u)|
    ensures ClusterOk(par, Ph(par), tails, c, Free, DataView(par, u)[c], Clean)
    ensures |DataView(par, u)[c].blocks| == par.g + 1
  {
    hide Full; hide Left; hide ChunkVal; hide ClusterOk; hide DataView;
    DataViewParts(par, u);
    var n := |DataView(par, u - 1)|;
    if c < n {
      if u == 1 { assert false; }
      DataClusters(par, u - 1, tails, c);
    } else {
      var j, i, t := (u - 1) % par.x, (u - 1) / par.x, c - n;
      DivLess(u - 1, par.l, par.x);
      ChunkOk(par, tails, j, i, t, c);
    }
  }

  /** The clusters of one pair come after all earlier ones. */
  lemma {:induction false} DataViewParts(par: Params, u: nat)
    requires par.x >= 1 && u >= 1
    ensures var before, now := DataView(par, u - 1), DataView(par, u);
      && |now| == |before| + Full(par) && (forall c :: 0 <= c < |before| ==> now[c] == before[c])
      && forall c :: |before| <= c < |now| ==>
        now[c] == ChunkVal(par, (u - 1) % par.x, (u - 1) / par.x, c - |before|, c)
  {
    hide Full; hide ChunkVal;
  }

  lemma {:induction false} ChunkOk(par: Params, tails: bool, j: nat, i: nat, t: nat, c: nat)
    requires par.Ok() && i < par.l && j < par.x && t < Full(par)
    ensures ClusterOk(par, Ph(par), tails, c, Free, ChunkVal(par, j, i, t, c), Clean)
    ensures |ChunkVal(par, j, i, t, c).blocks| == par.g + 1
  {
    hide Full; hide Left; hide BlockOk;
    FullLeft(par);
    MulMono(t + 1, Full(par), par.g + 1);
    assert (t + 1) * (par.g + 1) == t * (par.g + 1) + (par.g + 1);
    RunBlocks(par, j, i, t * (par.g + 1), par.g + 1, c, Left(par));
    assert par.x * 1 == par.x;
  }

  // ------------------------------------------------------------------
  // Tails: the rest of a group of every stripe, each with its local parity.

  /** Blocks a .. a + n - 1 of group i of the first j stripes, each stripe's share
      followed by its local parity if `parity`. */
  function Gather(par: Params, i: nat, a: nat, n: nat, parity: bool, j: nat, c: nat): seq<Block> {
    if j == 0 then []
    else
      Gather(par, i, a, n, parity, j - 1, c) + Run(par, j - 1, i, a, n, c)
      + (if parity then [LocalParity(par, c, j - 1, i)] else [])
  }

  /** What is left of group i of the first j stripes. */
  function TailBlocks(par: Params, i: nat, j: nat, c: nat): seq<Block> {
    Gather(par, i, Full(par) * (par.g + 1), Left(par), true, j, c)
  }

  lemma {:induction false} GatherStep(par: Params, i: nat, a: nat, n: nat, parity: bool, j: nat, c: nat, q: Query)
    ensures Sel(Gather(par, i, a, n, parity, j + 1, c), q) == Sel(Gather(par, i, a, n, parity, j, c), q)
      + Sel(Run(par, j, i, a, n, c), q) + (if parity then Sel([LocalParity(par, c, j, i)], q) else [])
    ensures Sel(Gather(par, i, a, n, parity, 0, c), q) == []
  {
    var before, r := Gather(par, i, a, n, parity, j, c), Run(par, j, i, a, n, c);
    if parity {
      SelConcat(before + r, [LocalParity(par, c, j, i)], q);
    } else {
      assert before + r + [] == before + r;
    }
    SelConcat(before, r, q);
  }

  lemma {:induction false} GatherData(par: Params, i: nat, a: nat, n: nat, parity: bool, j: nat, c: nat, s: int)
    ensures |Sel(Gather(par, i, a, n, parity, j, c), DataAt(s, i))| == if 0 <= s < j then n else 0
  {
    hide Sel; hide Gather; hide LocalParity;
    if j == 0 {
      GatherStep(par, i, a, n, parity, 0, c, DataAt(s, i));
    } else {
      GatherData(par, i, a, n, parity, j - 1, c, s);
      OneLocal(par, c, j - 1, i, DataAt(s, i));
      GatherStep(par, i, a, n, parity, j - 1, c, DataAt(s, i));
      RunSel(par, j - 1, i, a, n, c, DataAt(s, i));
    }
  }

  lemma {:induction false} GatherAny(par: Params, i: nat, a: nat, n: nat, parity: bool, j: nat, c: nat)
    ensures |Sel(Gather(par, i, a, n, parity, j, c), AnyData)| == j * n
  {
    hide Sel; hide Gather; hide LocalParity;
    if j == 0 {
      GatherStep(par, i, a, n, parity, 0, c, AnyData);
    } else {
      GatherAny(par, i, a, n, parity, j - 1, c);
      OneLocal(par, c, j - 1, i, AnyData);
      GatherStep(par, i, a, n, parity, j - 1, c, AnyData);
      RunSel(par, j - 1, i, a, n, c, AnyData);
      assert j * n == (j - 1) * n + n;
    }
  }

  lemma {:induction false} OneLocal(par: Params, c: int, s: int, i: int, q: Query)
    ensures Sel([LocalParity(par, c, s, i)], q) == if q == ParityAt(L, s, i) then [LocalParity(par, c, s, i)] else []
  {
    SelOne(LocalParity(par, c, s, i), q);
  }

  lemma {:induction false} NoParityInRun(par: Params, j: nat, i: nat, a: nat, len: nat, c: nat, s: int, i': int)
    ensures Sel(Run(par, j, i, a, len, c), ParityAt(L, s, i')) == []
  {
    SelNone(Run(par, j, i, a, len, c), ParityAt(L, s, i'));
  }

  lemma {:induction false} GatherLocal(par: Params, i: nat, a: nat, n: nat, j: nat, c: nat, s: int)
    ensures Sel(Gather(par, i, a, n, true, j, c), ParityAt(L, s, i)) ==
      if 0 <= s < j then [LocalParity(par, c, s, i)] else []
  {
    hide Sel; hide Gather; hide LocalParity;
    if j == 0 {
      GatherStep(par, i, a, n, true, 0, c, ParityAt(L, s, i));
    } else {
      GatherLocal(par, i, a, n, j - 1, c, s);
      GatherStep(par, i, a, n, true, j - 1, c, ParityAt(L, s, i));
      NoParityInRun(par, j - 1, i, a, n, c, s, i);
      OneLocal(par, c, j - 1, i, ParityAt(L, s, i));
    }
  }

  lemma {:induction false} GatherNum(par: Params, i: nat, a: nat, len: nat, parity: bool, j: nat, c: nat, n: nat)
    requires par.Ok() && i < par.l && a + len <= par.b
    ensures |Sel(Gather(par, i, a, len, parity, j, c), DataNum(n))| ==
      if GroupOf(par, n) == i && StripeOf(par, n) < j && a <= OffsetOf(par, n) < a + len then 1 else 0
  {
    hide Sel; hide Gather; hide StripeOf; hide GroupOf; hide OffsetOf; hide First;
    Decompose(par, n);
    if j == 0 {
      GatherStep(par, i, a, len, parity, 0, c, DataNum(n));
    } else {
      GatherNum(par, i, a, len, parity, j - 1, c, n);
      GatherStep(par, i, a, len, parity, j - 1, c, DataNum(n));
      OneLocal(par, c, j - 1, i, DataNum(n));
      RunSel(par, j - 1, i, a, len, c, DataNum(n));
      RunNums(par, j - 1, i, a, len, n);
    }
  }

  lemma {:induction false} GatherMembers(par: Params, i: nat, a: nat, n: nat, parity: bool, j: nat, c: nat)
    requires par.Ok() && i < par.l && a + n <= par.b && j <= par.x
    ensures forall b :: b in Gather(par, i, a, n, parity, j, c) ==>
      BlockOk(par, Ph(par), c, b) && b.group == i && (b.kind == D || (parity && b.kind == L))
  {
    if j > 0 {
      GatherMembers(par, i, a, n, parity, j - 1, c);
      RunBlocks(par, j - 1, i, a, n, c, Left(par));
    }
  }

  /** Equal shares of one group of all stripes make a source cluster. */
  lemma {:induction false} GatherClusterOk(par: Params, tails: bool, i: nat, a: nat, n: nat, parity: bool, c: nat)
    requires par.Ok() && i < par.l && a + n <= par.b && n == if parity then Left(par) else par.g + 1
    ensures ClusterOk(par, Ph(par), tails, c, Src(i, parity),
      ClusterVal(Gather(par, i, a, n, parity, par.x, c), if parity then L else D), Clean)
  {
    hide Gather; hide Sel; hide BlockOk; hide LocalParity; hide Left;
    var bs := Gather(par, i, a, n, parity, par.x, c);
    GatherMembers(par, i, a, n, parity, par.x, c);
    forall s ensures |Sel(bs, DataAt(s, i))| == (if 0 <= s < par.x then n else 0) {
      GatherData(par, i, a, n, parity, par.x, c, s);
    }
    GatherAny(par, i, a, n, parity, par.x, c);
    if parity {
      forall s ensures Sel(bs, ParityAt(L, s, i)) == (if 0 <= s < par.x then [LocalParity(par, c, s, i)] else []) {
        GatherLocal(par, i, a, n, par.x, c, s);
      }
    }
    assert par.x * 1 == par.x;
  }

  lemma {:induction false} TailClusterOk(par: Params, tails: bool, i: nat, c: nat)
    requires par.Ok() && i < par.l
    ensures ClusterOk(par, Ph(par), tails, c, Src(i, true), ClusterVal(TailBlocks(par, i, par.x, c), L), Clean)
  {
    hide ClusterOk; hide Gather; hide Full; hide Left; hide Sel;
    FullLeft(par);
    GatherClusterOk(par, tails, i, Full(par) * (par.g + 1), Left(par), true, c);
  }

  // ------------------------------------------------------------------
  // The parity cluster.

  /** Local parities of the first u pairs (group, stripe), groups outermost. */
  function LocalBlocks(par: Params, u: nat, c: nat): seq<Block>
    requires par.x >= 1
  {
    if u == 0 then [] else LocalBlocks(par, u - 1, c) + [LocalParity(par, c, (u - 1) % par.x, (u - 1) / par.x)]
  }

  function GlobBlocks(par: Params, j: nat, c: nat): seq<Block> {
    if j == 0 then [] else GlobBlocks(par, j - 1, c) + GlobalParities(par, c, j - 1)
  }

  lemma {:induction false} LocalsFound(par: Params, u: nat, c: nat, s: int, i: int)
    requires par.x >= 1 && 0 <= s < par.x && 0 <= i
    ensures Sel(LocalBlocks(par, u, c), ParityAt(L, s, i)) ==
      if PairIndex(par, s, i) < u then [LocalParity(par, c, s, i)] else []
  {
    hide PairIndex;
    PairIs(par, 0, s, i);
    if u > 0 {
      hide LocalParity;
      LocalsFound(par, u - 1, c, s, i);
      PairIs(par, u - 1, s, i);
      var j', i' := (u - 1) % par.x, (u - 1) / par.x;
      SelConcat(LocalBlocks(par, u - 1, c), [LocalParity(par, c, j', i')], ParityAt(L, s, i));
      OneLocal(par, c, j', i', ParityAt(L, s, i));
    }
  }

  lemma {:induction false} GlobalsFound(par: Params, j: nat, c: nat, s: int)
    ensures Sel(GlobBlocks(par, j, c), ParityAt(G, s, par.l)) == if 0 <= s < j then GlobalParities(par, c, s) else []
  {
    hide Sel; hide GlobalParities;
    if j == 0 {
      SelNone(GlobBlocks(par, j, c), ParityAt(G, s, par.l));
    } else {
      GlobalsFound(par, j - 1, c, s);
      SelConcat(GlobBlocks(par, j - 1, c), GlobalParities(par, c, j - 1), ParityAt(G, s, par.l));
      GlobalsOfOne(par, c, j - 1, s);
    }
  }

  lemma {:induction false} GlobalsOfOne(par: Params, c: int, j: int, s: int)
    ensures Sel(GlobalParities(par, c, j), ParityAt(G, s, par.l)) == if s == j then GlobalParities(par, c, s) else []
  {
    if s == j {
      SelAll(GlobalParities(par, c, j), ParityAt(G, s, par.l));
    } else {
      SelNone(GlobalParities(par, c, j), ParityAt(G, s, par.l));
    }
  }

  lemma {:induction false} LocalBlockOk(par: Params, j: nat, i: nat, c: nat)
    requires par.Ok() && j < par.x && i < par.l
    ensures BlockOk(par, Ph(par), c, LocalParity(par, c, j, i)) && LocalParity(par, c, j, i).kind == L
  {
    assert par.x * 1 == par.x;
  }

  lemma {:induction false} LocalMembers(par: Params, u: nat, c: nat)
    requires par.Ok() && u <= par.l * par.x
    ensures forall b :: b in LocalBlocks(par, u, c) ==> BlockOk(par, Ph(par), c, b) && b.kind == L
  {
    hide BlockOk; hide LocalParity; hide Left;
    if u > 0 {
      LocalMembers(par, u - 1, c);
      DivLess(u - 1, par.l, par.x);
      LocalBlockOk(par, (u - 1) % par.x, (u - 1) / par.x, c);
    }
  }

  lemma {:induction false} GlobMembers(par: Params, j: nat, c: nat)
    requires par.Ok() && j <= par.x
    ensures forall b :: b in GlobBlocks(par, j, c) ==> BlockOk(par, Ph(par), c, b) && b.kind == G
  {
    if j > 0 {
      GlobMembers(par, j - 1, c);
      assert forall b :: b in GlobalParities(par, c, j - 1) ==> BlockOk(par, Ph(par), c, b) && b.kind == G;
    }
  }

  /** The blocks of the parity cluster; without tails it has the local parities too. */
  function ParityBlocks(par: Params, tails: bool, c: nat): seq<Block>
    requires par.x >= 1
  {
    (if tails then [] else LocalBlocks(par, par.l * par.x, c)) + GlobBlocks(par, par.x, c)
  }

  lemma {:induction false} PairInRange(par: Params, s: int, i: int)
    requires 0 <= s < par.x && 0 <= i < par.l
    ensures 0 <= PairIndex(par, s, i) < par.l * par.x
  {
    MulMono(0, i, par.x);
    MulMono(i + 1, par.l, par.x);
    assert (i + 1) * par.x == i * par.x + par.x;
  }

  /** Blocks of another kind are not found. */
  lemma {:induction false} OtherKind(bs: seq<Block>, q: Query, kind: Kind)
    requires q.ParityAt? && q.kind != kind && forall b :: b in bs ==> b.kind == kind
    ensures Sel(bs, q) == []
  {
    hide Sel;
    forall x | 0 <= x < |bs| ensures !Hit(bs[x], q) {
      assert bs[x] in bs;
    }
    SelNone(bs, q);
  }

  lemma {:induction false} GlobalSel(par: Params, tails: bool, c: nat, s: nat)
    requires par.Ok() && s < par.x
    ensures Sel(ParityBlocks(par, tails, c), ParityAt(G, s, par.l)) == GlobalParities(par, c, s)
  {
    hide GlobalParities; hide Sel; hide LocalBlocks; hide GlobBlocks; hide BlockOk;
    var a := if tails then [] else LocalBlocks(par, par.l * par.x, c);
    LocalMembers(par, par.l * par.x, c);
    SelConcat(a, GlobBlocks(par, par.x, c), ParityAt(G, s, par.l));
    OtherKind(a, ParityAt(G, s, par.l), L);
    GlobalsFound(par, par.x, c, s);
  }

  lemma {:induction false} LocalSel(par: Params, c: nat, s: nat, i: nat)
    requires par.Ok() && s < par.x && i < par.l
    ensures Sel(ParityBlocks(par, false, c), ParityAt(L, s, i)) == [LocalParity(par, c, s, i)]
  {
    hide LocalParity; hide PairIndex; hide Sel; hide LocalBlocks; hide GlobBlocks; hide BlockOk;
    var b := GlobBlocks(par, par.x, c);
    GlobMembers(par, par.x, c);
    SelConcat(LocalBlocks(par, par.l * par.x, c), b, ParityAt(L, s, i));
    OtherKind(b, ParityAt(L, s, i), G);
    PairInRange(par, s, i);
    LocalsFound(par, par.l * par.x, c, s, i);
  }

  lemma {:induction false} ParityMembers(par: Params, tails: bool, c: nat)
    requires par.Ok()
    ensures forall b :: b in ParityBlocks(par, tails, c) ==>
      BlockOk(par, Ph(par), c, b) && (b.kind == G || (b.kind == L && !tails))
  {
    hide BlockOk; hide LocalBlocks; hide GlobBlocks;
    LocalMembers(par, par.l * par.x, c);
    GlobMembers(par, par.x, c);
  }

  lemma {:induction false} ParityClusterOk(par: Params, tails: bool, c: nat)
    requires par.Ok()
    ensures ClusterOk(par, Ph(par), tails, c, Glob, ClusterVal(ParityBlocks(par, tails, c), if tails then G else L),
      Clean)
  {
    hide ParityBlocks; hide Sel; hide BlockOk; hide LocalParity; hide GlobalParities; hide Left;
    ParityMembers(par, tails, c);
    var bs := ParityBlocks(par, tails, c);
    forall s | 0 <= s < par.x ensures Sel(bs, ParityAt(G, s, par.l)) == GlobalParities(par, c, s) {
      GlobalSel(par, tails, c, s);
    }
    if !tails {
      forall i, s | 0 <= i < par.l && 0 <= s < par.x ensures Sel(bs, ParityAt(L, s, i)) == [LocalParity(par, c, s, i)] {
        LocalSel(par, c, s, i);
      }
    }
    assert par.x * 1 == par.x;
  }

  // ------------------------------------------------------------------
  // The whole placement.

  function HasTails(par: Params): bool { Left(par) > 0 }
  function Base(par: Params): nat { par.l * par.x * Full(par) }

  function TailVal(par: Params, i: nat, c: nat): ClusterVal { ClusterVal(TailBlocks(par, i, par.x, c), L) }

  /** The tails of the first n groups, numbered from base. */
  function TailsView(par: Params, base: nat, n: nat): (r: View)
    ensures |r| == n && forall i :: 0 <= i < n ==> r[i] == TailVal(par, i, base + i)
  {
    seq(n, i requires 0 <= i < n => TailVal(par, i, base + i))
  }

  function TailCount(par: Params): nat { if HasTails(par) then par.l else 0 }
  function Gid(par: Params): nat { Base(par) + TailCount(par) }

  function ParityVal(par: Params): ClusterVal
    requires par.x >= 1
  {
    ClusterVal(ParityBlocks(par, HasTails(par), Gid(par)), if HasTails(par) then G else L)
  }

  function OptView(par: Params): (r: View)
    requires par.x >= 1
    ensures |r| == Gid(par) + 1
  {
    DataView(par, par.l * par.x) + TailsView(par, Base(par), TailCount(par)) + [ParityVal(par)]
  }

  function OptLayout(par: Params): (lay: Layout)
    ensures |lay.roles| == Gid(par) + 1 && lay.gid == Gid(par) && |lay.tail| == TailCount(par)
    ensures forall c :: 0 <= c < Base(par) ==> lay.roles[c] == Free
    ensures forall i :: 0 <= i < TailCount(par) ==>
      lay.roles[Base(par) + i] == Src(i, true) && lay.tail[i] == Base(par) + i
    ensures lay.roles[Gid(par)] == Glob
  {
    Layout(seq(Base(par), _ => Free) + seq(TailCount(par), i requires 0 <= i => Src(i, true)) + [Glob],
           seq(TailCount(par), i requires 0 <= i => Base(par) + i), Gid(par))
  }

  lemma {:induction false} OptLayoutOk(par: Params)
    requires par.Ok()
    ensures LayoutOk(par, OptLayout(par)) && Tails(OptLayout(par)) == HasTails(par)
  {
    var lay := OptLayout(par);
    hide Base; hide TailCount;
    forall c | 0 <= c < |lay.roles|
      ensures lay.roles[c] == Glob <==> c == lay.gid
      ensures lay.roles[c].Src? ==> SrcRoleOk(par, lay, c, lay.roles[c])
    {
      TailCountIs(par);
      if Base(par) <= c < Gid(par) { var i := c - Base(par); assert lay.roles[Base(par) + i] == Src(i, true); }
    }
    TailCountIs(par);
  }

  lemma {:induction false} TailCountIs(par: Params)
    requires par.Ok()
    ensures TailCount(par) == if HasTails(par) then par.l else 0
  {}

  /** Position by position. */
  lemma {:induction false} OptViewAt(par: Params, c: nat)
    requires par.Ok() && c <= Gid(par)
    ensures OptView(par)[c] ==
      if c < Base(par) then DataView(par, par.l * par.x)[c] else if c < Gid(par) then TailVal(par, c - Base(par), c)
        else ParityVal(par)
  {
    hide DataView; hide TailVal; hide ParityVal;
  }

  lemma {:induction false} OptClusterOk(par: Params, c: nat)
    requires par.Ok() && c <= Gid(par)
    ensures ClusterOk(par, Ph(par), HasTails(par), c, OptLayout(par).roles[c], OptView(par)[c], Clean)
    ensures OptLayout(par).roles[c] == Free ==> |OptView(par)[c].blocks| == par.g + 1
  {
    hide ClusterOk; hide DataView; hide OptView; hide ParityBlocks; hide TailBlocks;
    OptViewAt(par, c);
    if c < Base(par) {
      DataClusters(par, par.l * par.x, HasTails(par), c);
    } else if c < Gid(par) {
      var i := c - Base(par);
      assert OptLayout(par).roles[Base(par) + i] == Src(i, true);
      TailClusterOk(par, HasTails(par), i, c);
    } else {
      ParityClusterOk(par, HasTails(par), c);
    }
  }

  lemma {:induction false} GatherAt(par: Params, i: nat, a: nat, n: nat, parity: bool, c: nat, s: int, i': nat)
    requires par.Ok() && i < par.l && a + n <= par.b && 0 <= s < par.x
    ensures |Sel(Gather(par, i, a, n, parity, par.x, c), DataAt(s, i'))| == if i' == i then n else 0
  {
    var bs := Gather(par, i, a, n, parity, par.x, c);
    hide Gather;
    if i' == i {
      GatherData(par, i, a, n, parity, par.x, c, s);
    } else {
      GatherMembers(par, i, a, n, parity, par.x, c);
      assert forall x :: 0 <= x < |bs| ==> bs[x] in bs;
      SelNone(bs, DataAt(s, i'));
    }
  }

  lemma {:induction false} TailsTot(par: Params, base: nat, n: nat, s: int, i: nat)
    requires par.Ok() && n <= par.l && 0 <= s < par.x
    ensures Tot(TailsView(par, base, n), DataAt(s, i)) == if i < n then Left(par) else 0
  {
    hide Sel; hide Gather; hide Full; hide Left; hide Run;
    if n > 0 {
      TailsTot(par, base, n - 1, s, i);
      assert TailsView(par, base, n)[..n - 1] == TailsView(par, base, n - 1);
      FullLeft(par);
      GatherAt(par, n - 1, Full(par) * (par.g + 1), Left(par), true, base + (n - 1), s, i);
    }
  }

  lemma {:induction false} TailNum(par: Params, i: nat, c: nat, m: nat)
    requires par.Ok() && i < par.l && m < par.x * par.K()
    ensures |Sel(TailBlocks(par, i, par.x, c), DataNum(m))| ==
      if GroupOf(par, m) == i && OffsetOf(par, m) >= Full(par) * (par.g + 1) then 1 else 0
  {
    hide Sel; hide Gather; hide StripeOf; hide GroupOf; hide OffsetOf;
    NumRange(par, m);
    Decompose(par, m);
    FullLeft(par);
    GatherNum(par, i, Full(par) * (par.g + 1), Left(par), true, par.x, c, m);
  }

  lemma {:induction false} TailsNum(par: Params, base: nat, n: nat, m: nat)
    requires par.Ok() && n <= par.l && m < par.x * par.K()
    ensures Tot(TailsView(par, base, n), DataNum(m)) ==
      if GroupOf(par, m) < n && OffsetOf(par, m) >= Full(par) * (par.g + 1) then 1 else 0
  {
    hide Sel; hide StripeOf; hide GroupOf; hide OffsetOf; hide Full; hide TailBlocks;
    NumRange(par, m);
    if n > 0 {
      TailsNum(par, base, n - 1, m);
      assert TailsView(par, base, n)[..n - 1] == TailsView(par, base, n - 1);
      TailNum(par, n - 1, base + (n - 1), m);
    }
  }

  lemma {:induction false} ParitiesTot(par: Params, tails: bool, c: nat, q: Query)
    requires par.Ok() && (q.DataAt? || q.DataNum?)
    ensures Tot([ClusterVal(ParityBlocks(par, tails, c), if tails then G else L)], q) == 0
  {
    var bs := ParityBlocks(par, tails, c);
    LocalMembers(par, par.l * par.x, c);
    GlobMembers(par, par.x, c);
    assert forall x :: 0 <= x < |bs| ==> bs[x] in bs;
    SelNone(bs, q);
    assert [ClusterVal(bs, if tails then G else L)][..0] == [];
  }

  lemma {:induction false} OptTot(par: Params, q: Query)
    requires par.Ok() && (q.DataAt? || q.DataNum?)
    ensures Tot(OptView(par), q) ==
      Tot(DataView(par, par.l * par.x), q) + Tot(TailsView(par, Base(par), TailCount(par)), q)
  {
    hide Tot; hide DataView; hide ParityBlocks;
    var a, b := DataView(par, par.l * par.x), TailsView(par, Base(par), TailCount(par));
    TotConcat(a + b, [ParityVal(par)], q);
    TotConcat(a, b, q);
    ParitiesTot(par, HasTails(par), Gid(par), q);
  }

  lemma {:induction false} OptSizes(par: Params, s: int, i: nat)
    requires par.Ok() && 0 <= s < par.x && i < par.l
    ensures Tot(OptView(par), DataAt(s, i)) == par.b
  {
    hide Tot; hide Full; hide Left; hide OptView; hide PairIndex; hide DataView;
    OptTot(par, DataAt(s, i));
    PairInRange(par, s, i);
    DataTot(par, par.l * par.x, s, i);
    TailsTot(par, Base(par), TailCount(par), s, i);
    FullLeft(par);
  }

  lemma {:induction false} OptOnce(par: Params, n: nat)
    requires par.Ok() && n < par.x * par.K()
    ensures Tot(OptView(par), DataNum(n)) == 1
  {
    hide Tot; hide Full; hide Left; hide OptView; hide PairIndex; hide DataView; hide StripeOf; hide GroupOf;
    hide OffsetOf;
    OptTot(par, DataNum(n));
    NumRange(par, n);
    PairInRange(par, StripeOf(par, n), GroupOf(par, n));
    NumTot(par, par.l * par.x, n);
    TailsNum(par, Base(par), TailCount(par), n);
    FullLeft(par);
  }

  lemma {:induction false} OptViewOk(par: Params)
    requires par.Ok()
    ensures ViewOk(par, Ph(par), OptLayout(par), OptView(par), AllClean(|OptView(par)|))
  {
    hide ClusterOk; hide OptView; hide Tot; hide LayoutOk; hide Left; hide Gid;
    OptLayoutOk(par);
    assert par.x * 1 == par.x && par.b * 1 == par.b;
    forall c | 0 <= c < |OptView(par)|
      ensures ClusterOk(par, Ph(par), Tails(OptLayout(par)), c, OptLayout(par).roles[c], OptView(par)[c],
        AllClean(|OptView(par)|)[c])
    {
      OptClusterOk(par, c);
    }
    forall s, i | Live(Ph(par), s) && 0 <= i < par.l
      ensures Tot(OptView(par), DataAt(s, i)) == SizeOf(par, Ph(par), s)
    {
      OptSizes(par, s, i);
    }
    forall n | 0 <= n < par.x * par.K() ensures Tot(OptView(par), DataNum(n)) == 1 {
      OptOnce(par, n);
    }
  }

  /** The placement satisfies the merge invariant. */
  lemma {:induction false} OptRested(par: Params, places: seq<set<nat>>)
    requires par.Ok() && |places| == par.x
    requires forall s :: 0 <= s < par.x ==> PlaceOk(OptLayout(par).roles, OptView(par), s, places[s])
    ensures Rested(par, 1, par.x, Left(par), OptLayout(par), OptView(par), places)
  {
    hide ClusterOk; hide OptView; hide Tot; hide LayoutOk; hide Left; hide Gid; hide ViewOk;
    OptViewOk(par);
    forall s | 0 <= s < par.x ensures StripeOk(par, OptLayout(par).roles, OptView(par), s, places[s]) {
      forall i, c | 0 <= i < par.l && 0 <= c < |OptView(par)|
        ensures !Roomy(par, OptLayout(par).roles, OptView(par), c, s, i)
      {
        OptClusterOk(par, c);
      }
    }
  }
}
