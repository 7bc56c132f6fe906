/** Every stage of staged merging (simulation/utils.py, simulation/optimal.py,
simulation/aggregated.py). */
module Stages {
  import opened Clusters
  import opened MergeState
  import opened MergeBatch
  import opened MergeView
  import opened MergeCost
  import opened MergeSweep
  import opened MergeStage
  import opened Placement
  import opened Merging
  import opened MergingRun
  import opened InitialView
  import opened Arith

  function Prod(xs: seq<nat>): nat {
    if xs == [] then 1 else Prod(xs[..|xs| - 1]) * xs[|xs| - 1]
  }

  lemma {:induction false} ProdStep(xs: seq<nat>, n: nat)
    requires n < |xs|
    ensures Prod(xs[..n + 1]) == Prod(xs[..n]) * xs[n]
  {
    assert xs[..n + 1][..n] == xs[..n];
  }

  /** A prefix product divides the whole, and is positive when the whole is. */
  lemma {:induction false} ProdPrefix(xs: seq<nat>, n: nat)
    requires n <= |xs| && Prod(xs) >= 1
    ensures Prod(xs[..n]) >= 1 && Prod(xs) % Prod(xs[..n]) == 0
    decreases |xs| - n
  {
    if n == |xs| {
      assert xs[..n] == xs;
      DivIs(Prod(xs), 1, Prod(xs));
    } else {
      ProdPrefix(xs, n + 1);
      ProdStep(xs, n);
      Factor(Prod(xs), Prod(xs[..n]), xs[n]);
    }
  }

  lemma {:induction false} Factor(x: nat, a: nat, b: nat)
    requires a * b >= 1 && x % (a * b) == 0
    ensures a >= 1 && b >= 1 && x % a == 0 && x / a == x / (a * b) * b && x / a / b == x / (a * b)
  {
    if a == 0 || b == 0 { assert false; }
    var c := x / (a * b);
    assert x == c * (a * b) == (c * b) * a;
    DivIs(x, c * b, a);
    DivIs(c * b, c, b);
  }

  /** The stages seen so far multiply up at least to the first one. */
  lemma {:induction false} ProdFirst(xs: seq<nat>, n: nat)
    requires 1 <= n <= |xs| && Prod(xs) >= 1
    ensures Prod(xs[..n]) >= xs[0]
  {
    ProdStep(xs, n - 1);
    ProdPrefix(xs, n);
    if n == 1 {
      assert xs[..0] == [];
    } else {
      ProdFirst(xs, n - 1);
      if xs[n - 1] == 0 { assert false; }
      MulGe(Prod(xs[..n - 1]), xs[n - 1]);
    }
  }

  /** Blocks of one stripe in each tail when stage n starts: m before anything was
      merged, g afterwards. */
  function TailAt(par: Params, xs: seq<nat>, n: nat): nat
    requires n <= |xs|
  {
    if Prod(xs[..n]) == 1 then Left(par) else par.g
  }

  /** The phase in which stage n starts. */
  function StagePhase(par: Params, xs: seq<nat>, n: nat): Phase
    requires n < |xs| && Prod(xs) >= 1
  {
    ProdPrefix(xs, n);
    Begin(Prod(xs[..n]), par.x / Prod(xs[..n]), xs[n], TailAt(par, xs, n))
  }

  /** Stripes left after the first n stages. */
  function StripesAfter(par: Params, xs: seq<nat>, n: nat): nat
    requires n <= |xs| && Prod(xs) >= 1
  {
    ProdPrefix(xs, n);
    par.x / Prod(xs[..n])
  }

  lemma {:induction false} StripesStep(par: Params, xs: seq<nat>, n: nat)
    requires n < |xs| && Prod(xs) == par.x >= 1
    ensures StripesAfter(par, xs, n) * Prod(xs[..n]) == par.x && xs[n] >= 1 && Prod(xs[..n]) >= 1
    ensures StripesAfter(par, xs, n) == StripesAfter(par, xs, n + 1) * xs[n]
    ensures StripesAfter(par, xs, n) / xs[n] == StripesAfter(par, xs, n + 1)
  {
    ProdPrefix(xs, n);
    ProdPrefix(xs, n + 1);
    ProdStep(xs, n);
    Factor(par.x, Prod(xs[..n]), xs[n]);
  }

  /** Aggregated clusters per group. */
  function PinsPer(par: Params, agg: bool): nat { if agg then Full(par) else 0 }

  /** What stage n costs. */
  function StageCost(par: Params, agg: bool, cauchy: bool, xs: seq<nat>, n: nat): Cost
    requires n < |xs| && Prod(xs) >= 1
  {
    if xs[n] == 1 then Free_
    else Times(StripesAfter(par, xs, n + 1),
      BatchCost(par, cauchy, StagePhase(par, xs, n), HasTails(par), PinsPer(par, agg)))
  }

  /** check_parameter. */
  predicate ParametersOk(par: Params, xs: seq<nat>) {
    var m := Left(par);
    && (m == 0 || m == par.g || (par.g % m == 0 && |xs| > 0 && xs[0] == par.g / m))
    && Prod(xs) == par.x
  }

  /** Accepted parameters leave every stage with room for its surplus. */
  lemma {:induction false} StageQuota(par: Params, xs: seq<nat>, n: nat)
    requires par.Ok() && ParametersOk(par, xs) && n < |xs|
    ensures QuotaOk(par, StagePhase(par, xs, n), HasTails(par))
  {
    FullLeft(par);
    var p, m := Prod(xs[..n]), Left(par);
    if m == 0 {
      assert par.b * p == (Full(par) * p) * (par.g + 1);
      DivIs(par.b * p, Full(par) * p, par.g + 1);
    } else if p == 1 && m != par.g {
      QuotientAboveOne(par.g, m);
      if n > 0 { ProdFirst(xs, n); assert false; }
      DivIs(par.b - m, Full(par), par.g + 1);
    }
  }

  lemma {:induction false} QuotientAboveOne(g: nat, m: nat)
    requires 0 < m < g && g % m == 0
    ensures g / m > 1 && g / m * m == g
  {
    if g / m <= 1 { MulMono(g / m, 1, m); }
  }

  /** Every stage has room for its surplus. */
  ghost predicate RoomThroughout(par: Params, xs: seq<nat>)
    requires Prod(xs) >= 1
  {
    forall n :: 0 <= n < |xs| ==> QuotaOk(par, StagePhase(par, xs, n), HasTails(par))
  }

  /** What is left of a group of b after chunks of g + 1 must be nothing, or g, or grow to
      g in the first stage. */
  predicate Fills(par: Params, xs: seq<nat>) {
    var m := par.b % (par.g + 1);
    m == 0 || m == par.g || (xs != [] && xs[0] * m == par.g)
  }

  /** check_parameter accepts exactly the runs of which every stage has room. */
  lemma {:induction false} AcceptedIff(par: Params, xs: seq<nat>)
    requires par.Ok()
    ensures ParametersOk(par, xs) <==> Prod(xs) == par.x && Fills(par, xs)
    ensures xs != [] && Prod(xs) == par.x ==> (ParametersOk(par, xs) <==> RoomThroughout(par, xs))
  {
    hide QuotaOk; hide StagePhase;
    FullLeft(par);
    var m := Left(par);
    if m != 0 && xs != [] {
      if par.g % m == 0 { assert par.g == par.g / m * m; }
      if xs[0] * m == par.g { DivIs(par.g, xs[0], m); }
    }
    if xs != [] && Prod(xs) == par.x {
      if ParametersOk(par, xs) {
        forall n | 0 <= n < |xs| ensures QuotaOk(par, StagePhase(par, xs, n), HasTails(par)) {
          StageQuota(par, xs, n);
        }
      } else {
        NoRoomAtFirst(par, xs);
      }
    }
  }

  lemma {:induction false} NoRoomAtFirst(par: Params, xs: seq<nat>)
    requires par.Ok() && xs != [] && Prod(xs) >= 1 && !Fills(par, xs)
    ensures !QuotaOk(par, StagePhase(par, xs, 0), HasTails(par))
  {
    assert xs[..0] == [];
  }

  ghost predicate CostsAre(lc: seq<int>, dc: seq<int>, gc: seq<int>, total: seq<int>, par: Params, agg: bool,
          cauchy: bool, xs: seq<nat>, n: nat)
    requires n <= |xs| && Prod(xs) >= 1
  {
    && |lc| == |dc| == |gc| == |total| == n
    && forall i :: 0 <= i < n ==> var c := StageCost(par, agg, cauchy, xs, i);
      lc[i] == c.lc && dc[i] == c.dc && gc[i] == c.gc && total[i] == c.lc + c.dc + c.gc
  }

  /** The placement is at rest between stages n - 1 and n. */
  ghost predicate RestsAt(pl: DataPlacement, agg: bool, xs: seq<nat>, n: nat, lay: Layout)
    requires n <= |xs| && Prod(xs) >= 1
    reads pl, pl.clusters
  {
    && pl.Valid() && pl.par.Ok() && pl.gid == lay.gid && Tails(lay) == HasTails(pl.par) &&
      PinsAre(pl.par, lay, PinsPer(pl.par, agg))
    && Rested(pl.par, Prod(xs[..n]), StripesAfter(pl.par, xs, n), TailAt(pl.par, xs, n), lay, pl.View(),
      Places(pl.stripes))
    && NamesOk(pl.par, Prod(xs[..n]), pl.stripes)
  }

  /** The contents of the clusters between stages n - 1 and n. */
  ghost predicate ViewAt(par: Params, xs: seq<nat>, n: nat, lay: Layout, view: View)
    requires n <= |xs| && Prod(xs) >= 1
  {
    ViewOk(par, Begin(Prod(xs[..n]), StripesAfter(par, xs, n), 1, TailAt(par, xs, n)), lay, view, AllClean(|view|))
  }

  lemma {:induction false} RestView(pl: DataPlacement, agg: bool, xs: seq<nat>, n: nat, lay: Layout)
    requires n <= |xs| && Prod(xs) >= 1 && RestsAt(pl, agg, xs, n, lay)
    ensures pl.par.Ok() && ViewAt(pl.par, xs, n, lay, pl.View())
  {
    hide ViewOk;
  }

  /** A layout and the contents it describes, before the first stage and after each of n. */
  type Past = seq<(Layout, View)>

  ghost predicate PastOk(par: Params, xs: seq<nat>, n: nat, past: Past, first: View, last: View)
    requires n <= |xs| && Prod(xs) >= 1
  {
    |past| == n + 1 && past[0].1 == first && past[n].1 == last && forall i :: 0 <= i <= n ==>
      ViewAt(par, xs, i, past[i].0, past[i].1)
  }

  lemma {:induction false} PastStep(par: Params, xs: seq<nat>, n: nat, past: Past, first: View, last: View, lay: Layout,
          view: View)
    requires n < |xs| && Prod(xs) >= 1 && PastOk(par, xs, n, past, first, last) && ViewAt(par, xs, n + 1, lay, view)
    ensures PastOk(par, xs, n + 1, past + [(lay, view)], first, view)
  {
    hide ViewAt; hide Prod;
  }

  lemma {:induction false} PastStart(par: Params, xs: seq<nat>, lay: Layout, view: View)
    requires Prod(xs) >= 1 && ViewAt(par, xs, 0, lay, view)
    ensures PastOk(par, xs, 0, [(lay, view)], view, view)
  {
    hide ViewAt; hide Prod;
  }

  /** Stage n with factor xi > 1, on a placement at rest. */
  method RunStage(pl: DataPlacement, agg: bool, cauchy: bool, xi: nat, x: nat, ghost xs: seq<nat>, ghost n: nat,
          ghost lay: Layout)
    returns (cost: Cost, moved: int, ghost lay': Layout)
    requires n < |xs| && pl.par.Ok() && ParametersOk(pl.par, xs) && xi == xs[n] > 1 && x == StripesAfter(pl.par, xs, n)
    requires RestsAt(pl, agg, xs, n, lay)
    modifies pl`clusters, pl`numClusters, pl`stripes, pl.clusters
    ensures RestsAt(pl, agg, xs, n + 1, lay') && cost == StageCost(pl.par, agg, cauchy, xs, n) && moved == cost.dc
    ensures forall e :: 0 <= e < |pl.clusters| ==> pl.clusters[e] in old(pl.clusters) || fresh(pl.clusters[e])
  {
    hide Rested; hide QuotaOk; hide PinsAre; hide Grows; hide PinsPer; hide BatchCost; hide NamesOk; hide ParametersOk;
    hide HasTails; hide Left;
    ghost var par := pl.par;
    StageQuota(par, xs, n);
    ProdPositive(par, xs);
    StripesStep(par, xs, n);
    ProdStep(xs, n);
    assert !agg ==> PinsPer(par, agg) == 0 by { PinsPerIs(par); }
    ghost var p, tau := Prod(xs[..n]), TailAt(par, xs, n);
    assert p * xi > 1 by { MulMono(1, p, xi); }
    cost, moved, lay' := MergeStripes(pl, agg, cauchy, xi, x / xi, PinsPer(par, agg), p, x, tau, lay);
    GrowsRefl(lay);
    GrowsStep(lay, lay, lay');
  }

  lemma {:induction false} PinsPerIs(par: Params)
    ensures PinsPer(par, false) == 0 && PinsPer(par, true) == Full(par)
  {}

  lemma {:induction false} ProdPositive(par: Params, xs: seq<nat>)
    requires par.Ok() && ParametersOk(par, xs)
    ensures Prod(xs) == par.x >= 1
  {}

  /** A stage with factor 1 changes nothing. */
  lemma {:induction false} SkipStage(pl: DataPlacement, agg: bool, xs: seq<nat>, n: nat, lay: Layout)
    requires n < |xs| && Prod(xs) == pl.par.x >= 1 && xs[n] == 1 && RestsAt(pl, agg, xs, n, lay)
    ensures RestsAt(pl, agg, xs, n + 1, lay)
  {
    hide Rested; hide NamesOk; hide PinsAre;
    ProdStep(xs, n);
    StripesStep(pl.par, xs, n);
  }

  /** k times the first n factors. */
  function Scaled(k: nat, xs: seq<nat>, n: nat): int
    requires n <= |xs|
  {
    k * Prod(xs[..n])
  }

  lemma {:induction false} ScaledStep(k: nat, xs: seq<nat>, n: nat)
    requires n <= |xs|
    ensures Scaled(k, xs, 0) == k && (n < |xs| ==> Scaled(k, xs, n + 1) == Scaled(k, xs, n) * xs[n])
  {
    assert xs[..0] == [];
    if n < |xs| {
      ProdStep(xs, n);
      assert k * (Prod(xs[..n]) * xs[n]) == k * Prod(xs[..n]) * xs[n];
    }
  }

  lemma {:induction false} ScaledEnd(k: nat, xs: seq<nat>)
    ensures Scaled(k, xs, |xs|) == k * Prod(xs)
  {
    assert xs[..|xs|] == xs;
  }

  /** All stripes placed, nothing merged yet. */
  ghost predicate Placed(pl: DataPlacement, agg: bool, lay: Layout)
    reads pl, pl.clusters
  {
    && pl.par.Ok() && pl.Valid() && pl.gid == lay.gid && NamesOk(pl.par, 1, pl.stripes)
    && Tails(lay) == HasTails(pl.par) && PinsAre(pl.par, lay, PinsPer(pl.par, agg))
    && Rested(pl.par, 1, pl.par.x, Left(pl.par), lay, pl.View(), Places(pl.stripes))
  }

  lemma {:induction false} PlacedOk(pl: DataPlacement, agg: bool, lay: Layout)
    requires Placed(pl, agg, lay)
    ensures pl.par.Ok()
  {}

  lemma {:induction false} StartAtRest(pl: DataPlacement, agg: bool, xs: seq<nat>, lay: Layout)
    requires Placed(pl, agg, lay) && ParametersOk(pl.par, xs)
    ensures Prod(xs) == pl.par.x >= 1 && pl.par.Ok()
    ensures RestsAt(pl, agg, xs, 0, lay) && StripesAfter(pl.par, xs, 0) == pl.par.x && Prod(xs[..0]) == 1
  {
    hide Rested; hide NamesOk; hide PinsAre;
    assert xs[..0] == [];
  }

  lemma {:induction false} EndAtOne(par: Params, xs: seq<nat>)
    requires Prod(xs) == par.x >= 1
    ensures StripesAfter(par, xs, |xs|) == 1
  {
    assert xs[..|xs|] == xs;
    DivIs(par.x, 1, par.x);
  }

  lemma {:induction false} CostsStep(lc: seq<int>, dc: seq<int>, gc: seq<int>, total: seq<int>, par: Params, agg: bool,
          cauchy: bool, xs: seq<nat>, n: nat)
    requires n < |xs| && Prod(xs) >= 1 && CostsAre(lc, dc, gc, total, par, agg, cauchy, xs, n)
    ensures var c := StageCost(par, agg, cauchy, xs, n);
      CostsAre(lc + [c.lc], dc + [c.dc], gc + [c.gc], total + [c.lc + c.dc + c.gc], par, agg, cauchy, xs, n + 1)
  {
    hide StageCost;
  }

  lemma {:induction false} StartCosts(par: Params, agg: bool, cauchy: bool, xs: seq<nat>)
    requires Prod(xs) >= 1
    ensures CostsAre([], [], [], [], par, agg, cauchy, xs, 0)
  {}

  class StagedMerging {
    const stageX: seq<nat>
    const placement: DataPlacement
    const agg: bool
    const cauchy: bool
    var x: nat
    var k: nat
    var lc: seq<int>
    var dc: seq<int>
    var gc: seq<int>
    var total: seq<int>

    constructor (stageX: seq<nat>, placement: DataPlacement, agg: bool, cauchy: bool)
      ensures this.stageX == stageX && this.placement == placement && this.agg == agg && this.cauchy == cauchy
      ensures x == Prod(stageX) && k == placement.par.K() && lc == dc == gc == total == []
    {
      this.stageX, this.placement, this.agg, this.cauchy := stageX, placement, agg, cauchy;
      x, k := Prod(stageX), placement.par.K();
      lc, dc, gc, total := [], [], [], [];
    }

    /** stripe_merging: refuses bad parameters, else runs every stage. */
    method StripeMerging(ghost lay0: Layout) returns (ok: bool, ghost lay: Layout, ghost past: Past)
      requires x == Prod(stageX) && lc == dc == gc == total == [] && Placed(placement, agg, lay0)
      modifies this, placement`clusters, placement`numClusters, placement`stripes, placement.clusters
      ensures ok == ParametersOk(placement.par, stageX)
      ensures ok <==> Prod(stageX) == placement.par.x && Fills(placement.par, stageX)
      ensures stageX != [] && Prod(stageX) == placement.par.x ==> (ok <==> RoomThroughout(placement.par, stageX))
      ensures !ok ==> unchanged(this) && unchanged(placement) && unchanged(placement.clusters)
      ensures ok ==>
        Prod(stageX) >= 1 && RestsAt(placement, agg, stageX, |stageX|, lay) && x == 1 && k == old(k) * placement.par.x
      ensures ok ==> CostsAre(lc, dc, gc, total, placement.par, agg, cauchy, stageX, |stageX|)
      ensures ok ==> PastOk(placement.par, stageX, |stageX|, past, old(placement.View()), placement.View())
    {
      hide RestsAt; hide Placed; hide CostsAre; hide StripesAfter; hide ParametersOk; hide Prod; hide PastOk;
      hide ViewAt; hide Scaled; hide RoomThroughout; hide Fills;
      PlacedOk(placement, agg, lay0);
      AcceptedIff(placement.par, stageX);
      ok := ParametersOk(placement.par, stageX);
      lay, past := lay0, [];
      if ok {
        ghost var first := placement.View();
        StartAtRest(placement, agg, stageX, lay0);
        StartCosts(placement.par, agg, cauchy, stageX);
        ScaledStep(k, stageX, 0);
        RestView(placement, agg, stageX, 0, lay0);
        PastStart(placement.par, stageX, lay0, first);
        lay, past := RunStages(lay0, [(lay0, first)]);
        EndAtOne(placement.par, stageX);
        ScaledEnd(old(k), stageX);
      }
    }

    /** After n stages; the first one started with k0 data blocks to a stripe. */
    ghost predicate AtStage(n: nat, lay: Layout, k0: nat, past: Past, first: View)
      reads this, placement, placement.clusters
    {
      && n <= |stageX| && placement.par.Ok() && ParametersOk(placement.par, stageX) && Prod(stageX) >= 1
      && x == StripesAfter(placement.par, stageX, n) && k == Scaled(k0, stageX, n)
      && RestsAt(placement, agg, stageX, n, lay) && CostsAre(lc, dc, gc, total, placement.par, agg, cauchy, stageX, n)
      && PastOk(placement.par, stageX, n, past, first, placement.View())
    }

    method RunStages(ghost lay0: Layout, ghost past0: Past) returns (ghost lay: Layout, ghost past: Past)
      requires AtStage(0, lay0, k, past0, placement.View())
      modifies this, placement`clusters, placement`numClusters, placement`stripes, placement.clusters
      ensures AtStage(|stageX|, lay, old(k), past, old(placement.View()))
    {
      hide AtStage;
      ghost var first, k0 := placement.View(), k;
      lay, past := lay0, past0;
      for n := 0 to |stageX|
        invariant AtStage(n, lay, k0, past, first)
        invariant forall e :: 0 <= e < |placement.clusters| ==>
          placement.clusters[e] in old(placement.clusters) || fresh(placement.clusters[e])
      {
        lay, past := StageTurn(n, lay, k0, past, first);
      }
    }

    /** One turn of the stage loop, with what is remembered of it. */
    method StageTurn(n: nat, ghost lay: Layout, ghost k0: nat, ghost past: Past, ghost first: View)
      returns (ghost lay': Layout, ghost past': Past)
      requires n < |stageX| && AtStage(n, lay, k0, past, first)
      modifies this, placement`clusters, placement`numClusters, placement`stripes, placement.clusters
      ensures AtStage(n + 1, lay', k0, past', first)
      ensures forall e :: 0 <= e < |placement.clusters| ==>
        placement.clusters[e] in old(placement.clusters) || fresh(placement.clusters[e])
    {
      hide RestsAt; hide CostsAre; hide StripesAfter; hide ParametersOk; hide Prod; hide ViewAt; hide PastOk;
      hide Scaled;
      ghost var before := placement.View();
      ScaledStep(k0, stageX, n);
      lay' := NextStage(n, lay);
      RestView(placement, agg, stageX, n + 1, lay');
      PastStep(placement.par, stageX, n, past, first, before, lay', placement.View());
      past' := past + [(lay', placement.View())];
    }

    /** One turn of the stage loop. */
    method NextStage(n: nat, ghost lay: Layout) returns (ghost lay': Layout)
      requires n < |stageX| && placement.par.Ok() && ParametersOk(placement.par, stageX) && Prod(stageX) >= 1
      requires x == StripesAfter(placement.par, stageX, n)
      requires RestsAt(placement, agg, stageX, n, lay)
      requires CostsAre(lc, dc, gc, total, placement.par, agg, cauchy, stageX, n)
      modifies this, placement`clusters, placement`numClusters, placement`stripes, placement.clusters
      ensures x == StripesAfter(placement.par, stageX, n + 1) && k == old(k) * stageX[n]
      ensures RestsAt(placement, agg, stageX, n + 1, lay')
      ensures CostsAre(lc, dc, gc, total, placement.par, agg, cauchy, stageX, n + 1)
      ensures forall e :: 0 <= e < |placement.clusters| ==>
        placement.clusters[e] in old(placement.clusters) || fresh(placement.clusters[e])
    {
      hide RestsAt; hide CostsAre; hide StripesAfter; hide ParametersOk; hide Times; hide BatchCost;
      ProdPositive(placement.par, stageX);
      StripesStep(placement.par, stageX, n);
      var xi := stageX[n];
      var cost := Free_;
      lay' := lay;
      if xi > 1 {
        var moved;
        cost, moved, lay' := RunStage(placement, agg, cauchy, xi, x, stageX, n, lay);
      } else {
        SkipStage(placement, agg, stageX, n, lay);
      }
      CostsStep(lc, dc, gc, total, placement.par, agg, cauchy, stageX, n);
      x, k := x / xi, k * xi;
      lc, dc, gc, total := lc + [cost.lc], dc + [cost.dc], gc + [cost.gc], total + [cost.lc + cost.dc + cost.gc];
    }
  }
}
