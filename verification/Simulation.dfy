/** A whole simulated run: place all stripes, merge stage by stage, and compare the
accumulated costs with the closed forms. */
module Simulation {
  import opened MergeState
  import opened Placement
  import opened Stages
  import opened InitialView
  import opened AggregatedView
  import opened CostFormula
  import opened MergingRun
  import opened RunProperties
  import OptimalPlacement
  import AggregatedPlacement

  ghost function StartLayout(par: Params, agg: bool): Layout { if agg then AggLayout(par) else OptLayout(par) }

  /** Lists of per-stage costs that equal the costs of merging equal the closed
      forms, exactly when the first stage fills the tails. */
  lemma {:induction false} ListsAgree(lc: seq<int>, dc: seq<int>, gc: seq<int>, total: seq<int>, par: Params, agg: bool,
          cauchy: bool, xs: seq<nat>)
    requires par.Ok() && ParametersOk(par, xs) && xs != [] && Prod(xs) >= 1
    requires CostsAre(lc, dc, gc, total, par, agg, cauchy, xs, |xs|)
    ensures FormulasAre(lc, dc, gc, total, par, agg, cauchy, xs, |xs|) <==> FirstFull(par, xs)
  {
    hide StageCost; hide FormulaCost; hide ParametersOk; hide FirstFull;
    RunAgrees(par, agg, cauchy, xs);
    if FormulasAre(lc, dc, gc, total, par, agg, cauchy, xs, |xs|) {
      forall n | 0 <= n < |xs| ensures StageCost(par, agg, cauchy, xs, n) == FormulaCost(par, agg, cauchy, xs, n) {
        assert lc[n] == StageCost(par, agg, cauchy, xs, n).lc && lc[n] == FormulaCost(par, agg, cauchy, xs, n).lc;
      }
    }
  }

  /** What the clusters held before the first stage and after each stage: safe every time. */
  ghost predicate AlwaysSafe(par: Params, xs: seq<nat>, views: seq<View>)
    requires Prod(xs) >= 1
  {
    |views| == |xs| + 1 && forall n :: 0 <= n <= |xs| ==> Safe(par, Prod(xs[..n]), StripesAfter(par, xs, n), views[n])
  }

  lemma {:induction false} PastSafe(par: Params, xs: seq<nat>, past: Past, first: View, last: View)
    returns (views: seq<View>)
    requires Prod(xs) >= 1 && par.Ok() && PastOk(par, xs, |xs|, past, first, last)
    ensures AlwaysSafe(par, xs, views) && views[0] == first && views[|xs|] == last
  {
    hide Safe; hide ViewAt; hide StripesAfter; hide Prod;
    views := seq(|xs| + 1, n requires 0 <= n <= |xs| => past[n].1);
    forall n | 0 <= n <= |xs| ensures Safe(par, Prod(xs[..n]), StripesAfter(par, xs, n), views[n]) {
      RunSafe(par, xs, n, past[n].0, past[n].1);
    }
  }

  /** Places x stripes and merges them through the stages xs. */
  method Simulate(par: Params, agg: bool, cauchy: bool, xs: seq<nat>)
    returns (run: StagedMerging, ok: bool, ghost lay: Layout, ghost views: seq<View>)
    requires par.Ok() && (agg ==> par.g >= 1)
    ensures run.placement.par == par && run.stageX == xs && run.agg == agg && ok == ParametersOk(par, xs)
    ensures ok <==> Prod(xs) == par.x && Fills(par, xs)
    ensures xs != [] && Prod(xs) == par.x ==> (ok <==> RoomThroughout(par, xs))
    ensures ok ==> Prod(xs) >= 1 && RestsAt(run.placement, agg, xs, |xs|, lay) && run.x == 1 && run.k == par.K() * par.x
    ensures ok ==> AlwaysSafe(par, xs, views) && views[|xs|] == run.placement.View()
    ensures ok ==> views[0] == if agg then AggView(par) else OptView(par)
    ensures ok ==> CostsAre(run.lc, run.dc, run.gc, run.total, par, agg, cauchy, xs, |xs|)
    ensures ok && xs != [] ==>
      (FormulasAre(run.lc, run.dc, run.gc, run.total, par, agg, cauchy, xs, |xs|) <==> FirstFull(par, xs))
  {
    hide RestsAt; hide Placed; hide CostsAre; hide ParametersOk; hide Prod; hide FormulasAre; hide FirstFull;
    hide AggView; hide OptView; hide NamesOk; hide PastOk; hide AlwaysSafe; hide Fills; hide RoomThroughout;
    var pl := OptimalPlacement.Generated(par);
    if agg {
      AggregatedPlacement.PlaceAggregated(pl);
    } else {
      OptimalPlacement.PlaceOptimal(pl);
    }
    run := new StagedMerging(xs, pl, agg, cauchy);
    ghost var past: Past, first := [], pl.View();
    ok, lay, past := run.StripeMerging(StartLayout(par, agg));
    views := [];
    if ok { views := PastSafe(par, xs, past, first, pl.View()); }
    if ok && xs != [] { ListsAgree(run.lc, run.dc, run.gc, run.total, par, agg, cauchy, xs); }
  }
}
