/** One stage of staged merging: every batch, its costs, and the state it leaves
behind. */
module MergingRun {
  import opened Clusters
  import opened MergeState
  import opened MergeRename
  import opened MergeView
  import opened MergeBatch
  import opened MergeCost
  import opened MergeSweep
  import opened MergeStage
  import opened Placement
  import opened Stripes
  import opened Merging
  import opened Arith

  function Places(stripes: seq<Stripe>): (r: seq<set<nat>>)
    ensures |r| == |stripes| && forall s :: 0 <= s < |r| ==> r[s] == stripes[s].place
  {
    seq(|stripes|, s requires 0 <= s < |stripes| => stripes[s].place)
  }

  function Infos(stripes: seq<Stripe>): (r: seq<seq<seq<BlockId>>>)
    ensures |r| == |stripes| && forall s :: 0 <= s < |r| ==> r[s] == stripes[s].info
  {
    seq(|stripes|, s requires 0 <= s < |stripes| => stripes[s].info)
  }

  /** Stripe s is named s and lists its own blocks. */
  ghost predicate NamesOk(par: Params, p: nat, stripes: seq<Stripe>) {
    forall s :: 0 <= s < |stripes| ==> stripes[s].id == s && InfoOk(par, p, s, stripes[s].info)
  }

  function Plus(a: Cost, b: Cost): Cost { Cost(a.lc + b.lc, a.dc + b.dc, a.gc + b.gc) }
  function Times(n: nat, c: Cost): Cost { Cost(n * c.lc, n * c.dc, n * c.gc) }
  const Free_: Cost := Cost(0, 0, 0)

  lemma {:induction false} TimesStep(n: nat, c: Cost)
    ensures Plus(Times(n, c), c) == Times(n + 1, c) && Times(0, c) == Free_
  {}

  method Span(stripes: seq<Stripe>, lo: nat, hi: nat) returns (cs: set<nat>)
    requires lo <= hi <= |stripes|
    ensures cs == Union(Places(stripes), lo, hi)
  {
    cs := {};
    for j := lo to hi
      invariant cs == Union(Places(stripes), lo, j)
    {
      cs := cs + stripes[j].place;
    }
  }

  /** The phase of batch t in a stage. */
  function BatchPhase(p: nat, x: nat, xi: nat, tau: nat, t: nat): Phase { Phase(p, x, xi, t, tau) }

  lemma {:induction false} BatchPhaseOk(par: Params, p: nat, x: nat, xi: nat, tau: nat, live: nat, t: nat)
    requires par.Ok() && p >= 1 && xi >= 1 && x * p == par.x && x == live * xi && t < live
    ensures BatchOk(par, BatchPhase(p, x, xi, tau, t)) && t * xi + xi <= x && t * xi == Lo(BatchPhase(p, x, xi, tau, t))
  {
    MulMono(t + 1, live, xi);
    assert (t + 1) * xi == t * xi + xi;
  }

  /** Batch t of a stage: the merged stripe and what it cost. */
  method MergeNext(pl: DataPlacement, agg: bool, cauchy: bool, xi: nat, live: nat, t: nat,
                   ghost f: nat, ghost p: nat, ghost x: nat, ghost tau: nat, ghost lay: Layout, ghost news: seq<Stripe>)
    returns (stripe: Stripe, cost: Cost, moved: int, ghost lay': Layout)
    requires pl.Valid() && pl.gid == lay.gid && PinsAre(pl.par, lay, f) && (agg || f == 0) && xi >= 1 && x == live * xi
    requires x * p == pl.par.x && p >= 1 && pl.par.Ok()
    requires t < live && |news| == t && |pl.stripes| == x && NamesOk(pl.par, p, pl.stripes)
    requires Inv(pl.par, BatchPhase(p, x, xi, tau, t), lay, pl.View(), Places(pl.stripes), Places(news))
    modifies pl`clusters, pl`numClusters, pl.clusters
    ensures pl.Valid() && Grows(lay, lay')
    ensures Inv(pl.par, BatchPhase(p, x, xi, tau, t + 1), lay', pl.View(), Places(pl.stripes), Places(news + [stripe]))
    ensures stripe.id == t && InfoOk(pl.par, p * xi, t, stripe.info)
    ensures cost == BatchCost(pl.par, cauchy, Begin(p, x, xi, tau), Tails(lay), f) && moved == cost.dc
    ensures forall e :: 0 <= e < |pl.clusters| ==> pl.clusters[e] in old(pl.clusters) || fresh(pl.clusters[e])
  {
    hide Inv; hide PinsAre; hide Grows; hide BatchCost; hide InfoOk;
    ghost var ph := BatchPhase(p, x, xi, tau, t);
    BatchPhaseOk(pl.par, p, x, xi, tau, live, t);
    var info := MergeInfos(pl.par, p, Infos(pl.stripes), t, xi);
    var spanned := Span(pl.stripes, t * xi, t * xi + xi);
    BatchCostSame(pl.par, cauchy, ph, Begin(p, x, xi, tau), Tails(lay), f);
    var place;
    cost, moved, place, lay' :=
      MergeOneBatch(pl, agg, cauchy, xi, live, t, spanned, f, ph, lay, Places(pl.stripes), Places(news));
    stripe := Stripe(t, info, place);
    assert Places(news + [stripe]) == Places(news) + [place];
  }

  /** One stage with factor xi > 1: merges every xi stripes. */
  method MergeStripes(pl: DataPlacement, agg: bool, cauchy: bool, xi: nat, live: nat, ghost f: nat, ghost p: nat,
          ghost x: nat, ghost tau: nat, ghost lay: Layout)
    returns (cost: Cost, moved: int, ghost lay': Layout)
    requires pl.Valid() && pl.gid == lay.gid && PinsAre(pl.par, lay, f) && (agg || f == 0) && xi >= 1 && x == live * xi
    requires x * p == pl.par.x
    requires Rested(pl.par, p, x, tau, lay, pl.View(), Places(pl.stripes)) && NamesOk(pl.par, p, pl.stripes)
    requires QuotaOk(pl.par, Begin(p, x, xi, tau), Tails(lay)) && p >= 1
    modifies pl`clusters, pl`numClusters, pl`stripes, pl.clusters
    ensures pl.Valid() && Grows(lay, lay')
    ensures Rested(pl.par, p * xi, live, pl.par.g, lay', pl.View(), Places(pl.stripes))
    ensures NamesOk(pl.par, p * xi, pl.stripes)
    ensures cost == Times(live, BatchCost(pl.par, cauchy, Begin(p, x, xi, tau), Tails(lay), f)) && moved == cost.dc
    ensures forall e :: 0 <= e < |pl.clusters| ==> pl.clusters[e] in old(pl.clusters) || fresh(pl.clusters[e])
  {
    hide Inv; hide Rested; hide QuotaOk; hide PinsAre; hide Grows; hide BatchCost; hide InfoOk;
    ghost var par := pl.par;
    BeginStage(par, p, x, xi, tau, lay, pl.View(), Places(pl.stripes));
    InvLayout(par, Begin(p, x, xi, tau), lay, pl.View(), Places(pl.stripes), []);
    GrowsRefl(lay);
    ghost var one := BatchCost(par, cauchy, Begin(p, x, xi, tau), Tails(lay), f);
    TimesStep(0, one);
    cost, moved, lay' := Free_, 0, lay;
    var news: seq<Stripe> := [];
    assert Places(news) == [];
    for t := 0 to live
      invariant pl.Valid() && pl.stripes == old(pl.stripes) && |news| == t && Grows(lay, lay') && PinsAre(par, lay', f)
      invariant pl.gid == lay'.gid
      invariant Tails(lay') == Tails(lay)
      invariant Inv(par, BatchPhase(p, x, xi, tau, t), lay', pl.View(), Places(pl.stripes), Places(news))
      invariant NamesOk(par, p * xi, news) && cost == Times(t, one) && moved == cost.dc
      invariant forall e :: 0 <= e < |pl.clusters| ==> pl.clusters[e] in old(pl.clusters) || fresh(pl.clusters[e])
    {
      TimesStep(t, one);
      var stripe, c, m;
      ghost var before := lay';
      stripe, c, m, lay' := MergeNext(pl, agg, cauchy, xi, live, t, f, p, x, tau, lay', news);
      GrowsStep(lay, before, lay');
      cost, moved := Plus(cost, c), moved + m;
      news := news + [stripe];
    }
    ghost var view := pl.View();
    EndStage(par, BatchPhase(p, x, xi, tau, live), lay', view, Places(pl.stripes), Places(news));
    pl.stripes := news;
    assert pl.View() == view;
  }

  lemma {:induction false} GrowsRefl(lay: Layout)
    ensures Grows(lay, lay)
  {}

  lemma {:induction false} GrowsStep(lay0: Layout, lay: Layout, lay': Layout)
    requires Grows(lay0, lay) && Grows(lay, lay')
    ensures Grows(lay0, lay') && Tails(lay') == Tails(lay) && lay'.gid == lay.gid
    ensures forall par, f :: PinsAre(par, lay, f) ==> PinsAre(par, lay', f)
  {
    forall i { GrowsPins(lay, lay', i); }
  }

  lemma {:induction false} GrowsPins(lay: Layout, lay': Layout, i: int)
    requires Grows(lay, lay')
    ensures PinCount(lay.roles, i) == PinCount(lay'.roles, i)
    decreases |lay'.roles|
  {
    var n := |lay'.roles|;
    if n > |lay.roles| {
      GrowsPins(lay, lay'.(roles := lay'.roles[..n - 1]), i);
    } else {
      assert lay'.roles == lay.roles;
    }
  }

  lemma {:induction false} BatchCostSame(par: Params, cauchy: bool, ph: Phase, ph': Phase, tails: bool, f: nat)
    requires ph.p == ph'.p && ph.xi == ph'.xi && ph.tau == ph'.tau
    ensures BatchCost(par, cauchy, ph, tails, f) == BatchCost(par, cauchy, ph', tails, f)
  {}
}
