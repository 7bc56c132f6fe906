/** Merging one batch of stripes (simulation/optimal.py, simulation/aggregated.py).
The two schemes differ only in which clusters count as shared: `agg` selects the
Aggregated one. */
module Merging {
  import opened Blocks
  import opened Clusters
  import opened MergeState
  import opened MergeRename
  import opened MergeSteps
  import opened MergeView
  import opened MergeBatch
  import opened MergeMid
  import opened MergeMove
  import opened MergeSettle
  import opened Placement
  import opened MergeCost
  import opened MergeSweep
  import opened Sums
  import opened Arith

  /** Blocks a cluster of this kind gives up: (xi - 1) g when it holds parities and
      more than g data blocks per remaining stripe; (xi - 1)(g + 1) when blocks are
      aggregated and it holds only data, more than g + 1 per remaining stripe. */
  function ToMove(g: nat, agg: bool, kind: Kind, n: nat, live: nat, xi: nat): nat
    requires live >= 1 && xi >= 1
  {
    if kind != D then if (if kind == L then CeilDiv(n, live) else n) > g then (xi - 1) * g else 0
    else if agg && n > g + 1 && CeilDiv(n, live) > g + 1 then (xi - 1) * (g + 1) else 0
  }

  /** That is exactly the surplus the batch brings. */
  lemma {:induction false} ToMoveIsDue(fr: Frame, agg: bool, lay: Layout, view: View, todos: seq<Todo>, added: seq<nat>,
          caps: seq<nat>, ph: Phase, live: nat, c: nat)
    requires Mid(fr, lay, view, todos, added, caps) && BatchFrame(fr, ph, live) && QuotaOk(fr.par, ph, Tails(lay))
    requires c < |view| == |todos| == |lay.roles| && todos[c] == BodyTodo(fr.par, ph, lay.roles[c])
    requires lay.roles[c].Src? ==> agg || lay.roles[c].parity
    ensures ToMove(fr.par.g, agg, view[c].kind, |Sel(view[c].blocks, AnyData)|, live, ph.xi) ==
      Due(fr.par, ph, lay.roles[c])
    ensures lay.roles[c].Src? && lay.roles[c].parity ==> view[c].kind == L
  {
    hide Mid; hide QuotaOk; hide Due; hide BodyTodo; hide Sel; hide ToMove; hide Surplus;
    DueIff(fr, lay, view, todos, added, caps, ph, live, c);
    BodyTodoIs(fr.par, ph, lay.roles[c]);
    var g, n := fr.par.g, |Sel(view[c].blocks, AnyData)|;
    ToMoveShared(g, agg, view[c].kind, n, live, ph.xi);
    ToMoveData(g, agg, n, live, ph.xi);
  }

  /** What a cluster with parities gives up. */
  lemma {:induction false} ToMoveShared(g: nat, agg: bool, kind: Kind, n: nat, live: nat, xi: nat)
    requires live >= 1 && xi >= 1
    ensures kind == L ==> ToMove(g, agg, kind, n, live, xi) == if n > g * live then (xi - 1) * g else 0
    ensures kind != D && n == 0 ==> ToMove(g, agg, kind, n, live, xi) == 0
  {
    CeilGt(n, live, g);
  }

  /** What a cluster with data only gives up. */
  lemma {:induction false} ToMoveData(g: nat, agg: bool, n: nat, live: nat, xi: nat)
    requires live >= 1 && xi >= 1
    ensures ToMove(g, agg, D, n, live, xi) == if agg && n > (g + 1) * live then (xi - 1) * (g + 1) else 0
    ensures n <= g + 1 ==> ToMove(g, agg, D, n, live, xi) == 0
  {
    CeilGt(n, live, g + 1);
    MulMono(1, live, g + 1);
  }

  /** Cluster c of the batch: recompute its local parities if it holds any, then
      move out what it has too much. */
  method Settle(pl: DataPlacement, agg: bool, order: seq<nat>, added0: seq<nat>, c: nat, xi: nat, live: nat, s: nat,
                ghost fr: Frame, ghost aux0: Aux, ghost ph: Phase)
    returns (dc: nat, moved: nat, added: seq<nat>, ghost aux: Aux)
    requires pl.Valid() && fr.par == pl.par && fr.order == order && fr.S() == s && xi == ph.xi >= 1 && live >= 1
    requires MidA(fr, aux0, pl.View(), added0) && BatchFrame(fr, ph, live) && QuotaOk(fr.par, ph, Tails(aux0.lay))
    requires c < |pl.clusters| == |aux0.todos| == |aux0.lay.roles|
    requires aux0.todos[c] == BodyTodo(fr.par, ph, aux0.lay.roles[c])
    requires aux0.lay.roles[c].Src? ==> agg || aux0.lay.roles[c].parity
    modifies pl`clusters, pl`numClusters, pl.clusters
    ensures pl.Valid() && MidA(fr, aux, pl.View(), added) && Settled(aux0, aux, c)
    ensures dc == moved == Due(fr.par, ph, aux0.lay.roles[c])
    ensures CapsSettled(aux0.caps, aux.caps, aux0.lay.roles[c], dc)
    ensures forall e :: 0 <= e < |pl.clusters| ==> pl.clusters[e] in old(pl.clusters) || fresh(pl.clusters[e])
  {
    hide Mid; hide QuotaOk; hide Reloc; hide Since; hide CapsSince; hide Settled; hide BodyTodo; hide Due; hide ToMove;
    hide BatchFrame;
    ghost var role := aux0.lay.roles[c];
    ToMoveIsDue(fr, agg, aux0.lay, pl.View(), aux0.todos, added0, aux0.caps, ph, live, c);
    BodyTodoIs(fr.par, ph, role);
    SinceLocals(aux0, c, aux0.todos[c].(locals := false));
    MidCaps(fr, aux0.lay, pl.View(), aux0.todos, added0, aux0.caps, c);
    moved, added, aux := 0, added0, aux0;
    dc := DataToMove(pl, agg, c, xi, live);
    if pl.clusters[c].kind == L {
      aux := pl.RefreshLocals(c, s, added, fr, aux);
      assert !aux.todos[c].locals;
    }
    assert aux.lay == aux0.lay && aux.todos[c].extra == Due(fr.par, ph, role);
    assert role == Glob ==> !aux.todos[c].globals;
    assert aux.todos[c].locals ==> pl.View()[c].kind != L;
    if dc > 0 {
      ghost var aux1 := aux;
      RelocStart(fr, aux, pl.View(), added, c, dc);
      added, moved, aux := pl.Relocate(order, added, c, s, dc, fr, aux1);
      SinceTrans(aux0, aux1, aux, c);
      assert aux.lay.roles[c] == role;
    }
    assert role != Free ==> aux.todos[c].extra == 0;
    SettleDone(fr, aux0, aux, pl.View(), added, c);
    aux := aux.(todos := aux.todos[c := Clean]);
  }

  /** How many blocks leave cluster c, from its counters. */
  method DataToMove(pl: DataPlacement, agg: bool, c: nat, xi: nat, live: nat) returns (n: nat)
    requires pl.Valid() && c < |pl.clusters| && live >= 1 && xi >= 1
    ensures n == ToMove(pl.par.g, agg, pl.View()[c].kind, |Sel(pl.View()[c].blocks, AnyData)|, live, xi)
  {
    var cluster, g := pl.clusters[c], pl.par.g;
    var m := cluster.numData;
    if agg && cluster.kind == D && m > g + 1 {
      m := CeilDiv(m, live);
    } else if cluster.kind == L {
      m := CeilDiv(m, live);
    }
    if cluster.kind != D && m > g {
      n := (xi - 1) * g;
    } else if agg && cluster.kind == D && m > g + 1 {
      n := (xi - 1) * (g + 1);
    } else {
      n := 0;
    }
  }

  /** Settles the listed clusters one after the other. */
  method SettleAll(pl: DataPlacement, agg: bool, order: seq<nat>, xi: nat, live: nat, s: nat,
                   ghost fr: Frame, ghost aux0: Aux, ghost ph: Phase)
    returns (dc: int, moved: int, added: seq<nat>, ghost aux: Aux)
    requires pl.Valid() && fr.par == pl.par && fr.order == order && fr.S() == s && xi == ph.xi
    requires Sweep(fr, ph, aux0.lay, aux0, pl.View(), [], 0) && BatchFrame(fr, ph, live)
    requires QuotaOk(fr.par, ph, Tails(aux0.lay)) && (agg || PinsAre(fr.par, aux0.lay, 0)) && LayoutOk(fr.par, aux0.lay)
    requires live >= 1 && xi >= 1
    requires |aux0.lay.roles| == |pl.clusters| && Within(order, |pl.clusters|) && Distinct(order)
    modifies pl`clusters, pl`numClusters, pl.clusters
    ensures pl.Valid() && Sweep(fr, ph, aux0.lay, aux, pl.View(), added, |order|)
    ensures dc == moved == SumAt(order, DueWeights(fr.par, ph, aux0.lay.roles))
    ensures forall e :: 0 <= e < |pl.clusters| ==> pl.clusters[e] in old(pl.clusters) || fresh(pl.clusters[e])
  {
    hide Mid; hide QuotaOk; hide TodosOk; hide CapsOk; hide Settled; hide CapsSettled; hide Due; hide LayoutOk;
    hide BodyTodo; hide PinsAre;
    dc, moved, added, aux := 0, 0, [], aux0;
    for p := 0 to |order|
      invariant pl.Valid() && Sweep(fr, ph, aux0.lay, aux, pl.View(), added, p)
      invariant dc == moved == SumAt(order[..p], DueWeights(fr.par, ph, aux0.lay.roles))
      invariant forall e :: 0 <= e < |pl.clusters| ==> pl.clusters[e] in old(pl.clusters) || fresh(pl.clusters[e])
    {
      assert order[..p + 1][..p] == order[..p];
      ghost var view0, added0, aux1 := pl.View(), added, aux;
      SweepFacts(fr, ph, aux0.lay, aux, pl.View(), added, p);
      var d, m;
      if !agg && aux0.lay.roles[order[p]].Src? { NoPins(fr.par, aux0.lay, order[p]); }
      d, m, added, aux := Settle(pl, agg, order, added, order[p], xi, live, s, fr, aux, ph);
      SweepStep(fr, ph, aux0.lay, aux1, aux, view0, pl.View(), added0, added, p);
      dc, moved := dc + d, moved + m;
    }
    assert order[..|order|] == order;
  }

  /** The costs of one batch. */
  datatype Cost = Cost(lc: int, dc: int, gc: int)

  /** Closed form of what merging one batch of phase ph costs, with f aggregated
      clusters per group. */
  function BatchCost(par: Params, cauchy: bool, ph: Phase, tails: bool, f: nat): Cost {
    Cost(if cauchy && tails then par.l else 0, BatchDc(par, ph, tails, f), BatchGc(par, ph, tails, f))
  }

  /** The hops for local parities. */
  method BatchHops(pl: DataPlacement, cauchy: bool, order: seq<nat>, xi: nat, t: nat,
                   ghost ph: Phase, ghost lay: Layout, ghost olds: seq<set<nat>>, ghost news: seq<set<nat>>)
    returns (lc: int)
    requires pl.Valid() && pl.gid == lay.gid && xi == ph.xi && t == ph.t
    requires BatchOk(pl.par, ph) && Inv(pl.par, ph, lay, pl.View(), olds, news)
    requires |olds| == ph.x && Enumerates(order, Union(olds, Lo(ph), Hi(ph))) && Within(order, |pl.clusters|)
    ensures lc == if cauchy && Tails(lay) then pl.par.l else 0
  {
    hide Inv; hide Enumerates; hide LcSum; hide Union; hide Tails; hide BatchOk;
    lc := 0;
    if cauchy {
      lc := pl.LocalCost(order, t * xi, t * xi + xi);
      LcOfBatch(pl.par, ph, lay, pl.View(), olds, news, order, pl.par.l);
    }
  }

  /** Retags the stripes of the batch. */
  method RenameBatch(pl: DataPlacement, order: seq<nat>, xi: nat, t: nat,
                     ghost ph: Phase, ghost lay: Layout, ghost olds: seq<set<nat>>, ghost news: seq<set<nat>>)
    requires pl.Valid() && xi == ph.xi && t == ph.t
    requires BatchOk(pl.par, ph) && Inv(pl.par, ph, lay, pl.View(), olds, news)
    requires |olds| == ph.x && Enumerates(order, Union(olds, Lo(ph), Hi(ph))) && Within(order, |pl.clusters|)
    modifies pl.clusters
    ensures pl.Valid() && pl.View() == RetagView(old(pl.View()), ph)
  {
    hide Inv; hide Enumerates; hide Union; hide BatchOk; hide RetagView; hide RetagVal;
    ghost var view := pl.View();
    NextOk(pl.par, ph);
    EnumeratesDistinct(order, Union(olds, Lo(ph), Hi(ph)));
    pl.Rename(order, t * xi, t * xi + xi, t);
    RenamedAll(pl.par, ph, lay, view, olds, news, order, pl.View());
  }

  /** Counts the hops for local parities, retags the batch, counts the fetches and
      recomputes the global parities. */
  method BeginBatch(pl: DataPlacement, agg: bool, cauchy: bool, order: seq<nat>, xi: nat, live: nat, t: nat,
          ghost f: nat, ghost ph: Phase, ghost lay: Layout, ghost olds: seq<set<nat>>, ghost news: seq<set<nat>>)
    returns (lc: int, gc: int)
    requires pl.Valid() && pl.gid == lay.gid && xi == ph.xi && t == ph.t
    requires BatchOk(pl.par, ph) && Inv(pl.par, ph, lay, pl.View(), olds, news) && PinsAre(pl.par, lay, f)
    requires agg || f == 0
    requires ph.x == live * xi && t < live && |olds| == ph.x && Enumerates(order, Union(olds, Lo(ph), Hi(ph)))
    requires lay.gid < |pl.clusters| && Within(order, |pl.clusters|) && RetagView(pl.View(), ph)[lay.gid].kind != D
    modifies pl.clusters
    ensures pl.Valid()
    ensures var r := RetagView(old(pl.View()), ph);
      pl.View() == r[lay.gid := NewGlobals(pl.par, Next(ph), lay.gid, r[lay.gid])]
    ensures lc == (if cauchy && Tails(lay) then pl.par.l else 0) && gc == BatchGc(pl.par, ph, Tails(lay), f)
  {
    hide Inv; hide PinsAre; hide GcOf; hide SumAt; hide NewGlobals; hide Enumerates; hide BatchGc; hide BatchOk;
    hide RetagView; hide Union; hide Tails; hide GcWeights;
    ghost var view, par := pl.View(), pl.par;
    lc := BatchHops(pl, cauchy, order, xi, t, ph, lay, olds, news);
    RenameBatch(pl, order, xi, t, ph, lay, olds, news);
    gc := pl.FetchCost(agg, order, live);
    GcOfBatch(par, agg, ph, lay, view, olds, news, order, live, f);
    pl.RecalculateGlobals(t);
    NewGlobalsIs(par, ph, lay.gid, RetagView(view, ph)[lay.gid]);
  }

  /** Merges stripes t xi .. t xi + xi - 1 into stripe t. `spanned` is the union of
      the clusters they span; it is visited in an arbitrary but fixed order. */
  method MergeOneBatch(pl: DataPlacement, agg: bool, cauchy: bool, xi: nat, live: nat, t: nat, spanned: set<nat>,
          ghost f: nat, ghost ph: Phase, ghost lay: Layout, ghost olds: seq<set<nat>>, ghost news: seq<set<nat>>)
    returns (cost: Cost, moved: int, place: set<nat>, ghost lay': Layout)
    requires pl.Valid() && pl.gid == lay.gid && xi == ph.xi && t == ph.t
    requires BatchOk(pl.par, ph) && Inv(pl.par, ph, lay, pl.View(), olds, news) && PinsAre(pl.par, lay, f)
    requires agg || f == 0
    requires ph.x == live * xi && t < live && |olds| == ph.x && spanned == Union(olds, Lo(ph), Hi(ph))
    modifies pl`clusters, pl`numClusters, pl.clusters
    ensures pl.Valid() && Inv(pl.par, Next(ph), lay', pl.View(), olds, news + [place])
    ensures Grows(lay, lay')
    ensures cost == BatchCost(pl.par, cauchy, ph, Tails(lay), f) && moved == cost.dc
    ensures forall e :: 0 <= e < |pl.clusters| ==> pl.clusters[e] in old(pl.clusters) || fresh(pl.clusters[e])
  {
    hide Inv; hide QuotaOk; hide LayoutOk; hide PinsAre; hide Sweep; hide Due; hide SumAt; hide NewGlobals;
    hide Enumerates; hide BatchGc; hide BatchDc; hide SweepAux; hide Grows;
    ghost var view, par := pl.View(), pl.par;
    var order := Visit(spanned);
    SweepStart(par, ph, lay, view, olds, news, order);
    EnumeratesDistinct(order, spanned);
    InvLayout(par, ph, lay, view, olds, news);
    SpanCovers(par, ph, lay, view, olds, news, order);
    DcOfBatch(par, ph, lay, order, f);
    var lc, gc := BeginBatch(pl, agg, cauchy, order, xi, live, t, f, ph, lay, olds, news);
    ghost var fr, aux := StartFrame(par, ph, Tails(lay), order, olds, news), SweepAux(par, ph, lay);
    SweepAuxIs(par, ph, lay);
    var dc, added;
    dc, moved, added, aux := SettleAll(pl, agg, order, xi, live, t, fr, aux, ph);
    place := spanned + (set c | c in added);
    PlaceMembers(order, spanned, added, place);
    SweepEnd(fr, ph, lay, aux, pl.View(), added, place);
    SweepGrows(fr, ph, lay, aux, pl.View(), added, |order|);
    lay' := aux.lay;
    cost := Cost(lc, dc, gc);
  }
}
