/** Between stages: the state after a stage is the start state of the next one,
with xi times larger stripes and full tails. */
module MergeStage {
  import opened Blocks
  import opened Clusters
  import opened MergeState
  import opened MergeView
  import opened MergeBatch
  import opened MergeCost
  import opened Arith

  /** Two phases describe the same stripes. */
  ghost predicate SamePhase(par: Params, ph: Phase, ph': Phase) {
    && PhaseOk(par, ph) && PhaseOk(par, ph')
    && (forall s :: Live(ph, s) <==> Live(ph', s))
    && (forall o :: 0 <= o < par.x ==> TagOf(ph, o) == TagOf(ph', o))
    && (forall s, parity :: Live(ph, s) ==> Need(par, ph, parity, s, 0) == Need(par, ph', parity, s, 0))
    && (forall parity :: TotalNeed(par, ph, parity, 0) == TotalNeed(par, ph', parity, 0))
    && (forall s :: Live(ph, s) ==> SizeOf(par, ph, s) == SizeOf(par, ph', s))
  }

  lemma {:induction false} SameBlock(par: Params, ph: Phase, ph': Phase, c: int, b: Block)
    requires par.Ok() && SamePhase(par, ph, ph') && BlockOk(par, ph, c, b)
    ensures BlockOk(par, ph', c, b)
  {
    if b.kind == D {
      MulGe(par.l, par.b);
      DivLess(b.num, par.x, par.K());
    }
  }

  lemma {:induction false} SameLocal(par: Params, ph: Phase, ph': Phase, c: int, v: ClusterVal, i: int)
    requires SamePhase(par, ph, ph') && LocalOk(par, ph, c, v, i, false)
    ensures LocalOk(par, ph', c, v, i, false)
  {}

  lemma {:induction false} SameCluster(par: Params, ph: Phase, ph': Phase, tails: bool, c: int, role: Role,
          v: ClusterVal)
    requires SamePhase(par, ph, ph') && ClusterOk(par, ph, tails, c, role, v, Clean)
    ensures ClusterOk(par, ph', tails, c, role, v, Clean)
  {
    forall b | b in v.blocks ensures BlockOk(par, ph', c, b) { SameBlock(par, ph, ph', c, b); }
    if role == Glob && !tails {
      forall i | 0 <= i < par.l ensures LocalOk(par, ph', c, v, i, false) {
        assert LocalOk(par, ph, c, v, i, Clean.locals);
        SameLocal(par, ph, ph', c, v, i);
      }
    }
  }

  lemma {:induction false} SameView(par: Params, ph: Phase, ph': Phase, lay: Layout, view: View)
    requires SamePhase(par, ph, ph') && ViewOk(par, ph, lay, view, AllClean(|view|))
    ensures ViewOk(par, ph', lay, view, AllClean(|view|))
  {
    forall c | 0 <= c < |view| ensures ClusterOk(par, ph', Tails(lay), c, lay.roles[c], view[c], AllClean(|view|)[c]) {
      SameCluster(par, ph, ph', Tails(lay), c, lay.roles[c], view[c]);
    }
  }

  /** The phase at the start of a stage with factor xi. */
  function Begin(p: nat, x: nat, xi: nat, tau: nat): Phase { Phase(p, x, xi, 0, tau) }

  /** The state between stages: x stripes of p original ones, tau data blocks of
      each in each tail, `places[s]` the clusters stripe s spans. */
  ghost predicate Rested(par: Params, p: nat, x: nat, tau: nat, lay: Layout, view: View, places: seq<set<nat>>) {
    && ViewOk(par, Begin(p, x, 1, tau), lay, view, AllClean(|view|))
    && |places| == x
    && forall s :: 0 <= s < x ==> StripeOk(par, lay.roles, view, s, places[s])
  }

  lemma {:induction false} BeginSame(par: Params, p: nat, x: nat, xi: nat, tau: nat)
    requires p >= 1 && xi >= 1 && x * p == par.x
    ensures SamePhase(par, Begin(p, x, 1, tau), Begin(p, x, xi, tau))
  {}

  lemma {:induction false} BeginStage(par: Params, p: nat, x: nat, xi: nat, tau: nat, lay: Layout, view: View,
          places: seq<set<nat>>)
    requires Rested(par, p, x, tau, lay, view, places) && xi >= 1 && QuotaOk(par, Begin(p, x, xi, tau), Tails(lay))
    ensures Inv(par, Begin(p, x, xi, tau), lay, view, places, [])
  {
    BeginSame(par, p, x, xi, tau);
    hide ViewOk; hide QuotaOk; hide StripeOk; hide SamePhase;
    SameView(par, Begin(p, x, 1, tau), Begin(p, x, xi, tau), lay, view);
  }

  lemma {:induction false} EndSame(par: Params, ph: Phase)
    requires par.Ok() && PhaseOk(par, ph) && ph.t * ph.xi == ph.x
    ensures SamePhase(par, ph, Begin(ph.p * ph.xi, ph.t, 1, par.g))
  {
    var ph' := Begin(ph.p * ph.xi, ph.t, 1, par.g);
    assert ph.t * (ph.p * ph.xi) == par.x;
    MulGe(ph.p, ph.xi);
    forall o | 0 <= o < par.x ensures TagOf(ph, o) == TagOf(ph', o) {
      DivLess(o, ph.x, ph.p);
      DivDiv(o, ph.p, ph.xi);
    }
    assert par.b * ph.p * ph.xi == par.b * (ph.p * ph.xi);
    MulGe(ph.t, ph.xi);
  }

  lemma {:induction false} EndStage(par: Params, ph: Phase, lay: Layout, view: View, olds: seq<set<nat>>,
          news: seq<set<nat>>)
    requires Inv(par, ph, lay, view, olds, news) && ph.t * ph.xi == ph.x
    ensures Rested(par, ph.p * ph.xi, ph.t, par.g, lay, view, news)
  {
    hide Inv; hide ViewOk; hide StripeOk; hide SamePhase; hide QuotaOk;
    InvLayout(par, ph, lay, view, olds, news);
    InvView2(par, ph, lay, view, olds, news);
    EndSame(par, ph);
    SameView(par, ph, Begin(ph.p * ph.xi, ph.t, 1, par.g), lay, view);
    forall s | 0 <= s < ph.t ensures StripeOk(par, lay.roles, view, s, news[s]) {
      InvStripe(par, ph, lay, view, olds, news, s);
    }
  }

  lemma {:induction false} InvView2(par: Params, ph: Phase, lay: Layout, view: View, olds: seq<set<nat>>,
          news: seq<set<nat>>)
    requires Inv(par, ph, lay, view, olds, news)
    ensures ViewOk(par, ph, lay, view, AllClean(|view|))
  {}

  lemma {:induction false} InvStripe(par: Params, ph: Phase, lay: Layout, view: View, olds: seq<set<nat>>,
          news: seq<set<nat>>, s: int)
    requires Inv(par, ph, lay, view, olds, news) && Live(ph, s)
    ensures |lay.roles| == |view| && StripeOk(par, lay.roles, view, s, PlaceFor(ph, olds, news, s))
  {}
}
