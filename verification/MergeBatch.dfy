/** One batch of a merge stage, from a clean state to a clean state. */
module MergeBatch {
  import opened Blocks
  import opened Clusters
  import opened MergeState
  import opened MergeRename
  import opened MergeSteps
  import opened MergeView
  import opened MergeFit
  import opened FirstFit
  import opened Sums
  import opened Arith

  /** Each tail keeps g data blocks per stripe from the first real merge on; up to
      then it holds tau of them, the groups outside it fill whole clusters and xi
      merged tails make exactly g. Without tails everything fills whole clusters. */
  ghost predicate QuotaOk(par: Params, ph: Phase, tails: bool) {
    if tails then
      && par.g >= 1 && ph.tau >= 1
      && (ph.tau == par.g || (ph.xi * ph.tau == par.g && (par.b * ph.p - ph.tau) % (par.g + 1) == 0))
    else par.b * ph.p % (par.g + 1) == 0
  }

  function PlaceFor(ph: Phase, olds: seq<set<nat>>, news: seq<set<nat>>, s: int): set<nat> {
    if 0 <= s < ph.t && s < |news| then news[s] else if 0 <= s < |olds| then olds[s] else {}
  }

  /** Stripe s in good order: recorded where it is, at most one cluster with room per group. */
  ghost predicate StripeOk(par: Params, roles: seq<Role>, view: View, s: int, place: set<nat>)
    requires |roles| == |view|
  {
    && PlaceOk(roles, view, s, place)
    && forall i :: 0 <= i < par.l ==> OnePartial(par, roles, view, s, i)
  }

  /** The invariant between two batches. */
  ghost predicate Inv(par: Params, ph: Phase, lay: Layout, view: View, olds: seq<set<nat>>, news: seq<set<nat>>) {
    && ViewOk(par, ph, lay, view, AllClean(|view|))
    && QuotaOk(par, ph, Tails(lay))
    && |olds| == ph.x && |news| == ph.t
    && forall s :: Live(ph, s) ==> StripeOk(par, lay.roles, view, s, PlaceFor(ph, olds, news, s))
  }

  // ------------------------------------------------------------------
  // Start of a batch.

  lemma {:induction false} SurplusOk(par: Params, ph: Phase, tails: bool, parity: bool)
    requires QuotaOk(par, ph, tails) && ph.xi >= 1 && (parity ==> tails)
    ensures Surplus(par, ph, parity) == if parity && ph.tau != par.g then 0 else (ph.xi - 1) * NewQuota(par, parity)
    ensures Surplus(par, ph, parity) >= 0
  {
    var q := NewQuota(par, parity);
    if !(parity && ph.tau != par.g) {
      assert ph.xi * q - q == (ph.xi - 1) * q;
      MulMono(0, ph.xi - 1, q);
    }
  }

  /** The work outstanding right after retagging. */
  function StartTodo(par: Params, ph: Phase, role: Role): Todo {
    var e := if role.Src? then Surplus(par, ph, role.parity) else 0;
    Todo(true, true, if e < 0 then 0 else e)
  }

  function StartTodos(par: Params, ph: Phase, roles: seq<Role>): (r: seq<Todo>)
    ensures |r| == |roles| && forall c :: 0 <= c < |r| ==> r[c] == StartTodo(par, ph, roles[c])
  {
    seq(|roles|, c requires 0 <= c < |roles| => StartTodo(par, ph, roles[c]))
  }

  lemma {:induction false} RetagAt(par: Params, ph: Phase, lay: Layout, view: View, c: nat)
    requires BatchOk(par, ph) && LayoutOk(par, lay) && QuotaOk(par, ph, Tails(lay))
    requires |lay.roles| == |view| && c < |view|
    requires ClusterOk(par, ph, Tails(lay), c, lay.roles[c], view[c], Clean)
    ensures ClusterOk(par, Next(ph), Tails(lay), c, lay.roles[c], RetagView(view, ph)[c],
      StartTodo(par, ph, lay.roles[c]))
  {
    var role := lay.roles[c];
    if role.Src? {
      assert SrcRoleOk(par, lay, c, role);
      SurplusOk(par, ph, Tails(lay), role.parity);
    }
    RetagClusterOk(par, ph, Tails(lay), c, role, view[c]);
  }

  lemma {:induction false} NoStrayHere(par: Params, ph: Phase, lay: Layout, view: View)
    requires BatchOk(par, ph) && ViewOk(par, ph, lay, view, AllClean(|view|))
    ensures NoStray(view, ph)
  {
    forall c, b | 0 <= c < |view| && b in view[c].blocks ensures b.stripe != ph.t || Lo(ph) <= ph.t < Hi(ph) {
      assert ClusterOk(par, ph, Tails(lay), c, lay.roles[c], view[c], AllClean(|view|)[c]);
      assert BlockOk(par, ph, c, b);
      LiveStep(par, ph, b.stripe);
    }
  }

  lemma {:induction false} RetagViewOk(par: Params, ph: Phase, lay: Layout, view: View)
    requires BatchOk(par, ph) && ViewOk(par, ph, lay, view, AllClean(|view|)) && QuotaOk(par, ph, Tails(lay))
    ensures ViewOk(par, Next(ph), lay, RetagView(view, ph), StartTodos(par, ph, lay.roles))
  {
    NextOk(par, ph);
    NoStrayHere(par, ph, lay, view);
    RetagTotOk(par, ph, view);
    var r, todos := RetagView(view, ph), StartTodos(par, ph, lay.roles);
    forall c | 0 <= c < |r| ensures ClusterOk(par, Next(ph), Tails(lay), c, lay.roles[c], r[c], todos[c]) {
      RetagAt(par, ph, lay, view, c);
    }
  }

  /** Who owns a free cluster after retagging. */
  lemma {:induction false} RetagOwner(ph: Phase, view: View, c: nat)
    requires c < |view| && view[c].blocks != []
    ensures var b, b' := view[c].blocks[0], RetagView(view, ph)[c].blocks[0];
      && b'.group == b.group && |RetagView(view, ph)[c].blocks| == |view[c].blocks|
      && b'.stripe == if Lo(ph) <= b.stripe < Hi(ph) then ph.t else b.stripe
  {}

  lemma {:induction false} RetagRoomyOther(par: Params, ph: Phase, roles: seq<Role>, view: View, c: int, s: int, i: int)
    requires |roles| == |view| && s != ph.t && !(Lo(ph) <= s < Hi(ph))
    ensures Roomy(par, roles, RetagView(view, ph), c, s, i) <==> Roomy(par, roles, view, c, s, i)
  {
    if 0 <= c < |view| && view[c].blocks != [] { RetagOwner(ph, view, c); }
  }

  lemma {:induction false} RetagStripeOk(par: Params, ph: Phase, roles: seq<Role>, view: View, s: int, place: set<nat>)
    requires |roles| == |view| && s != ph.t && !(Lo(ph) <= s < Hi(ph))
    requires StripeOk(par, roles, view, s, place)
    ensures StripeOk(par, roles, RetagView(view, ph), s, place)
  {
    var r := RetagView(view, ph);
    forall c | 0 <= c < |view| ensures
      (r[c].blocks != [] && r[c].blocks[0].stripe == s) <==> (view[c].blocks != [] && view[c].blocks[0].stripe == s)
    {
      if view[c].blocks != [] { RetagOwner(ph, view, c); }
    }
    forall i | 0 <= i < par.l ensures OnePartial(par, roles, r, s, i) {
      assert OnePartial(par, roles, view, s, i);
      forall c, d | Roomy(par, roles, r, c, s, i) && Roomy(par, roles, r, d, s, i) ensures c == d {
        RetagRoomyOther(par, ph, roles, view, c, s, i);
        RetagRoomyOther(par, ph, roles, view, d, s, i);
      }
    }
  }

  /** All stripes but the newest are in order. */
  ghost predicate OthersOk(par: Params, ph: Phase, roles: seq<Role>, view: View, olds: seq<set<nat>>,
          news: seq<set<nat>>)
    requires |roles| == |view|
  {
    forall s :: Live(ph, s) && s != ph.t - 1 ==> StripeOk(par, roles, view, s, PlaceFor(ph, olds, news, s))
  }

  lemma {:induction false} RetagOthersOk(par: Params, ph: Phase, lay: Layout, view: View, olds: seq<set<nat>>,
          news: seq<set<nat>>)
    requires BatchOk(par, ph) && Inv(par, ph, lay, view, olds, news)
    ensures OthersOk(par, Next(ph), lay.roles, RetagView(view, ph), olds, news)
  {
    forall s | Live(Next(ph), s) && s != ph.t
      ensures StripeOk(par, lay.roles, RetagView(view, ph), s, PlaceFor(Next(ph), olds, news, s))
    {
      LiveStep(par, ph, s);
      RetagStripeOk(par, ph, lay.roles, view, s, PlaceFor(ph, olds, news, s));
    }
  }

  // ------------------------------------------------------------------
  // The clusters a batch spans.

  function Union(places: seq<set<nat>>, lo: nat, hi: nat): set<nat>
    requires lo <= hi <= |places|
  {
    if lo == hi then {} else Union(places, lo, hi - 1) + places[hi - 1]
  }

  lemma {:induction false} UnionMembers(places: seq<set<nat>>, lo: nat, hi: nat, c: nat)
    requires lo <= hi <= |places|
    ensures c in Union(places, lo, hi) <==> exists s :: lo <= s < hi && c in places[s]
  {
    if lo < hi { UnionMembers(places, lo, hi - 1, c); }
  }

  /** `order` lists the set once each, in some order. */
  ghost predicate Enumerates(order: seq<nat>, cs: set<nat>) {
    Distinct(order) && forall c :: c in order <==> c in cs
  }

  /** The batch spans the shared clusters and the free clusters of its stripes. */
  lemma {:induction false} BatchSpan(par: Params, ph: Phase, roles: seq<Role>, view: View, olds: seq<set<nat>>, c: nat)
    requires |roles| == |view| && |olds| == ph.x && Hi(ph) <= ph.x && ph.xi >= 1
    requires forall s :: Lo(ph) <= s < Hi(ph) ==> PlaceOk(roles, view, s, olds[s])
    ensures c in Union(olds, Lo(ph), Hi(ph)) <==>
      c < |view| && (roles[c] == Free ==> view[c].blocks != [] && Lo(ph) <= view[c].blocks[0].stripe < Hi(ph))
  {
    UnionMembers(olds, Lo(ph), Hi(ph), c);
    if c < |view| {
      if roles[c] != Free {
        assert PlaceOk(roles, view, Lo(ph), olds[Lo(ph)]);
      } else if view[c].blocks != [] && Lo(ph) <= view[c].blocks[0].stripe < Hi(ph) {
        assert PlaceOk(roles, view, view[c].blocks[0].stripe, olds[view[c].blocks[0].stripe]);
      }
    }
  }

  lemma {:induction false} StartListed(par: Params, ph: Phase, roles: seq<Role>, view: View, olds: seq<set<nat>>,
          order: seq<nat>)
    requires |roles| == |view| && |olds| == ph.x && Hi(ph) <= ph.x && ph.xi >= 1
    requires forall s :: Lo(ph) <= s < Hi(ph) ==> PlaceOk(roles, view, s, olds[s])
    requires Enumerates(order, Union(olds, Lo(ph), Hi(ph)))
    requires forall c ::
      0 <= c < |view| && roles[c] == Free && view[c].blocks != [] && view[c].blocks[0].stripe == ph.t ==>
        Lo(ph) <= ph.t < Hi(ph)
    ensures Listed(roles, RetagView(view, ph), order, [], ph.t)
    ensures Spans(roles, RetagView(view, ph), order, ph.t)
  {
    var r := RetagView(view, ph);
    forall p | 0 <= p < |order|
      ensures order[p] < |view| && (roles[order[p]] != Free || Opened(roles, r, order[p], ph.t))
    {
      assert order[p] in order;
      BatchSpan(par, ph, roles, view, olds, order[p]);
      if roles[order[p]] == Free { RetagOwner(ph, view, order[p]); }
    }
    forall c | 0 <= c < |view| && (roles[c] != Free || Opened(roles, r, c, ph.t)) ensures c in order {
      BatchSpan(par, ph, roles, view, olds, c);
      if roles[c] == Free { RetagOwner(ph, view, c); }
    }
  }

  // ------------------------------------------------------------------
  // The first-fit discipline at the start of a batch.

  /** Blocks of a group beyond whole clusters, before the stage. */
  function Rest(par: Params, ph: Phase, tails: bool): nat {
    (par.b * ph.p - (if tails then ph.tau else 0)) % (par.g + 1)
  }

  /** Free places the xi merged stripes bring along in one group, at most. */
  function StartCap(par: Params, ph: Phase, tails: bool): nat {
    if Rest(par, ph, tails) == 0 then 0 else ph.xi * (par.g + 1 - Rest(par, ph, tails))
  }

  /** Free places in cluster c if it has group i and is owned by one of [lo, hi). */
  function RangeGap(par: Params, roles: seq<Role>, view: View, lo: int, hi: int, i: int, c: nat): int
    requires |roles| == |view| && c < |view|
  {
    if view[c].blocks != [] && lo <= view[c].blocks[0].stripe < hi
    then Gap(par, roles, view, c, view[c].blocks[0].stripe, i) else 0
  }

  function RangeGaps(par: Params, roles: seq<Role>, view: View, lo: int, hi: int, i: int): (r: seq<int>)
    requires |roles| == |view|
    ensures |r| == |view| && forall c :: 0 <= c < |r| ==> r[c] == RangeGap(par, roles, view, lo, hi, i, c)
  {
    seq(|view|, c requires 0 <= c < |view| => RangeGap(par, roles, view, lo, hi, i, c))
  }

  lemma {:induction false} RangeGapsBound(par: Params, roles: seq<Role>, view: View, lo: int, hi: int, i: int, r0: nat)
    requires |roles| == |view| && lo <= hi && 1 <= r0 <= par.g + 1
    requires forall s :: lo <= s < hi ==> OnePartial(par, roles, view, s, i)
    requires forall s, c :: lo <= s < hi && Roomy(par, roles, view, c, s, i) ==> |view[c].blocks| == r0
    ensures Sum(RangeGaps(par, roles, view, lo, hi, i)) <= (hi - lo) * (par.g + 1 - r0)
    decreases hi - lo
  {
    var w := RangeGaps(par, roles, view, lo, hi, i);
    if lo == hi {
      SumZero(w);
    } else {
      var s, w' := hi - 1, RangeGaps(par, roles, view, lo, hi - 1, i);
      RangeGapsBound(par, roles, view, lo, s, i, r0);
      assert (hi - lo) * (par.g + 1 - r0) == (hi - 1 - lo) * (par.g + 1 - r0) + (par.g + 1 - r0);
      if c :| Roomy(par, roles, view, c, s, i) {
        assert OnePartial(par, roles, view, s, i);
        forall e | 0 <= e < |view| ensures w[e] == w'[c := par.g + 1 - r0][e] {
          if Roomy(par, roles, view, e, s, i) { assert e == c; }
        }
        assert w == w'[c := par.g + 1 - r0];
        SumUpdate(w', c, par.g + 1 - r0);
      } else {
        assert w == w';
      }
    }
  }

  lemma {:induction false} RetagRoomy(par: Params, ph: Phase, roles: seq<Role>, view: View, c: int, i: int)
    requires |roles| == |view|
    requires forall e ::
      0 <= e < |view| && roles[e] == Free && view[e].blocks != [] && view[e].blocks[0].stripe == ph.t ==>
        Lo(ph) <= ph.t < Hi(ph)
    ensures Roomy(par, roles, RetagView(view, ph), c, ph.t, i) <==>
      0 <= c < |view| && view[c].blocks != [] && Lo(ph) <= view[c].blocks[0].stripe < Hi(ph)
      && Roomy(par, roles, view, c, view[c].blocks[0].stripe, i)
  {
    if 0 <= c < |view| && view[c].blocks != [] { RetagOwner(ph, view, c); }
  }

  /** Free places of a group's open clusters, r0 blocks in each of xi. */
  function StartRoom(par: Params, ph: Phase, r0: nat): nat
    requires r0 <= par.g
  {
    if r0 == 0 then 0 else FreePlaces(ph.xi, par.g + 1 - r0)
  }

  function FreePlaces(n: nat, m: nat): nat {
    MulMono(0, n, m);
    n * m
  }

  lemma {:induction false} StartFit(par: Params, ph: Phase, roles: seq<Role>, view: View, r: View, order: seq<nat>,
          i: int, r0: nat)
    requires |roles| == |view| && ph.xi >= 1 && r0 <= par.g && r == RetagView(view, ph)
    requires forall e ::
      0 <= e < |view| && roles[e] == Free && view[e].blocks != [] && view[e].blocks[0].stripe == ph.t ==>
        Lo(ph) <= ph.t < Hi(ph)
    requires Listed(roles, r, order, [], ph.t)
    requires forall s :: Lo(ph) <= s < Hi(ph) ==> OnePartial(par, roles, view, s, i)
    requires forall s, c :: Lo(ph) <= s < Hi(ph) && Roomy(par, roles, view, c, s, i) ==> |view[c].blocks| == r0
    ensures FitOk(par, roles, r, order, [], ph.t, i, r0, StartRoom(par, ph, r0))
  {
    var w, w' := Gaps(par, roles, r, ph.t, i), RangeGaps(par, roles, view, Lo(ph), Hi(ph), i);
    forall c | 0 <= c < |view|
      ensures w[c] == w'[c]
      ensures Roomy(par, roles, r, c, ph.t, i) ==> |r[c].blocks| == r0 && c in order
    {
      RetagRoomy(par, ph, roles, view, c, i);
      if Roomy(par, roles, r, c, ph.t, i) { assert Opened(roles, r, c, ph.t); }
    }
    assert w == w';
    SumAtIsMasked(order, w);
    assert Mask(w, order) == w;
    if r0 == 0 {
      SumZero(w);
    } else {
      RangeGapsBound(par, roles, view, Lo(ph), Hi(ph), i, r0);
    }
  }

  /** What the invariant says about one live stripe and group. */
  lemma {:induction false} InvFacts(par: Params, ph: Phase, lay: Layout, view: View, olds: seq<set<nat>>,
          news: seq<set<nat>>, s: int, i: nat)
    requires Inv(par, ph, lay, view, olds, news) && Live(ph, s) && i < par.l
    ensures Contributed(par, ph, lay.roles, view, s, i) && Tot(view, DataAt(s, i)) == SizeOf(par, ph, s)
    ensures OnePartial(par, lay.roles, view, s, i) && PlaceOk(lay.roles, view, s, PlaceFor(ph, olds, news, s))
  {
    assert StripeOk(par, lay.roles, view, s, PlaceFor(ph, olds, news, s));
    Contributions(par, ph, lay, view, s, i);
  }

  /** In every batch stripe, a cluster with room holds Rest blocks. */
  lemma {:induction false} BatchRooms(par: Params, ph: Phase, lay: Layout, view: View, i: nat, s: int)
    requires BatchOk(par, ph) && LayoutOk(par, lay) && |lay.roles| == |view| && i < par.l && Lo(ph) <= s < Hi(ph)
    requires Contributed(par, ph, lay.roles, view, s, i) && Tot(view, DataAt(s, i)) == SizeOf(par, ph, s)
    requires OnePartial(par, lay.roles, view, s, i)
    ensures forall c :: Roomy(par, lay.roles, view, c, s, i) ==> |view[c].blocks| == Rest(par, ph, Tails(lay))
  {
    hide Contributed; hide LayoutOk; hide OnePartial; hide Tot; hide PhaseOk;
    NextOk(par, ph);
    SpreadIs(par, ph, lay, view, s, i);
  }

  // ------------------------------------------------------------------
  // Replacing the contents of a shared cluster.

  predicate DataQuery(q: Query) { q.DataAt? || q.DataNum? }

  /** Parity replacement in a shared cluster: data queries keep their answers. */
  lemma {:induction false} SetCluster(par: Params, ph: Phase, lay: Layout, view: View, todos: seq<Todo>, c: nat,
          v: ClusterVal, todo: Todo)
    requires ViewOk(par, ph, lay, view, todos) && c < |view|
    requires ClusterOk(par, ph, Tails(lay), c, lay.roles[c], v, todo)
    requires forall q :: DataQuery(q) ==> |Sel(v.blocks, q)| == |Sel(view[c].blocks, q)|
    ensures ViewOk(par, ph, lay, view[c := v], todos[c := todo])
  {
    hide ClusterOk; hide LayoutOk; hide Tot; hide Sel; hide SizeOf; hide Live;
    forall q | DataQuery(q) ensures Tot(view[c := v], q) == Tot(view, q) {
      TotUpdate(view, c, v, q);
    }
  }

  lemma {:induction false} GlobalsKeepData(par: Params, ph: Phase, c: int, v: ClusterVal, q: Query)
    requires par.Ok() && PhaseOk(par, ph) && ph.t >= 1 && DataQuery(q)
    ensures Sel(NewGlobals(par, ph, c, v).blocks, q) == Sel(v.blocks, q)
  {
    GlobalBlocks(par, ph, c);
    ReplaceSel(v.blocks, ph.t - 1, G, GlobalParities(par, c, ph.t - 1), q);
  }

  lemma {:induction false} LocalsKeepData(par: Params, ph: Phase, c: int, v: ClusterVal, groups: set<int>,
          more: seq<Block>, q: Query)
    requires FreshLocals(par, c, ph.t - 1, groups, more) && DataQuery(q)
    ensures Sel(NewLocals(ph, v, more).blocks, q) == Sel(v.blocks, q)
  {
    hide Drop; hide Sel; hide FreshLocals;
    FreshDoomed(par, c, ph.t - 1, groups, more);
    ReplaceSel(v.blocks, ph.t - 1, L, more, q);
  }

  /** Free clusters decide the bookkeeping; shared ones do not enter it. */
  lemma {:induction false} SharedKeepsFit(par: Params, roles: seq<Role>, view: View, order: seq<nat>, added: seq<nat>,
          s: int, i: int, r0: nat, cap: nat, c: nat, v: ClusterVal)
    requires Listed(roles, view, order, added, s) && c < |view| && roles[c] != Free
    ensures Listed(roles, view[c := v], order, added, s)
    ensures FitOk(par, roles, view, order, added, s, i, r0, cap) ==>
      FitOk(par, roles, view[c := v], order, added, s, i, r0, cap)
  {
    var view' := view[c := v];
    assert forall e :: 0 <= e < |view| && e != c ==> view'[e] == view[e];
    forall e ensures Roomy(par, roles, view', e, s, i) <==> Roomy(par, roles, view, e, s, i) {}
    assert Gaps(par, roles, view', s, i) == Gaps(par, roles, view, s, i);
  }

  lemma {:induction false} SharedKeepsOthers(par: Params, ph: Phase, roles: seq<Role>, view: View, olds: seq<set<nat>>,
          news: seq<set<nat>>, c: nat, v: ClusterVal)
    requires |roles| == |view| && OthersOk(par, ph, roles, view, olds, news) && c < |view| && roles[c] != Free
    ensures OthersOk(par, ph, roles, view[c := v], olds, news)
  {
    var view' := view[c := v];
    forall s | Live(ph, s) && s != ph.t - 1 ensures StripeOk(par, roles, view', s, PlaceFor(ph, olds, news, s)) {
      assert StripeOk(par, roles, view, s, PlaceFor(ph, olds, news, s));
      forall i | 0 <= i < par.l ensures OnePartial(par, roles, view', s, i) {
        assert OnePartial(par, roles, view, s, i);
        forall e ensures Roomy(par, roles, view', e, s, i) <==> Roomy(par, roles, view, e, s, i) {}
      }
    }
  }

  lemma {:induction false} MoveKeepsOthers(par: Params, ph: Phase, roles: seq<Role>, view: View, olds: seq<set<nat>>,
          news: seq<set<nat>>, order: seq<nat>, added: seq<nat>, c: nat, j: nat, d: nat)
    requires |roles| == |view| && OthersOk(par, ph, roles, view, olds, news)
    requires Moving(par, roles, view, order, added, ph.t - 1, c, j, d)
    ensures var r := MoveView(view, c, j, d);
      |RolesAfter(roles, |r|)| == |r| && OthersOk(par, ph, RolesAfter(roles, |r|), r, olds, news)
  {
    var r := MoveView(view, c, j, d);
    var roles' := RolesAfter(roles, |r|);
    forall s | Live(ph, s) && s != ph.t - 1 ensures StripeOk(par, roles', r, s, PlaceFor(ph, olds, news, s)) {
      assert StripeOk(par, roles, view, s, PlaceFor(ph, olds, news, s));
      OthersAfter(par, roles, view, order, added, ph.t - 1, c, j, d, s);
      forall e | 0 <= e < |r| && roles'[e] == Free
        ensures r[e].blocks != [] && r[e].blocks[0].stripe == s <==> Opened(roles', r, e, s) {}
      forall i | 0 <= i < par.l ensures OnePartial(par, roles', r, s, i) {
        assert OnePartial(par, roles, view, s, i);
      }
    }
  }

  // ------------------------------------------------------------------
  // End of a batch.

  lemma {:induction false} AllSettled(par: Params, ph: Phase, lay: Layout, view: View, todos: seq<Todo>)
    requires ViewOk(par, ph, lay, view, todos)
    requires forall c :: 0 <= c < |view| && lay.roles[c] != Free ==> todos[c] == Clean
    ensures ViewOk(par, ph, lay, view, AllClean(|view|))
  {
    forall c | 0 <= c < |view| ensures ClusterOk(par, ph, Tails(lay), c, lay.roles[c], view[c], AllClean(|view|)[c]) {
      assert ClusterOk(par, ph, Tails(lay), c, lay.roles[c], view[c], todos[c]);
    }
  }

  /** Enough blocks were relocated for at most one cluster to have room. */
  lemma {:induction false} CapSmall(par: Params, ph: Phase, tails: bool, cap: nat)
    requires QuotaOk(par, ph, tails) && ph.xi >= 1
    requires tails ==> cap <= StartCap(par, ph, tails) - Surplus(par, ph, true) || cap == 0
    ensures Rest(par, ph, tails) == 0 || cap + Rest(par, ph, tails) <= par.g + 1
  {
    var r0 := Rest(par, ph, tails);
    if tails && r0 != 0 && cap > 0 {
      SurplusOk(par, ph, tails, true);
      var d := par.g + 1 - r0;
      assert ph.xi * d == (ph.xi - 1) * d + d;
      assert (ph.xi - 1) * d <= (ph.xi - 1) * par.g by { MulMono(d, par.g, ph.xi - 1); }
    }
  }

  lemma {:induction false} DoneStripeOk(par: Params, roles: seq<Role>, view: View, order: seq<nat>, added: seq<nat>,
          s: int, place: set<nat>)
    requires Listed(roles, view, order, added, s) && Spans(roles, view, order, s)
    requires forall c :: c in place <==> c in order || c in added
    requires forall i :: 0 <= i < par.l ==> OnePartial(par, roles, view, s, i)
    ensures StripeOk(par, roles, view, s, place)
  {
    forall c ensures c in place <==>
      0 <= c < |view| && (roles[c] == Free ==> view[c].blocks != [] && view[c].blocks[0].stripe == s)
    {
      if c in order {
        var p :| 0 <= p < |order| && order[p] == c;
      } else if c in added {
        var f :| 0 <= f < |added| && added[f] == c;
        assert Opened(roles, view, c, s);
      } else if 0 <= c < |view| && roles[c] == Free {
        assert !Opened(roles, view, c, s);
      }
    }
  }

  /** The clean state at the end of the batch satisfies the invariant again. */
  lemma {:induction false} BatchDone(par: Params, ph: Phase, lay: Layout, view: View, olds: seq<set<nat>>,
          news: seq<set<nat>>, place: set<nat>)
    requires PhaseOk(par, Next(ph)) && QuotaOk(par, ph, Tails(lay)) && |olds| == ph.x && |news| == ph.t
    requires ViewOk(par, Next(ph), lay, view, AllClean(|view|))
    requires OthersOk(par, Next(ph), lay.roles, view, olds, news)
    requires StripeOk(par, lay.roles, view, ph.t, place)
    ensures Inv(par, Next(ph), lay, view, olds, news + [place])
  {
    forall s | Live(Next(ph), s)
      ensures StripeOk(par, lay.roles, view, s, PlaceFor(Next(ph), olds, news + [place], s))
    {
      if s != ph.t { assert PlaceFor(Next(ph), olds, news + [place], s) == PlaceFor(Next(ph), olds, news, s); }
    }
  }
}
