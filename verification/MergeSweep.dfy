/** The sweep over the clusters of a batch: start, one cluster, end. */
module MergeSweep {
  import opened Blocks
  import opened Clusters
  import opened MergeState
  import opened MergeRename
  import opened MergeSteps
  import opened MergeView
  import opened FirstFit
  import opened MergeBatch
  import opened MergeMid
  import opened MergeMove
  import opened MergeSettle
  import opened MergeCost
  import opened Sums

  /** Roles never change; new clusters are free. */
  ghost predicate Grows(lay0: Layout, lay: Layout) {
    && |lay0.roles| <= |lay.roles| && lay.tail == lay0.tail && lay.gid == lay0.gid
    && (forall c :: 0 <= c < |lay0.roles| ==> lay.roles[c] == lay0.roles[c])
    && (forall c :: |lay0.roles| <= c < |lay.roles| ==> lay.roles[c] == Free)
  }

  /** Free places left once tail i has been relieved of its surplus. */
  function TailCap(par: Params, ph: Phase): nat {
    var n := StartCap(par, ph, true) - Surplus(par, ph, true);
    if n < 0 then 0 else n
  }

  ghost predicate CapsOk(par: Params, ph: Phase, lay: Layout, order: seq<nat>, p: nat, caps: seq<nat>)
    requires p <= |order|
  {
    && |caps| == par.l
    && (forall i :: 0 <= i < par.l ==> caps[i] <= StartCap(par, ph, Tails(lay)))
    && (forall i :: 0 <= i < |lay.tail| && i < par.l && lay.tail[i] in order[..p] ==> caps[i] <= TailCap(par, ph))
  }

  ghost predicate TodosOk(par: Params, ph: Phase, lay: Layout, order: seq<nat>, p: nat, todos: seq<Todo>)
    requires p <= |order|
  {
    && |todos| == |lay.roles| && Within(order, |todos|)
    && (forall q :: 0 <= q < p ==> todos[order[q]] == Clean)
    && (forall q :: p <= q < |order| ==> todos[order[q]] == BodyTodo(par, ph, lay.roles[order[q]]))
  }

  /** After p clusters of the list have been settled. */
  ghost predicate Sweep(fr: Frame, ph: Phase, lay0: Layout, aux: Aux, view: View, added: seq<nat>, p: nat) {
    && p <= |fr.order|
    && MidA(fr, aux, view, added) && Grows(lay0, aux.lay)
    && TodosOk(fr.par, ph, aux.lay, fr.order, p, aux.todos)
    && CapsOk(fr.par, ph, aux.lay, fr.order, p, aux.caps)
  }

  lemma {:induction false} SweepCaps(par: Params, ph: Phase, lay: Layout, order: seq<nat>, p: nat, caps0: seq<nat>,
          caps: seq<nat>)
    requires p < |order| && Distinct(order) && CapsOk(par, ph, lay, order, p, caps0)
    requires order[p] < |lay.roles| && LayoutOk(par, lay) && QuotaOk(par, ph, Tails(lay)) && ph.xi >= 1
    requires CapsSettled(caps0, caps, lay.roles[order[p]], Due(par, ph, lay.roles[order[p]]))
    ensures CapsOk(par, ph, lay, order, p + 1, caps)
  {
    var c := order[p];
    var role := lay.roles[c];
    assert order[..p + 1] == order[..p] + [c];
    if role.Src? { assert SrcRoleOk(par, lay, c, role); SurplusOk(par, ph, Tails(lay), role.parity); }
    forall i | 0 <= i < |lay.tail| && i < par.l && lay.tail[i] in order[..p + 1] ensures caps[i] <= TailCap(par, ph) {
      assert lay.roles[lay.tail[i]] == Src(i, true);
    }
  }

  lemma {:induction false} SweepTodos(par: Params, ph: Phase, order: seq<nat>, p: nat, aux0: Aux, aux: Aux)
    requires p < |order| && Distinct(order) && TodosOk(par, ph, aux0.lay, order, p, aux0.todos)
    requires Settled(aux0, aux, order[p])
    ensures TodosOk(par, ph, aux.lay, order, p + 1, aux.todos)
  {}

  lemma {:induction false} GrowsTrans(lay0: Layout, aux0: Aux, aux: Aux, c: nat)
    requires Grows(lay0, aux0.lay) && Settled(aux0, aux, c)
    ensures Grows(lay0, aux.lay)
  {}

  /** Settling the next cluster. */
  lemma {:induction false} SweepStep(fr: Frame, ph: Phase, lay0: Layout, aux0: Aux, aux: Aux, view0: View, view: View,
          added0: seq<nat>, added: seq<nat>, p: nat)
    requires Sweep(fr, ph, lay0, aux0, view0, added0, p) && p < |fr.order| && Distinct(fr.order)
    requires QuotaOk(fr.par, ph, Tails(aux0.lay)) && ph.xi >= 1 && LayoutOk(fr.par, aux0.lay)
    requires fr.order[p] < |aux0.lay.roles|
    requires MidA(fr, aux, view, added) && Settled(aux0, aux, fr.order[p])
    requires CapsSettled(aux0.caps, aux.caps, aux0.lay.roles[fr.order[p]], Due(fr.par, ph, aux0.lay.roles[fr.order[p]]))
    ensures Sweep(fr, ph, lay0, aux, view, added, p + 1)
  {
    hide Mid; hide QuotaOk; hide StartCap; hide TailCap; hide Due; hide BodyTodo; hide LayoutOk;
    SweepTodos(fr.par, ph, fr.order, p, aux0, aux);
    SweepCaps(fr.par, ph, aux0.lay, fr.order, p, aux0.caps, aux.caps);
    GrowsTrans(lay0, aux0, aux, fr.order[p]);
  }

  // ------------------------------------------------------------------
  // Start.

  function StartCaps(par: Params, ph: Phase, tails: bool): (r: seq<nat>)
    ensures |r| == par.l && forall i :: 0 <= i < |r| ==> r[i] == StartCap(par, ph, tails)
  {
    seq(par.l, _ => StartCap(par, ph, tails))
  }

  function StartFrame(par: Params, ph: Phase, tails: bool, order: seq<nat>, olds: seq<set<nat>>,
          news: seq<set<nat>>): Frame
  {
    Frame(par, Next(ph), order, olds, news, Rest(par, ph, tails))
  }

  lemma {:induction false} NoStrayFree(par: Params, ph: Phase, lay: Layout, view: View, olds: seq<set<nat>>,
          news: seq<set<nat>>)
    requires BatchOk(par, ph) && Inv(par, ph, lay, view, olds, news)
    ensures forall c ::
      0 <= c < |view| && c < |lay.roles| && lay.roles[c] == Free && view[c].blocks != []
      && view[c].blocks[0].stripe == ph.t ==>
        Lo(ph) <= ph.t < Hi(ph)
  {
    NoStrayHere(par, ph, lay, view);
    forall c | 0 <= c < |view| && c < |lay.roles| && lay.roles[c] == Free && view[c].blocks != [] &&
      view[c].blocks[0].stripe == ph.t
      ensures Lo(ph) <= ph.t < Hi(ph)
    {
      assert view[c].blocks[0] in view[c].blocks;
    }
  }

  lemma {:induction false} RoomsInv(par: Params, ph: Phase, lay: Layout, view: View, olds: seq<set<nat>>,
          news: seq<set<nat>>, s: int, i: nat)
    requires BatchOk(par, ph) && Inv(par, ph, lay, view, olds, news) && i < par.l && |lay.roles| == |view|
    requires Lo(ph) <= s < Hi(ph)
    ensures OnePartial(par, lay.roles, view, s, i)
    ensures forall c :: Roomy(par, lay.roles, view, c, s, i) ==>
      0 <= c < |view| && |view[c].blocks| == Rest(par, ph, Tails(lay))
  {
    hide Inv; hide Contributed; hide LayoutOk; hide OnePartial; hide Rest;
    InvLayout(par, ph, lay, view, olds, news);
    LiveStep(par, ph, s);
    InvFacts(par, ph, lay, view, olds, news, s, i);
    BatchRooms(par, ph, lay, view, i, s);
  }

  lemma {:induction false} StartFitAt(par: Params, ph: Phase, lay: Layout, view: View, olds: seq<set<nat>>,
          news: seq<set<nat>>, order: seq<nat>, i: nat)
    requires BatchOk(par, ph) && Inv(par, ph, lay, view, olds, news) && i < par.l && |lay.roles| == |view|
    requires Listed(lay.roles, RetagView(view, ph), order, [], ph.t)
    ensures FitOk(par, lay.roles, RetagView(view, ph), order, [], ph.t, i, Rest(par, ph, Tails(lay)),
      StartCap(par, ph, Tails(lay)))
  {
    hide Inv; hide Contributed; hide LayoutOk; hide FitOk; hide Listed;
    InvLayout(par, ph, lay, view, olds, news);
    NoStrayFree(par, ph, lay, view, olds, news);
    hide OnePartial; hide Roomy; hide Rest;
    forall s | Lo(ph) <= s < Hi(ph) ensures OnePartial(par, lay.roles, view, s, i) {
      RoomsInv(par, ph, lay, view, olds, news, s, i);
    }
    forall s, c | Lo(ph) <= s < Hi(ph) && Roomy(par, lay.roles, view, c, s, i)
      ensures |view[c].blocks| == Rest(par, ph, Tails(lay))
    {
      RoomsInv(par, ph, lay, view, olds, news, s, i);
    }
    RestSmall(par, ph, Tails(lay));
    StartFit(par, ph, lay.roles, view, RetagView(view, ph), order, i, Rest(par, ph, Tails(lay)));
    StartCapIs(par, ph, Tails(lay));
  }

  lemma {:induction false} RestSmall(par: Params, ph: Phase, tails: bool)
    ensures Rest(par, ph, tails) <= par.g
  {}

  lemma {:induction false} StartCapIs(par: Params, ph: Phase, tails: bool)
    ensures StartCap(par, ph, tails) ==
      if Rest(par, ph, tails) == 0 then 0 else ph.xi * (par.g + 1 - Rest(par, ph, tails))
  {}

  lemma {:induction false} StartMid(par: Params, ph: Phase, lay: Layout, view: View, olds: seq<set<nat>>,
          news: seq<set<nat>>, order: seq<nat>)
    requires BatchOk(par, ph) && Inv(par, ph, lay, view, olds, news)
    requires |olds| == ph.x && Enumerates(order, Union(olds, Lo(ph), Hi(ph)))
    ensures MidA(StartFrame(par, ph, Tails(lay), order, olds, news),
                 Aux(lay, StartTodos(par, ph, lay.roles), StartCaps(par, ph, Tails(lay))), RetagView(view, ph), [])
  {
    hide Inv; hide FitOk; hide ViewOk; hide Listed; hide Spans; hide OthersOk; hide Enumerates; hide QuotaOk;
    hide StartCap; hide Rest; hide PlaceOk;
    InvLayout(par, ph, lay, view, olds, news);
    InvView(par, ph, lay, view, olds, news);
    RetagViewOk(par, ph, lay, view);
    RetagOthersOk(par, ph, lay, view, olds, news);
    NoStrayFree(par, ph, lay, view, olds, news);
    InvCluster(par, ph, lay, view, olds, news, lay.gid);
    StartListed(par, ph, lay.roles, view, olds, order);
    var caps := StartCaps(par, ph, Tails(lay));
    forall i | 0 <= i < par.l
      ensures FitOk(par, lay.roles, RetagView(view, ph), order, [], ph.t, i, Rest(par, ph, Tails(lay)), caps[i])
    {
      StartFitAt(par, ph, lay, view, olds, news, order, i);
    }
  }

  lemma {:induction false} InvView(par: Params, ph: Phase, lay: Layout, view: View, olds: seq<set<nat>>,
          news: seq<set<nat>>)
    requires Inv(par, ph, lay, view, olds, news)
    ensures ViewOk(par, ph, lay, view, AllClean(|view|)) && lay.gid < |view|
  {}

  /** The sweep can begin once the global parities are in place. */
  function SweepAux(par: Params, ph: Phase, lay: Layout): Aux
    requires lay.gid < |lay.roles|
  {
    var todos := StartTodos(par, ph, lay.roles);
    Aux(lay, todos[lay.gid := todos[lay.gid].(globals := false)], StartCaps(par, ph, (lay.tail != [])))
  }

  lemma {:induction false} SweepTodosStart(par: Params, ph: Phase, lay: Layout, order: seq<nat>)
    requires LayoutOk(par, lay) && Within(order, |lay.roles|)
    ensures TodosOk(par, ph, lay, order, 0, SweepAux(par, ph, lay).todos)
  {
    forall q | 0 <= q < |order|
      ensures SweepAux(par, ph, lay).todos[order[q]] == BodyTodo(par, ph, lay.roles[order[q]])
    {
      assert lay.roles[order[q]] == Glob <==> order[q] == lay.gid;
    }
  }

  lemma {:induction false} SweepStart(par: Params, ph: Phase, lay: Layout, view: View, olds: seq<set<nat>>,
          news: seq<set<nat>>, order: seq<nat>)
    requires BatchOk(par, ph) && Inv(par, ph, lay, view, olds, news)
    requires |olds| == ph.x && Enumerates(order, Union(olds, Lo(ph), Hi(ph)))
    ensures lay.gid < |lay.roles| == |view| && Within(order, |view|)
    ensures RetagView(view, ph)[lay.gid].kind != D
    ensures var r := RetagView(view, ph);
      Sweep(StartFrame(par, ph, Tails(lay), order, olds, news), ph, lay, SweepAux(par, ph, lay),
            r[lay.gid := NewGlobals(par, Next(ph), lay.gid, r[lay.gid])], [], 0)
  {
    hide Inv; hide Enumerates; hide StartCap; hide Rest; hide QuotaOk; hide NewGlobals; hide StartTodo; hide FitOk;
    hide OthersOk;
    var fr := StartFrame(par, ph, Tails(lay), order, olds, news);
    var todos, caps, r := StartTodos(par, ph, lay.roles), StartCaps(par, ph, Tails(lay)), RetagView(view, ph);
    InvLayout(par, ph, lay, view, olds, news);
    StartMid(par, ph, lay, view, olds, news, order);
    MidOrder(fr, lay, r, todos, [], caps);
    hide Mid;
    StartTodoGlobals(par, ph, lay.roles[lay.gid]);
    MidAt(fr, lay, r, todos, [], caps, lay.gid);
    hide ClusterOk;
    MidGlobals(fr, lay, r, todos, [], caps);
    SweepTodosStart(par, ph, lay, order);
    assert order[..0] == [];
  }

  lemma {:induction false} StartTodoGlobals(par: Params, ph: Phase, role: Role)
    ensures StartTodo(par, ph, role).globals
  {}

  lemma {:induction false} MidOrder(fr: Frame, lay: Layout, view: View, todos: seq<Todo>, added: seq<nat>,
          caps: seq<nat>)
    requires Mid(fr, lay, view, todos, added, caps)
    ensures Within(fr.order, |view|) && Distinct(fr.order) && LayoutOk(fr.par, lay) && |lay.roles| == |view| == |todos|
  {}

  // ------------------------------------------------------------------
  // End.

  lemma {:induction false} SweepClean(fr: Frame, lay: Layout, view: View, todos: seq<Todo>, added: seq<nat>,
          caps: seq<nat>)
    requires Mid(fr, lay, view, todos, added, caps) && Within(fr.order, |todos|)
    requires forall q :: 0 <= q < |fr.order| ==> todos[fr.order[q]] == Clean
    ensures ViewOk(fr.par, fr.ph, lay, view, AllClean(|view|))
    ensures Listed(lay.roles, view, fr.order, added, fr.S()) && Spans(lay.roles, view, fr.order, fr.S())
    ensures OthersOk(fr.par, fr.ph, lay.roles, view, fr.olds, fr.news) && |caps| == fr.par.l
    ensures forall i :: 0 <= i < fr.par.l ==> FitOk(fr.par, lay.roles, view, fr.order, added, fr.S(), i, fr.r0, caps[i])
  {
    forall c | 0 <= c < |view| && lay.roles[c] != Free ensures todos[c] == Clean {
      assert c in fr.order;
      var q :| 0 <= q < |fr.order| && fr.order[q] == c;
    }
    AllSettled(fr.par, fr.ph, lay, view, todos);
  }

  lemma {:induction false} SweepCapSmall(par: Params, ph: Phase, lay: Layout, order: seq<nat>, caps: seq<nat>, i: nat)
    requires LayoutOk(par, lay) && QuotaOk(par, ph, Tails(lay)) && ph.xi >= 1
    requires CapsOk(par, ph, lay, order, |order|, caps) && i < par.l
    requires forall c :: 0 <= c < |lay.roles| && lay.roles[c] != Free ==> c in order
    ensures Rest(par, ph, Tails(lay)) == 0 || caps[i] + Rest(par, ph, Tails(lay)) <= par.g + 1
  {
    if Tails(lay) {
      assert lay.roles[lay.tail[i]] == Src(i, true);
      assert order[..|order|] == order;
      assert caps[i] <= TailCap(par, ph);
    }
    CapSmall(par, ph, Tails(lay), caps[i]);
  }

  /** Everything settled: the invariant holds again, one batch further. */
  lemma {:induction false} SweepEnd(fr: Frame, ph: Phase, lay0: Layout, aux: Aux, view: View, added: seq<nat>,
          place: set<nat>)
    requires Sweep(fr, ph, lay0, aux, view, added, |fr.order|) && BatchOk(fr.par, ph)
    requires QuotaOk(fr.par, ph, Tails(lay0)) && fr.ph == Next(ph) && fr.r0 == Rest(fr.par, ph, Tails(lay0))
    requires |fr.olds| == ph.x && |fr.news| == ph.t
    requires forall c :: c in place <==> c in fr.order || c in added
    ensures Inv(fr.par, Next(ph), aux.lay, view, fr.olds, fr.news + [place])
  {
    var par, lay := fr.par, aux.lay;
    hide FitOk; hide OthersOk; hide ViewOk; hide QuotaOk; hide Rest; hide ClusterOk; hide CapsOk;
    MidOrder(fr, lay, view, aux.todos, added, aux.caps);
    SweepClean(fr, lay, view, aux.todos, added, aux.caps);
    hide Mid;
    NextOk(par, ph);
    forall i | 0 <= i < par.l ensures OnePartial(par, lay.roles, view, ph.t, i) {
      hide Spans; hide Listed;
      SpansCovers(lay.roles, view, fr.order, fr.S());
      SweepCapSmall(par, ph, lay, fr.order, aux.caps, i);
      FitDone(par, lay.roles, view, fr.order, added, ph.t, i, fr.r0, aux.caps[i]);
    }
    hide Spans; hide Listed; hide OnePartial; hide LayoutOk;
    DoneStripeOk(par, lay.roles, view, fr.order, added, ph.t, place);
    hide StripeOk;
    BatchDone(par, ph, lay, view, fr.olds, fr.news, place);
  }

  lemma {:induction false} SpansCovers(roles: seq<Role>, view: View, order: seq<nat>, s: int)
    requires Spans(roles, view, order, s)
    ensures forall c :: 0 <= c < |roles| && roles[c] != Free ==> c in order
  {}

  // ------------------------------------------------------------------
  // Retagging only the listed clusters; blocks moved over the whole sweep.

  /** Clusters outside the batch hold none of its blocks. */
  lemma {:induction false} OutsideUntouched(par: Params, ph: Phase, lay: Layout, view: View, olds: seq<set<nat>>,
          news: seq<set<nat>>, order: seq<nat>, c: nat)
    requires BatchOk(par, ph) && Inv(par, ph, lay, view, olds, news) && c < |view| && |olds| == ph.x
    requires Enumerates(order, Union(olds, Lo(ph), Hi(ph))) && c !in order
    ensures RetagVal(view[c], Lo(ph), Hi(ph), ph.t) == view[c]
  {
    hide Inv;
    InvCluster(par, ph, lay, view, olds, news, c);
    BatchSpan(par, ph, lay.roles, view, olds, c);
    assert lay.roles[c] == Free;
    var r := Retag(view[c].blocks, Lo(ph), Hi(ph), ph.t);
    forall j | 0 <= j < |r| ensures r[j] == view[c].blocks[j] {
      assert view[c].blocks[j] in view[c].blocks;
    }
    assert r == view[c].blocks;
  }

  function DueWeights(par: Params, ph: Phase, roles: seq<Role>): (r: seq<int>)
    ensures |r| == |roles| && forall c :: 0 <= c < |r| ==> r[c] == Due(par, ph, roles[c])
  {
    seq(|roles|, c requires 0 <= c < |roles| => Due(par, ph, roles[c]))
  }

  /** Blocks relocated by one batch, with f aggregated clusters per group. */
  function BatchDc(par: Params, ph: Phase, tails: bool, f: nat): int {
    (if tails then par.l * Surplus(par, ph, true) else 0) + par.l * f * Surplus(par, ph, false)
  }

  lemma {:induction false} DcOfBatch(par: Params, ph: Phase, lay: Layout, order: seq<nat>, f: nat)
    requires LayoutOk(par, lay) && PinsAre(par, lay, f) && QuotaOk(par, ph, Tails(lay)) && ph.xi >= 1
    requires Distinct(order) && Within(order, |lay.roles|)
    requires forall c :: 0 <= c < |lay.roles| && lay.roles[c] != Free ==> c in order
    ensures SumAt(order, DueWeights(par, ph, lay.roles)) == BatchDc(par, ph, Tails(lay), f)
  {
    hide PinsAre;
    var w := DueWeights(par, ph, lay.roles);
    SurplusOk(par, ph, Tails(lay), false);
    if Tails(lay) { SurplusOk(par, ph, true, true); }
    forall c | 0 <= c < |w|
      ensures w[c] == SrcWeight(lay.roles[c], Surplus(par, ph, true), Surplus(par, ph, false))
      ensures w[c] != 0 ==> c in order
    {
      if lay.roles[c].Src? { assert SrcRoleOk(par, lay, c, lay.roles[c]); }
    }
    assert w == SrcWeights(lay.roles, Surplus(par, ph, true), Surplus(par, ph, false));
    assert Mask(w, order) == w;
    SumAtIsMasked(order, w);
    SrcSum(par, lay, f, Surplus(par, ph, true), Surplus(par, ph, false));
  }

  /** What the sweep knows about the next cluster. */
  lemma {:induction false} SweepFacts(fr: Frame, ph: Phase, lay0: Layout, aux: Aux, view: View, added: seq<nat>, p: nat)
    requires Sweep(fr, ph, lay0, aux, view, added, p) && p < |fr.order| && fr.order[p] < |lay0.roles|
    ensures LayoutOk(fr.par, aux.lay) && |aux.lay.roles| == |view| == |aux.todos| && Tails(aux.lay) == Tails(lay0)
    ensures aux.lay.roles[fr.order[p]] == lay0.roles[fr.order[p]]
    ensures aux.todos[fr.order[p]] == BodyTodo(fr.par, ph, aux.lay.roles[fr.order[p]])
  {}

  lemma {:induction false} SweepGrows(fr: Frame, ph: Phase, lay0: Layout, aux: Aux, view: View, added: seq<nat>, p: nat)
    requires Sweep(fr, ph, lay0, aux, view, added, p)
    ensures Grows(lay0, aux.lay)
  {}

  lemma {:induction false} EnumeratesDistinct(order: seq<nat>, cs: set<nat>)
    requires Enumerates(order, cs)
    ensures Distinct(order)
  {}

  lemma {:induction false} PlaceMembers(order: seq<nat>, cs: set<nat>, added: seq<nat>, place: set<nat>)
    requires Enumerates(order, cs) && place == cs + (set c | c in added)
    ensures forall c :: c in place <==> c in order || c in added
  {}

  lemma {:induction false} NewGlobalsIs(par: Params, ph: Phase, c: int, v: ClusterVal)
    ensures NewGlobals(par, Next(ph), c, v) == Extend(DropVal(v, ph.t, G), GlobalParities(par, c, ph.t))
  {}

  lemma {:induction false} RenamedAll(par: Params, ph: Phase, lay: Layout, view: View, olds: seq<set<nat>>,
          news: seq<set<nat>>, order: seq<nat>, view': View)
    requires BatchOk(par, ph) && Inv(par, ph, lay, view, olds, news) && |olds| == ph.x
    requires Enumerates(order, Union(olds, Lo(ph), Hi(ph))) && |view'| == |view|
    requires forall c :: 0 <= c < |view| ==>
      view'[c] == if c in order then RetagVal(view[c], Lo(ph), Hi(ph), ph.t) else view[c]
    ensures view' == RetagView(view, ph)
  {
    hide Inv; hide Enumerates; hide BatchOk;
    forall c | 0 <= c < |view| ensures view'[c] == RetagView(view, ph)[c] {
      if c !in order { OutsideUntouched(par, ph, lay, view, olds, news, order, c); }
    }
  }

  /** The batch spans all shared clusters. */
  lemma {:induction false} SpanCovers(par: Params, ph: Phase, lay: Layout, view: View, olds: seq<set<nat>>,
          news: seq<set<nat>>, order: seq<nat>)
    requires BatchOk(par, ph) && Inv(par, ph, lay, view, olds, news) && |olds| == ph.x
    requires Enumerates(order, Union(olds, Lo(ph), Hi(ph)))
    ensures forall c :: 0 <= c < |lay.roles| && lay.roles[c] != Free ==> c in order
  {
    hide Inv;
    InvLayout(par, ph, lay, view, olds, news);
    forall c | 0 <= c < |lay.roles| && lay.roles[c] != Free ensures c in order {
      InvCluster(par, ph, lay, view, olds, news, c);
      BatchSpan(par, ph, lay.roles, view, olds, c);
    }
  }

  lemma {:induction false} SweepAuxIs(par: Params, ph: Phase, lay: Layout)
    requires lay.gid < |lay.roles|
    ensures SweepAux(par, ph, lay).lay == lay
  {}
}
