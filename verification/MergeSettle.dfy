/** The decision made at each cluster of a batch: which clusters must give up
data blocks, and how many. */
module MergeSettle {
  import opened Blocks
  import opened MergeState
  import opened MergeRename
  import opened MergeView
  import opened MergeBatch
  import opened MergeMid
  import opened MergeMove
  import opened Arith

  /** Over the `live` stripes left after the stage, a source cluster holds more
      than its new quota each exactly when the merged stripe brings a surplus. */
  lemma {:induction false} SourceMeasure(par: Params, ph: Phase, parity: bool, live: nat)
    requires ph.x == live * ph.xi && ph.t < live && Surplus(par, ph, parity) >= 0
    ensures TotalNeed(par, ph, parity, 0) >= NewQuota(par, parity) * live
    ensures TotalNeed(par, ph, parity, 0) > NewQuota(par, parity) * live <==> Surplus(par, ph, parity) > 0
  {
    hide NewQuota; hide OldQuota;
    Measure(NewQuota(par, parity), OldQuota(par, ph, parity), ph.t, ph.xi, live);
  }

  lemma {:induction false} Measure(qn: nat, qo: nat, t: nat, xi: nat, live: nat)
    requires t < live && xi * qo - qn >= 0
    ensures t * qn + (live * xi - t * xi) * qo == qn * live + (live - t) * (xi * qo - qn)
    ensures (live - t) * (xi * qo - qn) >= 0 && ((live - t) * (xi * qo - qn) > 0 <==> xi * qo - qn > 0)
  {
    var left, more := live - t, xi * qo - qn;
    assert live * xi - t * xi == left * xi && left * xi * qo == left * (xi * qo);
    assert left * (xi * qo) - left * qn == left * more && qn * live == t * qn + left * qn;
    MulMono(0, left, more);
    if more > 0 { MulMono(1, left, more); }
  }

  /** The work outstanding once the global parities have been recomputed. */
  function BodyTodo(par: Params, ph: Phase, role: Role): Todo {
    if role == Glob then StartTodo(par, ph, role).(globals := false) else StartTodo(par, ph, role)
  }

  /** Blocks that must leave cluster role when a batch of phase ph is merged. */
  function Due(par: Params, ph: Phase, role: Role): nat { StartTodo(par, ph, role).extra }

  lemma {:induction false} BodyTodoIs(par: Params, ph: Phase, role: Role)
    ensures BodyTodo(par, ph, role).locals && BodyTodo(par, ph, role).extra == Due(par, ph, role)
    ensures role == Glob ==> !BodyTodo(par, ph, role).globals
    ensures !role.Src? ==> Due(par, ph, role) == 0
  {}

  ghost predicate BatchFrame(fr: Frame, ph: Phase, live: nat) {
    && BatchOk(fr.par, ph) && fr.ph == Next(ph) && ph.x == live * ph.xi && ph.t < live
  }

  /** A shared cluster's data count decides whether blocks are due. */
  lemma {:induction false} DueIff(fr: Frame, lay: Layout, view: View, todos: seq<Todo>, added: seq<nat>, caps: seq<nat>,
          ph: Phase, live: nat, c: nat)
    requires Mid(fr, lay, view, todos, added, caps) && BatchFrame(fr, ph, live) && QuotaOk(fr.par, ph, Tails(lay))
    requires c < |view| == |todos| == |lay.roles| && todos[c] == BodyTodo(fr.par, ph, lay.roles[c])
    ensures lay.roles[c].Src? ==>
      var q := NewQuota(fr.par, lay.roles[c].parity);
      && Due(fr.par, ph, lay.roles[c]) == Surplus(fr.par, ph, lay.roles[c].parity)
      && (|Sel(view[c].blocks, AnyData)| > q * live <==> Due(fr.par, ph, lay.roles[c]) > 0)
      && (Due(fr.par, ph, lay.roles[c]) > 0 ==> Due(fr.par, ph, lay.roles[c]) == (ph.xi - 1) * q)
      && |Sel(view[c].blocks, AnyData)| >= q * live
      && view[c].kind == (if lay.roles[c].parity then L else D)
    ensures lay.roles[c] == Glob ==> |Sel(view[c].blocks, AnyData)| == 0 && view[c].kind != D
    ensures lay.roles[c] == Free ==>
      view[c].kind == D && |view[c].blocks| == |Sel(view[c].blocks, AnyData)| <= fr.par.g + 1
  {
    MidAt(fr, lay, view, todos, added, caps, c);
    var role, v := lay.roles[c], view[c];
    hide Mid;
    match role
    case Src(i, parity) =>
      SurplusOk(fr.par, ph, Tails(lay), parity);
      TotalNeedStep(fr.par, ph, parity);
      SourceMeasure(fr.par, ph, parity, live);
    case Glob =>
      assert forall j :: 0 <= j < |v.blocks| ==> v.blocks[j] in v.blocks;
      SelNone(v.blocks, AnyData);
    case Free =>
      assert forall j :: 0 <= j < |v.blocks| ==> v.blocks[j] in v.blocks;
      SelAll(v.blocks, AnyData);
  }

  /** aux is aux0 with cluster c settled and possibly new free clusters. */
  ghost predicate Settled(aux0: Aux, aux: Aux, c: nat) {
    && |aux0.todos| == |aux0.lay.roles| <= |aux.lay.roles| == |aux.todos| && c < |aux0.todos|
    && aux.lay.tail == aux0.lay.tail && aux.lay.gid == aux0.lay.gid
    && (forall e :: 0 <= e < |aux0.lay.roles| ==> aux.lay.roles[e] == aux0.lay.roles[e])
    && (forall e :: |aux0.lay.roles| <= e < |aux.lay.roles| ==> aux.lay.roles[e] == Free)
    && (forall e :: 0 <= e < |aux0.todos| && e != c ==> aux.todos[e] == aux0.todos[e])
    && aux.todos[c] == Clean
  }

  /** Free places after `due` blocks have been placed for role's group. */
  ghost predicate CapsSettled(caps0: seq<nat>, caps: seq<nat>, role: Role, due: nat) {
    if role.Src? then CapsSince(caps0, caps, role.group, due) else caps == caps0
  }

  /** Relocation can start. */
  lemma {:induction false} RelocStart(fr: Frame, aux: Aux, view: View, added: seq<nat>, c: nat, total: nat)
    requires MidA(fr, aux, view, added) && c < |view| == |aux.lay.roles| == |aux.todos| && aux.lay.roles[c].Src?
    requires aux.todos[c].extra == total
    ensures Reloc(fr, aux, aux, view, added, c, 0, 0, total)
  {
    MidAt(fr, aux.lay, view, aux.todos, added, aux.caps, c);
  }

  lemma {:induction false} SettleDone(fr: Frame, aux0: Aux, aux: Aux, view: View, added: seq<nat>, c: nat)
    requires MidA(fr, aux, view, added) && Since(aux0, aux, c) && c < |view| == |aux.lay.roles| == |aux.todos|
    requires aux.lay.roles[c] == Free || aux.todos[c].extra == 0
    requires aux.todos[c].locals ==> view[c].kind != L || (aux.lay.roles[c].Src? && !aux.lay.roles[c].parity)
    requires aux.lay.roles[c] == Glob ==> !aux.todos[c].globals
    ensures var aux' := aux.(todos := aux.todos[c := Clean]);
      MidA(fr, aux', view, added) && Settled(aux0, aux', c)
  {
    MidAt(fr, aux.lay, view, aux.todos, added, aux.caps, c);
    MidSettled(fr, aux.lay, view, aux.todos, added, aux.caps, c);
  }

  lemma {:induction false} SinceLocals(aux: Aux, c: nat, todo: Todo)
    requires c < |aux.todos| == |aux.lay.roles|
    ensures Since(aux, aux, c) && Since(aux, aux.(todos := aux.todos[c := todo]), c)
    ensures CapsSettled(aux.caps, aux.caps, Free, 0)
    ensures aux.lay.roles[c].Src? && aux.lay.roles[c].group < |aux.caps| ==>
      CapsSettled(aux.caps, aux.caps, aux.lay.roles[c], 0)
  {}

  lemma {:induction false} SinceTrans(aux0: Aux, aux1: Aux, aux: Aux, c: nat)
    requires Since(aux0, aux1, c) && Since(aux1, aux, c)
    ensures Since(aux0, aux, c) && aux.lay.roles[c] == aux1.lay.roles[c] == aux0.lay.roles[c]
  {}
}
