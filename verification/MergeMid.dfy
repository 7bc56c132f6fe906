/** The state inside a batch, after retagging: the invariant with outstanding
work, plus the first-fit bookkeeping. Each code step maps Mid to Mid. */
module MergeMid {
  import opened Blocks
  import opened Clusters
  import opened MergeState
  import opened MergeSteps
  import opened MergeView
  import opened MergeFit
  import opened FirstFit
  import opened MergeBatch
  import opened Sums
  import opened Arith

  /** What stays fixed during a batch: `ph` is the phase after the merge, so the
      merged stripe is ph.t - 1. */
  datatype Frame = Frame(par: Params, ph: Phase, order: seq<nat>, olds: seq<set<nat>>, news: seq<set<nat>>, r0: nat) {
    function S(): int { ph.t - 1 }
  }

  ghost predicate Mid(fr: Frame, lay: Layout, view: View, todos: seq<Todo>, added: seq<nat>, caps: seq<nat>) {
    && fr.ph.t >= 1
    && ViewOk(fr.par, fr.ph, lay, view, todos)
    && Listed(lay.roles, view, fr.order, added, fr.S()) && Spans(lay.roles, view, fr.order, fr.S())
    && OthersOk(fr.par, fr.ph, lay.roles, view, fr.olds, fr.news)
    && |caps| == fr.par.l
    && forall i :: 0 <= i < fr.par.l ==> FitOk(fr.par, lay.roles, view, fr.order, added, fr.S(), i, fr.r0, caps[i])
  }

  /** A block of group i leaves: one free place fewer, if there was one. */
  function CapsAfter(caps: seq<nat>, i: nat): (r: seq<nat>)
    requires i < |caps|
    ensures |r| == |caps| && r[i] == (if caps[i] > 0 then caps[i] - 1 else 0)
    ensures forall i' :: 0 <= i' < |caps| && i' != i ==> r[i'] == caps[i']
  {
    caps[i := if caps[i] > 0 then caps[i] - 1 else 0]
  }

  lemma {:induction false} MidFit(fr: Frame, lay: Layout, view: View, todos: seq<Todo>, added: seq<nat>, caps: seq<nat>,
          c: nat, j: nat, d: nat)
    requires Mid(fr, lay, view, todos, added, caps)
    requires Moving(fr.par, lay.roles, view, fr.order, added, fr.S(), c, j, d)
    requires Chosen(fr.par, lay.roles, view, fr.order, added, fr.S(), view[c].blocks[j].group, d)
    requires 0 <= view[c].blocks[j].group < fr.par.l
    ensures var r := MoveView(view, c, j, d);
      var roles', added', caps' :=
        RolesAfter(lay.roles, |r|), AddedAfter(view, added, d), CapsAfter(caps, view[c].blocks[j].group);
      && Listed(roles', r, fr.order, added', fr.S())
      && forall i :: 0 <= i < fr.par.l ==> FitOk(fr.par, roles', r, fr.order, added', fr.S(), i, fr.r0, caps'[i])
  {
    var r := MoveView(view, c, j, d);
    var roles', added', caps' :=
      RolesAfter(lay.roles, |r|), AddedAfter(view, added, d), CapsAfter(caps, view[c].blocks[j].group);
    ListedAfter(fr.par, lay.roles, view, fr.order, added, fr.S(), c, j, d);
    forall i | 0 <= i < fr.par.l ensures FitOk(fr.par, roles', r, fr.order, added', fr.S(), i, fr.r0, caps'[i]) {
      FitAfter(fr.par, lay.roles, view, fr.order, added, fr.S(), i, fr.r0, caps[i], c, j, d);
    }
  }

  /** One first-fit move. */
  lemma {:induction false} MidMove(fr: Frame, lay: Layout, view: View, todos: seq<Todo>, added: seq<nat>,
          caps: seq<nat>, c: nat, j: nat, d: nat)
    requires Mid(fr, lay, view, todos, added, caps)
    requires MoveOk(fr.par, fr.ph, lay, view, todos, c, j, d)
    requires Moving(fr.par, lay.roles, view, fr.order, added, fr.S(), c, j, d)
    requires Chosen(fr.par, lay.roles, view, fr.order, added, fr.S(), view[c].blocks[j].group, d)
    requires 0 <= view[c].blocks[j].group < fr.par.l
    ensures var r := MoveView(view, c, j, d);
      Mid(fr, Grown(lay, |r|), r, TodosAfter(todos, c, |r|), AddedAfter(view, added, d),
        CapsAfter(caps, view[c].blocks[j].group))
  {
    hide ViewOk; hide Listed; hide Spans; hide OthersOk; hide FitOk; hide Chosen; hide MoveView; hide TodosAfter;
    hide AddedAfter; hide RolesAfter; hide CapsAfter;
    MoveViewOk(fr.par, fr.ph, lay, view, todos, c, j, d);
    SpansAfter(fr.par, lay.roles, view, fr.order, added, fr.S(), c, j, d);
    MoveKeepsOthers(fr.par, fr.ph, lay.roles, view, fr.olds, fr.news, fr.order, added, c, j, d);
    MidFit(fr, lay, view, todos, added, caps, c, j, d);
  }

  /** Replacing the parities of a shared cluster. */
  lemma {:induction false} MidShared(fr: Frame, lay: Layout, view: View, todos: seq<Todo>, added: seq<nat>,
          caps: seq<nat>, c: nat, v: ClusterVal, todo: Todo)
    requires Mid(fr, lay, view, todos, added, caps) && c < |view| && lay.roles[c] != Free
    requires ClusterOk(fr.par, fr.ph, Tails(lay), c, lay.roles[c], v, todo)
    requires forall q :: DataQuery(q) ==> |Sel(v.blocks, q)| == |Sel(view[c].blocks, q)|
    ensures Mid(fr, lay, view[c := v], todos[c := todo], added, caps)
  {
    SetCluster(fr.par, fr.ph, lay, view, todos, c, v, todo);
    SharedKeepsOthers(fr.par, fr.ph, lay.roles, view, fr.olds, fr.news, c, v);
    SharedKeepsFit(fr.par, lay.roles, view, fr.order, added, fr.S(), 0, 0, 0, c, v);
    forall i | 0 <= i < fr.par.l
      ensures FitOk(fr.par, lay.roles, view[c := v], fr.order, added, fr.S(), i, fr.r0, caps[i])
    {
      SharedKeepsFit(fr.par, lay.roles, view, fr.order, added, fr.S(), i, fr.r0, caps[i], c, v);
    }
  }

  /** Writing off work that a cluster does not have. */
  lemma {:induction false} MidTodo(fr: Frame, lay: Layout, view: View, todos: seq<Todo>, added: seq<nat>,
          caps: seq<nat>, c: nat, todo: Todo)
    requires Mid(fr, lay, view, todos, added, caps) && c < |view|
    requires ClusterOk(fr.par, fr.ph, Tails(lay), c, lay.roles[c], view[c], todo)
    ensures Mid(fr, lay, view, todos[c := todo], added, caps)
  {}

  // ------------------------------------------------------------------
  // Does a cluster take a block of group i?

  /** The test the relocation makes on a candidate cluster. */
  predicate Takes(par: Params, v: ClusterVal, i: int) {
    v.kind == D && |v.blocks| < par.g + 1 && v.blocks != [] && v.blocks[0].group == i
  }

  lemma {:induction false} TotalNeedGe(par: Params, ph: Phase, parity: bool, extra: nat)
    requires ph.t >= 1 && ph.t * ph.xi <= ph.x
    ensures TotalNeed(par, ph, parity, extra) >= NewQuota(par, parity)
  {
    MulMono(1, ph.t, NewQuota(par, parity));
    MulMono(0, ph.x - ph.t * ph.xi, OldQuota(par, ph, parity));
  }

  lemma {:induction false} PinIsFull(par: Params, ph: Phase, tails: bool, c: int, role: Role, v: ClusterVal, todo: Todo)
    requires ClusterOk(par, ph, tails, c, role, v, todo) && ph.t >= 1 && role.Src? && !role.parity
    ensures |v.blocks| >= par.g + 1
  {
    SelMembers(v.blocks, AnyData);
    TotalNeedGe(par, ph, false, todo.extra);
  }

  lemma {:induction false} TakesIff(par: Params, ph: Phase, lay: Layout, view: View, todos: seq<Todo>, c: nat, s: int,
          i: int)
    requires At(par, ph, lay, view, todos, c) && ph.t >= 1
    requires lay.roles[c] != Free || Opened(lay.roles, view, c, s)
    ensures Takes(par, view[c], i) <==> Roomy(par, lay.roles, view, c, s, i)
    ensures view[c].kind == D && |view[c].blocks| < par.g + 1 ==> view[c].blocks != []
  {
    var role := lay.roles[c];
    if role.Src? && !role.parity { PinIsFull(par, ph, Tails(lay), c, role, view[c], todos[c]); }
  }

  /** All listed and added clusters can be tested that way. */
  lemma {:induction false} MidTakes(fr: Frame, lay: Layout, view: View, todos: seq<Todo>, added: seq<nat>,
          caps: seq<nat>, c: nat, i: int)
    requires Mid(fr, lay, view, todos, added, caps) && (c in fr.order || c in added)
    ensures c < |view| && (Takes(fr.par, view[c], i) <==> Roomy(fr.par, lay.roles, view, c, fr.S(), i))
    ensures view[c].kind == D && |view[c].blocks| < fr.par.g + 1 ==> view[c].blocks != []
  {
    if c in fr.order {
      var p :| 0 <= p < |fr.order| && fr.order[p] == c;
    } else {
      var f :| 0 <= f < |added| && added[f] == c;
      assert Opened(lay.roles, view, added[f], fr.S());
    }
    assert At(fr.par, fr.ph, lay, view, todos, c);
    TakesIff(fr.par, fr.ph, lay, view, todos, c, fr.S(), i);
  }

  /** Testing a cluster never looks at the first block of an empty list. */
  predicate Testable(par: Params, v: ClusterVal) { v.kind == D && |v.blocks| < par.g + 1 ==> v.blocks != [] }

  lemma {:induction false} MidTestable(fr: Frame, lay: Layout, view: View, todos: seq<Todo>, added: seq<nat>,
          caps: seq<nat>)
    requires Mid(fr, lay, view, todos, added, caps)
    ensures Within(fr.order, |view|) && Within(added, |view|)
    ensures forall p :: 0 <= p < |fr.order| ==> Testable(fr.par, view[fr.order[p]])
    ensures forall f :: 0 <= f < |added| ==> Testable(fr.par, view[added[f]])
  {
    forall p | 0 <= p < |fr.order| ensures Testable(fr.par, view[fr.order[p]]) {
      MidTakes(fr, lay, view, todos, added, caps, fr.order[p], 0);
    }
    forall f | 0 <= f < |added| ensures Testable(fr.par, view[added[f]]) {
      MidTakes(fr, lay, view, todos, added, caps, added[f], 0);
    }
  }

  /** The two scans together make the first-fit choice. */
  lemma {:induction false} MidChosen(fr: Frame, lay: Layout, view: View, todos: seq<Todo>, added: seq<nat>,
          caps: seq<nat>, c: nat, i: int, k: nat, k': nat)
    requires Mid(fr, lay, view, todos, added, caps) && c < |view| && lay.roles[c].Src?
    requires Within(fr.order, |view|) && Within(added, |view|) && k <= |fr.order| && k' <= |added|
    requires forall p :: 0 <= p < k ==> fr.order[p] == c || !Takes(fr.par, view[fr.order[p]], i)
    requires k < |fr.order| ==> fr.order[k] != c && Takes(fr.par, view[fr.order[k]], i)
    requires forall p :: 0 <= p < k' ==> added[p] == c || !Takes(fr.par, view[added[p]], i)
    requires k' < |added| ==> added[k'] != c && Takes(fr.par, view[added[k']], i)
    ensures var d := if k < |fr.order| then fr.order[k] else if k' < |added| then added[k'] else |view|;
      && d != c && (d < |view| ==> Roomy(fr.par, lay.roles, view, d, fr.S(), i))
      && Chosen(fr.par, lay.roles, view, fr.order, added, fr.S(), i, d)
  {
    forall p | 0 <= p < |fr.order|
      ensures Takes(fr.par, view[fr.order[p]], i) <==> Roomy(fr.par, lay.roles, view, fr.order[p], fr.S(), i)
    {
      MidTakes(fr, lay, view, todos, added, caps, fr.order[p], i);
    }
    forall f | 0 <= f < |added|
      ensures Takes(fr.par, view[added[f]], i) <==> Roomy(fr.par, lay.roles, view, added[f], fr.S(), i)
    {
      MidTakes(fr, lay, view, todos, added, caps, added[f], i);
    }
  }

  // ------------------------------------------------------------------
  // Parity replacement and settling, at one cluster.

  lemma {:induction false} MidAt(fr: Frame, lay: Layout, view: View, todos: seq<Todo>, added: seq<nat>, caps: seq<nat>,
          c: nat)
    requires Mid(fr, lay, view, todos, added, caps) && c < |view|
    ensures |lay.roles| == |view| == |todos| && fr.ph.t >= 1
    ensures fr.par.Ok() && PhaseOk(fr.par, fr.ph)
    ensures ClusterOk(fr.par, fr.ph, Tails(lay), c, lay.roles[c], view[c], todos[c])
    ensures lay.roles[c].Src? ==> SrcRoleOk(fr.par, lay, c, lay.roles[c])
    ensures lay.roles[c] == Free ==> view[c].kind == D
    ensures lay.gid < |view| && (c == lay.gid ==> lay.roles[c] == Glob && view[c].kind != D)
  {}

  lemma {:induction false} MidCaps(fr: Frame, lay: Layout, view: View, todos: seq<Todo>, added: seq<nat>,
          caps: seq<nat>, c: nat)
    requires Mid(fr, lay, view, todos, added, caps) && c < |lay.roles|
    ensures |caps| == fr.par.l && (lay.roles[c].Src? ==> lay.roles[c].group < |caps|)
  {
    if lay.roles[c].Src? { assert SrcRoleOk(fr.par, lay, c, lay.roles[c]); }
  }

  lemma {:induction false} MidLocals(fr: Frame, lay: Layout, view: View, todos: seq<Todo>, added: seq<nat>,
          caps: seq<nat>, c: nat, more: seq<Block>)
    requires Mid(fr, lay, view, todos, added, caps) && c < |view| && |todos| == |view| && todos[c].locals
    requires view[c].kind == L
    requires FreshLocals(fr.par, c, fr.S(), DoomedGroups(view[c].blocks, fr.S(), L), more)
    ensures Mid(fr, lay, view[c := NewLocals(fr.ph, view[c], more)], todos[c := todos[c].(locals := false)], added,
      caps)
  {
    hide Mid; hide ClusterOk; hide FreshLocals; hide NewLocals;
    MidAt(fr, lay, view, todos, added, caps, c);
    var v, role, todo := view[c], lay.roles[c], todos[c];
    StaleGroups(fr.par, fr.ph, Tails(lay), c, role, v, todo);
    LocalsDone(fr.par, fr.ph, Tails(lay), c, role, v, todo, more);
    forall q | DataQuery(q) ensures |Sel(NewLocals(fr.ph, v, more).blocks, q)| == |Sel(v.blocks, q)| {
      LocalsKeepData(fr.par, fr.ph, c, v, HeldGroups(fr.par, role), more, q);
    }
    MidShared(fr, lay, view, todos, added, caps, c, NewLocals(fr.ph, v, more), todo.(locals := false));
  }

  lemma {:induction false} MidGlobals(fr: Frame, lay: Layout, view: View, todos: seq<Todo>, added: seq<nat>,
          caps: seq<nat>)
    requires Mid(fr, lay, view, todos, added, caps) && lay.gid < |view| == |todos| && todos[lay.gid].globals
    ensures Mid(fr, lay, view[lay.gid := NewGlobals(fr.par, fr.ph, lay.gid, view[lay.gid])],
                todos[lay.gid := todos[lay.gid].(globals := false)], added, caps)
  {
    hide Mid; hide ClusterOk; hide NewGlobals;
    var c := lay.gid;
    MidAt(fr, lay, view, todos, added, caps, c);
    GlobalsDone(fr.par, fr.ph, Tails(lay), c, view[c], todos[c]);
    forall q | DataQuery(q) ensures |Sel(NewGlobals(fr.par, fr.ph, c, view[c]).blocks, q)| == |Sel(view[c].blocks, q)| {
      GlobalsKeepData(fr.par, fr.ph, c, view[c], q);
    }
    MidShared(fr, lay, view, todos, added, caps, c, NewGlobals(fr.par, fr.ph, c, view[c]), todos[c].(globals := false));
  }

  /** Nothing is outstanding at c any more. */
  lemma {:induction false} MidSettled(fr: Frame, lay: Layout, view: View, todos: seq<Todo>, added: seq<nat>,
          caps: seq<nat>, c: nat)
    requires Mid(fr, lay, view, todos, added, caps) && c < |view| == |todos| == |lay.roles|
    requires lay.roles[c] == Free || (todos[c].extra == 0 && (todos[c].locals ==> view[c].kind != L))
    requires lay.roles[c] == Glob ==> !todos[c].globals
    ensures Mid(fr, lay, view, todos[c := Clean], added, caps)
  {
    assert At(fr.par, fr.ph, lay, view, todos, c);
    MidTodo(fr, lay, view, todos, added, caps, c, Clean);
  }
}
