/** First-fit relocation: where moved blocks land, and why at most one cluster of
each stripe and group is left with room. */
module MergeFit {
  import opened Blocks
  import opened Clusters
  import opened MergeState
  import opened MergeSteps
  import opened MergeView

  /** Moving the block at position j of cluster c to cluster d; d may be new. */
  function MoveView(view: View, c: nat, j: nat, d: nat): (r: View)
    requires c < |view| && j < |view[c].blocks| && d <= |view| && d != c
    ensures |r| == if d < |view| then |view| else |view| + 1
  {
    var b := view[c].blocks[j].(cluster := d);
    var out := view[c := PopVal(view[c], j)];
    if d < |view| then out[d := AddVal(view[d], b)] else out + [AddVal(ClusterVal([], D), b)]
  }

  function RolesAfter(roles: seq<Role>, n: nat): seq<Role> {
    if |roles| < n then roles + [Free] else roles
  }

  /** The layout when the move opened a new cluster. */
  function Grown(lay: Layout, n: nat): Layout { lay.(roles := RolesAfter(lay.roles, n)) }

  function TodosAfter(todos: seq<Todo>, c: nat, n: nat): seq<Todo>
    requires c < |todos| && todos[c].extra >= 1
  {
    var t := todos[c := todos[c].(extra := todos[c].extra - 1)];
    if |t| < n then t + [Clean] else t
  }

  ghost predicate MoveOk(par: Params, ph: Phase, lay: Layout, view: View, todos: seq<Todo>, c: nat, j: nat, d: nat) {
    && |lay.roles| == |view| == |todos| && c < |view| && lay.roles[c].Src? && todos[c].extra >= 1
    && j < |view[c].blocks| && d <= |view| && d != c
    && var b := view[c].blocks[j];
       b.kind == D && b.stripe == ph.t - 1 && ph.t >= 1
       && (d < |view| ==> Roomy(par, lay.roles, view, d, b.stripe, b.group))
  }

  lemma {:induction false} GrownOk(par: Params, lay: Layout, n: nat)
    requires LayoutOk(par, lay)
    ensures LayoutOk(par, Grown(lay, n)) && Tails(Grown(lay, n)) == Tails(lay)
  {
    var lay' := Grown(lay, n);
    forall c | 0 <= c < |lay'.roles| && lay'.roles[c].Src? ensures SrcRoleOk(par, lay', c, lay'.roles[c]) {
      assert SrcRoleOk(par, lay, c, lay.roles[c]);
    }
  }

  lemma {:induction false} MoveTotOk(par: Params, ph: Phase, view: View, c: nat, j: nat, d: nat)
    requires TotOk(par, ph, view)
    requires c < |view| && j < |view[c].blocks| && d <= |view| && d != c
    ensures TotOk(par, ph, MoveView(view, c, j, d))
  {
    forall s, i | Live(ph, s) && 0 <= i < par.l
      ensures Tot(MoveView(view, c, j, d), DataAt(s, i)) == SizeOf(par, ph, s)
    {
      TotMove(view, c, j, d, DataAt(s, i));
    }
    forall n | 0 <= n < par.x * par.K() ensures Tot(MoveView(view, c, j, d), DataNum(n)) == 1 {
      TotMove(view, c, j, d, DataNum(n));
    }
  }

  /** The invariant of one cluster, given by its position. */
  ghost predicate At(par: Params, ph: Phase, lay: Layout, view: View, todos: seq<Todo>, c: int) {
    |lay.roles| == |view| == |todos| && 0 <= c < |view|
    && ClusterOk(par, ph, Tails(lay), c, lay.roles[c], view[c], todos[c])
  }

  lemma {:induction false} MoveSource(par: Params, ph: Phase, lay: Layout, view: View, todos: seq<Todo>, c: nat, j: nat,
          d: nat)
    requires MoveOk(par, ph, lay, view, todos, c, j, d) && At(par, ph, lay, view, todos, c)
    ensures var r := MoveView(view, c, j, d);
      At(par, ph, Grown(lay, |r|), r, TodosAfter(todos, c, |r|), c)
  {
    MoveOut(par, ph, Tails(lay), c, lay.roles[c], view[c], todos[c], j);
  }

  lemma {:induction false} MoveTarget(par: Params, ph: Phase, lay: Layout, view: View, todos: seq<Todo>, c: nat, j: nat,
          d: nat)
    requires MoveOk(par, ph, lay, view, todos, c, j, d) && At(par, ph, lay, view, todos, c)
    requires d < |view| ==> At(par, ph, lay, view, todos, d)
    ensures var r := MoveView(view, c, j, d);
      At(par, ph, Grown(lay, |r|), r, TodosAfter(todos, c, |r|), d)
  {
    var b := view[c].blocks[j];
    assert b in view[c].blocks && BlockOk(par, ph, c, b);
    MoveIn(par, ph, Tails(lay), d, if d < |view| then view[d] else ClusterVal([], D),
           if d < |view| then todos[d] else Clean, b);
  }

  /** A move keeps the invariant and pays off one block of the surplus. */
  lemma {:induction false} MoveViewOk(par: Params, ph: Phase, lay: Layout, view: View, todos: seq<Todo>, c: nat, j: nat,
          d: nat)
    requires ViewOk(par, ph, lay, view, todos) && MoveOk(par, ph, lay, view, todos, c, j, d)
    ensures var r := MoveView(view, c, j, d);
      ViewOk(par, ph, Grown(lay, |r|), r, TodosAfter(todos, c, |r|))
  {
    var r := MoveView(view, c, j, d);
    var lay', todos' := Grown(lay, |r|), TodosAfter(todos, c, |r|);
    GrownOk(par, lay, |r|);
    MoveTotOk(par, ph, view, c, j, d);
    assert At(par, ph, lay, view, todos, c);
    if d < |view| { assert At(par, ph, lay, view, todos, d); }
    MoveSource(par, ph, lay, view, todos, c, j, d);
    MoveTarget(par, ph, lay, view, todos, c, j, d);
    forall e | 0 <= e < |r|
      ensures ClusterOk(par, ph, Tails(lay'), e, lay'.roles[e], r[e], todos'[e])
    {
      if e != c && e != d {
        assert At(par, ph, lay, view, todos, e);
      }
    }
  }
}
