/** Replacing parities and moving one data block, cluster by cluster. Each lemma
discharges one piece of the work outstanding for the newest merged stripe. */
module MergeSteps {
  import opened Blocks
  import opened Clusters
  import opened MergeState

  /** A cluster after `more` has been appended to it. */
  function Extend(v: ClusterVal, more: seq<Block>): ClusterVal {
    v.(blocks := v.blocks + more)
  }

  /** Dropping kind t of the newest stripe and appending `more` of the same. */
  lemma {:induction false} ReplaceSel(bs: seq<Block>, s: int, t: Kind, more: seq<Block>, q: Query)
    requires forall b :: b in more ==> Doomed(b, s, t)
    ensures (forall b :: Doomed(b, s, t) ==> !Hit(b, q)) ==> Sel(Drop(bs, s, t) + more, q) == Sel(bs, q)
    ensures q.ParityAt? && q.kind == t && q.stripe == s ==> Sel(Drop(bs, s, t) + more, q) == Sel(more, q)
  {
    SelConcat(Drop(bs, s, t), more, q);
    if forall b :: Doomed(b, s, t) ==> !Hit(b, q) {
      SelDrop(bs, s, t, q);
      assert forall j :: 0 <= j < |more| ==> more[j] in more;
      SelNone(more, q);
    }
    if q.ParityAt? && q.kind == t && q.stripe == s {
      DropMembers(bs, s, t);
      assert forall j :: 0 <= j < |Drop(bs, s, t)| ==> Drop(bs, s, t)[j] in Drop(bs, s, t);
      SelNone(Drop(bs, s, t), q);
    }
  }

  lemma {:induction false} ReplaceBlocksOk(par: Params, ph: Phase, c: int, bs: seq<Block>, s: int, t: Kind,
          more: seq<Block>)
    requires par.Ok() && PhaseOk(par, ph)
    requires forall b :: b in bs ==> BlockOk(par, ph, c, b)
    requires forall b :: b in more ==> BlockOk(par, ph, c, b)
    ensures forall b :: b in Drop(bs, s, t) + more ==> BlockOk(par, ph, c, b)
  {
    DropMembers(bs, s, t);
  }

  lemma {:induction false} GlobalBlocks(par: Params, ph: Phase, c: int)
    requires par.Ok() && PhaseOk(par, ph) && ph.t >= 1
    ensures forall b :: b in GlobalParities(par, c, ph.t - 1) ==>
      BlockOk(par, ph, c, b) && Doomed(b, ph.t - 1, G) && b.group == par.l
    ensures Sel(GlobalParities(par, c, ph.t - 1), ParityAt(G, ph.t - 1, par.l)) == GlobalParities(par, c, ph.t - 1)
  {
    SelAll(GlobalParities(par, c, ph.t - 1), ParityAt(G, ph.t - 1, par.l));
  }

  function NewGlobals(par: Params, ph: Phase, c: int, v: ClusterVal): ClusterVal {
    Extend(DropVal(v, ph.t - 1, G), GlobalParities(par, c, ph.t - 1))
  }

  /** Local parities survive whatever keeps their query answers. */
  lemma {:induction false} LocalKept(par: Params, ph: Phase, c: int, v: ClusterVal, r: ClusterVal, i: int, stale: bool)
    requires LocalOk(par, ph, c, v, i, stale)
    requires forall s :: Live(ph, s) ==> Sel(r.blocks, ParityAt(L, s, i)) == Sel(v.blocks, ParityAt(L, s, i))
    ensures LocalOk(par, ph, c, r, i, stale)
  {}

  lemma {:induction false} GlobalsKeepLocals(par: Params, ph: Phase, c: int, v: ClusterVal, i: int, stale: bool)
    requires par.Ok() && PhaseOk(par, ph) && ph.t >= 1
    requires LocalOk(par, ph, c, v, i, stale)
    ensures LocalOk(par, ph, c, NewGlobals(par, ph, c, v), i, stale)
  {
    hide Sel; hide Drop; hide LocalOk; hide GlobalParities; hide PhaseOk;
    GlobalBlocks(par, ph, c);
    var r := NewGlobals(par, ph, c, v);
    forall s | Live(ph, s) ensures Sel(r.blocks, ParityAt(L, s, i)) == Sel(v.blocks, ParityAt(L, s, i)) {
      ReplaceSel(v.blocks, ph.t - 1, G, GlobalParities(par, c, ph.t - 1), ParityAt(L, s, i));
    }
    LocalKept(par, ph, c, v, r, i, stale);
  }

  lemma {:induction false} GlobalsFound(par: Params, ph: Phase, c: int, v: ClusterVal)
    requires par.Ok() && PhaseOk(par, ph) && ph.t >= 1
    requires GlobalOk(par, ph, c, v, true)
    ensures GlobalOk(par, ph, c, NewGlobals(par, ph, c, v), false)
  {
    hide Sel; hide Drop; hide GlobalParities; hide PhaseOk; hide BlockOk; hide Live;
    GlobalBlocks(par, ph, c);
    forall s | Live(ph, s)
      ensures Sel(NewGlobals(par, ph, c, v).blocks, ParityAt(G, s, par.l)) == GlobalParities(par, c, s)
    {
      ReplaceSel(v.blocks, ph.t - 1, G, GlobalParities(par, c, ph.t - 1), ParityAt(G, s, par.l));
    }
  }

  lemma {:induction false} GlobalsShape(par: Params, ph: Phase, tails: bool, c: int, v: ClusterVal)
    requires par.Ok() && PhaseOk(par, ph) && ph.t >= 1
    requires ShapeOk(par, tails, Glob, v)
    requires forall b :: b in v.blocks ==> BlockOk(par, ph, c, b)
    ensures ShapeOk(par, tails, Glob, NewGlobals(par, ph, c, v))
    ensures forall b :: b in NewGlobals(par, ph, c, v).blocks ==> BlockOk(par, ph, c, b)
  {
    hide BlockOk; hide GlobalParities; hide Drop; hide PhaseOk; hide Sel;
    var s, more := ph.t - 1, GlobalParities(par, c, ph.t - 1);
    GlobalBlocks(par, ph, c);
    ReplaceBlocksOk(par, ph, c, v.blocks, s, G, more);
    DropMembers(v.blocks, s, G);
    assert forall b :: b in NewGlobals(par, ph, c, v).blocks ==> b in v.blocks || b in more;
  }

  /** Recomputing the global parities of the newest stripe. */
  lemma {:induction false} GlobalsDone(par: Params, ph: Phase, tails: bool, c: int, v: ClusterVal, todo: Todo)
    requires ClusterOk(par, ph, tails, c, Glob, v, todo) && todo.globals && ph.t >= 1
    ensures ClusterOk(par, ph, tails, c, Glob, NewGlobals(par, ph, c, v), todo.(globals := false))
  {
    GlobalsShape(par, ph, tails, c, v);
    GlobalsFound(par, ph, c, v);
    if !tails {
      forall i | 0 <= i < par.l ensures LocalOk(par, ph, c, NewGlobals(par, ph, c, v), i, todo.locals) {
        GlobalsKeepLocals(par, ph, c, v, i, todo.locals);
      }
    }
  }

  // ------------------------------------------------------------------
  // Local parities.

  /** `more` holds one recomputed local parity per group in `groups`. */
  ghost predicate FreshLocals(par: Params, c: int, s: int, groups: set<int>, more: seq<Block>) {
    && (forall b :: b in more ==> b.group in groups && b == LocalParity(par, c, s, b.group))
    && (forall i :: i in groups ==> Sel(more, ParityAt(L, s, i)) == [LocalParity(par, c, s, i)])
  }

  lemma {:induction false} FreshDoomed(par: Params, c: int, s: int, groups: set<int>, more: seq<Block>)
    requires FreshLocals(par, c, s, groups, more)
    ensures forall b :: b in more ==> Doomed(b, s, L) && b.group in groups
  {
    hide Sel;
    forall b | b in more ensures Doomed(b, s, L) {
      assert b == LocalParity(par, c, s, b.group);
    }
  }

  lemma {:induction false} FreshLocalsAppend(par: Params, c: int, s: int, groups: set<int>, more: seq<Block>, i: int)
    requires FreshLocals(par, c, s, groups, more) && i !in groups
    ensures FreshLocals(par, c, s, groups + {i}, more + [LocalParity(par, c, s, i)])
  {
    var b := LocalParity(par, c, s, i);
    forall i' | i' in groups + {i}
      ensures Sel(more + [b], ParityAt(L, s, i')) == [LocalParity(par, c, s, i')]
    {
      SelAppend(more, b, ParityAt(L, s, i'));
      if i' == i {
        assert forall j :: 0 <= j < |more| ==> more[j] in more;
        SelNone(more, ParityAt(L, s, i));
      }
    }
  }

  function NewLocals(ph: Phase, v: ClusterVal, more: seq<Block>): ClusterVal {
    Extend(DropVal(v, ph.t - 1, L), more)
  }

  function GroupIds(n: nat): (r: set<int>)
    ensures forall i :: i in r <==> 0 <= i < n
  {
    if n == 0 then {} else GroupIds(n - 1) + {n - 1}
  }

  /** The groups whose local parity a cluster of type L holds. */
  function HeldGroups(par: Params, role: Role): set<int> {
    match role
    case Src(i, parity) => if parity then {i} else {}
    case Glob => GroupIds(par.l)
    case Free => {}
  }

  lemma {:induction false} StaleGroup(par: Params, ph: Phase, c: int, v: ClusterVal, i: int)
    requires LocalOk(par, ph, c, v, i, true) && ph.t >= 1
    ensures i in DoomedGroups(v.blocks, ph.t - 1, L)
  {
    var q := ParityAt(L, ph.t - 1, i);
    assert Live(ph, ph.t - 1);
    SelMembers(v.blocks, q);
    var b := Sel(v.blocks, q)[0];
    assert b in Sel(v.blocks, q);
    DropMembers(v.blocks, ph.t - 1, L);
  }

  lemma {:induction false} StaleGroups(par: Params, ph: Phase, tails: bool, c: int, role: Role, v: ClusterVal,
          todo: Todo)
    requires ClusterOk(par, ph, tails, c, role, v, todo) && todo.locals && ph.t >= 1
    requires v.kind == L
    ensures DoomedGroups(v.blocks, ph.t - 1, L) == HeldGroups(par, role)
  {
    forall i | i in HeldGroups(par, role) ensures i in DoomedGroups(v.blocks, ph.t - 1, L) {
      StaleGroup(par, ph, c, v, i);
    }
    forall i | i in DoomedGroups(v.blocks, ph.t - 1, L) ensures i in HeldGroups(par, role) {
      DropMembers(v.blocks, ph.t - 1, L);
      var b :| b in v.blocks && Doomed(b, ph.t - 1, L) && b.group == i;
      assert BlockOk(par, ph, c, b);
    }
  }

  lemma {:induction false} LocalsFound(par: Params, ph: Phase, c: int, v: ClusterVal, groups: set<int>,
          more: seq<Block>, i: int)
    requires LocalOk(par, ph, c, v, i, true) && FreshLocals(par, c, ph.t - 1, groups, more) && i in groups
    ensures LocalOk(par, ph, c, NewLocals(ph, v, more), i, false)
  {
    hide Sel; hide Drop; hide Live; hide LocalParity;
    FreshDoomed(par, c, ph.t - 1, groups, more);
    forall s' | Live(ph, s')
      ensures Sel(NewLocals(ph, v, more).blocks, ParityAt(L, s', i)) == [LocalParity(par, c, s', i)]
    {
      ReplaceSel(v.blocks, ph.t - 1, L, more, ParityAt(L, s', i));
    }
  }

  lemma {:induction false} LocalsBlocks(par: Params, ph: Phase, c: int, v: ClusterVal, groups: set<int>,
          more: seq<Block>)
    requires par.Ok() && PhaseOk(par, ph) && ph.t >= 1
    requires forall i :: i in groups ==> 0 <= i < par.l
    requires forall b :: b in v.blocks ==> BlockOk(par, ph, c, b)
    requires FreshLocals(par, c, ph.t - 1, groups, more)
    ensures forall b :: b in NewLocals(ph, v, more).blocks ==> BlockOk(par, ph, c, b)
  {
    forall b | b in more ensures BlockOk(par, ph, c, b) {
      assert b == LocalParity(par, c, ph.t - 1, b.group);
    }
    ReplaceBlocksOk(par, ph, c, v.blocks, ph.t - 1, L, more);
  }

  lemma {:induction false} LocalsShape(par: Params, ph: Phase, tails: bool, c: int, role: Role, v: ClusterVal,
          more: seq<Block>)
    requires ShapeOk(par, tails, role, v) && v.kind == L
    requires FreshLocals(par, c, ph.t - 1, HeldGroups(par, role), more)
    ensures ShapeOk(par, tails, role, NewLocals(ph, v, more))
  {
    hide Drop; hide Sel; hide FreshLocals;
    DropMembers(v.blocks, ph.t - 1, L);
    FreshDoomed(par, c, ph.t - 1, HeldGroups(par, role), more);
    assert forall b :: b in NewLocals(ph, v, more).blocks ==> b in v.blocks || b in more;
  }

  lemma {:induction false} LocalsKeepRest(par: Params, ph: Phase, c: int, role: Role, v: ClusterVal, todo: Todo,
          more: seq<Block>)
    requires ph.t >= 1 && FreshLocals(par, c, ph.t - 1, HeldGroups(par, role), more)
    ensures role.Src? && SrcOk(par, ph, role, v, todo.extra) ==>
      SrcOk(par, ph, role, NewLocals(ph, v, more), todo.extra)
    ensures GlobalOk(par, ph, c, v, todo.globals) ==> GlobalOk(par, ph, c, NewLocals(ph, v, more), todo.globals)
  {
    var s, r := ph.t - 1, NewLocals(ph, v, more);
    forall s' ensures Sel(r.blocks, ParityAt(G, s', par.l)) == Sel(v.blocks, ParityAt(G, s', par.l)) {
      ReplaceSel(v.blocks, s, L, more, ParityAt(G, s', par.l));
    }
    if role.Src? {
      forall s' ensures Sel(r.blocks, DataAt(s', role.group)) == Sel(v.blocks, DataAt(s', role.group)) {
        ReplaceSel(v.blocks, s, L, more, DataAt(s', role.group));
      }
      ReplaceSel(v.blocks, s, L, more, AnyData);
    }
  }

  /** Recomputing the local parities of the newest stripe in a cluster of type L. */
  lemma {:induction false} LocalsDone(par: Params, ph: Phase, tails: bool, c: int, role: Role, v: ClusterVal,
          todo: Todo, more: seq<Block>)
    requires ClusterOk(par, ph, tails, c, role, v, todo) && todo.locals && ph.t >= 1
    requires role.Src? ==> role.group < par.l
    requires v.kind == L && FreshLocals(par, c, ph.t - 1, HeldGroups(par, role), more)
    ensures ClusterOk(par, ph, tails, c, role, NewLocals(ph, v, more), todo.(locals := false))
  {
    LocalsBlocks(par, ph, c, v, HeldGroups(par, role), more);
    LocalsShape(par, ph, tails, c, role, v, more);
    LocalsKeepRest(par, ph, c, role, v, todo, more);
    forall i | i in HeldGroups(par, role) ensures LocalOk(par, ph, c, NewLocals(ph, v, more), i, false) {
      LocalsFound(par, ph, c, v, HeldGroups(par, role), more, i);
    }
  }

  // ------------------------------------------------------------------
  // Moving one data block of the newest stripe.

  lemma {:induction false} MoveOutCounts(par: Params, ph: Phase, role: Role, v: ClusterVal, extra: nat, j: nat)
    requires role.Src? && SrcOk(par, ph, role, v, extra) && extra >= 1 && ph.t >= 1
    requires j < |v.blocks| && v.blocks[j].kind == D && v.blocks[j].stripe == ph.t - 1
    requires v.blocks[j].group == role.group
    ensures SrcOk(par, ph, role, PopVal(v, j), extra - 1)
  {
    var r := PopVal(v, j);
    forall s | Live(ph, s)
      ensures |Sel(r.blocks, DataAt(s, role.group))| == Need(par, ph, role.parity, s, extra - 1)
    {
      SelPop(v.blocks, j, DataAt(s, role.group));
    }
    SelPop(v.blocks, j, AnyData);
  }

  lemma {:induction false} MoveOutLocals(par: Params, ph: Phase, c: int, v: ClusterVal, i: int, stale: bool, j: nat)
    requires LocalOk(par, ph, c, v, i, stale)
    requires j < |v.blocks| && v.blocks[j].kind == D
    ensures LocalOk(par, ph, c, PopVal(v, j), i, stale)
  {
    var r := PopVal(v, j);
    forall s | Live(ph, s) ensures Sel(r.blocks, ParityAt(L, s, i)) == Sel(v.blocks, ParityAt(L, s, i)) {
      SelPop(v.blocks, j, ParityAt(L, s, i));
    }
    LocalKept(par, ph, c, v, r, i, stale);
  }

  lemma {:induction false} MoveOut(par: Params, ph: Phase, tails: bool, c: int, role: Role, v: ClusterVal, todo: Todo,
          j: nat)
    requires ClusterOk(par, ph, tails, c, role, v, todo) && role.Src? && todo.extra >= 1 && ph.t >= 1
    requires j < |v.blocks| && v.blocks[j].kind == D && v.blocks[j].stripe == ph.t - 1
    ensures ClusterOk(par, ph, tails, c, role, PopVal(v, j), todo.(extra := todo.extra - 1))
  {
    assert v.blocks[j] in v.blocks;
    assert forall b :: b in PopVal(v, j).blocks ==> b in v.blocks;
    MoveOutCounts(par, ph, role, v, todo.extra, j);
    if role.parity { MoveOutLocals(par, ph, c, v, role.group, todo.locals, j); }
  }

  lemma {:induction false} MoveIn(par: Params, ph: Phase, tails: bool, d: int, v: ClusterVal, todo: Todo, b: Block)
    requires par.Ok() && PhaseOk(par, ph)
    requires v == ClusterVal([], D) || (ClusterOk(par, ph, tails, d, Free, v, todo) && |v.blocks| <= par.g
               && v.blocks[0].stripe == b.stripe && v.blocks[0].group == b.group)
    requires b.kind == D && BlockOk(par, ph, b.cluster, b)
    ensures ClusterOk(par, ph, tails, d, Free, AddVal(v, b.(cluster := d)), todo)
  {
    var r := AddVal(v, b.(cluster := d));
    assert forall b' :: b' in r.blocks ==> b' in v.blocks || b' == b.(cluster := d);
    if v.blocks != [] { assert r.blocks[0] == v.blocks[0]; }
  }

  /** Where a block is stored does not affect any count. */
  lemma {:induction false} TotMove(view: View, c: nat, j: nat, d: nat, q: Query)
    requires c < |view| && j < |view[c].blocks| && d <= |view| && d != c
    ensures var b := view[c].blocks[j].(cluster := d);
      var out := view[c := PopVal(view[c], j)];
      Tot(if d < |view| then out[d := AddVal(view[d], b)] else out + [AddVal(ClusterVal([], D), b)], q) == Tot(view, q)
  {
    var b := view[c].blocks[j].(cluster := d);
    var out := view[c := PopVal(view[c], j)];
    TotUpdate(view, c, PopVal(view[c], j), q);
    SelPop(view[c].blocks, j, q);
    assert Hit(b, q) == Hit(view[c].blocks[j], q);
    if d < |view| {
      TotUpdate(out, d, AddVal(view[d], b), q);
      SelAppend(view[d].blocks, b, q);
    } else {
      TotAppend(out, AddVal(ClusterVal([], D), b), q);
      SelAppend([], b, q);
    }
  }
}
