/** Retagging one batch of xi stripes keeps the merge invariant, up to the work
that is then outstanding for the merged stripe. */
module MergeRename {
  import opened Blocks
  import opened Clusters
  import opened MergeState
  import opened Arith

  function Next(ph: Phase): Phase { ph.(t := ph.t + 1) }
  function Lo(ph: Phase): nat { ph.t * ph.xi }
  function Hi(ph: Phase): nat { ph.t * ph.xi + ph.xi }

  ghost predicate BatchOk(par: Params, ph: Phase) { par.Ok() && PhaseOk(par, ph) && Hi(ph) <= ph.x }

  lemma {:induction false} NextOk(par: Params, ph: Phase)
    requires BatchOk(par, ph)
    ensures PhaseOk(par, Next(ph)) && Lo(Next(ph)) == Hi(ph) && ph.t <= Lo(ph)
  {
    assert (ph.t + 1) * ph.xi == ph.t * ph.xi + ph.xi;
    assert ph.t <= ph.t * ph.xi by { MulGe(ph.t, ph.xi); }
  }

  /** Relocating the surplus must lead from xi old quotas to the new quota. */
  function Surplus(par: Params, ph: Phase, parity: bool): int {
    ph.xi * OldQuota(par, ph, parity) - NewQuota(par, parity)
  }

  lemma {:induction false} TagStep(par: Params, ph: Phase, o: nat)
    requires BatchOk(par, ph)
    ensures TagOf(Next(ph), o) ==
      if Lo(ph) <= TagOf(ph, o) < Hi(ph) then ph.t else TagOf(ph, o)
  {
    NextOk(par, ph);
    var c: nat := o / ph.p;
    if c < Lo(ph) {
      DivLess(c, ph.t, ph.xi);
    } else if c < Hi(ph) {
      DivIs(c, ph.t, ph.xi);
    }
  }

  /** The live stripes after the merge: the old ones outside the batch, plus t. */
  lemma {:induction false} LiveStep(par: Params, ph: Phase, s: int)
    requires BatchOk(par, ph)
    ensures Live(Next(ph), s) <==> s == ph.t || (Live(ph, s) && !(Lo(ph) <= s < Hi(ph)))
    ensures Live(ph, s) && s == ph.t ==> Lo(ph) <= s < Hi(ph)
    ensures Lo(ph) <= s < Hi(ph) ==> Live(ph, s)
  {
    NextOk(par, ph);
  }

  lemma {:induction false} RetagBlockOk(par: Params, ph: Phase, c: int, b: Block)
    requires BatchOk(par, ph) && BlockOk(par, ph, c, b)
    ensures PhaseOk(par, Next(ph)) && BlockOk(par, Next(ph), c, RetagOne(b, Lo(ph), Hi(ph), ph.t))
  {
    hide Live; hide TagOf; hide Lo; hide Hi;
    NextOk(par, ph);
    LiveStep(par, ph, b.stripe);
    LiveStep(par, ph, ph.t);
    if b.kind == D { TagStep(par, ph, b.num / par.K()); }
  }

  lemma {:induction false} RetagBlocksOk(par: Params, ph: Phase, c: int, v: ClusterVal)
    requires BatchOk(par, ph)
    requires forall b :: b in v.blocks ==> BlockOk(par, ph, c, b)
    ensures PhaseOk(par, Next(ph))
    ensures forall b :: b in RetagVal(v, Lo(ph), Hi(ph), ph.t).blocks ==> BlockOk(par, Next(ph), c, b)
  {
    hide BlockOk; hide PhaseOk; hide RetagOne;
    NextOk(par, ph);
    var r := Retag(v.blocks, Lo(ph), Hi(ph), ph.t);
    forall j | 0 <= j < |r| ensures BlockOk(par, Next(ph), c, r[j]) {
      assert v.blocks[j] in v.blocks;
      RetagBlockOk(par, ph, c, v.blocks[j]);
    }
  }

  lemma {:induction false} RetagShapeOk(par: Params, ph: Phase, tails: bool, role: Role, v: ClusterVal)
    requires ShapeOk(par, tails, role, v)
    ensures ShapeOk(par, tails, role, RetagVal(v, Lo(ph), Hi(ph), ph.t))
  {
    var r := Retag(v.blocks, Lo(ph), Hi(ph), ph.t);
    forall j | 0 <= j < |r|
      ensures r[j].kind == v.blocks[j].kind && r[j].group == v.blocks[j].group
      ensures v.blocks[j] in v.blocks
    {}
  }

  lemma {:induction false} RetagSrcOk(par: Params, ph: Phase, c: int, role: Role, v: ClusterVal)
    requires BatchOk(par, ph) && role.Src?
    requires forall b :: b in v.blocks ==> BlockOk(par, ph, c, b)
    requires SrcOk(par, ph, role, v, 0) && Surplus(par, ph, role.parity) >= 0
    ensures SrcOk(par, Next(ph), role, RetagVal(v, Lo(ph), Hi(ph), ph.t), Surplus(par, ph, role.parity))
  {
    NextOk(par, ph);
    var i := role.group;
    var r := Retag(v.blocks, Lo(ph), Hi(ph), ph.t);
    forall s | Live(Next(ph), s)
      ensures |Sel(r, DataAt(s, i))| == Need(par, Next(ph), role.parity, s, Surplus(par, ph, role.parity))
    {
      LiveStep(par, ph, s);
      if s == ph.t {
        forall b | b in v.blocks ensures b.stripe != s || Lo(ph) <= s < Hi(ph) {
          LiveStep(par, ph, b.stripe);
        }
        SelRetagBatch(v.blocks, Lo(ph), Hi(ph), s, i);
        forall s' | Lo(ph) <= s' < Hi(ph)
          ensures |Sel(v.blocks, DataAt(s', i))| == OldQuota(par, ph, role.parity)
        {
          LiveStep(par, ph, s');
        }
        BatchCountConst(v.blocks, Lo(ph), Hi(ph), i, OldQuota(par, ph, role.parity));
      } else {
        SelRetagOther(v.blocks, Lo(ph), Hi(ph), ph.t, DataAt(s, i));
      }
    }
    SelRetagOther(v.blocks, Lo(ph), Hi(ph), ph.t, AnyData);
    TotalNeedStep(par, ph, role.parity);
  }

  lemma {:induction false} TotalNeedStep(par: Params, ph: Phase, parity: bool)
    requires Surplus(par, ph, parity) >= 0
    ensures TotalNeed(par, ph, parity, 0) == TotalNeed(par, Next(ph), parity, Surplus(par, ph, parity))
  {
    var qn, qo := NewQuota(par, parity), OldQuota(par, ph, parity);
    assert (ph.t + 1) * qn == ph.t * qn + qn;
    assert (ph.t + 1) * ph.xi == ph.t * ph.xi + ph.xi;
    assert (ph.x - (ph.t * ph.xi + ph.xi)) * qo == (ph.x - ph.t * ph.xi) * qo - ph.xi * qo;
  }

  lemma {:induction false} RetagLocalOk(par: Params, ph: Phase, c: int, v: ClusterVal, i: int)
    requires BatchOk(par, ph) && LocalOk(par, ph, c, v, i, false)
    ensures LocalOk(par, Next(ph), c, RetagVal(v, Lo(ph), Hi(ph), ph.t), i, true)
  {
    var r := Retag(v.blocks, Lo(ph), Hi(ph), ph.t);
    forall s | Live(Next(ph), s)
      ensures var found := Sel(r, ParityAt(L, s, i));
        if s == ph.t then found != [] else found == [LocalParity(par, c, s, i)]
    {
      LiveStep(par, ph, s);
      if s == ph.t {
        LiveStep(par, ph, Lo(ph));
        var old_ := LocalParity(par, c, Lo(ph), i);
        assert Sel(v.blocks, ParityAt(L, Lo(ph), i)) == [old_];
        SelMembers(v.blocks, ParityAt(L, Lo(ph), i));
        assert old_ in v.blocks;
        var j :| 0 <= j < |v.blocks| && v.blocks[j] == old_;
        assert r[j] in r && Hit(r[j], ParityAt(L, s, i));
        SelMembers(r, ParityAt(L, s, i));
      } else {
        SelRetagOther(v.blocks, Lo(ph), Hi(ph), ph.t, ParityAt(L, s, i));
      }
    }
  }

  lemma {:induction false} RetagGlobalOk(par: Params, ph: Phase, c: int, v: ClusterVal)
    requires BatchOk(par, ph) && GlobalOk(par, ph, c, v, false)
    ensures GlobalOk(par, Next(ph), c, RetagVal(v, Lo(ph), Hi(ph), ph.t), true)
  {
    forall s | Live(Next(ph), s) && s != ph.t
      ensures Sel(Retag(v.blocks, Lo(ph), Hi(ph), ph.t), ParityAt(G, s, par.l)) == GlobalParities(par, c, s)
    {
      LiveStep(par, ph, s);
      SelRetagOther(v.blocks, Lo(ph), Hi(ph), ph.t, ParityAt(G, s, par.l));
    }
  }

  function AllTodo(par: Params, ph: Phase, role: Role): Todo
    requires role.Src? ==> Surplus(par, ph, role.parity) >= 0
  {
    Todo(true, true, if role.Src? then Surplus(par, ph, role.parity) else 0)
  }

  /** Retagging turns a clean cluster into one with work outstanding. */
  lemma {:induction false} RetagClusterOk(par: Params, ph: Phase, tails: bool, c: int, role: Role, v: ClusterVal)
    requires BatchOk(par, ph) && ClusterOk(par, ph, tails, c, role, v, Clean)
    requires role.Src? ==> Surplus(par, ph, role.parity) >= 0
    ensures ClusterOk(par, Next(ph), tails, c, role, RetagVal(v, Lo(ph), Hi(ph), ph.t), AllTodo(par, ph, role))
  {
    RetagBlocksOk(par, ph, c, v);
    RetagShapeOk(par, ph, tails, role, v);
    match role
    case Src(i, parity) =>
      RetagSrcOk(par, ph, c, role, v);
      if parity { RetagLocalOk(par, ph, c, v, i); }
    case Glob =>
      RetagGlobalOk(par, ph, c, v);
      if !tails {
        forall i | 0 <= i < par.l
          ensures LocalOk(par, Next(ph), c, RetagVal(v, Lo(ph), Hi(ph), ph.t), i, true)
        {
          RetagLocalOk(par, ph, c, v, i);
        }
      }
    case Free =>
  }

  // ------------------------------------------------------------------
  // Totals.

  function RetagView(view: View, ph: Phase): (r: View)
    ensures |r| == |view|
    ensures forall c :: 0 <= c < |view| ==> r[c] == RetagVal(view[c], Lo(ph), Hi(ph), ph.t)
  {
    seq(|view|, c requires 0 <= c < |view| => RetagVal(view[c], Lo(ph), Hi(ph), ph.t))
  }

  function BatchTot(view: View, lo: int, hi: int, group: int): nat
    decreases hi - lo
  {
    if hi <= lo then 0 else BatchTot(view, lo, hi - 1, group) + Tot(view, DataAt(hi - 1, group))
  }

  lemma {:induction false} BatchTotSnoc(view: View, lo: int, hi: int, group: int)
    requires view != []
    ensures BatchTot(view, lo, hi, group)
      == BatchTot(view[..|view| - 1], lo, hi, group) + BatchCount(view[|view| - 1].blocks, lo, hi, group)
    decreases hi - lo
  {
    if lo < hi { BatchTotSnoc(view, lo, hi - 1, group); }
  }

  lemma {:induction false} BatchTotEmpty(lo: int, hi: int, group: int)
    ensures BatchTot([], lo, hi, group) == 0
    decreases hi - lo
  {
    if lo < hi { BatchTotEmpty(lo, hi - 1, group); }
  }

  lemma {:induction false} BatchTotConst(view: View, lo: int, hi: int, group: int, n: nat)
    requires lo <= hi
    requires forall s :: lo <= s < hi ==> Tot(view, DataAt(s, group)) == n
    ensures BatchTot(view, lo, hi, group) == (hi - lo) * n
    decreases hi - lo
  {
    if lo < hi {
      BatchTotConst(view, lo, hi - 1, group, n);
      assert (hi - lo) * n == (hi - 1 - lo) * n + n;
    }
  }

  lemma {:induction false} TotRetagOther(view: View, ph: Phase, q: Query)
    requires q.DataAt? || q.ParityAt? ==> !(Lo(ph) <= q.stripe < Hi(ph)) && q.stripe != ph.t
    ensures Tot(RetagView(view, ph), q) == Tot(view, q)
  {
    if view != [] {
      var n := |view| - 1;
      assert RetagView(view, ph)[..n] == RetagView(view[..n], ph);
      TotRetagOther(view[..n], ph, q);
      SelRetagOther(view[n].blocks, Lo(ph), Hi(ph), ph.t, q);
    }
  }

  ghost predicate NoStray(view: View, ph: Phase) {
    forall c, b :: 0 <= c < |view| && b in view[c].blocks ==> b.stripe != ph.t || Lo(ph) <= ph.t < Hi(ph)
  }

  lemma {:induction false} TotRetagBatch(view: View, ph: Phase, group: int)
    requires NoStray(view, ph)
    ensures Tot(RetagView(view, ph), DataAt(ph.t, group)) == BatchTot(view, Lo(ph), Hi(ph), group)
  {
    if view == [] {
      BatchTotEmpty(Lo(ph), Hi(ph), group);
    } else {
      var n := |view| - 1;
      assert RetagView(view, ph)[..n] == RetagView(view[..n], ph);
      assert NoStray(view[..n], ph);
      TotRetagBatch(view[..n], ph, group);
      SelRetagBatch(view[n].blocks, Lo(ph), Hi(ph), ph.t, group);
      BatchTotSnoc(view, Lo(ph), Hi(ph), group);
    }
  }

  /** The merged stripe holds what its sources held. */
  lemma {:induction false} RetagTarget(par: Params, ph: Phase, view: View, i: nat)
    requires BatchOk(par, ph) && TotOk(par, ph, view) && NoStray(view, ph) && i < par.l
    ensures Tot(RetagView(view, ph), DataAt(ph.t, i)) == SizeOf(par, Next(ph), ph.t)
  {
    hide NoStray; hide RetagView; hide Tot; hide BatchTot;
    TotRetagBatch(view, ph, i);
    forall s' | Lo(ph) <= s' < Hi(ph) ensures Tot(view, DataAt(s', i)) == par.b * ph.p {
      LiveStep(par, ph, s');
    }
    BatchTotConst(view, Lo(ph), Hi(ph), i, par.b * ph.p);
    assert (Hi(ph) - Lo(ph)) * (par.b * ph.p) == par.b * ph.p * ph.xi;
  }

  /** A stripe outside the batch keeps its size. */
  lemma {:induction false} RetagSize(par: Params, ph: Phase, s: int)
    requires BatchOk(par, ph) && Live(Next(ph), s)
    ensures s != ph.t ==> SizeOf(par, Next(ph), s) == SizeOf(par, ph, s)
  {
    LiveStep(par, ph, s);
  }

  lemma {:induction false} RetagTotOk(par: Params, ph: Phase, view: View)
    requires BatchOk(par, ph) && TotOk(par, ph, view) && NoStray(view, ph)
    ensures TotOk(par, Next(ph), RetagView(view, ph))
  {
    hide BatchOk; hide NoStray; hide RetagView; hide Tot; hide Live; hide SizeOf;
    var r := RetagView(view, ph);
    forall s, i | Live(Next(ph), s) && 0 <= i < par.l
      ensures Tot(r, DataAt(s, i)) == SizeOf(par, Next(ph), s)
    {
      LiveStep(par, ph, s);
      RetagSize(par, ph, s);
      if s == ph.t {
        RetagTarget(par, ph, view, i);
      } else {
        TotRetagOther(view, ph, DataAt(s, i));
      }
    }
    forall n | 0 <= n < par.x * par.K() ensures Tot(r, DataNum(n)) == 1 {
      TotRetagOther(view, ph, DataNum(n));
    }
  }
}
