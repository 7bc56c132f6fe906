/** What holds of every placement between two stages of a run: nothing is lost,
duplicated or misfiled, and any one cluster can go. */
module RunProperties {
  import opened Blocks
  import opened Clusters
  import opened MergeState
  import opened MergeView
  import opened MergeStage
  import opened Placement
  import opened Stages
  import opened InitialView
  import opened Recovery
  import opened Arith

  /** Position e of cluster c holds data block n. */
  predicate HasData(view: View, c: int, e: int, n: int) {
    0 <= c < |view| && 0 <= e < |view[c].blocks| && view[c].blocks[e].kind == D && view[c].blocks[e].num == n
  }

  lemma {:induction false} TwoHits(bs: seq<Block>, q: Query, e: nat, f: nat)
    requires e < f < |bs| && Hit(bs[e], q) && Hit(bs[f], q)
    ensures |Sel(bs, q)| >= 2
  {
    hide Sel; hide Hit;
    var n := |bs| - 1;
    var rest := bs[..n];
    assert bs == rest + [bs[n]];
    SelAppend(rest, bs[n], q);
    if f < n {
      TwoHits(rest, q, e, f);
    } else {
      SelMembers(rest, q);
      assert rest[e] in Sel(rest, q);
    }
  }

  /** Each cluster's share is part of the total. */
  lemma {:induction false} ShareOfTot(view: View, q: Query, c: nat, d: nat)
    requires c < |view| && d < |view| && c != d
    ensures |Sel(view[c].blocks, q)| + |Sel(view[d].blocks, q)| <= Tot(view, q)
  {
    hide Sel;
    var n := |view| - 1;
    if c < n && d < n {
      ShareOfTot(view[..n], q, c, d);
    } else {
      OneShare(view[..n], q, if c < n then c else d);
    }
  }

  lemma {:induction false} OneShare(view: View, q: Query, c: nat)
    requires c < |view|
    ensures |Sel(view[c].blocks, q)| <= Tot(view, q)
  {
    hide Sel;
    var n := |view| - 1;
    if c < n { OneShare(view[..n], q, c); }
  }

  lemma {:induction false} OnceInView(view: View, n: int, c: nat, e: nat, d: nat, f: nat)
    requires Tot(view, DataNum(n)) == 1 && HasData(view, c, e, n) && HasData(view, d, f, n)
    ensures c == d && e == f
  {
    hide Tot;
    var q := DataNum(n);
    SelMembers(view[c].blocks, q);
    SelMembers(view[d].blocks, q);
    assert view[c].blocks[e] in Sel(view[c].blocks, q) && view[d].blocks[f] in Sel(view[d].blocks, q);
    if c == d {
      OneShare(view, q, c);
      if e < f { TwoHits(view[c].blocks, q, e, f); }
      if f < e { TwoHits(view[c].blocks, q, f, e); }
    } else {
      ShareOfTot(view, q, c, d);
    }
  }

  /** Between stages every data block n sits at exactly one place. It names that
      cluster, its group, and the stripe its original stripe was merged into. */
  lemma {:induction false} DataConserved(par: Params, p: nat, live: nat, tau: nat, lay: Layout, view: View, n: nat)
    returns (c: nat, e: nat)
    requires p >= 1 && ViewOk(par, Begin(p, live, 1, tau), lay, view, AllClean(|view|)) && n < par.x * par.K()
    ensures HasData(view, c, e, n) && forall d: nat, f: nat :: HasData(view, d, f, n) ==> d == c && f == e
    ensures view[c].blocks[e] == Block(D, n, GroupOf(par, n), StripeOf(par, n) / p, c)
    ensures par.K() >= 1 && par.b >= 1 && view[c].blocks[e] == Block(D, n, n % par.K() / par.b, n / par.K() / p, c)
  {
    MulGe(par.l, par.b);
    hide ClusterOk; hide LayoutOk; hide Tot; hide Sel;
    assert Tot(view, DataNum(n)) == 1;
    var b;
    c, b := SomewhereIn(view, DataNum(n));
    e :| 0 <= e < |view[c].blocks| && view[c].blocks[e] == b;
    forall d: nat, f: nat | HasData(view, d, f, n) ensures d == c && f == e {
      OnceInView(view, n, c, e, d, f);
    }
    assert ClusterOk(par, Begin(p, live, 1, tau), Tails(lay), c, lay.roles[c], view[c], AllClean(|view|)[c]);
    DataFields(par, p, live, tau, Tails(lay), c, lay.roles[c], view[c], b);
  }

  lemma {:induction false} DataFields(par: Params, p: nat, live: nat, tau: nat, tails: bool, c: nat, role: Role,
          v: ClusterVal, b: Block)
    requires p >= 1 && ClusterOk(par, Begin(p, live, 1, tau), tails, c, role, v, Clean) && b in v.blocks && b.kind == D
    ensures b == Block(D, b.num, GroupOf(par, b.num), StripeOf(par, b.num) / p, c)
  {
    assert DataOk(par, Begin(p, live, 1, tau), b);
    MulGe(par.l, par.b);
    assert b.num / par.K() >= 0;
    assert b.num / par.K() / p >= 0;
  }

  lemma {:induction false} TotOnly(view: View, q: Query, c: nat)
    requires c < |view| && forall d :: 0 <= d < |view| && d != c ==> Sel(view[d].blocks, q) == []
    ensures Tot(view, q) == |Sel(view[c].blocks, q)|
  {
    var n := |view| - 1;
    if c < n { TotOnly(view[..n], q, c); } else { TotNone(view[..n], q); }
  }

  lemma {:induction false} TotNone(view: View, q: Query)
    requires forall d :: 0 <= d < |view| ==> Sel(view[d].blocks, q) == []
    ensures Tot(view, q) == 0
  {
    if view != [] { TotNone(view[..|view| - 1], q); }
  }

  lemma {:induction false} NoneSelected(bs: seq<Block>, q: Query)
    requires forall b :: b in bs ==> !Hit(b, q)
    ensures Sel(bs, q) == []
  {
    assert forall j :: 0 <= j < |bs| ==> bs[j] in bs;
    SelNone(bs, q);
  }

  /** The cluster of the local parities of group i. */
  ghost function LocalHome(lay: Layout, i: nat): nat
    requires Tails(lay) ==> i < |lay.tail|
  {
    if Tails(lay) then lay.tail[i] else lay.gid
  }

  /** Nor are parities anywhere else. */
  lemma {:induction false} ParityHome(par: Params, ph: Phase, lay: Layout, view: View, d: nat, q: Query)
    requires ViewOk(par, ph, lay, view, AllClean(|view|)) && d < |view| && q.ParityAt? && 0 <= q.group
    requires if q.kind == G then d != lay.gid else q.kind == L && q.group < par.l && d != LocalHome(lay, q.group)
    ensures Sel(view[d].blocks, q) == []
  {
    hide TotOk; hide SrcOk; hide LocalOk; hide GlobalOk; hide BlockOk;
    assert ClusterOk(par, ph, Tails(lay), d, lay.roles[d], view[d], AllClean(|view|)[d]);
    NoneSelected(view[d].blocks, q);
  }

  /** Between stages every stripe has g global parities and one local parity per
      group, numbered in order, all global ones in one cluster. */
  lemma {:induction false} ParitiesConserved(par: Params, p: nat, live: nat, tau: nat, lay: Layout, view: View, s: nat)
    requires p >= 1 && ViewOk(par, Begin(p, live, 1, tau), lay, view, AllClean(|view|)) && s < live
    ensures Tot(view, ParityAt(G, s, par.l)) == par.g
    ensures Sel(view[lay.gid].blocks, ParityAt(G, s, par.l)) == GlobalParities(par, lay.gid, s)
    ensures forall i :: 0 <= i < par.l ==> Tot(view, ParityAt(L, s, i)) == 1
    ensures forall e :: 0 <= e < par.g ==>
      Sel(view[lay.gid].blocks, ParityAt(G, s, par.l))[e] == Block(G, s * par.g + e, par.l, s, lay.gid)
  {
    var ph := Begin(p, live, 1, tau);
    hide TotOk; hide Tot; hide SrcOk; hide BlockOk; hide ShapeOk;
    assert ClusterOk(par, ph, Tails(lay), lay.gid, lay.roles[lay.gid], view[lay.gid], AllClean(|view|)[lay.gid]);
    forall d: nat | d < |view| && d != lay.gid ensures Sel(view[d].blocks, ParityAt(G, s, par.l)) == [] {
      ParityHome(par, ph, lay, view, d, ParityAt(G, s, par.l));
    }
    TotOnly(view, ParityAt(G, s, par.l), lay.gid);
    forall i: nat | i < par.l ensures Tot(view, ParityAt(L, s, i)) == 1 {
      OneLocalParity(par, p, live, tau, lay, view, s, i);
    }
  }

  /** The local parity's name. */
  lemma {:induction false} LocalParityIs(par: Params, p: nat, live: nat, tau: nat, lay: Layout, view: View, s: nat,
          i: nat)
    requires p >= 1 && ViewOk(par, Begin(p, live, 1, tau), lay, view, AllClean(|view|)) && s < live && i < par.l
    ensures (Tails(lay) ==> i < |lay.tail|) && LocalHome(lay, i) < |view|
    ensures var c := LocalHome(lay, i);
      Sel(view[c].blocks, ParityAt(L, s, i)) == [Block(L, s * par.l + i, i, s, c)]
  {
    hide TotOk; hide Tot; hide SrcOk; hide BlockOk; hide ShapeOk; hide GlobalOk; hide Sel;
    var ph, c := Begin(p, live, 1, tau), LocalHome(lay, i);
    assert ClusterOk(par, ph, Tails(lay), c, lay.roles[c], view[c], AllClean(|view|)[c]);
    assert LocalOk(par, ph, c, view[c], i, false);
    assert Live(ph, s);
  }

  lemma {:induction false} OneLocalParity(par: Params, p: nat, live: nat, tau: nat, lay: Layout, view: View, s: nat,
          i: nat)
    requires p >= 1 && ViewOk(par, Begin(p, live, 1, tau), lay, view, AllClean(|view|)) && s < live && i < par.l
    ensures Tot(view, ParityAt(L, s, i)) == 1
  {
    var ph, c := Begin(p, live, 1, tau), LocalHome(lay, i);
    hide TotOk; hide Tot; hide SrcOk; hide BlockOk; hide ShapeOk; hide GlobalOk; hide Sel;
    assert ClusterOk(par, ph, Tails(lay), c, lay.roles[c], view[c], AllClean(|view|)[c]);
    assert LocalOk(par, ph, c, view[c], i, false);
    assert Live(ph, s);
    forall d: nat | d < |view| && d != c ensures Sel(view[d].blocks, ParityAt(L, s, i)) == [] {
      ParityHome(par, ph, lay, view, d, ParityAt(L, s, i));
    }
    TotOnly(view, ParityAt(L, s, i), c);
  }

  /** A block between stages is data or a parity of a stripe that still exists. */
  lemma {:induction false} NoStrays(par: Params, p: nat, live: nat, tau: nat, lay: Layout, view: View, c: nat, b: Block)
    requires p >= 1 && ViewOk(par, Begin(p, live, 1, tau), lay, view, AllClean(|view|)) && c < |view|
    requires b in view[c].blocks
    ensures b.cluster == c && 0 <= b.stripe < live
  {
    hide TotOk; hide LayoutOk;
    assert ClusterOk(par, Begin(p, live, 1, tau), Tails(lay), c, lay.roles[c], view[c], AllClean(|view|)[c]);
    assert BlockOk(par, Begin(p, live, 1, tau), c, b);
  }

  // ------------------------------------------------------------------
  // For every stage of every run.

  /** p original stripes to a stripe and `live` stripes: losing any one cluster leaves
      every stripe recoverable. */
  ghost predicate Recoverable(par: Params, p: nat, live: nat, view: View) {
    && par.Ok() && par.b * p >= 1
    && forall s: nat, c: nat :: s < live && c < |view| ==>
         InfoTheo(par.K() * p, par.l, par.g, par.b * p, Survivors(par, p, view, s, c))
  }

  /** Every data block is stored exactly once, and names its cluster, its group and the
      stripe its original stripe was merged into. */
  ghost predicate DataHeld(par: Params, p: nat, view: View) {
    && par.Ok() && p >= 1
    && forall n: nat :: n < par.x * par.K() ==> StoredOnce(par, p, view, n)
  }

  ghost predicate HeldAt(par: Params, p: nat, view: View, n: nat, c: nat, e: nat)
    requires par.Ok() && p >= 1
  {
    && HasData(view, c, e, n) && view[c].blocks[e] == Block(D, n, GroupOf(par, n), StripeOf(par, n) / p, c)
    && forall d: nat, f: nat :: HasData(view, d, f, n) ==> d == c && f == e
  }

  ghost predicate StoredOnce(par: Params, p: nat, view: View, n: nat)
    requires par.Ok() && p >= 1
  {
    exists c: nat, e: nat :: HeldAt(par, p, view, n, c, e)
  }

  /** Every stripe has g global parities and one local parity per group. */
  ghost predicate ParitiesHeld(par: Params, live: nat, view: View) {
    forall s: nat :: s < live ==> Tot(view, ParityAt(G, s, par.l)) == par.g && OnePerGroup(par, view, s)
  }

  ghost predicate OnePerGroup(par: Params, view: View, s: nat) {
    forall i :: 0 <= i < par.l ==> Tot(view, ParityAt(L, s, i)) == 1
  }

  /** Every block names its cluster and a stripe that still exists. */
  ghost predicate NoStrayBlocks(live: nat, view: View) {
    forall c: nat, b :: c < |view| && b in view[c].blocks ==> b.cluster == c && 0 <= b.stripe < live
  }

  ghost predicate Safe(par: Params, p: nat, live: nat, view: View) {
    Recoverable(par, p, live, view) && DataHeld(par, p, view) && ParitiesHeld(par, live, view) &&
      NoStrayBlocks(live, view)
  }

  lemma {:induction false} ViewSafe(par: Params, p: nat, live: nat, tau: nat, lay: Layout, view: View)
    requires p >= 1 && tau <= par.g && ViewOk(par, Begin(p, live, 1, tau), lay, view, AllClean(|view|)) && par.Ok()
    ensures Safe(par, p, live, view)
  {
    hide ViewOk; hide InfoTheo; hide Survivors; hide StoredOnce; hide Tot; hide Sel;
    MulGe(par.b, p);
    forall s: nat, c: nat | s < live && c < |view|
      ensures InfoTheo(par.K() * p, par.l, par.g, par.b * p, Survivors(par, p, view, s, c))
    {
      LosingOneCluster(par, p, live, tau, lay, view, s, c);
    }
    forall n: nat | n < par.x * par.K() ensures StoredOnce(par, p, view, n) {
      HeldOnce(par, p, live, tau, lay, view, n);
    }
    forall s: nat | s < live ensures Tot(view, ParityAt(G, s, par.l)) == par.g && OnePerGroup(par, view, s) {
      ParitiesConserved(par, p, live, tau, lay, view, s);
    }
    forall c: nat, b | c < |view| && b in view[c].blocks ensures b.cluster == c && 0 <= b.stripe < live {
      NoStrays(par, p, live, tau, lay, view, c, b);
    }
  }

  lemma {:induction false} HeldOnce(par: Params, p: nat, live: nat, tau: nat, lay: Layout, view: View, n: nat)
    requires p >= 1 && ViewOk(par, Begin(p, live, 1, tau), lay, view, AllClean(|view|)) && par.Ok()
    requires n < par.x * par.K()
    ensures StoredOnce(par, p, view, n)
  {
    hide ViewOk;
    var c, e := DataConserved(par, p, live, tau, lay, view, n);
    assert HeldAt(par, p, view, n, c, e);
  }

  /** Before the first stage and after every one of a run, the placement is safe. */
  lemma {:induction false} RunSafe(par: Params, xs: seq<nat>, n: nat, lay: Layout, view: View)
    requires n <= |xs| && Prod(xs) >= 1 && par.Ok() && ViewAt(par, xs, n, lay, view)
    ensures Safe(par, Prod(xs[..n]), StripesAfter(par, xs, n), view)
  {
    hide ViewOk; hide Safe; hide StripesAfter; hide Left;
    ProdPrefix(xs, n);
    FullLeft(par);
    ViewSafe(par, Prod(xs[..n]), StripesAfter(par, xs, n), TailAt(par, xs, n), lay, view);
  }
}
