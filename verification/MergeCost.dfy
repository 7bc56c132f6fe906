/** What one batch costs: blocks fetched for recomputing global parities (GC) and
cluster hops for local parities (LC), in closed form. */
module MergeCost {
  import opened Blocks
  import opened Clusters
  import opened MergeState
  import opened MergeRename
  import opened MergeView
  import opened MergeBatch
  import opened Sums
  import opened Arith
  import opened MergeSettle

  /** Blocks fetched from one cluster: all of its data blocks, at most g. A shared
      cluster counts only its share per remaining stripe; shared clusters are those
      with local parities, or, when aggregating, those with more than g + 1 blocks. */
  function GcOf(par: Params, agg: bool, v: ClusterVal, live: nat): nat
    requires live >= 1
  {
    var n := |Sel(v.blocks, AnyData)|;
    if (if agg then n > par.g + 1 else v.kind == L) then if n <= par.g * live then n / live else par.g
    else if n <= par.g then n else par.g
  }

  function GcWeights(par: Params, agg: bool, view: View, live: nat): (r: seq<int>)
    requires live >= 1
    ensures |r| == |view| && forall c :: 0 <= c < |r| ==> r[c] == GcOf(par, agg, view[c], live)
  {
    seq(|view|, c requires 0 <= c < |view| => GcOf(par, agg, view[c], live))
  }

  /** n blocks outside the tail: g from each whole cluster, the remainder in full. */
  function Close(par: Params, n: nat): nat { n / (par.g + 1) * par.g + n % (par.g + 1) }

  /** GC of one batch of phase ph, with f aggregated clusters per group. */
  function BatchGc(par: Params, ph: Phase, tails: bool, f: nat): int {
    (if tails then par.l * par.g else 0) + par.l * f * par.g
    + ph.xi * (par.l * (Close(par, if Beyond(par, ph, tails) < 0 then 0 else Beyond(par, ph, tails)) - f * par.g))
  }

  // ------------------------------------------------------------------
  // Summing the fetches of a range of stripes cluster by cluster.

  /** Blocks fetched from the free clusters of one stripe and group. */
  function PieceFetch(par: Params, roles: seq<Role>, view: View, s: int, i: int): nat
    requires |roles| == |view|
  {
    FetchSum(par.g, Pieces(par, roles, view, s, i))
  }

  function GroupFetch(par: Params, roles: seq<Role>, view: View, s: int, l: nat): nat
    requires |roles| == |view|
  {
    if l == 0 then 0 else GroupFetch(par, roles, view, s, l - 1) + PieceFetch(par, roles, view, s, l - 1)
  }

  function RangeFetch(par: Params, roles: seq<Role>, view: View, lo: int, hi: int): nat
    requires |roles| == |view|
    decreases hi - lo
  {
    if hi <= lo then 0 else RangeFetch(par, roles, view, lo, hi - 1) + GroupFetch(par, roles, view, hi - 1, par.l)
  }

  /** What one cluster adds to a stripe, and to a range of stripes. */
  function OneGroup(par: Params, role: Role, v: ClusterVal, s: int, l: nat): nat {
    if role == Free && v.blocks != [] && v.blocks[0].stripe == s && 0 <= v.blocks[0].group < l
    then if |v.blocks| <= par.g then |v.blocks| else par.g else 0
  }

  function OneRange(par: Params, role: Role, v: ClusterVal, lo: int, hi: int): nat {
    if role == Free && v.blocks != [] && lo <= v.blocks[0].stripe < hi && 0 <= v.blocks[0].group < par.l
    then if |v.blocks| <= par.g then |v.blocks| else par.g else 0
  }

  lemma {:induction false} PiecesSnoc(par: Params, roles: seq<Role>, view: View, s: int, i: int)
    requires |roles| == |view| && view != []
    ensures var n := |view| - 1;
      PieceFetch(par, roles, view, s, i)
      == PieceFetch(par, roles[..n], view[..n], s, i) + Fetch(par.g, PieceOf(par, roles[n], view[n], s, i))
  {
    var n := |view| - 1;
    assert Pieces(par, roles, view, s, i)[..n] == Pieces(par, roles[..n], view[..n], s, i);
  }

  lemma {:induction false} OneGroupStep(par: Params, role: Role, v: ClusterVal, s: int, l: nat)
    requires l >= 1
    ensures OneGroup(par, role, v, s, l) ==
      OneGroup(par, role, v, s, l - 1) + Fetch(par.g, PieceOf(par, role, v, s, l - 1))
  {}

  lemma {:induction false} GroupSnoc(par: Params, roles: seq<Role>, view: View, s: int, l: nat)
    requires |roles| == |view| && view != []
    ensures var n := |view| - 1;
      GroupFetch(par, roles, view, s, l)
      == GroupFetch(par, roles[..n], view[..n], s, l) + OneGroup(par, roles[n], view[n], s, l)
  {
    if l > 0 {
      hide OneGroup; hide PieceOf; hide Fetch; hide PieceFetch;
      GroupSnoc(par, roles, view, s, l - 1);
      PiecesSnoc(par, roles, view, s, l - 1);
      OneGroupStep(par, roles[|view| - 1], view[|view| - 1], s, l);
    }
  }

  lemma {:induction false} RangeSnoc(par: Params, roles: seq<Role>, view: View, lo: int, hi: int)
    requires |roles| == |view| && view != []
    ensures var n := |view| - 1;
      RangeFetch(par, roles, view, lo, hi)
      == RangeFetch(par, roles[..n], view[..n], lo, hi) + OneRange(par, roles[n], view[n], lo, hi)
    decreases hi - lo
  {
    if lo < hi {
      RangeSnoc(par, roles, view, lo, hi - 1);
      GroupSnoc(par, roles, view, hi - 1, par.l);
    }
  }

  lemma {:induction false} GroupNil(par: Params, s: int, l: nat)
    ensures GroupFetch(par, [], [], s, l) == 0
  {
    if l > 0 { GroupNil(par, s, l - 1); }
  }

  lemma {:induction false} RangeNil(par: Params, lo: int, hi: int)
    ensures RangeFetch(par, [], [], lo, hi) == 0
    decreases hi - lo
  {
    if lo < hi { RangeNil(par, lo, hi - 1); GroupNil(par, hi - 1, par.l); }
  }

  function OneRanges(par: Params, roles: seq<Role>, view: View, lo: int, hi: int): (r: seq<int>)
    requires |roles| == |view|
    ensures |r| == |view| && forall c :: 0 <= c < |r| ==> r[c] == OneRange(par, roles[c], view[c], lo, hi)
  {
    seq(|view|, c requires 0 <= c < |view| => OneRange(par, roles[c], view[c], lo, hi))
  }

  lemma {:induction false} RangeByCluster(par: Params, roles: seq<Role>, view: View, lo: int, hi: int)
    requires |roles| == |view|
    ensures RangeFetch(par, roles, view, lo, hi) == Sum(OneRanges(par, roles, view, lo, hi))
  {
    if view == [] {
      RangeNil(par, lo, hi);
    } else {
      var n := |view| - 1;
      RangeByCluster(par, roles[..n], view[..n], lo, hi);
      RangeSnoc(par, roles, view, lo, hi);
      assert OneRanges(par, roles, view, lo, hi)[..n] == OneRanges(par, roles[..n], view[..n], lo, hi);
    }
  }

  lemma {:induction false} GroupConst(par: Params, roles: seq<Role>, view: View, s: int, l: nat, n: int)
    requires |roles| == |view|
    requires forall i :: 0 <= i < l ==> PieceFetch(par, roles, view, s, i) == n
    ensures GroupFetch(par, roles, view, s, l) == l * n
  {
    if l > 0 {
      GroupConst(par, roles, view, s, l - 1, n);
      assert l * n == (l - 1) * n + n;
    }
  }

  lemma {:induction false} RangeConst(par: Params, roles: seq<Role>, view: View, lo: int, hi: int, n: int)
    requires |roles| == |view| && lo <= hi
    requires forall s :: lo <= s < hi ==> GroupFetch(par, roles, view, s, par.l) == n
    ensures RangeFetch(par, roles, view, lo, hi) == (hi - lo) * n
    decreases hi - lo
  {
    if lo < hi {
      RangeConst(par, roles, view, lo, hi - 1, n);
      assert (hi - lo) * n == (hi - 1 - lo) * n + n;
    }
  }

  // ------------------------------------------------------------------
  // The shared clusters.

  /** a for every tail, b for every aggregated cluster. */
  function SrcWeight(role: Role, a: int, b: int): int {
    if role.Src? then if role.parity then a else b else 0
  }

  function SrcWeights(roles: seq<Role>, a: int, b: int): (r: seq<int>)
    ensures |r| == |roles| && forall c :: 0 <= c < |r| ==> r[c] == SrcWeight(roles[c], a, b)
  {
    seq(|roles|, c requires 0 <= c < |roles| => SrcWeight(roles[c], a, b))
  }

  lemma {:induction false} SumAtConst(order: seq<nat>, w: seq<int>, x: int)
    requires Within(order, |w|) && forall j :: 0 <= j < |order| ==> w[order[j]] == x
    ensures SumAt(order, w) == |order| * x
  {
    if order != [] { SumAtConst(order[..|order| - 1], w, x); }
  }

  lemma {:induction false} TailsSum(par: Params, lay: Layout, a: int)
    requires LayoutOk(par, lay)
    ensures Sum(SrcWeights(lay.roles, a, 0)) == if Tails(lay) then par.l * a else 0
  {
    var w := SrcWeights(lay.roles, a, 0);
    forall c | 0 <= c < |w| && w[c] != 0 ensures c in lay.tail {
      assert SrcRoleOk(par, lay, c, lay.roles[c]);
    }
    assert Distinct(lay.tail);
    SumAtIsMasked(lay.tail, w);
    assert Mask(w, lay.tail) == w;
    SumAtConst(lay.tail, w, a);
  }

  /** Aggregated clusters of group i, and of the first l groups. */
  function PinCount(roles: seq<Role>, i: int): nat {
    if roles == [] then 0 else PinCount(roles[..|roles| - 1], i) + (if PinOf(roles[|roles| - 1], i) then 1 else 0)
  }

  predicate PinOf(role: Role, i: int) { role.Src? && !role.parity && role.group == i }

  predicate PinBelow(role: Role, l: nat) { role.Src? && !role.parity && role.group < l }

  function PinTotal(roles: seq<Role>, l: nat): nat {
    if l == 0 then 0 else PinTotal(roles, l - 1) + PinCount(roles, l - 1)
  }

  lemma {:induction false} PinTotalSnoc(roles: seq<Role>, l: nat)
    requires roles != []
    ensures PinTotal(roles, l) == PinTotal(roles[..|roles| - 1], l) + (if PinBelow(roles[|roles| - 1], l) then 1 else 0)
  {
    if l > 0 { PinTotalSnoc(roles, l - 1); }
  }

  lemma {:induction false} PinTotalNil(l: nat)
    ensures PinTotal([], l) == 0
  {
    if l > 0 { PinTotalNil(l - 1); }
  }

  lemma {:induction false} PinsSum(roles: seq<Role>, l: nat, b: int)
    requires forall c :: 0 <= c < |roles| && roles[c].Src? ==> roles[c].group < l
    ensures Sum(SrcWeights(roles, 0, b)) == PinTotal(roles, l) * b
  {
    if roles == [] {
      PinTotalNil(l);
    } else {
      var n := |roles| - 1;
      PinsSum(roles[..n], l, b);
      PinTotalSnoc(roles, l);
      assert SrcWeights(roles, 0, b)[..n] == SrcWeights(roles[..n], 0, b);
      assert (PinTotal(roles[..n], l) + 1) * b == PinTotal(roles[..n], l) * b + b;
    }
  }

  /** Every group has f aggregated clusters. */
  ghost predicate PinsAre(par: Params, lay: Layout, f: nat) {
    forall i :: 0 <= i < par.l ==> PinCount(lay.roles, i) == f
  }

  lemma {:induction false} PinTotalIs(par: Params, lay: Layout, f: nat, l: nat)
    requires PinsAre(par, lay, f) && l <= par.l
    ensures PinTotal(lay.roles, l) == l * f
  {
    if l > 0 { PinTotalIs(par, lay, f, l - 1); }
  }

  lemma {:induction false} SrcSum(par: Params, lay: Layout, f: nat, a: int, b: int)
    requires LayoutOk(par, lay) && PinsAre(par, lay, f)
    ensures Sum(SrcWeights(lay.roles, a, b)) == (if Tails(lay) then par.l * a else 0) + par.l * f * b
  {
    forall c | 0 <= c < |lay.roles| && lay.roles[c].Src? ensures lay.roles[c].group < par.l {
      assert SrcRoleOk(par, lay, c, lay.roles[c]);
    }
    hide LayoutOk; hide PinsAre;
    TailsSum(par, lay, a);
    PinsSum(lay.roles, par.l, b);
    PinTotalIs(par, lay, f, par.l);
    SumAdd(SrcWeights(lay.roles, a, 0), SrcWeights(lay.roles, 0, b), SrcWeights(lay.roles, a, b));
  }

  lemma {:induction false} PinCountPositive(roles: seq<Role>, c: nat, i: int)
    requires c < |roles| && PinOf(roles[c], i)
    ensures PinCount(roles, i) >= 1
  {
    if c < |roles| - 1 { PinCountPositive(roles[..|roles| - 1], c, i); }
  }

  lemma {:induction false} NoPins(par: Params, lay: Layout, c: nat)
    requires LayoutOk(par, lay) && PinsAre(par, lay, 0) && c < |lay.roles| && lay.roles[c].Src?
    ensures lay.roles[c].parity
  {
    assert SrcRoleOk(par, lay, c, lay.roles[c]);
    if !lay.roles[c].parity { PinCountPositive(lay.roles, c, lay.roles[c].group); }
  }

  lemma {:induction false} SumAdd(a: seq<int>, b: seq<int>, w: seq<int>)
    requires |a| == |b| == |w| && forall c :: 0 <= c < |w| ==> w[c] == a[c] + b[c]
    ensures Sum(w) == Sum(a) + Sum(b)
  {
    if w != [] {
      var n := |w| - 1;
      SumAdd(a[..n], b[..n], w[..n]);
    }
  }

  // ------------------------------------------------------------------
  // GC of one batch.

  /** At least q >= g data blocks per remaining stripe. */
  lemma {:induction false} GcMany(g: nat, n: nat, live: nat, q: nat, shared: bool)
    requires live >= 1 && n >= q * live && q >= g
    ensures (if shared then if n <= g * live then n / live else g else if n <= g then n else g) == g
  {
    MulMono(g, q, live);
    MulMono(1, live, g);
    DivIs(g * live, g, live);
  }

  lemma {:induction false} GcShared(par: Params, agg: bool, ph: Phase, tails: bool, c: int, role: Role, v: ClusterVal,
          live: nat)
    requires ClusterOk(par, ph, tails, c, role, v, Clean) && QuotaOk(par, ph, tails)
    requires ph.x == live * ph.xi && ph.t < live && live >= 1
    requires role.Src? && (if role.parity then tails else agg)
    ensures GcOf(par, agg, v, live) == par.g
  {
    var n := |Sel(v.blocks, AnyData)|;
    assert n == TotalNeed(par, ph, role.parity, 0) by { assert SrcOk(par, ph, role, v, 0); }
    assert ph.xi >= 1;
    hide ClusterOk; hide Sel; hide QuotaOk; hide TotalNeed; hide Surplus;
    SurplusOk(par, ph, tails, role.parity);
    SourceMeasure(par, ph, role.parity, live);
    GcMany(par.g, n, live, NewQuota(par, role.parity), if agg then n > par.g + 1 else v.kind == L);
  }

  /** What one cluster costs, by role; retagging does not change it. */
  lemma {:induction false} GcByRole(par: Params, agg: bool, ph: Phase, tails: bool, c: int, role: Role, v: ClusterVal,
          live: nat)
    requires ClusterOk(par, ph, tails, c, role, v, Clean) && QuotaOk(par, ph, tails)
    requires ph.x == live * ph.xi && ph.t < live && live >= 1
    requires role.Src? ==> if role.parity then tails else agg
    ensures GcOf(par, agg, RetagVal(v, Lo(ph), Hi(ph), ph.t), live) ==
      match role
      case Src(_, _) => par.g
      case Glob => 0
      case Free => if |v.blocks| <= par.g then |v.blocks| else par.g
  {
    SelRetagOther(v.blocks, Lo(ph), Hi(ph), ph.t, AnyData);
    if role.Src? {
      hide ClusterOk; hide QuotaOk; hide Sel;
      GcShared(par, agg, ph, tails, c, role, v, live);
    } else {
      hide Retag; hide SrcOk; hide LocalOk; hide GlobalOk; hide BlockOk;
      GcUnshared(par, agg, ph, tails, c, role, v, live);
    }
  }

  lemma {:induction false} GcUnshared(par: Params, agg: bool, ph: Phase, tails: bool, c: int, role: Role, v: ClusterVal,
          live: nat)
    requires ClusterOk(par, ph, tails, c, role, v, Clean) && live >= 1 && !role.Src?
    ensures GcOf(par, agg, v, live) == if role == Glob then 0 else if |v.blocks| <= par.g then |v.blocks| else par.g
  {
    hide SrcOk; hide LocalOk; hide GlobalOk; hide BlockOk; hide PhaseOk; hide Sel;
    assert forall j :: 0 <= j < |v.blocks| ==> v.blocks[j] in v.blocks;
    if role == Glob {
      SelNone(v.blocks, AnyData);
      DivIs(0, 0, live);
    } else {
      SelAll(v.blocks, AnyData);
    }
  }

  lemma {:induction false} GcAt(par: Params, agg: bool, ph: Phase, lay: Layout, view: View, olds: seq<set<nat>>,
          order: seq<nat>, live: nat, c: nat)
    requires BatchOk(par, ph) && LayoutOk(par, lay) && QuotaOk(par, ph, Tails(lay))
    requires |lay.roles| == |view| && c < |view| && ph.x == live * ph.xi && ph.t < live && |olds| == ph.x
    requires lay.roles[c].Src? ==> agg || lay.roles[c].parity
    requires ClusterOk(par, ph, Tails(lay), c, lay.roles[c], view[c], Clean)
    requires forall s :: Lo(ph) <= s < Hi(ph) ==> PlaceOk(lay.roles, view, s, olds[s])
    requires Enumerates(order, Union(olds, Lo(ph), Hi(ph)))
    ensures (if c in order then GcOf(par, agg, RetagView(view, ph)[c], live) else 0)
      == OneRange(par, lay.roles[c], view[c], Lo(ph), Hi(ph)) + SrcWeight(lay.roles[c], par.g, par.g)
  {
    var role, v := lay.roles[c], view[c];
    BatchSpan(par, ph, lay.roles, view, olds, c);
    if role.Src? { assert SrcRoleOk(par, lay, c, role); }
    GcByRole(par, agg, ph, Tails(lay), c, role, v, live);
    if role == Free {
      assert v.blocks[0] in v.blocks;
      assert BlockOk(par, ph, c, v.blocks[0]);
      GroupInRange(par, v.blocks[0].num);
    }
  }

  lemma {:induction false} GroupInRange(par: Params, n: nat)
    requires par.Ok()
    ensures 0 <= n % par.K() / par.b < par.l
  {
    MulGe(par.l, par.b);
    DivLess(n % par.K(), par.l, par.b);
  }

  /** Data blocks of a group outside its tail, before the stage. */
  function Beyond(par: Params, ph: Phase, tails: bool): int { par.b * ph.p - (if tails then ph.tau else 0) }

  lemma {:induction false} Pinned(par: Params, roles: seq<Role>, view: View, s: int, i: nat)
    requires |roles| == |view|
    ensures Pins(Pieces(par, roles, view, s, i)) == PinCount(roles, i)
  {
    if view != [] {
      var n := |view| - 1;
      Pinned(par, roles[..n], view[..n], s, i);
      assert Pieces(par, roles, view, s, i)[..n] == Pieces(par, roles[..n], view[..n], s, i);
    }
  }

  lemma {:induction false} BatchPiece(par: Params, ph: Phase, lay: Layout, view: View, s: int, i: nat, f: nat)
    requires BatchOk(par, ph) && LayoutOk(par, lay) && |lay.roles| == |view| && PinCount(lay.roles, i) == f
    requires Lo(ph) <= s < Hi(ph) && i < par.l
    requires Contributed(par, ph, lay.roles, view, s, i) && Tot(view, DataAt(s, i)) == SizeOf(par, ph, s)
    requires OnePartial(par, lay.roles, view, s, i)
    ensures Beyond(par, ph, Tails(lay)) >= 0
    ensures PieceFetch(par, lay.roles, view, s, i) == Close(par, Beyond(par, ph, Tails(lay))) - f * par.g
  {
    hide Contributed; hide LayoutOk; hide OnePartial; hide PieceOf; hide Tot; hide FetchSum; hide Pins; hide RoomSum;
    hide Wholes; hide PinCount; hide Pieces; hide PhaseOk;
    NextOk(par, ph);
    Pinned(par, lay.roles, view, s, i);
    OutsideIs(par, ph, lay, view, s, i);
    SpreadIs(par, ph, lay, view, s, i);
    var ps := Pieces(par, lay.roles, view, s, i);
    MulMono(0, Wholes(ps) + Pins(ps), par.g + 1);
  }

  lemma {:induction false} BatchFetch(par: Params, ph: Phase, lay: Layout, view: View, olds: seq<set<nat>>,
          news: seq<set<nat>>, s: int, f: nat)
    requires BatchOk(par, ph) && Inv(par, ph, lay, view, olds, news) && PinsAre(par, lay, f) && Lo(ph) <= s < Hi(ph)
    ensures |lay.roles| == |view| && Beyond(par, ph, Tails(lay)) >= 0
    ensures GroupFetch(par, lay.roles, view, s, par.l) == par.l * (Close(par, Beyond(par, ph, Tails(lay))) - f * par.g)
  {
    hide Inv; hide Contributed; hide OnePartial; hide Close; hide LayoutOk; hide PieceFetch; hide PinCount;
    InvLayout(par, ph, lay, view, olds, news);
    LiveStep(par, ph, s);
    forall i: nat | i < par.l
      ensures Beyond(par, ph, Tails(lay)) >= 0
      ensures PieceFetch(par, lay.roles, view, s, i) == Close(par, Beyond(par, ph, Tails(lay))) - f * par.g
    {
      InvFacts(par, ph, lay, view, olds, news, s, i);
      BatchPiece(par, ph, lay, view, s, i, f);
    }
    assert Beyond(par, ph, Tails(lay)) >= 0 by { assert PieceFetch(par, lay.roles, view, s, 0) >= 0; }
    GroupConst(par, lay.roles, view, s, par.l, Close(par, Beyond(par, ph, Tails(lay))) - f * par.g);
  }

  lemma {:induction false} InvLayout(par: Params, ph: Phase, lay: Layout, view: View, olds: seq<set<nat>>,
          news: seq<set<nat>>)
    requires Inv(par, ph, lay, view, olds, news)
    ensures LayoutOk(par, lay) && |lay.roles| == |view| && |olds| == ph.x && |news| == ph.t
    ensures par.Ok() && PhaseOk(par, ph) && QuotaOk(par, ph, Tails(lay))
  {}

  lemma {:induction false} GcMasked(par: Params, agg: bool, ph: Phase, lay: Layout, view: View, olds: seq<set<nat>>,
          news: seq<set<nat>>, order: seq<nat>, live: nat, c: nat)
    requires BatchOk(par, ph) && Inv(par, ph, lay, view, olds, news)
    requires ph.x == live * ph.xi && ph.t < live && |olds| == ph.x && Enumerates(order, Union(olds, Lo(ph), Hi(ph)))
    requires c < |view| == |lay.roles| && (agg || PinsAre(par, lay, 0))
    ensures Mask(GcWeights(par, agg, RetagView(view, ph), live), order)[c]
      == OneRange(par, lay.roles[c], view[c], Lo(ph), Hi(ph)) + SrcWeights(lay.roles, par.g, par.g)[c]
  {
    hide Inv; hide QuotaOk; hide GcOf; hide OneRange; hide ClusterOk; hide Enumerates; hide LayoutOk; hide PinsAre;
    InvLayout(par, ph, lay, view, olds, news);
    InvCluster(par, ph, lay, view, olds, news, c);
    if !agg && lay.roles[c].Src? { NoPins(par, lay, c); }
    GcAt(par, agg, ph, lay, view, olds, order, live, c);
  }

  lemma {:induction false} RangeFetchIs(par: Params, ph: Phase, lay: Layout, view: View, olds: seq<set<nat>>,
          news: seq<set<nat>>, f: nat)
    requires BatchOk(par, ph) && Inv(par, ph, lay, view, olds, news) && PinsAre(par, lay, f)
    ensures |lay.roles| == |view| && Beyond(par, ph, Tails(lay)) >= 0
    ensures RangeFetch(par, lay.roles, view, Lo(ph), Hi(ph)) ==
      ph.xi * (par.l * (Close(par, Beyond(par, ph, Tails(lay))) - f * par.g))
  {
    hide Inv; hide Close; hide GroupFetch; hide PinsAre; hide Beyond;
    BatchFetch(par, ph, lay, view, olds, news, Lo(ph), f);
    var n := par.l * (Close(par, Beyond(par, ph, Tails(lay))) - f * par.g);
    forall s | Lo(ph) <= s < Hi(ph) ensures GroupFetch(par, lay.roles, view, s, par.l) == n {
      BatchFetch(par, ph, lay, view, olds, news, s, f);
    }
    RangeConst(par, lay.roles, view, Lo(ph), Hi(ph), n);
  }

  /** The visited clusters cost what the free ones and the shared ones cost. */
  lemma {:induction false} GcSplit(par: Params, agg: bool, ph: Phase, lay: Layout, view: View, olds: seq<set<nat>>,
          news: seq<set<nat>>, order: seq<nat>, live: nat)
    requires BatchOk(par, ph) && Inv(par, ph, lay, view, olds, news) && (agg || PinsAre(par, lay, 0))
    requires ph.x == live * ph.xi && ph.t < live && |olds| == ph.x && Enumerates(order, Union(olds, Lo(ph), Hi(ph)))
    requires Within(order, |view|)
    ensures |lay.roles| == |view|
    ensures SumAt(order, GcWeights(par, agg, RetagView(view, ph), live))
      == Sum(OneRanges(par, lay.roles, view, Lo(ph), Hi(ph))) + Sum(SrcWeights(lay.roles, par.g, par.g))
  {
    assert Distinct(order);
    hide Inv; hide QuotaOk; hide GcOf; hide OneRange; hide PinsAre; hide LayoutOk; hide SrcWeight; hide Enumerates;
    hide BatchOk;
    InvLayout(par, ph, lay, view, olds, news);
    var w := GcWeights(par, agg, RetagView(view, ph), live);
    var a, t := OneRanges(par, lay.roles, view, Lo(ph), Hi(ph)), SrcWeights(lay.roles, par.g, par.g);
    forall c | 0 <= c < |view| ensures Mask(w, order)[c] == a[c] + t[c] {
      GcMasked(par, agg, ph, lay, view, olds, news, order, live, c);
    }
    SumAtIsMasked(order, w);
    SumAdd(a, t, Mask(w, order));
  }

  /** GC of a batch, in closed form, whatever order the clusters are visited in. */
  lemma {:induction false} GcOfBatch(par: Params, agg: bool, ph: Phase, lay: Layout, view: View, olds: seq<set<nat>>,
          news: seq<set<nat>>, order: seq<nat>, live: nat, f: nat)
    requires BatchOk(par, ph) && Inv(par, ph, lay, view, olds, news) && PinsAre(par, lay, f) && (agg || f == 0)
    requires ph.x == live * ph.xi && ph.t < live && |olds| == ph.x && Enumerates(order, Union(olds, Lo(ph), Hi(ph)))
    requires Within(order, |view|)
    ensures SumAt(order, GcWeights(par, agg, RetagView(view, ph), live)) == BatchGc(par, ph, Tails(lay), f)
  {
    hide Inv; hide RangeFetch; hide Close; hide PinsAre; hide LayoutOk; hide OneRanges; hide SrcWeights;
    hide GcWeights; hide RetagView; hide Enumerates; hide BatchOk; hide Sum; hide SumAt; hide Union; hide Beyond;
    hide Tails;
    InvLayout(par, ph, lay, view, olds, news);
    GcSplit(par, agg, ph, lay, view, olds, news, order, live);
    SrcSum(par, lay, f, par.g, par.g);
    RangeByCluster(par, lay.roles, view, Lo(ph), Hi(ph));
    RangeFetchIs(par, ph, lay, view, olds, news, f);
  }

  /** One cluster, and the places of the batch, out of the invariant. */
  lemma {:induction false} InvCluster(par: Params, ph: Phase, lay: Layout, view: View, olds: seq<set<nat>>,
          news: seq<set<nat>>, c: nat)
    requires BatchOk(par, ph) && Inv(par, ph, lay, view, olds, news) && c < |view|
    ensures |lay.roles| == |view| && |olds| == ph.x && ClusterOk(par, ph, Tails(lay), c, lay.roles[c], view[c], Clean)
    ensures forall s :: Lo(ph) <= s < Hi(ph) ==> PlaceOk(lay.roles, view, s, olds[s])
  {
    NextOk(par, ph);
    assert AllClean(|view|)[c] == Clean;
    forall s | Lo(ph) <= s < Hi(ph) ensures PlaceOk(lay.roles, view, s, olds[s]) {
      LiveStep(par, ph, s);
      assert StripeOk(par, lay.roles, view, s, PlaceFor(ph, olds, news, s));
    }
  }

  // ------------------------------------------------------------------
  // LC of one batch.

  predicate HasLocal(bs: seq<Block>, lo: int, hi: int, i: int) {
    exists b :: b in bs && b.kind == L && b.group == i && lo <= b.stripe < hi
  }

  /** Clusters that hold a local parity of group i of the stripes [lo, hi). */
  function LocalSpan(view: View, order: seq<nat>, lo: int, hi: int, i: int): set<nat>
    requires Within(order, |view|)
  {
    set p | 0 <= p < |order| && HasLocal(view[order[p]].blocks, lo, hi, i) :: order[p]
  }

  /** Hops to the global-parity cluster, over the first l groups. */
  function LcSum(view: View, order: seq<nat>, gid: nat, lo: int, hi: int, l: nat): int
    requires Within(order, |view|)
  {
    if l == 0 then 0
    else LcSum(view, order, gid, lo, hi, l - 1) + |LocalSpan(view, order, lo, hi, l - 1) + {gid}| - 1
  }

  /** Local parities of group i live in the tail of group i, or with the globals. */
  lemma {:induction false} LocalAt(par: Params, ph: Phase, lay: Layout, c: nat, v: ClusterVal, i: nat)
    requires BatchOk(par, ph) && LayoutOk(par, lay) && c < |lay.roles| && i < par.l
    requires ClusterOk(par, ph, Tails(lay), c, lay.roles[c], v, Clean)
    ensures HasLocal(v.blocks, Lo(ph), Hi(ph), i) <==> c == if Tails(lay) then lay.tail[i] else lay.gid
  {
    var role := lay.roles[c];
    if role.Src? { assert SrcRoleOk(par, lay, c, role); }
    if Tails(lay) { assert lay.roles[lay.tail[i]] == Src(i, true); }
    if c == (if Tails(lay) then lay.tail[i] else lay.gid) {
      LiveStep(par, ph, Lo(ph));
      assert LocalOk(par, ph, c, v, i, false);
      var q := ParityAt(L, Lo(ph), i);
      SelMembers(v.blocks, q);
      assert LocalParity(par, c, Lo(ph), i) in Sel(v.blocks, q);
    }
  }

  lemma {:induction false} LocalSpanIs(par: Params, ph: Phase, lay: Layout, view: View, olds: seq<set<nat>>,
          news: seq<set<nat>>, order: seq<nat>, i: nat)
    requires BatchOk(par, ph) && Inv(par, ph, lay, view, olds, news) && Within(order, |view|) && i < par.l
    requires |olds| == ph.x && Enumerates(order, Union(olds, Lo(ph), Hi(ph)))
    ensures |LocalSpan(view, order, Lo(ph), Hi(ph), i) + {lay.gid}| == if Tails(lay) then 2 else 1
  {
    hide Inv; hide ClusterOk;
    InvLayout(par, ph, lay, view, olds, news);
    var home := if Tails(lay) then lay.tail[i] else lay.gid;
    InvCluster(par, ph, lay, view, olds, news, home);
    BatchSpan(par, ph, lay.roles, view, olds, home);
    if Tails(lay) { assert lay.roles[lay.tail[i]] == Src(i, true); }
    forall p | 0 <= p < |order| ensures HasLocal(view[order[p]].blocks, Lo(ph), Hi(ph), i) <==> order[p] == home {
      InvCluster(par, ph, lay, view, olds, news, order[p]);
      LocalAt(par, ph, lay, order[p], view[order[p]], i);
    }
    assert home in order;
    assert LocalSpan(view, order, Lo(ph), Hi(ph), i) == {home};
    if Tails(lay) {
      assert home != lay.gid;
      assert |{home} + {lay.gid}| == 2;
    } else {
      assert {home} + {lay.gid} == {home};
    }
  }

  /** LC of a batch: one hop per group when there are tails, none otherwise. */
  lemma {:induction false} LcOfBatch(par: Params, ph: Phase, lay: Layout, view: View, olds: seq<set<nat>>,
          news: seq<set<nat>>, order: seq<nat>, l: nat)
    requires BatchOk(par, ph) && Inv(par, ph, lay, view, olds, news) && Within(order, |view|) && l <= par.l
    requires |olds| == ph.x && Enumerates(order, Union(olds, Lo(ph), Hi(ph)))
    ensures LcSum(view, order, lay.gid, Lo(ph), Hi(ph), l) == if Tails(lay) then l else 0
  {
    hide Inv; hide LocalSpan; hide Enumerates; hide BatchOk;
    if l > 0 {
      LcOfBatch(par, ph, lay, view, olds, news, order, l - 1);
      LocalSpanIs(par, ph, lay, view, olds, news, order, l - 1);
    }
  }
}
