/** The Aggregated placement as a value: per group, clusters that each gather one
chunk of g + 1 data blocks of every stripe, then the tails and the parities. */
module AggregatedView {
  import opened Blocks
  import opened Clusters
  import opened MergeState
  import opened MergeView
  import opened MergeStage
  import opened MergeBatch
  import opened MergeCost
  import opened InitialView
  import opened Stages
  import opened Arith

  /** The last chunk of a group is the tail with its local parity. */
  predicate Inline(par: Params) { Left(par) == par.g && Full(par) >= 1 }

  /** Clusters per group. */
  function Per(par: Params): nat { if Inline(par) then Full(par) + 1 else Full(par) }

  /** Chunk t of group i of the first j stripes. */
  function Slot(par: Params, i: nat, t: nat, j: nat, c: nat): ClusterVal {
    if t < Full(par) then ClusterVal(Gather(par, i, t * (par.g + 1), par.g + 1, false, j, c), D)
    else ClusterVal(TailBlocks(par, i, j, c), if j == 0 then D else L)
  }

  /** The first n chunks of group i of the first j stripes, numbered from base. */
  function Slots(par: Params, i: nat, j: nat, n: nat, base: nat): (r: View)
    ensures |r| == n && forall t :: 0 <= t < n ==> r[t] == Slot(par, i, t, j, base + t)
  {
    seq(n, t requires 0 <= t => Slot(par, i, t, j, base + t))
  }

  function AggData(par: Params, n: nat): (r: View)
    ensures |r| == n * Per(par)
  {
    if n == 0 then [] else
      assert n * Per(par) == (n - 1) * Per(par) + Per(par);
      AggData(par, n - 1) + Slots(par, n - 1, par.x, Per(par), (n - 1) * Per(par))
  }

  function GroupRoles(par: Params, i: nat): (r: seq<Role>)
    ensures |r| == Per(par) && forall t :: 0 <= t < |r| ==> r[t] == Src(i, t >= Full(par))
  {
    seq(Per(par), t => Src(i, t >= Full(par)))
  }

  function AggRoles(par: Params, n: nat): (r: seq<Role>)
    ensures |r| == n * Per(par)
  {
    if n == 0 then [] else
      assert n * Per(par) == (n - 1) * Per(par) + Per(par);
      AggRoles(par, n - 1) + GroupRoles(par, n - 1)
  }

  /** Chunk t of group i is cluster i Per + t. */
  lemma {:induction false} SlotAt(par: Params, n: nat, i: nat, t: nat)
    requires i < n && t < Per(par)
    ensures 0 <= i * Per(par) + t < n * Per(par)
    ensures AggData(par, n)[i * Per(par) + t] == Slot(par, i, t, par.x, i * Per(par) + t)
    ensures AggRoles(par, n)[i * Per(par) + t] == Src(i, t >= Full(par))
  {
    hide Slot; hide Inline;
    var c := i * Per(par) + t;
    MulMono(i + 1, n, Per(par));
    assert (i + 1) * Per(par) == i * Per(par) + Per(par);
    assert n * Per(par) == (n - 1) * Per(par) + Per(par);
    if i < n - 1 { SlotAt(par, n - 1, i, t); }
  }

  function AggBase(par: Params): nat { par.l * Per(par) }
  function AggTails(par: Params): nat { if HasTails(par) && !Inline(par) then par.l else 0 }
  function AggGid(par: Params): nat { AggBase(par) + AggTails(par) }

  function ParitiesVal(par: Params, c: nat): ClusterVal
    requires par.x >= 1
  {
    ClusterVal(ParityBlocks(par, HasTails(par), c), if HasTails(par) then G else L)
  }

  function AggView(par: Params): (r: View)
    requires par.x >= 1
    ensures |r| == AggGid(par) + 1
  {
    AggData(par, par.l) + TailsView(par, AggBase(par), AggTails(par)) + [ParitiesVal(par, AggGid(par))]
  }

  /** The cluster that is the tail of group i. */
  function TailId(par: Params, i: nat): nat {
    if Inline(par) then i * Per(par) + Full(par) else AggBase(par) + i
  }

  function AggLayout(par: Params): (lay: Layout)
    ensures |lay.roles| == AggGid(par) + 1 && lay.gid == AggGid(par)
    ensures |lay.tail| == (if HasTails(par) then par.l else 0)
    ensures forall i :: 0 <= i < |lay.tail| ==> lay.tail[i] == TailId(par, i)
    ensures forall c :: 0 <= c < AggBase(par) ==> lay.roles[c] == AggRoles(par, par.l)[c]
    ensures forall i :: 0 <= i < AggTails(par) ==> lay.roles[AggBase(par) + i] == Src(i, true)
    ensures lay.roles[AggGid(par)] == Glob
  {
    Layout(AggRoles(par, par.l) + seq(AggTails(par), i requires 0 <= i => Src(i, true)) + [Glob],
           seq(if HasTails(par) then par.l else 0, i requires 0 <= i => TailId(par, i)), AggGid(par))
  }

  /** Each position is a chunk, a tail, or the parity cluster. */
  lemma {:induction false} Where(par: Params, c: nat) returns (i: nat, t: nat)
    requires par.Ok() && c < AggBase(par)
    ensures i < par.l && t < Per(par) && c == i * Per(par) + t
  {
    i, t := c / Per(par), c % Per(par);
    DivLess(c, par.l, Per(par));
  }

  lemma {:induction false} RoleOk(par: Params, c: nat)
    requires par.Ok() && par.g >= 1 && c <= AggGid(par)
    ensures AggLayout(par).roles[c] == Glob <==> c == AggGid(par)
    ensures AggLayout(par).roles[c].Src? ==> SrcRoleOk(par, AggLayout(par), c, AggLayout(par).roles[c])
  {
    hide AggBase;
    if c < AggBase(par) {
      var i, t := Where(par, c);
      SlotAt(par, par.l, i, t);
    } else if c < AggGid(par) {
      assert AggLayout(par).roles[AggBase(par) + (c - AggBase(par))] == Src(c - AggBase(par), true);
    }
  }

  lemma {:induction false} AggLayoutOk(par: Params)
    requires par.Ok() && par.g >= 1
    ensures LayoutOk(par, AggLayout(par)) && Tails(AggLayout(par)) == HasTails(par)
  {
    var lay := AggLayout(par);
    forall c | 0 <= c < |lay.roles|
      ensures lay.roles[c] == Glob <==> c == lay.gid
      ensures lay.roles[c].Src? ==> SrcRoleOk(par, lay, c, lay.roles[c])
    {
      RoleOk(par, c);
    }
    forall i | 0 <= i < |lay.tail| ensures lay.tail[i] < |lay.roles| && lay.roles[lay.tail[i]] == Src(i, true) {
      TailRole(par, i);
    }
  }

  lemma {:induction false} TailRole(par: Params, i: nat)
    requires par.Ok() && par.g >= 1 && HasTails(par) && i < par.l
    ensures TailId(par, i) < AggGid(par) && AggLayout(par).roles[TailId(par, i)] == Src(i, true)
  {
    if Inline(par) { SlotAt(par, par.l, i, Full(par)); }
  }

  lemma {:induction false} SlotOk(par: Params, i: nat, t: nat, c: nat)
    requires par.Ok() && par.g >= 1 && i < par.l && t < Per(par)
    ensures ClusterOk(par, Ph(par), HasTails(par), c, Src(i, t >= Full(par)), Slot(par, i, t, par.x, c), Clean)
  {
    hide ClusterOk; hide Gather;
    FullLeft(par);
    if t < Full(par) {
      ChunkInGroup(par, t);
      GatherClusterOk(par, HasTails(par), i, t * (par.g + 1), par.g + 1, false, c);
    } else {
      TailClusterOk(par, HasTails(par), i, c);
    }
  }

  lemma {:induction false} ChunkInGroup(par: Params, t: nat)
    requires t < Full(par)
    ensures t * (par.g + 1) + (par.g + 1) <= par.b && (t + 1) * (par.g + 1) == t * (par.g + 1) + (par.g + 1)
  {
    FullLeft(par);
    MulMono(t + 1, Full(par), par.g + 1);
    assert (t + 1) * (par.g + 1) == t * (par.g + 1) + (par.g + 1);
  }

  lemma {:induction false} AggClusterOk(par: Params, c: nat)
    requires par.Ok() && par.g >= 1 && c <= AggGid(par)
    ensures ClusterOk(par, Ph(par), HasTails(par), c, AggLayout(par).roles[c], AggView(par)[c], Clean)
    ensures AggLayout(par).roles[c] != Free
  {
    hide ClusterOk; hide AggData; hide ParityBlocks; hide TailBlocks; hide Slot; hide Inline; hide HasTails;
    if c < AggBase(par) {
      var i, t := Where(par, c);
      SlotAt(par, par.l, i, t);
      SlotOk(par, i, t, c);
    } else if c < AggGid(par) {
      var i := c - AggBase(par);
      assert AggLayout(par).roles[AggBase(par) + i] == Src(i, true);
      TailClusterOk(par, HasTails(par), i, c);
    } else {
      ParityClusterOk(par, HasTails(par), c);
    }
  }

  // ------------------------------------------------------------------
  // Nothing lost, nothing doubled.

  /** What chunk t holds of group i' of a stripe, and of block n. */
  lemma {:induction false} SlotCounts(par: Params, i: nat, t: nat, c: nat, s: int, i': nat, n: nat)
    requires par.Ok() && i < par.l && t < Per(par) && 0 <= s < par.x && n < par.x * par.K()
    ensures |Sel(Slot(par, i, t, par.x, c).blocks, DataAt(s, i'))| ==
      if i' != i then 0 else if t < Full(par) then par.g + 1 else Left(par)
    ensures |Sel(Slot(par, i, t, par.x, c).blocks, DataNum(n))| ==
      if GroupOf(par, n) == i && t * (par.g + 1) <= OffsetOf(par, n) &&
        (t < Full(par) ==> OffsetOf(par, n) < (t + 1) * (par.g + 1)) then 1 else 0
  {
    hide Sel; hide Gather; hide StripeOf; hide GroupOf; hide OffsetOf; hide ParametersOk;
    NumRange(par, n);
    FullLeft(par);
    if t < Full(par) {
      ChunkInGroup(par, t);
      GatherAt(par, i, t * (par.g + 1), par.g + 1, false, c, s, i');
      GatherNum(par, i, t * (par.g + 1), par.g + 1, false, par.x, c, n);
    } else {
      assert t == Full(par);
      GatherAt(par, i, Full(par) * (par.g + 1), Left(par), true, c, s, i');
      TailNum(par, i, c, n);
    }
  }

  /** The first m chunks of a group. */
  lemma {:induction false} SlotsCounts(par: Params, i: nat, m: nat, base: nat, s: int, i': nat, n: nat)
    requires par.Ok() && i < par.l && m <= Per(par) && 0 <= s < par.x && n < par.x * par.K()
    ensures Tot(Slots(par, i, par.x, m, base), DataAt(s, i'))
      == if i' != i then 0 else if m <= Full(par) then m * (par.g + 1) else Full(par) * (par.g + 1) + Left(par)
    ensures Tot(Slots(par, i, par.x, m, base), DataNum(n))
      == if GroupOf(par, n) == i && (m <= Full(par) ==> OffsetOf(par, n) < m * (par.g + 1)) then 1 else 0
  {
    hide Sel; hide GroupOf; hide OffsetOf; hide Slot; hide StripeOf; hide Full; hide Left; hide Inline; hide First;
    Decompose(par, n);
    if m > 0 {
      SlotsCounts(par, i, m - 1, base, s, i', n);
      assert Slots(par, i, par.x, m, base)[..m - 1] == Slots(par, i, par.x, m - 1, base);
      SlotCounts(par, i, m - 1, base + (m - 1), s, i', n);
      assert m * (par.g + 1) == (m - 1) * (par.g + 1) + (par.g + 1);
    }
  }

  /** All chunks of a group. */
  lemma {:induction false} GroupCounts(par: Params, i: nat, base: nat, s: int, i': nat, n: nat)
    requires par.Ok() && i < par.l && 0 <= s < par.x && n < par.x * par.K()
    ensures Tot(Slots(par, i, par.x, Per(par), base), DataAt(s, i')) ==
      if i' != i then 0 else if Inline(par) then par.b else Full(par) * (par.g + 1)
    ensures Tot(Slots(par, i, par.x, Per(par), base), DataNum(n))
      == if GroupOf(par, n) == i && (Inline(par) || OffsetOf(par, n) < Full(par) * (par.g + 1)) then 1 else 0
  {
    hide GroupOf; hide OffsetOf; hide Slots; hide StripeOf; hide Full; hide Left; hide Tot;
    FullLeft(par);
    SlotsCounts(par, i, Per(par), base, s, i', n);
  }

  lemma {:induction false} DataStep(par: Params, m: nat, q: Query)
    ensures Tot(AggData(par, m + 1), q) ==
      Tot(AggData(par, m), q) + Tot(Slots(par, m, par.x, Per(par), m * Per(par)), q)
    ensures Tot(AggData(par, 0), q) == 0
  {
    hide Slots;
    TotConcat(AggData(par, m), Slots(par, m, par.x, Per(par), m * Per(par)), q);
  }

  lemma {:induction false} DataCounts(par: Params, m: nat, s: int, i: nat, n: nat)
    requires par.Ok() && m <= par.l && 0 <= s < par.x && n < par.x * par.K()
    ensures Tot(AggData(par, m), DataAt(s, i)) ==
      if i >= m then 0 else if Inline(par) then par.b else Full(par) * (par.g + 1)
    ensures Tot(AggData(par, m), DataNum(n))
      == if GroupOf(par, n) < m && (Inline(par) || OffsetOf(par, n) < Full(par) * (par.g + 1)) then 1 else 0
  {
    hide GroupOf; hide OffsetOf; hide Slots; hide StripeOf; hide Full; hide Left; hide Tot; hide AggData; hide Inline;
    hide Per;
    Decompose(par, n);
    if m == 0 {
      DataStep(par, 0, DataAt(s, i));
      DataStep(par, 0, DataNum(n));
    } else {
      DataCounts(par, m - 1, s, i, n);
      DataStep(par, m - 1, DataAt(s, i));
      DataStep(par, m - 1, DataNum(n));
      GroupCounts(par, m - 1, (m - 1) * Per(par), s, i, n);
    }
  }

  lemma {:induction false} AggCounts(par: Params, s: int, i: nat, n: nat)
    requires par.Ok() && i < par.l && 0 <= s < par.x && n < par.x * par.K()
    ensures Tot(AggView(par), DataAt(s, i)) == par.b && Tot(AggView(par), DataNum(n)) == 1
  {
    hide Tot; hide AggData; hide GroupOf; hide OffsetOf; hide StripeOf; hide Full; hide Left; hide ParityBlocks;
    hide TailsView;
    AggSplit(par, DataAt(s, i));
    AggSplit(par, DataNum(n));
    NumRange(par, n);
    Decompose(par, n);
    FullLeft(par);
    DataCounts(par, par.l, s, i, n);
    TailsTot(par, AggBase(par), AggTails(par), s, i);
    TailsNum(par, AggBase(par), AggTails(par), n);
  }

  lemma {:induction false} AggSplit(par: Params, q: Query)
    requires par.Ok() && (q.DataAt? || q.DataNum?)
    ensures Tot(AggView(par), q) == Tot(AggData(par, par.l), q) + Tot(TailsView(par, AggBase(par), AggTails(par)), q)
  {
    hide Tot; hide AggData; hide ParityBlocks;
    var a, b := AggData(par, par.l), TailsView(par, AggBase(par), AggTails(par));
    TotConcat(a + b, [ParitiesVal(par, AggGid(par))], q);
    TotConcat(a, b, q);
    ParitiesTot(par, HasTails(par), AggGid(par), q);
  }

  lemma {:induction false} AggViewOk(par: Params)
    requires par.Ok() && par.g >= 1
    ensures ViewOk(par, Ph(par), AggLayout(par), AggView(par), AllClean(|AggView(par)|))
  {
    hide ClusterOk; hide AggView; hide Tot; hide LayoutOk; hide Left; hide AggGid;
    AggLayoutOk(par);
    assert par.x * 1 == par.x && par.b * 1 == par.b;
    forall c | 0 <= c < |AggView(par)|
      ensures ClusterOk(par, Ph(par), Tails(AggLayout(par)), c, AggLayout(par).roles[c], AggView(par)[c],
        AllClean(|AggView(par)|)[c])
    {
      AggClusterOk(par, c);
    }
    MulGe(par.x, par.K());
    MulGe(par.l, par.b);
    forall s, i | Live(Ph(par), s) && 0 <= i < par.l
      ensures Tot(AggView(par), DataAt(s, i)) == SizeOf(par, Ph(par), s)
    {
      AggCounts(par, s, i, 0);
    }
    forall n | 0 <= n < par.x * par.K() ensures Tot(AggView(par), DataNum(n)) == 1 {
      AggCounts(par, 0, 0, n);
    }
  }

  /** The placement satisfies the merge invariant: every stripe spans every cluster. */
  lemma {:induction false} AggRested(par: Params, places: seq<set<nat>>)
    requires par.Ok() && par.g >= 1 && |places| == par.x
    requires forall s, c: nat :: 0 <= s < par.x ==> (c in places[s] <==> c <= AggGid(par))
    ensures Rested(par, 1, par.x, Left(par), AggLayout(par), AggView(par), places)
  {
    hide ClusterOk; hide AggView; hide Tot; hide LayoutOk; hide Left; hide AggGid; hide ViewOk;
    AggViewOk(par);
    forall c | 0 <= c < |AggView(par)| ensures AggLayout(par).roles[c] != Free {
      AggClusterOk(par, c);
    }
    forall s | 0 <= s < par.x ensures StripeOk(par, AggLayout(par).roles, AggView(par), s, places[s]) {}
  }

  // ------------------------------------------------------------------
  // Aggregated clusters per group.

  lemma {:induction false} PinConcat(a: seq<Role>, b: seq<Role>, i: int)
    ensures PinCount(a + b, i) == PinCount(a, i) + PinCount(b, i)
  {
    if b == [] {
      assert a + b == a;
    } else {
      var n := |b| - 1;
      assert (a + b)[..|a| + n] == a + b[..n];
      PinConcat(a, b[..n], i);
    }
  }

  lemma {:induction false} PinPrefix(par: Params, i: nat, i': int, n: nat)
    requires n <= Per(par)
    ensures PinCount(GroupRoles(par, i)[..n], i') == if i' != i then 0 else if n <= Full(par) then n else Full(par)
  {
    if n > 0 {
      PinPrefix(par, i, i', n - 1);
      assert GroupRoles(par, i)[..n][..n - 1] == GroupRoles(par, i)[..n - 1];
    }
  }

  lemma {:induction false} PinNone(roles: seq<Role>, i: int)
    requires forall c :: 0 <= c < |roles| ==> !PinOf(roles[c], i)
    ensures PinCount(roles, i) == 0
  {
    if roles != [] { PinNone(roles[..|roles| - 1], i); }
  }

  lemma {:induction false} PinData(par: Params, n: nat, i: int)
    ensures PinCount(AggRoles(par, n), i) == if 0 <= i < n then Full(par) else 0
  {
    if n > 0 {
      PinData(par, n - 1, i);
      PinConcat(AggRoles(par, n - 1), GroupRoles(par, n - 1), i);
      PinPrefix(par, n - 1, i, Per(par));
      assert GroupRoles(par, n - 1)[..Per(par)] == GroupRoles(par, n - 1);
    }
  }

  lemma {:induction false} AggPins(par: Params)
    ensures PinsAre(par, AggLayout(par), Full(par))
  {
    hide AggBase; hide AggTails; hide AggRoles; hide AggLayout; hide Full; hide PinCount;
    var lay := AggLayout(par);
    forall i | 0 <= i < par.l ensures PinCount(lay.roles, i) == Full(par) {
      var a, b := lay.roles[..AggBase(par)], lay.roles[AggBase(par)..];
      RolesSplit(par, i);
      PinConcat(a, b, i);
      PinData(par, par.l, i);
      PinNone(b, i);
    }
  }

  /** The aggregated clusters come first; no later one is pinned. */
  lemma {:induction false} RolesSplit(par: Params, i: nat)
    ensures AggBase(par) <= |AggLayout(par).roles|
    ensures var a, b := AggLayout(par).roles[..AggBase(par)], AggLayout(par).roles[AggBase(par)..];
      a == AggRoles(par, par.l) && AggLayout(par).roles == a + b && forall c :: 0 <= c < |b| ==> !PinOf(b[c], i)
  {
    hide AggBase; hide AggTails; hide AggRoles; hide HasTails; hide TailId; hide Full; hide Left;
    var lay := AggLayout(par);
    var b := lay.roles[AggBase(par)..];
    forall c | 0 <= c < |b| ensures !PinOf(b[c], i) {
      assert b[c] == lay.roles[AggBase(par) + c];
    }
  }
}
