/** Building the Aggregated placement (simulation/aggregated.py): one cluster per
group and chunk, shared by all stripes. */
module AggregatedPlacement {
  import opened Blocks
  import opened Clusters
  import opened MergeState
  import opened MergeStage
  import opened MergeCost
  import opened Placement
  import opened Stripes
  import opened MergingRun
  import opened InitialView
  import opened AggregatedView
  import opened OptimalPlacement
  import opened Stages
  import opened Arith

  /** The clusters of group i when stripes 0..j have placed its chunks before t, and
      the stripes before j all of them. */
  function Partial(par: Params, i: nat, j: nat, t: nat): (r: View)
    requires t <= Per(par)
    ensures |r| == if j == 0 then t else Per(par)
    ensures forall e :: 0 <= e < |r| ==> r[e] == Slot(par, i, e, if e < t then j + 1 else j, i * Per(par) + e)
  {
    seq(if j == 0 then t else Per(par),
      e requires 0 <= e => Slot(par, i, e, if e < t then j + 1 else j, i * Per(par) + e))
  }

  ghost predicate Filling(par: Params, view: View, i: nat, j: nat, t: nat) {
    t <= Per(par) && view == AggData(par, i) + Partial(par, i, j, t)
  }

  /** Stripes before j span the clusters of groups 0..i, stripe j those before chunk
      t of group i, later stripes those of groups before i. */
  ghost predicate Spanning(stripes: seq<Stripe>, i: nat, j: nat, t: nat, per: nat) {
    forall s, c: nat :: 0 <= s < |stripes| ==>
      (c in stripes[s].place <==> c < i * per + (if s < j then per else if s == j then t else 0))
  }

  lemma {:induction false} FillStart(par: Params, i: nat)
    ensures Filling(par, AggData(par, i), i, 0, 0)
  {
    assert AggData(par, i) + Partial(par, i, 0, 0) == AggData(par, i);
  }

  lemma {:induction false} FillNext(par: Params, view: View, i: nat, j: nat)
    requires Filling(par, view, i, j, Per(par))
    ensures Filling(par, view, i, j + 1, 0)
  {
    hide AggData; hide Slot; hide Per;
    assert Partial(par, i, j, Per(par)) == Partial(par, i, j + 1, 0);
  }

  lemma {:induction false} FillEnd(par: Params, view: View, i: nat)
    requires Filling(par, view, i, par.x, 0) && par.x >= 1
    ensures view == AggData(par, i + 1)
  {
    hide Slot; hide Per;
    assert Partial(par, i, par.x, 0) == Slots(par, i, par.x, Per(par), i * Per(par));
  }

  lemma {:induction false} SpanNext(stripes: seq<Stripe>, i: nat, j: nat, per: nat)
    requires Spanning(stripes, i, j, per, per)
    ensures Spanning(stripes, i, j + 1, 0, per)
  {}

  lemma {:induction false} SpanEnd(stripes: seq<Stripe>, i: nat, per: nat)
    requires Spanning(stripes, i, |stripes|, 0, per)
    ensures Spanning(stripes, i + 1, 0, 0, per)
  {
    assert (i + 1) * per == i * per + per;
  }

  /** Chunk t of a group's ids. */
  function ChunkOf(par: Params, ids: seq<BlockId>, t: nat): seq<BlockId>
    requires t * (par.g + 1) + par.g + 1 <= |ids|
  {
    ids[t * (par.g + 1)..t * (par.g + 1) + par.g + 1]
  }

  /** Whole chunks are data; the chunk of an inline tail ends with the parity. */
  lemma {:induction false} SlotStep(par: Params, i: nat, t: nat, j: nat, c: nat)
    requires t < Per(par)
    ensures var ids := GroupIds(par, 1, j, i); var v := Slot(par, i, t, j, c);
      && t * (par.g + 1) + par.g + 1 <= |ids|
      && Slot(par, i, t, j + 1, c) == StoreVal(v, ChunkOf(par, ids, t), i, j, c)
  {
    hide GroupIds; hide Slot; hide StoreVal; hide Full; hide Left;
    FullLeft(par);
    RestIs(par, j, i);
    if t < Full(par) {
      ChunkIds(par, j, i, t, c);
      SlotData(par, i, t, j, c);
    } else {
      SlotTail(par, i, j, c);
    }
  }

  lemma {:induction false} SlotData(par: Params, i: nat, t: nat, j: nat, c: nat)
    requires t < Full(par) && t * (par.g + 1) + par.g + 1 <= |GroupIds(par, 1, j, i)|
    ensures Slot(par, i, t, j + 1, c) ==
      StoreVal(Slot(par, i, t, j, c), ChunkOf(par, GroupIds(par, 1, j, i), t), i, j, c)
  {
    hide GroupIds; hide Promotes; hide Gather; hide Full; hide Run;
    ChunkIds(par, j, i, t, c);
    GatherRun(par, i, t * (par.g + 1), par.g + 1, j, c);
  }

  lemma {:induction false} SlotTail(par: Params, i: nat, j: nat, c: nat)
    requires Full(par) * (par.g + 1) + par.g + 1 == |GroupIds(par, 1, j, i)|
    ensures Slot(par, i, Full(par), j + 1, c) ==
      StoreVal(Slot(par, i, Full(par), j, c), ChunkOf(par, GroupIds(par, 1, j, i), Full(par)), i, j, c)
  {
    hide GroupIds; hide Promotes; hide TailBlocks; hide Full; hide Left; hide Run; hide RestIds; hide BlocksOf;
    RestIs(par, j, i);
    assert ChunkOf(par, GroupIds(par, 1, j, i), Full(par)) == RestIds(par, j, i);
    RestBlocks(par, j, i, c, Slot(par, i, Full(par), j, c).kind);
    TailBlocksStep(par, i, j, c);
  }

  lemma {:induction false} GatherRun(par: Params, i: nat, a: nat, n: nat, j: nat, c: nat)
    ensures Gather(par, i, a, n, false, j + 1, c) == Gather(par, i, a, n, false, j, c) + Run(par, j, i, a, n, c)
  {}

  /** Stores chunk t of group i of stripe j in cluster c, opening it for stripe 0. */
  method PlaceAggChunk(pl: DataPlacement, ids: seq<BlockId>, i: nat, j: nat, a: nat, c: nat, ghost t: nat)
    requires pl.Valid() && j < |pl.stripes| && t < Per(pl.par) && c == i * Per(pl.par) + t && a == t * (pl.par.g + 1)
    requires ids == GroupIds(pl.par, 1, j, i) && a + pl.par.g + 1 <= |ids|
    requires Filling(pl.par, pl.View(), i, j, t) && Spanning(pl.stripes, i, j, t, Per(pl.par))
    modifies pl`clusters, pl`numClusters, pl`stripes, pl.clusters
    ensures pl.Valid() && SameNames(pl.stripes, old(pl.stripes))
    ensures Filling(pl.par, pl.View(), i, j, t + 1) && Spanning(pl.stripes, i, j, t + 1, Per(pl.par))
    ensures forall e :: 0 <= e < |pl.clusters| ==> pl.clusters[e] in old(pl.clusters) || fresh(pl.clusters[e])
  {
    hide Filling; hide Spanning; hide GroupIds; hide Slot; hide StoreVal; hide Per; hide AlsoIn; hide SameNames;
    ghost var par := pl.par;
    FillStep(par, pl.View(), i, j, t);
    SpanStep(pl.stripes, i, j, t, Per(par));
    SlotStep(par, i, t, j, c);
    if j == 0 { pl.Open(); }
    StoreAt(pl, ids[a..a + pl.par.g + 1], i, j, c);
  }

  lemma {:induction false} SpanStep(stripes: seq<Stripe>, i: nat, j: nat, t: nat, per: nat)
    requires Spanning(stripes, i, j, t, per) && j < |stripes|
    ensures Spanning(AlsoIn(stripes, j, i * per + t), i, j, t + 1, per)
    ensures SameNames(AlsoIn(stripes, j, i * per + t), stripes)
  {}

  lemma {:induction false} FillStep(par: Params, view: View, i: nat, j: nat, t: nat)
    requires Filling(par, view, i, j, t) && t < Per(par)
    ensures var c := i * Per(par) + t; var ready := if j == 0 then view + [ClusterVal([], D)] else view;
      && c < |ready| && |view| >= c && (j == 0 ==> |view| == c) && ready[c] == Slot(par, i, t, j, c)
      && Filling(par, ready[c := Slot(par, i, t, j + 1, c)], i, j, t + 1)
  {
    SlotEmpty(par, i, t, i * Per(par) + t);
    hide AggData; hide Slot; hide Per;
    var c := i * Per(par) + t;
    var ready := if j == 0 then view + [ClusterVal([], D)] else view;
    assert ready[c := Slot(par, i, t, j + 1, c)] == AggData(par, i) + Partial(par, i, j, t + 1);
  }

  lemma {:induction false} SlotEmpty(par: Params, i: nat, t: nat, c: nat)
    ensures Slot(par, i, t, 0, c) == ClusterVal([], D)
  {}

  /** The loop over chunks stops at the first that does not fit. */
  lemma {:induction false} ChunkFits(par: Params, j: nat, i: nat, t: nat)
    requires par.Ok() && par.b >= par.g + 1 && t <= Per(par)
    ensures var ids, a := GroupIds(par, 1, j, i), t * (par.g + 1);
      && (a < |ids| && a + par.g + 1 <= |ids| <==> t < Per(par))
      && (t == Per(par) && !Inline(par) ==> a < |ids| && ids[a..] == RestIds(par, j, i))
      && (t == Per(par) && Inline(par) ==> a == |ids|) && Per(par) >= 1
  {
    FullLeft(par);
    DivAtLeast(par.b, 1, par.g + 1);
    RestIs(par, j, i);
    assert (Full(par) + 1) * (par.g + 1) == Full(par) * (par.g + 1) + par.g + 1;
    if t < Full(par) { ChunkInGroup(par, t); }
  }

  /** The chunks of group i of stripe j, from cluster `first` on; what is left. */
  method PlaceAggGroup(pl: DataPlacement, i: nat, j: nat, first: nat) returns (rest: seq<BlockId>)
    requires pl.Valid() && pl.par.Ok() && pl.par.b >= pl.par.g + 1 && first == i * Per(pl.par)
    requires i < pl.par.l && j < |pl.stripes| && NamesOk(pl.par, 1, pl.stripes)
    requires Filling(pl.par, pl.View(), i, j, 0) && Spanning(pl.stripes, i, j, 0, Per(pl.par))
    modifies pl`clusters, pl`numClusters, pl`stripes, pl.clusters
    ensures pl.Valid() && SameNames(pl.stripes, old(pl.stripes))
    ensures Filling(pl.par, pl.View(), i, j, Per(pl.par)) && Spanning(pl.stripes, i, j, Per(pl.par), Per(pl.par))
    ensures rest == if Inline(pl.par) then [] else RestIds(pl.par, j, i)
    ensures forall e :: 0 <= e < |pl.clusters| ==> pl.clusters[e] in old(pl.clusters) || fresh(pl.clusters[e])
  {
    hide Filling; hide Spanning; hide GroupIds; hide Per; hide SameNames; hide Inline; hide RestIds;
    var par, group := pl.par, pl.stripes[j].info[i];
    assert InfoOk(par, 1, j, pl.stripes[j].info);
    SameNamesRefl(pl.stripes);
    ChunkFits(par, j, i, 0);
    var a, index := 0, first;
    ghost var t := 0;
    rest := [];
    while a < |group|
      invariant pl.Valid() && SameNames(pl.stripes, old(pl.stripes)) && |pl.stripes| == |old(pl.stripes)|
      invariant t <= Per(par) && Filling(par, pl.View(), i, j, t) && Spanning(pl.stripes, i, j, t, Per(par))
      invariant a < |group| ==> a == t * (par.g + 1) && index == i * Per(par) + t && rest == []
      invariant a >= |group| ==> t == Per(par) && rest == if Inline(par) then [] else RestIds(par, j, i)
      invariant forall e :: 0 <= e < |pl.clusters| ==> pl.clusters[e] in old(pl.clusters) || fresh(pl.clusters[e])
      decreases |group| - a
    {
      ChunkFits(par, j, i, t);
      if a + par.g + 1 > |group| {
        rest := group[a..];
      } else {
        ghost var before := pl.stripes;
        PlaceAggChunk(pl, group, i, j, a, index, t);
        SameNamesTrans(pl.stripes, before, old(pl.stripes));
        SameLength(pl.stripes, before);
        t := t + 1;
        assert t * (par.g + 1) == (t - 1) * (par.g + 1) + par.g + 1;
        ChunkFits(par, j, i, t);
      }
      index := index + 1;
      a := a + par.g + 1;
    }
  }

  /** The leftovers of the first u pairs (group, stripe): none for inline tails. */
  ghost predicate AggRests(par: Params, rests: seq<seq<BlockId>>, u: nat) {
    if Inline(par) then rests == [] else RestsOk(par, rests, u)
  }

  /** Up to group i of stripe j. */
  ghost predicate RestsTo(par: Params, rests: seq<seq<BlockId>>, i: nat, j: nat) { AggRests(par, rests, i * par.x + j) }

  lemma {:induction false} AggRestsStep(par: Params, rests: seq<seq<BlockId>>, i: nat, j: nat, rest: seq<BlockId>)
    requires j < par.x && RestsTo(par, rests, i, j) && rest == if Inline(par) then [] else RestIds(par, j, i)
    ensures RestsTo(par, if rest == [] then rests else rests + [rest], i, j + 1)
  {
    if !Inline(par) { RestsStep(par, rests, i, j); }
  }

  lemma {:induction false} RestsToEnd(par: Params, rests: seq<seq<BlockId>>, i: nat)
    ensures RestsTo(par, rests, i, par.x) == RestsTo(par, rests, i + 1, 0)
    ensures RestsTo(par, rests, i, 0) == AggRests(par, rests, i * par.x)
  {
    assert (i + 1) * par.x == i * par.x + par.x;
  }

  lemma {:induction false} SmallGroups(par: Params, j: nat, i: nat)
    requires par.b < par.g + 1
    ensures Per(par) == 0 && !Inline(par) && GroupIds(par, 1, j, i) == RestIds(par, j, i)
  {
    WholeGroupLeft(par, j, i);
  }

  lemma {:induction false} PerIs(par: Params)
    requires par.b >= par.g + 1
    ensures Per(par) == (par.b + 1) / (par.g + 1)
  {
    FullLeft(par);
    DivAtLeast(par.b, 1, par.g + 1);
    if Inline(par) {
      assert (Full(par) + 1) * (par.g + 1) == Full(par) * (par.g + 1) + par.g + 1;
      DivIs(par.b + 1, Full(par) + 1, par.g + 1);
    } else {
      DivIs(par.b + 1, Full(par), par.g + 1);
    }
  }

  /** The running index where group i's clusters start. */
  predicate CountOk(par: Params, i: nat, cnt: nat) { par.b >= par.g + 1 ==> cnt == i * Per(par) }

  lemma {:induction false} CountStep(par: Params, i: nat, cnt: nat)
    requires CountOk(par, i, cnt)
    ensures CountOk(par, 0, 0) && CountOk(par, i + 1, cnt + (par.b + 1) / (par.g + 1))
  {
    if par.b >= par.g + 1 { PerIs(par); }
    assert (i + 1) * Per(par) == i * Per(par) + Per(par);
  }

  /** Group i of stripe j. */
  method PlaceAggPair(pl: DataPlacement, i: nat, j: nat, cnt: nat) returns (rest: seq<BlockId>)
    requires pl.Valid() && pl.par.Ok() && CountOk(pl.par, i, cnt)
    requires i < pl.par.l && j < |pl.stripes| && NamesOk(pl.par, 1, pl.stripes)
    requires Filling(pl.par, pl.View(), i, j, 0) && Spanning(pl.stripes, i, j, 0, Per(pl.par))
    modifies pl`clusters, pl`numClusters, pl`stripes, pl.clusters
    ensures pl.Valid() && SameNames(pl.stripes, old(pl.stripes))
    ensures Filling(pl.par, pl.View(), i, j + 1, 0) && Spanning(pl.stripes, i, j + 1, 0, Per(pl.par))
    ensures rest == if Inline(pl.par) then [] else RestIds(pl.par, j, i)
    ensures forall e :: 0 <= e < |pl.clusters| ==> pl.clusters[e] in old(pl.clusters) || fresh(pl.clusters[e])
  {
    hide Filling; hide Spanning; hide GroupIds; hide Per; hide SameNames; hide Inline; hide RestIds;
    if pl.par.b >= pl.par.g + 1 {
      rest := PlaceAggGroup(pl, i, j, cnt);
    } else {
      assert InfoOk(pl.par, 1, j, pl.stripes[j].info);
      SmallGroups(pl.par, j, i);
      SameNamesRefl(pl.stripes);
      rest := pl.stripes[j].info[i];
    }
    FillNext(pl.par, pl.View(), i, j);
    SpanNext(pl.stripes, i, j, Per(pl.par));
  }

  /** The chunks of group i of every stripe. */
  method PlaceAggStripes(pl: DataPlacement, i: nat, cnt: nat, rests0: seq<seq<BlockId>>)
    returns (rests: seq<seq<BlockId>>)
    requires pl.Valid() && pl.par.Ok() && CountOk(pl.par, i, cnt)
    requires i < pl.par.l && |pl.stripes| == pl.par.x && NamesOk(pl.par, 1, pl.stripes)
    requires pl.View() == AggData(pl.par, i) && Spanning(pl.stripes, i, 0, 0, Per(pl.par))
    requires RestsTo(pl.par, rests0, i, 0)
    modifies pl`clusters, pl`numClusters, pl`stripes, pl.clusters
    ensures pl.Valid() && SameNames(pl.stripes, old(pl.stripes)) && |pl.stripes| == pl.par.x
    ensures NamesOk(pl.par, 1, pl.stripes)
    ensures pl.View() == AggData(pl.par, i + 1) && Spanning(pl.stripes, i + 1, 0, 0, Per(pl.par))
    ensures RestsTo(pl.par, rests, i + 1, 0)
    ensures forall e :: 0 <= e < |pl.clusters| ==> pl.clusters[e] in old(pl.clusters) || fresh(pl.clusters[e])
  {
    hide Filling; hide Spanning; hide Per; hide SameNames; hide Inline; hide RestIds; hide NamesOk; hide RestsTo;
    hide AggData;
    ghost var par := pl.par;
    rests := rests0;
    SameNamesRefl(pl.stripes);
    FillStart(par, i);
    for j := 0 to pl.par.x
      invariant pl.Valid() && SameNames(pl.stripes, old(pl.stripes)) && |pl.stripes| == par.x
      invariant NamesOk(par, 1, pl.stripes)
      invariant Filling(par, pl.View(), i, j, 0) && Spanning(pl.stripes, i, j, 0, Per(par)) && RestsTo(par, rests, i, j)
      invariant forall e :: 0 <= e < |pl.clusters| ==> pl.clusters[e] in old(pl.clusters) || fresh(pl.clusters[e])
    {
      ghost var before := pl.stripes;
      var rest := PlaceAggPair(pl, i, j, cnt);
      SameNamesTrans(pl.stripes, before, old(pl.stripes));
      SameLength(pl.stripes, before);
      NamesKept(par, 1, pl.stripes, before);
      AggRestsStep(par, rests, i, j, rest);
      if rest != [] { rests := rests + [rest]; }
    }
    FillEnd(par, pl.View(), i);
    SpanEnd(pl.stripes, i, Per(par));
    RestsToEnd(par, rests, i);
  }

  /** All chunks of all groups. */
  method PlaceAggData(pl: DataPlacement) returns (rests: seq<seq<BlockId>>)
    requires pl.Valid() && pl.par.Ok() && pl.clusters == [] && |pl.stripes| == pl.par.x
    requires NamesOk(pl.par, 1, pl.stripes)
    requires forall j :: 0 <= j < |pl.stripes| ==> pl.stripes[j].place == {}
    modifies pl`clusters, pl`numClusters, pl`stripes
    ensures pl.Valid() && |pl.stripes| == pl.par.x && NamesOk(pl.par, 1, pl.stripes)
    ensures pl.View() == AggData(pl.par, pl.par.l)
    ensures Shared(pl.View(), 0, pl.stripes) && AggRests(pl.par, rests, pl.par.l * pl.par.x)
    ensures forall e :: 0 <= e < |pl.clusters| ==> fresh(pl.clusters[e])
  {
    hide Spanning; hide Per; hide SameNames; hide NamesOk; hide AggRests; hide RestsTo; hide AggData; hide Shared;
    hide CountOk;
    var par, cnt: nat := pl.par, 0;
    rests := [];
    AggStart(par, pl.stripes);
    assert pl.View() == [];
    for i := 0 to par.l
      invariant pl.Valid() && |pl.stripes| == par.x && NamesOk(par, 1, pl.stripes) && CountOk(par, i, cnt)
      invariant pl.View() == AggData(par, i) && Spanning(pl.stripes, i, 0, 0, Per(par)) && RestsTo(par, rests, i, 0)
      invariant forall e :: 0 <= e < |pl.clusters| ==> fresh(pl.clusters[e])
    {
      rests := PlaceAggStripes(pl, i, cnt, rests);
      CountStep(par, i, cnt);
      cnt := cnt + (par.b + 1) / (par.g + 1);
    }
    RestsToEnd(par, rests, par.l);
    SpanShared(par, pl.View(), pl.stripes);
  }

  lemma {:induction false} AggStart(par: Params, stripes: seq<Stripe>)
    requires par.x >= 1 && forall j :: 0 <= j < |stripes| ==> stripes[j].place == {}
    ensures AggData(par, 0) == [] && Spanning(stripes, 0, 0, 0, Per(par)) && RestsTo(par, [], 0, 0)
    ensures CountOk(par, 0, 0)
  {}

  lemma {:induction false} SpanShared(par: Params, view: View, stripes: seq<Stripe>)
    requires Spanning(stripes, par.l, 0, 0, Per(par)) && view == AggData(par, par.l)
    ensures Shared(view, 0, stripes)
  {}

  /** The size of the first leftover tells tails, bare parities and inline tails apart. */
  lemma {:induction false} FirstAggRest(par: Params, rests: seq<seq<BlockId>>)
    requires par.Ok() && par.g >= 1 && AggRests(par, rests, par.l * par.x)
    ensures |rests| > 0 <==> !Inline(par)
    ensures !Inline(par) ==> RestsOk(par, rests, par.l * par.x) && |rests[0]| == Left(par) + 1
    ensures ((if |rests| > 0 then |rests[0]| else 0) != 1) == HasTails(par)
  {
    if !Inline(par) { FirstRest(par, rests); }
  }

  lemma {:induction false} AggViewIs(par: Params, data: View)
    requires par.Ok() && par.g >= 1 && data == AggData(par, par.l)
    ensures |data| == AggBase(par)
    ensures Inline(par) ==> HasTails(par) && WithParities(par, data, true) == AggView(par)
    ensures !Inline(par) && HasTails(par) ==>
      WithParities(par, data + TailsView(par, |data|, par.l), true) == AggView(par)
    ensures !HasTails(par) ==>
      WithParities(par, data + [ClusterVal(LocalBlocks(par, par.l * par.x, |data|), L)], false) == AggView(par)
  {
    var t := AggTails(par);
    assert data + TailsView(par, AggBase(par), 0) == data;
    if HasTails(par) {
      assert WithGlobals(par, ClusterVal([], D), AggGid(par)) == ParitiesVal(par, AggGid(par));
    } else {
      var v := ClusterVal(LocalBlocks(par, par.l * par.x, |data|), L);
      assert (data + [v])[..|data|] == data;
    }
  }

  /** Without global parities: one block of every stripe to a cluster, and a last cluster
      with nothing in it. */
  function BareView(par: Params): View { AggData(par, par.l) + [ClusterVal([], D)] }

  lemma {:induction false} BareIs(par: Params, rests: seq<seq<BlockId>>)
    requires par.Ok() && par.g == 0 && AggRests(par, rests, par.l * par.x)
    ensures rests == [] && WithParities(par, AggData(par, par.l), true) == BareView(par)
  {
    NoGlobals(par, par.x, |AggData(par, par.l)|);
  }

  lemma {:induction false} NoGlobals(par: Params, j: nat, c: nat)
    requires par.g == 0
    ensures GlobBlocks(par, j, c) == []
  {
    if j > 0 { NoGlobals(par, j - 1, c); }
  }

  /** That last cluster is where merging stops: every stripe spans it, it is a data cluster
      with room and no first block to compare with, and the first cluster, a block of every
      stripe, is over its bound of g + 1 when there are two stripes. */
  lemma {:induction false} EmptyLast(par: Params, stripes: seq<Stripe>)
    requires par.Ok() && par.g == 0 && Shared(BareView(par), 0, stripes)
    ensures var view := BareView(par);
      && |view| >= 2 && view[|view| - 1] == ClusterVal([], D)
      && (forall j :: 0 <= j < |stripes| ==> 0 in stripes[j].place && |view| - 1 in stripes[j].place)
      && view[0].kind == D && |view[0].blocks| == par.x && forall e :: 0 <= e < par.x ==> view[0].blocks[e].kind == D
  {
    hide Gather;
    MulMono(1, par.l, Per(par));
    SlotAt(par, par.l, 0, 0);
    GatherOnes(par, par.x);
  }

  lemma {:induction false} GatherOnes(par: Params, j: nat)
    ensures var bs := Gather(par, 0, 0, 1, false, j, 0); |bs| == j && forall e :: 0 <= e < j ==> bs[e].kind == D
  {
    if j > 0 { GatherOnes(par, j - 1); }
  }

  /** placement: stores the blocks of every stripe, clusters from scratch. */
  method PlaceAggregated(pl: DataPlacement)
    requires pl.Valid() && pl.par.Ok() && pl.clusters == [] && |pl.stripes| == pl.par.x
    requires NamesOk(pl.par, 1, pl.stripes)
    requires forall j :: 0 <= j < |pl.stripes| ==> pl.stripes[j].place == {}
    modifies pl
    ensures pl.Valid() && pl.gid == |pl.clusters| - 1 && Shared(pl.View(), 0, pl.stripes)
    ensures NamesOk(pl.par, 1, pl.stripes)
    ensures pl.View() == if pl.par.g >= 1 then AggView(pl.par) else BareView(pl.par)
    ensures pl.par.g >= 1 ==> Placed(pl, true, AggLayout(pl.par))
    ensures forall e :: 0 <= e < |pl.clusters| ==> fresh(pl.clusters[e])
  {
    hide Shared; hide NamesOk; hide SameNames; hide RestsOk; hide Rested; hide AggData; hide AggView; hide AggGid;
    hide Left; hide TailsView; hide LocalBlocks; hide WithParities; hide AggBase; hide AggRests; hide Inline;
    hide Placed; hide BareView;
    ghost var par := pl.par;
    var rests := PlaceAggData(pl);
    if par.g >= 1 {
      AggViewIs(par, pl.View());
      FirstAggRest(par, rests);
    } else {
      BareIs(par, rests);
    }
    var m := 0;
    ghost var stripes0 := pl.stripes;
    SameNamesRefl(stripes0);
    if |rests| > 0 {
      m := |rests[0]|;
      PlaceRests(pl, rests, 0);
    }
    SameLength(pl.stripes, stripes0);
    NamesKept(par, 1, pl.stripes, stripes0);
    ghost var stripes1 := pl.stripes;
    PlaceParities(pl, m != 1, 0);
    SameLength(pl.stripes, stripes1);
    NamesKept(par, 1, pl.stripes, stripes1);
    if par.g >= 1 { AggPlaced(pl); }
  }

  lemma {:induction false} AggPlaced(pl: DataPlacement)
    requires pl.Valid() && pl.par.Ok() && pl.par.g >= 1 && pl.View() == AggView(pl.par) && pl.gid == |pl.clusters| - 1
    requires |pl.stripes| == pl.par.x && NamesOk(pl.par, 1, pl.stripes) && Shared(pl.View(), 0, pl.stripes)
    ensures Placed(pl, true, AggLayout(pl.par))
  {
    hide Rested; hide AggView; hide AggGid; hide NamesOk; hide PinsAre;
    AggLayoutOk(pl.par);
    AggPins(pl.par);
    AggRested(pl.par, Places(pl.stripes));
  }
}
