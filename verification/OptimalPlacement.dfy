/** Building the Optimal placement (simulation/optimal.py): whole clusters of g + 1
data blocks per stripe and group, shared tails, one cluster of global parities. */
module OptimalPlacement {
  import opened Blocks
  import opened Clusters
  import opened MergeState
  import opened MergeView
  import opened MergeStage
  import opened MergeCost
  import opened Stages
  import opened Placement
  import opened Stripes
  import opened MergingRun
  import opened InitialView
  import opened Arith

  function BlocksOf(ids: seq<BlockId>, i: int, j: int, c: int): (r: seq<Block>)
    ensures |r| == |ids| && forall e :: 0 <= e < |r| ==> r[e] == Block(ids[e].0, ids[e].1, i, j, c)
  {
    seq(|ids|, e requires 0 <= e < |ids| => Block(ids[e].0, ids[e].1, i, j, c))
  }

  function Promotes(kind: Kind, ids: seq<BlockId>): Kind {
    if ids == [] then kind else Promote(Promotes(kind, ids[..|ids| - 1]), ids[|ids| - 1].0)
  }

  lemma {:induction false} PromotesData(kind: Kind, ids: seq<BlockId>)
    requires forall e :: 0 <= e < |ids| ==> ids[e].0 == D
    ensures Promotes(kind, ids) == kind
  {
    if ids != [] { PromotesData(kind, ids[..|ids| - 1]); }
  }

  lemma {:induction false} PromotesGlobal(kind: Kind, ids: seq<BlockId>)
    requires forall e :: 0 <= e < |ids| ==> ids[e].0 == G
    ensures Promotes(kind, ids) == if kind == D && ids != [] then G else kind
  {
    if ids != [] { PromotesGlobal(kind, ids[..|ids| - 1]); }
  }

  /** Stores blocks with the given ids for group i of stripe j in cluster c. */
  method Store(cluster: Cluster, ids: seq<BlockId>, i: int, j: int, c: int)
    requires cluster.Valid()
    modifies cluster
    ensures cluster.Valid()
    ensures cluster.Val() == ClusterVal(old(cluster.blocks) + BlocksOf(ids, i, j, c), Promotes(old(cluster.kind), ids))
  {
    assert cluster.blocks + BlocksOf(ids[..0], i, j, c) == cluster.blocks;
    for e := 0 to |ids|
      invariant cluster.Valid()
      invariant cluster.Val() ==
        ClusterVal(old(cluster.blocks) + BlocksOf(ids[..e], i, j, c), Promotes(old(cluster.kind), ids[..e]))
    {
      var b := Block(ids[e].0, ids[e].1, i, j, c);
      assert ids[..e + 1][..e] == ids[..e];
      assert BlocksOf(ids[..e + 1], i, j, c) == BlocksOf(ids[..e], i, j, c) + [b];
      assert old(cluster.blocks) + BlocksOf(ids[..e], i, j, c) + [b] ==
        old(cluster.blocks) + BlocksOf(ids[..e + 1], i, j, c);
      cluster.AddNewBlock(b);
    }
    assert ids[..|ids|] == ids;
  }

  /** Stripe j with cluster c among those it spans. */
  function AlsoIn(stripes: seq<Stripe>, j: nat, c: nat): seq<Stripe>
    requires j < |stripes|
  {
    stripes[j := stripes[j].(place := stripes[j].place + {c})]
  }

  /** v with these ids of group i of stripe j added, in cluster c. */
  function StoreVal(v: ClusterVal, ids: seq<BlockId>, i: int, j: int, c: int): ClusterVal {
    ClusterVal(v.blocks + BlocksOf(ids, i, j, c), Promotes(v.kind, ids))
  }

  /** Stores ids of group i of stripe j in cluster c, and records that j spans c. */
  method StoreAt(pl: DataPlacement, ids: seq<BlockId>, i: nat, j: nat, c: nat)
    requires pl.Valid() && c < |pl.clusters| && j < |pl.stripes|
    modifies pl`stripes, pl.clusters[c]
    ensures pl.Valid() && pl.View() == old(pl.View())[c := StoreVal(old(pl.View())[c], ids, i, j, c)]
    ensures pl.stripes == AlsoIn(old(pl.stripes), j, c)
  {
    Store(pl.clusters[c], ids, i, j, c);
    pl.stripes := pl.stripes[j := pl.stripes[j].(place := pl.stripes[j].place + {c})];
  }

  // ------------------------------------------------------------------
  // What the recorded ids are.

  lemma {:induction false} GroupOfOne(par: Params, j: nat, i: nat)
    ensures GroupIds(par, 1, j, i) == DataIds(par, j, i, par.b) + [(L, i + j * par.l)]
  {
    OriginalGroup(par, j, i);
  }

  lemma {:induction false} ChunkIds(par: Params, j: nat, i: nat, t: nat, c: nat)
    requires t < Full(par)
    ensures var a := t * (par.g + 1); var ids := GroupIds(par, 1, j, i);
      && a + par.g + 1 <= par.b == |ids| - 1
      && BlocksOf(ids[a..a + par.g + 1], i, j, c) == Run(par, j, i, a, par.g + 1, c)
      && Promotes(D, ids[a..a + par.g + 1]) == D
  {
    hide Full; hide Left; hide GroupIds; hide Promotes;
    GroupOfOne(par, j, i);
    FullLeft(par);
    MulMono(t + 1, Full(par), par.g + 1);
    assert (t + 1) * (par.g + 1) == t * (par.g + 1) + par.g + 1;
    var a, ids := t * (par.g + 1), GroupIds(par, 1, j, i);
    PromotesData(D, ids[a..a + par.g + 1]);
  }

  /** What is left of a group after its whole clusters: data, then the parity. */
  function RestIds(par: Params, j: nat, i: nat): (r: seq<BlockId>)
    ensures |r| == Left(par) + 1 && r[Left(par)] == (L, i + j * par.l)
    ensures forall e :: 0 <= e < Left(par) ==> r[e] == (D, First(par, j, i) + Full(par) * (par.g + 1) + e)
  {
    seq(Left(par), e requires 0 <= e => (D, First(par, j, i) + Full(par) * (par.g + 1) + e)) + [(L, i + j * par.l)]
  }

  lemma {:induction false} RestIs(par: Params, j: nat, i: nat)
    ensures var a := Full(par) * (par.g + 1); var ids := GroupIds(par, 1, j, i);
      a < |ids| && ids[a..] == RestIds(par, j, i) && a + par.g + 1 > par.b == |ids| - 1
  {
    GroupOfOne(par, j, i);
    FullLeft(par);
    var a, ids := Full(par) * (par.g + 1), GroupIds(par, 1, j, i);
    assert |ids[a..]| == |RestIds(par, j, i)|;
    forall e | 0 <= e < |ids[a..]| ensures ids[a..][e] == RestIds(par, j, i)[e] {}
  }

  lemma {:induction false} RestBlocks(par: Params, j: nat, i: nat, c: nat, kind: Kind)
    ensures BlocksOf(RestIds(par, j, i), i, j, c)
      == Run(par, j, i, Full(par) * (par.g + 1), Left(par), c) + [LocalParity(par, c, j, i)]
    ensures Promotes(kind, RestIds(par, j, i)) == L
  {}

  // ------------------------------------------------------------------
  // Whole clusters.

  predicate Mine(view: View, c: nat, j: int) {
    c < |view| && view[c].blocks != [] && view[c].blocks[0].stripe == j
  }

  /** Stripe j spans the clusters whose first block is its own. */
  ghost predicate Owned(view: View, stripes: seq<Stripe>) {
    forall j, c :: 0 <= j < |stripes| ==> (c in stripes[j].place <==> Mine(view, c, j))
  }

  lemma {:induction false} OwnedStep(view: View, stripes: seq<Stripe>, v: ClusterVal, j: nat)
    requires Owned(view, stripes) && j < |stripes| && v.blocks != [] && v.blocks[0].stripe == j
    ensures Owned(view + [v], AlsoIn(stripes, j, |view|)) && SameNames(AlsoIn(stripes, j, |view|), stripes)
  {
    forall c: nat, j' ensures Mine(view + [v], c, j') <==> Mine(view, c, j') || (c == |view| && j' == j) {}
  }

  /** Only the spanned clusters of the stripes differ. */
  ghost predicate SameNames(a: seq<Stripe>, b: seq<Stripe>) {
    |a| == |b| && forall s :: 0 <= s < |a| ==> a[s].id == b[s].id && a[s].info == b[s].info
  }

  /** Opens a cluster for one chunk of ids of group i of stripe j. */
  method PlaceChunk(pl: DataPlacement, ids: seq<BlockId>, i: nat, j: nat)
    requires pl.Valid() && j < |pl.stripes| && ids != [] && Owned(pl.View(), pl.stripes)
    modifies pl`clusters, pl`numClusters, pl`stripes
    ensures pl.Valid() && SameNames(pl.stripes, old(pl.stripes)) && Owned(pl.View(), pl.stripes)
    ensures pl.View() == old(pl.View()) + [ClusterVal(BlocksOf(ids, i, j, |old(pl.clusters)|), Promotes(D, ids))]
    ensures forall e :: 0 <= e < |pl.clusters| ==> pl.clusters[e] in old(pl.clusters) || fresh(pl.clusters[e])
  {
    hide Owned; hide Promotes; hide SameNames; hide AlsoIn; hide StoreVal;
    var c := |pl.clusters|;
    FirstStore(pl.View(), ids, i, j);
    OwnedStep(pl.View(), pl.stripes, ClusterVal(BlocksOf(ids, i, j, c), Promotes(D, ids)), j);
    pl.Open();
    StoreAt(pl, ids, i, j, c);
  }

  lemma {:induction false} FirstStore(view: View, ids: seq<BlockId>, i: nat, j: nat)
    ensures var c := |view|;
      (view + [ClusterVal([], D)])[c := StoreVal(ClusterVal([], D), ids, i, j, c)] ==
        view + [ClusterVal(BlocksOf(ids, i, j, c), Promotes(D, ids))]
  {
    hide Promotes;
    assert [] + BlocksOf(ids, i, j, |view|) == BlocksOf(ids, i, j, |view|);
  }

  lemma {:induction false} ChunksStep(par: Params, view: View, j: nat, i: nat, t: nat)
    ensures view + Chunks(par, j, i, t, |view|) + [ChunkVal(par, j, i, t, |view| + t)] ==
      view + Chunks(par, j, i, t + 1, |view|)
    ensures view + Chunks(par, j, i, 0, |view|) == view
  {}

  lemma {:induction false} NamedGroup(par: Params, stripes: seq<Stripe>, j: nat, i: nat)
    requires NamesOk(par, 1, stripes) && j < |stripes| && i < par.l
    ensures i < |stripes[j].info| && stripes[j].info[i] == GroupIds(par, 1, j, i)
  {
    assert InfoOk(par, 1, j, stripes[j].info);
  }

  /** After t whole clusters, at position a of the group's ids. */
  ghost predicate Grouping(par: Params, view0: View, view: View, j: nat, i: nat, t: nat, a: nat, rest: seq<BlockId>) {
    && t <= Full(par) && view == view0 + Chunks(par, j, i, t, |view0|)
    && if a < par.b + 1 then a == t * (par.g + 1) else t == Full(par) && rest == RestIds(par, j, i)
  }

  lemma {:induction false} GroupingStart(par: Params, view0: View, j: nat, i: nat)
    ensures Grouping(par, view0, view0, j, i, 0, 0, []) && |GroupIds(par, 1, j, i)| == par.b + 1
  {
    RestIs(par, j, i);
    ChunksStep(par, view0, j, i, 0);
  }

  lemma {:induction false} GroupingChunk(par: Params, view0: View, view: View, j: nat, i: nat, t: nat, a: nat,
          rest: seq<BlockId>)
    requires Grouping(par, view0, view, j, i, t, a, rest) && a + par.g + 1 <= par.b
    ensures |GroupIds(par, 1, j, i)| == par.b + 1
    ensures var ids := GroupIds(par, 1, j, i)[a..a + par.g + 1];
      Grouping(par, view0, view + [ClusterVal(BlocksOf(ids, i, j, |view|), Promotes(D, ids))], j, i, t + 1,
        a + par.g + 1, rest)
  {
    hide Full; hide GroupIds; hide RestIds; hide ChunkVal; hide Promotes; hide Chunks; hide Run;
    ChunkTest(par, t);
    ChunkIds(par, j, i, t, |view0| + t);
    ChunkValIs(par, j, i, t, |view0| + t);
    ChunksStep(par, view0, j, i, t);
    assert (t + 1) * (par.g + 1) == t * (par.g + 1) + par.g + 1;
  }

  lemma {:induction false} GroupingRest(par: Params, view0: View, view: View, j: nat, i: nat, t: nat, a: nat,
          rest: seq<BlockId>)
    requires Grouping(par, view0, view, j, i, t, a, rest) && a < par.b + 1 && a + par.g + 1 > par.b
    ensures |GroupIds(par, 1, j, i)| == par.b + 1
    ensures Grouping(par, view0, view, j, i, t, a + par.g + 1, GroupIds(par, 1, j, i)[a..])
  {
    hide Full; hide GroupIds; hide RestIds; hide Chunks;
    RestIs(par, j, i);
    if t < Full(par) { ChunkIds(par, j, i, t, 0); }
  }

  /** Places the whole clusters of group i of stripe j; returns what is left. */
  method PlaceGroup(pl: DataPlacement, i: nat, j: nat) returns (rest: seq<BlockId>)
    requires pl.Valid() && j < |pl.stripes| && i < pl.par.l && Owned(pl.View(), pl.stripes)
    requires NamesOk(pl.par, 1, pl.stripes)
    modifies pl`clusters, pl`numClusters, pl`stripes
    ensures pl.Valid() && SameNames(pl.stripes, old(pl.stripes)) && Owned(pl.View(), pl.stripes)
    ensures pl.View() == old(pl.View()) + Chunks(pl.par, j, i, Full(pl.par), |old(pl.clusters)|)
    ensures rest == RestIds(pl.par, j, i)
    ensures forall e :: 0 <= e < |pl.clusters| ==> pl.clusters[e] in old(pl.clusters) || fresh(pl.clusters[e])
  {
    hide Owned; hide Full; hide GroupIds; hide RestIds; hide Promotes; hide SameNames; hide NamesOk; hide Chunks;
    hide BlocksOf;
    NamedGroup(pl.par, pl.stripes, j, i);
    var par, group := pl.par, pl.stripes[j].info[i];
    SameNamesRefl(pl.stripes);
    ghost var view0, t := pl.View(), 0;
    GroupingStart(par, view0, j, i);
    var a := 0;
    rest := [];
    while a < |group|
      invariant pl.Valid() && SameNames(pl.stripes, old(pl.stripes)) && j < |pl.stripes| && Owned(pl.View(), pl.stripes)
      invariant Grouping(par, view0, pl.View(), j, i, t, a, rest)
      invariant forall e :: 0 <= e < |pl.clusters| ==> pl.clusters[e] in old(pl.clusters) || fresh(pl.clusters[e])
      decreases |group| - a
    {
      hide Grouping;
      if a + par.g + 1 > |group| - 1 {
        GroupingRest(par, view0, pl.View(), j, i, t, a, rest);
        rest := group[a..];
      } else {
        GroupingChunk(par, view0, pl.View(), j, i, t, a, rest);
        ghost var before := pl.stripes;
        PlaceChunk(pl, group[a..a + par.g + 1], i, j);
        SameNamesTrans(pl.stripes, before, old(pl.stripes));
        SameLength(pl.stripes, before);
        t := t + 1;
      }
      a := a + par.g + 1;
    }
  }

  lemma {:induction false} ChunkTest(par: Params, t: nat)
    requires t <= Full(par) && t * (par.g + 1) + par.g + 1 <= par.b
    ensures t < Full(par)
  {
    FullLeft(par);
  }

  lemma {:induction false} ChunkValIs(par: Params, j: nat, i: nat, t: nat, c: nat)
    ensures ChunkVal(par, j, i, t, c) == ClusterVal(Run(par, j, i, t * (par.g + 1), par.g + 1, c), D)
  {}

  lemma {:induction false} WholeGroupLeft(par: Params, j: nat, i: nat)
    requires par.b < par.g + 1
    ensures GroupIds(par, 1, j, i) == RestIds(par, j, i) && Full(par) == 0
  {
    DivIs(par.b, 0, par.g + 1);
    RestIs(par, j, i);
  }

  lemma {:induction false} PairStep(par: Params, i: nat, j: nat)
    requires j < par.x
    ensures (i * par.x + j) % par.x == j && (i * par.x + j) / par.x == i
    ensures DataView(par, i * par.x + j + 1)
      == DataView(par, i * par.x + j) + Chunks(par, j, i, Full(par), (i * par.x + j) * Full(par))
  {
    DivIs(i * par.x + j, i, par.x);
  }

  /** The leftovers of the first u pairs (group, stripe). */
  ghost predicate RestsOk(par: Params, rests: seq<seq<BlockId>>, u: nat) {
    par.x >= 1 && |rests| == u && forall v :: 0 <= v < u ==> rests[v] == RestIds(par, v % par.x, v / par.x)
  }

  lemma {:induction false} RestsStep(par: Params, rests: seq<seq<BlockId>>, i: nat, j: nat)
    requires j < par.x && RestsOk(par, rests, i * par.x + j)
    ensures RestsOk(par, rests + [RestIds(par, j, i)], i * par.x + j + 1)
  {
    PairStep(par, i, j);
  }

  /** The data clusters of the first i groups, and of j stripes of group i. */
  function PairsView(par: Params, i: nat, j: nat): View
    requires par.x >= 1
  {
    DataView(par, i * par.x + j)
  }

  ghost predicate DataTo(par: Params, view: View, rests: seq<seq<BlockId>>, i: nat, j: nat) {
    par.x >= 1 && view == PairsView(par, i, j) && RestsOk(par, rests, i * par.x + j)
  }

  lemma {:induction false} DataToStart(par: Params)
    requires par.x >= 1
    ensures DataTo(par, [], [], 0, 0)
  {
    RestsStart(par);
  }

  lemma {:induction false} DataToIs(par: Params, view: View, rests: seq<seq<BlockId>>, i: nat, j: nat)
    requires DataTo(par, view, rests, i, j)
    ensures par.x >= 1 && view == PairsView(par, i, j)
  {}

  lemma {:induction false} DataToStep(par: Params, view: View, view': View, rests: seq<seq<BlockId>>, i: nat, j: nat)
    requires j < par.x && DataTo(par, view, rests, i, j) && view' == PairsView(par, i, j + 1)
    ensures DataTo(par, view', rests + [RestIds(par, j, i)], i, j + 1)
  {
    hide RestsOk; hide RestIds; hide DataView;
    RestsStep(par, rests, i, j);
  }

  lemma {:induction false} DataToEnd(par: Params, view: View, rests: seq<seq<BlockId>>, i: nat)
    ensures DataTo(par, view, rests, i, par.x) == DataTo(par, view, rests, i + 1, 0)
    ensures DataTo(par, view, rests, i, 0) ==>
      par.x >= 1 && view == DataView(par, i * par.x) && RestsOk(par, rests, i * par.x)
  {
    hide RestsOk; hide DataView;
    assert (i + 1) * par.x == i * par.x + par.x;
  }

  /** Places the whole clusters of every group, group by group. */
  method PlaceData(pl: DataPlacement) returns (rests: seq<seq<BlockId>>)
    requires pl.Valid() && pl.par.Ok() && pl.clusters == [] && |pl.stripes| == pl.par.x
    requires NamesOk(pl.par, 1, pl.stripes)
    requires Owned([], pl.stripes)
    modifies pl`clusters, pl`numClusters, pl`stripes
    ensures pl.Valid() && SameNames(pl.stripes, old(pl.stripes)) && Owned(pl.View(), pl.stripes)
    ensures pl.View() == DataView(pl.par, pl.par.l * pl.par.x) && RestsOk(pl.par, rests, pl.par.l * pl.par.x)
    ensures forall e :: 0 <= e < |pl.clusters| ==> fresh(pl.clusters[e])
  {
    hide Owned; hide Full; hide RestIds; hide GroupIds; hide RestsOk; hide Chunks; hide DataView; hide DataTo;
    hide SameNames; hide PairsView;
    var par := pl.par;
    rests := [];
    SameNamesRefl(pl.stripes);
    assert pl.View() == [];
    DataToStart(par);
    for i := 0 to par.l
      invariant pl.Valid() && SameNames(pl.stripes, old(pl.stripes)) && Owned(pl.View(), pl.stripes)
      invariant DataTo(par, pl.View(), rests, i, 0)
      invariant forall e :: 0 <= e < |pl.clusters| ==> fresh(pl.clusters[e])
    {
      for j := 0 to par.x
        invariant pl.Valid() && SameNames(pl.stripes, old(pl.stripes)) && Owned(pl.View(), pl.stripes)
        invariant DataTo(par, pl.View(), rests, i, j)
        invariant forall e :: 0 <= e < |pl.clusters| ==> fresh(pl.clusters[e])
      {
        SameLength(pl.stripes, old(pl.stripes));
        NamesKept(par, 1, pl.stripes, old(pl.stripes));
        ghost var before, view := pl.stripes, pl.View();
        DataToIs(par, view, rests, i, j);
        var rest := PlacePair(pl, i, j);
        SameNamesTrans(pl.stripes, before, old(pl.stripes));
        DataToStep(par, view, pl.View(), rests, i, j);
        rests := rests + [rest];
      }
      DataToEnd(par, pl.View(), rests, i);
    }
    DataToEnd(par, pl.View(), rests, par.l);
  }

  lemma {:induction false} RestsStart(par: Params)
    requires par.x >= 1
    ensures RestsOk(par, [], 0) && DataView(par, 0) == []
  {}

  method PlacePair(pl: DataPlacement, i: nat, j: nat) returns (rest: seq<BlockId>)
    requires pl.Valid() && pl.par.Ok() && j < pl.par.x == |pl.stripes| && i < pl.par.l && NamesOk(pl.par, 1, pl.stripes)
    requires Owned(pl.View(), pl.stripes) && pl.View() == PairsView(pl.par, i, j)
    modifies pl`clusters, pl`numClusters, pl`stripes
    ensures pl.Valid() && SameNames(pl.stripes, old(pl.stripes)) && Owned(pl.View(), pl.stripes)
    ensures pl.View() == PairsView(pl.par, i, j + 1)
    ensures rest == RestIds(pl.par, j, i)
    ensures forall e :: 0 <= e < |pl.clusters| ==> pl.clusters[e] in old(pl.clusters) || fresh(pl.clusters[e])
  {
    hide Owned; hide RestIds; hide GroupIds; hide Full;
    PairStep(pl.par, i, j);
    if pl.par.b >= pl.par.g + 1 {
      rest := PlaceGroup(pl, i, j);
    } else {
      assert InfoOk(pl.par, 1, j, pl.stripes[j].info);
      WholeGroupLeft(pl.par, j, i);
      rest := pl.stripes[j].info[i];
    }
  }

  // ------------------------------------------------------------------
  // Shared clusters.

  /** The first n stripes additionally span cluster c. */
  function WithPlace(stripes: seq<Stripe>, c: nat, n: nat): (r: seq<Stripe>)
    ensures |r| == |stripes|
    ensures forall j :: 0 <= j < |r| ==>
      r[j] == if j < n then stripes[j].(place := stripes[j].place + {c}) else stripes[j]
  {
    seq(|stripes|, j requires 0 <= j < |stripes| => if j < n then stripes[j].(place := stripes[j].place + {c})
      else stripes[j])
  }

  lemma {:induction false} WithPlaceStep(stripes: seq<Stripe>, c: nat, n: nat)
    ensures WithPlace(stripes, c, 0) == stripes
    ensures n < |stripes| ==> var w := WithPlace(stripes, c, n);
      w[n := w[n].(place := w[n].place + {c})] == WithPlace(stripes, c, n + 1)
  {}

  /** The first n clusters belong to their stripes, the others are shared by all. */
  ghost predicate Shared(view: View, n: nat, stripes: seq<Stripe>) {
    forall j, c: nat :: 0 <= j < |stripes| ==> (c in stripes[j].place <==> c < |view| && (c < n ==> Mine(view, c, j)))
  }

  lemma {:induction false} SharedStep(view: View, n: nat, stripes: seq<Stripe>, v: ClusterVal)
    requires Shared(view, n, stripes) && n <= |view|
    ensures Shared(view + [v], n, WithPlace(stripes, |view|, |stripes|))
    ensures SameNames(WithPlace(stripes, |view|, |stripes|), stripes)
  {
    forall c: nat, j | c < n ensures Mine(view + [v], c, j) <==> Mine(view, c, j) {}
  }

  /** Tail i: the leftovers of group i of every stripe, in a cluster of their own. */
  method PlaceTail(pl: DataPlacement, rests: seq<seq<BlockId>>, i: nat, ghost n: nat)
    requires pl.Valid() && pl.par.Ok() && |pl.stripes| == pl.par.x && i < pl.par.l
    requires RestsOk(pl.par, rests, pl.par.l * pl.par.x)
    requires Shared(pl.View(), n, pl.stripes) && n <= |pl.clusters|
    modifies pl`clusters, pl`numClusters, pl`stripes
    ensures pl.Valid() && SameNames(pl.stripes, old(pl.stripes)) && Shared(pl.View(), n, pl.stripes)
    ensures pl.View() == old(pl.View()) + [ClusterVal(TailBlocks(pl.par, i, pl.par.x, |old(pl.clusters)|), L)]
    ensures forall e :: 0 <= e < |pl.clusters| ==> pl.clusters[e] in old(pl.clusters) || fresh(pl.clusters[e])
  {
    hide Shared; hide RestsOk; hide TailBlocks; hide SameNames;
    var par, c := pl.par, |pl.clusters|;
    TailBlocksNone(par, i, c);
    SharedStep(pl.View(), n, pl.stripes, ClusterVal(TailBlocks(par, i, par.x, c), L));
    WithPlaceStep(pl.stripes, c, 0);
    pl.Open();
    for j := 0 to par.x
      invariant pl.Valid() && |pl.clusters| == c + 1 && pl.stripes == WithPlace(old(pl.stripes), c, j)
      invariant pl.View() == old(pl.View()) + [ClusterVal(TailBlocks(par, i, j, c), if j == 0 then D else L)]
      invariant fresh(pl.clusters[c]) && pl.clusters[..c] == old(pl.clusters)
    {
      PlaceLeftover(pl, rests, i, j, c, old(pl.View()), old(pl.stripes));
    }
  }

  method PlaceLeftover(pl: DataPlacement, rests: seq<seq<BlockId>>, i: nat, j: nat, c: nat, ghost view0: View,
          ghost stripes0: seq<Stripe>)
    requires pl.Valid() && pl.par.Ok() && RestsOk(pl.par, rests, pl.par.l * pl.par.x)
    requires i < pl.par.l && j < pl.par.x == |stripes0| && |pl.clusters| == c + 1 && |view0| == c
    requires pl.stripes == WithPlace(stripes0, c, j)
    requires pl.View() == view0 + [ClusterVal(TailBlocks(pl.par, i, j, c), if j == 0 then D else L)]
    modifies pl`stripes, pl.clusters[c]
    ensures pl.Valid() && pl.stripes == WithPlace(stripes0, c, j + 1)
    ensures pl.View() == view0 + [ClusterVal(TailBlocks(pl.par, i, j + 1, c), L)]
  {
    hide RestsOk; hide RestIds; hide Promotes; hide LocalParity; hide TailBlocks; hide Left; hide Full;
    var par := pl.par;
    WithPlaceStep(stripes0, c, j);
    RestAt(par, rests, i, j);
    RestBlocks(par, j, i, c, if j == 0 then D else L);
    TailBlocksStep(par, i, j, c);
    StoreAt(pl, rests[i * par.x + j], i, j, c);
  }

  lemma {:induction false} TailBlocksNone(par: Params, i: nat, c: nat)
    ensures TailBlocks(par, i, 0, c) == []
  {}

  lemma {:induction false} TailBlocksStep(par: Params, i: nat, j: nat, c: nat)
    ensures TailBlocks(par, i, j + 1, c)
      == TailBlocks(par, i, j, c) +
        (Run(par, j, i, Full(par) * (par.g + 1), Left(par), c) + [LocalParity(par, c, j, i)])
  {}

  lemma {:induction false} RestAt(par: Params, rests: seq<seq<BlockId>>, i: nat, j: nat)
    requires RestsOk(par, rests, par.l * par.x) && i < par.l && j < par.x
    ensures i * par.x + j < |rests| && rests[i * par.x + j] == RestIds(par, j, i)
  {
    PairInRange(par, j, i);
    PairStep(par, i, j);
  }

  /** The one cluster of local parities after group i of j stripes. */
  function LocalSoFar(par: Params, i: nat, j: nat, c: nat): ClusterVal
    requires par.x >= 1
  {
    ClusterVal(LocalBlocks(par, i * par.x + j, c), if i == 0 && j == 0 then D else L)
  }

  lemma {:induction false} LocalSoFarEnds(par: Params, i: nat, c: nat)
    requires par.x >= 1
    ensures LocalSoFar(par, 0, 0, c) == ClusterVal([], D)
    ensures LocalSoFar(par, i, par.x, c) == LocalSoFar(par, i + 1, 0, c)
    ensures par.l >= 1 ==> LocalSoFar(par, par.l, 0, c) == ClusterVal(LocalBlocks(par, par.l * par.x, c), L)
  {
    assert (i + 1) * par.x == i * par.x + par.x;
    assert LocalBlocks(par, 0, c) == [];
  }

  lemma {:induction false} LocalSoFarStep(par: Params, i: nat, j: nat, c: nat)
    requires par.x >= 1 && j < par.x
    ensures LocalSoFar(par, i, j + 1, c) == ClusterVal(LocalSoFar(par, i, j, c).blocks + [LocalParity(par, c, j, i)], L)
  {
    PairStep(par, i, j);
  }

  /** All local parities in one cluster, when nothing else is left over. */
  method PlaceLocals(pl: DataPlacement, rests: seq<seq<BlockId>>, ghost n: nat)
    requires pl.Valid() && pl.par.Ok() && |pl.stripes| == pl.par.x && RestsOk(pl.par, rests, pl.par.l * pl.par.x)
    requires Left(pl.par) == 0
    requires Shared(pl.View(), n, pl.stripes) && n <= |pl.clusters|
    modifies pl`clusters, pl`numClusters, pl`stripes
    ensures pl.Valid() && SameNames(pl.stripes, old(pl.stripes)) && Shared(pl.View(), n, pl.stripes)
    ensures pl.View() == old(pl.View()) + [ClusterVal(LocalBlocks(pl.par, pl.par.l * pl.par.x, |old(pl.clusters)|), L)]
    ensures forall e :: 0 <= e < |pl.clusters| ==> pl.clusters[e] in old(pl.clusters) || fresh(pl.clusters[e])
  {
    hide Shared; hide RestsOk; hide LocalBlocks; hide Left; hide SameNames; hide LocalSoFar;
    var par, c := pl.par, |pl.clusters|;
    SharedStep(pl.View(), n, pl.stripes, ClusterVal(LocalBlocks(par, par.l * par.x, c), L));
    WithPlaceStep(pl.stripes, c, 0);
    LocalSoFarEnds(par, 0, c);
    pl.Open();
    ghost var view0 := old(pl.View());
    for i := 0 to par.l
      invariant pl.Valid() && |pl.clusters| == c + 1
      invariant pl.stripes == WithPlace(old(pl.stripes), c, if i == 0 then 0 else par.x)
      invariant pl.View() == view0 + [LocalSoFar(par, i, 0, c)]
      invariant fresh(pl.clusters[c]) && pl.clusters[..c] == old(pl.clusters)
    {
      PlaceGroupLocals(pl, rests, i, c, view0, old(pl.stripes));
    }
  }

  method PlaceGroupLocals(pl: DataPlacement, rests: seq<seq<BlockId>>, i: nat, c: nat, ghost view0: View,
          ghost stripes0: seq<Stripe>)
    requires pl.Valid() && pl.par.Ok() && RestsOk(pl.par, rests, pl.par.l * pl.par.x) && Left(pl.par) == 0
    requires i < pl.par.l && pl.par.x == |stripes0| && |pl.clusters| == c + 1 && |view0| == c
    requires pl.stripes == WithPlace(stripes0, c, if i == 0 then 0 else pl.par.x)
    requires pl.View() == view0 + [LocalSoFar(pl.par, i, 0, c)]
    modifies pl`stripes, pl.clusters[c]
    ensures pl.Valid() && pl.stripes == WithPlace(stripes0, c, pl.par.x)
    ensures pl.View() == view0 + [LocalSoFar(pl.par, i + 1, 0, c)]
  {
    hide RestsOk; hide LocalBlocks; hide Left; hide LocalSoFar;
    var par := pl.par;
    for j := 0 to par.x
      invariant pl.Valid() && pl.stripes == WithPlace(stripes0, c, if i == 0 then j else par.x)
      invariant pl.View() == view0 + [LocalSoFar(par, i, j, c)]
    {
      PlaceLocal(pl, rests, i, j, c, view0, stripes0);
    }
    LocalSoFarEnds(par, i, c);
  }

  lemma {:induction false} OnlyParityLeft(par: Params, j: nat, i: nat, c: nat)
    requires Left(par) == 0
    ensures Run(par, j, i, Full(par) * (par.g + 1), Left(par), c) + [LocalParity(par, c, j, i)] ==
      [LocalParity(par, c, j, i)]
  {}

  /** The leftover of group i of stripe j. */
  function RestOf(par: Params, rests: seq<seq<BlockId>>, i: nat, j: nat): seq<BlockId> {
    if i * par.x + j < |rests| then rests[i * par.x + j] else []
  }

  lemma {:induction false} RestOfIs(par: Params, rests: seq<seq<BlockId>>, i: nat, j: nat)
    requires RestsOk(par, rests, par.l * par.x) && i < par.l && j < par.x
    ensures RestOf(par, rests, i, j) == RestIds(par, j, i)
  {
    RestAt(par, rests, i, j);
  }

  method PlaceLocal(pl: DataPlacement, rests: seq<seq<BlockId>>, i: nat, j: nat, c: nat, ghost view0: View,
          ghost stripes0: seq<Stripe>)
    requires pl.Valid() && pl.par.Ok() && RestsOk(pl.par, rests, pl.par.l * pl.par.x) && Left(pl.par) == 0
    requires i < pl.par.l && j < pl.par.x == |stripes0| && |pl.clusters| == c + 1 && |view0| == c
    requires pl.stripes == WithPlace(stripes0, c, if i == 0 then j else pl.par.x)
    requires pl.View() == view0 + [LocalSoFar(pl.par, i, j, c)]
    modifies pl`stripes, pl.clusters[c]
    ensures pl.Valid() && pl.stripes == WithPlace(stripes0, c, if i == 0 then j + 1 else pl.par.x)
    ensures pl.View() == view0 + [LocalSoFar(pl.par, i, j + 1, c)]
  {
    hide RestsOk; hide RestIds; hide Promotes; hide LocalParity; hide LocalSoFar; hide Left; hide RestOf; hide Run;
    var par := pl.par;
    WithPlaceStep(stripes0, c, j);
    RestOfIs(par, rests, i, j);
    RestBlocks(par, j, i, c, LocalSoFar(par, i, j, c).kind);
    OnlyParityLeft(par, j, i, c);
    LocalSoFarStep(par, i, j, c);
    StoreAt(pl, RestOf(par, rests, i, j), i, j, c);
  }

  /** The global parities of every stripe, added to cluster c, the last one. */
  method PlaceGlobals(pl: DataPlacement, c: nat)
    requires pl.Valid() && |pl.clusters| == c + 1 && |pl.stripes| == pl.par.x && NamesOk(pl.par, 1, pl.stripes)
    modifies pl`stripes, pl.clusters[c]
    ensures pl.Valid() && pl.stripes == WithPlace(old(pl.stripes), c, pl.par.x)
    ensures pl.View() == old(pl.View())[c := WithGlobals(pl.par, old(pl.View())[c], c)]
  {
    hide GlobBlocks;
    ghost var view0, stripes0, v := old(pl.View()), old(pl.stripes), old(pl.View())[c];
    WithPlaceStep(stripes0, c, 0);
    GlobBlocksStep(pl.par, 0, c);
    assert v.blocks + GlobBlocks(pl.par, 0, c) == v.blocks;
    for j := 0 to pl.par.x
      invariant pl.Valid() && pl.stripes == WithPlace(stripes0, c, j)
      invariant pl.View() == view0[c := GlobSoFar(pl.par, v, j, c)]
    {
      PlaceStripeGlobals(pl, j, c, view0, stripes0);
    }
  }

  function GlobSoFar(par: Params, v: ClusterVal, j: nat, c: nat): ClusterVal {
    ClusterVal(v.blocks + GlobBlocks(par, j, c), if v.kind == D && par.g > 0 && j > 0 then G else v.kind)
  }

  lemma {:induction false} GlobBlocksStep(par: Params, j: nat, c: nat)
    ensures GlobBlocks(par, j + 1, c) == GlobBlocks(par, j, c) + GlobalParities(par, c, j)
    ensures GlobBlocks(par, 0, c) == []
  {}

  lemma {:induction false} GlobalIdBlocks(par: Params, j: nat, c: nat, kind: Kind)
    ensures BlocksOf(GlobalIds(par, j), par.l, j, c) == GlobalParities(par, c, j)
    ensures Promotes(kind, GlobalIds(par, j)) == if kind == D && par.g > 0 then G else kind
  {
    PromotesGlobal(kind, GlobalIds(par, j));
  }

  method PlaceStripeGlobals(pl: DataPlacement, j: nat, c: nat, ghost view0: View, ghost stripes0: seq<Stripe>)
    requires pl.Valid() && |pl.clusters| == c + 1 == |view0| && |stripes0| == pl.par.x && NamesOk(pl.par, 1, stripes0)
    requires j < pl.par.x
    requires pl.stripes == WithPlace(stripes0, c, j)
    requires pl.View() == view0[c := GlobSoFar(pl.par, view0[c], j, c)]
    modifies pl`stripes, pl.clusters[c]
    ensures pl.Valid() && pl.stripes == WithPlace(stripes0, c, j + 1)
    ensures pl.View() == view0[c := GlobSoFar(pl.par, view0[c], j + 1, c)]
  {
    hide GlobBlocks; hide GlobalParities; hide Promotes; hide GlobalIds;
    var par := pl.par;
    assert InfoOk(par, 1, j, stripes0[j].info);
    WithPlaceStep(stripes0, c, j);
    GlobBlocksStep(par, j, c);
    GlobalIdBlocks(par, j, c, GlobSoFar(par, view0[c], j, c).kind);
    assert view0[c].blocks + GlobBlocks(par, j, c) + GlobalParities(par, c, j) ==
      view0[c].blocks + GlobBlocks(par, j + 1, c);
    StoreAt(pl, pl.stripes[j].info[par.l], par.l, j, c);
  }

  // ------------------------------------------------------------------
  // The whole placement.

  lemma {:induction false} OwnedShared(view: View, stripes: seq<Stripe>)
    requires Owned(view, stripes)
    ensures Shared(view, |view|, stripes)
  {}

  lemma {:induction false} SharedAgain(view: View, n: nat, stripes: seq<Stripe>, c: nat, v: ClusterVal)
    requires Shared(view, n, stripes) && n <= c < |view|
    ensures Shared(view[c := v], n, WithPlace(stripes, c, |stripes|))
    ensures SameNames(WithPlace(stripes, c, |stripes|), stripes)
  {
    forall e: nat, j | e < n ensures Mine(view[c := v], e, j) <==> Mine(view, e, j) {}
  }

  lemma {:induction false} NamesKept(par: Params, p: nat, a: seq<Stripe>, b: seq<Stripe>)
    requires SameNames(a, b) && NamesOk(par, p, b)
    ensures NamesOk(par, p, a)
  {}

  lemma {:induction false} SameNamesTrans(a: seq<Stripe>, b: seq<Stripe>, c: seq<Stripe>)
    requires SameNames(a, b) && SameNames(b, c)
    ensures SameNames(a, c)
  {}

  lemma {:induction false} TailsViewStep(par: Params, view: View, i: nat)
    ensures view + TailsView(par, |view|, i) + [ClusterVal(TailBlocks(par, i, par.x, |view| + i), L)] ==
      view + TailsView(par, |view|, i + 1)
    ensures view + TailsView(par, |view|, 0) == view
  {}

  /** One cluster per group for what is left of it in every stripe. */
  method PlaceTails(pl: DataPlacement, rests: seq<seq<BlockId>>, ghost n: nat)
    requires pl.Valid() && pl.par.Ok() && |pl.stripes| == pl.par.x && RestsOk(pl.par, rests, pl.par.l * pl.par.x)
    requires Shared(pl.View(), n, pl.stripes) && n <= |pl.clusters|
    modifies pl`clusters, pl`numClusters, pl`stripes
    ensures pl.Valid() && SameNames(pl.stripes, old(pl.stripes)) && Shared(pl.View(), n, pl.stripes)
    ensures pl.View() == old(pl.View()) + TailsView(pl.par, |old(pl.clusters)|, pl.par.l)
    ensures forall e :: 0 <= e < |pl.clusters| ==> pl.clusters[e] in old(pl.clusters) || fresh(pl.clusters[e])
  {
    hide Shared; hide RestsOk; hide TailBlocks; hide SameNames; hide TailsView;
    ghost var par, view0 := pl.par, pl.View();
    TailsViewStep(par, view0, 0);
    SameNamesRefl(pl.stripes);
    for i := 0 to pl.par.l
      invariant pl.Valid() && SameNames(pl.stripes, old(pl.stripes)) && |pl.stripes| == par.x
      invariant Shared(pl.View(), n, pl.stripes)
      invariant pl.View() == view0 + TailsView(par, |view0|, i)
      invariant forall e :: 0 <= e < |pl.clusters| ==> pl.clusters[e] in old(pl.clusters) || fresh(pl.clusters[e])
    {
      ghost var before := pl.stripes;
      TailsViewStep(par, view0, i);
      PlaceTail(pl, rests, i, n);
      SameNamesTrans(pl.stripes, before, old(pl.stripes));
      SameLength(pl.stripes, before);
    }
  }

  lemma {:induction false} SameNamesRefl(a: seq<Stripe>)
    ensures SameNames(a, a)
  {}

  lemma {:induction false} SameLength(a: seq<Stripe>, b: seq<Stripe>)
    requires SameNames(a, b)
    ensures |a| == |b|
  {}

  lemma {:induction false} FirstRest(par: Params, rests: seq<seq<BlockId>>)
    requires par.Ok() && RestsOk(par, rests, par.l * par.x)
    ensures |rests| > 0 && |rests[0]| == Left(par) + 1
  {
    MulGe(par.l, par.x);
  }

  /** What the data clusters leave over: tails, or all local parities in one cluster. */
  method PlaceRests(pl: DataPlacement, rests: seq<seq<BlockId>>, ghost n: nat)
    requires pl.Valid() && pl.par.Ok() && |pl.stripes| == pl.par.x && RestsOk(pl.par, rests, pl.par.l * pl.par.x)
    requires Shared(pl.View(), n, pl.stripes) && n <= |pl.clusters|
    modifies pl`clusters, pl`numClusters, pl`stripes
    ensures pl.Valid() && SameNames(pl.stripes, old(pl.stripes)) && Shared(pl.View(), n, pl.stripes)
    ensures pl.View() == old(pl.View()) + if HasTails(pl.par) then TailsView(pl.par, |old(pl.clusters)|, pl.par.l)
        else [ClusterVal(LocalBlocks(pl.par, pl.par.l * pl.par.x, |old(pl.clusters)|), L)]
    ensures forall e :: 0 <= e < |pl.clusters| ==> pl.clusters[e] in old(pl.clusters) || fresh(pl.clusters[e])
  {
    hide Shared; hide RestsOk; hide LocalBlocks; hide SameNames; hide Base; hide TailsView; hide Left;
    FirstRest(pl.par, rests);
    if |rests[0]| == 1 {
      PlaceLocals(pl, rests, n);
    } else {
      PlaceTails(pl, rests, n);
    }
  }

  /** Cluster c with the global parities of every stripe added. */
  function WithGlobals(par: Params, v: ClusterVal, c: nat): ClusterVal { GlobSoFar(par, v, par.x, c) }

  function WithParities(par: Params, view: View, tails: bool): View
    requires tails || view != []
  {
    if tails then view + [WithGlobals(par, ClusterVal([], D), |view|)]
    else view[..|view| - 1] + [WithGlobals(par, view[|view| - 1], |view| - 1)]
  }

  lemma {:induction false} ParitiesShared(par: Params, view: View, n: nat, stripes: seq<Stripe>, tails: bool)
    requires Shared(view, n, stripes) && n <= |view| && (tails || n < |view|)
    ensures var c := if tails then |view| else |view| - 1;
      && Shared(WithParities(par, view, tails), n, WithPlace(stripes, c, |stripes|))
      && SameNames(WithPlace(stripes, c, |stripes|), stripes)
      && WithParities(par, view, tails) == (if tails then view + [ClusterVal([], D)] else view)
          [c := WithGlobals(par, if tails then ClusterVal([], D) else view[c], c)]
  {
    if tails {
      SharedStep(view, n, stripes, WithGlobals(par, ClusterVal([], D), |view|));
    } else {
      SharedAgain(view, n, stripes, |view| - 1, WithGlobals(par, view[|view| - 1], |view| - 1));
    }
  }

  /** The global parities join the local ones, or get a cluster of their own. */
  method PlaceParities(pl: DataPlacement, tails: bool, ghost n: nat)
    requires pl.Valid() && |pl.stripes| == pl.par.x && NamesOk(pl.par, 1, pl.stripes) && n <= |pl.clusters|
    requires Shared(pl.View(), n, pl.stripes) && (tails || n < |pl.clusters|)
    modifies pl
    modifies if tails then {} else {pl.clusters[|pl.clusters| - 1]}
    ensures pl.Valid() && SameNames(pl.stripes, old(pl.stripes)) && Shared(pl.View(), n, pl.stripes)
    ensures pl.gid == |pl.clusters| - 1 && pl.View() == WithParities(pl.par, old(pl.View()), tails)
    ensures forall e :: 0 <= e < |pl.clusters| ==> pl.clusters[e] in old(pl.clusters) || fresh(pl.clusters[e])
  {
    hide Shared; hide NamesOk; hide SameNames; hide GlobBlocks; hide WithParities; hide WithPlace; hide WithGlobals;
    ParitiesShared(pl.par, pl.View(), n, pl.stripes, tails);
    var c := |pl.clusters| - 1;
    if tails {
      c := |pl.clusters|;
      pl.Open();
    }
    PlaceGlobals(pl, c);
    ghost var now := pl.View();
    pl.gid := c;
    assert pl.View() == now;
  }

  /** The data clusters and what they leave over, before the global parities. */
  function BeforeParities(par: Params, data: View): View
    requires par.Ok()
  {
    data + if HasTails(par) then TailsView(par, |data|, par.l)
      else [ClusterVal(LocalBlocks(par, par.l * par.x, |data|), L)]
  }

  lemma {:induction false} OptViewIs(par: Params, data: View)
    requires par.Ok() && data == DataView(par, par.l * par.x)
    ensures |data| == Base(par) && |BeforeParities(par, data)| >= Base(par) + (if HasTails(par) then 0 else 1)
    ensures WithParities(par, BeforeParities(par, data), HasTails(par)) == OptView(par)
    ensures |OptView(par)| == Gid(par) + 1
  {
    hide DataView; hide LocalBlocks; hide GlobBlocks; hide TailBlocks;
    var view := BeforeParities(par, data);
    if HasTails(par) {
      assert WithGlobals(par, ClusterVal([], D), Gid(par)) == ParityVal(par);
    } else {
      assert view[..|view| - 1] == data;
      assert data + TailsView(par, Base(par), 0) == data;
    }
  }

  /** placement: stores the blocks of every stripe, clusters from scratch. */
  method PlaceOptimal(pl: DataPlacement)
    requires pl.Valid() && pl.par.Ok() && pl.clusters == [] && |pl.stripes| == pl.par.x
    requires NamesOk(pl.par, 1, pl.stripes)
    requires forall j :: 0 <= j < |pl.stripes| ==> pl.stripes[j].place == {}
    modifies pl
    ensures pl.View() == OptView(pl.par) && Placed(pl, false, OptLayout(pl.par))
    ensures forall e :: 0 <= e < |pl.clusters| ==> fresh(pl.clusters[e])
  {
    hide Shared; hide NamesOk; hide SameNames; hide RestsOk; hide DataView; hide OptView; hide Gid; hide Left;
    hide Owned; hide TailsView; hide LocalBlocks; hide Base; hide Placed; hide WithParities; hide OptLayout;
    hide HasTails;
    ghost var par, stripes0 := pl.par, pl.stripes;
    NothingOwned(pl.stripes);
    var rests := PlaceData(pl);
    ghost var data := pl.View();
    SameLength(pl.stripes, stripes0);
    OwnedShared(pl.View(), pl.stripes);
    OptViewIs(par, data);
    FirstRest(par, rests);
    TailsIff(par);
    ghost var stripes1 := pl.stripes;
    PlaceRests(pl, rests, Base(par));
    assert pl.View() == BeforeParities(par, data);
    SameLength(pl.stripes, stripes1);
    SameNamesTrans(pl.stripes, stripes1, stripes0);
    NamesKept(par, 1, pl.stripes, stripes0);
    ghost var stripes2 := pl.stripes;
    PlaceParities(pl, |rests[0]| != 1, Base(par));
    SameLength(pl.stripes, stripes2);
    NamesKept(par, 1, pl.stripes, stripes2);
    OptPlaced(pl);
  }

  lemma {:induction false} TailsIff(par: Params)
    ensures HasTails(par) <==> Left(par) + 1 != 1
  {}

  lemma {:induction false} NothingOwned(stripes: seq<Stripe>)
    requires forall j :: 0 <= j < |stripes| ==> stripes[j].place == {}
    ensures Owned([], stripes)
  {}

  lemma {:induction false} SharedRested(par: Params, stripes: seq<Stripe>)
    requires par.Ok() && |stripes| == par.x && Shared(OptView(par), Base(par), stripes)
    ensures Rested(par, 1, par.x, Left(par), OptLayout(par), OptView(par), Places(stripes))
  {
    hide Base; hide TailCount; hide OptView;
    forall s | 0 <= s < par.x ensures PlaceOk(OptLayout(par).roles, OptView(par), s, Places(stripes)[s]) {
      forall c: nat | c < |OptView(par)| ensures OptLayout(par).roles[c] == Free <==> c < Base(par) {
        if Base(par) <= c < Gid(par) { assert OptLayout(par).roles[Base(par) + (c - Base(par))] != Free; }
      }
      forall c: nat
        ensures c in stripes[s].place <==> c < |OptView(par)| && (c < Base(par) ==> Mine(OptView(par), c, s)) {}
    }
    hide Shared;
    OptRested(par, Places(stripes));
  }

  lemma {:induction false} NoPinCount(roles: seq<Role>, i: int)
    requires forall c :: 0 <= c < |roles| ==> roles[c].Src? ==> roles[c].parity
    ensures PinCount(roles, i) == 0
  {
    if roles != [] { NoPinCount(roles[..|roles| - 1], i); }
  }

  lemma {:induction false} OptPlaced(pl: DataPlacement)
    requires pl.Valid() && pl.par.Ok() && pl.View() == OptView(pl.par) && pl.gid == Gid(pl.par)
    requires |pl.stripes| == pl.par.x && NamesOk(pl.par, 1, pl.stripes) && Shared(pl.View(), Base(pl.par), pl.stripes)
    ensures Placed(pl, false, OptLayout(pl.par))
  {
    hide Rested; hide OptView; hide NamesOk; hide Base; hide TailCount; hide Shared;
    var par := pl.par;
    var lay := OptLayout(par);
    OptLayoutOk(par);
    forall c | 0 <= c < |lay.roles| && lay.roles[c].Src? ensures lay.roles[c].parity {
      if c >= Base(par) && c < Gid(par) { assert lay.roles[Base(par) + (c - Base(par))].parity; }
    }
    forall i ensures PinCount(lay.roles, i) == 0 { NoPinCount(lay.roles, i); }
    SharedRested(par, pl.stripes);
  }

  /** generate_stripes. */
  method Generated(par: Params) returns (pl: DataPlacement)
    requires par.Ok()
    ensures fresh(pl) && pl.par == par && pl.Valid() && pl.clusters == [] && |pl.stripes| == par.x
    ensures NamesOk(par, 1, pl.stripes)
    ensures forall j :: 0 <= j < |pl.stripes| ==> pl.stripes[j].place == {}
  {
    pl := new DataPlacement(par);
    for s := 0 to par.x
      invariant fresh(pl) && pl.par == par && pl.Valid() && pl.clusters == [] && |pl.stripes| == s
      invariant NamesOk(par, 1, pl.stripes)
      invariant forall j :: 0 <= j < s ==> pl.stripes[j].place == {}
    {
      var info := Generate(par, s);
      pl.stripes := pl.stripes + [Stripe(s, info, {})];
    }
  }
}
