/** The mutable placement: a growing list of cluster objects. Every method is
specified by what it does to `View()`, the list of cluster contents. */
module Placement {
  import opened Blocks
  import opened Clusters
  import opened MergeState
  import opened MergeSteps
  import opened MergeView
  import opened MergeFit
  import opened FirstFit
  import opened MergeMid
  import opened MergeMove
  import opened MergeCost
  import opened Stripes
  import opened MergeBatch
  import opened Sums

  /** The recorded block ids per group, and the clusters the stripe spans. */
  datatype Stripe = Stripe(id: int, info: seq<seq<BlockId>>, place: set<nat>)

  class DataPlacement {
    const par: Params
    var clusters: seq<Cluster>
    var stripes: seq<Stripe>
    var numClusters: int
    var gid: nat

    constructor (par: Params)
      ensures this.par == par && Valid() && clusters == [] && stripes == []
    {
      this.par := par;
      clusters, stripes, numClusters, gid := [], [], 0, 0;
    }

    ghost predicate Valid()
      reads this, clusters
    {
      && numClusters == |clusters|
      && (forall c, d :: 0 <= c < d < |clusters| ==> clusters[c] != clusters[d])
      && (forall c :: 0 <= c < |clusters| ==> clusters[c].Valid() && clusters[c].id == c)
    }

    ghost function View(): (r: View)
      reads this, clusters
      ensures |r| == |clusters| && forall c :: 0 <= c < |r| ==> r[c] == clusters[c].Val()
    {
      seq(|clusters|, c requires 0 <= c < |clusters| reads this, clusters => clusters[c].Val())
    }

    method Open()
      requires Valid()
      modifies this`clusters, this`numClusters
      ensures Valid() && View() == old(View()) + [ClusterVal([], D)]
      ensures |clusters| == |old(clusters)| + 1 && clusters[..|old(clusters)|] == old(clusters)
      ensures fresh(clusters[|old(clusters)|])
    {
      var cluster := new Cluster(numClusters);
      clusters := clusters + [cluster];
      numClusters := numClusters + 1;
    }

    /** Retags the stripes lo..hi-1 as `to` in every listed cluster. */
    method Rename(order: seq<nat>, lo: nat, hi: nat, to: nat)
      requires Valid() && Within(order, |clusters|) && Distinct(order) && to <= lo <= hi
      modifies clusters
      ensures Valid()
      ensures forall c :: 0 <= c < |clusters| ==>
        View()[c] == if c in order then RetagVal(old(View())[c], lo, hi, to) else old(View())[c]
    {
      for p := 0 to |order|
        invariant Valid()
        invariant forall c :: 0 <= c < |clusters| ==>
          View()[c] == if c in order[..p] then RetagVal(old(View())[c], lo, hi, to) else old(View())[c]
      {
        assert order[p] !in order[..p];
        assert order[..p + 1] == order[..p] + [order[p]];
        RenameOne(order[p], lo, hi, to);
      }
      assert order[..|order|] == order;
    }

    method RenameOne(c: nat, lo: nat, hi: nat, to: nat)
      requires Valid() && c < |clusters| && to <= lo <= hi
      modifies clusters[c]
      ensures Valid() && View() == old(View())[c := RetagVal(old(View())[c], lo, hi, to)]
    {
      hide RetagVal;
      ghost var view := View();
      RetagNothing(view[c], lo, to);
      for j := lo to hi
        invariant Valid() && View() == view[c := RetagVal(view[c], lo, j, to)]
      {
        RetagStep(view[c], lo, j, to);
        clusters[c].MergeStripe(j, to);
      }
    }

    /** Drops stripe s's global parities and stores the recomputed ones. */
    method RecalculateGlobals(s: nat)
      requires Valid() && gid < |clusters|
      requires View()[gid].kind != D
      modifies clusters[gid]
      ensures Valid()
      ensures View() == old(View())[gid := Extend(DropVal(old(View())[gid], s, G), GlobalParities(par, gid, s))]
    {
      StoreGlobals(clusters[gid], par, gid, s);
    }

    /** Drops stripe s's local parities in cluster c and stores recomputed ones. */
    method RecalculateLocals(c: nat, s: nat) returns (ghost groups: set<int>, ghost more: seq<Block>)
      requires Valid() && c < |clusters| && View()[c].kind == L
      modifies clusters[c]
      ensures Valid() && groups == DoomedGroups(old(View())[c].blocks, s, L)
      ensures FreshLocals(par, c, s, groups, more)
      ensures View() == old(View())[c := Extend(DropVal(old(View())[c], s, L), more)]
    {
      groups, more := StoreLocals(clusters[c], par, c, s);
    }

    /** Blocks fetched over the listed clusters to recompute global parities. */
    method FetchCost(agg: bool, order: seq<nat>, live: nat) returns (gc: int)
      requires Valid() && Within(order, |clusters|) && live >= 1
      ensures gc == SumAt(order, GcWeights(par, agg, View(), live))
    {
      gc := 0;
      for p := 0 to |order|
        invariant gc == SumAt(order[..p], GcWeights(par, agg, View(), live))
      {
        assert order[..p + 1][..p] == order[..p];
        var cluster := clusters[order[p]];
        var shared := if agg then cluster.numData > par.g + 1 else cluster.kind == L;
        if shared {
          gc := gc + if cluster.numData <= par.g * live then cluster.numData / live else par.g;
        } else {
          gc := gc + if cluster.numData <= par.g then cluster.numData else par.g;
        }
      }
      assert order[..|order|] == order;
    }

    /** Does cluster c hold a local parity of group i of one of the stripes lo..hi-1? */
    method HoldsLocal(c: nat, lo: nat, hi: nat, i: nat) returns (found: bool)
      requires Valid() && c < |clusters| && lo <= hi
      ensures found <==> HasLocal(View()[c].blocks, lo, hi, i)
    {
      for s := lo to hi
        invariant !HasLocal(View()[c].blocks, lo, s, i)
      {
        found := clusters[c].FindLocalParityBlock(s, i);
        if found { return; }
      }
      return false;
    }

    method LocalHomes(order: seq<nat>, lo: nat, hi: nat, i: nat) returns (span: set<nat>)
      requires Valid() && Within(order, |clusters|) && lo <= hi
      ensures span == LocalSpan(View(), order, lo, hi, i)
    {
      hide HasLocal;
      span := {};
      for p := 0 to |order|
        invariant span == LocalSpan(View(), order[..p], lo, hi, i)
      {
        var holds := HoldsLocal(order[p], lo, hi, i);
        LocalSpanSnoc(View(), order, lo, hi, i, p);
        if holds { span := span + {order[p]}; }
      }
      assert order[..|order|] == order;
    }

    /** Hops needed to recompute the local parities of the stripes lo..hi-1. */
    method LocalCost(order: seq<nat>, lo: nat, hi: nat) returns (lc: int)
      requires Valid() && Within(order, |clusters|) && lo <= hi
      ensures lc == LcSum(View(), order, gid, lo, hi, par.l)
    {
      hide LocalSpan;
      lc := 0;
      for i := 0 to par.l
        invariant lc == LcSum(View(), order, gid, lo, hi, i)
      {
        var span := LocalHomes(order, lo, hi, i);
        span := span + {gid};
        lc := lc + |span| - 1;
      }
    }

    /** The first listed cluster, other than c, that takes a block of group i. */
    method FirstTaking(cids: seq<nat>, c: nat, i: int) returns (k: nat)
      requires Valid() && Within(cids, |clusters|)
      requires forall p :: 0 <= p < |cids| ==> Testable(par, View()[cids[p]])
      ensures k <= |cids| && forall p :: 0 <= p < k ==> cids[p] == c || !Takes(par, View()[cids[p]], i)
      ensures k < |cids| ==> cids[k] != c && Takes(par, View()[cids[k]], i)
    {
      for p := 0 to |cids|
        invariant forall p' :: 0 <= p' < p ==> cids[p'] == c || !Takes(par, View()[cids[p']], i)
      {
        var cid := cids[p];
        assert Testable(par, View()[cid]);
        if cid != c && clusters[cid].kind == D && clusters[cid].numBlocks < par.g + 1 &&
          clusters[cid].blocks[0].group == i {
          return p;
        }
      }
      return |cids|;
    }

    /** First fit: a listed cluster with room, else an added one, else a new one. */
    method FindSlot(order: seq<nat>, added: seq<nat>, c: nat, i: int,
                    ghost fr: Frame, ghost lay: Layout, ghost todos: seq<Todo>, ghost caps: seq<nat>) returns (d: nat)
      requires Valid() && fr.par == par && fr.order == order && Mid(fr, lay, View(), todos, added, caps)
      requires c < |clusters| && lay.roles[c].Src?
      ensures d <= |clusters| && d != c && (d < |clusters| ==> Roomy(par, lay.roles, View(), d, fr.S(), i))
      ensures Chosen(par, lay.roles, View(), order, added, fr.S(), i, d)
    {
      hide Mid; hide Chosen; hide Roomy;
      MidTestable(fr, lay, View(), todos, added, caps);
      var k := FirstTaking(order, c, i);
      var k' := FirstTaking(added, c, i);
      MidChosen(fr, lay, View(), todos, added, caps, c, i, k, k');
      d := if k < |order| then order[k] else if k' < |added| then added[k'] else numClusters;
    }

    method RefreshLocals(c: nat, s: nat, added: seq<nat>, ghost fr: Frame, ghost aux0: Aux) returns (ghost aux: Aux)
      requires Valid() && fr.par == par && fr.S() == s && MidA(fr, aux0, View(), added)
      requires c < |clusters| && |aux0.todos| == |clusters| && aux0.todos[c].locals && View()[c].kind == L
      modifies clusters[c]
      ensures Valid() && MidA(fr, aux, View(), added)
      ensures aux == aux0.(todos := aux0.todos[c := aux0.todos[c].(locals := false)])
      ensures View()[c].kind == L
    {
      hide Mid; hide FreshLocals;
      ghost var groups, more := RecalculateLocals(c, s);
      MidLocals(fr, aux0.lay, old(View()), aux0.todos, added, aux0.caps, c, more);
      aux := aux0.(todos := aux0.todos[c := aux0.todos[c].(locals := false)]);
    }

    method MoveWithin(c: nat, j: nat, d: nat)
      requires Valid() && c < |clusters| && j < |clusters[c].blocks| && d < |clusters| && d != c
      modifies clusters[c], clusters[d]
      ensures Valid() && View() == MoveView(old(View()), c, j, d)
    {
      var b := clusters[c].blocks[j];
      clusters[d].AddNewBlock(b.(cluster := d));
      clusters[c].Pop(j);
    }

    /** Moves the block at position j of cluster c into cluster d, which is new if
        d is the number of clusters. */
    method Move(c: nat, j: nat, d: nat)
      requires Valid() && c < |clusters| && j < |clusters[c].blocks| && d <= |clusters| && d != c
      modifies this`clusters, this`numClusters, clusters
      ensures Valid() && View() == MoveView(old(View()), c, j, d)
      ensures forall e :: 0 <= e < |clusters| ==> clusters[e] in old(clusters) || fresh(clusters[e])
    {
      if d == |clusters| {
        MoveNewView(View(), c, j);
        Open();
      }
      MoveWithin(c, j, d);
    }

    /** Places the block at `index` of source cluster c by first fit. */
    method RelocateOne(order: seq<nat>, added0: seq<nat>, c: nat, index: nat,
                       ghost moved: nat, ghost total: nat, ghost fr: Frame, ghost aux0: Aux, ghost aux1: Aux)
      returns (added: seq<nat>, ghost aux: Aux)
      requires Valid() && fr.par == par && fr.order == order && moved < total
      requires Reloc(fr, aux0, aux1, View(), added0, c, index, moved, total)
      requires c < |clusters| && index < |View()[c].blocks| && Movable(View()[c].blocks[index], fr.S())
      modifies this`clusters, this`numClusters, clusters
      ensures Valid() && Reloc(fr, aux0, aux, View(), added, c, index, moved + 1, total)
      ensures c < |clusters| && |View()[c].blocks| == |old(View())[c].blocks| - 1
      ensures forall e :: 0 <= e < |clusters| ==> clusters[e] in old(clusters) || fresh(clusters[e])
    {
      hide Reloc; hide Mid; hide Chosen; hide Listed;
      RelocFacts(fr, aux0, aux1, View(), added0, c, index, moved, total);
      var i := clusters[c].blocks[index].group;
      var d := FindSlot(order, added0, c, i, fr, aux1.lay, aux1.todos, aux1.caps);
      RelocMove(fr, aux0, aux1, View(), added0, c, index, moved, total, d);
      aux := AuxAfter(aux1, View(), c, index, d);
      added := if d < numClusters then added0 else added0 + [d];
      Move(c, index, d);
    }

    /** Takes data blocks of the merged stripe out of source cluster c, front to
        back, and places each one by first fit, until `total` have been moved. */
    method Relocate(order: seq<nat>, added0: seq<nat>, c: nat, s: int, total: nat, ghost fr: Frame, ghost aux0: Aux)
      returns (added: seq<nat>, moved: nat, ghost aux: Aux)
      requires Valid() && fr.par == par && fr.order == order && fr.S() == s
      requires Reloc(fr, aux0, aux0, View(), added0, c, 0, 0, total)
      modifies this`clusters, this`numClusters, clusters
      ensures Valid() && MidA(fr, aux, View(), added) && Since(aux0, aux, c)
      ensures c < |clusters| == |aux.lay.roles| == |aux.todos|
      ensures moved == total && aux.todos[c] == aux0.todos[c].(extra := 0)
      ensures aux.lay.roles[c].Src? && CapsSince(aux0.caps, aux.caps, aux.lay.roles[c].group, total)
      ensures forall e :: 0 <= e < |clusters| ==> clusters[e] in old(clusters) || fresh(clusters[e])
    {
      hide Mid; hide Since; hide CapsSince;
      added, moved, aux := added0, 0, aux0;
      var index := 0;
      while index < clusters[c].numBlocks
        invariant Valid() && Reloc(fr, aux0, aux, View(), added, c, index, moved, total)
        invariant forall e :: 0 <= e < |clusters| ==> clusters[e] in old(clusters) || fresh(clusters[e])
        decreases |View()[c].blocks| - index
      {
        if moved == total { break; }
        var b := clusters[c].blocks[index];
        if b.kind == D && b.stripe == s {
          added, aux := RelocateOne(order, added, c, index, moved, total, fr, aux0, aux);
          moved := moved + 1;
        } else {
          RelocSkip(fr, aux0, aux, View(), added, c, index, moved, total);
          index := index + 1;
        }
      }
      RelocAll(fr, aux0, aux, View(), added, c, index, moved, total);
    }
  }

  lemma {:induction false} LocalSpanSnoc(view: View, order: seq<nat>, lo: int, hi: int, i: int, p: nat)
    requires Within(order, |view|) && p < |order|
    ensures Within(order[..p], |view|) && Within(order[..p + 1], |view|)
    ensures LocalSpan(view, order[..p + 1], lo, hi, i)
      == LocalSpan(view, order[..p], lo, hi, i) +
        (if HasLocal(view[order[p]].blocks, lo, hi, i) then {order[p]} else {})
  {}

  lemma {:induction false} MoveNewView(view: View, c: nat, j: nat)
    requires c < |view| && j < |view[c].blocks|
    ensures MoveView(view, c, j, |view|) == MoveView(view + [ClusterVal([], D)], c, j, |view|)
  {}

  lemma {:induction false} ExtendMore(v: ClusterVal, more: seq<Block>, b: Block)
    requires v.kind == L || (v.kind == G && b.kind != L) || b.kind == D
    ensures AddVal(Extend(v, more), b) == Extend(v, more + [b])
  {
    assert v.blocks + more + [b] == v.blocks + (more + [b]);
  }

  lemma {:induction false} DropKind(v: ClusterVal, s: int, t: Kind)
    ensures DropVal(v, s, t).kind == v.kind
  {}

  method StoreGlobals(cluster: Cluster, par: Params, c: nat, s: nat)
    requires cluster.Valid() && cluster.kind != D
    modifies cluster
    ensures cluster.Valid()
    ensures cluster.Val() == Extend(DropVal(old(cluster.Val()), s, G), GlobalParities(par, c, s))
  {
    hide DropVal; hide Extend; hide Sel; hide Drop; hide DoomedGroups;
    DropKind(cluster.Val(), s, G);
    var _ := cluster.RemoveBlock(s, G);
    ghost var start := cluster.Val();
    ghost var more: seq<Block> := [];
    ExtendNone(start);
    for e := 0 to par.g
      invariant cluster.Valid() && cluster.Val() == Extend(start, more)
      invariant |more| == e && forall x :: 0 <= x < e ==> more[x] == Block(G, x + s * par.g, par.l, s, c)
    {
      var b := Block(G, e + s * par.g, par.l, s, c);
      ExtendMore(start, more, b);
      cluster.AddNewBlock(b);
      more := more + [b];
    }
    assert more == GlobalParities(par, c, s);
  }

  /** Some element; sets are visited in no particular order. */
  method Pick<T>(xs: set<T>) returns (x: T)
    requires xs != {}
    ensures x in xs
  {
    x :| x in xs;
  }

  /** Lists a set in some order. */
  method Visit(cs: set<nat>) returns (order: seq<nat>)
    ensures Enumerates(order, cs)
  {
    order := [];
    var left := cs;
    while left != {}
      invariant Distinct(order) && left <= cs
      invariant forall c :: c in order <==> c in cs && c !in left
      decreases |left|
    {
      var c := Pick(left);
      order, left := order + [c], left - {c};
    }
  }

  lemma {:induction false} ExtendNone(v: ClusterVal)
    ensures Extend(v, []) == v
  {}

  lemma {:induction false} NothingFresh(par: Params, c: nat, s: nat)
    ensures FreshLocals(par, c, s, {}, [])
  {}

  /** One recomputed parity per group that had one, in whatever order the set of
      groups is visited. */
  method StoreLocals(cluster: Cluster, par: Params, c: nat, s: nat)
    returns (ghost groups: set<int>, ghost more: seq<Block>)
    requires cluster.Valid() && cluster.kind == L
    modifies cluster
    ensures cluster.Valid() && groups == DoomedGroups(old(cluster.blocks), s, L)
    ensures FreshLocals(par, c, s, groups, more)
    ensures cluster.Val() == Extend(DropVal(old(cluster.Val()), s, L), more)
  {
    hide DoomedGroups; hide FreshLocals; hide Extend; hide Sel; hide Drop;
    var left := cluster.RemoveBlock(s, L);
    ghost var start := cluster.Val();
    ghost var done: set<int> := {};
    groups, more := left, [];
    ExtendNone(start);
    NothingFresh(par, c, s);
    while left != {}
      invariant cluster.Valid() && cluster.Val() == Extend(start, more)
      invariant done + left == groups && done !! left && FreshLocals(par, c, s, done, more)
      decreases |left|
    {
      var i := Pick(left);
      var b := Block(L, i + s * par.l, i, s, c);
      FreshLocalsAppend(par, c, s, done, more, i);
      ExtendMore(start, more, b);
      cluster.AddNewBlock(b);
      more, done, left := more + [b], done + {i}, left - {i};
    }
  }
}
