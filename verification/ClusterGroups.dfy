/** Placing stripe after stripe in merge groups (project/src/coordinator.cpp): which
clusters the stripes of one group share, over every sequence of placements. */
module ClusterGroups {
  import opened ClusterAlloc
  import opened Arith

  // ------------------------------------------------------------------
  // The blocks of one stripe.

  /** Chunk t of the q-th local group, c chunks to a group. */
  function ChunkNo(q: nat, t: nat, c: nat): nat {
    MulMono(0, q, c);
    q * c + t
  }

  /** Chunk of data block o. */
  function ChunkOf(p: Setup, o: nat): nat
    requires p.Ok()
  {
    ChunkNo(o / p.b, o % p.b / (p.g + 1), Chunks(p))
  }

  /** Cluster of block o: data by chunk, then globals, then locals. */
  function ClusterFor(p: Setup, ch: Choice, o: nat): int
    requires p.Ok() && |ch.chunks| == p.l * Chunks(p)
  {
    if o < p.K() then (if ChunkOf(p, o) < |ch.chunks| then ch.chunks[ChunkOf(p, o)] else -1)
    else if o < p.K() + p.g || Rem(p) == 0 then ch.globals
    else
      var at := TailPos(p, o - p.K() - p.g);
      if 0 <= at < |ch.chunks| then ch.chunks[at] else -1
  }

  lemma {:induction false} ChunkInRange(p: Setup, i: nat, t: nat, e: nat)
    requires p.Ok() && i < p.l && t < Chunks(p) && e < p.g + 1 && t * (p.g + 1) + e < p.b
    ensures var o := i * p.b + t * (p.g + 1) + e; o < p.K() && ChunkOf(p, o) == i * Chunks(p) + t < p.l * Chunks(p)
  {
    var o, y := i * p.b + t * (p.g + 1) + e, t * (p.g + 1) + e;
    DivIs(o, i, p.b);
    DivIs(y, t, p.g + 1);
    MulMono(i + 1, p.l, p.b);
    assert (i + 1) * p.b == i * p.b + p.b;
    MulMono(i + 1, p.l, Chunks(p));
    assert (i + 1) * Chunks(p) == i * Chunks(p) + Chunks(p);
  }

  lemma {:induction false} BlockParts(p: Setup, o: nat) returns (i: nat, t: nat, e: nat)
    requires p.Ok() && o < p.K()
    ensures i < p.l && t < Chunks(p) && e < p.g + 1 && t * (p.g + 1) + e < p.b && o == i * p.b + t * (p.g + 1) + e
    ensures ChunkOf(p, o) == i * Chunks(p) + t
  {
    i := o / p.b;
    DivLess(o, p.l, p.b);
    var y := o % p.b;
    t, e := y / (p.g + 1), y % (p.g + 1);
    assert y == t * (p.g + 1) + e;
    ChunkBound(p, y);
  }

  lemma {:induction false} ChunkBound(p: Setup, y: nat)
    requires y < p.b
    ensures y / (p.g + 1) < Chunks(p)
  {
    var w, q := p.g + 1, p.b / (p.g + 1);
    assert p.b == q * w + Rem(p);
    if Rem(p) == 0 {
      DivLess(y, q, w);
    } else {
      assert (q + 1) * w == q * w + w;
      DivLess(y, q + 1, w);
    }
  }

  lemma {:induction false} DataCluster(p: Setup, ch: Choice, o: nat)
    requires p.Ok() && |ch.chunks| == p.l * Chunks(p) && o < p.K()
    ensures ChunkOf(p, o) < |ch.chunks| && ClusterFor(p, ch, o) == ch.chunks[ChunkOf(p, o)]
  {
    hide Chunks; hide ChunkOf;
    var i, t, e := BlockParts(p, o);
    ChunkInRange(p, i, t, e);
  }

  /** Blocks of one chunk belong to one group and lie within g of each other. */
  lemma {:induction false} SameChunk(p: Setup, o: nat, o': nat)
    requires p.Ok() && o < p.K() && o' < p.K() && ChunkOf(p, o) == ChunkOf(p, o')
    ensures o / p.b == o' / p.b && o' - o <= p.g
  {
    hide Chunks; hide ChunkOf;
    var i, t, e := BlockParts(p, o);
    var i', t', e' := BlockParts(p, o');
    DivIs(i * Chunks(p) + t, i, Chunks(p));
    DivIs(i' * Chunks(p) + t', i', Chunks(p));
    assert i == i' && t == t';
    DivIs(o, i, p.b);
    DivIs(o', i, p.b);
  }

  /** And such blocks are of one chunk: chunks are cut from the front of each group. */
  lemma {:induction false} SameChunkIff(p: Setup, o: nat, o': nat)
    requires p.Ok() && o < p.K() && o' < p.K()
    ensures ChunkOf(p, o) == ChunkOf(p, o') <==>
      o / p.b == o' / p.b && o % p.b / (p.g + 1) == o' % p.b / (p.g + 1)
  {
    hide Chunks; hide ChunkOf;
    var i, t, e := BlockParts(p, o);
    var i', t', e' := BlockParts(p, o');
    PartsAre(p, o, i, t, e);
    PartsAre(p, o', i', t', e');
    DivIs(i * Chunks(p) + t, i, Chunks(p));
    DivIs(i' * Chunks(p) + t', i', Chunks(p));
  }

  lemma {:induction false} PartsAre(p: Setup, o: nat, i: nat, t: nat, e: nat)
    requires p.b >= 1 && e < p.g + 1 && t * (p.g + 1) + e < p.b && o == i * p.b + t * (p.g + 1) + e
    ensures o / p.b == i && o % p.b / (p.g + 1) == t
  {
    MulMono(0, t, p.g + 1);
    DivIs(o, i, p.b);
    DivIs(t * (p.g + 1) + e, t, p.g + 1);
  }

  /** The global parities lie in their cluster. The local parity of a group lies with the
      group's last data block if chunks leave a rest, else with the global parities. */
  lemma {:induction false} ParitiesAt(p: Setup, ch: Choice, i: nat)
    requires p.Ok() && |ch.chunks| == p.l * Chunks(p) && i < p.l
    ensures forall o :: p.K() <= o < p.K() + p.g ==> ClusterFor(p, ch, o) == ch.globals
    ensures 0 <= (i + 1) * p.b - 1 < p.K()
    ensures ClusterFor(p, ch, p.K() + p.g + i) ==
      if p.b % (p.g + 1) != 0 then ClusterFor(p, ch, (i + 1) * p.b - 1) else ch.globals
  {
    hide Chunks; hide ChunkOf; hide TailPos;
    GroupEnd(p, i);
    assert (i + 1) * p.b == i * p.b + p.b;
    MulMono(0, i, p.b);
    if Rem(p) != 0 { LastBlock(p, ch, i); }
  }

  lemma {:induction false} LastBlock(p: Setup, ch: Choice, i: nat)
    requires p.Ok() && |ch.chunks| == p.l * Chunks(p) && i < p.l && Rem(p) != 0
    ensures 0 <= TailPos(p, i) < |ch.chunks| && 0 <= (i + 1) * p.b - 1 < p.K()
    ensures ClusterFor(p, ch, (i + 1) * p.b - 1) == ch.chunks[TailPos(p, i)]
  {
    hide Chunks; hide ChunkOf; hide ClusterFor; hide Rem;
    GroupEnd(p, i);
    assert (i + 1) * p.b == i * p.b + p.b;
    MulMono(0, i, p.b);
    LastChunk(p);
    TailInRange(p, i);
    ChunkTo(p, ch, i, Chunks(p) - 1, (i + 1) * p.b - 1);
  }

  lemma {:induction false} LastChunk(p: Setup)
    requires p.Ok() && Rem(p) != 0
    ensures Chunks(p) >= 1 && (Chunks(p) - 1) * (p.g + 1) < p.b <= (Chunks(p) - 1) * (p.g + 1) + p.g + 1
  {
    assert p.b == p.b / (p.g + 1) * (p.g + 1) + Rem(p);
    DivAtLeast(p.b, 0, p.g + 1);
  }

  /** Two data blocks of a stripe share a cluster exactly if they are of the same
      chunk, and never with the global parities. */
  lemma {:induction false} SameCluster(p: Setup, ch: Choice, o: nat, o': nat)
    requires p.Ok() && ChoiceOk(p, ch) && o < p.K() && o' < p.K()
    ensures ClusterFor(p, ch, o) == ClusterFor(p, ch, o') <==> ChunkOf(p, o) == ChunkOf(p, o')
    ensures ClusterFor(p, ch, o) != ch.globals && ClusterFor(p, ch, o) in All(ch)
  {
    hide Chunks; hide ChunkOf; hide ClusterFor;
    DataCluster(p, ch, o);
    DataCluster(p, ch, o');
    assert ch.chunks[ChunkOf(p, o)] in ch.chunks;
  }

  /** The first `data` data blocks and the first `locals` local parities are placed. */
  ghost predicate Filled(p: Setup, ch: Choice, at: seq<int>, data: nat, locals: nat)
    requires p.Ok() && |ch.chunks| == p.l * Chunks(p) && |at| == p.K() + p.g + p.l && data <= p.K() && locals <= p.l
  {
    && (forall o :: 0 <= o < data ==> at[o] == ClusterFor(p, ch, o))
    && (forall o :: p.K() + p.g <= o < p.K() + p.g + locals ==> at[o] == ClusterFor(p, ch, o))
  }

  lemma {:induction false} ChunkTo(p: Setup, ch: Choice, i: nat, t: nat, o: nat)
    requires p.Ok() && |ch.chunks| == p.l * Chunks(p) && i < p.l && t < Chunks(p)
    requires var j := i * p.b + t * (p.g + 1); j <= o < j + p.g + 1 && o < (i + 1) * p.b
    ensures 0 <= i * Chunks(p) + t < |ch.chunks| && o < p.K() && ClusterFor(p, ch, o) == ch.chunks[i * Chunks(p) + t]
  {
    hide Chunks; hide ChunkOf;
    assert (i + 1) * p.b == i * p.b + p.b;
    ChunkInRange(p, i, t, o - i * p.b - t * (p.g + 1));
  }

  lemma {:induction false} GroupEnd(p: Setup, i: nat)
    requires i < p.l
    ensures (i + 1) * p.b <= p.K() && i * p.b <= (i + 1) * p.b
  {
    MulMono(i + 1, p.l, p.b);
    MulMono(i, i + 1, p.b);
  }

  /** Chunk t of group i: its data blocks, and after the last the local parity. */
  method FillChunk(p: Setup, ch: Choice, at: array<int>, i: nat, j: nat, n: nat, ghost t: nat)
    requires p.Ok() && |ch.chunks| == p.l * Chunks(p) && at.Length == p.K() + p.g + p.l && i < p.l && t < Chunks(p)
    requires j == i * p.b + t * (p.g + 1) && n == i * Chunks(p) + t && j < p.K() && Filled(p, ch, at[..], j, i)
    modifies at
    ensures var j' := j + p.g + 1;
      if j' >= (i + 1) * p.b then (i + 1) * p.b <= p.K() && Filled(p, ch, at[..], (i + 1) * p.b, i + 1)
      else j' <= p.K() && Filled(p, ch, at[..], j', i)
  {
    hide Chunks; hide ClusterFor; hide Rem;
    GroupEnd(p, i);
    ChunkAt(p, i, t);
    var o := j;
    while o < j + p.g + 1 && o < (i + 1) * p.b
      invariant j <= o <= j + p.g + 1 && o <= (i + 1) * p.b && Filled(p, ch, at[..], o, i)
    {
      ChunkTo(p, ch, i, t, o);
      at[o] := ch.chunks[n];
      o := o + 1;
    }
    if j + p.g + 1 >= (i + 1) * p.b {
      LocalTo(p, ch, i, t);
      at[p.K() + p.g + i] := if j + p.g + 1 != (i + 1) * p.b then ch.chunks[n] else ch.globals;
    }
  }

  lemma {:induction false} LocalTo(p: Setup, ch: Choice, i: nat, t: nat)
    requires p.Ok() && |ch.chunks| == p.l * Chunks(p) && i < p.l && t == Chunks(p) - 1
    ensures 0 <= i * Chunks(p) + t < |ch.chunks|
    ensures ClusterFor(p, ch, p.K() + p.g + i) == if Rem(p) == 0 then ch.globals else ch.chunks[i * Chunks(p) + t]
  {
    hide Chunks;
    MulMono(i + 1, p.l, Chunks(p));
    assert (i + 1) * Chunks(p) == i * Chunks(p) + Chunks(p);
  }

  /** The clusters of all blocks of a stripe, chunk by chunk. */
  method PlaceBlocks(p: Setup, ch: Choice, at: array<int>)
    requires p.Ok() && |ch.chunks| == p.l * Chunks(p) && at.Length == p.K() + p.g + p.l
    modifies at
    ensures forall o :: 0 <= o < at.Length ==> at[o] == ClusterFor(p, ch, o)
  {
    hide Chunks; hide ClusterFor; hide Rem; hide Filled;
    var n := 0;
    FilledNone(p, ch, at[..]);
    for i := 0 to p.l
      invariant i * p.b <= p.K() && Filled(p, ch, at[..], i * p.b, i) && n == i * Chunks(p)
    {
      n := FillGroup(p, ch, at, i, n);
      GroupEnd(p, i);
    }
    FillGlobals(p, ch, at);
  }

  lemma {:induction false} FilledNone(p: Setup, ch: Choice, at: seq<int>)
    requires p.Ok() && |ch.chunks| == p.l * Chunks(p) && |at| == p.K() + p.g + p.l
    ensures Filled(p, ch, at, 0, 0)
  {}

  method FillGroup(p: Setup, ch: Choice, at: array<int>, i: nat, n0: nat) returns (n: nat)
    requires p.Ok() && |ch.chunks| == p.l * Chunks(p) && at.Length == p.K() + p.g + p.l && i < p.l
    requires n0 == i * Chunks(p)
    requires i * p.b <= p.K() && Filled(p, ch, at[..], i * p.b, i)
    modifies at
    ensures (i + 1) * p.b <= p.K() && Filled(p, ch, at[..], (i + 1) * p.b, i + 1) && n == (i + 1) * Chunks(p)
  {
    hide Chunks; hide ClusterFor; hide Rem; hide Filled;
    n := n0;
    ghost var t := 0;
    var j := i * p.b;
    ChunkAt(p, i, 0);
    GroupEnd(p, i);
    assert (i + 1) * Chunks(p) == i * Chunks(p) + Chunks(p);
    while j < (i + 1) * p.b
      invariant t <= Chunks(p) && j == i * p.b + t * (p.g + 1) && n == i * Chunks(p) + t
      invariant if j >= (i + 1) * p.b then t == Chunks(p) && Filled(p, ch, at[..], (i + 1) * p.b, i + 1)
                else Filled(p, ch, at[..], j, i)
      decreases (i + 1) * p.b - j
    {
      ChunkAt(p, i, t);
      FillChunk(p, ch, at, i, j, n, t);
      t, n, j := t + 1, n + 1, j + p.g + 1;
      ChunkAt(p, i, t);
    }
  }

  method FillGlobals(p: Setup, ch: Choice, at: array<int>)
    requires p.Ok() && |ch.chunks| == p.l * Chunks(p) && at.Length == p.K() + p.g + p.l
    requires Filled(p, ch, at[..], p.K(), p.l)
    modifies at
    ensures forall o :: 0 <= o < at.Length ==> at[o] == ClusterFor(p, ch, o)
  {
    hide Chunks; hide ChunkOf; hide Rem; hide TailPos;
    for e := 0 to p.g
      invariant Filled(p, ch, at[..], p.K(), p.l) && forall o :: p.K() <= o < p.K() + e ==> at[o] == ch.globals
    {
      at[p.K() + e] := ch.globals;
    }
  }

  // ------------------------------------------------------------------
  // Stripe after stripe.

  type Uses = seq<set<nat>>

  /** What the stripes of one merge group share: nothing when dispersed, everything
      when aggregated, exactly the window when optimal. */
  ghost predicate Sharing(p: Setup, kind: Kind, us: Uses, start: nat) {
    && (forall a, c: nat :: 0 <= a < |us| && c in us[a] ==> c < p.clusters)
    && match kind
       case DIS => forall a, b, c: nat :: 0 <= a < b < |us| && c in us[a] ==> c !in us[b]
       case AGG => forall a, c: nat :: 0 <= a < |us| ==> (c in us[a] <==> InWindow(c, start, Required(p)))
       case OPT =>
         && (forall a, c: nat :: 0 <= a < |us| && InWindow(c, start, Shared(p, OPT)) ==> c in us[a])
         && (forall a, b, c: nat :: 0 <= a < b < |us| && c in us[a] && c in us[b] ==>
           InWindow(c, start, Shared(p, OPT)))
  }

  /** The free list holds only clusters no stripe of the current group uses. */
  ghost predicate Unused(p: Setup, kind: Kind, free: seq<nat>, us: Uses, start: nat) {
    && FreeOk(free, p.clusters)
    && (kind != DIS ==> start + Shared(p, kind) <= p.clusters)
    && (kind == OPT ==> Outside(free, start, Shared(p, OPT)))
    && (kind != AGG ==> forall a, c: nat :: 0 <= a < |us| && c in us[a] ==> c !in free)
  }

  /** Enough clusters for one stripe, and a non-empty range to draw the window from. */
  predicate Enough(p: Setup, kind: Kind) {
    match kind
    case DIS => Required(p) <= p.clusters
    case AGG => Required(p) < p.clusters
    case OPT => Required(p) <= p.clusters && Shared(p, OPT) < p.clusters
  }

  lemma {:induction false} NewGroup(p: Setup, kind: Kind, free: seq<nat>, start: nat)
    requires Unused(p, kind, free, [], start)
    ensures Sharing(p, kind, [], start)
  {}

  /** One more stripe with clusters u, after which `rest` is free. */
  lemma {:induction false} Joins(p: Setup, kind: Kind, free: seq<nat>, rest: seq<nat>, us: Uses, start: nat,
          u: set<nat>)
    requires Sharing(p, kind, us, start) && Unused(p, kind, free, us, start) && FreeOk(rest, p.clusters)
    requires forall c: nat :: c in u ==> c < p.clusters
    requires kind == DIS ==> forall c: nat :: c in u ==> c in free
    requires kind == AGG ==> forall c: nat :: c in u <==> InWindow(c, start, Required(p))
    requires kind == OPT ==>
      forall c: nat ::
        && (c in u ==> c in free || InWindow(c, start, Shared(p, OPT)))
        && (InWindow(c, start, Shared(p, OPT)) ==> c in u)
    requires kind != AGG ==> forall c: nat :: c in rest <==> c in free && c !in u
    ensures Sharing(p, kind, us + [u], start) && Unused(p, kind, if kind == AGG then free else rest, us + [u], start)
  {
    hide Required; hide Shared; hide FreeOk; hide InWindow;
  }

  // ------------------------------------------------------------------
  // When a merge group ends.

  /** Clusters still free after n stripes of a merge group. */
  function FreeAfter(p: Setup, kind: Kind, n: nat): int {
    p.clusters - Shared(p, kind) - n * (Required(p) - Shared(p, kind))
  }

  /** A merge group of n stripes takes no more: it has x, or, unless it is aggregated, too
      few clusters are left for another stripe. */
  predicate Closes(p: Setup, kind: Kind, n: nat) {
    n == p.x || (kind != AGG && (FreeAfter(p, kind, n) < Required(p) - Shared(p, kind) || FreeAfter(p, kind, n) == 0))
  }

  /** A merge group is followed by another exactly when it takes no more stripes. */
  ghost predicate GroupsOk(p: Setup, kind: Kind, groups: seq<seq<nat>>) {
    && (forall i :: 0 <= i < |groups| ==> |groups[i]| >= 1 && (p.x >= 1 ==> |groups[i]| <= p.x))
    && (forall i :: 0 <= i < |groups| - 1 ==> Closes(p, kind, |groups[i]|))
    && forall i, n: nat :: 0 <= i < |groups| && 1 <= n < |groups[i]| ==> !Closes(p, kind, n)
  }

  lemma {:induction false} GroupAdded(p: Setup, kind: Kind, groups: seq<seq<nat>>, stripe: nat)
    requires GroupsOk(p, kind, groups) && (groups == [] || Closes(p, kind, |groups[|groups| - 1]|))
    ensures GroupsOk(p, kind, groups + [[stripe]])
  {
    hide Closes;
  }

  lemma {:induction false} GroupGrown(p: Setup, kind: Kind, groups: seq<seq<nat>>, stripe: nat)
    requires GroupsOk(p, kind, groups) && groups != [] && !Closes(p, kind, |groups[|groups| - 1]|)
    ensures var n := |groups| - 1; GroupsOk(p, kind, groups[n := groups[n] + [stripe]])
  {
    hide FreeAfter;
  }

  /** The free list tells whether the group takes another stripe. */
  lemma {:induction false} FreeTells(p: Setup, kind: Kind, n: nat, free: seq<nat>)
    requires kind != AGG ==> |free| == FreeAfter(p, kind, n)
    ensures Closes(p, kind, n) <==>
      || n == p.x || (kind == DIS && (|free| < Required(p) || free == []))
      || (kind == OPT && (|free| < Required(p) - Shared(p, OPT) || free == []))
  {
    hide Required; hide FreeAfter;
  }

  lemma {:induction false} FreeStep(p: Setup, kind: Kind, n: nat)
    ensures FreeAfter(p, kind, 0) == p.clusters - Shared(p, kind)
    ensures FreeAfter(p, kind, n + 1) == FreeAfter(p, kind, n) - (Required(p) - Shared(p, kind))
  {
    hide Required; hide Shared;
    var d := Required(p) - Shared(p, kind);
    assert (n + 1) * d == n * d + d;
  }

  class GroupPlacer {
    const p: Setup
    const kind: Kind
    var free: seq<nat>
    var groups: seq<seq<nat>>
    var aggStart: nat
    ghost var uses: seq<Uses>
    ghost var starts: seq<nat>

    ghost predicate Valid()
      reads this
    {
      && p.Ok() && FreeOk(free, p.clusters) && |uses| == |groups| == |starts|
      && (forall i :: 0 <= i < |groups| ==> |uses[i]| == |groups[i]| && Sharing(p, kind, uses[i], starts[i]))
      && (groups != [] ==> starts[|groups| - 1] == aggStart && Unused(p, kind, free, uses[|groups| - 1], aggStart))
      && GroupsOk(p, kind, groups)
      && (groups != [] && kind != AGG ==> |free| == FreeAfter(p, kind, |groups[|groups| - 1]|))
    }

    constructor (p: Setup, kind: Kind)
      requires p.Ok()
      ensures Valid() && groups == [] && this.p == p && this.kind == kind
    {
      this.p, this.kind := p, kind;
      free, groups, aggStart, uses, starts := [], [], 0, [], [];
    }

    /** Does the next stripe start a new merge group? */
    predicate Starts()
      reads this
    {
      || groups == [] || |groups[|groups| - 1]| == p.x
      || (kind == DIS && (|free| < Required(p) || free == []))
      || (kind == OPT && (|free| < Required(p) - Shared(p, OPT) || free == []))
    }

    /** A fresh free list, and a fresh window where one is shared. */
    method Refill()
      requires p.Ok() && FreeOk(free, p.clusters) && Enough(p, kind)
      modifies this`free, this`aggStart
      ensures Unused(p, kind, free, [], aggStart) && Ready(p, kind, free)
      ensures kind != AGG ==> |free| == p.clusters - Shared(p, kind)
    {
      hide Required; hide FreeOk;
      RequiredIs(p);
      match kind {
        case DIS =>
          free := AllBut(p.clusters, 0, 0);
        case AGG =>
          aggStart := RandNum(p.clusters - Required(p));
        case OPT =>
          aggStart := RandNum(p.clusters - Shared(p, OPT));
          free := AllBut(p.clusters, aggStart, Shared(p, OPT));
      }
    }

    method Choose() returns (ch: Choice)
      requires p.Ok() && Unused(p, kind, free, [], aggStart) && Ready(p, kind, free)
      modifies this`free
      ensures ChoiceOk(p, ch) && FreeOk(free, p.clusters) && (kind == AGG ==> free == old(free))
      ensures kind != AGG ==> |free| == |old(free)| - (Required(p) - Shared(p, kind))
      ensures kind == DIS ==> forall c: nat :: c in All(ch) ==> c in old(free)
      ensures kind == AGG ==> forall c: nat :: c in All(ch) <==> InWindow(c, aggStart, Required(p))
      ensures kind == OPT ==> forall c: nat :: c in All(ch) ==> c in old(free) || InWindow(c, aggStart, Shared(p, OPT))
      ensures kind == OPT ==> forall c: nat :: InWindow(c, aggStart, Shared(p, OPT)) ==> c in All(ch)
      ensures kind != AGG ==> forall c: nat :: c in free <==> c in old(free) && c !in All(ch)
    {
      hide Required; hide FreeOk; hide Rem; hide Chunks; hide All; hide ChoiceOk;
      match kind {
        case DIS => ch, free := ChooseDispersed(p, free);
        case AGG => ch := ChooseAggregated(p, aggStart);
        case OPT => ch, free := ChooseOptimal(p, free, aggStart);
      }
    }

    /** Picks the clusters of one stripe and records its merge group. */
    method Pick(stripe: nat) returns (ch: Choice)
      requires Valid() && Enough(p, kind)
      modifies this
      ensures Valid() && ChoiceOk(p, ch)
      ensures old(Starts()) <==> old(groups) == [] || Closes(p, kind, |old(groups)[|old(groups)| - 1]|)
      ensures old(Starts()) ==> groups == old(groups) + [[stripe]] && uses == old(uses) + [[All(ch)]]
      ensures !old(Starts()) ==> var n := |old(groups)| - 1;
        && groups == old(groups)[n := old(groups)[n] + [stripe]] && uses == old(uses)[n := old(uses)[n] + [All(ch)]]
    {
      hide Required; hide FreeOk; hide Rem; hide Chunks; hide All; hide Sharing; hide Unused; hide Ready; hide Enough;
      hide Shared; hide GroupsOk; hide FreeAfter; hide Closes; hide ChoiceOk; hide InWindow;
      ghost var us: Uses, size := [], 0;
      if groups != [] {
        size := |groups[|groups| - 1]|;
        FreeTells(p, kind, size, free);
      }
      var new' := Starts();
      FreeStep(p, kind, if new' then 0 else size);
      if new' {
        GroupAdded(p, kind, groups, stripe);
        Refill();
        NewGroup(p, kind, free, aggStart);
      } else {
        GroupGrown(p, kind, groups, stripe);
        us := uses[|groups| - 1];
        StillReady(p, kind, free);
        UnusedAny(p, kind, free, us, aggStart);
      }
      ghost var before := free;
      ch := Choose();
      Joined(p, kind, before, free, us, aggStart, ch);
      if new' {
        groups, uses, starts := groups + [[stripe]], uses + [[All(ch)]], starts + [aggStart];
      } else {
        var n := |groups| - 1;
        groups, uses := groups[n := groups[n] + [stripe]], uses[n := uses[n] + [All(ch)]];
      }
    }

    /** Places one stripe: its clusters, its merge group and the cluster of every block. */
    method Place(stripe: nat) returns (ch: Choice, at: array<int>)
      requires Valid() && Enough(p, kind)
      modifies this
      ensures Valid() && ChoiceOk(p, ch) && fresh(at) && at.Length == p.K() + p.g + p.l
      ensures forall o :: 0 <= o < at.Length ==> at[o] == ClusterFor(p, ch, o)
      ensures Spans(at[..], All(ch))
      ensures old(Starts()) <==> old(groups) == [] || Closes(p, kind, |old(groups)[|old(groups)| - 1]|)
      ensures old(Starts()) ==> groups == old(groups) + [[stripe]] && uses == old(uses) + [[All(ch)]]
      ensures !old(Starts()) ==> var n := |old(groups)| - 1;
        && groups == old(groups)[n := old(groups)[n] + [stripe]] && uses == old(uses)[n := old(uses)[n] + [All(ch)]]
    {
      hide Required; hide FreeOk; hide Rem; hide Chunks; hide All; hide Sharing; hide Unused; hide Enough;
      hide Shared; hide GroupsOk; hide FreeAfter; hide Closes; hide ChoiceOk; hide ClusterFor; hide Spans;
      ch := Pick(stripe);
      at := new int[p.K() + p.g + p.l];
      ChoiceSize(p, ch);
      PlaceBlocks(p, ch, at);
      AllSpanned(p, ch, at[..]);
    }
  }

  /** The blocks lie in exactly these clusters. */
  ghost predicate Spans(at: seq<int>, clusters: set<nat>) {
    && (forall o :: 0 <= o < |at| ==> at[o] >= 0 && (at[o] as nat) in clusters)
    && forall c: nat :: c in clusters ==> (c as int) in at
  }

  /** A stripe uses every cluster it chose, and no other. */
  lemma {:induction false} AllSpanned(p: Setup, ch: Choice, at: seq<int>)
    requires p.Ok() && ChoiceOk(p, ch) && |at| == p.K() + p.g + p.l
    requires forall o :: 0 <= o < |at| ==> at[o] == ClusterFor(p, ch, o)
    ensures Spans(at, All(ch))
  {
    hide Chunks; hide ChunkOf; hide ClusterFor; hide Rem;
    forall o | 0 <= o < |at| ensures at[o] >= 0 && (at[o] as nat) in All(ch) {
      if o < p.K() { SameCluster(p, ch, o, o); } else { ParityCluster(p, ch, o); }
    }
    forall c: nat | c in All(ch) ensures (c as int) in at {
      if c in ch.chunks {
        var n :| 0 <= n < |ch.chunks| && ch.chunks[n] == c;
        var o := BlockIn(p, ch, n);
        assert at[o] == c;
      } else {
        ParityCluster(p, ch, p.K());
        assert at[p.K()] == c;
      }
    }
  }

  lemma {:induction false} ParityCluster(p: Setup, ch: Choice, o: nat)
    requires p.Ok() && ChoiceOk(p, ch) && p.K() <= o < p.K() + p.g + p.l
    ensures ClusterFor(p, ch, o) >= 0 && (ClusterFor(p, ch, o) as nat) in All(ch)
    ensures o == p.K() ==> ClusterFor(p, ch, o) == ch.globals
  {
    hide Chunks;
    if p.g == 0 { DivIs(p.b, p.b, 1); }
    if !(o < p.K() + p.g || Rem(p) == 0) {
      var i := o - p.K() - p.g;
      TailInRange(p, i);
      assert ch.chunks[TailPos(p, i)] in ch.chunks;
    }
  }

  lemma {:induction false} TailInRange(p: Setup, i: nat)
    requires p.Ok() && i < p.l && Rem(p) != 0
    ensures 0 <= TailPos(p, i) < p.l * Chunks(p)
  {
    MulMono(0, i, Chunks(p));
    MulMono(i + 1, p.l, Chunks(p));
    assert (i + 1) * Chunks(p) == i * Chunks(p) + Chunks(p);
    DivAtLeast(p.b, 0, p.g + 1);
  }

  /** Every chunk has a first block. */
  lemma {:induction false} BlockIn(p: Setup, ch: Choice, n: nat) returns (o: nat)
    requires p.Ok() && |ch.chunks| == p.l * Chunks(p) && n < |ch.chunks|
    ensures o < p.K() && ClusterFor(p, ch, o) == ch.chunks[n]
  {
    hide Chunks; hide ChunkOf; hide ClusterFor;
    ChunkStart(p, 0);
    var i, t := n / Chunks(p), n % Chunks(p);
    DivLess(n, p.l, Chunks(p));
    ChunkStart(p, t);
    ChunkInRange(p, i, t, 0);
    o := i * p.b + t * (p.g + 1) + 0;
    assert n == i * Chunks(p) + t;
    DataCluster(p, ch, o);
  }

  lemma {:induction false} ChunkStart(p: Setup, t: nat)
    requires p.Ok()
    ensures Chunks(p) >= 1 && (t < Chunks(p) ==> t * (p.g + 1) < p.b)
  {
    var q, w := p.b / (p.g + 1), p.g + 1;
    assert p.b == q * w + Rem(p);
    if t < q { MulMono(t + 1, q, w); assert (t + 1) * w == t * w + w; }
  }

  /** Enough free clusters for one more stripe. */
  predicate Ready(p: Setup, kind: Kind, free: seq<nat>) {
    match kind
    case DIS => |free| >= Required(p)
    case AGG => true
    case OPT => |free| >= Required(p) - Shared(p, OPT)
  }

  lemma {:induction false} StillReady(p: Setup, kind: Kind, free: seq<nat>)
    requires kind == DIS ==> |free| >= Required(p)
    requires kind == OPT ==> |free| >= Required(p) - Shared(p, OPT)
    ensures Ready(p, kind, free)
  {}

  lemma {:induction false} UnusedAny(p: Setup, kind: Kind, free: seq<nat>, us: Uses, start: nat)
    requires Unused(p, kind, free, us, start)
    ensures Unused(p, kind, free, [], start)
  {}

  lemma {:induction false} ChoiceSize(p: Setup, ch: Choice)
    requires ChoiceOk(p, ch)
    ensures |ch.chunks| == p.l * Chunks(p)
  {}

  lemma {:induction false} Joined(p: Setup, kind: Kind, free: seq<nat>, rest: seq<nat>, us: Uses, start: nat,
          ch: Choice)
    requires Sharing(p, kind, us, start) && Unused(p, kind, free, us, start) && FreeOk(rest, p.clusters)
    requires ChoiceOk(p, ch)
    requires kind == DIS ==> forall c: nat :: c in All(ch) ==> c in free
    requires kind == AGG ==> free == rest && forall c: nat :: c in All(ch) <==> InWindow(c, start, Required(p))
    requires kind == OPT ==> forall c: nat :: c in All(ch) ==> c in free || InWindow(c, start, Shared(p, OPT))
    requires kind == OPT ==> forall c: nat :: InWindow(c, start, Shared(p, OPT)) ==> c in All(ch)
    requires kind != AGG ==> forall c: nat :: c in rest <==> c in free && c !in All(ch)
    ensures Sharing(p, kind, us + [All(ch)], start) && Unused(p, kind, rest, us + [All(ch)], start)
    ensures [] + [All(ch)] == [All(ch)]
  {
    hide Sharing; hide Unused; hide Required; hide Shared; hide FreeOk; hide InWindow;
    Joins(p, kind, free, rest, us, start, All(ch));
  }

  /** All cluster ids except a window. */
  method AllBut(n: nat, start: nat, width: nat) returns (free: seq<nat>)
    requires start + width <= n
    ensures FreeOk(free, n) && |free| == n - width && Outside(free, start, width)
  {
    free := [];
    for i := 0 to start
      invariant |free| == i && forall e :: 0 <= e < i ==> free[e] == e
    {
      free := free + [i];
    }
    for i := start + width to n
      invariant |free| == i - width && forall e :: 0 <= e < |free| ==> free[e] == if e < start then e else e + width
    {
      free := free + [i];
    }
  }
}
