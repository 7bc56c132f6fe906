/** The per-cluster append plans of the coordinator (project/src/coordinator.cpp) and
the client's matching split (project/src/client.cpp). */
module AppendClusters {
  import opened AppendStriping
  import opened AppendPlan
  import opened Arith

  /** k data blocks, r global and z local parities, in z clusters. */
  datatype Code = Code(k: nat, r: nat, z: nat)

  datatype Entry = Entry(block: nat, size: int, offset: int)

  /** Cluster i takes blocks Cut(i) .. Cut(i + 1) - 1 of m. */
  function Cut(i: nat, m: nat, z: nat): nat
    requires z >= 1
  {
    i * m / z
  }

  lemma {:induction false} CutMono(i: nat, m: nat, z: nat)
    requires z >= 1
    ensures Cut(i, m, z) <= Cut(i + 1, m, z) && Cut(0, m, z) == 0 && Cut(z, m, z) == m
  {
    assert (i + 1) * m == i * m + m;
    DivMono(i * m, (i + 1) * m, z);
    DivIs(0, 0, z);
    assert z * m == m * z;
    DivIs(z * m, m, z);
  }

  function DataEntries(slices: map<nat, Slice>, lo: nat, hi: nat): seq<Entry>
    decreases hi
  {
    if hi <= lo then []
    else
      DataEntries(slices, lo, hi - 1)
      + (if hi - 1 in slices then [Entry(hi - 1, slices[hi - 1].size, slices[hi - 1].offset)] else [])
  }

  function ParityEntries(w: Window, lo: nat, hi: nat): (r: seq<Entry>)
    ensures lo <= hi ==> |r| == hi - lo && forall e :: 0 <= e < |r| ==> r[e] == Entry(lo + e, w.size, w.offset)
    decreases hi
  {
    if hi <= lo then [] else ParityEntries(w, lo, hi - 1) + [Entry(hi - 1, w.size, w.offset)]
  }

  /** Data slices, global parities and the local parity of cluster i. */
  function ClusterPlan(code: Code, slices: map<nat, Slice>, w: Window, i: nat): seq<Entry>
    requires code.z >= 1
  {
    DataEntries(slices, Cut(i, code.k, code.z), Cut(i + 1, code.k, code.z))
    + ParityEntries(w, code.k + Cut(i, code.r, code.z), code.k + Cut(i + 1, code.r, code.z))
    + ParityEntries(w, code.k + code.r + Cut(i, code.z, code.z), code.k + code.r + Cut(i + 1, code.z, code.z))
  }

  function SizeAt(slices: map<nat, Slice>, j: nat): nat { if j in slices then slices[j].size else 0 }

  function DataSum(slices: map<nat, Slice>, lo: nat, hi: nat): nat
    decreases hi
  {
    if hi <= lo then 0 else DataSum(slices, lo, hi - 1) + SizeAt(slices, hi - 1)
  }

  /** What getClusterAppendSize announces. */
  function Announced(code: Code, slices: map<nat, Slice>, w: Window, i: nat): int
    requires code.z >= 1
  {
    DataSum(slices, Cut(i, code.k, code.z), Cut(i + 1, code.k, code.z)) + Share(code, w)
  }

  /** A cluster's even share of the parity bytes. */
  function Share(code: Code, w: Window): int
    requires code.z >= 1
  {
    w.size * (code.r + code.z) / code.z
  }

  function SizeSum(entries: seq<Entry>): int {
    if entries == [] then 0 else SizeSum(entries[..|entries| - 1]) + entries[|entries| - 1].size
  }

  function Sizes(entries: seq<Entry>): (r: seq<int>)
    ensures |r| == |entries| && forall e :: 0 <= e < |r| ==> r[e] == entries[e].size
  {
    seq(|entries|, e requires 0 <= e < |entries| => entries[e].size)
  }

  // ------------------------------------------------------------------
  // The coordinator.

  method ClusterAppendSize(code: Code, slices: map<nat, Slice>, i: nat, paritySize: int) returns (size: int)
    requires code.z >= 1 && paritySize >= 0
    ensures forall w: Window :: w.size == paritySize ==> size == Announced(code, slices, w, i)
    ensures var share := size - DataSum(slices, Cut(i, code.k, code.z), Cut(i + 1, code.k, code.z));
      code.z * share <= paritySize * (code.r + code.z) < code.z * share + code.z
  {
    hide Cut;
    CutMono(i, code.k, code.z);
    size := 0;
    for j := Cut(i, code.k, code.z) to Cut(i + 1, code.k, code.z)
      invariant size == DataSum(slices, Cut(i, code.k, code.z), j)
    {
      if j in slices { size := size + slices[j].size; }
    }
    size := size + paritySize * (code.r + code.z) / code.z;
  }

  datatype Plan = Plan(group: nat, appendSize: int, mergeParity: bool, serialized: bool, entries: seq<Entry>)

  ghost predicate PlanOk(code: Code, slices: map<nat, Slice>, w: Window, i: nat, plan: Plan)
    requires code.z >= 1
  {
    plan.group == i && plan.entries == ClusterPlan(code, slices, w, i) &&
      plan.appendSize == Announced(code, slices, w, i)
  }

  // ------------------------------------------------------------------
  // What the plans write, byte by byte.

  /** Block j belongs to cluster i: the i-th of z shares of its kind, cut evenly. */
  predicate HomeOf(code: Code, i: nat, j: nat) {
    if j < code.k then i * code.k < code.z * (j + 1) <= (i + 1) * code.k
    else if j < code.k + code.r then i * code.r < code.z * (j - code.k + 1) <= (i + 1) * code.r
    else j == code.k + code.r + i
  }

  lemma {:induction false} InCut(i: nat, m: nat, z: nat, j: nat)
    requires z >= 1
    ensures Cut(i, m, z) <= j <==> i * m < z * (j + 1)
  {
    assert z * (j + 1) == (j + 1) * z;
    if i * m < (j + 1) * z { DivLess(i * m, j + 1, z); } else { DivAtLeast(i * m, j + 1, z); }
  }

  /** Every block has a cluster. */
  lemma {:induction false} CutFor(m: nat, z: nat, j: nat, i: nat) returns (h: nat)
    requires z >= 1 && j < m && i < z && Cut(i, m, z) <= j
    ensures h < z && Cut(h, m, z) <= j < Cut(h + 1, m, z)
    decreases z - i
  {
    hide Cut;
    CutMono(i, m, z);
    if j < Cut(i + 1, m, z) { h := i; } else { h := CutFor(m, z, j, i + 1); }
  }

  /** And only one. */
  lemma {:induction false} OneHome(code: Code, i: nat, i': nat, j: nat)
    requires HomeOf(code, i, j) && HomeOf(code, i', j)
    ensures i == i'
  {
    if i < i' {
      MulMono(i + 1, i', code.k);
      MulMono(i + 1, i', code.r);
    } else if i' < i {
      MulMono(i' + 1, i, code.k);
      MulMono(i' + 1, i, code.r);
    }
  }

  lemma {:induction false} DataEntryIs(slices: map<nat, Slice>, lo: nat, hi: nat, e: nat)
    requires e < |DataEntries(slices, lo, hi)|
    ensures var entry := DataEntries(slices, lo, hi)[e];
      && lo <= entry.block < hi && entry.block in slices
      && entry.size == slices[entry.block].size && entry.offset == slices[entry.block].offset
    decreases hi
  {
    if e < |DataEntries(slices, lo, hi - 1)| { DataEntryIs(slices, lo, hi - 1, e); }
  }

  lemma {:induction false} DataAscend(slices: map<nat, Slice>, lo: nat, hi: nat, e: nat, e': nat)
    requires e < e' < |DataEntries(slices, lo, hi)|
    ensures DataEntries(slices, lo, hi)[e].block < DataEntries(slices, lo, hi)[e'].block
    decreases hi
  {
    var n := |DataEntries(slices, lo, hi - 1)|;
    if e' < n { DataAscend(slices, lo, hi - 1, e, e'); } else { DataEntryIs(slices, lo, hi - 1, e); }
  }

  lemma {:induction false} DataHas(slices: map<nat, Slice>, lo: nat, hi: nat, j: nat) returns (e: nat)
    requires lo <= j < hi && j in slices
    ensures e < |DataEntries(slices, lo, hi)|
    ensures DataEntries(slices, lo, hi)[e] == Entry(j, slices[j].size, slices[j].offset)
    decreases hi
  {
    if j == hi - 1 { e := |DataEntries(slices, lo, hi - 1)|; } else { e := DataHas(slices, lo, hi - 1, j); }
  }

  /** An entry belongs to its cluster: it is a slice of the append, or a parity's window. */
  ghost predicate EntryOk(code: Code, slices: map<nat, Slice>, w: Window, i: nat, entry: Entry) {
    && HomeOf(code, i, entry.block) && entry.block < code.k + code.r + code.z
    && if entry.block < code.k
       then entry.block in slices && entry == Entry(entry.block, slices[entry.block].size, slices[entry.block].offset)
       else entry == Entry(entry.block, w.size, w.offset)
  }

  lemma {:induction false} CutWithin(i: nat, m: nat, z: nat)
    requires i < z
    ensures Cut(i, m, z) <= Cut(i + 1, m, z) <= m
  {
    CutMono(i, m, z);
    MulMono(i + 1, z, m);
    DivMono((i + 1) * m, z * m, z);
  }

  lemma {:induction false} ClusterEntry(code: Code, slices: map<nat, Slice>, w: Window, i: nat, e: nat)
    requires i < code.z && e < |ClusterPlan(code, slices, w, i)|
    ensures EntryOk(code, slices, w, i, ClusterPlan(code, slices, w, i)[e])
  {
    hide Cut; hide DataEntries; hide ParityEntries;
    CutWithin(i, code.k, code.z);
    CutWithin(i, code.r, code.z);
    CutLocal(i, code.z);
    CutLocal(i + 1, code.z);
    var lo, hi := Cut(i, code.k, code.z), Cut(i + 1, code.k, code.z);
    var entry := ClusterPlan(code, slices, w, i)[e];
    if e < |DataEntries(slices, lo, hi)| {
      DataEntryIs(slices, lo, hi, e);
      InCut(i, code.k, code.z, entry.block);
      InCut(i + 1, code.k, code.z, entry.block);
    } else if entry.block < code.k + code.r {
      InCut(i, code.r, code.z, entry.block - code.k);
      InCut(i + 1, code.r, code.z, entry.block - code.k);
    }
  }

  lemma {:induction false} ClusterAscend(code: Code, slices: map<nat, Slice>, w: Window, i: nat, e: nat, e': nat)
    requires i < code.z && e < e' < |ClusterPlan(code, slices, w, i)|
    ensures ClusterPlan(code, slices, w, i)[e].block < ClusterPlan(code, slices, w, i)[e'].block
  {
    hide Cut; hide DataEntries; hide ParityEntries;
    CutWithin(i, code.k, code.z);
    CutWithin(i, code.r, code.z);
    CutLocal(i, code.z);
    CutLocal(i + 1, code.z);
    var lo, hi := Cut(i, code.k, code.z), Cut(i + 1, code.k, code.z);
    var n := |DataEntries(slices, lo, hi)|;
    if e' < n { DataAscend(slices, lo, hi, e, e'); } else if e < n { DataEntryIs(slices, lo, hi, e); }
  }

  ghost predicate Ascending(entries: seq<Entry>) {
    forall e, e' :: 0 <= e < e' < |entries| ==> entries[e].block < entries[e'].block
  }

  /** Cluster i has an entry for block j. */
  ghost predicate Wanted(code: Code, slices: map<nat, Slice>, i: nat, j: nat) {
    HomeOf(code, i, j) && j < code.k + code.r + code.z && (j < code.k ==> j in slices)
  }

  /** A cluster's entries: the slices and parities at home there, all of them, in order. */
  ghost predicate ClusterOk(code: Code, slices: map<nat, Slice>, w: Window, i: nat, entries: seq<Entry>) {
    && Ascending(entries)
    && (forall e :: 0 <= e < |entries| ==> EntryOk(code, slices, w, i, entries[e]))
    && forall j: nat :: Wanted(code, slices, i, j) ==> Has(entries, j)
  }

  ghost predicate Has(entries: seq<Entry>, j: nat) { exists e :: 0 <= e < |entries| && entries[e].block == j }

  lemma {:induction false} ClusterHas(code: Code, slices: map<nat, Slice>, w: Window, i: nat, j: nat)
    requires i < code.z && Wanted(code, slices, i, j)
    ensures Has(ClusterPlan(code, slices, w, i), j)
  {
    hide Cut; hide DataEntries; hide ParityEntries;
    CutWithin(i, code.r, code.z);
    CutLocal(i, code.z);
    CutLocal(i + 1, code.z);
    var lo, hi := Cut(i, code.k, code.z), Cut(i + 1, code.k, code.z);
    var n, g := |DataEntries(slices, lo, hi)|, Cut(i, code.r, code.z);
    var e;
    if j < code.k {
      InCut(i, code.k, code.z, j);
      InCut(i + 1, code.k, code.z, j);
      e := DataHas(slices, lo, hi, j);
    } else if j < code.k + code.r {
      InCut(i, code.r, code.z, j - code.k);
      InCut(i + 1, code.r, code.z, j - code.k);
      e := n + (j - code.k - g);
    } else {
      e := n + (Cut(i + 1, code.r, code.z) - g);
    }
    assert ClusterPlan(code, slices, w, i)[e].block == j;
  }

  lemma {:induction false} ClusterIs(code: Code, slices: map<nat, Slice>, w: Window, i: nat)
    requires i < code.z
    ensures ClusterOk(code, slices, w, i, ClusterPlan(code, slices, w, i))
  {
    hide ClusterPlan; hide EntryOk; hide Wanted; hide Has;
    var entries := ClusterPlan(code, slices, w, i);
    forall e | 0 <= e < |entries| ensures EntryOk(code, slices, w, i, entries[e]) {
      ClusterEntry(code, slices, w, i, e);
    }
    forall e, e' | 0 <= e < e' < |entries| ensures entries[e].block < entries[e'].block {
      ClusterAscend(code, slices, w, i, e, e');
    }
    forall j: nat | Wanted(code, slices, i, j) ensures Has(entries, j) { ClusterHas(code, slices, w, i, j); }
  }

  /** The parity blocks from lo up to hi, each with the whole window. */
  method PlanParities(entries0: seq<Entry>, lo: nat, hi: nat, w: Window) returns (entries: seq<Entry>)
    requires lo <= hi
    ensures entries == entries0 + ParityEntries(w, lo, hi)
  {
    entries := entries0;
    for j := lo to hi
      invariant entries == entries0 + ParityEntries(w, lo, j)
    {
      entries := entries + [Entry(j, w.size, w.offset)];
    }
  }

  /** The plan of cluster i. */
  method PlanCluster(code: Code, slices: map<nat, Slice>, w: Window, i: nat) returns (entries: seq<Entry>)
    requires code.z >= 1
    ensures entries == ClusterPlan(code, slices, w, i)
    ensures i < code.z ==> ClusterOk(code, slices, w, i, entries)
  {
    hide Cut; hide ParityEntries; hide ClusterOk;
    if i < code.z { ClusterIs(code, slices, w, i); }
    CutMono(i, code.k, code.z);
    CutMono(i, code.r, code.z);
    CutMono(i, code.z, code.z);
    entries := [];
    for j := Cut(i, code.k, code.z) to Cut(i + 1, code.k, code.z)
      invariant entries == DataEntries(slices, Cut(i, code.k, code.z), j)
    {
      if j in slices { entries := entries + [Entry(j, slices[j].size, slices[j].offset)]; }
    }
    var globals, locals := code.k, code.k + code.r;
    entries := PlanParities(entries, globals + Cut(i, code.r, code.z), globals + Cut(i + 1, code.r, code.z), w);
    entries := PlanParities(entries, locals + Cut(i, code.z, code.z), locals + Cut(i + 1, code.z, code.z), w);
  }

  /** The entry holds logical byte x. */
  ghost predicate Covers(ge: Geometry, entry: Entry, x: nat)
    requires ge.Ok()
  {
    entry.block == BlockOf(ge, x) && entry.offset <= OffsetAt(ge, x) < entry.offset + entry.size
  }

  /** Some plan holds byte x. */
  ghost predicate Covered(ge: Geometry, plans: seq<Plan>, x: nat)
    requires ge.Ok()
  {
    exists i, e :: 0 <= i < |plans| && 0 <= e < |plans[i].entries| && Covers(ge, plans[i].entries[e], x)
  }

  /** Some plan has block j. */
  ghost predicate Named(plans: seq<Plan>, j: nat) {
    exists i, e :: 0 <= i < |plans| && 0 <= e < |plans[i].entries| && plans[i].entries[e].block == j
  }

  /** A data entry writes appended bytes only, and a parity entry is the whole window. */
  ghost predicate Meant(ge: Geometry, code: Code, a: nat, n: nat, w: Window, entry: Entry)
    requires ge.Ok()
  {
    if entry.block < code.k then
      forall y: nat :: entry.offset <= y < entry.offset + entry.size ==> a <= ByteAt(ge, entry.block, y) < a + n
    else entry.size == w.size && entry.offset == w.offset
  }

  /** No block is in two entries, whichever plans they are in. */
  ghost predicate OncePerBlock(plans: seq<Plan>) {
    forall i, e, i', e' ::
      0 <= i < |plans| && 0 <= e < |plans[i].entries| && 0 <= i' < |plans| && 0 <= e' < |plans[i'].entries| ==>
        plans[i].entries[e].block == plans[i'].entries[e'].block ==> i == i' && e == e'
  }

  /** The plans write every appended byte, and no other byte of a data block, and every
      parity's window, each in one entry of the block's own cluster. */
  ghost predicate PlansWrite(ge: Geometry, code: Code, a: nat, n: nat, w: Window, plans: seq<Plan>)
    requires ge.Ok()
  {
    && OncePerBlock(plans) && (forall i :: 0 <= i < |plans| ==> Ascending(plans[i].entries))
    && (forall x :: a <= x < a + n ==> Covered(ge, plans, x))
    && (forall j :: code.k <= j < code.k + code.r + code.z ==> Named(plans, j))
    && forall i, e :: 0 <= i < |plans| && 0 <= e < |plans[i].entries| ==>
         HomeOf(code, i, plans[i].entries[e].block) && Meant(ge, code, a, n, w, plans[i].entries[e])
  }

  ghost predicate AllOk(code: Code, slices: map<nat, Slice>, w: Window, plans: seq<Plan>) {
    code.z >= 1 && |plans| == code.z && forall i :: 0 <= i < |plans| ==> PlanOk(code, slices, w, i, plans[i])
  }

  /** A block with a cluster to itself is in one entry only. */
  lemma {:induction false} EntriesApart(code: Code, slices: map<nat, Slice>, w: Window, plans: seq<Plan>)
    requires AllOk(code, slices, w, plans)
    ensures OncePerBlock(plans)
  {
    hide ClusterPlan; hide HomeOf; hide Announced; hide Has; hide Wanted;
    forall i, e, i', e' |
      && 0 <= i < |plans| && 0 <= e < |plans[i].entries| && 0 <= i' < |plans| && 0 <= e' < |plans[i'].entries|
      && plans[i].entries[e].block == plans[i'].entries[e'].block
      ensures i == i' && e == e'
    {
      ClusterIs(code, slices, w, i);
      ClusterIs(code, slices, w, i');
      OneHome(code, i, i', plans[i].entries[e].block);
    }
  }

  lemma {:induction false} PlanHas(code: Code, slices: map<nat, Slice>, w: Window, plans: seq<Plan>, i: nat, j: nat)
    returns (e: nat)
    requires AllOk(code, slices, w, plans) && i < code.z && Wanted(code, slices, i, j)
    ensures e < |plans[i].entries| && plans[i].entries[e].block == j && EntryOk(code, slices, w, i, plans[i].entries[e])
  {
    hide ClusterPlan; hide Announced; hide EntryOk; hide Wanted;
    assert PlanOk(code, slices, w, i, plans[i]);
    ClusterIs(code, slices, w, i);
    e :| 0 <= e < |plans[i].entries| && plans[i].entries[e].block == j;
  }

  lemma {:induction false} ByteCovered(ge: Geometry, code: Code, a: nat, n: nat, w: Window, plans: seq<Plan>, x: nat)
    requires ge.Ok() && code.k == ge.k && AllOk(code, SliceMap(ge, a, a + n), w, plans) && a <= x < a + n
    ensures Covered(ge, plans, x)
  {
    hide Cut; hide Fill; hide BlockOf; hide OffsetAt; hide AllOk;
    var slices, j := SliceMap(ge, a, a + n), BlockOf(ge, x);
    SliceThere(ge, a, a + n, x);
    PlanCount(code, slices, w, plans);
    CutMono(0, code.k, code.z);
    var i := CutFor(code.k, code.z, j, 0);
    InCut(i, code.k, code.z, j);
    InCut(i + 1, code.k, code.z, j);
    var e := PlanHas(code, slices, w, plans, i, j);
    assert Covers(ge, plans[i].entries[e], x);
  }

  lemma {:induction false} PlanCount(code: Code, slices: map<nat, Slice>, w: Window, plans: seq<Plan>)
    requires AllOk(code, slices, w, plans)
    ensures |plans| == code.z >= 1
  {}

  lemma {:induction false} ParityNamed(code: Code, slices: map<nat, Slice>, w: Window, plans: seq<Plan>, j: nat)
    requires AllOk(code, slices, w, plans) && code.k <= j < code.k + code.r + code.z
    ensures Named(plans, j)
  {
    hide Cut; hide AllOk;
    PlanCount(code, slices, w, plans);
    var i := j - code.k - code.r;
    if j < code.k + code.r {
      CutMono(0, code.r, code.z);
      i := CutFor(code.r, code.z, j - code.k, 0);
      InCut(i, code.r, code.z, j - code.k);
      InCut(i + 1, code.r, code.z, j - code.k);
    }
    var e := PlanHas(code, slices, w, plans, i, j);
  }

  lemma {:induction false} EntryMeant(ge: Geometry, code: Code, a: nat, n: nat, w: Window, i: nat, entry: Entry)
    requires ge.Ok() && code.k == ge.k && EntryOk(code, SliceMap(ge, a, a + n), w, i, entry)
    ensures HomeOf(code, i, entry.block) && Meant(ge, code, a, n, w, entry)
  {
    hide Fill; hide HomeOf; hide ByteAt;
    if entry.block < code.k {
      forall y: nat | entry.offset <= y < entry.offset + entry.size
        ensures a <= ByteAt(ge, entry.block, y) < a + n
      {
        SliceBack(ge, a, a + n, entry.block, y);
      }
    }
  }

  lemma {:induction false} PlansAre(ge: Geometry, code: Code, a: nat, n: nat, w: Window, plans: seq<Plan>)
    requires ge.Ok() && code.k == ge.k && AllOk(code, SliceMap(ge, a, a + n), w, plans)
    ensures PlansWrite(ge, code, a, n, w, plans)
  {
    hide Covered; hide Named; hide OncePerBlock; hide HomeOf; hide Meant; hide EntryOk; hide ClusterPlan;
    hide SliceMap; hide Announced; hide Ascending; hide Has; hide Wanted;
    var slices := SliceMap(ge, a, a + n);
    EntriesApart(code, slices, w, plans);
    forall x | a <= x < a + n ensures Covered(ge, plans, x) { ByteCovered(ge, code, a, n, w, plans, x); }
    forall j | code.k <= j < code.k + code.r + code.z ensures Named(plans, j) {
      ParityNamed(code, slices, w, plans, j);
    }
    forall i | 0 <= i < |plans| ensures ClusterOk(code, slices, w, i, plans[i].entries) {
      ClusterIs(code, slices, w, i);
    }
    forall i, e | 0 <= i < |plans| && 0 <= e < |plans[i].entries|
      ensures HomeOf(code, i, plans[i].entries[e].block) && Meant(ge, code, a, n, w, plans[i].entries[e])
    {
      EntryMeant(ge, code, a, n, w, i, plans[i].entries[e]);
    }
  }

  /** generateAppendPlan. */
  method GenerateAppendPlan(ge: Geometry, code: Code, blockSize: nat, mode: Mode, a: nat, n: nat)
    returns (plans: seq<Plan>)
    requires ge.Ok() && code.z >= 1 && code.k == ge.k && a + n <= code.k * blockSize
    ensures |plans| == code.z
    ensures forall i :: 0 <= i < code.z ==>
      PlanOk(code, SliceMap(ge, a, a + n), ParityWindow(ge, mode, a, n), i, plans[i])
    ensures PlansWrite(ge, code, a, n, ParityWindow(ge, mode, a, n), plans)
    ensures forall i :: 0 <= i < code.z ==> plans[i].serialized == !(a == 0 && n == blockSize * code.k)
    ensures forall i :: 0 <= i < code.z ==> plans[i].mergeParity == (a != 0 && a + n == blockSize * code.k)
  {
    hide ParityWindow; hide ClusterPlan; hide Announced; hide SliceMap; hide PlansWrite;
    var w := CoordinatorWindow(ge, mode, a, n);
    var slices := PlanSlices(ge, a, n);
    WindowSize(ge, mode, a, n);
    var merge := a + n == blockSize * code.k;
    plans := [];
    for i := 0 to code.z
      invariant |plans| == i
      invariant forall e :: 0 <= e < i ==> PlanOk(code, slices, w, e, plans[e])
      invariant forall e :: 0 <= e < i ==> plans[e].serialized == !(a == 0 && n == blockSize * code.k)
      invariant forall e :: 0 <= e < i ==> plans[e].mergeParity == (a != 0 && merge)
    {
      var size := ClusterAppendSize(code, slices, i, w.size);
      var entries := PlanCluster(code, slices, w, i);
      var whole := a == 0 && n == blockSize * code.k;
      plans := plans + [Plan(i, size, merge && !whole, !whole, entries)];
    }
    PlansAre(ge, code, a, n, w, plans);
  }

  lemma {:induction false} WindowSize(ge: Geometry, mode: Mode, a: nat, n: nat)
    requires ge.Ok()
    ensures ParityWindow(ge, mode, a, n).size >= 0
  {
    hide ParityWindow;
    var m := a + n + 1;
    MulGe(m, Row(ge));
    if n >= 1 { WindowInside(ge, mode, a, n, m); } else { EmptyInside(ge, mode, a, m); }
  }

  // ------------------------------------------------------------------
  // The client.

  lemma {:induction false} SizesAdd(a: seq<Entry>, e: Entry)
    ensures Sizes(a + [e]) == Sizes(a) + [e.size] && Sizes([]) == []
  {}

  lemma {:induction false} SizesJoin(a: seq<Entry>, b: seq<Entry>)
    ensures Sizes(a + b) == Sizes(a) + Sizes(b)
  {}

  /** Appends the sizes of `count` parity slices. */
  method SplitParities(split0: seq<int>, lo: nat, hi: nat, paritySize: int, ghost w: Window) returns (split: seq<int>)
    requires lo <= hi && w.size == paritySize
    ensures split == split0 + Sizes(ParityEntries(w, lo, hi))
  {
    split := split0;
    for j := lo to hi
      invariant split == split0 + Sizes(ParityEntries(w, lo, j))
    {
      SizesAdd(ParityEntries(w, lo, j), Entry(j, w.size, w.offset));
      split := split + [paritySize];
    }
  }

  /** The sizes of cluster i, in the order the client splits its buffer, and how many
      of them are data. */
  method SplitCluster(code: Code, sizes: map<nat, nat>, paritySize: int, i: nat, ghost slices: map<nat, Slice>,
          ghost w: Window)
    returns (split: seq<int>, data: nat)
    requires code.z >= 1 && sizes == SizesOf(slices) && w.size == paritySize
    ensures split == Sizes(ClusterPlan(code, slices, w, i))
    ensures data == |DataEntries(slices, Cut(i, code.k, code.z), Cut(i + 1, code.k, code.z))|
  {
    hide Cut;
    CutMono(i, code.k, code.z);
    CutMono(i, code.r, code.z);
    CutMono(i, code.z, code.z);
    split, data := [], 0;
    ghost var lo := Cut(i, code.k, code.z);
    for j := Cut(i, code.k, code.z) to Cut(i + 1, code.k, code.z)
      invariant split == Sizes(DataEntries(slices, lo, j)) && data == |split|
    {
      if j in sizes {
        SizesAdd(DataEntries(slices, lo, j), Entry(j, slices[j].size, slices[j].offset));
        split := split + [sizes[j]];
        data := data + 1;
      }
    }
    ghost var a := DataEntries(slices, lo, Cut(i + 1, code.k, code.z));
    ghost var b := ParityEntries(w, code.k + Cut(i, code.r, code.z), code.k + Cut(i + 1, code.r, code.z));
    ghost var c := ParityEntries(w, code.k + code.r + Cut(i, code.z, code.z),
      code.k + code.r + Cut(i + 1, code.z, code.z));
    SizesJoin(a, b);
    SizesJoin(a + b, c);
    split := SplitParities(split, code.k + Cut(i, code.r, code.z), code.k + Cut(i + 1, code.r, code.z), paritySize, w);
    split := SplitParities(split, code.k + code.r + Cut(i, code.z, code.z),
      code.k + code.r + Cut(i + 1, code.z, code.z), paritySize, w);
  }

  /** get_append_slice_plans: the same slices, in the same order, as the plans. */
  method AppendSlicePlans(ge: Geometry, code: Code, mode: Mode, a: nat, n: nat)
    returns (split: seq<seq<int>>, data: seq<nat>, w: Window, start: nat)
    requires ge.Ok() && code.z >= 1 && code.k == ge.k
    ensures w == ParityWindow(ge, mode, a, n) && start == BlockOf(ge, a) && |split| == |data| == code.z
    ensures forall i :: 0 <= i < code.z ==> split[i] == Sizes(ClusterPlan(code, SliceMap(ge, a, a + n), w, i))
    ensures forall i :: 0 <= i < code.z ==>
      data[i] == |DataEntries(SliceMap(ge, a, a + n), Cut(i, code.k, code.z), Cut(i + 1, code.k, code.z))|
  {
    hide ParityWindow; hide ClusterPlan; hide SliceMap; hide Cut;
    start := BlockOf(ge, a);
    w := ClientWindow(ge, mode, a, n);
    var sizes := ClientSlices(ge, a, n);
    ghost var slices := SliceMap(ge, a, a + n);
    split, data := [], [];
    for i := 0 to code.z
      invariant |split| == |data| == i
      invariant forall e :: 0 <= e < i ==> split[e] == Sizes(ClusterPlan(code, slices, w, e))
      invariant forall e :: 0 <= e < i ==>
        data[e] == |DataEntries(slices, Cut(e, code.k, code.z), Cut(e + 1, code.k, code.z))|
    {
      var s, d := SplitCluster(code, sizes, w.size, i, slices, w);
      split, data := split + [s], data + [d];
    }
  }

  // ------------------------------------------------------------------
  // Announced sizes against planned sizes.

  lemma {:induction false} SizeSumJoin(a: seq<Entry>, b: seq<Entry>)
    ensures SizeSum(a + b) == SizeSum(a) + SizeSum(b)
  {
    if b == [] {
      assert a + b == a;
    } else {
      var n := |b| - 1;
      assert (a + b)[..|a| + n] == a + b[..n];
      SizeSumJoin(a, b[..n]);
    }
  }

  lemma {:induction false} SizeSumData(slices: map<nat, Slice>, lo: nat, hi: nat)
    ensures SizeSum(DataEntries(slices, lo, hi)) == DataSum(slices, lo, hi)
    decreases hi
  {
    if lo < hi {
      SizeSumData(slices, lo, hi - 1);
      var last := if hi - 1 in slices then [Entry(hi - 1, slices[hi - 1].size, slices[hi - 1].offset)] else [];
      SizeSumJoin(DataEntries(slices, lo, hi - 1), last);
      assert last != [] ==> last[..0] == [];
    }
  }

  lemma {:induction false} SizeSumParity(w: Window, lo: nat, hi: nat)
    requires lo <= hi
    ensures SizeSum(ParityEntries(w, lo, hi)) == w.size * (hi - lo)
    decreases hi
  {
    if lo < hi {
      SizeSumParity(w, lo, hi - 1);
      SizeSumJoin(ParityEntries(w, lo, hi - 1), [Entry(hi - 1, w.size, w.offset)]);
      assert [Entry(hi - 1, w.size, w.offset)][..0] == [];
      assert w.size * (hi - lo) == w.size * (hi - 1 - lo) + w.size;
    }
  }

  lemma {:induction false} CutLocal(i: nat, z: nat)
    requires z >= 1
    ensures Cut(i, z, z) == i
  {
    DivIs(i * z, i, z);
  }

  /** What the plan of cluster i adds up to. */
  lemma {:induction false} PlanSum(code: Code, slices: map<nat, Slice>, w: Window, i: nat)
    requires code.z >= 1
    ensures SizeSum(ClusterPlan(code, slices, w, i)) ==
      DataSum(slices, Cut(i, code.k, code.z), Cut(i + 1, code.k, code.z))
      + w.size * (Cut(i + 1, code.r, code.z) - Cut(i, code.r, code.z) + 1)
  {
    hide Cut; hide SizeSum; hide DataEntries; hide ParityEntries; hide DataSum;
    CutMono(i, code.k, code.z);
    CutMono(i, code.r, code.z);
    CutLocal(i, code.z);
    CutLocal(i + 1, code.z);
    var a := DataEntries(slices, Cut(i, code.k, code.z), Cut(i + 1, code.k, code.z));
    var lo, hi := code.k + Cut(i, code.r, code.z), code.k + Cut(i + 1, code.r, code.z);
    var b, c := ParityEntries(w, lo, hi), ParityEntries(w, code.k + code.r + i, code.k + code.r + i + 1);
    SizeSumJoin(a + b, c);
    SizeSumJoin(a, b);
    SizeSumData(slices, Cut(i, code.k, code.z), Cut(i + 1, code.k, code.z));
    SizeSumParity(w, lo, hi);
    SizeSumParity(w, code.k + code.r + i, code.k + code.r + i + 1);
    assert w.size * (hi - lo + 1) == w.size * (hi - lo) + w.size;
  }

  lemma {:induction false} EvenCuts(r: nat, z: nat, i: nat)
    requires z >= 1 && r % z == 0
    ensures Cut(i, r, z) == i * (r / z)
  {
    assert r == r / z * z;
    assert i * r == (i * (r / z)) * z;
    DivIs(i * r, i * (r / z), z);
  }

  lemma {:induction false} ShareOf(ps: nat, r: nat, z: nat)
    requires z >= 1 && r % z == 0
    ensures ps * (r + z) / z == ps * (r / z + 1)
  {
    assert r + z == (r / z + 1) * z;
    assert ps * (r + z) == (ps * (r / z + 1)) * z;
    DivIs(ps * (r + z), ps * (r / z + 1), z);
  }

  /** When z divides r, every cluster announces what its plan adds up to. */
  lemma {:induction false} SizesAgree(code: Code, slices: map<nat, Slice>, w: Window, i: nat)
    requires code.z >= 1 && code.r % code.z == 0 && w.size >= 0
    ensures Announced(code, slices, w, i) == SizeSum(ClusterPlan(code, slices, w, i))
  {
    hide Cut; hide ClusterPlan; hide DataSum; hide SizeSum;
    PlanSum(code, slices, w, i);
    EvenCuts(code.r, code.z, i);
    EvenCuts(code.r, code.z, i + 1);
    ShareOf(w.size, code.r, code.z);
    assert (i + 1) * (code.r / code.z) == i * (code.r / code.z) + code.r / code.z;
  }

  /** Every cluster announces the bytes its plan has. */
  ghost predicate AllAgree(code: Code, slices: map<nat, Slice>, w: Window)
    requires code.z >= 1
  {
    forall i :: 0 <= i < code.z ==> Announced(code, slices, w, i) == SizeSum(ClusterPlan(code, slices, w, i))
  }

  /** The first i cuts are d apart. */
  lemma {:induction false} EqualCuts(code: Code, d: int, i: nat)
    requires code.z >= 1 && i <= code.z
    requires forall e :: 0 <= e < code.z ==> Cut(e + 1, code.r, code.z) - Cut(e, code.r, code.z) == d
    ensures Cut(i, code.r, code.z) == i * d
  {
    hide Cut;
    CutMono(0, code.r, code.z);
    if i > 0 {
      EqualCuts(code, d, i - 1);
      assert Cut(i - 1 + 1, code.r, code.z) - Cut(i - 1, code.r, code.z) == d;
      assert i * d == (i - 1) * d + d;
    }
  }

  /** And, for a non-empty window, only then. */
  lemma {:induction false} SizesAgreeOnly(code: Code, slices: map<nat, Slice>, w: Window)
    requires code.z >= 1 && w.size >= 1 && AllAgree(code, slices, w)
    ensures code.r % code.z == 0
  {
    hide Cut; hide ClusterPlan; hide DataSum; hide SizeSum;
    var d := Cut(1, code.r, code.z) - Cut(0, code.r, code.z);
    forall i | 0 <= i < code.z ensures Cut(i + 1, code.r, code.z) - Cut(i, code.r, code.z) == d {
      PlanSum(code, slices, w, i);
      PlanSum(code, slices, w, 0);
      assert Announced(code, slices, w, 0) == SizeSum(ClusterPlan(code, slices, w, 0));
      CancelLeft(w.size, Cut(i + 1, code.r, code.z) - Cut(i, code.r, code.z) + 1, d + 1);
    }
    EqualCuts(code, d, code.z);
    CutMono(0, code.r, code.z);
    assert code.r == d * code.z;
    DivIs(code.r, d, code.z);
  }

  /** With a non-empty parity window the announced sizes are right exactly if z divides r. */
  lemma {:induction false} SizesAgreeIff(code: Code, slices: map<nat, Slice>, w: Window)
    requires code.z >= 1 && w.size >= 1
    ensures AllAgree(code, slices, w) <==> code.r % code.z == 0
  {
    hide ClusterPlan; hide Announced; hide SizeSum;
    if AllAgree(code, slices, w) { SizesAgreeOnly(code, slices, w); }
    if code.r % code.z == 0 {
      forall i: nat | i < code.z ensures Announced(code, slices, w, i) == SizeSum(ClusterPlan(code, slices, w, i)) {
        SizesAgree(code, slices, w, i);
      }
    }
  }

  /** Three parities over two clusters: an append of one byte announces the wrong sizes. */
  lemma {:induction false} SizesMiss(ge: Geometry, mode: Mode)
    requires ge.Ok() && ge.k == 2
    ensures !AllAgree(Code(2, 3, 2), SliceMap(ge, 0, 1), ParityWindow(ge, mode, 0, 1))
  {
    hide AllAgree; hide ParityWindow; hide SliceMap;
    WindowCovers(ge, mode, 0, 1, 0);
    SizesAgreeIff(Code(2, 3, 2), SliceMap(ge, 0, 1), ParityWindow(ge, mode, 0, 1));
  }

  lemma {:induction false} CancelLeft(n: nat, a: int, b: int)
    requires n >= 1 && n * a == n * b
    ensures a == b
  {
    if a < b { MulMono(a + 1, b, n); }
    if b < a { MulMono(b + 1, a, n); }
  }

  // ------------------------------------------------------------------
  // The total.

  function AnnouncedSum(code: Code, slices: map<nat, Slice>, w: Window, n: nat): int
    requires code.z >= 1
  {
    if n == 0 then 0 else AnnouncedSum(code, slices, w, n - 1) + Announced(code, slices, w, n - 1)
  }

  lemma {:induction false} DataSumJoin(slices: map<nat, Slice>, lo: nat, mid: nat, hi: nat)
    requires lo <= mid <= hi
    ensures DataSum(slices, lo, hi) == DataSum(slices, lo, mid) + DataSum(slices, mid, hi)
    decreases hi
  {
    if mid < hi { DataSumJoin(slices, lo, mid, hi - 1); }
  }

  lemma {:induction false} NoData(slices: map<nat, Slice>)
    ensures DataSum(slices, 0, 0) == 0
  {}

  lemma {:induction false} AnnouncedSumIs(code: Code, slices: map<nat, Slice>, w: Window, n: nat)
    requires code.z >= 1 && n <= code.z
    ensures AnnouncedSum(code, slices, w, n) == DataSum(slices, 0, Cut(n, code.k, code.z)) + n * Share(code, w)
  {
    hide Cut; hide Share; hide DataSum;
    CutMono(0, code.k, code.z);
    if n > 0 {
      AnnouncedSumIs(code, slices, w, n - 1);
      CutMono(n - 1, code.k, code.z);
      DataSumJoin(slices, 0, Cut(n - 1, code.k, code.z), Cut(n, code.k, code.z));
      assert n * Share(code, w) == (n - 1) * Share(code, w) + Share(code, w);
    } else {
      NoData(slices);
    }
  }

  lemma {:induction false} DataSumFill(ge: Geometry, a: nat, b: nat, n: nat)
    requires ge.Ok() && n <= ge.k && a <= b
    ensures DataSum(SliceMap(ge, a, b), 0, n) == FillSum(ge, b, n) - FillSum(ge, a, n)
  {
    hide Fill;
    if n > 0 {
      DataSumFill(ge, a, b, n - 1);
      FillMono(ge, a, b, n - 1);
    }
  }

  /** All clusters together announce the appended bytes and a window per parity. */
  lemma {:induction false} TotalSize(ge: Geometry, code: Code, mode: Mode, a: nat, n: nat)
    requires ge.Ok() && code.z >= 1 && code.k == ge.k && code.r % code.z == 0
    ensures var w := ParityWindow(ge, mode, a, n);
      AnnouncedSum(code, SliceMap(ge, a, a + n), w, code.z) == n + w.size * (code.r + code.z)
  {
    var w, slices := ParityWindow(ge, mode, a, n), SliceMap(ge, a, a + n);
    WindowSize(ge, mode, a, n);
    hide Cut; hide ParityWindow; hide SliceMap; hide FillSum; hide DataSum;
    AnnouncedSumIs(code, slices, w, code.z);
    CutMono(0, code.k, code.z);
    DataSumFill(ge, a, a + n, ge.k);
    FillTotal(ge, a);
    FillTotal(ge, a + n);
    AllShares(w.size, code.r, code.z);
  }

  lemma {:induction false} AllShares(ps: nat, r: nat, z: nat)
    requires z >= 1 && r % z == 0
    ensures z * (ps * (r + z) / z) == ps * (r + z)
  {
    ShareOf(ps, r, z);
    var c := r / z;
    assert r + z == (c + 1) * z;
    assert z * (ps * (c + 1)) == ps * ((c + 1) * z);
  }
}
