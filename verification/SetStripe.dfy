/** Writing one stripe end to end: the coordinator's add plans
(project/src/coordinator.cpp) and the client's regions for them (project/src/client.cpp). */
module SetStripe {
  import opened Wrappers
  import opened Arith
  import opened SetLayout
  import opened SetCodes

  /** What one group's proxy is told: its cluster, the bytes it takes and its blocks in
      the order they come. */
  datatype AddPlan = AddPlan(cluster: nat, size: nat, blocks: seq<nat>)

  function ClusterOf(stripe: nat, clusters: nat, group: nat): nat
    requires clusters >= 1
  {
    (stripe % clusters + group) % clusters
  }

  // ------------------------------------------------------------------
  // group_to_blocks.

  ghost predicate Collected(groupOf: seq<int>, n: nat, groups: map<int, seq<nat>>) {
    && n <= |groupOf|
    && forall g ::
      (g in groups <==> Members(groupOf, g, n) != []) && (g in groups ==> groups[g] == Members(groupOf, g, n))
  }

  lemma {:induction false} CollectStep(groupOf: seq<int>, n: nat, groups: map<int, seq<nat>>)
    requires n < |groupOf| && Collected(groupOf, n, groups)
    ensures var g := groupOf[n];
      Collected(groupOf, n + 1, groups[g := (if g in groups then groups[g] else []) + [n]])
  {}

  method AssignGroups(code: Code, k: nat, r: nat, z: nat) returns (groups: map<int, seq<nat>>)
    requires Runs(code, k, r, z)
    ensures Collected(Groups(code, k, r, z), k + r + z, groups)
  {
    hide Collected;
    ghost var groupOf := Groups(code, k, r, z);
    groups := map[];
    assert Collected(groupOf, 0, groups) by { CollectNone(groupOf); }
    for b := 0 to k + r + z
      invariant Collected(groupOf, b, groups)
    {
      var g := MapGroup(code, k, r, z, b);
      CollectStep(groupOf, b, groups);
      ghost var before := groups;
      if g !in groups { groups := groups[g := []]; }
      groups := groups[g := groups[g] + [b]];
      assert groups == before[g := (if g in before then before[g] else []) + [b]];
    }
  }

  lemma {:induction false} CollectNone(groupOf: seq<int>)
    ensures Collected(groupOf, 0, map[])
  {}

  lemma {:induction false} MembersIn(groupOf: seq<int>, g: int, n: nat, e: nat)
    requires n <= |groupOf| && e < |Members(groupOf, g, n)|
    ensures Members(groupOf, g, n)[e] < n && groupOf[Members(groupOf, g, n)[e]] == g
  {
    if e < |Members(groupOf, g, n - 1)| { MembersIn(groupOf, g, n - 1, e); }
  }

  lemma {:induction false} HasMember(groupOf: seq<int>, n: nat, b: nat)
    requires b < n <= |groupOf|
    ensures b in Members(groupOf, groupOf[b], n)
  {
    if b < n - 1 { HasMember(groupOf, n - 1, b); }
  }

  // ------------------------------------------------------------------
  // The groups are numbered from nought without a gap.

  lemma {:induction false} GroupNat(code: Code, k: nat, r: nat, z: nat, b: nat)
    requires Runs(code, k, r, z) && b < k + r + z
    ensures MapGroup(code, k, r, z, b) >= 0
  {
    hide MapGroup; hide Placed; hide Trim;
    MapsToGroup(code, k, r, z, b);
  }

  /** A block of the group before: UniLRC and AzureLRC. */
  lemma {:induction false} WholeBefore(code: Code, k: nat, r: nat, z: nat, b: nat) returns (c: nat)
    requires Runs(code, k, r, z) && !code.OptimalLRC? && b < k + r + z && MapGroup(code, k, r, z, b) > 0
    ensures c < k + r + z && MapGroup(code, k, r, z, c) == MapGroup(code, k, r, z, b) - 1
  {
    Trimmed(code, k, r, z);
    DivIs(z, 1, z);
    if b < k {
      c := ShareBefore(b, k / z);
    } else if b < k + r && code.UniLRC? {
      TrimIs(r, z);
      c := ShareBefore(b - k, r / z);
      c := k + c;
    } else if b < k + r {
      c := k + r + z - 1;
    } else {
      c := b - 1;
    }
  }

  lemma {:induction false} ShareBefore(x: nat, a: nat) returns (y: nat)
    requires a >= 1 && x / a > 0
    ensures y < x && y / a == x / a - 1
  {
    assert x == x / a * a + x % a;
    assert (x / a - 1) * a == x / a * a - a;
    MulMono(1, x / a, a);
    y := x - a;
    DivIs(y, x / a - 1, a);
  }

  lemma {:induction false} SubgroupAt(q: nat, s: nat, a: nat, size: nat, per: nat)
    requires s < a && size >= 1
    ensures q * a >= 0 && Subgroup(q * a + s, a, size, per) == s / size + q * per
  {
    MulMono(0, q, a);
    DivIs(q * a + s, q, a);
  }

  /** The last data block before local group q. */
  lemma {:induction false} LastOf(q: nat, a: nat, size: nat, per: nat)
    requires q >= 1 && a >= 1 && size >= 1 && per >= 1 && (per - 1) * size < a <= per * size
    ensures q * a >= a && Subgroup(q * a - 1, a, size, per) == q * per - 1
  {
    hide Subgroup;
    SubgroupAt(q - 1, a - 1, a, size, per);
    assert (q - 1) * a == q * a - a && (q - 1) * per == q * per - per;
    MulMono(1, q, a);
    assert per * size == (per - 1) * size + size;
    DivIs(a - 1, per - 1, size);
  }

  /** A data block of the subgroup before. */
  lemma {:induction false} SubgroupBefore(x: nat, a: nat, size: nat, per: nat) returns (y: nat)
    requires a >= 1 && size >= 1 && per >= 1 && (per - 1) * size < a <= per * size && Subgroup(x, a, size, per) > 0
    ensures y < x && Subgroup(y, a, size, per) == Subgroup(x, a, size, per) - 1
  {
    hide Subgroup;
    var q, s := x / a, x % a;
    DivAtLeast(x, 0, a);
    assert x == q * a + s;
    SubgroupAt(q, s, a, size, per);
    if s / size > 0 {
      var t := ShareBefore(s, size);
      SubgroupAt(q, t, a, size, per);
      y := q * a + t;
    } else {
      DivAtLeast(s, 0, size);
      LastOf(q, a, size, per);
      y := q * a - 1;
    }
  }

  /** The local group's last subgroup but one, if it has two. */
  lemma {:induction false} InnerSubgroup(w: nat, k: nat, z: nat, size: nat, per: nat) returns (y: nat)
    requires z >= 1 && k / z >= 1 && size >= 1 && per >= 2 && (per - 1) * size < k / z && w < z
    ensures y < k && Subgroup(y, k / z, size, per) == (w + 1) * per - 2
  {
    hide Subgroup;
    var a := k / z;
    assert (per - 1) * size == (per - 2) * size + size;
    MulMono(0, per - 2, size);
    SubgroupAt(w, (per - 2) * size, a, size, per);
    y := w * a + (per - 2) * size;
    DivIs((per - 2) * size, per - 2, size);
    assert (w + 1) * a == w * a + a && (w + 1) * per == w * per + per;
    MulMono(w + 1, z, a);
    TrimIs(k, z);
  }

  /** OptimalLRC's groups, counted in subgroups. */
  lemma {:induction false} OptimalIs(k: nat, r: nat, z: nat, b: nat)
    requires Runs(OptimalLRC, k, r, z) && b < k + r + z
    ensures k / z >= 1 && MapGroup(OptimalLRC, k, r, z, b) == SplitGroup(k, r, z, r + 1, PerLocal(k / z, r), b)
  {
    hide PerLocal;
    TrimIs(k, z);
  }

  /** Likewise OptimalLRC. */
  lemma {:induction false} OptimalBefore(k: nat, r: nat, z: nat, b: nat) returns (c: nat)
    requires Runs(OptimalLRC, k, r, z) && b < k + r + z && MapGroup(OptimalLRC, k, r, z, b) > 0
    ensures c < k + r + z && MapGroup(OptimalLRC, k, r, z, c) == MapGroup(OptimalLRC, k, r, z, b) - 1
  {
    hide PerLocal; hide MapGroup;
    OptimalIs(k, r, z, b);
    PerLocalIs(k / z, r);
    c := SplitBefore(k, r, z, r + 1, PerLocal(k / z, r), b);
    OptimalIs(k, r, z, c);
  }

  lemma {:induction false} SplitBefore(k: nat, r: nat, z: nat, size: nat, per: nat, b: nat) returns (c: nat)
    requires z >= 1 && k / z >= 1 && size >= 1 && per >= 1 && (per - 1) * size < k / z <= per * size
    requires b < k + r + z && SplitGroup(k, r, z, size, per, b) > 0
    ensures c < k + r + z && SplitGroup(k, r, z, size, per, c) == SplitGroup(k, r, z, size, per, b) - 1
  {
    hide Subgroup;
    TrimIs(k, z);
    if b < k {
      c := SubgroupBefore(b, k / z, size, per);
    } else if b < k + r {
      LastOf(z, k / z, size, per);
      c := z * (k / z) - 1;
    } else if per == 1 {
      c := b - 1;
    } else {
      c := InnerSubgroup(b - k - r, k, z, size, per);
    }
  }

  lemma {:induction false} GroupBefore(code: Code, k: nat, r: nat, z: nat, g: int)
    requires Runs(code, k, r, z) && Members(Groups(code, k, r, z), g, k + r + z) != []
    ensures g >= 0 && (g > 0 ==> Members(Groups(code, k, r, z), g - 1, k + r + z) != [])
  {
    hide MapGroup; hide Members;
    var groupOf, n := Groups(code, k, r, z), k + r + z;
    MembersIn(groupOf, g, n, 0);
    var b := Members(groupOf, g, n)[0];
    GroupNat(code, k, r, z, b);
    if g > 0 {
      var c: nat;
      if code.OptimalLRC? { c := OptimalBefore(k, r, z, b); } else { c := WholeBefore(code, k, r, z, b); }
      HasMember(groupOf, n, c);
    }
  }

  function Below(n: nat): (s: set<int>)
    ensures |s| == n && forall g :: g in s <==> 0 <= g < n
  {
    if n == 0 then {} else Below(n - 1) + {n - 1}
  }

  ghost predicate Gapless(s: set<int>) {
    forall g :: g in s ==> g >= 0 && (g > 0 ==> g - 1 in s)
  }

  lemma {:induction false} AllBefore(s: set<int>, g: int, h: nat)
    requires Gapless(s) && g in s && h <= g
    ensures h in s
    decreases g - h
  {
    if h < g { AllBefore(s, g, h + 1); }
  }

  lemma {:induction false} SizeMono(s: set<int>, t: set<int>)
    requires s <= t
    ensures |s| <= |t| && (|s| == |t| ==> s == t)
  {
    assert t == s + (t - s);
  }

  lemma {:induction false} GaplessIs(s: set<int>)
    requires Gapless(s)
    ensures s == Below(|s|)
  {
    forall g | g in s ensures g in Below(|s|) {
      forall h | h in Below(g + 1) ensures h in s { AllBefore(s, g, h); }
      SizeMono(Below(g + 1), s);
    }
    SizeMono(s, Below(|s|));
  }

  /** num_groups counts the groups, and they are numbered from nought. */
  lemma {:induction false} GroupsCounted(code: Code, k: nat, r: nat, z: nat, groups: map<int, seq<nat>>)
    requires Runs(code, k, r, z) && Collected(Groups(code, k, r, z), k + r + z, groups)
    ensures forall g :: g in groups <==> 0 <= g < |groups|
  {
    hide Groups; hide Members;
    forall g | g in groups.Keys ensures g >= 0 && (g > 0 ==> g - 1 in groups.Keys) {
      assert Members(Groups(code, k, r, z), g, k + r + z) != [];
      GroupBefore(code, k, r, z, g);
    }
    GaplessIs(groups.Keys);
    assert |groups.Keys| == |groups|;
  }

  // ------------------------------------------------------------------
  // generate_add_plans.

  /** The plan of group g: its blocks, their bytes, their cluster. */
  ghost function PlanFor(groupOf: seq<int>, stripe: nat, clusters: nat, size: nat, g: nat): AddPlan
    requires clusters >= 1
  {
    var blocks := Members(groupOf, g, |groupOf|);
    AddPlan(ClusterOf(stripe, clusters, g), |blocks| * size, blocks)
  }

  ghost predicate PlansUpTo(groupOf: seq<int>, stripe: nat, clusters: nat, size: nat, plans: seq<AddPlan>) {
    clusters >= 1 && forall g :: 0 <= g < |plans| ==> plans[g] == PlanFor(groupOf, stripe, clusters, size, g)
  }

  /** A plan for each group that has a block, and none more. */
  ghost predicate PlansFor(groupOf: seq<int>, stripe: nat, clusters: nat, size: nat, plans: seq<AddPlan>) {
    && PlansUpTo(groupOf, stripe, clusters, size, plans)
    && forall g :: Members(groupOf, g, |groupOf|) != [] <==> 0 <= g < |plans|
  }

  lemma {:induction false} GroupList(groupOf: seq<int>, groups: map<int, seq<nat>>, g: nat)
    requires Collected(groupOf, |groupOf|, groups) && g in groups
    ensures groups[g] == Members(groupOf, g, |groupOf|) != []
    ensures groups[g][0] < |groupOf| && groupOf[groups[g][0]] == g
  {
    hide Members;
    MembersIn(groupOf, g, |groupOf|, 0);
  }

  method GenerateAddPlans(code: Code, k: nat, r: nat, z: nat, stripe: nat, clusters: nat, size: nat,
          groups: map<int, seq<nat>>)
    returns (plans: seq<AddPlan>)
    requires Runs(code, k, r, z) && clusters >= 1 && Collected(Groups(code, k, r, z), k + r + z, groups)
    ensures PlansFor(Groups(code, k, r, z), stripe, clusters, size, plans) && InTurn(stripe, clusters, plans)
  {
    hide MapGroup; hide Members; hide ClusterOf; hide Collected; hide InTurn;
    plans := [];
    GroupsCounted(code, k, r, z, groups);
    ghost var groupOf := Groups(code, k, r, z);
    var num := |groups|;
    for g := 0 to num
      invariant |plans| == g && PlansUpTo(groupOf, stripe, clusters, size, plans)
    {
      GroupList(groupOf, groups, g);
      var cluster := ClusterOf(stripe, clusters, MapGroup(code, k, r, z, groups[g][0]));
      plans := plans + [AddPlan(cluster, |groups[g]| * size, groups[g])];
    }
    MembersListed(groupOf, groups);
    PlansInTurn(groupOf, stripe, clusters, size, plans);
  }

  lemma {:induction false} MembersListed(groupOf: seq<int>, groups: map<int, seq<nat>>)
    requires Collected(groupOf, |groupOf|, groups)
    ensures forall g :: Members(groupOf, g, |groupOf|) != [] <==> g in groups
  {
    hide Members;
  }

  /** The first group goes to the stripe's own cluster and each next group one on. */
  ghost predicate InTurn(stripe: nat, clusters: nat, plans: seq<AddPlan>)
    requires clusters >= 1
  {
    && (plans != [] ==> plans[0].cluster == stripe % clusters)
    && forall g :: 0 <= g < |plans| - 1 ==> plans[g + 1].cluster == (plans[g].cluster + 1) % clusters
  }

  lemma {:induction false} PlansInTurn(groupOf: seq<int>, stripe: nat, clusters: nat, size: nat, plans: seq<AddPlan>)
    requires PlansUpTo(groupOf, stripe, clusters, size, plans)
    ensures InTurn(stripe, clusters, plans)
  {
    hide Members; hide ClusterOf;
    if plans != [] { NextCluster(stripe, clusters, 0); }
    forall g | 0 <= g < |plans| - 1 ensures plans[g + 1].cluster == (plans[g].cluster + 1) % clusters {
      NextCluster(stripe, clusters, g);
    }
  }

  lemma {:induction false} NextCluster(stripe: nat, clusters: nat, g: nat)
    requires clusters >= 1
    ensures ClusterOf(stripe, clusters, 0) == stripe % clusters
    ensures ClusterOf(stripe, clusters, g + 1) == (ClusterOf(stripe, clusters, g) + 1) % clusters
  {
    DivIs(stripe % clusters, 0, clusters);
    ModStep(stripe % clusters + g, clusters);
  }

  lemma {:induction false} ModStep(x: nat, m: nat)
    requires m >= 1
    ensures (x + 1) % m == (x % m + 1) % m
  {
    var q, t := x / m, x % m;
    assert x == q * m + t;
    if t + 1 < m {
      DivIs(x + 1, q, m);
      DivIs(t + 1, 0, m);
    } else {
      assert (q + 1) * m == q * m + m;
      DivIs(x + 1, q + 1, m);
      DivIs(t + 1, 1, m);
    }
  }

  /** The plans of consecutive stripes of one shape, from stripe `first` on. */
  ghost predicate Consecutive(groupOf: seq<int>, first: nat, clusters: nat, size: nat, all: seq<seq<AddPlan>>) {
    clusters >= 1 && forall i :: 0 <= i < |all| ==> PlansFor(groupOf, first + i, clusters, size, all[i])
  }

  /** Over as many stripes as there are clusters a group visits every cluster exactly once. */
  lemma {:induction false} GroupVisits(groupOf: seq<int>, first: nat, clusters: nat, size: nat,
          all: seq<seq<AddPlan>>, g: nat, c: nat)
    returns (i: nat)
    requires Consecutive(groupOf, first, clusters, size, all) && |all| == clusters && c < clusters
    requires g < |all[0]|
    ensures i < clusters && g < |all[i]| && all[i][g].cluster == c
    ensures forall j :: 0 <= j < clusters && g < |all[j]| && all[j][g].cluster == c ==> j == i
  {
    hide Members; hide ClusterOf;
    assert PlansFor(groupOf, first + 0, clusters, size, all[0]);
    i := Turn(first, clusters, g, c);
    assert PlansFor(groupOf, first + i, clusters, size, all[i]);
    assert Members(groupOf, g, |groupOf|) != [];
    forall j | 0 <= j < clusters && g < |all[j]| && all[j][g].cluster == c ensures j == i {
      assert PlansFor(groupOf, first + j, clusters, size, all[j]);
      if j < i { TurnsApart(first, clusters, g, j, i); } else if i < j { TurnsApart(first, clusters, g, i, j); }
    }
  }

  /** Moving on by a stripe is moving on by a group. */
  lemma {:induction false} StripeOn(stripe: nat, clusters: nat, g: nat)
    requires clusters >= 1
    ensures ClusterOf(stripe, clusters, g) == (stripe + g) % clusters
  {
    var q, t := stripe / clusters, (stripe % clusters + g) / clusters;
    var rest := (stripe % clusters + g) % clusters;
    assert stripe % clusters + g == t * clusters + rest;
    assert stripe + g == q * clusters + t * clusters + rest == (q + t) * clusters + rest;
    DivIs(stripe + g, q + t, clusters);
  }

  lemma {:induction false} Turn(first: nat, clusters: nat, g: nat, c: nat) returns (i: nat)
    requires c < clusters
    ensures i < clusters && ClusterOf(first + i, clusters, g) == c
  {
    hide ClusterOf;
    var q, t := (first + g) / clusters, (first + g) % clusters;
    assert first + g == q * clusters + t;
    i := if t <= c then c - t else c + clusters - t;
    StripeOn(first + i, clusters, g);
    assert (q + 1) * clusters == q * clusters + clusters;
    DivIs(first + i + g, if t <= c then q else q + 1, clusters);
  }

  lemma {:induction false} TurnsApart(first: nat, clusters: nat, g: nat, i: nat, j: nat)
    requires i < j < clusters
    ensures ClusterOf(first + i, clusters, g) != ClusterOf(first + j, clusters, g)
  {
    hide ClusterOf;
    StripeOn(first + i, clusters, g);
    StripeOn(first + j, clusters, g);
    var a, b := first + i + g, first + j + g;
    assert a == a / clusters * clusters + a % clusters && b == b / clusters * clusters + b % clusters;
    if a % clusters == b % clusters {
      var d := b / clusters - a / clusters;
      assert d * clusters == j - i;
      if d > 0 { MulMono(1, d, clusters); } else { MulMono(d, 0, clusters); }
    }
  }

  ghost predicate Planned(plans: seq<AddPlan>, b: nat) {
    exists g :: 0 <= g < |plans| && b in plans[g].blocks
  }

  /** No two groups share a cluster. */
  ghost predicate Apart(plans: seq<AddPlan>) {
    forall g, h :: 0 <= g < h < |plans| ==> plans[g].cluster != plans[h].cluster
  }

  /** The plans share out the blocks below n. */
  ghost predicate Partitioned(plans: seq<AddPlan>, n: nat) {
    && (forall b :: 0 <= b < n ==> Planned(plans, b))
    && (forall b, g, h :: 0 <= g < |plans| && 0 <= h < |plans| && b in plans[g].blocks && b in plans[h].blocks ==>
      g == h)
  }

  /** Every block is in exactly one plan. */
  lemma {:induction false} PlansPartition(groupOf: seq<int>, stripe: nat, clusters: nat, size: nat, plans: seq<AddPlan>)
    requires PlansFor(groupOf, stripe, clusters, size, plans)
    ensures Partitioned(plans, |groupOf|)
  {
    hide Members; hide ClusterOf;
    forall b | 0 <= b < |groupOf| ensures Planned(plans, b) {
      HasMember(groupOf, |groupOf|, b);
      assert b in plans[groupOf[b]].blocks;
    }
    forall b, g, h | 0 <= g < |plans| && 0 <= h < |plans| && b in plans[g].blocks && b in plans[h].blocks
      ensures g == h
    {
      PlannedFor(groupOf, stripe, clusters, size, plans, b, g);
      PlannedFor(groupOf, stripe, clusters, size, plans, b, h);
    }
  }

  lemma {:induction false} PlannedFor(groupOf: seq<int>, stripe: nat, clusters: nat, size: nat, plans: seq<AddPlan>,
          b: nat, g: nat)
    requires PlansUpTo(groupOf, stripe, clusters, size, plans) && g < |plans| && b in plans[g].blocks
    ensures b < |groupOf| && groupOf[b] == g
  {
    hide Members; hide ClusterOf;
    var e :| 0 <= e < |plans[g].blocks| && plans[g].blocks[e] == b;
    MembersIn(groupOf, g, |groupOf|, e);
  }

  lemma {:induction false} ClustersApart(stripe: nat, clusters: nat, g: nat, h: nat)
    requires g < h < clusters
    ensures ClusterOf(stripe, clusters, g) != ClusterOf(stripe, clusters, h)
  {
    var t := stripe % clusters;
    var q, p := (t + g) / clusters, (t + h) / clusters;
    assert t + g == q * clusters + (t + g) % clusters && t + h == p * clusters + (t + h) % clusters;
    if (t + g) % clusters == (t + h) % clusters {
      assert (p - q) * clusters == h - g;
      if p > q { MulMono(1, p - q, clusters); } else { MulMono(p - q, 0, clusters); }
    }
  }

  /** Groups keep to clusters of their own exactly if there are as many clusters as groups. */
  lemma {:induction false} ApartIff(groupOf: seq<int>, stripe: nat, clusters: nat, size: nat, plans: seq<AddPlan>)
    requires PlansFor(groupOf, stripe, clusters, size, plans)
    ensures Apart(plans) <==> |plans| <= clusters
  {
    hide Members; hide ClusterOf;
    if |plans| <= clusters {
      forall g, h | 0 <= g < h < |plans| ensures plans[g].cluster != plans[h].cluster {
        ClustersApart(stripe, clusters, g, h);
      }
    } else {
      WrapsRound(stripe, clusters);
      assert plans[0].cluster == plans[clusters].cluster;
    }
  }

  lemma {:induction false} WrapsRound(stripe: nat, clusters: nat)
    requires clusters >= 1
    ensures ClusterOf(stripe, clusters, 0) == ClusterOf(stripe, clusters, clusters)
  {
    var t := stripe % clusters;
    DivIs(t, 0, clusters);
    DivIs(t + clusters, 1, clusters);
  }

  // ------------------------------------------------------------------
  // The groups that hold something.

  function NumGroups(code: Code, k: nat, r: nat, z: nat): nat
    requires ShapeOk(code, k, r, z)
  {
    Exact(k, z);
    match code
    case UniLRC => z
    case AzureLRC => z + if r == 0 then 0 else 1
    case OptimalLRC => z * PerLocal(k / z, r) + if r == 0 then 0 else 1
  }

  lemma {:induction false} GroupSize(lay: Layout, g: nat)
    requires LayoutOk(lay) && g < lay.Groups()
    ensures |lay.data| == |lay.globals| == |lay.locals|
    ensures |Blocks(lay, g, lay.N())| == Count(lay.data, g) + Count(lay.globals, g) + Count(lay.locals, g)
  {
    hide LayoutOk; hide Blocks;
    GroupBounds(lay, g);
    WholeGroup(lay, g);
  }

  /** A subgroup holds data; the last group holds the global parities. */
  lemma {:induction false} SplitFilled(k: nat, r: nat, z: nat, size: nat, per: nat, g: nat)
    requires z >= 1 && k % z == 0 && per >= 1 && size >= 1 && (per - 1) * size < k / z && g <= z * per
    ensures var lay := SplitLayout(k, r, z, size, per);
      && LayoutOk(lay) && lay.Groups() == z * per + 1
      && (Blocks(lay, g, lay.N()) != [] <==> g < z * per || r > 0)
      && (g < z * per ==> |Blocks(lay, g, lay.N())| == SplitCount(z, k / z, size, per, g) + EndOf(per, g))
  {
    hide Cut; hide CutsOk; hide Blocks; hide LayoutOk; hide SplitCuts; hide LastCuts;
    var lay := SplitLayout(k, r, z, size, per);
    SplitOk(k, r, z, size, per);
    GroupSize(lay, g);
    SplitCutsOk(z, k / z, size, per);
    SplitLocals(z, per);
    LastCount(z * per, r);
  }

  lemma {:induction false} EvenFilled(k: nat, r: nat, z: nat, g: nat)
    requires z >= 1 && k % z == 0 && r % z == 0 && g < z
    ensures var lay := EvenLayout(k, r, z); LayoutOk(lay) && lay.Groups() == z && Blocks(lay, g, lay.N()) != []
  {
    hide CutsOk; hide Blocks; hide LayoutOk; hide EvenCuts;
    var lay := EvenLayout(k, r, z);
    EvenOk(k, r, z);
    GroupSize(lay, g);
    EvenCutsOk(z, 1);
    GroupBounds(lay, g);
  }

  lemma {:induction false} Filled(code: Code, k: nat, r: nat, z: nat, g: nat)
    requires ShapeOk(code, k, r, z) && g < Placed(code, k, r, z).Groups()
    ensures LayoutOk(Placed(code, k, r, z)) && NumGroups(code, k, r, z) <= Placed(code, k, r, z).Groups()
    ensures Blocks(Placed(code, k, r, z), g, k + r + z) != [] <==> g < NumGroups(code, k, r, z)
  {
    hide Blocks; hide LayoutOk; hide PerLocal; hide EvenCuts; hide SplitCuts; hide LastCuts;
    Exact(k, z);
    match code {
      case UniLRC => EvenFilled(k, r, z, g);
      case AzureLRC => SplitFilled(k, r, z, k / z, 1, g);
      case OptimalLRC =>
        PerLocalIs(k / z, r);
        SplitFilled(k, r, z, r + 1, PerLocal(k / z, r), g);
    }
  }

  // ------------------------------------------------------------------
  // The plans of a stripe of equal shares.

  lemma {:induction false} NoMembers(groupOf: seq<int>, g: int, n: nat)
    requires n <= |groupOf| && forall b :: 0 <= b < n ==> groupOf[b] != g
    ensures Members(groupOf, g, n) == []
  {
    if n > 0 { NoMembers(groupOf, g, n - 1); }
  }

  lemma {:induction false} GroupIn(code: Code, k: nat, r: nat, z: nat, b: nat)
    requires ShapeOk(code, k, r, z) && b < k + r + z
    ensures 0 <= MapGroup(code, k, r, z, b) < Placed(code, k, r, z).Groups()
  {
    hide MapGroup; hide Placed;
    AlignedGroup(code, k, r, z, b);
  }

  /** Of the groups, the first num hold something, and it is what the layout says. */
  ghost predicate ListOk(lay: Layout, num: nat, groupOf: seq<int>, g: int) {
    && LayoutOk(lay) && num <= lay.Groups() && |groupOf| == lay.N()
    && (Members(groupOf, g, lay.N()) != [] <==> 0 <= g < num)
    && (0 <= g < num ==> Members(groupOf, g, lay.N()) == Blocks(lay, g, lay.N()))
  }

  /** The coordinator's list of group g. */
  lemma {:induction false} ListIs(code: Code, k: nat, r: nat, z: nat, g: int)
    requires ShapeOk(code, k, r, z)
    ensures ListOk(Placed(code, k, r, z), NumGroups(code, k, r, z), Groups(code, k, r, z), g)
  {
    hide MapGroup; hide Placed; hide Blocks; hide Follows; hide NumGroups; hide LayoutOk; hide Groups;
    var lay, groupOf := Placed(code, k, r, z), Groups(code, k, r, z);
    GroupsFollow(code, k, r, z);
    PlacedShape(code, k, r, z);
    GroupIn(code, k, r, z, 0);
    Filled(code, k, r, z, 0);
    if 0 <= g < lay.Groups() {
      MembersAre(lay, groupOf, g, lay.N());
      Filled(code, k, r, z, g);
    } else {
      forall b | 0 <= b < k + r + z ensures groupOf[b] != g {
        GroupIn(code, k, r, z, b);
      }
      NoMembers(groupOf, g, k + r + z);
    }
  }

  /** The plan of group g: its blocks, their bytes, their cluster. */
  ghost function PlanOf(lay: Layout, stripe: nat, clusters: nat, size: nat, g: nat): AddPlan
    requires LayoutOk(lay) && clusters >= 1 && g < lay.Groups()
  {
    var blocks := Blocks(lay, g, lay.N());
    AddPlan(ClusterOf(stripe, clusters, g), |blocks| * size, blocks)
  }

  /** The plans of the first n groups. */
  ghost predicate PlansOk(lay: Layout, stripe: nat, clusters: nat, size: nat, n: nat, plans: seq<AddPlan>) {
    && LayoutOk(lay) && clusters >= 1 && |plans| == n <= lay.Groups()
    && forall g :: 0 <= g < |plans| ==> plans[g] == PlanOf(lay, stripe, clusters, size, g)
  }

  /** A stripe of equal shares has the plans of its layout. */
  lemma {:induction false} AlignedPlans(code: Code, k: nat, r: nat, z: nat, stripe: nat, clusters: nat, size: nat,
          plans: seq<AddPlan>)
    requires ShapeOk(code, k, r, z) && PlansFor(Groups(code, k, r, z), stripe, clusters, size, plans)
    ensures PlansOk(Placed(code, k, r, z), stripe, clusters, size, NumGroups(code, k, r, z), plans)
  {
    hide Members; hide ClusterOf; hide Placed; hide NumGroups; hide Blocks; hide LayoutOk; hide Groups;
    var num := NumGroups(code, k, r, z);
    ListIs(code, k, r, z, 0);
    ListIs(code, k, r, z, |plans|);
    ListIs(code, k, r, z, num);
    forall g | 0 <= g < |plans| ensures plans[g] == PlanOf(Placed(code, k, r, z), stripe, clusters, size, g) {
      ListIs(code, k, r, z, g);
    }
  }

  // ------------------------------------------------------------------
  // The client's regions.

  /** The one shape the client miscounts: subgroups with nothing left over. */
  predicate Miscounted(code: Code, k: nat, r: nat, z: nat)
    requires ShapeOk(code, k, r, z)
  {
    code.OptimalLRC? && k / z % (r + 1) == 0
  }

  ghost predicate SizesAgree(lay: Layout, size: nat, sizes: seq<nat>) {
    LayoutOk(lay) && SizesFit(size, sizes, Counts(lay.data), Counts(lay.globals), Counts(lay.locals))
  }

  function Sizes(plans: seq<AddPlan>): (sizes: seq<nat>)
    ensures |sizes| == |plans| && forall g :: 0 <= g < |plans| ==> sizes[g] == plans[g].size
  {
    seq(|plans|, g requires 0 <= g < |plans| => plans[g].size)
  }

  lemma {:induction false} AgreesAt(lay: Layout, size: nat, sizes: seq<nat>, g: nat)
    requires SizesAgree(lay, size, sizes) && g < |sizes|
    ensures |sizes| < |lay.data| == |lay.globals| == |lay.locals|
    ensures sizes[g] == (Count(lay.data, g) + Count(lay.globals, g) + Count(lay.locals, g)) * size
  {
    Starts(lay);
    assert SizeAgrees(size, sizes, Counts(lay.data), Counts(lay.globals), Counts(lay.locals), g);
  }

  lemma {:induction false} OwnSizesAgree(lay: Layout, stripe: nat, clusters: nat, size: nat, n: nat,
          plans: seq<AddPlan>)
    requires PlansOk(lay, stripe, clusters, size, n, plans)
    ensures SizesAgree(lay, size, Sizes(plans))
  {
    hide Blocks; hide LayoutOk;
    var sizes := Sizes(plans);
    Starts(lay);
    forall g | 0 <= g < n
      ensures sizes[g] == (Counts(lay.data)[g] + Counts(lay.globals)[g] + Counts(lay.locals)[g]) * size
    {
      GroupSize(lay, g);
    }
  }

  lemma {:induction false} LayoutsAgree(code: Code, k: nat, r: nat, z: nat)
    requires ShapeOk(code, k, r, z) && !Miscounted(code, k, r, z)
    ensures Placed(code, k, r, z) == Expected(code, k, r, z)
  {
    hide EvenCuts; hide SplitCuts; hide LastCuts; hide Trim;
    Trimmed(code, k, r, z);
  }

  /** The last subgroup of the first local group: one block more than the client thinks. */
  lemma {:induction false} OneMore(k: nat, r: nat, z: nat)
    requires ShapeOk(OptimalLRC, k, r, z) && Miscounted(OptimalLRC, k, r, z)
    ensures var lay, lay', g := Placed(OptimalLRC, k, r, z), Expected(OptimalLRC, k, r, z), k / z / (r + 1) - 1;
      && 0 <= g < NumGroups(OptimalLRC, k, r, z) <= lay.Groups() && LayoutOk(lay) && |Blocks(lay, g, lay.N())| == r + 2
      && LayoutOk(lay') && NumGroups(OptimalLRC, k, r, z) <= lay'.Groups()
      && |lay'.data| == |lay'.globals| == |lay'.locals|
      && Count(lay'.data, g) + Count(lay'.globals, g) + Count(lay'.locals, g) == r + 1
  {
    hide Cut; hide CutsOk; hide Blocks; hide LayoutOk; hide SplitCuts; hide LastCuts; hide Trim;
    Exact(k, z);
    TrimIs(k, z);
    var a, size := k / z, r + 1;
    var per := a / size;
    var g := per - 1;
    PerLocalIs(a, r);
    MulMono(1, z, per);
    DivIs(per, 1, per);
    assert (per - 1) * size == per * size - size;
    SplitFilled(k, r, z, size, per, g);
    DivIs(per, 0, per + 1);
    assert z * (per + 1) == z * per + z;
    SplitOk(k, r, z, size, per + 1);
    SplitCutsOk(z, a, size, per + 1);
    SplitLocals(z, per + 1);
    LastCount(z * (per + 1), r);
  }

  lemma {:induction false} AlignedAgree(code: Code, k: nat, r: nat, z: nat, stripe: nat, clusters: nat, size: nat,
          plans: seq<AddPlan>)
    requires ShapeOk(code, k, r, z) && size >= 1
    requires PlansOk(Placed(code, k, r, z), stripe, clusters, size, NumGroups(code, k, r, z), plans)
    ensures SizesAgree(Expected(code, k, r, z), size, Sizes(plans)) <==> !Miscounted(code, k, r, z)
  {
    hide Placed; hide Expected; hide Blocks; hide LayoutOk; hide NumGroups; hide SizesAgree;
    if Miscounted(code, k, r, z) {
      OneMore(k, r, z);
      ghost var g := k / z / (r + 1) - 1;
      assert Sizes(plans)[g] == (r + 1) * size + size;
      if SizesAgree(Expected(code, k, r, z), size,
        Sizes(plans)) { AgreesAt(Expected(code, k, r, z), size, Sizes(plans), g); }
    } else {
      LayoutsAgree(code, k, r, z);
      OwnSizesAgree(Placed(code, k, r, z), stripe, clusters, size, NumGroups(code, k, r, z), plans);
    }
  }

  /** The blocks below n in the groups below m. */
  ghost function Held(groupOf: seq<int>, m: nat, n: nat): nat
    requires n <= |groupOf|
  {
    if m == 0 then 0 else Held(groupOf, m - 1, n) + |Members(groupOf, m - 1, n)|
  }

  lemma {:induction false} HeldStep(groupOf: seq<int>, m: nat, n: nat)
    requires n < |groupOf|
    ensures Held(groupOf, m, n + 1) == Held(groupOf, m, n) + if 0 <= groupOf[n] < m then 1 else 0
  {
    if m > 0 { HeldStep(groupOf, m - 1, n); }
  }

  lemma {:induction false} HeldNone(groupOf: seq<int>, m: nat)
    ensures Held(groupOf, m, 0) == 0
  {
    if m > 0 { HeldNone(groupOf, m - 1); }
  }

  lemma {:induction false} HeldAll(groupOf: seq<int>, m: nat, n: nat)
    requires n <= |groupOf| && forall b :: 0 <= b < n ==> 0 <= groupOf[b] < m
    ensures Held(groupOf, m, n) == n
  {
    if n == 0 {
      HeldNone(groupOf, m);
    } else {
      HeldAll(groupOf, m, n - 1);
      HeldStep(groupOf, m, n - 1);
    }
  }

  lemma {:induction false} Cancel(x: int, y: int, m: nat)
    requires m >= 1 && x * m == y * m
    ensures x == y
  {
    if x < y { MulMono(x + 1, y, m); } else if y < x { MulMono(y + 1, x, m); }
  }

  /** Buffers the client's counts fill hold as many blocks as the client counts. */
  lemma {:induction false} HeldCounted(lay: Layout, groupOf: seq<int>, stripe: nat, clusters: nat, size: nat,
          plans: seq<AddPlan>, m: nat)
    requires PlansUpTo(groupOf, stripe, clusters, size, plans) && SizesAgree(lay, size, Sizes(plans)) && size >= 1
    requires m <= |plans|
    ensures m < |lay.data| == |lay.globals| == |lay.locals|
    ensures Held(groupOf, m, |groupOf|) == lay.data[m] + lay.globals[m] + lay.locals[m]
  {
    hide Members; hide ClusterOf; hide LayoutOk; hide SizesFit;
    Starts(lay);
    if m > 0 {
      HeldCounted(lay, groupOf, stripe, clusters, size, plans, m - 1);
      AgreesAt(lay, size, Sizes(plans), m - 1);
      Cancel(|Members(groupOf, m - 1, |groupOf|)|,
        Count(lay.data, m - 1) + Count(lay.globals, m - 1) + Count(lay.locals, m - 1), size);
    }
  }

  /** The client counts no more blocks than its layout has. */
  lemma {:induction false} CountsBound(lay: Layout, groupOf: seq<int>, stripe: nat, clusters: nat, size: nat,
          plans: seq<AddPlan>)
    requires PlansFor(groupOf, stripe, clusters, size, plans) && SizesAgree(lay, size, Sizes(plans)) && size >= 1
    ensures |groupOf| <= lay.N()
  {
    hide Members; hide ClusterOf; hide CutsOk; hide SizesFit;
    forall b | 0 <= b < |groupOf| ensures 0 <= groupOf[b] < |plans| { HasMember(groupOf, |groupOf|, b); }
    HeldAll(groupOf, |plans|, |groupOf|);
    HeldCounted(lay, groupOf, stripe, clusters, size, plans, |plans|);
    CutsMono(lay.data, lay.k, |plans|, |plans|);
    CutsMono(lay.globals, lay.r, |plans|, |plans|);
    CutsMono(lay.locals, lay.z, |plans|, |plans|);
  }

  /** The client's counts fill the coordinator's buffers exactly when the shares are equal
      and nothing is miscounted. */
  lemma {:induction false} SizesAgreeOnly(code: Code, k: nat, r: nat, z: nat, stripe: nat, clusters: nat, size: nat,
          plans: seq<AddPlan>)
    requires Runs(code, k, r, z) && size >= 1 && PlansFor(Groups(code, k, r, z), stripe, clusters, size, plans)
    ensures SizesAgree(Expected(code, k, r, z), size, Sizes(plans)) <==>
      ShapeOk(code, k, r, z) && !Miscounted(code, k, r, z)
  {
    hide Placed; hide Expected; hide NumGroups; hide SizesAgree; hide PlansFor; hide PlansOk; hide Trim; hide MapGroup;
    if ShapeOk(code, k, r, z) {
      AlignedPlans(code, k, r, z, stripe, clusters, size, plans);
      AlignedAgree(code, k, r, z, stripe, clusters, size, plans);
    } else if SizesAgree(Expected(code, k, r, z), size, Sizes(plans)) {
      Trimmed(code, k, r, z);
      ExpectedShape(code, k, r, z);
      CountsBound(Expected(code, k, r, z), Groups(code, k, r, z), stripe, clusters, size, plans);
    }
  }

  /** What a set gives: the p-th block of group g's plan lies in the p-th piece of group
      g's buffer. */
  ghost predicate Regions(lay: Layout, size: nat, plans: seq<AddPlan>, data: seq<Pointer>, globals: seq<Pointer>,
          locals: seq<Pointer>)
  {
    forall g, p :: 0 <= g < |plans| && 0 <= p < |plans[g].blocks| ==>
      PointerOf(lay, data, globals, locals, plans[g].blocks[p]) == Pointer(g, p * size)
  }

  lemma {:induction false} RegionsAre(lay: Layout, stripe: nat, clusters: nat, size: nat, n: nat, plans: seq<AddPlan>,
                                      data: seq<Pointer>, globals: seq<Pointer>, locals: seq<Pointer>)
    requires PlansOk(lay, stripe, clusters, size, n, plans) && Split(lay, size, n, data, globals, locals)
    ensures Regions(lay, size, plans, data, globals, locals)
  {
    hide LayoutOk; hide Blocks; hide GroupPointers; hide PointerOf;
    forall g, p | 0 <= g < |plans| && 0 <= p < |plans[g].blocks|
      ensures PointerOf(lay, data, globals, locals, plans[g].blocks[p]) == Pointer(g, p * size)
    {
      RegionsAgree(lay, size, g, data, globals, locals, p);
    }
  }

  /** Writing a stripe of a set: the coordinator plans it and the client cuts its buffer.
      The cut succeeds exactly if the shares are equal and not miscounted, and then each
      block's region is the one its group's plan sends it from. */
  method SetStripe(code: Code, k: nat, r: nat, z: nat, stripe: nat, clusters: nat, size: nat)
    returns (plans: seq<AddPlan>, ptrs: Option<(seq<Pointer>, seq<Pointer>, seq<Pointer>)>)
    requires Runs(code, k, r, z) && size >= 1 && clusters >= 1
    ensures PlansFor(Groups(code, k, r, z), stripe, clusters, size, plans)
    ensures InTurn(stripe, clusters, plans) && Partitioned(plans, k + r + z)
    ensures Apart(plans) <==> |plans| <= clusters
    ensures ptrs.Some? <==> ShapeOk(code, k, r, z) && !Miscounted(code, k, r, z)
    ensures ptrs.Some? ==> |plans| == NumGroups(code, k, r, z)
    ensures ptrs.Some? ==> Regions(Placed(code, k, r, z), size, plans, ptrs.value.0, ptrs.value.1, ptrs.value.2)
  {
    hide Placed; hide Expected; hide NumGroups; hide LayoutOk; hide Blocks; hide Collected; hide Split; hide Regions;
    hide MapGroup; hide SizesFit; hide ClusterOf; hide Miscounted; hide Partitioned; hide Apart; hide PlansFor;
    hide InTurn;
    hide Trim;
    var groups := AssignGroups(code, k, r, z);
    plans := GenerateAddPlans(code, k, r, z, stripe, clusters, size, groups);
    ghost var groupOf, lay := Groups(code, k, r, z), Expected(code, k, r, z);
    ExpectedOk(code, k, r, z);
    SizesAgreeOnly(code, k, r, z, stripe, clusters, size, plans);
    var dataNum := DataCounts(code, k, r, z);
    var globalNum := GlobalCounts(code, k, r, z);
    var localNum := LocalCounts(code, k, r, z);
    ptrs := SplitForSet(lay, size, Sizes(plans), dataNum, globalNum, localNum);
    if ptrs.Some? {
      LayoutsAgree(code, k, r, z);
      AlignedPlans(code, k, r, z, stripe, clusters, size, plans);
      RegionsAre(lay, stripe, clusters, size, |plans|, plans, ptrs.value.0, ptrs.value.1, ptrs.value.2);
    }
    PlansPartition(groupOf, stripe, clusters, size, plans);
    ApartIff(groupOf, stripe, clusters, size, plans);
  }

  /** With k = 4, r = 1, z = 2 the client looks for four groups of data where the
      coordinator made two, and gives up on the first. */
  lemma {:induction false} MiscountedShape()
    ensures ShapeOk(OptimalLRC, 4, 1, 2) && Miscounted(OptimalLRC, 4, 1, 2)
    ensures NumGroups(OptimalLRC, 4, 1, 2) == 3 && Expected(OptimalLRC, 4, 1, 2).Groups() == 5
  {
    assert 4 / 2 == 2 && 2 / 2 == 1 && 2 % 2 == 0;
  }

  /** With k = 5, r = 2, z = 2 AzureLRC's fifth data block joins the global parities, where
      the client looks for no data. */
  lemma {:induction false} UnevenShape()
    ensures Runs(AzureLRC, 5, 2, 2) && !ShapeOk(AzureLRC, 5, 2, 2)
    ensures MapGroup(AzureLRC, 5, 2, 2, 4) == MapGroup(AzureLRC, 5, 2, 2, 5) == 2
    ensures Expected(AzureLRC, 5, 2, 2).Groups() == 3 && Count(Expected(AzureLRC, 5, 2, 2).data, 2) == 0
  {
    hide SplitCuts;
    assert 5 / 2 == 2 && 5 % 2 == 1 && 4 / 2 == 2;
    ExpectedIs(AzureLRC, 5, 2, 2);
    SplitCutsOk(2, 2, 2, 1);
  }
}
