/** The rotated gLRC placement (project/src/coordinator.cpp,
project/src/glrc_repair_ilp.cpp, project/src/unilrc_encoder.cpp). */
module GlrcPlacement {
  import opened Arith
  import opened Sums

  /** k data blocks, r global parities and z groups, each with a local parity. */
  datatype Code = Code(k: nat, r: nat, z: nat) {
    function Payload(): nat { k + r }
    function N(): nat { k + r + z }
  }

  /** Payload blocks of a group: the last groups take one more. */
  function PayloadIn(code: Code, g: int): nat {
    if code.z <= 0 || g < 0 || g >= code.z then 0
    else
      var base, larger := code.Payload() / code.z, code.Payload() % code.z;
      base + if larger > 0 && g >= code.z - larger then 1 else 0
  }

  /** The group of a payload block. */
  function PayloadGroup(code: Code, index: int): int {
    if code.z <= 1 || code.Payload() <= 0 || index < 0 then 0
    else if index >= code.Payload() then code.z - 1
    else
      var base, larger := code.Payload() / code.z, code.Payload() % code.z;
      var smaller := code.z - larger;
      if base > 0 && index < smaller * base then index / base
      else smaller + (index - smaller * base) / (base + 1)
  }

  /** Payload blocks in the first g groups. */
  function StartOf(code: Code, g: nat): nat
    requires code.z >= 1
  {
    var base, smaller := code.Payload() / code.z, code.z - code.Payload() % code.z;
    g * base + if g > smaller then g - smaller else 0
  }

  lemma {:induction false} StartStep(code: Code, g: nat)
    requires g < code.z
    ensures StartOf(code, g + 1) == StartOf(code, g) + PayloadIn(code, g)
  {
    var base := code.Payload() / code.z;
    assert (g + 1) * base == g * base + base;
  }

  lemma {:induction false} StartEnds(code: Code)
    requires code.z >= 1
    ensures StartOf(code, 0) == 0 && StartOf(code, code.z) == code.Payload()
  {
    var base := code.Payload() / code.z;
    assert code.Payload() == code.z * base + code.Payload() % code.z;
  }

  /** Later groups are never smaller, and no two differ by more than one. */
  lemma {:induction false} GroupsEven(code: Code, g: nat, h: nat)
    requires g <= h < code.z
    ensures PayloadIn(code, g) <= PayloadIn(code, h) <= PayloadIn(code, g) + 1
    ensures code.z * PayloadIn(code, g) <= code.Payload() + code.z - 1
  {
    var base := code.Payload() / code.z;
    assert code.Payload() == code.z * base + code.Payload() % code.z;
    assert code.z * (base + 1) == code.z * base + code.z;
  }

  /** A payload block is of the group whose range it falls in. */
  lemma {:induction false} GroupsAgree(code: Code, g: nat, index: nat)
    requires g < code.z && StartOf(code, g) <= index < StartOf(code, g + 1) && index < code.Payload()
    ensures PayloadGroup(code, index) == g
  {
    var base, smaller := code.Payload() / code.z, code.z - code.Payload() % code.z;
    if g < smaller { SmallGroup(base, smaller, g, index); } else { LargeGroup(base, smaller, g, index); }
  }

  lemma {:induction false} SmallGroup(base: nat, smaller: nat, g: nat, index: nat)
    requires g < smaller && g * base <= index < (g + 1) * base
    ensures base > 0 && index < smaller * base && index / base == g
  {
    assert (g + 1) * base == g * base + base;
    MulMono(g + 1, smaller, base);
    DivIs(index, g, base);
  }

  lemma {:induction false} LargeGroup(base: nat, smaller: nat, g: nat, index: nat)
    requires smaller <= g && g * base + g - smaller <= index < (g + 1) * base + g + 1 - smaller
    ensures index >= smaller * base && smaller + (index - smaller * base) / (base + 1) == g
  {
    var d := g - smaller;
    assert g * base == smaller * base + d * base && (g + 1) * base == g * base + base;
    assert d * (base + 1) == d * base + d;
    MulMono(smaller, g, base);
    DivIs(index - smaller * base, d, base + 1);
  }

  /** Payload blocks lo .. lo + n - 1. */
  function Range(lo: nat, n: nat): (r: seq<nat>)
    ensures |r| == n && forall e :: 0 <= e < n ==> r[e] == lo + e
  {
    seq(n, e => lo + e)
  }

  /** The ring order of the first g groups: payload, then the local parity. */
  function Ring(code: Code, g: nat): (r: seq<nat>)
    requires g <= code.z && code.z >= 1
    ensures |r| == StartOf(code, g) + g
  {
    if g == 0 then StartEnds(code); []
    else
      StartStep(code, g - 1);
      Ring(code, g - 1) + Range(StartOf(code, g - 1), PayloadIn(code, g - 1)) + [code.Payload() + g - 1]
  }

  lemma {:induction false} StartBelow(code: Code, g: nat)
    requires g <= code.z && code.z >= 1
    ensures StartOf(code, g) <= code.Payload()
    decreases code.z - g
  {
    hide StartOf; hide PayloadIn;
    if g == code.z {
      StartEnds(code);
    } else {
      StartStep(code, g);
      StartBelow(code, g + 1);
    }
  }

  /** It lists each of its blocks once. */
  lemma {:induction false} RingLists(code: Code, g: nat)
    requires g <= code.z && code.z >= 1
    ensures forall b: nat :: b in Ring(code, g) <==> b < StartOf(code, g) || code.Payload() <= b < code.Payload() + g
    ensures forall i, j :: 0 <= i < j < |Ring(code, g)| ==> Ring(code, g)[i] != Ring(code, g)[j]
  {
    hide StartOf; hide PayloadIn;
    StartEnds(code);
    StartBelow(code, g);
    if g > 0 {
      RingLists(code, g - 1);
      StartStep(code, g - 1);
      var a, b, c := Ring(code, g - 1), Range(StartOf(code, g - 1), PayloadIn(code, g - 1)), [code.Payload() + g - 1];
      var r := Ring(code, g);
      assert r == a + b + c;
      forall x: nat ensures x in b <==> StartOf(code, g - 1) <= x < StartOf(code, g) {
        if StartOf(code, g - 1) <= x < StartOf(code, g) { assert b[x - StartOf(code, g - 1)] == x; }
      }
      forall i, j | 0 <= i < j < |r| ensures r[i] != r[j] {
        assert i < |a| ==> r[i] in a;
        assert j < |a| ==> r[j] in a;
      }
    }
  }

  // ------------------------------------------------------------------
  // Building the ring.

  function GroupList(code: Code, g: nat): seq<nat>
    requires g < code.z
  {
    Range(StartOf(code, g), PayloadIn(code, g)) + [code.Payload() + g]
  }

  /** glrc_build_placement_groups. */
  method BuildPlacementGroups(code: Code) returns (groups: seq<seq<nat>>)
    requires code.z >= 1
    ensures |groups| == code.z && forall g :: 0 <= g < code.z ==> groups[g] == GroupList(code, g)
  {
    hide StartOf; hide PayloadIn;
    groups := [];
    var block := 0;
    StartEnds(code);
    for g := 0 to code.z
      invariant |groups| == g && block == StartOf(code, g) && forall e :: 0 <= e < g ==> groups[e] == GroupList(code, e)
    {
      StartStep(code, g);
      var count := PayloadIn(code, g);
      var group: seq<nat> := [];
      for j := 0 to count
        invariant group == Range(StartOf(code, g), j) && block == StartOf(code, g) + j
      {
        group := group + [block];
        block := block + 1;
      }
      groups := groups + [group + [code.k + code.r + g]];
    }
  }

  /** The groups one after the other. */
  method JoinGroups(code: Code, groups: seq<seq<nat>>) returns (ring: seq<nat>)
    requires code.z >= 1 && |groups| == code.z && forall g :: 0 <= g < code.z ==> groups[g] == GroupList(code, g)
    ensures ring == Ring(code, code.z)
  {
    hide StartOf; hide PayloadIn;
    ring := [];
    for g := 0 to code.z
      invariant ring == Ring(code, g)
    {
      ring := ring + groups[g];
      assert Ring(code, g) + GroupList(code, g) ==
        Ring(code, g) + Range(StartOf(code, g), PayloadIn(code, g)) + [code.Payload() + g];
    }
  }

  // ------------------------------------------------------------------
  // Rotation over the nodes.

  /** The node of ring position j in stripe sid. */
  function NodeOf(n: nat, j: nat, sid: nat): nat
    requires n >= 1
  {
    (j + sid) % n
  }

  /** The ring position, or the stripe, that puts a given node there. */
  lemma {:induction false} Rotate(n: nat, a: nat, node: nat) returns (b: nat)
    requires node < n
    ensures b < n && (b + a) % n == node
  {
    var q, r := a / n, a % n;
    assert a == q * n + r;
    if r <= node {
      b := node - r;
      DivIs(b + a, q, n);
    } else {
      b := node + n - r;
      assert (q + 1) * n == q * n + n;
      DivIs(b + a, q + 1, n);
    }
  }

  lemma {:induction false} RotateOnce(n: nat, a: nat, b: nat, b': nat)
    requires b < b' < n
    ensures (b + a) % n != (b' + a) % n
  {
    if (b + a) % n == (b' + a) % n {
      var q, q' := (b + a) / n, (b' + a) / n;
      assert b + a == q * n + (b + a) % n && b' + a == q' * n + (b' + a) % n;
      assert (q' - q) * n == b' - b;
      if q' - q <= 0 { Sign(q' - q, n); } else { MulMono(1, q' - q, n); }
    }
  }

  lemma {:induction false} Sign(a: int, n: nat)
    requires a <= 0
    ensures a * n <= 0
  {}

  /** Over n consecutive stripes a ring position visits every node once. */
  lemma {:induction false} VisitsAll(n: nat, j: nat, first: nat, node: nat) returns (sid: nat)
    requires node < n
    ensures first <= sid < first + n && NodeOf(n, j, sid) == node
    ensures forall other :: first <= other < first + n && NodeOf(n, j, other) == node ==> other == sid
  {
    var b := Rotate(n, j + first, node);
    sid := first + b;
    forall other | first <= other < first + n && NodeOf(n, j, other) == node ensures other == sid {
      var b' := other - first;
      if b < b' { RotateOnce(n, j + first, b, b'); }
      if b' < b { RotateOnce(n, j + first, b', b); }
    }
  }

  /** Block b of a stripe is on this node. */
  ghost predicate Placed(code: Code, nodes: seq<nat>, sid: nat, at: seq<int>)
    requires code.z >= 1
  {
    && |at| == code.N() == |nodes| && |Ring(code, code.z)| == code.N()
    && forall j :: 0 <= j < code.N() ==>
      Ring(code, code.z)[j] < code.N() && at[Ring(code, code.z)[j]] == nodes[NodeOf(code.N(), j, sid)]
  }

  lemma {:induction false} RingWhole(code: Code)
    requires code.z >= 1
    ensures |Ring(code, code.z)| == code.N() && Distinct(Ring(code, code.z))
    ensures forall b: nat :: b in Ring(code, code.z) <==> b < code.N()
  {
    hide Ring; hide StartOf;
    StartEnds(code);
    RingLists(code, code.z);
  }

  /** initialize_glrc_stripe_placement: where each block goes, and its group. */
  method PlaceStripe(code: Code, nodes: seq<nat>, sid: nat) returns (at: seq<int>, group: seq<int>)
    requires code.z >= 1 && |nodes| == code.N()
    ensures Placed(code, nodes, sid, at)
    ensures |group| == code.N()
    ensures forall b :: 0 <= b < code.N() ==>
      group[b] == if b < code.Payload() then PayloadGroup(code, b) else b - code.Payload()
  {
    hide StartOf; hide Ring; hide PayloadIn; hide PayloadGroup;
    group := seq(code.N(), b => if b < code.Payload() then PayloadGroup(code, b) else b - code.Payload());
    at := seq(code.N(), _ => -1);
    var groups := BuildPlacementGroups(code);
    var ring := JoinGroups(code, groups);
    RingWhole(code);
    for j := 0 to code.N()
      invariant |at| == code.N()
      invariant forall e :: 0 <= e < j ==> ring[e] < code.N() && at[ring[e]] == nodes[NodeOf(code.N(), e, sid)]
    {
      assert ring[j] in ring;
      at := at[ring[j] := nodes[NodeOf(code.N(), j, sid)]];
    }
  }

  /** In stripe 0 the ring lies over the nodes in order. */
  lemma {:induction false} StripeZero(code: Code, nodes: seq<nat>, at: seq<int>, j: nat)
    requires code.z >= 1 && Placed(code, nodes, 0, at) && j < code.N()
    ensures at[Ring(code, code.z)[j]] == nodes[j]
  {
    hide Ring;
    DivIs(j, 0, code.N());
  }

  /** From one stripe to the next every block moves one node on. */
  lemma {:induction false} MovesOn(code: Code, nodes: seq<nat>, sid: nat, at: seq<int>, at': seq<int>, b: nat)
    returns (x: nat)
    requires code.z >= 1 && Placed(code, nodes, sid, at) && Placed(code, nodes, sid + 1, at') && b < code.N()
    ensures x < code.N() && at[b] == nodes[x] && at'[b] == nodes[(x + 1) % code.N()]
  {
    hide Ring; hide StartOf;
    RingWhole(code);
    var ring := Ring(code, code.z);
    assert b in ring;
    var j :| 0 <= j < |ring| && ring[j] == b;
    x := NodeOf(code.N(), j, sid);
    OneOn(j + sid, code.N());
  }

  lemma {:induction false} OneOn(a: nat, n: nat)
    requires n >= 1
    ensures (a + 1) % n == (a % n + 1) % n
  {
    var q, r := a / n, a % n;
    assert a == q * n + r;
    if r + 1 < n {
      DivIs(a + 1, q, n);
      DivIs(r + 1, 0, n);
    } else {
      assert (q + 1) * n == q * n + n;
      DivIs(a + 1, q + 1, n);
      DivIs(r + 1, 1, n);
    }
  }

  /** Every node gets exactly one block of every stripe. */
  lemma {:induction false} OneEach(code: Code, nodes: seq<nat>, sid: nat, at: seq<int>, node: nat) returns (b: nat)
    requires code.z >= 1 && Placed(code, nodes, sid, at) && Distinct(nodes) && node in nodes
    ensures b < code.N() && at[b] == node && forall c :: 0 <= c < code.N() && at[c] == node ==> c == b
  {
    hide StartOf; hide Ring;
    RingWhole(code);
    var n, ring := code.N(), Ring(code, code.z);
    var x :| 0 <= x < n && nodes[x] == node;
    var j := Rotate(n, sid, x);
    b := ring[j];
    forall c | 0 <= c < n && at[c] == node ensures c == b {
      assert c in ring;
      var e :| 0 <= e < n && ring[e] == c;
      assert nodes[NodeOf(n, e, sid)] == nodes[x];
      assert NodeOf(n, e, sid) == x;
      if e < j { RotateOnce(n, sid, e, j); }
      if j < e { RotateOnce(n, sid, j, e); }
    }
  }

  // ------------------------------------------------------------------
  // Blocks on a set of nodes.

  /** The block ids of one stripe on the wanted nodes, ascending. */
  method BlocksOnNodes(at: seq<int>, wanted: set<nat>) returns (blocks: seq<nat>)
    ensures forall b :: b in blocks <==> 0 <= b < |at| && at[b] >= 0 && (at[b] as nat) in wanted
    ensures forall i, j :: 0 <= i < j < |blocks| ==> blocks[i] < blocks[j]
  {
    blocks := [];
    for b := 0 to |at|
      invariant forall e :: 0 <= e < |blocks| ==> blocks[e] < b
      invariant forall c :: c in blocks <==> 0 <= c < b && at[c] >= 0 && (at[c] as nat) in wanted
      invariant forall i, j :: 0 <= i < j < |blocks| ==> blocks[i] < blocks[j]
    {
      if at[b] >= 0 && (at[b] as nat) in wanted { blocks := blocks + [b]; }
    }
  }

  /** Any f nodes hold exactly f blocks of every stripe. */
  lemma {:induction false} OnePerNode(code: Code, nodes: seq<nat>, sid: nat, at: seq<int>, wanted: set<nat>,
          blocks: seq<nat>)
    requires code.z >= 1 && Placed(code, nodes, sid, at) && Distinct(nodes) && forall v :: v in wanted ==> v in nodes
    requires forall b :: b in blocks <==> 0 <= b < |at| && at[b] >= 0 && (at[b] as nat) in wanted
    requires Distinct(blocks)
    ensures |blocks| == |wanted|
    decreases |wanted|
  {
    hide Placed;
    if wanted == {} {
      FirstIn(blocks);
    } else {
      var v :| v in wanted;
      var b := OneEach(code, nodes, sid, at, v);
      assert |at| == code.N() by { PlacedSize(code, nodes, sid, at); }
      assert b in blocks;
      var p :| 0 <= p < |blocks| && blocks[p] == b;
      var rest := Without(blocks, p);
      forall c: nat ensures c in rest <==> c < |at| && at[c] >= 0 && (at[c] as nat) in wanted - {v} {
        assert c in rest <==> c in blocks && c != b;
      }
      OnePerNode(code, nodes, sid, at, wanted - {v}, rest);
    }
  }

  lemma {:induction false} FirstIn(xs: seq<nat>)
    ensures xs != [] ==> xs[0] in xs
  {}

  lemma {:induction false} PlacedSize(code: Code, nodes: seq<nat>, sid: nat, at: seq<int>)
    requires code.z >= 1 && Placed(code, nodes, sid, at)
    ensures |at| == code.N()
  {}

  /** A list without its p-th element. */
  function Without(xs: seq<nat>, p: nat): (r: seq<nat>)
    requires p < |xs| && Distinct(xs)
    ensures |r| == |xs| - 1 && Distinct(r) && forall c :: c in r <==> c in xs && c != xs[p]
  {
    assert forall c :: c in xs && c != xs[p] ==> c in xs[..p] || c in xs[p + 1..];
    xs[..p] + xs[p + 1..]
  }
}
