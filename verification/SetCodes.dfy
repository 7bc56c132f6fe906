/** The layouts of the three set codes: where the coordinator puts each block
(project/src/coordinator.cpp) and how many blocks the client expects in each group
(project/src/client.cpp). */
module SetCodes {
  import opened Arith
  import opened SetLayout

  datatype Code = UniLRC | AzureLRC | OptimalLRC

  /** Every local group gets some data, and with UniLRC some global parity if there is
      any: elsewhere the formulas divide by nought. */
  predicate Runs(code: Code, k: nat, r: nat, z: nat) {
    z >= 1 && k >= z && (code.UniLRC? && r > 0 ==> r >= z)
  }

  /** The local groups divide the data, and UniLRC's also the global parities. */
  predicate ShapeOk(code: Code, k: nat, r: nat, z: nat) {
    Runs(code, k, r, z) && k % z == 0 && (code.UniLRC? ==> r % z == 0)
  }

  /** What z equal shares take of x. */
  function Trim(x: nat, z: nat): nat
    requires z >= 1
  {
    z * (x / z)
  }

  /** The global parities that are shared out equally, where they are shared. */
  function Shared(code: Code, r: nat, z: nat): nat
    requires z >= 1
  {
    if code.UniLRC? then Trim(r, z) else r
  }

  lemma {:induction false} TrimIs(x: nat, z: nat)
    requires z >= 1
    ensures Trim(x, z) <= x < Trim(x, z) + z && Trim(x, z) / z == x / z && Trim(x, z) % z == 0
    ensures (x >= z ==> x / z >= 1 && Trim(x, z) >= z) && (x % z == 0 <==> Trim(x, z) == x)
  {
    DivIs(Trim(x, z), x / z, z);
    if x >= z {
      DivAtLeast(x, 1, z);
      MulMono(1, x / z, z);
    }
  }

  /** The equal shares make a shape of their own. */
  lemma {:induction false} Trimmed(code: Code, k: nat, r: nat, z: nat)
    requires Runs(code, k, r, z)
    ensures ShapeOk(code, Trim(k, z), Shared(code, r, z), z) && Trim(k, z) <= k && Shared(code, r, z) <= r
    ensures ShapeOk(code, k, r, z) <==> Trim(k, z) == k && Shared(code, r, z) == r
    ensures Trim(k, z) / z == k / z >= 1 && Shared(code, r, z) / z == r / z
  {
    hide Trim;
    TrimIs(k, z);
    TrimIs(r, z);
  }

  lemma {:induction false} Exact(x: nat, z: nat)
    requires z >= 1 && x % z == 0
    ensures z * (x / z) == x && (x >= 1 ==> x / z >= 1)
  {
    if x / z == 0 { assert x == x % z; }
  }

  // ------------------------------------------------------------------
  // Where the coordinator puts block b.

  /** Subgroups of a local group of a data blocks, r + 1 to a subgroup. */
  function PerLocal(a: nat, r: nat): nat {
    a / (r + 1) + if a % (r + 1) != 0 then 1 else 0
  }

  /** map2group of block b. */
  function MapGroup(code: Code, k: nat, r: nat, z: nat, b: nat): int
    requires Runs(code, k, r, z) && b < k + r + z
  {
    TrimIs(k, z);
    match code
    case UniLRC => (
      if b < k then b / (k / z)
      else if b < k + r then TrimIs(r, z); (b - k) / (r / z)
      else (b - k - r) / (z / z))
    case AzureLRC => (
      if b < k then b / (k / z)
      else if b < k + r then z
      else (b - k - r) / (z / z))
    case OptimalLRC => (
      var gn := PerLocal(k / z, r);
      if b < k then b % (k / z) / (r + 1) + b / (k / z) * gn
      else if b < k + r then z * gn
      else (b - k - r + 1) * gn - 1)
  }

  // ------------------------------------------------------------------
  // One group to a local group, with its share of everything: UniLRC.

  function EvenCuts(z: nat, a: nat): (cuts: seq<nat>)
    ensures |cuts| == z + 1 && forall g :: 0 <= g <= z ==> cuts[g] == g * a
  {
    seq(z + 1, g requires 0 <= g => g * a)
  }

  function EvenLayout(k: nat, r: nat, z: nat): Layout
    requires z >= 1
  {
    Layout(k, r, z, EvenCuts(z, k / z), EvenCuts(z, r / z), EvenCuts(z, 1))
  }

  lemma {:induction false} EvenCutsOk(z: nat, a: nat)
    requires z >= 1
    ensures CutsOk(EvenCuts(z, a), z * a)
    ensures forall g :: 0 <= g < z ==> Count(EvenCuts(z, a), g) == a
  {
    forall g | 0 <= g < z ensures Count(EvenCuts(z, a), g) == a {
      assert (g + 1) * a == g * a + a;
    }
    var cuts := EvenCuts(z, a);
    forall g | 0 <= g < |cuts| - 1 ensures cuts[g] <= cuts[g + 1] {
      assert Count(cuts, g) == a;
    }
  }

  lemma {:induction false} EvenOk(k: nat, r: nat, z: nat)
    requires z >= 1 && k % z == 0 && r % z == 0
    ensures LayoutOk(EvenLayout(k, r, z))
  {
    Exact(k, z);
    Exact(r, z);
    EvenCutsOk(z, k / z);
    EvenCutsOk(z, r / z);
    EvenCutsOk(z, 1);
  }

  lemma {:induction false} EvenCut(x: nat, z: nat, a: nat)
    requires a >= 1 && x < z * a
    ensures 0 <= x / a < z && EvenCuts(z, a)[x / a] <= x < EvenCuts(z, a)[x / a + 1]
  {
    DivLess(x, z, a);
    DivAtLeast(x, 0, a);
    assert x == x / a * a + x % a;
    assert (x / a + 1) * a == x / a * a + a;
  }

  lemma {:induction false} EvenGroup(k: nat, r: nat, z: nat, b: nat)
    requires ShapeOk(UniLRC, k, r, z) && b < k + r + z
    ensures InGroup(EvenLayout(k, r, z), b, MapGroup(UniLRC, k, r, z, b))
  {
    Exact(k, z);
    Exact(r, z);
    if b < k {
      EvenCut(b, z, k / z);
    } else if b < k + r {
      EvenCut(b - k, z, r / z);
    } else {
      EvenCut(b - k - r, z, 1);
      DivIs(z, 1, z);
    }
  }

  // ------------------------------------------------------------------
  // Local groups cut into subgroups, the global parities last: AzureLRC (one subgroup)
  // and OptimalLRC (r + 1 data blocks to a subgroup).

  function Cut(a: nat, size: nat, per: nat, g: nat): nat
    requires per >= 1
  {
    g / per * a + g % per * size
  }

  function SplitCuts(z: nat, a: nat, size: nat, per: nat): (cuts: seq<nat>)
    requires per >= 1
    ensures |cuts| == z * per + 2 && cuts[z * per + 1] == z * a
    ensures forall g :: 0 <= g <= z * per ==> cuts[g] == Cut(a, size, per, g)
  {
    seq(z * per + 1, g requires 0 <= g => Cut(a, size, per, g)) + [z * a]
  }

  function LastCuts(n: nat, r: nat): (cuts: seq<nat>)
    ensures |cuts| == n + 2 && cuts[n + 1] == r && forall g :: 0 <= g <= n ==> cuts[g] == 0
  {
    seq(n + 1, g => 0) + [r]
  }

  function SplitLayout(k: nat, r: nat, z: nat, size: nat, per: nat): Layout
    requires z >= 1 && per >= 1
  {
    Layout(k, r, z, SplitCuts(z, k / z, size, per), LastCuts(z * per, r), SplitCuts(z, 1, 0, per))
  }

  /** All but the last subgroup of a local group are full. */
  lemma {:induction false} CutStep(a: nat, size: nat, per: nat, g: nat)
    requires per >= 1
    ensures Cut(a, size, per, g + 1) == Cut(a, size, per, g) + if (g + 1) % per != 0 then size else a - (per - 1) * size
  {
    var q, t := g / per, g % per;
    assert g == q * per + t;
    if t + 1 < per {
      DivIs(g + 1, q, per);
      assert (t + 1) * size == t * size + size;
    } else {
      assert (q + 1) * per == q * per + per;
      DivIs(g + 1, q + 1, per);
      assert (q + 1) * a == q * a + a;
    }
  }

  function SplitCount(z: nat, a: nat, size: nat, per: nat, g: nat): int
    requires per >= 1
  {
    if g == z * per then 0 else if (g + 1) % per != 0 then size else a - (per - 1) * size
  }

  lemma {:induction false} SplitCutsOk(z: nat, a: nat, size: nat, per: nat)
    requires z >= 1 && per >= 1 && (per - 1) * size <= a
    ensures CutsOk(SplitCuts(z, a, size, per), z * a)
    ensures forall g :: 0 <= g <= z * per ==> Count(SplitCuts(z, a, size, per), g) == SplitCount(z, a, size, per, g)
  {
    hide Cut;
    var cuts := SplitCuts(z, a, size, per);
    forall g | 0 <= g <= z * per ensures Count(cuts, g) == SplitCount(z, a, size, per, g) && cuts[g] <= cuts[g + 1] {
      if g < z * per { CutStep(a, size, per, g); } else { CutEnds(z, a, size, per); }
    }
    CutEnds(z, a, size, per);
    MulGe(z, per);
  }

  lemma {:induction false} CutEnds(z: nat, a: nat, size: nat, per: nat)
    requires per >= 1
    ensures Cut(a, size, per, 0) == 0 && Cut(a, size, per, z * per) == z * a
  {
    DivIs(0, 0, per);
    DivIs(z * per, z, per);
  }

  lemma {:induction false} LastCutsOk(n: nat, r: nat)
    requires n >= 1
    ensures CutsOk(LastCuts(n, r), r)
  {}

  lemma {:induction false} SplitOk(k: nat, r: nat, z: nat, size: nat, per: nat)
    requires z >= 1 && per >= 1 && k % z == 0 && (per - 1) * size <= k / z
    ensures LayoutOk(SplitLayout(k, r, z, size, per))
  {
    hide CutsOk;
    Exact(k, z);
    SplitCutsOk(z, k / z, size, per);
    SplitCutsOk(z, 1, 0, per);
    MulGe(z, per);
    LastCutsOk(z * per, r);
  }

  /** Data block x's subgroup, counted over all local groups. */
  function Subgroup(x: nat, a: nat, size: nat, per: nat): int
    requires a >= 1 && size >= 1
  {
    x % a / size + x / a * per
  }

  lemma {:induction false} SubgroupIs(x: nat, z: nat, a: nat, size: nat, per: nat)
    requires a >= 1 && size >= 1 && per >= 1 && x < z * a && a <= per * size
    ensures var h := Subgroup(x, a, size, per); 0 <= h < z * per && h % per == x % a / size && h / per == x / a
  {
    var q, s := x / a, x % a;
    DivLess(x, z, a);
    DivAtLeast(x, 0, a);
    DivLess(s, per, size);
    DivAtLeast(s, 0, size);
    Below(s / size, q, z, per);
  }

  lemma {:induction false} Below(t: int, q: int, z: int, per: nat)
    requires 0 <= t < per && 0 <= q < z
    ensures 0 <= t + q * per < z * per && (t + q * per) / per == q && (t + q * per) % per == t
  {
    assert (q + 1) * per == q * per + per;
    MulMono(q + 1, z, per);
    MulMono(0, q, per);
    DivIs(t + q * per, q, per);
  }

  /** It lies between that subgroup's cuts. */
  lemma {:induction false} SplitCut(x: nat, z: nat, a: nat, size: nat, per: nat)
    requires a >= 1 && size >= 1 && per >= 1 && x < z * a && a <= per * size
    ensures var h := Subgroup(x, a, size, per);
      0 <= h < z * per && SplitCuts(z, a, size, per)[h] <= x < SplitCuts(z, a, size, per)[h + 1]
  {
    hide Subgroup; hide Cut;
    var h := Subgroup(x, a, size, per);
    SubgroupIs(x, z, a, size, per);
    SubgroupStart(x, a, size, per, h);
    SubgroupEnd(x, a, size, per, h);
  }

  lemma {:induction false} SubgroupStart(x: nat, a: nat, size: nat, per: nat, h: nat)
    requires a >= 1 && size >= 1 && per >= 1 && h % per == x % a / size && h / per == x / a
    ensures Cut(a, size, per, h) <= x
  {
    var q, s := x / a, x % a;
    assert x == q * a + s && s == s / size * size + s % size;
  }

  lemma {:induction false} SubgroupEnd(x: nat, a: nat, size: nat, per: nat, h: nat)
    requires a >= 1 && size >= 1 && per >= 1 && h % per == x % a / size && h / per == x / a
    ensures x < Cut(a, size, per, h + 1)
  {
    var q, s := x / a, x % a;
    var t := s / size;
    assert x == q * a + s && s == t * size + s % size && h == q * per + t;
    assert (t + 1) * size == t * size + size && (q + 1) * a == q * a + a;
    NextCut(a, size, per, q, t, h);
  }

  lemma {:induction false} NextCut(a: nat, size: nat, per: nat, q: nat, t: nat, h: nat)
    requires t < per && h == q * per + t
    ensures Cut(a, size, per, h + 1) == if t + 1 < per then q * a + (t + 1) * size else (q + 1) * a
  {
    if t + 1 < per {
      DivIs(h + 1, q, per);
      assert (h + 1) % per == t + 1;
    } else {
      assert (q + 1) * per == q * per + per;
      DivIs(h + 1, q + 1, per);
      assert (h + 1) % per == 0;
    }
  }

  lemma {:induction false} SplitLocal(y: nat, z: nat, per: nat)
    requires per >= 1 && y < z
    ensures 0 <= (y + 1) * per - 1 < z * per
    ensures Cut(1, 0, per, (y + 1) * per - 1) <= y < SplitCuts(z, 1, 0, per)[(y + 1) * per]
  {
    assert (y + 1) * per == y * per + per;
    MulMono(y + 1, z, per);
    DivIs((y + 1) * per - 1, y, per);
    DivIs((y + 1) * per, y + 1, per);
  }

  function SplitGroup(k: nat, r: nat, z: nat, size: nat, per: nat, b: nat): int
    requires z >= 1 && k / z >= 1 && size >= 1
  {
    if b < k then Subgroup(b, k / z, size, per)
    else if b < k + r then z * per
    else (b - k - r + 1) * per - 1
  }

  lemma {:induction false} SplitPlaces(k: nat, r: nat, z: nat, size: nat, per: nat, b: nat)
    requires z >= 1 && k >= 1 && per >= 1 && size >= 1 && k % z == 0 && k / z >= 1 && k / z <= per * size
    requires b < k + r + z
    ensures InGroup(SplitLayout(k, r, z, size, per), b, SplitGroup(k, r, z, size, per, b))
  {
    hide Cut; hide Subgroup;
    Exact(k, z);
    if b < k {
      SplitCut(b, z, k / z, size, per);
    } else if b >= k + r {
      SplitLocal(b - k - r, z, per);
    }
  }

  // ------------------------------------------------------------------
  // The coordinator's layout and the client's.

  function Placed(code: Code, k: nat, r: nat, z: nat): Layout
    requires ShapeOk(code, k, r, z)
  {
    Exact(k, z);
    match code
    case UniLRC => EvenLayout(k, r, z)
    case AzureLRC => SplitLayout(k, r, z, k / z, 1)
    case OptimalLRC => PerLocalIs(k / z, r); SplitLayout(k, r, z, r + 1, PerLocal(k / z, r))
  }

  /** The client counts equal shares only, and always adds a subgroup for the rest. */
  function Expected(code: Code, k: nat, r: nat, z: nat): Layout
    requires Runs(code, k, r, z)
  {
    Trimmed(code, k, r, z);
    var k', r' := Trim(k, z), Shared(code, r, z);
    if code.OptimalLRC? then SplitLayout(k', r, z, r + 1, k / z / (r + 1) + 1) else Placed(code, k', r', z)
  }

  lemma {:induction false} PerLocalIs(a: nat, r: nat)
    requires a >= 1
    ensures PerLocal(a, r) >= 1 && (PerLocal(a, r) - 1) * (r + 1) < a <= PerLocal(a, r) * (r + 1)
    ensures a / (r + 1) * (r + 1) <= a
  {
    var q, t := a / (r + 1), a % (r + 1);
    assert a == q * (r + 1) + t;
    assert (q + 1) * (r + 1) == q * (r + 1) + (r + 1);
    assert (q - 1) * (r + 1) == q * (r + 1) - (r + 1);
  }

  lemma {:induction false} PlacedOk(code: Code, k: nat, r: nat, z: nat)
    requires ShapeOk(code, k, r, z)
    ensures LayoutOk(Placed(code, k, r, z))
  {
    Exact(k, z);
    match code {
      case UniLRC => EvenOk(k, r, z);
      case AzureLRC => SplitOk(k, r, z, k / z, 1);
      case OptimalLRC =>
        PerLocalIs(k / z, r);
        SplitOk(k, r, z, r + 1, PerLocal(k / z, r));
    }
  }

  lemma {:induction false} ExpectedOk(code: Code, k: nat, r: nat, z: nat)
    requires Runs(code, k, r, z)
    ensures LayoutOk(Expected(code, k, r, z))
  {
    hide LayoutOk; hide Trim; hide Placed;
    Trimmed(code, k, r, z);
    if code.OptimalLRC? {
      PerLocalIs(k / z, r);
      SplitOk(Trim(k, z), r, z, r + 1, k / z / (r + 1) + 1);
    } else {
      PlacedOk(code, Trim(k, z), Shared(code, r, z), z);
    }
  }

  lemma {:induction false} AlignedGroup(code: Code, k: nat, r: nat, z: nat, b: nat)
    requires ShapeOk(code, k, r, z) && b < k + r + z
    ensures InGroup(Placed(code, k, r, z), b, MapGroup(code, k, r, z, b))
  {
    hide InGroup;
    Exact(k, z);
    match code {
      case UniLRC => EvenGroup(k, r, z, b);
      case AzureLRC =>
        SplitPlaces(k, r, z, k / z, 1, b);
        OneSubgroup(k, r, z, b);
      case OptimalLRC =>
        PerLocalIs(k / z, r);
        SplitPlaces(k, r, z, r + 1, PerLocal(k / z, r), b);
    }
  }

  /** Block b is in one of the equal shares. */
  predicate InShare(code: Code, k: nat, r: nat, z: nat, b: nat)
    requires z >= 1
  {
    b < Trim(k, z) || k <= b < k + Shared(code, r, z) || b >= k + r
  }

  /** Its number when the equal shares are the whole stripe. */
  function Renumbered(code: Code, k: nat, r: nat, z: nat, b: nat): nat
    requires z >= 1
  {
    if b < k then b
    else if b < k + r then Trim(k, z) + (b - k)
    else Trim(k, z) + Shared(code, r, z) + (b - k - r)
  }

  /** The groups of the local parities. */
  function LocalGroups(code: Code, k: nat, r: nat, z: nat): nat
    requires z >= 1
  {
    if code.OptimalLRC? then z * PerLocal(k / z, r) else z
  }

  /** The coordinator's formula puts every block of the equal shares where their layout
      says, and the blocks left over beyond the last group with a local parity. */
  lemma {:induction false} MapsToGroup(code: Code, k: nat, r: nat, z: nat, b: nat)
    requires Runs(code, k, r, z) && b < k + r + z
    ensures ShapeOk(code, Trim(k, z), Shared(code, r, z), z)
    ensures InShare(code, k, r, z, b) ==>
      InGroup(Placed(code, Trim(k, z), Shared(code, r, z), z), Renumbered(code, k, r, z, b), MapGroup(code, k, r, z, b))
    ensures !InShare(code, k, r, z, b) ==> MapGroup(code, k, r, z, b) >= LocalGroups(code, k, r, z)
  {
    hide InGroup; hide Placed; hide Trim; hide MapGroup; hide Renumbered; hide LocalGroups; hide InShare;
    Trimmed(code, k, r, z);
    if InShare(code, k, r, z, b) {
      SameGroup(code, k, r, z, b);
      AlignedGroup(code, Trim(k, z), Shared(code, r, z), z, Renumbered(code, k, r, z, b));
    } else {
      LeftOver(code, k, r, z, b);
    }
  }

  lemma {:induction false} SameGroup(code: Code, k: nat, r: nat, z: nat, b: nat)
    requires Runs(code, k, r, z) && b < k + r + z && InShare(code, k, r, z, b)
    ensures var k', r', c := Trim(k, z), Shared(code, r, z), Renumbered(code, k, r, z, b);
      && ShapeOk(code, k', r', z) && c < k' + r' + z && MapGroup(code, k', r', z, c) == MapGroup(code, k, r, z, b)
  {
    hide Trim; hide PerLocal;
    Trimmed(code, k, r, z);
  }

  lemma {:induction false} LeftOver(code: Code, k: nat, r: nat, z: nat, b: nat)
    requires Runs(code, k, r, z) && b < k + r + z && !InShare(code, k, r, z, b)
    ensures MapGroup(code, k, r, z, b) >= LocalGroups(code, k, r, z)
  {
    hide PerLocal;
    Trimmed(code, k, r, z);
    if b < k {
      DivAtLeast(b, z, k / z);
      MulMono(z, b / (k / z), PerLocal(k / z, r));
      DivAtLeast(b % (k / z), 0, r + 1);
    } else {
      TrimIs(r, z);
      DivAtLeast(b - k, z, r / z);
    }
  }

  lemma {:induction false} OneSubgroup(k: nat, r: nat, z: nat, b: nat)
    requires ShapeOk(AzureLRC, k, r, z) && k / z >= 1 && b < k + r + z
    ensures MapGroup(AzureLRC, k, r, z, b) == SplitGroup(k, r, z, k / z, 1, b)
  {
    if b < k {
      DivIs(b % (k / z), 0, k / z);
    } else {
      DivIs(z, 1, z);
    }
  }

  function Groups(code: Code, k: nat, r: nat, z: nat): (groupOf: seq<int>)
    requires Runs(code, k, r, z)
    ensures |groupOf| == k + r + z && forall b :: 0 <= b < |groupOf| ==> groupOf[b] == MapGroup(code, k, r, z, b)
  {
    seq(k + r + z, b requires 0 <= b < k + r + z => MapGroup(code, k, r, z, b))
  }

  lemma {:induction false} GroupsFollow(code: Code, k: nat, r: nat, z: nat)
    requires ShapeOk(code, k, r, z)
    ensures LayoutOk(Placed(code, k, r, z)) && Follows(Placed(code, k, r, z), Groups(code, k, r, z))
  {
    hide MapGroup; hide Placed; hide InGroup; hide LayoutOk;
    var lay, groupOf := Placed(code, k, r, z), Groups(code, k, r, z);
    PlacedOk(code, k, r, z);
    PlacedShape(code, k, r, z);
    forall b, g: nat | 0 <= b < |groupOf| && InGroup(lay, b, g) ensures groupOf[b] == g {
      AlignedGroup(code, k, r, z, b);
      InGroupNat(lay, b, groupOf[b]);
      OneGroup(lay, b, groupOf[b], g);
    }
  }

  lemma {:induction false} InGroupNat(lay: Layout, b: nat, g: int)
    requires InGroup(lay, b, g)
    ensures 0 <= g < lay.Groups()
  {}

  lemma {:induction false} PlacedShape(code: Code, k: nat, r: nat, z: nat)
    requires ShapeOk(code, k, r, z)
    ensures var lay := Placed(code, k, r, z); lay.k == k && lay.r == r && lay.z == z
  {}

  lemma {:induction false} ExpectedShape(code: Code, k: nat, r: nat, z: nat)
    requires Runs(code, k, r, z)
    ensures var lay := Expected(code, k, r, z); lay.k == Trim(k, z) && lay.r == Shared(code, r, z) && lay.z == z
  {
    hide Trim; hide EvenCuts; hide SplitCuts;
    Trimmed(code, k, r, z);
  }

  // ------------------------------------------------------------------
  // The client's counts.

  lemma {:induction false} RestIs(a: nat, r: nat)
    ensures a - (a / (r + 1) + 1 - 1) * (r + 1) == a % (r + 1)
  {}

  /** The client's subgroups of a local group. */
  function Per(code: Code, k: nat, r: nat, z: nat): (per: nat)
    requires z >= 1
    ensures per >= 1
  {
    DivAtLeast(k, 0, z);
    DivAtLeast(k / z, 0, r + 1);
    if code.OptimalLRC? then k / z / (r + 1) + 1 else 1
  }

  lemma {:induction false} ExpectedIs(code: Code, k: nat, r: nat, z: nat)
    requires Runs(code, k, r, z)
    ensures var lay := Expected(code, k, r, z);
      if code.UniLRC? then lay.data == EvenCuts(z, k / z) && lay.globals == EvenCuts(z, r / z) &&
        lay.locals == EvenCuts(z, 1)
      else var per := Per(code, k, r, z);
        && lay.data == SplitCuts(z, k / z, if code.OptimalLRC? then r + 1 else k / z, per)
        && lay.globals == LastCuts(z * per, r) && lay.locals == SplitCuts(z, 1, 0, per)
  {
    hide Trim; hide EvenCuts; hide SplitCuts; hide LastCuts;
    Trimmed(code, k, r, z);
  }

  /** get_data_block_num_per_group. */
  method DataCounts(code: Code, k: nat, r: nat, z: nat) returns (num: seq<int>)
    requires Runs(code, k, r, z)
    ensures num == Counts(Expected(code, k, r, z).data)
  {
    hide Expected; hide Placed; hide SplitCuts; hide EvenCuts;
    num := [];
    ExpectedIs(code, k, r, z);
    Trimmed(code, k, r, z);
    if code.OptimalLRC? {
      var size, a := r + 1, k / z;
      var per := a / size + 1;
      PerLocalIs(a, r);
      RestIs(a, r);
      SplitCutsOk(z, a, size, per);
      for i := 0 to z * per
        invariant |num| == i && forall g :: 0 <= g < i ==> num[g] == SplitCount(z, a, size, per, g)
      {
        num := num + [if (i + 1) % per != 0 then size else a % size];
      }
      num := num + [0];
    } else {
      for i := 0 to z
        invariant |num| == i && forall g :: 0 <= g < i ==> num[g] == k / z
      {
        num := num + [k / z];
      }
      if code.AzureLRC? {
        num := num + [0];
        SplitCutsOk(z, k / z, k / z, 1);
      } else {
        EvenCutsOk(z, k / z);
      }
    }
  }

  lemma {:induction false} LastCount(n: nat, r: nat)
    ensures forall g :: 0 <= g <= n ==> Count(LastCuts(n, r), g) == if g == n then r else 0
  {}

  /** All the global parities in the last group. */
  method LastOnly(n: nat, r: nat) returns (num: seq<int>)
    ensures num == Counts(LastCuts(n, r))
  {
    hide LastCuts;
    num := [];
    for i := 0 to n
      invariant |num| == i && forall g :: 0 <= g < i ==> num[g] == 0
    {
      num := num + [0];
    }
    num := num + [r];
    LastCount(n, r);
  }

  /** get_global_parity_block_num_per_group. */
  method GlobalCounts(code: Code, k: nat, r: nat, z: nat) returns (num: seq<int>)
    requires Runs(code, k, r, z)
    ensures num == Counts(Expected(code, k, r, z).globals)
  {
    hide Expected; hide Placed; hide LastCuts; hide EvenCuts; hide Per;
    num := [];
    ExpectedIs(code, k, r, z);
    if code.UniLRC? {
      for i := 0 to z
        invariant |num| == i && forall g :: 0 <= g < i ==> num[g] == r / z
      {
        num := num + [r / z];
      }
      EvenCutsOk(z, r / z);
    } else {
      num := LastOnly(z * Per(code, k, r, z), r);
    }
  }

  /** The local parity sits in the last subgroup. */
  function EndOf(per: nat, g: nat): int
    requires per >= 1
  {
    if (g + 1) % per != 0 then 0 else 1
  }

  lemma {:induction false} SplitLocals(z: nat, per: nat)
    requires z >= 1 && per >= 1
    ensures forall g :: 0 <= g <= z * per ==>
      Count(SplitCuts(z, 1, 0, per), g) == if g == z * per then 0 else EndOf(per, g)
  {
    SplitCutsOk(z, 1, 0, per);
  }

  /** get_local_parity_block_num_per_group. */
  method LocalCounts(code: Code, k: nat, r: nat, z: nat) returns (num: seq<int>)
    requires Runs(code, k, r, z)
    ensures num == Counts(Expected(code, k, r, z).locals)
  {
    hide Expected; hide Placed; hide SplitCuts; hide EvenCuts; hide EndOf;
    num := [];
    ExpectedIs(code, k, r, z);
    if code.OptimalLRC? {
      var per := Per(code, k, r, z);
      SplitLocals(z, per);
      var n := z * per;
      for i := 0 to n
        invariant |num| == i && forall g :: 0 <= g < i ==> num[g] == EndOf(per, g)
      {
        num := num + [EndOf(per, i)];
      }
      num := num + [0];
    } else {
      for i := 0 to z
        invariant |num| == i && forall g :: 0 <= g < i ==> num[g] == 1
      {
        num := num + [1];
      }
      if code.AzureLRC? {
        num := num + [0];
        AzureLocals(z);
      } else {
        EvenCutsOk(z, 1);
      }
    }
  }

  lemma {:induction false} AzureLocals(z: nat)
    requires z >= 1
    ensures forall g :: 0 <= g <= z ==> Count(SplitCuts(z, 1, 0, 1), g) == if g == z then 0 else 1
  {
    SplitLocals(z, 1);
  }
}
