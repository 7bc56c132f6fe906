/** Losing a cluster: the information-theoretic recoverability test
(python_matrix/matrix.py) holds for every stripe between any two stages. */
module Recovery {
  import opened Blocks
  import opened Clusters
  import opened MergeState
  import opened MergeView
  import opened MergeStage
  import opened InitialView
  import opened Arith

  /** Code indices of one stripe: k data blocks, r per group, then l local and g
      global parities. `lost` are the ones not among the survivors. */
  function Lost(k: nat, l: nat, g: nat, item: set<int>): set<int> {
    set i | 0 <= i < k + l + g && i !in item
  }

  /** The local group a lost block belongs to, if any. */
  function GroupsOf(k: nat, l: nat, r: nat, lost: set<int>): set<int>
    requires r >= 1
  {
    (set i | i in lost && i < k :: i / r) + (set i | i in lost && k <= i < k + l :: i - k)
  }

  /** At most g blocks more than local groups touched are lost. */
  predicate InfoTheo(k: nat, l: nat, g: nat, r: nat, item: set<int>)
    requires r >= 1
  {
    |Lost(k, l, g, item)| <= g + |GroupsOf(k, l, r, Lost(k, l, g, item))|
  }

  // ------------------------------------------------------------------
  // What the count means.

  /** The group of a data block or a local parity. */
  function GroupNo(k: nat, r: nat, i: int): int
    requires r >= 1
  {
    if i < k then i / r else i - k
  }

  /** A local parity repairs one block of its group: at most one block of each group is
      healed that way, and the g global parities are enough for the rest. */
  ghost predicate Heals(k: nat, l: nat, g: nat, r: nat, lost: set<int>, healed: set<int>)
    requires r >= 1
  {
    healed <= lost && OnePer(k, l, r, healed) && |lost - healed| <= g
  }

  ghost predicate OnePer(k: nat, l: nat, r: nat, healed: set<int>)
    requires r >= 1
  {
    && (forall i :: i in healed ==> i < k + l)
    && forall i, j :: i in healed && j in healed && GroupNo(k, r, i) == GroupNo(k, r, j) ==> i == j
  }

  lemma {:induction false} InGroups(k: nat, l: nat, r: nat, lost: set<int>, q: int)
    requires r >= 1
    ensures q in GroupsOf(k, l, r, lost) <==> exists i :: i in lost && i < k + l && GroupNo(k, r, i) == q
  {
    if q in GroupsOf(k, l, r, lost) {
      if i :| i in lost && i < k && i / r == q {
        assert i < k + l && GroupNo(k, r, i) == q;
      } else {
        assert q + k in lost && GroupNo(k, r, q + k) == q;
      }
    }
  }

  /** One block from each of these groups. */
  lemma {:induction false} PickOne(k: nat, l: nat, r: nat, lost: set<int>, groups: set<int>) returns (healed: set<int>)
    requires r >= 1 && groups <= GroupsOf(k, l, r, lost)
    ensures healed <= lost && OnePer(k, l, r, healed) && |healed| == |groups|
    ensures forall i :: i in healed ==> GroupNo(k, r, i) in groups
    decreases |groups|
  {
    hide GroupsOf; hide GroupNo;
    if groups == {} {
      healed := {};
    } else {
      var q := Witness(groups);
      healed := PickOne(k, l, r, lost, groups - {q});
      InGroups(k, l, r, lost, q);
      var i :| i in lost && i < k + l && GroupNo(k, r, i) == q;
      healed := healed + {i};
    }
  }

  /** Blocks of different groups touch as many groups. */
  lemma {:induction false} GroupsTouched(k: nat, l: nat, r: nat, healed: set<int>)
    requires r >= 1 && OnePer(k, l, r, healed)
    ensures |GroupsOf(k, l, r, healed)| == |healed|
    decreases |healed|
  {
    if healed == {} {
      assert GroupsOf(k, l, r, healed) == {};
    } else {
      var i := Witness(healed);
      var rest := healed - {i};
      GroupsTouched(k, l, r, rest);
      forall q ensures q in GroupsOf(k, l, r, healed) <==> q in GroupsOf(k, l, r, rest) + {GroupNo(k, r, i)} {
        InGroups(k, l, r, healed, q);
        InGroups(k, l, r, rest, q);
      }
      assert GroupsOf(k, l, r, healed) == GroupsOf(k, l, r, rest) + {GroupNo(k, r, i)};
      InGroups(k, l, r, rest, GroupNo(k, r, i));
    }
  }

  lemma {:induction false} Fewer(a: set<int>, b: set<int>)
    requires a <= b
    ensures |a| <= |b| && |b - a| == |b| - |a|
  {
    assert b == a + (b - a);
  }

  /** The test passes exactly if local and global parities can heal what is lost. */
  lemma {:induction false} HealsIff(k: nat, l: nat, g: nat, r: nat, item: set<int>)
    requires r >= 1
    ensures InfoTheo(k, l, g, r, item) <==> exists healed :: Heals(k, l, g, r, Lost(k, l, g, item), healed)
  {
    hide GroupsOf; hide Lost;
    var lost := Lost(k, l, g, item);
    if InfoTheo(k, l, g, r, item) {
      var healed := PickOne(k, l, r, lost, GroupsOf(k, l, r, lost));
      Fewer(healed, lost);
      assert Heals(k, l, g, r, lost, healed);
    }
    if healed :| Heals(k, l, g, r, lost, healed) {
      GroupsTouched(k, l, r, healed);
      forall q | q in GroupsOf(k, l, r, healed) ensures q in GroupsOf(k, l, r, lost) {
        InGroups(k, l, r, healed, q);
        InGroups(k, l, r, lost, q);
      }
      Fewer(GroupsOf(k, l, r, healed), GroupsOf(k, l, r, lost));
      Fewer(healed, lost);
    }
  }

  function Elements(xs: seq<int>): set<int> { set x | x in xs }

  lemma {:induction false} ElementsStep(xs: seq<int>, e: nat)
    requires e < |xs|
    ensures Elements(xs[..e + 1]) == Elements(xs[..e]) + {xs[e]}
  {
    assert xs[..e + 1] == xs[..e] + [xs[e]];
  }

  method Failures(n: nat, item: set<int>) returns (failures: seq<int>)
    ensures Elements(failures) == (set i | 0 <= i < n && i !in item) && |failures| == |Elements(failures)|
  {
    failures := [];
    for i := 0 to n
      invariant forall e :: 0 <= e < |failures| ==> 0 <= failures[e] < i && failures[e] !in item
      invariant forall x :: 0 <= x < i && x !in item ==> x in failures
      invariant forall e, f :: 0 <= e < f < |failures| ==> failures[e] < failures[f]
    {
      if i !in item { failures := failures + [i]; }
    }
    SizeOfDistinct(failures);
  }

  /** check_info_theo. */
  method CheckInfoTheo(k: nat, l: nat, g: nat, r: nat, item: set<int>) returns (ok: bool)
    requires r >= 1
    ensures ok == InfoTheo(k, l, g, r, item)
    ensures ok <==> exists healed :: Heals(k, l, g, r, Lost(k, l, g, item), healed)
  {
    hide Elements; hide GroupsOf; hide Heals;
    HealsIff(k, l, g, r, item);
    var failures := Failures(k + l + g, item);
    var groups: set<int> := {};
    NoGroups(k, l, r, failures);
    for e := 0 to |failures|
      invariant groups == GroupsOf(k, l, r, Elements(failures[..e]))
    {
      var i := failures[e];
      GroupsAdd(k, l, r, Elements(failures[..e]), i);
      ElementsStep(failures, e);
      if i < k { groups := groups + {i / r}; }
      if k <= i < k + l { groups := groups + {i - k}; }
    }
    assert failures[..|failures|] == failures;
    ok := |failures| <= g + |groups|;
  }

  lemma {:induction false} NoGroups(k: nat, l: nat, r: nat, xs: seq<int>)
    requires r >= 1
    ensures GroupsOf(k, l, r, Elements(xs[..0])) == {}
  {}

  lemma {:induction false} GroupsAdd(k: nat, l: nat, r: nat, lost: set<int>, i: int)
    requires r >= 1
    ensures GroupsOf(k, l, r, lost + {i}) == GroupsOf(k, l, r, lost) +
      (if i < k then {i / r} else {}) + (if k <= i < k + l then {i - k} else {})
  {}

  lemma {:induction false} SizeOfDistinct(xs: seq<int>)
    requires forall e, f :: 0 <= e < f < |xs| ==> xs[e] < xs[f]
    ensures |Elements(xs)| == |xs|
  {
    if xs != [] {
      var n := |xs| - 1;
      SizeOfDistinct(xs[..n]);
      ElementsStep(xs, n);
      assert xs[..n + 1] == xs;
      assert xs[n] !in xs[..n];
    }
  }

  // ------------------------------------------------------------------
  // Two ways to pass the test.

  lemma {:induction false} Witness<T>(s: set<T>) returns (x: T)
    requires s != {}
    ensures x in s
  {
    x :| x in s;
  }

  lemma {:induction false} Bounded(s: set<int>, lo: int, n: nat)
    requires forall x :: x in s ==> lo <= x < lo + n
    ensures |s| <= n
  {
    if n == 0 {
      if s != {} { var x := Witness(s); }
    } else {
      var rest := s - {lo + n - 1};
      Bounded(rest, lo, n - 1);
      assert s <= rest + {lo + n - 1};
      Subset(s, rest + {lo + n - 1});
    }
  }

  lemma {:induction false} Subset<T>(a: set<T>, b: set<T>)
    requires a <= b
    ensures |a| <= |b|
  {
    if a != {} {
      var x :| x in a;
      Subset(a - {x}, b - {x});
    }
  }

  /** Few blocks, none of them global: one local group already makes up for the
      one block too many. */
  lemma {:induction false} OneGroup(k: nat, l: nat, g: nat, r: nat, lost: set<int>)
    requires r >= 1 && |lost| <= g + 1 && forall x :: x in lost ==> x < k + l
    ensures |lost| <= g + |GroupsOf(k, l, r, lost)|
  {
    if lost != {} {
      var x := Witness(lost);
      var group := if x < k then x / r else x - k;
      assert group in GroupsOf(k, l, r, lost);
    }
  }

  /** Only parities: each lost local parity is a group of its own. */
  lemma {:induction false} OnlyParities(k: nat, l: nat, g: nat, r: nat, lost: set<int>)
    requires r >= 1 && forall x :: x in lost ==> k <= x < k + l + g
    ensures |lost| <= g + |GroupsOf(k, l, r, lost)|
  {
    var locals, globals := set x | x in lost && x < k + l, set x | x in lost && x >= k + l;
    assert lost == locals + globals;
    Bounded(globals, k + l, g);
    Shifted(locals, k);
    Subset(Shift(locals, k), GroupsOf(k, l, r, lost));
  }

  function Shift(s: set<int>, k: int): set<int> { set x | x in s :: x - k }

  lemma {:induction false} InShift(s: set<int>, k: int, z: int)
    ensures z in Shift(s, k) <==> z + k in s
  {
    if z + k in s { assert z + k - k in Shift(s, k); }
  }

  lemma {:induction false} Shifted(s: set<int>, k: int)
    ensures |Shift(s, k)| == |s|
  {
    if s != {} {
      var y := Witness(s);
      var rest := s - {y};
      Shifted(rest, k);
      forall z ensures z in Shift(s, k) <==> z in Shift(rest, k) + {y - k} {
        InShift(s, k, z);
        InShift(rest, k, z);
      }
      assert Shift(s, k) == Shift(rest, k) + {y - k};
      InShift(rest, k, y - k);
    }
  }

  // ------------------------------------------------------------------
  // The code indices a cluster stores.

  /** Position of block b in stripe s, which covers the p original stripes from
      s p: data group by group in stripe order, then parities. */
  function Index(par: Params, p: nat, s: int, b: Block): int
    requires par.Ok()
  {
    match b.kind
    case D => b.group * (par.b * p) + (StripeOf(par, b.num) - s * p) * par.b + OffsetOf(par, b.num)
    case L => par.K() * p + b.group
    case G => par.K() * p + par.l + (b.num - s * par.g)
  }

  /** The indices of stripe s among these blocks. */
  function Held(par: Params, p: nat, s: int, bs: seq<Block>): set<int>
    requires par.Ok()
  {
    set b | b in bs && b.stripe == s :: Index(par, p, s, b)
  }

  /** What is left of stripe s when cluster c is gone. */
  function Survivors(par: Params, p: nat, view: View, s: int, c: int): set<int>
    requires par.Ok()
  {
    set d, x | 0 <= d < |view| && d != c && x in Held(par, p, s, view[d].blocks) :: x
  }

  lemma {:induction false} HeldOne(par: Params, p: nat, s: int, bs: seq<Block>)
    requires par.Ok() && bs != []
    ensures var n := |bs| - 1;
      Held(par, p, s, bs) == Held(par, p, s, bs[..n]) + (if bs[n].stripe == s then {Index(par, p, s, bs[n])} else {})
  {
    var n := |bs| - 1;
    assert bs == bs[..n] + [bs[n]];
  }

  /** A cluster of data and local parities of one group. */
  lemma {:induction false} HeldFew(par: Params, p: nat, s: int, i: int, bs: seq<Block>)
    requires par.Ok() && forall b :: b in bs ==> b.group == i && b.kind != G
    ensures |Held(par, p, s, bs)| <= |Sel(bs, DataAt(s, i))| + |Sel(bs, ParityAt(L, s, i))|
  {
    hide Index;
    if bs != [] {
      HeldOne(par, p, s, bs);
      HeldFew(par, p, s, i, bs[..|bs| - 1]);
    }
  }

  // ------------------------------------------------------------------
  // Every block of a stripe is stored somewhere.

  lemma {:induction false} SomewhereIn(view: View, q: Query) returns (c: nat, b: Block)
    requires Tot(view, q) > 0
    ensures c < |view| && b in view[c].blocks && Hit(b, q)
  {
    c := |view| - 1;
    if Sel(view[c].blocks, q) == [] {
      c, b := SomewhereIn(view[..c], q);
    } else {
      b := Sel(view[c].blocks, q)[0];
      SelMembers(view[c].blocks, q);
      assert b in Sel(view[c].blocks, q);
    }
  }

  /** A data index is a group, an original stripe and an offset. */
  lemma {:induction false} SplitIndex(par: Params, p: nat, x: nat) returns (i: nat, y: nat, e: nat)
    requires par.Ok() && p >= 1 && x < par.K() * p
    ensures i < par.l && y < p && e < par.b && x == i * (par.b * p) + y * par.b + e
  {
    MulGe(par.b, p);
    var w := par.b * p;
    assert par.K() * p == par.l * w;
    var rest;
    i, rest := Divide(x, par.l, w);
    y, e := Divide(rest, p, par.b);
  }

  lemma {:induction false} Divide(x: nat, n: nat, w: nat) returns (q: nat, r: nat)
    requires w >= 1 && x < n * w
    ensures x == q * w + r && q < n && r < w
  {
    q, r := x / w, x % w;
    DivLess(x, n, w);
  }

  lemma {:induction false} InRange(par: Params, o: nat, i: nat, e: nat)
    requires par.Ok() && o < par.x && i < par.l && e < par.b
    ensures First(par, o, i) + e < par.x * par.K()
  {
    MulMono(o + 1, par.x, par.K());
    assert (o + 1) * par.K() == o * par.K() + par.K();
    MulMono(i + 1, par.l, par.b);
    assert (i + 1) * par.b == i * par.b + par.b;
  }

  lemma {:induction false} DataStored(par: Params, p: nat, live: nat, tau: nat, lay: Layout, view: View, s: nat, x: nat)
    returns (c: nat)
    requires p >= 1 && ViewOk(par, Begin(p, live, 1, tau), lay, view, AllClean(|view|)) && s < live && x < par.K() * p
    ensures c < |view| && x in Held(par, p, s, view[c].blocks)
  {
    hide ClusterOk; hide LayoutOk; hide Tot; hide Index; hide First; hide Sel;
    var i, y, e := SplitIndex(par, p, x);
    assert live * p == par.x;
    MulMono(s + 1, live, p);
    assert (s + 1) * p == s * p + p;
    InRange(par, s * p + y, i, e);
    var n := First(par, s * p + y, i) + e;
    assert Tot(view, DataNum(n)) == 1;
    var b;
    c, b := SomewhereIn(view, DataNum(n));
    assert ClusterOk(par, Begin(p, live, 1, tau), Tails(lay), c, lay.roles[c], view[c], AllClean(|view|)[c]);
    IndexBack(par, p, live, tau, Tails(lay), c, lay.roles[c], view[c], s, b, i, y, e, s * p + y);
  }

  lemma {:induction false} IndexBack(par: Params, p: nat, live: nat, tau: nat, tails: bool, c: nat, role: Role,
          v: ClusterVal, s: nat, b: Block, i: nat, y: nat, e: nat, j: nat)
    requires p >= 1 && par.Ok() && j == s * p + y
    requires ClusterOk(par, Begin(p, live, 1, tau), tails, c, role, v, Clean) && b in v.blocks
    requires i < par.l && y < p && e < par.b && b.kind == D && b.num == First(par, j, i) + e
    ensures b.stripe == s && Index(par, p, s, b) == i * (par.b * p) + y * par.b + e
  {
    hide First; hide ShapeOk; hide SrcOk; hide LocalOk; hide GlobalOk;
    assert DataOk(par, Begin(p, live, 1, tau), b);
    Compose(par, j, i, e);
    DivIs(j, s, p);
  }

  lemma {:induction false} InHeld(par: Params, p: nat, s: int, bs: seq<Block>, b: Block)
    requires par.Ok() && b in bs && b.stripe == s
    ensures Index(par, p, s, b) in Held(par, p, s, bs)
  {}

  lemma {:induction false} Found(bs: seq<Block>, q: Query, b: Block)
    requires b in Sel(bs, q)
    ensures b in bs
  {
    SelMembers(bs, q);
  }

  lemma {:induction false} LocalHere(par: Params, p: nat, ph: Phase, c: nat, v: ClusterVal, s: nat, i: nat)
    requires par.Ok() && Live(ph, s) && LocalOk(par, ph, c, v, i, false)
    ensures par.K() * p + i in Held(par, p, s, v.blocks)
  {
    var b := LocalParity(par, c, s, i);
    assert Sel(v.blocks, ParityAt(L, s, i)) == [b];
    Found(v.blocks, ParityAt(L, s, i), b);
    InHeld(par, p, s, v.blocks, b);
  }

  lemma {:induction false} LocalStored(par: Params, p: nat, live: nat, tau: nat, lay: Layout, view: View, s: nat,
          i: nat) returns (c: nat)
    requires p >= 1 && ViewOk(par, Begin(p, live, 1, tau), lay, view, AllClean(|view|)) && s < live && i < par.l
    ensures c < |view| && par.K() * p + i in Held(par, p, s, view[c].blocks)
  {
    hide TotOk; hide Held; hide SrcOk; hide LocalOk; hide GlobalOk; hide BlockOk; hide ShapeOk;
    c := if Tails(lay) then lay.tail[i] else lay.gid;
    assert ClusterOk(par, Begin(p, live, 1, tau), Tails(lay), c, lay.roles[c], view[c], AllClean(|view|)[c]);
    LocalHere(par, p, Begin(p, live, 1, tau), c, view[c], s, i);
  }

  lemma {:induction false} GlobalStored(par: Params, p: nat, live: nat, tau: nat, lay: Layout, view: View, s: nat,
          e: nat) returns (c: nat)
    requires p >= 1 && ViewOk(par, Begin(p, live, 1, tau), lay, view, AllClean(|view|)) && s < live && e < par.g
    ensures c < |view| && par.K() * p + par.l + e in Held(par, p, s, view[c].blocks)
  {
    hide TotOk; hide Held; hide SrcOk; hide LocalOk; hide BlockOk; hide ShapeOk;
    c := lay.gid;
    assert ClusterOk(par, Begin(p, live, 1, tau), Tails(lay), c, lay.roles[c], view[c], AllClean(|view|)[c]);
    var found := Sel(view[c].blocks, ParityAt(G, s, par.l));
    assert found == GlobalParities(par, c, s);
    var b := Block(G, e + s * par.g, par.l, s, c);
    assert found[e] == b && b in found;
    Found(view[c].blocks, ParityAt(G, s, par.l), b);
    InHeld(par, p, s, view[c].blocks, b);
  }

  /** Every index of every stripe is stored somewhere. */
  lemma {:induction false} Stored(par: Params, p: nat, live: nat, tau: nat, lay: Layout, view: View, s: nat, x: nat)
    returns (c: nat)
    requires p >= 1 && ViewOk(par, Begin(p, live, 1, tau), lay, view, AllClean(|view|)) && s < live
    requires x < par.K() * p + par.l + par.g
    ensures c < |view| && x in Held(par, p, s, view[c].blocks)
  {
    hide ViewOk; hide Held;
    var k := par.K() * p;
    if x < k {
      c := DataStored(par, p, live, tau, lay, view, s, x);
    } else if x < k + par.l {
      c := LocalStored(par, p, live, tau, lay, view, s, x - k);
    } else {
      c := GlobalStored(par, p, live, tau, lay, view, s, x - k - par.l);
    }
  }

  // ------------------------------------------------------------------
  // What one cluster can take with it.

  lemma {:induction false} DataTags(par: Params, p: nat, live: nat, tau: nat, b: Block)
    requires par.Ok() && p >= 1 && DataOk(par, Begin(p, live, 1, tau), b)
    ensures b.num >= 0 && b.group == GroupOf(par, b.num) && b.stripe == StripeOf(par, b.num) / p
  {}

  lemma {:induction false} DataIndexSmall(par: Params, p: nat, live: nat, tau: nat, s: nat, b: Block)
    requires par.Ok() && p >= 1 && b.kind == D && DataOk(par, Begin(p, live, 1, tau), b) && b.stripe == s
    ensures 0 <= Index(par, p, s, b) < par.K() * p
  {
    hide StripeOf; hide GroupOf; hide OffsetOf; hide DataOk;
    DataTags(par, p, live, tau, b);
    Decompose(par, b.num);
    var o := StripeOf(par, b.num);
    assert o == o / p * p + o % p;
    IndexSmall(par, p, b.group, o % p, OffsetOf(par, b.num));
  }

  lemma {:induction false} IndexSmall(par: Params, p: nat, i: nat, y: nat, e: nat)
    requires par.Ok() && i < par.l && y < p && e < par.b
    ensures 0 <= i * (par.b * p) + y * par.b + e < par.K() * p
  {
    BelowProduct(y, e, p, par.b);
    assert p * par.b == par.b * p;
    BelowProduct(i, y * par.b + e, par.l, par.b * p);
    assert par.l * (par.b * p) == par.K() * p;
  }

  lemma {:induction false} BelowProduct(i: nat, y: nat, n: nat, w: nat)
    requires i < n && y < w
    ensures 0 <= i * w + y < n * w
  {
    MulMono(0, i, w);
    MulMono(i + 1, n, w);
    assert (i + 1) * w == i * w + w;
  }

  /** A data or tail cluster holds no global parity; the parity cluster no data. */
  lemma {:induction false} IndexKinds(par: Params, p: nat, live: nat, tau: nat, tails: bool, c: nat, role: Role,
          v: ClusterVal, s: nat, b: Block)
    requires p >= 1 && ClusterOk(par, Begin(p, live, 1, tau), tails, c, role, v, Clean) && b in v.blocks
    requires b.stripe == s < live
    ensures role == Glob ==> Index(par, p, s, b) >= par.K() * p
    ensures role != Glob ==> Index(par, p, s, b) < par.K() * p + par.l
  {
    hide SrcOk; hide LocalOk; hide DataOk;
    assert BlockOk(par, Begin(p, live, 1, tau), c, b);
    if b.kind == D {
      DataIndexSmall(par, p, live, tau, s, b);
    } else if b.kind == G {
      SelMembers(v.blocks, ParityAt(G, s, par.l));
      assert b in GlobalParities(par, c, s);
    }
  }

  lemma {:induction false} FewTogether(par: Params, p: nat, live: nat, tau: nat, tails: bool, c: nat, role: Role,
          v: ClusterVal, s: nat)
    requires p >= 1 && ClusterOk(par, Begin(p, live, 1, tau), tails, c, role, v, Clean) && s < live && tau <= par.g
    requires role != Glob
    ensures |Held(par, p, s, v.blocks)| <= par.g + 1
  {
    hide DataOk; hide Index; hide LocalParity;
    match role
    case Src(i, parity) =>
      HeldFew(par, p, s, i, v.blocks);
      assert Live(Begin(p, live, 1, tau), s);
      if parity {
        assert |Sel(v.blocks, ParityAt(L, s, i))| == 1;
      } else {
        OnlyData(v.blocks, s, i);
      }
    case Free =>
      var i := v.blocks[0].group;
      HeldFew(par, p, s, i, v.blocks);
      OnlyData(v.blocks, s, i);
      SelMembers(v.blocks, DataAt(s, i));
    case Glob => assert false;
  }

  lemma {:induction false} OnlyData(bs: seq<Block>, s: int, i: int)
    requires forall b :: b in bs ==> b.kind == D
    ensures Sel(bs, ParityAt(L, s, i)) == []
  {
    assert forall j :: 0 <= j < |bs| ==> bs[j] in bs;
    SelNone(bs, ParityAt(L, s, i));
  }

  /** Losing any one cluster leaves every stripe recoverable. */
  lemma {:induction false} LosingOneCluster(par: Params, p: nat, live: nat, tau: nat, lay: Layout, view: View, s: nat,
          c: nat)
    requires p >= 1 && ViewOk(par, Begin(p, live, 1, tau), lay, view, AllClean(|view|)) && tau <= par.g && s < live
    requires c < |view|
    ensures par.b * p >= 1 && InfoTheo(par.K() * p, par.l, par.g, par.b * p, Survivors(par, p, view, s, c))
  {
    hide Index; hide TotOk; hide LayoutOk; hide GroupsOf;
    MulGe(par.b, p);
    var k, item := par.K() * p, Survivors(par, p, view, s, c);
    var lost, held := Lost(k, par.l, par.g, item), Held(par, p, s, view[c].blocks);
    LostAreHeld(par, p, live, tau, lay, view, s, c);
    assert ClusterOk(par, Begin(p, live, 1, tau), Tails(lay), c, lay.roles[c], view[c], AllClean(|view|)[c]);
    hide ViewOk; hide Survivors; hide ClusterOk; hide Lost;
    HeldKinds(par, p, live, tau, Tails(lay), c, lay.roles[c], view[c], s);
    hide Held;
    if lay.roles[c] == Glob {
      OnlyParities(k, par.l, par.g, par.b * p, lost);
    } else {
      FewTogether(par, p, live, tau, Tails(lay), c, lay.roles[c], view[c], s);
      Subset(lost, held);
      OneGroup(k, par.l, par.g, par.b * p, lost);
    }
  }

  lemma {:induction false} HeldKinds(par: Params, p: nat, live: nat, tau: nat, tails: bool, c: nat, role: Role,
          v: ClusterVal, s: nat)
    requires p >= 1 && ClusterOk(par, Begin(p, live, 1, tau), tails, c, role, v, Clean) && s < live
    ensures forall x :: x in Held(par, p, s, v.blocks) ==> if role == Glob then x >= par.K() * p
      else x < par.K() * p + par.l
  {
    assert par.Ok();
    hide ClusterOk; hide Index;
    forall b | b in v.blocks && b.stripe == s
      ensures var x := Index(par, p, s, b); if role == Glob then x >= par.K() * p else x < par.K() * p + par.l
    {
      IndexKinds(par, p, live, tau, tails, c, role, v, s, b);
    }
  }

  lemma {:induction false} LostAreHeld(par: Params, p: nat, live: nat, tau: nat, lay: Layout, view: View, s: nat,
          c: nat)
    requires p >= 1 && ViewOk(par, Begin(p, live, 1, tau), lay, view, AllClean(|view|)) && s < live && c < |view|
    ensures forall x :: x in Lost(par.K() * p, par.l, par.g, Survivors(par, p, view, s, c)) ==>
      x in Held(par, p, s, view[c].blocks) && 0 <= x < par.K() * p + par.l + par.g
  {
    assert par.Ok();
    hide Held; hide ViewOk;
    var survivors := Survivors(par, p, view, s, c);
    var lost := Lost(par.K() * p, par.l, par.g, survivors);
    forall x | x in lost ensures x in Held(par, p, s, view[c].blocks) {
      var d := Stored(par, p, live, tau, lay, view, s, x);
      assert d != c ==> x in survivors;
    }
  }
}
