/** How many blocks of a Reed-Solomon stripe go to each group
(project/src/config.cpp, project/src/client.cpp). */
module RsCounts {
  import opened Arith
  import opened Sums

  function Pow2(n: nat): nat { if n == 0 then 1 else 2 * Pow2(n - 1) }

  /** The quotient rounded up. */
  function Up(a: int, r: nat): int
    requires r >= 1
  {
    -(-a / r)
  }

  lemma {:induction false} UpIs(a: int, q: int, r: nat)
    requires r >= 1 && (q - 1) * r < a <= q * r
    ensures Up(a, r) == q
  {
    assert (-q) * r == -(q * r) && (q - 1) * r == q * r - r;
    DivIs(-a, -q, r);
  }

  lemma {:induction false} UpBounds(a: int, r: nat)
    requires r >= 1
    ensures (Up(a, r) - 1) * r < a <= Up(a, r) * r
  {
    var d := -a / r;
    assert -a == d * r + -a % r;
    assert Up(a, r) * r == -(d * r) && (Up(a, r) - 1) * r == -(d * r) - r;
  }

  lemma {:induction false} UpMono(a: int, b: int, r: nat)
    requires r >= 1 && a <= b
    ensures Up(a, r) <= Up(b, r)
  {
    UpBounds(a, r);
    UpBounds(b, r);
    if Up(b, r) < Up(a, r) { MulMono(Up(b, r), Up(a, r) - 1, r); }
  }

  /** One whole group more. */
  lemma {:induction false} UpMore(a: int, r: nat)
    requires r >= 1
    ensures Up(a + r, r) == Up(a, r) + 1
  {
    UpBounds(a, r);
    var q := Up(a, r);
    assert (q + 1) * r == q * r + r && (q - 1) * r == q * r - r;
    UpIs(a + r, q + 1, r);
  }

  // ------------------------------------------------------------------
  // How often a stripe can be doubled.

  /** Groups of a stripe with n times the data. */
  function Groups(k: nat, r: nat, n: nat): int
    requires r >= 1
  {
    Up(n * k + r, r)
  }

  lemma {:induction false} PowGrows(m: nat, n: nat)
    requires m <= n
    ensures 1 <= Pow2(m) <= Pow2(n)
  {
    if m < n { PowGrows(m, n - 1); } else if n > 0 { PowGrows(n - 1, n - 1); }
  }

  lemma {:induction false} GroupsMono(k: nat, r: nat, m: nat, n: nat)
    requires r >= 1 && m <= n
    ensures Groups(k, r, Pow2(m)) <= Groups(k, r, Pow2(n))
  {
    PowGrows(m, n);
    MulMono(Pow2(m), Pow2(n), k);
    UpMono(Pow2(m) * k + r, Pow2(n) * k + r, r);
  }

  /** n is the last number of doublings that still fits. */
  ghost predicate LastFit(clusters: int, k: nat, r: nat, n: nat)
    requires r >= 1
  {
    Groups(k, r, Pow2(n)) <= clusters < Groups(k, r, Pow2(n + 1))
  }

  /** It fits exactly if the clusters, r blocks each, hold its data and parities. */
  lemma {:induction false} FitsIff(k: nat, r: nat, n: nat, clusters: int)
    requires r >= 1
    ensures Groups(k, r, n) <= clusters <==> n * k + r <= clusters * r
  {
    hide Up;
    var u := Groups(k, r, n);
    UpBounds(n * k + r, r);
    if u <= clusters { MulMono(u, clusters, r); } else { MulMono(clusters, u - 1, r); }
  }

  lemma {:induction false} LastFitIs(clusters: int, k: nat, r: nat, n: nat)
    requires r >= 1
    ensures LastFit(clusters, k, r, n) <==> Pow2(n) * k + r <= clusters * r < 2 * Pow2(n) * k + r
  {
    hide Groups;
    FitsIff(k, r, Pow2(n), clusters);
    FitsIff(k, r, Pow2(n + 1), clusters);
  }

  /** get_N. */
  method GetN(clusters: int, k: nat, r: nat) returns (n: nat)
    ensures clusters > 0 && r > 0 && LastFit(clusters, k, r, n) ==>
      forall m :: 0 <= m <= n ==> Groups(k, r, Pow2(m)) <= clusters
    ensures clusters > 0 && r > 0 && LastFit(clusters, k, r, n) ==>
      forall m: nat :: n < m ==> Groups(k, r, Pow2(m)) > clusters
    ensures clusters > 0 && r > 0 && !LastFit(clusters, k, r, n) ==> n == 0 && forall m :: 0 <= m < 32 ==>
      !LastFit(clusters, k, r, m)
    ensures clusters <= 0 || r == 0 ==> n == 0
  {
    hide Groups; hide Pow2;
    if clusters <= 0 || r <= 0 { return 0; }
    n := 0;
    while n < 32
      invariant n <= 32 && forall m :: 0 <= m < n ==> !LastFit(clusters, k, r, m)
    {
      if Groups(k, r, Pow2(n)) <= clusters && Groups(k, r, Pow2(n + 1)) > clusters {
        forall m | 0 <= m <= n ensures Groups(k, r, Pow2(m)) <= clusters { GroupsMono(k, r, m, n); }
        forall m: nat | n < m ensures Groups(k, r, Pow2(m)) > clusters { GroupsMono(k, r, n + 1, m); }
        return;
      }
      n := n + 1;
    }
    n := 0;
  }

  /** Groups saved, plus one, when two stripes of half the size are joined. */
  function Saved(k: nat, r: nat, i: nat): int
    requires r >= 1 && i >= 1
  {
    2 * Groups(k, r, Pow2(i - 1)) - Groups(k, r, Pow2(i))
  }

  /** get_num_arry. */
  method GetNumArray(n: nat, k: nat, r: nat) returns (nums: seq<int>)
    requires r >= 1
    ensures |nums| == n && forall i :: 0 <= i < n ==> nums[i] == Saved(k, r, i + 1)
  {
    nums := [];
    for i := 1 to n + 1
      invariant |nums| == i - 1 && forall e :: 0 <= e < i - 1 ==> nums[e] == Saved(k, r, e + 1)
    {
      nums := nums + [Groups(k, r, Pow2(i - 1)) * 2 - Groups(k, r, Pow2(i))];
    }
  }

  lemma {:induction false} Doubled(x: nat, r: nat)
    requires r >= 1
    ensures var d := 2 * Up(x, r) - Up(2 * x, r); 0 <= d <= 1 && (d == 0 <==> x % r == 0 || 2 * (x % r) > r)
  {
    hide Up;
    var q, t := x / r, x % r;
    assert x == q * r + t;
    Multiples(q, r);
    if t == 0 {
      UpIs(x, q, r);
      UpIs(2 * x, 2 * q, r);
    } else {
      UpIs(x, q + 1, r);
      UpIs(2 * x, if 2 * t > r then 2 * q + 2 else 2 * q + 1, r);
    }
  }

  lemma {:induction false} Multiples(q: int, r: nat)
    ensures (q - 1) * r == q * r - r && (q + 1) * r == q * r + r
    ensures (2 * q) * r == 2 * (q * r) && (2 * q - 1) * r == 2 * (q * r) - r
    ensures (2 * q + 1) * r == 2 * (q * r) + r && (2 * q + 2) * r == 2 * (q * r) + 2 * r
  {}

  /** The entries are always 1 or 2; the first is 1 exactly if k leaves no remainder, or
      one of more than half a group. */
  lemma {:induction false} OneOrTwo(k: nat, r: nat, i: nat)
    requires r >= 1 && i >= 1
    ensures Saved(k, r, i) == 1 || Saved(k, r, i) == 2
    ensures i == 1 ==> (Saved(k, r, 1) == 1 <==> k % r == 0 || 2 * (k % r) > r)
  {
    var x := Pow2(i - 1) * k;
    assert Pow2(i) * k == 2 * x;
    Doubled(x, r);
    UpMore(x, r);
    UpMore(2 * x, r);
    if i == 1 { assert x == k; }
  }

  // ------------------------------------------------------------------
  // The counts per group.

  /** n times the same number. */
  function Times(n: nat, x: int): (r: seq<int>)
    ensures |r| == n && forall e :: 0 <= e < n ==> r[e] == x
  {
    seq(n, _ => x)
  }

  lemma {:induction false} SumTimes(n: nat, x: int)
    ensures Sum(Times(n, x)) == n * x
  {
    if n > 0 {
      assert Times(n, x)[..n - 1] == Times(n - 1, x);
      SumTimes(n - 1, x);
      assert n * x == (n - 1) * x + x;
    }
  }

  lemma {:induction false} SumJoin(a: seq<int>, b: seq<int>)
    ensures Sum(a + b) == Sum(a) + Sum(b)
  {
    if b == [] {
      assert a + b == a;
    } else {
      var n := |b| - 1;
      assert (a + b)[..|a| + n] == a + b[..n];
      SumJoin(a, b[..n]);
    }
  }

  /** Blocks of the last, incomplete group, and how many short of whole groups. */
  function Last(k: nat, r: nat): int
    requires r >= 1
  {
    (k + r - 1) % r + 1
  }

  function Short(k: nat, r: nat): int
    requires r >= 1
  {
    r - Last(k, r)
  }

  /** k blocks fill Up(k) groups of r except for `Short` of them that lack one. */
  lemma {:induction false} LastIs(k: nat, r: nat)
    requires r >= 1
    ensures Last(k, r) == if k % r == 0 then r else k % r
  {
    var q, m := k / r, k % r;
    assert k == q * r + m && (q + 1) * r == q * r + r;
    DivIs(k + r - 1, if m == 0 then q else q + 1, r);
  }

  lemma {:induction false} UpOf(k: nat, r: nat)
    requires r >= 1
    ensures Up(k, r) == (if k % r == 0 then k / r else k / r + 1) >= 0
  {
    hide Up;
    var q, m := k / r, k % r;
    assert k == q * r + m && (q + 1) * r == q * r + r && (q - 1) * r == q * r - r;
    DivAtLeast(k, 0, r);
    UpIs(k, if m == 0 then q else q + 1, r);
  }

  lemma {:induction false} ShortIs(k: nat, r: nat)
    requires r >= 1
    ensures 0 <= Short(k, r) < r && k == Up(k, r) * r - Short(k, r) && Up(k, r) >= 0
    ensures Short(k, r) == if k % r == 0 then 0 else r - k % r
  {
    hide Up; hide Last;
    LastIs(k, r);
    UpOf(k, r);
    var q := k / r;
    assert k == q * r + k % r && (q + 1) * r == q * r + r;
  }

  /** Groups of r data blocks besides the `small` ones of r - 1, when `rest` remain. */
  function Large(rest: int, r: nat): int
    requires r >= 1
  {
    Up(rest, r)
  }

  /** `groups` counts: a for the first ones, b for the others. */
  function Fill(groups: int, first: int, a: int, b: int): (r: seq<int>)
    ensures |r| == (if groups < 0 then 0 else groups) && forall g :: 0 <= g < |r| ==> r[g] == if g < first then a else b
  {
    if groups < 0 then [] else seq(groups, g => if g < first then a else b)
  }

  /** Data blocks per group: one group of parities, then small groups before or after
      the large ones. */
  function PlainData(k: nat, r: nat, odd: bool): seq<int>
    requires r >= 1
  {
    var small := Short(k, r);
    var large := Large(k - small * (r - 1), r);
    [0] + if odd then Fill(small + large, small, r - 1, r) else Fill(small + large, large, r, r - 1)
  }

  /** Small groups when the parities are split over two groups that also take data. */
  function MixedSmall(k: nat, r: nat): int
    requires r >= 1
  {
    if Short(k, r) - 2 > 0 then Short(k, r) - 2 else 0
  }

  function MixedData(k: nat, r: nat): seq<int>
    requires r >= 1
  {
    var small := MixedSmall(k, r);
    [r - 3, 1] + Fill(small + Large(k - (r - 2) - small * (r - 1), r), small, r - 1, r)
  }

  predicate Plain(nums: seq<int>) { nums == [] || nums[0] == 1 }

  /** Parities per group, n groups. */
  function Globals(r: nat, plain: bool, n: nat): seq<int>
    requires n >= if plain then 1 else 2
  {
    if plain then [r] + Times(n - 1, 0) else [2, r - 2] + Times(n - 2, 0)
  }

  /** Whether a stripe's initial list is odd. */
  predicate OddList(sid: int, n: nat) {
    var two := Pow2(n);
    if two >= 1 then ((sid % two + two) % two + 1) % 2 == 1 else false
  }

  /** Stripe 0 has an odd list; with one list all have, else odd and even take turns. */
  lemma {:induction false} ListsAlternate(sid: int, n: nat)
    ensures OddList(sid, n) <==> n == 0 || sid % 2 == 0
  {
    if n > 0 {
      PowGrows(0, n - 1);
      FirstList(sid, Pow2(n - 1));
    }
  }

  lemma {:induction false} FirstList(sid: int, half: nat)
    requires half >= 1
    ensures var two := 2 * half; ((sid % two + two) % two + 1) % 2 == 1 <==> sid % 2 == 0
  {
    var two := 2 * half;
    var q, t := sid / two, sid % two;
    DivIs(t + two, 1, two);
    EvenRest(sid, q, half, t);
  }

  lemma {:induction false} EvenRest(x: int, q: int, half: int, t: int)
    requires x == q * (2 * half) + t
    ensures x % 2 == t % 2
  {
    assert x == 2 * (q * half) + t;
  }

  /** Small groups before large ones in stripes 0, 2, ..., after them in stripes 1, 3, ... */
  ghost predicate InOrder(plain: bool, odd: bool, data: seq<int>) {
    if plain then forall g, h :: 1 <= g < h < |data| ==> if odd then data[g] <= data[h] else data[g] >= data[h]
    else forall g, h :: 2 <= g < h < |data| ==> data[g] <= data[h]
  }

  lemma {:induction false} DataOrder(k: nat, r: nat, odd: bool)
    requires r >= 1
    ensures InOrder(true, odd, PlainData(k, r, odd)) && InOrder(false, odd, MixedData(k, r))
  {
    hide Up;
  }

  /** Appends the counts of the groups that hold only data. */
  method AddGroups(data0: seq<int>, globals0: seq<int>, locals0: seq<int>, groups: int, first: int, a: int, b: int)
    returns (data: seq<int>, globals: seq<int>, locals: seq<int>)
    ensures data == data0 + Fill(groups, first, a, b)
    ensures globals == globals0 + Times(|Fill(groups, first, a, b)|, 0)
    ensures locals == locals0 + Times(|Fill(groups, first, a, b)|, 0)
  {
    data, globals, locals := data0, globals0, locals0;
    ghost var all := Fill(groups, first, a, b);
    var g := 0;
    while g < groups
      invariant 0 <= g <= |all| && data == data0 + all[..g] && globals == globals0 + Times(g, 0)
      invariant locals == locals0 + Times(g, 0)
      invariant groups >= 0 ==> g <= groups
    {
      data := data + [if g < first then a else b];
      globals, locals := globals + [0], locals + [0];
      g := g + 1;
    }
    assert all[..|all|] == all;
  }

  /** get_rs_block_num_per_group_from_stripe_id. */
  method BlockNumPerGroup(k: nat, r: nat, nums: seq<int>, n: nat, sid: int)
    returns (data: seq<int>, globals: seq<int>, locals: seq<int>)
    requires r >= 1
    ensures data == if Plain(nums) then PlainData(k, r, OddList(sid, n)) else MixedData(k, r)
    ensures |data| >= 2 || (Plain(nums) && |data| >= 1)
    ensures InOrder(Plain(nums), n == 0 || sid % 2 == 0, data)
    ensures locals == Times(|data|, 0)
    ensures globals == Globals(r, Plain(nums), |data|)
  {
    hide Up; hide Pow2; hide OddList; hide Last; hide Fill; hide InOrder;
    ListsAlternate(sid, n);
    DataOrder(k, r, OddList(sid, n));
    if nums == [] || nums[0] == 1 {
      var small := r - Last(k, r);
      var large := Up(k - small * (r - 1), r);
      if OddList(sid, n) {
        data, globals, locals := AddGroups([0], [r], [0], small + large, small, r - 1, r);
      } else {
        data, globals, locals := AddGroups([0], [r], [0], small + large, large, r, r - 1);
      }
    } else {
      var small := if r - Last(k, r) - 2 > 0 then r - Last(k, r) - 2 else 0;
      var groups := small + Up(k - (r - 2) - small * (r - 1), r);
      data, globals, locals := AddGroups([r - 3, 1], [2, r - 2], [0, 0], groups, small, r - 1, r);
    }
  }

  // ------------------------------------------------------------------
  // What the counts add up to.

  lemma {:induction false} SumFill(groups: nat, first: nat, a: int, b: int)
    requires first <= groups
    ensures Sum(Fill(groups, first, a, b)) == first * a + (groups - first) * b
  {
    assert Fill(groups, first, a, b) == Times(first, a) + Times(groups - first, b);
    SumJoin(Times(first, a), Times(groups - first, b));
    SumTimes(first, a);
    SumTimes(groups - first, b);
  }

  lemma {:induction false} SumOne(x: int, xs: seq<int>)
    ensures Sum([x] + xs) == x + Sum(xs)
  {
    SumJoin([x], xs);
    assert [x][..0] == [];
  }

  /** Whole groups left once the small ones are filled. */
  lemma {:induction false} PlainLarge(k: nat, r: nat)
    requires r >= 1
    ensures Large(k - Short(k, r) * (r - 1), r) == Up(k, r) - Short(k, r)
    ensures Up(k, r) >= Short(k, r) <==> k >= Short(k, r) * (r - 1)
  {
    hide Up; hide Short;
    ShortIs(k, r);
    var c, small := Up(k, r), Short(k, r);
    var large := c - small;
    assert small * (r - 1) == small * r - small && large * r == c * r - small * r && (large - 1) * r == large * r - r;
    UpIs(large * r, large, r);
    if large < 0 { MulMono(large, -1, r); } else { MulMono(0, large, r); }
  }

  lemma {:induction false} UpAll(k: nat, r: nat)
    requires r >= 1
    ensures Up(k + r, r) == Up(k, r) + 1
  {
    UpMore(k, r);
  }

  /** The plain counts hold exactly k data blocks iff k fills the small groups. */
  lemma {:induction false} PlainExact(k: nat, r: nat, odd: bool)
    requires r >= 1
    ensures Sum(PlainData(k, r, odd)) == k <==> k >= Short(k, r) * (r - 1)
    ensures |PlainData(k, r, odd)| == Up(k + r, r)
    ensures forall g :: 0 <= g < |PlainData(k, r, odd)| ==> 0 <= PlainData(k, r, odd)[g] <= r
    ensures |PlainData(k, r, odd)| >= 1 && PlainData(k, r, odd)[0] == 0
  {
    hide Up; hide Fill; hide Short;
    ShortIs(k, r);
    PlainLarge(k, r);
    UpAll(k, r);
    var c, small := Up(k, r), Short(k, r);
    var tail := Tail(c, small, r, odd);
    assert PlainData(k, r, odd) == [0] + tail;
    hide Tail;
    SumOne(0, tail);
    PlainTail(c, small, r, odd);
  }

  function Tail(c: nat, small: nat, r: nat, odd: bool): seq<int> {
    if odd then Fill(c, small, r - 1, r) else Fill(c, c - small, r, r - 1)
  }

  /** c groups, `small` of them one block short, if there are that many. */
  lemma {:induction false} PlainTail(c: nat, small: nat, r: nat, odd: bool)
    requires r >= 1
    ensures |Tail(c, small, r, odd)| == c && forall g :: 0 <= g < c ==> 0 <= Tail(c, small, r, odd)[g] <= r
    ensures Sum(Tail(c, small, r, odd)) == c * r - small <==> c >= small
  {
    hide Sum;
    if c >= small {
      TailFits(c, small, r, odd);
    } else {
      assert Tail(c, small, r, odd) == Times(c, r - 1);
      SumTimes(c, r - 1);
      assert c * (r - 1) == c * r - c;
    }
  }

  lemma {:induction false} TailFits(c: nat, small: nat, r: nat, odd: bool)
    requires small <= c
    ensures Sum(Tail(c, small, r, odd)) == c * r - small
  {
    hide Sum; hide Fill;
    if odd { SumFill(c, small, r - 1, r); } else { SumFill(c, c - small, r, r - 1); }
    assert small * (r - 1) == small * r - small && (c - small) * r == c * r - small * r;
  }

  /** The mixed counts, chosen when k leaves a remainder of at most half a group, hold
      exactly k data blocks iff r >= 3 and k fills the shared and the small groups. */
  lemma {:induction false} MixedExact(k: nat, r: nat)
    requires r >= 1 && 0 < k % r && 2 * (k % r) <= r
    ensures Sum(MixedData(k, r)) == k <==> r >= 3 && k >= r - 2 + MixedSmall(k, r) * (r - 1)
    ensures r >= 3 ==> |MixedData(k, r)| == Up(k + r, r)
    ensures r >= 3 ==> forall g :: 0 <= g < |MixedData(k, r)| ==> 0 <= MixedData(k, r)[g] <= r
    ensures |MixedData(k, r)| >= 2 && MixedData(k, r)[0] + 2 <= r && MixedData(k, r)[1] + r - 2 <= r
  {
    hide Up; hide Fill; hide Short; hide MixedData; hide MixedSmall; hide Sum;
    if r < 3 { MixedTwo(k); } else { MixedThree(k, r); }
  }

  /** With two parities the first group would have to hold -1 data blocks, and the others
      hold one too many. */
  lemma {:induction false} MixedTwo(k: nat)
    requires k % 2 == 1
    ensures |MixedData(k, 2)| == Up(k + 2, 2) + 1 >= 2 && MixedData(k, 2)[..2] == [-1, 1]
    ensures Sum(MixedData(k, 2)) == k + 1
  {
    hide Up; hide Short; hide Sum;
    ShortIs(k, 2);
    UpOf(k, 2);
    UpAll(k, 2);
    var c := Up(k, 2);
    assert MixedSmall(k, 2) == 0 && MixedData(k, 2) == [-1, 1] + Times(c, 2);
    assert [-1, 1] + Times(c, 2) == [-1] + ([1] + Times(c, 2));
    SumOne(-1, [1] + Times(c, 2));
    SumOne(1, Times(c, 2));
    SumTimes(c, 2);
  }

  lemma {:induction false} MixedThree(k: nat, r: nat)
    requires r >= 3 && 0 < k % r && 2 * (k % r) <= r
    ensures Sum(MixedData(k, r)) == k <==> k >= r - 2 + MixedSmall(k, r) * (r - 1)
    ensures |MixedData(k, r)| == Up(k + r, r) >= 2
    ensures forall g :: 0 <= g < |MixedData(k, r)| ==> 0 <= MixedData(k, r)[g] <= r
    ensures MixedData(k, r)[0] + 2 <= r && MixedData(k, r)[1] + r - 2 <= r
  {
    hide Up; hide Fill; hide Short; hide MixedData; hide MixedSmall; hide Tail; hide Sum;
    ShortIs(k, r);
    UpAll(k, r);
    var c, small := Up(k, r), MixedSmall(k, r);
    MixedLarge(k, r);
    MixedJoin(k, r);
    PlainTail(c - 1, small, r, true);
    assert (c - 1) * r == c * r - r;
  }

  lemma {:induction false} MixedJoin(k: nat, r: nat)
    requires r >= 3 && 0 < k % r && 2 * (k % r) <= r && Up(k, r) >= 1 && MixedSmall(k, r) >= 0
    ensures var tail := Tail(Up(k, r) - 1, MixedSmall(k, r), r, true);
      && MixedData(k, r) == [r - 3, 1] + tail && Sum(MixedData(k, r)) == r - 2 + Sum(tail)
  {
    hide Up; hide Fill; hide Short; hide MixedSmall;
    MixedLarge(k, r);
    var tail := Tail(Up(k, r) - 1, MixedSmall(k, r), r, true);
    assert [r - 3, 1] + tail == [r - 3] + ([1] + tail);
    SumOne(r - 3, [1] + tail);
    SumOne(1, tail);
  }

  lemma {:induction false} MixedArith(k: int, c: int, small: int, r: nat)
    requires k == c * r - small - 2
    ensures k - (r - 2) - small * (r - 1) == (c - 1 - small) * r
  {
    assert small * (r - 1) == small * r - small && (c - 1 - small) * r == c * r - r - small * r;
  }

  lemma {:induction false} UpWhole(q: int, r: nat)
    requires r >= 1
    ensures Up(q * r, r) == q && (q >= 0 <==> q * r >= 0)
  {
    assert (q - 1) * r == q * r - r;
    UpIs(q * r, q, r);
    if q < 0 { MulMono(q, -1, r); } else { MulMono(0, q, r); }
  }

  lemma {:induction false} MixedLarge(k: nat, r: nat)
    requires r >= 3 && 0 < k % r && 2 * (k % r) <= r
    ensures var small := MixedSmall(k, r);
      && small == Short(k, r) - 2 && small >= 0 && Up(k, r) >= 1
      && Large(k - (r - 2) - small * (r - 1), r) == Up(k, r) - 1 - small
      && (Up(k, r) - 1 >= small <==> k >= r - 2 + small * (r - 1))
  {
    hide Up; hide Short;
    ShortIs(k, r);
    UpPositive(k, r);
    MixedArith(k, Up(k, r), MixedSmall(k, r), r);
    UpWhole(Up(k, r) - 1 - MixedSmall(k, r), r);
  }

  lemma {:induction false} UpPositive(k: nat, r: nat)
    requires r >= 1 && k >= 1
    ensures Up(k, r) >= 1
  {
    UpMono(1, k, r);
    UpIs(1, 1, r);
  }

  /** The parities per group are r in all. */
  lemma {:induction false} ParitiesExact(r: nat, plain: bool, n: nat)
    requires n >= if plain then 1 else 2
    ensures Sum(Globals(r, plain, n)) == r && |Globals(r, plain, n)| == n
  {
    if plain {
      SumTimes(n - 1, 0);
      SumOne(r, Times(n - 1, 0));
    } else {
      SumTimes(n - 2, 0);
      assert [2, r - 2] + Times(n - 2, 0) == [2] + ([r - 2] + Times(n - 2, 0));
      SumOne(2, [r - 2] + Times(n - 2, 0));
      SumOne(r - 2, Times(n - 2, 0));
    }
  }

  /** Data blocks that the chosen branch's small and shared groups take. */
  function Needed(k: nat, r: nat, plain: bool): int
    requires r >= 1
  {
    if plain then Short(k, r) * (r - 1) else r - 2 + MixedSmall(k, r) * (r - 1)
  }

  function Chosen(k: nat, r: nat, plain: bool, odd: bool): seq<int>
    requires r >= 1
  {
    if plain then PlainData(k, r, odd) else MixedData(k, r)
  }

  /** The branch taken puts no count below nought. */
  predicate Sound(r: nat, plain: bool) { plain || r >= 3 }

  /** With the first entry of num_arry deciding: the r parities are all there, and exactly k
      data blocks iff the branch is sound and k fills its small and shared groups. A sound
      branch has ceil((k + r) / r) groups of at most r blocks. */
  lemma {:induction false} ChosenExact(k: nat, r: nat, nums: seq<int>, odd: bool)
    requires r >= 1 && (nums != [] ==> nums[0] == Saved(k, r, 1))
    ensures var data := Chosen(k, r, Plain(nums), odd);
      && (Sum(data) == k <==> Sound(r, Plain(nums)) && k >= Needed(k, r, Plain(nums)))
      && |data| >= (if Plain(nums) then 1 else 2) && Sum(Globals(r, Plain(nums), |data|)) == r
    ensures Sound(r, Plain(nums)) ==> var data := Chosen(k, r, Plain(nums), odd);
      && |data| == Up(k + r, r)
      && forall g :: 0 <= g < |data| ==> 0 <= data[g] && data[g] + Globals(r, Plain(nums), |data|)[g] <= r
  {
    hide Up; hide Fill; hide Short; hide PlainData; hide MixedData; hide Sum; hide MixedSmall; hide Saved;
    if Plain(nums) {
      PlainExact(k, r, odd);
    } else {
      OneOrTwo(k, r, 1);
      MixedExact(k, r);
    }
    ParitiesExact(r, Plain(nums), |Chosen(k, r, Plain(nums), odd)|);
  }

  /** Six data blocks and five parities: neither branch holds six. Three data blocks and two
      parities: the mixed branch is taken and holds four, after a count of -1. */
  lemma {:induction false} CountsMiss(odd: bool)
    ensures Sum(PlainData(6, 5, odd)) != 6 && Sum(MixedData(6, 5)) != 6
    ensures Saved(3, 2, 1) == 2 && |MixedData(3, 2)| >= 2 && MixedData(3, 2)[0] == -1 && Sum(MixedData(3, 2)) == 4
  {
    hide PlainData; hide MixedData; hide Sum; hide Up;
    ShortIs(6, 5);
    assert 6 % 5 == 1;
    PlainExact(6, 5, odd);
    MixedExact(6, 5);
    OneOrTwo(3, 2, 1);
    MixedTwo(3);
    assert MixedData(3, 2)[0] == MixedData(3, 2)[..2][0];
  }
}
