/** Writing a whole stripe: the groups the coordinator sorts the blocks into
(project/src/coordinator.cpp) and the regions the client cuts its buffers into
(project/src/client.cpp). */
module SetLayout {
  import opened Wrappers
  import opened Arith

  /** Blocks 0..k-1 are data, then r global and z local parities. Group g takes the
      data from data[g] to data[g + 1], and so on. */
  datatype Layout = Layout(k: nat, r: nat, z: nat, data: seq<nat>, globals: seq<nat>, locals: seq<nat>) {
    function N(): nat { k + r + z }
    function Groups(): int { |data| - 1 }
  }

  ghost predicate CutsOk(cuts: seq<nat>, total: nat) {
    && |cuts| >= 2 && cuts[0] == 0 && cuts[|cuts| - 1] == total
    && forall g :: 0 <= g < |cuts| - 1 ==> cuts[g] <= cuts[g + 1]
  }

  ghost predicate LayoutOk(lay: Layout) {
    && CutsOk(lay.data, lay.k) && CutsOk(lay.globals, lay.r) && CutsOk(lay.locals, lay.z)
    && |lay.data| == |lay.globals| == |lay.locals|
  }

  function Range(lo: nat, hi: nat): (r: seq<nat>)
    requires lo <= hi
    ensures |r| == hi - lo && forall e :: 0 <= e < |r| ==> r[e] == lo + e
  {
    seq(hi - lo, e => lo + e)
  }

  /** Block b belongs to group g. */
  predicate InGroup(lay: Layout, b: nat, g: int) {
    && 0 <= g < |lay.data| - 1 && |lay.globals| == |lay.locals| == |lay.data|
    && if b < lay.k then lay.data[g] <= b < lay.data[g + 1]
       else if b < lay.k + lay.r then lay.globals[g] <= b - lay.k < lay.globals[g + 1]
       else lay.locals[g] <= b - lay.k - lay.r < lay.locals[g + 1]
  }

  lemma {:induction false} CutsRise(cuts: seq<nat>, total: nat, g: nat, h: nat)
    requires CutsOk(cuts, total) && g <= h < |cuts|
    ensures cuts[g] <= cuts[h]
  {
    if g < h { CutsRise(cuts, total, g, h - 1); }
  }

  lemma {:induction false} CutsMono(cuts: seq<nat>, total: nat, g: nat, h: nat)
    requires CutsOk(cuts, total) && g <= h < |cuts|
    ensures cuts[g] <= cuts[h] <= total
  {
    CutsRise(cuts, total, g, h);
    CutsRise(cuts, total, h, |cuts| - 1);
  }

  lemma {:induction false} CutFor(cuts: seq<nat>, total: nat, x: nat, g: nat) returns (h: nat)
    requires CutsOk(cuts, total) && x < total && g < |cuts| - 1 && cuts[g] <= x
    ensures h < |cuts| - 1 && cuts[h] <= x < cuts[h + 1]
    decreases |cuts| - g
  {
    if x < cuts[g + 1] { h := g; } else { h := CutFor(cuts, total, x, g + 1); }
  }

  /** Every block belongs to a group. */
  lemma {:induction false} GroupFor(lay: Layout, b: nat) returns (g: nat)
    requires LayoutOk(lay) && b < lay.N()
    ensures InGroup(lay, b, g)
  {
    if b < lay.k {
      g := CutFor(lay.data, lay.k, b, 0);
    } else if b < lay.k + lay.r {
      g := CutFor(lay.globals, lay.r, b - lay.k, 0);
    } else {
      g := CutFor(lay.locals, lay.z, b - lay.k - lay.r, 0);
    }
  }

  /** And to no other. */
  lemma {:induction false} OneGroup(lay: Layout, b: nat, g: nat, h: nat)
    requires LayoutOk(lay) && InGroup(lay, b, g) && InGroup(lay, b, h)
    ensures g == h
  {
    hide CutsOk;
    if g < h {
      CutsMono(lay.data, lay.k, g + 1, h);
      CutsMono(lay.globals, lay.r, g + 1, h);
      CutsMono(lay.locals, lay.z, g + 1, h);
    } else if h < g {
      CutsMono(lay.data, lay.k, h + 1, g);
      CutsMono(lay.globals, lay.r, h + 1, g);
      CutsMono(lay.locals, lay.z, h + 1, g);
    }
  }

  // ------------------------------------------------------------------
  // The coordinator's groups.

  /** The blocks below n with group g, ascending. */
  function Members(groupOf: seq<int>, g: int, n: nat): seq<nat>
    requires n <= |groupOf|
  {
    if n == 0 then [] else Members(groupOf, g, n - 1) + if groupOf[n - 1] == g then [n - 1] else []
  }

  function Mid(lo: nat, hi: nat, x: nat): nat
    requires lo <= hi
  {
    if x < lo then lo else if x > hi then hi else x
  }

  /** The blocks of group g: data, global parities, local parities. */
  function Blocks(lay: Layout, g: nat, n: nat): seq<nat>
    requires LayoutOk(lay) && g < lay.Groups()
  {
    var a, b, c, d, e, f := lay.data[g], lay.data[g + 1], lay.k + lay.globals[g], lay.k + lay.globals[g + 1],
      lay.k + lay.r + lay.locals[g], lay.k + lay.r + lay.locals[g + 1];
    Range(a, Mid(a, b, n)) + Range(c, Mid(c, d, n)) + Range(e, Mid(e, f, n))
  }

  /** The groups number the blocks as the layout says. */
  ghost predicate Follows(lay: Layout, groupOf: seq<int>) {
    |groupOf| == lay.N() && forall b, g: nat :: 0 <= b < |groupOf| && InGroup(lay, b, g) ==> groupOf[b] == g
  }

  lemma {:induction false} MembersAre(lay: Layout, groupOf: seq<int>, g: nat, n: nat)
    requires LayoutOk(lay) && Follows(lay, groupOf) && g < lay.Groups() && n <= lay.N()
    ensures Members(groupOf, g, n) == Blocks(lay, g, n)
  {
    hide LayoutOk;
    GroupBounds(lay, g);
    if n > 0 {
      MembersAre(lay, groupOf, g, n - 1);
      var h := GroupFor(lay, n - 1);
      if InGroup(lay, n - 1, g) { OneGroup(lay, n - 1, g, h); }
      assert groupOf[n - 1] == g <==> InGroup(lay, n - 1, g);
      BlocksStep(lay, g, n);
    } else {
      assert Blocks(lay, g, 0) == [];
    }
  }

  lemma {:induction false} GroupBounds(lay: Layout, g: nat)
    requires LayoutOk(lay) && g < lay.Groups()
    ensures lay.data[g] <= lay.data[g + 1] <= lay.k && lay.globals[g] <= lay.globals[g + 1] <= lay.r
    ensures lay.locals[g] <= lay.locals[g + 1] <= lay.z
    ensures |lay.data| == |lay.globals| == |lay.locals|
  {
    CutsMono(lay.data, lay.k, g, g + 1);
    CutsMono(lay.globals, lay.r, g, g + 1);
    CutsMono(lay.locals, lay.z, g, g + 1);
  }

  lemma {:induction false} BlocksStep(lay: Layout, g: nat, n: nat)
    requires LayoutOk(lay) && g < lay.Groups() && 0 < n <= lay.N()
    ensures Blocks(lay, g, n) == Blocks(lay, g, n - 1) + if InGroup(lay, n - 1, g) then [n - 1] else []
  {
    hide LayoutOk; hide CutsOk; hide Range; hide Mid;
    GroupBounds(lay, g);
    var a, b, c, d, e, f := lay.data[g], lay.data[g + 1], lay.k + lay.globals[g], lay.k + lay.globals[g + 1],
      lay.k + lay.r + lay.locals[g], lay.k + lay.r + lay.locals[g + 1];
    RangeStep(a, b, n);
    RangeStep(c, d, n);
    RangeStep(e, f, n);
    var x, y, w := Range(a, Mid(a, b, n - 1)), Range(c, Mid(c, d, n - 1)), Range(e, Mid(e, f, n - 1));
    if n <= c { RangeNone(c, d, n - 1); }
    if n <= e { RangeNone(e, f, n - 1); }
    JoinStep(x, y, w, n - 1);
  }

  lemma {:induction false} RangeNone(lo: nat, hi: nat, n: nat)
    requires lo <= hi && n <= lo
    ensures Range(lo, Mid(lo, hi, n)) == []
  {}

  lemma {:induction false} JoinStep(x: seq<nat>, y: seq<nat>, w: seq<nat>, m: nat)
    ensures y == w == [] ==> (x + [m]) + (y + []) + (w + []) == x + y + w + [m]
    ensures w == [] ==> (x + []) + (y + [m]) + (w + []) == x + y + w + [m]
    ensures (x + []) + (y + []) + (w + [m]) == x + y + w + [m]
    ensures (x + []) + (y + []) + (w + []) == x + y + w + []
  {}

  lemma {:induction false} RangeStep(lo: nat, hi: nat, n: nat)
    requires lo <= hi && n > 0
    ensures Range(lo, Mid(lo, hi, n)) == Range(lo, Mid(lo, hi, n - 1)) + if lo < n <= hi then [n - 1] else []
  {}

  /** The blocks of group g, all of them. */
  lemma {:induction false} WholeGroup(lay: Layout, g: nat)
    requires LayoutOk(lay) && g < lay.Groups()
    ensures lay.data[g] <= lay.data[g + 1] && lay.globals[g] <= lay.globals[g + 1] && lay.locals[g] <= lay.locals[g + 1]
    ensures Blocks(lay, g, lay.N()) == Range(lay.data[g], lay.data[g + 1])
      + Range(lay.k + lay.globals[g], lay.k + lay.globals[g + 1]) +
        Range(lay.k + lay.r + lay.locals[g], lay.k + lay.r + lay.locals[g + 1])
  {
    GroupBounds(lay, g);
  }

  // ------------------------------------------------------------------
  // The client's regions.

  /** Blocks between two cuts. */
  function Count(cuts: seq<nat>, g: nat): int
    requires g < |cuts| - 1
  {
    var hi: int := cuts[g + 1];
    hi - cuts[g]
  }

  function Counts(cuts: seq<nat>): (r: seq<int>)
    requires |cuts| >= 1
    ensures |r| == |cuts| - 1 && forall g :: 0 <= g < |r| ==> r[g] == Count(cuts, g)
  {
    seq(|cuts| - 1, g requires 0 <= g < |cuts| - 1 => Count(cuts, g))
  }

  /** A place in the buffer of one group. */
  datatype Pointer = Pointer(group: nat, offset: nat)

  /** n pieces of group g from the given one. */
  function Pieces(g: nat, from: nat, n: nat, size: nat): (r: seq<Pointer>)
    ensures |r| == n && forall e :: 0 <= e < n ==> r[e] == Pointer(g, (from + e) * size)
  {
    seq(n, e requires 0 <= e => Pointer(g, (from + e) * size))
  }

  /** splitCharPointer: the starts of n pieces of one size, if they use the buffer up. */
  method SplitBuffer(group: nat, n: nat, size: nat, total: nat) returns (r: Option<seq<Pointer>>)
    ensures r.Some? <==> total == n * size
    ensures r.Some? ==> r.value == Pieces(group, 0, n, size)
  {
    var pieces: seq<Pointer> := [];
    var offset := 0;
    for e := 0 to n
      invariant offset == e * size && |pieces| == e
      invariant forall x :: 0 <= x < e ==> pieces[x] == Pointer(group, (0 + x) * size)
    {
      assert (e + 1) * size == e * size + size;
      if offset + size > total {
        MulMono(e + 1, n, size);
        return None;
      }
      pieces := pieces + [Pointer(group, offset)];
      offset := offset + size;
    }
    if offset != total { return None; }
    r := Some(pieces);
  }

  /** Group g's regions: data first, then global, then local parities. */
  ghost predicate GroupPointers(lay: Layout, size: nat, g: nat, data: seq<Pointer>, globals: seq<Pointer>,
          locals: seq<Pointer>)
    requires LayoutOk(lay) && g < lay.Groups()
  {
    GroupBounds(lay, g);
    var d, e, f := Count(lay.data, g), Count(lay.globals, g), Count(lay.locals, g);
    && lay.data[g + 1] <= |data| && data[lay.data[g]..lay.data[g + 1]] == Pieces(g, 0, d, size)
    && lay.globals[g + 1] <= |globals| && globals[lay.globals[g]..lay.globals[g + 1]] == Pieces(g, d, e, size)
    && lay.locals[g + 1] <= |locals| && locals[lay.locals[g]..lay.locals[g + 1]] == Pieces(g, d + e, f, size)
  }

  lemma {:induction false} SliceKept(a: seq<Pointer>, b: seq<Pointer>, lo: nat, hi: nat)
    requires lo <= hi <= |a|
    ensures (a + b)[lo..hi] == a[lo..hi] && (a + b)[|a|..|a| + |b|] == b
  {}

  lemma {:induction false} PointersKept(lay: Layout, size: nat, g: nat, data: seq<Pointer>, globals: seq<Pointer>,
          locals: seq<Pointer>, x: seq<Pointer>, y: seq<Pointer>, w: seq<Pointer>)
    requires LayoutOk(lay) && g < lay.Groups() && GroupPointers(lay, size, g, data, globals, locals)
    ensures GroupPointers(lay, size, g, data + x, globals + y, locals + w)
  {
    GroupBounds(lay, g);
    SliceKept(data, x, lay.data[g], lay.data[g + 1]);
    SliceKept(globals, y, lay.globals[g], lay.globals[g + 1]);
    SliceKept(locals, w, lay.locals[g], lay.locals[g + 1]);
  }

  lemma {:induction false} PointersAdded(lay: Layout, size: nat, g: nat, data: seq<Pointer>, globals: seq<Pointer>,
          locals: seq<Pointer>, pieces: seq<Pointer>)
    requires LayoutOk(lay) && g < lay.Groups() && |data| == lay.data[g] && |globals| == lay.globals[g]
    requires |locals| == lay.locals[g]
    requires var d, e, f := Count(lay.data, g), Count(lay.globals, g), Count(lay.locals, g);
      d >= 0 && e >= 0 && f >= 0 && pieces == Pieces(g, 0, d + e + f, size)
    ensures var d, e, f := Count(lay.data, g), Count(lay.globals, g), Count(lay.locals, g);
      GroupPointers(lay, size, g, data + pieces[..d], globals + pieces[d..d + e], locals + pieces[d + e..])
  {
    hide LayoutOk;
    GroupBounds(lay, g);
    var d, e, f := Count(lay.data, g), Count(lay.globals, g), Count(lay.locals, g);
    SliceKept(data, pieces[..d], 0, 0);
    SliceKept(globals, pieces[d..d + e], 0, 0);
    SliceKept(locals, pieces[d + e..], 0, 0);
    assert pieces[..d] == Pieces(g, 0, d, size);
    assert pieces[d..d + e] == Pieces(g, d, e, size);
    assert pieces[d + e..] == Pieces(g, d + e, f, size);
  }

  /** Group g's buffer holds as many blocks as the client counts. */
  predicate SizeAgrees(size: nat, sizes: seq<nat>, dataNum: seq<int>, globalNum: seq<int>, localNum: seq<int>, g: nat)
    requires g < |sizes| && g < |dataNum| == |globalNum| == |localNum|
  {
    sizes[g] == (dataNum[g] + globalNum[g] + localNum[g]) * size
  }

  predicate SizesFit(size: nat, sizes: seq<nat>, dataNum: seq<int>, globalNum: seq<int>, localNum: seq<int>) {
    && |sizes| <= |dataNum| == |globalNum| == |localNum|
    && forall g :: 0 <= g < |sizes| ==> SizeAgrees(size, sizes, dataNum, globalNum, localNum, g)
  }

  /** The three pointer arrays cover the groups below n. */
  ghost predicate Split(lay: Layout, size: nat, n: nat, data: seq<Pointer>, globals: seq<Pointer>, locals: seq<Pointer>)
  {
    && LayoutOk(lay) && n <= lay.Groups()
    && |data| == lay.data[n] && |globals| == lay.globals[n] && |locals| == lay.locals[n]
    && forall g :: 0 <= g < n ==> GroupPointers(lay, size, g, data, globals, locals)
  }

  lemma {:induction false} SplitStep(lay: Layout, size: nat, g: nat, data: seq<Pointer>, globals: seq<Pointer>,
          locals: seq<Pointer>, pieces: seq<Pointer>)
    requires g < lay.Groups() && Split(lay, size, g, data, globals, locals)
    requires var d, e, f := Count(lay.data, g), Count(lay.globals, g), Count(lay.locals, g);
      d >= 0 && e >= 0 && f >= 0 && pieces == Pieces(g, 0, d + e + f, size)
    ensures var d, e, f := Count(lay.data, g), Count(lay.globals, g), Count(lay.locals, g);
      Split(lay, size, g + 1, data + pieces[..d], globals + pieces[d..d + e], locals + pieces[d + e..])
  {
    hide GroupPointers; hide LayoutOk; hide CutsOk;
    GroupBounds(lay, g);
    var d, e := Count(lay.data, g), Count(lay.globals, g);
    var data', globals', locals' := data + pieces[..d], globals + pieces[d..d + e], locals + pieces[d + e..];
    forall h | 0 <= h < g ensures GroupPointers(lay, size, h, data', globals', locals') {
      PointersKept(lay, size, h, data, globals, locals, pieces[..d], pieces[d..d + e], pieces[d + e..]);
    }
    PointersAdded(lay, size, g, data, globals, locals, pieces);
  }

  /** split_for_set_data_and_parity: it fails unless the client has counts for all the
      buffers and they fill each exactly. */
  method SplitForSet(ghost lay: Layout, size: nat, sizes: seq<nat>, dataNum: seq<int>, globalNum: seq<int>,
          localNum: seq<int>)
    returns (r: Option<(seq<Pointer>, seq<Pointer>, seq<Pointer>)>)
    requires LayoutOk(lay)
    requires dataNum == Counts(lay.data) && globalNum == Counts(lay.globals) && localNum == Counts(lay.locals)
    ensures r.Some? <==> SizesFit(size, sizes, dataNum, globalNum, localNum)
    ensures r.Some? ==> Split(lay, size, |sizes|, r.value.0, r.value.1, r.value.2)
  {
    hide GroupPointers; hide LayoutOk; hide CutsOk;
    var data: seq<Pointer>, globals: seq<Pointer>, locals: seq<Pointer> := [], [], [];
    Starts(lay);
    for g := 0 to |sizes|
      invariant Split(lay, size, g, data, globals, locals)
      invariant forall h :: 0 <= h < g ==> SizeAgrees(size, sizes, dataNum, globalNum, localNum, h)
    {
      if g >= |dataNum| { return None; }
      GroupBounds(lay, g);
      var d, e, f := dataNum[g], globalNum[g], localNum[g];
      var pieces := SplitBuffer(g, d + e + f, size, sizes[g]);
      if pieces.None? {
        assert !SizeAgrees(size, sizes, dataNum, globalNum, localNum, g);
        return None;
      }
      SplitStep(lay, size, g, data, globals, locals, pieces.value);
      data, globals, locals := data + pieces.value[..d], globals + pieces.value[d..d + e], locals +
        pieces.value[d + e..];
    }
    r := Some((data, globals, locals));
  }

  lemma {:induction false} Starts(lay: Layout)
    requires LayoutOk(lay)
    ensures lay.data[0] == 0 && lay.globals[0] == 0 && lay.locals[0] == 0 && |lay.data| == |lay.globals| == |lay.locals|
  {}

  /** The region of block b. */
  function PointerOf(lay: Layout, data: seq<Pointer>, globals: seq<Pointer>, locals: seq<Pointer>, b: nat): Pointer {
    if b < lay.k then (if b < |data| then data[b] else Pointer(0, 0))
    else if b < lay.k + lay.r then (if b - lay.k < |globals| then globals[b - lay.k] else Pointer(0, 0))
    else if b - lay.k - lay.r < |locals| then locals[b - lay.k - lay.r] else Pointer(0, 0)
  }

  /** The client's region of a block is the one the coordinator's plan gives it: the
      p-th block of group g is the p-th piece of group g's buffer. */
  lemma {:induction false} RegionsAgree(lay: Layout, size: nat, g: nat, data: seq<Pointer>, globals: seq<Pointer>,
          locals: seq<Pointer>, p: nat)
    requires LayoutOk(lay) && g < lay.Groups() && GroupPointers(lay, size, g, data, globals, locals)
    requires p < |Blocks(lay, g, lay.N())|
    ensures PointerOf(lay, data, globals, locals, Blocks(lay, g, lay.N())[p]) == Pointer(g, p * size)
  {
    hide LayoutOk; hide Blocks;
    GroupBounds(lay, g);
    WholeGroup(lay, g);
    var d, e := Count(lay.data, g), Count(lay.globals, g);
    if p < d {
      assert data[lay.data[g]..lay.data[g + 1]][p] == data[lay.data[g] + p];
    } else if p < d + e {
      assert globals[lay.globals[g]..lay.globals[g + 1]][p - d] == globals[lay.globals[g] + p - d];
    } else {
      assert locals[lay.locals[g]..lay.locals[g + 1]][p - d - e] == locals[lay.locals[g] + p - d - e];
    }
  }
}
