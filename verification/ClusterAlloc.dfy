/** Which clusters a stripe of a merge group is placed in: dispersed, aggregated or
optimal (project/src/coordinator.cpp). */
module ClusterAlloc {
  import opened Arith
  import opened Sums

  /** l groups of b data blocks, g global parities, `clusters` clusters, x stripes
      per merge group. */
  datatype Setup = Setup(l: nat, b: nat, g: nat, clusters: nat, x: nat) {
    ghost predicate Ok() { l >= 1 && b >= 1 }
    function K(): nat { l * b }
  }

  datatype Kind = DIS | AGG | OPT

  /** Data blocks beyond whole chunks of g + 1, and chunks per group. */
  function Rem(p: Setup): nat { p.b % (p.g + 1) }
  function Chunks(p: Setup): nat { if Rem(p) == 0 then p.b / (p.g + 1) else p.b / (p.g + 1) + 1 }

  /** Clusters one stripe needs, and those all stripes of a group share. */
  function Required(p: Setup): int { CeilDiv(p.b + 1, p.g + 1) * p.l + 1 - if Rem(p) == 0 then p.l else 0 }

  function Shared(p: Setup, kind: Kind): int {
    match kind
    case DIS => 0
    case AGG => Required(p)
    case OPT => if Rem(p) == 0 then 1 else p.l + 1
  }

  lemma {:induction false} RequiredIs(p: Setup)
    ensures Required(p) == Chunks(p) * p.l + 1
    ensures Required(p) - Shared(p, OPT) == p.b / (p.g + 1) * p.l
  {
    var w, q := p.g + 1, p.b / (p.g + 1);
    assert p.b == q * w + Rem(p);
    assert (q + 1) * w == q * w + w;
    DivIs(p.b + 1 + p.g, q + 1, w);
    assert (q + 1) * p.l == q * p.l + p.l;
  }

  // ------------------------------------------------------------------
  // Drawing from the free list.

  ghost predicate FreeOk(free: seq<nat>, n: nat) {
    (forall i :: 0 <= i < |free| ==> free[i] < n) && (forall i, j :: 0 <= i < j < |free| ==> free[i] != free[j])
  }

  /** `after` is `before` with c taken out. */
  ghost predicate TookOut(before: seq<nat>, after: seq<nat>, c: nat) {
    c in before && |after| == |before| - 1 && forall x :: x in after <==> x in before && x != c
  }

  method RandNum(range: nat) returns (r: nat)
    requires range >= 1
    ensures r < range
  {
    var n: int := *;
    r := (if n < 0 then -n else n) % range;
  }

  method Draw(free: seq<nat>, ghost n: nat) returns (c: nat, rest: seq<nat>)
    requires FreeOk(free, n) && free != []
    ensures FreeOk(rest, n) && TookOut(free, rest, c) && c < n
  {
    var i := RandNum(|free|);
    c, rest := free[i], free[..i] + free[i + 1..];
    forall x ensures x in rest <==> x in free && x != c {
      if x in free && x != c {
        var e :| 0 <= e < |free| && free[e] == x;
        assert e < i ==> rest[e] == x;
        assert e > i ==> rest[e - 1] == x;
      }
    }
  }

  // ------------------------------------------------------------------
  // The clusters of one stripe: one per chunk, groups outermost, and one for the
  // global parities.

  datatype Choice = Choice(chunks: seq<nat>, globals: nat)

  function All(ch: Choice): set<nat> { (set c | c in ch.chunks) + {ch.globals} }

  ghost predicate ChoiceOk(p: Setup, ch: Choice) {
    && |ch.chunks| == p.l * Chunks(p)
    && (forall i, j :: 0 <= i < j < |ch.chunks| ==> ch.chunks[i] != ch.chunks[j])
    && ch.globals !in ch.chunks
    && forall c :: c in All(ch) ==> c < p.clusters
  }

  predicate InWindow(c: nat, start: nat, n: int) { start <= c < start + n }

  /** What is left of free0 after the drawn clusters are gone. */
  ghost predicate Drawn(n: nat, free0: seq<nat>, free: seq<nat>, drawn: seq<nat>) {
    && FreeOk(free, n) && Distinct(drawn) && |free| + |drawn| == |free0|
    && (forall c :: c in drawn ==> c in free0 && c < n)
    && forall c :: c in free <==> c in free0 && c !in drawn
  }

  lemma {:induction false} DrawnNone(n: nat, free: seq<nat>)
    requires FreeOk(free, n)
    ensures Drawn(n, free, free, [])
  {}

  /** Draws one more cluster. */
  method DrawMore(n: nat, free: seq<nat>, ghost free0: seq<nat>, ghost drawn: seq<nat>) returns (c: nat, rest: seq<nat>)
    requires Drawn(n, free0, free, drawn) && |drawn| < |free0|
    ensures Drawn(n, free0, rest, drawn + [c]) && c in free0 && c !in drawn
  {
    c, rest := Draw(free, n);
    assert c in free;
  }

  lemma {:induction false} ChunkFacts(b: nat, w: nat, q: nat, r: nat, t: nat)
    requires b == q * w + r && r < w && b >= 1 && t <= if r == 0 then q else q + 1
    ensures var chunks, a := if r == 0 then q else q + 1, t * w;
      && chunks >= 1 && (a < b <==> t < chunks)
      && (t < chunks ==> (a + w >= b <==> t == chunks - 1))
      && (t == chunks - 1 ==> (a + w == b <==> r == 0))
  {
    if t + 1 < q {
      MulMono(t + 2, q, w);
      assert (t + 2) * w == t * w + w + w;
    } else if t + 1 == q {
      assert q * w == t * w + w;
    } else if t == q + 1 {
      assert t * w == q * w + w;
    }
  }

  /** Chunk t of group i starts at block j = i b + t (g + 1). */
  lemma {:induction false} ChunkAt(p: Setup, i: nat, t: nat)
    requires p.Ok() && t <= Chunks(p)
    ensures var j := i * p.b + t * (p.g + 1);
      && (j < (i + 1) * p.b <==> t < Chunks(p))
      && (t < Chunks(p) ==> (j + p.g + 1 >= (i + 1) * p.b <==> t == Chunks(p) - 1))
      && (t == Chunks(p) - 1 ==> (j + p.g + 1 == (i + 1) * p.b <==> Rem(p) == 0))
    ensures Chunks(p) >= 1 && (t + 1) * (p.g + 1) == t * (p.g + 1) + p.g + 1
  {
    ChunkFacts(p.b, p.g + 1, p.b / (p.g + 1), Rem(p), t);
    assert (i + 1) * p.b == i * p.b + p.b;
  }

  // ------------------------------------------------------------------
  // Dispersed: every cluster is drawn.

  function WithGlobals(cs: seq<nat>, have: bool, gl: nat): seq<nat> { if have then cs + [gl] else cs }

  lemma {:induction false} DrawnSwap(n: nat, free0: seq<nat>, free: seq<nat>, cs: seq<nat>, gl: nat, c: nat)
    requires Drawn(n, free0, free, cs + [gl] + [c])
    ensures Drawn(n, free0, free, cs + [c] + [gl])
  {
    var a, b := cs + [gl] + [c], cs + [c] + [gl];
    forall x ensures x in a <==> x in b {}
    forall i, j | 0 <= i < j < |b| ensures b[i] != b[j] {
      var i', j' := Swapped(|cs|, i), Swapped(|cs|, j);
      assert b[i] == a[i'] && b[j] == a[j'] && i' != j';
    }
  }

  function Swapped(n: nat, i: nat): nat { if i == n then n + 1 else if i == n + 1 then n else i }

  /** The chunks of group i: draws a cluster each; without a remainder the first group
      also draws the cluster of the parities. */
  method DisperseGroup(p: Setup, i: nat, free: seq<nat>, cs0: seq<nat>, have0: bool, gl0: nat, ghost free0: seq<nat>)
    returns (rest: seq<nat>, cs: seq<nat>, have: bool, gl: nat)
    requires p.Ok() && i < p.l && |cs0| == i * Chunks(p) && (have0 <==> Rem(p) == 0 && i > 0) && |free0| >= Required(p)
    requires Drawn(p.clusters, free0, free, WithGlobals(cs0, have0, gl0))
    ensures |cs| == (i + 1) * Chunks(p) && (have <==> Rem(p) == 0)
    ensures Drawn(p.clusters, free0, rest, WithGlobals(cs, have, gl))
  {
    hide Drawn; hide Rem; hide Chunks;
    rest, cs, have, gl := free, cs0, have0, gl0;
    ghost var t := 0;
    var j := i * p.b;
    ChunkAt(p, i, 0);
    RequiredIs(p);
    MulMono(i + 1, p.l, Chunks(p));
    assert (i + 1) * Chunks(p) == i * Chunks(p) + Chunks(p) && p.l * Chunks(p) == Chunks(p) * p.l;
    while j < (i + 1) * p.b
      invariant t <= Chunks(p) && j == i * p.b + t * (p.g + 1) && |cs| == i * Chunks(p) + t
      invariant have <==> Rem(p) == 0 && (i > 0 || t == Chunks(p))
      invariant Drawn(p.clusters, free0, rest, WithGlobals(cs, have, gl)) && (j >= (i + 1) * p.b ==> t == Chunks(p))
      decreases (i + 1) * p.b - j
    {
      ChunkAt(p, i, t);
      var last := j + p.g + 1 >= (i + 1) * p.b;
      var c;
      c, rest := DrawMore(p.clusters, rest, free0, WithGlobals(cs, have, gl));
      if have { DrawnSwap(p.clusters, free0, rest, cs, gl, c); }
      cs := cs + [c];
      if last && j + p.g + 1 == (i + 1) * p.b && !have {
        gl, rest := DrawMore(p.clusters, rest, free0, cs);
        have := true;
      }
      t, j := t + 1, j + p.g + 1;
      ChunkAt(p, i, t);
    }
  }

  method ChooseDispersed(p: Setup, free0: seq<nat>) returns (ch: Choice, free: seq<nat>)
    requires p.Ok() && FreeOk(free0, p.clusters) && |free0| >= Required(p)
    ensures ChoiceOk(p, ch) && FreeOk(free, p.clusters) && |free| == |free0| - Required(p)
    ensures forall c :: c in All(ch) ==> c in free0
    ensures forall c :: c in free <==> c in free0 && c !in All(ch)
  {
    hide Drawn; hide Rem; hide Chunks;
    var cs, have, gl := [], false, 0;
    free := free0;
    DrawnNone(p.clusters, free0);
    RequiredIs(p);
    for i := 0 to p.l
      invariant |cs| == i * Chunks(p) && (have <==> Rem(p) == 0 && i > 0)
      invariant Drawn(p.clusters, free0, free, WithGlobals(cs, have, gl))
    {
      free, cs, have, gl := DisperseGroup(p, i, free, cs, have, gl, free0);
    }
    if !have {
      gl, free := DrawMore(p.clusters, free, free0, cs);
    }
    ch := Choice(cs, gl);
    DispersedOk(p, free0, free, ch);
  }

  lemma {:induction false} DispersedOk(p: Setup, free0: seq<nat>, free: seq<nat>, ch: Choice)
    requires Drawn(p.clusters, free0, free, ch.chunks + [ch.globals]) && |ch.chunks| == p.l * Chunks(p)
    ensures ChoiceOk(p, ch) && FreeOk(free, p.clusters) && |free| == |free0| - Required(p)
    ensures forall c :: c in All(ch) ==> c in free0
    ensures forall c :: c in free <==> c in free0 && c !in All(ch)
  {
    hide Chunks; hide Required;
    RequiredIs(p);
    assert p.l * Chunks(p) == Chunks(p) * p.l;
    var all := ch.chunks + [ch.globals];
    forall c ensures c in All(ch) <==> c in all {}
    forall i | 0 <= i < |ch.chunks| ensures ch.chunks[i] != ch.globals { assert all[i] != all[|ch.chunks|]; }
    forall i, j | 0 <= i < j < |ch.chunks| ensures ch.chunks[i] != ch.chunks[j] { assert all[i] != all[j]; }
  }

  // ------------------------------------------------------------------
  // Aggregated: consecutive clusters from the group's start.

  /** Cluster of chunk n: without a remainder the parities sit after the first group. */
  function AggId(p: Setup, start: nat, n: nat): nat {
    start + n + if Rem(p) == 0 && n >= Chunks(p) then 1 else 0
  }

  function AggGlobals(p: Setup, start: nat): nat { start + if Rem(p) == 0 then Chunks(p) else p.l * Chunks(p) }

  ghost predicate Aggregating(p: Setup, start: nat, cs: seq<nat>, cursor: int, have: bool, gl: int) {
    && cursor == start - 1 + |cs| + (if have then 1 else 0)
    && (forall n :: 0 <= n < |cs| ==> cs[n] == AggId(p, start, n))
    && (have ==> gl == AggGlobals(p, start))
  }

  lemma {:induction false} AggStep(p: Setup, start: nat, cs: seq<nat>, cursor: int, have: bool, gl: int)
    requires Aggregating(p, start, cs, cursor, have, gl) && (have <==> Rem(p) == 0 && |cs| >= Chunks(p))
    ensures cursor + 1 >= 0 && Aggregating(p, start, cs + [cursor + 1], cursor + 1, have, gl)
    ensures Rem(p) == 0 && |cs| + 1 == Chunks(p) ==>
      Aggregating(p, start, cs + [cursor + 1], cursor + 2, true, cursor + 2)
  {
    hide Rem; hide Chunks;
  }

  method AggregateGroup(p: Setup, i: nat, start: nat, cs0: seq<nat>, cursor0: int, have0: bool, gl0: int)
    returns (cs: seq<nat>, cursor: int, have: bool, gl: int)
    requires p.Ok() && i < p.l && |cs0| == i * Chunks(p) && (have0 <==> Rem(p) == 0 && i > 0)
    requires Aggregating(p, start, cs0, cursor0, have0, gl0)
    ensures |cs| == (i + 1) * Chunks(p) && (have <==> Rem(p) == 0) && Aggregating(p, start, cs, cursor, have, gl)
  {
    hide Aggregating; hide Rem; hide Chunks;
    cs, cursor, have, gl := cs0, cursor0, have0, gl0;
    ghost var t := 0;
    var j := i * p.b;
    ChunkAt(p, i, 0);
    GroupCount(p, i);
    assert (i + 1) * Chunks(p) == i * Chunks(p) + Chunks(p);
    while j < (i + 1) * p.b
      invariant t <= Chunks(p) && j == i * p.b + t * (p.g + 1) && |cs| == i * Chunks(p) + t
      invariant have <==> Rem(p) == 0 && (i > 0 || t == Chunks(p))
      invariant Aggregating(p, start, cs, cursor, have, gl) && (j >= (i + 1) * p.b ==> t == Chunks(p))
      decreases (i + 1) * p.b - j
    {
      ChunkAt(p, i, t);
      var last := j + p.g + 1 >= (i + 1) * p.b;
      AggStep(p, start, cs, cursor, have, gl);
      cursor := cursor + 1;
      cs := cs + [cursor];
      if last && j + p.g + 1 == (i + 1) * p.b && !have {
        gl, have := cursor + 1, true;
        cursor := cursor + 1;
      }
      t, j := t + 1, j + p.g + 1;
      ChunkAt(p, i, t);
    }
  }

  lemma {:induction false} GroupCount(p: Setup, i: nat)
    ensures i > 0 ==> i * Chunks(p) >= Chunks(p)
    ensures i == 0 ==> i * Chunks(p) == 0
  {
    if i > 0 { MulMono(1, i, Chunks(p)); }
  }

  method ChooseAggregated(p: Setup, start: nat) returns (ch: Choice)
    requires p.Ok() && start + Required(p) <= p.clusters
    ensures ChoiceOk(p, ch) && forall c: nat :: c in All(ch) <==> InWindow(c, start, Required(p))
    ensures forall n :: 0 < n < |ch.chunks| ==> ch.chunks[n - 1] < ch.chunks[n]
    ensures ch.globals == if Rem(p) == 0 then start + Chunks(p) else start + Required(p) - 1
  {
    hide Aggregating; hide Rem; hide Chunks;
    var cs: seq<nat>, cursor, have, gl := [], start - 1, false, -1;
    AggStart(p, start);
    for i := 0 to p.l
      invariant |cs| == i * Chunks(p) && (have <==> Rem(p) == 0 && i > 0) && Aggregating(p, start, cs, cursor, have, gl)
    {
      cs, cursor, have, gl := AggregateGroup(p, i, start, cs, cursor, have, gl);
    }
    AggEnd(p, start, cs, cursor, have, gl);
    if !have { gl := cursor + 1; }
    ch := Choice(cs, gl);
    AggregatedOk(p, start, ch);
  }

  lemma {:induction false} AggStart(p: Setup, start: nat)
    ensures Aggregating(p, start, [], start - 1, false, -1)
  {}

  lemma {:induction false} AggEnd(p: Setup, start: nat, cs: seq<nat>, cursor: int, have: bool, gl: int)
    requires Aggregating(p, start, cs, cursor, have, gl) && (have <==> Rem(p) == 0) && |cs| == p.l * Chunks(p)
    ensures (if have then gl else cursor + 1) == AggGlobals(p, start)
    ensures forall n :: 0 <= n < |cs| ==> cs[n] == AggId(p, start, n)
  {}

  lemma {:induction false} AggregatedOk(p: Setup, start: nat, ch: Choice)
    requires p.Ok() && start + Required(p) <= p.clusters && |ch.chunks| == p.l * Chunks(p)
    requires ch.globals == AggGlobals(p, start)
    requires forall n :: 0 <= n < |ch.chunks| ==> ch.chunks[n] == AggId(p, start, n)
    ensures ChoiceOk(p, ch) && forall c: nat :: c in All(ch) <==> InWindow(c, start, Required(p))
    ensures forall n :: 0 < n < |ch.chunks| ==> ch.chunks[n - 1] < ch.chunks[n]
    ensures ch.globals == if Rem(p) == 0 then start + Chunks(p) else start + Required(p) - 1
  {
    RequiredIs(p);
    ChunkAt(p, 0, 0);
    MulMono(1, p.l, Chunks(p));
    assert p.l * Chunks(p) == Chunks(p) * p.l;
    hide Rem; hide Chunks; hide Required;
    forall c: nat | InWindow(c, start, Required(p)) ensures c in All(ch) {
      if c != ch.globals {
        var n := if Rem(p) == 0 && c > ch.globals then c - start - 1 else c - start;
        assert ch.chunks[n] == AggId(p, start, n) == c;
      }
    }
  }

  // ------------------------------------------------------------------
  // Optimal: the last chunks and the parities share a window, the rest is drawn.

  /** The last chunk of group i. */
  function TailPos(p: Setup, i: nat): int { i * Chunks(p) + Chunks(p) - 1 }

  ghost predicate Outside(free: seq<nat>, start: nat, n: int) { forall c :: c in free ==> !InWindow(c, start, n) }

  /** `tails` chunks sit in the window, the others were drawn. */
  ghost predicate Opting(p: Setup, start: nat, free0: seq<nat>, free: seq<nat>, cs: seq<nat>, drawn: seq<nat>,
          tails: nat)
  {
    && Drawn(p.clusters, free0, free, drawn) && Distinct(cs) && |cs| == |drawn| + tails
    && (forall c :: c in cs <==> c in drawn || InWindow(c, start, tails))
  }

  lemma {:induction false} OptDraw(p: Setup, start: nat, free0: seq<nat>, free: seq<nat>, rest: seq<nat>, cs: seq<nat>,
          drawn: seq<nat>, tails: nat, c: nat)
    requires Opting(p, start, free0, free, cs, drawn, tails) && Outside(free0, start, Shared(p, OPT))
    requires tails <= Shared(p, OPT)
    requires Drawn(p.clusters, free0, rest, drawn + [c]) && c in free0 && c !in drawn
    ensures Opting(p, start, free0, rest, cs + [c], drawn + [c], tails)
  {
    hide Drawn; hide Shared;
  }

  lemma {:induction false} OptTail(p: Setup, start: nat, free0: seq<nat>, free: seq<nat>, cs: seq<nat>, drawn: seq<nat>,
          tails: nat)
    requires Opting(p, start, free0, free, cs, drawn, tails) && Outside(free0, start, Shared(p, OPT))
    requires tails < Shared(p, OPT)
    ensures Opting(p, start, free0, free, cs + [start + tails], drawn, tails + 1)
  {
    hide Shared; hide FreeOk; hide Distinct;
    assert Distinct(cs) ==> start + tails !in cs;
    DistinctAdd(cs, start + tails);
  }

  lemma {:induction false} DistinctAdd(cs: seq<nat>, c: nat)
    requires Distinct(cs) && c !in cs
    ensures Distinct(cs + [c])
  {}

  method OptGroup(p: Setup, i: nat, start: nat, free: seq<nat>, cs0: seq<nat>, ghost free0: seq<nat>,
          ghost drawn0: seq<nat>)
    returns (rest: seq<nat>, cs: seq<nat>, ghost drawn: seq<nat>)
    requires p.Ok() && i < p.l && |cs0| == i * Chunks(p) && Outside(free0, start, Shared(p, OPT))
    requires |free0| >= Required(p) - Shared(p, OPT)
    requires Opting(p, start, free0, free, cs0, drawn0, if Rem(p) == 0 then 0 else i)
    ensures |cs| == (i + 1) * Chunks(p) && Opting(p, start, free0, rest, cs, drawn, if Rem(p) == 0 then 0 else i + 1)
    ensures cs[..|cs0|] == cs0 && (Rem(p) != 0 ==> 0 <= TailPos(p, i) < |cs| && cs[TailPos(p, i)] == start + i)
  {
    hide Opting; hide Rem; hide Chunks; hide Shared; hide Outside;
    rest, cs, drawn := free, cs0, drawn0;
    ghost var t := 0;
    var j := i * p.b;
    ChunkAt(p, i, 0);
    SharedRoom(p, i);
    assert (i + 1) * Chunks(p) == i * Chunks(p) + Chunks(p);
    while j < (i + 1) * p.b
      invariant t <= Chunks(p) && j == i * p.b + t * (p.g + 1) && |cs| == i * Chunks(p) + t && cs[..|cs0|] == cs0
      invariant Opting(p, start, free0, rest, cs, drawn, if Rem(p) == 0 then 0 else if t == Chunks(p) then i + 1 else i)
      invariant j >= (i + 1) * p.b ==> t == Chunks(p)
      invariant Rem(p) != 0 && t == Chunks(p) ==> cs[TailPos(p, i)] == start + i
      decreases (i + 1) * p.b - j
    {
      ChunkAt(p, i, t);
      var last := j + p.g + 1 >= (i + 1) * p.b;
      if last && j + p.g + 1 != (i + 1) * p.b {
        OptTail(p, start, free0, rest, cs, drawn, i);
        cs := cs + [start + i];
      } else {
        rest, cs, drawn := OptChunk(p, start, rest, cs, free0, drawn, i, t);
      }
      t, j := t + 1, j + p.g + 1;
      ChunkAt(p, i, t);
    }
  }

  /** How many chunks have been drawn before chunk t of group i. */
  lemma {:induction false} DrawsLeft(p: Setup, i: nat, t: nat)
    requires p.Ok() && i < p.l && t < Chunks(p) && (Rem(p) != 0 ==> t < Chunks(p) - 1)
    ensures i * Chunks(p) + t - (if Rem(p) == 0 then 0 else i) < Required(p) - Shared(p, OPT)
  {
    hide Required; hide Rem;
    RequiredIs(p);
    DrawsBefore(p.b / (p.g + 1), i, t, p.l);
  }

  lemma {:induction false} DrawsBefore(q: nat, i: nat, t: nat, l: nat)
    requires i < l && t < q
    ensures i * q + t < l * q == q * l && i * (q + 1) + t - i == i * q + t
  {
    MulMono(i + 1, l, q);
    assert (i + 1) * q == i * q + q && i * (q + 1) == i * q + i;
  }

  lemma {:induction false} SharedRoom(p: Setup, i: nat)
    requires i < p.l
    ensures Rem(p) != 0 ==> i < Shared(p, OPT)
    ensures 1 <= Shared(p, OPT)
  {}

  method OptChunk(p: Setup, start: nat, free: seq<nat>, cs0: seq<nat>, ghost free0: seq<nat>, ghost drawn0: seq<nat>,
          ghost i: nat, ghost t: nat)
    returns (rest: seq<nat>, cs: seq<nat>, ghost drawn: seq<nat>)
    requires p.Ok() && i < p.l && t < Chunks(p) && (Rem(p) != 0 ==> t < Chunks(p) - 1) && |cs0| == i * Chunks(p) + t
    requires Outside(free0, start, Shared(p, OPT)) && |free0| >= Required(p) - Shared(p, OPT)
    requires Opting(p, start, free0, free, cs0, drawn0, if Rem(p) == 0 then 0 else i)
    ensures |cs| == |cs0| + 1 && cs[..|cs0|] == cs0
    ensures Opting(p, start, free0, rest, cs, drawn, if Rem(p) == 0 then 0 else i)
  {
    hide Rem; hide Chunks; hide Shared; hide Outside; hide Drawn; hide Required;
    DrawsLeft(p, i, t);
    SharedRoom(p, i);
    var c;
    c, rest := DrawMore(p.clusters, free, free0, drawn0);
    OptDraw(p, start, free0, free, rest, cs0, drawn0, if Rem(p) == 0 then 0 else i, c);
    cs, drawn := cs0 + [c], drawn0 + [c];
  }

  method ChooseOptimal(p: Setup, free0: seq<nat>, start: nat) returns (ch: Choice, free: seq<nat>)
    requires p.Ok() && FreeOk(free0, p.clusters) && |free0| >= Required(p) - Shared(p, OPT)
    requires Outside(free0, start, Shared(p, OPT))
    requires start + Shared(p, OPT) <= p.clusters
    ensures ChoiceOk(p, ch) && FreeOk(free, p.clusters) && |free| == |free0| - (Required(p) - Shared(p, OPT))
    ensures forall c: nat :: c in All(ch) ==> c in free0 || InWindow(c, start, Shared(p, OPT))
    ensures forall c: nat :: InWindow(c, start, Shared(p, OPT)) ==> c in All(ch)
    ensures forall c :: c in free <==> c in free0 && c !in All(ch)
    ensures Rem(p) != 0 ==> forall i :: 0 <= i < p.l ==>
      TailPos(p, i) < |ch.chunks| && TailPos(p, i) >= 0 && ch.chunks[TailPos(p, i)] == start + i
  {
    hide Opting; hide Rem; hide Chunks; hide Shared; hide Outside; hide FreeOk; hide TailPos; hide Required;
    var cs: seq<nat> := [];
    ghost var drawn := [];
    free := free0;
    OptStart(p, start, free0);
    for i := 0 to p.l
      invariant |cs| == i * Chunks(p) && Opting(p, start, free0, free, cs, drawn, if Rem(p) == 0 then 0 else i)
      invariant Rem(p) != 0 ==> forall e :: 0 <= e < i ==> 0 <= TailPos(p, e) < |cs| && cs[TailPos(p, e)] == start + e
    {
      ghost var before := cs;
      free, cs, drawn := OptGroup(p, i, start, free, cs, free0, drawn);
      assert forall n :: 0 <= n < |before| ==> cs[n] == cs[..|before|][n];
    }
    SharedRoom(p, 0);
    ch := Choice(cs, start + Shared(p, OPT) - 1);
    OptimalOk(p, start, free0, free, ch, drawn);
  }

  lemma {:induction false} OptStart(p: Setup, start: nat, free: seq<nat>)
    requires FreeOk(free, p.clusters)
    ensures Opting(p, start, free, free, [], [], 0)
  {}

  lemma {:induction false} OptimalOk(p: Setup, start: nat, free0: seq<nat>, free: seq<nat>, ch: Choice, drawn: seq<nat>)
    requires p.Ok() && Outside(free0, start, Shared(p, OPT)) && start + Shared(p, OPT) <= p.clusters
    requires Opting(p, start, free0, free, ch.chunks, drawn, if Rem(p) == 0 then 0 else p.l)
    requires |ch.chunks| == p.l * Chunks(p) && ch.globals == start + Shared(p, OPT) - 1
    ensures ChoiceOk(p, ch) && FreeOk(free, p.clusters) && |free| == |free0| - (Required(p) - Shared(p, OPT))
    ensures forall c: nat :: c in All(ch) <==> c in drawn || InWindow(c, start, Shared(p, OPT))
    ensures forall c :: c in drawn ==> c in free0
    ensures forall c :: c in free <==> c in free0 && c !in All(ch)
  {
    RequiredIs(p);
    assert p.l * Chunks(p) == Chunks(p) * p.l;
    hide Chunks; hide Rem; hide Required;
  }
}
