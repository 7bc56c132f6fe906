/** Round-robin striping of a logical byte range over the k data blocks of a stripe,
one unit of U bytes at a time (project/src/coordinator.cpp). */
module AppendStriping {
  import opened Arith

  /** k data blocks per stripe, U bytes per unit. */
  datatype Geometry = Geometry(k: nat, unit: nat) {
    ghost predicate Ok() { k >= 1 && unit >= 1 }
  }

  /** The block logical byte x belongs to, and where in it. */
  function BlockOf(ge: Geometry, x: nat): nat
    requires ge.Ok()
  {
    x / ge.unit % ge.k
  }

  function OffsetAt(ge: Geometry, x: nat): nat
    requires ge.Ok()
  {
    var q := x / ge.unit / ge.k;
    MulMono(0, q, ge.unit);
    x % ge.unit + ge.unit * q
  }

  /** The logical byte at offset y of block j. */
  function ByteAt(ge: Geometry, j: nat, y: nat): nat
    requires ge.Ok()
  {
    (y / ge.unit * ge.k + j) * ge.unit + y % ge.unit
  }

  /** Bytes of block j among the first x logical bytes. */
  function Fill(ge: Geometry, x: nat, j: nat): nat
    requires ge.Ok()
  {
    var i := x / ge.unit % ge.k;
    ge.unit * (x / ge.unit / ge.k) + (if j < i then ge.unit else if j == i then x % ge.unit else 0)
  }

  /** The physical offset as generateAppendPlan writes it. */
  lemma {:induction false} OffsetForm(ge: Geometry, x: nat)
    requires ge.Ok()
    ensures ge.k * ge.unit >= 1 && OffsetAt(ge, x) == x % ge.unit + ge.unit * (x / (ge.k * ge.unit))
  {
    DivDiv(x, ge.unit, ge.k);
  }

  /** The first byte is the first of block 0. The next byte is next to the last one within
      a unit; then comes the next block, and after the last block the next row. */
  lemma {:induction false} NextByte(ge: Geometry, x: nat)
    requires ge.Ok()
    ensures BlockOf(ge, 0) == 0 && OffsetAt(ge, 0) == 0
    ensures var j, y := BlockOf(ge, x), OffsetAt(ge, x);
      if (y + 1) % ge.unit != 0 then BlockOf(ge, x + 1) == j && OffsetAt(ge, x + 1) == y + 1
      else if j + 1 < ge.k then BlockOf(ge, x + 1) == j + 1 && OffsetAt(ge, x + 1) == y + 1 - ge.unit
      else BlockOf(ge, x + 1) == 0 && OffsetAt(ge, x + 1) == y + 1
  {
    hide BlockOf; hide OffsetAt;
    var u, a, e := ge.unit, x / ge.unit, x % ge.unit;
    DivAtLeast(x, 0, u);
    PlaceIs(ge, 0, 0, 0);
    DivIs(0, 0, ge.k);
    PlaceIs(ge, x, a, e);
    NextUnit(a, ge.k);
    UnitEnd(a / ge.k, e, u);
    if e + 1 < u {
      PlaceIs(ge, x + 1, a, e + 1);
    } else {
      assert (a + 1) * u == a * u + u;
      PlaceIs(ge, x + 1, a + 1, 0);
      assert u * (a / ge.k + 1) == u * (a / ge.k) + u;
    }
  }

  /** The place of byte e of unit a. */
  lemma {:induction false} PlaceIs(ge: Geometry, x: nat, a: nat, e: nat)
    requires ge.Ok() && e < ge.unit && x == a * ge.unit + e
    ensures BlockOf(ge, x) == a % ge.k && OffsetAt(ge, x) == e + ge.unit * (a / ge.k)
  {
    DivIs(x, a, ge.unit);
  }

  lemma {:induction false} UnitEnd(q: int, e: nat, u: nat)
    requires e < u
    ensures (e + u * q + 1) % u == if e + 1 < u then e + 1 else 0
  {
    assert u * q == q * u;
    if e + 1 < u {
      DivIs(e + u * q + 1, q, u);
    } else {
      assert (q + 1) * u == q * u + u;
      DivIs(e + u * q + 1, q + 1, u);
    }
  }

  // ------------------------------------------------------------------
  // A bijection between logical bytes and (block, offset) pairs.

  lemma {:induction false} ByteThere(ge: Geometry, x: nat)
    requires ge.Ok()
    ensures BlockOf(ge, x) < ge.k && ByteAt(ge, BlockOf(ge, x), OffsetAt(ge, x)) == x
  {
    var u, a, q := ge.unit, x / ge.unit, x / ge.unit / ge.k;
    assert u * q == q * u;
    DivIs(OffsetAt(ge, x), q, u);
    assert x == a * u + x % u && a == q * ge.k + a % ge.k;
  }

  lemma {:induction false} ByteBack(ge: Geometry, j: nat, y: nat)
    requires ge.Ok() && j < ge.k
    ensures BlockOf(ge, ByteAt(ge, j, y)) == j && OffsetAt(ge, ByteAt(ge, j, y)) == y
  {
    var u, q := ge.unit, y / ge.unit;
    DivIs(ByteAt(ge, j, y), q * ge.k + j, u);
    DivIs(q * ge.k + j, q, ge.k);
    assert y == q * u + y % u && u * q == q * u;
  }

  /** Blocks of n units hold exactly the first n k units of the stripe. */
  lemma {:induction false} ByteInside(ge: Geometry, x: nat, n: nat)
    requires ge.Ok()
    ensures x < n * ge.unit * ge.k <==> OffsetAt(ge, x) < n * ge.unit
  {
    var u, k, a, q := ge.unit, ge.k, x / ge.unit, x / ge.unit / ge.k;
    assert x == a * u + x % u && a == q * k + a % k;
    UnitsInside(a, x % u, q, a % k, n, u, k);
  }

  lemma {:induction false} UnitsInside(a: nat, e: nat, q: nat, i: nat, n: nat, u: nat, k: nat)
    requires e < u && i < k && a == q * k + i
    ensures a * u + e < n * u * k <==> e + u * q < n * u
  {
    Below(a, e, n * k, u);
    Below(q, i, n, k);
    Below(q, e, n, u);
    assert n * u * k == (n * k) * u && u * q == q * u;
  }

  lemma {:induction false} Below(q: nat, r: nat, n: nat, w: nat)
    requires r < w
    ensures q * w + r < n * w <==> q < n
  {
    if q < n {
      MulMono(q + 1, n, w);
      assert (q + 1) * w == q * w + w;
    } else {
      MulMono(n, q, w);
    }
  }

  // ------------------------------------------------------------------
  // Filling grows byte by byte.

  /** A piece of s bytes that stays within one unit fills one block. */
  lemma {:induction false} FillPiece(ge: Geometry, x: nat, s: nat, j: nat)
    requires ge.Ok() && x % ge.unit + s <= ge.unit && j < ge.k
    ensures Fill(ge, x + s, j) == Fill(ge, x, j) + if j == BlockOf(ge, x) then s else 0
  {
    var u, a, e := ge.unit, x / ge.unit, x % ge.unit;
    assert x == a * u + e;
    if e + s < u {
      DivIs(x + s, a, u);
    } else {
      assert (a + 1) * u == a * u + u;
      DivIs(x + s, a + 1, u);
      NextUnit(a, ge.k);
      assert u * (a / ge.k + 1) == u * (a / ge.k) + u;
    }
  }

  lemma {:induction false} NextUnit(a: nat, k: nat)
    requires k >= 1
    ensures if a % k + 1 < k then (a + 1) / k == a / k && (a + 1) % k == a % k + 1
      else (a + 1) / k == a / k + 1 && (a + 1) % k == 0
  {
    var q, i := a / k, a % k;
    assert a == q * k + i;
    if i + 1 < k {
      DivIs(a + 1, q, k);
    } else {
      assert (q + 1) * k == q * k + k;
      DivIs(a + 1, q + 1, k);
    }
  }

  lemma {:induction false} FillByte(ge: Geometry, x: nat, j: nat)
    requires ge.Ok() && j < ge.k
    ensures Fill(ge, x + 1, j) == Fill(ge, x, j) + if j == BlockOf(ge, x) then 1 else 0
    ensures OffsetAt(ge, x) == Fill(ge, x, BlockOf(ge, x))
  {
    FillPiece(ge, x, 1, j);
  }

  lemma {:induction false} FillMono(ge: Geometry, a: nat, b: nat, j: nat)
    requires ge.Ok() && j < ge.k && a <= b
    ensures Fill(ge, a, j) <= Fill(ge, b, j)
    decreases b
  {
    hide Fill;
    if a < b {
      FillMono(ge, a, b - 1, j);
      FillByte(ge, b - 1, j);
    }
  }

  /** Logical bytes of [a, b) that belong to block j, counted one by one. */
  function Count(ge: Geometry, a: nat, b: nat, j: nat): nat
    requires ge.Ok()
    decreases b
  {
    if b <= a then 0 else Count(ge, a, b - 1, j) + if BlockOf(ge, b - 1) == j then 1 else 0
  }

  lemma {:induction false} FillCounts(ge: Geometry, a: nat, b: nat, j: nat)
    requires ge.Ok() && j < ge.k && a <= b
    ensures Fill(ge, b, j) - Fill(ge, a, j) == Count(ge, a, b, j)
    decreases b
  {
    hide Fill; hide BlockOf;
    if a < b {
      FillCounts(ge, a, b - 1, j);
      FillByte(ge, b - 1, j);
    }
  }

  /** The bytes of [a, b) in block j occupy exactly the offsets from Fill(a) to Fill(b). */
  lemma {:induction false} SliceThere(ge: Geometry, a: nat, b: nat, x: nat)
    requires ge.Ok() && a <= x < b
    ensures var j := BlockOf(ge, x); j < ge.k && Fill(ge, a, j) <= OffsetAt(ge, x) < Fill(ge, b, j)
  {
    hide Fill; hide OffsetAt; hide BlockOf;
    ByteThere(ge, x);
    var j := BlockOf(ge, x);
    FillByte(ge, x, j);
    FillMono(ge, a, x, j);
    FillMono(ge, x + 1, b, j);
  }

  lemma {:induction false} SliceBack(ge: Geometry, a: nat, b: nat, j: nat, y: nat)
    requires ge.Ok() && j < ge.k && a <= b && Fill(ge, a, j) <= y < Fill(ge, b, j)
    ensures a <= ByteAt(ge, j, y) < b
  {
    hide Fill; hide ByteAt; hide OffsetAt; hide BlockOf;
    var x := ByteAt(ge, j, y);
    ByteBack(ge, j, y);
    FillByte(ge, x, j);
    if x < a { FillMono(ge, x + 1, a, j); }
    if b <= x { FillMono(ge, b, x, j); }
  }

  /** A full stripe fills every block. */
  lemma {:induction false} FillFull(ge: Geometry, n: nat, j: nat)
    requires ge.Ok() && j < ge.k
    ensures Fill(ge, n * ge.unit * ge.k, j) == n * ge.unit && Fill(ge, 0, j) == 0
  {
    WholeUnits(n, ge.unit, ge.k);
    WholeUnits(0, ge.unit, ge.k);
    assert ge.unit * n == n * ge.unit && ge.unit * 0 == 0;
  }

  lemma {:induction false} FillZero(ge: Geometry, j: nat)
    requires ge.Ok() && j < ge.k
    ensures Fill(ge, 0, j) == 0
  {
    FillFull(ge, 0, j);
  }

  lemma {:induction false} WholeUnits(n: nat, u: nat, k: nat)
    requires u >= 1 && k >= 1
    ensures n * u * k / u == n * k && n * u * k % u == 0 && n * k / k == n && n * k % k == 0
  {
    assert n * u * k == (n * k) * u;
    DivIs(n * u * k, n * k, u);
    DivIs(n * k, n, k);
  }

  // ------------------------------------------------------------------
  // Together the blocks hold everything.

  function FillSum(ge: Geometry, x: nat, n: nat): nat
    requires ge.Ok()
  {
    if n == 0 then 0 else FillSum(ge, x, n - 1) + Fill(ge, x, n - 1)
  }

  lemma {:induction false} FillSumByte(ge: Geometry, x: nat, n: nat)
    requires ge.Ok() && n <= ge.k
    ensures FillSum(ge, x + 1, n) == FillSum(ge, x, n) + if BlockOf(ge, x) < n then 1 else 0
  {
    hide Fill; hide BlockOf;
    if n > 0 {
      FillSumByte(ge, x, n - 1);
      FillByte(ge, x, n - 1);
    }
  }

  lemma {:induction false} FillNothing(ge: Geometry, n: nat)
    requires ge.Ok() && n <= ge.k
    ensures FillSum(ge, 0, n) == 0
  {
    hide Fill;
    if n > 0 {
      FillNothing(ge, n - 1);
      FillFull(ge, 0, n - 1);
    }
  }

  lemma {:induction false} FillTotal(ge: Geometry, x: nat)
    requires ge.Ok()
    ensures FillSum(ge, x, ge.k) == x
  {
    hide FillSum; hide BlockOf;
    if x == 0 {
      FillNothing(ge, ge.k);
    } else {
      FillTotal(ge, x - 1);
      FillSumByte(ge, x - 1, ge.k);
      ByteThere(ge, x - 1);
    }
  }
}
