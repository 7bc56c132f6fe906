/** The slices one append touches, computed by the coordinator
(project/src/coordinator.cpp) and again by the client (project/src/client.cpp). */
module AppendPlan {
  import opened AppendStriping
  import opened Arith

  datatype Slice = Slice(size: nat, offset: nat)

  /** The data blocks that the bytes [a, b) touch, with size and offset in each. */
  function SliceMap(ge: Geometry, a: nat, b: nat): (r: map<nat, Slice>)
    requires ge.Ok()
    ensures forall j :: j in r <==> 0 <= j < ge.k && Fill(ge, a, j) < Fill(ge, b, j)
    ensures forall j :: j in r ==> r[j] == Slice(Fill(ge, b, j) - Fill(ge, a, j), Fill(ge, a, j))
  {
    map j: nat | j < ge.k && Fill(ge, a, j) < Fill(ge, b, j) :: Slice(Fill(ge, b, j) - Fill(ge, a, j), Fill(ge, a, j))
  }

  /** One more piece [x, x + s), which stays within a unit. */
  function AddPiece(slices: map<nat, Slice>, j: nat, s: nat, offset: nat): map<nat, Slice> {
    slices[j := if j in slices then Slice(slices[j].size + s, slices[j].offset) else Slice(s, offset)]
  }

  lemma {:induction false} SliceStep(ge: Geometry, a: nat, x: nat, s: nat)
    requires ge.Ok() && a <= x && s >= 1 && x % ge.unit + s <= ge.unit
    ensures SliceMap(ge, a, x + s) == AddPiece(SliceMap(ge, a, x), BlockOf(ge, x), s, OffsetAt(ge, x))
  {
    hide Fill; hide BlockOf; hide OffsetAt; hide ByteAt;
    var old', new', i := SliceMap(ge, a, x), SliceMap(ge, a, x + s), BlockOf(ge, x);
    ByteThere(ge, x);
    FillByte(ge, x, i);
    forall j: nat | j < ge.k
      ensures Fill(ge, a, j) <= Fill(ge, x, j) && Fill(ge, x + s, j) == Fill(ge, x, j) + if j == i then s else 0
    {
      FillMono(ge, a, x, j);
      FillPiece(ge, x, s, j);
    }
    var added := AddPiece(old', i, s, OffsetAt(ge, x));
    forall j: nat ensures j in new' <==> j in added {}
    assert new'.Keys == added.Keys;
    forall j: nat | j in new' ensures new'[j] == added[j] {}
  }

  lemma {:induction false} SliceNone(ge: Geometry, a: nat)
    requires ge.Ok()
    ensures SliceMap(ge, a, a) == map[]
  {}

  /** Where the next piece starts. */
  lemma {:induction false} NextBlock(ge: Geometry, x: nat, s: nat)
    requires ge.Ok() && x % ge.unit + s == ge.unit
    ensures (x + s) % ge.unit == 0 && BlockOf(ge, x + s) == (BlockOf(ge, x) + 1) % ge.k
  {
    var u, a := ge.unit, x / ge.unit;
    assert x == a * u + x % u && (a + 1) * u == a * u + u;
    DivIs(x + s, a + 1, u);
    NextTurn(a, ge.k);
  }

  lemma {:induction false} NextTurn(a: nat, k: nat)
    requires k >= 1
    ensures (a + 1) % k == (a % k + 1) % k
  {
    NextUnit(a, k);
    if a % k + 1 < k { DivIs(a % k + 1, 0, k); } else { DivIs(k, 1, k); }
  }

  function Min(a: nat, b: nat): nat { if a < b then a else b }

  /** The next piece when `size` of n bytes from a are left: up to the unit's end. */
  function Piece(ge: Geometry, a: nat, n: nat, size: nat): nat
    requires ge.Ok()
  {
    if size == n && a % ge.unit != 0 then Min(ge.unit - a % ge.unit, n) else Min(ge.unit, size)
  }

  /** The physical offset as the coordinator computes it. */
  function Physical(ge: Geometry, x: nat): (r: int)
    requires ge.Ok()
    ensures r == OffsetAt(ge, x)
  {
    OffsetForm(ge, x);
    x % ge.unit + ge.unit * (x / (ge.k * ge.unit))
  }

  function NextOf(ge: Geometry, block: nat): nat
    requires ge.Ok()
  {
    (block + 1) % ge.k
  }

  /** The slice loop with `size` bytes left. */
  ghost predicate Slicing(ge: Geometry, a: nat, n: nat, size: nat, offset: nat, block: nat)
    requires ge.Ok()
  {
    size <= n && offset == a + n - size && (size > 0 ==> block == BlockOf(ge, offset)) &&
      (0 < size < n ==> offset % ge.unit == 0)
  }

  lemma {:induction false} SlicingEnds(ge: Geometry, a: nat, n: nat, size: nat, offset: nat, block: nat)
    requires ge.Ok()
    ensures Slicing(ge, a, n, n, a, BlockOf(ge, a))
    ensures Slicing(ge, a, n, size, offset, block) && size == 0 ==> offset == a + n
  {}

  lemma {:induction false} PieceFits(ge: Geometry, a: nat, n: nat, size: nat)
    requires ge.Ok() && 0 < size <= n && (size < n ==> (a + n - size) % ge.unit == 0)
    ensures var s, x := Piece(ge, a, n, size), a + n - size;
      1 <= s <= size && x % ge.unit + s <= ge.unit && (s < size ==> x % ge.unit + s == ge.unit)
  {}

  /** One turn of the slice loop. */
  lemma {:induction false} Turn(ge: Geometry, a: nat, n: nat, size: nat, offset: nat, block: nat)
    requires ge.Ok() && 0 < size && Slicing(ge, a, n, size, offset, block)
    ensures var s := Piece(ge, a, n, size);
      && 1 <= s <= size &&
        SliceMap(ge, a, offset + s) == AddPiece(SliceMap(ge, a, offset), block, s, OffsetAt(ge, offset))
      && Slicing(ge, a, n, size - s, offset + s, NextOf(ge, block))
  {
    hide SliceMap; hide BlockOf; hide OffsetAt; hide Piece; hide AddPiece;
    var s := Piece(ge, a, n, size);
    PieceFits(ge, a, n, size);
    SliceStep(ge, a, offset, s);
    if s < size { NextBlock(ge, offset, s); }
  }

  /** The slice loop of generateAppendPlan. */
  method PlanSlices(ge: Geometry, a: nat, n: nat) returns (slices: map<nat, Slice>)
    requires ge.Ok()
    ensures slices == SliceMap(ge, a, a + n)
  {
    hide SliceMap; hide BlockOf; hide OffsetAt; hide Piece; hide Physical; hide NextOf; hide Slicing;
    var size, offset, block := n, a, BlockOf(ge, a);
    slices := map[];
    SliceNone(ge, a);
    SlicingEnds(ge, a, n, n, a, block);
    while size > 0
      invariant Slicing(ge, a, n, size, offset, block) && slices == SliceMap(ge, a, offset)
    {
      var sub := Piece(ge, a, n, size);
      Turn(ge, a, n, size, offset, block);
      if block !in slices {
        slices := slices[block := Slice(sub, Physical(ge, offset))];
      } else {
        slices := slices[block := Slice(slices[block].size + sub, slices[block].offset)];
      }
      block := NextOf(ge, block);
      size, offset := size - sub, offset + sub;
    }
    SlicingEnds(ge, a, n, size, offset, block);
  }

  /** The slice loop of get_append_slice_plans, which keeps only the sizes. */
  method ClientSlices(ge: Geometry, a: nat, n: nat) returns (sizes: map<nat, nat>)
    requires ge.Ok()
    ensures sizes == SizesOf(SliceMap(ge, a, a + n))
  {
    hide SliceMap; hide BlockOf; hide OffsetAt; hide SizesOf; hide Piece; hide AddPiece; hide NextOf;
    var size, offset, block: nat := n, a, BlockOf(ge, a);
    sizes := map[];
    SliceNone(ge, a);
    SizesNone();
    while size > 0
      invariant Slicing(ge, a, n, size, offset, block) && sizes == SizesOf(SliceMap(ge, a, offset))
    {
      hide Slicing;
      var sub := Piece(ge, a, n, size);
      Turn(ge, a, n, size, offset, block);
      SizesStep(SliceMap(ge, a, offset), block, sub, OffsetAt(ge, offset));
      if block !in sizes {
        sizes := sizes[block := sub];
      } else {
        sizes := sizes[block := sizes[block] + sub];
      }
      block := NextOf(ge, block);
      size, offset := size - sub, offset + sub;
    }
  }

  function SizesOf(slices: map<nat, Slice>): map<nat, nat> { map j | j in slices :: slices[j].size }

  lemma {:induction false} SizesNone()
    ensures SizesOf(map[]) == map[]
  {}

  lemma {:induction false} SizesStep(slices: map<nat, Slice>, j: nat, s: nat, offset: nat)
    ensures SizesOf(AddPiece(slices, j, s, offset)) ==
      SizesOf(slices)[j := if j in SizesOf(slices) then SizesOf(slices)[j] + s else s]
    ensures j in SizesOf(slices) <==> j in slices
  {}

  // ------------------------------------------------------------------
  // The parity window.

  datatype Mode = Unilrc | Cached

  /** Division as in C, toward zero, for a >= -1. */
  function QuotC(a: int, d: nat): int
    requires d >= 1 && a >= -1
  {
    if a >= 0 then a / d else if d == 1 then -1 else 0
  }

  function RemC(a: int, d: nat): int
    requires d >= 1 && a >= -1
  {
    a - QuotC(a, d) * d
  }

  /** Bytes of one unit of every data block. */
  function Row(ge: Geometry): (r: nat)
    requires ge.Ok()
    ensures r >= 1
  {
    MulGe(ge.k, ge.unit);
    ge.k * ge.unit
  }

  function Units(ge: Geometry, a: nat, n: nat): int
    requires ge.Ok()
  {
    QuotC(a + n - 1, ge.unit) - a / ge.unit + 1
  }

  function UnitStripes(ge: Geometry, a: nat, n: nat): int
    requires ge.Ok()
  {
    QuotC(a + n - 1, Row(ge)) - a / Row(ge) + 1
  }

  /** The range of every parity block that an append of n bytes at a rewrites. */
  datatype Window = Window(size: int, offset: int)

  function ParityWindow(ge: Geometry, mode: Mode, a: nat, n: nat): Window
    requires ge.Ok()
  {
    var units, rows, start, tail :=
      Units(ge, a, n), UnitStripes(ge, a, n), a / Row(ge) * ge.unit, RemC(a + n - 1, Row(ge));
    var size :=
      if mode == Unilrc && rows > 1 && tail < ge.unit - 1 then (rows - 1) * ge.unit + tail + 1
      else if mode == Unilrc && units == 1 then n
      else rows * ge.unit;
    Window(size, if mode == Unilrc && units == 1 then start + a % ge.unit else start)
  }

  /** The coordinator's computation. */
  method CoordinatorWindow(ge: Geometry, mode: Mode, a: nat, n: nat) returns (w: Window)
    requires ge.Ok()
    ensures w == ParityWindow(ge, mode, a, n)
  {
    var units, rows := Units(ge, a, n), UnitStripes(ge, a, n);
    var size, offset;
    match mode {
      case Unilrc =>
        size := rows * ge.unit;
        offset := a / Row(ge) * ge.unit;
        if units == 1 {
          size := n;
          offset := offset + a % ge.unit;
        }
        if rows > 1 && RemC(a + n - 1, Row(ge)) < ge.unit - 1 {
          size := (rows - 1) * ge.unit + RemC(a + n - 1, Row(ge)) + 1;
        }
      case Cached =>
        size := rows * ge.unit;
        offset := a / Row(ge) * ge.unit;
    }
    w := Window(size, offset);
  }

  /** The client's computation. */
  method ClientWindow(ge: Geometry, mode: Mode, a: nat, n: nat) returns (w: Window)
    requires ge.Ok()
    ensures w == ParityWindow(ge, mode, a, n)
  {
    var units, rows := Units(ge, a, n), UnitStripes(ge, a, n);
    var size, offset := rows * ge.unit, a / Row(ge) * ge.unit;
    if mode == Unilrc {
      if units == 1 {
        size, offset := n, offset + a % ge.unit;
      }
      if rows > 1 && RemC(a + n - 1, Row(ge)) < ge.unit - 1 {
        size := (rows - 1) * ge.unit + RemC(a + n - 1, Row(ge)) + 1;
      }
    }
    w := Window(size, offset);
  }

  /** A byte's unit and row. */
  lemma {:induction false} RowOf(ge: Geometry, x: nat)
    requires ge.Ok()
    ensures OffsetAt(ge, x) == x / Row(ge) * ge.unit + x % ge.unit
    ensures x % Row(ge) < ge.unit ==> x % ge.unit == x % Row(ge)
    ensures x % ge.unit <= x % Row(ge)
  {
    hide OffsetAt;
    OffsetForm(ge, x);
    var q, t := x / Row(ge), x % Row(ge);
    assert x == q * Row(ge) + t && q * Row(ge) == (q * ge.k) * ge.unit;
    SameRest(q * ge.k, t, ge.unit);
    assert ge.unit * q == q * ge.unit;
  }

  lemma {:induction false} SameRest(a: int, t: nat, u: nat)
    requires u >= 1
    ensures (a * u + t) % u == t % u && (t < u ==> t % u == t) && t % u <= t
  {
    var c := t / u;
    assert t == c * u + t % u && (a + c) * u == a * u + c * u;
    DivIs(a * u + t, a + c, u);
    if t < u { DivIs(t, 0, u); }
    DivAtLeast(t, 0, u);
    MulMono(0, c, u);
  }

  lemma {:induction false} DivMono(a: nat, b: nat, m: nat)
    requires m >= 1 && a <= b
    ensures a / m <= b / m && (a / m == b / m ==> a % m <= b % m && b % m - a % m == b - a)
  {
    assert a == a / m * m + a % m && b == b / m * m + b % m;
    DivAtLeast(b, a / m, m);
  }

  /** First and last row of the append, in bytes of a block. */
  function RowStart(ge: Geometry, x: nat): int
    requires ge.Ok()
  {
    x / Row(ge) * ge.unit
  }

  predicate SameUnit(ge: Geometry, a: nat, b: nat)
    requires ge.Ok()
  {
    a / ge.unit == b / ge.unit
  }

  predicate SameRow(ge: Geometry, a: nat, b: nat)
    requires ge.Ok()
  {
    a / Row(ge) == b / Row(ge)
  }

  function RowTail(ge: Geometry, x: nat): nat
    requires ge.Ok()
  {
    x % Row(ge)
  }

  lemma {:induction false} RowsOrdered(ge: Geometry, a: nat, b: nat)
    requires ge.Ok() && a <= b
    ensures SameRow(ge, a, b) ==> RowStart(ge, a) == RowStart(ge, b) && RowTail(ge, a) <= RowTail(ge, b)
    ensures !SameRow(ge, a, b) ==> RowStart(ge, a) + ge.unit <= RowStart(ge, b)
    ensures SameUnit(ge, a, b) ==> SameRow(ge, a, b) && b % ge.unit == a % ge.unit + (b - a)
    ensures 0 <= RowStart(ge, a)
  {
    var u, row := ge.unit, Row(ge);
    DivMono(a, b, row);
    DivMono(a, b, u);
    DivDiv(a, u, ge.k);
    DivDiv(b, u, ge.k);
    MulMono(0, a / row, u);
    if a / row < b / row {
      MulMono(a / row + 1, b / row, u);
      assert (a / row + 1) * u == a / row * u + u;
    }
  }

  lemma {:induction false} UnitsBetween(ge: Geometry, a: nat, x: nat, b: nat)
    requires ge.Ok() && a <= x <= b && SameUnit(ge, a, b)
    ensures SameUnit(ge, a, x)
  {
    DivMono(a, x, ge.unit);
    DivMono(x, b, ge.unit);
  }

  /** The window by case, for a non-empty append. */
  lemma {:induction false} WindowForm(ge: Geometry, mode: Mode, a: nat, n: nat)
    requires ge.Ok() && n >= 1
    ensures var w, last := ParityWindow(ge, mode, a, n), a + n - 1;
      && w.offset == RowStart(ge, a) + (if mode == Unilrc && SameUnit(ge, a, last) then a % ge.unit else 0)
      && w.size == (if mode == Unilrc && !SameRow(ge, a, last) && RowTail(ge, last) < ge.unit - 1
                    then RowStart(ge, last) - RowStart(ge, a) + RowTail(ge, last) + 1
                    else if mode == Unilrc && SameUnit(ge, a, last) then n
                    else RowStart(ge, last) - RowStart(ge, a) + ge.unit)
  {
    var last, row, u := a + n - 1, Row(ge), ge.unit;
    hide Row;
    var qa, ql := a / row, last / row;
    DivMono(a, last, row);
    assert last == ql * row + last % row;
    assert RemC(last, row) == RowTail(ge, last);
    assert (ql - qa) * u == ql * u - qa * u;
    assert (ql - qa + 1) * u == ql * u - qa * u + u;
  }

  /** Where the window begins and ends: whole rows, except that in UNILRC mode an append
      within one unit gets its own bytes, and one whose last row is a piece of its first
      unit ends with its last byte. */
  lemma {:induction false} WindowEnds(ge: Geometry, mode: Mode, a: nat, n: nat)
    requires ge.Ok() && n >= 1
    ensures var w, last := ParityWindow(ge, mode, a, n), a + n - 1;
      && w.offset == (if mode == Unilrc && SameUnit(ge, a, last) then OffsetAt(ge, a) else RowStart(ge, a))
      && w.offset + w.size ==
          (if mode == Unilrc && (SameUnit(ge, a, last) || (!SameRow(ge, a, last) && RowTail(ge, last) < ge.unit - 1))
           then OffsetAt(ge, last) + 1 else RowStart(ge, last) + ge.unit)
  {
    hide OffsetAt; hide ParityWindow; hide Row;
    var last := a + n - 1;
    WindowForm(ge, mode, a, n);
    RowOf(ge, a);
    RowOf(ge, last);
    RowsOrdered(ge, a, last);
  }

  /** The window covers every offset the append touches in any data block. */
  lemma {:induction false} WindowCovers(ge: Geometry, mode: Mode, a: nat, n: nat, x: nat)
    requires ge.Ok() && a <= x < a + n
    ensures var w := ParityWindow(ge, mode, a, n); w.offset <= OffsetAt(ge, x) < w.offset + w.size
  {
    var last := a + n - 1;
    WindowForm(ge, mode, a, n);
    RowOf(ge, x);
    RowsOrdered(ge, a, x);
    RowsOrdered(ge, x, last);
    RowsOrdered(ge, a, last);
    if SameUnit(ge, a, last) { UnitsBetween(ge, a, x, last); }
    assert OffsetAt(ge, x) == RowStart(ge, x) + x % ge.unit && 0 <= x % ge.unit < ge.unit;
    assert x % ge.unit <= RowTail(ge, x);
    assert SameRow(ge, a, x) && SameRow(ge, x, last) ==> SameRow(ge, a, last);
    hide OffsetAt; hide Row; hide ParityWindow; hide RowStart; hide SameUnit; hide SameRow; hide RowTail;
  }

  /** And stays inside blocks of m units, as long as the append fits the stripe. */
  lemma {:induction false} WindowInside(ge: Geometry, mode: Mode, a: nat, n: nat, m: nat)
    requires ge.Ok() && n >= 1 && a + n <= m * Row(ge)
    ensures var w := ParityWindow(ge, mode, a, n); 0 <= w.offset && 0 <= w.size && w.offset + w.size <= m * ge.unit
  {
    var last := a + n - 1;
    WindowForm(ge, mode, a, n);
    RowsOrdered(ge, a, last);
    LastRow(ge, last, m);
    assert 0 <= a % ge.unit && last % ge.unit < ge.unit;
    hide Row; hide ParityWindow; hide RowStart; hide SameUnit; hide SameRow; hide RowTail;
  }

  lemma {:induction false} LastRow(ge: Geometry, x: nat, m: nat)
    requires ge.Ok() && x < m * Row(ge)
    ensures RowStart(ge, x) + ge.unit <= m * ge.unit
  {
    DivLess(x, m, Row(ge));
    MulMono(x / Row(ge) + 1, m, ge.unit);
    assert (x / Row(ge) + 1) * ge.unit == x / Row(ge) * ge.unit + ge.unit;
  }

  lemma {:induction false} DivBefore(a: nat, m: nat)
    requires a >= 1 && m >= 1
    ensures (a - 1) / m == if a % m == 0 then a / m - 1 else a / m
  {
    var q := a / m;
    assert a == q * m + a % m;
    if a % m == 0 {
      assert (q - 1) * m == q * m - m;
      DivIs(a - 1, q - 1, m);
    } else {
      DivIs(a - 1, q, m);
    }
  }

  /** An append of nothing keeps its window inside too. */
  lemma {:induction false} EmptyInside(ge: Geometry, mode: Mode, a: nat, m: nat)
    requires ge.Ok() && m >= 1 && a <= m * Row(ge)
    ensures var w := ParityWindow(ge, mode, a, 0); 0 <= w.offset && 0 <= w.size && w.offset + w.size <= m * ge.unit
  {
    var u, row := ge.unit, Row(ge);
    RowsOrdered(ge, a, a);
    MulMono(1, m, u);
    if a < m * row { LastRow(ge, a, m); } else { DivIs(a, m, row); WholeRows(ge, m); }
    if a > 0 {
      DivBefore(a, u);
      DivBefore(a, row);
    }
  }

  lemma {:induction false} WholeRows(ge: Geometry, m: nat)
    requires ge.Ok()
    ensures m * Row(ge) % ge.unit == 0
  {
    assert m * Row(ge) == (m * ge.k) * ge.unit;
    DivIs(m * Row(ge), m * ge.k, ge.unit);
  }
}
