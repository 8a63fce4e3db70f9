/** Reduction of a packed RGBA frame to the fixed 16x9 luma grid, in exact arithmetic. */
module LumaGrids {
  import opened Sums

  const ROWS: nat := 9
  const COLS: nat := 16
  const CELLS: nat := 144
  const USIZE_MAX: nat := 0xFFFF_FFFF_FFFF_FFFF

  type Byte = n: int | 0 <= n < 256
  type U16 = n: int | 0 <= n < 0x1_0000
  type U32 = n: int | 0 <= n < 0x1_0000_0000
  type Luma = (Byte, Byte, Byte) -> real

  datatype Frame = Frame(rgba: seq<Byte>, width: U32, height: U32, stride: nat)

  datatype GridError =
    | InvalidDimensions
    | InvalidStride(minimum: nat, actual: nat)
    | InvalidLength(expected: nat, found: nat)
    | InvalidOutputDimensions(rows: U16, cols: U16)
    | EmptyCell
    | InvalidGrid

  datatype Reduction = Grid(cells: seq<real>) | Refused(error: GridError)

  ghost predicate UnitLuma(luma: Luma) {
    forall r: Byte, g: Byte, b: Byte :: 0.0 <= luma(r, g, b) <= 1.0
  }

  /** The buffer holds `height` rows of `stride` bytes, each wide enough for `width` pixels. */
  predicate Packed(f: Frame) {
    && f.width > 0 && f.height > 0
    && 4 * f.width <= f.stride
    && f.stride * f.height <= USIZE_MAX
    && |f.rgba| == f.stride * f.height
  }

  function ByteAt(f: Frame, k: nat): Byte { if k < |f.rgba| then f.rgba[k] else 0 }

  /** Alpha-weighted luma of pixel (x, y). */
  function Pixel(f: Frame, luma: Luma, x: nat, y: nat): real {
    var o := y * f.stride + x * 4;
    luma(ByteAt(f, o), ByteAt(f, o + 1), ByteAt(f, o + 2)) * (ByteAt(f, o + 3) as real / 255.0)
  }

  function ColOf(f: Frame, x: nat): nat
    requires f.width > 0
  {
    x * COLS / f.width
  }

  function RowOf(f: Frame, y: nat): nat
    requires f.height > 0
  {
    y * ROWS / f.height
  }

  function CellOf(f: Frame, x: nat, y: nat): nat
    requires f.width > 0 && f.height > 0
  {
    RowOf(f, y) * COLS + ColOf(f, x)
  }

  /** Luma of the pixels of `cell` that come before (x, y) in raster order. */
  function SumBefore(f: Frame, luma: Luma, y: nat, x: nat, cell: nat): real
    requires f.width > 0 && f.height > 0
    decreases y, x
  {
    if x > 0 then
      SumBefore(f, luma, y, x - 1, cell) + (if CellOf(f, x - 1, y) == cell then Pixel(f, luma, x - 1, y) else 0.0)
    else if y > 0 then SumBefore(f, luma, y - 1, f.width, cell)
    else 0.0
  }

  function CountBefore(f: Frame, y: nat, x: nat, cell: nat): nat
    requires f.width > 0 && f.height > 0
    decreases y, x
  {
    if x > 0 then CountBefore(f, y, x - 1, cell) + (if CellOf(f, x - 1, y) == cell then 1 else 0)
    else if y > 0 then CountBefore(f, y - 1, f.width, cell)
    else 0
  }

  function PixelsIn(f: Frame, cell: nat): nat
    requires f.width > 0 && f.height > 0
  {
    CountBefore(f, f.height, 0, cell)
  }

  function LumaIn(f: Frame, luma: Luma, cell: nat): real
    requires f.width > 0 && f.height > 0
  {
    SumBefore(f, luma, f.height, 0, cell)
  }

  // ── Indices ─────────────────────────────────────────────────────────────

  lemma FloorBelow(k: nat, n: nat, size: nat)
    requires size > 0 && k < size && n > 0
    ensures k * n / size < n
  {
    assert k * n < size * n;
    DivBelow(k * n, size, n);
  }

  lemma DivBelow(a: nat, size: nat, n: nat)
    requires size > 0 && a < size * n
    ensures a / size < n
  {
    assert (a / size) * size <= a;
    SmallerFactor(a / size, n, size);
  }

  lemma CellInRange(f: Frame, x: nat, y: nat)
    requires x < f.width && y < f.height
    ensures RowOf(f, y) < ROWS && ColOf(f, x) < COLS && CellOf(f, x, y) < CELLS
  {
    FloorBelow(x, COLS, f.width);
    FloorBelow(y, ROWS, f.height);
  }

  /** Every byte the loop reads lies inside the buffer. */
  lemma PixelInBuffer(f: Frame, x: nat, y: nat)
    requires Packed(f) && x < f.width && y < f.height
    ensures 0 <= y * f.stride + x * 4 && y * f.stride + x * 4 + 3 < |f.rgba|
  {
    assert (y + 1) * f.stride <= f.height * f.stride;
    assert x * 4 + 4 <= f.stride;
  }

  // ── Which cells receive pixels ──────────────────────────────────────────

  predicate Earlier(f: Frame, px: nat, py: nat, y: nat, x: nat) {
    px < f.width && (py < y || (py == y && px < x))
  }

  lemma {:induction false} CountedIfPresent(f: Frame, y: nat, x: nat, px: nat, py: nat)
    requires f.width > 0 && f.height > 0 && x <= f.width && Earlier(f, px, py, y, x)
    ensures CountBefore(f, y, x, CellOf(f, px, py)) > 0
    decreases y, x
  {
    hide CellOf;
    if x > 0 {
      if px != x - 1 || py != y {
        CountedIfPresent(f, y, x - 1, px, py);
      }
    } else {
      CountedIfPresent(f, y - 1, f.width, px, py);
    }
  }

  lemma {:induction false} UncountedIfAbsent(f: Frame, y: nat, x: nat, cell: nat)
    requires f.width > 0 && f.height > 0 && x <= f.width
    requires forall px: nat, py: nat :: Earlier(f, px, py, y, x) ==> CellOf(f, px, py) != cell
    ensures CountBefore(f, y, x, cell) == 0
    decreases y, x
  {
    hide CellOf;
    if x > 0 {
      assert Earlier(f, x - 1, y, y, x);
      forall px: nat, py: nat | Earlier(f, px, py, y, x - 1) ensures CellOf(f, px, py) != cell {
        assert Earlier(f, px, py, y, x);
      }
      UncountedIfAbsent(f, y, x - 1, cell);
    } else if y > 0 {
      forall px: nat, py: nat | Earlier(f, px, py, y - 1, f.width) ensures CellOf(f, px, py) != cell {
        assert Earlier(f, px, py, y, x);
      }
      UncountedIfAbsent(f, y - 1, f.width, cell);
    }
  }

  /** With at least `n` pixels across, every one of the `n` columns is hit: by the first
      pixel at or after its left edge. */
  lemma ColumnHit(size: nat, n: nat, c: nat) returns (k: nat)
    requires size >= n > 0 && c < n
    ensures k < size && k * n / size == c
  {
    k := Ceiling(c * size, n);
    NextMultiple(c, n, size);
    DivExact(k * n, size, c);
    SmallerFactor(k, size, n);
  }

  lemma Ceiling(a: nat, n: nat) returns (k: nat)
    requires n > 0
    ensures a <= k * n < a + n
  {
    k := (a + n - 1) / n;
    assert a + n - 1 == k * n + (a + n - 1) % n;
  }

  lemma NextMultiple(c: nat, n: nat, size: nat)
    requires c < n
    ensures c * size + size <= n * size
  {
    assert (c + 1) * size <= n * size;
  }

  lemma DivExact(a: nat, size: nat, c: nat)
    requires size > 0 && c * size <= a < c * size + size
    ensures a / size == c
  {
    assert a == c * size + (a - c * size);
    DivBelow(a, size, c + 1);
    assert c * size < (a / size + 1) * size;
    SmallerFactor(c, a / size + 1, size);
  }

  /** With fewer, the last column is never hit. */
  lemma LastColumnMissed(size: nat, n: nat, k: nat)
    requires 0 < size < n && k < size
    ensures k * n / size != n - 1
  {
    assert k * n <= (size - 1) * n;
    assert (size - 1) * n < size * (n - 1);
    DivBelow(k * n, size, n - 1);
  }

  lemma FilledWhenBigEnough(f: Frame, cell: nat)
    requires f.width >= COLS && f.height >= ROWS && cell < CELLS
    ensures PixelsIn(f, cell) > 0
  {
    hide CountBefore;
    var x := ColumnHit(f.width, COLS, cell % COLS);
    var y := ColumnHit(f.height, ROWS, cell / COLS);
    assert CellOf(f, x, y) == cell;
    CountedIfPresent(f, f.height, 0, x, y);
  }

  lemma EmptyWhenTooSmall(f: Frame)
    requires f.width > 0 && f.height > 0 && (f.width < COLS || f.height < ROWS)
    ensures PixelsIn(f, CELLS - 1) == 0
  {
    hide CountBefore, CellOf;
    forall px: nat, py: nat | Earlier(f, px, py, f.height, 0) ensures CellOf(f, px, py) != CELLS - 1 {
      LastCellMissed(f, px, py);
    }
    UncountedIfAbsent(f, f.height, 0, CELLS - 1);
  }

  lemma LastCellMissed(f: Frame, px: nat, py: nat)
    requires f.width > 0 && f.height > 0 && (f.width < COLS || f.height < ROWS) && px < f.width && py < f.height
    ensures CellOf(f, px, py) != CELLS - 1
  {
    hide RowOf, ColOf;
    CellInRange(f, px, py);
    if f.width < COLS {
      LastColumnOf(f, px);
    } else {
      LastRowOf(f, py);
    }
  }

  lemma LastColumnOf(f: Frame, px: nat)
    requires 0 < f.width < COLS && px < f.width
    ensures ColOf(f, px) != COLS - 1
  {
    LastColumnMissed(f.width, COLS, px);
  }

  lemma LastRowOf(f: Frame, py: nat)
    requires 0 < f.height < ROWS && py < f.height
    ensures RowOf(f, py) != ROWS - 1
  {
    LastColumnMissed(f.height, ROWS, py);
  }

  /** Every cell receives a pixel exactly when the frame is at least 16 by 9. */
  lemma CoveredExactlyWhenBigEnough(f: Frame)
    requires f.width > 0 && f.height > 0
    ensures (forall cell: nat :: cell < CELLS ==> PixelsIn(f, cell) > 0) <==> (f.width >= COLS && f.height >= ROWS)
  {
    hide PixelsIn;
    if f.width >= COLS && f.height >= ROWS {
      forall cell: nat | cell < CELLS ensures PixelsIn(f, cell) > 0 {
        FilledWhenBigEnough(f, cell);
      }
    } else {
      EmptyWhenTooSmall(f);
    }
  }

  // ── Nothing lost, nothing counted twice ─────────────────────────────────

  function CountsBefore(f: Frame, y: nat, x: nat): nat -> real
    requires f.width > 0 && f.height > 0
  {
    (c: nat) => CountBefore(f, y, x, c) as real
  }

  function SumsBefore(f: Frame, luma: Luma, y: nat, x: nat): nat -> real
    requires f.width > 0 && f.height > 0
  {
    (c: nat) => SumBefore(f, luma, y, x, c)
  }

  /** Luma of all pixels before (x, y). */
  function LumaBefore(f: Frame, luma: Luma, y: nat, x: nat): real
    requires f.width > 0
    decreases y, x
  {
    if x > 0 then LumaBefore(f, luma, y, x - 1) + Pixel(f, luma, x - 1, y)
    else if y > 0 then LumaBefore(f, luma, y - 1, f.width)
    else 0.0
  }

  /** Adding `w` to the one term `p` adds `w` to the sum. */
  lemma AddAtPoint(n: nat, f: nat -> real, g: nat -> real, p: nat, w: real)
    requires p < n
    requires forall c: nat :: c < n ==> g(c) == f(c) + if c == p then w else 0.0
    ensures Sum(n, g) == Sum(n, f) + w
  {
    var point := (c: nat) => if c == p then w else 0.0;
    SumPoint(n, point, p);
    SumAdd(n, f, point, g);
  }

  /** Every pixel is counted once: the counts add up to the pixels seen. */
  lemma {:induction false} CountsAddUp(f: Frame, y: nat, x: nat)
    requires f.width > 0 && f.height > 0 && x <= f.width && (y < f.height || (y == f.height && x == 0))
    ensures Sum(CELLS, CountsBefore(f, y, x)) == (y * f.width + x) as real
    decreases y, x
  {
    hide CellOf, Sum;
    if x > 0 {
      CountsAddUp(f, y, x - 1);
      CellInRange(f, x - 1, y);
      AddAtPoint(CELLS, CountsBefore(f, y, x - 1), CountsBefore(f, y, x), CellOf(f, x - 1, y), 1.0);
    } else if y > 0 {
      CountsAddUp(f, y - 1, f.width);
      assert (y - 1) * f.width + f.width == y * f.width;
      SumExt(CELLS, CountsBefore(f, y, 0), CountsBefore(f, y - 1, f.width));
    } else {
      SumZero(CELLS, CountsBefore(f, 0, 0));
    }
  }

  lemma {:induction false} LumaAddsUp(f: Frame, luma: Luma, y: nat, x: nat)
    requires f.width > 0 && f.height > 0 && x <= f.width && (y < f.height || (y == f.height && x == 0))
    ensures Sum(CELLS, SumsBefore(f, luma, y, x)) == LumaBefore(f, luma, y, x)
    decreases y, x
  {
    hide CellOf, Sum, Pixel;
    if x > 0 {
      LumaAddsUp(f, luma, y, x - 1);
      CellInRange(f, x - 1, y);
      AddAtPoint(CELLS, SumsBefore(f, luma, y, x - 1), SumsBefore(f, luma, y, x), CellOf(f, x - 1, y),
                 Pixel(f, luma, x - 1, y));
    } else if y > 0 {
      LumaAddsUp(f, luma, y - 1, f.width);
      SumExt(CELLS, SumsBefore(f, luma, y, 0), SumsBefore(f, luma, y - 1, f.width));
    } else {
      SumZero(CELLS, SumsBefore(f, luma, 0, 0));
    }
  }

  // ── Range ───────────────────────────────────────────────────────────────

  lemma Scaled(x: real, y: real, a: real)
    requires x <= y && a >= 0.0
    ensures x * a <= y * a
  {
  }

  lemma ProductInUnit(a: real, b: real)
    requires 0.0 <= a <= 1.0 && 0.0 <= b <= 1.0
    ensures 0.0 <= a * b <= 1.0
  {
    Scaled(0.0, a, b);
    assert (1.0 - a) * b >= 0.0 by { Scaled(0.0, 1.0 - a, b); }
    assert (1.0 - a) * b == b - a * b;
  }

  lemma PixelInUnit(f: Frame, luma: Luma, x: nat, y: nat)
    requires UnitLuma(luma)
    ensures 0.0 <= Pixel(f, luma, x, y) <= 1.0
  {
    hide ByteAt;
    var o := y * f.stride + x * 4;
    ProductInUnit(luma(ByteAt(f, o), ByteAt(f, o + 1), ByteAt(f, o + 2)), ByteAt(f, o + 3) as real / 255.0);
  }

  lemma {:induction false} SumWithinCount(f: Frame, luma: Luma, y: nat, x: nat, cell: nat)
    requires f.width > 0 && f.height > 0 && UnitLuma(luma)
    ensures 0.0 <= SumBefore(f, luma, y, x, cell) <= CountBefore(f, y, x, cell) as real
    decreases y, x
  {
    hide CellOf, Pixel, UnitLuma;
    if x > 0 {
      SumWithinCount(f, luma, y, x - 1, cell);
      PixelInUnit(f, luma, x - 1, y);
    } else if y > 0 {
      SumWithinCount(f, luma, y - 1, f.width, cell);
    }
  }

  lemma QuotientInUnit(sum: real, count: real)
    requires count > 0.0 && 0.0 <= sum <= count
    ensures 0.0 <= sum / count <= 1.0
  {
  }

  predicate InUnit(cells: seq<real>) { forall k :: 0 <= k < |cells| ==> 0.0 <= cells[k] <= 1.0 }

  /** `LumaGrid::new` accepts 144 cells in [0, 1]. */
  predicate Accepted(cells: seq<real>) { |cells| == CELLS && InUnit(cells) }

  /** Each cell is the average luma of the pixels that fall into it. */
  predicate Averages(f: Frame, luma: Luma, cells: seq<real>)
    requires f.width > 0 && f.height > 0
  {
    forall c: nat :: c < |cells| ==> PixelsIn(f, c) > 0 && cells[c] == LumaIn(f, luma, c) / PixelsIn(f, c) as real
  }

  lemma AveragesInUnit(f: Frame, luma: Luma, cells: seq<real>)
    requires f.width > 0 && f.height > 0 && UnitLuma(luma) && Averages(f, luma, cells)
    ensures InUnit(cells)
  {
    hide SumBefore, CountBefore, UnitLuma;
    forall k: nat | k < |cells| ensures 0.0 <= cells[k] <= 1.0 {
      SumWithinCount(f, luma, f.height, 0, k);
      QuotientInUnit(LumaIn(f, luma, k), PixelsIn(f, k) as real);
    }
  }

  /** The whole contract: each refusal in the order the checks are made, and a grid of
      averages in [0, 1] exactly for well-formed frames of at least 16 by 9 pixels. */
  ghost predicate Reduces(f: Frame, luma: Luma, rows: U16, cols: U16, r: Reduction) {
    if f.width == 0 || f.height == 0 || rows == 0 || cols == 0 then r == Refused(InvalidDimensions)
    else if rows != ROWS || cols != COLS then r == Refused(InvalidOutputDimensions(rows, cols))
    else if f.stride < 4 * f.width then r == Refused(InvalidStride(4 * f.width, f.stride))
    else if f.stride * f.height > USIZE_MAX then r == Refused(InvalidDimensions)
    else if |f.rgba| != f.stride * f.height then r == Refused(InvalidLength(f.stride * f.height, |f.rgba|))
    else if f.width < COLS || f.height < ROWS then r == Refused(EmptyCell)
    else r.Grid? && Accepted(r.cells) && Averages(f, luma, r.cells)
  }

  /** Luma of the whole frame is what the cells hold, weighted by their pixels. */
  lemma MeanLumaConserved(f: Frame, luma: Luma, cells: seq<real>)
    requires f.width > 0 && f.height > 0 && |cells| == CELLS && Averages(f, luma, cells)
    ensures Sum(CELLS, (c: nat) => PixelsIn(f, c) as real) == (f.width * f.height) as real
    ensures Sum(CELLS, (c: nat) => if c < |cells| then cells[c] * PixelsIn(f, c) as real else 0.0) ==
            LumaBefore(f, luma, f.height, 0)
  {
    hide SumBefore, CountBefore, LumaBefore, Sum;
    CountsAddUp(f, f.height, 0);
    SumExt(CELLS, (c: nat) => PixelsIn(f, c) as real, CountsBefore(f, f.height, 0));
    LumaAddsUp(f, luma, f.height, 0);
    var back := (c: nat) => if c < |cells| then cells[c] * PixelsIn(f, c) as real else 0.0;
    forall c: nat | c < CELLS ensures back(c) == LumaIn(f, luma, c) {
      MultiplyBack(LumaIn(f, luma, c), PixelsIn(f, c) as real);
    }
    SumExt(CELLS, back, SumsBefore(f, luma, f.height, 0));
  }

  lemma MultiplyBack(sum: real, count: real)
    requires count > 0.0
    ensures sum / count * count == sum
  {
  }

  // ── The loops ───────────────────────────────────────────────────────────

  ghost predicate Tallied(f: Frame, luma: Luma, sums: seq<real>, counts: seq<nat>, y: nat, x: nat)
    requires f.width > 0 && f.height > 0
  {
    && |sums| == CELLS && |counts| == CELLS
    && forall c: nat :: c < CELLS ==> sums[c] == SumBefore(f, luma, y, x, c) && counts[c] == CountBefore(f, y, x, c)
  }

  lemma TalliedNext(f: Frame, luma: Luma, sums: seq<real>, counts: seq<nat>, y: nat, x: nat, cell: nat)
    requires x < f.width && y < f.height && Tallied(f, luma, sums, counts, y, x) && cell == CellOf(f, x, y) < CELLS
    ensures Tallied(f, luma, sums[cell := sums[cell] + Pixel(f, luma, x, y)],
                    counts[cell := counts[cell] + 1], y, x + 1)
  {
    hide CellOf, Pixel;
  }

  method Accumulate(f: Frame, luma: Luma, sums: array<real>, counts: array<nat>, x: nat, y: nat)
    requires Packed(f) && x < f.width && y < f.height && sums.Length == CELLS && counts.Length == CELLS
    requires Tallied(f, luma, sums[..], counts[..], y, x)
    modifies sums, counts
    ensures Tallied(f, luma, sums[..], counts[..], y, x + 1)
  {
    hide Tallied;
    var cell := y * ROWS / f.height * COLS + x * COLS / f.width;
    CellInRange(f, x, y);
    PixelInBuffer(f, x, y);
    var offset := y * f.stride + x * 4;
    var alpha := f.rgba[offset + 3] as real / 255.0;
    var lit := luma(f.rgba[offset], f.rgba[offset + 1], f.rgba[offset + 2]) * alpha;
    assert lit == Pixel(f, luma, x, y);
    ghost var lumaBefore, countBefore := sums[..], counts[..];
    TalliedNext(f, luma, lumaBefore, countBefore, y, x, cell);
    sums[cell] := sums[cell] + lit;
    counts[cell] := counts[cell] + 1;
    assert sums[..] == lumaBefore[cell := lumaBefore[cell] + lit];
    assert counts[..] == countBefore[cell := countBefore[cell] + 1];
  }

  method ReduceRgba8ToLumaGrid(f: Frame, luma: Luma, rows: U16, cols: U16) returns (r: Reduction)
    requires UnitLuma(luma)
    ensures Reduces(f, luma, rows, cols, r)
  {
    if f.width == 0 || f.height == 0 || rows == 0 || cols == 0 {
      return Refused(InvalidDimensions);
    }
    if rows != ROWS || cols != COLS {
      return Refused(InvalidOutputDimensions(rows, cols));
    }
    if f.stride < 4 * f.width {
      return Refused(InvalidStride(4 * f.width, f.stride));
    }
    var expected := f.stride * f.height;
    if expected > USIZE_MAX {
      return Refused(InvalidDimensions);
    }
    if |f.rgba| != expected {
      return Refused(InvalidLength(expected, |f.rgba|));
    }
    var sums := new real[CELLS](_ => 0.0);
    var counts := new nat[CELLS](_ => 0);
    for y := 0 to f.height
      invariant Tallied(f, luma, sums[..], counts[..], y, 0)
    {
      for x := 0 to f.width
        invariant Tallied(f, luma, sums[..], counts[..], y, x)
      {
        Accumulate(f, luma, sums, counts, x, y);
      }
      assert Tallied(f, luma, sums[..], counts[..], y + 1, 0);
    }
    r := Finish(f, luma, sums[..], counts[..]);
  }

  method Finish(f: Frame, luma: Luma, sums: seq<real>, counts: seq<nat>) returns (r: Reduction)
    requires f.width > 0 && f.height > 0 && UnitLuma(luma) && Tallied(f, luma, sums, counts, f.height, 0)
    ensures r == Refused(EmptyCell) <==> f.width < COLS || f.height < ROWS
    ensures r.Refused? ==> r == Refused(EmptyCell)
    ensures r.Grid? ==> Accepted(r.cells) && Averages(f, luma, r.cells)
  {
    hide SumBefore, CountBefore, UnitLuma;
    CoveredExactlyWhenBigEnough(f);
    var cells: seq<real> := [];
    for c := 0 to CELLS
      invariant |cells| == c && Averages(f, luma, cells)
      invariant forall k: nat :: k < c ==> PixelsIn(f, k) > 0
    {
      assert counts[c] == PixelsIn(f, c);
      if counts[c] == 0 {
        return Refused(EmptyCell);
      }
      cells := cells + [sums[c] / counts[c] as real];
    }
    AveragesInUnit(f, luma, cells);
    r := if Accepted(cells) then Grid(cells) else Refused(InvalidGrid);
  }
}
