/** `resample_area`: its loops, its bounds and its same-size shortcut. */
module AreaResampler {
  import opened DisplayTypes
  import opened Sums
  import opened Resampling

  // ── Bounds ──────────────────────────────────────────────────────────────

  lemma IndexInRange(r: nat, c: nat, rows: nat, cols: nat)
    requires r < rows && c < cols
    ensures 0 <= r * cols + c < rows * cols
  {
    assert (r + 1) * cols <= rows * cols;
  }

  predicate Within(v: seq<real>, lo: real, hi: real) { forall k :: 0 <= k < |v| ==> lo <= v[k] <= hi }

  lemma SourceWithin(v: seq<real>, s: Shape, r: nat, c: nat, lo: real, hi: real)
    requires |v| == s.sr * s.sc && Within(v, lo, hi) && r < s.sr && c < s.sc
    ensures lo <= Src(v, s, r, c) <= hi
  {
    IndexInRange(r, c, s.sr, s.sc);
  }

  lemma WeighOnce(x: real, y: real, a: real)
    requires x <= y && a >= 0.0
    ensures x * a <= y * a
  {
  }

  lemma Weigh(x: real, y: real, a: real, b: real)
    requires x <= y && a >= 0.0 && b >= 0.0
    ensures x * a * b <= y * a * b
  {
    WeighOnce(x, y, a);
    WeighOnce(x * a, y * a, b);
  }

  lemma OverlapPositive(s: Shape, i: nat, j: nat, r: nat, c: nat)
    ensures RowOverlap(s, i, r) >= 0.0 && ColOverlap(s, j, c) >= 0.0
  {
    hide Edge;
  }

  lemma PieceWithin(v: seq<real>, s: Shape, i: nat, j: nat, r: nat, c: nat, lo: real, hi: real)
    requires |v| == s.sr * s.sc && Within(v, lo, hi) && r < s.sr && c < s.sc
    ensures lo * RowOverlap(s, i, r) * ColOverlap(s, j, c) <= Piece(v, s, i, j, r, c)
    ensures Piece(v, s, i, j, r, c) <= hi * RowOverlap(s, i, r) * ColOverlap(s, j, c)
  {
    hide Src, Within, RowOverlap, ColOverlap;
    SourceWithin(v, s, r, c, lo, hi);
    OverlapPositive(s, i, j, r, c);
    Weigh(lo, Src(v, s, r, c), RowOverlap(s, i, r), ColOverlap(s, j, c));
    Weigh(Src(v, s, r, c), hi, RowOverlap(s, i, r), ColOverlap(s, j, c));
  }

  function Width(s: Shape, j: nat): real { Edge(j + 1, s.dc) - Edge(j, s.dc) }

  function Height(s: Shape, i: nat): real { Edge(i + 1, s.dr) - Edge(i, s.dr) }

  lemma BoundTimesWidth(s: Shape, j: nat, k: real)
    requires NonEmpty(s) && j < s.dc
    ensures Sum(s.sc, (c: nat) => k * ColOverlap(s, j, c)) == k * Width(s, j)
  {
    hide Edge, ColOverlap;
    TargetColumnCovered(s, j);
    SumScale(s.sc, k, (c: nat) => ColOverlap(s, j, c), (c: nat) => k * ColOverlap(s, j, c));
  }

  lemma RowPartWithin(v: seq<real>, s: Shape, i: nat, j: nat, r: nat, lo: real, hi: real)
    requires NonEmpty(s) && |v| == s.sr * s.sc && Within(v, lo, hi) && r < s.sr && j < s.dc
    ensures lo * RowOverlap(s, i, r) * Width(s, j) <= RowPart(v, s, i, j, r)
    ensures RowPart(v, s, i, j, r) <= hi * RowOverlap(s, i, r) * Width(s, j)
  {
    hide Within, Width, RowOverlap, ColOverlap, Piece;
    var below, above := lo * RowOverlap(s, i, r), hi * RowOverlap(s, i, r);
    var low := (c: nat) => below * ColOverlap(s, j, c);
    var high := (c: nat) => above * ColOverlap(s, j, c);
    var part := (c: nat) => Piece(v, s, i, j, r, c);
    forall c: nat | c < s.sc ensures low(c) <= part(c) <= high(c) {
      PieceWithin(v, s, i, j, r, c, lo, hi);
    }
    SumMonotone(s.sc, low, part);
    SumMonotone(s.sc, part, high);
    BoundTimesWidth(s, j, below);
    BoundTimesWidth(s, j, above);
  }

  lemma Reorder(x: real, y: real, z: real)
    ensures x * y * z == x * z * y == x * (y * z)
  {
  }

  /** A bound `k` on every cell, weighed by row overlaps, is `k` times the area. */
  lemma BoundTimesArea(s: Shape, i: nat, j: nat, k: real)
    requires NonEmpty(s) && i < s.dr
    ensures Sum(s.sr, (r: nat) => k * RowOverlap(s, i, r) * Width(s, j)) == k * Area(s, i, j)
  {
    hide Edge, RowOverlap, Width;
    var term := (r: nat) => k * RowOverlap(s, i, r) * Width(s, j);
    var row := (r: nat) => RowOverlap(s, i, r);
    forall r: nat | r < s.sr ensures term(r) == k * Width(s, j) * row(r) {
      Reorder(k, RowOverlap(s, i, r), Width(s, j));
    }
    SumScale(s.sr, k * Width(s, j), row, term);
    TargetRowCovered(s, i);
    Reorder(k, Width(s, j), Height(s, i));
    AreaIsProduct(s, i, j);
    Commute(Width(s, j), Height(s, i));
  }

  lemma AreaIsProduct(s: Shape, i: nat, j: nat)
    ensures Area(s, i, j) == Height(s, i) * Width(s, j)
  {
    hide Edge;
  }

  lemma Commute(x: real, y: real)
    ensures x * y == y * x
  {
  }

  lemma WeightedWithin(v: seq<real>, s: Shape, i: nat, j: nat, lo: real, hi: real)
    requires NonEmpty(s) && |v| == s.sr * s.sc && Within(v, lo, hi) && i < s.dr && j < s.dc
    ensures lo * Area(s, i, j) <= Weighted(v, s, i, j) <= hi * Area(s, i, j)
  {
    hide Within, RowPart, RowOverlap, Area, Width;
    var low := (r: nat) => lo * RowOverlap(s, i, r) * Width(s, j);
    var high := (r: nat) => hi * RowOverlap(s, i, r) * Width(s, j);
    var part := (r: nat) => RowPart(v, s, i, j, r);
    forall r: nat | r < s.sr ensures low(r) <= part(r) <= high(r) {
      RowPartWithin(v, s, i, j, r, lo, hi);
    }
    SumMonotone(s.sr, low, part);
    SumMonotone(s.sr, part, high);
    BoundTimesArea(s, i, j, lo);
    BoundTimesArea(s, i, j, hi);
  }

  lemma WeighStrictly(x: real, y: real, a: real)
    requires a > 0.0 && x * a <= y * a
    ensures x <= y
  {
    assert y < x ==> y * a < x * a;
  }

  lemma DivideBounds(w: real, area: real, lo: real, hi: real)
    requires area > 0.0 && lo * area <= w <= hi * area
    ensures lo <= w / area <= hi
  {
    assert (w / area) * area == w;
    WeighStrictly(lo, w / area, area);
    WeighStrictly(w / area, hi, area);
  }

  lemma AverageWithin(v: seq<real>, s: Shape, i: nat, j: nat, lo: real, hi: real)
    requires NonEmpty(s) && |v| == s.sr * s.sc && Within(v, lo, hi) && i < s.dr && j < s.dc
    ensures lo <= Average(v, s, i, j) <= hi
  {
    hide Weighted, Area, Within;
    WeightedWithin(v, s, i, j, lo, hi);
    AreaIsShare(s, i, j);
    DivideBounds(Weighted(v, s, i, j), Area(s, i, j), lo, hi);
  }

  lemma CellWithin(v: seq<real>, s: Shape, out: seq<real>, k: nat, lo: real, hi: real)
    requires NonEmpty(s) && |v| == s.sr * s.sc && Resampled(v, s, out) && Within(v, lo, hi) && k < |out|
    ensures lo <= out[k] <= hi
  {
    hide Average, Entry, Within;
    var i, j := Locate(out, s.dr, s.dc, k);
    AverageWithin(v, s, i, j, lo, hi);
  }

  /** No output cell leaves the range of the input. */
  lemma RangeKept(v: seq<real>, s: Shape, out: seq<real>, lo: real, hi: real)
    requires NonEmpty(s) && |v| == s.sr * s.sc && Resampled(v, s, out) && Within(v, lo, hi)
    ensures Within(out, lo, hi)
  {
    hide Resampled;
    forall k | 0 <= k < |out| ensures lo <= out[k] <= hi {
      CellWithin(v, s, out, k, lo, hi);
    }
  }

  lemma Locate(out: seq<real>, rows: nat, cols: nat, k: nat) returns (i: nat, j: nat)
    requires cols > 0 && |out| == rows * cols && k < |out|
    ensures i < rows && j < cols && Entry(out, cols, i, j) == out[k]
  {
    hide Entry;
    i, j := k / cols, k % cols;
    RowOfIndex(k, rows, cols);
    EntryOfIndex(out, cols, k);
  }

  lemma EntryOfIndex(out: seq<real>, cols: nat, k: nat)
    requires cols > 0 && k < |out|
    ensures Entry(out, cols, k / cols, k % cols) == out[k]
  {
    assert (k / cols) * cols + k % cols == k;
  }

  lemma RowOfIndex(k: nat, rows: nat, cols: nat)
    requires cols > 0 && k < rows * cols
    ensures k / cols < rows && k % cols < cols
  {
    assert (k / cols) * cols <= k;
    SmallerFactor(k / cols, rows, cols);
  }

  // ── Locality ────────────────────────────────────────────────────────────

  /** Cell `i` of `n` and cell `r` of `m` equal cells of one interval share more than a point. */
  predicate Touches(i: nat, n: nat, r: nat, m: nat) { r * n < (i + 1) * m && i * m < (r + 1) * n }

  /** Bounds of the source cells under destination cell (i, j), in whole numbers. */
  predicate WithinUnder(v: seq<real>, s: Shape, i: nat, j: nat, lo: real, hi: real) {
    forall r: nat, c: nat :: r < s.sr && c < s.sc && Touches(i, s.dr, r, s.sr) && Touches(j, s.dc, c, s.sc) ==>
      lo <= Src(v, s, r, c) <= hi
  }

  lemma EdgesCompare(a: nat, m: nat, b: nat, n: nat)
    requires m > 0 && n > 0 && a * n >= b * m
    ensures Edge(a, m) >= Edge(b, n)
  {
    var (x, y, p, q) := (Edge(a, m), Edge(b, n), m as real, n as real);
    TimesBack(a, m);
    TimesBack(b, n);
    RealProduct(a, n);
    RealProduct(b, m);
    Scaled(x, p, a as real, q);
    Scaled(y, q, b as real, p);
    Reorder(x, p, q);
    Reorder(y, q, p);
    Commute(p, q);
    Positive(p, q);
    WeighStrictly(y, x, p * q);
  }

  lemma TimesBack(a: nat, m: nat)
    requires m > 0
    ensures Edge(a, m) * m as real == a as real
  {
  }

  lemma RealProduct(a: nat, n: nat)
    ensures (a * n) as real == a as real * n as real
  {
  }

  lemma Scaled(x: real, p: real, a: real, q: real)
    requires x * p == a
    ensures x * p * q == a * q
  {
  }

  lemma Positive(p: real, q: real)
    requires p > 0.0 && q > 0.0
    ensures p * q > 0.0
  {
  }

  lemma ApartNoOverlap(i: nat, n: nat, r: nat, m: nat)
    requires n > 0 && m > 0 && !Touches(i, n, r, m)
    ensures Overlap(Edge(i, n), Edge(i + 1, n), Edge(r, m), Edge(r + 1, m)) == 0.0
  {
    hide Edge;
    EdgeStep(i, n);
    EdgeStep(r, m);
    if r * n >= (i + 1) * m {
      EdgesCompare(r, m, i + 1, n);
    } else {
      EdgesCompare(i, n, r + 1, m);
    }
  }

  lemma ApartWeighsNothing(s: Shape, i: nat, j: nat, r: nat, c: nat, x: real)
    requires NonEmpty(s) && !(Touches(i, s.dr, r, s.sr) && Touches(j, s.dc, c, s.sc))
    ensures x * RowOverlap(s, i, r) * ColOverlap(s, j, c) == 0.0
  {
    hide Overlap, Edge;
    if !Touches(i, s.dr, r, s.sr) {
      ApartNoOverlap(i, s.dr, r, s.sr);
      Vanish(x, ColOverlap(s, j, c));
    } else {
      ApartNoOverlap(j, s.dc, c, s.sc);
    }
  }

  /** The source with every cell away from (i, j) set to `lo`. */
  function Masked(v: seq<real>, s: Shape, i: nat, j: nat, lo: real): (m: seq<real>)
    requires s.sc > 0
    ensures |m| == |v|
  {
    seq(|v|, k requires 0 <= k < |v| =>
      if Touches(i, s.dr, k / s.sc, s.sr) && Touches(j, s.dc, k % s.sc, s.sc) then v[k] else lo)
  }

  lemma MaskedPiece(v: seq<real>, s: Shape, i: nat, j: nat, lo: real, r: nat, c: nat)
    requires NonEmpty(s) && |v| == s.sr * s.sc && r < s.sr && c < s.sc
    ensures Piece(Masked(v, s, i, j, lo), s, i, j, r, c) == Piece(v, s, i, j, r, c)
  {
    hide Touches, RowOverlap, ColOverlap;
    MaskedCell(v, s, i, j, lo, r, c);
    if !(Touches(i, s.dr, r, s.sr) && Touches(j, s.dc, c, s.sc)) {
      ApartWeighsNothing(s, i, j, r, c, Src(v, s, r, c));
      ApartWeighsNothing(s, i, j, r, c, lo);
    }
  }

  lemma MaskedCell(v: seq<real>, s: Shape, i: nat, j: nat, lo: real, r: nat, c: nat)
    requires NonEmpty(s) && |v| == s.sr * s.sc && r < s.sr && c < s.sc
    ensures Src(Masked(v, s, i, j, lo), s, r, c) ==
            if Touches(i, s.dr, r, s.sr) && Touches(j, s.dc, c, s.sc) then Src(v, s, r, c) else lo
  {
    hide Touches;
    IndexInRange(r, c, s.sr, s.sc);
    IndexSplits(r, c, s.sc);
  }

  lemma IndexSplits(r: nat, c: nat, cols: nat)
    requires c < cols
    ensures (r * cols + c) / cols == r && (r * cols + c) % cols == c
  {
    var k := r * cols + c;
    assert k == (k / cols) * cols + k % cols;
    if k / cols < r {
      SmallerProduct(k / cols + 1, r, cols);
      assert false;
    }
    if k / cols > r {
      SmallerProduct(r + 1, k / cols, cols);
      assert false;
    }
  }

  lemma SmallerProduct(a: nat, b: nat, n: nat)
    requires a <= b
    ensures a * n <= b * n
  {
  }

  lemma MaskedAverage(v: seq<real>, s: Shape, i: nat, j: nat, lo: real)
    requires NonEmpty(s) && |v| == s.sr * s.sc
    ensures Average(Masked(v, s, i, j, lo), s, i, j) == Average(v, s, i, j)
  {
    hide Piece, Masked, Area;
    var m := Masked(v, s, i, j, lo);
    forall r: nat | r < s.sr ensures RowPart(m, s, i, j, r) == RowPart(v, s, i, j, r) {
      forall c: nat | c < s.sc ensures Piece(m, s, i, j, r, c) == Piece(v, s, i, j, r, c) {
        MaskedPiece(v, s, i, j, lo, r, c);
      }
      SumExt(s.sc, (c: nat) => Piece(m, s, i, j, r, c), (c: nat) => Piece(v, s, i, j, r, c));
    }
    SumExt(s.sr, (r: nat) => RowPart(m, s, i, j, r), (r: nat) => RowPart(v, s, i, j, r));
  }

  lemma MaskedWithin(v: seq<real>, s: Shape, i: nat, j: nat, lo: real, hi: real)
    requires NonEmpty(s) && |v| == s.sr * s.sc && lo <= hi && WithinUnder(v, s, i, j, lo, hi)
    ensures Within(Masked(v, s, i, j, lo), lo, hi)
  {
    hide Touches, WithinUnder, Masked;
    var m := Masked(v, s, i, j, lo);
    forall k | 0 <= k < |m| ensures lo <= m[k] <= hi {
      MaskedEntry(v, s, i, j, lo, hi, k);
    }
  }

  lemma MaskedEntry(v: seq<real>, s: Shape, i: nat, j: nat, lo: real, hi: real, k: nat)
    requires NonEmpty(s) && |v| == s.sr * s.sc && lo <= hi && WithinUnder(v, s, i, j, lo, hi) && k < |v|
    ensures lo <= Masked(v, s, i, j, lo)[k] <= hi
  {
    hide Touches, Entry;
    RowOfIndex(k, s.sr, s.sc);
    EntryOfIndex(v, s.sc, k);
    assert Src(v, s, k / s.sc, k % s.sc) == v[k];
  }

  /** Every output cell stays in the range of the source cells it lies on, and of no other. */
  lemma RangeKeptLocally(v: seq<real>, s: Shape, out: seq<real>, i: nat, j: nat, lo: real, hi: real)
    requires NonEmpty(s) && |v| == s.sr * s.sc && Resampled(v, s, out) && i < s.dr && j < s.dc
    requires lo <= hi && WithinUnder(v, s, i, j, lo, hi)
    ensures lo <= Entry(out, s.dc, i, j) <= hi
  {
    hide Average, Within, Masked, WithinUnder, Entry;
    MaskedAverage(v, s, i, j, lo);
    MaskedWithin(v, s, i, j, lo, hi);
    AverageWithin(Masked(v, s, i, j, lo), s, i, j, lo, hi);
  }

  // ── The same-size shortcut ──────────────────────────────────────────────

  lemma OwnCellOnly(n: nat, j: nat, c: nat)
    requires n > 0
    ensures Overlap(Edge(j, n), Edge(j + 1, n), Edge(c, n), Edge(c + 1, n)) ==
            if j == c then Edge(j + 1, n) - Edge(j, n) else 0.0
  {
    hide Edge;
    EdgeStep(j, n);
    EdgeStep(c, n);
    if c < j {
      EdgeOrder(c + 1, j, n);
    } else if j < c {
      EdgeOrder(j + 1, c, n);
    }
  }

  lemma SameColumn(s: Shape, j: nat, c: nat)
    requires NonEmpty(s) && s.sc == s.dc
    ensures ColOverlap(s, j, c) == if j == c then Width(s, j) else 0.0
  {
    hide Edge, Overlap;
    OwnCellOnly(s.sc, j, c);
  }

  lemma SameRow(s: Shape, i: nat, r: nat)
    requires NonEmpty(s) && s.sr == s.dr
    ensures RowOverlap(s, i, r) == if i == r then Height(s, i) else 0.0
  {
    hide Edge, Overlap;
    OwnCellOnly(s.sr, i, r);
  }

  lemma SameRowPart(v: seq<real>, s: Shape, i: nat, j: nat, r: nat)
    requires NonEmpty(s) && s.sc == s.dc && j < s.sc
    ensures RowPart(v, s, i, j, r) == Src(v, s, r, j) * RowOverlap(s, i, r) * Width(s, j)
  {
    hide Src, RowOverlap, ColOverlap, Width;
    var part := (c: nat) => Piece(v, s, i, j, r, c);
    forall c: nat | c < s.sc && c != j ensures part(c) == 0.0 {
      SameColumn(s, j, c);
    }
    SameColumn(s, j, j);
    SumPoint(s.sc, part, j);
  }

  lemma SameWeighted(v: seq<real>, s: Shape, i: nat, j: nat)
    requires NonEmpty(s) && s.sc == s.dc && s.sr == s.dr && i < s.sr && j < s.sc
    ensures Weighted(v, s, i, j) == Src(v, s, i, j) * Area(s, i, j)
  {
    hide Src, RowPart, RowOverlap, Width, Height, Area;
    var part := (r: nat) => RowPart(v, s, i, j, r);
    forall r: nat | r < s.sr && r != i ensures part(r) == 0.0 {
      SameRowPart(v, s, i, j, r);
      SameRow(s, i, r);
      Vanish(Src(v, s, r, j), Width(s, j));
    }
    SameRowPart(v, s, i, j, i);
    SameRow(s, i, i);
    SumPoint(s.sr, part, i);
    Reorder(Src(v, s, i, j), Height(s, i), Width(s, j));
    AreaIsProduct(s, i, j);
  }

  lemma Vanish(x: real, y: real)
    ensures x * 0.0 * y == 0.0
  {
  }

  lemma SameAverage(v: seq<real>, s: Shape, i: nat, j: nat)
    requires NonEmpty(s) && s.sc == s.dc && s.sr == s.dr && i < s.sr && j < s.sc
    ensures Average(v, s, i, j) == Src(v, s, i, j)
  {
    hide Weighted, Area, Src;
    SameWeighted(v, s, i, j);
    AreaIsShare(s, i, j);
    Commute(Src(v, s, i, j), Area(s, i, j));
    Quotient(Weighted(v, s, i, j), Area(s, i, j), Src(v, s, i, j));
  }

  /** The shortcut for equal sizes returns what the loops would compute. */
  lemma ShortcutAgrees(v: seq<real>, s: Shape)
    requires NonEmpty(s) && s.sc == s.dc && s.sr == s.dr && |v| == s.sr * s.sc
    ensures Resampled(v, s, v)
  {
    hide Average, Entry;
    forall i: nat, j: nat | i < s.dr && j < s.dc ensures Entry(v, s.dc, i, j) == Average(v, s, i, j) {
      SameAverage(v, s, i, j);
    }
  }

  // ── The loops ───────────────────────────────────────────────────────────

  lemma EmptyRow(v: seq<real>, s: Shape, i: nat, j: nat, r: nat)
    requires RowOverlap(s, i, r) == 0.0
    ensures RowPart(v, s, i, j, r) == 0.0
  {
    hide Src, RowOverlap, ColOverlap;
    forall c: nat | c < s.sc ensures Piece(v, s, i, j, r, c) == 0.0 {
      Vanish(Src(v, s, r, c), ColOverlap(s, j, c));
    }
    SumZero(s.sc, (c: nat) => Piece(v, s, i, j, r, c));
  }

  lemma NextPiece(v: seq<real>, s: Shape, i: nat, j: nat, r: nat, c: nat)
    requires |v| == s.sr * s.sc && r < s.sr && c < s.sc
    ensures 0 <= r * s.sc + c < |v|
    ensures Sum(c + 1, (k: nat) => Piece(v, s, i, j, r, k)) ==
            Sum(c, (k: nat) => Piece(v, s, i, j, r, k)) + v[r * s.sc + c] * RowOverlap(s, i, r) * ColOverlap(s, j, c)
  {
    hide RowOverlap, ColOverlap;
    IndexInRange(r, c, s.sr, s.sc);
  }

  /** The innermost loop: one source row added to the weighted sum of a cell. */
  method ColumnPass(v: seq<real>, s: Shape, i: nat, j: nat, r: nat, start: real) returns (weighted: real)
    requires NonEmpty(s) && |v| == s.sr * s.sc && r < s.sr
    ensures weighted == start + RowPart(v, s, i, j, r)
  {
    hide Piece, Edge, RowOverlap;
    weighted := start;
    var dstLeft, dstRight := Edge(j, s.dc), Edge(j + 1, s.dc);
    var rowOverlap := RowOverlap(s, i, r);
    for c := 0 to s.sc
      invariant weighted == start + Sum(c, (k: nat) => Piece(v, s, i, j, r, k))
    {
      var srcLeft, srcRight := Edge(c, s.sc), Edge(c + 1, s.sc);
      var colOverlap := Max(Min(dstRight, srcRight) - Max(dstLeft, srcLeft), 0.0);
      NextPiece(v, s, i, j, r, c);
      weighted := weighted + v[r * s.sc + c] * rowOverlap * colOverlap;
    }
  }

  /** One destination cell; source rows that miss it are skipped. */
  method CellPass(v: seq<real>, s: Shape, i: nat, j: nat) returns (cell: real)
    requires NonEmpty(s) && |v| == s.sr * s.sc
    ensures cell == Average(v, s, i, j)
  {
    hide RowPart, Edge, RowOverlap;
    var weighted := 0.0;
    for r := 0 to s.sr
      invariant weighted == Sum(r, (k: nat) => RowPart(v, s, i, j, k))
    {
      if RowOverlap(s, i, r) == 0.0 {
        EmptyRow(v, s, i, j, r);
        continue;
      }
      weighted := ColumnPass(v, s, i, j, r, weighted);
    }
    AreaIsShare(s, i, j);
    cell := weighted / ((Edge(i + 1, s.dr) - Edge(i, s.dr)) * (Edge(j + 1, s.dc) - Edge(j, s.dc)));
  }

  predicate RowsDone(v: seq<real>, s: Shape, out: seq<real>, n: nat) {
    && |out| == n * s.dc
    && forall p: nat, q: nat :: p < n && q < s.dc ==> Entry(out, s.dc, p, q) == Average(v, s, p, q)
  }

  method RowPass(v: seq<real>, s: Shape, i: nat) returns (row: seq<real>)
    requires NonEmpty(s) && |v| == s.sr * s.sc
    ensures |row| == s.dc && forall q: nat :: q < s.dc ==> row[q] == Average(v, s, i, q)
  {
    hide Average;
    row := [];
    for j := 0 to s.dc
      invariant |row| == j && forall q: nat :: q < j ==> row[q] == Average(v, s, i, q)
    {
      var cell := CellPass(v, s, i, j);
      row := row + [cell];
    }
  }

  lemma EntryKept(out: seq<real>, row: seq<real>, cols: nat, n: nat, p: nat, q: nat)
    requires |out| == n * cols && p < n && q < cols
    ensures Entry(out + row, cols, p, q) == Entry(out, cols, p, q)
  {
    IndexInRange(p, q, n, cols);
  }

  lemma EntryNew(out: seq<real>, row: seq<real>, cols: nat, n: nat, q: nat)
    requires |out| == n * cols && |row| == cols && q < cols
    ensures Entry(out + row, cols, n, q) == row[q]
  {
  }

  lemma RowAppended(v: seq<real>, s: Shape, out: seq<real>, row: seq<real>, n: nat)
    requires RowsDone(v, s, out, n)
    requires |row| == s.dc && forall q: nat :: q < s.dc ==> row[q] == Average(v, s, n, q)
    ensures RowsDone(v, s, out + row, n + 1)
  {
    hide Average, Entry;
    assert |out + row| == (n + 1) * s.dc;
    forall p: nat, q: nat | p < n + 1 && q < s.dc
      ensures Entry(out + row, s.dc, p, q) == Average(v, s, p, q)
    {
      if p < n {
        EntryKept(out, row, s.dc, n, p, q);
      } else {
        EntryNew(out, row, s.dc, n, q);
      }
    }
  }

  /** Refuses empty or mismatched dimensions, otherwise returns the overlap-weighted
      averages, cell by cell. */
  method ResampleArea(v: seq<real>, s: Shape) returns (result: Option<seq<real>>)
    ensures result.Some? <==> NonEmpty(s) && |v| == s.sr * s.sc
    ensures result.Some? ==> Resampled(v, s, result.value)
  {
    hide Average, Entry, RowsDone;
    if s.sr == 0 || s.sc == 0 || s.dr == 0 || s.dc == 0 || |v| != s.sr * s.sc {
      return None;
    }
    if s.sr == s.dr && s.sc == s.dc {
      ShortcutAgrees(v, s);
      return Some(v);
    }
    var out: seq<real> := [];
    NoRows(v, s);
    for i := 0 to s.dr
      invariant RowsDone(v, s, out, i)
    {
      var row := RowPass(v, s, i);
      RowAppended(v, s, out, row, i);
      out := out + row;
    }
    AllRows(v, s, out);
    return Some(out);
  }

  lemma NoRows(v: seq<real>, s: Shape)
    ensures RowsDone(v, s, [], 0)
  {
  }

  lemma AllRows(v: seq<real>, s: Shape, out: seq<real>)
    requires RowsDone(v, s, out, s.dr)
    ensures Resampled(v, s, out)
  {
  }
}
