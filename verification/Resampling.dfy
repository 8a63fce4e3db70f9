/** Area resampling of a row-major grid, in exact arithmetic. */
module Resampling {
  import opened Sums

  type Dim = n: int | 0 <= n < 65536

  /** Source and destination rows and columns. */
  datatype Shape = Shape(sr: Dim, sc: Dim, dr: Dim, dc: Dim)

  predicate NonEmpty(s: Shape) { s.sr > 0 && s.sc > 0 && s.dr > 0 && s.dc > 0 }

  function Min(a: real, b: real): real { if a <= b then a else b }

  function Max(a: real, b: real): real { if a >= b then a else b }

  /** The `i`-th of `n` equal cuts of the unit interval. */
  function Edge(i: nat, n: nat): real { if n == 0 then 0.0 else i as real / n as real }

  function Overlap(a0: real, a1: real, b0: real, b1: real): real { Max(Min(a1, b1) - Max(a0, b0), 0.0) }

  function RowOverlap(s: Shape, i: nat, r: nat): real {
    Overlap(Edge(i, s.dr), Edge(i + 1, s.dr), Edge(r, s.sr), Edge(r + 1, s.sr))
  }

  function ColOverlap(s: Shape, j: nat, c: nat): real {
    Overlap(Edge(j, s.dc), Edge(j + 1, s.dc), Edge(c, s.sc), Edge(c + 1, s.sc))
  }

  function At(v: seq<real>, k: nat): real { if k < |v| then v[k] else 0.0 }

  /** Cell (r, c) of a row-major grid. */
  function Entry(v: seq<real>, cols: nat, r: nat, c: nat): real { At(v, r * cols + c) }

  function Src(v: seq<real>, s: Shape, r: nat, c: nat): real { Entry(v, s.sc, r, c) }

  function Piece(v: seq<real>, s: Shape, i: nat, j: nat, r: nat, c: nat): real {
    Src(v, s, r, c) * RowOverlap(s, i, r) * ColOverlap(s, j, c)
  }

  function RowPart(v: seq<real>, s: Shape, i: nat, j: nat, r: nat): real {
    Sum(s.sc, (c: nat) => Piece(v, s, i, j, r, c))
  }

  /** Overlap-weighted sum of the source under destination cell (i, j). */
  function Weighted(v: seq<real>, s: Shape, i: nat, j: nat): real {
    Sum(s.sr, (r: nat) => RowPart(v, s, i, j, r))
  }

  function Area(s: Shape, i: nat, j: nat): real {
    (Edge(i + 1, s.dr) - Edge(i, s.dr)) * (Edge(j + 1, s.dc) - Edge(j, s.dc))
  }

  /** What one destination cell must hold. */
  function Average(v: seq<real>, s: Shape, i: nat, j: nat): real {
    if Area(s, i, j) == 0.0 then 0.0 else Weighted(v, s, i, j) / Area(s, i, j)
  }

  // ── Cuts of the unit interval ───────────────────────────────────────────

  lemma EdgeStep(i: nat, n: nat)
    requires n > 0
    ensures Edge(i + 1, n) - Edge(i, n) == 1.0 / n as real > 0.0
  {
  }

  lemma EdgeEnds(n: nat)
    requires n > 0
    ensures Edge(0, n) == 0.0 && Edge(n, n) == 1.0
  {
  }

  lemma {:induction false} EdgeOrder(i: nat, j: nat, n: nat)
    requires n > 0 && i <= j
    ensures Edge(i, n) <= Edge(j, n)
    decreases j - i
  {
    if i < j {
      EdgeOrder(i, j - 1, n);
      EdgeStep(j - 1, n);
    }
  }

  lemma EdgeInUnit(i: nat, n: nat)
    requires n > 0 && i <= n
    ensures 0.0 <= Edge(i, n) <= 1.0
  {
    EdgeEnds(n);
    EdgeOrder(0, i, n);
    EdgeOrder(i, n, n);
  }

  lemma AreaIsShare(s: Shape, i: nat, j: nat)
    requires s.dr > 0 && s.dc > 0
    ensures Area(s, i, j) == (1.0 / s.dr as real) * (1.0 / s.dc as real) > 0.0
  {
    EdgeStep(i, s.dr);
    EdgeStep(j, s.dc);
  }

  /** The first `k` of `n` cells cover [a, b] up to the `k`-th cut. */
  lemma {:induction false} OverlapsTelescope(k: nat, n: nat, a: real, b: real, f: nat -> real)
    requires n > 0 && 0.0 <= a <= b
    requires forall q: nat :: q < k ==> f(q) == Overlap(Edge(q, n), Edge(q + 1, n), a, b)
    ensures Sum(k, f) == Max(Min(b, Edge(k, n)) - a, 0.0)
  {
    if k == 0 {
      EdgeEnds(n);
    } else {
      OverlapsTelescope(k - 1, n, a, b, f);
      EdgeStep(k - 1, n);
    }
  }

  /** Overlaps with all cells sum to the whole interval. */
  lemma OverlapsSumToWhole(n: nat, a: real, b: real, f: nat -> real)
    requires n > 0 && 0.0 <= a <= b <= 1.0
    requires forall q: nat :: q < n ==> f(q) == Overlap(Edge(q, n), Edge(q + 1, n), a, b)
    ensures Sum(n, f) == b - a
  {
    OverlapsTelescope(n, n, a, b, f);
    EdgeEnds(n);
  }

  /** A source column's overlaps with the destination columns sum to its width... */
  lemma SourceColumnCovered(s: Shape, c: nat)
    requires NonEmpty(s) && c < s.sc
    ensures Sum(s.dc, (j: nat) => ColOverlap(s, j, c)) == 1.0 / s.sc as real
  {
    EdgeInUnit(c, s.sc);
    EdgeInUnit(c + 1, s.sc);
    EdgeStep(c, s.sc);
    OverlapsSumToWhole(s.dc, Edge(c, s.sc), Edge(c + 1, s.sc), (j: nat) => ColOverlap(s, j, c));
  }

  lemma SourceRowCovered(s: Shape, r: nat)
    requires NonEmpty(s) && r < s.sr
    ensures Sum(s.dr, (i: nat) => RowOverlap(s, i, r)) == 1.0 / s.sr as real
  {
    EdgeInUnit(r, s.sr);
    EdgeInUnit(r + 1, s.sr);
    EdgeStep(r, s.sr);
    OverlapsSumToWhole(s.dr, Edge(r, s.sr), Edge(r + 1, s.sr), (i: nat) => RowOverlap(s, i, r));
  }

  /** ...and a destination cell's overlaps with the source sum to its own. */
  lemma TargetColumnCovered(s: Shape, j: nat)
    requires NonEmpty(s) && j < s.dc
    ensures Sum(s.sc, (c: nat) => ColOverlap(s, j, c)) == Edge(j + 1, s.dc) - Edge(j, s.dc)
  {
    EdgeInUnit(j, s.dc);
    EdgeInUnit(j + 1, s.dc);
    EdgeStep(j, s.dc);
    OverlapsSumToWhole(s.sc, Edge(j, s.dc), Edge(j + 1, s.dc), (c: nat) => ColOverlap(s, j, c));
  }

  lemma TargetRowCovered(s: Shape, i: nat)
    requires NonEmpty(s) && i < s.dr
    ensures Sum(s.sr, (r: nat) => RowOverlap(s, i, r)) == Edge(i + 1, s.dr) - Edge(i, s.dr)
  {
    EdgeInUnit(i, s.dr);
    EdgeInUnit(i + 1, s.dr);
    EdgeStep(i, s.dr);
    OverlapsSumToWhole(s.sr, Edge(i, s.dr), Edge(i + 1, s.dr), (r: nat) => RowOverlap(s, i, r));
  }

  // ── Conservation of the mean ────────────────────────────────────────────

  function Cells(v: seq<real>): nat -> real { (k: nat) => At(v, k) }

  function Total(v: seq<real>): real { Sum(|v|, Cells(v)) }

  function Mean(v: seq<real>): real
    requires v != []
  {
    Total(v) / |v| as real
  }

  function SourceRow(v: seq<real>, s: Shape, r: nat): real { Sum(s.sc, (c: nat) => Src(v, s, r, c)) }

  /** How much of source column `c` the first `n` destination columns cover. */
  function ColCover(s: Shape, n: nat, c: nat): real { Sum(n, (j: nat) => ColOverlap(s, j, c)) }

  function RowCover(s: Shape, n: nat, r: nat): real { Sum(n, (i: nat) => RowOverlap(s, i, r)) }

  function CoveredRow(v: seq<real>, s: Shape, i: nat, n: nat, r: nat): real {
    Sum(s.sc, (c: nat) => Src(v, s, r, c) * RowOverlap(s, i, r) * ColCover(s, n, c))
  }

  lemma CoverRowByColumn(v: seq<real>, s: Shape, i: nat, n: nat, r: nat)
    ensures CoveredRow(v, s, i, n + 1, r) == CoveredRow(v, s, i, n, r) + RowPart(v, s, i, n, r)
  {
    hide Src, RowOverlap, ColOverlap;
    var f := (c: nat) => Src(v, s, r, c) * RowOverlap(s, i, r) * ColCover(s, n, c);
    var g := (c: nat) => Piece(v, s, i, n, r, c);
    var h := (c: nat) => Src(v, s, r, c) * RowOverlap(s, i, r) * ColCover(s, n + 1, c);
    forall c: nat | c < s.sc ensures h(c) == f(c) + g(c) {
      assert ColCover(s, n + 1, c) == ColCover(s, n, c) + ColOverlap(s, n, c);
      Distribute(Src(v, s, r, c) * RowOverlap(s, i, r), ColCover(s, n, c), ColOverlap(s, n, c));
    }
    SumAdd(s.sc, f, g, h);
  }

  lemma {:induction false} ColumnsCover(v: seq<real>, s: Shape, i: nat, n: nat)
    ensures Sum(n, (j: nat) => Weighted(v, s, i, j)) == Sum(s.sr, (r: nat) => CoveredRow(v, s, i, n, r))
  {
    hide Piece, RowOverlap, ColOverlap, Src;
    if n == 0 {
      forall r: nat | r < s.sr ensures CoveredRow(v, s, i, 0, r) == 0.0 {
        SumZero(s.sc, (c: nat) => Src(v, s, r, c) * RowOverlap(s, i, r) * ColCover(s, 0, c));
      }
      SumZero(s.sr, (r: nat) => CoveredRow(v, s, i, 0, r));
    } else {
      ColumnsCover(v, s, i, n - 1);
      forall r: nat | r < s.sr
        ensures CoveredRow(v, s, i, n, r) == CoveredRow(v, s, i, n - 1, r) + RowPart(v, s, i, n - 1, r)
      {
        CoverRowByColumn(v, s, i, n - 1, r);
      }
      SumAdd(s.sr, (r: nat) => CoveredRow(v, s, i, n - 1, r), (r: nat) => RowPart(v, s, i, n - 1, r),
             (r: nat) => CoveredRow(v, s, i, n, r));
      assert Sum(n, (j: nat) => Weighted(v, s, i, j))
          == Sum(n - 1, (j: nat) => Weighted(v, s, i, j)) + Weighted(v, s, i, n - 1);
    }
  }

  lemma WholeRowCovered(v: seq<real>, s: Shape, i: nat, r: nat)
    requires NonEmpty(s)
    ensures CoveredRow(v, s, i, s.dc, r) == RowOverlap(s, i, r) * (1.0 / s.sc as real) * SourceRow(v, s, r)
  {
    hide RowOverlap, ColOverlap, Src;
    var a := RowOverlap(s, i, r) * (1.0 / s.sc as real);
    var f := (c: nat) => Src(v, s, r, c);
    var h := (c: nat) => Src(v, s, r, c) * RowOverlap(s, i, r) * ColCover(s, s.dc, c);
    forall c: nat | c < s.sc ensures h(c) == a * f(c) {
      SourceColumnCovered(s, c);
      Rotate(Src(v, s, r, c), RowOverlap(s, i, r), 1.0 / s.sc as real);
    }
    SumScale(s.sc, a, f, h);
  }

  lemma Rotate(x: real, y: real, z: real)
    ensures x * y * z == y * z * x
  {
  }

  /** The mass the first `n` destination rows receive. */
  function RowMass(v: seq<real>, s: Shape, n: nat): real {
    Sum(n, (i: nat) => Sum(s.dc, (j: nat) => Weighted(v, s, i, j)))
  }

  lemma {:induction false} RowsCover(v: seq<real>, s: Shape, n: nat)
    requires NonEmpty(s)
    ensures RowMass(v, s, n) ==
            Sum(s.sr, (r: nat) => RowCover(s, n, r) * (1.0 / s.sc as real) * SourceRow(v, s, r))
  {
    hide RowOverlap, ColOverlap, Weighted, SourceRow, CoveredRow;
    var share := 1.0 / s.sc as real;
    if n == 0 {
      SumZero(s.sr, (r: nat) => RowCover(s, 0, r) * share * SourceRow(v, s, r));
    } else {
      RowsCover(v, s, n - 1);
      ColumnsCover(v, s, n - 1, s.dc);
      var f := (r: nat) => RowCover(s, n - 1, r) * share * SourceRow(v, s, r);
      var g := (r: nat) => CoveredRow(v, s, n - 1, s.dc, r);
      var h := (r: nat) => RowCover(s, n, r) * share * SourceRow(v, s, r);
      forall r: nat | r < s.sr ensures h(r) == f(r) + g(r) {
        WholeRowCovered(v, s, n - 1, r);
        Spread(RowCover(s, n - 1, r), RowOverlap(s, n - 1, r), share, SourceRow(v, s, r));
      }
      SumAdd(s.sr, f, g, h);
      LastRowMass(v, s, n);
    }
  }

  lemma LastRowMass(v: seq<real>, s: Shape, n: nat)
    requires n > 0
    ensures RowMass(v, s, n) == RowMass(v, s, n - 1) + Sum(s.dc, (j: nat) => Weighted(v, s, n - 1, j))
  {
    var f := (i: nat) => Sum(s.dc, (j: nat) => Weighted(v, s, i, j));
    assert Sum(n, f) == Sum(n - 1, f) + f(n - 1);
  }

  lemma Spread(a: real, b: real, x: real, y: real)
    ensures (a + b) * x * y == a * x * y + b * x * y
  {
  }

  /** All the mass arrives, scaled by the size of a source cell. */
  lemma MassArrives(v: seq<real>, s: Shape)
    requires NonEmpty(s) && |v| == s.sr * s.sc
    ensures RowMass(v, s, s.dr) == (1.0 / s.sr as real) * (1.0 / s.sc as real) * Total(v)
  {
    hide RowOverlap, ColOverlap, Weighted, At, Src, RowMass, SourceRow, Total;
    RowsCover(v, s, s.dr);
    var a := (1.0 / s.sr as real) * (1.0 / s.sc as real);
    var f := (r: nat) => SourceRow(v, s, r);
    var h := (r: nat) => RowCover(s, s.dr, r) * (1.0 / s.sc as real) * SourceRow(v, s, r);
    forall r: nat | r < s.sr ensures h(r) == a * f(r) {
      SourceRowCovered(s, r);
    }
    SumScale(s.sr, a, f, h);
    TotalByRows(v, s, f);
  }

  lemma TotalByRows(v: seq<real>, s: Shape, row: nat -> real)
    requires |v| == s.sr * s.sc
    requires forall r: nat :: r < s.sr ==> row(r) == SourceRow(v, s, r)
    ensures Total(v) == Sum(s.sr, row)
  {
    hide At, Shift, Cells, SourceRow;
    forall r: nat | r < s.sr ensures row(r) == Sum(s.sc, Shift(Cells(v), r * s.sc)) {
      SourceRowIsSlice(v, s, r);
    }
    SumRows(s.sr, s.sc, Cells(v), row);
  }

  lemma SourceRowIsSlice(v: seq<real>, s: Shape, r: nat)
    ensures SourceRow(v, s, r) == Sum(s.sc, Shift(Cells(v), r * s.sc))
  {
    hide At;
    SumExt(s.sc, (c: nat) => Src(v, s, r, c), Shift(Cells(v), r * s.sc));
  }

  /** `out` holds, cell by cell, the overlap-weighted average of the source. */
  predicate Resampled(v: seq<real>, s: Shape, out: seq<real>) {
    && |out| == s.dr * s.dc
    && forall i: nat, j: nat :: i < s.dr && j < s.dc ==> Entry(out, s.dc, i, j) == Average(v, s, i, j)
  }

  function OutputRow(out: seq<real>, s: Shape, i: nat): real { Sum(s.dc, (j: nat) => Entry(out, s.dc, i, j)) }

  lemma OutputRowTotal(v: seq<real>, s: Shape, out: seq<real>, i: nat)
    requires NonEmpty(s) && Resampled(v, s, out) && i < s.dr
    ensures OutputRow(out, s, i) == s.dr as real * s.dc as real * Sum(s.dc, (j: nat) => Weighted(v, s, i, j))
  {
    hide Weighted, Area, At, Entry;
    var big := s.dr as real * s.dc as real;
    var h := (j: nat) => Entry(out, s.dc, i, j);
    forall j: nat | j < s.dc ensures h(j) == big * Weighted(v, s, i, j) {
      AreaIsShare(s, i, j);
      DivideByShare(Weighted(v, s, i, j), s.dr as real, s.dc as real, Area(s, i, j));
    }
    SumScale(s.dc, big, (j: nat) => Weighted(v, s, i, j), h);
  }

  lemma OutputTotal(v: seq<real>, s: Shape, out: seq<real>)
    requires NonEmpty(s) && Resampled(v, s, out)
    ensures Total(out) == s.dr as real * s.dc as real * RowMass(v, s, s.dr)
  {
    hide Weighted, Area, Average, At, Entry, OutputRow;
    var big := s.dr as real * s.dc as real;
    var f := (i: nat) => Sum(s.dc, (j: nat) => Weighted(v, s, i, j));
    var h := (i: nat) => OutputRow(out, s, i);
    forall i: nat | i < s.dr ensures h(i) == big * f(i) {
      OutputRowTotal(v, s, out, i);
    }
    SumScale(s.dr, big, f, h);
    OutputByRows(s, out);
  }

  lemma OutputByRows(s: Shape, out: seq<real>)
    requires |out| == s.dr * s.dc
    ensures Total(out) == Sum(s.dr, (i: nat) => OutputRow(out, s, i))
  {
    hide At, Shift, Cells, OutputRow;
    forall i: nat | i < s.dr ensures OutputRow(out, s, i) == Sum(s.dc, Shift(Cells(out), i * s.dc)) {
      OutputRowIsSlice(s, out, i);
    }
    SumRows(s.dr, s.dc, Cells(out), (i: nat) => OutputRow(out, s, i));
  }

  lemma OutputRowIsSlice(s: Shape, out: seq<real>, i: nat)
    ensures OutputRow(out, s, i) == Sum(s.dc, Shift(Cells(out), i * s.dc))
  {
    hide At;
    SumExt(s.dc, (j: nat) => Entry(out, s.dc, i, j), Shift(Cells(out), i * s.dc));
  }

  lemma DivideByShare(w: real, m: real, n: real, area: real)
    requires m > 0.0 && n > 0.0 && area == (1.0 / m) * (1.0 / n)
    ensures area > 0.0 && w / area == m * n * w
  {
    Reciprocal(m);
    Reciprocal(n);
    var a, b := 1.0 / m, 1.0 / n;
    assert area * (m * n) == (a * m) * (b * n);
    assert area * (m * n * w) == (area * (m * n)) * w;
    Quotient(w, area, m * n * w);
  }

  lemma Reciprocal(m: real)
    requires m > 0.0
    ensures 1.0 / m > 0.0 && (1.0 / m) * m == 1.0
  {
  }

  lemma Quotient(w: real, area: real, x: real)
    requires area > 0.0 && area * x == w
    ensures w / area == x
  {
  }

  lemma MeanOfScaled(total: real, big: real, mass: real)
    requires big > 0.0 && total == big * mass
    ensures total / big == mass
  {
  }

  lemma MeanOfMass(total: real, m: real, n: real, big: real)
    requires m > 0.0 && n > 0.0 && big == m * n
    ensures (1.0 / m) * (1.0 / n) * total == total / big
  {
    Reciprocal(m);
    Reciprocal(n);
    var a, b := 1.0 / m, 1.0 / n;
    assert big * (a * b * total) == (a * m) * (b * n) * total;
    Quotient(total, big, a * b * total);
  }

  /** For all source and destination sizes the mean of the output is the mean of the input. */
  lemma MeanConserved(v: seq<real>, s: Shape, out: seq<real>)
    requires NonEmpty(s) && |v| == s.sr * s.sc && Resampled(v, s, out)
    ensures |out| > 0 && |v| > 0 && Mean(out) == Mean(v)
  {
    hide RowMass, Total, Resampled;
    OutputTotal(v, s, out);
    MassArrives(v, s);
    Sizes(s, v, out);
    MeanOfScaled(Total(out), s.dr as real * s.dc as real, RowMass(v, s, s.dr));
    MeanOfMass(Total(v), s.sr as real, s.sc as real, |v| as real);
  }

  lemma Sizes(s: Shape, v: seq<real>, out: seq<real>)
    requires NonEmpty(s) && |v| == s.sr * s.sc && Resampled(v, s, out)
    ensures |out| > 0 && |v| > 0
    ensures |out| as real == s.dr as real * s.dc as real && |v| as real == s.sr as real * s.sc as real
  {
  }
}
