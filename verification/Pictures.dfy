/** Frames as pictures: a packed buffer painted from a picture gives back, pixel by pixel, that
    picture's luma weighted by its alpha, whatever the stride and whatever pads the rows. */
module Pictures {
  import opened LumaGrids
  import opened Sums

  datatype Rgba = Rgba(r: Byte, g: Byte, b: Byte, a: Byte)

  type Picture = (nat, nat) -> Rgba

  /** Byte `c` of a packed pixel: red, green, blue, alpha. */
  function Channel(p: Rgba, c: nat): Byte {
    if c == 0 then p.r else if c == 1 then p.g else if c == 2 then p.b else p.a
  }

  /** Row after row of `stride` bytes: the row's pixels, four bytes each, then padding. */
  function Painted(width: U32, height: U32, stride: nat, pic: Picture, pad: nat -> Byte): Frame
    requires stride > 0
  {
    Frame(seq(stride * height, (k: nat) => ByteOf(width, stride, pic, pad, k)), width, height, stride)
  }

  function ByteOf(width: U32, stride: nat, pic: Picture, pad: nat -> Byte, k: nat): Byte
    requires stride > 0
  {
    if k % stride < 4 * width then Channel(pic(k % stride / 4, k / stride), k % stride % 4) else pad(k)
  }

  lemma RowAndColumn(y: nat, stride: nat, col: nat)
    requires col < stride
    ensures (y * stride + col) / stride == y && (y * stride + col) % stride == col
  {
    var k := y * stride + col;
    DivExact(k, stride, y);
    assert k == (k / stride) * stride + k % stride;
  }

  lemma ByteInRow(width: U32, height: U32, stride: nat, pic: Picture, pad: nat -> Byte, x: nat, y: nat, c: nat)
    requires 4 * width <= stride && x < width && y < height && c < 4
    ensures ByteAt(Painted(width, height, stride, pic, pad), y * stride + x * 4 + c) == Channel(pic(x, y), c)
  {
    var col := x * 4 + c;
    RowAndColumn(y, stride, col);
    assert (y + 1) * stride <= height * stride;
  }

  /** A painted pixel reads back as the luma of its colour weighted by its alpha. */
  lemma PaintedPixel(width: U32, height: U32, stride: nat, pic: Picture, pad: nat -> Byte, luma: Luma, x: nat, y: nat)
    requires 4 * width <= stride && x < width && y < height
    ensures var p := pic(x, y);
            Pixel(Painted(width, height, stride, pic, pad), luma, x, y) == luma(p.r, p.g, p.b) * (p.a as real / 255.0)
  {
    hide Painted, ByteAt;
    FrameOf(width, height, stride, pic, pad);
    ByteInRow(width, height, stride, pic, pad, x, y, 0);
    ByteInRow(width, height, stride, pic, pad, x, y, 1);
    ByteInRow(width, height, stride, pic, pad, x, y, 2);
    ByteInRow(width, height, stride, pic, pad, x, y, 3);
  }

  lemma FrameOf(width: U32, height: U32, stride: nat, pic: Picture, pad: nat -> Byte)
    requires stride > 0
    ensures var f := Painted(width, height, stride, pic, pad);
            f.width == width && f.height == height && f.stride == stride && |f.rgba| == stride * height
  {
  }

  // ── The grid of a picture ───────────────────────────────────────────────

  /** Luma of the picture's pixels that fall into `cell`, before (x, y) in raster order. */
  function PictureLuma(width: U32, height: U32, pic: Picture, luma: Luma, y: nat, x: nat, cell: nat): real
    requires width > 0 && height > 0
    decreases y, x
  {
    if x > 0 then
      var p := pic(x - 1, y);
      PictureLuma(width, height, pic, luma, y, x - 1, cell) +
      if y * 9 / height * 16 + (x - 1) * 16 / width == cell then luma(p.r, p.g, p.b) * (p.a as real / 255.0) else 0.0
    else if y > 0 then PictureLuma(width, height, pic, luma, y - 1, width, cell)
    else 0.0
  }

  /** What a cell adds up depends on the picture alone: not on the stride, nor on the padding. */
  lemma {:induction false} GridSeesThePicture(width: U32, height: U32, stride: nat, pic: Picture, pad: nat -> Byte,
                                              luma: Luma, y: nat, x: nat, cell: nat)
    requires 0 < 4 * width <= stride && height > 0 && x <= width && (y < height || (y == height && x == 0))
    ensures var f := Painted(width, height, stride, pic, pad);
            f.width == width && f.height == height
    ensures SumBefore(Painted(width, height, stride, pic, pad), luma, y, x, cell) ==
            PictureLuma(width, height, pic, luma, y, x, cell)
    decreases y, x
  {
    hide Painted, Pixel;
    FrameOf(width, height, stride, pic, pad);
    if x > 0 {
      GridSeesThePicture(width, height, stride, pic, pad, luma, y, x - 1, cell);
      PaintedPixel(width, height, stride, pic, pad, luma, x - 1, y);
    } else if y > 0 {
      GridSeesThePicture(width, height, stride, pic, pad, luma, y - 1, width, cell);
    }
  }

  /** The reduced grid of a painted frame averages the picture, cell by cell. */
  lemma ReducedPicture(width: U32, height: U32, stride: nat, pic: Picture, pad: nat -> Byte, luma: Luma, r: Reduction,
                       cell: nat)
    requires 4 * width <= stride && stride * height <= USIZE_MAX && width >= 16 && height >= 9 && cell < 144
    requires Reduces(Painted(width, height, stride, pic, pad), luma, 9, 16, r)
    ensures r.Grid? && |r.cells| == 144
    ensures var f := Painted(width, height, stride, pic, pad);
            && f.width > 0 && f.height > 0
            && r.cells[cell] * PixelsIn(f, cell) as real == PictureLuma(width, height, pic, luma, height, 0, cell)
  {
    hide Painted, SumBefore, CountBefore;
    FrameOf(width, height, stride, pic, pad);
    GridSeesThePicture(width, height, stride, pic, pad, luma, height, 0, cell);
  }
}
