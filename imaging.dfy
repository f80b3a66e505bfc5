/** Decoded pictures and the numeric arrays built from them. Decoding and
    resampling belong to the imaging library and stay abstract: they are the
    two functions of a `Pil` value. What is modelled is the layout numpy gives
    a picture (rows of columns of RGB channels), the scaling by 255 and the
    batch dimension. */
module Imaging {
  import opened Wrappers

  newtype byte = x: int | 0 <= x < 256

  /** One RGB pixel after `convert("RGB")`: always three 8-bit channels. */
  datatype Pixel = Pixel(r: byte, g: byte, b: byte)

  /** A picture in the layout `np.array(img)` gives it: a sequence of rows, top
      to bottom, each a sequence of pixels, left to right. */
  datatype Picture = Picture(rows: seq<seq<Pixel>>)

  /** The imaging library's opaque parts.
      `decode(bytes)` is `Image.open(BytesIO(bytes)).convert("RGB")`, failing on
      malformed bytes; `resample(src, width, height, x, y)` is the colour the
      resampling filter gives column `x` of row `y` when `src` is resized to
      `width` columns and `height` rows. */
  datatype Pil = Pil(
    decode: seq<byte> -> Result<Picture>,
    resample: (Picture, nat, nat, nat, nat) -> Pixel)

  predicate HasSize(p: Picture, height: nat, width: nat) {
    |p.rows| == height && forall y :: 0 <= y < height ==> |p.rows[y]| == width
  }

  /** `img.resize(size)`: PIL reads `size` as (width, height). */
  function Resize(pil: Pil, src: Picture, size: (nat, nat)): (out: Picture)
    ensures HasSize(out, size.1, size.0)
  {
    var (width, height) := size;
    Picture(seq(height, (y: nat) => seq(width, (x: nat) => pil.resample(src, width, height, x, y))))
  }

  type Array3 = seq<seq<seq<real>>>

  type Array4 = seq<Array3>

  predicate HasShape3(a: Array3, h: nat, w: nat, c: nat) {
    && |a| == h
    && (forall y :: 0 <= y < h ==> |a[y]| == w)
    && (forall y, x :: 0 <= y < h && 0 <= x < w ==> |a[y][x]| == c)
  }

  /** Shape `[n, h, w, c]`. */
  predicate HasShape4(t: Array4, n: nat, h: nat, w: nat, c: nat) {
    |t| == n && forall i :: 0 <= i < n ==> HasShape3(t[i], h, w, c)
  }

  function Channels(px: Pixel): seq<real> {
    [px.r as real, px.g as real, px.b as real]
  }

  /** `np.array(img)` converted to floating point: an h x w x 3 array of the
      channel values. */
  function PixelArray(p: Picture): (a: Array3)
    ensures forall h: nat, w: nat :: HasSize(p, h, w) ==> HasShape3(a, h, w, 3)
  {
    seq(|p.rows|, y requires 0 <= y < |p.rows| =>
      seq(|p.rows[y]|, x requires 0 <= x < |p.rows[y]| => Channels(p.rows[y][x])))
  }

  /** Element-wise division by 255. */
  function Scale3(a: Array3): (r: Array3)
    ensures |r| == |a| && forall y :: 0 <= y < |a| ==> |r[y]| == |a[y]|
    ensures forall y, x :: 0 <= y < |a| && 0 <= x < |a[y]| ==> |r[y][x]| == |a[y][x]|
    ensures forall y, x, k :: 0 <= y < |a| && 0 <= x < |a[y]| && 0 <= k < |a[y][x]| ==>
      r[y][x][k] == a[y][x][k] / 255.0
  {
    seq(|a|, y requires 0 <= y < |a| =>
      seq(|a[y]|, x requires 0 <= x < |a[y]| =>
        seq(|a[y][x]|, k requires 0 <= k < |a[y][x]| => a[y][x][k] / 255.0)))
  }

  function Scale4(t: Array4): (r: Array4)
    ensures |r| == |t| && forall i :: 0 <= i < |t| ==> r[i] == Scale3(t[i])
  {
    seq(|t|, i requires 0 <= i < |t| => Scale3(t[i]))
  }

  /** `np.expand_dims(a, 0)`. */
  function Batch(a: Array3): (t: Array4)
    ensures |t| == 1 && t[0] == a
  {
    [a]
  }

  /** Dividing before or after adding the batch dimension gives the same array. */
  lemma ScaleCommutesWithBatch(a: Array3)
    ensures Scale4(Batch(a)) == Batch(Scale3(a))
  {
  }

  /** A scaled picture keeps the picture's shape, every entry is its channel
      value over 255 and so lies in [0, 1]. */
  lemma ScaledPicture(p: Picture, h: nat, w: nat)
    requires HasSize(p, h, w)
    ensures HasShape3(Scale3(PixelArray(p)), h, w, 3)
    ensures forall y, x, k :: 0 <= y < h && 0 <= x < w && 0 <= k < 3 ==>
      Scale3(PixelArray(p))[y][x][k] == Channels(p.rows[y][x])[k] / 255.0
    ensures forall y, x, k :: 0 <= y < h && 0 <= x < w && 0 <= k < 3 ==>
      0.0 <= Scale3(PixelArray(p))[y][x][k] <= 1.0
  {
  }
}
