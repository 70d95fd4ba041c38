/**
 * Image buffers the samples allocate themselves: the outputs of the C
 * transformation calls, the WPF bitmaps of the C# body index window, and
 * the per-pixel loop that colourises a body index map into a BGRA buffer.
 */
module Layout {
  import opened Render

  /** The `k4a_image_format_t` values the samples allocate. */
  datatype Format = ColorBgra32 | Depth16 | Custom8

  /** Bytes per pixel of each format: four 8-bit channels, one 16-bit value, one 8-bit value. */
  function BytesPerPixel(f: Format): nat {
    match f
    case ColorBgra32 => 4
    case Depth16 => 2
    case Custom8 => 1
  }

  /** What `k4a_image_create` is given: format, width, height and row stride in bytes. */
  datatype Desc = Desc(format: Format, width: int, height: int, stride: int)

  /** Rows exactly wide enough for the pixels of the format, with no padding. */
  predicate Packed(d: Desc) {
    d.stride == d.width * BytesPerPixel(d.format)
  }

  /** Bytes of the buffer behind a descriptor. */
  function Size(d: Desc): int {
    d.stride * d.height
  }

  /**
   * `update_transformation` of `sample/c/transformation`: a colour image
   * re-projected into the depth camera (BGRA, depth size) and a depth image
   * re-projected into the colour camera (16-bit, colour size).
   */
  function TransformationOutputs(depthWidth: int, depthHeight: int, colorWidth: int, colorHeight: int): (r: (Desc, Desc))
    ensures r.0.format == ColorBgra32 && r.0.width == depthWidth && r.0.height == depthHeight
    ensures r.1.format == Depth16 && r.1.width == colorWidth && r.1.height == colorHeight
  {
    (Desc(ColorBgra32, depthWidth, depthHeight, depthWidth * 4), Desc(Depth16, colorWidth, colorHeight, colorWidth * 2))
  }

  /**
   * `update_transformation` of `sample/c/index_map`: a 16-bit depth image
   * and an 8-bit label image, both at the colour camera's size.
   */
  function IndexMapOutputs(colorWidth: int, colorHeight: int): (r: (Desc, Desc))
    ensures r.0.format == Depth16 && r.1.format == Custom8
    ensures r.0.width == r.1.width == colorWidth && r.0.height == r.1.height == colorHeight
  {
    (Desc(Depth16, colorWidth, colorHeight, colorWidth * 2), Desc(Custom8, colorWidth, colorHeight, colorWidth))
  }

  /** Every buffer the C samples allocate is packed, so it holds exactly width x height pixels. */
  lemma OutputsPacked(dw: int, dh: int, cw: int, ch: int)
    ensures Packed(TransformationOutputs(dw, dh, cw, ch).0) && Packed(TransformationOutputs(dw, dh, cw, ch).1)
    ensures Packed(IndexMapOutputs(cw, ch).0) && Packed(IndexMapOutputs(cw, ch).1)
    ensures Size(IndexMapOutputs(cw, ch).0) == 2 * Size(IndexMapOutputs(cw, ch).1)
  {
  }

  /**
   * The C# body index window: both bitmaps are BGRA at the colour size, with
   * stride width x 4, and the colourised buffer has four bytes per pixel.
   */
  function CsBuffers(colorWidth: nat, colorHeight: nat): (r: (Desc, Desc, nat))
    ensures r.0 == r.1
    ensures r.0.format == ColorBgra32 && r.0.width == colorWidth && r.0.height == colorHeight
  {
    var bitmap := Desc(ColorBgra32, colorWidth, colorHeight, colorWidth * 4);
    (bitmap, bitmap, colorWidth * colorHeight * 4)
  }

  /** The colourised buffer is exactly the bitmap's bytes, and a map of one label per pixel fits in it. */
  lemma CsBufferFits(w: nat, h: nat, mapLength: nat)
    requires mapLength <= w * h
    ensures Packed(CsBuffers(w, h).0)
    ensures CsBuffers(w, h).2 == Size(CsBuffers(w, h).0)
    ensures 4 * mapLength <= CsBuffers(w, h).2
  {
  }

  /** The four bytes B, G, R, A the C# window writes for a label: opaque black for background, otherwise the table colour. */
  function PixelBytes(index: byte): (px: seq<byte>)
    ensures |px| == 4
  {
    if index != Background then
      var c := CsColors[index as int % |CsColors|];
      [c.b, c.g, c.r, c.a]
    else [0, 0, 0, 255]
  }

  /** Reference definition: the buffer after every label of `labels` has been painted. */
  function Painted(labels: seq<byte>, buffer: seq<byte>): seq<byte>
    requires 4 * |labels| <= |buffer|
  {
    seq(|buffer|, j requires 0 <= j < |buffer| => if j < 4 * |labels| then PixelBytes(labels[j / 4])[j % 4] else buffer[j])
  }

  /** A body pixel is its table colour at half transparency; a background pixel is opaque black. */
  lemma PixelBytesMeans(index: byte)
    ensures index == Background ==> PixelBytes(index) == [0, 0, 0, 255]
    ensures index != Background ==> PixelBytes(index)[3] == 128
    ensures index != Background ==> PixelBytes(index)[..3] == [CsColors[index as int % 6].b, CsColors[index as int % 6].g, CsColors[index as int % 6].r]
  {
    CsColorsDistinct();
  }

  /** Byte `k` of pixel `i` sits at `4 * i + k`. */
  lemma ByteOfPixel(i: nat, k: nat)
    requires k < 4
    ensures (4 * i + k) / 4 == i && (4 * i + k) % 4 == k
  {
  }

  /** Pixel `i` of the painted buffer is the four bytes of its label, and the bytes past the map are untouched. */
  lemma PaintedPixel(labels: seq<byte>, buffer: seq<byte>, i: nat)
    requires 4 * |labels| <= |buffer| && i < |labels|
    ensures Painted(labels, buffer)[4 * i..4 * i + 4] == PixelBytes(labels[i])
    ensures Painted(labels, buffer)[4 * |labels|..] == buffer[4 * |labels|..]
  {
    var p := Painted(labels, buffer);
    forall k | 0 <= k < 4
      ensures p[4 * i..4 * i + 4][k] == PixelBytes(labels[i])[k]
    {
      ByteOfPixel(i, k);
    }
  }

  /**
   * The `Parallel.For` body of `Window_Loaded`, run for every label in turn
   * (its iterations write disjoint bytes, so the order does not matter).
   */
  method Paint(labels: seq<byte>, buffer: seq<byte>) returns (out: seq<byte>)
    requires 4 * |labels| <= |buffer|
    ensures out == Painted(labels, buffer)
  {
    out := buffer;
    var i := 0;
    while i < |labels|
      invariant 0 <= i <= |labels|
      invariant |out| == |buffer|
      invariant forall j | 0 <= j < 4 * i :: out[j] == PixelBytes(labels[j / 4])[j % 4]
      invariant forall j | 4 * i <= j < |buffer| :: out[j] == buffer[j]
    {
      var px := PixelBytes(labels[i]);
      out := out[4 * i := px[0]][4 * i + 1 := px[1]][4 * i + 2 := px[2]][4 * i + 3 := px[3]];
      forall j | 4 * i <= j < 4 * i + 4
        ensures out[j] == PixelBytes(labels[j / 4])[j % 4]
      {
        ByteOfPixel(i, j - 4 * i);
      }
      i := i + 1;
    }
  }
}
