/**
 * The pure rendering decisions the samples make once the images are in
 * hand: colour tables, the colour of a body-index label and of a skeleton,
 * how a joint marker is drawn, and the 8-bit display maps of depth and
 * infrared images.
 */
module Render {

  /** An unsigned 8-bit channel value. */
  newtype byte = b: int | 0 <= b < 256

  /** `cv::Vec3b`: one pixel in OpenCV's blue, green, red order. */
  datatype Vec3b = Vec3b(b: byte, g: byte, r: byte)

  /** A WPF `Color`: blue, green, red and alpha. */
  datatype Bgra = Bgra(b: byte, g: byte, r: byte, a: byte)

  const Black: Vec3b := Vec3b(0, 0, 0)

  /** `K4ABT_BODY_INDEX_MAP_BACKGROUND`: the label of a pixel no body covers. */
  const Background: byte := 255

  /** The colour table filled by `initialize_body_tracking` of the C and C++ samples. */
  const Colors: seq<Vec3b> := [
    Vec3b(255, 0, 0), Vec3b(0, 255, 0), Vec3b(0, 0, 255),
    Vec3b(255, 255, 0), Vec3b(0, 255, 255), Vec3b(255, 0, 255),
    Vec3b(128, 0, 0), Vec3b(0, 128, 0), Vec3b(0, 0, 128),
    Vec3b(128, 128, 0), Vec3b(0, 128, 128), Vec3b(128, 0, 128)]

  /** The colour table of the C# windows: six half-transparent colours. */
  const CsColors: seq<Bgra> := [
    Bgra(255, 0, 0, 128), Bgra(0, 255, 0, 128), Bgra(0, 0, 255, 128),
    Bgra(255, 255, 0, 128), Bgra(0, 255, 255, 128), Bgra(255, 0, 255, 128)]

  /** The twelve C/C++ colours are pairwise distinct and none of them is black. */
  lemma ColorsDistinct()
    ensures |Colors| == 12
    ensures forall j, k | 0 <= j < k < |Colors| :: Colors[j] != Colors[k]
    ensures Black !in Colors
  {
  }

  /** The six C# colours are pairwise distinct and all half transparent. */
  lemma CsColorsDistinct()
    ensures |CsColors| == 6
    ensures forall j, k | 0 <= j < k < |CsColors| :: CsColors[j] != CsColors[k]
    ensures forall k | 0 <= k < |CsColors| :: CsColors[k].a == 128
  {
  }

  /**
   * One pixel of `show_body_index_map` / `show_transformation`: the image
   * starts black and a body pixel takes the table entry of its index modulo
   * the table size.
   */
  function LabelPixel(index: byte): (p: Vec3b)
    ensures p == Black || p in Colors
  {
    if index == Background then Black else Colors[index as int % |Colors|]
  }

  /** A pixel stays black exactly when no body covers it; indices twelve apart share a colour. */
  lemma LabelPixelMeans(index: byte, other: byte)
    ensures LabelPixel(index) == Black <==> index == Background
    ensures index != Background && other != Background && index as int % 12 == other as int % 12 ==>
      LabelPixel(index) == LabelPixel(other)
    ensures index as int < 12 ==> LabelPixel(index) == Colors[index]
  {
    ColorsDistinct();
  }

  /**
   * The colourised body index map: one pixel per index, in order; each body
   * pixel takes the table entry of its index modulo twelve.
   */
  function Colorize(indices: seq<byte>): (img: seq<Vec3b>)
    ensures |img| == |indices|
    ensures forall k | 0 <= k < |img| :: (img[k] == Black <==> indices[k] == Background)
    ensures forall k | 0 <= k < |img| :: indices[k] != Background ==> img[k] == Colors[indices[k] as int % 12]
  {
    seq(|indices|, k requires 0 <= k < |indices| => LabelPixelOf(indices[k]))
  }

  /** `LabelPixel` together with its meaning, for use under a quantifier. */
  function LabelPixelOf(index: byte): (p: Vec3b)
    ensures p == LabelPixel(index)
    ensures p == Black <==> index == Background
    ensures index != Background ==> p == Colors[index as int % 12]
  {
    LabelPixelMeans(index, index);
    LabelPixel(index)
  }

  /** Unsigned 32-bit wrap-around, as `uint32_t` arithmetic does it. */
  function Wrap32(x: int): (w: int)
    ensures 0 <= w < 0x1_0000_0000
    ensures 0 <= x < 0x1_0000_0000 ==> w == x
  {
    x % 0x1_0000_0000
  }

  /** A `uint32_t` value. */
  newtype uint32 = x: int | 0 <= x < 0x1_0000_0000

  /**
   * The table slot of a skeleton in the C and C++ samples: `(id - 1) % 12`,
   * where `id - 1` is computed in `uint32_t`.
   */
  function SkeletonSlot(id: uint32): (s: nat)
    ensures s < |Colors|
  {
    Wrap32(id as int - 1) % |Colors|
  }

  /**
   * Body id 1 gets the first colour, ids twelve apart share a colour, and
   * id 0, whose `id - 1` wraps to 4294967295, still lands inside the table,
   * on the fourth colour.
   */
  lemma SkeletonSlotMeans(id: uint32)
    ensures id >= 1 ==> SkeletonSlot(id) == (id as int - 1) % 12
    ensures SkeletonSlot(0) == 3
    ensures 1 <= id && id as int + 12 < 0x1_0000_0000 ==> SkeletonSlot(id + 12) == SkeletonSlot(id)
  {
  }

  /** Ids 1 to 12 get twelve different colours. */
  lemma SkeletonSlotsDistinct(id1: uint32, id2: uint32)
    requires 1 <= id1 <= 12 && 1 <= id2 <= 12 && id1 != id2
    ensures Colors[SkeletonSlot(id1)] != Colors[SkeletonSlot(id2)]
  {
    ColorsDistinct();
  }

  /** The table slot of a skeleton in the C# window: `id % 6`, with no offset. */
  function CsSkeletonSlot(id: uint32): (s: nat)
    ensures s < |CsColors|
  {
    id as int % |CsColors|
  }

  /** The C# slot is the C/C++ slot shifted by one, modulo the smaller table. */
  lemma CsSlotShifted(id: uint32)
    requires id >= 1
    ensures CsSkeletonSlot(id) == (SkeletonSlot(id) + 1) % 6
  {
    var s := (id as int - 1) % 12;
    assert (id as int - 1) == 12 * ((id as int - 1) / 12) + s;
  }

  /** `k4abt_joint_confidence_level_t`, in increasing order. */
  datatype Confidence = NoConfidence | Low | Medium | High

  function Rank(c: Confidence): nat {
    match c
    case NoConfidence => 0
    case Low => 1
    case Medium => 2
    case High => 3
  }

  /** `cv::circle` thickness of a joint marker: filled (-1) at medium confidence or better, otherwise a 1-pixel outline. */
  function Thickness(c: Confidence): (t: int)
    ensures t == -1 || t == 1
  {
    if Rank(c) >= Rank(Medium) then -1 else 1
  }

  lemma ThicknessMeans(c: Confidence)
    ensures Thickness(c) == -1 <==> c == Medium || c == High
    ensures Thickness(c) == 1 <==> c == NoConfidence || c == Low
  {
  }

  /** The fill of a C# joint ellipse: the body's colour at medium confidence or better, otherwise transparent (`None`). */
  function CsFill(c: Confidence, id: uint32): (f: Option<Bgra>)
    ensures f.Some? ==> f.value == CsColors[CsSkeletonSlot(id)]
  {
    if Rank(c) >= Rank(Medium) then Some(CsColors[CsSkeletonSlot(id)]) else None
  }

  datatype Option<T> = None | Some(value: T)

  /** The C# ellipse is filled exactly when the C/C++ marker is. */
  lemma FillAgrees(c: Confidence, id: uint32)
    ensures CsFill(c, id).Some? <==> Thickness(c) == -1
  {
  }

  /**
   * How `convertTo` rounds a scaled value: the model keeps the direction
   * open, and the facts below hold for every choice.
   */
  datatype Rounding = Down | Up | HalfUp

  /** `num / den` rounded as `mode` says. */
  function Rounded(num: int, den: int, mode: Rounding): int
    requires den > 0
  {
    match mode
    case Down => num / den
    case Up => (num + den - 1) / den
    case HalfUp => (2 * num + den) / (2 * den)
  }

  lemma RoundedMonotone(a: int, b: int, den: int, mode: Rounding)
    requires den > 0 && a <= b
    ensures Rounded(a, den, mode) <= Rounded(b, den, mode)
  {
    match mode
    case Down => DivMonotone(a, b, den);
    case Up => DivMonotone(a + den - 1, b + den - 1, den);
    case HalfUp => DivMonotone(2 * a + den, 2 * b + den, 2 * den);
  }

  lemma DivMonotone(a: int, b: int, d: int)
    requires d > 0 && a <= b
    ensures a / d <= b / d
  {
    var qa, qb := a / d, b / d;
    assert d * qa <= a;
    assert b < d * (qb + 1);
    assert d * qa < d * (qb + 1);
  }

  /** `saturate_cast<uchar>`: the value clamped to [0, 255]. */
  function Saturate(x: int): (v: byte)
    ensures x <= 0 ==> v == 0
    ensures x >= 255 ==> v == 255
    ensures 0 <= x <= 255 ==> v as int == x
  {
    if x <= 0 then 0 else if x >= 255 then 255 else x as byte
  }

  lemma SaturateMonotone(x: int, y: int)
    requires x <= y
    ensures Saturate(x) <= Saturate(y)
  {
  }

  /** `depth.convertTo(depth, CV_8U, -255.0 / 5000.0, 255.0)` on one depth value in millimetres. */
  function DepthShade(d: nat, mode: Rounding): byte {
    Saturate(255 - Rounded(255 * d, 5000, mode))
  }

  /** Near is bright: white at 0 mm, black from 5 m on, never brighter further away. */
  lemma DepthShadeMeans(d: nat, d2: nat, mode: Rounding)
    ensures DepthShade(0, mode) == 255
    ensures d >= 5000 ==> DepthShade(d, mode) == 0
    ensures d <= d2 ==> DepthShade(d2, mode) <= DepthShade(d, mode)
  {
    if d >= 5000 {
      RoundedMonotone(255 * 5000, 255 * d, 5000, mode);
    }
    if d <= d2 {
      RoundedMonotone(255 * d, 255 * d2, 5000, mode);
      SaturateMonotone(255 - Rounded(255 * d2, 5000, mode), 255 - Rounded(255 * d, 5000, mode));
    }
  }

  /** `infrared.convertTo(infrared, CV_8U, 0.5)` on one raw infrared value. */
  function InfraredShade(raw: nat, mode: Rounding): byte {
    Saturate(Rounded(raw, 2, mode))
  }

  /** Black at 0, saturated white from 510 on, never darker for a brighter input. */
  lemma InfraredShadeMeans(raw: nat, raw2: nat, mode: Rounding)
    ensures InfraredShade(0, mode) == 0
    ensures raw >= 510 ==> InfraredShade(raw, mode) == 255
    ensures raw <= raw2 ==> InfraredShade(raw, mode) <= InfraredShade(raw2, mode)
  {
    if raw >= 510 {
      RoundedMonotone(510, raw, 2, mode);
    }
    if raw <= raw2 {
      RoundedMonotone(raw, raw2, 2, mode);
      SaturateMonotone(Rounded(raw, 2, mode), Rounded(raw2, 2, mode));
    }
  }

  /** Channels of the overlay `show_transformation` colourises: a `CV_8UC3` Mat of `Vec3b` pixels. */
  const OverlayChannels: nat := 3

  /** Channels of the colour Mat: the sensor is configured for `K4A_IMAGE_FORMAT_COLOR_BGRA32`. */
  const ColorChannels: nat := 4

  /**
   * The colour Mat that `show_transformation` of `sample/cpp/index_map`
   * blends under the overlay: none when the Mat is empty, otherwise the Mat
   * with a fourth channel dropped. The result is the channel count blended.
   */
  function BlendChannels(colorEmpty: bool, channels: nat): (c: Option<nat>)
    ensures c.Some? <==> !colorEmpty
  {
    if colorEmpty then None else if channels == 4 then Some(3) else Some(channels)
  }

  /**
   * `addWeighted` needs its two operands to have the same channel count.
   * The BGRA colour Mat the sample configures is blended with exactly the
   * overlay's three channels, and so is a Mat that already has three; any
   * other channel count would reach `addWeighted` mismatched.
   */
  lemma BlendAgrees(channels: nat)
    ensures BlendChannels(false, ColorChannels) == Some(OverlayChannels)
    ensures BlendChannels(false, channels) == Some(OverlayChannels) <==> channels == 3 || channels == 4
    ensures BlendChannels(true, channels).None?
  {
  }
}
