/** The bytes of images: where every sample of a conversion, a scaling or a test pattern comes
    from, in plain arithmetic. */
module Layouts {
  import opened Bytes
  import opened Colour
  import opened Images
  import opened Scaling
  import opened Pattern
  import ImageLoops

  /** A byte as a number, or -1 outside. */
  function At(data: seq<byte>, i: int): int {
    if 0 <= i < |data| then data[i] as int else -1
  }

  /** BT.601, limited range, with coefficients in 256ths. */
  function BtY(r: int, g: int, b: int): int {
    (66 * r + 129 * g + 25 * b + 128) / 256 + 16
  }

  function BtCb(r: int, g: int, b: int): int {
    (-38 * r - 74 * g + 112 * b + 128) / 256 + 128
  }

  function BtCr(r: int, g: int, b: int): int {
    (112 * r - 94 * g - 18 * b + 128) / 256 + 128
  }

  function Clipped(v: int): int {
    if v < 0 then 0 else if v > 255 then 255 else v
  }

  function BtRed(c: int, e: int): int {
    Clipped((298 * c + 409 * e + 128) / 256)
  }

  function BtGreen(c: int, d: int, e: int): int {
    Clipped((298 * c - 100 * d - 208 * e + 128) / 256)
  }

  function BtBlue(c: int, d: int): int {
    Clipped((298 * c + 516 * d + 128) / 256)
  }

  // ---------------------------------------------------------------- conversions

  lemma ThreeFormats()
    ensures Supported(Nv12) && Supported(Yuyv) && Supported(Rgb888)
  {
  }

  lemma SameFormatIsSame(img: Image)
    requires WellFormed(img)
    ensures Convert(img, img.format) == img
  {
  }

  /** The luma of a YUYV image is every second byte of its rows. */
  lemma Nv12LumaOfYuyv(img: Image, x: nat, y: nat)
    requires WellFormed(img) && img.format == Yuyv && x < img.width && y < img.height
    ensures At(Convert(img, Nv12).data, y * img.width + x) == At(img.data, y * ((img.width + 1) / 2 * 4) + 2 * x) >= 0
  {
    hide *;
    ThreeFormats();
    LumaIs(img, x, y);
    YuyvLumaAt(img, x, y);
    LumaAt(Convert(img, Nv12), x, y);
  }

  lemma LumaIs(img: Image, x: nat, y: nat)
    requires WellFormed(img) && x < img.width && y < img.height
    ensures Y(Convert(img, Nv12), x, y) == Y(img, x, y)
  {
    ToNv12Keeps(img);
    ConvertIsToNv12(img);
    hide Y, C, ToNv12, Convert;
  }

  lemma ChromaIs(img: Image, cx: nat, cy: nat, k: nat)
    requires WellFormed(img) && cx < (img.width + 1) / 2 && cy < (img.height + 1) / 2 && k < 2
    ensures C(Convert(img, Nv12), cx, cy, k) == C(img, cx, cy, k)
  {
    ToNv12Keeps(img);
    ConvertIsToNv12(img);
    hide Y, C, ToNv12, Convert;
  }

  /** Its chroma is taken from the even rows. */
  lemma Nv12ChromaOfYuyv(img: Image, cx: nat, cy: nat, k: nat)
    requires WellFormed(img) && img.format == Yuyv
    requires cx < (img.width + 1) / 2 && cy < (img.height + 1) / 2 && k < 2
    ensures var cw := (img.width + 1) / 2;
            At(Convert(img, Nv12).data, img.width * img.height + (cy * cw + cx) * 2 + k)
            == At(img.data, 2 * cy * (cw * 4) + (4 * cx + 1 + 2 * k)) >= 0
  {
    hide *;
    ThreeFormats();
    ChromaIs(img, cx, cy, k);
    YuyvChromaAt(img, cx, cy, k);
    ChromaAt(Convert(img, Nv12), cx, cy, k);
  }

  /** Luma of an RGB pixel in the integer arithmetic of BT.601. */
  lemma Nv12LumaOfRgb(img: Image, x: nat, y: nat)
    requires WellFormed(img) && img.format == Rgb888 && x < img.width && y < img.height
    ensures var p := (y * img.width + x) * 3;
            var (r, g, b) := (At(img.data, p), At(img.data, p + 1), At(img.data, p + 2));
            && r >= 0 && g >= 0 && b >= 0
            && At(Convert(img, Nv12).data, y * img.width + x) == BtY(r, g, b)
  {
    hide *;
    ThreeFormats();
    RgbLuma(img, x, y);
    RgbBytesAt(img, x, y);
    LumaAt(Convert(img, Nv12), x, y);
  }

  lemma RgbLuma(img: Image, x: nat, y: nat)
    requires WellFormed(img) && img.format == Rgb888 && x < img.width && y < img.height
    ensures var t := RgbBytes(img, x, y); Y(Convert(img, Nv12), x, y) as int == BtY(t.a as int, t.b as int, t.c as int)
  {
    LumaIs(img, x, y);
    RgbSamples(img, x, y);
    YuvOf(RgbBytes(img, x, y));
    hide Y, C, Convert, RgbBytes, RgbToYuv, BtY, BtCb, BtCr;
  }

  /** Chroma of a block of RGB pixels: that of its top left one. */
  lemma Nv12ChromaOfRgb(img: Image, cx: nat, cy: nat)
    requires WellFormed(img) && img.format == Rgb888 && cx < (img.width + 1) / 2 && cy < (img.height + 1) / 2
    ensures var p := (2 * cy * img.width + 2 * cx) * 3;
            var (r, g, b) := (At(img.data, p), At(img.data, p + 1), At(img.data, p + 2));
            var at := img.width * img.height + (cy * ((img.width + 1) / 2) + cx) * 2;
            && r >= 0 && g >= 0 && b >= 0
            && At(Convert(img, Nv12).data, at) == BtCb(r, g, b)
            && At(Convert(img, Nv12).data, at + 1) == BtCr(r, g, b)
  {
    hide *;
    ThreeFormats();
    RgbChroma(img, cx, cy);
    RgbBytesAt(img, 2 * cx, 2 * cy);
    ChromaAt(Convert(img, Nv12), cx, cy, 0);
    ChromaAt(Convert(img, Nv12), cx, cy, 1);
  }

  lemma RgbChroma(img: Image, cx: nat, cy: nat)
    requires WellFormed(img) && img.format == Rgb888 && cx < (img.width + 1) / 2 && cy < (img.height + 1) / 2
    ensures var t := RgbBytes(img, 2 * cx, 2 * cy);
            var r := Convert(img, Nv12);
            && C(r, cx, cy, 0) as int == BtCb(t.a as int, t.b as int, t.c as int)
            && C(r, cx, cy, 1) as int == BtCr(t.a as int, t.b as int, t.c as int)
  {
    ChromaIs(img, cx, cy, 0);
    ChromaIs(img, cx, cy, 1);
    YuvOf(RgbBytes(img, 2 * cx, 2 * cy));
    hide Y, Convert, RgbBytes, RgbToYuv, BtY, BtCb, BtCr;
  }

  /** Luma of a YUYV image made from NV12. */
  lemma YuyvLumaOfNv12(img: Image, x: nat, y: nat)
    requires WellFormed(img) && img.format == Nv12 && x < img.width && y < img.height
    ensures At(Convert(img, Yuyv).data, y * ((img.width + 1) / 2 * 4) + 2 * x) == At(img.data, y * img.width + x) >= 0
  {
    hide *;
    ThreeFormats();
    YuyvIsFromNv12(img);
    YuyvKeepsLuma(img, x, y);
    YuyvLumaAt(Convert(img, Yuyv), x, y);
    LumaAt(img, x, y);
  }

  /** Its chroma: both rows of a block have that of the block. */
  lemma YuyvChromaOfNv12(img: Image, cx: nat, y: nat, k: nat)
    requires WellFormed(img) && img.format == Nv12 && cx < (img.width + 1) / 2 && y < img.height && k < 2
    ensures var cw := (img.width + 1) / 2;
            At(Convert(img, Yuyv).data, y * (cw * 4) + (4 * cx + 1 + 2 * k))
            == At(img.data, img.width * img.height + (y / 2 * cw + cx) * 2 + k) >= 0
  {
    hide *;
    ThreeFormats();
    YuyvIsFromNv12(img);
    InRow(img, cx, k);
    YuyvByteIn(img, y, 4 * cx + 1 + 2 * k);
    YuyvChromaIn(img, cx, y, k);
    ChromaAt(img, cx, y / 2, k);
  }

  lemma ChromaColumn(cx: nat, k: nat)
    requires k < 2
    ensures var at := 4 * cx + 1 + 2 * k; at % 2 == 1 && at / 4 == cx && at % 4 / 2 == k
  {
    var (at, q) := (4 * cx + 1 + 2 * k, 2 * cx + k);
    assert at == 2 * q + 1 && q / 2 == cx && q % 2 == k;
    assert at / 2 == q && at / 4 == at / 2 / 2;
    assert at % 4 == at - 4 * (at / 4);
  }

  /** The colour conversions with their numbers, and pixels with their bytes. */
  lemma YuvOf(t: Triple)
    ensures var (r, g, b, yuv) := (t.a as int, t.b as int, t.c as int, RgbToYuv(t.a, t.b, t.c));
            && yuv.a as int == BtY(r, g, b)
            && yuv.b as int == BtCb(r, g, b)
            && yuv.c as int == BtCr(r, g, b)
  {
    ToYuvNeverClamps(t.a, t.b, t.c);
    hide RgbToYuv;
  }

  lemma RgbOf(yuv: Triple)
    ensures var (c, d, e, t) := (yuv.a as int - 16, yuv.b as int - 128, yuv.c as int - 128, YuvToRgb(yuv.a, yuv.b, yuv.c));
            && t.a as int == BtRed(c, e)
            && t.b as int == BtGreen(c, d, e)
            && t.c as int == BtBlue(c, d)
  {
  }

  lemma RgbBytesAt(img: Image, x: nat, y: nat)
    requires WellFormed(img) && img.format == Rgb888 && x < img.width && y < img.height
    ensures var (p, t) := ((y * img.width + x) * 3, RgbBytes(img, x, y));
            && At(img.data, p) == t.a as int && At(img.data, p + 1) == t.b as int && At(img.data, p + 2) == t.c as int
  {
    hide FrameSize;
    var p := RgbAt(x, y, img.width, img.height);
  }

  lemma YuyvIsFromNv12(img: Image)
    requires WellFormed(img) && img.format == Nv12
    ensures Convert(img, Yuyv) == FromNv12(img, Yuyv)
    ensures Convert(img, Yuyv).width == img.width && Convert(img, Yuyv).height == img.height
  {
    SameFormat(img);
    hide ToNv12, FromNv12, WellFormed;
  }

  lemma YuyvLumaAt(img: Image, x: nat, y: nat)
    requires WellFormed(img) && img.format == Yuyv && x < img.width && y < img.height
    ensures At(img.data, y * ((img.width + 1) / 2 * 4) + 2 * x) == Y(img, x, y) as int
  {
    var i := YuyvLuma(x, y, img.width, img.height);
    YuyvLumaIndex(x, y, img.width, img.height);
    assert Y(img, x, y) == img.data[i] && At(img.data, i) == img.data[i] as int;
    hide Y, At, YuyvLuma, FrameSize, WellFormed;
  }

  lemma YuyvLumaIndex(x: nat, y: nat, w: nat, h: nat)
    requires x < w && y < h
    ensures YuyvLuma(x, y, w, h) == y * ((w + 1) / 2 * 4) + 2 * x
  {
    hide FrameSize;
  }

  lemma YuyvChromaAt(img: Image, cx: nat, cy: nat, k: nat)
    requires WellFormed(img) && img.format == Yuyv && cx < (img.width + 1) / 2 && cy < (img.height + 1) / 2 && k < 2
    ensures At(img.data, 2 * cy * ((img.width + 1) / 2 * 4) + (4 * cx + 1 + 2 * k)) == C(img, cx, cy, k) as int
  {
    var i := YuyvChroma(cx, 2 * cy, k, img.width, img.height);
    YuyvChromaIndex(cx, 2 * cy, k, img.width, img.height);
    assert C(img, cx, cy, k) == img.data[i] && At(img.data, i) == img.data[i] as int;
    hide C, At, YuyvChroma, FrameSize, WellFormed;
  }

  lemma YuyvChromaIndex(cx: nat, y: nat, k: nat, w: nat, h: nat)
    requires cx < (w + 1) / 2 && y < h && k < 2
    ensures YuyvChroma(cx, y, k, w, h) == y * ((w + 1) / 2 * 4) + (4 * cx + 1 + 2 * k)
  {
    hide FrameSize;
  }

  /** A byte of a row of YUYV. */
  lemma YuyvByteIn(img: Image, y: nat, k: nat)
    requires WellFormed(img) && img.format == Nv12 && y < img.height && k < YuyvRow(img.width)
    ensures At(FromNv12(img, Yuyv).data, y * ((img.width + 1) / 2 * 4) + k) == YuyvByteAt(img, y, k) as int
  {
    ImageLoops.YuyvAt(img, y, k, y * YuyvRow(img.width));
    RowIs(img.width);
    hide FromNv12, YuyvByteAt, YuyvRow, FrameSize, WellFormed;
  }

  lemma RowIs(w: nat)
    ensures YuyvRow(w) == (w + 1) / 2 * 4
  {
  }

  lemma InRow(img: Image, cx: nat, k: nat)
    requires cx < (img.width + 1) / 2 && k < 2
    ensures 4 * cx + 1 + 2 * k < YuyvRow(img.width)
  {
  }

  lemma LastInRow(w: nat)
    requires w % 2 == 1
    ensures 2 * w < YuyvRow(w)
  {
  }

  lemma YuyvChromaIn(img: Image, cx: nat, y: nat, k: nat)
    requires WellFormed(img) && cx < (img.width + 1) / 2 && y < img.height && k < 2
    requires 4 * cx + 1 + 2 * k < YuyvRow(img.width)
    ensures YuyvByteAt(img, y, 4 * cx + 1 + 2 * k) == C(img, cx, y / 2, k)
  {
    ChromaColumn(cx, k);
    hide C, Y, YuyvRow, WellFormed;
  }

  lemma NoPartner(img: Image, y: nat)
    requires WellFormed(img) && y < img.height && 2 * img.width < YuyvRow(img.width)
    ensures YuyvByteAt(img, y, 2 * img.width) == 0
  {
    hide C, Y, YuyvRow, WellFormed;
  }

  lemma LumaAt(img: Image, x: nat, y: nat)
    requires WellFormed(img) && img.format == Nv12 && x < img.width && y < img.height
    ensures LumaByte(img, x, y) == At(img.data, y * img.width + x) == Y(img, x, y) as int
  {
    hide FrameSize;
    var i := Nv12Luma(x, y, img.width, img.height);
  }

  lemma ChromaAt(img: Image, cx: nat, cy: nat, k: nat)
    requires WellFormed(img) && img.format == Nv12 && cx < (img.width + 1) / 2 && cy < (img.height + 1) / 2 && k < 2
    ensures ChromaByte(img, cx, cy, k)
         == At(img.data, img.width * img.height + (cy * ((img.width + 1) / 2) + cx) * 2 + k) == C(img, cx, cy, k) as int
  {
    var i := Nv12Chroma(cx, cy, k, img.width, img.height);
    ChromaIndex(cx, cy, k, img.width, img.height);
    assert C(img, cx, cy, k) == img.data[i] && At(img.data, i) == img.data[i] as int;
    hide C, At, Nv12Chroma, FrameSize, WellFormed;
  }

  lemma ChromaIndex(cx: nat, cy: nat, k: nat, w: nat, h: nat)
    requires cx < (w + 1) / 2 && cy < (h + 1) / 2 && k < 2
    ensures Nv12Chroma(cx, cy, k, w, h) == w * h + (cy * ((w + 1) / 2) + cx) * 2 + k
  {
    hide FrameSize;
  }

  /** A pixel of an RGB image made from NV12, in the integer arithmetic of BT.601. */
  lemma RgbOfNv12(img: Image, x: nat, y: nat)
    requires WellFormed(img) && img.format == Nv12 && x < img.width && y < img.height
    ensures var (w, h) := (img.width, img.height);
            var p := (y * w + x) * 3;
            var at := w * h + (y / 2 * ((w + 1) / 2) + x / 2) * 2;
            var (c, d, e) := (At(img.data, y * w + x) - 16, At(img.data, at) - 128, At(img.data, at + 1) - 128);
            && c >= -16 && d >= -128 && e >= -128
            && At(Convert(img, Rgb888).data, p) == BtRed(c, e)
            && At(Convert(img, Rgb888).data, p + 1) == BtGreen(c, d, e)
            && At(Convert(img, Rgb888).data, p + 2) == BtBlue(c, d)
  {
    hide *;
    ThreeFormats();
    PixelOf(img, x, y);
    RgbBytesAt(Convert(img, Rgb888), x, y);
    LumaAt(img, x, y);
    ChromaAt(img, x / 2, y / 2, 0);
    ChromaAt(img, x / 2, y / 2, 1);
  }

  lemma PixelOf(img: Image, x: nat, y: nat)
    requires WellFormed(img) && img.format == Nv12 && x < img.width && y < img.height
    ensures var t := RgbBytes(Convert(img, Rgb888), x, y);
            var (c, d, e) := (Y(img, x, y) as int - 16, C(img, x / 2, y / 2, 0) as int - 128, C(img, x / 2, y / 2, 1) as int - 128);
            t.a as int == BtRed(c, e) && t.b as int == BtGreen(c, d, e) && t.c as int == BtBlue(c, d)
  {
    hide *;
    ThreeFormats();
    RgbIsFromNv12(img);
    RgbBytesOfPixel(img, x, y);
    PixelIs(img, x, y);
  }

  lemma RgbIsFromNv12(img: Image)
    requires WellFormed(img) && img.format == Nv12
    ensures Convert(img, Rgb888) == FromNv12(img, Rgb888)
  {
    SameFormat(img);
    hide ToNv12, FromNv12, WellFormed;
  }

  lemma PixelIs(img: Image, x: nat, y: nat)
    requires WellFormed(img) && x < img.width && y < img.height
    ensures var t := Pixel(img, x, y);
            var (c, d, e) := (Y(img, x, y) as int - 16, C(img, x / 2, y / 2, 0) as int - 128, C(img, x / 2, y / 2, 1) as int - 128);
            t.a as int == BtRed(c, e) && t.b as int == BtGreen(c, d, e) && t.c as int == BtBlue(c, d)
  {
    RgbOf(Triple(Y(img, x, y), C(img, x / 2, y / 2, 0), C(img, x / 2, y / 2, 1)));
    hide Y, C, YuvToRgb, BtRed, BtGreen, BtBlue, Clipped;
  }

  /** The last pixel of an odd row has no partner, whose byte is 0. */
  lemma YuyvPadding(img: Image, y: nat)
    requires WellFormed(img) && img.format == Nv12 && y < img.height && img.width % 2 == 1
    ensures At(Convert(img, Yuyv).data, y * ((img.width + 1) / 2 * 4) + 2 * img.width) == 0
  {
    hide *;
    ThreeFormats();
    YuyvIsFromNv12(img);
    LastInRow(img.width);
    YuyvByteIn(img, y, 2 * img.width);
    NoPartner(img, y);
  }

  // ---------------------------------------------------------------- scaling

  /** The luma of a pixel of an NV12 image. */
  function LumaByte(img: Image, x: int, y: int): int {
    At(img.data, y * img.width + x)
  }

  /** Byte `k` of the chroma of a block. */
  function ChromaByte(img: Image, cx: int, cy: int, k: int): int {
    At(img.data, img.width * img.height + (cy * ((img.width + 1) / 2) + cx) * 2 + k)
  }

  /** The nearest of `sn` positions to position `d` of `dn`, counted from the end if `rev`. */
  function Nearest(d: nat, dn: nat, sn: nat, rev: bool): int
    requires dn > 0
  {
    var s := d * sn / dn;
    if rev then sn - 1 - s else s
  }

  /** The pixel at `(x, y)` shows the nearest pixel of the source, in columns from the right
      if mirrored and in rows from below if flipped. Both images are NV12. */
  ghost predicate LumaShown(src: Image, r: Image, mirror: bool, flip: bool, x: nat, y: nat)
    requires x < r.width && y < r.height
  {
    LumaByte(r, x, y)
    == LumaByte(src, Nearest(x, r.width, src.width, mirror), Nearest(y, r.height, src.height, flip)) >= 0
  }

  /** The same for byte `k` of a chroma pair. */
  ghost predicate ChromaShown(src: Image, r: Image, mirror: bool, flip: bool, cx: nat, cy: nat, k: nat)
    requires cx < (r.width + 1) / 2 && cy < (r.height + 1) / 2
  {
    ChromaByte(r, cx, cy, k)
    == ChromaByte(src, Nearest(cx, (r.width + 1) / 2, (src.width + 1) / 2, mirror),
                  Nearest(cy, (r.height + 1) / 2, (src.height + 1) / 2, flip), k) >= 0
  }

  ghost predicate Shows(src: Image, r: Image, mirror: bool, flip: bool) {
    && (forall x: nat, y: nat :: x < r.width && y < r.height ==> LumaShown(src, r, mirror, flip, x, y))
    && (forall cx: nat, cy: nat, k: nat :: cx < (r.width + 1) / 2 && cy < (r.height + 1) / 2 && k < 2 ==>
          ChromaShown(src, r, mirror, flip, cx, cy, k))
  }

  lemma PickIs(d: nat, dn: nat, sn: nat, rev: bool)
    requires d < dn && sn > 0
    ensures 0 <= Nearest(d, dn, sn, rev) < sn && Pick(d, dn, sn, rev) == Nearest(d, dn, sn, rev)
  {
    PickNeverClamps(d, dn, sn);
  }

  lemma ScaledLumaShown(src: Image, w: nat, h: nat, mirror: bool, flip: bool, x: nat, y: nat)
    requires WellFormed(src) && src.format == Nv12 && src.width > 0 && src.height > 0 && x < w && y < h
    ensures LumaShown(src, ScaledNv12(src, w, h, mirror, flip), mirror, flip, x, y)
  {
    hide Y, LumaByte, Pick, Nearest, ScaledNv12, WellFormed;
    var r := ScaledNv12(src, w, h, mirror, flip);
    ScaledLuma(src, w, h, mirror, flip, x, y);
    PickIs(x, w, src.width, mirror);
    PickIs(y, h, src.height, flip);
    LumaAt(r, x, y);
    LumaAt(src, Nearest(x, w, src.width, mirror), Nearest(y, h, src.height, flip));
  }

  lemma ScaledChromaShown(src: Image, w: nat, h: nat, mirror: bool, flip: bool, cx: nat, cy: nat, k: nat)
    requires WellFormed(src) && src.format == Nv12 && src.width > 0 && src.height > 0
    requires cx < (w + 1) / 2 && cy < (h + 1) / 2 && k < 2
    ensures ChromaShown(src, ScaledNv12(src, w, h, mirror, flip), mirror, flip, cx, cy, k)
  {
    hide C, ChromaByte, Pick, Nearest, ScaledNv12, Half, WellFormed;
    var r := ScaledNv12(src, w, h, mirror, flip);
    var (sw, sh) := ((src.width + 1) / 2, (src.height + 1) / 2);
    ScaledChromaIs(src, w, h, mirror, flip, cx, cy, k);
    PickIs(cx, (w + 1) / 2, sw, mirror);
    PickIs(cy, (h + 1) / 2, sh, flip);
    ChromaAt(r, cx, cy, k);
    ChromaAt(src, Nearest(cx, (w + 1) / 2, sw, mirror), Nearest(cy, (h + 1) / 2, sh, flip), k);
  }

  lemma ScaledChromaIs(src: Image, w: nat, h: nat, mirror: bool, flip: bool, cx: nat, cy: nat, k: nat)
    requires WellFormed(src) && src.format == Nv12 && src.width > 0 && src.height > 0
    requires cx < (w + 1) / 2 && cy < (h + 1) / 2 && k < 2
    ensures C(ScaledNv12(src, w, h, mirror, flip), cx, cy, k)
         == C(src, Pick(cx, (w + 1) / 2, (src.width + 1) / 2, mirror), Pick(cy, (h + 1) / 2, (src.height + 1) / 2, flip), k)
  {
    hide C, Pick, ScaledNv12;
    ScaledChroma(src, w, h, mirror, flip, cx, cy, k);
  }

  /** Scaling, byte by byte. */
  lemma ScaleShows(src: Image, w: nat, h: nat, mirror: bool, flip: bool)
    requires WellFormed(src) && src.format == Nv12 && src.width > 0 && src.height > 0
    ensures Shows(src, Scale(src, w, h, mirror, flip), mirror, flip)
  {
    ScaleIsScaledNv12(src, w, h, mirror, flip);
    hide LumaShown, ChromaShown, ScaledNv12, Scale, WellFormed;
    forall x: nat, y: nat | x < w && y < h
      ensures LumaShown(src, ScaledNv12(src, w, h, mirror, flip), mirror, flip, x, y)
    {
      ScaledLumaShown(src, w, h, mirror, flip, x, y);
    }
    forall cx: nat, cy: nat, k: nat | cx < (w + 1) / 2 && cy < (h + 1) / 2 && k < 2
      ensures ChromaShown(src, ScaledNv12(src, w, h, mirror, flip), mirror, flip, cx, cy, k)
    {
      ScaledChromaShown(src, w, h, mirror, flip, cx, cy, k);
    }
  }

  // ---------------------------------------------------------------- the test pattern

  /** The pattern in NV12: the counter in its first four bytes, low byte first, over a gradient
      that moves with it by four pixels; chroma rises to the right and downwards. */
  lemma PatternShows(w: nat, h: nat, counter: nat, pts: nat, x: nat, y: nat)
    requires x < w && y < h
    ensures var (i, b) := (y * w + x, At(PatternNv12(w, h, counter, pts).data, y * w + x));
            if i == 0 then b == counter % 256
            else if i == 1 then b == counter / 256 % 256
            else if i == 2 then b == counter / 65536 % 256
            else if i == 3 then b == counter / 16777216 % 256
            else b == 16 + (x + y + counter * 4) * 219 / (w + h) % 220
  {
    var i := Nv12Luma(x, y, w, h);
    GridOfCell(x, y, w, h);
    LeBytesAre(counter);
    hide GridOf, FrameSize, LeByte;
    assert PatternNv12(w, h, counter, pts).data[i] == PatternByte(w, h, counter, i);
  }

  lemma LeBytesAre(v: nat)
    ensures LeByte(v, 0) as int == v % 256 && LeByte(v, 1) as int == v / 256 % 256
    ensures LeByte(v, 2) as int == v / 65536 % 256 && LeByte(v, 3) as int == v / 16777216 % 256
  {
    assert v / 256 / 256 == v / 65536 && v / 65536 / 256 == v / 16777216;
    assert LeByte(v, 1) == LeByte(v / 256, 0);
    assert LeByte(v, 2) == LeByte(v / 256, 1) == LeByte(v / 65536, 0);
    assert LeByte(v, 3) == LeByte(v / 256, 2);
    assert LeByte(v / 256, 2) == LeByte(v / 65536, 1) == LeByte(v / 16777216, 0);
  }

  lemma PatternChromaShows(w: nat, h: nat, counter: nat, pts: nat, cx: nat, cy: nat)
    requires cx < (w + 1) / 2 && cy < (h + 1) / 2
    ensures var at := w * h + (cy * ((w + 1) / 2) + cx) * 2;
            var data := PatternNv12(w, h, counter, pts).data;
            At(data, at) == 64 + cx * 128 / ((w + 1) / 2) && At(data, at + 1) == 64 + cy * 128 / ((h + 1) / 2)
  {
    var i, j := Nv12Chroma(cx, cy, 0, w, h), Nv12Chroma(cx, cy, 1, w, h);
    BlockOfChroma(cx, cy, 0, w, h);
    BlockOfChroma(cx, cy, 1, w, h);
    hide BlockOf, FrameSize;
    var img := PatternNv12(w, h, counter, pts);
    assert img.data[i] == PatternByte(w, h, counter, i) && img.data[j] == PatternByte(w, h, counter, j);
  }
}
