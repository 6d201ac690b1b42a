/** Packed images in the three pixel formats of the fake library, and the conversions
    between them. An image is specified by its samples: one luma value per pixel and one
    chroma pair per 2x2 block. */
module Images {
  import opened Bytes
  import opened Colour

  datatype PixelFormat = Nv12 | Yuyv | Rgb888 | Unsupported(code: int)

  /** `width` and `height` are `u32`, `pts` a `u64`. */
  datatype Image = Image(format: PixelFormat, width: nat, height: nat, data: seq<byte>, pts: nat)

  predicate Supported(format: PixelFormat) {
    !format.Unsupported?
  }

  /** `n.div_ceil(2)` */
  function Half(n: nat): nat {
    (n + 1) / 2
  }

  /** Size in bytes of a packed image. */
  function FrameSize(format: PixelFormat, w: nat, h: nat): nat
    requires Supported(format)
  {
    match format
    case Nv12 => w * h + Half(w) * Half(h) * 2
    case Yuyv => Half(w) * 2 * h * 2
    case Rgb888 => w * h * 3
  }

  ghost predicate WellFormed(img: Image) {
    Supported(img.format) && |img.data| == FrameSize(img.format, img.width, img.height)
  }

  // ---------------------------------------------------------------- rows and columns

  lemma MulMono(a: nat, b: nat, c: nat)
    requires a <= b
    ensures a * c <= b * c
  {
  }

  /** A cell of a grid `w` wide and `h` high, stored row by row. */
  lemma Cell(x: nat, y: nat, w: nat, h: nat)
    requires x < w && y < h
    ensures 0 <= y * w + x < w * h
    ensures (y * w + x) / w == y && (y * w + x) % w == x
  {
    MulMono(y + 1, h, w);
    DivMod(y * w + x, w, y, x);
  }

  lemma DivMod(i: int, w: int, q: int, r: int)
    requires w > 0 && 0 <= r < w && i == q * w + r && q >= 0
    ensures i / w == q && i % w == r
  {
    var d := i / w;
    assert i == d * w + i % w;
    if d > q {
      MulMono(q + 1, d, w);
    } else if d < q {
      MulMono(d + 1, q, w);
    }
  }

  lemma CellOf(i: nat, w: nat, h: nat)
    requires i < w * h
    ensures w > 0 && h > 0 && i / w < h && i % w < w
  {
    if i / w >= h { MulMono(h, i / w, w); }
  }

  /** Column and row of the `i`-th cell of a grid. */
  function GridOf(i: nat, w: nat, h: nat): (p: (nat, nat))
    requires i < w * h
    ensures p.0 < w && p.1 < h
  {
    CellOf(i, w, h);
    (i % w, i / w)
  }

  lemma GridOfCell(x: nat, y: nat, w: nat, h: nat)
    requires x < w && y < h
    ensures 0 <= y * w + x < w * h && GridOf(y * w + x, w, h) == (x, y)
  {
    Cell(x, y, w, h);
  }

  lemma CellOfGrid(i: nat, w: nat, h: nat)
    requires i < w * h
    ensures GridOf(i, w, h).1 * w + GridOf(i, w, h).0 == i
  {
    CellOf(i, w, h);
  }

  /** The `n` bytes of an item of a grid. */
  lemma Item(x: nat, y: nat, w: nat, h: nat, n: nat)
    requires x < w && y < h
    ensures 0 <= (y * w + x) * n && (y * w + x) * n + n <= w * h * n
  {
    Cell(x, y, w, h);
    MulMono(y * w + x + 1, w * h, n);
  }

  // ---------------------------------------------------------------- where samples are stored

  function Nv12Luma(x: nat, y: nat, w: nat, h: nat): (i: nat)
    requires x < w && y < h
    ensures i < w * h && i < FrameSize(Nv12, w, h)
  {
    Cell(x, y, w, h);
    y * w + x
  }

  function Nv12Chroma(cx: nat, cy: nat, k: nat, w: nat, h: nat): (i: nat)
    requires cx < Half(w) && cy < Half(h) && k < 2
    ensures w * h <= i < FrameSize(Nv12, w, h)
  {
    Item(cx, cy, Half(w), Half(h), 2);
    w * h + (cy * Half(w) + cx) * 2 + k
  }

  /** Bytes in a row of a YUYV image: two pixels in every four bytes. */
  function YuyvRow(w: nat): nat {
    Half(w) * 4
  }

  lemma YuyvSize(w: nat, h: nat)
    ensures FrameSize(Yuyv, w, h) == YuyvRow(w) * h
  {
  }

  function YuyvLuma(x: nat, y: nat, w: nat, h: nat): (i: nat)
    requires x < w && y < h
    ensures i < FrameSize(Yuyv, w, h)
  {
    YuyvSize(w, h);
    Cell(x * 2, y, YuyvRow(w), h);
    y * YuyvRow(w) + x * 2
  }

  function YuyvChroma(cx: nat, y: nat, k: nat, w: nat, h: nat): (i: nat)
    requires cx < Half(w) && y < h && k < 2
    ensures i < FrameSize(Yuyv, w, h)
  {
    YuyvSize(w, h);
    Cell(cx * 4 + 1 + 2 * k, y, YuyvRow(w), h);
    y * YuyvRow(w) + (cx * 4 + 1 + 2 * k)
  }

  function RgbAt(x: nat, y: nat, w: nat, h: nat): (i: nat)
    requires x < w && y < h
    ensures i + 3 <= FrameSize(Rgb888, w, h)
  {
    Item(x, y, w, h, 3);
    (y * w + x) * 3
  }

  // ---------------------------------------------------------------- samples

  function RgbBytes(img: Image, x: nat, y: nat): Triple
    requires WellFormed(img) && img.format == Rgb888 && x < img.width && y < img.height
  {
    var p := RgbAt(x, y, img.width, img.height);
    Triple(img.data[p], img.data[p + 1], img.data[p + 2])
  }

  /** The luma and chroma of an RGB pixel. */
  function RgbPixel(img: Image, x: nat, y: nat): Triple
    requires WellFormed(img) && img.format == Rgb888 && x < img.width && y < img.height
  {
    var t := RgbBytes(img, x, y);
    RgbToYuv(t.a, t.b, t.c)
  }

  function Y(img: Image, x: nat, y: nat): byte
    requires WellFormed(img) && x < img.width && y < img.height
  {
    match img.format
    case Nv12 => img.data[Nv12Luma(x, y, img.width, img.height)]
    case Yuyv => img.data[YuyvLuma(x, y, img.width, img.height)]
    case Rgb888 => RgbPixel(img, x, y).a
  }

  /** Cb for `k == 0` and Cr for `k == 1`; a block takes them from its even row, and from
      its left pixel when the pixels have their own. */
  function C(img: Image, cx: nat, cy: nat, k: nat): byte
    requires WellFormed(img) && cx < Half(img.width) && cy < Half(img.height) && k < 2
  {
    match img.format
    case Nv12 => img.data[Nv12Chroma(cx, cy, k, img.width, img.height)]
    case Yuyv => img.data[YuyvChroma(cx, 2 * cy, k, img.width, img.height)]
    case Rgb888 =>
      if k == 0 then RgbPixel(img, 2 * cx, 2 * cy).b else RgbPixel(img, 2 * cx, 2 * cy).c
  }

  // ---------------------------------------------------------------- to NV12

  /** The block whose chroma is byte `i` of an NV12 image, and which of the two it is. */
  function BlockOf(i: nat, w: nat, h: nat): (c: (nat, nat, nat))
    requires w * h <= i < FrameSize(Nv12, w, h)
    ensures c.0 < Half(w) && c.1 < Half(h) && c.2 < 2
  {
    var c := GridOf((i - w * h) / 2, Half(w), Half(h));
    (c.0, c.1, (i - w * h) % 2)
  }

  /** Byte `i` of the NV12 image with the samples of `img`. */
  function Nv12Byte(img: Image, i: nat): byte
    requires WellFormed(img) && i < FrameSize(Nv12, img.width, img.height)
  {
    if i < img.width * img.height then
      var (x, y) := GridOf(i, img.width, img.height);
      Y(img, x, y)
    else
      var (cx, cy, k) := BlockOf(i, img.width, img.height);
      C(img, cx, cy, k)
  }

  function ToNv12(img: Image): (r: Image)
    requires WellFormed(img)
    ensures WellFormed(r) && r.format == Nv12
  {
    if img.format == Nv12 then img else
    var n := FrameSize(Nv12, img.width, img.height);
    img.(format := Nv12, data := seq(n, i requires 0 <= i < n => Nv12Byte(img, i)))
  }

  /** Two images show the same: equal luma everywhere, equal chroma in every block. */
  ghost predicate SameSamples(a: Image, b: Image)
    requires WellFormed(a) && WellFormed(b)
    requires a.width == b.width && a.height == b.height
  {
    && (forall x: nat, y: nat :: x < a.width && y < a.height ==> Y(a, x, y) == Y(b, x, y))
    && (forall cx: nat, cy: nat, k: nat :: cx < Half(a.width) && cy < Half(a.height) && k < 2 ==>
          C(a, cx, cy, k) == C(b, cx, cy, k))
  }

  lemma BlockOfChroma(cx: nat, cy: nat, k: nat, w: nat, h: nat)
    requires cx < Half(w) && cy < Half(h) && k < 2
    ensures BlockOf(Nv12Chroma(cx, cy, k, w, h), w, h) == (cx, cy, k)
  {
    var c := cy * Half(w) + cx;
    GridOfCell(cx, cy, Half(w), Half(h));
    assert (c * 2 + k) / 2 == c && (c * 2 + k) % 2 == k;
  }

  lemma ChromaOfBlock(i: nat, w: nat, h: nat)
    requires w * h <= i < FrameSize(Nv12, w, h)
    ensures var (cx, cy, k) := BlockOf(i, w, h); Nv12Chroma(cx, cy, k, w, h) == i
  {
    CellOfGrid((i - w * h) / 2, Half(w), Half(h));
  }

  lemma ToNv12Keeps(img: Image)
    requires WellFormed(img)
    ensures SameSamples(ToNv12(img), img)
  {
    var r := ToNv12(img);
    hide GridOf, BlockOf, Nv12Chroma, YuyvLuma, YuyvChroma, RgbPixel;
    forall x: nat, y: nat | x < img.width && y < img.height
      ensures Y(r, x, y) == Y(img, x, y)
    {
      GridOfCell(x, y, img.width, img.height);
    }
    forall cx: nat, cy: nat, k: nat | cx < Half(img.width) && cy < Half(img.height) && k < 2
      ensures C(r, cx, cy, k) == C(img, cx, cy, k)
    {
      BlockOfChroma(cx, cy, k, img.width, img.height);
    }
  }

  lemma Nv12ByteIsByte(img: Image, i: nat)
    requires WellFormed(img) && img.format == Nv12 && i < |img.data|
    ensures img.data[i] == Nv12Byte(img, i)
  {
    hide GridOf, BlockOf, Nv12Chroma;
    if i < img.width * img.height {
      CellOfGrid(i, img.width, img.height);
    } else {
      ChromaOfBlock(i, img.width, img.height);
    }
  }

  /** An NV12 image is nothing but its samples. */
  lemma Nv12Extensional(a: Image, b: Image)
    requires WellFormed(a) && WellFormed(b) && a.format == b.format == Nv12
    requires a.width == b.width && a.height == b.height && a.pts == b.pts
    requires SameSamples(a, b)
    ensures a == b
  {
    forall i | 0 <= i < |a.data|
      ensures a.data[i] == b.data[i]
    {
      Nv12ByteIsByte(a, i);
      Nv12ByteIsByte(b, i);
      SameBytes(a, b, i);
    }
  }

  lemma SameBytes(a: Image, b: Image, i: nat)
    requires WellFormed(a) && WellFormed(b)
    requires a.width == b.width && a.height == b.height
    requires SameSamples(a, b) && i < FrameSize(Nv12, a.width, a.height)
    ensures Nv12Byte(a, i) == Nv12Byte(b, i)
  {
    hide Y, C, GridOf, BlockOf;
  }

  // ---------------------------------------------------------------- from NV12

  /** Byte `k` of row `y` of the YUYV image; the last pixel of an odd row has no partner,
      so the byte of that partner's luma stays 0. */
  function YuyvByteAt(img: Image, y: nat, k: nat): byte
    requires WellFormed(img) && y < img.height && k < YuyvRow(img.width)
  {
    if k % 2 == 1 then C(img, k / 4, y / 2, k % 4 / 2)
    else if k / 2 < img.width then Y(img, k / 2, y)
    else 0
  }

  function YuyvByte(img: Image, i: nat): byte
    requires WellFormed(img) && i < FrameSize(Yuyv, img.width, img.height)
  {
    YuyvSize(img.width, img.height);
    var (k, y) := GridOf(i, YuyvRow(img.width), img.height);
    YuyvByteAt(img, y, k)
  }

  function Pixel(img: Image, x: nat, y: nat): Triple
    requires WellFormed(img) && x < img.width && y < img.height
  {
    YuvToRgb(Y(img, x, y), C(img, x / 2, y / 2, 0), C(img, x / 2, y / 2, 1))
  }

  function Nth(t: Triple, i: nat): byte {
    if i == 0 then t.a else if i == 1 then t.b else t.c
  }

  function RgbByte(img: Image, i: nat): byte
    requires WellFormed(img) && i < FrameSize(Rgb888, img.width, img.height)
  {
    var (x, y) := GridOf(i / 3, img.width, img.height);
    Nth(Pixel(img, x, y), i % 3)
  }

  function FromNv12(img: Image, format: PixelFormat): (r: Image)
    requires WellFormed(img) && img.format == Nv12 && Supported(format)
    ensures WellFormed(r) && r.format == format
  {
    match format
    case Nv12 => img
    case Yuyv =>
      var n := FrameSize(Yuyv, img.width, img.height);
      img.(format := Yuyv, data := seq(n, i requires 0 <= i < n => YuyvByte(img, i)))
    case Rgb888 =>
      var n := FrameSize(Rgb888, img.width, img.height);
      img.(format := Rgb888, data := seq(n, i requires 0 <= i < n => RgbByte(img, i)))
  }

  /** Every conversion keeps the size, the time stamp and well-formedness. */
  function Convert(img: Image, format: PixelFormat): (r: Image)
    requires WellFormed(img) && Supported(format)
    ensures WellFormed(r) && r.format == format
    ensures r.width == img.width && r.height == img.height && r.pts == img.pts
  {
    if img.format == format then img else FromNv12(ToNv12(img), format)
  }

  lemma YuyvKeepsLuma(img: Image, x: nat, y: nat)
    requires WellFormed(img) && img.format == Nv12 && x < img.width && y < img.height
    ensures Y(FromNv12(img, Yuyv), x, y) == Y(img, x, y)
  {
    var (w, h) := (img.width, img.height);
    YuyvSize(w, h);
    GridOfCell(x * 2, y, YuyvRow(w), h);
    hide GridOf, Nv12Luma;
    assert YuyvByte(img, YuyvLuma(x, y, w, h)) == YuyvByteAt(img, y, x * 2);
  }

  lemma YuyvKeepsChroma(img: Image, cx: nat, cy: nat, k: nat)
    requires WellFormed(img) && img.format == Nv12
    requires cx < Half(img.width) && cy < Half(img.height) && k < 2
    ensures C(FromNv12(img, Yuyv), cx, cy, k) == C(img, cx, cy, k)
  {
    var (w, h) := (img.width, img.height);
    YuyvSize(w, h);
    YuyvChromaColumn(img, cx, cy, k);
    var at := cx * 4 + 1 + 2 * k;
    GridOfCell(at, 2 * cy, YuyvRow(w), h);
    hide GridOf, Nv12Chroma, YuyvByteAt;
    assert YuyvByte(img, YuyvChroma(cx, 2 * cy, k, w, h)) == YuyvByteAt(img, 2 * cy, at);
  }

  lemma YuyvChromaColumn(img: Image, cx: nat, cy: nat, k: nat)
    requires WellFormed(img) && cx < Half(img.width) && cy < Half(img.height) && k < 2
    ensures YuyvByteAt(img, 2 * cy, cx * 4 + 1 + 2 * k) == C(img, cx, cy, k)
  {
    hide C, Y;
    var at := cx * 4 + 1 + 2 * k;
    assert at % 2 == 1 && at / 4 == cx && at % 4 / 2 == k && 2 * cy / 2 == cy;
  }

  /** Going to YUYV loses nothing. */
  lemma FromNv12KeepsYuyv(img: Image)
    requires WellFormed(img) && img.format == Nv12
    ensures SameSamples(FromNv12(img, Yuyv), img)
  {
    hide Y, C, FromNv12;
    var r := FromNv12(img, Yuyv);
    FromNv12Size(img, Yuyv);
    forall x: nat, y: nat | x < img.width && y < img.height
      ensures Y(r, x, y) == Y(img, x, y)
    {
      YuyvKeepsLuma(img, x, y);
    }
    forall cx: nat, cy: nat, k: nat | cx < Half(img.width) && cy < Half(img.height) && k < 2
      ensures C(r, cx, cy, k) == C(img, cx, cy, k)
    {
      YuyvKeepsChroma(img, cx, cy, k);
    }
  }

  lemma FromNv12Size(img: Image, format: PixelFormat)
    requires WellFormed(img) && img.format == Nv12 && Supported(format)
    ensures var r := FromNv12(img, format);
            r.width == img.width && r.height == img.height && r.pts == img.pts
  {
  }

  /** NV12 to YUYV and back is the identity at every size. */
  lemma YuyvRoundTrip(img: Image)
    requires WellFormed(img) && img.format == Nv12
    ensures Convert(Convert(img, Yuyv), Nv12) == img
  {
    var mid := FromNv12(img, Yuyv);
    FromNv12KeepsYuyv(img);
    ToNv12Keeps(mid);
    hide Y, C;
    Nv12Extensional(ToNv12(mid), img);
  }

  // ---------------------------------------------------------------- colour round trips

  lemma RgbByteOf(img: Image, x: nat, y: nat, n: nat)
    requires WellFormed(img) && img.format == Nv12 && x < img.width && y < img.height && n < 3
    ensures RgbByte(img, RgbAt(x, y, img.width, img.height) + n) == Nth(Pixel(img, x, y), n)
  {
    hide Pixel, Nth;
    GridOfCell(x, y, img.width, img.height);
    var p := RgbAt(x, y, img.width, img.height) + n;
    assert p / 3 == y * img.width + x && p % 3 == n;
  }

  lemma RgbBytesOfPixel(img: Image, x: nat, y: nat)
    requires WellFormed(img) && img.format == Nv12 && x < img.width && y < img.height
    ensures RgbBytes(FromNv12(img, Rgb888), x, y) == Pixel(img, x, y)
  {
    hide Pixel, RgbByte, RgbAt;
    RgbByteOf(img, x, y, 0);
    RgbByteOf(img, x, y, 1);
    RgbByteOf(img, x, y, 2);
  }

  lemma RgbSamples(img: Image, x: nat, y: nat)
    requires WellFormed(img) && img.format == Rgb888 && x < img.width && y < img.height
    ensures Y(img, x, y) == RgbPixel(img, x, y).a
    ensures C(img, x / 2, y / 2, 0) == RgbPixel(img, 2 * (x / 2), 2 * (y / 2)).b
    ensures C(img, x / 2, y / 2, 1) == RgbPixel(img, 2 * (x / 2), 2 * (y / 2)).c
  {
    hide RgbPixel;
  }

  /** Every pixel has the colour of the top left pixel of its 2x2 block. */
  ghost predicate BlockColoured(img: Image)
    requires WellFormed(img) && img.format == Rgb888
  {
    forall x: nat, y: nat :: x < img.width && y < img.height ==>
      RgbBytes(img, x, y) == RgbBytes(img, 2 * (x / 2), 2 * (y / 2))
  }

  /** An RGB image that is constant on each 2x2 block survives the trip to NV12 and back,
      at every size, up to 2 levels of red and green and 3 of blue per pixel. */
  lemma RgbImageRoundTrip(img: Image, x: nat, y: nat)
    requires WellFormed(img) && img.format == Rgb888 && BlockColoured(img)
    requires x < img.width && y < img.height
    ensures var back := RgbBytes(Convert(Convert(img, Nv12), Rgb888), x, y);
            var was := RgbBytes(img, x, y);
            Diff(back.a, was.a) <= 2 && Diff(back.b, was.b) <= 2 && Diff(back.c, was.c) <= 3
  {
    hide Y, C, Diff, RgbBytes, YuvToRgb, RgbToYuv, ToNv12, FromNv12;
    var mid := Convert(img, Nv12);
    ConvertIsToNv12(img);
    SameFormat(mid);
    ToNv12Keeps(img);
    RgbBytesOfPixel(mid, x, y);
    RgbSamples(img, x, y);
    var t := RgbBytes(img, x, y);
    RgbRoundTrip(t.a, t.b, t.c);
  }

  lemma ConvertIsToNv12(img: Image)
    requires WellFormed(img)
    ensures Convert(img, Nv12) == ToNv12(img)
  {
  }

  ghost predicate Grey(img: Image)
    requires WellFormed(img)
  {
    && (forall x: nat, y: nat :: x < img.width && y < img.height ==> 16 <= Y(img, x, y) <= 235)
    && (forall cx: nat, cy: nat, k: nat :: cx < Half(img.width) && cy < Half(img.height) && k < 2 ==>
          C(img, cx, cy, k) == 128)
  }

  lemma GreyPixelRoundTrip(img: Image, x: nat, y: nat)
    requires WellFormed(img) && img.format == Nv12 && Grey(img)
    requires x < img.width && y < img.height
    ensures var p := RgbPixel(FromNv12(img, Rgb888), x, y);
            Diff(p.a, Y(img, x, y)) <= 1 && p.b == 128 && p.c == 128
  {
    hide Y, C, Diff, RgbBytes, YuvToRgb, RgbToYuv, FromNv12;
    RgbBytesOfPixel(img, x, y);
    GreyRoundTrip(Y(img, x, y));
    assert C(img, x / 2, y / 2, 0) == 128 && C(img, x / 2, y / 2, 1) == 128;
  }

  /** A grey NV12 image of legal luma survives the trip to RGB and back at every size: its
      chroma exactly, its luma up to one level. */
  lemma GreyImageRoundTrip(img: Image)
    requires WellFormed(img) && img.format == Nv12 && Grey(img)
    ensures var back := Convert(Convert(img, Rgb888), Nv12);
            && (forall x: nat, y: nat :: x < img.width && y < img.height ==>
                  Diff(Y(back, x, y), Y(img, x, y)) <= 1)
            && (forall cx: nat, cy: nat, k: nat :: cx < Half(img.width) && cy < Half(img.height) && k < 2 ==>
                  C(back, cx, cy, k) == C(img, cx, cy, k))
  {
    hide Y, C, Diff, RgbPixel, ToNv12, FromNv12;
    var mid := Convert(img, Rgb888);
    var back := Convert(mid, Nv12);
    ConvertIsToNv12(mid);
    ConvertIsToNv12(img);
    ToNv12Keeps(mid);
    assert mid == FromNv12(img, Rgb888) by { SameFormat(img); }
    forall x: nat, y: nat | x < img.width && y < img.height
      ensures Diff(Y(back, x, y), Y(img, x, y)) <= 1
    {
      GreyPixelRoundTrip(img, x, y);
      RgbSamples(mid, x, y);
    }
    forall cx: nat, cy: nat, k: nat | cx < Half(img.width) && cy < Half(img.height) && k < 2
      ensures C(back, cx, cy, k) == C(img, cx, cy, k)
    {
      GreyPixelRoundTrip(img, 2 * cx, 2 * cy);
      RgbSamples(mid, 2 * cx, 2 * cy);
      assert 2 * cx / 2 == cx && 2 * cy / 2 == cy;
    }
  }

  lemma SameFormat(img: Image)
    requires WellFormed(img) && img.format == Nv12
    ensures ToNv12(img) == img
  {
  }
}
