/** The nested loops that fill byte buffers, proved to compute what Images and Scaling
    specify. A buffer is handled as its luma and its chroma plane, as `split_at_mut` does. */
module ImageLoops {
  import opened Bytes
  import opened Colour
  import opened Images
  import opened Scaling

  /** The first `n` bytes of a plane are as they should be. */
  ghost predicate Done(plane: array<byte>, want: seq<byte>, n: int)
    reads plane
  {
    0 <= n <= plane.Length == |want| && forall i :: 0 <= i < n ==> plane[i] == want[i]
  }

  /** Stores the next byte of a plane, */
  method Put(plane: array<byte>, at: int, b: byte, ghost want: seq<byte>)
    requires Done(plane, want, at) && at < |want| && want[at] == b
    modifies plane
    ensures Done(plane, want, at + 1)
  {
    plane[at] := b;
  }

  /** or the next two. */
  method PutPair(plane: array<byte>, at: int, a: byte, b: byte, ghost want: seq<byte>)
    requires Done(plane, want, at) && at + 1 < |want| && want[at] == a && want[at + 1] == b
    modifies plane
    ensures Done(plane, want, at + 2)
  {
    plane[at] := a;
    plane[at + 1] := b;
  }

  /** The two planes of the NV12 image that `img` is converted to. */
  ghost function LumaOf(img: Image): (s: seq<byte>)
    requires WellFormed(img)
    ensures |s| == img.width * img.height
  {
    ToNv12(img).data[..img.width * img.height]
  }

  ghost function ChromaOf(img: Image): (s: seq<byte>)
    requires WellFormed(img)
    ensures |s| == Half(img.width) * Half(img.height) * 2
  {
    ToNv12(img).data[img.width * img.height..]
  }

  lemma LumaOfAt(img: Image, x: nat, y: nat, at: int)
    requires WellFormed(img) && x < img.width && y < img.height && at == y * img.width
    ensures 0 <= at + x < |LumaOf(img)| && LumaOf(img)[at + x] == Y(img, x, y)
  {
    ToNv12Keeps(img);
    assert Nv12Luma(x, y, img.width, img.height) == at + x;
    assert Y(ToNv12(img), x, y) == Y(img, x, y) by { hide Y, ToNv12; }
    hide ToNv12, Nv12Luma, FrameSize, SameSamples;
  }

  lemma ChromaOfAt(img: Image, cx: nat, cy: nat, k: nat, at: int)
    requires WellFormed(img) && cx < Half(img.width) && cy < Half(img.height) && k < 2
    requires at == cy * Half(img.width) * 2
    ensures 0 <= at + cx * 2 + k < |ChromaOf(img)| && ChromaOf(img)[at + cx * 2 + k] == C(img, cx, cy, k)
  {
    ToNv12Keeps(img);
    assert Nv12Chroma(cx, cy, k, img.width, img.height) == img.width * img.height + (at + cx * 2 + k);
    assert C(ToNv12(img), cx, cy, k) == C(img, cx, cy, k) by { hide C, ToNv12, Half; }
    hide ToNv12, Nv12Chroma, Half, SameSamples;
  }

  lemma HalfStep(y: nat)
    ensures Half(y + 1) == Half(y) + (if y % 2 == 0 then 1 else 0)
    ensures Half(y) == y / 2 + (if y % 2 == 0 then 0 else 1)
    ensures 2 * (y / 2) == y - y % 2
  {
  }

  lemma LoadYuyvLuma(img: Image, x: nat, y: nat)
    requires WellFormed(img) && img.format == Yuyv && x < img.width && y < img.height
    ensures Y(img, x, y) == img.data[YuyvLuma(x, y, img.width, img.height)]
  {
    hide YuyvLuma, FrameSize;
  }

  lemma LoadYuyvChroma(img: Image, cx: nat, y: nat, k: nat)
    requires WellFormed(img) && img.format == Yuyv && cx < Half(img.width) && y < img.height && k < 2
    requires y % 2 == 0
    ensures y / 2 < Half(img.height)
    ensures C(img, cx, y / 2, k) == img.data[YuyvChroma(cx, y, k, img.width, img.height)]
  {
    HalfStep(y);
    hide YuyvChroma, FrameSize;
  }

  // ---------------------------------------------------------------- to_nv12

  /** The luma of row `y` of a YUYV image. */
  method YuyvLumaRow(img: Image, luma: array<byte>, y: nat, at: int)
    requires WellFormed(img) && img.format == Yuyv && y < img.height && at == y * img.width
    requires Done(luma, LumaOf(img), at)
    modifies luma
    ensures Done(luma, LumaOf(img), at + img.width)
  {
    hide YuyvLuma, LumaOf, Y;
    for x := 0 to img.width
      invariant Done(luma, LumaOf(img), at + x)
    {
      LumaOfAt(img, x, y, at);
      LoadYuyvLuma(img, x, y);
      Put(luma, at + x, img.data[YuyvLuma(x, y, img.width, img.height)], LumaOf(img));
    }
  }

  /** The chroma that an even row of a YUYV image gives to its blocks. */
  method YuyvChromaRow(img: Image, chroma: array<byte>, y: nat, at: int)
    requires WellFormed(img) && img.format == Yuyv && y < img.height && y % 2 == 0
    requires at == y / 2 * Half(img.width) * 2
    requires Done(chroma, ChromaOf(img), at)
    modifies chroma
    ensures Done(chroma, ChromaOf(img), at + Half(img.width) * 2)
  {
    var (w, h) := (img.width, img.height);
    hide YuyvChroma, ChromaOf, C, Half;
    for cx := 0 to Half(w)
      invariant Done(chroma, ChromaOf(img), at + cx * 2)
    {
      LoadYuyvChroma(img, cx, y, 0);
      LoadYuyvChroma(img, cx, y, 1);
      ChromaOfAt(img, cx, y / 2, 0, at);
      ChromaOfAt(img, cx, y / 2, 1, at);
      PutPair(chroma, at + cx * 2, img.data[YuyvChroma(cx, y, 0, w, h)], img.data[YuyvChroma(cx, y, 1, w, h)],
              ChromaOf(img));
    }
  }

  lemma RgbBlock(img: Image, cx: nat, cy: nat)
    requires WellFormed(img) && img.format == Rgb888 && 2 * cx < img.width && 2 * cy < img.height
    ensures cx < Half(img.width) && cy < Half(img.height)
    ensures C(img, cx, cy, 0) == RgbPixel(img, 2 * cx, 2 * cy).b
    ensures C(img, cx, cy, 1) == RgbPixel(img, 2 * cx, 2 * cy).c
  {
    hide WellFormed, RgbPixel;
  }

  lemma RgbChromaAt(img: Image, cx: nat, cy: nat, cat: int)
    requires WellFormed(img) && img.format == Rgb888 && 2 * cx < img.width && 2 * cy < img.height
    requires cat == cy * Half(img.width) * 2
    ensures cx < Half(img.width) && cy < Half(img.height)
    ensures 0 <= cat + cx * 2 && cat + cx * 2 + 1 < |ChromaOf(img)|
    ensures ChromaOf(img)[cat + cx * 2] == RgbPixel(img, 2 * cx, 2 * cy).b
    ensures ChromaOf(img)[cat + cx * 2 + 1] == RgbPixel(img, 2 * cx, 2 * cy).c
  {
    hide *;
    RgbBlock(img, cx, cy);
    ChromaOfAt(img, cx, cy, 0, cat);
    ChromaOfAt(img, cx, cy, 1, cat);
  }

  /** The chroma of an RGB pixel counts if both its coordinates are even. */
  method RgbPutChroma(img: Image, chroma: array<byte>, x: nat, y: nat, t: Triple, cat: int)
    requires WellFormed(img) && img.format == Rgb888 && x < img.width && y < img.height
    requires t == RgbPixel(img, x, y) && cat == y / 2 * Half(img.width) * 2
    requires y % 2 == 0 ==> Done(chroma, ChromaOf(img), cat + Half(x) * 2)
    modifies chroma
    ensures y % 2 == 0 ==> Done(chroma, ChromaOf(img), cat + Half(x + 1) * 2)
    ensures y % 2 == 1 ==> chroma[..] == old(chroma[..])
  {
    HalfStep(x);
    hide *;
    if y % 2 == 0 && x % 2 == 0 {
      RgbChromaAt(img, x / 2, y / 2, cat);
      PutPair(chroma, cat + x / 2 * 2, t.b, t.c, ChromaOf(img));
    }
  }

  lemma RgbLumaAt(img: Image, x: nat, y: nat, at: int)
    requires WellFormed(img) && img.format == Rgb888 && x < img.width && y < img.height && at == y * img.width
    ensures 0 <= at + x < |LumaOf(img)| && LumaOf(img)[at + x] == RgbPixel(img, x, y).a
  {
    assert Y(img, x, y) == RgbPixel(img, x, y).a;
    hide *;
    LumaOfAt(img, x, y, at);
  }

  /** Row `y` of an RGB image. */
  method RgbRow(img: Image, luma: array<byte>, chroma: array<byte>, y: nat, at: int, cat: int)
    requires WellFormed(img) && img.format == Rgb888 && y < img.height
    requires luma != chroma && at == y * img.width && cat == y / 2 * Half(img.width) * 2
    requires Done(luma, LumaOf(img), at)
    requires y % 2 == 0 ==> Done(chroma, ChromaOf(img), cat)
    modifies luma, chroma
    ensures Done(luma, LumaOf(img), at + img.width)
    ensures y % 2 == 0 ==> Done(chroma, ChromaOf(img), cat + Half(img.width) * 2)
    ensures y % 2 == 1 ==> chroma[..] == old(chroma[..])
  {
    assert Half(0) == 0;
    hide *;
    for x := 0 to img.width
      invariant Done(luma, LumaOf(img), at + x)
      invariant y % 2 == 0 ==> Done(chroma, ChromaOf(img), cat + Half(x) * 2)
      invariant y % 2 == 1 ==> chroma[..] == old(chroma[..])
    {
      var t := RgbPixel(img, x, y);
      RgbLumaAt(img, x, y, at);
      Put(luma, at + x, t.a, LumaOf(img));
      RgbPutChroma(img, chroma, x, y, t, cat);
    }
  }

  /** Each row starts where the rows before it end, and so does its row of blocks. */
  lemma RowStarts(y: nat, w: nat, at: int, cat: int)
    requires at == y * w && cat == Half(y) * Half(w) * 2
    ensures at + w == (y + 1) * w
    ensures y % 2 == 0 ==> cat == y / 2 * Half(w) * 2 && cat + Half(w) * 2 == Half(y + 1) * Half(w) * 2
    ensures y % 2 == 1 ==> cat == Half(y + 1) * Half(w) * 2
  {
    HalfStep(y);
    assert (y / 2 + 1) * Half(w) == y / 2 * Half(w) + Half(w);
  }

  /** The first `y` rows are in both planes. */
  ghost predicate RowsDone(img: Image, luma: array<byte>, chroma: array<byte>, y: nat)
    requires WellFormed(img)
    reads luma, chroma
  {
    && Done(luma, LumaOf(img), y * img.width)
    && Done(chroma, ChromaOf(img), Half(y) * Half(img.width) * 2)
  }

  method RowToNv12(img: Image, luma: array<byte>, chroma: array<byte>, y: nat)
    requires WellFormed(img) && img.format != Nv12 && y < img.height && luma != chroma
    requires RowsDone(img, luma, chroma, y)
    modifies luma, chroma
    ensures RowsDone(img, luma, chroma, y + 1)
  {
    var w, cw := img.width, Half(img.width);
    ghost var cat := Half(y) * cw * 2;
    RowStarts(y, w, y * w, cat);
    assert img.format == Yuyv || img.format == Rgb888;
    hide WellFormed, LumaOf, ChromaOf, Half;
    var at := y * w;
    if img.format == Yuyv {
      YuyvLumaRow(img, luma, y, at);
      if y % 2 == 0 {
        YuyvChromaRow(img, chroma, y, y / 2 * cw * 2);
      }
    } else {
      RgbRow(img, luma, chroma, y, at, y / 2 * cw * 2);
    }
  }

  lemma NoRows(img: Image, luma: array<byte>, chroma: array<byte>)
    requires WellFormed(img) && luma.Length == |LumaOf(img)| && chroma.Length == |ChromaOf(img)|
    ensures RowsDone(img, luma, chroma, 0)
  {
    hide WellFormed, LumaOf, ChromaOf;
  }

  lemma AllRows(img: Image, luma: array<byte>, chroma: array<byte>)
    requires WellFormed(img) && RowsDone(img, luma, chroma, img.height)
    ensures luma[..] == LumaOf(img) && chroma[..] == ChromaOf(img)
  {
    hide WellFormed, LumaOf, ChromaOf, Half;
  }

  /** `to_nv12` */
  method ToNv12Loop(img: Image) returns (r: Image)
    requires WellFormed(img)
    ensures r == ToNv12(img)
  {
    if img.format == Nv12 {
      return img;
    }
    var luma := new byte[img.width * img.height](_ => 0);
    var chroma := new byte[Half(img.width) * Half(img.height) * 2](_ => 0);
    hide *;
    NoRows(img, luma, chroma);
    for y := 0 to img.height
      invariant RowsDone(img, luma, chroma, y)
    {
      RowToNv12(img, luma, chroma, y);
    }
    AllRows(img, luma, chroma);
    BothPlanes(img);
    r := img.(format := Nv12, data := luma[..] + chroma[..]);
  }

  lemma BothPlanes(img: Image)
    requires WellFormed(img)
    ensures ToNv12(img) == img.(format := Nv12, data := LumaOf(img) + ChromaOf(img))
  {
    hide Nv12Byte;
  }

  // ---------------------------------------------------------------- from_nv12

  /** Reads one sample of an NV12 image. */
  function LoadLuma(src: Image, x: nat, y: nat): (b: byte)
    requires WellFormed(src) && src.format == Nv12 && x < src.width && y < src.height
    ensures b == Y(src, x, y)
  {
    src.data[Nv12Luma(x, y, src.width, src.height)]
  }

  function LoadChroma(src: Image, cx: nat, cy: nat, k: nat): (b: byte)
    requires WellFormed(src) && src.format == Nv12 && cx < Half(src.width) && cy < Half(src.height) && k < 2
    ensures b == C(src, cx, cy, k)
  {
    src.data[Nv12Chroma(cx, cy, k, src.width, src.height)]
  }

  lemma NextRow(y: nat, w: nat)
    ensures y * w + w == (y + 1) * w
    ensures y * w * 2 + w * 2 == (y + 1) * w * 2
  {
  }

  /** A buffer that is done up to the row at `at`; of that row `e` even bytes and `c` pairs
      of odd bytes are done. The rest is still zero. */
  ghost predicate RowPart(out: array<byte>, want: seq<byte>, at: int, n: nat, e: nat, c: nat)
    reads out
  {
    && 0 <= at <= out.Length == |want|
    && (forall i :: 0 <= i < at ==> out[i] == want[i])
    && (forall i :: at <= i < out.Length ==>
          out[i] == if InRow(i - at, n, e, c) then want[i] else 0)
  }

  predicate InRow(k: int, n: nat, e: nat, c: nat) {
    k < n && if k % 2 == 0 then k / 2 < e else k / 4 < c
  }

  method PutEven(out: array<byte>, at: int, n: nat, e: nat, c: nat, b: byte, ghost want: seq<byte>)
    requires RowPart(out, want, at, n, e, c)
    requires 2 * e < n && at + n <= out.Length && want[at + 2 * e] == b
    modifies out
    ensures RowPart(out, want, at, n, e + 1, c)
  {
    out[at + 2 * e] := b;
  }

  method PutOdd(out: array<byte>, at: int, n: nat, e: nat, c: nat, u: byte, v: byte, ghost want: seq<byte>)
    requires RowPart(out, want, at, n, e, c)
    requires 4 * c + 4 <= n && at + n <= out.Length
    requires want[at + 4 * c + 1] == u && want[at + 4 * c + 3] == v
    modifies out
    ensures RowPart(out, want, at, n, e, c + 1)
  {
    hide InRow;
    forall k: int
      ensures k >= 0 ==> (InRow(k, n, e, c + 1) <==> InRow(k, n, e, c) || k == 4 * c + 1 || k == 4 * c + 3)
    {
      OddInRow(k, n, e, c);
    }
    var first := at + 4 * c + 1;
    out[first] := u;
    out[first + 2] := v;
  }

  /** One more pair of chroma samples in the row. */
  lemma OddInRow(k: int, n: nat, e: nat, c: nat)
    requires 4 * c + 4 <= n
    ensures k >= 0 ==> (InRow(k, n, e, c + 1) <==> InRow(k, n, e, c) || k == 4 * c + 1 || k == 4 * c + 3)
  {
    if k >= 0 && k % 2 == 1 {
      OddPlaces(k, c);
    } else if k >= 0 {
      assert k != 2 * (2 * c) + 1 && k != 2 * (2 * c + 1) + 1;
    }
  }

  lemma OddPlaces(k: nat, c: nat)
    requires k % 2 == 1
    ensures k / 4 < c + 1 <==> k / 4 < c || k == 4 * c + 1 || k == 4 * c + 3
    ensures k == 4 * c + 1 || k == 4 * c + 3 ==> k / 4 == c
  {
    var m := k / 2;
    assert k == 2 * m + 1 && k / 4 == m / 2;
  }

  lemma YuyvDataAt(img: Image, i: nat)
    requires WellFormed(img) && img.format == Nv12 && i < FrameSize(Yuyv, img.width, img.height)
    ensures |FromNv12(img, Yuyv).data| == FrameSize(Yuyv, img.width, img.height)
    ensures FromNv12(img, Yuyv).data[i] == YuyvByte(img, i)
  {
    hide YuyvByte, FrameSize;
  }

  lemma YuyvByteIs(img: Image, y: nat, k: nat, i: int)
    requires WellFormed(img) && y < img.height && k < YuyvRow(img.width)
    requires i == y * YuyvRow(img.width) + k
    ensures 0 <= i < FrameSize(Yuyv, img.width, img.height)
    ensures YuyvByte(img, i) == YuyvByteAt(img, y, k)
  {
    YuyvSize(img.width, img.height);
    GridOfCell(k, y, YuyvRow(img.width), img.height);
    hide GridOf, YuyvByteAt, FrameSize, YuyvRow;
  }

  lemma RowEnds(img: Image, y: nat, at: int)
    requires WellFormed(img) && img.format == Nv12 && y < img.height && at == y * YuyvRow(img.width)
    ensures 0 <= at && at + YuyvRow(img.width) <= |FromNv12(img, Yuyv).data|
  {
    YuyvSize(img.width, img.height);
    MulMono(y + 1, img.height, YuyvRow(img.width));
    hide FrameSize, YuyvRow, YuyvByte;
  }

  /** Byte `k` of row `y` of the YUYV image. */
  lemma YuyvAt(img: Image, y: nat, k: nat, at: int)
    requires WellFormed(img) && img.format == Nv12 && y < img.height && k < YuyvRow(img.width)
    requires at == y * YuyvRow(img.width)
    ensures 0 <= at && at + YuyvRow(img.width) <= |FromNv12(img, Yuyv).data|
    ensures FromNv12(img, Yuyv).data[at + k] == YuyvByteAt(img, y, k)
  {
    hide *;
    RowEnds(img, y, at);
    YuyvByteIs(img, y, k, at + k);
    YuyvDataAt(img, at + k);
  }

  lemma YuyvEvenAt(img: Image, x: nat, y: nat, at: int)
    requires WellFormed(img) && img.format == Nv12 && y < img.height && 2 * x < YuyvRow(img.width)
    requires at == y * YuyvRow(img.width)
    ensures 0 <= at && at + YuyvRow(img.width) <= |FromNv12(img, Yuyv).data|
    ensures FromNv12(img, Yuyv).data[at + 2 * x] == if x < img.width then Y(img, x, y) else 0
  {
    YuyvAt(img, y, 2 * x, at);
    YuyvEven(img, x, y);
    hide *;
  }

  lemma YuyvEven(img: Image, x: nat, y: nat)
    requires WellFormed(img) && img.format == Nv12 && y < img.height && 2 * x < YuyvRow(img.width)
    ensures YuyvByteAt(img, y, 2 * x) == if x < img.width then Y(img, x, y) else 0
  {
    hide Y, C, FromNv12, YuyvRow, WellFormed;
  }

  lemma YuyvOdd(img: Image, cx: nat, y: nat, k: nat)
    requires WellFormed(img) && y < img.height && cx < Half(img.width) && k < 2
    ensures y / 2 < Half(img.height) && 4 * cx + 4 <= YuyvRow(img.width)
    ensures YuyvByteAt(img, y, 4 * cx + 1 + 2 * k) == C(img, cx, y / 2, k)
  {
    hide C, Y, WellFormed;
  }

  lemma YuyvOddAt(img: Image, cx: nat, y: nat, at: int)
    requires WellFormed(img) && img.format == Nv12 && y < img.height && cx < Half(img.width)
    requires at == y * YuyvRow(img.width)
    ensures y / 2 < Half(img.height)
    ensures 0 <= at && at + 4 * cx + 4 <= |FromNv12(img, Yuyv).data|
    ensures FromNv12(img, Yuyv).data[at + 4 * cx + 1] == C(img, cx, y / 2, 0)
    ensures FromNv12(img, Yuyv).data[at + 4 * cx + 3] == C(img, cx, y / 2, 1)
  {
    hide *;
    YuyvOdd(img, cx, y, 0);
    YuyvOdd(img, cx, y, 1);
    YuyvAt(img, y, 4 * cx + 1, at);
    YuyvAt(img, y, 4 * cx + 3, at);
  }

  /** Once a row has all its luma and chroma, its only byte still zero is meant to be. */
  lemma ByteFilled(out: array<byte>, img: Image, y: nat, at: int, i: int)
    requires WellFormed(img) && img.format == Nv12 && y < img.height && at == y * YuyvRow(img.width)
    requires RowPart(out, FromNv12(img, Yuyv).data, at, YuyvRow(img.width), img.width, Half(img.width))
    requires at <= i < at + YuyvRow(img.width)
    ensures i < out.Length && out[i] == FromNv12(img, Yuyv).data[i]
  {
    var k := i - at;
    assert k % 2 == 1 ==> k / 4 < Half(img.width);
    YuyvAt(img, y, k, at);
    hide FromNv12, Y, C, Half, YuyvRow;
    if k % 2 == 0 {
      YuyvEvenAt(img, k / 2, y, at);
    }
  }

  lemma RowFilled(out: array<byte>, img: Image, y: nat, at: int)
    requires WellFormed(img) && img.format == Nv12 && y < img.height && at == y * YuyvRow(img.width)
    requires RowPart(out, FromNv12(img, Yuyv).data, at, YuyvRow(img.width), img.width, Half(img.width))
    requires at + YuyvRow(img.width) <= out.Length
    ensures RowPart(out, FromNv12(img, Yuyv).data, at + YuyvRow(img.width), YuyvRow(img.width), 0, 0)
  {
    var want := FromNv12(img, Yuyv).data;
    var row := YuyvRow(img.width);
    hide FromNv12, Y, C, Half, YuyvRow, WellFormed;
    forall i | at <= i < at + row
      ensures out[i] == want[i]
    {
      ByteFilled(out, img, y, at, i);
    }
  }

  method YuyvRowFrom(img: Image, out: array<byte>, y: nat, at: int)
    requires WellFormed(img) && img.format == Nv12 && y < img.height && at == y * YuyvRow(img.width)
    requires RowPart(out, FromNv12(img, Yuyv).data, at, YuyvRow(img.width), 0, 0)
    modifies out
    ensures RowPart(out, FromNv12(img, Yuyv).data, at + YuyvRow(img.width), YuyvRow(img.width), 0, 0)
  {
    var w, cw, row := img.width, Half(img.width), YuyvRow(img.width);
    ghost var want := FromNv12(img, Yuyv).data;
    assert w <= 2 * cw && row == 4 * cw;
    RowFits(out, img, y, at);
    hide *;
    for x := 0 to w
      invariant RowPart(out, want, at, row, x, 0)
    {
      YuyvEvenAt(img, x, y, at);
      PutEven(out, at, row, x, 0, LoadLuma(img, x, y), want);
    }
    for cx := 0 to cw
      invariant RowPart(out, want, at, row, w, cx)
    {
      YuyvOddAt(img, cx, y, at);
      PutOdd(out, at, row, w, cx, LoadChroma(img, cx, y / 2, 0), LoadChroma(img, cx, y / 2, 1), want);
    }
    RowFilled(out, img, y, at);
  }

  lemma RowFits(out: array<byte>, img: Image, y: nat, at: int)
    requires WellFormed(img) && img.format == Nv12 && y < img.height && at == y * YuyvRow(img.width)
    requires out.Length == |FromNv12(img, Yuyv).data|
    ensures at + YuyvRow(img.width) <= out.Length
  {
    RowEnds(img, y, at);
  }

  method YuyvFromNv12(img: Image, out: array<byte>)
    requires WellFormed(img) && img.format == Nv12
    requires RowPart(out, FromNv12(img, Yuyv).data, 0, YuyvRow(img.width), 0, 0)
    modifies out
    ensures out[..] == FromNv12(img, Yuyv).data
  {
    var row := YuyvRow(img.width);
    ghost var want := FromNv12(img, Yuyv).data;
    assert |want| == img.height * row;
    hide *;
    for y := 0 to img.height
      invariant RowPart(out, want, y * row, row, 0, 0)
    {
      NextRow(y, row);
      YuyvRowFrom(img, out, y, y * row);
    }
    RowsFilled(out, want, row);
  }

  lemma RowsFilled(out: array<byte>, want: seq<byte>, n: nat)
    requires RowPart(out, want, |want|, n, 0, 0)
    ensures out[..] == want
  {
  }

  method PutThree(out: array<byte>, at: int, t: Triple, ghost want: seq<byte>)
    requires Done(out, want, at) && at + 2 < |want|
    requires want[at] == t.a && want[at + 1] == t.b && want[at + 2] == t.c
    modifies out
    ensures Done(out, want, at + 3)
  {
    out[at] := t.a;
    out[at + 1] := t.b;
    out[at + 2] := t.c;
  }

  lemma RgbFromAt(img: Image, x: nat, y: nat, at: int)
    requires WellFormed(img) && img.format == Nv12 && x < img.width && y < img.height
    requires at == y * img.width * 3
    ensures var d := FromNv12(img, Rgb888).data;
            && 0 <= at + 3 * x && at + 3 * x + 2 < |d|
            && Triple(d[at + 3 * x], d[at + 3 * x + 1], d[at + 3 * x + 2]) == Pixel(img, x, y)
  {
    assert at + 3 * x == RgbAt(x, y, img.width, img.height);
    RgbBytesOfPixel(img, x, y);
    FromNv12Size(img, Rgb888);
    hide Pixel, FromNv12, RgbAt;
  }

  method RgbRowFrom(img: Image, out: array<byte>, y: nat, at: int)
    requires WellFormed(img) && img.format == Nv12 && y < img.height && at == y * img.width * 3
    requires Done(out, FromNv12(img, Rgb888).data, at)
    modifies out
    ensures Done(out, FromNv12(img, Rgb888).data, at + img.width * 3)
  {
    ghost var want := FromNv12(img, Rgb888).data;
    hide *;
    for x := 0 to img.width
      invariant Done(out, want, at + 3 * x)
    {
      RgbFromAt(img, x, y, at);
      var t := LoadPixel(img, x, y);
      PutThree(out, at + 3 * x, t, want);
    }
  }

  function LoadPixel(img: Image, x: nat, y: nat): (t: Triple)
    requires WellFormed(img) && img.format == Nv12 && x < img.width && y < img.height
    ensures t == Pixel(img, x, y)
  {
    YuvToRgb(LoadLuma(img, x, y), LoadChroma(img, x / 2, y / 2, 0), LoadChroma(img, x / 2, y / 2, 1))
  }

  method RgbFromNv12(img: Image, out: array<byte>)
    requires WellFormed(img) && img.format == Nv12
    requires Done(out, FromNv12(img, Rgb888).data, 0)
    modifies out
    ensures out[..] == FromNv12(img, Rgb888).data
  {
    var w := img.width;
    ghost var want := FromNv12(img, Rgb888).data;
    assert |want| == img.height * w * 3;
    hide *;
    for y := 0 to img.height
      invariant Done(out, want, y * w * 3)
    {
      NextRow(y, w);
      RgbRowFrom(img, out, y, y * w * 3);
    }
    AllDone(out, want, |want|);
  }

  lemma AllDone(plane: array<byte>, want: seq<byte>, n: int)
    requires Done(plane, want, n) && n == |want|
    ensures plane[..] == want
  {
  }

  /** `from_nv12` */
  method FromNv12Loop(img: Image, format: PixelFormat) returns (r: Image)
    requires WellFormed(img) && img.format == Nv12 && Supported(format)
    ensures r == FromNv12(img, format)
  {
    var n := FrameSize(format, img.width, img.height);
    var out := new byte[n](_ => 0);
    hide FrameSize, Y, C, YuyvByte, RgbByte, YuyvRow;
    match format
    case Nv12 => r := img;
    case Yuyv =>
      YuyvFromNv12(img, out);
      r := img.(format := Yuyv, data := out[..]);
    case Rgb888 =>
      RgbFromNv12(img, out);
      r := img.(format := Rgb888, data := out[..]);
  }

  method ConvertLoop(img: Image, format: PixelFormat) returns (r: Image)
    requires WellFormed(img) && Supported(format)
    ensures r == Convert(img, format)
  {
    if img.format == format {
      return img;
    }
    var planes := ToNv12Loop(img);
    r := FromNv12Loop(planes, format);
  }

  // ---------------------------------------------------------------- scale

  method ScaleLumaRow(src: Image, ghost r: Image, luma: array<byte>, w: nat, h: nat,
                      mirror: bool, flip: bool, y: nat, at: int)
    requires WellFormed(src) && src.format == Nv12 && src.width > 0 && src.height > 0
    requires r == ScaledNv12(src, w, h, mirror, flip) && y < h && at == y * w
    requires Done(luma, LumaOf(r), at)
    modifies luma
    ensures Done(luma, LumaOf(r), at + w)
  {
    hide *;
    var sy := Pick(y, h, src.height, flip);
    for x := 0 to w
      invariant Done(luma, LumaOf(r), at + x)
    {
      LumaOfAt(r, x, y, at);
      ScaledLuma(src, w, h, mirror, flip, x, y);
      var sx := Pick(x, w, src.width, mirror);
      Put(luma, at + x, LoadLuma(src, sx, sy), LumaOf(r));
    }
  }

  method ScaleChromaRow(src: Image, ghost r: Image, chroma: array<byte>, w: nat, h: nat,
                        mirror: bool, flip: bool, cy: nat, at: int)
    requires WellFormed(src) && src.format == Nv12 && src.width > 0 && src.height > 0
    requires r == ScaledNv12(src, w, h, mirror, flip)
    requires cy < Half(h) && at == cy * Half(w) * 2
    requires Done(chroma, ChromaOf(r), at)
    modifies chroma
    ensures Done(chroma, ChromaOf(r), at + Half(w) * 2)
  {
    assert Half(src.width) > 0 && Half(src.height) > 0;
    hide *;
    var sy := Pick(cy, Half(h), Half(src.height), flip);
    for cx := 0 to Half(w)
      invariant Done(chroma, ChromaOf(r), at + cx * 2)
    {
      ChromaOfAt(r, cx, cy, 0, at);
      ChromaOfAt(r, cx, cy, 1, at);
      ScaledChroma(src, w, h, mirror, flip, cx, cy, 0);
      ScaledChroma(src, w, h, mirror, flip, cx, cy, 1);
      var sx := Pick(cx, Half(w), Half(src.width), mirror);
      PutPair(chroma, at + cx * 2, LoadChroma(src, sx, sy, 0), LoadChroma(src, sx, sy, 1), ChromaOf(r));
    }
  }

  method ScaleLuma(src: Image, ghost r: Image, luma: array<byte>, w: nat, h: nat, mirror: bool, flip: bool)
    requires WellFormed(src) && src.format == Nv12 && src.width > 0 && src.height > 0
    requires r == ScaledNv12(src, w, h, mirror, flip) && luma.Length == w * h
    modifies luma
    ensures luma[..] == LumaOf(r)
  {
    assert |LumaOf(r)| == h * w && Done(luma, LumaOf(r), 0 * w);
    hide *;
    for y := 0 to h
      invariant Done(luma, LumaOf(r), y * w)
    {
      NextRow(y, w);
      ScaleLumaRow(src, r, luma, w, h, mirror, flip, y, y * w);
    }
    AllDone(luma, LumaOf(r), h * w);
  }

  method ScaleChroma(src: Image, ghost r: Image, chroma: array<byte>, w: nat, h: nat, mirror: bool, flip: bool)
    requires WellFormed(src) && src.format == Nv12 && src.width > 0 && src.height > 0
    requires r == ScaledNv12(src, w, h, mirror, flip) && chroma.Length == Half(w) * Half(h) * 2
    modifies chroma
    ensures chroma[..] == ChromaOf(r)
  {
    var cw, ch := Half(w), Half(h);
    assert |ChromaOf(r)| == ch * cw * 2 && Done(chroma, ChromaOf(r), 0 * cw * 2);
    hide *;
    for cy := 0 to ch
      invariant Done(chroma, ChromaOf(r), cy * cw * 2)
    {
      NextRow(cy, cw);
      ScaleChromaRow(src, r, chroma, w, h, mirror, flip, cy, cy * cw * 2);
    }
    AllDone(chroma, ChromaOf(r), ch * cw * 2);
  }

  /** `scale` */
  method ScaleLoop(img: Image, w: nat, h: nat, mirror: bool, flip: bool) returns (r: Image)
    requires WellFormed(img) && img.width > 0 && img.height > 0
    ensures r == Scale(img, w, h, mirror, flip)
  {
    if img.width == w && img.height == h && !mirror && !flip {
      return img;
    }
    var src := ToNv12Loop(img);
    var luma := new byte[w * h](_ => 0);
    var chroma := new byte[Half(w) * Half(h) * 2](_ => 0);
    ghost var want := ScaledNv12(src, w, h, mirror, flip);
    hide WellFormed, LumaOf, ChromaOf, ScaledNv12, Half, ToNv12, FromNv12, Convert, FrameSize;
    ScaleLuma(src, want, luma, w, h, mirror, flip);
    ScaleChroma(src, want, chroma, w, h, mirror, flip);
    BothPlanes(want);
    SameFormat(want);
    r := ConvertLoop(Image(Nv12, w, h, luma[..] + chroma[..], src.pts), img.format);
  }
}
