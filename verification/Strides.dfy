/** Reading a frame out of a buffer whose rows and planes may be padded. */
module Strides {
  import opened Bytes
  import opened Images
  import opened Ratio

  /** `copy_rows`: `rows` rows of `len` bytes, `stride` apart; `None` if one ends after the buffer. */
  function CopyRows(buf: seq<byte>, offset: nat, len: nat, stride: nat, rows: nat): Option<seq<byte>> {
    if rows == 0 then Some([]) else
    match CopyRows(buf, offset, len, stride, rows - 1)
    case None => None
    case Some(data) =>
      var start := offset + (rows - 1) * stride;
      if start + len <= |buf| then Some(data + buf[start..start + len]) else None
  }

  method CopyRowsLoop(buf: seq<byte>, offset: nat, len: nat, stride: nat, rows: nat)
    returns (r: Option<seq<byte>>)
    ensures r == CopyRows(buf, offset, len, stride, rows)
  {
    var data := [];
    for row := 0 to rows
      invariant CopyRows(buf, offset, len, stride, row) == Some(data)
    {
      var start := offset + row * stride;
      if start + len > |buf| {
        RowMissing(buf, offset, len, stride, row + 1, rows);
        return None;
      }
      data := data + buf[start..start + len];
    }
    r := Some(data);
  }

  lemma {:induction false} RowMissing(buf: seq<byte>, offset: nat, len: nat, stride: nat, row: nat, rows: nat)
    requires CopyRows(buf, offset, len, stride, row).None? && row <= rows
    ensures CopyRows(buf, offset, len, stride, rows).None?
  {
    if row < rows {
      RowMissing(buf, offset, len, stride, row, rows - 1);
    }
  }

  /** `Image::import` */
  function Import(format: PixelFormat, w: nat, h: nat, vw: nat, vh: nat, buf: seq<byte>, pts: nat): Option<Image> {
    match format
    case Nv12 =>
      (match CopyRows(buf, 0, w, vw, h)
       case None => None
       case Some(luma) =>
         match CopyRows(buf, vw * vh, Half(w) * 2, Half(vw) * 2, Half(h))
         case None => None
         case Some(chroma) => Some(Image(format, w, h, luma + chroma, pts)))
    case Yuyv =>
      (match CopyRows(buf, 0, Half(w) * 4, Half(vw) * 4, h)
       case None => None
       case Some(data) => Some(Image(format, w, h, data, pts)))
    case Rgb888 =>
      (match CopyRows(buf, 0, w * 3, vw * 3, h)
       case None => None
       case Some(data) => Some(Image(format, w, h, data, pts)))
    case Unsupported(_) => None
  }

  method ImportLoop(format: PixelFormat, w: nat, h: nat, vw: nat, vh: nat, buf: seq<byte>, pts: nat)
    returns (r: Option<Image>)
    ensures r == Import(format, w, h, vw, vh, buf, pts)
  {
    hide CopyRows;
    match format
    case Nv12 =>
      var luma := CopyRowsLoop(buf, 0, w, vw, h);
      if luma.None? {
        return None;
      }
      var chroma := CopyRowsLoop(buf, vw * vh, Half(w) * 2, Half(vw) * 2, Half(h));
      if chroma.None? {
        return None;
      }
      return Some(Image(format, w, h, luma.value + chroma.value, pts));
    case Yuyv =>
      var data := CopyRowsLoop(buf, 0, Half(w) * 4, Half(vw) * 4, h);
      return if data.None? then None else Some(Image(format, w, h, data.value, pts));
    case Rgb888 =>
      var data := CopyRowsLoop(buf, 0, w * 3, vw * 3, h);
      return if data.None? then None else Some(Image(format, w, h, data.value, pts));
    case Unsupported(_) =>
      return None;
  }

  /** Whether a plane lies inside a buffer: a matter of its last row. */
  predicate Fits(n: nat, offset: nat, len: nat, stride: nat, rows: nat) {
    rows > 0 ==> offset + (rows - 1) * stride + len <= n
  }

  lemma {:induction false} CopyRowsFits(buf: seq<byte>, offset: nat, len: nat, stride: nat, rows: nat)
    ensures var r := CopyRows(buf, offset, len, stride, rows);
            && (r.Some? <==> Fits(|buf|, offset, len, stride, rows))
            && (r.Some? ==> |r.value| == rows * len)
  {
    if rows > 0 {
      CopyRowsFits(buf, offset, len, stride, rows - 1);
      if Fits(|buf|, offset, len, stride, rows) {
        LastRow(|buf|, offset, len, stride, rows);
      }
      assert (rows - 1) * len + len == rows * len;
    }
  }

  lemma LastRow(n: nat, offset: nat, len: nat, stride: nat, rows: nat)
    requires rows > 0 && Fits(n, offset, len, stride, rows)
    ensures Fits(n, offset, len, stride, rows - 1)
  {
    if rows > 1 {
      assert (rows - 1) * stride == (rows - 2) * stride + stride;
    }
  }

  /** The import fails exactly for unknown formats and for buffers that end before the last
      row of a plane; what it returns is a well-formed image of the size asked for. */
  lemma ImportFailsExactly(format: PixelFormat, w: nat, h: nat, vw: nat, vh: nat, buf: seq<byte>, pts: nat)
    ensures Import(format, w, h, vw, vh, buf, pts).Some?
       <==> match format
            case Nv12 => Fits(|buf|, 0, w, vw, h) && Fits(|buf|, vw * vh, Half(w) * 2, Half(vw) * 2, Half(h))
            case Yuyv => Fits(|buf|, 0, Half(w) * 4, Half(vw) * 4, h)
            case Rgb888 => Fits(|buf|, 0, w * 3, vw * 3, h)
            case Unsupported(_) => false
    ensures var r := Import(format, w, h, vw, vh, buf, pts);
            r.Some? ==> WellFormed(r.value) && r.value.format == format
                        && r.value.width == w && r.value.height == h && r.value.pts == pts
  {
    CopyRowsFits(buf, 0, w, vw, h);
    CopyRowsFits(buf, vw * vh, Half(w) * 2, Half(vw) * 2, Half(h));
    CopyRowsFits(buf, 0, Half(w) * 4, Half(vw) * 4, h);
    CopyRowsFits(buf, 0, w * 3, vw * 3, h);
    SizeInRows(w, h);
    hide CopyRows, Fits, Half;
  }

  lemma SizeInRows(w: nat, h: nat)
    ensures FrameSize(Nv12, w, h) == h * w + Half(h) * (Half(w) * 2)
    ensures FrameSize(Yuyv, w, h) == h * (Half(w) * 4)
    ensures FrameSize(Rgb888, w, h) == h * (w * 3)
  {
    hide Half;
  }

  // ---------------------------------------------------------------- padded layouts

  /** `rows` rows of `len` bytes laid out as `virRows` rows of `stride` bytes; what fills the
      gaps is up to `pad`. */
  function LayRows(data: seq<byte>, len: nat, stride: nat, rows: nat, virRows: nat, pad: nat -> byte): (buf: seq<byte>)
    requires |data| == rows * len && len <= stride && rows <= virRows
    ensures |buf| == virRows * stride
  {
    seq(virRows * stride, i requires 0 <= i < virRows * stride => LaidByte(data, len, stride, rows, virRows, pad, i))
  }

  function LaidByte(data: seq<byte>, len: nat, stride: nat, rows: nat, virRows: nat, pad: nat -> byte, i: nat): byte
    requires |data| == rows * len && i < virRows * stride
  {
    var (k, row) := GridOf(i, stride, virRows);
    if row < rows && k < len then ByteAt(data, len, rows, row, k) else pad(i)
  }

  function ByteAt(data: seq<byte>, len: nat, rows: nat, row: nat, k: nat): byte
    requires |data| == rows * len && row < rows && k < len
  {
    Cell(k, row, len, rows);
    data[row * len + k]
  }

  lemma LaidAt(data: seq<byte>, len: nat, stride: nat, rows: nat, virRows: nat, pad: nat -> byte, row: nat, k: int)
    requires |data| == rows * len && len <= stride && rows <= virRows && row < rows && 0 <= k < len
    ensures 0 <= row * stride + k < virRows * stride && 0 <= row * len + k < |data|
    ensures LaidByte(data, len, stride, rows, virRows, pad, row * stride + k) == data[row * len + k]
  {
    MulMono(row + 1, virRows, stride);
    GridOfCell(k, row, stride, virRows);
    Cell(k, row, len, rows);
    hide GridOf;
  }

  lemma RowInside(row: nat, rows: nat, len: nat, at: int)
    requires row < rows && at == row * len
    ensures 0 <= at && at + len <= rows * len
  {
    MulMono(row + 1, rows, len);
  }

  /** Row `row` of the layout starts with row `row` of the data. */
  lemma LaidRow(data: seq<byte>, len: nat, stride: nat, rows: nat, virRows: nat, pad: nat -> byte,
                row: nat, at: int, to: int)
    requires |data| == rows * len && len <= stride && rows <= virRows && row < rows
    requires at == row * stride && to == row * len
    ensures 0 <= at && at + len <= virRows * stride && 0 <= to && to + len <= |data|
    ensures LayRows(data, len, stride, rows, virRows, pad)[at..at + len] == data[to..to + len]
  {
    var buf := LayRows(data, len, stride, rows, virRows, pad);
    assert forall i :: 0 <= i < |buf| ==> buf[i] == LaidByte(data, len, stride, rows, virRows, pad, i);
    RowInside(row, virRows, stride, at);
    RowInside(row, rows, len, to);
    hide *;
    var laid, was := buf[at..at + len], data[to..to + len];
    forall k | 0 <= k < len
      ensures laid[k] == was[k]
    {
      LaidAt(data, len, stride, rows, virRows, pad, row, k);
    }
  }

  /** Copying the rows of a layout returns the data, wherever the layout starts in the
      buffer and whatever fills its gaps. */
  lemma {:induction false} CopyOfLayout(buf: seq<byte>, data: seq<byte>, offset: nat, len: nat, stride: nat,
                                        rows: nat, virRows: nat, pad: nat -> byte, done: nat)
    requires |data| == rows * len && len <= stride && rows <= virRows && done <= rows
    requires offset + virRows * stride <= |buf|
    requires buf[offset..offset + virRows * stride] == LayRows(data, len, stride, rows, virRows, pad)
    ensures done * len <= |data|
    ensures CopyRows(buf, offset, len, stride, done) == Some(data[..done * len])
  {
    MulMono(done, rows, len);
    if done > 0 {
      CopyOfLayout(buf, data, offset, len, stride, rows, virRows, pad, done - 1);
      var at, to := (done - 1) * stride, (done - 1) * len;
      LaidRow(data, len, stride, rows, virRows, pad, done - 1, at, to);
      hide LayRows;
      Slice(buf, offset, virRows * stride, at, len);
      assert done * len == to + len;
      Extend(data, to, len);
    }
  }

  lemma Slice(buf: seq<byte>, offset: nat, n: nat, at: nat, len: nat)
    requires offset + n <= |buf| && at + len <= n
    ensures buf[offset..offset + n][at..at + len] == buf[offset + at..offset + at + len]
  {
    var s := buf[offset..offset + n][at..at + len];
    var t := buf[offset + at..offset + at + len];
    assert forall k :: 0 <= k < len ==> s[k] == t[k];
  }

  lemma Extend(data: seq<byte>, n: nat, len: nat)
    requires n + len <= |data|
    ensures data[..n] + data[n..n + len] == data[..n + len]
  {
  }

  function LumaBytes(img: Image): (data: seq<byte>)
    requires WellFormed(img) && img.format == Nv12
    ensures |data| == img.height * img.width
  {
    img.data[..img.height * img.width]
  }

  function ChromaBytes(img: Image): (data: seq<byte>)
    requires WellFormed(img) && img.format == Nv12
    ensures |data| == Half(img.height) * (Half(img.width) * 2)
  {
    PlaneSizes(img);
    img.data[img.height * img.width..]
  }

  lemma PlaneSizes(img: Image)
    requires WellFormed(img) && img.format == Nv12
    ensures |img.data| == img.height * img.width + Half(img.height) * (Half(img.width) * 2)
  {
    SizeInRows(img.width, img.height);
    hide FrameSize, Half;
  }

  /** A frame in memory, its rows `vw` pixels and its planes `vh` rows apart. */
  function Layout(img: Image, vw: nat, vh: nat, pad: nat -> byte): (buf: seq<byte>)
    requires WellFormed(img) && img.width <= vw && img.height <= vh
  {
    SizeInRows(img.width, img.height);
    var (w, h) := (img.width, img.height);
    match img.format
    case Nv12 =>
      LayRows(LumaBytes(img), w, vw, h, vh, pad)
      + LayRows(ChromaBytes(img), Half(w) * 2, Half(vw) * 2, Half(h), Half(vh), pad)
    case Yuyv => LayRows(img.data, Half(w) * 4, Half(vw) * 4, h, vh, pad)
    case Rgb888 => LayRows(img.data, w * 3, vw * 3, h, vh, pad)
  }

  /** Importing a frame laid out with any strides returns the frame, whatever the padding
      holds and whatever follows. */
  lemma ImportIsExact(img: Image, vw: nat, vh: nat, pad: nat -> byte, rest: seq<byte>, pts: nat)
    requires WellFormed(img) && img.width <= vw && img.height <= vh
    ensures Import(img.format, img.width, img.height, vw, vh, Layout(img, vw, vh, pad) + rest, pts)
         == Some(img.(pts := pts))
  {
    var (w, h) := (img.width, img.height);
    SizeInRows(w, h);
    match img.format
    case Nv12 => ImportNv12IsExact(img, vw, vh, pad, rest, pts);
    case Yuyv => CopyWhole(img.data, Half(w) * 4, Half(vw) * 4, h, vh, pad, [], rest);
    case Rgb888 => CopyWhole(img.data, w * 3, vw * 3, h, vh, pad, [], rest);
  }

  lemma CopyWhole(data: seq<byte>, len: nat, stride: nat, rows: nat, virRows: nat, pad: nat -> byte,
                  before: seq<byte>, rest: seq<byte>)
    requires |data| == rows * len && len <= stride && rows <= virRows
    ensures CopyRows(before + LayRows(data, len, stride, rows, virRows, pad) + rest, |before|, len, stride, rows)
         == Some(data)
    ensures before == [] ==>
              CopyRows(LayRows(data, len, stride, rows, virRows, pad) + rest, 0, len, stride, rows) == Some(data)
  {
    var laid := LayRows(data, len, stride, rows, virRows, pad);
    hide LayRows, CopyRows;
    Middle(before, laid, rest);
    CopyOfLayout(before + laid + rest, data, |before|, len, stride, rows, virRows, pad, rows);
    assert data[..rows * len] == data;
    if before == [] {
      assert before + laid + rest == laid + rest;
    }
  }

  lemma Middle(a: seq<byte>, b: seq<byte>, c: seq<byte>)
    ensures (a + b + c)[|a|..|a| + |b|] == b
  {
  }

  lemma ImportNv12IsExact(img: Image, vw: nat, vh: nat, pad: nat -> byte, rest: seq<byte>, pts: nat)
    requires WellFormed(img) && img.format == Nv12 && img.width <= vw && img.height <= vh
    ensures Import(Nv12, img.width, img.height, vw, vh, Layout(img, vw, vh, pad) + rest, pts)
         == Some(img.(pts := pts))
  {
    var (w, h) := (img.width, img.height);
    var cw, cvw, ch, cvh := Half(w) * 2, Half(vw) * 2, Half(h), Half(vh);
    var a, b := LumaBytes(img), ChromaBytes(img);
    assert cw <= cvw && ch <= cvh;
    hide *;
    PlanesAreAll(img);
    var luma, chroma := LayRows(a, w, vw, h, vh, pad), LayRows(b, cw, cvw, ch, cvh, pad);
    PlanesLaid(img, vw, vh, pad);
    CopyWhole(a, w, vw, h, vh, pad, [], chroma + rest);
    CopyWhole(b, cw, cvw, ch, cvh, pad, luma, rest);
    Regroup(luma, chroma, rest);
    PlanesImport(w, h, vw, vh, luma + chroma + rest, pts, a, b);
  }

  lemma PlanesAreAll(img: Image)
    requires WellFormed(img) && img.format == Nv12
    ensures LumaBytes(img) + ChromaBytes(img) == img.data
  {
    var n := img.height * img.width;
    PlaneSizes(img);
    assert img.data[..n] + img.data[n..] == img.data;
  }

  lemma PlanesLaid(img: Image, vw: nat, vh: nat, pad: nat -> byte)
    requires WellFormed(img) && img.format == Nv12 && img.width <= vw && img.height <= vh
    requires Half(img.width) * 2 <= Half(vw) * 2 && Half(img.height) <= Half(vh)
    ensures var luma := LayRows(LumaBytes(img), img.width, vw, img.height, vh, pad);
            && |luma| == vw * vh
            && Layout(img, vw, vh, pad) == luma + LayRows(ChromaBytes(img), Half(img.width) * 2, Half(vw) * 2,
                                                           Half(img.height), Half(vh), pad)
  {
    hide WellFormed, LayRows, Half, LumaBytes, ChromaBytes;
  }

  lemma PlanesImport(w: nat, h: nat, vw: nat, vh: nat, buf: seq<byte>, pts: nat, a: seq<byte>, b: seq<byte>)
    requires CopyRows(buf, 0, w, vw, h) == Some(a)
    requires CopyRows(buf, vw * vh, Half(w) * 2, Half(vw) * 2, Half(h)) == Some(b)
    ensures Import(Nv12, w, h, vw, vh, buf, pts) == Some(Image(Nv12, w, h, a + b, pts))
  {
    hide CopyRows, Half;
  }

  lemma Regroup(a: seq<byte>, b: seq<byte>, c: seq<byte>)
    ensures a + (b + c) == a + b + c
  {
  }

  // ---------------------------------------------------------------- big enough buffers

  /** A frame without padding is its own layout. */
  lemma PackedLayout(img: Image, pad: nat -> byte)
    requires WellFormed(img)
    ensures Layout(img, img.width, img.height, pad) == img.data
  {
    var (w, h) := (img.width, img.height);
    SizeInRows(w, h);
    match img.format
    case Nv12 =>
      PackedRows(LumaBytes(img), w, h, pad);
      PackedRows(ChromaBytes(img), Half(w) * 2, Half(h), pad);
      hide LayRows;
    case Yuyv => PackedRows(img.data, Half(w) * 4, h, pad);
    case Rgb888 => PackedRows(img.data, w * 3, h, pad);
  }

  lemma PackedRows(data: seq<byte>, len: nat, rows: nat, pad: nat -> byte)
    requires |data| == rows * len
    ensures LayRows(data, len, len, rows, rows, pad) == data
  {
    hide LaidByte;
    forall i: nat | i < rows * len
      ensures LaidByte(data, len, len, rows, rows, pad, i) == data[i]
    {
      PackedByte(data, len, rows, pad, i);
    }
  }

  lemma PackedByte(data: seq<byte>, len: nat, rows: nat, pad: nat -> byte, i: nat)
    requires |data| == rows * len && i < rows * len
    ensures LaidByte(data, len, len, rows, rows, pad, i) == data[i]
  {
    CellOfGrid(i, len, rows);
    hide GridOf;
  }

  /** A buffer of the computed frame size holds every frame of that size: the import of any
      such buffer with the strides that the wrapper gives succeeds. */
  lemma FrameBufferSuffices(format: PixelFormat, w: nat, h: nat, buf: seq<byte>, pts: nat)
    requires Supported(format) && w < 0x1_0000 && h < 0x1_0000
    requires FrameBufferSize(format, w, h).Some? && |buf| == FrameBufferSize(format, w, h).value
    ensures Import(format, w, h, w, h, buf, pts).Some?
  {
    FrameBufferSizeIs(format, w, h);
    ImportFailsExactly(format, w, h, w, h, buf, pts);
    EvenFrameIsLarger(format, w, h);
    PackedFits(format, w, h, |buf|);
    hide *;
  }

  lemma EvenFrameIsLarger(format: PixelFormat, w: nat, h: nat)
    requires Supported(format)
    ensures FrameSize(format, w, h) <= FrameSize(format, Align2(w), Align2(h))
  {
    assert w <= Align2(w) && h <= Align2(h) && Half(Align2(w)) == Half(w) && Half(Align2(h)) == Half(h);
    MulMono(w, Align2(w), h);
    MulMono(h, Align2(h), Align2(w));
    MulMono(h, Align2(h), Half(w));
    hide Half, Align2;
  }

  /** A packed frame fits into what is at least its size. */
  lemma PackedFits(format: PixelFormat, w: nat, h: nat, n: nat)
    requires Supported(format) && FrameSize(format, w, h) <= n
    ensures match format
            case Nv12 => Fits(n, 0, w, w, h) && Fits(n, w * h, Half(w) * 2, Half(w) * 2, Half(h))
            case Yuyv => Fits(n, 0, Half(w) * 4, Half(w) * 4, h)
            case Rgb888 => Fits(n, 0, w * 3, w * 3, h)
  {
    SizeInRows(w, h);
    PlaneFits(n, 0, w, h);
    PlaneFits(n, w * h, Half(w) * 2, Half(h));
    PlaneFits(n, 0, Half(w) * 4, h);
    PlaneFits(n, 0, w * 3, h);
    hide Fits, Half;
  }

  lemma PlaneFits(n: nat, offset: nat, len: nat, rows: nat)
    ensures offset + rows * len <= n ==> Fits(n, offset, len, len, rows)
  {
    if rows > 0 { assert rows * len == (rows - 1) * len + len; }
  }

  // ---------------------------------------------------------------- export

  /** The block that `export_frame` fills: at least one and a half bytes per pixel. */
  function Exported(img: Image): (buf: seq<byte>)
    ensures img.data <= buf
  {
    var n := img.width * img.height * 3 / 2;
    img.data + (if n > |img.data| then seq(n - |img.data|, _ => 0) else [])
  }

  /** Importing what was exported gives the image back; the time stamp is up to the importer. */
  lemma ExportRoundTrip(img: Image, pts: nat)
    requires WellFormed(img)
    ensures Import(img.format, img.width, img.height, img.width, img.height, Exported(img), pts)
         == Some(img.(pts := pts))
  {
    var rest := Exported(img)[|img.data|..];
    assert Exported(img) == img.data + rest;
    hide Exported, Import, Layout;
    PackedLayout(img, _ => 0);
    ImportIsExact(img, img.width, img.height, _ => 0, rest, pts);
  }
}
