/** What the calls hand out and take in, in plain numbers. */
module Answers {
  import opened AccessUnits
  import opened Bytes
  import opened Encoder
  import opened Flow
  import opened FlowLaws
  import opened Images
  import opened Layouts
  import opened Mpi
  import opened Pattern
  import opened Scaling
  import opened Strides
  import Invariants
  import M = Machine
  import Pools

  // ---------------------------------------------------------------- groups

  /** The image has been scaled to the channel and turned as the channel is. */
  ghost predicate Rendered(src: Image, mid: Image, c: VpssChn) {
    && WellFormed(mid) && mid.format == Nv12 && mid.width == c.width && mid.height == c.height
    && Shows(src, mid, c.mirror, c.flip)
  }

  /** The queue with one more image, the oldest ones having made room in a queue of the
      channel's depth, or of one image if that is 0. */
  ghost predicate Queued(was: seq<Image>, now: seq<Image>, depth: nat) {
    var most := if depth > 1 then depth else 1;
    && |now| == (if |was| < most then |was| + 1 else most)
    && forall i :: 0 <= i < |now| - 1 ==> now[i] == was[|was| - (|now| - 1) + i]
  }

  /** A frame for a group: a channel that is disabled stays as it is. An enabled one gets the
      frame in its own size and format, with the frame's time stamp, at the end of its queue,
      and nothing else of it changes. */
  lemma ProcessAppends(g: VpssGrp, img: Image, c: int)
    requires GoodGrp(g) && GoodImage(img) && c in g.chns
    ensures c in Process(g, img).chns && Process(g, img).started == g.started
    ensures !g.chns[c].enabled ==> Process(g, img).chns[c] == g.chns[c]
    ensures g.chns[c].enabled ==>
      var (was, now) := (g.chns[c], Process(g, img).chns[c]);
      && now == was.(queue := now.queue) && Queued(was.queue, now.queue, was.depth) && now.queue != []
      && var out := now.queue[|now.queue| - 1];
         && out.format == was.format && out.width == was.width && out.height == was.height && out.pts == img.pts
         && exists mid :: Rendered(Convert(img, Nv12), mid, was) && out == Convert(mid, was.format)
  {
    var (was, now) := (g.chns[c], Process(g, img).chns[c]);
    assert GoodChn(was) && now == Fed(was, img);
    if was.enabled {
      OutputShows(was, img);
      PushKeeps(was.queue, was.depth, OutputOf(was, img));
    }
    hide Process, GoodImage, OutputOf, Rendered, Convert, Queued, Push;
  }

  lemma PushKeeps(was: seq<Image>, depth: nat, img: Image)
    ensures var now := Push(was, if depth == 0 then 1 else depth, img);
            Queued(was, now, depth) && now != [] && now[|now| - 1] == img
  {
    var most := if depth == 0 then 1 else depth;
    if |was| < most {
      assert Push(was, most, img) == was + [img];
    } else {
      assert Push(was, most, img) == was[|was| - (most - 1)..] + [img];
    }
    hide Push;
  }

  lemma OutputShows(c: VpssChn, img: Image)
    requires GoodChn(c) && GoodImage(img)
    ensures var out := OutputOf(c, img);
            && out.format == c.format && out.width == c.width && out.height == c.height && out.pts == img.pts
            && exists mid :: Rendered(Convert(img, Nv12), mid, c) && out == Convert(mid, c.format)
  {
    hide Convert, Scale, WellFormed, Shows, GoodImages;
    var src := Convert(img, Nv12);
    var mid := Scale(src, c.width, c.height, c.mirror, c.flip);
    ScaleShows(src, c.width, c.height, c.mirror, c.flip);
    assert Rendered(src, mid, c) && OutputOf(c, img) == Convert(mid, c.format);
  }

  // ---------------------------------------------------------------- cameras

  /** Luma at a pixel of an NV12 or YUYV image. */
  function PixelByte(img: Image, x: nat, y: nat): int {
    At(img.data, if img.format == Nv12 then y * img.width + x else y * ((img.width + 1) / 2 * 4) + 2 * x)
  }

  /** What a camera delivers has the size and format of its channel and the time since the
      epoch in whole microseconds. The channel counts its frames, and a frame in a format with
      its own luma shows the count in its first four pixels, over a gradient that moves. */
  lemma CameraFrame(s: State, now: nat, pipe: int, chn: int)
    requires Good(s) && PullVi(s, now, pipe, chn).outcome.Ready?
    ensures var (p, k) := (PullVi(s, now, pipe, chn), (pipe, chn));
            var img := p.outcome.image;
            && k in s.viChns && k in p.state.viChns && p.state.viChns[k].number == s.viChns[k].number + 1
            && img.width == s.viChns[k].width && img.height == s.viChns[k].height && img.format == s.viChns[k].format
            && img.pts == (if now < s.epoch then 0 else (now - s.epoch) / 1000)
            && (img.format != Rgb888 ==> ShowsPattern(img, s.viChns[k].number + 1))
  {
    hide Good, CheckViChn, Convert, PatternNv12, WellFormed, ShowsPattern;
    var (p, k) := (PullVi(s, now, pipe, chn), (pipe, chn));
    ChannelIsGood(s, k);
    var c := s.viChns[k];
    var pts := if now < s.epoch then 0 else (now - s.epoch) / 1000;
    assert p.outcome.image == TestPattern(c.format, c.width, c.height, c.number + 1, pts);
    PatternIn(c.format, c.width, c.height, c.number + 1, pts);
  }

  lemma ChannelIsGood(s: State, k: (int, int))
    requires Good(s) && k in s.viChns
    ensures GoodVi(s.viChns[k])
  {
    hide GoodVi, GoodGrp, GoodVenc;
  }

  /** The counter in the first four pixels, low byte first, and the gradient elsewhere. */
  ghost predicate PatternLuma(img: Image, counter: nat, x: nat, y: nat)
    requires x < img.width && y < img.height
  {
    var (i, b) := (y * img.width + x, PixelByte(img, x, y));
    if i == 0 then b == counter % 256
    else if i == 1 then b == counter / 256 % 256
    else if i == 2 then b == counter / 65536 % 256
    else if i == 3 then b == counter / 16777216 % 256
    else b == 16 + (x + y + counter * 4) * 219 / (img.width + img.height) % 220
  }

  ghost predicate ShowsPattern(img: Image, counter: nat) {
    forall x: nat, y: nat :: x < img.width && y < img.height ==> PatternLuma(img, counter, x, y)
  }

  lemma PatternIn(format: PixelFormat, w: nat, h: nat, counter: nat, pts: nat)
    requires Supported(format)
    ensures format != Rgb888 ==> ShowsPattern(TestPattern(format, w, h, counter, pts), counter)
  {
    hide PatternNv12, Convert, WellFormed;
    var img := TestPattern(format, w, h, counter, pts);
    var plain := PatternNv12(w, h, counter, pts);
    if format != Rgb888 {
      forall x: nat, y: nat | x < w && y < h
        ensures PatternLuma(img, counter, x, y)
      {
        PatternShows(w, h, counter, pts, x, y);
        if format == Nv12 {
          SameFormatIsSame(plain);
        } else {
          PlainSize(w, h, counter, pts);
          YuyvLumaOfNv12(plain, x, y);
        }
        hide At;
      }
    }
  }

  lemma PlainSize(w: nat, h: nat, counter: nat, pts: nat)
    ensures PatternNv12(w, h, counter, pts).width == w && PatternNv12(w, h, counter, pts).height == h
  {
  }

  /** So two frames in a row carry numbers in a row, modulo 2 to the 32nd. */
  lemma CameraCounts(s: State, now: nat, pipe: int, chn: int, later: nat)
    requires Good(s) && PullVi(s, now, pipe, chn).outcome.Ready?
    requires PullVi(PullVi(s, now, pipe, chn).state, later, pipe, chn).outcome.Ready?
    requires s.viChns[(pipe, chn)].width * s.viChns[(pipe, chn)].height >= 4 && s.viChns[(pipe, chn)].format != Rgb888
    ensures var p := PullVi(s, now, pipe, chn);
            var (img, next) := (p.outcome.image, PullVi(p.state, later, pipe, chn).outcome.image);
            && img.width > 0 && next.width > 0
            && CountIn(img) == (s.viChns[(pipe, chn)].number + 1) % 0x1_0000_0000
            && CountIn(next) == (s.viChns[(pipe, chn)].number + 2) % 0x1_0000_0000
  {
    var (p, k) := (PullVi(s, now, pipe, chn), (pipe, chn));
    SameChannel(s, now, pipe, chn);
    CameraFrame(s, now, pipe, chn);
    CameraFrame(p.state, later, pipe, chn);
    hide PullVi, Good, CountIn, ShowsPattern, WellFormed;
    CountIs(p.outcome.image, s.viChns[k].number + 1);
    CountIs(PullVi(p.state, later, pipe, chn).outcome.image, s.viChns[k].number + 2);
  }

  lemma SameChannel(s: State, now: nat, pipe: int, chn: int)
    requires Good(s) && PullVi(s, now, pipe, chn).outcome.Ready?
    ensures var (t, k) := (PullVi(s, now, pipe, chn).state, (pipe, chn));
            && Good(t) && k in s.viChns && k in t.viChns && t.viChns[k].format == s.viChns[k].format
            && t.viChns[k].width == s.viChns[k].width && t.viChns[k].height == s.viChns[k].height
            && s.viChns[k].width > 0 && s.viChns[k].height > 0
  {
    hide Good, CheckViChn, WellFormed;
    if (pipe, chn) in s.viChns {
      ChannelIsGood(s, (pipe, chn));
    }
  }

  /** The first four luma bytes as a number. */
  function CountIn(img: Image): int
    requires img.width > 0
  {
    PixelOf(img, 0) + 256 * PixelOf(img, 1) + 65536 * PixelOf(img, 2) + 16777216 * PixelOf(img, 3)
  }

  function PixelOf(img: Image, i: nat): int
    requires img.width > 0
  {
    PixelByte(img, i % img.width, i / img.width)
  }

  lemma CountIs(img: Image, n: nat)
    requires img.width > 0 && img.height > 0 && img.width * img.height >= 4 && ShowsPattern(img, n)
    ensures CountIn(img) == n % 0x1_0000_0000
  {
    hide PixelOf, ShowsPattern;
    PixelIs(img, n, 0);
    PixelIs(img, n, 1);
    PixelIs(img, n, 2);
    PixelIs(img, n, 3);
    FourBytes(n);
  }

  lemma FourBytes(n: nat)
    ensures n % 256 + 256 * (n / 256 % 256) + 65536 * (n / 65536 % 256) + 16777216 * (n / 16777216 % 256) == n % 0x1_0000_0000
  {
    var (a, b, c, d) := (n / 256, n / 65536, n / 16777216, n / 0x1_0000_0000);
    assert b == a / 256 && c == b / 256 && d == c / 256;
  }

  lemma PixelIs(img: Image, n: nat, i: nat)
    requires img.width > 0 && img.height > 0 && img.width * img.height >= 4 && i < 4
    requires ShowsPattern(img, n)
    ensures PixelOf(img, i)
         == (if i == 0 then n % 256 else if i == 1 then n / 256 % 256 else if i == 2 then n / 65536 % 256
             else n / 16777216 % 256)
  {
    CellOf(i, img.width, img.height);
    assert i / img.width * img.width + i % img.width == i;
    assert PatternLuma(img, n, i % img.width, i / img.width);
    hide PixelByte;
  }

  // ---------------------------------------------------------------- frames that are sent

  /** Equal bytes in two buffers. */
  predicate SameRow(a: seq<byte>, at: int, b: seq<byte>, from: int, len: nat) {
    0 <= at && at + len <= |a| && 0 <= from && from + len <= |b| && a[at..at + len] == b[from..from + len]
  }

  lemma {:induction false} CopiedRow(buf: seq<byte>, offset: nat, len: nat, stride: nat, rows: nat, row: nat)
    requires CopyRows(buf, offset, len, stride, rows).Some? && row < rows
    ensures SameRow(CopyRows(buf, offset, len, stride, rows).value, row * len, buf, offset + row * stride, len)
    decreases rows
  {
    CopyRowsFits(buf, offset, len, stride, rows);
    CopyRowsFits(buf, offset, len, stride, rows - 1);
    var (all, before) := (CopyRows(buf, offset, len, stride, rows).value, CopyRows(buf, offset, len, stride, rows - 1).value);
    if row < rows - 1 {
      CopiedRow(buf, offset, len, stride, rows - 1, row);
      assert all[..|before|] == before;
      assert all[row * len..row * len + len] == before[row * len..row * len + len];
    }
  }

  lemma RowBefore(a: seq<byte>, tail: seq<byte>, at: int, b: seq<byte>, from: int, len: nat)
    requires SameRow(a, at, b, from, len)
    ensures SameRow(a + tail, at, b, from, len)
  {
    assert (a + tail)[at..at + len] == a[at..at + len];
  }

  lemma RowBehind(head: seq<byte>, a: seq<byte>, at: int, b: seq<byte>, from: int, len: nat)
    requires SameRow(a, at, b, from, len)
    ensures SameRow(head + a, |head| + at, b, from, len)
  {
    assert (head + a)[|head| + at..|head| + at + len] == a[at..at + len];
  }

  /** A frame that is sent is read out of its block row by row, as far apart as the descriptor
      says, but never closer than the rows are long. */
  lemma ImportedRows(s: State, now: nat, f: VideoFrame, y: nat)
    requires ImportFrame(s, now, f).Ok?
    ensures f.mb in s.blocks
    ensures var (img, buf, w, h) := (ImportFrame(s, now, f).value, s.blocks[f.mb].data, f.width, f.height);
            var (vw, vh) := (if f.virWidth > w then f.virWidth else w, if f.virHeight > h then f.virHeight else h);
            match f.format
            case Nv12 =>
              && |img.data| == w * h + (w + 1) / 2 * ((h + 1) / 2) * 2
              && (y < h ==> SameRow(img.data, y * w, buf, y * vw, w))
              && (y < (h + 1) / 2 ==>
                    SameRow(img.data, w * h + y * ((w + 1) / 2 * 2), buf, vw * vh + y * ((vw + 1) / 2 * 2), (w + 1) / 2 * 2))
            case Yuyv =>
              && |img.data| == (w + 1) / 2 * 2 * h * 2
              && (y < h ==> SameRow(img.data, y * ((w + 1) / 2 * 4), buf, y * ((vw + 1) / 2 * 4), (w + 1) / 2 * 4))
            case Rgb888 =>
              |img.data| == w * h * 3 && (y < h ==> SameRow(img.data, y * (w * 3), buf, y * (vw * 3), w * 3))
            case Unsupported(_) => false
  {
    var (w, h) := (f.width, f.height);
    var (vw, vh) := (Max(f.virWidth, w), Max(f.virHeight, h));
    var buf := s.blocks[f.mb].data;
    var pts := if f.pts != 0 then f.pts else Micros(s, now);
    ImportedIsGood(s, now, f);
    hide Import, SameRow;
    match f.format
    case Nv12 => LumaRows(w, h, vw, vh, buf, pts, y); ChromaRows(w, h, vw, vh, buf, pts, y);
    case Yuyv => PackedRowsOf(Yuyv, w, h, vw, vh, buf, pts, y);
    case Rgb888 => PackedRowsOf(Rgb888, w, h, vw, vh, buf, pts, y);
    case Unsupported(_) =>
  }

  lemma LumaRows(w: nat, h: nat, vw: nat, vh: nat, buf: seq<byte>, pts: nat, y: nat)
    requires Import(Nv12, w, h, vw, vh, buf, pts).Some?
    ensures y < h ==> SameRow(Import(Nv12, w, h, vw, vh, buf, pts).value.data, y * w, buf, y * vw, w)
  {
    hide CopyRows, SameRow, Half;
    var (luma, chroma) := (CopyRows(buf, 0, w, vw, h).value, CopyRows(buf, vw * vh, Half(w) * 2, Half(vw) * 2, Half(h)).value);
    if y < h {
      CopiedRow(buf, 0, w, vw, h, y);
      RowBefore(luma, chroma, y * w, buf, y * vw, w);
    }
  }

  lemma ChromaRows(w: nat, h: nat, vw: nat, vh: nat, buf: seq<byte>, pts: nat, y: nat)
    requires Import(Nv12, w, h, vw, vh, buf, pts).Some?
    ensures y < Half(h) ==>
      SameRow(Import(Nv12, w, h, vw, vh, buf, pts).value.data, w * h + y * (Half(w) * 2),
              buf, vw * vh + y * (Half(vw) * 2), Half(w) * 2)
  {
    hide CopyRows, SameRow, Half;
    var (luma, chroma) := (CopyRows(buf, 0, w, vw, h).value, CopyRows(buf, vw * vh, Half(w) * 2, Half(vw) * 2, Half(h)).value);
    CopyRowsFits(buf, 0, w, vw, h);
    if y < Half(h) {
      CopiedRow(buf, vw * vh, Half(w) * 2, Half(vw) * 2, Half(h), y);
      RowBehind(luma, chroma, y * (Half(w) * 2), buf, vw * vh + y * (Half(vw) * 2), Half(w) * 2);
    }
  }

  lemma PackedRowsOf(format: PixelFormat, w: nat, h: nat, vw: nat, vh: nat, buf: seq<byte>, pts: nat, y: nat)
    requires Import(format, w, h, vw, vh, buf, pts).Some? && format != Nv12
    ensures var data := Import(format, w, h, vw, vh, buf, pts).value.data;
            y < h ==> if format == Yuyv then SameRow(data, y * (Half(w) * 4), buf, y * (Half(vw) * 4), Half(w) * 4)
                      else SameRow(data, y * (w * 3), buf, y * (vw * 3), w * 3)
  {
    hide CopyRows, SameRow, Half;
    if y < h {
      if format == Yuyv {
        CopiedRow(buf, 0, Half(w) * 4, Half(vw) * 4, h, y);
      } else {
        CopiedRow(buf, 0, w * 3, vw * 3, h, y);
      }
    }
  }

  /** What the import says of the frame as a whole, and when it refuses: the block or the
      format is not known, or the block ends before the last row of a plane. */
  lemma ImportedFrame(s: State, now: nat, f: VideoFrame)
    ensures ImportFrame(s, now, f).Ok? ==>
      var img := ImportFrame(s, now, f).value;
      && img.format == f.format && img.width == f.width && img.height == f.height
      && img.pts == (if f.pts != 0 then f.pts else if now < s.epoch then 0 else (now - s.epoch) / 1000)
    ensures ImportFrame(s, now, f).Err? ==> ImportFrame(s, now, f).error == IllegalParam
    ensures ImportFrame(s, now, f).Ok? <==>
      && f.mb in s.blocks
      && var (n, w, h) := (|s.blocks[f.mb].data|, f.width, f.height);
         var (vw, vh) := (if f.virWidth > w then f.virWidth else w, if f.virHeight > h then f.virHeight else h);
         match f.format
         case Nv12 =>
           h > 0 ==> (h - 1) * vw + w <= n && vw * vh + ((h + 1) / 2 - 1) * ((vw + 1) / 2 * 2) + (w + 1) / 2 * 2 <= n
         case Yuyv => h > 0 ==> (h - 1) * ((vw + 1) / 2 * 4) + (w + 1) / 2 * 4 <= n
         case Rgb888 => h > 0 ==> (h - 1) * (vw * 3) + w * 3 <= n
         case Unsupported(_) => false
  {
    if f.mb in s.blocks {
      var (w, h) := (f.width, f.height);
      var (vw, vh) := (Max(f.virWidth, w), Max(f.virHeight, h));
      var buf := s.blocks[f.mb].data;
      ImportFailsExactly(f.format, w, h, vw, vh, buf, if f.pts != 0 then f.pts else Micros(s, now));
    }
    hide Import, WellFormed;
  }

  /** So a frame that is laid out with the strides of its descriptor is taken in exactly. */
  lemma ImportFrameIsExact(s: State, now: nat, f: VideoFrame, img: Image, pad: nat -> byte, rest: seq<byte>)
    requires WellFormed(img) && img.width <= f.virWidth && img.height <= f.virHeight
    requires f.format == img.format && f.width == img.width && f.height == img.height
    requires f.mb in s.blocks && s.blocks[f.mb].data == Layout(img, f.virWidth, f.virHeight, pad) + rest
    ensures ImportFrame(s, now, f)
         == Ok(img.(pts := if f.pts != 0 then f.pts else if now < s.epoch then 0 else (now - s.epoch) / 1000))
  {
    ImportIsExact(img, f.virWidth, f.virHeight, pad, rest, if f.pts != 0 then f.pts else Micros(s, now));
    hide Import, Layout, WellFormed;
  }

  // ---------------------------------------------------------------- frames that are handed out

  /** A frame in a block of its own, which no pool owns: packed, described without padding, and
      with room for one and a half bytes per pixel. `count` is the number of the frame. */
  ghost predicate HandedOut(t: State, f: VideoFrame, img: Image, mb: Handle, count: nat) {
    && f.mb == mb && f.format == img.format && f.width == img.width && f.height == img.height
    && f.virWidth == img.width && f.virHeight == img.height && f.pts == img.pts && f.timeRef == count * 2
    && mb in t.blocks && t.blocks[mb].pool == None && img.data <= t.blocks[mb].data
    && var room := img.width * img.height * 3 / 2;
       |t.blocks[mb].data| == if |img.data| > room then |img.data| else room
  }

  lemma ViFrameHandedOut(s: State, now: nat, pipe: int, chn: int, mb: Handle)
    requires Good(s) && GetViFrame(s, now, pipe, chn, mb).1.Ok?
    ensures var (p, (t, r)) := (PullVi(s, now, pipe, chn), GetViFrame(s, now, pipe, chn, mb));
            && p.outcome.Ready? && (pipe, chn) in s.viChns
            && HandedOut(t, r.value, p.outcome.image, mb, s.viChns[(pipe, chn)].number + 1)
            && t.blocks == s.blocks[mb := t.blocks[mb]]
  {
    CameraFrame(s, now, pipe, chn);
    hide Good, PullVi, ShowsPattern;
  }

  lemma VpssFrameHandedOut(s: State, now: nat, g: int, c: int, mb: Handle)
    requires Good(s) && Ends(s, g, c) && GetVpssFrame(s, now, g, c, mb).1.Ok?
    ensures var (p, (t, r)) := (PullVpss(s, now, g, c), GetVpssFrame(s, now, g, c, mb));
            && p.outcome.Ready? && g in s.grps && c in s.grps[g].chns
            && HandedOut(t, r.value, p.outcome.image, mb, s.grps[g].chns[c].number + 1)
            && t.blocks == s.blocks[mb := t.blocks[mb]]
  {
    ReadyCounts(s, now, g, c);
    hide Good, Ends, PullVpss;
  }

  lemma ReadyCounts(s: State, now: nat, g: int, c: int)
    requires Good(s) && Ends(s, g, c) && PullVpss(s, now, g, c).outcome.Ready?
    ensures var t := PullVpss(s, now, g, c).state;
            && g in s.grps && c in s.grps[g].chns && g in t.grps && c in t.grps[g].chns
            && t.grps[g].chns[c].number == s.grps[g].chns[c].number + 1
  {
    ReadyMeans(s, now, g, c);
    EveryChannelGetsIt(s, now, g, c);
    hide Good, Ends, PullVpss, GoodImage, OutputOf, Fed, Tapped, GoodChn;
  }

  lemma PacketHandedOut(s: State, now: nat, v: int, mb: Handle)
    requires Good(s) && VencEnds(s, v) && Packs(s, v) && GetStream(s, now, v, mb).1.Ok?
    ensures var (t, r) := GetStream(s, now, v, mb);
            && v in s.vencs && v in t.vencs && r.value.mb == mb && r.value.number == s.vencs[v].number
            && t.vencs[v].number == s.vencs[v].number + 1 && t.vencs[v].outstanding == s.vencs[v].outstanding + 1
            && t.blocks == s.blocks[mb := Block(None, r.value.frame.data)]
  {
    PacksPulled(s, now, v);
    hide Good, VencEnds, Packs, PullVenc, PacketOf, Packable;
  }

  // ---------------------------------------------------------------- blocks of a pool

  /** A pool hands out a block exactly if it has blocks of the size left: fewer are live than
      it has. The block has the pool's size and is zero, and one more is live. */
  lemma PoolHandsOut(s: State, id: nat, size: nat, mb: Handle)
    requires Pools.PoolsOk(s) && mb !in s.blocks
    ensures var (t, ok) := GetMB(s, id, size, mb);
            && (ok <==> id in s.pools && size <= s.pools[id].blkSize && |Pools.Tagged(s.blocks, id)| < s.pools[id].count)
            && (ok ==>
                  && mb in t.blocks && t.blocks == s.blocks[mb := t.blocks[mb]] && t.blocks[mb].pool == Some(id)
                  && |t.blocks[mb].data| == s.pools[id].blkSize
                  && (forall i :: 0 <= i < |t.blocks[mb].data| ==> t.blocks[mb].data[i] == 0)
                  && |Pools.Tagged(t.blocks, id)| == |Pools.Tagged(s.blocks, id)| + 1)
            && (!ok ==> t == s)
  {
    var (t, ok) := GetMB(s, id, size, mb);
    if ok {
      Pools.TaggedAdd(s.blocks, mb, t.blocks[mb], id);
    }
    hide Pools.Tagged;
  }

  // ---------------------------------------------------------------- binds

  /** A bind to any channel of a group feeds the group, a bind to any device of an encoder
      channel feeds the channel: a pull goes to the source. A second bind is refused until the
      first is undone, which takes the same source and any such name of the sink. */
  lemma BindFeeds(s: State, src: Chn, dst: Chn, other: Chn)
    requires s.initialized && (dst.mod == Vpss || dst.mod == Venc)
    requires other.mod == dst.mod && (if dst.mod == Vpss then other.dev == dst.dev else other.chn == dst.chn)
    ensures var key := if dst.mod == Vpss then Chn(Vpss, dst.dev, 0) else Chn(Venc, 0, dst.chn);
            var (t, code) := Bind(s, src, dst);
            && (code == Success <==> key !in s.binds)
            && (code == Success ==>
                  && key in t.binds && t.binds[key] == src && Bind(t, src, other).1 == Exist
                  && UnBind(t, src, other) == (s, Success)
                  && forall wrong :: wrong != src ==> UnBind(t, wrong, other) == (t, Unexist))
            && (code != Success ==> code == Exist && t == s)
  {
    var key := Dst(dst);
    assert Dst(other) == key;
    if key !in s.binds {
      assert s.binds[key := src] - {key} == s.binds;
    }
  }

  // ---------------------------------------------------------------- encoder channels

  /** A new encoder channel makes packets of its codec and size from number 0 on, an IDR every
      30 packets unless it was told another distance. */
  lemma NewChannel(s: State, v: int, codec: Codec, format: PixelFormat, w: nat, h: nat, gop: nat, clip: Option<seq<Frame>>,
                   img: Image, number: nat)
    requires CreateVenc(s, v, Some(codec), format, w, h, gop, clip).1 == Success && img.data != []
    ensures var t := CreateVenc(s, v, Some(codec), format, w, h, gop, clip).0;
            && 0 <= v < 64 && v !in s.vencs && v in t.vencs && t.vencs[v].number == 0 && t.vencs[v].outstanding == 0
            && t.vencs[v].queue == [] && !t.vencs[v].started && t.vencs[v].clip == clip
            && var stream := t.vencs[v].stream;
               && stream.codec == codec && stream.width == w && stream.height == h && stream.gop > 0
               && (Encode(stream, img, number).idr <==> number % (if gop == 0 then 30 else gop) == 0)
  {
    hide Units;
  }

  // ---------------------------------------------------------------- time

  /** When the library was started, or last left. */
  function Epoch(now: nat, es: seq<M.Event>): nat {
    if es == [] then now
    else if es[|es| - 1].op == M.OnSys(M.Exit) then es[|es| - 1].now
    else Epoch(now, es[..|es| - 1])
  }

  /** Time stamps count from there, in every run. */
  lemma {:induction false} EpochIs(now: nat, fps: nat, es: seq<M.Event>)
    ensures M.Run(Fresh(now, fps), es).epoch == Epoch(now, es)
    decreases |es|
  {
    hide M.Next;
    if es != [] {
      var n := |es| - 1;
      EpochIs(now, fps, es[..n]);
      Invariants.InvAlways(now, fps, es[..n]);
      EpochKept(M.Run(Fresh(now, fps), es[..n]), es[n]);
    }
  }

  lemma EpochKept(s: State, e: M.Event)
    requires Good(s)
    ensures M.Next(s, e).epoch == if e.op == M.OnSys(M.Exit) then e.now else s.epoch
  {
    hide Good, M.SysEffect, M.MbEffect, M.ViEffect, M.VpssEffect, M.VencEffect, M.VpssLegal, M.VencLegal;
    if M.Legal(s, e) {
      match e.op
      case OnSys(op) => SysEpoch(s, op, e.now);
      case OnMb(op) => M.MbTouches(s, op);
      case OnVi(op) => M.ViTouches(s, op, e.now);
      case OnVpss(op) => M.VpssTouches(s, op, e.now);
      case OnVenc(op) => M.VencTouches(s, op, e.now);
    }
  }

  lemma SysEpoch(s: State, op: M.SysOp, now: nat)
    ensures M.SysEffect(s, op, now).epoch == if op.Exit? then now else s.epoch
  {
    if !op.Exit? {
      M.SysTouches(s, op, now);
      hide M.SysEffect;
    }
  }
}
