/** The loops of `test_pattern`: the gradient, the chroma ramps, and the counter on top. */
module PatternLoops {
  import opened Bytes
  import opened ImageLoops
  import opened Images
  import opened Pattern

  /** The luma plane before the counter is written into it. */
  ghost function Gradient(w: nat, h: nat, counter: nat): (s: seq<byte>)
    ensures |s| == w * h
  {
    seq(w * h, i requires 0 <= i < w * h => Shade(w, h, counter, GridOf(i, w, h).0, GridOf(i, w, h).1))
  }

  lemma GradientAt(w: nat, h: nat, counter: nat, x: nat, y: nat, at: int)
    requires x < w && y < h && at == y * w
    ensures 0 <= at + x < |Gradient(w, h, counter)| && Gradient(w, h, counter)[at + x] == Shade(w, h, counter, x, y)
  {
    GridOfCell(x, y, w, h);
    hide GridOf, Shade;
  }

  method GradientRow(luma: array<byte>, w: nat, h: nat, counter: nat, y: nat, at: int)
    requires y < h && at == y * w && Done(luma, Gradient(w, h, counter), at)
    modifies luma
    ensures Done(luma, Gradient(w, h, counter), at + w)
  {
    hide *;
    for x := 0 to w
      invariant Done(luma, Gradient(w, h, counter), at + x)
    {
      GradientAt(w, h, counter, x, y, at);
      Put(luma, at + x, Shade(w, h, counter, x, y), Gradient(w, h, counter));
    }
  }

  method PaintGradient(luma: array<byte>, w: nat, h: nat, counter: nat)
    requires luma.Length == w * h
    modifies luma
    ensures luma[..] == Gradient(w, h, counter)
  {
    assert |Gradient(w, h, counter)| == h * w && Done(luma, Gradient(w, h, counter), 0 * w);
    hide *;
    for y := 0 to h
      invariant Done(luma, Gradient(w, h, counter), y * w)
    {
      NextRow(y, w);
      GradientRow(luma, w, h, counter, y, y * w);
    }
    AllDone(luma, Gradient(w, h, counter), h * w);
  }

  lemma RampAt(w: nat, h: nat, counter: nat, pts: nat, cx: nat, cy: nat, k: nat, at: int)
    requires cx < Half(w) && cy < Half(h) && k < 2 && at == cy * Half(w) * 2
    ensures var want := ChromaOf(PatternNv12(w, h, counter, pts));
            0 <= at + cx * 2 + k < |want|
            && want[at + cx * 2 + k] == if k == 0 then Ramp(cx, Half(w)) else Ramp(cy, Half(h))
  {
    var p := PatternNv12(w, h, counter, pts);
    ChromaOfAt(p, cx, cy, k, at);
    BlockOfChroma(cx, cy, k, w, h);
    assert C(p, cx, cy, k) == p.data[Nv12Chroma(cx, cy, k, w, h)] by { hide PatternNv12, Half, Nv12Chroma; }
    hide C, ChromaOf, BlockOf, Half, Nv12Chroma, Ramp, LeByte, Shade;
  }

  method RampRow(chroma: array<byte>, w: nat, h: nat, counter: nat, pts: nat, cy: nat, at: int)
    requires cy < Half(h) && at == cy * Half(w) * 2
    requires Done(chroma, ChromaOf(PatternNv12(w, h, counter, pts)), at)
    modifies chroma
    ensures Done(chroma, ChromaOf(PatternNv12(w, h, counter, pts)), at + Half(w) * 2)
  {
    ghost var want := ChromaOf(PatternNv12(w, h, counter, pts));
    hide *;
    for cx := 0 to Half(w)
      invariant Done(chroma, want, at + cx * 2)
    {
      RampAt(w, h, counter, pts, cx, cy, 0, at);
      RampAt(w, h, counter, pts, cx, cy, 1, at);
      PutPair(chroma, at + cx * 2, Ramp(cx, Half(w)), Ramp(cy, Half(h)), want);
    }
  }

  method PaintRamps(chroma: array<byte>, w: nat, h: nat, counter: nat, pts: nat)
    requires chroma.Length == Half(w) * Half(h) * 2
    modifies chroma
    ensures chroma[..] == ChromaOf(PatternNv12(w, h, counter, pts))
  {
    ghost var want := ChromaOf(PatternNv12(w, h, counter, pts));
    var cw, ch := Half(w), Half(h);
    assert |want| == ch * cw * 2 && Done(chroma, want, 0 * cw * 2);
    hide *;
    for cy := 0 to ch
      invariant Done(chroma, want, cy * cw * 2)
    {
      NextRow(cy, cw);
      RampRow(chroma, w, h, counter, pts, cy, cy * cw * 2);
    }
    AllDone(chroma, want, ch * cw * 2);
  }

  lemma UnderCounter(w: nat, h: nat, counter: nat, pts: nat, i: nat)
    requires i < w * h
    ensures var luma := LumaOf(PatternNv12(w, h, counter, pts));
            luma[i] == if i < 4 then LeByte(counter, i) else Gradient(w, h, counter)[i]
  {
    hide GridOf, Shade, LeByte, Ramp, BlockOf, Half;
  }

  /** Writes the four bytes of the counter over the first luma bytes, as far as there are any. */
  method WriteCounter(luma: array<byte>, w: nat, h: nat, counter: nat, ghost pts: nat)
    requires luma.Length == w * h && luma[..] == Gradient(w, h, counter)
    modifies luma
    ensures luma[..] == LumaOf(PatternNv12(w, h, counter, pts))
  {
    ghost var want := LumaOf(PatternNv12(w, h, counter, pts));
    ghost var under := Gradient(w, h, counter);
    forall i: nat | i < w * h
      ensures want[i] == if i < 4 then LeByte(counter, i) else under[i]
    {
      UnderCounter(w, h, counter, pts, i);
    }
    assert forall i :: 0 <= i < luma.Length ==> luma[i] == under[i];
    assert |want| == w * h;
    hide *;
    for i := 0 to 4
      invariant forall k :: 0 <= k < i && k < luma.Length ==> luma[k] == want[k]
      invariant forall k :: i <= k < luma.Length ==> luma[k] == under[k]
    {
      if i < luma.Length {
        luma[i] := LeByte(counter, i);
      }
    }
  }

  /** `test_pattern` */
  method TestPatternLoop(format: PixelFormat, w: nat, h: nat, counter: nat, pts: nat) returns (r: Image)
    requires Supported(format)
    ensures r == TestPattern(format, w, h, counter, pts)
  {
    var luma := new byte[w * h](_ => 0);
    var chroma := new byte[Half(w) * Half(h) * 2](_ => 0);
    hide Gradient, LumaOf, ChromaOf, PatternNv12, WellFormed, Convert, FrameSize, Half;
    PaintGradient(luma, w, h, counter);
    PaintRamps(chroma, w, h, counter, pts);
    WriteCounter(luma, w, h, counter, pts);
    PlanesOfPattern(w, h, counter, pts);
    r := ConvertLoop(Image(Nv12, w, h, luma[..] + chroma[..], pts), format);
  }

  lemma PlanesOfPattern(w: nat, h: nat, counter: nat, pts: nat)
    ensures var p := PatternNv12(w, h, counter, pts);
            p == Image(Nv12, w, h, LumaOf(p) + ChromaOf(p), pts)
  {
    var p := PatternNv12(w, h, counter, pts);
    BothPlanes(p);
    assert ToNv12(p) == p;
    hide LumaOf, ChromaOf;
  }
}
