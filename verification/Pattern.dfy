/** The moving test pattern that the fake camera delivers. */
module Pattern {
  import opened Bytes
  import opened Images
  import opened Scaling

  /** Byte `i` of `v.to_le_bytes()` */
  function LeByte(v: nat, i: nat): byte {
    if i == 0 then (v % 256) as byte else LeByte(v / 256, i - 1)
  }

  function AtLeastOne(n: nat): (m: nat)
    ensures m > 0
  {
    if n == 0 then 1 else n
  }

  /** A ramp from 64 up to at most 191. */
  function Ramp(at: nat, n: nat): (b: byte)
    requires at < n
    ensures 64 <= b < 192
  {
    MulMono(at + 1, n, 128);
    DivBound(at * 128, n, 128);
    (64 + at * 128 / n) as byte
  }

  /** The gradient, which moves with the counter. */
  function Shade(w: nat, h: nat, counter: nat, x: nat, y: nat): byte {
    (16 + (x + y + counter * 4) * 219 / AtLeastOne(w + h) % 220) as byte
  }

  /** Luma: a diagonal gradient that moves with the counter, under the counter itself.
      Chroma: a ramp to the right and a ramp downwards. */
  function PatternByte(w: nat, h: nat, counter: nat, i: nat): byte
    requires i < FrameSize(Nv12, w, h)
  {
    if i < w * h then
      if i < 4 then LeByte(counter, i) else
      var (x, y) := GridOf(i, w, h);
      Shade(w, h, counter, x, y)
    else
      var (cx, cy, k) := BlockOf(i, w, h);
      if k == 0 then Ramp(cx, Half(w)) else Ramp(cy, Half(h))
  }

  function PatternNv12(w: nat, h: nat, counter: nat, pts: nat): (img: Image)
    ensures WellFormed(img) && img.format == Nv12
  {
    var n := FrameSize(Nv12, w, h);
    Image(Nv12, w, h, seq(n, i requires 0 <= i < n => PatternByte(w, h, counter, i)), pts)
  }

  /** `test_pattern` */
  function TestPattern(format: PixelFormat, w: nat, h: nat, counter: nat, pts: nat): (img: Image)
    requires Supported(format)
    ensures WellFormed(img) && img.format == format && img.width == w && img.height == h && img.pts == pts
  {
    Convert(PatternNv12(w, h, counter, pts), format)
  }

  function Pow256(n: nat): nat {
    if n == 0 then 1 else 256 * Pow256(n - 1)
  }

  lemma {:induction false} LeBytesDetermine(a: nat, b: nat, n: nat)
    requires a < Pow256(n) && b < Pow256(n)
    requires forall i: nat :: i < n ==> LeByte(a, i) == LeByte(b, i)
    ensures a == b
  {
    if n > 0 {
      forall i: nat | i < n - 1
        ensures LeByte(a / 256, i) == LeByte(b / 256, i)
      {
        assert LeByte(a, i + 1) == LeByte(b, i + 1);
      }
      LeBytesDetermine(a / 256, b / 256, n - 1);
      assert LeByte(a, 0) == LeByte(b, 0);
    }
  }

  /** No two counters give the same picture, in the formats that keep all of NV12. */
  lemma PatternCarriesCounter(format: PixelFormat, w: nat, h: nat, a: nat, b: nat, pts: nat)
    requires format == Nv12 || format == Yuyv
    requires w * h >= 4 && a < 0x1_0000_0000 && b < 0x1_0000_0000
    requires TestPattern(format, w, h, a, pts) == TestPattern(format, w, h, b, pts)
    ensures a == b
  {
    var p, q := PatternNv12(w, h, a, pts), PatternNv12(w, h, b, pts);
    assert p == q by {
      hide PatternNv12, Convert;
      if format == Yuyv {
        YuyvRoundTrip(p);
        YuyvRoundTrip(q);
      } else {
        NothingToConvert(p);
        NothingToConvert(q);
      }
    }
    forall i: nat | i < 4
      ensures LeByte(a, i) == LeByte(b, i)
    {
      assert p.data[i] == q.data[i];
    }
    hide PatternNv12, LeByte;
    assert Pow256(4) == 0x1_0000_0000 by { assert Pow256(2) == 0x1_0000; }
    LeBytesDetermine(a, b, 4);
  }

  lemma NothingToConvert(img: Image)
    requires WellFormed(img)
    ensures Convert(img, img.format) == img
  {
  }
}
