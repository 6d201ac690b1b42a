/** Nearest-neighbour scaling with mirror and flip, and its algebra. */
module Scaling {
  import opened Bytes
  import opened Images

  function SatDec(n: nat): nat {
    if n == 0 then 0 else n - 1
  }

  /** The source position that destination position `d` of `dn` takes its sample from. */
  function Pick(d: nat, dn: nat, sn: nat, rev: bool): (s: nat)
    ensures sn > 0 ==> s < sn
  {
    var at := d * sn / (if dn == 0 then 1 else dn);
    var s := if at < SatDec(sn) then at else SatDec(sn);
    if rev then SatDec(sn) - s else s
  }

  function ScaledByte(src: Image, w: nat, h: nat, mirror: bool, flip: bool, i: nat): byte
    requires WellFormed(src) && src.width > 0 && src.height > 0
    requires i < FrameSize(Nv12, w, h)
  {
    if i < w * h then
      var (x, y) := GridOf(i, w, h);
      Y(src, Pick(x, w, src.width, mirror), Pick(y, h, src.height, flip))
    else
      var (cx, cy, k) := BlockOf(i, w, h);
      C(src, Pick(cx, Half(w), Half(src.width), mirror), Pick(cy, Half(h), Half(src.height), flip), k)
  }

  function ScaledNv12(src: Image, w: nat, h: nat, mirror: bool, flip: bool): (r: Image)
    requires WellFormed(src) && src.width > 0 && src.height > 0
    ensures WellFormed(r) && r.format == Nv12
    ensures r.width == w && r.height == h && r.pts == src.pts
  {
    var n := FrameSize(Nv12, w, h);
    Image(Nv12, w, h, seq(n, i requires 0 <= i < n => ScaledByte(src, w, h, mirror, flip, i)), src.pts)
  }

  /** Scaling keeps the format; the work is done in NV12. */
  function Scale(img: Image, w: nat, h: nat, mirror: bool, flip: bool): (r: Image)
    requires WellFormed(img) && img.width > 0 && img.height > 0
    ensures WellFormed(r) && r.format == img.format
    ensures r.width == w && r.height == h && r.pts == img.pts
  {
    if img.width == w && img.height == h && !mirror && !flip then img
    else Convert(ScaledNv12(ToNv12(img), w, h, mirror, flip), img.format)
  }

  lemma ScaledSamples(src: Image, w: nat, h: nat, mirror: bool, flip: bool)
    requires WellFormed(src) && src.width > 0 && src.height > 0
    ensures var r := ScaledNv12(src, w, h, mirror, flip);
            && (forall x: nat, y: nat :: x < w && y < h ==>
                  Y(r, x, y) == Y(src, Pick(x, w, src.width, mirror), Pick(y, h, src.height, flip)))
            && (forall cx: nat, cy: nat, k: nat :: cx < Half(w) && cy < Half(h) && k < 2 ==>
                  C(r, cx, cy, k) == C(src, Pick(cx, Half(w), Half(src.width), mirror),
                                       Pick(cy, Half(h), Half(src.height), flip), k))
  {
    var r := ScaledNv12(src, w, h, mirror, flip);
    hide Pick;
    forall x: nat, y: nat | x < w && y < h
      ensures Y(r, x, y) == Y(src, Pick(x, w, src.width, mirror), Pick(y, h, src.height, flip))
    {
      ScaledLuma(src, w, h, mirror, flip, x, y);
    }
    forall cx: nat, cy: nat, k: nat | cx < Half(w) && cy < Half(h) && k < 2
      ensures C(r, cx, cy, k) == C(src, Pick(cx, Half(w), Half(src.width), mirror),
                                   Pick(cy, Half(h), Half(src.height), flip), k)
    {
      ScaledChroma(src, w, h, mirror, flip, cx, cy, k);
    }
  }

  lemma ScaledLuma(src: Image, w: nat, h: nat, mirror: bool, flip: bool, x: nat, y: nat)
    requires WellFormed(src) && src.width > 0 && src.height > 0 && x < w && y < h
    ensures Y(ScaledNv12(src, w, h, mirror, flip), x, y)
         == Y(src, Pick(x, w, src.width, mirror), Pick(y, h, src.height, flip))
  {
    GridOfCell(x, y, w, h);
    assert Y(ScaledNv12(src, w, h, mirror, flip), x, y)
        == ScaledByte(src, w, h, mirror, flip, Nv12Luma(x, y, w, h)) by { hide ScaledByte; }
    hide GridOf, Pick, Y;
  }

  lemma ScaledChroma(src: Image, w: nat, h: nat, mirror: bool, flip: bool, cx: nat, cy: nat, k: nat)
    requires WellFormed(src) && src.width > 0 && src.height > 0
    requires cx < Half(w) && cy < Half(h) && k < 2
    ensures C(ScaledNv12(src, w, h, mirror, flip), cx, cy, k)
         == C(src, Pick(cx, Half(w), Half(src.width), mirror), Pick(cy, Half(h), Half(src.height), flip), k)
  {
    BlockOfChroma(cx, cy, k, w, h);
    assert C(ScaledNv12(src, w, h, mirror, flip), cx, cy, k)
        == ScaledByte(src, w, h, mirror, flip, Nv12Chroma(cx, cy, k, w, h)) by { hide ScaledByte, BlockOf; }
    hide BlockOf, Nv12Chroma, Pick, C;
  }

  // ---------------------------------------------------------------- one axis

  lemma DivBound(a: nat, n: nat, q: nat)
    requires n > 0 && a < q * n
    ensures a / n < q
  {
    if a / n >= q { MulMono(q, a / n, n); }
  }

  lemma DivMono(a: nat, b: nat, n: nat)
    requires n > 0 && a <= b
    ensures a / n <= b / n
  {
    if a / n > b / n { MulMono(b / n + 1, a / n, n); }
  }

  /** The `min` in the map never bites: inside the destination the quotient is already in range. */
  lemma PickNeverClamps(d: nat, dn: nat, sn: nat)
    requires d < dn && sn > 0
    ensures d * sn / dn < sn && Pick(d, dn, sn, false) == d * sn / dn
  {
    assert d * sn < sn * dn by { MulMono(d + 1, dn, sn); }
    DivBound(d * sn, dn, sn);
  }

  lemma PickMonotone(d: nat, e: nat, dn: nat, sn: nat)
    requires d <= e < dn && sn > 0
    ensures Pick(d, dn, sn, false) <= Pick(e, dn, sn, false)
    ensures Pick(d, dn, sn, true) >= Pick(e, dn, sn, true)
  {
    MulMono(d, e, sn);
    DivMono(d * sn, e * sn, dn);
    PickNeverClamps(d, dn, sn);
    PickNeverClamps(e, dn, sn);
  }

  lemma PickSameSize(d: nat, n: nat, rev: bool)
    requires d < n
    ensures Pick(d, n, n, rev) == if rev then n - 1 - d else d
  {
    DivMod(d * n, n, d, 0);
  }

  /** Blowing an axis up by a whole factor and shrinking it back returns to every position. */
  lemma PickUpDown(d: nat, n: nat, m: nat)
    requires d < n && m > 0 && m % n == 0
    ensures Pick(Pick(d, n, m, false), m, n, false) == d
  {
    var q := m / n;
    assert m == q * n;
    assert d * m == (d * q) * n;
    DivMod(d * m, n, d * q, 0);
    PickNeverClamps(d, n, m);
    var e := Pick(d, n, m, false);
    assert e == d * q;
    assert e * n == d * m;
    DivMod(e * n, m, d, 0);
    PickNeverClamps(e, m, n);
  }

  /** Otherwise position 1 comes back as position 0. */
  lemma PickUpDownFails(n: nat, m: nat)
    requires n > 0 && m >= n && m % n != 0
    ensures n > 1 && Pick(Pick(1, n, m, false), m, n, false) == 0
  {
    PickNeverClamps(1, n, m);
    var e := Pick(1, n, m, false);
    assert e == m / n;
    assert e * n < m;
    PickNeverClamps(e, m, n);
    DivBound(e * n, m, 1);
  }

  lemma PickZero(dn: nat, sn: nat)
    ensures Pick(0, dn, sn, false) == 0
  {
  }

  // ---------------------------------------------------------------- mirror and flip

  lemma ScaleIsScaledNv12(img: Image, w: nat, h: nat, mirror: bool, flip: bool)
    requires WellFormed(img) && img.format == Nv12 && img.width > 0 && img.height > 0
    ensures Scale(img, w, h, mirror, flip) == ScaledNv12(img, w, h, mirror, flip)
  {
    SameFormat(img);
    if img.width == w && img.height == h && !mirror && !flip {
      var r := ScaledNv12(img, w, h, false, false);
      ScaledSamples(img, w, h, false, false);
      SameSizeSamples(img, r, false, false);
      hide Y, C, ScaledNv12;
      Nv12Extensional(r, img);
    }
  }

  function Turn(d: nat, n: nat, rev: bool): (t: nat)
    requires d < n
    ensures t < n
  {
    if rev then n - 1 - d else d
  }

  /** `r` is `img` with columns and rows turned round as told. */
  ghost predicate Turned(img: Image, r: Image, mirror: bool, flip: bool)
    requires WellFormed(img) && WellFormed(r)
  {
    && r.width == img.width && r.height == img.height
    && (forall x: nat, y: nat :: x < img.width && y < img.height ==>
          Y(r, x, y) == Y(img, Turn(x, img.width, mirror), Turn(y, img.height, flip)))
    && (forall cx: nat, cy: nat, k: nat :: cx < Half(img.width) && cy < Half(img.height) && k < 2 ==>
          C(r, cx, cy, k) == C(img, Turn(cx, Half(img.width), mirror), Turn(cy, Half(img.height), flip), k))
  }

  lemma SameSizeSamples(img: Image, r: Image, mirror: bool, flip: bool)
    requires WellFormed(img) && img.width > 0 && img.height > 0
    requires r == ScaledNv12(img, img.width, img.height, mirror, flip)
    ensures Turned(img, r, mirror, flip)
  {
    var (w, h) := (img.width, img.height);
    ScaledSamples(img, w, h, mirror, flip);
    hide Y, C, Pick, ScaledNv12;
    forall x: nat | x < w ensures Pick(x, w, w, mirror) == Turn(x, w, mirror) {
      PickSameSize(x, w, mirror);
    }
    forall y: nat | y < h ensures Pick(y, h, h, flip) == Turn(y, h, flip) {
      PickSameSize(y, h, flip);
    }
    forall x: nat | x < Half(w) ensures Pick(x, Half(w), Half(w), mirror) == Turn(x, Half(w), mirror) {
      PickSameSize(x, Half(w), mirror);
    }
    forall y: nat | y < Half(h) ensures Pick(y, Half(h), Half(h), flip) == Turn(y, Half(h), flip) {
      PickSameSize(y, Half(h), flip);
    }
  }

  /** At equal size mirror and flip compose as exclusive-or, odd sizes included; doing the
      same twice is doing nothing. */
  lemma TurnsCompose(img: Image, m: bool, f: bool, mm: bool, ff: bool)
    requires WellFormed(img) && img.format == Nv12 && img.width > 0 && img.height > 0
    ensures var (w, h) := (img.width, img.height);
            Scale(Scale(img, w, h, m, f), w, h, mm, ff) == Scale(img, w, h, m != mm, f != ff)
    ensures Scale(Scale(img, img.width, img.height, m, f), img.width, img.height, m, f) == img
  {
    var (w, h) := (img.width, img.height);
    var once := Scale(img, w, h, m, f);
    TurnsComposeOnce(img, once, m, f, mm, ff);
    TurnsComposeOnce(img, once, m, f, m, f);
    assert Scale(img, w, h, m != m, f != f) == img;
  }

  lemma TurnsComposeOnce(img: Image, once: Image, m: bool, f: bool, mm: bool, ff: bool)
    requires WellFormed(img) && img.format == Nv12 && img.width > 0 && img.height > 0
    requires once == Scale(img, img.width, img.height, m, f)
    ensures Scale(once, img.width, img.height, mm, ff) == Scale(img, img.width, img.height, m != mm, f != ff)
  {
    var (w, h) := (img.width, img.height);
    ScaleIsScaledNv12(img, w, h, m, f);
    ScaleIsScaledNv12(once, w, h, mm, ff);
    ScaleIsScaledNv12(img, w, h, m != mm, f != ff);
    var twice := Scale(once, w, h, mm, ff);
    var direct := Scale(img, w, h, m != mm, f != ff);
    hide Scale, ScaledNv12;
    SameSizeSamples(img, once, m, f);
    SameSizeSamples(once, twice, mm, ff);
    SameSizeSamples(img, direct, m != mm, f != ff);
    TurnedTwice(img, once, twice, direct, m, f, mm, ff);
    hide *;
    Nv12Extensional(twice, direct);
  }

  lemma TurnedTwice(img: Image, once: Image, twice: Image, direct: Image, m: bool, f: bool, mm: bool, ff: bool)
    requires WellFormed(img) && WellFormed(once) && WellFormed(twice) && WellFormed(direct)
    requires Turned(img, once, m, f) && Turned(once, twice, mm, ff)
    requires Turned(img, direct, m != mm, f != ff)
    ensures SameSamples(twice, direct)
  {
    hide Y, C, Turn;
    var (w, h) := (img.width, img.height);
    forall x: nat, y: nat | x < w && y < h
      ensures Y(twice, x, y) == Y(direct, x, y)
    {
      TurnTwice(x, w, mm, m);
      TurnTwice(y, h, ff, f);
    }
    forall cx: nat, cy: nat, k: nat | cx < Half(w) && cy < Half(h) && k < 2
      ensures C(twice, cx, cy, k) == C(direct, cx, cy, k)
    {
      TurnTwice(cx, Half(w), mm, m);
      TurnTwice(cy, Half(h), ff, f);
    }
  }

  lemma TurnTwice(d: nat, n: nat, a: bool, b: bool)
    requires d < n
    ensures Turn(Turn(d, n, a), n, b) == Turn(d, n, b != a)
  {
  }

  // ---------------------------------------------------------------- up and back

  /** Blowing every image of a size up `k` times and shrinking it back loses nothing. */
  ghost predicate UpDownIsIdentity(w: nat, h: nat, k: nat)
    requires w > 0 && h > 0 && k > 0
  {
    forall img: Image :: WellFormed(img) && img.format == Nv12 && img.width == w && img.height == h ==>
      UpDown(img, k) == img
  }

  function UpDown(img: Image, k: nat): Image
    requires WellFormed(img) && img.width > 0 && img.height > 0 && k > 0
  {
    MulAtLeast(k, img.width);
    MulAtLeast(k, img.height);
    Scale(Scale(img, k * img.width, k * img.height, false, false), img.width, img.height, false, false)
  }

  /** There and back along one axis. */
  function Again(d: nat, n: nat, m: nat): nat {
    Pick(Pick(d, n, m, false), m, n, false)
  }

  lemma UpDownSamples(img: Image, k: nat)
    requires WellFormed(img) && img.format == Nv12 && img.width > 0 && img.height > 0 && k > 0
    ensures var (w, h) := (img.width, img.height);
            var r := UpDown(img, k);
            && WellFormed(r) && r.format == Nv12 && r.width == w && r.height == h && r.pts == img.pts
            && (forall x: nat, y: nat :: x < w && y < h ==>
                  Y(r, x, y) == Y(img, Again(x, w, k * w), Again(y, h, k * h)))
            && (forall cx: nat, cy: nat, c: nat :: cx < Half(w) && cy < Half(h) && c < 2 ==>
                  C(r, cx, cy, c)
                  == C(img, Again(cx, Half(w), Half(k * w)), Again(cy, Half(h), Half(k * h)), c))
  {
    var (w, h) := (img.width, img.height);
    assert k * w > 0 && k * h > 0;
    var up := Scale(img, k * w, k * h, false, false);
    ScaleIsScaledNv12(img, k * w, k * h, false, false);
    ScaleIsScaledNv12(up, w, h, false, false);
    ScaledSamples(img, k * w, k * h, false, false);
    ScaledSamples(up, w, h, false, false);
    hide Y, C, Pick, Scale, ScaledNv12;
  }

  lemma UpDownSound(img: Image, k: nat)
    requires WellFormed(img) && img.format == Nv12 && img.width > 0 && img.height > 0 && k > 0
    requires Half(k * img.width) % Half(img.width) == 0
    requires Half(k * img.height) % Half(img.height) == 0
    ensures UpDown(img, k) == img
  {
    var (w, h) := (img.width, img.height);
    UpDownSamples(img, k);
    assert k * w > 0 && k * h > 0;
    AgainSame(w, k * w);
    AgainSame(h, k * h);
    AgainSame(Half(w), Half(k * w));
    AgainSame(Half(h), Half(k * h));
    hide Y, C, Again, UpDown;
    Nv12Extensional(UpDown(img, k), img);
  }

  lemma AgainSame(n: nat, m: nat)
    requires n > 0 && m > 0 && (m % n == 0 || exists k :: k > 0 && m == k * n)
    ensures forall d: nat :: d < n ==> Again(d, n, m) == d
  {
    if m % n != 0 {
      var k :| k > 0 && m == k * n;
      DivMod(m, n, k, 0);
    }
    forall d: nat | d < n
      ensures Again(d, n, m) == d
    {
      PickUpDown(d, n, m);
    }
  }

  /** An image that is black but for one chroma sample. */
  function Dot(w: nat, h: nat, cx: nat, cy: nat): (img: Image)
    requires cx < Half(w) && cy < Half(h)
    ensures WellFormed(img) && img.format == Nv12 && img.width == w && img.height == h
    ensures C(img, cx, cy, 0) == 1
  {
    var at := Nv12Chroma(cx, cy, 0, w, h);
    Image(Nv12, w, h, seq(FrameSize(Nv12, w, h), _ => 0)[at := 1], 0)
  }

  lemma DotElsewhere(w: nat, h: nat, cx: nat, cy: nat)
    requires cx < Half(w) && cy < Half(h) && (cx > 0 || cy > 0)
    ensures C(Dot(w, h, cx, cy), 0, 0, 0) == 0
  {
    BlockOfChroma(cx, cy, 0, w, h);
    BlockOfChroma(0, 0, 0, w, h);
    hide BlockOf, Nv12Chroma;
  }

  lemma MulAtLeast(k: nat, w: nat)
    requires k > 0
    ensures k * w >= w && Half(k * w) >= Half(w)
  {
  }

  /** Where the chroma plane does not grow by a whole factor, an image that is lost. */
  lemma UpDownLoses(w: nat, h: nat, k: nat) returns (img: Image)
    requires w > 0 && h > 0 && k > 0
    requires Half(k * w) % Half(w) != 0 || Half(k * h) % Half(h) != 0
    ensures WellFormed(img) && img.format == Nv12 && img.width == w && img.height == h
    ensures UpDown(img, k) != img
  {
    MulAtLeast(k, w);
    MulAtLeast(k, h);
    var cx, cy := 0, 0;
    if Half(k * w) % Half(w) != 0 {
      PickUpDownFails(Half(w), Half(k * w));
      PickZero(Half(h), Half(k * h));
      PickZero(Half(k * h), Half(h));
      cx := 1;
    } else {
      PickUpDownFails(Half(h), Half(k * h));
      PickZero(Half(w), Half(k * w));
      PickZero(Half(k * w), Half(w));
      cy := 1;
    }
    hide Pick, Half, Dot, C, UpDown;
    img := Dot(w, h, cx, cy);
    DotElsewhere(w, h, cx, cy);
    UpDownSamples(img, k);
    assert C(UpDown(img, k), cx, cy, 0) == C(img, 0, 0, 0);
  }

  /** Scaling up `k` times and back is the identity on all images of a size exactly when
      the chroma plane of the large image is a whole multiple of that of the small one. */
  lemma UpDownExactly(w: nat, h: nat, k: nat)
    requires w > 0 && h > 0 && k > 0
    ensures UpDownIsIdentity(w, h, k)
       <==> (Half(k * w) % Half(w) == 0 && Half(k * h) % Half(h) == 0)
  {
    if Half(k * w) % Half(w) == 0 && Half(k * h) % Half(h) == 0 {
      forall img: Image | WellFormed(img) && img.format == Nv12 && img.width == w && img.height == h
        ensures UpDown(img, k) == img
      {
        UpDownSound(img, k);
      }
    } else {
      var img := UpDownLoses(w, h, k);
    }
  }

  /** In particular it is for even sizes, */
  lemma EvenSizesScaleBack(w: nat, h: nat, k: nat)
    requires w > 0 && h > 0 && k > 0 && w % 2 == 0 && h % 2 == 0
    ensures UpDownIsIdentity(w, h, k)
  {
    UpDownExactly(w, h, k);
    EvenHalves(w, k);
    EvenHalves(h, k);
  }

  /** and it is not for a 3x1 image doubled. */
  lemma OddSizeLosesChroma()
    ensures !UpDownIsIdentity(3, 1, 2)
  {
    assert Half(3) == 2 && Half(2 * 3) == 3;
    hide *;
    UpDownExactly(3, 1, 2);
  }

  lemma EvenHalves(w: nat, k: nat)
    requires w > 0 && w % 2 == 0
    ensures Half(k * w) % Half(w) == 0
  {
    var v := w / 2;
    assert k * w == 2 * (k * v);
    assert Half(k * w) == k * v && Half(w) == v;
    DivMod(k * v, v, k, 0);
  }
}
