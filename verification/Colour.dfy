/** BT.601 limited-range colour conversion in integer arithmetic. */
module Colour {
  import opened Bytes

  /** `v.clamp(0, 255) as u8`; `>> 8` of the source is floor division by 256. */
  function Clamp(v: int): byte {
    if v < 0 then 0 else if v > 255 then 255 else v as byte
  }

  function Luma(r: int, g: int, b: int): int {
    (66 * r + 129 * g + 25 * b + 128) / 256 + 16
  }

  function Cb(r: int, g: int, b: int): int {
    (-38 * r - 74 * g + 112 * b + 128) / 256 + 128
  }

  function Cr(r: int, g: int, b: int): int {
    (112 * r - 94 * g - 18 * b + 128) / 256 + 128
  }

  datatype Triple = Triple(a: byte, b: byte, c: byte)

  function RgbToYuv(r: byte, g: byte, b: byte): Triple {
    var (r, g, b) := (r as int, g as int, b as int);
    Triple(Clamp(Luma(r, g, b)), Clamp(Cb(r, g, b)), Clamp(Cr(r, g, b)))
  }

  function Red(c: int, e: int): int {
    (298 * c + 409 * e + 128) / 256
  }

  function Green(c: int, d: int, e: int): int {
    (298 * c - 100 * d - 208 * e + 128) / 256
  }

  function Blue(c: int, d: int): int {
    (298 * c + 516 * d + 128) / 256
  }

  function YuvToRgb(y: byte, u: byte, v: byte): Triple {
    var (c, d, e) := (y as int - 16, u as int - 128, v as int - 128);
    Triple(Clamp(Red(c, e)), Clamp(Green(c, d, e)), Clamp(Blue(c, d)))
  }

  function Diff(a: byte, b: byte): nat {
    if a < b then (b - a) as nat else (a - b) as nat
  }

  /** The clamp in `rgb_to_yuv` is never needed: luma stays in 16..235 and chroma in
      16..240, the nominal ranges of section 2.5 of BT.601. */
  lemma ToYuvNeverClamps(r: byte, g: byte, b: byte)
    ensures var (ri, gi, bi) := (r as int, g as int, b as int);
            && 16 <= Luma(ri, gi, bi) <= 235
            && 16 <= Cb(ri, gi, bi) <= 240
            && 16 <= Cr(ri, gi, bi) <= 240
            && RgbToYuv(r, g, b).a as int == Luma(ri, gi, bi)
            && RgbToYuv(r, g, b).b as int == Cb(ri, gi, bi)
            && RgbToYuv(r, g, b).c as int == Cr(ri, gi, bi)
  {
  }

  /** Clamping moves a value towards any byte, never past it. */
  lemma ClampTowards(v: int, b: byte, n: nat)
    requires v - n <= b as int <= v + n
    ensures Diff(Clamp(v), b) <= n
  {
  }

  lemma RgbErrors(r: int, g: int, b: int)
    requires 0 <= r < 256 && 0 <= g < 256 && 0 <= b < 256
    ensures var (c, d, e) := (Luma(r, g, b) - 16, Cb(r, g, b) - 128, Cr(r, g, b) - 128);
            && Red(c, e) - 2 <= r <= Red(c, e) + 2
            && Green(c, d, e) - 2 <= g <= Green(c, d, e) + 2
            && Blue(c, d) - 3 <= b <= Blue(c, d) + 3
  {
  }

  /** A colour survives the trip to YUV and back up to 2 levels of red and green and 3 of blue. */
  lemma RgbRoundTrip(r: byte, g: byte, b: byte)
    ensures var t := RgbToYuv(r, g, b);
            var back := YuvToRgb(t.a, t.b, t.c);
            Diff(back.a, r) <= 2 && Diff(back.b, g) <= 2 && Diff(back.c, b) <= 3
  {
    var (ri, gi, bi) := (r as int, g as int, b as int);
    ToYuvNeverClamps(r, g, b);
    RgbErrors(ri, gi, bi);
    hide Luma, Cb, Cr, RgbToYuv, Red, Green, Blue, Clamp;
    var (c, d, e) := (Luma(ri, gi, bi) - 16, Cb(ri, gi, bi) - 128, Cr(ri, gi, bi) - 128);
    ClampTowards(Red(c, e), r, 2);
    ClampTowards(Green(c, d, e), g, 2);
    ClampTowards(Blue(c, d), b, 3);
  }

  /** A grey of legal luma survives the trip to RGB and back: its chroma exactly, its luma
      up to one level. */
  lemma GreyRoundTrip(y: byte)
    requires 16 <= y <= 235
    ensures var p := YuvToRgb(y, 128, 128);
            var back := RgbToYuv(p.a, p.b, p.c);
            Diff(back.a, y) <= 1 && back.b == 128 && back.c == 128
  {
    var v := (298 * (y as int - 16) + 128) / 256;
    assert 0 <= v <= 255;
    assert YuvToRgb(y, 128, 128) == Triple(v as byte, v as byte, v as byte);
  }
}
