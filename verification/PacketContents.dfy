/** What can be read out of a synthetic packet: the picture, its number and the size. */
module PacketContents {
  import opened Bytes
  import opened AnnexB
  import opened AccessUnits
  import opened Encoder
  import opened Images

  /** Eight bytes from `at` on are the hexadecimal digits of `v`, the highest first, each with
      the top bit set. */
  predicate Digits(u: seq<byte>, at: nat, v: nat) {
    && at + 8 <= |u|
    && u[at] as int == 128 + v / 0x1000_0000 % 16
    && u[at + 1] as int == 128 + v / 0x100_0000 % 16
    && u[at + 2] as int == 128 + v / 0x10_0000 % 16
    && u[at + 3] as int == 128 + v / 0x1_0000 % 16
    && u[at + 4] as int == 128 + v / 0x1000 % 16
    && u[at + 5] as int == 128 + v / 0x100 % 16
    && u[at + 6] as int == 128 + v / 0x10 % 16
    && u[at + 7] as int == 128 + v % 16
  }

  lemma NibbleIs(v: nat)
    ensures var ns := Nibbles(v, 8);
            && ns[0] as int == v / 0x1000_0000 % 16 && ns[1] as int == v / 0x100_0000 % 16
            && ns[2] as int == v / 0x10_0000 % 16 && ns[3] as int == v / 0x1_0000 % 16
            && ns[4] as int == v / 0x1000 % 16 && ns[5] as int == v / 0x100 % 16
            && ns[6] as int == v / 0x10 % 16 && ns[7] as int == v % 16
  {
    NibbleAt(v, 8, 0);
    NibbleAt(v, 8, 1);
    NibbleAt(v, 8, 2);
    NibbleAt(v, 8, 3);
    NibbleAt(v, 8, 4);
    NibbleAt(v, 8, 5);
    NibbleAt(v, 8, 6);
    NibbleAt(v, 8, 7);
    hide Nibbles;
    PowersOf16();
  }

  lemma PowersOf16()
    ensures Pow16(0) == 1 && Pow16(1) == 0x10 && Pow16(2) == 0x100 && Pow16(3) == 0x1000 && Pow16(4) == 0x1_0000
    ensures Pow16(5) == 0x10_0000 && Pow16(6) == 0x100_0000 && Pow16(7) == 0x1000_0000
  {
    assert Pow16(2) == 0x100;
    assert Pow16(4) == 0x1_0000;
    assert Pow16(6) == 0x100_0000;
  }

  lemma {:induction false} NibbleAt(v: nat, k: nat, i: nat)
    requires i < k
    ensures Nibbles(v, k)[i] as int == v / Pow16(k - 1 - i) % 16
  {
    if i == k - 1 {
      assert v / 1 == v;
    } else {
      NibbleAt(v / 16, k - 1, i);
      DivTwice(v, 16, Pow16(k - 2 - i));
    }
  }

  lemma DivTwice(v: nat, a: nat, b: nat)
    requires a > 0 && b > 0
    ensures a * b > 0 && v / a / b == v / (a * b)
  {
    var (q, r) := (v / a, v % a);
    var (p, s) := (q / b, q % b);
    Whole(v, a, q, r);
    Whole(q, b, p, s);
    Spread(p, b, s, a);
    MulMono(s + 1, b, a);
    DivMod(v, a * b, p, s * a + r);
  }

  lemma Whole(v: nat, a: nat, q: nat, r: nat)
    requires a > 0 && q == v / a && r == v % a
    ensures v == q * a + r && r < a
  {
  }

  lemma Spread(p: nat, b: nat, s: nat, a: nat)
    ensures (p * b + s) * a == p * (a * b) + s * a && (s + 1) * a == s * a + a && b * a == a * b
  {
    assert (p * b) * a == p * (a * b);
  }

  /** The byte is half of the `i`-th of `n` samples spread evenly over the data. */
  predicate Sampled(b: byte, data: seq<byte>, i: nat, n: nat)
    requires data != [] && n > 0
  {
    var from := i * |data| / n;
    0 <= from && b as int == 128 + data[if from < |data| then from else |data| - 1] as int / 2
  }

  ghost predicate Thumbnail(bytes: seq<byte>, data: seq<byte>, n: nat)
    requires data != [] && n > 0
  {
    |bytes| == n && forall i :: 0 <= i < n ==> Sampled(bytes[i], data, i, n)
  }

  /** Reading a packet back: it is a parameter set with the size of the channel, the other
      parameter sets and an IDR slice at each multiple of the GOP, and a lone slice elsewhere.
      The slice has the packet's number and samples of the image, one for every 256 pixels but
      at least 16 and at most 65536. */
  lemma PacketReadsBack(s: Stream, img: Image, number: nat)
    requires s.gop > 0 && img.data != []
    ensures var us := NalUnits(Encode(s, img, number).data);
            if s.codec.H264? then
              if number % s.gop == 0 then
                && |us| == 3 && |us[0]| == 17 && us[0][0] == 0x67 && Digits(us[0], 1, s.width) && Digits(us[0], 9, s.height)
                && us[1] == [0x68, 0xce] && |us[2]| > 0 && us[2][0] == 0x65
              else |us| == 1 && |us[0]| > 0 && us[0][0] == 0x41
            else
              if number % s.gop == 0 then
                && |us| == 4 && us[0] == [0x40, 0x01, 0x8c]
                && |us[1]| == 18 && us[1][..2] == [0x42, 0x01] && Digits(us[1], 2, s.width) && Digits(us[1], 10, s.height)
                && us[2] == [0x44, 0x01, 0xc1] && |us[3]| > 2 && us[3][..2] == [0x26, 0x01]
              else |us| == 1 && |us[0]| > 2 && us[0][..2] == [0x02, 0x01]
    ensures var us := NalUnits(Encode(s, img, number).data);
            var at := if s.codec.H264? then 1 else 2;
            var area := img.width * img.height / 256;
            && us != [] && Digits(us[|us| - 1], at, number)
            && |us[|us| - 1]| >= at + 8
            && Thumbnail(us[|us| - 1][at + 8..], img.data, if area < 16 then 16 else if area > 65536 then 65536 else area)
  {
    hide *;
    Scanned(s, img, number);
    UnitsAre(s, img, number);
    LastUnit(s, img, number);
  }

  lemma Scanned(s: Stream, img: Image, number: nat)
    requires s.gop > 0 && img.data != []
    ensures NalUnits(Encode(s, img, number).data) == Units(s, img, number)
  {
    UnitsFit(s, img, number);
    hide Units, NalUnits, Print, GoodUnits, AllReadable;
    ScanOfPrint(Units(s, img, number));
  }

  lemma UnitsAre(s: Stream, img: Image, number: nat)
    requires s.gop > 0 && img.data != []
    ensures var us := Units(s, img, number);
            if s.codec.H264? then
              if number % s.gop == 0 then
                && |us| == 3 && |us[0]| == 17 && us[0][0] == 0x67 && Digits(us[0], 1, s.width) && Digits(us[0], 9, s.height)
                && us[1] == [0x68, 0xce] && |us[2]| > 0 && us[2][0] == 0x65
              else |us| == 1 && |us[0]| > 0 && us[0][0] == 0x41
            else
              if number % s.gop == 0 then
                && |us| == 4 && us[0] == [0x40, 0x01, 0x8c]
                && |us[1]| == 18 && us[1][..2] == [0x42, 0x01] && Digits(us[1], 2, s.width) && Digits(us[1], 10, s.height)
                && us[2] == [0x44, 0x01, 0xc1] && |us[3]| > 2 && us[3][..2] == [0x26, 0x01]
              else |us| == 1 && |us[0]| > 2 && us[0][..2] == [0x02, 0x01]
  {
    hide Nibbles, Digits, Slice;
    var dims := Nibbles(s.width, 8) + Nibbles(s.height, 8);
    SizeIsThere(s.width, s.height, [0x67]);
    SizeIsThere(s.width, s.height, [0x42, 0x01]);
    assert Payload([0x4e]) == [0xce] && Payload([0x0c]) == [0x8c] && Payload([0x41]) == [0xc1];
  }

  lemma SizeIsThere(width: nat, height: nat, header: seq<byte>)
    ensures var u := header + Payload(Nibbles(width, 8) + Nibbles(height, 8));
            |u| == |header| + 16 && Digits(u, |header|, width) && Digits(u, |header| + 8, height)
  {
    hide Nibbles, Digits, Payload;
    var (a, b) := (Nibbles(width, 8), Nibbles(height, 8));
    DigitsOf(width, header, b);
    DigitsOf(height, header + Payload(a), []);
    TwoPayloads(a, b);
    assert b + [] == b;
    assert (header + Payload(a)) + Payload(b) == header + Payload(a + b);
  }

  lemma TwoPayloads(a: seq<byte>, b: seq<byte>)
    ensures Payload(a + b) == Payload(a) + Payload(b)
  {
  }

  lemma PayloadAt(header: seq<byte>, body: seq<byte>, i: nat)
    requires i < |body|
    ensures (header + Payload(body))[|header| + i] == PayloadByte(body[i])
  {
  }

  lemma DigitsOf(v: nat, header: seq<byte>, rest: seq<byte>)
    ensures Digits(header + Payload(Nibbles(v, 8) + rest), |header|, v)
  {
    var body := Nibbles(v, 8) + rest;
    var u := header + Payload(body);
    NibbleIs(v);
    hide Nibbles, Payload;
    var bytes := u[|header|..];
    forall i | 0 <= i < 8
      ensures bytes[i] as int == 128 + Nibbles(v, 8)[i] as int
    {
      PayloadAt(header, body, i);
      assert body[i] == Nibbles(v, 8)[i];
    }
    assert u[|header|] == bytes[0];
  }

  lemma LastUnit(s: Stream, img: Image, number: nat)
    requires s.gop > 0 && img.data != []
    ensures var us := Units(s, img, number);
            var at := if s.codec.H264? then 1 else 2;
            var area := img.width * img.height / 256;
            && us != [] && Digits(us[|us| - 1], at, number)
            && |us[|us| - 1]| >= at + 8
            && Thumbnail(us[|us| - 1][at + 8..], img.data, if area < 16 then 16 else if area > 65536 then 65536 else area)
  {
    LastPartIsSlice(s, img, number);
    PartsAreProper(s, img, number);
    hide Parts, Nibbles, Slice, Thumbnail, Digits;
    var ps := Parts(s, img, number);
    var p := ps[|ps| - 1];
    SliceShows(p.header, img, number);
  }

  lemma SliceShows(header: seq<byte>, img: Image, number: nat)
    requires img.data != []
    ensures var u := header + Payload(Slice(img, number));
            var area := img.width * img.height / 256;
            && Digits(u, |header|, number)
            && Thumbnail(u[|header| + 8..], img.data, if area < 16 then 16 else if area > 65536 then 65536 else area)
  {
    var n := Samples(img);
    var samples := seq(n, i requires 0 <= i < n => LumaSample(img, i, n) / 2);
    assert Slice(img, number) == Nibbles(number, 8) + samples;
    hide Nibbles, LumaSample, Slice, Digits, Payload, Thumbnail;
    DigitsOf(number, header, samples);
    SamplesShow(header, Nibbles(number, 8), samples, img, n);
  }

  lemma SamplesShow(header: seq<byte>, head: seq<byte>, samples: seq<byte>, img: Image, n: nat)
    requires img.data != [] && n > 0 && |head| == 8 && |samples| == n
    requires forall i: nat :: i < n ==> samples[i] == LumaSample(img, i, n) / 2
    ensures Thumbnail((header + Payload(head + samples))[|header| + 8..], img.data, n)
  {
    var body := head + samples;
    var u := header + Payload(body);
    hide Payload, Sampled, LumaSample;
    var bytes := u[|header| + 8..];
    forall i | 0 <= i < n
      ensures Sampled(bytes[i], img.data, i, n)
    {
      PayloadAt(header, body, 8 + i);
      assert body[8 + i] == samples[i];
      SampleIs(img, i, n);
    }
  }

  lemma SampleIs(img: Image, i: nat, n: nat)
    requires img.data != [] && i < n
    ensures Sampled(PayloadByte(LumaSample(img, i, n) / 2), img.data, i, n)
  {
  }
}
