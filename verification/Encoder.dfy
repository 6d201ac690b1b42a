/** The fake encoder: synthetic access units made from a frame and a sequence number. */
module Encoder {
  import opened Bytes
  import opened AnnexB
  import opened AccessUnits
  import opened Images

  /** The attributes of an encoder channel that the packets depend on. */
  datatype Stream = Stream(codec: Codec, width: nat, height: nat, gop: nat)

  /** A byte that can neither form a start code nor need emulation prevention. */
  function PayloadByte(b: byte): byte {
    128 + b % 128
  }

  function Payload(bs: seq<byte>): (p: seq<byte>)
    ensures |p| == |bs|
    ensures forall i :: 0 <= i < |bs| ==> p[i] == PayloadByte(bs[i])
  {
    seq(|bs|, i requires 0 <= i < |bs| => PayloadByte(bs[i]))
  }

  /** The `k` low half-bytes of `v`, the most significant one first. */
  function Nibbles(v: nat, k: nat): (ns: seq<byte>)
    ensures |ns| == k
    ensures forall i :: 0 <= i < k ==> ns[i] < 16
  {
    if k == 0 then [] else Nibbles(v / 16, k - 1) + [(v % 16) as byte]
  }

  function LumaSample(img: Image, i: nat, n: nat): byte
    requires img.data != []
  {
    var len := |img.data|;
    var at := i * len / (if n == 0 then 1 else n);
    img.data[if at < len then at else len - 1]
  }

  function Samples(img: Image): (n: nat)
    ensures 16 <= n <= 64 * 1024
  {
    var n := img.width * img.height / 256;
    if n < 16 then 16 else if n > 64 * 1024 then 64 * 1024 else n
  }

  function Slice(img: Image, number: nat): (s: seq<byte>)
    requires img.data != []
    ensures |s| > 8 && s[..8] == Nibbles(number, 8)
  {
    var n := Samples(img);
    Nibbles(number, 8) + seq(n, i requires 0 <= i < n => LumaSample(img, i, n) / 2)
  }

  predicate IsKey(s: Stream, number: nat)
    requires s.gop > 0
  {
    number % s.gop == 0
  }

  /** A unit in the making: its header, and the bytes that go through `PayloadByte`. */
  datatype Part = Part(header: seq<byte>, body: seq<byte>)

  /** Parameter sets and an IDR slice at the start of each GOP, a lone P slice elsewhere. */
  function Parts(s: Stream, img: Image, number: nat): (ps: seq<Part>)
    requires s.gop > 0 && img.data != []
    ensures ps != []
  {
    var dims := Nibbles(s.width, 8) + Nibbles(s.height, 8);
    var slice := Slice(img, number);
    match (s.codec, IsKey(s, number))
    case (H264, true) => [Part([0x67], dims), Part([0x68], [0x4e]), Part([0x65], slice)]
    case (H264, false) => [Part([0x41], slice)]
    case (Hevc, true) => [Part([0x40, 0x01], [0x0c]), Part([0x42, 0x01], dims),
                          Part([0x44, 0x01], [0x41]), Part([0x26, 0x01], slice)]
    case (Hevc, false) => [Part([0x02, 0x01], slice)]
  }

  function Units(s: Stream, img: Image, number: nat): (us: seq<Nal>)
    requires s.gop > 0 && img.data != []
    ensures us != []
  {
    var ps := Parts(s, img, number);
    seq(|ps|, i requires 0 <= i < |ps| => ps[i].header + Payload(ps[i].body))
  }

  /** One packet: its bytes, and whether it is a key frame. */
  function Encode(s: Stream, img: Image, number: nat): Frame
    requires s.gop > 0 && img.data != []
  {
    Frame(Print(Units(s, img, number)), IsKey(s, number))
  }

  ghost predicate NoZeros(u: Nal) {
    forall i :: 0 <= i < |u| ==> u[i] != 0
  }

  ghost predicate Proper(codec: Codec, p: Part) {
    && |p.header| == (if codec.H264? then 1 else 2)
    && NoZeros(p.header)
    && p.body != []
  }

  lemma NoZerosGood(u: Nal)
    requires u != [] && NoZeros(u)
    ensures GoodUnit(u)
  {
  }

  /** The bytes behind the header of a unit are at least 0x80, so the unit survives
      printing, and if it is a slice it is the first one of its picture. */
  lemma ProperUnit(codec: Codec, p: Part)
    requires Proper(codec, p)
    ensures var u := p.header + Payload(p.body);
            GoodUnit(u) && InfoOf(codec, u) == InfoOf(codec, [p.header[0], 0x80, 0x80])
  {
    var u := p.header + Payload(p.body);
    assert NoZeros(u);
    NoZerosGood(u);
    assert u[|p.header|] == PayloadByte(p.body[0]);
  }

  lemma PartsAreProper(s: Stream, img: Image, number: nat)
    requires s.gop > 0 && img.data != []
    ensures forall i :: 0 <= i < |Parts(s, img, number)| ==> Proper(s.codec, Parts(s, img, number)[i])
  {
    hide Slice, Nibbles;
  }

  lemma PartKinds(s: Stream, img: Image, number: nat, i: nat)
    requires s.gop > 0 && img.data != [] && i < |Parts(s, img, number)|
    requires Parts(s, img, number)[i].header != []
    ensures var info := InfoOf(s.codec, [Parts(s, img, number)[i].header[0], 0x80, 0x80]);
            && info.Some?
            && (info.value.vcl <==> i == |Parts(s, img, number)| - 1)
            && (i == 0 ==> info.value.startsPicture)
            && (info.value.idr <==> i == |Parts(s, img, number)| - 1 && IsKey(s, number))
  {
    hide Slice, Nibbles;
  }

  lemma UnitKinds(s: Stream, img: Image, number: nat, i: nat)
    requires s.gop > 0 && img.data != [] && i < |Units(s, img, number)|
    ensures var us := Units(s, img, number);
            && GoodUnit(us[i]) && Readable(s.codec, us[i])
            && (Vcl(s.codec, us[i]) <==> i == |us| - 1)
            && (i == 0 ==> Starts(s.codec, us[i]))
            && (Idr(s.codec, us[i]) <==> i == |us| - 1 && IsKey(s, number))
  {
    PartsAreProper(s, img, number);
    PartKinds(s, img, number, i);
    hide InfoOf, Parts, IsKey, Payload, GoodUnit;
    ProperUnit(s.codec, Parts(s, img, number)[i]);
  }

  lemma UnitsFit(s: Stream, img: Image, number: nat)
    requires s.gop > 0 && img.data != []
    ensures Fit(s.codec, Units(s, img, number))
  {
    hide Units, GoodUnit, Readable;
    forall i | 0 <= i < |Units(s, img, number)|
      ensures GoodUnit(Units(s, img, number)[i]) && Readable(s.codec, Units(s, img, number)[i])
    {
      UnitKinds(s, img, number, i);
    }
  }

  /** A packet is one picture, it opens with a unit that starts a picture, and it holds an
      IDR slice exactly when it is a key frame. */
  lemma UnitsArePicture(s: Stream, img: Image, number: nat)
    requires s.gop > 0 && img.data != []
    ensures var us := Units(s, img, number);
            && OnePicture(s.codec, us) && OpensPicture(s.codec, us)
            && HasIdr(s.codec, us) == IsKey(s, number)
  {
    hide Units, GoodUnit, Readable, Vcl, Starts, Idr, IsKey;
    var us := Units(s, img, number);
    forall i | 0 <= i < |us|
      ensures Vcl(s.codec, us[i]) <==> i == |us| - 1
      ensures i == 0 ==> Starts(s.codec, us[i])
      ensures Idr(s.codec, us[i]) <==> i == |us| - 1 && IsKey(s, number)
    {
      UnitKinds(s, img, number, i);
    }
    assert Vcl(s.codec, us[|us| - 1]);
    assert IsKey(s, number) ==> Idr(s.codec, us[|us| - 1]);
  }

  /** What the encoder needs of its input: something to sample. */
  predicate AllNonempty(images: seq<Image>) {
    forall i :: 0 <= i < |images| ==> images[i].data != []
  }

  /** The packets of a whole run, numbered from 0. */
  function Packets(s: Stream, images: seq<Image>): (fs: seq<Frame>)
    requires s.gop > 0 && AllNonempty(images)
    ensures |fs| == |images|
    ensures forall i :: 0 <= i < |images| ==> fs[i] == Encode(s, images[i], i)
  {
    seq(|images|, i requires 0 <= i < |images| => Encode(s, images[i], i))
  }

  function RunUnits(s: Stream, images: seq<Image>): (us: seq<seq<Nal>>)
    requires s.gop > 0 && AllNonempty(images)
    ensures |us| == |images|
    ensures forall i :: 0 <= i < |images| ==> us[i] == Units(s, images[i], i)
  {
    seq(|images|, i requires 0 <= i < |images| => Units(s, images[i], i))
  }

  lemma RunUnitsSplit(s: Stream, images: seq<Image>)
    requires s.gop > 0 && AllNonempty(images)
    ensures AllFit(s.codec, RunUnits(s, images)) && AllPictures(s.codec, RunUnits(s, images))
    ensures OpenFrom(s.codec, RunUnits(s, images), 0)
    ensures forall i :: 0 <= i < |images| ==> HasIdr(s.codec, RunUnits(s, images)[i]) == IsKey(s, i)
  {
    hide Units, Fit, OnePicture, OpensPicture, HasIdr;
    forall i | 0 <= i < |images|
      ensures Fit(s.codec, RunUnits(s, images)[i]) && OnePicture(s.codec, RunUnits(s, images)[i])
      ensures OpensPicture(s.codec, RunUnits(s, images)[i])
      ensures HasIdr(s.codec, RunUnits(s, images)[i]) == IsKey(s, i)
    {
      UnitsFit(s, images[i], i);
      UnitsArePicture(s, images[i], i);
    }
  }

  lemma PacketsAreFrames(s: Stream, images: seq<Image>)
    requires s.gop > 0 && AllNonempty(images)
    ensures FramesOf(s.codec, RunUnits(s, images)) == Packets(s, images)
  {
    RunUnitsSplit(s, images);
    hide Units, Print, HasIdr, IsKey;
    var fs, ps := FramesOf(s.codec, RunUnits(s, images)), Packets(s, images);
    forall i | 0 <= i < |images|
      ensures fs[i] == ps[i]
    {
      assert fs[i] == FrameOf(s.codec, RunUnits(s, images)[i]);
    }
  }

  /** The splitter inverts the encoder: however many frames went in and whatever they
      showed, splitting the joined packets returns the packets, an IDR every GOP. */
  lemma SplitterInvertsEncoder(s: Stream, images: seq<Image>)
    requires s.gop > 0 && images != [] && AllNonempty(images)
    ensures SplitFrames(s.codec, Joined(Packets(s, images))) == Ok(Packets(s, images))
    ensures forall i :: 0 <= i < |images| ==> (Packets(s, images)[i].idr <==> i % s.gop == 0)
  {
    hide Units, Fit, OnePicture, OpensPicture, HasIdr, SplitFrames, Print;
    RunUnitsSplit(s, images);
    PacketsAreFrames(s, images);
    SplitOfPictures(s.codec, RunUnits(s, images));
  }

  // ---------------------------------------------------------------- sequence numbers

  function Pow16(k: nat): (p: nat)
    ensures p > 0
  {
    if k == 0 then 1 else 16 * Pow16(k - 1)
  }

  function ValueOf(ns: seq<byte>): nat {
    if ns == [] then 0 else ValueOf(ns[..|ns| - 1]) * 16 + (ns[|ns| - 1] % 16) as int
  }

  lemma {:induction false} NibblesRoundTrip(v: nat, k: nat, ns: seq<byte>)
    requires v < Pow16(k)
    requires |ns| == k && forall i :: 0 <= i < k ==> ns[i] % 16 == Nibbles(v, k)[i]
    ensures ValueOf(ns) == v
  {
    if k > 0 {
      assert Nibbles(v, k)[..k - 1] == Nibbles(v / 16, k - 1);
      NibblesRoundTrip(v / 16, k - 1, ns[..k - 1]);
      assert ns[k - 1] % 16 == (v % 16) as byte;
    }
  }

  /** Reads the frame number back out of a packet: it sits behind the header of the last unit. */
  function NumberOf(codec: Codec, packet: seq<byte>): nat {
    var us := NalUnits(packet);
    if us == [] then 0 else
    var u := us[|us| - 1];
    var at := if codec.H264? then 1 else 2;
    if |u| < at + 8 then 0 else ValueOf(u[at..at + 8])
  }

  lemma LastPartIsSlice(s: Stream, img: Image, number: nat)
    requires s.gop > 0 && img.data != []
    ensures var ps := Parts(s, img, number); ps[|ps| - 1].body == Slice(img, number)
  {
    hide Slice, Nibbles;
  }

  lemma SliceUnit(s: Stream, img: Image, number: nat)
    requires s.gop > 0 && img.data != []
    ensures var us := Units(s, img, number);
            var u := us[|us| - 1];
            var at := if s.codec.H264? then 1 else 2;
            |u| >= at + 8 && u[at..at + 8] == Payload(Nibbles(number, 8))
  {
    var ps := Parts(s, img, number);
    LastPartIsSlice(s, img, number);
    PartsAreProper(s, img, number);
    hide Parts, Nibbles, Slice;
    var p := ps[|ps| - 1];
    HeadOfPayload(p.header, p.body, Nibbles(number, 8));
  }

  lemma HeadOfPayload(header: seq<byte>, body: seq<byte>, head: seq<byte>)
    requires |head| <= |body| && body[..|head|] == head
    ensures (header + Payload(body))[|header|..|header| + |head|] == Payload(head)
  {
    assert forall i :: 0 <= i < |head| ==> head[i] == body[..|head|][i] == body[i];
  }

  lemma NumberInPayload(number: nat)
    requires number < 0x1_0000_0000
    ensures ValueOf(Payload(Nibbles(number, 8))) == number
  {
    var ns := Payload(Nibbles(number, 8));
    forall i | 0 <= i < 8
      ensures ns[i] % 16 == Nibbles(number, 8)[i]
    {
      PayloadKeepsNibble(Nibbles(number, 8)[i]);
    }
    hide Nibbles, Payload;
    assert Pow16(8) == 0x1_0000_0000 by {
      assert Pow16(4) == 0x1_0000;
    }
    NibblesRoundTrip(number, 8, ns);
  }

  lemma PayloadKeepsNibble(b: byte)
    requires b < 16
    ensures PayloadByte(b) % 16 == b
  {
  }

  /** Every packet carries its own 32-bit number, so no two packets of a run are equal. */
  lemma PacketCarriesItsNumber(s: Stream, img: Image, number: nat)
    requires s.gop > 0 && img.data != [] && number < 0x1_0000_0000
    ensures NumberOf(s.codec, Encode(s, img, number).data) == number
  {
    UnitsFit(s, img, number);
    ScanOfPrint(Units(s, img, number));
    SliceUnit(s, img, number);
    NumberInPayload(number);
    hide Units, Nibbles, GoodUnits, AllReadable, ValueOf, NalUnits, Print, Payload;
  }
}
