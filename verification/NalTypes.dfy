/** What the headers of NAL units mean for the split, in the numbers of table 7-1 and section
    7.4.1.2.3 of H.264 and of table 7-1 and section 7.4.2.4.4 of H.265. */
module NalTypes {
  import opened Bytes
  import opened AnnexB
  import opened AccessUnits

  /** A stream of up to three units. */
  function Stream1(a: Nal): seq<byte> {
    [0, 0, 0, 1] + a
  }

  function Stream2(a: Nal, b: Nal): seq<byte> {
    [0, 0, 0, 1] + a + ([0, 0, 0, 1] + b)
  }

  function Stream3(a: Nal, b: Nal, c: Nal): seq<byte> {
    [0, 0, 0, 1] + a + ([0, 0, 0, 1] + b) + ([0, 0, 0, 1] + c)
  }

  lemma Prints(a: Nal, b: Nal, c: Nal)
    ensures Print([a]) == Stream1(a)
    ensures Print([a, b]) == Stream2(a, b)
    ensures Print([a, b, c]) == Stream3(a, b, c)
  {
    assert [a][1..] == [] && [b][1..] == [] && [c][1..] == [] && [a, b][1..] == [b] && [b, c][1..] == [c]
           && [a, b, c][1..] == [b, c];
    assert Print([a]) == [0, 0, 0, 1] + a && Print([b]) == [0, 0, 0, 1] + b && Print([c]) == [0, 0, 0, 1] + c;
    assert Print([b, c]) == [0, 0, 0, 1] + b + Print([c]);
  }

  // ---------------------------------------------------------------- pictures of few units

  lemma OneFrame(codec: Codec, group: seq<Nal>)
    requires Fit(codec, group) && OnePicture(codec, group) && HasIdr(codec, group)
    ensures SplitFrames(codec, Print(group)) == Ok([Frame(Print(group), true)])
  {
    hide Fit, OnePicture, HasIdr, SplitFrames, Print;
    var groups := [group];
    SplitOfPictures(codec, groups);
    JoinedIsPrinted(codec, groups);
    FlatOne(group);
    assert FramesOf(codec, groups) == [FrameOf(codec, group)];
  }

  lemma TwoFrames(codec: Codec, first: seq<Nal>, second: seq<Nal>)
    requires Fit(codec, first) && OnePicture(codec, first) && HasIdr(codec, first)
    requires Fit(codec, second) && OnePicture(codec, second) && OpensPicture(codec, second)
    ensures SplitFrames(codec, Print(first + second))
         == Ok([Frame(Print(first), true), Frame(Print(second), HasIdr(codec, second))])
  {
    hide Fit, OnePicture, OpensPicture, HasIdr, SplitFrames, Print;
    var groups := [first, second];
    SplitOfPictures(codec, groups);
    JoinedIsPrinted(codec, groups);
    assert [first, second] == [first] + [second];
    FlatAppend([first], [second]);
    FlatOne(first);
    FlatOne(second);
    assert FramesOf(codec, groups) == [FrameOf(codec, first), FrameOf(codec, second)];
  }

  // ---------------------------------------------------------------- H.264

  /** A stream of one unit: types 1 to 5 are slices, 5 is an IDR slice, and a slice needs
      the byte behind its header. */
  lemma H264Slices(u: Nal)
    requires GoodUnit(u)
    ensures SplitFrames(H264, Stream1(u))
         == if !(1 <= u[0] % 32 <= 5) then Err(NoPictures)
            else if |u| < 2 then Err(Truncated)
            else if u[0] % 32 == 5 then Ok([Frame(Stream1(u), true)])
            else Err(FirstNotIdr)
  {
    Lone(H264, u);
  }

  /** An IDR slice and another slice: the highest bit behind the header opens a picture. */
  lemma H264FirstSlice(a: Nal, b: Nal)
    requires GoodUnit(a) && |a| >= 2 && a[0] % 32 == 5
    requires GoodUnit(b) && |b| >= 2 && 1 <= b[0] % 32 <= 5
    ensures SplitFrames(H264, Stream2(a, b))
         == Ok(if b[1] >= 128 then [Frame(Stream1(a), true), Frame(Stream1(b), b[0] % 32 == 5)]
               else [Frame(Stream2(a, b), true)])
  {
    Pair(H264, a, b);
  }

  /** Between an IDR slice and a slice that opens a picture: units of types 6 to 9 and 14 to
      18 belong to the second picture, all others that are no slices to the first. */
  lemma H264Boundary(a: Nal, b: Nal, c: Nal)
    requires GoodUnit(a) && |a| >= 2 && a[0] % 32 == 5
    requires GoodUnit(b) && !(1 <= b[0] % 32 <= 5)
    requires GoodUnit(c) && |c| >= 2 && 1 <= c[0] % 32 <= 5 && c[1] >= 128
    ensures SplitFrames(H264, Stream3(a, b, c))
         == Ok(if b[0] % 32 in {6, 7, 8, 9, 14, 15, 16, 17, 18}
               then [Frame(Stream1(a), true), Frame(Stream2(b, c), c[0] % 32 == 5)]
               else [Frame(Stream2(a, b), true), Frame(Stream1(c), c[0] % 32 == 5)])
  {
    Between(H264, a, b, c);
  }

  // ---------------------------------------------------------------- H.265

  /** Types below 32 are slices, 16 to 21 are IDR slices for the purposes of a clip, and a
      slice needs the byte behind its header of two. */
  lemma HevcSlices(u: Nal)
    requires GoodUnit(u)
    ensures SplitFrames(Hevc, Stream1(u))
         == if u[0] / 2 % 64 >= 32 then Err(NoPictures)
            else if |u| < 3 then Err(Truncated)
            else if 16 <= u[0] / 2 % 64 <= 21 then Ok([Frame(Stream1(u), true)])
            else Err(FirstNotIdr)
  {
    Lone(Hevc, u);
  }

  lemma HevcFirstSlice(a: Nal, b: Nal)
    requires GoodUnit(a) && |a| >= 3 && 16 <= a[0] / 2 % 64 <= 21
    requires GoodUnit(b) && |b| >= 3 && b[0] / 2 % 64 < 32
    ensures SplitFrames(Hevc, Stream2(a, b))
         == Ok(if b[2] >= 128 then [Frame(Stream1(a), true), Frame(Stream1(b), 16 <= b[0] / 2 % 64 <= 21)]
               else [Frame(Stream2(a, b), true)])
  {
    Pair(Hevc, a, b);
  }

  /** Units of types 32 to 35, 39, 41 to 44 and 48 to 55 belong to the second picture. */
  lemma HevcBoundary(a: Nal, b: Nal, c: Nal)
    requires GoodUnit(a) && |a| >= 3 && 16 <= a[0] / 2 % 64 <= 21
    requires GoodUnit(b) && b[0] / 2 % 64 >= 32
    requires GoodUnit(c) && |c| >= 3 && c[0] / 2 % 64 < 32 && c[2] >= 128
    ensures SplitFrames(Hevc, Stream3(a, b, c))
         == Ok(if b[0] / 2 % 64 in {32, 33, 34, 35, 39, 41, 42, 43, 44, 48, 49, 50, 51, 52, 53, 54, 55}
               then [Frame(Stream1(a), true), Frame(Stream2(b, c), 16 <= c[0] / 2 % 64 <= 21)]
               else [Frame(Stream2(a, b), true), Frame(Stream1(c), 16 <= c[0] / 2 % 64 <= 21)])
  {
    Between(Hevc, a, b, c);
  }

  // ---------------------------------------------------------------- either codec

  lemma Lone(codec: Codec, u: Nal)
    requires GoodUnit(u)
    ensures SplitFrames(codec, Stream1(u))
         == if !Readable(codec, u) then Err(Truncated)
            else if !Vcl(codec, u) then Err(NoPictures)
            else if Idr(codec, u) then Ok([Frame(Stream1(u), true)])
            else Err(FirstNotIdr)
  {
    hide SplitFrames, Print, GoodUnit, InfoOf, NalUnits, IsSplit, GoodUnits, Stream1;
    var us := [u];
    Prints(u, u, u);
    assert us[0] == u;
    assert GoodUnits(us) by { OneGood(u); }
    ScanOfPrint(us);
    SplitFramesRefuses(codec, Stream1(u));
    SingleUnit(codec, u);
    if Readable(codec, u) && Vcl(codec, u) {
      if Idr(codec, u) {
        assert HasIdr(codec, us);
        OneFrame(codec, us);
      } else {
        LoneCut(codec, u);
      }
    }
  }

  lemma OneGood(u: Nal)
    requires GoodUnit(u)
    ensures GoodUnits([u])
  {
  }

  lemma LoneCut(codec: Codec, u: Nal)
    requires Vcl(codec, u)
    ensures IsSplit(codec, [u], [[u]], [])
  {
    hide InfoOf;
    SingleUnit(codec, u);
    FlatOne([u]);
    assert [u] == Flat([[u]]) + [];
  }

  lemma Pair(codec: Codec, a: Nal, b: Nal)
    requires GoodUnit(a) && Vcl(codec, a) && Idr(codec, a)
    requires GoodUnit(b) && Vcl(codec, b)
    ensures SplitFrames(codec, Stream2(a, b))
         == Ok(if Starts(codec, b) then [Frame(Stream1(a), true), Frame(Stream1(b), Idr(codec, b))]
               else [Frame(Stream2(a, b), true)])
  {
    Prints(a, b, b);
    Prints(b, b, b);
    hide SplitFrames, Print, GoodUnit, InfoOf, Stream1, Stream2;
    SingleUnit(codec, a);
    SingleUnit(codec, b);
    assert [a][0] == a && [b][0] == b && [a, b][0] == a && [a, b][1] == b;
    assert HasIdr(codec, [a]) && HasIdr(codec, [a, b]) && HasVcl(codec, [a, b]);
    assert HasIdr(codec, [b]) <==> Idr(codec, b);
    assert [a] + [b] == [a, b];
    if Starts(codec, b) {
      TwoFrames(codec, [a], [b]);
    } else {
      OneFrame(codec, [a, b]);
    }
  }

  lemma Between(codec: Codec, a: Nal, b: Nal, c: Nal)
    requires GoodUnit(a) && Vcl(codec, a) && Idr(codec, a)
    requires GoodUnit(b) && Readable(codec, b) && !Vcl(codec, b) && !Idr(codec, b)
    requires GoodUnit(c) && Vcl(codec, c) && Starts(codec, c)
    ensures SplitFrames(codec, Stream3(a, b, c))
         == Ok(if Starts(codec, b) then [Frame(Stream1(a), true), Frame(Stream2(b, c), Idr(codec, c))]
               else [Frame(Stream2(a, b), true), Frame(Stream1(c), Idr(codec, c))])
  {
    Prints(a, b, c);
    Prints(b, c, c);
    Prints(c, c, c);
    hide SplitFrames, Print, GoodUnit, InfoOf, Stream1, Stream2, Stream3;
    SingleUnit(codec, a);
    SingleUnit(codec, c);
    assert [a][0] == a && [c][0] == c && [a, b][0] == a && [a, b][1] == b && [b, c][0] == b && [b, c][1] == c;
    assert HasIdr(codec, [a]) && HasIdr(codec, [a, b]) && HasVcl(codec, [a, b]) && HasVcl(codec, [b, c]);
    assert (HasIdr(codec, [b, c]) <==> Idr(codec, c)) && (HasIdr(codec, [c]) <==> Idr(codec, c));
    assert [a] + [b, c] == [a, b, c] && [a, b] + [c] == [a, b, c];
    if Starts(codec, b) {
      TwoFrames(codec, [a], [b, c]);
    } else {
      TwoFrames(codec, [a, b], [c]);
    }
  }
}
