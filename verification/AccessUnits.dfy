/** Grouping NAL units into pictures: `split_frames` of the clip player. */
module AccessUnits {
  import opened Bytes
  import opened AnnexB

  datatype Codec = H264 | Hevc

  datatype Info = Info(vcl: bool, startsPicture: bool, idr: bool)

  /** One picture: its NAL units printed with four-byte start codes. */
  datatype Frame = Frame(data: seq<byte>, idr: bool)

  datatype SplitError = Truncated | NoPictures | FirstNotIdr

  /** Reads the header of a NAL unit (7.3.1 of H.264, 7.3.1.2 of H.265), and the bit that
      marks the first slice of a picture. `None` when the unit is too short for that. */
  function InfoOf(codec: Codec, nal: Nal): Option<Info> {
    if nal == [] then None else
    match codec
    case H264 =>
      var t := nal[0] % 32;
      if 1 <= t <= 5 then
        if |nal| < 2 then None else Some(Info(true, nal[1] >= 128, t == 5))
      else
        Some(Info(false, 6 <= t <= 9 || 14 <= t <= 18, false))
    case Hevc =>
      var t := nal[0] / 2 % 64;
      if t < 32 then
        if |nal| < 3 then None else Some(Info(true, nal[2] >= 128, 16 <= t <= 21))
      else
        Some(Info(false, 32 <= t <= 35 || t == 39 || 41 <= t <= 44 || 48 <= t <= 55, false))
  }

  predicate Readable(codec: Codec, nal: Nal) {
    InfoOf(codec, nal).Some?
  }

  predicate AllReadable(codec: Codec, us: seq<Nal>) {
    forall n :: 0 <= n < |us| ==> Readable(codec, us[n])
  }

  predicate Vcl(codec: Codec, nal: Nal) {
    Readable(codec, nal) && InfoOf(codec, nal).value.vcl
  }

  predicate Starts(codec: Codec, nal: Nal) {
    Readable(codec, nal) && InfoOf(codec, nal).value.startsPicture
  }

  predicate Idr(codec: Codec, nal: Nal) {
    Readable(codec, nal) && InfoOf(codec, nal).value.idr
  }

  predicate HasVcl(codec: Codec, us: seq<Nal>) {
    exists n :: 0 <= n < |us| && Vcl(codec, us[n])
  }

  predicate HasIdr(codec: Codec, us: seq<Nal>) {
    exists n :: 0 <= n < |us| && Idr(codec, us[n])
  }

  function FrameOf(codec: Codec, group: seq<Nal>): Frame {
    Frame(Print(group), HasIdr(codec, group))
  }

  function FramesOf(codec: Codec, groups: seq<seq<Nal>>): (f: seq<Frame>)
    ensures |f| == |groups|
    ensures forall n :: 0 <= n < |f| ==> f[n] == FrameOf(codec, groups[n])
  {
    if groups == [] then [] else [FrameOf(codec, groups[0])] + FramesOf(codec, groups[1..])
  }

  /** The bytes of all frames, one after the other. */
  function Joined(frames: seq<Frame>): seq<byte> {
    if frames == [] then [] else frames[0].data + Joined(frames[1..])
  }

  // ---------------------------------------------------------------- the declarative split

  /** Nothing that opens a picture behind a slice. */
  ghost predicate AtMostOnePicture(codec: Codec, us: seq<Nal>) {
    forall i, j :: 0 <= i < j < |us| && Vcl(codec, us[i]) ==> !Starts(codec, us[j])
  }

  ghost predicate OnePicture(codec: Codec, us: seq<Nal>) {
    HasVcl(codec, us) && AtMostOnePicture(codec, us)
  }

  ghost predicate AllPictures(codec: Codec, groups: seq<seq<Nal>>) {
    forall n :: 0 <= n < |groups| ==> OnePicture(codec, groups[n])
  }

  ghost predicate OpensPicture(codec: Codec, us: seq<Nal>) {
    us != [] && Starts(codec, us[0])
  }

  /** Every group from `from` on opens with a unit that starts a picture. */
  ghost predicate OpenFrom(codec: Codec, groups: seq<seq<Nal>>, from: nat) {
    forall n :: from <= n < |groups| ==> OpensPicture(codec, groups[n])
  }

  /** `us` cut into pictures, with a slice-less rest behind the last one. */
  ghost predicate IsSplit(codec: Codec, us: seq<Nal>, groups: seq<seq<Nal>>, rest: seq<Nal>) {
    && us == Flat(groups) + rest
    && AllPictures(codec, groups)
    && OpenFrom(codec, groups, 1)
    && !HasVcl(codec, rest)
    && (groups != [] && rest != [] ==> OpensPicture(codec, rest))
  }

  lemma FirstGroupIsPrefix(codec: Codec, us: seq<Nal>, g: seq<seq<Nal>>, r: seq<Nal>)
    requires IsSplit(codec, us, g, r) && g != []
    ensures |g[0]| <= |us| && us[..|g[0]|] == g[0]
    ensures us[|g[0]|..] == Flat(g[1..]) + r
  {
    assert us == g[0] + (Flat(g[1..]) + r);
  }

  lemma UnitBehindFirstGroup(codec: Codec, us: seq<Nal>, g: seq<seq<Nal>>, r: seq<Nal>)
    requires IsSplit(codec, us, g, r) && g != []
    requires |g[0]| < |us|
    ensures Starts(codec, us[|g[0]|])
  {
    FirstGroupIsPrefix(codec, us, g, r);
    var tail := Flat(g[1..]) + r;
    assert us[|g[0]|] == tail[0];
    if |g| > 1 {
      assert OpensPicture(codec, g[1]);
      assert g[1..][0] == g[1];
    }
  }

  /** Neither of two splits can have the shorter first group: the unit behind that group
      starts a picture, and the longer group would hold it behind a slice. */
  lemma FirstGroupNotShorter(codec: Codec, us: seq<Nal>,
                             g: seq<seq<Nal>>, r: seq<Nal>, h: seq<seq<Nal>>, q: seq<Nal>)
    requires IsSplit(codec, us, g, r) && IsSplit(codec, us, h, q)
    requires g != [] && h != []
    ensures |g[0]| >= |h[0]|
  {
    FirstGroupIsPrefix(codec, us, g, r);
    FirstGroupIsPrefix(codec, us, h, q);
    assert OnePicture(codec, g[0]) && OnePicture(codec, h[0]);
    var v :| 0 <= v < |g[0]| && Vcl(codec, g[0][v]);
    assert us[v] == us[..|g[0]|][v];
    assert forall n :: 0 <= n < |h[0]| ==> h[0][n] == us[..|h[0]|][n] == us[n];
    if |g[0]| < |h[0]| {
      UnitBehindFirstGroup(codec, us, g, r);
    }
  }

  lemma TailIsSplit(codec: Codec, us: seq<Nal>, g: seq<seq<Nal>>, r: seq<Nal>)
    requires IsSplit(codec, us, g, r) && g != []
    ensures |g[0]| <= |us| && us[..|g[0]|] == g[0]
    ensures IsSplit(codec, us[|g[0]|..], g[1..], r)
  {
    FirstGroupIsPrefix(codec, us, g, r);
  }

  lemma {:induction false} SplitIsUnique(codec: Codec, us: seq<Nal>,
                                         g: seq<seq<Nal>>, r: seq<Nal>, h: seq<seq<Nal>>, q: seq<Nal>)
    requires IsSplit(codec, us, g, r) && IsSplit(codec, us, h, q)
    ensures g == h && r == q
    decreases |g|
  {
    if g == [] || h == [] {
      OnlyTheEmptySplit(codec, us, g, r, h, q);
    } else {
      FirstGroupNotShorter(codec, us, g, r, h, q);
      FirstGroupNotShorter(codec, us, h, q, g, r);
      TailIsSplit(codec, us, g, r);
      TailIsSplit(codec, us, h, q);
      SplitIsUnique(codec, us[|g[0]|..], g[1..], r, h[1..], q);
      assert g == [g[0]] + g[1..] && h == [h[0]] + h[1..];
    }
  }

  lemma OnlyTheEmptySplit(codec: Codec, us: seq<Nal>,
                          g: seq<seq<Nal>>, r: seq<Nal>, h: seq<seq<Nal>>, q: seq<Nal>)
    requires IsSplit(codec, us, g, r) && IsSplit(codec, us, h, q)
    requires g == [] || h == []
    ensures g == h && r == q
  {
    assert g == [] ==> us == r;
    assert h == [] ==> us == q;
    if g != [] {
      VclOfFirstGroup(codec, us, g, r);
    } else if h != [] {
      VclOfFirstGroup(codec, us, h, q);
    }
  }

  lemma VclOfFirstGroup(codec: Codec, us: seq<Nal>, g: seq<seq<Nal>>, r: seq<Nal>)
    requires IsSplit(codec, us, g, r) && g != []
    ensures HasVcl(codec, us)
  {
    assert OnePicture(codec, g[0]);
    var v :| 0 <= v < |g[0]| && Vcl(codec, g[0][v]);
    assert us[v] == g[0][v];
  }

  // ---------------------------------------------------------------- the grouping loop

  /** What the loop carries: finished pictures, the one in the making, and whether that
      one has a slice yet. */
  datatype Grouping = Grouping(done: seq<seq<Nal>>, current: seq<Nal>, hasVcl: bool)

  function Step(codec: Codec, g: Grouping, nal: Nal): Grouping {
    if Starts(codec, nal) && g.hasVcl then
      Grouping(g.done + [g.current], [nal], Vcl(codec, nal))
    else
      Grouping(g.done, g.current + [nal], g.hasVcl || Vcl(codec, nal))
  }

  function Run(codec: Codec, g: Grouping, us: seq<Nal>): Grouping
    decreases |us|
  {
    if us == [] then g else Run(codec, Step(codec, g, us[0]), us[1..])
  }

  const EMPTY := Grouping([], [], false)

  function Finish(g: Grouping): seq<seq<Nal>> {
    if g.hasVcl then g.done + [g.current] else g.done
  }

  function Groups(codec: Codec, us: seq<Nal>): seq<seq<Nal>> {
    Finish(Run(codec, EMPTY, us))
  }

  function Judge(frames: seq<Frame>): Result<seq<Frame>, SplitError> {
    if frames == [] then Err(NoPictures)
    else if !frames[0].idr then Err(FirstNotIdr)
    else Ok(frames)
  }

  function SplitFrames(codec: Codec, data: seq<byte>): Result<seq<Frame>, SplitError> {
    var us := NalUnits(data);
    if AllReadable(codec, us) then Judge(FramesOf(codec, Groups(codec, us))) else Err(Truncated)
  }

  ghost predicate GroupingOf(codec: Codec, us: seq<Nal>, g: Grouping) {
    && us == Flat(g.done) + g.current
    && AllPictures(codec, g.done)
    && OpenFrom(codec, g.done, 1)
    && g.hasVcl == HasVcl(codec, g.current)
    && AtMostOnePicture(codec, g.current)
    && (g.done != [] ==> OpensPicture(codec, g.current))
  }

  lemma FlatPush<T>(parts: seq<seq<T>>, last: seq<T>)
    ensures Flat(parts + [last]) == Flat(parts) + last
  {
    FlatAppend(parts, [last]);
    FlatOne(last);
  }

  lemma GrowCurrent(codec: Codec, us: seq<Nal>, nal: Nal)
    requires AtMostOnePicture(codec, us)
    requires !(Starts(codec, nal) && HasVcl(codec, us))
    ensures AtMostOnePicture(codec, us + [nal])
    ensures HasVcl(codec, us + [nal]) <==> HasVcl(codec, us) || Vcl(codec, nal)
    ensures us != [] && OpensPicture(codec, us) ==> OpensPicture(codec, us + [nal])
  {
    var vs := us + [nal];
    forall n | 0 <= n < |us| ensures vs[n] == us[n] {}
    assert vs[|us|] == nal;
    if HasVcl(codec, us) {
      var v :| 0 <= v < |us| && Vcl(codec, us[v]);
      assert Vcl(codec, vs[v]);
    }
  }

  lemma AddPicture(codec: Codec, groups: seq<seq<Nal>>, picture: seq<Nal>)
    requires AllPictures(codec, groups) && OpenFrom(codec, groups, 1)
    requires OnePicture(codec, picture)
    requires groups != [] ==> OpensPicture(codec, picture)
    ensures AllPictures(codec, groups + [picture]) && OpenFrom(codec, groups + [picture], 1)
  {
  }

  lemma SingleUnit(codec: Codec, nal: Nal)
    ensures AtMostOnePicture(codec, [nal])
    ensures HasVcl(codec, [nal]) == Vcl(codec, nal)
    ensures OpensPicture(codec, [nal]) == Starts(codec, nal)
  {
    assert [nal][0] == nal;
  }

  lemma StepKeepsGrouping(codec: Codec, us: seq<Nal>, g: Grouping, nal: Nal)
    requires GroupingOf(codec, us, g)
    ensures GroupingOf(codec, us + [nal], Step(codec, g, nal))
  {
    if Starts(codec, nal) && g.hasVcl {
      hide HasVcl, AllPictures, AtMostOnePicture, OpenFrom;
      FlatPush(g.done, g.current);
      AddPicture(codec, g.done, g.current);
      SingleUnit(codec, nal);
      assert us + [nal] == Flat(g.done + [g.current]) + [nal];
    } else {
      hide HasVcl, AllPictures, AtMostOnePicture, OpenFrom;
      GrowCurrent(codec, g.current, nal);
      assert us + [nal] == Flat(g.done) + (g.current + [nal]);
    }
  }

  lemma {:induction false} RunKeepsGrouping(codec: Codec, seen: seq<Nal>, g: Grouping, us: seq<Nal>)
    requires GroupingOf(codec, seen, g)
    ensures GroupingOf(codec, seen + us, Run(codec, g, us))
    decreases |us|
  {
    hide GroupingOf;
    if us == [] {
      assert seen + us == seen;
    } else {
      StepKeepsGrouping(codec, seen, g, us[0]);
      RunKeepsGrouping(codec, seen + [us[0]], Step(codec, g, us[0]), us[1..]);
      assert seen + [us[0]] + us[1..] == seen + us;
    }
  }

  /** The units that end up in no frame. */
  function Rest(codec: Codec, us: seq<Nal>): seq<Nal> {
    var g := Run(codec, EMPTY, us);
    if g.hasVcl then [] else g.current
  }

  /** The loop computes the split, and the split is the only one there is. */
  lemma GroupsAreTheSplit(codec: Codec, us: seq<Nal>)
    ensures IsSplit(codec, us, Groups(codec, us), Rest(codec, us))
    ensures forall groups, rest :: IsSplit(codec, us, groups, rest) ==> groups == Groups(codec, us)
  {
    EmptyGrouping(codec);
    RunKeepsGrouping(codec, [], EMPTY, us);
    assert [] + us == us;
    var g := Run(codec, EMPTY, us);
    FinishIsSplit(codec, us, g);
    forall groups, rest | IsSplit(codec, us, groups, rest)
      ensures groups == Groups(codec, us)
    {
      SplitIsUnique(codec, us, groups, rest, Groups(codec, us), Rest(codec, us));
    }
  }

  lemma EmptyGrouping(codec: Codec)
    ensures GroupingOf(codec, [], EMPTY)
  {
  }

  lemma FinishIsSplit(codec: Codec, us: seq<Nal>, g: Grouping)
    requires GroupingOf(codec, us, g)
    ensures IsSplit(codec, us, Finish(g), if g.hasVcl then [] else g.current)
  {
    if g.hasVcl {
      FlatPush(g.done, g.current);
      AddPicture(codec, g.done, g.current);
      assert us == Flat(Finish(g)) + [];
    }
  }

  // ---------------------------------------------------------------- the method

  /** The loop of `split_frames`: one pass that prints as it groups. */
  method GroupFrames(codec: Codec, units: seq<Nal>) returns (result: Result<seq<Frame>, SplitError>)
    ensures result == if AllReadable(codec, units) then Ok(FramesOf(codec, Groups(codec, units)))
                      else Err(Truncated)
  {
    var frames: seq<Frame> := [];
    var current: Option<Frame> := None;
    var hasVcl := false;
    ghost var g := EMPTY;
    hide InfoOf, HasVcl, HasIdr, Print, FramesOf, Step, Run;
    for n := 0 to |units|
      invariant forall k :: 0 <= k < n ==> Readable(codec, units[k])
      invariant Run(codec, g, units[n..]) == Run(codec, EMPTY, units)
      invariant Mirrors(codec, g, frames, current, hasVcl)
    {
      var info := InfoOf(codec, units[n]);
      if info.None? {
        return Err(Truncated);
      }
      RunStep(codec, g, units, n);
      MirrorStep(codec, g, frames, current, hasVcl, units[n]);
      g := Step(codec, g, units[n]);
      if info.value.startsPicture && hasVcl {
        frames := frames + [current.value];
        current := None;
        hasVcl := false;
      }
      var frame := if current.Some? then current.value else Frame([], false);
      frame := Frame(frame.data + [0, 0, 0, 1] + units[n], frame.idr || info.value.idr);
      current := Some(frame);
      hasVcl := hasVcl || info.value.vcl;
    }
    assert units[|units|..] == [];
    RunDone(codec, g);
    FramesPush(codec, g.done, g.current);
    if hasVcl {
      frames := frames + [current.value];
    }
    return Ok(frames);
  }

  lemma RunStep(codec: Codec, g: Grouping, units: seq<Nal>, n: nat)
    requires n < |units|
    ensures Run(codec, g, units[n..]) == Run(codec, Step(codec, g, units[n]), units[n + 1..])
  {
    assert units[n..][0] == units[n] && units[n..][1..] == units[n + 1..];
  }

  lemma RunDone(codec: Codec, g: Grouping)
    ensures Run(codec, g, []) == g
  {
  }

  /** `split_frames`. */
  method Split(codec: Codec, data: seq<byte>) returns (result: Result<seq<Frame>, SplitError>)
    ensures result == SplitFrames(codec, data)
  {
    var units := ScanNalUnits(data);
    var grouped := GroupFrames(codec, units);
    if grouped.Err? {
      return grouped;
    }
    var frames := grouped.value;
    if |frames| == 0 {
      return Err(NoPictures);
    }
    if !frames[0].idr {
      return Err(FirstNotIdr);
    }
    return Ok(frames);
  }

  /** The loop's variables hold the printed form of a grouping. */
  ghost predicate Mirrors(codec: Codec, g: Grouping, frames: seq<Frame>,
                          current: Option<Frame>, hasVcl: bool)
  {
    && frames == FramesOf(codec, g.done)
    && current == (if g.current == [] then None else Some(FrameOf(codec, g.current)))
    && hasVcl == g.hasVcl
    && (g.hasVcl ==> g.current != [])
  }

  lemma FramesPush(codec: Codec, groups: seq<seq<Nal>>, group: seq<Nal>)
    ensures FramesOf(codec, groups + [group]) == FramesOf(codec, groups) + [FrameOf(codec, group)]
  {
  }

  lemma PrintPush(us: seq<Nal>, u: Nal)
    ensures Print(us + [u]) == Print(us) + [0, 0, 0, 1] + u
  {
    PrintAppend(us, [u]);
    assert [u][1..] == [];
    assert Print([u]) == [0, 0, 0, 1] + (u + []);
    assert u + [] == u;
    assert Print(us) + ([0, 0, 0, 1] + u) == Print(us) + [0, 0, 0, 1] + u;
  }

  lemma FramePush(codec: Codec, us: seq<Nal>, u: Nal)
    ensures FrameOf(codec, us + [u])
         == Frame(FrameOf(codec, us).data + [0, 0, 0, 1] + u, HasIdr(codec, us) || Idr(codec, u))
    ensures FrameOf(codec, []) == Frame([], false)
  {
    PrintPush(us, u);
    var vs := us + [u];
    assert forall n :: 0 <= n < |us| ==> vs[n] == us[n];
    assert vs[|us|] == u;
    if HasIdr(codec, us) {
      var v :| 0 <= v < |us| && Idr(codec, us[v]);
      assert Idr(codec, vs[v]);
    }
  }

  lemma MirrorStep(codec: Codec, g: Grouping, frames: seq<Frame>,
                   current: Option<Frame>, hasVcl: bool, nal: Nal)
    requires Mirrors(codec, g, frames, current, hasVcl) && Readable(codec, nal)
    ensures var cut := Starts(codec, nal) && hasVcl;
            var frames' := if cut then frames + [current.value] else frames;
            var frame := if cut || current.None? then Frame([], false) else current.value;
            var frame' := Frame(frame.data + [0, 0, 0, 1] + nal, frame.idr || Idr(codec, nal));
            Mirrors(codec, Step(codec, g, nal), frames', Some(frame'),
                    (if cut then false else hasVcl) || Vcl(codec, nal))
  {
    FramesPush(codec, g.done, g.current);
    FramePush(codec, [], nal);
    FramePush(codec, g.current, nal);
    assert [] + [nal] == [nal];
    hide HasIdr;
  }

  // ---------------------------------------------------------------- results

  /** `split_frames` accepts exactly the streams that can be cut into pictures, the first
      one an IDR, and returns exactly that cut. */
  lemma SplitFramesIsFaithful(codec: Codec, data: seq<byte>, frames: seq<Frame>)
    ensures SplitFrames(codec, data) == Ok(frames)
       <==> (AllReadable(codec, NalUnits(data))
             && exists groups, rest :: IsSplit(codec, NalUnits(data), groups, rest)
                  && groups != [] && HasIdr(codec, groups[0]) && frames == FramesOf(codec, groups))
  {
    GroupsAreTheSplit(codec, NalUnits(data));
  }

  /** When it refuses: a unit too short for its header, no slice at all, or a first
      picture that is not an IDR. */
  lemma SplitFramesRefuses(codec: Codec, data: seq<byte>)
    ensures var us := NalUnits(data);
            var r := SplitFrames(codec, data);
            && (r == Err(Truncated) <==> !AllReadable(codec, us))
            && (r == Err(NoPictures) <==> AllReadable(codec, us) && !HasVcl(codec, us))
            && (r == Err(FirstNotIdr) <==>
                (AllReadable(codec, us)
                 && exists groups, rest :: IsSplit(codec, us, groups, rest)
                      && groups != [] && !HasIdr(codec, groups[0])))
  {
    var us := NalUnits(data);
    GroupsAreTheSplit(codec, us);
    if Groups(codec, us) == [] {
      assert us == Rest(codec, us);
    } else {
      VclOfFirstGroup(codec, us, Groups(codec, us), Rest(codec, us));
    }
  }

  /** Units a printed stream gives back unchanged and the grouper can read. */
  ghost predicate Fit(codec: Codec, us: seq<Nal>) {
    GoodUnits(us) && AllReadable(codec, us)
  }

  ghost predicate AllFit(codec: Codec, groups: seq<seq<Nal>>) {
    forall n :: 0 <= n < |groups| ==> Fit(codec, groups[n])
  }

  lemma FitAppend(codec: Codec, a: seq<Nal>, b: seq<Nal>)
    ensures Fit(codec, a + b) <==> Fit(codec, a) && Fit(codec, b)
  {
    hide GoodUnit, Readable;
    var c := a + b;
    assert forall n :: 0 <= n < |a| ==> c[n] == a[n];
    assert forall n :: 0 <= n < |b| ==> c[|a| + n] == b[n];
    assert forall n :: |a| <= n < |c| ==> c[n] == b[n - |a|];
  }

  lemma {:induction false} FlatFit(codec: Codec, groups: seq<seq<Nal>>)
    ensures Fit(codec, Flat(groups)) <==> AllFit(codec, groups)
  {
    if groups != [] {
      hide Fit;
      FlatFit(codec, groups[1..]);
      FitAppend(codec, groups[0], Flat(groups[1..]));
      assert groups == [groups[0]] + groups[1..];
    }
  }

  lemma {:induction false} JoinedIsPrinted(codec: Codec, groups: seq<seq<Nal>>)
    ensures Joined(FramesOf(codec, groups)) == Print(Flat(groups))
  {
    if groups != [] {
      JoinedIsPrinted(codec, groups[1..]);
      PrintAppend(groups[0], Flat(groups[1..]));
      assert FramesOf(codec, groups)[1..] == FramesOf(codec, groups[1..]);
    }
  }

  /** Printing pictures and splitting the result gives the pictures back. */
  lemma SplitOfPictures(codec: Codec, groups: seq<seq<Nal>>)
    requires AllFit(codec, groups)
    requires AllPictures(codec, groups) && OpenFrom(codec, groups, 1)
    requires groups != [] && HasIdr(codec, groups[0])
    ensures SplitFrames(codec, Joined(FramesOf(codec, groups))) == Ok(FramesOf(codec, groups))
  {
    var us := Flat(groups);
    FlatFit(codec, groups);
    JoinedIsPrinted(codec, groups);
    ScanOfPrint(us);
    assert us + [] == us;
    assert IsSplit(codec, us, groups, []);
    GroupsAreTheSplit(codec, us);
  }

  lemma GroupsFit(codec: Codec, data: seq<byte>)
    requires AllReadable(codec, NalUnits(data))
    ensures AllFit(codec, Groups(codec, NalUnits(data)))
  {
    var us := NalUnits(data);
    UnitsAreGood(data);
    GroupsAreTheSplit(codec, us);
    FitAppend(codec, Flat(Groups(codec, us)), Rest(codec, us));
    FlatFit(codec, Groups(codec, us));
  }

  /** Splitting what a split returned changes nothing. */
  lemma ResplitChangesNothing(codec: Codec, data: seq<byte>)
    requires SplitFrames(codec, data).Ok?
    ensures SplitFrames(codec, Joined(SplitFrames(codec, data).value)) == SplitFrames(codec, data)
  {
    GroupsAreTheSplit(codec, NalUnits(data));
    GroupsFit(codec, data);
    SplitOfPictures(codec, Groups(codec, NalUnits(data)));
  }

  // ---------------------------------------------------------------- looping a clip

  /** Item `i % |xs|` for each `i < n`: what a channel that replays a clip hands out. */
  function Looped<T>(xs: seq<T>, n: nat): (r: seq<T>)
    requires xs != []
    ensures |r| == n
    ensures forall i :: 0 <= i < n ==> r[i] == xs[i % |xs|]
  {
    seq(n, i requires 0 <= i < n => xs[i % |xs|])
  }

  /** Splitting the first `n` packets of a replayed clip yields those packets. */
  ghost predicate LoopsAt(codec: Codec, frames: seq<Frame>, n: nat)
    requires frames != []
  {
    SplitFrames(codec, Joined(Looped(frames, n))) == Ok(Looped(frames, n))
  }

  lemma LoopedFrames(codec: Codec, groups: seq<seq<Nal>>, n: nat)
    requires groups != []
    ensures Looped(FramesOf(codec, groups), n) == FramesOf(codec, Looped(groups, n))
  {
  }

  lemma {:induction false} FramesDetermineGroups(codec: Codec, g: seq<seq<Nal>>, h: seq<seq<Nal>>)
    requires AllFit(codec, g) && AllFit(codec, h)
    requires FramesOf(codec, g) == FramesOf(codec, h)
    ensures g == h
  {
    assert |g| == |FramesOf(codec, g)| == |h|;
    forall n | 0 <= n < |g|
      ensures g[n] == h[n]
    {
      assert FramesOf(codec, g)[n] == FramesOf(codec, h)[n];
      assert Fit(codec, g[n]) && Fit(codec, h[n]);
      ScanOfPrint(g[n]);
      ScanOfPrint(h[n]);
    }
  }

  lemma LoopOfOpenClip(codec: Codec, groups: seq<seq<Nal>>, n: nat)
    requires groups != [] && n > 0
    requires AllFit(codec, groups) && AllPictures(codec, groups)
    requires OpenFrom(codec, groups, 0) && HasIdr(codec, groups[0])
    ensures LoopsAt(codec, FramesOf(codec, groups), n)
  {
    hide Fit, OnePicture, OpensPicture, HasIdr;
    LoopedFrames(codec, groups, n);
    assert Looped(groups, n)[0] == groups[0];
    SplitOfPictures(codec, Looped(groups, n));
  }

  lemma GroupsOpen(codec: Codec, us: seq<Nal>, n: nat)
    requires 0 < n < |Groups(codec, us)|
    ensures OpensPicture(codec, Groups(codec, us)[n])
  {
    GroupsAreTheSplit(codec, us);
  }

  lemma LoopNeedsOpenClip(codec: Codec, groups: seq<seq<Nal>>)
    requires groups != [] && AllFit(codec, groups)
    requires LoopsAt(codec, FramesOf(codec, groups), |groups| + 1)
    ensures OpensPicture(codec, groups[0])
  {
    hide OnePicture, OpensPicture, HasIdr;
    var gs := Looped(groups, |groups| + 1);
    var data := Joined(FramesOf(codec, gs));
    LoopedFrames(codec, groups, |groups| + 1);
    assert AllFit(codec, gs) by { hide Fit; }
    GroupsFit(codec, data);
    FramesDetermineGroups(codec, Groups(codec, NalUnits(data)), gs);
    hide *;
    GroupsOpen(codec, NalUnits(data), |groups|);
    assert gs[|groups|] == groups[0] by { assert |groups| % |groups| == 0; }
  }

  /** A clip that was accepted can be replayed for ever exactly when its first unit starts
      a picture; otherwise that unit is glued to the last picture at the seam. */
  lemma LoopingIsSound(codec: Codec, data: seq<byte>)
    requires SplitFrames(codec, data).Ok?
    ensures NalUnits(data) != []
    ensures (forall n: nat :: n > 0 ==> LoopsAt(codec, SplitFrames(codec, data).value, n))
       <==> Starts(codec, NalUnits(data)[0])
  {
    var us := NalUnits(data);
    var groups := Groups(codec, us);
    var frames := FramesOf(codec, groups);
    GroupsAreTheSplit(codec, us);
    GroupsFit(codec, data);
    FirstGroupIsPrefix(codec, us, groups, Rest(codec, us));
    assert OnePicture(codec, groups[0]);
    assert us[0] == us[..|groups[0]|][0] == groups[0][0];
    if Starts(codec, us[0]) {
      assert OpenFrom(codec, groups, 0);
      forall n: nat | n > 0
        ensures LoopsAt(codec, frames, n)
      {
        LoopOfOpenClip(codec, groups, n);
      }
    }
    if forall n: nat :: n > 0 ==> LoopsAt(codec, frames, n) {
      assert LoopsAt(codec, frames, |groups| + 1);
      LoopNeedsOpenClip(codec, groups);
    }
  }

  /** The seam of a clip that opens with a continuation slice: two replays of the clip,
      two packets, but a single picture when they are split again. */
  lemma SeamGluesPictures()
    ensures var u: Nal := [0x65, 0x40];
            && SplitFrames(H264, Print([u])) == Ok([Frame(Print([u]), true)])
            && SplitFrames(H264, Print([u]) + Print([u])) == Ok([Frame(Print([u, u]), true)])
  {
    var u: Nal := [0x65, 0x40];
    assert Vcl(H264, u) && Idr(H264, u) && !Starts(H264, u);
    OneGroup([u]);
    OneGroup([u, u]);
    PrintAppend([u], [u]);
    assert [u] + [u] == [u, u];
  }

  lemma OneGroup(us: seq<Nal>)
    requires us == [[0x65, 0x40]] || us == [[0x65, 0x40], [0x65, 0x40]]
    ensures SplitFrames(H264, Print(us)) == Ok([Frame(Print(us), true)])
  {
    var u: Nal := [0x65, 0x40];
    assert us[0] == u && Vcl(H264, u) && Idr(H264, u) && !Starts(H264, u);
    assert GoodUnit(u) by { assert u[1] == 0x40; }
    SplitOfPictures(H264, [us]);
    var f := FramesOf(H264, [us]);
    assert f == [f[0]] && f[0] == FrameOf(H264, us);
    assert Joined(f) == f[0].data + Joined(f[1..]) && Joined(f[1..]) == [];
    assert f[0].data + [] == f[0].data;
  }
}
