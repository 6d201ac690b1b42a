/** Encoder channels in runs of the whole library: a queue that loses nothing, and packets
    that can be split again. */
module VencRuns {
  import AnnexB
  import opened AccessUnits
  import opened Bytes
  import opened Encoder
  import opened Images
  import opened Invariants
  import opened Mpi
  import opened Flow
  import M = Machine

  /** A frame is accepted; a packet is made of a frame, from the queue (`own`) or from the
      bound source, and handed out under a number; the queue is cleared. */
  datatype VencEvent = Accepted(image: Image) | Packed(packet: Packet, image: Image, own: bool) | Cleared

  ghost function EventsOf(s: State, e: M.Event, v: int): seq<VencEvent> {
    if !(Good(s) && M.Legal(s, e)) then [] else
    match e.op
    case OnVenc(SendVenc(w, f)) =>
      if w == v && SendVenc(s, e.now, v, f).1 == Success then [Accepted(ImportFrame(s, e.now, f).value)] else []
    case OnVenc(GetStream(w, mb)) =>
      if w == v && PullVenc(s, e.now, v).outcome.Ready? then
        [Packed(GetStream(s, e.now, v, mb).1.value, PullVenc(s, e.now, v).outcome.image, s.vencs[v].queue != [])]
      else []
    case OnVenc(StopVenc(w)) =>
      if w == v && StopVenc(s, v).1 == Success then [Cleared] else []
    case _ => []
  }

  ghost function Log(s: State, es: seq<M.Event>, v: int): seq<VencEvent> {
    if es == [] then [] else
    var n := |es| - 1;
    Log(s, es[..n], v) + EventsOf(M.Run(s, es[..n]), es[n], v)
  }

  /** The channel goes with the library, or when it is neither started nor bound. */
  predicate Destroys(s: State, op: M.Op, v: int) {
    op == M.OnSys(M.Exit) || (op == M.OnVenc(M.DestroyVenc(v)) && DestroyVenc(s, v).1 == Success)
  }

  predicate Stops(s: State, op: M.Op, v: int) {
    op == M.OnVenc(M.StopVenc(v)) && StopVenc(s, v).1 == Success
  }

  /** The channel is there all the time. */
  ghost predicate Lives(s: State, es: seq<M.Event>, v: int) {
    forall i :: 0 <= i < |es| ==> !Destroys(M.Run(s, es[..i]), es[i].op, v)
  }

  /** It is also never stopped. */
  ghost predicate KeepsOn(s: State, es: seq<M.Event>, v: int) {
    Lives(s, es, v) && forall i :: 0 <= i < |es| ==> !Stops(M.Run(s, es[..i]), es[i].op, v)
  }

  lemma LivesBefore(s: State, es: seq<M.Event>, v: int)
    requires es != [] && Lives(s, es, v)
    ensures Lives(s, es[..|es| - 1], v) && !Destroys(M.Run(s, es[..|es| - 1]), es[|es| - 1].op, v)
    ensures KeepsOn(s, es, v) ==> KeepsOn(s, es[..|es| - 1], v) && !Stops(M.Run(s, es[..|es| - 1]), es[|es| - 1].op, v)
  {
    hide Destroys, Stops, M.Run;
    var before := es[..|es| - 1];
    assert forall i :: 0 <= i < |before| ==> before[..i] == es[..i];
  }

  // ---------------------------------------------------------------- one call

  /** How the channel looks after an event. */
  ghost predicate Follows(c: VencChn, ev: VencEvent, d: VencChn) {
    && GoodVenc(c) && d.stream == c.stream && d.clip == c.clip
    && match ev
       case Accepted(img) => d.queue == c.queue + [img] && d.number == c.number
       case Packed(packet, img, own) =>
         && packet.number == c.number && packet.pts == img.pts && d.number == c.number + 1
         && WellFormed(img) && Packable(c, img) && packet.frame == PacketOf(c, img)
         && own == (c.queue != [])
         && (if own then c.queue == [img] + d.queue else d.queue == [])
       case Cleared => d.queue == [] && d.number == c.number
  }

  ghost predicate Unmoved(c: VencChn, d: VencChn) {
    d == c.(started := d.started, outstanding := d.outstanding)
  }

  ghost predicate Step(s: State, t: State, v: int, evs: seq<VencEvent>) {
    && v in s.vencs && v in t.vencs
    && (if evs == [] then Unmoved(s.vencs[v], t.vencs[v])
        else |evs| == 1 && Follows(s.vencs[v], evs[0], t.vencs[v]))
  }

  lemma StreamStep(s: State, e: M.Event, v: int, mb: Handle)
    requires Good(s) && v in s.vencs && VencEnds(s, v) && Packs(s, v) && e.op == M.OnVenc(M.GetStream(v, mb))
    requires mb !in s.blocks
    ensures Step(s, GetStream(s, e.now, v, mb).0, v, EventsOf(s, e, v))
  {
    var p := PullVenc(s, e.now, v);
    if p.outcome.Ready? {
      PacksPulled(s, e.now, v);
      var t := GetStream(s, e.now, v, mb).0;
      assert GoodVenc(s.vencs[v]);
      hide PullVenc, Good, WellFormed, GoodVenc, VencEnds, Packs, Packable;
      var c, d := s.vencs[v], p.state.vencs[v];
      SamePacket(c, d, p.outcome.image);
    } else {
      hide PullVenc, Good, VencEnds, Packs;
    }
  }

  lemma SamePacket(c: VencChn, d: VencChn, img: Image)
    requires GoodVenc(c) && GoodVenc(d) && WellFormed(img) && Packable(c, img) && d == c.(queue := d.queue)
    ensures PacketOf(d, img) == PacketOf(c, img)
  {
    hide WellFormed;
  }

  lemma OtherStreamStep(s: State, e: M.Event, v: int, w: int, mb: Handle)
    requires Good(s) && v in s.vencs && w != v && VencEnds(s, w) && Packs(s, w)
    ensures var t := GetStream(s, e.now, w, mb).0; v in t.vencs && t.vencs[v] == s.vencs[v]
  {
    hide PullVenc, Good, PacketOf, WellFormed, VencEnds, Packs;
  }

  lemma SendStep(s: State, e: M.Event, v: int, w: int, f: VideoFrame)
    requires Good(s) && v in s.vencs && e.op == M.OnVenc(M.SendVenc(w, f))
    ensures Step(s, SendVenc(s, e.now, w, f).0, v, EventsOf(s, e, v))
  {
    assert GoodVenc(s.vencs[v]);
    hide Good, GoodVenc, ImportFrame;
  }

  lemma ConfigStep(s: State, e: M.Event, v: int, op: M.VencOp)
    requires Good(s) && v in s.vencs && e.op == M.OnVenc(op) && M.Legal(s, e) && !Destroys(s, e.op, v)
    requires !op.GetStream? && !op.SendVenc?
    ensures Step(s, M.VencEffect(s, op, e.now), v, EventsOf(s, e, v))
  {
    assert GoodVenc(s.vencs[v]);
    hide Good, GoodVenc, Step, GetStream, SendVenc, PullVenc, ImportFrame, DestroyVenc, VencEnds, Packs;
    match op
    case CreateVenc(w, codec, format, width, height, gop, clip) =>
      CreateStep(s, v, w, codec, format, width, height, gop, clip);
    case DestroyVenc(w) => DestroyStep(s, v, w);
    case StartVenc(w) => StartStep(s, v, w);
    case StopVenc(w) => StopStep(s, v, w);
    case ReleaseStream(w, packs) => ReleaseStep(s, v, w, packs);
  }

  lemma CreateStep(s: State, v: int, w: int, codec: Option<Codec>, format: PixelFormat, width: nat, height: nat,
                   gop: nat, clip: Option<seq<Frame>>)
    requires v in s.vencs
    ensures Step(s, CreateVenc(s, w, codec, format, width, height, gop, clip).0, v, [])
  {
  }

  lemma DestroyStep(s: State, v: int, w: int)
    requires v in s.vencs && (w != v || DestroyVenc(s, w).1 != Success)
    ensures Step(s, DestroyVenc(s, w).0, v, [])
  {
  }

  lemma StartStep(s: State, v: int, w: int)
    requires v in s.vencs
    ensures Step(s, StartVenc(s, w).0, v, [])
  {
  }

  lemma StopStep(s: State, v: int, w: int)
    requires v in s.vencs && GoodVenc(s.vencs[v])
    ensures Step(s, StopVenc(s, w).0, v, if w == v && StopVenc(s, v).1 == Success then [Cleared] else [])
  {
    hide GoodVenc;
  }

  lemma ReleaseStep(s: State, v: int, w: int, packs: seq<Handle>)
    requires v in s.vencs
    ensures Step(s, ReleaseStream(s, w, packs).0, v, [])
  {
    hide ReleasePacks;
  }

  lemma StepOfCall(s: State, e: M.Event, v: int)
    requires Good(s) && v in s.vencs && !Destroys(s, e.op, v)
    ensures Step(s, M.Next(s, e), v, EventsOf(s, e, v))
  {
    hide Good, GetStream, SendVenc, M.SysEffect, M.MbEffect, M.ViEffect, M.VpssEffect, PullVenc, ImportFrame, StopVenc,
         DestroyVenc, M.VpssLegal, VencEnds, Packs;
    if M.Legal(s, e) {
      match e.op
      case OnSys(op) => M.SysTouches(s, op, e.now);
      case OnMb(op) => M.MbTouches(s, op);
      case OnVi(op) => M.ViTouches(s, op, e.now);
      case OnVpss(op) => M.VpssTouches(s, op, e.now);
      case OnVenc(op) => VencStepOfCall(s, e, v, op);
    }
  }

  lemma VencStepOfCall(s: State, e: M.Event, v: int, op: M.VencOp)
    requires Good(s) && v in s.vencs && e.op == M.OnVenc(op) && M.Legal(s, e) && !Destroys(s, e.op, v)
    ensures Step(s, M.Next(s, e), v, EventsOf(s, e, v))
  {
    hide Good, Step, GetStream, SendVenc, PullVenc, ImportFrame, StopVenc, DestroyVenc, VencEnds, Packs;
    match op
    case GetStream(w, mb) =>
      if w == v {
        StreamStep(s, e, v, mb);
      } else {
        OtherStreamStep(s, e, v, w, mb);
        UnmovedStep(s, M.Next(s, e), v);
      }
    case SendVenc(w, f) => SendStep(s, e, v, w, f);
    case _ =>
      ConfigStep(s, e, v, op);
      hide M.VencEffect;
  }

  lemma UnmovedStep(s: State, t: State, v: int)
    requires v in s.vencs && v in t.vencs && t.vencs[v] == s.vencs[v]
    ensures Step(s, t, v, [])
  {
  }

  // ---------------------------------------------------------------- logs

  function Accepts(log: seq<VencEvent>): seq<Image> {
    if log == [] then [] else
    var before := Accepts(log[..|log| - 1]);
    match log[|log| - 1]
    case Accepted(img) => before + [img]
    case _ => before
  }

  function Takes(log: seq<VencEvent>): seq<Image> {
    if log == [] then [] else
    var before := Takes(log[..|log| - 1]);
    match log[|log| - 1]
    case Packed(_, img, true) => before + [img]
    case _ => before
  }

  /** The frames that packets were made of, and the packets. */
  function Sources(log: seq<VencEvent>): seq<Image> {
    if log == [] then [] else
    var before := Sources(log[..|log| - 1]);
    match log[|log| - 1]
    case Packed(_, img, _) => before + [img]
    case _ => before
  }

  function PacketsOf(log: seq<VencEvent>): (fs: seq<Frame>)
    ensures |fs| == |Sources(log)|
  {
    if log == [] then [] else
    var before := PacketsOf(log[..|log| - 1]);
    match log[|log| - 1]
    case Packed(packet, _, _) => before + [packet.frame]
    case _ => before
  }

  /** The numbers under which the packets were handed out. */
  function NumbersOf(log: seq<VencEvent>): (ns: seq<nat>)
    ensures |ns| == |Sources(log)|
  {
    if log == [] then [] else
    var before := NumbersOf(log[..|log| - 1]);
    match log[|log| - 1]
    case Packed(packet, _, _) => before + [packet.number]
    case _ => before
  }

  /** The channel `k` packets later, as far as packets are concerned. */
  function Later(c: VencChn, k: nat): VencChn {
    c.(number := c.number + k)
  }

  /** The packets of a log that starts with the channel `c` and ends with `d`. */
  ghost predicate TellsPackets(c: VencChn, log: seq<VencEvent>, d: VencChn) {
    && GoodVenc(c) && d.stream == c.stream && d.clip == c.clip
    && (forall k :: 0 <= k < |Sources(log)| ==> WellFormed(Sources(log)[k]) && Packable(c, Sources(log)[k]))
    && d.number == c.number + |Sources(log)|
    && (forall k :: 0 <= k < |Sources(log)| ==> PacketsOf(log)[k] == PacketOf(Later(c, k), Sources(log)[k]))
  }

  /** The packets carry the numbers that follow that of the channel, without a gap. */
  ghost predicate TellsNumbers(c: VencChn, log: seq<VencEvent>, d: VencChn) {
    && d.number == c.number + |NumbersOf(log)|
    && (forall k :: 0 <= k < |NumbersOf(log)| ==> NumbersOf(log)[k] == c.number + k)
  }

  /** The queues of a log that starts with the queue `start` and ends with `end`. */
  ghost predicate TellsQueue(start: seq<Image>, log: seq<VencEvent>, end: seq<Image>) {
    && (Cleared !in log ==> start + Accepts(log) == Takes(log) + end)
    && (Cleared !in log ==> forall i :: 0 <= i < |log| && log[i].Packed? && !log[i].own ==>
          start + Accepts(log[..i]) == Takes(log[..i]))
  }

  /** The channel `d` after a log, starting as `c`. */
  ghost predicate Tells(c: VencChn, log: seq<VencEvent>, d: VencChn) {
    TellsPackets(c, log, d) && TellsNumbers(c, log, d) && TellsQueue(c.queue, log, d.queue)
  }

  lemma TellsOne(c: VencChn, log: seq<VencEvent>, d: VencChn, ev: VencEvent, r: VencChn)
    requires Tells(c, log, d) && Follows(d, ev, r)
    ensures Tells(c, log + [ev], r)
  {
    hide TellsPackets, TellsNumbers, TellsQueue, Follows;
    PacketsOne(c, log, d, ev, r);
    NumbersOne(c, log, d, ev, r);
    QueueOne(c, log, d, ev, r);
  }

  lemma PacketsOne(c: VencChn, log: seq<VencEvent>, d: VencChn, ev: VencEvent, r: VencChn)
    requires TellsPackets(c, log, d) && Follows(d, ev, r)
    ensures TellsPackets(c, log + [ev], r)
  {
    hide GoodImage, GoodVenc, PacketOf;
    assert (log + [ev])[..|log|] == log;
    if ev.Packed? {
      SameMaker(c, d, ev.image, |Sources(log)|);
    }
  }

  lemma NumbersOne(c: VencChn, log: seq<VencEvent>, d: VencChn, ev: VencEvent, r: VencChn)
    requires TellsNumbers(c, log, d) && Follows(d, ev, r)
    ensures TellsNumbers(c, log + [ev], r)
  {
    hide WellFormed, GoodVenc, PacketOf, Packable;
    assert (log + [ev])[..|log|] == log;
  }

  lemma QueueOne(c: VencChn, log: seq<VencEvent>, d: VencChn, ev: VencEvent, r: VencChn)
    requires TellsQueue(c.queue, log, d.queue) && Follows(d, ev, r)
    ensures TellsQueue(c.queue, log + [ev], r.queue)
  {
    hide GoodImage, GoodVenc, PacketOf;
    var now := log + [ev];
    assert now[..|log|] == log;
    assert forall i :: 0 <= i < |log| ==> now[..i] == log[..i];
    if Cleared !in now {
      assert Cleared !in log;
      Regroup(c.queue, Accepts(log), Takes(log), d.queue, ev, r.queue);
    }
  }

  lemma Regroup(start: seq<Image>, accepts: seq<Image>, takes: seq<Image>, queue: seq<Image>, ev: VencEvent, rest: seq<Image>)
    requires start + accepts == takes + queue
    ensures queue == [] ==> start + accepts == takes
    ensures ev.Accepted? && rest == queue + [ev.image] ==> start + (accepts + [ev.image]) == takes + rest
    ensures ev.Packed? && queue == [ev.image] + rest ==> start + accepts == (takes + [ev.image]) + rest
  {
    if ev.Accepted? {
      assert start + (accepts + [ev.image]) == (start + accepts) + [ev.image];
    }
  }

  lemma SameMaker(c: VencChn, d: VencChn, img: Image, k: nat)
    requires GoodVenc(c) && GoodVenc(d) && WellFormed(img) && Packable(c, img)
    requires d.stream == c.stream && d.clip == c.clip && d.number == c.number + k
    ensures Packable(d, img) && PacketOf(d, img) == PacketOf(Later(c, k), img)
  {
    hide WellFormed, Whole;
  }

  lemma {:induction false} RunTells(s: State, es: seq<M.Event>, v: int)
    requires Inv(s) && v in s.vencs && Lives(s, es, v)
    ensures Inv(M.Run(s, es)) && v in M.Run(s, es).vencs
    ensures Tells(s.vencs[v], Log(s, es, v), M.Run(s, es).vencs[v])
    decreases |es|
  {
    if es == [] {
      InvIsGood(s);
    } else {
      var n := |es| - 1;
      var before := es[..n];
      var t := M.Run(s, before);
      var evs := EventsOf(t, es[n], v);
      assert M.Run(s, es) == M.Next(t, es[n]) by { hide M.Next; }
      assert Log(s, es, v) == Log(s, before, v) + evs by { hide EventsOf; }
      hide *;
      LivesBefore(s, es, v);
      RunTells(s, before, v);
      InvIsGood(t);
      InvKept(t, es[n]);
      StepOfCall(t, es[n], v);
      TellsMore(s.vencs[v], Log(s, before, v), t, M.Run(s, es), v, evs);
    }
  }

  lemma SameTells(c: VencChn, log: seq<VencEvent>, d: VencChn, e: VencChn)
    requires Tells(c, log, d) && Unmoved(d, e)
    ensures Tells(c, log, e)
  {
    hide GoodVenc, WellFormed, Packable, PacketOf;
  }

  lemma TellsMore(c: VencChn, log: seq<VencEvent>, t: State, u: State, v: int, evs: seq<VencEvent>)
    requires Step(t, u, v, evs) && Tells(c, log, t.vencs[v])
    ensures v in u.vencs && Tells(c, log + evs, u.vencs[v])
  {
    hide Tells, Follows;
    if evs == [] {
      assert log + evs == log;
      SameTells(c, log, t.vencs[v], u.vencs[v]);
    } else {
      assert evs == [evs[0]];
      TellsOne(c, log, t.vencs[v], evs[0], u.vencs[v]);
    }
  }

  // ---------------------------------------------------------------- what follows

  /** Between a start and the next stop, a channel loses and invents nothing: the frames it
      accepted are those it took from its queue followed by those still in it, never more
      than four; and it turns to its bound source only when all it accepted has been taken. */
  lemma QueueIsLossless(s: State, es: seq<M.Event>, v: int)
    requires Inv(s) && v in s.vencs && s.vencs[v].queue == [] && KeepsOn(s, es, v)
    ensures v in M.Run(s, es).vencs && |M.Run(s, es).vencs[v].queue| <= 4
    ensures var log := Log(s, es, v);
            && Accepts(log) == Takes(log) + M.Run(s, es).vencs[v].queue
            && (forall i :: 0 <= i < |log| && log[i].Packed? && !log[i].own ==> Accepts(log[..i]) == Takes(log[..i]))
  {
    hide *;
    KeptOnLives(s, es, v);
    RunTells(s, es, v);
    AtMostFour(M.Run(s, es), v);
    NeverCleared(s, es, v);
    QueueOfLog(s.vencs[v], Log(s, es, v), M.Run(s, es).vencs[v]);
  }

  lemma KeptOnLives(s: State, es: seq<M.Event>, v: int)
    requires KeepsOn(s, es, v)
    ensures Lives(s, es, v)
  {
    hide M.Run, Lives;
  }

  lemma QueueOfLog(c: VencChn, log: seq<VencEvent>, d: VencChn)
    requires Tells(c, log, d) && c.queue == [] && Cleared !in log
    ensures Accepts(log) == Takes(log) + d.queue
    ensures forall i :: 0 <= i < |log| && log[i].Packed? && !log[i].own ==> Accepts(log[..i]) == Takes(log[..i])
  {
    hide TellsPackets, TellsNumbers, Accepts, Takes;
    NothingBefore(Accepts(log));
    forall i | 0 <= i < |log| && log[i].Packed? && !log[i].own
      ensures Accepts(log[..i]) == Takes(log[..i])
    {
      NothingBefore(Accepts(log[..i]));
    }
  }

  lemma NothingBefore(images: seq<Image>)
    ensures [] + images == images
  {
  }

  lemma {:induction false} NeverCleared(s: State, es: seq<M.Event>, v: int)
    requires KeepsOn(s, es, v)
    ensures Cleared !in Log(s, es, v)
    decreases |es|
  {
    hide M.Run, PullVenc, GetStream, SendVenc, ImportFrame, Good, StopVenc, GoodImage, Lives, M.VpssLegal, VencEnds, Packs;
    if es != [] {
      LivesBefore(s, es, v);
      NeverCleared(s, es[..|es| - 1], v);
    }
  }

  lemma AtMostFour(s: State, v: int)
    requires Inv(s) && v in s.vencs
    ensures |s.vencs[v].queue| <= 4
  {
    hide GoodVenc, GrpsOk;
  }

  /** From its creation on, through any starts and stops, the packets of a synthetic channel
      are numbered from 0 and, put together, split into exactly these packets again. */
  lemma SyntheticStreamSplits(s: State, es: seq<M.Event>, v: int)
    requires Inv(s) && v in s.vencs && s.vencs[v].number == 0 && s.vencs[v].clip.None? && Lives(s, es, v)
    ensures var (c, log) := (s.vencs[v], Log(s, es, v));
            && v in M.Run(s, es).vencs && M.Run(s, es).vencs[v].number == |PacketsOf(log)|
            && c.stream.gop > 0 && AllNonempty(Sources(log))
            && PacketsOf(log) == Packets(c.stream, Sources(log))
            && (forall k :: 0 <= k < |NumbersOf(log)| ==> NumbersOf(log)[k] == k)
            && (PacketsOf(log) != [] ==>
                  SplitFrames(c.stream.codec, Joined(PacketsOf(log))) == Ok(PacketsOf(log)))
  {
    hide *;
    RunTells(s, es, v);
    SyntheticLogSplits(s.vencs[v], Log(s, es, v), M.Run(s, es).vencs[v]);
  }

  lemma SyntheticLogSplits(c: VencChn, log: seq<VencEvent>, d: VencChn)
    requires Tells(c, log, d) && c.number == 0 && c.clip.None?
    ensures d.number == |PacketsOf(log)| && c.stream.gop > 0 && AllNonempty(Sources(log))
    ensures PacketsOf(log) == Packets(c.stream, Sources(log))
    ensures forall k :: 0 <= k < |NumbersOf(log)| ==> NumbersOf(log)[k] == k
    ensures PacketsOf(log) != [] ==> SplitFrames(c.stream.codec, Joined(PacketsOf(log))) == Ok(PacketsOf(log))
  {
    hide Encode, SplitFrames, WellFormed, TellsQueue;
    assert AllNonempty(Sources(log));
    assert forall k :: 0 <= k < |Sources(log)| ==> Later(c, k).number == k;
    assert PacketsOf(log) == Packets(c.stream, Sources(log));
    if PacketsOf(log) != [] {
      SplitterInvertsEncoder(c.stream, Sources(log));
    }
  }

  /** The packets of a channel with a clip are the clip's frames over and over; with a clip
      that opens with a picture they split into exactly these packets again. */
  lemma ClipStreamSplits(s: State, es: seq<M.Event>, v: int, data: seq<byte>)
    requires Inv(s) && v in s.vencs && s.vencs[v].number == 0
    requires SplitFrames(s.vencs[v].stream.codec, data).Ok?
    requires s.vencs[v].clip == Some(SplitFrames(s.vencs[v].stream.codec, data).value)
    requires Lives(s, es, v)
    ensures var (c, log) := (s.vencs[v], Log(s, es, v));
            && c.clip.value != [] && PacketsOf(log) == Looped(c.clip.value, |PacketsOf(log)|)
            && (forall k :: 0 <= k < |NumbersOf(log)| ==> NumbersOf(log)[k] == k)
            && AnnexB.NalUnits(data) != []
            && (PacketsOf(log) != [] && Starts(c.stream.codec, AnnexB.NalUnits(data)[0]) ==>
                  SplitFrames(c.stream.codec, Joined(PacketsOf(log))) == Ok(PacketsOf(log)))
  {
    hide *;
    RunTells(s, es, v);
    ClipLogSplits(s.vencs[v], Log(s, es, v), M.Run(s, es).vencs[v], data);
  }

  lemma ClipLogSplits(c: VencChn, log: seq<VencEvent>, d: VencChn, data: seq<byte>)
    requires Tells(c, log, d) && c.number == 0
    requires SplitFrames(c.stream.codec, data).Ok? && c.clip == Some(SplitFrames(c.stream.codec, data).value)
    ensures c.clip.value != [] && PacketsOf(log) == Looped(c.clip.value, |PacketsOf(log)|)
    ensures forall k :: 0 <= k < |NumbersOf(log)| ==> NumbersOf(log)[k] == k
    ensures AnnexB.NalUnits(data) != []
    ensures PacketsOf(log) != [] && Starts(c.stream.codec, AnnexB.NalUnits(data)[0]) ==>
              SplitFrames(c.stream.codec, Joined(PacketsOf(log))) == Ok(PacketsOf(log))
  {
    hide Encode, SplitFrames, WellFormed, Starts, TellsQueue;
    assert forall k :: 0 <= k < |Sources(log)| ==> Later(c, k).number == k;
    assert PacketsOf(log) == Looped(c.clip.value, |PacketsOf(log)|);
    LoopingIsSound(c.stream.codec, data);
    if PacketsOf(log) != [] && Starts(c.stream.codec, AnnexB.NalUnits(data)[0]) {
      assert LoopsAt(c.stream.codec, c.clip.value, |PacketsOf(log)|);
    }
  }
}
