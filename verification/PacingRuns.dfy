/** A camera channel in runs of the whole library: its pace holds whoever pulls from it. */
module PacingRuns {
  import opened Bytes
  import opened Images
  import opened Invariants
  import opened Mpi
  import opened Flow
  import opened FlowLaws
  import opened Pacing
  import M = Machine

  /** The calls that configure the channel, if the library accepts them, and those that
      change its rate. */
  predicate Resets(s: State, op: M.Op, k: (int, int)) {
    match op
    case OnSys(Exit) => true
    case OnSys(SetFps(fps)) => fps != s.viFps
    case OnVi(SetViChnAttr(pipe, chn, w, h, format)) =>
      (pipe, chn) == k && SetViChnAttr(s, pipe, chn, w, h, format).1 == Success
    case OnVi(EnableViChn(pipe, chn)) => (pipe, chn) == k && EnableViChn(s, pipe, chn).1 == Success
    case OnVi(DisableViChn(pipe, chn)) => (pipe, chn) == k && DisableViChn(s, pipe, chn).1 == Success
    case _ => false
  }

  /** No call of the run resets the channel. */
  ghost predicate Undisturbed(s: State, es: seq<M.Event>, k: (int, int)) {
    forall i :: 0 <= i < |es| ==> !Resets(M.Run(s, es[..i]), es[i].op, k)
  }

  lemma UndisturbedBefore(s: State, es: seq<M.Event>, k: (int, int))
    requires es != [] && Undisturbed(s, es, k)
    ensures Undisturbed(s, es[..|es| - 1], k) && !Resets(M.Run(s, es[..|es| - 1]), es[|es| - 1].op, k)
  {
    hide Resets, M.Run;
    var before := es[..|es| - 1];
    assert forall i :: 0 <= i < |before| ==> before[..i] == es[..i];
  }

  /** The channel is as before, or has delivered a frame that was due. */
  ghost predicate Steps(s: State, t: State, k: (int, int), now: nat) {
    && k in s.viChns && k in t.viChns && t.viFps == s.viFps
    && (t.viChns[k] == s.viChns[k] || Tick(s.viChns[k], s.viFps, now) == (t.viChns[k], None))
  }

  lemma SourceSteps(s: State, now: nat, p: Pulled, t: State, k: (int, int))
    requires k in s.viChns && OneSource(s, now, p) && t.viChns == p.state.viChns && t.viFps == s.viFps
    ensures Steps(s, t, k, now)
  {
    hide Tick;
  }

  lemma PullSteps(s: State, now: nat, g: int, c: int, mb: Handle, k: (int, int))
    requires Good(s) && Ends(s, g, c) && k in s.viChns
    ensures Steps(s, GetVpssFrame(s, now, g, c, mb).0, k, now)
  {
    var t := GetVpssFrame(s, now, g, c, mb).0;
    var p := PullVpss(s, now, g, c);
    if p.outcome.Ready? {
      PullConsumesOneFrame(s, now, g, c);
      assert t.viChns == p.state.viChns && t.viFps == s.viFps by { hide PullVpss, Good, OneFrame, Ends; }
      assert OneSource(s, now, p) by { hide PullVpss, Good, OneSource, Ends; }
      hide *;
      SourceSteps(s, now, p, t, k);
    } else {
      hide PullVpss, Good, Ends;
    }
  }

  lemma StreamSteps(s: State, now: nat, v: int, mb: Handle, k: (int, int))
    requires Good(s) && VencEnds(s, v) && Packs(s, v) && k in s.viChns
    ensures Steps(s, GetStream(s, now, v, mb).0, k, now)
  {
    var t := GetStream(s, now, v, mb).0;
    var p := PullVenc(s, now, v);
    var up := Chn(Venc, 0, v);
    assert p.outcome.Ready? ==> t.viChns == p.state.viChns && t.viFps == s.viFps by {
      hide PullVenc, Good, PacketOf, VencEnds, Packs;
    }
    if p.outcome.Ready? && s.vencs[v].queue == [] {
      BoundConsumesOneFrame(s, now, up);
      assert OneSource(s, now, p) by { hide PullVenc, PullBound, Good, OneSource, VencEnds, BoundEnds; }
      hide *;
      SourceSteps(s, now, p, t, k);
    } else {
      hide PullVenc, Good, PacketOf, VencEnds, Packs;
    }
  }

  lemma ViConfigSteps(s: State, op: M.ViOp, now: nat, k: (int, int))
    requires Good(s) && k in s.viChns && !Resets(s, M.OnVi(op), k)
    requires op.SetViChnAttr? || op.EnableViChn? || op.DisableViChn?
    ensures Steps(s, M.ViEffect(s, op, now), k, now)
  {
    hide Good, HasDev, CheckViChn, Tick, SetDevAttr, EnableDev, DisableDev, SetDevBindPipe, GetViFrame;
  }

  lemma CameraSteps(s: State, pipe: int, chn: int, mb: Handle, now: nat, k: (int, int))
    requires Good(s) && k in s.viChns
    ensures Steps(s, GetViFrame(s, now, pipe, chn, mb).0, k, now)
  {
    hide Good, CheckViChn, AddsLoose, Tick;
  }

  lemma ViSteps(s: State, op: M.ViOp, now: nat, k: (int, int))
    requires Good(s) && k in s.viChns && !Resets(s, M.OnVi(op), k)
    ensures Steps(s, M.ViEffect(s, op, now), k, now)
  {
    if op.GetViFrame? {
      CameraSteps(s, op.pipe, op.chn, op.mb, now, k);
      hide Good, Steps, GetViFrame;
    } else if op.SetViChnAttr? || op.EnableViChn? || op.DisableViChn? {
      ViConfigSteps(s, op, now, k);
      hide *;
    } else {
      hide Good, SetDevAttr, EnableDev, DisableDev, SetDevBindPipe, GetViFrame, SetViChnAttr, EnableViChn, DisableViChn,
           Tick, Resets;
    }
  }

  lemma StepOfCall(s: State, e: M.Event, k: (int, int))
    requires Good(s) && k in s.viChns && !Resets(s, e.op, k)
    ensures Steps(s, M.Next(s, e), k, e.now)
  {
    hide Good, GetStream, GetVpssFrame, Tick, Resets, M.VpssLegal, M.VencLegal, M.SysEffect, M.MbEffect,
         M.ViEffect, M.VpssEffect, M.VencEffect;
    if M.Legal(s, e) {
      match e.op
      case OnSys(op) => SysSteps(s, op, e.now, k);
      case OnMb(op) => M.MbTouches(s, op);
      case OnVi(op) => ViSteps(s, op, e.now, k);
      case OnVpss(op) => VpssSteps(s, op, e.now, k);
      case OnVenc(op) => VencSteps(s, op, e.now, k);
    }
  }

  lemma SysSteps(s: State, op: M.SysOp, now: nat, k: (int, int))
    requires k in s.viChns && !Resets(s, M.OnSys(op), k)
    ensures Steps(s, M.SysEffect(s, op, now), k, now)
  {
    hide Tick;
  }

  lemma VpssSteps(s: State, op: M.VpssOp, now: nat, k: (int, int))
    requires Good(s) && k in s.viChns && M.VpssLegal(s, op, now)
    ensures Steps(s, M.VpssEffect(s, op, now), k, now)
  {
    M.VpssTouches(s, op, now);
    if op.GetVpssFrame? {
      PullSteps(s, now, op.grp, op.chn, op.mb, k);
      hide GetVpssFrame, Good, Steps, Ends;
    } else {
      hide M.VpssEffect, Good, Tick;
    }
  }

  lemma VencSteps(s: State, op: M.VencOp, now: nat, k: (int, int))
    requires Good(s) && k in s.viChns && M.VencLegal(s, op)
    ensures Steps(s, M.VencEffect(s, op, now), k, now)
  {
    M.VencTouches(s, op, now);
    if op.GetStream? {
      StreamSteps(s, now, op.chn, op.mb, k);
      hide GetStream, Good, Steps, VencEnds, Packs;
    } else {
      hide M.VencEffect, Good, Tick;
    }
  }

  // ---------------------------------------------------------------- runs

  /** The times at which the channel has delivered a frame. */
  ghost function FrameTimes(s: State, es: seq<M.Event>, k: (int, int)): seq<nat> {
    if es == [] then [] else
    var n := |es| - 1;
    var (t, u) := (M.Run(s, es[..n]), M.Run(s, es));
    var before := FrameTimes(s, es[..n], k);
    if k in t.viChns && k in u.viChns && u.viChns[k] != t.viChns[k] then before + [es[n].now] else before
  }

  function Ticked(c: ViChn, fps: nat, times: seq<nat>): ViChn {
    if times == [] then c else Tick(Ticked(c, fps, times[..|times| - 1]), fps, times[|times| - 1]).0
  }

  lemma {:induction false} TickedFrom(c: ViChn, fps: nat, times: seq<nat>)
    requires times != []
    ensures Ticked(c, fps, times) == Ticked(Tick(c, fps, times[0]).0, fps, times[1..])
    decreases |times|
  {
    hide Tick;
    var n := |times| - 1;
    if n > 0 {
      TickedFrom(c, fps, times[..n]);
      assert times[..n][1..] == times[1..][..n - 1];
    } else {
      assert times[..n] == [] && times[1..] == [];
    }
  }

  lemma {:induction false} OneMoreFrame(c: ViChn, fps: nat, times: seq<nat>, now: nat)
    requires Tick(Ticked(c, fps, times), fps, now).1.None?
    ensures Frames(c, fps, times + [now]) == Frames(c, fps, times) + [now]
    decreases |times|
  {
    hide Tick;
    if times == [] {
      assert [now][1..] == [];
    } else {
      TickedFrom(c, fps, times);
      assert (times + [now])[1..] == times[1..] + [now];
      OneMoreFrame(Tick(c, fps, times[0]).0, fps, times[1..], now);
    }
  }

  /** The channel after a run, and the times it has ticked at. */
  ghost predicate TicksTo(c: ViChn, fps: nat, times: seq<nat>, d: ViChn) {
    d == Ticked(c, fps, times) && Frames(c, fps, times) == times
  }

  lemma TicksOn(c: ViChn, fps: nat, times: seq<nat>, d: ViChn, now: nat, e: ViChn)
    requires TicksTo(c, fps, times, d) && Tick(d, fps, now) == (e, None)
    ensures TicksTo(c, fps, times + [now], e)
  {
    hide Tick, Frames;
    OneMoreFrame(c, fps, times, now);
    assert (times + [now])[..|times|] == times;
  }

  lemma {:induction false} RunTicks(s: State, es: seq<M.Event>, k: (int, int))
    requires Inv(s) && k in s.viChns && Undisturbed(s, es, k)
    ensures Inv(M.Run(s, es)) && k in M.Run(s, es).viChns && M.Run(s, es).viFps == s.viFps
    ensures TicksTo(s.viChns[k], s.viFps, FrameTimes(s, es, k), M.Run(s, es).viChns[k])
    decreases |es|
  {
    if es != [] {
      var n := |es| - 1;
      var t := M.Run(s, es[..n]);
      assert M.Run(s, es) == M.Next(t, es[n]) by { hide M.Next; }
      var times := FrameTimes(s, es[..n], k);
      assert k in t.viChns && k in M.Run(s, es).viChns ==>
          FrameTimes(s, es, k) == if M.Run(s, es).viChns[k] != t.viChns[k] then times + [es[n].now] else times by {
        hide M.Run;
      }
      hide *;
      UndisturbedBefore(s, es, k);
      RunTicks(s, es[..n], k);
      InvIsGood(t);
      InvKept(t, es[n]);
      StepOfCall(t, es[n], k);
      StepsMeans(t, M.Run(s, es), k, es[n].now);
      if M.Run(s, es).viChns[k] != t.viChns[k] {
        TicksOn(s.viChns[k], s.viFps, times, t.viChns[k], es[n].now, M.Run(s, es).viChns[k]);
      }
    }
  }

  lemma StepsMeans(s: State, t: State, k: (int, int), now: nat)
    requires Steps(s, t, k, now)
    ensures k in s.viChns && k in t.viChns && t.viFps == s.viFps
    ensures t.viChns[k] == s.viChns[k] || Tick(s.viChns[k], s.viFps, now) == (t.viChns[k], None)
  {
    hide Tick;
  }

  ghost predicate ClockRuns(es: seq<M.Event>) {
    forall i, j :: 0 <= i < j < |es| ==> es[i].now <= es[j].now
  }

  lemma {:induction false} TimesOrdered(s: State, es: seq<M.Event>, k: (int, int))
    requires ClockRuns(es)
    ensures Ordered(FrameTimes(s, es, k))
    ensures forall i :: 0 <= i < |FrameTimes(s, es, k)| ==> exists j :: 0 <= j < |es| && es[j].now == FrameTimes(s, es, k)[i]
    decreases |es|
  {
    hide M.Run;
    if es != [] {
      TimesOrdered(s, es[..|es| - 1], k);
    }
  }

  /** Frame `i` does not come before the first one and `i` periods, and any window holds at
      most two frames more than whole periods. */
  ghost predicate Paced(times: seq<nat>, period: nat) {
    && (forall i :: 0 <= i < |times| ==> times[i] >= times[0] + i * period)
    && (period > 0 ==> forall i, j :: 0 <= i <= j < |times| ==>
          times[j] >= times[i] && j - i + 1 <= (times[j] - times[i]) / period + 2)
  }

  /** For a rate in frames per second, with times in nanoseconds. */
  ghost predicate PacedAt(times: seq<nat>, fps: nat) {
    fps > 0 && Paced(times, 1_000_000_000 / fps)
  }

  /** After a camera channel is enabled, and until it is configured again, its frames are
      paced, whoever pulls from it, directly or through groups and encoders. */
  lemma CameraIsPaced(s: State, es: seq<M.Event>, k: (int, int))
    requires Inv(s) && k in s.viChns && s.viChns[k].nextDue.None? && s.viFps > 0 && ClockRuns(es)
    requires Undisturbed(s, es, k)
    ensures PacedAt(FrameTimes(s, es, k), s.viFps)
  {
    hide *;
    RunTicks(s, es, k);
    TimesOrdered(s, es, k);
    PacedTimes(s.viChns[k], s.viFps, FrameTimes(s, es, k), M.Run(s, es).viChns[k]);
  }

  lemma PacedTimes(c: ViChn, fps: nat, times: seq<nat>, d: ViChn)
    requires c.nextDue.None? && fps > 0 && Ordered(times) && TicksTo(c, fps, times, d)
    ensures PacedAt(times, fps)
  {
    hide Tick, Frames, Period, Ticked;
    var p := 1_000_000_000 / fps;
    forall i | 0 <= i < |times|
      ensures times[i] >= times[0] + i * p
    {
      NeverEarly(c, fps, times, i);
    }
    if p > 0 {
      forall i, j | 0 <= i <= j < |times|
        ensures times[j] >= times[i] && j - i + 1 <= (times[j] - times[i]) / p + 2
      {
        assert times[j] >= times[i];
        WindowHolds(c, fps, times, i, j, times[j] - times[i]);
      }
    }
  }
}
