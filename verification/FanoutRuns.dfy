/** The channels of a running group, in runs of the whole library. */
module FanoutRuns {
  import opened Bytes
  import opened Images
  import opened Mpi
  import opened Flow
  import opened FlowLaws
  import opened Fanout
  import opened Invariants
  import M = Machine
  import Pools

  /** The moves that concern a channel. */
  function EventsOf(moves: seq<Move>, g: int, c: int): seq<ChnEvent>
    decreases |moves|
  {
    if moves == [] then [] else
    var (before, m) := (EventsOf(moves[..|moves| - 1], g, c), moves[|moves| - 1]);
    if m.grp != g then before
    else match m
      case Input(_, img) => before + [In(img)]
      case Output(_, d, img) => if d == c then before + [Out(img)] else before
  }

  /** What a call does to the groups. */
  ghost function MovesOf(s: State, e: M.Event): seq<Move> {
    if !(Good(s) && M.Legal(s, e)) then [] else
    match e.op
    case OnVpss(SendVpss(g, f)) => SendVpss(s, e.now, g, f).2
    case OnVpss(GetVpssFrame(g, c, _)) => PullVpss(s, e.now, g, c).moves
    case OnVenc(GetStream(v, _)) => PullVenc(s, e.now, v).moves
    case _ => []
  }

  /** The events of a channel over a run. */
  ghost function Log(s: State, es: seq<M.Event>, g: int, c: int): seq<ChnEvent> {
    if es == [] then [] else
    var n := |es| - 1;
    Log(s, es[..n], g, c) + EventsOf(MovesOf(M.Run(s, es[..n]), es[n]), g, c)
  }

  /** Channel `c` of group `g` is configured and enabled, and the group is started. */
  ghost predicate On(s: State, g: int, c: int) {
    g in s.grps && s.grps[g].started && c in s.grps[g].chns && s.grps[g].chns[c].enabled
  }

  /** The calls that end such a span, if the library accepts them. */
  predicate Closes(s: State, op: M.Op, g: int, c: int) {
    match op
    case OnSys(Exit) => true
    case OnVpss(SetStarted(h, started)) => h == g && !started && SetStarted(s, h, started).1 == Success
    case OnVpss(SetVpssChnAttr(h, d, attr)) => h == g && d == c && SetVpssChnAttr(s, h, d, attr).1 == Success
    case OnVpss(DisableVpssChn(h, d)) => h == g && d == c && DisableVpssChn(s, h, d).1 == Success
    case _ => false
  }

  /** No call of the run ends the span. */
  ghost predicate StaysOpen(s: State, es: seq<M.Event>, g: int, c: int) {
    forall i :: 0 <= i < |es| ==> !Closes(M.Run(s, es[..i]), es[i].op, g, c)
  }

  lemma StaysOpenBefore(s: State, es: seq<M.Event>, g: int, c: int)
    requires es != [] && StaysOpen(s, es, g, c)
    ensures StaysOpen(s, es[..|es| - 1], g, c) && !Closes(M.Run(s, es[..|es| - 1]), es[|es| - 1].op, g, c)
  {
    hide Closes, M.Run;
    var before := es[..|es| - 1];
    assert forall i :: 0 <= i < |before| ==> before[..i] == es[..i];
  }

  // ---------------------------------------------------------------- from groups to channels

  lemma {:induction false} EventsAreGood(moves: seq<Move>, g: int, c: int)
    requires GoodMoves(moves)
    ensures GoodLog(EventsOf(moves, g, c))
    decreases |moves|
  {
    hide GoodImage;
    if moves != [] {
      EventsAreGood(moves[..|moves| - 1], g, c);
    }
  }

  /** A group that plays the moves plays the events of each of its channels. */
  lemma {:induction false} ChannelPlays(grp: VpssGrp, g: int, c: int, moves: seq<Move>)
    requires GoodGrp(grp) && GoodMoves(moves) && c in grp.chns && InOrder(grp, g, moves)
    ensures GoodLog(EventsOf(moves, g, c)) && Heads(grp.chns[c], EventsOf(moves, g, c))
    ensures var r := Play(grp, g, moves);
            r.started == grp.started && c in r.chns && r.chns[c] == PlayChn(grp.chns[c], EventsOf(moves, g, c))
    decreases |moves|
  {
    EventsAreGood(moves, g, c);
    if moves != [] {
      var n := |moves| - 1;
      var before, m := moves[..n], moves[n];
      InOrderPrefix(grp, g, moves);
      hide GoodImage, Fed;
      ChannelPlays(grp, g, c, before);
      var was := EventsOf(before, g, c);
      var evs := EventsOf(moves, g, c);
      if evs != was {
        assert |evs| == |was| + 1 && evs[..|was|] == was;
        PlaysOneMore(grp.chns[c], was, evs);
      }
    }
  }

  lemma InOrderPrefix(grp: VpssGrp, g: int, moves: seq<Move>)
    requires GoodGrp(grp) && GoodMoves(moves) && moves != [] && InOrder(grp, g, moves)
    ensures GoodMoves(moves[..|moves| - 1]) && InOrder(grp, g, moves[..|moves| - 1])
    ensures var (m, at) := (moves[|moves| - 1], Play(grp, g, moves[..|moves| - 1]));
            m.Output? && m.grp == g ==> m.chn in at.chns && at.chns[m.chn].queue != [] && at.chns[m.chn].queue[0] == m.image
  {
    var before := moves[..|moves| - 1];
    assert forall i :: 0 <= i < |before| ==> before[..i] == moves[..i];
    hide GoodImage, Play;
  }

  lemma PlaysOneMore(c: VpssChn, was: seq<ChnEvent>, evs: seq<ChnEvent>)
    requires GoodChn(c) && GoodLog(evs) && evs != [] && was == evs[..|evs| - 1] && GoodLog(was) && Heads(c, was)
    requires var e := evs[|evs| - 1];
             e.Out? ==> PlayChn(c, was).queue != [] && PlayChn(c, was).queue[0] == e.image
    ensures Heads(c, evs) && PlayChn(c, evs) == PlayEvent(PlayChn(c, was), evs[|evs| - 1])
  {
    hide GoodImage, PlayEvent;
    forall i | 0 <= i < |evs| && evs[i].Out?
      ensures var q := PlayChn(c, evs[..i]).queue; q != [] && q[0] == evs[i].image
    {
      if i < |was| {
        assert evs[..i] == was[..i];
      }
    }
  }

  lemma NoMoves(grp: VpssGrp, g: int, c: int)
    requires GoodGrp(grp) && c in grp.chns
    ensures Heads(grp.chns[c], []) && PlayChn(grp.chns[c], []) == grp.chns[c] && EventsOf([], g, c) == []
  {
  }

  // ---------------------------------------------------------------- one call

  /** A channel that is on stays on and plays the events of the call. */
  ghost predicate Plays(s: State, t: State, g: int, c: int, moves: seq<Move>) {
    && On(s, g, c) && On(t, g, c) && GoodChn(s.grps[g].chns[c])
    && GoodLog(EventsOf(moves, g, c)) && Heads(s.grps[g].chns[c], EventsOf(moves, g, c))
    && t.grps[g].chns[c] == PlayChn(s.grps[g].chns[c], EventsOf(moves, g, c))
  }

  lemma SameGroup(s: State, t: State, g: int, c: int)
    requires Good(s) && On(s, g, c) && g in t.grps && t.grps[g].started == s.grps[g].started
    requires c in t.grps[g].chns && t.grps[g].chns[c] == s.grps[g].chns[c]
    ensures Plays(s, t, g, c, [])
  {
    assert GoodGrp(s.grps[g]);
    hide GoodChn;
    NoMoves(s.grps[g], g, c);
  }

  lemma {:induction false} PlayKeepsEnabled(c: VpssChn, log: seq<ChnEvent>)
    requires GoodChn(c) && GoodLog(log)
    ensures PlayChn(c, log).enabled == c.enabled
    decreases |log|
  {
    hide GoodImage, OutputOf;
    if log != [] {
      PlayKeepsEnabled(c, log[..|log| - 1]);
    }
  }

  /** After a successful attempt, whoever made it. */
  lemma FramePlays(s: State, now: nat, p: Pulled, top: nat, g: int, c: int)
    requires Good(s) && On(s, g, c) && p.outcome.Ready? && OneFrame(s, now, p, top)
    ensures Plays(s, p.state, g, c, p.moves)
  {
    hide GoodImage, Chain, Climbs, OneSource, Play, InOrder;
    ChannelPlays(s.grps[g], g, c, p.moves);
    PlayKeepsEnabled(s.grps[g].chns[c], EventsOf(p.moves, g, c));
  }

  lemma SendPlays(s: State, now: nat, h: int, f: VideoFrame, g: int, c: int)
    requires Good(s) && On(s, g, c) && Scalable(s, now, h, f)
    ensures Plays(s, SendVpss(s, now, h, f).0, g, c, SendVpss(s, now, h, f).2)
  {
    var (t, code, moves) := SendVpss(s, now, h, f);
    if moves != [] {
      ImportedIsGood(s, now, f);
      var img := ImportFrame(s, now, f).value;
      FeedIsInput(s, h, img);
      var was := s.grps[g];
      assert moves[..0] == [];
      assert GoodMoves(moves) && InOrder(was, g, moves) && Play(was, g, moves) == PlayMove(was, g, moves[0]);
      hide GoodImage, ImportFrame, Feed, GoodGrp, PlayMove, Play, InOrder, Scalable;
      ChannelPlays(was, g, c, moves);
      PlayKeepsEnabled(was.chns[c], EventsOf(moves, g, c));
    } else {
      hide GoodImage, ImportFrame, Scalable;
      SameGroup(s, t, g, c);
    }
  }

  lemma PullPlays(s: State, now: nat, h: int, d: int, g: int, c: int)
    requires Good(s) && On(s, g, c) && Ends(s, h, d)
    ensures Plays(s, PullVpss(s, now, h, d).state, g, c, PullVpss(s, now, h, d).moves)
  {
    var p := PullVpss(s, now, h, d);
    if p.outcome.Ready? {
      PullConsumesOneFrame(s, now, h, d);
      hide *;
      FramePlays(s, now, p, Depth(s, h, d), g, c);
    } else {
      hide PullVpss, Good, Ends;
      SameGroup(s, s, g, c);
    }
  }

  lemma StreamPlays(s: State, now: nat, v: int, g: int, c: int)
    requires Good(s) && On(s, g, c) && VencEnds(s, v)
    ensures Plays(s, PullVenc(s, now, v).state, g, c, PullVenc(s, now, v).moves)
  {
    var p := PullVenc(s, now, v);
    var up := Chn(Venc, 0, v);
    if p.outcome.Ready? && s.vencs[v].queue == [] {
      assert PullBound(s, now, up) == Some(p) && up in s.binds;
      BoundConsumesOneFrame(s, now, up);
      hide *;
      FramePlays(s, now, p, BoundDepth(s, up), g, c);
    } else {
      hide PullVenc, PullBound, Good, Plays, VencEnds;
      SameGroup(s, p.state, g, c);
    }
  }

  ghost predicate Alone(s: State, t: State, g: int, c: int) {
    On(s, g, c) && On(t, g, c) && t.grps[g].chns[c] == s.grps[g].chns[c]
  }

  lemma GroupCallsKeep(s: State, h: int, format: PixelFormat, started: bool, g: int, c: int)
    requires On(s, g, c)
    ensures Alone(s, CreateGrp(s, h, format).0, g, c) && Alone(s, DestroyGrp(s, h).0, g, c)
    ensures h != g || started ==> Alone(s, SetStarted(s, h, started).0, g, c)
  {
    hide Cleared;
  }

  lemma SetElsewhere(s: State, h: int, d: int, x: VpssChn, g: int, c: int)
    requires On(s, g, c) && h in s.grps && ((h, d) != (g, c) || x == s.grps[g].chns[c])
    ensures Alone(s, SetChn(s, h, d, x), g, c) && Alone(s, s, g, c)
  {
  }

  lemma ChnCallsKeep(s: State, h: int, d: int, attr: VpssChn, g: int, c: int)
    requires On(s, g, c)
    ensures Alone(s, EnableVpssChn(s, h, d).0, g, c)
    ensures (h, d) != (g, c) ==> Alone(s, SetVpssChnAttr(s, h, d, attr).0, g, c) && Alone(s, DisableVpssChn(s, h, d).0, g, c)
  {
    OnMeans(s, g, c);
    hide Alone, On, SetChn;
    SetElsewhere(s, g, c, s.grps[g].chns[c], g, c);
    if h in s.grps {
      var chns := s.grps[h].chns;
      var on := d in chns && chns[d].enabled;
      if (h, d) != (g, c) {
        SetElsewhere(s, h, d, attr.(enabled := on, number := 0, queue := []), g, c);
      }
      if d in chns {
        SetElsewhere(s, h, d, if (h, d) == (g, c) then chns[d] else chns[d].(enabled := true), g, c);
        SetElsewhere(s, h, d, if (h, d) == (g, c) then chns[d] else chns[d].(enabled := false, queue := []), g, c);
      }
    }
  }

  /** A configuration call that does not end the span, or that is refused, leaves the
      channel alone. */
  lemma ConfigPlays(s: State, op: M.VpssOp, now: nat, g: int, c: int)
    requires Good(s) && On(s, g, c) && !Closes(s, M.OnVpss(op), g, c) && !op.SendVpss? && !op.GetVpssFrame?
    ensures Plays(s, M.VpssEffect(s, op, now), g, c, [])
  {
    var t := M.VpssEffect(s, op, now);
    assert Alone(s, t, g, c) by {
      hide Good, Alone, On, CreateGrp, DestroyGrp, SetStarted, EnableVpssChn, SetVpssChnAttr, DisableVpssChn;
      NoneLeaves(s, g, c);
      match op
      case CreateGrp(h, format) => GroupCallsKeep(s, h, format, true, g, c);
      case DestroyGrp(h) => GroupCallsKeep(s, h, Nv12, true, g, c);
      case SetStarted(h, started) => GroupCallsKeep(s, h, Nv12, started, g, c);
      case SetVpssChnAttr(h, d, attr) => ChnCallsKeep(s, h, d, attr, g, c);
      case EnableVpssChn(h, d) => ChnCallsKeep(s, h, d, s.grps[g].chns[c], g, c);
      case DisableVpssChn(h, d) => ChnCallsKeep(s, h, d, s.grps[g].chns[c], g, c);
      case _ =>
    }
    hide Good, M.VpssEffect;
    SameGroup(s, t, g, c);
  }

  lemma NoneLeaves(s: State, g: int, c: int)
    requires On(s, g, c)
    ensures g in s.grps && c in s.grps[g].chns && Alone(s, s, g, c)
  {
  }

  lemma OnMeans(s: State, g: int, c: int)
    requires On(s, g, c)
    ensures g in s.grps && s.grps[g].started && c in s.grps[g].chns && s.grps[g].chns[c].enabled
  {
  }

  lemma StepPlays(s: State, e: M.Event, g: int, c: int)
    requires Good(s) && On(s, g, c) && !Closes(s, e.op, g, c)
    ensures Plays(s, M.Next(s, e), g, c, MovesOf(s, e))
  {
    hide Good, Plays, On, PullVpss, PullVenc, SendVpss, M.VpssEffect, M.VencEffect, M.ViEffect, M.MbEffect, M.SysEffect,
         M.VpssLegal, M.VencLegal;
    OnMeans(s, g, c);
    if !M.Legal(s, e) {
      SameGroup(s, s, g, c);
    } else {
      match e.op
      case OnSys(op) => M.SysTouches(s, op, e.now); SameGroup(s, M.Next(s, e), g, c);
      case OnMb(op) => M.MbTouches(s, op); SameGroup(s, M.Next(s, e), g, c);
      case OnVi(op) => M.ViTouches(s, op, e.now); SameGroup(s, M.Next(s, e), g, c);
      case OnVpss(op) => VpssPlays(s, op, e, g, c);
      case OnVenc(op) => VencPlays(s, op, e, g, c);
    }
  }

  lemma VpssPlays(s: State, op: M.VpssOp, e: M.Event, g: int, c: int)
    requires Good(s) && On(s, g, c) && !Closes(s, e.op, g, c) && M.Legal(s, e) && e.op == M.OnVpss(op)
    ensures Plays(s, M.Next(s, e), g, c, MovesOf(s, e))
  {
    hide Good, Plays, On, PullVpss, SendVpss, Ends, Scalable;
    if op.SendVpss? {
      SendPlays(s, e.now, op.grp, op.frame, g, c);
    } else if op.GetVpssFrame? {
      PullPlays(s, e.now, op.grp, op.chn, g, c);
      DeliveryKeepsGroups(s, e, g, c, op.grp, op.chn, op.mb);
    } else {
      ConfigPlays(s, op, e.now, g, c);
      hide M.VpssEffect;
    }
  }

  /** Handing a frame out adds a block and changes no group. */
  lemma DeliveryKeepsGroups(s: State, e: M.Event, g: int, c: int, h: int, d: int, mb: Handle)
    requires Good(s) && Ends(s, h, d)
    ensures var p := PullVpss(s, e.now, h, d);
            Plays(s, p.state, g, c, p.moves) ==> Plays(s, GetVpssFrame(s, e.now, h, d, mb).0, g, c, p.moves)
  {
    hide PullVpss, Good, GoodChn, Heads, EventsOf, PlayChn, Ends;
  }

  lemma VencPlays(s: State, op: M.VencOp, e: M.Event, g: int, c: int)
    requires Good(s) && On(s, g, c) && M.Legal(s, e) && e.op == M.OnVenc(op)
    ensures Plays(s, M.Next(s, e), g, c, MovesOf(s, e))
  {
    if op.GetStream? {
      StreamPlays(s, e.now, op.chn, g, c);
      StreamKeepsGroups(s, e.now, op.chn, op.mb);
      hide Good, PullVenc, GetStream, Heads, EventsOf, PlayChn, GoodChn, VencEnds, Packs;
    } else {
      hide Good, Plays, M.VencEffect, VencEnds, Packs;
      M.VencTouches(s, op, e.now);
      SameGroup(s, M.Next(s, e), g, c);
    }
  }

  lemma StreamKeepsGroups(s: State, now: nat, v: int, mb: Handle)
    requires Good(s) && VencEnds(s, v) && Packs(s, v)
    ensures GetStream(s, now, v, mb).0.grps == PullVenc(s, now, v).state.grps
  {
    hide PullVenc, Good, PacketOf, VencEnds, Packs;
  }

  // ---------------------------------------------------------------- whole runs

  lemma {:induction false} PlayLogAppend(c: VpssChn, a: seq<ChnEvent>, b: seq<ChnEvent>)
    requires GoodChn(c) && GoodLog(a) && GoodLog(b)
    ensures GoodLog(a + b) && PlayChn(c, a + b) == PlayChn(PlayChn(c, a), b)
    decreases |b|
  {
    hide GoodImage, PlayEvent;
    if b == [] {
      assert a + b == a;
    } else {
      var n := |b| - 1;
      assert (a + b)[..|a + b| - 1] == a + b[..n] && (a + b)[|a + b| - 1] == b[n];
      PlayLogAppend(c, a, b[..n]);
    }
  }

  lemma HeadsAppend(c: VpssChn, a: seq<ChnEvent>, b: seq<ChnEvent>)
    requires GoodChn(c) && GoodLog(a) && GoodLog(b) && Heads(c, a) && Heads(PlayChn(c, a), b)
    ensures GoodLog(a + b) && Heads(c, a + b)
  {
    hide GoodImage, PlayChn;
    forall i | 0 <= i < |a + b| && (a + b)[i].Out?
      ensures var q := PlayChn(c, (a + b)[..i]).queue; q != [] && q[0] == (a + b)[i].image
    {
      if i < |a| {
        assert (a + b)[..i] == a[..i];
      } else {
        assert (a + b)[..i] == a + b[..i - |a|];
        PlayLogAppend(c, a, b[..i - |a|]);
      }
    }
  }

  /** What a log says about a channel, before and after. */
  ghost predicate Tells(was: VpssChn, log: seq<ChnEvent>, now: VpssChn) {
    GoodChn(was) && GoodLog(log) && Heads(was, log) && now == PlayChn(was, log)
  }

  lemma TellsOn(was: VpssChn, a: seq<ChnEvent>, mid: VpssChn, b: seq<ChnEvent>, now: VpssChn)
    requires Tells(was, a, mid) && Tells(mid, b, now)
    ensures Tells(was, a + b, now)
  {
    hide GoodChn, GoodLog, Heads, PlayChn;
    PlayLogAppend(was, a, b);
    HeadsAppend(was, a, b);
  }

  lemma PlaysTells(s: State, t: State, g: int, c: int, moves: seq<Move>)
    requires Plays(s, t, g, c, moves)
    ensures g in s.grps && c in s.grps[g].chns && g in t.grps && c in t.grps[g].chns && On(t, g, c)
    ensures Tells(s.grps[g].chns[c], EventsOf(moves, g, c), t.grps[g].chns[c])
  {
    hide GoodChn, GoodLog, Heads, PlayChn, EventsOf;
  }

  /** Over a span without calls that end it, a channel does what its log says. */
  lemma {:induction false} RunPlays(s: State, es: seq<M.Event>, g: int, c: int)
    requires Inv(s) && On(s, g, c) && StaysOpen(s, es, g, c)
    ensures Inv(M.Run(s, es)) && On(M.Run(s, es), g, c)
    ensures Tells(s.grps[g].chns[c], Log(s, es, g, c), M.Run(s, es).grps[g].chns[c])
    decreases |es|
  {
    OnMeans(s, g, c);
    if es == [] {
      InvIsGood(s);
      hide Good, Inv, On, Tells;
      SameGroup(s, s, g, c);
      PlaysTells(s, s, g, c, []);
    } else {
      var n := |es| - 1;
      var before := es[..n];
      var t := M.Run(s, before);
      assert M.Run(s, es) == M.Next(t, es[n]) by { hide M.Next; }
      assert Log(s, es, g, c) == Log(s, before, g, c) + EventsOf(MovesOf(t, es[n]), g, c) by { hide EventsOf, MovesOf; }
      hide *;
      StaysOpenBefore(s, es, g, c);
      RunPlays(s, before, g, c);
      InvIsGood(t);
      InvKept(t, es[n]);
      StepPlays(t, es[n], g, c);
      PlaysTells(t, M.Run(s, es), g, c, MovesOf(t, es[n]));
      TellsOn(s.grps[g].chns[c], Log(s, before, g, c), t.grps[g].chns[c], EventsOf(MovesOf(t, es[n]), g, c),
              M.Run(s, es).grps[g].chns[c]);
    }
  }

  /** The `i`-th event of a log, if it is a delivery, hands out what the channel makes of
      the oldest input frame that is neither delivered, nor overtaken, nor crowded out by
      as many newer ones as the channel's depth, or by one if that is 0. */
  ghost predicate DeliversNext(c: VpssChn, log: seq<ChnEvent>, i: nat)
    requires GoodChn(c) && GoodLog(log) && i < |log| && log[i].Out?
  {
    var most := if c.depth > 1 then c.depth else 1;
    && GoodLog(log[..i])
    && 0 <= NextOut(log[..i], most) < |Ins(log[..i])|
    && log[i].image == OutputOf(c, Ins(log[..i])[NextOut(log[..i], most)])
  }

  /** All deliveries of a log are of this kind, each of a later input frame than the last,
      and what is queued in the end are the latest input frames. */
  ghost predicate InOrderChoice(c: VpssChn, log: seq<ChnEvent>, queue: seq<Image>) {
    var most := if c.depth > 1 then c.depth else 1;
    && GoodChn(c) && GoodLog(log)
    && (forall i: nat :: i < |log| && log[i].Out? ==> DeliversNext(c, log, i))
    && (forall i: nat, j: nat :: i < j < |log| && log[i].Out? && log[j].Out? ==>
          GoodLog(log[..i]) && GoodLog(log[..j]) && NextOut(log[..i], most) < NextOut(log[..j], most))
    && 0 <= NextOut(log, most) <= |Ins(log)|
    && queue == Outs(c, Ins(log)[NextOut(log, most)..])
  }

  lemma TellsInOrderChoice(was: VpssChn, log: seq<ChnEvent>, now: VpssChn)
    requires Tells(was, log, now) && was.enabled && was.queue == []
    ensures InOrderChoice(was, log, now.queue)
  {
    hide GoodChn, GoodImage, Heads, PlayChn, OutputOf, Outs, GoodLog;
    QueueIsWindow(was, log);
    forall i: nat | i < |log| && log[i].Out?
      ensures DeliversNext(was, log, i)
    {
      DeliveryIsNext(was, log, i);
    }
    forall i: nat, j: nat | i < j < |log| && log[i].Out? && log[j].Out?
      ensures GoodLog(log[..i]) && GoodLog(log[..j])
      ensures NextOut(log[..i], Capacity(was)) < NextOut(log[..j], Capacity(was))
    {
      DeliveriesAdvance(log, i, j, Capacity(was));
    }
  }

  /** In every run, what a channel delivers while it is on is an in-order, duplicate-free
      choice of its group's input frames: only the oldest are dropped, and only when the
      queue is full. What is still queued are the latest input frames. */
  lemma ChannelDeliversInOrder(s: State, es: seq<M.Event>, g: int, c: int)
    requires Inv(s) && On(s, g, c) && s.grps[g].chns[c].queue == [] && StaysOpen(s, es, g, c)
    ensures On(M.Run(s, es), g, c)
    ensures InOrderChoice(s.grps[g].chns[c], Log(s, es, g, c), M.Run(s, es).grps[g].chns[c].queue)
  {
    OnMeans(s, g, c);
    hide *;
    RunPlays(s, es, g, c);
    OnMeans(M.Run(s, es), g, c);
    TellsInOrderChoice(s.grps[g].chns[c], Log(s, es, g, c), M.Run(s, es).grps[g].chns[c]);
  }

  /** The frames that a group takes in by these moves. */
  function InputsOf(moves: seq<Move>, g: int): seq<Image>
    decreases |moves|
  {
    if moves == [] then [] else
    var (before, m) := (InputsOf(moves[..|moves| - 1], g), moves[|moves| - 1]);
    if m.Input? && m.grp == g then before + [m.image] else before
  }

  /** The frames that a group takes in over a run. */
  ghost function Inputs(s: State, es: seq<M.Event>, g: int): seq<Image> {
    if es == [] then [] else
    var n := |es| - 1;
    Inputs(s, es[..n], g) + InputsOf(MovesOf(M.Run(s, es[..n]), es[n]), g)
  }

  lemma {:induction false} InsOfMoves(moves: seq<Move>, g: int, c: int)
    requires GoodMoves(moves)
    ensures GoodLog(EventsOf(moves, g, c)) && Ins(EventsOf(moves, g, c)) == InputsOf(moves, g)
    decreases |moves|
  {
    EventsAreGood(moves, g, c);
    hide GoodImage;
    if moves != [] {
      var before, m := moves[..|moves| - 1], moves[|moves| - 1];
      InsOfMoves(before, g, c);
      InsAfter(EventsOf(before, g, c), EventsOf(moves, g, c));
    }
  }

  lemma InsAfter(was: seq<ChnEvent>, now: seq<ChnEvent>)
    requires GoodLog(was) && GoodLog(now)
    requires now == was || (now != [] && now == was + [now[|now| - 1]])
    ensures Ins(now) == if now != was && now[|now| - 1].In? then Ins(was) + [now[|now| - 1].image] else Ins(was)
  {
    hide GoodImage;
    if now != was {
      assert now[..|now| - 1] == was;
    }
  }

  lemma {:induction false} InsAppend(a: seq<ChnEvent>, b: seq<ChnEvent>)
    requires GoodLog(a) && GoodLog(b)
    ensures GoodLog(a + b) && Ins(a + b) == Ins(a) + Ins(b)
    decreases |b|
  {
    hide GoodImage;
    if b == [] {
      assert a + b == a;
    } else {
      var n := |b| - 1;
      assert (a + b)[..|a + b| - 1] == a + b[..n] && (a + b)[|a + b| - 1] == b[n];
      InsAppend(a, b[..n]);
    }
  }

  lemma MovesAreGood(s: State, e: M.Event)
    ensures GoodMoves(MovesOf(s, e))
  {
    if Good(s) && M.Legal(s, e) {
      hide Good, PullVpss, PullVenc, PullBound, ImportFrame, WellFormed, Feed, Ends, BoundEnds, VencEnds, Packs, Scalable;
      match e.op
      case OnVpss(SendVpss(g, f)) =>
        ImportedIsGood(s, e.now, f);
      case OnVpss(GetVpssFrame(g, c, _)) =>
        if PullVpss(s, e.now, g, c).outcome.Ready? {
          PullConsumesOneFrame(s, e.now, g, c);
        }
      case OnVenc(GetStream(v, _)) =>
        var up := Chn(Venc, 0, v);
        if PullVenc(s, e.now, v).outcome.Ready? && s.vencs[v].queue == [] {
          BoundConsumesOneFrame(s, e.now, up);
        }
      case _ =>
    }
  }

  lemma {:induction false} LogTakesInputs(s: State, es: seq<M.Event>, g: int, c: int)
    ensures GoodLog(Log(s, es, g, c)) && Ins(Log(s, es, g, c)) == Inputs(s, es, g)
    decreases |es|
  {
    hide GoodImage, MovesOf, EventsOf, M.Run;
    if es != [] {
      var n := |es| - 1;
      var moves := MovesOf(M.Run(s, es[..n]), es[n]);
      LogTakesInputs(s, es[..n], g, c);
      MovesAreGood(M.Run(s, es[..n]), es[n]);
      InsOfMoves(moves, g, c);
      InsAppend(Log(s, es[..n], g, c), EventsOf(moves, g, c));
    }
  }

  /** What the channel has delivered and still holds is an in-order choice of `inputs`. */
  ghost predicate ServedFrom(s: State, es: seq<M.Event>, g: int, c: int, inputs: seq<Image>) {
    && On(s, g, c) && On(M.Run(s, es), g, c) && GoodLog(Log(s, es, g, c)) && Ins(Log(s, es, g, c)) == inputs
    && InOrderChoice(s.grps[g].chns[c], Log(s, es, g, c), M.Run(s, es).grps[g].chns[c].queue)
  }

  /** Through whichever channel frames are asked for, every channel that is on is served
      from one and the same list, the frames that the group has taken in: each of them is
      delivered, held or dropped by every channel once. */
  lemma ChannelsShareInputs(s: State, es: seq<M.Event>, g: int)
    requires Inv(s) && g in s.grps
    ensures forall c :: On(s, g, c) && s.grps[g].chns[c].queue == [] && StaysOpen(s, es, g, c) ==>
              ServedFrom(s, es, g, c, Inputs(s, es, g))
  {
    hide Inv, On, StaysOpen, InOrderChoice, GoodLog, M.Run, Log, Inputs;
    forall c | On(s, g, c) && Empty(s, g, c) && StaysOpen(s, es, g, c)
      ensures ServedFrom(s, es, g, c, Inputs(s, es, g))
    {
      ChannelDeliversInOrder(s, es, g, c);
      LogTakesInputs(s, es, g, c);
    }
  }

  ghost predicate Empty(s: State, g: int, c: int) {
    On(s, g, c) && s.grps[g].chns[c].queue == []
  }

  // ---------------------------------------------------------------- how a span begins

  /** Whatever call turns a channel on, it starts with an empty queue. */
  lemma SpanOpensEmpty(s: State, e: M.Event, g: int, c: int)
    requires Inv(s) && !On(s, g, c) && On(M.Next(s, e), g, c)
    ensures Empty(M.Next(s, e), g, c)
  {
    InvIsGood(s);
    OffIsEmpty(s, g, c);
    if IsSwitch(e.op) {
      SwitchIs(s, e);
      hide *;
      SwitchFillsNone(s, e.op.vpss, g, c);
    } else {
      hide *;
      NotTurnedOn(s, e, g, c);
    }
  }

  predicate IsSwitch(op: M.Op) {
    op.OnVpss? && (op.vpss.SetStarted? || op.vpss.EnableVpssChn? || op.vpss.SetVpssChnAttr?)
  }

  ghost function Switched(s: State, op: M.VpssOp): State {
    match op
    case SetStarted(h, started) => SetStarted(s, h, started).0
    case EnableVpssChn(h, d) => EnableVpssChn(s, h, d).0
    case SetVpssChnAttr(h, d, attr) => SetVpssChnAttr(s, h, d, attr).0
    case _ => s
  }

  lemma SwitchIs(s: State, e: M.Event)
    requires Good(s) && IsSwitch(e.op)
    ensures M.Next(s, e) == Switched(s, e.op.vpss)
  {
    hide Good, SetStarted, EnableVpssChn, SetVpssChnAttr, M.SysEffect, M.MbEffect, M.ViEffect, M.VencEffect, M.VencLegal,
         CreateGrp, DestroyGrp, DisableVpssChn, SendVpss, GetVpssFrame;
  }

  lemma OffIsEmpty(s: State, g: int, c: int)
    requires Inv(s) && !On(s, g, c)
    ensures g in s.grps && c in s.grps[g].chns ==> s.grps[g].chns[c].queue == []
  {
    hide GoodGrp, VencsOk, VisOk, DevsOk, BindsOk, Pools.PoolsOk, Invariants.Empty;
  }

  lemma SwitchFillsNone(s: State, op: M.VpssOp, g: int, c: int)
    requires g in s.grps && c in s.grps[g].chns ==> s.grps[g].chns[c].queue == []
    ensures On(Switched(s, op), g, c) && !On(s, g, c) ==> Empty(Switched(s, op), g, c)
  {
    hide SetStarted, EnableVpssChn, SetVpssChnAttr;
    match op
    case SetStarted(h, started) => StartFillsNone(s, h, started, g, c);
    case EnableVpssChn(h, d) => EnableFillsNone(s, h, d, g, c);
    case SetVpssChnAttr(h, d, attr) => AttrFillsNone(s, h, d, attr, g, c);
    case _ =>
  }

  lemma StartFillsNone(s: State, h: int, started: bool, g: int, c: int)
    requires g in s.grps && c in s.grps[g].chns ==> s.grps[g].chns[c].queue == []
    ensures On(SetStarted(s, h, started).0, g, c) ==> Empty(SetStarted(s, h, started).0, g, c)
  {
  }

  lemma EnableFillsNone(s: State, h: int, d: int, g: int, c: int)
    requires g in s.grps && c in s.grps[g].chns ==> s.grps[g].chns[c].queue == []
    ensures On(EnableVpssChn(s, h, d).0, g, c) ==> Empty(EnableVpssChn(s, h, d).0, g, c)
  {
  }

  lemma AttrFillsNone(s: State, h: int, d: int, attr: VpssChn, g: int, c: int)
    requires g in s.grps && c in s.grps[g].chns ==> s.grps[g].chns[c].queue == []
    ensures On(SetVpssChnAttr(s, h, d, attr).0, g, c) ==> Empty(SetVpssChnAttr(s, h, d, attr).0, g, c)
  {
  }

  /** Everything else turns no channel on. */
  lemma NotTurnedOn(s: State, e: M.Event, g: int, c: int)
    requires Good(s) && !On(s, g, c)
    requires !IsSwitch(e.op)
    ensures !On(M.Next(s, e), g, c)
  {
    hide Good, M.SysEffect, M.MbEffect, M.ViEffect, M.VpssEffect, M.VencEffect, M.VpssLegal, M.VencLegal;
    if M.Legal(s, e) {
      match e.op
      case OnSys(op) => SysTurnsNoneOn(s, op, e.now, g, c);
      case OnMb(op) => M.MbTouches(s, op);
      case OnVi(op) => M.ViTouches(s, op, e.now);
      case OnVpss(op) => VpssTurnsNoneOn(s, op, e.now, g, c);
      case OnVenc(op) => VencTurnsNoneOn(s, op, e.now, g, c);
    }
  }

  lemma SysTurnsNoneOn(s: State, op: M.SysOp, now: nat, g: int, c: int)
    requires !On(s, g, c)
    ensures !On(M.SysEffect(s, op, now), g, c)
  {
  }

  lemma OnBefore(s: State, t: State, g: int, c: int)
    requires Upstream(s, t) && On(t, g, c)
    ensures On(s, g, c)
  {
    assert SameGrp(s.grps[g], t.grps[g]);
    assert SameConfig(s.grps[g].chns[c], t.grps[g].chns[c]);
  }

  lemma VpssTurnsNoneOn(s: State, op: M.VpssOp, now: nat, g: int, c: int)
    requires Good(s) && !On(s, g, c) && M.VpssLegal(s, op, now)
    requires op.CreateGrp? || op.DestroyGrp? || op.DisableVpssChn? || op.SendVpss? || op.GetVpssFrame?
    ensures !On(M.VpssEffect(s, op, now), g, c)
  {
    if op.GetVpssFrame? {
      hide PullVpss, Good, Ends, On, Upstream;
      assert On(M.VpssEffect(s, op, now), g, c) <==> On(PullVpss(s, now, op.grp, op.chn).state, g, c) by {
        DeliveredOn(PullVpss(s, now, op.grp, op.chn), op.mb, g, c);
      }
      if On(PullVpss(s, now, op.grp, op.chn).state, g, c) {
        OnBefore(s, PullVpss(s, now, op.grp, op.chn).state, g, c);
      }
    } else if op.SendVpss? {
      hide Good, On, Upstream, Feed, ImportFrame, Scalable, WellFormed;
      ImportedIsGood(s, now, op.frame);
      if SendVpss(s, now, op.grp, op.frame).2 != [] {
        FeedKeeps(s, op.grp, ImportFrame(s, now, op.frame).value);
        if On(SendVpss(s, now, op.grp, op.frame).0, g, c) {
          OnBefore(s, SendVpss(s, now, op.grp, op.frame).0, g, c);
        }
      }
    } else {
      hide Good;
    }
  }

  lemma DeliveredOn(p: Pulled, mb: Handle, g: int, c: int)
    ensures forall timeRef :: On(Delivered(p, mb, timeRef).0, g, c) <==> On(p.state, g, c)
  {
  }

  lemma VencTurnsNoneOn(s: State, op: M.VencOp, now: nat, g: int, c: int)
    requires Good(s) && !On(s, g, c) && M.VencLegal(s, op)
    ensures !On(M.VencEffect(s, op, now), g, c)
  {
    if op.GetStream? {
      var p := PullVenc(s, now, op.chn);
      StreamKeepsGroups(s, now, op.chn, op.mb);
      hide PullVenc, Good, VencEnds, Packs, Upstream, GetStream;
      if p.outcome.Ready? && s.vencs[op.chn].queue == [] && On(p.state, g, c) {
        OnBefore(s, p.state, g, c);
      }
    } else {
      M.VencTouches(s, op, now);
      hide M.VencEffect, Good;
    }
  }
}
