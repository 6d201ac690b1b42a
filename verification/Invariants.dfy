/** What holds of the library in every state that calls can lead to. */
module Invariants {
  import opened Bytes
  import opened Images
  import opened Mpi
  import opened Flow
  import opened Strides
  import M = Machine
  import Pools

  /** A queue is no longer than its depth allows, and holds something only while its
      channel is enabled and the group is started. */
  ghost predicate GrpOk(g: VpssGrp) {
    GoodGrp(g) &&
    forall c :: c in g.chns ==>
      |g.chns[c].queue| <= (if g.chns[c].depth > 1 then g.chns[c].depth else 1) && (g.chns[c].queue != [] ==> g.chns[c].enabled && g.started)
  }

  ghost predicate GrpsOk(grps: map<int, VpssGrp>) {
    forall g :: g in grps ==> GrpOk(grps[g])
  }

  /** An encoder channel queues at most four frames, and none while it is stopped. */
  ghost predicate VencOk(v: VencChn) {
    GoodVenc(v) && |v.queue| <= 4 && (v.queue != [] ==> v.started)
  }

  ghost predicate VencsOk(vencs: map<int, VencChn>) {
    forall v :: v in vencs ==> VencOk(vencs[v])
  }

  ghost predicate VisOk(viChns: map<(int, int), ViChn>) {
    forall k :: k in viChns ==> GoodVi(viChns[k])
  }

  /** Only enabled devices have pipes, and no two devices share one. */
  ghost predicate DevsOk(viDevs: map<int, ViDev>) {
    && (forall d :: d in viDevs && viDevs[d].pipes.Some? ==> viDevs[d].enabled)
    && (forall d, e :: d in viDevs && e in viDevs && d != e && viDevs[d].pipes.Some? && viDevs[e].pipes.Some? ==>
          forall p :: p in viDevs[d].pipes.value ==> p !in viDevs[e].pipes.value)
  }

  /** Sinks are kept under the key by which their sources are looked up. */
  ghost predicate BindsOk(binds: map<Chn, Chn>) {
    forall dst :: dst in binds ==> Dst(dst) == dst
  }

  /** Before `Init` and after `Exit` there is nothing but blocks. */
  ghost predicate Empty(s: State) {
    s.binds == map[] && s.pools == map[] && s.viDevs == map[] && s.viChns == map[] && s.grps == map[] && s.vencs == map[]
  }

  ghost predicate Inv(s: State) {
    && GrpsOk(s.grps) && VencsOk(s.vencs) && VisOk(s.viChns) && DevsOk(s.viDevs) && BindsOk(s.binds) && Pools.PoolsOk(s)
    && (!s.initialized ==> Empty(s))
  }

  lemma InvIsGood(s: State)
    requires Inv(s)
    ensures Good(s)
  {
    hide GoodGrp, GoodVi, GoodVenc;
  }

  // ---------------------------------------------------------------- groups

  lemma FedOk(c: VpssChn, img: Image)
    requires GoodChn(c) && GoodImage(img) && |c.queue| <= Capacity(c)
    ensures |Fed(c, img).queue| <= Capacity(c)
    ensures Fed(c, img).enabled == c.enabled && Capacity(Fed(c, img)) == Capacity(c)
    ensures Fed(c, img).queue != [] && c.queue == [] ==> c.enabled
  {
    hide GoodImage, OutputOf;
  }

  lemma ProcessOk(g: VpssGrp, img: Image)
    requires GrpOk(g) && g.started && GoodImage(img)
    ensures GrpOk(Process(g, img))
  {
    var r := Process(g, img);
    assert GoodGrp(r);
    assert r.chns.Keys == g.chns.Keys && r.started;
    forall c | c in r.chns
      ensures |r.chns[c].queue| <= Capacity(r.chns[c]) && (r.chns[c].queue != [] ==> r.chns[c].enabled && r.started)
    {
      assert r.chns[c] == Fed(g.chns[c], img);
      hide GoodImage, GoodGrp, Fed, Process;
      FedOk(g.chns[c], img);
    }
  }

  /** Replacing one channel. */
  lemma SetChnOk(g: VpssGrp, c: int, chn: VpssChn)
    requires GrpOk(g) && GoodChn(chn) && |chn.queue| <= Capacity(chn)
    requires chn.queue != [] ==> chn.enabled && g.started
    ensures GrpOk(g.(chns := g.chns[c := chn]))
  {
    hide GoodChn;
  }

  lemma OneGrp(grps: map<int, VpssGrp>, g: int, grp: VpssGrp)
    requires GrpsOk(grps) && GrpOk(grp)
    ensures GrpsOk(grps[g := grp])
  {
    hide GrpOk;
  }

  lemma TailOk(chn: VpssChn)
    requires GoodChn(chn) && chn.queue != []
    ensures GoodChn(chn.(number := chn.number + 1, queue := chn.queue[1..]))
  {
    hide GoodImage;
  }

  lemma TakeHeadOk(s: State, g: int, c: int)
    requires Good(s) && GrpsOk(s.grps) && g in s.grps && c in s.grps[g].chns && s.grps[g].chns[c].queue != []
    ensures GrpsOk(TakeHead(s, g, c).state.grps)
  {
    var chn := s.grps[g].chns[c];
    TailOk(chn);
    hide GoodChn;
    SetChnOk(s.grps[g], c, chn.(number := chn.number + 1, queue := chn.queue[1..]));
    hide GrpOk;
  }

  lemma FeedOk(s: State, g: int, img: Image)
    requires Good(s) && GrpsOk(s.grps) && g in s.grps && s.grps[g].started && GoodImage(img)
    ensures GrpsOk(Feed(s, g, img).grps)
  {
    ProcessOk(s.grps[g], img);
    hide GrpOk, GoodGrp, GoodImage, Process;
  }

  lemma {:induction false} PullVpssOk(s: State, now: nat, g: int, c: int)
    requires Good(s) && Ends(s, g, c) && GrpsOk(s.grps)
    ensures GrpsOk(PullVpss(s, now, g, c).state.grps)
    decreases Depth(s, g, c), 0
  {
    hide GrpOk, WellFormed, OutputOf, Ends, BoundEnds, Depth, BoundDepth;
    if CheckVpssChn(s, g, c) == Success && c in s.grps[g].chns && s.grps[g].chns[c].enabled && s.grps[g].started {
      if s.grps[g].chns[c].queue != [] {
        TakeHeadOk(s, g, c);
      } else {
        StarvedEnds(s, g, c);
        if Inlet(g) in s.binds {
          StarvedOk(s, now, g, c);
        }
      }
    }
  }

  lemma {:induction false} StarvedOk(s: State, now: nat, g: int, c: int)
    requires Good(s) && Ends(s, g, c) && BoundEnds(s, Inlet(g)) && GrpsOk(s.grps) && Starved(s, g, c) && Inlet(g) in s.binds
    ensures GrpsOk(PullVpss(s, now, g, c).state.grps)
    decreases BoundDepth(s, Inlet(g)), 2
  {
    hide GrpOk, WellFormed, OutputOf, Ends, BoundEnds, Depth, BoundDepth, SameGrp;
    var q := PullBound(s, now, Inlet(g)).value;
    PullBoundOk(s, now, Inlet(g));
    if q.outcome.Ready? {
      FeedWorks(s, q, g, c);
      StillStarted(s, q.state, g);
      hide PullBound, Good;
      FeedOk(q.state, g, q.outcome.image);
      TakeHeadOk(Feed(q.state, g, q.outcome.image), g, c);
    }
  }

  lemma StillStarted(s: State, t: State, g: int)
    requires Upstream(s, t) && g in s.grps
    ensures g in t.grps && t.grps[g].started == s.grps[g].started
  {
    assert SameGrp(s.grps[g], t.grps[g]);
  }

  lemma {:induction false} PullBoundOk(s: State, now: nat, dst: Chn)
    requires Good(s) && BoundEnds(s, dst) && GrpsOk(s.grps) && dst in s.binds
    ensures GrpsOk(PullBound(s, now, dst).value.state.grps)
    decreases BoundDepth(s, dst), 1
  {
    hide GrpOk, GoodGrp, GoodImage, Ends, BoundEnds, Depth;
    if s.binds[dst].mod == Vpss {
      SourceEnds(s, dst);
      PullVpssOk(s, now, s.binds[dst].dev, s.binds[dst].chn);
    }
  }

  lemma ClearedOk(g: VpssGrp)
    requires GrpOk(g)
    ensures GrpOk(Cleared(g.(started := false)))
  {
    hide GoodImage;
    var r := Cleared(g.(started := false));
    forall c | c in r.chns
      ensures GoodChn(r.chns[c])
    {
      assert r.chns[c] == g.chns[c].(queue := []);
    }
  }

  lemma AttrOk(g: VpssGrp, c: int, chn: VpssChn)
    requires GrpOk(g) && chn.width > 0 && chn.height > 0 && Supported(chn.format) && chn.queue == []
    ensures GrpOk(g.(chns := g.chns[c := chn]))
  {
    assert GoodChn(chn);
    hide GoodChn;
    SetChnOk(g, c, chn);
  }

  lemma EnableOk(g: VpssGrp, c: int, enabled: bool)
    requires GrpOk(g) && c in g.chns
    ensures enabled ==> GrpOk(g.(chns := g.chns[c := g.chns[c].(enabled := true)]))
    ensures GrpOk(g.(chns := g.chns[c := g.chns[c].(enabled := false, queue := [])]))
  {
    assert GoodChn(g.chns[c]);
    hide GoodImage;
    SetChnOk(g, c, g.chns[c].(enabled := true));
    SetChnOk(g, c, g.chns[c].(enabled := false, queue := []));
  }

  lemma StartOk(g: VpssGrp)
    requires GrpOk(g)
    ensures GrpOk(g.(started := true))
  {
    hide GoodChn;
  }

  lemma GrpCallsOk(s: State, g: int, format: PixelFormat)
    requires GrpsOk(s.grps)
    ensures GrpsOk(CreateGrp(s, g, format).0.grps)
    ensures GrpsOk(DestroyGrp(s, g).0.grps)
  {
    assert GrpOk(VpssGrp(false, map[]));
    hide GrpOk, CheckGrp;
    OneGrp(s.grps, g, VpssGrp(false, map[]));
  }

  lemma SetStartedOk(s: State, g: int, started: bool)
    requires GrpsOk(s.grps)
    ensures GrpsOk(SetStarted(s, g, started).0.grps)
  {
    hide GrpOk, Cleared;
    if g in s.grps {
      StartOk(s.grps[g]);
      ClearedOk(s.grps[g]);
    }
  }

  lemma AttrCallOk(s: State, g: int, c: int, attr: VpssChn)
    requires GrpsOk(s.grps)
    ensures GrpsOk(SetVpssChnAttr(s, g, c, attr).0.grps)
  {
    hide GrpOk;
    if SetVpssChnAttr(s, g, c, attr).1 == Success {
      var enabled := c in s.grps[g].chns && s.grps[g].chns[c].enabled;
      AttrOk(s.grps[g], c, attr.(enabled := enabled, number := 0, queue := []));
    }
  }

  lemma EnableCallsOk(s: State, g: int, c: int)
    requires GrpsOk(s.grps)
    ensures GrpsOk(EnableVpssChn(s, g, c).0.grps)
    ensures GrpsOk(DisableVpssChn(s, g, c).0.grps)
  {
    hide GrpOk;
    if g in s.grps && c in s.grps[g].chns {
      EnableOk(s.grps[g], c, true);
    }
  }

  lemma GetVpssFrameOk(s: State, now: nat, g: int, c: int, mb: Handle)
    requires Good(s) && GrpsOk(s.grps) && Ends(s, g, c)
    ensures GrpsOk(GetVpssFrame(s, now, g, c, mb).0.grps)
  {
    PullVpssOk(s, now, g, c);
    hide GrpsOk, Good, PullVpss, Exported;
  }

  lemma SendVpssOk(s: State, now: nat, g: int, f: VideoFrame)
    requires Good(s) && GrpsOk(s.grps) && Scalable(s, now, g, f)
    ensures GrpsOk(SendVpss(s, now, g, f).0.grps)
  {
    ImportedIsGood(s, now, f);
    hide GrpsOk, Good, WellFormed, ImportFrame, Feed;
    if SendVpss(s, now, g, f).2 != [] {
      FeedOk(s, g, ImportFrame(s, now, f).value);
    }
  }

  lemma VpssKeepsGrps(s: State, op: M.VpssOp, now: nat)
    requires Good(s) && GrpsOk(s.grps) && M.VpssLegal(s, op, now)
    ensures GrpsOk(M.VpssEffect(s, op, now).grps)
  {
    hide GrpsOk, Good, CreateGrp, DestroyGrp, SetStarted, SetVpssChnAttr, EnableVpssChn, DisableVpssChn,
         SendVpss, GetVpssFrame;
    match op
    case CreateGrp(g, format) => GrpCallsOk(s, g, format);
    case DestroyGrp(g) => GrpCallsOk(s, g, Nv12);
    case SetStarted(g, started) => SetStartedOk(s, g, started);
    case SetVpssChnAttr(g, c, attr) => AttrCallOk(s, g, c, attr);
    case EnableVpssChn(g, c) => EnableCallsOk(s, g, c);
    case DisableVpssChn(g, c) => EnableCallsOk(s, g, c);
    case SendVpss(g, f) => SendVpssOk(s, now, g, f);
    case GetVpssFrame(g, c, mb) => GetVpssFrameOk(s, now, g, c, mb);
  }

  // ---------------------------------------------------------------- encoder channels

  lemma PullVencOk(s: State, now: nat, v: int)
    requires Good(s) && VencEnds(s, v) && GrpsOk(s.grps) && VencsOk(s.vencs)
    ensures var p := PullVenc(s, now, v); GrpsOk(p.state.grps) && VencsOk(p.state.vencs)
  {
    var p := PullVenc(s, now, v);
    if p.outcome.Ready? {
      if s.vencs[v].queue != [] {
        hide GrpOk, GoodImage, PullVenc;
        assert VencOk(s.vencs[v].(queue := s.vencs[v].queue[1..]));
        hide VencOk;
      } else {
        hide GrpOk, VencOk, Good, PullVenc;
        PullBoundOk(s, now, Chn(Venc, 0, v));
      }
    }
  }

  lemma GetStreamOk(s: State, now: nat, v: int, mb: Handle)
    requires Good(s) && VencEnds(s, v) && Packs(s, v) && GrpsOk(s.grps) && VencsOk(s.vencs)
    ensures var t := GetStream(s, now, v, mb).0; GrpsOk(t.grps) && VencsOk(t.vencs)
  {
    PullVencOk(s, now, v);
    var p := PullVenc(s, now, v);
    hide GrpOk, GoodImage, PullVenc, PacketOf;
    if p.outcome.Ready? {
      var c := p.state.vencs[v];
      assert VencOk(c.(number := c.number + 1, outstanding := c.outstanding + 1));
      hide VencOk;
    }
  }

  lemma SendVencOk(s: State, now: nat, v: int, f: VideoFrame)
    requires VencsOk(s.vencs)
    ensures VencsOk(SendVenc(s, now, v, f).0.vencs)
  {
    var t := SendVenc(s, now, v, f).0;
    if t.vencs != s.vencs {
      ImportedIsGood(s, now, f);
      hide GoodImage, ImportFrame;
      var c := s.vencs[v];
      var img := ImportFrame(s, now, f).value;
      assert VencOk(c.(queue := c.queue + [img]));
      hide VencOk;
    }
  }

  lemma VencKeeps(s: State, op: M.VencOp, now: nat)
    requires Good(s) && GrpsOk(s.grps) && VencsOk(s.vencs) && M.VencLegal(s, op)
    ensures var t := M.VencEffect(s, op, now); GrpsOk(t.grps) && VencsOk(t.vencs)
  {
    match op
    case GetStream(v, mb) => GetStreamOk(s, now, v, mb);
    case SendVenc(v, f) => SendVencOk(s, now, v, f);
    case ReleaseStream(v, packs) =>
      hide GrpsOk, ReleasePacks, Good, GoodImage;
    case _ =>
      OtherVencOk(s, op, now);
      hide *;
  }

  lemma OtherVencOk(s: State, op: M.VencOp, now: nat)
    requires Good(s) && VencsOk(s.vencs)
    requires op.CreateVenc? || op.DestroyVenc? || op.StartVenc? || op.StopVenc?
    requires M.VencLegal(s, op)
    ensures var t := M.VencEffect(s, op, now); t.grps == s.grps && VencsOk(t.vencs)
  {
    hide Good, GoodImage, Supported;
  }

  // ---------------------------------------------------------------- cameras

  lemma PullsVis(s: State, now: nat, g: int, c: int)
    requires Good(s)
    ensures Ends(s, g, c) ==> VisOk(PullVpss(s, now, g, c).state.viChns)
    ensures VencEnds(s, c) ==> VisOk(PullVenc(s, now, c).state.viChns)
  {
    hide PullVpss, PullVenc, GoodVi, GoodGrp, GoodVenc, Upstream, Ends, VencEnds;
  }

  lemma GoodIsVisOk(s: State)
    requires Good(s)
    ensures VisOk(s.viChns)
  {
    hide GoodVi, GoodGrp, GoodVenc;
  }

  lemma OneVi(viChns: map<(int, int), ViChn>, k: (int, int), c: ViChn)
    requires VisOk(viChns) && GoodVi(c)
    ensures VisOk(viChns[k := c])
  {
  }

  lemma ViChnCallsOk(s: State, pipe: int, chn: int, w: nat, h: nat, format: PixelFormat)
    requires VisOk(s.viChns)
    ensures VisOk(SetViChnAttr(s, pipe, chn, w, h, format).0.viChns)
    ensures VisOk(EnableViChn(s, pipe, chn).0.viChns)
    ensures VisOk(DisableViChn(s, pipe, chn).0.viChns)
  {
    hide CheckViChn, HasDev;
    ViSwitchesOk(s, pipe, chn);
    var k := (pipe, chn);
    if w > 0 && h > 0 && Supported(format) {
      OneVi(s.viChns, k, ViChn(w, h, format, false, 0, None));
    }
  }

  lemma ViSwitchesOk(s: State, pipe: int, chn: int)
    requires VisOk(s.viChns)
    ensures VisOk(EnableViChn(s, pipe, chn).0.viChns)
    ensures VisOk(DisableViChn(s, pipe, chn).0.viChns)
  {
    hide CheckViChn, HasDev;
    var k := (pipe, chn);
    if k in s.viChns {
      OneVi(s.viChns, k, s.viChns[k].(enabled := true, nextDue := None));
      OneVi(s.viChns, k, s.viChns[k].(enabled := false));
    }
  }

  lemma ViKeepsVis(s: State, op: M.ViOp, now: nat)
    requires Good(s) && VisOk(s.viChns)
    ensures VisOk(M.ViEffect(s, op, now).viChns)
  {
    hide Good, VisOk, PullVi, Exported, SetDevAttr, EnableDev, DisableDev, SetDevBindPipe,
         SetViChnAttr, EnableViChn, DisableViChn;
    match op
    case GetViFrame(pipe, chn, _) => GoodIsVisOk(PullVi(s, now, pipe, chn).state);
    case SetViChnAttr(pipe, chn, w, h, format) => ViChnCallsOk(s, pipe, chn, w, h, format);
    case EnableViChn(pipe, chn) => ViChnCallsOk(s, pipe, chn, 0, 0, Nv12);
    case DisableViChn(pipe, chn) => ViChnCallsOk(s, pipe, chn, 0, 0, Nv12);
    case _ =>
  }

  lemma VpssKeepsVis(s: State, op: M.VpssOp, now: nat)
    requires Good(s) && VisOk(s.viChns) && M.VpssLegal(s, op, now)
    ensures VisOk(M.VpssEffect(s, op, now).viChns)
  {
    M.VpssTouches(s, op, now);
    if op.GetVpssFrame? {
      PullsVis(s, now, op.grp, op.chn);
      hide Good, VisOk, PullVpss, Exported, GoodImage;
    } else {
      hide *;
    }
  }

  lemma VencKeepsVis(s: State, op: M.VencOp, now: nat)
    requires Good(s) && VisOk(s.viChns) && M.VencLegal(s, op)
    ensures VisOk(M.VencEffect(s, op, now).viChns)
  {
    M.VencTouches(s, op, now);
    if op.GetStream? {
      PullsVis(s, now, 0, op.chn);
      hide Good, VisOk, PullVenc, GoodImage, PacketOf;
    } else {
      hide *;
    }
  }

  /** Binding a pipe to a device checks that no other device has it. */
  lemma BindPipeOk(s: State, dev: int, pipes: seq<int>)
    requires DevsOk(s.viDevs)
    ensures DevsOk(SetDevBindPipe(s, dev, pipes).0.viDevs)
  {
    var t := SetDevBindPipe(s, dev, pipes).0;
    if t != s {
      assert forall p, d :: p in pipes && d in s.viDevs && d != dev ==> !PipeOf(s, p, d);
    }
  }

  lemma OneDev(viDevs: map<int, ViDev>, dev: int, d: ViDev)
    requires DevsOk(viDevs)
    requires d.pipes.None? || (dev in viDevs && d.pipes == viDevs[dev].pipes && d.enabled)
    ensures DevsOk(viDevs[dev := d])
  {
    var t := viDevs[dev := d];
    assert forall a :: a in t && a != dev ==> a in viDevs && t[a] == viDevs[a];
  }

  lemma DevCallsOk(s: State, dev: int)
    requires DevsOk(s.viDevs)
    ensures DevsOk(SetDevAttr(s, dev).0.viDevs)
    ensures DevsOk(EnableDev(s, dev).0.viDevs)
    ensures DevsOk(DisableDev(s, dev).0.viDevs)
  {
    var d := if dev in s.viDevs then s.viDevs[dev] else ViDev(false, false, None);
    assert d.pipes.Some? ==> d.enabled;
    hide DevsOk, CheckDev;
    OneDev(s.viDevs, dev, d);
    OneDev(s.viDevs, dev, d.(configured := true));
    OneDev(s.viDevs, dev, d.(enabled := true));
    OneDev(s.viDevs, dev, d.(enabled := false, pipes := None));
  }

  lemma ViKeepsDevs(s: State, op: M.ViOp, now: nat)
    requires Good(s) && DevsOk(s.viDevs)
    ensures DevsOk(M.ViEffect(s, op, now).viDevs)
  {
    if op.SetDevBindPipe? {
      BindPipeOk(s, op.dev, op.pipes);
      hide Good, DevsOk, SetDevBindPipe;
    } else if op.SetDevAttr? || op.EnableDev? || op.DisableDev? {
      DevCallsOk(s, op.dev);
      hide Good, DevsOk, SetDevAttr, EnableDev, DisableDev;
    } else {
      hide Good, DevsOk, GoodImage, HasDev, PipeOf, Exported, Tick;
    }
  }

  // ---------------------------------------------------------------- all of it

  /** Nothing but blocks can come into being before `Init`. */
  lemma UninitializedStaysEmpty(s: State, e: M.Event)
    requires Good(s) && M.Legal(s, e) && (!s.initialized ==> Empty(s))
    ensures var t := M.Effect(s, e); !t.initialized ==> Empty(t)
  {
    if e.op.OnSys? {
      SysEmpty(s, e.op.sys, e.now);
      hide Good, M.SysEffect;
    } else {
      OnlySysInits(s, e);
      if !s.initialized {
        StillEmpty(s, e);
      }
      hide *;
    }
  }

  lemma SysEmpty(s: State, op: M.SysOp, now: nat)
    requires !s.initialized ==> Empty(s)
    ensures var t := M.SysEffect(s, op, now); !t.initialized ==> Empty(t)
  {
  }

  lemma OnlySysInits(s: State, e: M.Event)
    requires Good(s) && M.Legal(s, e) && !e.op.OnSys?
    ensures var t := M.Effect(s, e); t.initialized == s.initialized && t.binds == s.binds
  {
    hide Good, M.MbEffect, M.ViEffect, M.VpssEffect, M.VencEffect;
    match e.op
    case OnMb(op) => M.MbTouches(s, op);
    case OnVi(op) => M.ViTouches(s, op, e.now);
    case OnVpss(op) => M.VpssTouches(s, op, e.now);
    case OnVenc(op) => M.VencTouches(s, op, e.now);
  }

  lemma StillEmpty(s: State, e: M.Event)
    requires Good(s) && M.Legal(s, e) && !e.op.OnSys? && !s.initialized && Empty(s)
    ensures var t := M.Effect(s, e);
            t.pools == map[] && t.viDevs == map[] && t.viChns == map[] && t.grps == map[] && t.vencs == map[]
  {
    hide Good, M.MbEffect, M.ViEffect, M.VpssEffect, M.VencEffect;
    match e.op
    case OnMb(op) => M.MbTouches(s, op); NoPools(s, op);
    case OnVi(op) => M.ViTouches(s, op, e.now); NoVi(s, op, e.now);
    case OnVpss(op) => M.VpssTouches(s, op, e.now); NoVpss(s, op, e.now);
    case OnVenc(op) => M.VencTouches(s, op, e.now); NoVenc(s, op, e.now);
  }

  lemma NoPools(s: State, op: M.MbOp)
    requires !s.initialized && Empty(s)
    ensures M.MbEffect(s, op).pools == map[]
  {
  }

  lemma NoVi(s: State, op: M.ViOp, now: nat)
    requires Good(s) && !s.initialized
    ensures var t := M.ViEffect(s, op, now); t.viDevs == s.viDevs && t.viChns == s.viChns
  {
    hide Good, GoodImage, HasDev, PipeOf, Exported, Tick, DevsOk;
  }

  lemma NoVpss(s: State, op: M.VpssOp, now: nat)
    requires Good(s) && !s.initialized && M.VpssLegal(s, op, now)
    ensures var t := M.VpssEffect(s, op, now); t.grps == s.grps && t.viChns == s.viChns
  {
    hide Good, GoodImage, Exported, Process, ImportFrame, TakeHead, PullBound;
  }

  lemma NoVenc(s: State, op: M.VencOp, now: nat)
    requires Good(s) && !s.initialized && M.VencLegal(s, op)
    ensures var t := M.VencEffect(s, op, now);
            t.vencs == s.vencs && t.grps == s.grps && t.viChns == s.viChns && t.pools == s.pools
  {
    hide Good, GoodImage, PullBound, ReleasePacks, ImportFrame, PacketOf;
  }

  /** Every call keeps every table right. */
  lemma TablesKept(s: State, e: M.Event)
    requires Good(s) && M.Legal(s, e)
    requires GrpsOk(s.grps) && VencsOk(s.vencs) && VisOk(s.viChns) && DevsOk(s.viDevs)
    ensures var t := M.Effect(s, e); GrpsOk(t.grps) && VencsOk(t.vencs) && VisOk(t.viChns) && DevsOk(t.viDevs)
  {
    hide Good, GrpsOk, VencsOk, VisOk, DevsOk, M.MbEffect, M.ViEffect, M.VpssEffect, M.VencEffect, M.SysEffect;
    match e.op
    case OnSys(op) =>
      SysTables(s, op, e.now);
    case OnMb(op) =>
      M.MbTouches(s, op);
    case OnVi(op) =>
      M.ViTouches(s, op, e.now);
      ViKeepsVis(s, op, e.now);
      ViKeepsDevs(s, op, e.now);
    case OnVpss(op) =>
      M.VpssTouches(s, op, e.now);
      VpssKeepsGrps(s, op, e.now);
      VpssKeepsVis(s, op, e.now);
    case OnVenc(op) =>
      M.VencTouches(s, op, e.now);
      VencKeeps(s, op, e.now);
      VencKeepsVis(s, op, e.now);
  }

  lemma SysTables(s: State, op: M.SysOp, now: nat)
    requires GrpsOk(s.grps) && VencsOk(s.vencs) && VisOk(s.viChns) && DevsOk(s.viDevs)
    ensures var t := M.SysEffect(s, op, now);
            GrpsOk(t.grps) && VencsOk(t.vencs) && VisOk(t.viChns) && DevsOk(t.viDevs)
  {
    if op.Exit? {
      NothingIsOk();
    } else {
      M.SysTouches(s, op, now);
      hide *;
    }
  }

  lemma BindsKept(s: State, e: M.Event)
    requires Good(s) && M.Legal(s, e) && BindsOk(s.binds)
    ensures BindsOk(M.Effect(s, e).binds)
  {
    if e.op.OnSys? {
      SysBinds(s, e.op.sys, e.now);
      hide Good, BindsOk, M.SysEffect;
    } else {
      OnlySysInits(s, e);
      hide *;
    }
  }

  lemma SysBinds(s: State, op: M.SysOp, now: nat)
    requires BindsOk(s.binds)
    ensures BindsOk(M.SysEffect(s, op, now).binds)
  {
  }

  /** Every call keeps the invariant. */
  lemma InvKept(s: State, e: M.Event)
    requires Inv(s)
    ensures Inv(M.Next(s, e))
  {
    Pools.PoolsStayOk(s, e);
    if Good(s) && M.Legal(s, e) {
      UninitializedStaysEmpty(s, e);
      TablesKept(s, e);
      BindsKept(s, e);
      hide Good, M.Legal, M.Effect, GrpsOk, VencsOk, VisOk, DevsOk, BindsOk, Pools.PoolsOk, Empty;
    }
  }

  lemma NothingIsOk()
    ensures GrpsOk(map[]) && VencsOk(map[]) && VisOk(map[]) && DevsOk(map[])
  {
  }

  /** So it holds in every reachable state, and no event is skipped because of the state. */
  lemma {:induction false} InvAlways(now: nat, fps: nat, es: seq<M.Event>)
    ensures Inv(M.Run(Fresh(now, fps), es)) && Good(M.Run(Fresh(now, fps), es))
  {
    hide GoodGrp, GoodVenc, M.Next;
    if es == [] {
      Pools.FreshIsOk(now, fps);
    } else {
      InvAlways(now, fps, es[..|es| - 1]);
      InvKept(M.Run(Fresh(now, fps), es[..|es| - 1]), es[|es| - 1]);
    }
    InvIsGood(M.Run(Fresh(now, fps), es));
  }
}
