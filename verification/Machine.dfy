/** The library as one state machine over all its calls. */
module Machine {
  import opened AccessUnits
  import opened Bytes
  import opened Images
  import opened Mpi
  import opened Flow
  import opened FlowLaws
  import opened Strides

  datatype SysOp =
    | Init
    | Exit
    | SetFps(fps: nat)
    | Bind(src: Chn, dst: Chn)
    | UnBind(src: Chn, dst: Chn)

  datatype MbOp =
    | CreatePool(size: nat, count: nat)
    | DestroyPool(pool: nat)
    | GetMB(pool: nat, size: nat, mb: Handle)
    | ReleaseMB(mb: Handle)
    | ReleaseFrame(mb: Handle)
    | Write(mb: Handle, data: seq<byte>)

  datatype ViOp =
    | SetDevAttr(dev: int)
    | EnableDev(dev: int)
    | DisableDev(dev: int)
    | SetDevBindPipe(dev: int, pipes: seq<int>)
    | SetViChnAttr(pipe: int, chn: int, w: nat, h: nat, format: PixelFormat)
    | EnableViChn(pipe: int, chn: int)
    | DisableViChn(pipe: int, chn: int)
    | GetViFrame(pipe: int, chn: int, mb: Handle)

  datatype VpssOp =
    | CreateGrp(grp: int, format: PixelFormat)
    | DestroyGrp(grp: int)
    | SetStarted(grp: int, started: bool)
    | SetVpssChnAttr(grp: int, chn: int, attr: VpssChn)
    | EnableVpssChn(grp: int, chn: int)
    | DisableVpssChn(grp: int, chn: int)
    | SendVpss(grp: int, frame: VideoFrame)
    | GetVpssFrame(grp: int, chn: int, mb: Handle)

  datatype VencOp =
    | CreateVenc(chn: int, codec: Option<Codec>, format: PixelFormat, w: nat, h: nat, gop: nat, clip: Option<seq<Frame>>)
    | DestroyVenc(chn: int)
    | StartVenc(chn: int)
    | StopVenc(chn: int)
    | SendVenc(chn: int, frame: VideoFrame)
    | GetStream(chn: int, mb: Handle)
    | ReleaseStream(chn: int, packs: seq<Handle>)

  datatype Op = OnSys(sys: SysOp) | OnMb(mb: MbOp) | OnVi(vi: ViOp) | OnVpss(vpss: VpssOp) | OnVenc(venc: VencOp)

  /** A call and the time of it. */
  datatype Event = Event(op: Op, now: nat)

  /** What a call presupposes: a new block has an address of its own, a user writes a block
      as a whole, and a clip has frames. The rest is what the source needs to return at all:
      asking ends, and no frame without pixels is scaled or encoded. */
  ghost predicate Legal(s: State, e: Event) {
    match e.op
    case OnMb(GetMB(_, _, mb)) => mb !in s.blocks
    case OnMb(Write(mb, data)) => mb in s.blocks && |data| == |s.blocks[mb].data|
    case OnVi(GetViFrame(_, _, mb)) => mb !in s.blocks
    case OnVpss(op) => VpssLegal(s, op, e.now)
    case OnVenc(op) => VencLegal(s, op)
    case _ => true
  }

  ghost predicate VpssLegal(s: State, op: VpssOp, now: nat) {
    match op
    case GetVpssFrame(g, c, mb) => mb !in s.blocks && Ends(s, g, c)
    case SendVpss(g, f) => Scalable(s, now, g, f)
    case _ => true
  }

  ghost predicate VencLegal(s: State, op: VencOp) {
    match op
    case GetStream(v, mb) => mb !in s.blocks && VencEnds(s, v) && Packs(s, v)
    case CreateVenc(_, _, _, _, _, _, clip) => clip.Some? ==> clip.value != []
    case _ => true
  }

  ghost function SysEffect(s: State, op: SysOp, now: nat): State {
    match op
    case Init => Mpi.Init(s).0
    case Exit => Mpi.Exit(s, now).0
    case SetFps(fps) => Mpi.SetFps(s, fps)
    case Bind(src, dst) => Mpi.Bind(s, src, dst).0
    case UnBind(src, dst) => Mpi.UnBind(s, src, dst).0
  }

  ghost function MbEffect(s: State, op: MbOp): State {
    match op
    case CreatePool(size, count) => Mpi.CreatePool(s, size, count).0
    case DestroyPool(id) => Mpi.DestroyPool(s, id).0
    case GetMB(id, size, mb) => Mpi.GetMB(s, id, size, mb).0
    case ReleaseMB(mb) => Mpi.ReleaseMB(s, mb).0
    case ReleaseFrame(mb) => Mpi.ReleaseFrame(s, mb).0
    case Write(mb, data) => if mb in s.blocks && |data| == |s.blocks[mb].data| then WriteBlock(s, mb, data) else s
  }

  ghost function ViEffect(s: State, op: ViOp, now: nat): State
    requires Good(s)
  {
    match op
    case SetDevAttr(dev) => Mpi.SetDevAttr(s, dev).0
    case EnableDev(dev) => Mpi.EnableDev(s, dev).0
    case DisableDev(dev) => Mpi.DisableDev(s, dev).0
    case SetDevBindPipe(dev, pipes) => Mpi.SetDevBindPipe(s, dev, pipes).0
    case SetViChnAttr(pipe, chn, w, h, format) => Mpi.SetViChnAttr(s, pipe, chn, w, h, format).0
    case EnableViChn(pipe, chn) => Mpi.EnableViChn(s, pipe, chn).0
    case DisableViChn(pipe, chn) => Mpi.DisableViChn(s, pipe, chn).0
    case GetViFrame(pipe, chn, mb) => Flow.GetViFrame(s, now, pipe, chn, mb).0
  }

  ghost function VpssEffect(s: State, op: VpssOp, now: nat): State
    requires Good(s) && VpssLegal(s, op, now)
  {
    match op
    case CreateGrp(g, format) => Mpi.CreateGrp(s, g, format).0
    case DestroyGrp(g) => Mpi.DestroyGrp(s, g).0
    case SetStarted(g, started) => Mpi.SetStarted(s, g, started).0
    case SetVpssChnAttr(g, c, attr) => Mpi.SetVpssChnAttr(s, g, c, attr).0
    case EnableVpssChn(g, c) => Mpi.EnableVpssChn(s, g, c).0
    case DisableVpssChn(g, c) => Mpi.DisableVpssChn(s, g, c).0
    case SendVpss(g, f) => Flow.SendVpss(s, now, g, f).0
    case GetVpssFrame(g, c, mb) => Flow.GetVpssFrame(s, now, g, c, mb).0
  }

  ghost function VencEffect(s: State, op: VencOp, now: nat): State
    requires Good(s) && VencLegal(s, op)
  {
    match op
    case CreateVenc(v, codec, format, w, h, gop, clip) => Mpi.CreateVenc(s, v, codec, format, w, h, gop, clip).0
    case DestroyVenc(v) => Mpi.DestroyVenc(s, v).0
    case StartVenc(v) => Mpi.StartVenc(s, v).0
    case StopVenc(v) => Mpi.StopVenc(s, v).0
    case SendVenc(v, f) => Mpi.SendVenc(s, now, v, f).0
    case GetStream(v, mb) => Flow.GetStream(s, now, v, mb).0
    case ReleaseStream(v, packs) => Mpi.ReleaseStream(s, v, packs).0
  }

  ghost function Effect(s: State, e: Event): State
    requires Good(s) && Legal(s, e)
  {
    match e.op
    case OnSys(op) => SysEffect(s, op, e.now)
    case OnMb(op) => MbEffect(s, op)
    case OnVi(op) => ViEffect(s, op, e.now)
    case OnVpss(op) => VpssEffect(s, op, e.now)
    case OnVenc(op) => VencEffect(s, op, e.now)
  }

  /** Calls that cannot be made, or from which the source would not return, are left out. */
  ghost function Next(s: State, e: Event): State {
    if Good(s) && Legal(s, e) then Effect(s, e) else s
  }

  ghost function Run(s: State, es: seq<Event>): State {
    if es == [] then s else Next(Run(s, es[..|es| - 1]), es[|es| - 1])
  }

  /** A run goes on from where its first calls have led. */
  lemma {:induction false} RunFrom(s: State, es: seq<Event>, k: nat)
    requires k <= |es|
    ensures Run(s, es) == Run(Run(s, es[..k]), es[k..])
    decreases |es|
  {
    hide Next;
    if k == |es| {
      assert es[..k] == es;
    } else {
      var n := |es| - 1;
      RunFrom(s, es[..n], k);
      assert es[..n][..k] == es[..k] && es[..n][k..] == es[k..][..|es[k..]| - 1];
    }
  }

  // ---------------------------------------------------------------- what a call leaves alone

  lemma SysTouches(s: State, op: SysOp, now: nat)
    requires !op.Exit?
    ensures var t := SysEffect(s, op, now);
            t == s.(initialized := t.initialized, viFps := t.viFps, binds := t.binds)
    ensures op.Bind? || op.UnBind? || SysEffect(s, op, now).binds == s.binds
  {
    hide Mpi.Init, Mpi.Bind, Mpi.UnBind;
  }

  lemma MbTouches(s: State, op: MbOp)
    ensures var t := MbEffect(s, op); t == s.(blocks := t.blocks, pools := t.pools, nextPool := t.nextPool)
  {
    hide Mpi.CreatePool, Mpi.DestroyPool, Mpi.GetMB, Mpi.ReleaseMB, Mpi.ReleaseFrame;
  }

  lemma ViTouches(s: State, op: ViOp, now: nat)
    requires Good(s)
    ensures var t := ViEffect(s, op, now);
            t == s.(viDevs := t.viDevs, viChns := t.viChns, blocks := t.blocks)
            && (!op.GetViFrame? ==> t.blocks == s.blocks)
  {
    hide Good, Mpi.SetDevAttr, Mpi.EnableDev, Mpi.DisableDev, Mpi.SetDevBindPipe, Mpi.SetViChnAttr, Mpi.EnableViChn,
         Mpi.DisableViChn, Flow.GetViFrame;
  }

  lemma VpssTouches(s: State, op: VpssOp, now: nat)
    requires Good(s) && VpssLegal(s, op, now)
    ensures var t := VpssEffect(s, op, now);
            t == s.(grps := t.grps, viChns := t.viChns, blocks := t.blocks)
            && (!op.GetVpssFrame? ==> t.viChns == s.viChns && t.blocks == s.blocks)
  {
    hide Good, Ends, Scalable, Mpi.CreateGrp, Mpi.DestroyGrp, Mpi.SetStarted, Mpi.SetVpssChnAttr, Mpi.EnableVpssChn,
         Mpi.DisableVpssChn, Flow.SendVpss, Flow.GetVpssFrame;
  }

  lemma VencTouches(s: State, op: VencOp, now: nat)
    requires Good(s) && VencLegal(s, op)
    ensures var t := VencEffect(s, op, now);
            t == s.(vencs := t.vencs, grps := t.grps, viChns := t.viChns, blocks := t.blocks, pools := t.pools)
            && (!op.GetStream? ==> t.grps == s.grps && t.viChns == s.viChns)
            && (!op.ReleaseStream? ==> t.pools == s.pools)
            && (!op.GetStream? && !op.ReleaseStream? ==> t.blocks == s.blocks)
  {
    hide Good, VencEnds, Packs, Mpi.CreateVenc, Mpi.DestroyVenc, Mpi.StartVenc, Mpi.StopVenc, Mpi.SendVenc, Flow.GetStream,
         Mpi.ReleaseStream;
  }
}
