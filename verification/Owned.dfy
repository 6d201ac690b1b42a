/** The calls that create and use owned handles. */
module Owned {
  import opened AccessUnits
  import opened Bytes
  import opened Drops
  import opened Images
  import opened Joins
  import opened Mpi
  import opened References
  import opened Resources
  import opened Teardown
  import opened Views
  import Flow
  import Invariants
  import M = Machine
  import Rings

  /** What an encoder channel is asked to be; `clip` is what the library will play. */
  datatype VencConfig = VencConfig(codec: Codec, format: PixelFormat, width: nat, height: nat, gop: nat, clip: Option<seq<Frame>>)

  /** A new handle with these fields. */
  function AddHandle(w: Wrapper, h: seq<Ref>): Wrapper {
    w.(handles := w.handles + [h], strong := Gain(w.strong, h))
  }

  /** The fields of handle `i`, if there is one. */
  function Fields(x: World, i: nat): seq<Ref> {
    if i < |x.w.handles| then x.w.handles[i] else []
  }

  // ---------------------------------------------------------------- system and cameras

  function InitMpi(x: World): World {
    if x.w.mpiInit then x else
    var w := x.w.(mpiInit := true, cameras := NewIds(VI_MAX_DEV_NUM), vencs := NewIds(VENC_MAX_CHN_NUM),
                  groups := NewIds(VPSS_MAX_GRP_NUM));
    World(AddHandle(w, [Sys]), Init(x.s).0)
  }

  /** A handle that shares the fields of another one from some field on: a clone of the
      system, the pipe of a camera, a frame over a buffer. */
  function Share(x: World, i: nat, from: nat): World {
    if from >= |Fields(x, i)| then x else World(AddHandle(x.w, Fields(x, i)[from..]), x.s)
  }

  /** `Camera::new`: configures the device if it never was, enables it, binds its pipe. */
  function NewCamera(x: World, id: nat): World {
    match (Sys in x.w.strong, AcquiredSpecific(x.w.cameras, id))
    case (true, Some(ids)) =>
      var w := x.w.(cameras := ids);
      var (s, set_) := if GetDevAttr(x.s, id) == NotConfig then SetDevAttr(x.s, id) else (x.s, Success);
      if set_ != Success then World(w.(cameras := Freed(ids, id)), s) else
      if GetDevIsEnable(s, id) == Success then World(AddHandle(w, [Camera(id), Sys]), s) else
      var (t, enable) := EnableDev(s, id);
      var (u, bind) := if enable == Success then SetDevBindPipe(t, id, [id]) else (t, enable);
      if bind == Success then World(AddHandle(w, [Camera(id), Sys]), u) else
      var d := DropCamera(w, u, id);
      World(d.w, d.s)
    case _ => x
  }

  function NewViChannel(x: World, i: nat, chn: nat, width: nat, height: nat): World {
    var h := Fields(x, i);
    if h == [] || !h[0].Camera? || chn >= VI_MAX_CHN_NUM then x else
    var d := h[0].dev;
    var (s, set_) := SetViChnAttr(x.s, d, chn, width, height, Nv12);
    if set_ != Success then World(x.w, s) else
    var (t, enable) := EnableViChn(s, d, chn);
    if enable != Success then World(x.w, t) else World(AddHandle(x.w, [ViChannel(d, chn)] + h), t)
  }

  function NewViFrame(x: World, i: nat, mb: Handle, now: nat): World
    requires Flow.Good(x.s)
  {
    var h := Fields(x, i);
    if h == [] || !h[0].ViChannel? then x else
    var (t, r) := Flow.GetViFrame(x.s, now, h[0].pipe, h[0].chn, mb);
    if r.Err? then World(x.w, t) else World(AddHandle(x.w, [References.VideoFrame(mb)] + h), t)
  }

  // ---------------------------------------------------------------- encoder channels

  /** `with_resource`: the identifier is given back if the library refuses the channel. */
  function VencWith(x: World, id: nat, ids: Ids, cfg: VencConfig): World {
    var (t, code) := CreateVenc(x.s, id, Some(cfg.codec), cfg.format, cfg.width, cfg.height, cfg.gop, cfg.clip);
    if code == Success then World(AddHandle(x.w.(vencs := ids), [VencChannel(id), Sys]), t)
    else World(x.w.(vencs := Freed(ids, id)), t)
  }

  ghost function NewVenc(x: World, cfg: VencConfig): World {
    match (Sys in x.w.strong, Acquired(x.w.vencs))
    case (true, Some((id, ids))) => VencWith(x, id, ids, cfg)
    case _ => x
  }

  function NewVencAt(x: World, id: nat, cfg: VencConfig): World {
    match (Sys in x.w.strong, AcquiredSpecific(x.w.vencs, id))
    case (true, Some(ids)) => VencWith(x, id, ids, cfg)
    case _ => x
  }

  function StartVencChannel(x: World, i: nat): World {
    var h := Fields(x, i);
    if h == [] || !h[0].VencChannel? || h[0] in x.w.on then x else
    var (t, code) := StartVenc(x.s, h[0].id);
    if code == Success then World(x.w.(on := x.w.on + {h[0]}), t) else World(x.w, t)
  }

  /** The encoder channel of a channel handle or of a bind handle. */
  function EncoderOf(h: seq<Ref>): Option<int> {
    if h != [] && h[0].VencChannel? then Some(h[0].id)
    else if |h| > 1 && h[0].Binding? && h[1].VencChannel? then Some(h[1].id)
    else None
  }

  /** The wrapper binds no group to a group, so that whatever is asked for a frame answers. */
  ghost predicate Ready(s: State) {
    Flow.Good(s) && Rings.Unchained(s.binds)
  }

  ghost predicate PacksNext(x: World, i: nat) {
    EncoderOf(Fields(x, i)).Some? ==> Flow.Packs(x.s, EncoderOf(Fields(x, i)).value)
  }

  function NewStream(x: World, i: nat, mb: Handle, now: nat): World
    requires Ready(x.s) && PacksNext(x, i)
  {
    match EncoderOf(Fields(x, i))
    case None => x
    case Some(v) =>
      Rings.NoChainEnds(x.s, v);
      var (t, r) := Flow.GetStream(x.s, now, v, mb);
      if r.Err? then World(x.w, t) else World(AddHandle(x.w, [Stream(mb, v), VencChannel(v), Sys]), t)
  }

  // ---------------------------------------------------------------- groups

  ghost function NewGroup(x: World, format: PixelFormat): World {
    match (Sys in x.w.strong, Acquired(x.w.groups))
    case (true, Some((id, ids))) =>
      var (t, code) := CreateGrp(x.s, id, format);
      if code == Success then
        World(AddHandle(x.w.(groups := ids, channels := x.w.channels[id := NewIds(VPSS_MAX_CHN_NUM)]), [Group(id), Sys]), t)
      else World(x.w.(groups := Freed(ids, id)), t)
    case _ => x
  }

  function StartGroup(x: World, i: nat): World {
    var h := Fields(x, i);
    if h == [] || !h[0].Group? || h[0] in x.w.on then x else
    var (t, code) := SetStarted(x.s, h[0].id, true);
    if code == Success then World(x.w.(on := x.w.on + {h[0]}), t) else World(x.w, t)
  }

  ghost function NewVpssChannel(x: World, i: nat, attr: VpssChn): World {
    var h := Fields(x, i);
    if h == [] || !h[0].Group? || h[0].id !in x.w.channels then x else
    var g := h[0].id;
    match Acquired(x.w.channels[g])
    case None => x
    case Some((c, ids)) =>
      var (t, code) := SetVpssChnAttr(x.s, g, c, attr);
      if code == Success then World(AddHandle(x.w.(channels := x.w.channels[g := ids]), [VpssChannel(g, c)] + h), t)
      else World(x.w.(channels := x.w.channels[g := Freed(ids, c)]), t)
  }

  function SwitchVpssChannel(x: World, i: nat, on: bool): World {
    var h := Fields(x, i);
    if h == [] || !h[0].VpssChannel? || (h[0] in x.w.on) == on then x else
    var (t, code) := if on then EnableVpssChn(x.s, h[0].grp, h[0].chn) else DisableVpssChn(x.s, h[0].grp, h[0].chn);
    if code == Success then World(x.w.(on := if on then x.w.on + {h[0]} else x.w.on - {h[0]}), t) else World(x.w, t)
  }

  function NewVpssFrame(x: World, i: nat, mb: Handle, now: nat): World
    requires Ready(x.s)
  {
    var h := Fields(x, i);
    if h == [] || !h[0].VpssChannel? then x else
    Rings.NoChainEnds(x.s, 0);
    var (t, r) := Flow.GetVpssFrame(x.s, now, h[0].grp, h[0].chn, mb);
    if r.Err? then World(x.w, t) else World(AddHandle(x.w, [References.VideoFrame(mb)] + h), t)
  }

  // ---------------------------------------------------------------- binds

  function EndOf(r: Ref): Chn {
    match r
    case ViChannel(p, c) => Chn(Vi, p, c)
    case VpssChannel(g, c) => Chn(Vpss, g, c)
    case Group(g) => Chn(Vpss, g, 0)
    case VencChannel(v) => Chn(Venc, 0, v)
    case _ => Chn(OtherMod(0), 0, 0)
  }

  /** Cameras feed groups and encoders, VPSS channels feed encoders. */
  predicate MayFeed(source: Ref, sink: Ref) {
    (source.ViChannel? && (sink.Group? || sink.VencChannel?)) || (source.VpssChannel? && sink.VencChannel?)
  }

  /** Binds the source of handle `j` to the group or encoder of handle `i`; the new handle
      keeps both alive. */
  function NewBind(x: World, i: nat, j: nat): World {
    var (h, k) := (Fields(x, i), Fields(x, j));
    if h == [] || k == [] || !MayFeed(k[0], h[0]) then x else
    var (src, dst) := (EndOf(k[0]), EndOf(h[0]));
    var (t, code) := Bind(x.s, src, dst);
    if code == Success then World(AddHandle(x.w, [Binding(src, dst), h[0]] + k), t) else World(x.w, t)
  }

  // ---------------------------------------------------------------- memory

  function NewPool(x: World, size: nat): World {
    if Sys !in x.w.strong then x else
    match CreatePool(x.s, size, 1)
    case (t, None) => World(x.w, t)
    case (t, Some(id)) => World(AddHandle(x.w, [MemPool(id), Sys]), t)
  }

  function NewBuffer(x: World, i: nat, size: nat, mb: Handle): World {
    var h := Fields(x, i);
    if h == [] || !h[0].MemPool? then x else
    var (t, ok) := GetMB(x.s, h[0].pool, size, mb);
    if ok then World(AddHandle(x.w, [Buffer(mb, h[0].pool)] + h), t) else World(x.w, t)
  }

  function WriteBuffer(x: World, i: nat, data: seq<byte>): World {
    var h := Fields(x, i);
    if h == [] || !h[0].Buffer? || h[0].mb !in x.s.blocks || |x.s.blocks[h[0].mb].data| != |data| then x
    else World(x.w, WriteBlock(x.s, h[0].mb, data))
  }

  // ---------------------------------------------------------------- any call

  datatype Call =
    | DoInit
    | DoShare(i: nat, from: nat)
    | DoCamera(id: nat)
    | DoViChannel(i: nat, chn: nat, width: nat, height: nat)
    | DoViFrame(i: nat, mb: Handle)
    | DoVenc(cfg: VencConfig)
    | DoVencAt(id: nat, cfg: VencConfig)
    | DoStartVenc(i: nat)
    | DoStream(i: nat, mb: Handle)
    | DoGroup(format: PixelFormat)
    | DoStartGroup(i: nat)
    | DoVpssChannel(i: nat, attr: VpssChn)
    | DoSwitch(i: nat, on: bool)
    | DoVpssFrame(i: nat, mb: Handle)
    | DoBind(i: nat, j: nat)
    | DoPool(size: nat)
    | DoBuffer(i: nat, size: nat, mb: Handle)
    | DoWrite(i: nat, data: seq<byte>)
    | DoSendToGroup(i: nat, frame: Mpi.VideoFrame)
    | DoSendToVenc(i: nat, frame: Mpi.VideoFrame)
    | DoDrop(i: nat)

  /** A new block has an address of its own, clips have frames, and no frame without pixels
      gets to be scaled or encoded, on which the source panics. */
  ghost predicate Possible(x: World, c: Call, now: nat) {
    Ready(x.s) &&
    match c
    case DoViFrame(_, mb) => mb !in x.s.blocks
    case DoStream(i, mb) => mb !in x.s.blocks && PacksNext(x, i)
    case DoVpssFrame(_, mb) => mb !in x.s.blocks
    case DoBuffer(_, _, mb) => mb !in x.s.blocks
    case DoSendToGroup(i, f) => Fields(x, i) != [] && Fields(x, i)[0].Group? ==> Flow.Scalable(x.s, now, Fields(x, i)[0].id, f)
    case DoVenc(cfg) => cfg.clip.Some? ==> cfg.clip.value != []
    case DoVencAt(_, cfg) => cfg.clip.Some? ==> cfg.clip.value != []
    case DoGroup(format) => Supported(format)
    case _ => true
  }

  /** The world after a call, and what the library said to the calls of `Drop` bodies. */
  ghost function Apply(x: World, c: Call, now: nat): (World, seq<Code>)
    requires Possible(x, c, now)
  {
    match c
    case DoInit => (InitMpi(x), [])
    case DoShare(i, from) => (Share(x, i, from), [])
    case DoCamera(id) => (NewCamera(x, id), [])
    case DoViChannel(i, chn, width, height) => (NewViChannel(x, i, chn, width, height), [])
    case DoViFrame(i, mb) => (NewViFrame(x, i, mb, now), [])
    case DoVenc(cfg) => (NewVenc(x, cfg), [])
    case DoVencAt(id, cfg) => (NewVencAt(x, id, cfg), [])
    case DoStartVenc(i) => (StartVencChannel(x, i), [])
    case DoStream(i, mb) => (NewStream(x, i, mb, now), [])
    case DoGroup(format) => (NewGroup(x, format), [])
    case DoStartGroup(i) => (StartGroup(x, i), [])
    case DoVpssChannel(i, attr) => (NewVpssChannel(x, i, attr), [])
    case DoSwitch(i, on) => (SwitchVpssChannel(x, i, on), [])
    case DoVpssFrame(i, mb) => (NewVpssFrame(x, i, mb, now), [])
    case DoBind(i, j) => (NewBind(x, i, j), [])
    case DoPool(size) => (NewPool(x, size), [])
    case DoBuffer(i, size, mb) => (NewBuffer(x, i, size, mb), [])
    case DoWrite(i, data) => (WriteBuffer(x, i, data), [])
    case DoSendToGroup(i, f) =>
      var h := Fields(x, i);
      (if h != [] && h[0].Group? then World(x.w, Flow.SendVpss(x.s, now, h[0].id, f).0) else x, [])
    case DoSendToVenc(i, f) =>
      var h := Fields(x, i);
      (if h != [] && h[0].VencChannel? then World(x.w, SendVenc(x.s, now, h[0].id, f).0) else x, [])
    case DoDrop(i) =>
      var h := Fields(x, i);
      if h != [] && h[0] in x.w.strong then DropField(x, i, now) else (x, [])
  }

  /** Calls that cannot be made leave the world as it is. */
  ghost function Next(x: World, c: Call, now: nat): (World, seq<Code>) {
    if Possible(x, c, now) then Apply(x, c, now) else (x, [])
  }
}
