/** The state of the fake MPI library, and its calls as functions on that state. A call
    returns the new state and what the caller sees. */
module Mpi {
  import opened Bytes
  import opened AccessUnits
  import opened Encoder
  import opened Images
  import opened Scaling
  import opened Strides

  // ---------------------------------------------------------------- constants

  const VENC_MAX_CHN_NUM := 64
  const VI_MAX_DEV_NUM := 3
  const VI_MAX_PHY_PIPE_NUM := VI_MAX_DEV_NUM
  const VI_MAX_PIPE_NUM := VI_MAX_PHY_PIPE_NUM
  const VI_MAX_CHN_NUM := 6
  const VPSS_MAX_GRP_NUM := 256
  const VPSS_MAX_CHN_NUM := 4
  const INPUT_QUEUE_DEPTH := 4
  const SECOND := 1_000_000_000

  // ---------------------------------------------------------------- data

  /** Return codes, without the module they are tagged with. */
  datatype Code =
    | Success | NotReady | NullPtr | IllegalParam | NotSupport | NotPerm | NotConfig
    | InvalidDevId | InvalidPipeId | InvalidChnId | Exist | Unexist
    | GroupExist | GroupUnexist | DevExist | DevUnexist | Busy | BufFull | BufEmpty

  /** A block of memory is known by its address, which no two live blocks share. */
  type Handle = nat

  datatype Block = Block(pool: Option<nat>, data: seq<byte>)

  datatype Pool = Pool(blkSize: nat, count: nat, used: int)

  datatype Mod = Vi | Vpss | Venc | OtherMod(id: int)

  datatype Chn = Chn(mod: Mod, dev: int, chn: int)

  /** `ChnKey::dst`: VPSS takes its input per group, VENC per channel. */
  function Dst(c: Chn): Chn {
    match c.mod
    case Vpss => c.(chn := 0)
    case Venc => c.(dev := 0)
    case _ => c
  }

  datatype ViDev = ViDev(configured: bool, enabled: bool, pipes: Option<seq<int>>)

  datatype ViChn = ViChn(width: nat, height: nat, format: PixelFormat, enabled: bool, number: nat, nextDue: Option<nat>)

  datatype VpssChn = VpssChn(width: nat, height: nat, format: PixelFormat, mirror: bool, flip: bool,
                             depth: nat, enabled: bool, number: nat, queue: seq<Image>)

  datatype VpssGrp = VpssGrp(started: bool, chns: map<int, VpssChn>)

  datatype VencChn = VencChn(stream: Stream, started: bool, queue: seq<Image>,
                             number: nat, outstanding: nat, clip: Option<seq<Frame>>)

  /** Times are in nanoseconds. */
  datatype State = State(
    initialized: bool,
    epoch: nat,
    viFps: nat,
    blocks: map<Handle, Block>,
    pools: map<nat, Pool>,
    nextPool: nat,
    binds: map<Chn, Chn>,
    viDevs: map<int, ViDev>,
    viChns: map<(int, int), ViChn>,
    grps: map<int, VpssGrp>,
    vencs: map<int, VencChn>)

  function Fresh(now: nat, viFps: nat): State {
    State(false, now, viFps, map[], map[], 0, map[], map[], map[], map[], map[])
  }

  /** `now_us` */
  function Micros(s: State, now: nat): nat {
    if now < s.epoch then 0 else (now - s.epoch) / 1000
  }

  // ---------------------------------------------------------------- blocks and pools

  function AllocBlock(s: State, mb: Handle, pool: Option<nat>, size: nat): State {
    s.(blocks := s.blocks[mb := Block(pool, seq(size, _ => 0))])
  }

  /** Returns whether there was such a block. */
  function ReleaseBlock(s: State, mb: Handle): (r: (State, bool))
    ensures r.0 == s.(blocks := r.0.blocks, pools := r.0.pools) && (!r.1 ==> r.0 == s)
  {
    if mb !in s.blocks then (s, false) else
    var rest := s.(blocks := s.blocks - {mb});
    match s.blocks[mb].pool
    case None => (rest, true)
    case Some(id) =>
      if id !in s.pools then (rest, true) else
      (rest.(pools := s.pools[id := s.pools[id].(used := s.pools[id].used - 1)]), true)
  }

  /** The part of a video frame descriptor that is used. */
  datatype VideoFrame = VideoFrame(mb: Handle, format: PixelFormat, width: nat, height: nat,
                                   virWidth: nat, virHeight: nat, timeRef: nat, pts: nat)

  function ExportFrame(s: State, mb: Handle, img: Image, timeRef: nat): (State, VideoFrame) {
    (s.(blocks := s.blocks[mb := Block(None, Exported(img))]),
     VideoFrame(mb, img.format, img.width, img.height, img.width, img.height, timeRef, img.pts))
  }

  function Max(a: nat, b: nat): nat {
    if a > b then a else b
  }

  function ImportFrame(s: State, now: nat, f: VideoFrame): Result<Image, Code> {
    if f.mb !in s.blocks then Err(IllegalParam) else
    var pts := if f.pts != 0 then f.pts else Micros(s, now);
    match Import(f.format, f.width, f.height, Max(f.virWidth, f.width), Max(f.virHeight, f.height),
                 s.blocks[f.mb].data, pts)
    case None => Err(IllegalParam)
    case Some(img) => Ok(img)
  }

  /** A frame that was exported is imported unchanged, unless it has no time stamp. */
  lemma ImportOfExport(s: State, mb: Handle, img: Image, timeRef: nat, now: nat)
    requires WellFormed(img)
    ensures var (t, f) := ExportFrame(s, mb, img, timeRef);
            ImportFrame(t, now, f) == Ok(if img.pts != 0 then img else img.(pts := Micros(s, now)))
  {
    hide Exported, Import;
    ExportRoundTrip(img, if img.pts != 0 then img.pts else Micros(s, now));
  }

  /** `None` stands for an invalid pool. */
  function CreatePool(s: State, size: nat, count: nat): (r: (State, Option<nat>))
    ensures r.0 == s.(pools := r.0.pools, nextPool := r.0.nextPool) && (r.1.None? ==> r.0 == s)
  {
    if size == 0 || count == 0 || !s.initialized then (s, None) else
    (s.(pools := s.pools[s.nextPool := Pool(size, count, 0)], nextPool := s.nextPool + 1), Some(s.nextPool))
  }

  function DestroyPool(s: State, id: nat): (r: (State, Code))
    ensures r.0 == s.(pools := r.0.pools) && (r.1 != Success ==> r.0 == s)
  {
    if id !in s.pools then (s, Unexist)
    else if s.pools[id].used > 0 then (s, Busy)
    else (s.(pools := s.pools - {id}), Success)
  }

  /** `mb` is the address of the new block; the result says whether there is one. */
  function GetMB(s: State, id: nat, size: nat, mb: Handle): (r: (State, bool))
    ensures r.0 == s.(blocks := r.0.blocks, pools := r.0.pools) && (!r.1 ==> r.0 == s)
  {
    if id !in s.pools || size > s.pools[id].blkSize || s.pools[id].used >= s.pools[id].count then (s, false) else
    var pool := s.pools[id];
    (AllocBlock(s.(pools := s.pools[id := pool.(used := pool.used + 1)]), mb, Some(id), pool.blkSize), true)
  }

  function ReleaseMB(s: State, mb: Handle): (r: (State, Code))
    ensures r.0 == s.(blocks := r.0.blocks, pools := r.0.pools) && (r.1 != Success ==> r.0 == s)
  {
    var (t, found) := ReleaseBlock(s, mb);
    (t, if found then Success else Unexist)
  }

  function ReleaseFrame(s: State, mb: Handle): (r: (State, Code))
    ensures r.0 == s.(blocks := r.0.blocks, pools := r.0.pools) && (r.1 != Success ==> r.0 == s)
  {
    var (t, found) := ReleaseBlock(s, mb);
    (t, if found then Success else IllegalParam)
  }

  /** What a user does to a block through `Handle2VirAddr`. */
  function WriteBlock(s: State, mb: Handle, data: seq<byte>): State
    requires mb in s.blocks && |data| == |s.blocks[mb].data|
  {
    s.(blocks := s.blocks[mb := s.blocks[mb].(data := data)])
  }

  // ---------------------------------------------------------------- system

  function Init(s: State): (r: (State, Code))
    ensures r.0 == s.(initialized := r.0.initialized) && (r.1 != Success ==> r.0 == s)
  {
    (s.(initialized := true), Success)
  }

  function Orphaned(blocks: map<Handle, Block>): map<Handle, Block> {
    map mb | mb in blocks :: blocks[mb].(pool := None)
  }

  /** Drops everything but the blocks, which lose their pools. */
  function Exit(s: State, now: nat): (State, Code) {
    (Fresh(now, s.viFps).(blocks := Orphaned(s.blocks)), Success)
  }

  function SetFps(s: State, fps: nat): State {
    s.(viFps := fps)
  }

  function Bind(s: State, src: Chn, dst: Chn): (r: (State, Code))
    ensures r.0 == s.(binds := r.0.binds) && (r.1 != Success ==> r.0 == s)
  {
    if !s.initialized then (s, NotReady)
    else if Dst(dst) in s.binds then (s, Exist)
    else (s.(binds := s.binds[Dst(dst) := src]), Success)
  }

  function UnBind(s: State, src: Chn, dst: Chn): (r: (State, Code))
    ensures r.0 == s.(binds := r.0.binds) && (r.1 != Success ==> r.0 == s)
  {
    if Dst(dst) in s.binds && s.binds[Dst(dst)] == src then (s.(binds := s.binds - {Dst(dst)}), Success)
    else (s, Unexist)
  }

  // ---------------------------------------------------------------- VI

  function CheckDev(s: State, dev: int): Code {
    if !s.initialized then NotReady
    else if !(0 <= dev < VI_MAX_DEV_NUM) then InvalidDevId
    else Success
  }

  function CheckViChn(s: State, pipe: int, chn: int): Code {
    if !s.initialized then NotReady
    else if !(0 <= pipe < VI_MAX_PIPE_NUM) then InvalidPipeId
    else if !(0 <= chn < VI_MAX_CHN_NUM) then InvalidChnId
    else Success
  }

  /** The pipe is bound to the device, and the device is enabled. */
  predicate PipeOf(s: State, pipe: int, dev: int) {
    dev in s.viDevs && s.viDevs[dev].enabled && s.viDevs[dev].pipes.Some? && pipe in s.viDevs[dev].pipes.value
  }

  predicate HasDev(s: State, pipe: int) {
    exists dev :: dev in s.viDevs && PipeOf(s, pipe, dev)
  }

  function GetDevAttr(s: State, dev: int): Code {
    var check := CheckDev(s, dev);
    if check != Success then check
    else if dev in s.viDevs && s.viDevs[dev].configured then Success
    else NotConfig
  }

  function SetDevAttr(s: State, dev: int): (r: (State, Code))
    ensures r.0 == s.(viDevs := r.0.viDevs) && (r.1 != Success ==> r.0 == s)
  {
    var check := CheckDev(s, dev);
    if check != Success then (s, check) else
    var d := if dev in s.viDevs then s.viDevs[dev] else ViDev(false, false, None);
    if d.enabled then (s.(viDevs := s.viDevs[dev := d]), NotPerm)
    else (s.(viDevs := s.viDevs[dev := d.(configured := true)]), Success)
  }

  function GetDevIsEnable(s: State, dev: int): Code {
    var check := CheckDev(s, dev);
    if check != Success then check
    else if dev in s.viDevs && s.viDevs[dev].enabled then Success
    else DevUnexist
  }

  function EnableDev(s: State, dev: int): (r: (State, Code))
    ensures r.0 == s.(viDevs := r.0.viDevs) && (r.1 != Success ==> r.0 == s)
  {
    var check := CheckDev(s, dev);
    if check != Success then (s, check)
    else if !(dev in s.viDevs && s.viDevs[dev].configured) then (s, NotConfig)
    else if s.viDevs[dev].enabled then (s, DevExist)
    else (s.(viDevs := s.viDevs[dev := s.viDevs[dev].(enabled := true)]), Success)
  }

  function DisableDev(s: State, dev: int): (r: (State, Code))
    ensures r.0 == s.(viDevs := r.0.viDevs) && (r.1 != Success ==> r.0 == s)
  {
    var check := CheckDev(s, dev);
    if check != Success then (s, check)
    else if !(dev in s.viDevs && s.viDevs[dev].enabled) then (s, DevUnexist)
    else (s.(viDevs := s.viDevs[dev := s.viDevs[dev].(enabled := false, pipes := None)]), Success)
  }

  /** Binding is static: once per enable, and a pipe belongs to one device. */
  function SetDevBindPipe(s: State, dev: int, pipes: seq<int>): (r: (State, Code))
    ensures r.0 == s.(viDevs := r.0.viDevs) && (r.1 != Success ==> r.0 == s)
  {
    var check := CheckDev(s, dev);
    if check != Success then (s, check)
    else if !(1 <= |pipes| <= VI_MAX_PHY_PIPE_NUM) || exists p :: p in pipes && !(0 <= p < VI_MAX_PIPE_NUM) then
      (s, IllegalParam)
    else if exists p, d :: p in pipes && d in s.viDevs && d != dev && PipeOf(s, p, d) then (s, Exist)
    else if !(dev in s.viDevs && s.viDevs[dev].enabled) then (s, NotConfig)
    else if s.viDevs[dev].pipes.Some? then (s, NotPerm)
    else (s.(viDevs := s.viDevs[dev := s.viDevs[dev].(pipes := Some(pipes))]), Success)
  }

  function SetViChnAttr(s: State, pipe: int, chn: int, w: nat, h: nat, format: PixelFormat): (r: (State, Code))
    ensures r.0 == s.(viChns := r.0.viChns) && (r.1 != Success ==> r.0 == s)
  {
    var check := CheckViChn(s, pipe, chn);
    if check != Success then (s, check)
    else if !HasDev(s, pipe) then (s, NotConfig)
    else if w == 0 || h == 0 then (s, IllegalParam)
    else if !Supported(format) then (s, NotSupport)
    else if (pipe, chn) in s.viChns && s.viChns[(pipe, chn)].enabled then (s, NotPerm)
    else (s.(viChns := s.viChns[(pipe, chn) := ViChn(w, h, format, false, 0, None)]), Success)
  }

  function EnableViChn(s: State, pipe: int, chn: int): (r: (State, Code))
    ensures r.0 == s.(viChns := r.0.viChns) && (r.1 != Success ==> r.0 == s)
  {
    var check := CheckViChn(s, pipe, chn);
    if check != Success then (s, check)
    else if !HasDev(s, pipe) then (s, NotConfig)
    else if (pipe, chn) !in s.viChns then (s, NotConfig)
    else if s.viChns[(pipe, chn)].enabled then (s, Exist)
    else (s.(viChns := s.viChns[(pipe, chn) := s.viChns[(pipe, chn)].(enabled := true, nextDue := None)]), Success)
  }

  function DisableViChn(s: State, pipe: int, chn: int): (r: (State, Code))
    ensures r.0 == s.(viChns := r.0.viChns) && (r.1 != Success ==> r.0 == s)
  {
    var check := CheckViChn(s, pipe, chn);
    if check != Success then (s, check)
    else if !((pipe, chn) in s.viChns && s.viChns[(pipe, chn)].enabled) then (s, Unexist)
    else (s.(viChns := s.viChns[(pipe, chn) := s.viChns[(pipe, chn)].(enabled := false)]), Success)
  }

  // ---------------------------------------------------------------- VPSS

  function CheckGrp(s: State, grp: int): Code {
    if !s.initialized then NotReady
    else if !(0 <= grp < VPSS_MAX_GRP_NUM) then InvalidDevId
    else if grp !in s.grps then GroupUnexist
    else Success
  }

  function CheckVpssChn(s: State, grp: int, chn: int): Code {
    var check := CheckGrp(s, grp);
    if check != Success then check
    else if !(0 <= chn < VPSS_MAX_CHN_NUM) then InvalidChnId
    else Success
  }

  function CreateGrp(s: State, grp: int, format: PixelFormat): (r: (State, Code))
    ensures r.0 == s.(grps := r.0.grps) && (r.1 != Success ==> r.0 == s)
  {
    if !s.initialized then (s, NotReady)
    else if !(0 <= grp < VPSS_MAX_GRP_NUM) then (s, InvalidDevId)
    else if !Supported(format) then (s, NotSupport)
    else if grp in s.grps then (s, GroupExist)
    else (s.(grps := s.grps[grp := VpssGrp(false, map[])]), Success)
  }

  function DestroyGrp(s: State, grp: int): (r: (State, Code))
    ensures r.0 == s.(grps := r.0.grps) && (r.1 != Success ==> r.0 == s)
  {
    var check := CheckGrp(s, grp);
    if check != Success then (s, check)
    else if s.grps[grp].started then (s, Busy)
    else (s.(grps := s.grps - {grp}), Success)
  }

  function Emptied(c: VpssChn): VpssChn {
    c.(queue := [])
  }

  function AllEmptied(chns: map<int, VpssChn>): map<int, VpssChn> {
    map c | c in chns :: Emptied(chns[c])
  }

  function Cleared(g: VpssGrp): VpssGrp {
    g.(chns := AllEmptied(g.chns))
  }

  /** `StartGrp` and `StopGrp`; stopping empties every queue. */
  function SetStarted(s: State, grp: int, started: bool): (r: (State, Code))
    ensures r.0 == s.(grps := r.0.grps) && (r.1 != Success ==> r.0 == s)
  {
    var check := CheckGrp(s, grp);
    if check != Success then (s, check) else
    var g := s.grps[grp];
    if g.started == started then (s, NotPerm) else
    var t := g.(started := started);
    (s.(grps := s.grps[grp := if started then t else Cleared(t)]), Success)
  }

  /** Configuring a channel again empties its queue but leaves it enabled if it was. */
  function SetVpssChnAttr(s: State, grp: int, chn: int, attr: VpssChn): (r: (State, Code))
    ensures r.0 == s.(grps := r.0.grps) && (r.1 != Success ==> r.0 == s)
  {
    var check := CheckVpssChn(s, grp, chn);
    if check != Success then (s, check)
    else if attr.width == 0 || attr.height == 0 then (s, IllegalParam)
    else if !Supported(attr.format) then (s, NotSupport)
    else
      var g := s.grps[grp];
      var enabled := chn in g.chns && g.chns[chn].enabled;
      (SetChn(s, grp, chn, attr.(enabled := enabled, number := 0, queue := [])), Success)
  }

  function SetChn(s: State, grp: int, chn: int, c: VpssChn): (t: State)
    requires grp in s.grps
    ensures t == s.(grps := t.grps)
  {
    s.(grps := s.grps[grp := s.grps[grp].(chns := s.grps[grp].chns[chn := c])])
  }

  function EnableVpssChn(s: State, grp: int, chn: int): (r: (State, Code))
    ensures r.0 == s.(grps := r.0.grps) && (r.1 != Success ==> r.0 == s)
  {
    var check := CheckVpssChn(s, grp, chn);
    if check != Success then (s, check)
    else if chn !in s.grps[grp].chns then (s, NotConfig)
    else (SetChn(s, grp, chn, s.grps[grp].chns[chn].(enabled := true)), Success)
  }

  function DisableVpssChn(s: State, grp: int, chn: int): (r: (State, Code))
    ensures r.0 == s.(grps := r.0.grps) && (r.1 != Success ==> r.0 == s)
  {
    var check := CheckVpssChn(s, grp, chn);
    if check != Success then (s, check)
    else if !(chn in s.grps[grp].chns && s.grps[grp].chns[chn].enabled) then (s, Unexist)
    else (SetChn(s, grp, chn, s.grps[grp].chns[chn].(enabled := false, queue := [])), Success)
  }

  function Last<T>(q: seq<T>, n: nat): (r: seq<T>)
    ensures |r| == if |q| < n then |q| else n
  {
    if |q| <= n then q else q[|q| - n..]
  }

  /** Drops the oldest elements until there is room for one more. */
  function Push<T>(q: seq<T>, capacity: nat, x: T): (r: seq<T>)
    requires capacity > 0
    ensures 0 < |r| <= capacity
  {
    Last(q, capacity - 1) + [x]
  }

  function Capacity(c: VpssChn): (n: nat)
    ensures n > 0
  {
    if c.depth == 0 then 1 else c.depth
  }

  ghost predicate GoodImage(img: Image) {
    WellFormed(img) && img.width > 0 && img.height > 0
  }

  ghost predicate GoodImages(images: seq<Image>) {
    forall i :: 0 <= i < |images| ==> GoodImage(images[i])
  }

  ghost predicate GoodChn(c: VpssChn) {
    c.width > 0 && c.height > 0 && Supported(c.format) && GoodImages(c.queue)
  }

  ghost predicate GoodGrp(g: VpssGrp) {
    forall c :: c in g.chns ==> GoodChn(g.chns[c])
  }

  /** What a channel makes of an input frame. */
  function OutputOf(c: VpssChn, img: Image): (out: Image)
    requires GoodChn(c) && GoodImage(img)
    ensures GoodImage(out)
  {
    Convert(Scale(Convert(img, Nv12), c.width, c.height, c.mirror, c.flip), c.format)
  }

  function Fed(c: VpssChn, img: Image): (r: VpssChn)
    requires GoodChn(c) && GoodImage(img)
    ensures GoodChn(r)
  {
    if c.enabled then c.(queue := Push(c.queue, Capacity(c), OutputOf(c, img))) else c
  }

  /** `process`: every enabled channel gets the frame. */
  function Process(g: VpssGrp, img: Image): (r: VpssGrp)
    requires GoodGrp(g) && GoodImage(img)
    ensures GoodGrp(r)
  {
    g.(chns := map c | c in g.chns :: Fed(g.chns[c], img))
  }

  // ---------------------------------------------------------------- VENC

  function CheckVenc(s: State, chn: int): Code {
    if !s.initialized then NotReady
    else if !(0 <= chn < VENC_MAX_CHN_NUM) then InvalidChnId
    else if chn !in s.vencs then Unexist
    else Success
  }

  const DEFAULT_GOP := 30

  /** `codec` is `None` for codecs the library does not know; `clip` is what the channel
      plays instead of synthetic packets, if there is one. */
  function CreateVenc(s: State, chn: int, codec: Option<Codec>, format: PixelFormat, w: nat, h: nat, gop: nat,
                      clip: Option<seq<Frame>>): (r: (State, Code))
    ensures r.0 == s.(vencs := r.0.vencs) && (r.1 != Success ==> r.0 == s)
  {
    if !s.initialized then (s, NotReady)
    else if !(0 <= chn < VENC_MAX_CHN_NUM) then (s, InvalidChnId)
    else if chn in s.vencs then (s, Exist)
    else if codec.None? || !Supported(format) then (s, NotSupport)
    else if w == 0 || h == 0 then (s, IllegalParam)
    else
      var stream := Stream(codec.value, w, h, if gop == 0 then DEFAULT_GOP else gop);
      (s.(vencs := s.vencs[chn := VencChn(stream, false, [], 0, 0, clip)]), Success)
  }

  /** A channel that still receives frames or is bound to a source stays. */
  function DestroyVenc(s: State, chn: int): (r: (State, Code))
    ensures r.0 == s.(vencs := r.0.vencs) && (r.1 != Success ==> r.0 == s)
  {
    var check := CheckVenc(s, chn);
    if check != Success then (s, check)
    else if s.vencs[chn].started || Chn(Venc, 0, chn) in s.binds then (s, Busy)
    else (s.(vencs := s.vencs - {chn}), Success)
  }

  function StartVenc(s: State, chn: int): (r: (State, Code))
    ensures r.0 == s.(vencs := r.0.vencs) && (r.1 != Success ==> r.0 == s)
  {
    var check := CheckVenc(s, chn);
    if check != Success then (s, check)
    else (s.(vencs := s.vencs[chn := s.vencs[chn].(started := true)]), Success)
  }

  function StopVenc(s: State, chn: int): (r: (State, Code))
    ensures r.0 == s.(vencs := r.0.vencs) && (r.1 != Success ==> r.0 == s)
  {
    var check := CheckVenc(s, chn);
    if check != Success then (s, check)
    else (s.(vencs := s.vencs[chn := s.vencs[chn].(started := false, queue := [])]), Success)
  }

  function SendVenc(s: State, now: nat, chn: int, f: VideoFrame): (r: (State, Code))
    ensures r.0 == s.(vencs := r.0.vencs) && (r.1 != Success ==> r.0 == s)
  {
    var check := CheckVenc(s, chn);
    if check != Success then (s, check)
    else if !s.vencs[chn].started then (s, NotPerm)
    else match ImportFrame(s, now, f)
      case Err(code) => (s, code)
      case Ok(img) =>
        var v := s.vencs[chn];
        if |v.queue| >= INPUT_QUEUE_DEPTH then (s, BufFull)
        else (s.(vencs := s.vencs[chn := v.(queue := v.queue + [img])]), Success)
  }

  /** Releases the blocks of a packet list one by one, up to the first that is unknown. */
  function ReleasePacks(s: State, packs: seq<Handle>): (r: (State, bool))
    ensures r.0 == s.(blocks := r.0.blocks, pools := r.0.pools)
    decreases |packs|
  {
    if packs == [] then (s, true) else
    var (t, found) := ReleaseBlock(s, packs[0]);
    if found then ReleasePacks(t, packs[1..]) else (t, false)
  }

  function ReleaseStream(s: State, chn: int, packs: seq<Handle>): (r: (State, Code))
    ensures r.0 == s.(vencs := r.0.vencs, blocks := r.0.blocks, pools := r.0.pools)
  {
    var check := CheckVenc(s, chn);
    if check != Success then (s, check)
    else if packs == [] then (s, IllegalParam)
    else
      var (t, all) := ReleasePacks(s, packs);
      if !all then (t, IllegalParam) else
      var v := s.vencs[chn];
      (t.(vencs := s.vencs[chn := v.(outstanding := if v.outstanding == 0 then 0 else v.outstanding - 1)]), Success)
  }
}
