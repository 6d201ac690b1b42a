/** Creating cameras, encoder channels and their handles keeps wrapper and library in step. */
module OwnedSound {
  import opened AccessUnits
  import opened Bytes
  import opened Drops
  import opened Images
  import opened Joins
  import opened Mpi
  import opened Owned
  import opened References
  import opened Resources
  import opened Teardown
  import opened Views
  import Flow
  import Invariants
  import M = Machine
  import Rings

  function SetOf(h: seq<Ref>): set<Ref> {
    set r | r in h
  }

  // ---------------------------------------------------------------- new handles

  /** A handle in drop order keeps the world sound if wrapper and library agree on its objects. */
  lemma AddsHandle(x: World, w: Wrapper, t: State, h: seq<Ref>)
    requires Sound(x) && w.handles == x.w.handles && w.strong == x.w.strong && InDropOrder(h)
    requires Agree(x.w.strong.Keys + SetOf(h), w, ViewOf(t)) && Invariants.Inv(t)
    ensures Sound(World(AddHandle(w, h), t))
  {
    hide Agree, Invariants.Inv, ViewOf, InDropOrder, Counted, Gain;
    GainCounted(w.handles, w.strong, h);
    assert AddHandle(w, h).strong.Keys == x.w.strong.Keys + SetOf(h);
    SameAgreement(x.w.strong.Keys + SetOf(h), w, AddHandle(w, h), ViewOf(t));
    forall i | 0 <= i < |w.handles + [h]|
      ensures InDropOrder((w.handles + [h])[i])
    {
      if i < |w.handles| {
        assert (w.handles + [h])[i] == x.w.handles[i];
      }
    }
  }

  lemma ConsOrder(r: Ref, rest: seq<Ref>)
    requires InDropOrder(rest) && forall n :: n in Needs(r) ==> n in rest
    ensures InDropOrder([r] + rest) && SetOf([r] + rest) == {r} + SetOf(rest)
  {
    var h := [r] + rest;
    assert h[1..] == rest && h[0] == r;
    forall q
      ensures q in SetOf(h) <==> q in {r} + SetOf(rest)
    {
      assert q in h <==> q == r || q in rest;
    }
  }

  lemma SysOrder()
    ensures InDropOrder([Sys]) && SetOf([Sys]) == {Sys}
  {
    assert [Sys][1..] == [];
    assert InDropOrder([]);
  }

  /** All fields of a handle are alive, and what the first one needs is among the others. */
  lemma FieldsAlive(x: World, i: nat)
    requires Sound(x) && Fields(x, i) != []
    ensures InDropOrder(Fields(x, i)) && SetOf(Fields(x, i)) <= x.w.strong.Keys && NeedsAlive(x.w.strong.Keys)
    ensures Fields(x, i)[0] in x.w.strong
  {
    hide Agree, Invariants.Inv, InDropOrder, Counted, NeedsAlive;
    HeldNeedsAlive(x.w.handles, x.w.strong);
    forall r | r in Fields(x, i)
      ensures r in x.w.strong
    {
      HeldIsCounted(x.w.handles, x.w.strong, i, r);
    }
  }

  lemma FirstNeeds(h: seq<Ref>)
    requires InDropOrder(h) && h != []
    ensures forall n :: n in Needs(h[0]) ==> n in h
  {
    hide Needs;
  }

  lemma SoundParts(x: World)
    requires Sound(x)
    ensures Agree(x.w.strong.Keys, x.w, ViewOf(x.s)) && Invariants.Inv(x.s) && Flow.Good(x.s) && NeedsAlive(x.w.strong.Keys)
    ensures (Sys in x.w.strong <==> x.s.initialized) && (x.w.mpiInit <==> x.s.initialized)
  {
    HeldNeedsAlive(x.w.handles, x.w.strong);
    Invariants.InvIsGood(x.s);
    AgreeAt(OfSys, x.w.strong.Keys, x.w, ViewOf(x.s));
    hide Agree, Invariants.Inv, Counted, Flow.Good, NeedsAlive;
  }

  lemma BindsUnchained(live: set<Ref>, binds: map<Chn, Chn>)
    requires BindsAgree(live, binds)
    ensures Rings.Unchained(binds)
  {
  }

  lemma TableAt(x: World, t: Table)
    requires Sound(x)
    ensures AgreeOn(t, x.w.strong.Keys, x.w, ViewOf(x.s))
  {
    hide AgreeOn, Invariants.Inv, Counted;
  }

  lemma BindsOf(live: set<Ref>, w: Wrapper, v: View)
    requires AgreeOn(OfBinds, live, w, v)
    ensures BindsAgree(live, v.binds)
  {
    hide BindsAgree;
  }

  lemma BindsInView(s: State)
    ensures ViewOf(s).binds == s.binds
  {
    hide BlocksView, VencsView, OutstandingView, GroupsView, ChnsView, CamsView, VisView;
  }

  lemma BindsTable(x: World)
    requires Sound(x)
    ensures BindsAgree(x.w.strong.Keys, x.s.binds)
  {
    hide *;
    TableAt(x, OfBinds);
    BindsOf(x.w.strong.Keys, x.w, ViewOf(x.s));
    BindsInView(x.s);
  }

  /** The wrapper never binds a group to a group, so demand always ends. */
  lemma DemandEnds(x: World)
    requires Sound(x)
    ensures Rings.Unchained(x.s.binds)
    ensures (forall g, c :: Flow.Ends(x.s, g, c)) && (forall v :: Flow.VencEnds(x.s, v))
  {
    hide *;
    BindsTable(x);
    BindsUnchained(x.w.strong.Keys, x.s.binds);
    Rings.NoChainEnds(x.s, 0);
    forall v
      ensures Flow.VencEnds(x.s, v)
    {
      Rings.NoChainEnds(x.s, v);
    }
  }

  // ---------------------------------------------------------------- the library's own invariant

  lemma InitKeepsInv(s: State)
    requires Invariants.Inv(s)
    ensures Invariants.Inv(Init(s).0)
  {
    hide Invariants.Inv, Flow.Good;
    CallKeepsInv(s, M.OnSys(M.Init), Init(s).0);
  }

  lemma BindKeepsInv(s: State, src: Chn, dst: Chn)
    requires Invariants.Inv(s)
    ensures Invariants.Inv(Bind(s, src, dst).0)
  {
    hide Invariants.Inv, Flow.Good, Bind;
    CallKeepsInv(s, M.OnSys(M.Bind(src, dst)), Bind(s, src, dst).0);
  }

  lemma DevCallsKeepInv(s: State, d: int, pipes: seq<int>)
    requires Invariants.Inv(s)
    ensures Invariants.Inv(SetDevAttr(s, d).0) && Invariants.Inv(EnableDev(s, d).0)
    ensures Invariants.Inv(SetDevBindPipe(s, d, pipes).0)
  {
    hide Invariants.Inv, Flow.Good, SetDevAttr, EnableDev, SetDevBindPipe;
    CallKeepsInv(s, M.OnVi(M.SetDevAttr(d)), SetDevAttr(s, d).0);
    CallKeepsInv(s, M.OnVi(M.EnableDev(d)), EnableDev(s, d).0);
    CallKeepsInv(s, M.OnVi(M.SetDevBindPipe(d, pipes)), SetDevBindPipe(s, d, pipes).0);
  }

  lemma ViCallsKeepInv(s: State, p: int, c: int, w: nat, h: nat)
    requires Invariants.Inv(s)
    ensures Invariants.Inv(SetViChnAttr(s, p, c, w, h, Nv12).0) && Invariants.Inv(EnableViChn(s, p, c).0)
  {
    hide Invariants.Inv, Flow.Good, SetViChnAttr, EnableViChn;
    CallKeepsInv(s, M.OnVi(M.SetViChnAttr(p, c, w, h, Nv12)), SetViChnAttr(s, p, c, w, h, Nv12).0);
    CallKeepsInv(s, M.OnVi(M.EnableViChn(p, c)), EnableViChn(s, p, c).0);
  }

  lemma VencCallsKeepInv(s: State, v: int, cfg: VencConfig)
    requires Invariants.Inv(s) && (cfg.clip.Some? ==> cfg.clip.value != [])
    ensures Invariants.Inv(CreateVenc(s, v, Some(cfg.codec), cfg.format, cfg.width, cfg.height, cfg.gop, cfg.clip).0)
  {
    hide Invariants.Inv, Flow.Good, CreateVenc;
    CallKeepsInv(s, M.OnVenc(M.CreateVenc(v, Some(cfg.codec), cfg.format, cfg.width, cfg.height, cfg.gop, cfg.clip)),
                 CreateVenc(s, v, Some(cfg.codec), cfg.format, cfg.width, cfg.height, cfg.gop, cfg.clip).0);
  }

  lemma StartVencKeepsInv(s: State, v: int)
    requires Invariants.Inv(s)
    ensures Invariants.Inv(StartVenc(s, v).0)
  {
    hide Invariants.Inv, Flow.Good, StartVenc;
    CallKeepsInv(s, M.OnVenc(M.StartVenc(v)), StartVenc(s, v).0);
  }

  lemma GroupCallsKeepInv(s: State, g: int, format: PixelFormat, started: bool)
    requires Invariants.Inv(s)
    ensures Invariants.Inv(CreateGrp(s, g, format).0) && Invariants.Inv(SetStarted(s, g, started).0)
  {
    hide Invariants.Inv, Flow.Good, CreateGrp, SetStarted;
    CallKeepsInv(s, M.OnVpss(M.CreateGrp(g, format)), CreateGrp(s, g, format).0);
    CallKeepsInv(s, M.OnVpss(M.SetStarted(g, started)), SetStarted(s, g, started).0);
  }

  lemma VpssCallsKeepInv(s: State, g: int, c: int, attr: VpssChn)
    requires Invariants.Inv(s)
    ensures Invariants.Inv(SetVpssChnAttr(s, g, c, attr).0)
    ensures Invariants.Inv(EnableVpssChn(s, g, c).0) && Invariants.Inv(DisableVpssChn(s, g, c).0)
  {
    hide Invariants.Inv, Flow.Good, SetVpssChnAttr, EnableVpssChn, DisableVpssChn;
    CallKeepsInv(s, M.OnVpss(M.SetVpssChnAttr(g, c, attr)), SetVpssChnAttr(s, g, c, attr).0);
    CallKeepsInv(s, M.OnVpss(M.EnableVpssChn(g, c)), EnableVpssChn(s, g, c).0);
    CallKeepsInv(s, M.OnVpss(M.DisableVpssChn(g, c)), DisableVpssChn(s, g, c).0);
  }

  lemma MemoryCallsKeepInv(s: State, size: nat, id: nat, mb: Handle)
    requires Invariants.Inv(s)
    ensures Invariants.Inv(CreatePool(s, size, 1).0)
    ensures mb !in s.blocks ==> Invariants.Inv(GetMB(s, id, size, mb).0)
  {
    hide Invariants.Inv, Flow.Good, CreatePool, GetMB;
    CallKeepsInv(s, M.OnMb(M.CreatePool(size, 1)), CreatePool(s, size, 1).0);
    if mb !in s.blocks {
      CallKeepsInv(s, M.OnMb(M.GetMB(id, size, mb)), GetMB(s, id, size, mb).0);
    }
  }

  lemma WriteKeepsInv(s: State, mb: Handle, data: seq<byte>)
    requires Invariants.Inv(s) && mb in s.blocks && |data| == |s.blocks[mb].data|
    ensures Invariants.Inv(WriteBlock(s, mb, data))
  {
    hide Invariants.Inv, Flow.Good, WriteBlock;
    CallKeepsInv(s, M.OnMb(M.Write(mb, data)), WriteBlock(s, mb, data));
  }

  lemma ViFrameKeepsInv(s: State, now: nat, p: int, c: int, mb: Handle)
    requires Invariants.Inv(s) && Flow.Good(s) && mb !in s.blocks
    ensures Invariants.Inv(Flow.GetViFrame(s, now, p, c, mb).0)
  {
    hide Invariants.Inv, Flow.Good, Flow.GetViFrame;
    EventKeepsInv(s, M.Event(M.OnVi(M.GetViFrame(p, c, mb)), now), Flow.GetViFrame(s, now, p, c, mb).0);
  }

  lemma VpssFrameKeepsInv(s: State, now: nat, g: int, c: int, mb: Handle)
    requires Invariants.Inv(s) && Flow.Good(s) && mb !in s.blocks && Flow.Ends(s, g, c)
    ensures Invariants.Inv(Flow.GetVpssFrame(s, now, g, c, mb).0)
  {
    hide Invariants.Inv, Flow.Good, Flow.Ends, Flow.GetVpssFrame;
    EventKeepsInv(s, M.Event(M.OnVpss(M.GetVpssFrame(g, c, mb)), now), Flow.GetVpssFrame(s, now, g, c, mb).0);
  }

  lemma StreamKeepsInv(s: State, now: nat, v: int, mb: Handle)
    requires Invariants.Inv(s) && Flow.Good(s) && mb !in s.blocks && Flow.VencEnds(s, v) && Flow.Packs(s, v)
    ensures Invariants.Inv(Flow.GetStream(s, now, v, mb).0)
  {
    hide Invariants.Inv, Flow.Good, Flow.VencEnds, Flow.Packs, Flow.GetStream;
    EventKeepsInv(s, M.Event(M.OnVenc(M.GetStream(v, mb)), now), Flow.GetStream(s, now, v, mb).0);
  }

  lemma SendsKeepInv(s: State, now: nat, k: int, f: Mpi.VideoFrame)
    requires Invariants.Inv(s) && Flow.Good(s)
    ensures Flow.Scalable(s, now, k, f) ==> Invariants.Inv(Flow.SendVpss(s, now, k, f).0)
    ensures Invariants.Inv(SendVenc(s, now, k, f).0)
  {
    hide Invariants.Inv, Flow.Good, Flow.Scalable, Flow.SendVpss, SendVenc;
    if Flow.Scalable(s, now, k, f) {
      EventKeepsInv(s, M.Event(M.OnVpss(M.SendVpss(k, f)), now), Flow.SendVpss(s, now, k, f).0);
    }
    EventKeepsInv(s, M.Event(M.OnVenc(M.SendVenc(k, f)), now), SendVenc(s, now, k, f).0);
  }

  lemma EventKeepsInv(s: State, e: M.Event, t: State)
    requires Invariants.Inv(s) && Flow.Good(s) && M.Legal(s, e) && t == M.Effect(s, e)
    ensures Invariants.Inv(t)
  {
    Invariants.InvKept(s, e);
    hide Invariants.Inv, Flow.Good, M.Effect, M.Legal;
  }

  /** A step that creates nothing. */
  lemma StaysSound(x: World, w: Wrapper, t: State)
    requires Sound(x) && w.handles == x.w.handles && w.strong == x.w.strong
    requires Agree(x.w.strong.Keys, w, ViewOf(t)) && Invariants.Inv(t)
    ensures Sound(World(w, t))
  {
    hide Agree, Invariants.Inv, Counted, AllInDropOrder;
  }

  lemma SameView(x: World, t: State)
    requires Sound(x) && ViewOf(t) == ViewOf(x.s) && Invariants.Inv(t)
    ensures Sound(World(x.w, t))
  {
    hide Agree, Invariants.Inv, Counted, AllInDropOrder, ViewOf;
  }

  // ---------------------------------------------------------------- system and cameras

  lemma NothingWithoutSys(live: set<Ref>)
    requires NeedsAlive(live) && Sys !in live
    ensures live == {}
  {
    forall r
      ensures r !in live
    {
      assert r != Sys ==> Sys in Needs(r);
    }
  }

  function Initialized(w: Wrapper): Wrapper {
    w.(mpiInit := true, cameras := NewIds(VI_MAX_DEV_NUM), vencs := NewIds(VENC_MAX_CHN_NUM),
       groups := NewIds(VPSS_MAX_GRP_NUM))
  }

  lemma InitMpiIs(x: World)
    ensures InitMpi(x) == if x.w.mpiInit then x else World(AddHandle(Initialized(x.w), [Sys]), Init(x.s).0)
  {
    hide Init, NewIds, Gain;
  }

  lemma InitSound(x: World)
    requires Sound(x)
    ensures Sound(InitMpi(x))
  {
    hide *;
    SoundParts(x);
    InitMpiIs(x);
    if !x.w.mpiInit {
      NothingWithoutSys(x.w.strong.Keys);
      NothingNative({}, x.w, ViewOf(x.s));
      InitAgrees(x.w, ViewOf(x.s));
      InitView(x.s);
      InitKeepsInv(x.s);
      SysOrder();
      assert x.w.strong.Keys + SetOf([Sys]) == {Sys};
      SameFields(x.w);
      AddsHandle(x, Initialized(x.w), Init(x.s).0, [Sys]);
    }
  }

  lemma SameFields(w: Wrapper)
    ensures Initialized(w).handles == w.handles && Initialized(w).strong == w.strong
  {
  }

  lemma NewVencTable(ids: Ids)
    requires ids == NewIds(VENC_MAX_CHN_NUM)
    ensures VencsAgree({Sys}, {}, ids, map[])
  {
    NewIsPartition(VENC_MAX_CHN_NUM);
    hide Partition, NewIds;
  }

  lemma NewGroupTable(ids: Ids)
    requires ids == NewIds(VPSS_MAX_GRP_NUM)
    ensures GroupsAgree({Sys}, {}, ids, map[])
  {
    NewIsPartition(VPSS_MAX_GRP_NUM);
    hide Partition, NewIds;
  }

  lemma NewCamTable(ids: Ids)
    requires ids == NewIds(VI_MAX_DEV_NUM)
    ensures CamsAgree({Sys}, ids, map[])
  {
    NewIsPartition(VI_MAX_DEV_NUM);
    hide Partition, NewIds;
  }

  lemma SysComes(w: Wrapper, v: View)
    requires Agree({}, w, v)
    ensures w.on == {} && Agree({Sys}, w.(mpiInit := true), v.(initialized := true))
  {
    assert AgreeOn(OfSys, {Sys}, w.(mpiInit := true), v.(initialized := true)) by { hide Agree; }
    AgreeAt(OfSys, {}, w, v);
    hide Agree, VencsAgree, GroupsAgree, ChnsAgree, CamsAgree, VisAgree, BindsAgree, PoolsAgree, BlocksAgree, StreamsAgree, SysAgrees;
    OneChanges(OfSys, OfSys, {}, {Sys}, Sys, w, v, w.(mpiInit := true), v.(initialized := true));
  }

  lemma NewVencIds(w: Wrapper, v: View, ids: Ids)
    requires Agree({Sys}, w, v) && w.on == {} && v.vencs == map[] && VencsAgree({Sys}, {}, ids, map[])
    ensures Agree({Sys}, w.(vencs := ids), v)
  {
    hide Agree, VencsAgree, GroupsAgree, ChnsAgree, CamsAgree, VisAgree, BindsAgree, PoolsAgree, BlocksAgree, StreamsAgree, SysAgrees;
    OneChanges(OfVencs, OfVencs, {Sys}, {Sys}, VencChannel(0), w, v, w.(vencs := ids), v);
  }

  lemma NewGroupIds(w: Wrapper, v: View, ids: Ids)
    requires Agree({Sys}, w, v) && w.on == {} && v.groups == map[] && GroupsAgree({Sys}, {}, ids, map[])
    ensures Agree({Sys}, w.(groups := ids), v)
  {
    hide Agree, VencsAgree, GroupsAgree, ChnsAgree, CamsAgree, VisAgree, BindsAgree, PoolsAgree, BlocksAgree, StreamsAgree, SysAgrees;
    OneChanges(OfGroups, OfGroups, {Sys}, {Sys}, Group(0), w, v, w.(groups := ids), v);
  }

  lemma NewCameraIds(w: Wrapper, v: View, ids: Ids)
    requires Agree({Sys}, w, v) && w.on == {} && v.cams == map[] && CamsAgree({Sys}, ids, map[])
    ensures Agree({Sys}, w.(cameras := ids), v)
  {
    hide Agree, VencsAgree, GroupsAgree, ChnsAgree, CamsAgree, VisAgree, BindsAgree, PoolsAgree, BlocksAgree, StreamsAgree, SysAgrees;
    OneChanges(OfCams, OfCams, {Sys}, {Sys}, Camera(0), w, v, w.(cameras := ids), v);
  }

  lemma InitAgrees(w: Wrapper, v: View)
    requires Agree({}, w, v) && NothingLeft(v)
    ensures Agree({Sys}, Initialized(w), v.(initialized := true))
  {
    hide Agree, NewIds, VencsAgree, GroupsAgree, CamsAgree;
    var x := Initialized(w);
    NewVencTable(x.vencs);
    NewGroupTable(x.groups);
    NewCamTable(x.cameras);
    SysComes(w, v);
    var y := v.(initialized := true);
    NewVencIds(w.(mpiInit := true), y, x.vencs);
    NewGroupIds(w.(mpiInit := true, vencs := x.vencs), y, x.groups);
    NewCameraIds(w.(mpiInit := true, vencs := x.vencs, groups := x.groups), y, x.cameras);
  }

  lemma ShareSound(x: World, i: nat, from: nat)
    requires Sound(x)
    ensures Sound(Share(x, i, from))
  {
    var h := Fields(x, i);
    if from < |h| {
      hide Sound, Agree, Invariants.Inv, InDropOrder, NeedsAlive, ViewOf, Gain, Flow.Good;
      FieldsAlive(x, i);
      SoundParts(x);
      SuffixOrder(h, from);
      SuffixIn(x.w.strong.Keys, h, from);
      AddsHandle(x, x.w, x.s, h[from..]);
    }
  }

  lemma SuffixIn(live: set<Ref>, h: seq<Ref>, from: nat)
    requires SetOf(h) <= live && from <= |h|
    ensures live + SetOf(h[from..]) == live
  {
    forall r | r in h[from..]
      ensures r in SetOf(h)
    {
    }
  }

  lemma {:induction false} SuffixOrder(h: seq<Ref>, from: nat)
    requires InDropOrder(h) && from <= |h|
    ensures InDropOrder(h[from..])
    decreases from
  {
    if from == 0 {
      assert h[0..] == h;
    } else {
      SuffixOrder(h[1..], from - 1);
      assert h[1..][from - 1..] == h[from..];
    }
  }

  /** A device that no camera holds is not enabled. */
  lemma DeviceIsOff(x: World, id: nat)
    requires Sound(x) && AcquiredSpecific(x.w.cameras, id).Some?
    ensures id !in CamsView(x.s.viDevs) && id < VI_MAX_DEV_NUM
    ensures forall d :: d in CamsView(x.s.viDevs) ==> CamsView(x.s.viDevs)[d] == Some([d])
    ensures id in x.s.viDevs ==> !x.s.viDevs[id].enabled && x.s.viDevs[id].pipes.None?
  {
    AgreeAt(OfCams, x.w.strong.Keys, x.w, ViewOf(x.s));
    CamsWith(x.w.strong.Keys, x.w.cameras, ViewOf(x.s).cams, id);
    hide Agree, Invariants.GrpsOk, Invariants.VencsOk, Counted, AcquiredSpecific, Pools.PoolsOk;
    assert id in x.s.viDevs && x.s.viDevs[id].enabled ==> id in CamsView(x.s.viDevs);
    assert Invariants.DevsOk(x.s.viDevs);
  }

  lemma DeviceReady(s: State, id: nat)
    requires s.initialized && id < VI_MAX_DEV_NUM && (id in s.viDevs ==> !s.viDevs[id].enabled && s.viDevs[id].pipes.None?)
    ensures var (t, code) := if GetDevAttr(s, id) == NotConfig then SetDevAttr(s, id) else (s, Success);
            && code == Success && t.initialized && id in t.viDevs && t.viDevs[id].configured && !t.viDevs[id].enabled
            && t.viDevs[id].pipes.None? && GetDevIsEnable(t, id) != Success
  {
  }

  lemma EnableAndBind(s: State, id: nat)
    requires s.initialized && id < VI_MAX_DEV_NUM && Invariants.Inv(s)
    requires id in s.viDevs && s.viDevs[id].configured && !s.viDevs[id].enabled && s.viDevs[id].pipes.None?
    requires forall d :: d in CamsView(s.viDevs) ==> CamsView(s.viDevs)[d] == Some([d])
    ensures var (t, enable) := EnableDev(s, id);
            var (u, bind) := SetDevBindPipe(t, id, [id]);
            && enable == Success && bind == Success && Invariants.Inv(u)
            && ViewOf(u) == ViewOf(s).(cams := ViewOf(s).cams[id := Some([id])])
  {
    EnableCameraView(s, id);
    hide *;
    DevCallsKeepInv(s, id, [id]);
    DevCallsKeepInv(EnableDev(s, id).0, id, [id]);
  }

  lemma CamsOfView(s: State, t: State)
    requires ViewOf(s) == ViewOf(t)
    ensures CamsView(s.viDevs) == CamsView(t.viDevs)
  {
    hide CamsView;
  }

  /** Configuring, enabling and binding the device all succeed. */
  lemma CameraComesUp(x: World, id: nat)
    requires Sound(x) && Sys in x.w.strong && AcquiredSpecific(x.w.cameras, id).Some?
    ensures var y := NewCamera(x, id);
            && y.w == AddHandle(x.w.(cameras := AcquiredSpecific(x.w.cameras, id).value), [Camera(id), Sys])
            && ViewOf(y.s) == ViewOf(x.s).(cams := ViewOf(x.s).cams[id := Some([id])])
            && Invariants.Inv(y.s)
  {
    hide Sound, Agree, Invariants.Inv, Flow.Good, ViewOf, CamsView, AcquiredSpecific, NeedsAlive, AddHandle,
         GetDevAttr, SetDevAttr, GetDevIsEnable, EnableDev, SetDevBindPipe, DropCamera;
    SoundParts(x);
    DeviceIsOff(x, id);
    DeviceReady(x.s, id);
    SetDevAttrView(x.s, id);
    DevCallsKeepInv(x.s, id, []);
    var s := if GetDevAttr(x.s, id) == NotConfig then SetDevAttr(x.s, id).0 else x.s;
    CamsOfView(x.s, s);
    EnableAndBind(s, id);
  }

  lemma CameraSound(x: World, id: nat)
    requires Sound(x)
    ensures Sound(NewCamera(x, id))
  {
    hide Sound, Agree, Invariants.Inv, ViewOf, AcquiredSpecific, AddHandle, GetDevAttr, SetDevAttr, GetDevIsEnable, EnableDev,
         SetDevBindPipe, DropCamera;
    if Sys in x.w.strong && AcquiredSpecific(x.w.cameras, id).Some? {
      CameraComesUp(x, id);
      CameraAdded(x, NewCamera(x, id), id);
    }
  }

  lemma CameraAdded(x: World, y: World, id: nat)
    requires Sound(x) && Sys in x.w.strong && AcquiredSpecific(x.w.cameras, id).Some?
    requires y.w == AddHandle(x.w.(cameras := AcquiredSpecific(x.w.cameras, id).value), [Camera(id), Sys])
    requires ViewOf(y.s) == ViewOf(x.s).(cams := ViewOf(x.s).cams[id := Some([id])]) && Invariants.Inv(y.s)
    ensures Sound(y)
  {
    hide *;
    SoundParts(x);
    JoinCamera(x.w.strong.Keys, x.w, ViewOf(x.s), id);
    HoldsSys(x, Camera(id));
    AddsHandle(x, x.w.(cameras := AcquiredSpecific(x.w.cameras, id).value), y.s, [Camera(id), Sys]);
  }

  /** A new object that needs nothing but the system. */
  lemma HoldsSys(x: World, r: Ref)
    requires Sys in x.w.strong && (r.Camera? || r.VencChannel? || r.Group? || r.MemPool?)
    ensures InDropOrder([r, Sys]) && x.w.strong.Keys + SetOf([r, Sys]) == x.w.strong.Keys + {r}
  {
    SysOrder();
    assert [r, Sys] == [r] + [Sys];
    ConsOrder(r, [Sys]);
  }

  // ---------------------------------------------------------------- camera channels

  lemma ViChannelSound(x: World, i: nat, chn: nat, width: nat, height: nat)
    requires Sound(x)
    ensures Sound(NewViChannel(x, i, chn, width, height))
  {
    hide Sound, Agree, Invariants.Inv, ViewOf, AddHandle, SetViChnAttr, EnableViChn, Flow.Good, InDropOrder, HasDev, NeedsAlive;
    var h := Fields(x, i);
    if h != [] && h[0].Camera? && chn < VI_MAX_CHN_NUM {
      var d := h[0].dev;
      SoundParts(x);
      FieldsAlive(x, i);
      SetViChnAttrView(x.s, d, chn, width, height);
      var (s, code) := SetViChnAttr(x.s, d, chn, width, height, Nv12);
      ViCallsKeepInv(x.s, d, chn, width, height);
      ViCallsKeepInv(s, d, chn, width, height);
      SameView(x, s);
      if code == Success {
        EnableViChnView(s, d, chn);
        ViChannelAdded(x, EnableViChn(s, d, chn).0, h, chn);
      }
    }
  }

  lemma ViChannelAdded(x: World, t: State, h: seq<Ref>, chn: nat)
    requires Sound(x) && InDropOrder(h) && h != [] && h[0].Camera? && SetOf(h) <= x.w.strong.Keys
    requires 0 <= h[0].dev < VI_MAX_PIPE_NUM && chn < VI_MAX_CHN_NUM
    requires ViewOf(t) == ViewOf(x.s).(vis := ViewOf(x.s).vis + {(h[0].dev, chn)}) && Invariants.Inv(t)
    ensures Sound(World(AddHandle(x.w, [ViChannel(h[0].dev, chn)] + h), t))
  {
    var r := ViChannel(h[0].dev, chn);
    hide *;
    ViChannelNeeds(h, chn);
    SoundParts(x);
    JoinViChannel(x.w.strong.Keys, x.w, ViewOf(x.s), h[0].dev, chn);
    ConsAdded(x, x.w, t, r, h);
  }

  lemma ViChannelNeeds(h: seq<Ref>, chn: int)
    requires InDropOrder(h) && h != [] && h[0].Camera?
    ensures forall n :: n in Needs(ViChannel(h[0].dev, chn)) ==> n in h
  {
    FirstNeeds(h);
    assert Sys in Needs(h[0]);
  }

  lemma FrameNeeds(h: seq<Ref>, mb: Handle)
    requires InDropOrder(h) && h != [] && Sys in Needs(h[0])
    ensures forall n :: n in Needs(References.VideoFrame(mb)) ==> n in h
    ensures OwnedBlock(References.VideoFrame(mb)) == Some(mb) && OwnedPool(References.VideoFrame(mb)) == None
  {
    FirstNeeds(h);
  }

  lemma StreamNeeds(mb: Handle, v: int)
    ensures forall n :: n in Needs(Stream(mb, v)) ==> n in [VencChannel(v), Sys]
  {
  }

  /** A new object in front of the fields of another handle. */
  lemma ConsAdded(x: World, w: Wrapper, t: State, r: Ref, h: seq<Ref>)
    requires Sound(x) && InDropOrder(h) && SetOf(h) <= x.w.strong.Keys && forall n :: n in Needs(r) ==> n in h
    requires w.handles == x.w.handles && w.strong == x.w.strong
    requires Agree(x.w.strong.Keys + {r}, w, ViewOf(t)) && Invariants.Inv(t)
    ensures Sound(World(AddHandle(w, [r] + h), t))
  {
    hide Sound, Agree, Invariants.Inv, ViewOf, AddHandle, InDropOrder;
    ConsOrder(r, h);
    assert x.w.strong.Keys + SetOf([r] + h) == x.w.strong.Keys + {r};
    AddsHandle(x, w, t, [r] + h);
  }

  lemma ViFrameSound(x: World, i: nat, mb: Handle, now: nat)
    requires Sound(x) && Flow.Good(x.s) && mb !in x.s.blocks
    ensures Sound(NewViFrame(x, i, mb, now))
  {
    hide Sound, Agree, Invariants.Inv, ViewOf, AddHandle, Flow.GetViFrame, Flow.Good, InDropOrder, NeedsAlive;
    var h := Fields(x, i);
    if h != [] && h[0].ViChannel? {
      GetViFrameView(x.s, now, h[0].pipe, h[0].chn, mb);
      SoundParts(x);
      ViFrameKeepsInv(x.s, now, h[0].pipe, h[0].chn, mb);
      var (t, r) := Flow.GetViFrame(x.s, now, h[0].pipe, h[0].chn, mb);
      if r.Ok? {
        FieldsAlive(x, i);
        FrameAdded(x, t, h, mb);
      } else {
        SameView(x, t);
      }
    }
  }

  lemma BlocksInView(s: State)
    ensures ViewOf(s).blocks.Keys == s.blocks.Keys
  {
    hide VencsView, OutstandingView, GroupsView, ChnsView, CamsView, VisView;
  }

  lemma FrameAdded(x: World, t: State, h: seq<Ref>, mb: Handle)
    requires Sound(x) && InDropOrder(h) && SetOf(h) <= x.w.strong.Keys && h != [] && Sys in Needs(h[0])
    requires mb !in x.s.blocks && ViewOf(t) == ViewOf(x.s).(blocks := ViewOf(x.s).blocks[mb := None]) && Invariants.Inv(t)
    ensures Sound(World(AddHandle(x.w, [References.VideoFrame(mb)] + h), t))
  {
    var r := References.VideoFrame(mb);
    hide *;
    FrameNeeds(h, mb);
    SoundParts(x);
    BlocksInView(x.s);
    JoinBlock(x.w.strong.Keys, x.w, ViewOf(x.s), r, mb);
    ConsAdded(x, x.w, t, r, h);
  }

  // ---------------------------------------------------------------- encoder channels

  lemma AcquiredTook(ids: Ids, capacity: nat)
    requires Partition(ids, capacity) && Acquired(ids).Some?
    ensures var (id, now) := Acquired(ids).value; Took(ids, now, capacity, id)
  {
    AcquireTakesLeast(ids, capacity);
    hide Partition, Acquired;
  }

  lemma SpecificTook(ids: Ids, capacity: nat, id: nat)
    requires Partition(ids, capacity) && AcquiredSpecific(ids, id).Some?
    ensures Took(ids, AcquiredSpecific(ids, id).value, capacity, id)
  {
    AcquireSpecificTakes(ids, capacity, id);
    hide Partition, AcquiredSpecific;
  }

  lemma IdsArePartitions(x: World)
    requires Sound(x)
    ensures Partition(x.w.vencs, VENC_MAX_CHN_NUM) && Partition(x.w.groups, VPSS_MAX_GRP_NUM)
  {
    hide Sound, Partition, ViewOf, ChnsAgree, CamsAgree, VisAgree, BindsAgree, PoolsAgree, BlocksAgree, StreamsAgree, SysAgrees;
    TableAt(x, OfVencs);
    TableAt(x, OfGroups);
  }

  /** A channel is created with a fresh identifier, so the library never says that it exists. */
  lemma VencWithSound(x: World, id: nat, ids: Ids, cfg: VencConfig)
    requires Sound(x) && Sys in x.w.strong && Took(x.w.vencs, ids, VENC_MAX_CHN_NUM, id)
    requires cfg.clip.Some? ==> cfg.clip.value != []
    ensures Sound(VencWith(x, id, ids, cfg))
    ensures CreateVenc(x.s, id, Some(cfg.codec), cfg.format, cfg.width, cfg.height, cfg.gop, cfg.clip).1 != Exist
  {
    hide Sound, Agree, Invariants.Inv, ViewOf, AddHandle, CreateVenc, Took, Freed, Flow.Good, NeedsAlive;
    SoundParts(x);
    JoinVenc(x.w.strong.Keys, x.w, ViewOf(x.s), id, ids);
    CreateVencView(x.s, id, Some(cfg.codec), cfg.format, cfg.width, cfg.height, cfg.gop, cfg.clip);
    VencCallsKeepInv(x.s, id, cfg);
    VencsInView(x.s);
    var (t, code) := CreateVenc(x.s, id, Some(cfg.codec), cfg.format, cfg.width, cfg.height, cfg.gop, cfg.clip);
    if code == Success {
      HoldsSys(x, VencChannel(id));
      AddsHandle(x, x.w.(vencs := ids), t, [VencChannel(id), Sys]);
    } else {
      StaysSound(x, x.w.(vencs := Freed(ids, id)), t);
    }
  }

  lemma VencsInView(s: State)
    ensures ViewOf(s).vencs.Keys == s.vencs.Keys && ViewOf(s).groups.Keys == s.grps.Keys
  {
    hide OutstandingView, ChnsView, CamsView, VisView, BlocksView;
  }

  lemma VencSound(x: World, cfg: VencConfig)
    requires Sound(x) && (cfg.clip.Some? ==> cfg.clip.value != [])
    ensures Sound(NewVenc(x, cfg))
  {
    hide Sound, Partition, Acquired, VencWith, Took;
    IdsArePartitions(x);
    if Sys in x.w.strong && Acquired(x.w.vencs).Some? {
      AcquiredTook(x.w.vencs, VENC_MAX_CHN_NUM);
      var (id, ids) := Acquired(x.w.vencs).value;
      VencWithSound(x, id, ids, cfg);
    }
  }

  lemma VencAtSound(x: World, id: nat, cfg: VencConfig)
    requires Sound(x) && (cfg.clip.Some? ==> cfg.clip.value != [])
    ensures Sound(NewVencAt(x, id, cfg))
  {
    hide Sound, Partition, AcquiredSpecific, VencWith, Took;
    IdsArePartitions(x);
    if Sys in x.w.strong && AcquiredSpecific(x.w.vencs, id).Some? {
      SpecificTook(x.w.vencs, VENC_MAX_CHN_NUM, id);
      VencWithSound(x, id, AcquiredSpecific(x.w.vencs, id).value, cfg);
    }
  }

  lemma VencIsThere(x: World, v: int)
    requires Sound(x) && VencChannel(v) in x.w.strong
    ensures v in x.s.vencs && 0 <= v < VENC_MAX_CHN_NUM
  {
    TableAt(x, OfVencs);
    VencsInView(x.s);
    hide Sound, Partition, ViewOf;
  }

  lemma StartVencSound(x: World, i: nat)
    requires Sound(x)
    ensures Sound(StartVencChannel(x, i))
  {
    hide Sound, Agree, Invariants.Inv, ViewOf, StartVenc, Flow.Good, InDropOrder, NeedsAlive;
    var h := Fields(x, i);
    if h != [] && h[0].VencChannel? && h[0] !in x.w.on {
      var v := h[0].id;
      FieldsAlive(x, i);
      SoundParts(x);
      LiveNeedsSys(x, h[0]);
      VencIsThere(x, v);
      SwitchVencView(x.s, v);
      StartVencKeepsInv(x.s, v);
      SwitchVenc(x.w.strong.Keys, x.w, ViewOf(x.s), v);
      StaysSound(x, x.w.(on := x.w.on + {h[0]}), StartVenc(x.s, v).0);
    }
  }

  lemma LiveNeedsSys(x: World, r: Ref)
    requires Sound(x) && r in x.w.strong && r != Sys && NeedsAlive(x.w.strong.Keys)
    ensures Sys in x.w.strong && x.s.initialized
  {
    hide Sound, Agree, Invariants.Inv, Flow.Good;
    assert Sys in Needs(r);
    hide NeedsAlive;
    SoundParts(x);
  }

  lemma EncoderIsAlive(x: World, i: nat)
    requires Sound(x) && EncoderOf(Fields(x, i)).Some?
    ensures VencChannel(EncoderOf(Fields(x, i)).value) in x.w.strong && Sys in x.w.strong
  {
    hide Sound, InDropOrder, NeedsAlive;
    var h := Fields(x, i);
    FieldsAlive(x, i);
    var r := if h[0].VencChannel? then h[0] else h[1];
    assert r in SetOf(h);
    LiveNeedsSys(x, r);
  }

  lemma StreamSound(x: World, i: nat, mb: Handle, now: nat)
    requires Sound(x) && Ready(x.s) && PacksNext(x, i) && mb !in x.s.blocks
    ensures Sound(NewStream(x, i, mb, now))
  {
    hide Sound, Agree, Invariants.Inv, ViewOf, AddHandle, Flow.GetStream, Flow.Good, Flow.Packs, Flow.VencEnds, Rings.Unchained,
         NeedsAlive, EncoderOf;
    match EncoderOf(Fields(x, i))
    case None =>
    case Some(v) =>
      Rings.NoChainEnds(x.s, v);
      EncoderIsAlive(x, i);
      SoundParts(x);
      GetStreamView(x.s, now, v, mb);
      StreamKeepsInv(x.s, now, v, mb);
      var (t, r) := Flow.GetStream(x.s, now, v, mb);
      if r.Ok? {
        StreamAdded(x, t, v, mb);
      } else {
        SameView(x, t);
      }
  }

  lemma TwoAlive(live: set<Ref>, h: seq<Ref>)
    requires |h| == 2 && h[0] in live && h[1] in live
    ensures SetOf(h) <= live
  {
  }

  lemma StreamAdded(x: World, t: State, v: int, mb: Handle)
    requires Sound(x) && VencChannel(v) in x.w.strong && Sys in x.w.strong && mb !in x.s.blocks && v in ViewOf(x.s).outstanding
    requires ViewOf(t) == ViewOf(x.s).(blocks := ViewOf(x.s).blocks[mb := None],
                                       outstanding := ViewOf(x.s).outstanding[v := ViewOf(x.s).outstanding[v] + 1])
    requires Invariants.Inv(t)
    ensures Sound(World(AddHandle(x.w, [Stream(mb, v), VencChannel(v), Sys]), t))
  {
    var r := Stream(mb, v);
    var h := [VencChannel(v), Sys];
    hide *;
    StreamNeeds(mb, v);
    SoundParts(x);
    BlocksInView(x.s);
    JoinStream(x.w.strong.Keys, x.w, ViewOf(x.s), mb, v);
    HoldsSys(x, VencChannel(v));
    TwoAlive(x.w.strong.Keys, h);
    assert [r] + h == [r, VencChannel(v), Sys];
    ConsAdded(x, x.w, t, r, h);
  }
}
