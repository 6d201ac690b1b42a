/** Whatever is created, used and dropped, in any order: every teardown is clean. */
module Lifetimes {
  import opened Bytes
  import opened Drops
  import opened Images
  import opened Joins
  import opened Mpi
  import opened Owned
  import opened OwnedSound
  import opened References
  import opened Resources
  import opened Teardown
  import opened Views
  import Flow
  import Invariants
  import M = Machine
  import Rings

  // ---------------------------------------------------------------- groups

  /** A group is created with a fresh identifier, so the library takes it. */
  lemma GroupSound(x: World, format: PixelFormat)
    requires Sound(x) && Supported(format)
    ensures Sound(NewGroup(x, format))
    ensures Sys in x.w.strong && Acquired(x.w.groups).Some? ==>
      CreateGrp(x.s, Acquired(x.w.groups).value.0, format).1 == Success
  {
    hide Sound, Agree, Invariants.Inv, ViewOf, AddHandle, CreateGrp, Acquired, Took, Flow.Good, NeedsAlive, Partition, NewIds, Freed;
    if Sys in x.w.strong && Acquired(x.w.groups).Some? {
      var (g, ids) := Acquired(x.w.groups).value;
      SoundParts(x);
      IdsArePartitions(x);
      AcquiredTook(x.w.groups, VPSS_MAX_GRP_NUM);
      TookBelow(x.w.groups, ids, VPSS_MAX_GRP_NUM, g);
      JoinGroup(x.w.strong.Keys, x.w, ViewOf(x.s), g, ids);
      VencsInView(x.s);
      CreateGrpView(x.s, g, format);
      GroupCallsKeepInv(x.s, g, format, false);
      HoldsSys(x, Group(g));
      AddsHandle(x, x.w.(groups := ids, channels := x.w.channels[g := NewIds(VPSS_MAX_CHN_NUM)]), CreateGrp(x.s, g, format).0,
                 [Group(g), Sys]);
    }
  }

  lemma TookBelow(was: Ids, ids: Ids, capacity: nat, id: nat)
    requires Took(was, ids, capacity, id)
    ensures id < capacity
  {
    hide Partition;
  }

  /** What is known of a group that is alive. */
  lemma GroupIsThere(x: World, g: int)
    requires Sound(x) && Group(g) in x.w.strong
    ensures g in x.s.grps && 0 <= g < VPSS_MAX_GRP_NUM && (x.s.grps[g].started <==> Group(g) in x.w.on)
    ensures g in ViewOf(x.s).groups && g in x.w.channels && Partition(x.w.channels[g], VPSS_MAX_CHN_NUM)
  {
    hide Sound, Partition, VencsAgree, CamsAgree, VisAgree, BindsAgree, PoolsAgree, BlocksAgree, StreamsAgree, SysAgrees,
         OutstandingView, ChnsView, CamsView, VisView, BlocksView, VencsView;
    TableAt(x, OfGroups);
    TableAt(x, OfChns);
  }

  lemma StartGroupSound(x: World, i: nat)
    requires Sound(x)
    ensures Sound(StartGroup(x, i))
  {
    hide Sound, Agree, Invariants.Inv, ViewOf, SetStarted, Flow.Good, InDropOrder, NeedsAlive, Partition;
    var h := Fields(x, i);
    if h != [] && h[0].Group? && h[0] !in x.w.on {
      var g := h[0].id;
      FieldsAlive(x, i);
      SoundParts(x);
      LiveNeedsSys(x, h[0]);
      GroupIsThere(x, g);
      StartGrpView(x.s, g, true);
      GroupCallsKeepInv(x.s, g, Nv12, true);
      SwitchGroup(x.w.strong.Keys, x.w, ViewOf(x.s), g);
      StaysSound(x, x.w.(on := x.w.on + {h[0]}), SetStarted(x.s, g, true).0);
    }
  }

  lemma VpssChannelSound(x: World, i: nat, attr: VpssChn)
    requires Sound(x)
    ensures Sound(NewVpssChannel(x, i, attr))
  {
    hide Sound, Agree, Invariants.Inv, ViewOf, AddHandle, SetVpssChnAttr, Acquired, Took, Flow.Good, InDropOrder, NeedsAlive,
         Partition, Freed;
    var h := Fields(x, i);
    if h != [] && h[0].Group? && h[0].id in x.w.channels && Acquired(x.w.channels[h[0].id]).Some? {
      var g := h[0].id;
      var (c, ids) := Acquired(x.w.channels[g]).value;
      FieldsAlive(x, i);
      SoundParts(x);
      GroupIsThere(x, g);
      AcquiredTook(x.w.channels[g], VPSS_MAX_CHN_NUM);
      JoinVpssChannel(x.w.strong.Keys, x.w, ViewOf(x.s), g, c, ids);
      SetVpssChnAttrView(x.s, g, c, attr);
      VpssCallsKeepInv(x.s, g, c, attr);
      var (t, code) := SetVpssChnAttr(x.s, g, c, attr);
      if code == Success {
        VpssChannelNeeds(h, c);
        ConsAdded(x, x.w.(channels := x.w.channels[g := ids]), t, VpssChannel(g, c), h);
      } else {
        StaysSound(x, x.w.(channels := x.w.channels[g := Freed(ids, c)]), t);
      }
    }
  }

  lemma VpssChannelNeeds(h: seq<Ref>, c: int)
    requires InDropOrder(h) && h != [] && h[0].Group?
    ensures forall n :: n in Needs(VpssChannel(h[0].id, c)) ==> n in h
  {
    FirstNeeds(h);
    assert Sys in Needs(h[0]);
  }

  lemma VpssChannelIsThere(x: World, g: int, c: int)
    requires Sound(x) && VpssChannel(g, c) in x.w.strong
    ensures 0 <= c < VPSS_MAX_CHN_NUM && 0 <= g < VPSS_MAX_GRP_NUM
    ensures (g, c) in ChnsView(x.s.grps) && (ChnsView(x.s.grps)[(g, c)] <==> VpssChannel(g, c) in x.w.on)
  {
    hide Sound, Partition, VencsAgree, CamsAgree, VisAgree, BindsAgree, PoolsAgree, BlocksAgree, StreamsAgree, SysAgrees,
         OutstandingView, ChnsView, CamsView, VisView, BlocksView, VencsView;
    TableAt(x, OfGroups);
    TableAt(x, OfChns);
  }

  lemma SwitchVpssSound(x: World, i: nat, on: bool)
    requires Sound(x)
    ensures Sound(SwitchVpssChannel(x, i, on))
  {
    hide Sound, Agree, Invariants.Inv, ViewOf, EnableVpssChn, DisableVpssChn, Flow.Good, InDropOrder, NeedsAlive, ChnsView;
    var h := Fields(x, i);
    if h != [] && h[0].VpssChannel? && (h[0] in x.w.on) != on {
      var g, c := h[0].grp, h[0].chn;
      FieldsAlive(x, i);
      SoundParts(x);
      LiveNeedsSys(x, h[0]);
      VpssChannelIsThere(x, g, c);
      SwitchVpssChnView(x.s, g, c);
      VpssCallsKeepInv(x.s, g, c, VpssChn(1, 1, Nv12, false, false, 0, false, 0, []));
      SwitchVpss(x.w.strong.Keys, x.w, ViewOf(x.s), g, c, on);
      StaysSound(x, x.w.(on := if on then x.w.on + {h[0]} else x.w.on - {h[0]}),
                 if on then EnableVpssChn(x.s, g, c).0 else DisableVpssChn(x.s, g, c).0);
    }
  }

  lemma VpssFrameSound(x: World, i: nat, mb: Handle, now: nat)
    requires Sound(x) && Ready(x.s) && mb !in x.s.blocks
    ensures Sound(NewVpssFrame(x, i, mb, now))
  {
    hide Sound, Agree, Invariants.Inv, ViewOf, AddHandle, Flow.GetVpssFrame, Flow.Good, Flow.Ends, Rings.Unchained, InDropOrder,
         NeedsAlive;
    var h := Fields(x, i);
    Rings.NoChainEnds(x.s, 0);
    if h != [] && h[0].VpssChannel? {
      GetVpssFrameView(x.s, now, h[0].grp, h[0].chn, mb);
      SoundParts(x);
      VpssFrameKeepsInv(x.s, now, h[0].grp, h[0].chn, mb);
      var (t, r) := Flow.GetVpssFrame(x.s, now, h[0].grp, h[0].chn, mb);
      if r.Ok? {
        FieldsAlive(x, i);
        FrameAdded(x, t, h, mb);
      } else {
        SameView(x, t);
      }
    }
  }

  // ---------------------------------------------------------------- binds

  lemma BindingNeeds(h: seq<Ref>, k: seq<Ref>)
    requires InDropOrder(k) && k != [] && h != [] && MayFeed(k[0], h[0])
    ensures Wired(EndOf(k[0]), EndOf(h[0])) && Dst(EndOf(h[0])) == EndOf(h[0])
    ensures InDropOrder([h[0]] + k) && SetOf([h[0]] + k) == {h[0]} + SetOf(k)
    ensures forall n :: n in Needs(Binding(EndOf(k[0]), EndOf(h[0]))) ==> n in [h[0]] + k
  {
    FirstNeeds(k);
    assert Sys in Needs(k[0]) && Sys in k;
    ConsOrder(h[0], k);
    assert EndsMatch(k[0], h[0]);
  }

  /** A bind needs exactly its source, its sink and the system. */
  predicate EndsMatch(source: Ref, sink: Ref) {
    Needs(Binding(EndOf(source), EndOf(sink))) == {source, sink, Sys}
  }

  lemma BindSound(x: World, i: nat, j: nat)
    requires Sound(x)
    ensures Sound(NewBind(x, i, j))
  {
    hide Sound, Agree, Invariants.Inv, ViewOf, AddHandle, Bind, Flow.Good, InDropOrder, NeedsAlive, EndOf, Needs, Wired, MayFeed;
    var (h, k) := (Fields(x, i), Fields(x, j));
    if h != [] && k != [] && MayFeed(k[0], h[0]) {
      var (src, dst) := (EndOf(k[0]), EndOf(h[0]));
      FieldsAlive(x, i);
      FieldsAlive(x, j);
      SoundParts(x);
      BindingNeeds(h, k);
      BindView(x.s, src, dst);
      BindKeepsInv(x.s, src, dst);
      BindsInView(x.s);
      var (t, code) := Bind(x.s, src, dst);
      if code == Success {
        JoinBinding(x.w.strong.Keys, x.w, ViewOf(x.s), src, dst);
        BindAdded(x, t, src, dst, h, k);
      } else {
        SameView(x, t);
      }
    }
  }

  lemma BindAdded(x: World, t: State, src: Chn, dst: Chn, h: seq<Ref>, k: seq<Ref>)
    requires Sound(x) && h != [] && h[0] in x.w.strong && SetOf(k) <= x.w.strong.Keys
    requires InDropOrder([h[0]] + k) && SetOf([h[0]] + k) == {h[0]} + SetOf(k)
    requires forall n :: n in Needs(Binding(src, dst)) ==> n in [h[0]] + k
    requires Agree(x.w.strong.Keys + {Binding(src, dst)}, x.w, ViewOf(t)) && Invariants.Inv(t)
    ensures Sound(World(AddHandle(x.w, [Binding(src, dst), h[0]] + k), t))
  {
    hide *;
    ConsAdded(x, x.w, t, Binding(src, dst), [h[0]] + k);
    assert [Binding(src, dst)] + ([h[0]] + k) == [Binding(src, dst), h[0]] + k;
  }

  // ---------------------------------------------------------------- memory

  lemma PoolSound(x: World, size: nat)
    requires Sound(x)
    ensures Sound(NewPool(x, size))
  {
    hide Sound, Agree, Invariants.Inv, ViewOf, AddHandle, CreatePool, Flow.Good, NeedsAlive;
    if Sys in x.w.strong {
      SoundParts(x);
      CreatePoolView(x.s, size, 1);
      MemoryCallsKeepInv(x.s, size, 0, 0);
      var (t, id) := CreatePool(x.s, size, 1);
      if id.Some? {
        JoinPool(x.w.strong.Keys, x.w, ViewOf(x.s), id.value);
        HoldsSys(x, MemPool(id.value));
        AddsHandle(x, x.w, t, [MemPool(id.value), Sys]);
      } else {
        SameView(x, t);
      }
    }
  }

  lemma BufferNeeds(h: seq<Ref>, mb: Handle)
    requires InDropOrder(h) && h != [] && h[0].MemPool?
    ensures forall n :: n in Needs(Buffer(mb, h[0].pool)) ==> n in h
    ensures OwnedBlock(Buffer(mb, h[0].pool)) == Some(mb) && OwnedPool(Buffer(mb, h[0].pool)) == Some(h[0].pool)
  {
    FirstNeeds(h);
    assert Sys in Needs(h[0]);
  }

  lemma BufferSound(x: World, i: nat, size: nat, mb: Handle)
    requires Sound(x) && mb !in x.s.blocks
    ensures Sound(NewBuffer(x, i, size, mb))
  {
    hide Sound, Agree, Invariants.Inv, ViewOf, AddHandle, GetMB, Flow.Good, InDropOrder, NeedsAlive;
    var h := Fields(x, i);
    if h != [] && h[0].MemPool? {
      var pool := h[0].pool;
      FieldsAlive(x, i);
      SoundParts(x);
      GetMBView(x.s, pool, size, mb);
      MemoryCallsKeepInv(x.s, 0, pool, mb);
      MemoryCallsKeepInv(x.s, size, pool, mb);
      BlocksInView(x.s);
      var (t, ok) := GetMB(x.s, pool, size, mb);
      if ok {
        BufferNeeds(h, mb);
        JoinBlock(x.w.strong.Keys, x.w, ViewOf(x.s), Buffer(mb, pool), mb);
        ConsAdded(x, x.w, t, Buffer(mb, pool), h);
      } else {
        SameView(x, t);
      }
    }
  }

  lemma WriteSound(x: World, i: nat, data: seq<byte>)
    requires Sound(x)
    ensures Sound(WriteBuffer(x, i, data))
  {
    hide Sound, Invariants.Inv, ViewOf, WriteBlock, Agree, Flow.Good;
    if WriteBuffer(x, i, data) != x {
      var mb := Fields(x, i)[0].mb;
      SoundParts(x);
      WriteView(x.s, mb, data);
      WriteKeepsInv(x.s, mb, data);
      SameView(x, WriteBlock(x.s, mb, data));
    }
  }

  lemma SendSound(x: World, now: nat, k: int, f: Mpi.VideoFrame)
    requires Sound(x) && Flow.Good(x.s)
    ensures Flow.Scalable(x.s, now, k, f) ==> Sound(World(x.w, Flow.SendVpss(x.s, now, k, f).0))
    ensures Sound(World(x.w, SendVenc(x.s, now, k, f).0))
  {
    hide *;
    SoundParts(x);
    Views.SendVencView(x.s, now, k, f);
    SendsKeepInv(x.s, now, k, f);
    if Flow.Scalable(x.s, now, k, f) {
      Views.SendVpssView(x.s, now, k, f);
      SameView(x, Flow.SendVpss(x.s, now, k, f).0);
    }
    SameView(x, SendVenc(x.s, now, k, f).0);
  }

  // ---------------------------------------------------------------- any call

  lemma HasFields(x: World, i: nat)
    requires Fields(x, i) != []
    ensures i < |x.w.handles| && x.w.handles[i] == Fields(x, i)
  {
  }

  /** Calls that use what is there and create no handle. */
  predicate Uses(c: Call) {
    c.DoStartVenc? || c.DoStartGroup? || c.DoSwitch? || c.DoWrite? || c.DoSendToGroup? || c.DoSendToVenc? || c.DoDrop?
  }

  lemma UseIsClean(x: World, c: Call, now: nat)
    requires Sound(x) && Possible(x, c, now) && Uses(c)
    ensures var (y, codes) := Apply(x, c, now); Sound(y) && AllSucceed(codes)
  {
    hide Sound, AllSucceed, Flow.Good, Rings.Unchained, PacksNext, Flow.Scalable, InitMpi, Share, NewCamera,
         NewViChannel, NewViFrame, NewVenc, NewVencAt, StartVencChannel, NewStream, NewGroup, StartGroup,
         NewVpssChannel, SwitchVpssChannel, NewVpssFrame, NewBind, NewPool, NewBuffer, WriteBuffer, Flow.SendVpss, SendVenc, DropField;
    NoCodes();
    match c
    case DoStartVenc(i) => StartVencSound(x, i);
    case DoStartGroup(i) => StartGroupSound(x, i);
    case DoSwitch(i, on) => SwitchVpssSound(x, i, on);
    case DoWrite(i, data) => WriteSound(x, i, data);
    case DoSendToGroup(i, f) => SendToSound(x, i, now, f);
    case DoSendToVenc(i, f) => SendToSound(x, i, now, f);
    case DoDrop(i) =>
      if Fields(x, i) != [] {
        HasFields(x, i);
        DropFieldIsClean(x, i, now);
      }
  }

  lemma SendToSound(x: World, i: nat, now: nat, f: Mpi.VideoFrame)
    requires Sound(x) && Flow.Good(x.s)
    ensures var h := Fields(x, i);
            && (h != [] && h[0].Group? && Flow.Scalable(x.s, now, h[0].id, f) ==>
                  Sound(World(x.w, Flow.SendVpss(x.s, now, h[0].id, f).0)))
            && (h != [] && h[0].VencChannel? ==> Sound(World(x.w, SendVenc(x.s, now, h[0].id, f).0)))
  {
    hide Sound, Flow.Good, Flow.Scalable, Flow.SendVpss, SendVenc;
    var h := Fields(x, i);
    if h != [] && (h[0].Group? || h[0].VencChannel?) {
      SendSound(x, now, h[0].id, f);
    }
  }

  lemma CreationIsSound(x: World, c: Call, now: nat)
    requires Sound(x) && Possible(x, c, now) && !Uses(c)
    ensures Sound(Apply(x, c, now).0) && Apply(x, c, now).1 == []
  {
    hide Sound, Flow.Good, Rings.Unchained, PacksNext, Flow.Scalable, InitMpi, Share, NewCamera, NewViChannel,
         NewViFrame, NewVenc, NewVencAt, StartVencChannel, NewStream, NewGroup, StartGroup, NewVpssChannel,
         SwitchVpssChannel, NewVpssFrame, NewBind, NewPool, NewBuffer, WriteBuffer, Flow.SendVpss, SendVenc, DropField;
    match c
    case DoInit => InitSound(x);
    case DoShare(i, from) => ShareSound(x, i, from);
    case DoCamera(id) => CameraSound(x, id);
    case DoViChannel(i, chn, width, height) => ViChannelSound(x, i, chn, width, height);
    case DoViFrame(i, mb) => ViFrameSound(x, i, mb, now);
    case DoVenc(cfg) => VencSound(x, cfg);
    case DoVencAt(id, cfg) => VencAtSound(x, id, cfg);
    case DoStream(i, mb) => StreamSound(x, i, mb, now);
    case DoGroup(format) => GroupSound(x, format);
    case DoVpssChannel(i, attr) => VpssChannelSound(x, i, attr);
    case DoVpssFrame(i, mb) => VpssFrameSound(x, i, mb, now);
    case DoBind(i, j) => BindSound(x, i, j);
    case DoPool(size) => PoolSound(x, size);
    case DoBuffer(i, size, mb) => BufferSound(x, i, size, mb);
  }

  /** Every call keeps the world sound, and what a drop says to the library is accepted. */
  lemma CallIsClean(x: World, c: Call, now: nat)
    requires Sound(x)
    ensures var (y, codes) := Next(x, c, now); Sound(y) && AllSucceed(codes)
  {
    hide Sound, Possible, AllSucceed, Apply;
    NoCodes();
    if Possible(x, c, now) {
      if Uses(c) {
        UseIsClean(x, c, now);
      } else {
        CreationIsSound(x, c, now);
      }
    }
  }

  lemma NoCodes()
    ensures AllSucceed([])
  {
  }

  lemma SoundIsReady(x: World)
    requires Sound(x)
    ensures Ready(x.s)
  {
    hide *;
    SoundParts(x);
    DemandEnds(x);
    ReadyFrom(x.s);
  }

  lemma ReadyFrom(s: State)
    requires Flow.Good(s) && Rings.Unchained(s.binds)
    ensures Ready(s)
  {
    hide Flow.Good, Rings.Unchained;
  }

  // ---------------------------------------------------------------- runs

  /** The world before anything has happened. */
  function Begin(now: nat, fps: nat): World {
    World(Wrapper(false, NewIds(VI_MAX_DEV_NUM), NewIds(VENC_MAX_CHN_NUM), NewIds(VPSS_MAX_GRP_NUM), map[], {}, map[], []),
          Fresh(now, fps))
  }

  /** A run of calls, each at its time: the world at the end, and all that drops have said. */
  ghost function Run(x: World, calls: seq<(Call, nat)>): (World, seq<Code>) {
    if calls == [] then (x, []) else
    var n := |calls| - 1;
    var (y, codes) := Run(x, calls[..n]);
    var (z, more) := Next(y, calls[n].0, calls[n].1);
    (z, codes + more)
  }

  lemma {:induction false} RunIsClean(x: World, calls: seq<(Call, nat)>)
    requires Sound(x)
    ensures var (y, codes) := Run(x, calls); Sound(y) && AllSucceed(codes)
    decreases |calls|
  {
    hide Sound, Next;
    if calls != [] {
      var n := |calls| - 1;
      RunIsClean(x, calls[..n]);
      CallIsClean(Run(x, calls[..n]).0, calls[n].0, calls[n].1);
    }
  }

  lemma VencsAtStart(ids: Ids)
    requires ids == NewIds(VENC_MAX_CHN_NUM)
    ensures VencsAgree({}, {}, ids, map[])
  {
    NewIsPartition(VENC_MAX_CHN_NUM);
    hide Partition, NewIds;
  }

  lemma GroupsAtStart(ids: Ids)
    requires ids == NewIds(VPSS_MAX_GRP_NUM)
    ensures GroupsAgree({}, {}, ids, map[])
  {
    NewIsPartition(VPSS_MAX_GRP_NUM);
    hide Partition, NewIds;
  }

  lemma CamsAtStart(ids: Ids)
    requires ids == NewIds(VI_MAX_DEV_NUM)
    ensures CamsAgree({}, ids, map[])
  {
    NewIsPartition(VI_MAX_DEV_NUM);
    hide Partition, NewIds;
  }

  lemma BeginAgrees(w: Wrapper, v: View)
    requires NothingLeft(v) && !v.initialized && !w.mpiInit && w.on == {}
    requires VencsAgree({}, {}, w.vencs, map[]) && GroupsAgree({}, {}, w.groups, map[]) && CamsAgree({}, w.cameras, map[])
    ensures Agree({}, w, v)
  {
    hide VencsAgree, GroupsAgree, CamsAgree;
  }

  lemma FreshIsFine(now: nat, fps: nat)
    ensures Invariants.Inv(Fresh(now, fps))
    ensures NothingLeft(ViewOf(Fresh(now, fps))) && !ViewOf(Fresh(now, fps)).initialized
  {
    Invariants.InvAlways(now, fps, []);
    EmptyView(Fresh(now, fps));
    hide Invariants.Inv, Flow.Good, M.Next, ViewOf;
  }

  lemma NoHandles()
    ensures Counted([], map[]) && AllInDropOrder([])
  {
    assert Held([]) == multiset{};
  }

  lemma SoundFrom(x: World)
    requires Counted(x.w.handles, x.w.strong) && AllInDropOrder(x.w.handles)
    requires Agree(x.w.strong.Keys, x.w, ViewOf(x.s)) && Invariants.Inv(x.s)
    ensures Sound(x)
  {
    hide Counted, AllInDropOrder, Agree, Invariants.Inv, ViewOf;
  }

  lemma BeginIsSound(now: nat, fps: nat)
    ensures Sound(Begin(now, fps))
  {
    var x := Begin(now, fps);
    hide Invariants.Inv, ViewOf, NewIds, VencsAgree, GroupsAgree, CamsAgree, Agree, Counted, AllInDropOrder, NothingLeft, Sound,
         Fresh;
    FreshIsFine(now, fps);
    NoHandles();
    VencsAtStart(x.w.vencs);
    GroupsAtStart(x.w.groups);
    CamsAtStart(x.w.cameras);
    BeginAgrees(x.w, ViewOf(x.s));
    assert x.w.strong.Keys == {};
    SoundFrom(x);
  }

  /** For every sequence of calls on owned handles, fields of handles being dropped at any
      time and in any order, every call that a `Drop` body makes to the library succeeds. */
  lemma AnyOrderIsClean(now: nat, fps: nat, calls: seq<(Call, nat)>)
    ensures var (y, codes) := Run(Begin(now, fps), calls); Sound(y) && AllSucceed(codes) && Ready(y.s)
  {
    hide *;
    BeginIsSound(now, fps);
    RunIsClean(Begin(now, fps), calls);
    SoundIsReady(Run(Begin(now, fps), calls).0);
  }

  /** The world that a sequence of calls leads to. */
  ghost function Reached(now: nat, fps: nat, calls: seq<(Call, nat)>): World {
    Run(Begin(now, fps), calls).0
  }

  /** `drop` of a whole handle: field by field. */
  ghost function DropHandle(x: World, i: nat, now: nat): (World, seq<Code>)
    decreases |Fields(x, i)|
  {
    var h := Fields(x, i);
    if h == [] || h[0] !in x.w.strong then (x, []) else
    var (y, codes) := DropField(x, i, now);
    var (z, more) := DropHandle(y, i, now);
    (z, codes + more)
  }

  lemma {:induction false} DropHandleIsClean(x: World, i: nat, now: nat)
    requires Sound(x) && i < |x.w.handles|
    ensures var (y, codes) := DropHandle(x, i, now);
            Sound(y) && AllSucceed(codes) && y.w.handles == x.w.handles[i := []]
    decreases |x.w.handles[i]|
  {
    hide Sound, DropField, NothingLeft, ViewOf;
    if x.w.handles[i] == [] {
      EmptyHandle(x, i);
    } else {
      DropFieldIsClean(x, i, now);
      DropHandleIsClean(DropField(x, i, now).0, i, now);
    }
  }

  lemma EmptyHandle(x: World, i: nat)
    requires i < |x.w.handles| && x.w.handles[i] == []
    ensures x.w.handles == x.w.handles[i := []]
  {
  }

  ghost predicate AllGone(x: World) {
    forall i :: 0 <= i < |x.w.handles| ==> x.w.handles[i] == []
  }

  /** Wherever calls lead: the library is initialized exactly as long as any field of any
      handle is left. Once the last is gone it has exited, with nothing left in it. */
  lemma LastHandleGone(now: nat, fps: nat, calls: seq<(Call, nat)>)
    ensures var x := Reached(now, fps, calls);
            && (AllGone(x) <==> !x.s.initialized)
            && (AllGone(x) ==> x.w.strong == map[] && !x.w.mpiInit && NothingLeft(ViewOf(x.s)))
  {
    AnyOrderIsClean(now, fps, calls);
    hide Sound, Run, AllSucceed, NothingLeft, ViewOf, Ready, Reached;
    assert Sound(Reached(now, fps, calls)) by { ReachedIs(now, fps, calls); }
    var x := Reached(now, fps, calls);
    if AllGone(x) {
      NoneIsLeft(x);
    } else {
      var i :| 0 <= i < |x.w.handles| && x.w.handles[i] != [];
      StillInitialized(x, i);
    }
  }

  lemma ReachedIs(now: nat, fps: nat, calls: seq<(Call, nat)>)
    ensures Reached(now, fps, calls) == Run(Begin(now, fps), calls).0
  {
    hide Run, Begin;
  }

  lemma StillInitialized(x: World, i: nat)
    requires Sound(x) && i < |x.w.handles| && x.w.handles[i] != []
    ensures x.s.initialized
  {
    hide *;
    SoundParts(x);
    FirstIsHeld(x, i);
    if x.w.handles[i][0] != Sys {
      LiveNeedsSys(x, x.w.handles[i][0]);
    }
  }

  lemma FirstIsHeld(x: World, i: nat)
    requires Sound(x) && i < |x.w.handles| && x.w.handles[i] != []
    ensures x.w.handles[i][0] in x.w.strong
  {
    hide Agree, Invariants.Inv, AllInDropOrder;
    HeldIsCounted(x.w.handles, x.w.strong, i, x.w.handles[i][0]);
  }

  lemma NoneIsLeft(x: World)
    requires Sound(x) && forall i :: 0 <= i < |x.w.handles| ==> x.w.handles[i] == []
    ensures x.w.strong == map[] && !x.s.initialized && !x.w.mpiInit && NothingLeft(ViewOf(x.s))
  {
    AllEmpty(x.w.handles);
    assert x.w.strong == map[] by { hide Agree, Invariants.Inv; assert Held(x.w.handles) == multiset{}; }
    SoundParts(x);
    assert x.w.strong.Keys == {};
    hide Sound, Agree, ViewOf, NothingLeft, Invariants.Inv;
    NothingNative({}, x.w, ViewOf(x.s));
  }

  lemma {:induction false} AllEmpty(handles: seq<seq<Ref>>)
    requires forall i :: 0 <= i < |handles| ==> handles[i] == []
    ensures Bytes.Flat(handles) == []
  {
    if handles != [] {
      AllEmpty(handles[1..]);
    }
  }

  // ---------------------------------------------------------------- between any two calls

  lemma VencIdsAgree(live: set<Ref>, w: Wrapper, s: State)
    requires VencsAgree(live, w.on, w.vencs, ViewOf(s).vencs)
    ensures Partition(w.vencs, VENC_MAX_CHN_NUM) && forall k: nat :: k in w.vencs.busy <==> k in s.vencs
  {
    hide Partition;
    VencsInView(s);
  }

  lemma GroupIdsAgree(live: set<Ref>, w: Wrapper, s: State)
    requires GroupsAgree(live, w.on, w.groups, ViewOf(s).groups)
    ensures Partition(w.groups, VPSS_MAX_GRP_NUM) && forall k: nat :: k in w.groups.busy <==> k in s.grps
  {
    hide Partition;
    VencsInView(s);
  }

  lemma CameraIdsAgree(live: set<Ref>, w: Wrapper, s: State)
    requires CamsAgree(live, w.cameras, ViewOf(s).cams)
    ensures Partition(w.cameras, VI_MAX_DEV_NUM)
    ensures forall k: nat :: k in w.cameras.busy <==> k in s.viDevs && s.viDevs[k].enabled
  {
    hide Partition;
  }

  lemma Capacities()
    ensures VENC_MAX_CHN_NUM == 64 && VPSS_MAX_GRP_NUM == 256 && VI_MAX_DEV_NUM == 3
  {
  }

  lemma IdTables(x: World)
    requires Sound(x)
    ensures VencsAgree(x.w.strong.Keys, x.w.on, x.w.vencs, ViewOf(x.s).vencs)
    ensures GroupsAgree(x.w.strong.Keys, x.w.on, x.w.groups, ViewOf(x.s).groups)
    ensures CamsAgree(x.w.strong.Keys, x.w.cameras, ViewOf(x.s).cams)
  {
    hide Sound, Partition, ViewOf, SysAgrees, VencsAgree, GroupsAgree, ChnsAgree, CamsAgree, VisAgree, BindsAgree, PoolsAgree,
         BlocksAgree, StreamsAgree;
    TableAt(x, OfVencs);
    TableAt(x, OfGroups);
    TableAt(x, OfCams);
  }

  /** Wherever calls lead, the wrapper's allocators say what the library's tables say: free
      and busy identifiers are all there are, an encoder channel or a group exists exactly if
      its identifier is busy, and a device is enabled exactly if its camera is. */
  lemma AllocatorsAgree(now: nat, fps: nat, calls: seq<(Call, nat)>)
    ensures var x := Reached(now, fps, calls);
            && Partition(x.w.vencs, 64) && Partition(x.w.groups, 256) && Partition(x.w.cameras, 3)
            && (forall k: nat :: k in x.w.vencs.busy <==> k in x.s.vencs)
            && (forall k: nat :: k in x.w.groups.busy <==> k in x.s.grps)
            && (forall k: nat :: k in x.w.cameras.busy <==> k in x.s.viDevs && x.s.viDevs[k].enabled)
  {
    hide *;
    AnyOrderIsClean(now, fps, calls);
    ReachedIs(now, fps, calls);
    var x := Reached(now, fps, calls);
    IdTables(x);
    Capacities();
    VencIdsAgree(x.w.strong.Keys, x.w, x.s);
    GroupIdsAgree(x.w.strong.Keys, x.w, x.s);
    CameraIdsAgree(x.w.strong.Keys, x.w, x.s);
  }

  /** Wherever calls lead, a channel's count of outstanding packets is that of its streams
      that are still held. */
  lemma OutstandingIsLive(now: nat, fps: nat, calls: seq<(Call, nat)>, v: int)
    requires v in Reached(now, fps, calls).s.vencs
    ensures var x := Reached(now, fps, calls); x.s.vencs[v].outstanding == |StreamsOf(x.w.strong.Keys, v)|
  {
    hide Sound, StreamsOf, ViewOf, Run, Begin, Reached, AllSucceed, Ready;
    AnyOrderIsClean(now, fps, calls);
    ReachedIs(now, fps, calls);
    var x := Reached(now, fps, calls);
    StreamTable(x);
    OutstandingInView(x.s, v);
  }

  lemma StreamTable(x: World)
    requires Sound(x)
    ensures StreamsAgree(x.w.strong.Keys, ViewOf(x.s).outstanding)
  {
    hide Sound, Partition, ViewOf, SysAgrees, VencsAgree, GroupsAgree, ChnsAgree, CamsAgree, VisAgree, BindsAgree, PoolsAgree,
         BlocksAgree, StreamsAgree;
    TableAt(x, OfStreams);
  }

  lemma OutstandingInView(s: State, v: int)
    requires v in s.vencs
    ensures v in ViewOf(s).outstanding && ViewOf(s).outstanding[v] == s.vencs[v].outstanding
  {
    hide VencsView, GroupsView, ChnsView, CamsView, VisView, BlocksView;
  }
}
