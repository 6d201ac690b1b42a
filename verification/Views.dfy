/** What the wrapper's objects can tell of the library's state, and how calls change it. */
module Views {
  import opened AccessUnits
  import opened Bytes
  import opened Images
  import opened Mpi
  import Strides
  import opened Flow
  import opened FlowLaws

  /** Which native objects there are and how they are switched; no frames, no counters. */
  datatype View = View(
    initialized: bool,
    vencs: map<int, bool>,
    outstanding: map<int, nat>,
    groups: map<int, bool>,
    chns: map<(int, int), bool>,
    cams: map<int, Option<seq<int>>>,
    vis: set<(int, int)>,
    binds: map<Chn, Chn>,
    pools: set<nat>,
    blocks: map<Handle, Option<nat>>)

  function VencsView(vencs: map<int, VencChn>): map<int, bool> {
    map v | v in vencs :: vencs[v].started
  }

  function OutstandingView(vencs: map<int, VencChn>): map<int, nat> {
    map v | v in vencs :: vencs[v].outstanding
  }

  function GroupsView(grps: map<int, VpssGrp>): map<int, bool> {
    map g | g in grps :: grps[g].started
  }

  ghost function ChnsView(grps: map<int, VpssGrp>): map<(int, int), bool> {
    map g, c | g in grps && c in grps[g].chns :: (g, c) := grps[g].chns[c].enabled
  }

  /** Enabled devices and their pipes. */
  function CamsView(viDevs: map<int, ViDev>): map<int, Option<seq<int>>> {
    map d | d in viDevs && viDevs[d].enabled :: viDevs[d].pipes
  }

  function VisView(viChns: map<(int, int), ViChn>): set<(int, int)> {
    set k | k in viChns && viChns[k].enabled
  }

  function BlocksView(blocks: map<Handle, Block>): map<Handle, Option<nat>> {
    map mb | mb in blocks :: blocks[mb].pool
  }

  ghost function ViewOf(s: State): View {
    View(s.initialized, VencsView(s.vencs), OutstandingView(s.vencs), GroupsView(s.grps), ChnsView(s.grps),
         CamsView(s.viDevs), VisView(s.viChns), s.binds, s.pools.Keys, BlocksView(s.blocks))
  }

  // ---------------------------------------------------------------- empty tables

  lemma NoVencsView()
    ensures VencsView(map[]) == map[]
  {}

  lemma NoOutstandingView()
    ensures OutstandingView(map[]) == map[]
  {}

  lemma NoGroupsView()
    ensures GroupsView(map[]) == map[]
  {}

  lemma NoChnsView()
    ensures ChnsView(map[]) == map[]
  {}

  lemma NoCamsView()
    ensures CamsView(map[]) == map[]
  {}

  lemma NoVisView()
    ensures VisView(map[]) == {}
  {}

  lemma NoBlocksView()
    ensures BlocksView(map[]) == map[]
  {}

  /** What is seen of a state with empty tables. */
  lemma EmptyView(s: State)
    requires s.vencs == map[] && s.grps == map[] && s.viDevs == map[] && s.viChns == map[] && s.blocks == map[]
    ensures ViewOf(s) == View(s.initialized, map[], map[], map[], map[], map[], {}, s.binds, s.pools.Keys, map[])
  {
    hide VencsView, OutstandingView, GroupsView, ChnsView, CamsView, VisView, BlocksView;
    NoVencsView();
    NoOutstandingView();
    NoGroupsView();
    NoChnsView();
    NoCamsView();
    NoVisView();
    NoBlocksView();
  }

  // ---------------------------------------------------------------- one entry of a table

  lemma SetVenc(vencs: map<int, VencChn>, v: int, c: VencChn)
    ensures VencsView(vencs[v := c]) == VencsView(vencs)[v := c.started]
    ensures OutstandingView(vencs[v := c]) == OutstandingView(vencs)[v := c.outstanding]
    ensures v in vencs ==> VencsView(vencs)[v := vencs[v].started] == VencsView(vencs)
    ensures v in vencs ==> OutstandingView(vencs)[v := vencs[v].outstanding] == OutstandingView(vencs)
  {
  }

  lemma DelVenc(vencs: map<int, VencChn>, v: int)
    ensures VencsView(vencs - {v}) == VencsView(vencs) - {v}
    ensures OutstandingView(vencs - {v}) == OutstandingView(vencs) - {v}
  {
  }

  lemma SetBlock(blocks: map<Handle, Block>, mb: Handle, b: Block)
    ensures BlocksView(blocks[mb := b]) == BlocksView(blocks)[mb := b.pool]
    ensures BlocksView(blocks - {mb}) == BlocksView(blocks) - {mb}
  {
  }

  lemma SetPool(pools: map<nat, Pool>, id: nat, p: Pool)
    ensures pools[id := p].Keys == pools.Keys + {id}
    ensures (pools - {id}).Keys == pools.Keys - {id}
  {
  }

  lemma SetDev(viDevs: map<int, ViDev>, d: int, dev: ViDev)
    ensures CamsView(viDevs[d := dev])
         == if dev.enabled then CamsView(viDevs)[d := dev.pipes] else CamsView(viDevs) - {d}
  {
  }

  lemma SetVi(viChns: map<(int, int), ViChn>, k: (int, int), c: ViChn)
    ensures VisView(viChns[k := c]) == if c.enabled then VisView(viChns) + {k} else VisView(viChns) - {k}
  {
  }

  /** A group that keeps the switches of its channels. */
  lemma SetGroup(grps: map<int, VpssGrp>, g: int, grp: VpssGrp)
    ensures GroupsView(grps[g := grp]) == GroupsView(grps)[g := grp.started]
    ensures g in grps ==> GroupsView(grps)[g] == grps[g].started
    ensures GroupsView(grps - {g}) == GroupsView(grps) - {g}
  {
  }

  lemma ChnsAt(grps: map<int, VpssGrp>, g: int, c: int)
    ensures (g, c) in ChnsView(grps) <==> g in grps && c in grps[g].chns
    ensures (g, c) in ChnsView(grps) ==> ChnsView(grps)[(g, c)] == grps[g].chns[c].enabled
  {
  }

  lemma SameChns(grps: map<int, VpssGrp>, g: int, grp: VpssGrp)
    requires if g in grps then grp.chns.Keys == grps[g].chns.Keys else grp.chns == map[]
    requires g in grps ==> forall c :: c in grp.chns ==> grp.chns[c].enabled == grps[g].chns[c].enabled
    ensures ChnsView(grps[g := grp]) == ChnsView(grps)
  {
    var (a, b) := (ChnsView(grps[g := grp]), ChnsView(grps));
    hide ChnsView;
    forall k: (int, int)
      ensures (k in a <==> k in b) && (k in a ==> a[k] == b[k])
    {
      ChnsAt(grps, k.0, k.1);
      ChnsAt(grps[g := grp], k.0, k.1);
      assert k == (k.0, k.1);
    }
  }

  lemma DelGroup(grps: map<int, VpssGrp>, g: int)
    ensures ChnsView(grps - {g}) == ChnsWithout(ChnsView(grps), g)
  {
    var (a, b) := (ChnsView(grps - {g}), ChnsWithout(ChnsView(grps), g));
    hide ChnsView;
    forall k: (int, int)
      ensures (k in a <==> k in b) && (k in a ==> a[k] == b[k])
    {
      ChnsAt(grps, k.0, k.1);
      ChnsAt(grps - {g}, k.0, k.1);
      assert k == (k.0, k.1);
    }
  }

  ghost function ChnsWithout(chns: map<(int, int), bool>, g: int): map<(int, int), bool> {
    map k | k in chns && k.0 != g :: chns[k]
  }

  lemma SetOneChn(grps: map<int, VpssGrp>, g: int, c: int, chn: VpssChn)
    requires g in grps
    ensures ChnsView(grps[g := grps[g].(chns := grps[g].chns[c := chn])]) == ChnsView(grps)[(g, c) := chn.enabled]
  {
    var t := grps[g := grps[g].(chns := grps[g].chns[c := chn])];
    var (a, b) := (ChnsView(t), ChnsView(grps)[(g, c) := chn.enabled]);
    hide ChnsView;
    forall k: (int, int)
      ensures (k in a <==> k in b) && (k in a ==> a[k] == b[k])
    {
      ChnsAt(grps, k.0, k.1);
      ChnsAt(t, k.0, k.1);
      assert k == (k.0, k.1);
    }
  }

  // ---------------------------------------------------------------- calls without frames

  lemma InitView(s: State)
    ensures ViewOf(Init(s).0) == ViewOf(s).(initialized := true)
  {
  }

  lemma BindView(s: State, src: Chn, dst: Chn)
    ensures var (t, code) := Bind(s, src, dst);
            && (code == Success <==> s.initialized && Dst(dst) !in s.binds)
            && ViewOf(t) == if code == Success then ViewOf(s).(binds := s.binds[Dst(dst) := src]) else ViewOf(s)
  {
  }

  lemma UnBindView(s: State, src: Chn, dst: Chn)
    requires Dst(dst) in s.binds && s.binds[Dst(dst)] == src
    ensures UnBind(s, src, dst).1 == Success
    ensures ViewOf(UnBind(s, src, dst).0) == ViewOf(s).(binds := s.binds - {Dst(dst)})
  {
  }

  lemma CreatePoolView(s: State, size: nat, count: nat)
    ensures var (t, id) := CreatePool(s, size, count);
            && (id.Some? ==> s.initialized && id == Some(s.nextPool))
            && ViewOf(t) == if id.Some? then ViewOf(s).(pools := ViewOf(s).pools + {s.nextPool}) else ViewOf(s)
  {
    SetPool(s.pools, s.nextPool, Pool(size, count, 0));
  }

  lemma DestroyPoolView(s: State, id: nat)
    requires DestroyPool(s, id).1 == Success
    ensures ViewOf(DestroyPool(s, id).0) == ViewOf(s).(pools := ViewOf(s).pools - {id})
  {
  }

  lemma GetMBView(s: State, id: nat, size: nat, mb: Handle)
    ensures var (t, ok) := GetMB(s, id, size, mb);
            && (ok ==> id in s.pools)
            && ViewOf(t) == if ok then ViewOf(s).(blocks := ViewOf(s).blocks[mb := Some(id)]) else ViewOf(s)
  {
    var (t, ok) := GetMB(s, id, size, mb);
    if ok {
      SetPool(s.pools, id, t.pools[id]);
      SetBlock(s.blocks, mb, t.blocks[mb]);
    }
    hide BlocksView, VencsView, OutstandingView, GroupsView, ChnsView, CamsView, VisView;
  }

  lemma ReleaseView(s: State, mb: Handle)
    requires mb in s.blocks
    ensures ReleaseBlock(s, mb).1
    ensures ViewOf(ReleaseBlock(s, mb).0) == ViewOf(s).(blocks := ViewOf(s).blocks - {mb})
  {
    var t := ReleaseBlock(s, mb).0;
    SetBlock(s.blocks, mb, s.blocks[mb]);
    assert t.pools.Keys == s.pools.Keys;
    hide BlocksView, VencsView, OutstandingView, GroupsView, ChnsView, CamsView, VisView;
  }

  lemma WriteView(s: State, mb: Handle, data: seq<byte>)
    requires mb in s.blocks && |data| == |s.blocks[mb].data|
    ensures ViewOf(WriteBlock(s, mb, data)) == ViewOf(s)
  {
    assert BlocksView(s.blocks[mb := s.blocks[mb].(data := data)]) == BlocksView(s.blocks);
  }

  // ---------------------------------------------------------------- cameras

  lemma SetDevAttrView(s: State, dev: int)
    requires s.initialized && 0 <= dev < VI_MAX_DEV_NUM && dev !in CamsView(s.viDevs)
    ensures SetDevAttr(s, dev).1 == Success && ViewOf(SetDevAttr(s, dev).0) == ViewOf(s)
    ensures GetDevAttr(SetDevAttr(s, dev).0, dev) == Success
  {
    var t := SetDevAttr(s, dev).0;
    assert !(dev in s.viDevs && s.viDevs[dev].enabled);
    SetDev(s.viDevs, dev, t.viDevs[dev]);
    assert CamsView(s.viDevs) - {dev} == CamsView(s.viDevs);
    hide BlocksView, VencsView, OutstandingView, GroupsView, ChnsView, CamsView, VisView;
  }

  /** Enabling a configured device that is not enabled, and binding its own pipe to it,
      works if no other device has that pipe. */
  lemma EnableCameraView(s: State, dev: int)
    requires s.initialized && 0 <= dev < VI_MAX_DEV_NUM
    requires dev in s.viDevs && s.viDevs[dev].configured && !s.viDevs[dev].enabled && s.viDevs[dev].pipes.None?
    requires forall d :: d in CamsView(s.viDevs) ==> CamsView(s.viDevs)[d] == Some([d])
    ensures EnableDev(s, dev).1 == Success && SetDevBindPipe(EnableDev(s, dev).0, dev, [dev]).1 == Success
    ensures ViewOf(SetDevBindPipe(EnableDev(s, dev).0, dev, [dev]).0)
         == ViewOf(s).(cams := ViewOf(s).cams[dev := Some([dev])])
  {
    var t := EnableDev(s, dev).0;
    forall p, d | p in [dev] && d in t.viDevs && d != dev
      ensures !PipeOf(t, p, d)
    {
      assert d in CamsView(s.viDevs) ==> s.viDevs[d].pipes == Some([d]);
    }
    var u := SetDevBindPipe(t, dev, [dev]).0;
    SetDev(s.viDevs, dev, u.viDevs[dev]);
    assert u.viDevs == s.viDevs[dev := u.viDevs[dev]];
    hide BlocksView, VencsView, OutstandingView, GroupsView, ChnsView, CamsView, VisView, PipeOf;
  }

  lemma DisableDevView(s: State, dev: int)
    requires s.initialized && 0 <= dev < VI_MAX_DEV_NUM && dev in CamsView(s.viDevs)
    ensures DisableDev(s, dev).1 == Success
    ensures ViewOf(DisableDev(s, dev).0) == ViewOf(s).(cams := ViewOf(s).cams - {dev})
  {
    SetDev(s.viDevs, dev, s.viDevs[dev].(enabled := false, pipes := None));
    assert s.viDevs[dev].enabled;
    hide BlocksView, VencsView, OutstandingView, GroupsView, ChnsView, CamsView, VisView;
  }

  /** Configuring a camera channel changes nothing in the view. */
  lemma SetViChnAttrView(s: State, pipe: int, chn: int, w: nat, h: nat)
    ensures var (t, code) := SetViChnAttr(s, pipe, chn, w, h, Nv12);
            && ViewOf(t) == ViewOf(s)
            && (code == Success ==>
                  s.initialized && 0 <= pipe < VI_MAX_PIPE_NUM && 0 <= chn < VI_MAX_CHN_NUM && HasDev(t, pipe)
                  && (pipe, chn) in t.viChns && !t.viChns[(pipe, chn)].enabled)
  {
    var (t, code) := SetViChnAttr(s, pipe, chn, w, h, Nv12);
    if code == Success {
      assert forall d :: PipeOf(t, pipe, d) == PipeOf(s, pipe, d);
      assert HasDev(s, pipe) && HasDev(t, pipe);
      SetVi(s.viChns, (pipe, chn), t.viChns[(pipe, chn)]);
      assert VisView(s.viChns) - {(pipe, chn)} == VisView(s.viChns);
    }
    hide BlocksView, VencsView, OutstandingView, GroupsView, ChnsView, CamsView, VisView, HasDev;
  }

  lemma EnableViChnView(s: State, pipe: int, chn: int)
    requires s.initialized && 0 <= pipe < VI_MAX_PIPE_NUM && 0 <= chn < VI_MAX_CHN_NUM && HasDev(s, pipe)
    requires (pipe, chn) in s.viChns && !s.viChns[(pipe, chn)].enabled
    ensures EnableViChn(s, pipe, chn).1 == Success
    ensures ViewOf(EnableViChn(s, pipe, chn).0) == ViewOf(s).(vis := ViewOf(s).vis + {(pipe, chn)})
  {
    SetVi(s.viChns, (pipe, chn), s.viChns[(pipe, chn)].(enabled := true, nextDue := None));
    hide BlocksView, VencsView, OutstandingView, GroupsView, ChnsView, CamsView, VisView, HasDev;
  }

  lemma DisableViChnView(s: State, pipe: int, chn: int)
    requires s.initialized && 0 <= pipe < VI_MAX_PIPE_NUM && 0 <= chn < VI_MAX_CHN_NUM && (pipe, chn) in VisView(s.viChns)
    ensures DisableViChn(s, pipe, chn).1 == Success
    ensures ViewOf(DisableViChn(s, pipe, chn).0) == ViewOf(s).(vis := ViewOf(s).vis - {(pipe, chn)})
  {
    SetVi(s.viChns, (pipe, chn), s.viChns[(pipe, chn)].(enabled := false));
    assert s.viChns[(pipe, chn)].enabled;
    hide BlocksView, VencsView, OutstandingView, GroupsView, ChnsView, CamsView, VisView;
  }

  // ---------------------------------------------------------------- groups

  lemma CreateGrpView(s: State, g: int, format: PixelFormat)
    requires s.initialized && 0 <= g < VPSS_MAX_GRP_NUM && Supported(format) && g !in s.grps
    ensures CreateGrp(s, g, format).1 == Success
    ensures ViewOf(CreateGrp(s, g, format).0) == ViewOf(s).(groups := ViewOf(s).groups[g := false])
  {
    SetGroup(s.grps, g, VpssGrp(false, map[]));
    SameChns(s.grps, g, VpssGrp(false, map[]));
    hide BlocksView, VencsView, OutstandingView, GroupsView, ChnsView, CamsView, VisView;
  }

  lemma StartGrpView(s: State, g: int, started: bool)
    requires s.initialized && 0 <= g < VPSS_MAX_GRP_NUM && g in s.grps && s.grps[g].started != started
    ensures SetStarted(s, g, started).1 == Success
    ensures ViewOf(SetStarted(s, g, started).0) == ViewOf(s).(groups := ViewOf(s).groups[g := started])
  {
    var t := SetStarted(s, g, started).0;
    SetGroup(s.grps, g, t.grps[g]);
    SameChns(s.grps, g, t.grps[g]);
    hide BlocksView, VencsView, OutstandingView, GroupsView, ChnsView, CamsView, VisView;
  }

  lemma DestroyGrpView(s: State, g: int)
    requires s.initialized && 0 <= g < VPSS_MAX_GRP_NUM && g in s.grps && !s.grps[g].started
    ensures DestroyGrp(s, g).1 == Success
    ensures ViewOf(DestroyGrp(s, g).0)
         == ViewOf(s).(groups := ViewOf(s).groups - {g}, chns := ChnsWithout(ViewOf(s).chns, g))
  {
    SetGroup(s.grps, g, s.grps[g]);
    DelGroup(s.grps, g);
    hide BlocksView, VencsView, OutstandingView, GroupsView, ChnsView, CamsView, VisView, ChnsWithout;
  }

  lemma SetChnView(s: State, g: int, c: int, chn: VpssChn)
    requires g in s.grps
    ensures ViewOf(SetChn(s, g, c, chn)) == ViewOf(s).(chns := ViewOf(s).chns[(g, c) := chn.enabled])
  {
    SetOneChn(s.grps, g, c, chn);
    SetGroup(s.grps, g, s.grps[g].(chns := s.grps[g].chns[c := chn]));
    assert GroupsView(s.grps)[g := s.grps[g].started] == GroupsView(s.grps);
    hide BlocksView, VencsView, OutstandingView, GroupsView, ChnsView, CamsView, VisView;
  }

  lemma SetVpssChnAttrView(s: State, g: int, c: int, attr: VpssChn)
    ensures var (t, code) := SetVpssChnAttr(s, g, c, attr);
            && (code == Success ==> g in s.grps && 0 <= c < VPSS_MAX_CHN_NUM)
            && ViewOf(t) == if code != Success then ViewOf(s)
                            else ViewOf(s).(chns := ViewOf(s).chns[(g, c) := (g, c) in ViewOf(s).chns && ViewOf(s).chns[(g, c)]])
  {
    if SetVpssChnAttr(s, g, c, attr).1 == Success {
      ViewHasChns(s);
      hide ViewOf, ChnsView, SetChn;
      var enabled := c in s.grps[g].chns && s.grps[g].chns[c].enabled;
      ChnsAt(s.grps, g, c);
      SetChnView(s, g, c, attr.(enabled := enabled, number := 0, queue := []));
    } else {
      hide ViewOf;
    }
  }

  lemma ViewHasChns(s: State)
    ensures ViewOf(s).chns == ChnsView(s.grps)
  {
  }

  lemma SwitchVpssChnView(s: State, g: int, c: int)
    requires s.initialized && 0 <= g < VPSS_MAX_GRP_NUM && 0 <= c < VPSS_MAX_CHN_NUM && (g, c) in ChnsView(s.grps)
    ensures EnableVpssChn(s, g, c).1 == Success
    ensures ViewOf(EnableVpssChn(s, g, c).0) == ViewOf(s).(chns := ViewOf(s).chns[(g, c) := true])
    ensures ChnsView(s.grps)[(g, c)] ==>
      && DisableVpssChn(s, g, c).1 == Success
      && ViewOf(DisableVpssChn(s, g, c).0) == ViewOf(s).(chns := ViewOf(s).chns[(g, c) := false])
  {
    hide ViewOf, SetChn, ChnsView;
    ChnsAt(s.grps, g, c);
    SetChnView(s, g, c, s.grps[g].chns[c].(enabled := true));
    SetChnView(s, g, c, s.grps[g].chns[c].(enabled := false, queue := []));
  }

  // ---------------------------------------------------------------- encoder channels

  lemma CreateVencView(s: State, v: int, codec: Option<Codec>, format: PixelFormat, w: nat, h: nat, gop: nat,
                       clip: Option<seq<Frame>>)
    ensures var (t, code) := CreateVenc(s, v, codec, format, w, h, gop, clip);
            && (code == Success ==> s.initialized && 0 <= v < VENC_MAX_CHN_NUM && v !in s.vencs)
            && (code == Exist ==> v in s.vencs)
            && ViewOf(t) == if code != Success then ViewOf(s)
                            else ViewOf(s).(vencs := ViewOf(s).vencs[v := false], outstanding := ViewOf(s).outstanding[v := 0])
  {
    var (t, code) := CreateVenc(s, v, codec, format, w, h, gop, clip);
    hide BlocksView, VencsView, OutstandingView, GroupsView, ChnsView, CamsView, VisView;
    if code == Success {
      SetVenc(s.vencs, v, t.vencs[v]);
    }
  }

  lemma SwitchVencView(s: State, v: int)
    requires s.initialized && 0 <= v < VENC_MAX_CHN_NUM && v in s.vencs
    ensures StartVenc(s, v).1 == Success && StopVenc(s, v).1 == Success
    ensures ViewOf(StartVenc(s, v).0) == ViewOf(s).(vencs := ViewOf(s).vencs[v := true])
    ensures ViewOf(StopVenc(s, v).0) == ViewOf(s).(vencs := ViewOf(s).vencs[v := false])
  {
    var c := s.vencs[v];
    SetVenc(s.vencs, v, c.(started := true));
    SetVenc(s.vencs, v, c.(started := false, queue := []));
    hide BlocksView, VencsView, OutstandingView, GroupsView, ChnsView, CamsView, VisView;
  }

  lemma DestroyVencView(s: State, v: int)
    requires s.initialized && 0 <= v < VENC_MAX_CHN_NUM && v in s.vencs && !s.vencs[v].started
    requires Chn(Venc, 0, v) !in s.binds
    ensures DestroyVenc(s, v).1 == Success
    ensures ViewOf(DestroyVenc(s, v).0)
         == ViewOf(s).(vencs := ViewOf(s).vencs - {v}, outstanding := ViewOf(s).outstanding - {v})
  {
    DelVenc(s.vencs, v);
    hide BlocksView, VencsView, OutstandingView, GroupsView, ChnsView, CamsView, VisView;
  }

  lemma ReleaseOne(s: State, mb: Handle)
    requires mb in s.blocks
    ensures ReleasePacks(s, [mb]) == (ReleaseBlock(s, mb).0, true)
  {
    assert [mb][1..] == [];
    assert ReleasePacks(ReleaseBlock(s, mb).0, [mb][1..]) == (ReleaseBlock(s, mb).0, true);
  }

  lemma ReleaseStreamView(s: State, v: int, mb: Handle)
    requires s.initialized && 0 <= v < VENC_MAX_CHN_NUM && v in s.vencs && mb in s.blocks
    ensures ReleaseStream(s, v, [mb]).1 == Success
    ensures var n := s.vencs[v].outstanding;
            ViewOf(ReleaseStream(s, v, [mb]).0)
            == ViewOf(s).(blocks := ViewOf(s).blocks - {mb},
                          outstanding := ViewOf(s).outstanding[v := if n == 0 then 0 else n - 1])
  {
    hide ReleasePacks, ReleaseBlock, BlocksView, VencsView, OutstandingView, GroupsView, ChnsView, CamsView, VisView;
    var c := s.vencs[v];
    ReleaseOne(s, mb);
    ReleaseView(s, mb);
    SetVenc(s.vencs, v, c.(outstanding := if c.outstanding == 0 then 0 else c.outstanding - 1));
  }

  // ---------------------------------------------------------------- calls that move frames

  ghost predicate SameSwitches(g: VpssGrp, h: VpssGrp) {
    && g.started == h.started && g.chns.Keys == h.chns.Keys
    && (forall c :: c in g.chns ==> g.chns[c].enabled == h.chns[c].enabled)
  }

  ghost predicate AllSameSwitches(grps: map<int, VpssGrp>, other: map<int, VpssGrp>) {
    grps.Keys == other.Keys && forall g :: g in grps ==> SameSwitches(grps[g], other[g])
  }

  lemma SameSwitchesSameView(grps: map<int, VpssGrp>, other: map<int, VpssGrp>)
    requires AllSameSwitches(grps, other)
    ensures GroupsView(grps) == GroupsView(other) && ChnsView(grps) == ChnsView(other)
  {
    var (a, b) := (ChnsView(grps), ChnsView(other));
    forall g | g in grps
      ensures grps[g].started == other[g].started
    {
      assert SameSwitches(grps[g], other[g]);
    }
    assert GroupsView(grps) == GroupsView(other);
    hide ChnsView;
    forall k: (int, int)
      ensures (k in a <==> k in b) && (k in a ==> a[k] == b[k])
    {
      ChnsAt(grps, k.0, k.1);
      ChnsAt(other, k.0, k.1);
      assert k == (k.0, k.1);
    }
  }

  lemma PlayMoveSwitches(grp: VpssGrp, h: int, m: Move)
    requires GoodGrp(grp) && GoodImage(m.image)
    ensures SameSwitches(grp, PlayMove(grp, h, m))
  {
    hide GoodImage, OutputOf;
  }

  lemma {:induction false} PlaySwitches(grp: VpssGrp, h: int, moves: seq<Move>)
    requires GoodGrp(grp) && GoodMoves(moves)
    ensures SameSwitches(grp, Play(grp, h, moves))
    decreases |moves|
  {
    hide GoodImage, PlayMove, GoodGrp;
    if moves != [] {
      var n := |moves| - 1;
      PlaySwitches(grp, h, moves[..n]);
      PlayMoveSwitches(Play(grp, h, moves[..n]), h, moves[n]);
    }
  }

  lemma TickVis(was: map<(int, int), ViChn>, fps: nat, now: nat, after: map<(int, int), ViChn>)
    requires OneTick(was, fps, now, after)
    ensures VisView(after) == VisView(was)
  {
    var k :| k in was && k in after && after == was[k := after[k]] && Tick(was[k], fps, now) == (after[k], None);
    SetVi(was, k, after[k]);
    assert after[k].enabled == was[k].enabled;
  }

  /** A frame on its way changes no switch. */
  lemma OneFrameView(s: State, now: nat, p: Pulled, top: nat)
    requires Good(s) && p.outcome.Ready? && OneFrame(s, now, p, top) && p.state.grps.Keys == s.grps.Keys
    ensures GroupsView(p.state.grps) == GroupsView(s.grps) && ChnsView(p.state.grps) == ChnsView(s.grps)
    ensures VisView(p.state.viChns) == VisView(s.viChns)
  {
    hide GoodImage, GoodGrp, GoodVi, GoodVenc, Play, InOrder, GroupsView, ChnsView, VisView, OneTick, Chain, Climbs;
    forall g | g in s.grps
      ensures SameSwitches(s.grps[g], p.state.grps[g])
    {
      PlaySwitches(s.grps[g], g, p.moves);
    }
    hide SameSwitches;
    SameSwitchesSameView(s.grps, p.state.grps);
    if OneTick(s.viChns, s.viFps, now, p.state.viChns) {
      TickVis(s.viChns, s.viFps, now, p.state.viChns);
    }
  }

  lemma PullVpssView(s: State, now: nat, g: int, c: int)
    requires Good(s) && Ends(s, g, c)
    ensures ViewOf(PullVpss(s, now, g, c).state) == ViewOf(s)
  {
    var p := PullVpss(s, now, g, c);
    if p.outcome.Ready? {
      PullConsumesOneFrame(s, now, g, c);
      hide PullVpss, Attempt, OneFrame, Good, ViewOf, Ends;
      BoundView(s, now, p, Depth(s, g, c));
    } else {
      hide PullVpss, Good, ViewOf, Ends;
    }
  }

  lemma PullVencView(s: State, now: nat, v: int)
    requires Good(s) && VencEnds(s, v)
    ensures ViewOf(PullVenc(s, now, v).state) == ViewOf(s)
  {
    var p := PullVenc(s, now, v);
    var up := Chn(Venc, 0, v);
    hide Good, GoodImage, ViewOf, PullVenc, VencEnds, BoundEnds;
    if !p.outcome.Ready? {
    } else if s.vencs[v].queue != [] {
      QueueView(s, p.state, v);
    } else {
      assert up in s.binds && Attempt(s, p) by { hide Attempt, PullBound; }
      BoundConsumesOneFrame(s, now, up);
      hide PullBound, Attempt, OneFrame;
      BoundView(s, now, p, BoundDepth(s, up));
    }
  }

  lemma QueueView(s: State, t: State, v: int)
    requires v in s.vencs && t.vencs.Keys == s.vencs.Keys && t == s.(vencs := s.vencs[v := t.vencs[v]])
    requires t.vencs[v] == s.vencs[v].(queue := t.vencs[v].queue)
    ensures ViewOf(t) == ViewOf(s)
  {
    SetVenc(s.vencs, v, t.vencs[v]);
    hide BlocksView, VencsView, OutstandingView, GroupsView, ChnsView, CamsView, VisView;
  }

  lemma BoundView(s: State, now: nat, p: Pulled, top: nat)
    requires Good(s) && p.outcome.Ready? && OneFrame(s, now, p, top) && Attempt(s, p)
    ensures ViewOf(p.state) == ViewOf(s)
  {
    assert p.state == s.(grps := p.state.grps, viChns := p.state.viChns) && p.state.grps.Keys == s.grps.Keys by {
      hide Good, OneFrame, SameGrp;
    }
    hide Attempt, OneFrame, Good, GroupsView, ChnsView, CamsView, VisView, VencsView, OutstandingView, BlocksView;
    OneFrameView(s, now, p, top);
  }

  lemma AddBlockView(s: State, mb: Handle, data: seq<byte>)
    ensures ViewOf(s.(blocks := s.blocks[mb := Block(None, data)])) == ViewOf(s).(blocks := ViewOf(s).blocks[mb := None])
  {
    SetBlock(s.blocks, mb, Block(None, data));
    hide BlocksView, VencsView, OutstandingView, GroupsView, ChnsView, CamsView, VisView;
  }

  lemma GetViFrameView(s: State, now: nat, pipe: int, chn: int, mb: Handle)
    requires Good(s)
    ensures var (t, r) := GetViFrame(s, now, pipe, chn, mb);
            && (r.Ok? ==> r.value.mb == mb)
            && ViewOf(t) == if r.Ok? then ViewOf(s).(blocks := ViewOf(s).blocks[mb := None]) else ViewOf(s)
  {
    var p := PullVi(s, now, pipe, chn);
    if p.outcome.Ready? {
      SetVi(s.viChns, (pipe, chn), p.state.viChns[(pipe, chn)]);
      assert ViewOf(p.state) == ViewOf(s) by {
        hide BlocksView, VencsView, OutstandingView, GroupsView, ChnsView, CamsView, VisView;
      }
      AddBlockView(p.state, mb, Strides.Exported(p.outcome.image));
    }
    hide PullVi, ViewOf, Strides.Exported, Good;
  }

  lemma GetVpssFrameView(s: State, now: nat, g: int, c: int, mb: Handle)
    requires Good(s) && Ends(s, g, c)
    ensures var (t, r) := GetVpssFrame(s, now, g, c, mb);
            && (r.Ok? ==> r.value.mb == mb)
            && ViewOf(t) == if r.Ok? then ViewOf(s).(blocks := ViewOf(s).blocks[mb := None]) else ViewOf(s)
  {
    var p := PullVpss(s, now, g, c);
    PullVpssView(s, now, g, c);
    if p.outcome.Ready? {
      AddBlockView(p.state, mb, Strides.Exported(p.outcome.image));
    }
    hide PullVpss, ViewOf, Strides.Exported, Good, Ends;
  }

  /** What is left of `GetStream` once a frame has come. */
  ghost predicate Streamed(t: State, u: State, v: int, mb: Handle) {
    && v in t.vencs && v in u.vencs && mb in u.blocks
    && u == t.(vencs := t.vencs[v := u.vencs[v]], blocks := t.blocks[mb := u.blocks[mb]])
    && u.blocks[mb].pool == None
    && u.vencs[v].started == t.vencs[v].started && u.vencs[v].outstanding == t.vencs[v].outstanding + 1
  }

  lemma StreamShape(s: State, now: nat, v: int, mb: Handle)
    requires Good(s) && VencEnds(s, v) && Packs(s, v)
    ensures var (p, (t, r)) := (PullVenc(s, now, v), GetStream(s, now, v, mb));
            if p.outcome.Ready? then r.Ok? && r.value.mb == mb && v in s.vencs && Streamed(p.state, t, v, mb)
            else r.Err? && t == s
  {
    hide PullVenc, PacketOf, Good, VencEnds, Packs;
  }

  lemma StreamedView(t: State, u: State, v: int, mb: Handle)
    requires Streamed(t, u, v, mb)
    ensures v in ViewOf(t).outstanding
    ensures ViewOf(u) == ViewOf(t).(blocks := ViewOf(t).blocks[mb := None],
                                    outstanding := ViewOf(t).outstanding[v := ViewOf(t).outstanding[v] + 1])
  {
    SetVenc(t.vencs, v, u.vencs[v]);
    SetBlock(t.blocks, mb, u.blocks[mb]);
    assert OutstandingView(t.vencs)[v] == t.vencs[v].outstanding;
    hide BlocksView, VencsView, OutstandingView, GroupsView, ChnsView, CamsView, VisView;
  }

  lemma GetStreamView(s: State, now: nat, v: int, mb: Handle)
    requires Good(s) && VencEnds(s, v) && Packs(s, v)
    ensures var (t, r) := GetStream(s, now, v, mb);
            && (r.Ok? ==> r.value.mb == mb && v in s.vencs && v in ViewOf(s).outstanding)
            && ViewOf(t) == if r.Ok? then ViewOf(s).(blocks := ViewOf(s).blocks[mb := None],
                                                     outstanding := ViewOf(s).outstanding[v := ViewOf(s).outstanding[v] + 1])
                            else ViewOf(s)
  {
    hide *;
    var p := PullVenc(s, now, v);
    StreamShape(s, now, v, mb);
    PullVencView(s, now, v);
    if p.outcome.Ready? {
      StreamedView(p.state, GetStream(s, now, v, mb).0, v, mb);
    }
  }

  lemma SendVpssView(s: State, now: nat, g: int, f: VideoFrame)
    requires Good(s) && Scalable(s, now, g, f)
    ensures ViewOf(SendVpss(s, now, g, f).0) == ViewOf(s)
  {
    var t := SendVpss(s, now, g, f).0;
    if SendVpss(s, now, g, f).2 != [] {
      ImportedIsGood(s, now, f);
      var img := ImportFrame(s, now, f).value;
      FeedIsInput(s, g, img);
      hide GoodImage, ImportFrame, Scalable, PlayMove, GroupsView, ChnsView, CamsView, VisView, VencsView, OutstandingView, BlocksView;
      forall h | h in s.grps
        ensures SameSwitches(s.grps[h], t.grps[h])
      {
        PlayMoveSwitches(s.grps[h], h, Input(g, img));
      }
      SameSwitchesSameView(s.grps, t.grps);
    }
  }

  lemma SendVencView(s: State, now: nat, v: int, f: VideoFrame)
    ensures ViewOf(SendVenc(s, now, v, f).0) == ViewOf(s)
  {
    var t := SendVenc(s, now, v, f).0;
    if t != s {
      SetVenc(s.vencs, v, t.vencs[v]);
    }
    hide ImportFrame, GroupsView, ChnsView, CamsView, VisView, VencsView, OutstandingView, BlocksView;
  }
}
