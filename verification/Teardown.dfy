/** The wrapper over the library: what dropping a handle does, and that it always works. */
module Teardown {
  import opened Bytes
  import opened Mpi
  import opened References
  import opened Resources
  import opened Views
  import Invariants
  import Pools

  /** The wrapper's own state: whether it is initialized, the identifiers it has given out,
      the objects that are switched on (a started group or encoder channel, an enabled VPSS
      channel), the strong counts, and the fields of all handles that are still to be dropped. */
  datatype Wrapper = Wrapper(
    mpiInit: bool,
    cameras: Ids,
    vencs: Ids,
    groups: Ids,
    channels: map<int, Ids>,
    on: set<Ref>,
    strong: map<Ref, nat>,
    handles: seq<seq<Ref>>)

  datatype World = World(w: Wrapper, s: State)

  // ---------------------------------------------------------------- agreement

  ghost predicate SysAgrees(live: set<Ref>, w: Wrapper, v: View) {
    (Sys in live <==> v.initialized) && (w.mpiInit <==> v.initialized)
  }

  /** An encoder channel exists for the wrapper exactly if it exists in the library, is
      started for both or for neither, and exactly then its identifier is busy. */
  ghost predicate VencsAgree(live: set<Ref>, on: set<Ref>, ids: Ids, vencs: map<int, bool>) {
    && (forall x :: VencChannel(x) in live <==> x in vencs)
    && (forall x :: x in vencs ==> 0 <= x < VENC_MAX_CHN_NUM && (vencs[x] <==> VencChannel(x) in on))
    && Partition(ids, VENC_MAX_CHN_NUM) && (forall k: nat :: k in ids.busy <==> k in vencs)
  }

  ghost predicate GroupsAgree(live: set<Ref>, on: set<Ref>, ids: Ids, groups: map<int, bool>) {
    && (forall x :: Group(x) in live <==> x in groups)
    && (forall x :: x in groups ==> 0 <= x < VPSS_MAX_GRP_NUM && (groups[x] <==> Group(x) in on))
    && Partition(ids, VPSS_MAX_GRP_NUM) && (forall k: nat :: k in ids.busy <==> k in groups)
  }

  /** A VPSS channel may stay configured after its object is gone, but not enabled. */
  ghost predicate ChnsAgree(live: set<Ref>, on: set<Ref>, channels: map<int, Ids>, groups: set<int>,
                            chns: map<(int, int), bool>) {
    && (forall g, c :: VpssChannel(g, c) in live ==> g in groups && (g, c) in chns && 0 <= c < VPSS_MAX_CHN_NUM)
    && (forall g, c :: (g, c) in chns ==> g in groups && (chns[(g, c)] <==> VpssChannel(g, c) in on))
    && (forall g :: g in groups ==> g in channels && Partition(channels[g], VPSS_MAX_CHN_NUM))
    && (forall g, c: nat :: g in groups && g in channels ==> (c in channels[g].busy <==> VpssChannel(g, c) in live))
  }

  ghost predicate CamsAgree(live: set<Ref>, ids: Ids, cams: map<int, Option<seq<int>>>) {
    && (forall d :: Camera(d) in live <==> d in cams)
    && (forall d :: d in cams ==> 0 <= d < VI_MAX_DEV_NUM && cams[d] == Some([d]))
    && Partition(ids, VI_MAX_DEV_NUM) && (forall k: nat :: k in ids.busy <==> k in cams)
  }

  ghost predicate VisAgree(live: set<Ref>, vis: set<(int, int)>) {
    && (forall p, c :: ViChannel(p, c) in live <==> (p, c) in vis)
    && (forall p, c :: (p, c) in vis ==> 0 <= p < VI_MAX_PIPE_NUM && 0 <= c < VI_MAX_CHN_NUM)
  }

  /** The wrapper binds cameras to groups and to encoders, and groups to encoders. */
  predicate Wired(src: Chn, dst: Chn) {
    Dst(dst) == dst && ((dst.mod == Vpss && src.mod == Vi) || (dst.mod == Venc && (src.mod == Vi || src.mod == Vpss)))
  }

  ghost predicate BindsAgree(live: set<Ref>, binds: map<Chn, Chn>) {
    && (forall src, dst :: Binding(src, dst) in live <==> dst in binds && binds[dst] == src)
    && (forall dst :: dst in binds ==> Wired(binds[dst], dst))
  }

  ghost predicate PoolsAgree(live: set<Ref>, pools: set<nat>) {
    forall id: nat :: MemPool(id) in live <==> id in pools
  }

  /** The block that an object will release, and the pool it came from. */
  function OwnedBlock(r: Ref): Option<Handle> {
    match r
    case Buffer(mb, _) => Some(mb)
    case VideoFrame(mb) => Some(mb)
    case Stream(mb, _) => Some(mb)
    case _ => None
  }

  function OwnedPool(r: Ref): Option<nat> {
    if r.Buffer? then Some(r.pool) else None
  }

  /** Every block has exactly one owner. */
  ghost predicate BlocksAgree(live: set<Ref>, blocks: map<Handle, Option<nat>>) {
    && (forall r :: r in live && OwnedBlock(r).Some? ==> OwnedBlock(r).value in blocks && blocks[OwnedBlock(r).value] == OwnedPool(r))
    && (forall r, q :: r in live && q in live && OwnedBlock(r).Some? && OwnedBlock(r) == OwnedBlock(q) ==> r == q)
    && (forall mb :: mb in blocks ==> exists r :: r in live && OwnedBlock(r) == Some(mb))
  }

  ghost function StreamsOf(live: set<Ref>, x: int): set<Ref> {
    set r | r in live && r.Stream? && r.id == x
  }

  /** A channel's outstanding packets are the streams that have not been dropped. */
  ghost predicate StreamsAgree(live: set<Ref>, outstanding: map<int, nat>) {
    forall x :: x in outstanding ==> outstanding[x] == |StreamsOf(live, x)|
  }

  datatype Table = OfSys | OfVencs | OfGroups | OfChns | OfCams | OfVis | OfBinds | OfPools | OfBlocks | OfStreams

  ghost predicate AgreeOn(t: Table, live: set<Ref>, w: Wrapper, v: View) {
    match t
    case OfSys => SysAgrees(live, w, v)
    case OfVencs => VencsAgree(live, w.on, w.vencs, v.vencs)
    case OfGroups => GroupsAgree(live, w.on, w.groups, v.groups)
    case OfChns => ChnsAgree(live, w.on, w.channels, v.groups.Keys, v.chns)
    case OfCams => CamsAgree(live, w.cameras, v.cams)
    case OfVis => VisAgree(live, v.vis)
    case OfBinds => BindsAgree(live, v.binds)
    case OfPools => PoolsAgree(live, v.pools)
    case OfBlocks => BlocksAgree(live, v.blocks)
    case OfStreams => StreamsAgree(live, v.outstanding) && v.outstanding.Keys == v.vencs.Keys
  }

  /** Wrapper and library agree on every table, and only live objects are switched on. */
  ghost predicate Agree(live: set<Ref>, w: Wrapper, v: View) {
    && w.on <= live && (forall r :: r in w.on ==> Switchable(r))
    && (forall t :: AgreeOn(t, live, w, v))
  }

  predicate Switchable(r: Ref) {
    r.VencChannel? || r.Group? || r.VpssChannel?
  }

  /** The objects that a table is about. */
  predicate About(t: Table, r: Ref) {
    match t
    case OfSys => r.Sys?
    case OfVencs => r.VencChannel?
    case OfGroups => r.Group?
    case OfChns => r.VpssChannel?
    case OfCams => r.Camera?
    case OfVis => r.ViChannel?
    case OfBinds => r.Binding?
    case OfPools => r.MemPool?
    case OfBlocks => OwnedBlock(r).Some?
    case OfStreams => r.Stream?
  }

  ghost predicate SameTable(t: Table, w: Wrapper, v: View, x: Wrapper, y: View) {
    match t
    case OfSys => w.mpiInit == x.mpiInit && v.initialized == y.initialized
    case OfVencs => w.vencs == x.vencs && v.vencs == y.vencs
    case OfGroups => w.groups == x.groups && v.groups == y.groups
    case OfChns => w.channels == x.channels && v.groups.Keys == y.groups.Keys && v.chns == y.chns
    case OfCams => w.cameras == x.cameras && v.cams == y.cams
    case OfVis => v.vis == y.vis
    case OfBinds => v.binds == y.binds
    case OfPools => v.pools == y.pools
    case OfBlocks => v.blocks == y.blocks
    case OfStreams => v.outstanding == y.outstanding && v.vencs.Keys == y.vencs.Keys
  }

  /** A step that has nothing to do with a table leaves the agreement on it alone. */
  lemma StillAgree(t: Table, live: set<Ref>, w: Wrapper, v: View, now: set<Ref>, x: Wrapper, y: View)
    requires AgreeOn(t, live, w, v) && SameTable(t, w, v, x, y)
    requires forall r :: About(t, r) ==> (r in live <==> r in now) && (r in w.on <==> r in x.on)
    ensures AgreeOn(t, now, x, y)
  {
    hide Partition, Wired;
    match t {
      case OfBlocks =>
        forall mb | mb in y.blocks
          ensures exists r :: r in now && OwnedBlock(r) == Some(mb)
        {
          var r :| r in live && OwnedBlock(r) == Some(mb);
          assert About(t, r);
        }
      case OfStreams =>
        forall x
          ensures StreamsOf(now, x) == StreamsOf(live, x)
        {
          assert forall r: Ref :: r.Stream? ==> About(t, r);
        }
      case OfChns =>
        assert forall g, c :: About(t, VpssChannel(g, c));
      case _ =>
    }
  }

  /** What holds between any two calls: the counts are right, handles drop in order, and
      wrapper and library agree. */
  ghost predicate Sound(x: World) {
    && Counted(x.w.handles, x.w.strong)
    && AllInDropOrder(x.w.handles)
    && Agree(x.w.strong.Keys, x.w, ViewOf(x.s))
    && Invariants.Inv(x.s)
  }

  // ---------------------------------------------------------------- the last reference

  function Freed(ids: Ids, id: int): Ids {
    if id < 0 then ids else
    match Released(ids, id)
    case None => ids
    case Some(r) => r
  }

  /** What a `Drop` body leaves behind, and what the library said to each of its calls. */
  datatype Dropped = Dropped(w: Wrapper, s: State, codes: seq<Code>)

  function DropSys(w: Wrapper, s: State, now: nat): Dropped {
    var (t, code) := Exit(s, now);
    Dropped(w.(mpiInit := false), t, [code])
  }

  function DropCamera(w: Wrapper, s: State, d: int): Dropped {
    var (t, code) := DisableDev(s, d);
    Dropped(w.(cameras := Freed(w.cameras, d)), t, [code])
  }

  function DropViChannel(w: Wrapper, s: State, p: int, c: int): Dropped {
    var (t, code) := DisableViChn(s, p, c);
    Dropped(w, t, [code])
  }

  /** Stops the channel if the wrapper has started it, then destroys it. */
  function DropVenc(w: Wrapper, s: State, x: int): Dropped {
    var r := VencChannel(x);
    var (t, stop) := if r in w.on then StopVenc(s, x) else (s, Success);
    var (u, code) := DestroyVenc(t, x);
    Dropped(w.(on := w.on - {r}, vencs := Freed(w.vencs, x)), u, [stop, code])
  }

  function DropGroup(w: Wrapper, s: State, g: int): Dropped {
    var r := Group(g);
    var (t, stop) := if r in w.on then SetStarted(s, g, false) else (s, Success);
    var (u, code) := DestroyGrp(t, g);
    Dropped(w.(on := w.on - {r}, groups := Freed(w.groups, g)), u, [stop, code])
  }

  function DropVpssChannel(w: Wrapper, s: State, g: int, c: int): Dropped {
    var r := VpssChannel(g, c);
    var (t, code) := if r in w.on then DisableVpssChn(s, g, c) else (s, Success);
    var ids := if g in w.channels then w.channels[g := Freed(w.channels[g], c)] else w.channels;
    Dropped(w.(on := w.on - {r}, channels := ids), t, [code])
  }

  function DropBinding(w: Wrapper, s: State, src: Chn, dst: Chn): Dropped {
    var (t, code) := UnBind(s, src, dst);
    Dropped(w, t, [code])
  }

  function DropPool(w: Wrapper, s: State, id: nat): Dropped {
    var (t, code) := DestroyPool(s, id);
    Dropped(w, t, [code])
  }

  function DropBuffer(w: Wrapper, s: State, mb: Handle): Dropped {
    var (t, code) := ReleaseMB(s, mb);
    Dropped(w, t, [code])
  }

  function DropFrame(w: Wrapper, s: State, mb: Handle): Dropped {
    var (t, code) := ReleaseFrame(s, mb);
    Dropped(w, t, [code])
  }

  function DropStream(w: Wrapper, s: State, mb: Handle, x: int): Dropped {
    var (t, code) := ReleaseStream(s, x, [mb]);
    Dropped(w, t, [code])
  }

  /** What happens when the last reference to an object is dropped: its `Drop` body, then
      its identifier is free again. */
  function Destroyed(w: Wrapper, s: State, r: Ref, now: nat): (d: Dropped)
    ensures d.w.handles == w.handles && d.w.strong == w.strong
  {
    match r
    case Sys => DropSys(w, s, now)
    case Camera(d) => DropCamera(w, s, d)
    case ViChannel(p, c) => DropViChannel(w, s, p, c)
    case VencChannel(x) => DropVenc(w, s, x)
    case Group(g) => DropGroup(w, s, g)
    case VpssChannel(g, c) => DropVpssChannel(w, s, g, c)
    case Binding(src, dst) => DropBinding(w, s, src, dst)
    case MemPool(id) => DropPool(w, s, id)
    case Buffer(mb, _) => DropBuffer(w, s, mb)
    case VideoFrame(mb) => DropFrame(w, s, mb)
    case Stream(mb, x) => DropStream(w, s, mb, x)
  }

  /** Drops the next field of handle `i`. */
  function DropField(x: World, i: nat, now: nat): (y: (World, seq<Code>))
    requires i < |x.w.handles| && x.w.handles[i] != [] && x.w.handles[i][0] in x.w.strong
    ensures y.0.w.handles == x.w.handles[i := x.w.handles[i][1..]]
  {
    var r := x.w.handles[i][0];
    var w := x.w.(handles := x.w.handles[i := x.w.handles[i][1..]], strong := Lose(x.w.strong, r));
    if x.w.strong[r] > 1 then (World(w, x.s), []) else
    var d := Destroyed(w, x.s, r, now);
    (World(d.w, d.s), d.codes)
  }

  ghost predicate AllSucceed(codes: seq<Code>) {
    forall i :: 0 <= i < |codes| ==> codes[i] == Success
  }

  /** The object is alive, all it needs stays alive without it, and nothing that stays needs it. */
  ghost predicate Free(live: set<Ref>, r: Ref) {
    r in live && Needs(r) <= live - {r} && NeedsAlive(live - {r})
  }

  // ---------------------------------------------------------------- each kind of object

  lemma FreedIds(ids: Ids, capacity: nat, id: int)
    requires Partition(ids, capacity) && id >= 0 && id in ids.busy
    ensures Partition(Freed(ids, id), capacity) && Freed(ids, id).busy == ids.busy - {id}
  {
    ReleaseFrees(ids, capacity, id);
  }

  /** One object leaves; no table but `a` and `b` is concerned. */
  lemma OneLeaves(a: Table, b: Table, live: set<Ref>, r: Ref, w: Wrapper, v: View, x: Wrapper, y: View)
    requires Agree(live, w, v) && (x.on == w.on - {r} || (!Switchable(r) && x.on == w.on))
    requires forall t :: t != a && t != b ==> SameTable(t, w, v, x, y) && !About(t, r)
    requires AgreeOn(a, live - {r}, x, y) && AgreeOn(b, live - {r}, x, y)
    ensures Agree(live - {r}, x, y)
  {
    forall t
      ensures AgreeOn(t, live - {r}, x, y)
    {
      hide AgreeOn, About, SameTable;
      if t != a && t != b {
        assert forall q :: About(t, q) ==> q != r;
        StillAgree(t, live, w, v, live - {r}, x, y);
      }
    }
  }

  lemma AgreeAt(t: Table, live: set<Ref>, w: Wrapper, v: View)
    requires Agree(live, w, v)
    ensures AgreeOn(t, live, w, v) && w.on <= live
  {
  }

  lemma VencsWithout(live: set<Ref>, on: set<Ref>, ids: Ids, vencs: map<int, bool>, x: int)
    requires VencsAgree(live, on, ids, vencs) && VencChannel(x) in live
    ensures VencsAgree(live - {VencChannel(x)}, on - {VencChannel(x)}, Freed(ids, x), vencs - {x})
  {
    FreedIds(ids, VENC_MAX_CHN_NUM, x);
    hide Freed, Partition;
  }

  lemma StreamsWithout(live: set<Ref>, r: Ref, outstanding: map<int, nat>, x: int)
    requires StreamsAgree(live, outstanding) && !r.Stream?
    ensures StreamsAgree(live - {r}, outstanding - {x})
  {
    assert forall k :: StreamsOf(live - {r}, k) == StreamsOf(live, k);
  }

  lemma VencLeaves(live: set<Ref>, w: Wrapper, v: View, x: int)
    requires Agree(live, w, v) && VencChannel(x) in live
    ensures var r := VencChannel(x);
            Agree(live - {r}, w.(on := w.on - {r}, vencs := Freed(w.vencs, x)),
                  v.(vencs := v.vencs - {x}, outstanding := v.outstanding - {x}))
  {
    hide *;
    VencPart(live, w, v, x);
    var r := VencChannel(x);
    var u, y := w.(on := w.on - {r}, vencs := Freed(w.vencs, x)), v.(vencs := v.vencs - {x}, outstanding := v.outstanding - {x});
    VencElsewhere(w, v, u, y, r);
    OneLeaves(OfVencs, OfStreams, live, r, w, v, u, y);
  }

  lemma VencPart(live: set<Ref>, w: Wrapper, v: View, x: int)
    requires Agree(live, w, v) && VencChannel(x) in live
    ensures var r := VencChannel(x);
            var u, y := w.(on := w.on - {r}, vencs := Freed(w.vencs, x)), v.(vencs := v.vencs - {x}, outstanding := v.outstanding - {x});
            AgreeOn(OfVencs, live - {r}, u, y) && AgreeOn(OfStreams, live - {r}, u, y)
  {
    AgreeAt(OfVencs, live, w, v);
    AgreeAt(OfStreams, live, w, v);
    hide Agree, Freed, VencsAgree, StreamsAgree;
    VencsWithout(live, w.on, w.vencs, v.vencs, x);
    StreamsWithout(live, VencChannel(x), v.outstanding, x);
  }

  lemma VencElsewhere(w: Wrapper, v: View, u: Wrapper, y: View, r: Ref)
    requires r.VencChannel? && u == w.(on := u.on, vencs := u.vencs) && y == v.(vencs := y.vencs, outstanding := y.outstanding)
    ensures forall t :: t != OfVencs && t != OfStreams ==> SameTable(t, w, v, u, y) && !About(t, r)
  {
  }

  /** What the tables say about an encoder channel that is about to go. */
  lemma VencKnown(live: set<Ref>, w: Wrapper, s: State, x: int)
    requires Agree(live, w, ViewOf(s)) && Free(live, VencChannel(x))
    ensures s.initialized && x in s.vencs && (s.vencs[x].started <==> VencChannel(x) in w.on) && 0 <= x < VENC_MAX_CHN_NUM
    ensures VencChannel(x) in live && Chn(Venc, 0, x) !in s.binds
  {
    AgreeAt(OfSys, live, w, ViewOf(s));
    AgreeAt(OfVencs, live, w, ViewOf(s));
    AgreeAt(OfBinds, live, w, ViewOf(s));
    hide Agree, ChnsAgree, GroupsAgree, CamsAgree, VisAgree, BlocksAgree, StreamsAgree, Partition;
    assert Sys in live;
    hide NeedsAlive;
    NotBound(live, s.binds, Chn(Venc, 0, x), VencChannel(x));
  }

  lemma VencStopped(s: State, x: int)
    requires CheckVenc(s, x) == Success
    ensures var t := StopVenc(s, x).0; x in t.vencs && !t.vencs[x].started
  {
  }

  lemma StopAndDestroyVenc(w: Wrapper, s: State, x: int)
    requires s.initialized && x in s.vencs && (s.vencs[x].started <==> VencChannel(x) in w.on) && 0 <= x < VENC_MAX_CHN_NUM
    requires Chn(Venc, 0, x) !in s.binds
    ensures var d := DropVenc(w, s, x);
            && AllSucceed(d.codes) && d.w == w.(on := w.on - {VencChannel(x)}, vencs := Freed(w.vencs, x))
            && ViewOf(d.s) == ViewOf(s).(vencs := ViewOf(s).vencs - {x}, outstanding := ViewOf(s).outstanding - {x})
  {
    hide ViewOf, Freed, StopVenc, DestroyVenc;
    SwitchVencView(s, x);
    if VencChannel(x) in w.on {
      var t := StopVenc(s, x).0;
      VencStopped(s, x);
      DestroyVencView(t, x);
      assert ViewOf(s).vencs[x := false] - {x} == ViewOf(s).vencs - {x};
    } else {
      DestroyVencView(s, x);
    }
  }

  lemma VencGone(live: set<Ref>, w: Wrapper, s: State, x: int)
    requires Agree(live, w, ViewOf(s)) && Free(live, VencChannel(x))
    ensures var d := DropVenc(w, s, x);
            AllSucceed(d.codes) && Agree(live - {VencChannel(x)}, d.w, ViewOf(d.s))
  {
    hide *;
    VencKnown(live, w, s, x);
    VencLeaves(live, w, ViewOf(s), x);
    StopAndDestroyVenc(w, s, x);
  }

  /** Nothing is bound to an object that nothing needs. */
  lemma NotBound(live: set<Ref>, binds: map<Chn, Chn>, dst: Chn, r: Ref)
    requires BindsAgree(live, binds) && NeedsAlive(live - {r}) && r in Sink(dst)
    ensures dst !in binds
  {
    assert dst in binds ==> Binding(binds[dst], dst) in live;
    forall src
      ensures Binding(src, dst) !in live
    {
      var b := Binding(src, dst);
      assert r in Needs(b) && b != r;
      assert b in live ==> b in live - {r};
    }
  }

  // ---------------------------------------------------------------- groups and their channels

  lemma GroupsWithout(live: set<Ref>, on: set<Ref>, ids: Ids, groups: map<int, bool>, g: int)
    requires GroupsAgree(live, on, ids, groups) && Group(g) in live
    ensures GroupsAgree(live - {Group(g)}, on - {Group(g)}, Freed(ids, g), groups - {g})
  {
    FreedIds(ids, VPSS_MAX_GRP_NUM, g);
    hide Freed, Partition;
  }

  /** With a group its channels go; no object was left of them. */
  lemma ChnsWithoutGroup(live: set<Ref>, on: set<Ref>, channels: map<int, Ids>, groups: set<int>,
                         chns: map<(int, int), bool>, g: int)
    requires ChnsAgree(live, on, channels, groups, chns) && on <= live && NeedsAlive(live - {Group(g)})
    ensures ChnsAgree(live - {Group(g)}, on - {Group(g)}, channels, groups - {g}, ChnsWithout(chns, g))
  {
    forall c
      ensures VpssChannel(g, c) !in live
    {
      var r := VpssChannel(g, c);
      assert Group(g) in Needs(r);
      assert r in live ==> r in live - {Group(g)};
    }
    hide Partition, NeedsAlive;
  }

  lemma KeysWithout<T>(m: map<int, T>, k: int)
    ensures (m - {k}).Keys == m.Keys - {k}
  {
  }

  lemma GroupLeaves(live: set<Ref>, w: Wrapper, v: View, g: int)
    requires Agree(live, w, v) && Group(g) in live && NeedsAlive(live - {Group(g)})
    ensures var r := Group(g);
            Agree(live - {r}, w.(on := w.on - {r}, groups := Freed(w.groups, g)),
                  v.(groups := v.groups - {g}, chns := ChnsWithout(v.chns, g)))
  {
    hide *;
    GroupPart(live, w, v, g);
    var r := Group(g);
    var u, y := w.(on := w.on - {r}, groups := Freed(w.groups, g)), v.(groups := v.groups - {g}, chns := ChnsWithout(v.chns, g));
    GroupElsewhere(w, v, u, y, r);
    OneLeaves(OfGroups, OfChns, live, r, w, v, u, y);
  }

  lemma GroupPart(live: set<Ref>, w: Wrapper, v: View, g: int)
    requires Agree(live, w, v) && Group(g) in live && NeedsAlive(live - {Group(g)})
    ensures var r := Group(g);
            var u, y := w.(on := w.on - {r}, groups := Freed(w.groups, g)), v.(groups := v.groups - {g}, chns := ChnsWithout(v.chns, g));
            AgreeOn(OfGroups, live - {r}, u, y) && AgreeOn(OfChns, live - {r}, u, y)
  {
    AgreeAt(OfGroups, live, w, v);
    AgreeAt(OfChns, live, w, v);
    hide Agree, Freed, ChnsAgree, GroupsAgree, ChnsWithout;
    GroupsWithout(live, w.on, w.groups, v.groups, g);
    ChnsWithoutGroup(live, w.on, w.channels, v.groups.Keys, v.chns, g);
    KeysWithout(v.groups, g);
  }

  lemma GroupElsewhere(w: Wrapper, v: View, u: Wrapper, y: View, r: Ref)
    requires r.Group? && u == w.(on := u.on, groups := u.groups) && y == v.(groups := y.groups, chns := y.chns)
    ensures forall t :: t != OfGroups && t != OfChns ==> SameTable(t, w, v, u, y) && !About(t, r)
  {
  }

  lemma GroupKnown(live: set<Ref>, w: Wrapper, s: State, g: int)
    requires Agree(live, w, ViewOf(s)) && Free(live, Group(g))
    ensures s.initialized && g in s.grps && (s.grps[g].started <==> Group(g) in w.on) && 0 <= g < VPSS_MAX_GRP_NUM
    ensures Group(g) in live && NeedsAlive(live - {Group(g)})
  {
    AgreeAt(OfSys, live, w, ViewOf(s));
    AgreeAt(OfGroups, live, w, ViewOf(s));
    hide Agree, Partition;
    assert Sys in live;
  }

  lemma StopAndDestroyGroup(w: Wrapper, s: State, g: int)
    requires s.initialized && g in s.grps && (s.grps[g].started <==> Group(g) in w.on) && 0 <= g < VPSS_MAX_GRP_NUM
    ensures var d := DropGroup(w, s, g);
            && AllSucceed(d.codes) && d.w == w.(on := w.on - {Group(g)}, groups := Freed(w.groups, g))
            && ViewOf(d.s) == ViewOf(s).(groups := ViewOf(s).groups - {g}, chns := ChnsWithout(ViewOf(s).chns, g))
  {
    hide ViewOf, Freed, ChnsWithout;
    if Group(g) in w.on {
      StartGrpView(s, g, false);
      var t := SetStarted(s, g, false).0;
      assert g in t.grps && !t.grps[g].started && t.initialized;
      hide SetStarted, DestroyGrp;
      DestroyGrpView(t, g);
      assert ViewOf(s).groups[g := false] - {g} == ViewOf(s).groups - {g};
    } else {
      DestroyGrpView(s, g);
    }
  }

  lemma GroupGone(live: set<Ref>, w: Wrapper, s: State, g: int)
    requires Agree(live, w, ViewOf(s)) && Free(live, Group(g))
    ensures var d := DropGroup(w, s, g); AllSucceed(d.codes) && Agree(live - {Group(g)}, d.w, ViewOf(d.s))
  {
    hide *;
    GroupKnown(live, w, s, g);
    GroupLeaves(live, w, ViewOf(s), g);
    StopAndDestroyGroup(w, s, g);
  }

  lemma ChnsWithoutChn(live: set<Ref>, on: set<Ref>, channels: map<int, Ids>, groups: set<int>,
                       chns: map<(int, int), bool>, g: int, c: int)
    requires ChnsAgree(live, on, channels, groups, chns) && VpssChannel(g, c) in live && on <= live
    ensures g in channels
    ensures ChnsAgree(live - {VpssChannel(g, c)}, on - {VpssChannel(g, c)}, channels[g := Freed(channels[g], c)], groups,
                      chns[(g, c) := false])
  {
    assert c in channels[g].busy by { assert c >= 0; }
    FreedIds(channels[g], VPSS_MAX_CHN_NUM, c);
    hide Freed, Partition;
  }

  lemma VpssChannelLeaves(live: set<Ref>, w: Wrapper, v: View, g: int, c: int)
    requires Agree(live, w, v) && VpssChannel(g, c) in live
    ensures g in w.channels
    ensures var r := VpssChannel(g, c);
            Agree(live - {r}, w.(on := w.on - {r}, channels := w.channels[g := Freed(w.channels[g], c)]),
                  v.(chns := v.chns[(g, c) := false]))
  {
    var r := VpssChannel(g, c);
    AgreeAt(OfChns, live, w, v);
    hide Agree, Freed, VencsAgree, StreamsAgree, BlocksAgree, BindsAgree, CamsAgree, VisAgree, ChnsAgree, GroupsAgree, PoolsAgree,
         SysAgrees;
    ChnsWithoutChn(live, w.on, w.channels, v.groups.Keys, v.chns, g, c);
    OneLeaves(OfChns, OfChns, live, r, w, v, w.(on := w.on - {r}, channels := w.channels[g := Freed(w.channels[g], c)]),
              v.(chns := v.chns[(g, c) := false]));
  }

  lemma ChnKnown(live: set<Ref>, on: set<Ref>, channels: map<int, Ids>, groups: set<int>, chns: map<(int, int), bool>,
                 g: int, c: int)
    requires ChnsAgree(live, on, channels, groups, chns) && VpssChannel(g, c) in live
    ensures g in groups && 0 <= c < VPSS_MAX_CHN_NUM && (g, c) in chns && (chns[(g, c)] <==> VpssChannel(g, c) in on)
  {
    hide Partition;
  }

  lemma GroupInRange(live: set<Ref>, on: set<Ref>, ids: Ids, groups: map<int, bool>, g: int)
    requires GroupsAgree(live, on, ids, groups) && g in groups
    ensures 0 <= g < VPSS_MAX_GRP_NUM
  {
    hide Partition;
  }

  lemma VpssChannelKnown(live: set<Ref>, w: Wrapper, s: State, g: int, c: int)
    requires Agree(live, w, ViewOf(s)) && Free(live, VpssChannel(g, c))
    ensures s.initialized && 0 <= g < VPSS_MAX_GRP_NUM && 0 <= c < VPSS_MAX_CHN_NUM
    ensures (g, c) in ViewOf(s).chns && (ViewOf(s).chns[(g, c)] <==> VpssChannel(g, c) in w.on)
    ensures ViewOf(s).chns == ChnsView(s.grps) && VpssChannel(g, c) in live
  {
    SysIsLive(live, w, s, VpssChannel(g, c));
    AgreeAt(OfGroups, live, w, ViewOf(s));
    AgreeAt(OfChns, live, w, ViewOf(s));
    hide Agree, Partition, ChnsView, ChnsAgree, GroupsAgree;
    ChnKnown(live, w.on, w.channels, ViewOf(s).groups.Keys, ViewOf(s).chns, g, c);
    GroupInRange(live, w.on, w.groups, ViewOf(s).groups, g);
  }

  lemma DisableAndFree(w: Wrapper, s: State, g: int, c: int)
    requires s.initialized && 0 <= g < VPSS_MAX_GRP_NUM && 0 <= c < VPSS_MAX_CHN_NUM && g in w.channels
    requires (g, c) in ViewOf(s).chns && (ViewOf(s).chns[(g, c)] <==> VpssChannel(g, c) in w.on)
    requires ViewOf(s).chns == ChnsView(s.grps)
    ensures var d := DropVpssChannel(w, s, g, c);
            && AllSucceed(d.codes)
            && d.w == w.(on := w.on - {VpssChannel(g, c)}, channels := w.channels[g := Freed(w.channels[g], c)])
            && ViewOf(d.s) == ViewOf(s).(chns := ViewOf(s).chns[(g, c) := false])
  {
    hide ViewOf, Freed, ChnsView, EnableVpssChn, DisableVpssChn;
    SwitchVpssChnView(s, g, c);
    assert !ViewOf(s).chns[(g, c)] ==> ViewOf(s).chns[(g, c) := false] == ViewOf(s).chns;
  }

  lemma VpssChannelGone(live: set<Ref>, w: Wrapper, s: State, g: int, c: int)
    requires Agree(live, w, ViewOf(s)) && Free(live, VpssChannel(g, c))
    ensures var d := DropVpssChannel(w, s, g, c);
            AllSucceed(d.codes) && Agree(live - {VpssChannel(g, c)}, d.w, ViewOf(d.s))
  {
    hide *;
    VpssChannelKnown(live, w, s, g, c);
    VpssChannelLeaves(live, w, ViewOf(s), g, c);
    DisableAndFree(w, s, g, c);
  }

  // ---------------------------------------------------------------- cameras

  lemma SysIsLive(live: set<Ref>, w: Wrapper, s: State, r: Ref)
    requires Agree(live, w, ViewOf(s)) && Free(live, r) && Sys in Needs(r)
    ensures s.initialized
  {
    AgreeAt(OfSys, live, w, ViewOf(s));
    hide Agree;
  }

  lemma CameraKnown(live: set<Ref>, w: Wrapper, s: State, d: int)
    requires Agree(live, w, ViewOf(s)) && Free(live, Camera(d))
    ensures s.initialized && d in CamsView(s.viDevs) && Camera(d) in live
    ensures CamsAgree(live, w.cameras, ViewOf(s).cams)
  {
    SysIsLive(live, w, s, Camera(d));
    AgreeAt(OfCams, live, w, ViewOf(s));
    hide Agree, CamsView, Partition, NeedsAlive;
  }

  lemma CameraLeaves(live: set<Ref>, w: Wrapper, v: View, d: int)
    requires Agree(live, w, v) && Camera(d) in live
    ensures 0 <= d < VI_MAX_DEV_NUM
    ensures Agree(live - {Camera(d)}, w.(cameras := Freed(w.cameras, d)), v.(cams := v.cams - {d}))
  {
    AgreeAt(OfCams, live, w, v);
    hide Agree, Freed, VencsAgree, StreamsAgree, BlocksAgree, BindsAgree, CamsAgree, VisAgree, ChnsAgree, GroupsAgree, PoolsAgree,
         SysAgrees;
    CamsWithout(live, w.cameras, v.cams, d);
    OneLeaves(OfCams, OfCams, live, Camera(d), w, v, w.(cameras := Freed(w.cameras, d)), v.(cams := v.cams - {d}));
  }

  lemma DisableAndRelease(w: Wrapper, s: State, d: int)
    requires s.initialized && d in CamsView(s.viDevs) && 0 <= d < VI_MAX_DEV_NUM
    ensures var x := DropCamera(w, s, d);
            && AllSucceed(x.codes) && x.w == w.(cameras := Freed(w.cameras, d))
            && ViewOf(x.s) == ViewOf(s).(cams := ViewOf(s).cams - {d})
  {
    hide ViewOf, DisableDev, CamsView, Freed;
    DisableDevView(s, d);
  }

  lemma CameraGone(live: set<Ref>, w: Wrapper, s: State, d: int)
    requires Agree(live, w, ViewOf(s)) && Free(live, Camera(d))
    ensures var x := DropCamera(w, s, d); AllSucceed(x.codes) && Agree(live - {Camera(d)}, x.w, ViewOf(x.s))
  {
    hide *;
    CameraKnown(live, w, s, d);
    CameraLeaves(live, w, ViewOf(s), d);
    DisableAndRelease(w, s, d);
  }

  lemma CamsWithout(live: set<Ref>, ids: Ids, cams: map<int, Option<seq<int>>>, d: int)
    requires CamsAgree(live, ids, cams) && Camera(d) in live
    ensures 0 <= d < VI_MAX_DEV_NUM && CamsAgree(live - {Camera(d)}, Freed(ids, d), cams - {d})
  {
    assert d in ids.busy by { assert d >= 0; }
    FreedIds(ids, VI_MAX_DEV_NUM, d);
    hide Freed, Partition;
  }

  lemma ViChannelGone(live: set<Ref>, w: Wrapper, s: State, p: int, c: int)
    requires Agree(live, w, ViewOf(s)) && Free(live, ViChannel(p, c))
    ensures var x := DropViChannel(w, s, p, c); AllSucceed(x.codes) && Agree(live - {ViChannel(p, c)}, x.w, ViewOf(x.s))
  {
    var r := ViChannel(p, c);
    SysIsLive(live, w, s, r);
    AgreeAt(OfVis, live, w, ViewOf(s));
    VisWithout(live, ViewOf(s).vis, p, c);
    assert (p, c) in VisView(s.viChns) by { hide VisView, Agree; }
    hide Agree, ViewOf, DisableViChn, CamsAgree, NeedsAlive, VencsAgree, GroupsAgree, ChnsAgree, VisAgree, BindsAgree,
         PoolsAgree, BlocksAgree, StreamsAgree, VisView;
    DisableViChnView(s, p, c);
    OneLeaves(OfVis, OfVis, live, r, w, ViewOf(s), w, ViewOf(DropViChannel(w, s, p, c).s));
  }

  lemma VisWithout(live: set<Ref>, vis: set<(int, int)>, p: int, c: int)
    requires VisAgree(live, vis) && ViChannel(p, c) in live
    ensures 0 <= p < VI_MAX_PIPE_NUM && 0 <= c < VI_MAX_CHN_NUM && VisAgree(live - {ViChannel(p, c)}, vis - {(p, c)})
  {
  }

  // ---------------------------------------------------------------- binds

  lemma BindingGone(live: set<Ref>, w: Wrapper, s: State, src: Chn, dst: Chn)
    requires Agree(live, w, ViewOf(s)) && Free(live, Binding(src, dst))
    ensures var x := DropBinding(w, s, src, dst);
            AllSucceed(x.codes) && Agree(live - {Binding(src, dst)}, x.w, ViewOf(x.s))
  {
    var r := Binding(src, dst);
    AgreeAt(OfBinds, live, w, ViewOf(s));
    BindsWithout(live, s.binds, src, dst);
    hide Agree, ViewOf, UnBind, CamsAgree, NeedsAlive, VencsAgree, GroupsAgree, ChnsAgree, VisAgree, BindsAgree,
         PoolsAgree, BlocksAgree, StreamsAgree;
    UnBindView(s, src, dst);
    OneLeaves(OfBinds, OfBinds, live, r, w, ViewOf(s), w, ViewOf(DropBinding(w, s, src, dst).s));
  }

  lemma BindsWithout(live: set<Ref>, binds: map<Chn, Chn>, src: Chn, dst: Chn)
    requires BindsAgree(live, binds) && Binding(src, dst) in live
    ensures Dst(dst) == dst && dst in binds && binds[dst] == src
    ensures BindsAgree(live - {Binding(src, dst)}, binds - {dst})
  {
  }

  // ---------------------------------------------------------------- memory

  /** A pool that nothing needs has all its blocks back. */
  lemma PoolIsFull(live: set<Ref>, s: State, id: nat)
    requires BlocksAgree(live, BlocksView(s.blocks)) && NeedsAlive(live - {MemPool(id)})
    ensures Pools.Tagged(s.blocks, id) == {}
  {
    forall mb | mb in s.blocks
      ensures s.blocks[mb].pool != Some(id)
    {
      var view := BlocksView(s.blocks);
      assert mb in view && view[mb] == s.blocks[mb].pool;
      var r :| r in live && OwnedBlock(r) == Some(mb);
      assert r in live - {MemPool(id)} && view[mb] == OwnedPool(r);
      assert r.Buffer? && r.pool == id ==> MemPool(id) in Needs(r);
    }
  }

  lemma PoolKnown(live: set<Ref>, w: Wrapper, s: State, id: nat)
    requires Agree(live, w, ViewOf(s)) && Free(live, MemPool(id)) && Pools.PoolsOk(s)
    ensures MemPool(id) in live && DestroyPool(s, id).1 == Success
  {
    AgreeAt(OfPools, live, w, ViewOf(s));
    AgreeAt(OfBlocks, live, w, ViewOf(s));
    PoolsInView(s);
    assert id in s.pools by { hide Agree, NeedsAlive, Pools.PoolsOk, ViewOf, BlocksAgree; }
    hide Agree, Pools.PoolsOk, BlocksAgree, NeedsAlive, PoolsAgree, DestroyPool;
    PoolIsFull(live, s, id);
    Pools.DestroyKeeps(s, id);
  }

  lemma PoolLeaves(live: set<Ref>, w: Wrapper, v: View, id: nat)
    requires Agree(live, w, v)
    ensures Agree(live - {MemPool(id)}, w, v.(pools := v.pools - {id}))
  {
    AgreeAt(OfPools, live, w, v);
    PoolsWithout(live, v.pools, id);
    hide Agree, VencsAgree, StreamsAgree, BlocksAgree, BindsAgree, CamsAgree, VisAgree, ChnsAgree, GroupsAgree, PoolsAgree,
         SysAgrees;
    OneLeaves(OfPools, OfPools, live, MemPool(id), w, v, w, v.(pools := v.pools - {id}));
  }

  lemma DestroyEmptied(w: Wrapper, s: State, id: nat)
    requires DestroyPool(s, id).1 == Success
    ensures var x := DropPool(w, s, id);
            AllSucceed(x.codes) && x.w == w && ViewOf(x.s) == ViewOf(s).(pools := ViewOf(s).pools - {id})
  {
    DestroyPoolView(s, id);
    hide ViewOf, DestroyPool;
  }

  lemma PoolGone(live: set<Ref>, w: Wrapper, s: State, id: nat)
    requires Agree(live, w, ViewOf(s)) && Free(live, MemPool(id)) && Pools.PoolsOk(s)
    ensures var x := DropPool(w, s, id); AllSucceed(x.codes) && Agree(live - {MemPool(id)}, x.w, ViewOf(x.s))
  {
    hide *;
    PoolKnown(live, w, s, id);
    PoolLeaves(live, w, ViewOf(s), id);
    DestroyEmptied(w, s, id);
  }

  lemma PoolsInView(s: State)
    ensures ViewOf(s).pools == s.pools.Keys
  {
  }

  lemma PoolsWithout(live: set<Ref>, pools: set<nat>, id: nat)
    requires PoolsAgree(live, pools)
    ensures PoolsAgree(live - {MemPool(id)}, pools - {id})
  {
  }

  /** With an owner its block goes, and no other's. */
  lemma BlocksWithout(live: set<Ref>, blocks: map<Handle, Option<nat>>, r: Ref, mb: Handle)
    requires BlocksAgree(live, blocks) && r in live && OwnedBlock(r) == Some(mb)
    ensures mb in blocks && BlocksAgree(live - {r}, blocks - {mb})
  {
    forall k | k in blocks - {mb}
      ensures exists q :: q in live - {r} && OwnedBlock(q) == Some(k)
    {
      var q :| q in live && OwnedBlock(q) == Some(k);
      assert q in live - {r};
    }
  }

  lemma BlockLeaves(live: set<Ref>, w: Wrapper, s: State, r: Ref, mb: Handle)
    requires Agree(live, w, ViewOf(s)) && r in live && OwnedBlock(r) == Some(mb) && !r.Stream?
    ensures mb in s.blocks && Agree(live - {r}, w, ViewOf(ReleaseBlock(s, mb).0))
  {
    AgreeAt(OfBlocks, live, w, ViewOf(s));
    BlocksWithout(live, ViewOf(s).blocks, r, mb);
    assert mb in s.blocks by { hide Agree; }
    hide Agree, ViewOf, ReleaseBlock, CamsAgree, VencsAgree, GroupsAgree, ChnsAgree, VisAgree, BindsAgree,
         PoolsAgree, BlocksAgree, StreamsAgree, BlocksView;
    ReleaseView(s, mb);
    OneLeaves(OfBlocks, OfBlocks, live, r, w, ViewOf(s), w, ViewOf(ReleaseBlock(s, mb).0));
  }

  lemma BufferGone(live: set<Ref>, w: Wrapper, s: State, mb: Handle, pool: nat)
    requires Agree(live, w, ViewOf(s)) && Buffer(mb, pool) in live
    ensures var x := DropBuffer(w, s, mb); AllSucceed(x.codes) && Agree(live - {Buffer(mb, pool)}, x.w, ViewOf(x.s))
  {
    hide Agree, ViewOf;
    BlockLeaves(live, w, s, Buffer(mb, pool), mb);
  }

  lemma FrameGone(live: set<Ref>, w: Wrapper, s: State, mb: Handle)
    requires Agree(live, w, ViewOf(s)) && References.VideoFrame(mb) in live
    ensures var x := DropFrame(w, s, mb); AllSucceed(x.codes) && Agree(live - {References.VideoFrame(mb)}, x.w, ViewOf(x.s))
  {
    hide Agree, ViewOf;
    BlockLeaves(live, w, s, References.VideoFrame(mb), mb);
  }

  lemma StreamsWithoutOne(live: set<Ref>, outstanding: map<int, nat>, mb: Handle, x: int)
    requires StreamsAgree(live, outstanding) && Stream(mb, x) in live && x in outstanding
    ensures outstanding[x] > 0 && StreamsAgree(live - {Stream(mb, x)}, outstanding[x := outstanding[x] - 1])
  {
    var r := Stream(mb, x);
    assert r in StreamsOf(live, x);
    forall k
      ensures StreamsOf(live - {r}, k) == if k == x then StreamsOf(live, k) - {r} else StreamsOf(live, k)
    {
    }
  }

  lemma StreamKnown(live: set<Ref>, w: Wrapper, s: State, mb: Handle, x: int)
    requires Agree(live, w, ViewOf(s)) && Free(live, Stream(mb, x))
    ensures s.initialized && x in s.vencs && 0 <= x < VENC_MAX_CHN_NUM && mb in s.blocks
    ensures x in ViewOf(s).outstanding && ViewOf(s).outstanding[x] == s.vencs[x].outstanding
    ensures ViewOf(s).outstanding.Keys == ViewOf(s).vencs.Keys
  {
    AgreeAt(OfSys, live, w, ViewOf(s));
    AgreeAt(OfVencs, live, w, ViewOf(s));
    AgreeAt(OfBlocks, live, w, ViewOf(s));
    AgreeAt(OfStreams, live, w, ViewOf(s));
    hide Agree, Partition, StreamsAgree;
    assert VencChannel(x) in live && Sys in live;
  }

  lemma StreamLeaves(live: set<Ref>, w: Wrapper, v: View, mb: Handle, x: int)
    requires Agree(live, w, v) && Stream(mb, x) in live && x in v.outstanding
    ensures v.outstanding[x] > 0
    ensures Agree(live - {Stream(mb, x)}, w,
                  v.(blocks := v.blocks - {mb}, outstanding := v.outstanding[x := v.outstanding[x] - 1]))
  {
    hide *;
    StreamPart(live, w, v, mb, x);
    var y := v.(blocks := v.blocks - {mb}, outstanding := v.outstanding[x := v.outstanding[x] - 1]);
    StreamElsewhere(w, v, y, Stream(mb, x));
    OneLeaves(OfBlocks, OfStreams, live, Stream(mb, x), w, v, w, y);
  }

  lemma StreamPart(live: set<Ref>, w: Wrapper, v: View, mb: Handle, x: int)
    requires Agree(live, w, v) && Stream(mb, x) in live && x in v.outstanding
    ensures v.outstanding[x] > 0
    ensures var y := v.(blocks := v.blocks - {mb}, outstanding := v.outstanding[x := v.outstanding[x] - 1]);
            AgreeOn(OfBlocks, live - {Stream(mb, x)}, w, y) && AgreeOn(OfStreams, live - {Stream(mb, x)}, w, y)
  {
    AgreeAt(OfBlocks, live, w, v);
    AgreeAt(OfStreams, live, w, v);
    hide Agree, StreamsAgree, BlocksAgree;
    BlocksWithout(live, v.blocks, Stream(mb, x), mb);
    StreamsWithoutOne(live, v.outstanding, mb, x);
  }

  lemma StreamElsewhere(w: Wrapper, v: View, y: View, r: Ref)
    requires r.Stream? && y == v.(blocks := y.blocks, outstanding := y.outstanding)
    ensures !Switchable(r)
    ensures forall t :: t != OfBlocks && t != OfStreams ==> SameTable(t, w, v, w, y) && !About(t, r)
  {
  }

  lemma ReleaseOutstanding(w: Wrapper, s: State, mb: Handle, x: int)
    requires s.initialized && 0 <= x < VENC_MAX_CHN_NUM && x in s.vencs && mb in s.blocks && s.vencs[x].outstanding > 0
    ensures var d := DropStream(w, s, mb, x);
            && AllSucceed(d.codes) && d.w == w
            && ViewOf(d.s) == ViewOf(s).(blocks := ViewOf(s).blocks - {mb},
                                         outstanding := ViewOf(s).outstanding[x := s.vencs[x].outstanding - 1])
  {
    ReleaseStreamView(s, x, mb);
    hide ViewOf, ReleaseStream;
  }

  /** Releasing a stream takes one from a count that is not zero. */
  lemma StreamGone(live: set<Ref>, w: Wrapper, s: State, mb: Handle, x: int)
    requires Agree(live, w, ViewOf(s)) && Free(live, Stream(mb, x))
    ensures var d := DropStream(w, s, mb, x); AllSucceed(d.codes) && Agree(live - {Stream(mb, x)}, d.w, ViewOf(d.s))
    ensures x in s.vencs && s.vencs[x].outstanding > 0
  {
    assert Stream(mb, x) in live;
    hide *;
    StreamKnown(live, w, s, mb, x);
    StreamLeaves(live, w, ViewOf(s), mb, x);
    ReleaseOutstanding(w, s, mb, x);
  }

  // ---------------------------------------------------------------- the system

  /** Nothing is left in the library: all its live counts are zero. */
  ghost predicate NothingLeft(v: View) {
    && v.vencs == map[] && v.outstanding == map[] && v.groups == map[] && v.chns == map[] && v.cams == map[]
    && v.vis == {} && v.binds == map[] && v.pools == {} && v.blocks == map[]
  }

  lemma NoVencs(live: set<Ref>, w: Wrapper, v: View)
    requires Agree(live, w, v) && live <= {Sys}
    ensures v.vencs == map[] && v.outstanding == map[]
  {
    AgreeAt(OfVencs, live, w, v);
    AgreeAt(OfStreams, live, w, v);
    hide Agree, Partition, StreamsAgree;
    forall x
      ensures x !in v.vencs
    {
      assert VencChannel(x) in live <==> x in v.vencs;
    }
  }

  lemma NoGroups(live: set<Ref>, w: Wrapper, v: View)
    requires Agree(live, w, v) && live <= {Sys}
    ensures v.groups == map[] && v.chns == map[]
  {
    AgreeAt(OfGroups, live, w, v);
    AgreeAt(OfChns, live, w, v);
    hide Agree, Partition;
    forall g
      ensures g !in v.groups
    {
      assert Group(g) in live <==> g in v.groups;
    }
    forall k: (int, int)
      ensures k !in v.chns
    {
      assert k == (k.0, k.1);
      assert VpssChannel(k.0, k.1) !in w.on;
      assert (k.0, k.1) in v.chns ==> k.0 in v.groups;
    }
  }

  lemma BindingsLive(live: set<Ref>, binds: map<Chn, Chn>)
    requires BindsAgree(live, binds)
    ensures forall dst :: dst in binds ==> Binding(binds[dst], dst) in live
  {
    hide Wired;
  }

  lemma ViChannelsLive(live: set<Ref>, vis: set<(int, int)>)
    requires VisAgree(live, vis)
    ensures forall k :: k in vis ==> ViChannel(k.0, k.1) in live
  {}

  lemma PoolsLive(live: set<Ref>, pools: set<nat>)
    requires PoolsAgree(live, pools)
    ensures forall id :: id in pools ==> MemPool(id) in live
  {}

  lemma NoCameras(live: set<Ref>, w: Wrapper, v: View)
    requires Agree(live, w, v) && live <= {Sys}
    ensures v.cams == map[] && v.vis == {} && v.binds == map[]
  {
    AgreeAt(OfCams, live, w, v);
    AgreeAt(OfVis, live, w, v);
    AgreeAt(OfBinds, live, w, v);
    hide Agree, Partition, BindsAgree, VisAgree;
    ViChannelsLive(live, v.vis);
    BindingsLive(live, v.binds);
    assert v.cams.Keys == {} && v.binds.Keys == {};
  }

  lemma NoMemory(live: set<Ref>, w: Wrapper, v: View)
    requires Agree(live, w, v) && live <= {Sys}
    ensures v.pools == {} && v.blocks == map[]
  {
    AgreeAt(OfPools, live, w, v);
    AgreeAt(OfBlocks, live, w, v);
    hide Agree, PoolsAgree;
    PoolsLive(live, v.pools);
    assert v.blocks.Keys == {};
  }

  lemma NothingNative(live: set<Ref>, w: Wrapper, v: View)
    requires Agree(live, w, v) && live <= {Sys}
    ensures NothingLeft(v)
  {
    hide Agree;
    NoVencs(live, w, v);
    NoGroups(live, w, v);
    NoCameras(live, w, v);
    NoMemory(live, w, v);
  }

  lemma OnlySys(live: set<Ref>)
    requires Free(live, Sys)
    ensures live == {Sys}
  {
    forall r
      ensures r !in live - {Sys}
    {
      assert r != Sys ==> Sys in Needs(r);
    }
    assert live - {Sys} == {};
  }

  lemma NoneOrphaned(blocks: map<Handle, Block>)
    requires blocks == map[]
    ensures Orphaned(blocks) == map[]
  {}

  lemma NoBlocksLeft(s: State)
    requires NothingLeft(ViewOf(s))
    ensures s.blocks == map[]
  {
    hide VencsView, OutstandingView, GroupsView, ChnsView, CamsView, VisView;
    assert s.blocks.Keys == BlocksView(s.blocks).Keys;
  }

  lemma ExitEmpties(s: State, now: nat)
    requires s.blocks == map[]
    ensures var t := Exit(s, now).0;
            && t.vencs == map[] && t.grps == map[] && t.viDevs == map[] && t.viChns == map[] && t.blocks == map[]
            && t.binds == map[] && t.pools.Keys == {} && !t.initialized
  {
    NoneOrphaned(s.blocks);
    hide Orphaned;
  }

  lemma ExitView(s: State, now: nat)
    requires NothingLeft(ViewOf(s))
    ensures ViewOf(Exit(s, now).0) == ViewOf(s).(initialized := false)
  {
    NoBlocksLeft(s);
    hide ViewOf, Exit;
    ExitEmpties(s, now);
    EmptyView(Exit(s, now).0);
  }

  lemma ExitSucceeds(w: Wrapper, s: State, now: nat)
    ensures var d := DropSys(w, s, now);
            AllSucceed(d.codes) && d.w == w.(mpiInit := false) && d.s == Exit(s, now).0
  {
    hide Orphaned;
  }

  /** The library exits last: when the last reference to the system goes there is nothing
      else alive, and nothing left in the library. */
  lemma SysGone(live: set<Ref>, w: Wrapper, s: State, now: nat)
    requires Agree(live, w, ViewOf(s)) && Free(live, Sys)
    ensures live == {Sys} && NothingLeft(ViewOf(s))
    ensures var d := DropSys(w, s, now); AllSucceed(d.codes) && Agree({}, d.w, ViewOf(d.s))
  {
    hide *;
    OnlySys(live);
    NothingNative(live, w, ViewOf(s));
    ExitView(s, now);
    ExitSucceeds(w, s, now);
    EmptyAgree(live, w, ViewOf(s), w.(mpiInit := false), ViewOf(Exit(s, now).0));
  }

  lemma EmptyAgree(live: set<Ref>, w: Wrapper, v: View, x: Wrapper, y: View)
    requires Agree(live, w, v) && live == {Sys} && x == w.(mpiInit := false) && y == v.(initialized := false)
    ensures Agree({}, x, y)
  {
    assert w.on == {};
    forall t
      ensures AgreeOn(t, {}, x, y)
    {
      hide AgreeOn;
      if t != OfSys {
        StillAgree(t, live, w, v, {}, x, y);
      } else {
        assert AgreeOn(OfSys, {}, x, y) by { assert SysAgrees({}, x, y); }
      }
    }
  }
}
