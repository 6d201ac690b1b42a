/** How the agreement between wrapper and library grows with new objects and switches. */
module Joins {
  import opened Bytes
  import opened Mpi
  import opened References
  import opened Resources
  import opened Teardown
  import opened Views

  /** One object comes, goes or is switched; no table but `a` and `b` is concerned. */
  lemma OneChanges(a: Table, b: Table, live: set<Ref>, now: set<Ref>, r: Ref, w: Wrapper, v: View, x: Wrapper, y: View)
    requires Agree(live, w, v)
    requires forall q :: q != r ==> (q in live <==> q in now) && (q in w.on <==> q in x.on)
    requires r in x.on ==> r in now && Switchable(r)
    requires forall t :: t != a && t != b ==> SameTable(t, w, v, x, y) && !About(t, r)
    requires AgreeOn(a, now, x, y) && AgreeOn(b, now, x, y)
    ensures Agree(now, x, y)
  {
    hide AgreeOn, About, SameTable, Switchable;
    forall t
      ensures AgreeOn(t, now, x, y)
    {
      if t != a && t != b {
        AgreeAt(t, live, w, v);
        assert forall q :: About(t, q) ==> q != r;
        StillAgree(t, live, w, v, now, x, y);
      }
    }
    assert forall q :: q in x.on ==> q == r || q in w.on;
  }

  /** Nothing but one object is created, dropped or switched. */
  ghost predicate OnlyAbout(r: Ref, live: set<Ref>, now: set<Ref>, on: set<Ref>, on': set<Ref>) {
    && (forall q :: q != r ==> (q in live <==> q in now) && (q in on <==> q in on'))
    && (r in on' ==> r in now && Switchable(r))
  }

  lemma VencsChange(live: set<Ref>, now: set<Ref>, r: Ref, w: Wrapper, v: View, x: Wrapper, y: View)
    requires Agree(live, w, v) && r.VencChannel? && OnlyAbout(r, live, now, w.on, x.on)
    requires x == w.(on := x.on, vencs := x.vencs) && y == v.(vencs := y.vencs, outstanding := y.outstanding)
    requires VencsAgree(now, x.on, x.vencs, y.vencs)
    requires StreamsAgree(now, y.outstanding) && y.outstanding.Keys == y.vencs.Keys
    ensures Agree(now, x, y)
  {
    hide Agree, SysAgrees, VencsAgree, GroupsAgree, ChnsAgree, CamsAgree, VisAgree, BindsAgree, PoolsAgree, BlocksAgree, StreamsAgree;
    OneChanges(OfVencs, OfStreams, live, now, r, w, v, x, y);
  }

  lemma GroupsChange(live: set<Ref>, now: set<Ref>, r: Ref, w: Wrapper, v: View, x: Wrapper, y: View)
    requires Agree(live, w, v) && r.Group? && OnlyAbout(r, live, now, w.on, x.on)
    requires x == w.(on := x.on, groups := x.groups, channels := x.channels) && y == v.(groups := y.groups, chns := y.chns)
    requires GroupsAgree(now, x.on, x.groups, y.groups)
    requires ChnsAgree(now, x.on, x.channels, y.groups.Keys, y.chns)
    ensures Agree(now, x, y)
  {
    hide Agree, SysAgrees, VencsAgree, GroupsAgree, ChnsAgree, CamsAgree, VisAgree, BindsAgree, PoolsAgree, BlocksAgree, StreamsAgree;
    OneChanges(OfGroups, OfChns, live, now, r, w, v, x, y);
  }

  lemma ChnsChange(live: set<Ref>, now: set<Ref>, r: Ref, w: Wrapper, v: View, x: Wrapper, y: View)
    requires Agree(live, w, v) && r.VpssChannel? && OnlyAbout(r, live, now, w.on, x.on)
    requires x == w.(on := x.on, channels := x.channels) && y == v.(chns := y.chns)
    requires ChnsAgree(now, x.on, x.channels, y.groups.Keys, y.chns)
    ensures Agree(now, x, y)
  {
    hide Agree, SysAgrees, VencsAgree, GroupsAgree, ChnsAgree, CamsAgree, VisAgree, BindsAgree, PoolsAgree, BlocksAgree, StreamsAgree;
    OneChanges(OfChns, OfChns, live, now, r, w, v, x, y);
  }

  // ---------------------------------------------------------------- new objects

  lemma JoinCamera(live: set<Ref>, w: Wrapper, v: View, d: nat)
    requires Agree(live, w, v) && AcquiredSpecific(w.cameras, d).Some?
    ensures Camera(d) !in live && d !in v.cams && d < VI_MAX_DEV_NUM
    ensures Agree(live + {Camera(d)}, w.(cameras := AcquiredSpecific(w.cameras, d).value), v.(cams := v.cams[d := Some([d])]))
  {
    AgreeAt(OfCams, live, w, v);
    hide Agree, AcquiredSpecific, CamsAgree, SysAgrees, VencsAgree, GroupsAgree, ChnsAgree, VisAgree, BindsAgree, PoolsAgree,
         BlocksAgree, StreamsAgree, Partition;
    CamsWith(live, w.cameras, v.cams, d);
    OneChanges(OfCams, OfCams, live, live + {Camera(d)}, Camera(d), w, v,
               w.(cameras := AcquiredSpecific(w.cameras, d).value), v.(cams := v.cams[d := Some([d])]));
  }

  lemma CamsWith(live: set<Ref>, ids: Ids, cams: map<int, Option<seq<int>>>, d: nat)
    requires CamsAgree(live, ids, cams) && AcquiredSpecific(ids, d).Some?
    ensures Camera(d) !in live && d !in cams && d < VI_MAX_DEV_NUM
    ensures CamsAgree(live + {Camera(d)}, AcquiredSpecific(ids, d).value, cams[d := Some([d])])
  {
    AcquireSpecificTakes(ids, VI_MAX_DEV_NUM, d);
    hide AcquiredSpecific, Partition;
  }

  lemma JoinViChannel(live: set<Ref>, w: Wrapper, v: View, p: int, c: int)
    requires Agree(live, w, v) && 0 <= p < VI_MAX_PIPE_NUM && 0 <= c < VI_MAX_CHN_NUM
    ensures Agree(live + {ViChannel(p, c)}, w, v.(vis := v.vis + {(p, c)}))
  {
    AgreeAt(OfVis, live, w, v);
    assert VisAgree(live + {ViChannel(p, c)}, v.vis + {(p, c)});
    hide Agree, CamsAgree, SysAgrees, VencsAgree, GroupsAgree, ChnsAgree, VisAgree, BindsAgree, PoolsAgree,
         BlocksAgree, StreamsAgree;
    OneChanges(OfVis, OfVis, live, live + {ViChannel(p, c)}, ViChannel(p, c), w, v, w, v.(vis := v.vis + {(p, c)}));
  }

  /** `ids` is what is left after `x` has been taken. */
  ghost predicate Took(was: Ids, ids: Ids, capacity: nat, x: nat) {
    Partition(ids, capacity) && x < capacity && x !in was.busy && ids.busy == was.busy + {x}
  }

  lemma StreamsWithVenc(live: set<Ref>, outstanding: map<int, nat>, x: int)
    requires StreamsAgree(live, outstanding) && NeedsAlive(live) && VencChannel(x) !in live
    ensures StreamsAgree(live + {VencChannel(x)}, outstanding[x := 0])
  {
    forall r | r in live && r.Stream?
      ensures r.id != x
    {
      assert VencChannel(r.id) in Needs(r);
    }
    assert StreamsOf(live + {VencChannel(x)}, x) == {};
    assert forall k :: k != x ==> StreamsOf(live + {VencChannel(x)}, k) == StreamsOf(live, k);
  }

  lemma VencsWith(live: set<Ref>, on: set<Ref>, was: Ids, ids: Ids, vencs: map<int, bool>, x: nat)
    requires VencsAgree(live, on, was, vencs) && on <= live && Took(was, ids, VENC_MAX_CHN_NUM, x)
    ensures VencChannel(x) !in live && x !in vencs
    ensures VencsAgree(live + {VencChannel(x)}, on, ids, vencs[x := false])
  {
    hide Partition;
  }

  /** A fresh identifier names no encoder channel of the library. */
  lemma JoinVenc(live: set<Ref>, w: Wrapper, v: View, x: nat, ids: Ids)
    requires Agree(live, w, v) && NeedsAlive(live) && Took(w.vencs, ids, VENC_MAX_CHN_NUM, x)
    ensures x !in v.vencs
    ensures Agree(live + {VencChannel(x)}, w.(vencs := ids),
                  v.(vencs := v.vencs[x := false], outstanding := v.outstanding[x := 0]))
    ensures Agree(live, w.(vencs := Freed(ids, x)), v)
  {
    VencTables(live, w, v);
    VencsWith(live, w.on, w.vencs, ids, v.vencs, x);
    VencsBack(live, w.on, w.vencs, ids, v.vencs, x);
    StreamsWithVenc(live, v.outstanding, x);
    hide *;
    var r := VencChannel(x);
    Adding(live, r, w.on);
    VencsChange(live, live + {r}, r, w, v, w.(vencs := ids), v.(vencs := v.vencs[x := false], outstanding := v.outstanding[x := 0]));
    VencsChange(live, live, r, w, v, w.(vencs := Freed(ids, x)), v);
  }

  lemma Adding(live: set<Ref>, r: Ref, on: set<Ref>)
    requires r !in live && on <= live
    ensures OnlyAbout(r, live, live + {r}, on, on) && OnlyAbout(r, live, live, on, on)
  {
  }

  lemma Switching(live: set<Ref>, r: Ref, on: set<Ref>)
    requires r in live && Switchable(r)
    ensures OnlyAbout(r, live, live, on, on + {r}) && OnlyAbout(r, live, live, on, on - {r})
  {
  }

  lemma VencTables(live: set<Ref>, w: Wrapper, v: View)
    requires Agree(live, w, v)
    ensures VencsAgree(live, w.on, w.vencs, v.vencs) && w.on <= live
    ensures StreamsAgree(live, v.outstanding) && v.outstanding.Keys == v.vencs.Keys
  {
    AgreeAt(OfVencs, live, w, v);
    AgreeAt(OfStreams, live, w, v);
    hide Agree, VencsAgree, StreamsAgree;
  }

  lemma GroupTables(live: set<Ref>, w: Wrapper, v: View)
    requires Agree(live, w, v)
    ensures GroupsAgree(live, w.on, w.groups, v.groups) && w.on <= live
    ensures ChnsAgree(live, w.on, w.channels, v.groups.Keys, v.chns)
  {
    AgreeAt(OfGroups, live, w, v);
    AgreeAt(OfChns, live, w, v);
    hide Agree, GroupsAgree, ChnsAgree;
  }

  lemma VencsBack(live: set<Ref>, on: set<Ref>, was: Ids, ids: Ids, vencs: map<int, bool>, x: nat)
    requires VencsAgree(live, on, was, vencs) && Took(was, ids, VENC_MAX_CHN_NUM, x)
    ensures VencsAgree(live, on, Freed(ids, x), vencs)
  {
    FreedIds(ids, VENC_MAX_CHN_NUM, x);
    hide Partition, Freed;
  }

  lemma GroupsWith(live: set<Ref>, on: set<Ref>, was: Ids, ids: Ids, groups: map<int, bool>, g: nat)
    requires GroupsAgree(live, on, was, groups) && on <= live && Took(was, ids, VPSS_MAX_GRP_NUM, g)
    ensures Group(g) !in live && g !in groups
    ensures GroupsAgree(live + {Group(g)}, on, ids, groups[g := false])
  {
    hide Partition;
  }

  lemma ChnsWithGroup(live: set<Ref>, on: set<Ref>, channels: map<int, Ids>, groups: set<int>, chns: map<(int, int), bool>, g: nat)
    requires ChnsAgree(live, on, channels, groups, chns) && NeedsAlive(live) && Group(g) !in live && g !in groups
    ensures ChnsAgree(live + {Group(g)}, on, channels[g := NewIds(VPSS_MAX_CHN_NUM)], groups + {g}, chns)
  {
    forall c
      ensures VpssChannel(g, c) !in live
    {
      assert Group(g) in Needs(VpssChannel(g, c));
    }
    NewIsPartition(VPSS_MAX_CHN_NUM);
    hide Partition, NeedsAlive;
  }

  lemma NewIsPartition(capacity: nat)
    ensures Partition(NewIds(capacity), capacity) && NewIds(capacity).busy == {}
  {
    assert Upto(capacity) + {} == Upto(capacity);
  }

  lemma GroupAdds(live: set<Ref>, w: Wrapper, v: View, g: nat, ids: Ids, channels: map<int, Ids>)
    requires Agree(live, w, v) && Group(g) !in live && w.on <= live
    requires GroupsAgree(live + {Group(g)}, w.on, ids, v.groups[g := false])
    requires ChnsAgree(live + {Group(g)}, w.on, channels, v.groups.Keys + {g}, v.chns)
    ensures Agree(live + {Group(g)}, w.(groups := ids, channels := channels), v.(groups := v.groups[g := false]))
  {
    hide *;
    var r := Group(g);
    Adding(live, r, w.on);
    assert v.groups[g := false].Keys == v.groups.Keys + {g};
    GroupsChange(live, live + {r}, r, w, v, w.(groups := ids, channels := channels), v.(groups := v.groups[g := false]));
  }

  lemma JoinGroup(live: set<Ref>, w: Wrapper, v: View, g: nat, ids: Ids)
    requires Agree(live, w, v) && NeedsAlive(live) && Took(w.groups, ids, VPSS_MAX_GRP_NUM, g)
    ensures g !in v.groups
    ensures Agree(live + {Group(g)}, w.(groups := ids, channels := w.channels[g := NewIds(VPSS_MAX_CHN_NUM)]),
                  v.(groups := v.groups[g := false]))
  {
    hide Agree, NeedsAlive, Took, GroupsAgree, ChnsAgree, NewIds;
    GroupTables(live, w, v);
    GroupsWith(live, w.on, w.groups, ids, v.groups, g);
    ChnsWithGroup(live, w.on, w.channels, v.groups.Keys, v.chns, g);
    GroupAdds(live, w, v, g, ids, w.channels[g := NewIds(VPSS_MAX_CHN_NUM)]);
  }

  lemma ChnsWithChn(live: set<Ref>, on: set<Ref>, channels: map<int, Ids>, groups: set<int>, chns: map<(int, int), bool>,
                    g: int, c: nat, ids: Ids)
    requires ChnsAgree(live, on, channels, groups, chns) && on <= live
    requires g in groups && g in channels && Took(channels[g], ids, VPSS_MAX_CHN_NUM, c)
    ensures VpssChannel(g, c) !in live && ((g, c) in chns ==> !chns[(g, c)])
    ensures ChnsAgree(live + {VpssChannel(g, c)}, on, channels[g := ids], groups, chns[(g, c) := false])
  {
    hide Partition;
  }

  lemma ChnsBack(live: set<Ref>, on: set<Ref>, channels: map<int, Ids>, groups: set<int>, chns: map<(int, int), bool>,
                 g: int, c: nat, ids: Ids)
    requires ChnsAgree(live, on, channels, groups, chns)
    requires g in groups && g in channels && Took(channels[g], ids, VPSS_MAX_CHN_NUM, c)
    ensures ChnsAgree(live, on, channels[g := Freed(ids, c)], groups, chns)
  {
    FreedIds(ids, VPSS_MAX_CHN_NUM, c);
    hide Partition, Freed;
  }

  lemma JoinVpssChannel(live: set<Ref>, w: Wrapper, v: View, g: int, c: nat, ids: Ids)
    requires Agree(live, w, v) && g in v.groups && g in w.channels && Took(w.channels[g], ids, VPSS_MAX_CHN_NUM, c)
    ensures (g, c) in v.chns ==> !v.chns[(g, c)]
    ensures Agree(live + {VpssChannel(g, c)}, w.(channels := w.channels[g := ids]), v.(chns := v.chns[(g, c) := false]))
    ensures Agree(live, w.(channels := w.channels[g := Freed(ids, c)]), v)
  {
    GroupTables(live, w, v);
    ChnsWithChn(live, w.on, w.channels, v.groups.Keys, v.chns, g, c, ids);
    ChnsBack(live, w.on, w.channels, v.groups.Keys, v.chns, g, c, ids);
    hide *;
    var r := VpssChannel(g, c);
    Adding(live, r, w.on);
    ChnsChange(live, live + {r}, r, w, v, w.(channels := w.channels[g := ids]), v.(chns := v.chns[(g, c) := false]));
    ChnsChange(live, live, r, w, v, w.(channels := w.channels[g := Freed(ids, c)]), v);
  }

  lemma JoinBinding(live: set<Ref>, w: Wrapper, v: View, src: Chn, dst: Chn)
    requires Agree(live, w, v) && dst !in v.binds && Wired(src, dst)
    ensures Agree(live + {Binding(src, dst)}, w, v.(binds := v.binds[dst := src]))
  {
    AgreeAt(OfBinds, live, w, v);
    assert BindsAgree(live + {Binding(src, dst)}, v.binds[dst := src]) by { hide Wired; }
    hide Agree, CamsAgree, SysAgrees, VencsAgree, GroupsAgree, ChnsAgree, VisAgree, BindsAgree, PoolsAgree,
         BlocksAgree, StreamsAgree;
    OneChanges(OfBinds, OfBinds, live, live + {Binding(src, dst)}, Binding(src, dst), w, v, w, v.(binds := v.binds[dst := src]));
  }

  lemma JoinPool(live: set<Ref>, w: Wrapper, v: View, id: nat)
    requires Agree(live, w, v)
    ensures Agree(live + {MemPool(id)}, w, v.(pools := v.pools + {id}))
  {
    AgreeAt(OfPools, live, w, v);
    assert PoolsAgree(live + {MemPool(id)}, v.pools + {id});
    hide Agree, CamsAgree, SysAgrees, VencsAgree, GroupsAgree, ChnsAgree, VisAgree, BindsAgree, PoolsAgree,
         BlocksAgree, StreamsAgree;
    OneChanges(OfPools, OfPools, live, live + {MemPool(id)}, MemPool(id), w, v, w, v.(pools := v.pools + {id}));
  }

  lemma BlocksWith(live: set<Ref>, blocks: map<Handle, Option<nat>>, r: Ref, mb: Handle)
    requires BlocksAgree(live, blocks) && mb !in blocks && OwnedBlock(r) == Some(mb)
    ensures BlocksAgree(live + {r}, blocks[mb := OwnedPool(r)])
  {
    var all := live + {r};
    forall k | k in blocks[mb := OwnedPool(r)]
      ensures exists q :: q in all && OwnedBlock(q) == Some(k)
    {
      if k == mb {
        assert r in all;
      } else {
        var q :| q in live && OwnedBlock(q) == Some(k);
        assert q in all;
      }
    }
  }

  lemma JoinBlock(live: set<Ref>, w: Wrapper, v: View, r: Ref, mb: Handle)
    requires Agree(live, w, v) && mb !in v.blocks && OwnedBlock(r) == Some(mb) && !r.Stream?
    ensures Agree(live + {r}, w, v.(blocks := v.blocks[mb := OwnedPool(r)]))
  {
    AgreeAt(OfBlocks, live, w, v);
    BlocksWith(live, v.blocks, r, mb);
    hide Agree, CamsAgree, SysAgrees, VencsAgree, GroupsAgree, ChnsAgree, VisAgree, BindsAgree, PoolsAgree,
         BlocksAgree, StreamsAgree;
    OneChanges(OfBlocks, OfBlocks, live, live + {r}, r, w, v, w, v.(blocks := v.blocks[mb := OwnedPool(r)]));
  }

  lemma StreamsWithOne(live: set<Ref>, outstanding: map<int, nat>, mb: Handle, x: int)
    requires StreamsAgree(live, outstanding) && x in outstanding && Stream(mb, x) !in live
    ensures StreamsAgree(live + {Stream(mb, x)}, outstanding[x := outstanding[x] + 1])
  {
    var r := Stream(mb, x);
    forall k
      ensures StreamsOf(live + {r}, k) == if k == x then StreamsOf(live, k) + {r} else StreamsOf(live, k)
    {
    }
    assert r !in StreamsOf(live, x);
  }

  lemma NotOwned(live: set<Ref>, blocks: map<Handle, Option<nat>>, r: Ref, mb: Handle)
    requires BlocksAgree(live, blocks) && OwnedBlock(r) == Some(mb) && mb !in blocks
    ensures r !in live
  {
  }

  lemma JoinStream(live: set<Ref>, w: Wrapper, v: View, mb: Handle, x: int)
    requires Agree(live, w, v) && mb !in v.blocks && x in v.outstanding
    ensures Agree(live + {Stream(mb, x)}, w,
                  v.(blocks := v.blocks[mb := None], outstanding := v.outstanding[x := v.outstanding[x] + 1]))
  {
    var r := Stream(mb, x);
    AgreeAt(OfBlocks, live, w, v);
    AgreeAt(OfStreams, live, w, v);
    NotOwned(live, v.blocks, r, mb);
    BlocksWith(live, v.blocks, r, mb);
    hide Agree, CamsAgree, SysAgrees, VencsAgree, GroupsAgree, ChnsAgree, VisAgree, BindsAgree, PoolsAgree,
         BlocksAgree, StreamsAgree;
    StreamsWithOne(live, v.outstanding, mb, x);
    OneChanges(OfBlocks, OfStreams, live, live + {r}, r, w, v, w,
               v.(blocks := v.blocks[mb := None], outstanding := v.outstanding[x := v.outstanding[x] + 1]));
  }

  // ---------------------------------------------------------------- switches

  lemma VencsSwitched(live: set<Ref>, on: set<Ref>, ids: Ids, vencs: map<int, bool>, x: int)
    requires VencsAgree(live, on, ids, vencs) && VencChannel(x) in live
    ensures x in vencs && VencsAgree(live, on + {VencChannel(x)}, ids, vencs[x := true])
  {
    hide Partition;
  }

  lemma SwitchVenc(live: set<Ref>, w: Wrapper, v: View, x: int)
    requires Agree(live, w, v) && VencChannel(x) in live
    ensures x in v.vencs && Agree(live, w.(on := w.on + {VencChannel(x)}), v.(vencs := v.vencs[x := true]))
  {
    var r := VencChannel(x);
    Switching(live, r, w.on);
    VencTables(live, w, v);
    VencsSwitched(live, w.on, w.vencs, v.vencs, x);
    hide *;
    assert v.vencs[x := true].Keys == v.vencs.Keys;
    VencsChange(live, live, r, w, v, w.(on := w.on + {r}), v.(vencs := v.vencs[x := true]));
  }

  lemma GroupsSwitched(live: set<Ref>, on: set<Ref>, ids: Ids, groups: map<int, bool>, g: int)
    requires GroupsAgree(live, on, ids, groups) && Group(g) in live
    ensures g in groups && GroupsAgree(live, on + {Group(g)}, ids, groups[g := true])
  {
    hide Partition;
  }

  lemma ChnsIgnoreGroup(live: set<Ref>, on: set<Ref>, channels: map<int, Ids>, groups: set<int>, chns: map<(int, int), bool>, g: int)
    requires ChnsAgree(live, on, channels, groups, chns)
    ensures ChnsAgree(live, on + {Group(g)}, channels, groups, chns)
  {
    hide Partition;
  }

  lemma SwitchGroup(live: set<Ref>, w: Wrapper, v: View, g: int)
    requires Agree(live, w, v) && Group(g) in live
    ensures g in v.groups && Agree(live, w.(on := w.on + {Group(g)}), v.(groups := v.groups[g := true]))
  {
    var r := Group(g);
    Switching(live, r, w.on);
    GroupTables(live, w, v);
    GroupsSwitched(live, w.on, w.groups, v.groups, g);
    ChnsIgnoreGroup(live, w.on, w.channels, v.groups.Keys, v.chns, g);
    hide *;
    assert v.groups[g := true].Keys == v.groups.Keys;
    GroupsChange(live, live, r, w, v, w.(on := w.on + {r}), v.(groups := v.groups[g := true]));
  }

  lemma ChnsSwitched(live: set<Ref>, was: set<Ref>, channels: map<int, Ids>, groups: set<int>, chns: map<(int, int), bool>,
                     g: int, c: int, on: bool)
    requires ChnsAgree(live, was, channels, groups, chns) && VpssChannel(g, c) in live
    ensures ChnsAgree(live, if on then was + {VpssChannel(g, c)} else was - {VpssChannel(g, c)}, channels, groups,
                      chns[(g, c) := on])
  {
    hide Partition;
  }

  lemma SwitchVpss(live: set<Ref>, w: Wrapper, v: View, g: int, c: int, on: bool)
    requires Agree(live, w, v) && VpssChannel(g, c) in live
    ensures var r := VpssChannel(g, c);
            Agree(live, w.(on := if on then w.on + {r} else w.on - {r}), v.(chns := v.chns[(g, c) := on]))
  {
    var r := VpssChannel(g, c);
    Switching(live, r, w.on);
    GroupTables(live, w, v);
    ChnsSwitched(live, w.on, w.channels, v.groups.Keys, v.chns, g, c, on);
    hide *;
    ChnsChange(live, live, r, w, v, w.(on := if on then w.on + {r} else w.on - {r}), v.(chns := v.chns[(g, c) := on]));
  }
}
