/** What the wrapper gets when it asks for something that is free. */
module OwnedWorks {
  import opened Acceptance
  import opened Bytes
  import opened Images
  import opened Joins
  import opened Mpi
  import opened Owned
  import opened OwnedSound
  import opened References
  import opened Resources
  import opened Teardown
  import opened Views
  import Flow
  import Invariants

  /** A camera whose identifier is free always comes up: its device is enabled and owns the
      pipe of the same number. */
  lemma CameraWorks(x: World, id: nat)
    requires Sound(x) && Sys in x.w.strong && id in x.w.cameras.available
    ensures var y := NewCamera(x, id);
            && y.w.handles == x.w.handles + [[Camera(id), Sys]] && id !in y.w.cameras.available && id in y.w.cameras.busy
            && id in y.s.viDevs && y.s.viDevs[id].enabled && y.s.viDevs[id].pipes == Some([id])
  {
    CameraComesUp(x, id);
    hide Sound, Agree, NewCamera, ViewOf, Invariants.Inv;
    EnabledIn(NewCamera(x, id).s, ViewOf(x.s), id);
  }

  lemma EnabledIn(s: State, v: View, id: nat)
    requires ViewOf(s) == v.(cams := v.cams[id := Some([id])])
    ensures id in s.viDevs && s.viDevs[id].enabled && s.viDevs[id].pipes == Some([id])
  {
    hide VencsView, OutstandingView, GroupsView, ChnsView, VisView, BlocksView;
    assert id in CamsView(s.viDevs) && CamsView(s.viDevs)[id] == Some([id]);
  }

  /** An encoder that the library can make is made under an identifier that is free, the one
      that is asked for or else the least, and is as it was asked to be. */
  lemma EncoderWorks(x: World, id: nat, cfg: VencConfig)
    requires Sound(x) && Sys in x.w.strong && id in x.w.vencs.available
    requires Known(cfg.format) && cfg.width > 0 && cfg.height > 0
    ensures Made(x, NewVencAt(x, id, cfg), id, cfg)
    ensures (forall k :: k in x.w.vencs.available ==> id <= k) ==> NewVenc(x, cfg) == NewVencAt(x, id, cfg)
  {
    hide *;
    FreeIsNew(x, id);
    MadeAt(x, id, cfg);
    if forall k :: k in x.w.vencs.available ==> id <= k {
      LeastIsAsked(x, id, cfg);
    }
  }

  lemma MadeAt(x: World, id: nat, cfg: VencConfig)
    requires Sys in x.w.strong && x.s.initialized && 0 <= id < 64 && id !in x.s.vencs && id in x.w.vencs.available
    requires Known(cfg.format) && cfg.width > 0 && cfg.height > 0
    ensures Made(x, NewVencAt(x, id, cfg), id, cfg)
  {
    hide Gain;
  }

  lemma LeastIsAsked(x: World, id: nat, cfg: VencConfig)
    requires Sys in x.w.strong && id in x.w.vencs.available && forall k :: k in x.w.vencs.available ==> id <= k
    ensures NewVenc(x, cfg) == NewVencAt(x, id, cfg)
  {
    LeastIsOne(x.w.vencs.available, id);
    hide VencWith;
  }

  ghost predicate Made(x: World, y: World, id: nat, cfg: VencConfig) {
    && y.w.handles == x.w.handles + [[VencChannel(id), Sys]] && id !in y.w.vencs.available && id in y.w.vencs.busy
    && id in y.s.vencs
    && var c := y.s.vencs[id];
       && c.stream.codec == cfg.codec && c.stream.width == cfg.width && c.stream.height == cfg.height
       && c.stream.gop == (if cfg.gop == 0 then 30 else cfg.gop) && c.clip == cfg.clip
       && !c.started && c.number == 0 && c.outstanding == 0 && c.queue == []
  }

  lemma FreeIsNew(x: World, id: nat)
    requires Sound(x) && Sys in x.w.strong && id in x.w.vencs.available
    ensures x.s.initialized && 0 <= id < 64 && id !in x.s.vencs
  {
    SoundParts(x);
    IdsArePartitions(x);
    SpecificTook(x.w.vencs, VENC_MAX_CHN_NUM, id);
    JoinVenc(x.w.strong.Keys, x.w, ViewOf(x.s), id, AcquiredSpecific(x.w.vencs, id).value);
    VencsInView(x.s);
    hide Sound, Agree, Invariants.Inv, ViewOf, Partition;
  }

  /** A bind that is made takes the source from its pipe or group and channel to the input of
      the group or encoder, under the numbers that their handles have. */
  lemma BindWorks(x: World, i: nat, j: nat)
    requires NewBind(x, i, j).w.handles != x.w.handles
    ensures var (y, sink, source) := (NewBind(x, i, j), Fields(x, i)[0], Fields(x, j)[0]);
            && Fields(x, i) != [] && Fields(x, j) != []
            && (sink.Group? || sink.VencChannel?) && (source.ViChannel? || source.VpssChannel?)
            && var key := if sink.Group? then Chn(Vpss, sink.id, 0) else Chn(Venc, 0, sink.id);
               && key !in x.s.binds && key in y.s.binds
               && y.s.binds[key] ==
                  (if source.ViChannel? then Chn(Vi, source.pipe, source.chn) else Chn(Vpss, source.grp, source.chn))
  {
  }
}
