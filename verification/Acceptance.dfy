/** Exactly when the calls that configure the library are accepted. */
module Acceptance {
  import opened AccessUnits
  import opened Bytes
  import opened Flow
  import opened Images
  import opened Mpi

  /** Formats that the library knows. */
  predicate Known(format: PixelFormat) {
    format == Nv12 || format == Yuyv || format == Rgb888
  }

  /** The device, of three, is there, and enabled. */
  predicate DevIs(s: State, dev: int, enabled: bool) {
    dev in s.viDevs && s.viDevs[dev].enabled == enabled
  }

  ghost predicate Owns(s: State, dev: int, pipe: int) {
    DevIs(s, dev, true) && s.viDevs[dev].pipes.Some? && pipe in s.viDevs[dev].pipes.value
  }

  ghost predicate Owned(s: State, pipe: int) {
    exists dev :: Owns(s, dev, pipe)
  }

  ghost predicate OwnedByOther(s: State, dev: int, pipe: int) {
    exists d :: d != dev && Owns(s, d, pipe)
  }

  /** Devices are configured, enabled and disabled in this order. */
  lemma DevicesAccept(s: State, dev: int)
    ensures var on := s.initialized && 0 <= dev < 3;
            && (SetDevAttr(s, dev).1 == Success <==> on && !DevIs(s, dev, true))
            && (EnableDev(s, dev).1 == Success <==> on && DevIs(s, dev, false) && s.viDevs[dev].configured)
            && (DisableDev(s, dev).1 == Success <==> on && DevIs(s, dev, true))
  {
  }

  /** Pipes are bound to an enabled device once, from three, and none that another owns. */
  lemma PipesAccept(s: State, dev: int, pipes: seq<int>)
    ensures SetDevBindPipe(s, dev, pipes).1 == Success <==>
      && s.initialized && 0 <= dev < 3 && DevIs(s, dev, true) && s.viDevs[dev].pipes.None? && 1 <= |pipes| <= 3
      && forall p :: p in pipes ==> 0 <= p < 3 && !OwnedByOther(s, dev, p)
  {
    forall p
      ensures (exists d :: d in s.viDevs && d != dev && PipeOf(s, p, d)) <==> OwnedByOther(s, dev, p)
    {
      OthersOwn(s, dev, p);
    }
    hide PipeOf, OwnedByOther, CheckDev;
    DevChecked(s, dev);
  }

  lemma DevChecked(s: State, dev: int)
    ensures CheckDev(s, dev) == Success <==> s.initialized && 0 <= dev < 3
  {
  }

  lemma OthersOwn(s: State, dev: int, pipe: int)
    ensures (exists d :: d in s.viDevs && d != dev && PipeOf(s, pipe, d)) <==> OwnedByOther(s, dev, pipe)
  {
    assert forall d :: Owns(s, d, pipe) <==> PipeOf(s, pipe, d);
    if OwnedByOther(s, dev, pipe) {
      var d :| d != dev && Owns(s, d, pipe);
      assert d in s.viDevs && PipeOf(s, pipe, d);
    }
  }

  /** Camera channels need a pipe that an enabled device owns; enabling one forgets when its
      next frame was due. */
  lemma CamerasAccept(s: State, pipe: int, chn: int, w: nat, h: nat, format: PixelFormat)
    ensures var on := s.initialized && 0 <= pipe < 3 && 0 <= chn < 6;
            var known := (pipe, chn) in s.viChns;
            && (SetViChnAttr(s, pipe, chn, w, h, format).1 == Success <==>
                  on && Owned(s, pipe) && w > 0 && h > 0 && Known(format) && !(known && s.viChns[(pipe, chn)].enabled))
            && (EnableViChn(s, pipe, chn).1 == Success <==> on && Owned(s, pipe) && known && !s.viChns[(pipe, chn)].enabled)
            && (DisableViChn(s, pipe, chn).1 == Success <==> on && known && s.viChns[(pipe, chn)].enabled)
    ensures EnableViChn(s, pipe, chn).1 == Success ==>
      EnableViChn(s, pipe, chn).0.viChns[(pipe, chn)] == s.viChns[(pipe, chn)].(enabled := true, nextDue := None)
    ensures SetViChnAttr(s, pipe, chn, w, h, format).1 == Success ==>
      SetViChnAttr(s, pipe, chn, w, h, format).0.viChns[(pipe, chn)] == ViChn(w, h, format, false, 0, None)
  {
    PipesAreOwned(s, pipe);
    hide HasDev, Owned;
  }

  lemma PipesAreOwned(s: State, pipe: int)
    ensures HasDev(s, pipe) <==> Owned(s, pipe)
  {
    assert forall d :: Owns(s, d, pipe) <==> PipeOf(s, pipe, d);
    if Owned(s, pipe) {
      var d :| Owns(s, d, pipe);
      assert d in s.viDevs && PipeOf(s, pipe, d);
    }
  }

  /** An attempt on a camera fails exactly if the channel is not enabled, and has to wait
      exactly until the frame is due. */
  lemma CamerasAnswer(s: State, now: nat, pipe: int, chn: int)
    requires Good(s)
    ensures var (o, k) := (PullVi(s, now, pipe, chn).outcome, (pipe, chn));
            var on := s.initialized && 0 <= pipe < 3 && 0 <= chn < 6 && k in s.viChns && s.viChns[k].enabled;
            && (o.Failed? <==> !on)
            && (o.NotYet? <==> on && s.viFps > 0 && s.viChns[k].nextDue.Some? && now < s.viChns[k].nextDue.value)
            && (o.NotYet? ==> o.wake == s.viChns[k].nextDue)
  {
    hide Good;
  }

  /** Groups and their channels. Configuring a channel again keeps it enabled if it was. */
  lemma GroupsAccept(s: State, g: int, c: int, format: PixelFormat, started: bool, attr: VpssChn)
    ensures var on := s.initialized && 0 <= g < 256;
            && (CreateGrp(s, g, format).1 == Success <==> on && Known(format) && g !in s.grps)
            && (DestroyGrp(s, g).1 == Success <==> on && g in s.grps && !s.grps[g].started)
            && (SetStarted(s, g, started).1 == Success <==> on && g in s.grps && s.grps[g].started != started)
            && (SetVpssChnAttr(s, g, c, attr).1 == Success <==>
                  on && 0 <= c < 4 && g in s.grps && attr.width > 0 && attr.height > 0 && Known(attr.format))
            && (EnableVpssChn(s, g, c).1 == Success <==> on && 0 <= c < 4 && g in s.grps && c in s.grps[g].chns)
            && (DisableVpssChn(s, g, c).1 == Success <==>
                  on && 0 <= c < 4 && g in s.grps && c in s.grps[g].chns && s.grps[g].chns[c].enabled)
    ensures SetVpssChnAttr(s, g, c, attr).1 == Success ==>
      SetVpssChnAttr(s, g, c, attr).0.grps[g].chns[c]
      == attr.(enabled := c in s.grps[g].chns && s.grps[g].chns[c].enabled, number := 0, queue := [])
  {
    hide Cleared;
  }

  /** Encoder channels: a frame is taken while fewer than four are queued, and a channel goes
      when it neither runs nor is bound to a source. */
  lemma EncodersAccept(s: State, now: nat, v: int, codec: Option<Codec>, format: PixelFormat, w: nat, h: nat, gop: nat,
                       clip: Option<seq<Frame>>, f: VideoFrame)
    ensures var on := s.initialized && 0 <= v < 64;
            && (CreateVenc(s, v, codec, format, w, h, gop, clip).1 == Success <==>
                  on && v !in s.vencs && codec.Some? && Known(format) && w > 0 && h > 0)
            && (DestroyVenc(s, v).1 == Success <==> on && v in s.vencs && !s.vencs[v].started && Chn(Venc, 0, v) !in s.binds)
            && (StartVenc(s, v).1 == Success <==> on && v in s.vencs)
            && (StopVenc(s, v).1 == Success <==> on && v in s.vencs)
            && (SendVenc(s, now, v, f).1 == Success <==>
                  on && v in s.vencs && s.vencs[v].started && ImportFrame(s, now, f).Ok? && |s.vencs[v].queue| < 4)
            && (SendVenc(s, now, v, f).1 == BufFull <==>
                  on && v in s.vencs && s.vencs[v].started && ImportFrame(s, now, f).Ok? && |s.vencs[v].queue| >= 4)
  {
    ImportErrors(s, now, f);
    hide ImportFrame;
  }

  lemma ImportErrors(s: State, now: nat, f: VideoFrame)
    ensures ImportFrame(s, now, f).Err? ==> ImportFrame(s, now, f).error == IllegalParam
  {
  }
}
