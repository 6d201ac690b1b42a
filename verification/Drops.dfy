/** Dropping handles, in any order: every call that a `Drop` body makes is accepted. */
module Drops {
  import opened Bytes
  import opened Mpi
  import opened References
  import opened Resources
  import opened Teardown
  import opened Views
  import Flow
  import Invariants
  import M = Machine
  import Pools

  // ---------------------------------------------------------------- the library's own invariant

  lemma CallKeepsInv(s: State, op: M.Op, t: State)
    requires Invariants.Inv(s)
    requires Flow.Good(s) ==> M.Legal(s, M.Event(op, 0)) && t == M.Effect(s, M.Event(op, 0))
    ensures Invariants.Inv(t)
  {
    Invariants.InvIsGood(s);
    Invariants.InvKept(s, M.Event(op, 0));
    hide Invariants.Inv, Flow.Good, M.Effect, M.Legal;
  }

  lemma ExitKeepsInv(s: State, now: nat)
    requires Invariants.Inv(s)
    ensures Invariants.Inv(Exit(s, now).0)
  {
    var e := M.Event(M.OnSys(M.Exit), now);
    Invariants.InvIsGood(s);
    Invariants.InvKept(s, e);
    assert M.Next(s, e) == Exit(s, now).0 by { hide Invariants.Inv, Flow.Good; }
  }

  lemma ViDropsKeepInv(w: Wrapper, s: State, a: int, b: int)
    requires Invariants.Inv(s)
    ensures Invariants.Inv(DropCamera(w, s, a).s) && Invariants.Inv(DropViChannel(w, s, a, b).s)
  {
    hide Invariants.Inv, Flow.Good, DisableDev, DisableViChn, Freed;
    CallKeepsInv(s, M.OnVi(M.DisableDev(a)), DisableDev(s, a).0);
    CallKeepsInv(s, M.OnVi(M.DisableViChn(a, b)), DisableViChn(s, a, b).0);
  }

  lemma VencDropKeepsInv(w: Wrapper, s: State, x: int)
    requires Invariants.Inv(s)
    ensures Invariants.Inv(DropVenc(w, s, x).s)
  {
    hide Invariants.Inv, Flow.Good, StopVenc, DestroyVenc, Freed;
    var t := if VencChannel(x) in w.on then StopVenc(s, x).0 else s;
    if VencChannel(x) in w.on {
      CallKeepsInv(s, M.OnVenc(M.StopVenc(x)), t);
    }
    CallKeepsInv(t, M.OnVenc(M.DestroyVenc(x)), DestroyVenc(t, x).0);
  }

  lemma GroupDropKeepsInv(w: Wrapper, s: State, g: int)
    requires Invariants.Inv(s)
    ensures Invariants.Inv(DropGroup(w, s, g).s)
  {
    hide Invariants.Inv, Flow.Good, SetStarted, DestroyGrp, Freed;
    var t := if Group(g) in w.on then SetStarted(s, g, false).0 else s;
    if Group(g) in w.on {
      CallKeepsInv(s, M.OnVpss(M.SetStarted(g, false)), t);
    }
    CallKeepsInv(t, M.OnVpss(M.DestroyGrp(g)), DestroyGrp(t, g).0);
  }

  lemma VpssChannelDropKeepsInv(w: Wrapper, s: State, g: int, c: int)
    requires Invariants.Inv(s)
    ensures Invariants.Inv(DropVpssChannel(w, s, g, c).s)
  {
    hide Invariants.Inv, Flow.Good, DisableVpssChn, Freed;
    if VpssChannel(g, c) in w.on {
      CallKeepsInv(s, M.OnVpss(M.DisableVpssChn(g, c)), DisableVpssChn(s, g, c).0);
    }
  }

  lemma MemoryDropsKeepInv(w: Wrapper, s: State, id: nat, mb: Handle)
    requires Invariants.Inv(s)
    ensures Invariants.Inv(DropPool(w, s, id).s) && Invariants.Inv(DropBuffer(w, s, mb).s) && Invariants.Inv(DropFrame(w, s, mb).s)
  {
    hide Invariants.Inv, Flow.Good, DestroyPool, ReleaseMB, ReleaseFrame;
    CallKeepsInv(s, M.OnMb(M.DestroyPool(id)), DestroyPool(s, id).0);
    CallKeepsInv(s, M.OnMb(M.ReleaseMB(mb)), ReleaseMB(s, mb).0);
    CallKeepsInv(s, M.OnMb(M.ReleaseFrame(mb)), ReleaseFrame(s, mb).0);
  }

  lemma LinkDropsKeepInv(w: Wrapper, s: State, src: Chn, dst: Chn, mb: Handle, x: int)
    requires Invariants.Inv(s)
    ensures Invariants.Inv(DropBinding(w, s, src, dst).s) && Invariants.Inv(DropStream(w, s, mb, x).s)
  {
    hide Invariants.Inv, Flow.Good, UnBind, ReleaseStream;
    CallKeepsInv(s, M.OnSys(M.UnBind(src, dst)), UnBind(s, src, dst).0);
    CallKeepsInv(s, M.OnVenc(M.ReleaseStream(x, [mb])), ReleaseStream(s, x, [mb]).0);
  }

  // ---------------------------------------------------------------- any object

  lemma FreeIsLive(live: set<Ref>, r: Ref)
    requires Free(live, r)
    ensures r in live
  {
  }

  lemma InvHasPools(s: State)
    requires Invariants.Inv(s)
    ensures Pools.PoolsOk(s)
  {
  }

  lemma DestroyedIs(w: Wrapper, s: State, r: Ref, now: nat)
    ensures var d := Destroyed(w, s, r, now);
            match r
            case Sys => d == DropSys(w, s, now)
            case Camera(a) => d == DropCamera(w, s, a)
            case ViChannel(p, c) => d == DropViChannel(w, s, p, c)
            case VencChannel(x) => d == DropVenc(w, s, x)
            case Group(g) => d == DropGroup(w, s, g)
            case VpssChannel(g, c) => d == DropVpssChannel(w, s, g, c)
            case Binding(src, dst) => d == DropBinding(w, s, src, dst)
            case MemPool(id) => d == DropPool(w, s, id)
            case Buffer(mb, _) => d == DropBuffer(w, s, mb)
            case VideoFrame(mb) => d == DropFrame(w, s, mb)
            case Stream(mb, x) => d == DropStream(w, s, mb, x)
  {
    hide DropSys, DropCamera, DropViChannel, DropVenc, DropGroup, DropVpssChannel, DropBinding, DropPool, DropBuffer,
         DropFrame, DropStream;
  }

  /** When the last reference to an object goes, every call of its `Drop` body succeeds, and
      wrapper and library agree without it. */
  lemma DestroyedWorks(live: set<Ref>, w: Wrapper, s: State, r: Ref, now: nat)
    requires Agree(live, w, ViewOf(s)) && Free(live, r) && Invariants.Inv(s)
    ensures var d := Destroyed(w, s, r, now);
            AllSucceed(d.codes) && Agree(live - {r}, d.w, ViewOf(d.s)) && Invariants.Inv(d.s)
    ensures r == Sys ==> live == {Sys} && NothingLeft(ViewOf(s))
  {
    hide *;
    FreeIsLive(live, r);
    InvHasPools(s);
    DestroyedIs(w, s, r, now);
    match r
    case Sys => SysDropWorks(live, w, s, now);
    case Camera(d) => CameraGone(live, w, s, d); ViDropsKeepInv(w, s, d, 0);
    case ViChannel(p, c) => ViChannelGone(live, w, s, p, c); ViDropsKeepInv(w, s, p, c);
    case VencChannel(x) => VencGone(live, w, s, x); VencDropKeepsInv(w, s, x);
    case Group(g) => GroupGone(live, w, s, g); GroupDropKeepsInv(w, s, g);
    case VpssChannel(g, c) => VpssChannelGone(live, w, s, g, c); VpssChannelDropKeepsInv(w, s, g, c);
    case Binding(src, dst) => BindingGone(live, w, s, src, dst); LinkDropsKeepInv(w, s, src, dst, 0, 0);
    case MemPool(id) => PoolGone(live, w, s, id); MemoryDropsKeepInv(w, s, id, 0);
    case Buffer(mb, pool) => BufferGone(live, w, s, mb, pool); MemoryDropsKeepInv(w, s, 0, mb);
    case VideoFrame(mb) => FrameGone(live, w, s, mb); MemoryDropsKeepInv(w, s, 0, mb);
    case Stream(mb, x) => StreamGone(live, w, s, mb, x); LinkDropsKeepInv(w, s, Chn(Vi, 0, 0), Chn(Vi, 0, 0), mb, x);
  }

  lemma SysDropWorks(live: set<Ref>, w: Wrapper, s: State, now: nat)
    requires Agree(live, w, ViewOf(s)) && Free(live, Sys) && Invariants.Inv(s)
    ensures var d := DropSys(w, s, now);
            AllSucceed(d.codes) && Agree(live - {Sys}, d.w, ViewOf(d.s)) && Invariants.Inv(d.s)
    ensures live == {Sys} && NothingLeft(ViewOf(s))
  {
    SysGone(live, w, s, now);
    ExitKeepsInv(s, now);
    hide Agree, Invariants.Inv, ViewOf, NothingLeft;
    assert live - {Sys} == {};
  }

  // ---------------------------------------------------------------- one field

  /** The head of a handle, when no other reference to it is left. */
  lemma LastOneIsFree(handles: seq<seq<Ref>>, strong: map<Ref, nat>, i: nat)
    requires Counted(handles, strong) && AllInDropOrder(handles) && i < |handles| && handles[i] != []
    ensures var (r, rest) := (handles[i][0], handles[i][1..]);
            && r in strong
            && Counted(handles[i := rest], Lose(strong, r)) && AllInDropOrder(handles[i := rest])
            && (strong[r] > 1 ==> Lose(strong, r).Keys == strong.Keys)
            && (strong[r] <= 1 ==> Lose(strong, r).Keys == strong.Keys - {r} && Free(strong.Keys, r))
  {
    var (r, rest) := (handles[i][0], handles[i][1..]);
    assert handles[i] == [r] + rest;
    LoseCounted(handles, strong, i, r, rest);
    DropOrderTail(handles, i, r, rest);
    if strong[r] <= 1 {
      hide Counted, Lose;
      HeldNeedsAlive(handles[i := rest], Lose(strong, r));
      forall n | n in Needs(r)
        ensures n in strong.Keys - {r}
      {
        assert n in rest;
        HeldIsCounted(handles[i := rest], Lose(strong, r), i, n);
      }
    }
  }

  lemma HeldIsCounted(handles: seq<seq<Ref>>, strong: map<Ref, nat>, i: nat, r: Ref)
    requires Counted(handles, strong) && i < |handles| && r in handles[i]
    ensures r in strong
  {
    FlatHas(handles, i, r);
    assert r in Held(handles);
  }

  /** Dropping the next field of any handle, at any time, keeps everything sound, and every
      call that this makes to the library is accepted. If it was the last reference to the
      system, nothing was left in the library when it exited. */
  lemma DropFieldIsClean(x: World, i: nat, now: nat)
    requires Sound(x) && i < |x.w.handles| && x.w.handles[i] != []
    ensures x.w.handles[i][0] in x.w.strong
    ensures var (y, codes) := DropField(x, i, now); Sound(y) && AllSucceed(codes)
    ensures var (y, codes) := DropField(x, i, now);
            y.w.handles == x.w.handles[i := x.w.handles[i][1..]]
            && (x.s.initialized && !y.s.initialized ==> NothingLeft(ViewOf(x.s)) && y.w.strong == map[])
  {
    hide Counted, AllInDropOrder, Lose, Free, Agree, Invariants.Inv, NothingLeft, ViewOf, Destroyed;
    var (r, rest) := (x.w.handles[i][0], x.w.handles[i][1..]);
    LastOneIsFree(x.w.handles, x.w.strong, i);
    var w := x.w.(handles := x.w.handles[i := rest], strong := Lose(x.w.strong, r));
    SameAgreement(x.w.strong.Keys, x.w, w, ViewOf(x.s));
    if x.w.strong[r] <= 1 {
      DestroyedWorks(x.w.strong.Keys, w, x.s, r, now);
      DestroyedKeepsHandles(w, x.s, r, now);
    }
  }

  lemma SameAgreement(live: set<Ref>, w: Wrapper, x: Wrapper, v: View)
    requires Agree(live, w, v) && x == w.(handles := x.handles, strong := x.strong)
    ensures Agree(live, x, v)
  {
    forall t
      ensures AgreeOn(t, live, x, v)
    {
      hide AgreeOn;
      StillAgree(t, live, w, v, live, x, v);
    }
  }

  lemma DestroyedKeepsHandles(w: Wrapper, s: State, r: Ref, now: nat)
    ensures var d := Destroyed(w, s, r, now); d.w.handles == w.handles && d.w.strong == w.strong
    ensures r != Sys ==> Destroyed(w, s, r, now).s.initialized == s.initialized
  {
    hide DestroyVenc, StopVenc, SetStarted, DestroyGrp, DisableDev, DisableViChn, DisableVpssChn, UnBind, DestroyPool, ReleaseMB,
         ReleaseFrame, ReleaseStream, Freed;
  }
}
