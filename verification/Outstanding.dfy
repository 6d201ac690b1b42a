/** The count of packets that an encoder channel has handed out and not got back: when it
    is right, and when giving one back takes it below zero. */
module Outstanding {
  import opened AccessUnits
  import opened Bytes
  import opened Images
  import opened Invariants
  import opened Mpi
  import opened Flow
  import opened Strides
  import M = Machine
  import Pools

  /** The packets that are out, each with the channel it came from. */
  type Ledger = map<Handle, int>

  /** A packet is out as long as its block and its channel are there. */
  ghost function Kept(out: Ledger, t: State): Ledger {
    map mb | mb in out && mb in t.blocks && out[mb] in t.vencs :: out[mb]
  }

  ghost function NextLedger(s: State, out: Ledger, e: M.Event): Ledger {
    var kept := Kept(out, M.Next(s, e));
    match e.op
    case OnVenc(GetStream(v, mb)) =>
      if Good(s) && M.Legal(s, e) && GetStream(s, e.now, v, mb).1.Ok? then kept[mb := v] else kept
    case _ => kept
  }

  /** The packets that are out after a run from the start. */
  ghost function LedgerOf(start: State, es: seq<M.Event>): Ledger {
    if es == [] then map[] else
    var n := |es| - 1;
    NextLedger(M.Run(start, es[..n]), LedgerOf(start, es[..n]), es[n])
  }

  ghost function Held(out: Ledger, v: int): set<Handle> {
    set mb | mb in out && out[mb] == v
  }

  /** Every packet that is out has its block and its channel. */
  ghost predicate Linked(s: State, out: Ledger) {
    forall mb :: mb in out ==> mb in s.blocks && out[mb] in s.vencs
  }

  /** Every channel counts the packets that are out. */
  ghost predicate Counts(s: State, out: Ledger) {
    forall v :: v in s.vencs ==> s.vencs[v].outstanding == |Held(out, v)|
  }

  // ---------------------------------------------------------------- what a release frees

  /** The blocks that are freed by a list: those before the first that is not known (any more). */
  function Freed(known: set<Handle>, packs: seq<Handle>): set<Handle>
    decreases |packs|
  {
    if packs == [] || packs[0] !in known then {} else {packs[0]} + Freed(known - {packs[0]}, packs[1..])
  }

  /** Every block of the list is known, and none is named twice. */
  predicate AllKnown(known: set<Handle>, packs: seq<Handle>)
    decreases |packs|
  {
    packs == [] || (packs[0] in known && AllKnown(known - {packs[0]}, packs[1..]))
  }

  lemma {:induction false} ReleaseFrees(s: State, packs: seq<Handle>)
    ensures ReleasePacks(s, packs).0.blocks.Keys == s.blocks.Keys - Freed(s.blocks.Keys, packs)
    ensures ReleasePacks(s, packs).1 <==> AllKnown(s.blocks.Keys, packs)
    decreases |packs|
  {
    if packs != [] && packs[0] in s.blocks {
      var t := ReleaseBlock(s, packs[0]).0;
      assert t.blocks.Keys == s.blocks.Keys - {packs[0]};
      hide ReleaseBlock;
      ReleaseFrees(t, packs[1..]);
    }
  }

  /** The library accepts the release. */
  predicate Accepts(s: State, v: int, packs: seq<Handle>) {
    CheckVenc(s, v) == Success && packs != [] && AllKnown(s.blocks.Keys, packs)
  }

  /** The packets among the blocks that the call frees. */
  ghost function PacketsFreed(s: State, out: Ledger, v: int, packs: seq<Handle>): set<Handle> {
    if CheckVenc(s, v) != Success then {} else Freed(s.blocks.Keys, packs) * out.Keys
  }

  /** What a caller has to mind to keep the counts right: packets are freed by releases of
      their channel that are accepted, one by one, for as long as it has any. */
  ghost predicate Fair(s: State, out: Ledger, op: M.Op) {
    match op
    case OnMb(ReleaseMB(mb)) => mb !in out
    case OnMb(ReleaseFrame(mb)) => mb !in out
    case OnVenc(ReleaseStream(v, packs)) =>
      var gone := PacketsFreed(s, out, v, packs);
      if Accepts(s, v, packs) && Held(out, v) != {} then OneOf(gone, out, v) else gone == {}
    case _ => true
  }

  ghost predicate OneOf(gone: set<Handle>, out: Ledger, v: int) {
    exists mb :: mb in out && out[mb] == v && gone == {mb}
  }

  // ---------------------------------------------------------------- the count itself

  /** By how much a release lowers the count of channel `w`. */
  ghost function Less(s: State, v: int, packs: seq<Handle>, w: int): nat {
    if Accepts(s, v, packs) && w == v && s.vencs[v].outstanding > 0 then 1 else 0
  }

  lemma ReleaseIs(s: State, v: int, packs: seq<Handle>)
    ensures var (t, code) := ReleaseStream(s, v, packs);
            && (code == Success <==> Accepts(s, v, packs))
            && t.blocks.Keys == s.blocks.Keys - (if CheckVenc(s, v) == Success then Freed(s.blocks.Keys, packs) else {})
            && t.vencs.Keys == s.vencs.Keys
            && (forall w :: w in s.vencs ==>
                  t.vencs[w].outstanding == s.vencs[w].outstanding - Less(s, v, packs, w))
  {
    ReleaseFrees(s, packs);
    hide ReleasePacks, Freed, AllKnown;
    assert packs == [] ==> Freed(s.blocks.Keys, packs) == {} by { FreesNone(s.blocks.Keys); }
  }

  lemma FreesNone(known: set<Handle>)
    ensures Freed(known, []) == {}
  {
  }

  /** With fewer blocks, fewer packets. */
  lemma HeldKept(out: Ledger, s: State, t: State, gone: set<Handle>, v: int)
    requires Linked(s, out) && t.vencs.Keys == s.vencs.Keys && t.blocks.Keys * out.Keys == out.Keys - gone
    ensures Held(Kept(out, t), v) == Held(out, v) - gone
  {
    forall mb
      ensures mb in Held(Kept(out, t), v) <==> mb in Held(out, v) - gone
    {
      assert mb in out ==> (mb in t.blocks.Keys * out.Keys <==> mb in out.Keys - gone);
    }
  }

  lemma LinkedKept(out: Ledger, t: State)
    ensures Linked(t, Kept(out, t))
  {
  }

  /** Taking `gone` out of the packets of a channel changes their number exactly if it has
      any of them. */
  lemma FewerHeld(held: set<Handle>, gone: set<Handle>)
    ensures |held - gone| == |held| - |held * gone|
    ensures |held * gone| == 0 <==> held * gone == {}
  {
    assert held == (held - gone) + (held * gone);
  }

  lemma ReleaseStreamFair(s: State, out: Ledger, v: int, packs: seq<Handle>)
    requires Linked(s, out) && Counts(s, out)
    ensures var t := ReleaseStream(s, v, packs).0;
            Counts(t, Kept(out, t)) <==> Fair(s, out, M.OnVenc(M.ReleaseStream(v, packs)))
  {
    var t := ReleaseStream(s, v, packs).0;
    var gone := PacketsFreed(s, out, v, packs);
    ReleaseIs(s, v, packs);
    BlocksLeft(s, out, t, v, packs);
    LessIs(s, out, v, packs);
    assert gone <= out.Keys;
    hide ReleaseStream, Freed, AllKnown, Held, Kept, Counts, Linked, Accepts, Less, OneOf, CheckVenc, PacketsFreed;
    CountsLess(s, out, t, gone, v, Less(s, v, packs, v));
    RightOnesGone(s, out, gone, v, Less(s, v, packs, v));
  }

  lemma LessIs(s: State, out: Ledger, v: int, packs: seq<Handle>)
    requires Counts(s, out)
    ensures Less(s, v, packs, v) <= 1 && (Less(s, v, packs, v) == 1 <==> Accepts(s, v, packs) && Held(out, v) != {})
    ensures Less(s, v, packs, v) == 1 ==> v in s.vencs
    ensures forall w :: w != v ==> Less(s, v, packs, w) == 0
  {
    hide AllKnown, Held;
  }

  lemma CountsLess(s: State, out: Ledger, t: State, gone: set<Handle>, v: int, less: nat)
    requires Linked(s, out) && Counts(s, out) && t.vencs.Keys == s.vencs.Keys && t.blocks.Keys * out.Keys == out.Keys - gone
    requires forall w :: w in s.vencs ==> t.vencs[w].outstanding == s.vencs[w].outstanding - if w == v then less else 0
    ensures Counts(t, Kept(out, t)) <==> forall w :: w in s.vencs ==> |Held(out, w) * gone| == if w == v then less else 0
  {
    hide Held, Kept, Linked;
    forall w | w in s.vencs
      ensures |Held(Kept(out, t), w)| == |Held(out, w)| - |Held(out, w) * gone|
    {
      HeldKept(out, s, t, gone, w);
      FewerHeld(Held(out, w), gone);
    }
  }

  lemma BlocksLeft(s: State, out: Ledger, t: State, v: int, packs: seq<Handle>)
    requires Linked(s, out)
    requires t.blocks.Keys == s.blocks.Keys - (if CheckVenc(s, v) == Success then Freed(s.blocks.Keys, packs) else {})
    ensures t.blocks.Keys * out.Keys == out.Keys - PacketsFreed(s, out, v, packs)
  {
    hide Freed, CheckVenc;
  }

  /** The numbers fit exactly if the right packets go. */
  lemma RightOnesGone(s: State, out: Ledger, gone: set<Handle>, v: int, less: nat)
    requires Linked(s, out) && gone <= out.Keys && less <= 1 && (less == 1 ==> v in s.vencs)
    ensures (forall w :: w in s.vencs ==> |Held(out, w) * gone| == if w == v then less else 0)
       <==> if less == 1 then OneOf(gone, out, v) else gone == {}
  {
    if forall w :: w in s.vencs ==> |Held(out, w) * gone| == if w == v then less else 0 {
      forall mb | mb in gone
        ensures less == 1 && out[mb] == v
      {
        assert mb in Held(out, out[mb]) * gone;
      }
      if less == 1 {
        assert Held(out, v) * gone == gone;
        var mb := OnlyOne(gone);
      }
    }
    if less == 1 && OneOf(gone, out, v) {
      var mb :| mb in out && out[mb] == v && gone == {mb};
      forall w | w in s.vencs
        ensures Held(out, w) * gone == if w == v then {mb} else {}
      {
      }
    }
  }

  lemma OnlyOne<T>(s: set<T>) returns (x: T)
    requires |s| == 1
    ensures s == {x}
  {
    x :| x in s;
    assert |s - {x}| == 0;
  }

  lemma OneBlockFair(s: State, out: Ledger, mb: Handle, t: State)
    requires Linked(s, out) && Counts(s, out) && t.blocks.Keys == s.blocks.Keys - {mb} && t.vencs == s.vencs
    ensures Counts(t, Kept(out, t)) <==> mb !in out
  {
    hide Held, Kept;
    forall w | w in s.vencs
      ensures |Held(Kept(out, t), w)| == |Held(out, w)| - |Held(out, w) * {mb}|
    {
      assert t.blocks.Keys * out.Keys == out.Keys - {mb};
      HeldKept(out, s, t, {mb}, w);
      FewerHeld(Held(out, w), {mb});
    }
    OneHeld(out, mb);
  }

  lemma OneHeld(out: Ledger, mb: Handle)
    ensures mb in out ==> Held(out, out[mb]) * {mb} == {mb}
    ensures mb !in out ==> forall w :: Held(out, w) * {mb} == {}
  {
  }

  // ---------------------------------------------------------------- other calls

  /** A call that keeps all blocks and counts. */
  lemma NothingFreed(s: State, out: Ledger, t: State)
    requires Linked(s, out) && Counts(s, out) && s.blocks.Keys <= t.blocks.Keys && t.vencs.Keys == s.vencs.Keys
    requires forall v :: v in s.vencs ==> t.vencs[v].outstanding == s.vencs[v].outstanding
    ensures Counts(t, Kept(out, t))
  {
    assert Kept(out, t) == out;
  }

  lemma CreateKeeps(s: State, out: Ledger, v: int, codec: Option<Codec>, format: PixelFormat, w: nat, h: nat, gop: nat,
                    clip: Option<seq<Frame>>)
    requires Linked(s, out) && Counts(s, out)
    ensures var t := CreateVenc(s, v, codec, format, w, h, gop, clip).0; Counts(t, Kept(out, t))
  {
    var t := CreateVenc(s, v, codec, format, w, h, gop, clip).0;
    assert Kept(out, t) == out;
    if v !in s.vencs {
      assert Held(out, v) == {};
    }
  }

  lemma DestroyKeeps(s: State, out: Ledger, v: int)
    requires Linked(s, out) && Counts(s, out)
    ensures var t := DestroyVenc(s, v).0; Counts(t, Kept(out, t))
  {
    var t := DestroyVenc(s, v).0;
    forall w | w in t.vencs
      ensures Held(Kept(out, t), w) == Held(out, w)
    {
    }
  }

  lemma ExitKeeps(s: State, out: Ledger, now: nat)
    ensures var t := Exit(s, now).0; Counts(t, Kept(out, t))
  {
    hide Orphaned;
  }

  lemma StreamKeeps(s: State, out: Ledger, now: nat, v: int, mb: Handle)
    requires Good(s) && VencEnds(s, v) && Packs(s, v) && mb !in s.blocks && Linked(s, out) && Counts(s, out)
    ensures var (t, r) := GetStream(s, now, v, mb);
            var next := if r.Ok? then Kept(out, t)[mb := v] else Kept(out, t);
            Linked(t, next) && Counts(t, next)
  {
    var (t, r) := GetStream(s, now, v, mb);
    StreamCounts(s, now, v, mb);
    hide GetStream, Good, VencEnds, Packs, Held, Linked, Counts, Kept;
    AllKept(s, out, t);
    if r.Ok? {
      OneMoreOut(s, out, t, v, mb);
    } else {
      StillCounts(s, out, t);
      LinkedKept(out, t);
    }
  }

  lemma AllKept(s: State, out: Ledger, t: State)
    requires Linked(s, out) && s.blocks.Keys <= t.blocks.Keys && t.vencs.Keys == s.vencs.Keys
    ensures Kept(out, t) == out && Linked(t, out)
  {
  }

  lemma OneMoreOut(s: State, out: Ledger, t: State, v: int, mb: Handle)
    requires Linked(s, out) && Counts(s, out) && mb !in s.blocks && Linked(t, out) && v in t.vencs && mb in t.blocks
    requires t.vencs.Keys == s.vencs.Keys
    requires forall w :: w in s.vencs ==> t.vencs[w].outstanding == s.vencs[w].outstanding + if w == v then 1 else 0
    ensures Linked(t, out[mb := v]) && Counts(t, out[mb := v])
  {
    assert mb !in out;
    forall w
      ensures |Held(out[mb := v], w)| == |Held(out, w)| + if w == v then 1 else 0
    {
      HeldMore(out, v, mb, w);
    }
    hide Held;
  }

  lemma HeldMore(out: Ledger, v: int, mb: Handle, w: int)
    requires mb !in out
    ensures |Held(out[mb := v], w)| == |Held(out, w)| + if w == v then 1 else 0
  {
    assert Held(out[mb := v], w) == if w == v then Held(out, w) + {mb} else Held(out, w);
  }

  lemma StreamCounts(s: State, now: nat, v: int, mb: Handle)
    requires Good(s) && VencEnds(s, v) && Packs(s, v)
    ensures var (t, r) := GetStream(s, now, v, mb);
            && s.blocks.Keys <= t.blocks.Keys && t.vencs.Keys == s.vencs.Keys
            && (r.Ok? ==> v in s.vencs && mb in t.blocks)
            && (forall w :: w in s.vencs ==>
                  t.vencs[w].outstanding == s.vencs[w].outstanding + if r.Ok? && w == v then 1 else 0)
  {
    hide PullVenc, PacketOf, Good, VencEnds, Packs, Packable, PullBound, WellFormed;
  }

  /** A call that frees nothing and counts nothing. */
  ghost predicate Harmless(s: State, t: State) {
    && s.blocks.Keys <= t.blocks.Keys && t.vencs.Keys == s.vencs.Keys
    && (forall v :: v in s.vencs ==> t.vencs[v].outstanding == s.vencs[v].outstanding)
  }

  lemma MbStep(s: State, out: Ledger, op: M.MbOp)
    requires Linked(s, out) && Counts(s, out)
    ensures var t := M.MbEffect(s, op); Counts(t, Kept(out, t)) <==> Fair(s, out, M.OnMb(op))
  {
    hide Counts, Kept, Linked, M.MbEffect;
    var t := M.MbEffect(s, op);
    if op.ReleaseMB? || op.ReleaseFrame? {
      OneGone(s, op);
      if op.mb in s.blocks {
        OneBlockFair(s, out, op.mb, t);
      } else {
        StillCounts(s, out, s);
        NotOut(s, out, op.mb);
      }
    } else {
      OtherMbHarmless(s, op);
      StillCounts(s, out, t);
    }
  }

  lemma OtherMbHarmless(s: State, op: M.MbOp)
    requires !op.ReleaseMB? && !op.ReleaseFrame?
    ensures Harmless(s, M.MbEffect(s, op))
  {
  }

  lemma OneGone(s: State, op: M.MbOp)
    requires op.ReleaseMB? || op.ReleaseFrame?
    ensures var t := M.MbEffect(s, op);
            t.blocks.Keys == s.blocks.Keys - {op.mb} && t.vencs == s.vencs && (op.mb !in s.blocks ==> t == s)
  {
  }

  lemma NotOut(s: State, out: Ledger, mb: Handle)
    requires Linked(s, out) && mb !in s.blocks
    ensures mb !in out
  {
  }

  lemma StillCounts(s: State, out: Ledger, t: State)
    requires Linked(s, out) && Counts(s, out) && Harmless(s, t)
    ensures Counts(t, Kept(out, t))
  {
    hide Counts, Kept, Linked;
    NothingFreed(s, out, t);
  }

  lemma VencStep(s: State, out: Ledger, op: M.VencOp, now: nat)
    requires Good(s) && M.VencLegal(s, op) && Linked(s, out) && Counts(s, out) && !op.GetStream?
    ensures var t := M.VencEffect(s, op, now); Counts(t, Kept(out, t)) <==> Fair(s, out, M.OnVenc(op))
  {
    hide Good, Counts, Kept, Linked, CreateVenc, DestroyVenc, ReleaseStream;
    if op.CreateVenc? {
      CreateKeeps(s, out, op.chn, op.codec, op.format, op.w, op.h, op.gop, op.clip);
    } else if op.DestroyVenc? {
      DestroyKeeps(s, out, op.chn);
    } else if op.ReleaseStream? {
      ReleaseStreamFair(s, out, op.chn, op.packs);
    } else {
      SwitchHarmless(s, op, now);
      StillCounts(s, out, M.VencEffect(s, op, now));
    }
  }

  lemma SwitchHarmless(s: State, op: M.VencOp, now: nat)
    requires Good(s) && M.VencLegal(s, op) && (op.StartVenc? || op.StopVenc? || op.SendVenc?)
    ensures Harmless(s, M.VencEffect(s, op, now))
  {
    hide Good, ImportFrame;
  }

  lemma OthersHarmless(s: State, e: M.Event)
    requires Good(s) && M.Legal(s, e) && !e.op.OnMb? && !e.op.OnVenc? && e.op != M.OnSys(M.Exit)
    ensures Harmless(s, M.Effect(s, e))
  {
    hide Good, M.SysEffect, M.ViEffect, M.VpssEffect, M.VpssLegal;
    match e.op
    case OnSys(op) => M.SysTouches(s, op, e.now);
    case OnVi(op) =>
      M.ViTouches(s, op, e.now);
      ViAdds(s, op, e.now);
    case OnVpss(op) =>
      M.VpssTouches(s, op, e.now);
      VpssAdds(s, op, e.now);
  }

  lemma ViAdds(s: State, op: M.ViOp, now: nat)
    requires Good(s)
    ensures s.blocks.Keys <= M.ViEffect(s, op, now).blocks.Keys
  {
    M.ViTouches(s, op, now);
    hide Good, SetDevAttr, EnableDev, DisableDev, SetDevBindPipe, SetViChnAttr, EnableViChn, DisableViChn, GetViFrame;
  }

  lemma VpssAdds(s: State, op: M.VpssOp, now: nat)
    requires Good(s) && M.VpssLegal(s, op, now)
    ensures s.blocks.Keys <= M.VpssEffect(s, op, now).blocks.Keys
  {
    M.VpssTouches(s, op, now);
    hide Good, Ends, Scalable, CreateGrp, DestroyGrp, SetStarted, SetVpssChnAttr, EnableVpssChn, DisableVpssChn, SendVpss,
         GetVpssFrame;
  }

  /** If the counts are right before a call, they are right after it exactly if it is fair. */
  lemma FairExactly(s: State, out: Ledger, e: M.Event)
    requires Inv(s) && Linked(s, out) && Counts(s, out)
    ensures Linked(M.Next(s, e), NextLedger(s, out, e))
    ensures Counts(M.Next(s, e), NextLedger(s, out, e)) <==> Fair(s, out, e.op)
  {
    InvIsGood(s);
    hide Inv, Good, Counts, Kept, Linked, M.SysEffect, M.MbEffect, M.ViEffect, M.VpssEffect, M.VencEffect, M.VpssLegal,
         GetStream, OneOf, PacketsFreed, Accepts, Held;
    var t := M.Next(s, e);
    LinkedKept(out, t);
    if !M.Legal(s, e) {
      StillCounts(s, out, s);
    } else {
      match e.op
      case OnMb(op) => MbStep(s, out, op);
      case OnVenc(op) =>
        if op.GetStream? {
          StreamFair(s, out, e, op.chn, op.mb);
        } else {
          VencStep(s, out, op, e.now);
        }
      case _ =>
        if e.op == M.OnSys(M.Exit) {
          ExitIs(s, e);
          ExitKeeps(s, out, e.now);
        } else {
          OthersHarmless(s, e);
          StillCounts(s, out, t);
        }
    }
  }

  lemma ExitIs(s: State, e: M.Event)
    requires Good(s) && e.op == M.OnSys(M.Exit)
    ensures M.Next(s, e) == Exit(s, e.now).0
  {
    hide Good, Exit;
  }

  lemma StreamFair(s: State, out: Ledger, e: M.Event, v: int, mb: Handle)
    requires Good(s) && M.Legal(s, e) && e.op == M.OnVenc(M.GetStream(v, mb)) && Linked(s, out) && Counts(s, out)
    ensures Linked(M.Next(s, e), NextLedger(s, out, e)) && Counts(M.Next(s, e), NextLedger(s, out, e))
  {
    hide Good, Counts, Kept, Linked, GetStream, VencEnds, Packs;
    StreamKeeps(s, out, e.now, v, mb);
  }

  // ---------------------------------------------------------------- runs

  ghost predicate CountsAt(start: State, es: seq<M.Event>, i: nat)
    requires i <= |es|
  {
    Counts(M.Run(start, es[..i]), LedgerOf(start, es[..i]))
  }

  ghost predicate FairAt(start: State, es: seq<M.Event>, i: nat)
    requires i < |es|
  {
    Fair(M.Run(start, es[..i]), LedgerOf(start, es[..i]), es[i].op)
  }

  lemma OneMore(start: State, es: seq<M.Event>, i: nat)
    requires i < |es|
    ensures M.Run(start, es[..i + 1]) == M.Next(M.Run(start, es[..i]), es[i])
    ensures LedgerOf(start, es[..i + 1]) == NextLedger(M.Run(start, es[..i]), LedgerOf(start, es[..i]), es[i])
  {
    hide M.Next, NextLedger;
    assert es[..i + 1][..i] == es[..i] && es[..i + 1][i] == es[i];
  }

  lemma {:induction false} CountsUpTo(now: nat, fps: nat, es: seq<M.Event>, n: nat)
    requires n <= |es|
    ensures var start := Fresh(now, fps);
            (forall i: nat :: i <= n ==> CountsAt(start, es, i)) <==> (forall i: nat :: i < n ==> FairAt(start, es, i))
    ensures (forall i: nat :: i <= n ==> CountsAt(Fresh(now, fps), es, i)) ==>
              Linked(M.Run(Fresh(now, fps), es[..n]), LedgerOf(Fresh(now, fps), es[..n]))
    decreases n
  {
    var start := Fresh(now, fps);
    hide Counts, Fair, Linked, M.Next, NextLedger, Inv, Good;
    if n == 0 {
      NoneOut(now, fps);
      assert es[..0] == [];
    } else {
      CountsUpTo(now, fps, es, n - 1);
      OneMore(start, es, n - 1);
      InvAlways(now, fps, es[..n - 1]);
      if forall i: nat :: i <= n - 1 ==> CountsAt(start, es, i) {
        assert CountsAt(start, es, n - 1);
        FairExactly(M.Run(start, es[..n - 1]), LedgerOf(start, es[..n - 1]), es[n - 1]);
        assert CountsAt(start, es, n) <==> FairAt(start, es, n - 1);
      }
    }
  }

  lemma NoneOut(now: nat, fps: nat)
    ensures Counts(Fresh(now, fps), map[]) && Linked(Fresh(now, fps), map[])
  {
  }

  /** In every run, the counts are right all the time if and only if every call is fair. */
  lemma OutstandingExactly(now: nat, fps: nat, es: seq<M.Event>)
    ensures var start := Fresh(now, fps);
            (forall i: nat :: i <= |es| ==> CountsAt(start, es, i)) <==> (forall i: nat :: i < |es| ==> FairAt(start, es, i))
  {
    hide CountsAt, FairAt;
    CountsUpTo(now, fps, es, |es|);
  }

  // ---------------------------------------------------------------- below zero

  /** The call is accepted and finds the count at zero. */
  ghost predicate Saturates(s: State, op: M.Op) {
    op.OnVenc? && op.venc.ReleaseStream? && Accepts(s, op.venc.chn, op.venc.packs)
    && s.vencs[op.venc.chn].outstanding == 0
  }

  /** Where the counts are right, an accepted release finds zero exactly if no packet of
      the channel that it names is out. */
  lemma SaturatesExactly(s: State, out: Ledger, v: int, packs: seq<Handle>)
    requires Counts(s, out) && Accepts(s, v, packs)
    ensures Saturates(s, M.OnVenc(M.ReleaseStream(v, packs))) <==> Held(out, v) == {}
  {
    hide AllKnown, Held;
  }

  /** Every accepted release gives back exactly one packet, to the channel it came from, and
      nothing else frees one. */
  ghost predicate Careful(s: State, out: Ledger, op: M.Op) {
    match op
    case OnMb(ReleaseMB(mb)) => mb !in out
    case OnMb(ReleaseFrame(mb)) => mb !in out
    case OnVenc(ReleaseStream(v, packs)) =>
      var gone := PacketsFreed(s, out, v, packs);
      if Accepts(s, v, packs) then OneOf(gone, out, v) else gone == {}
    case _ => true
  }

  ghost predicate CarefulAt(start: State, es: seq<M.Event>, i: nat)
    requires i < |es|
  {
    Careful(M.Run(start, es[..i]), LedgerOf(start, es[..i]), es[i].op)
  }

  lemma CarefulIsFair(s: State, out: Ledger, op: M.Op)
    requires Careful(s, out, op)
    ensures Fair(s, out, op)
    ensures Counts(s, out) ==> !Saturates(s, op)
  {
    hide Accepts, PacketsFreed;
    match op
    case OnVenc(ReleaseStream(v, packs)) =>
      if Accepts(s, v, packs) {
        var mb :| mb in out && out[mb] == v && PacketsFreed(s, out, v, packs) == {mb};
        assert mb in Held(out, v);
        if Counts(s, out) {
          SaturatesExactly(s, out, v, packs);
        }
      }
    case _ =>
  }

  /** So in a careful run the counts are right and no release finds zero. */
  lemma NeverSaturates(now: nat, fps: nat, es: seq<M.Event>)
    requires forall i: nat :: i < |es| ==> CarefulAt(Fresh(now, fps), es, i)
    ensures forall i: nat :: i <= |es| ==> CountsAt(Fresh(now, fps), es, i)
    ensures forall i: nat :: i < |es| ==> !Saturates(M.Run(Fresh(now, fps), es[..i]), es[i].op)
  {
    var start := Fresh(now, fps);
    hide Counts, Fair, Careful, Saturates, M.Run, LedgerOf;
    forall i: nat | i < |es|
      ensures FairAt(start, es, i)
    {
      assert CarefulAt(start, es, i);
      CarefulIsFair(M.Run(start, es[..i]), LedgerOf(start, es[..i]), es[i].op);
    }
    OutstandingExactly(now, fps, es);
    forall i: nat | i < |es|
      ensures !Saturates(M.Run(start, es[..i]), es[i].op)
    {
      assert CarefulAt(start, es, i) && CountsAt(start, es, i);
      CarefulIsFair(M.Run(start, es[..i]), LedgerOf(start, es[..i]), es[i].op);
    }
  }

  // ---------------------------------------------------------------- where it goes wrong

  /** A packet of channel `v` that is given back to another channel: the call is accepted,
      the block is gone, `v` goes on counting it, and the other channel counts one too few,
      or stays at zero if it had none. The counts are wrong from then on. */
  lemma ForeignRelease(s: State, out: Ledger, v: int, w: int, mb: Handle)
    requires Linked(s, out) && Counts(s, out) && CheckVenc(s, w) == Success && mb in out && out[mb] == v && v != w
    ensures var (t, code) := ReleaseStream(s, w, [mb]);
            && code == Success && mb !in t.blocks && v in t.vencs && w in t.vencs
            && t.vencs[v].outstanding == s.vencs[v].outstanding
            && t.vencs[w].outstanding == (if s.vencs[w].outstanding == 0 then 0 else s.vencs[w].outstanding - 1)
            && !Counts(t, Kept(out, t))
    ensures Held(out, w) == {} ==> Saturates(s, M.OnVenc(M.ReleaseStream(w, [mb])))
  {
    var packs := [mb];
    OneFreed(s, out, w, mb);
    ReleaseStreamFair(s, out, w, packs);
    ReleaseIs(s, w, packs);
    hide ReleaseStream, Freed, AllKnown, Held, Kept, Counts, PacketsFreed, Accepts;
    assert !OneOf(PacketsFreed(s, out, w, packs), out, w);
    if Held(out, w) == {} {
      SaturatesExactly(s, out, w, packs);
    }
  }

  lemma OneFreed(s: State, out: Ledger, w: int, mb: Handle)
    requires Linked(s, out) && CheckVenc(s, w) == Success && mb in out
    ensures Accepts(s, w, [mb]) && Freed(s.blocks.Keys, [mb]) == {mb} && mb in PacketsFreed(s, out, w, [mb])
  {
    hide CheckVenc;
    var packs := [mb];
    assert packs[1..] == [] && Freed(s.blocks.Keys, packs) == {mb} + Freed(s.blocks.Keys - {mb}, packs[1..]);
    assert AllKnown(s.blocks.Keys - {mb}, packs[1..]);
  }

  /** The calls of a program that is about to do so: two channels, each with a clip of one
      frame, and a packet from channel 0. */
  function ForeignRun(): seq<M.Event> {
    Preparation() + [M.Event(M.OnVenc(M.SendVenc(0, Picture())), 0), M.Event(M.OnVenc(M.GetStream(0, 8)), 0)]
  }

  function Preparation(): seq<M.Event> {
    [M.Event(M.OnSys(M.Init), 0),
     M.Event(M.OnVenc(M.CreateVenc(0, Some(H264), Nv12, 2, 2, 30, ShortClip())), 0),
     M.Event(M.OnVenc(M.CreateVenc(1, Some(H264), Nv12, 2, 2, 30, ShortClip())), 0),
     M.Event(M.OnVenc(M.StartVenc(0)), 0),
     M.Event(M.OnMb(M.CreatePool(6, 1)), 0),
     M.Event(M.OnMb(M.GetMB(0, 6, 7)), 0)]
  }

  function ShortClip(): Option<seq<Frame>> {
    Some([Frame([], true)])
  }

  function Picture(): VideoFrame {
    VideoFrame(7, Nv12, 2, 2, 2, 2, 0, 1)
  }

  function Channel(started: bool, queue: seq<Image>): VencChn {
    VencChn(Encoder.Stream(H264, 2, 2, 30), started, queue, 0, 0, ShortClip())
  }

  /** The library after `i` of these calls. */
  function Stage(i: nat): State {
    var s := Fresh(0, 0);
    if i == 0 then s else
    s.(initialized := true,
       vencs := if i == 1 then map[]
                else if i == 2 then map[0 := Channel(false, [])]
                else map[0 := Channel(i > 3, []), 1 := Channel(false, [])],
       pools := if i < 5 then map[] else map[0 := Pool(6, 1, if i == 5 then 0 else 1)],
       nextPool := if i < 5 then 0 else 1,
       blocks := if i < 6 then map[] else map[7 := Block(Some(0), seq(6, _ => 0))])
  }

  lemma StageNext(i: nat)
    requires i < 6 && Good(Stage(i))
    ensures M.Legal(Stage(i), Preparation()[i]) && M.Effect(Stage(i), Preparation()[i]) == Stage(i + 1)
  {
    if i < 4 {
      FirstStages(i);
    } else {
      LastStages(i);
    }
    hide *;
  }

  lemma FirstStages(i: nat)
    requires i < 4 && Good(Stage(i))
    ensures M.Legal(Stage(i), Preparation()[i]) && M.Effect(Stage(i), Preparation()[i]) == Stage(i + 1)
  {
    hide Good, M.MbEffect, M.ViEffect, M.VpssEffect, GetStream, SendVenc, ReleaseStream;
  }

  lemma LastStages(i: nat)
    requires 4 <= i < 6 && Good(Stage(i))
    ensures M.Legal(Stage(i), Preparation()[i]) && M.Effect(Stage(i), Preparation()[i]) == Stage(i + 1)
  {
    hide Good, Channel, M.VencEffect, M.SysEffect, M.ViEffect, M.VpssEffect;
  }

  lemma {:induction false} StageIs(i: nat)
    requires i <= 6
    ensures M.Run(Fresh(0, 0), Preparation()[..i]) == Stage(i)
    decreases i
  {
    var start, es := Fresh(0, 0), Preparation();
    hide Good, Inv, M.Run, M.Legal, M.Effect;
    if i == 0 {
      assert es[..0] == [];
      RunNone(start);
    } else {
      StageIs(i - 1);
      OneMore(start, es, i - 1);
      InvAlways(0, 0, es[..i - 1]);
      StageNext(i - 1);
      hide Stage;
    }
  }

  lemma RunNone(start: State)
    ensures M.Run(start, []) == start
  {
  }

  lemma PictureIsTaken()
    ensures ImportFrame(Stage(6), 0, Picture()).Ok? && WellFormed(ImportFrame(Stage(6), 0, Picture()).value)
  {
    var s := Stage(6);
    assert s.blocks[7].data == seq(6, _ => 0);
    ImportFailsExactly(Nv12, 2, 2, 2, 2, s.blocks[7].data, 1);
    hide Import;
  }

  lemma SentAndPacked()
    requires Good(Stage(6))
    ensures var send := M.Event(M.OnVenc(M.SendVenc(0, Picture())), 0);
            var get := M.Event(M.OnVenc(M.GetStream(0, 8)), 0);
            var s := M.Effect(Stage(6), send);
            && M.Legal(Stage(6), send) && M.Legal(s, get)
            && (Good(s) ==> var (t, r) := GetStream(s, 0, 0, 8);
                  && r.Ok? && t.initialized && t.vencs.Keys == {0, 1}
                  && t.vencs[0].outstanding == 1 && t.vencs[1].outstanding == 0
                  && 8 in t.blocks)
  {
    PictureIsTaken();
    hide Good, ImportFrame, WellFormed, PacketOf, M.MbEffect, M.SysEffect, M.ViEffect, M.VpssEffect;
  }

  lemma {:induction false} NoPacketYet(start: State, es: seq<M.Event>)
    requires forall i :: 0 <= i < |es| ==> !(es[i].op.OnVenc? && es[i].op.venc.GetStream?)
    ensures LedgerOf(start, es) == map[]
    decreases |es|
  {
    hide M.Run, M.Next;
    if es != [] {
      NoPacketYet(start, es[..|es| - 1]);
    }
  }

  /** A run that goes wrong: the packet of channel 0 is given back to channel 1. The call is
      accepted although channel 1 has no packet out, the block is gone, channel 0 counts on. */
  lemma RunGoesWrong()
    ensures var (start, es) := (Fresh(0, 0), ForeignRun());
            var (s, out) := (M.Run(start, es), LedgerOf(start, es));
            var (t, code) := ReleaseStream(s, 1, [8]);
            && Counts(s, out) && out == map[8 := 0] && 1 in s.vencs && s.vencs[1].outstanding == 0
            && code == Success && 8 !in t.blocks
            && 0 in t.vencs && t.vencs[0].outstanding == 1 && 1 in t.vencs && t.vencs[1].outstanding == 0
            && !Counts(t, Kept(out, t)) && Saturates(s, M.OnVenc(M.ReleaseStream(1, [8])))
  {
    var start, es := Fresh(0, 0), ForeignRun();
    var (s, out) := (M.Run(start, es), LedgerOf(start, es));
    ForeignRunIs();
    hide Counts, Linked, Kept, ReleaseStream, Held, Saturates, M.Run, LedgerOf, ForeignRun, CheckVenc;
    ForeignRelease(s, out, 0, 1, 8);
  }

  lemma ForeignRunHas()
    ensures var es := ForeignRun();
            && |es| == 8 && es[..6] == Preparation()[..6]
            && es[6] == M.Event(M.OnVenc(M.SendVenc(0, Picture())), 0) && es[7] == M.Event(M.OnVenc(M.GetStream(0, 8)), 0)
            && (forall i :: 0 <= i < 7 ==> !(es[i].op.OnVenc? && es[i].op.venc.GetStream?))
  {
  }

  lemma SevenIs()
    ensures var send := M.Event(M.OnVenc(M.SendVenc(0, Picture())), 0);
            && Good(Stage(6)) && M.Legal(Stage(6), send)
            && M.Run(Fresh(0, 0), ForeignRun()[..7]) == M.Effect(Stage(6), send) && Good(M.Effect(Stage(6), send))
  {
    hide *;
    var start, es := Fresh(0, 0), ForeignRun();
    ForeignRunHas();
    StageIs(6);
    OneMore(start, es, 6);
    InvAlways(0, 0, es[..6]);
    InvAlways(0, 0, es[..7]);
    SendIsLegal(Stage(6), Picture());
    NextIs(Stage(6), es[6]);
  }

  lemma SendIsLegal(s: State, f: VideoFrame)
    ensures M.Legal(s, M.Event(M.OnVenc(M.SendVenc(0, f)), 0))
  {
  }

  lemma NextIs(s: State, e: M.Event)
    requires Inv(s) && M.Legal(s, e)
    ensures Good(s) && M.Next(s, e) == M.Effect(s, e)
  {
    InvIsGood(s);
    hide Good, Inv, M.Legal, M.Effect;
  }

  /** The state before the last call of the run. */
  lemma BeforeFetch() returns (s: State)
    ensures s == M.Run(Fresh(0, 0), ForeignRun()[..7]) && Good(s) && LedgerOf(Fresh(0, 0), ForeignRun()[..7]) == map[]
    ensures M.Legal(s, M.Event(M.OnVenc(M.GetStream(0, 8)), 0)) && VencEnds(s, 0) && Packs(s, 0)
    ensures var (t, r) := GetStream(s, 0, 0, 8);
            && r.Ok? && t.initialized && t.vencs.Keys == {0, 1} && t.vencs[0].outstanding == 1 && t.vencs[1].outstanding == 0
            && 8 in t.blocks
  {
    ForeignRunHas();
    NoPacketYet(Fresh(0, 0), ForeignRun()[..7]);
    hide *;
    SevenIs();
    SentAndPacked();
    s := M.Run(Fresh(0, 0), ForeignRun()[..7]);
    FetchIsLegal(s);
  }

  lemma FetchIsLegal(s: State)
    requires M.Legal(s, M.Event(M.OnVenc(M.GetStream(0, 8)), 0))
    ensures VencEnds(s, 0) && Packs(s, 0)
  {
    hide VencEnds, Packs;
  }

  lemma ForeignRunIs()
    ensures var (s, out) := (M.Run(Fresh(0, 0), ForeignRun()), LedgerOf(Fresh(0, 0), ForeignRun()));
            && out == map[8 := 0] && Linked(s, out) && Counts(s, out) && Held(out, 1) == {}
            && s.vencs.Keys == {0, 1} && s.vencs[0].outstanding == 1 && s.vencs[1].outstanding == 0
            && CheckVenc(s, 1) == Success
  {
    hide *;
    var start, es := Fresh(0, 0), ForeignRun();
    ForeignRunHas();
    var s := BeforeFetch();
    OneMore(start, es, 7);
    assert es[..8] == es;
    Fetched(s);
    OneOut(M.Run(start, es));
  }

  /** A fetch that succeeds puts the first packet out. */
  lemma Fetched(s: State)
    requires Good(s) && VencEnds(s, 0) && Packs(s, 0) && M.Legal(s, M.Event(M.OnVenc(M.GetStream(0, 8)), 0))
    requires GetStream(s, 0, 0, 8).1.Ok?
    ensures var e := M.Event(M.OnVenc(M.GetStream(0, 8)), 0);
            M.Next(s, e) == GetStream(s, 0, 0, 8).0 && NextLedger(s, map[], e) == map[8 := 0]
  {
    hide Good, VencEnds, Packs, GetStream, Kept, M.SysEffect, M.MbEffect, M.ViEffect, M.VpssEffect;
    NothingKept(M.Next(s, M.Event(M.OnVenc(M.GetStream(0, 8)), 0)));
  }

  lemma NothingKept(t: State)
    ensures Kept(map[], t) == map[]
  {
  }

  lemma OneOut(t: State)
    requires t.initialized && t.vencs.Keys == {0, 1} && 8 in t.blocks
    requires t.vencs[0].outstanding == 1 && t.vencs[1].outstanding == 0
    ensures Kept(map[], t) == map[] && Held(map[8 := 0], 1) == {} && Linked(t, map[8 := 0]) && Counts(t, map[8 := 0])
    ensures CheckVenc(t, 1) == Success
  {
    var out: Ledger := map[8 := 0];
    assert Held(out, 0) == {8} && Held(out, 1) == {};
  }
}
