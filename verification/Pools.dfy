/** Conservation of memory blocks: pools always know how many of their blocks are out. */
module Pools {
  import opened Bytes
  import opened Mpi
  import opened Flow
  import opened Strides
  import M = Machine

  /** The live blocks that came from a pool. */
  ghost function Tagged(blocks: map<Handle, Block>, id: nat): set<Handle> {
    set mb | mb in blocks && blocks[mb].pool == Some(id)
  }

  /** A pool's count of used blocks is the number of live blocks tagged with it, and never
      more than the pool has; no block names a missing pool; ids are handed out in order. */
  ghost predicate PoolsOk(s: State) {
    && (forall id :: id in s.pools ==>
          s.pools[id].used == |Tagged(s.blocks, id)| && s.pools[id].used <= s.pools[id].count && id < s.nextPool)
    && (forall mb :: mb in s.blocks && s.blocks[mb].pool.Some? ==> s.blocks[mb].pool.value in s.pools)
  }

  lemma FreshIsOk(now: nat, fps: nat)
    ensures PoolsOk(Fresh(now, fps))
  {
  }

  /** A new block that belongs to no pool. */
  lemma LooseBlock(s: State, t: State, mb: Handle, data: seq<byte>)
    requires PoolsOk(s) && mb !in s.blocks
    requires t.blocks == s.blocks[mb := Block(None, data)] && t.pools == s.pools && t.nextPool == s.nextPool
    ensures PoolsOk(t)
  {
    forall id
      ensures Tagged(t.blocks, id) == Tagged(s.blocks, id)
    {
    }
  }

  lemma Same(s: State, t: State)
    requires PoolsOk(s) && t.blocks == s.blocks && t.pools == s.pools && t.nextPool == s.nextPool
    ensures PoolsOk(t)
  {
  }

  lemma TaggedAdd(blocks: map<Handle, Block>, mb: Handle, b: Block, id: nat)
    requires mb !in blocks
    ensures |Tagged(blocks[mb := b], id)| == |Tagged(blocks, id)| + if b.pool == Some(id) then 1 else 0
  {
    assert Tagged(blocks[mb := b], id) == Tagged(blocks, id) + if b.pool == Some(id) then {mb} else {};
  }

  lemma TaggedRemove(blocks: map<Handle, Block>, mb: Handle, id: nat)
    requires mb in blocks
    ensures |Tagged(blocks - {mb}, id)| == |Tagged(blocks, id)| - if blocks[mb].pool == Some(id) then 1 else 0
    ensures blocks[mb].pool == Some(id) ==> |Tagged(blocks, id)| > 0
  {
    assert Tagged(blocks - {mb}, id) == Tagged(blocks, id) - {mb};
    assert blocks[mb].pool == Some(id) <==> mb in Tagged(blocks, id);
  }

  lemma GetMBKeeps(s: State, id: nat, size: nat, mb: Handle)
    requires PoolsOk(s) && mb !in s.blocks
    ensures PoolsOk(GetMB(s, id, size, mb).0)
  {
    var t := GetMB(s, id, size, mb).0;
    if t != s {
      var b := t.blocks[mb];
      assert t.blocks == s.blocks[mb := b] && b.pool == Some(id);
      hide Tagged;
      forall k | k in t.pools
        ensures t.pools[k].used == |Tagged(t.blocks, k)|
      {
        TaggedAdd(s.blocks, mb, b, k);
      }
    }
  }

  lemma WriteKeeps(s: State, mb: Handle, data: seq<byte>)
    requires PoolsOk(s) && mb in s.blocks && |data| == |s.blocks[mb].data|
    ensures PoolsOk(WriteBlock(s, mb, data))
  {
    var t := WriteBlock(s, mb, data);
    forall id
      ensures Tagged(t.blocks, id) == Tagged(s.blocks, id)
    {
    }
  }

  lemma RemoveLoose(s: State, t: State, mb: Handle)
    requires PoolsOk(s) && mb in s.blocks && s.blocks[mb].pool.None?
    requires t == s.(blocks := s.blocks - {mb})
    ensures PoolsOk(t)
  {
    hide Tagged;
    forall k | k in s.pools
      ensures t.pools[k].used == |Tagged(t.blocks, k)|
    {
      TaggedRemove(s.blocks, mb, k);
    }
  }

  lemma RemoveTagged(s: State, t: State, mb: Handle, id: nat)
    requires PoolsOk(s) && mb in s.blocks && s.blocks[mb].pool == Some(id) && id in s.pools
    requires t == s.(blocks := s.blocks - {mb}, pools := s.pools[id := s.pools[id].(used := s.pools[id].used - 1)])
    ensures PoolsOk(t) && s.pools[id].used > 0
  {
    hide Tagged;
    forall k | k in t.pools
      ensures t.pools[k].used == |Tagged(t.blocks, k)|
    {
      TaggedRemove(s.blocks, mb, k);
    }
    TaggedRemove(s.blocks, mb, id);
  }

  /** Releasing a block of a pool never takes its counter below zero. */
  lemma ReleaseKeeps(s: State, mb: Handle)
    requires PoolsOk(s)
    ensures PoolsOk(ReleaseBlock(s, mb).0)
    ensures mb in s.blocks && s.blocks[mb].pool.Some? ==>
      s.blocks[mb].pool.value in s.pools && s.pools[s.blocks[mb].pool.value].used > 0
  {
    var t := ReleaseBlock(s, mb).0;
    if mb in s.blocks {
      match s.blocks[mb].pool {
        case None => RemoveLoose(s, t, mb);
        case Some(id) =>
          assert id in s.pools;
          hide PoolsOk;
          RemoveTagged(s, t, mb, id);
      }
    }
  }

  lemma {:induction false} ReleasePacksKeeps(s: State, packs: seq<Handle>)
    requires PoolsOk(s)
    ensures PoolsOk(ReleasePacks(s, packs).0)
    decreases |packs|
  {
    if packs != [] {
      ReleaseKeeps(s, packs[0]);
      hide PoolsOk, ReleaseBlock;
      if ReleaseBlock(s, packs[0]).1 {
        ReleasePacksKeeps(ReleaseBlock(s, packs[0]).0, packs[1..]);
      }
    }
  }

  /** A pool that is destroyed has no block left. */
  lemma DestroyKeeps(s: State, id: nat)
    requires PoolsOk(s)
    ensures PoolsOk(DestroyPool(s, id).0)
    ensures DestroyPool(s, id).1 == Success <==> id in s.pools && Tagged(s.blocks, id) == {}
  {
    forall mb | mb in s.blocks && s.blocks[mb].pool == Some(id)
      ensures mb in Tagged(s.blocks, id)
    {
    }
  }

  /** The blocks that survive the exit belong to no pool, so ids can start again at 0. */
  lemma ExitKeeps(s: State, now: nat)
    requires PoolsOk(s)
    ensures PoolsOk(Exit(s, now).0) && Exit(s, now).0.nextPool == 0 && Exit(s, now).0.blocks.Keys == s.blocks.Keys
  {
  }

  lemma MbKeeps(s: State, op: M.MbOp)
    requires PoolsOk(s) && (op.GetMB? ==> op.mb !in s.blocks)
    ensures PoolsOk(M.MbEffect(s, op))
  {
    match op
    case CreatePool(_, _) =>
    case DestroyPool(id) => DestroyKeeps(s, id);
    case GetMB(id, size, mb) => GetMBKeeps(s, id, size, mb);
    case ReleaseMB(mb) => ReleaseKeeps(s, mb);
    case ReleaseFrame(mb) => ReleaseKeeps(s, mb);
    case Write(mb, data) => if mb in s.blocks && |data| == |s.blocks[mb].data| { WriteKeeps(s, mb, data); }
  }

  lemma LooseKeeps(s: State, t: State, mb: Handle)
    requires PoolsOk(s) && mb !in s.blocks && AddsLoose(s, t, mb) && t.pools == s.pools && t.nextPool == s.nextPool
    ensures PoolsOk(t)
  {
    if t.blocks == s.blocks {
      Same(s, t);
    } else {
      LooseBlock(s, t, mb, t.blocks[mb].data);
    }
  }

  lemma VencKeeps(s: State, op: M.VencOp, now: nat)
    requires Good(s) && PoolsOk(s) && M.VencLegal(s, op)
    ensures PoolsOk(M.VencEffect(s, op, now))
  {
    var t := M.VencEffect(s, op, now);
    M.VencTouches(s, op, now);
    hide PoolsOk, Good, VencEnds, Packs, Mpi.SendVenc, ReleasePacks, PullVenc, PacketOf;
    if op.GetStream? {
      LooseKeeps(s, t, op.mb);
    } else if op.ReleaseStream? {
      ReleasePacksKeeps(s, op.packs);
      Same(ReleasePacks(s, op.packs).0, ReleasePacks(s, op.packs).0.(vencs := t.vencs));
    } else {
      Same(s, t);
    }
  }

  /** Every call keeps the books of the pools. */
  lemma PoolsStayOk(s: State, e: M.Event)
    requires PoolsOk(s)
    ensures PoolsOk(M.Next(s, e))
  {
    if Good(s) && M.Legal(s, e) {
      var t := M.Effect(s, e);
      hide PoolsOk, Good, M.VencEffect, M.VpssEffect, M.ViEffect, M.MbEffect;
      match e.op {
        case OnSys(op) =>
          if op.Exit? {
            ExitKeeps(s, e.now);
          } else {
            M.SysTouches(s, op, e.now);
            Same(s, t);
          }
        case OnMb(op) => MbKeeps(s, op);
        case OnVi(op) =>
          M.ViTouches(s, op, e.now);
          ViKeeps(s, op, e.now);
        case OnVpss(op) =>
          M.VpssTouches(s, op, e.now);
          VpssKeeps(s, op, e.now);
        case OnVenc(op) => VencKeeps(s, op, e.now);
      }
    }
  }

  lemma ViKeeps(s: State, op: M.ViOp, now: nat)
    requires Good(s) && PoolsOk(s) && (op.GetViFrame? ==> op.mb !in s.blocks)
    ensures PoolsOk(M.ViEffect(s, op, now))
  {
    var t := M.ViEffect(s, op, now);
    M.ViTouches(s, op, now);
    if op.GetViFrame? {
      hide PoolsOk, Good, GetViFrame;
      LooseKeeps(s, t, op.mb);
    } else {
      hide *;
      Same(s, t);
    }
  }

  lemma VpssKeeps(s: State, op: M.VpssOp, now: nat)
    requires Good(s) && PoolsOk(s) && M.VpssLegal(s, op, now)
    ensures PoolsOk(M.VpssEffect(s, op, now))
  {
    var t := M.VpssEffect(s, op, now);
    M.VpssTouches(s, op, now);
    if op.GetVpssFrame? {
      hide PoolsOk, Good, Ends, GetVpssFrame;
      LooseKeeps(s, t, op.mb);
    } else {
      hide *;
      Same(s, t);
    }
  }

  /** So they are right in every reachable state. */
  lemma {:induction false} PoolsAlwaysOk(now: nat, fps: nat, es: seq<M.Event>)
    ensures PoolsOk(M.Run(Fresh(now, fps), es))
  {
    if es == [] {
      FreshIsOk(now, fps);
    } else {
      PoolsAlwaysOk(now, fps, es[..|es| - 1]);
      PoolsStayOk(M.Run(Fresh(now, fps), es[..|es| - 1]), es[|es| - 1]);
    }
  }
}
