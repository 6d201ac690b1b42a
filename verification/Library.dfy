/** The library's state as the object that the calls change in place. The object remembers its
    calls; every call does to the fields what it does to the state machine, so that whatever
    holds of runs holds of the object. */
module Library {
  import opened AccessUnits
  import opened Bytes
  import opened Encoder
  import opened Images
  import opened Mpi
  import opened Flow
  import opened Pattern
  import opened Strides
  import ImageLoops
  import opened PatternLoops
  import opened Blocking
  import opened Waiting
  import opened FanoutRuns
  import Invariants
  import M = Machine

  /** Whether a group is started does not matter to its channels. */
  lemma SameChns(g: VpssGrp, img: Image)
    requires GoodGrp(g) && GoodImage(img)
    ensures GoodGrp(VpssGrp(true, g.chns))
    ensures Mpi.Process(g, img) == g.(chns := Mpi.Process(VpssGrp(true, g.chns), img).chns)
  {
    hide GoodChn, GoodImage, Fed;
  }

  // ---------------------------------------------------------------- loops

  /** The next element of a collection without an order. */
  method AnyOf<T(==)>(s: set<T>) returns (k: T)
    requires s != {}
    ensures k in s
  {
    k :| k in s;
  }

  lemma NoneLeft<T>(s: set<T>, k: T)
    requires s == {}
    ensures k !in s
  {
  }

  method ForgetPools(was: map<Handle, Block>) returns (r: map<Handle, Block>)
    ensures r == Orphaned(was)
  {
    r := was;
    var todo := was.Keys;
    while todo != {}
      invariant todo <= was.Keys == r.Keys
      invariant forall mb :: mb in was ==> r[mb] == if mb in todo then was[mb] else was[mb].(pool := None)
      decreases |todo|
    {
      var mb := AnyOf(todo);
      todo := todo - {mb};
      r := r[mb := was[mb].(pool := None)];
    }
    forall mb | mb in was
      ensures r[mb] == was[mb].(pool := None)
    {
      NoneLeft(todo, mb);
    }
  }

  /** Pushes a frame into a queue, after popping the oldest ones while it is full. */
  method PushFrame(q: seq<Image>, capacity: nat, img: Image) returns (r: seq<Image>)
    requires capacity > 0
    ensures r == Push(q, capacity, img)
  {
    r := q;
    while |r| >= capacity
      invariant r == Last(q, |r|) && |r| <= |q| && (|r| < |q| ==> |r| >= capacity - 1)
    {
      r := r[1..];
    }
    r := r + [img];
  }

  /** A frame can be painted for every channel of VI. */
  lemma Paintable(s: State, k: (int, int))
    requires Good(s) && k in s.viChns
    ensures Supported(s.viChns[k].format)
  {}

  /** What a channel makes of a frame. */
  method Output(chn: VpssChn, img: Image) returns (out: Image)
    requires GoodChn(chn) && GoodImage(img)
    ensures out == OutputOf(chn, img)
  {
    out := ImageLoops.ConvertLoop(img, Nv12);
    out := ImageLoops.ScaleLoop(out, chn.width, chn.height, chn.mirror, chn.flip);
    out := ImageLoops.ConvertLoop(out, chn.format);
  }

  /** `process`: the loop over the channels. A frame without pixels passes only where no
      channel takes it. */
  method ProcessChns(chns: map<int, VpssChn>, img: Image) returns (r: map<int, VpssChn>)
    requires GoodGrp(VpssGrp(true, chns))
    requires GoodImage(img) || forall c :: c in chns ==> !chns[c].enabled
    ensures if GoodImage(img) then r == Mpi.Process(VpssGrp(true, chns), img).chns else r == chns
  {
    hide GoodImage, GoodChn, OutputOf;
    r := chns;
    var todo := chns.Keys;
    while todo != {}
      invariant todo <= chns.Keys == r.Keys
      invariant forall c :: c in todo ==> r[c] == chns[c]
      invariant forall c :: c in chns && c !in todo ==> r[c] == if GoodImage(img) then Fed(chns[c], img) else chns[c]
      decreases |todo|
    {
      var c := AnyOf(todo);
      todo := todo - {c};
      var chn := chns[c];
      if chn.enabled {
        var out := Output(chn, img);
        var queue := PushFrame(chn.queue, Capacity(chn), out);
        r := r[c := chn.(queue := queue)];
      }
    }
    forall c | c in chns
      ensures r[c] == if GoodImage(img) then Fed(chns[c], img) else chns[c]
    {
      NoneLeft(todo, c);
    }
  }

  method ClearQueues(chns: map<int, VpssChn>) returns (r: map<int, VpssChn>)
    ensures r == AllEmptied(chns)
  {
    r := chns;
    var todo := chns.Keys;
    while todo != {}
      invariant todo <= chns.Keys == r.Keys
      invariant forall c :: c in chns ==> r[c] == if c in todo then chns[c] else Emptied(chns[c])
      decreases |todo|
    {
      var c := AnyOf(todo);
      todo := todo - {c};
      r := r[c := Emptied(chns[c])];
    }
    forall c | c in chns
      ensures r[c] == Emptied(chns[c])
    {
      NoneLeft(todo, c);
    }
  }

  class Rockit {
    var initialized: bool
    var epoch: nat
    var viFps: nat
    var blocks: map<Handle, Block>
    var pools: map<nat, Pool>
    var nextPool: nat
    var binds: map<Chn, Chn>
    var viDevs: map<int, ViDev>
    var viChns: map<(int, int), ViChn>
    var grps: map<int, VpssGrp>
    var vencs: map<int, VencChn>

    ghost const born: nat
    ghost const rate: nat
    ghost var calls: seq<M.Event>

    /** The fields as a value. */
    ghost function Contents(): State
      reads this
    {
      State(initialized, epoch, viFps, blocks, pools, nextPool, binds, viDevs, viChns, grps, vencs)
    }

    /** The fields are what the calls so far have made of a new library, and keep its invariant. */
    ghost predicate Valid()
      reads this
    {
      Invariants.Inv(Contents()) && Contents() == M.Run(Fresh(born, rate), calls)
    }

    /** One more call has been made, with the effect that it has on the state machine. */
    twostate predicate Did(op: M.Op, now: nat)
      reads this
    {
      var e := M.Event(op, now);
      && Valid() && calls == old(calls) + [e]
      && Good(old(Contents())) && M.Legal(old(Contents()), e) && Contents() == M.Effect(old(Contents()), e)
    }

    constructor (now: nat, fps: nat)
      ensures Valid() && Contents() == Fresh(now, fps)
      ensures calls == [] && born == now && rate == fps
    {
      initialized, epoch, viFps := false, now, fps;
      blocks, pools, nextPool, binds := map[], map[], 0, map[];
      viDevs, viChns, grps, vencs := map[], map[], map[], map[];
      born, rate, calls := now, fps, [];
      Invariants.InvAlways(now, fps, []);
    }

    /** Notes a call before it is made. */
    ghost method Note(op: M.Op, now: nat)
      requires Valid() && M.Legal(Contents(), M.Event(op, now))
      modifies `calls
      ensures calls == old(calls) + [M.Event(op, now)]
      ensures Good(Contents()) && Invariants.Inv(M.Effect(Contents(), M.Event(op, now)))
      ensures M.Run(Fresh(born, rate), calls) == M.Effect(Contents(), M.Event(op, now))
    {
      hide Invariants.Inv, Good, M.Legal, M.Effect;
      Invariants.InvIsGood(Contents());
      Invariants.InvKept(Contents(), M.Event(op, now));
      OneStep(Fresh(born, rate), calls, M.Event(op, now));
      calls := calls + [M.Event(op, now)];
    }

    ghost method NoteSys(op: M.SysOp, now: nat)
      requires Valid() && M.Legal(Contents(), M.Event(M.OnSys(op), now))
      modifies `calls
      ensures calls == old(calls) + [M.Event(M.OnSys(op), now)]
      ensures Good(Contents()) && Invariants.Inv(M.SysEffect(Contents(), op, now))
      ensures M.Run(Fresh(born, rate), calls) == M.SysEffect(Contents(), op, now)
              == M.Effect(Contents(), M.Event(M.OnSys(op), now))
    {
      hide Invariants.Inv, Good, M.Run, M.SysEffect;
      Note(M.OnSys(op), now);
    }

    ghost method NoteMb(op: M.MbOp, now: nat)
      requires Valid() && M.Legal(Contents(), M.Event(M.OnMb(op), now))
      modifies `calls
      ensures calls == old(calls) + [M.Event(M.OnMb(op), now)]
      ensures Good(Contents()) && Invariants.Inv(M.MbEffect(Contents(), op))
      ensures M.Run(Fresh(born, rate), calls) == M.MbEffect(Contents(), op)
              == M.Effect(Contents(), M.Event(M.OnMb(op), now))
    {
      hide Invariants.Inv, Good, M.Run, M.MbEffect;
      Note(M.OnMb(op), now);
    }

    ghost method NoteVi(op: M.ViOp, now: nat)
      requires Valid() && M.Legal(Contents(), M.Event(M.OnVi(op), now))
      modifies `calls
      ensures calls == old(calls) + [M.Event(M.OnVi(op), now)]
      ensures Good(Contents()) && Invariants.Inv(M.ViEffect(Contents(), op, now))
      ensures M.Run(Fresh(born, rate), calls) == M.ViEffect(Contents(), op, now)
              == M.Effect(Contents(), M.Event(M.OnVi(op), now))
    {
      hide Invariants.Inv, Good, M.Run, M.ViEffect;
      Note(M.OnVi(op), now);
    }

    ghost method NoteVpss(op: M.VpssOp, now: nat)
      requires Valid() && M.Legal(Contents(), M.Event(M.OnVpss(op), now))
      modifies `calls
      ensures calls == old(calls) + [M.Event(M.OnVpss(op), now)]
      ensures Good(Contents()) && Invariants.Inv(M.VpssEffect(Contents(), op, now))
      ensures M.Run(Fresh(born, rate), calls) == M.VpssEffect(Contents(), op, now)
              == M.Effect(Contents(), M.Event(M.OnVpss(op), now))
    {
      hide Invariants.Inv, Good, M.Run, M.VpssEffect;
      Note(M.OnVpss(op), now);
    }

    ghost method NoteVenc(op: M.VencOp, now: nat)
      requires Valid() && M.Legal(Contents(), M.Event(M.OnVenc(op), now))
      modifies `calls
      ensures calls == old(calls) + [M.Event(M.OnVenc(op), now)]
      ensures Good(Contents()) && Invariants.Inv(M.VencEffect(Contents(), op, now))
      ensures M.Run(Fresh(born, rate), calls) == M.VencEffect(Contents(), op, now)
              == M.Effect(Contents(), M.Event(M.OnVenc(op), now))
    {
      hide Invariants.Inv, Good, M.Run, M.VencEffect;
      Note(M.OnVenc(op), now);
    }

    method Init(ghost now: nat) returns (code: Code)
      requires Valid()
      modifies `initialized, `calls
      ensures (Contents(), code) == Mpi.Init(old(Contents()))
      ensures Did(M.OnSys(M.Init), now)
    {
      hide Invariants.Inv, M.Run, M.Effect;
      NoteSys(M.Init, now);
      initialized := true;
      code := Success;
    }

    /** `Exit`: everything but the blocks goes; these forget their pools. */
    method Exit(now: nat) returns (code: Code)
      requires Valid()
      modifies this
      ensures (Contents(), code) == Mpi.Exit(old(Contents()), now)
      ensures Did(M.OnSys(M.Exit), now)
    {
      hide Invariants.Inv, M.Run, M.Effect, Good, Orphaned;
      NoteSys(M.Exit, now);
      var kept := ForgetPools(blocks);
      initialized, epoch, blocks := false, now, kept;
      ClearTables();
      code := Success;
    }

    method ClearTables()
      modifies `pools, `nextPool, `binds, `viDevs, `viChns, `grps, `vencs
      ensures pools == map[] && nextPool == 0 && binds == map[]
      ensures viDevs == map[] && viChns == map[] && grps == map[] && vencs == map[]
    {
      pools, nextPool, binds := map[], 0, map[];
      viDevs, viChns, grps, vencs := map[], map[], map[], map[];
    }

    /** `rockit_stub_set_vi_fps` */
    method SetFps(ghost now: nat, fps: nat)
      requires Valid()
      modifies `viFps, `calls
      ensures Contents() == Mpi.SetFps(old(Contents()), fps)
      ensures Did(M.OnSys(M.SetFps(fps)), now)
    {
      hide Invariants.Inv, M.Run, M.Effect;
      NoteSys(M.SetFps(fps), now);
      viFps := fps;
    }

    method Bind(ghost now: nat, src: Chn, dst: Chn) returns (code: Code)
      requires Valid()
      modifies `binds, `calls
      ensures (Contents(), code) == Mpi.Bind(old(Contents()), src, dst)
      ensures Did(M.OnSys(M.Bind(src, dst)), now)
    {
      hide Invariants.Inv, M.Run, M.Effect;
      NoteSys(M.Bind(src, dst), now);
      if !initialized {
        return NotReady;
      }
      var key := Dst(dst);
      if key in binds {
        return Exist;
      }
      binds := binds[key := src];
      code := Success;
    }

    method UnBind(ghost now: nat, src: Chn, dst: Chn) returns (code: Code)
      requires Valid()
      modifies `binds, `calls
      ensures (Contents(), code) == Mpi.UnBind(old(Contents()), src, dst)
      ensures Did(M.OnSys(M.UnBind(src, dst)), now)
    {
      hide Invariants.Inv, M.Run, M.Effect;
      NoteSys(M.UnBind(src, dst), now);
      var key := Dst(dst);
      if key in binds && binds[key] == src {
        binds := binds - {key};
        return Success;
      }
      code := Unexist;
    }

    // -------------------------------------------------------------- memory

    method ReleaseBlock(mb: Handle) returns (found: bool)
      modifies `blocks, `pools
      ensures (Contents(), found) == Mpi.ReleaseBlock(old(Contents()), mb)
    {
      if mb !in blocks {
        return false;
      }
      var pool := blocks[mb].pool;
      blocks := blocks - {mb};
      if pool.Some? && pool.value in pools {
        var p := pools[pool.value];
        pools := pools[pool.value := p.(used := p.used - 1)];
      }
      found := true;
    }

    method CreatePool(ghost now: nat, size: nat, count: nat) returns (id: Option<nat>)
      requires Valid()
      modifies `pools, `nextPool, `calls
      ensures (Contents(), id) == Mpi.CreatePool(old(Contents()), size, count)
      ensures Did(M.OnMb(M.CreatePool(size, count)), now)
    {
      hide Invariants.Inv, M.Run, M.Effect;
      NoteMb(M.CreatePool(size, count), now);
      if size == 0 || count == 0 || !initialized {
        return None;
      }
      id := Some(nextPool);
      pools := pools[nextPool := Pool(size, count, 0)];
      nextPool := nextPool + 1;
    }

    method DestroyPool(ghost now: nat, id: nat) returns (code: Code)
      requires Valid()
      modifies `pools, `calls
      ensures (Contents(), code) == Mpi.DestroyPool(old(Contents()), id)
      ensures Did(M.OnMb(M.DestroyPool(id)), now)
    {
      hide Invariants.Inv, M.Run, M.Effect;
      NoteMb(M.DestroyPool(id), now);
      if id !in pools {
        return Unexist;
      }
      if pools[id].used > 0 {
        return Busy;
      }
      pools := pools - {id};
      code := Success;
    }

    /** `mb` is the address that the allocator picks. */
    method GetMB(ghost now: nat, id: nat, size: nat, mb: Handle) returns (ok: bool)
      requires Valid() && mb !in blocks
      modifies `blocks, `pools, `calls
      ensures (Contents(), ok) == Mpi.GetMB(old(Contents()), id, size, mb)
      ensures Did(M.OnMb(M.GetMB(id, size, mb)), now)
    {
      hide Invariants.Inv, M.Run, M.Effect;
      NoteMb(M.GetMB(id, size, mb), now);
      if id !in pools {
        return false;
      }
      var p := pools[id];
      if size > p.blkSize || p.used >= p.count {
        return false;
      }
      pools := pools[id := p.(used := p.used + 1)];
      blocks := blocks[mb := Block(Some(id), seq(p.blkSize, _ => 0))];
      ok := true;
    }

    method ReleaseMB(ghost now: nat, mb: Handle) returns (code: Code)
      requires Valid()
      modifies `blocks, `pools, `calls
      ensures (Contents(), code) == Mpi.ReleaseMB(old(Contents()), mb)
      ensures Did(M.OnMb(M.ReleaseMB(mb)), now)
    {
      hide Invariants.Inv, M.Run, M.Effect;
      NoteMb(M.ReleaseMB(mb), now);
      hide Mpi.ReleaseBlock;
      var found := ReleaseBlock(mb);
      code := if found then Success else Unexist;
    }

    /** `release_frame_block` */
    method ReleaseFrame(ghost now: nat, mb: Handle) returns (code: Code)
      requires Valid()
      modifies `blocks, `pools, `calls
      ensures (Contents(), code) == Mpi.ReleaseFrame(old(Contents()), mb)
      ensures Did(M.OnMb(M.ReleaseFrame(mb)), now)
    {
      hide Invariants.Inv, M.Run, M.Effect;
      NoteMb(M.ReleaseFrame(mb), now);
      hide Mpi.ReleaseBlock;
      var found := ReleaseBlock(mb);
      code := if found then Success else IllegalParam;
    }

    /** `export_frame`; `mb` is the address that the allocator picks. */
    method Export(img: Image, mb: Handle, timeRef: nat) returns (f: VideoFrame)
      modifies `blocks
      ensures (Contents(), f) == ExportFrame(old(Contents()), mb, img, timeRef)
    {
      blocks := blocks[mb := Block(None, Exported(img))];
      f := VideoFrame(mb, img.format, img.width, img.height, img.width, img.height, timeRef, img.pts);
    }

    /** What a user does to a block through its address. */
    method Write(ghost now: nat, mb: Handle, data: seq<byte>)
      requires Valid() && mb in blocks && |data| == |blocks[mb].data|
      modifies `blocks, `calls
      ensures Contents() == WriteBlock(old(Contents()), mb, data)
      ensures Did(M.OnMb(M.Write(mb, data)), now)
    {
      hide Invariants.Inv, M.Run, M.Effect;
      NoteMb(M.Write(mb, data), now);
      blocks := blocks[mb := blocks[mb].(data := data)];
    }

    // -------------------------------------------------------------- VI

    method CheckDevNow(dev: int) returns (code: Code)
      ensures code == CheckDev(Contents(), dev)
    {
      code := if !initialized then NotReady
              else if !(0 <= dev < VI_MAX_DEV_NUM) then InvalidDevId
              else Success;
    }

    /** A device that was never heard of gets an entry. */
    method SetDevAttr(ghost now: nat, dev: int) returns (code: Code)
      requires Valid()
      modifies `viDevs, `calls
      ensures (Contents(), code) == Mpi.SetDevAttr(old(Contents()), dev)
      ensures Did(M.OnVi(M.SetDevAttr(dev)), now)
    {
      hide Invariants.Inv, M.Run, M.Effect, Flow.GetViFrame;
      NoteVi(M.SetDevAttr(dev), now);
      code := CheckDevNow(dev);
      if code != Success {
        return;
      }
      ghost var was := viDevs;
      if dev !in viDevs {
        viDevs := viDevs[dev := ViDev(false, false, None)];
      }
      assert viDevs == was[dev := viDevs[dev]];
      if viDevs[dev].enabled {
        return NotPerm;
      }
      viDevs := viDevs[dev := viDevs[dev].(configured := true)];
      assert viDevs == was[dev := viDevs[dev]];
    }

    method EnableDev(ghost now: nat, dev: int) returns (code: Code)
      requires Valid()
      modifies `viDevs, `calls
      ensures (Contents(), code) == Mpi.EnableDev(old(Contents()), dev)
      ensures Did(M.OnVi(M.EnableDev(dev)), now)
    {
      hide Invariants.Inv, M.Run, M.Effect, Flow.GetViFrame;
      NoteVi(M.EnableDev(dev), now);
      code := CheckDevNow(dev);
      if code != Success {
        return;
      }
      if !(dev in viDevs && viDevs[dev].configured) {
        return NotConfig;
      }
      if viDevs[dev].enabled {
        return DevExist;
      }
      viDevs := viDevs[dev := viDevs[dev].(enabled := true)];
    }

    method DisableDev(ghost now: nat, dev: int) returns (code: Code)
      requires Valid()
      modifies `viDevs, `calls
      ensures (Contents(), code) == Mpi.DisableDev(old(Contents()), dev)
      ensures Did(M.OnVi(M.DisableDev(dev)), now)
    {
      hide Invariants.Inv, M.Run, M.Effect, Flow.GetViFrame;
      NoteVi(M.DisableDev(dev), now);
      code := CheckDevNow(dev);
      if code != Success {
        return;
      }
      if !(dev in viDevs && viDevs[dev].enabled) {
        return DevUnexist;
      }
      viDevs := viDevs[dev := viDevs[dev].(enabled := false, pipes := None)];
    }

    method SetDevBindPipe(ghost now: nat, dev: int, pipes: seq<int>) returns (code: Code)
      requires Valid()
      modifies `viDevs, `calls
      ensures (Contents(), code) == Mpi.SetDevBindPipe(old(Contents()), dev, pipes)
      ensures Did(M.OnVi(M.SetDevBindPipe(dev, pipes)), now)
    {
      hide Invariants.Inv, M.Run, M.Effect, Flow.GetViFrame;
      NoteVi(M.SetDevBindPipe(dev, pipes), now);
      code := CheckDevNow(dev);
      if code != Success {
        return;
      }
      if !(1 <= |pipes| <= VI_MAX_PHY_PIPE_NUM) || exists p :: p in pipes && !(0 <= p < VI_MAX_PIPE_NUM) {
        return IllegalParam;
      }
      var taken := OthersHave(dev, pipes);
      if taken {
        return Exist;
      }
      if !(dev in viDevs && viDevs[dev].enabled) {
        return NotConfig;
      }
      if viDevs[dev].pipes.Some? {
        return NotPerm;
      }
      viDevs := viDevs[dev := viDevs[dev].(pipes := Some(pipes))];
    }

    /** Whether another device has one of the pipes. */
    method OthersHave(dev: int, pipes: seq<int>) returns (taken: bool)
      ensures taken <==> exists p, d :: p in pipes && d in viDevs && d != dev && PipeOf(Contents(), p, d)
    {
      taken := false;
      for i := 0 to |pipes|
        invariant taken <==> exists p, d :: p in pipes[..i] && d in viDevs && d != dev && PipeOf(Contents(), p, d)
      {
        ghost var s := Contents();
        var other := exists d :: d in viDevs && d != dev && viDevs[d].enabled && viDevs[d].pipes.Some?
                                 && pipes[i] in viDevs[d].pipes.value;
        assert other <==> exists d :: d in viDevs && d != dev && PipeOf(s, pipes[i], d);
        assert pipes[..i + 1] == pipes[..i] + [pipes[i]];
        taken := taken || other;
      }
      assert pipes[..|pipes|] == pipes;
    }

    /** `pipe_dev` */
    method HasDevNow(pipe: int) returns (found: bool)
      ensures found == HasDev(Contents(), pipe)
    {
      found := exists d :: d in viDevs && viDevs[d].enabled && viDevs[d].pipes.Some? && pipe in viDevs[d].pipes.value;
      ghost var s := Contents();
      assert forall d :: d in viDevs ==> (PipeOf(s, pipe, d) <==>
        viDevs[d].enabled && viDevs[d].pipes.Some? && pipe in viDevs[d].pipes.value);
    }

    method SetViChnAttr(ghost now: nat, pipe: int, chn: int, w: nat, h: nat, format: PixelFormat) returns (code: Code)
      requires Valid()
      modifies `viChns, `calls
      ensures (Contents(), code) == Mpi.SetViChnAttr(old(Contents()), pipe, chn, w, h, format)
      ensures Did(M.OnVi(M.SetViChnAttr(pipe, chn, w, h, format)), now)
    {
      hide Invariants.Inv, M.Run, M.Effect, Flow.GetViFrame;
      NoteVi(M.SetViChnAttr(pipe, chn, w, h, format), now);
      code := CheckViNow(pipe, chn);
      if code != Success {
        return;
      }
      hide HasDev;
      var found := HasDevNow(pipe);
      if !found {
        return NotConfig;
      }
      if w == 0 || h == 0 {
        return IllegalParam;
      }
      if !Supported(format) {
        return NotSupport;
      }
      var k := (pipe, chn);
      if k in viChns && viChns[k].enabled {
        return NotPerm;
      }
      viChns := viChns[k := ViChn(w, h, format, false, 0, None)];
    }

    method EnableViChn(ghost now: nat, pipe: int, chn: int) returns (code: Code)
      requires Valid()
      modifies `viChns, `calls
      ensures (Contents(), code) == Mpi.EnableViChn(old(Contents()), pipe, chn)
      ensures Did(M.OnVi(M.EnableViChn(pipe, chn)), now)
    {
      hide Invariants.Inv, M.Run, M.Effect, Flow.GetViFrame;
      NoteVi(M.EnableViChn(pipe, chn), now);
      code := CheckViNow(pipe, chn);
      if code != Success {
        return;
      }
      hide HasDev;
      var found := HasDevNow(pipe);
      var k := (pipe, chn);
      if !found || k !in viChns {
        return NotConfig;
      }
      if viChns[k].enabled {
        return Exist;
      }
      viChns := viChns[k := viChns[k].(enabled := true, nextDue := None)];
    }

    method DisableViChn(ghost now: nat, pipe: int, chn: int) returns (code: Code)
      requires Valid()
      modifies `viChns, `calls
      ensures (Contents(), code) == Mpi.DisableViChn(old(Contents()), pipe, chn)
      ensures Did(M.OnVi(M.DisableViChn(pipe, chn)), now)
    {
      hide Invariants.Inv, M.Run, M.Effect, Flow.GetViFrame;
      NoteVi(M.DisableViChn(pipe, chn), now);
      code := CheckViNow(pipe, chn);
      if code != Success {
        return;
      }
      var k := (pipe, chn);
      if !(k in viChns && viChns[k].enabled) {
        return Unexist;
      }
      viChns := viChns[k := viChns[k].(enabled := false)];
    }

    // -------------------------------------------------------------- VPSS

    method CreateGrp(ghost now: nat, g: int, format: PixelFormat) returns (code: Code)
      requires Valid()
      modifies `grps, `calls
      ensures (Contents(), code) == Mpi.CreateGrp(old(Contents()), g, format)
      ensures Did(M.OnVpss(M.CreateGrp(g, format)), now)
    {
      hide Invariants.Inv, M.Run, M.Effect, Flow.GetVpssFrame, Flow.SendVpss;
      NoteVpss(M.CreateGrp(g, format), now);
      if !initialized {
        return NotReady;
      }
      if !(0 <= g < VPSS_MAX_GRP_NUM) {
        return InvalidDevId;
      }
      if !Supported(format) {
        return NotSupport;
      }
      if g in grps {
        return GroupExist;
      }
      grps := grps[g := VpssGrp(false, map[])];
      code := Success;
    }

    method DestroyGrp(ghost now: nat, g: int) returns (code: Code)
      requires Valid()
      modifies `grps, `calls
      ensures (Contents(), code) == Mpi.DestroyGrp(old(Contents()), g)
      ensures Did(M.OnVpss(M.DestroyGrp(g)), now)
    {
      hide Invariants.Inv, M.Run, M.Effect, Flow.GetVpssFrame, Flow.SendVpss;
      NoteVpss(M.DestroyGrp(g), now);
      code := CheckGrpNow(g);
      if code != Success {
        return;
      }
      if grps[g].started {
        return Busy;
      }
      grps := grps - {g};
    }

    method CheckChnNow(g: int, c: int) returns (code: Code)
      ensures code == CheckVpssChn(Contents(), g, c)
    {
      code := CheckGrpNow(g);
      if code == Success && !(0 <= c < VPSS_MAX_CHN_NUM) {
        code := InvalidChnId;
      }
    }

    /** A channel that is configured again stays enabled if it was, with an empty queue. */
    method SetVpssChnAttr(ghost now: nat, g: int, c: int, attr: VpssChn) returns (code: Code)
      requires Valid()
      modifies `grps, `calls
      ensures (Contents(), code) == Mpi.SetVpssChnAttr(old(Contents()), g, c, attr)
      ensures Did(M.OnVpss(M.SetVpssChnAttr(g, c, attr)), now)
    {
      hide Invariants.Inv, M.Run, M.Effect, Flow.GetVpssFrame, Flow.SendVpss;
      NoteVpss(M.SetVpssChnAttr(g, c, attr), now);
      code := CheckChnNow(g, c);
      if code != Success {
        return;
      }
      if attr.width == 0 || attr.height == 0 {
        return IllegalParam;
      }
      if !Supported(attr.format) {
        return NotSupport;
      }
      var chns := grps[g].chns;
      var enabled := c in chns && chns[c].enabled;
      PutChn(g, c, attr.(enabled := enabled, number := 0, queue := []));
    }

    method PutChn(g: int, c: int, chn: VpssChn)
      requires g in grps
      modifies `grps
      ensures Contents() == SetChn(old(Contents()), g, c, chn)
    {
      grps := grps[g := grps[g].(chns := grps[g].chns[c := chn])];
    }

    method EnableVpssChn(ghost now: nat, g: int, c: int) returns (code: Code)
      requires Valid()
      modifies `grps, `calls
      ensures (Contents(), code) == Mpi.EnableVpssChn(old(Contents()), g, c)
      ensures Did(M.OnVpss(M.EnableVpssChn(g, c)), now)
    {
      hide Invariants.Inv, M.Run, M.Effect, Flow.GetVpssFrame, Flow.SendVpss;
      NoteVpss(M.EnableVpssChn(g, c), now);
      code := CheckChnNow(g, c);
      if code != Success {
        return;
      }
      if c !in grps[g].chns {
        return NotConfig;
      }
      PutChn(g, c, grps[g].chns[c].(enabled := true));
    }

    method DisableVpssChn(ghost now: nat, g: int, c: int) returns (code: Code)
      requires Valid()
      modifies `grps, `calls
      ensures (Contents(), code) == Mpi.DisableVpssChn(old(Contents()), g, c)
      ensures Did(M.OnVpss(M.DisableVpssChn(g, c)), now)
    {
      hide Invariants.Inv, M.Run, M.Effect, Flow.GetVpssFrame, Flow.SendVpss;
      NoteVpss(M.DisableVpssChn(g, c), now);
      code := CheckChnNow(g, c);
      if code != Success {
        return;
      }
      if !(c in grps[g].chns && grps[g].chns[c].enabled) {
        return Unexist;
      }
      PutChn(g, c, grps[g].chns[c].(enabled := false, queue := []));
    }

    /** `process`; a frame without pixels passes only where no channel takes it. */
    method Process(g: int, img: Image)
      requires Good(Contents()) && g in grps
      requires GoodImage(img) || forall c :: c in grps[g].chns ==> !grps[g].chns[c].enabled
      modifies `grps
      ensures Contents() == if GoodImage(img) then Feed(old(Contents()), g, img) else old(Contents())
      ensures Good(Contents())
    {
      ghost var was := Contents();
      assert GoodGrp(grps[g]);
      if GoodImage(img) {
        FeedKeeps(was, g, img);
        SameChns(grps[g], img);
      }
      hide GoodImage, Good, Mpi.Process, GoodGrp;
      var chns := ProcessChns(grps[g].chns, img);
      grps := grps[g := grps[g].(chns := chns)];
    }

    method SetStarted(ghost now: nat, g: int, started: bool) returns (code: Code)
      requires Valid()
      modifies `grps, `calls
      ensures (Contents(), code) == Mpi.SetStarted(old(Contents()), g, started)
      ensures Did(M.OnVpss(M.SetStarted(g, started)), now)
    {
      hide Invariants.Inv, M.Run, M.Effect, Flow.GetVpssFrame, Flow.SendVpss;
      NoteVpss(M.SetStarted(g, started), now);
      code := CheckGrpNow(g);
      if code != Success {
        return;
      }
      if grps[g].started == started {
        return NotPerm;
      }
      var group := grps[g].(started := started);
      if !started {
        var chns := ClearQueues(group.chns);
        group := group.(chns := chns);
      }
      grps := grps[g := group];
    }

    method CheckGrpNow(g: int) returns (code: Code)
      ensures code == CheckGrp(Contents(), g)
    {
      code := if !initialized then NotReady
              else if !(0 <= g < VPSS_MAX_GRP_NUM) then InvalidDevId
              else if g !in grps then GroupUnexist
              else Success;
    }

    method SendVpss(now: nat, g: int, f: VideoFrame) returns (code: Code)
      requires Valid() && Scalable(Contents(), now, g, f)
      modifies `grps, `calls
      ensures (Contents(), code) == (Flow.SendVpss(old(Contents()), now, g, f).0, Flow.SendVpss(old(Contents()), now, g, f).1)
      ensures Did(M.OnVpss(M.SendVpss(g, f)), now)
    {
      hide Invariants.Inv, M.Run, M.Effect, Flow.GetVpssFrame;
      NoteVpss(M.SendVpss(g, f), now);
      code := CheckGrpNow(g);
      if code != Success {
        return;
      }
      if !grps[g].started {
        return NotPerm;
      }
      ImportedIsGood(Contents(), now, f);
      hide Good, Feed, Import;
      var imported := ImportNow(now, f);
      if imported.Err? {
        return imported.error;
      }
      Process(g, imported.value);
    }

    method ImportNow(now: nat, f: VideoFrame) returns (r: Result<Image, Code>)
      ensures r == ImportFrame(Contents(), now, f)
    {
      if f.mb !in blocks {
        return Err(IllegalParam);
      }
      var pts := if f.pts != 0 then f.pts else if now < epoch then 0 else (now - epoch) / 1000;
      var img := ImportLoop(f.format, f.width, f.height, Max(f.virWidth, f.width), Max(f.virHeight, f.height),
                            blocks[f.mb].data, pts);
      r := if img.None? then Err(IllegalParam) else Ok(img.value);
    }

    // -------------------------------------------------------------- attempts

    /** `pull` of VI */
    method PullVi(now: nat, pipe: int, chn: int) returns (o: Outcome)
      requires Good(Contents())
      modifies `viChns
      ensures var p := Flow.PullVi(old(Contents()), now, pipe, chn); Contents() == p.state && o == p.outcome
      ensures Good(Contents())
    {
      hide Good, TestPattern;
      var check := CheckViNow(pipe, chn);
      if check != Success {
        return Failed(check);
      }
      var k := (pipe, chn);
      if !(k in viChns && viChns[k].enabled) {
        return Failed(Unexist);
      }
      var c := viChns[k];
      Paintable(Contents(), k);
      if viFps > 0 {
        var due := if c.nextDue.Some? then c.nextDue.value else now;
        if now < due {
          return NotYet(Some(due));
        }
        c := c.(nextDue := Some(Max(due + Period(viFps), now)));
      }
      c := c.(number := c.number + 1);
      var img := TestPatternLoop(c.format, c.width, c.height, c.number, if now < epoch then 0 else (now - epoch) / 1000);
      o := Ready(img);
      viChns := viChns[k := c];
    }

    method CheckViNow(pipe: int, chn: int) returns (code: Code)
      ensures code == CheckViChn(Contents(), pipe, chn)
    {
      code := if !initialized then NotReady
              else if !(0 <= pipe < VI_MAX_PIPE_NUM) then InvalidPipeId
              else if !(0 <= chn < VI_MAX_CHN_NUM) then InvalidChnId
              else Success;
    }

    /** Counts a frame and takes the head of the queue. */
    method TakeHead(g: int, c: int) returns (o: Outcome)
      requires Good(Contents()) && g in grps && c in grps[g].chns
      modifies `grps
      ensures var p := Flow.TakeHead(old(Contents()), g, c); Contents() == p.state && o == p.outcome
    {
      hide Good;
      var chn := grps[g].chns[c];
      chn := chn.(number := chn.number + 1);
      if chn.queue == [] {
        o := NotYet(None);
      } else {
        o := Ready(chn.queue[0]);
        chn := chn.(queue := chn.queue[1..]);
      }
      grps := grps[g := grps[g].(chns := grps[g].chns[c := chn])];
    }

    /** `pull` of VPSS */
    method PullVpss(now: nat, g: int, c: int) returns (o: Outcome)
      requires Good(Contents()) && Ends(Contents(), g, c)
      modifies `grps, `viChns
      ensures var p := Flow.PullVpss(old(Contents()), now, g, c); Contents() == p.state && o == p.outcome
      ensures Good(Contents())
      decreases Depth(Contents(), g, c), 0
    {
      hide Good, Feed, Flow.TakeHead, Upstream, Ends, BoundEnds, Depth, BoundDepth;
      var check := CheckGrpNow(g);
      if check != Success {
        return Failed(check);
      }
      if !(0 <= c < VPSS_MAX_CHN_NUM) {
        return Failed(InvalidChnId);
      }
      if !(c in grps[g].chns && grps[g].chns[c].enabled && grps[g].started) {
        return Failed(NotPerm);
      }
      if grps[g].chns[c].queue == [] {
        ghost var was := Contents();
        StarvedEnds(was, g, c);
        var up := Inlet(g);
        if up !in binds {
          return NotYet(None);
        }
        o := PullBound(now, up);
        if !o.Ready? {
          return;
        }
        FeedWorks(was, Flow.PullBound(was, now, up).value, g, c);
        Process(g, o.image);
      }
      o := TakeHead(g, c);
    }

    /** `pull_bound`, for a sink that is bound */
    method PullBound(now: nat, dst: Chn) returns (o: Outcome)
      requires Good(Contents()) && dst in binds && BoundEnds(Contents(), dst)
      modifies `grps, `viChns
      ensures var p := Flow.PullBound(old(Contents()), now, dst).value; Contents() == p.state && o == p.outcome
      ensures Good(Contents())
      decreases BoundDepth(Contents(), dst), 1
    {
      var src := binds[dst];
      hide Good, Flow.PullVi, Ends, BoundEnds, Depth;
      match src.mod
      case Vi => o := PullVi(now, src.dev, src.chn);
      case Vpss =>
        SourceEnds(Contents(), dst);
        o := PullVpss(now, src.dev, src.chn);
      case _ => o := Failed(NotSupport);
    }

    /** `pull` of VENC */
    method PullVenc(now: nat, v: int) returns (o: Outcome)
      requires Good(Contents()) && VencEnds(Contents(), v)
      modifies `vencs, `grps, `viChns
      ensures var p := Flow.PullVenc(old(Contents()), now, v); Contents() == p.state && o == p.outcome
      ensures Good(Contents())
    {
      hide Good, Flow.PullBound, Upstream, BoundEnds;
      var check := CheckVencNow(v);
      if check != Success {
        return Failed(check);
      }
      var chn := vencs[v];
      if !chn.started {
        return Failed(NotPerm);
      }
      if chn.queue != [] {
        vencs := vencs[v := chn.(queue := chn.queue[1..])];
        return Ready(chn.queue[0]);
      }
      var up := Chn(Venc, 0, v);
      if up !in binds {
        return NotYet(None);
      }
      o := PullBound(now, up);
    }

    method CheckVencNow(v: int) returns (code: Code)
      ensures code == CheckVenc(Contents(), v)
    {
      code := if !initialized then NotReady
              else if !(0 <= v < VENC_MAX_CHN_NUM) then InvalidChnId
              else if v !in vencs then Unexist
              else Success;
    }

    // -------------------------------------------------------------- encoder channels

    method SendVenc(now: nat, v: int, f: VideoFrame) returns (code: Code)
      requires Valid()
      modifies `vencs, `calls
      ensures (Contents(), code) == Mpi.SendVenc(old(Contents()), now, v, f)
      ensures Did(M.OnVenc(M.SendVenc(v, f)), now)
    {
      hide Invariants.Inv, M.Run, M.Effect, Flow.GetStream;
      NoteVenc(M.SendVenc(v, f), now);
      code := CheckVencNow(v);
      if code != Success {
        return;
      }
      if !vencs[v].started {
        return NotPerm;
      }
      hide ImportFrame;
      var imported := ImportNow(now, f);
      if imported.Err? {
        return imported.error;
      }
      var chn := vencs[v];
      if |chn.queue| >= INPUT_QUEUE_DEPTH {
        return BufFull;
      }
      vencs := vencs[v := chn.(queue := chn.queue + [imported.value])];
    }

    method StopVenc(ghost now: nat, v: int) returns (code: Code)
      requires Valid()
      modifies `vencs, `calls
      ensures (Contents(), code) == Mpi.StopVenc(old(Contents()), v)
      ensures Did(M.OnVenc(M.StopVenc(v)), now)
    {
      hide Invariants.Inv, M.Run, M.Effect, Flow.GetStream;
      NoteVenc(M.StopVenc(v), now);
      code := CheckVencNow(v);
      if code == Success {
        vencs := vencs[v := vencs[v].(started := false, queue := [])];
      }
    }

    method DestroyVenc(ghost now: nat, v: int) returns (code: Code)
      requires Valid()
      modifies `vencs, `calls
      ensures (Contents(), code) == Mpi.DestroyVenc(old(Contents()), v)
      ensures Did(M.OnVenc(M.DestroyVenc(v)), now)
    {
      hide Invariants.Inv, M.Run, M.Effect, Flow.GetStream;
      NoteVenc(M.DestroyVenc(v), now);
      code := CheckVencNow(v);
      if code != Success {
        return;
      }
      var bound := Chn(Venc, 0, v) in binds;
      if vencs[v].started || bound {
        return Busy;
      }
      vencs := vencs - {v};
    }

    method CreateVenc(ghost now: nat, v: int, codec: Option<Codec>, format: PixelFormat, w: nat, h: nat, gop: nat,
                      clip: Option<seq<Frame>>)
      returns (code: Code)
      requires Valid() && (clip.Some? ==> clip.value != [])
      modifies `vencs, `calls
      ensures (Contents(), code) == Mpi.CreateVenc(old(Contents()), v, codec, format, w, h, gop, clip)
      ensures Did(M.OnVenc(M.CreateVenc(v, codec, format, w, h, gop, clip)), now)
    {
      hide Invariants.Inv, M.Run, M.Effect, Flow.GetStream;
      NoteVenc(M.CreateVenc(v, codec, format, w, h, gop, clip), now);
      if !initialized {
        return NotReady;
      }
      if !(0 <= v < VENC_MAX_CHN_NUM) {
        return InvalidChnId;
      }
      if v in vencs {
        return Exist;
      }
      if codec.None? || !Supported(format) {
        return NotSupport;
      }
      if w == 0 || h == 0 {
        return IllegalParam;
      }
      var stream := Stream(codec.value, w, h, if gop == 0 then DEFAULT_GOP else gop);
      vencs := vencs[v := VencChn(stream, false, [], 0, 0, clip)];
      code := Success;
    }

    method StartVenc(ghost now: nat, v: int) returns (code: Code)
      requires Valid()
      modifies `vencs, `calls
      ensures (Contents(), code) == Mpi.StartVenc(old(Contents()), v)
      ensures Did(M.OnVenc(M.StartVenc(v)), now)
    {
      hide Invariants.Inv, M.Run, M.Effect, Flow.GetStream;
      NoteVenc(M.StartVenc(v), now);
      code := CheckVencNow(v);
      if code != Success {
        return;
      }
      vencs := vencs[v := vencs[v].(started := true)];
    }

    /** `GetChnFrame` of VI, when it does not wait. */
    method GetViFrame(now: nat, pipe: int, chn: int, mb: Handle) returns (r: Result<VideoFrame, Code>)
      requires Valid() && mb !in blocks
      modifies `viChns, `blocks, `calls
      ensures (Contents(), r) == Flow.GetViFrame(old(Contents()), now, pipe, chn, mb)
      ensures Did(M.OnVi(M.GetViFrame(pipe, chn, mb)), now)
    {
      hide Invariants.Inv, M.Run, M.Effect, Good, Flow.GetViFrame;
      NoteVi(M.GetViFrame(pipe, chn, mb), now);
      r := FetchVi(now, pipe, chn, mb);
    }

    method FetchVi(now: nat, pipe: int, chn: int, mb: Handle) returns (r: Result<VideoFrame, Code>)
      requires Good(Contents())
      modifies `viChns, `blocks
      ensures (Contents(), r) == Flow.GetViFrame(old(Contents()), now, pipe, chn, mb)
    {
      hide Good, Flow.PullVi, Exported;
      var o := PullVi(now, pipe, chn);
      match o
      case NotYet(_) => r := Err(BufEmpty);
      case Failed(code) => r := Err(code);
      case Ready(img) =>
        var f := Export(img, mb, if (pipe, chn) in viChns then viChns[(pipe, chn)].number * 2 else 0);
        r := Ok(f);
    }

    /** `GetChnFrame` of VPSS, when it does not wait. */
    method GetVpssFrame(now: nat, g: int, c: int, mb: Handle) returns (r: Result<VideoFrame, Code>)
      requires Valid() && mb !in blocks && Ends(Contents(), g, c)
      modifies `grps, `viChns, `blocks, `calls
      ensures (Contents(), r) == Flow.GetVpssFrame(old(Contents()), now, g, c, mb)
      ensures Did(M.OnVpss(M.GetVpssFrame(g, c, mb)), now)
    {
      hide Invariants.Inv, M.Run, M.Effect, Good, Flow.SendVpss, Flow.GetVpssFrame;
      NoteVpss(M.GetVpssFrame(g, c, mb), now);
      r := FetchVpss(now, g, c, mb);
    }

    method FetchVpss(now: nat, g: int, c: int, mb: Handle) returns (r: Result<VideoFrame, Code>)
      requires Good(Contents()) && Ends(Contents(), g, c)
      modifies `grps, `viChns, `blocks
      ensures (Contents(), r) == Flow.GetVpssFrame(old(Contents()), now, g, c, mb)
    {
      hide Good, Flow.PullVpss, Exported;
      var o := PullVpss(now, g, c);
      match o
      case NotYet(_) => r := Err(BufEmpty);
      case Failed(code) => r := Err(code);
      case Ready(img) =>
        var known := g in grps && c in grps[g].chns;
        var f := Export(img, mb, if known then grps[g].chns[c].number * 2 else 0);
        r := Ok(f);
    }

    /** Gives back the blocks of a packet list and counts a packet less. */
    method ReleaseStream(ghost now: nat, v: int, packs: seq<Handle>) returns (code: Code)
      requires Valid()
      modifies `vencs, `blocks, `pools, `calls
      ensures (Contents(), code) == Mpi.ReleaseStream(old(Contents()), v, packs)
      ensures Did(M.OnVenc(M.ReleaseStream(v, packs)), now)
    {
      hide Invariants.Inv, M.Run, M.Effect, Good, Flow.GetStream, Mpi.ReleasePacks;
      NoteVenc(M.ReleaseStream(v, packs), now);
      code := CheckVencNow(v);
      if code != Success {
        return;
      }
      if packs == [] {
        return IllegalParam;
      }
      var all := ReleaseAll(packs);
      if !all {
        return IllegalParam;
      }
      var chn := vencs[v];
      vencs := vencs[v := chn.(outstanding := if chn.outstanding == 0 then 0 else chn.outstanding - 1)];
    }

    /** Releases the blocks of a list, in a loop that stops at an unknown one. */
    method ReleaseAll(packs: seq<Handle>) returns (all: bool)
      modifies `blocks, `pools
      ensures (Contents(), all) == ReleasePacks(old(Contents()), packs)
    {
      hide Mpi.ReleaseBlock;
      ghost var was := Contents();
      for i := 0 to |packs|
        invariant Contents() == was.(blocks := blocks, pools := pools)
        invariant ReleasePacks(was, packs) == ReleasePacks(Contents(), packs[i..])
      {
        var found := ReleaseBlock(packs[i]);
        assert packs[i..][0] == packs[i] && packs[i..][1..] == packs[i + 1..];
        if !found {
          return false;
        }
      }
      all := true;
    }

    /** `mb` is the address that the allocator picks for the packet. */
    method GetStream(now: nat, v: int, mb: Handle) returns (r: Result<Packet, Code>)
      requires Valid() && mb !in blocks && VencEnds(Contents(), v) && Packs(Contents(), v)
      modifies this
      ensures (Contents(), r) == Flow.GetStream(old(Contents()), now, v, mb)
      ensures Did(M.OnVenc(M.GetStream(v, mb)), now)
    {
      hide Invariants.Inv, M.Run, M.Effect, Flow.GetStream;
      NoteVenc(M.GetStream(v, mb), now);
      r := FetchStream(now, v, mb);
    }

    /** Pulls an image and makes a packet of it. */
    method FetchStream(now: nat, v: int, mb: Handle) returns (r: Result<Packet, Code>)
      requires Good(Contents()) && VencEnds(Contents(), v) && Packs(Contents(), v)
      modifies `vencs, `grps, `viChns, `blocks
      ensures (Contents(), r) == Flow.GetStream(old(Contents()), now, v, mb)
    {
      hide Good, Flow.PullVenc, PacketOf;
      ghost var was := Contents();
      var o := PullVenc(now, v);
      match o
      case NotYet(_) => r := Err(BufEmpty);
      case Failed(code) => r := Err(code);
      case Ready(img) =>
        var packet := PackPulled(was, now, v, img, mb);
        r := Ok(packet);
    }

    /** Makes a packet of what a pull from `s` has delivered. */
    method PackPulled(ghost s: State, ghost now: nat, v: int, img: Image, mb: Handle) returns (packet: Packet)
      requires Good(s) && VencEnds(s, v) && Packs(s, v)
      requires Contents() == Flow.PullVenc(s, now, v).state && Flow.PullVenc(s, now, v).outcome == Ready(img)
      modifies `vencs, `blocks
      ensures (Contents(), Ok(packet)) == Flow.GetStream(s, now, v, mb)
      ensures calls == old(calls)
    {
      hide Good, VencEnds, Packs, Flow.PullVenc, PacketOf, GoodVenc, Packable;
      PacksPulled(s, now, v);
      packet := Pack(v, img, mb);
    }

    /** Makes a packet of an image, numbers it and counts it. */
    method Pack(v: int, img: Image, mb: Handle) returns (packet: Packet)
      requires v in vencs && GoodVenc(vencs[v]) && WellFormed(img) && Packable(vencs[v], img)
      modifies `vencs, `blocks
      ensures var c := old(vencs[v]);
              && packet == Packet(mb, PacketOf(c, img), c.number, img.pts)
              && vencs == old(vencs)[v := c.(number := c.number + 1, outstanding := c.outstanding + 1)]
              && blocks == old(blocks)[mb := Block(None, packet.frame.data)]
    {
      hide GoodVenc, WellFormed, Packable, PacketOf;
      var c := vencs[v];
      var frame := PacketOf(c, img);
      vencs := vencs[v := c.(number := c.number + 1, outstanding := c.outstanding + 1)];
      blocks := blocks[mb := Block(None, frame.data)];
      packet := Packet(mb, frame, c.number, img.pts);
    }

    // -------------------------------------------------------------- any call

    method PerformSys(op: M.SysOp, now: nat)
      requires Valid()
      modifies this
      ensures Did(M.OnSys(op), now)
    {
      hide Valid, Did, Mpi.Init, Mpi.Exit, Mpi.Bind, Mpi.UnBind;
      var code;
      match op
      case Init => code := Init(now);
      case Exit => code := Exit(now);
      case SetFps(fps) => SetFps(now, fps);
      case Bind(src, dst) => code := Bind(now, src, dst);
      case UnBind(src, dst) => code := UnBind(now, src, dst);
    }

    method PerformMb(op: M.MbOp, now: nat)
      requires Valid() && M.Legal(Contents(), M.Event(M.OnMb(op), now))
      modifies this
      ensures Did(M.OnMb(op), now)
    {
      hide Valid, Did, Mpi.CreatePool, Mpi.DestroyPool, Mpi.GetMB, Mpi.ReleaseMB, Mpi.ReleaseFrame;
      var code, id, ok;
      match op
      case CreatePool(size, count) => id := CreatePool(now, size, count);
      case DestroyPool(pool) => code := DestroyPool(now, pool);
      case GetMB(pool, size, mb) => ok := GetMB(now, pool, size, mb);
      case ReleaseMB(mb) => code := ReleaseMB(now, mb);
      case ReleaseFrame(mb) => code := ReleaseFrame(now, mb);
      case Write(mb, data) => Write(now, mb, data);
    }

    method PerformVi(op: M.ViOp, now: nat)
      requires Valid() && M.Legal(Contents(), M.Event(M.OnVi(op), now))
      modifies this
      ensures Did(M.OnVi(op), now)
    {
      hide Valid, Did, Mpi.SetDevAttr, Mpi.EnableDev, Mpi.DisableDev, Mpi.SetDevBindPipe, Mpi.SetViChnAttr, Mpi.EnableViChn,
           Mpi.DisableViChn, Flow.GetViFrame;
      var code, frame;
      match op
      case SetDevAttr(dev) => code := SetDevAttr(now, dev);
      case EnableDev(dev) => code := EnableDev(now, dev);
      case DisableDev(dev) => code := DisableDev(now, dev);
      case SetDevBindPipe(dev, pipes) => code := SetDevBindPipe(now, dev, pipes);
      case SetViChnAttr(pipe, chn, w, h, format) => code := SetViChnAttr(now, pipe, chn, w, h, format);
      case EnableViChn(pipe, chn) => code := EnableViChn(now, pipe, chn);
      case DisableViChn(pipe, chn) => code := DisableViChn(now, pipe, chn);
      case GetViFrame(pipe, chn, mb) => frame := GetViFrame(now, pipe, chn, mb);
    }

    method PerformVpss(op: M.VpssOp, now: nat)
      requires Valid() && M.Legal(Contents(), M.Event(M.OnVpss(op), now))
      modifies this
      ensures Did(M.OnVpss(op), now)
    {
      hide Valid, Did, Ends, Scalable, Mpi.CreateGrp, Mpi.DestroyGrp, Mpi.SetStarted, Mpi.SetVpssChnAttr, Mpi.EnableVpssChn,
           Mpi.DisableVpssChn, Flow.SendVpss, Flow.GetVpssFrame;
      var code, frame;
      match op
      case CreateGrp(g, format) => code := CreateGrp(now, g, format);
      case DestroyGrp(g) => code := DestroyGrp(now, g);
      case SetStarted(g, started) => code := SetStarted(now, g, started);
      case SetVpssChnAttr(g, c, attr) => code := SetVpssChnAttr(now, g, c, attr);
      case EnableVpssChn(g, c) => code := EnableVpssChn(now, g, c);
      case DisableVpssChn(g, c) => code := DisableVpssChn(now, g, c);
      case SendVpss(g, f) => code := SendVpss(now, g, f);
      case GetVpssFrame(g, c, mb) => frame := GetVpssFrame(now, g, c, mb);
    }

    method PerformVenc(op: M.VencOp, now: nat)
      requires Valid() && M.Legal(Contents(), M.Event(M.OnVenc(op), now))
      modifies this
      ensures Did(M.OnVenc(op), now)
    {
      hide Valid, Did, VencEnds, Packs, Mpi.CreateVenc, Mpi.DestroyVenc, Mpi.StartVenc, Mpi.StopVenc, Mpi.SendVenc,
           Mpi.ReleaseStream, Flow.GetStream;
      var code, packet;
      match op
      case CreateVenc(v, codec, format, w, h, gop, clip) => code := CreateVenc(now, v, codec, format, w, h, gop, clip);
      case DestroyVenc(v) => code := DestroyVenc(now, v);
      case StartVenc(v) => code := StartVenc(now, v);
      case StopVenc(v) => code := StopVenc(now, v);
      case SendVenc(v, f) => code := SendVenc(now, v, f);
      case GetStream(v, mb) => packet := GetStream(now, v, mb);
      case ReleaseStream(v, packs) => code := ReleaseStream(now, v, packs);
    }

    /** Makes any call. */
    method Perform(e: M.Event)
      requires Valid() && M.Legal(Contents(), e)
      modifies this
      ensures Did(e.op, e.now)
    {
      hide Valid, Did, M.Legal;
      match e.op
      case OnSys(op) => PerformSys(op, e.now);
      case OnMb(op) => PerformMb(op, e.now);
      case OnVi(op) => PerformVi(op, e.now);
      case OnVpss(op) => PerformVpss(op, e.now);
      case OnVenc(op) => PerformVenc(op, e.now);
    }

    /** What other threads do. */
    method PerformAll(es: seq<M.Event>)
      requires Valid() && AllLegal(Contents(), es)
      modifies this
      ensures Valid() && calls == old(calls) + es && Contents() == M.Run(old(Contents()), es)
    {
      hide Invariants.Inv, Good, M.Legal, M.Effect, Contents;
      ghost var s := Contents();
      assert es[..0] == [];
      for i := 0 to |es|
        invariant Valid() && calls == old(calls) + es[..i] && Contents() == M.Run(s, es[..i])
      {
        assert M.Legal(M.Run(s, es[..i]), es[i]);
        Perform(es[i]);
        assert es[..i + 1] == es[..i] + [es[i]];
        OneStep(s, es[..i], es[i]);
      }
      assert es[..|es|] == es;
    }

    // -------------------------------------------------------------- waiting

    /** One attempt. */
    method Try(now: nat, q: Request) returns (o: Outcome)
      requires Good(Contents()) && Answers(Contents(), q)
      modifies `vencs, `grps, `viChns
      ensures var p := Answer(old(Contents()), now, q); Contents() == p.state && o == p.outcome
    {
      hide Good, Ends, VencEnds, Packs, Flow.PullVi, Flow.PullVpss, Flow.PullVenc;
      match q
      case OfVi(pipe, chn) => o := PullVi(now, pipe, chn);
      case OfVpss(g, c) => o := PullVpss(now, g, c);
      case OfVenc(v) => o := PullVenc(now, v);
    }

    /** `pull_blocking`: attempts until one decides or the time is up; `None` means that it is
        still waiting after the last round. */
    method PullBlocking(q: Request, ms: int, start: nat, rounds: seq<Round>)
      returns (at: nat, r: Option<Result<Image, Code>>)
      requires Valid() && Playable(Contents(), q, rounds)
      modifies this
      ensures at <= |rounds| && (r.None? <==> at == |rounds|)
      ensures calls == old(calls) + Others(rounds, at)
      ensures Noted(Found(old(Contents()), rounds, at))
      ensures forall i: nat :: i < at ==> Sleeps(Found(old(Contents()), rounds, i), q, rounds[i], FromMs(ms, start))
      ensures r.None? ==> Contents() == Found(old(Contents()), rounds, at)
      ensures r.Some? ==> Decides(Found(old(Contents()), rounds, at), q, rounds[at], FromMs(ms, start), r.value)
      ensures InTime(rounds, at, ms, start)
    {
      hide Invariants.Inv, Good, Answers, Contents, Playable, M.Legal, M.Run, AllLegal, Expired, Answer, Others, FromMs;
      at := 0;
      ghost var s := Contents();
      FoundFirst(s, rounds);
      while at < |rounds|
        invariant at <= |rounds| && Valid()
        invariant calls == old(calls) + Others(rounds, at) && Contents() == Found(s, rounds, at)
        invariant forall i: nat :: i < at ==> Sleeps(Found(s, rounds, i), q, rounds[i], FromMs(ms, start))
        invariant InTime(rounds, at, ms, start)
      {
        Deadlines(ms, start, rounds[at].later);
        PlaysAt(s, q, rounds, at);
        Invariants.InvIsGood(Contents());
        var o := Try(rounds[at].now, q);
        match o {
          case Ready(img) => return at, Some(Ok(img));
          case Failed(code) => return at, Some(Err(code));
          case NotYet(_) =>
            if Expired(FromMs(ms, start), rounds[at].later) {
              return at, Some(Err(BufEmpty));
            }
        }
        PerformAll(rounds[at].others);
        FoundNext(s, rounds, at);
        OthersNext(rounds, at);
        at := at + 1;
      }
      r := None;
    }

    /** `GetChnFrame` of VI, waiting. Whatever others do meanwhile, it is the call that does not
        wait, made when its last attempt is: it takes one frame or none. */
    method AwaitViFrame(pipe: int, chn: int, ms: int, start: nat, rounds: seq<Round>)
      returns (at: nat, r: Option<Result<VideoFrame, Code>>)
      requires Valid() && Playable(Contents(), OfVi(pipe, chn), rounds)
      modifies this
      ensures Valid() && at <= |rounds| && (r.None? <==> at == |rounds|)
      ensures forall i: nat :: i < at ==> Sleeps(Found(old(Contents()), rounds, i), OfVi(pipe, chn), rounds[i], FromMs(ms, start))
      ensures r.None? ==> calls == old(calls) + Others(rounds, at)
      ensures r.Some? ==>
        var s := Found(old(Contents()), rounds, at);
        && Good(s) && Answers(s, OfVi(pipe, chn))
        && (Contents(), r.value) == Flow.GetViFrame(s, rounds[at].now, pipe, chn, rounds[at].mb)
        && calls == old(calls) + Others(rounds, at) + [EventOf(OfVi(pipe, chn), rounds[at])]
      ensures r == Some(Err(BufEmpty)) ==> ms >= 0 && (ms > 0 ==> rounds[at].later >= start + ms * 1_000_000)
      ensures InTime(rounds, at, ms, start)
    {
      hide Invariants.Inv, M.Run, Good, Flow.PullVi, Exported, Found, Playable,
           Sleeps, InTime, Others, Expired, FromMs, M.Effect, M.Legal;
      ghost var was := Contents();
      var q := OfVi(pipe, chn);
      var o;
      at, o := PullBlocking(q, ms, start, rounds);
      if o.None? {
        return at, None;
      }
      ghost var s := Found(was, rounds, at);
      PlaysAt(was, q, rounds, at);
      NeverEmpty(s, rounds[at].now, q);
      Deadlines(ms, start, rounds[at].later);
      match o.value {
        case Err(code) => r := Some(Err(code));
        case Ok(img) =>
          var f := Export(img, rounds[at].mb, if (pipe, chn) in viChns then viChns[(pipe, chn)].number * 2 else 0);
          r := Some(Ok(f));
      }
      EffectOfCall(s, q, rounds[at]);
      Settle(s, EventOf(q, rounds[at]));
    }

    /** The same for VPSS. */
    method AwaitVpssFrame(g: int, c: int, ms: int, start: nat, rounds: seq<Round>)
      returns (at: nat, r: Option<Result<VideoFrame, Code>>)
      requires Valid() && Playable(Contents(), OfVpss(g, c), rounds)
      modifies this
      ensures Valid() && at <= |rounds| && (r.None? <==> at == |rounds|)
      ensures forall i: nat :: i < at ==> Sleeps(Found(old(Contents()), rounds, i), OfVpss(g, c), rounds[i], FromMs(ms, start))
      ensures r.None? ==> calls == old(calls) + Others(rounds, at)
      ensures r.Some? ==>
        var s := Found(old(Contents()), rounds, at);
        && Good(s) && Answers(s, OfVpss(g, c))
        && (Contents(), r.value) == Flow.GetVpssFrame(s, rounds[at].now, g, c, rounds[at].mb)
        && calls == old(calls) + Others(rounds, at) + [EventOf(OfVpss(g, c), rounds[at])]
      ensures r == Some(Err(BufEmpty)) ==> ms >= 0 && (ms > 0 ==> rounds[at].later >= start + ms * 1_000_000)
      ensures InTime(rounds, at, ms, start)
    {
      hide Invariants.Inv, M.Run, Good, Ends, Flow.PullVpss, Exported, Found, Playable,
           Sleeps, InTime, Others, Expired, FromMs, M.Effect, M.Legal;
      ghost var was := Contents();
      var q := OfVpss(g, c);
      var o;
      at, o := PullBlocking(q, ms, start, rounds);
      if o.None? {
        return at, None;
      }
      ghost var s := Found(was, rounds, at);
      PlaysAt(was, q, rounds, at);
      NeverEmpty(s, rounds[at].now, q);
      Deadlines(ms, start, rounds[at].later);
      match o.value {
        case Err(code) => r := Some(Err(code));
        case Ok(img) =>
          var known := g in grps && c in grps[g].chns;
          var f := Export(img, rounds[at].mb, if known then grps[g].chns[c].number * 2 else 0);
          r := Some(Ok(f));
      }
      EffectOfCall(s, q, rounds[at]);
      Settle(s, EventOf(q, rounds[at]));
    }

    /** The same for a packet of an encoder channel. */
    method AwaitStream(v: int, ms: int, start: nat, rounds: seq<Round>)
      returns (at: nat, r: Option<Result<Packet, Code>>)
      requires Valid() && Playable(Contents(), OfVenc(v), rounds)
      modifies this
      ensures Valid() && at <= |rounds| && (r.None? <==> at == |rounds|)
      ensures forall i: nat :: i < at ==> Sleeps(Found(old(Contents()), rounds, i), OfVenc(v), rounds[i], FromMs(ms, start))
      ensures r.None? ==> calls == old(calls) + Others(rounds, at)
      ensures r.Some? ==>
        var s := Found(old(Contents()), rounds, at);
        && Good(s) && Answers(s, OfVenc(v))
        && (Contents(), r.value) == Flow.GetStream(s, rounds[at].now, v, rounds[at].mb)
        && calls == old(calls) + Others(rounds, at) + [EventOf(OfVenc(v), rounds[at])]
      ensures r == Some(Err(BufEmpty)) ==> ms >= 0 && (ms > 0 ==> rounds[at].later >= start + ms * 1_000_000)
      ensures InTime(rounds, at, ms, start)
    {
      hide Invariants.Inv, M.Run, Good, VencEnds, Packs, Flow.PullVenc, PacketOf, Packable, GoodVenc, Found, Playable,
           Sleeps, InTime, Others, Expired, FromMs, M.Effect, M.Legal;
      ghost var was := Contents();
      var q := OfVenc(v);
      var o;
      at, o := PullBlocking(q, ms, start, rounds);
      if o.None? {
        return at, None;
      }
      ghost var s := Found(was, rounds, at);
      PlaysAt(was, q, rounds, at);
      NeverEmpty(s, rounds[at].now, q);
      Deadlines(ms, start, rounds[at].later);
      match o.value {
        case Err(code) => r := Some(Err(code));
        case Ok(img) =>
          var packet := PackPulled(s, rounds[at].now, v, img, rounds[at].mb);
          r := Some(Ok(packet));
      }
      EffectOfCall(s, q, rounds[at]);
      Settle(s, EventOf(q, rounds[at]));
    }

    /** Notes a call that has been made on `s`. */
    ghost method Settle(s: State, e: M.Event)
      requires Noted(s) && M.Legal(s, e) && (Good(s) ==> Contents() == M.Effect(s, e))
      modifies `calls
      ensures Valid() && calls == old(calls) + [e]
    {
      hide Invariants.Inv, M.Run, Good, M.Effect, M.Legal;
      Invariants.InvIsGood(s);
      Invariants.InvKept(s, e);
      OneStep(Fresh(born, rate), calls, e);
      calls := calls + [e];
    }

    /** The state that the calls so far have led to. */
    ghost predicate Noted(s: State)
      reads this
    {
      Invariants.Inv(s) && s == M.Run(Fresh(born, rate), calls)
    }

    /** The attempt on `s` decides, and leaves the object as it leaves `s`. */
    ghost predicate Decides(s: State, q: Request, round: Round, d: Deadline, r: Result<Image, Code>)
      reads this
    {
      && Good(s) && Answers(s, q)
      && var p := Answer(s, round.now, q);
         && Contents() == p.state
         && match p.outcome
            case Ready(img) => r == Ok(img)
            case Failed(code) => r == Err(code)
            case NotYet(_) => r == Err(BufEmpty) && Expired(d, round.later)
    }
  }

  lemma EffectOfCall(s: State, q: Request, r: Round)
    requires Good(s) && Answers(s, q) && M.Legal(s, EventOf(q, r))
    ensures M.Effect(s, EventOf(q, r)) == match q
                                          case OfVi(pipe, chn) => Flow.GetViFrame(s, r.now, pipe, chn, r.mb).0
                                          case OfVpss(g, c) => Flow.GetVpssFrame(s, r.now, g, c, r.mb).0
                                          case OfVenc(v) => Flow.GetStream(s, r.now, v, r.mb).0
  {
    hide Good, Ends, VencEnds, Packs, Flow.GetViFrame, Flow.GetVpssFrame, Flow.GetStream, M.SysEffect, M.MbEffect;
  }

  lemma FoundFirst(s: State, rounds: seq<Round>)
    ensures Others(rounds, 0) == [] && Found(s, rounds, 0) == s
  {
  }

  lemma OthersNext(rounds: seq<Round>, n: nat)
    requires n < |rounds|
    ensures Others(rounds, n + 1) == Others(rounds, n) + rounds[n].others
  {
  }

  lemma PlaysAt(s: State, q: Request, rounds: seq<Round>, n: nat)
    requires Playable(s, q, rounds) && n < |rounds|
    ensures var t := Found(s, rounds, n);
            Answers(t, q) && rounds[n].mb !in t.blocks && M.Legal(t, EventOf(q, rounds[n])) && AllLegal(t, rounds[n].others)
  {
    hide Found, M.Legal, AllLegal, Answers;
    assert RoundPlays(Found(s, rounds, n), q, rounds[n]);
    CallIsLegal(Found(s, rounds, n), q, rounds[n]);
  }

  lemma OneStep(s: State, es: seq<M.Event>, e: M.Event)
    ensures M.Run(s, es + [e]) == M.Next(M.Run(s, es), e)
  {
    hide M.Next;
    assert (es + [e])[..|es + [e]| - 1] == es;
  }

  // ---------------------------------------------------------------- runs of the object

  /** The state after the first `k` calls. */
  ghost function At(r: Rockit, k: nat): State
    requires k <= |r.calls|
    reads r
  {
    M.Run(Fresh(r.born, r.rate), r.calls[..k])
  }

  /** The object is where a run of its later calls leads from any state that it was in, so
      whatever holds of all runs holds of it. */
  lemma CallsSince(r: Rockit, k: nat)
    requires r.Valid() && k <= |r.calls|
    ensures Invariants.Inv(At(r, k)) && r.Contents() == M.Run(At(r, k), r.calls[k..])
  {
    hide Invariants.Inv, M.Run;
    Invariants.InvAlways(r.born, r.rate, r.calls[..k]);
    M.RunFrom(Fresh(r.born, r.rate), r.calls, k);
  }

  /** What holds of channels in runs, said of the object. */
  lemma ObjectDeliversInOrder(r: Rockit, k: nat, g: int, c: int)
    requires r.Valid() && k <= |r.calls|
    requires On(At(r, k), g, c) && At(r, k).grps[g].chns[c].queue == [] && StaysOpen(At(r, k), r.calls[k..], g, c)
    ensures On(r.Contents(), g, c)
    ensures InOrderChoice(At(r, k).grps[g].chns[c], Log(At(r, k), r.calls[k..], g, c), r.Contents().grps[g].chns[c].queue)
  {
    hide *;
    CallsSince(r, k);
    ChannelDeliversInOrder(At(r, k), r.calls[k..], g, c);
  }
}
