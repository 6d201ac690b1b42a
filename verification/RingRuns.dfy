/** Rings in runs: every ring of binds that a program can make is one in which it can be
    caught. */
module RingRuns {
  import opened Bytes
  import opened Images
  import opened Invariants
  import opened Mpi
  import opened Flow
  import opened Rings
  import opened Strides
  import M = Machine
  import Pools

  /** Some calls lead here. */
  ghost predicate Reachable(s: State) {
    exists es :: M.Run(Fresh(0, 0), es) == s
  }

  lemma ReachNext(s: State, e: M.Event)
    requires Reachable(s)
    ensures Inv(s) && Good(s) && Reachable(M.Next(s, e))
  {
    hide Inv, Good, M.Next;
    var es :| M.Run(Fresh(0, 0), es) == s;
    InvAlways(0, 0, es);
    assert (es + [e])[..|es + [e]| - 1] == es;
    assert M.Run(Fresh(0, 0), es + [e]) == M.Next(s, e);
  }

  lemma ReachVpss(s: State, op: M.VpssOp)
    requires Reachable(s) && !op.SendVpss? && !op.GetVpssFrame?
    ensures Good(s) && M.VpssLegal(s, op, 0) && Reachable(M.VpssEffect(s, op, 0))
  {
    ReachNext(s, M.Event(M.OnVpss(op), 0));
    hide Reachable, Inv, Good, Ends, Scalable, M.VpssEffect, M.SysEffect, M.MbEffect, M.ViEffect, M.VencEffect, M.VencLegal;
  }

  lemma ReachSys(s: State, op: M.SysOp)
    requires Reachable(s)
    ensures Reachable(M.SysEffect(s, op, 0))
  {
    ReachNext(s, M.Event(M.OnSys(op), 0));
    hide Reachable, Inv, Good, M.VpssEffect, M.SysEffect, M.MbEffect, M.ViEffect, M.VencEffect, M.VencLegal;
  }

  /** A library that has been initialized, with these groups and binds. */
  function With(grps: map<int, VpssGrp>, binds: map<Chn, Chn>): State {
    Fresh(0, 0).(initialized := true, grps := grps, binds := binds)
  }

  lemma ReachStart()
    ensures Reachable(With(map[], map[]))
  {
    assert M.Run(Fresh(0, 0), []) == Fresh(0, 0);
    ReachSys(Fresh(0, 0), M.Init);
    hide Reachable;
  }

  // ---------------------------------------------------------------- groups

  function Unlit(): VpssChn {
    VpssChn(1, 1, Nv12, false, false, 0, false, 0, [])
  }

  lemma ReachChn(grps: map<int, VpssGrp>, g: int, c: int)
    requires Reachable(With(grps, map[])) && IsGroup(g) && IsChannel(c) && g in grps && c !in grps[g].chns
    ensures Reachable(With(grps[g := grps[g].(chns := grps[g].chns[c := Unlit().(enabled := true)])], map[]))
  {
    hide Reachable;
    var s := With(grps, map[]);
    ReachVpss(s, M.SetVpssChnAttr(g, c, Unlit()));
    var t := SetChn(s, g, c, Unlit());
    assert SetVpssChnAttr(s, g, c, Unlit()).0 == t;
    ReachVpss(t, M.EnableVpssChn(g, c));
    var on := SetChn(t, g, c, Unlit().(enabled := true));
    assert EnableVpssChn(t, g, c).0 == on;
    TwiceSet(grps, g, c, Unlit(), Unlit().(enabled := true));
  }

  lemma TwiceSet(grps: map<int, VpssGrp>, g: int, c: int, a: VpssChn, b: VpssChn)
    requires g in grps
    ensures SetChn(SetChn(With(grps, map[]), g, c, a), g, c, b)
         == With(grps[g := grps[g].(chns := grps[g].chns[c := b])], map[])
  {
    assert grps[g].chns[c := a][c := b] == grps[g].chns[c := b];
    var once := grps[g].(chns := grps[g].chns[c := a]);
    var both := grps[g].(chns := grps[g].chns[c := b]);
    assert grps[g := once][g := both] == grps[g := both];
  }

  /** The first channels of a group, all on. */
  function Lit(n: nat): map<int, VpssChn> {
    if n == 0 then map[] else Lit(n - 1)[n - 1 := Unlit().(enabled := true)]
  }

  lemma {:induction false} LitHas(n: nat, c: int)
    ensures c in Lit(n) <==> 0 <= c < n
    ensures c in Lit(n) ==> Lit(n)[c] == Unlit().(enabled := true)
  {
    if n > 0 {
      LitHas(n - 1, c);
    }
  }

  lemma LitIsAll()
    ensures Lit(VPSS_MAX_CHN_NUM) == AllChannels()
  {
    hide Lit, AllChannels;
    forall c
      ensures c in Lit(VPSS_MAX_CHN_NUM) <==> c in AllChannels()
      ensures c in AllChannels() ==> Lit(VPSS_MAX_CHN_NUM)[c] == AllChannels()[c]
    {
      LitHas(VPSS_MAX_CHN_NUM, c);
      AllChannelsHas(c);
    }
  }

  /** Group `g` with its first channels turned on. */
  lemma {:induction false} ReachLit(grps: map<int, VpssGrp>, g: int, n: nat)
    requires Reachable(With(grps, map[])) && IsGroup(g) && g !in grps && n <= VPSS_MAX_CHN_NUM
    ensures Reachable(With(grps[g := VpssGrp(false, Lit(n))], map[]))
  {
    hide Reachable, With, Unlit;
    if n == 0 {
      ReachCreated(grps, g);
    } else {
      var was := grps[g := VpssGrp(false, Lit(n - 1))];
      ReachLit(grps, g, n - 1);
      LitHas(n - 1, n - 1);
      ReachChn(was, g, n - 1);
      assert was[g := VpssGrp(false, Lit(n))] == grps[g := VpssGrp(false, Lit(n))];
    }
  }

  lemma ReachGroup(grps: map<int, VpssGrp>, g: int)
    requires Reachable(With(grps, map[])) && IsGroup(g) && g !in grps
    ensures Reachable(With(grps[g := VpssGrp(true, AllChannels())], map[]))
  {
    hide Reachable, With, AllChannels, Lit;
    ReachLit(grps, g, VPSS_MAX_CHN_NUM);
    LitIsAll();
    ReachStarted(grps, g, AllChannels());
  }

  lemma ReachCreated(grps: map<int, VpssGrp>, g: int)
    requires Reachable(With(grps, map[])) && IsGroup(g) && g !in grps
    ensures Reachable(With(grps[g := VpssGrp(false, map[])], map[]))
  {
    hide Reachable;
    ReachVpss(With(grps, map[]), M.CreateGrp(g, Nv12));
    assert CreateGrp(With(grps, map[]), g, Nv12).0 == With(grps[g := VpssGrp(false, map[])], map[]);
  }

  lemma ReachStarted(grps: map<int, VpssGrp>, g: int, chns: map<int, VpssChn>)
    requires Reachable(With(grps[g := VpssGrp(false, chns)], map[])) && IsGroup(g)
    ensures Reachable(With(grps[g := VpssGrp(true, chns)], map[]))
  {
    hide Reachable;
    var was := grps[g := VpssGrp(false, chns)];
    ReachVpss(With(was, map[]), M.SetStarted(g, true));
    assert was[g := VpssGrp(true, chns)] == grps[g := VpssGrp(true, chns)];
    assert SetStarted(With(was, map[]), g, true).0 == With(was[g := VpssGrp(true, chns)], map[]);
  }

  /** The first groups, all on. */
  function Groups(n: nat): map<int, VpssGrp> {
    if n == 0 then map[] else Groups(n - 1)[n - 1 := VpssGrp(true, AllChannels())]
  }

  lemma {:induction false} GroupsHas(n: nat, g: int)
    ensures g in Groups(n) <==> 0 <= g < n
    ensures g in Groups(n) ==> Groups(n)[g] == VpssGrp(true, AllChannels())
  {
    hide AllChannels;
    if n > 0 {
      GroupsHas(n - 1, g);
    }
  }

  lemma {:induction false} ReachGroups(n: nat)
    requires n <= VPSS_MAX_GRP_NUM
    ensures Reachable(With(Groups(n), map[]))
  {
    hide Reachable, With, AllChannels;
    if n == 0 {
      ReachStart();
    } else {
      ReachGroups(n - 1);
      GroupsHas(n - 1, n - 1);
      ReachGroup(Groups(n - 1), n - 1);
    }
  }

  lemma GroupsAreAll()
    ensures Groups(VPSS_MAX_GRP_NUM) == AllGroups()
  {
    hide AllChannels, AllGroups, Groups;
    forall g
      ensures g in Groups(VPSS_MAX_GRP_NUM) <==> g in AllGroups()
      ensures g in AllGroups() ==> Groups(VPSS_MAX_GRP_NUM)[g] == AllGroups()[g]
    {
      GroupsHas(VPSS_MAX_GRP_NUM, g);
      AllGroupsHas(g);
    }
  }

  // ---------------------------------------------------------------- binds

  /** Whatever can be bound can be bound around groups that are all on and have no frame. */
  lemma {:induction false} ReachHungry(binds: map<Chn, Chn>)
    requires BindsOk(binds)
    ensures Reachable(Hungry(binds))
    decreases |binds|
  {
    hide Reachable, AllGroups;
    if binds == map[] {
      ReachGroups(VPSS_MAX_GRP_NUM);
      GroupsAreAll();
      hide Groups;
    } else {
      var dst :| dst in binds;
      var rest := binds - {dst};
      ReachHungry(rest);
      ReachSys(Hungry(rest), M.Bind(binds[dst], dst));
      assert rest[dst := binds[dst]] == binds;
      assert Bind(Hungry(rest), binds[dst], dst).0 == Hungry(binds);
    }
  }

  /** In every state that calls lead to, with these binds, every request ends. */
  ghost predicate AlwaysEndsInRuns(binds: map<Chn, Chn>) {
    forall now: nat, fps: nat, es :: EndsAfter(now, fps, es, binds)
  }

  ghost predicate EndsAfter(now: nat, fps: nat, es: seq<M.Event>, binds: map<Chn, Chn>) {
    var s := M.Run(Fresh(now, fps), es);
    s.binds == binds ==> forall g, c :: Ends(s, g, c)
  }

  /** A ring of binds catches some run: calls lead to a state from which a request for a
      channel of the ring does not return. */
  lemma RingIsReached(binds: map<Chn, Chn>, ring: seq<Spot>)
    requires BindsOk(binds) && Ring(binds, ring)
    ensures exists es :: M.Run(Fresh(0, 0), es) == Hungry(binds)
    ensures Hungry(binds).binds == binds && !Ends(Hungry(binds), ring[0].0, ring[0].1)
  {
    ReachHungry(binds);
    RingCircles(binds, ring);
    DivergesExactly(Hungry(binds), ring[0].0, ring[0].1);
    assert (ring + [ring[0]])[0] == (ring[0].0, ring[0].1);
    hide Ends, Circles, Ring, M.Run, BindsOk, AllGroups;
  }

  /** Requests end in every reachable state with given binds if and only if the binds cannot
      be made or have no ring of channels that can exist. */
  lemma AcyclicExactlyInRuns(binds: map<Chn, Chn>)
    ensures AlwaysEndsInRuns(binds) <==> !(BindsOk(binds) && exists ring :: Ring(binds, ring))
  {
    hide Ends, Ring, BindsOk, M.Run, Hungry, Inv, Good;
    if BindsOk(binds) && exists ring :: Ring(binds, ring) {
      var ring :| Ring(binds, ring);
      RingIsReached(binds, ring);
      var es :| M.Run(Fresh(0, 0), es) == Hungry(binds);
      assert !EndsAfter(0, 0, es, binds);
    } else {
      forall now: nat, fps: nat, es
        ensures EndsAfter(now, fps, es, binds)
      {
        var s := M.Run(Fresh(now, fps), es);
        InvAlways(now, fps, es);
        if s.binds == binds {
          BindsAreOk(s);
          AcyclicExactly(binds);
        }
      }
    }
  }

  lemma BindsAreOk(s: State)
    requires Inv(s)
    ensures BindsOk(s.binds)
  {
    hide GrpsOk, VencsOk, VisOk, DevsOk, BindsOk, Pools.PoolsOk, Empty;
  }
}
