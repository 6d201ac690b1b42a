/** When asking for a frame ends: exactly unless it leads into a ring of starved channels. */
module Rings {
  import opened Bytes
  import opened Images
  import opened Mpi
  import opened Flow

  /** A channel by its group and its number. */
  type Spot = (int, int)

  /** The channel of another group that the input of a group is bound to. */
  function Up(binds: map<Chn, Chn>, g: int): Option<Spot> {
    if Inlet(g) in binds && binds[Inlet(g)].mod == Vpss then Some((binds[Inlet(g)].dev, binds[Inlet(g)].chn)) else None
  }

  /** The channel that a starved channel asks. */
  function Asks(s: State, p: Spot): Option<Spot> {
    if Starved(s, p.0, p.1) then Up(s.binds, p.0) else None
  }

  /** Each channel asks the next. */
  ghost predicate Trail(s: State, ps: seq<Spot>) {
    ps != [] && forall i :: 0 < i < |ps| ==> Asks(s, ps[i - 1]) == Some(ps[i])
  }

  /** The last channel that is asked has been asked before. */
  ghost predicate Circles(s: State, ps: seq<Spot>) {
    Trail(s, ps) && exists i :: 0 <= i < |ps| - 1 && ps[i] == ps[|ps| - 1]
  }

  // ---------------------------------------------------------------- around for ever

  lemma {:induction false} NeverEnds(s: State, ps: seq<Spot>, k: nat, n: nat)
    requires Circles(s, ps) && k < |ps|
    ensures !EndsWithin(s, ps[k].0, ps[k].1, n)
    decreases n
  {
    if EndsWithin(s, ps[k].0, ps[k].1, n) {
      var i :| 0 <= i < |ps| - 1 && ps[i] == ps[|ps| - 1];
      var j := if k == |ps| - 1 then i else k;
      assert Asks(s, ps[j + 1 - 1]) == Some(ps[j + 1]);
      assert EndsWithin(s, ps[j].0, ps[j].1, n) && BoundEndsWithin(s, Inlet(ps[j].0), n - 1);
      NeverEnds(s, ps, j + 1, n - 1);
    }
  }

  // ---------------------------------------------------------------- a trail without an end

  /** A trail of `n` steps, if asking does not end within as many. */
  lemma {:induction false} LongTrail(s: State, p: Spot, n: nat) returns (ps: seq<Spot>)
    requires !EndsWithin(s, p.0, p.1, n)
    ensures Trail(s, ps) && |ps| == n + 1 && ps[0] == p
    decreases n
  {
    if n == 0 {
      ps := [p];
    } else {
      var next := Asks(s, p).value;
      assert !BoundEndsWithin(s, Inlet(p.0), n - 1) && !EndsWithin(s, next.0, next.1, n - 1);
      var rest := LongTrail(s, next, n - 1);
      ps := [p] + rest;
    }
  }

  ghost function Sources(binds: map<Chn, Chn>): set<Spot> {
    set dst | dst in binds :: (binds[dst].dev, binds[dst].chn)
  }

  lemma TrailStays(s: State, ps: seq<Spot>)
    requires Trail(s, ps)
    ensures forall i :: 0 <= i < |ps| ==> ps[i] in Sources(s.binds) + {ps[0]}
  {
    forall i | 0 <= i < |ps|
      ensures ps[i] in Sources(s.binds) + {ps[0]}
    {
      if i > 0 {
        assert Asks(s, ps[i - 1]) == Some(ps[i]) && Inlet(ps[i - 1].0) in s.binds;
      }
    }
  }

  /** More entries than there are values: two are equal. */
  lemma {:induction false} TwoAlike<T>(ps: seq<T>, vs: set<T>) returns (i: nat, j: nat)
    requires |ps| > |vs| && forall k :: 0 <= k < |ps| ==> ps[k] in vs
    ensures i < j < |ps| && ps[i] == ps[j]
    decreases |ps|
  {
    var n := |ps| - 1;
    if k :| 0 <= k < n && ps[k] == ps[n] {
      i, j := k, n;
    } else {
      i, j := TwoAlike(ps[..n], vs - {ps[n]});
    }
  }

  /** Asking for a frame fails to end exactly if it leads into a ring of channels that are
      all enabled, started and without a frame, each bound to the next. */
  lemma DivergesExactly(s: State, g: int, c: int)
    ensures !Ends(s, g, c) <==> exists ps :: Circles(s, ps) && ps[0] == (g, c)
  {
    if !Ends(s, g, c) {
      var vs := Sources(s.binds) + {(g, c)};
      var ps := LongTrail(s, (g, c), |vs|);
      TrailStays(s, ps);
      var i, j := TwoAlike(ps, vs);
      var ring := ps[..j + 1];
      assert ring[i] == ring[|ring| - 1] && Circles(s, ring);
    }
    forall ps | Circles(s, ps) && ps[0] == (g, c)
      ensures !Ends(s, g, c)
    {
      forall n: nat
        ensures !EndsWithin(s, g, c, n)
      {
        NeverEnds(s, ps, 0, n);
      }
    }
  }

  // ---------------------------------------------------------------- graphs

  predicate InRange(p: Spot) {
    0 <= p.0 < 256 && 0 <= p.1 < 4
  }

  /** A ring of binds between channels that can exist. */
  ghost predicate Ring(binds: map<Chn, Chn>, ps: seq<Spot>) {
    && ps != [] && (forall i :: 0 <= i < |ps| ==> InRange(ps[i]))
    && (forall i :: 0 < i < |ps| ==> Up(binds, ps[i - 1].0) == Some(ps[i]))
    && Up(binds, ps[|ps| - 1].0) == Some(ps[0])
  }

  lemma CircleIsRing(s: State, ps: seq<Spot>) returns (ring: seq<Spot>)
    requires Circles(s, ps)
    ensures Ring(s.binds, ring)
  {
    var n := |ps| - 1;
    var i :| 0 <= i < n && ps[i] == ps[n];
    ring := ps[i..n];
    forall k | i <= k < n
      ensures InRange(ps[k]) && Up(s.binds, ps[k].0) == Some(ps[k + 1])
    {
      assert Asks(s, ps[k + 1 - 1]) == Some(ps[k + 1]);
    }
    assert ring[|ring| - 1] == ps[n - 1];
  }

  predicate IsGroup(g: int) {
    0 <= g < VPSS_MAX_GRP_NUM
  }

  predicate IsChannel(c: int) {
    0 <= c < VPSS_MAX_CHN_NUM
  }

  /** A library in which every channel that can exist is on, and none has a frame. */
  function Hungry(binds: map<Chn, Chn>): State {
    Fresh(0, 0).(initialized := true, binds := binds, grps := AllGroups())
  }

  function AllGroups(): map<int, VpssGrp> {
    map g | 0 <= g < VPSS_MAX_GRP_NUM && IsGroup(g) :: VpssGrp(true, AllChannels())
  }

  function AllChannels(): map<int, VpssChn> {
    map c | 0 <= c < VPSS_MAX_CHN_NUM && IsChannel(c) :: VpssChn(1, 1, Nv12, false, false, 0, true, 0, [])
  }

  lemma AllGroupsHas(g: int)
    ensures g in AllGroups() <==> IsGroup(g)
    ensures IsGroup(g) ==> AllGroups()[g] == VpssGrp(true, AllChannels())
  {
  }

  lemma AllChannelsHas(c: int)
    ensures c in AllChannels() <==> IsChannel(c)
    ensures IsChannel(c) ==> AllChannels()[c] == VpssChn(1, 1, Nv12, false, false, 0, true, 0, [])
  {
  }

  lemma HungryIsStarved(binds: map<Chn, Chn>, p: Spot)
    requires InRange(p)
    ensures Good(Hungry(binds)) && Starved(Hungry(binds), p.0, p.1)
  {
    AllGroupsHas(p.0);
    AllChannelsHas(p.1);
    hide AllGroups, AllChannels;
    forall g | g in AllGroups()
      ensures GoodGrp(AllGroups()[g])
    {
      AllGroupsHas(g);
      forall c | c in AllChannels()
        ensures GoodChn(AllChannels()[c])
      {
        AllChannelsHas(c);
      }
    }
  }

  lemma RingCircles(binds: map<Chn, Chn>, ring: seq<Spot>)
    requires Ring(binds, ring)
    ensures Circles(Hungry(binds), ring + [ring[0]])
  {
    var ps := ring + [ring[0]];
    forall i | 0 < i < |ps|
      ensures Asks(Hungry(binds), ps[i - 1]) == Some(ps[i])
    {
      HungryIsStarved(binds, ps[i - 1]);
    }
    assert ps[0] == ps[|ps| - 1];
  }

  /** Whatever the library holds. */
  ghost predicate AlwaysEnds(binds: map<Chn, Chn>) {
    forall s: State, g, c :: Good(s) && s.binds == binds ==> Ends(s, g, c)
  }

  /** With given binds, every request ends in every state if and only if the binds have no
      ring of channels that can exist. */
  lemma AcyclicExactly(binds: map<Chn, Chn>)
    ensures AlwaysEnds(binds) <==> !exists ps :: Ring(binds, ps)
  {
    if ring :| Ring(binds, ring) {
      var s, p := Hungry(binds), ring[0];
      RingCircles(binds, ring);
      HungryIsStarved(binds, p);
      hide Hungry, Good, Ends, Circles;
      DivergesExactly(s, p.0, p.1);
      assert (ring + [ring[0]])[0] == (p.0, p.1);
      HungryHas(binds);
    } else {
      hide Good, Ends, Circles, Ring;
      forall s: State, g, c | Good(s) && s.binds == binds
        ensures Ends(s, g, c)
      {
        DivergesExactly(s, g, c);
        if ps :| Circles(s, ps) && ps[0] == (g, c) {
          var ring := CircleIsRing(s, ps);
        }
      }
    }
  }

  lemma HungryHas(binds: map<Chn, Chn>)
    ensures Hungry(binds).binds == binds
  {
  }

  /** The smallest ring: a group bound to its own channel asks itself for ever while that
      channel has nothing queued, and answers once it has. */
  lemma SelfBound(s: State, g: int, c: int)
    requires Inlet(g) in s.binds && s.binds[Inlet(g)] == Chn(Vpss, g, c)
    ensures Ends(s, g, c) <==> !Starved(s, g, c)
  {
    if Starved(s, g, c) {
      var ps := [(g, c), (g, c)];
      assert ps[0] == ps[|ps| - 1] && Circles(s, ps);
      DivergesExactly(s, g, c);
    } else {
      assert EndsWithin(s, g, c, 0);
    }
  }

  /** No group is bound to a group. */
  ghost predicate Unchained(binds: map<Chn, Chn>) {
    forall dst :: dst in binds && dst.mod == Vpss ==> binds[dst].mod != Vpss
  }

  /** Then asking always ends. */
  lemma NoChainEnds(s: State, v: int)
    requires Unchained(s.binds)
    ensures forall g, c :: Ends(s, g, c)
    ensures VencEnds(s, v)
  {
    forall g, c
      ensures Ends(s, g, c)
    {
      assert Inlet(g).mod == Vpss;
      assert EndsWithin(s, g, c, 1);
    }
    var up := Chn(Venc, 0, v);
    if up in s.binds && s.binds[up].mod == Vpss {
      assert Inlet(s.binds[up].dev).mod == Vpss;
    }
    assert BoundEndsWithin(s, Chn(Venc, 0, v), 1);
  }
}
