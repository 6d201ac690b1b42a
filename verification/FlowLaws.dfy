/** What a successful attempt does, told as a list of moves: one frame goes down one chain. */
module FlowLaws {
  import opened Bytes
  import opened Images
  import opened Mpi
  import opened Flow

  ghost predicate GoodMoves(moves: seq<Move>) {
    forall i :: 0 <= i < |moves| ==> GoodImage(moves[i].image)
  }

  /** One move, seen by group `h`. */
  function PlayMove(grp: VpssGrp, h: int, m: Move): (r: VpssGrp)
    requires GoodGrp(grp) && GoodImage(m.image)
    ensures GoodGrp(r)
  {
    if m.grp != h then grp else
    match m
    case Input(_, img) => Process(grp, img)
    case Output(_, c, _) =>
      if c !in grp.chns || grp.chns[c].queue == [] then grp else
      var chn := grp.chns[c];
      grp.(chns := grp.chns[c := chn.(number := chn.number + 1, queue := chn.queue[1..])])
  }

  function Play(grp: VpssGrp, h: int, moves: seq<Move>): (r: VpssGrp)
    requires GoodGrp(grp) && GoodMoves(moves)
    ensures GoodGrp(r)
    decreases |moves|
  {
    if moves == [] then grp else
    var n := |moves| - 1;
    PlayMove(Play(grp, h, moves[..n]), h, moves[n])
  }

  /** Each image that a channel gives out is the oldest of its queue. */
  ghost predicate InOrder(grp: VpssGrp, h: int, moves: seq<Move>)
    requires GoodGrp(grp) && GoodMoves(moves)
  {
    forall i :: 0 <= i < |moves| && moves[i].Output? && moves[i].grp == h ==>
      var chns := Play(grp, h, moves[..i]).chns;
      moves[i].chn in chns && chns[moves[i].chn].queue != [] && chns[moves[i].chn].queue[0] == moves[i].image
  }

  lemma {:induction false} PlayAppend(grp: VpssGrp, h: int, a: seq<Move>, b: seq<Move>)
    requires GoodGrp(grp) && GoodMoves(a) && GoodMoves(b)
    ensures GoodMoves(a + b) && Play(grp, h, a + b) == Play(Play(grp, h, a), h, b)
    decreases |b|
  {
    if b == [] {
      assert a + b == a;
    } else {
      var n := |b| - 1;
      assert (a + b)[..|a + b| - 1] == a + b[..n] && (a + b)[|a + b| - 1] == b[n];
      hide GoodImage, PlayMove;
      PlayAppend(grp, h, a, b[..n]);
    }
  }

  lemma {:induction false} InOrderAppend(grp: VpssGrp, h: int, a: seq<Move>, b: seq<Move>)
    requires GoodGrp(grp) && GoodMoves(a) && GoodMoves(b)
    requires InOrder(grp, h, a) && InOrder(Play(grp, h, a), h, b)
    ensures GoodMoves(a + b) && InOrder(grp, h, a + b)
  {
    hide GoodImage, Play, GoodGrp;
    forall i | 0 <= i < |a + b| && (a + b)[i].Output? && (a + b)[i].grp == h
      ensures Gives(Play(grp, h, (a + b)[..i]), (a + b)[i])
    {
      if i < |a| {
        assert (a + b)[..i] == a[..i];
      } else {
        var j := i - |a|;
        assert (a + b)[..i] == a + b[..j] && (a + b)[i] == b[j];
        PlayAppend(grp, h, a, b[..j]);
      }
    }
  }

  ghost predicate Gives(grp: VpssGrp, m: Move)
    requires m.Output?
  {
    m.chn in grp.chns && grp.chns[m.chn].queue != [] && grp.chns[m.chn].queue[0] == m.image
  }

  /** The image of each step is the input of the next: what one channel gives out, the next
      group takes in, and the last channel delivers. */
  ghost predicate Chain(moves: seq<Move>, img: Image)
    decreases |moves|
  {
    moves == [] ||
    (var n := |moves| - 1;
     && moves[n].Output? && moves[n].image == img
     && (n > 0 ==> moves[n - 1].Input? && moves[n - 1].grp == moves[n].grp && Chain(moves[..n - 1], moves[n - 1].image)))
  }

  /** Exactly one camera channel has produced a frame, when it was due. */
  ghost predicate OneTick(was: map<(int, int), ViChn>, fps: nat, now: nat, after: map<(int, int), ViChn>) {
    exists k :: k in was && k in after && after == was[k := after[k]] && Tick(was[k], fps, now) == (after[k], None)
  }

  /** The frame comes out of a queue, or else a camera made it for the occasion. */
  ghost predicate OneSource(s: State, now: nat, p: Pulled) {
    if p.moves != [] && p.moves[0].Output? then p.state.viChns == s.viChns
    else OneTick(s.viChns, s.viFps, now, p.state.viChns)
  }

  /** The number of starved channels behind a group's bind. */
  ghost function InletDepth(s: State, g: int): nat {
    if BoundEnds(s, Inlet(g)) then BoundDepth(s, Inlet(g)) else 0
  }

  /** The frame comes nearer with every group that takes it in, so none takes in two. */
  ghost predicate Climbs(s: State, moves: seq<Move>, top: nat) {
    && (forall i :: 0 <= i < |moves| && moves[i].Input? ==> InletDepth(s, moves[i].grp) < top)
    && (forall i, j :: 0 <= i < j < |moves| && moves[i].Input? && moves[j].Input? ==>
          InletDepth(s, moves[i].grp) < InletDepth(s, moves[j].grp))
  }

  /** Everything at once: one frame from one source down one chain, and the groups change
      by the moves of that chain and by nothing else. */
  ghost predicate OneFrame(s: State, now: nat, p: Pulled, top: nat)
    requires Good(s) && p.outcome.Ready?
  {
    && OneSource(s, now, p)
    && Chain(p.moves, p.outcome.image)
    && Climbs(s, p.moves, top)
    && GoodMoves(p.moves)
    && (forall h :: h in s.grps ==>
          h in p.state.grps && p.state.grps[h] == Play(s.grps[h], h, p.moves) && InOrder(s.grps[h], h, p.moves))
  }

  /** A frame from a camera. */
  lemma ViOneFrame(s: State, now: nat, pipe: int, chn: int)
    requires Good(s) && PullVi(s, now, pipe, chn).outcome.Ready?
    ensures OneFrame(s, now, PullVi(s, now, pipe, chn), 0)
  {
    var p := PullVi(s, now, pipe, chn);
    var k := (pipe, chn);
    hide WellFormed;
    assert k in s.viChns && p.state.viChns == s.viChns[k := p.state.viChns[k]];
  }

  /** A frame from a queue. */
  lemma QueueOneFrame(s: State, now: nat, g: int, c: int)
    requires Good(s) && g in s.grps && c in s.grps[g].chns && s.grps[g].chns[c].queue != []
    ensures TakeHead(s, g, c).outcome.Ready? && OneFrame(s, now, TakeHead(s, g, c), 0)
    ensures TakeHead(s, g, c).moves == [Output(g, c, TakeHead(s, g, c).outcome.image)]
  {
    var p := TakeHead(s, g, c);
    hide WellFormed, InletDepth;
    var m := p.moves[0];
    assert p.moves == [m] && p.moves[..0] == [];
    assert GoodImages(s.grps[g].chns[c].queue);
    forall h | h in s.grps
      ensures h in p.state.grps && p.state.grps[h] == Play(s.grps[h], h, p.moves) && InOrder(s.grps[h], h, p.moves)
    {
      assert Play(s.grps[h], h, p.moves) == PlayMove(s.grps[h], h, m);
    }
  }

  /** A frame that comes down through a group. */
  lemma FedOneFrame(s: State, now: nat, q: Pulled, g: int, c: int)
    requires Good(s) && g in s.grps && c in s.grps[g].chns && s.grps[g].chns[c].enabled
    requires Attempt(s, q) && q.outcome.Ready? && OneFrame(s, now, q, InletDepth(s, g))
    ensures q.state.grps.Keys == s.grps.Keys
    ensures var img := q.outcome.image;
            var out := TakeHead(Feed(q.state, g, img), g, c);
            && out.outcome.Ready?
            && out.moves == [Output(g, c, out.outcome.image)]
            && OneFrame(s, now, out.(moves := q.moves + [Input(g, img)] + out.moves), InletDepth(s, g) + 1)
  {
    hide WellFormed, OutputOf, Play, InOrder, PlayMove, TakeHead, Feed, GoodGrp, Chain, Climbs, OneTick, InletDepth, SameGrp;
    var img := q.outcome.image;
    FeedWorks(s, q, g, c);
    var fed := Feed(q.state, g, img);
    QueueOneFrame(fed, now, g, c);
    FeedIsInput(q.state, g, img);
    HasChn(s, q.state, g, c);
    OnlyGroups(q.state, g, c, img);
    var out := TakeHead(fed, g, c);
    LongerChain(s, q.moves, img, g, c, out.outcome.image);
    FedGroups(s, now, q, fed, out, g, img);
  }

  lemma HasChn(s: State, t: State, g: int, c: int)
    requires Upstream(s, t) && g in s.grps && c in s.grps[g].chns
    ensures g in t.grps && c in t.grps[g].chns && SameConfig(s.grps[g].chns[c], t.grps[g].chns[c])
  {
    assert SameGrp(s.grps[g], t.grps[g]);
  }

  lemma OnlyGroups(s: State, g: int, c: int, img: Image)
    requires Good(s) && g in s.grps && c in s.grps[g].chns && GoodImage(img) && Good(Feed(s, g, img))
    ensures Feed(s, g, img).grps.Keys == s.grps.Keys && c in Feed(s, g, img).grps[g].chns
    ensures TakeHead(Feed(s, g, img), g, c).state.viChns == s.viChns
  {
    hide WellFormed, Fed;
  }

  lemma FeedIsInput(s: State, g: int, img: Image)
    requires Good(s) && g in s.grps && GoodImage(img)
    ensures forall h :: h in s.grps ==>
              h in Feed(s, g, img).grps && Feed(s, g, img).grps[h] == PlayMove(s.grps[h], h, Input(g, img))
  {
    hide WellFormed, Process;
  }

  lemma FedGroups(s: State, now: nat, q: Pulled, fed: State, out: Pulled, g: int, img: Image)
    requires Good(s) && Good(q.state) && Good(fed) && GoodImage(img) && q.outcome.Ready? && out.outcome.Ready?
    requires OneFrame(s, now, q, InletDepth(s, g)) && OneFrame(fed, now, out, 0) && fed.grps.Keys == s.grps.Keys
    requires forall h :: h in q.state.grps ==> h in fed.grps && fed.grps[h] == PlayMove(q.state.grps[h], h, Input(g, img))
    ensures var all := q.moves + [Input(g, img)] + out.moves;
            && GoodMoves(all)
            && (forall h :: h in s.grps ==>
                  h in out.state.grps && out.state.grps[h] == Play(s.grps[h], h, all) && InOrder(s.grps[h], h, all))
  {
    hide WellFormed, Play, InOrder, PlayMove, GoodGrp, OneSource, Chain, Climbs, InletDepth;
    var all := q.moves + [Input(g, img)] + out.moves;
    forall h | h in s.grps
      ensures h in out.state.grps && GoodMoves(all)
      ensures out.state.grps[h] == Play(s.grps[h], h, all) && InOrder(s.grps[h], h, all)
    {
      FedGroup(s.grps[h], q.state.grps[h], h, q.moves, g, img);
      PlayAppend(s.grps[h], h, q.moves + [Input(g, img)], out.moves);
      InOrderAppend(s.grps[h], h, q.moves + [Input(g, img)], out.moves);
    }
  }

  lemma LongerChain(s: State, moves: seq<Move>, img: Image, g: int, c: int, out: Image)
    requires Chain(moves, img) && Climbs(s, moves, InletDepth(s, g)) && GoodMoves(moves) && GoodImage(img) && GoodImage(out)
    ensures var all := moves + [Input(g, img)] + [Output(g, c, out)];
            Chain(all, out) && Climbs(s, all, InletDepth(s, g) + 1) && GoodMoves(all)
            && (all[0].Output? <==> moves != [] && moves[0].Output?)
  {
    var all := moves + [Input(g, img)] + [Output(g, c, out)];
    assert all[..|all| - 2] == moves;
    hide GoodImage, InletDepth;
  }

  lemma FedGroup(was: VpssGrp, now: VpssGrp, h: int, moves: seq<Move>, g: int, img: Image)
    requires GoodGrp(was) && GoodGrp(now) && GoodMoves(moves) && GoodImage(img)
    requires now == Play(was, h, moves) && InOrder(was, h, moves)
    ensures GoodMoves(moves + [Input(g, img)])
    ensures Play(was, h, moves + [Input(g, img)]) == PlayMove(now, h, Input(g, img))
    ensures InOrder(was, h, moves + [Input(g, img)])
  {
    var one := [Input(g, img)];
    assert one[..0] == [];
    hide GoodImage, GoodGrp, PlayMove;
    assert GoodMoves(one);
    PlayAppend(was, h, moves, one);
    assert Play(now, h, one) == PlayMove(now, h, one[0]) by { assert Play(now, h, one[..0]) == now; }
    InOrderAppend(was, h, moves, one);
  }

  /** An attempt on a VPSS channel that succeeds consumes exactly one frame. */
  lemma {:induction false} PullConsumesOneFrame(s: State, now: nat, g: int, c: int)
    requires Good(s) && Ends(s, g, c) && PullVpss(s, now, g, c).outcome.Ready?
    ensures OneFrame(s, now, PullVpss(s, now, g, c), Depth(s, g, c))
    ensures var moves := PullVpss(s, now, g, c).moves;
            moves != [] && moves[|moves| - 1].Output? && moves[|moves| - 1].grp == g && moves[|moves| - 1].chn == c
    decreases Depth(s, g, c), 0
  {
    hide WellFormed, OutputOf, OneFrame, Attempt, Depth, BoundDepth, Ends, BoundEnds;
    var chn := s.grps[g].chns[c];
    if chn.queue != [] {
      QueueOneFrame(s, now, g, c);
      OneFrameUpTo(s, now, TakeHead(s, g, c), 0, Depth(s, g, c));
    } else {
      StarvedEnds(s, g, c);
      DepthOfInlet(s, g);
      var q := PullBound(s, now, Inlet(g)).value;
      BoundConsumesOneFrame(s, now, Inlet(g));
      FedOneFrame(s, now, q, g, c);
    }
  }

  lemma DepthOfInlet(s: State, g: int)
    requires BoundEnds(s, Inlet(g))
    ensures InletDepth(s, g) == BoundDepth(s, Inlet(g))
  {
    hide BoundDepth;
  }

  lemma OneFrameUpTo(s: State, now: nat, q: Pulled, top: nat, higher: nat)
    requires Good(s) && q.outcome.Ready? && OneFrame(s, now, q, top) && top <= higher
    ensures OneFrame(s, now, q, higher)
  {
    hide Good, GoodMoves, Play, InOrder, Chain, OneSource, InletDepth;
  }

  lemma {:induction false} BoundConsumesOneFrame(s: State, now: nat, dst: Chn)
    requires Good(s) && BoundEnds(s, dst) && dst in s.binds
    requires PullBound(s, now, dst).value.outcome.Ready?
    ensures OneFrame(s, now, PullBound(s, now, dst).value, BoundDepth(s, dst))
    decreases BoundDepth(s, dst), 1
  {
    hide OneFrame, WellFormed, Depth, Ends, BoundEnds;
    var src := s.binds[dst];
    if src.mod == Vi {
      ViOneFrame(s, now, src.dev, src.chn);
    } else {
      SourceEnds(s, dst);
      PullConsumesOneFrame(s, now, src.dev, src.chn);
    }
  }

  // ---------------------------------------------------------------- fan-out

  /** The channel as its group's input finds it: if it was itself the source of the frame,
      that frame has left its queue. */
  function Tapped(chn: VpssChn, moves: seq<Move>, g: int, c: int): VpssChn {
    if moves != [] && moves[0].Output? && moves[0].grp == g && moves[0].chn == c && chn.queue != [] then
      chn.(number := chn.number + 1, queue := chn.queue[1..])
    else chn
  }

  /** The channels of a group after channel `c` has got `out` by asking, `img` being the
      frame that the group took in: every enabled channel has it once, at the end of its
      queue, and no other channel has changed. */
  ghost predicate FannedOut(was: map<int, VpssChn>, after: map<int, VpssChn>, moves: seq<Move>, g: int, c: int,
                            out: Image, img: Image)
  {
    && GoodImage(img) && c in was && after.Keys == was.Keys
    && GoodChn(was[c]) && out == OutputOf(was[c], img)
    && after[c] == was[c].(number := was[c].number + 1)
    && (forall d :: d in was && d != c ==>
          GoodChn(Tapped(was[d], moves, g, d)) && after[d] == Fed(Tapped(was[d], moves, g, d), img))
  }

  /** A frame that one channel asks for reaches every enabled channel of its group, and the
      channel that asked has it taken out again; a channel that has a frame queued gives out
      that one and nothing else happens to the group. */
  lemma EveryChannelGetsIt(s: State, now: nat, g: int, c: int)
    requires Good(s) && Ends(s, g, c) && PullVpss(s, now, g, c).outcome.Ready?
    ensures var p := PullVpss(s, now, g, c);
            var (was, after) := (s.grps[g].chns, p.state.grps[g].chns);
            && c in was
            && (was[c].queue != [] ==>
                  && p.outcome.image == was[c].queue[0]
                  && after == was[c := was[c].(number := was[c].number + 1, queue := was[c].queue[1..])])
            && (was[c].queue == [] ==>
                  var n := |p.moves|;
                  && n >= 2 && p.moves[n - 2].Input? && p.moves[n - 2].grp == g
                  && FannedOut(was, after, p.moves, g, c, p.outcome.image, p.moves[n - 2].image))
  {
    hide *;
    ReadyMeans(s, now, g, c);
    if s.grps[g].chns[c].queue == [] {
      var q := StarvedPull(s, now, g, c);
      StarvedFansOut(s, now, q, g, c);
    } else {
      HeadTaken(s, g, c);
    }
  }

  lemma HeadTaken(s: State, g: int, c: int)
    requires Good(s) && g in s.grps && c in s.grps[g].chns && s.grps[g].chns[c].queue != []
    ensures var (p, was) := (TakeHead(s, g, c), s.grps[g].chns);
            && p.outcome == Ready(was[c].queue[0]) && g in p.state.grps
            && p.state.grps[g].chns == was[c := was[c].(number := was[c].number + 1, queue := was[c].queue[1..])]
  {
    hide Good;
  }

  /** A channel that delivers is on, and either starved or gives out what it has queued. */
  lemma ReadyMeans(s: State, now: nat, g: int, c: int)
    requires Good(s) && Ends(s, g, c) && PullVpss(s, now, g, c).outcome.Ready?
    ensures g in s.grps && c in s.grps[g].chns && g in PullVpss(s, now, g, c).state.grps
    ensures if s.grps[g].chns[c].queue == [] then Starved(s, g, c) else PullVpss(s, now, g, c) == TakeHead(s, g, c)
  {
    hide Good, Ends, BoundEnds, Depth, SameGrp, TakeHead, Feed, PullBound, GoodImage;
  }

  /** What a starved channel does with the answer of its source. */
  lemma StarvedPull(s: State, now: nat, g: int, c: int) returns (q: Pulled)
    requires Good(s) && Ends(s, g, c) && Starved(s, g, c) && PullVpss(s, now, g, c).outcome.Ready?
    ensures q.outcome.Ready? && Attempt(s, q) && OneFrame(s, now, q, InletDepth(s, g)) && g in q.state.grps
    ensures var fed := Feed(q.state, g, q.outcome.image);
            && Good(fed) && g in fed.grps && c in fed.grps[g].chns
            && PullVpss(s, now, g, c)
               == TakeHead(fed, g, c).(moves := q.moves + [Input(g, q.outcome.image)] + TakeHead(fed, g, c).moves)
  {
    hide WellFormed, OutputOf, Ends, BoundEnds, Depth, BoundDepth, OneFrame;
    StarvedEnds(s, g, c);
    DepthOfInlet(s, g);
    q := PullBound(s, now, Inlet(g)).value;
    BoundConsumesOneFrame(s, now, Inlet(g));
    hide PullBound, Feed, TakeHead;
    FeedWorks(s, q, g, c);
  }

  lemma StarvedFansOut(s: State, now: nat, q: Pulled, g: int, c: int)
    requires Good(s) && Starved(s, g, c) && q.outcome.Ready? && Attempt(s, q) && OneFrame(s, now, q, InletDepth(s, g))
    requires g in q.state.grps && Good(Feed(q.state, g, q.outcome.image))
    requires g in Feed(q.state, g, q.outcome.image).grps && c in Feed(q.state, g, q.outcome.image).grps[g].chns
    ensures var img := q.outcome.image;
            var out := TakeHead(Feed(q.state, g, img), g, c);
            && out.outcome.Ready? && g in out.state.grps && out.moves == [Output(g, c, out.outcome.image)]
            && FannedOut(s.grps[g].chns, out.state.grps[g].chns, q.moves + [Input(g, img)] + out.moves, g, c,
                         out.outcome.image, img)
  {
    hide *;
    var img := q.outcome.image;
    StarvedMid(s, now, q, g, c);
    FansOut(q.state, g, c, img);
    HeadsOfFed(q.state, now, g, c, img);
    var out := TakeHead(Feed(q.state, g, img), g, c);
    FansOutFrom(s.grps[g], q.state.grps[g].chns, out.state.grps[g].chns, q.moves, img, out.outcome.image, g, c);
  }

  /** What the group has become when its input has arrived. */
  lemma StarvedMid(s: State, now: nat, q: Pulled, g: int, c: int)
    requires Good(s) && Starved(s, g, c) && q.outcome.Ready? && Attempt(s, q) && OneFrame(s, now, q, InletDepth(s, g))
    ensures Good(q.state) && GoodImage(q.outcome.image)
    ensures g in s.grps && c in s.grps[g].chns && GoodGrp(s.grps[g])
    ensures s.grps[g].chns[c].enabled && s.grps[g].chns[c].queue == []
    ensures g in q.state.grps && q.state.grps[g].chns.Keys == s.grps[g].chns.Keys
    ensures q.state.grps[g].chns[c] == s.grps[g].chns[c]
    ensures forall d :: d in s.grps[g].chns ==>
              q.state.grps[g].chns[d] == Tapped(s.grps[g].chns[d], q.moves, g, d) && GoodChn(q.state.grps[g].chns[d])
  {
    hide GoodImage, GoodChn, OneFrame, Upstream, Tapped, InletDepth;
    TappedOnce(s, now, q, g);
    NotTapped(s.grps[g].chns[c], q.moves, g, c);
    assert GoodGrp(s.grps[g]) && GoodGrp(q.state.grps[g]);
  }

  lemma HeadsOfFed(s: State, now: nat, g: int, c: int, img: Image)
    requires Good(s) && g in s.grps && c in s.grps[g].chns && s.grps[g].chns[c].enabled && GoodImage(img)
    requires Good(Feed(s, g, img)) && g in Feed(s, g, img).grps && c in Feed(s, g, img).grps[g].chns
    ensures var out := TakeHead(Feed(s, g, img), g, c);
            out.outcome.Ready? && out.moves == [Output(g, c, out.outcome.image)]
  {
    FeedKeeps(s, g, img);
    hide *;
    QueueOneFrame(Feed(s, g, img), now, g, c);
  }

  lemma FansOutFrom(grp: VpssGrp, mid: map<int, VpssChn>, after: map<int, VpssChn>, moves: seq<Move>, img: Image, out: Image,
                    g: int, c: int)
    requires GoodGrp(grp) && c in grp.chns && GoodImage(img) && mid.Keys == grp.chns.Keys == after.Keys
    requires forall d :: d in grp.chns ==> mid[d] == Tapped(grp.chns[d], moves, g, d)
    requires mid[c] == grp.chns[c] && out == OutputOf(grp.chns[c], img) && after[c] == mid[c].(number := mid[c].number + 1)
    requires forall d :: d in mid && d != c ==> GoodChn(mid[d]) && after[d] == Fed(mid[d], img)
    ensures FannedOut(grp.chns, after, moves + [Input(g, img)] + [Output(g, c, out)], g, c, out, img)
  {
    hide GoodImage, OutputOf, Fed, Tapped, GoodChn;
    var was := grp.chns;
    var all := moves + [Input(g, img)] + [Output(g, c, out)];
    forall d | d in was && d != c
      ensures Tapped(was[d], all, g, d) == mid[d]
    {
      SameTap(was[d], moves, img, c, out, g, d);
    }
  }

  lemma NotTapped(chn: VpssChn, moves: seq<Move>, g: int, c: int)
    requires chn.queue == []
    ensures Tapped(chn, moves, g, c) == chn
  {
  }

  lemma SameTap(chn: VpssChn, moves: seq<Move>, img: Image, c: int, out: Image, g: int, d: int)
    requires d != c
    ensures Tapped(chn, moves + [Input(g, img)] + [Output(g, c, out)], g, d) == Tapped(chn, moves, g, d)
  {
  }

  /** While a group waits for its input, all that can happen to it is that one of its
      channels gives out the frame that comes back. */
  lemma TappedOnce(s: State, now: nat, q: Pulled, g: int)
    requires Good(s) && g in s.grps && q.outcome.Ready? && OneFrame(s, now, q, InletDepth(s, g))
    ensures g in q.state.grps && q.state.grps[g].chns.Keys == s.grps[g].chns.Keys
    ensures forall d :: d in s.grps[g].chns ==> q.state.grps[g].chns[d] == Tapped(s.grps[g].chns[d], q.moves, g, d)
    ensures q.moves != [] && q.moves[0].Output? && q.moves[0].grp == g ==>
              q.moves[0].chn in s.grps[g].chns && s.grps[g].chns[q.moves[0].chn].queue != []
  {
    hide Play, PlayMove, InOrder, GoodGrp, GoodImage, InletDepth, OneSource;
    OnlyTheFirst(s.grps[g], g, q.moves, q.outcome.image);
    FirstMove(s.grps[g], g, q.moves);
  }

  lemma FirstMove(grp: VpssGrp, g: int, moves: seq<Move>)
    requires GoodGrp(grp) && GoodMoves(moves) && InOrder(grp, g, moves)
    ensures moves != [] && moves[0].Output? && moves[0].grp == g ==>
      moves[0].chn in grp.chns && grp.chns[moves[0].chn].queue != []
    ensures moves != [] && moves[0].Output? ==>
      var after := PlayMove(grp, g, moves[0]).chns;
      after.Keys == grp.chns.Keys && forall d :: d in grp.chns ==> after[d] == Tapped(grp.chns[d], moves, g, d)
  {
    hide GoodImage, GoodChn;
    if moves != [] {
      assert moves[..0] == [] && Play(grp, g, moves[..0]) == grp;
    }
  }

  /** A group that takes in no frame of a chain gives out at most its first. */
  lemma {:induction false} OnlyTheFirst(grp: VpssGrp, g: int, moves: seq<Move>, img: Image)
    requires GoodGrp(grp) && GoodMoves(moves) && Chain(moves, img)
    requires forall i :: 0 <= i < |moves| && moves[i].Input? ==> moves[i].grp != g
    ensures Play(grp, g, moves) == if moves != [] && moves[0].Output? then PlayMove(grp, g, moves[0]) else grp
    decreases |moves|
  {
    hide GoodImage, GoodGrp;
    if moves != [] {
      var n := |moves| - 1;
      assert Play(grp, g, moves[..0]) == grp;
      if n > 0 {
        var before := moves[..n - 1];
        assert moves[..n][..n - 1] == before && moves[..n][n - 1] == moves[n - 1];
        OnlyTheFirst(grp, g, before, moves[n - 1].image);
        assert Play(grp, g, moves[..n]) == PlayMove(Play(grp, g, before), g, moves[n - 1]);
      }
    }
  }

  lemma FansOut(s: State, g: int, c: int, img: Image)
    requires Good(s) && g in s.grps && c in s.grps[g].chns && GoodImage(img) && Good(Feed(s, g, img))
    requires s.grps[g].chns[c].enabled && s.grps[g].chns[c].queue == []
    ensures var (was, p) := (s.grps[g].chns, TakeHead(Feed(s, g, img), g, c));
            && g in p.state.grps && p.state.grps[g].chns.Keys == was.Keys
            && p.outcome == Ready(OutputOf(was[c], img))
            && p.state.grps[g].chns[c] == was[c].(number := was[c].number + 1)
            && (forall d :: d in was && d != c ==> p.state.grps[g].chns[d] == Fed(was[d], img))
  {
    hide WellFormed, OutputOf;
    var chn := s.grps[g].chns[c];
    LonePush(OutputOf(chn, img), Capacity(chn));
  }

  lemma LonePush<T>(x: T, capacity: nat)
    requires capacity > 0
    ensures Push([], capacity, x) == [x]
  {
  }
}
