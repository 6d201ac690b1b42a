/** Frames on demand: a sink pulls from what it is bound to, through any number of VPSS
    groups, down to a camera channel. */
module Flow {
  import opened AccessUnits
  import opened Bytes
  import opened Encoder
  import opened Images
  import opened Mpi
  import opened Pattern
  import opened Strides

  /** Outcome of an attempt to get a frame; `wake` is when to try again, if known. */
  datatype Outcome = Ready(image: Image) | NotYet(wake: Option<nat>) | Failed(code: Code)

  /** What an attempt does to the VPSS groups: a group gets an input frame, a channel gives
      one out. */
  datatype Move = Input(grp: int, image: Image) | Output(grp: int, chn: int, image: Image)

  datatype Pulled = Pulled(state: State, outcome: Outcome, moves: seq<Move>)

  ghost predicate GoodVi(c: ViChn) {
    c.width > 0 && c.height > 0 && Supported(c.format)
  }

  /** What an encoder takes may be without pixels; what cameras and groups make never is. */
  ghost predicate Whole(images: seq<Image>) {
    forall i :: 0 <= i < |images| ==> WellFormed(images[i])
  }

  ghost predicate GoodVenc(v: VencChn) {
    Whole(v.queue) && v.stream.gop > 0 && (v.clip.Some? ==> v.clip.value != [])
  }

  /** Every channel has a real size, and every frame that is queued is well-formed. */
  ghost predicate Good(s: State) {
    && (forall k :: k in s.viChns ==> GoodVi(s.viChns[k]))
    && (forall g :: g in s.grps ==> GoodGrp(s.grps[g]))
    && (forall v :: v in s.vencs ==> GoodVenc(s.vencs[v]))
  }

  // ---------------------------------------------------------------- demand

  /** Where a group gets its frames from, as a key of the binds. */
  function Inlet(g: int): Chn {
    Chn(Vpss, g, 0)
  }

  /** The channel may deliver but has nothing queued, so that it has to ask for a frame. */
  predicate Starved(s: State, g: int, c: int) {
    && CheckVpssChn(s, g, c) == Success
    && c in s.grps[g].chns && s.grps[g].chns[c].enabled && s.grps[g].started && s.grps[g].chns[c].queue == []
  }

  /** Asking the channel ends after asking at most `n` starved channels. */
  ghost predicate EndsWithin(s: State, g: int, c: int, n: nat)
    decreases n, 0
  {
    Starved(s, g, c) ==> n > 0 && BoundEndsWithin(s, Inlet(g), n - 1)
  }

  ghost predicate BoundEndsWithin(s: State, dst: Chn, n: nat)
    decreases n, 1
  {
    dst in s.binds && s.binds[dst].mod == Vpss ==> EndsWithin(s, s.binds[dst].dev, s.binds[dst].chn, n)
  }

  /** Asking the channel ends; the recursion of the library has no other bound. */
  ghost predicate Ends(s: State, g: int, c: int) {
    exists n: nat :: EndsWithin(s, g, c, n)
  }

  ghost predicate BoundEnds(s: State, dst: Chn) {
    exists n: nat :: BoundEndsWithin(s, dst, n)
  }

  /** An encoder channel asks its source only when it has nothing of its own. */
  ghost predicate VencEnds(s: State, v: int) {
    CheckVenc(s, v) == Success && s.vencs[v].started && s.vencs[v].queue == [] ==> BoundEnds(s, Chn(Venc, 0, v))
  }

  lemma {:induction false} EndsLonger(s: State, g: int, c: int, m: nat, n: nat)
    requires EndsWithin(s, g, c, m) && m <= n
    ensures EndsWithin(s, g, c, n)
    decreases m
  {
    if Starved(s, g, c) && Inlet(g) in s.binds && s.binds[Inlet(g)].mod == Vpss {
      EndsLonger(s, s.binds[Inlet(g)].dev, s.binds[Inlet(g)].chn, m - 1, n - 1);
    }
  }

  ghost predicate LeastEnd(s: State, g: int, c: int, n: nat) {
    EndsWithin(s, g, c, n) && forall k: nat :: EndsWithin(s, g, c, k) ==> n <= k
  }

  lemma {:induction false} FindLeastEnd(s: State, g: int, c: int, n: nat) returns (m: nat)
    requires EndsWithin(s, g, c, n)
    ensures LeastEnd(s, g, c, m)
  {
    if n > 0 && EndsWithin(s, g, c, n - 1) {
      m := FindLeastEnd(s, g, c, n - 1);
    } else {
      m := n;
      forall k: nat | EndsWithin(s, g, c, k)
        ensures m <= k
      {
        if k < n {
          EndsLonger(s, g, c, k, n - 1);
        }
      }
    }
  }

  lemma SomeLeastEnd(s: State, g: int, c: int)
    requires Ends(s, g, c)
    ensures exists m: nat :: LeastEnd(s, g, c, m)
  {
    var n: nat :| EndsWithin(s, g, c, n);
    var m := FindLeastEnd(s, g, c, n);
  }

  /** The number of starved channels that are asked, this one included. */
  ghost function Depth(s: State, g: int, c: int): (n: nat)
    requires Ends(s, g, c)
    ensures LeastEnd(s, g, c, n)
  {
    SomeLeastEnd(s, g, c);
    var m: nat :| LeastEnd(s, g, c, m);
    m
  }

  /** The number of starved channels behind a bind; it does not depend on who asks. */
  ghost function BoundDepth(s: State, dst: Chn): nat
    requires BoundEnds(s, dst)
  {
    if dst in s.binds && s.binds[dst].mod == Vpss then
      SourceEnds(s, dst);
      Depth(s, s.binds[dst].dev, s.binds[dst].chn)
    else 0
  }

  lemma SourceEnds(s: State, dst: Chn)
    requires dst in s.binds && s.binds[dst].mod == Vpss
    ensures BoundEnds(s, dst) <==> Ends(s, s.binds[dst].dev, s.binds[dst].chn)
  {
    var src := s.binds[dst];
    assert forall n: nat :: BoundEndsWithin(s, dst, n) <==> EndsWithin(s, src.dev, src.chn, n);
  }

  /** A starved channel asks its group's source, and one more is asked in all. */
  lemma StarvedEnds(s: State, g: int, c: int)
    requires Starved(s, g, c)
    ensures Ends(s, g, c) <==> BoundEnds(s, Inlet(g))
    ensures Ends(s, g, c) ==> Depth(s, g, c) == BoundDepth(s, Inlet(g)) + 1
  {
    hide Starved;
    var dst := Inlet(g);
    forall n: nat
      ensures EndsWithin(s, g, c, n + 1) <==> BoundEndsWithin(s, dst, n)
    {
    }
    assert !EndsWithin(s, g, c, 0);
    if Ends(s, g, c) {
      var d := Depth(s, g, c);
      assert EndsWithin(s, g, c, (d - 1) + 1) && BoundEndsWithin(s, dst, d - 1);
      StarvedDepth(s, g, c);
    } else if BoundEnds(s, dst) {
      var n: nat :| BoundEndsWithin(s, dst, n);
      assert EndsWithin(s, g, c, n + 1);
    }
  }

  lemma StarvedDepth(s: State, g: int, c: int)
    requires Starved(s, g, c) && Ends(s, g, c) && BoundEnds(s, Inlet(g))
    ensures Depth(s, g, c) == BoundDepth(s, Inlet(g)) + 1
  {
    hide Starved, Depth;
    var dst, d := Inlet(g), Depth(s, g, c);
    if dst in s.binds && s.binds[dst].mod == Vpss {
      var src := s.binds[dst];
      SourceEnds(s, dst);
      var b := Depth(s, src.dev, src.chn);
      assert EndsWithin(s, g, c, b + 1) && EndsWithin(s, g, c, d);
      assert d > 0 && BoundEndsWithin(s, dst, d - 1) && EndsWithin(s, src.dev, src.chn, d - 1);
    } else {
      assert EndsWithin(s, g, c, 1) && !EndsWithin(s, g, c, 0);
    }
  }

  // ---------------------------------------------------------------- attempts

  /** The same channel but for its queue and its counter. */
  ghost predicate SameConfig(c: VpssChn, d: VpssChn) {
    d == c.(number := d.number, queue := d.queue)
  }

  ghost predicate SameGrp(g: VpssGrp, h: VpssGrp) {
    h.started == g.started && h.chns.Keys == g.chns.Keys && forall c :: c in g.chns ==> SameConfig(g.chns[c], h.chns[c])
  }

  /** Nothing but the queues and counters of groups and the pace of cameras has changed. */
  ghost predicate Upstream(s: State, t: State) {
    && t == s.(grps := t.grps, viChns := t.viChns)
    && t.grps.Keys == s.grps.Keys && t.viChns.Keys == s.viChns.Keys
    && (forall g :: g in s.grps ==> SameGrp(s.grps[g], t.grps[g]))
  }

  /** What every attempt keeps: it delivers a good image, or leaves all as it was. */
  ghost predicate Attempt(s: State, p: Pulled) {
    && Good(p.state)
    && Upstream(s, p.state)
    && (p.outcome.Ready? ==> GoodImage(p.outcome.image))
    && (!p.outcome.Ready? ==> p.state == s && p.moves == [])
  }

  lemma SameGrps(s: State)
    ensures Upstream(s, s)
  {
  }

  // ---------------------------------------------------------------- cameras

  /** Time between two frames of a camera. */
  function Period(fps: nat): nat
    requires fps > 0
  {
    SECOND / fps
  }

  /** The channel after an attempt, and whether there is a frame. */
  function Tick(c: ViChn, fps: nat, now: nat): (ViChn, Option<nat>) {
    var next := c.(number := c.number + 1);
    if fps == 0 then (next, None) else
    var due := if c.nextDue.Some? then c.nextDue.value else now;
    if now < due then (c, Some(due))
    else (next.(nextDue := Some(Max(due + Period(fps), now))), None)
  }

  function PullVi(s: State, now: nat, pipe: int, chn: int): (p: Pulled)
    requires Good(s)
    ensures Attempt(s, p) && p.state == s.(viChns := p.state.viChns)
  {
    SameGrps(s);
    var check := CheckViChn(s, pipe, chn);
    if check != Success then Pulled(s, Failed(check), [])
    else if !((pipe, chn) in s.viChns && s.viChns[(pipe, chn)].enabled) then Pulled(s, Failed(Unexist), [])
    else
      var (c, wake) := Tick(s.viChns[(pipe, chn)], s.viFps, now);
      if wake.Some? then Pulled(s, NotYet(wake), []) else
      var img := TestPattern(c.format, c.width, c.height, c.number, Micros(s, now));
      Pulled(s.(viChns := s.viChns[(pipe, chn) := c]), Ready(img), [])
  }

  // ---------------------------------------------------------------- groups

  /** Counts a frame of a channel and takes the head of its queue, if there is one. */
  function TakeHead(s: State, g: int, c: int): (p: Pulled)
    requires Good(s) && g in s.grps && c in s.grps[g].chns
  {
    var chn := s.grps[g].chns[c];
    var counted := chn.(number := chn.number + 1);
    if chn.queue == [] then Pulled(SetChn(s, g, c, counted), NotYet(None), [])
    else Pulled(SetChn(s, g, c, counted.(queue := chn.queue[1..])), Ready(chn.queue[0]), [Output(g, c, chn.queue[0])])
  }

  function Feed(s: State, g: int, img: Image): State
    requires Good(s) && g in s.grps && GoodImage(img)
  {
    s.(grps := s.grps[g := Process(s.grps[g], img)])
  }

  /** `pull` of VPSS. */
  function PullVpss(s: State, now: nat, g: int, c: int): (p: Pulled)
    requires Good(s) && Ends(s, g, c)
    ensures Attempt(s, p)
    decreases Depth(s, g, c), 0
  {
    SameGrps(s);
    var check := CheckVpssChn(s, g, c);
    if check != Success then Pulled(s, Failed(check), []) else
    var grp := s.grps[g];
    if !(c in grp.chns && grp.chns[c].enabled && grp.started) then Pulled(s, Failed(NotPerm), [])
    else if grp.chns[c].queue != [] then
      TakeHeadWorks(s, g, c);
      TakeHead(s, g, c)
    else
      StarvedEnds(s, g, c);
      match PullBound(s, now, Inlet(g))
      case None => Pulled(s, NotYet(None), [])
      case Some(q) =>
        if !q.outcome.Ready? then q else
        FeedWorks(s, q, g, c);
        var fed := Feed(q.state, g, q.outcome.image);
        var out := TakeHead(fed, g, c);
        out.(moves := q.moves + [Input(g, q.outcome.image)] + out.moves)
  }

  /** `pull_bound` */
  function PullBound(s: State, now: nat, dst: Chn): (r: Option<Pulled>)
    requires Good(s) && BoundEnds(s, dst)
    ensures r.Some? <==> dst in s.binds
    ensures r.Some? ==> Attempt(s, r.value)
    decreases BoundDepth(s, dst), 1
  {
    if dst !in s.binds then None else
    var src := s.binds[dst];
    match src.mod
    case Vi => Some(PullVi(s, now, src.dev, src.chn))
    case Vpss => SourceEnds(s, dst); Some(PullVpss(s, now, src.dev, src.chn))
    case _ => SameGrps(s); Some(Pulled(s, Failed(NotSupport), []))
  }

  lemma TakeHeadWorks(s: State, g: int, c: int)
    requires Good(s) && g in s.grps && c in s.grps[g].chns && s.grps[g].chns[c].queue != []
    ensures Attempt(s, TakeHead(s, g, c)) && TakeHead(s, g, c).outcome.Ready?
  {
    var chn := s.grps[g].chns[c];
    var tail := chn.(number := chn.number + 1, queue := chn.queue[1..]);
    assert GoodGrp(s.grps[g]);
    GoodTail(chn, tail);
    hide GoodChn, WellFormed;
    ChnChanges(s, g, c, tail);
    hide Good, Upstream;
  }

  lemma GoodTail(chn: VpssChn, tail: VpssChn)
    requires GoodChn(chn) && chn.queue != [] && tail == chn.(number := chn.number + 1, queue := chn.queue[1..])
    ensures GoodChn(tail) && GoodImage(chn.queue[0])
  {
    hide WellFormed;
  }

  /** One channel with another queue. */
  lemma ChnChanges(s: State, g: int, c: int, chn: VpssChn)
    requires Good(s) && g in s.grps && c in s.grps[g].chns && GoodChn(chn) && SameConfig(s.grps[g].chns[c], chn)
    ensures Good(SetChn(s, g, c, chn)) && Upstream(s, SetChn(s, g, c, chn))
  {
    var t := SetChn(s, g, c, chn);
    hide GoodChn, GoodVenc, GoodVi;
    assert GoodGrp(t.grps[g]);
    assert SameGrp(s.grps[g], t.grps[g]);
    hide GoodGrp, SameGrp;
    assert forall h :: h in t.grps && h != g ==> t.grps[h] == s.grps[h];
    SameGrps(s);
  }

  /** Whatever else has happened to the group while it waited for its input, afterwards the
      channel that asked has a frame. */
  lemma FeedWorks(s: State, q: Pulled, g: int, c: int)
    requires Good(s) && g in s.grps && c in s.grps[g].chns && s.grps[g].chns[c].enabled
    requires Attempt(s, q) && q.outcome.Ready?
    ensures q.state.grps.Keys == s.grps.Keys
    ensures var fed := Feed(q.state, g, q.outcome.image);
            && Good(fed) && g in fed.grps && c in fed.grps[g].chns && fed.grps[g].chns[c].queue != []
            && TakeHead(fed, g, c).outcome.Ready?
            && Attempt(s, TakeHead(fed, g, c))
  {
    var fed := Feed(q.state, g, q.outcome.image);
    hide WellFormed, OutputOf;
    FeedKeeps(q.state, g, q.outcome.image);
    assert SameGrp(s.grps[g], q.state.grps[g]);
    assert SameConfig(s.grps[g].chns[c], q.state.grps[g].chns[c]);
    hide Good, SameGrp, TakeHead, Feed;
    TakeHeadWorks(fed, g, c);
    UpstreamOn(s, q.state, fed);
    UpstreamOn(s, fed, TakeHead(fed, g, c).state);
  }

  lemma FeedKeeps(s: State, g: int, img: Image)
    requires Good(s) && g in s.grps && GoodImage(img)
    ensures Good(Feed(s, g, img)) && Upstream(s, Feed(s, g, img))
    ensures forall c :: c in s.grps[g].chns && s.grps[g].chns[c].enabled ==> Feed(s, g, img).grps[g].chns[c].queue != []
  {
    hide WellFormed, OutputOf;
  }

  lemma UpstreamOn(s: State, t: State, u: State)
    requires Upstream(s, t) && Upstream(t, u)
    ensures Upstream(s, u)
  {
    hide SameGrp;
    forall g | g in s.grps
      ensures SameGrp(s.grps[g], u.grps[g])
    {
      SameGrpOn(s.grps[g], t.grps[g], u.grps[g]);
    }
  }

  lemma SameGrpOn(g: VpssGrp, h: VpssGrp, k: VpssGrp)
    requires SameGrp(g, h) && SameGrp(h, k)
    ensures SameGrp(g, k)
  {
  }

  // ---------------------------------------------------------------- encoder channels

  /** `pull` of VENC: its own queue first, the bound source only when that is empty. */
  function PullVenc(s: State, now: nat, v: int): (p: Pulled)
    requires Good(s) && VencEnds(s, v)
    ensures Good(p.state) && (p.outcome.Ready? ==> WellFormed(p.outcome.image))
    ensures !p.outcome.Ready? ==> p.state == s && p.moves == []
    ensures p.state == s.(vencs := p.state.vencs, grps := p.state.grps, viChns := p.state.viChns)
    ensures p.outcome.Ready? ==>
      CheckVenc(s, v) == Success && s.vencs[v].started && p.state.vencs.Keys == s.vencs.Keys
    ensures p.outcome.Ready? && s.vencs[v].queue != [] ==>
      var c := s.vencs[v];
      && c.queue == [p.outcome.image] + p.state.vencs[v].queue
      && p.state == s.(vencs := s.vencs[v := c.(queue := c.queue[1..])]) && p.moves == []
    ensures p.outcome.Ready? && s.vencs[v].queue == [] ==>
      && p.state.vencs == s.vencs && GoodImage(p.outcome.image)
      && BoundEnds(s, Chn(Venc, 0, v)) && PullBound(s, now, Chn(Venc, 0, v)) == Some(p)
  {
    var check := CheckVenc(s, v);
    if check != Success then Pulled(s, Failed(check), []) else
    var chn := s.vencs[v];
    if !chn.started then Pulled(s, Failed(NotPerm), [])
    else if chn.queue != [] then
      Pulled(s.(vencs := s.vencs[v := chn.(queue := chn.queue[1..])]), Ready(chn.queue[0]), [])
    else match PullBound(s, now, Chn(Venc, 0, v))
      case None => Pulled(s, NotYet(None), [])
      case Some(q) => q
  }

  // ---------------------------------------------------------------- calls

  /** What a delivery does to the blocks: at most, add one that belongs to no pool. */
  ghost predicate AddsLoose(s: State, t: State, mb: Handle) {
    t.blocks == s.blocks || (mb in t.blocks && t.blocks == s.blocks[mb := Block(None, t.blocks[mb].data)])
  }

  lemma ImportedIsGood(s: State, now: nat, f: VideoFrame)
    ensures var r := ImportFrame(s, now, f);
            r.Ok? ==> WellFormed(r.value) && r.value.width == f.width && r.value.height == f.height
  {
    if f.mb in s.blocks {
      ImportFailsExactly(f.format, f.width, f.height, Max(f.virWidth, f.width), Max(f.virHeight, f.height),
                         s.blocks[f.mb].data, if f.pts != 0 then f.pts else Micros(s, now));
      hide Import, WellFormed, Fits;
    }
  }

  /** No channel of the group would have to scale a frame without pixels, on which the
      source panics. */
  predicate Scalable(s: State, now: nat, g: int, f: VideoFrame) {
    CheckGrp(s, g) == Success && s.grps[g].started && ImportFrame(s, now, f).Ok? && (f.width == 0 || f.height == 0) ==>
      forall c :: c in s.grps[g].chns ==> !s.grps[g].chns[c].enabled
  }

  /** A frame without pixels, which no channel takes, changes nothing. */
  function SendVpss(s: State, now: nat, g: int, f: VideoFrame): (r: (State, Code, seq<Move>))
    requires Good(s) && Scalable(s, now, g, f)
    ensures r.0 == s.(grps := r.0.grps) && (r.1 != Success ==> r.0 == s && r.2 == [])
  {
    var check := CheckGrp(s, g);
    if check != Success then (s, check, [])
    else if !s.grps[g].started then (s, NotPerm, [])
    else match ImportFrame(s, now, f)
      case Err(code) => (s, code, [])
      case Ok(img) =>
        ImportedIsGood(s, now, f);
        if f.width == 0 || f.height == 0 then (s, Success, []) else
        (Feed(s, g, img), Success, [Input(g, img)])
  }

  /** A frame that was delivered goes into a new block. */
  function Delivered(p: Pulled, mb: Handle, timeRef: nat): (State, Result<VideoFrame, Code>) {
    match p.outcome
    case Ready(img) => var (t, f) := ExportFrame(p.state, mb, img, timeRef); (t, Ok(f))
    case NotYet(_) => (p.state, Err(BufEmpty))
    case Failed(code) => (p.state, Err(code))
  }

  function GetViFrame(s: State, now: nat, pipe: int, chn: int, mb: Handle): (r: (State, Result<VideoFrame, Code>))
    requires Good(s)
    ensures AddsLoose(s, r.0, mb) && r.0 == s.(viChns := r.0.viChns, blocks := r.0.blocks)
    ensures r.1.Err? ==> r.0 == s
  {
    var p := PullVi(s, now, pipe, chn);
    Delivered(p, mb, if (pipe, chn) in p.state.viChns then p.state.viChns[(pipe, chn)].number * 2 else 0)
  }

  function GetVpssFrame(s: State, now: nat, g: int, c: int, mb: Handle): (r: (State, Result<VideoFrame, Code>))
    requires Good(s) && Ends(s, g, c)
    ensures AddsLoose(s, r.0, mb) && r.0 == s.(grps := r.0.grps, viChns := r.0.viChns, blocks := r.0.blocks)
    ensures r.1.Err? ==> r.0 == s
  {
    var p := PullVpss(s, now, g, c);
    var known := g in p.state.grps && c in p.state.grps[g].chns;
    Delivered(p, mb, if known then p.state.grps[g].chns[c].number * 2 else 0)
  }

  /** One packet of an encoder channel, in a block of its own. */
  datatype Packet = Packet(mb: Handle, frame: Frame, number: nat, pts: nat)

  /** The channel can make a packet of the image; the synthetic encoder panics on one
      without pixels, and a clip does not look at it. */
  predicate Packable(v: VencChn, img: Image) {
    v.clip.Some? || img.data != []
  }

  /** What a channel makes of its `number`-th input frame. */
  function PacketOf(v: VencChn, img: Image): Frame
    requires GoodVenc(v) && WellFormed(img) && Packable(v, img)
  {
    match v.clip
    case Some(frames) => frames[v.number % |frames|]
    case None => Encode(v.stream, img, v.number)
  }

  lemma NotEmpty(img: Image)
    requires GoodImage(img)
    ensures img.data != []
  {
    MulMono(1, img.width, img.height);
  }

  /** The frame that would be packed next can be. */
  predicate Packs(s: State, v: int) {
    CheckVenc(s, v) == Success && s.vencs[v].started && s.vencs[v].queue != [] ==> Packable(s.vencs[v], s.vencs[v].queue[0])
  }

  lemma PacksPulled(s: State, now: nat, v: int)
    requires Good(s) && VencEnds(s, v) && Packs(s, v) && PullVenc(s, now, v).outcome.Ready?
    ensures var p := PullVenc(s, now, v);
            && v in s.vencs && v in p.state.vencs && GoodVenc(p.state.vencs[v])
            && Packable(s.vencs[v], p.outcome.image) && Packable(p.state.vencs[v], p.outcome.image)
            && p.state.vencs[v] == s.vencs[v].(queue := p.state.vencs[v].queue)
  {
    hide PullBound, GoodVenc;
    var p := PullVenc(s, now, v);
    if s.vencs[v].queue == [] {
      NotEmpty(p.outcome.image);
    }
  }

  function GetStream(s: State, now: nat, v: int, mb: Handle): (r: (State, Result<Packet, Code>))
    requires Good(s) && VencEnds(s, v) && Packs(s, v)
    ensures AddsLoose(s, r.0, mb)
    ensures r.0 == s.(vencs := r.0.vencs, grps := r.0.grps, viChns := r.0.viChns, blocks := r.0.blocks)
    ensures r.1.Err? ==> r.0 == s
  {
    var p := PullVenc(s, now, v);
    match p.outcome
    case NotYet(_) => (p.state, Err(BufEmpty))
    case Failed(code) => (p.state, Err(code))
    case Ready(img) =>
      PacksPulled(s, now, v);
      var c := p.state.vencs[v];
      var frame := PacketOf(c, img);
      var t := p.state.(vencs := p.state.vencs[v := c.(number := c.number + 1, outstanding := c.outstanding + 1)],
                        blocks := p.state.blocks[mb := Block(None, frame.data)]);
      (t, Ok(Packet(mb, frame, c.number, img.pts)))
  }
}
