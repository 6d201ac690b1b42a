/** Waiting for a frame: attempts are repeated until one succeeds, fails or comes too late. */
module Blocking {
  import opened Bytes
  import opened Mpi
  import opened Flow

  datatype Deadline = NonBlock | At(time: nat) | Never

  /** `Deadline::from_ms` */
  function FromMs(ms: int, now: nat): Deadline {
    if ms < 0 then Never else if ms == 0 then NonBlock else At(now + ms * 1_000_000)
  }

  predicate Expired(d: Deadline, now: nat) {
    match d
    case NonBlock => true
    case At(time) => now >= time
    case Never => false
  }

  /** One turn with the lock held: the state that other threads have left behind, the time
      of the attempt, and the time of the look at the clock that follows. */
  datatype Turn = Turn(state: State, now: nat, later: nat)

  /** When to wake up at the latest; `None` is only on a notification. */
  function WakeAt(d: Deadline, wake: Option<nat>): Option<nat> {
    match (d, wake)
    case (At(time), Some(w)) => Some(if w < time then w else time)
    case (At(time), None) => Some(time)
    case (_, w) => w
  }

  /** `pull_blocking`, for a script of turns. `None` means that it is still waiting after
      the last turn; otherwise `at` is the turn that decided. `waits` has the times up to
      which it has slept, one for each turn that it has waited after. */
  method PullBlocking(attempt: (State, nat) --> Pulled, d: Deadline, turns: seq<Turn>)
    returns (at: nat, r: Option<Result<Pulled, Code>>, waits: seq<Option<nat>>)
    requires forall i :: 0 <= i < |turns| ==> attempt.requires(turns[i].state, turns[i].now)
    ensures at <= |turns| && (r.None? <==> at == |turns|) && |waits| == at
    ensures forall i :: 0 <= i < at ==> attempt(turns[i].state, turns[i].now).outcome.NotYet? && !Expired(d, turns[i].later)
    ensures forall i :: 0 <= i < at ==> waits[i] == WakeAt(d, attempt(turns[i].state, turns[i].now).outcome.wake)
    ensures r.Some? ==> var p := attempt(turns[at].state, turns[at].now);
                        match p.outcome
                        case Ready(_) => r.value == Ok(p)
                        case Failed(code) => r.value == Err(code)
                        case NotYet(_) => r.value == Err(BufEmpty) && Expired(d, turns[at].later)
  {
    at, waits := 0, [];
    while at < |turns|
      invariant at <= |turns| && |waits| == at
      invariant forall i :: 0 <= i < at ==>
                  attempt(turns[i].state, turns[i].now).outcome.NotYet? && !Expired(d, turns[i].later)
      invariant forall i :: 0 <= i < at ==> waits[i] == WakeAt(d, attempt(turns[i].state, turns[i].now).outcome.wake)
    {
      var p := attempt(turns[at].state, turns[at].now);
      match p.outcome {
        case Ready(_) => return at, Some(Ok(p)), waits;
        case Failed(code) => return at, Some(Err(code)), waits;
        case NotYet(wake) =>
          if Expired(d, turns[at].later) {
            return at, Some(Err(BufEmpty)), waits;
          }
          waits := waits + [WakeAt(d, wake)];
      }
      at := at + 1;
    }
    r := None;
  }

  /** A failing attempt never says `BufEmpty`, so a caller that sees it has run out of time. */
  lemma {:induction false} FailuresAreNotTimeouts(s: State, now: nat, g: int, c: int)
    requires Good(s) && Ends(s, g, c)
    ensures PullVpss(s, now, g, c).outcome != Failed(BufEmpty)
    decreases Depth(s, g, c)
  {
    hide Good, GoodImage, OutputOf, Ends, BoundEnds, Depth;
    var up := Inlet(g);
    if Starved(s, g, c) {
      StarvedEnds(s, g, c);
      if up in s.binds && s.binds[up].mod == Vpss {
        SourceEnds(s, up);
        FailuresAreNotTimeouts(s, now, s.binds[up].dev, s.binds[up].chn);
      }
    }
  }

  lemma VencFailuresAreNotTimeouts(s: State, now: nat, v: int)
    requires Good(s) && VencEnds(s, v)
    ensures PullVenc(s, now, v).outcome != Failed(BufEmpty)
  {
    hide Good, GoodImage, OutputOf, Ends, BoundEnds, Depth;
    var up := Chn(Venc, 0, v);
    if CheckVenc(s, v) == Success && s.vencs[v].started && s.vencs[v].queue == []
       && up in s.binds && s.binds[up].mod == Vpss {
      SourceEnds(s, up);
      FailuresAreNotTimeouts(s, now, s.binds[up].dev, s.binds[up].chn);
    }
  }

  /** A sleep is up to the time that the attempt has named, if any, and never beyond the
      caller's `ms` milliseconds, if there is such a limit. */
  predicate SleepsTo(wake: Option<nat>, ms: int, start: nat, to: Option<nat>) {
    if ms > 0 then
      to.Some? && to.value <= start + ms * 1_000_000
      && to.value == if wake.Some? && wake.value < start + ms * 1_000_000 then wake.value else start + ms * 1_000_000
    else to == wake
  }

  /** Time is up at once without waiting, never with a negative timeout, and otherwise once
      the milliseconds are over. */
  lemma Deadlines(ms: int, start: nat, later: nat)
    ensures Expired(FromMs(ms, start), later) <==> ms >= 0 && (ms > 0 ==> later >= start + ms * 1_000_000)
  {
  }

  lemma SleepsAre(ms: int, start: nat, wake: Option<nat>)
    ensures SleepsTo(wake, ms, start, WakeAt(FromMs(ms, start), wake))
  {
  }

  /** However many turns a caller waits, it takes at most one frame: each turn but the last
      hands the state on as it was found, and so does the last unless it delivers. `start` is
      the time of the call and `ms` how long it may take. */
  method WaitForVpss(g: int, c: int, ms: int, start: nat, turns: seq<Turn>)
    returns (at: nat, r: Option<Result<Pulled, Code>>, waits: seq<Option<nat>>)
    requires forall i :: 0 <= i < |turns| ==> Good(turns[i].state) && Ends(turns[i].state, g, c)
    ensures at <= |turns| && (r.None? <==> at == |turns|)
    ensures forall i :: 0 <= i < at ==> PullVpss(turns[i].state, turns[i].now, g, c).state == turns[i].state
    ensures r.Some? && r.value.Ok? ==> r.value.value == PullVpss(turns[at].state, turns[at].now, g, c)
                                       && r.value.value.outcome.Ready?
    ensures r.Some? && r.value.Err? ==> PullVpss(turns[at].state, turns[at].now, g, c).state == turns[at].state
    ensures r == Some(Err(BufEmpty)) ==> ms >= 0 && (ms > 0 ==> turns[at].later >= start + ms * 1_000_000)
    ensures forall i :: 0 <= i < at ==> ms != 0 && (ms > 0 ==> turns[i].later < start + ms * 1_000_000)
    ensures |waits| == at && (ms == 0 && turns != [] ==> at == 0 && r.Some?)
    ensures forall i :: 0 <= i < at ==>
              PullVpss(turns[i].state, turns[i].now, g, c).outcome.NotYet?
              && SleepsTo(PullVpss(turns[i].state, turns[i].now, g, c).outcome.wake, ms, start, waits[i])
  {
    at, r, waits := PullBlocking((s: State, now: nat) requires Good(s) && Ends(s, g, c) => PullVpss(s, now, g, c),
                                 FromMs(ms, start), turns);
    hide PullVpss, Good, Ends, FromMs, Expired, WakeAt, SleepsTo;
    forall i | 0 <= i < at
      ensures ms != 0 && (ms > 0 ==> turns[i].later < start + ms * 1_000_000)
      ensures SleepsTo(PullVpss(turns[i].state, turns[i].now, g, c).outcome.wake, ms, start, waits[i])
    {
      Deadlines(ms, start, turns[i].later);
      SleepsAre(ms, start, PullVpss(turns[i].state, turns[i].now, g, c).outcome.wake);
    }
    if at < |turns| {
      Deadlines(ms, start, turns[at].later);
      FailuresAreNotTimeouts(turns[at].state, turns[at].now, g, c);
    }
    if at > 0 {
      Deadlines(ms, start, turns[0].later);
    }
  }

  /** The same for an encoder channel. */
  method WaitForVenc(v: int, ms: int, start: nat, turns: seq<Turn>)
    returns (at: nat, r: Option<Result<Pulled, Code>>, waits: seq<Option<nat>>)
    requires forall i :: 0 <= i < |turns| ==> Good(turns[i].state) && VencEnds(turns[i].state, v)
    ensures at <= |turns| && (r.None? <==> at == |turns|)
    ensures forall i :: 0 <= i < at ==> PullVenc(turns[i].state, turns[i].now, v).state == turns[i].state
    ensures r.Some? && r.value.Ok? ==> r.value.value == PullVenc(turns[at].state, turns[at].now, v)
                                       && r.value.value.outcome.Ready?
    ensures r.Some? && r.value.Err? ==> PullVenc(turns[at].state, turns[at].now, v).state == turns[at].state
    ensures r == Some(Err(BufEmpty)) ==> ms >= 0 && (ms > 0 ==> turns[at].later >= start + ms * 1_000_000)
    ensures forall i :: 0 <= i < at ==> ms != 0 && (ms > 0 ==> turns[i].later < start + ms * 1_000_000)
    ensures |waits| == at && (ms == 0 && turns != [] ==> at == 0 && r.Some?)
    ensures forall i :: 0 <= i < at ==>
              PullVenc(turns[i].state, turns[i].now, v).outcome.NotYet?
              && SleepsTo(PullVenc(turns[i].state, turns[i].now, v).outcome.wake, ms, start, waits[i])
  {
    at, r, waits := PullBlocking((s: State, now: nat) requires Good(s) && VencEnds(s, v) => PullVenc(s, now, v),
                                 FromMs(ms, start), turns);
    hide PullVenc, Good, VencEnds, FromMs, Expired, WakeAt, SleepsTo;
    forall i | 0 <= i < at
      ensures ms != 0 && (ms > 0 ==> turns[i].later < start + ms * 1_000_000)
      ensures SleepsTo(PullVenc(turns[i].state, turns[i].now, v).outcome.wake, ms, start, waits[i])
    {
      Deadlines(ms, start, turns[i].later);
      SleepsAre(ms, start, PullVenc(turns[i].state, turns[i].now, v).outcome.wake);
    }
    if at < |turns| {
      Deadlines(ms, start, turns[at].later);
      VencFailuresAreNotTimeouts(turns[at].state, turns[at].now, v);
    }
    if at > 0 {
      Deadlines(ms, start, turns[0].later);
    }
  }

  /** A camera channel asked again at the time it has named has a frame, so somebody who
      waits for it alone, on a channel that nobody touches, asks at most twice. */
  lemma CameraKeepsItsWord(s: State, now: nat, pipe: int, chn: int, ms: int, start: nat, to: Option<nat>, later: nat)
    requires Good(s) && PullVi(s, now, pipe, chn).outcome.NotYet?
    requires SleepsTo(PullVi(s, now, pipe, chn).outcome.wake, ms, start, to) && to.Some? && later >= to.value
    ensures PullVi(s, later, pipe, chn).outcome.Ready? || (ms > 0 && later >= start + ms * 1_000_000)
  {
  }
}
