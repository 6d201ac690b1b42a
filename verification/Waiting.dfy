/** Calls that wait: attempts are repeated while other threads make calls of their own. */
module Waiting {
  import opened Blocking
  import opened Bytes
  import opened Flow
  import opened Invariants
  import opened Mpi
  import M = Machine

  /** Whom a waiting call asks. */
  datatype Request = OfVi(pipe: int, chn: int) | OfVpss(grp: int, chn: int) | OfVenc(chn: int)

  /** One turn of a waiting call: the time of the attempt, the time of the look at the clock
      that follows, the address that the allocator would pick, and the calls that others make
      while this one sleeps. */
  datatype Round = Round(now: nat, later: nat, mb: Handle, others: seq<M.Event>)

  /** The request gets an answer. */
  ghost predicate Answers(s: State, q: Request) {
    match q
    case OfVi(_, _) => true
    case OfVpss(g, c) => Ends(s, g, c)
    case OfVenc(v) => VencEnds(s, v) && Packs(s, v)
  }

  ghost function Answer(s: State, now: nat, q: Request): (p: Pulled)
    requires Good(s) && Answers(s, q)
    ensures Good(p.state) && (!p.outcome.Ready? ==> p.state == s)
  {
    match q
    case OfVi(pipe, chn) => PullVi(s, now, pipe, chn)
    case OfVpss(g, c) => PullVpss(s, now, g, c)
    case OfVenc(v) => PullVenc(s, now, v)
  }

  /** The call that does not wait. */
  function CallOf(q: Request, mb: Handle): M.Op {
    match q
    case OfVi(pipe, chn) => M.OnVi(M.GetViFrame(pipe, chn, mb))
    case OfVpss(g, c) => M.OnVpss(M.GetVpssFrame(g, c, mb))
    case OfVenc(v) => M.OnVenc(M.GetStream(v, mb))
  }

  function EventOf(q: Request, r: Round): M.Event {
    M.Event(CallOf(q, r.mb), r.now)
  }

  lemma CallIsLegal(s: State, q: Request, r: Round)
    ensures M.Legal(s, EventOf(q, r)) <==> r.mb !in s.blocks && Answers(s, q)
  {
    hide Ends, VencEnds, Packs;
  }

  /** What the others do in the first `n` rounds. */
  function Others(rounds: seq<Round>, n: nat): seq<M.Event>
    requires n <= |rounds|
  {
    if n == 0 then [] else Others(rounds, n - 1) + rounds[n - 1].others
  }

  /** The state that the attempt of round `n` finds. */
  ghost function Found(s: State, rounds: seq<Round>, n: nat): State
    requires n <= |rounds|
  {
    M.Run(s, Others(rounds, n))
  }

  /** Every call of the list returns, each where those before it have led. */
  ghost predicate AllLegal(s: State, es: seq<M.Event>) {
    forall i :: 0 <= i < |es| ==> M.Legal(M.Run(s, es[..i]), es[i])
  }

  /** All attempts and all calls of the others return. */
  ghost predicate Playable(s: State, q: Request, rounds: seq<Round>) {
    forall i: nat :: i < |rounds| ==> RoundPlays(Found(s, rounds, i), q, rounds[i])
  }

  ghost predicate RoundPlays(s: State, q: Request, r: Round) {
    M.Legal(s, EventOf(q, r)) && AllLegal(s, r.others)
  }

  /** The attempt finds nothing and there is time left. */
  ghost predicate Sleeps(s: State, q: Request, r: Round, d: Deadline) {
    Good(s) && Answers(s, q) && Answer(s, r.now, q).outcome.NotYet? && !Expired(d, r.later)
  }

  /** The first `n` looks at the clock are before the caller's `ms` milliseconds are over, if
      there is such a limit; a caller who does not wait looks only once. */
  ghost predicate InTime(rounds: seq<Round>, n: nat, ms: int, start: nat)
    requires n <= |rounds|
  {
    forall i :: 0 <= i < n ==> ms != 0 && (ms > 0 ==> rounds[i].later < start + ms * 1_000_000)
  }

  lemma FoundNext(s: State, rounds: seq<Round>, n: nat)
    requires n < |rounds|
    ensures Found(s, rounds, n + 1) == M.Run(Found(s, rounds, n), rounds[n].others)
  {
    hide M.Run;
    var (a, b) := (Others(rounds, n), rounds[n].others);
    M.RunFrom(s, a + b, |a|);
    assert (a + b)[..|a|] == a && (a + b)[|a|..] == b;
  }

  /** An attempt that fails never says that the buffer is empty. */
  lemma NeverEmpty(s: State, now: nat, q: Request)
    requires Good(s) && Answers(s, q)
    ensures Answer(s, now, q).outcome != Failed(BufEmpty)
  {
    hide Good, Ends, VencEnds, Packs, PullVpss, PullVenc, Tick;
    match q
    case OfVpss(g, c) => FailuresAreNotTimeouts(s, now, g, c);
    case OfVenc(v) => VencFailuresAreNotTimeouts(s, now, v);
    case _ =>
  }
}
