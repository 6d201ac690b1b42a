/** A camera channel is paced: how its frames lie in time, whoever asks for them and when. */
module Pacing {
  import opened Bytes
  import opened Images
  import opened Mpi
  import opened Flow
  import opened Scaling

  /** The times at which attempts at the given times get a frame. */
  function Frames(c: ViChn, fps: nat, times: seq<nat>): (ts: seq<nat>)
    ensures |ts| <= |times|
    decreases |times|
  {
    if times == [] then [] else
    var (next, wake) := Tick(c, fps, times[0]);
    (if wake.Some? then [] else [times[0]]) + Frames(next, fps, times[1..])
  }

  ghost predicate Ordered(times: seq<nat>) {
    forall i, j :: 0 <= i < j < |times| ==> times[i] <= times[j]
  }

  /** The `i`-th frame after a due time does not come before that time and `i` periods. */
  lemma {:induction false} NoneBeforeDue(c: ViChn, fps: nat, times: seq<nat>, due: nat, i: nat)
    requires fps > 0 && Ordered(times) && i < |Frames(c, fps, times)|
    requires c.nextDue.Some? && c.nextDue.value >= due
    ensures Frames(c, fps, times)[i] >= due + i * Period(fps)
    decreases |times|
  {
    var (next, wake) := Tick(c, fps, times[0]);
    if wake.Some? {
      NoneBeforeDue(c, fps, times[1..], due, i);
    } else if i > 0 {
      assert i * Period(fps) == (i - 1) * Period(fps) + Period(fps);
      NoneBeforeDue(next, fps, times[1..], due + Period(fps), i - 1);
    }
  }

  /** Frames `i` and `j` are at least `j - i - 1` periods apart: one frame may be late and the
      next one on time, but the delay is made up only once. */
  lemma {:induction false} Apart(c: ViChn, fps: nat, times: seq<nat>, i: nat, j: nat)
    requires fps > 0 && Ordered(times) && i < j < |Frames(c, fps, times)|
    ensures Frames(c, fps, times)[j] >= Frames(c, fps, times)[i] + (j - i - 1) * Period(fps)
    decreases |times|
  {
    var (next, wake) := Tick(c, fps, times[0]);
    if wake.Some? {
      Apart(next, fps, times[1..], i, j);
    } else if i > 0 {
      Apart(next, fps, times[1..], i - 1, j - 1);
    } else {
      NoneBeforeDue(next, fps, times[1..], times[0], j - 1);
    }
  }

  /** After a channel is enabled, frame `k` is never delivered before the time of the first
      frame and `k` periods. */
  lemma NeverEarly(c: ViChn, fps: nat, times: seq<nat>, k: nat)
    requires fps > 0 && Ordered(times) && c.nextDue.None? && k < |Frames(c, fps, times)|
    ensures Frames(c, fps, times)[0] == times[0]
    ensures Frames(c, fps, times)[k] >= times[0] + k * (1_000_000_000 / fps)
  {
    FirstFrame(c, fps, times);
    PeriodIs(fps);
    hide *;
    if k > 0 {
      var p := Period(fps);
      assert k * p == (k - 1) * p + p;
      NoneBeforeDue(Tick(c, fps, times[0]).0, fps, times[1..], times[0] + p, k - 1);
    }
  }

  /** Times are in nanoseconds. */
  lemma PeriodIs(fps: nat)
    requires fps > 0
    ensures Period(fps) == 1_000_000_000 / fps
  {
  }

  /** A channel without a due time delivers at once, and not again within a period. */
  lemma FirstFrame(c: ViChn, fps: nat, times: seq<nat>)
    requires fps > 0 && Ordered(times) && c.nextDue.None? && times != []
    ensures var next := Tick(c, fps, times[0]).0;
            && Frames(c, fps, times) == [times[0]] + Frames(next, fps, times[1..])
            && next.nextDue.Some? && next.nextDue.value >= times[0] + Period(fps) && Ordered(times[1..])
  {
    hide Period;
  }

  /** A window of time holds at most two frames more than whole periods. */
  lemma WindowHolds(c: ViChn, fps: nat, times: seq<nat>, i: nat, j: nat, window: nat)
    requires fps > 0 && 1_000_000_000 / fps > 0 && Ordered(times) && i <= j < |Frames(c, fps, times)|
    requires Frames(c, fps, times)[j] <= Frames(c, fps, times)[i] + window
    ensures j - i + 1 <= window / (1_000_000_000 / fps) + 2
  {
    PeriodIs(fps);
    hide Period;
    if i < j {
      Apart(c, fps, times, i, j);
      AtMost(j - i - 1, Period(fps), window);
    }
  }

  lemma AtMost(n: nat, p: nat, window: nat)
    requires p > 0 && n * p <= window
    ensures n <= window / p
  {
    DivMono(n * p, window, p);
    DivMod(n * p, p, n, 0);
  }

  /** The bound is met: after a stall two frames come at once. */
  lemma TwoAtOnce(c: ViChn)
    requires c.nextDue.None?
    ensures var late := 3 * (1_000_000_000 / 30); Frames(c, 30, [0, late, late]) == [0, late, late]
  {
    var p := Period(30);
    var c1 := Tick(c, 30, 0).0;
    var c2 := Tick(c1, 30, 3 * p).0;
    assert c1.nextDue == Some(p) && c2.nextDue == Some(3 * p);
    var t := [0, 3 * p, 3 * p];
    assert t[1..] == [3 * p, 3 * p] && t[1..][1..] == [3 * p];
    assert Frames(c2, 30, [3 * p]) == [3 * p] + Frames(Tick(c2, 30, 3 * p).0, 30, [3 * p][1..]);
    assert Frames(c1, 30, [3 * p, 3 * p]) == [3 * p] + Frames(c2, 30, [3 * p, 3 * p][1..]);
  }
}
