/** One VPSS channel over a whole run: which of the group's input frames it delivers. */
module Fanout {
  import opened Bytes
  import opened Images
  import opened Mpi
  import opened Flow
  import opened FlowLaws
  import M = Machine

  /** What happens to a channel: its group takes in a frame, or it gives one out. */
  datatype ChnEvent = In(image: Image) | Out(image: Image)

  ghost predicate GoodLog(log: seq<ChnEvent>) {
    forall i :: 0 <= i < |log| ==> GoodImage(log[i].image)
  }

  // ---------------------------------------------------------------- a channel by itself

  function PlayEvent(c: VpssChn, e: ChnEvent): (r: VpssChn)
    requires GoodChn(c) && GoodImage(e.image)
    ensures GoodChn(r)
  {
    match e
    case In(img) => Fed(c, img)
    case Out(_) => if c.queue == [] then c else c.(number := c.number + 1, queue := c.queue[1..])
  }

  function PlayChn(c: VpssChn, log: seq<ChnEvent>): (r: VpssChn)
    requires GoodChn(c) && GoodLog(log)
    ensures GoodChn(r)
    decreases |log|
  {
    if log == [] then c else PlayEvent(PlayChn(c, log[..|log| - 1]), log[|log| - 1])
  }

  /** Every frame given out is the head of the queue at that time. */
  ghost predicate Heads(c: VpssChn, log: seq<ChnEvent>)
    requires GoodChn(c) && GoodLog(log)
  {
    forall i :: 0 <= i < |log| && log[i].Out? ==>
      var q := PlayChn(c, log[..i]).queue; q != [] && q[0] == log[i].image
  }

  // ---------------------------------------------------------------- which frames come out

  /** The input frames of a log, in order. */
  function Ins(log: seq<ChnEvent>): (imgs: seq<Image>)
    requires GoodLog(log)
    ensures |imgs| <= |log| && GoodImages(imgs)
    decreases |log|
  {
    if log == [] then [] else
    var e := log[|log| - 1];
    var imgs := Ins(log[..|log| - 1]);
    if e.In? then imgs + [e.image] else imgs
  }

  /** Number of input frames that have come out or have been overtaken by one that has. */
  function Settled(log: seq<ChnEvent>, capacity: nat): (n: int)
    requires GoodLog(log)
    decreases |log|, 0
  {
    if log == [] then 0
    else if log[|log| - 1].In? then Settled(log[..|log| - 1], capacity)
    else NextOut(log[..|log| - 1], capacity) + 1
  }

  /** The number of the input frame that comes out next: the oldest that has not been
      settled, but of the last `capacity` ones. */
  function NextOut(log: seq<ChnEvent>, capacity: nat): int
    requires GoodLog(log)
    decreases |log|, 1
  {
    var n := Settled(log, capacity);
    if n >= |Ins(log)| - capacity then n else |Ins(log)| - capacity
  }

  function Outs(c: VpssChn, imgs: seq<Image>): (outs: seq<Image>)
    requires GoodChn(c) && GoodImages(imgs)
    ensures |outs| == |imgs|
    ensures forall i :: 0 <= i < |imgs| ==> outs[i] == OutputOf(c, imgs[i])
  {
    seq(|imgs|, i requires 0 <= i < |imgs| => OutputOf(c, imgs[i]))
  }

  /** What is known of a channel after a log: its queue is the frames that are still to
      come out, in order. */
  ghost predicate Window(c: VpssChn, log: seq<ChnEvent>)
    requires GoodChn(c) && GoodLog(log)
  {
    var (d, next, ins) := (PlayChn(c, log), NextOut(log, Capacity(c)), Ins(log));
    && SameConfig(c, d)
    && 0 <= next <= |ins|
    && d.queue == Outs(c, ins[next..])
  }

  lemma {:induction false} QueueIsWindow(c: VpssChn, log: seq<ChnEvent>)
    requires GoodChn(c) && c.enabled && c.queue == [] && GoodLog(log) && Heads(c, log)
    ensures Window(c, log)
    decreases |log|
  {
    if log == [] {
      assert PlayChn(c, log) == c;
      assert NextOut(log, Capacity(c)) == 0;
      assert Outs(c, Ins(log)[NextOut(log, Capacity(c))..]) == [];
    } else {
      var n := |log| - 1;
      var before := log[..n];
      assert forall i :: 0 <= i < n ==> before[..i] == log[..i];
      hide GoodImage, OutputOf, Fed;
      QueueIsWindow(c, before);
      if log[n].In? {
        WindowIn(c, log, before);
      } else {
        WindowOut(c, log, before);
      }
    }
  }

  lemma WindowIn(c: VpssChn, log: seq<ChnEvent>, before: seq<ChnEvent>)
    requires GoodChn(c) && c.enabled && GoodLog(log) && log != [] && before == log[..|log| - 1]
    requires log[|log| - 1].In? && Window(c, before)
    ensures Window(c, log)
  {
    var img := log[|log| - 1].image;
    var d, r := PlayChn(c, before), PlayChn(c, log);
    var ins, next, cap := Ins(before), NextOut(before, Capacity(c)), Capacity(c);
    hide GoodImage, OutputOf;
    assert r == Fed(d, img);
    NextAfterIn(log, before, cap);
    hide PlayChn, Ins, NextOut, Settled, Push, Outs;
    SameOutput(c, d, img);
    PushWindow(c, ins, img, next, cap, NextOut(log, cap));
  }

  lemma NextAfterIn(log: seq<ChnEvent>, before: seq<ChnEvent>, capacity: nat)
    requires GoodLog(log) && log != [] && before == log[..|log| - 1] && log[|log| - 1].In? && capacity > 0
    requires GoodLog(before)
    ensures Ins(log) == Ins(before) + [log[|log| - 1].image]
    ensures |Ins(before)| - NextOut(before, capacity) <= capacity
    ensures NextOut(log, capacity)
         == NextOut(before, capacity) + if |Ins(before)| - NextOut(before, capacity) < capacity then 0 else 1
  {
    hide GoodImage;
  }

  lemma SameOutput(c: VpssChn, d: VpssChn, img: Image)
    requires GoodChn(c) && GoodChn(d) && SameConfig(c, d) && GoodImage(img)
    ensures OutputOf(d, img) == OutputOf(c, img)
  {
    hide GoodImage, Convert, Scaling.Scale;
  }

  lemma PushWindow(c: VpssChn, ins: seq<Image>, img: Image, next: int, cap: nat, now: int)
    requires GoodChn(c) && GoodImages(ins) && GoodImage(img) && cap > 0
    requires 0 <= next <= |ins| && |ins| - next <= cap
    requires now == if |ins| - next < cap then next else next + 1
    ensures GoodImages(ins + [img]) && now <= |ins| + 1
    ensures Push(Outs(c, ins[next..]), cap, OutputOf(c, img)) == Outs(c, (ins + [img])[now..])
  {
    hide GoodImage, OutputOf;
  }

  lemma WindowOut(c: VpssChn, log: seq<ChnEvent>, before: seq<ChnEvent>)
    requires GoodChn(c) && GoodLog(log) && log != [] && before == log[..|log| - 1]
    requires log[|log| - 1].Out? && Window(c, before) && PlayChn(c, before).queue != []
    ensures Window(c, log)
  {
    hide GoodImage, OutputOf;
    var ins, next := Ins(before), NextOut(before, Capacity(c));
    assert Ins(log) == ins && NextOut(log, Capacity(c)) == next + 1;
    assert Outs(c, ins[next..])[1..] == Outs(c, ins[next + 1..]);
  }

  /** A frame given out is made from the input frame that is next, of those taken in so far. */
  lemma DeliveryIsNext(c: VpssChn, log: seq<ChnEvent>, i: nat)
    requires GoodChn(c) && c.enabled && c.queue == [] && GoodLog(log) && Heads(c, log)
    requires i < |log| && log[i].Out?
    ensures GoodLog(log[..i]) && 0 <= NextOut(log[..i], Capacity(c)) < |Ins(log[..i])|
    ensures log[i].image == OutputOf(c, Ins(log[..i])[NextOut(log[..i], Capacity(c))])
  {
    var before := log[..i];
    assert forall j :: 0 <= j < i ==> before[..j] == log[..j];
    hide GoodImage, OutputOf;
    QueueIsWindow(c, before);
  }

  lemma {:induction false} InsGrow(log: seq<ChnEvent>, i: nat)
    requires GoodLog(log) && i <= |log|
    ensures GoodLog(log[..i]) && Ins(log[..i]) <= Ins(log)
    decreases |log|
  {
    if i < |log| {
      var before := log[..|log| - 1];
      assert before[..i] == log[..i];
      InsGrow(before, i);
    } else {
      assert log[..i] == log;
    }
  }

  lemma {:induction false} SettledGrows(log: seq<ChnEvent>, i: nat, capacity: nat)
    requires GoodLog(log) && i < |log| && log[i].Out?
    ensures GoodLog(log[..i]) && Settled(log, capacity) > NextOut(log[..i], capacity)
    decreases |log|
  {
    var before := log[..|log| - 1];
    if i < |log| - 1 {
      assert before[..i] == log[..i];
      SettledGrows(before, i, capacity);
    }
  }

  /** Later deliveries are of later input frames: none is delivered twice or out of order. */
  lemma DeliveriesAdvance(log: seq<ChnEvent>, i: nat, j: nat, capacity: nat)
    requires GoodLog(log) && i < j < |log| && log[i].Out? && log[j].Out?
    ensures GoodLog(log[..i]) && GoodLog(log[..j])
    ensures NextOut(log[..i], capacity) < NextOut(log[..j], capacity)
  {
    assert log[..j][..i] == log[..i];
    SettledGrows(log[..j], i, capacity);
  }
}
