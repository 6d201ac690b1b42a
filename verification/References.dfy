/** The owned handles of the wrapper as lists of counted references. */
module References {
  import opened Bytes
  import opened Mpi

  /** An object that owned handles share. What it will tell the library when it is dropped
      is part of its name. */
  datatype Ref =
    | Sys
    | Camera(dev: int)
    | ViChannel(pipe: int, chn: int)
    | VencChannel(id: int)
    | Group(id: int)
    | VpssChannel(grp: int, chn: int)
    | Binding(src: Chn, dst: Chn)
    | MemPool(pool: nat)
    | Buffer(mb: Handle, pool: nat)
    | VideoFrame(mb: Handle)
    | Stream(mb: Handle, id: int)


  function Source(c: Chn): set<Ref> {
    match c.mod
    case Vi => {ViChannel(c.dev, c.chn)}
    case Vpss => {VpssChannel(c.dev, c.chn)}
    case _ => {}
  }

  function Sink(c: Chn): set<Ref> {
    match c.mod
    case Vpss => {Group(c.dev)}
    case Venc => {VencChannel(c.chn)}
    case _ => {}
  }

  /** The objects that must outlive an object. */
  function Needs(r: Ref): set<Ref> {
    match r
    case Sys => {}
    case Camera(_) => {Sys}
    case ViChannel(pipe, _) => {Camera(pipe), Sys}
    case VencChannel(_) => {Sys}
    case Group(_) => {Sys}
    case VpssChannel(g, _) => {Group(g), Sys}
    case Binding(src, dst) => Source(src) + Sink(dst) + {Sys}
    case MemPool(_) => {Sys}
    case Buffer(_, pool) => {MemPool(pool), Sys}
    case VideoFrame(_) => {Sys}
    case Stream(_, v) => {VencChannel(v), Sys}
  }

  /** The fields of a handle that are still to be dropped, in the order they are dropped in;
      each comes before all that it needs. */
  ghost predicate InDropOrder(h: seq<Ref>) {
    h == [] || ((forall n :: n in Needs(h[0]) ==> n in h[1..]) && InDropOrder(h[1..]))
  }

  ghost predicate AllInDropOrder(handles: seq<seq<Ref>>) {
    forall i :: 0 <= i < |handles| ==> InDropOrder(handles[i])
  }

  ghost function Held(handles: seq<seq<Ref>>): multiset<Ref> {
    multiset(Flat(handles))
  }

  /** The strong counts are the numbers of references held. */
  ghost predicate Counts(held: multiset<Ref>, strong: map<Ref, nat>) {
    forall r :: (r in strong <==> r in held) && (r in strong ==> strong[r] == held[r])
  }

  ghost predicate Counted(handles: seq<seq<Ref>>, strong: map<Ref, nat>) {
    Counts(Held(handles), strong)
  }

  // ---------------------------------------------------------------- creating and dropping references

  /** One more reference to each object of a list; objects that are new get their first. */
  function Gain(strong: map<Ref, nat>, h: seq<Ref>): map<Ref, nat> {
    if h == [] then strong else
    var r := h[|h| - 1];
    var m := Gain(strong, h[..|h| - 1]);
    m[r := if r in m then m[r] + 1 else 1]
  }

  /** One reference less; with the last one the object is gone. */
  function Lose(strong: map<Ref, nat>, r: Ref): map<Ref, nat>
    requires r in strong
  {
    if strong[r] <= 1 then strong - {r} else strong[r := strong[r] - 1]
  }

  lemma GainOne(held: multiset<Ref>, strong: map<Ref, nat>, r: Ref)
    requires Counts(held, strong)
    ensures Counts(held + multiset{r}, strong[r := if r in strong then strong[r] + 1 else 1])
  {
  }

  lemma {:induction false} GainCounts(held: multiset<Ref>, strong: map<Ref, nat>, h: seq<Ref>)
    requires Counts(held, strong)
    ensures Counts(held + multiset(h), Gain(strong, h))
    ensures forall r :: r in Gain(strong, h) <==> r in strong || r in h
    decreases |h|
  {
    if h == [] {
      assert held + multiset(h) == held;
    } else {
      var before, r := h[..|h| - 1], h[|h| - 1];
      assert h == before + [r];
      hide Counts;
      GainCounts(held, strong, before);
      GainOne(held + multiset(before), Gain(strong, before), r);
      assert held + multiset(h) == held + multiset(before) + multiset{r};
    }
  }

  /** A new handle counts its references, */
  lemma GainCounted(handles: seq<seq<Ref>>, strong: map<Ref, nat>, h: seq<Ref>)
    requires Counted(handles, strong)
    ensures Counted(handles + [h], Gain(strong, h))
    ensures forall r :: r in Gain(strong, h) <==> r in strong || r in h
  {
    hide Counts;
    GainCounts(Held(handles), strong, h);
    FlatAppend(handles, [h]);
    FlatOne(h);
    assert Held(handles + [h]) == Held(handles) + multiset(h);
  }

  lemma HeldWithout(handles: seq<seq<Ref>>, i: nat, r: Ref, rest: seq<Ref>)
    requires i < |handles| && handles[i] == [r] + rest
    ensures r in Held(handles) && Held(handles[i := rest]) == Held(handles) - multiset{r}
  {
    var (a, b) := (handles[..i], handles[i + 1..]);
    assert handles == a + ([handles[i]] + b) && handles[i := rest] == a + ([rest] + b);
    FlatAppend(a, [handles[i]] + b);
    FlatAppend([handles[i]], b);
    FlatAppend(a, [rest] + b);
    FlatAppend([rest], b);
    FlatOne(handles[i]);
    FlatOne(rest);
    assert Held(handles) == multiset(Flat(a)) + (multiset{r} + multiset(rest) + multiset(Flat(b)));
    assert Held(handles[i := rest]) == multiset(Flat(a)) + (multiset(rest) + multiset(Flat(b)));
  }

  lemma LoseOne(held: multiset<Ref>, strong: map<Ref, nat>, r: Ref)
    requires Counts(held, strong) && r in held
    ensures r in strong && strong[r] >= 1 && Counts(held - multiset{r}, Lose(strong, r))
    ensures Lose(strong, r).Keys == if strong[r] == 1 then strong.Keys - {r} else strong.Keys
  {
  }

  /** and dropping a field gives its reference back. */
  lemma LoseCounted(handles: seq<seq<Ref>>, strong: map<Ref, nat>, i: nat, r: Ref, rest: seq<Ref>)
    requires Counted(handles, strong) && i < |handles| && handles[i] == [r] + rest
    ensures r in strong && strong[r] >= 1 && Counted(handles[i := rest], Lose(strong, r))
    ensures Lose(strong, r).Keys == if strong[r] == 1 then strong.Keys - {r} else strong.Keys
  {
    HeldWithout(handles, i, r, rest);
    hide Held, Counts, Lose;
    LoseOne(Held(handles), strong, r);
  }

  lemma DropOrderTail(handles: seq<seq<Ref>>, i: nat, r: Ref, rest: seq<Ref>)
    requires AllInDropOrder(handles) && i < |handles| && handles[i] == [r] + rest
    ensures AllInDropOrder(handles[i := rest])
  {
    assert handles[i][1..] == rest;
  }

  // ---------------------------------------------------------------- what is needed is alive

  /** Everything that a live object needs is alive. */
  ghost predicate NeedsAlive(live: set<Ref>) {
    forall r, n :: r in live && n in Needs(r) ==> n in live
  }

  lemma {:induction false} NeededInHandle(h: seq<Ref>, r: Ref, n: Ref)
    requires InDropOrder(h) && r in h && n in Needs(r)
    ensures n in h
    decreases |h|
  {
    hide Needs;
    if r != h[0] {
      NeededInHandle(h[1..], r, n);
    }
  }

  lemma {:induction false} InFlat(handles: seq<seq<Ref>>, r: Ref) returns (i: nat)
    requires r in Flat(handles)
    ensures i < |handles| && r in handles[i]
  {
    if r in handles[0] {
      i := 0;
    } else {
      i := InFlat(handles[1..], r);
      i := i + 1;
    }
  }

  lemma {:induction false} FlatHas(handles: seq<seq<Ref>>, i: nat, r: Ref)
    requires i < |handles| && r in handles[i]
    ensures r in Flat(handles)
  {
    if i > 0 {
      FlatHas(handles[1..], i - 1, r);
    }
  }

  /** As long as every handle drops its fields in order, whatever an object needs is held
      by the same handle. */
  lemma HeldNeedsAlive(handles: seq<seq<Ref>>, strong: map<Ref, nat>)
    requires Counted(handles, strong) && AllInDropOrder(handles)
    ensures NeedsAlive(strong.Keys)
  {
    hide Needs;
    forall r, n | r in strong.Keys && n in Needs(r)
      ensures n in strong.Keys
    {
      assert r in Held(handles);
      var i := InFlat(handles, r);
      NeededInHandle(handles[i], r, n);
      FlatHas(handles, i, n);
      assert n in Held(handles);
    }
  }
}
