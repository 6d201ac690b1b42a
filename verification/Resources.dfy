/** Identifiers that are handed out and taken back: `ResourceManager`. */
module Resources {
  import opened Bytes

  datatype Ids = Ids(available: set<nat>, busy: set<nat>)

  function Upto(n: nat): (s: set<nat>)
    ensures forall k: nat :: k in s <==> k < n
  {
    if n == 0 then {} else
    var last: nat := n - 1;
    Upto(last) + {last}
  }

  function NewIds(capacity: nat): Ids {
    Ids(Upto(capacity), {})
  }

  /** Each identifier below the capacity is either available or busy. */
  ghost predicate Partition(ids: Ids, capacity: nat) {
    ids.available + ids.busy == Upto(capacity) && ids.available !! ids.busy
  }

  predicate IsLeast(s: set<nat>, k: nat) {
    k in s && forall j :: j in s ==> k <= j
  }

  lemma {:induction false} HasLeast(s: set<nat>, k: nat) returns (least: nat)
    requires k in s
    ensures IsLeast(s, least)
    decreases k
  {
    least := k;
    if exists j :: j in s && j < k {
      var j :| j in s && j < k;
      least := HasLeast(s, j);
    }
  }

  lemma SomeLeast(s: set<nat>)
    requires s != {}
    ensures exists k :: IsLeast(s, k)
  {
    var any :| any in s;
    var k := HasLeast(s, any);
  }

  /** `pop_first` */
  ghost function Least(s: set<nat>): (k: nat)
    requires s != {}
    ensures IsLeast(s, k)
  {
    SomeLeast(s);
    var k :| IsLeast(s, k);
    k
  }

  ghost function Acquired(ids: Ids): Option<(nat, Ids)> {
    if ids.available == {} then None else
    var id := Least(ids.available);
    Some((id, Ids(ids.available - {id}, ids.busy + {id})))
  }

  function AcquiredSpecific(ids: Ids, id: nat): Option<Ids> {
    if id !in ids.available then None else Some(Ids(ids.available - {id}, ids.busy + {id}))
  }

  /** `None` when the identifier was not busy. */
  function Released(ids: Ids, id: nat): Option<Ids> {
    if id !in ids.busy then None else Some(Ids(ids.available + {id}, ids.busy - {id}))
  }

  /** Acquiring takes the least free identifier, exactly while there is one, and keeps the
      partition; releasing what was acquired is the way back. */
  lemma AcquireTakesLeast(ids: Ids, capacity: nat)
    requires Partition(ids, capacity)
    ensures Acquired(ids).None? <==> ids.busy == Upto(capacity)
    ensures Acquired(ids).Some? ==>
      var (id, r) := Acquired(ids).value;
      && id < capacity && id !in ids.busy && (forall j: nat :: j < id ==> j in ids.busy)
      && Partition(r, capacity) && r.busy == ids.busy + {id}
      && Released(r, id) == Some(ids)
  {
    if ids.available != {} {
      var (id, r) := Acquired(ids).value;
      assert id in ids.available + ids.busy;
      assert r.available + r.busy == ids.available + ids.busy;
      forall j: nat | j < id
        ensures j in ids.busy
      {
        assert j in ids.available + ids.busy;
      }
      assert r.available + {id} == ids.available && r.busy - {id} == ids.busy;
    }
  }

  lemma AcquireSpecificTakes(ids: Ids, capacity: nat, id: nat)
    requires Partition(ids, capacity)
    ensures AcquiredSpecific(ids, id).Some? <==> id < capacity && id !in ids.busy
    ensures AcquiredSpecific(ids, id).Some? ==>
      var r := AcquiredSpecific(ids, id).value;
      Partition(r, capacity) && r.busy == ids.busy + {id} && Released(r, id) == Some(ids)
  {
    assert id in ids.available + ids.busy <==> id < capacity;
    if id in ids.available {
      var r := AcquiredSpecific(ids, id).value;
      assert r.available + r.busy == ids.available + ids.busy;
      assert r.available + {id} == ids.available && r.busy - {id} == ids.busy;
    }
  }

  lemma ReleaseFrees(ids: Ids, capacity: nat, id: nat)
    requires Partition(ids, capacity)
    ensures Released(ids, id).Some? <==> id in ids.busy
    ensures Released(ids, id).Some? ==>
      Partition(Released(ids, id).value, capacity) && Released(ids, id).value.busy == ids.busy - {id}
  {
    if id in ids.busy {
      var r := Released(ids, id).value;
      assert r.available + r.busy == ids.available + ids.busy;
    }
  }

  /** The manager as an object. Its lock makes every method one step. */
  class ResourceManager {
    var available: set<nat>
    var busy: set<nat>

    ghost function Contents(): Ids
      reads this
    {
      Ids(available, busy)
    }

    constructor (capacity: nat)
      ensures Contents() == NewIds(capacity)
      ensures Partition(Contents(), capacity)
    {
      var ids: set<nat> := {};
      for i := 0 to capacity
        invariant ids == Upto(i)
      {
        ids := ids + {i};
      }
      available, busy := ids, {};
      new;
      assert available == Upto(capacity);
      assert available + busy == available;
    }

    method Acquire() returns (r: Option<nat>)
      modifies this
      ensures match Acquired(old(Contents()))
              case None => r == None && Contents() == old(Contents())
              case Some((id, ids)) => r == Some(id) && Contents() == ids
    {
      if available == {} {
        return None;
      }
      SomeLeast(available);
      var id :| id in available && IsLeast(available, id);
      LeastIsOne(available, id);
      available, busy := available - {id}, busy + {id};
      r := Some(id);
    }

    method AcquireSpecific(id: nat) returns (ok: bool)
      modifies this
      ensures ok == AcquiredSpecific(old(Contents()), id).Some?
      ensures Contents() == if ok then AcquiredSpecific(old(Contents()), id).value else old(Contents())
    {
      ok := id in available;
      if ok {
        available, busy := available - {id}, busy + {id};
      }
    }

    method Release(id: nat) returns (ok: bool)
      modifies this
      ensures ok == Released(old(Contents()), id).Some?
      ensures Contents() == if ok then Released(old(Contents()), id).value else old(Contents())
    {
      ok := id in busy;
      if ok {
        available, busy := available + {id}, busy - {id};
      }
    }
  }

  lemma LeastIsOne(s: set<nat>, k: nat)
    requires IsLeast(s, k)
    ensures s != {} && Least(s) == k
  {
    assert Least(s) in s;
  }
}
