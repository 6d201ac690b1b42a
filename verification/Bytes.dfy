/** Bytes, the usual failure datatypes and the concatenation of a list of byte strings. */
module Bytes {

  /** A `u8`. Bit operations of the source are written with `/` and `%`. */
  newtype byte = b: int | 0 <= b < 256

  datatype Option<+T> = None | Some(value: T)

  datatype Result<+T, +E> = Ok(value: T) | Err(error: E)

  /** `[a, b, c].concat()` */
  function Flat<T>(parts: seq<seq<T>>): seq<T> {
    if parts == [] then [] else parts[0] + Flat(parts[1..])
  }

  lemma {:induction false} FlatAppend<T>(a: seq<seq<T>>, b: seq<seq<T>>)
    ensures Flat(a + b) == Flat(a) + Flat(b)
  {
    if a == [] {
      assert a + b == b;
    } else {
      assert (a + b)[1..] == a[1..] + b;
      FlatAppend(a[1..], b);
    }
  }

  lemma FlatOne<T>(a: seq<T>)
    ensures Flat([a]) == a
  {
    assert [a][1..] == [];
    assert Flat([a][1..]) == [];
  }

  /** Concatenating twice is concatenating the pieces of all the pieces. */
  lemma {:induction false} FlatFlat<T>(parts: seq<seq<seq<T>>>, flats: seq<seq<T>>)
    requires |flats| == |parts|
    requires forall i :: 0 <= i < |parts| ==> flats[i] == Flat(parts[i])
    ensures Flat(Flat(parts)) == Flat(flats)
  {
    if parts != [] {
      FlatFlat(parts[1..], flats[1..]);
      FlatAppend(parts[0], Flat(parts[1..]));
    }
  }
}
