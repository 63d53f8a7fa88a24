/** The by-id operations every collection of the store shares: append a
    record, shallow-merge a patch into the records with a given id, and
    filter out the records with a given id. */
module Collection {

  /** One field of a `Partial<T>` patch: absent, or present with a value
      (for an optional field the value may itself be `None`). */
  datatype Field<T> = Keep | SetTo(value: T)

  function Over<T>(f: Field<T>, old_: T): (r: T)
    ensures f.Keep? ==> r == old_
  {
    match f
    case Keep => old_
    case SetTo(v) => v
  }

  /** Applying the same patch field twice is applying it once. */
  lemma OverIdempotent<T>(f: Field<T>, x: T)
    ensures Over(f, Over(f, x)) == Over(f, x)
  {
  }

  /** `xs.map(x => idOf(x) === id ? merge(x, patch) : x)`. */
  function Updated<T, P>(xs: seq<T>, id: string, idOf: T -> string, merge: (T, P) -> T, patch: P): (r: seq<T>)
    ensures |r| == |xs|
  {
    seq(|xs|, i requires 0 <= i < |xs| => if idOf(xs[i]) == id then merge(xs[i], patch) else xs[i])
  }

  /** `xs.filter(x => idOf(x) !== id)`. */
  function Removed<T>(xs: seq<T>, id: string, idOf: T -> string): (r: seq<T>)
    ensures |r| <= |xs|
  {
    if xs == [] then []
    else if idOf(xs[|xs| - 1]) == id then Removed(xs[..|xs| - 1], id, idOf)
    else Removed(xs[..|xs| - 1], id, idOf) + [xs[|xs| - 1]]
  }

  predicate HasId<T>(xs: seq<T>, id: string, idOf: T -> string) {
    exists i :: 0 <= i < |xs| && idOf(xs[i]) == id
  }

  /** Update changes exactly the records carrying the id, each by the merge,
      in place; every other record stays where it was. */
  lemma UpdatedPointwise<T, P>(xs: seq<T>, id: string, idOf: T -> string, merge: (T, P) -> T, patch: P, i: int)
    requires 0 <= i < |xs|
    ensures idOf(xs[i]) == id ==> Updated(xs, id, idOf, merge, patch)[i] == merge(xs[i], patch)
    ensures idOf(xs[i]) != id ==> Updated(xs, id, idOf, merge, patch)[i] == xs[i]
  {
  }

  /** Updating an id no record carries changes nothing. */
  lemma UpdatedAbsent<T, P>(xs: seq<T>, id: string, idOf: T -> string, merge: (T, P) -> T, patch: P)
    requires !HasId(xs, id, idOf)
    ensures Updated(xs, id, idOf, merge, patch) == xs
  {
  }

  /** After a delete no record carries the id; a record survives exactly when
      its id differs, and the survivors keep their order. */
  lemma {:induction false} RemovedMembership<T>(xs: seq<T>, id: string, idOf: T -> string, x: T)
    ensures x in Removed(xs, id, idOf) <==> x in xs && idOf(x) != id
    decreases |xs|
  {
    if xs != [] {
      RemovedMembership(xs[..|xs| - 1], id, idOf, x);
      assert xs == xs[..|xs| - 1] + [xs[|xs| - 1]];
    }
  }

  lemma {:induction false} RemovedAppend<T>(xs: seq<T>, ys: seq<T>, id: string, idOf: T -> string)
    ensures Removed(xs + ys, id, idOf) == Removed(xs, id, idOf) + Removed(ys, id, idOf)
    decreases |ys|
  {
    if ys == [] {
      assert xs + ys == xs;
    } else {
      assert (xs + ys)[..|xs + ys| - 1] == xs + ys[..|ys| - 1];
      RemovedAppend(xs, ys[..|ys| - 1], id, idOf);
    }
  }

  lemma {:induction false} RemovedAbsent<T>(xs: seq<T>, id: string, idOf: T -> string)
    requires !HasId(xs, id, idOf)
    ensures Removed(xs, id, idOf) == xs
    decreases |xs|
  {
    if xs != [] {
      RemovedAbsent(xs[..|xs| - 1], id, idOf);
    }
  }

  /** Adding a record under an id no record carries, then deleting that id,
      gives back the original collection. */
  lemma AddThenRemove<T>(xs: seq<T>, x: T, idOf: T -> string)
    requires !HasId(xs, idOf(x), idOf)
    ensures Removed(xs + [x], idOf(x), idOf) == xs
  {
    RemovedAppend(xs, [x], idOf(x), idOf);
    RemovedAbsent(xs, idOf(x), idOf);
    assert [x][..0] == [];
  }
}
