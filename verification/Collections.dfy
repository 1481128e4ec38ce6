// Shared shapes: options, lists without repetition, and insertion at a place.
module Collections {
  datatype Option<T> = None | Some(value: T)

  ghost predicate Distinct<T>(list: seq<T>) { forall i, j :: 0 <= i < j < |list| ==> list[i] != list[j] }

  function InsertAt<T>(list: seq<T>, p: nat, x: T): seq<T>
    requires p <= |list|
  {
    list[..p] + [x] + list[p..]
  }
}
