/** Small value types shared by the other modules. */
module Wrappers {
  type Id = nat        // a UUID, the hash of a token, or a client-chosen key
  type Instant = int   // seconds on the one clock

  datatype Option<+T> = None | Some(value: T)

  datatype Result<+T, +E> = Ok(value: T) | Err(error: E)

  /** One, or none. */
  function Once(b: bool): nat {
    if b then 1 else 0
  }
}

/** Cardinality facts about finite sets. */
module SetSizes {
  lemma {:induction false} SubsetSize<T>(a: set<T>, b: set<T>)
    requires a <= b
    ensures |a| <= |b|
    ensures |a| == |b| ==> a == b
    decreases |a|
  {
    if a != {} {
      var x :| x in a;
      SubsetSize(a - {x}, b - {x});
      assert a == (a - {x}) + {x} && b == (b - {x}) + {x};
    }
  }
}
