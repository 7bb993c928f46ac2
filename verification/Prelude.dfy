/** Datatypes shared by every part of the model. */
module Prelude {

  datatype Option<+T> = None | Some(value: T)

  datatype Result<+T, +E> = Ok(value: T) | Err(error: E)

  /** The value stored under `k`, if any. */
  function Lookup<K, V>(m: map<K, V>, k: K): (r: Option<V>)
  {
    if k in m then Some(m[k]) else None
  }

  predicate Distinct<T(==)>(xs: seq<T>)
  {
    forall i, j :: 0 <= i < j < |xs| ==> xs[i] != xs[j]
  }

  /** Some number is not in a finite set of numbers. */
  lemma {:induction false} Unused(used: set<nat>) returns (n: nat)
    ensures forall m: nat :: m in used ==> m < n
    decreases |used|
  {
    if used == {} {
      n := 0;
    } else {
      var m: nat :| m in used;
      var above := Unused(used - {m});
      n := if above <= m then m + 1 else above;
      forall x: nat | x in used ensures x < n {
        assert x == m || x in used - {m};
      }
    }
  }
}
