/** Types shared by every protocol model. */
module Common {

  /** A UUID. Only equality, order and freshness of ids matter to the protocols. */
  type Id = nat

  /** An instant in milliseconds. */
  type Time = int

  datatype Option<+T> = None | Some(value: T)

  datatype Result<+T, +E> = Ok(value: T) | Err(error: E)

  /** How a call that changes remote state ends, as the caller sees it. */
  datatype Outcome =
    | Acked    // applied, and the caller was told so
    | Unacked  // applied, but the caller saw an error
    | Lost     // not applied, and the caller saw an error

  function Min(a: int, b: int): int {
    if a <= b then a else b
  }

  lemma SubsetCardinality<T>(a: set<T>, b: set<T>)
    requires a <= b
    ensures |a| <= |b|
    ensures |a| == |b| ==> a == b
  {
    assert b == a + (b - a);
    assert |b| == |a| + |b - a|;
  }

  /** What every step keeps, once true, stays true. */
  lemma {:induction false} Persists(holds: seq<bool>, m: nat, n: nat)
    requires m <= n < |holds| && holds[m]
    requires forall i :: 0 < i < |holds| && holds[i - 1] ==> holds[i]
    ensures holds[n]
  {
    if m < n {
      Persists(holds, m, n - 1);
      assert holds[n - 1];
    }
  }

  lemma {:induction false} SomeBound(used: set<nat>) returns (b: nat)
    ensures forall p :: p in used ==> p < b
    decreases |used|
  {
    if used == {} {
      b := 0;
    } else {
      var p :| p in used;
      b := SomeBound(used - {p});
      b := if b <= p then p + 1 else b;
      assert forall q :: q in used ==> q == p || q in used - {p};
    }
  }
}
