/** Failure-carrying datatypes and bounds shared by every module. */
module Basics {

  datatype Option<+T> = None | Some(value: T)

  datatype Result<+T, +E> = Ok(value: T) | Err(error: E)

  const U64_MAX: nat := 0xFFFF_FFFF_FFFF_FFFF

  function Min(a: nat, b: nat): nat { if a <= b then a else b }

  function One(b: bool): nat { if b then 1 else 0 }

  lemma SmallerSet<T>(a: set<T>, b: set<T>)
    requires a < b
    ensures |a| < |b|
  {
    assert b == a + (b - a);
    assert |b| == |a| + |b - a|;
  }

  /** Two sets that differ at most in one element. */
  lemma CountMember<T>(before: set<T>, after: set<T>, x: T)
    requires forall k :: k != x ==> (k in after <==> k in before)
    ensures |after| - One(x in after) == |before| - One(x in before)
  {
    assert after - {x} == before - {x};
    assert x in after ==> after == (after - {x}) + {x};
    assert x in before ==> before == (before - {x}) + {x};
    assert x !in after ==> after == after - {x};
    assert x !in before ==> before == before - {x};
  }
}
