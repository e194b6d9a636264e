/** Lists in which no key occurs twice. */
module Listings {
  predicate Unique<T, K(==)>(es: seq<T>, key: T -> K) {
    forall i, j | 0 <= i < j < |es| :: key(es[i]) != key(es[j])
  }

  predicate Apart<T, K(==)>(a: seq<T>, b: seq<T>, key: T -> K) {
    forall i, j | 0 <= i < |a| && 0 <= j < |b| :: key(a[i]) != key(b[j])
  }

  lemma {:induction false} UniqueAppend<T, K>(a: seq<T>, b: seq<T>, key: T -> K)
    requires Unique(a, key) && Unique(b, key) && Apart(a, b, key)
    ensures Unique(a + b, key)
  {
    var c := a + b;
    forall i, j | 0 <= i < j < |c| ensures key(c[i]) != key(c[j]) {
      if j < |a| {
      } else if i < |a| {
        assert c[j] == b[j - |a|];
      }
    }
  }

  /** A part of such a list is one as well. */
  lemma {:induction false} UniqueRest<T, K>(a: seq<T>, b: seq<T>, key: T -> K)
    requires Unique(a + b, key)
    ensures Unique(b, key)
  {
    forall i, j | 0 <= i < j < |b| ensures key(b[i]) != key(b[j]) {
      assert (a + b)[|a| + i] == b[i] && (a + b)[|a| + j] == b[j];
    }
  }
}
