/** How often something occurs in a log. */
module Counting {
  function CountIf<T>(log: seq<T>, p: T -> bool): nat {
    if log == [] then 0 else CountIf(log[..|log| - 1], p) + (if p(log[|log| - 1]) then 1 else 0)
  }

  function Count<T(==)>(log: seq<T>, e: T): nat { CountIf(log, x => x == e) }

  lemma {:induction false} CountIfSnoc<T>(log: seq<T>, d: T, p: T -> bool)
    ensures CountIf(log + [d], p) == CountIf(log, p) + (if p(d) then 1 else 0)
  {
    assert (log + [d])[..|log + [d]| - 1] == log;
  }

  lemma {:induction false} CountSnoc<T>(log: seq<T>, d: T, e: T)
    ensures Count(log + [d], e) == Count(log, e) + (if d == e then 1 else 0)
  {
    CountIfSnoc(log, d, x => x == e);
  }

  /** Each place where it occurs counts. */
  lemma {:induction false} CountIfTwo<T>(log: seq<T>, p: T -> bool, i: nat, j: nat)
    requires i <= j < |log| && p(log[i]) && p(log[j])
    ensures CountIf(log, p) >= if i < j then 2 else 1
  {
    var n := |log| - 1;
    if j < n {
      CountIfTwo(log[..n], p, i, j);
    } else if i < j {
      CountIfTwo(log[..n], p, i, i);
    }
  }

  lemma {:induction false} CountIfSome<T>(log: seq<T>, p: T -> bool)
    requires CountIf(log, p) > 0
    ensures exists i | 0 <= i < |log| :: p(log[i])
  {
    var n := |log| - 1;
    if !p(log[n]) {
      CountIfSome(log[..n], p);
      var i :| 0 <= i < n && p(log[..n][i]);
      assert p(log[i]);
    }
  }
}
