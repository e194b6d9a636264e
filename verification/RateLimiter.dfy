/** The mobile API's sliding-window rate limiter.

    Times are integers (nanoseconds); a call receives the clock reading the source takes
    under its mutex, so a run of the limiter is a sequence of calls. */
module RateLimiter {

  type Hits = map<string, seq<int>>

  datatype Call = Call(key: string, time: int)

  // ---------------------------------------------------------------- one call, on values

  /** The hits of `s` that lie strictly after `cutoff`, in order. */
  function After(s: seq<int>, cutoff: int): (r: seq<int>)
    ensures |r| <= |s|
  {
    if s == [] then []
    else
      var rest := After(s[..|s| - 1], cutoff);
      if s[|s| - 1] > cutoff then rest + [s[|s| - 1]] else rest
  }

  function Stored(hits: Hits, key: string): seq<int> {
    if key in hits then hits[key] else []
  }

  function Live(window: int, hits: Hits, call: Call): seq<int> {
    After(Stored(hits, call.key), call.time - window)
  }

  predicate Accepts(limit: int, window: int, hits: Hits, call: Call) {
    |Live(window, hits, call)| < limit
  }

  function Step(limit: int, window: int, hits: Hits, call: Call): Hits {
    var live := Live(window, hits, call);
    hits[call.key := if Accepts(limit, window, hits, call) then live + [call.time] else live]
  }

  // ---------------------------------------------------------------- the limiter itself

  /** A slice: the first `len` elements of a backing array; the array's length is the capacity. */
  datatype Slice = Slice(data: array<int>, len: nat)

  class MobileRateLimiter {
    const limit: int
    const window: int
    var hits: map<string, Slice>
    ghost var contents: Hits                  // the lists the slices stand for
    ghost var owner: map<array<int>, string>  // no backing array serves two keys

    /** Every key but `except` has its own array, holding its contents. */
    ghost predicate ValidBut(except: set<string>)
      reads this, owner.Keys
    {
      && contents.Keys == hits.Keys
      && forall k | k in hits && k !in except ::
           && hits[k].data in owner && owner[hits[k].data] == k
           && hits[k].len <= hits[k].data.Length
           && contents[k] == hits[k].data[..hits[k].len]
    }

    ghost predicate Valid()
      reads this, owner.Keys
    {
      ValidBut({})
    }

    constructor (limit: int, window: int)
      ensures Valid() && contents == map[]
      ensures this.limit == limit && this.window == window
    {
      this.limit, this.window := limit, window;
      hits, contents, owner := map[], map[], map[];
    }

    /** Compacts the slice in place: reads run ahead of writes over the same backing array. */
    static method Compact(existing: Slice, cutoff: int) returns (kept: Slice)
      requires existing.len <= existing.data.Length
      modifies existing.data
      ensures kept.data == existing.data && kept.len <= existing.len
      ensures kept.data[..kept.len] == After(old(existing.data[..existing.len]), cutoff)
    {
      var data := existing.data;
      ghost var before := data[..existing.len];
      var n := 0;
      for i := 0 to existing.len
        invariant n <= i
        invariant data[..n] == After(before[..i], cutoff)
        invariant forall j | i <= j < existing.len :: data[j] == before[j]  // nothing unread is overwritten
      {
        assert before[..i + 1][..i] == before[..i];
        if data[i] > cutoff {
          data[n] := data[i];
          n := n + 1;
        }
      }
      assert before[..existing.len] == before;
      kept := Slice(data, n);
    }

    /** Go's `append`: in place while there is capacity, otherwise into a larger copy. */
    static method Append(s: Slice, x: int) returns (r: Slice)
      requires s.len <= s.data.Length
      modifies s.data
      ensures r.len <= r.data.Length
      ensures r.data == s.data || fresh(r.data)
      ensures r.data[..r.len] == old(s.data[..s.len]) + [x]
    {
      if s.len < s.data.Length {
        s.data[s.len] := x;
        r := Slice(s.data, s.len + 1);
      } else {
        var data := new int[2 * s.len + 1];
        for i := 0 to s.len
          invariant data[..i] == s.data[..i]
          invariant s.data[..] == old(s.data[..])
        {
          data[i] := s.data[i];
        }
        data[s.len] := x;
        r := Slice(data, s.len + 1);
      }
    }

    method Allow(key: string, current: int) returns (ok: bool)
      requires Valid()
      modifies this`hits, this`contents, this`owner, if key in hits then {hits[key].data} else {}
      ensures Valid()
      ensures ok == Accepts(limit, window, old(contents), Call(key, current))
      ensures contents == Step(limit, window, old(contents), Call(key, current))
      ensures forall a | a in owner :: a in old(owner) || fresh(a)
    {
      var kept := Open(key);
      assert ValidBut({key});
      kept := Compact(kept, current - window);
      assert kept.data[..kept.len] == Live(window, contents, Call(key, current));
      ok := kept.len < limit;
      if ok {
        kept := Append(kept, current);
      }
      Put(key, kept);
    }

    /** Stores a slice under `key`; the slice's array serves no other key. */
    method Put(key: string, s: Slice)
      requires ValidBut({key}) && s.len <= s.data.Length
      requires s.data in owner ==> owner[s.data] == key
      modifies this`hits, this`contents, this`owner
      ensures Valid()
      ensures contents == old(contents)[key := s.data[..s.len]]
      ensures owner == old(owner)[s.data := key]
    {
      contents := contents[key := s.data[..s.len]];
      hits := hits[key := s];
      owner := owner[s.data := key];
    }

    /** The slice stored for `key`; a key never seen has an empty one of its own. */
    method Open(key: string) returns (s: Slice)
      requires Valid()
      ensures s.len <= s.data.Length
      ensures s.data[..s.len] == Stored(contents, key)
      ensures if key in hits then s == hits[key] else fresh(s.data) && s.data !in owner
    {
      if key in hits {
        s := hits[key];
      } else {
        var empty := new int[0];
        s := Slice(empty, 0);
      }
    }
  }

  // ---------------------------------------------------------------- facts about After

  lemma {:induction false} AfterAppend(s: seq<int>, x: int, cutoff: int)
    ensures After(s + [x], cutoff) == if x > cutoff then After(s, cutoff) + [x] else After(s, cutoff)
  {
    assert (s + [x])[..|s|] == s;
  }

  /** Pruning with an earlier cutoff first changes nothing. */
  lemma {:induction false} AfterAfter(s: seq<int>, early: int, late: int)
    requires early <= late
    ensures After(After(s, early), late) == After(s, late)
  {
    if s != [] {
      var n := |s| - 1;
      AfterAfter(s[..n], early, late);
      AfterAppend(After(s[..n], early), s[n], late);
    }
  }

  // ---------------------------------------------------------------- whole runs

  /** A run: the calls made so far, the latest outermost.  A statement about the last call of
      an arbitrary run is a statement about every call of every run. */
  datatype Run = Start | Then(before: Run, call: Call)

  predicate NotAfter(run: Run, now: int) {
    run.Start? || run.call.time <= now
  }

  /** The clock readings never decrease. */
  predicate Monotone(run: Run) {
    run.Start? || (Monotone(run.before) && NotAfter(run.before, run.call.time))
  }

  /** The limiter's state after a run. */
  function State(limit: int, window: int, run: Run): Hits {
    match run
    case Start => map[]
    case Then(before, call) => Step(limit, window, State(limit, window, before), call)
  }

  /** The limiter's answer to `call` after a run. */
  predicate Answer(limit: int, window: int, run: Run, call: Call) {
    Accepts(limit, window, State(limit, window, run), call)
  }

  /** The times of every hit on `key` that the limiter has accepted. */
  function Accepted(limit: int, window: int, run: Run, key: string): seq<int> {
    match run
    case Start => []
    case Then(before, call) =>
      if call.key == key && Answer(limit, window, before, call)
      then Accepted(limit, window, before, key) + [call.time]
      else Accepted(limit, window, before, key)
  }

  // A limiter of its own, which never forgets a hit: it keeps every time it has accepted, and
  // counts those in the window at each call.

  function LiveCount(window: int, ledger: Hits, call: Call): nat {
    |After(Stored(ledger, call.key), call.time - window)|
  }

  function LedgerStep(limit: int, window: int, ledger: Hits, call: Call): Hits {
    if LiveCount(window, ledger, call) < limit
    then ledger[call.key := Stored(ledger, call.key) + [call.time]] else ledger
  }

  function Ledger(limit: int, window: int, run: Run): Hits {
    match run
    case Start => map[]
    case Then(before, call) => LedgerStep(limit, window, Ledger(limit, window, before), call)
  }

  /** How many entries of the ledger are still live at `call`. */
  function LedgerCount(limit: int, window: int, run: Run, call: Call): nat {
    LiveCount(window, Ledger(limit, window, run), call)
  }

  lemma {:induction false} StoredAfterStep(limit: int, window: int, hits: Hits, call: Call, key: string)
    ensures Stored(Step(limit, window, hits, call), key)
         == if call.key != key then Stored(hits, key)
            else if Accepts(limit, window, hits, call) then Live(window, hits, call) + [call.time]
            else Live(window, hits, call)
  {
  }

  /** One call keeps a stored list and a ledger that agree beyond a cutoff in agreement. */
  lemma {:induction false} AgreementStep(limit: int, window: int, hits: Hits, ledger: seq<int>, call: Call, key: string, cutoff: int)
    requires call.time - window <= cutoff
    requires After(Stored(hits, key), cutoff) == After(ledger, cutoff)
    ensures After(Stored(Step(limit, window, hits, call), key), cutoff)
         == After(if call.key == key && Accepts(limit, window, hits, call) then ledger + [call.time] else ledger, cutoff)
  {
    StoredAfterStep(limit, window, hits, call, key);
    if call.key == key {
      AfterAfter(Stored(hits, key), call.time - window, cutoff);
      AfterAppend(Live(window, hits, call), call.time, cutoff);
      AfterAppend(ledger, call.time, cutoff);
    }
  }

  lemma {:induction false} LedgerAfterStep(limit: int, window: int, ledger: Hits, call: Call, key: string)
    ensures Stored(LedgerStep(limit, window, ledger, call), key)
         == if call.key == key && LiveCount(window, ledger, call) < limit then Stored(ledger, key) + [call.time]
            else Stored(ledger, key)
  {
  }

  /** Lists that agree for the call and beyond a later cutoff still agree beyond it afterwards. */
  lemma {:induction false} BothStep(limit: int, window: int, hits: Hits, ledger: Hits, call: Call, key: string, cutoff: int)
    requires call.time - window <= cutoff
    requires After(Stored(hits, call.key), call.time - window) == After(Stored(ledger, call.key), call.time - window)
    requires After(Stored(hits, key), cutoff) == After(Stored(ledger, key), cutoff)
    ensures After(Stored(Step(limit, window, hits, call), key), cutoff)
         == After(Stored(LedgerStep(limit, window, ledger, call), key), cutoff)
  {
    assert Accepts(limit, window, hits, call) == (LiveCount(window, ledger, call) < limit);
    hide After, Step, LedgerStep, Accepts, LiveCount, Stored;
    AgreementStep(limit, window, hits, Stored(ledger, key), call, key, cutoff);
    LedgerAfterStep(limit, window, ledger, call, key);
  }

  /** Forgetting is harmless: no later cutoff can tell the pruned list from the ledger. */
  lemma {:induction false} PrunedAgreesWithLedger(limit: int, window: int, run: Run, key: string, now: int)
    requires Monotone(run) && NotAfter(run, now)
    ensures After(Stored(State(limit, window, run), key), now - window)
         == After(Stored(Ledger(limit, window, run), key), now - window)
  {
    match run
    case Start =>
    case Then(before, call) =>
      PrunedAgreesWithLedger(limit, window, before, call.key, call.time);
      PrunedAgreesWithLedger(limit, window, before, key, now);
      hide After, Step, LedgerStep, Stored;
      BothStep(limit, window, State(limit, window, before), Ledger(limit, window, before), call, key, now - window);
  }

  /** The pruning limiter answers every call of every run exactly as the one that never forgets. */
  lemma {:induction false} RefinesLedger(limit: int, window: int, run: Run, call: Call)
    requires Monotone(Then(run, call))
    ensures Answer(limit, window, run, call) <==> LedgerCount(limit, window, run, call) < limit
  {
    PrunedAgreesWithLedger(limit, window, run, call.key, call.time);
  }

  /** So the two have accepted the same hits. */
  lemma {:induction false} AcceptedIsLedger(limit: int, window: int, run: Run, key: string)
    requires Monotone(run)
    ensures Accepted(limit, window, run, key) == Stored(Ledger(limit, window, run), key)
  {
    match run
    case Start =>
    case Then(before, call) =>
      AcceptedIsLedger(limit, window, before, key);
      RefinesLedger(limit, window, before, call);
  }

  function Cap(limit: int): nat { if limit < 0 then 0 else limit }

  /** No stored list ever outgrows the limit. */
  lemma {:induction false} StoredWithinLimit(limit: int, window: int, run: Run, key: string)
    ensures |Stored(State(limit, window, run), key)| <= Cap(limit)
  {
    match run
    case Start =>
    case Then(before, call) =>
      StoredWithinLimit(limit, window, before, key);
      StoredAfterStep(limit, window, State(limit, window, before), call, key);
  }

  /** A call is refused exactly when the limit is reached, never overshot. */
  lemma {:induction false} RefusedOnlyWhenFull(limit: int, window: int, run: Run, call: Call)
    requires Monotone(Then(run, call))
    ensures !Answer(limit, window, run, call) <==> LedgerCount(limit, window, run, call) == Cap(limit)
  {
    hide State, Ledger, Accepts, Step, Stored;
    PrunedAgreesWithLedger(limit, window, run, call.key, call.time);
    StoredWithinLimit(limit, window, run, call.key);
    RefinesLedger(limit, window, run, call);
    assert LedgerCount(limit, window, run, call)
        == |After(Stored(State(limit, window, run), call.key), call.time - window)|;
  }

  // ---------------------------------------------------------------- the window bound

  /** How many entries of `s` lie in the half-open window (lo, hi]. */
  function InWindow(s: seq<int>, lo: int, hi: int): (n: nat)
    ensures n <= |s|
  {
    if s == [] then 0
    else InWindow(s[..|s| - 1], lo, hi) + (if lo < s[|s| - 1] <= hi then 1 else 0)
  }

  predicate AllAtMost(s: seq<int>, top: int) {
    forall i | 0 <= i < |s| :: s[i] <= top
  }

  /** For entries not beyond `top`, a window reaching past `top` counts what lies after its start. */
  lemma {:induction false} InWindowCounts(s: seq<int>, lo: int, top: int, hi: int)
    requires top <= hi && AllAtMost(s, top)
    ensures InWindow(s, lo, hi) == |After(s, lo)|
  {
    if s != [] {
      InWindowCounts(s[..|s| - 1], lo, top, hi);
    }
  }

  lemma {:induction false} AfterShrinks(s: seq<int>, early: int, late: int)
    requires early <= late
    ensures |After(s, late)| <= |After(s, early)|
  {
    if s != [] {
      AfterShrinks(s[..|s| - 1], early, late);
    }
  }

  lemma {:induction false} AcceptedBounded(limit: int, window: int, run: Run, key: string, now: int)
    requires Monotone(run) && NotAfter(run, now)
    ensures AllAtMost(Accepted(limit, window, run, key), now)
  {
    match run
    case Start =>
    case Then(before, call) => AcceptedBounded(limit, window, before, key, now);
  }

  /** Accepting x when fewer than `limit` earlier entries are live at x keeps every window bounded. */
  lemma {:induction false} WindowStep(limit: int, window: int, earlier: seq<int>, x: int, t: int)
    requires AllAtMost(earlier, x) && |After(earlier, x - window)| < limit
    requires InWindow(earlier, t - window, t) <= Cap(limit)
    ensures InWindow(earlier + [x], t - window, t) <= Cap(limit)
  {
    assert (earlier + [x])[..|earlier|] == earlier;
    if t - window < x <= t {
      InWindowCounts(earlier, t - window, x, t);
      AfterShrinks(earlier, x - window, t - window);
    }
  }

  /** Over every run, for every key and every instant t, at most `limit` accepted hits
      fall in (t - window, t]. */
  lemma {:induction false} WindowBound(limit: int, window: int, run: Run, key: string, t: int)
    requires Monotone(run)
    ensures InWindow(Accepted(limit, window, run, key), t - window, t) <= Cap(limit)
  {
    match run
    case Start =>
    case Then(before, call) =>
      WindowBound(limit, window, before, key, t);
      if call.key == key && Answer(limit, window, before, call) {
        RefinesLedger(limit, window, before, call);
        AcceptedIsLedger(limit, window, before, key);
        AcceptedBounded(limit, window, before, key, call.time);
        WindowStep(limit, window, Accepted(limit, window, before, key), call.time, t);
      }
  }

  /** The bound needs the clock not to run backwards: pruning at 100 forgets two hits that a
      later reading of 2 should still count. */
  const BACKWARD_CLOCK: Run :=
    Then(Then(Then(Then(Start, Call("k", 0)), Call("k", 1)), Call("k", 100)), Call("k", 2))

  lemma {:induction false} BackwardClockBreaksBound()
    ensures !Monotone(BACKWARD_CLOCK)
    ensures InWindow(Accepted(2, 10, BACKWARD_CLOCK, "k"), -8, 2) == 3
  {
    var r4 := BACKWARD_CLOCK;
    var r3 := r4.before;
    var r2 := r3.before;
    var r1 := r2.before;
    assert Stored(State(2, 10, r1), "k") == [0];
    AfterAppend([], 0, -9);
    assert Stored(State(2, 10, r2), "k") == [0, 1];
    AfterAppend([], 0, 90);
    AfterAppend([0], 1, 90);
    assert Stored(State(2, 10, r3), "k") == [100];
    AfterAppend([], 100, -8);
    assert Accepted(2, 10, r2, "k") == [0, 1];
    assert Accepted(2, 10, r4, "k") == [0, 1, 100, 2];
    assert [0, 1, 100, 2][..3] == [0, 1, 100] && [0, 1, 100][..2] == [0, 1] && [0, 1][..1] == [0];
    assert InWindow([0, 1], -8, 2) == 2;
  }

  // ---------------------------------------------------------------- keys do not interfere

  /** The calls of a run that are on `key`. */
  function OnKey(run: Run, key: string): Run {
    match run
    case Start => Start
    case Then(before, call) => if call.key == key then Then(OnKey(before, key), call) else OnKey(before, key)
  }

  /** What is stored for a key, under any clock, depends only on the calls on that key. */
  lemma {:induction false} KeysIndependent(limit: int, window: int, run: Run, key: string)
    ensures Stored(State(limit, window, run), key) == Stored(State(limit, window, OnKey(run, key)), key)
  {
    match run
    case Start =>
    case Then(before, call) =>
      KeysIndependent(limit, window, before, key);
      StoredAfterStep(limit, window, State(limit, window, before), call, key);
      StoredAfterStep(limit, window, State(limit, window, OnKey(before, key)), call, key);
  }

  /** So calls on other keys never change a decision. */
  lemma {:induction false} DecisionIgnoresOtherKeys(limit: int, window: int, run: Run, call: Call)
    ensures Answer(limit, window, run, call) <==> Answer(limit, window, OnKey(run, call.key), call)
  {
    KeysIndependent(limit, window, run, call.key);
  }
}
