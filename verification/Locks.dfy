/** The service lock with its probe, and the polling acquisition of the bootstrap lock. */
module Locks {
  import opened Wrappers

  // ---------------------------------------------------------------- the service lock

  /** What each process sees happen, in the order it happens. */
  datatype Event =
    | Acquired(client: int)
    | Refused(client: int)
    | Released(client: int)
    | ProbeLocked(client: int)
    | ProbeSaw(client: int, held: bool)

  datatype Phase = Idle | Serving | Probing

  /** The kernel grants the lock to one open file at a time. */
  datatype State = State(holder: Option<int>, clients: map<int, Phase>, log: seq<Event>)
  {
    function At(c: int): Phase { if c in clients then clients[c] else Idle }
  }

  /** One system call of one process.  A process that ends has its files closed, which unlocks. */
  datatype Action =
    | TryServe(client: int)
    | StopServing(client: int)
    | TryProbe(client: int)
    | EndProbe(client: int)
    | Die(client: int)

  function Move(s: State, c: int, holder: Option<int>, phase: Phase, e: Event): State {
    State(holder, s.clients[c := phase], s.log + [e])
  }

  function Do(s: State, a: Action): State {
    match a
    case TryServe(c) =>
      if !s.At(c).Idle? then s
      else if s.holder.None? then Move(s, c, Some(c), Serving, Acquired(c))
      else Move(s, c, s.holder, Idle, Refused(c))
    case StopServing(c) =>
      if s.At(c).Serving? then Move(s, c, None, Idle, Released(c)) else s
    case TryProbe(c) =>
      if !s.At(c).Idle? then s
      else if s.holder.None? then Move(s, c, Some(c), Probing, ProbeLocked(c))
      else Move(s, c, s.holder, Idle, ProbeSaw(c, true))
    case EndProbe(c) =>
      if s.At(c).Probing? then Move(s, c, None, Idle, ProbeSaw(c, false)) else s
    case Die(c) =>
      match s.At(c)
      case Idle => s
      case Serving => Move(s, c, None, Idle, Released(c))
      case Probing => State(None, s.clients[c := Idle], s.log)
  }

  datatype Run = Start | Then(before: Run, action: Action)

  function Exec(r: Run): State {
    match r
    case Start => State(None, map[], [])
    case Then(before, a) => Do(Exec(before), a)
  }

  /** The processes that are serving after a log: acquired and not yet released. */
  function Servers(log: seq<Event>): set<int> {
    if log == [] then {}
    else
      var before := Servers(log[..|log| - 1]);
      match log[|log| - 1]
      case Acquired(c) => before + {c}
      case Released(c) => before - {c}
      case _ => before
  }

  /** Never two servers at once. */
  predicate OneServer(log: seq<Event>) {
    forall i, c, d | 0 <= i <= |log| && c in Servers(log[..i]) && d in Servers(log[..i]) :: c == d
  }

  /** Nobody serves from one point of the log to another. */
  predicate NobodyServes(log: seq<Event>, from: int, to: int) {
    forall k | from <= k <= to && 0 <= k <= |log| :: Servers(log[..k]) == {}
  }

  /** A probe took the lock at some point, and nobody has served since. */
  predicate Witnessed(log: seq<Event>, c: int, to: int) {
    exists j | 0 <= j < to && to <= |log| :: log[j] == ProbeLocked(c) && NobodyServes(log, j, to)
  }

  /** Every negative answer of a probe is backed by such a span that reaches up to the answer. */
  predicate ProbesHonest(log: seq<Event>) {
    forall i | 0 <= i < |log| && log[i].ProbeSaw? && !log[i].held :: Witnessed(log, log[i].client, i)
  }

  predicate Inv(s: State) {
    && HolderOk(s)
    && Servers(s.log) == ServerOf(s)
    && OneServer(s.log)
    && ProbesHonest(s.log)
    && (ProberOf(s).Some? ==> Witnessed(s.log, ProberOf(s).value, |s.log|))
  }

  lemma {:induction false} ServersSnoc(log: seq<Event>, e: Event)
    ensures var next := Servers(log + [e]);
            match e
            case Acquired(c) => next == Servers(log) + {c}
            case Released(c) => next == Servers(log) - {c}
            case _ => next == Servers(log)
  {
    assert (log + [e])[..|log + [e]| - 1] == log;
  }

  lemma {:induction false} OneServerSnoc(log: seq<Event>, e: Event)
    requires OneServer(log)
    requires forall c, d | c in Servers(log + [e]) && d in Servers(log + [e]) :: c == d
    ensures OneServer(log + [e])
  {
    var k := log + [e];
    forall i, c, d | 0 <= i <= |k| && c in Servers(k[..i]) && d in Servers(k[..i]) ensures c == d {
      if i <= |log| {
        assert k[..i] == log[..i];
      } else {
        assert k[..i] == k;
      }
    }
  }

  lemma {:induction false} WitnessedStays(log: seq<Event>, e: Event, c: int, to: int)
    requires Witnessed(log, c, to)
    ensures Witnessed(log + [e], c, to)
  {
    var j :| 0 <= j < to <= |log| && log[j] == ProbeLocked(c) && NobodyServes(log, j, to);
    var k := log + [e];
    forall n | j <= n <= to ensures Servers(k[..n]) == {} {
      assert k[..n] == log[..n];
    }
    assert k[j] == ProbeLocked(c) && NobodyServes(k, j, to);
  }

  lemma {:induction false} WitnessedGrows(log: seq<Event>, e: Event, c: int)
    requires Witnessed(log, c, |log|) && Servers(log + [e]) == {}
    ensures Witnessed(log + [e], c, |log| + 1)
  {
    WitnessedStays(log, e, c, |log|);
    var k := log + [e];
    var j :| 0 <= j < |log| && k[j] == ProbeLocked(c) && NobodyServes(k, j, |log|);
    assert k[..|log| + 1] == k;
    assert NobodyServes(k, j, |log| + 1);
  }

  lemma {:induction false} HonestSnoc(log: seq<Event>, e: Event)
    requires ProbesHonest(log)
    requires e.ProbeSaw? && !e.held ==> Witnessed(log, e.client, |log|)
    ensures ProbesHonest(log + [e])
  {
    var k := log + [e];
    forall i | 0 <= i < |k| && k[i].ProbeSaw? && !k[i].held ensures Witnessed(k, k[i].client, i) {
      if i < |log| {
        assert k[i] == log[i];
        WitnessedStays(log, e, k[i].client, i);
      } else {
        WitnessedStays(log, e, e.client, |log|);
      }
    }
  }

  lemma {:induction false} LockWitness(log: seq<Event>, c: int)
    requires Servers(log) == {}
    ensures Witnessed(log + [ProbeLocked(c)], c, |log| + 1)
  {
    var e := ProbeLocked(c);
    ServersSnoc(log, e);
    var k := log + [e];
    assert k[..|log|] == log && k[..|log| + 1] == k;
    assert k[|log|] == e && NobodyServes(k, |log|, |log| + 1);
  }

  /** One logged step, given what it makes of the servers and of a probe that is under way. */
  lemma {:induction false} LogKeeps(s: State, e: Event, probing: Option<int>)
    requires OneServer(s.log) && ProbesHonest(s.log)
    requires forall c, d | c in Servers(s.log + [e]) && d in Servers(s.log + [e]) :: c == d
    requires e.ProbeSaw? && !e.held ==> Witnessed(s.log, e.client, |s.log|)
    requires probing.Some? ==> Witnessed(s.log, probing.value, |s.log|) && Servers(s.log + [e]) == {}
    ensures OneServer(s.log + [e]) && ProbesHonest(s.log + [e])
    ensures probing.Some? ==> Witnessed(s.log + [e], probing.value, |s.log| + 1)
  {
    OneServerSnoc(s.log, e);
    HonestSnoc(s.log, e);
    if probing.Some? { WitnessedGrows(s.log, e, probing.value); }
  }

  /** The part of the invariant about who holds the lock. */
  predicate HolderOk(s: State) {
    && (forall c | c in s.clients && !s.clients[c].Idle? :: s.holder == Some(c))
    && (s.holder.Some? ==> !s.At(s.holder.value).Idle?)
  }

  lemma {:induction false} HolderKeeps(s: State, a: Action)
    requires HolderOk(s)
    ensures HolderOk(Do(s, a))
  {
  }

  function ServerOf(s: State): set<int> {
    if s.holder.Some? && s.At(s.holder.value).Serving? then {s.holder.value} else {}
  }

  function ProberOf(s: State): Option<int> {
    if s.holder.Some? && s.At(s.holder.value).Probing? then s.holder else None
  }

  /** A step logs at most one event, and the event tells how the server and the probe change. */
  lemma {:induction false} StepLogs(s: State, a: Action)
    requires HolderOk(s)
    ensures var t := Do(s, a);
            || (t.log == s.log && ServerOf(t) == ServerOf(s) && (ProberOf(t) == None || ProberOf(t) == ProberOf(s)))
            || (|t.log| == |s.log| + 1 && t.log == s.log + [t.log[|s.log|]] && Logged(s, t, t.log[|s.log|]))
  {
  }

  predicate Logged(s: State, t: State, e: Event) {
    match e
    case Acquired(c) => ServerOf(s) == {} && ServerOf(t) == {c} && ProberOf(t) == None
    case Released(c) => ServerOf(s) == {c} && ServerOf(t) == {} && ProberOf(t) == None
    case Refused(c) => ServerOf(t) == ServerOf(s) && ProberOf(t) == ProberOf(s)
    case ProbeLocked(c) => ServerOf(s) == {} == ServerOf(t) && ProberOf(t) == Some(c)
    case ProbeSaw(c, true) => ServerOf(t) == ServerOf(s) && ProberOf(t) == ProberOf(s)
    case ProbeSaw(c, false) => ServerOf(s) == {} == ServerOf(t) && ProberOf(s) == Some(c) && ProberOf(t) == None
  }

  lemma {:induction false} StepKeeps(s: State, a: Action)
    requires Inv(s)
    ensures Inv(Do(s, a))
  {
    var t := Do(s, a);
    HolderKeeps(s, a);
    StepLogs(s, a);
    hide Do, OneServer, ProbesHonest, Witnessed, Servers;
    if |t.log| == |s.log| + 1 {
      var e := t.log[|s.log|];
      ServersSnoc(s.log, e);
      if e.ProbeLocked? {
        LockWitness(s.log, e.client);
        LogKeeps(s, e, None);
      } else {
        LogKeeps(s, e, ProberOf(t));
      }
    }
  }

  lemma {:induction false} RunsKeep(r: Run)
    ensures Inv(Exec(r))
  {
    if r.Then? {
      RunsKeep(r.before);
      StepKeeps(Exec(r.before), r.action);
    }
  }

  /** Under every interleaving of acquires, releases, deaths and probes there is never more than one
    * server, and a probe that answers `false` was itself alone from the moment it locked: nobody was
    * serving at any point from then until the answer. */
  lemma {:induction false} AtMostOneServer(r: Run)
    ensures OneServer(Exec(r).log)
    ensures ProbesHonest(Exec(r).log)
  {
    RunsKeep(r);
  }

  /** A process that tries to serve is refused exactly when another one is serving or a probe is
    * between its two system calls. */
  lemma {:induction false} RefusedExactly(r: Run, c: int)
    requires Exec(r).At(c).Idle?
    ensures Do(Exec(r), TryServe(c)).At(c).Idle?
       <==> Servers(Exec(r).log) != {} || exists d | d in Exec(r).clients :: Exec(r).clients[d].Probing?
  {
    RunsKeep(r);
    var s := Exec(r);
    hide Exec, Servers, OneServer, ProbesHonest, Witnessed;
    if s.holder.Some? {
      assert s.holder.value in s.clients;
    }
  }

  /** A probe can therefore turn a server away although nobody serves. */
  lemma {:induction false} ProbeRefusesServer() returns (r: Run)
    ensures Exec(r).log == [ProbeLocked(1), Refused(2), ProbeSaw(1, false)]
    ensures Servers([ProbeLocked(1), Refused(2), ProbeSaw(1, false)]) == {}
  {
    var r1 := Then(Start, TryProbe(1));
    assert Exec(r1) == State(Some(1), map[1 := Probing], [ProbeLocked(1)]);
    var r2 := Then(r1, TryServe(2));
    assert Exec(r2) == State(Some(1), map[1 := Probing, 2 := Idle], [ProbeLocked(1), Refused(2)]);
    r := Then(r2, EndProbe(1));
    assert Exec(r).log == [ProbeLocked(1), Refused(2)] + [ProbeSaw(1, false)];
    ServersSnoc([], ProbeLocked(1));
    ServersSnoc([ProbeLocked(1)], Refused(2));
    ServersSnoc([ProbeLocked(1), Refused(2)], ProbeSaw(1, false));
    assert [] + [ProbeLocked(1)] == [ProbeLocked(1)];
    assert [ProbeLocked(1)] + [Refused(2)] == [ProbeLocked(1), Refused(2)];
    assert [ProbeLocked(1), Refused(2)] + [ProbeSaw(1, false)] == [ProbeLocked(1), Refused(2), ProbeSaw(1, false)];
  }

  /** When the process that has the lock gives it up, or dies, anyone who asks next is served. */
  lemma {:induction false} FreedThenGranted(r: Run, c: int, a: Action, d: int)
    requires var s := Exec(r);
             && (s.At(c).Serving? || s.At(c).Probing?) && (s.At(d).Idle? || d == c)
             && (a == Die(c) || a == if s.At(c).Serving? then StopServing(c) else EndProbe(c))
    ensures var s := Exec(Then(Then(r, a), TryServe(d)));
            s.holder == Some(d) && s.At(d) == Serving && s.log != [] && s.log[|s.log| - 1] == Acquired(d)
  {
  }

  // ---------------------------------------------------------------- the bootstrap lock

  datatype Attempt = Granted | WouldBlock | LockError
  datatype Outcome = Locked | Failed | TimedOut | Cancelled

  const POLL := 25_000_000

  /** What the loop meets: the answer to each attempt, the time since the start when it is checked, and
    * whether the context ends the wait that follows. */
  datatype World = World(attempt: nat -> Attempt, elapsed: nat -> int, cancelled: nat -> bool)

  /** Each wait lasts at least the poll interval. */
  ghost predicate Paced(w: World) {
    w.elapsed(0) >= 0 && forall k: nat :: w.elapsed(k + 1) >= w.elapsed(k) + POLL
  }

  predicate Expired(w: World, timeout: Option<int>, k: nat) {
    timeout.Some? && w.elapsed(k) >= timeout.value
  }

  /** The loop ends in this iteration. */
  predicate Stops(w: World, timeout: Option<int>, k: nat) {
    !w.attempt(k).WouldBlock? || Expired(w, timeout, k) || w.cancelled(k)
  }

  function OutcomeAt(w: World, timeout: Option<int>, k: nat): Outcome
    requires Stops(w, timeout, k)
  {
    match w.attempt(k)
    case Granted => Locked
    case LockError => Failed
    case WouldBlock => if Expired(w, timeout, k) then TimedOut else Cancelled
  }

  /** Which outcome ends the loop: the answer to the attempt comes first, then the timeout, then the context. */
  lemma {:induction false} OutcomeExact(w: World, timeout: Option<int>, k: nat)
    requires Stops(w, timeout, k)
    ensures var outcome, late := OutcomeAt(w, timeout, k), timeout.Some? && w.elapsed(k) >= timeout.value;
            && (outcome == Locked <==> w.attempt(k) == Granted)
            && (outcome == Failed <==> w.attempt(k) == LockError)
            && (outcome == TimedOut <==> w.attempt(k) == WouldBlock && late)
            && (outcome == Cancelled <==> w.attempt(k) == WouldBlock && !late && w.cancelled(k))
  {
  }

  function CeilDiv(a: nat, b: nat): nat
    requires b > 0
  {
    (a + b - 1) / b
  }

  lemma {:induction false} ElapsedGrows(w: World, k: nat)
    requires Paced(w)
    ensures w.elapsed(k) >= k * POLL
  {
    if k > 0 { ElapsedGrows(w, k - 1); }
  }

  /** By the iteration numbered ceil(T / 25 ms) the timeout has passed. */
  lemma {:induction false} ExpiresBy(w: World, timeout: nat)
    requires Paced(w)
    ensures Expired(w, Some(timeout), CeilDiv(timeout, POLL))
  {
    ElapsedGrows(w, CeilDiv(timeout, POLL));
  }

  /** The polling loop.  `horizon` is an iteration that ends it; with a timeout one always exists. */
  method AcquireBootstrapLock(w: World, timeout: Option<int>, ghost horizon: nat) returns (outcome: Outcome, attempts: nat)
    requires Stops(w, timeout, horizon)
    ensures 1 <= attempts <= horizon + 1
    ensures Stops(w, timeout, attempts - 1) && outcome == OutcomeAt(w, timeout, attempts - 1)
    ensures forall k | 0 <= k < attempts - 1 :: !Stops(w, timeout, k)
  {
    var k := 0;
    while true
      invariant 0 <= k <= horizon
      invariant forall j | 0 <= j < k :: !Stops(w, timeout, j)
      decreases horizon - k
    {
      var answer := w.attempt(k);
      if answer.Granted? {
        return Locked, k + 1;
      } else if !answer.WouldBlock? {
        return Failed, k + 1;
      }
      if timeout.Some? && w.elapsed(k) >= timeout.value {
        return TimedOut, k + 1;
      }
      if w.cancelled(k) {
        return Cancelled, k + 1;
      }
      k := k + 1;
    }
  }

  /** With a timeout the loop ends by itself, after at most ceil(T / 25 ms) + 1 attempts. */
  method AcquireWithTimeout(w: World, timeout: nat) returns (outcome: Outcome, attempts: nat)
    requires Paced(w) && timeout > 0
    ensures 1 <= attempts <= CeilDiv(timeout, POLL) + 1
    ensures Stops(w, Some(timeout), attempts - 1) && outcome == OutcomeAt(w, Some(timeout), attempts - 1)
    ensures forall k | 0 <= k < attempts - 1 :: !Stops(w, Some(timeout), k)
  {
    ExpiresBy(w, timeout);
    outcome, attempts := AcquireBootstrapLock(w, Some(timeout), CeilDiv(timeout, POLL));
  }

  /** A lock that stays taken, waits that last exactly the interval, and no cancellation. */
  const BUSY := World(_ => WouldBlock, k => k * POLL, _ => false)

  /** The bound is reached: against a lock that stays taken no earlier iteration ends the loop. */
  lemma {:induction false} BoundIsTight(timeout: nat, k: nat)
    requires timeout > 0
    ensures Paced(BUSY)
    ensures Stops(BUSY, Some(timeout), k) <==> k >= CeilDiv(timeout, POLL)
  {
    if k >= CeilDiv(timeout, POLL) {
      assert k * POLL >= CeilDiv(timeout, POLL) * POLL >= timeout;
    } else {
      assert k * POLL <= (CeilDiv(timeout, POLL) - 1) * POLL < timeout;
    }
  }
}
