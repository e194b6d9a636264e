/** Actions taken from an email: which links are sent, and what presenting them does. */
module EmailActions {
  import opened Listings
  import opened Counting
  import M = MobileQueue

  // ---------------------------------------------------------------- presenting a verified token

  type Verb = M.Verb

  datatype ApprovalStatus = Pending | Approved | Denied | ClarificationRequested | OtherApprovalStatus
  datatype IntakeStatus = ReviewRequired | Rejected | NeedsClarification | Archived | OtherIntakeStatus

  /** An approval row, with what the resolver finds about its task: whether it supports resuming it,
    * whether the snapshots recorded with the request are still current, and whether a linked run is
    * still running without waiting for the approval. */
  datatype Approval = Approval(
    status: ApprovalStatus, policyHash: string, runtimeHash: string, supported: bool, current: bool, runBusy: bool)

  datatype Target = ApprovalTarget(id: int) | IntakeTarget(id: int) | OtherTarget(id: int)

  datatype Request = Request(target: Target, verb: Verb, policyHash: string, runtimeHash: string)

  datatype Event = Opened(target: Target) | ClosedByOthers(target: Target) | DecidedByEmail(target: Target)

  /** The rows, and a log of when others made a row open for decision or
    * ended that, and when an email decided it. */
  datatype Db = Db(approvals: map<int, Approval>, intake: map<int, IntakeStatus>, log: seq<Event>)

  predicate IsOpen(db: Db, t: Target) {
    match t
    case ApprovalTarget(id) => id in db.approvals && db.approvals[id].status.Pending?
    case IntakeTarget(id) => id in db.intake && db.intake[id].ReviewRequired?
    case OtherTarget(_) => false
  }

  function Resolution(verb: Verb): ApprovalStatus {
    match verb case Approve => Approved case Deny => Denied case _ => ClarificationRequested
  }

  function Disposition(verb: Verb): IntakeStatus {
    match verb case Reject => Rejected case Archive => Archived case _ => NeedsClarification
  }

  predicate ApprovalVerb(verb: Verb) { verb.Approve? || verb.Deny? || verb.Clarify? }
  predicate IntakeVerb(verb: Verb) { verb.Reject? || verb.Clarify? || verb.Archive? }

  predicate HashesMatch(req: Request, a: Approval) {
    && (req.policyHash == "" || req.policyHash == a.policyHash)
    && (req.runtimeHash == "" || req.runtimeHash == a.runtimeHash)
  }

  /** Where a presentation stands between two store calls. */
  datatype Phase = Idle | ApprovalSeen(req: Request) | ApprovalChecked(req: Request) | IntakeSeen(req: Request)

  /** The first read of a presentation. */
  function Present(db: Db, req: Request): Phase {
    match req.target
    case ApprovalTarget(id) =>
      if ApprovalVerb(req.verb) && IsOpen(db, req.target) && HashesMatch(req, db.approvals[id])
      then ApprovalSeen(req) else Idle
    case IntakeTarget(id) =>
      if IsOpen(db, req.target) && IntakeVerb(req.verb) then IntakeSeen(req) else Idle
    case OtherTarget(_) => Idle
  }

  predicate ResolverAllows(verb: Verb, a: Approval) {
    a.status.Pending? && a.supported && (verb.Approve? ==> a.current)
  }

  predicate StoreAllows(verb: Verb, a: Approval) {
    a.status.Pending? && !(verb.Approve? && a.runBusy)
  }

  /** The next store call.  The approval transaction looks at the status again; the intake
    * transaction does not. */
  function Next(db: Db, phase: Phase): (Db, Phase) {
    match phase
    case Idle => (db, Idle)
    case ApprovalSeen(req) =>
      var id := req.target.id;
      (db, if id in db.approvals && ResolverAllows(req.verb, db.approvals[id]) then ApprovalChecked(req) else Idle)
    case ApprovalChecked(req) =>
      var id := req.target.id;
      if id in db.approvals && StoreAllows(req.verb, db.approvals[id])
      then (db.(approvals := db.approvals[id := db.approvals[id].(status := Resolution(req.verb))],
                log := db.log + [DecidedByEmail(ApprovalTarget(id))]), Idle)
      else (db, Idle)
    case IntakeSeen(req) =>
      var id := req.target.id;
      if id in db.intake
      then (db.(intake := db.intake[id := Disposition(req.verb)], log := db.log + [DecidedByEmail(IntakeTarget(id))]), Idle)
      else (db, Idle)
  }

  function Remaining(phase: Phase): nat {
    match phase case Idle => 0 case ApprovalSeen(_) => 2 case _ => 1
  }

  /** A presentation carried through with nothing in between. */
  function Uninterrupted(db: Db, phase: Phase): Db
    decreases Remaining(phase)
  {
    if phase.Idle? then db else var (d, p) := Next(db, phase); Uninterrupted(d, p)
  }

  class ActionStore {
    var db: Db

    constructor (start: Db)
      ensures db == start
    {
      db := start;
    }

    method ApplyApproval(req: Request) returns (ok: bool)
      requires req.target.ApprovalTarget?
      modifies this
      ensures db == Uninterrupted(old(db), Present(old(db), req))
      ensures ok <==> db != old(db)
    {
      var id := req.target.id;
      if !ApprovalVerb(req.verb) || id !in db.approvals {
        return false;
      }
      var row := db.approvals[id];
      if !row.status.Pending? || !HashesMatch(req, row) {
        return false;
      }
      assert Uninterrupted(db, Present(db, req)) == Uninterrupted(db, Next(db, ApprovalSeen(req)).1);
      if !row.supported || (req.verb.Approve? && !row.current) {
        return false;
      }
      if req.verb.Approve? && row.runBusy {
        assert Uninterrupted(db, ApprovalChecked(req)) == Uninterrupted(db, Idle);
        return false;
      }
      ghost var was := db;
      db := db.(approvals := db.approvals[id := row.(status := Resolution(req.verb))],
                log := db.log + [DecidedByEmail(ApprovalTarget(id))]);
      assert Uninterrupted(was, ApprovalChecked(req)) == Uninterrupted(db, Idle);
      assert |db.log| == |was.log| + 1;
      return true;
    }

    method ApplyIntakeReview(req: Request) returns (ok: bool)
      requires req.target.IntakeTarget?
      modifies this
      ensures db == Uninterrupted(old(db), Present(old(db), req))
      ensures ok <==> db != old(db)
    {
      var id := req.target.id;
      if id !in db.intake || !db.intake[id].ReviewRequired? || !IntakeVerb(req.verb) {
        return false;
      }
      ghost var was := db;
      db := db.(intake := db.intake[id := Disposition(req.verb)], log := db.log + [DecidedByEmail(IntakeTarget(id))]);
      assert Uninterrupted(was, IntakeSeen(req)) == Uninterrupted(db, Idle);
      assert |db.log| == |was.log| + 1;
      return true;
    }
  }

  // ---------------------------------------------------------------- what a presentation does

  /** The request may decide this approval: it is pending and asked about the same snapshots; and a resumption
    * needs current snapshots and no run in the way. */
  predicate MayDecide(a: Approval, req: Request) {
    && a.status == Pending && a.supported
    && (req.policyHash != "" ==> req.policyHash == a.policyHash)
    && (req.runtimeHash != "" ==> req.runtimeHash == a.runtimeHash)
    && (req.verb == M.Approve ==> a.current && !a.runBusy)
  }

  /** Presenting a token for an approval, with nothing in between: it becomes approved, denied or returned for
    * clarification as the action says, if it may be decided; nothing else changes. */
  lemma {:induction false} ApprovalPresented(db: Db, req: Request, id: int)
    requires req.target == ApprovalTarget(id)
    ensures var d := Uninterrupted(db, Present(db, req));
            if id in db.approvals && MayDecide(db.approvals[id], req) && req.verb in {M.Approve, M.Deny, M.Clarify} then
              && id in d.approvals
              && d == db.(approvals := db.approvals[id := db.approvals[id].(status := d.approvals[id].status)],
                          log := db.log + [DecidedByEmail(ApprovalTarget(id))])
              && (req.verb == M.Approve ==> d.approvals[id].status == Approved)
              && (req.verb == M.Deny ==> d.approvals[id].status == Denied)
              && (req.verb == M.Clarify ==> d.approvals[id].status == ClarificationRequested)
            else d == db
  {
    if Present(db, req).ApprovalSeen? && ResolverAllows(req.verb, db.approvals[id]) {
      assert Uninterrupted(db, ApprovalSeen(req)) == Uninterrupted(db, ApprovalChecked(req));
      var d := Next(db, ApprovalChecked(req)).0;
      assert Uninterrupted(db, ApprovalChecked(req)) == Uninterrupted(d, Idle) == d;
    }
  }

  /** Likewise for an intake item that is under review. */
  lemma {:induction false} IntakePresented(db: Db, req: Request, id: int)
    requires req.target == IntakeTarget(id)
    ensures var d := Uninterrupted(db, Present(db, req));
            if id in db.intake && db.intake[id] == ReviewRequired && req.verb in {M.Reject, M.Clarify, M.Archive} then
              && id in d.intake
              && d == db.(intake := db.intake[id := d.intake[id]], log := db.log + [DecidedByEmail(IntakeTarget(id))])
              && (req.verb == M.Reject ==> d.intake[id] == Rejected)
              && (req.verb == M.Clarify ==> d.intake[id] == NeedsClarification)
              && (req.verb == M.Archive ==> d.intake[id] == Archived)
            else d == db
  {
    if Present(db, req).IntakeSeen? {
      var d := Next(db, IntakeSeen(req)).0;
      assert Uninterrupted(db, IntakeSeen(req)) == Uninterrupted(d, Idle) == d;
    }
  }

  // ---------------------------------------------------------------- interleaved presentations

  datatype State = State(db: Db, clients: map<int, Phase>)
  {
    function At(c: int): Phase { if c in clients then clients[c] else Idle }
  }

  /** A token is presented, its handling takes the next store call or stops at an error; anyone else
    * creates or rewrites a row. */
  datatype Action =
    | Begin(client: int, req: Request)
    | Advance(client: int)
    | Fail(client: int)
    | SetApproval(id: int, row: Approval)
    | SetIntake(id: int, status: IntakeStatus)

  /** Others change a row; the log says if that opens or closes it. */
  function Logged(before: Db, after: Db, t: Target): Db {
    if IsOpen(after, t) && !IsOpen(before, t) then after.(log := after.log + [Opened(t)])
    else if IsOpen(before, t) && !IsOpen(after, t) then after.(log := after.log + [ClosedByOthers(t)])
    else after
  }

  function Do(s: State, a: Action): State {
    match a
    case Begin(c, req) => if s.At(c).Idle? then s.(clients := s.clients[c := Present(s.db, req)]) else s
    case Advance(c) => var (d, p) := Next(s.db, s.At(c)); State(d, s.clients[c := p])
    case Fail(c) => s.(clients := s.clients[c := Idle])
    case SetApproval(id, row) =>
      s.(db := Logged(s.db, s.db.(approvals := s.db.approvals[id := row]), ApprovalTarget(id)))
    case SetIntake(id, status) =>
      s.(db := Logged(s.db, s.db.(intake := s.db.intake[id := status]), IntakeTarget(id)))
  }

  datatype Run = Start | Then(before: Run, action: Action)

  function Exec(r: Run): State {
    match r
    case Start => State(Db(map[], map[], []), map[])
    case Then(before, a) => Do(Exec(before), a)
  }

  /** Nothing is ruled out: others can give any row any content at any time, and any presentation can stop between
    * two calls.  A client that is busy with one presentation does not take up another. */
  lemma {:induction false} StepsArePossible(s: State, c: int, req: Request, id: int, row: Approval, status: IntakeStatus)
    ensures var t := Do(s, SetApproval(id, row));
            t.clients == s.clients && t.db == s.db.(approvals := s.db.approvals[id := row], log := t.db.log)
    ensures var t := Do(s, SetIntake(id, status));
            t.clients == s.clients && t.db == s.db.(intake := s.db.intake[id := status], log := t.db.log)
    ensures var t := Do(s, Fail(c)); t.db == s.db && t.At(c) == Idle && forall k | k != c :: t.At(k) == s.At(k)
    ensures s.At(c) != Idle ==> Do(s, Begin(c, req)) == s
  {
  }

  /** An intake write that finds the item no longer open: someone has been faster. */
  predicate Overtakes(s: State, a: Action, t: Target) {
    && a.Advance? && s.At(a.client).IntakeSeen? && t == IntakeTarget(s.At(a.client).req.target.id)
    && t.id in s.db.intake && !IsOpen(s.db, t)
  }

  function Overtaken(r: Run, t: Target): nat {
    match r
    case Start => 0
    case Then(before, a) => Overtaken(before, t) + (if Overtakes(Exec(before), a, t) then 1 else 0)
  }

  /** Openings not used up by a decision, by someone else, or by the row being open still. */
  function Balance(db: Db, t: Target): int {
    Count(db.log, Opened(t)) - Count(db.log, DecidedByEmail(t)) - Count(db.log, ClosedByOthers(t))
    - (if IsOpen(db, t) then 1 else 0)
  }

  lemma {:induction false} LoggedBalance(before: Db, after: Db, u: Target, t: Target)
    requires after.log == before.log
    requires t != u ==> IsOpen(after, t) == IsOpen(before, t)
    ensures Balance(Logged(before, after, u), t) == Balance(before, t)
  {
    hide Count;
    CountSnoc(after.log, Opened(u), Opened(t));
    CountSnoc(after.log, Opened(u), DecidedByEmail(t));
    CountSnoc(after.log, Opened(u), ClosedByOthers(t));
    CountSnoc(after.log, ClosedByOthers(u), Opened(t));
    CountSnoc(after.log, ClosedByOthers(u), DecidedByEmail(t));
    CountSnoc(after.log, ClosedByOthers(u), ClosedByOthers(t));
  }

  lemma {:induction false} DecisionBalance(before: Db, after: Db, u: Target, t: Target)
    requires after.log == before.log + [DecidedByEmail(u)]
    requires t == u ==> !IsOpen(after, u)
    requires t != u ==> IsOpen(after, t) == IsOpen(before, t)
    ensures Balance(after, t) == Balance(before, t) - (if t == u && !IsOpen(before, u) then 1 else 0)
  {
    hide Count;
    CountSnoc(before.log, DecidedByEmail(u), DecidedByEmail(t));
    CountSnoc(before.log, DecidedByEmail(u), Opened(t));
    CountSnoc(before.log, DecidedByEmail(u), ClosedByOthers(t));
  }

  lemma {:induction false} StepBalance(s: State, a: Action, t: Target)
    ensures Balance(Do(s, a).db, t) == Balance(s.db, t) - (if Overtakes(s, a, t) then 1 else 0)
  {
    match a
    case Advance(c) =>
      hide Balance;
      var d := Next(s.db, s.At(c)).0;
      if d != s.db {
        var id := s.At(c).req.target.id;
        DecisionBalance(s.db, d, if s.At(c).IntakeSeen? then IntakeTarget(id) else ApprovalTarget(id), t);
      }
    case SetApproval(id, row) =>
      LoggedBalance(s.db, s.db.(approvals := s.db.approvals[id := row]), ApprovalTarget(id), t);
    case SetIntake(id, status) =>
      LoggedBalance(s.db, s.db.(intake := s.db.intake[id := status]), IntakeTarget(id), t);
    case _ =>
  }

  /** Every run, with any number of tokens presented at once and repeated, and others changing the
    * rows: for each row, the times it was opened and the writes that came too late add up to the
    * decisions by email, the times others closed it, and whether it is open now. */
  lemma {:induction false} DecisionsAccounted(r: Run, t: Target)
    ensures var log, open := Exec(r).db.log, if IsOpen(Exec(r).db, t) then 1 else 0;
            Count(log, Opened(t)) + Overtaken(r, t) == Count(log, DecidedByEmail(t)) + Count(log, ClosedByOthers(t)) + open
  {
    if r.Then? {
      DecisionsAccounted(r.before, t);
      hide Count, IsOpen;
      StepBalance(Exec(r.before), r.action, t);
    }
  }

  /** An approval is never overtaken, so email decides it at most once for each time it became pending,
    * under every interleaving. */
  lemma {:induction false} ApprovalDecidedOnce(r: Run, id: int)
    ensures var log := Exec(r).db.log;
            Count(log, DecidedByEmail(ApprovalTarget(id))) <= Count(log, Opened(ApprovalTarget(id)))
  {
    NeverOvertaken(r, id);
    DecisionsAccounted(r, ApprovalTarget(id));
  }

  lemma {:induction false} NeverOvertaken(r: Run, id: int)
    ensures Overtaken(r, ApprovalTarget(id)) == 0
  {
    if r.Then? { NeverOvertaken(r.before, id); }
  }

  /** A presentation has read this item as open and has still to write it. */
  predicate Busy(s: State, id: int) {
    exists c | c in s.clients :: Handles(s.clients[c], id)
  }

  /** No presentation for this item begins while another presentation for it is being handled.
    * Everything else interleaves freely, and others may change the item at any time. */
  predicate Orderly(r: Run, id: int) {
    match r
    case Start => true
    case Then(before, a) =>
      Orderly(before, id) && (a.Begin? && a.req.target == IntakeTarget(id) ==> !Busy(Exec(before), id))
  }

  predicate Handles(p: Phase, id: int) { p.IntakeSeen? && p.req.target.id == id }

  /** One presentation of the item at most, and every opening pays for one decision, made or to come. */
  predicate OrderlyInv(s: State, id: int) {
    && (forall c, d | c in s.clients && d in s.clients && Handles(s.clients[c], id) && Handles(s.clients[d], id) :: c == d)
    && Covered(s.db, id, Busy(s, id))
  }

  predicate Covered(db: Db, id: int, busy: bool) {
    Count(db.log, DecidedByEmail(IntakeTarget(id))) + (if IsOpen(db, IntakeTarget(id)) || busy then 1 else 0)
    <= Count(db.log, Opened(IntakeTarget(id)))
  }

  lemma {:induction false} LoggedCovered(before: Db, after: Db, u: Target, id: int, busy: bool)
    requires after.log == before.log && Covered(before, id, busy)
    requires u != IntakeTarget(id) ==> IsOpen(after, IntakeTarget(id)) == IsOpen(before, IntakeTarget(id))
    ensures Covered(Logged(before, after, u), id, busy)
  {
    hide Count;
    var t := IntakeTarget(id);
    CountSnoc(after.log, Opened(u), Opened(t));
    CountSnoc(after.log, Opened(u), DecidedByEmail(t));
    CountSnoc(after.log, ClosedByOthers(u), Opened(t));
    CountSnoc(after.log, ClosedByOthers(u), DecidedByEmail(t));
  }

  /** A presentation of the item uses up what it was covered by; a step of any other one changes nothing here. */
  lemma {:induction false} NextCovered(db: Db, p: Phase, id: int, busy: bool)
    requires Covered(db, id, busy) && (Handles(p, id) ==> busy)
    ensures var (d, q) := Next(db, p); !q.IntakeSeen? && Covered(d, id, busy && !Handles(p, id))
  {
    hide Count;
    var t := IntakeTarget(id);
    var d := Next(db, p).0;
    if d.log != db.log {
      var e := d.log[|db.log|];
      assert d.log == db.log + [e];
      CountSnoc(db.log, e, DecidedByEmail(t));
      CountSnoc(db.log, e, Opened(t));
    }
  }

  lemma {:induction false} OrderlyAdvance(s: State, c: int, id: int)
    requires OrderlyInv(s, id)
    ensures OrderlyInv(Do(s, Advance(c)), id)
  {
    var p := s.At(c);
    NextCovered(s.db, p, id, Busy(s, id));
    var t := Do(s, Advance(c));
    hide Covered, Next;
    if Handles(p, id) {
      assert !Busy(t, id);
    } else {
      OthersBusy(s, t, c, id);
    }
  }

  lemma {:induction false} OthersBusy(s: State, t: State, c: int, id: int)
    requires !Handles(s.At(c), id) && c in t.clients && !Handles(t.clients[c], id) && t.clients == s.clients[c := t.clients[c]]
    ensures Busy(t, id) == Busy(s, id)
  {
    if d :| d in s.clients && Handles(s.clients[d], id) {
      assert d in t.clients && Handles(t.clients[d], id);
    }
  }

  lemma {:induction false} OrderlyStep(s: State, a: Action, id: int)
    requires OrderlyInv(s, id) && (a.Begin? && a.req.target == IntakeTarget(id) ==> !Busy(s, id))
    ensures OrderlyInv(Do(s, a), id)
  {
    hide Count;
    match a
    case Begin(c, req) =>
      if s.At(c).Idle? {
        assert Handles(Present(s.db, req), id) ==> req.target == IntakeTarget(id) && IsOpen(s.db, IntakeTarget(id));
        if !Handles(Present(s.db, req), id) { OthersBusy(s, Do(s, a), c, id); }
      }
    case Advance(c) => OrderlyAdvance(s, c, id);
    case Fail(c) => assert Busy(Do(s, a), id) ==> Busy(s, id);
    case SetApproval(k, row) =>
      LoggedCovered(s.db, s.db.(approvals := s.db.approvals[k := row]), ApprovalTarget(k), id, Busy(s, id));
    case SetIntake(k, status) =>
      LoggedCovered(s.db, s.db.(intake := s.db.intake[k := status]), IntakeTarget(k), id, Busy(s, id));
  }

  lemma {:induction false} OrderlyRun(r: Run, id: int)
    requires Orderly(r, id)
    ensures OrderlyInv(Exec(r), id)
  {
    if r.Then? {
      OrderlyRun(r.before, id);
      hide OrderlyInv, Do, Busy;
      OrderlyStep(Exec(r.before), r.action, id);
    }
  }

  /** So when presentations for one item do not overlap, email decides it at most once for each time it
    * came up for review, whatever others do to the item meanwhile. */
  lemma {:induction false} IntakeDecidedOnce(r: Run, id: int)
    requires Orderly(r, id)
    ensures var log := Exec(r).db.log;
            Count(log, DecidedByEmail(IntakeTarget(id))) <= Count(log, Opened(IntakeTarget(id)))
  {
    OrderlyRun(r, id);
  }

  /** Two links of one email followed at the same time: both read the item as open, and the second
    * write replaces the first decision. */
  lemma {:induction false} ConcurrentLinksDecideTwice() returns (r: Run)
    ensures var db := Exec(r).db;
            && Count(db.log, Opened(IntakeTarget(1))) == 1
            && Count(db.log, DecidedByEmail(IntakeTarget(1))) == 2
            && 1 in db.intake && db.intake[1] == Archived
  {
    var t := IntakeTarget(1);
    var reject, archive := Request(t, M.Reject, "", ""), Request(t, M.Archive, "", "");
    var r1 := Then(Start, SetIntake(1, ReviewRequired));
    var d1 := Db(map[], map[1 := ReviewRequired], [Opened(t)]);
    assert Exec(r1) == State(d1, map[]);
    var r2 := Then(r1, Begin(1, reject));
    assert Exec(r2) == State(d1, map[1 := IntakeSeen(reject)]);
    var r3 := Then(r2, Begin(2, archive));
    assert Exec(r3) == State(d1, map[1 := IntakeSeen(reject), 2 := IntakeSeen(archive)]);
    var r4 := Then(r3, Advance(1));
    var d4 := Db(map[], map[1 := Rejected], [Opened(t), DecidedByEmail(t)]);
    assert Exec(r4) == State(d4, map[1 := Idle, 2 := IntakeSeen(archive)]);
    r := Then(r4, Advance(2));
    assert Exec(r).db.log == [Opened(t)] + [DecidedByEmail(t)] + [DecidedByEmail(t)];
    CountRace(t);
  }

  lemma {:induction false} CountRace(t: Target)
    ensures var log := [Opened(t)] + [DecidedByEmail(t)] + [DecidedByEmail(t)];
            Count(log, Opened(t)) == 1 && Count(log, DecidedByEmail(t)) == 2
  {
    assert [Opened(t)] == [] + [Opened(t)];
    forall e: Event
      ensures Count([Opened(t)] + [DecidedByEmail(t)] + [DecidedByEmail(t)], e)
           == (if e == Opened(t) then 1 else if e == DecidedByEmail(t) then 2 else 0)
    {
      CountSnoc([], Opened(t), e);
      CountSnoc([Opened(t)], DecidedByEmail(t), e);
      CountSnoc([Opened(t)] + [DecidedByEmail(t)], DecidedByEmail(t), e);
    }
  }

  // ---------------------------------------------------------------- the links of an email

  datatype ApprovalView = ApprovalView(id: int, pending: bool, policyHash: string, runtimeHash: string)

  /** A line of the email: an item and the requests its links carry. */
  datatype Item = Item(kind: M.Kind, id: int, links: seq<Request>)

  function ItemKey(x: Item): (M.Kind, int) { (x.kind, x.id) }

  function LinksFor(target: Target, verbs: seq<Verb>, policyHash: string, runtimeHash: string): seq<Request> {
    seq(|verbs|, i requires 0 <= i < |verbs| => Request(target, verbs[i], policyHash, runtimeHash))
  }

  const APPROVAL_VERBS: seq<Verb> := [M.Approve, M.Deny, M.Clarify, M.OpenReview]

  function ApprovalItem(a: ApprovalView): Item {
    Item(M.ApprovalRequest, a.id, LinksFor(ApprovalTarget(a.id), APPROVAL_VERBS, a.policyHash, a.runtimeHash))
  }

  function Supported(allowed: seq<Verb>): seq<Verb> {
    if allowed == [] then []
    else
      var last := allowed[|allowed| - 1];
      Supported(allowed[..|allowed| - 1]) + (if IntakeVerb(last) then [last] else [])
  }

  /** `emailSupportedReviewActions`. */
  function ReviewVerbs(e: M.Entry): seq<Verb> {
    if !e.kind.IntakeReview? || !e.underReview then [M.OpenReview] else Supported(e.allowed) + [M.OpenReview]
  }

  function TargetOf(kind: M.Kind, id: int): Target {
    match kind
    case IntakeReview => IntakeTarget(id)
    case ApprovalRequest => ApprovalTarget(id)
    case _ => OtherTarget(id)
  }

  function ReviewItem(e: M.Entry): Item {
    Item(e.kind, e.id, LinksFor(TargetOf(e.kind, e.id), ReviewVerbs(e), "", ""))
  }

  function FromApprovals(approvals: seq<ApprovalView>): seq<Item> {
    if approvals == [] then []
    else
      var last := approvals[|approvals| - 1];
      FromApprovals(approvals[..|approvals| - 1]) + (if last.pending then [ApprovalItem(last)] else [])
  }

  function Unseen(reviews: seq<M.Entry>, seen: set<(M.Kind, int)>): seq<M.Entry> {
    if reviews == [] then []
    else
      var last := reviews[|reviews| - 1];
      Unseen(reviews[..|reviews| - 1], seen) + (if M.KeyOf(last) in seen then [] else [last])
  }

  function FromReviews(reviews: seq<M.Entry>): seq<Item> {
    seq(|reviews|, i requires 0 <= i < |reviews| => ReviewItem(reviews[i]))
  }

  function Keys(items: seq<Item>): set<(M.Kind, int)> { set i | 0 <= i < |items| :: ItemKey(items[i]) }

  /** The email: the pending approvals, then whatever else the review queue holds. */
  function Emitted(approvals: seq<ApprovalView>, reviews: seq<M.Entry>): seq<Item> {
    var first := FromApprovals(approvals);
    first + FromReviews(Unseen(reviews, Keys(first)))
  }

  method SupportedReviewActions(e: M.Entry) returns (actions: seq<Verb>)
    ensures actions == ReviewVerbs(e)
  {
    if !e.kind.IntakeReview? || !e.underReview {
      return [M.OpenReview];
    }
    actions := [];
    for n := 0 to |e.allowed|
      invariant actions == Supported(e.allowed[..n])
    {
      assert e.allowed[..n + 1][..n] == e.allowed[..n] && e.allowed[..n + 1][n] == e.allowed[n];
      if IntakeVerb(e.allowed[n]) {
        actions := actions + [e.allowed[n]];
      }
    }
    assert e.allowed[..|e.allowed|] == e.allowed;
    actions := actions + [M.OpenReview];
  }

  /** `emailActionItems`; queue ids stand for the kind and row they name. */
  method EmailActionItems(approvals: seq<ApprovalView>, reviews: seq<M.Entry>) returns (items: seq<Item>)
    ensures items == Emitted(approvals, reviews)
  {
    items := [];
    for n := 0 to |approvals|
      invariant items == FromApprovals(approvals[..n])
    {
      assert approvals[..n + 1][..n] == approvals[..n] && approvals[..n + 1][n] == approvals[n];
      if approvals[n].pending {
        items := items + [ApprovalItem(approvals[n])];
      }
    }
    assert approvals[..|approvals|] == approvals;
    var first := items;
    var seen: set<(M.Kind, int)> := {};
    for n := 0 to |first|
      invariant seen == Keys(first[..n])
    {
      assert first[..n + 1] == first[..n] + [first[n]];
      KeysSnoc(first[..n], first[n]);
      seen := seen + {ItemKey(first[n])};
    }
    assert first[..|first|] == first;
    for n := 0 to |reviews|
      invariant items == first + FromReviews(Unseen(reviews[..n], seen))
    {
      var review := reviews[n];
      assert reviews[..n + 1][..n] == reviews[..n] && reviews[..n + 1][n] == review;
      if M.KeyOf(review) !in seen {
        var actions := SupportedReviewActions(review);
        items := items + [Item(review.kind, review.id, LinksFor(TargetOf(review.kind, review.id), actions, "", ""))];
        assert FromReviews(Unseen(reviews[..n], seen) + [review])
            == FromReviews(Unseen(reviews[..n], seen)) + [ReviewItem(review)];
      }
    }
    assert reviews[..|reviews|] == reviews;
  }

  lemma {:induction false} KeysSnoc(items: seq<Item>, item: Item)
    ensures Keys(items + [item]) == Keys(items) + {ItemKey(item)}
  {
    var more := items + [item];
    forall k | k in Keys(items) + {ItemKey(item)} ensures k in Keys(more) {
      if k in Keys(items) {
        var i :| 0 <= i < |items| && ItemKey(items[i]) == k;
        assert ItemKey(more[i]) == k;
      } else {
        assert ItemKey(more[|items|]) == k;
      }
    }
  }

  // ---------------------------------------------------------------- nothing is left out

  lemma {:induction false} LinksForVerbs(target: Target, verbs: seq<Verb>, policyHash: string, runtimeHash: string, req: Request)
    ensures req in LinksFor(target, verbs, policyHash, runtimeHash)
       <==> req.verb in verbs && req == Request(target, req.verb, policyHash, runtimeHash)
  {
    var links := LinksFor(target, verbs, policyHash, runtimeHash);
    if req.verb in verbs && req == Request(target, req.verb, policyHash, runtimeHash) {
      var i :| 0 <= i < |verbs| && verbs[i] == req.verb;
      assert links[i] == req;
    }
  }

  /** A line for an approval offers the three decisions and a look at it, for the snapshots it was read with. */
  ghost predicate ApprovalLine(a: ApprovalView, x: Item) {
    && x.kind == M.ApprovalRequest && x.id == a.id
    && forall req: Request :: req in x.links <==>
         && req == Request(ApprovalTarget(a.id), req.verb, a.policyHash, a.runtimeHash)
         && req.verb in {M.Approve, M.Deny, M.Clarify, M.OpenReview}
  }

  /** A line for a queue item offers a look at it, and for an intake item under review also what it allows of
    * rejecting, clarifying and archiving. */
  ghost predicate ReviewLine(e: M.Entry, x: Item) {
    && x.kind == e.kind && x.id == e.id
    && forall req: Request :: req in x.links <==>
         && req == Request(TargetOf(e.kind, e.id), req.verb, "", "")
         && (|| req.verb == M.OpenReview
             || (e.kind.IntakeReview? && e.underReview && req.verb in e.allowed && req.verb in {M.Reject, M.Clarify, M.Archive}))
  }

  lemma {:induction false} SupportedExact(allowed: seq<Verb>, v: Verb)
    ensures v in Supported(allowed) <==> v in allowed && v in {M.Reject, M.Clarify, M.Archive}
  {
    if allowed != [] {
      SupportedExact(allowed[..|allowed| - 1], v);
      assert allowed == allowed[..|allowed| - 1] + [allowed[|allowed| - 1]];
    }
  }

  lemma {:induction false} LinesExact(a: ApprovalView, e: M.Entry)
    ensures ApprovalLine(a, ApprovalItem(a)) && ReviewLine(e, ReviewItem(e))
  {
    forall req: Request
      ensures req in ApprovalItem(a).links <==>
                && req == Request(ApprovalTarget(a.id), req.verb, a.policyHash, a.runtimeHash)
                && req.verb in {M.Approve, M.Deny, M.Clarify, M.OpenReview}
      ensures req in ReviewItem(e).links <==>
                && req == Request(TargetOf(e.kind, e.id), req.verb, "", "")
                && (|| req.verb == M.OpenReview
                    || (e.kind.IntakeReview? && e.underReview && req.verb in e.allowed && req.verb in {M.Reject, M.Clarify, M.Archive}))
    {
      LinksForVerbs(ApprovalTarget(a.id), APPROVAL_VERBS, a.policyHash, a.runtimeHash, req);
      LinksForVerbs(TargetOf(e.kind, e.id), ReviewVerbs(e), "", "", req);
      SupportedExact(e.allowed, req.verb);
    }
  }

  predicate HasPending(approvals: seq<ApprovalView>, x: Item) {
    exists a | a in approvals :: a.pending && x == ApprovalItem(a)
  }

  lemma {:induction false} PendingExact(approvals: seq<ApprovalView>, x: Item)
    ensures x in FromApprovals(approvals) <==> HasPending(approvals, x)
  {
    if approvals != [] {
      var before, last := approvals[..|approvals| - 1], approvals[|approvals| - 1];
      PendingExact(before, x);
      assert approvals == before + [last];
      if a :| a in approvals && a.pending && x == ApprovalItem(a) {
        assert a in before || a == last;
      }
    }
  }

  lemma {:induction false} UnseenExact(reviews: seq<M.Entry>, seen: set<(M.Kind, int)>, e: M.Entry)
    ensures e in Unseen(reviews, seen) <==> e in reviews && M.KeyOf(e) !in seen
  {
    if reviews != [] {
      var before, last := reviews[..|reviews| - 1], reviews[|reviews| - 1];
      assert reviews == before + [last];
      UnseenExact(before, seen, e);
    }
  }

  /** The queue item is a pending approval, which has a line of its own. */
  predicate IsPendingApproval(approvals: seq<ApprovalView>, e: M.Entry) {
    e.kind.ApprovalRequest? && exists a | a in approvals :: a.pending && a.id == e.id
  }

  lemma {:induction false} SeenExact(approvals: seq<ApprovalView>, e: M.Entry)
    ensures M.KeyOf(e) in Keys(FromApprovals(approvals)) <==> IsPendingApproval(approvals, e)
  {
    var first := FromApprovals(approvals);
    if M.KeyOf(e) in Keys(first) {
      var i :| 0 <= i < |first| && ItemKey(first[i]) == M.KeyOf(e);
      PendingExact(approvals, first[i]);
      assert first[i] in first;
    }
    if a :| a in approvals && e.kind.ApprovalRequest? && a.pending && a.id == e.id {
      PendingExact(approvals, ApprovalItem(a));
      var i :| 0 <= i < |first| && first[i] == ApprovalItem(a);
      assert ItemKey(first[i]) == M.KeyOf(e);
    }
  }

  /** The email holds the line of every pending approval and of every other item of the review queue, and
    * nothing else. */
  lemma {:induction false} EmailExact(approvals: seq<ApprovalView>, reviews: seq<M.Entry>, x: Item)
    ensures x in Emitted(approvals, reviews)
       <==> || (exists a | a in approvals :: a.pending && x == ApprovalItem(a))
            || (exists e | e in reviews :: !IsPendingApproval(approvals, e) && x == ReviewItem(e))
  {
    var first := FromApprovals(approvals);
    var unseen := Unseen(reviews, Keys(first));
    var rest := FromReviews(unseen);
    PendingExact(approvals, x);
    forall e ensures e in unseen <==> e in reviews && !IsPendingApproval(approvals, e) {
      UnseenExact(reviews, Keys(first), e);
      SeenExact(approvals, e);
    }
    hide FromApprovals, Unseen, Keys, IsPendingApproval, ApprovalItem, ReviewItem;
    if e :| e in unseen && x == ReviewItem(e) {
      var i :| 0 <= i < |unseen| && unseen[i] == e;
      assert rest[i] == x;
    }
    if i :| 0 <= i < |rest| && rest[i] == x {
      assert unseen[i] in unseen && x == ReviewItem(unseen[i]);
    }
  }

  // ---------------------------------------------------------------- distinct lines

  predicate DistinctApprovals(approvals: seq<ApprovalView>) {
    forall i, j | 0 <= i < j < |approvals| :: approvals[i].id != approvals[j].id
  }

  lemma {:induction false} ApprovalItemsDistinct(approvals: seq<ApprovalView>)
    requires DistinctApprovals(approvals)
    ensures Unique(FromApprovals(approvals), ItemKey)
    ensures forall x | x in FromApprovals(approvals) :: exists a | a in approvals :: a.pending && x == ApprovalItem(a)
  {
    if approvals != [] {
      var before, last := approvals[..|approvals| - 1], approvals[|approvals| - 1];
      ApprovalItemsDistinct(before);
      var a := FromApprovals(before);
      assert forall i | 0 <= i < |a| :: a[i] in a;
      forall x | x in FromApprovals(approvals) ensures exists v | v in approvals :: v.pending && x == ApprovalItem(v) {
        if x in a {
          var v :| v in before && v.pending && x == ApprovalItem(v);
          assert v in approvals;
        } else {
          assert last in approvals;
        }
      }
    }
  }

  lemma {:induction false} UnseenSound(reviews: seq<M.Entry>, seen: set<(M.Kind, int)>)
    ensures forall e | e in Unseen(reviews, seen) :: e in reviews && M.KeyOf(e) !in seen
    ensures Unique(reviews, M.KeyOf) ==> Unique(Unseen(reviews, seen), M.KeyOf)
  {
    if reviews != [] {
      var before, last := reviews[..|reviews| - 1], reviews[|reviews| - 1];
      UnseenSound(before, seen);
      var u := Unseen(before, seen);
      assert forall i | 0 <= i < |u| :: u[i] in u;
    }
  }

  lemma {:induction false} SameKeys(rest: seq<M.Entry>)
    ensures Unique(FromReviews(rest), ItemKey) <==> Unique(rest, M.KeyOf)
  {
    var items := FromReviews(rest);
    assert forall i | 0 <= i < |rest| :: ItemKey(items[i]) == M.KeyOf(rest[i]);
  }

  /** Skipping what was seen is enough: with distinct approvals, the email's lines are distinct exactly
    * when the queue lists no unseen item twice. */
  lemma {:induction false} LinesDistinctExactly(approvals: seq<ApprovalView>, reviews: seq<M.Entry>)
    requires DistinctApprovals(approvals)
    ensures Unique(Emitted(approvals, reviews), ItemKey) <==> Unique(Unseen(reviews, Keys(FromApprovals(approvals))), M.KeyOf)
  {
    var first := FromApprovals(approvals);
    var unseen := Unseen(reviews, Keys(first));
    var rest := FromReviews(unseen);
    ApprovalItemsDistinct(approvals);
    UnseenSound(reviews, Keys(first));
    hide FromApprovals, Unseen, Unique;
    SameKeys(unseen);
    forall i, j | 0 <= i < |first| && 0 <= j < |rest| ensures ItemKey(first[i]) != ItemKey(rest[j]) {
      assert unseen[j] in unseen && ItemKey(rest[j]) == M.KeyOf(unseen[j]);
      assert ItemKey(first[i]) in Keys(first);
    }
    if Unique(first + rest, ItemKey) {
      UniqueRest(first, rest, ItemKey);
    }
    if Unique(rest, ItemKey) {
      UniqueAppend(first, rest, ItemKey);
    }
  }

  predicate PositiveIDs(items: seq<Item>) { forall i | 0 <= i < |items| :: items[i].id >= 0 }

  /** The queue ids of one email's lines are distinct, whenever its approvals and queue were read; the
    * two need not have been read at the same instant. */
  lemma {:induction false} QueueIDsDistinct(approvals: seq<ApprovalView>, rows: M.Rows)
    requires DistinctApprovals(approvals) && M.Keyed(rows) && PositiveIDs(Emitted(approvals, M.Listing(rows)))
    ensures var items := Emitted(approvals, M.Listing(rows));
            forall i, j | 0 <= i < j < |items| :: M.QueueID(items[i].kind, items[i].id) != M.QueueID(items[j].kind, items[j].id)
  {
    var reviews := M.Listing(rows);
    M.ListingUnique(rows);
    UnseenSound(reviews, Keys(FromApprovals(approvals)));
    LinesDistinctExactly(approvals, reviews);
    var items := Emitted(approvals, reviews);
    hide M.Listing, Emitted, M.QueueID;
    forall i, j | 0 <= i < j < |items|
      ensures M.QueueID(items[i].kind, items[i].id) != M.QueueID(items[j].kind, items[j].id)
    {
      if M.QueueID(items[i].kind, items[i].id) == M.QueueID(items[j].kind, items[j].id) {
        M.QueueIDInjective(items[i].kind, items[i].id, items[j].kind, items[j].id);
      }
    }
  }

  // ---------------------------------------------------------------- links are honoured

  function DecideApproval(db: Db, id: int, verb: Verb): Db
    requires id in db.approvals
  {
    db.(approvals := db.approvals[id := db.approvals[id].(status := Resolution(verb))],
        log := db.log + [DecidedByEmail(ApprovalTarget(id))])
  }

  function DecideIntake(db: Db, id: int, verb: Verb): Db {
    db.(intake := db.intake[id := Disposition(verb)], log := db.log + [DecidedByEmail(IntakeTarget(id))])
  }

  /** A link to an approval that is still as it was when the email was written is honoured exactly
    * when the resolver and the store allow its action; otherwise nothing changes. */
  lemma {:induction false} ApprovalLinkHonoured(a: ApprovalView, req: Request, db: Db)
    requires req in ApprovalItem(a).links && !req.verb.OpenReview?
    requires a.id in db.approvals
    requires var row := db.approvals[a.id];
             row.status.Pending? && row.policyHash == a.policyHash && row.runtimeHash == a.runtimeHash
    ensures var row := db.approvals[a.id];
            var honoured := row.supported && (req.verb.Approve? ==> row.current && !row.runBusy);
            Uninterrupted(db, Present(db, req)) == if honoured then DecideApproval(db, a.id, req.verb) else db
  {
    var i :| 0 <= i < |ApprovalItem(a).links| && ApprovalItem(a).links[i] == req;
    assert req.verb == APPROVAL_VERBS[i];
    assert Present(db, req) == ApprovalSeen(req);
    var row := db.approvals[a.id];
    if ResolverAllows(req.verb, row) {
      assert Uninterrupted(db, ApprovalSeen(req)) == Uninterrupted(db, ApprovalChecked(req));
      assert Uninterrupted(db, ApprovalChecked(req)) == Next(db, ApprovalChecked(req)).0;
    }
  }

  lemma {:induction false} SupportedSound(allowed: seq<Verb>)
    ensures forall v | v in Supported(allowed) :: v in allowed && IntakeVerb(v)
  {
    if allowed != [] { SupportedSound(allowed[..|allowed| - 1]); }
  }

  /** A link to a queue item either only opens it, or decides an intake item, and then it is honoured
    * whenever that item is still under review. */
  lemma {:induction false} ReviewLinkHonoured(e: M.Entry, req: Request, db: Db)
    requires req in ReviewItem(e).links
    ensures !req.verb.OpenReview? ==> e.kind.IntakeReview? && e.underReview && req.verb in e.allowed
    ensures Uninterrupted(db, Present(db, req))
         == if !req.verb.OpenReview? && e.id in db.intake && db.intake[e.id].ReviewRequired?
            then DecideIntake(db, e.id, req.verb) else db
  {
    var i :| 0 <= i < |ReviewItem(e).links| && ReviewItem(e).links[i] == req;
    assert req.verb == ReviewVerbs(e)[i] && req.target == TargetOf(e.kind, e.id);
    SupportedSound(e.allowed);
    hide Supported;
    if Present(db, req).IntakeSeen? {
      assert Uninterrupted(db, IntakeSeen(req)) == Uninterrupted(DecideIntake(db, e.id, req.verb), Idle);
    }
  }

  /** The actions that links of an email carry. */
  const LINK_VERBS: set<Verb> := {M.Approve, M.Deny, M.Clarify, M.Reject, M.Archive, M.OpenReview}

  predicate LinksFit(x: Item) {
    forall i | 0 <= i < |x.links| :: x.links[i].target == TargetOf(x.kind, x.id) && x.links[i].verb in LINK_VERBS
  }

  /** Every link of every line is for the line's own row and carries one of these actions. */
  lemma {:induction false} EmittedLinksFit(approvals: seq<ApprovalView>, reviews: seq<M.Entry>)
    requires DistinctApprovals(approvals)
    ensures forall x | x in Emitted(approvals, reviews) :: LinksFit(x)
  {
    ApprovalItemsDistinct(approvals);
    var rest := Unseen(reviews, Keys(FromApprovals(approvals)));
    hide FromApprovals, Unseen;
    forall x | x in Emitted(approvals, reviews) ensures LinksFit(x) {
      if x in FromApprovals(approvals) {
        var a :| a in approvals && a.pending && x == ApprovalItem(a);
      } else {
        var i :| 0 <= i < |rest| && x == ReviewItem(rest[i]);
        ReviewVerbsFit(rest[i]);
      }
    }
  }

  lemma {:induction false} ReviewVerbsFit(e: M.Entry)
    ensures LinksFit(ReviewItem(e))
  {
    SupportedSound(e.allowed);
    hide Supported;
    var verbs := ReviewVerbs(e);
    forall i | 0 <= i < |verbs| ensures verbs[i] in LINK_VERBS {
      if i < |verbs| - 1 {
        assert verbs[i] in Supported(e.allowed);
      }
    }
  }
}
