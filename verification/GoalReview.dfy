/** Goal reviews: approving and rejecting goals, one store transaction at a time. */
module GoalReview {
  import opened Counting
  import opened Wrappers
  import Decimal

  // ---------------------------------------------------------------- the store

  datatype Status =
    | Created | Planned | Approved | Running | Verifying | Completed
    | Blocked | WaitingForHuman | WaitingForExternal

  datatype Actor = Review | Other

  datatype Event =
    | Changed(goal: int, from: Status, to: Status, actor: Actor)
    | BlockerRecorded(goal: int)
    | ReviewApproved(goal: int, kind: Kind)
    | ReviewRejected(goal: int)

  datatype Intake = Intake(goalID: Option<int>, draft: bool)
  datatype Task = Task(key: string, goal: int)

  datatype Db = Db(
    goals: map<int, Status>, nextGoal: int, intake: map<int, Intake>,
    openBlockers: seq<int>, history: seq<Event>, tasks: seq<Task>)

  const EMPTY := Db(map[], 1, map[], [], [], [])

  /** `isAllowedGoalTransition`. */
  predicate Allowed(from: Status, to: Status) {
    if from == to then true
    else if from.Completed? then false
    else if to.Blocked? || to.WaitingForHuman? || to.WaitingForExternal? then true
    else match from
      case Created => to.Planned?
      case Planned => to.Approved?
      case Approved => to.Running?
      case Running => to.Verifying?
      case Verifying => to.Completed? || to.Running?
      case _ => to.Planned? || to.Running?
  }

  predicate CanTransition(db: Db, g: int, to: Status) { g in db.goals && Allowed(db.goals[g], to) }

  predicate Paused(st: Status) { st == Blocked || st == WaitingForHuman || st == WaitingForExternal }

  /** The moves between different statuses, in full: one way from created to completed, back from verifying to
    * running, a pause from anywhere but the end, and out of a pause to planned or running. */
  lemma {:induction false} AllowedExact(from: Status, to: Status)
    ensures Allowed(from, to) <==>
              || from == to
              || (from, to) in {(Created, Planned), (Planned, Approved), (Approved, Running), (Running, Verifying),
                                (Verifying, Completed), (Verifying, Running)}
              || (from != Completed && Paused(to))
              || (Paused(from) && to in {Planned, Running})
  {
  }

  /** `TransitionGoal`: the current status is read, checked and replaced in one transaction; a
    * transition to the current status succeeds and records nothing. */
  function Transition(db: Db, g: int, to: Status, actor: Actor): Db
    requires CanTransition(db, g, to)
  {
    if db.goals[g] == to then db
    else db.(goals := db.goals[g := to], history := db.history + [Changed(g, db.goals[g], to, actor)])
  }

  function CreateGoal(db: Db): Db {
    db.(goals := db.goals[db.nextGoal := Created], nextGoal := db.nextGoal + 1)
  }

  function AddBlocker(db: Db, g: int): Db {
    db.(openBlockers := db.openBlockers + [g], history := db.history + [BlockerRecorded(g)])
  }

  function Record(db: Db, e: Event): Db { db.(history := db.history + [e]) }

  function DeliveryKey(g: int): string
    requires g >= 0
  {
    "goal-" + Decimal.Format(g) + "-approved-delivery"
  }

  /** `CreateTaskOnce`: a task with the key is kept; otherwise one is inserted.  The tasks table's
    * unique key makes the look-up and the insertion one decision. */
  function CreateTaskOnce(db: Db, key: string, g: int): Db {
    if exists t | t in db.tasks :: t.key == key then db
    else db.(tasks := db.tasks + [Task(key, g)])
  }

  // ---------------------------------------------------------------- a review, step by step

  datatype Verdict = Approve | Reject(reasonGiven: bool)
  datatype Kind = GoalRef | GoalApprovalRef | IntakeGoalRef

  /** Where a review stands between two store transactions. */
  datatype Phase =
    | Idle
    | Linking(verdict: Verdict, item: int, goal: int)
    | Fetching(verdict: Verdict, kind: Kind, goal: int)
    | Chosen(verdict: Verdict, kind: Kind, goal: int, seen: Status)
    | Approving(kind: Kind, goal: int)
    | RecordingApproval(kind: Kind, goal: int)
    | Delivering(goal: int)
    | Blocking(goal: int)
    | RecordingRejection(goal: int)

  predicate Reviewable(st: Status) { st.Created? || st.Planned? }

  /** The queue id is resolved: an intake item without a goal gets a new one. */
  function Open(db: Db, verdict: Verdict, kind: Kind, id: int): (Db, Phase) {
    if verdict.Reject? && !verdict.reasonGiven then (db, Idle)
    else if !kind.IntakeGoalRef? then (db, Fetching(verdict, kind, id))
    else if id !in db.intake then (db, Idle)
    else match db.intake[id].goalID
      case Some(g) => (db, Fetching(verdict, kind, g))
      case None =>
        if db.intake[id].draft then (CreateGoal(db), Linking(verdict, id, db.nextGoal)) else (db, Idle)
  }

  function TryTransition(db: Db, g: int, to: Status, next: Phase): (Db, Phase) {
    if CanTransition(db, g, to) then (Transition(db, g, to, Review), next) else (db, Idle)
  }

  /** The next store transaction of a review. */
  function Next(db: Db, phase: Phase): (Db, Phase) {
    match phase
    case Idle => (db, Idle)
    case Linking(verdict, item, g) =>
      if item in db.intake
      then (db.(intake := db.intake[item := db.intake[item].(goalID := Some(g))]), Chosen(verdict, IntakeGoalRef, g, Created))
      else (db, Idle)
    case Fetching(verdict, kind, g) =>
      if g in db.goals then (db, Chosen(verdict, kind, g, db.goals[g])) else (db, Idle)
    case Chosen(verdict, kind, g, seen) =>
      if !Reviewable(seen) then (db, Idle)
      else if verdict.Approve? then
        if seen.Created? then TryTransition(db, g, Planned, Approving(kind, g))
        else TryTransition(db, g, Approved, RecordingApproval(kind, g))
      else if g in db.goals then (AddBlocker(db, g), Blocking(g))
      else (db, Idle)
    case Approving(kind, g) => TryTransition(db, g, Approved, RecordingApproval(kind, g))
    case RecordingApproval(kind, g) =>
      (Record(db, ReviewApproved(g, kind)), if kind.GoalApprovalRef? then Delivering(g) else Idle)
    case Delivering(g) => if g > 0 then (CreateTaskOnce(db, DeliveryKey(g), g), Idle) else (db, Idle)
    case Blocking(g) => TryTransition(db, g, Blocked, RecordingRejection(g))
    case RecordingRejection(g) => (Record(db, ReviewRejected(g)), Idle)
  }

  function Remaining(phase: Phase): nat {
    match phase
    case Idle => 0
    case Linking(_, _, _) => 6
    case Fetching(_, _, _) => 6
    case Chosen(_, _, _, _) => 5
    case Approving(_, _) => 4
    case RecordingApproval(_, _) => 3
    case Delivering(_) => 1
    case Blocking(_) => 2
    case RecordingRejection(_) => 1
  }

  /** A review carried through with nothing in between. */
  function Uninterrupted(db: Db, phase: Phase): Db
    decreases Remaining(phase)
  {
    if phase.Idle? then db else var (d, p) := Next(db, phase); Uninterrupted(d, p)
  }

  /** What a review from a queue id leaves, with nothing in between. */
  function Reviewed(db: Db, verdict: Verdict, kind: Kind, id: int): Db {
    var (d, p) := Open(db, verdict, kind, id);
    Uninterrupted(d, p)
  }

  class ReviewStore {
    var db: Db

    constructor (start: Db)
      ensures db == start
    {
      db := start;
    }

    method TransitionGoal(g: int, to: Status, actor: Actor) returns (ok: bool)
      modifies this
      ensures ok == old(CanTransition(db, g, to))
      ensures db == if ok then Transition(old(db), g, to, actor) else old(db)
    {
      if g !in db.goals || !Allowed(db.goals[g], to) {
        return false;
      }
      var current := db.goals[g];
      if current != to {
        db := db.(goals := db.goals[g := to], history := db.history + [Changed(g, current, to, actor)]);
      }
      return true;
    }

    /** The goal that a queue id stands for, created and linked if the item is a draft. */
    method ResolveGoal(verdict: Verdict, kind: Kind, id: int) returns (goal: Option<(int, Status)>)
      requires verdict.Reject? ==> verdict.reasonGiven
      modifies this
      ensures var (d, p) := Open(old(db), verdict, kind, id);
              match goal
              case None => Uninterrupted(d, p) == db
              case Some((g, st)) => Uninterrupted(d, p) == Uninterrupted(db, Chosen(verdict, kind, g, st))
    {
      var g := id;
      if kind.IntakeGoalRef? {
        if id !in db.intake {
          return None;
        }
        var item := db.intake[id];
        if item.goalID.None? {
          if !item.draft {
            return None;
          }
          var created := db.nextGoal;
          db := CreateGoal(db);
          db := db.(intake := db.intake[id := item.(goalID := Some(created))]);
          return Some((created, Created));
        }
        g := item.goalID.value;
      }
      if g !in db.goals {
        return None;
      }
      return Some((g, db.goals[g]));
    }

    method RejectGoalReviewItem(kind: Kind, id: int, reasonGiven: bool)
      modifies this
      ensures db == Reviewed(old(db), Reject(reasonGiven), kind, id)
    {
      if !reasonGiven {
        return;
      }
      var goal := ResolveGoal(Reject(true), kind, id);
      if goal.None? {
        return;
      }
      var (g, st) := goal.value;
      if !Reviewable(st) || g !in db.goals {
        return;
      }
      ghost var outcome := Uninterrupted(db, Chosen(Reject(true), kind, g, st));
      db := AddBlocker(db, g);
      assert outcome == Uninterrupted(db, Blocking(g));
      var ok := TransitionGoal(g, Blocked, Review);
      if ok {
        assert outcome == Uninterrupted(db, RecordingRejection(g));
        db := Record(db, ReviewRejected(g));
      }
      assert outcome == Uninterrupted(db, Idle);
    }

    method ApproveGoalReviewItem(kind: Kind, id: int)
      modifies this
      ensures db == Reviewed(old(db), Approve, kind, id)
    {
      var goal := ResolveGoal(Approve, kind, id);
      if goal.None? {
        return;
      }
      var (g, st) := goal.value;
      if !Reviewable(st) {
        return;
      }
      ghost var outcome := Uninterrupted(db, Chosen(Approve, kind, g, st));
      if st.Created? {
        var planned := TransitionGoal(g, Planned, Review);
        if !planned {
          return;
        }
        assert outcome == Uninterrupted(db, Approving(kind, g));
      }
      var approved := TransitionGoal(g, Approved, Review);
      if !approved {
        return;
      }
      assert outcome == Uninterrupted(db, RecordingApproval(kind, g));
      db := Record(db, ReviewApproved(g, kind));
      assert outcome == Uninterrupted(db, if kind.GoalApprovalRef? then Delivering(g) else Idle);
      if kind.GoalApprovalRef? && g > 0 {
        db := CreateTaskOnce(db, DeliveryKey(g), g);
      }
      assert outcome == Uninterrupted(db, Idle);
    }
  }

  // ---------------------------------------------------------------- interleaved reviews

  datatype State = State(db: Db, clients: map<int, Phase>)
  {
    function At(c: int): Phase { if c in clients then clients[c] else Idle }
  }

  /** A review begins, takes its next transaction, or gives up after a store error; anyone else
    * changes a goal's status, creates a goal or rewrites an intake item. */
  datatype Action =
    | Begin(client: int, verdict: Verdict, kind: Kind, id: int)
    | Advance(client: int)
    | Fail(client: int)
    | ChangeStatus(goal: int, to: Status)
    | NewGoal
    | SetIntake(item: int, row: Intake)

  function Do(s: State, a: Action): State {
    match a
    case Begin(c, verdict, kind, id) =>
      if s.At(c).Idle? then var (d, p) := Open(s.db, verdict, kind, id); State(d, s.clients[c := p]) else s
    case Advance(c) => var (d, p) := Next(s.db, s.At(c)); State(d, s.clients[c := p])
    case Fail(c) => State(s.db, s.clients[c := Idle])
    case ChangeStatus(g, to) =>
      if CanTransition(s.db, g, to) then s.(db := Transition(s.db, g, to, Other)) else s
    case NewGoal => s.(db := CreateGoal(s.db))
    case SetIntake(item, row) => s.(db := s.db.(intake := s.db.intake[item := row]))
  }

  /** Nothing is ruled out: an intake item can be given any content, goals appear and move wherever the table allows,
    * and a review can stop between any two transactions. */
  lemma {:induction false} StepsArePossible(s: State, c: int, g: int, to: Status, item: int, row: Intake)
    ensures Do(s, SetIntake(item, row)) == s.(db := s.db.(intake := s.db.intake[item := row]))
    ensures Do(s, NewGoal).db.goals == s.db.goals[s.db.nextGoal := Created]
    ensures g in s.db.goals && Allowed(s.db.goals[g], to) ==> Do(s, ChangeStatus(g, to)).db.goals == s.db.goals[g := to]
    ensures var t := Do(s, Fail(c)); t.db == s.db && t.At(c) == Idle && forall k | k != c :: t.At(k) == s.At(k)
  {
  }

  datatype Run = Start | Then(before: Run, action: Action)

  function Exec(r: Run): State {
    match r
    case Start => State(EMPTY, map[])
    case Then(before, a) => Do(Exec(before), a)
  }

  // ---------------------------------------------------------------- what every interleaving keeps

  predicate ChangedTo(h: seq<Event>, g: int, from: Status, to: Status) {
    Changed(g, from, to, Review) in h || Changed(g, from, to, Other) in h
  }

  /** The goal has been in this status. */
  predicate Reached(h: seq<Event>, g: int, st: Status) {
    st.Created? || exists from :: ChangedTo(h, g, from, st)
  }

  /** The status the history leaves a goal in. */
  function StatusAfter(h: seq<Event>, g: int): Status {
    if h == [] then Created
    else
      var last := h[|h| - 1];
      if last.Changed? && last.goal == g then last.to else StatusAfter(h[..|h| - 1], g)
  }

  /** What must already have happened when an event is recorded. */
  predicate Justified(before: seq<Event>, e: Event) {
    match e
    case Changed(g, from, to, actor) =>
      && from == StatusAfter(before, g) && from != to && Allowed(from, to)
      && (actor.Review? && to.Blocked? ==> BlockerRecorded(g) in before)
    case BlockerRecorded(_) => true
    case ReviewApproved(g, _) => Reached(before, g, Planned) && ChangedTo(before, g, Planned, Approved)
    case ReviewRejected(g) => BlockerRecorded(g) in before && Reached(before, g, Blocked)
  }

  predicate Sound(h: seq<Event>) {
    forall i | 0 <= i < |h| :: Justified(h[..i], h[i])
  }

  /** What a review that is under way can rely on, whatever the others do. */
  predicate Earned(h: seq<Event>, phase: Phase) {
    match phase
    case RecordingApproval(_, g) => Reached(h, g, Planned) && ChangedTo(h, g, Planned, Approved)
    case Delivering(g) => ReviewApproved(g, GoalApprovalRef) in h
    case Blocking(g) => BlockerRecorded(g) in h
    case RecordingRejection(g) => BlockerRecorded(g) in h && Reached(h, g, Blocked)
    case _ => true
  }

  predicate GoalsMatch(db: Db) {
    forall g | g in db.goals :: db.goals[g] == StatusAfter(db.history, g) && 1 <= g < db.nextGoal
  }

  predicate FreshAhead(db: Db) {
    db.nextGoal >= 1 && forall i | 0 <= i < |db.history| :: db.history[i].goal < db.nextGoal
  }

  predicate BlockersOpen(db: Db) {
    forall i | 0 <= i < |db.history| && db.history[i].BlockerRecorded? :: db.history[i].goal in db.openBlockers
  }

  predicate TasksSound(db: Db) {
    && (forall i | 0 <= i < |db.tasks| ::
          var t := db.tasks[i]; t.goal > 0 && t.key == DeliveryKey(t.goal) && ReviewApproved(t.goal, GoalApprovalRef) in db.history)
    && forall i, j | 0 <= i < j < |db.tasks| :: db.tasks[i].goal != db.tasks[j].goal
  }

  predicate DbInv(db: Db) {
    Sound(db.history) && GoalsMatch(db) && FreshAhead(db) && BlockersOpen(db) && TasksSound(db)
  }

  predicate Inv(s: State) {
    && DbInv(s.db)
    && forall c | c in s.clients :: PhaseInv(s.db, s.clients[c])
  }

  predicate PhaseInv(db: Db, phase: Phase) {
    && Earned(db.history, phase)
    && (phase.RecordingApproval? || phase.RecordingRejection? ==> phase.goal < db.nextGoal)
  }

  /** The store only moves forward: the history grows and ids are never reissued. */
  predicate Grows(d: Db, e: Db) { d.history <= e.history && d.nextGoal <= e.nextGoal }

  lemma {:induction false} EarnedStays(d: Db, e: Db, phase: Phase)
    requires Grows(d, e) && PhaseInv(d, phase)
    ensures PhaseInv(e, phase)
  {
    assert forall x | x in d.history :: x in e.history;
    if phase.RecordingApproval? {
      ReachedStays(d.history, e.history, phase.goal, Planned);
    } else if phase.RecordingRejection? {
      ReachedStays(d.history, e.history, phase.goal, Blocked);
    }
  }

  lemma {:induction false} ReachedStays(h: seq<Event>, k: seq<Event>, g: int, st: Status)
    requires h <= k && Reached(h, g, st)
    ensures Reached(k, g, st)
  {
    if !st.Created? {
      var from :| ChangedTo(h, g, from, st);
      assert forall x | x in h :: x in k;
      assert ChangedTo(k, g, from, st);
    }
  }

  /** A status other than the first one was reached by a recorded change. */
  lemma {:induction false} StatusReached(h: seq<Event>, g: int)
    ensures Reached(h, g, StatusAfter(h, g))
  {
    if h != [] {
      var before, last := h[..|h| - 1], h[|h| - 1];
      if last.Changed? && last.goal == g {
        assert last in h && last == Changed(g, last.from, last.to, if last.actor.Review? then Review else Other);
        assert ChangedTo(h, g, last.from, last.to);
      } else {
        StatusReached(before, g);
        ReachedStays(before, h, g, StatusAfter(before, g));
      }
    }
  }

  lemma {:induction false} NoEventsCreated(h: seq<Event>, g: int)
    requires forall i | 0 <= i < |h| :: h[i].goal < g
    ensures StatusAfter(h, g) == Created
  {
    if h != [] { NoEventsCreated(h[..|h| - 1], g); }
  }

  lemma {:induction false} SoundSnoc(h: seq<Event>, e: Event)
    requires Sound(h) && Justified(h, e)
    ensures Sound(h + [e])
  {
    var k := h + [e];
    forall i | 0 <= i < |k| ensures Justified(k[..i], k[i]) {
      assert k[..i] == if i < |h| then h[..i] else h;
    }
  }

  function Recorded(db: Db, e: Event): Db {
    db.(goals := if e.Changed? then db.goals[e.goal := e.to] else db.goals,
        history := db.history + [e],
        openBlockers := db.openBlockers + (if e.BlockerRecorded? then [e.goal] else []))
  }

  lemma {:induction false} RecordKeepsGoals(db: Db, e: Event)
    requires GoalsMatch(db) && FreshAhead(db) && e.goal < db.nextGoal && (e.Changed? ==> e.goal in db.goals)
    ensures GoalsMatch(Recorded(db, e)) && FreshAhead(Recorded(db, e))
  {
    var k := db.history + [e];
    assert k[..|k| - 1] == db.history;
  }

  lemma {:induction false} RecordKeepsTasks(db: Db, e: Event)
    requires BlockersOpen(db) && TasksSound(db)
    ensures BlockersOpen(Recorded(db, e)) && TasksSound(Recorded(db, e))
  {
    assert forall x | x in db.history :: x in db.history + [e];
  }

  /** Recording a justified event of a known goal, with that goal's status kept in step. */
  lemma {:induction false} RecordKeeps(db: Db, e: Event)
    requires DbInv(db) && Justified(db.history, e) && e.goal < db.nextGoal && (e.Changed? ==> e.goal in db.goals)
    ensures DbInv(Recorded(db, e)) && Grows(db, Recorded(db, e))
  {
    SoundSnoc(db.history, e);
    hide Sound, Justified, GoalsMatch, FreshAhead, BlockersOpen, TasksSound;
    RecordKeepsGoals(db, e);
    RecordKeepsTasks(db, e);
  }

  lemma {:induction false} TransitionKeeps(db: Db, g: int, to: Status, actor: Actor)
    requires DbInv(db) && CanTransition(db, g, to)
    requires actor.Review? && to.Blocked? ==> BlockerRecorded(g) in db.history
    ensures DbInv(Transition(db, g, to, actor)) && Grows(db, Transition(db, g, to, actor))
    ensures StatusAfter(Transition(db, g, to, actor).history, g) == to
  {
    if db.goals[g] != to {
      var e := Changed(g, db.goals[g], to, actor);
      assert Justified(db.history, e);
      RecordKeeps(db, e);
      assert db.openBlockers + [] == db.openBlockers;
      var k := db.history + [e];
      assert k[|k| - 1] == e;
    }
  }

  lemma {:induction false} CreateKeeps(db: Db)
    requires DbInv(db)
    ensures DbInv(CreateGoal(db)) && Grows(db, CreateGoal(db))
  {
    NoEventsCreated(db.history, db.nextGoal);
    hide Sound, StatusAfter;
  }

  lemma {:induction false} DeliveryKeyInjective(g: int, k: int)
    requires g >= 0 && k >= 0 && DeliveryKey(g) == DeliveryKey(k)
    ensures g == k
  {
    var a, b := Decimal.Format(g), Decimal.Format(k);
    assert DeliveryKey(g)[5..5 + |a|] == a;
    assert DeliveryKey(k)[5..5 + |b|] == b;
    assert |DeliveryKey(g)| - |a| == |DeliveryKey(k)| - |b|;
    Decimal.FormatInjective(g, k);
  }

  lemma {:induction false} TaskKeeps(db: Db, g: int)
    requires DbInv(db) && g > 0 && ReviewApproved(g, GoalApprovalRef) in db.history
    ensures var d := CreateTaskOnce(db, DeliveryKey(g), g); DbInv(d) && Grows(db, d)
  {
    hide DeliveryKey, Sound, StatusAfter;
    assert forall i | 0 <= i < |db.tasks| :: db.tasks[i] in db.tasks;
  }

  /** Approval is granted only from planned, so the goal has been planned and approved. */
  lemma {:induction false} ApprovedReached(db: Db, g: int)
    requires DbInv(db) && StatusAfter(db.history, g).Approved?
    ensures Reached(db.history, g, Planned) && ChangedTo(db.history, g, Planned, Approved)
  {
    var h := db.history;
    StatusReached(h, g);
    var from :| ChangedTo(h, g, from, Approved);
    var i :| 0 <= i < |h| && h[i].Changed? && h[i].goal == g && h[i].from == from && h[i].to == Approved;
    assert Justified(h[..i], h[i]);
    assert from == Planned;
    StatusReached(h[..i], g);
    ReachedStays(h[..i], h, g, Planned);
  }

  lemma {:induction false} TryKeeps(db: Db, g: int, to: Status, next: Phase)
    requires DbInv(db)
    requires to.Blocked? ==> BlockerRecorded(g) in db.history && next == RecordingRejection(g)
    requires to.Approved? ==> next.RecordingApproval? && next.goal == g
    requires to.Planned? ==> next.Approving?
    requires to.Planned? || to.Approved? || to.Blocked?
    ensures var (d, p) := TryTransition(db, g, to, next); DbInv(d) && Grows(db, d) && PhaseInv(d, p)
  {
    if CanTransition(db, g, to) {
      TransitionKeeps(db, g, to, Review);
      var d := Transition(db, g, to, Review);
      assert g in db.goals && g < db.nextGoal;
      assert forall x | x in db.history :: x in d.history;
      hide DbInv, Transition;
      if to.Approved? {
        ApprovedReached(d, g);
      } else if to.Blocked? {
        StatusReached(d.history, g);
      }
    }
  }

  lemma {:induction false} DecisionKeeps(db: Db, e: Event)
    requires DbInv(db) && (e.ReviewApproved? || e.ReviewRejected?)
    requires Justified(db.history, e) && e.goal < db.nextGoal
    ensures DbInv(Record(db, e)) && Grows(db, Record(db, e)) && e in Record(db, e).history
  {
    RecordKeeps(db, e);
    assert db.openBlockers + [] == db.openBlockers;
  }

  lemma {:induction false} BlockerKeeps(db: Db, g: int)
    requires DbInv(db) && g in db.goals
    ensures DbInv(AddBlocker(db, g)) && Grows(db, AddBlocker(db, g))
    ensures BlockerRecorded(g) in AddBlocker(db, g).history
  {
    RecordKeeps(db, BlockerRecorded(g));
  }

  lemma {:induction false} LinkKeeps(db: Db, phase: Phase)
    requires DbInv(db) && phase.Linking?
    ensures var (d, p) := Next(db, phase); DbInv(d) && Grows(db, d) && PhaseInv(d, p)
  {
    IntakeKeeps(db, Next(db, phase).0);
  }

  lemma {:induction false} NextKeeps(db: Db, phase: Phase)
    requires DbInv(db) && PhaseInv(db, phase)
    ensures var (d, p) := Next(db, phase); DbInv(d) && Grows(db, d) && PhaseInv(d, p)
  {
    hide DbInv, Record, AddBlocker, TryTransition, CreateTaskOnce, DeliveryKey, Reached, ChangedTo;
    match phase
    case Linking(_, _, _) => LinkKeeps(db, phase);
    case Chosen(verdict, kind, g, seen) =>
      if Reviewable(seen) {
        if verdict.Approve? {
          TryKeeps(db, g, if seen.Created? then Planned else Approved,
            if seen.Created? then Approving(kind, g) else RecordingApproval(kind, g));
        } else if g in db.goals {
          BlockerKeeps(db, g);
        }
      }
    case Approving(kind, g) => TryKeeps(db, g, Approved, RecordingApproval(kind, g));
    case RecordingApproval(kind, g) => DecisionKeeps(db, ReviewApproved(g, kind));
    case Delivering(g) => if g > 0 { TaskKeeps(db, g); }
    case Blocking(g) => TryKeeps(db, g, Blocked, RecordingRejection(g));
    case RecordingRejection(g) => DecisionKeeps(db, ReviewRejected(g));
    case _ =>
  }

  lemma {:induction false} OpenKeeps(db: Db, verdict: Verdict, kind: Kind, id: int)
    requires DbInv(db)
    ensures var (d, p) := Open(db, verdict, kind, id); DbInv(d) && Grows(db, d) && PhaseInv(d, p)
  {
    CreateKeeps(db);
  }

  lemma {:induction false} ClientsKeep(s: State, d: Db, clients: map<int, Phase>)
    requires Inv(s) && Grows(s.db, d)
    requires forall c | c in clients :: (c in s.clients && clients[c] == s.clients[c]) || PhaseInv(d, clients[c])
    ensures forall c | c in clients :: PhaseInv(d, clients[c])
  {
    hide DbInv, Grows, PhaseInv;
    forall c | c in clients ensures PhaseInv(d, clients[c]) {
      if c in s.clients && clients[c] == s.clients[c] { EarnedStays(s.db, d, clients[c]); }
    }
  }

  lemma {:induction false} StepKeeps(s: State, a: Action)
    requires Inv(s)
    ensures Inv(Do(s, a))
  {
    var t := Do(s, a);
    assert PhaseInv(s.db, Idle);
    hide DbInv, Open, Next, PhaseInv, Transition, CreateGoal;
    match a {
      case Begin(c, verdict, kind, id) => OpenKeeps(s.db, verdict, kind, id);
      case Advance(c) => NextKeeps(s.db, s.At(c));
      case Fail(c) =>
      case ChangeStatus(g, to) => if CanTransition(s.db, g, to) { TransitionKeeps(s.db, g, to, Other); }
      case NewGoal => CreateKeeps(s.db);
      case SetIntake(item, row) => IntakeKeeps(s.db, t.db);
    }
    ClientsKeep(s, t.db, t.clients);
  }

  lemma {:induction false} IntakeKeeps(d: Db, e: Db)
    requires DbInv(d) && e == d.(intake := e.intake)
    ensures DbInv(e)
  {
  }

  lemma {:induction false} RunsKeep(r: Run)
    ensures Inv(Exec(r))
  {
    if r.Then? {
      RunsKeep(r.before);
      StepKeeps(Exec(r.before), r.action);
    }
  }

  predicate PassedThroughPlanned(h: seq<Event>, g: int, i: nat) {
    exists j, k | 0 <= j < k < i && i <= |h| ::
      h[j].Changed? && h[j].goal == g && h[j].to.Planned? && IsApproval(h[k], g)
  }

  predicate IsApproval(e: Event, g: int) { e.Changed? && e.goal == g && e.from.Planned? && e.to.Approved? }

  lemma {:induction false} ChangedIndex(h: seq<Event>, g: int, from: Status, to: Status) returns (i: nat)
    requires ChangedTo(h, g, from, to)
    ensures i < |h| && h[i].Changed? && h[i].goal == g && h[i].from == from && h[i].to == to
  {
    i :| 0 <= i < |h| && (h[i] == Changed(g, from, to, Review) || h[i] == Changed(g, from, to, Other));
  }

  lemma {:induction false} SoundApproval(h: seq<Event>, i: nat)
    requires Sound(h) && i < |h| && h[i].ReviewApproved?
    ensures PassedThroughPlanned(h, h[i].goal, i)
  {
    var g := h[i].goal;
    assert Justified(h[..i], h[i]);
    var k := ChangedIndex(h[..i], g, Planned, Approved);
    assert h[..i][k] == h[k];
    assert Justified(h[..k], h[k]);
    StatusReached(h[..k], g);
    hide Sound, Justified;
    var from :| ChangedTo(h[..k], g, from, Planned);
    var j := ChangedIndex(h[..k], g, from, Planned);
    assert h[..k][j] == h[j] && IsApproval(h[k], g);
  }

  /** Under every interleaving, with store errors anywhere: an approval that was recorded was
    * preceded by a move to planned and then one from planned to approved. */
  lemma {:induction false} ApprovalPassesThroughPlanned(r: Run, i: nat)
    requires i < |Exec(r).db.history| && Exec(r).db.history[i].ReviewApproved?
    ensures PassedThroughPlanned(Exec(r).db.history, Exec(r).db.history[i].goal, i)
  {
    RunsKeep(r);
    SoundApproval(Exec(r).db.history, i);
  }

  /** Under every interleaving: when a review blocks a goal, that goal already has an open blocker. */
  lemma {:induction false} BlockedOnlyWithBlocker(r: Run, i: nat)
    requires i < |Exec(r).db.history|
    requires var e := Exec(r).db.history[i]; e.Changed? && e.actor.Review? && e.to.Blocked?
    ensures var h := Exec(r).db.history;
            BlockerRecorded(h[i].goal) in h[..i] && h[i].goal in Exec(r).db.openBlockers
  {
    RunsKeep(r);
    var h := Exec(r).db.history;
    assert Justified(h[..i], h[i]);
    var j :| 0 <= j < i && h[..i][j] == BlockerRecorded(h[i].goal);
    assert h[j] == BlockerRecorded(h[i].goal);
  }

  /** Under every interleaving: no goal has two delivery work items, and one that has an item was
    * approved by a review of its goal-approval item. */
  lemma {:induction false} OneDeliveryPerApprovedGoal(r: Run)
    ensures var db := Exec(r).db;
            && (forall i, j | 0 <= i < j < |db.tasks| :: db.tasks[i].key != db.tasks[j].key)
            && (forall i, j | 0 <= i < j < |db.tasks| :: db.tasks[i].goal != db.tasks[j].goal)
            && (forall t | t in db.tasks :: ReviewApproved(t.goal, GoalApprovalRef) in db.history)
  {
    RunsKeep(r);
    var db := Exec(r).db;
    forall i, j | 0 <= i < j < |db.tasks| ensures db.tasks[i].key != db.tasks[j].key {
      hide Exec, DeliveryKey;
      if db.tasks[i].key == db.tasks[j].key { DeliveryKeyInjective(db.tasks[i].goal, db.tasks[j].goal); }
    }
  }

  lemma {:induction false} TaskDelivered(db: Db, g: int)
    requires TasksSound(db) && g > 0
    ensures Task(DeliveryKey(g), g) in CreateTaskOnce(db, DeliveryKey(g), g).tasks
  {
    hide DeliveryKey;
    var key := DeliveryKey(g);
    if t :| t in db.tasks && t.key == key {
      var i :| 0 <= i < |db.tasks| && db.tasks[i] == t;
      DeliveryKeyInjective(t.goal, g);
      assert t == Task(key, g);
    } else {
      assert CreateTaskOnce(db, key, g).tasks == db.tasks + [Task(key, g)];
    }
  }

  /** A review that reaches the delivery step leaves the goal with its item. */
  lemma {:induction false} DeliveryDelivers(r: Run, g: int)
    requires g > 0
    ensures Task(DeliveryKey(g), g) in Next(Exec(r).db, Delivering(g)).0.tasks
  {
    RunsKeep(r);
    hide DeliveryKey, TasksSound, CreateTaskOnce;
    TaskDelivered(Exec(r).db, g);
  }

  // ---------------------------------------------------------------- decisions and reopenings

  predicate IsDecision(e: Event) { e.ReviewApproved? || e.ReviewRejected? }

  /** Review decisions recorded for a goal. */
  function Decisions(h: seq<Event>, g: int): nat { CountIf(h, (e: Event) => IsDecision(e) && e.goal == g) }

  predicate IsReopening(e: Event, g: int) {
    e.Changed? && e.goal == g && e.to.Planned? && !e.from.Created?
  }

  /** Times a goal was put back to planned after it had been blocked or left waiting. */
  function Reopenings(h: seq<Event>, g: int): nat { CountIf(h, (e: Event) => IsReopening(e, g)) }

  lemma {:induction false} DecisionsSnoc(h: seq<Event>, e: Event, g: int)
    ensures Decisions(h + [e], g) == Decisions(h, g) + (if IsDecision(e) && e.goal == g then 1 else 0)
  {
    CountIfSnoc(h, e, (x: Event) => IsDecision(x) && x.goal == g);
  }

  lemma {:induction false} ReopeningsSnoc(h: seq<Event>, e: Event, g: int)
    ensures Reopenings(h + [e], g) == Reopenings(h, g) + (if IsReopening(e, g) then 1 else 0)
  {
    CountIfSnoc(h, e, (x: Event) => IsReopening(x, g));
  }

  /** Chances for a decision: one for the goal's life, one per reopening, less those used up. */
  function Slack(h: seq<Event>, g: int): int {
    1 + Reopenings(h, g) - Decisions(h, g) - (if Reviewable(StatusAfter(h, g)) then 1 else 0)
  }

  lemma {:induction false} SlackSnoc(h: seq<Event>, e: Event, g: int)
    requires e.Changed? ==> e.from == StatusAfter(h, e.goal) && e.from != e.to && Allowed(e.from, e.to)
    ensures e.goal != g ==> Slack(h + [e], g) == Slack(h, g)
    ensures e.BlockerRecorded? ==> Slack(h + [e], g) == Slack(h, g)
    ensures IsDecision(e) && e.goal == g ==> Slack(h + [e], g) == Slack(h, g) - 1
    ensures e.Changed? && e.goal == g ==>
              Slack(h + [e], g) == Slack(h, g) + (if Reviewable(e.from) && !Reviewable(e.to) then 1 else 0)
  {
    assert (h + [e])[..|h + [e]| - 1] == h;
    DecisionsSnoc(h, e, g);
    ReopeningsSnoc(h, e, g);
    hide Decisions, Reopenings;
  }

  lemma {:induction false} TransitionSlack(db: Db, k: int, to: Status, actor: Actor, g: int)
    requires DbInv(db) && CanTransition(db, k, to)
    ensures var d := Transition(db, k, to, actor);
            Slack(d.history, g) ==
            Slack(db.history, g) + (if k == g && Reviewable(db.goals[k]) && !Reviewable(to) then 1 else 0)
  {
    if db.goals[k] != to {
      SlackSnoc(db.history, Changed(k, db.goals[k], to, actor), g);
    }
  }

  /** The goal's status is changed and its decision is still to be recorded. */
  predicate Records(p: Phase, g: int) { (p.RecordingApproval? || p.RecordingRejection?) && p.goal == g }

  /** A review's own transition to approved or blocked that finds the goal no longer created or planned. */
  predicate Late(db: Db, p: Phase, g: int) {
    !Records(p, g) && Records(Next(db, p).1, g) && g in db.goals && !Reviewable(db.goals[g])
  }

  lemma {:induction false} NextSlack(db: Db, p: Phase, g: int)
    requires DbInv(db)
    ensures var (d, q) := Next(db, p);
            Slack(d.history, g) - (if Records(q, g) then 1 else 0)
            >= Slack(db.history, g) - (if Records(p, g) then 1 else 0) - (if Late(db, p, g) then 1 else 0)
  {
    hide Slack, DbInv;
    match p
    case Chosen(verdict, kind, k, seen) =>
      if Reviewable(seen) {
        if verdict.Approve? {
          var to := if seen.Created? then Planned else Approved;
          if CanTransition(db, k, to) { TransitionSlack(db, k, to, Review, g); }
        } else {
          SlackSnoc(db.history, BlockerRecorded(k), g);
        }
      }
    case Approving(kind, k) => if CanTransition(db, k, Approved) { TransitionSlack(db, k, Approved, Review, g); }
    case RecordingApproval(kind, k) => SlackSnoc(db.history, ReviewApproved(k, kind), g);
    case Blocking(k) => if CanTransition(db, k, Blocked) { TransitionSlack(db, k, Blocked, Review, g); }
    case RecordingRejection(k) => SlackSnoc(db.history, ReviewRejected(k), g);
    case _ =>
  }

  function Overtaken(r: Run, g: int): nat {
    match r
    case Start => 0
    case Then(before, a) =>
      Overtaken(before, g) + (if a.Advance? && Late(Exec(before).db, Exec(before).At(a.client), g) then 1 else 0)
  }

  function Recorders(clients: map<int, Phase>, g: int): set<int> { set c | c in clients && Records(clients[c], g) }

  lemma {:induction false} RecordersChange(clients: map<int, Phase>, c: int, q: Phase, g: int)
    ensures var p := if c in clients then clients[c] else Idle;
            |Recorders(clients[c := q], g)|
            == |Recorders(clients, g)| + (if Records(q, g) then 1 else 0) - (if Records(p, g) then 1 else 0)
  {
    var before, after := Recorders(clients, g), Recorders(clients[c := q], g);
    if Records(q, g) {
      assert after == before + {c};
    } else {
      assert after == before - {c};
    }
  }

  predicate Paid(s: State, g: int, overtaken: nat) {
    |Recorders(s.clients, g)| <= Slack(s.db.history, g) + overtaken
  }

  lemma {:induction false} StepPays(s: State, a: Action, g: int, overtaken: nat)
    requires Inv(s) && Paid(s, g, overtaken)
    ensures Paid(Do(s, a), g, overtaken + (if a.Advance? && Late(s.db, s.At(a.client), g) then 1 else 0))
  {
    hide Slack, DbInv, Recorders;
    match a
    case Begin(c, verdict, kind, id) =>
      var (d, p) := Open(s.db, verdict, kind, id);
      assert d.history == s.db.history && !Records(p, g);
      hide Open;
      RecordersChange(s.clients, c, p, g);
    case Advance(c) =>
      NextSlack(s.db, s.At(c), g);
      RecordersChange(s.clients, c, Next(s.db, s.At(c)).1, g);
      hide Next, Late;
    case Fail(c) => RecordersChange(s.clients, c, Idle, g);
    case ChangeStatus(k, to) => if CanTransition(s.db, k, to) { TransitionSlack(s.db, k, to, Other, g); }
    case _ =>
  }

  lemma {:induction false} RunPays(r: Run, g: int)
    ensures Paid(Exec(r), g, Overtaken(r, g))
  {
    match r
    case Start => NothingYet(g);
    case Then(before, a) =>
      RunPays(before, g);
      RunsKeep(before);
      hide Paid, Inv, Do, Late;
      StepPays(Exec(before), a, g, Overtaken(before, g));
  }

  lemma {:induction false} NothingYet(g: int)
    ensures Paid(Exec(Start), g, 0)
  {
    assert Recorders(map[], g) == {};
  }

  /** Every run, with any reviews at once, any call failing, anyone changing statuses: a goal is decided at
    * most once, once more for each time it was reopened, and once more for each transition of a review
    * that came too late. */
  lemma {:induction false} DecisionsAccounted(r: Run, g: int)
    ensures Decisions(Exec(r).db.history, g) <= 1 + Reopenings(Exec(r).db.history, g) + Overtaken(r, g)
  {
    RunPays(r, g);
  }

  // ---------------------------------------------------------------- reviews of one goal that do not overlap

  predicate Reviews(p: Phase, g: int) { !p.Idle? && p.goal == g }

  predicate Busy(s: State, g: int) { exists c | c in s.clients :: Reviews(s.clients[c], g) }

  /** The action begins a review of this goal. */
  predicate Opens(s: State, a: Action, g: int) {
    a.Begin? && s.At(a.client).Idle? && Reviews(Open(s.db, a.verdict, a.kind, a.id).1, g)
  }

  /** No review of this goal begins while another review of it is under way.  Everything else interleaves
    * freely, and others may change the goal's status at any time. */
  predicate Orderly(r: Run, g: int) {
    match r
    case Start => true
    case Then(before, a) => Orderly(before, g) && (Opens(Exec(before), a, g) ==> !Busy(Exec(before), g))
  }

  /** The review has found the goal created or planned and may still change its status. */
  predicate Pending(p: Phase, g: int) {
    && Reviews(p, g)
    && (p.Linking? || (p.Chosen? && Reviewable(p.seen)) || p.Approving? || p.Blocking?)
  }

  /** There is a chance for what this review may still decide. */
  predicate Fits(h: seq<Event>, p: Phase, g: int) {
    Slack(h, g) >= (if Pending(p, g) && !Reviewable(StatusAfter(h, g)) then 1 else 0) + (if Records(p, g) then 1 else 0)
  }

  predicate OrderlyInv(s: State, g: int) {
    && Slack(s.db.history, g) >= 0
    && (forall c | c in s.clients && Reviews(s.clients[c], g) :: Fits(s.db.history, s.clients[c], g))
    && forall c, d | c in s.clients && d in s.clients && Reviews(s.clients[c], g) && Reviews(s.clients[d], g) :: c == d
  }

  /** Moving on spends the chance of a review that was pending on the decision it will record. */
  lemma {:induction false} FitsAfter(h: seq<Event>, k: seq<Event>, p: Phase, q: Phase, g: int)
    requires Pending(p, g) && Fits(h, p, g)
    requires var was, still := Reviewable(StatusAfter(h, g)), Reviewable(StatusAfter(k, g));
             Slack(k, g) == Slack(h, g) + (if was && !still then 1 else 0) && (Records(q, g) <==> !still)
    ensures Slack(k, g) >= 0 && Fits(k, q, g)
  {
    hide Slack, StatusAfter;
  }

  lemma {:induction false} FitsIdle(h: seq<Event>, p: Phase, g: int)
    requires Fits(h, p, g)
    ensures Slack(h, g) >= 0 && Fits(h, Idle, g)
  {
    hide Slack, StatusAfter;
  }

  lemma {:induction false} OwnTransition(db: Db, p: Phase, g: int, to: Status, q: Phase)
    requires DbInv(db) && Pending(p, g) && Fits(db.history, p, g)
    requires Records(q, g) <==> !Reviewable(to)
    ensures var (d, q1) := TryTransition(db, g, to, q); Slack(d.history, g) >= 0 && Fits(d.history, q1, g)
  {
    hide Slack, StatusAfter, Pending, Fits, Records;
    if CanTransition(db, g, to) {
      TransitionSlack(db, g, to, Review, g);
      TransitionStatus(db, g, to, Review, g);
      hide DbInv, Transition;
      FitsAfter(db.history, Transition(db, g, to, Review).history, p, q, g);
    } else {
      FitsIdle(db.history, p, g);
    }
  }

  lemma {:induction false} TransitionStatus(db: Db, k: int, to: Status, actor: Actor, g: int)
    requires DbInv(db) && CanTransition(db, k, to)
    ensures var d := Transition(db, k, to, actor);
            StatusAfter(d.history, g) == if k == g then to else StatusAfter(db.history, g)
    ensures db.goals[k] == StatusAfter(db.history, k)
  {
    if db.goals[k] != to {
      var e := Changed(k, db.goals[k], to, actor);
      assert (db.history + [e])[..|db.history|] == db.history;
    }
  }

  /** The review takes its own step, and what it may still decide fits. */
  predicate OwnFits(db: Db, p: Phase, g: int) {
    var (d, q) := Next(db, p);
    (!q.Idle? ==> q.goal == g) && Slack(d.history, g) >= 0 && Fits(d.history, q, g)
  }

  lemma {:induction false} OwnReads(db: Db, p: Phase, g: int)
    requires DbInv(db) && Reviews(p, g) && Slack(db.history, g) >= 0 && Fits(db.history, p, g)
    requires p.Linking? || p.Fetching? || p.Delivering?
    ensures OwnFits(db, p, g)
  {
    assert g in db.goals ==> db.goals[g] == StatusAfter(db.history, g);
    hide Slack, DeliveryKey, DbInv, StatusAfter;
  }

  lemma {:induction false} OwnRecords(db: Db, p: Phase, g: int)
    requires Records(p, g) && Fits(db.history, p, g)
    ensures OwnFits(db, p, g)
  {
    var e := if p.RecordingApproval? then ReviewApproved(g, p.kind) else ReviewRejected(g);
    PlainSnoc(db.history, e, g);
    hide Slack, StatusAfter;
  }

  lemma {:induction false} OwnChosen(db: Db, p: Phase, g: int)
    requires DbInv(db) && Reviews(p, g) && p.Chosen? && Slack(db.history, g) >= 0 && Fits(db.history, p, g)
    ensures OwnFits(db, p, g)
  {
    hide Slack, StatusAfter, DbInv;
    if Reviewable(p.seen) {
      if p.verdict.Approve? {
        var to := if p.seen.Created? then Planned else Approved;
        var q := if p.seen.Created? then Approving(p.kind, g) else RecordingApproval(p.kind, g);
        OwnTransition(db, p, g, to, q);
        TryGoal(db, g, to, q);
        hide TryTransition, Fits;
      } else {
        PlainSnoc(db.history, BlockerRecorded(g), g);
      }
    }
  }

  lemma {:induction false} TryGoal(db: Db, g: int, to: Status, q: Phase)
    requires Reviews(q, g)
    ensures var q1 := TryTransition(db, g, to, q).1; !q1.Idle? ==> q1.goal == g
  {
  }

  lemma {:induction false} OwnAdvance(db: Db, p: Phase, g: int)
    requires DbInv(db) && Reviews(p, g) && Slack(db.history, g) >= 0 && Fits(db.history, p, g)
    ensures OwnFits(db, p, g)
  {
    hide DbInv, Slack, StatusAfter, TryTransition;
    match p
    case Chosen(_, _, _, _) => hide OwnFits, Fits; OwnChosen(db, p, g);
    case Approving(kind, _) =>
      OwnTransition(db, p, g, Approved, RecordingApproval(kind, g));
      TryGoal(db, g, Approved, RecordingApproval(kind, g));
      hide Fits;
    case Blocking(_) =>
      OwnTransition(db, p, g, Blocked, RecordingRejection(g));
      TryGoal(db, g, Blocked, RecordingRejection(g));
      hide Fits;
    case RecordingApproval(_, _) => hide OwnFits, Fits; OwnRecords(db, p, g);
    case RecordingRejection(_) => hide OwnFits, Fits; OwnRecords(db, p, g);
    case _ => hide OwnFits, Fits; OwnReads(db, p, g);
  }

  /** Recording something other than a status change. */
  lemma {:induction false} PlainSnoc(h: seq<Event>, e: Event, g: int)
    requires !e.Changed?
    ensures StatusAfter(h + [e], g) == StatusAfter(h, g)
    ensures Slack(h + [e], g) == Slack(h, g) - (if IsDecision(e) && e.goal == g then 1 else 0)
  {
    SlackSnoc(h, e, g);
    assert (h + [e])[..|h|] == h;
    hide Slack;
  }

  lemma {:induction false} OtherAdvance(db: Db, p: Phase, g: int)
    requires DbInv(db) && !Reviews(p, g)
    ensures var (d, q) := Next(db, p);
            !Reviews(q, g) && Slack(d.history, g) == Slack(db.history, g) && StatusAfter(d.history, g) == StatusAfter(db.history, g)
  {
    hide Slack, DeliveryKey;
    match p
    case Chosen(verdict, kind, k, seen) =>
      if Reviewable(seen) {
        if verdict.Approve? {
          OtherTransition(db, k, if seen.Created? then Planned else Approved, Review, g);
        } else {
          PlainSnoc(db.history, BlockerRecorded(k), g);
        }
      }
      hide DbInv;
    case Approving(kind, k) => OtherTransition(db, k, Approved, Review, g); hide DbInv;
    case RecordingApproval(kind, k) => PlainSnoc(db.history, ReviewApproved(k, kind), g);
    case Blocking(k) => OtherTransition(db, k, Blocked, Review, g); hide DbInv;
    case RecordingRejection(k) => PlainSnoc(db.history, ReviewRejected(k), g);
    case _ =>
  }

  lemma {:induction false} OtherTransition(db: Db, k: int, to: Status, actor: Actor, g: int)
    requires DbInv(db) && k != g
    ensures CanTransition(db, k, to) ==>
              var d := Transition(db, k, to, actor);
              Slack(d.history, g) == Slack(db.history, g) && StatusAfter(d.history, g) == StatusAfter(db.history, g)
  {
    if CanTransition(db, k, to) {
      TransitionSlack(db, k, to, actor, g);
      TransitionStatus(db, k, to, actor, g);
    }
  }

  lemma {:induction false} SameFits(h: seq<Event>, k: seq<Event>, p: Phase, g: int)
    requires Fits(h, p, g) && Slack(k, g) == Slack(h, g) && StatusAfter(k, g) == StatusAfter(h, g)
    ensures Fits(k, p, g)
  {
  }

  lemma {:induction false} OrderlyAdvance(s: State, c: int, g: int)
    requires Inv(s) && OrderlyInv(s, g)
    ensures OrderlyInv(Do(s, Advance(c)), g)
  {
    var t := Do(s, Advance(c));
    assert DbInv(s.db);
    if Reviews(s.At(c), g) {
      assert c in s.clients;
      OwnAdvance(s.db, s.At(c), g);
      hide Next, DbInv, Fits, Slack;
    } else {
      OtherAdvance(s.db, s.At(c), g);
      hide Next, DbInv, Fits, Slack;
      forall d | d in t.clients && Reviews(t.clients[d], g) ensures Fits(t.db.history, t.clients[d], g) {
        assert d in s.clients && t.clients[d] == s.clients[d];
        SameFits(s.db.history, t.db.history, t.clients[d], g);
      }
    }
  }

  lemma {:induction false} OrderlyBegin(s: State, a: Action, g: int)
    requires Inv(s) && OrderlyInv(s, g) && a.Begin? && (Opens(s, a, g) ==> !Busy(s, g))
    ensures OrderlyInv(Do(s, a), g)
  {
    var (d, p) := Open(s.db, a.verdict, a.kind, a.id);
    assert d.history == s.db.history;
    if Pending(p, g) {
      assert g == s.db.nextGoal;
      NoEventsCreated(s.db.history, g);
    }
    assert Reviews(p, g) ==> Fits(d.history, p, g);
    hide Open, Fits, Slack, DbInv;
  }

  lemma {:induction false} OrderlyChange(s: State, k: int, to: Status, g: int)
    requires Inv(s) && OrderlyInv(s, g)
    ensures OrderlyInv(Do(s, ChangeStatus(k, to)), g)
  {
    var t := Do(s, ChangeStatus(k, to));
    assert DbInv(s.db);
    if CanTransition(s.db, k, to) {
      TransitionSlack(s.db, k, to, Other, g);
      TransitionStatus(s.db, k, to, Other, g);
      hide Slack, DbInv, StatusAfter, Transition;
    }
  }

  lemma {:induction false} OrderlyStep(s: State, a: Action, g: int)
    requires Inv(s) && OrderlyInv(s, g) && (Opens(s, a, g) ==> !Busy(s, g))
    ensures OrderlyInv(Do(s, a), g)
  {
    match a
    case Begin(_, _, _, _) => OrderlyBegin(s, a, g);
    case Advance(c) => OrderlyAdvance(s, c, g);
    case ChangeStatus(k, to) => OrderlyChange(s, k, to, g);
    case _ => hide Slack, DbInv, Fits;
  }

  lemma {:induction false} OrderlyRun(r: Run, g: int)
    requires Orderly(r, g)
    ensures OrderlyInv(Exec(r), g)
  {
    match r
    case Start =>
    case Then(before, a) =>
      OrderlyRun(before, g);
      RunsKeep(before);
      hide Inv, OrderlyInv, Do;
      OrderlyStep(Exec(before), a, g);
  }

  /** When reviews of one goal do not overlap, each of which may fail at any call, and whatever others do to
    * its status meanwhile, it is decided at most once more often than it was reopened, so without a
    * reopening never both ways. */
  lemma {:induction false} DecidedOncePerOpening(r: Run, g: int)
    requires Orderly(r, g)
    ensures var h := Exec(r).db.history;
            && Decisions(h, g) <= 1 + Reopenings(h, g)
            && (Reopenings(h, g) == 0 ==> !(WasApproved(h, g) && ReviewRejected(g) in h))
  {
    OrderlyRun(r, g);
    var h := Exec(r).db.history;
    hide Exec;
    if WasApproved(h, g) && ReviewRejected(g) in h {
      BothDecisions(h, g);
    }
  }

  predicate WasApproved(h: seq<Event>, g: int) {
    exists i | 0 <= i < |h| :: h[i].ReviewApproved? && h[i].goal == g
  }

  lemma {:induction false} BothDecisions(h: seq<Event>, g: int)
    requires WasApproved(h, g) && ReviewRejected(g) in h
    ensures Decisions(h, g) >= 2
  {
    var i :| 0 <= i < |h| && h[i].ReviewApproved? && h[i].goal == g;
    var j :| 0 <= j < |h| && h[j] == ReviewRejected(g);
    CountIfTwo(h, (e: Event) => IsDecision(e) && e.goal == g, if i < j then i else j, if i < j then j else i);
  }

  // ---------------------------------------------------------------- deliveries

  /** Approvals recorded by reviews of the goal-approval item. */
  function DeliveryApprovals(h: seq<Event>, g: int): nat { Count(h, ReviewApproved(g, GoalApprovalRef)) }

  predicate HasItem(db: Db, g: int) { exists i | 0 <= i < |db.tasks| :: db.tasks[i].goal == g }

  function Deliverers(clients: map<int, Phase>, g: int): set<int> { set c | c in clients && clients[c] == Delivering(g) }

  /** Reviews that were given up when only the work item was left to store. */
  function GivenUp(r: Run, g: int): nat {
    match r
    case Start => 0
    case Then(before, a) =>
      GivenUp(before, g) + (if a.Fail? && Exec(before).At(a.client) == Delivering(g) then 1 else 0)
  }

  lemma {:induction false} DeliverersChange(clients: map<int, Phase>, c: int, q: Phase, g: int)
    ensures var p := if c in clients then clients[c] else Idle;
            |Deliverers(clients[c := q], g)|
            == |Deliverers(clients, g)| + (if q == Delivering(g) then 1 else 0) - (if p == Delivering(g) then 1 else 0)
  {
    var before, after := Deliverers(clients, g), Deliverers(clients[c := q], g);
    if q == Delivering(g) {
      assert after == before + {c};
    } else {
      assert after == before - {c};
    }
  }

  /** A recorded approval, on its way to delivery: a transaction records it and leads there, or delivers. */
  lemma {:induction false} NextDelivers(db: Db, p: Phase, g: int)
    requires g > 0 && TasksSound(db)
    ensures var (d, q) := Next(db, p);
            && (p == Delivering(g) ==> HasItem(d, g) && q.Idle?)
            && (HasItem(d, g) ==> HasItem(db, g) || p == Delivering(g))
            && (HasItem(db, g) ==> HasItem(d, g))
            && DeliveryApprovals(d.history, g) == DeliveryApprovals(db.history, g) + (if q == Delivering(g) then 1 else 0)
  {
    NextApprovals(db, p, g);
    NextItems(db, p, g);
  }

  lemma {:induction false} NextItems(db: Db, p: Phase, g: int)
    requires g > 0 && TasksSound(db)
    ensures var (d, q) := Next(db, p);
            && (p == Delivering(g) ==> HasItem(d, g) && q.Idle?)
            && (HasItem(d, g) ==> HasItem(db, g) || p == Delivering(g))
            && (HasItem(db, g) ==> HasItem(d, g))
  {
    hide DeliveryKey, TasksSound;
    var d := Next(db, p).0;
    if p.Delivering? && p.goal > 0 {
      TaskDelivered(db, p.goal);
      var i :| 0 <= i < |d.tasks| && d.tasks[i] == Task(DeliveryKey(p.goal), p.goal);
      assert d.tasks == db.tasks || d.tasks == db.tasks + [Task(DeliveryKey(p.goal), p.goal)];
    } else {
      assert d.tasks == db.tasks;
    }
    if i :| 0 <= i < |db.tasks| && db.tasks[i].goal == g {
      assert d.tasks[i] == db.tasks[i];
    }
  }

  lemma {:induction false} NextApprovals(db: Db, p: Phase, g: int)
    ensures var (d, q) := Next(db, p);
            DeliveryApprovals(d.history, g) == DeliveryApprovals(db.history, g) + (if q == Delivering(g) then 1 else 0)
  {
    hide DeliveryApprovals, DeliveryKey;
    var d := Next(db, p).0;
    if d.history != db.history {
      assert d.history == db.history + [d.history[|db.history|]];
      ApprovalsSnoc(db.history, d.history[|db.history|], g);
    }
  }

  lemma {:induction false} ApprovalsSnoc(h: seq<Event>, e: Event, g: int)
    ensures DeliveryApprovals(h + [e], g) == DeliveryApprovals(h, g) + (if e == ReviewApproved(g, GoalApprovalRef) then 1 else 0)
  {
    CountSnoc(h, e, ReviewApproved(g, GoalApprovalRef));
  }

  predicate Delivered(s: State, g: int, givenUp: nat) {
    HasItem(s.db, g) || DeliveryApprovals(s.db.history, g) == |Deliverers(s.clients, g)| + givenUp
  }

  lemma {:induction false} StepDelivers(s: State, a: Action, g: int, givenUp: nat)
    requires Inv(s) && g > 0 && Delivered(s, g, givenUp)
    ensures Delivered(Do(s, a), g, givenUp + (if a.Fail? && s.At(a.client) == Delivering(g) then 1 else 0))
  {
    assert TasksSound(s.db);
    hide DbInv, TasksSound, DeliveryApprovals, Deliverers;
    match a
    case Begin(c, verdict, kind, id) =>
      var (d, p) := Open(s.db, verdict, kind, id);
      assert d.history == s.db.history && d.tasks == s.db.tasks && !p.Delivering?;
      hide Open, HasItem;
      DeliverersChange(s.clients, c, p, g);
      SameItems(s.db, d, g);
    case Advance(c) =>
      NextDelivers(s.db, s.At(c), g);
      DeliverersChange(s.clients, c, Next(s.db, s.At(c)).1, g);
      hide Next, HasItem;
    case Fail(c) => hide HasItem; DeliverersChange(s.clients, c, Idle, g);
    case ChangeStatus(k, to) =>
      if CanTransition(s.db, k, to) && s.db.goals[k] != to {
        ApprovalsSnoc(s.db.history, Changed(k, s.db.goals[k], to, Other), g);
      }
    case _ =>
  }

  lemma {:induction false} SameItems(d: Db, e: Db, g: int)
    requires d.tasks == e.tasks
    ensures HasItem(d, g) == HasItem(e, g)
  {
  }

  lemma {:induction false} RunDelivers(r: Run, g: int)
    requires g > 0
    ensures Delivered(Exec(r), g, GivenUp(r, g))
  {
    match r
    case Start => assert Deliverers(map[], g) == {};
    case Then(before, a) =>
      RunDelivers(before, g);
      RunsKeep(before);
      hide Delivered, Inv, Do;
      StepDelivers(Exec(before), a, g, GivenUp(before, g));
  }

  /** Every run: a goal approved through its goal-approval item has its work item, unless each of those
    * approvals is about to store it or was given up at that very point. */
  lemma {:induction false} DeliveriesAccounted(r: Run, g: int)
    requires g > 0 && !HasItem(Exec(r).db, g)
    ensures DeliveryApprovals(Exec(r).db.history, g) == |Deliverers(Exec(r).clients, g)| + GivenUp(r, g)
  {
    RunDelivers(r, g);
  }

  /** A run that continues another one. */
  predicate Extends(r: Run, base: Run) { r == base || (r.Then? && Extends(r.before, base)) }

  /** The review still has a transaction to make on the goal. */
  predicate Midway(p: Phase, g: int) {
    && Reviews(p, g) && !p.Fetching?
    && (p.Chosen? ==> Reviewable(p.seen))
  }

  /** The goal is past review and no review of it has anything left to do. */
  predicate Settled(s: State, g: int) {
    && g in s.db.goals && !Reviewable(s.db.goals[g])
    && forall c | c in s.clients :: !Midway(s.clients[c], g)
  }

  /** Nothing that concerns the goal's reviews has changed. */
  predicate SameReviews(d: Db, e: Db, g: int) {
    Decisions(e.history, g) == Decisions(d.history, g) && HasItem(e, g) == HasItem(d, g)
  }

  lemma {:induction false} ReopeningsGrow(s: State, a: Action, g: int)
    ensures Reopenings(Do(s, a).db.history, g) >= Reopenings(s.db.history, g)
  {
    hide Reopenings, DeliveryKey;
    var h, k := s.db.history, Do(s, a).db.history;
    if k != h {
      assert k == h + [k[|h|]];
      ReopeningsSnoc(h, k[|h|], g);
    }
  }

  lemma {:induction false} SettledNextGoal(db: Db, p: Phase, g: int)
    requires g in db.goals && !Reviewable(db.goals[g]) && !Midway(p, g)
    ensures var (d, q) := Next(db, p); g in d.goals && d.goals[g] == db.goals[g] && !Midway(q, g)
  {
    hide DeliveryKey;
  }

  lemma {:induction false} SettledNextDecisions(db: Db, p: Phase, g: int)
    requires !Midway(p, g)
    ensures Decisions(Next(db, p).0.history, g) == Decisions(db.history, g)
  {
    hide Decisions, DeliveryKey;
    var d := Next(db, p).0;
    if d.history != db.history {
      assert d.history == db.history + [d.history[|db.history|]];
      DecisionsSnoc(db.history, d.history[|db.history|], g);
    }
  }

  lemma {:induction false} SettledNext(db: Db, p: Phase, g: int)
    requires TasksSound(db) && g in db.goals && g > 0 && !Reviewable(db.goals[g]) && !Midway(p, g)
    ensures var (d, q) := Next(db, p);
            g in d.goals && d.goals[g] == db.goals[g] && !Midway(q, g) && SameReviews(db, d, g)
  {
    assert p != Delivering(g);
    SettledNextGoal(db, p, g);
    SettledNextDecisions(db, p, g);
    NextItems(db, p, g);
    hide Next, HasItem, Decisions, Midway, TasksSound;
  }

  lemma {:induction false} SettledBegin(s: State, a: Action, g: int)
    requires Settled(s, g) && g < s.db.nextGoal && a.Begin?
    ensures Settled(Do(s, a), g) && SameReviews(s.db, Do(s, a).db, g)
  {
    hide Decisions;
    var (d, p) := Open(s.db, a.verdict, a.kind, a.id);
    assert !Midway(p, g) && g in d.goals && d.goals[g] == s.db.goals[g] && d.history == s.db.history && d.tasks == s.db.tasks;
    SameItems(s.db, d, g);
    hide Open, HasItem, Midway;
  }

  lemma {:induction false} SettledChange(s: State, k: int, to: Status, g: int)
    requires Settled(s, g)
    requires Reopenings(Do(s, ChangeStatus(k, to)).db.history, g) == Reopenings(s.db.history, g)
    ensures Settled(Do(s, ChangeStatus(k, to)), g) && SameReviews(s.db, Do(s, ChangeStatus(k, to)).db, g)
  {
    hide Decisions, Reopenings, HasItem, Midway;
    var t := Do(s, ChangeStatus(k, to));
    SameItems(s.db, t.db, g);
    if CanTransition(s.db, k, to) && s.db.goals[k] != to {
      var e := Changed(k, s.db.goals[k], to, Other);
      DecisionsSnoc(s.db.history, e, g);
      ReopeningsSnoc(s.db.history, e, g);
    }
  }

  lemma {:induction false} SettledStep(s: State, a: Action, g: int)
    requires Inv(s) && Settled(s, g) && g > 0
    requires Reopenings(Do(s, a).db.history, g) == Reopenings(s.db.history, g)
    ensures Settled(Do(s, a), g) && SameReviews(s.db, Do(s, a).db, g)
  {
    assert g < s.db.nextGoal && TasksSound(s.db);
    hide DbInv, TasksSound, Decisions, Reopenings, Next, Midway, HasItem;
    match a
    case Begin(_, _, _, _) => SettledBegin(s, a, g);
    case Advance(c) =>
      IdleNotMidway(g);
      SettledNext(s.db, s.At(c), g);
    case Fail(c) => IdleNotMidway(g);
    case ChangeStatus(k, to) => SettledChange(s, k, to, g);
    case NewGoal => SameItems(s.db, Do(s, a).db, g);
    case SetIntake(_, _) => SameItems(s.db, Do(s, a).db, g);
  }

  lemma {:induction false} IdleNotMidway(g: int)
    ensures !Midway(Idle, g)
  {
  }

  /** A goal past review, with its item or without, stays as it is in every continuation until it is
    * reopened: no new decision and no new item, whoever reviews it. */
  lemma {:induction false} SettledUntilReopened(base: Run, r: Run, g: int)
    requires g > 0 && Extends(r, base) && Settled(Exec(base), g)
    ensures Reopenings(Exec(r).db.history, g) >= Reopenings(Exec(base).db.history, g)
    ensures Reopenings(Exec(r).db.history, g) == Reopenings(Exec(base).db.history, g) ==>
              Settled(Exec(r), g) && SameReviews(Exec(base).db, Exec(r).db, g)
  {
    if r != base {
      SettledUntilReopened(base, r.before, g);
      RunsKeep(r.before);
      ReopeningsGrow(Exec(r.before), r.action, g);
      hide Settled, SameReviews, Reopenings, Inv, Do;
      if Reopenings(Exec(r).db.history, g) == Reopenings(Exec(base).db.history, g) {
        SettledStep(Exec(r.before), r.action, g);
        SameReviewsTrans(Exec(base).db, Exec(r.before).db, Exec(r).db, g);
      }
    }
  }

  lemma {:induction false} SameReviewsTrans(d: Db, e: Db, f: Db, g: int)
    requires SameReviews(d, e, g) && SameReviews(e, f, g)
    ensures SameReviews(d, f, g)
  {
  }

  /** No item, no approval on its way to one. */
  predicate NoneComing(s: State, g: int) { forall c | c in s.clients :: s.clients[c] != Delivering(g) }

  predicate ApprovedSince(d: Db, s: State, g: int) {
    DeliveryApprovals(s.db.history, g) > DeliveryApprovals(d.history, g)
    || (DeliveryApprovals(s.db.history, g) == DeliveryApprovals(d.history, g) && !HasItem(s.db, g) && NoneComing(s, g))
  }

  lemma {:induction false} StepApprovedSince(d: Db, s: State, a: Action, g: int)
    requires Inv(s) && g > 0 && ApprovedSince(d, s, g)
    ensures ApprovedSince(d, Do(s, a), g)
  {
    assert TasksSound(s.db);
    hide DbInv, TasksSound, DeliveryApprovals;
    match a
    case Begin(c, verdict, kind, id) =>
      var (e, p) := Open(s.db, verdict, kind, id);
      assert e.history == s.db.history && e.tasks == s.db.tasks && !p.Delivering?;
      hide Open, HasItem;
      SameItems(s.db, e, g);
    case Advance(c) =>
      NextDelivers(s.db, s.At(c), g);
      hide Next, HasItem;
    case Fail(c) => hide HasItem;
    case ChangeStatus(k, to) =>
      if CanTransition(s.db, k, to) && s.db.goals[k] != to {
        ApprovalsSnoc(s.db.history, Changed(k, s.db.goals[k], to, Other), g);
      }
    case _ =>
  }

  lemma {:induction false} RunApprovedSince(base: Run, r: Run, g: int)
    requires g > 0 && Extends(r, base) && ApprovedSince(Exec(base).db, Exec(base), g)
    ensures ApprovedSince(Exec(base).db, Exec(r), g)
  {
    if r != base {
      RunApprovedSince(base, r.before, g);
      RunsKeep(r.before);
      hide ApprovedSince, Inv, Do;
      StepApprovedSince(Exec(base).db, Exec(r.before), r.action, g);
    }
  }

  /** A goal past review whose item was lost gets one only after it has been reopened and approved through
    * its goal-approval item again. */
  lemma {:induction false} LostItemNeedsReopening(base: Run, r: Run, g: int)
    requires g > 0 && Extends(r, base) && Settled(Exec(base), g) && !HasItem(Exec(base).db, g)
    requires HasItem(Exec(r).db, g)
    ensures Reopenings(Exec(r).db.history, g) > Reopenings(Exec(base).db.history, g)
    ensures DeliveryApprovals(Exec(r).db.history, g) > DeliveryApprovals(Exec(base).db.history, g)
  {
    SettledUntilReopened(base, r, g);
    forall c | c in Exec(base).clients ensures Exec(base).clients[c] != Delivering(g) {
      assert !Midway(Exec(base).clients[c], g);
    }
    RunApprovedSince(base, r, g);
  }

  /** And that is enough: an uninterrupted approval of the goal-approval item of a created or planned goal
    * leaves it with its item. */
  lemma {:induction false} ApprovalDelivers(r: Run, g: int)
    requires g in Exec(r).db.goals && Reviewable(Exec(r).db.goals[g])
    ensures HasItem(Uninterrupted(Exec(r).db, Fetching(Approve, GoalApprovalRef, g)), g)
  {
    RunsKeep(r);
    var db := Exec(r).db;
    assert g > 0 && TasksSound(db);
    hide Exec, DeliveryKey, DbInv;
    var st := db.goals[g];
    var planned := Transition(db, g, Planned, Review);
    var approved := Transition(planned, g, Approved, Review);
    var recorded := Record(approved, ReviewApproved(g, GoalApprovalRef));
    assert Uninterrupted(db, Fetching(Approve, GoalApprovalRef, g)) == Uninterrupted(db, Chosen(Approve, GoalApprovalRef, g, st));
    assert Uninterrupted(db, Chosen(Approve, GoalApprovalRef, g, st)) == Uninterrupted(planned, Approving(GoalApprovalRef, g));
    assert Uninterrupted(planned, Approving(GoalApprovalRef, g)) == Uninterrupted(approved, RecordingApproval(GoalApprovalRef, g));
    assert Uninterrupted(approved, RecordingApproval(GoalApprovalRef, g)) == Uninterrupted(recorded, Delivering(g));
    var delivered := Next(recorded, Delivering(g)).0;
    assert Uninterrupted(recorded, Delivering(g)) == Uninterrupted(delivered, Idle) == delivered;
    SameTasksSound(db, recorded, g);
    NextItems(recorded, Delivering(g), g);
  }

  lemma {:induction false} SameTasksSound(d: Db, e: Db, g: int)
    requires TasksSound(d) && e.tasks == d.tasks && d.history <= e.history
    ensures TasksSound(e)
  {
    assert forall x | x in d.history :: x in e.history;
  }

  // ---------------------------------------------------------------- one review, start to end

  /** An uninterrupted review decides exactly the goals that are created or planned: it records one
    * decision and leaves the goal approved or blocked; otherwise it changes nothing. */
  lemma {:induction false} ReviewOutcome(db: Db, verdict: Verdict, kind: Kind, g: int)
    requires g in db.goals && g > 0
    ensures var d := Uninterrupted(db, Fetching(verdict, kind, g));
            if Reviewable(db.goals[g]) then
              && d.goals == db.goals[g := if verdict.Approve? then Approved else Blocked] && d.history != []
              && (if verdict.Approve? then ReviewApproved(g, kind) else ReviewRejected(g)) == d.history[|d.history| - 1]
              && Decisions(d.history, g) == Decisions(db.history, g) + 1
            else d == db
  {
    var st := db.goals[g];
    assert Uninterrupted(db, Fetching(verdict, kind, g)) == Uninterrupted(db, Chosen(verdict, kind, g, st));
    if Reviewable(st) {
      if verdict.Approve? {
        ApproveOutcome(db, kind, g);
      } else {
        RejectOutcome(db, verdict, kind, g);
      }
    }
  }

  lemma {:induction false} ApproveOutcome(db: Db, kind: Kind, g: int)
    requires g in db.goals && g > 0 && Reviewable(db.goals[g])
    ensures var d := Uninterrupted(db, Chosen(Approve, kind, g, db.goals[g]));
            && d.goals == db.goals[g := Approved]
            && d.history != [] && d.history[|d.history| - 1] == ReviewApproved(g, kind)
            && Decisions(d.history, g) == Decisions(db.history, g) + 1
  {
    hide Decisions, DeliveryKey;
    var st := db.goals[g];
    var planned := Transition(db, g, Planned, Review);
    var approved := Transition(planned, g, Approved, Review);
    var recorded := Record(approved, ReviewApproved(g, kind));
    assert Uninterrupted(db, Chosen(Approve, kind, g, st)) == Uninterrupted(planned, Approving(kind, g));
    assert Uninterrupted(planned, Approving(kind, g)) == Uninterrupted(approved, RecordingApproval(kind, g));
    assert Uninterrupted(approved, RecordingApproval(kind, g))
        == Uninterrupted(recorded, if kind.GoalApprovalRef? then Delivering(g) else Idle);
    var delivered := Next(recorded, Delivering(g)).0;
    assert Uninterrupted(recorded, Delivering(g)) == Uninterrupted(delivered, Idle) == delivered;
    DecisionsSnoc(db.history, Changed(g, Created, Planned, Review), g);
    DecisionsSnoc(planned.history, Changed(g, Planned, Approved, Review), g);
    DecisionsSnoc(approved.history, ReviewApproved(g, kind), g);
  }

  lemma {:induction false} RejectOutcome(db: Db, verdict: Verdict, kind: Kind, g: int)
    requires g in db.goals && Reviewable(db.goals[g]) && verdict.Reject?
    ensures var d := Uninterrupted(db, Chosen(verdict, kind, g, db.goals[g]));
            && d.goals == db.goals[g := Blocked]
            && d.history != [] && d.history[|d.history| - 1] == ReviewRejected(g)
            && Decisions(d.history, g) == Decisions(db.history, g) + 1
  {
    hide Decisions;
    var st := db.goals[g];
    var noted := AddBlocker(db, g);
    var blocked := Transition(noted, g, Blocked, Review);
    assert Uninterrupted(db, Chosen(verdict, kind, g, st)) == Uninterrupted(noted, Blocking(g));
    assert Uninterrupted(noted, Blocking(g)) == Uninterrupted(blocked, RecordingRejection(g));
    var recorded := Record(blocked, ReviewRejected(g));
    assert Uninterrupted(blocked, RecordingRejection(g)) == Uninterrupted(recorded, Idle) == recorded;
    DecisionsSnoc(db.history, BlockerRecorded(g), g);
    DecisionsSnoc(noted.history, Changed(g, st, Blocked, Review), g);
    DecisionsSnoc(blocked.history, ReviewRejected(g), g);
  }

  // ---------------------------------------------------------------- one review, from its queue id

  /** Exactly this goal was waiting for a decision, and has got it: its status, the events, the blocker of a
    * rejection, the work item of an approved goal approval; all else is as it was. */
  predicate DecidedFrom(db: Db, d: Db, verdict: Verdict, kind: Kind, g: int) {
    && g in db.goals && g > 0 && (db.goals[g] == Created || db.goals[g] == Planned)
    && d.nextGoal == db.nextGoal && d.intake == db.intake && db.tasks <= d.tasks
    && match verdict
       case Approve =>
         && d.goals == db.goals[g := Approved] && d.openBlockers == db.openBlockers
         && d.history == db.history + (if db.goals[g] == Created then [Changed(g, Created, Planned, Review)] else [])
                         + [Changed(g, Planned, Approved, Review), ReviewApproved(g, kind)]
         && (if kind.GoalApprovalRef?
             then |d.tasks| <= |db.tasks| + 1 && exists t | t in d.tasks :: t.key == DeliveryKey(g)
             else d.tasks == db.tasks)
       case Reject(_) =>
         && d.goals == db.goals[g := Blocked] && d.openBlockers == db.openBlockers + [g] && d.tasks == db.tasks
         && d.history == db.history + [BlockerRecorded(g), Changed(g, db.goals[g], Blocked, Review), ReviewRejected(g)]
  }

  /** Decided if it waits for a decision, and otherwise nothing changes. */
  predicate DecidedOrNot(db: Db, d: Db, verdict: Verdict, kind: Kind, g: int) {
    if g in db.goals && (db.goals[g] == Created || db.goals[g] == Planned) then DecidedFrom(db, d, verdict, kind, g) else d == db
  }

  lemma {:induction false} TransitionStep(db: Db, g: int, to: Status, next: Phase)
    requires g in db.goals && Allowed(db.goals[g], to) && db.goals[g] != to
    ensures TryTransition(db, g, to, next)
         == (db.(goals := db.goals[g := to], history := db.history + [Changed(g, db.goals[g], to, Review)]), next)
  {
  }

  lemma {:induction false} ApprovedFrom(db: Db, kind: Kind, g: int)
    requires g in db.goals && g > 0 && db.goals[g] == Planned
    ensures DecidedFrom(db, Uninterrupted(db, Approving(kind, g)), Approve, kind, g)
    ensures Uninterrupted(db, Chosen(Approve, kind, g, Planned)) == Uninterrupted(db, Approving(kind, g))
  {
    hide DeliveryKey;
    TransitionStep(db, g, Approved, RecordingApproval(kind, g));
    var approved := Transition(db, g, Approved, Review);
    var recorded := Record(approved, ReviewApproved(g, kind));
    hide TryTransition, Transition, Allowed;
    assert Uninterrupted(db, Approving(kind, g)) == Uninterrupted(approved, RecordingApproval(kind, g));
    assert Uninterrupted(approved, RecordingApproval(kind, g))
        == Uninterrupted(recorded, if kind.GoalApprovalRef? then Delivering(g) else Idle);
    var delivered := Next(recorded, Delivering(g)).0;
    assert Uninterrupted(recorded, Delivering(g)) == Uninterrupted(delivered, Idle) == delivered;
    if !exists t | t in db.tasks :: t.key == DeliveryKey(g) {
      assert Task(DeliveryKey(g), g) in CreateTaskOnce(recorded, DeliveryKey(g), g).tasks;
    }
    assert db.history + [] + [Changed(g, Planned, Approved, Review), ReviewApproved(g, kind)] == recorded.history;
  }

  lemma {:induction false} CreatedApproved(db: Db, kind: Kind, g: int)
    requires g in db.goals && g > 0 && db.goals[g] == Created
    ensures DecidedFrom(db, Uninterrupted(db, Chosen(Approve, kind, g, Created)), Approve, kind, g)
  {
    TransitionStep(db, g, Planned, Approving(kind, g));
    var planned := Transition(db, g, Planned, Review);
    assert Uninterrupted(db, Chosen(Approve, kind, g, Created)) == Uninterrupted(planned, Approving(kind, g));
    ApprovedFrom(planned, kind, g);
    assert planned.goals[g := Approved] == db.goals[g := Approved];
    hide Uninterrupted, DeliveryKey;
  }

  lemma {:induction false} RejectedFrom(db: Db, verdict: Verdict, kind: Kind, g: int)
    requires g in db.goals && g > 0 && (db.goals[g] == Created || db.goals[g] == Planned) && verdict.Reject?
    ensures DecidedFrom(db, Uninterrupted(db, Chosen(verdict, kind, g, db.goals[g])), verdict, kind, g)
  {
    var noted := AddBlocker(db, g);
    TransitionStep(noted, g, Blocked, RecordingRejection(g));
    var blocked := Transition(noted, g, Blocked, Review);
    var recorded := Record(blocked, ReviewRejected(g));
    assert Uninterrupted(db, Chosen(verdict, kind, g, db.goals[g])) == Uninterrupted(noted, Blocking(g));
    assert Uninterrupted(noted, Blocking(g)) == Uninterrupted(blocked, RecordingRejection(g));
    assert Uninterrupted(blocked, RecordingRejection(g)) == Uninterrupted(recorded, Idle) == recorded;
  }

  lemma {:induction false} GoalDecided(db: Db, verdict: Verdict, kind: Kind, g: int)
    requires g in db.goals ==> g > 0
    ensures DecidedOrNot(db, Uninterrupted(db, Fetching(verdict, kind, g)), verdict, kind, g)
    ensures g in db.goals ==> DecidedOrNot(db, Uninterrupted(db, Chosen(verdict, kind, g, db.goals[g])), verdict, kind, g)
  {
    if g in db.goals {
      var st := db.goals[g];
      assert Uninterrupted(db, Fetching(verdict, kind, g)) == Uninterrupted(db, Chosen(verdict, kind, g, st));
      if st == Created && verdict.Approve? {
        CreatedApproved(db, kind, g);
      } else if st == Planned && verdict.Approve? {
        ApprovedFrom(db, kind, g);
      } else if st == Created || st == Planned {
        RejectedFrom(db, verdict, kind, g);
      }
      hide DecidedFrom;
    }
  }

  /** What a queue id stands for.  `goal` and `goal-approval`: the goal with that id is decided.  `intake-goal`:
    * the goal linked to the item is decided; a draft without one gets a new goal, which is linked and decided.
    * Without a decision to take, without such an item, or for a rejection without a reason, nothing changes. */
  lemma {:induction false} ReviewOfItem(db: Db, verdict: Verdict, kind: Kind, id: int)
    requires db.nextGoal > 0 && forall g | g in db.goals :: 0 < g < db.nextGoal
    ensures var d := Reviewed(db, verdict, kind, id);
            if verdict == Reject(false) then d == db
            else if kind != IntakeGoalRef then DecidedOrNot(db, d, verdict, kind, id)
            else if id !in db.intake then d == db
            else match db.intake[id]
              case Intake(Some(g), _) => DecidedOrNot(db, d, verdict, kind, g)
              case Intake(None, false) => d == db
              case Intake(None, true) =>
                DecidedFrom(
                  db.(goals := db.goals[db.nextGoal := Created], nextGoal := db.nextGoal + 1,
                      intake := db.intake[id := Intake(Some(db.nextGoal), true)]),
                  d, verdict, kind, db.nextGoal)
  {
    hide DecidedFrom;
    if verdict != Reject(false) {
      if kind != IntakeGoalRef {
        GoalDecided(db, verdict, kind, id);
      } else if id in db.intake {
        match db.intake[id]
        case Intake(Some(g), _) => GoalDecided(db, verdict, kind, g);
        case Intake(None, false) =>
        case Intake(None, true) => DraftDecided(db, verdict, id);
      }
    }
  }

  lemma {:induction false} DraftDecided(db: Db, verdict: Verdict, id: int)
    requires db.nextGoal > 0 && id in db.intake && db.intake[id] == Intake(None, true) && verdict != Reject(false)
    ensures DecidedFrom(
              db.(goals := db.goals[db.nextGoal := Created], nextGoal := db.nextGoal + 1,
                  intake := db.intake[id := Intake(Some(db.nextGoal), true)]),
              Reviewed(db, verdict, IntakeGoalRef, id), verdict, IntakeGoalRef, db.nextGoal)
  {
    var g := db.nextGoal;
    var linked := db.(goals := db.goals[g := Created], nextGoal := g + 1, intake := db.intake[id := Intake(Some(g), true)]);
    assert Uninterrupted(CreateGoal(db), Linking(verdict, id, g)) == Uninterrupted(linked, Chosen(verdict, IntakeGoalRef, g, Created));
    GoalDecided(linked, verdict, IntakeGoalRef, g);
    hide DecidedFrom, Uninterrupted;
  }

  // ---------------------------------------------------------------- where the promise stops

  const ONE_PLANNED := Db(map[1 := Planned], 2, map[], [], [Changed(1, Created, Planned, Other)], [])

  lemma {:induction false} PlannedRun() returns (r: Run)
    ensures GivenUp(r, 1) == 0 && Exec(r) == State(ONE_PLANNED, map[])
  {
    var a := Then(Start, NewGoal);
    assert Exec(a) == State(CreateGoal(EMPTY), map[]);
    r := Then(a, ChangeStatus(1, Planned));
    assert Exec(r).db.history == [Changed(1, Created, Planned, Other)];
  }

  /** Two reviews at once: the rejection has read the status before the approval changes it, and the
    * store lets an approved goal be blocked.  The goal ends blocked, decided both ways, with a
    * delivery item, and was never reopened. */
  lemma {:induction false} ConcurrentReviewsDecideBothWays() returns (r: Run)
    ensures var db := Exec(r).db;
            && ReviewApproved(1, GoalApprovalRef) in db.history && ReviewRejected(1) in db.history
            && Reopenings(db.history, 1) == 0
            && 1 in db.goals && db.goals[1].Blocked? && |db.tasks| == 1
  {
    hide DeliveryKey;
    var r0 := PlannedRun();
    var r1 := Then(r0, Begin(1, Approve, GoalApprovalRef, 1));
    assert Exec(r1) == State(ONE_PLANNED, map[1 := Fetching(Approve, GoalApprovalRef, 1)]);
    var r2 := Then(r1, Begin(2, Reject(true), GoalRef, 1));
    assert Exec(r2) == State(ONE_PLANNED,
      map[1 := Fetching(Approve, GoalApprovalRef, 1), 2 := Fetching(Reject(true), GoalRef, 1)]);
    var r3 := Then(r2, Advance(1));
    var approving := Chosen(Approve, GoalApprovalRef, 1, Planned);
    assert Exec(r3) == State(ONE_PLANNED, map[1 := approving, 2 := Fetching(Reject(true), GoalRef, 1)]);
    var r4 := Then(r3, Advance(2));
    assert Exec(r4) == State(ONE_PLANNED, map[1 := approving, 2 := Chosen(Reject(true), GoalRef, 1, Planned)]);
    var r5 := Then(r4, Advance(2));
    var d5 := AddBlocker(ONE_PLANNED, 1);
    assert Exec(r5) == State(d5, map[1 := approving, 2 := Blocking(1)]);
    var r6 := Then(r5, Advance(1));
    var d6 := Transition(d5, 1, Approved, Review);
    assert Exec(r6) == State(d6, map[1 := RecordingApproval(GoalApprovalRef, 1), 2 := Blocking(1)]);
    var d7 := Record(d6, ReviewApproved(1, GoalApprovalRef));
    r := RaceEnds(r6, d7);
    RaceHistory(d7);
  }

  lemma {:induction false} RaceEnds(r6: Run, d7: Db) returns (r: Run)
    requires var s := Exec(r6);
             && s.clients == map[1 := RecordingApproval(GoalApprovalRef, 1), 2 := Blocking(1)]
             && s.db.goals == map[1 := Approved] && s.db.tasks == []
             && d7 == Record(s.db, ReviewApproved(1, GoalApprovalRef))
    ensures var db := Exec(r).db;
            && db.history == d7.history + [Changed(1, Approved, Blocked, Review)] + [ReviewRejected(1)]
            && db.goals == map[1 := Blocked] && |db.tasks| == 1
  {
    hide DeliveryKey;
    var r7 := Then(r6, Advance(1));
    assert Exec(r7) == State(d7, map[1 := Delivering(1), 2 := Blocking(1)]);
    var r8 := Then(r7, Advance(1));
    var d8 := CreateTaskOnce(d7, DeliveryKey(1), 1);
    assert Exec(r8) == State(d8, map[1 := Idle, 2 := Blocking(1)]);
    r := RejectionEnds(r8, d8);
  }

  lemma {:induction false} RejectionEnds(r8: Run, d8: Db) returns (r: Run)
    requires Exec(r8) == State(d8, map[1 := Idle, 2 := Blocking(1)]) && d8.goals == map[1 := Approved]
    ensures var db := Exec(r).db;
            && db.history == d8.history + [Changed(1, Approved, Blocked, Review)] + [ReviewRejected(1)]
            && db.goals == map[1 := Blocked] && db.tasks == d8.tasks
  {
    var r9 := Then(r8, Advance(2));
    var d9 := Transition(d8, 1, Blocked, Review);
    assert Exec(r9) == State(d9, map[1 := Idle, 2 := RecordingRejection(1)]);
    r := Then(r9, Advance(2));
  }

  lemma {:induction false} RaceHistory(d7: Db)
    requires d7.history
          == ONE_PLANNED.history + [BlockerRecorded(1)] + [Changed(1, Planned, Approved, Review)] + [ReviewApproved(1, GoalApprovalRef)]
    ensures Reopenings(d7.history + [Changed(1, Approved, Blocked, Review)] + [ReviewRejected(1)], 1) == 0
  {
    hide Reopenings;
    var h0 := ONE_PLANNED.history;
    ReopeningsSnoc([], Changed(1, Created, Planned, Other), 1);
    assert [] + [Changed(1, Created, Planned, Other)] == h0;
    NoReopenings();
    var h1 := h0 + [BlockerRecorded(1)];
    ReopeningsSnoc(h0, BlockerRecorded(1), 1);
    var h2 := h1 + [Changed(1, Planned, Approved, Review)];
    ReopeningsSnoc(h1, Changed(1, Planned, Approved, Review), 1);
    ReopeningsSnoc(h2, ReviewApproved(1, GoalApprovalRef), 1);
    ReopeningsSnoc(d7.history, Changed(1, Approved, Blocked, Review), 1);
    ReopeningsSnoc(d7.history + [Changed(1, Approved, Blocked, Review)], ReviewRejected(1), 1);
  }

  lemma {:induction false} NoReopenings()
    ensures Reopenings([], 1) == 0
  {
  }

  /** If the work item cannot be stored, the goal stays approved without one, and settled: nothing but a
    * reopening will change that. */
  lemma {:induction false} DeliveryCanBeLost() returns (r: Run)
    ensures var s := Exec(r);
            && Settled(s, 1) && ReviewApproved(1, GoalApprovalRef) in s.db.history && s.db.goals[1].Approved?
            && !HasItem(s.db, 1) && GivenUp(r, 1) == 1
  {
    var r0 := PlannedRun();
    var begun := Then(r0, Begin(1, Approve, GoalApprovalRef, 1));
    var r1 := Then(begun, Advance(1));
    assert Exec(r1) == State(ONE_PLANNED, map[1 := Chosen(Approve, GoalApprovalRef, 1, Planned)]);
    var moved := Then(r1, Advance(1));
    var d1 := Transition(ONE_PLANNED, 1, Approved, Review);
    assert Exec(moved) == State(d1, map[1 := RecordingApproval(GoalApprovalRef, 1)]);
    var r2 := Then(moved, Advance(1));
    var d2 := Record(d1, ReviewApproved(1, GoalApprovalRef));
    assert Exec(r2) == State(d2, map[1 := Delivering(1)]);
    r := Then(r2, Fail(1));
    assert Exec(r) == State(d2, map[1 := Idle]);
    assert GivenUp(begun, 1) == 0 && GivenUp(r1, 1) == 0 && GivenUp(moved, 1) == 0 && GivenUp(r2, 1) == 0;
  }
}
