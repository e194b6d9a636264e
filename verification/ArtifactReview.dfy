/** Reviews of skill artifacts, design requests and design outputs. */
module ArtifactReview {
  import opened Counting
  import Decimal

  datatype Kind = SkillOutput | DesignRequest | DesignOutput
  datatype Status = ReviewRequired | NeedsReview | Accepted | Rejected | Archived | OtherStatus

  /** `promotable` says that the artifact belongs to a project that is known. */
  datatype Artifact = Artifact(kind: Kind, status: Status, promotable: bool)

  datatype Task = Task(key: string, artifact: int)

  datatype Event = Changed(artifact: int, from: Status, to: Status)

  /** The rows; `outputs` lists the request of every design output that a review produced. */
  datatype Db = Db(
    artifacts: map<int, Artifact>, nextID: int, tasks: seq<Task>, outputs: seq<int>, log: seq<Event>)

  datatype Verdict = Accept | Reject | Archive

  /** The two commands: one reviews any artifact as a skill artifact, the other only design artifacts. */
  datatype Via = SkillReview | DesignReview

  function Target(v: Verdict): Status {
    match v case Accept => Accepted case Reject => Rejected case Archive => Archived
  }

  predicate IsQueue(st: Status) { st.ReviewRequired? || st.NeedsReview? }

  /** The status from which a command takes a decision. */
  function QueueOf(via: Via, kind: Kind): Status {
    if via.DesignReview? && kind.DesignOutput? then NeedsReview else ReviewRequired
  }

  function WorkItemKey(id: int): string
    requires id >= 0
  {
    "skill-artifact-" + Decimal.Format(id)
  }

  function CreateTaskOnce(db: Db, key: string, id: int): Db {
    if exists t | t in db.tasks :: t.key == key then db else db.(tasks := db.tasks + [Task(key, id)])
  }

  /** Where a review stands between two calls. */
  datatype Phase =
    | Idle
    | Promoting(id: int, seen: Status)
    | Executing(id: int, seen: Status)
    | Writing(id: int, seen: Status, to: Status)

  /** The first read, and the branch it leads to. */
  function Open(db: Db, via: Via, id: int, v: Verdict): Phase {
    if id !in db.artifacts then Idle
    else
      var a := db.artifacts[id];
      if via.DesignReview? && a.kind.SkillOutput? then Idle
      else if a.status != Target(v) && a.status != QueueOf(via, a.kind) then Idle
      else if v.Accept? && via.SkillReview? then Promoting(id, a.status)
      else if v.Accept? && a.kind.DesignRequest? && a.status != Accepted then Executing(id, a.status)
      else Writing(id, a.status, Target(v))
  }

  /** What the design tool and the bookkeeping around it do. */
  datatype Execution = Produced | ProducedThenFailed | NotProduced

  /** `ReviewSkillArtifact`: the status is written whatever it was. */
  function Write(db: Db, id: int, to: Status): Db {
    if id !in db.artifacts then db
    else
      var from := db.artifacts[id].status;
      db.(artifacts := db.artifacts[id := db.artifacts[id].(status := to)],
          log := if from == to then db.log else db.log + [Changed(id, from, to)])
  }

  /** The output belongs to the request's project. */
  function CreateOutput(db: Db, request: int): Db {
    var promotable := request in db.artifacts && db.artifacts[request].promotable;
    db.(artifacts := db.artifacts[db.nextID := Artifact(DesignOutput, NeedsReview, promotable)],
        nextID := db.nextID + 1, outputs := db.outputs + [request])
  }

  function Next(db: Db, phase: Phase, e: Execution): (Db, Phase) {
    match phase
    case Idle => (db, Idle)
    case Promoting(id, seen) =>
      if id in db.artifacts && db.artifacts[id].promotable && id > 0
      then (CreateTaskOnce(db, WorkItemKey(id), id), Writing(id, seen, Accepted)) else (db, Idle)
    case Executing(id, seen) =>
      (if e.NotProduced? then db else CreateOutput(db, id),
       Writing(id, seen, if e.Produced? then Accepted else Rejected))
    case Writing(id, seen, to) => (Write(db, id, to), Idle)
  }

  function Remaining(phase: Phase): nat {
    match phase case Idle => 0 case Writing(_, _, _) => 1 case _ => 2
  }

  function Uninterrupted(db: Db, phase: Phase, e: Execution): Db
    decreases Remaining(phase)
  {
    if phase.Idle? then db else var (d, p) := Next(db, phase, e); Uninterrupted(d, p, e)
  }

  class ArtifactStore {
    var db: Db

    constructor (start: Db)
      ensures db == start
    {
      db := start;
    }

    method RunSkillArtifactReview(id: int, v: Verdict)
      modifies this
      ensures forall e :: db == Uninterrupted(old(db), Open(old(db), SkillReview, id, v), e)
    {
      if id !in db.artifacts {
        return;
      }
      var a := db.artifacts[id];
      var status := Target(v);
      if a.status != status && !a.status.ReviewRequired? {
        return;
      }
      ghost var was := db;
      if v.Accept? {
        if !a.promotable || id <= 0 {
          return;
        }
        db := CreateTaskOnce(db, WorkItemKey(id), id);
        assert forall e :: Uninterrupted(was, Promoting(id, a.status), e) == Uninterrupted(db, Writing(id, a.status, status), e);
      }
      ghost var mid := db;
      db := Write(db, id, status);
      assert forall e :: Uninterrupted(mid, Writing(id, a.status, status), e) == Uninterrupted(db, Idle, e);
    }

    method RunDesignArtifactReview(id: int, v: Verdict, e: Execution)
      modifies this
      ensures db == Uninterrupted(old(db), Open(old(db), DesignReview, id, v), e)
    {
      if id !in db.artifacts || db.artifacts[id].kind.SkillOutput? {
        return;
      }
      var a := db.artifacts[id];
      var status := Target(v);
      var queue := if a.kind.DesignRequest? then ReviewRequired else NeedsReview;
      if a.status != status && a.status != queue {
        return;
      }
      ghost var outcome := Uninterrupted(db, Open(db, DesignReview, id, v), e);
      if a.kind.DesignRequest? && v.Accept? && a.status != status {
        if !e.NotProduced? {
          db := CreateOutput(db, id);
        }
        if !e.Produced? {
          status := Rejected;
        }
      }
      assert outcome == Uninterrupted(db, Writing(id, a.status, status), e);
      db := Write(db, id, status);
      assert outcome == Uninterrupted(db, Idle, e);
    }
  }

  // ---------------------------------------------------------------- one review, start to end

  /** The command accepts the verdict for the artifact as it stands: it is in the queue, and a skill
    * artifact to be accepted can become work. */
  predicate Decides(db: Db, via: Via, id: int, v: Verdict) {
    && id in db.artifacts
    && !(via.DesignReview? && db.artifacts[id].kind.SkillOutput?)
    && db.artifacts[id].status == (if via == DesignReview && db.artifacts[id].kind == DesignOutput then NeedsReview else ReviewRequired)
    && (via.SkillReview? && v.Accept? ==> db.artifacts[id].promotable && id > 0)
  }

  predicate DecidedOnce(db: Db, after: Db, id: int)
    requires id in db.artifacts && id in after.artifacts
  {
    var from, to := db.artifacts[id].status, after.artifacts[id].status;
    !IsQueue(to) && after.log == db.log + [Changed(id, from, to)]
  }

  predicate HasTask(db: Db, key: string) { exists t | t in db.tasks :: t.key == key }

  /** The verdict the artifact already has, given again by the command for skill artifacts, which then
    * makes sure that the work item exists. */
  predicate AddsMissingTask(db: Db, via: Via, id: int, v: Verdict) {
    && via.SkillReview? && v.Accept? && id in db.artifacts && id > 0
    && db.artifacts[id].status.Accepted? && db.artifacts[id].promotable && !HasTask(db, WorkItemKey(id))
  }

  /** An uninterrupted review changes the store exactly when it decides an artifact in its queue or
    * supplies a missing work item; every repetition and every refused verdict leaves it as it was. */
  lemma {:induction false} ReviewOutcome(db: Db, via: Via, id: int, v: Verdict, e: Execution)
    requires id < db.nextID
    ensures var after := Uninterrupted(db, Open(db, via, id, v), e);
            after != db <==> Decides(db, via, id, v) || AddsMissingTask(db, via, id, v)
    ensures Decides(db, via, id, v) ==>
              var after := Uninterrupted(db, Open(db, via, id, v), e);
              id in after.artifacts && DecidedOnce(db, after, id)
    ensures !Decides(db, via, id, v) ==>
              var after := Uninterrupted(db, Open(db, via, id, v), e);
              after.log == db.log && after.artifacts == db.artifacts && after.outputs == db.outputs
  {
    hide WorkItemKey;
    var p := Open(db, via, id, v);
    if !p.Idle? {
      var a := db.artifacts[id];
      var (d, q) := Next(db, p, e);
      if p.Writing? {
        assert Uninterrupted(db, p, e) == Write(db, id, p.to);
      } else if q.Writing? {
        assert Uninterrupted(d, q, e) == Write(d, id, q.to);
        assert d.artifacts[id] == a;
      }
      if db.artifacts[id].status == Target(v) {
        assert db.artifacts[id := a.(status := a.status)] == db.artifacts;
      }
    }
  }

  /** The status that a decision leaves: an accepted request for which the tool did not do all of its work is
    * rejected. */
  function StatusLeft(kind: Kind, via: Via, v: Verdict, e: Execution): Status {
    match v
    case Reject => Rejected
    case Archive => Archived
    case Accept => if via == DesignReview && kind == DesignRequest && e != Produced then Rejected else Accepted
  }

  /** The new status is recorded; an accepted request gets its output, which waits for its own review in the same
    * project; an accepted skill review makes sure of the work item; and nothing else changes. */
  lemma {:induction false} ReviewLeaves(db: Db, via: Via, id: int, v: Verdict, e: Execution)
    requires id < db.nextID && Decides(db, via, id, v)
    ensures var after, a := Uninterrupted(db, Open(db, via, id, v), e), db.artifacts[id];
            var status := StatusLeft(a.kind, via, v, e);
            var rows := db.artifacts[id := a.(status := status)];
            && after.log == db.log + [Changed(id, a.status, status)]
            && (if via == DesignReview && a.kind == DesignRequest && v == Accept && e != NotProduced
                then after.artifacts == rows[db.nextID := Artifact(DesignOutput, NeedsReview, a.promotable)]
                     && after.nextID == db.nextID + 1 && after.outputs == db.outputs + [id]
                else after.artifacts == rows && after.nextID == db.nextID && after.outputs == db.outputs)
            && (if via == SkillReview && v == Accept
                then HasTask(after, WorkItemKey(id))
                     && (after.tasks == db.tasks || after.tasks == db.tasks + [Task(WorkItemKey(id), id)])
                else after.tasks == db.tasks)
  {
    hide WorkItemKey;
    var p, a := Open(db, via, id, v), db.artifacts[id];
    var (d, q) := Next(db, p, e);
    if p.Writing? {
      assert Uninterrupted(db, p, e) == Uninterrupted(d, Idle, e) == d;
    } else {
      assert Uninterrupted(db, p, e) == Uninterrupted(d, q, e) == Uninterrupted(Write(d, id, q.to), Idle, e) == Write(d, id, q.to);
      assert d.artifacts[id] == a;
    }
    if p.Promoting? && !HasTask(db, WorkItemKey(id)) {
      assert Task(WorkItemKey(id), id) in d.tasks;
    }
    if p.Executing? && e != NotProduced {
      var output := Artifact(DesignOutput, NeedsReview, a.promotable);
      var status := StatusLeft(a.kind, via, v, e);
      assert db.artifacts[db.nextID := output][id := a.(status := status)]
          == db.artifacts[id := a.(status := status)][db.nextID := output];
    }
  }

  // ---------------------------------------------------------------- interleaved reviews

  datatype State = State(db: Db, clients: map<int, Phase>)
  {
    function At(c: int): Phase { if c in clients then clients[c] else Idle }
  }

  datatype Action =
    | Begin(client: int, via: Via, id: int, verdict: Verdict)
    | Advance(client: int, e: Execution)
    | Fail(client: int)
    | NewArtifact(artifact: Artifact)

  function Do(s: State, a: Action): State {
    match a
    case Begin(c, via, id, v) => if s.At(c).Idle? then s.(clients := s.clients[c := Open(s.db, via, id, v)]) else s
    case Advance(c, e) => var (d, p) := Next(s.db, s.At(c), e); State(d, s.clients[c := p])
    case Fail(c) => s.(clients := s.clients[c := Idle])
    case NewArtifact(x) =>
      s.(db := s.db.(artifacts := s.db.artifacts[s.db.nextID := x], nextID := s.db.nextID + 1))
  }

  datatype Run = Start | Then(before: Run, action: Action)

  function Exec(r: Run): State {
    match r
    case Start => State(Db(map[], 1, [], [], []), map[])
    case Then(before, a) => Do(Exec(before), a)
  }

  /** Work items carry their artifact's key, one each. */
  predicate TasksSound(db: Db) {
    && (forall i | 0 <= i < |db.tasks| :: db.tasks[i].artifact > 0 && db.tasks[i].key == WorkItemKey(db.tasks[i].artifact))
    && forall i, j | 0 <= i < j < |db.tasks| :: db.tasks[i].artifact != db.tasks[j].artifact
  }

  lemma {:induction false} TaskKeeps(db: Db, id: int)
    requires TasksSound(db) && id > 0
    ensures TasksSound(CreateTaskOnce(db, WorkItemKey(id), id))
  {
    hide WorkItemKey;
    assert forall i | 0 <= i < |db.tasks| :: db.tasks[i] in db.tasks;
  }

  /** Under every interleaving, whatever fails: at most one follow-on task per artifact. */
  lemma {:induction false} OneTaskPerArtifact(r: Run)
    ensures TasksSound(Exec(r).db)
  {
    if r.Then? {
      OneTaskPerArtifact(r.before);
      hide TasksSound;
      var db := Exec(r.before).db;
      if r.action.Advance? && Exec(r.before).At(r.action.client).Promoting? {
        var id := Exec(r.before).At(r.action.client).id;
        if id > 0 { TaskKeeps(db, id); }
      } else {
        SameTasks(db, Exec(r).db);
      }
    }
  }

  lemma {:induction false} SameTasks(d: Db, e: Db)
    requires TasksSound(d) && d.tasks == e.tasks
    ensures TasksSound(e)
  {
  }

  // ---------------------------------------------------------------- leaving the queue

  /** Status changes of an artifact. */
  function Changes(log: seq<Event>, id: int): nat { CountIf(log, (e: Event) => e.artifact == id) }

  predicate Waiting(db: Db, id: int) { id !in db.artifacts || IsQueue(db.artifacts[id].status) }

  /** Changes made, and one that is still to come while the artifact waits in its queue. */
  function Weight(db: Db, id: int): nat { Changes(db.log, id) + (if Waiting(db, id) then 1 else 0) }

  /** A write that finds the artifact decided otherwise already: someone has been faster. */
  predicate Overtakes(s: State, a: Action, id: int) {
    && a.Advance? && s.At(a.client).Writing? && s.At(a.client).id == id
    && !Waiting(s.db, id) && s.db.artifacts[id].status != s.At(a.client).to
  }

  function Overtaken(r: Run, id: int): nat {
    match r
    case Start => 0
    case Then(before, a) => Overtaken(before, id) + (if Overtakes(Exec(before), a, id) then 1 else 0)
  }

  predicate Numbered(db: Db) { db.nextID >= 1 && forall id | id in db.artifacts :: id < db.nextID }

  /** A review under way is for a stored artifact and will not put it back into a queue; it runs the tool only
    * for a request that it found waiting. */
  predicate Headed(db: Db, p: Phase) {
    (!p.Idle? ==> p.id in db.artifacts) && (p.Writing? ==> !IsQueue(p.to)) && (p.Executing? ==> IsQueue(p.seen))
  }

  predicate Inv(s: State) { Numbered(s.db) && forall c | c in s.clients :: Headed(s.db, s.clients[c]) }

  lemma {:induction false} StepKeeps(s: State, a: Action)
    requires Inv(s)
    ensures Inv(Do(s, a))
  {
    hide WorkItemKey, Changes;
  }

  lemma {:induction false} RunsKeep(r: Run)
    ensures Inv(Exec(r))
  {
    if r.Then? {
      RunsKeep(r.before);
      StepKeeps(Exec(r.before), r.action);
    }
  }

  lemma {:induction false} ChangesSnoc(log: seq<Event>, e: Event, id: int)
    ensures Changes(log + [e], id) == Changes(log, id) + (if e.artifact == id then 1 else 0)
  {
    CountIfSnoc(log, e, (x: Event) => x.artifact == id);
  }

  lemma {:induction false} WriteWeight(db: Db, k: int, to: Status, id: int)
    requires k in db.artifacts && !IsQueue(to)
    ensures Weight(Write(db, k, to), id)
         <= Weight(db, id) + (if k == id && !Waiting(db, id) && db.artifacts[id].status != to then 1 else 0)
  {
    hide Changes;
    ChangesSnoc(db.log, Changed(k, db.artifacts[k].status, to), id);
    if k != id {
      assert Waiting(Write(db, k, to), id) == Waiting(db, id);
    }
  }

  lemma {:induction false} StepWeight(s: State, a: Action, id: int)
    requires Inv(s)
    ensures Weight(Do(s, a).db, id) <= Weight(s.db, id) + (if Overtakes(s, a, id) then 1 else 0)
  {
    hide WorkItemKey, Changes;
    if a.Advance? && s.At(a.client).Writing? {
      var p := s.At(a.client);
      WriteWeight(s.db, p.id, p.to, id);
      hide Weight, Write;
    }
  }

  /** Every run, with any reviews at once, any call failing: an artifact changes at most once, and once
    * more for each write that came too late. */
  lemma {:induction false} ChangesAccounted(r: Run, id: int)
    ensures Changes(Exec(r).db.log, id) + (if Waiting(Exec(r).db, id) then 1 else 0) <= 1 + Overtaken(r, id)
  {
    if r.Then? {
      ChangesAccounted(r.before, id);
      RunsKeep(r.before);
      StepWeight(Exec(r.before), r.action, id);
      hide Changes, Waiting, Overtakes;
    }
  }

  predicate Reviews(p: Phase, id: int) { !p.Idle? && p.id == id }

  predicate Busy(s: State, id: int) { exists c | c in s.clients :: Reviews(s.clients[c], id) }

  /** No review of this artifact begins while another one of it is under way.  Reviews of other
    * artifacts, and everything else, interleave freely. */
  predicate Orderly(r: Run, id: int) {
    match r
    case Start => true
    case Then(before, a) => Orderly(before, id) && (a.Begin? && a.id == id ==> !Busy(Exec(before), id))
  }

  /** What the review under way has read is still so, and it moves out of a queue or stays put. */
  predicate Undisturbed(db: Db, p: Phase) {
    match p
    case Idle => true
    case Promoting(id, seen) => id in db.artifacts && db.artifacts[id].status == seen && (IsQueue(seen) || seen.Accepted?)
    case Executing(id, seen) => id in db.artifacts && db.artifacts[id].status == seen && IsQueue(seen)
    case Writing(id, seen, to) =>
      id in db.artifacts && db.artifacts[id].status == seen && !IsQueue(to) && (IsQueue(seen) || seen == to)
  }

  predicate OrderlyInv(s: State, id: int) {
    && (forall c | c in s.clients && Reviews(s.clients[c], id) :: Undisturbed(s.db, s.clients[c]))
    && forall c, d | c in s.clients && d in s.clients && Reviews(s.clients[c], id) && Reviews(s.clients[d], id) :: c == d
  }

  lemma {:induction false} OrderlyAdvance(s: State, c: int, e: Execution, id: int)
    requires Inv(s) && OrderlyInv(s, id)
    ensures OrderlyInv(Do(s, Advance(c, e)), id) && !Overtakes(s, Advance(c, e), id)
  {
    hide WorkItemKey;
    var (d, q) := Next(s.db, s.At(c), e);
    assert c in s.clients || s.At(c).Idle?;
    assert Reviews(q, id) ==> Reviews(s.At(c), id) && Undisturbed(d, q);
    assert !Reviews(s.At(c), id) && id in s.db.artifacts ==> id in d.artifacts && d.artifacts[id] == s.db.artifacts[id];
    hide Next;
  }

  lemma {:induction false} OrderlyStep(s: State, a: Action, id: int)
    requires Inv(s) && OrderlyInv(s, id) && (a.Begin? && a.id == id ==> !Busy(s, id))
    ensures OrderlyInv(Do(s, a), id) && !Overtakes(s, a, id)
  {
    match a
    case Advance(c, e) => OrderlyAdvance(s, c, e, id);
    case Begin(c, via, k, v) =>
      assert Undisturbed(s.db, Open(s.db, via, k, v)) && (Reviews(Open(s.db, via, k, v), id) ==> k == id);
      hide Open;
    case _ =>
  }

  lemma {:induction false} OrderlyRun(r: Run, id: int)
    requires Orderly(r, id)
    ensures OrderlyInv(Exec(r), id) && Overtaken(r, id) == 0
  {
    if r.Then? {
      OrderlyRun(r.before, id);
      RunsKeep(r.before);
      OrderlyStep(Exec(r.before), r.action, id);
    }
  }

  /** When reviews of one artifact do not overlap, it leaves its queue at most once and its status never
    * changes again. */
  lemma {:induction false} LeavesQueueOnce(r: Run, id: int)
    requires Orderly(r, id)
    ensures Changes(Exec(r).db.log, id) <= 1
    ensures Changes(Exec(r).db.log, id) == 1 ==> !Waiting(Exec(r).db, id)
  {
    OrderlyRun(r, id);
    ChangesAccounted(r, id);
  }

  // ---------------------------------------------------------------- outputs of design requests

  function Outputs(outputs: seq<int>, id: int): nat { Count(outputs, id) }

  predicate AboutToWrite(p: Phase, id: int) { p.Writing? && p.id == id && IsQueue(p.seen) }

  /** Reviews of an artifact that were given up between their decision and the write of its status. */
  function Losses(r: Run, id: int): nat {
    match r
    case Start => 0
    case Then(before, a) =>
      Losses(before, id) + (if a.Fail? && AboutToWrite(Exec(before).At(a.client), id) then 1 else 0)
  }

  /** Reviews that were opened to run the design tool for this request while another review of it was under
    * way. */
  function Overlaps(r: Run, id: int): nat {
    match r
    case Start => 0
    case Then(before, a) => Overlaps(before, id) + (if OpensOverlapping(Exec(before), a, id) then 1 else 0)
  }

  predicate Executes(p: Phase, id: int) { p.Executing? && p.id == id }

  predicate OpensOverlapping(s: State, a: Action, id: int) {
    && a.Begin? && s.At(a.client).Idle? && Busy(s, id)
    && Executes(Open(s.db, a.via, a.id, a.verdict), id)
  }

  function Executors(clients: map<int, Phase>, id: int): set<int> { set c | c in clients && Executes(clients[c], id) }

  predicate SomeoneWrites(clients: map<int, Phase>, id: int) { exists c | c in clients :: AboutToWrite(clients[c], id) }

  /** Outputs that may still come without another loss or overlap: one for each review about to run the tool;
    * and one for a request that waits while nobody is about to decide it. */
  function Due(s: State, id: int): nat {
    var executors := |Executors(s.clients, id)|;
    if Waiting(s.db, id) && executors == 0 && !SomeoneWrites(s.clients, id) then 1 else executors
  }

  function Budget(s: State, id: int): nat { Outputs(s.db.outputs, id) + Due(s, id) }

  lemma {:induction false} ExecutorsChange(clients: map<int, Phase>, c: int, q: Phase, id: int)
    ensures var p := if c in clients then clients[c] else Idle;
            |Executors(clients[c := q], id)|
            == |Executors(clients, id)| + (if Executes(q, id) then 1 else 0) - (if Executes(p, id) then 1 else 0)
  {
    var before, after := Executors(clients, id), Executors(clients[c := q], id);
    if Executes(q, id) {
      assert after == before + {c};
    } else {
      assert after == before - {c};
    }
  }

  /** Whether someone is about to write, after one client has moved. */
  lemma {:induction false} WritersChange(clients: map<int, Phase>, c: int, q: Phase, id: int)
    ensures AboutToWrite(q, id) ==> SomeoneWrites(clients[c := q], id)
    ensures SomeoneWrites(clients, id) && !(c in clients && AboutToWrite(clients[c], id)) ==> SomeoneWrites(clients[c := q], id)
  {
    var after := clients[c := q];
    assert c in after && after[c] == q;
    if d :| d in clients && d != c && AboutToWrite(clients[d], id) {
      assert d in after && after[d] == clients[d];
    }
  }

  /** A step of a review: an output is made by an execution only, and a write ends the waiting. */
  lemma {:induction false} NextPays(db: Db, p: Phase, e: Execution, id: int)
    requires Numbered(db) && Headed(db, p)
    ensures var (d, q) := Next(db, p, e);
            && Outputs(d.outputs, id) <= Outputs(db.outputs, id) + (if Executes(p, id) then 1 else 0)
            && (Waiting(d, id) ==> Waiting(db, id) && !AboutToWrite(p, id))
            && (Executes(p, id) && IsQueue(p.seen) ==> AboutToWrite(q, id))
            && !Executes(q, id)
  {
    hide WorkItemKey, Count;
    if p.Executing? {
      CountSnoc(db.outputs, p.id, id);
    }
  }

  lemma {:induction false} AdvancePays(s: State, c: int, e: Execution, id: int)
    requires Inv(s)
    ensures Budget(Do(s, Advance(c, e)), id) <= Budget(s, id)
  {
    var q := Next(s.db, s.At(c), e).1;
    NextPays(s.db, s.At(c), e, id);
    ExecutorsChange(s.clients, c, q, id);
    WritersChange(s.clients, c, q, id);
    hide Outputs, Next, Waiting, Inv, Executors, SomeoneWrites;
  }

  lemma {:induction false} BeginPays(s: State, c: int, via: Via, k: int, v: Verdict, id: int)
    requires Inv(s)
    ensures var a := Begin(c, via, k, v);
            Budget(Do(s, a), id) <= Budget(s, id) + (if OpensOverlapping(s, a, id) then 1 else 0)
  {
    if s.At(c).Idle? {
      var q := Open(s.db, via, k, v);
      assert Executes(q, id) ==> k == id && Waiting(s.db, id);
      ExecutorsChange(s.clients, c, q, id);
      WritersChange(s.clients, c, q, id);
      if Executes(q, id) && !Busy(s, id) {
        NobodyReviews(s, id);
      }
      hide Outputs, Open, Waiting, Inv, Executors, SomeoneWrites, Busy;
    }
  }

  lemma {:induction false} NobodyReviews(s: State, id: int)
    requires !Busy(s, id)
    ensures Executors(s.clients, id) == {} && !SomeoneWrites(s.clients, id)
  {
    forall c | c in s.clients ensures !Executes(s.clients[c], id) && !AboutToWrite(s.clients[c], id) {
      assert !Reviews(s.clients[c], id);
    }
  }

  lemma {:induction false} FailPays(s: State, c: int, id: int)
    ensures Budget(Do(s, Fail(c)), id) <= Budget(s, id) + (if AboutToWrite(s.At(c), id) then 1 else 0)
  {
    ExecutorsChange(s.clients, c, Idle, id);
    WritersChange(s.clients, c, Idle, id);
    hide Outputs, Waiting, Executors, SomeoneWrites;
  }

  lemma {:induction false} StepPays(s: State, a: Action, id: int)
    requires Inv(s)
    ensures Budget(Do(s, a), id) <= Budget(s, id)
              + (if a.Fail? && AboutToWrite(s.At(a.client), id) then 1 else 0) + (if OpensOverlapping(s, a, id) then 1 else 0)
  {
    match a
    case Begin(c, via, k, v) => BeginPays(s, c, via, k, v, id);
    case Advance(c, e) => AdvancePays(s, c, e, id);
    case Fail(c) => FailPays(s, c, id);
    case NewArtifact(x) => hide Outputs, Executors, SomeoneWrites;
  }

  lemma {:induction false} RunPays(r: Run, id: int)
    ensures Budget(Exec(r), id) <= 1 + Losses(r, id) + Overlaps(r, id)
  {
    match r
    case Start =>
      assert Executors(map[], id) == {};
    case Then(before, a) =>
      RunPays(before, id);
      RunsKeep(before);
      hide Budget, Inv, Do, OpensOverlapping;
      StepPays(Exec(before), a, id);
  }

  /** Every run, with any reviews at once, any call failing: a request gets at most one output, and one more for
    * each review that was lost before it could write its status and for each that was opened to run the tool
    * while another one was under way. */
  lemma {:induction false} OutputsAccounted(r: Run, id: int)
    ensures Outputs(Exec(r).db.outputs, id) <= 1 + Losses(r, id) + Overlaps(r, id)
  {
    RunPays(r, id);
  }

  lemma {:induction false} OrderlyDoesNotOverlap(r: Run, id: int)
    requires Orderly(r, id)
    ensures Overlaps(r, id) == 0
  {
    if r.Then? {
      OrderlyDoesNotOverlap(r.before, id);
      hide Busy;
    }
  }

  /** When reviews of one request do not overlap, it gets at most one output, and one more for each review
    * that was lost before it could write its status.  If every write succeeds, at most one. */
  lemma {:induction false} OneOutputPerRequest(r: Run, id: int)
    requires Orderly(r, id)
    ensures Outputs(Exec(r).db.outputs, id) <= 1 + Losses(r, id)
  {
    OutputsAccounted(r, id);
    OrderlyDoesNotOverlap(r, id);
  }

  // ---------------------------------------------------------------- where the promise stops

  const REQUEST := Artifact(DesignRequest, ReviewRequired, true)

  lemma {:induction false} LostReview() returns (r: Run)
    ensures Orderly(r, 1) && Losses(r, 1) == 1
    ensures Exec(r).clients == map[1 := Idle] && Exec(r).db.outputs == [1] && Exec(r).db.artifacts == map[1 := REQUEST, 2 := Artifact(DesignOutput, NeedsReview, true)]
  {
    var r1 := Then(Start, NewArtifact(REQUEST));
    var d1 := Db(map[1 := REQUEST], 2, [], [], []);
    assert Exec(r1) == State(d1, map[]) && Orderly(r1, 1) && Losses(r1, 1) == 0;
    var r2 := Then(r1, Begin(1, DesignReview, 1, Accept));
    assert Exec(r2) == State(d1, map[1 := Executing(1, ReviewRequired)]) && Orderly(r2, 1) && Losses(r2, 1) == 0;
    var r3 := Then(r2, Advance(1, Produced));
    assert Exec(r3) == State(CreateOutput(d1, 1), map[1 := Writing(1, ReviewRequired, Accepted)]);
    assert Orderly(r3, 1) && Losses(r3, 1) == 0;
    r := Then(r3, Fail(1));
  }

  /** A request whose review is lost after the design tool ran is executed again by the next one. */
  lemma {:induction false} LostWriteExecutesAgain() returns (r: Run)
    ensures Orderly(r, 1) && Losses(r, 1) == 1 && Outputs(Exec(r).db.outputs, 1) == 2
  {
    var r4 := LostReview();
    var d4 := Exec(r4).db;
    var r5 := Then(r4, Begin(1, DesignReview, 1, Accept));
    assert Exec(r5) == State(d4, map[1 := Executing(1, ReviewRequired)]) && Orderly(r5, 1) && Losses(r5, 1) == 1;
    r := Then(r5, Advance(1, Produced));
    assert Exec(r).db.outputs == [1] + [1] && [1] == [] + [1];
    CountSnoc([], 1, 1);
    CountSnoc([1], 1, 1);
  }

  /** Two reviews of one request at once: both run the design tool, and no write is lost. */
  lemma {:induction false} ConcurrentReviewsExecuteTwice() returns (r: Run)
    ensures Losses(r, 1) == 0 && Overlaps(r, 1) == 1 && Outputs(Exec(r).db.outputs, 1) == 2
  {
    var r1 := Then(Start, NewArtifact(REQUEST));
    var d1 := Db(map[1 := REQUEST], 2, [], [], []);
    assert Exec(r1) == State(d1, map[]) && Losses(r1, 1) == 0 && Overlaps(r1, 1) == 0;
    var executing, writing := Executing(1, ReviewRequired), Writing(1, ReviewRequired, Accepted);
    var r2 := Then(r1, Begin(1, DesignReview, 1, Accept));
    assert Exec(r2) == State(d1, map[1 := executing]) && Losses(r2, 1) == 0 && Overlaps(r2, 1) == 0;
    var r3 := Then(r2, Begin(2, DesignReview, 1, Accept));
    assert Reviews(Exec(r2).clients[1], 1);
    assert Exec(r3) == State(d1, map[1 := executing, 2 := executing]) && Losses(r3, 1) == 0 && Overlaps(r3, 1) == 1;
    var r4 := Then(r3, Advance(1, Produced));
    assert Exec(r4) == State(CreateOutput(d1, 1), map[1 := writing, 2 := executing]) && Losses(r4, 1) == 0 && Overlaps(r4, 1) == 1;
    r := Then(r4, Advance(2, Produced));
    assert Exec(r).db.outputs == [1] + [1] && [1] == [] + [1];
    CountSnoc([], 1, 1);
    CountSnoc([1], 1, 1);
  }

  /** An accepted design request, accepted again as a skill artifact, becomes a work item; reviewed again as
    * what it is, it stays as it was. */
  lemma {:induction false} AcceptedRequestBecomesWork(e: Execution)
    ensures var db := Db(map[1 := Artifact(DesignRequest, Accepted, true)], 2, [], [], []);
            && Uninterrupted(db, Open(db, SkillReview, 1, Accept), e) == db.(tasks := [Task("skill-artifact-1", 1)])
            && Uninterrupted(db, Open(db, DesignReview, 1, Accept), e) == db
  {
    var db := Db(map[1 := Artifact(DesignRequest, Accepted, true)], 2, [], [], []);
    assert Decimal.Format(1) == "1" && "skill-artifact-" + "1" == "skill-artifact-1";
    var d := CreateTaskOnce(db, WorkItemKey(1), 1);
    assert d.tasks == [Task("skill-artifact-1", 1)];
    hide WorkItemKey;
    assert db.artifacts[1 := db.artifacts[1].(status := Accepted)] == db.artifacts;
    assert Uninterrupted(db, Promoting(1, Accepted), e) == Uninterrupted(d, Writing(1, Accepted, Accepted), e) == Write(d, 1, Accepted);
    assert Uninterrupted(db, Writing(1, Accepted, Accepted), e) == Write(db, 1, Accepted);
  }

  /** Two reviews at once: both read the queue status, and the second write replaces the first. */
  lemma {:induction false} ConcurrentReviewsChangeTwice() returns (r: Run)
    ensures Changes(Exec(r).db.log, 1) == 2
  {
    var x := Artifact(SkillOutput, ReviewRequired, false);
    var r1 := Then(Start, NewArtifact(x));
    var d1 := Db(map[1 := x], 2, [], [], []);
    assert Exec(r1) == State(d1, map[]);
    var r2 := Then(r1, Begin(1, SkillReview, 1, Reject));
    var rejecting, archiving := Writing(1, ReviewRequired, Rejected), Writing(1, ReviewRequired, Archived);
    assert Exec(r2) == State(d1, map[1 := rejecting]);
    var r3 := Then(r2, Begin(2, SkillReview, 1, Archive));
    assert Exec(r3) == State(d1, map[1 := rejecting, 2 := archiving]);
    var r4 := Then(r3, Advance(1, NotProduced));
    var d4 := Write(d1, 1, Rejected);
    assert Exec(r4) == State(d4, map[1 := Idle, 2 := archiving]);
    r := Then(r4, Advance(2, NotProduced));
    var e1, e2 := Changed(1, ReviewRequired, Rejected), Changed(1, Rejected, Archived);
    assert Exec(r).db.log == [e1] + [e2] && [e1] == [] + [e1];
    ChangesSnoc([], e1, 1);
    ChangesSnoc([e1], e2, 1);
  }
}
