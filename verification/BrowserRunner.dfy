/** Starting a browser handoff runner with a managed profile. */
module BrowserRunner {
  import opened Wrappers

  datatype Status = Requested | Started | Completed | Expired | Cancelled | Failed

  /** The runner's answer; `metadata` says that it names a process or viewer. */
  datatype Response =
    | AnswerStarted | AnswerCompleted | AnswerNotImplemented
    | AnswerFailed(metadata: bool) | AnswerExpired(metadata: bool)
    | AnswerUnknown | StartError

  datatype Event =
    | Materialized(client: int)
    | Promoted(client: int)
    | CleanupRequested(client: int)
    | Moved(runner: int, from: Status, to: Status, client: int)

  /** The directory of a working copy is named after the runner and the encrypted artifact. */
  datatype Dir = Dir(runner: int, artifact: int)

  /** The runners; the directories that exist, with the start that unpacked into each last; whose working
    * copy each promotion has packed; and what has happened. */
  datatype Db = Db(runners: map<int, Status>, copies: map<Dir, int>, packed: map<int, int>, log: seq<Event>)

  /** `canTransitionBrowserHandoffRunner`. */
  predicate CanMove(from: Status, to: Status) {
    match from
    case Requested => to.Started? || to.Expired? || to.Cancelled? || to.Failed?
    case Started => to.Completed? || to.Expired? || to.Cancelled? || to.Failed?
    case _ => false
  }

  /** A requested runner may be started or end badly, a started one may end in any way, and an end is final. */
  lemma {:induction false} CanMoveExact(from: Status, to: Status)
    ensures CanMove(from, to) <==>
              || (from, to) in {(Requested, Started), (Started, Completed)}
              || (from in {Requested, Started} && to in {Expired, Cancelled, Failed})
  {
  }

  predicate Accepts(db: Db, r: int, to: Status) {
    r in db.runners && !to.Requested? && (db.runners[r] == to || CanMove(db.runners[r], to))
  }

  /** `UpdateBrowserHandoffRunnerStatus`; an update to the current status records nothing. */
  function Update(db: Db, r: int, to: Status, client: int): Db
    requires Accepts(db, r, to)
  {
    if db.runners[r] == to then db
    else db.(runners := db.runners[r := to], log := db.log + [Moved(r, db.runners[r], to, client)])
  }

  // ---------------------------------------------------------------- a start, step by step

  /** What remains to be done after the answer. */
  datatype Effect = Promote | Cleanup | SetTo(status: Status)

  function StartedFirst(metadata: bool): seq<Effect> { if metadata then [SetTo(Started)] else [] }

  function Plan(a: Response): seq<Effect> {
    match a
    case AnswerStarted => [SetTo(Started)]
    case AnswerCompleted => [Promote, Cleanup, SetTo(Started), SetTo(Completed)]
    case AnswerNotImplemented => [Cleanup, SetTo(Failed)]
    case AnswerFailed(m) => [Cleanup] + StartedFirst(m) + [SetTo(Failed)]
    case AnswerExpired(m) => [Cleanup] + StartedFirst(m) + [SetTo(Expired)]
    case AnswerUnknown => []
    case StartError => [Cleanup]
  }

  /** Where a start stands; `copy` is its working copy, if it has one. */
  datatype Phase =
    | Launching(runner: int)
    | Unpacking(runner: int, dir: Dir)
    | Waiting(runner: int, copy: Option<Dir>)
    | Working(runner: int, copy: Option<Dir>, answer: Response, todo: seq<Effect>)
    | Ended(managed: bool, answer: Response)
    | Gone

  /** What the outside contributes to a step: whether the call succeeds, the session's newest encrypted
    * artifact if its profile is managed, and the runner's answer. */
  datatype Input = Input(ok: bool, artifact: Option<int>, answer: Response)

  function Note(db: Db, e: Event): Db { db.(log := db.log + [e]) }

  function Next(db: Db, c: int, p: Phase, x: Input): (Db, Phase) {
    match p
    case Launching(r) =>
      if !x.ok then (db, Gone)
      else (match x.artifact
            case None => (db, Waiting(r, None))
            case Some(a) => (db, if Dir(r, a) in db.copies then Gone else Unpacking(r, Dir(r, a))))
    case Unpacking(r, dir) =>
      if x.ok then (Note(db, Materialized(c)).(copies := db.copies[dir := c]), Waiting(r, Some(dir)))
      else (db.(copies := db.copies - {dir}), Gone)
    case Waiting(r, copy) => (db, Working(r, copy, x.answer, Plan(x.answer)))
    case Working(r, copy, answer, todo) =>
      if todo == [] then (db, Ended(copy.Some?, answer))
      else
        var rest := Working(r, copy, answer, todo[1..]);
        (match todo[0]
         case Promote =>
           if copy.None? then (db, rest)
           else if x.ok && copy.value in db.copies
           then (Note(db, Promoted(c)).(packed := db.packed[c := db.copies[copy.value]]), rest)
           else (db, Working(r, copy, answer, if |todo| > 1 then [todo[1]] else []))
         case Cleanup => (if copy.Some? then Removed(db, c, copy.value) else db, rest)
         case SetTo(st) =>
           if x.ok && Accepts(db, r, st) then (Update(db, r, st, c), rest) else (db, Ended(copy.Some?, answer)))
    case _ => (db, p)
  }

  /** The directory is removed, whoever unpacked into it. */
  function Removed(db: Db, c: int, dir: Dir): Db {
    Note(db, CleanupRequested(c)).(copies := db.copies - {dir})
  }

  // ---------------------------------------------------------------- a start with nothing in between

  datatype World = World(lists: bool, artifact: Option<int>, unpacks: bool, answer: Response, promotes: bool)

  function InputAt(w: World, p: Phase): Input {
    Input(match p
          case Launching(_) => w.lists
          case Unpacking(_, _) => w.unpacks
          case Working(_, _, _, todo) => todo == [] || !todo[0].Promote? || w.promotes
          case _ => true,
      w.artifact, w.answer)
  }

  function CopyOf(w: World, r: int): Option<Dir> {
    match w.artifact case None => None case Some(a) => Some(Dir(r, a))
  }

  function Rank(p: Phase): nat {
    match p
    case Launching(_) => 4
    case Unpacking(_, _) => 3
    case Waiting(_, _) => 2
    case Working(_, _, _, _) => 1
    case _ => 0
  }

  function Left(p: Phase): nat { if p.Working? then |p.todo| else 0 }

  function Uninterrupted(db: Db, c: int, p: Phase, w: World): Db
    decreases Rank(p), Left(p)
  {
    if Rank(p) == 0 then db else var (d, q) := Next(db, c, p, InputAt(w, p)); Uninterrupted(d, c, q, w)
  }

  /** A start whose effects are as planned. */
  function Carried(db: Db, c: int, r: int, w: World, todo: seq<Effect>): Db {
    Uninterrupted(db, c, Working(r, CopyOf(w, r), w.answer, todo), w)
  }

  class RunnerStore {
    var db: Db

    constructor (start: Db)
      ensures db == start
    {
      db := start;
    }

    method UpdateStatus(r: int, to: Status, c: int) returns (ok: bool)
      modifies this
      ensures ok == old(Accepts(db, r, to))
      ensures db == if ok then Update(old(db), r, to, c) else old(db)
    {
      if r !in db.runners || to.Requested? {
        return false;
      }
      if db.runners[r] == to {
        return true;
      }
      if !CanMove(db.runners[r], to) {
        return false;
      }
      db := db.(runners := db.runners[r := to], log := db.log + [Moved(r, db.runners[r], to, c)]);
      return true;
    }

    method RequestCleanup(c: int, copy: Option<Dir>)
      modifies this
      ensures db == if copy.Some? then Removed(old(db), c, copy.value) else old(db)
    {
      if copy.Some? {
        db := db.(copies := db.copies - {copy.value}, log := db.log + [CleanupRequested(c)]);
      }
    }

    /** Optionally started, then the final status. */
    method SetFinal(c: int, r: int, w: World, startedFirst: bool, final: Status)
      modifies this
      ensures db == Carried(old(db), c, r, w, StartedFirst(startedFirst) + [SetTo(final)])
    {
      ghost var was := db;
      if startedFirst {
        var started := UpdateStatus(r, Started, c);
        assert [SetTo(Started)] + [SetTo(final)] == [SetTo(Started), SetTo(final)];
        assert [SetTo(Started), SetTo(final)][1..] == [SetTo(final)];
        if !started {
          assert Carried(was, c, r, w, [SetTo(Started), SetTo(final)]) == Uninterrupted(was, c, Ended(w.artifact.Some?, w.answer), w);
          return;
        }
        assert Carried(was, c, r, w, [SetTo(Started), SetTo(final)]) == Carried(db, c, r, w, [SetTo(final)]);
      } else {
        assert [] + [SetTo(final)] == [SetTo(final)];
      }
      ghost var mid := db;
      var ok := UpdateStatus(r, final, c);
      FinalStep(mid, c, r, w, final);
    }

    /** The profile is promoted and its working copy removed; then the runner has been started and is
      * completed.  If the promotion fails, only the copy is removed. */
    method CompleteRunner(c: int, r: int, w: World)
      requires w.answer.AnswerCompleted? && (w.artifact.Some? ==> CopyOf(w, r).value in db.copies)
      modifies this
      ensures db == Carried(old(db), c, r, w, Plan(w.answer))
    {
      var copy := CopyOf(w, r);
      PromotePlan(db, c, r, w);
      if copy.Some? && !w.promotes {
        CleanupPlan(db, c, r, w, []);
        RequestCleanup(c, copy);
        NothingLeft(db, c, r, w);
        return;
      }
      if copy.Some? {
        db := db.(packed := db.packed[c := db.copies[copy.value]], log := db.log + [Promoted(c)]);
      }
      CleanupPlan(db, c, r, w, StartedFirst(true) + [SetTo(Completed)]);
      RequestCleanup(c, copy);
      SetFinal(c, r, w, true, Completed);
    }

    method StartBrowserSessionRunner(c: int, r: int, w: World)
      modifies this
      ensures db == if r in old(db).runners && old(db).runners[r].Requested?
                    then Uninterrupted(old(db), c, Launching(r), w) else old(db)
    {
      if r !in db.runners || !db.runners[r].Requested? || !w.lists {
        return;
      }
      ghost var outcome := Uninterrupted(db, c, Launching(r), w);
      var copy := CopyOf(w, r);
      if copy.Some? {
        if copy.value in db.copies {
          assert outcome == Uninterrupted(db, c, Gone, w);
          return;
        }
        assert outcome == Uninterrupted(db, c, Unpacking(r, copy.value), w);
        if !w.unpacks {
          db := db.(copies := db.copies - {copy.value});
          assert outcome == Uninterrupted(db, c, Gone, w);
          return;
        }
        db := db.(copies := db.copies[copy.value := c], log := db.log + [Materialized(c)]);
      }
      assert outcome == Uninterrupted(db, c, Waiting(r, copy), w);
      assert outcome == Carried(db, c, r, w, Plan(w.answer));
      match w.answer {
        case AnswerStarted =>
          assert [] + [SetTo(Started)] == Plan(w.answer);
          SetFinal(c, r, w, false, Started);
        case AnswerCompleted =>
          CompleteRunner(c, r, w);
        case AnswerNotImplemented =>
          assert Plan(w.answer) == [Cleanup] + (StartedFirst(false) + [SetTo(Failed)]);
          CleanupPlan(db, c, r, w, StartedFirst(false) + [SetTo(Failed)]);
          RequestCleanup(c, copy);
          SetFinal(c, r, w, false, Failed);
        case AnswerFailed(metadata) =>
          assert Plan(w.answer) == [Cleanup] + (StartedFirst(metadata) + [SetTo(Failed)]);
          CleanupPlan(db, c, r, w, StartedFirst(metadata) + [SetTo(Failed)]);
          RequestCleanup(c, copy);
          SetFinal(c, r, w, metadata, Failed);
        case AnswerExpired(metadata) =>
          assert Plan(w.answer) == [Cleanup] + (StartedFirst(metadata) + [SetTo(Expired)]);
          CleanupPlan(db, c, r, w, StartedFirst(metadata) + [SetTo(Expired)]);
          RequestCleanup(c, copy);
          SetFinal(c, r, w, metadata, Expired);
        case AnswerUnknown =>
          NothingLeft(db, c, r, w);
        case StartError =>
          assert Plan(w.answer) == [Cleanup] + [];
          CleanupPlan(db, c, r, w, []);
          RequestCleanup(c, copy);
          NothingLeft(db, c, r, w);
      }
    }
  }

  lemma {:induction false} NothingLeft(db: Db, c: int, r: int, w: World)
    ensures Carried(db, c, r, w, []) == db
  {
    assert Uninterrupted(db, c, Ended(w.artifact.Some?, w.answer), w) == db;
  }

  lemma {:induction false} FinalStep(db: Db, c: int, r: int, w: World, final: Status)
    ensures Carried(db, c, r, w, [SetTo(final)]) == if Accepts(db, r, final) then Update(db, r, final, c) else db
  {
    assert [SetTo(final)][1..] == [];
    assert Uninterrupted(db, c, Ended(w.artifact.Some?, w.answer), w) == db;
    if Accepts(db, r, final) {
      NothingLeft(Update(db, r, final, c), c, r, w);
    }
  }

  lemma {:induction false} CleanupPlan(db: Db, c: int, r: int, w: World, rest: seq<Effect>)
    ensures var d := if w.artifact.Some? then Removed(db, c, CopyOf(w, r).value) else db;
            Carried(db, c, r, w, [Cleanup] + rest) == Carried(d, c, r, w, rest)
  {
    assert ([Cleanup] + rest)[1..] == rest;
  }

  lemma {:induction false} PromotePlan(db: Db, c: int, r: int, w: World)
    requires w.answer.AnswerCompleted? && (w.artifact.Some? ==> CopyOf(w, r).value in db.copies)
    ensures var rest := [Cleanup] + (StartedFirst(true) + [SetTo(Completed)]);
            var all := Carried(db, c, r, w, Plan(w.answer));
            if w.artifact.None? then all == Carried(db, c, r, w, rest)
            else if w.promotes then
              var d := db.(packed := db.packed[c := db.copies[CopyOf(w, r).value]], log := db.log + [Promoted(c)]);
              all == Carried(d, c, r, w, rest)
            else all == Carried(db, c, r, w, [Cleanup] + [])
  {
    var rest := StartedFirst(true) + [SetTo(Completed)];
    assert Plan(w.answer)[1..] == [Cleanup] + rest;
    assert [Plan(w.answer)[1]] == [Cleanup] + [];
  }

  // ---------------------------------------------------------------- what a start leaves behind

  /** The statuses that a requested runner goes through for each answer, if a profile that has to be promoted is. */
  function Path(a: Response): seq<Status> {
    match a
    case AnswerStarted => [Started]
    case AnswerCompleted => [Started, Completed]
    case AnswerNotImplemented => [Failed]
    case AnswerFailed(metadata) => if metadata then [Started, Failed] else [Failed]
    case AnswerExpired(metadata) => if metadata then [Started, Expired] else [Expired]
    case AnswerUnknown => []
    case StartError => []
  }

  function MovedAlong(db: Db, c: int, r: int, path: seq<Status>): Db
    requires r in db.runners
    decreases |path|
  {
    if path == [] then db
    else
      MovedAlong(db.(runners := db.runners[r := path[0]], log := db.log + [Moved(r, db.runners[r], path[0], c)]), c, r, path[1..])
  }

  lemma {:induction false} SetsFinal(db: Db, c: int, r: int, w: World, startedFirst: bool, final: Status)
    requires r in db.runners && db.runners[r].Requested? && CanMove(if startedFirst then Started else Requested, final)
    ensures Carried(db, c, r, w, StartedFirst(startedFirst) + [SetTo(final)])
         == MovedAlong(db, c, r, if startedFirst then [Started, final] else [final])
  {
    var mid := if startedFirst then Update(db, r, Started, c) else db;
    if startedFirst {
      assert [SetTo(Started)] + [SetTo(final)] == [SetTo(Started), SetTo(final)];
      assert [SetTo(Started), SetTo(final)][1..] == [SetTo(final)];
      assert Carried(db, c, r, w, [SetTo(Started), SetTo(final)]) == Carried(mid, c, r, w, [SetTo(final)]);
    } else {
      assert [] + [SetTo(final)] == [SetTo(final)];
    }
    FinalStep(mid, c, r, w, final);
    MovesFinally(mid, c, r, final);
    assert [Started, final][1..] == [final];
  }

  lemma {:induction false} MovesFinally(db: Db, c: int, r: int, final: Status)
    requires r in db.runners && CanMove(db.runners[r], final)
    ensures Accepts(db, r, final) && Update(db, r, final, c) == MovedAlong(db, c, r, [final])
  {
    assert [final][1..] == [];
  }

  /** The working copy is promoted, if the answer is "completed", and removed, unless the browser goes on using
    * it or the answer is unknown. */
  function CopyHandled(db: Db, c: int, copy: Option<Dir>, a: Response): Db
    requires copy.Some? ==> copy.value in db.copies
  {
    if copy.None? || a == AnswerStarted || a == AnswerUnknown then db
    else
      var kept := if a == AnswerCompleted
                  then db.(packed := db.packed[c := db.copies[copy.value]], log := db.log + [Promoted(c)]) else db;
      kept.(copies := kept.copies - {copy.value}, log := kept.log + [CleanupRequested(c)])
  }

  /** A start whose profile can be promoted: what becomes of its working copy and of the runner's status, for
    * each answer. */
  lemma {:induction false} AnswerLeaves(db: Db, c: int, r: int, w: World)
    requires r in db.runners && db.runners[r].Requested?
    requires w.artifact.Some? ==> CopyOf(w, r).value in db.copies && (w.answer.AnswerCompleted? ==> w.promotes)
    ensures Carried(db, c, r, w, Plan(w.answer)) == MovedAlong(CopyHandled(db, c, CopyOf(w, r), w.answer), c, r, Path(w.answer))
  {
    var d := CopyHandled(db, c, CopyOf(w, r), w.answer);
    hide Carried, MovedAlong;
    match w.answer
    case AnswerStarted =>
      SetsFinal(d, c, r, w, false, Started);
      assert [] + [SetTo(Started)] == Plan(w.answer);
    case AnswerCompleted =>
      PromotePlan(db, c, r, w);
      var kept := if w.artifact.Some?
        then db.(packed := db.packed[c := db.copies[CopyOf(w, r).value]], log := db.log + [Promoted(c)]) else db;
      CleanupPlan(kept, c, r, w, StartedFirst(true) + [SetTo(Completed)]);
      SetsFinal(d, c, r, w, true, Completed);
    case AnswerNotImplemented => FailsWith(db, c, r, w, false, Failed);
    case AnswerFailed(metadata) => FailsWith(db, c, r, w, metadata, Failed);
    case AnswerExpired(metadata) => FailsWith(db, c, r, w, metadata, Expired);
    case AnswerUnknown =>
      NothingLeft(db, c, r, w);
      assert MovedAlong(d, c, r, []) == d;
    case StartError =>
      assert Plan(w.answer) == [Cleanup] + [];
      CleanupPlan(db, c, r, w, []);
      NothingLeft(d, c, r, w);
      assert MovedAlong(d, c, r, []) == d;
  }

  lemma {:induction false} FailsWith(db: Db, c: int, r: int, w: World, metadata: bool, final: Status)
    requires r in db.runners && db.runners[r].Requested? && (final.Failed? || final.Expired?)
    requires Plan(w.answer) == [Cleanup] + (StartedFirst(metadata) + [SetTo(final)])
    ensures var d := if w.artifact.Some? then Removed(db, c, CopyOf(w, r).value) else db;
            Carried(db, c, r, w, Plan(w.answer)) == MovedAlong(d, c, r, if metadata then [Started, final] else [final])
  {
    CleanupPlan(db, c, r, w, StartedFirst(metadata) + [SetTo(final)]);
    SetsFinal(if w.artifact.Some? then Removed(db, c, CopyOf(w, r).value) else db, c, r, w, metadata, final);
  }

  /** A start of a requested runner, with nothing in between.  Without a list of the profiles, with a directory in
    * the way, or when unpacking fails, nothing changes.  Otherwise the profile is unpacked and the answer decides;
    * a completed browser whose profile cannot be promoted leaves the runner requested and no copy. */
  lemma {:induction false} StartLeaves(db: Db, c: int, r: int, w: World)
    requires r in db.runners && db.runners[r].Requested?
    ensures var copy := match w.artifact case None => None case Some(a) => Some(Dir(r, a));
            var d := Uninterrupted(db, c, Launching(r), w);
            if !w.lists || (copy.Some? && (copy.value in db.copies || !w.unpacks)) then d == db
            else
              var unpacked := if copy.None? then db
                              else db.(copies := db.copies[copy.value := c], log := db.log + [Materialized(c)]);
              if copy.Some? && w.answer == AnswerCompleted && !w.promotes
              then d == db.(log := db.log + [Materialized(c), CleanupRequested(c)])
              else d == MovedAlong(CopyHandled(unpacked, c, copy, w.answer), c, r, Path(w.answer))
  {
    var copy := CopyOf(w, r);
    if w.lists && copy.Some? && copy.value !in db.copies && !w.unpacks {
      assert Uninterrupted(db, c, Unpacking(r, copy.value), w) == Uninterrupted(db.(copies := db.copies - {copy.value}), c, Gone, w);
      assert db.copies - {copy.value} == db.copies;
    } else if w.lists && (copy.Some? ==> copy.value !in db.copies) {
      var unpacked := if copy.None? then db
                      else db.(copies := db.copies[copy.value := c], log := db.log + [Materialized(c)]);
      Unpacked(db, c, r, w);
      if copy.Some? && w.answer == AnswerCompleted && !w.promotes {
        PromotePlan(unpacked, c, r, w);
        CleanupPlan(unpacked, c, r, w, []);
        NothingLeft(Removed(unpacked, c, copy.value), c, r, w);
        assert unpacked.copies - {copy.value} == db.copies;
      } else {
        AnswerLeaves(unpacked, c, r, w);
      }
    }
  }

  lemma {:induction false} Unpacked(db: Db, c: int, r: int, w: World)
    requires w.lists && (w.artifact.Some? ==> CopyOf(w, r).value !in db.copies && w.unpacks)
    ensures var copy := CopyOf(w, r);
            var unpacked := if copy.None? then db
                            else db.(copies := db.copies[copy.value := c], log := db.log + [Materialized(c)]);
            Uninterrupted(db, c, Launching(r), w) == Carried(unpacked, c, r, w, Plan(w.answer))
  {
    var copy := CopyOf(w, r);
    if copy.Some? {
      var unpacked := db.(copies := db.copies[copy.value := c], log := db.log + [Materialized(c)]);
      assert Uninterrupted(db, c, Launching(r), w) == Uninterrupted(db, c, Unpacking(r, copy.value), w);
      assert Uninterrupted(db, c, Unpacking(r, copy.value), w) == Uninterrupted(unpacked, c, Waiting(r, copy), w);
      assert Uninterrupted(unpacked, c, Waiting(r, copy), w) == Carried(unpacked, c, r, w, Plan(w.answer));
    } else {
      assert Uninterrupted(db, c, Launching(r), w) == Uninterrupted(db, c, Waiting(r, None), w);
      assert Uninterrupted(db, c, Waiting(r, None), w) == Carried(db, c, r, w, Plan(w.answer));
    }
  }

  // ---------------------------------------------------------------- interleaved starts

  datatype State = State(db: Db, clients: map<int, Phase>)

  /** A start begins, takes its next step or dies; a runner is requested; anyone else moves a runner's
    * status (recorded under a client number that starts do not use); an operator's command removes a
    * directory or unpacks into one, which it may have found absent any time before. */
  datatype Action =
    | Begin(client: int, runner: int)
    | Advance(client: int, x: Input)
    | Die(client: int)
    | Request(runner: int)
    | ChangeStatus(runner: int, to: Status)
    | OperatorRemoves(dir: Dir)
    | OperatorUnpacks(dir: Dir)

  const OTHERS := -1

  function Do(s: State, a: Action): State {
    match a
    case Begin(c, r) =>
      if c !in s.clients && c >= 0 && r in s.db.runners && s.db.runners[r].Requested?
      then s.(clients := s.clients[c := Launching(r)]) else s
    case Advance(c, x) =>
      if c in s.clients then var (d, p) := Next(s.db, c, s.clients[c], x); State(d, s.clients[c := p]) else s
    case Die(c) => if c in s.clients then s.(clients := s.clients[c := Gone]) else s
    case Request(r) =>
      if r in s.db.runners then s else s.(db := s.db.(runners := s.db.runners[r := Requested]))
    case ChangeStatus(r, to) => if Accepts(s.db, r, to) then s.(db := Update(s.db, r, to, OTHERS)) else s
    case OperatorRemoves(dir) => s.(db := s.db.(copies := s.db.copies - {dir}))
    case OperatorUnpacks(dir) => s.(db := s.db.(copies := s.db.copies[dir := OTHERS]))
  }

  /** Nothing is ruled out: a start can die anywhere, the status of a runner can be moved wherever the table allows,
    * and an operator can remove any directory or unpack into it. */
  lemma {:induction false} StepsArePossible(s: State, c: int, r: int, to: Status, dir: Dir)
    ensures c in s.clients ==> Do(s, Die(c)) == s.(clients := s.clients[c := Gone])
    ensures r !in s.db.runners ==> Do(s, Request(r)).db.runners == s.db.runners[r := Requested]
    ensures r in s.db.runners ==> Do(s, Request(r)) == s
    ensures r in s.db.runners && CanMove(s.db.runners[r], to) ==> Do(s, ChangeStatus(r, to)).db.runners == s.db.runners[r := to]
    ensures dir !in Do(s, OperatorRemoves(dir)).db.copies && dir in Do(s, OperatorUnpacks(dir)).db.copies
  {
  }

  datatype Run = Start | Then(before: Run, action: Action)

  function Exec(r: Run): State {
    match r
    case Start => State(Db(map[], map[], map[], []), map[])
    case Then(before, a) => Do(Exec(before), a)
  }

  // ---------------------------------------------------------------- what every interleaving keeps

  predicate IsStart(e: Event, r: int) { e.Moved? && e.runner == r && e.from.Requested? && e.to.Started? }

  predicate WasStarted(log: seq<Event>, r: int) {
    exists i | 0 <= i < |log| :: IsStart(log[i], r)
  }

  /** What must already have happened when an event is recorded. */
  predicate Justified(before: seq<Event>, e: Event) {
    match e
    case Materialized(_) => true
    case Promoted(c) => Materialized(c) in before && CleanupRequested(c) !in before
    case CleanupRequested(c) => Materialized(c) in before
    case Moved(r, from, to, c) =>
      && CanMove(from, to)
      && (to.Completed? ==> WasStarted(before, r))
      && (to.Completed? && c != OTHERS && Materialized(c) in before ==>
            Promoted(c) in before && CleanupRequested(c) in before)
  }

  predicate Sound(log: seq<Event>) { forall i | 0 <= i < |log| :: Justified(log[..i], log[i]) }

  predicate NeedsCleanup(a: Response) { !a.AnswerStarted? && !a.AnswerUnknown? }

  /** How far a start has come, and what that says about its events. */
  predicate Tracked(log: seq<Event>, c: int, p: Phase) {
    match p
    case Launching(_) => Materialized(c) !in log && CleanupRequested(c) !in log
    case Unpacking(_, _) => Materialized(c) !in log && CleanupRequested(c) !in log
    case Waiting(_, copy) => (Materialized(c) in log <==> copy.Some?) && CleanupRequested(c) !in log
    case Working(_, copy, a, todo) =>
      var m := copy.Some?;
      && (Materialized(c) in log <==> m)
      && OnCourse(a, todo)
      && (if Cleanup in todo then CleanupRequested(c) !in log else CleanupRequested(c) in log <==> m && NeedsCleanup(a))
      && (SetTo(Completed) in todo && Promote !in todo && m ==> Promoted(c) in log)
    case Ended(m, a) => (Materialized(c) in log <==> m) && (CleanupRequested(c) in log <==> m && NeedsCleanup(a))
    case Gone => true
  }

  /** The effects left are an end of the plan, or the clean-up after a promotion that failed. */
  predicate OnCourse(a: Response, todo: seq<Effect>) {
    (exists k | 0 <= k <= |Plan(a)| :: todo == Plan(a)[k..]) || (a.AnswerCompleted? && todo == [Cleanup])
  }

  predicate StartedRecorded(db: Db) {
    forall r | r in db.runners && db.runners[r].Started? :: WasStarted(db.log, r)
  }

  predicate Inv(s: State) {
    && Sound(s.db.log) && StartedRecorded(s.db)
    && (forall c | c in s.clients :: c >= 0 && Tracked(s.db.log, c, s.clients[c]))
    && forall i | 0 <= i < |s.db.log| && !s.db.log[i].Moved? :: s.db.log[i].client in s.clients
  }

  lemma {:induction false} SoundSnoc(log: seq<Event>, e: Event)
    requires Sound(log) && Justified(log, e)
    ensures Sound(log + [e])
  {
    var k := log + [e];
    forall i | 0 <= i < |k| ensures Justified(k[..i], k[i]) {
      assert k[..i] == if i < |log| then log[..i] else log;
    }
  }

  lemma {:induction false} WasStartedStays(log: seq<Event>, e: Event, r: int)
    requires WasStarted(log, r)
    ensures WasStarted(log + [e], r)
  {
    var i :| 0 <= i < |log| && IsStart(log[i], r);
    assert IsStart((log + [e])[i], r);
  }

  /** An event of one client leaves the others on track, and a status change leaves all of them. */
  lemma {:induction false} TrackedStays(log: seq<Event>, e: Event, c: int, p: Phase)
    requires Tracked(log, c, p) && (e.Moved? || e.client != c)
    ensures Tracked(log + [e], c, p)
  {
    assert forall x :: x in log + [e] <==> x in log || x == e;
    hide OnCourse;
  }

  lemma {:induction false} UpdateKeeps(db: Db, r: int, to: Status, c: int)
    requires Sound(db.log) && StartedRecorded(db) && Accepts(db, r, to)
    requires to.Completed? && c != OTHERS && Materialized(c) in db.log ==> Promoted(c) in db.log && CleanupRequested(c) in db.log
    ensures var d := Update(db, r, to, c); Sound(d.log) && StartedRecorded(d)
  {
    if db.runners[r] != to {
      var e := Moved(r, db.runners[r], to, c);
      assert Justified(db.log, e);
      SoundSnoc(db.log, e);
      hide Sound;
      var d := Update(db, r, to, c);
      forall k | k in d.runners && d.runners[k].Started? ensures WasStarted(d.log, k) {
        if k == r {
          assert IsStart(d.log[|db.log|], r);
        } else {
          WasStartedStays(db.log, e, k);
        }
      }
    }
  }

  lemma {:induction false} RecordKeeps(db: Db, e: Event)
    requires Sound(db.log) && StartedRecorded(db) && Justified(db.log, e)
    ensures forall d: Db | d.runners == db.runners && d.log == db.log + [e] :: Sound(d.log) && StartedRecorded(d)
  {
    SoundSnoc(db.log, e);
    hide Sound, Justified;
    forall k | k in db.runners && db.runners[k].Started? ensures WasStarted(db.log + [e], k) {
      WasStartedStays(db.log, e, k);
    }
  }

  /** In every plan promotion comes first and clean-up next, before any status is set. */
  lemma {:induction false} PlanTail(a: Response, k: nat)
    requires k < |Plan(a)|
    ensures Cleanup !in Plan(a)[k + 1..] <==> !Plan(a)[k].Promote?
    ensures Promote !in Plan(a)[k + 1..]
    ensures SetTo(Completed) in Plan(a)[k + 1..] ==> a.AnswerCompleted?
    ensures Plan(a)[k].Promote? ==> a.AnswerCompleted? && k + 1 < |Plan(a)| && Plan(a)[k + 1].Cleanup?
    ensures Plan(a)[k].Cleanup? ==> NeedsCleanup(a)
  {
  }

  lemma {:induction false} PlanShape(a: Response, k: nat)
    requires k < |Plan(a)|
    ensures Plan(a)[k..][1..] == Plan(a)[k + 1..] && Plan(a)[k..][0] == Plan(a)[k]
    ensures Cleanup !in Plan(a)[k + 1..] <==> !Plan(a)[k].Promote?
    ensures Promote !in Plan(a)[k + 1..]
    ensures Plan(a)[k].Promote? ==> a.AnswerCompleted? && Cleanup in Plan(a)[k..]
    ensures Plan(a)[k].Promote? ==> k + 1 < |Plan(a)| && Plan(a)[k + 1].Cleanup?
    ensures Plan(a)[k].Cleanup? ==> NeedsCleanup(a) && Promote !in Plan(a)[k..]
    ensures Plan(a)[k].SetTo? ==> Cleanup !in Plan(a)[k..] && Promote !in Plan(a)[k..]
    ensures SetTo(Completed) in Plan(a)[k + 1..] ==> SetTo(Completed) in Plan(a)[k..]
    ensures SetTo(Completed) in Plan(a)[k + 1..] ==> a.AnswerCompleted?
  {
    PlanTail(a, k);
    hide Plan, NeedsCleanup;
    assert Plan(a)[k..] == [Plan(a)[k]] + Plan(a)[k + 1..];
  }

  predicate DbInv(db: Db) { Sound(db.log) && StartedRecorded(db) }

  /** The step added nothing to the log, or one event, which is a status change or the client's own. */
  predicate OneEvent(d: Db, e: Db, c: int) {
    || e.log == d.log
    || (|e.log| == |d.log| + 1 && e.log == d.log + [e.log[|d.log|]]
        && (e.log[|d.log|].Moved? || e.log[|d.log|].client == c))
  }

  lemma {:induction false} SuffixOnCourse(a: Response, k: nat)
    requires k <= |Plan(a)|
    ensures OnCourse(a, Plan(a)[k..])
  {
    hide Plan;
  }

  lemma {:induction false} PromoteHead(a: Response, todo: seq<Effect>)
    requires OnCourse(a, todo) && todo != [] && todo[0].Promote?
    ensures OnCourse(a, todo[1..]) && OnCourse(a, [Cleanup])
    ensures Cleanup in todo && Cleanup in todo[1..] && Promote !in todo[1..]
    ensures |todo| > 1 && todo[1].Cleanup?
  {
    var k :| 0 <= k <= |Plan(a)| && todo == Plan(a)[k..];
    PlanShape(a, k);
    hide Plan;
  }

  lemma {:induction false} SetHead(a: Response, todo: seq<Effect>)
    requires OnCourse(a, todo) && todo != [] && todo[0].SetTo?
    ensures OnCourse(a, todo[1..])
    ensures Cleanup !in todo && Cleanup !in todo[1..] && Promote !in todo && Promote !in todo[1..]
    ensures SetTo(Completed) in todo[1..] ==> SetTo(Completed) in todo
    ensures todo[0].status.Completed? ==> SetTo(Completed) in todo && NeedsCleanup(a)
  {
    var k :| 0 <= k <= |Plan(a)| && todo == Plan(a)[k..];
    PlanShape(a, k);
    CompletedInPlan(a, k);
    hide Plan, OnCourse;
    assert todo[0] == Plan(a)[k] && todo[0] in todo;
    SuffixOnCourse(a, k + 1);
  }

  lemma {:induction false} InSnoc(log: seq<Event>, e: Event, x: Event)
    ensures x in log + [e] <==> x in log || x == e
  {
  }

  /** The phase after promotion: not needed, done, or failed. */
  lemma {:induction false} PromoteSkipped(log: seq<Event>, c: int, p: Phase)
    requires Tracked(log, c, p) && p.Working? && p.todo != [] && p.todo[0].Promote? && p.copy.None?
    ensures Tracked(log, c, p.(todo := p.todo[1..]))
  {
    PromoteHead(p.answer, p.todo);
    hide OnCourse, Plan, NeedsCleanup;
  }

  lemma {:induction false} PromoteDone(log: seq<Event>, c: int, p: Phase)
    requires Tracked(log, c, p) && p.Working? && p.todo != [] && p.todo[0].Promote? && p.copy.Some?
    ensures Tracked(log + [Promoted(c)], c, p.(todo := p.todo[1..]))
  {
    PromoteHead(p.answer, p.todo);
    hide OnCourse, Plan, NeedsCleanup;
    InSnoc(log, Promoted(c), Materialized(c));
    InSnoc(log, Promoted(c), CleanupRequested(c));
    InSnoc(log, Promoted(c), Promoted(c));
  }

  lemma {:induction false} PromoteFailed(log: seq<Event>, c: int, p: Phase)
    requires Tracked(log, c, p) && p.Working? && p.todo != [] && p.todo[0].Promote? && p.copy.Some?
    ensures Tracked(log, c, p.(todo := [Cleanup]))
  {
    PromoteHead(p.answer, p.todo);
    hide OnCourse, Plan, NeedsCleanup;
    OnlyCleanup();
  }

  lemma {:induction false} OnlyCleanup()
    ensures Cleanup in [Cleanup] && SetTo(Completed) !in [Cleanup]
  {
  }

  lemma {:induction false} PromoteKeeps(db: Db, c: int, p: Phase, x: Input)
    requires DbInv(db) && Tracked(db.log, c, p) && p.Working? && p.todo != [] && p.todo[0].Promote?
    ensures var (d, q) := Next(db, c, p, x); DbInv(d) && Tracked(d.log, c, q) && OneEvent(db, d, c)
  {
    PromoteHead(p.answer, p.todo);
    hide OnCourse, Plan;
    if p.copy.None? {
      PromoteSkipped(db.log, c, p);
    } else {
      PromoteDone(db.log, c, p);
      PromoteFailed(db.log, c, p);
    }
    if p.copy.Some? && x.ok && p.copy.value in db.copies {
      assert Justified(db.log, Promoted(c));
      RecordKeeps(db, Promoted(c));
    }
    hide Tracked, Sound, StartedRecorded;
  }

  lemma {:induction false} CleanupHead(a: Response, todo: seq<Effect>)
    requires OnCourse(a, todo) && todo != [] && todo[0].Cleanup?
    ensures OnCourse(a, todo[1..]) && NeedsCleanup(a) && Cleanup in todo && Cleanup !in todo[1..]
    ensures SetTo(Completed) in todo[1..] ==> SetTo(Completed) in todo && Promote !in todo
  {
    if k :| 0 <= k < |Plan(a)| && todo == Plan(a)[k..] {
      PlanShape(a, k);
    } else {
      assert todo[1..] == [] == Plan(a)[|Plan(a)|..];
    }
  }

  lemma {:induction false} CleanupTracked(log: seq<Event>, c: int, p: Phase)
    requires Tracked(log, c, p) && p.Working? && p.todo != [] && p.todo[0].Cleanup?
    ensures Tracked(if p.copy.Some? then log + [CleanupRequested(c)] else log, c, p.(todo := p.todo[1..]))
  {
    CleanupHead(p.answer, p.todo);
    InSnoc(log, CleanupRequested(c), Materialized(c));
    InSnoc(log, CleanupRequested(c), CleanupRequested(c));
    InSnoc(log, CleanupRequested(c), Promoted(c));
    hide OnCourse, Plan, NeedsCleanup;
  }

  lemma {:induction false} CleanupKeeps(db: Db, c: int, p: Phase, x: Input)
    requires DbInv(db) && Tracked(db.log, c, p) && p.Working? && p.todo != [] && p.todo[0].Cleanup?
    ensures var (d, q) := Next(db, c, p, x); DbInv(d) && Tracked(d.log, c, q) && OneEvent(db, d, c)
  {
    CleanupTracked(db.log, c, p);
    if p.copy.Some? {
      assert Justified(db.log, CleanupRequested(c)) by { hide OnCourse, Plan; }
      RecordKeeps(db, CleanupRequested(c));
    }
    hide Tracked, Sound, StartedRecorded;
  }

  /** Between status updates the client stays on track, and also if it stops there. */
  lemma {:induction false} SetTracked(log: seq<Event>, c: int, p: Phase)
    requires Tracked(log, c, p) && p.Working? && p.todo != [] && p.todo[0].SetTo?
    ensures Tracked(log, c, p.(todo := p.todo[1..])) && Tracked(log, c, Ended(p.copy.Some?, p.answer))
    ensures p.todo[0].status.Completed? && Materialized(c) in log ==> Promoted(c) in log && CleanupRequested(c) in log
  {
    SetHead(p.answer, p.todo);
    hide OnCourse, Plan, NeedsCleanup;
  }

  lemma {:induction false} SetKeeps(db: Db, c: int, p: Phase, x: Input)
    requires DbInv(db) && Tracked(db.log, c, p) && p.Working? && p.todo != [] && p.todo[0].SetTo?
    ensures var (d, q) := Next(db, c, p, x); DbInv(d) && Tracked(d.log, c, q) && OneEvent(db, d, c)
  {
    hide Tracked, Plan;
    SetTracked(db.log, c, p);
    var st := p.todo[0].status;
    if x.ok && Accepts(db, p.runner, st) {
      UpdateKeeps(db, p.runner, st, c);
      hide Sound, StartedRecorded;
      var d := Update(db, p.runner, st, c);
      if d.log != db.log {
        TrackedStays(db.log, d.log[|db.log|], c, p.(todo := p.todo[1..]));
      }
    }
  }

  lemma {:induction false} CompletedInPlan(a: Response, k: nat)
    requires k < |Plan(a)|
    ensures Plan(a)[k] == SetTo(Completed) ==> a.AnswerCompleted?
  {
  }

  lemma {:induction false} NextKeeps(db: Db, c: int, p: Phase, x: Input)
    requires DbInv(db) && Tracked(db.log, c, p)
    ensures var (d, q) := Next(db, c, p, x); DbInv(d) && Tracked(d.log, c, q) && OneEvent(db, d, c)
  {
    match p
    case Unpacking(r, dir) =>
      if x.ok { RecordKeeps(db, Materialized(c)); }
    case Waiting(r, m) => WaitingKeeps(db.log, c, p, x);
    case Working(r, m, a, todo) =>
      if todo != [] {
        hide DbInv, Tracked, Next, OneEvent;
        match todo[0]
        case Promote => PromoteKeeps(db, c, p, x);
        case Cleanup => CleanupKeeps(db, c, p, x);
        case SetTo(st) => SetKeeps(db, c, p, x);
      }
    case _ =>
  }

  lemma {:induction false} WaitingKeeps(log: seq<Event>, c: int, p: Phase, x: Input)
    requires Tracked(log, c, p) && p.Waiting?
    ensures Tracked(log, c, Working(p.runner, p.copy, x.answer, Plan(x.answer)))
  {
    var a := x.answer;
    assert Plan(a) == Plan(a)[0..];
    assert NeedsCleanup(a) ==> Plan(a) != [] && (Plan(a)[0] == Cleanup || (|Plan(a)| > 1 && Plan(a)[1] == Cleanup));
    if a.AnswerCompleted? {
      assert Plan(a)[0] == Promote;
    } else if SetTo(Completed) in Plan(a) {
      var k :| 0 <= k < |Plan(a)| && Plan(a)[k] == SetTo(Completed);
      CompletedInPlan(a, k);
    }
  }

  lemma {:induction false} ClientsKeep(s: State, c: int, d: Db, clients: map<int, Phase>)
    requires Inv(s) && OneEvent(s.db, d, c)
    requires forall k | k in clients && k != c :: k in s.clients && clients[k] == s.clients[k]
    requires c in clients ==> c >= 0 && Tracked(d.log, c, clients[c])
    ensures forall k | k in clients :: k >= 0 && Tracked(d.log, k, clients[k])
  {
    hide Tracked, Sound, StartedRecorded;
    forall k | k in clients ensures k >= 0 && Tracked(d.log, k, clients[k]) {
      if k != c && d.log != s.db.log {
        TrackedStays(s.db.log, d.log[|s.db.log|], k, clients[k]);
      }
    }
  }

  lemma {:induction false} StepKeeps(s: State, a: Action)
    requires Inv(s)
    ensures Inv(Do(s, a))
  {
    var t := Do(s, a);
    assert DbInv(s.db);
    match a
    case Begin(c, r) =>
      assert forall i | 0 <= i < |s.db.log| && !s.db.log[i].Moved? :: s.db.log[i].client != c || c in s.clients;
      hide Sound, StartedRecorded, OnCourse;
    case Advance(c, x) =>
      if c in s.clients {
        NextKeeps(s.db, c, s.clients[c], x);
        hide Next, Sound, StartedRecorded, Tracked;
        ClientsKeep(s, c, t.db, t.clients);
      }
    case Die(c) => hide Sound, StartedRecorded, OnCourse;
    case Request(r) => hide Sound, Tracked;
    case ChangeStatus(r, to) =>
      if Accepts(s.db, r, to) {
        UpdateKeeps(s.db, r, to, OTHERS);
        hide Sound, StartedRecorded, Tracked;
        ClientsKeep(s, OTHERS, t.db, t.clients);
      }
    case _ => hide Sound, Tracked;
  }

  lemma {:induction false} RunsKeep(r: Run)
    ensures Inv(Exec(r))
  {
    if r.Then? {
      RunsKeep(r.before);
      StepKeeps(Exec(r.before), r.action);
    }
  }

  /** Under every interleaving: a runner that completed had been started. */
  lemma {:induction false} CompletedThroughStarted(r: Run, i: nat)
    requires var log := Exec(r).db.log; i < |log| && log[i].Moved? && log[i].to.Completed?
    ensures var log := Exec(r).db.log;
            log[i].from.Started? && exists j | 0 <= j < i :: IsStart(log[j], log[i].runner)
  {
    RunsKeep(r);
    var log := Exec(r).db.log;
    hide Exec;
    assert Justified(log[..i], log[i]);
    var j :| 0 <= j < i && IsStart(log[..i][j], log[i].runner);
    assert IsStart(log[j], log[i].runner);
  }

  lemma {:induction false} SoundOrder(log: seq<Event>, i: nat)
    requires Sound(log) && i < |log| && log[i].Moved? && log[i].to.Completed? && log[i].client != OTHERS
    requires Materialized(log[i].client) in log[..i]
    ensures exists j, k | 0 <= j < k < i :: log[j] == Promoted(log[i].client) && log[k] == CleanupRequested(log[i].client)
  {
    var c := log[i].client;
    assert Justified(log[..i], log[i]);
    assert Promoted(c) in log[..i] && CleanupRequested(c) in log[..i];
    hide Justified;
    var j :| 0 <= j < i && log[..i][j] == Promoted(c);
    var k :| 0 <= k < i && log[..i][k] == CleanupRequested(c);
    assert log[j] == Promoted(c) && log[k] == CleanupRequested(c);
    UncleanedBefore(log, j);
    hide Sound;
    forall n | 0 <= n < j ensures log[n] != CleanupRequested(c) {
      assert log[..j][n] in log[..j];
    }
  }

  lemma {:induction false} UncleanedBefore(log: seq<Event>, j: nat)
    requires Sound(log) && j < |log| && log[j].Promoted?
    ensures CleanupRequested(log[j].client) !in log[..j]
  {
    assert Justified(log[..j], log[j]);
  }

  /** Under every interleaving: a start that completes its runner has promoted the profile it had
    * materialised, and asked for the clean-up of the working copy only after that. */
  lemma {:induction false} PromotedBeforeCleaned(r: Run, i: nat)
    requires var log := Exec(r).db.log;
             && i < |log| && log[i].Moved? && log[i].to.Completed? && log[i].client != OTHERS
             && Materialized(log[i].client) in log[..i]
    ensures var log := Exec(r).db.log;
            exists j, k | 0 <= j < k < i :: log[j] == Promoted(log[i].client) && log[k] == CleanupRequested(log[i].client)
  {
    RunsKeep(r);
    SoundOrder(Exec(r).db.log, i);
  }

  /** Under every interleaving: a start that ran to its end has asked for the clean-up of its profile
    * exactly when it had one and the answer was neither "started" nor one it does not know. */
  lemma {:induction false} CleanupExactly(r: Run, c: int)
    requires c in Exec(r).clients && Exec(r).clients[c].Ended?
    ensures CleanupRequested(c) in Exec(r).db.log
       <==> Materialized(c) in Exec(r).db.log && NeedsCleanup(Exec(r).clients[c].answer)
  {
    RunsKeep(r);
    assert Tracked(Exec(r).db.log, c, Exec(r).clients[c]);
  }

  // ---------------------------------------------------------------- whose working copy it is

  predicate UnpacksInto(p: Phase, dir: Dir) { p.Unpacking? && p.dir == dir }

  /** The start has a working copy and has not asked for its clean-up. */
  predicate Holds(p: Phase) {
    || (p.Waiting? && p.copy.Some?)
    || (p.Working? && p.copy.Some? && (Cleanup in p.todo || !NeedsCleanup(p.answer)))
  }

  predicate Uses(p: Phase, dir: Dir) { UnpacksInto(p, dir) || (Holds(p) && p.copy.value == dir) }

  predicate Used(s: State, dir: Dir) { exists c | c in s.clients :: Uses(s.clients[c], dir) }

  /** A start finds the directory absent while another one, which found it absent too, has yet to unpack
    * into it; or an operator's command changes the directory while a start uses it. */
  predicate Collides(s: State, a: Action, dir: Dir) {
    match a
    case Advance(c, x) =>
      && c in s.clients && s.clients[c].Launching? && x.ok && x.artifact == Some(dir.artifact)
      && s.clients[c].runner == dir.runner && dir !in s.db.copies
      && exists d | d in s.clients :: UnpacksInto(s.clients[d], dir)
    case OperatorRemoves(k) => k == dir && Used(s, dir)
    case OperatorUnpacks(k) => k == dir && Used(s, dir)
    case _ => false
  }

  /** Nothing has collided on this directory; on others anything may have happened. */
  predicate Spaced(r: Run, dir: Dir) {
    match r
    case Start => true
    case Then(before, a) => Spaced(before, dir) && !Collides(Exec(before), a, dir)
  }

  predicate Owns(copies: map<Dir, int>, c: int, p: Phase, dir: Dir) {
    && (Holds(p) && p.copy.value == dir ==> dir in copies && copies[dir] == c)
    && (UnpacksInto(p, dir) ==> dir !in copies)
  }

  /** A copy in use in this directory is there and is its start's own, and nobody else is about to unpack
    * over it. */
  predicate OwnInv(s: State, dir: Dir) {
    && (forall c | c in s.clients :: Owns(s.db.copies, c, s.clients[c], dir))
    && forall c, d | c in s.clients && d in s.clients && UnpacksInto(s.clients[c], dir) && UnpacksInto(s.clients[d], dir) :: c == d
  }

  /** What a step of one start does to a directory. */
  predicate OwnStep(db: Db, c: int, p: Phase, d: Db, q: Phase, dir: Dir) {
    && Owns(d.copies, c, q, dir)
    && (dir in db.copies && db.copies[dir] != c ==> dir in d.copies && d.copies[dir] == db.copies[dir])
    && (dir !in db.copies && dir in d.copies ==> UnpacksInto(p, dir))
  }

  lemma {:induction false} CleanupReleases(p: Phase)
    requires p.Working? && p.todo != [] && p.todo[0].Cleanup? && OnCourse(p.answer, p.todo)
    ensures !Holds(p.(todo := p.todo[1..])) && (p.copy.Some? ==> Holds(p))
  {
    CleanupHead(p.answer, p.todo);
    hide OnCourse, Plan, NeedsCleanup;
  }

  lemma {:induction false} CleanupStep(db: Db, c: int, p: Phase, x: Input)
    requires p.Working? && p.todo != [] && p.todo[0].Cleanup?
    ensures Next(db, c, p, x) == (if p.copy.Some? then Removed(db, c, p.copy.value) else db, p.(todo := p.todo[1..]))
  {
    hide Plan, Removed;
  }

  lemma {:induction false} CleanupOwn(db: Db, c: int, p: Phase, x: Input, dir: Dir)
    requires Owns(db.copies, c, p, dir) && p.Working? && p.todo != [] && p.todo[0].Cleanup?
    requires (p.copy.Some? ==> Holds(p)) && !Holds(p.(todo := p.todo[1..]))
    ensures var (d, q) := Next(db, c, p, x); OwnStep(db, c, p, d, q, dir)
  {
    hide Holds, Next;
    CleanupStep(db, c, p, x);
  }

  /** Fewer effects left: no copy is held that was not held before. */
  lemma {:induction false} StillOwns(copies: map<Dir, int>, c: int, p: Phase, todo: seq<Effect>, dir: Dir)
    requires Owns(copies, c, p, dir) && p.Working? && (Cleanup in todo ==> Cleanup in p.todo)
    ensures Owns(copies, c, p.(todo := todo), dir)
  {
  }

  lemma {:induction false} OtherOwn(db: Db, c: int, p: Phase, x: Input, dir: Dir)
    requires Owns(db.copies, c, p, dir) && p.Working? && p.todo != [] && !p.todo[0].Cleanup?
    ensures var (d, q) := Next(db, c, p, x); OwnStep(db, c, p, d, q, dir)
  {
    var rest := p.todo[1..];
    var failed := if |p.todo| > 1 then [p.todo[1]] else [];
    assert Cleanup in failed ==> Cleanup in p.todo;
    StillOwns(db.copies, c, p, rest, dir);
    StillOwns(db.copies, c, p, failed, dir);
    hide Holds;
  }

  lemma {:induction false} NextOwn(db: Db, c: int, p: Phase, x: Input, dir: Dir)
    requires Tracked(db.log, c, p) && Owns(db.copies, c, p, dir)
    ensures var (d, q) := Next(db, c, p, x); OwnStep(db, c, p, d, q, dir)
  {
    if p.Working? && p.todo != [] {
      assert OnCourse(p.answer, p.todo);
      hide Tracked, Owns, OwnStep, Next, OnCourse, Holds;
      if p.todo[0].Cleanup? {
        CleanupReleases(p);
        CleanupOwn(db, c, p, x, dir);
      } else {
        OtherOwn(db, c, p, x, dir);
      }
    } else {
      hide Tracked, Plan;
    }
  }

  /** Only a start that looks for a directory, and misses it, begins to unpack into it. */
  lemma {:induction false} NextUnpacks(db: Db, c: int, p: Phase, x: Input, dir: Dir)
    requires UnpacksInto(Next(db, c, p, x).1, dir)
    ensures p.Launching? && x.ok && x.artifact == Some(dir.artifact) && p.runner == dir.runner && dir !in db.copies
  {
    hide Plan;
  }

  lemma {:induction false} AdvanceOwn(s: State, c: int, x: Input, dir: Dir)
    requires Inv(s) && OwnInv(s, dir) && c in s.clients && !Collides(s, Advance(c, x), dir)
    ensures OwnInv(Do(s, Advance(c, x)), dir)
  {
    var t := Do(s, Advance(c, x));
    var p, q := s.clients[c], t.clients[c];
    NextOwn(s.db, c, p, x, dir);
    if UnpacksInto(q, dir) {
      NextUnpacks(s.db, c, p, x, dir);
    }
    assert Owns(s.db.copies, c, p, dir);
    hide Next, Inv, Holds;
    forall d | d in t.clients ensures Owns(t.db.copies, d, t.clients[d], dir) {
      if d != c {
        assert Owns(s.db.copies, d, s.clients[d], dir);
      }
    }
  }

  lemma {:induction false} StepOwn(s: State, a: Action, dir: Dir)
    requires Inv(s) && OwnInv(s, dir) && !Collides(s, a, dir)
    ensures OwnInv(Do(s, a), dir)
  {
    hide Inv;
    match a
    case Advance(c, x) =>
      if c in s.clients { AdvanceOwn(s, c, x, dir); }
    case Request(r) => hide Owns;
    case ChangeStatus(r, to) => hide Owns;
    case _ =>
  }

  lemma {:induction false} SpacedRun(r: Run, dir: Dir)
    requires Spaced(r, dir)
    ensures OwnInv(Exec(r), dir)
  {
    if r.Then? {
      SpacedRun(r.before, dir);
      RunsKeep(r.before);
      hide Inv, OwnInv, Do, Collides;
      StepOwn(Exec(r.before), r.action, dir);
    }
  }

  /** If nothing collides on its directory, a working copy stays, and stays its start's own, until that start
    * asks for its clean-up. */
  lemma {:induction false} CopiesStayOwn(r: Run, c: int)
    requires c in Exec(r).clients && Holds(Exec(r).clients[c]) && Spaced(r, Exec(r).clients[c].copy.value)
    ensures var s := Exec(r); var dir := s.clients[c].copy.value; dir in s.db.copies && s.db.copies[dir] == c
  {
    var dir := Exec(r).clients[c].copy.value;
    SpacedRun(r, dir);
    assert Owns(Exec(r).db.copies, c, Exec(r).clients[c], dir);
  }

  /** The start has unpacked into the directory. */
  predicate UnpackedInto(r: Run, c: int, dir: Dir) {
    match r
    case Start => false
    case Then(before, a) =>
      var s := Exec(before);
      || UnpackedInto(before, c, dir)
      || (a.Advance? && a.client == c && a.x.ok && c in s.clients && UnpacksInto(s.clients[c], dir))
  }

  predicate HasCopy(p: Phase, dir: Dir) { (p.Waiting? || p.Working?) && p.copy == Some(dir) }

  lemma {:induction false} NextCopy(db: Db, c: int, p: Phase, x: Input, dir: Dir)
    requires HasCopy(Next(db, c, p, x).1, dir)
    ensures HasCopy(p, dir) || (x.ok && UnpacksInto(p, dir))
  {
    hide Plan;
  }

  lemma {:induction false} CopyWasUnpacked(r: Run, c: int, dir: Dir)
    requires c in Exec(r).clients && HasCopy(Exec(r).clients[c], dir)
    ensures UnpackedInto(r, c, dir)
  {
    if r.Then? {
      var s, a := Exec(r.before), r.action;
      if a.Advance? && a.client == c && c in s.clients {
        NextCopy(s.db, c, s.clients[c], a.x, dir);
      }
      hide Next;
      if c in s.clients && HasCopy(s.clients[c], dir) {
        CopyWasUnpacked(r.before, c, dir);
      }
    }
  }

  /** What a start has promoted was its own copy. */
  predicate PackedOwn(db: Db, c: int) {
    (c in db.packed ==> db.packed[c] == c) && (Promoted(c) in db.log ==> c in db.packed)
  }

  lemma {:induction false} NextPacked(db: Db, k: int, p: Phase, x: Input, c: int)
    requires PackedOwn(db, c)
    requires k == c && p.Working? && p.todo != [] && p.todo[0].Promote? && p.copy.Some? && p.copy.value in db.copies
         ==> db.copies[p.copy.value] == c
    ensures PackedOwn(Next(db, k, p, x).0, c)
  {
    hide Plan;
  }

  /** A start about to promote holds its copy. */
  lemma {:induction false} PromotesHeld(log: seq<Event>, c: int, p: Phase)
    requires Tracked(log, c, p) && p.Working? && p.todo != [] && p.todo[0].Promote? && p.copy.Some?
    ensures Holds(p)
  {
    PromoteHead(p.answer, p.todo);
    hide OnCourse, Plan, NeedsCleanup;
  }

  lemma {:induction false} PackedStaysOwn(r: Run, c: int)
    requires forall dir | UnpackedInto(r, c, dir) :: Spaced(r, dir)
    ensures PackedOwn(Exec(r).db, c)
  {
    if r.Then? {
      var s, a := Exec(r.before), r.action;
      forall dir | UnpackedInto(r.before, c, dir) ensures Spaced(r.before, dir) {
        assert UnpackedInto(r, c, dir);
      }
      PackedStaysOwn(r.before, c);
      if a.Advance? && a.client in s.clients {
        var p := s.clients[a.client];
        if a.client == c && p.Working? && p.todo != [] && p.todo[0].Promote? && p.copy.Some? {
          RunsKeep(r.before);
          PromotesHeld(s.db.log, c, p);
          CopyWasUnpacked(r.before, c, p.copy.value);
          CopiesStayOwn(r.before, c);
        }
        NextPacked(s.db, a.client, p, a.x, c);
        hide Next, PackedOwn;
      }
    }
  }

  /** If nothing collides on the directories that it unpacked into, a start that completes its runner has
    * promoted its own copy. */
  lemma {:induction false} PromotedItsOwn(r: Run, i: nat)
    requires var log := Exec(r).db.log;
             && i < |log| && log[i].Moved? && log[i].to.Completed? && log[i].client != OTHERS
             && Materialized(log[i].client) in log[..i]
    requires forall dir | UnpackedInto(r, Exec(r).db.log[i].client, dir) :: Spaced(r, dir)
    ensures var db := Exec(r).db; db.log[i].client in db.packed && db.packed[db.log[i].client] == db.log[i].client
  {
    PromotedBeforeCleaned(r, i);
    PackedStaysOwn(r, Exec(r).db.log[i].client);
  }

  // ---------------------------------------------------------------- every run, directory by directory

  /** The start may still promote what it finds in the directory. */
  predicate MayPromote(p: Phase, dir: Dir) {
    UnpacksInto(p, dir) || (HasCopy(p, dir) && (p.Waiting? || Promote in p.todo))
  }

  function Promoters(clients: map<int, Phase>, dir: Dir): set<int> { set c | c in clients && MayPromote(clients[c], dir) }

  /** A start finds the directory absent, or an operator unpacks into it, while another start may still
    * promote what is there. */
  predicate Intrudes(s: State, a: Action, dir: Dir) {
    && Promoters(s.clients, dir) != {}
    && match a
       case Advance(c, x) => c in s.clients && s.clients[c].Launching? && UnpacksInto(Next(s.db, c, s.clients[c], x).1, dir)
       case OperatorUnpacks(k) => k == dir
       case _ => false
  }

  function Intrusions(r: Run, dir: Dir): nat {
    match r
    case Start => 0
    case Then(before, a) => Intrusions(before, dir) + (if Intrudes(Exec(before), a, dir) then 1 else 0)
  }

  /** The step records a promotion, of a copy that is not its start's own. */
  predicate PromotesAnothers(s: State, a: Action, dir: Dir) {
    && a.Advance? && a.client in s.clients && HasCopy(s.clients[a.client], dir)
    && var db := Do(s, a).db;
       db.log == s.db.log + [Promoted(a.client)] && a.client in db.packed && db.packed[a.client] != a.client
  }

  function WrongPromotions(r: Run, dir: Dir): nat {
    match r
    case Start => 0
    case Then(before, a) => WrongPromotions(before, dir) + (if PromotesAnothers(Exec(before), a, dir) then 1 else 0)
  }

  /** How many starts may promote another's copy if nobody intrudes any more: all that may still promote,
    * but for the one whose own copy is there or the only one that may still unpack. */
  function AtRisk(s: State, dir: Dir): nat {
    var promoters := Promoters(s.clients, dir);
    if promoters != {} && (dir in s.db.copies ==> s.db.copies[dir] in promoters) then |promoters| - 1 else |promoters|
  }

  lemma {:induction false} PromotersChange(clients: map<int, Phase>, c: int, q: Phase, dir: Dir)
    ensures var before := Promoters(clients, dir);
            Promoters(clients[c := q], dir) == if MayPromote(q, dir) then before + {c} else before - {c}
  {
  }

  lemma {:induction false} PlannedOnce(p: Phase)
    requires p.Working? && p.todo != [] && OnCourse(p.answer, p.todo)
    ensures Promote !in p.todo[1..]
  {
    if k :| 0 <= k <= |Plan(p.answer)| && p.todo == Plan(p.answer)[k..] {
      PlanShape(p.answer, k);
    }
  }

  /** What a step of one start does to a directory and to its own chance to promote from it. */
  lemma {:induction false} NextRisk(db: Db, c: int, p: Phase, x: Input, dir: Dir)
    requires p.Working? ==> p.todo == [] || Promote !in p.todo[1..]
    ensures var (d, q) := Next(db, c, p, x);
            && (MayPromote(q, dir) && !MayPromote(p, dir) ==> p.Launching? && UnpacksInto(q, dir) && dir !in db.copies && d == db)
            && (dir in d.copies ==> (dir in db.copies && d.copies[dir] == db.copies[dir]) || (d.copies[dir] == c && MayPromote(q, dir)))
  {
    hide Plan;
  }

  /** Only the promotion step records a promotion, and it was the start's one chance. */
  lemma {:induction false} NextPromotes(db: Db, c: int, p: Phase, x: Input, dir: Dir)
    requires p.Working? ==> p.todo == [] || Promote !in p.todo[1..]
    requires var d := Next(db, c, p, x).0; HasCopy(p, dir) && d.log == db.log + [Promoted(c)] && c in d.packed && d.packed[c] != c
    ensures MayPromote(p, dir) && dir in db.copies && db.copies[dir] != c
    ensures var (d, q) := Next(db, c, p, x); !MayPromote(q, dir) && d.copies == db.copies
  {
    hide Plan;
    var d := Next(db, c, p, x).0;
    assert d.log[|db.log|] == Promoted(c);
  }

  lemma {:induction false} AdvanceRisk(s: State, c: int, x: Input, dir: Dir)
    requires Inv(s) && c in s.clients
    ensures var a := Advance(c, x);
            AtRisk(Do(s, a), dir) + (if PromotesAnothers(s, a, dir) then 1 else 0)
            <= AtRisk(s, dir) + (if Intrudes(s, a, dir) then 1 else 0)
  {
    var p := s.clients[c];
    if p.Working? && p.todo != [] {
      assert Tracked(s.db.log, c, p);
      PlannedOnce(p);
    }
    hide Inv, Tracked, OnCourse;
    NextRisk(s.db, c, p, x, dir);
    if PromotesAnothers(s, Advance(c, x), dir) {
      NextPromotes(s.db, c, p, x, dir);
    }
    PromotersChange(s.clients, c, Next(s.db, c, p, x).1, dir);
    assert c in Promoters(s.clients, dir) <==> MayPromote(p, dir);
    hide Next, Promoters, MayPromote, HasCopy;
  }

  lemma {:induction false} StepRisk(s: State, a: Action, dir: Dir)
    requires Inv(s)
    ensures AtRisk(Do(s, a), dir) + (if PromotesAnothers(s, a, dir) then 1 else 0)
         <= AtRisk(s, dir) + (if Intrudes(s, a, dir) then 1 else 0)
  {
    hide Inv, Next;
    match a
    case Advance(c, x) =>
      if c in s.clients { AdvanceRisk(s, c, x, dir); }
    case Begin(c, r) => MovedOut(s, c, Launching(r), dir);
    case Die(c) => MovedOut(s, c, Gone, dir);
    case _ => hide Promoters;
  }

  lemma {:induction false} MovedOut(s: State, c: int, q: Phase, dir: Dir)
    requires !MayPromote(q, dir)
    ensures AtRisk(s.(clients := s.clients[c := q]), dir) <= AtRisk(s, dir)
  {
    PromotersChange(s.clients, c, q, dir);
    hide Promoters, MayPromote;
  }

  /** Every run, with any starts at once, deaths and operator commands anywhere: a directory sees at most as
    * many promotions of a copy that is not the start's own as it has seen intrusions. */
  lemma {:induction false} WrongPromotionsAccounted(r: Run, dir: Dir)
    ensures WrongPromotions(r, dir) + AtRisk(Exec(r), dir) <= Intrusions(r, dir)
  {
    match r
    case Start => assert Promoters(map[], dir) == {};
    case Then(before, a) =>
      WrongPromotionsAccounted(before, dir);
      RunsKeep(before);
      hide AtRisk, Inv, Do, Intrudes, PromotesAnothers;
      StepRisk(Exec(before), a, dir);
  }

  /** Two starts of one requested runner that look at the same moment: the second unpacks over the first
    * one's working copy, and the first promotes it. */
  lemma {:induction false} CollisionPromotesAnothersCopy() returns (r: Run)
    ensures var db := Exec(r).db; 1 in db.packed && db.packed[1] == 2
    ensures WrongPromotions(r, Dir(7, 5)) > 0
  {
    var x := Input(true, Some(5), AnswerCompleted);
    var r4 := BothUnpack(x);
    var d4 := Exec(r4).db;
    var dir := Dir(7, 5);
    var r5 := Then(r4, Advance(1, x));
    assert Exec(r5) == State(d4, map[1 := Working(7, Some(dir), AnswerCompleted, Plan(AnswerCompleted)), 2 := Waiting(7, Some(dir))]);
    r := Then(r5, Advance(1, x));
  }

  /** An operator who removes a copy in use and unpacks another one in its place: the start promotes that. */
  lemma {:induction false} OperatorReplacesCopy() returns (r: Run)
    ensures var db := Exec(r).db; 1 in db.packed && db.packed[1] == OTHERS
  {
    var x, dir := Input(true, Some(5), AnswerCompleted), Dir(7, 5);
    var r4 := OneUnpacks(x);
    var r6 := Then(Then(r4, OperatorRemoves(dir)), OperatorUnpacks(dir));
    var d6 := Exec(r4).db.(copies := map[dir := OTHERS]);
    assert Exec(r6) == State(d6, map[1 := Waiting(7, Some(dir))]);
    var r7 := Then(r6, Advance(1, x));
    assert Exec(r7) == State(d6, map[1 := Working(7, Some(dir), AnswerCompleted, Plan(AnswerCompleted))]);
    r := Then(r7, Advance(1, x));
  }

  lemma {:induction false} OneUnpacks(x: Input) returns (r: Run)
    requires x.ok && x.artifact == Some(5)
    ensures Exec(r).clients == map[1 := Waiting(7, Some(Dir(7, 5)))] && Exec(r).db.copies == map[Dir(7, 5) := 1]
  {
    var d := Db(map[7 := Requested], map[], map[], []);
    var r1 := Then(Start, Request(7));
    assert Exec(r1) == State(d, map[]);
    var r2 := Then(r1, Begin(1, 7));
    assert Exec(r2) == State(d, map[1 := Launching(7)]);
    var r3 := Then(r2, Advance(1, x));
    assert Exec(r3) == State(d, map[1 := Unpacking(7, Dir(7, 5))]);
    r := Then(r3, Advance(1, x));
  }

  /** And when the second one fails to unpack, it removes the copy that the first one has unpacked meanwhile. */
  lemma {:induction false} FailureRemovesAnothersCopy() returns (r: Run)
    ensures var s := Exec(r); 1 in s.clients && s.clients[1] == Waiting(7, Some(Dir(7, 5))) && Dir(7, 5) !in s.db.copies
  {
    var x, dir := Input(true, Some(5), AnswerCompleted), Dir(7, 5);
    var r1 := BothLaunch();
    var d1 := Exec(r1).db;
    var r2 := Then(r1, Advance(1, x));
    assert Exec(r2) == State(d1, map[1 := Unpacking(7, dir), 2 := Launching(7)]);
    var r3 := Then(r2, Advance(2, x));
    assert Exec(r3) == State(d1, map[1 := Unpacking(7, dir), 2 := Unpacking(7, dir)]);
    var r4 := Then(r3, Advance(1, x));
    assert Exec(r4).clients == map[1 := Waiting(7, Some(dir)), 2 := Unpacking(7, dir)] && Exec(r4).db.copies == map[dir := 1];
    r := Then(r4, Advance(2, Input(false, Some(5), AnswerCompleted)));
  }

  lemma {:induction false} BothUnpack(x: Input) returns (r: Run)
    requires x.ok && x.artifact == Some(5)
    ensures Exec(r).clients == map[1 := Waiting(7, Some(Dir(7, 5))), 2 := Waiting(7, Some(Dir(7, 5)))]
    ensures Exec(r).db.copies == map[Dir(7, 5) := 2]
  {
    var dir := Dir(7, 5);
    var r1 := BothLaunch();
    var d1 := Exec(r1).db;
    var r2 := Then(r1, Advance(1, x));
    assert Exec(r2) == State(d1, map[1 := Unpacking(7, dir), 2 := Launching(7)]);
    var r3 := Then(r2, Advance(2, x));
    assert Exec(r3) == State(d1, map[1 := Unpacking(7, dir), 2 := Unpacking(7, dir)]);
    var r4 := Then(r3, Advance(1, x));
    assert Exec(r4).clients == map[1 := Waiting(7, Some(dir)), 2 := Unpacking(7, dir)] && Exec(r4).db.copies == map[dir := 1];
    r := Then(r4, Advance(2, x));
  }

  lemma {:induction false} BothLaunch() returns (r: Run)
    ensures Exec(r) == State(Db(map[7 := Requested], map[], map[], []), map[1 := Launching(7), 2 := Launching(7)])
  {
    var d := Db(map[7 := Requested], map[], map[], []);
    var r1 := Then(Start, Request(7));
    assert Exec(r1) == State(d, map[]);
    var r2 := Then(r1, Begin(1, 7));
    assert Exec(r2) == State(d, map[1 := Launching(7)]);
    r := Then(r2, Begin(2, 7));
  }
}
