/** The review queue shown to mobile clients and summarised in emails. */
module MobileQueue {
  import opened Listings
  import opened Wrappers
  import opened Text
  import QueueRef
  import Decimal

  datatype Verb = Accept | Approve | Deny | Clarify | Reject | Archive | OpenReview | OtherVerb

  datatype Kind = IntakeReview | ApprovalRequest | BrowserEvidence | BrowserRunFailed | FailedWork | BrowserLogin

  /** A queue item; `underReview` says that its status is review_required. */
  datatype Entry = Entry(kind: Kind, id: int, underReview: bool, allowed: seq<Verb>)

  function KeyOf(e: Entry): (Kind, int) { (e.kind, e.id) }

  datatype IntakeStatus = ReviewRequired | ApprovalRequired | OtherIntakeStatus
  datatype IntakeRow = IntakeRow(id: int, status: IntakeStatus)
  datatype TaskRow = TaskRow(id: int, failed: bool)
  datatype RunRow = RunRow(id: int, task: int, browser: bool, failed: bool)

  /** A row that belongs to another: an evidence artifact of a run, a login request of a session;
    * `listed` says that it passes the query's or the loop's filter. */
  datatype ChildRow = ChildRow(id: int, parent: int, listed: bool)

  /** The rows that the queue reads. */
  datatype Rows = Rows(
    intake: seq<IntakeRow>, pendingApprovals: seq<int>, runs: seq<RunRow>, artifacts: seq<ChildRow>,
    tasks: seq<TaskRow>, sessions: seq<int>, logins: seq<ChildRow>)

  function Name(kind: Kind): string {
    match kind
    case IntakeReview => "intake-review"
    case ApprovalRequest => "approval"
    case BrowserEvidence => "browser-evidence"
    case BrowserRunFailed => "browser-run-failed"
    case FailedWork => "failed-work"
    case BrowserLogin => "browser-login"
  }

  function QueueID(kind: Kind, id: int): string
    requires id >= 0
  {
    Name(kind) + ":" + Decimal.Format(id)
  }

  // ---------------------------------------------------------------- the listing

  function IntakeShown(row: IntakeRow): seq<Entry> {
    match row.status
    case ReviewRequired => [Entry(IntakeReview, row.id, true, [Accept, Reject, Clarify, Archive])]
    case ApprovalRequired => [Entry(IntakeReview, row.id, false, [Approve, Deny])]
    case OtherIntakeStatus => []
  }

  function FromIntake(rows: seq<IntakeRow>): seq<Entry> {
    if rows == [] then [] else FromIntake(rows[..|rows| - 1]) + IntakeShown(rows[|rows| - 1])
  }

  function TaskShown(browserFailed: set<int>, row: TaskRow): seq<Entry> {
    if !row.failed then []
    else [Entry(if row.id in browserFailed then BrowserRunFailed else FailedWork, row.id, false, [OtherVerb, OtherVerb])]
  }

  function FromTasks(browserFailed: set<int>, rows: seq<TaskRow>): seq<Entry> {
    if rows == [] then []
    else FromTasks(browserFailed, rows[..|rows| - 1]) + TaskShown(browserFailed, rows[|rows| - 1])
  }

  function FromIDs(kind: Kind, ids: seq<int>, allowed: seq<Verb>): seq<Entry> {
    seq(|ids|, i requires 0 <= i < |ids| => Entry(kind, ids[i], false, allowed))
  }

  /** The listed rows that belong to a parent, in order. */
  function ChildrenOf(rows: seq<ChildRow>, parent: int): seq<int> {
    if rows == [] then []
    else
      var last := rows[|rows| - 1];
      ChildrenOf(rows[..|rows| - 1], parent) + (if last.parent == parent && last.listed then [last.id] else [])
  }

  /** Parent by parent, what belongs to it. */
  function FromParents(kind: Kind, parents: seq<int>, rows: seq<ChildRow>): seq<Entry> {
    if parents == [] then []
    else
      FromParents(kind, parents[..|parents| - 1], rows)
      + FromIDs(kind, ChildrenOf(rows, parents[|parents| - 1]), [OtherVerb])
  }

  function BrowserRuns(runs: seq<RunRow>): seq<int> {
    if runs == [] then []
    else BrowserRuns(runs[..|runs| - 1]) + (if runs[|runs| - 1].browser then [runs[|runs| - 1].id] else [])
  }

  /** Tasks of which a browser run has failed. */
  function BrowserFailed(runs: seq<RunRow>): set<int> {
    if runs == [] then {}
    else
      var last := runs[|runs| - 1];
      BrowserFailed(runs[..|runs| - 1]) + (if last.browser && last.failed then {last.task} else {})
  }

  function Listing(rows: Rows): seq<Entry> {
    FromIntake(rows.intake) + FromIDs(ApprovalRequest, rows.pendingApprovals, [Approve, Deny])
    + FromParents(BrowserEvidence, BrowserRuns(rows.runs), rows.artifacts)
    + FromTasks(BrowserFailed(rows.runs), rows.tasks) + FromParents(BrowserLogin, rows.sessions, rows.logins)
  }

  method ListIntake(rows: seq<IntakeRow>) returns (items: seq<Entry>)
    ensures items == FromIntake(rows)
  {
    items := [];
    for n := 0 to |rows|
      invariant items == FromIntake(rows[..n])
    {
      var row := rows[n];
      assert rows[..n + 1][..n] == rows[..n] && rows[..n + 1][n] == row;
      if row.status.ReviewRequired? || row.status.ApprovalRequired? {
        var actions := [Accept, Reject, Clarify, Archive];
        if row.status.ApprovalRequired? {
          actions := [Approve, Deny];
        }
        items := items + [Entry(IntakeReview, row.id, row.status.ReviewRequired?, actions)];
      }
    }
    assert rows[..|rows|] == rows;
  }

  method ListFailedTasks(browserFailed: set<int>, rows: seq<TaskRow>) returns (items: seq<Entry>)
    ensures items == FromTasks(browserFailed, rows)
  {
    items := [];
    for n := 0 to |rows|
      invariant items == FromTasks(browserFailed, rows[..n])
    {
      var task := rows[n];
      assert rows[..n + 1][..n] == rows[..n] && rows[..n + 1][n] == task;
      if task.failed {
        if task.id in browserFailed {
          items := items + [Entry(BrowserRunFailed, task.id, false, [OtherVerb, OtherVerb])];
        } else {
          items := items + [Entry(FailedWork, task.id, false, [OtherVerb, OtherVerb])];
        }
      }
    }
    assert rows[..|rows|] == rows;
  }

  lemma {:induction false} NoParents(kind: Kind, rows: seq<ChildRow>)
    ensures FromParents(kind, [], rows) == []
  {
  }

  lemma {:induction false} FromParentsSnoc(kind: Kind, parents: seq<int>, p: int, rows: seq<ChildRow>)
    ensures FromParents(kind, parents + [p], rows)
         == FromParents(kind, parents, rows) + FromIDs(kind, ChildrenOf(rows, p), [OtherVerb])
  {
    assert (parents + [p])[..|parents|] == parents;
  }

  method ListEvidence(runs: seq<RunRow>, artifacts: seq<ChildRow>) returns (items: seq<Entry>, browserFailed: set<int>)
    ensures items == FromParents(BrowserEvidence, BrowserRuns(runs), artifacts)
    ensures browserFailed == BrowserFailed(runs)
  {
    hide FromParents, ChildrenOf;
    items, browserFailed := [], {};
    assert items == FromParents(BrowserEvidence, [], artifacts) by { NoParents(BrowserEvidence, artifacts); }
    for n := 0 to |runs|
      invariant items == FromParents(BrowserEvidence, BrowserRuns(runs[..n]), artifacts)
      invariant browserFailed == BrowserFailed(runs[..n])
    {
      var run := runs[n];
      assert runs[..n + 1][..n] == runs[..n] && runs[..n + 1][n] == run;
      if run.browser {
        if run.failed {
          browserFailed := browserFailed + {run.task};
        }
        var found := ChildrenOf(artifacts, run.id);
        items := items + FromIDs(BrowserEvidence, found, [OtherVerb]);
        FromParentsSnoc(BrowserEvidence, BrowserRuns(runs[..n]), run.id, artifacts);
        assert BrowserRuns(runs[..n + 1]) == BrowserRuns(runs[..n]) + [run.id];
      } else {
        assert BrowserRuns(runs[..n + 1]) == BrowserRuns(runs[..n]);
      }
    }
    assert runs[..|runs|] == runs;
  }

  method ListLogins(sessions: seq<int>, logins: seq<ChildRow>) returns (items: seq<Entry>)
    ensures items == FromParents(BrowserLogin, sessions, logins)
  {
    items := [];
    for n := 0 to |sessions|
      invariant items == FromParents(BrowserLogin, sessions[..n], logins)
    {
      assert sessions[..n + 1][..n] == sessions[..n] && sessions[..n + 1][n] == sessions[n];
      ghost var before := items;
      for k := 0 to |logins|
        invariant items == before + FromIDs(BrowserLogin, ChildrenOf(logins[..k], sessions[n]), [OtherVerb])
      {
        assert logins[..k + 1][..k] == logins[..k] && logins[..k + 1][k] == logins[k];
        if logins[k].parent == sessions[n] && logins[k].listed {
          var ids := ChildrenOf(logins[..k], sessions[n]);
          assert FromIDs(BrowserLogin, ids + [logins[k].id], [OtherVerb])
              == FromIDs(BrowserLogin, ids, [OtherVerb]) + [Entry(BrowserLogin, logins[k].id, false, [OtherVerb])];
          items := items + [Entry(BrowserLogin, logins[k].id, false, [OtherVerb])];
        }
      }
      assert logins[..|logins|] == logins;
    }
    assert sessions[..|sessions|] == sessions;
  }

  method MobileReviewQueue(rows: Rows) returns (items: seq<Entry>)
    ensures items == Listing(rows)
  {
    items := ListIntake(rows.intake);
    items := items + FromIDs(ApprovalRequest, rows.pendingApprovals, [Approve, Deny]);
    var evidence, browserFailed := ListEvidence(rows.runs, rows.artifacts);
    var failed := ListFailedTasks(browserFailed, rows.tasks);
    var logins := ListLogins(rows.sessions, rows.logins);
    items := items + evidence + failed + logins;
  }

  // ---------------------------------------------------------------- what is listed

  predicate FailedInBrowser(rows: Rows, task: int) {
    exists r | r in rows.runs :: r.browser && r.failed && r.task == task
  }

  predicate FailedTask(rows: Rows, id: int) { exists t | t in rows.tasks :: t.failed && t.id == id }

  /** The rows that put an entry on the queue, kind by kind. */
  predicate Belongs(rows: Rows, e: Entry) {
    match e.kind
    case IntakeReview =>
      || (IntakeRow(e.id, ReviewRequired) in rows.intake && e.underReview && e.allowed == [Accept, Reject, Clarify, Archive])
      || (IntakeRow(e.id, ApprovalRequired) in rows.intake && !e.underReview && e.allowed == [Approve, Deny])
    case ApprovalRequest => e.id in rows.pendingApprovals && !e.underReview && e.allowed == [Approve, Deny]
    case BrowserEvidence =>
      && !e.underReview && e.allowed == [OtherVerb]
      && exists r | r in rows.runs :: r.browser && ChildRow(e.id, r.id, true) in rows.artifacts
    case BrowserRunFailed =>
      FailedTask(rows, e.id) && FailedInBrowser(rows, e.id) && !e.underReview && e.allowed == [OtherVerb, OtherVerb]
    case FailedWork =>
      FailedTask(rows, e.id) && !FailedInBrowser(rows, e.id) && !e.underReview && e.allowed == [OtherVerb, OtherVerb]
    case BrowserLogin =>
      && !e.underReview && e.allowed == [OtherVerb]
      && exists p | p in rows.sessions :: ChildRow(e.id, p, true) in rows.logins
  }

  lemma {:induction false} IntakeExact(rows: seq<IntakeRow>, e: Entry)
    ensures e in FromIntake(rows) <==>
              && e.kind.IntakeReview?
              && (|| (IntakeRow(e.id, ReviewRequired) in rows && e.underReview && e.allowed == [Accept, Reject, Clarify, Archive])
                  || (IntakeRow(e.id, ApprovalRequired) in rows && !e.underReview && e.allowed == [Approve, Deny]))
  {
    if rows != [] {
      var before, last := rows[..|rows| - 1], rows[|rows| - 1];
      assert rows == before + [last];
      IntakeExact(before, e);
    }
  }

  lemma {:induction false} IDsExact(kind: Kind, ids: seq<int>, allowed: seq<Verb>, e: Entry)
    ensures e in FromIDs(kind, ids, allowed) <==> e.id in ids && e == Entry(kind, e.id, false, allowed)
  {
    if i :| 0 <= i < |ids| && ids[i] == e.id && e == Entry(kind, e.id, false, allowed) {
      assert FromIDs(kind, ids, allowed)[i] == e;
    }
  }

  lemma {:induction false} ChildrenExact(rows: seq<ChildRow>, parent: int, id: int)
    ensures id in ChildrenOf(rows, parent) <==> ChildRow(id, parent, true) in rows
  {
    if rows != [] {
      var before, last := rows[..|rows| - 1], rows[|rows| - 1];
      assert rows == before + [last];
      ChildrenExact(before, parent, id);
    }
  }

  lemma {:induction false} ParentsExact(kind: Kind, parents: seq<int>, rows: seq<ChildRow>, e: Entry)
    ensures e in FromParents(kind, parents, rows) <==>
              e == Entry(kind, e.id, false, [OtherVerb]) && exists p | p in parents :: ChildRow(e.id, p, true) in rows
  {
    if parents != [] {
      var before, last := parents[..|parents| - 1], parents[|parents| - 1];
      assert parents == before + [last];
      ParentsExact(kind, before, rows, e);
      ChildrenExact(rows, last, e.id);
      IDsExact(kind, ChildrenOf(rows, last), [OtherVerb], e);
    }
  }

  lemma {:induction false} RunsExact(runs: seq<RunRow>, id: int)
    ensures id in BrowserRuns(runs) <==> exists r | r in runs :: r.browser && r.id == id
    ensures id in BrowserFailed(runs) <==> exists r | r in runs :: r.browser && r.failed && r.task == id
  {
    if runs != [] {
      var before, last := runs[..|runs| - 1], runs[|runs| - 1];
      assert runs == before + [last];
      RunsExact(before, id);
    }
  }

  lemma {:induction false} TasksExact(browserFailed: set<int>, rows: seq<TaskRow>, e: Entry)
    ensures e in FromTasks(browserFailed, rows) <==>
              && (exists t | t in rows :: t.failed && t.id == e.id)
              && e.kind == (if e.id in browserFailed then BrowserRunFailed else FailedWork)
              && !e.underReview && e.allowed == [OtherVerb, OtherVerb]
  {
    if rows != [] {
      var before, last := rows[..|rows| - 1], rows[|rows| - 1];
      assert rows == before + [last];
      TasksExact(browserFailed, before, e);
    }
  }

  /** The queue holds exactly the entries that the rows call for. */
  lemma {:induction false} ListingExact(rows: Rows, e: Entry)
    ensures e in Listing(rows) <==> Belongs(rows, e)
  {
    IntakeExact(rows.intake, e);
    IDsExact(ApprovalRequest, rows.pendingApprovals, [Approve, Deny], e);
    ParentsExact(BrowserEvidence, BrowserRuns(rows.runs), rows.artifacts, e);
    ParentsExact(BrowserLogin, rows.sessions, rows.logins, e);
    TasksExact(BrowserFailed(rows.runs), rows.tasks, e);
    RunsExact(rows.runs, e.id);
    hide FromIntake, FromIDs, FromParents, FromTasks, BrowserRuns, BrowserFailed;
    forall p ensures p in BrowserRuns(rows.runs) <==> exists r | r in rows.runs :: r.browser && r.id == p {
      RunsExact(rows.runs, p);
    }
  }

  // ---------------------------------------------------------------- distinct items

  predicate DistinctInts(ids: seq<int>) { forall i, j | 0 <= i < j < |ids| :: ids[i] != ids[j] }

  predicate DistinctChildren(rows: seq<ChildRow>) {
    forall i, j | 0 <= i < j < |rows| :: rows[i].id != rows[j].id
  }

  /** Primary keys. */
  predicate Keyed(rows: Rows) {
    && (forall i, j | 0 <= i < j < |rows.intake| :: rows.intake[i].id != rows.intake[j].id)
    && (forall i, j | 0 <= i < j < |rows.tasks| :: rows.tasks[i].id != rows.tasks[j].id)
    && (forall i, j | 0 <= i < j < |rows.runs| :: rows.runs[i].id != rows.runs[j].id)
    && DistinctInts(rows.pendingApprovals) && DistinctInts(rows.sessions)
    && DistinctChildren(rows.artifacts) && DistinctChildren(rows.logins)
  }

  lemma {:induction false} IntakeUnique(rows: seq<IntakeRow>)
    requires forall i, j | 0 <= i < j < |rows| :: rows[i].id != rows[j].id
    ensures Unique(FromIntake(rows), KeyOf)
    ensures forall e | e in FromIntake(rows) :: e.kind.IntakeReview? && exists r | r in rows :: r.id == e.id
  {
    if rows != [] {
      var before, last := rows[..|rows| - 1], rows[|rows| - 1];
      IntakeUnique(before);
      var a, b := FromIntake(before), IntakeShown(last);
      forall i, j | 0 <= i < |a| && 0 <= j < |b| ensures KeyOf(a[i]) != KeyOf(b[j]) {
        assert a[i] in a;
      }
      UniqueAppend(a, b, KeyOf);
      forall e | e in a + b ensures e.kind.IntakeReview? && exists r | r in rows :: r.id == e.id {
        if e in a {
          var r :| r in before && r.id == e.id;
          assert r in rows;
        } else {
          assert last in rows;
        }
      }
    }
  }

  lemma {:induction false} TasksUnique(browserFailed: set<int>, rows: seq<TaskRow>)
    requires forall i, j | 0 <= i < j < |rows| :: rows[i].id != rows[j].id
    ensures Unique(FromTasks(browserFailed, rows), KeyOf)
    ensures forall e | e in FromTasks(browserFailed, rows) ::
              (e.kind.FailedWork? || e.kind.BrowserRunFailed?) && exists r | r in rows :: r.id == e.id
  {
    if rows != [] {
      var before, last := rows[..|rows| - 1], rows[|rows| - 1];
      TasksUnique(browserFailed, before);
      var a, b := FromTasks(browserFailed, before), TaskShown(browserFailed, last);
      forall i, j | 0 <= i < |a| && 0 <= j < |b| ensures KeyOf(a[i]) != KeyOf(b[j]) {
        assert a[i] in a;
      }
      UniqueAppend(a, b, KeyOf);
      forall e | e in a + b
        ensures (e.kind.FailedWork? || e.kind.BrowserRunFailed?) && exists r | r in rows :: r.id == e.id
      {
        if e in a {
          var r :| r in before && r.id == e.id;
          assert r in rows;
        } else {
          assert last in rows;
        }
      }
    }
  }

  lemma {:induction false} ChildrenSound(rows: seq<ChildRow>, parent: int)
    requires DistinctChildren(rows)
    ensures DistinctInts(ChildrenOf(rows, parent))
    ensures forall id | id in ChildrenOf(rows, parent) :: ChildRow(id, parent, true) in rows
  {
    if rows != [] {
      var before := rows[..|rows| - 1];
      ChildrenSound(before, parent);
      assert forall r | r in before :: r in rows;
      var ids := ChildrenOf(before, parent);
      assert forall i | 0 <= i < |ids| :: ids[i] in ids;
    }
  }

  lemma {:induction false} OtherParent(rows: seq<ChildRow>, i: int, p: int, j: int, q: int)
    requires DistinctChildren(rows) && ChildRow(i, p, true) in rows && ChildRow(j, q, true) in rows && p != q
    ensures i != j
  {
    var m :| 0 <= m < |rows| && rows[m] == ChildRow(i, p, true);
    var n :| 0 <= n < |rows| && rows[n] == ChildRow(j, q, true);
  }

  /** Rows with their own keys, gathered from distinct parents, appear once. */
  lemma {:induction false} ParentsUnique(kind: Kind, parents: seq<int>, rows: seq<ChildRow>)
    requires DistinctInts(parents) && DistinctChildren(rows)
    ensures Unique(FromParents(kind, parents, rows), KeyOf)
    ensures forall e | e in FromParents(kind, parents, rows) ::
              e.kind == kind && exists p | p in parents :: ChildRow(e.id, p, true) in rows
  {
    if parents != [] {
      var before, last := parents[..|parents| - 1], parents[|parents| - 1];
      ParentsUnique(kind, before, rows);
      ChildrenSound(rows, last);
      var ids := ChildrenOf(rows, last);
      var a, b := FromParents(kind, before, rows), FromIDs(kind, ids, [OtherVerb]);
      hide FromParents, ChildrenOf, DistinctChildren;
      assert forall j | 0 <= j < |b| :: b[j].id in ids;
      forall i, j | 0 <= i < |a| && 0 <= j < |b| ensures KeyOf(a[i]) != KeyOf(b[j]) {
        assert a[i] in a && b[j].id in ids;
        var p :| p in before && ChildRow(a[i].id, p, true) in rows;
        OtherParent(rows, a[i].id, p, b[j].id, last);
      }
      UniqueAppend(a, b, KeyOf);
      forall e | e in a + b ensures e.kind == kind && exists p | p in parents :: ChildRow(e.id, p, true) in rows {
        if e in a {
          var p :| p in before && ChildRow(e.id, p, true) in rows;
          assert p in parents;
        } else {
          assert last in parents;
        }
      }
    }
  }

  lemma {:induction false} BrowserRunsDistinct(runs: seq<RunRow>)
    requires forall i, j | 0 <= i < j < |runs| :: runs[i].id != runs[j].id
    ensures DistinctInts(BrowserRuns(runs))
    ensures forall id | id in BrowserRuns(runs) :: exists r | r in runs :: r.id == id
  {
    if runs != [] {
      var before, last := runs[..|runs| - 1], runs[|runs| - 1];
      BrowserRunsDistinct(before);
      var ids := BrowserRuns(before);
      assert forall i | 0 <= i < |ids| :: ids[i] in ids;
      forall id | id in BrowserRuns(runs) ensures exists r | r in runs :: r.id == id {
        if id in ids {
          var r :| r in before && r.id == id;
          assert r in runs;
        } else {
          assert last in runs;
        }
      }
    }
  }

  predicate OfKinds(es: seq<Entry>, kinds: set<Kind>) { forall i | 0 <= i < |es| :: es[i].kind in kinds }

  lemma {:induction false} Extend(a: seq<Entry>, b: seq<Entry>, ka: set<Kind>, kb: set<Kind>)
    requires Unique(a, KeyOf) && Unique(b, KeyOf) && OfKinds(a, ka) && OfKinds(b, kb) && ka !! kb
    ensures Unique(a + b, KeyOf) && OfKinds(a + b, ka + kb)
  {
    UniqueAppend(a, b, KeyOf);
  }

  lemma {:induction false} PartsUnique(a: seq<Entry>, b: seq<Entry>, c: seq<Entry>, d: seq<Entry>, e: seq<Entry>)
    requires Unique(a, KeyOf) && Unique(b, KeyOf) && Unique(c, KeyOf) && Unique(d, KeyOf) && Unique(e, KeyOf)
    requires OfKinds(a, {IntakeReview}) && OfKinds(b, {ApprovalRequest}) && OfKinds(c, {BrowserEvidence})
    requires OfKinds(d, {FailedWork, BrowserRunFailed}) && OfKinds(e, {BrowserLogin})
    ensures Unique(a + b + c + d + e, KeyOf)
  {
    hide OfKinds, Unique;
    Extend(a, b, {IntakeReview}, {ApprovalRequest});
    Extend(a + b, c, {IntakeReview} + {ApprovalRequest}, {BrowserEvidence});
    Extend(a + b + c, d, {IntakeReview} + {ApprovalRequest} + {BrowserEvidence}, {FailedWork, BrowserRunFailed});
    Extend(a + b + c + d, e,
      {IntakeReview} + {ApprovalRequest} + {BrowserEvidence} + {FailedWork, BrowserRunFailed}, {BrowserLogin});
  }

  /** Every row appears at most once in the listing. */
  lemma {:induction false} ListingUnique(rows: Rows)
    requires Keyed(rows)
    ensures Unique(Listing(rows), KeyOf)
  {
    IntakeUnique(rows.intake);
    ApprovalsUnique(rows.pendingApprovals);
    BrowserRunsDistinct(rows.runs);
    ParentsUnique(BrowserEvidence, BrowserRuns(rows.runs), rows.artifacts);
    TasksUnique(BrowserFailed(rows.runs), rows.tasks);
    ParentsUnique(BrowserLogin, rows.sessions, rows.logins);
    hide FromIntake, FromTasks, FromParents, FromIDs, OfKinds, Unique;
    InKinds(FromIntake(rows.intake), {IntakeReview});
    InKinds(FromParents(BrowserEvidence, BrowserRuns(rows.runs), rows.artifacts), {BrowserEvidence});
    InKinds(FromTasks(BrowserFailed(rows.runs), rows.tasks), {FailedWork, BrowserRunFailed});
    InKinds(FromParents(BrowserLogin, rows.sessions, rows.logins), {BrowserLogin});
    PartsUnique(FromIntake(rows.intake), FromIDs(ApprovalRequest, rows.pendingApprovals, [Approve, Deny]),
      FromParents(BrowserEvidence, BrowserRuns(rows.runs), rows.artifacts),
      FromTasks(BrowserFailed(rows.runs), rows.tasks), FromParents(BrowserLogin, rows.sessions, rows.logins));
  }

  lemma {:induction false} InKinds(es: seq<Entry>, kinds: set<Kind>)
    requires forall e | e in es :: e.kind in kinds
    ensures OfKinds(es, kinds)
  {
  }

  lemma {:induction false} ApprovalsUnique(ids: seq<int>)
    requires DistinctInts(ids)
    ensures var es := FromIDs(ApprovalRequest, ids, [Approve, Deny]);
            Unique(es, KeyOf) && OfKinds(es, {ApprovalRequest})
  {
  }

  // ---------------------------------------------------------------- queue ids

  lemma {:induction false} NameHasNoColon(kind: Kind)
    ensures ':' !in Name(kind)
  {
  }

  lemma {:induction false} NameInjective(a: Kind, b: Kind)
    requires Name(a) == Name(b)
    ensures a == b
  {
    assert |Name(a)| == |Name(b)| && Name(a)[0] == Name(b)[0];
    if |Name(a)| == 13 {
      assert Name(a)[1] == Name(b)[1];
    }
  }

  lemma {:induction false} QueueIDInjective(a: Kind, i: int, b: Kind, j: int)
    requires i >= 0 && j >= 0 && QueueID(a, i) == QueueID(b, j)
    ensures a == b && i == j
  {
    NameHasNoColon(a);
    NameHasNoColon(b);
    QueueRef.CutAt(Name(a), Decimal.Format(i));
    QueueRef.CutAt(Name(b), Decimal.Format(j));
    hide Name;
    Decimal.FormatInjective(i, j);
    NameInjective(a, b);
  }

  /** How the unified queue's reader knows a kind, if it does. */
  function UnifiedName(kind: Kind): Option<string> {
    match kind
    case IntakeReview => Some("intake-review")
    case ApprovalRequest => Some("approval")
    case BrowserEvidence => Some("browser-evidence")
    case BrowserRunFailed => None
    case FailedWork => Some("failed-work")
    case BrowserLogin => None
  }

  lemma {:induction false} UnifiedNames(kind: Kind)
    ensures PlainName(Name(kind))
    ensures if UnifiedName(kind).Some? then Name(kind) == UnifiedName(kind).value && Name(kind) in QueueRef.PREFIXES
            else Name(kind) !in QueueRef.PREFIXES
  {
  }

  /** The commands on the unified queue read the ids that the mobile queue shows, for the same kind and row;
    * except failed browser runs and logins, whose ids they refuse. */
  lemma {:induction false} UnifiedReads(lower: char -> char, kind: Kind, id: int)
    requires FixesNames(lower) && 1 <= id <= Decimal.MAX_INT64
    ensures QueueRef.ParseRef(lower, QueueID(kind, id))
         == match UnifiedName(kind) case None => None case Some(name) => Some(QueueRef.Ref(name, id))
  {
    UnifiedNames(kind);
    var digits := Decimal.Format(id);
    hide Name, UnifiedName, QueueRef.PREFIXES, QueueRef.ParseRef, Decimal.Format;
    if UnifiedName(kind).Some? {
      QueueRef.ParseInvertsFormat(lower, QueueRef.Ref(UnifiedName(kind).value, id));
    } else {
      assert Decimal.IsDigit(digits[0]) && Decimal.IsDigit(digits[|digits| - 1]);
      QueueRef.UnknownKindRefused(lower, Name(kind), digits);
    }
  }
}
