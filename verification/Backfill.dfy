/** Bringing stored tasks under the default workspace: projects are reconciled into initiatives, and
  * four updates fill in what tasks lack. */
module Backfill {
  import opened Wrappers

  datatype Project = Project(id: int, key: string)

  datatype Initiative = Initiative(
    id: int, workspace: int, key: string, owner: Option<int>, linkedProject: Option<int>)

  datatype Task = Task(
    id: int, project: int, workspace: Option<int>, initiative: Option<int>, companion: Option<int>,
    workKind: string, scope: string)

  datatype Report = Report(reconciled: nat, workspace: nat, initiative: nat, companion: nat, workKind: nat)

  // ---------------------------------------------------------------- reconciling projects

  /** The position of the row with a workspace and key, or the number of rows. */
  function IndexOf(rows: seq<Initiative>, ws: int, key: string): (i: nat)
    ensures i <= |rows|
    ensures i < |rows| ==> rows[i].workspace == ws && rows[i].key == key
    ensures i == |rows| ==> forall j | 0 <= j < |rows| :: rows[j].workspace != ws || rows[j].key != key
    ensures forall j | 0 <= j < i :: rows[j].workspace != ws || rows[j].key != key
  {
    if rows == [] then 0
    else if rows[0].workspace == ws && rows[0].key == key then 0
    else 1 + IndexOf(rows[1..], ws, key)
  }

  /** An id above every stored one, as an automatically incremented key is. */
  function NextID(rows: seq<Initiative>): (n: int)
    ensures forall r | r in rows :: r.id < n
  {
    if rows == [] then 1
    else
      var n := NextID(rows[..|rows| - 1]);
      var last := rows[|rows| - 1];
      assert forall r | r in rows :: r == last || r in rows[..|rows| - 1];
      if last.id >= n then last.id + 1 else n
  }

  /** `upsertInitiativeTx`: the row with the key is rewritten, or a new one is added. */
  function Upsert(rows: seq<Initiative>, ws: int, key: string, owner: int, project: int): seq<Initiative> {
    var i := IndexOf(rows, ws, key);
    if i < |rows| then rows[i := rows[i].(owner := Some(owner), linkedProject := Some(project))]
    else rows + [Initiative(NextID(rows), ws, key, Some(owner), Some(project))]
  }

  /** A stored owner is kept; otherwise the workspace's default companion becomes the owner. */
  function OwnerFor(rows: seq<Initiative>, ws: int, key: string, default: int): int {
    var i := IndexOf(rows, ws, key);
    if i < |rows| && rows[i].owner.Some? then rows[i].owner.value else default
  }

  function ReconcileOne(rows: seq<Initiative>, ws: int, default: int, p: Project): seq<Initiative> {
    Upsert(rows, ws, p.key, OwnerFor(rows, ws, p.key, default), p.id)
  }

  function Reconcile(rows: seq<Initiative>, ws: int, default: int, projects: seq<Project>): seq<Initiative> {
    if projects == [] then rows
    else ReconcileOne(Reconcile(rows, ws, default, projects[..|projects| - 1]), ws, default, projects[|projects| - 1])
  }

  // ---------------------------------------------------------------- the updates

  /** `TRIM` of SQL removes spaces only. */
  predicate Blank(s: string) { forall i | 0 <= i < |s| :: s[i] == ' ' }

  /** `ORDER BY id DESC LIMIT 1` among the workspace's initiatives of a project. */
  function Newest(rows: seq<Initiative>, ws: int, project: int): Option<Initiative> {
    if rows == [] then None
    else
      var last := rows[|rows| - 1];
      var earlier := Newest(rows[..|rows| - 1], ws, project);
      if last.workspace == ws && last.linkedProject == Some(project) && (earlier.None? || earlier.value.id <= last.id)
      then Some(last) else earlier
  }

  function ByID(rows: seq<Initiative>, id: int): Option<Initiative> {
    if rows == [] then None
    else if rows[|rows| - 1].id == id then Some(rows[|rows| - 1])
    else ByID(rows[..|rows| - 1], id)
  }

  function OwnerOf(rows: seq<Initiative>, initiative: Option<int>): Option<int> {
    if initiative.None? then None
    else match ByID(rows, initiative.value)
      case None => None
      case Some(row) => row.owner
  }

  datatype Update = BindWorkspace | LinkInitiative | BindCompanion | FillWorkKind

  /** The `WHERE` clause of an update. */
  predicate Selected(rows: seq<Initiative>, ws: int, u: Update, t: Task) {
    match u
    case BindWorkspace => t.workspace.None?
    case LinkInitiative => t.initiative.None? && Newest(rows, ws, t.project).Some?
    case BindCompanion => t.companion.None? && OwnerOf(rows, t.initiative).Some?
    case FillWorkKind => Blank(t.workKind)
  }

  /** The `SET` clause of an update. */
  function Set(rows: seq<Initiative>, ws: int, u: Update, t: Task): Task
    requires Selected(rows, ws, u, t)
  {
    match u
    case BindWorkspace => t.(workspace := Some(ws))
    case LinkInitiative => t.(initiative := Some(Newest(rows, ws, t.project).value.id))
    case BindCompanion => t.(companion := OwnerOf(rows, t.initiative))
    case FillWorkKind => t.(workKind := t.scope)
  }

  function Apply(rows: seq<Initiative>, ws: int, u: Update, t: Task): Task {
    if Selected(rows, ws, u, t) then Set(rows, ws, u, t) else t
  }

  function ApplyAll(rows: seq<Initiative>, ws: int, u: Update, tasks: seq<Task>): seq<Task> {
    seq(|tasks|, i requires 0 <= i < |tasks| => Apply(rows, ws, u, tasks[i]))
  }

  function Affected(rows: seq<Initiative>, ws: int, u: Update, tasks: seq<Task>): nat {
    if tasks == [] then 0
    else
      Affected(rows, ws, u, tasks[..|tasks| - 1])
      + (if Selected(rows, ws, u, tasks[|tasks| - 1]) then 1 else 0)
  }

  class WorkspaceStore {
    const projects: seq<Project>
    var initiatives: seq<Initiative>
    var tasks: seq<Task>

    constructor (projects: seq<Project>, initiatives: seq<Initiative>, tasks: seq<Task>)
      ensures this.projects == projects && this.initiatives == initiatives && this.tasks == tasks
    {
      this.projects := projects;
      this.initiatives := initiatives;
      this.tasks := tasks;
    }

    method UpdateRowsAffected(ws: int, u: Update) returns (n: nat)
      modifies this`tasks
      ensures tasks == ApplyAll(initiatives, ws, u, old(tasks))
      ensures n == Affected(initiatives, ws, u, old(tasks))
    {
      n := 0;
      var rows := tasks;
      for k := 0 to |rows|
        invariant |tasks| == |rows|
        invariant forall i | 0 <= i < k :: tasks[i] == Apply(initiatives, ws, u, rows[i])
        invariant forall i | k <= i < |rows| :: tasks[i] == rows[i]
        invariant n == Affected(initiatives, ws, u, rows[..k])
      {
        assert rows[..k + 1][..k] == rows[..k] && rows[..k + 1][k] == rows[k];
        if Selected(initiatives, ws, u, rows[k]) {
          tasks := tasks[k := Set(initiatives, ws, u, rows[k])];
          n := n + 1;
        }
      }
      assert rows[..|rows|] == rows;
    }

    method BootstrapWorkspaceRuntimeState(ws: int, defaultCompanion: int) returns (report: Report)
      modifies this
      ensures initiatives == Reconcile(old(initiatives), ws, defaultCompanion, projects)
      ensures tasks == Filled(initiatives, ws, old(tasks))
      ensures report == ReportOf(initiatives, ws, |projects|, old(tasks))
    {
      var reconciled := 0;
      for k := 0 to |projects|
        invariant tasks == old(tasks) && reconciled == k
        invariant initiatives == Reconcile(old(initiatives), ws, defaultCompanion, projects[..k])
      {
        var p := projects[k];
        assert projects[..k + 1][..k] == projects[..k] && projects[..k + 1][k] == p;
        var owner := defaultCompanion;
        var i := IndexOf(initiatives, ws, p.key);
        if i < |initiatives| && initiatives[i].owner.Some? {
          owner := initiatives[i].owner.value;
        }
        initiatives := Upsert(initiatives, ws, p.key, owner, p.id);
        reconciled := reconciled + 1;
      }
      assert projects[..|projects|] == projects;
      var bound := UpdateRowsAffected(ws, BindWorkspace);
      var linked := UpdateRowsAffected(ws, LinkInitiative);
      var owned := UpdateRowsAffected(ws, BindCompanion);
      var filled := UpdateRowsAffected(ws, FillWorkKind);
      report := Report(reconciled, bound, linked, owned, filled);
    }
  }

  /** The four updates in order: a companion can be bound through an initiative linked just before. */
  function Filled(rows: seq<Initiative>, ws: int, tasks: seq<Task>): seq<Task> {
    ApplyAll(rows, ws, FillWorkKind,
      ApplyAll(rows, ws, BindCompanion, ApplyAll(rows, ws, LinkInitiative, ApplyAll(rows, ws, BindWorkspace, tasks))))
  }

  function ReportOf(rows: seq<Initiative>, ws: int, reconciled: nat, tasks: seq<Task>): Report {
    var t1 := ApplyAll(rows, ws, BindWorkspace, tasks);
    var t2 := ApplyAll(rows, ws, LinkInitiative, t1);
    var t3 := ApplyAll(rows, ws, BindCompanion, t2);
    Report(reconciled, Affected(rows, ws, BindWorkspace, tasks), Affected(rows, ws, LinkInitiative, t1),
      Affected(rows, ws, BindCompanion, t2), Affected(rows, ws, FillWorkKind, t3))
  }

  // ---------------------------------------------------------------- what one run does to a task

  /** A task afterwards, said without the order of the updates. */
  predicate IsFilled(rows: seq<Initiative>, ws: int, t: Task, r: Task) {
    && r.id == t.id && r.project == t.project && r.scope == t.scope
    && r.workspace == (if t.workspace.Some? then t.workspace else Some(ws))
    && r.initiative == (if t.initiative.Some? then t.initiative
                        else match Newest(rows, ws, t.project) case None => None case Some(row) => Some(row.id))
    && r.companion == (if t.companion.Some? then t.companion else OwnerOf(rows, r.initiative))
    && r.workKind == (if Blank(t.workKind) then t.scope else t.workKind)
  }

  lemma {:induction false} EachTaskFilled(rows: seq<Initiative>, ws: int, tasks: seq<Task>, i: nat)
    requires i < |tasks|
    ensures |Filled(rows, ws, tasks)| == |tasks| && IsFilled(rows, ws, tasks[i], Filled(rows, ws, tasks)[i])
  {
  }

  /** A work kind of spaces only, or none at all, becomes the scope; any other one stays. */
  lemma {:induction false} WorkKindFilled(rows: seq<Initiative>, ws: int, tasks: seq<Task>, i: nat)
    requires i < |tasks|
    ensures |Filled(rows, ws, tasks)| == |tasks|
    ensures Filled(rows, ws, tasks)[i].workKind
         == if forall c | c in tasks[i].workKind :: c == ' ' then tasks[i].scope else tasks[i].workKind
  {
    EachTaskFilled(rows, ws, tasks, i);
    hide Filled;
    var kind := tasks[i].workKind;
    assert forall k | 0 <= k < |kind| :: kind[k] in kind;
  }

  /** Nothing that was set is changed: no binding is overwritten and no work kind is replaced. */
  lemma {:induction false} NothingOverwritten(rows: seq<Initiative>, ws: int, tasks: seq<Task>, i: nat)
    requires i < |tasks|
    ensures |Filled(rows, ws, tasks)| == |tasks|
    ensures var t, r := tasks[i], Filled(rows, ws, tasks)[i];
            && (t.workspace.Some? ==> r.workspace == t.workspace)
            && (t.initiative.Some? ==> r.initiative == t.initiative)
            && (t.companion.Some? ==> r.companion == t.companion)
            && (!Blank(t.workKind) ==> r.workKind == t.workKind)
  {
    EachTaskFilled(rows, ws, tasks, i);
  }

  // ---------------------------------------------------------------- reconciliation settles every project

  predicate DistinctKeys(projects: seq<Project>) {
    forall i, j | 0 <= i < j < |projects| :: projects[i].key != projects[j].key
  }

  /** The project has its own initiative, owned and linked. */
  predicate Settled(rows: seq<Initiative>, ws: int, p: Project) {
    var i := IndexOf(rows, ws, p.key);
    i < |rows| && rows[i].owner.Some? && rows[i].linkedProject == Some(p.id)
  }

  lemma {:induction false} IndexIs(rows: seq<Initiative>, ws: int, key: string, i: nat)
    requires i < |rows| && rows[i].workspace == ws && rows[i].key == key
    requires forall j | 0 <= j < i :: rows[j].workspace != ws || rows[j].key != key
    ensures IndexOf(rows, ws, key) == i
  {
  }

  /** Reconciling one project settles it and leaves every differently keyed one as it was. */
  lemma {:induction false} ReconcileOneSettles(rows: seq<Initiative>, ws: int, default: int, p: Project)
    ensures Settled(ReconcileOne(rows, ws, default, p), ws, p)
  {
    var next := ReconcileOne(rows, ws, default, p);
    IndexIs(next, ws, p.key, IndexOf(rows, ws, p.key));
  }

  lemma {:induction false} ReconcileOneKeeps(rows: seq<Initiative>, ws: int, default: int, p: Project, q: Project)
    requires Settled(rows, ws, q) && p.key != q.key
    ensures Settled(ReconcileOne(rows, ws, default, p), ws, q)
  {
    IndexIs(ReconcileOne(rows, ws, default, p), ws, q.key, IndexOf(rows, ws, q.key));
  }

  lemma {:induction false} SettledIsFixed(rows: seq<Initiative>, ws: int, default: int, p: Project)
    requires Settled(rows, ws, p)
    ensures ReconcileOne(rows, ws, default, p) == rows
  {
  }

  lemma {:induction false} ReconcileSettles(rows: seq<Initiative>, ws: int, default: int, projects: seq<Project>)
    requires DistinctKeys(projects)
    ensures forall p | p in projects :: Settled(Reconcile(rows, ws, default, projects), ws, p)
  {
    if projects != [] {
      var before, last := projects[..|projects| - 1], projects[|projects| - 1];
      var mid := Reconcile(rows, ws, default, before);
      ReconcileSettles(rows, ws, default, before);
      ReconcileOneSettles(mid, ws, default, last);
      hide Settled, ReconcileOne;
      forall p | p in projects ensures Settled(Reconcile(rows, ws, default, projects), ws, p) {
        if p != last {
          assert p in before;
          ReconcileOneKeeps(mid, ws, default, last, p);
        }
      }
    }
  }

  lemma {:induction false} SettledAllFixed(rows: seq<Initiative>, ws: int, default: int, projects: seq<Project>)
    requires forall p | p in projects :: Settled(rows, ws, p)
    ensures Reconcile(rows, ws, default, projects) == rows
  {
    if projects != [] {
      hide Settled;
      SettledAllFixed(rows, ws, default, projects[..|projects| - 1]);
      SettledIsFixed(rows, ws, default, projects[|projects| - 1]);
    }
  }

  /** Reconciling a second time changes no initiative. */
  lemma {:induction false} ReconcileIdempotent(rows: seq<Initiative>, ws: int, default: int, projects: seq<Project>)
    requires DistinctKeys(projects)
    ensures var once := Reconcile(rows, ws, default, projects); Reconcile(once, ws, default, projects) == once
  {
    ReconcileSettles(rows, ws, default, projects);
    SettledAllFixed(Reconcile(rows, ws, default, projects), ws, default, projects);
  }

  lemma {:induction false} NewestExists(rows: seq<Initiative>, ws: int, project: int, i: nat)
    requires i < |rows| && rows[i].workspace == ws && rows[i].linkedProject == Some(project)
    ensures Newest(rows, ws, project).Some?
  {
    if i < |rows| - 1 { NewestExists(rows[..|rows| - 1], ws, project, i); }
  }

  /** The choice is right: it is an initiative of the project with the greatest id. */
  lemma {:induction false} NewestIsGreatest(rows: seq<Initiative>, ws: int, project: int)
    ensures var n := Newest(rows, ws, project);
            && (n.Some? ==> n.value in rows && n.value.workspace == ws && n.value.linkedProject == Some(project))
            && forall r | r in rows && r.workspace == ws && r.linkedProject == Some(project) :: n.Some? && r.id <= n.value.id
  {
    if rows != [] {
      var before := rows[..|rows| - 1];
      NewestIsGreatest(before, ws, project);
      assert forall r | r in rows :: r in before || r == rows[|rows| - 1];
    }
  }

  /** After one run every task of a stored project has a workspace and an initiative, and has a
    * companion exactly when it had one or its initiative has an owner. */
  lemma {:induction false} EveryTaskBound(
    rows: seq<Initiative>, ws: int, default: int, projects: seq<Project>, tasks: seq<Task>, i: nat)
    requires DistinctKeys(projects) && i < |tasks| && exists p | p in projects :: p.id == tasks[i].project
    ensures var after := Reconcile(rows, ws, default, projects);
            var filled := Filled(after, ws, tasks);
            && |filled| == |tasks| && filled[i].workspace.Some? && filled[i].initiative.Some?
            && (filled[i].companion.Some? <==> tasks[i].companion.Some? || OwnerOf(after, filled[i].initiative).Some?)
  {
    var after := Reconcile(rows, ws, default, projects);
    var p :| p in projects && p.id == tasks[i].project;
    ReconcileSettles(rows, ws, default, projects);
    assert Settled(after, ws, p);
    NewestExists(after, ws, p.id, IndexOf(after, ws, p.key));
    EachTaskFilled(after, ws, tasks, i);
  }

  /** Primary keys. */
  predicate DistinctIDs(rows: seq<Initiative>) {
    forall i, j | 0 <= i < j < |rows| :: rows[i].id != rows[j].id
  }

  lemma {:induction false} ReconcileKeepsIDs(rows: seq<Initiative>, ws: int, default: int, projects: seq<Project>)
    requires DistinctIDs(rows)
    ensures DistinctIDs(Reconcile(rows, ws, default, projects))
  {
    if projects != [] {
      var mid := Reconcile(rows, ws, default, projects[..|projects| - 1]);
      ReconcileKeepsIDs(rows, ws, default, projects[..|projects| - 1]);
      assert forall i | 0 <= i < |mid| :: mid[i] in mid;
    }
  }

  lemma {:induction false} ByIDExact(rows: seq<Initiative>, id: int)
    ensures ByID(rows, id).None? ==> forall r | r in rows :: r.id != id
    ensures ByID(rows, id).Some? ==> ByID(rows, id).value in rows && ByID(rows, id).value.id == id
  {
    if rows != [] {
      var before, last := rows[..|rows| - 1], rows[|rows| - 1];
      assert rows == before + [last];
      ByIDExact(before, id);
    }
  }

  /** The companion of a task without one becomes the owner of the initiative that has the id it is bound to;
    * a companion that was set stays. */
  lemma {:induction false} CompanionIsOwner(
    rows: seq<Initiative>, ws: int, default: int, projects: seq<Project>, tasks: seq<Task>, i: nat, r: Initiative)
    requires DistinctIDs(rows) && i < |tasks|
    ensures var after := Reconcile(rows, ws, default, projects);
            var filled := Filled(after, ws, tasks);
            && |filled| == |tasks|
            && (tasks[i].companion.Some? ==> filled[i].companion == tasks[i].companion)
            && (tasks[i].companion.None? && r in after && filled[i].initiative == Some(r.id) ==> filled[i].companion == r.owner)
            && (tasks[i].companion.None? && filled[i].companion.Some? ==>
                  exists x | x in after :: filled[i].initiative == Some(x.id) && filled[i].companion == x.owner)
  {
    var after := Reconcile(rows, ws, default, projects);
    var filled := Filled(after, ws, tasks);
    ReconcileKeepsIDs(rows, ws, default, projects);
    EachTaskFilled(after, ws, tasks, i);
    if filled[i].initiative.Some? {
      ByIDExact(after, filled[i].initiative.value);
    }
    hide Reconcile, Filled, ByID, Newest;
  }

  predicate ProjectAt(rows: seq<Initiative>, ws: int, projects: seq<Project>, i: nat, p: Project) {
    p in projects && IndexOf(rows, ws, p.key) == i
  }

  /** Linked to the project; a stored owner is kept. */
  function Claimed(r: Initiative, default: int, p: Project): Initiative {
    r.(linkedProject := Some(p.id), owner := Some(match r.owner case Some(o) => o case None => default))
  }

  /** A stored initiative after reconciling: if it is the one of a project's key, it is linked to that project,
    * and owned by the default companion if it had no owner; otherwise it is as it was. */
  predicate RowReconciled(rows: seq<Initiative>, ws: int, default: int, projects: seq<Project>, i: nat, r: Initiative)
    requires i < |rows|
  {
    && (forall p | p in projects && ProjectAt(rows, ws, projects, i, p) ::
          r == Claimed(rows[i], default, p))
    && ((forall p | p in projects :: !ProjectAt(rows, ws, projects, i, p)) ==> r == rows[i])
  }

  /** Every project whose key no initiative of the workspace had gets a new one, with a new id; and there are no
    * others. */
  predicate AddedFor(rows: seq<Initiative>, ws: int, default: int, p: Project, r: Initiative) {
    && IndexOf(rows, ws, p.key) == |rows|
    && r.workspace == ws && r.key == p.key && r.owner == Some(default) && r.linkedProject == Some(p.id)
    && forall x | x in rows :: x.id < r.id
  }

  predicate AddedForSome(rows: seq<Initiative>, ws: int, default: int, projects: seq<Project>, r: Initiative) {
    exists p | p in projects :: AddedFor(rows, ws, default, p, r)
  }

  predicate ReconciledTo(rows: seq<Initiative>, ws: int, default: int, projects: seq<Project>, after: seq<Initiative>) {
    && |rows| <= |after|
    && (forall i | 0 <= i < |rows| :: RowReconciled(rows, ws, default, projects, i, after[i]))
    && (forall p | p in projects && IndexOf(rows, ws, p.key) == |rows| ::
          exists i | |rows| <= i < |after| :: AddedFor(rows, ws, default, p, after[i]))
    && forall i | |rows| <= i < |after| :: AddedForSome(rows, ws, default, projects, after[i])
  }

  lemma {:induction false} IndexAfter(rows: seq<Initiative>, ws: int, default: int, projects: seq<Project>, after: seq<Initiative>, p: Project)
    requires ReconciledTo(rows, ws, default, projects, after) && forall q | q in projects :: q.key != p.key
    ensures var i := IndexOf(rows, ws, p.key); IndexOf(after, ws, p.key) == if i < |rows| then i else |after|
  {
    var i := IndexOf(rows, ws, p.key);
    forall j | 0 <= j < |rows| ensures after[j].workspace == rows[j].workspace && after[j].key == rows[j].key {
      assert RowReconciled(rows, ws, default, projects, j, after[j]);
      if q :| q in projects && ProjectAt(rows, ws, projects, j, q) {}
    }
    if i < |rows| {
      IndexIs(after, ws, p.key, i);
    } else {
      forall k | |rows| <= k < |after| ensures after[k].key != p.key {
        assert AddedForSome(rows, ws, default, projects, after[k]);
        var q :| q in projects && AddedFor(rows, ws, default, q, after[k]);
      }
    }
  }

  lemma {:induction false} ReconcileOneRow(rows: seq<Initiative>, ws: int, default: int, p: Project, i: nat)
    requires i < |rows|
    ensures var after := ReconcileOne(rows, ws, default, p);
            |after| >= |rows| && after[i] == if IndexOf(rows, ws, p.key) != i then rows[i] else Claimed(rows[i], default, p)
  {
  }

  lemma {:induction false} RowsReconciled(
    rows: seq<Initiative>, ws: int, default: int, before: seq<Project>, mid: seq<Initiative>, p: Project, i: nat)
    requires ReconciledTo(rows, ws, default, before, mid) && DistinctKeys(before + [p]) && i < |rows|
    ensures var after := ReconcileOne(mid, ws, default, p);
            |after| >= |rows| && RowReconciled(rows, ws, default, before + [p], i, after[i])
  {
    OtherKeys(before, p);
    IndexAfter(rows, ws, default, before, mid, p);
    ReconcileOneRow(mid, ws, default, p, i);
    var r := ReconcileOne(mid, ws, default, p)[i];
    assert RowReconciled(rows, ws, default, before, i, mid[i]);
    hide ReconcileOne, ReconciledTo;
    var projects := before + [p];
    assert forall q | q in projects :: q in before || q == p;
    if IndexOf(rows, ws, p.key) == i {
      forall q | q in before ensures !ProjectAt(rows, ws, before, i, q) {
        assert ProjectAt(rows, ws, before, i, q) ==> rows[i].key == q.key;
      }
      assert r == Claimed(rows[i], default, p);
      assert p in projects && ProjectAt(rows, ws, projects, i, p);
      forall q | q in projects && ProjectAt(rows, ws, projects, i, q) ensures q == p {
        assert q in before ==> ProjectAt(rows, ws, before, i, q);
      }
    } else {
      assert r == mid[i];
      hide IndexOf;
      forall q | q in projects && ProjectAt(rows, ws, projects, i, q) ensures r == Claimed(rows[i], default, q) {
        assert q in before && ProjectAt(rows, ws, before, i, q);
      }
      if forall q | q in projects :: !ProjectAt(rows, ws, projects, i, q) {
        forall q | q in before ensures !ProjectAt(rows, ws, before, i, q) {
          assert q in projects;
        }
      }
    }
  }

  lemma {:induction false} OtherKeys(before: seq<Project>, p: Project)
    requires DistinctKeys(before + [p])
    ensures DistinctKeys(before) && forall q | q in before :: q.key != p.key
  {
    var projects := before + [p];
    assert forall i | 0 <= i < |before| :: projects[i] == before[i];
    assert projects[|before|] == p;
  }

  lemma {:induction false} AddedRows(
    rows: seq<Initiative>, ws: int, default: int, before: seq<Project>, mid: seq<Initiative>, p: Project)
    requires ReconciledTo(rows, ws, default, before, mid) && DistinctKeys(before + [p])
    ensures var after := ReconcileOne(mid, ws, default, p);
            if IndexOf(rows, ws, p.key) < |rows| then |after| == |mid| && after[|rows|..] == mid[|rows|..]
            else |after| == |mid| + 1 && after[..|mid|] == mid && AddedFor(rows, ws, default, p, after[|mid|])
  {
    OtherKeys(before, p);
    IndexAfter(rows, ws, default, before, mid, p);
    if IndexOf(rows, ws, p.key) == |rows| {
      IDsKept(rows, ws, default, before, mid);
      assert forall i | 0 <= i < |rows| :: mid[i] in mid && rows[i].id == mid[i].id;
      assert forall x | x in rows :: x.id < NextID(mid) by {
        forall x | x in rows ensures x.id < NextID(mid) {
          var i :| 0 <= i < |rows| && rows[i] == x;
          assert mid[i] in mid;
        }
      }
    }
  }

  lemma {:induction false} IDsKept(rows: seq<Initiative>, ws: int, default: int, projects: seq<Project>, after: seq<Initiative>)
    requires ReconciledTo(rows, ws, default, projects, after)
    ensures forall i | 0 <= i < |rows| :: after[i].id == rows[i].id
  {
    forall i | 0 <= i < |rows| ensures after[i].id == rows[i].id {
      assert RowReconciled(rows, ws, default, projects, i, after[i]);
      if q :| q in projects && ProjectAt(rows, ws, projects, i, q) {}
    }
  }

  /** What reconciling the projects does to the initiatives, row by row. */
  lemma {:induction false} ReconcileExact(rows: seq<Initiative>, ws: int, default: int, projects: seq<Project>)
    requires DistinctKeys(projects)
    ensures ReconciledTo(rows, ws, default, projects, Reconcile(rows, ws, default, projects))
  {
    if projects == [] {
      assert forall p :: p !in projects;
    } else {
      var n := |projects| - 1;
      var before, p := projects[..n], projects[n];
      assert projects == before + [p];
      OtherKeys(before, p);
      var mid := Reconcile(rows, ws, default, before);
      ReconcileExact(rows, ws, default, before);
      var after := ReconcileOne(mid, ws, default, p);
      forall i: nat | i < |rows| ensures |after| >= |rows| && RowReconciled(rows, ws, default, projects, i, after[i]) {
        RowsReconciled(rows, ws, default, before, mid, p, i);
      }
      AddedRows(rows, ws, default, before, mid, p);
      AddedComplete(rows, ws, default, before, mid, p, after);
    }
  }

  lemma {:induction false} AddedComplete(
    rows: seq<Initiative>, ws: int, default: int, before: seq<Project>, mid: seq<Initiative>, p: Project, after: seq<Initiative>)
    requires ReconciledTo(rows, ws, default, before, mid) && |rows| <= |after|
    requires if IndexOf(rows, ws, p.key) < |rows| then |after| == |mid| && after[|rows|..] == mid[|rows|..]
             else |after| == |mid| + 1 && after[..|mid|] == mid && AddedFor(rows, ws, default, p, after[|mid|])
    ensures forall q | q in before + [p] && IndexOf(rows, ws, q.key) == |rows| ::
              exists i | |rows| <= i < |after| :: AddedFor(rows, ws, default, q, after[i])
    ensures forall i | |rows| <= i < |after| :: AddedForSome(rows, ws, default, before + [p], after[i])
  {
    hide AddedFor, IndexOf, RowReconciled;
    forall i | |rows| <= i < |mid| ensures after[i] == mid[i] {
      assert |after| == |mid| ==> after[i] == after[|rows|..][i - |rows|] == mid[|rows|..][i - |rows|];
    }
    forall q | q in before + [p] && IndexOf(rows, ws, q.key) == |rows|
      ensures exists i | |rows| <= i < |after| :: AddedFor(rows, ws, default, q, after[i])
    {
      if q in before {
        var i :| |rows| <= i < |mid| && AddedFor(rows, ws, default, q, mid[i]);
        assert AddedFor(rows, ws, default, q, after[i]);
      }
    }
    forall i | |rows| <= i < |after| ensures AddedForSome(rows, ws, default, before + [p], after[i]) {
      if i < |mid| {
        assert AddedForSome(rows, ws, default, before, mid[i]);
        var q :| q in before && AddedFor(rows, ws, default, q, mid[i]);
        assert q in before + [p];
      } else {
        assert p in before + [p];
      }
    }
  }

  // ---------------------------------------------------------------- a second run

  lemma {:induction false} NoneAffected(rows: seq<Initiative>, ws: int, u: Update, tasks: seq<Task>)
    requires forall i | 0 <= i < |tasks| :: !Selected(rows, ws, u, tasks[i])
    ensures Affected(rows, ws, u, tasks) == 0 && ApplyAll(rows, ws, u, tasks) == tasks
  {
    if tasks != [] { NoneAffected(rows, ws, u, tasks[..|tasks| - 1]); }
  }

  /** Tasks that a run cannot give a work kind. */
  predicate Unfillable(t: Task) { Blank(t.workKind) && Blank(t.scope) }

  function Unfillables(tasks: seq<Task>): nat {
    if tasks == [] then 0
    else Unfillables(tasks[..|tasks| - 1]) + (if Unfillable(tasks[|tasks| - 1]) then 1 else 0)
  }

  lemma {:induction false} AffectedIsUnfillables(rows: seq<Initiative>, ws: int, before: seq<Task>, after: seq<Task>)
    requires |before| == |after|
    requires forall i | 0 <= i < |after| :: Blank(after[i].workKind) <==> Unfillable(before[i])
    ensures Affected(rows, ws, FillWorkKind, after) == Unfillables(before)
  {
    if before != [] {
      AffectedIsUnfillables(rows, ws, before[..|before| - 1], after[..|after| - 1]);
    }
  }

  lemma {:induction false} NoUnfillables(tasks: seq<Task>)
    ensures Unfillables(tasks) == 0 <==> forall t | t in tasks :: !Unfillable(t)
  {
    if tasks != [] {
      NoUnfillables(tasks[..|tasks| - 1]);
      assert forall t | t in tasks :: t in tasks[..|tasks| - 1] || t == tasks[|tasks| - 1];
      assert tasks[|tasks| - 1] in tasks;
      assert forall t | t in tasks[..|tasks| - 1] :: t in tasks;
    }
  }

  lemma {:induction false} FilledNotSelected(rows: seq<Initiative>, ws: int, t: Task, r: Task)
    requires IsFilled(rows, ws, t, r)
    ensures !Selected(rows, ws, BindWorkspace, r) && !Selected(rows, ws, LinkInitiative, r)
    ensures !Selected(rows, ws, BindCompanion, r)
    ensures Selected(rows, ws, FillWorkKind, r) <==> Unfillable(t)
  {
  }

  lemma {:induction false} SecondFill(rows: seq<Initiative>, ws: int, tasks: seq<Task>, n: nat)
    ensures ReportOf(rows, ws, n, Filled(rows, ws, tasks)) == Report(n, 0, 0, 0, Unfillables(tasks))
  {
    var done := Filled(rows, ws, tasks);
    forall i | 0 <= i < |tasks|
      ensures |done| == |tasks| && IsFilled(rows, ws, tasks[i], done[i])
      ensures !Selected(rows, ws, BindWorkspace, done[i]) && !Selected(rows, ws, LinkInitiative, done[i])
      ensures !Selected(rows, ws, BindCompanion, done[i])
      ensures Blank(done[i].workKind) <==> Unfillable(tasks[i])
    {
      EachTaskFilled(rows, ws, tasks, i);
      FilledNotSelected(rows, ws, tasks[i], done[i]);
    }
    assert |done| == |tasks|;
    hide Filled, Selected, Unfillable, IsFilled;
    NoneAffected(rows, ws, BindWorkspace, done);
    NoneAffected(rows, ws, LinkInitiative, done);
    NoneAffected(rows, ws, BindCompanion, done);
    AffectedIsUnfillables(rows, ws, tasks, done);
  }

  /** An immediate second run: the same initiatives, nothing left to bind, and work kinds counted again
    * exactly for the tasks whose kind and scope were both blank. */
  lemma {:induction false} SecondRun(
    rows: seq<Initiative>, ws: int, default: int, projects: seq<Project>, tasks: seq<Task>)
    requires DistinctKeys(projects)
    ensures var after := Reconcile(rows, ws, default, projects);
            var again := Reconcile(after, ws, default, projects);
            var report := ReportOf(again, ws, |projects|, Filled(after, ws, tasks));
            && again == after
            && report == Report(|projects|, 0, 0, 0, Unfillables(tasks))
            && (report.workKind == 0 <==> forall t | t in tasks :: !Unfillable(t))
  {
    ReconcileIdempotent(rows, ws, default, projects);
    SecondFill(Reconcile(rows, ws, default, projects), ws, tasks, |projects|);
    NoUnfillables(tasks);
    hide Reconcile, ReportOf, Filled;
  }
}
