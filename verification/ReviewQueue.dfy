/** The unified review queue: its sources, gathered in order, and what the gathered list holds. */
module ReviewQueue {
  import opened Listings
  import opened Wrappers
  import opened Text
  import QueueRef
  import Decimal

  datatype Result<T> = Ok(value: T) | Err

  // ---------------------------------------------------------------- rows

  datatype GoalStatus = Created | Planned | Blocked | OtherGoalStatus
  datatype IntakeStatus = ReviewRequired | ApprovalRequired | OtherReviewable | NotReviewable

  datatype Goal = Goal(id: int, status: GoalStatus)
  datatype Blocker = Blocker(id: int, goalID: int)

  /** An intake row; `draft` says that its notes hold a draft goal, `readable` that a view of it
    * can be built. */
  datatype IntakeItem = IntakeItem(
    id: int, goalID: Option<int>, draft: bool, status: IntakeStatus, readable: bool)

  /** A row of a table that the other sources read, with the source's own filter applied. */
  datatype Row = Row(id: int, listed: bool, readable: bool)

  datatype Store = Store(
    intake: seq<IntakeItem>, goals: seq<Goal>, openBlockers: seq<Blocker>, tables: map<Kind, seq<Row>>)

  datatype Kind =
    | IntakeGoal | IntakeReview | IntakeApproval | GoalItem | GoalApproval | GoalBlocker
    | Approval | SkillArtifact | ContextPack | MemoryProposal | Recovery | FailedWork

  datatype Entry = Entry(kind: Kind, id: int, goalID: int)

  function KeyOf(e: Entry): (Kind, int) { (e.kind, e.id) }

  function Name(kind: Kind): string {
    match kind
    case IntakeGoal => "intake-goal"
    case IntakeReview => "intake-review"
    case IntakeApproval => "intake-approval"
    case GoalItem => "goal"
    case GoalApproval => "goal-approval"
    case GoalBlocker => "goal-blocker"
    case Approval => "approval"
    case SkillArtifact => "skill-artifact"
    case ContextPack => "context-pack"
    case MemoryProposal => "memory-proposal"
    case Recovery => "recovery"
    case FailedWork => "failed-work"
  }

  function QueueID(e: Entry): string
    requires e.id >= 0
  {
    QueueRef.FormatRef(QueueRef.Ref(Name(e.kind), e.id))
  }

  // ---------------------------------------------------------------- the intake source

  function FindGoal(goals: seq<Goal>, id: int): Option<Goal> {
    if goals == [] then None
    else if goals[|goals| - 1].id == id then Some(goals[|goals| - 1])
    else FindGoal(goals[..|goals| - 1], id)
  }

  predicate IsGoalItem(item: IntakeItem) {
    item.goalID.Some? || (item.draft && item.status.ReviewRequired?)
  }

  predicate IntakeReviewed(item: IntakeItem) { IsGoalItem(item) || !item.status.NotReviewable? }

  predicate IntakeFails(goals: seq<Goal>, item: IntakeItem) {
    IntakeReviewed(item) && (!item.readable || (item.goalID.Some? && FindGoal(goals, item.goalID.value).None?))
  }

  /** What one intake row contributes: a row linked to a blocked goal is left to the goal's blockers. */
  function IntakeShown(goals: seq<Goal>, item: IntakeItem): seq<Entry> {
    if IsGoalItem(item) then
      if item.goalID.None? then [Entry(IntakeGoal, item.id, 0)]
      else if FindGoal(goals, item.goalID.value).Some? && FindGoal(goals, item.goalID.value).value.status.Blocked? then []
      else [Entry(IntakeGoal, item.id, item.goalID.value)]
    else match item.status
      case ApprovalRequired => [Entry(IntakeApproval, item.id, 0)]
      case NotReviewable => []
      case _ => [Entry(IntakeReview, item.id, 0)]
  }

  function IntakeEntries(goals: seq<Goal>, items: seq<IntakeItem>): seq<Entry> {
    if items == [] then []
    else IntakeEntries(goals, items[..|items| - 1]) + IntakeShown(goals, items[|items| - 1])
  }

  function ConvertedBy(item: IntakeItem): set<int> {
    if item.goalID.Some? then {item.goalID.value} else {}
  }

  function Converted(items: seq<IntakeItem>): set<int> {
    if items == [] then {} else Converted(items[..|items| - 1]) + ConvertedBy(items[|items| - 1])
  }

  predicate AnyIntakeFails(goals: seq<Goal>, items: seq<IntakeItem>) {
    exists i | 0 <= i < |items| :: IntakeFails(goals, items[i])
  }

  // ---------------------------------------------------------------- the goal source

  function BlockersOf(blockers: seq<Blocker>, goalID: int): seq<Blocker> {
    if blockers == [] then []
    else
      var last := blockers[|blockers| - 1];
      BlockersOf(blockers[..|blockers| - 1], goalID) + (if last.goalID == goalID then [last] else [])
  }

  function BlockerEntries(blockers: seq<Blocker>, goalID: int): seq<Entry> {
    seq(|blockers|, i requires 0 <= i < |blockers| => Entry(GoalBlocker, blockers[i].id, goalID))
  }

  function GoalShown(blockers: seq<Blocker>, converted: set<int>, goal: Goal): seq<Entry> {
    match goal.status
    case Created => if goal.id in converted then [] else [Entry(GoalItem, goal.id, goal.id)]
    case Planned => [Entry(GoalApproval, goal.id, goal.id)]
    case Blocked => BlockerEntries(BlockersOf(blockers, goal.id), goal.id)
    case OtherGoalStatus => []
  }

  function GoalEntries(goals: seq<Goal>, blockers: seq<Blocker>, converted: set<int>): seq<Entry> {
    if goals == [] then []
    else
      GoalEntries(goals[..|goals| - 1], blockers, converted) + GoalShown(blockers, converted, goals[|goals| - 1])
  }

  // ---------------------------------------------------------------- the other sources

  function RowEntries(kind: Kind, rows: seq<Row>): seq<Entry> {
    if rows == [] then []
    else
      var last := rows[|rows| - 1];
      RowEntries(kind, rows[..|rows| - 1]) + (if last.listed then [Entry(kind, last.id, 0)] else [])
  }

  predicate AnyRowFails(rows: seq<Row>) {
    exists i | 0 <= i < |rows| :: rows[i].listed && !rows[i].readable
  }

  // ---------------------------------------------------------------- gathering

  datatype Source = IntakeSource | GoalSource | TableSource(kind: Kind)

  const DEFAULT_SOURCES: seq<Source> := [
    IntakeSource, GoalSource, TableSource(Approval), TableSource(SkillArtifact), TableSource(ContextPack),
    TableSource(MemoryProposal), TableSource(Recovery), TableSource(FailedWork)]

  function Table(store: Store, kind: Kind): seq<Row> {
    if kind in store.tables then store.tables[kind] else []
  }

  predicate SourceFails(store: Store, source: Source) {
    match source
    case IntakeSource => AnyIntakeFails(store.goals, store.intake)
    case GoalSource => false
    case TableSource(kind) => AnyRowFails(Table(store, kind))
  }

  function SourceEntries(store: Store, source: Source, converted: set<int>): seq<Entry> {
    match source
    case IntakeSource => IntakeEntries(store.goals, store.intake)
    case GoalSource => GoalEntries(store.goals, store.openBlockers, converted)
    case TableSource(kind) => RowEntries(kind, Table(store, kind))
  }

  /** The goals that the sources run so far have recorded as converted. */
  function ConvertedAfter(store: Store, sources: seq<Source>): set<int> {
    if IntakeSource in sources then Converted(store.intake) else {}
  }

  function Gathered(store: Store, sources: seq<Source>): seq<Entry> {
    if sources == [] then []
    else
      var before := sources[..|sources| - 1];
      Gathered(store, before) + SourceEntries(store, sources[|sources| - 1], ConvertedAfter(store, before))
  }

  predicate AnySourceFails(store: Store, sources: seq<Source>) {
    exists i | 0 <= i < |sources| :: SourceFails(store, sources[i])
  }

  class SourceState {
    var convertedGoalIDs: set<int>

    constructor ()
      ensures convertedGoalIDs == {}
    {
      convertedGoalIDs := {};
    }

    method ListIntake(store: Store) returns (r: Result<seq<Entry>>)
      modifies this
      ensures r.Err? <==> AnyIntakeFails(store.goals, store.intake)
      ensures r.Ok? ==> r.value == IntakeEntries(store.goals, store.intake)
      ensures r.Ok? ==> convertedGoalIDs == old(convertedGoalIDs) + Converted(store.intake)
    {
      var items, goals := store.intake, store.goals;
      var entries: seq<Entry> := [];
      for n := 0 to |items|
        invariant !AnyIntakeFails(goals, items[..n])
        invariant entries == IntakeEntries(goals, items[..n])
        invariant convertedGoalIDs == old(convertedGoalIDs) + Converted(items[..n])
      {
        var item := items[n];
        assert items[..n + 1][..n] == items[..n] && items[..n + 1][n] == item;
        if IntakeFails(goals, item) {
          return Err;
        }
        if IsGoalItem(item) && item.goalID.Some? {
          convertedGoalIDs := convertedGoalIDs + {item.goalID.value};
        }
        if IsGoalItem(item) {
          if item.goalID.Some? {
            if !FindGoal(goals, item.goalID.value).value.status.Blocked? {
              entries := entries + [Entry(IntakeGoal, item.id, item.goalID.value)];
            }
          } else {
            entries := entries + [Entry(IntakeGoal, item.id, 0)];
          }
        } else if item.status.ApprovalRequired? {
          entries := entries + [Entry(IntakeApproval, item.id, 0)];
        } else if !item.status.NotReviewable? {
          entries := entries + [Entry(IntakeReview, item.id, 0)];
        }
      }
      assert items[..|items|] == items;
      return Ok(entries);
    }

    method ListGoals(store: Store) returns (entries: seq<Entry>)
      ensures entries == GoalEntries(store.goals, store.openBlockers, convertedGoalIDs)
    {
      var blockersByGoal := GroupBlockers(store.openBlockers);
      var goals := store.goals;
      entries := [];
      for n := 0 to |goals|
        invariant entries == GoalEntries(goals[..n], store.openBlockers, convertedGoalIDs)
      {
        var goal := goals[n];
        assert goals[..n + 1][..n] == goals[..n] && goals[..n + 1][n] == goal;
        match goal.status {
          case Created =>
            if goal.id !in convertedGoalIDs {
              entries := entries + [Entry(GoalItem, goal.id, goal.id)];
            }
          case Planned =>
            entries := entries + [Entry(GoalApproval, goal.id, goal.id)];
          case Blocked =>
            var mine := if goal.id in blockersByGoal then blockersByGoal[goal.id] else [];
            entries := entries + BlockerEntries(mine, goal.id);
          case OtherGoalStatus =>
        }
      }
      assert goals[..|goals|] == goals;
    }

    method ListSource(store: Store, source: Source) returns (r: Result<seq<Entry>>)
      modifies this
      ensures r.Err? <==> SourceFails(store, source)
      ensures r.Ok? ==> r.value == SourceEntries(store, source, old(convertedGoalIDs))
      ensures r.Ok? ==> convertedGoalIDs == old(convertedGoalIDs) + ConvertedAfter(store, [source])
    {
      match source {
        case IntakeSource =>
          r := ListIntake(store);
        case GoalSource =>
          var entries := ListGoals(store);
          r := Ok(entries);
        case TableSource(kind) =>
          r := ListRows(kind, Table(store, kind));
      }
    }

    /** The projection's items: every source in turn, or the first failure.  The queue runs it on
      * `DEFAULT_SOURCES`. */
    method ReadProjection(store: Store, sources: seq<Source>) returns (r: Result<seq<Entry>>)
      requires convertedGoalIDs == {}
      modifies this
      ensures r.Err? <==> AnySourceFails(store, sources)
      ensures r.Ok? ==> r.value == Gathered(store, sources)
    {
      hide SourceFails, SourceEntries, Converted;
      var entries: seq<Entry> := [];
      for n := 0 to |sources|
        invariant !AnySourceFails(store, sources[..n])
        invariant entries == Gathered(store, sources[..n])
        invariant convertedGoalIDs == ConvertedAfter(store, sources[..n])
      {
        assert sources[..n + 1][..n] == sources[..n] && sources[..n + 1][n] == sources[n];
        var part := ListSource(store, sources[n]);
        if part.Err? {
          return Err;
        }
        entries := entries + part.value;
      }
      assert sources[..|sources|] == sources;
      return Ok(entries);
    }
  }

  lemma {:induction false} BlockersSnoc(blockers: seq<Blocker>, b: Blocker, g: int)
    ensures BlockersOf(blockers + [b], g) == BlockersOf(blockers, g) + (if b.goalID == g then [b] else [])
  {
    assert (blockers + [b])[..|blockers|] == blockers;
  }

  method GroupBlockers(blockers: seq<Blocker>) returns (byGoal: map<int, seq<Blocker>>)
    ensures forall g :: (if g in byGoal then byGoal[g] else []) == BlockersOf(blockers, g)
  {
    byGoal := map[];
    for n := 0 to |blockers|
      invariant forall g :: (if g in byGoal then byGoal[g] else []) == BlockersOf(blockers[..n], g)
    {
      var b := blockers[n];
      assert blockers[..n + 1] == blockers[..n] + [b];
      forall g ensures BlockersOf(blockers[..n + 1], g)
                    == BlockersOf(blockers[..n], g) + (if b.goalID == g then [b] else [])
      {
        BlockersSnoc(blockers[..n], b, g);
      }
      hide BlockersOf;
      byGoal := byGoal[b.goalID := (if b.goalID in byGoal then byGoal[b.goalID] else []) + [b]];
    }
    assert blockers[..|blockers|] == blockers;
  }

  method ListRows(kind: Kind, rows: seq<Row>) returns (r: Result<seq<Entry>>)
    ensures r.Err? <==> AnyRowFails(rows)
    ensures r.Ok? ==> r.value == RowEntries(kind, rows)
  {
    var entries: seq<Entry> := [];
    for n := 0 to |rows|
      invariant !AnyRowFails(rows[..n])
      invariant entries == RowEntries(kind, rows[..n])
    {
      var row := rows[n];
      assert rows[..n + 1][..n] == rows[..n] && rows[..n + 1][n] == row;
      if row.listed {
        if !row.readable {
          return Err;
        }
        entries := entries + [Entry(kind, row.id, 0)];
      }
    }
    assert rows[..|rows|] == rows;
    return Ok(entries);
  }

  // ---------------------------------------------------------------- how often a goal is represented

  /** Entries that carry a goal's id. */
  function GoalCount(es: seq<Entry>, g: int): nat {
    if es == [] then 0
    else GoalCount(es[..|es| - 1], g) + (if es[|es| - 1].goalID == g then 1 else 0)
  }

  /** Intake rows linked to a goal. */
  function Links(items: seq<IntakeItem>, g: int): nat {
    if items == [] then 0
    else Links(items[..|items| - 1], g) + (if items[|items| - 1].goalID == Some(g) then 1 else 0)
  }

  lemma {:induction false} GoalCountAppend(a: seq<Entry>, b: seq<Entry>, g: int)
    ensures GoalCount(a + b, g) == GoalCount(a, g) + GoalCount(b, g)
  {
    if b == [] {
      assert a + b == a;
    } else {
      var c := b[..|b| - 1];
      assert (a + b)[..|a + b| - 1] == a + c;
      GoalCountAppend(a, c, g);
    }
  }

  lemma {:induction false} GoalCountOther(es: seq<Entry>, g: int)
    requires forall i | 0 <= i < |es| :: es[i].goalID != g
    ensures GoalCount(es, g) == 0
  {
    if es != [] { GoalCountOther(es[..|es| - 1], g); }
  }

  lemma {:induction false} GoalCountAll(es: seq<Entry>, g: int)
    requires forall i | 0 <= i < |es| :: es[i].goalID == g
    ensures GoalCount(es, g) == |es|
  {
    if es != [] { GoalCountAll(es[..|es| - 1], g); }
  }

  predicate DistinctGoals(goals: seq<Goal>) {
    forall i, j | 0 <= i < j < |goals| :: goals[i].id != goals[j].id
  }

  lemma {:induction false} IntakeCount(goals: seq<Goal>, items: seq<IntakeItem>, goal: Goal)
    requires FindGoal(goals, goal.id) == Some(goal) && goal.id != 0
    ensures GoalCount(IntakeEntries(goals, items), goal.id)
         == if goal.status.Blocked? then 0 else Links(items, goal.id)
    ensures goal.id in Converted(items) <==> Links(items, goal.id) > 0
  {
    if items != [] {
      var before, last := items[..|items| - 1], items[|items| - 1];
      IntakeCount(goals, before, goal);
      GoalCountAppend(IntakeEntries(goals, before), IntakeShown(goals, last), goal.id);
      ShownCount(goals, last, goal);
    }
  }

  lemma {:induction false} ShownCount(goals: seq<Goal>, item: IntakeItem, goal: Goal)
    requires FindGoal(goals, goal.id) == Some(goal) && goal.id != 0
    ensures GoalCount(IntakeShown(goals, item), goal.id)
         == if goal.status.Blocked? || item.goalID != Some(goal.id) then 0 else 1
  {
    var shown := IntakeShown(goals, item);
    if item.goalID == Some(goal.id) {
      GoalCountAll(shown, goal.id);
    } else {
      GoalCountOther(shown, goal.id);
    }
  }

  /** How many entries the goal source makes of one goal. */
  function GoalShare(blockers: seq<Blocker>, converted: set<int>, goal: Goal): nat {
    match goal.status
    case Created => if goal.id in converted then 0 else 1
    case Planned => 1
    case Blocked => |BlockersOf(blockers, goal.id)|
    case OtherGoalStatus => 0
  }

  lemma {:induction false} GoalShownCount(blockers: seq<Blocker>, converted: set<int>, goal: Goal, g: int)
    ensures GoalCount(GoalShown(blockers, converted, goal), g)
         == if g == goal.id then GoalShare(blockers, converted, goal) else 0
  {
    var shown := GoalShown(blockers, converted, goal);
    if g == goal.id {
      GoalCountAll(shown, g);
    } else {
      GoalCountOther(shown, g);
    }
  }

  lemma {:induction false} GoalEntriesCount(goals: seq<Goal>, blockers: seq<Blocker>, converted: set<int>, g: int)
    requires DistinctGoals(goals)
    ensures GoalCount(GoalEntries(goals, blockers, converted), g)
         == match FindGoal(goals, g)
            case None => 0
            case Some(goal) => GoalShare(blockers, converted, goal)
  {
    if goals != [] {
      hide GoalShown, GoalShare;
      var before, last := goals[..|goals| - 1], goals[|goals| - 1];
      GoalEntriesCount(before, blockers, converted, g);
      GoalCountAppend(GoalEntries(before, blockers, converted), GoalShown(blockers, converted, last), g);
      GoalShownCount(blockers, converted, last, g);
      if last.id == g {
        NotFound(before, g);
      }
    }
  }

  lemma {:induction false} NotFound(goals: seq<Goal>, g: int)
    requires forall i | 0 <= i < |goals| :: goals[i].id != g
    ensures FindGoal(goals, g) == None
  {
    if goals != [] { NotFound(goals[..|goals| - 1], g); }
  }

  lemma {:induction false} RowEntriesCount(kind: Kind, rows: seq<Row>, g: int)
    requires g != 0
    ensures GoalCount(RowEntries(kind, rows), g) == 0
  {
    if rows != [] {
      var before, last := rows[..|rows| - 1], rows[|rows| - 1];
      RowEntriesCount(kind, before, g);
      var shown := if last.listed then [Entry(kind, last.id, 0)] else [];
      GoalCountAppend(RowEntries(kind, before), shown, g);
      GoalCountOther(shown, g);
    }
  }

  /** How many entries one source makes for a goal, given what ran before it. */
  function SourceShare(store: Store, goal: Goal, source: Source, converted: set<int>): nat {
    match source
    case IntakeSource => if goal.status.Blocked? then 0 else Links(store.intake, goal.id)
    case GoalSource => GoalShare(store.openBlockers, converted, goal)
    case TableSource(_) => 0
  }

  predicate Stored(store: Store, goal: Goal) {
    DistinctGoals(store.goals) && goal.id > 0 && FindGoal(store.goals, goal.id) == Some(goal)
  }

  lemma {:induction false} SourceCount(store: Store, goal: Goal, source: Source, converted: set<int>)
    requires Stored(store, goal)
    ensures GoalCount(SourceEntries(store, source, converted), goal.id) == SourceShare(store, goal, source, converted)
  {
    match source
    case IntakeSource => IntakeCount(store.goals, store.intake, goal);
    case GoalSource => GoalEntriesCount(store.goals, store.openBlockers, converted, goal.id);
    case TableSource(kind) => RowEntriesCount(kind, Table(store, kind), goal.id);
  }

  function GatheredShare(store: Store, goal: Goal, sources: seq<Source>): nat {
    if sources == [] then 0
    else
      var before := sources[..|sources| - 1];
      GatheredShare(store, goal, before)
      + SourceShare(store, goal, sources[|sources| - 1], ConvertedAfter(store, before))
  }

  lemma {:induction false} GatheredCount(store: Store, goal: Goal, sources: seq<Source>)
    requires Stored(store, goal)
    ensures GoalCount(Gathered(store, sources), goal.id) == GatheredShare(store, goal, sources)
  {
    if sources != [] {
      hide SourceEntries, SourceShare, Stored;
      var before, last := sources[..|sources| - 1], sources[|sources| - 1];
      var converted := ConvertedAfter(store, before);
      GatheredCount(store, goal, before);
      GoalCountAppend(Gathered(store, before), SourceEntries(store, last, converted), goal.id);
      SourceCount(store, goal, last, converted);
    }
  }

  /** Table sources add nothing for a goal. */
  lemma {:induction false} TablesAddNothing(store: Store, goal: Goal, sources: seq<Source>, tables: seq<Source>)
    requires forall i | 0 <= i < |tables| :: tables[i].TableSource?
    ensures GatheredShare(store, goal, sources + tables) == GatheredShare(store, goal, sources)
  {
    if tables == [] {
      assert sources + tables == sources;
    } else {
      var fewer := tables[..|tables| - 1];
      assert (sources + tables)[..|sources + tables| - 1] == sources + fewer;
      TablesAddNothing(store, goal, sources, fewer);
    }
  }

  const TABLE_SOURCES: seq<Source> := DEFAULT_SOURCES[2..]

  /** How often the whole queue should hold a goal.  A goal awaiting planning is represented once, or once
    * per linked intake row; a goal awaiting approval is represented once more than it has links. */
  function Representation(store: Store, goal: Goal): nat {
    var links := Links(store.intake, goal.id);
    match goal.status
    case Created => if links == 0 then 1 else links
    case Planned => links + 1
    case Blocked => |BlockersOf(store.openBlockers, goal.id)|
    case OtherGoalStatus => links
  }

  lemma {:induction false} PairShare(store: Store, goal: Goal, first: Source, second: Source)
    ensures GatheredShare(store, goal, [first, second])
         == SourceShare(store, goal, first, {}) + SourceShare(store, goal, second, ConvertedAfter(store, [first]))
  {
    var two := [first, second];
    assert two[..1] == [first] && [first][..0] == [];
    assert GatheredShare(store, goal, [first]) == SourceShare(store, goal, first, {});
  }

  /** The whole queue, counted goal by goal. */
  lemma {:induction false} GoalRepresentation(store: Store, goal: Goal)
    requires Stored(store, goal)
    ensures GoalCount(Gathered(store, DEFAULT_SOURCES), goal.id) == Representation(store, goal)
  {
    GatheredCount(store, goal, DEFAULT_SOURCES);
    assert DEFAULT_SOURCES == [IntakeSource, GoalSource] + TABLE_SOURCES;
    hide Gathered, GatheredShare, GoalCount;
    TablesAddNothing(store, goal, [IntakeSource, GoalSource], TABLE_SOURCES);
    PairShare(store, goal, IntakeSource, GoalSource);
    IntakeCount(store.goals, store.intake, goal);
  }

  /** A created goal is in the queue exactly once if and only if at most one intake row links to it. */
  lemma {:induction false} CreatedGoalOnce(store: Store, goal: Goal)
    requires Stored(store, goal) && goal.status.Created?
    ensures GoalCount(Gathered(store, DEFAULT_SOURCES), goal.id) == 1 <==> Links(store.intake, goal.id) <= 1
  {
    GoalRepresentation(store, goal);
  }

  /** A planned goal is in the queue exactly once if and only if no intake row links to it. */
  lemma {:induction false} PlannedGoalOnce(store: Store, goal: Goal)
    requires Stored(store, goal) && goal.status.Planned?
    ensures GoalCount(Gathered(store, DEFAULT_SOURCES), goal.id) == 1 <==> Links(store.intake, goal.id) == 0
  {
    GoalRepresentation(store, goal);
  }

  /** One planned goal, made from one intake row: the queue holds both its draft and its approval. */
  lemma {:induction false} PlannedGoalListedTwice()
    ensures var store := Store([IntakeItem(3, Some(7), true, NotReviewable, true)], [Goal(7, Planned)], [], map[]);
            Gathered(store, DEFAULT_SOURCES) == [Entry(IntakeGoal, 3, 7), Entry(GoalApproval, 7, 7)]
  {
    var store := Store([IntakeItem(3, Some(7), true, NotReviewable, true)], [Goal(7, Planned)], [], map[]);
    assert DEFAULT_SOURCES == [IntakeSource, GoalSource] + TABLE_SOURCES;
    GatheredPair(store, IntakeSource, GoalSource);
    hide Gathered;
    EmptyTables(store, [IntakeSource, GoalSource], TABLE_SOURCES);
    assert IntakeEntries(store.goals, store.intake) == [] + [Entry(IntakeGoal, 3, 7)];
    assert GoalEntries(store.goals, [], ConvertedAfter(store, [IntakeSource])) == [] + [Entry(GoalApproval, 7, 7)];
  }

  lemma {:induction false} GatheredPair(store: Store, first: Source, second: Source)
    ensures Gathered(store, [first, second])
         == SourceEntries(store, first, {}) + SourceEntries(store, second, ConvertedAfter(store, [first]))
  {
    var two := [first, second];
    hide SourceEntries;
    assert two[..1] == [first] && [first][..0] == [];
    assert Gathered(store, [first]) == [] + SourceEntries(store, first, {});
  }

  lemma {:induction false} EmptyTables(store: Store, sources: seq<Source>, tables: seq<Source>)
    requires store.tables == map[] && forall i | 0 <= i < |tables| :: tables[i].TableSource?
    ensures Gathered(store, sources + tables) == Gathered(store, sources)
  {
    if tables == [] {
      assert sources + tables == sources;
    } else {
      var fewer := tables[..|tables| - 1];
      assert (sources + tables)[..|sources + tables| - 1] == sources + fewer;
      EmptyTables(store, sources, fewer);
    }
  }

  /** The order of the first two sources matters: with goals first, a converted created goal would be
    * listed once more than it has links. */
  lemma {:induction false} GoalsFirstRepeats(store: Store, goal: Goal)
    requires Stored(store, goal) && goal.status.Created?
    ensures GoalCount(Gathered(store, [GoalSource, IntakeSource] + TABLE_SOURCES), goal.id)
         == Links(store.intake, goal.id) + 1
  {
    var two := [GoalSource, IntakeSource];
    GatheredCount(store, goal, two + TABLE_SOURCES);
    TablesAddNothing(store, goal, two, TABLE_SOURCES);
    PairShare(store, goal, GoalSource, IntakeSource);
  }

  // ---------------------------------------------------------------- distinct ids

  /** Primary keys: within each table, ids are distinct. */
  predicate Keyed(store: Store) {
    && DistinctIntake(store.intake)
    && DistinctGoals(store.goals)
    && DistinctBlockers(store.openBlockers)
    && forall kind | kind in store.tables :: DistinctRows(store.tables[kind])
  }

  predicate DistinctIntake(items: seq<IntakeItem>) {
    forall i, j | 0 <= i < j < |items| :: items[i].id != items[j].id
  }

  predicate DistinctBlockers(blockers: seq<Blocker>) {
    forall i, j | 0 <= i < j < |blockers| :: blockers[i].id != blockers[j].id
  }

  predicate DistinctRows(rows: seq<Row>) {
    forall i, j | 0 <= i < j < |rows| :: rows[i].id != rows[j].id
  }

  predicate IsIntakeKind(kind: Kind) { kind.IntakeGoal? || kind.IntakeReview? || kind.IntakeApproval? }
  predicate IsGoalKind(kind: Kind) { kind.GoalItem? || kind.GoalApproval? || kind.GoalBlocker? }

  /** Every intake entry comes from an intake row with its id. */
  lemma {:induction false} IntakeOrigin(goals: seq<Goal>, items: seq<IntakeItem>)
    ensures forall e | e in IntakeEntries(goals, items) :: IsIntakeKind(e.kind) && exists x | x in items :: x.id == e.id
  {
    if items != [] {
      var before, last := items[..|items| - 1], items[|items| - 1];
      IntakeOrigin(goals, before);
      forall e | e in IntakeEntries(goals, items)
        ensures IsIntakeKind(e.kind) && exists x | x in items :: x.id == e.id
      {
        if e in IntakeEntries(goals, before) {
          var x :| x in before && x.id == e.id;
          assert x in items;
        } else {
          assert e in IntakeShown(goals, last) && last in items;
        }
      }
    }
  }

  lemma {:induction false} IntakeUnique(goals: seq<Goal>, items: seq<IntakeItem>)
    requires DistinctIntake(items)
    ensures Unique(IntakeEntries(goals, items), KeyOf)
  {
    if items != [] {
      var before, last := items[..|items| - 1], items[|items| - 1];
      IntakeUnique(goals, before);
      IntakeOrigin(goals, before);
      var a, b := IntakeEntries(goals, before), IntakeShown(goals, last);
      forall i, j | 0 <= i < |a| && 0 <= j < |b| ensures KeyOf(a[i]) != KeyOf(b[j]) {
        assert a[i] in a;
      }
      UniqueAppend(a, b, KeyOf);
    }
  }

  lemma {:induction false} RowOrigin(kind: Kind, rows: seq<Row>)
    ensures forall e | e in RowEntries(kind, rows) :: e.kind == kind && exists x | x in rows :: x.id == e.id
  {
    if rows != [] {
      var before, last := rows[..|rows| - 1], rows[|rows| - 1];
      RowOrigin(kind, before);
      forall e | e in RowEntries(kind, rows) ensures e.kind == kind && exists x | x in rows :: x.id == e.id {
        if e in RowEntries(kind, before) {
          var x :| x in before && x.id == e.id;
          assert x in rows;
        } else {
          assert last in rows;
        }
      }
    }
  }

  lemma {:induction false} RowUnique(kind: Kind, rows: seq<Row>)
    requires DistinctRows(rows)
    ensures Unique(RowEntries(kind, rows), KeyOf)
  {
    if rows != [] {
      var before, last := rows[..|rows| - 1], rows[|rows| - 1];
      RowUnique(kind, before);
      RowOrigin(kind, before);
      var a, b := RowEntries(kind, before), if last.listed then [Entry(kind, last.id, 0)] else [];
      forall i, j | 0 <= i < |a| && 0 <= j < |b| ensures KeyOf(a[i]) != KeyOf(b[j]) {
        assert a[i] in a;
      }
      UniqueAppend(a, b, KeyOf);
    }
  }

  lemma {:induction false} BlockersOfSound(blockers: seq<Blocker>, goalID: int)
    requires DistinctBlockers(blockers)
    ensures forall b | b in BlockersOf(blockers, goalID) :: b in blockers && b.goalID == goalID
    ensures DistinctBlockers(BlockersOf(blockers, goalID))
  {
    if blockers != [] {
      BlockersOfSound(blockers[..|blockers| - 1], goalID);
    }
  }

  /** A goal entry names the goal itself, or an open blocker of that goal. */
  predicate GoalEntryOf(blockers: seq<Blocker>, goal: Goal, e: Entry) {
    && IsGoalKind(e.kind)
    && e.goalID == goal.id
    && if e.kind.GoalBlocker? then Blocker(e.id, goal.id) in blockers else e.id == goal.id
  }

  lemma {:induction false} GoalShownSound(blockers: seq<Blocker>, converted: set<int>, goal: Goal)
    requires DistinctBlockers(blockers)
    ensures Unique(GoalShown(blockers, converted, goal), KeyOf)
    ensures forall e | e in GoalShown(blockers, converted, goal) :: GoalEntryOf(blockers, goal, e)
  {
    BlockersOfSound(blockers, goal.id);
    if goal.status.Blocked? {
      var mine := BlockersOf(blockers, goal.id);
      forall e | e in BlockerEntries(mine, goal.id) ensures GoalEntryOf(blockers, goal, e) {
        var i :| 0 <= i < |mine| && e == BlockerEntries(mine, goal.id)[i];
        assert mine[i] in mine;
      }
    }
  }

  lemma {:induction false} GoalUnique(goals: seq<Goal>, blockers: seq<Blocker>, converted: set<int>)
    requires DistinctGoals(goals) && DistinctBlockers(blockers)
    ensures Unique(GoalEntries(goals, blockers, converted), KeyOf)
    ensures forall e | e in GoalEntries(goals, blockers, converted) :: exists g | g in goals :: GoalEntryOf(blockers, g, e)
  {
    if goals != [] {
      hide GoalShown;
      var before, last := goals[..|goals| - 1], goals[|goals| - 1];
      GoalUnique(before, blockers, converted);
      GoalShownSound(blockers, converted, last);
      var a, b := GoalEntries(before, blockers, converted), GoalShown(blockers, converted, last);
      forall i, j | 0 <= i < |a| && 0 <= j < |b| ensures KeyOf(a[i]) != KeyOf(b[j]) {
        assert a[i] in a && b[j] in b;
        var g :| g in before && GoalEntryOf(blockers, g, a[i]);
        SameKeySameGoal(blockers, g, last, a[i], b[j]);
      }
      UniqueAppend(a, b, KeyOf);
      forall e | e in a + b ensures exists g | g in goals :: GoalEntryOf(blockers, g, e) {
        if e in a {
          var g :| g in before && GoalEntryOf(blockers, g, e);
          assert g in goals;
        } else {
          assert last in goals;
        }
      }
    }
  }

  lemma {:induction false} SameKeySameGoal(blockers: seq<Blocker>, g: Goal, h: Goal, d: Entry, e: Entry)
    requires DistinctBlockers(blockers)
    requires GoalEntryOf(blockers, g, d) && GoalEntryOf(blockers, h, e)
    ensures KeyOf(d) == KeyOf(e) ==> g.id == h.id
  {
    if KeyOf(d) == KeyOf(e) && d.kind.GoalBlocker? {
      var i :| 0 <= i < |blockers| && blockers[i] == Blocker(d.id, g.id);
      var j :| 0 <= j < |blockers| && blockers[j] == Blocker(d.id, h.id);
    }
  }

  predicate IsTableKind(kind: Kind) { !IsIntakeKind(kind) && !IsGoalKind(kind) }

  predicate FromSource(source: Source, kind: Kind) {
    match source
    case IntakeSource => IsIntakeKind(kind)
    case GoalSource => IsGoalKind(kind)
    case TableSource(k) => kind == k
  }

  /** Every source listed at most once, and table sources only for table kinds. */
  predicate DistinctSources(sources: seq<Source>) {
    && (forall i, j | 0 <= i < j < |sources| :: sources[i] != sources[j])
    && forall i | 0 <= i < |sources| && sources[i].TableSource? :: IsTableKind(sources[i].kind)
  }

  lemma {:induction false} SourceUnique(store: Store, source: Source, converted: set<int>)
    requires Keyed(store)
    ensures Unique(SourceEntries(store, source, converted), KeyOf)
    ensures forall e | e in SourceEntries(store, source, converted) :: FromSource(source, e.kind)
  {
    match source
    case IntakeSource =>
      IntakeUnique(store.goals, store.intake);
      IntakeOrigin(store.goals, store.intake);
    case GoalSource =>
      GoalUnique(store.goals, store.openBlockers, converted);
    case TableSource(kind) =>
      RowUnique(kind, Table(store, kind));
      RowOrigin(kind, Table(store, kind));
  }

  lemma {:induction false} GatheredUnique(store: Store, sources: seq<Source>)
    requires Keyed(store) && DistinctSources(sources)
    ensures Unique(Gathered(store, sources), KeyOf)
    ensures forall e | e in Gathered(store, sources) :: exists s | s in sources :: FromSource(s, e.kind)
  {
    if sources != [] {
      hide SourceEntries, Keyed;
      var before, last := sources[..|sources| - 1], sources[|sources| - 1];
      var converted := ConvertedAfter(store, before);
      GatheredUnique(store, before);
      SourceUnique(store, last, converted);
      var a, b := Gathered(store, before), SourceEntries(store, last, converted);
      forall i, j | 0 <= i < |a| && 0 <= j < |b| ensures KeyOf(a[i]) != KeyOf(b[j]) {
        assert a[i] in a && b[j] in b;
        var s :| s in before && FromSource(s, a[i].kind);
      }
      UniqueAppend(a, b, KeyOf);
      forall e | e in a + b ensures exists s | s in sources :: FromSource(s, e.kind) {
        if e in a {
          var s :| s in before && FromSource(s, e.kind);
          assert s in sources;
        } else {
          assert last in sources;
        }
      }
    }
  }

  // ---------------------------------------------------------------- what the queue holds

  predicate GoalIs(store: Store, id: int, status: GoalStatus) { Goal(id, status) in store.goals }

  predicate LinkedToGoal(store: Store, id: int) { exists x | x in store.intake :: x.goalID == Some(id) }

  /** The row that puts an entry on the queue, kind by kind. */
  predicate Belongs(store: Store, e: Entry) {
    match e.kind
    case IntakeGoal =>
      exists x | x in store.intake :: x.id == e.id &&
        (if x.goalID.Some? then e.goalID == x.goalID.value && !GoalIs(store, e.goalID, Blocked)
         else e.goalID == 0 && x.draft && x.status == ReviewRequired)
    case IntakeReview =>
      e.goalID == 0 && exists x | x in store.intake ::
        x.id == e.id && x.goalID.None? && (x.status == OtherReviewable || (x.status == ReviewRequired && !x.draft))
    case IntakeApproval =>
      e.goalID == 0 && exists x | x in store.intake :: x.id == e.id && x.goalID.None? && x.status == ApprovalRequired
    case GoalItem => e.goalID == e.id && GoalIs(store, e.id, Created) && !LinkedToGoal(store, e.id)
    case GoalApproval => e.goalID == e.id && GoalIs(store, e.id, Planned)
    case GoalBlocker => Blocker(e.id, e.goalID) in store.openBlockers && GoalIs(store, e.goalID, Blocked)
    case _ => e.goalID == 0 && e.kind in store.tables && exists x | x in store.tables[e.kind] :: x.id == e.id && x.listed
  }

  lemma {:induction false} FindGoalExact(goals: seq<Goal>, id: int, status: GoalStatus)
    requires DistinctGoals(goals)
    ensures FindGoal(goals, id) == Some(Goal(id, status)) <==> Goal(id, status) in goals
  {
    if goals != [] {
      var before, last := goals[..|goals| - 1], goals[|goals| - 1];
      assert goals == before + [last];
      FindGoalExact(before, id, status);
    }
  }

  predicate IntakeBelongs(goals: seq<Goal>, x: IntakeItem, e: Entry) {
    && x.id == e.id
    && match e.kind
       case IntakeGoal =>
         if x.goalID.Some? then e.goalID == x.goalID.value && Goal(e.goalID, Blocked) !in goals
         else e.goalID == 0 && x.draft && x.status == ReviewRequired
       case IntakeReview =>
         e.goalID == 0 && x.goalID.None? && (x.status == OtherReviewable || (x.status == ReviewRequired && !x.draft))
       case IntakeApproval => e.goalID == 0 && x.goalID.None? && x.status == ApprovalRequired
       case _ => false
  }

  lemma {:induction false} ShownExact(goals: seq<Goal>, x: IntakeItem, e: Entry)
    requires DistinctGoals(goals)
    ensures e in IntakeShown(goals, x) <==> IntakeBelongs(goals, x, e)
  {
    if x.goalID.Some? {
      FindGoalExact(goals, x.goalID.value, Blocked);
      FoundHasID(goals, x.goalID.value);
    }
    hide FindGoal;
  }

  lemma {:induction false} FoundHasID(goals: seq<Goal>, id: int)
    ensures FindGoal(goals, id).Some? ==> FindGoal(goals, id).value.id == id
  {
    if goals != [] { FoundHasID(goals[..|goals| - 1], id); }
  }

  lemma {:induction false} IntakeExact(goals: seq<Goal>, items: seq<IntakeItem>, e: Entry)
    requires DistinctGoals(goals)
    ensures e in IntakeEntries(goals, items) <==> exists x | x in items :: IntakeBelongs(goals, x, e)
  {
    if items != [] {
      var before, last := items[..|items| - 1], items[|items| - 1];
      assert items == before + [last];
      IntakeExact(goals, before, e);
      ShownExact(goals, last, e);
      hide IntakeShown, IntakeBelongs;
    }
  }

  lemma {:induction false} ConvertedExact(items: seq<IntakeItem>, id: int)
    ensures id in Converted(items) <==> exists x | x in items :: x.goalID == Some(id)
  {
    if items != [] {
      var before, last := items[..|items| - 1], items[|items| - 1];
      assert items == before + [last];
      ConvertedExact(before, id);
    }
  }

  lemma {:induction false} BlockersExact(blockers: seq<Blocker>, goalID: int, b: Blocker)
    ensures b in BlockersOf(blockers, goalID) <==> b in blockers && b.goalID == goalID
  {
    if blockers != [] {
      var before, last := blockers[..|blockers| - 1], blockers[|blockers| - 1];
      assert blockers == before + [last];
      BlockersExact(before, goalID, b);
    }
  }

  predicate GoalBelongs(blockers: seq<Blocker>, converted: set<int>, g: Goal, e: Entry) {
    && e.goalID == g.id
    && match e.kind
       case GoalItem => e.id == g.id && g.status == Created && g.id !in converted
       case GoalApproval => e.id == g.id && g.status == Planned
       case GoalBlocker => g.status == Blocked && Blocker(e.id, g.id) in blockers
       case _ => false
  }

  lemma {:induction false} GoalShownExact(blockers: seq<Blocker>, converted: set<int>, g: Goal, e: Entry)
    ensures e in GoalShown(blockers, converted, g) <==> GoalBelongs(blockers, converted, g, e)
  {
    if g.status == Blocked {
      var mine := BlockersOf(blockers, g.id);
      var es := BlockerEntries(mine, g.id);
      BlockersExact(blockers, g.id, Blocker(e.id, g.id));
      if Blocker(e.id, g.id) in mine && e.kind == GoalBlocker && e.goalID == g.id {
        var i :| 0 <= i < |mine| && mine[i] == Blocker(e.id, g.id);
        assert es[i] == e;
      }
      if i :| 0 <= i < |es| && es[i] == e {
        BlockersExact(blockers, g.id, mine[i]);
        assert mine[i] in mine;
      }
    }
  }

  lemma {:induction false} GoalsExact(goals: seq<Goal>, blockers: seq<Blocker>, converted: set<int>, e: Entry)
    ensures e in GoalEntries(goals, blockers, converted) <==> exists g | g in goals :: GoalBelongs(blockers, converted, g, e)
  {
    if goals != [] {
      var before, last := goals[..|goals| - 1], goals[|goals| - 1];
      assert goals == before + [last];
      GoalsExact(before, blockers, converted, e);
      GoalShownExact(blockers, converted, last, e);
      hide GoalShown, GoalBelongs;
    }
  }

  lemma {:induction false} RowsExact(kind: Kind, rows: seq<Row>, e: Entry)
    ensures e in RowEntries(kind, rows) <==> e.kind == kind && e.goalID == 0 && exists x | x in rows :: x.id == e.id && x.listed
  {
    if rows != [] {
      var before, last := rows[..|rows| - 1], rows[|rows| - 1];
      assert rows == before + [last];
      RowsExact(kind, before, e);
    }
  }

  /** What the source at a position adds, with what the sources before it have recorded. */
  function Part(store: Store, sources: seq<Source>, i: nat): seq<Entry>
    requires i < |sources|
  {
    SourceEntries(store, sources[i], ConvertedAfter(store, sources[..i]))
  }

  lemma {:induction false} PartStays(store: Store, sources: seq<Source>, n: nat)
    requires n <= |sources|
    ensures forall i | 0 <= i < n :: Part(store, sources[..n], i) == Part(store, sources, i)
  {
    hide SourceEntries, ConvertedAfter;
    forall i | 0 <= i < n ensures Part(store, sources[..n], i) == Part(store, sources, i) {
      assert sources[..n][..i] == sources[..i];
    }
  }

  lemma {:induction false} GatheredSnoc(store: Store, sources: seq<Source>)
    requires sources != []
    ensures var n := |sources| - 1; Gathered(store, sources) == Gathered(store, sources[..n]) + Part(store, sources, n)
  {
  }

  lemma {:induction false} GatheredExact(store: Store, sources: seq<Source>, e: Entry)
    ensures e in Gathered(store, sources) <==> exists i | 0 <= i < |sources| :: e in Part(store, sources, i)
  {
    if sources != [] {
      var n := |sources| - 1;
      GatheredSnoc(store, sources);
      PartStays(store, sources, n);
      GatheredExact(store, sources[..n], e);
      hide Part, Gathered;
      if i :| 0 <= i < n && e in Part(store, sources[..n], i) {
        assert e in Part(store, sources, i);
      }
    }
  }

  lemma {:induction false} GoalSourceExact(store: Store, e: Entry)
    ensures e in GoalEntries(store.goals, store.openBlockers, Converted(store.intake)) <==> IsGoalKind(e.kind) && Belongs(store, e)
  {
    GoalsExact(store.goals, store.openBlockers, Converted(store.intake), e);
    ConvertedExact(store.intake, e.id);
    hide Converted, GoalEntries;
    if Belongs(store, e) && IsGoalKind(e.kind) {
      var st := match e.kind case GoalItem => Created case GoalApproval => Planned case _ => Blocked;
      assert GoalBelongs(store.openBlockers, Converted(store.intake), Goal(e.goalID, st), e);
    }
  }

  lemma {:induction false} SourceExact(store: Store, i: nat, e: Entry)
    requires Keyed(store) && i < |DEFAULT_SOURCES|
    ensures e in Part(store, DEFAULT_SOURCES, i) <==> FromSource(DEFAULT_SOURCES[i], e.kind) && Belongs(store, e)
  {
    match DEFAULT_SOURCES[i]
    case IntakeSource =>
      IntakeExact(store.goals, store.intake, e);
    case GoalSource =>
      assert DEFAULT_SOURCES[..1] == [IntakeSource];
      GoalSourceExact(store, e);
    case TableSource(kind) =>
      RowsExact(kind, Table(store, kind), e);
  }

  /** The whole queue holds exactly the entries that the rows call for, of every kind. */
  lemma {:induction false} QueueExact(store: Store, e: Entry)
    requires Keyed(store)
    ensures e in Gathered(store, DEFAULT_SOURCES) <==> Belongs(store, e)
  {
    GatheredExact(store, DEFAULT_SOURCES, e);
    forall i | 0 <= i < |DEFAULT_SOURCES|
      ensures e in Part(store, DEFAULT_SOURCES, i) <==> FromSource(DEFAULT_SOURCES[i], e.kind) && Belongs(store, e)
    {
      SourceExact(store, i, e);
    }
    hide Gathered, Part, Belongs, Keyed;
    SomeSource(e.kind);
  }

  lemma {:induction false} SomeSource(kind: Kind)
    ensures exists i | 0 <= i < |DEFAULT_SOURCES| :: FromSource(DEFAULT_SOURCES[i], kind)
  {
    assert FromSource(DEFAULT_SOURCES[Place(kind)], kind);
  }

  // ---------------------------------------------------------------- when it fails

  /** The row is one that its source shows, and cannot be shown. */
  predicate Unshowable(store: Store, x: IntakeItem) {
    && (x.goalID.Some? || (x.draft && x.status == ReviewRequired) || x.status != NotReviewable)
    && (!x.readable || (x.goalID.Some? && forall g | g in store.goals :: g.id != x.goalID.value))
  }

  predicate BadTable(store: Store, kind: Kind) {
    kind in store.tables && exists x | x in store.tables[kind] :: x.listed && !x.readable
  }

  lemma {:induction false} IntakeFailsExact(store: Store)
    ensures AnyIntakeFails(store.goals, store.intake) <==> exists x | x in store.intake :: Unshowable(store, x)
  {
    forall x ensures IntakeFails(store.goals, x) <==> Unshowable(store, x) {
      if x.goalID.Some? { FoundExact(store.goals, x.goalID.value); }
    }
    hide IntakeFails, Unshowable;
    var items := store.intake;
    if i :| 0 <= i < |items| && IntakeFails(store.goals, items[i]) {
      assert items[i] in items;
    }
  }

  lemma {:induction false} FoundExact(goals: seq<Goal>, id: int)
    ensures FindGoal(goals, id).None? <==> forall g | g in goals :: g.id != id
  {
    if goals != [] {
      var before, last := goals[..|goals| - 1], goals[|goals| - 1];
      assert goals == before + [last];
      FoundExact(before, id);
    }
  }

  lemma {:induction false} TableFailsExact(store: Store, kind: Kind)
    ensures AnyRowFails(Table(store, kind)) <==> BadTable(store, kind)
  {
    var rows := Table(store, kind);
    if i :| 0 <= i < |rows| && rows[i].listed && !rows[i].readable {
      assert rows[i] in rows;
    }
  }

  /** The whole queue fails if and only if some intake row that it shows is unreadable or linked to a goal that is
    * missing, or some row that one of the six tables lists is unreadable. */
  lemma {:induction false} FailsExactly(store: Store)
    ensures AnySourceFails(store, DEFAULT_SOURCES) <==>
              || (exists x | x in store.intake :: Unshowable(store, x))
              || BadTable(store, Approval) || BadTable(store, SkillArtifact) || BadTable(store, ContextPack)
              || BadTable(store, MemoryProposal) || BadTable(store, Recovery) || BadTable(store, FailedWork)
  {
    IntakeFailsExact(store);
    forall kind ensures AnyRowFails(Table(store, kind)) <==> BadTable(store, kind) { TableFailsExact(store, kind); }
    hide AnyRowFails, AnyIntakeFails, BadTable, Unshowable;
    var s := DEFAULT_SOURCES;
    assert AnySourceFails(store, s) <==>
      SourceFails(store, s[0]) || SourceFails(store, s[1]) || SourceFails(store, s[2]) || SourceFails(store, s[3])
      || SourceFails(store, s[4]) || SourceFails(store, s[5]) || SourceFails(store, s[6]) || SourceFails(store, s[7]);
  }

  // ---------------------------------------------------------------- in which order

  predicate InOrder(es: seq<Entry>, d: Entry, e: Entry) {
    exists i, j | 0 <= i < j < |es| :: es[i] == d && es[j] == e
  }

  lemma {:induction false} OrderAppend(a: seq<Entry>, b: seq<Entry>, d: Entry, e: Entry)
    requires InOrder(a, d, e) || InOrder(b, d, e) || (d in a && e in b)
    ensures InOrder(a + b, d, e)
  {
    var c := a + b;
    if i, j :| 0 <= i < j < |a| && a[i] == d && a[j] == e {
      assert c[i] == d && c[j] == e;
    } else if i, j :| 0 <= i < j < |b| && b[i] == d && b[j] == e {
      assert c[|a| + i] == d && c[|a| + j] == e;
    } else {
      var i :| 0 <= i < |a| && a[i] == d;
      var j :| 0 <= j < |b| && b[j] == e;
      assert c[i] == d && c[|a| + j] == e;
    }
  }

  lemma {:induction false} RowsInOrder(kind: Kind, rows: seq<Row>, i: nat, j: nat)
    requires i < j < |rows| && rows[i].listed && rows[j].listed
    ensures InOrder(RowEntries(kind, rows), Entry(kind, rows[i].id, 0), Entry(kind, rows[j].id, 0))
  {
    var n := |rows| - 1;
    var before := rows[..n];
    if j < n {
      RowsInOrder(kind, before, i, j);
    } else {
      RowsExact(kind, before, Entry(kind, rows[i].id, 0));
      assert before[i] in before;
    }
    OrderAppend(RowEntries(kind, before), if rows[n].listed then [Entry(kind, rows[n].id, 0)] else [],
      Entry(kind, rows[i].id, 0), Entry(kind, rows[j].id, 0));
  }

  lemma {:induction false} IntakeEntriesSnoc(goals: seq<Goal>, items: seq<IntakeItem>)
    requires items != []
    ensures var n := |items| - 1; IntakeEntries(goals, items) == IntakeEntries(goals, items[..n]) + IntakeShown(goals, items[n])
  {
  }

  lemma {:induction false} IntakeListed(goals: seq<Goal>, items: seq<IntakeItem>, i: nat, d: Entry)
    requires DistinctGoals(goals) && i < |items| && IntakeBelongs(goals, items[i], d)
    ensures d in IntakeEntries(goals, items)
  {
    IntakeExact(goals, items, d);
    hide IntakeBelongs, IntakeEntries;
    assert items[i] in items;
  }

  lemma {:induction false} IntakeInOrder(goals: seq<Goal>, items: seq<IntakeItem>, i: nat, j: nat, d: Entry, e: Entry)
    requires DistinctGoals(goals) && i < j < |items| && IntakeBelongs(goals, items[i], d) && IntakeBelongs(goals, items[j], e)
    ensures InOrder(IntakeEntries(goals, items), d, e)
  {
    var n := |items| - 1;
    var before := items[..n];
    IntakeEntriesSnoc(goals, items);
    hide IntakeBelongs, IntakeShown, InOrder, IntakeEntries;
    if j < n {
      IntakeInOrder(goals, before, i, j, d, e);
    } else {
      IntakeListed(goals, before, i, d);
      ShownExact(goals, items[n], e);
    }
    OrderAppend(IntakeEntries(goals, before), IntakeShown(goals, items[n]), d, e);
  }

  lemma {:induction false} GoalEntriesSnoc(goals: seq<Goal>, blockers: seq<Blocker>, converted: set<int>)
    requires goals != []
    ensures var n := |goals| - 1;
            GoalEntries(goals, blockers, converted)
            == GoalEntries(goals[..n], blockers, converted) + GoalShown(blockers, converted, goals[n])
  {
  }

  lemma {:induction false} GoalListed(goals: seq<Goal>, blockers: seq<Blocker>, converted: set<int>, i: nat, d: Entry)
    requires i < |goals| && GoalBelongs(blockers, converted, goals[i], d)
    ensures d in GoalEntries(goals, blockers, converted)
  {
    GoalsExact(goals, blockers, converted, d);
    hide GoalBelongs, GoalEntries;
    assert goals[i] in goals;
  }

  lemma {:induction false} GoalsInOrder(
      goals: seq<Goal>, blockers: seq<Blocker>, converted: set<int>, i: nat, j: nat, d: Entry, e: Entry)
    requires i < j < |goals| && GoalBelongs(blockers, converted, goals[i], d) && GoalBelongs(blockers, converted, goals[j], e)
    ensures InOrder(GoalEntries(goals, blockers, converted), d, e)
  {
    var n := |goals| - 1;
    var before := goals[..n];
    GoalEntriesSnoc(goals, blockers, converted);
    hide GoalBelongs, GoalShown, InOrder, GoalEntries;
    if j < n {
      GoalsInOrder(before, blockers, converted, i, j, d, e);
    } else {
      GoalListed(before, blockers, converted, i, d);
      GoalShownExact(blockers, converted, goals[n], e);
    }
    OrderAppend(GoalEntries(before, blockers, converted), GoalShown(blockers, converted, goals[n]), d, e);
  }

  lemma {:induction false} SourcesInOrder(store: Store, sources: seq<Source>, i: nat, j: nat, d: Entry, e: Entry)
    requires i <= j < |sources|
    requires if i < j then d in Part(store, sources, i) && e in Part(store, sources, j) else InOrder(Part(store, sources, i), d, e)
    ensures InOrder(Gathered(store, sources), d, e)
  {
    var n := |sources| - 1;
    GatheredSnoc(store, sources);
    PartStays(store, sources, n);
    hide Part, InOrder, Gathered;
    if j < n {
      SourcesInOrder(store, sources[..n], i, j, d, e);
    } else if i < n {
      GatheredExact(store, sources[..n], d);
      assert d in Part(store, sources[..n], i);
    }
    OrderAppend(Gathered(store, sources[..n]), Part(store, sources, n), d, e);
  }

  /** Where the entries of a kind stand in the queue. */
  function Place(kind: Kind): nat {
    match kind
    case IntakeGoal => 0
    case IntakeReview => 0
    case IntakeApproval => 0
    case GoalItem => 1
    case GoalApproval => 1
    case GoalBlocker => 1
    case Approval => 2
    case SkillArtifact => 3
    case ContextPack => 4
    case MemoryProposal => 5
    case Recovery => 6
    case FailedWork => 7
  }

  /** The row of an entry comes before the row of another one in their table. */
  predicate RowBefore(store: Store, d: Entry, e: Entry) {
    if IsIntakeKind(d.kind) then
      exists i, j | 0 <= i < j < |store.intake| ::
        IntakeBelongs(store.goals, store.intake[i], d) && IntakeBelongs(store.goals, store.intake[j], e)
    else if IsGoalKind(d.kind) then
      exists i, j | 0 <= i < j < |store.goals| :: store.goals[i].id == d.goalID && store.goals[j].id == e.goalID
    else
      && d.kind in store.tables
      && var rows := store.tables[d.kind];
         exists i, j | 0 <= i < j < |rows| :: rows[i] == Row(d.id, true, rows[i].readable) && rows[j] == Row(e.id, true, rows[j].readable)
  }

  /** Entries stand in the order of their sources, and within one source in the order of their rows. */
  lemma {:induction false} QueueInOrder(store: Store, d: Entry, e: Entry)
    requires Keyed(store) && Belongs(store, d) && Belongs(store, e)
    requires Place(d.kind) < Place(e.kind) || (Place(d.kind) == Place(e.kind) && RowBefore(store, d, e))
    ensures InOrder(Gathered(store, DEFAULT_SOURCES), d, e)
  {
    var i, j := Place(d.kind), Place(e.kind);
    SourceExact(store, i, d);
    SourceExact(store, j, e);
    if i == j {
      SourceInOrder(store, i, d, e);
    }
    hide Belongs, Keyed, RowBefore, InOrder, Gathered, Part;
    SourcesInOrder(store, DEFAULT_SOURCES, i, j, d, e);
  }

  lemma {:induction false} SourceInOrder(store: Store, i: nat, d: Entry, e: Entry)
    requires Keyed(store) && Belongs(store, d) && Belongs(store, e)
    requires i == Place(d.kind) == Place(e.kind) && RowBefore(store, d, e)
    ensures InOrder(Part(store, DEFAULT_SOURCES, i), d, e)
  {
    hide InOrder;
    if i == 0 {
      var k, n :| 0 <= k < n < |store.intake|
        && IntakeBelongs(store.goals, store.intake[k], d) && IntakeBelongs(store.goals, store.intake[n], e);
      IntakeInOrder(store.goals, store.intake, k, n, d, e);
    } else if i == 1 {
      assert DEFAULT_SOURCES[..1] == [IntakeSource];
      GoalSourceInOrder(store, d, e);
    } else {
      var rows := store.tables[d.kind];
      var k, n :| 0 <= k < n < |rows| && rows[k] == Row(d.id, true, rows[k].readable) && rows[n] == Row(e.id, true, rows[n].readable);
      RowsInOrder(d.kind, rows, k, n);
    }
  }

  lemma {:induction false} GoalSourceInOrder(store: Store, d: Entry, e: Entry)
    requires Keyed(store) && Belongs(store, d) && Belongs(store, e) && RowBefore(store, d, e) && IsGoalKind(d.kind) && IsGoalKind(e.kind)
    ensures InOrder(GoalEntries(store.goals, store.openBlockers, Converted(store.intake)), d, e)
  {
    var goals, blockers, converted := store.goals, store.openBlockers, Converted(store.intake);
    GoalSourceExact(store, d);
    GoalSourceExact(store, e);
    GoalsExact(goals, blockers, converted, d);
    GoalsExact(goals, blockers, converted, e);
    hide Belongs, InOrder, Converted, GoalEntries;
    var g :| g in goals && GoalBelongs(blockers, converted, g, d);
    var h :| h in goals && GoalBelongs(blockers, converted, h, e);
    var i, j :| 0 <= i < j < |goals| && goals[i].id == d.goalID && goals[j].id == e.goalID;
    assert g == goals[i] && h == goals[j];
    GoalsInOrder(goals, blockers, converted, i, j, d, e);
  }

  predicate IsRowID(id: int) { 1 <= id <= Decimal.MAX_INT64 }

  /** Every table's keys are positive 64-bit integers. */
  predicate PositiveKeys(store: Store) {
    && (forall x | x in store.intake :: IsRowID(x.id))
    && (forall g | g in store.goals :: IsRowID(g.id))
    && (forall b | b in store.openBlockers :: IsRowID(b.id))
    && forall kind | kind in store.tables :: forall x | x in store.tables[kind] :: IsRowID(x.id)
  }

  lemma {:induction false} SourceIDs(store: Store, source: Source, converted: set<int>)
    requires Keyed(store) && PositiveKeys(store)
    ensures forall e | e in SourceEntries(store, source, converted) :: IsRowID(e.id)
  {
    match source
    case IntakeSource =>
      IntakeOrigin(store.goals, store.intake);
    case GoalSource =>
      GoalUnique(store.goals, store.openBlockers, converted);
      forall e | e in SourceEntries(store, source, converted) ensures IsRowID(e.id) {
        var g :| g in store.goals && GoalEntryOf(store.openBlockers, g, e);
      }
    case TableSource(kind) =>
      RowOrigin(kind, Table(store, kind));
  }

  lemma {:induction false} GatheredIDs(store: Store, sources: seq<Source>)
    requires Keyed(store) && PositiveKeys(store)
    ensures forall e | e in Gathered(store, sources) :: IsRowID(e.id)
  {
    if sources != [] {
      hide SourceEntries, Keyed, PositiveKeys;
      var before, last := sources[..|sources| - 1], sources[|sources| - 1];
      GatheredIDs(store, before);
      SourceIDs(store, last, ConvertedAfter(store, before));
    }
  }

  /** Kind names are supported by the reader and tell the kinds apart. */
  lemma {:induction false} NameSupported(kind: Kind)
    ensures Name(kind) in QueueRef.PREFIXES
  {
  }

  function KindNamed(name: string): Kind {
    if name == "intake-goal" then IntakeGoal
    else if name == "intake-review" then IntakeReview
    else if name == "intake-approval" then IntakeApproval
    else if name == "goal" then GoalItem
    else if name == "goal-approval" then GoalApproval
    else if name == "goal-blocker" then GoalBlocker
    else if name == "approval" then Approval
    else if name == "skill-artifact" then SkillArtifact
    else if name == "context-pack" then ContextPack
    else if name == "memory-proposal" then MemoryProposal
    else if name == "recovery" then Recovery
    else FailedWork
  }

  lemma {:induction false} NameInjective(kind: Kind)
    ensures KindNamed(Name(kind)) == kind
  {
  }

  /** Every id of the gathered queue reads back as its own kind and row, and no two ids are equal. */
  lemma {:induction false} QueueIDsDistinct(lower: char -> char, store: Store)
    requires FixesNames(lower) && Keyed(store) && PositiveKeys(store)
    ensures var es := Gathered(store, DEFAULT_SOURCES);
            && (forall i | 0 <= i < |es| :: IsRowID(es[i].id))
            && (forall i | 0 <= i < |es| ::
                  QueueRef.ParseRef(lower, QueueID(es[i])) == Some(QueueRef.Ref(Name(es[i].kind), es[i].id)))
            && forall i, j | 0 <= i < j < |es| :: QueueID(es[i]) != QueueID(es[j])
  {
    GatheredUnique(store, DEFAULT_SOURCES);
    GatheredIDs(store, DEFAULT_SOURCES);
    var es := Gathered(store, DEFAULT_SOURCES);
    hide Gathered, Keyed, PositiveKeys, DEFAULT_SOURCES, Name, KindNamed, QueueRef.PREFIXES, QueueRef.ParseRef, QueueRef.FormatRef;
    forall i | 0 <= i < |es|
      ensures IsRowID(es[i].id)
      ensures QueueRef.ParseRef(lower, QueueID(es[i])) == Some(QueueRef.Ref(Name(es[i].kind), es[i].id))
    {
      assert es[i] in es;
      NameSupported(es[i].kind);
      QueueRef.ParseInvertsFormat(lower, QueueRef.Ref(Name(es[i].kind), es[i].id));
    }
    forall i, j | 0 <= i < j < |es| ensures QueueID(es[i]) != QueueID(es[j]) {
      NameInjective(es[i].kind);
      NameInjective(es[j].kind);
    }
  }
}
