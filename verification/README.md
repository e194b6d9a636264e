# Odin OS: protocols and kernels in Dafny

This project models the stateful protocols of Odin OS, and the few string, path and parsing kernels
they rest on, and proves what every run of them keeps. Each module is one component.

| module | component |
|---|---|
| `RateLimiter` | the sliding-window limiter of the mobile API, with its shared backing slices |
| `SkillRegistry` | skill registry operations under a shared/exclusive file lock, and `Invoke` |
| `Paths`, `Text` | lexical path cleaning, joining and containment; the string functions below it |
| `UntrustedData` | the printer of untrusted prompt blocks, with a reader that inverts it |
| `ProbeCache` | readiness and metrics probes, their staleness windows and the background refresh |
| `PermissionFold` | the fold from skill permissions to an invocation policy |
| `QueueRef`, `ReviewQueue`, `Decimal` | ids and contents of the unified review queue |
| `GoalReview` | goal approval and rejection |
| `ArtifactReview` | reviews of skill artifacts, design requests and design outputs |
| `MobileQueue`, `EmailActions`, `EmailToken`, `EmailLinks`, `Base64Url` | the mobile queue and email actions |
| `Backfill` | binding stored tasks to the default workspace |
| `Locks` | the service lock with its probe, and the bootstrap lock's polling loop |
| `BrowserRunner`, `XBio` | starting a browser handoff runner; the approved change of an X bio |
| `Slugs` | key and path segments made from free text |
| `Wrappers`, `Counting`, `Listings` | shared: a value that may be missing; how often something occurs in a log; lists without repeated keys |

Code that updates objects, slices or rows step by step is a class or a method with a loop, proved against
a specification function; the protocols are step relations over those functions, with one step for each
store transaction, system call or critical section, and the theorems quantify over all runs. What a
specification function or a step does is stated again without naming it: in statuses and rows, as what a later
request sees, or as the directory that a path leads to. "Every
interleaving" means any number of clients, in any order, with any call failing and with other parts of the
system changing the same rows. Where a promise fails for operations that overlap on one row, there are two
results: an accounting over every run, in which the steps that came too late or overlapped are counted, and the promise
itself for every run in which operations on that one row do not overlap, while all else interleaves. For
the working copies of browser profiles a directory takes the place of the row.

Taken as given: SQLite transactions are atomic and its primary keys and unique keys hold; the kernel
grants an exclusive file lock to one open file; JSON reads back what it wrote; `strings.ToLower` maps
characters one by one and leaves the lower-case letters, digits, `-` and `_` in question alone; HMAC is an arbitrary
function. Times are integers, row ids and counters unbounded integers except where a 64-bit range matters
(`QueueRef`, `Decimal`). Clocks, processes, tools and drivers enter as arguments of the steps.

## Where the code and the expected property part

Each of these has a concrete run or input, and a theorem that says exactly when, or under which condition
on the run, the property does hold.

- A restore root whose cleaned form ends in `..` lets an archive name leave it (`Paths.ClimbingRootEscapes`,
  `Paths.RestoreContained`); `/` and `.` refuse every name but the root (`Paths.BareRootRefusesAll`).
- The second `/metrics` fallback is reachable with requests that never overlap, through a background refresh
  that is still running (`ProbeCache.FallbackReachedSequentially`, `ProbeCache.FallbackExactly`).
- A planned goal that came from intake is in the review queue twice (`ReviewQueue.PlannedGoalListedTwice`,
  `ReviewQueue.PlannedGoalOnce`).
- An approval and a rejection of one goal at the same time can both be recorded
  (`GoalReview.ConcurrentReviewsDecideBothWays`); `GoalReview.DecisionsAccounted` counts what makes it possible.
- A delivery item whose storage failed (`GoalReview.DeliveryCanBeLost`) stays missing until the goal is reopened and
  approved through its goal-approval item again (`GoalReview.LostItemNeedsReopening`, `GoalReview.ApprovalDelivers`).
- Two links for one intake item followed at the same time both take effect
  (`EmailActions.ConcurrentLinksDecideTwice`); for approvals they cannot (`EmailActions.ApprovalDecidedOnce`).
- Accepting an accepted design request or design output again through the skill review creates a work item
  (`ArtifactReview.AcceptedRequestBecomesWork`, `ArtifactReview.ReviewOutcome`).
- Two reviews of one artifact at the same time can both change its status
  (`ArtifactReview.ConcurrentReviewsChangeTwice`, `ArtifactReview.LeavesQueueOnce`).
- A design request can be executed twice: by two reviews at the same time (`ArtifactReview.ConcurrentReviewsExecuteTwice`),
  or after a review was lost when the tool had run (`ArtifactReview.LostWriteExecutesAgain`); `ArtifactReview.OutputsAccounted`
  counts both.
- A service-lock probe can turn a server away although nobody serves (`Locks.ProbeRefusesServer`, `Locks.RefusedExactly`).
- Two starts of one requested runner that look for its working copy at the same moment share it, and one can
  promote the other's (`BrowserRunner.CollisionPromotesAnothersCopy`); an operator's command can replace a copy in
  use, and the start then promotes that (`BrowserRunner.OperatorReplacesCopy`). `BrowserRunner.CopiesStayOwn` and
  `BrowserRunner.PromotedItsOwn` hold for each directory to which neither happens, and
  `BrowserRunner.WrongPromotionsAccounted` counts what makes it possible.
- A clock that steps back breaks the limiter's bound (`RateLimiter.BackwardClockBreaksBound`, `RateLimiter.WindowBound`).

## Model

| member | source | states |
|---|---|---|
| `RateLimiter.MobileRateLimiter.Compact` | internal/api/http/mobile.go:2010-2015 | in-place filtering over one backing array keeps exactly the hits after the cutoff, in order; no unread element is overwritten |
| `RateLimiter.MobileRateLimiter.Allow` | internal/api/http/mobile.go:2006-2024 | one call on the slices in memory answers and updates as the specification on sequences does, for its own key only, whatever arrays the keys hold |
| `RateLimiter.RefinesLedger` | internal/api/http/mobile.go:2006-2024 | over every run with a non-decreasing clock, each answer is that of a separate limiter which forgets nothing and counts |
| `RateLimiter.AcceptedIsLedger` | internal/api/http/mobile.go:2006-2024 | the two limiters have accepted the same hits |
| `RateLimiter.PrunedAgreesWithLedger` | internal/api/http/mobile.go:2009-2023 | what is stored and what that limiter remembers agree on every hit that any later call can still count |
| `RateLimiter.StoredWithinLimit` | internal/api/http/mobile.go:2015-2023 | no stored list is ever longer than the limit |
| `RateLimiter.RefusedOnlyWhenFull` | internal/api/http/mobile.go:2015-2018 | a call is refused exactly when the full number of hits is live |
| `RateLimiter.WindowBound` | internal/api/http/mobile.go:2006-2024 | every window (t - window, t] holds at most `limit` accepted hits, for every key and every run with a non-decreasing clock |
| `RateLimiter.BackwardClockBreaksBound` | internal/api/http/mobile.go:2006-2024 | a concrete run whose clock steps back exceeds the bound, so the clock condition is needed |
| `RateLimiter.KeysIndependent` | internal/api/http/mobile.go:2006-2024 | the list kept for a key depends only on the calls for that key |
| `RateLimiter.DecisionIgnoresOtherKeys` | internal/api/http/mobile.go:2006-2024 | so does every decision |
| `SkillRegistry.SkillReferences` | internal/skills/invoke.go:214-237 | the loop returns exactly the referring items, in order |
| `SkillRegistry.ReferrersExact` | internal/skills/invoke.go:214-237 | and these are the keys of exactly the items that name the skill |
| `SkillRegistry.StepKeeps` | internal/skills/lock.go:27-64 | every step of every client keeps the lock and bookkeeping invariant: one writer or many readers, each holder saw the registry of its grant |
| `SkillRegistry.Linearizable` | internal/skills/service.go:38-249 | under every interleaving each answer is what the sequential map gives at the grant of the lock, and the registry is the replay of the grants |
| `SkillRegistry.AloneAnswers` | internal/skills/lock.go:27-64 | with the lock free, an operation left alone is granted it, leaves what the sequential map leaves, returns its answer and gives the lock back |
| `SkillRegistry.CreateOutcome` | internal/skills/service.go:103-147 | when `Create` is refused and why, in order; otherwise the skill is stored and returned and every other key is as it was |
| `SkillRegistry.UpdateOutcome` | internal/skills/service.go:149-205 | likewise for `Update`, which replaces a stored skill |
| `SkillRegistry.DeleteOutcome` | internal/skills/service.go:206-249 | likewise for `Delete`: refused exactly when there is no such skill or an agent or workflow names it |
| `SkillRegistry.ReadingOutcome` | internal/skills/service.go:38-101 | `List` returns exactly the stored skills, `Get` and `Invoke` exactly the one asked for; none changes anything |
| `SkillRegistry.UpdateNeedsItsTarget` | internal/skills/service.go:156-161 | without a target, or with a key that is not its target, `Update` is answered without the lock and changes nothing |
| `SkillRegistry.GetSeesLastWrite` | internal/skills/service.go:38-249 | under every interleaving a `Get` answers with the text of the last successful `Create` or `Update` of its key |
| `SkillRegistry.GetAfterDelete` | internal/skills/service.go:206-249 | and after a successful `Delete` that there is none |
| `SkillRegistry.LockDiscipline` | internal/skills/invoke.go:46-112 | a writer is alone; every grant is released once, exactly when it has been answered; a handler runs only after the release |
| `SkillRegistry.MutateKeepsReferences` | internal/skills/service.go:103-249 | no admitted change removes the target of a satisfied reference |
| `SkillRegistry.ReferencesStay` | internal/skills/service.go:206-249 | a reference satisfied at any point of any run stays satisfied in every continuation |
| `SkillRegistry.Invocation.Invoke` | internal/skills/invoke.go:46-112 | on every path the lock is released exactly once and before the handler; the handler runs exactly when every check passed |
| `Paths.ParseRender` | internal/app/backup/service.go:304-312 | the segment form of a cleaned path and its text determine each other |
| `Paths.CleanIdempotent` | internal/app/backup/service.go:304-312 | cleaning a cleaned path changes nothing |
| `Paths.CleanKeepsMeaning` | internal/app/backup/service.go:304-312 | a cleaned path is absolute or relative as before, and leads to the same directory from every working directory, where `..` leads to the parent and the root is its own |
| `Paths.CleanExact` | internal/app/backup/service.go:304-312 | two paths clean to the same text if and only if both are absolute or both relative and they lead to the same directory from everywhere |
| `Paths.ElementThenParent` | internal/app/backup/service.go:304-312 | a name after a path adds that element, and `..` after it takes it away again, whatever follows |
| `Paths.DotSaysNothing` | internal/app/backup/service.go:304-312 | `.` and doubled or trailing separators change nothing |
| `Paths.ParentOfNothing` | internal/app/backup/service.go:304-312 | `..` stays at the root, and on a relative path with nothing to take away it is kept |
| `Paths.GuardAdmits` | internal/app/backup/service.go:304-312 | `archiveTargetPath` accepts a name exactly when the joined path is the root itself, or the root has segments and they are a proper prefix of the joined path's |
| `Paths.RestoreContained` | internal/app/backup/service.go:304-312 | every accepted path lies below the root without `..` if and only if the root is absolute or its cleaned form does not end in `..` |
| `Paths.RestoredBelow` | internal/app/backup/service.go:304-312 | from an absolute root every accepted path leads to the root's directory or below it |
| `Paths.PlainNameRestored` | internal/app/backup/service.go:304-312 | a relative name of plain elements is accepted and is restored under that name below the root |
| `Paths.ParentRefused` | internal/app/backup/service.go:304-312 | `..` is refused for every absolute root but `/` |
| `Paths.ClimbingRootEscapes` | internal/app/backup/service.go:304-312 | for every other root, a name that is accepted and leaves it |
| `Paths.BareRootRefusesAll` | internal/app/backup/service.go:304-312 | with the root `/` or `.` every name but the root itself is refused |
| `Paths.FilesystemRootRefusesAll` | internal/app/backup/service.go:304-312 | at `/` the prefix test and the `Rel` test differ: the one refuses what the other admits |
| `Paths.RelGuardExact` | internal/skills/execution_policy.go:56-65 | for an absolute root the `Rel` test accepts exactly the paths whose segments extend the root's |
| `Paths.IsInsideExact` | internal/e2e/run.go:1279-1293 | `isInside` accepts exactly what lies below the root, not the root itself |
| `Paths.PrefixGuardIsRelGuard` | internal/app/backup/service.go:304-312 | for absolute roots other than `/` the prefix test and the `Rel` test accept the same targets |
| `Paths.SubdirectoryWithinRepo` | internal/skills/execution_policy.go:67-77 | a path inside a plain sub-directory of the repository is inside the repository |
| `Paths.HandlerRootWithinRepo` | internal/skills/execution_policy.go:67-77 | a path accepted for the handler root passes the repository test as well |
| `Paths.AcceptedRefStaysInRepo` | internal/skills/execution_policy.go:20-31 | a reference accepted as relative, joined to the repository, stays in it |
| `Paths.RefAcceptedExact` | internal/skills/execution_policy.go:20-31 | a reference is accepted if and only if it is relative and leads to or below the directory it is seen from, from everywhere |
| `UntrustedData.Builder.WriteField` | internal/prompts/renderer.go:173-182 | appends the tag and the trimmed value, or nothing for a blank one |
| `UntrustedData.Builder.WriteUntrustedData` | internal/prompts/renderer.go:184-200 | the builder receives exactly the section: title, notice, and the blocks in order |
| `UntrustedData.SafeLines` | internal/prompts/renderer.go:202-212 | a validated value, however split into lines, holds no marker line |
| `UntrustedData.OneSegmentPerBlock` | internal/prompts/renderer.go:184-212 | splitting the section at marker lines gives one segment per block, in order |
| `UntrustedData.SegmentReads` | internal/prompts/renderer.go:184-200 | a segment reads back as the normalised block if its header values are single lines, and not at all otherwise |
| `UntrustedData.ReadInvertsSection` | internal/prompts/renderer.go:184-212 | reading the rendered section gives the normalised blocks, for every list that passes validation and has single-line headers |
| `UntrustedData.NormalizeIsOnePass` | internal/prompts/renderer.go:223-225 | the two replacements turn each CRLF, CR or LF into one LF |
| `UntrustedData.NormalHeaders` | internal/prompts/renderer.go:184-234 | header values lose the white space around them, and blank ones become `external`, `external_text` and `content` |
| `UntrustedData.NormalIdempotent` | internal/prompts/renderer.go:184-234 | normalising a block twice is normalising it once |
| `ProbeCache.OperationalProbeCache.ServeReadiness` | internal/api/http/operational.go:248-275 | the handler on the cache fields answers, and leaves the cache, as the steps of any such request of the interleaved model carried through |
| `ProbeCache.OperationalProbeCache.ServeMetrics` | internal/api/http/operational.go:446-490 | likewise for `/metrics` |
| `ProbeCache.ReadyAnswerExact` | internal/api/http/operational.go:248-275 | when `/readyz` serves an entry, probes, stores, falls back or is unavailable, with the ages in seconds |
| `ProbeCache.MetricsAnswerExact` | internal/api/http/operational.go:446-490 | likewise `/metrics`, and when it starts a refresh |
| `ProbeCache.MetricsHandled` | internal/api/http/operational.go:446-490 | the steps of a `/metrics` request carried through give the handler's answer and cache, for every state |
| `ProbeCache.ReadinessHandled` | internal/api/http/operational.go:248-275 | likewise for a `/readyz` request and `ServeReadiness` |
| `ProbeCache.SingleFlightAlways` | internal/api/http/operational.go:123-140 | under every interleaving at most one background refresh runs, and the flag is up exactly while it runs |
| `ProbeCache.RefreshEnds` | internal/api/http/operational.go:123-140 | a refresh left alone stores what it collected, or nothing if that failed, and takes the flag down |
| `ProbeCache.Ready200Justified` | internal/api/http/operational.go:248-275 | every `/readyz` 200 rests on a ready probe of the same request; or on an entry that was stored at most 45 s before this request looked; or at most 5 min before, and then this request's own probe had failed |
| `ProbeCache.Metrics200Justified` | internal/api/http/operational.go:446-490 | every `/metrics` body is a snapshot collected by the request, or one that was stored at most 5 min before this request looked |
| `ProbeCache.FallbackExactly` | internal/api/http/operational.go:474-481 | with requests one at a time the second fallback can be reached if and only if, on arrival, a background refresh is under way that can still store a usable entry within its time limit |
| `ProbeCache.FallbackReachedSequentially` | internal/api/http/operational.go:474-481 | a concrete run of requests that never overlap after which it can be reached |
| `PermissionFold.ResolveFromPermissions` | internal/skills/policy.go:94-128 | the loop computes the fold, including where it stops |
| `PermissionFold.FoldExact` | internal/skills/policy.go:94-166 | the fold's result for every list of supported permissions: a conflict, or the greatest rank with its key |
| `PermissionFold.ConflictExact` | internal/skills/policy.go:94-128 | a conflict if and only if two isolated permissions with different non-empty keys come before the first of rank two or more |
| `PermissionFold.ClassIsMaximum` | internal/skills/policy.go:94-166 | the class is the maximum rank |
| `PermissionFold.ClassByKind` | internal/skills/policy.go:130-166 | kind by kind which permissions give which class, and when the policy is read-only or mutating |
| `PermissionFold.LimitedKeyExact` | internal/skills/policy.go:94-128 | an action key only for isolated mutation, and then the key of every isolated permission that has one |
| `PermissionFold.ErrorsExact` | internal/skills/policy.go:94-128 | the empty-set error exactly for the empty list |
| `PermissionFold.UnsupportedExact` | internal/skills/policy.go:94-128 | an unsupported kind is reported exactly when no conflict stops the loop before it |
| `PermissionFold.OrderIrrelevant` | internal/skills/policy.go:94-128 | two orderings that both succeed give the same policy |
| `PermissionFold.OrderDecidesConflict` | internal/skills/policy.go:94-128 | an ordering that conflicts and one that does not |
| `PermissionFold.AddingNeverLowers` | internal/skills/policy.go:94-128 | a permission added anywhere never lowers the class |
| `QueueRef.ParseInvertsFormat` | internal/app/lifecycle/review.go:2233-2272 | reading a written id returns its kind and row, for every supported kind and every row id from 1 to 2^63 - 1 |
| `QueueRef.AliasReadsTheSame` | internal/app/lifecycle/review.go:2233-2272 | so does the form that carries the object-key prefix |
| `QueueRef.ReformattingIsCanonical` | internal/app/lifecycle/review.go:2233-2272 | whatever text was read, writing the result gives an id that reads the same |
| `QueueRef.FormatRefInjective` | internal/app/lifecycle/review.go:2233-2272 | different items have different ids |
| `Decimal.ParseFormat` | internal/app/lifecycle/review.go:2267-2270 | decimal numerals read back, on every non-negative 64-bit integer |
| `Decimal.ParseSigned` | internal/app/lifecycle/review.go:2267-2270 | with or without a sign a numeral is read as its number, exactly when that is a 64-bit integer |
| `ReviewQueue.SourceState.ListIntake` | internal/app/lifecycle/review_sources.go:122-165 | the loop fails exactly when some reviewed row is unreadable or its goal is missing; otherwise it lists the rows and adds every linked goal to the converted set |
| `ReviewQueue.SourceState.ListGoals` | internal/app/lifecycle/review.go:1497-1528 | the entries of all goals, with blockers grouped by goal, skipping converted created goals |
| `ReviewQueue.SourceState.ReadProjection` | internal/app/lifecycle/review_sources.go:49-61 | the sources run in order and share the converted set; the first failure is the result |
| `ReviewQueue.QueueExact` | internal/app/lifecycle/review_sources.go:28-320 | an entry of any kind is in the whole queue if and only if a row of its table, with that id, is in the status that calls for it |
| `ReviewQueue.FailsExactly` | internal/app/lifecycle/review_sources.go:49-330 | reading the queue fails if and only if a row that it shows is unreadable, or linked to a goal that is missing |
| `ReviewQueue.QueueInOrder` | internal/app/lifecycle/review_sources.go:28-61 | entries stand in the order of the sources, and within a source in the order of their rows |
| `ReviewQueue.GoalRepresentation` | internal/app/lifecycle/review_sources.go:28-61 | how many entries the whole queue holds for a goal, for every status and number of linked intake rows |
| `ReviewQueue.CreatedGoalOnce` | internal/app/lifecycle/review_sources.go:122-165 | a created goal is listed exactly once if and only if at most one intake row links to it |
| `ReviewQueue.PlannedGoalOnce` | internal/app/lifecycle/review.go:1519-1520 | a planned goal is listed exactly once if and only if no intake row links to it |
| `ReviewQueue.PlannedGoalListedTwice` | internal/app/lifecycle/review.go:1519-1520 | a store with one planned goal and its one intake row, and the two entries of the queue for it |
| `ReviewQueue.GoalsFirstRepeats` | internal/app/lifecycle/review_sources.go:28-39 | with the goal source first a created goal would be listed once more than it has links |
| `ReviewQueue.GatheredUnique` | internal/app/lifecycle/review_sources.go:49-61 | no row is listed twice, for every list of distinct sources and every store with primary keys |
| `ReviewQueue.QueueIDsDistinct` | internal/app/lifecycle/review_sources.go:49-61 | all gathered ids are pairwise distinct and read back as their own kind and row |
| `GoalReview.ReviewStore.TransitionGoal` | internal/store/sqlite/goals.go:286-335 | succeeds exactly when the table allows it; a transition to the same status records nothing |
| `GoalReview.AllowedExact` | internal/store/sqlite/goals.go:1363-1388 | the moves between goal statuses, in full |
| `GoalReview.ReviewStore.ApproveGoalReviewItem` | internal/app/lifecycle/review.go:972-1138 | the code carried through is the uninterrupted run of the step-by-step protocol |
| `GoalReview.ReviewStore.RejectGoalReviewItem` | internal/app/lifecycle/review.go:883-970 | likewise for rejection |
| `GoalReview.StepKeeps` | internal/app/lifecycle/review.go:883-1160 | every store transaction of any client, failure or outside change keeps the invariant |
| `GoalReview.ApprovalPassesThroughPlanned` | internal/app/lifecycle/review.go:1098-1138 | under every interleaving a recorded approval is preceded by a move to planned and then one from planned to approved |
| `GoalReview.BlockedOnlyWithBlocker` | internal/app/lifecycle/review.go:918-946 | under every interleaving a goal that a review blocks already has an open blocker |
| `GoalReview.OneDeliveryPerApprovedGoal` | internal/app/lifecycle/review.go:1044-1089 | under every interleaving at most one delivery work item per goal, and only after a recorded approval of its goal-approval item |
| `GoalReview.DeliveryDelivers` | internal/runtime/jobs/service.go:412-510 | a review that reaches the delivery step leaves the goal with its own item |
| `GoalReview.DecisionsAccounted` | internal/app/lifecycle/review.go:883-1160 | every run: decisions never exceed one, plus the goal's reopenings, plus the transitions of reviews that came too late |
| `GoalReview.DecidedOncePerOpening` | internal/app/lifecycle/review.go:883-1160 | in every run in which reviews of this goal do not overlap, with all else interleaving, others changing its status at any time, and failures anywhere: decisions never exceed one plus the goal's reopenings, so without one a goal is never both approved and rejected |
| `GoalReview.ReviewOfItem` | internal/app/lifecycle/review.go:883-1160 | from the queue id: exactly the goal that the id or the intake item's link names is decided, a draft without a goal gets a new one that is linked and decided, and otherwise nothing changes; with every row and event that a decision writes |
| `GoalReview.ReviewOutcome` | internal/app/lifecycle/review.go:883-1138 | an uninterrupted review decides exactly the goals that are created or planned, and changes nothing otherwise |
| `GoalReview.ConcurrentReviewsDecideBothWays` | internal/app/lifecycle/review.go:883-1138 | two reviews at once can both be recorded: the goal ends blocked, approved and with a delivery item |
| `GoalReview.DeliveriesAccounted` | internal/app/lifecycle/review.go:1021-1025 | every run: without a work item, each approval of the goal-approval item is about to store it or was given up at that very point |
| `GoalReview.SettledUntilReopened` | internal/app/lifecycle/review.go:883-1138 | a goal past review, with no review of it midway, gets no decision and no item in any continuation until it is reopened |
| `GoalReview.LostItemNeedsReopening` | internal/app/lifecycle/review.go:1021-1089 | a lost item appears only after a reopening and another approval of the goal-approval item |
| `GoalReview.ApprovalDelivers` | internal/app/lifecycle/review.go:972-1089 | and such an approval, carried through, does leave the goal with its item |
| `GoalReview.DeliveryCanBeLost` | internal/app/lifecycle/review.go:1021-1025 | a run that approves a goal, loses its item and leaves the goal settled |
| `MobileQueue.MobileReviewQueue` | internal/api/http/mobile.go:761-898 | the loops over intake items, runs with their artifacts, failed tasks and sessions with their login requests produce the listing of the rows |
| `MobileQueue.ListingExact` | internal/api/http/mobile.go:761-898 | an entry, with its actions, is listed if and only if the rows call for it |
| `MobileQueue.ListingUnique` | internal/api/http/mobile.go:761-898 | no row is listed twice, from the primary keys of the tables |
| `MobileQueue.QueueIDInjective` | internal/api/http/mobile.go:776-895 | different items of the listing have different ids |
| `MobileQueue.UnifiedReads` | internal/app/lifecycle/review.go:2233-2272 | the reader of the unified queue reads the ids of the mobile queue as the same kind and row, and refuses those of failed browser runs and logins |
| `Base64Url.DecodeInvertsEncode` | internal/api/http/email_actions.go:357-398 | unpadded base64url reads back every byte sequence |
| `Base64Url.EncodeHasNoStop` | internal/api/http/email_actions.go:357-359 | an encoding never contains a full stop |
| `Base64Url.EncodeGroups` | internal/api/http/email_actions.go:357-359 | as many characters as needed, and every four of them stand for the same number as the three bytes they encode, with zeros for what is missing |
| `Base64Url.AlphabetOrder` | internal/api/http/email_actions.go:357-359 | the characters of the values 0 to 63, in order |
| `Base64Url.BreaksIgnored` | internal/api/http/email_actions.go:362-380 | a line break anywhere does not change what is read |
| `EmailToken.VerifyInvertsSign` | internal/api/http/email_actions.go:338-392 | a signed token verifies to its trimmed claims up to its expiry and is refused as expired after it |
| `EmailToken.SignExact` | internal/api/http/email_actions.go:338-360 | a token is signed if and only if there is a secret and recipient, item, source and action are given |
| `EmailToken.VerifiedClaims` | internal/api/http/email_actions.go:338-392 | field by field, the claims that it verifies to |
| `EmailToken.VerifyExact` | internal/api/http/email_actions.go:362-392 | a token is accepted if and only if it is a payload followed by that payload's signature, with current and complete claims |
| `EmailLinks.LinkCarriesRequest` | internal/api/http/email_actions.go:327-409 | a link of any item verifies for a day to the request of its line: same row, action, snapshot hashes and queue id; after it, it is refused as expired |
| `EmailLinks.EveryLinkHeld` | internal/api/http/email_actions.go:229-409 | this for every link of every line that an email holds |
| `EmailActions.EmailActionItems` | internal/api/http/email_actions.go:229-310 | the loops produce the pending approvals and then the unseen review items |
| `EmailActions.EmailExact` | internal/api/http/email_actions.go:229-310 | an email has the line of every pending approval and of every other queue item, and nothing else |
| `EmailActions.LinesExact` | internal/api/http/email_actions.go:229-325 | which links a line carries: its row, its snapshot hashes, and exactly the actions that may be offered |
| `EmailActions.LinesDistinctExactly` | internal/api/http/email_actions.go:270-276 | the lines are distinct exactly when the queue lists no unseen item twice |
| `EmailActions.QueueIDsDistinct` | internal/api/http/email_actions.go:229-310 | the emitted queue ids are pairwise distinct |
| `EmailActions.ApprovalLinkHonoured` | internal/api/http/email_actions.go:411-452 | a link to an unchanged approval takes effect exactly when resolver and store allow the action |
| `EmailActions.ReviewLinkHonoured` | internal/api/http/email_actions.go:312-325 | a link to a queue item only opens it, or decides an intake item and takes effect whenever that is still under review |
| `EmailActions.ApprovalPresented` | internal/api/http/email_actions.go:411-452 | presenting a token makes the approval approved, denied or returned for clarification as the action says, exactly when it may be decided; nothing else changes |
| `EmailActions.IntakePresented` | internal/api/http/email_actions.go:454-512 | likewise rejected, returned for clarification or archived for an intake item under review |
| `EmailActions.ActionStore.ApplyApproval` | internal/api/http/email_actions.go:411-452 | the branch carried through is the uninterrupted run of its store calls, and succeeds exactly when something changed |
| `EmailActions.ActionStore.ApplyIntakeReview` | internal/api/http/email_actions.go:454-512 | likewise for intake items |
| `EmailActions.ApprovalDecidedOnce` | internal/store/sqlite/store.go:3653-3715 | under every interleaving and repetition, email decides an approval at most once per time it became pending |
| `EmailActions.DecisionsAccounted` | internal/api/http/email_actions.go:400-512 | every run, for every row: openings plus writes that came too late equal decisions by email plus closings by others, plus one if it is open |
| `EmailActions.IntakeDecidedOnce` | internal/api/http/email_actions.go:454-512 | in every run in which presentations for this item do not overlap, with all else interleaving and others changing the item at any time: at most one decision per time it came up for review |
| `EmailActions.ConcurrentLinksDecideTwice` | internal/store/sqlite/store.go:1069-1094 | two links followed at once both take effect, because the write does not look at the status again |
| `Backfill.WorkspaceStore.UpdateRowsAffected` | internal/app/bootstrap/bootstrap.go:424-489 | an update changes exactly the selected tasks and returns their number |
| `Backfill.WorkspaceStore.BootstrapWorkspaceRuntimeState` | internal/app/bootstrap/bootstrap.go:364-492 | initiatives, tasks and all counters after a run |
| `Backfill.ReconcileExact` | internal/core/initiatives/service.go:40-60 | row by row: a project's initiative is linked to it and keeps its owner or gets the default one, a project without one gets a new row with a new id, and every other row is as it was |
| `Backfill.EachTaskFilled` | internal/app/bootstrap/bootstrap.go:424-489 | what a run makes of each task, said without the order of the four updates |
| `Backfill.NothingOverwritten` | internal/app/bootstrap/bootstrap.go:424-489 | no binding and no work kind that was set is replaced |
| `Backfill.WorkKindFilled` | internal/app/bootstrap/bootstrap.go:480-489 | the scope becomes the work kind exactly where that was empty or spaces |
| `Backfill.EveryTaskBound` | internal/app/bootstrap/bootstrap.go:408-478 | every task of a stored project gets a workspace and an initiative, and has a companion exactly when it had one or its initiative has an owner |
| `Backfill.CompanionIsOwner` | internal/app/bootstrap/bootstrap.go:449-478 | the companion that a task gets is the owner of the initiative with the id it is bound to |
| `Backfill.NewestIsGreatest` | internal/app/bootstrap/bootstrap.go:433-442 | the chosen initiative is the linked one with the greatest id |
| `Backfill.ReconcileIdempotent` | internal/core/initiatives/service.go:40-60 | reconciling the projects a second time changes no initiative |
| `Backfill.SecondRun` | internal/app/bootstrap/bootstrap.go:364-492 | a second run reports zero for the three bindings, and counts work kinds again exactly for tasks whose kind and scope are both blank |
| `Locks.StepKeeps` | internal/app/bootstrap/lock.go:83-150 | every system call of every process keeps the lock invariant |
| `Locks.AtMostOneServer` | internal/app/bootstrap/lock.go:83-150 | under every interleaving never two servers, and nobody serves between a probe's locking and its answer `false` |
| `Locks.FreedThenGranted` | internal/app/bootstrap/lock.go:83-150 | when the process that has the lock gives it up or dies, anyone who asks next is served |
| `Locks.RefusedExactly` | internal/app/bootstrap/lock.go:107-128 | a server is refused exactly when another one serves or a probe is between its two calls |
| `Locks.ProbeRefusesServer` | internal/app/bootstrap/lock.go:83-128 | a run in which a probe turns a server away although nobody serves |
| `Locks.AcquireBootstrapLock` | internal/app/bootstrap/lock.go:48-71 | the loop ends in the first iteration that grants, fails, expires or is cancelled, with that outcome |
| `Locks.OutcomeExact` | internal/app/bootstrap/lock.go:48-71 | which outcome that is: the answer to the attempt first, then the timeout, then the cancelled context |
| `Locks.AcquireWithTimeout` | internal/app/bootstrap/lock.go:35-72 | with a timeout T at most ceil(T / 25 ms) + 1 attempts |
| `Locks.BoundIsTight` | internal/app/bootstrap/lock.go:48-71 | against a lock that stays taken the bound is reached, for every T |
| `Slugs.SlugKeyPart` | internal/e2e/run.go:1855-1871 | computes the words of the text joined by dashes |
| `Slugs.SanitizePathSegment` | internal/adapters/browserhuman/driver.go:134-154 | computes the same function |
| `Slugs.TrimSqueeze` | internal/e2e/run.go:1858-1870 | squeezing gaps to dashes and trimming the ends is joining the words |
| `Slugs.AlnumExact` | internal/e2e/run.go:1855-1871 | the characters that are kept |
| `Slugs.SlugIsKey` | internal/registry/key.go:11-25 | a slug is a valid registry key unless the text has no letter or digit |
| `Slugs.SlugIdempotent` | internal/e2e/run.go:1855-1871 | a slug of a slug is the slug |
| `ArtifactReview.ArtifactStore.RunSkillArtifactReview` | internal/app/lifecycle/skills.go:411-567 | the command carried through is the uninterrupted run of its calls |
| `ArtifactReview.ArtifactStore.RunDesignArtifactReview` | internal/app/lifecycle/review.go:2337-2615 | likewise for design requests and outputs, whatever the design tool does |
| `ArtifactReview.ReviewOutcome` | internal/app/lifecycle/skills.go:411-567 | a review changes the store exactly when it decides an artifact in its queue or supplies a missing work item; repetitions and refused verdicts change nothing |
| `ArtifactReview.ReviewLeaves` | internal/app/lifecycle/skills.go:411-567 | the status that each verdict leaves, and the output, work item and record that come with it; nothing else changes |
| `ArtifactReview.OneTaskPerArtifact` | internal/app/lifecycle/skills.go:531-571 | under every interleaving, whatever fails, at most one follow-on task per artifact |
| `ArtifactReview.ChangesAccounted` | internal/store/sqlite/store.go:4613-4664 | every run: an artifact changes status at most once, and once more for each write that came too late |
| `ArtifactReview.LeavesQueueOnce` | internal/store/sqlite/store.go:4613-4664 | in every run in which reviews of this artifact do not overlap, with all else interleaving and failures anywhere: it leaves its queue at most once |
| `ArtifactReview.OutputsAccounted` | internal/app/lifecycle/review.go:2380-2391 | every run: a request gets at most one output, one more per review lost before its write, and one more per review opened to run the tool while another review of it was under way |
| `ArtifactReview.OneOutputPerRequest` | internal/app/lifecycle/review.go:2380-2391 | in every run in which reviews of this request do not overlap: at most one output, and one more per review lost before its write |
| `ArtifactReview.LostWriteExecutesAgain` | internal/app/lifecycle/review.go:2380-2429 | a lost write lets the next review execute the request again |
| `ArtifactReview.ConcurrentReviewsExecuteTwice` | internal/app/lifecycle/review.go:2380-2429 | two reviews of one request at once make two outputs, with no write lost |
| `ArtifactReview.AcceptedRequestBecomesWork` | internal/app/lifecycle/skills.go:411-567 | an accepted design request accepted again through the skill review gets a work item; through the design review it stays as it was |
| `ArtifactReview.ConcurrentReviewsChangeTwice` | internal/store/sqlite/store.go:4613-4664 | two reviews at once can change the status twice |
| `BrowserRunner.RunnerStore.UpdateStatus` | internal/store/sqlite/browser_sessions.go:1347-1370 | succeeds exactly when the table allows it; the same status records nothing |
| `BrowserRunner.CanMoveExact` | internal/store/sqlite/browser_sessions.go:1896-1916 | the moves between runner statuses, in full |
| `BrowserRunner.RunnerStore.StartBrowserSessionRunner` | internal/app/lifecycle/browser.go:1594-1734 | the branches carried through are the plan of effects for each answer |
| `BrowserRunner.StartLeaves` | internal/app/lifecycle/browser.go:1594-1734 | for each answer and each failure before it: the statuses the runner goes through, what becomes of the working copy, and the events |
| `BrowserRunner.StepKeeps` | internal/app/lifecycle/browser.go:1594-1734 | every step of every start, death or outside change keeps the invariant |
| `BrowserRunner.CompletedThroughStarted` | internal/store/sqlite/browser_sessions.go:1896-1916 | under every interleaving a completed runner had been started |
| `BrowserRunner.PromotedBeforeCleaned` | internal/app/lifecycle/browser.go:1637-1653 | a start that completes its runner has promoted its profile and only then asked for clean-up |
| `BrowserRunner.CopiesStayOwn` | internal/app/lifecycle/browser.go:1837-1912 | a working copy stays, and stays its start's own, until that start asks for its clean-up, if on this directory no two starts find it absent before either unpacks, and no operator command changes it while a start uses it; on all other directories anything may happen |
| `BrowserRunner.PromotedItsOwn` | internal/app/lifecycle/browser.go:1876-1898 | a start that completes its runner has promoted its own copy, under the same condition on the directories that this start unpacked into |
| `BrowserRunner.WrongPromotionsAccounted` | internal/app/lifecycle/browser.go:1837-1912 | every run, for every directory: promotions of a copy that is not the start's own, plus those still to be feared, never exceed the times that a start found the directory absent, or an operator unpacked into it, while another start could still promote from it |
| `BrowserRunner.CollisionPromotesAnothersCopy` | internal/runtime/browserprofilematerialize/materialize.go:147-163 | a run of two starts that look at the same moment, after which one has promoted the other's copy |
| `BrowserRunner.FailureRemovesAnothersCopy` | internal/runtime/browserprofilematerialize/materialize.go:156-163 | a run of two such starts in which the second fails to unpack and removes the first one's copy |
| `BrowserRunner.OperatorReplacesCopy` | internal/app/lifecycle/browser.go:1383-1425 | a run in which an operator removes and replaces a copy in use, after which its start has promoted the operator's |
| `BrowserRunner.CleanupExactly` | internal/app/lifecycle/browser.go:1631-1733 | a start that ran to its end has asked for clean-up exactly when it had a profile and the answer was neither "started" nor unknown |
| `XBio.BioStore.ApplyXBioChange` | internal/app/lifecycle/browser.go:710-872 | every check before the run, and the new state for each outcome |
| `XBio.RequestLeaves` | internal/app/lifecycle/x.go:83-167 | when a request is refused, and otherwise the blocked task, the pending approval and the stored request that it adds |
| `XBio.ApplyLeaves` | internal/app/lifecycle/browser.go:710-872 | the run with the next attempt number, and the task status and record that each outcome leaves |
| `XBio.URLMatchesExact` | internal/app/lifecycle/browser.go:1109-1117 | a URL is on a domain if and only if the last labels of its host are the labels of the domain |
| `XBio.OnlyToX` | internal/app/lifecycle/browser.go:710-853 | a change is only ever taken to a host under `x.com` or `twitter.com` |
| `XBio.CompletedOnce` | internal/app/lifecycle/browser.go:752-757 | over every serial history a task is completed at most once more often than it was reopened |
| `XBio.CompletedExactly` | internal/app/lifecycle/browser.go:710-853 | over every history a task was completed if and only if some step of it applied a change with a verified X session, a URL on its host, that task's own approved approval and a successful driver |
| `XBio.CompletionHasStep` | internal/app/lifecycle/browser.go:710-853 | each recorded completion is traced to the one step that recorded it, with all of this holding at that moment |
| `XBio.AttemptsIncrease` | internal/app/lifecycle/browser.go:936-942 | attempt numbers strictly increase per task |
| `XBio.AppliesStoredRequest` | internal/app/lifecycle/x.go:169-203 | the command built from an approval has the session, URL and trimmed bio of its request |
| `XBio.ApprovedRequestApplies` | internal/app/lifecycle/x.go:83-241 | over every history an approved stored request always yields a command, with its trimmed bio, which is not blank |
| `XBio.SendsApprovedBio` | internal/app/lifecycle/x.go:83-241 | whatever `odin x bio apply` hands to the driver is the trimmed bio stored at request time |
| `XBio.RequestedApprovedDone` | internal/app/lifecycle/x.go:83-203 | the whole way, for every ready session, bio and URL: request, approval and a successful driver send the trimmed bio once and complete the task |

## Left out

- HTTP routing, JSON and HTML rendering, webhooks, push notifications, reverse proxying: transport and presentation only.
- Launching drivers, browsers and sendmail, the GitHub client: outside processes; their outcomes are arguments of the steps.
- Symbolic links, file modes, tar and gzip bytes, and crash recovery in the middle of a file write: path reasoning is lexical, a registry write is one step.
- Liveness: that a lock waiter is eventually served, or that a lease is eventually renewed, is not stated.
- Unicode normalisation and case folding beyond one character at a time.
- Titles, summaries, severities and recommended actions of queue entries, and `reviewqueue.Project`'s counters: easy functions of single rows.
- Task follow-ups after an approval is resolved (blocking or requeueing the task, sealing wake packets, resuming a prepared transfer).
- The fixture runner with its supervisor (`startBrowserSessionRunnerWithSupervisor`) appears only as an outside change of a runner's status; it has no managed profile.
- `proveBrowserSession`, `envWithOverride`, the device and session endpoints of the mobile API: independent checks or single loops that would only add easy members.
- Work items that the goal runner creates under other keys, and blockers that others record on a goal.
- Paths.Rel: only absolute bases are modelled, because all three callers pass one; `filepath.Rel` from a relative base is not.
- GoalReview.DecidedOncePerOpening: excludes overlapping reviews of the same goal, because it fails for them (GoalReview.ConcurrentReviewsDecideBothWays); GoalReview.DecisionsAccounted covers every run.
- EmailActions.IntakeDecidedOnce: excludes overlapping presentations for the same item, because it fails for them (EmailActions.ConcurrentLinksDecideTwice); EmailActions.DecisionsAccounted covers every run.
- ArtifactReview.LeavesQueueOnce: excludes overlapping reviews of the same artifact, because it fails for them (ArtifactReview.ConcurrentReviewsChangeTwice); ArtifactReview.ChangesAccounted covers every run. Review time, reviewer, reason and follow-on columns are not modelled.
- ArtifactReview.OneOutputPerRequest: excludes overlapping reviews of the same request, because it fails for them (ArtifactReview.ConcurrentReviewsExecuteTwice); ArtifactReview.OutputsAccounted covers every run.
- ArtifactReview.ReviewOutcome: a repeated review rewrites the review's time and reason; those columns are not part of the compared state.
- XBio.CompletedOnce: stated for applications one at a time; two concurrent applications of one approval, which could send or complete it twice, are not modelled. Rows are never deleted.
- ProbeCache.FallbackExactly: models the 10 s limit of a background collection; the 3 s limit of a request's own collection is not modelled, since all it does is to make that collection fail, which may happen here at any time.
- BrowserRunner.CopiesStayOwn: excludes, for the directory of the copy alone, starts that find it absent at the same moment and operator commands that change it while a start uses it, because it fails for them (BrowserRunner.CollisionPromotesAnothersCopy, BrowserRunner.OperatorReplacesCopy); BrowserRunner.WrongPromotionsAccounted covers every run. Unpacking is one step; a start that dies while unpacking leaves no directory here.
- BrowserRunner.PromotedItsOwn: the same exclusions, for the directories that the start unpacked into; BrowserRunner.WrongPromotionsAccounted covers every run.
- SkillRegistry.Invocation.Invoke: the recorded event and what the handler returns are not modelled.
- Registry file errors: a failed load, write or reload is one `Fault`; `Create`'s answer when the file exists but the item does not, and `Delete`'s not-found answer when the file is gone already, are not modelled.
- An X bio request is several store calls in the source (a task, then its block with the approval and the request); here it is one step, so a task left behind by a failure between them is not modelled.
- Locks.AcquireBootstrapLock: without a timeout the loop need not end, so an iteration that ends it is a precondition; with one, Locks.AcquireWithTimeout needs none.
- SkillRegistry.CreateOutcome: for keys without white space around them; a key that has some never passes the validation of a specification.
- Backfill.EveryTaskBound, Backfill.ReconcileExact: projects are assumed to have distinct keys, as the table's unique key demands, and a task's project to exist.
- EmailToken.VerifyInvertsSign: claims are Unicode text; strings with invalid UTF-8, which JSON would alter, are not modelled.
