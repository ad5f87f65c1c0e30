# Reduta contest engine: a Dafny model

Reduta runs capture-the-flag contests. Teams solve challenges, the store writes a ledger of score events and keeps a
scoreboard row per team beside it, and around that sit unlock rules, schedules, a rate limiter, bulk actions with undo,
a challenge library, import and export, plugins, instances, a cached scoreboard and a websocket hub. This project
models that engine and proves what it keeps over whole runs.

`dafny verify dfyconfig.toml` checks everything.

## How it is laid out

| files | what they hold |
|---|---|
| `Common`, `Text`, `Sorting`, `Permutations` | options and results, trimming and hexadecimal, ORDER BY and rearrangements |
| `Ledger`, `LedgerFacts`, `LedgerInvariant`, `LedgerStore`, `LedgerRuns` | tables and transactions, the store class proved to perform them, the invariant, runs |
| `LedgerEffects`, `LedgerHistory`, `UuidTexts` | what each transaction does on the rows themselves, what the tables say about the run behind them, which texts name an id |
| `Cancellation`, `CancellationReads` | an award followed by its reversal leaves no trace a reader can see |
| `Interleaving*` | the same transactions statement by statement under READ COMMITTED, with challenges deleted among them |
| `Scoreboard`, `Series`, `Gating`, `Unlock`, `Schedule`, `ChallengeGate` | everything that reads the tables to rank, chart and gate |
| `ScoreboardRows`, `SeriesMeaning`, `GateMeaning` | what a row, a line and a verdict say about the run |
| `RateLimit`, `RateLimitTight` | the fixed-window limiter and its exact bound |
| `Bulk`, `BulkEffects`, `BulkRuns`, `BulkRaces` | bulk actions, what each does column by column, snapshots, undo, and undo in its two steps |
| `Import`, `ImportFacts`, `ImportEffects`, `Export`, `ExportEffects`, `RoundTrip`, `RoundTripOrder` | import as an upsert by title, export, what each leaves or shows, the round trip and its order |
| `Flags`, `Library`, `LibraryEffects`, `LibraryRuns` | flag checking, revisions, clones, embedding |
| `Koth`, `Instances`, `ScoreCache`, `ScoreCacheRuns`, `ScoreCacheCover`, `ScoreCacheWhole`, `Hub` | the concurrent protocols |

Code that changes tables or memory in steps is a class or a method with a loop, proved against a specification
function; the theorems are about that function and about sequences of calls. A call that fails in the database rolls
back and changes nothing, so a run is a sequence of the calls that did not.

## What the proofs found

* **Two teams' overlapping first solves can leave the board above the ledger.** Both can count one correct submission,
  both then add the first-blood bonus to `total`, and the second bonus row is dropped by its conflict clause
  (`internal/store/store.go:385-394`). The board is the ledger plus exactly those bonuses (`InterleavingTheorems.AtRest`,
  `InterleavingBonus.DriftIsBonus`). Some schedule of given calls does this iff two of them are rivals, that is solves of
  one challenge by two teams with a bonus, and name the challenge and event alike (`InterleavingExact.DriftPossibleIff`).
* **Rivals that spell the challenge id differently can both write a first-blood row**, because the reference holds the id
  as the URL spelled it. Again some schedule does it iff there are such rivals (`DoublePossibleIff`). Neither happens while
  solves of one challenge do not overlap (`NoOverlapNoDrift`, `OneFirstBloodRow`), and solve rows are unique per challenge
  and team in every schedule (`AtMostOneRow`).
* **`block_completed` counts solved challenges that are no longer published** (`internal/store/gating.go:69-72`).
  `Gating.BlockCompletedExactly` is the exact meaning, `HiddenSolveCompletesBlock` an input where it differs from the name.
* **The challenge list and the submit gate disagree about a block of another event**: the list looks blocks up among
  the event's own, the gate by id alone. `ChallengeGate.GatesDifferExactly` says exactly when: the challenge's own schedule
  and rule let it through and the foreign block's do not. It is then listed as open and refused, never the reverse.
* **Bulk undo does not restore `schedule`** although it accepts jobs that set it
  (`BulkRuns.ScheduleSurvivesUndo`).
* **Two overlapping undos of one job can both succeed**, because `undone` is read before the transaction and not again in
  it (`internal/store/library.go:493-505`). The later replay overwrites what a bulk action did in between
  (`BulkRaces.OverlapLosesAction`). Every replay of a run acts like an undo in one transaction iff none follows another
  replay of its job with a row of the snapshot changed since (`ActAsUndosIff`).
* **The limiter lets through at most `(k+1)*max(limit,1) - 1` calls in a closed interval of `k >= 1` windows**, one
  fewer than counting buckets suggests, and that is reached (`RateLimitTight.BoundIsReached`).
* **A dry-run import miscounts exactly when a title missing from the event appears twice in the file**
  (`ImportFacts.DryRunIsExactUnless`).
* **An imported flag of nothing but padding is kept**, where the library and the challenge editor skip it, and any other
  such text then matches it (`ImportEffects.BlankFlagIsKept`).
* **Importing a `?files=meta` export back into its event empties every file** (`RoundTrip.ReimportIntoSameEvent`).
* **The cached scoreboard can be stale for two seconds**, also with one request after the other. Every cached page is
  current or about to be dropped throughout a run, handlers overlapping and Redis calls failing as they like, iff none of
  three things happens (`ScoreCacheCover.CoveredThroughoutIff`): a reader writes a page that has changed since its query, a
  commit changes a page cached under another spelling of the event id than its own request used, or the drop of a changed
  page fails, each with no other drop of that page to come. `OverlapGoesStale`, `SpellingGoesStale` and
  `FailedDropGoesStale` show one each. With whole requests and Redis working only the second is possible
  (`ScoreCacheWhole.FreshThroughoutIff`), and with one spelling per event none (`OneSpellingIsFresh`).
* **The order of an import survives every second export iff the titles, hashes and files are clean and each challenge is
  created strictly after the one before it** (`RoundTripOrder.SurvivesIff`, `TiesLoseOrder`). Rows of one instant come back
  in some order (`RoundTrip.CleanRoundTripsInSomeOrder`).
* **A failed count of running instances reads as zero** (`internal/httpserver/instances.go:110`). A count that fails while
  there is room does no harm. With `p` creators past the count at once and `f` counts failing at a full cap, exactly the
  numbers up to `InstanceMax - 1 + p + f` can be reached (`Instances.ReachableIff`).

## Model

| member | source | states |
|---|---|---|
| LedgerStore.Store.RecordSolve | internal/store/store.go:350-412 | the transaction with its conflict clauses reaches the state and answer of the specification that has none, and keeps the invariant; a repeat changes nothing and is reported as already solved |
| LedgerStore.Store.WriteSolve | internal/store/store.go:358-407 | past the unique submission: one submission, one solve row, the bonus row exactly for first blood, and the board up by their sum and one solve |
| LedgerStore.Store.WriteScores | internal/store/store.go:377-394 | the two ledger inserts of a solve write exactly the rows whose points make up the total |
| LedgerStore.Store.InsertScoreEvent | internal/store/store.go:377-383 | ON CONFLICT DO NOTHING: a taken (event, source, ref) leaves the ledger alone, a free one gets the row |
| LedgerStore.Store.UpsertEntry | internal/store/store.go:396-405 | the board row of one team moves by the given amounts, created from zero if missing; no other row moves |
| LedgerStore.Store.RecordWrong | internal/store/store.go:339-345 | a wrong submission touches neither ledger nor board |
| LedgerStore.Store.PluginAward | internal/store/plugins.go:71-99 | idempotent by (event, source, ref): applied exactly once, board moves with the ledger, invariant kept |
| LedgerStore.Store.DeletePluginAward | internal/store/plugins.go:102-125 | removes the one row of the key and its points from the team that had them; false and no change if there is none |
| LedgerStore.Store.DeleteChallengeRows | internal/store/library.go:436-441 | deleting challenges cascades to their submissions and leaves ledger and board alone |
| LedgerEffects.FirstSolvePays | internal/store/store.go:370-407 | the first solve of a challenge is told first blood, answered its points plus the bonus if positive, adds the solve row and for a positive bonus the first-blood row, and moves the team's board row by that sum, one solve and its last solve time |
| LedgerEffects.LaterSolvePays | internal/store/store.go:370-407 | a solve after another team's is not, is answered its points alone and adds one row |
| LedgerEffects.OtherSolvesPayNothing | internal/store/store.go:358-368 | a repeat is told so, a solve that names no challenge, event or team fails, and both change nothing |
| LedgerEffects.WrongIsOnlyRecorded | internal/store/store.go:339-345 | a wrong submission adds itself, or fails when it names nothing |
| LedgerEffects.AwardPaysOnce | internal/store/plugins.go:71-99 | an award whose event, source and reference are in the ledger changes nothing; otherwise it adds its row and its points |
| LedgerEffects.RevokeTakesBack | internal/store/plugins.go:102-125 | a reversal removes that one row from its place and its points from the team that had them |
| LedgerEffects.RevokeOfNothing | internal/store/plugins.go:110-114 | without such a row it answers false and changes nothing |
| LedgerEffects.EditsSetOneColumn | internal/store/library.go:394-412 | setting state or block sets that column of the listed challenges and touches nothing else |
| LedgerEffects.ChallengesComeAndGo | internal/store/library.go:436-441 | a new id never repeats an old one; a delete takes exactly the listed challenges and their submissions |
| LedgerEffects.TeamsComeAndGo | internal/httpserver/teams.go:149-178 | a team is on an event's roster once; taking it off leaves the others and its points |
| UuidTexts.CanonicalNamesItself | internal/store/store.go:361 | an id in canonical form names itself |
| UuidTexts.SpellingsAgree | internal/store/store.go:361 | a hyphen, a brace or the case of a letter makes no difference to the id a text names |
| UuidTexts.NamedIsCanonical | internal/store/store.go:361 | whatever text names an id, the id is in canonical form |
| UuidTexts.StrangersNameNothing | internal/store/store.go:361 | a text with any other character names none |
| LedgerInvariant.SolveKeysFree | internal/store/store.go:377-392 | when a solve passes the unique submission, neither of its ledger keys is taken, so its conflict clauses never fire in sequential runs, cascading deletes included |
| LedgerInvariant.MarkPersists | db/migrations/0002_core.up.sql:60-72 | a challenge once solved stays marked, by a correct submission or by its id being gone for good, through every transaction |
| LedgerInvariant.RevokeProjects | internal/store/plugins.go:110-123 | a reversal takes out of the board exactly what it takes out of the ledger, and never a solve |
| LedgerInvariant.Preserved | internal/store/store.go:350-412 | every transaction keeps: board equals ledger, keys unique, one correct submission per challenge and team, references settled |
| LedgerFacts.SolveRefInjective | internal/store/store.go:381 | a solve reference determines the challenge spelling and the team |
| LedgerFacts.RefsDiffer | internal/store/store.go:381-390 | solve and first-blood references never collide |
| LedgerFacts.SourcesDiffer | internal/httpserver/plugins.go:108 | no plugin source is the core source |
| LedgerRuns.ScoreboardEqualsLedger | internal/store/store.go:350-412 | after any run from an empty contest, board points are the sum of the team's ledger rows and board solves their number of solve rows, missing rows reading as zero |
| LedgerRuns.FirstBloodIsFirst | internal/store/store.go:370-374 | of the calls that solve a challenge, exactly the first to commit is told first blood |
| LedgerRuns.CountComesFromSolve | internal/store/store.go:370-374 | a challenge has correct submissions only because some call of the run solved it |
| LedgerHistory.BonusGoesToTheFirst | internal/store/store.go:370-407 | in any run, of the committed solves of a challenge the first and no other is paid the bonus, and each its points |
| LedgerHistory.CoreRowsAreEarned | internal/store/store.go:377-392 | after any run the core's ledger rows are exactly the solve rows of the committed solves and the bonus rows of the first ones with a bonus |
| LedgerHistory.LastIsLastSolve | internal/store/store.go:396-405 | after any run the board's last solve is the time of the team's last committed solve in the event, and empty without one |
| LedgerHistory.StandingIffAccepted | db/migrations/0002_core.up.sql:60-72 | after any run a team's correct submission is there iff it was committed and its challenge still exists |
| Cancellation.AwardThenRevokeCancels | internal/store/plugins.go:71-125 | removing an applied award and its later reversal from a run, with the reference otherwise unused in between, leaves the same tables but for zero board rows, and every other call gets the same answer |
| CancellationReads.CancelledAwardIsInvisible | internal/store/plugins.go:102-125 | the ledger, the ranking, the possible charts and every team's gate state are the same with and without the cancelled pair |
| InterleavingRuns.RunKeeps | internal/store/store.go:350-412 | every schedule of statements of any number of transactions, aborts and deletes of challenges included, keeps the concurrent invariant |
| InterleavingRuns.RemoveKeeps | internal/store/library.go:436-441 | a delete of challenges committed among the scoring transactions keeps the concurrent invariant: it waits for their pending submissions and moves neither ledger nor board |
| InterleavingTheorems.AtRest | internal/store/store.go:385-405 | whenever no transaction is open, each team's board points are its ledger sum plus its drift, and its solves are exact |
| InterleavingBonus.DriftIsBonus | internal/store/store.go:385-394 | a committed call drifts by zero or by its first-blood bonus; by the bonus exactly when it was told first blood and no row of its bonus is in the ledger, and then another team's committed row holds the reference |
| InterleavingTheorems.AtMostOneRow | db/migrations/0002_core.up.sql:72-84 | in every schedule the ledger holds at most one solve row per challenge and team in any spelling, and one first-blood row per event and reference |
| InterleavingDrift.NoOverlapNoDrift | internal/store/store.go:358-405 | if solves of the same challenge never overlap, drift is zero and the board is the visible ledger at every point |
| InterleavingFirstBlood.OneFirstBloodRow | internal/store/store.go:385-391 | if solves of the same challenge never overlap, the ledger never holds two first-blood rows for it, however its id was spelled |
| InterleavingWitness.OverlapDrifts | internal/store/store.go:385-394 | for any two rivals with one reference there is a schedule that leaves the later team exactly one bonus above its ledger |
| InterleavingWitness.OverlapDoublesFirstBlood | internal/store/store.go:385-391 | for any two rivals with different references the same schedule leaves two first-blood rows for the challenge, one per team |
| InterleavingCalls.NoRivalsNoDrift | internal/store/store.go:358-405 | with no two rivals of one reference among the calls, the board is the visible ledger at every point of every schedule, overlapping or not |
| InterleavingCalls.DoublingNeedsRivals | internal/store/store.go:385-391 | two first-blood rows of one challenge, in any schedule, come from two rivals with different references |
| InterleavingExact.DriftPossibleIff | internal/store/store.go:385-405 | some schedule of the given calls ends with a team's board off its ledger iff two of the calls are rivals with one reference |
| InterleavingExact.DoublePossibleIff | internal/store/store.go:385-391 | some schedule of the given calls ends with two first-blood rows for a challenge iff two of the calls are rivals with different references |
| InterleavingSerial.SerialIsTransactional | internal/store/store.go:350-412 | calls run one after the other statement by statement leave exactly the ledger, board and solves that the transactions do, for every sequence of calls |
| Scoreboard.Scoreboard | internal/store/store.go:427-437 | the scan numbers the limited ranking from 1, in order |
| Scoreboard.RankingIsTheOrder | internal/store/store.go:416-421 | the ranking is the only strictly ordered arrangement of the event's teams |
| Scoreboard.RankCountsTeamsAhead | internal/store/store.go:421-436 | a rank is one plus the number of teams strictly ahead |
| Scoreboard.SolveMovesOnlyTheSolverUp | internal/store/store.go:396-421 | a solve worth more than nothing moves the solver no further down and leaves everyone else's relative order |
| ScoreboardRows.BoardShowsTheRun | internal/store/store.go:414-437 | after any run: ranks from 1, each row a different rostered team with its name, the points and solves of its ledger rows and the time of its last committed solve, no row above one it should be below, and a team left out only if the board is full of rows it is not above |
| ScoreboardRows.RowsInOrder | internal/store/store.go:421 | of two rows the upper has more points, or as many and an earlier last solve with none coming last, or both alike and the smaller name |
| Sorting.StringLessIs | internal/store/store.go:421 | the smaller name is a proper beginning of the other, or smaller where they first differ |
| Sorting.SortedUnique | internal/store/store.go:421 | a list has at most one strictly sorted arrangement |
| Series.IndexTeams | internal/store/series.go:33-42 | the index map sends each selected team to its position |
| Series.EarliestTime | internal/store/series.go:70-80 | t0 is the least time of the scanned rows, and one of them |
| Series.TopTeams | internal/store/series.go:23-42 | the teams with positive points, each once, in board order, cut at the limit |
| Series.LedgerRows | internal/store/series.go:55-58 | exactly the selected teams' ledger rows of the event, in time order |
| Series.ScoreboardSeries | internal/store/series.go:22-96 | each line of the selected teams is (t0, 0) followed by the exact prefix sums of the team's own rows in time order |
| Series.DrawRows | internal/store/series.go:88-94 | every row extends the line of its own team and no other |
| Series.SeriesEndsAtBoard | internal/store/series.go:22-96 | on one consistent state at most topN lines, each starting at zero, running in time order and ending at its team's board points; a scored team is shown, or the chart is full of teams it does not lead |
| SeriesMeaning.ChartShowsTheTop | internal/store/series.go:23-42 | exactly teams with points are charted, in the order of points and earlier last solves, and none is left out that beats one shown |
| SeriesMeaning.LinesFollowTheLedger | internal/store/series.go:55-96 | each line starts at zero and moves at the time of each of the team's ledger rows by its points; all lines start at the earliest time drawn |
| Unlock.ProgressKeeps | internal/core/unlock/unlock.go:37-69 | progress keeps true a rule whose predicates lie under an even number of nots, and false one under an odd number |
| Gating.TeamGateState | internal/store/gating.go:66-115 | the state lists the team's solved challenges, its board points, and solved and published counts per block, each of the three queries reading the tables as they are when it runs |
| Gating.SolvedOnce | internal/store/gating.go:69-83 | no challenge is listed as solved twice |
| Gating.BlockCompletedExactly | internal/core/unlock/unlock.go:63-65 | block_completed holds iff the block has a published challenge and unsolved published ones are no more than solved unpublished ones, each count as of its own query |
| Gating.BlockCompletedMeansAll | internal/core/unlock/unlock.go:63-65 | if the team's solved challenges in the block are all still published, it says every published one is solved |
| Gating.HiddenSolveCompletesBlock | internal/store/gating.go:69-72 | a block counts as completed with a published challenge unsolved, when a solved one was hidden |
| Gating.UnlockIsStable | internal/core/unlock/unlock.go:37-69 | along any run of non-negative solves and awards with the clock moving on, a positive rule once true stays true and a negative one once false stays false, the queries of each reading seeing different moments of the run |
| GateMeaning.AllPasses | internal/core/unlock/unlock.go:39-45 | an `all` rule lets a submission through iff each of its rules would |
| GateMeaning.AnyPasses | internal/core/unlock/unlock.go:46-52 | an `any` rule does iff one of its rules would |
| GateMeaning.NotPasses | internal/core/unlock/unlock.go:53-54 | a `not` rule does iff its rule would have locked it out |
| GateMeaning.SolvedLeaf | internal/core/unlock/unlock.go:55-56 | `solved` holds iff the team committed a solve of that challenge in the event and the challenge still exists |
| GateMeaning.PointsLeaf | internal/core/unlock/unlock.go:57-58 | `team_points_gte` holds iff the team's ledger rows add up to that much |
| GateMeaning.CountLeaf | internal/core/unlock/unlock.go:59-60 | `solved_count_gte` holds iff that many of its solves stand |
| GateMeaning.AfterLeaf | internal/core/unlock/unlock.go:61-62 | `after` holds iff the instant has come |
| GateMeaning.BlockLeaf | internal/core/unlock/unlock.go:63-65 | `block_completed` on the verdict: an open challenge in the block, and no more open ones unsolved than solved ones not open |
| GateMeaning.EmptyLeaf | internal/core/unlock/unlock.go:66-67 | a rule that asks nothing is as good as none |
| Schedule.OpenAt | internal/core/schedule/schedule.go:28-71 | the bounded look-back decides the unbounded statement that some window, or some occurrence of one, covers t; empty and invalid schedules are open |
| Schedule.ScanWindow | internal/core/schedule/schedule.go:64-68 | scanning the occurrences of [t-dur, t] finds one iff some occurrence o at all has o <= t < o+dur |
| Schedule.ScanFinds | internal/core/schedule/schedule.go:64 | the scan returns exactly the occurrences in its interval |
| Schedule.DailyClosedForm | internal/core/schedule/schedule.go:64-68 | for DAILY with INTERVAL and COUNT (section 3.3.10 of RFC 5545) that is a div/mod closed form, overlapping windows included |
| Schedule.WindowOrderIrrelevant | internal/core/schedule/schedule.go:40-70 | the order of the windows does not matter |
| Schedule.WindowCovers | internal/core/schedule/schedule.go:45-81 | a window is open from its start for its duration, or for good without one; a DAILY one for its duration, or a day, from each of its occurrences, INTERVAL days apart and at most COUNT of them |
| ChallengeGate.Submit | internal/httpserver/submit.go:70-105 | not visible, closed, locked or through, in that order, with the schedule inherited from the block and both rules applied |
| ChallengeGate.ListItem | internal/httpserver/challenges.go:147-175 | left out when closed and hidden; otherwise locked, scheduled or open, a lock outranking a schedule |
| ChallengeGate.GatesDifferExactly | internal/httpserver/challenges.go:121-168 | a submission that passes is always listed as open; the two disagree exactly when the block is of another event, the challenge's own schedule and rule let it through, and the block's do not |
| ChallengeGate.GatesAgree | internal/httpserver/challenges.go:147-168 | with no block or a block of the event, a challenge is listed as open exactly when a submission at that instant passes |
| ChallengeGate.GatesDiffer | internal/httpserver/submit.go:80-86 | an unrestricted challenge in another event's block with a rule out of reach is listed as open and refused as locked |
| GateMeaning.VerdictMeans | internal/httpserver/submit.go:70-105 | not visible iff of another event or unpublished, otherwise not open iff its own or else its block's schedule covers the instant with no window, otherwise locked iff one of the two rules fails |
| GateMeaning.ListedMeans | internal/httpserver/challenges.go:147-175 | left out iff closed and not told to show, locked iff a rule fails, scheduled iff only closed, open iff neither |
| GateMeaning.ListedOpenIsPass | internal/httpserver/challenges.go:147-175 | given the same block, listed as open iff a submission passes |
| RateLimit.Limiter.Allow | internal/ratelimit/ratelimit.go:27-41 | the mutable buckets answer every call as the call history prescribes |
| RateLimit.KeysIndependent | internal/ratelimit/ratelimit.go:31-33 | a key's calls are treated as if nobody else called |
| RateLimit.PassesBounded | internal/ratelimit/ratelimit.go:27-41 | with a clock that never goes back, a key passes at most max(limit,1) calls in one instant and (k+1)*max(limit,1)-1 in a closed interval of k >= 1 windows |
| RateLimit.ResetsAfterOpening | internal/ratelimit/ratelimit.go:32-35 | in every history a key has a bucket iff some call of it opened one, and the bucket resets one window after the last call that did |
| RateLimit.LateCallPasses | internal/ratelimit/ratelimit.go:32-35 | a key's first call, or one more than a window after the call that last opened its bucket, is let through and opens a new one; an earlier one opens none |
| RateLimitTight.BoundIsReached | internal/ratelimit/ratelimit.go:27-41 | for every limit and every k up to the window's length in clock ticks some history passes exactly the bound |
| Bulk.Store.Snapshot | internal/store/library.go:472-490 | one entry per selected row, with its state, block and tags |
| Bulk.Store.BulkApply | internal/store/library.go:372-463 | the rows after the action, the affected count, and a job whose snapshot is of the rows before; nothing at all for an empty selection, an unknown action or a missing block |
| Bulk.Store.BulkUndo | internal/store/library.go:493-530 | replays the snapshot on the rows that still exist and marks the job; unknown jobs are not found, undone or deleting ones conflict |
| Bulk.Store.UndoTwice | internal/store/library.go:503-505 | a second undo of a job is refused; the tables are those after the first |
| Bulk.RestoredRow | internal/store/library.go:516-522 | replaying a snapshot gives each listed surviving row its state, block and tags back and touches no other row or column |
| BulkEffects.ActionDoes | internal/store/library.go:392-435 | after an action every selected row has the state, block or schedule it sets, the union of old and added tags each once, or the old tags not removed in their order; every other column and row is as before |
| BulkEffects.DeleteTakesRows | internal/store/library.go:436-441 | a delete takes exactly the selected rows, and its job undoes nothing |
| BulkEffects.ActionRecords | internal/store/library.go:382-451 | the job lists exactly the selected rows with their state, block and tags before; an impossible call leaves everything |
| BulkRuns.LastInFirstOutUndo | internal/store/library.go:372-530 | after any sequence of bulk calls, asking to undo each job in reverse restores state, block and tags of every surviving row; rows outside every selection never change |
| BulkRuns.ScheduleSurvivesUndo | internal/store/library.go:429-435 | a schedule set in bulk outlives the job's undo |
| BulkRaces.ActAsUndosIff | internal/store/library.go:493-530 | in any overlapping of undo calls and bulk actions, every replay does what an undo in one transaction would do there iff none follows another replay of its job with a row of the snapshot changed since |
| BulkRaces.SecondReplayOverlaps | internal/store/library.go:493-505 | if a job is replayed twice, the second call had read it when the first replayed it |
| BulkRaces.ReplaysBounded | internal/store/library.go:493-505 | a job is replayed no more often than the largest number of calls holding it at once |
| BulkRaces.ReplayRestores | internal/store/library.go:515-525 | whatever happened since the snapshot, after a replay no surviving row it lists differs from it, and the replay changes nothing iff none did |
| BulkRaces.OverlapLosesAction | internal/store/library.go:493-530 | for every undoable job and bulk action there is a schedule of two undos around the action that leaves the snapshot's state, block and tags, and the action's job beside them |
| Import.ConvertFlags | internal/httpserver/importexport.go:77-93 | the loop keeps, in order, the flags that convert: a hash wins over a value, undecodable or empty ones are skipped |
| Import.ConvertFiles | internal/httpserver/importexport.go:55-75 | the loop keeps the files that convert and reports one problem for each blank name, bad base64 or oversized file |
| Import.Convert | internal/httpserver/importexport.go:191-211 | one challenge with its defaults filled in |
| Import.Event.Write | internal/httpserver/importexport.go:212-240 | the store calls for one challenge amount to one upsert by title |
| Import.Event.UpdateChallengeContent | internal/store/importexport.go:27-44 | content changes; title, flags, files, position and creation time do not |
| Import.Event.CreateChallengeWithFlags | internal/store/importexport.go:66-94 | one new row at the end, with the flags and no files |
| Import.Event.Import | internal/httpserver/importexport.go:184-244 | a real import is the fold of upserts and counts as it goes; a dry run changes nothing and counts against the untouched table; problems in file order |
| ImportFacts.ImportedRow | internal/httpserver/importexport.go:212-240 | with unique titles each title ends with the content of its last entry and its last non-empty flags and files, keeping id, position and creation time |
| ImportFacts.ImportTwice | internal/store/importexport.go:11-12 | importing a file again changes nothing, even with titles repeated inside the file |
| ImportFacts.DryRunIsExactUnless | internal/httpserver/importexport.go:214-228 | dry and real totals are equal, and the plans are equal iff no title missing from the event is repeated in the file |
| ImportFacts.PlanCountsRows | internal/httpserver/importexport.go:215-217 | the created count is the number of rows added |
| ImportEffects.ImportCreates | internal/httpserver/importexport.go:191-222 | a title the event has not got becomes a last row with the file's content, flags and files, misc, draft and 100 static points where the file says nothing |
| ImportEffects.ImportUpdates | internal/httpserver/importexport.go:223-240 | a title it has keeps id, place and creation time, gets the file's content, and its flags and files are replaced iff the file brings good ones |
| ImportEffects.UntitledIsSkipped | internal/httpserver/importexport.go:185-188 | a challenge without a title is reported and changes nothing |
| ImportEffects.ImportedFlagsAccept | internal/httpserver/importexport.go:77-93 | imported flags accept a submission iff it matches one typed in the file, in the case unless told otherwise, or the digest of one, barring hash collisions |
| ImportEffects.BlankFlagIsKept | internal/httpserver/importexport.go:89-92 | a flag of nothing but padding is stored and matched by any such text |
| ImportEffects.FileFates | internal/httpserver/importexport.go:55-75 | which files are refused and why, in the order of the checks, and what is stored of the others |
| ImportEffects.OneMoreFile | internal/httpserver/importexport.go:197-211 | each file is stored or reported, never both, in order |
| ImportEffects.PlanCountsTitles | internal/httpserver/importexport.go:212-228 | created plus updated is the number of challenges with a title |
| Export.Export | internal/httpserver/importexport.go:114-142 | the challenges in list order, each written out with its flags in some order and its files by name |
| Export.WriteFiles | internal/httpserver/importexport.go:126-137 | every file once, ordered by name, with or without its bytes |
| ExportEffects.ExportShowsTheTable | internal/httpserver/importexport.go:95-142 | every challenge once, by position and then creation time, with all its columns, each flag as its digest and never as text, each file once by name, with its bytes or without |
| RoundTrip.ExportImportExport | internal/httpserver/importexport.go:95-244 | with rising creation times, export, import into an empty event, export again: the same challenges in the same order iff titles are distinct and non-empty, category, state and scoring non-empty, hashes non-empty, file names and types trimmed and non-blank, files within the cap; file lists identical when names are distinct |
| RoundTrip.CleanRoundTripsInSomeOrder | internal/store/store.go:268 | for any creation times, the challenges of a clean event all come back and nothing else does |
| RoundTripOrder.SurvivesIff | internal/store/store.go:268 | for any creation times, every second export equals the first, in order, iff the event is clean and the times given to the file's challenges strictly rise |
| RoundTripOrder.TiesLoseOrder | internal/store/store.go:268 | where a clean event's challenge is created no later than the one before it in the file, some second export has another order |
| RoundTrip.ReimportIntoSameEvent | internal/httpserver/importexport.go:113-137 | a clean event's export imported back changes nothing but the order of flags and files; a metadata-only export empties the files |
| Text.HexRoundTrip | internal/httpserver/importexport.go:120 | decoding undoes hexadecimal encoding |
| Text.HexDecodes | internal/httpserver/importexport.go:83 | exactly even numbers of hexadecimal digits decode |
| Text.HexIgnoresCase | internal/httpserver/importexport.go:83 | in either case to the same bytes |
| Text.SpacesAre | internal/core/flags/flags.go:15 | padding is the 25 characters Unicode calls white space |
| Flags.Verify | internal/core/flags/flags.go:35-49 | true iff some flag's hash is that of the submission normalised as the flag asks |
| Flags.TrimSpaceOnly | internal/core/flags/flags.go:15 | trimming is determined by its result: any padding around a bare text is removed, nothing else |
| Flags.FormIs | internal/core/flags/flags.go:14-20 | the case-sensitive form of a text is the text without padding, the other one that in small letters |
| Flags.SameForm | internal/core/flags/flags.go:14-20 | two texts have one form iff without padding they are equal, or, where case is ignored, equal letter by letter up to case |
| Flags.VerifiesCores | internal/core/flags/flags.go:35-49 | a submission passes iff some digest is that of its text without padding, in small letters for a flag that ignores case |
| Flags.NormalizeAbsorbs | internal/core/flags/flags.go:14-20 | the stored form of a flag with padding around it normalises to itself |
| Library.HashedFlags | internal/httpserver/library.go:22-36 | blank flags are skipped, the others hashed under their own case rule, in order |
| Library.Store.CreateLibraryChallenge | internal/store/library.go:58-97 | a taken slug conflicts and changes nothing; otherwise the challenge starts with exactly revision 1 |
| Library.Store.NewRevision | internal/store/library.go:175-204 | appends revision current_rev + 1; the insert's key conflict never happens |
| Library.Store.CloneChallenge | internal/store/library.go:207-220 | a new challenge whose first revision is the source's current one; an unknown source is not found |
| Library.Store.EmbedFromLibrary | internal/store/library.go:225-271 | copies the asked-for or current revision into the event and decodes its flags |
| LibraryEffects.CreateStarts | internal/store/library.go:58-97 | a new challenge with the given columns and one revision, or nothing if its id or the organisation's slug is taken |
| LibraryEffects.ReviseAdds | internal/store/library.go:175-204 | the revision after the current one becomes the current one; other columns and rows stay |
| LibraryEffects.CloneCopies | internal/store/library.go:207-220 | organisation, category, tags and current revision of the source, the title given or the source's with (copy) |
| LibraryEffects.EmbedCopies | internal/store/library.go:225-271 | a draft with the library's title, category and tags and the asked-for revision's content, or nothing if there is none |
| LibraryEffects.CopiesMirror | internal/store/library.go:225-271 | after any run each embedded copy still shows the title, category and tags of its challenge and the content of the revision it pins |
| LibraryRuns.WrittenOnce | internal/store/library.go:174-204 | in every run revisions are exactly 1 to current_rev, and revisions and embedded copies never change later |
| LibraryRuns.MeantIs | internal/core/flags/flags.go:14-20 | hashing forms agree iff the submission is the typed flag, up to padding and, only where the author said so, case |
| LibraryRuns.EmbeddedAcceptsOriginals | internal/core/flags/flags.go:35-49 | after hashing, any clones, an embed and anything later, a submission is accepted iff it is one of the non-blank flags its author typed, under that flag's normalisation, barring hash collisions between the two |
| LibraryRuns.CloneKeepsOrigin | internal/store/library.go:212-219 | a clone goes back to the same plain-text flags as the revision it copied |
| Koth.Plugin.Hooks | cmd/koth-plugin/main.go:60-88 | unsigned and duplicate deliveries launch nothing; a new signed tick launches one award if configured |
| Koth.OneLaunchPerDelivery | cmd/koth-plugin/main.go:72-85 | in any sequence of deliveries a delivery id launches at most one award |
| Koth.LaunchesWhen | cmd/koth-plugin/main.go:60-88 | a delivery launches an award iff the plugin is configured, it is a signed minute tick, and no signed delivery before it had its id |
| Koth.FivePointsPerTick | cmd/koth-plugin/main.go:91-107 | with calls lost, repeated, reordered and mixed with anything else, the holder gains exactly 5 points per distinct tick whose call reached the core |
| Koth.PointsPerTickDelivered | cmd/koth-plugin/main.go:60-107 | end to end the holder gains at most 5 points per distinct signed tick delivered, and 5 per launched tick iff each of those reached the core |
| Instances.Store.CreateInstance | internal/store/instances.go:62-73 | inserts unless the team already runs one for the challenge, which conflicts |
| Instances.Store.ExtendInstance | internal/store/instances.go:75-87 | moves exactly one running row by the extension while it has any left; otherwise not found and no change |
| Instances.Store.DestroyInstance | internal/store/instances.go:89-96 | afterwards the team runs none for the challenge; true iff it did |
| Instances.Store.Create | internal/httpserver/instances.go:101-128 | with no other call in between: the active instance, a refusal at the cap, or one new row |
| Instances.AlwaysUnique | internal/store/instances.go:75-87 | in every run at most one running instance per challenge and team, and expiry is the granted one plus extensions times TTL with at most 2 extensions |
| Instances.InsertAddsOne | internal/store/instances.go:62-73 | a new instance runs unextended until its time, unless its id is used or its team runs one |
| Instances.ExtendMovesOne | internal/store/instances.go:75-87 | the team's running instance moves by one TTL, twice at most; the others stay |
| Instances.DestroyStopsOne | internal/store/instances.go:89-96 | the team's running instance stops and keeps its row; the others stay |
| Instances.CallAlone | internal/httpserver/instances.go:101-128 | the statements of one call with nothing in between do what the uninterrupted handler does: nothing if one runs or the cap is full, otherwise one new row |
| Instances.CapUnderRaces | internal/httpserver/instances.go:110-117 | with at most p creators past the count at once, at most InstanceMax - 1 + p instances run, plus one for each count that failed while the cap was full |
| Instances.ReachableIff | internal/httpserver/instances.go:110-117 | for a cap and p of at least 1, exactly the numbers up to InstanceMax - 1 + p + f are reached by runs with at most p creators past the count and at most f counts failing at a full cap |
| Instances.CapIsReached | internal/httpserver/instances.go:110-117 | for every cap and p at least 1 some run in which no count fails reaches InstanceMax - 1 + p |
| Instances.NoCapWhenCountsFail | internal/httpserver/instances.go:110-111 | when counts may fail at a full cap, any number of instances can run even with one creator at a time |
| ScoreCache.ChangesAreAnnounced | internal/httpserver/server.go:195-201 | a page changes only through a transaction of its event whose handler ends in scoreChanged |
| ScoreCache.LedgerChangesAreAnnounced | internal/httpserver/submit.go:157-160 | a solve, award or reversal is announced iff it writes to the ledger |
| ScoreCache.OthersAreNot | internal/httpserver/teams.go:149-178 | of the others only roster changes are |
| ScoreCache.PageIsTheTop | internal/httpserver/scoreboard.go:24-26 | a cached page is the first hundred rows of the ranking |
| ScoreCache.HitUntil | internal/httpserver/scoreboard.go:26-46 | an entry is shown under its own key for two seconds |
| ScoreCache.ChangeKeepsFreshIff | internal/httpserver/server.go:196-199 | after a change every cached page is still fresh iff the page did not change or no other spelling of the event id is cached |
| ScoreCache.Server.HandleScoreboard | internal/httpserver/scoreboard.go:14-50 | for any spelling: a hit, a fresh page that is then cached, or an error for a malformed id; only the default page touches the cache; a fresh cache stays fresh |
| ScoreCache.Server.HandleChange | internal/httpserver/server.go:195-201 | commits, and drops the entry under the request's own spelling if the handler announces; a fresh cache stays fresh iff no entry was missed |
| ScoreCacheRuns.HitsArePastPages | internal/httpserver/scoreboard.go:26-46 | in any overlapping of handlers and failing of Redis calls, a hit is the page of a committed state, set less than two seconds before |
| ScoreCacheCover.StepCoveredIff | internal/httpserver/scoreboard.go:26-46 | if every cached page is current or about to be dropped, one step of any handler keeps it so iff it is not a late write, a commit that misses a changed page's entry, or the failed drop of a stale one, with no drop of that entry to come |
| ScoreCacheCover.CoveredThroughoutIff | internal/httpserver/scoreboard.go:26-46 | in any overlapping of handlers and failing of Redis calls, every cached page is current or about to be dropped throughout iff none of those three occurs |
| ScoreCacheCover.HitsAreCurrent | internal/httpserver/scoreboard.go:26-31 | where none occurs, every hit whose key nobody is about to drop equals a fresh query |
| ScoreCacheCover.OverlapGoesStale | internal/httpserver/scoreboard.go:35-46 | a change between a reader's query and its write is a late write, and the hit is stale until the entry expires |
| ScoreCacheCover.SpellingGoesStale | internal/httpserver/plugins.go:115-134 | an entry under another spelling of the event id than the writer's survives the change, whichever of the two is canonical |
| ScoreCacheCover.FailedDropGoesStale | internal/httpserver/server.go:196-199 | with one spelling and nothing overlapping, a failed drop leaves a stale hit until the entry expires |
| ScoreCacheWhole.FreshThroughoutIff | internal/httpserver/scoreboard.go:22-46 | in a run of whole requests every hit equals a fresh query throughout iff no change alters a page cached under a spelling other than its own, and that is when none of the three occurs |
| ScoreCacheWhole.OneSpellingIsFresh | internal/httpserver/scoreboard.go:22-46 | with one spelling per event every hit equals a fresh query, in every run of whole requests |
| Hub.Client.Offer | internal/ws/hub.go:52-57 | a queue below 32 takes the message, a full one drops it |
| Hub.Client.Pump | internal/ws/hub.go:86-97 | the writer takes the oldest message and writes it, or loses it with the connection |
| Hub.Rooms.Add | internal/ws/hub.go:27-34 | the client joins the room; other rooms are unchanged |
| Hub.Rooms.Remove | internal/ws/hub.go:36-45 | the client leaves, and a room left empty is no longer stored |
| Hub.Rooms.Broadcast | internal/ws/hub.go:49-58 | every member of the room is offered the message once, nobody else is touched, and what every client has heard still follows from what was done |
| Hub.DeliveredInOrder | internal/ws/hub.go:49-97 | written messages followed by the queue are a subsequence of those the client heard, and all of them iff no broadcast found the queue full and no write failed |
| Hub.HubDeliversInOrder | internal/ws/hub.go:27-97 | in any run of joins, leaves and broadcasts, what the client heard is exactly what was broadcast to its rooms while it was in them, so written plus queued is a subsequence of that, and all of it under the same condition |

## Left out

- RateLimitTight.BoundIsReached: stated for k up to the window's length in clock ticks, because two bursts need a tick between them; the upper bound has no such limit.
- ChallengeGate.GatesAgree: for blocks of the event; GatesDifferExactly has the exact condition for all blocks.
- RoundTrip.ExportImportExport: takes strictly rising creation times; RoundTripOrder.SurvivesIff has the exact condition on them.
- Statement failures: foreign-key errors, integer overflow of INT columns and lost connections are calls that roll back, so they are not part of a run; import and export assume no store error.
- Uuid input: hyphens and braces are accepted anywhere in an id, where Postgres accepts them at fixed places.
- The interleaved machine has the three scoring transactions and deletes of challenges, a delete being one step at its commit; other edits of challenges are in the sequential runs.
- Flags.NormalizeAbsorbs: lower-casing covers ASCII letters only, where the original lowers every letter Unicode gives a lower case.
- Text order is by character code, not by the database's collation.
- SELECT DISTINCT on tags keeps the first occurrence of each tag; the database may reorder them.
- Recurrences are DAILY with INTERVAL and COUNT; other RRULE parts, and truncation of the start to seconds, belong to the RRULE library.
- `parseISODuration`, `parseCTFd`, JSON and the 128 MiB limit on an import body.
- SHA-256 is a function parameter and base64 an encoding that decodes to its bytes; TeamFlag's HMAC is not modelled.
- `ResolveSelector` and the action names that map to one state change; selections arrive as ids.
- In BulkRaces a replay and a bulk action are one step each; they are transactions of several statements, and row locks order two replays of one snapshot.
- Difficulty, author, archiving and creator of library challenges; they are copied and never read by the modelled code.
- `scoring.Points`, hints, notifications, saved views, sessions, authentication, routing and the user interface.
