# Verification model of marunage

marunage collects items from a user's sources, plans which of them an agent session should work on,
dispatches them into sessions, and watches, reaps and completes those sessions. All of this meets in
one SQLite table of tasks that several processes write at the same time.

The project models that table as a map from row id to row, every SQL statement as one function on the
map (module `Tasks`), and proves properties of what is built on it:

- **Lifecycle.** `Dispatch` is `dispatchOne` as a step machine and as methods proved to follow it.
  `Lifecycle` interleaves any number of dispatchers, the planner, the watcher, the reaper and the human
  commands, with crashes; `LockExclusion` and `Sweep` prove the soft lock and the reaper's sweep over
  whole runs of it. `OrderlyExact`, `LockExact`, `Races` and `SweepExact` show exactly where the
  conditions of these end, and `ActorRuns` that the reaper, the watcher and the planner, as their own
  modules have them, are runs of the interleaved system.
  `RunAll` drains the queue, `Reaper` treats the warning text and an undisturbed sweep, `ReaperOverlap`
  the warnings of sweeps that overlap, `Completion` the sentinel protocol between a session's closing
  script and the watcher, `KVState` and `LoopLock` the lock around a loop's tick, `LoopRun` one whole
  iteration of the loop, and `Commands` the verbs done, fail, promote and reopen.
- **Planner.** `Planning` is the rule cascade and the ranking as functions, `Scoring` the chunked model
  calls with budget and cache, `Planner` the whole plan and its properties, `PlanRun` the methods that
  compute it in place, `ScoreParser` the alignment of the model's answer. `Persist`, `Tick` and
  `TickRows` write the decisions to the table, `Fixpoint` proves that a second tick changes nothing, and
  `DoneUpstream` shows where that stops being true; `TickThenPass` is about what the dispatcher pass
  after a tick starts. `PlanColumns` and `ScoringColumns` read the plan and the scoring pass column by
  column, without the functions that define them.
- **Smaller pieces.** `Prompt` (framing of untrusted fields), `Migrations`, `RotatingFile`, `Text` for the
  string functions they share, and `Collections` for sizes of sets.

A driver error may strike any statement of a repository method; such a statement then has no effect, and
the ghost field `faulted` records it. Postconditions under `!faulted` are the ones the code gives when its
store calls succeed. What else the surroundings answer (control directory, executor, clock, session
listing, rendering) is an argument of the methods.

## Conditions found on the way

- Lock exclusion needs more than that no two dispatchers are on one row at once. A dispatcher that loses
  the claim clears the row's lock (`internal/dispatch/dispatch.go:631-635`), and a row it listed long ago
  may be running by then. `LockExclusion.Serial` therefore asks that no call takes the lock of a running
  row; `Races.CallCanUnlockIff` says exactly which calls break the lock, and
  `Races.StaleListingDefeatsLock` is a run that ends with two running rows under one key.
- Lock exclusion also needs that nothing moves a row away from pending while a call with a key is past its
  claim and on the way to run it: the planner, done or fail would free its key (`Races.PlannerDefeatsLock`).
  Nor may the planner, a reopen or a clean make a row claimable again for a call that holds its lock while
  another row owns the key by now.
- And it needs that reopen and clean leave alone the rows with a key that the watcher's pass has listed and
  not yet come to: the pass settles such a row on its old listing while it is launched again, which frees its
  key (`Races.WatcherDefeatsLock`). `LockExclusion.Spoils` names these conditions and `LockExact.SpoilsIff`
  proves them exact; `LockExclusion.LeftAlone` is a simpler condition that is enough.
- The run theorems of `Lifecycle` and `Sweep` ask of the human commands only that reopen and clean leave alone
  rows on which a call holds a claim, and clean running rows; `OrderlyExact.OrderlyIff` proves this exact.
- Cleaning the session of a running row breaks the claim that running rows have real sessions; the exact
  condition is `Lifecycle.CleanSparesRunning`.
- A reopen during a reaper sweep can make the sweep fail a live session; the exact condition on the
  state is `SweepExact.CanMissIff`, and only commands on the row itself matter.
- A leftover `.exit_code` settles a re-dispatched row before its session has published; the exact condition
  is `Completion.NeverEarlyIff`.
- A candidate that is done upstream takes part in ranking once and is dropped as a duplicate the next time,
  so ranks of other rows move (`DoneUpstream.SecondTickMovesRank`). `Fixpoint.Calm`, the condition under which
  one tick is a fixpoint, is one-sided: it is enough, and other batches may be at rest too, such as one whose
  unsettled candidate has the last rank. Two ticks reach a fixpoint whatever is done upstream
  (`Fixpoint.ThirdTickChangesNothing`).
- Reaper sweeps that overlap may write the stuck warning more than once; the bound is the number of sweeps
  between their look and their write at one time, and it is reached (`ReaperOverlap`).
- Migrations survive interrupted opens exactly when their versions are strictly increasing
  (`Migrations.SurvivesDeathsIff`), and an appended token is recognised exactly when it has no separator
  inside (`Reaper.TokenRecognisedIff`).
- The table's CHECK on notes makes the insert of a candidate with malformed notes fail, and the tick goes on
  without it; `Fixpoint.OneRowEach` states this as the condition `Accepted`.

## Model

| member | source | states |
|---|---|---|
| Tasks.TaskRepo.Insert | internal/store/tasks.go:206-260 | a row appears under a fresh id, as it was given but with an insertion time and no plan columns, exactly when source and title are there, the notes are JSON and no row has its natural key; otherwise the table is untouched and the error names the first thing that was wrong; natural keys stay unique and ids are never reused |
| Tasks.TaskRepo.GetBySourceExternalID | internal/store/tasks.go:883-895 | finds a row with the key whenever there is one, and reports absence only if there is none |
| Tasks.TaskRepo.UpdateStatus | internal/store/tasks.go:314-331 | sets the status of that row and nothing else, and tells a missing row from a driver error, after which nothing has changed |
| Tasks.TaskRepo.AcquireLock | internal/store/tasks.go:353-393 | takes the key only when no other pending or running row holds it; every refusal leaves the table alone and says whether the row is missing or the key is held |
| Tasks.TaskRepo.ReleaseLock | internal/store/tasks.go:399-413 | clears the lock of that row and of no other, whoever holds it |
| Tasks.TaskRepo.ClaimWorkspace | internal/store/tasks.go:788-818 | wins exactly on a pending row without a session; a lost claim, a missing row and a driver error leave the table alone and are told apart |
| Tasks.TaskRepo.SetWorkspace | internal/store/tasks.go:825-839 | records the session of that row only |
| Tasks.TaskRepo.SetStartedAt | internal/store/tasks.go:516-533 | records the start time of that row only, and refuses the zero time |
| Tasks.TaskRepo.SetCompletedAt | internal/store/tasks.go:541-558 | records the completion time of that row only, and refuses the zero time |
| Tasks.TaskRepo.MarkDoneWithSummary | internal/store/tasks.go:578-596 | status, summary and completion time change together or not at all, with no guard on the status the row had |
| Tasks.TaskRepo.MarkFailedWithReason | internal/store/tasks.go:612-630 | status and reason change together, with no guard, and an empty reason is refused |
| Tasks.TaskRepo.AppendJudgmentReason | internal/store/tasks.go:719-742 | joins the note onto the reason with the separator, or sets it when there was none, and leaves the status alone |
| Tasks.TaskRepo.MarkFailedFromRunningWithReason | internal/store/tasks.go:748-784 | fails a row and appends the reason only while the row is running; otherwise nothing changes and the error says which case it was |
| Tasks.TaskRepo.SetPlan | internal/store/tasks.go:851-875 | writes the five plan columns of that row together and nothing else |
| Tasks.TaskRepo.TransitionStatus | internal/store/tasks.go:1141-1157 | moves a row that is pending, running or waiting to done or failed only, and a row that is done, failed or skipped to pending only; reports a missing row and a forbidden move without touching the table |
| Tasks.TaskRepo.List | internal/store/tasks.go:948-1019 | answers with matching rows (statuses, sources, creation time, plan label) in the query's order, cut off at the limit and leaving out only rows that come later; refuses exactly the filters with more than 64 values |
| Tasks.ListingUnique | internal/store/tasks.go:978-1001 | the order is total: a query has exactly one answer |
| Tasks.ListingReads | internal/store/tasks.go:978-1001 | the listing in columns: listed rows match every filter, an unlisted row fails one or the limit is reached; ordered by priority descending, then creation time, then id, and in the dispatcher's query ranked rows come first, by ascending rank |
| Dispatch.Dispatcher.MarkFailed | internal/dispatch/dispatch.go:509-527 | the failure is joined behind any earlier reason; when that reason cannot be read the new one stands alone |
| Dispatch.Dispatcher.DispatchOne | internal/dispatch/dispatch.go:538-701 | a row the check refuses keeps lock and session and fails with the refusal behind its earlier reason; a row under a key is left alone while another pending or running row holds that key, and carries the key if it is started; otherwise, without a driver error, it is started exactly if the control directory can be made, it is pending and free and a session comes into being, and then it has the session and the start time and runs, or fails because the session is not ready or the prompt was not sent; a row not started keeps everything but the lock taken for it. Every call is a run of the step machine that begins with the check's own answer, and touches its own row only |
| Dispatch.Dispatcher.Run | internal/dispatch/dispatch.go:399-442 | tries the listing in order until it ends or maxParallel calls have started, each row pending and dispatchable when listed; whatever the driver does at most maxParallel rows are newly running, a row the check refuses is never taken, and a row that runs afterwards has its key to itself among pending and running rows; without a driver error every row tried that passed the check is started with the session and time it was given, or had no control directory, no session, a claim on it already or its key held; untried rows are unchanged |
| Dispatch.Dispatcher.RunOne | internal/dispatch/dispatch.go:449-459 | the named row is tried exactly if it can be read and is pending, under the same conditions on check, key and surroundings as in a pass; otherwise nothing changes and the answer says why |
| Dispatch.NotStartedRunsNothing | internal/dispatch/dispatch.go:538-701 | a call that does not report a start has set no row running, whatever failed in it |
| Dispatch.Dispatcher.Launch | internal/dispatch/dispatch.go:637-701 | after a won claim, the session is created, recorded, stamped and set running in that order, or the claim is undone |
| RunAll.RunAll | internal/cli/run_all.go:34-80 | terminates, adds no pending row, and reports exactly the number of rows that left the pending state; it stops with an empty queue or after a whole pass that moved nothing out of it, in which every row tried has its excuse; it fails only with the store |
| RunAll.PassDrains | internal/cli/run_all.go:56-77 | no pass makes a row pending, which is what makes the drain loop end |
| RunAll.PendingCount | internal/cli/run_all.go:82-88 | the length of the listing is the number of pending rows |
| Lifecycle.InvAlways | internal/dispatch/dispatch.go:538-701 | the invariant behind the next rows holds after every interleaving of dispatchers, planner, watcher, reaper and human commands, with dispatchers that crash between any two actions and sweeps that break off; done, fail and remove may strike any row at any time, reopen and clean only rows on which no call holds a claim, and clean no running row |
| Lifecycle.ClaimExclusion | internal/dispatch/dispatch.go:620-635 | at most one dispatcher is past a successful claim on a row, in every state such a run reaches |
| Lifecycle.RunningHasSession | internal/dispatch/dispatch.go:662-677 | in such a run a running row has a start time and the id of a session that was created: never empty, never the claim placeholder |
| Lifecycle.SessionsBounded | internal/dispatch/dispatch.go:620-676 | in such a run a row gets at most one session plus one for each reopen or clean; at most one in a run without those |
| Lifecycle.CleanSparesRunning | internal/store/tasks.go:825-839 | clearing the session of a row keeps every running row real if and only if that row is not running |
| Lifecycle.CallIsRun | internal/dispatch/dispatch.go:538-701 | the steps a dispatchOne call takes are a run of the interleaved system ending in the same table |
| OrderlyExact.OrderlyIff | internal/cli/task_transition.go:104-120 | the conditions on reopen and clean are exact: from every state with the invariant, an action lets a run go on to two calls past their claims on one row, or to a running row without a session, if and only if it resets a row on which a call holds a claim or cleans a running row |
| ActorRuns.SweepIsRun | internal/reaper/reaper.go:152-240 | a whole sweep, with driver errors on any set of rows, is a run of the interleaved system that ends in the table Reaper.Run promises |
| ActorRuns.LookIsRun | internal/completion/completion.go:277-398 | every result a look of the watcher may leave, whatever the store fails in, is reached by a run of the watcher's actions on that row |
| ActorRuns.DecisionIsRun | internal/loop/loop.go:520-572 | writing one decision of the planner is a run of insert, status and label actions |
| ActorRuns.TickIsRun | internal/loop/loop.go:453-482 | and so is writing all decisions of a tick |
| Commands.Transition | internal/cli/task_transition.go:67-120 | done, fail, promote and reopen: the command's own condition and the store's matrix decide, a row that goes back to pending loses its session, and only a failure between the two statements leaves the first one alone |
| ActorRuns.CommandIsStep | internal/cli/task_transition.go:100-120 | such a command is one step of the interleaved system, Reopen or Finish |
| LockExclusion.RunningRowsExcludeEachOther | internal/store/tasks.go:353-393 | in every serial run no two running rows resolve to the same non-empty lock key, and every running row carries its key. Serial asks four things: a dispatcher takes up no row another has in hand; the check resolves the key as configured; no call takes the lock of a running row; and the planner, done, fail, reopen and clean do not spoil the lock: no status but pending for a row whose keyed call is past its claim and on the way to run, nothing that lets a call holding its row's lock claim a row whose key another row owns by now, and no reset of a row with a key that the watcher has listed |
| LockExclusion.LockInvAlways | internal/dispatch/dispatch.go:571-592 | every action of a serial run (the four clauses of the row above) keeps: a row's lock is empty or its own key, running rows and rows that a call can still set running hold theirs exclusively, and a row with a key that the watcher has listed keeps its session and is not being launched |
| LockExclusion.SerialAtPickIsSerial | internal/dispatch/dispatch.go:422-442 | the clause on taking locks follows from one on beginning a call: the row taken up neither runs nor is in another dispatcher's hands; the other clauses (key resolution, nothing that spoils the lock) stay as they are |
| LockExclusion.LeftAlone | internal/loop/loop.go:545-557 | a simpler condition is enough for the last clause: the planner, done, fail, reopen and clean leave alone rows whose lock a call holds, and the last two also rows the watcher has listed |
| LockExact.SpoilsIff | internal/loop/loop.go:545-557 | the last clause is exact: from every state with the lock invariant, a status write of the planner, done, fail, reopen or clean lets a serial run go on to two running rows under one non-empty key if and only if it spoils the lock, a condition on the stage and key of the call in hand, the new status and session, the owners of the key and the watch set |
| Races.CallCanUnlockIff | internal/dispatch/dispatch.go:571-592 | where all rows are locked as they should be, a call alone with the table, broken off anywhere, can leave a running row without its key if and only if its own row runs, resolves to a key, and nobody else holds that key |
| Races.PlannerDefeatsLock | internal/loop/loop.go:545-557 | a run from the empty table in which the planner moves a row that is being launched and two running rows end under one key |
| Races.WatcherDefeatsLock | internal/completion/completion.go:260-271 | a run from the empty table without any planner write on an existing row, stale listing or two dispatchers on one row: a row is failed and reopened between the watcher's listing and its look, the watcher settles it while it is launched again, and two running rows end under one key |
| Races.StaleListingDefeatsLock | internal/dispatch/dispatch.go:631-635 | a run from the empty table in which no two dispatchers are on one row at once and still two running rows share a key: a stale listing is enough, because the loser of a claim clears the row's lock |
| Sweep.FailsOnlyTheDead | internal/reaper/reaper.go:152-240 | with everyone interleaved, a row the sweep fails, and whose session no command has cleared since rows were listed, is running at that moment and its session was dead when sessions were listed; commands on other rows do not matter |
| Sweep.FailsAllTheDead | internal/reaper/reaper.go:152-240 | a completed sweep without store errors leaves no such row running that was running when rows were listed and whose session was dead when sessions were listed |
| Sweep.SweepInvAlways | internal/reaper/reaper.go:152-182 | a listed row that no command resets keeps its session while it exists and nobody launches it, so the earlier snapshot is still right when the row is failed; sweeps may break off and begin anew |
| SweepExact.CanMissIff | internal/reaper/reaper.go:220-240 | in every state of a sweep that has found a row's session dead, the run can still go on, without a further reset, to the sweep failing that row with another session if and only if the row is not steady: it lost its session, already runs with another, or is being launched with another |
| SweepExact.ResetRowFailsLive | internal/cli/task_transition.go:104-120 | from every such state in which the row's session has been cleared, the run can go on until the sweep fails the row with a session that is alive |
| SweepExact.ReopenDefeatsSweep | internal/cli/task_transition.go:104-120 | such a state is reached from the empty table by a reopen during the sweep |
| Reaper.SegmentsOfJoin | internal/reaper/reaper.go:253-260 | splitting at the separator is a homomorphism over appending, whatever the two texts end and begin with |
| Reaper.GlueInvertsSegments | internal/reaper/reaper.go:253-260 | joining the segments gives the text back |
| Reaper.OneSegment | internal/reaper/reaper.go:253-260 | a text is its own only segment if and only if it contains no separator |
| Reaper.WarnTokenIsOneSegment | internal/reaper/reaper.go:183-205 | the stuck warning is one segment for every threshold text without a semicolon |
| Reaper.TokenRecognisedIff | internal/reaper/reaper.go:253-260 | a token is found once it has been appended, to any text, if and only if it has no separator inside; with one it is never found |
| Reaper.WarnedOnce | internal/reaper/reaper.go:183-205 | over any mix of stuck visits and appended notes the warning is written at most once, once there it is always found, and the final number of tokens is accounted for exactly |
| ReaperOverlap.OverlapBound | internal/reaper/reaper.go:183-205 | sweeps that overlap write the warning at most as often as there are sweeps between their look and their write at one time, whatever else is appended; once it is there only sweeps that had looked before write it |
| ReaperOverlap.OverlapReached | internal/reaper/reaper.go:183-205 | and that bound is reached: k sweeps that all look before any of them writes each write it |
| Reaper.SweepIdempotent | internal/reaper/reaper.go:152-208 | sweeping an already swept table changes nothing |
| Reaper.SweptReads | internal/reaper/reaper.go:152-208 | the sweep of a table in columns: who fails, who is warned and who stays as he is |
| Reaper.Run | internal/reaper/reaper.go:152-208 | row by row: a running row whose session is gone fails with the disappearance behind its earlier reason; one with a live session carries the warning afterwards, written at most once, if and only if it had it or has run longer than the threshold since a recorded start; every other row is unchanged, and so is one whose statement failed; a listing of rows or of sessions that fails ends the sweep with the table untouched |
| Completion.Watcher.CheckOne | internal/completion/completion.go:277-363 | in the columns of the row: done only if the sentinel reads as 0, then with the trimmed readable summary, or an empty one, and the time; a non-zero code fails the row with a reason naming that code; an unparsable or rejected sentinel and a directory that is none fail it; an absent or momentarily unreadable sentinel leaves it; no other row changes, and when the store fails the row is unchanged or lacks its completion time |
| Completion.Watcher.Tick | internal/completion/completion.go:260-271 | every running row is settled by its own directory: done if and only if its sentinel reads as 0, still running if and only if the sentinel is absent or unreadable; no other row is touched; without a listing nothing happens |
| Completion.LineReads | internal/dispatch/prompt.go:151-172 | the watcher reads the published line of every shell exit code back as that code: it neither rejects nor misparses it |
| Completion.SettledReads | internal/completion/completion.go:277-363 | the row a look at a readable sentinel leaves, every column of it |
| Completion.SettlesWhatWasPublished | internal/completion/completion.go:277-398 | from a directory without a sentinel, over every interleaving of script and watcher with partial writes, crashes and read errors: done only after code 0 was published, with the complete trimmed in-cap summary when the script wrote one, otherwise with what the file shows, a part of it or an older one; and failed only after the non-zero code it names was published |
| Completion.PublishedSettles | internal/completion/completion.go:277-363 | from every reachable published state one look without errors settles the row with that result |
| Completion.PublishedRow | internal/completion/completion.go:277-398 | from every state of the protocol in which the session has published, the row the watcher's look leaves is done if and only if the published code is 0, with the summary the protocol shows, the complete trimmed one when it was written in full, and otherwise failed for the published code |
| Completion.NeverEarlyIff | internal/completion/completion.go:277-363 | the watcher never settles a row before its own session has published if and only if the directory held no sentinel at the start (a re-dispatch does not clear it) |
| Text.ItoaParses | internal/completion/completion.go:326-327 | the decimal form of every 64-bit integer parses back to it |
| Text.AtoiReads | internal/completion/completion.go:326-327 | nothing parses but an optional sign and decimal digits within 64 bits |
| Text.TrimPadded | internal/completion/completion.go:326-327 | trimming removes the white space around a text and nothing else |
| KVState.KVStateRepo.Set | internal/store/kvstate.go:158-174 | the key holds the value afterwards; empty keys and values are refused |
| KVState.KVStateRepo.InsertIfAbsent | internal/store/kvstate.go:211-230 | inserts exactly when the key was absent and never overwrites |
| KVState.KVStateRepo.DeleteIfValue | internal/store/kvstate.go:243-260 | deletes exactly when the key held that value |
| KVState.KVStateRepo.CompareAndSwap | internal/store/kvstate.go:276-318 | swaps exactly from the expected value and tells a missing key from a stale one |
| LoopLock.Loop.AcquireLock | internal/loop/loop.go:770-776 | succeeds only on an absent row and then holds it under its own token; a busy lock is told from a failure |
| LoopLock.Loop.ReleaseLock | internal/loop/loop.go:784-805 | removes the row only while it carries this loop's token, and then does unless the store fails |
| LoopLock.LoopsExcludeEachOther | internal/loop/loop.go:276-289 | over any number of loops with crashes and failed releases, no two are inside a tick under one key unless the row was evicted |
| LoopLock.InsideBounded | internal/loop/loop.go:276-289 | the loops inside under a key are at most one more than the evictions of its row |
| LoopLock.OwnerKeepsRow | internal/loop/loop.go:784-805 | after an eviction the new owner's row survives everything but its own release and a further eviction, in particular the stale holder's release |
| LoopRun.RunOnce | internal/loop/loop.go:276-333 | a busy lock means nothing happens; afterwards the lock row is gone unless its release failed; whatever fails in an iteration, no row is lost, no row with a result changes, and a running row can only fail or gain a reason; and when the store does not fail the table has gone through all decisions of the tick, a pass over the resulting listing, and, if the page was rendered and there is a reaper, the sweep, in this order |
| Planning.DupKeyInjective | internal/manage/rules.go:86-88 | duplicate keys are equal only for equal pairs when source names hold no NUL |
| Planning.RankOrder | internal/manage/plan.go:260-271 | ranks lie between 1 and the number of ready rows, differ, and one is smaller than another exactly if only the other row's lock is taken, or else its score is higher, or else it comes first in the input |
| Planning.SortedRank | internal/manage/plan.go:260-271 | the k-th row of the sorted ready rows has rank k + 1 |
| Planning.DefaultPolicy | internal/manage/verdict.go:54-85 | under the default registry only ready is dispatched, the label the dispatcher asks for; hold and defer stay pending, drop is skipped, every other verdict waits for a human who is notified |
| PlanRun.SnapshotWorld | internal/manage/rules.go:94-122 | collects exactly the duplicate keys of finished rows and the locks of running rows |
| PlanRun.DepsIncomplete | internal/manage/rules.go:180-194 | true exactly when some dependency is missing or not done |
| PlanRun.CutOff | internal/manage/rules.go:136-175 | the first rule that fires decides, in the documented precedence |
| PlanRun.SortStable | internal/manage/plan.go:260-267 | the in-place stable sort by the comparison leaves the same indices in the strict order of the plan |
| PlanRun.RankReady | internal/manage/plan.go:260-271 | stamps every ready row with its rank, in place, and no other row |
| PlanRun.ScoreReady | internal/manage/scoring.go:129-158 | every ready row is scored from the slot of its own place, in place, and no other row changes |
| PlanRun.Plan | internal/manage/plan.go:145-210 | one decision per candidate in input order as the plan function says; among ranked decisions rows with a free lock come before rows with a taken one, then the higher score first, then input order; the ready list is exactly the ranked decisions with ranks 1 to n |
| PlanColumns.RankReads | internal/manage/plan.go:260-271 | the same for the decisions of every plan: free lock first, then higher score, then input order |
| PlanColumns.PolicyReads | internal/manage/plan.go:145-210 | a decision has the status the registry gives its verdict, or needs-human an unknown one, and a rank exactly if that entry is dispatchable |
| PlanColumns.VerdictReads | internal/manage/rules.go:136-175 | an upstream verdict stands; otherwise cwd violation, finished duplicate, blank title and unfinished dependency decide in this order, in terms of candidate, configuration and rows, and the rest is ready; only a model can change a dispatchable verdict, and only to defer |
| PlanColumns.SerializedReads | internal/manage/plan.go:185-210 | a ranked row is put behind the others exactly if some running row holds its key |
| PlanColumns.StubScoreReads | internal/manage/scoring.go:129-158 | without a model the score is the priority plus a thousand when the item is overdue or due within the configured time |
| PlanColumns.JudgmentReads | internal/manage/scoring.go:129-249 | under a model that judges each candidate by itself, every candidate that goes to it is decided by the answer for that very candidate, whatever the chunks and the cache: deferred, scored with its number, or with the stub score |
| Planner.OnlyReadyDefers | internal/manage/scoring.go:129-180 | scoring keeps every verdict except that a ready row may become deferred, and every status is the policy of its verdict |
| Planner.FailingScorer | internal/manage/scoring.go:187-249 | a model that fails on every call leaves exactly the plan of having no model, as long as the cache answers no candidate |
| Planner.CacheTransparent | internal/manage/scoring.go:187-249 | for a pointwise model whose budget covers the candidates and a cache holding only its valid answers, the plan with the cache is the plan without it |
| Planner.CacheStaysSound | internal/manage/scoring.go:236-246 | every answer that is put keeps such a cache sound when the key determines the judgment |
| PlanRun.PlanKeepsCacheSound | internal/manage/scoring.go:70-82 | so the cache that a plan leaves to the next one is sound again, starting from the empty cache |
| Scoring.LlmScore | internal/manage/scoring.go:187-249 | every slot is the cache's answer or the model's for that very candidate; at most max(1, maxCalls) chunks are asked, and they are the first ones; the cache ends with exactly the answers put in order |
| Scoring.OneChunk | internal/manage/scoring.go:213-246 | every uncached candidate is in exactly one chunk, once, and its slot holds the answer at its own place in that call, or nothing beyond the budget or after a bad answer |
| ScoringColumns.MissReads | internal/manage/scoring.go:187-249 | the q-th uncached candidate goes to call q / b at place q mod b, b the batch size, together with uncached candidates only; its slot is the answer at that place if the call answered one for one and the answer is deferred or finite, and empty otherwise or beyond the budget |
| ScoringColumns.CacheReads | internal/manage/scoring.go:187-249 | cached candidates get the cached answer; afterwards the cache holds what it held, unchanged, and exactly the answers to uncached candidates under their keys |
| ScoreParser.ParseScoreResults | internal/manage/claudescorer.go:206-233 | accepts exactly the arrays whose indices are a permutation of 0..n-1, puts score, deferral and reason of every entry in the slot it names, and otherwise names a witness of what is wrong |
| ScoreParser.PermutationIsDistinct | internal/manage/claudescorer.go:216-231 | the pigeonhole behind it: n numbers covering 0..n-1 are distinct and in range |
| ScoreParser.ReorderingAgrees | internal/manage/claudescorer.go:216-231 | any reordering of an accepted array is accepted with the same results |
| Tick.PersistDecision | internal/loop/loop.go:520-572 | a candidate without source or with malformed notes changes nothing; a new one gets one row with the candidate's source, id, path as URL, body, notes, trimmed title or placeholder, the decision's status (done when it is done upstream) and plan columns, and nothing else; a known one has status and plan columns rewritten unless the executor owns its row; whatever the store does, rows under another key and rows the executor owns are as they were |
| Tick.PlanAll | internal/loop/loop.go:453-482 | a tick writes every decision of the plan, in order; executor-owned rows survive even a tick with store errors |
| TickRows.TickTurns | internal/loop/loop.go:520-572 | a row there was ends as the decisions on its key make of it |
| TickRows.TickMakes | internal/loop/loop.go:520-572 | any other row is that of one accepted candidate whose key was free: every column is the candidate's, the decision's or empty |
| Persist.ReevaluatedReads | internal/loop/loop.go:545-572 | of a row that was there a decision rewrites the status and, unless the item is done upstream, the five plan columns, and nothing when the row runs, is done or has failed |
| TickRows.TickTakes | internal/loop/loop.go:520-572 | after any number of decisions a key is taken exactly if it was before or an accepted decision has it |
| Fixpoint.OneRowEach | internal/loop/loop.go:520-572 | from any table, a candidate that the table accepts, or whose row it had, ends with exactly one row |
| Fixpoint.OwnedRow | internal/loop/loop.go:545-557 | rows that run, are done or have failed are not touched by a tick |
| Fixpoint.OtherRow | internal/loop/loop.go:453-482 | rows outside the batch are unchanged and no row outside the batch appears |
| Fixpoint.BatchRowCarries | internal/loop/loop.go:558-572 | every other batch row carries its verdict as label, that verdict's status, and its score and rank |
| Fixpoint.OnlyReadyIsDispatched | internal/store/tasks.go:978-995 | the pass after a tick may take such a row if and only if its verdict is ready, and then the row is ranked |
| TickThenPass.PassAfterTick | internal/store/tasks.go:978-1001 | from any table, every row the pass after a tick tries was dispatchable before and is unchanged, being outside the batch or of a candidate the table does not accept, or is a batch row whose verdict is ready and which carries the plan's rank; ranks ascend along the pass and rows without one come last |
| Fixpoint.DuplicateSame | internal/manage/rules.go:152-156 | a tick changes which rows are finished but not what the duplicate rule answers where it is asked |
| Fixpoint.SecondTickChangesNothing | internal/loop/loop.go:453-572 | with the stub scorer and the same clock readings a second tick over the same batch leaves the whole table as it is, as long as every candidate that is done upstream and accepted either has a row already that runs or has a result, or has a verdict from the adapter or the cwd rule and no candidate waiting for its row (a sufficient condition) |
| Fixpoint.ThirdTickChangesNothing | internal/loop/loop.go:453-572 | for any batch with distinct duplicate keys, whatever is done upstream, and from any table, two ticks reach a fixpoint: the third changes nothing |
| DoneUpstream.SecondTickMovesRank | internal/loop/loop.go:520-566 | a concrete table, registry and batch that meet every other condition of the fixpoint, with a candidate that is done upstream and has no row yet, on which the second tick still moves another row's rank |
| Prompt.EscapeHasNoFence | internal/dispatch/prompt.go:76-83 | the escape never leaves two adjacent angle brackets |
| Prompt.EscapeIdentity | internal/dispatch/prompt.go:76-83 | the escape is the identity if and only if the text has no two adjacent angle brackets |
| Prompt.EscapeKeepsText | internal/dispatch/prompt.go:76-83 | the escape adds backslashes and changes nothing else |
| Prompt.EscapeIdempotent | internal/dispatch/prompt.go:70-83 | escaping twice is escaping once |
| Prompt.TaskBlockDecodes | internal/dispatch/prompt.go:104-113 | for five arbitrary fields a reader that only knows the names source, external_id, origin, title and body recovers exactly the escaped field under each name from the task block |
| Prompt.TaskBlockDetermines | internal/dispatch/prompt.go:104-113 | blocks with the same text have the same escaped fields |
| Prompt.FieldsStayInBlock | internal/dispatch/prompt.go:115-130 | the prompt around the task block does not depend on the user's fields: base, source and triage skills in this order before it, each if there is one, and the completion section behind it |
| Migrations.LoadMigrations | internal/store/store.go:200-233 | succeeds if and only if every SQL file is well named with a positive version and no two share one, and then returns all of them, each under its own name, version and body, in strictly increasing order |
| Migrations.VersionReads | internal/store/store.go:200-233 | a file name of the accepted form reads as its number, whatever zeros stand in front |
| Migrations.Database.Migrate | internal/store/store.go:156-176 | commits a prefix of the pending migrations, all of them when it reports success, and reports failure only when a commit failed |
| Migrations.CommittedOnceInOrder | internal/store/store.go:156-261 | any number of opens that die midway followed by a completed one commit every body exactly once, in version order, ending at the last version |
| Migrations.SurvivesDeathsIff | internal/store/store.go:225-233 | among migrations with positive versions, every sequence of interrupted opens commits all of them in order if and only if the versions are strictly increasing: the sort and the duplicate check are needed |
| Migrations.OpenAdvances | internal/store/store.go:156-176 | at every open in between, the version is that of the last committed body |
| RotatingFile.Log.Write | internal/logging/rotate.go:63-77 | rotates exactly when a non-empty file would pass the limit; then the old content is a backup, as many of the youngest backups as the limit allows stay unchanged and no fewer, and the active file holds the new write alone; whatever I/O fails, backups in order and the active file are a suffix of everything written, and a file over the limit holds a single write |
| RotatingFile.Log.Rotate | internal/logging/rotate.go:92-111 | on success the active content is the newest backup and exactly as many remain as the limit allows |
| RotatingFile.DroppedAreOlder | internal/logging/rotate.go:113-132 | pruning removes no backup younger than one it keeps |
| RotatingFile.DroppedIsSuffix | internal/logging/rotate.go:113-132 | what pruning leaves is a suffix of what there was |
| RotatingFile.JoinedNewest | internal/logging/rotate.go:92-111 | a backup with a later time stamp than all others comes last |

## Left out

- SQLite's driver, WAL mode and connection handling: every statement is one atomic step that may fail without effect.
- JSON, regular expressions, time and number parsing, path cleaning, FNV hashing and redaction: functions of the configuration about which nothing is assumed (in `Planner.CacheTransparent` and `Planner.CacheStaysSound`, what is assumed of the key is stated).
- The text of the completion section of the prompt and of parse errors; the script that section asks for is modelled as the writer of module `Completion`.
- Bytes that are not valid UTF-8.
- NaN and infinities in the stub score: scores are real numbers; a model's answer may be not finite and is then rejected as in the code.
- `sort.SliceStable`, `sort.Slice` and `sort.Strings`: the first is an in-place insertion sort with the same comparison, the others are stood for by their specification.
- Symbolic links and special files are values a read may return; races on the file system between `Lstat` and `open` are not modelled.
- Progress of the lock queue: a reopened row keeps its lock key, so two pending rows can block each other.
- That run-all drains everything runnable: the listing's limit can hide runnable rows behind contended ones; termination and the count are proved.
- Loss between a source and the table: collecting advances checkpoints before the plan is persisted (`internal/collect/gather.go:120-122`); the model starts from the candidate list.
- The dispatch ticker and the CLI take no loop lock; `LoopLock` is about ticks that do.
- More than one reaper sweep in `Lifecycle` and `Sweep`: overlapping sweeps are treated only as far as the warning goes, in `ReaperOverlap`.
- A human command (reopen, finish, clean, remove) is one action in `Lifecycle`, although the code issues more than one statement for some of them; `Commands.Transition` has both statements of reopen.
- Dispatch.Dispatcher.MarkFailed: the reason stands as it is after the redaction of leaked tokens, which is not modelled.
- One watcher process: `Lifecycle` has a single watcher pass in progress, as the daemon runs it.
- Creating the control directory and tightening its mode are one step that may be refused.
- Collecting candidates and the legacy discovery path inside an iteration, cancellation of a context between two decisions of a tick, audit records, the done hook, reflection and skip reasons.
- Reading the skill file, calling the model's process and cutting the bracket span out of its output: `ScoreParser` starts from what the span decodes to, `Scoring` from an arbitrary function of call number and items.
- Closing a rotating file, and other files that match the backup pattern; time stamps are numbers that grow from one rotation to the next.
- Web handlers, dashboards, wizard, doctor, pid files, secrets, skills installation and source plugins.
- LoopRun.RunOnce: starts from the candidates and does not have the legacy discovery branch of the cited lines, which persists without a plan.
- Text.TrimPadded: white space is ASCII white space only; the code trims what Unicode calls white space.
- Fixpoint.SecondTickChangesNothing: its condition on candidates that are done upstream is sufficient and not necessary, because the ranks and reasons of the two plans may agree for other reasons.
- Tick.PersistDecision: with store errors it states only which rows are untouched, because an insert and its label are separate statements and either may fail.
- Completion.Watcher.CheckOne: when the store fails between the failure and its time stamp the row may keep its old completion time, as in the code.
