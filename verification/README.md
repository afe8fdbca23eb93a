# Verification of the agentic-ecommerce core

Dafny models of seven components of the repository and proofs of what they promise. Each component is modelled twice
where its Go code changes state: once as functions on values, about which the theorems are proved, and once as a
class or a method with loops in the form of the Go code, proved against those functions.

* **Agent scheduler** (`internal/agent/orchestrator.go`). `Protocol.dfy` is a transition system with 24 actions. One
  action is one atomic section: a store read or write, one critical section of the mutex, or one step of the
  dispatch loop between two accesses to state that other goroutines can change. The worker pool may accept or refuse
  any task. `ProtocolInvariant.dfy` proves the invariant action by action, `ProtocolTheorems.dfy` the safety
  theorems over all runs, `ProtocolPriority.dfy` that the priority a caller submits is the one that decides. Two
  tempting claims are false, and two files say exactly when: `ProtocolLimits.dfy` when a terminal stored state is
  final, `ProtocolWaits.dfy` when a `Wait` returns. `TaskHeap.dfy` is the array heap with its index fields,
  `Scheduler.dfy` the struct with its methods; every method is proved to move the protocol along the actions it
  stands for.
* **Audit notes** (`internal/auditrecord`, `internal/auditjoin`). `Text.dfy` holds the string operations, `Note.dfy`
  the printer and the parser, `NoteRoundTrip.dfy` their round trip, `Recording.dfy` the recorder on an append-only
  board, `RecordedNote.dfy` what a reader finds in the comment a call leaves, `RecordingRace.dfy` recorders whose
  turns on it interleave, `Report.dfy` the weekly report with its own insertion sort, `RecordedReport.dfy` what the
  report shows of the recorder's calls, `ProxyJoin.dfy` the join of the proxy log with the approvals.
* **Billing** (`internal/billing`, `cmd/mc-api/stripe_webhook_handlers.go`). `Billing.dfy` is the lifecycle table,
  the repository, the service and the dispatcher on values; `BillingTheorems.dfy` the theorems;
  `BillingLaws.dfy` what each move and each event does to a row, in the words of the table and of Stripe;
  `BillingRepository.dfy` the repository class with its nested maps and their invariant, and the service methods.
* **Agent coordination** (`internal/coord`). `Coordination.dfy`: the two policies, conflict pairs, grouping,
  deduplication and constraint override.
* **Cost arithmetic** (`internal/costcalc/costcalc.go`). `CostCalc.dfy`: 64-bit overflow-checked pricing and the
  retry-storm window.
* **Order replay** (`cmd/mc-api/order_handlers.go`). `OrderReplay.dfy`: when two payloads are the same, keys and the
  replay table.
* **Compliance summary** (`internal/compliance/advanced.go`). `Compliance.dfy`: the history store and its four
  aggregates.

## Where the code differs from what one would expect

* A terminal stored state is not always final (`OutcomeIsFinalUnlessOpen`). It can still change exactly while the
  run is between the dispatch loop's read and the end of its execution, or its dispatch has failed and not been
  written, or a `Cancel` that read it as queued has still to write over another outcome. A cancelled run can so be
  started (`CancelledRunCanStart`, `RunsAgainOnlyIfOffered`), and a succeeded run become cancelled
  (`SucceededRunCanBecomeCancelled`).
* A `Wait` can hang. A registered `Wait` that is left alone returns if and only if it is covered
  (`LeftAloneServed`): its run is still stored as queued, a notification about the run is due, or the owner of the
  run announces what it does. A `Wait` that is not covered can be left hanging for good, one that is covered cannot,
  whatever is called meanwhile (`MayHangUnlessCovered`). Some of the uncovered ones can still be helped by closing
  the scheduler (`CanBeServedUnlessSilent`). `WaitCanHang` and `WaitCanBeLeftHanging` are runs that lead there:
  `Cancel` writes and notifies between the check of a `Wait` and its registration.
* What is submitted is decided all the same: left alone the scheduler comes to an end with an outcome in the store
  for every run (`LeftAloneDecides`).
* The branch of the dispatch loop for a missing agent would strand a run; it cannot be reached
  (`DropsOnlyDecidedRuns`).
* A printed note does not read back when its model list is the single name `-`, or when its free text has a word
  such as `writes=9` after the first word (`NoteRoundTrip`, `AuditRoundTrip`; inputs in `DashModelIsLost` and
  `LooseWordOverrides`).
* The doc comment of `mulCheck` is false at the edge of the range; `MulCheckIsExact` gives the exact condition,
  `MulCheckAtTheEdge` an input. `Cost` never gets there.
* With the longest possible duration as window `RetryStorm` accepts any attempts, because `Time.Sub` saturates
  (`LongestWindowTakesAll`).
* A `customer.subscription.deleted` event for a subscription that is already canceled fails on every delivery
  (`DeletionOfCanceledFails`, `DeletionCanFail`). `cancel_at_period_end` is decoded and never stored.
  `UpsertSubscriptionFromStripe` writes a state that is none of the five over a known row, though the factory
  refuses it (`UpsertKeeps`, `UpsertCanStoreUnlistedState`); the dispatcher never passes one.
* `MarkPastDue` is tried for trials too and dropped: `payment_failed` moves active subscriptions only
  (`FailedPaymentMovesOnlyActive`).
* Two subscriptions of a tenant can share a Stripe id, and the lookup then finds the later one only
  (`SharingComesFromInsertion`, `StripeIdCanBeShared`).
* The board has no lock, so a key can get a second note even when the board can list: exactly when another post of
  the key comes between a recorder's look and its own post (`SecondNoteExactly`, `RaceRepeats`). While both
  notes are in its window the report differs at most in times and in the order of rows (`RepeatedNoteInReport`).
* Two tenants can share a replay key: exactly when one prefix goes on after the other with a colon and no white
  space behind it (`KeysMeetExactly`, `KeysCanMeet`).
* A constraint of an agent is dropped together with the decision that carries it when the agent has a later decision
  (`OverrideOnlyIfBinding`, `SupersededConstraintIsDropped`).

## Model

| member | source | states |
|---|---|---|
| ProtocolInvariant.StepKept | internal/agent/orchestrator.go:233-478 | Every atomic section, taken in any state of the invariant, keeps it: places, heap, lock, capacity, pending writes, offers and waiters stay consistent. |
| ProtocolInvariant.RunKept | internal/agent/orchestrator.go:233-478 | The invariant holds after every interleaving of sections. |
| ProtocolInvariant.DeliverServes | internal/agent/orchestrator.go:471-478 | The notify loop sends the run once on each listed channel and closes it once, and touches no other channel. |
| ProtocolTheorems.NoStrandedRun | internal/agent/orchestrator.go:233-448 | In every reachable state a run stored as queued is in the heap, held by the dispatch loop, handed to the pool and not started, in an unfinished Submit, or in Close's drained list. |
| ProtocolTheorems.DropsOnlyDecidedRuns | internal/agent/orchestrator.go:338-347 | A popped run is dropped by the loop exactly when its stored state is no longer queued; the branch for a missing agent is never taken. |
| ProtocolTheorems.CapacityAndWorkConservation | internal/agent/orchestrator.go:334-361 | running equals the number of runs in flight and the size of cancels, is within the limit, cancels and heap are disjoint, and a free lock means an empty heap or no free slot. |
| ProtocolTheorems.ClosedForGood | internal/agent/orchestrator.go:413-427 | After Close the heap stays empty, nothing more is offered to the pool, and running and cancels only shrink. |
| ProtocolTheorems.OfferedAtMostOnce | internal/agent/orchestrator.go:351-360 | No run is given to the pool twice, and a run given to the pool is not in the heap. |
| ProtocolTheorems.CancelledInHeapNeverOffered | internal/agent/orchestrator.go:289-299 | A run that became terminal while it was in the heap is never given to the pool in any continuation. |
| ProtocolTheorems.PlaceFollowsEdge | internal/agent/orchestrator.go:233-448 | Any action leaves a run where it is or moves it along one edge of its life cycle. |
| ProtocolTheorems.QueuedNeverReturns | internal/agent/orchestrator.go:496-504 | No action makes a stored run queued again. |
| ProtocolTheorems.PoolSeesHeapOrder | internal/agent/orchestrator.go:338-351 | Of two runs in the heap the one that comes first in the heap order is offered first, in every continuation. |
| ProtocolTheorems.HigherPriorityFirst | internal/agent/orchestrator.go:338-351 | In every reachable state, of two runs in the heap the one with the smaller priority number is never given to the pool before the other, in every continuation. |
| ProtocolPriority.SubmittedAsAsked | internal/agent/orchestrator.go:233-280 | After any run that contains a Submit, store and heap hold the agent and the priority that it asked for. |
| ProtocolPriority.SubmittedPriorityDecides | internal/agent/orchestrator.go:233-351 | Of two submitted runs that are in the heap at the same time the one submitted with the higher priority is given to the pool first, whatever happens afterwards. |
| ProtocolTheorems.EqualPrioritiesStayInOrder | internal/agent/orchestrator.go:276-278 | A run queued now is never offered before a run of the same priority that is already in the heap. |
| ProtocolTheorems.WaitersServedOnce | internal/agent/orchestrator.go:314-332 | A waiter channel receives at most one value and is closed at most once; the value is a terminal run with the awaited id; it is unserved exactly while it is in the map. |
| ProtocolTheorems.ServedForGood | internal/agent/orchestrator.go:471-478 | A served channel is never sent on or closed again. |
| ProtocolLimits.OutcomeIsFinalUnlessOpen | internal/agent/orchestrator.go:283-402 | In every reachable state a terminal stored outcome can still change in some continuation if and only if the run is offered, handed over, executing or rejected and not yet written as failed, or a Cancel has read it as queued and the outcome is not already cancelled. |
| ProtocolLimits.RunsAgainOnlyIfOffered | internal/agent/orchestrator.go:289-377 | A terminal stored state can go back to running in some continuation if and only if the run is between the dispatch loop's read and the start of its execution. |
| ProtocolLimits.CancelledRunCanStart | internal/agent/orchestrator.go:289-377 | A reachable state in which a cancelled run can still be started. |
| ProtocolLimits.SucceededRunCanBecomeCancelled | internal/agent/orchestrator.go:283-402 | A reachable state in which a succeeded run cannot run again but a Cancel that read it before will store cancelled over it. |
| ProtocolWaits.CoveredStep | internal/agent/orchestrator.go:314-332 | Every atomic section keeps a covered waiter covered or serves it. |
| ProtocolWaits.CoveredIsServedAtRest | internal/agent/orchestrator.go:314-332 | Whatever is called, a covered waiter has its answer whenever the lock is free, nothing is left to cancel or announce, and every run is settled or queued. |
| ProtocolWaits.LeftAloneEnds | internal/agent/orchestrator.go:334-448 | Without new calls the scheduler stops: no run of continuing sections is longer than a measure of the state. |
| ProtocolWaits.RestIsDecided | internal/agent/orchestrator.go:334-448 | In every reachable state at rest the heap is empty and every stored run has a terminal state. |
| ProtocolWaits.LeftAloneDecides | internal/agent/orchestrator.go:334-448 | From every reachable state, left alone, the scheduler comes to an end within a bound, and then every run that was stored has an outcome. |
| ProtocolWaits.LeftAloneServed | internal/agent/orchestrator.go:314-332 | When everything that has begun is over and nothing new was asked, a waiter has its answer if and only if it was covered. |
| ProtocolWaits.MayHangUnlessCovered | internal/agent/orchestrator.go:314-332 | Some continuation leaves a registered waiter without any hope if and only if it is not covered. |
| ProtocolWaits.CanBeServedUnlessSilent | internal/agent/orchestrator.go:314-332 | Some continuation, with new calls, serves a registered waiter if and only if its run is not silent: decided, announced, and about to be dropped by its owner. |
| ProtocolWaits.SilentForGood | internal/agent/orchestrator.go:440-478 | Once a run is silent its unserved waiters stay unserved in every continuation. |
| ProtocolWaits.WaitCanHang | internal/agent/orchestrator.go:314-332 | A reachable state in which a registered waiter can never be served. |
| ProtocolWaits.WaitCanBeLeftHanging | internal/agent/orchestrator.go:314-332 | A reachable state in which a registered waiter can be served and can be left hanging. |
| TaskHeap.TaskPriorityQueue.Swap | internal/agent/orchestrator.go:585-589 | Swaps two items and keeps every index field equal to the position. |
| TaskHeap.TaskPriorityQueue.Push | internal/agent/orchestrator.go:591-595 | Adds exactly the item and restores heap order and index fields. |
| TaskHeap.TaskPriorityQueue.Pop | internal/agent/orchestrator.go:597-605 | Removes exactly one item and restores heap order and index fields; every item left has a smaller priority number, or the same and a sequence number that is not smaller. |
| TaskHeap.RootFirstOfAll | internal/agent/orchestrator.go:578-583 | In a heap no item has a higher priority than the root, or the same and a smaller sequence number. |
| Scheduler.Scheduler.NotifyLocked | internal/agent/orchestrator.go:471-478 | Takes the waiters of the run out of the map and delivers to each in turn. |
| Scheduler.Scheduler.FailDispatch | internal/agent/orchestrator.go:363-371 | Writes the failed run and notifies under the lock, as the two protocol actions. |
| Scheduler.Scheduler.Offer | internal/agent/orchestrator.go:348-359 | Takes a slot and offers the run; a refusal gives the slot back and fails the run. The fields follow protocol actions the pool's answer allows. |
| Scheduler.Scheduler.DispatchOne | internal/agent/orchestrator.go:338-360 | One round of the loop is a run of dispatch actions and removes one item from the queue. |
| Scheduler.Scheduler.DispatchLocked | internal/agent/orchestrator.go:334-361 | The whole loop is a run of dispatch actions that ends with the lock free. |
| Scheduler.Scheduler.SubmitEnter | internal/agent/orchestrator.go:233-243 | Admits a request exactly when the agent is registered and the scheduler is open. |
| Scheduler.Scheduler.SubmitCreate | internal/agent/orchestrator.go:256-267 | Stores the new run as queued. |
| Scheduler.Scheduler.SubmitQueue | internal/agent/orchestrator.go:270-280 | Refuses when closed; otherwise pushes with the next sequence number and dispatches. |
| Scheduler.Scheduler.CancelRead | internal/agent/orchestrator.go:283-301 | What the stored state alone decides: an unknown run, a queued one to be written, a running one to be looked up, or the refusal. |
| Scheduler.Scheduler.CancelLookUp | internal/agent/orchestrator.go:302-310 | The locked look-up of a running run finds it exactly when it is in flight, whatever happened since the store was read. |
| Scheduler.Scheduler.CancelWrite | internal/agent/orchestrator.go:290-298 | Writes the copy that was read as cancelled, whatever the store holds by then. |
| Scheduler.Scheduler.WaitCheck | internal/agent/orchestrator.go:315-321 | The unlocked check of Wait: error, answer at once, or go on to register. |
| Scheduler.Scheduler.WaitRegister | internal/agent/orchestrator.go:322-325 | Appends a fresh channel to the waiters of the run. |
| Scheduler.Scheduler.ExecStart | internal/agent/orchestrator.go:373-377 | Writes running over whatever the store holds. |
| Scheduler.Scheduler.ExecFinish | internal/agent/orchestrator.go:380-396 | What the agent answers decides the outcome: cancelled for a cancelled context, failed for any other error, otherwise succeeded; it is written over whatever the store holds. |
| Scheduler.Scheduler.ExecEpilogue | internal/agent/orchestrator.go:398-402 | Gives the slot back and dispatches in one critical section. |
| Scheduler.Scheduler.CloseDrain | internal/agent/orchestrator.go:413-427 | Closes and returns every queued run once, by falling priority and rising sequence number; a second Close does nothing. |
| Scheduler.Scheduler.CloseRead | internal/agent/orchestrator.go:429-430 | A drained run is cancelled only if it is read as queued. |
| Scheduler.Scheduler.CloseWrite | internal/agent/orchestrator.go:440-445 | Writes the copy that Close read as cancelled and leaves a notification to be made. |
| Scheduler.Scheduler.RefuseWrite | internal/agent/orchestrator.go:271-275 | A Submit that finds the scheduler closed writes its run as cancelled and leaves a notification to be made. |
| Scheduler.Scheduler.UpdateRun | internal/agent/orchestrator.go:496-504 | Overwrites a stored run and ignores one that is not stored. |
| Text.FieldsJoin | internal/auditrecord/auditrecord.go:454-454 | Splitting at white space undoes joining words with single blanks. |
| Text.OneLineFields | internal/auditrecord/auditrecord.go:454-454 | Collapsing white space keeps the words and is idempotent. |
| Text.SplitJoin | internal/auditrecord/auditrecord.go:159-170 | Splitting at a character undoes joining with it when no part contains it. |
| Text.AtoiItoa | internal/auditrecord/auditrecord.go:448-451 | Reading a printed 64-bit number gives it back, the smallest included. |
| Note.ReadFields | internal/auditrecord/auditrecord.go:438-446 | The loop builds the field map in which a later word overrides an earlier one. |
| Note.ParseNote | internal/auditrecord/auditrecord.go:159-170 | The loop over the lines computes the parser function. |
| NoteRoundTrip.LaterWordsOverride | internal/auditrecord/auditrecord.go:438-446 | The value of a key is that of the last word carrying it. |
| NoteRoundTrip.LastWordDecides | internal/auditrecord/auditrecord.go:438-446 | With words after it that do not carry the key, a `key=value` word gives the key its value, whatever stands before. |
| NoteRoundTrip.WhichAreNotes | internal/auditrecord/auditrecord.go:159-183 | Any comment is read as a note exactly when its first line goes on after the header with words that name one of the five steps, a job, a run and one of the three statuses, and the note has what they name. |
| NoteRoundTrip.KeyRoundTrip | internal/auditrecord/auditrecord.go:122-183 | The key line gives back step, job, run and status. |
| NoteRoundTrip.ModelsRoundTrip | internal/auditrecord/auditrecord.go:134-138 | A list of model names is read back if and only if it is not the single name that stands for none. |
| NoteRoundTrip.CostRoundTrip | internal/auditrecord/auditrecord.go:139-212 | The cost line gives the ledger summary back under the same condition, and everything but the model list in any case. |
| NoteRoundTrip.AuditRoundTrip | internal/auditrecord/auditrecord.go:142-220 | The audit line gives the verdict and the note back if and only if no later word of the note overrides status, writes or unmatched. |
| NoteRoundTrip.LooseWordOverrides | internal/auditrecord/auditrecord.go:142-220 | A verdict whose free text is `see writes=9` is not read back. |
| NoteRoundTrip.DashModelIsLost | internal/auditrecord/auditrecord.go:134-212 | A note whose only model is called `-` is not read back. |
| NoteRoundTrip.BodyLines | internal/auditrecord/auditrecord.go:128-155 | The body is its lines joined by newlines: trimming removes exactly the last newline. |
| NoteRoundTrip.BodyFormat | internal/auditrecord/auditrecord.go:120-155 | The text of a note, word by word: key line, cost line, audit line, failure and detail, each of the last three only when there is something to say. |
| NoteRoundTrip.NoteRoundTrip | internal/auditrecord/auditrecord.go:122-220 | For every printable note the parser gives the note back with its free text on one line, and no cost when the ledger could not be read, if and only if the two conditions above hold; key and status always survive. |
| NoteRoundTrip.RereadIsStable | internal/auditrecord/auditrecord.go:122-220 | A note that was read back can be recorded again and reads the same. |
| Recording.TokenIsWord | internal/auditrecord/auditrecord.go:456-460 | A token is empty exactly for a blank id and otherwise has no white space and no equals sign. |
| Recording.Board.AlreadyRecorded | internal/auditrecord/auditrecord.go:350-361 | True exactly when the board can list and a comment carries the key. |
| Recording.Board.Post | internal/auditrecord/auditrecord.go:305-321 | posted is true exactly when the note was added; otherwise the board is unchanged. |
| Recording.Board.Do | internal/auditrecord/auditrecord.go:240-303 | Run, Skip and Record: which refusal comes first, that a refused step does not run, and that posted means the board changed. |
| RecordedNote.PostsLeaveNote | internal/auditrecord/auditrecord.go:305-321 | A call that posts adds one comment, with the time of the board, from which the parser reads a note. |
| RecordedNote.LeftStatus | internal/auditrecord/auditrecord.go:244-320 | That note says ok for a Run without an error, failed and the error on one line for a Run with one, skipped for a Skip, and the given status for a Record. |
| RecordedNote.LeftAudit | internal/auditrecord/auditrecord.go:305-344 | It has an audit line exactly for a publish or rollback that was not skipped: the auditor's verdict and counts, or NOT_RUN without an auditor. |
| RecordedNote.LeftCost | internal/auditrecord/auditrecord.go:323-332 | It has the ledger's numbers, or the reason why there are none. |
| RecordedNote.RefusalOrder | internal/auditrecord/auditrecord.go:270-297 | A call is refused for an unknown step, a missing board, a blank ticket, blank ids or an unknown status, in this order, and for nothing else. |
| RecordedNote.TokenOfWords | internal/auditrecord/auditrecord.go:456-460 | The token of words joined by blanks has an underscore for every blank and every equals sign and is otherwise the same text. |
| Recording.BodyKey | internal/auditrecord/auditrecord.go:172-183 | The key that the printer wrote is the key that is read from the first line, whatever follows it. |
| Recording.CallKeepsUnique | internal/auditrecord/auditrecord.go:305-361 | One call keeps at most one note per key if and only if it did not post a recorded key without being able to list. |
| Recording.OneNotePerKey | internal/auditrecord/auditrecord.go:244-361 | While the board can list, any calls by any recorders leave at most one note per step, job and run on every ticket. |
| Recording.BoardOnlyGrows | internal/auditrecord/auditrecord.go:305-321 | No call alters or removes a comment. |
| Recording.AcceptedIsRecorded | internal/auditrecord/auditrecord.go:305-321 | An accepted call that the board did not turn away leaves its key recorded. |
| Recording.RepeatPostsNothing | internal/auditrecord/auditrecord.go:346-361 | A call with a key that was recorded earlier posts nothing, whatever happened in between. |
| Recording.BlindBoardRepeats | internal/auditrecord/auditrecord.go:346-354 | A board that cannot list can end up with two notes of one key. |
| RecordingRace.LookThenPut | internal/auditrecord/auditrecord.go:305-321 | A look and a post with no turn in between are one call of the sequential recorder. |
| RecordingRace.UniqueUnlessPutTwice | internal/auditrecord/auditrecord.go:305-361 | After any interleaving of looks and posts a ticket has one note per key if and only if no key was there or put there more than once in all. |
| RecordingRace.SecondNoteExactly | internal/auditrecord/auditrecord.go:305-361 | A call that passed its look posts a second note of its key if and only if it looked blindly at a recorded key, or another post of the key came between its look and its post. |
| RecordingRace.RaceRepeats | internal/auditrecord/auditrecord.go:305-361 | Two recorders on a board that can list leave two notes of one key. |
| Report.SortByLastDesc | internal/auditrecord/auditrecord.go:430-436 | The in-place insertion sort is stable and newest first. |
| Report.RankedIsUnique | internal/auditrecord/auditrecord.go:430-436 | Newest first with ties in place determines the result. |
| Report.Build | internal/auditrecord/auditrecord.go:382-410 | The fold keeps, for every run seen, exactly the first note of each step, their statuses, wrapped cost sum and latest time. |
| Report.Judge | internal/auditrecord/auditrecord.go:414-425 | The loop over the job order computes the failed steps and audit gaps that `RowJudges` is about. |
| Report.KPI | internal/auditrecord/auditrecord.go:377-428 | The report is the rows specified by the first notes, ranked newest first. |
| Report.FirstNotesMore | internal/auditrecord/auditrecord.go:402-406 | A further note enters the first notes exactly when its step is new to its run. |
| Report.RowJudges | internal/auditrecord/auditrecord.go:402-424 | The row of a run shows for every step the status of its first note; it lists the step as failed exactly when that status is failed, and as an audit gap exactly when that note has a verdict other than OK. |
| Report.RowNamesOnlySteps | internal/auditrecord/auditrecord.go:413-425 | A row names only steps that have a note, is complete exactly with all five, and lists failures and gaps in the order research, price, publish, verify, rollback. |
| Report.RowIsAsOld | internal/auditrecord/auditrecord.go:399-401 | The time of a row is that of its newest note. |
| Report.CompleteByCount | internal/auditrecord/auditrecord.go:425-425 | Five statuses means all five steps are recorded. |
| Report.OneRowPerRun | internal/auditrecord/auditrecord.go:377-428 | The report has exactly one row for every run with a counted note and no other row. |
| Report.RunsAreDistinct | internal/auditrecord/auditrecord.go:391-398 | No run is listed twice. |
| Report.DuplicateChangesOnlyLast | internal/auditrecord/auditrecord.go:374-406 | A later note of a recorded step changes nothing but the time of its own run's row, and the set and order of runs stays. |
| Report.RepeatedNoteIsHarmless | internal/auditrecord/auditrecord.go:346-406 | The same for a comment inserted anywhere after the comment it repeats; the rows of other runs are equal. |
| Report.RepeatedNoteInReport | internal/auditrecord/auditrecord.go:346-428 | The reports with and without such a comment have equally many rows, each differs at most in its time, and the rows of other runs are in both. |
| RecordedReport.ReportShowsRecords | internal/auditrecord/auditrecord.go:244-428 | The report over any calls on a board that can list has a row for exactly the runs with a call recorded in the window. The row shows every step recorded there and no other: ok, failed, skipped or the given status; it is a failure exactly when that status is failed, and a gap exactly when it wrote and the auditor did not say OK or there was none. The cost is the wrapped sum of the recorded costs. |
| ProxyJoin.Result.Tally | internal/auditjoin/join.go:114-140 | One row updates the counters so that they count one more row. |
| ProxyJoin.Scan | internal/auditjoin/join.go:76-93 | The loop counts the rows in scope, and stops exactly at a bad line. |
| ProxyJoin.Join | internal/auditjoin/join.go:63-111 | Every error path and the verdict of a readable log. |
| ProxyJoin.JoinApproval | internal/auditjoin/join.go:52-61 | The scoped verdict with its two extra refusals. |
| ProxyJoin.JoinIsAdditive | internal/auditjoin/join.go:43-140 | Writes of the unscoped join are the sum over distinct approval ids of the scoped joins, plus the rows without an id. |
| ProxyJoin.HalvesAdd | internal/auditjoin/join.go:76-111 | Scoped or not, the join of a log is the sum of the joins of its two halves, wherever it is cut: writes, reads and the unmatched rows in their order. |
| ProxyJoin.LineAlone | internal/auditjoin/join.go:114-140 | What a log of one line says: an intent row is a write, a row without a kind is one unless its verb is GET or HEAD, another row is a read with one of these verbs and otherwise nothing; a write is unmatched exactly if its id is not approved or an intent row has none, and the text says which. |
| ProxyJoin.StatusOfLog | internal/auditjoin/join.go:100-110 | A log whose lines all parse is UNMATCHED exactly when a row is listed, NOT_RUN exactly when it has no row, and otherwise OK. |
| ProxyJoin.PlantedWriteShows | internal/auditjoin/join.go:114-140 | An intent row with an unapproved id, anywhere in the log, adds exactly one write and its own text, at its place, to the unmatched rows, and nothing else. |
| ProxyJoin.ScopedVerdict | internal/auditjoin/join.go:46-61 | OK if and only if a write row carries the id and it is approved, UNMATCHED if and only if one carries it and it is not, NOT_RUN otherwise; when UNMATCHED all writes are unmatched; the reads are those of the join. |
| ProxyJoin.RefusalOrder | internal/auditjoin/join.go:52-105 | NOT_RUN exactly for a missing or unreadable log, unreadable approvals, a bad line, a failed scan, a log without a row or a blank approval id, in this order and with nothing counted. |
| BillingRepository.InMemoryRepository.CreateSubscription | internal/billing/inmemory.go:40-60 | Inserts row and index entry exactly for a new row of a tenant and otherwise changes nothing; the repository stays valid exactly if the inserted row is fit. |
| BillingRepository.InMemoryRepository.GetSubscription | internal/billing/inmemory.go:63-78 | The stored row, which carries its own key, or the error. |
| BillingRepository.InMemoryRepository.GetSubscriptionByStripeID | internal/billing/inmemory.go:81-96 | A stored row that carries the Stripe id, never the zero row, or an error, and then no row of the tenant carries it. |
| BillingRepository.InMemoryRepository.SaveSubscription | internal/billing/inmemory.go:127-148 | Overwrites exactly a known row and otherwise changes nothing; the repository stays valid exactly if the row is fit and leaves no old Stripe id in the index. |
| BillingRepository.InMemoryRepository.UpsertInvoice | internal/billing/inmemory.go:151-167 | Stores the invoice under its tenant with the first creation time; an error changes nothing. |
| BillingRepository.InMemoryRepository.StripeEventRecord | internal/billing/inmemory.go:224-232 | Adds a non-empty event id to the log and refuses an empty one. |
| BillingRepository.Service.CreateSub | internal/billing/service.go:88-104 | Plan check, defaults, factory and insert in this order; every input keeps the repository valid, an error changes nothing. |
| BillingRepository.Service.MoveSubscription | internal/billing/service.go:155-172 | Succeeds exactly if the row is there and the table allows the move: the save after the lookup cannot fail. An error changes nothing. |
| BillingRepository.Service.ActivateSubscription | internal/billing/service.go:138-148 | Succeeds exactly for a trial or a past-due subscription; an error changes nothing. |
| BillingRepository.Service.UpsertSubscriptionFromStripe | internal/billing/service.go:177-210 | For every input: a known Stripe id cannot fail, an error changes nothing, and the repository stays valid unless a state that is none of the five is written over a known row. |
| BillingRepository.Service.StoreInvoice | internal/billing/service.go:214-231 | Succeeds exactly with a tenant and sets the times; otherwise nothing changes. |
| BillingRepository.Service.InvoiceEvent | internal/billing/dispatcher.go:155-193 | Succeeds exactly for a decoded invoice with id and tenant, whatever becomes of the move, whose error is dropped; an error changes nothing. |
| BillingRepository.Service.SubscriptionUpsert | internal/billing/dispatcher.go:109-134 | Decodes, requires a tenant, upserts; keeps the repository valid, an error changes nothing. |
| BillingRepository.Service.SubscriptionGone | internal/billing/dispatcher.go:136-153 | Cancels the looked-up row; an unknown one is no error; an error changes nothing. |
| BillingRepository.Service.DispatchEvent | internal/billing/dispatcher.go:84-107 | Routes by event type, never touches the event log, and changes nothing on an error. |
| BillingRepository.Service.ProcessStripeWebhook | cmd/mc-api/stripe_webhook_handlers.go:57-82 | A seen id or an error changes nothing, and without an error the log holds the earlier ids and this one. |
| BillingTheorems.StoreKeeps | internal/billing/inmemory.go:40-148 | Storing a row keeps keys and index consistent if and only if the row is fit and its old Stripe id is not left behind in the index. |
| BillingTheorems.UpsertKeeps | internal/billing/service.go:177-210 | An upsert keeps the invariant unless it writes a state that is none of the five over a known row. |
| BillingTheorems.UpsertCanStoreUnlistedState | internal/billing/service.go:181-185 | A reachable repository whose invariant an upsert with an unlisted state breaks. |
| BillingTheorems.RunKeeps | internal/billing/inmemory.go:40-148 | Every run of the service keeps rows under their own keys and the index sound and complete. |
| BillingTheorems.IndexAgreesWithScan | internal/billing/inmemory.go:81-148 | In every reachable state the Stripe lookup succeeds exactly when some row of the tenant carries the non-empty id, returns such a row, and the only one when no two rows share it. |
| BillingTheorems.SharingComesFromInsertion | internal/billing/service.go:177-210 | Two rows come to share a Stripe id if and only if one is inserted with an id that is already indexed. |
| BillingTheorems.StripeIdCanBeShared | internal/billing/inmemory.go:40-60 | Two creations under one Stripe id leave two rows that share it, of which the lookup finds the later one. |
| BillingTheorems.FailureChangesNothing | internal/billing/dispatcher.go:84-193 | An action that reports an error has written nothing, for all actions and all states. |
| BillingTheorems.KnownUpsertSucceeds | internal/billing/service.go:181-194 | A subscription event for a known Stripe id cannot fail. |
| BillingTheorems.ReplayIsInvisible | cmd/mc-api/stripe_webhook_handlers.go:57-82 | Any run with failing actions and repeated deliveries ends in the same repository as its effective actions alone, among which every event id occurs at most once. |
| BillingTheorems.RecordedExactlyOnce | cmd/mc-api/stripe_webhook_handlers.go:68-80 | An id is in the event log exactly when it was there before or an effective delivery carried it. |
| BillingTheorems.OnlyCanceledIsTerminal | internal/billing/state.go:53-82 | Of the five states canceled is the only one without a move, and every other one can be canceled. |
| BillingLaws.MoveLaw | internal/billing/state.go:53-72 | A move of a stored row succeeds exactly for the nine moves, changes its state and time alone, and otherwise changes nothing. |
| BillingLaws.ActivationLaw | internal/billing/service.go:138-148 | Activation makes a trial and a past-due subscription active and fails for every other one. |
| BillingLaws.CreationLaw | internal/billing/subscription.go:41-78 | The row that a creation inserts, field by field, or the first thing that is wrong with its input. |
| BillingLaws.UpdateLaw | internal/billing/dispatcher.go:109-134 | An unseen subscription event for a known Stripe id leaves the row in the state that Stripe's word names (any unknown word: active), takes over the periods that are given, and changes nothing else of it but the time. |
| BillingLaws.ArrivalLaw | internal/billing/dispatcher.go:109-134 | An unseen subscription event for an unknown Stripe id creates the row under it, in the state that the word names. |
| BillingLaws.DeletionLaw | internal/billing/dispatcher.go:136-153 | An unseen deletion cancels the row of a known Stripe id unless it is canceled already, and accepts an unknown id. |
| BillingLaws.InvoiceLaw | internal/billing/dispatcher.go:155-193 | A payment event stores the invoice as paid or uncollectible, and keeps its first creation time. |
| BillingLaws.PaymentLaw | internal/billing/dispatcher.go:155-193 | A successful payment makes a past-due subscription active, a failed one makes an active one past due, and neither moves any other row. |
| BillingLaws.MalformedLaw | internal/billing/dispatcher.go:84-250 | A delivery is malformed exactly when its event has no id, or is new and lacks what its type needs: a subscription with id and tenant, an invoice with an id. |
| BillingLaws.OtherDeliveries | internal/billing/dispatcher.go:84-107 | A payment event without a tenant is refused for that; an event of another type is only recorded; a seen delivery changes nothing. |
| BillingLaws.PastDueThenPaid | internal/billing/dispatcher.go:155-207 | A past_due or unpaid event and then a successful payment leave the subscription active. |
| BillingLaws.PausedThenResumed | internal/billing/dispatcher.go:198-209 | A paused event and then Resume leave the subscription active. |
| BillingLaws.CanceledThenStuck | internal/billing/dispatcher.go:198-211 | After a canceled or incomplete_expired event every move of the subscription fails and changes nothing. |
| BillingTheorems.StateChanges | internal/billing/service.go:155-210 | No row disappears, and a state changes either as a Stripe event names it or along the transition table. |
| BillingTheorems.CanceledIsLeftOnlyByStripe | internal/billing/service.go:181-185 | A canceled subscription is revived if and only if an unseen Stripe subscription event for it names another state. |
| BillingTheorems.FailedPaymentMovesOnlyActive | internal/billing/dispatcher.go:155-193 | payment_failed stores the invoice, succeeds and is recorded; it moves the looked-up row, to past due, if and only if that row is active. |
| BillingTheorems.DeletionOfCanceledFails | internal/billing/dispatcher.go:136-153 | A deletion event for a known subscription fails if and only if it is already canceled. |
| BillingTheorems.DeletionCanFail | internal/billing/dispatcher.go:136-153 | A subscription created as canceled: the delivery of its deletion fails. |
| BillingTheorems.TenantsAreApart | internal/billing/inmemory.go:40-167 | An action touches rows, index and invoices of the tenant it names and of no other. |
| BillingTheorems.RunsOfTenantsAreApart | internal/billing/inmemory.go:40-167 | A run touches only the tenants its actions name. |
| BillingTheorems.UpsertedInvoice | internal/billing/service.go:214-231 | An invoice is stored with the time of the call as update time and, as creation time, the stored one, else its own, else the time of the call; without a tenant it is refused. |
| BillingTheorems.InvoiceKeepsItsCreation | internal/billing/inmemory.go:160-164 | A creation time once stored survives every later action. |
| Coordination.Order | internal/coord/policy_engine.go:128-144 | The comparison is a strict weak order whose ties are the decisions of one agent at one time. |
| Coordination.LessIsLexical | internal/coord/policy_engine.go:137-144 | Agent names are compared as in a dictionary: the first difference decides, and a prefix comes first. |
| Coordination.BestWins | internal/coord/policy_engine.go:89-144 | Nobody weighs more than the winner, nobody as heavy is later, nobody as heavy and late has a smaller name, and the winner stands first among the decisions of its agent and time. |
| Coordination.LastWriteWins | internal/coord/multi_agent_coordinator.go:206-221 | The loop returns the first best decision without weights: the latest one, by name among the equally late ones. |
| Coordination.SliceStable | internal/coord/policy_engine.go:122-124 | The sort is stable under the comparison. |
| Coordination.WeightedPriority | internal/coord/policy_engine.go:89-126 | Sorting a copy and taking the head returns the first best decision: no agent weighs more, no one as heavy is later, no one as heavy and late has a smaller name. |
| Coordination.HeadIsBest | internal/coord/policy_engine.go:89-126 | The head of any stable ranking is the first best of one pass. |
| Coordination.BestIsFirst | internal/coord/multi_agent_coordinator.go:206-221 | The one-pass winner is beaten by none and beats everyone before it. |
| Coordination.EqualWeightsAreLastWriteWins | internal/coord/policy_engine.go:128-135 | With equal weights both policies choose the same decision on every list. |
| Coordination.OrderOfListIsIrrelevant | internal/coord/policy_engine.go:137-144 | The winner is the same for every permutation of the list if and only if every decision that ties with it equals it. |
| Coordination.DetectConflict | internal/coord/multi_agent_coordinator.go:417-441 | One conflict for each conflicting pair of positions and none other. |
| Coordination.ConflictIsUnordered | internal/coord/multi_agent_coordinator.go:104-117 | Conflicting is symmetric and the conflict names its agents in order whichever comes first. |
| Coordination.ConflictingActions | internal/coord/multi_agent_coordinator.go:417-441 | Two actions conflict when they are the same, or one depletes the inventory and the other changes the price or holds the inventory. |
| Coordination.GroupProposalsBySKU | internal/coord/multi_agent_coordinator.go:394-400 | One group per SKU with exactly its proposals in order. |
| Coordination.SortedSKUs | internal/coord/multi_agent_coordinator.go:404-411 | Exactly the keys, strictly increasing. |
| Coordination.Coordinator.ValidateInputs | internal/coord/multi_agent_coordinator.go:313-323 | The first fault of the first faulty decision, and none exactly when all are valid. |
| Coordination.FaultOrder | internal/coord/multi_agent_coordinator.go:313-390 | A decision is refused for a blank agent, tenant, SKU or action or for another tenant, in this order, and for nothing else. |
| Coordination.Coordinator.CoordinateOne | internal/coord/multi_agent_coordinator.go:327-338 | The chosen decision is the policy's winner among the SKU's own proposals, with exactly its conflicts. |
| Coordination.ActionWinner | internal/coord/multi_agent_coordinator.go:327-346 | The chosen decision is one for the SKU of the action and wins among these by weight, time and name. |
| Coordination.ActionConflicts | internal/coord/multi_agent_coordinator.go:327-346 | Every conflict of an action names the agents of two conflicting decisions for its SKU, and the policy. |
| Coordination.Coordinator.Coordinate | internal/coord/multi_agent_coordinator.go:292-309 | One action for every distinct SKU, strictly increasing, each with its own clock reading, or the first fault. |
| Coordination.DeduplicateSameSKU | internal/coord/pricing_fulfilment.go:140-154 | One survivor per agent, its latest decision and the first of equally late ones, in the order of first appearance. |
| Coordination.DeduplicationKeepsTheWinner | internal/coord/pricing_fulfilment.go:96-103 | The policy's winner over the survivors is its winner over all decisions. |
| Coordination.ApplyPriorityRule | internal/coord/pricing_fulfilment.go:109-124 | Returns the winner's own entry; the fallback is unreachable for distinct agents. |
| Coordination.DetectConstraintOverride | internal/coord/pricing_fulfilment.go:129-136 | The first constrained decision, if any. |
| Coordination.OverrideOnlyIfBinding | internal/coord/pricing_fulfilment.go:127-154 | Some survivor is constrained if and only if some agent's latest decision is. |
| Coordination.SupersededConstraintIsDropped | internal/coord/pricing_fulfilment.go:127-154 | A safety hold is lost when its agent decides again later. |
| Coordination.CoordinateDecisions | internal/coord/pricing_fulfilment.go:95-107 | The binding constraint of the agent that spoke first if there is one, where a constraint binds when it is on its agent's latest decision; otherwise the winner over all decisions by weight, time and name. |
| CostCalc.AddCheckIsExact | internal/costcalc/costcalc.go:103-113 | addCheck returns the exact sum, or overflow exactly when it does not fit. |
| CostCalc.MulCheckIsExact | internal/costcalc/costcalc.go:82-101 | mulCheck keeps its promise if and only if the product is the smallest number only for a smallest first factor, and a smallest first factor meets 0 or 1. |
| CostCalc.MulCheckAtTheEdge | internal/costcalc/costcalc.go:82-101 | The smallest number times -1 comes out as the smallest number without an error. |
| CostCalc.CostIsCeiling | internal/costcalc/costcalc.go:46-80 | Errors in the stated order; overflow exactly when the total does not fit; otherwise the least number of cents that covers it. |
| CostCalc.PriceIsPerMillion | internal/costcalc/costcalc.go:42-80 | A million tokens cost exactly the price or overflow, no tokens cost nothing, and at a price of one cent every part of a million costs that cent. |
| CostCalc.CostGrows | internal/costcalc/costcalc.go:49-80 | More tokens never cost less and never turn an overflow into a price. |
| CostCalc.SplittingCostsAtMostOneCent | internal/costcalc/costcalc.go:49-80 | Two calls cost the same as one with the summed tokens, or one cent more. |
| CostCalc.HitIsStorm | internal/costcalc/costcalc.go:137-141 | A window hit in the sorted list is a storm. |
| CostCalc.StormIsHit | internal/costcalc/costcalc.go:137-141 | Every storm shows as a window hit in the sorted list. |
| CostCalc.LongestWindowTakesAll | internal/costcalc/costcalc.go:137-141 | Two attempts further apart than the longest duration pass the comparison with it. |
| CostCalc.RetryStorm | internal/costcalc/costcalc.go:121-143 | For positive window and limit true exactly when some limit of the attempts, as a multiset, lie within the window, or the window is the longest duration. |
| OrderReplay.OrderCreateReplaySignature | cmd/mc-api/order_handlers.go:419-481 | The loop builds the normalised payload. |
| OrderReplay.SignatureOfNormalForm | cmd/mc-api/order_handlers.go:441-481 | Normalising is a projection: the normal form has its own signature. |
| OrderReplay.SameSignature | cmd/mc-api/order_handlers.go:419-481 | Two payloads have one signature if and only if they agree on every quantity and amount, on every text up to white space around it, on mail, delivery, country and currencies also up to the case of letters, where no shipping at all is free shipping in AUD. |
| OrderReplay.SignatureCase | cmd/mc-api/order_handlers.go:441-478 | Mail and delivery are hashed in lower case, country and currencies in upper case. |
| OrderReplay.SamePrefixKeys | cmd/mc-api/order_handlers.go:383-392 | Under one tenant prefix two requests share a key if and only if their trimmed keys are equal. |
| OrderReplay.KeysMeetExactly | cmd/mc-api/order_handlers.go:383-392 | Some requests of two scopes with different prefixes share a key if and only if one prefix goes on after the other with a colon that no white space follows. |
| OrderReplay.KeysCanMeet | cmd/mc-api/order_handlers.go:383-392 | With a colon in a tenant id, or a tenant called public, two scopes can share a key. |
| OrderReplay.Server.CreatePersistedOrder | cmd/mc-api/order_handlers.go:152-189 | State and reply of one request. |
| OrderReplay.RunKeepsOnce | cmd/mc-api/order_handlers.go:152-189 | In every run each non-empty key has at most one stored order, and the table lists exactly it. |
| OrderReplay.EntriesStay | cmd/mc-api/order_handlers.go:163-188 | Entries are never altered or removed, stored orders stay. |
| OrderReplay.OneOrderPerKey | cmd/mc-api/order_handlers.go:163-188 | After a success every later valid request under the key gets the same order if its payload is the same in the sense of `SameSignature` and a conflict otherwise, and changes nothing. |
| OrderReplay.FreshRequest | cmd/mc-api/order_handlers.go:152-189 | A request without a key or with a free one is invalid, not stored or created as the domain and the repository say; a success stores exactly the order that was made and lists it exactly under a non-empty key. |
| OrderReplay.FailureLeavesKeyFree | cmd/mc-api/order_handlers.go:175-181 | A request without success changes nothing; a free key is taken exactly by a valid request whose order is made and stored. |
| Compliance.InMemoryHistoryStore.RecordEvaluation | internal/compliance/advanced.go:374-390 | Appends the record with trimmed tenant and a time, or refuses and changes nothing. |
| Compliance.InMemoryHistoryStore.ListEvaluations | internal/compliance/advanced.go:392-416 | Exactly the selected records, by time. |
| Compliance.OnlySelectedCount | internal/compliance/advanced.go:399-409 | A record is selected as often as it is stored if it is of the filter's trimmed tenant and inside the bounds that are set, and otherwise not at all. |
| Compliance.InMemoryHistoryStore.Summary | internal/compliance/advanced.go:418-475 | The summary of the selected records. |
| Compliance.Summarise | internal/compliance/advanced.go:423-475 | One pass builds totals, product, rule and day counts as the folds of their checks, with days strictly increasing. |
| Compliance.StatCountsItsKey | internal/compliance/advanced.go:431-465 | An entry exists exactly for a key that was checked and counts exactly its checks. |
| Compliance.SummaryNumbers | internal/compliance/advanced.go:418-466 | Total, passed and failed are the numbers of records, of those that passed and of those that failed, and the rate times the total is what passed. |
| Compliance.ProductNumbers | internal/compliance/advanced.go:431-453 | A product has an entry exactly when a record names it, with the numbers of its records. |
| Compliance.RuleNumbers | internal/compliance/advanced.go:451-461 | A rule has an entry exactly when some rule result of some record names it, with the numbers of these results. |
| Compliance.DayNumbers | internal/compliance/advanced.go:434-473 | A day has a trend exactly when a record was checked within its 86400 seconds, with the numbers of these records. |
| Compliance.SummaryConserves | internal/compliance/advanced.go:418-475 | Total is passed plus failed, equals the sum over products and the sum over days; rule totals add up to the number of rule results. |
| Compliance.RateIsShare | internal/compliance/advanced.go:463-465 | The pass rate lies between zero and one, is one exactly when something was checked and everything passed, and zero exactly when nothing passed. |
| Compliance.EveryStatBalances | internal/compliance/advanced.go:431-465 | Every entry has passed plus failed equal to its total. |

## Left out

- Scheduler.Scheduler.DispatchLocked: during the method no other goroutine writes the store; the dispatch actions of the protocol, which the theorems are about, do interleave with such writes.
- Scheduler.Scheduler.ExecFinish: what the agent answers, and whether it answers at all, is an input; an agent that panics stays executing.
- Report.KPI: the NUL-joined key is a pair, which agrees with it for ids without NUL, and the rows that the code updates in place are values replaced in a map.
- Recording.Board.Do: calls of the class run one after another; interleaved ones are modelled on values in `RecordingRace`.
- Billing.Process: deliveries run one after another, because `processStripeWebhook` takes no lock.
- Coordination.CoordinateDecisions: the published event is reduced to decision, resolution and constraint.
- Coordination.WeightedPriority: weights are reals, so a weight that is not a number is not modelled.
- OrderReplay.OrderCreateReplaySignature: upper and lower case of letters outside ASCII, and the SHA-256 of the payload, which is taken as injective.
- OrderReplay.Server.CreatePersistedOrder: whether a request is valid, which order `NewOrder` makes and whether the repository stores it are inputs.
- Compliance.Summarise: a trend day is its number, whose order is that of its text for years with four digits; the pass rate is an exact quotient instead of a rounded one.
- HTTP, JSON, RBAC, signature verification: requests and Stripe events are decoded values; a body that does not decode is one case.
- Clocks and ids: times and fresh ids are inputs.
- Events, metrics, KPI hooks and publishers: their errors are dropped in the code and they do not touch the modelled state.
- Contexts of the scheduler: `Cancel` of a running run and `Close` only ask an execution to stop, and the caller's context that can end a `Wait` early is not modelled.
- Task payloads, results and run timestamps: the scheduler copies them and never looks at them.
- The 64-bit width of counters outside `costcalc`, the cost sum of the report and the parsed numbers.
- `container/heap`, `sort.Slice` and `sort.SliceStable` are library code: the heap driver and insertion sorts with their contracts stand for them.
- `ResolveConflicts`, `OverDailyThreshold`, plan and price tables, reads that only return a stored value: they would only add easy members.
- The texts of error messages, and the pages of the billing lists: `sort.Slice` over a map does not fix the order of equal times.
