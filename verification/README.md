# Forma: durable engine, window store, connectors and replies

A Dafny model of the parts of Forma that keep promises across crashes, restarts, retries and races, with proofs that they
are kept.

* **The durable engine** (`Engine`, `System`): runs, events, grants, proposals, interface revisions, schedules,
  occurrences, tool requests and idempotent requests, as one transactional state machine. `Engine` gives every operation
  as a function on the tables; `Transactions.Store` runs the same operations statement by statement and loop by loop and
  is proved equal to them. `Invariant` states the joint invariant; `Frames`, `RunSteps`, `Authority`, `Admission`,
  `Publication`, `Scheduling` and `Work` prove that each operation keeps it, and `Successes` that only a complete end
  makes a run succeed; `Behaviours` draws the results over whole runs, `Outcomes` those about single operations, and
  `Polling` those about reading events page by page. `Verdicts`, `Writes`, `Calls`, `Endings`, `Withdrawals`,
  `Admissions`, `Finishes`, `Passes` and `Requests` say of each operation, on the tables and the clock alone and with
  every bound a number, when it goes through, what it then writes, and with which code it is refused.
* **Histories and cron** (`History`, `HistoryLaws`, `Transcripts`, `Cron`, `CronLaws`, `CronMeaning`): the projection of
  conversations with what each message becomes and how large it is, and the three cron acceptors with the search for the
  next due minute, read off the text of the expression.
* **Framing** (`Framing`): the two loops that cut frames out of a byte stream.
* **Connectors** (`Connectors`, `ConnectorLaws`, `ConnectorVerdicts`, `ConnectorCore`): one logical write over a database
  and a keychain, with every storage operation allowed to fail and a crash possible after each of them.
* **Replies** (`Json`, `JsonLaws`, `JsonGrammar`, `JsonTrees`, `Components`, `ComponentLaws`, `ReplyVerdicts`,
  `CanonicalText`, `ReplyScan`): the grammar of JSON texts and that the reader takes exactly these, the strict reading of
  component envelopes, the canonical form letter by letter, and what the scan of a raw reply sees.
* **The window and the host** (`Renderer`, `RendererLaws`, `RendererDrafts`, `RendererRuns`, `RendererTexts`,
  `RendererMessages`, `AppStores`): drafts, sends, cancels and deletes of one workspace, interleaved at every await with
  the host's row, and what becomes of the text that is typed.

`dafny verify dfyconfig.toml` checks the whole project.

## How to read the model

The engine's clock is an integer number of milliseconds, read once in a transaction. Ids are numbers; a minted id is a
parameter that no table has used. Digests and tokens stand for what they were made from. A fault is an `Err` and leaves
the tables of its transaction as they were, with one exception that the source makes itself: a scheduler pass catches a
refused admission inside its transaction, so the workspace record that admission made stays.

Three things about the source that a reader may not expect are part of the model. Deleting an interface turns even its
published proposals to `invalidated`. Pausing moves an ended schedule to `paused`; what keeps it from ever being enabled
again is that its time or its attempts are used up. Ending a run that is being cancelled returns before its tool results
are wiped.

One promise does not hold of the source as it stands: that with nothing under way the window and the host agree on the
draft. When a workspace is to be deleted while a message is being started, the acknowledgement of the start is dropped;
if the delete then fails, the entry keeps the sent text, marked as saved, at a version behind the host's.
`RendererRuns.FailedDeleteDisagrees` is such a run. `RendererRuns.AgreementIffNoAckDropped` says that the dropped
acknowledgement is the only way to a disagreement, and `RendererRuns.OpenAgreementIffNoRefusalAfterDrop` that it shows on
an entry that can be worked on exactly when that deletion is then refused.

The client's cron check and the evaluator do not nest on all strings, because they do not split on the same blanks: the
client takes a byte order mark, a vertical tab or a form feed for a blank and the evaluator refuses the expression.
`CronLaws.MarkedExpression` is such an expression, and `CronLaws.ClientRefinesEvaluator` gives the exact condition.

## Model

| member | source | states |
|---|---|---|
| Behaviours.Always | runtime/forma_runtime/store.py:20-619 | in every reachable state, under any interleaving and a clock that does not run back, the joint invariant holds: rows and gapless logs, exclusive admission, live references, captured histories, revision chains, owned proposals, budgets, schedule counts and slots |
| Behaviours.Between | runtime/forma_runtime/store.py:20-619 | any later state is an advance on any earlier one: what is immutable never changes, what is final stays, what only grows only grows |
| Behaviours.HistoriesAppendOnly | runtime/forma_runtime/store.py:109-117 | a workspace's committed history is only ever extended until the workspace is deleted, and then it is empty for good |
| Behaviours.OperatorSuccessExtends | runtime/forma_runtime/store.py:515-538 | an operator run that succeeds commits a stored history that strictly extends the one its workspace had committed, beginning with the operator's message |
| Behaviours.LiveWorkHasAuthority | runtime/forma_runtime/store.py:119-141 | every run that may still act and every enabled schedule has its undeleted workspace, its undeleted interfaces and its unrevoked grants at the captured generation, in every reachable state |
| Behaviours.AdmissionIsExclusive | runtime/forma_runtime/store.py:143-167 | at most eight runs are unfinished, pairwise in different workspaces and with disjoint connections |
| Behaviours.ConnectionsAreDisjoint | runtime/forma_runtime/store.py:153-159 | the grants of two different live runs never lead to the same connection |
| Behaviours.BudgetsHold | runtime/forma_runtime/store.py:456-461 | tool calls, model requests and daily usage never exceed what was given, and the deadline stays where admission put it |
| Behaviours.TerminalIsFinal | runtime/forma_runtime/store.py:215-227 | a run that is over never changes state, and one that is stopping never acts again |
| Behaviours.RunsAndReceiptsApart | runtime/forma_runtime/store.py:218-223 | no id is ever both a run and a cancellation receipt, at any two moments of a run of the system |
| Behaviours.AttemptsConserved | runtime/forma_runtime/store.py:591-619 | runsStarted equals the number of admitted occurrences, equals the number of runs carrying the schedule's id, and never exceeds maxRuns |
| Behaviours.EndedForGood | runtime/forma_runtime/store.py:263-276 | a schedule that was once ended is never enabled again |
| Behaviours.SlotsAdvance | runtime/forma_runtime/store.py:600-605 | the next due minute of an enabled schedule fits the text of its expression, lies before its end and is later than every minute settled, so the duplicate check never fires |
| Behaviours.EachRunHasItsMinute | runtime/forma_runtime/store.py:600-619 | each run of a schedule was admitted for a minute of its own: one that fits the text of the schedule's expression, before the end, under a minute old at admission |
| Behaviours.CronsHaveText | runtime/forma_runtime/store.py:387-402 | every schedule's expression was parsed from a text |
| Behaviours.LogsAreGapless | runtime/forma_runtime/store.py:92-103 | a run's events are exactly 1 to lastSeq, end in its state, and are only appended to |
| Behaviours.RevisionsUnbroken | runtime/forma_runtime/store.py:356-363 | revisions 1 to current all exist with the one before as parent, and the head is the last of them |
| Behaviours.RevisionsImmutable | runtime/forma_runtime/store.py:356-363 | a stored revision is never rewritten and an interface's revision never goes back |
| Behaviours.RefreshesPublishOnce | runtime/forma_runtime/store.py:531-544 | a scheduled run that succeeded published exactly one revision, its admission-time target plus one, and in every state from its admission to the step at which it succeeded its schedule had the version captured at admission; one that has not succeeded published none |
| Behaviours.PendingHasItsRun | runtime/forma_runtime/store.py:409-419 | a pending proposal of a run belongs to a run at work, or to an operator's run that succeeded |
| Behaviours.PublishedAtMostOnce | runtime/forma_runtime/store.py:365-385 | over a whole run of the system a proposal is published at most once |
| Behaviours.ReceiptsKept | runtime/forma_runtime/store.py:169-179 | a receipt, once written, is kept |
| Behaviours.RepliesAreIdempotent | runtime/forma_runtime/store.py:169-179 | a request answered once is answered the same for ever and changes nothing again; its key with another body is refused |
| Polling.Poll | runtime/forma_runtime/store.py:301-315 | builds a page by fetching one row more than asked for and adding rows until the reply is full; equal to the page function |
| Polling.PageIsSlice | runtime/forma_runtime/store.py:303-315 | a page of a gapless log is the slice after the cursor, says there is more exactly when there is, and is not empty when something left fits |
| Polling.PageIsFull | runtime/forma_runtime/store.py:303-315 | a page takes every event that fits behind those before it and stops only at the end of the log, at its limit, or at the first event that does not fit |
| Polling.FollowsPrefix | runtime/forma_runtime/store.py:303-316 | polls that follow nextAfter from 0 over growing logs read a prefix, without gap or duplicate |
| Polling.PollerReadsPrefix | runtime/forma_runtime/store.py:303-316 | the same over any run of the engine, whatever happens between polls |
| RunSteps.EmitKeepsInv | runtime/forma_runtime/store.py:92-96 | recording an event keeps the joint invariant |
| RunSteps.MoveKeepsInv | runtime/forma_runtime/store.py:98-103 | changing state keeps the joint invariant |
| RunSteps.SweepKeepsInv | runtime/forma_runtime/store.py:414-419 | stopping any set of runs with their proposals keeps the joint invariant |
| RunSteps.PauseKeepsInv | runtime/forma_runtime/store.py:404-407 | pausing any set of schedules and stopping their runs keeps the joint invariant |
| RunSteps.StartKeepsInv | runtime/forma_runtime/store.py:498-506 | dispatch keeps the joint invariant |
| RunSteps.CancelKeepsInv | runtime/forma_runtime/store.py:217-227 | cancelling, before or after admission, keeps the joint invariant |
| RunSteps.RecoverKeepsInv | runtime/forma_runtime/store.py:581-589 | recovery keeps the joint invariant |
| Authority.TouchKeepsInv | runtime/forma_runtime/store.py:109-117 | making or initialising a workspace record keeps the joint invariant |
| Authority.CreateGrantKeepsInv | runtime/forma_runtime/store.py:194-203 | granting keeps the joint invariant |
| Authority.HaltKeepsInv | runtime/forma_runtime/store.py:404-419 | after both bulk stops none of the runs and schedules aimed at is live, and nothing else of the tables has changed |
| Authority.DeleteWorkspaceKeepsInv | runtime/forma_runtime/store.py:187-193 | deleting a workspace keeps the joint invariant |
| Authority.DeleteInterfaceKeepsInv | runtime/forma_runtime/store.py:242-249 | deleting an interface, published proposals included, keeps the joint invariant |
| Authority.RevokeGrantKeepsInv | runtime/forma_runtime/store.py:204-214 | revoking a grant keeps the joint invariant |
| Authority.FenceModelConfigurationKeepsInv | runtime/forma_runtime/store.py:551-566 | a change of model configuration keeps the joint invariant |
| Admission.Placed | runtime/forma_runtime/store.py:148-157 | what the admission checks establish: live references, room in the queue, and no clash with unfinished work |
| Admission.CreateOperatorRunKeepsInv | runtime/forma_runtime/store.py:143-167 | admitting an operator's run keeps the joint invariant; it captures exactly the committed history |
| Publication.WriteKeepsInv | runtime/forma_runtime/store.py:356-363 | writing a revision keeps the joint invariant |
| Publication.RenameKeepsInv | runtime/forma_runtime/store.py:250-255 | renaming keeps the joint invariant |
| Publication.RollbackKeepsInv | runtime/forma_runtime/store.py:252-255 | rolling back keeps the joint invariant |
| Publication.ProposeKeepsInv | runtime/forma_runtime/store.py:337-354 | proposing, by an operator or a run at work, keeps the joint invariant |
| Publication.PublishMeans | runtime/forma_runtime/store.py:365-385 | a publication that succeeded found a pending proposal, the expected head and a live interface, and left the next revision and one event |
| Publication.PublishKeepsInv | runtime/forma_runtime/store.py:365-385 | publishing keeps the joint invariant |
| Scheduling.CreateScheduleKeepsInv | runtime/forma_runtime/store.py:387-402 | creating a schedule keeps the joint invariant |
| Scheduling.EnableKeepsInv | runtime/forma_runtime/store.py:263-276 | enabling, also of an enabled schedule, keeps the joint invariant |
| Scheduling.DeleteScheduleKeepsInv | runtime/forma_runtime/store.py:277-281 | deleting a schedule keeps the joint invariant |
| Scheduling.DueIsNew | runtime/forma_runtime/store.py:603-605 | the due minute of an enabled schedule has never been settled |
| Scheduling.RefusedKeepsInv | runtime/forma_runtime/store.py:610-618 | a refused attempt leaves at most the workspace record it touched, and the joint invariant |
| Scheduling.AttemptKeepsInv | runtime/forma_runtime/store.py:600-619 | settling a due minute as missed, admitted or refused keeps the joint invariant, counts included |
| Scheduling.TickKeepsInv | runtime/forma_runtime/store.py:591-619 | a scheduler pass over all rows keeps the joint invariant |
| Work.ReserveKeepsInv | runtime/forma_runtime/store.py:568-579 | counting a model request keeps the joint invariant |
| Work.CallToolKeepsInv | runtime/forma_runtime/store.py:456-491 | a tool call of a started run keeps the joint invariant |
| Work.ClaimKeepsInv | runtime/forma_runtime/store.py:421-436 | leasing a tool request keeps the joint invariant |
| Work.DeliverKeepsInv | runtime/forma_runtime/store.py:437-454 | delivering a tool result keeps the joint invariant |
| Work.RefreshMeans | runtime/forma_runtime/store.py:531-536 | a scheduled success found exactly one pending proposal and a schedule whose version is the one captured at admission |
| Work.RefreshFinishKeepsInv | runtime/forma_runtime/store.py:531-544 | a scheduled success, publishing through a separately loaded run, keeps the joint invariant |
| Work.FinishKeepsInv | runtime/forma_runtime/store.py:515-549 | every way a run can end keeps the joint invariant |
| Successes.StepSucceeds | runtime/forma_runtime/store.py:515-549 | no step but the end of a run as a complete success makes a run succeed, and that only the run it ends |
| System.RouteKeepsInv | runtime/forma_runtime/store.py:181-282 | every request keeps the joint invariant |
| System.StepKeepsInv | runtime/forma_runtime/store.py:169-619 | every step of the system keeps the joint invariant |
| Outcomes.StartTakesFirst | runtime/forma_runtime/store.py:498-506 | dispatch hands out the first queued run in row order that may act, blocks those queued before it, and moves no other |
| Outcomes.RevocationIsComplete | runtime/forma_runtime/store.py:204-214 | after a revocation nothing live relies on the grant and its tool requests are empty |
| Outcomes.FenceLeavesNothing | runtime/forma_runtime/store.py:551-566 | after a model change there is no live run, enabled schedule, standing grant, pending proposal or open request |
| Outcomes.RecoverySettles | runtime/forma_runtime/store.py:581-589 | after recovery no run is under way and no request is held, while queued runs stay queued |
| Outcomes.PauseStops | runtime/forma_runtime/store.py:277-282 | a paused schedule has no next minute, one version more, and no live run |
| Outcomes.DeletionStopsWork | runtime/forma_runtime/store.py:187-193 | a deleted workspace has no history, no live run and no enabled schedule |
| Outcomes.RollbackUndoesRename | runtime/forma_runtime/store.py:250-255 | rolling back a rename restores title and spec under a new revision |
| Outcomes.OnlyOnePublishes | runtime/forma_runtime/store.py:365-377 | of two proposals against one revision only the first is published, whether by an operator or by the end of a scheduled run |
| Outcomes.LeaseIsExclusive | runtime/forma_runtime/store.py:428-436 | while a lease runs nobody else gets one |
| Outcomes.DeliveryIsIdempotent | runtime/forma_runtime/store.py:437-445 | the same delivery again changes nothing, another one is refused |
| Outcomes.SuccessIsRecorded | runtime/forma_runtime/store.py:531-549 | a success appends exactly the message and the state, for a scheduled run after the revision it published, keeps the final message, and closes the run's tool requests |
| Outcomes.FailureKeepsNothing | runtime/forma_runtime/store.py:540-549 | a failed run ends blocked or failed by its code, keeps no pending proposal or open request, and leaves histories and interfaces alone |
| Outcomes.AdmissionCaptures | runtime/forma_runtime/store.py:158-167 | the new run captured its workspace's history or its schedule's version and target revision, and is last in the queue |
| Outcomes.CallIsCounted | runtime/forma_runtime/store.py:456-462 | a tool call that does anything is counted once |
| Outcomes.ReservationIsCounted | runtime/forma_runtime/store.py:568-579 | a model request is counted once for its run and once for its day |
| Transactions.Store.constructor | runtime/forma_runtime/store.py:20-54 | starts from empty tables |
| Transactions.Store.Record | runtime/forma_runtime/store.py:92-96 | numbers an event on a loaded run that is not stale, and writes both back |
| Transactions.Store.SetState | runtime/forma_runtime/store.py:98-103 | changes state and reason and records it |
| Transactions.Store.TouchRecord | runtime/forma_runtime/store.py:109-117 | makes or initialises a workspace record, or refuses and changes nothing |
| Transactions.Store.CheckGrants | runtime/forma_runtime/store.py:119-128 | the loop over grant references decides as the recursive check does |
| Transactions.Store.FenceRun | runtime/forma_runtime/store.py:130-141 | decides whether a run may act, check by check, as the fence function does, which `Verdicts.FenceExactly` and `Verdicts.FenceCode` pin to the tables and the clock |
| Transactions.Store.CreateRun | runtime/forma_runtime/store.py:143-167 | leaves the tables of the admission function, also where it refuses after touching the workspace |
| Transactions.Store.Post | runtime/forma_runtime/store.py:169-179 | answers from the receipt, or dispatches and keeps a receipt, or restores the tables |
| Transactions.Store.Answer | runtime/forma_runtime/store.py:181-282 | each route leaves the tables and gives the reply of the dispatch function |
| Transactions.Store.DeleteWorkspace | runtime/forma_runtime/store.py:187-193 | record first, then runs, then schedules, with the effect of the engine's function |
| Transactions.Store.CreateGrant | runtime/forma_runtime/store.py:194-203 | has the effect of the engine's function |
| Transactions.Store.RevokeGrant | runtime/forma_runtime/store.py:204-214 | grant first, then runs, schedules and requests, with the effect of the engine's function |
| Transactions.Store.CancelRun | runtime/forma_runtime/store.py:217-227 | stops a run or leaves a receipt |
| Transactions.Store.DeleteInterface | runtime/forma_runtime/store.py:242-249 | record first, then runs, schedules and proposals, with the effect of the engine's function |
| Transactions.Store.RenameInterface | runtime/forma_runtime/store.py:250-255 | has the effect of the engine's function |
| Transactions.Store.RollbackInterface | runtime/forma_runtime/store.py:252-255 | has the effect of the engine's function |
| Transactions.Store.EnableSchedule | runtime/forma_runtime/store.py:263-276 | has the effect of the engine's function |
| Transactions.Store.DeleteSchedule | runtime/forma_runtime/store.py:277-281 | has the effect of the engine's function |
| Transactions.Store.Propose | runtime/forma_runtime/store.py:337-354 | has the effect of the engine's function |
| Transactions.Store.WriteInterface | runtime/forma_runtime/store.py:356-363 | appends the revision and makes it the head |
| Transactions.Store.Publish | runtime/forma_runtime/store.py:365-385 | has the effect of the engine's function; a refusal changes nothing |
| Transactions.Store.CreateSchedule | runtime/forma_runtime/store.py:387-402 | has the effect of the engine's function |
| Transactions.Store.Pause | runtime/forma_runtime/store.py:404-407 | writes the schedule and stops its runs |
| Transactions.Store.InvalidateProposals | runtime/forma_runtime/store.py:409-412 | the loop drops exactly the run's pending proposals |
| Transactions.Store.Invalidate | runtime/forma_runtime/store.py:414-419 | the loop over all runs amounts to one stop of those that match |
| Transactions.Store.PauseAll | runtime/forma_runtime/store.py:192-192 | the loops over schedules amount to one pause of those that match |
| Transactions.Store.ClaimRequest | runtime/forma_runtime/store.py:421-436 | has the effect of the engine's function |
| Transactions.Store.DeliverResult | runtime/forma_runtime/store.py:437-454 | has the effect of the engine's function |
| Transactions.Store.CallTool | runtime/forma_runtime/store.py:456-491 | has the effect of the engine's function |
| Transactions.Store.StartNext | runtime/forma_runtime/store.py:498-506 | the loop over queued runs hands out the run the recursive function does |
| Transactions.Store.Delta | runtime/forma_runtime/store.py:508-513 | has the effect of the engine's function; a refusal changes nothing |
| Transactions.Store.Complete | runtime/forma_runtime/store.py:521-539 | commits or refuses without a trace; the run is loaded again after a publication |
| Transactions.Store.Finish | runtime/forma_runtime/store.py:515-549 | ends a run in each of its four ways |
| Transactions.Store.FenceModelConfiguration | runtime/forma_runtime/store.py:551-566 | its five loops have the effect of the engine's function |
| Transactions.Store.ReserveModelRequest | runtime/forma_runtime/store.py:568-579 | has the effect of the engine's function; a refusal changes nothing |
| Transactions.Store.Recover | runtime/forma_runtime/store.py:581-589 | its two loops have the effect of the engine's function |
| Transactions.Store.Attempt | runtime/forma_runtime/store.py:606-619 | settles a due minute, catching a refused admission inside the pass |
| Transactions.Store.Tick | runtime/forma_runtime/store.py:591-619 | the loop over schedules has the effect of the recursive pass |
| Transactions.Store.Serve | runtime/forma_runtime/store.py:169-619 | whatever the system's step is, the store does it and keeps the joint invariant |
| Sweeps.SweepUnion | runtime/forma_runtime/store.py:414-419 | stops of disjoint sets of runs add up to one |
| Sweeps.PauseMore | runtime/forma_runtime/store.py:404-407 | pausing one schedule after another adds up to one pause |
| History.ScanHistory | runtime/forma_runtime/contracts.py:137-201 | the loop that tracks pending and seen calls computes the projection |
| HistoryLaws.NormaliseComposes | runtime/forma_runtime/contracts.py:137-201 | a history whose second part begins with a user message is accepted exactly when both parts are, with the outputs joined |
| HistoryLaws.NormaliseIsIdempotent | runtime/forma_runtime/contracts.py:137-201 | projecting a projection changes nothing, message for message |
| HistoryLaws.RuntimeHistoryIsIdempotent | runtime/forma_runtime/contracts.py:137-201 | the same with the size limits in force |
| HistoryLaws.NormaliseAcceptsConversations | runtime/forma_runtime/contracts.py:137-201 | accepted exactly when every tool call is answered once before the next message that is no answer |
| HistoryLaws.CompletedExtends | runtime/forma_runtime/contracts.py:227-237 | a completed history strictly extends the captured one by a turn beginning with the operator's message, and is itself in stored form |
| HistoryLaws.ImportIsStored | runtime/forma_runtime/contracts.py:128-135 | every import the wire accepts is in stored form |
| Cron.ParseField | runtime/forma_runtime/contracts.py:369-389 | the loop over list terms computes the field's set or refuses |
| Cron.Next | runtime/forma_runtime/contracts.py:397-403 | the minute-by-minute search computes the answer that `CronMeaning.NextExactly` gives from the text: the least minute that fits it |
| Cron.ValidateScheduleCron | src/app/library-interactions.ts:26-42 | the client's nested loops decide as the client predicate does |
| CronLaws.FieldIsUnion | runtime/forma_runtime/contracts.py:369-389 | a field's set is the union of its terms, within its range |
| CronLaws.WeekdaysFoldSunday | runtime/forma_runtime/contracts.py:359-367 | the weekday set has 7 folded to 0 and is otherwise the field's |
| CronLaws.NextDueIsLeast | runtime/forma_runtime/contracts.py:397-403 | of the minutes that match the parsed expression, the answer is the least matching minute strictly after the given one and before the end and 366 days, and none exactly when there is none |
| CronLaws.ClientRefinesEvaluator | src/app/library-interactions.ts:26-42 | for every string: without a foreign blank the client accepts exactly what the evaluator accepts in at most 100 characters and with every step within its field's width; what the one accepts within these bounds the other does if and only if no blank in it is foreign (vertical tab, form feed, information separators, next line, byte order mark) |
| CronLaws.EvaluatorRefinesProposal | runtime/forma_runtime/cron_proposals.py:22-69 | for every string: the evaluator accepts exactly what the proposal check, with all of Unicode's decimal digits, accepts as text of at most 120 characters over ASCII digits, signs and blanks with bounded steps |
| CronLaws.AcceptorsNest | runtime/forma_runtime/cron_proposals.py:54-69 | for every string: what the evaluator accepts the proposal check accepts, and what the client accepts the evaluator accepts if and only if every blank in it is one to both |
| CronLaws.MarkedExpression | src/app/library-interactions.ts:26-28 | an expression behind a byte order mark, which the client accepts and the evaluator refuses |
| Framing.ReadWorker | runtime/forma_runtime/supervisor.py:525-566 | whatever the sizes of the reads, the frames and the end, which may depend on all frames read so far, are those of the stream alone, and the buffer never exceeds the limit by more than one byte |
| Framing.ReadController | runtime/forma_runtime/managed.py:228-250 | the same for the controller's nested loops |
| Framing.FramesRoundTrip | runtime/forma_runtime/supervisor.py:525-538 | frames sent, none of which ends the loop, are the frames read, and what follows is read as coming after them |
| Framing.ReadingLosesNothing | runtime/forma_runtime/managed.py:228-250 | the stream is the frames read and a remainder that explains the end: closed within bounds, too long without a newline, or finished |
| ConnectorLaws.CommitNewKeeps | src-tauri/src/connectors.rs:351-386 | whenever a commit succeeds or fails (`ConnectorVerdicts.CommitNewExactly` says which), a new connection is all there or not visible; on every disk on the way a visible row has its secret and a secret has a row; no other connection is touched |
| ConnectorLaws.CommitRefreshKeeps | src-tauri/src/connectors.rs:502-553 | a refresh is refused, done whole, or ends hidden, under the same agreement |
| ConnectorLaws.UndoKeeps | src-tauri/src/connectors.rs:334-350 | undoing removes the secret before the row and never shows the connection |
| ConnectorLaws.DisconnectKeeps | src-tauri/src/connectors.rs:554-581 | still visible exactly if it was and hiding failed; a secret remains exactly if there was one and hiding or removing failed; the lease is always gone |
| ConnectorLaws.StoresAgree | src-tauri/src/connectors.rs:351-581 | in every run, after every storage operation of every call, with any of them failing, crashes inside calls and restarts between them, the two stores agree |
| ConnectorLaws.CrashIsFailure | src-tauri/src/connectors.rs:334-581 | a crash after any storage operation of a call leaves the disk of that call with its remaining operations failing and the process then stopping |
| ConnectorLaws.NeverComesBack | src-tauri/src/connectors.rs:334-581 | a connection that is hidden or gone stays so and its secret is never written again |
| ConnectorLaws.DisconnectIsFinal | src-tauri/src/connectors.rs:554-581 | after a disconnect that hid the row the connection is never seen again, and none of its secrets is ever stored again once removed; if hiding failed it is as visible as before |
| ConnectorLaws.LateRefreshIsRefused | src-tauri/src/connectors/lifecycle.rs:194-216 | a refresh whose lease was taken away is refused for ever and writes nothing |
| ConnectorCore.Core.SaveRow | src-tauri/src/connectors/store.rs:76-109 | writes a row or fails without effect |
| ConnectorCore.Core.MarkDisconnected | src-tauri/src/connectors/store.rs:110-115 | hides a row that exists, and tells whether it did |
| ConnectorCore.Core.CheckAttempt | src-tauri/src/connectors/lifecycle.rs:111-122 | expires a pending attempt, then tells whether it is this one |
| ConnectorCore.Core.FinishRefresh | src-tauri/src/connectors/lifecycle.rs:206-210 | drops a lease only by its own generation |
| ConnectorCore.Core.RollbackStaged | src-tauri/src/connectors.rs:334-350 | does the storage operations of the undo function, in order |
| ConnectorCore.Core.CommitNew | src-tauri/src/connectors.rs:351-386 | does the storage operations of the commit function, in order; when it succeeds and what it leaves is `ConnectorVerdicts.CommitNewExactly` |
| ConnectorCore.Core.BeginRefresh | src-tauri/src/connectors.rs:455-493 | leases a refresh of a visible connection with a refresh token, one at a time |
| ConnectorCore.Core.CommitRefresh | src-tauri/src/connectors.rs:502-553 | does the storage operations of the refresh function, in order |
| ConnectorCore.Core.Disconnect | src-tauri/src/connectors.rs:554-581 | does the storage operations of the disconnect function, in order |
| Components.BoundedJson | src-tauri/src/hermes.rs:206-236 | the scan over bytes decides as the scan function does |
| Components.EscapedContains | src-tauri/src/hermes.rs:128-146 | the loop finds the text exactly if it occurs in the input with every escape replaced by the character it spells, as `CanonicalText.UnescapeExactly` and `CanonicalText.UnescapePlain` give it |
| JsonLaws.ReadEscaped | src-tauri/src/hermes.rs:149-192 | an escaped string reads back as itself, whatever follows |
| JsonLaws.ReadPrinted | src-tauri/src/hermes.rs:93-122 | a printed document reads back as the value it stands for, whatever follows |
| ComponentLaws.ParsedIsValid | src-tauri/src/hermes.rs:238-345 | blocks that were read are within all limits |
| ComponentLaws.ReadEnvelope | src-tauri/src/hermes.rs:238-345 | the printed envelope of valid blocks reads back as those blocks |
| ComponentLaws.ScanPrinted | src-tauri/src/hermes.rs:206-236 | a printed document within the depth passes the bounding scan |
| ComponentLaws.CanonicalReads | src-tauri/src/hermes.rs:93-122 | the canonical text validates to the blocks it was made from |
| ComponentLaws.CanonicalPreservesMeaning | src-tauri/src/hermes.rs:93-122 | a reply that is let through means what the raw reply meant, with or without a forbidden text |
| ComponentLaws.CanonicalIsIdempotent | src-tauri/src/hermes.rs:93-122 | without a forbidden text every reply is let through, a second pass changes nothing, and what is no envelope comes back byte for byte |
| ComponentLaws.CanonicalIsCanonical | src-tauri/src/hermes.rs:93-122 | replies with the same blocks have the same canonical text |
| ComponentLaws.ScanSeesFields | src-tauri/src/hermes.rs:124-144 | the structure-blind scan sees whatever a decoded field of a printed reply holds |
| ReplyScan.UnescapeString | src-tauri/src/hermes.rs:149-192 | what the parser takes for a string, which `JsonGrammar.StringExactly` pins to its spellings, the scan decodes to the same text, whatever follows |
| ReplyScan.ScanSeesValue | src-tauri/src/hermes.rs:124-146 | for every raw text that parses, the scan of the raw text finds whatever a decoded text or name in the value holds |
| ReplyScan.ScanSeesReply | src-tauri/src/hermes.rs:124-146 | for every raw reply that is an envelope, spaced and escaped as it may be, the scan finds whatever a decoded text of its blocks holds |
| ReplyScan.ForbiddenIsRefused | src-tauri/src/hermes.rs:93-117 | a reply with a forbidden text in one of its blocks is refused by the scan of the raw reply alone |
| RendererRuns.Always | src/app/store.ts:124-401 | in every reachable state each call that is out belongs to what the entry waits for, and earlier requests are settled |
| RendererRuns.VersionsNeverDecrease | src/app/store.ts:165-177 | the entry's version never goes back, under every interleaving |
| RendererRuns.AgreementIffNoAckDropped | src/app/store.ts:340-351 | in every quiet state of a run window and host hold the same draft and version, if and only if no acknowledgement of a start came back while the entry was blocked for deletion |
| RendererRuns.OpenAgreementIffNoRefusalAfterDrop | src/app/store.ts:290-321 | in every quiet state of an entry that is not blocked both hold the same draft and version, if and only if no deletion that dropped an acknowledgement was then refused |
| RendererRuns.FailedDeleteDisagrees | src/app/store.ts:290-321 | a run in which that happens: after a failed delete the entry is usable and holds the sent text as saved while the host has moved on |
| RendererRuns.RequestsTakeTurns | src/app/store.ts:323-401 | when a start is issued every earlier request has finished, its cancel has been acknowledged, nothing of it is out, and the draft is saved |
| RendererRuns.NeverTwoOfAKind | src/app/store.ts:218-244 | no draft, start, chat, cancel or delete call is issued while one of its kind is out |
| RendererRuns.DeletedIsSilent | src/app/store.ts:290-321 | once deleted a workspace is never listed again and no draft, start or cancel call is issued for it |
| RendererLaws.PumpKeeps | src/app/store.ts:218-244 | running the chained flushes keeps the shape of reachable states and leaves none waiting that could run |
| RendererDrafts.ActForward | src/app/store.ts:165-177 | each step keeps a clean entry at or behind the host and never takes its version back |
| AppStores.AppStore.ApplyMessages | src/app/store.ts:165-177 | only an equal or newer version replaces a clean draft |
| AppStores.AppStore.EditDraft | src/app/store.ts:201-212 | does what the edit function does, which `RendererTexts.EditExactly` pins: an accepted text is what the entry holds, at the next version and to be saved |
| AppStores.AppStore.RunFlushes | src/app/store.ts:218-244 | the chained loop issues at most one draft call and lets the rest go |
| AppStores.AppStore.DeliverDraft | src/app/store.ts:225-242 | an acknowledged draft cleans the entry only if nothing was typed since |
| AppStores.AppStore.Send | src/app/store.ts:323-338 | a request is made only when nothing stands against it |
| AppStores.AppStore.ResumeReply | src/app/store.ts:124-138 | a pending reply is taken up only when there is no request |
| AppStores.AppStore.DeliverStart | src/app/store.ts:340-356 | the host's draft is taken unless blocked, and a stale or cancelled request is stopped |
| AppStores.AppStore.DeliverChat | src/app/store.ts:357-370 | a late completion is applied only for a current request |
| AppStores.AppStore.CancelAcknowledged | src/app/store.ts:381-394 | one cancel call for a request |
| AppStores.AppStore.CancelEntry | src/app/store.ts:395-401 | a failed cancel may be repeated |
| AppStores.AppStore.DeliverCancel | src/app/store.ts:381-394 | an acknowledged cancel releases a finished request |
| AppStores.AppStore.RuntimeRefreshed | src/app/store.ts:371-379 | a request is released only when it is finished and no cancel of it is out or failed |
| AppStores.AppStore.BeginDelete | src/app/store.ts:290-299 | blocks the entry and stops its request |
| AppStores.AppStore.CallDelete | src/app/store.ts:299-305 | the delete call waits for issued writes and the request |
| AppStores.AppStore.DeliverDelete | src/app/store.ts:305-321 | deleted and unlisted, or unblocked |
| AppStores.HostRow.UpdateDraft | src-tauri/src/store.rs:217-225 | writes only a newer version, and returns the row |
| AppStores.HostRow.StartCaptured | src-tauri/src/store.rs:263-325 | empties the draft and moves its version by one, or changes nothing |
| AppStores.HostRow.CancelPending | src-tauri/src/store.rs:346-349 | ends the pending reply of the request that is named, and no other |
| AppStores.HostRow.Delete | src-tauri/src/store.rs:235-253 | removes the row, and fails when there is none |
| Verdicts.FenceExactly | runtime/forma_runtime/store.py:130-141 | a run passes the fence if and only if it is queued, running or waiting, its workspace stands, its model is offered, the clock is before its deadline, every grant stands unrevoked, unexpired and for this workspace, model and device, every interface stands, and its schedule is enabled or ended at the captured version with time left |
| Verdicts.FenceCode | runtime/forma_runtime/store.py:119-141 | a run that may not act is refused with the code of the first thing that stands against it, in the source's order |
| Writes.ProposeExactly | runtime/forma_runtime/store.py:337-354 | when a proposal is accepted, and the pending row, workspace record and event it writes |
| Writes.ProposeCode | runtime/forma_runtime/store.py:337-354 | the code of the first thing that stands against a proposal |
| Writes.PublishExactly | runtime/forma_runtime/store.py:365-385 | a publication goes through if and only if the proposal is pending at the expected revision, its workspace and interface stand at it, and its source run may act (scheduled) or succeeded with standing grants (operator); and exactly what it writes |
| Writes.PublishCode | runtime/forma_runtime/store.py:365-385 | the code of the first thing that stands against a publication |
| Writes.RenameExactly | runtime/forma_runtime/store.py:250-255 | when a rename is accepted and the revision it writes |
| Writes.RollbackExactly | runtime/forma_runtime/store.py:252-255 | when a rollback is accepted and the revision it writes |
| Writes.CreateScheduleExactly | runtime/forma_runtime/store.py:387-402 | when a schedule is accepted, every bound a number, and the paused row and event it writes |
| Writes.CreateScheduleCode | runtime/forma_runtime/store.py:387-402 | the code of the first thing that stands against a new schedule |
| Calls.DeltaExactly | runtime/forma_runtime/store.py:508-513 | when a delta is accepted and the event it writes |
| Calls.ReserveExactly | runtime/forma_runtime/store.py:568-579 | when a model request is let through and the two counters it moves |
| Calls.CallExactly | runtime/forma_runtime/store.py:456-491 | when each tool call goes through and exactly what each tool leaves, with the call counted |
| Calls.CallCode | runtime/forma_runtime/store.py:456-491 | the code of a refused tool call |
| Calls.GoogleExactly | runtime/forma_runtime/store.py:475-491 | a device request needs a valid window, standing grants and exactly one grant that offers the tool; it runs to the run's deadline or the grant's end, whichever is first |
| Calls.ClaimExactly | runtime/forma_runtime/store.py:421-436 | when a request is leased, and for how long: half a minute or until the request ends |
| Calls.DeliverExactly | runtime/forma_runtime/store.py:437-454 | when a result is taken and what it writes; the same delivery again writes nothing |
| Calls.DeliverCode | runtime/forma_runtime/store.py:437-454 | the code of a refused delivery |
| Calls.LateCallsAreRefused | runtime/forma_runtime/store.py:130-141 | at or after a run's deadline deltas, model requests, tool calls, leases and deliveries are all refused |
| Endings.SweepIsExact | runtime/forma_runtime/store.py:414-419 | what a stop or an interruption does to every run, log and proposal, row by row |
| Endings.PauseIsExact | runtime/forma_runtime/store.py:404-407 | what a pause does to every schedule and to the runs it started |
| Endings.CancelExactly | runtime/forma_runtime/store.py:217-227 | what cancelling leaves: a receipt, nothing, or one stopped run |
| Endings.RecoverExactly | runtime/forma_runtime/store.py:581-589 | what a restart leaves of every run and request |
| Withdrawals.CreateGrantExactly | runtime/forma_runtime/store.py:194-203 | when a grant is given and the row it writes |
| Withdrawals.RevokeExactly | runtime/forma_runtime/store.py:204-214 | when a grant is revoked, and what that stops, pauses and withdraws |
| Withdrawals.DeleteWorkspaceExactly | runtime/forma_runtime/store.py:187-193 | what deleting a workspace stops, pauses and leaves of its record |
| Withdrawals.DeleteInterfaceExactly | runtime/forma_runtime/store.py:242-249 | when an interface is deleted and what that stops, pauses and invalidates |
| Withdrawals.PauseScheduleExactly | runtime/forma_runtime/store.py:277-281 | when a schedule is paused and what that writes |
| Withdrawals.DeleteScheduleExactly | runtime/forma_runtime/store.py:277-281 | when a schedule is deleted and what that writes |
| Withdrawals.FenceModelExactly | runtime/forma_runtime/store.py:551-566 | what a change of model configuration stops, pauses, revokes, invalidates and withdraws |
| Admissions.CreateRunExactly | runtime/forma_runtime/store.py:143-167 | a run is admitted if and only if the request is well formed, its model offered, the worker ready, its id new, its workspace free for it, its grants and interfaces standing, fewer than eight runs unfinished and none in the workspace or on one of the connections; and exactly the row, log and record written |
| Admissions.RefusalExactly | runtime/forma_runtime/store.py:143-167 | the code of a refused admission, and that it leaves at most the workspace record |
| Finishes.FinishExactly | runtime/forma_runtime/store.py:515-549 | which of its four ends a run comes to, and exactly what each writes: nothing, a cancellation, a success with the committed history or the one publication, or a failure with the first thing against it |
| Finishes.CompleteExactly | runtime/forma_runtime/store.py:521-539 | a run succeeds if and only if it may act, no failure was reported, the result is whole, within its sizes and extends the captured history by one turn, and a scheduled run prepared exactly one publication that may go through |
| Finishes.CompleteCode | runtime/forma_runtime/store.py:521-549 | the code with which a run that may not succeed fails |
| Finishes.AcceptExactly | runtime/forma_runtime/store.py:521-530 | which worker results are accepted, and the code for those that are not |
| Finishes.LateFinishFails | runtime/forma_runtime/store.py:515-549 | no live run succeeds at or after its deadline: it ends failed or blocked, and commits and publishes nothing |
| Passes.StartExactly | runtime/forma_runtime/store.py:498-506 | dispatch starts the first queued run that may act, blocks those queued before it with what stands against each, and changes nothing else |
| Passes.EnableExactly | runtime/forma_runtime/store.py:263-276 | when a schedule is enabled, and that its next minute is the least that fits its text |
| Passes.EnableCode | runtime/forma_runtime/store.py:263-276 | the code of a refused enabling |
| Passes.TickOneExactly | runtime/forma_runtime/store.py:591-619 | what a pass leaves of a schedule: alone, ended, missed, admitted or refused, with the next minute that fits its text |
| Passes.TickExactly | runtime/forma_runtime/store.py:591-619 | a scheduler pass is one such tick of each row, in row order |
| CronMeaning.ParseExactly | runtime/forma_runtime/contracts.py:357-389 | an expression is accepted if and only if it has 1 to 120 printable characters and five words, each a list of terms in one of six forms within its bounds |
| CronMeaning.TermExactly | runtime/forma_runtime/contracts.py:369-389 | a term is read exactly in its six forms: a star, a number or a range, each with or without a step |
| CronMeaning.NumberExactly | runtime/forma_runtime/contracts.py:369-389 | a number is read exactly from its decimal notations |
| CronMeaning.WordsExactly | runtime/forma_runtime/contracts.py:357-367 | the words of an expression are what stands between its blanks |
| CronMeaning.MatchesExactly | runtime/forma_runtime/contracts.py:391-395 | a minute matches if and only if the first, second and fourth word name its minute, hour and month, and the day fits: with a star for the day the weekday decides, with a star for the weekday the day does, and otherwise either will do |
| CronMeaning.NextExactly | runtime/forma_runtime/contracts.py:397-403 | the next due minute is the least that fits the words of the text within its window, and none exactly when there is none |
| Transcripts.MessageExactly | runtime/forma_runtime/contracts.py:137-201 | which messages stand on their own, every limit a number and every size that of a UTF-8 text |
| Transcripts.NormaliseExactly | runtime/forma_runtime/contracts.py:137-201 | the projection takes exactly the conversations and makes of them exactly their replay, message by message |
| Transcripts.RuntimeExactly | runtime/forma_runtime/contracts.py:137-201 | a transcript is taken if and only if it is a conversation of at most 1,000 messages whose replay has at most 2,000,000 bytes as canonical text |
| Transcripts.HistorySize | runtime/forma_runtime/contracts.py:39-42 | the size that is limited is that of this canonical text |
| Transcripts.CompletedExactly | runtime/forma_runtime/contracts.py:227-237 | a worker's transcript completes a run if and only if its replay adds one turn of the operator's to what was captured, within the budgets and ending in a word without calls |
| ConnectorVerdicts.CommitNewExactly | src-tauri/src/connectors.rs:351-386 | a commit succeeds if and only if its attempt is pending and in time before and after the writes, the token's scopes are present, allowed, asked for and not repeated, and all three storage operations work; the row shown has exactly those scopes and the token's end, and every other outcome has its own error |
| ConnectorVerdicts.CommitNewLeaves | src-tauri/src/connectors.rs:334-386 | what a refused commit leaves of the world and of every disk on the way |
| ConnectorVerdicts.CommitRefreshExactly | src-tauri/src/connectors.rs:502-553 | the same for a refresh, under its lease |
| ConnectorVerdicts.CommitRefreshLeaves | src-tauri/src/connectors.rs:502-553 | what a refused refresh leaves |
| ConnectorVerdicts.BeginRefreshExactly | src-tauri/src/connectors.rs:455-493 | when a refresh may begin |
| ConnectorVerdicts.AttemptStepsExactly | src-tauri/src/connectors/lifecycle.rs:111-160 | exchanging, cancelling and finishing ask for the attempt that stands, by id and time |
| ConnectorVerdicts.DisconnectExactly | src-tauri/src/connectors.rs:554-581 | what each failing operation of a disconnect leaves and answers |
| JsonGrammar.QuadExactly | src-tauri/src/hermes.rs:182-192 | four hexadecimal digits, small or capital, are read as the number they stand for, highest first, and nothing else is |
| JsonGrammar.EscapeExactly | src-tauri/src/hermes.rs:149-180 | an escape is read as a character if and only if it is one of its spellings: short, four digits, or the two halves of its pair |
| JsonGrammar.StringExactly | src-tauri/src/hermes.rs:149-192 | a string is read exactly from the spellings of its text, up to the first quote that is no part of an escape |
| JsonTrees.ParseExactly | src-tauri/src/hermes.rs:242-246 | a text parses to a value if and only if it is one of the texts the grammar has for it, between blanks |
| ReplyVerdicts.ValidateExactly | src-tauri/src/hermes.rs:84-91 | a reply is taken for components if and only if it has at most 100,000 bytes, nests at most eight deep, and its text is an envelope of exactly those blocks |
| ReplyVerdicts.BlockExactly | src-tauri/src/hermes.rs:261-338 | a value is read as a block exactly when it is that block and nothing besides |
| ReplyVerdicts.BoundedExactly | src-tauri/src/hermes.rs:206-236 | the bounding scan lets a value through exactly within the byte bound and the depth |
| CanonicalText.EnvelopePrinted | src-tauri/src/hermes.rs:93-122 | the canonical form of blocks, letter by letter |
| CanonicalText.CanonicalExactly | src-tauri/src/hermes.rs:93-122 | a reply is held back exactly when it leaks the forbidden text, and comes back as its canonical text if that fits, else as it came |
| RendererTexts.EditExactly | src/app/store.ts:201-212 | an accepted text is what the entry holds, another text than before at the next version and to be saved; in every other case the state is as it was |
| RendererTexts.TypedTextIsSaved | src/app/store.ts:201-244 | in every run each draft call carries the typed text, and the entry turns clean only when a host that holds it has answered |
| RendererTexts.TypedTextIsHeld | src/app/store.ts:165-244 | until edited or started the entry holds the typed text at its version, and once clean so does the host, unless an acknowledgement was dropped |
| RendererTexts.NextCallCarries | src/app/store.ts:218-244 | the next draft call carries the typed text at the version it took |
| RendererTexts.TypedTextLands | src/app/store.ts:218-244 | once that call was accepted and answered, with no edit or start in between, the host row holds the text and the entry is clean |
| RendererMessages.SavedThenStarted | src/app/store.ts:323-340 | a draft still to be saved is saved first, and then the message is started |
| RendererMessages.StartedThenOver | src/app/store.ts:340-379 | a started message that is completed is gone from both sides, one version on, and its request is over |
| RendererMessages.StoppedEarly | src/app/store.ts:381-401 | a message stopped before its acknowledgement is stopped at the host and its request is over |
| RendererMessages.SendExactly | src/app/store.ts:323-338 | a sending makes exactly one request when nothing stands against it and else changes nothing |
| RendererMessages.ReplyExactly | src/app/store.ts:357-370 | what the answer to a current request brings back into the entry |
| Requests.PostExactly | runtime/forma_runtime/store.py:169-282 | a request is answered from its receipt for the same body only, or leaves the tables its route and body lead to and a receipt, or changes nothing |
| Requests.StepsExactly | runtime/forma_runtime/store.py:498-619 | what each of the supervisor's own steps does: dispatch and the scheduler over the rows in the order they were added, and a worker's calls done or without a trace |
| RendererMessages.CancelExactly | src/app/store.ts:381-401 | what a cancel marks, and when its call goes out |
| RendererMessages.CancelAnswerExactly | src/app/store.ts:381-394 | what the answer to a cancel leaves of the request |
| RendererMessages.StartAnswerExactly | src/app/store.ts:340-356 | what the answer to a start leaves of the entry and the request, and when it is stopped at once |
| RendererMessages.WaitExactly | src/app/store.ts:340-379 | what a wait on the runtime leads to, stage by stage |
| RendererMessages.HostExactly | src-tauri/src/store.rs:217-349 | what the host does with a draft, a start and a cancel, and what it answers |
| RendererMessages.DeleteExactly | src/app/store.ts:290-305 | when a deletion is begun and when its call goes out |
| RendererMessages.UnsavedIsNotStarted | src/app/store.ts:225-244 | a draft that could not be saved keeps its sender from starting |

## Left out

- The database, file locks, threads, sockets, TLS, subprocesses and sandboxes: foreign effects. A transaction is one atomic step, and a kernel or disk failure inside it is not modelled.
- Clock readings inside one transaction: the source reads the clock several times, the model once. Timestamps that are only stored or shown (`createdAt` of records, `updatedAt`, `finishedAt`, heartbeats) are not kept.
- The wire forms of requests and replies: field names, unknown fields, status codes and the public projection of objects. A body that does not fit its route is refused. Listing routes and their paging are not modelled, only the polling of a run.
- Interface specifications: a spec is a string, and the validator of its component tree is not part of this model.
- Google tool arguments and results: validity is a flag of the call and of the result.
- The loops of the store read a row when they reach it, where the source loads all rows before the loop; no iteration writes a row that a later one reads.
- The calendar: day, month and weekday of a minute come from a table that is a parameter.
- Python's limit on the digits of an integer, which only the proposal check can meet and which makes it refuse more.
- `canonical` JSON of history values: the codec of tool arguments and results is a parameter of the projection.
- The relay, the provider's stream, URL policy and egress filtering. Which links a card may hold is a parameter of the reply model.
- Numbers in JSON: the bounding scan refuses every digit outside a string before the parser runs, so the reader has no numbers.
- Attempts, browser launch and the loopback listener, except for an attempt's identity, phase and deadline; read grants and the revision counter of the connector lifecycle.
- The window's model has one workspace and leaves out titles, renames, model lists and settings. Waiting for the runtime's status is a step that may come at any time; a navigation may end at any time. These allow more interleavings than the source has.
- Message bodies, provider generations and the runtime's own request table of the host row: the row keeps its draft, its version and the request whose reply is pending. Whether a cancel names that request is a choice of the step in the interleaved model.
- The partial-frame deadline and the response loop of the controller, and what the supervisor does with a frame: whether the frames read so far end the loop, by their kinds or by their budgets of delta bytes and tool attempts, is a parameter.
- The small in-memory data planes of the window, the context envelope, the connector catalogue and React views: they would add only easy members.
