# The employee runtime's journaled state machines, modelled and proved

This project models the stateful core of the WorkAgent employee runtime (`harness-bundle/src`) and its small PDF
exporter (`cmd/officecli-exporter-pdf`), and proves what they are for: that work is neither lost, doubled nor stranded
when calls interleave, requests fail and processes die. `dafny verify dfyconfig.toml` checks all of it.

Most of these components keep maps in memory, save them whole by writing a temporary file and renaming it, and recover
from what was saved last. Each is modelled three times over, and the three are tied together by proof:

- as a value and functions on it, which say what every operation does (`*Model.dfy` and the like);
- as a class with the source's fields, whose methods change them step by step, with the source's loops, and whose
  postconditions equate the new state with the specification of the old one (`TeamStore`, `ConversationQuotas`,
  `SharedTurnRunner`, `Settlements`, `FileMoveStore`, `NativeLog`, `MigrationRun`, `AutomationStore`,
  `ResumableUploads`, `PdfWriter`, `PdfLines`, `Notifications`);
- as a history: any sequence of operations, interleavings, network events and crashes, over which the main results
  are proved.

What an operation is to answer is stated a second time, apart from those functions: from the operation and the state
before it (`TeamOutcomes`, `TeamMembers`, `TeamLimits`, `TeamHandOver`, `AutomationOutcomes`, `FileMoveWishes`,
`MigrationNames`), or from
the events so far (`QuotaAmounts`, `SharedTurnPayers`, `FileMoveAliases`, `NativeLogTurns`, `NativeLogKept`).

The parts:

- **AI teams** (`Team*.dfy`): teams, members, tasks, runs, dispatches, mailbox and event log under about twenty
  operations, transactions with rollback, receipts for repeated requests, and restart. Ids come from one counter, so
  the order of insertion into a map is the order of ids.
- **Conversation quota** (`Quota*.dfy`, `ConversationQuotas.dfy`): a write-ahead journal of reserve, run and settle.
  Every await is an interleaving point; the ledger is idempotent, its answers truthful, and a request that got no
  answer, also one of a process that has died since, may still take effect at any later time and more than once. Within
  one process a reservation has taken effect or never will once its promise settles. "On time" means: none takes effect
  after a settlement of its run was answered that there is no reservation.
- **Shared turns** (`SharedTurn*.dfy`): claim, execute and settle against the payer frozen in the journal, with a
  reconciliation pass running beside the executions. At most one claim per run is won.
- **Personal settlements** (`Settlements.dfy`): amounts written down before the ledger is told.
- **File moves** (`FileMove*.dfy`): batch renames over a tree with durable identities, aliases, crash replay, undo and
  the notices agents get. Paths are sequences of case-folded names; a reserved name deep in a folder fails the batch that
  moves the folder, before anything moves.
- **Native session log** (`SessionFile.dfy`, `NativeLog*.dfy`): the file as bytes and its repair, the discipline of turn
  boundaries, and the incremental projection against the batch fold.
- **Directory migration** (`Migration*.dfy`), **automations** (`ScheduleModel.dfy`, `Automation*.dfy`), **uploads**
  (`Upload*.dfy`, `ResumableUploads.dfy`, with a history of the single writes of interleaved calls), **notification
  splitting** (`Notifications.dfy`) and the **PDF writer and table reader** (`Pdf*.dfy`, a document being a string of
  bytes; `PdfReader` reads it back from its trailer to its pages).

## What turned out not to hold

Each is stated with its exact condition, or with a run that shows it.

- A team's `finishDispatch` can fail: a member's report above 65476 code units does not fit in a mailbox message, and
  the whole transaction is rolled back (`FinishSucceedsIff`, `ReportRefused`). The orchestrator's fallback then
  records an error, which is enough unless the error text is as long (`ConcludeSettles`, `ErrorTooLong`).
- Three operations can leave a running run with nothing outstanding (`StrandedOnlyBy`; `RunStranded`, `PauseStrands`,
  `BroadcastStrands`), and `deferDispatch` reopens a task that the lead closed early (`DeferReopensIff`, `TaskReopened`).
- Removing a member makes the list of interrupted executions impossible to build while interrupted work of that
  member is not accounted for (`LeavingStopsAccounting`, `AccountingStops`).
- `ended` does not wait for reservations under way, so callers must (`EarlyEndLosesReservation`, `EarlyEndHappens`); the
  quota theorems are about callers that do.
- A reservation of a dead process that takes effect after recovery was told that there is none is open and in no journal,
  even after `releaseSession` has resolved (`ForgottenReservationLands`). The journal is complete, and a released session
  settled, exactly unless that happens (`OpenIsJournaledIff`, `ReleasedMeansSettledIff`).
- A ledger that does not say whether a shared run was claimed lets recovery charge a run that then fails
  (`UntoldClaimChargesFailure`). A failed run is charged exactly if that happened (`FailureChargedIff`), which it never
  does with a ledger that says so (`NothingBlind`).
- A personal settlement that is queued while its run is refused and written down again tells the ledger the old amount
  (`TrackToldIff`, `OldAmountIsTold`); one that waits for its answer then has the new amount discarded untold
  (`TrackConfirmedIff`, `OldAnswerDiscards`).
- `pauseBlockedRuns` looks at direct dependencies only: a run whose work waits for queued tasks that wait for a failed one
  stays running, with nothing that could start (`LeftRunningIff`, `LeftRunning`), and the orchestrator on its own never
  changes that (`StaysStuck`, `LeftForGood`).
- Files are removed before their identities are: a stop between leaves live identities of files that are gone
  (`EraseUntoldIff`, `EraseStopped`).
- Handing work on in the name of work that still waits itself is not noted when the message joins that very work
  (`JoinedForgets`); everything else that is handed on is (`StepWork`).
- `undo` of a completed batch is refused when one destination lies under another (`UndoAcceptedIff`, `UndoRefused`).
- The projection drops messages without an id (`AgreementIff`, `EmptyIdDropped`), and explicit turn boundaries are
  trusted (`ExplicitBoundaryIff`, `BegunTwice`).
- A due automation whose schedule has no next time makes the tick fail (`ClaimFailsIff`). While that is so and nobody
  edits or deletes it, every tick fails and no automation after it gets a run for its time (`EveryTickFails`,
  `NothingClaimed`). A clock going forward does that to a weekly schedule for six days (`NightStalls`).
- Data files left by a process that dies while creating an upload count against the limit for ever (`OrphansAre`), and as
  many as the limit end all creation of uploads (`CreatesAgainIff`, `StopsLeaveOrphans`).
- A process that dies between the commit of an upload and its receipt lets the next `finish` store the file a second time
  (`StoresAgainIff`, `StoredTwice`).
- A removal cut short leaves an upload without data, and until it expires the uploads of its workspace cannot be listed
  (`HalvesAre`, `ListThrowsIff`, `CancelCutShort`).

## Model

| member | source | states |
|---|---|---|
| `TeamCommands.ReachableValid` | harness-bundle/src/team-store.ts:44-1290 | In every state reached by any sequence of the public operations, failures, crashes and restarts among them: a member is busy iff exactly one of its dispatches is running; queued and running dispatches belong to an unfinished run of their team and a current member; a team has at most one unfinished run; a running task has a running dispatch and no task has two; at most 4 running dispatches a run, depth at most 8, counters at most 64 and 8; dependencies are acyclic and closed within the team; event numbers increase and stay below the counter |
| `TeamCommands.StepValid` | harness-bundle/src/team-store.ts:171-1106 | One operation from any valid state, successful or rolled back, leaves a valid state |
| `TeamLaws.OneDispatchEach` | harness-bundle/src/team-store.ts:409-445 | In a store that started empty every task has exactly one dispatch after any sequence of operations |
| `TeamLaws.StartsAfterDependencies` | harness-bundle/src/team-store.ts:504-538 | Over any history a task is started only after each of its dependencies has at some point succeeded, with a ghost set of tasks that ever succeeded |
| `TeamLaws.CompletesOnlyByLead` | harness-bundle/src/team-store.ts:1077-1099 | A run turns completed only by a successful report of its lead while no other dispatch of the run is queued or running |
| `TeamLaws.StrandedOnlyBy` | harness-bundle/src/team-store.ts:568-595 | An operation leaves every running run with outstanding work if and only if it is not one of three named cases, each told by the guards of the call alone: cancelling an active task that is the last work of its run, pausing an unfinished run that has none, and a message to nobody that opens a run |
| `TeamRuns.RunStranded` | harness-bundle/src/team-store.ts:568-595 | From an empty store: a task queued and cancelled leaves a running run with nothing to do |
| `TeamRuns.BroadcastStrands` | harness-bundle/src/team-store.ts:610-662 | From an empty store: so does a message of a lead to all the others when there are none |
| `TeamRuns.PauseStrands` | harness-bundle/src/team-store.ts:762-825 | From an empty store: so does a pause of the run whose only dispatch a restart interrupted |
| `TeamRuns.TaskReopened` | harness-bundle/src/team-store.ts:1032-1051 | From an empty store: a task begun, closed as done by the lead and then deferred is queued again |
| `TeamRuns.AccountingStops` | harness-bundle/src/team-store.ts:337-366 | From an empty store: a worker whose dispatch a restart interrupted is removed, and the interrupted executions can no longer be listed |
| `TeamRuns.ReportRefused` | harness-bundle/src/team-store.ts:1079-1092 | From an empty store: any result of 65477 code units that does not end in a space is refused, and nothing changes |
| `TeamRuns.ErrorTooLong` | harness-bundle/src/team-store.ts:1423-1440 | From an empty store: after a failure with an error text as long, the dispatch goes on running |
| `TeamLaws.FinishedStayFinished` | harness-bundle/src/team-store.ts:504-567 | A finished task keeps its status, error, member and dependencies, and its version never goes down, under every operation but a `deferDispatch` that reopens it; only its title can still be edited, which raises the version |
| `TeamLaws.DeferReopensIff` | harness-bundle/src/team-store.ts:1032-1051 | `deferDispatch` keeps finished tasks finished if and only if its own task was not closed while it ran |
| `TeamLaws.EventNumbersGoOn` | harness-bundle/src/team-store.ts:1214-1225 | A number up to the counter is never given to a new event, over any sequence of operations and restarts, so a reader that remembers the counter misses and repeats nothing that is retained |
| `TeamMail.MailReachesEverybody` | harness-bundle/src/team-store.ts:610-662 | A message is kept as it was sent, trimmed and unread, and a member gets work that carries it if and only if it is the addressee or, without one, anybody of the team but the sender: queued work of the team's one unfinished run |
| `TeamOutcomes.StepBecomes` | harness-bundle/src/team-store.ts:409-1106 | What every accepted operation does to every task and every dispatch, from the operation and the state before alone: status, error, owner, version and dependencies. A report finishes its own running task, as succeeded if the engine finished and as failed with its error if not; no other task and no other dispatch changes |
| `TeamOutcomes.SucceedsOnlyBy` | harness-bundle/src/team-store.ts:540-566 | A task turns succeeded if and only if its own running dispatch is reported as finished while it runs, or an edit that is accepted closes it as done |
| `TeamOutcomes.FinishOutcome` | harness-bundle/src/team-store.ts:1052-1076 | After a report its running task is succeeded or failed with the error, and its member idle or faulted, as the report says |
| `TeamOutcomes.RefusedKeeps` | harness-bundle/src/team-store.ts:713-748 | An operation that is refused changes no task and no dispatch |
| `TeamLimits.StepRuns` | harness-bundle/src/team-store.ts:749-1187 | What every accepted operation does to every run: its status, reason, segment and counters. Work handed on by a turn pauses the run when the turn has then handed on to more than four members, or is eight levels deep; a report of the lead ends the run, and one of a member is work handed on to the lead |
| `TeamLimits.BeginsIff` | harness-bundle/src/team-store.ts:967-1021 | A turn begins if and only if it is queued, its run goes on, its member has no other, fewer than four run, what its task depends on has succeeded, and the run has begun fewer than 64 turns and the turn is at most eight levels deep; one refused for these limits only pauses the run, and any other refusal changes nothing |
| `TeamLimits.RefusedRuns` | harness-bundle/src/team-store.ts:977-990 | An operation that is refused changes no run, but for such a turn |
| `TeamLimits.SegmentBudget` | harness-bundle/src/team-store.ts:826-1051 | Over any history: since a run was last resumed it has begun at most 64 turns, those handed back not counted, and hired at most eight members, and its counters are these two numbers, counted from the operations |
| `TeamMembers.StepMembers` | harness-bundle/src/team-store.ts:504-1213 | What every accepted operation that leaves the roster alone does to every member of every team: busy from the start of its turn, idle or faulted after it as the report says, idle when its work is cancelled or put back, and otherwise as it was |
| `TeamMembers.NewMember` | harness-bundle/src/team-store.ts:246-283 | A member that is added or hired is an idle worker after all others, and nobody else changes |
| `TeamHandOver.StepWork` | harness-bundle/src/team-store.ts:1129-1187 | What every accepted operation leaves of work that is there, and what new work is: one level below the turn it comes from, at the top without one; the turn notes whom it handed on to; a message that joins waiting work can only take it deeper; resuming puts queued work back at the top |
| `TeamHandOver.StepMessages` | harness-bundle/src/team-store.ts:1022-1031 | A message is marked as read exactly when a turn that carries it is submitted, and is otherwise as it was sent |
| `TeamHandOver.JoinedForgets` | harness-bundle/src/team-store.ts:642-658 | A message in the name of waiting work that joins this very work is not noted there: the one case in which handing on leaves no note |
| `TeamLaws.ConcludeSettles` | harness-bundle/src/team-store.ts:1423-1440 | After the end of an executed turn, with the fallback that records the error when the report is refused, the dispatch is no longer running if and only if it was not a busy engine after the turn had been submitted, nor a member's error text too long to report |
| `TeamLaws.LeavingStopsAccounting` | harness-bundle/src/team-store.ts:337-366 | After a member is removed the list of interrupted executions can still be made if and only if it left no interrupted work that is not accounted for |
| `TeamLaws.StepLawful` | harness-bundle/src/team-store.ts:171-1106 | Every operation keeps the order of starts, everything of a finished task but its title and version, the event numbers and the dispatches of finished tasks, with the exceptions above and no others |
| `TeamTheorems.FinishSucceedsIff` | harness-bundle/src/team-store.ts:1052-1106 | `finishDispatch` of a running dispatch succeeds if and only if its report need not be mailed to the lead or has at most 65476 code units |
| `TeamTheorems.LongReportRollsBack` | harness-bundle/src/team-store.ts:1079-1092 | A result one code unit longer is rolled back: the reply is an error and nothing has changed |
| `TeamTheorems.ReportLength` | harness-bundle/src/team-store.ts:1079-1092 | When the text of a report, trimmed, fits in a mailbox message |
| `TeamTheorems.FinishSteps` | harness-bundle/src/team-store.ts:1052-1106 | After a report the run is completed, interrupted, or has a queued or running dispatch: it is never stranded |
| `TeamPausing.StuckIffDoomed` | harness-bundle/src/team-store.ts:939-966 | A running run with work of which nothing runs and nothing could begin is exactly one all of whose work waits, directly or through other queued tasks, for tasks that failed or were cancelled |
| `TeamPausing.LeftRunningIff` | harness-bundle/src/team-store.ts:939-966 | `pauseBlockedRuns` pauses only such runs, and leaves one running if and only if some of its work has no failed or cancelled task among its direct dependencies |
| `TeamPausing.StuckCannotBegin` | harness-bundle/src/team-store.ts:967-989 | Nothing of such a run can begin |
| `TeamPausing.LeftRunning` | harness-bundle/src/team-store.ts:939-966 | A run of six operations from an empty store after which such a run is still running |
| `TeamStuck.StaysStuck` | harness-bundle/src/team-store.ts:939-1106 | A stuck run with work that waits for queued tasks only, below its limits, stays running and stuck under any sequence of `beginDispatch`, `markDispatchSubmitted`, `deferDispatch`, `finishDispatch` and `pauseBlockedRuns`, of all runs |
| `TeamStuck.LeftForGood` | harness-bundle/src/team-store.ts:939-1106 | So the run that those six operations leave is stuck after any such sequence |
| `TeamDependencies.ValidateDecides` | harness-bundle/src/team-store.ts:1188-1201 | The dependency check ends, and accepts exactly distinct tasks of the team from which the edited task cannot be reached |
| `TeamDependencies.CycleReportedIffReachable` | harness-bundle/src/team-store.ts:1188-1201 | Among known tasks, a cycle is reported if and only if the edited task is reachable from a proposed one |
| `TeamDependencies.EditedTaskAcyclic` | harness-bundle/src/team-store.ts:856-899 | New dependencies from which the task is unreachable close no cycle |
| `TeamDependencies.NewTaskAcyclic` | harness-bundle/src/team-store.ts:409-445 | A new task closes no cycle |
| `TeamRestart.RestartValid` | harness-bundle/src/team-store.ts:62-160 | Every loadable saved document restarts, in a valid state |
| `TeamRestart.RestartResumes` | harness-bundle/src/team-store.ts:62-160 | After a restart no task, dispatch or member is running; what ran is failed or interrupted and its run waits; queued dispatches are untouched and every queued task has one; event numbers go on above all stored ones |
| `TeamRestart.RestartIdempotent` | harness-bundle/src/team-store.ts:62-160 | A second restart finds nothing to repair |
| `TeamReceipts.RepeatChangesNothing` | harness-bundle/src/team-store.ts:694-748 | A request repeated under its operation id after any other requests changes nothing and gets its first reply, and with another input it is refused, unless its team was deleted in between |
| `TeamReceipts.ReceiptsStay` | harness-bundle/src/team-store.ts:694-712 | A receipt outlives every later request and restart but the deletion of its team |
| `Teams.TeamStore.constructor` | harness-bundle/src/team-store.ts:62-160 | Opens the store on any loadable document: the four repairing loops together do what the restart specification says |
| `Teams.TeamStore.Serve` | harness-bundle/src/team-store.ts:694-748 | One request with its transaction, receipt and save: the new state, receipts, reply and document are those of the specification, and the invariant and the agreement of memory and disk are kept |
| `Teams.TeamStore.Transact` | harness-bundle/src/team-store.ts:713-748 | A failed operation is rolled back whole, a successful one is saved |
| `Teams.TeamStore.Crash` | harness-bundle/src/team-store.ts:62-160 | A process that dies between two operations and the one after it: the new store is the restarted old one |
| `Teams.TeamStore.QueueTask` | harness-bundle/src/team-store.ts:409-445 | A task with its dispatch, or the error and nothing else |
| `Teams.TeamStore.Validate` | harness-bundle/src/team-store.ts:1188-1201 | The recursive search over proposed dependencies |
| `Teams.TeamStore.CancelTask` | harness-bundle/src/team-store.ts:568-594 | Cancels the task and its dispatch, and frees its member |
| `Teams.TeamStore.UpdateTask` | harness-bundle/src/team-store.ts:856-899 | The checked edit of a task by its version |
| `Teams.TeamStore.SendMessage` | harness-bundle/src/team-store.ts:610-662 | The loop over recipients, joining a queued mailbox dispatch or adding one each |
| `Teams.TeamStore.Recruit` | harness-bundle/src/team-store.ts:826-855 | A new member within the limit of the run |
| `Teams.TeamStore.ControlRun` | harness-bundle/src/team-store.ts:762-825 | Pause, resume with its limits rebased, and cancel with its loop over dispatches |
| `Teams.TeamStore.BeginDispatch` | harness-bundle/src/team-store.ts:967-1021 | Starts a dispatch if the run, the member, the limits and the dependencies allow it, and the task with it |
| `Teams.TeamStore.DeferDispatch` | harness-bundle/src/team-store.ts:1032-1051 | Puts a busy dispatch back into the queue |
| `Teams.TeamStore.FinishDispatch` | harness-bundle/src/team-store.ts:1052-1106 | Settles a dispatch and its task, reports to the lead, and closes the run when it is done: the specification whose outcome `TeamOutcomes.FinishOutcome` and `TeamLimits.StepRuns` state |
| `Teams.TeamStore.PauseBlockedRuns` | harness-bundle/src/team-store.ts:939-966 | The loop that pauses runs whose queued work cannot start |
| `Teams.TeamStore.Erase` | harness-bundle/src/team-store.ts:367-399 | Removes a team with everything of it but the notice of its removal |
| `Teams.TeamStore.RemoveMember` | harness-bundle/src/team-store.ts:337-366 | Removes an idle member without outstanding work |
| `QuotaProofs.NextOk` | harness-bundle/src/conversation-quota.ts:25-180 | Every step of any interleaving, of the network and of a crash keeps the journal invariant |
| `QuotaTheorems.OpenIsJournaledIff` | harness-bundle/src/conversation-quota.ts:76-83 | At every point of every history, with crashes and with requests of dead processes that take effect later: a reservation this process asks for is in the journal on disk; one that took effect and is not settled is there exactly unless it took effect after recovery had been answered that there is none |
| `QuotaTheorems.NothingLost` | harness-bundle/src/conversation-quota.ts:47-55 | No reservation is lost so in a history whose reservations are on time |
| `QuotaTheorems.OpenIsJournaled` | harness-bundle/src/conversation-quota.ts:76-83 | So, reservations being on time, every one that took effect and is not settled is in the journal on disk, at every point, crashes included |
| `QuotaTheorems.OneAmount` | harness-bundle/src/conversation-quota.ts:145-161 | All settle requests ever sent for a journaled run carry one amount, also across restarts, and it is what the ledger charges unless the reservation was lost |
| `QuotaAmounts.AmountIsDue` | harness-bundle/src/conversation-quota.ts:101-161 | Over any history, told from its events alone: a settle request for a journaled run asks for the estimate of its `begin` if the engine was ACP and a turn was known, from the `begin` or from a `started` of its session before its first release, and for nothing otherwise; the reservation is of the estimate, and the ledger charges that amount unless the reservation was lost |
| `QuotaTheorems.ChargeIsFinal` | harness-bundle/src/conversation-quota.ts:145-172 | What the ledger has charged never changes |
| `QuotaTheorems.NoLateAdmission` | harness-bundle/src/conversation-quota.ts:123-133 | Once `releaseSession` has begun, no `begin` of the session that still awaits anything returns a run id, in any interleaving |
| `QuotaTheorems.ReleasedMeansSettledIff` | harness-bundle/src/conversation-quota.ts:123-133 | When `releaseSession` resolves, nothing of the session is in the journal, and every reservation it had is settled or never took effect, exactly unless a lost one is open |
| `QuotaTheorems.ReleasedMeansSettled` | harness-bundle/src/conversation-quota.ts:123-133 | So, reservations being on time, every reservation of the session is settled or never took effect, and what is open belongs to other sessions |
| `QuotaLosses.ForgottenReservationLands` | harness-bundle/src/conversation-quota.ts:162-171 | A run of fifteen events from a new store: a reservation of a dead process lands after recovery forgot its run and after `releaseSession` resolved, open and in no journal |
| `QuotaLosses.EarlyEndHappens` | harness-bundle/src/conversation-quota.ts:116-121 | A run of nine events from a new store in which `ended` comes while the reservation is on its way, which ends in a reservation that took effect and is in no journal |
| `QuotaTheorems.EarlyEndLosesReservation` | harness-bundle/src/conversation-quota.ts:116-121 | Why `ended` must wait for reservations under way: otherwise four steps lead from any state with such a reservation to one that took effect and is in no journal |
| `ConversationQuotas.ConversationQuota.Release` | harness-bundle/src/conversation-quota.ts:135-161 | Joins the settlement under way, or marks the entry finished, saves, and sends one settle request |
| `ConversationQuotas.ConversationQuota.Splice` | harness-bundle/src/conversation-quota.ts:169-170 | Removes the run's entry from the list |
| `ConversationQuotas.ConversationQuota.ContinueSettling` | harness-bundle/src/conversation-quota.ts:162-172 | A missing reservation counts as settled; any other error keeps the entry |
| `ConversationQuotas.ConversationQuota.ReleaseEach` | harness-bundle/src/conversation-quota.ts:128-132 | Starts the releases of all entries of the session together |
| `ConversationQuotas.ConversationQuota.DrainNext` | harness-bundle/src/conversation-quota.ts:64-86 | One turn of the loop over finished entries, then the entry is pushed, saved and reserved |
| `ConversationQuotas.ConversationQuota.AfterReservation` | harness-bundle/src/conversation-quota.ts:87-98 | Admits only if the session was not released meanwhile |
| `ConversationQuotas.ConversationQuota.MarkStarted` | harness-bundle/src/conversation-quota.ts:101-114 | Gives the turn to the open entries of the session |
| `ConversationQuotas.ConversationQuota.Take` | harness-bundle/src/conversation-quota.ts:25-180 | Any step the event loop, a caller or the network can make next is the step of the state machine, and keeps its invariant |
| `SharedTurns.NextOk` | harness-bundle/src/quota-runner.ts:298-458 | Every step and crash keeps the invariant, whether or not the ledger says which runs were claimed |
| `SharedTurnTheorems.ClaimedIsJournaled` | harness-bundle/src/quota-runner.ts:366-377 | Wherever the process dies, a claimed run that is not settled is in the journal on disk |
| `SharedTurnTheorems.EngineOnce` | harness-bundle/src/quota-runner.ts:378-388 | The engine starts at most once per run in all processes together, and only after its claim was won |
| `SharedTurnTheorems.OneCharge` | harness-bundle/src/quota-runner.ts:388-424 | Everything ever sent or charged for a run is one charge, but for settlements that reconciliation sends although the ledger left out whether the run was claimed |
| `SharedTurnTheorems.OutcomeIsCharged` | harness-bundle/src/quota-runner.ts:388-424 | A successful run is only ever settled at its estimate, which is not zero, and a failed one only at zero, through all retries, recoveries and restarts, but by such settlements |
| `SharedTurnPayers.ChargedAsStarted` | harness-bundle/src/quota-runner.ts:349-377 | Over any history: what is sent for a run and what the ledger charges go to a payer for whom the run was started, and are nothing or the estimate of a text it was started with, a quarter of its bytes, rounded up, and 1024 |
| `SharedTurnPayers.TermsAreFrozen` | harness-bundle/src/quota-runner.ts:349-424 | While a run stays in the journal on disk its payer and its estimate do not change, whatever happens, crashes included |
| `SharedTurnTheorems.NothingBlind` | harness-bundle/src/quota-runner.ts:434-452 | With a ledger that says which runs were claimed there are no such settlements |
| `SharedTurnTheorems.OutcomeStays` | harness-bundle/src/quota-runner.ts:388-408 | A recorded outcome is never replaced |
| `SharedTurnTheorems.UntoldClaimChargesFailure` | harness-bundle/src/quota-runner.ts:434-452 | With a ledger that leaves out whether a run was claimed, twelve events lead to a failed run that is charged |
| `SharedTurnTheorems.FailureChargedIff` | harness-bundle/src/quota-runner.ts:434-452 | In every reachable state, a settled run whose outcome is failure is charged for more than nothing if and only if its settlement was sent by reconciliation while the ledger left out that it was claimed |
| `SharedTurnRunner.QuotaSharedTurnRunner.ExecuteSharedTurn` | harness-bundle/src/quota-runner.ts:349-377 | Refuses an active run; otherwise the entry is on disk before the claim is sent |
| `SharedTurnRunner.QuotaSharedTurnRunner.AfterClaim` | harness-bundle/src/quota-runner.ts:378-396 | Only the call that won the claim goes on to the engine, unless cancelled |
| `SharedTurnRunner.QuotaSharedTurnRunner.EngineEnded` | harness-bundle/src/quota-runner.ts:388-404 | The outcome is saved before it is sent |
| `SharedTurnRunner.QuotaSharedTurnRunner.AfterLookup` | harness-bundle/src/quota-runner.ts:436-446 | What recovery does with the answer of a lookup |
| `SharedTurnRunner.QuotaSharedTurnRunner.Take` | harness-bundle/src/quota-runner.ts:298-458 | Any step that can come next is the step of the state machine, and keeps its invariant |
| `Settlements.TrackToldIff` | harness-bundle/src/quota-settlement.ts:48-85 | However it goes on, the ledger is told of a run that is written down its amount and no other until the run ends, if and only if no settlement is queued that read another amount |
| `Settlements.TrackConfirmedIff` | harness-bundle/src/quota-settlement.ts:66-85 | However it goes on, a confirmation that ends the run is of the amount written down, if and only if no settlement of another amount is queued or waits for its answer |
| `Settlements.OldAnswerDiscards` | harness-bundle/src/quota-settlement.ts:74-81 | A run refused and written down again while its call waits for an answer: the answer discards the new amount, which is never told |
| `Settlements.OneFrozenAmount` | harness-bundle/src/quota-settlement.ts:48-85 | From the moment an amount is written down, no settlement of another one being queued, until the ledger confirms it or admission is refused, every call tells the ledger that amount, in any order of calls, continuations and restarts |
| `Settlements.OldAmountIsTold` | harness-bundle/src/quota-settlement.ts:74-81 | A run refused and written down again while its settlement is queued: the ledger is told the old amount |
| `Settlements.PersonalQuotaSettlements.BeginSettling` | harness-bundle/src/quota-settlement.ts:66-85 | Joins the settlement under way, or writes the amount down and queues one with the amount written down |
| `Settlements.PersonalQuotaSettlements.ContinueSettling` | harness-bundle/src/quota-settlement.ts:76-80 | The queued continuation calls the ledger unless the run was discarded |
| `FileMoveCrash.CrashReplay` | harness-bundle/src/file-moves.ts:244-300 | From a batch journaled as moving, any number of crashes at any points, also between a rename and its record, ends in the same tree, identities, aliases, applied count and state as no crash |
| `FileMoveCrash.RestartFinishes` | harness-bundle/src/file-moves.ts:55-62 | The constructor ends an interrupted batch as if nothing had happened |
| `FileMoveRoundTrip.ExecuteSurvivesCrashes` | harness-bundle/src/file-moves.ts:244-300 | The same for a batch as the store executes it, from any good state, when the check of the batch passes and no path at or below its sources is refused |
| `FileMoveRoundTrip.UndoRestores` | harness-bundle/src/file-moves.ts:145-158 | Undoing a completed batch with destinations apart restores every file and folder, leaves only folders made on the way, and puts every live identity back at its path |
| `FileMoveRoundTrip.UndoAcceptedIff` | harness-bundle/src/file-moves.ts:145-214 | `undo` is accepted if and only if no destination of the batch lies under another; else it is refused and changes nothing |
| `FileMoveRuns.UndoRefused` | harness-bundle/src/file-moves.ts:145-214 | From a new store: a folder renamed and a file moved into it in one request, which completes, and whose `undo` is refused |
| `FileMoveRoundTrip.ReferenceIsThere` | harness-bundle/src/file-moves.ts:82-102 | A live identity that can be looked up names a path that exists |
| `FileMoveUndo.TreeRoundTrip` | harness-bundle/src/file-moves.ts:266-291 | There and back on the tree alone |
| `FileMoveInvariant.ExecuteGood` | harness-bundle/src/file-moves.ts:244-300 | Executing a batch, whether it completes, fails or fails half way, keeps trees closed and identities distinct and at existing paths |
| `FileMoveInvariant.RequestGood` | harness-bundle/src/file-moves.ts:159-214 | So does a request, accepted or refused |
| `FileMoveInvariant.PlanFacts` | harness-bundle/src/file-moves.ts:159-200 | A planned batch has sources apart from each other and from every destination, and destinations that are free |
| `FileMoveWishes.GrantedAsWished` | harness-bundle/src/file-moves.ts:159-214 | A request that is accepted queues one batch that moves every wished source, by its identity, to the wished place if that is free and no earlier move takes it, and otherwise, with "keep both", to the first free name with a number before its extension |
| `FileMoveAliases.MovedPathIsFound` | harness-bundle/src/file-moves.ts:82-102 | After a batch that completes, every file and folder that was at or below a source is at the corresponding place with its content; its identity names that place, and so does the path it had, without an id, unless another identity of the workspace has had that path |
| `FileMoveAliases.ArtifactsFollow` | harness-bundle/src/file-moves.ts:266-291 | After it the artifacts of moved files are at the new paths, and no other artifact has changed |
| `FileMoveAliases.OldPathsLead` | harness-bundle/src/file-moves.ts:82-102 | However the store is used, with processes dying in calls: a path that a live file ever had, and left, leads to where it is now, unless another file remembers it too |
| `FileMoveLeases.DrainStopsAtLease` | harness-bundle/src/file-moves.ts:223-243 | After a workspace's queue was worked off, the first batch that still waits is held up by a lease that has not run out on a path at or below one of its sources or destinations, and no batch that is held up has run |
| `FileMoveNames.KeepBothFinds` | harness-bundle/src/file-moves.ts:185-196 | The search for a free numbered name ends within as many tries as there are names in the way |
| `FileMoveStops.StoppedBatch` | harness-bundle/src/file-moves.ts:244-300 | A process that dies in a batch: stopped while identities are tracked, the batch waits on with more identities; stopped at any point of the moves, the next start ends it as if nothing had happened |
| `FileMoveStops.EraseUntoldIff` | harness-bundle/src/workspace-store.ts:644-664 | A stop after files are removed and before their identities are leaves live identities of missing files, if and only if something removed had an identity |
| `FileMoveRuns.EraseStopped` | harness-bundle/src/workspace-store.ts:644-664 | From a new store: a file of a queued batch is removed and the process stops, and after the restart its identity still names it |
| `FileMoveHistory.AlwaysGood` | harness-bundle/src/file-moves.ts:41-314 | However the store is used, and wherever a process dies in a call (after any identity of a plan, after any batch, after any identity tracked, at any point of the moves), every live identity names a path that is there and no two name the same |
| `FileMoveHistory.FromNothing` | harness-bundle/src/file-moves.ts:50-62 | In particular from a new store over any trees |
| `FileMoveHistory.ToldExactlyOnce` | harness-bundle/src/file-moves.ts:301-314 | An agent that asks each time with the revision it was told last is told of every batch that moved something exactly once, also when processes die in calls |
| `FileMoveStore.FileMoves.constructor` | harness-bundle/src/file-moves.ts:50-62 | Reads the document and finishes interrupted batches |
| `FileMoveStore.FileMoves.Request` | harness-bundle/src/file-moves.ts:159-214 | Plans, queues and drains |
| `FileMoveStore.FileMoves.Execute` | harness-bundle/src/file-moves.ts:244-300 | Checks the whole batch again, tracks identities, journals it as moving, and moves |
| `FileMoveStore.FileMoves.Track` | harness-bundle/src/file-moves.ts:255-262 | Every path at or below a source gets an identity; a refused name ends it, with the identities given so far |
| `FileMoveStore.FileMoves.MoveNext` | harness-bundle/src/file-moves.ts:266-291 | One turn of the loop: rename, carry rows, with the paths they leave, and artifacts along, record, save |
| `FileMoveStore.FileMoves.Drain` | harness-bundle/src/file-moves.ts:223-243 | The loop over queued batches, up to one an editor holds up |
| `FileMoveStore.FileMoves.Undo` | harness-bundle/src/file-moves.ts:145-158 | The request for the moves back |
| `FileMoveStore.FileMoves.Lookup` | harness-bundle/src/file-moves.ts:82-102 | Where a file is now, by its id or by a path it once had |
| `SessionFile.TornTail` | harness-bundle/src/native-session-log.ts:107-126 | Wherever past the header a log is cut, `open` finds exactly the records wholly there and leaves a file of just those, each ended by a newline; `inspect` and `load` find the same |
| `SessionFile.NoWholePrefix` | harness-bundle/src/native-session-log.ts:112-121 | No proper prefix of a record is a record: section 4 of RFC 8259, as balanced brackets and strings |
| `SessionFile.PresentIs` | harness-bundle/src/native-session-log.ts:107-126 | Records count as present exactly when all their bytes are |
| `NativeLogTurns.FactKeeps` | harness-bundle/src/native-session-log.ts:254-310 | Any report of the engine, duplicated, late or out of order, keeps boundaries reading start 0, end 0, start 1, ..., and every end that gives a result right after the report that gave it |
| `NativeLogTurns.ReportMoves` | harness-bundle/src/native-session-log.ts:254-310 | After which reports a turn is open: a start opens one if none is open and its turn is new, and an end closes it exactly if it names the turn started last, or none |
| `NativeLogWriter.InterruptedOnlyBy` | harness-bundle/src/native-session-log.ts:210-217 | A turn is recorded as interrupted only by `open` or `load`, and only when it was left open |
| `NativeLogKept.MessageAppended` | harness-bundle/src/native-session-log.ts:227-239 | A message comes after all others, as it is, unless one with its id is there, and then nothing changes |
| `NativeLogKept.OpenKeepsMessages` | harness-bundle/src/native-session-log.ts:185-217 | Opening a log keeps its messages in order and as they were, but for classifications that were missing and are known; the first time it adds, once each, all older messages it does not have |
| `NativeLogTurns.OpenKeeps` | harness-bundle/src/native-session-log.ts:210-217 | After `open` no turn is left open |
| `NativeLogTurns.OpensAtMostOne` | harness-bundle/src/native-session-log.ts:265-280 | A named native turn opens at most one turn |
| `NativeLogTurns.ExplicitBoundaryIff` | harness-bundle/src/native-session-log.ts:243-253 | An explicit boundary keeps that order if and only if it is the next one due |
| `NativeLogWriter.BegunTwice` | harness-bundle/src/native-session-log.ts:243-253 | Two explicit starts in a row: the log is out of order |
| `NativeLogTurns.PrefixOk` | harness-bundle/src/native-session-log.ts:516-525 | A log cut short is still in order |
| `NativeLogMessages.ProjectionAgrees` | harness-bundle/src/native-session-projection.ts:80-121 | The projection folded event by event shows just the messages of the batch fold that are to be shown, in order, with classification that comes late |
| `NativeLogMessages.AgreementIff` | harness-bundle/src/native-session-projection.ts:95-95 | The two agree entirely, commentary apart, if and only if every message to be shown has an id |
| `NativeLogWriter.EmptyIdDropped` | harness-bundle/src/native-session-projection.ts:95-95 | A message without an id, appended to an empty log, is not shown |
| `NativeLogWriter.WrittenLogs` | harness-bundle/src/native-session-log.ts:100-337 | Of every log these writers can produce, crashes included: boundaries alternate, every reported end comes right after the report with its result, and messages are distinct, classified once and after they were written |
| `NativeLogWriter.OpenOk` | harness-bundle/src/native-session-log.ts:185-217 | Opening any such log leaves it in order, with every user message recorded |
| `NativeLog.NativeSession.AppendEvent` | harness-bundle/src/native-session-log.ts:241-313 | The new events are those of the specification and are in the file |
| `NativeLog.NativeSession.AppendMessage` | harness-bundle/src/native-session-log.ts:227-239 | A message is appended once per id, and user messages recorded |
| `NativeLog.NativeSession.Reopen` | harness-bundle/src/native-session-log.ts:100-225 | `open` on what a crash left: repair, import, classification, closing the open turn |
| `NativeLog.NativeSession.Load` | harness-bundle/src/native-session-log.ts:414-444 | The repaired log without publishing |
| `NativeLog.NativeSession.Persist` | harness-bundle/src/native-session-log.ts:516-525 | The events not yet written are appended to the file |
| `Migration.Resumable` | harness-bundle/src/workspace-directory-migration.ts:42-103 | Whatever crashes between its writes and renames, running it again reaches the same directories, index and session paths as one clean run |
| `Migration.SecondRunDoesNothing` | harness-bundle/src/workspace-directory-migration.ts:42-60 | A further run changes nothing |
| `Migration.NothingLost` | harness-bundle/src/workspace-directory-migration.ts:60-103 | No directory is overwritten: each that was to move is whole at its new name, every other entry is as it was, and listed sessions point into the new directories |
| `MigrationNames.MovedAsNamed` | harness-bundle/src/workspace-directory-migration.ts:60-103 | A migration that starts afresh gives every project without a directory one of its trimmed name, which was free, with what its old one held, leaves the directories of the others, moves nothing else, and leaves sessions outside the moved directories, and deleted ones, as they were |
| `MigrationRun.Migrator.Run` | harness-bundle/src/workspace-directory-migration.ts:42-103 | The program with its loops reaches the specified disk |
| `MigrationRun.Migrator.UpdateSessionPaths` | harness-bundle/src/workspace-directory-migration.ts:105-125 | One write for every listed session with a path inside a moved directory |
| `Automations.RunsAreBounded` | harness-bundle/src/automation-store.ts:291-407 | Over any use on a clock that does not go back, restarts included: a run begins at most 4 times with attempt at most 1 and at most 3 busy retries, and an automation's scheduled runs are for strictly increasing times |
| `Automations.StepOk` | harness-bundle/src/automation-store.ts:172-496 | Every operation, tick and restart keeps the invariant, also of the document on disk when a tick failed |
| `Automations.TerminalAbsorbs` | harness-bundle/src/automation-store.ts:350-496 | A run that is over stays as it is, through restarts, until its automation is deleted |
| `Automations.ClaimFailsIff` | harness-bundle/src/automation-store.ts:291-348 | A tick fails if and only if some due automation has a schedule with no next time |
| `AutomationOutcomes.StepBecomes` | harness-bundle/src/automation-store.ts:192-496 | What every accepted operation, tick and restart does to every run, from the operation and the state before alone: a reported end makes a running run succeeded or failed as it says, a busy session makes it wait half a minute or, the fourth time, skips it |
| `AutomationOutcomes.SucceedsOnlyBy` | harness-bundle/src/automation-store.ts:447-476 | A run turns succeeded if and only if it is running and its end is reported as a success |
| `AutomationOutcomes.AddedOnlyBy` | harness-bundle/src/automation-store.ts:257-348 | A run is added only by a tick, for an enabled automation whose time has come and for that time, or at a user's request |
| `AutomationOutcomes.AlwaysPlanned` | harness-bundle/src/automation-store.ts:172-239 | Over any use, in memory and on disk: an enabled automation waits for the next time of its schedule as of some moment past, and a disabled one for none |
| `AutomationOutcomes.BusyWaits` | harness-bundle/src/automation-store.ts:385-407 | A run that found its session busy may begin again exactly from half a minute later on |
| `AutomationStalls.EveryTickFails` | harness-bundle/src/automation-store.ts:291-348 | While an automation is due and not edited or deleted, and its schedule has no next time whenever a tick comes, every tick fails and saves nothing, whatever else is done and through restarts |
| `AutomationStalls.NothingClaimed` | harness-bundle/src/automation-store.ts:291-348 | Meanwhile it stays due, and no run for a time is added of any automation after it, in memory or on disk |
| `AutomationStalls.NightStalls` | harness-bundle/src/automation-store.ts:101-116 | From an empty store, on a clock that goes forward over the only weekly minute of a schedule: for six days every tick fails and an hourly automation that is due gets no run |
| `Automations.ClaimServes` | harness-bundle/src/automation-store.ts:291-348 | After a tick that succeeds every due automation has its run for its time, and none is due any more |
| `AutomationOutcomes.TickServes` | harness-bundle/src/automation-store.ts:291-348 | So it has for every automation that was enabled with its time come, and after it there is none such |
| `ScheduleModel.WeeklyIsLeast` | harness-bundle/src/automation-store.ts:101-116 | The weekly schedule gives the least matching minute after the given time |
| `ScheduleModel.WeeklyAlwaysFinds` | harness-bundle/src/automation-store.ts:101-116 | With a fixed offset and some day to choose, it always finds one within its eight days |
| `ScheduleModel.NextIsLater` | harness-bundle/src/automation-store.ts:77-117 | Every next time is later than the time it was asked for: by just the interval, or the one moment asked for |
| `ScheduleModel.FindNext` | harness-bundle/src/automation-store.ts:105-116 | The scan over minutes as a loop |
| `AutomationStore.Store.constructor` | harness-bundle/src/automation-store.ts:131-160 | Opens the store on a saved document: running runs have failed |
| `AutomationStore.Store.Update` | harness-bundle/src/automation-store.ts:192-239 | The checked edit; disabling cancels scheduled runs that have not begun |
| `AutomationStore.Store.Delete` | harness-bundle/src/automation-store.ts:241-255 | Refused while a run is active; otherwise the automation and its runs go |
| `AutomationStore.Store.ClaimRunnable` | harness-bundle/src/automation-store.ts:291-348 | The loop over definitions, and the runs that may begin |
| `AutomationStore.Store.Begin` | harness-bundle/src/automation-store.ts:350-365 | Begins a pending or waiting run, the first to the fourth time |
| `AutomationStore.Store.DeferBusy` | harness-bundle/src/automation-store.ts:385-407 | A busy run waits, and is skipped exactly at its fourth begin |
| `AutomationStore.Store.Finish` | harness-bundle/src/automation-store.ts:447-476 | Ends a running run; a cancelled one stays cancelled |
| `AutomationStore.Store.Cancel` | harness-bundle/src/automation-store.ts:478-496 | Cancels a run that is not over |
| `UploadModel.ResumesWhereItStopped` | harness-bundle/src/resumable-upload.ts:90-104 | Whenever the process stopped, an unfinished upload resumes at the end of a beginning of the client's file, no longer than announced |
| `UploadModel.CountedAgainstLimit` | harness-bundle/src/resumable-upload.ts:129-134 | What counts against the limit after a clean-up: the uploads left, and every data file without a row, however old |
| `UploadHistory.OrphansAre` | harness-bundle/src/resumable-upload.ts:143-147 | Over any sequence of single writes of interleaved calls, stops and starts: data files without a row come from stops between the two writes of a `create`, from nothing else, and nothing ever removes one |
| `UploadHistory.CreatesAgainIff` | harness-bundle/src/resumable-upload.ts:129-134 | From any state an upload can be created sooner or later if and only if there are fewer of them than uploads may be |
| `UploadHistory.StopsLeaveOrphans` | harness-bundle/src/resumable-upload.ts:143-147 | The run that gets there: as many stops at a `create`, on an empty store |
| `UploadCommits.AlwaysSound` | harness-bundle/src/resumable-upload.ts:150-227 | Whatever interleaved calls write in whatever order, and wherever the process stops: data is a beginning of the client's file, a commit is the whole of it, a receipt names a commit of its own upload, and calls at work know what they left |
| `UploadCommits.StoredAtMost` | harness-bundle/src/resumable-upload.ts:206-215 | An upload is stored once, and once more at most for each stop between its commit and its saved receipt or removed data |
| `UploadCommits.StoresAgainIff` | harness-bundle/src/resumable-upload.ts:199-215 | What was stored can be stored again if and only if its data is there and its receipt is not |
| `UploadCommits.StoredTwice` | harness-bundle/src/resumable-upload.ts:206-213 | A run from an empty store, for any upload, that stores one file twice |
| `UploadCommits.HalvesAre` | harness-bundle/src/resumable-upload.ts:62-75 | Over any history, unfinished uploads without data are those whose removal is half done or was left so by a stop, and no others |
| `UploadCommits.ListThrowsIff` | harness-bundle/src/resumable-upload.ts:76-97 | Paths being allowed, `list` throws if and only if such an upload is of the workspace and has not expired or is worked on |
| `UploadCommits.CancelCutShort` | harness-bundle/src/resumable-upload.ts:221-227 | A run from an empty store after which `list` throws until the upload expires |
| `ResumableUploads.Uploads.OrphansStay` | harness-bundle/src/resumable-upload.ts:62-75 | Every write of the class is a step of those histories, so data files without a row at its start are still there |
| `ResumableUploads.Uploads.TakeChunks` | harness-bundle/src/resumable-upload.ts:165-186 | The loop over the chunks of a stream, and the cut back to where it began when one is too much |
| `ResumableUploads.Uploads.constructor` | harness-bundle/src/resumable-upload.ts:36-75 | A start on any disk a dead process can leave |
| `ResumableUploads.Uploads.Append` | harness-bundle/src/resumable-upload.ts:150-194 | Accepted exactly at the offset reached, within a chunk's and the file's size; a rejected or broken one leaves everything as before; on every disk passed through what was stored is still the beginning |
| `ResumableUploads.Uploads.Finish` | harness-bundle/src/resumable-upload.ts:195-220 | Stores exactly the whole file, returns the saved receipt if there is one without storing again, and never removes the data before the workspace has it |
| `ResumableUploads.Uploads.Create` | harness-bundle/src/resumable-upload.ts:105-149 | Refused for the limit if and only if its other checks pass and data files without a row and the uploads left after clean-up are together at least 32; else begun if and only if the checks pass; a begun one has passed through a disk with its data file and no row |
| `ResumableUploads.Uploads.List` | harness-bundle/src/resumable-upload.ts:76-89 | After clean-up, the unfinished uploads of the workspace with the lengths of their data; it throws if and only if one of them has a refused path or no data |
| `ResumableUploads.Uploads.Cleanup` | harness-bundle/src/resumable-upload.ts:62-75 | Removes exactly the expired uploads nobody works on |
| `ResumableUploads.Uploads.Cancel` | harness-bundle/src/resumable-upload.ts:221-227 | Removes the upload unless it is worked on |
| `Notifications.SplitNotification` | harness-bundle/src/completion-notifications.ts:59-78 | Every part is non-empty and at most 1800 UTF-8 bytes; parts are consecutive pieces of the text with only newlines between them, cut at no surrogate pair; a part ends only where the next line, or in a line the next code point, does not fit |
| `Notifications.AddLine` | harness-bundle/src/completion-notifications.ts:68-74 | The loop over the code points of a line |
| `Notifications.SplitKeepsText` | harness-bundle/src/completion-notifications.ts:59-78 | Newlines removed, the parts joined are the text |
| `PdfWriter.DocumentHoldsText` | cmd/officecli-exporter-pdf/pdf.go:28-97 | For any text: the table read back gives the place of every object from 1 to 4 and two per page; each page's content operators show the page's lines; pages hold the wrapped lines in order, 46 on all but the last, each within the width |
| `PdfReader.DocumentIsRead` | cmd/officecli-exporter-pdf/pdf.go:28-97 | For any text: a reader who starts at the trailer and the table and follows the catalog, the page tree with its count, each page's parent and contents, and each stream's length, reads exactly the pages of the wrapped text, in order |
| `PdfRoundTrip.TableRoundTrip` | cmd/officecli-exporter-pdf/pdf.go:120-150 | `xrefEntries` of a document of any object bodies gives exactly their ids and offsets |
| `PdfRoundTrip.ObjectIsThere` | cmd/officecli-exporter-pdf/pdf.go:50-54 | At its offset the document has `id 0 obj` and the body |
| `PdfRoundTrip.EntryIsTwentyBytes` | cmd/officecli-exporter-pdf/pdf.go:90-92 | An entry is 20 bytes, as section 7.5.4 of ISO 32000-1 asks, if and only if the offset is below 10 000 000 000 |
| `PdfWriter.StreamShowsLines` | cmd/officecli-exporter-pdf/pdf.go:75-84 | The hexadecimal strings of a content stream decode to the lines |
| `PdfWriter.WritePdf` | cmd/officecli-exporter-pdf/pdf.go:28-97 | The writer with its buffer, offsets and loops |
| `PdfWriter.XrefEntries` | cmd/officecli-exporter-pdf/pdf.go:120-150 | The reader with its loop, on any input |
| `PdfWriter.EncodeLine` | cmd/officecli-exporter-pdf/main.go:320-329 | The loop of `encodeUCS2Hex` |
| `PdfLines.WrapLines` | cmd/officecli-exporter-pdf/main.go:278-316 | The nested loops; every line is at most 90 half-ems wide and has only characters of the basic plane and no controls |
| `PdfLines.LinesKeep` | cmd/officecli-exporter-pdf/main.go:278-316 | The lines hold, spaces aside, all of the text that can be shown, in order |
| `PdfLines.FitEndFits` | cmd/officecli-exporter-pdf/main.go:295-307 | A line takes the longest beginning that fits |
| `PdfLines.PagesHoldLines` | cmd/officecli-exporter-pdf/pdf.go:30-40 | The pages one after the other are the lines, all full but the last |
| `PdfLines.Paginate` | cmd/officecli-exporter-pdf/pdf.go:30-37 | The loop that cuts lines into pages |

## Left out

- Wire formats and checks: HTTP routes, MCP servers, zod schemas but for the length rule of trimmed texts,
  operation-id syntax, JSON text of whole documents, UUIDs (fresh numbers here) and time stamps that nothing depends
  on.
- Team members' engines, presets, sessions and workspaces, prompts and execution contexts, team and member status
  texts, wake-up times of deferred dispatches, and the read-only queries of the team store.
- TeamTheorems.FinishSucceedsIff: session ids are taken as not empty; the schema of a finished task refuses an empty
  one, so a success that carries one fails too.
- The orchestrators' timers, notifications and shutdown; of `TeamOrchestrator` only the end of a turn is modelled.
- The quota server, which is not part of this repository: an abstract ledger with the assumptions above stands for it.
- Failing disks: a save either happens whole or the process dies before it. In the team store a crash falls between
  operations, each of which saves once at its end; elsewhere it may fall between any two writes.
- `QuotaAutomationRunner` and `QuotaTeamRunner`: cancellation before the start only appears as the steps of
  `Settlements` that it makes.
- Shared turns: the moment between the return of a settlement and the end of its execution is not an interleaving
  point of its own, and the recovery timer is any reconciliation at any time.
- File moves: symbolic links, the case of letters (names are taken as folded), editors' leases as input (they are part
  of the state but no operation changes them), the text of notices, the removal of a whole workspace's files, and
  changes to the tree by anything else. The basename of an artifact follows its path and is not kept apart.
- Native session log: session headers and their mismatch error, the projection's drafts, tools, processes and
  capabilities, tombstones and deletion. JSON is taken as far as balanced brackets, strings and the absence of
  newlines.
- The session index but for the two calls the migration makes: `createOnce`, `cancelOperation` and tombstones.
- Migration: directory identity checks beyond symbolic links being refused, and file modes.
- Automations: names, prompts, notification targets, session binding, run snapshots and the receipts of `operation`,
  which are proved for teams, where the code is the same. The cron library is taken to return a time after its input,
  and a time zone is any function from times to the clock on the wall. A failure whose own text is `runtime_restarted`
  is not told apart by the source; here only a restart marks a run so.
- Uploads: the pattern of upload ids, input types, what a commit does about an existing name (`conflict`), and the
  order in which `list` gives uploads. A random id is never drawn again, and a commit stores the bytes it is given or
  fails whole. The histories of writes let a creation go ahead without the clean-up before it, which they have as
  steps of their own.
- Notifications: composing the message, delivery settings, and the sending loop. Text is a sequence of UTF-16 code
  units.
- PDF: heartbeat, extraction and the atomic write of the file; `strings.Map` and `strings.Split` are functions; blanks
  that scanning skips are space, tab and return. Text is a sequence of runes, so invalid UTF-8 is already replaced.
