# Coordination protocol, planner bounds and codecs: a verified model

This project models the parts of pi-tmux-orchestrator whose correctness spans
several functions, and proves what they promise for every input, every run and
every reachable state.

**Broker and worker.** `Tables` is the durable state of the broker: workflow,
round, roles, assignments, reports, specialist decisions, the provider-call
ledger, the repair pause and command receipts. `Transactions` has one function
per database transaction, and `BrokerStore` the same handlers as methods of an
object that updates its fields statement by statement, each proved to commit
what its function says. `Runs` lets any transactions follow one another with any
arguments, so a crash may fall between any two. Over all such runs `Monotone`,
`Ceilings`, `Repair`, `Recovery` and `Generations` prove what is never undone,
the call ceilings, repair-round conservation, the one-shot report recovery and
the fence around superseded workers. `Rows` says what transactions leave of
assignment rows and guidance epochs, and `Effects` what the handlers mean to each
other: which later calls they answer, refuse or leave without effect. `Routing`
adds the routing tasks that reports and commands leave behind and the operator
commands that are still being sent, all of which may overlap; `Integrity`,
`Workflows` and `Approval` prove assignment integrity, approval safety and the
dominance of the pause, with the exact condition under which they hold, `Replay`
what an approved and then interrupted continuation admits, again with its exact
conditions, and `Progress` that no run stalls and what each report and command
leads to; `Overlap` has the schedules in which overlapping tasks break these
results, and `Stale` those in which guidance that is written late does.

**Worker.** `Journal` holds the three folds that rebuild a session from its
journal, as loops proved against their specification, `Worker` the handlers on
values with the proof that the journal always replays to the memory, and
`WorkerSession` the same handlers as methods over mutable fields. `Delivery` puts
broker and worker together over a network that loses, delays and reorders frames
and acknowledgements, with the worker dying at any point of an acceptance. `Gate`
puts them together over connections that keep the order of their frames, and
follows every provider request, recovery entry and guidance the worker sees.

**Event log.** `EventLog` is the bounded event table with its deletion and the
cursor pages read from it.

**Planner.** `Planner` and `Support` hold candidates, rosters, eligible
assignments and the support rule, `SupportObject` the support object as it is
printed; `Composition` proves the feasibility scan exact, `SupportMaximum` is the
search over masks, providers and references and is proved to find the maximum
over all rosters and assignments; `AnswerKeys` proves that answers and eligible
tuples correspond one to one; `StrictJson` that the duplicate-name scan is exact
(section 4 of RFC 8259).

**Bytes and text.** `Framing` is the length-prefixed stream under arbitrary
chunking; `Utf8` and `Truncation` the bounding of tool results, with cuts on
character boundaries (section 3 of RFC 3629).

Run `dafny verify dfyconfig.toml` to check everything.

## Assumptions

- Each transaction is atomic. Guidance and aborts read the state, wait until they
  are sent, and are then written without reading anything again; other
  transactions, commands and crashes come in between. Every other command is
  checked and written in one transaction.
- A role has one connection at a time, served by one coroutine that answers one
  message after the other; what is sent on a connection arrives in order or, when
  it is lost, not at all. (`Delivery` does not need the order.) The coroutine of a
  superseded worker may go on writing, which `Generations` takes into account.
- Identities are fresh opaque values, and identities of different kinds (a
  delivery, an abort command) do not coincide. A journal entry that was appended
  survives; a worker process of a role reopens the session of the one before.
- Routing tasks and commands in flight overlap freely. The source checks whether
  a review is due and stores it in two transactions, and reopens a ready run in a
  transaction that does not look at the run again. Approval safety, assignment
  integrity and the dominance of the pause hold throughout a schedule, with no
  repair pending that was given and no round coming back, if and only if no work
  is given to a role a second time in its round and no round is reopened that is
  over (`Approval.HoldsExactlyWhenTimely`), and so whenever nothing comes between
  a check that passes and its assignment, or between the check of waking guidance
  and its write (`Approval.PromptIsTimely`). The first is the case whenever
  `assign` has no run state left to deliver; nothing in the source ensures the
  second. `Overlap` and `Stale` show reachable schedules in which the results fail
  otherwise. All other broker results hold for every interleaving of
  transactions, or say exactly when they do.
- A turn is started by a delivery only; direct typing in a worker pane is not
  modelled. The reminder turn is counted separately by the recovery results.
- The contract of a custom specialist is one kind of assignment, `Specialist`.
  Manifests are version 7 or later, so the contract-match branch of the reviewer
  check is always true.
- The support search takes the JSON width of a name as a function given to it.
  Text is a sequence of Unicode scalar values, so lone surrogates are excluded.
  A `bash` output path has no line break, and a number prints in at most 25
  bytes.

## Model

| member | source | states |
|---|---|---|
| Monotone.StepKeeps | pi_tmux_orchestrator/broker_workflow.py:176-272 | No single transaction removes or rewrites a report, a decision, a ledger row or a receipt, reopens a completed assignment, changes whose it is, or lowers a generation |
| Monotone.RunKeeps | pi_tmux_orchestrator/broker_workflow.py:176-272 | The same over any continuation of any run: completed is terminal and everything recorded stays |
| Monotone.ShapedProviderTurn | pi_tmux_orchestrator/broker_attention.py:206-246 | A provider-turn request changes only the ledger, the pause, and the attention of its own assignment and role, granted or denied |
| Ceilings.CallCeilings | pi_tmux_orchestrator/call_admission.py:144-226 | Over every run each ceiling is its initial value plus the accepted extensions; the granted rows in all, of each role and of each assignment are at most the ceiling of that scope, and number exactly the authorizations sent in all, to that role and for that assignment |
| Ceilings.GrantedOnce | pi_tmux_orchestrator/call_admission.py:153-182 | A request that was authorized is never authorized again in any continuation, and nothing is authorized while admission is paused |
| Ceilings.StepGrants | pi_tmux_orchestrator/broker_attention.py:206-246 | Each step adds exactly the request it authorizes to the granted set, never while paused, and no step removes one |
| Ceilings.ReserveDecides | pi_tmux_orchestrator/call_admission.py:163-203 | A new request is granted if and only if the ledger has room, admission is not paused, and the granted rows in all, of its role and of its assignment are fewer than the ceilings retained for them; a denial sets the pause |
| Ceilings.ReserveRecords | pi_tmux_orchestrator/call_admission.py:153-203 | What was decided is recorded in the words of the request: the same request again is answered without a grant, and any other role, assignment, generation or epoch under its identity conflicts |
| Ceilings.CeilingsBounded | pi_tmux_orchestrator/call_admission.py:205-226 | Over every run no accepted extension takes a ceiling beyond 1000000 |
| Repair.RepairConservation | pi_tmux_orchestrator/continuation.py:66-128 | Over every run the cap is the initial cap plus the accepted continue commands, and the distinct rounds after the first that the implementer was given never exceed it; without a cap no continue is ever accepted |
| Repair.PausesAtCap | pi_tmux_orchestrator/broker.py:801-858 | Corollary of the definition: at the cap the next repair is not assigned but pauses the run on its round; below it the assignment is stored and ends the pause |
| Recovery.OneShotRecovery | pi_tmux_orchestrator/broker_attention.py:136-204 | Over every run at most one reminder is sent and at most one recovery turn granted for an assignment |
| Recovery.StepRank | pi_tmux_orchestrator/broker_attention.py:264-290 | Reserving and granting each move the reminder forward by one, and no transaction moves it back |
| Recovery.ReconnectNeverReplenishes | pi_tmux_orchestrator/broker.py:667-681 | After a worker reconnected to an assignment whose reminder had been reserved, no continuation of the run grants a recovery turn of it any more |
| Recovery.LostReminderIsSpent | pi_tmux_orchestrator/broker_attention.py:177-204 | After a reminder that could not be sent the role waits, and no continuation of the run grants a recovery turn of its assignment |
| Generations.GenerationIsRestarts | pi_tmux_orchestrator/broker_control.py:264-285 | In every reachable state a role's generation is one more than the number of distinct accepted restart commands for it |
| Generations.StaleFramesChangeNothing | pi_tmux_orchestrator/broker.py:496-503 | Corollary of the definition, for the entry gate: a frame that arrives on a connection at another generation, malformed reports included, changes nothing in the store |
| Generations.StaleDisconnect | pi_tmux_orchestrator/broker.py:418-447 | Corollary of the definition: while a replacement is awaited the end of any connection shows in the connected column only |
| Generations.HandoverSurvives | pi_tmux_orchestrator/broker_control.py:264-307 | From an accepted restart until the new generation says hello, the role stays restarting or uncertain if and only if none of five writes is committed that check neither the generation nor the state of the role: four of the superseded client's coroutine, and waking guidance that was checked before the restart and is written after it; every other transaction, broker restarts and other operator commands included, is harmless |
| Generations.UnguardedEnds | pi_tmux_orchestrator/broker_control.py:423-429 | Each of the five, the end of a reconnect, a waiting reconnect, a lost reminder, an assignment and late waking guidance, makes the role look idle, waiting or active |
| Generations.SupersededWrites | pi_tmux_orchestrator/broker.py:645-681 | A reachable state in which guidance and then a restart are accepted for a waiting role, and after the restart any of the five, that guidance included, is committed and ends the pending handover |
| Routing.ScheduleIsRun | pi_tmux_orchestrator/broker_workflow.py:396-510 | Every schedule of handlers, routing tasks and crashes commits a sequence of transactions, so every result over runs holds for it |
| Integrity.ReportSound | pi_tmux_orchestrator/broker_workflow.py:176-272 | Accepting a report keeps assignment integrity |
| Integrity.AssignSound | pi_tmux_orchestrator/broker.py:791-871 | Assigning what routing has established, or pausing instead, keeps assignment integrity |
| Integrity.ActivateSound | pi_tmux_orchestrator/broker_store.py:570-628 | Recording the decisions of the current round keeps assignment integrity |
| Integrity.AdvanceSound | pi_tmux_orchestrator/broker_workflow.py:495-510 | Starting the next round with nothing at work keeps assignment integrity |
| Integrity.ReviewEndsRound | pi_tmux_orchestrator/broker_workflow.py:512-568 | Once the review of the current round is in, no role holds an assignment |
| Approval.ReadyIsApproved | pi_tmux_orchestrator/broker_workflow.py:396-568 | In every timely schedule, ready implies an accepted approving review of the current round, its implementation report, a decision for every specialist with a report where it ran, no role at work and no open assignment |
| Approval.PauseRulesOut | pi_tmux_orchestrator/broker_store.py:531-539 | In every timely schedule, whenever the pause is set the stored workflow is neither active nor ready |
| Approval.AssignmentIntegrity | pi_tmux_orchestrator/broker.py:791-871 | In every timely schedule a role has at most one open assignment and its pointer names it, exactly the completed assignments have a report, and a round has at most one reviewer assignment and one per specialist |
| Approval.HoldsExactlyWhenTimely | pi_tmux_orchestrator/broker_control.py:384-408 | The three results hold together at every point of a schedule, a repair that waits for approval was not given and nothing is at work, and no round comes back, if and only if no assignment is stored for a role that was given work of its kind in its round already and no guidance is written that reopens a round that is over; tasks and commands in flight may overlap in any way |
| Approval.UntimelyBreaks | pi_tmux_orchestrator/broker.py:791-858 | Giving a role the same work a second time breaks assignment integrity at once, or at the repair limit makes a repair wait for approval that was given already |
| Approval.PromptIsTimely | pi_tmux_orchestrator/broker.py:795-801 | A schedule in which nothing comes between a check that passes and its assignment, or between the check of guidance that wakes a waiting or ready run and its write, other than the end of that task or command, is timely |
| Approval.ScheduleInv | pi_tmux_orchestrator/broker.py:707-752 | The invariant behind these results, on the bag of actions that all tasks have still to take and on what the guidance in flight relies on, holds after every timely schedule from the start of a run |
| Approval.ProviderMoves | pi_tmux_orchestrator/broker_attention.py:45-68 | A denied call pauses the run without leaving it active or ready: a role that asks holds an assignment, and a ready run has none |
| Approval.ActivateRoundTaken | pi_tmux_orchestrator/broker_workflow.py:415-468 | Deciding the specialists and queueing the ones that run leaves every queued action, of this and of all other tasks, allowed |
| Approval.ReviewCheckTaken | pi_tmux_orchestrator/broker_workflow.py:520-568 | A review is queued only on complete evidence of the current round, and nothing that ends or begins a round is queued beside it |
| Approval.ReopenedInv | pi_tmux_orchestrator/broker_control.py:384-408 | Guidance that is written on a run whose round is still settled opens the next round with the implementer free, nothing at work and nothing else queued that could still matter |
| Approval.ReopenedAgain | pi_tmux_orchestrator/broker_control.py:398-408 | Written late, when other guidance has opened that round, it leaves every queued action of all tasks allowed and a settled round settled, and queues one more assignment of the round |
| Approval.ContinuedInv | pi_tmux_orchestrator/broker_control.py:186-209 | An approved continuation queues the pending repair and the look at whether it was stored; everything else that is queued is harmless or that same assignment |
| Progress.NothingStalls | pi_tmux_orchestrator/broker_workflow.py:396-568 | In every timely schedule that loses no routing task and skips no assignment, a run that has begun has a role at work or a queued action with something to do for its round, unless its round is approved or a repair waits for the operator |
| Progress.ActiveGoesOn | pi_tmux_orchestrator/broker_control.py:384-436 | In such a schedule an active run has a role at work or a queued action with something to do, at every point, if and only if no guidance is written that wakes it with nothing left to do |
| Progress.BeginLeadsOn | pi_tmux_orchestrator/broker.py:707-752 | Once all roles are connected the run becomes active, the probe is decided as the rules say, and the implementer is given a plan in a phased run and the implementation otherwise |
| Progress.PlanLeadsOn | pi_tmux_orchestrator/broker_workflow.py:403-414 | An accepted plan leads to the implementation of its round: the next step of its task stores it for the implementer |
| Progress.ImplementationLeadsOn | pi_tmux_orchestrator/broker_workflow.py:415-468 | An accepted implementation leads to a decision for every configured specialist, the recorded one where there is one and otherwise that of the activation rules |
| Progress.EvidenceLeadsOn | pi_tmux_orchestrator/broker_workflow.py:512-568 | The specialist report that completes the evidence leads to the review of its round |
| Progress.ReviewLeadsOn | pi_tmux_orchestrator/broker_workflow.py:470-510 | An approving review leads to ready in its round, any other to the next round, active; paused calls make it need attention instead |
| Progress.ContinueLeadsOn | pi_tmux_orchestrator/broker_control.py:328-363 | An approved continuation leads to the pending repair and ends the pause; where the implementer is not connected it leads to an uncertain run and no assignment |
| Replay.CrashAfterApproval | pi_tmux_orchestrator/broker.py:194-204 | A broker lost after a continuation was approved and before any assignment was stored, whatever other connections, operators and routing tasks did in between, comes back uncertain and never assigns anything again: if and only if no guidance is in flight at the approval that wakes the run in its current round |
| Replay.CrashOfAnyRun | pi_tmux_orchestrator/broker.py:194-204 | The same of schedules that are not timely, if every assignment was completed at the approval and no routing task went on before the crash: if and only if no waking guidance is in flight at the approval |
| Replay.ResumingAction | pi_tmux_orchestrator/broker_control.py:328-363 | While an approved repair waits for its assignment, the next action of any task changes nothing, finds that the repair was not stored and marks the run uncertain, stores an assignment and ends the wait, or leaves the cap reached |
| Replay.OrphansWake | pi_tmux_orchestrator/broker_attention.py:191-198 | With nothing at work a routing run stays halted under every transaction that routes nothing if and only if no open assignment is left that no role points at |
| Replay.EachContinuationOneRepair | pi_tmux_orchestrator/continuation.py:94-128 | From every pause on, each approved continuation admits at most one more repair round, and exactly one before the run pauses again: if and only if no guidance checked earlier wakes the run between an approval and the assignment of its repair |
| Replay.StoppedForever | pi_tmux_orchestrator/broker.py:194-220 | An uncertain run with nothing at work and no routing under way stays uncertain and assigns nothing, whatever follows, if and only if no waking guidance is in flight when it stops |
| Overlap.OverlapAssignsTwoReviews | pi_tmux_orchestrator/broker_workflow.py:520-568 | A reachable schedule with overlapping tasks in which one round gets two reviewer assignments |
| Overlap.OverlapReadyAtWork | pi_tmux_orchestrator/broker_workflow.py:470-493 | A reachable schedule in which the first of two reviews approves and the run is ready while a reviewer holds an open assignment |
| Overlap.OverlapReadyPaused | pi_tmux_orchestrator/broker_attention.py:206-246 | It goes on to a run that is ready while its provider calls are paused |
| Stale.TwoSendsTwoAssignments | pi_tmux_orchestrator/broker_control.py:384-408 | A reachable schedule in which two operators send to one ready run and the implementer has two open assignments in one round |
| Stale.TwoSendsReadyAtWork | pi_tmux_orchestrator/broker_workflow.py:470-493 | It goes on to a run that is ready while the first of the two is still open |
| Stale.LateSendGoesBack | pi_tmux_orchestrator/broker_control.py:398-399 | A reachable schedule in which guidance is written after the round it opens is over, and that round comes back |
| Stale.LateSendStalls | pi_tmux_orchestrator/broker_control.py:384-408 | A reachable schedule in which late guidance makes a ready run active in which nobody has anything to do |
| Stale.LateSendWakesApproved | pi_tmux_orchestrator/broker_control.py:384-408 | A reachable schedule in which late guidance makes a run active whose continuation is approved and whose repair is not assigned: a broker lost then does not come back uncertain, and that continuation admits no repair before the run pauses |
| Journal.RestoreWorkerState | extensions/orchestrator-worker-context.js:102-141 | The restoring loop computes the fold of the journal: deliveries, known assignments and the active assignment with its retained baseline |
| Journal.RestoreAttentionState | extensions/orchestrator-worker-attention.js:30-51 | The restoring loop computes the fold of one assignment's attention entries |
| Journal.RestoreGuardrailState | extensions/orchestrator-worker-usage.js:125-142 | The restoring loop computes the fold of one assignment's valid guardrail entries |
| Journal.ScanMembers | extensions/orchestrator-worker-context.js:102-123 | A delivery or an assignment is known exactly if some entry of the journal names it |
| Journal.ScanActive | extensions/orchestrator-worker-context.js:102-141 | The active assignment is the one no later entry reports or follows with another, and there is none exactly if every assignment was reported or followed |
| Journal.GuardFirst | extensions/orchestrator-worker-usage.js:125-142 | The finding of a level is that of the first valid entry for it, and there is none exactly if no entry is valid |
| Worker.JournalReplays | extensions/orchestrator-worker.js:211-304 | After every sequence of handlers and deaths, folding the journal gives the live deliveries, known assignments and active assignment, and while one is active its attention and guardrails |
| Worker.RestartRestores | extensions/orchestrator-worker.js:119-131 | A restart gives back the memory, and the active assignment exactly when its usage baseline is a valid one |
| Worker.AcceptInv | extensions/orchestrator-worker.js:211-259 | Accepting a delivery, repeated, stale or new, keeps the journal and the memory in step |
| Worker.AcceptAnswers | extensions/orchestrator-worker.js:211-259 | From the journal alone: a journalled delivery is a duplicate; a new one is accepted, journalled, and starts a turn exactly if it triggers one; the answer is uncertain exactly if the delivery is neither journalled nor taken, and then nothing changes |
| Worker.CutInv | extensions/orchestrator-worker.js:236-258 | So does dying after binding, after starting the turn, after the boundary entry or after the delivery entry |
| Worker.EvaluateInv | extensions/orchestrator-worker.js:155-185 | A recorded guardrail finding is one that the restoring fold accepts and keeps |
| Worker.FindingValid | extensions/orchestrator-worker-usage.js:84-92 | What the first crossed threshold of a valid policy yields passes the validation of the restore |
| Worker.CrossingFound | extensions/orchestrator-worker-usage.js:84-92 | A finding is the first metric, in their fixed order, whose observed value reaches its threshold, and there is none exactly if no metric does |
| Worker.OneFindingPerLevel | extensions/orchestrator-worker.js:155-176 | Over every session, with restarts and deaths at any point, at most one finding of each level is journalled for an assignment, and only valid ones |
| Worker.UnboundGuidance | extensions/orchestrator-worker.js:261-270 | Guidance sent to a role without an assignment is applied by a worker without one: it outdates earlier signals and leaves no trace in the journal |
| WorkerSession.Session.Restore | extensions/orchestrator-worker.js:119-131 | Session start leaves exactly what the journal says, in step with the journal |
| WorkerSession.Session.AcceptDelivery | extensions/orchestrator-worker.js:211-259 | The statements of the handler, in order, leave a journal that replays to the memory; a journalled delivery is answered as a duplicate, one that is neither journalled nor taken as uncertain with nothing changed, and a turn is started exactly for an accepted one that triggers it |
| WorkerSession.Session.SyncRecoveryState | extensions/orchestrator-worker.js:291-304 | The journal still replays to the memory; a worker told to wait accepts no reminder any more; a changed epoch outdates every signal raised before |
| WorkerSession.Session.ActivateAssignment | extensions/orchestrator-worker.js:280-289 | Unless the assignment is closed, journal and memory are in step for the rest of its acceptance: the active assignment is this one, its attention is what the journal folds to, and what is known of its baseline is what the journal retains; the baseline and the guardrails of the same assignment are kept and those of another one reset; a reconnect says whether it waits |
| WorkerSession.Session.AcceptOperatorGuidance | extensions/orchestrator-worker.js:261-270 | The journal still replays to the memory; after guidance for the active assignment no signal raised before it, acknowledged late, sets the recovery flag again |
| WorkerSession.Session.AcceptReminder | extensions/orchestrator-worker.js:405-413 | A turn is scheduled exactly for the active assignment and epoch that saw no reminder, it is journalled first, and the same reminder never applies again |
| WorkerSession.Session.AcceptClosedAssignment | extensions/orchestrator-worker.js:387-398 | The closed assignment is not active after any restart; a notice about another one changes nothing; the journal replays to the memory |
| WorkerSession.Session.FinishReport | extensions/orchestrator-worker.js:477-483 | The reported assignment is not active after any restart; a late acceptance changes nothing of a newer assignment in memory; the journal replays to it |
| WorkerSession.Session.FinishAttention | extensions/orchestrator-worker.js:440-449 | In another guidance epoch or assignment than the one that raised it nothing changes; otherwise a restart restores the recovery flag |
| WorkerSession.Session.OnAgentSettled | extensions/orchestrator-worker.js:688-700 | The first settlement identity is kept: settling again under any identity changes nothing, and the journal replays to it |
| WorkerSession.Session.FinishSettlement | extensions/orchestrator-worker.js:415-426 | After it this settlement is not open for its assignment; another settlement that is open stays; the journal replays to the memory |
| WorkerSession.Session.RecordPendingGuardrail | extensions/orchestrator-worker.js:155-176 | A finding is recorded exactly if the assignment has none of this level and some metric reaches its threshold, and it is the first such metric; the restoring fold keeps it |
| WorkerSession.Session.DeliverGuardrailWarning | extensions/orchestrator-worker.js:540-554 | The warning is shown exactly if there is one that was not shown, and no report is being made |
| Delivery.StartsAtMostOnce | pi_tmux_orchestrator/broker.py:561-705 | Over every interleaving of assignments, reconnects, handovers, deaths, losses and delays, no delivery id starts two turns |
| Delivery.AcceptedIsJournalled | pi_tmux_orchestrator/broker.py:918-1004 | An assignment the broker holds accepted is in its worker's journal under the current delivery id |
| Delivery.AcceptedSurvivesAck | pi_tmux_orchestrator/broker.py:918-1004 | Over every interleaving, an acknowledgement that is recorded while a role holds an accepted assignment leaves the assignment accepted and neither the role nor the run uncertain |
| Delivery.ResendAnswered | pi_tmux_orchestrator/broker.py:688-704 | Over every interleaving, a delivery that is sent again to a reconnected worker is answered positively and starts no turn |
| Delivery.RecordedIsAccepted | extensions/orchestrator-worker.js:211-259 | An open assignment whose frame arrives, unless its worker closed it, is accepted once that answer is recorded; a recovering role works again and the run keeps its state |
| Gate.OneRecoveryRequest | extensions/orchestrator-worker.js:654-681 | Once the recovery of an assignment is journalled at most one provider request of it leaves, gated or not, before the next guidance: over every interleaving of transactions, connections and handlers, with the worker dying at any point |
| Gate.FlagClearedByGuidanceOnly | extensions/orchestrator-worker.js:261-304 | The journalled recovery flag of an assignment is cleared by guidance and by nothing else: no reconnect, handover, death, late frame or transaction does it |
| Gate.OneRequestLeaves | extensions/orchestrator-worker.js:405-413 | The bound is reached: an execution in which a reminded worker has its one request, in every configuration |
| Gate.ReopeningOk | pi_tmux_orchestrator/broker.py:667-704 | A reconnecting worker is told that it need not wait only if it is not recovering in the epoch it is told |
| Gate.AcceptOutcome | extensions/orchestrator-worker.js:211-304 | What accepting any envelope does to the journalled attention: nothing, or guidance of the active assignment, or what a reconnect says of its own assignment, with the epoch counted exactly when it changes |
| Rows.WaitsOn | pi_tmux_orchestrator/broker_attention.py:45-68 | Who has to wait in a guidance epoch has to wait in it after every transaction: nothing but a new epoch or completion ends it |
| Rows.EpochsOn | pi_tmux_orchestrator/broker_control.py:410-430 | Every epoch of an assignment is that of a recorded command, or none |
| Delivery.StoreKeeps | pi_tmux_orchestrator/broker.py:561-705 | Only an assignment, a confirmed handover or an acknowledgement of its own role changes a delivery id or makes an assignment accepted |
| BrokerStore.Store.Reconcile | pi_tmux_orchestrator/broker.py:194-220 | Startup leaves no routing, initializing or handover under way; what was interrupted is uncertain, everything else stays, and assignment integrity is kept |
| BrokerStore.Store.Hello | pi_tmux_orchestrator/broker.py:326-360 | Another generation changes nothing; a greeting connects its role, idle or recovering from a handover; a connection that ends right after leaves an ordinary role as it came and a handed-over role with its run uncertain; assignment integrity is kept |
| Effects.ReconnectRows | pi_tmux_orchestrator/broker.py:600-687 | An assignment that was never acknowledged leaves assignment, role and run uncertain on a reconnect; one that has to wait is spent and waits for the operator; a confirmed handover replays its assignment under a new delivery |
| BrokerStore.Store.ClientGone | pi_tmux_orchestrator/broker.py:418-447 | A second end of the same connection changes nothing; only the end of a recovering connection at the current generation changes the workflow; a restarting role goes on restarting; assignment integrity is kept |
| BrokerStore.Store.HandleDeliveryAck | pi_tmux_orchestrator/broker.py:918-1004 | A positive acknowledgement of the live delivery makes its assignment accepted and its role work, a negative one leaves assignment, role and run uncertain; repeated or under another delivery id it changes nothing; assignment integrity is kept |
| BrokerStore.Store.StoreAssignment | pi_tmux_orchestrator/broker.py:801-858 | The assignment and its pointer are stored together, or the run pauses on that round at the repair limit with no row changed |
| BrokerStore.Store.CountRepairRounds | pi_tmux_orchestrator/continuation.py:66-91 | The loop counts the distinct admitted repair rounds |
| BrokerStore.Store.LimitReached | pi_tmux_orchestrator/continuation.py:94-103 | The limit is reached if and only if the distinct repair rounds given so far are as many as the retained cap |
| BrokerStore.Store.HandleReport | pi_tmux_orchestrator/broker_workflow.py:176-272 | A report is accepted if and only if it is for the open assignment of its role and kind; it is stored, its assignment completed and its role free; a duplicate changes nothing and a refusal is classified |
| BrokerStore.Store.RecordReportRejection | pi_tmux_orchestrator/worker_attention.py:43-58 | A rejection is classified once, and exactly the same reports are acceptable after it as before |
| BrokerStore.Store.AttentionWaiting | pi_tmux_orchestrator/broker_attention.py:45-68 | The role waits and the run needs attention, unless it is uncertain or ready; no late lifecycle frame, other than one that reports uncertainty, moves a role that waits with an assignment; assignment integrity is kept |
| BrokerStore.Store.HandleAttention | pi_tmux_orchestrator/broker_attention.py:102-116 | A signal of the owner makes its role wait for the operator and blocks its assignment until guidance: every provider call is denied, no recovery turn is granted, and the signal repeated changes nothing; of anyone else it changes nothing |
| BrokerStore.Store.HandleSettlement | pi_tmux_orchestrator/broker_attention.py:136-175 | The reminder is reserved on the first settlement of an assignment without report or attention, and on no other; any further one makes the role wait for the operator, and one that is repeated changes nothing |
| BrokerStore.Store.HandleRecoveryTurn | pi_tmux_orchestrator/broker_attention.py:264-285 | A recovery turn is granted if and only if the reservation is unclaimed and no attention was raised, and then no second one; otherwise the role waits for the operator |
| BrokerStore.Store.CountGranted | pi_tmux_orchestrator/call_admission.py:184-195 | The loop counts the granted turns in all, of one role or of one assignment |
| BrokerStore.Store.ReserveProviderTurn | pi_tmux_orchestrator/call_admission.py:144-203 | A new request is granted exactly if the ledger, the pause and the granted turns in all, of its role and of its assignment leave room, and is recorded with its decision; a known one is never granted again |
| BrokerStore.Store.HandleProviderTurn | pi_tmux_orchestrator/broker_attention.py:206-246 | Authorization leaves only for a granted reservation; every denial leaves its role waiting for the operator and its assignment blocked |
| BrokerStore.Store.ExtendCallAllowance | pi_tmux_orchestrator/call_admission.py:205-226 | Every retained ceiling grows by the amount and the pause ends |
| BrokerStore.Store.HandleLifecycle | pi_tmux_orchestrator/broker.py:1124-1239 | Unless it reports uncertainty a frame takes no role that waits with an assignment, recovers or is uncertain out of its state; any other role takes the state that it reports of its own assignment; other roles and assignment integrity are kept |
| Effects.LifecycleRun | pi_tmux_orchestrator/broker.py:1197-1239 | With an assignment a role that turned uncertain makes an unfinished run uncertain, one that waits makes it need attention, and one that works again makes it active unless calls are paused; nothing else moves it |
| BrokerStore.Store.HandleControl | pi_tmux_orchestrator/broker_control.py:116-300 | Which commands are accepted, refused, in conflict or uncertain; a new command leaves one receipt with its effect in the same transaction, and none when it is refused; accepted guidance or an accepted abort leaves nothing yet, and what it is going to write is decided on the state before it is sent |
| BrokerStore.Store.ApproveContinuation | pi_tmux_orchestrator/continuation.py:106-128 | A continuation is accepted only in a run that needs attention with a repair pending, a cap and every role free and idle or disconnected; it allows exactly one more round than the cap or the admitted rounds, so the pending repair has room, and is refused where the policy allows no more |
| BrokerStore.Store.OperatorSend | pi_tmux_orchestrator/broker_control.py:375-436 | On whatever state it finds once it is sent: a reopening changes no row and keeps assignment integrity if the round it opens is the next one and nothing is at work; other guidance changes only the live assignment, keeps integrity, frames of any other epoch are refused for it from then on, and neither a reconnect nor an earlier signal makes it wait; waking guidance makes its role work, and the run active exactly if no other role waits and calls are not paused |
| BrokerStore.Store.FinishControl | pi_tmux_orchestrator/broker_control.py:280-292 | A command that was sent is written with its receipt, whatever has become of the state it was checked on; if its identity has a receipt by then nothing is written at all |
| BrokerStore.Store.ActivateRound | pi_tmux_orchestrator/broker_store.py:570-628 | The loop records one decision for each undecided specialist and changes none that is recorded |
| EventLog.Log.RecordEvent | pi_tmux_orchestrator/broker_store.py:508-528 | After any number of appends the table is the last 4096 events, contiguous |
| EventLog.GapExact | pi_tmux_orchestrator/broker_store.py:996-1008 | A page reports a gap if and only if an event after its cursor was deleted |
| EventLog.PageIsRange | pi_tmux_orchestrator/broker_store.py:970-1010 | Without a gap a page holds exactly the matching events from its cursor up to its next cursor, in order and at most as many as asked for, and says that more follow exactly if a matching event is after its next cursor |
| EventLog.LosslessPaging | pi_tmux_orchestrator/broker_store.py:970-1010 | A reader that follows the next cursor, while events are appended, has seen exactly the matching events between its start and its cursor, once and in order, unless a page reported a gap |
| Composition.CompositionRoleFacts | extensions/orchestrator-planner-evidence.js:134-145 | The scan of one role offers exactly the tuples its eligibility and locks leave open |
| Composition.SingleExact | extensions/orchestrator-planner-evidence.js:149-159 | The single-provider answer is offered if and only if some roster and eligible assignment uses one provider |
| Composition.MixedExact | extensions/orchestrator-planner-evidence.js:149-159 | The mixed answer is offered if and only if some roster and eligible assignment uses two |
| Composition.NeverEmpty | extensions/orchestrator-provider-support.js:52-60 | The offer is never empty, and what any roster makes feasible the run-level question offers |
| Support.SupportedByTokens | extensions/orchestrator-provider-support.js:32-35 | A token reference supports a role if and only if it has an alternative of another provider and the declared window of the selected model is at least 1.25 times the declared, positive window of every one |
| Support.SupportedByCost | extensions/orchestrator-provider-support.js:19-25 | Declared cost supports a role if and only if the selected model is at least a fifth cheaper than every alternative on both positive base rates, higher on no cache rate, with no tiers on either side |
| Support.SupportedByFlag | extensions/orchestrator-provider-support.js:30-31 | Reasoning or image support a role if and only if the selected model is known to have it and every alternative is known not to |
| Support.SupportedByCache | extensions/orchestrator-provider-support.js:37-41 | Cache retention supports a role if and only if it is declared for the selected model and known to be absent from every alternative |
| Support.SupportedByThinking | extensions/orchestrator-provider-support.js:36-36 | Thinking supports a role if and only if the selected level comes later in the order of effort than every level of every alternative |
| Support.WiderKeepsSupport | extensions/orchestrator-provider-support.js:32-35 | A wider window of the selected model keeps its support |
| Support.WiderAlternativeEndsSupport | extensions/orchestrator-provider-support.js:32-35 | A window of one alternative beyond four fifths of the selected one ends it |
| Support.DerivesExactly | extensions/orchestrator-provider-support.js:52-70 | Which plans are accepted and as what, from the providers that are offered and used, the preference, the reference and the support of every role |
| SupportObject.SupportMeasured | extensions/orchestrator-planner-evidence.js:222-262 | The measured size of every support object is the length of its JSON text |
| SupportMaximum.LevelIrrelevant | extensions/orchestrator-provider-support.js:27-44 | Only the thinking reference depends on the level in use, so the widest level stands for the others |
| SupportMaximum.PassingSlice | extensions/orchestrator-planner-evidence.js:279-303 | The first passing pair in falling width is a widest passing tuple of the role, and none is returned only if none passes |
| SupportMaximum.SupportSliceIndex | extensions/orchestrator-planner-evidence.js:305-333 | Every entry of the index is the widest slice of its role, provider and reference |
| SupportMaximum.HomogeneousSliceBytes | extensions/orchestrator-planner-evidence.js:353-361 | The sum of widest slices is the largest total over all assignments of that provider and reference |
| SupportMaximum.ConsiderRosterSupport | extensions/orchestrator-planner-evidence.js:363-386 | After one roster the best is an accepted plan and bounds every accepted plan of the roster |
| SupportMaximum.MaskOf | extensions/orchestrator-planner-evidence.js:392-403 | Every choice of optional roles is the bits of a mask the loop visits |
| SupportMaximum.MaximumProviderSupport | extensions/orchestrator-planner-evidence.js:392-403 | The result is reached by an accepted plan and is at least every accepted plan over all rosters, assignments and references; more than twelve optional roles fails closed |
| AnswerKeys.Base36RoundTrip | extensions/orchestrator-planner.js:566-568 | Reading a base-36 index gives the index that was written |
| AnswerKeys.Base36Digits | extensions/orchestrator-planner.js:566-568 | An index is written in the digits 0-9 and a-z, most significant first and without leading zeros |
| AnswerKeys.TupleKeysDistinct | extensions/orchestrator-planner.js:566-568 | Different tuples have different keys |
| AnswerKeys.EligibleExactly | extensions/orchestrator-planner.js:571-581 | A pair is eligible exactly if it is a catalog entry in scope at one of its levels and neither its model nor its level is locked to another |
| AnswerKeys.JointExactly | extensions/orchestrator-planner.js:582-597 | A joint question is asked exactly if some eligible model does not go with some eligible level; the planner refuses exactly if nothing is eligible or that question has more than 255 options |
| AnswerKeys.SplitIsProduct | extensions/orchestrator-planner.js:570-597 | Without a joint question the eligible pairs are exactly the product of the two axes |
| AnswerKeys.EncodeDecodes | extensions/orchestrator-planner.js:658-707 | The keys of every eligible pair are offered and are read back as that pair |
| AnswerKeys.OfferedDecodes | extensions/orchestrator-planner.js:953-981 | Every offered answer is read, and as the one eligible pair it encodes |
| AnswerKeys.JointAtMost223 | extensions/orchestrator-worker-candidates.js:23-33 | A pool of 32 models by seven levels asks a joint question with at most 223 options, so the option limit never refuses |
| AnswerKeys.TypeSafeAssignmentAnswers | extensions/orchestrator-planner.js:953-981 | The loop reads every role's answer, keeps fixed roles, and refuses if and only if some answer names no eligible pair |
| StrictJson.StrictPlannerJson | extensions/orchestrator-planner-evidence.js:544-557 | The loop with its mutable stack accepts what the scan accepts |
| StrictJson.RefusesExactly | extensions/orchestrator-planner-evidence.js:537-557 | Over the tokens of any document the scan refuses if and only if some object repeats a decoded name or the nesting exceeds 64 |
| Framing.Stream.ConsumeObserverFrames | extensions/orchestrator-parent-protocol.js:307-318 | The loop emits and keeps what parsing buffer and chunk gives; the size check after it never fails |
| Framing.FrameIs | extensions/orchestrator-parent-protocol.js:27-35 | A frame is the big-endian length of its payload in four bytes and the payload |
| Framing.ParseSplits | extensions/orchestrator-parent-protocol.js:307-318 | Every stream is the frames of the payloads that come out and an incomplete frame, or, where it is refused, bytes that announce an empty payload or one of more than 256 KiB |
| Framing.BadSizeRefused | extensions/orchestrator-parent-protocol.js:309-311 | A size that is not allowed ends the stream after the payloads before it, in any chunks |
| Framing.ParseLeavesIncomplete | extensions/orchestrator-parent-protocol.js:317-317 | What a valid stream leaves over is an incomplete frame and below the buffer limit |
| Framing.ChunksDoNotMatter | extensions/orchestrator-parent-protocol.js:307-318 | Any partition into chunks gives the payloads, the rest and the refusal of the whole |
| Framing.FramesArrive | extensions/orchestrator-parent-protocol.js:27-35 | Framed payloads followed by a part of a frame come out in order and the part is kept |
| Framing.StreamSoFar | extensions/orchestrator-parent-protocol.js:307-318 | At any moment exactly the fully received payloads have come out |
| Utf8.Utf8Tail | extensions/orchestrator-result-policy.js:41-47 | The cut is on a character boundary and leaves the longest tail that fits |
| Truncation.HeadWithin | extensions/orchestrator-result-policy.js:28-39 | The most whole lines from the front within both limits |
| Truncation.TailWithin | extensions/orchestrator-result-policy.js:49-67 | The most whole lines from the end within both limits, or the fitting end of an oversized last line |
| Truncation.MatchingJoins | extensions/orchestrator-result-policy.js:69-72 | The failure lines are the lines of the source that match, in their order |
| Truncation.EndingIsSuffix | extensions/orchestrator-result-policy.js:53-67 | The tail section is a true suffix of the source, up to a final line break |
| Truncation.HeadTailWithin | extensions/orchestrator-result-policy.js:74-87 | Beginning, failure lines and ending within their shares of the limits, in this order, with a separator between two that are there and none beside an empty one |
| Truncation.TruncateHead | extensions/orchestrator-result-policy.js:272-290 | A truncated read or grep result is a beginning of the source and, with its notice, within both limits |
| Truncation.TruncateBash | extensions/orchestrator-result-policy.js:272-290 | A truncated bash result begins with a beginning of the source, then come its failure lines and a true ending, separated, and last a blank line and the notice; all of it is within both limits |
| Truncation.BashLinesTight | extensions/orchestrator-result-policy.js:74-87 | Sections at their line limits make exactly the 400 lines that are allowed |
| Truncation.BashLinesReached | extensions/orchestrator-result-policy.js:74-87 | Failure output of more than 400 lines of at most 58 bytes each comes out as exactly 400 lines |

## Left out

- StartsAtMostOnce: for one role at a time, whose sessions share one journal; reminder turns are counted by OneShotRecovery and Gate.OneRecoveryRequest instead.
- MaximumProviderSupport: covers the support object and its comparison, not the probability widths and the rest of the evidence estimate.
- TypesafeRoleAxes: the pool policy and the locks are reduced to the indexes in scope, a locked model and a locked level.
- Sockets, peer credentials, tmux, subprocesses, file permissions, SQLite itself, tokens and digests.
- Progress, usage, guardrail and dashboard columns of the store, run-state capsules and observer replay, which no modelled decision reads.
- The decision rules for specialists and the validation of reports, which are arbitrary values here.
- Manifests older than version 7 and schema migrations.
- JSON text itself: documents are token trees, frames carry opaque payloads, notices are given by their length.
- Filtering of the worker's context, configuration loaders, slash commands and rendering, which would add only easy members.
