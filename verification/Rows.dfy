/** What transactions leave of the rows of the assignment table. */

module Rows {
  import opened Options
  import opened Tables
  import opened Transactions
  import opened Runs
  import opened Monotone

  /** Same role and delivery, and not newly accepted. */
  predicate RowHeld(row: Assignment, after: Assignment) {
    after.role == row.role && after.delivery == row.delivery && (after.state == Accepted ==> row.state == Accepted)
  }

  /** Same guidance epoch; a completed row stays completed, and one whose worker
      has to wait goes on waiting until it is. */
  predicate EpochHeld(row: Assignment, after: Assignment) {
    && after.resume == row.resume
    && (row.state == Completed ==> after.state == Completed)
    && (RecoveryWaiting(row) ==> RecoveryWaiting(after) || after.state == Completed)
  }

  predicate RowKept(row: Assignment, after: Assignment) {
    RowHeld(row, after) && EpochHeld(row, after)
  }

  ghost predicate RowsHeld(db: Database, after: Database) {
    after.assignments.Keys == db.assignments.Keys
    && forall id :: id in after.assignments ==> RowHeld(db.assignments[id], after.assignments[id])
  }

  /** The same rows, and none became accepted or changed its delivery or epoch. */
  ghost predicate RowsKept(db: Database, after: Database) {
    after.assignments.Keys == db.assignments.Keys
    && forall id :: id in after.assignments ==> RowKept(db.assignments[id], after.assignments[id])
  }

  lemma KeptRow(db: Database, after: Database, id: AssignmentId, row: Assignment)
    requires id in db.assignments && RowKept(db.assignments[id], row) && after.assignments == db.assignments[id := row]
    ensures RowsKept(db, after)
  {
  }

  lemma WaitingRow(db: Database, role: Role, id: AssignmentId, row: Assignment)
    requires role in db.roles && id in db.assignments && RowKept(db.assignments[id], row)
    ensures RowsKept(db, AttentionWaiting(SetAssignment(db, id, row), role, id))
  {
    var after := AttentionWaiting(SetAssignment(db, id, row), role, id);
    assert after.assignments == db.assignments[id := row][id := row.(authorized := false)];
    assert db.assignments[id := row][id := row.(authorized := false)] == db.assignments[id := row.(authorized := false)];
    KeptRow(db, after, id, row.(authorized := false));
  }

  lemma KeptWaiting(db: Database, role: Role, id: AssignmentId)
    requires role in db.roles && id in db.assignments
    ensures RowsKept(db, AttentionWaiting(db, role, id))
  {
    assert SetAssignment(db, id, db.assignments[id]) == db;
    WaitingRow(db, role, id, db.assignments[id]);
  }

  lemma KeptRejection(db: Database, role: Role, generation: nat, id: AssignmentId, resume: Option<CommandId>)
    ensures RowsKept(db, RejectedReport(db, role, generation, id, resume))
    ensures RowsKept(db, RecordRejection(db, role, generation, id))
  {
    if id in db.assignments && db.assignments[id].attempt == NoAttempt {
      KeptRow(db, SetAssignment(db, id, db.assignments[id].(attempt := Rejected)), id, db.assignments[id].(attempt := Rejected));
    }
  }

  lemma KeptReport(db: Database, role: Role, generation: nat, id: AssignmentId, kind: Kind, verdict: Verdict)
    ensures RowsKept(db, AcceptReport(db, role, generation, id, kind, verdict))
  {
    if Reportable(db, role, id, kind) {
      KeptRow(db, AcceptReport(db, role, generation, id, kind, verdict), id, db.assignments[id].(state := Completed, attempt := ReportAccepted));
    } else if DuplicateReport(db, role, id, kind) {
    } else {
      KeptRejection(db, role, generation, id, None);
    }
  }

  lemma KeptRaise(db: Database, role: Role, generation: nat, id: AssignmentId, resume: Option<CommandId>)
    ensures RowsKept(db, RaiseAttention(db, role, generation, id, resume))
  {
    if Owns(db, role, generation, id, resume) {
      WaitingRow(db, role, id, db.assignments[id].(attempt := AttentionRaised));
    }
  }

  lemma KeptSettle(db: Database, role: Role, generation: nat, id: AssignmentId, resume: Option<CommandId>, settlement: RequestId)
    ensures RowsKept(db, Settle(db, role, generation, id, resume, settlement))
  {
    if Settles(db, role, generation, id, resume, settlement) {
      var counted := Counted(db.assignments[id], settlement);
      if Nudges(db.assignments[id], settlement) {
        KeptRow(db, AfterSettlement(db, role, id, settlement), id, counted.(reminder := Reserved, authorized := false));
      } else {
        WaitingRow(db, role, id, counted);
      }
    }
  }

  lemma KeptRecoveryTurn(db: Database, role: Role, generation: nat, id: AssignmentId, resume: Option<CommandId>)
    ensures RowsKept(db, RecoveryTurn(db, role, generation, id, resume))
  {
    if Owns(db, role, generation, id, resume) {
      if RecoveryAllowed(db.assignments[id]) {
        KeptRow(db, RecoveryTurn(db, role, generation, id, resume), id, db.assignments[id].(reminder := Used));
      } else {
        KeptWaiting(db, role, id);
      }
    }
  }

  lemma KeptProviderTurn(db: Database, role: Role, generation: nat, id: AssignmentId, resume: Option<CommandId>, request: RequestId)
    ensures RowsKept(db, ProviderTurn(db, role, generation, id, resume, request))
  {
    QuietDecision(db, role, generation, id, resume, request);
    match ProviderTurnDecision(db, role, generation, id, resume, request)
    case Refused =>
    case Decided(reserved, granted) =>
      if !granted { WaitingRow(reserved, role, id, reserved.assignments[id].(attempt := AttentionRaised)); }
  }

  lemma KeptFrame(db: Database, role: Role, generation: nat, frame: Frame)
    requires role in db.roles && !frame.AckFrame?
    ensures RowsKept(db, Handle(db, role, generation, frame))
  {
    match frame
    case ReportFrame(id, kind, verdict) => KeptReport(db, role, generation, id, kind, verdict);
    case RejectedReportFrame(id, resume) => KeptRejection(db, role, generation, id, resume);
    case MalformedReport(id) => KeptRejection(db, role, generation, id, None);
    case AttentionFrame(id, resume) => KeptRaise(db, role, generation, id, resume);
    case SettlementFrame(id, resume, settlement) => KeptSettle(db, role, generation, id, resume, settlement);
    case ProviderTurnFrame(id, resume, request) => KeptProviderTurn(db, role, generation, id, resume, request);
    case RecoveryTurnFrame(id, resume) => KeptRecoveryTurn(db, role, generation, id, resume);
    case LifecycleFrame(state, assignment) => KeptLifecycle(db, role, state, assignment);
  }

  lemma AcknowledgedRow(db: Database, role: Role, delivery: DeliveryId, accepted: bool)
    ensures var after := Acknowledge(db, role, delivery, accepted);
            if Answers(db, role, delivery) then
              var active := db.roles[role].active.value;
              after.assignments == db.assignments[active := db.assignments[active].(state := if accepted then Accepted else DeliveryUncertain)]
            else after.assignments == db.assignments
  {
    if Answers(db, role, delivery) && accepted {
      AcceptedRow(db, role, db.roles[role].active.value);
    }
  }

  lemma AcceptedRow(db: Database, role: Role, id: AssignmentId)
    requires role in db.roles && id in db.assignments
    ensures Acknowledged(db, role, id).assignments == db.assignments[id := db.assignments[id].(state := Accepted)]
  {
    var acked := SetAssignment(db, id, db.assignments[id].(state := Accepted));
    if db.roles[role].state.Disconnected? || db.roles[role].state.Idle? || db.roles[role].state.Recovering? {
      assert Acknowledged(db, role, id) == SetRoleState(acked, role, Working);
    } else {
      assert Acknowledged(db, role, id) == acked;
    }
  }

  lemma KeptLifecycle(db: Database, role: Role, state: RoleState, assignment: Option<Option<AssignmentId>>)
    ensures Lifecycle(db, role, state, assignment).assignments == db.assignments
  {
  }

  lemma KeptRecovery(db: Database, role: Role, id: AssignmentId)
    ensures RowsKept(db, RecoverUncertain(db, role, id))
  {
    if NeverAcknowledged(db, role, id) {
      KeptRow(db, Unsure(db, role, id), id, db.assignments[id].(state := DeliveryUncertain));
    }
  }

  lemma KeptRecoverWaiting(db: Database, role: Role, id: AssignmentId)
    ensures RowsKept(db, RecoverWaiting(db, role, id))
  {
    if WaitsToRecover(db, role, id) { WaitingRow(db, role, id, Spent(db.assignments[id])); }
  }

  lemma KeptReminderLost(db: Database, role: Role, id: AssignmentId)
    ensures RowsKept(db, ReminderLost(db, role, id))
  {
    if Reminded(db, role, id) {
      WaitingRow(db, role, id, db.assignments[id].(reminder := Used));
    }
  }

  /** Guidance moves the live assignment of its role into a new epoch. */
  lemma ResumedRows(db: Database, id: CommandId, role: Role, waking: bool)
    requires role in db.roles
    ensures var after := Resume(db, id, role, waking).assignments;
            match db.roles[role].active
            case None => after == db.assignments
            case Some(a) =>
              after == if a in db.assignments then db.assignments[a := db.assignments[a].(resume := Some(id), authorized := true)] else db.assignments
  {
    WakeRows(ResumeBound(db, id, role), role);
  }

  lemma HeldPlan(db: Database, id: CommandId, role: Role, plan: Plan)
    requires role in db.roles
    ensures RowsHeld(db, PlanEffect(db, id, role, plan))
  {
    if plan.Guiding? { ResumedRows(db, id, role, plan.waking); }
  }

  lemma HeldFinish(db: Database, id: CommandId, role: Role, plan: Plan)
    ensures RowsHeld(db, Finish(db, id, role, plan))
  {
    if role in db.roles && id !in db.commands { HeldPlan(db, id, role, plan); }
  }

  lemma WakeRows(db: Database, role: Role)
    requires role in db.roles
    ensures Wake(db, role).assignments == db.assignments
  {
  }

  lemma KeptEffect(db: Database, id: CommandId, action: Action, role: Role)
    requires role in db.roles
    ensures ControlEffect(db, id, action, role).assignments == db.assignments
  {
    match action
    case RestartFailed => assert MarkHandoverUncertain(db, role).assignments == db.assignments;
    case _ =>
  }

  lemma KeptControl(db: Database, id: CommandId, action: Action, role: Role, link: Link)
    ensures Control(db, id, action, role, link).assignments == db.assignments
  {
    match ControlStatus(db, id, action, role, link)
    case None =>
    case Some(status) => if status == StatusAccepted { KeptEffect(db, id, action, role); }
  }

  lemma ReconnectKeeps(db: Database, tx: Transaction)
    requires tx.TxRecoverUncertain? || tx.TxRecoverWaiting? || tx.TxReminderLost?
    ensures RowsKept(db, Apply(db, tx))
  {
    match tx
    case TxRecoverUncertain(other, id) => KeptRecovery(db, other, id);
    case TxRecoverWaiting(other, id) => KeptRecoverWaiting(db, other, id);
    case TxReminderLost(other, id) => KeptReminderLost(db, other, id);
  }

  lemma SameAssignments(db: Database, tx: Transaction)
    requires tx.TxBoot? || tx.TxHello? || tx.TxMarkUncertain? || tx.TxRecoverIdle? || tx.TxLifecycleWorkflow?
             || tx.TxActivate? || tx.TxAdvance? || tx.TxApprove? || tx.TxSetWorkflow?
    ensures Apply(db, tx).assignments == db.assignments
  {
    match tx
    case TxBoot => BootRows(db);
    case TxHello(role, generation) =>
    case TxMarkUncertain(role) =>
    case TxRecoverIdle(role) =>
    case TxLifecycleWorkflow(role, state) => WorkflowRows(db, role, state);
    case TxActivate(specialists, round, run) =>
    case TxAdvance(round) =>
    case TxApprove =>
    case TxSetWorkflow(workflow) =>
  }

  lemma BootRows(db: Database)
    ensures Boot(db).assignments == db.assignments
  {
    assert FailHandovers(db, Interrupted(db)).assignments == db.assignments;
    assert BootWorkflow(db).assignments == db.assignments;
  }

  lemma WorkflowRows(db: Database, role: Role, state: RoleState)
    ensures LifecycleWorkflow(db, role, state).assignments == db.assignments
  {
  }

  // ----- guidance epochs -----

  /** A worker of this assignment that is in epoch `resume` has to wait. */
  predicate Waits(db: Database, id: AssignmentId, resume: Option<CommandId>) {
    id in db.assignments
    && var row := db.assignments[id]; row.state == Completed || row.resume != resume || RecoveryWaiting(row)
  }

  /** The epoch before any guidance, or that of a recorded command. */
  predicate Begun(db: Database, resume: Option<CommandId>) {
    resume.Some? ==> resume.value in db.commands
  }

  ghost predicate EpochsBegun(db: Database) {
    forall id :: id in db.assignments ==> Begun(db, db.assignments[id].resume)
  }

  /** A row stays in its epoch, or is moved into the epoch of a new command. */
  predicate EpochStep(db: Database, after: Database, id: AssignmentId)
    requires id in db.assignments
  {
    id in after.assignments
    && var row, later := db.assignments[id], after.assignments[id];
       || EpochHeld(row, later)
       || (later.state == row.state && later.resume.Some? && later.resume.value !in db.commands && later.resume.value in after.commands)
  }

  lemma FinishEpochs(db: Database, command: CommandId, role: Role, plan: Plan, id: AssignmentId)
    requires id in db.assignments
    ensures EpochStep(db, Finish(db, command, role, plan), id)
  {
    if role in db.roles && command !in db.commands && plan.Guiding? { ResumedRows(db, command, role, plan.waking); }
  }

  lemma FrameEpochs(db: Database, role: Role, generation: nat, frame: Frame, id: AssignmentId)
    requires id in db.assignments && role in db.roles
    ensures EpochStep(db, Handle(db, role, generation, frame), id)
  {
    if frame.AckFrame? {
      AcknowledgedRow(db, role, frame.delivery, frame.accepted);
    } else {
      KeptFrame(db, role, generation, frame);
    }
  }

  lemma AssignEpochs(db: Database, role: Role, kind: Kind, round: nat, given: AssignmentId, delivery: DeliveryId, id: AssignmentId)
    requires id in db.assignments
    ensures EpochStep(db, Assign(db, role, kind, round, given, delivery), id)
  {
    NewRow(db, role, kind, round, given, delivery);
  }

  lemma NewRow(db: Database, role: Role, kind: Kind, round: nat, id: AssignmentId, delivery: DeliveryId)
    ensures var after := Assign(db, role, kind, round, id, delivery);
            || after.assignments == db.assignments
            || (id !in db.assignments && after.assignments == db.assignments[id := NewAssignment(role, kind, round, delivery)])
  {
    if !Assignable(db, role, id, delivery) {
    } else if RepairLimitReached(db, role, kind, round) {
    } else {
      GivenRows(db, role, kind, round, id, delivery);
    }
  }

  lemma TransactionEpochs(db: Database, tx: Transaction, id: AssignmentId)
    requires id in db.assignments
    ensures EpochStep(db, Apply(db, tx), id)
  {
    match tx
    case TxFrame(role, generation, frame) => if role in db.roles { FrameEpochs(db, role, generation, frame, id); }
    case TxAssign(role, kind, round, given, delivery) => AssignEpochs(db, role, kind, round, given, delivery, id);
    case TxControl(command, action, role, link) => KeptControl(db, command, action, role, link);
    case TxFinish(command, role, plan) => FinishEpochs(db, command, role, plan, id);
    case TxDisconnect(role, generation) => assert Disconnect(db, role, generation).assignments == db.assignments;
    case TxRotateDelivery(role, rotated, delivery) =>
    case TxRecoverUncertain(_, _) => ReconnectKeeps(db, tx);
    case TxRecoverWaiting(_, _) => ReconnectKeeps(db, tx);
    case TxReminderLost(_, _) => ReconnectKeeps(db, tx);
    case _ => SameAssignments(db, tx);
  }

  /** Whoever has to wait in an epoch has to wait in it from then on. */
  lemma WaitsOn(db: Database, tx: Transaction, id: AssignmentId, resume: Option<CommandId>)
    requires Waits(db, id, resume) && Begun(db, resume)
    ensures Waits(Apply(db, tx), id, resume) && Begun(Apply(db, tx), resume)
  {
    TransactionEpochs(db, tx, id);
    StepKeeps(db, tx);
  }

  lemma FrameKeys(db: Database, role: Role, generation: nat, frame: Frame)
    requires role in db.roles
    ensures Handle(db, role, generation, frame).assignments.Keys == db.assignments.Keys
  {
    if frame.AckFrame? {
      AcknowledgedRow(db, role, frame.delivery, frame.accepted);
    } else {
      KeptFrame(db, role, generation, frame);
    }
  }

  lemma OtherHeld(db: Database, tx: Transaction)
    requires !tx.TxFrame? && !tx.TxAssign? && !tx.TxRotateDelivery?
    ensures RowsHeld(db, Apply(db, tx))
  {
    match tx
    case TxControl(command, action, role, link) => KeptControl(db, command, action, role, link);
    case TxFinish(command, role, plan) => HeldFinish(db, command, role, plan);
    case TxDisconnect(other, generation) => assert Disconnect(db, other, generation).assignments == db.assignments;
    case TxRecoverUncertain(_, _) => ReconnectKeeps(db, tx);
    case TxRecoverWaiting(_, _) => ReconnectKeeps(db, tx);
    case TxReminderLost(_, _) => ReconnectKeeps(db, tx);
    case _ => SameAssignments(db, tx);
  }

  lemma SameKeys(db: Database, tx: Transaction)
    requires !tx.TxAssign?
    ensures Apply(db, tx).assignments.Keys == db.assignments.Keys
  {
    if tx.TxFrame? {
      if tx.role in db.roles { FrameKeys(db, tx.role, tx.generation, tx.frame); }
    } else if !tx.TxRotateDelivery? {
      OtherHeld(db, tx);
    }
  }

  /** An assignment starts outside any guidance epoch. */
  lemma NewRowsUnguided(db: Database, tx: Transaction)
    ensures forall id :: id in Apply(db, tx).assignments && id !in db.assignments ==> Apply(db, tx).assignments[id].resume == None
  {
    if tx.TxAssign? {
      NewRow(db, tx.role, tx.kind, tx.round, tx.id, tx.delivery);
    } else {
      SameKeys(db, tx);
    }
  }

  lemma EpochsOn(db: Database, tx: Transaction)
    requires EpochsBegun(db)
    ensures EpochsBegun(Apply(db, tx))
  {
    var after := Apply(db, tx);
    StepKeeps(db, tx);
    NewRowsUnguided(db, tx);
    forall id | id in after.assignments ensures Begun(after, after.assignments[id].resume) {
      if id in db.assignments {
        TransactionEpochs(db, tx, id);
        assert Begun(db, db.assignments[id].resume);
      }
    }
  }
}
