/** How transactions that route nothing move the workflow state. */

module Workflows {
  import opened Options
  import opened Tables
  import opened Transactions
  import opened Runs
  import opened Monotone
  import opened Routing
  import opened Integrity

  predicate Unstarted(workflow: Workflow) {
    workflow == Starting || workflow == Connecting
  }

  /** A set pause flag rules out `active` and `ready`. */
  ghost predicate PauseDominates(db: Database) {
    db.paused ==> db.workflow != Active && db.workflow != Ready
  }

  /** How a transaction that routes nothing may move the workflow. */
  predicate WorkflowMoves(db: Database, after: Database) {
    && (after.workflow == db.workflow || after.workflow == Uncertain || after.workflow == NeedsAttention || after.workflow == Active
        || after.workflow == Routing || (Unstarted(db.workflow) && Unstarted(after.workflow)))
    && (after.paused ==> after.workflow != Active && after.workflow != Ready)
  }

  /** Only routing leaves the uncertain state. */
  predicate IncidentalMoves(db: Database, after: Database) {
    WorkflowMoves(db, after) && (db.workflow == Uncertain ==> after.workflow == Uncertain)
  }

  lemma AttentionMoves(db: Database, role: Role, id: AssignmentId, row: Assignment)
    requires role in db.roles && id in db.assignments && PauseDominates(db)
    ensures IncidentalMoves(db, AttentionWaiting(SetAssignment(db, id, row), role, id))
  {
    var middle := SetAssignment(db, id, row);
    assert middle.workflow == db.workflow && middle.paused == db.paused;
    if middle.workflow.Uncertain? || middle.workflow.Ready? {} else {}
  }

  lemma RaiseMoves(db: Database, role: Role, generation: nat, id: AssignmentId, resume: Option<CommandId>)
    requires PauseDominates(db)
    ensures IncidentalMoves(db, RaiseAttention(db, role, generation, id, resume))
  {
    if Owns(db, role, generation, id, resume) {
      AttentionMoves(db, role, id, db.assignments[id].(attempt := AttentionRaised));
    }
  }

  lemma SettleMoves(db: Database, role: Role, generation: nat, id: AssignmentId, resume: Option<CommandId>, settlement: RequestId)
    requires PauseDominates(db)
    ensures IncidentalMoves(db, Settle(db, role, generation, id, resume, settlement))
  {
    if Settles(db, role, generation, id, resume, settlement) && !Nudges(db.assignments[id], settlement) {
      AttentionMoves(db, role, id, Counted(db.assignments[id], settlement));
    }
  }

  lemma RecoveryMoves(db: Database, role: Role, generation: nat, id: AssignmentId, resume: Option<CommandId>)
    requires PauseDominates(db)
    ensures IncidentalMoves(db, RecoveryTurn(db, role, generation, id, resume))
  {
    if Owns(db, role, generation, id, resume) {
      if RecoveryAllowed(db.assignments[id]) {
        assert SetAssignment(db, id, db.assignments[id].(reminder := Used)).workflow == db.workflow;
      } else {
        WaitingKeeps(db, role, id);
      }
    }
  }

  lemma WaitingKeeps(db: Database, role: Role, id: AssignmentId)
    requires role in db.roles && id in db.assignments && PauseDominates(db)
    ensures IncidentalMoves(db, Transactions.AttentionWaiting(db, role, id))
  {
    if db.workflow.Uncertain? || db.workflow.Ready? {} else {}
  }

  lemma UnsureMoves(db: Database, role: Role, id: AssignmentId)
    requires role in db.roles && id in db.assignments && PauseDominates(db)
    ensures IncidentalMoves(db, Unsure(db, role, id))
  {
    SetMoves(db, SetRoleState(SetAssignment(db, id, db.assignments[id].(state := DeliveryUncertain)), role, RoleUncertain), Uncertain);
  }

  lemma AcknowledgeMoves(db: Database, role: Role, delivery: DeliveryId, accepted: bool)
    requires PauseDominates(db)
    ensures IncidentalMoves(db, Acknowledge(db, role, delivery, accepted))
  {
    if Answers(db, role, delivery) && !accepted { UnsureMoves(db, role, db.roles[role].active.value); }
  }

  lemma RejectionMoves(db: Database, role: Role, generation: nat, id: AssignmentId, resume: Option<CommandId>)
    requires PauseDominates(db)
    ensures IncidentalMoves(db, RejectedReport(db, role, generation, id, resume))
    ensures IncidentalMoves(db, RecordRejection(db, role, generation, id))
  {
  }

  lemma LifecycleMoves(db: Database, role: Role, state: RoleState, assignment: Option<Option<AssignmentId>>)
    requires PauseDominates(db)
    ensures IncidentalMoves(db, Lifecycle(db, role, state, assignment))
  {
  }

  lemma FrameMoves(db: Database, role: Role, generation: nat, frame: Frame)
    requires role in db.roles && IncidentalFrame(frame) && PauseDominates(db)
    ensures IncidentalMoves(db, Handle(db, role, generation, frame))
  {
    match frame
    case RejectedReportFrame(id, resume) => RejectionMoves(db, role, generation, id, resume);
    case MalformedReport(id) => RejectionMoves(db, role, generation, id, None);
    case AttentionFrame(id, resume) => RaiseMoves(db, role, generation, id, resume);
    case SettlementFrame(id, resume, settlement) => SettleMoves(db, role, generation, id, resume, settlement);
    case RecoveryTurnFrame(id, resume) => RecoveryMoves(db, role, generation, id, resume);
    case LifecycleFrame(state, assignment) => LifecycleMoves(db, role, state, assignment);
    case AckFrame(delivery, accepted) => AcknowledgeMoves(db, role, delivery, accepted);
  }

  /** The workflow is set after anything that kept it and the pause. */
  lemma SetMoves(db: Database, middle: Database, workflow: Workflow)
    requires middle.workflow == db.workflow && middle.paused == db.paused && PauseDominates(db)
    requires workflow == Uncertain
    ensures IncidentalMoves(db, SetWorkflow(middle, workflow))
  {
  }

  lemma HandoverMoves(db: Database, role: Role, generation: nat)
    requires PauseDominates(db)
    ensures IncidentalMoves(db, MarkHandoverUncertain(db, role))
  {
    if role in db.roles { SetMoves(db, SetRoleState(db, role, RoleUncertain), Uncertain); }
  }

  lemma GoneMoves(db: Database, role: Role, generation: nat)
    requires role in db.roles && PauseDominates(db)
    ensures IncidentalMoves(db, MarkGone(db, role, generation))
  {
    HandoverMoves(db, role, generation);
    if db.roles[role].state == Recovering && db.roles[role].generation == generation {} else {}
  }

  lemma DisconnectMoves(db: Database, role: Role, generation: nat)
    requires PauseDominates(db)
    ensures IncidentalMoves(db, Disconnect(db, role, generation))
  {
    if role in db.roles {
      GoneMoves(db, role, generation);
    }
  }

  lemma SameMoves(db: Database, after: Database)
    requires after.workflow == db.workflow && after.paused == db.paused && PauseDominates(db)
    ensures IncidentalMoves(db, after)
  {
  }

  lemma HelloMoves(db: Database, role: Role, generation: nat)
    requires PauseDominates(db)
    ensures IncidentalMoves(db, Hello(db, role, generation))
  {
    SameMoves(db, Hello(db, role, generation));
  }

  lemma IdleMoves(db: Database, role: Role)
    requires PauseDominates(db)
    ensures IncidentalMoves(db, RecoverIdle(db, role))
  {
    SameMoves(db, RecoverIdle(db, role));
  }

  lemma RecoverMoves(db: Database, role: Role, id: AssignmentId)
    requires PauseDominates(db)
    ensures IncidentalMoves(db, RecoverUncertain(db, role, id))
  {
    if NeverAcknowledged(db, role, id) { UnsureMoves(db, role, id); }
  }

  lemma RotateMoves(db: Database, role: Role, id: AssignmentId, delivery: DeliveryId)
    requires PauseDominates(db)
    ensures IncidentalMoves(db, RotateDelivery(db, role, id, delivery))
  {
  }

  lemma ReminderMoves(db: Database, role: Role, id: AssignmentId)
    requires PauseDominates(db)
    ensures IncidentalMoves(db, ReminderLost(db, role, id))
  {
    if Reminded(db, role, id) {
      AttentionMoves(db, role, id, db.assignments[id].(reminder := Used));
    }
  }

  lemma BackgroundMoves(db: Database, tx: Transaction)
    requires !Routes(tx) && Incidental(tx) && PauseDominates(db)
    ensures IncidentalMoves(db, Apply(db, tx))
  {
    match tx
    case TxFrame(role, generation, frame) => if role in db.roles { FrameMoves(db, role, generation, frame); }
    case TxHello(role, generation) => HelloMoves(db, role, generation);
    case TxDisconnect(role, generation) => DisconnectMoves(db, role, generation);
    case TxMarkUncertain(role) => HandoverMoves(db, role, 0);
    case TxRecoverUncertain(role, id) => RecoverMoves(db, role, id);
    case TxRotateDelivery(role, id, delivery) => RotateMoves(db, role, id, delivery);
    case TxReminderLost(role, id) => ReminderMoves(db, role, id);
    case TxRecoverIdle(role) => IdleMoves(db, role);
    case TxRecoverWaiting(role, id) => WaitingMoves(db, role, id);
    case TxLifecycleWorkflow(role, state) => RoleWorkflowMoves(db, role, state);
  }

  lemma RoleWorkflowMoves(db: Database, role: Role, state: RoleState)
    requires PauseDominates(db)
    ensures IncidentalMoves(db, LifecycleWorkflow(db, role, state))
  {
  }

  lemma WaitingMoves(db: Database, role: Role, id: AssignmentId)
    requires PauseDominates(db)
    ensures IncidentalMoves(db, RecoverWaiting(db, role, id))
  {
    if WaitsToRecover(db, role, id) { AttentionMoves(db, role, id, Spent(db.assignments[id])); }
  }

  lemma DecisionPause(db: Database, role: Role, generation: nat, id: AssignmentId, resume: Option<CommandId>, request: RequestId)
    ensures var decision := ProviderTurnDecision(db, role, generation, id, resume, request);
            decision.Decided? ==>
              && Owns(db, role, generation, id, resume)
              && decision.db.workflow == db.workflow
              && decision.db.assignments == db.assignments && decision.db.roles == db.roles
              && (decision.granted ==> decision.db.paused == db.paused)
  {
  }

  lemma DeniedWorkflow(db: Database, reserved: Database, role: Role, id: AssignmentId)
    requires reserved.workflow == db.workflow && db.workflow != Ready
    requires role in reserved.roles && id in reserved.assignments
    ensures IncidentalMoves(db, AttentionWaiting(SetAssignment(reserved, id, reserved.assignments[id].(attempt := AttentionRaised)), role, id))
  {
  }

  /** Guidance that is written: only a waking one moves the workflow. */
  lemma ResumeMoves(db: Database, id: CommandId, role: Role, waking: bool)
    requires role in db.roles && PauseDominates(db)
    ensures WorkflowMoves(db, Resume(db, id, role, waking))
    ensures !waking ==> Resume(db, id, role, waking).workflow == db.workflow
  {
    var bound := ResumeBound(db, id, role);
    assert bound.workflow == db.workflow && bound.paused == db.paused;
    if waking { WakeMoves(bound, role); }
  }

  lemma WakeMoves(db: Database, role: Role)
    requires role in db.roles && PauseDominates(db)
    ensures WorkflowMoves(db, Wake(db, role))
  {
  }

  lemma ControlAligned(db: Database, id: CommandId, action: Action, role: Role)
    requires role in db.roles && PauseDominates(db) && !action.Continue?
    ensures var after := ControlEffect(db, id, action, role);
            Aligned(db, after) && after.pending == db.pending && IncidentalMoves(db, after)
  {
    match action
    case RestartFailed => QuietUncertain(db, role); HandoverMoves(db, role, 0);
    case ExtendCalls(amount) => ExtensionAligned(db, id, amount, role);
    case Restart => RestartAligned(db, ControlEffect(db, id, action, role), role);
    case _ => SameMoves(db, db);
  }

  lemma ExtensionAligned(db: Database, id: CommandId, amount: int, role: Role)
    requires role in db.roles && PauseDominates(db)
    ensures var after := ControlEffect(db, id, ExtendCalls(amount), role);
            Aligned(db, after) && after.pending == db.pending && IncidentalMoves(db, after)
  {
  }

  lemma ResumeAligned(db: Database, id: CommandId, role: Role, waking: bool)
    requires role in db.roles
    ensures var after := Resume(db, id, role, waking); Aligned(db, after) && after.pending == db.pending
  {
    ShapedResume(db, id, role, waking);
  }

  lemma RestartAligned(db: Database, after: Database, role: Role)
    requires role in db.roles && PauseDominates(db)
    requires after == db.(roles := db.roles[role := db.roles[role].(generation := db.roles[role].generation + 1, state := Restarting)])
    ensures Aligned(db, after) && after.pending == db.pending && IncidentalMoves(db, after)
  {
  }

  lemma BootMoves(db: Database)
    requires PauseDominates(db)
    ensures IncidentalMoves(db, Boot(db))
  {
    if Interrupted(db) != {} {
    } else if db.workflow == Starting {
      assert Boot(db) == SetWorkflow(db, Connecting);
    } else if db.workflow.Routing? || db.workflow.Initializing? {
      SetMoves(db, db, Uncertain);
    } else {
      assert Boot(db) == db;
    }
  }

  // ----- a halted run -----

  ghost predicate AllCompleted(db: Database) {
    forall id :: id in db.assignments ==> db.assignments[id].state == Completed
  }

  predicate Halting(workflow: Workflow) {
    workflow == Routing || workflow == Uncertain
  }

  /** Routing or uncertain, with no role at work and no assignment open. */
  ghost predicate Halted(db: Database) {
    Halting(db.workflow) && NoneActive(db) && AllCompleted(db)
  }

  lemma HaltedAligned(db: Database, after: Database)
    requires Halted(db) && Aligned(db, after) && Halting(after.workflow)
    ensures Halted(after) && after.assignments.Keys == db.assignments.Keys
  {
  }

  lemma HaltedFrame(db: Database, role: Role, generation: nat, frame: Frame)
    requires Halted(db) && role in db.roles && IncidentalFrame(frame)
    ensures Handle(db, role, generation, frame).workflow == db.workflow
  {
    match frame
    case RejectedReportFrame(id, resume) =>
    case MalformedReport(id) =>
    case AttentionFrame(id, resume) =>
    case SettlementFrame(id, resume, settlement) =>
    case RecoveryTurnFrame(id, resume) =>
    case LifecycleFrame(state, assignment) =>
    case AckFrame(delivery, accepted) =>
  }

  /** No transaction that routes nothing takes a halted run out of its state. */
  lemma HaltedBackground(db: Database, tx: Transaction)
    requires Halted(db) && !Routes(tx)
    ensures Halted(Apply(db, tx)) && Apply(db, tx).assignments.Keys == db.assignments.Keys
  {
    if Incidental(tx) {
      QuietIncidental(db, tx);
      HaltedWorkflow(db, tx);
      HaltedAligned(db, Apply(db, tx));
    } else {
      assert Apply(db, tx) == db;
    }
  }

  lemma HaltedWorkflow(db: Database, tx: Transaction)
    requires Halted(db) && !Routes(tx) && Incidental(tx)
    ensures Halting(Apply(db, tx).workflow)
  {
    match tx
    case TxFrame(role, generation, frame) => if role in db.roles { HaltedFrame(db, role, generation, frame); }
    case TxHello(role, generation) =>
    case TxDisconnect(role, generation) => HaltedGone(db, role, generation);
    case TxRecoverUncertain(role, id) =>
    case TxRotateDelivery(role, id, delivery) =>
    case TxRecoverWaiting(role, id) =>
    case TxReminderLost(role, id) =>
    case TxMarkUncertain(role) =>
    case TxRecoverIdle(role) =>
    case TxLifecycleWorkflow(role, state) =>
  }

  lemma HaltedGone(db: Database, role: Role, generation: nat)
    requires Halted(db)
    ensures Halting(Disconnect(db, role, generation).workflow)
  {
    if role in db.roles { GoneWorkflow(db, role, generation); }
  }

  lemma GoneWorkflow(db: Database, role: Role, generation: nat)
    requires role in db.roles
    ensures MarkGone(db, role, generation).workflow == db.workflow || MarkGone(db, role, generation).workflow == Uncertain
  {
    var row := db.roles[role];
    if row.state == Recovering && row.generation == generation {
      assert MarkHandoverUncertain(db, role).workflow == Uncertain;
    } else if row.state.Restarting? || row.state.Recovering? || row.state.RoleUncertain? {
    } else {
      assert SetRoleState(db, role, Disconnected).workflow == db.workflow;
    }
  }

  /** Nor does a command that is written at once, other than a continuation. */
  lemma HaltedControl(db: Database, id: CommandId, action: Action, role: Role)
    requires Halted(db) && role in db.roles && !action.Continue?
    ensures Halted(ControlEffect(db, id, action, role))
    ensures ControlEffect(db, id, action, role).assignments.Keys == db.assignments.Keys
  {
    ControlAligned(db, id, action, role);
    match action {
      case RestartFailed =>
      case _ =>
    }
    HaltedAligned(db, ControlEffect(db, id, action, role));
  }

  /** Nor does a command in flight, unless it wakes the run. */
  lemma HaltedPlan(db: Database, id: CommandId, role: Role, plan: Plan)
    requires Halted(db) && role in db.roles && !Waking(plan)
    ensures PlanEffect(db, id, role, plan) == db
  {
  }

  lemma HaltedBoot(db: Database)
    requires Halted(db)
    ensures Halted(Boot(db)) && Boot(db).workflow == Uncertain && Boot(db).assignments.Keys == db.assignments.Keys
  {
    QuietBoot(db);
    BootHalts(db);
    HaltedAligned(db, Boot(db));
  }

  lemma BootHalts(db: Database)
    requires Halting(db.workflow)
    ensures Boot(db).workflow == Uncertain
  {
    if Interrupted(db) == {} {
      assert BootWorkflow(db).workflow == Uncertain;
    }
  }
}
