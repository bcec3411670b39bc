/** What no transaction undoes. */

module Monotone {
  import opened Options
  import opened Tables
  import opened Transactions
  import opened Runs

  function Rank(reminder: Reminder): nat {
    match reminder case NoReminder => 0 case Reserved => 1 case Used => 2
  }

  /** How a transaction other than report acceptance may change one assignment. */
  predicate Evolves(row: Assignment, after: Assignment) {
    && after.role == row.role && after.round == row.round && after.kind == row.kind
    && (after.state == Completed <==> row.state == Completed)
    && Rank(row.reminder) <= Rank(after.reminder)
  }

  /** Same role pointers and generations; the states of roles are left open. */
  ghost predicate SamePointers(db: Database, after: Database) {
    && after.roles.Keys == db.roles.Keys
    && forall r :: r in db.roles ==>
         after.roles[r].active == db.roles[r].active && after.roles[r].generation == db.roles[r].generation
  }

  ghost predicate AssignmentsEvolve(db: Database, after: Database) {
    && after.assignments.Keys == db.assignments.Keys
    && forall id :: id in db.assignments ==> Evolves(db.assignments[id], after.assignments[id])
  }

  /** Nothing but role states, the workflow state, the admission ledger and the
      delivery, settlement and attention columns of assignments changed. */
  ghost predicate Shaped(db: Database, after: Database) {
    && after.round == db.round && after.cap == db.cap && after.pending == db.pending && after.limits == db.limits
    && after.reports == db.reports && after.activations == db.activations && after.commands == db.commands
    && SamePointers(db, after)
    && AssignmentsEvolve(db, after)
  }

  /** Shaped, and the admission ledger is untouched too. */
  ghost predicate Quiet(db: Database, after: Database) {
    Shaped(db, after) && after.admissions == db.admissions && after.paused == db.paused
  }

  lemma QuietTrans(a: Database, b: Database, c: Database)
    requires Quiet(a, b) && Quiet(b, c)
    ensures Quiet(a, c)
  {
  }

  lemma QuietSet(db: Database, id: AssignmentId, row: Assignment)
    requires id in db.assignments && Evolves(db.assignments[id], row)
    ensures Quiet(db, SetAssignment(db, id, row))
  {
  }

  lemma QuietRow(db: Database, role: Role, row: RoleRow)
    requires role in db.roles && row.active == db.roles[role].active && row.generation == db.roles[role].generation
    ensures Quiet(db, db.(roles := db.roles[role := row]))
  {
  }

  lemma QuietRole(db: Database, role: Role, state: RoleState)
    requires role in db.roles
    ensures Quiet(db, SetRoleState(db, role, state))
  {
  }

  /** One assignment row changes, then the state of one role. */
  lemma QuietSetRole(db: Database, id: AssignmentId, row: Assignment, role: Role, state: RoleState)
    requires role in db.roles && id in db.assignments && Evolves(db.assignments[id], row)
    ensures Quiet(db, SetRoleState(SetAssignment(db, id, row), role, state))
  {
    var middle := SetAssignment(db, id, row);
    QuietSet(db, id, row);
    QuietRole(middle, role, state);
    QuietTrans(db, middle, SetRoleState(middle, role, state));
  }

  lemma QuietWaiting(db: Database, role: Role, id: AssignmentId)
    requires role in db.roles && id in db.assignments
    ensures Quiet(db, AttentionWaiting(db, role, id))
  {
    QuietSetRole(db, id, db.assignments[id].(authorized := false), role, Waiting);
  }

  lemma QuietAttention(db: Database, role: Role, id: AssignmentId, row: Assignment)
    requires role in db.roles && id in db.assignments && Evolves(db.assignments[id], row)
    ensures Quiet(db, AttentionWaiting(SetAssignment(db, id, row), role, id))
  {
    var middle := SetAssignment(db, id, row);
    QuietSet(db, id, row);
    QuietWaiting(middle, role, id);
    QuietTrans(db, middle, AttentionWaiting(middle, role, id));
  }

  lemma QuietRejection(db: Database, role: Role, generation: nat, id: AssignmentId, resume: Option<CommandId>)
    ensures Quiet(db, RejectedReport(db, role, generation, id, resume))
    ensures Quiet(db, RecordRejection(db, role, generation, id))
  {
    if id in db.assignments { QuietSet(db, id, db.assignments[id].(attempt := Rejected)); }
  }

  lemma QuietRaise(db: Database, role: Role, generation: nat, id: AssignmentId, resume: Option<CommandId>)
    ensures Quiet(db, RaiseAttention(db, role, generation, id, resume))
  {
    if Owns(db, role, generation, id, resume) {
      QuietAttention(db, role, id, db.assignments[id].(attempt := AttentionRaised));
    }
  }

  lemma QuietSettled(db: Database, role: Role, id: AssignmentId, settlement: RequestId)
    requires role in db.roles && id in db.assignments
    ensures Quiet(db, AfterSettlement(db, role, id, settlement))
  {
    var counted := Counted(db.assignments[id], settlement);
    if Nudges(db.assignments[id], settlement) {
      QuietSetRole(db, id, counted.(reminder := Reserved, authorized := false), role, Waiting);
    } else {
      QuietAttention(db, role, id, counted);
    }
  }

  lemma QuietSettle(db: Database, role: Role, generation: nat, id: AssignmentId, resume: Option<CommandId>, settlement: RequestId)
    ensures Quiet(db, Settle(db, role, generation, id, resume, settlement))
  {
    if Settles(db, role, generation, id, resume, settlement) { QuietSettled(db, role, id, settlement); }
  }

  lemma QuietRecoveryTurn(db: Database, role: Role, generation: nat, id: AssignmentId, resume: Option<CommandId>)
    ensures Quiet(db, RecoveryTurn(db, role, generation, id, resume))
  {
    if Owns(db, role, generation, id, resume) {
      QuietWaiting(db, role, id);
      QuietSetRole(db, id, db.assignments[id].(reminder := Used), role, Working);
    }
  }

  lemma QuietUnsure(db: Database, role: Role, id: AssignmentId)
    requires role in db.roles && id in db.assignments && db.assignments[id].state != Completed
    ensures Quiet(db, Unsure(db, role, id))
  {
    var row := db.assignments[id].(state := DeliveryUncertain);
    QuietSetRole(db, id, row, role, RoleUncertain);
    QuietThenWorkflow(db, SetRoleState(SetAssignment(db, id, row), role, RoleUncertain), Uncertain);
  }

  lemma QuietAcknowledged(db: Database, role: Role, id: AssignmentId)
    requires role in db.roles && id in db.assignments && db.assignments[id].state != Completed
    ensures Quiet(db, Acknowledged(db, role, id))
  {
    var row := db.assignments[id].(state := Accepted);
    if db.roles[role].state.Disconnected? || db.roles[role].state.Idle? || db.roles[role].state.Recovering? {
      QuietSetRole(db, id, row, role, Working);
    } else {
      QuietSet(db, id, row);
    }
  }

  lemma QuietAcknowledge(db: Database, role: Role, delivery: DeliveryId, accepted: bool)
    ensures Quiet(db, Acknowledge(db, role, delivery, accepted))
  {
    if Answers(db, role, delivery) {
      if accepted {
        QuietAcknowledged(db, role, db.roles[role].active.value);
      } else {
        QuietUnsure(db, role, db.roles[role].active.value);
      }
    }
  }

  lemma QuietLifecycle(db: Database, role: Role, state: RoleState, assignment: Option<Option<AssignmentId>>)
    ensures Quiet(db, Lifecycle(db, role, state, assignment))
  {
    var after := Lifecycle(db, role, state, assignment);
    if after == db {
    } else {
      var row := db.roles[role];
      var retained := if (row.state.Recovering? || row.state.RoleUncertain?) && state != RoleUncertain then row.state else state;
      assert after == SetRoleState(db, role, retained);
      QuietRole(db, role, retained);
    }
  }

  predicate IncidentalFrame(frame: Frame) {
    !frame.ReportFrame? && !frame.ProviderTurnFrame?
  }

  lemma QuietFrame(db: Database, role: Role, generation: nat, frame: Frame)
    requires role in db.roles && IncidentalFrame(frame)
    ensures Quiet(db, Handle(db, role, generation, frame))
  {
    match frame
    case RejectedReportFrame(id, resume) => QuietRejection(db, role, generation, id, resume);
    case MalformedReport(id) => QuietRejection(db, role, generation, id, None);
    case AttentionFrame(id, resume) => QuietRaise(db, role, generation, id, resume);
    case SettlementFrame(id, resume, settlement) => QuietSettle(db, role, generation, id, resume, settlement);
    case RecoveryTurnFrame(id, resume) => QuietRecoveryTurn(db, role, generation, id, resume);
    case LifecycleFrame(state, assignment) => QuietLifecycle(db, role, state, assignment);
    case AckFrame(delivery, accepted) => QuietAcknowledge(db, role, delivery, accepted);
  }

  lemma QuietHello(db: Database, role: Role, generation: nat)
    ensures Quiet(db, Hello(db, role, generation))
  {
    if role in db.roles && db.roles[role].generation == generation {
      var state := if db.roles[role].state == Restarting then Recovering else Idle;
      QuietRow(db, role, db.roles[role].(connected := true, state := state));
    } else {
      assert Hello(db, role, generation) == db;
    }
  }

  lemma QuietUncertain(db: Database, role: Role)
    ensures Quiet(db, MarkHandoverUncertain(db, role))
  {
    if role in db.roles {
      QuietRole(db, role, RoleUncertain);
    } else {
      assert MarkHandoverUncertain(db, role) == db;
    }
  }

  lemma QuietGone(db: Database, role: Role, generation: nat)
    requires role in db.roles
    ensures Quiet(db, MarkGone(db, role, generation))
  {
    if db.roles[role].state == Recovering && db.roles[role].generation == generation {
      QuietUncertain(db, role);
    } else if db.roles[role].state.Restarting? || db.roles[role].state.Recovering? || db.roles[role].state.RoleUncertain? {
    } else {
      QuietRole(db, role, Disconnected);
    }
  }

  lemma QuietDisconnect(db: Database, role: Role, generation: nat)
    ensures Quiet(db, Disconnect(db, role, generation))
  {
    if role in db.roles {
      var marked := MarkGone(db, role, generation);
      QuietGone(db, role, generation);
      QuietRow(marked, role, marked.roles[role].(connected := false));
      QuietTrans(db, marked, Disconnect(db, role, generation));
    }
  }

  lemma QuietSame(db: Database, after: Database)
    requires after == db.(workflow := after.workflow)
    ensures Quiet(db, after)
  {
  }

  lemma QuietWorkflow(db: Database, role: Role, state: RoleState, workflow: Workflow)
    ensures Quiet(db, SetWorkflow(db, workflow))
    ensures Quiet(db, LifecycleWorkflow(db, role, state))
    ensures Quiet(db, Approve(db))
  {
    QuietSame(db, SetWorkflow(db, workflow));
    QuietSame(db, LifecycleWorkflow(db, role, state));
    QuietSame(db, Approve(db));
  }

  lemma QuietThenWorkflow(db: Database, middle: Database, workflow: Workflow)
    requires Quiet(db, middle)
    ensures Quiet(db, SetWorkflow(middle, workflow))
  {
    QuietSame(middle, SetWorkflow(middle, workflow));
    QuietTrans(db, middle, SetWorkflow(middle, workflow));
  }

  lemma QuietRecovery(db: Database, role: Role, id: AssignmentId)
    ensures Quiet(db, RecoverUncertain(db, role, id))
  {
    if NeverAcknowledged(db, role, id) { QuietUnsure(db, role, id); }
  }

  lemma QuietRotation(db: Database, role: Role, id: AssignmentId, delivery: DeliveryId)
    ensures Quiet(db, RotateDelivery(db, role, id, delivery))
  {
    var after := RotateDelivery(db, role, id, delivery);
    if after == db {
    } else {
      QuietSet(db, id, db.assignments[id].(delivery := delivery, state := Delivering));
    }
  }

  lemma QuietRecoverWaiting(db: Database, role: Role, id: AssignmentId)
    ensures Quiet(db, RecoverWaiting(db, role, id))
  {
    if WaitsToRecover(db, role, id) { QuietAttention(db, role, id, Spent(db.assignments[id])); }
  }

  lemma QuietReminder(db: Database, role: Role, id: AssignmentId)
    ensures Quiet(db, ReminderLost(db, role, id))
  {
    if Reminded(db, role, id) {
      QuietAttention(db, role, id, db.assignments[id].(reminder := Used));
    }
  }

  /** The transactions that never create, complete, route or account for work. */
  predicate Incidental(tx: Transaction) {
    match tx
    case TxFrame(_, _, frame) => IncidentalFrame(frame)
    case TxAssign(_, _, _, _, _) => false
    case TxActivate(_, _, _) => false
    case TxAdvance(_) => false
    case TxControl(_, _, _, _) => false
    case TxFinish(_, _, _) => false
    case _ => true
  }

  lemma QuietIncidental(db: Database, tx: Transaction)
    requires Incidental(tx)
    ensures Quiet(db, Apply(db, tx))
  {
    match tx
    case TxFrame(role, generation, frame) => if role in db.roles { QuietFrame(db, role, generation, frame); }
    case TxHello(role, generation) => QuietHello(db, role, generation);
    case TxDisconnect(role, generation) => QuietDisconnect(db, role, generation);
    case TxRecoverUncertain(role, id) => QuietRecovery(db, role, id);
    case TxRotateDelivery(role, id, delivery) => QuietRotation(db, role, id, delivery);
    case TxRecoverWaiting(role, id) => QuietRecoverWaiting(db, role, id);
    case TxReminderLost(role, id) => QuietReminder(db, role, id);
    case TxMarkUncertain(role) => QuietUncertain(db, role);
    case TxRecoverIdle(role) => if role in db.roles { QuietRole(db, role, Idle); }
    case TxBoot => QuietBoot(db);
    case TxLifecycleWorkflow(role, state) => QuietWorkflow(db, role, state, Active);
    case TxApprove => QuietWorkflow(db, Implementer, Idle, Active);
    case TxSetWorkflow(workflow) => QuietWorkflow(db, Implementer, Idle, workflow);
  }

  lemma QuietFailHandovers(db: Database, interrupted: set<Role>)
    ensures Quiet(db, FailHandovers(db, interrupted))
  {
  }

  lemma QuietBootWorkflow(db: Database)
    ensures Quiet(db, BootWorkflow(db))
  {
    if db.workflow == Starting {
      QuietSame(db, SetWorkflow(db, Connecting));
    } else if db.workflow.Routing? || db.workflow.Initializing? {
      QuietSame(db, SetWorkflow(db, Uncertain));
    } else {
      QuietSame(db, db);
    }
  }

  lemma QuietBoot(db: Database)
    ensures Quiet(db, Boot(db))
  {
    if Interrupted(db) != {} {
      QuietFailHandovers(db, Interrupted(db));
    } else {
      QuietBootWorkflow(db);
    }
  }

  lemma QuietDecision(db: Database, role: Role, generation: nat, id: AssignmentId, resume: Option<CommandId>, request: RequestId)
    ensures var decision := ProviderTurnDecision(db, role, generation, id, resume, request);
            decision.Decided? ==>
              && Owns(db, role, generation, id, resume)
              && decision.db == db.(admissions := decision.db.admissions, paused := decision.db.paused)
  {
  }

  lemma ShapedProviderTurn(db: Database, role: Role, generation: nat, id: AssignmentId, resume: Option<CommandId>, request: RequestId)
    ensures Shaped(db, ProviderTurn(db, role, generation, id, resume, request))
    ensures var decision := ProviderTurnDecision(db, role, generation, id, resume, request);
            var after := ProviderTurn(db, role, generation, id, resume, request);
            && after.admissions == (if decision.Decided? then decision.db.admissions else db.admissions)
            && after.paused == (if decision.Decided? then decision.db.paused else db.paused)
  {
    var decision := ProviderTurnDecision(db, role, generation, id, resume, request);
    QuietDecision(db, role, generation, id, resume, request);
    if decision.Decided? && !decision.granted {
      var denied := ProviderTurn(db, role, generation, id, resume, request);
      QuietAttention(decision.db, role, id, decision.db.assignments[id].(attempt := AttentionRaised));
      ShapedAfter(db, decision.db, denied);
    }
  }

  lemma ShapedAfter(db: Database, middle: Database, after: Database)
    requires middle == db.(admissions := middle.admissions, paused := middle.paused) && Quiet(middle, after)
    ensures Shaped(db, after)
  {
  }

  // ----- rows are only ever added -----

  ghost predicate Submap<K, V>(m: map<K, V>, n: map<K, V>) {
    forall k :: k in m ==> k in n && n[k] == m[k]
  }

  ghost predicate KeepsAssignments(db: Database, after: Database) {
    forall id :: id in db.assignments ==>
      && id in after.assignments
      && var row, later := db.assignments[id], after.assignments[id];
         && later.role == row.role && later.round == row.round && later.kind == row.kind
         && (row.state == Completed ==> later.state == Completed)
         && Rank(row.reminder) <= Rank(later.reminder)
  }

  /** The later state keeps every row of the earlier one: assignments keep their
      identity and completion, receipts of every other kind are immutable. */
  ghost predicate Keeps(db: Database, after: Database) {
    && KeepsAssignments(db, after)
    && Submap(db.reports, after.reports)
    && Submap(db.activations, after.activations)
    && Submap(db.admissions, after.admissions)
    && Submap(db.commands, after.commands)
    && db.roles.Keys == after.roles.Keys
    && forall r :: r in db.roles ==> db.roles[r].generation <= after.roles[r].generation
  }

  lemma QuietKeeps(db: Database, after: Database)
    requires Shaped(db, after) && Submap(db.admissions, after.admissions)
    ensures Keeps(db, after)
  {
  }

  lemma ShapedResume(db: Database, id: CommandId, role: Role, waking: bool)
    requires role in db.roles
    ensures Quiet(db, Resume(db, id, role, waking))
  {
    var bound := ResumeBound(db, id, role);
    QuietResumeBound(db, id, role);
    if waking {
      QuietWake(bound, role);
      QuietTrans(db, bound, Wake(bound, role));
    }
  }

  lemma QuietWake(db: Database, role: Role)
    requires role in db.roles
    ensures Quiet(db, Wake(db, role))
  {
    QuietRole(db, role, Working);
    QuietThenWorkflow(db, SetRoleState(db, role, Working), Active);
  }

  lemma QuietResumeBound(db: Database, id: CommandId, role: Role)
    requires role in db.roles
    ensures Quiet(db, ResumeBound(db, id, role))
  {
    match db.roles[role].active
    case Some(a) => if a in db.assignments { QuietSet(db, a, db.assignments[a].(resume := Some(id), authorized := true)); }
    case None =>
  }

  lemma KeepsControlEffect(db: Database, id: CommandId, action: Action, role: Role)
    requires role in db.roles
    ensures Keeps(db, ControlEffect(db, id, action, role))
    ensures ControlEffect(db, id, action, role).commands == db.commands
  {
    match action
    case RestartFailed => KeepsFailure(db, role);
    case Restart => KeepsRestart(db, id, role);
    case ExtendCalls(amount) => KeepsExtension(db, id, amount, role);
    case Continue => KeepsContinue(db, id, role);
    case _ => KeepsMeta(db, db);
  }

  lemma KeepsRestart(db: Database, id: CommandId, role: Role)
    requires role in db.roles
    ensures Keeps(db, ControlEffect(db, id, Restart, role)) && ControlEffect(db, id, Restart, role).commands == db.commands
  {
    KeepsMeta(db, ControlEffect(db, id, Restart, role));
  }

  lemma KeepsExtension(db: Database, id: CommandId, amount: int, role: Role)
    requires role in db.roles
    ensures Keeps(db, ControlEffect(db, id, ExtendCalls(amount), role)) && ControlEffect(db, id, ExtendCalls(amount), role).commands == db.commands
  {
    KeepsMeta(db, ControlEffect(db, id, ExtendCalls(amount), role));
  }

  lemma KeepsContinue(db: Database, id: CommandId, role: Role)
    requires role in db.roles
    ensures Keeps(db, ControlEffect(db, id, Continue, role)) && ControlEffect(db, id, Continue, role).commands == db.commands
  {
    KeepsMeta(db, ControlEffect(db, id, Continue, role));
  }

  lemma KeepsFailure(db: Database, role: Role)
    requires role in db.roles
    ensures Keeps(db, MarkHandoverUncertain(db, role)) && MarkHandoverUncertain(db, role).commands == db.commands && Keeps(db, db)
  {
    QuietUncertain(db, role);
    QuietKeeps(db, MarkHandoverUncertain(db, role));
    KeepsMeta(db, db);
  }

  lemma KeepsPlanEffect(db: Database, id: CommandId, role: Role, plan: Plan)
    requires role in db.roles
    ensures Keeps(db, PlanEffect(db, id, role, plan))
    ensures PlanEffect(db, id, role, plan).commands == db.commands
  {
    match plan
    case Reopening(round) => KeepsMeta(db, Advance(db, round));
    case Guiding(waking) =>
      ShapedResume(db, id, role, waking);
      QuietKeeps(db, Resume(db, id, role, waking));
    case Aborting => KeepsMeta(db, db);
  }

  lemma KeepsFinish(db: Database, command: CommandId, role: Role, plan: Plan)
    ensures Keeps(db, Finish(db, command, role, plan))
  {
    if role !in db.roles || command in db.commands {
      KeepsMeta(db, db);
    } else {
      KeepsPlanEffect(db, command, role, plan);
      KeepsReceipt(db, PlanEffect(db, command, role, plan), command, Command(PlanAction(plan), role, StatusAccepted));
    }
  }

  /** Rows are the same, except that a generation may have grown. */
  lemma KeepsMeta(db: Database, after: Database)
    requires db.assignments == after.assignments && db.reports == after.reports && db.activations == after.activations
    requires db.admissions == after.admissions && db.commands == after.commands
    requires db.roles.Keys == after.roles.Keys
    requires forall r :: r in db.roles ==> db.roles[r].generation <= after.roles[r].generation
    ensures Keeps(db, after)
  {
  }

  lemma KeepsCompleted(db: Database, after: Database, id: AssignmentId, report: Report)
    requires id in db.assignments && id !in db.reports
    requires after.assignments == db.assignments[id := db.assignments[id].(state := Completed, attempt := ReportAccepted)]
    requires after.reports == db.reports[id := report]
    requires after.activations == db.activations && after.admissions == db.admissions && after.commands == db.commands
    requires db.roles.Keys == after.roles.Keys
    requires forall r :: r in db.roles ==> after.roles[r].generation == db.roles[r].generation
    ensures Keeps(db, after)
  {
  }

  lemma KeepsReport(db: Database, role: Role, generation: nat, id: AssignmentId, kind: Kind, verdict: Verdict)
    ensures Keeps(db, AcceptReport(db, role, generation, id, kind, verdict))
  {
    if Reportable(db, role, id, kind) {
      ReportRows(db, role, generation, id, kind, verdict);
      KeepsCompleted(db, AcceptReport(db, role, generation, id, kind, verdict), id, Report(role, db.assignments[id].round, kind, verdict));
    } else if DuplicateReport(db, role, id, kind) {
      KeepsMeta(db, db);
    } else {
      KeepsRejection(db, role, generation, id);
    }
  }

  lemma KeepsRejection(db: Database, role: Role, generation: nat, id: AssignmentId)
    ensures Keeps(db, RecordRejection(db, role, generation, id))
  {
    QuietRejection(db, role, generation, id, None);
    QuietKeeps(db, RecordRejection(db, role, generation, id));
  }

  /** What accepting a report writes. */
  lemma ReportRows(db: Database, role: Role, generation: nat, id: AssignmentId, kind: Kind, verdict: Verdict)
    requires Reportable(db, role, id, kind)
    ensures var after := AcceptReport(db, role, generation, id, kind, verdict);
            && after.reports == db.reports[id := Report(role, db.assignments[id].round, kind, verdict)]
            && after.assignments == db.assignments[id := db.assignments[id].(state := Completed, attempt := ReportAccepted)]
            && after.roles == db.roles[role := db.roles[role].(active := None, state := Idle)]
            && after.round == db.round && after.activations == db.activations && after.pending == db.pending
            && after.workflow == db.workflow && after.paused == db.paused
            && after.admissions == db.admissions && after.commands == db.commands
  {
  }

  lemma KeepsProviderTurn(db: Database, role: Role, generation: nat, id: AssignmentId, resume: Option<CommandId>, request: RequestId)
    ensures Keeps(db, ProviderTurn(db, role, generation, id, resume, request))
  {
    var after := ProviderTurn(db, role, generation, id, resume, request);
    ShapedProviderTurn(db, role, generation, id, resume, request);
    LedgerGrows(db, role, generation, id, resume, request);
    QuietKeeps(db, after);
  }

  lemma LedgerGrows(db: Database, role: Role, generation: nat, id: AssignmentId, resume: Option<CommandId>, request: RequestId)
    ensures var decision := ProviderTurnDecision(db, role, generation, id, resume, request);
            decision.Decided? ==> Submap(db.admissions, decision.db.admissions)
  {
  }

  lemma KeepsFrame(db: Database, role: Role, generation: nat, frame: Frame)
    requires !IncidentalFrame(frame)
    ensures Keeps(db, Receive(db, role, generation, frame))
  {
    if role !in db.roles || db.roles[role].generation != generation {
      KeepsMeta(db, db);
    } else if frame.ReportFrame? {
      KeepsReport(db, role, generation, frame.id, frame.kind, frame.verdict);
    } else {
      KeepsProviderTurn(db, role, generation, frame.id, frame.resume, frame.request);
    }
  }

  lemma KeepsReceipt(db: Database, effect: Database, id: CommandId, receipt: Command)
    requires Keeps(db, effect) && effect.commands == db.commands && id !in db.commands
    ensures Keeps(db, Receipted(effect, id, receipt))
  {
  }

  lemma KeepsControl(db: Database, command: CommandId, action: Action, role: Role, link: Link)
    ensures Keeps(db, Control(db, command, action, role, link))
  {
    KeepsMeta(db, db);
    match ControlStatus(db, command, action, role, link)
    case None =>
    case Some(status) =>
      if status == StatusAccepted && Awaits(action) {
      } else if status == StatusAccepted {
        KeepsControlEffect(db, command, action, role);
        KeepsReceipt(db, ControlEffect(db, command, action, role), command, Command(action, role, status));
      } else {
        KeepsReceipt(db, db, command, Command(action, role, status));
      }
  }

  lemma KeepsAssign(db: Database, role: Role, kind: Kind, round: nat, id: AssignmentId, delivery: DeliveryId)
    ensures Keeps(db, Assign(db, role, kind, round, id, delivery))
  {
    var after := Assign(db, role, kind, round, id, delivery);
    if !Assignable(db, role, id, delivery) {
      assert after == db;
      KeepsMeta(db, after);
    } else if RepairLimitReached(db, role, kind, round) {
      KeepsMeta(db, after);
    } else {
      KeepsGiven(db, role, kind, round, id, delivery);
    }
  }

  /** What storing an assignment writes. */
  lemma GivenRows(db: Database, role: Role, kind: Kind, round: nat, id: AssignmentId, delivery: DeliveryId)
    requires role in db.roles
    ensures var after := Given(db, role, kind, round, id, delivery);
            && after.assignments == db.assignments[id := NewAssignment(role, kind, round, delivery)]
            && after.roles == db.roles[role := db.roles[role].(active := Some(id), state := Working)]
            && after.cap == db.cap && after.limits == db.limits && after.admissions == db.admissions && after.commands == db.commands
            && after.reports == db.reports && after.activations == db.activations
  {
    var inserted := Insert(db, role, id, NewAssignment(role, kind, round, delivery));
    if role == Implementer && kind == Implementation && round > 1 && db.pending.Some? {
      assert Given(db, role, kind, round, id, delivery) == SetWorkflow(inserted.(pending := None), Active);
    } else {
      assert Given(db, role, kind, round, id, delivery) == inserted;
    }
  }

  lemma KeepsGiven(db: Database, role: Role, kind: Kind, round: nat, id: AssignmentId, delivery: DeliveryId)
    requires role in db.roles && id !in db.assignments
    ensures Keeps(db, Given(db, role, kind, round, id, delivery))
  {
    GivenRows(db, role, kind, round, id, delivery);
    KeepsInsert(db, Given(db, role, kind, round, id, delivery), role, id, NewAssignment(role, kind, round, delivery));
  }

  lemma KeepsInsert(db: Database, after: Database, role: Role, id: AssignmentId, row: Assignment)
    requires role in db.roles && id !in db.assignments
    requires after.assignments == db.assignments[id := row]
    requires after.reports == db.reports && after.activations == db.activations
    requires after.admissions == db.admissions && after.commands == db.commands
    requires after.roles == db.roles[role := db.roles[role].(active := Some(id), state := Working)]
    ensures Keeps(db, after)
  {
  }

  lemma KeepsActivate(db: Database, specialists: seq<Role>, round: nat, run: set<Role>)
    ensures Keeps(db, Activate(db, specialists, round, run))
  {
  }

  lemma StepKeeps(db: Database, tx: Transaction)
    ensures Keeps(db, Apply(db, tx))
  {
    if Incidental(tx) {
      QuietIncidental(db, tx);
      QuietKeeps(db, Apply(db, tx));
    } else if tx.TxFrame? {
      KeepsFrame(db, tx.role, tx.generation, tx.frame);
    } else if tx.TxControl? {
      KeepsControl(db, tx.command, tx.action, tx.role, tx.link);
    } else if tx.TxFinish? {
      KeepsFinish(db, tx.command, tx.role, tx.plan);
    } else if tx.TxAssign? {
      KeepsAssign(db, tx.role, tx.kind, tx.round, tx.id, tx.delivery);
    } else if tx.TxActivate? {
      KeepsActivate(db, tx.specialists, tx.round, tx.run);
    } else {
      QuietWorkflow(db.(round := tx.round), Implementer, Idle, Active);
    }
  }

  lemma KeepsTrans(a: Database, b: Database, c: Database)
    requires Keeps(a, b) && Keeps(b, c)
    ensures Keeps(a, c)
  {
  }

  /** Over any continuation of any run nothing recorded is ever undone. */
  lemma {:induction false} RunKeeps(db: Database, txs: seq<Transaction>, more: seq<Transaction>)
    ensures Keeps(Run(db, txs), Run(db, txs + more))
    decreases |more|
  {
    if more == [] {
      assert txs + more == txs;
    } else {
      var shorter, last := more[..|more| - 1], more[|more| - 1];
      var a, b := Run(db, txs), Run(db, txs + shorter);
      RunKeeps(db, txs, shorter);
      assert (txs + more)[..|txs + more| - 1] == txs + shorter && (txs + more)[|txs + more| - 1] == last;
      RunLast(db, txs + more);
      StepKeeps(b, last);
      KeepsTrans(a, b, Apply(b, last));
    }
  }

  lemma RunLast(db: Database, txs: seq<Transaction>)
    requires txs != []
    ensures Run(db, txs) == Apply(Run(db, txs[..|txs| - 1]), txs[|txs| - 1])
  {
  }
}
