/** Worker generations and the fence around superseded connections. */

module Generations {
  import opened Options
  import opened Tables
  import opened Transactions
  import opened Runs
  import opened Monotone

  /** The distinct restart commands ever accepted for a role. */
  function Restarts(db: Database, role: Role): set<CommandId> {
    set c | c in db.commands && db.commands[c] == Command(Restart, role, StatusAccepted)
  }

  ghost predicate GenerationsCount(db: Database) {
    forall r :: r in db.roles ==> db.roles[r].generation == 1 + |Restarts(db, r)|
  }

  ghost predicate SameGenerations(db: Database, after: Database) {
    && after.commands == db.commands
    && after.roles.Keys == db.roles.Keys
    && forall r :: r in db.roles ==> after.roles[r].generation == db.roles[r].generation
  }

  lemma SameReport(db: Database, role: Role, generation: nat, id: AssignmentId, kind: Kind, verdict: Verdict)
    ensures SameGenerations(db, AcceptReport(db, role, generation, id, kind, verdict))
  {
    if Reportable(db, role, id, kind) {
    } else if DuplicateReport(db, role, id, kind) {
    } else {
      QuietRejection(db, role, generation, id, None);
    }
  }

  lemma SameAssign(db: Database, role: Role, kind: Kind, round: nat, id: AssignmentId, delivery: DeliveryId)
    ensures SameGenerations(db, Assign(db, role, kind, round, id, delivery))
  {
    if !Assignable(db, role, id, delivery) {
    } else if RepairLimitReached(db, role, kind, round) {
    } else {
      SameGiven(db, role, kind, round, id, delivery);
    }
  }

  lemma SameGiven(db: Database, role: Role, kind: Kind, round: nat, id: AssignmentId, delivery: DeliveryId)
    requires role in db.roles
    ensures SameGenerations(db, Given(db, role, kind, round, id, delivery))
  {
    GivenRows(db, role, kind, round, id, delivery);
  }

  lemma SameStep(db: Database, tx: Transaction)
    requires !tx.TxControl? && !tx.TxFinish?
    ensures SameGenerations(db, Apply(db, tx))
  {
    if Incidental(tx) {
      QuietIncidental(db, tx);
    } else if tx.TxFrame? {
      match tx.frame
      case ReportFrame(id, kind, verdict) => SameReport(db, tx.role, tx.generation, id, kind, verdict);
      case ProviderTurnFrame(id, resume, request) => ShapedProviderTurn(db, tx.role, tx.generation, id, resume, request);
    } else if tx.TxAssign? {
      SameAssign(db, tx.role, tx.kind, tx.round, tx.id, tx.delivery);
    } else {
    }
  }

  lemma EffectGenerations(db: Database, id: CommandId, action: Action, role: Role)
    requires role in db.roles
    ensures var after := ControlEffect(db, id, action, role);
            && after.commands == db.commands
            && after.roles.Keys == db.roles.Keys
            && forall r :: r in db.roles ==>
                 after.roles[r].generation == db.roles[r].generation + if action == Restart && r == role then 1 else 0
  {
    match action
    case RestartFailed => QuietUncertain(db, role);
    case ExtendCalls(amount) =>
    case Continue =>
    case Restart => RestartGenerations(db, id, role);
    case _ =>
  }

  lemma RestartGenerations(db: Database, id: CommandId, role: Role)
    requires role in db.roles
    ensures var after := ControlEffect(db, id, Restart, role);
            && after.commands == db.commands
            && after.roles == db.roles[role := db.roles[role].(generation := db.roles[role].generation + 1, state := Restarting)]
  {
  }

  lemma RestartsAfter(db: Database, id: CommandId, command: Command, role: Role)
    requires id !in db.commands
    ensures Restarts(db.(commands := db.commands[id := command]), role) ==
            Restarts(db, role) + if command == Command(Restart, role, StatusAccepted) then {id} else {}
  {
  }

  lemma ControlGenerations(db: Database, id: CommandId, action: Action, role: Role, link: Link)
    requires GenerationsCount(db)
    ensures GenerationsCount(Control(db, id, action, role, link))
  {
    match ControlStatus(db, id, action, role, link)
    case None =>
    case Some(status) =>
      if !(status == StatusAccepted && Awaits(action)) {
        var effect := if status == StatusAccepted then ControlEffect(db, id, action, role) else db;
        if status == StatusAccepted { EffectGenerations(db, id, action, role); }
        ReceiptGenerations(db, effect, id, Command(action, role, status));
      }
  }

  lemma PlanGenerations(db: Database, id: CommandId, role: Role, plan: Plan)
    requires role in db.roles
    ensures SameGenerations(db, PlanEffect(db, id, role, plan))
  {
    if plan.Guiding? { ShapedResume(db, id, role, plan.waking); }
  }

  lemma FinishGenerations(db: Database, id: CommandId, role: Role, plan: Plan)
    requires GenerationsCount(db)
    ensures GenerationsCount(Finish(db, id, role, plan))
  {
    if role in db.roles && id !in db.commands {
      PlanGenerations(db, id, role, plan);
      ReceiptGenerations(db, PlanEffect(db, id, role, plan), id, Command(PlanAction(plan), role, StatusAccepted));
    }
  }

  /** The receipt of a restart is what its generation counts. */
  lemma ReceiptGenerations(db: Database, effect: Database, id: CommandId, command: Command)
    requires GenerationsCount(db) && id !in db.commands
    requires effect.commands == db.commands && effect.roles.Keys == db.roles.Keys
    requires forall r :: r in db.roles ==>
      effect.roles[r].generation == db.roles[r].generation + if command == Command(Restart, r, StatusAccepted) then 1 else 0
    ensures GenerationsCount(effect.(commands := effect.commands[id := command]))
  {
    var after := effect.(commands := effect.commands[id := command]);
    forall r | r in after.roles ensures after.roles[r].generation == 1 + |Restarts(after, r)| {
      RestartsAfter(effect, id, command, r);
      assert Restarts(effect, r) == Restarts(db, r);
    }
  }

  lemma StepGenerations(db: Database, tx: Transaction)
    requires GenerationsCount(db)
    ensures GenerationsCount(Apply(db, tx))
  {
    if tx.TxControl? {
      ControlGenerations(db, tx.command, tx.action, tx.role, tx.link);
    } else if tx.TxFinish? {
      FinishGenerations(db, tx.command, tx.role, tx.plan);
    } else {
      SameStep(db, tx);
      assert forall r :: Restarts(Apply(db, tx), r) == Restarts(db, r);
    }
  }

  /** In every reachable state the generation of a role is one more than the
      number of distinct restart commands ever accepted for it. */
  lemma {:induction false} GenerationIsRestarts(config: Config, txs: seq<Transaction>)
    ensures GenerationsCount(Run(InitialDatabase(config), txs))
    decreases |txs|
  {
    if txs == [] {
      assert forall r :: Restarts(InitialDatabase(config), r) == {};
    } else {
      GenerationIsRestarts(config, txs[..|txs| - 1]);
      StepGenerations(Run(InitialDatabase(config), txs[..|txs| - 1]), txs[|txs| - 1]);
    }
  }

  /** No frame of a connection at another generation changes the store. */
  lemma StaleFramesChangeNothing(db: Database, role: Role, generation: nat, frame: Frame)
    requires role in db.roles && db.roles[role].generation != generation
    ensures Receive(db, role, generation, frame) == db
  {
  }

  /** The end of a stale connection is visible only in the `connected` column,
      as long as its replacement has not said hello. */
  predicate HandoverPending(db: Database, role: Role) {
    role in db.roles && (db.roles[role].state.Restarting? || db.roles[role].state.RoleUncertain?)
  }

  lemma StaleDisconnect(db: Database, role: Role, generation: nat)
    requires HandoverPending(db, role)
    ensures Disconnect(db, role, generation) == db.(roles := db.roles[role := db.roles[role].(connected := false)])
  {
  }

  /** A transaction with the generation of the client its coroutine serves. Frames
      and greetings carry it themselves; the broker reads it nowhere else. */
  datatype Act = Act(tx: Transaction, client: nat)

  function Played(db: Database, acts: seq<Act>): Database {
    if acts == [] then db else Apply(Played(db, acts[..|acts| - 1]), acts[|acts| - 1].tx)
  }

  /** Done for the client of `role` that said hello at its current generation. */
  predicate ForCurrentClient(db: Database, role: Role, act: Act)
    requires role in db.roles
  {
    match act.tx
    case TxHello(r, g) => r == role && g == db.roles[role].generation
    case TxFrame(r, g, _) => r == role && g == db.roles[role].generation
    case TxRecoverIdle(r) => r == role && act.client == db.roles[role].generation
    case TxRecoverWaiting(r, _) => r == role && act.client == db.roles[role].generation
    case TxReminderLost(r, _) => r == role && act.client == db.roles[role].generation
    case TxAssign(r, _, _, _, _) => r == role && act.client == db.roles[role].generation
    case _ => false
  }

  /** The writes that do not check the generation of the client they run for: the
      end of a reconnect, a waiting reconnect, a reminder that could not be sent,
      an assignment to a listed client, and guidance for a waiting role whose
      command was checked before. */
  predicate Unguarded(db: Database, role: Role, tx: Transaction) {
    match tx
    case TxRecoverIdle(r) => r == role
    case TxRecoverWaiting(r, id) => r == role && WaitsToRecover(db, role, id)
    case TxReminderLost(r, id) => r == role && Reminded(db, role, id)
    case TxAssign(r, kind, round, id, delivery) =>
      r == role && Assignable(db, role, id, delivery) && !RepairLimitReached(db, role, kind, round)
    case TxFinish(command, r, plan) => r == role && plan == Guiding(true) && command !in db.commands
    case _ => false
  }

  /** Only the row of one role is touched. */
  ghost predicate OnlyRole(db: Database, after: Database, role: Role) {
    forall r :: r in db.roles && r != role ==> r in after.roles && after.roles[r] == db.roles[r]
  }

  lemma OnlyWaiting(db: Database, role: Role, id: AssignmentId)
    requires role in db.roles && id in db.assignments
    ensures OnlyRole(db, AttentionWaiting(db, role, id), role)
  {
  }

  lemma OnlyReport(db: Database, role: Role, generation: nat, id: AssignmentId, kind: Kind, verdict: Verdict)
    ensures OnlyRole(db, AcceptReport(db, role, generation, id, kind, verdict), role)
  {
    if Reportable(db, role, id, kind) {} else if DuplicateReport(db, role, id, kind) {} else {}
  }

  lemma OnlySettle(db: Database, role: Role, generation: nat, id: AssignmentId, resume: Option<CommandId>, settlement: RequestId)
    ensures OnlyRole(db, Settle(db, role, generation, id, resume, settlement), role)
  {
    if Settles(db, role, generation, id, resume, settlement) && !Nudges(db.assignments[id], settlement) {
      OnlyWaitingAfter(db, role, id, Counted(db.assignments[id], settlement));
    }
  }

  lemma OnlyProviderTurn(db: Database, role: Role, generation: nat, id: AssignmentId, resume: Option<CommandId>, request: RequestId)
    ensures OnlyRole(db, ProviderTurn(db, role, generation, id, resume, request), role)
  {
    match ProviderTurnDecision(db, role, generation, id, resume, request)
    case Refused =>
    case Decided(reserved, granted) =>
      assert reserved.roles == db.roles && reserved.assignments == db.assignments;
      if !granted {
        OnlyWaiting(SetAssignment(reserved, id, reserved.assignments[id].(attempt := AttentionRaised)), role, id);
      }
  }

  lemma OnlyRaise(db: Database, role: Role, generation: nat, id: AssignmentId, resume: Option<CommandId>)
    ensures OnlyRole(db, RaiseAttention(db, role, generation, id, resume), role)
  {
    if Owns(db, role, generation, id, resume) {
      OnlyWaitingAfter(db, role, id, db.assignments[id].(attempt := AttentionRaised));
    }
  }

  lemma OnlyRecoveryTurn(db: Database, role: Role, generation: nat, id: AssignmentId, resume: Option<CommandId>)
    ensures OnlyRole(db, RecoveryTurn(db, role, generation, id, resume), role)
  {
    if Owns(db, role, generation, id, resume) {
      if RecoveryAllowed(db.assignments[id]) {
        assert SetAssignment(db, id, db.assignments[id].(reminder := Used)).roles == db.roles;
      } else {
        OnlyWaiting(db, role, id);
      }
    }
  }

  lemma OnlyAcknowledge(db: Database, role: Role, delivery: DeliveryId, accepted: bool)
    ensures OnlyRole(db, Acknowledge(db, role, delivery, accepted), role)
  {
    if Answers(db, role, delivery) {
      if accepted {} else { OnlyUnsure(db, role, db.roles[role].active.value); }
    }
  }

  lemma OnlyFrame(db: Database, role: Role, generation: nat, frame: Frame)
    requires role in db.roles
    ensures OnlyRole(db, Handle(db, role, generation, frame), role)
  {
    match frame
    case ReportFrame(id, kind, verdict) => OnlyReport(db, role, generation, id, kind, verdict);
    case RejectedReportFrame(id, resume) =>
    case MalformedReport(id) =>
    case AttentionFrame(id, resume) => OnlyRaise(db, role, generation, id, resume);
    case SettlementFrame(id, resume, settlement) => OnlySettle(db, role, generation, id, resume, settlement);
    case ProviderTurnFrame(id, resume, request) => OnlyProviderTurn(db, role, generation, id, resume, request);
    case RecoveryTurnFrame(id, resume) => OnlyRecoveryTurn(db, role, generation, id, resume);
    case LifecycleFrame(state, assignment) => OnlyLifecycle(db, role, state, assignment);
    case AckFrame(delivery, accepted) => OnlyAcknowledge(db, role, delivery, accepted);
  }

  lemma OnlyLifecycle(db: Database, role: Role, state: RoleState, assignment: Option<Option<AssignmentId>>)
    ensures OnlyRole(db, Lifecycle(db, role, state, assignment), role)
  {
  }

  lemma FenceFinish(db: Database, role: Role, id: CommandId, target: Role, plan: Plan)
    requires HandoverPending(db, role) && !Unguarded(db, role, TxFinish(id, target, plan))
    ensures HandoverPending(Finish(db, id, target, plan), role)
  {
    if target in db.roles && id !in db.commands && plan.Guiding? {
      assert ResumeBound(db, id, target).roles == db.roles;
      if plan.waking { OnlyWake(ResumeBound(db, id, target), target); }
    }
  }

  lemma OnlyWake(db: Database, role: Role)
    requires role in db.roles
    ensures OnlyRole(db, Wake(db, role), role)
  {
  }

  lemma FenceEffect(db: Database, role: Role, id: CommandId, action: Action, target: Role)
    requires HandoverPending(db, role) && target in db.roles
    ensures HandoverPending(ControlEffect(db, id, action, target), role)
  {
    match action
    case RestartFailed =>
    case ExtendCalls(amount) =>
    case Continue =>
    case Restart =>
    case _ =>
  }

  lemma FenceControl(db: Database, role: Role, id: CommandId, action: Action, target: Role, link: Link)
    requires HandoverPending(db, role)
    ensures HandoverPending(Control(db, id, action, target, link), role)
  {
    match ControlStatus(db, id, action, target, link)
    case None =>
    case Some(status) => if status == StatusAccepted { FenceEffect(db, role, id, action, target); }
  }

  lemma OnlyUnsure(db: Database, role: Role, id: AssignmentId)
    requires role in db.roles && id in db.assignments
    ensures Unsure(db, role, id).roles == db.roles[role := db.roles[role].(state := RoleUncertain)]
  {
  }

  lemma FenceUncertain(db: Database, role: Role, other: Role, id: AssignmentId)
    requires HandoverPending(db, role)
    ensures HandoverPending(RecoverUncertain(db, other, id), role)
  {
    if NeverAcknowledged(db, other, id) { OnlyUnsure(db, other, id); }
  }

  lemma FenceRotation(db: Database, role: Role, other: Role, id: AssignmentId, delivery: DeliveryId)
    requires HandoverPending(db, role)
    ensures HandoverPending(RotateDelivery(db, other, id, delivery), role)
  {
    assert RotateDelivery(db, other, id, delivery).roles == db.roles;
  }

  lemma OnlyWaitingAfter(db: Database, role: Role, id: AssignmentId, row: Assignment)
    requires role in db.roles && id in db.assignments
    ensures OnlyRole(db, AttentionWaiting(SetAssignment(db, id, row), role, id), role)
  {
    OnlyWaiting(SetAssignment(db, id, row), role, id);
    assert SetAssignment(db, id, row).roles == db.roles;
  }

  lemma FenceWaiting(db: Database, role: Role, other: Role, id: AssignmentId)
    requires HandoverPending(db, role) && other != role
    ensures HandoverPending(RecoverWaiting(db, other, id), role)
  {
    if WaitsToRecover(db, other, id) { OnlyWaitingAfter(db, other, id, Spent(db.assignments[id])); }
  }

  lemma FenceReminder(db: Database, role: Role, other: Role, id: AssignmentId)
    requires HandoverPending(db, role) && other != role
    ensures HandoverPending(ReminderLost(db, other, id), role)
  {
    if Reminded(db, other, id) {
      OnlyWaiting(SetAssignment(db, id, db.assignments[id].(reminder := Used)), other, id);
    } else {
      assert ReminderLost(db, other, id) == db;
    }
  }

  lemma FenceHello(db: Database, role: Role, other: Role, generation: nat)
    requires HandoverPending(db, role) && (other != role || generation != db.roles[role].generation)
    ensures HandoverPending(Hello(db, other, generation), role)
  {
  }

  lemma FenceDisconnect(db: Database, role: Role, other: Role, generation: nat)
    requires HandoverPending(db, role)
    ensures HandoverPending(Disconnect(db, other, generation), role)
  {
    if other == role {
      StaleDisconnect(db, role, generation);
    } else {
      OnlyDisconnect(db, other, generation);
    }
  }

  lemma OnlyGone(db: Database, role: Role, generation: nat)
    requires role in db.roles
    ensures OnlyRole(db, MarkGone(db, role, generation), role)
  {
    if db.roles[role].state == Recovering && db.roles[role].generation == generation {
      UncertainRoles(db, role);
    } else if db.roles[role].state.Restarting? || db.roles[role].state.Recovering? || db.roles[role].state.RoleUncertain? {
    } else {
    }
  }

  lemma UncertainRoles(db: Database, role: Role)
    requires role in db.roles
    ensures MarkHandoverUncertain(db, role).roles == db.roles[role := db.roles[role].(state := RoleUncertain)]
  {
  }

  lemma OnlyDisconnect(db: Database, role: Role, generation: nat)
    ensures OnlyRole(db, Disconnect(db, role, generation), role)
  {
    if role in db.roles { OnlyGone(db, role, generation); }
  }

  lemma FenceStep(db: Database, role: Role, act: Act)
    requires HandoverPending(db, role) && !ForCurrentClient(db, role, act) && !Unguarded(db, role, act.tx)
    ensures HandoverPending(Apply(db, act.tx), role)
  {
    match act.tx
    case TxFrame(r, generation, frame) => FenceFrame(db, role, r, generation, frame);
    case TxAssign(r, kind, round, id, delivery) => FenceAssign(db, role, r, kind, round, id, delivery);
    case TxControl(command, action, target, link) => FenceControl(db, role, command, action, target, link);
    case TxFinish(command, target, plan) => FenceFinish(db, role, command, target, plan);
    case TxBoot => FenceBoot(db, role);
    case TxLifecycleWorkflow(r, state) => FenceWorkflow(db, role, r, state);
    case TxActivate(specialists, round, run) =>
    case TxAdvance(round) =>
    case TxApprove =>
    case TxSetWorkflow(workflow) =>
    case _ => FenceLink(db, role, act);
  }

  lemma FenceLink(db: Database, role: Role, act: Act)
    requires HandoverPending(db, role) && !ForCurrentClient(db, role, act) && !Unguarded(db, role, act.tx)
    requires var tx := act.tx;
             tx.TxHello? || tx.TxDisconnect? || tx.TxRecoverUncertain? || tx.TxRecoverWaiting? || tx.TxRotateDelivery?
             || tx.TxReminderLost? || tx.TxMarkUncertain? || tx.TxRecoverIdle?
    ensures HandoverPending(Apply(db, act.tx), role)
  {
    match act.tx
    case TxHello(r, generation) => FenceHello(db, role, r, generation);
    case TxDisconnect(r, generation) => FenceDisconnect(db, role, r, generation);
    case TxRecoverUncertain(r, id) => FenceUncertain(db, role, r, id);
    case TxRecoverWaiting(r, id) => if r != role { FenceWaiting(db, role, r, id); }
    case TxRotateDelivery(r, id, delivery) => FenceRotation(db, role, r, id, delivery);
    case TxReminderLost(r, id) => if r != role { FenceReminder(db, role, r, id); }
    case TxMarkUncertain(r) => if r in db.roles { UncertainRoles(db, r); }
    case TxRecoverIdle(r) =>
  }

  /** Each unguarded write takes the role out of its handover. */
  lemma UnguardedEnds(db: Database, role: Role, tx: Transaction)
    requires role in db.roles && Unguarded(db, role, tx)
    ensures var after := Apply(db, tx);
            && !HandoverPending(after, role)
            && role in after.roles && (after.roles[role].state.Idle? || after.roles[role].state.Waiting? || after.roles[role].state.Working?)
  {
    match tx
    case TxRecoverIdle(_) =>
    case TxRecoverWaiting(_, id) => WaitingState(db, role, id, Spent(db.assignments[id]));
    case TxReminderLost(_, id) => WaitingState(db, role, id, db.assignments[id].(reminder := Used));
    case TxAssign(_, kind, round, id, delivery) => GivenRows(db, role, kind, round, id, delivery);
    case TxFinish(command, _, _) => WokenState(ResumeBound(db, command, role), role);
  }

  lemma WokenState(db: Database, role: Role)
    requires role in db.roles
    ensures Wake(db, role).roles == db.roles[role := db.roles[role].(state := Working)]
  {
  }

  lemma WaitingState(db: Database, role: Role, id: AssignmentId, row: Assignment)
    requires role in db.roles && id in db.assignments
    ensures AttentionWaiting(SetAssignment(db, id, row), role, id).roles == db.roles[role := db.roles[role].(state := Waiting)]
  {
  }

  lemma FenceFrame(db: Database, role: Role, other: Role, generation: nat, frame: Frame)
    requires HandoverPending(db, role) && (other != role || generation != db.roles[role].generation)
    ensures HandoverPending(Receive(db, other, generation, frame), role)
  {
    if other == role {
      StaleFramesChangeNothing(db, role, generation, frame);
    } else if other in db.roles {
      OnlyFrame(db, other, generation, frame);
    }
  }

  lemma FenceAssign(db: Database, role: Role, other: Role, kind: Kind, round: nat, id: AssignmentId, delivery: DeliveryId)
    requires HandoverPending(db, role) && !Unguarded(db, role, TxAssign(other, kind, round, id, delivery))
    ensures HandoverPending(Assign(db, other, kind, round, id, delivery), role)
  {
    if !Assignable(db, other, id, delivery) {
    } else if RepairLimitReached(db, other, kind, round) {
    } else {
      GivenRows(db, other, kind, round, id, delivery);
    }
  }

  lemma FenceWorkflow(db: Database, role: Role, other: Role, state: RoleState)
    requires HandoverPending(db, role)
    ensures HandoverPending(LifecycleWorkflow(db, other, state), role)
  {
  }

  lemma FenceBoot(db: Database, role: Role)
    requires HandoverPending(db, role)
    ensures HandoverPending(Boot(db), role)
  {
    if Interrupted(db) != {} {} else if db.workflow == Starting {} else if db.workflow.Routing? || db.workflow.Initializing? {} else {}
  }

  /** Nothing is done for a client of the new generation before it says hello. */
  ghost predicate BeforeHello(db: Database, role: Role, acts: seq<Act>) {
    forall i :: 0 <= i < |acts| ==> var at := Played(db, acts[..i]); role in at.roles && !ForCurrentClient(at, role, acts[i])
  }

  ghost predicate PendingThroughout(db: Database, role: Role, acts: seq<Act>) {
    forall i :: 0 <= i <= |acts| ==> HandoverPending(Played(db, acts[..i]), role)
  }

  ghost predicate AllGuarded(db: Database, role: Role, acts: seq<Act>) {
    forall i :: 0 <= i < |acts| ==> !Unguarded(Played(db, acts[..i]), role, acts[i].tx)
  }

  lemma PlayedNext(db: Database, acts: seq<Act>, i: nat)
    requires i < |acts|
    ensures Played(db, acts[..i + 1]) == Apply(Played(db, acts[..i]), acts[i].tx)
  {
    assert acts[..i + 1][..i] == acts[..i];
  }

  lemma {:induction false} GuardedPending(db: Database, role: Role, acts: seq<Act>, i: nat)
    requires HandoverPending(db, role) && BeforeHello(db, role, acts) && AllGuarded(db, role, acts) && i <= |acts|
    ensures HandoverPending(Played(db, acts[..i]), role)
  {
    if i > 0 {
      GuardedPending(db, role, acts, i - 1);
      PlayedNext(db, acts, i - 1);
      FenceStep(Played(db, acts[..i - 1]), role, acts[i - 1]);
    }
  }

  /** From an accepted restart until the new generation says hello, the role stays
      restarting or uncertain if and only if none of the unguarded writes is
      committed, which the superseded client or an older command left behind. Every
      other late frame, disconnect, operator command and broker restart is harmless. */
  lemma HandoverSurvives(db: Database, role: Role, command: CommandId, link: Link, acts: seq<Act>)
    requires ControlStatus(db, command, Restart, role, link) == Some(StatusAccepted)
    requires BeforeHello(Control(db, command, Restart, role, link), role, acts)
    ensures var start := Control(db, command, Restart, role, link);
            PendingThroughout(start, role, acts) <==> AllGuarded(start, role, acts)
  {
    var start := Control(db, command, Restart, role, link);
    assert HandoverPending(start, role);
    if AllGuarded(start, role, acts) {
      forall i | 0 <= i <= |acts| ensures HandoverPending(Played(start, acts[..i]), role) {
        GuardedPending(start, role, acts, i);
      }
    } else {
      var i :| 0 <= i < |acts| && Unguarded(Played(start, acts[..i]), role, acts[i].tx);
      assert role in Played(start, acts[..i]).roles;
      UnguardedEnds(Played(start, acts[..i]), role, acts[i].tx);
      PlayedNext(start, acts, i);
      assert !HandoverPending(Played(start, acts[..i + 1]), role);
    }
  }

  // ----- the five writes do happen -----

  const Bare: Config := Config([], false, map[], None)

  /** An implementer whose assignment was accepted and settled twice: it was
      reminded, and then waits for guidance. */
  function RemindedRun(): seq<Transaction> {
    []
    + [TxHello(Implementer, 1)]
    + [TxAssign(Implementer, Implementation, 1, 1, 1)]
    + [TxFrame(Implementer, 1, AckFrame(1, true))]
    + [TxFrame(Implementer, 1, SettlementFrame(1, None, 7))]
    + [TxFrame(Implementer, 1, SettlementFrame(1, None, 8))]
  }

  lemma RunNext(db: Database, txs: seq<Transaction>, tx: Transaction)
    ensures Run(db, txs + [tx]) == Apply(Run(db, txs), tx)
  {
    assert (txs + [tx])[..|txs|] == txs;
  }

  predicate Holding(db: Database, state: AssignmentState) {
    && Implementer in db.roles && db.roles[Implementer] == RoleRow(Working, true, Some(1), 1)
    && db.assignments == map[1 := NewAssignment(Implementer, Implementation, 1, 1).(state := state)] && db.commands == map[]
    && !db.paused && db.workflow == Starting
  }

  lemma GivenState()
    ensures Holding(Run(InitialDatabase(Bare), RemindedRun()[..2]), Delivering)
  {
    var start := InitialDatabase(Bare);
    var a: seq<Transaction> := [] + [TxHello(Implementer, 1)];
    RunNext(start, [], TxHello(Implementer, 1));
    RunNext(start, a, TxAssign(Implementer, Implementation, 1, 1, 1));
    assert RemindedRun()[..2] == a + [TxAssign(Implementer, Implementation, 1, 1, 1)];
    assert Implementer in Bare.Roles();
    var connected := Run(start, a);
    assert connected == start.(roles := start.roles[Implementer := RoleRow(Idle, true, None, 1)]);
    assert Assign(connected, Implementer, Implementation, 1, 1, 1)
           == Insert(connected, Implementer, 1, NewAssignment(Implementer, Implementation, 1, 1));
  }

  lemma AckedOnce(db: Database)
    requires Holding(db, Delivering)
    ensures Holding(Apply(db, TxFrame(Implementer, 1, AckFrame(1, true))), Accepted)
  {
  }

  lemma AckedState()
    ensures Holding(Run(InitialDatabase(Bare), RemindedRun()[..3]), Accepted)
  {
    GivenState();
    RunNext(InitialDatabase(Bare), RemindedRun()[..2], TxFrame(Implementer, 1, AckFrame(1, true)));
    assert RemindedRun()[..3] == RemindedRun()[..2] + [TxFrame(Implementer, 1, AckFrame(1, true))];
    AckedOnce(Run(InitialDatabase(Bare), RemindedRun()[..2]));
  }

  /** What is the same after either settlement. */
  predicate Settled(db: Database) {
    && Implementer in db.roles && db.roles[Implementer] == RoleRow(Waiting, true, Some(1), 1)
    && db.assignments.Keys == {1} && db.assignments[1].role == Implementer && db.assignments[1].resume == None
    && db.assignments[1].state == Accepted && db.assignments[1].delivery == 1 && db.commands == map[]
    && !db.paused
  }

  lemma FirstSettlement(db: Database)
    requires Implementer in db.roles && db.roles[Implementer] == RoleRow(Working, true, Some(1), 1) && db.commands == map[] && !db.paused
    requires db.assignments == map[1 := NewAssignment(Implementer, Implementation, 1, 1).(state := Accepted)]
    ensures var after := Apply(db, TxFrame(Implementer, 1, SettlementFrame(1, None, 7)));
            Settled(after) && after.assignments[1].lastSettlement == Some(7) && after.assignments[1].settlements == 1
            && after.workflow == db.workflow
  {
    assert Owns(db, Implementer, 1, 1, None) && Nudges(db.assignments[1], 7);
  }

  lemma SecondSettlement(db: Database)
    requires Settled(db) && db.assignments[1].lastSettlement == Some(7) && db.assignments[1].settlements == 1
    requires db.workflow != Ready && db.workflow != Uncertain
    ensures var after := Apply(db, TxFrame(Implementer, 1, SettlementFrame(1, None, 8)));
            Settled(after) && after.workflow == NeedsAttention
  {
    var counted := Counted(db.assignments[1], 8);
    assert Owns(db, Implementer, 1, 1, None) && !Nudges(db.assignments[1], 8);
    assert Apply(db, TxFrame(Implementer, 1, SettlementFrame(1, None, 8))) == AttentionWaiting(SetAssignment(db, 1, counted), Implementer, 1);
    assert SetRoleState(db, Implementer, Waiting).roles == db.roles;
  }

  lemma RemindedState()
    ensures var db := Run(InitialDatabase(Bare), RemindedRun()); Settled(db) && db.workflow == NeedsAttention
  {
    var start := InitialDatabase(Bare);
    var a, b := RemindedRun()[..3], RemindedRun()[..4];
    AckedState();
    RunNext(start, a, TxFrame(Implementer, 1, SettlementFrame(1, None, 7)));
    assert b == a + [TxFrame(Implementer, 1, SettlementFrame(1, None, 7))];
    FirstSettlement(Run(start, a));
    RunNext(start, b, TxFrame(Implementer, 1, SettlementFrame(1, None, 8)));
    assert RemindedRun() == b + [TxFrame(Implementer, 1, SettlementFrame(1, None, 8))];
    SecondSettlement(Run(start, b));
  }

  const ALL_READY: Link := Link(true, true, true)

  lemma BothChecked(db: Database)
    requires Settled(db) && db.workflow == NeedsAttention
    ensures ControlStatus(db, 8, Send, Implementer, ALL_READY) == Some(StatusAccepted) && Planned(db, Send, Implementer) == Guiding(true)
    ensures ControlStatus(db, 9, Restart, Implementer, ALL_READY) == Some(StatusAccepted)
    ensures var restarted := Control(db, 9, Restart, Implementer, ALL_READY);
            && restarted.roles == db.roles[Implementer := RoleRow(Restarting, true, Some(1), 2)]
            && restarted.assignments == db.assignments && restarted.commands.Keys == {9} && restarted.cap == db.cap
  {
  }

  lemma AllUnguarded(db: Database, tx: Transaction)
    requires Implementer in db.roles && db.roles[Implementer] == RoleRow(Restarting, true, Some(1), 2)
    requires db.assignments.Keys == {1} && db.assignments[1].role == Implementer && db.assignments[1].state == Accepted
    requires db.assignments[1].delivery == 1 && 8 !in db.commands
    requires tx == TxRecoverIdle(Implementer) || tx == TxRecoverWaiting(Implementer, 1)
             || tx == TxReminderLost(Implementer, 1) || tx == TxAssign(Implementer, Implementation, 1, 2, 2)
             || tx == TxFinish(8, Implementer, Guiding(true))
    ensures Unguarded(db, Implementer, tx)
  {
  }

  /** After an accepted restart the coroutine of the superseded client, at
      generation one, can still commit any of the first four, and so can guidance
      that was checked before the restart the fifth. */
  lemma SupersededWrites(act: Act)
    requires act.client == 1
    requires act.tx == TxRecoverIdle(Implementer) || act.tx == TxRecoverWaiting(Implementer, 1)
             || act.tx == TxReminderLost(Implementer, 1) || act.tx == TxAssign(Implementer, Implementation, 1, 2, 2)
             || act.tx == TxFinish(8, Implementer, Guiding(true))
    ensures var db := Run(InitialDatabase(Bare), RemindedRun());
            && ControlStatus(db, 8, Send, Implementer, ALL_READY) == Some(StatusAccepted) && Planned(db, Send, Implementer) == Guiding(true)
            && ControlStatus(db, 9, Restart, Implementer, ALL_READY) == Some(StatusAccepted)
            && var restarted := Control(db, 9, Restart, Implementer, ALL_READY);
               && HandoverPending(restarted, Implementer)
               && !ForCurrentClient(restarted, Implementer, act)
               && !HandoverPending(Apply(restarted, act.tx), Implementer)
  {
    RemindedState();
    var db := Run(InitialDatabase(Bare), RemindedRun());
    var restarted := Control(db, 9, Restart, Implementer, ALL_READY);
    BothChecked(db);
    AllUnguarded(restarted, act.tx);
    UnguardedEnds(restarted, Implementer, act.tx);
  }
}
