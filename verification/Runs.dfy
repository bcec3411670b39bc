/** Runs of the store: any transactions, in any order, with any arguments. Every
    schedule of the broker's handlers, with crashes between their transactions,
    is one of these. */

module Runs {
  import opened Options
  import opened Tables
  import opened Transactions

  /** The body of an authenticated worker frame. */
  datatype Frame =
    | ReportFrame(id: AssignmentId, kind: Kind, verdict: Verdict)
    | RejectedReportFrame(id: AssignmentId, resume: Option<CommandId>)
    | MalformedReport(id: AssignmentId)
    | AttentionFrame(id: AssignmentId, resume: Option<CommandId>)
    | SettlementFrame(id: AssignmentId, resume: Option<CommandId>, settlement: RequestId)
    | ProviderTurnFrame(id: AssignmentId, resume: Option<CommandId>, request: RequestId)
    | RecoveryTurnFrame(id: AssignmentId, resume: Option<CommandId>)
    | LifecycleFrame(state: RoleState, assignment: Option<Option<AssignmentId>>)
    | AckFrame(delivery: DeliveryId, accepted: bool)

  datatype Transaction =
    | TxBoot
    | TxHello(role: Role, generation: nat)
    | TxDisconnect(role: Role, generation: nat)
    | TxMarkUncertain(role: Role)
    | TxRecoverUncertain(role: Role, id: AssignmentId)
    | TxRecoverIdle(role: Role)
    | TxRecoverWaiting(role: Role, id: AssignmentId)
    | TxRotateDelivery(role: Role, id: AssignmentId, delivery: DeliveryId)
    | TxFrame(role: Role, generation: nat, frame: Frame)
    | TxReminderLost(role: Role, id: AssignmentId)
    | TxLifecycleWorkflow(role: Role, state: RoleState)
    | TxAssign(role: Role, kind: Kind, round: nat, id: AssignmentId, delivery: DeliveryId)
    | TxActivate(specialists: seq<Role>, round: nat, run: set<Role>)
    | TxAdvance(round: nat)
    | TxApprove
    | TxSetWorkflow(workflow: Workflow)
    | TxControl(command: CommandId, action: Action, role: Role, link: Link)
    | TxFinish(command: CommandId, role: Role, plan: Plan)

  function Handle(db: Database, role: Role, generation: nat, frame: Frame): Database {
    match frame
    case ReportFrame(id, kind, verdict) => AcceptReport(db, role, generation, id, kind, verdict)
    case RejectedReportFrame(id, resume) => RejectedReport(db, role, generation, id, resume)
    case MalformedReport(id) => RecordRejection(db, role, generation, id)
    case AttentionFrame(id, resume) => RaiseAttention(db, role, generation, id, resume)
    case SettlementFrame(id, resume, settlement) => Settle(db, role, generation, id, resume, settlement)
    case ProviderTurnFrame(id, resume, request) => ProviderTurn(db, role, generation, id, resume, request)
    case RecoveryTurnFrame(id, resume) => RecoveryTurn(db, role, generation, id, resume)
    case LifecycleFrame(state, assignment) => Lifecycle(db, role, state, assignment)
    case AckFrame(delivery, accepted) => Acknowledge(db, role, delivery, accepted)
  }

  /** The message gate: a well-formed frame of an older generation is refused
      before its handler; a malformed report is classified without the gate. */
  function Receive(db: Database, role: Role, generation: nat, frame: Frame): Database {
    if role !in db.roles then db
    else if frame.MalformedReport? || db.roles[role].generation == generation then Handle(db, role, generation, frame)
    else db
  }

  function Apply(db: Database, tx: Transaction): Database {
    match tx
    case TxBoot => Boot(db)
    case TxHello(role, generation) => Hello(db, role, generation)
    case TxDisconnect(role, generation) => Disconnect(db, role, generation)
    case TxMarkUncertain(role) => MarkHandoverUncertain(db, role)
    case TxRecoverUncertain(role, id) => RecoverUncertain(db, role, id)
    case TxRecoverIdle(role) => RecoverIdle(db, role)
    case TxRecoverWaiting(role, id) => RecoverWaiting(db, role, id)
    case TxRotateDelivery(role, id, delivery) => RotateDelivery(db, role, id, delivery)
    case TxFrame(role, generation, frame) => Receive(db, role, generation, frame)
    case TxReminderLost(role, id) => ReminderLost(db, role, id)
    case TxLifecycleWorkflow(role, state) => LifecycleWorkflow(db, role, state)
    case TxAssign(role, kind, round, id, delivery) => Assign(db, role, kind, round, id, delivery)
    case TxActivate(specialists, round, run) => Activate(db, specialists, round, run)
    case TxAdvance(round) => Advance(db, round)
    case TxApprove => Approve(db)
    case TxSetWorkflow(workflow) => SetWorkflow(db, workflow)
    case TxControl(command, action, role, link) => Control(db, command, action, role, link)
    case TxFinish(command, role, plan) => Finish(db, command, role, plan)
  }

  function Run(db: Database, txs: seq<Transaction>): Database {
    if txs == [] then db else Apply(Run(db, txs[..|txs| - 1]), txs[|txs| - 1])
  }
}
