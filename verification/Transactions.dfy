/** Every database transaction of the broker as a function from the state it
    opens on to the state it commits. A transaction that raises rolls back and
    leaves the state unchanged. */

module Transactions {
  import opened Options
  import opened Tables

  /** Storing `active` or `ready` while call admission is paused stores
      `needs_attention` instead. */
  function SetWorkflow(db: Database, value: Workflow): Database {
    db.(workflow := if (value.Active? || value.Ready?) && db.paused then NeedsAttention else value)
  }

  function SetRoleState(db: Database, role: Role, state: RoleState): Database
    requires role in db.roles
  {
    db.(roles := db.roles[role := db.roles[role].(state := state)])
  }

  function SetAssignment(db: Database, id: AssignmentId, row: Assignment): Database {
    db.(assignments := db.assignments[id := row])
  }

  /** The assignment a worker frame may act on: the live pointer of its role, at
      the sender's generation and resume epoch. */
  predicate Owns(db: Database, role: Role, generation: nat, id: AssignmentId, resume: Option<CommandId>) {
    && role in db.roles
    && db.roles[role].active == Some(id)
    && db.roles[role].generation == generation
    && id in db.assignments
    && (db.assignments[id].state.Accepted? || db.assignments[id].state.Delivering?)
    && db.assignments[id].resume == resume
  }

  function AttentionWaiting(db: Database, role: Role, id: AssignmentId): Database
    requires role in db.roles && id in db.assignments
  {
    var revoked := SetAssignment(db, id, db.assignments[id].(authorized := false));
    var waiting := SetRoleState(revoked, role, Waiting);
    if waiting.workflow.Uncertain? || waiting.workflow.Ready? then waiting else SetWorkflow(waiting, NeedsAttention)
  }

  // ----- broker start, connection and handover -----

  function Interrupted(db: Database): set<Role> {
    set r | r in db.roles && (db.roles[r].state.Restarting? || db.roles[r].state.Recovering?)
  }

  function FailHandovers(db: Database, interrupted: set<Role>): Database {
    db.(workflow := Uncertain,
        roles := map r | r in db.roles ::
          if r in interrupted then db.roles[r].(state := RoleUncertain, connected := false) else db.roles[r])
  }

  function BootWorkflow(db: Database): Database {
    if db.workflow == Starting then SetWorkflow(db, Connecting)
    else if db.workflow.Routing? || db.workflow.Initializing? then SetWorkflow(db, Uncertain)
    else db
  }

  /** Startup reconciliation, before the first client is served. */
  function Boot(db: Database): Database {
    if Interrupted(db) != {} then FailHandovers(db, Interrupted(db)) else BootWorkflow(db)
  }

  function Hello(db: Database, role: Role, generation: nat): Database {
    if role !in db.roles || db.roles[role].generation != generation then db
    else
      var state := if db.roles[role].state == Restarting then Recovering else Idle;
      db.(roles := db.roles[role := db.roles[role].(connected := true, state := state)])
  }

  function MarkHandoverUncertain(db: Database, role: Role): Database {
    if role !in db.roles then db
    else SetWorkflow(SetRoleState(db, role, RoleUncertain), Uncertain)
  }

  /** How the end of a connection leaves the state of its role. */
  function MarkGone(db: Database, role: Role, generation: nat): Database
    requires role in db.roles
  {
    var row := db.roles[role];
    if row.state == Recovering && row.generation == generation then MarkHandoverUncertain(db, role)
    else if row.state.Restarting? || row.state.Recovering? || row.state.RoleUncertain? then db
    else SetRoleState(db, role, Disconnected)
  }

  function SetConnected(db: Database, role: Role, connected: bool): Database
    requires role in db.roles
  {
    db.(roles := db.roles[role := db.roles[role].(connected := connected)])
  }

  /** The connection that said hello at `generation` is gone. */
  function Disconnect(db: Database, role: Role, generation: nat): Database {
    if role !in db.roles then db else SetConnected(MarkGone(db, role, generation), role, false)
  }

  predicate RecoveryWaiting(row: Assignment) {
    !row.authorized && (row.reminder != NoReminder || row.attempt == AttentionRaised)
  }

  /** Nobody knows whether the worker has this assignment. */
  function Unsure(db: Database, role: Role, id: AssignmentId): Database
    requires role in db.roles && id in db.assignments
  {
    var marked := SetAssignment(db, id, db.assignments[id].(state := DeliveryUncertain));
    SetWorkflow(SetRoleState(marked, role, RoleUncertain), Uncertain)
  }

  predicate NeverAcknowledged(db: Database, role: Role, id: AssignmentId) {
    && role in db.roles && id in db.assignments && db.assignments[id].role == role
    && (db.assignments[id].state.Delivering? || db.assignments[id].state.DeliveryUncertain?)
  }

  /** A reconnecting role whose delivery was never acknowledged. */
  function RecoverUncertain(db: Database, role: Role, id: AssignmentId): Database {
    if NeverAcknowledged(db, role, id) then Unsure(db, role, id) else db
  }

  function RecoverIdle(db: Database, role: Role): Database {
    if role in db.roles then SetRoleState(db, role, Idle) else db
  }

  /** The decision that a reconnecting role has to wait is taken on the row as it
      was read; guidance may authorize the assignment before this is written. */
  predicate WaitsToRecover(db: Database, role: Role, id: AssignmentId) {
    role in db.roles && id in db.assignments && db.assignments[id].role == role && db.assignments[id].state != Completed
  }

  function Spent(row: Assignment): Assignment {
    if row.reminder == Reserved then row.(reminder := Used) else row
  }

  /** A reconnecting role whose accepted assignment already spent its reminder or
      raised attention: a reserved reminder is consumed without a turn. */
  function RecoverWaiting(db: Database, role: Role, id: AssignmentId): Database {
    if WaitsToRecover(db, role, id) then AttentionWaiting(SetAssignment(db, id, Spent(db.assignments[id])), role, id) else db
  }

  predicate FreshDelivery(db: Database, delivery: DeliveryId) {
    forall id :: id in db.assignments ==> db.assignments[id].delivery != delivery
  }

  /** A confirmed handover replays an assignment under a new delivery. It was read
      as accepted; nobody but the connection that replays it can complete it. */
  function RotateDelivery(db: Database, role: Role, id: AssignmentId, delivery: DeliveryId): Database {
    if !(role in db.roles && id in db.assignments && db.assignments[id].role == role
         && db.assignments[id].state != Completed && FreshDelivery(db, delivery)) then db
    else SetAssignment(db, id, db.assignments[id].(delivery := delivery, state := Delivering))
  }

  // ----- worker frames -----

  /** The assignment an acknowledgement is recorded for. */
  predicate Answers(db: Database, role: Role, delivery: DeliveryId) {
    && role in db.roles && db.roles[role].active.Some? && db.roles[role].active.value in db.assignments
    && var row := db.assignments[db.roles[role].active.value];
       row.delivery == delivery && row.role == role && row.state != Completed
  }

  function Acknowledged(db: Database, role: Role, id: AssignmentId): Database
    requires role in db.roles && id in db.assignments
  {
    var acked := SetAssignment(db, id, db.assignments[id].(state := Accepted));
    if db.roles[role].state.Disconnected? || db.roles[role].state.Idle? || db.roles[role].state.Recovering?
    then SetRoleState(acked, role, Working) else acked
  }

  function Acknowledge(db: Database, role: Role, delivery: DeliveryId, accepted: bool): Database {
    if !Answers(db, role, delivery) then db
    else
      var id := db.roles[role].active.value;
      if accepted then Acknowledged(db, role, id) else Unsure(db, role, id)
  }

  /** Classifies a report the broker refused; the generation fence is part of the
      statement, because malformed frames never reach the message gate. */
  function RecordRejection(db: Database, role: Role, generation: nat, id: AssignmentId): Database {
    if && role in db.roles && db.roles[role].active == Some(id) && db.roles[role].generation == generation
       && id in db.assignments && db.assignments[id].role == role
       && db.assignments[id].attempt == NoAttempt && (db.assignments[id].state.Delivering? || db.assignments[id].state.Accepted?)
    then SetAssignment(db, id, db.assignments[id].(attempt := Rejected))
    else db
  }

  predicate Reportable(db: Database, role: Role, id: AssignmentId, kind: Kind) {
    && role in db.roles
    && id in db.assignments
    && db.assignments[id].role == role
    && db.assignments[id].kind == kind
    && id !in db.reports
    && (db.assignments[id].state.Delivering? || db.assignments[id].state.Accepted?)
    && db.roles[role].active == Some(id)
  }

  predicate DuplicateReport(db: Database, role: Role, id: AssignmentId, kind: Kind) {
    && id in db.assignments
    && db.assignments[id].role == role
    && db.assignments[id].kind == kind
    && id in db.reports
  }

  /** The report is stored, its assignment completed and its role free. */
  function Completing(db: Database, role: Role, id: AssignmentId, kind: Kind, verdict: Verdict): Database
    requires role in db.roles && id in db.assignments
  {
    var row := db.assignments[id];
    db.(reports := db.reports[id := Report(role, row.round, kind, verdict)],
        assignments := db.assignments[id := row.(state := Completed, attempt := ReportAccepted)],
        roles := db.roles[role := db.roles[role].(active := None, state := Idle)])
  }

  function AcceptReport(db: Database, role: Role, generation: nat, id: AssignmentId, kind: Kind, verdict: Verdict): Database {
    if Reportable(db, role, id, kind) then Completing(db, role, id, kind, verdict)
    else if DuplicateReport(db, role, id, kind) then db
    else RecordRejection(db, role, generation, id)
  }

  function RejectedReport(db: Database, role: Role, generation: nat, id: AssignmentId, resume: Option<CommandId>): Database {
    if Owns(db, role, generation, id, resume) && db.assignments[id].attempt == NoAttempt
    then SetAssignment(db, id, db.assignments[id].(attempt := Rejected))
    else db
  }

  function RaiseAttention(db: Database, role: Role, generation: nat, id: AssignmentId, resume: Option<CommandId>): Database {
    if !Owns(db, role, generation, id, resume) then db
    else
      var row := db.assignments[id];
      if row.attempt == AttentionRaised && !row.authorized then db
      else AttentionWaiting(SetAssignment(db, id, row.(attempt := AttentionRaised)), role, id)
  }

  function SettlementCount(row: Assignment): nat {
    if row.settlements + 1 < 2 then row.settlements + 1 else 2
  }

  /** The first settlement of an assignment without a report or an attention
      signal reserves its only reminder. */
  predicate Nudges(row: Assignment, settlement: RequestId) {
    && row.lastSettlement != Some(settlement)
    && SettlementCount(row) == 1
    && row.reminder == NoReminder
    && row.attempt != AttentionRaised
  }

  function Counted(row: Assignment, settlement: RequestId): Assignment {
    row.(settlements := SettlementCount(row), lastSettlement := Some(settlement))
  }

  function AfterSettlement(db: Database, role: Role, id: AssignmentId, settlement: RequestId): Database
    requires role in db.roles && id in db.assignments
  {
    var counted := Counted(db.assignments[id], settlement);
    if Nudges(db.assignments[id], settlement)
    then SetRoleState(SetAssignment(db, id, counted.(reminder := Reserved, authorized := false)), role, Waiting)
    else AttentionWaiting(SetAssignment(db, id, counted), role, id)
  }

  predicate Settles(db: Database, role: Role, generation: nat, id: AssignmentId, resume: Option<CommandId>, settlement: RequestId) {
    Owns(db, role, generation, id, resume) && db.assignments[id].lastSettlement != Some(settlement)
  }

  function Settle(db: Database, role: Role, generation: nat, id: AssignmentId, resume: Option<CommandId>, settlement: RequestId): Database {
    if Settles(db, role, generation, id, resume, settlement) then AfterSettlement(db, role, id, settlement) else db
  }

  /** The connection serves this assignment, so nobody else can have completed it;
      that its role still points at it is not checked. */
  predicate Reminded(db: Database, role: Role, id: AssignmentId) {
    role in db.roles && id in db.assignments && db.assignments[id].role == role && db.assignments[id].state != Completed
  }

  /** Sending the reminder failed: the reservation is consumed without a turn. */
  function ReminderLost(db: Database, role: Role, id: AssignmentId): Database {
    if Reminded(db, role, id) then AttentionWaiting(SetAssignment(db, id, db.assignments[id].(reminder := Used)), role, id) else db
  }

  predicate RecoveryAllowed(row: Assignment) {
    row.reminder == Reserved && row.attempt != AttentionRaised
  }

  function RecoveryTurn(db: Database, role: Role, generation: nat, id: AssignmentId, resume: Option<CommandId>): Database {
    if !Owns(db, role, generation, id, resume) then db
    else if RecoveryAllowed(db.assignments[id])
    then SetRoleState(SetAssignment(db, id, db.assignments[id].(reminder := Used)), role, Working)
    else AttentionWaiting(db, role, id)
  }

  // ----- provider-call admission -----

  predicate InScope(scope: CallScope, row: Admission, role: Role, id: AssignmentId) {
    match scope
    case RunScope => true
    case RoleScope => row.role == role
    case AssignmentScope => row.assignment == id
  }

  /** The granted turns a ceiling of this scope counts for one request. */
  function GrantedIn(admissions: map<RequestId, Admission>, scope: CallScope, role: Role, id: AssignmentId): set<RequestId> {
    set q | q in admissions && admissions[q].granted && InScope(scope, admissions[q], role, id)
  }

  predicate UnderCeilings(db: Database, role: Role, id: AssignmentId) {
    forall scope :: scope in db.limits ==> |GrantedIn(db.admissions, scope, role, id)| < db.limits[scope]
  }

  datatype Reservation = Refused | Decided(db: Database, granted: bool)

  function Reserve(db: Database, request: RequestId, role: Role, id: AssignmentId, generation: nat, resume: Option<CommandId>): Reservation {
    if db.limits == map[] then Refused
    else if request in db.admissions then
      var previous := db.admissions[request];
      if previous.role == role && previous.assignment == id && previous.generation == generation && previous.resume == resume
      then Decided(db, false)
      else Refused
    else if |db.admissions| >= MAX_CALL_ALLOWANCE then Decided(db.(paused := true), false)
    else
      var granted := !db.paused && UnderCeilings(db, role, id);
      Decided(
        db.(admissions := db.admissions[request := Admission(role, id, generation, resume, granted)],
            paused := db.paused || !granted),
        granted)
  }

  function ProviderTurnDecision(db: Database, role: Role, generation: nat, id: AssignmentId, resume: Option<CommandId>, request: RequestId): Reservation {
    if !Owns(db, role, generation, id, resume) then Refused
    else if db.assignments[id].attempt == AttentionRaised && !db.assignments[id].authorized then Decided(db, false)
    else Reserve(db, request, role, id, generation, resume)
  }

  function ProviderTurn(db: Database, role: Role, generation: nat, id: AssignmentId, resume: Option<CommandId>, request: RequestId): Database {
    match ProviderTurnDecision(db, role, generation, id, resume, request)
    case Refused => db
    case Decided(reserved, granted) =>
      if granted then reserved
      else AttentionWaiting(SetAssignment(reserved, id, reserved.assignments[id].(attempt := AttentionRaised)), role, id)
  }

  // ----- lifecycle -----

  /** `assignment` is None for a frame without the field, Some(None) for null. */
  function Lifecycle(db: Database, role: Role, state: RoleState, assignment: Option<Option<AssignmentId>>): Database {
    if role !in db.roles || (!state.Idle? && !state.Working? && !state.Waiting? && !state.RoleUncertain?) then db
    else
      var row := db.roles[role];
      var retained := if (row.state.Recovering? || row.state.RoleUncertain?) && state != RoleUncertain then row.state else state;
      match assignment
      case None =>
        if row.state == Waiting && row.active.Some? && state != RoleUncertain then db
        else SetRoleState(db, role, retained)
      case Some(named) =>
        if named != row.active then db
        else if state == Waiting || (row.state == Waiting && state != RoleUncertain) then db
        else SetRoleState(db, role, retained)
  }

  function LifecycleWorkflow(db: Database, role: Role, state: RoleState): Database {
    if role !in db.roles || db.roles[role].active.None? then db
    else if state == RoleUncertain && (!db.workflow.Ready? && !db.workflow.Uncertain?) then SetWorkflow(db, Uncertain)
    else if state == Waiting && (!db.workflow.Ready? && !db.workflow.Uncertain? && !db.workflow.NeedsAttention?) then SetWorkflow(db, NeedsAttention)
    else if state == Working && db.workflow == NeedsAttention && !db.paused then SetWorkflow(db, Active)
    else db
  }

  // ----- repair rounds -----

  /** The distinct repair rounds that were ever given to the implementer. */
  function RepairRounds(db: Database): set<nat> {
    set id | id in db.assignments && IsRepair(db.assignments[id]) :: db.assignments[id].round
  }

  predicate IsRepair(row: Assignment) {
    row.role == Implementer && row.kind == Implementation && row.round > 1
  }

  predicate RepairLimitReached(db: Database, role: Role, kind: Kind, round: nat) {
    && role == Implementer && kind == Implementation && round > 1
    && db.cap.Some? && |RepairRounds(db)| >= db.cap.value
  }

  predicate SafelyPaused(db: Database) {
    && db.workflow == NeedsAttention
    && db.pending.Some?
    && db.cap.Some?
    && forall r :: r in db.roles ==>
         && db.roles[r].active.None?
         && !db.roles[r].state.Working? && !db.roles[r].state.Waiting? && !db.roles[r].state.Restarting?
         && !db.roles[r].state.Recovering? && !db.roles[r].state.RoleUncertain?
  }

  // ----- routing -----

  function NewAssignment(role: Role, kind: Kind, round: nat, delivery: DeliveryId): Assignment {
    Assignment(role, round, kind, Delivering, delivery, 0, None, NoReminder, NoAttempt, None, false)
  }

  /** The new row, with the pointer of its role on it. */
  function Insert(db: Database, role: Role, id: AssignmentId, row: Assignment): Database
    requires role in db.roles
  {
    db.(assignments := db.assignments[id := row],
        roles := db.roles[role := db.roles[role].(active := Some(id), state := Working)])
  }

  predicate Assignable(db: Database, role: Role, id: AssignmentId, delivery: DeliveryId) {
    role in db.roles && id !in db.assignments && FreshDelivery(db, delivery)
  }

  /** A stored repair assignment ends the repair pause. */
  function Given(db: Database, role: Role, kind: Kind, round: nat, id: AssignmentId, delivery: DeliveryId): Database
    requires role in db.roles
  {
    var inserted := Insert(db, role, id, NewAssignment(role, kind, round, delivery));
    if role == Implementer && kind == Implementation && round > 1 && db.pending.Some?
    then SetWorkflow(inserted.(pending := None), Active)
    else inserted
  }

  function Assign(db: Database, role: Role, kind: Kind, round: nat, id: AssignmentId, delivery: DeliveryId): Database {
    if !Assignable(db, role, id, delivery) then db
    else if RepairLimitReached(db, role, kind, round) then SetWorkflow(db, NeedsAttention).(pending := Some(round))
    else Given(db, role, kind, round, id, delivery)
  }

  /** Records one decision for every listed specialist that has none this round. */
  function Activate(db: Database, specialists: seq<Role>, round: nat, run: set<Role>): Database {
    db.(activations := db.activations + map s | s in specialists && (s, round) !in db.activations :: (s, round) := s in run)
  }

  function Advance(db: Database, round: nat): Database {
    SetWorkflow(db.(round := round), Active)
  }

  function Approve(db: Database): Database {
    SetWorkflow(db, if db.paused then NeedsAttention else Ready)
  }

  // ----- operator control -----

  /** What the handler reads outside the database: whether the role is connected,
      whether its baseline is in memory, and whether its launch metadata loads. */
  datatype Link = Link(connected: bool, baseline: bool, launchable: bool)

  predicate ExtensionFits(db: Database, amount: int) {
    && 1 <= amount <= MAX_CALL_ALLOWANCE
    && forall scope :: scope in db.limits ==> db.limits[scope] + amount <= MAX_CALL_ALLOWANCE
  }

  predicate SendConflicts(db: Database, role: Role)
    requires role in db.roles
  {
    var row := db.roles[role];
    && db.workflow == NeedsAttention
    && (row.state != Waiting || row.active.None?
        || row.active.value !in db.assignments || db.assignments[row.active.value].state != Accepted)
  }

  function Max(a: nat, b: nat): nat { if a < b then b else a }

  /** One more repair round than the cap or than were admitted so far. */
  function RaisedCap(db: Database): nat
    requires db.cap.Some?
  {
    Max(db.cap.value, |RepairRounds(db)|) + 1
  }

  /** The receipt of a new command; None when the command is refused and leaves
      no receipt. */
  function ControlStatus(db: Database, id: CommandId, action: Action, role: Role, link: Link): Option<Status> {
    if role !in db.roles || id in db.commands then None
    else if action.Continue? && role != Implementer then None
    else if action.ExtendCalls? && (role != Implementer || !(1 <= action.amount <= MAX_CALL_ALLOWANCE)) then None
    else
      var state := db.roles[role].state;
      if |db.commands| >= MAX_COMMANDS && !(action == RestartFailed && (state.Restarting? || state.Recovering?)) then None
      else match action
           case RestartFailed =>
             Some(if state.Restarting? || state.Recovering? || state.RoleUncertain? then StatusAccepted else StatusConflict)
           case ExtendCalls(amount) =>
             if !db.paused || db.limits == map[] then Some(StatusConflict)
             else if !ExtensionFits(db, amount) then None
             else Some(StatusAccepted)
           case Continue =>
             if !link.connected || !link.baseline then Some(StatusUncertain)
             else if !SafelyPaused(db) then Some(StatusConflict)
             else if RaisedCap(db) > MAX_REPAIR_ROUNDS then None
             else Some(StatusAccepted)
           case Restart =>
             if !link.baseline then Some(StatusUncertain)
             else if !link.launchable then None
             else Some(StatusAccepted)
           case Abort => Some(if link.connected then StatusAccepted else StatusUncertain)
           case Send =>
             if !link.connected then Some(StatusUncertain)
             else if SendConflicts(db, role) then Some(StatusConflict)
             else Some(StatusAccepted)
  }

  /** Guidance binds the live assignment of a role to a new resume epoch and
      authorizes it. */
  function ResumeBound(db: Database, id: CommandId, role: Role): Database
    requires role in db.roles
  {
    match db.roles[role].active
    case Some(a) =>
      if a in db.assignments then SetAssignment(db, a, db.assignments[a].(resume := Some(id), authorized := true)) else db
    case None => db
  }

  predicate OtherWaiting(db: Database, role: Role) {
    exists r :: r in db.roles && r != role && db.roles[r].state == Waiting && db.roles[r].active.Some?
  }

  /** Guidance wakes its role; the run is active again once no role waits. */
  function Wake(db: Database, role: Role): Database
    requires role in db.roles
  {
    var woken := SetRoleState(db, role, Working);
    if OtherWaiting(woken, role) then woken else SetWorkflow(woken, Active)
  }

  function Resume(db: Database, id: CommandId, role: Role, waking: bool): Database
    requires role in db.roles
  {
    var bound := ResumeBound(db, id, role);
    if waking then Wake(bound, role) else bound
  }

  /** Guidance and aborts are checked, then sent, and written last. */
  predicate Awaits(action: Action) {
    action == Send || action == Abort
  }

  /** What the check of such a command decides from the state it reads. */
  function Planned(db: Database, action: Action, role: Role): Plan {
    if action == Abort then Aborting
    else if db.workflow == Ready && role == Implementer then Reopening(db.round + 1)
    else Guiding(db.workflow == NeedsAttention)
  }

  /** The effect of an accepted command, before its receipt is stored. */
  function ControlEffect(db: Database, id: CommandId, action: Action, role: Role): Database
    requires role in db.roles
  {
    match action
    case RestartFailed =>
      if db.roles[role].state.Restarting? || db.roles[role].state.Recovering? then MarkHandoverUncertain(db, role) else db
    case ExtendCalls(amount) =>
      if amount < 0 then db
      else db.(limits := map scope | scope in db.limits :: db.limits[scope] + amount, paused := false)
    case Continue =>
      SetWorkflow(db.(cap := if db.cap.Some? then Some(RaisedCap(db)) else None), Routing)
    case Restart =>
      db.(roles := db.roles[role := db.roles[role].(generation := db.roles[role].generation + 1, state := Restarting)])
    case _ => db
  }

  function Receipted(db: Database, id: CommandId, command: Command): Database {
    db.(commands := db.commands[id := command])
  }

  /** What the handler of a new command commits before it sends anything. */
  function Control(db: Database, id: CommandId, action: Action, role: Role, link: Link): Database {
    match ControlStatus(db, id, action, role, link)
    case None => db
    case Some(status) =>
      if status == StatusAccepted && Awaits(action) then db
      else
        var after := if status == StatusAccepted then ControlEffect(db, id, action, role) else db;
        Receipted(after, id, Command(action, role, status))
  }

  function PlanAction(plan: Plan): Action {
    if plan.Aborting? then Abort else Send
  }

  function PlanEffect(db: Database, id: CommandId, role: Role, plan: Plan): Database
    requires role in db.roles
  {
    match plan
    case Reopening(round) => Advance(db, round)
    case Guiding(waking) => Resume(db, id, role, waking)
    case Aborting => db
  }

  /** What is written once a checked command was sent. Nothing that was read for
      the plan is read again; a second receipt of one identity is refused, and
      everything with it. */
  function Finish(db: Database, id: CommandId, role: Role, plan: Plan): Database {
    if role !in db.roles || id in db.commands then db
    else Receipted(PlanEffect(db, id, role, plan), id, Command(PlanAction(plan), role, StatusAccepted))
  }
}
