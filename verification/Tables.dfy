/** The durable state of the broker: the rows of its SQLite tables and the
    values of its `meta` table, with the fixed configuration of one run. */

module Options {
  datatype Option<+T> = None | Some(value: T)
}

module Tables {
  import opened Options

  /** Opaque 32-character hexadecimal identities. */
  type AssignmentId = nat
  type DeliveryId = nat
  type CommandId = nat
  type RequestId = nat

  datatype Role = Implementer | Reviewer | Probe | Playwright | Django | Custom(index: nat)

  /** A custom specialist reports under its contract name; every specialist
      contract is the one kind `Specialist` here. */
  datatype Kind = Plan | Implementation | Review | Specialist

  datatype Verdict = NoVerdict | Approved | ChangesRequested

  datatype Workflow = Starting | Connecting | Initializing | Active | NeedsAttention | Ready | Uncertain | Routing

  datatype RoleState = Disconnected | Idle | Working | Waiting | RoleUncertain | Restarting | Recovering

  datatype RoleRow = RoleRow(state: RoleState, connected: bool, active: Option<AssignmentId>, generation: nat)

  datatype AssignmentState = Delivering | Accepted | DeliveryUncertain | Completed

  datatype Reminder = NoReminder | Reserved | Used

  datatype Attempt = NoAttempt | Rejected | AttentionRaised | ReportAccepted

  datatype Assignment = Assignment(
    role: Role,
    round: nat,
    kind: Kind,
    state: AssignmentState,
    delivery: DeliveryId,
    settlements: nat,
    lastSettlement: Option<RequestId>,
    reminder: Reminder,
    attempt: Attempt,
    resume: Option<CommandId>,
    authorized: bool)

  datatype Report = Report(role: Role, round: nat, kind: Kind, verdict: Verdict)

  datatype CallScope = RunScope | RoleScope | AssignmentScope

  datatype Admission = Admission(
    role: Role,
    assignment: AssignmentId,
    generation: nat,
    resume: Option<CommandId>,
    granted: bool)

  datatype Action = Send | Abort | Restart | RestartFailed | Continue | ExtendCalls(amount: int)

  datatype Status = StatusAccepted | StatusConflict | StatusUncertain

  datatype Command = Command(action: Action, role: Role, status: Status)

  /** What a command that has something to send will write once it is sent, as
      decided when it was checked. */
  datatype Plan = Reopening(round: nat) | Guiding(waking: bool) | Aborting

  datatype Database = Database(
    workflow: Workflow,
    round: nat,
    paused: bool,
    limits: map<CallScope, nat>,
    cap: Option<nat>,
    pending: Option<nat>,
    roles: map<Role, RoleRow>,
    assignments: map<AssignmentId, Assignment>,
    reports: map<AssignmentId, Report>,
    activations: map<(Role, nat), bool>,
    admissions: map<RequestId, Admission>,
    commands: map<CommandId, Command>)

  ghost predicate Distinct(roles: seq<Role>) {
    forall i, j :: 0 <= i < j < |roles| ==> roles[i] != roles[j]
  }

  /** What a run is started with: the enabled specialists, the implementation
      flow, the call ceilings and the repair-round cap. */
  datatype Config = Config(
    specialists: seq<Role>,
    phased: bool,
    limits: map<CallScope, nat>,
    cap: Option<nat>)
  {
    ghost predicate Valid() {
      && Distinct(specialists)
      && Implementer !in specialists
      && Reviewer !in specialists
    }

    function Roles(): set<Role> {
      {Implementer, Reviewer} + set s | s in specialists
    }
  }

  const MAX_CALL_ALLOWANCE := 1_000_000
  const MAX_COMMANDS := 4096
  const MAX_REPAIR_ROUNDS := 1_000_000

  function InitialDatabase(config: Config): Database {
    Database(
      Starting, 1, false, config.limits, config.cap, None,
      map r | r in config.Roles() :: RoleRow(Disconnected, false, None, 1),
      map[], map[], map[], map[], map[])
  }
}
