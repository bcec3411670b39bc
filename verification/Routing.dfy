/** The broker as a schedule: worker frames, connections, operator commands and
    restarts interleave, one transaction at a time, with the routing tasks that
    accepted reports and commands leave behind, and with the operator commands
    that were checked and are still being sent. A task is the list of actions its
    coroutine has still to take; a crash drops every task and every command that
    is not written yet. */

module Routing {
  import opened Options
  import opened Tables
  import opened Transactions
  import opened Runs
  import opened Monotone

  datatype Task =
    | SetActive
    | DecideProbe(runs: bool)
    | AssignTo(role: Role, kind: Kind, round: nat)
    | ActivateRound(round: nat, run: set<Role>)
    | ReviewCheck(round: nat)
    | ApproveRun
    | AdvanceTo(round: nat)
    /** What follows the assignment of an approved repair: was it stored? */
    | ConfirmRepair(round: nat)

  /** A command that was accepted when it was checked, with what it will write. */
  datatype Sending = Sending(command: CommandId, role: Role, plan: Plan)

  datatype Schedule = Schedule(db: Database, tasks: seq<seq<Task>>, sends: seq<Sending>)

  datatype Move =
    /** A transaction that routes nothing. */
    | Background(tx: Transaction)
    /** All roles are connected for the first time. */
    | Begin(probe: bool)
    /** A report; `run` is what the activation rules decide for its paths. */
    | Submit(role: Role, generation: nat, id: AssignmentId, kind: Kind, verdict: Verdict, run: set<Role>)
    /** A command is checked; what has nothing to send is written at once. */
    | Operate(command: CommandId, action: Action, role: Role, link: Link)
    /** A checked command was sent, and is written. */
    | Sent(send: nat)
    /** It could not be sent. */
    | Unsent(send: nat)
    /** The first action of one task; `connected` says whether the role an
        assignment goes to has a client, without which it is silently skipped. */
    | Proceed(task: nat, connected: bool, id: AssignmentId, delivery: DeliveryId)
    /** An action raised: the run is marked uncertain and its task, if anything is
        left of it, is dropped. */
    | Fail(task: nat)
    /** A task is dropped because its operator could not be answered. */
    | Abandon(task: nat)
    | Crash
    | Reboot

  predicate Routes(tx: Transaction) {
    match tx
    case TxFrame(_, _, frame) => frame.ReportFrame?
    case TxAssign(_, _, _, _, _) => true
    case TxActivate(_, _, _) => true
    case TxAdvance(_) => true
    case TxApprove => true
    case TxSetWorkflow(_) => true
    case TxControl(_, _, _, _) => true
    case TxFinish(_, _, _) => true
    case TxBoot => true
    case _ => false
  }

  ghost predicate ImplementationReported(db: Database, round: nat) {
    exists id :: id in db.reports && db.reports[id].role == Implementer && db.reports[id].kind == Implementation && db.reports[id].round == round
  }

  ghost predicate RoleReported(db: Database, role: Role, round: nat) {
    exists id :: id in db.reports && db.reports[id].role == role && db.reports[id].round == round
  }

  /** Every configured specialist is decided, and those that run have reported. */
  ghost predicate SpecialistsSettled(config: Config, db: Database, round: nat) {
    forall s :: s in config.specialists ==>
      (s, round) in db.activations && (db.activations[(s, round)] ==> RoleReported(db, s, round))
  }

  ghost predicate ReviewAssigned(db: Database, round: nat) {
    exists id :: id in db.assignments && db.assignments[id].role == Reviewer && db.assignments[id].round == round
  }

  /** The role was given work of this kind in this round. */
  ghost predicate AlreadyGiven(db: Database, role: Role, kind: Kind, round: nat) {
    exists id :: id in db.assignments && db.assignments[id].role == role && db.assignments[id].kind == kind && db.assignments[id].round == round
  }

  ghost predicate ReviewDue(config: Config, db: Database, round: nat) {
    ImplementationReported(db, round) && SpecialistsSettled(config, db, round) && !ReviewAssigned(db, round)
  }

  function AssignAll(roles: seq<Role>, round: nat): seq<Task> {
    seq(|roles|, i requires 0 <= i < |roles| => AssignTo(roles[i], Specialist, round))
  }

  /** The configured specialists without a decision that the rules run. */
  function NewlyRun(db: Database, specialists: seq<Role>, round: nat, run: set<Role>): seq<Role> {
    if specialists == [] then []
    else (if (specialists[0], round) !in db.activations && specialists[0] in run then [specialists[0]] else [])
         + NewlyRun(db, specialists[1..], round, run)
  }

  function RouteReport(config: Config, role: Role, round: nat, kind: Kind, verdict: Verdict, run: set<Role>): seq<Task> {
    match role
    case Implementer =>
      if kind == Plan then (if config.phased then [AssignTo(Implementer, Implementation, round)] else [])
      else [ActivateRound(round, run)]
    case Reviewer => if verdict == Approved then [ApproveRun] else [AdvanceTo(round + 1)]
    case _ => [ReviewCheck(round)]
  }

  function StartTasks(config: Config, probe: bool): seq<Task> {
    [SetActive]
    + (if Probe in config.specialists then [DecideProbe(probe)] else [])
    + [AssignTo(Implementer, if config.phased then Plan else Implementation, 1)]
  }

  ghost function TaskDatabase(config: Config, db: Database, task: Task, connected: bool, id: AssignmentId, delivery: DeliveryId): Database {
    match task
    case SetActive => SetWorkflow(db, Active)
    case DecideProbe(run) => Activate(db, [Probe], 1, if run then {Probe} else {})
    case AssignTo(role, kind, round) => if connected then Assign(db, role, kind, round, id, delivery) else db
    case ActivateRound(round, run) => Activate(db, config.specialists, round, run)
    case ReviewCheck(_) => db
    case ApproveRun => Approve(db)
    case AdvanceTo(round) => Advance(db, round)
    case ConfirmRepair(round) => if Unconfirmed(db, round) then SetWorkflow(db, Uncertain) else db
  }

  ghost predicate Unconfirmed(db: Database, round: nat) {
    db.pending == Some(round) || !AlreadyGiven(db, Implementer, Implementation, round)
  }

  /** What is left of a task after its first action ran on `db`. */
  ghost function TaskRest(config: Config, db: Database, task: Task, rest: seq<Task>): seq<Task> {
    match task
    case DecideProbe(run) => rest + if run then [AssignTo(Probe, Specialist, 1)] else []
    case ActivateRound(round, run) =>
      AssignAll(NewlyRun(db, config.specialists, round, run), round) + [ReviewCheck(round)] + rest
    case ReviewCheck(round) => if ReviewDue(config, db, round) then [AssignTo(Reviewer, Review, round)] + rest else rest
    case AdvanceTo(round) => [AssignTo(Implementer, Implementation, round)] + rest
    case _ => rest
  }

  function Started(tasks: seq<seq<Task>>, task: seq<Task>): seq<seq<Task>> {
    if task == [] then tasks else tasks + [task]
  }

  function Replaced(tasks: seq<seq<Task>>, i: nat, task: seq<Task>): seq<seq<Task>>
    requires i < |tasks|
  {
    if task == [] then tasks[..i] + tasks[i + 1..] else tasks[i := task]
  }

  /** The routing task that an approved continuation starts. */
  function CommandTask(db: Database, action: Action): seq<Task> {
    if action.Continue? && db.pending.Some?
    then [AssignTo(Implementer, Implementation, db.pending.value), ConfirmRepair(db.pending.value)]
    else []
  }

  /** The routing task that a written command starts. */
  function PlanTask(plan: Plan): seq<Task> {
    match plan
    case Reopening(round) => [AssignTo(Implementer, Implementation, round)]
    case _ => []
  }

  /** The command in flight that this move writes. */
  predicate Writes(s: Schedule, move: Move) {
    && move.Sent? && move.send < |s.sends|
    && s.sends[move.send].role in s.db.roles && s.sends[move.send].command !in s.db.commands
  }

  /** The transaction a move commits, if it commits one. */
  ghost function MoveDatabase(config: Config, s: Schedule, move: Move): Database {
    match move
    case Background(tx) => if Routes(tx) then s.db else Apply(s.db, tx)
    case Begin(_) => if s.db.workflow == Connecting then SetWorkflow(s.db, Initializing) else s.db
    case Submit(role, generation, id, kind, verdict, _) => Receive(s.db, role, generation, ReportFrame(id, kind, verdict))
    case Operate(command, action, role, link) => Control(s.db, command, action, role, link)
    case Proceed(i, connected, id, delivery) =>
      if i < |s.tasks| && s.tasks[i] != [] then TaskDatabase(config, s.db, s.tasks[i][0], connected, id, delivery) else s.db
    case Sent(i) => if i < |s.sends| then Finish(s.db, s.sends[i].command, s.sends[i].role, s.sends[i].plan) else s.db
    case Unsent(_) => s.db
    case Fail(_) => SetWorkflow(s.db, Uncertain)
    case Abandon(_) => s.db
    case Crash => s.db
    case Reboot => Boot(s.db)
  }

  ghost function MoveTasks(config: Config, s: Schedule, move: Move): seq<seq<Task>> {
    match move
    case Background(_) => s.tasks
    case Begin(probe) => if s.db.workflow == Connecting then Started(s.tasks, StartTasks(config, probe)) else s.tasks
    case Submit(role, generation, id, kind, verdict, run) =>
      if role in s.db.roles && s.db.roles[role].generation == generation && Reportable(s.db, role, id, kind)
      then Started(s.tasks, RouteReport(config, role, s.db.assignments[id].round, kind, verdict, run))
      else s.tasks
    case Operate(command, action, role, link) =>
      if ControlStatus(s.db, command, action, role, link) == Some(StatusAccepted)
      then Started(s.tasks, CommandTask(s.db, action))
      else s.tasks
    case Sent(i) => if Writes(s, move) then Started(s.tasks, PlanTask(s.sends[i].plan)) else s.tasks
    case Unsent(_) => s.tasks
    case Proceed(i, connected, id, delivery) =>
      if i < |s.tasks| && s.tasks[i] != []
      then Replaced(s.tasks, i, TaskRest(config, s.db, s.tasks[i][0], s.tasks[i][1..]))
      else s.tasks
    case Fail(i) => if i < |s.tasks| then Replaced(s.tasks, i, []) else s.tasks
    case Abandon(i) => if i < |s.tasks| then Replaced(s.tasks, i, []) else s.tasks
    case Crash => []
    case Reboot => []
  }

  function Without(sends: seq<Sending>, i: nat): seq<Sending> {
    if i < |sends| then sends[..i] + sends[i + 1..] else sends
  }

  function MoveSends(s: Schedule, move: Move): seq<Sending> {
    match move
    case Operate(command, action, role, link) =>
      if Awaits(action) && ControlStatus(s.db, command, action, role, link) == Some(StatusAccepted)
      then s.sends + [Sending(command, role, Planned(s.db, action, role))]
      else s.sends
    case Sent(i) => Without(s.sends, i)
    case Unsent(i) => Without(s.sends, i)
    case Crash => []
    case Reboot => []
    case _ => s.sends
  }

  ghost function Next(config: Config, s: Schedule, move: Move): Schedule {
    Schedule(MoveDatabase(config, s, move), MoveTasks(config, s, move), MoveSends(s, move))
  }

  ghost function Play(config: Config, moves: seq<Move>): Schedule {
    if moves == [] then Schedule(InitialDatabase(config), [], [])
    else Next(config, Play(config, moves[..|moves| - 1]), moves[|moves| - 1])
  }

  // ----- tasks that overlap -----

  /** The actions still to be taken, over all tasks. */
  function Actions(tasks: seq<seq<Task>>): multiset<Task> {
    if tasks == [] then multiset{} else multiset(tasks[0]) + Actions(tasks[1..])
  }

  /** This move gives a role work of a kind that it was given in this round
      already: the check it follows was passed before another one was stored. */
  ghost predicate Untimely(s: Schedule, move: Move) {
    && move.Proceed? && move.connected && move.task < |s.tasks| && s.tasks[move.task] != []
    && var a := s.tasks[move.task][0];
       && a.AssignTo? && Assignable(s.db, a.role, move.id, move.delivery)
       && AlreadyGiven(s.db, a.role, a.kind, a.round)
  }

  /** This move writes a reopening of a round that is over: the run went on while
      the guidance was being sent. */
  predicate Regresses(s: Schedule, move: Move) {
    Writes(s, move) && s.sends[move.send].plan.Reopening? && s.sends[move.send].plan.round < s.db.round
  }

  /** Work is given once, and no round comes back: whenever something is stored,
      what was read for it still holds. */
  ghost predicate Timely(config: Config, moves: seq<Move>) {
    forall i :: 0 <= i < |moves| ==>
      !Untimely(Play(config, moves[..i]), moves[i]) && !Regresses(Play(config, moves[..i]), moves[i])
  }

  /** This move passes the check for a review. */
  ghost predicate PassesCheck(config: Config, s: Schedule, move: Move) {
    && move.Proceed? && move.task < |s.tasks| && s.tasks[move.task] != []
    && s.tasks[move.task][0].ReviewCheck? && ReviewDue(config, s.db, s.tasks[move.task][0].round)
  }

  /** Guidance that makes a waiting or an approved run active once it is written,
      whatever has become of the run by then. */
  predicate Waking(plan: Plan) {
    plan.Reopening? || plan == Guiding(true)
  }

  /** This move accepts guidance of that kind. */
  predicate Wakes(s: Schedule, move: Move) {
    && move.Operate? && Awaits(move.action)
    && ControlStatus(s.db, move.command, move.action, move.role, move.link) == Some(StatusAccepted)
    && Waking(Planned(s.db, move.action, move.role))
  }

  /** Only the end of task `i`, or its next action, comes next. */
  predicate TaskNext(next: Move, i: nat) {
    match next
    case Proceed(task, _, _, _) => task == i
    case Fail(task) => task == i
    case Abandon(task) => task == i
    case Crash => true
    case Reboot => true
    case _ => false
  }

  /** Only the fate of command `i` comes next. */
  predicate SendNext(next: Move, i: nat) {
    match next
    case Sent(send) => send == i
    case Unsent(send) => send == i
    case Crash => true
    case Reboot => true
    case _ => false
  }

  /** Nothing comes between a check that passes and the assignment it leads to, or
      between the check of guidance that wakes a run and its write. */
  ghost predicate Prompt(config: Config, moves: seq<Move>) {
    forall i :: 0 <= i < |moves| - 1 ==>
      var s := Play(config, moves[..i]);
      && (PassesCheck(config, s, moves[i]) ==> TaskNext(moves[i + 1], moves[i].task))
      && (Wakes(s, moves[i]) ==> SendNext(moves[i + 1], |s.sends|))
  }

  /** Every schedule is a run of the store: all that holds over runs of
      arbitrary transactions holds over schedules. */
  ghost function MoveTransaction(config: Config, s: Schedule, move: Move): seq<Transaction> {
    match move
    case Background(tx) => if Routes(tx) then [] else [tx]
    case Begin(_) => if s.db.workflow == Connecting then [TxSetWorkflow(Initializing)] else []
    case Submit(role, generation, id, kind, verdict, _) => [TxFrame(role, generation, ReportFrame(id, kind, verdict))]
    case Operate(command, action, role, link) => [TxControl(command, action, role, link)]
    case Proceed(i, connected, id, delivery) =>
      if !(i < |s.tasks| && s.tasks[i] != []) then []
      else (match s.tasks[i][0]
            case SetActive => [TxSetWorkflow(Active)]
            case DecideProbe(run) => [TxActivate([Probe], 1, if run then {Probe} else {})]
            case AssignTo(role, kind, round) => if connected then [TxAssign(role, kind, round, id, delivery)] else []
            case ActivateRound(round, run) => [TxActivate(config.specialists, round, run)]
            case ReviewCheck(_) => []
            case ApproveRun => [TxApprove]
            case AdvanceTo(round) => [TxAdvance(round)]
            case ConfirmRepair(round) => if Unconfirmed(s.db, round) then [TxSetWorkflow(Uncertain)] else [])
    case Sent(i) => if i < |s.sends| then [TxFinish(s.sends[i].command, s.sends[i].role, s.sends[i].plan)] else []
    case Unsent(_) => []
    case Fail(_) => [TxSetWorkflow(Uncertain)]
    case Abandon(_) => []
    case Crash => []
    case Reboot => [TxBoot]
  }

  ghost function Committed(config: Config, moves: seq<Move>): seq<Transaction> {
    if moves == [] then []
    else Committed(config, moves[..|moves| - 1])
         + MoveTransaction(config, Play(config, moves[..|moves| - 1]), moves[|moves| - 1])
  }

  lemma MoveCommits(config: Config, s: Schedule, move: Move)
    ensures var tx := MoveTransaction(config, s, move);
            |tx| <= 1 && MoveDatabase(config, s, move) == if tx == [] then s.db else Apply(s.db, tx[0])
  {
    match move
    case Background(tx) => if Routes(tx) {} else {}
    case Begin(_) =>
    case Submit(role, generation, id, kind, verdict, _) =>
    case Operate(command, action, role, link) =>
    case Proceed(i, connected, id, delivery) => if i < |s.tasks| && s.tasks[i] != [] { TaskCommits(config, s, move); }
    case Sent(i) => if i < |s.sends| {} else {}
    case _ =>
  }

  lemma TaskCommits(config: Config, s: Schedule, move: Move)
    requires move.Proceed? && move.task < |s.tasks| && s.tasks[move.task] != []
    ensures var tx := MoveTransaction(config, s, move);
            |tx| <= 1 && MoveDatabase(config, s, move) == if tx == [] then s.db else Apply(s.db, tx[0])
  {
    match s.tasks[move.task][0]
    case SetActive =>
    case DecideProbe(runs) =>
    case AssignTo(role, kind, round) => if move.connected {} else {}
    case ActivateRound(round, run) =>
    case ReviewCheck(_) =>
    case ApproveRun =>
    case AdvanceTo(round) =>
    case ConfirmRepair(round) => if Unconfirmed(s.db, round) {} else {}
  }

  lemma {:induction false} ScheduleIsRun(config: Config, moves: seq<Move>)
    ensures Play(config, moves).db == Run(InitialDatabase(config), Committed(config, moves))
    decreases |moves|
  {
    if moves != [] {
      var shorter, last := moves[..|moves| - 1], moves[|moves| - 1];
      ScheduleIsRun(config, shorter);
      var tx := MoveTransaction(config, Play(config, shorter), last);
      var txs := Committed(config, shorter);
      MoveCommits(config, Play(config, shorter), last);
      if tx == [] {
        assert txs + tx == txs;
      } else {
        assert tx == [tx[0]];
        assert (txs + tx)[..|txs + tx| - 1] == txs;
        assert (txs + tx)[|txs + tx| - 1] == tx[0];
      }
    }
  }
}
