/** Repair-round admission over every run. */

module Repair {
  import opened Options
  import opened Tables
  import opened Transactions
  import opened Runs
  import opened Monotone

  ghost predicate WithinCap(db: Database) {
    db.cap.Some? ==> |RepairRounds(db)| <= db.cap.value
  }

  predicate Continues(db: Database, tx: Transaction) {
    tx.TxControl? && tx.action.Continue? && ControlStatus(db, tx.command, tx.action, tx.role, tx.link) == Some(StatusAccepted)
  }

  /** The `continue` commands accepted along a run. */
  function Continued(db: Database, txs: seq<Transaction>): nat {
    if txs == [] then 0
    else
      var before, last := Run(db, txs[..|txs| - 1]), txs[|txs| - 1];
      Continued(db, txs[..|txs| - 1]) + if Continues(before, last) then 1 else 0
  }

  ghost predicate SameWork(db: Database, after: Database) {
    && after.assignments.Keys == db.assignments.Keys
    && forall id :: id in db.assignments ==>
         && after.assignments[id].role == db.assignments[id].role
         && after.assignments[id].round == db.assignments[id].round
         && after.assignments[id].kind == db.assignments[id].kind
  }

  lemma SameRepairRounds(db: Database, after: Database)
    requires SameWork(db, after)
    ensures RepairRounds(after) == RepairRounds(db)
  {
    forall round | round in RepairRounds(db) ensures round in RepairRounds(after) {
      var id :| id in db.assignments && IsRepair(db.assignments[id]) && db.assignments[id].round == round;
      assert id in after.assignments && IsRepair(after.assignments[id]);
    }
    forall round | round in RepairRounds(after) ensures round in RepairRounds(db) {
      var id :| id in after.assignments && IsRepair(after.assignments[id]) && after.assignments[id].round == round;
      assert id in db.assignments && IsRepair(db.assignments[id]);
    }
  }

  lemma InsertRounds(db: Database, after: Database, id: AssignmentId, row: Assignment)
    requires id !in db.assignments && after.assignments == db.assignments[id := row]
    ensures RepairRounds(after) == RepairRounds(db) + if IsRepair(row) then {row.round} else {}
  {
    forall round | round in RepairRounds(db) ensures round in RepairRounds(after) {
      var old_ :| old_ in db.assignments && IsRepair(db.assignments[old_]) && db.assignments[old_].round == round;
      assert old_ in after.assignments && after.assignments[old_] == db.assignments[old_];
    }
    if IsRepair(row) {
      assert id in after.assignments && after.assignments[id] == row;
    }
  }

  lemma AssignWithin(db: Database, role: Role, kind: Kind, round: nat, id: AssignmentId, delivery: DeliveryId)
    requires WithinCap(db)
    ensures var after := Assign(db, role, kind, round, id, delivery); WithinCap(after) && after.cap == db.cap
  {
    var after := Assign(db, role, kind, round, id, delivery);
    if !Assignable(db, role, id, delivery) {
    } else if RepairLimitReached(db, role, kind, round) {
      SameRepairRounds(db, after);
    } else {
      GivenRows(db, role, kind, round, id, delivery);
      InsertRounds(db, after, id, NewAssignment(role, kind, round, delivery));
    }
  }

  lemma EffectWithin(db: Database, id: CommandId, action: Action, role: Role)
    requires role in db.roles && WithinCap(db)
    ensures var after := ControlEffect(db, id, action, role);
            && RepairRounds(after) == RepairRounds(db)
            && after.cap == if action == Continue && db.cap.Some? then Some(db.cap.value + 1) else db.cap
  {
    var after := ControlEffect(db, id, action, role);
    match action
    case RestartFailed => QuietUncertain(db, role); SameRepairRounds(db, after);
    case ExtendCalls(amount) => SameRepairRounds(db, after);
    case Continue => SameRepairRounds(db, after);
    case Restart => SameRepairRounds(db, after);
    case _ =>
  }

  lemma FinishWithin(db: Database, id: CommandId, role: Role, plan: Plan)
    ensures var after := Finish(db, id, role, plan); RepairRounds(after) == RepairRounds(db) && after.cap == db.cap
  {
    if role in db.roles && id !in db.commands {
      PlanSameWork(db, id, role, plan);
      SameRepairRounds(db, Receipted(PlanEffect(db, id, role, plan), id, Command(PlanAction(plan), role, StatusAccepted)));
    }
  }

  lemma PlanSameWork(db: Database, id: CommandId, role: Role, plan: Plan)
    requires role in db.roles
    ensures SameWork(db, PlanEffect(db, id, role, plan)) && PlanEffect(db, id, role, plan).cap == db.cap
  {
    if plan.Guiding? { ShapedResume(db, id, role, plan.waking); }
  }

  lemma ControlWithin(db: Database, id: CommandId, action: Action, role: Role, link: Link)
    requires WithinCap(db)
    ensures var after := Control(db, id, action, role, link);
            && WithinCap(after)
            && after.cap == if Continues(db, TxControl(id, action, role, link)) then Some(db.cap.value + 1) else db.cap
    ensures Continues(db, TxControl(id, action, role, link)) ==> db.cap.Some?
  {
    match ControlStatus(db, id, action, role, link)
    case None =>
    case Some(status) =>
      if status != StatusAccepted {
        SameRepairRounds(db, Receipted(db, id, Command(action, role, status)));
      } else if !Awaits(action) {
        AcceptedCap(db, id, action, role, link);
        AcceptedWithin(db, id, action, role);
      }
  }

  lemma AcceptedWithin(db: Database, id: CommandId, action: Action, role: Role)
    requires role in db.roles && WithinCap(db) && (action == Continue ==> db.cap.Some?)
    ensures var after := Receipted(ControlEffect(db, id, action, role), id, Command(action, role, StatusAccepted));
            WithinCap(after) && after.cap == if action == Continue then Some(db.cap.value + 1) else db.cap
  {
    EffectWithin(db, id, action, role);
    SameRepairRounds(ControlEffect(db, id, action, role), Receipted(ControlEffect(db, id, action, role), id, Command(action, role, StatusAccepted)));
  }

  lemma AcceptedCap(db: Database, id: CommandId, action: Action, role: Role, link: Link)
    requires ControlStatus(db, id, action, role, link) == Some(StatusAccepted) && !Awaits(action)
    ensures action == Continue ==> db.cap.Some?
    ensures Control(db, id, action, role, link) == Receipted(ControlEffect(db, id, action, role), id, Command(action, role, StatusAccepted))
  {
  }

  lemma ReportWithin(db: Database, role: Role, generation: nat, id: AssignmentId, kind: Kind, verdict: Verdict)
    ensures var after := AcceptReport(db, role, generation, id, kind, verdict);
            RepairRounds(after) == RepairRounds(db) && after.cap == db.cap
  {
    var after := AcceptReport(db, role, generation, id, kind, verdict);
    if Reportable(db, role, id, kind) {
      SameRepairRounds(db, after);
    } else if DuplicateReport(db, role, id, kind) {
    } else {
      QuietRejection(db, role, generation, id, None);
      SameRepairRounds(db, after);
    }
  }

  lemma StepWithin(db: Database, tx: Transaction)
    requires WithinCap(db)
    ensures WithinCap(Apply(db, tx))
    ensures Apply(db, tx).cap == if Continues(db, tx) then Some(db.cap.value + 1) else db.cap
    ensures Continues(db, tx) ==> db.cap.Some?
  {
    if Incidental(tx) {
      QuietIncidental(db, tx);
      SameRepairRounds(db, Apply(db, tx));
    } else if tx.TxFrame? {
      match tx.frame
      case ReportFrame(id, kind, verdict) => ReportWithin(db, tx.role, tx.generation, id, kind, verdict);
      case ProviderTurnFrame(id, resume, request) =>
        ShapedProviderTurn(db, tx.role, tx.generation, id, resume, request);
        SameRepairRounds(db, ProviderTurn(db, tx.role, tx.generation, id, resume, request));
    } else if tx.TxControl? {
      ControlWithin(db, tx.command, tx.action, tx.role, tx.link);
    } else if tx.TxFinish? {
      FinishWithin(db, tx.command, tx.role, tx.plan);
    } else if tx.TxAssign? {
      AssignWithin(db, tx.role, tx.kind, tx.round, tx.id, tx.delivery);
    } else {
      SameRepairRounds(db, Apply(db, tx));
    }
  }

  function Raised(cap: Option<nat>, more: nat): Option<nat> {
    match cap case None => None case Some(n) => Some(n + more)
  }

  lemma {:induction false} RunWithin(db: Database, txs: seq<Transaction>)
    requires WithinCap(db)
    ensures WithinCap(Run(db, txs)) && Run(db, txs).cap == Raised(db.cap, Continued(db, txs))
    decreases |txs|
  {
    if txs != [] {
      var earlier := txs[..|txs| - 1];
      RunWithin(db, earlier);
      ContinuedStep(db, txs);
      RunLast(db, txs);
      OneMore(db.cap, Run(db, earlier), txs[|txs| - 1], Run(db, txs), Continued(db, earlier), Continued(db, txs));
    }
  }

  lemma OneMore(cap: Option<nat>, before: Database, tx: Transaction, after: Database, continued: nat, more: nat)
    requires WithinCap(before) && before.cap == Raised(cap, continued) && after == Apply(before, tx)
    requires more == continued + if Continues(before, tx) then 1 else 0
    ensures WithinCap(after) && after.cap == Raised(cap, more)
  {
    StepWithin(before, tx);
  }

  /** A run without a cap accepts no `continue`. */
  lemma {:induction false} NeverContinued(db: Database, txs: seq<Transaction>)
    requires db.cap.None? && WithinCap(db)
    ensures Continued(db, txs) == 0
    decreases |txs|
  {
    if txs != [] {
      var earlier := txs[..|txs| - 1];
      NeverContinued(db, earlier);
      RunWithin(db, earlier);
      StepWithin(Run(db, earlier), txs[|txs| - 1]);
      ContinuedStep(db, txs);
    }
  }

  /** The rounds after the first that the implementer was given. */
  ghost function Repaired(db: Database): set<nat> {
    set id | id in db.assignments && db.assignments[id].role == Implementer && db.assignments[id].kind == Implementation
             && db.assignments[id].round > 1 :: db.assignments[id].round
  }

  lemma RepairedRounds(db: Database)
    ensures RepairRounds(db) == Repaired(db)
  {
    forall round | round in RepairRounds(db) ensures round in Repaired(db) {
      var id :| id in db.assignments && IsRepair(db.assignments[id]) && db.assignments[id].round == round;
    }
    forall round | round in Repaired(db) ensures round in RepairRounds(db) {
      var id :| id in db.assignments && db.assignments[id].role == Implementer && db.assignments[id].kind == Implementation
                && db.assignments[id].round > 1 && db.assignments[id].round == round;
      assert IsRepair(db.assignments[id]);
    }
  }

  /** Over every run: a run without a cap stays without one and accepts no
      `continue`; with a cap, it is the initial cap plus the accepted `continue`
      commands, and the distinct repair rounds ever assigned never exceed it. */
  lemma RepairConservation(config: Config, txs: seq<Transaction>)
    ensures var db := Run(InitialDatabase(config), txs);
            && db.cap == Raised(config.cap, Continued(InitialDatabase(config), txs))
            && (config.cap.None? ==> Continued(InitialDatabase(config), txs) == 0)
            && (db.cap.Some? ==> |Repaired(db)| <= db.cap.value)
  {
    assert RepairRounds(InitialDatabase(config)) == {};
    RunWithin(InitialDatabase(config), txs);
    RepairedRounds(Run(InitialDatabase(config), txs));
    if config.cap.None? { NeverContinued(InitialDatabase(config), txs); }
  }

  lemma ContinuedStep(db: Database, txs: seq<Transaction>)
    requires txs != []
    ensures var earlier := txs[..|txs| - 1];
            Continued(db, txs) == Continued(db, earlier) + if Continues(Run(db, earlier), txs[|txs| - 1]) then 1 else 0
  {
  }

  /** At the cap the next repair is not assigned: the run pauses on that round,
      and the pause is what a `continue` needs. */
  lemma PausesAtCap(db: Database, round: nat, id: AssignmentId, delivery: DeliveryId)
    requires WithinCap(db) && db.cap.Some? && round > 1 && Assignable(db, Implementer, id, delivery)
    ensures var after := Assign(db, Implementer, Implementation, round, id, delivery);
            if |Repaired(db)| == db.cap.value
            then after == db.(workflow := NeedsAttention, pending := Some(round))
            else id in after.assignments && after.pending == None
  {
    RepairedRounds(db);
  }
}
