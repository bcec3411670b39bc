/** An approved repair continuation: what it admits, and what is left of it when
    the broker is lost before the assignment is stored. */

module Replay {
  import opened Options
  import opened Tables
  import opened Transactions
  import opened Runs
  import opened Monotone
  import opened Repair
  import opened Routing
  import opened Integrity
  import opened Workflows
  import opened Approval

  lemma PlayNext(config: Config, moves: seq<Move>, move: Move)
    ensures Play(config, moves + [move]) == Next(config, Play(config, moves), move)
  {
    assert (moves + [move])[..|moves + [move]| - 1] == moves;
  }

  lemma LastMove(config: Config, moves: seq<Move>, more: seq<Move>)
    requires more != []
    ensures var n := |more| - 1;
            && moves + more == moves + more[..n] + [more[n]]
            && Play(config, moves + more) == Next(config, Play(config, moves + more[..n]), more[n])
  {
    var n := |more| - 1;
    assert moves + more == moves + more[..n] + [more[n]];
    PlayNext(config, moves + more[..n], more[n]);
  }

  lemma TimelyLast(config: Config, moves: seq<Move>, more: seq<Move>)
    requires Timely(config, moves + more) && more != []
    ensures var n := |more| - 1;
            && Timely(config, moves + more[..n])
            && !Untimely(Play(config, moves + more[..n]), more[n]) && !Regresses(Play(config, moves + more[..n]), more[n])
  {
    var n := |more| - 1;
    LastMove(config, moves, more);
    var all := moves + more;
    assert all[..|all| - 1] == moves + more[..n] && all[|all| - 1] == more[n];
    TimelyPrefix(config, all, |all| - 1);
  }

  // ----- guidance in flight -----

  /** Command `i` in flight wakes the run if it is written next. */
  predicate CanWake(s: Schedule, i: nat) {
    Writes(s, Sent(i)) && Waking(s.sends[i].plan)
  }

  /** No guidance in flight wakes the run. */
  ghost predicate Asleep(s: Schedule) {
    forall i :: 0 <= i < |s.sends| ==> !CanWake(s, i)
  }

  /** None wakes it in its current round. */
  ghost predicate AsleepNow(s: Schedule) {
    forall i :: 0 <= i < |s.sends| && CanWake(s, i) ==> Regresses(s, Sent(i))
  }

  lemma CommandsGrow(config: Config, s: Schedule, move: Move)
    ensures var after := Next(config, s, move).db; s.db.commands.Keys <= after.commands.Keys && after.roles.Keys == s.db.roles.Keys
  {
    MoveCommits(config, s, move);
    var tx := MoveTransaction(config, s, move);
    if tx != [] { StepKeeps(s.db, tx[0]); }
  }

  /** What can wake the run after a move that accepted no waking guidance could
      before. */
  lemma CouldWake(config: Config, s: Schedule, move: Move, j: nat) returns (i: nat)
    requires !Wakes(s, move) && CanWake(Next(config, s, move), j)
    ensures CanWake(s, i) && s.sends[i] == Next(config, s, move).sends[j]
  {
    var next := Next(config, s, move);
    CommandsGrow(config, s, move);
    var gone := if move.Sent? || move.Unsent? then move.send else |s.sends|;
    i := if gone < |s.sends| && gone <= j then j + 1 else j;
    assert move.Operate? ==> j < |s.sends|;
  }

  lemma HaltingWakes(s: Schedule, move: Move)
    requires Halting(s.db.workflow)
    ensures !Wakes(s, move)
  {
  }

  lemma StaysAsleep(config: Config, s: Schedule, move: Move)
    requires Asleep(s) && Halting(s.db.workflow)
    ensures Asleep(Next(config, s, move))
  {
    HaltingWakes(s, move);
    forall j | 0 <= j < |Next(config, s, move).sends| ensures !CanWake(Next(config, s, move), j) {
      if CanWake(Next(config, s, move), j) { var i := CouldWake(config, s, move, j); }
    }
  }

  lemma StaysAsleepNow(config: Config, s: Schedule, move: Move)
    requires AsleepNow(s) && Halting(s.db.workflow) && s.db.round <= Next(config, s, move).db.round
    ensures AsleepNow(Next(config, s, move))
  {
    HaltingWakes(s, move);
    forall j | 0 <= j < |Next(config, s, move).sends| && CanWake(Next(config, s, move), j) ensures Regresses(Next(config, s, move), Sent(j)) {
      var i := CouldWake(config, s, move, j);
    }
  }

  /** Waking guidance takes a run with nothing at work out of its halt. */
  lemma WokenNow(config: Config, s: Schedule, i: nat)
    requires CanWake(s, i) && NoneActive(s.db)
    ensures var after := Next(config, s, Sent(i)).db;
            && (after.workflow == Active || after.workflow == NeedsAttention)
            && after.assignments == s.db.assignments && after.pending == s.db.pending && after.cap == s.db.cap
            && Interrupted(after) <= Interrupted(s.db)
  {
    var x := s.sends[i];
    SentNext(config, s, i);
    match x.plan
    case Reopening(_) =>
    case Guiding(_) => assert ResumeBound(s.db, x.command, x.role) == s.db;
  }

  // ----- a stopped run -----

  /** Uncertain, with no work open and no routing under way. */
  ghost predicate Stopped(s: Schedule) {
    s.db.workflow == Uncertain && NoneActive(s.db) && s.tasks == []
  }

  lemma StoppedBackground(config: Config, s: Schedule, tx: Transaction)
    requires Stopped(s) && !Routes(tx)
    ensures Stopped(s.(db := Apply(s.db, tx))) && Apply(s.db, tx).assignments.Keys == s.db.assignments.Keys
  {
    if Incidental(tx) {
      QuietIncidental(s.db, tx);
      BackgroundMoves(s.db, tx);
    } else {
      assert Apply(s.db, tx) == s.db;
    }
  }

  lemma StoppedControl(config: Config, s: Schedule, move: Move)
    requires Stopped(s) && move.Operate?
    ensures var next := Next(config, s, move); Stopped(next) && next.db.assignments.Keys == s.db.assignments.Keys
  {
    OperateNext(config, s, move.command, move.action, move.role, move.link);
    if ControlStatus(s.db, move.command, move.action, move.role, move.link) == Some(StatusAccepted) {
      assert !move.action.Continue?;
      ControlAligned(s.db, move.command, move.action, move.role);
    }
  }

  lemma StoppedSent(config: Config, s: Schedule, i: nat)
    requires Stopped(s) && !CanWake(s, i)
    ensures var next := Next(config, s, Sent(i)); Stopped(next) && next.db.assignments.Keys == s.db.assignments.Keys
  {
    if Writes(s, Sent(i)) {
      var x := s.sends[i];
      SentNext(config, s, i);
      if x.plan.Guiding? { assert ResumeBound(s.db, x.command, x.role) == s.db; }
    }
  }

  lemma StoppedMove(config: Config, s: Schedule, move: Move)
    requires Stopped(s) && (move.Sent? ==> !CanWake(s, move.send))
    ensures var next := Next(config, s, move); Stopped(next) && next.db.assignments.Keys == s.db.assignments.Keys
  {
    match move
    case Background(tx) => if !Routes(tx) { StoppedBackground(config, s, tx); }
    case Submit(role, generation, id, kind, verdict, run) =>
      QuietRejection(s.db, role, generation, id, None);
      RejectionMoves(s.db, role, generation, id, None);
    case Operate(_, _, _, _) => StoppedControl(config, s, move);
    case Sent(i) => StoppedSent(config, s, i);
    case Reboot => QuietBoot(s.db); BootMoves(s.db);
    case _ =>
  }

  ghost predicate StillStopped(config: Config, moves: seq<Move>, more: seq<Move>) {
    var after := Play(config, moves + more).db;
    after.workflow == Uncertain && after.assignments.Keys == Play(config, moves).db.assignments.Keys
  }

  lemma {:induction false} StoppedOn(config: Config, moves: seq<Move>, more: seq<Move>)
    requires Stopped(Play(config, moves)) && Asleep(Play(config, moves))
    ensures Stopped(Play(config, moves + more)) && Asleep(Play(config, moves + more)) && StillStopped(config, moves, more)
    decreases |more|
  {
    if more == [] {
      assert moves + more == moves;
    } else {
      var n := |more| - 1;
      StoppedOn(config, moves, more[..n]);
      LastMove(config, moves, more);
      StoppedMove(config, Play(config, moves + more[..n]), more[n]);
      StaysAsleep(config, Play(config, moves + more[..n]), more[n]);
    }
  }

  /** A stopped run stays uncertain and is assigned nothing, whatever follows, if
      and only if no waking guidance is in flight when it stops. */
  lemma StoppedForever(config: Config, moves: seq<Move>)
    requires Stopped(Play(config, moves))
    ensures Asleep(Play(config, moves)) <==> forall more :: StillStopped(config, moves, more)
  {
    var s := Play(config, moves);
    if Asleep(s) {
      forall more ensures StillStopped(config, moves, more) { StoppedOn(config, moves, more); }
    } else {
      var i :| 0 <= i < |s.sends| && CanWake(s, i);
      WokenNow(config, s, i);
      PlayNext(config, moves, Sent(i));
      assert !StillStopped(config, moves, [Sent(i)]);
    }
  }

  // ----- a halted run -----

  lemma HaltedSubmit(s: Schedule, role: Role, generation: nat, id: AssignmentId, kind: Kind, verdict: Verdict)
    requires Halted(s.db)
    ensures Receive(s.db, role, generation, ReportFrame(id, kind, verdict)) == s.db
    ensures role in s.db.roles ==> !Reportable(s.db, role, id, kind)
  {
  }

  lemma HaltedOperate(config: Config, s: Schedule, move: Move)
    requires Halted(s.db) && move.Operate?
    ensures var next := Next(config, s, move);
            Halted(next.db) && next.db.assignments.Keys == s.db.assignments.Keys && next.tasks == s.tasks
  {
    OperateNext(config, s, move.command, move.action, move.role, move.link);
    if ControlStatus(s.db, move.command, move.action, move.role, move.link) == Some(StatusAccepted) {
      assert !move.action.Continue?;
      HaltedControl(s.db, move.command, move.action, move.role);
    }
  }

  lemma HaltedSent(config: Config, s: Schedule, i: nat)
    requires Halted(s.db) && !CanWake(s, i)
    ensures var next := Next(config, s, Sent(i));
            Halted(next.db) && next.db.assignments == s.db.assignments && next.tasks == s.tasks && next.db.pending == s.db.pending
  {
    if Writes(s, Sent(i)) {
      SentNext(config, s, i);
      HaltedPlan(s.db, s.sends[i].command, s.sends[i].role, s.sends[i].plan);
    }
  }

  /** Only a routing task or waking guidance takes a halted run out of its state. */
  lemma HaltedMove(config: Config, s: Schedule, move: Move)
    requires Halted(s.db) && (move.Proceed? ==> s.tasks == []) && (move.Sent? ==> !CanWake(s, move.send))
    ensures var next := Next(config, s, move);
            Halted(next.db) && next.db.assignments.Keys == s.db.assignments.Keys && (s.tasks == [] ==> next.tasks == [])
  {
    match move
    case Background(tx) => if !Routes(tx) { HaltedBackground(s.db, tx); }
    case Submit(role, generation, id, kind, verdict, run) => HaltedSubmit(s, role, generation, id, kind, verdict);
    case Operate(_, _, _, _) => HaltedOperate(config, s, move);
    case Sent(i) => HaltedSent(config, s, i);
    case Reboot => HaltedBoot(s.db);
    case _ =>
  }

  lemma {:induction false} HaltedForever(config: Config, moves: seq<Move>, more: seq<Move>)
    requires Halted(Play(config, moves).db) && Asleep(Play(config, moves))
    requires Play(config, moves).tasks == [] || forall m :: m in more ==> !m.Proceed?
    ensures var end := Play(config, moves + more);
            && Halted(end.db) && Asleep(end) && end.db.assignments.Keys == Play(config, moves).db.assignments.Keys
            && (Play(config, moves).tasks == [] ==> end.tasks == [])
    decreases |more|
  {
    if more == [] {
      assert moves + more == moves;
    } else {
      var n := |more| - 1;
      HaltedForever(config, moves, more[..n]);
      LastMove(config, moves, more);
      HaltedMove(config, Play(config, moves + more[..n]), more[n]);
      StaysAsleep(config, Play(config, moves + more[..n]), more[n]);
    }
  }

  /** The broker is lost after `during`, and comes back; `down` and `more` are
      what happens before and after it is back. */
  ghost predicate StaysLost(config: Config, moves: seq<Move>, during: seq<Move>, down: seq<Move>, more: seq<Move>) {
    var lost := Play(config, moves + during + [Crash] + down + [Reboot] + more).db;
    lost.workflow == Uncertain && lost.assignments.Keys == Play(config, moves).db.assignments.Keys
  }

  /** A halted run whose broker is lost comes back uncertain and stays so: what
      was in flight is lost too. */
  lemma LostForever(config: Config, moves: seq<Move>, during: seq<Move>, down: seq<Move>, more: seq<Move>)
    requires Halted(Play(config, moves + during).db)
    requires Play(config, moves + during).db.assignments.Keys == Play(config, moves).db.assignments.Keys
    ensures StaysLost(config, moves, during, down, more)
  {
    CrashedPlay(config, moves + during);
    BootedForever(config, moves + during + [Crash], down, more);
  }

  lemma CrashedPlay(config: Config, moves: seq<Move>)
    ensures Play(config, moves + [Crash]) == Schedule(Play(config, moves).db, [], [])
  {
    PlayNext(config, moves, Crash);
  }

  lemma BootedForever(config: Config, gone: seq<Move>, down: seq<Move>, more: seq<Move>)
    requires var s := Play(config, gone); Halted(s.db) && s.tasks == [] && s.sends == []
    ensures var lost := Play(config, gone + down + [Reboot] + more).db;
            lost.workflow == Uncertain && lost.assignments.Keys == Play(config, gone).db.assignments.Keys
  {
    HaltedForever(config, gone, down);
    PlayNext(config, gone + down, Reboot);
    HaltedBoot(Play(config, gone + down).db);
    StoppedOn(config, gone + down + [Reboot], more);
  }

  /** Guidance that wakes the run in between brings it back as it was. */
  lemma WokenIsBack(config: Config, moves: seq<Move>, i: nat)
    requires CanWake(Play(config, moves), i) && NoneActive(Play(config, moves).db) && Interrupted(Play(config, moves).db) == {}
    ensures !StaysLost(config, moves, [Sent(i)], [], [])
  {
    var gone := moves + [Sent(i)] + [Crash];
    WokenNow(config, Play(config, moves), i);
    PlayNext(config, moves, Sent(i));
    PlayNext(config, moves + [Sent(i)], Crash);
    PlayNext(config, gone, Reboot);
    BootsAsItWas(Play(config, gone).db);
    assert gone + [] + [Reboot] + [] == gone + [Reboot];
  }

  lemma BootsAsItWas(db: Database)
    requires (db.workflow == Active || db.workflow == NeedsAttention) && Interrupted(db) == {}
    ensures Boot(db) == db
  {
  }

  // ----- an approved continuation -----

  predicate Approves(s: Schedule, move: Move) {
    move.Operate? && Continues(s.db, TxControl(move.command, move.action, move.role, move.link))
  }

  ghost predicate CapReached(db: Database) {
    db.cap.Some? && |RepairRounds(db)| >= db.cap.value
  }

  /** An approved repair whose assignment is not stored yet. */
  ghost predicate Resuming(config: Config, s: Schedule) {
    && Inv(config, s) && WithinCap(s.db) && AsleepNow(s)
    && s.db.pending.Some? && Halting(s.db.workflow)
    && s.db.cap.Some? && !CapReached(s.db)
  }

  lemma ResumingHalted(config: Config, s: Schedule)
    requires Resuming(config, s)
    ensures Halted(s.db)
  {
    IdleCompleted(s.db);
  }

  /** What one action of a task does while an approved repair waits: nothing,
      unless it is the repair's own assignment or finds that it was not stored. */
  lemma ResumingAction(config: Config, s: Schedule, move: Move)
    requires config.Valid() && Inv(config, s) && s.db.pending.Some? && Halting(s.db.workflow) && move.Proceed? && !Untimely(s, move)
    ensures var after := MoveDatabase(config, s, move);
            || after == s.db || after == SetWorkflow(s.db, Uncertain)
            || CapReached(after) || (after.pending == None && after.assignments.Keys != s.db.assignments.Keys)
  {
    if move.task < |s.tasks| && s.tasks[move.task] != [] {
      var a := s.tasks[move.task][0];
      ActionsHold(s.tasks, move.task, 0);
      ProceedNext(config, s, move);
      if Harmless(config, s.db, a) {
        HarmlessAction(config, s.db, a, move.connected, move.id, move.delivery);
      } else if move.connected && Assignable(s.db, Implementer, move.id, move.delivery) {
        RepairAssigned(s.db, a.round, move.id, move.delivery);
      }
    }
  }

  lemma RepairAssigned(db: Database, round: nat, id: AssignmentId, delivery: DeliveryId)
    requires Assignable(db, Implementer, id, delivery) && round > 1
    ensures var after := Assign(db, Implementer, Implementation, round, id, delivery);
            CapReached(after) || (after.pending == None && after.assignments.Keys != db.assignments.Keys)
  {
    var after := Assign(db, Implementer, Implementation, round, id, delivery);
    AssignRows(db, Implementer, Implementation, round, id, delivery);
    if RepairLimitReached(db, Implementer, Implementation, round) {
      LimitReached(db, after);
    } else {
      assert id in after.assignments.Keys && id !in db.assignments.Keys;
    }
  }

  lemma LimitReached(db: Database, after: Database)
    requires after.assignments == db.assignments && after.cap == db.cap && CapReached(db)
    ensures CapReached(after)
  {
    SameRepairRounds(db, after);
  }

  lemma HarmlessAction(config: Config, db: Database, a: Task, connected: bool, id: AssignmentId, delivery: DeliveryId)
    requires Sound(config, db) && PastReviewed(db) && Opening(db) && Harmless(config, db, a) && ActionOk(config, db, a)
    requires connected && a.AssignTo? && Assignable(db, a.role, id, delivery) ==> !AlreadyGiven(db, a.role, a.kind, a.round)
    ensures var after := TaskDatabase(config, db, a, connected, id, delivery); after == db || after == SetWorkflow(db, Uncertain)
  {
    match a
    case ReviewCheck(_) =>
    case ActivateRound(round, run) => DecidedAlready(config, db, round, run);
    case AssignTo(_, _, _) => GivenAction(config, db, a, connected, id, delivery);
    case ConfirmRepair(_) => ConfirmRows(config, db, a);
  }

  /** Every timely move leaves the repair waiting, or stores an assignment. */
  lemma ResumingMove(config: Config, s: Schedule, move: Move)
    requires config.Valid() && Resuming(config, s) && !Untimely(s, move) && !Regresses(s, move)
    requires Next(config, s, move).db.assignments.Keys == s.db.assignments.Keys
    ensures Resuming(config, Next(config, s, move))
  {
    var next := Next(config, s, move);
    MoveInv(config, s, move);
    CapKept(config, s, move);
    ResumingHalts(config, s, move);
    MoveForward(config, s, move);
    StaysAsleepNow(config, s, move);
  }

  lemma ResumingHalts(config: Config, s: Schedule, move: Move)
    requires config.Valid() && Resuming(config, s) && !Untimely(s, move) && !Regresses(s, move)
    requires var after := Next(config, s, move).db; after.assignments.Keys == s.db.assignments.Keys && !CapReached(after)
    ensures var after := Next(config, s, move).db; after.pending == s.db.pending && Halting(after.workflow)
  {
    if move.Proceed? {
      ResumingAction(config, s, move);
    } else {
      ResumingHalted(config, s);
      HaltedMove(config, s, move);
      MovedPending(config, s, move);
    }
  }

  lemma MovedPending(config: Config, s: Schedule, move: Move)
    requires Halted(s.db) && !move.Proceed? && (move.Sent? ==> !CanWake(s, move.send))
    ensures Next(config, s, move).db.pending == s.db.pending
  {
    match move
    case Background(tx) =>
      if !Routes(tx) {
        if Incidental(tx) { QuietIncidental(s.db, tx); } else { assert Apply(s.db, tx) == s.db; }
      }
    case Submit(role, generation, id, kind, verdict, run) => HaltedSubmit(s, role, generation, id, kind, verdict);
    case Operate(command, action, role, link) =>
      OperateNext(config, s, command, action, role, link);
      if ControlStatus(s.db, command, action, role, link) == Some(StatusAccepted) { ControlAligned(s.db, command, action, role); }
    case Sent(i) => HaltedSent(config, s, i);
    case Reboot => QuietBoot(s.db);
    case _ =>
  }

  /** The cap and the repair rounds under a move, from those of transactions. */
  lemma CapMove(config: Config, s: Schedule, move: Move)
    requires WithinCap(s.db)
    ensures var after := MoveDatabase(config, s, move);
            && WithinCap(after) && KeepsAssignments(s.db, after)
            && (Approves(s, move) ==> s.db.cap.Some?)
            && after.cap == if Approves(s, move) then Some(s.db.cap.value + 1) else s.db.cap
  {
    var tx := MoveTransaction(config, s, move);
    MoveCommits(config, s, move);
    if tx != [] {
      StepWithin(s.db, tx[0]);
      StepKeeps(s.db, tx[0]);
      MoveContinues(config, s, move);
    } else {
      MoveContinues(config, s, move);
    }
  }

  lemma MoveContinues(config: Config, s: Schedule, move: Move)
    ensures var tx := MoveTransaction(config, s, move);
            Approves(s, move) <==> tx != [] && Continues(s.db, tx[0])
  {
    match move
    case Operate(_, _, _, _) =>
    case Background(tx) => if Routes(tx) {} else {}
    case _ =>
  }

  lemma CapKept(config: Config, s: Schedule, move: Move)
    requires WithinCap(s.db) && Halting(s.db.workflow)
    requires Next(config, s, move).db.assignments.Keys == s.db.assignments.Keys
    ensures var after := Next(config, s, move).db;
            WithinCap(after) && after.cap == s.db.cap && RepairRounds(after) == RepairRounds(s.db)
  {
    CapMove(config, s, move);
    SameRepairRounds(s.db, Next(config, s, move).db);
  }

  lemma KeysGrow(config: Config, s: Schedule, move: Move)
    ensures s.db.assignments.Keys <= Next(config, s, move).db.assignments.Keys
  {
    MoveCommits(config, s, move);
    var tx := MoveTransaction(config, s, move);
    if tx != [] { StepKeeps(s.db, tx[0]); }
  }

  lemma {:induction false} PlayGrows(config: Config, moves: seq<Move>, more: seq<Move>)
    ensures Play(config, moves).db.assignments.Keys <= Play(config, moves + more).db.assignments.Keys
    decreases |more|
  {
    if more == [] {
      assert moves + more == moves;
    } else {
      var n := |more| - 1;
      PlayGrows(config, moves, more[..n]);
      LastMove(config, moves, more);
      KeysGrow(config, Play(config, moves + more[..n]), more[n]);
    }
  }

  /** No assignment was stored along the way if none is stored at the end. */
  lemma SameKeysBefore(config: Config, moves: seq<Move>, more: seq<Move>)
    requires more != [] && Play(config, moves + more).db.assignments.Keys == Play(config, moves).db.assignments.Keys
    ensures var n := |more| - 1;
            && Play(config, moves + more[..n]).db.assignments.Keys == Play(config, moves).db.assignments.Keys
            && Next(config, Play(config, moves + more[..n]), more[n]).db.assignments.Keys == Play(config, moves).db.assignments.Keys
            && Play(config, moves + more) == Next(config, Play(config, moves + more[..n]), more[n])
  {
    var n := |more| - 1;
    LastMove(config, moves, more);
    PlayGrows(config, moves, more[..n]);
    KeysGrow(config, Play(config, moves + more[..n]), more[n]);
  }

  lemma {:induction false} ResumingOn(config: Config, moves: seq<Move>, during: seq<Move>)
    requires config.Valid() && Timely(config, moves + during) && Resuming(config, Play(config, moves))
    requires Play(config, moves + during).db.assignments.Keys == Play(config, moves).db.assignments.Keys
    ensures Resuming(config, Play(config, moves + during))
    decreases |during|
  {
    if during == [] {
      assert moves + during == moves;
    } else {
      var n := |during| - 1;
      SameKeysBefore(config, moves, during);
      TimelyLast(config, moves, during);
      ResumingOn(config, moves, during[..n]);
      ResumingMove(config, Play(config, moves + during[..n]), during[n]);
    }
  }

  lemma {:induction false} PlayWithin(config: Config, moves: seq<Move>)
    ensures WithinCap(Play(config, moves).db)
    decreases |moves|
  {
    if moves == [] {
      assert RepairRounds(InitialDatabase(config)) == {};
    } else {
      PlayWithin(config, moves[..|moves| - 1]);
      CapMove(config, Play(config, moves[..|moves| - 1]), moves[|moves| - 1]);
    }
  }

  lemma ApprovedRows(config: Config, s: Schedule, move: Move)
    requires Approves(s, move)
    ensures var next := Next(config, s, move);
            var after := next.db;
            && after.assignments == s.db.assignments && after.workflow == Routing && after.pending == s.db.pending && s.db.pending.Some?
            && NoneActive(after) && s.db.cap.Some? && after.cap == Some(Max(s.db.cap.value, |RepairRounds(s.db)|) + 1)
            && Interrupted(after) == {} && next.sends == s.sends
  {
    OperateNext(config, s, move.command, move.action, move.role, move.link);
  }

  lemma ApprovedResuming(config: Config, s: Schedule, move: Move)
    requires config.Valid() && Inv(config, s) && WithinCap(s.db) && Approves(s, move) && AsleepNow(Next(config, s, move))
    ensures Resuming(config, Next(config, s, move))
    ensures Next(config, s, move).db.assignments.Keys == s.db.assignments.Keys
  {
    MoveInv(config, s, move);
    ApprovedRows(config, s, move);
    CapMove(config, s, move);
    SameRepairRounds(s.db, Next(config, s, move).db);
  }

  /** What happens before the repair is assigned. */
  ghost predicate BeforeStored(config: Config, moves: seq<Move>, during: seq<Move>) {
    Timely(config, moves + during) && Play(config, moves + during).db.assignments.Keys == Play(config, moves).db.assignments.Keys
  }

  lemma LostBeforeStored(config: Config, moves: seq<Move>, approve: Move, during: seq<Move>, down: seq<Move>, more: seq<Move>)
    requires config.Valid() && Timely(config, moves) && Approves(Play(config, moves), approve) && AsleepNow(Play(config, moves + [approve]))
    requires BeforeStored(config, moves + [approve], during)
    ensures StaysLost(config, moves + [approve], during, down, more)
  {
    ScheduleInv(config, moves);
    PlayWithin(config, moves);
    PlayNext(config, moves, approve);
    ApprovedResuming(config, Play(config, moves), approve);
    ResumingOn(config, moves + [approve], during);
    ResumingHalted(config, Play(config, moves + [approve] + during));
    LostForever(config, moves + [approve], during, down, more);
  }

  /** A broker lost after a repair continuation was approved and before its
      assignment was stored comes back uncertain, and assigns nothing again,
      whatever connections, operators and routing tasks do in between: if and only
      if no guidance is in flight at the approval that still wakes the run. */
  lemma CrashAfterApproval(config: Config, moves: seq<Move>, approve: Move)
    requires config.Valid() && Timely(config, moves) && Approves(Play(config, moves), approve)
    ensures AsleepNow(Play(config, moves + [approve])) <==>
            forall during, down, more :: BeforeStored(config, moves + [approve], during) ==> StaysLost(config, moves + [approve], during, down, more)
  {
    var approved := moves + [approve];
    var s := Play(config, approved);
    PlayNext(config, moves, approve);
    if AsleepNow(s) {
      forall during, down, more | BeforeStored(config, approved, during) ensures StaysLost(config, approved, during, down, more) {
        LostBeforeStored(config, moves, approve, during, down, more);
      }
    } else {
      var i :| 0 <= i < |s.sends| && CanWake(s, i) && !Regresses(s, Sent(i));
      ApprovedRows(config, Play(config, moves), approve);
      TimelyMore(config, moves, approve);
      TimelyMore(config, approved, Sent(i));
      PlayNext(config, approved, Sent(i));
      WokenNow(config, s, i);
      WokenIsBack(config, approved, i);
      assert BeforeStored(config, approved, [Sent(i)]);
      assert !StaysLost(config, approved, [Sent(i)], [], []);
    }
  }

  /** No routing task goes on. */
  predicate NothingRouted(during: seq<Move>) {
    forall m :: m in during ==> !m.Proceed?
  }

  /** The same of any schedule, with work given twice as it may be, if every
      assignment was completed when the continuation was approved and no routing
      task went on before the crash. */
  lemma CrashOfAnyRun(config: Config, moves: seq<Move>, approve: Move)
    requires Approves(Play(config, moves), approve) && AllCompleted(Play(config, moves).db)
    ensures Asleep(Play(config, moves + [approve])) <==>
            forall during, down, more :: NothingRouted(during) ==> StaysLost(config, moves + [approve], during, down, more)
  {
    var approved := moves + [approve];
    var s := Play(config, approved);
    PlayNext(config, moves, approve);
    ApprovedRows(config, Play(config, moves), approve);
    if Asleep(s) {
      forall during, down, more | NothingRouted(during) ensures StaysLost(config, approved, during, down, more) {
        HaltedForever(config, approved, during);
        LostForever(config, approved, during, down, more);
      }
    } else {
      var i :| 0 <= i < |s.sends| && CanWake(s, i);
      WokenIsBack(config, approved, i);
      assert NothingRouted([Sent(i)]);
      assert !StaysLost(config, approved, [Sent(i)], [], []);
    }
  }

  /** An open assignment that no role points at can wake an approved run: the run
      stays halted under every transaction that routes nothing if and only if
      there is none. */
  lemma OrphansWake(db: Database)
    requires NoneActive(db) && db.workflow == Routing
    requires forall id :: id in db.assignments ==> db.assignments[id].role in db.roles
    ensures (forall tx :: !Routes(tx) ==> Halting(Apply(db, tx).workflow)) <==> AllCompleted(db)
  {
    if AllCompleted(db) {
      forall tx | !Routes(tx) ensures Halting(Apply(db, tx).workflow) {
        HaltedBackground(db, tx);
      }
    } else {
      var id :| id in db.assignments && db.assignments[id].state != Completed;
      var lost := TxReminderLost(db.assignments[id].role, id);
      assert Apply(db, lost).workflow == NeedsAttention;
      assert !Routes(lost);
    }
  }

  // ----- each approved continuation admits one repair -----

  /** A repair that waits without an approval waits at the cap. */
  ghost predicate PausedAtCap(db: Database) {
    db.pending.Some? && !Halting(db.workflow) ==> CapReached(db)
  }

  lemma GrownRounds(db: Database, after: Database)
    requires KeepsAssignments(db, after)
    ensures |RepairRounds(db)| <= |RepairRounds(after)|
  {
    forall round | round in RepairRounds(db) ensures round in RepairRounds(after) {
      var id :| id in db.assignments && IsRepair(db.assignments[id]) && db.assignments[id].round == round;
      assert id in after.assignments && IsRepair(after.assignments[id]);
    }
    Subset(RepairRounds(db), RepairRounds(after));
  }

  lemma Subset(a: set<nat>, b: set<nat>)
    requires a <= b
    ensures |a| <= |b|
  {
    assert b == a + (b - a);
  }

  /** Only an assignment that meets the cap starts a pause. */
  lemma PendingStep(db: Database, tx: Transaction)
    requires WithinCap(db)
    ensures var after := Apply(db, tx);
            after.pending.Some? ==> after.pending == db.pending || (CapReached(after) && after.workflow == NeedsAttention)
  {
    if Incidental(tx) {
      QuietIncidental(db, tx);
    } else if tx.TxFrame? {
      FramePending(db, tx.role, tx.generation, tx.frame);
    } else if tx.TxControl? {
      ControlPending(db, tx.command, tx.action, tx.role, tx.link);
    } else if tx.TxFinish? {
      FinishPending(db, tx.command, tx.role, tx.plan);
    } else if tx.TxAssign? {
      AssignPending(db, tx.role, tx.kind, tx.round, tx.id, tx.delivery);
    }
  }

  lemma FramePending(db: Database, role: Role, generation: nat, frame: Frame)
    requires !IncidentalFrame(frame)
    ensures Receive(db, role, generation, frame).pending == db.pending
  {
    match frame
    case ReportFrame(id, kind, verdict) =>
    case ProviderTurnFrame(id, resume, request) => ShapedProviderTurn(db, role, generation, id, resume, request);
  }

  lemma ControlPending(db: Database, command: CommandId, action: Action, role: Role, link: Link)
    ensures Control(db, command, action, role, link).pending == db.pending
  {
  }

  lemma FinishPending(db: Database, command: CommandId, role: Role, plan: Plan)
    ensures Finish(db, command, role, plan).pending == db.pending
  {
    if role in db.roles && plan.Guiding? { ShapedResume(db, command, role, plan.waking); }
  }

  lemma AssignPending(db: Database, role: Role, kind: Kind, round: nat, id: AssignmentId, delivery: DeliveryId)
    ensures var after := Assign(db, role, kind, round, id, delivery);
            after.pending.Some? ==> after.pending == db.pending || (CapReached(after) && after.workflow == NeedsAttention)
  {
    if Assignable(db, role, id, delivery) {
      AssignRows(db, role, kind, round, id, delivery);
      if RepairLimitReached(db, role, kind, round) {
        LimitReached(db, Assign(db, role, kind, round, id, delivery));
      }
    }
  }

  lemma MovePending(config: Config, s: Schedule, move: Move)
    requires WithinCap(s.db)
    ensures var after := MoveDatabase(config, s, move);
            after.pending.Some? ==> after.pending == s.db.pending || (CapReached(after) && after.workflow == NeedsAttention)
  {
    var tx := MoveTransaction(config, s, move);
    MoveCommits(config, s, move);
    if tx != [] { PendingStep(s.db, tx[0]); }
  }

  /** A pause at the cap ends with an approval or a stored repair. */
  lemma ReachedMove(config: Config, s: Schedule, move: Move)
    requires WithinCap(s.db) && CapReached(s.db)
    ensures CapReached(MoveDatabase(config, s, move)) || Halting(MoveDatabase(config, s, move).workflow)
  {
    CapMove(config, s, move);
    GrownRounds(s.db, MoveDatabase(config, s, move));
    if Approves(s, move) { ApprovedRows(config, s, move); }
  }

  /** Guidance checked before the pause wakes a run whose continuation was approved
      and whose repair is not stored. */
  ghost predicate Disturbs(s: Schedule, move: Move) {
    move.Sent? && CanWake(s, move.send) && s.db.pending.Some? && Halting(s.db.workflow) && !CapReached(s.db)
  }

  ghost predicate Undisturbed(config: Config, moves: seq<Move>) {
    forall i :: 0 <= i < |moves| ==> !Disturbs(Play(config, moves[..i]), moves[i])
  }

  lemma HaltingMove(config: Config, s: Schedule, move: Move)
    requires config.Valid() && Inv(config, s) && s.db.pending.Some? && Halting(s.db.workflow) && !CapReached(s.db)
    requires !Untimely(s, move) && !Disturbs(s, move)
    ensures var after := MoveDatabase(config, s, move);
            Halting(after.workflow) || CapReached(after) || after.pending == None
  {
    if move.Proceed? {
      ResumingAction(config, s, move);
    } else {
      IdleCompleted(s.db);
      HaltedMove(config, s, move);
    }
  }

  lemma PausedMove(config: Config, s: Schedule, move: Move)
    requires config.Valid() && Inv(config, s) && WithinCap(s.db) && PausedAtCap(s.db) && !Untimely(s, move) && !Disturbs(s, move)
    ensures PausedAtCap(MoveDatabase(config, s, move))
  {
    if s.db.pending.None? {
      MovePending(config, s, move);
    } else if CapReached(s.db) {
      ReachedMove(config, s, move);
    } else {
      HaltingMove(config, s, move);
    }
  }

  lemma UndisturbedPrefix(config: Config, moves: seq<Move>, n: nat)
    requires Undisturbed(config, moves) && n <= |moves|
    ensures Undisturbed(config, moves[..n])
  {
    forall i | 0 <= i < n ensures !Disturbs(Play(config, moves[..n][..i]), moves[..n][i]) {
      assert moves[..n][..i] == moves[..i];
    }
  }

  lemma {:induction false} PlayPaused(config: Config, moves: seq<Move>)
    requires config.Valid() && Timely(config, moves) && Undisturbed(config, moves)
    ensures PausedAtCap(Play(config, moves).db) && WithinCap(Play(config, moves).db)
    decreases |moves|
  {
    PlayWithin(config, moves);
    if moves != [] {
      var n := |moves| - 1;
      TimelyPrefix(config, moves, n);
      UndisturbedPrefix(config, moves, n);
      PlayPaused(config, moves[..n]);
      ScheduleInv(config, moves[..n]);
      PausedMove(config, Play(config, moves[..n]), moves[n]);
    }
  }

  /** A repair waits, and nobody has approved it yet. */
  predicate RepairPaused(db: Database) {
    db.pending.Some? && !Halting(db.workflow)
  }

  /** The continuations approved while `more` follows `moves`. */
  ghost function Approvals(config: Config, moves: seq<Move>, more: seq<Move>): nat {
    if more == [] then 0
    else
      var n := |more| - 1;
      Approvals(config, moves, more[..n]) + if Approves(Play(config, moves + more[..n]), more[n]) then 1 else 0
  }

  lemma CapOnce(config: Config, s: Schedule, move: Move)
    requires WithinCap(s.db)
    ensures Next(config, s, move).db.cap == Raised(s.db.cap, if Approves(s, move) then 1 else 0)
  {
    CapMove(config, s, move);
  }

  lemma RaisedTwice(cap: Option<nat>, a: nat, b: nat)
    ensures Raised(Raised(cap, a), b) == Raised(cap, a + b)
  {
  }

  lemma ApprovalsLast(config: Config, moves: seq<Move>, more: seq<Move>)
    requires more != []
    ensures var n := |more| - 1;
            Approvals(config, moves, more)
            == Approvals(config, moves, more[..n]) + if Approves(Play(config, moves + more[..n]), more[n]) then 1 else 0
  {
  }

  lemma {:induction false} CapAlong(config: Config, moves: seq<Move>, more: seq<Move>)
    ensures Play(config, moves + more).db.cap == Raised(Play(config, moves).db.cap, Approvals(config, moves, more))
    decreases |more|
  {
    if more == [] {
      assert moves + more == moves;
    } else {
      var n := |more| - 1;
      CapAlong(config, moves, more[..n]);
      LastMove(config, moves, more);
      PlayWithin(config, moves + more[..n]);
      var before := Play(config, moves + more[..n]);
      CapOnce(config, before, more[n]);
      ApprovalsLast(config, moves, more);
      RaisedTwice(Play(config, moves).db.cap, Approvals(config, moves, more[..n]), if Approves(before, more[n]) then 1 else 0);
    }
  }

  /** Between a pause and a later point: at most as many repair rounds were admitted
      as continuations approved, and exactly as many if the run pauses again. */
  ghost predicate OneRepairEach(config: Config, moves: seq<Move>, more: seq<Move>) {
    var paused, later := Play(config, moves).db, Play(config, moves + more).db;
    RepairPaused(paused) ==>
      && |RepairRounds(later)| <= |RepairRounds(paused)| + Approvals(config, moves, more)
      && (RepairPaused(later) ==> |RepairRounds(later)| == |RepairRounds(paused)| + Approvals(config, moves, more))
  }

  lemma OneEachFrom(config: Config, moves: seq<Move>, more: seq<Move>)
    requires config.Valid() && Timely(config, moves + more) && Undisturbed(config, moves + more)
    ensures OneRepairEach(config, moves, more)
  {
    assert (moves + more)[..|moves|] == moves;
    TimelyPrefix(config, moves + more, |moves|);
    UndisturbedPrefix(config, moves + more, |moves|);
    PlayPaused(config, moves);
    PlayPaused(config, moves + more);
    CapAlong(config, moves, more);
  }

  /** A repair that waits began to wait at the cap. */
  lemma {:induction false} PausedBefore(config: Config, moves: seq<Move>) returns (front: seq<Move>)
    requires Play(config, moves).db.pending.Some?
    ensures front <= moves && RepairPaused(Play(config, front).db) && CapReached(Play(config, front).db)
    decreases |moves|
  {
    var n := |moves| - 1;
    PlayWithin(config, moves[..n]);
    MovePending(config, Play(config, moves[..n]), moves[n]);
    if CapReached(Play(config, moves).db) && Play(config, moves).db.workflow == NeedsAttention {
      front := moves;
    } else {
      front := PausedBefore(config, moves[..n]);
    }
  }

  lemma DisturbedPause(config: Config, s: Schedule, move: Move)
    requires config.Valid() && Inv(config, s) && Disturbs(s, move)
    ensures RepairPaused(Next(config, s, move).db) && !CapReached(Next(config, s, move).db)
  {
    WokenNow(config, s, move.send);
    SameRepairRounds(s.db, Next(config, s, move).db);
  }

  lemma TooFewAdmitted(config: Config, moves: seq<Move>, more: seq<Move>, all: seq<Move>)
    requires RepairPaused(Play(config, moves).db) && CapReached(Play(config, moves).db)
    requires all == moves + more && RepairPaused(Play(config, all).db) && !CapReached(Play(config, all).db)
    ensures !OneRepairEach(config, moves, more)
  {
    PlayWithin(config, moves);
    CapAlong(config, moves, more);
  }

  lemma DisturbedNow(config: Config, moves: seq<Move>, move: Move)
    requires config.Valid() && Timely(config, moves) && Disturbs(Play(config, moves), move)
    ensures Play(config, moves).db.pending.Some?
    ensures RepairPaused(Play(config, moves + [move]).db) && !CapReached(Play(config, moves + [move]).db)
  {
    ScheduleInv(config, moves);
    DisturbedPause(config, Play(config, moves), move);
    PlayNext(config, moves, move);
  }

  /** Approved and woken before its repair was stored, a continuation admits none
      before the run pauses. */
  lemma DisturbedBreaks(config: Config, moves: seq<Move>, move: Move) returns (front: seq<Move>)
    requires config.Valid() && Timely(config, moves) && Disturbs(Play(config, moves), move)
    ensures front <= moves && !OneRepairEach(config, front, (moves + [move])[|front|..])
  {
    DisturbedNow(config, moves, move);
    front := PausedBefore(config, moves);
    TooFewAdmitted(config, front, (moves + [move])[|front|..], moves + [move]);
  }

  lemma Cut(moves: seq<Move>, front: seq<Move>, k: nat)
    requires k < |moves| && front <= moves[..k]
    ensures front == moves[..|front|] && (moves[..k] + [moves[k]])[|front|..] == moves[|front|..k + 1]
  {
    assert moves[..k] + [moves[k]] == moves[..k + 1];
  }

  /** From every pause on, every approved continuation admits at most one more
      repair round, and exactly one before the run pauses again: if and only if no
      guidance checked earlier wakes the run before that repair is stored. */
  lemma EachContinuationOneRepair(config: Config, moves: seq<Move>)
    requires config.Valid() && Timely(config, moves)
    ensures (forall i, j :: 0 <= i <= j <= |moves| ==> OneRepairEach(config, moves[..i], moves[i..j])) <==> Undisturbed(config, moves)
  {
    if Undisturbed(config, moves) {
      forall i, j | 0 <= i <= j <= |moves| ensures OneRepairEach(config, moves[..i], moves[i..j]) {
        assert moves[..i] + moves[i..j] == moves[..j];
        TimelyPrefix(config, moves, j);
        UndisturbedPrefix(config, moves, j);
        OneEachFrom(config, moves[..i], moves[i..j]);
      }
    } else {
      var k :| 0 <= k < |moves| && Disturbs(Play(config, moves[..k]), moves[k]);
      TimelyPrefix(config, moves, k);
      var front := DisturbedBreaks(config, moves[..k], moves[k]);
      Cut(moves, front, k);
      assert !OneRepairEach(config, moves[..|front|], moves[|front|..k + 1]);
    }
  }
}
