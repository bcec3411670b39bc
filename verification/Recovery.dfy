/** The one-shot report recovery of each assignment, over every run. */

module Recovery {
  import opened Options
  import opened Tables
  import opened Transactions
  import opened Runs
  import opened Monotone

  predicate Admitted(db: Database, tx: Transaction) {
    tx.TxFrame? && tx.role in db.roles && db.roles[tx.role].generation == tx.generation
  }

  /** The assignment whose reminder this transaction reserves; the reminder is
      sent after the reservation commits and by no other path. */
  function Reminds(db: Database, tx: Transaction): Option<AssignmentId> {
    if && Admitted(db, tx) && tx.frame.SettlementFrame?
       && Owns(db, tx.role, tx.generation, tx.frame.id, tx.frame.resume)
       && Nudges(db.assignments[tx.frame.id], tx.frame.settlement)
    then Some(tx.frame.id)
    else None
  }

  /** The assignment granted its recovery turn by this transaction. */
  function Recovers(db: Database, tx: Transaction): Option<AssignmentId> {
    if && Admitted(db, tx) && tx.frame.RecoveryTurnFrame?
       && Owns(db, tx.role, tx.generation, tx.frame.id, tx.frame.resume)
       && RecoveryAllowed(db.assignments[tx.frame.id])
    then Some(tx.frame.id)
    else None
  }

  function RemindersSent(db: Database, txs: seq<Transaction>, id: AssignmentId): nat {
    if txs == [] then 0
    else RemindersSent(db, txs[..|txs| - 1], id)
         + if Reminds(Run(db, txs[..|txs| - 1]), txs[|txs| - 1]) == Some(id) then 1 else 0
  }

  function RecoveriesGranted(db: Database, txs: seq<Transaction>, id: AssignmentId): nat {
    if txs == [] then 0
    else RecoveriesGranted(db, txs[..|txs| - 1], id)
         + if Recovers(Run(db, txs[..|txs| - 1]), txs[|txs| - 1]) == Some(id) then 1 else 0
  }

  function ReminderRank(db: Database, id: AssignmentId): nat {
    if id in db.assignments then Rank(db.assignments[id].reminder) else 0
  }

  lemma RemindRank(db: Database, tx: Transaction, id: AssignmentId)
    requires Reminds(db, tx) == Some(id)
    ensures ReminderRank(db, id) == 0 && ReminderRank(Apply(db, tx), id) == 1
  {
  }

  lemma RecoverRank(db: Database, tx: Transaction, id: AssignmentId)
    requires Recovers(db, tx) == Some(id)
    ensures ReminderRank(db, id) == 1 && ReminderRank(Apply(db, tx), id) == 2
  {
  }

  /** Reserving and granting each move the reminder one way, and no transaction
      moves it back. */
  lemma StepRank(db: Database, tx: Transaction, id: AssignmentId)
    ensures ReminderRank(db, id) <= ReminderRank(Apply(db, tx), id)
    ensures Reminds(db, tx) == Some(id) ==> ReminderRank(db, id) == 0 && ReminderRank(Apply(db, tx), id) == 1
    ensures Recovers(db, tx) == Some(id) ==> ReminderRank(db, id) == 1 && ReminderRank(Apply(db, tx), id) == 2
  {
    if Reminds(db, tx) == Some(id) {
      RemindRank(db, tx, id);
    } else if Recovers(db, tx) == Some(id) {
      RecoverRank(db, tx, id);
    } else {
      StepKeeps(db, tx);
    }
  }

  /** Per assignment at most one reminder is sent and at most one recovery turn
      is granted, over every run: all settlements, retries under any identity,
      reconnects, handovers, operator guidance and crashes included. */
  lemma {:induction false} OneShotRecovery(config: Config, txs: seq<Transaction>, id: AssignmentId)
    ensures var start := InitialDatabase(config);
            && RemindersSent(start, txs, id) <= 1
            && RecoveriesGranted(start, txs, id) <= 1
            && RemindersSent(start, txs, id) <= ReminderRank(Run(start, txs), id)
            && 2 * RecoveriesGranted(start, txs, id) <= ReminderRank(Run(start, txs), id)
    decreases |txs|
  {
    if txs != [] {
      OneShotRecovery(config, txs[..|txs| - 1], id);
      StepRank(Run(InitialDatabase(config), txs[..|txs| - 1]), txs[|txs| - 1], id);
    }
  }

  lemma ReconnectSpends(db: Database, role: Role, id: AssignmentId)
    requires WaitsToRecover(db, role, id) && db.assignments[id].reminder != NoReminder
    ensures ReminderRank(RecoverWaiting(db, role, id), id) == 2
  {
  }

  /** Nothing is granted for an assignment whose reminder was used. */
  lemma SpentStep(db: Database, tx: Transaction, id: AssignmentId)
    requires ReminderRank(db, id) == 2
    ensures Recovers(db, tx) != Some(id) && ReminderRank(Apply(db, tx), id) == 2
  {
    StepRank(db, tx, id);
    RankAtMost(Apply(db, tx), id);
  }

  lemma RankAtMost(db: Database, id: AssignmentId)
    ensures ReminderRank(db, id) <= 2
  {
  }

  lemma {:induction false} SpentForever(db: Database, txs: seq<Transaction>, more: seq<Transaction>, id: AssignmentId)
    requires ReminderRank(Run(db, txs), id) == 2
    ensures RecoveriesGranted(db, txs + more, id) == RecoveriesGranted(db, txs, id) && ReminderRank(Run(db, txs + more), id) == 2
    decreases |more|
  {
    if more == [] {
      assert txs + more == txs;
    } else {
      var shorter, last := more[..|more| - 1], more[|more| - 1];
      SpentForever(db, txs, shorter, id);
      assert (txs + more)[..|txs + more| - 1] == txs + shorter && (txs + more)[|txs + more| - 1] == last;
      SpentStep(Run(db, txs + shorter), last, id);
      RunLast(db, txs + more);
    }
  }

  /** A worker that reconnects after its reminder was reserved is told to wait and
      the reservation is consumed: whatever follows, no recovery turn is granted
      for the assignment any more. */
  lemma ReconnectNeverReplenishes(db: Database, txs: seq<Transaction>, role: Role, id: AssignmentId, more: seq<Transaction>)
    requires WaitsToRecover(Run(db, txs), role, id) && Run(db, txs).assignments[id].reminder != NoReminder
    ensures RecoveriesGranted(db, txs + [TxRecoverWaiting(role, id)] + more, id) == RecoveriesGranted(db, txs, id)
  {
    var reconnected := txs + [TxRecoverWaiting(role, id)];
    assert reconnected[..|reconnected| - 1] == txs;
    ReconnectSpends(Run(db, txs), role, id);
    SpentForever(db, reconnected, more, id);
  }

  /** Neither is one granted after a reminder that could not be sent: the
      reservation is consumed, and the role waits for the operator. */
  lemma LostReminderIsSpent(db: Database, txs: seq<Transaction>, role: Role, id: AssignmentId, more: seq<Transaction>)
    requires var now := Run(db, txs);
             role in now.roles && id in now.assignments && now.assignments[id].role == role && now.assignments[id].state != Completed
    ensures RecoveriesGranted(db, txs + [TxReminderLost(role, id)] + more, id) == RecoveriesGranted(db, txs, id)
    ensures var after := Run(db, txs + [TxReminderLost(role, id)]);
            role in after.roles && after.roles[role].state == Waiting && id in after.assignments && RecoveryWaiting(after.assignments[id])
  {
    var lost := txs + [TxReminderLost(role, id)];
    assert lost[..|lost| - 1] == txs;
    LostSpends(Run(db, txs), role, id);
    SpentForever(db, lost, more, id);
  }

  lemma LostSpends(db: Database, role: Role, id: AssignmentId)
    requires Reminded(db, role, id)
    ensures var after := ReminderLost(db, role, id);
            && ReminderRank(after, id) == 2
            && role in after.roles && after.roles[role].state == Waiting && RecoveryWaiting(after.assignments[id])
  {
  }
}
