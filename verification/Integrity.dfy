/** Assignment integrity: what every transaction that creates, completes or
    routes work keeps about the rows of the store. */

module Integrity {
  import opened Options
  import opened Tables
  import opened Transactions
  import opened Runs
  import opened Monotone
  import opened Routing

  /** The active pointer of a role names exactly its uncompleted assignment. */
  ghost predicate Pointers(db: Database) {
    && (forall r :: r in db.roles && db.roles[r].active.Some? ==>
          && db.roles[r].active.value in db.assignments
          && db.assignments[db.roles[r].active.value].role == r
          && db.assignments[db.roles[r].active.value].state != Completed)
    && (forall id :: id in db.assignments ==>
          && db.assignments[id].role in db.roles
          && (db.assignments[id].state != Completed ==> db.roles[db.assignments[id].role].active == Some(id)))
  }

  /** Work is open only in the current round. */
  ghost predicate Rounds(db: Database) {
    && 1 <= db.round
    && forall id :: id in db.assignments ==>
         && 1 <= db.assignments[id].round <= db.round
         && (db.assignments[id].state != Completed ==> db.assignments[id].round == db.round)
  }

  /** One assignment per role, round and kind. */
  ghost predicate Unique(db: Database) {
    forall a, b :: a in db.assignments && b in db.assignments
      && db.assignments[a].role == db.assignments[b].role
      && db.assignments[a].round == db.assignments[b].round
      && db.assignments[a].kind == db.assignments[b].kind
      ==> a == b
  }

  predicate KindFits(config: Config, role: Role, kind: Kind) {
    match role
    case Implementer => kind == Plan || kind == Implementation
    case Reviewer => kind == Review
    case _ => role in config.specialists && kind == Specialist
  }

  ghost predicate Kinds(config: Config, db: Database) {
    forall id :: id in db.assignments ==>
      && KindFits(config, db.assignments[id].role, db.assignments[id].kind)
      && (db.assignments[id].kind == Plan ==> config.phased && db.assignments[id].round == 1)
  }

  /** Exactly the completed assignments have a report, each its own one. */
  ghost predicate Reported(db: Database) {
    && (forall id :: id in db.reports ==> id in db.assignments)
    && (forall id :: id in db.assignments ==> (id in db.reports <==> db.assignments[id].state == Completed))
    && (forall id :: id in db.reports ==>
          && db.reports[id].role == db.assignments[id].role
          && db.reports[id].round == db.assignments[id].round
          && db.reports[id].kind == db.assignments[id].kind)
  }

  /** A specialist works only in a round that decided to run it. */
  ghost predicate Decided(config: Config, db: Database) {
    && (forall id :: id in db.assignments && db.assignments[id].kind == Specialist ==>
          var key := (db.assignments[id].role, db.assignments[id].round); key in db.activations && db.activations[key])
    && (forall key :: key in db.activations ==> key.1 <= db.round)
  }

  ghost predicate Evidence(config: Config, db: Database, round: nat) {
    ImplementationReported(db, round) && SpecialistsSettled(config, db, round)
  }

  /** A review is assigned only on complete evidence of its round. */
  ghost predicate Reviewed(config: Config, db: Database) {
    forall id :: id in db.assignments && db.assignments[id].role == Reviewer ==> Evidence(config, db, db.assignments[id].round)
  }

  /** An implementation is assigned only after the plan of its round. */
  ghost predicate PlansDone(db: Database) {
    forall p, i :: p in db.assignments && i in db.assignments
      && db.assignments[p].kind == Plan && db.assignments[i].kind == Implementation
      && db.assignments[p].round == db.assignments[i].round
      ==> db.assignments[p].state == Completed
  }

  ghost predicate Sound(config: Config, db: Database) {
    && db.roles.Keys == config.Roles()
    && Pointers(db) && Rounds(db) && Unique(db) && Kinds(config, db) && Reported(db)
    && Decided(config, db) && Reviewed(config, db) && PlansDone(db)
  }

  ghost predicate NoneActive(db: Database) {
    forall r :: r in db.roles ==> db.roles[r].active == None
  }

  // ----- transactions that route nothing -----

  /** Aligned states agree on everything integrity speaks about. */
  ghost predicate Aligned(db: Database, after: Database) {
    && after.round == db.round && after.reports == db.reports && after.activations == db.activations
    && after.roles.Keys == db.roles.Keys
    && (forall r :: r in db.roles ==> after.roles[r].active == db.roles[r].active)
    && AssignmentsEvolve(db, after)
  }

  lemma EvidenceGrows(config: Config, db: Database, after: Database, round: nat)
    requires Submap(db.reports, after.reports) && Submap(db.activations, after.activations)
    ensures ImplementationReported(db, round) ==> ImplementationReported(after, round)
    ensures SpecialistsSettled(config, db, round) ==> SpecialistsSettled(config, after, round)
  {
    if SpecialistsSettled(config, db, round) {
      forall s | s in config.specialists
        ensures (s, round) in after.activations && (after.activations[(s, round)] ==> RoleReported(after, s, round))
      {
        if after.activations[(s, round)] {
          assert RoleReported(db, s, round);
        }
      }
    }
  }

  lemma AlignedRows(config: Config, db: Database, after: Database)
    requires Aligned(db, after)
    ensures Pointers(db) ==> Pointers(after)
    ensures Rounds(db) ==> Rounds(after)
  {
  }

  lemma AlignedUnique(config: Config, db: Database, after: Database)
    requires Aligned(db, after)
    ensures Unique(db) ==> Unique(after)
    ensures Kinds(config, db) ==> Kinds(config, after)
    ensures PlansDone(db) ==> PlansDone(after)
  {
  }

  lemma AlignedReported(config: Config, db: Database, after: Database)
    requires Aligned(db, after)
    ensures Reported(db) ==> Reported(after)
    ensures Decided(config, db) ==> Decided(config, after)
    ensures Reviewed(config, db) ==> Reviewed(config, after)
  {
    if Reviewed(config, db) {
      forall id | id in after.assignments && after.assignments[id].role == Reviewer
        ensures Evidence(config, after, after.assignments[id].round)
      {
        assert Evidence(config, db, db.assignments[id].round);
        EvidenceGrows(config, db, after, db.assignments[id].round);
      }
    }
  }

  lemma AlignedSound(config: Config, db: Database, after: Database)
    requires Sound(config, db) && Aligned(db, after)
    ensures Sound(config, after)
  {
    AlignedRows(config, db, after);
    AlignedUnique(config, db, after);
    AlignedReported(config, db, after);
  }

  // ----- report acceptance -----

  lemma ReportPointers(config: Config, db: Database, after: Database, role: Role, id: AssignmentId)
    requires Pointers(db) && Rounds(db) && role in db.roles && db.roles[role].active == Some(id)
    requires after.assignments == db.assignments[id := db.assignments[id].(state := Completed, attempt := ReportAccepted)]
    requires after.roles == db.roles[role := db.roles[role].(active := None, state := Idle)]
    requires after.round == db.round
    ensures Pointers(after) && Rounds(after)
  {
  }

  lemma ReportUnique(config: Config, db: Database, after: Database, id: AssignmentId)
    requires Unique(db) && Kinds(config, db) && PlansDone(db) && id in db.assignments
    requires after.assignments == db.assignments[id := db.assignments[id].(state := Completed, attempt := ReportAccepted)]
    ensures Unique(after) && Kinds(config, after) && PlansDone(after)
  {
  }

  lemma ReportReported(config: Config, db: Database, after: Database, id: AssignmentId, verdict: Verdict)
    requires Reported(db) && Decided(config, db) && Reviewed(config, db) && id in db.assignments && id !in db.reports
    requires after.assignments == db.assignments[id := db.assignments[id].(state := Completed, attempt := ReportAccepted)]
    requires var row := db.assignments[id]; after.reports == db.reports[id := Report(row.role, row.round, row.kind, verdict)]
    requires after.round == db.round && after.activations == db.activations
    ensures Reported(after) && Decided(config, after) && Reviewed(config, after)
  {
    forall v | v in after.assignments && after.assignments[v].role == Reviewer
      ensures Evidence(config, after, after.assignments[v].round)
    {
      assert Evidence(config, db, db.assignments[v].round);
      EvidenceGrows(config, db, after, db.assignments[v].round);
    }
  }

  lemma ReportSound(config: Config, db: Database, role: Role, generation: nat, id: AssignmentId, kind: Kind, verdict: Verdict)
    requires Sound(config, db) && Reportable(db, role, id, kind)
    ensures Sound(config, AcceptReport(db, role, generation, id, kind, verdict))
  {
    var after := AcceptReport(db, role, generation, id, kind, verdict);
    ReportRows(db, role, generation, id, kind, verdict);
    ReportPointers(config, db, after, role, id);
    ReportUnique(config, db, after, id);
    ReportReported(config, db, after, id, verdict);
  }

  // ----- new assignments -----

  /** What the routing code has established when it assigns. */
  ghost predicate Assigning(config: Config, db: Database, role: Role, kind: Kind, round: nat) {
    && round == db.round
    && role in db.roles
    && db.roles[role].active == None
    && KindFits(config, role, kind)
    && (kind == Plan ==> config.phased && round == 1)
    && (forall id :: id in db.assignments && db.assignments[id].role == role && db.assignments[id].round == round ==>
          db.assignments[id].kind != kind && !(kind == Plan && db.assignments[id].kind == Implementation))
    && (kind == Specialist ==> (role, round) in db.activations && db.activations[(role, round)])
    && (role == Reviewer ==> Evidence(config, db, round))
    && (kind == Implementation && round > 1 ==> NoneActive(db))
  }

  lemma InsertRows(config: Config, db: Database, role: Role, id: AssignmentId, row: Assignment)
    requires role in db.roles && id !in db.assignments && row.role == role && row.round == db.round && row.state != Completed
    requires db.roles[role].active == None
    requires Pointers(db) && Rounds(db)
    ensures Pointers(Insert(db, role, id, row)) && Rounds(Insert(db, role, id, row))
  {
  }

  lemma InsertUnique(config: Config, db: Database, role: Role, kind: Kind, id: AssignmentId, row: Assignment)
    requires Assigning(config, db, role, kind, db.round) && id !in db.assignments
    requires row.role == role && row.kind == kind && row.round == db.round && row.state != Completed
    requires Pointers(db) && Unique(db) && Kinds(config, db) && PlansDone(db)
    ensures Unique(Insert(db, role, id, row)) && Kinds(config, Insert(db, role, id, row))
    ensures PlansDone(Insert(db, role, id, row))
  {
  }

  lemma InsertReported(config: Config, db: Database, role: Role, kind: Kind, id: AssignmentId, row: Assignment)
    requires Assigning(config, db, role, kind, db.round) && id !in db.assignments
    requires row.role == role && row.kind == kind && row.round == db.round && row.state != Completed
    requires Reported(db) && Decided(config, db) && Reviewed(config, db)
    ensures Reported(Insert(db, role, id, row)) && Decided(config, Insert(db, role, id, row)) && Reviewed(config, Insert(db, role, id, row))
  {
    var after := Insert(db, role, id, row);
    forall v | v in after.assignments && after.assignments[v].role == Reviewer
      ensures Evidence(config, after, after.assignments[v].round)
    {
      assert Evidence(config, db, after.assignments[v].round);
      EvidenceGrows(config, db, after, after.assignments[v].round);
    }
  }

  lemma InsertSound(config: Config, db: Database, role: Role, kind: Kind, id: AssignmentId, delivery: DeliveryId)
    requires Sound(config, db) && Assigning(config, db, role, kind, db.round) && id !in db.assignments
    ensures Sound(config, Insert(db, role, id, NewAssignment(role, kind, db.round, delivery)))
  {
    var row := NewAssignment(role, kind, db.round, delivery);
    var after := Insert(db, role, id, row);
    assert after.roles.Keys == db.roles.Keys;
    assert Pointers(after) && Rounds(after) by { InsertRows(config, db, role, id, row); }
    assert Unique(after) && Kinds(config, after) && PlansDone(after) by { InsertUnique(config, db, role, kind, id, row); }
    assert Reported(after) && Decided(config, after) && Reviewed(config, after) by { InsertReported(config, db, role, kind, id, row); }
  }

  /** Same rows: the workflow state, the pause, the cap and the repair pause are
      left open. */
  ghost predicate SameRows(db: Database, after: Database) {
    && after.round == db.round && after.roles == db.roles && after.assignments == db.assignments
    && after.reports == db.reports && after.activations == db.activations
  }

  lemma MetaSound(config: Config, db: Database, after: Database)
    requires Sound(config, db) && SameRows(db, after)
    ensures Sound(config, after)
  {
    forall round ensures Evidence(config, db, round) ==> Evidence(config, after, round) {
      EvidenceGrows(config, db, after, round);
    }
  }

  lemma AssignRows(db: Database, role: Role, kind: Kind, round: nat, id: AssignmentId, delivery: DeliveryId)
    requires Assignable(db, role, id, delivery)
    ensures var after := Assign(db, role, kind, round, id, delivery);
            if RepairLimitReached(db, role, kind, round)
            then SameRows(db, after) && after.pending == Some(round) && after.workflow == NeedsAttention && after.paused == db.paused
            else
              && SameRows(Insert(db, role, id, NewAssignment(role, kind, round, delivery)), after)
              && after.paused == db.paused
              && (if role == Implementer && kind == Implementation && round > 1
                  then after.pending == None && (db.pending.None? ==> after.workflow == db.workflow)
                  else after.pending == db.pending && after.workflow == db.workflow)
              && (after.workflow == db.workflow || after.workflow == NeedsAttention || (after.workflow == Active && !db.paused))
  {
    if RepairLimitReached(db, role, kind, round) {
    } else if role == Implementer && kind == Implementation && round > 1 && db.pending.Some? {
    } else {
    }
  }

  lemma AssignSound(config: Config, db: Database, role: Role, kind: Kind, round: nat, id: AssignmentId, delivery: DeliveryId)
    requires Sound(config, db) && Assigning(config, db, role, kind, round)
    ensures Sound(config, Assign(db, role, kind, round, id, delivery))
  {
    if Assignable(db, role, id, delivery) {
      var after := Assign(db, role, kind, round, id, delivery);
      AssignRows(db, role, kind, round, id, delivery);
      if RepairLimitReached(db, role, kind, round) {
        MetaSound(config, db, after);
      } else {
        InsertSound(config, db, role, kind, id, delivery);
        MetaSound(config, Insert(db, role, id, NewAssignment(role, kind, round, delivery)), after);
      }
    }
  }

  // ----- activation and rounds -----

  lemma ActivateSound(config: Config, db: Database, specialists: seq<Role>, run: set<Role>)
    requires Sound(config, db)
    ensures Sound(config, Activate(db, specialists, db.round, run))
  {
    var after := Activate(db, specialists, db.round, run);
    forall v | v in after.assignments && after.assignments[v].role == Reviewer
      ensures Evidence(config, after, after.assignments[v].round)
    {
      assert Evidence(config, db, db.assignments[v].round);
      EvidenceGrows(config, db, after, db.assignments[v].round);
    }
    assert Pointers(after) && Rounds(after) && Unique(after) && Kinds(config, after) && Reported(after) && PlansDone(after);
  }

  lemma AdvanceSound(config: Config, db: Database)
    requires Sound(config, db) && NoneActive(db)
    ensures Sound(config, Advance(db, db.round + 1))
  {
    var after := Advance(db, db.round + 1);
    assert Pointers(after) && Rounds(after);
    assert Unique(after) && Kinds(config, after) && PlansDone(after);
    assert Reported(after) && Decided(config, after);
    forall v | v in after.assignments && after.assignments[v].role == Reviewer
      ensures Evidence(config, after, after.assignments[v].round)
    {
      assert Evidence(config, db, db.assignments[v].round);
      EvidenceGrows(config, db, after, db.assignments[v].round);
    }
  }

  // ----- consequences -----

  /** Once the review of the current round is in, nothing is being worked on. */
  lemma ReviewEndsRound(config: Config, db: Database, review: AssignmentId)
    requires config.Valid() && Sound(config, db)
    requires review in db.assignments && db.assignments[review].role == Reviewer
    requires db.assignments[review].round == db.round && db.assignments[review].state == Completed
    ensures NoneActive(db)
  {
    forall id | id in db.assignments && db.assignments[id].round == db.round
      ensures db.assignments[id].state == Completed
    {
      ReviewedCompleted(config, db, review, id);
    }
  }

  lemma ReviewedCompleted(config: Config, db: Database, review: AssignmentId, id: AssignmentId)
    requires config.Valid() && Sound(config, db)
    requires review in db.assignments && db.assignments[review].role == Reviewer
    requires db.assignments[review].round == db.round && db.assignments[review].state == Completed
    requires id in db.assignments && db.assignments[id].round == db.round
    ensures db.assignments[id].state == Completed
  {
    var row := db.assignments[id];
    assert Evidence(config, db, db.round);
    assert KindFits(config, row.role, row.kind);
    match row.role
    case Implementer =>
      var done :| done in db.reports && db.reports[done].role == Implementer && db.reports[done].kind == Implementation && db.reports[done].round == db.round;
      assert db.assignments[done].state == Completed;
    case Reviewer =>
    case _ =>
      assert db.activations[(row.role, db.round)];
      var done :| done in db.reports && db.reports[done].role == row.role && db.reports[done].round == db.round;
      assert db.assignments[done].state == Completed && KindFits(config, row.role, db.assignments[done].kind);
  }
}
