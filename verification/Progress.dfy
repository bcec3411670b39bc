/** A run does not stall: what is still owed to the current round is being worked
    on or queued, as long as no routing task is lost. */

module Progress {
  import opened Options
  import opened Tables
  import opened Transactions
  import opened Runs
  import opened Monotone
  import opened Routing
  import opened Integrity
  import opened Workflows
  import opened Approval

  // ----- what is owed -----

  ghost predicate Free(db: Database, role: Role) {
    role in db.roles ==> db.roles[role].active == None
  }

  /** Until the implementation of the round is given, the implementer works or the
      next thing it gets is queued, or the repair waits for approval. */
  ghost predicate OwesImplementation(db: Database, bag: multiset<Task>) {
    db.pending == None && Free(db, Implementer) && !AlreadyGiven(db, Implementer, Implementation, db.round) ==>
      exists kind :: AssignTo(Implementer, kind, db.round) in bag
  }

  /** After it, the specialists of the round are decided. */
  ghost predicate OwesDecisions(config: Config, db: Database, bag: multiset<Task>) {
    ImplementationReported(db, db.round) && !AllDecided(config, db, db.round) ==> exists run :: ActivateRound(db.round, run) in bag
  }

  predicate ToRun(db: Database, role: Role) {
    (role, db.round) in db.activations && db.activations[(role, db.round)]
  }

  /** A specialist that was decided to run is given its work. */
  ghost predicate OwesSpecialists(config: Config, db: Database, bag: multiset<Task>) {
    forall s :: s in config.specialists && ToRun(db, s) && !AlreadyGiven(db, s, Specialist, db.round) ==> AssignTo(s, Specialist, db.round) in bag
  }

  /** On complete evidence the round is reviewed. */
  ghost predicate OwesReview(config: Config, db: Database, bag: multiset<Task>) {
    ReviewDue(config, db, db.round) ==>
      || ReviewCheck(db.round) in bag || AssignTo(Reviewer, Review, db.round) in bag
      || exists run :: ActivateRound(db.round, run) in bag
  }

  ghost predicate Declined(db: Database) {
    exists id :: id in db.reports && db.reports[id].role == Reviewer && db.reports[id].round == db.round && db.reports[id].verdict != Approved
  }

  /** A review that does not approve opens the next round. */
  ghost predicate OwesRound(db: Database, bag: multiset<Task>) {
    Declined(db) ==> AdvanceTo(db.round + 1) in bag
  }

  ghost predicate Owed(config: Config, db: Database, bag: multiset<Task>) {
    && OwesImplementation(db, bag) && OwesDecisions(config, db, bag) && OwesSpecialists(config, db, bag)
    && OwesReview(config, db, bag) && OwesRound(db, bag)
  }

  // ----- what counts as going on -----

  ghost predicate AtWork(db: Database) {
    exists r :: r in db.roles && db.roles[r].active.Some?
  }

  /** A queued action that still has something to do for the current round. */
  ghost predicate Matters(config: Config, db: Database, a: Task) {
    match a
    case AssignTo(role, kind, round) => round == db.round && !AlreadyGiven(db, role, kind, round)
    case ActivateRound(round, _) => round == db.round && ImplementationReported(db, round) && !ReviewAssigned(db, round)
    case ReviewCheck(round) => ReviewDue(config, db, round)
    case ConfirmRepair(_) => false
    case _ => true
  }

  ghost predicate SomethingMatters(config: Config, db: Database, bag: multiset<Task>) {
    exists a :: a in bag && Matters(config, db, a)
  }

  /** Nobody works and nothing that is queued matters. */
  ghost predicate Idling(config: Config, db: Database, bag: multiset<Task>) {
    !AtWork(db) && !SomethingMatters(config, db, bag)
  }

  /** Whoever owes nothing more has an approved round or waits for the operator to
      approve a repair. */
  lemma IdlingIsSettled(config: Config, db: Database, bag: multiset<Task>)
    requires config.Valid() && Stored(config, db) && Queued(config, db, bag) && Owed(config, db, bag) && Idling(config, db, bag)
    ensures ApprovedReview(db) || db.pending.Some?
  {
    if db.pending == None {
      assert NoneActive(db);
      IdleCompleted(db);
      IdleImplemented(config, db, bag);
      IdleEvident(config, db, bag);
      IdleReviewed(config, db, bag);
    }
  }

  lemma IdleImplemented(config: Config, db: Database, bag: multiset<Task>)
    requires config.Valid() && Stored(config, db) && Queued(config, db, bag) && Owed(config, db, bag) && Idling(config, db, bag)
    requires db.pending == None && NoneActive(db) && AllCompleted(db)
    ensures ImplementationReported(db, db.round)
  {
    if !AlreadyGiven(db, Implementer, Implementation, db.round) { ImplementationMatters(config, db, bag); }
    GivenReported(config, db, Implementer, Implementation);
  }

  lemma ImplementationMatters(config: Config, db: Database, bag: multiset<Task>)
    requires Queued(config, db, bag) && OwesImplementation(db, bag)
    requires db.pending == None && Free(db, Implementer) && !AlreadyGiven(db, Implementer, Implementation, db.round)
    ensures SomethingMatters(config, db, bag)
  {
    var kind :| AssignTo(Implementer, kind, db.round) in bag;
    assert ActionOk(config, db, AssignTo(Implementer, kind, db.round));
    assert Matters(config, db, AssignTo(Implementer, kind, db.round));
  }

  /** Completed work was reported. */
  lemma GivenReported(config: Config, db: Database, role: Role, kind: Kind)
    requires Sound(config, db) && AllCompleted(db) && AlreadyGiven(db, role, kind, db.round)
    ensures exists id :: id in db.reports && db.reports[id].role == role && db.reports[id].kind == kind && db.reports[id].round == db.round
  {
    var id :| id in db.assignments && db.assignments[id].role == role && db.assignments[id].kind == kind && db.assignments[id].round == db.round;
    assert id in db.reports;
  }

  lemma IdleEvident(config: Config, db: Database, bag: multiset<Task>)
    requires config.Valid() && Stored(config, db) && Queued(config, db, bag) && Owed(config, db, bag) && Idling(config, db, bag)
    requires NoneActive(db) && AllCompleted(db) && ImplementationReported(db, db.round)
    ensures Evidence(config, db, db.round)
  {
    if ReviewAssigned(db, db.round) {
      ReviewedEvidence(config, db);
    } else {
      if !AllDecided(config, db, db.round) { DecisionsMatter(config, db, bag); }
      forall s | s in config.specialists
        ensures (s, db.round) in db.activations && (db.activations[(s, db.round)] ==> RoleReported(db, s, db.round))
      {
        if db.activations[(s, db.round)] {
          if !AlreadyGiven(db, s, Specialist, db.round) { SpecialistMatters(config, db, bag, s); }
          GivenReported(config, db, s, Specialist);
        }
      }
    }
  }

  lemma IdleReviewed(config: Config, db: Database, bag: multiset<Task>)
    requires config.Valid() && Stored(config, db) && Queued(config, db, bag) && Owed(config, db, bag) && Idling(config, db, bag)
    requires NoneActive(db) && AllCompleted(db) && Evidence(config, db, db.round)
    ensures ApprovedReview(db)
  {
    if !ReviewAssigned(db, db.round) {
      assert ReviewDue(config, db, db.round);
      ReviewGiven(config, db, db.round);
      DueMatters(config, db, bag);
    }
    ReviewGiven(config, db, db.round);
    GivenReported(config, db, Reviewer, Review);
    if Declined(db) { RoundMatters(config, db, bag); }
  }

  lemma DecisionsMatter(config: Config, db: Database, bag: multiset<Task>)
    requires OwesDecisions(config, db, bag) && ImplementationReported(db, db.round) && !AllDecided(config, db, db.round)
    requires !ReviewAssigned(db, db.round)
    ensures SomethingMatters(config, db, bag)
  {
    var run :| ActivateRound(db.round, run) in bag;
    assert Matters(config, db, ActivateRound(db.round, run));
  }

  lemma SpecialistMatters(config: Config, db: Database, bag: multiset<Task>, s: Role)
    requires AssignTo(s, Specialist, db.round) in bag && !AlreadyGiven(db, s, Specialist, db.round)
    ensures SomethingMatters(config, db, bag)
  {
    assert Matters(config, db, AssignTo(s, Specialist, db.round));
  }

  lemma RoundMatters(config: Config, db: Database, bag: multiset<Task>)
    requires OwesRound(db, bag) && Declined(db)
    ensures SomethingMatters(config, db, bag)
  {
    assert Matters(config, db, AdvanceTo(db.round + 1));
  }

  lemma DueMatters(config: Config, db: Database, bag: multiset<Task>)
    requires OwesReview(config, db, bag) && ReviewDue(config, db, db.round) && !AlreadyGiven(db, Reviewer, Review, db.round)
    ensures SomethingMatters(config, db, bag)
  {
    if ReviewCheck(db.round) in bag {
      assert Matters(config, db, ReviewCheck(db.round));
    } else if AssignTo(Reviewer, Review, db.round) in bag {
      assert Matters(config, db, AssignTo(Reviewer, Review, db.round));
    } else {
      var run :| ActivateRound(db.round, run) in bag;
      assert Matters(config, db, ActivateRound(db.round, run));
    }
  }

  // ----- what is kept -----

  lemma MoreOwed(config: Config, db: Database, bag: multiset<Task>, more: multiset<Task>)
    requires Owed(config, db, bag)
    ensures Owed(config, db, bag + more)
  {
    assert forall a :: a in bag ==> a in bag + more;
    if db.pending == None && Free(db, Implementer) && !AlreadyGiven(db, Implementer, Implementation, db.round) {
      var kind :| AssignTo(Implementer, kind, db.round) in bag;
    }
    if exists run :: ActivateRound(db.round, run) in bag {
      var run :| ActivateRound(db.round, run) in bag;
      assert ActivateRound(db.round, run) in bag + more;
    }
  }

  lemma AlignedDue(config: Config, db: Database, after: Database)
    requires Aligned(db, after)
    ensures ImplementationReported(after, db.round) <==> ImplementationReported(db, db.round)
    ensures AllDecided(config, after, db.round) <==> AllDecided(config, db, db.round)
    ensures ReviewDue(config, after, db.round) <==> ReviewDue(config, db, db.round)
    ensures Declined(after) <==> Declined(db)
  {
    EvidenceGrows(config, db, after, db.round);
    EvidenceGrows(config, after, db, db.round);
    AlignedReviewed(db, after, db.round);
  }

  lemma AlignedOwed(config: Config, db: Database, after: Database, bag: multiset<Task>)
    requires Owed(config, db, bag) && Aligned(db, after) && (after.pending == db.pending || after.pending.Some?)
    ensures Owed(config, after, bag)
  {
    AlignedDue(config, db, after);
    AlignedGiven(db, after, Implementer, Implementation, db.round);
    forall s | s in config.specialists ensures AlreadyGiven(db, s, Specialist, db.round) <==> AlreadyGiven(after, s, Specialist, db.round) {
      AlignedGiven(db, after, s, Specialist, db.round);
    }
  }

  lemma SameRowsAligned(db: Database, after: Database)
    requires SameRows(db, after)
    ensures Aligned(db, after)
  {
  }

  lemma AlignedMatters(config: Config, db: Database, after: Database, bag: multiset<Task>)
    requires Aligned(db, after)
    ensures AtWork(after) <==> AtWork(db)
    ensures SomethingMatters(config, db, bag) ==> SomethingMatters(config, after, bag)
  {
    if SomethingMatters(config, db, bag) {
      var a :| a in bag && Matters(config, db, a);
      AlignedMatter(config, db, after, a);
    }
  }

  lemma AlignedMatter(config: Config, db: Database, after: Database, a: Task)
    requires Aligned(db, after) && Matters(config, db, a)
    ensures Matters(config, after, a)
  {
    match a
    case AssignTo(role, kind, round) => AlignedGiven(db, after, role, kind, round);
    case ActivateRound(round, _) => AlignedReviewed(db, after, round);
    case ReviewCheck(round) => EvidenceGrows(config, db, after, round); AlignedReviewed(db, after, round);
    case _ =>
  }

  // ----- actions -----

  /** An action that is queued elsewhere in the bag stays queued. */
  lemma StaysQueued(bag: multiset<Task>, a: Task, more: multiset<Task>, b: Task)
    requires b in bag && b != a
    ensures b in bag - multiset{a} + more
  {
  }

  lemma NewInBag(bag: multiset<Task>, a: Task, more: seq<Task>, b: Task)
    requires b in more
    ensures b in bag - multiset{a} + multiset(more)
  {
  }

  /** An action that changes no row, and that nothing is owed for. */
  lemma DroppedOwed(config: Config, db: Database, after: Database, bag: multiset<Task>, a: Task, more: multiset<Task>)
    requires Owed(config, db, bag) && Aligned(db, after) && (after.pending == db.pending || after.pending.Some?)
    requires a.AssignTo? ==> if Repair(a) && after.pending.Some? then true else (Repair(a) || !Single(a)) && AlreadyGiven(db, a.role, a.kind, a.round)
    requires !a.ActivateRound? && !a.ReviewCheck? && !(a.AdvanceTo? && a.round == db.round + 1)
    ensures Owed(config, after, bag - multiset{a} + more)
  {
    AlignedOwed(config, db, after, bag);
    var later := bag - multiset{a} + more;
    assert forall b :: b in bag && b != a ==> b in later;
    KeptImplementation(db, after, bag, a, more);
    KeptSpecialists(config, db, after, bag, a, more);
    KeptReview(config, db, after, bag, a, more);
  }

  lemma KeptImplementation(db: Database, after: Database, bag: multiset<Task>, a: Task, more: multiset<Task>)
    requires OwesImplementation(after, bag) && Aligned(db, after)
    requires a.AssignTo? && a.role == Implementer ==> after.pending.Some? || (a.kind == Implementation && AlreadyGiven(db, Implementer, Implementation, a.round))
    ensures OwesImplementation(after, bag - multiset{a} + more)
  {
    if after.pending == None && Free(after, Implementer) && !AlreadyGiven(after, Implementer, Implementation, after.round) {
      var kind :| AssignTo(Implementer, kind, after.round) in bag;
      AlignedGiven(db, after, Implementer, Implementation, after.round);
      StaysQueued(bag, a, more, AssignTo(Implementer, kind, after.round));
    }
  }

  lemma KeptSpecialists(config: Config, db: Database, after: Database, bag: multiset<Task>, a: Task, more: multiset<Task>)
    requires OwesSpecialists(config, after, bag) && Aligned(db, after)
    requires a.AssignTo? && a.kind == Specialist ==> AlreadyGiven(db, a.role, Specialist, a.round)
    ensures OwesSpecialists(config, after, bag - multiset{a} + more)
  {
    forall s | s in config.specialists && ToRun(after, s) && !AlreadyGiven(after, s, Specialist, after.round)
      ensures AssignTo(s, Specialist, after.round) in bag - multiset{a} + more
    {
      AlignedGiven(db, after, s, Specialist, after.round);
      StaysQueued(bag, a, more, AssignTo(s, Specialist, after.round));
    }
  }

  lemma KeptReview(config: Config, db: Database, after: Database, bag: multiset<Task>, a: Task, more: multiset<Task>)
    requires OwesReview(config, after, bag) && Aligned(db, after) && OwesDecisions(config, after, bag) && OwesRound(after, bag)
    requires !a.ActivateRound? && !a.ReviewCheck? && !(a.AdvanceTo? && a.round == db.round + 1)
    requires a.AssignTo? && a.role == Reviewer ==> AlreadyGiven(db, Reviewer, a.kind, a.round)
    ensures OwesReview(config, after, bag - multiset{a} + more)
    ensures OwesDecisions(config, after, bag - multiset{a} + more)
    ensures OwesRound(after, bag - multiset{a} + more)
  {
    var later := bag - multiset{a} + more;
    assert forall b :: b in bag && b != a ==> b in later;
    if exists run :: ActivateRound(after.round, run) in bag {
      var run :| ActivateRound(after.round, run) in bag;
      assert ActivateRound(after.round, run) in later;
    }
    if ReviewDue(config, after, after.round) && a.AssignTo? && a.role == Reviewer && a.round == after.round {
      AlignedReviewed(db, after, after.round);
      assert ReviewAssigned(db, after.round);
    }
  }

  /** Storing the assignment that was queued pays what was owed by it. */
  lemma GivenOwed(config: Config, db: Database, after: Database, bag: multiset<Task>, a: Task, id: AssignmentId, delivery: DeliveryId)
    requires Owed(config, db, bag) && a.AssignTo? && a.round == db.round && a.role in db.roles && id !in db.assignments
    requires SameRows(Insert(db, a.role, id, NewAssignment(a.role, a.kind, a.round, delivery)), after)
    requires a.role != Implementer ==> after.pending == db.pending
    requires a.role != Implementer && a.role != Reviewer ==> a.kind == Specialist
    requires a.role == Implementer ==> a.kind != Specialist
    ensures Owed(config, after, bag - multiset{a})
  {
    var rest := bag - multiset{a};
    assert forall b :: b in bag && b != a ==> b in rest;
    InsertGrows(db, after, a.role, id, NewAssignment(a.role, a.kind, a.round, delivery));
    assert after.assignments[id] == NewAssignment(a.role, a.kind, a.round, delivery);
    GivenImplementation(db, after, bag, a, id, delivery);
    GivenSpecialists(config, db, after, bag, a, id);
    GivenReview(config, db, after, bag, a, id);
  }

  lemma GivenImplementation(db: Database, after: Database, bag: multiset<Task>, a: Task, id: AssignmentId, delivery: DeliveryId)
    requires OwesImplementation(db, bag) && a.AssignTo? && a.round == db.round && a.role in db.roles && id !in db.assignments
    requires SameRows(Insert(db, a.role, id, NewAssignment(a.role, a.kind, a.round, delivery)), after) && Grown(db, after)
    requires a.role != Implementer ==> after.pending == db.pending
    ensures OwesImplementation(after, bag - multiset{a})
  {
    if after.pending == None && Free(after, Implementer) && !AlreadyGiven(after, Implementer, Implementation, after.round) {
      assert a.role != Implementer;
      if AlreadyGiven(db, Implementer, Implementation, db.round) { GrownGiven(db, after, Implementer, Implementation, db.round); }
      var kind :| AssignTo(Implementer, kind, db.round) in bag;
      assert AssignTo(Implementer, kind, after.round) in bag - multiset{a};
    }
  }

  lemma GivenSpecialists(config: Config, db: Database, after: Database, bag: multiset<Task>, a: Task, id: AssignmentId)
    requires OwesSpecialists(config, db, bag) && a.AssignTo? && a.round == db.round && Grown(db, after)
    requires id in after.assignments && after.assignments[id].role == a.role && after.assignments[id].kind == a.kind && after.assignments[id].round == a.round
    requires after.activations == db.activations && after.round == db.round
    ensures OwesSpecialists(config, after, bag - multiset{a})
  {
    forall s | s in config.specialists && ToRun(after, s) && !AlreadyGiven(after, s, Specialist, after.round)
      ensures AssignTo(s, Specialist, after.round) in bag - multiset{a}
    {
      if AlreadyGiven(db, s, Specialist, db.round) { GrownGiven(db, after, s, Specialist, db.round); }
      assert a != AssignTo(s, Specialist, after.round);
    }
  }

  lemma GivenReview(config: Config, db: Database, after: Database, bag: multiset<Task>, a: Task, id: AssignmentId)
    requires Owed(config, db, bag) && a.AssignTo? && a.round == db.round && Grown(db, after)
    requires id in after.assignments && after.assignments[id].role == a.role && after.assignments[id].round == a.round
    requires after.activations == db.activations && after.round == db.round && after.reports == db.reports
    ensures OwesDecisions(config, after, bag - multiset{a}) && OwesReview(config, after, bag - multiset{a}) && OwesRound(after, bag - multiset{a})
  {
    var rest := bag - multiset{a};
    assert forall b :: b in bag && b != a ==> b in rest;
    if exists run :: ActivateRound(db.round, run) in bag {
      var run :| ActivateRound(db.round, run) in bag;
      assert ActivateRound(db.round, run) in rest;
    }
    if ReviewDue(config, after, after.round) {
      if ReviewAssigned(db, db.round) { GrownReviewed(db, after, db.round); }
      EvidenceGrows(config, after, db, db.round);
      assert a.role != Reviewer;
    }
  }

  /** A new round owes its implementation only. */
  lemma NextOwed(config: Config, db: Database, after: Database, bag: multiset<Task>)
    requires Sound(config, db) && NextRound(db, after) && AssignTo(Implementer, Implementation, after.round) in bag
    ensures Owed(config, after, bag)
  {
    forall id | id in after.reports ensures after.reports[id].round != after.round { assert id in db.assignments; }
    forall key | key in after.activations ensures key.1 != after.round { assert key in db.activations; }
    assert !ImplementationReported(after, after.round);
    assert forall s :: !ToRun(after, s);
  }

  lemma AssignOwed(config: Config, db: Database, bag: multiset<Task>, a: Task, connected: bool, id: AssignmentId, delivery: DeliveryId)
    requires config.Valid() && Stored(config, db) && Queued(config, db, bag) && Owed(config, db, bag) && a in bag && a.AssignTo?
    requires connected && Assignable(db, a.role, id, delivery) <==> !AlreadyGiven(db, a.role, a.kind, a.round)
    ensures Owed(config, TaskDatabase(config, db, a, connected, id, delivery), bag - multiset{a})
  {
    assert ActionOk(config, db, a);
    if AlreadyGiven(db, a.role, a.kind, a.round) {
      AgainOwed(config, db, bag, a);
    } else {
      AssigningNow(config, db, a);
      StoredOwed(config, db, bag, a, id, delivery);
    }
  }

  lemma AgainOwed(config: Config, db: Database, bag: multiset<Task>, a: Task)
    requires Owed(config, db, bag) && a in bag && a.AssignTo? && ActionOk(config, db, a) && AlreadyGiven(db, a.role, a.kind, a.round)
    ensures Owed(config, db, bag - multiset{a})
  {
    assert bag - multiset{a} + multiset{} == bag - multiset{a};
    assert !Single(a) || Repair(a);
    DroppedOwed(config, db, db, bag, a, multiset{});
  }

  lemma StoredOwed(config: Config, db: Database, bag: multiset<Task>, a: Task, id: AssignmentId, delivery: DeliveryId)
    requires Owed(config, db, bag) && a.AssignTo? && Assigning(config, db, a.role, a.kind, a.round) && Assignable(db, a.role, id, delivery)
    ensures Owed(config, Assign(db, a.role, a.kind, a.round, id, delivery), bag - multiset{a})
  {
    var after := Assign(db, a.role, a.kind, a.round, id, delivery);
    AssignRows(db, a.role, a.kind, a.round, id, delivery);
    if RepairLimitReached(db, a.role, a.kind, a.round) {
      SameRowsAligned(db, after);
      assert bag - multiset{a} + multiset{} == bag - multiset{a};
      DroppedOwed(config, db, after, bag, a, multiset{});
    } else {
      GivenOwed(config, db, after, bag, a, id, delivery);
    }
  }

  /** Before anything is assigned only the start is owed. */
  lemma StartOwed(config: Config, db: Database, bag: multiset<Task>, kind: Kind)
    requires db.assignments == map[] && db.reports == map[] && AssignTo(Implementer, kind, db.round) in bag
    requires forall s :: ToRun(db, s) ==> AssignTo(s, Specialist, db.round) in bag
    ensures Owed(config, db, bag)
  {
    assert !ImplementationReported(db, db.round);
  }

  lemma ProbeOwed(config: Config, db: Database, bag: multiset<Task>, runs: bool)
    requires Stored(config, db) && Pristine(db) && OwesImplementation(db, bag)
    ensures Owed(config, Activate(db, [Probe], 1, if runs then {Probe} else {}),
                 bag - multiset{DecideProbe(runs)} + multiset(if runs then [AssignTo(Probe, Specialist, 1)] else []))
  {
    var follow := if runs then [AssignTo(Probe, Specialist, 1)] else [];
    PristineFree(config, db);
    var kind :| AssignTo(Implementer, kind, db.round) in bag;
    StaysQueued(bag, DecideProbe(runs), multiset(follow), AssignTo(Implementer, kind, db.round));
    if runs { NewInBag(bag, DecideProbe(runs), follow, AssignTo(Probe, Specialist, 1)); }
    ProbeDecision(db, runs);
    StartOwed(config, Activate(db, [Probe], 1, if runs then {Probe} else {}), bag - multiset{DecideProbe(runs)} + multiset(follow), kind);
  }

  lemma PristineFree(config: Config, db: Database)
    requires Stored(config, db) && Pristine(db)
    ensures Free(db, Implementer) && !AlreadyGiven(db, Implementer, Implementation, db.round)
  {
  }

  lemma ProbeDecision(db: Database, runs: bool)
    requires Pristine(db)
    ensures var after := Activate(db, [Probe], 1, if runs then {Probe} else {});
            after == db.(activations := after.activations) && forall s :: ToRun(after, s) ==> runs && s == Probe
  {
  }

  lemma ActivateOwed(config: Config, db: Database, bag: multiset<Task>, a: Task)
    requires config.Valid() && Stored(config, db) && Owed(config, db, bag) && a.ActivateRound? && ActionOk(config, db, a)
    ensures Owed(config, Activate(db, config.specialists, a.round, a.run), bag - multiset{a} + multiset(Follow(config, db, a)))
  {
    if AllDecided(config, db, a.round) {
      DecidedAlready(config, db, a.round, a.run);
      assert Follow(config, db, a) == [ReviewCheck(a.round)];
      SameRowsAligned(db, db);
      CheckOwed(config, db, bag, a, ReviewCheck(a.round));
    } else {
      DecidedOwed(config, db, bag, a);
    }
  }

  /** The check of the same round takes the place of a decision that was taken, or
      the review that of its check. */
  lemma CheckOwed(config: Config, db: Database, bag: multiset<Task>, a: Task, next: Task)
    requires Owed(config, db, bag) && Aligned(db, db)
    requires (a.ActivateRound? && AllDecided(config, db, a.round) && next == ReviewCheck(a.round))
             || (a.ReviewCheck? && next == AssignTo(Reviewer, Review, a.round))
    ensures Owed(config, db, bag - multiset{a} + multiset([next]))
  {
    var later := bag - multiset{a} + multiset([next]);
    KeptImplementation(db, db, bag, a, multiset([next]));
    KeptSpecialists(config, db, db, bag, a, multiset([next]));
    assert forall b :: b in bag && b != a ==> b in later;
    NewInBag(bag, a, [next], next);
    if exists run :: ActivateRound(db.round, run) in bag {
      var run :| ActivateRound(db.round, run) in bag;
      assert ActivateRound(db.round, run) != a ==> ActivateRound(db.round, run) in later;
    }
  }

  lemma DecidedOwed(config: Config, db: Database, bag: multiset<Task>, a: Task)
    requires config.Valid() && Stored(config, db) && Owed(config, db, bag) && a.ActivateRound? && a.round == db.round
    ensures Owed(config, Activate(db, config.specialists, a.round, a.run), bag - multiset{a} + multiset(Follow(config, db, a)))
  {
    var after := Activate(db, config.specialists, a.round, a.run);
    var follow := Follow(config, db, a);
    ActivateGrows(db, config.specialists, a.round, a.run);
    DecidedSpecialists(config, db, bag, a);
    assert follow[|follow| - 1] == ReviewCheck(a.round);
    NewInBag(bag, a, follow, ReviewCheck(a.round));
    DecidedRest(config, db, after, bag, a, multiset(follow));
  }

  /** New decisions leave everything but the specialists as it was. */
  lemma DecidedRest(config: Config, db: Database, after: Database, bag: multiset<Task>, a: Task, more: multiset<Task>)
    requires OwesImplementation(db, bag) && OwesRound(db, bag) && a.ActivateRound? && after == db.(activations := after.activations)
    requires AllDecided(config, after, after.round) && ReviewCheck(after.round) in bag - multiset{a} + more
    ensures var later := bag - multiset{a} + more;
            OwesImplementation(after, later) && OwesRound(after, later) && OwesDecisions(config, after, later) && OwesReview(config, after, later)
  {
    if after.pending == None && Free(after, Implementer) && !AlreadyGiven(after, Implementer, Implementation, after.round) {
      assert !AlreadyGiven(db, Implementer, Implementation, db.round);
      var kind :| AssignTo(Implementer, kind, db.round) in bag;
      StaysQueued(bag, a, more, AssignTo(Implementer, kind, db.round));
    }
    if Declined(after) {
      assert Declined(db);
      StaysQueued(bag, a, more, AdvanceTo(db.round + 1));
    }
  }

  lemma DecidedSpecialists(config: Config, db: Database, bag: multiset<Task>, a: Task)
    requires OwesSpecialists(config, db, bag) && a.ActivateRound? && a.round == db.round
    ensures OwesSpecialists(config, Activate(db, config.specialists, a.round, a.run), bag - multiset{a} + multiset(Follow(config, db, a)))
    ensures AllDecided(config, Activate(db, config.specialists, a.round, a.run), a.round)
  {
    var after := Activate(db, config.specialists, a.round, a.run);
    var follow := Follow(config, db, a);
    NewlyRunMembers(db, config.specialists, a.round, a.run);
    forall s | s in config.specialists && ToRun(after, s) && !AlreadyGiven(after, s, Specialist, after.round)
      ensures AssignTo(s, Specialist, after.round) in bag - multiset{a} + multiset(follow)
    {
      if (s, db.round) in db.activations {
        StaysQueued(bag, a, multiset(follow), AssignTo(s, Specialist, db.round));
      } else {
        AssignAllHas(NewlyRun(db, config.specialists, a.round, a.run), a.round, s);
        NewInBag(bag, a, follow, AssignTo(s, Specialist, a.round));
      }
    }
  }

  lemma AssignAllHas(roles: seq<Role>, round: nat, s: Role)
    requires s in roles
    ensures AssignTo(s, Specialist, round) in AssignAll(roles, round)
  {
    var i :| 0 <= i < |roles| && roles[i] == s;
    assert AssignAll(roles, round)[i] == AssignTo(s, Specialist, round);
  }

  /** A check that is not due is of a round that owes no review. */
  lemma CheckedOwed(config: Config, db: Database, bag: multiset<Task>, a: Task)
    requires Owed(config, db, bag) && Aligned(db, db) && a.ReviewCheck? && !ReviewDue(config, db, a.round)
    ensures Owed(config, db, bag - multiset{a} + multiset([]))
  {
    var later := bag - multiset{a} + multiset([]);
    KeptImplementation(db, db, bag, a, multiset([]));
    KeptSpecialists(config, db, db, bag, a, multiset([]));
    assert forall b :: b in bag && b != a ==> b in later;
    if exists run :: ActivateRound(db.round, run) in bag {
      var run :| ActivateRound(db.round, run) in bag;
      assert ActivateRound(db.round, run) in later;
    }
  }

  lemma AdvanceOwed(config: Config, db: Database, bag: multiset<Task>, a: Task)
    requires Stored(config, db) && a.AdvanceTo? && ActionOk(config, db, a)
    ensures Owed(config, Advance(db, a.round), bag - multiset{a} + multiset([AssignTo(Implementer, Implementation, a.round)]))
  {
    AdvanceRows(db);
    NewInBag(bag, a, [AssignTo(Implementer, Implementation, a.round)], AssignTo(Implementer, Implementation, a.round));
    NextOwed(config, db, Advance(db, a.round), bag - multiset{a} + multiset([AssignTo(Implementer, Implementation, a.round)]));
  }

  /** No action leaves anything owed that is not queued. */
  lemma ActionOwed(config: Config, db: Database, bag: multiset<Task>, a: Task, connected: bool, id: AssignmentId, delivery: DeliveryId)
    requires config.Valid() && Stored(config, db) && Queued(config, db, bag) && Owed(config, db, bag) && a in bag
    requires a.AssignTo? ==> (connected && Assignable(db, a.role, id, delivery) <==> !AlreadyGiven(db, a.role, a.kind, a.round))
    ensures Owed(config, TaskDatabase(config, db, a, connected, id, delivery), bag - multiset{a} + multiset(Follow(config, db, a)))
  {
    assert ActionOk(config, db, a);
    SameRowsAligned(db, db);
    match a
    case SetActive => QuietWorkflow(db, Implementer, Idle, Active); DroppedOwed(config, db, SetWorkflow(db, Active), bag, a, multiset([]));
    case DecideProbe(runs) => ProbeOwed(config, db, bag, runs);
    case AssignTo(_, _, _) =>
      AssignOwed(config, db, bag, a, connected, id, delivery);
      assert bag - multiset{a} + multiset([]) == bag - multiset{a};
    case ActivateRound(_, _) => ActivateOwed(config, db, bag, a);
    case ReviewCheck(round) =>
      if ReviewDue(config, db, round) { CheckOwed(config, db, bag, a, AssignTo(Reviewer, Review, round)); } else { CheckedOwed(config, db, bag, a); }
    case ApproveRun => QuietWorkflow(db, Implementer, Idle, Active); DroppedOwed(config, db, Approve(db), bag, a, multiset([]));
    case AdvanceTo(_) => AdvanceOwed(config, db, bag, a);
    case ConfirmRepair(_) => ConfirmOwed(config, db, bag, a);
  }

  lemma ConfirmOwed(config: Config, db: Database, bag: multiset<Task>, a: Task)
    requires Owed(config, db, bag) && a.ConfirmRepair?
    ensures Owed(config, TaskDatabase(config, db, a, true, 0, 0), bag - multiset{a} + multiset([]))
  {
    ConfirmRows(config, db, a);
    QuietWorkflow(db, Implementer, Idle, Uncertain);
    SameRowsAligned(db, db);
    DroppedOwed(config, db, TaskDatabase(config, db, a, true, 0, 0), bag, a, multiset([]));
  }

  // ----- reports -----

  /** A report pays its assignment, and what it makes due is queued with it. */
  lemma SubmittedOwed(config: Config, db: Database, bag: multiset<Task>, role: Role, generation: nat, id: AssignmentId, kind: Kind,
                      verdict: Verdict, run: set<Role>)
    requires config.Valid() && Stored(config, db) && Owed(config, db, bag) && Reportable(db, role, id, kind)
    ensures Owed(config, AcceptReport(db, role, generation, id, kind, verdict),
                 bag + multiset(RouteReport(config, role, db.assignments[id].round, kind, verdict, run)))
  {
    var after := AcceptReport(db, role, generation, id, kind, verdict);
    var route := RouteReport(config, role, db.assignments[id].round, kind, verdict, run);
    ReportIsStored(config, db, role, generation, id, kind, verdict);
    ReportedImplementing(config, db, after, bag, route, role, id, kind, verdict, run);
    ReportedDecisions(config, db, after, bag, route, role, id, kind, verdict, run);
    ReportedReview(config, db, after, bag, route, role, id, kind, verdict, run);
    ReportedSpecialists(config, db, after, bag, route, role, id, kind, verdict);
  }

  lemma ReportIsStored(config: Config, db: Database, role: Role, generation: nat, id: AssignmentId, kind: Kind, verdict: Verdict)
    requires Sound(config, db) && Reportable(db, role, id, kind)
    ensures StoredReport(db, AcceptReport(db, role, generation, id, kind, verdict), role, id, kind, verdict)
    ensures KindFits(config, role, kind) && (kind == Plan ==> config.phased)
  {
    ReportRows(db, role, generation, id, kind, verdict);
  }

  lemma ReportedSpecialists(config: Config, db: Database, after: Database, bag: multiset<Task>, route: seq<Task>, role: Role, id: AssignmentId,
                            kind: Kind, verdict: Verdict)
    requires OwesSpecialists(config, db, bag) && StoredReport(db, after, role, id, kind, verdict)
    ensures OwesSpecialists(config, after, bag + multiset(route))
  {
    forall s | s in config.specialists && ToRun(after, s) && !AlreadyGiven(after, s, Specialist, after.round)
      ensures AssignTo(s, Specialist, after.round) in bag + multiset(route)
    {
      if AlreadyGiven(db, s, Specialist, db.round) { StillGiven(db, after, role, id, kind, verdict, s, Specialist); }
    }
  }

  /** What `after` is, once the report of `id` was stored in `db`. */
  ghost predicate StoredReport(db: Database, after: Database, role: Role, id: AssignmentId, kind: Kind, verdict: Verdict) {
    && role in db.roles && id in db.assignments && id !in db.reports
    && db.assignments[id].role == role && db.assignments[id].kind == kind && db.assignments[id].round == db.round
    && after.assignments == db.assignments[id := db.assignments[id].(state := Completed, attempt := ReportAccepted)]
    && after.reports == db.reports[id := Report(role, db.round, kind, verdict)]
    && after.roles == db.roles[role := db.roles[role].(active := None, state := Idle)]
    && after.round == db.round && after.activations == db.activations && after.pending == db.pending
  }

  lemma ReportedImplementing(config: Config, db: Database, after: Database, bag: multiset<Task>, route: seq<Task>, role: Role, id: AssignmentId,
                             kind: Kind, verdict: Verdict, run: set<Role>)
    requires OwesImplementation(db, bag) && StoredReport(db, after, role, id, kind, verdict) && KindFits(config, role, kind)
    requires kind == Plan ==> config.phased
    requires route == RouteReport(config, role, db.round, kind, verdict, run)
    ensures OwesImplementation(after, bag + multiset(route))
  {
    if after.pending == None && Free(after, Implementer) && !AlreadyGiven(after, Implementer, Implementation, after.round) {
      assert id in after.assignments;
      if role == Implementer {
        assert kind == Plan && AssignTo(Implementer, Implementation, db.round) in route;
      } else {
        if AlreadyGiven(db, Implementer, Implementation, db.round) { StillGiven(db, after, role, id, kind, verdict, Implementer, Implementation); }
        var k :| AssignTo(Implementer, k, db.round) in bag;
        assert AssignTo(Implementer, k, after.round) in bag + multiset(route);
      }
    }
  }

  lemma StillGiven(db: Database, after: Database, role: Role, id: AssignmentId, kind: Kind, verdict: Verdict, other: Role, work: Kind)
    requires StoredReport(db, after, role, id, kind, verdict) && AlreadyGiven(db, other, work, db.round)
    ensures AlreadyGiven(after, other, work, after.round)
  {
    var i :| i in db.assignments && db.assignments[i].role == other && db.assignments[i].kind == work && db.assignments[i].round == db.round;
    assert i in after.assignments;
  }

  lemma ReportedDecisions(config: Config, db: Database, after: Database, bag: multiset<Task>, route: seq<Task>, role: Role, id: AssignmentId,
                          kind: Kind, verdict: Verdict, run: set<Role>)
    requires OwesDecisions(config, db, bag) && OwesRound(db, bag) && StoredReport(db, after, role, id, kind, verdict) && KindFits(config, role, kind)
    requires route == RouteReport(config, role, db.round, kind, verdict, run)
    ensures OwesDecisions(config, after, bag + multiset(route)) && OwesRound(after, bag + multiset(route))
  {
    assert forall b :: b in bag ==> b in bag + multiset(route);
    assert forall b :: b in route ==> b in bag + multiset(route);
    if ImplementationReported(after, after.round) && !AllDecided(config, after, after.round) {
      if ImplementationReported(db, db.round) {
        var r :| ActivateRound(db.round, r) in bag;
        assert ActivateRound(after.round, r) in bag + multiset(route);
      } else {
        assert role == Implementer && kind == Implementation;
        assert ActivateRound(db.round, run) in route;
      }
    }
    if Declined(after) && !Declined(db) { assert role == Reviewer && verdict != Approved; }
  }

  lemma ReportedReview(config: Config, db: Database, after: Database, bag: multiset<Task>, route: seq<Task>, role: Role, id: AssignmentId,
                       kind: Kind, verdict: Verdict, run: set<Role>)
    requires config.Valid() && OwesReview(config, db, bag) && StoredReport(db, after, role, id, kind, verdict) && KindFits(config, role, kind)
    requires route == RouteReport(config, role, db.round, kind, verdict, run)
    ensures OwesReview(config, after, bag + multiset(route))
  {
    assert forall b :: b in bag ==> b in bag + multiset(route);
    assert forall b :: b in route ==> b in bag + multiset(route);
    if ReviewDue(config, after, after.round) {
      StillUnassigned(db, after, role, id, kind, verdict);
      assert role != Reviewer;
      if ReviewDue(config, db, db.round) {
        if exists r :: ActivateRound(db.round, r) in bag {
          var r :| ActivateRound(db.round, r) in bag;
          assert ActivateRound(after.round, r) in bag + multiset(route);
        }
      } else if role == Implementer {
        PlanChangesNothing(config, db, after, role, id, kind, verdict);
        assert ActivateRound(db.round, run) in route;
      } else {
        assert ReviewCheck(db.round) in route;
      }
    }
  }

  lemma StillUnassigned(db: Database, after: Database, role: Role, id: AssignmentId, kind: Kind, verdict: Verdict)
    requires StoredReport(db, after, role, id, kind, verdict) && !ReviewAssigned(after, after.round)
    ensures !ReviewAssigned(db, db.round) && role != Reviewer
  {
    assert id in after.assignments;
    forall i | i in db.assignments ensures i in after.assignments && after.assignments[i].role == db.assignments[i].role && after.assignments[i].round == db.assignments[i].round {
    }
  }

  /** The implementer's plan completes no evidence. */
  lemma PlanChangesNothing(config: Config, db: Database, after: Database, role: Role, id: AssignmentId, kind: Kind, verdict: Verdict)
    requires config.Valid() && StoredReport(db, after, role, id, kind, verdict) && role == Implementer
    requires Evidence(config, after, after.round) && !Evidence(config, db, db.round)
    ensures kind == Implementation
  {
    if kind != Implementation { PlanSettles(config, db, after, role, id, kind, verdict); }
  }

  lemma PlanSettles(config: Config, db: Database, after: Database, role: Role, id: AssignmentId, kind: Kind, verdict: Verdict)
    requires config.Valid() && StoredReport(db, after, role, id, kind, verdict) && role == Implementer && kind != Implementation
    requires Evidence(config, after, after.round)
    ensures Evidence(config, db, db.round)
  {
    forall s | s in config.specialists
      ensures (s, db.round) in db.activations && (db.activations[(s, db.round)] ==> RoleReported(db, s, db.round))
    {
      if db.activations[(s, db.round)] {
        var i :| i in after.reports && after.reports[i].role == s && after.reports[i].round == after.round;
        assert i != id;
      }
    }
  }

  // ----- moves -----

  /** A routing task is lost, or the work it would give is. */
  ghost predicate Loses(s: Schedule, move: Move) {
    match move
    case Fail(i) => i < |s.tasks|
    case Abandon(i) => i < |s.tasks|
    case Crash => s.tasks != []
    case Reboot => s.tasks != []
    case Proceed(i, connected, id, delivery) =>
      && i < |s.tasks| && s.tasks[i] != []
      && var a := s.tasks[i][0];
         a.AssignTo? && !AlreadyGiven(s.db, a.role, a.kind, a.round) && !(connected && Assignable(s.db, a.role, id, delivery))
    case _ => false
  }

  lemma BeginOwed(config: Config, s: Schedule, probe: bool)
    requires config.Valid() && Inv(config, s) && s.db.workflow == Connecting
    ensures var next := Next(config, s, Begin(probe)); Owed(config, next.db, Actions(next.tasks))
  {
    var task := StartTasks(config, probe);
    SomeActions(s.tasks);
    assert s.tasks == [] && Pristine(s.db);
    ActionsStarted(s.tasks, task);
    var kind := if config.phased then Plan else Implementation;
    assert AssignTo(Implementer, kind, 1) in task;
    StartingOwed(config, s.db, Actions(Started(s.tasks, task)), kind);
  }

  lemma StartingOwed(config: Config, db: Database, bag: multiset<Task>, kind: Kind)
    requires Pristine(db) && AssignTo(Implementer, kind, 1) in bag
    ensures Owed(config, SetWorkflow(db, Initializing), bag)
  {
    assert SetWorkflow(db, Initializing) == db.(workflow := Initializing);
    StartOwed(config, SetWorkflow(db, Initializing), bag, kind);
  }

  lemma SubmitOwed(config: Config, s: Schedule, move: Move)
    requires config.Valid() && Inv(config, s) && Owed(config, s.db, Actions(s.tasks)) && move.Submit?
    ensures var next := Next(config, s, move); Owed(config, next.db, Actions(next.tasks))
  {
    var role, id, kind := move.role, move.id, move.kind;
    if role in s.db.roles && s.db.roles[role].generation == move.generation {
      if Reportable(s.db, role, id, kind) {
        SubmittedOwed(config, s.db, Actions(s.tasks), role, move.generation, id, kind, move.verdict, move.run);
        ActionsStarted(s.tasks, RouteReport(config, role, s.db.assignments[id].round, kind, move.verdict, move.run));
      } else if !DuplicateReport(s.db, role, id, kind) {
        QuietRejection(s.db, role, move.generation, id, None);
        AlignedOwed(config, s.db, RecordRejection(s.db, role, move.generation, id), Actions(s.tasks));
      }
    }
  }

  lemma ReceiptOwed(config: Config, db: Database, bag: multiset<Task>, command: CommandId, receipt: Command)
    requires Owed(config, db, bag)
    ensures Owed(config, Receipted(db, command, receipt), bag)
  {
    SameRowsAligned(db, Receipted(db, command, receipt));
    AlignedOwed(config, db, Receipted(db, command, receipt), bag);
  }

  lemma EffectOwed(config: Config, db: Database, tasks: seq<seq<Task>>, command: CommandId, action: Action, role: Role)
    requires CoreInv(config, db, tasks) && Owed(config, db, Actions(tasks)) && role in db.roles && (action.Continue? ==> SafelyPaused(db))
    ensures Owed(config, ControlEffect(db, command, action, role), Actions(Started(tasks, CommandTask(db, action))))
  {
    var after := ControlEffect(db, command, action, role);
    if action == Continue {
      ContinuedStored(config, db, command, role);
      SameRowsAligned(db, after);
    } else {
      ControlAligned(db, command, action, role);
    }
    AlignedOwed(config, db, after, Actions(tasks));
    ActionsStarted(tasks, CommandTask(db, action));
    MoreOwed(config, after, Actions(tasks), multiset(CommandTask(db, action)));
  }

  lemma OperateOwed(config: Config, s: Schedule, command: CommandId, action: Action, role: Role, link: Link)
    requires Inv(config, s) && Owed(config, s.db, Actions(s.tasks))
    ensures var next := Next(config, s, Operate(command, action, role, link)); Owed(config, next.db, Actions(next.tasks))
  {
    OperateNext(config, s, command, action, role, link);
    match ControlStatus(s.db, command, action, role, link)
    case None =>
    case Some(answer) =>
      if answer != StatusAccepted {
        ReceiptOwed(config, s.db, Actions(s.tasks), command, Command(action, role, answer));
      } else if !Awaits(action) {
        EffectOwed(config, s.db, s.tasks, command, action, role);
        ReceiptOwed(config, ControlEffect(s.db, command, action, role), Actions(Started(s.tasks, CommandTask(s.db, action))),
                    command, Command(action, role, answer));
      }
  }

  lemma PlanOwed(config: Config, db: Database, tasks: seq<seq<Task>>, x: Sending)
    requires config.Valid() && CoreInv(config, db, tasks) && SendOk(config, db, Actions(tasks), x.plan) && x.role in db.roles
    requires Owed(config, db, Actions(tasks)) && (x.plan.Reopening? ==> db.round <= x.plan.round)
    ensures Owed(config, PlanEffect(db, x.command, x.role, x.plan), Actions(Started(tasks, PlanTask(x.plan))))
  {
    var after := PlanEffect(db, x.command, x.role, x.plan);
    ActionsStarted(tasks, PlanTask(x.plan));
    match x.plan
    case Reopening(round) =>
      if round == db.round {
        assert after == SetWorkflow(db, Active);
        QuietWorkflow(db, Implementer, Idle, Active);
        AlignedOwed(config, db, after, Actions(tasks));
        MoreOwed(config, after, Actions(tasks), multiset(PlanTask(x.plan)));
      } else {
        AdvanceRows(db);
        assert AssignTo(Implementer, Implementation, after.round) in PlanTask(x.plan);
        NextOwed(config, db, after, Actions(tasks) + multiset(PlanTask(x.plan)));
      }
    case Guiding(waking) =>
      ResumeAligned(db, x.command, x.role, waking);
      AlignedOwed(config, db, after, Actions(tasks));
    case Aborting =>
  }

  lemma SentOwed(config: Config, s: Schedule, i: nat)
    requires config.Valid() && Inv(config, s) && Owed(config, s.db, Actions(s.tasks)) && !Regresses(s, Sent(i))
    ensures var next := Next(config, s, Sent(i)); Owed(config, next.db, Actions(next.tasks))
  {
    if Writes(s, Sent(i)) {
      var x := s.sends[i];
      SentNext(config, s, i);
      PlanOwed(config, s.db, s.tasks, x);
      ReceiptOwed(config, PlanEffect(s.db, x.command, x.role, x.plan), Actions(Started(s.tasks, PlanTask(x.plan))),
                  x.command, Command(PlanAction(x.plan), x.role, StatusAccepted));
    }
  }

  lemma ProceedOwed(config: Config, s: Schedule, move: Move)
    requires config.Valid() && Inv(config, s) && Owed(config, s.db, Actions(s.tasks)) && move.Proceed?
    requires !Untimely(s, move) && !Loses(s, move)
    ensures var next := Next(config, s, move); Owed(config, next.db, Actions(next.tasks))
  {
    if move.task < |s.tasks| {
      var a, rest := s.tasks[move.task][0], s.tasks[move.task][1..];
      ProceedNext(config, s, move);
      RestFollows(config, s.db, a, rest);
      HeadReplaced(s.tasks, move.task, Follow(config, s.db, a));
      ActionOwed(config, s.db, Actions(s.tasks), a, move.connected, move.id, move.delivery);
    }
  }

  lemma BackgroundOwed(config: Config, s: Schedule, tx: Transaction)
    requires Owed(config, s.db, Actions(s.tasks))
    ensures var next := Next(config, s, Background(tx)); Owed(config, next.db, Actions(next.tasks))
  {
    if !Routes(tx) {
      BackgroundAligned(s.db, tx);
      AlignedOwed(config, s.db, Apply(s.db, tx), Actions(s.tasks));
    }
  }

  lemma InterruptOwed(config: Config, s: Schedule, move: Move)
    requires Owed(config, s.db, Actions(s.tasks)) && !Loses(s, move) && (move.Fail? || move.Abandon? || move.Unsent? || move.Crash? || move.Reboot?)
    ensures var next := Next(config, s, move); Owed(config, next.db, Actions(next.tasks))
  {
    match move
    case Fail(_) => QuietWorkflow(s.db, Implementer, Idle, Uncertain); AlignedOwed(config, s.db, SetWorkflow(s.db, Uncertain), Actions(s.tasks));
    case Reboot => QuietBoot(s.db); AlignedOwed(config, s.db, Boot(s.db), Actions(s.tasks));
    case _ =>
  }

  lemma MoveOwed(config: Config, s: Schedule, move: Move)
    requires config.Valid() && Inv(config, s) && Owed(config, s.db, Actions(s.tasks))
    requires !Untimely(s, move) && !Regresses(s, move) && !Loses(s, move)
    ensures var next := Next(config, s, move); Owed(config, next.db, Actions(next.tasks))
  {
    match move
    case Background(tx) => BackgroundOwed(config, s, tx);
    case Begin(probe) => if s.db.workflow == Connecting { BeginOwed(config, s, probe); }
    case Submit(_, _, _, _, _, _) => SubmitOwed(config, s, move);
    case Operate(command, action, role, link) => OperateOwed(config, s, command, action, role, link);
    case Proceed(_, _, _, _) => ProceedOwed(config, s, move);
    case Sent(i) => SentOwed(config, s, i);
    case _ => InterruptOwed(config, s, move);
  }

  // ----- schedules in which no task is lost -----

  /** All roles were connected, and the first task was started. */
  ghost predicate Begun(config: Config, moves: seq<Move>) {
    && moves != []
    && var n := |moves| - 1;
       Begun(config, moves[..n]) || (moves[n].Begin? && Play(config, moves[..n]).db.workflow == Connecting)
  }

  ghost predicate Lossless(config: Config, moves: seq<Move>) {
    forall i :: 0 <= i < |moves| ==> !Loses(Play(config, moves[..i]), moves[i])
  }

  lemma LosslessPrefix(config: Config, moves: seq<Move>, n: nat)
    requires Lossless(config, moves) && n <= |moves|
    ensures Lossless(config, moves[..n])
  {
    forall i | 0 <= i < n ensures !Loses(Play(config, moves[..n][..i]), moves[..n][i]) {
      assert moves[..n][..i] == moves[..i];
    }
  }

  lemma {:induction false} ScheduleOwed(config: Config, moves: seq<Move>)
    requires config.Valid() && Timely(config, moves) && Lossless(config, moves) && Begun(config, moves)
    ensures var s := Play(config, moves); Owed(config, s.db, Actions(s.tasks))
    decreases |moves|
  {
    var n := |moves| - 1;
    TimelyPrefix(config, moves, n);
    LosslessPrefix(config, moves, n);
    ScheduleInv(config, moves[..n]);
    if Begun(config, moves[..n]) {
      ScheduleOwed(config, moves[..n]);
      MoveOwed(config, Play(config, moves[..n]), moves[n]);
    } else {
      BeginOwed(config, Play(config, moves[..n]), moves[n].probe);
    }
  }

  /** Nothing stalls: as long as no routing task is lost, a run that has begun has a
      role at work or a queued action with something to do for its round, unless
      its round is approved or a repair waits for the operator's approval. */
  lemma NothingStalls(config: Config, moves: seq<Move>)
    requires config.Valid() && Timely(config, moves) && Lossless(config, moves) && Begun(config, moves)
    ensures var s := Play(config, moves);
            || AtWork(s.db) || SomethingMatters(config, s.db, Actions(s.tasks))
            || ApprovedReview(s.db) || s.db.pending.Some?
  {
    var s := Play(config, moves);
    ScheduleInv(config, moves);
    ScheduleOwed(config, moves);
    if Idling(config, s.db, Actions(s.tasks)) { IdlingIsSettled(config, s.db, Actions(s.tasks)); }
  }

  // ----- active runs -----

  /** Active means that something goes on. */
  ghost predicate GoesOnActive(config: Config, s: Schedule) {
    s.db.workflow == Active ==> !Idling(config, s.db, Actions(s.tasks))
  }

  /** Guidance that was overtaken makes a run active in which nothing is left to
      do. */
  ghost predicate IdleWake(config: Config, s: Schedule, move: Move) {
    && Writes(s, move) && Waking(s.sends[move.send].plan)
    && !s.db.paused && Idling(config, s.db, Actions(s.tasks))
    && (s.sends[move.send].plan.Reopening? ==> s.sends[move.send].plan.round == s.db.round && !Opening(s.db))
  }

  lemma UnsettledGoesOn(config: Config, db: Database, bag: multiset<Task>)
    requires config.Valid() && Stored(config, db) && Queued(config, db, bag) && Owed(config, db, bag)
    requires !ApprovedReview(db) && db.pending == None
    ensures !Idling(config, db, bag)
  {
    if Idling(config, db, bag) { IdlingIsSettled(config, db, bag); }
  }

  lemma AlignedIdling(config: Config, db: Database, after: Database, bag: multiset<Task>)
    requires Aligned(db, after)
    ensures Idling(config, db, bag) <==> Idling(config, after, bag)
  {
    AlignedMatters(config, db, after, bag);
    if SomethingMatters(config, after, bag) {
      var a :| a in bag && Matters(config, after, a);
      AlignedMattered(config, db, after, a);
    }
  }

  lemma AlignedMattered(config: Config, db: Database, after: Database, a: Task)
    requires Aligned(db, after) && Matters(config, after, a)
    ensures Matters(config, db, a)
  {
    match a
    case AssignTo(role, kind, round) => AlignedGiven(db, after, role, kind, round);
    case ActivateRound(round, _) => AlignedReviewed(db, after, round);
    case ReviewCheck(round) => EvidenceGrows(config, after, db, round); AlignedReviewed(db, after, round);
    case _ =>
  }

  lemma MoreMatters(config: Config, db: Database, bag: multiset<Task>, more: multiset<Task>)
    ensures !Idling(config, db, bag) ==> !Idling(config, db, bag + more)
  {
    if SomethingMatters(config, db, bag) {
      var a :| a in bag && Matters(config, db, a);
      assert a in bag + more;
    }
  }

  // ----- what makes a run active -----

  /** A transaction that routes nothing makes a run active only for a role that
      holds an assignment. */
  lemma BackgroundActive(db: Database, tx: Transaction)
    requires NoneActive(db) && !Routes(tx) && Apply(db, tx).workflow == Active
    ensures db.workflow == Active
  {
    match tx
    case TxFrame(role, generation, frame) => if role in db.roles { FrameActive(db, role, generation, frame); }
    case TxDisconnect(role, generation) => if role in db.roles { GoneWorkflow(db, role, generation); }
    case _ =>
  }

  lemma FrameActive(db: Database, role: Role, generation: nat, frame: Frame)
    requires NoneActive(db) && role in db.roles && !frame.ReportFrame? && Handle(db, role, generation, frame).workflow == Active
    ensures db.workflow == Active
  {
    match frame
    case RejectedReportFrame(id, resume) =>
    case MalformedReport(id) =>
    case AttentionFrame(id, resume) =>
    case SettlementFrame(id, resume, settlement) =>
    case ProviderTurnFrame(id, resume, request) =>
    case RecoveryTurnFrame(id, resume) =>
    case LifecycleFrame(state, assignment) =>
    case AckFrame(delivery, accepted) =>
  }

  lemma BackgroundGoesOn(config: Config, s: Schedule, tx: Transaction)
    requires GoesOnActive(config, s)
    ensures GoesOnActive(config, Next(config, s, Background(tx)))
  {
    if !Routes(tx) {
      BackgroundAligned(s.db, tx);
      AlignedIdling(config, s.db, Apply(s.db, tx), Actions(s.tasks));
      if Apply(s.db, tx).workflow == Active && !AtWork(s.db) {
        assert NoneActive(s.db);
        BackgroundActive(s.db, tx);
      }
    }
  }

  lemma SubmitGoesOn(config: Config, s: Schedule, move: Move)
    requires config.Valid() && Inv(config, s) && Owed(config, s.db, Actions(s.tasks)) && GoesOnActive(config, s) && move.Submit?
    ensures GoesOnActive(config, Next(config, s, move))
  {
    var role, id, kind := move.role, move.id, move.kind;
    if role in s.db.roles && s.db.roles[role].generation == move.generation {
      if Reportable(s.db, role, id, kind) {
        SubmitInv(config, s, move);
        SubmitOwed(config, s, move);
        ReportGoesOn(config, s, move);
      } else if !DuplicateReport(s.db, role, id, kind) {
        var after := RecordRejection(s.db, role, move.generation, id);
        QuietRejection(s.db, role, move.generation, id, None);
        RejectionMoves(s.db, role, move.generation, id, None);
        AlignedIdling(config, s.db, after, Actions(s.tasks));
        assert after.workflow == s.db.workflow;
      }
    }
  }

  lemma ReportGoesOn(config: Config, s: Schedule, move: Move)
    requires config.Valid() && Inv(config, s) && move.Submit? && Reportable(s.db, move.role, move.id, move.kind)
    requires move.role in s.db.roles && s.db.roles[move.role].generation == move.generation
    requires var next := Next(config, s, move); Inv(config, next) && Owed(config, next.db, Actions(next.tasks))
    ensures var next := Next(config, s, move); !Idling(config, next.db, Actions(next.tasks))
  {
    var role, id, kind := move.role, move.id, move.kind;
    var next := Next(config, s, move);
    var route := RouteReport(config, role, s.db.assignments[id].round, kind, move.verdict, move.run);
    ReportIsStored(config, s.db, role, move.generation, id, kind, move.verdict);
    WorkingOrdinary(config, s.db, Actions(s.tasks), role);
    ActionsStarted(s.tasks, route);
    if role == Reviewer && move.verdict == Approved {
      assert ApproveRun in route && Matters(config, next.db, ApproveRun);
    } else {
      StillUnapproved(config, s.db, next.db, role, id, kind, move.verdict);
      UnsettledGoesOn(config, next.db, Actions(next.tasks));
    }
  }

  lemma StillUnapproved(config: Config, db: Database, after: Database, role: Role, id: AssignmentId, kind: Kind, verdict: Verdict)
    requires StoredReport(db, after, role, id, kind, verdict) && !ApprovedReview(db) && !(role == Reviewer && verdict == Approved)
    ensures !ApprovedReview(after)
  {
  }

  lemma OperateGoesOn(config: Config, s: Schedule, command: CommandId, action: Action, role: Role, link: Link)
    requires Inv(config, s) && GoesOnActive(config, s)
    ensures GoesOnActive(config, Next(config, s, Operate(command, action, role, link)))
  {
    OperateNext(config, s, command, action, role, link);
    match ControlStatus(s.db, command, action, role, link)
    case None =>
    case Some(answer) =>
      if answer != StatusAccepted {
        SameIdling(config, s.db, Receipted(s.db, command, Command(action, role, answer)), Actions(s.tasks));
      } else if !Awaits(action) {
        EffectGoesOn(config, s.db, s.tasks, command, action, role);
        var effect := ControlEffect(s.db, command, action, role);
        SameIdling(config, effect, Receipted(effect, command, Command(action, role, answer)), Actions(Started(s.tasks, CommandTask(s.db, action))));
      }
  }

  lemma SameIdling(config: Config, db: Database, after: Database, bag: multiset<Task>)
    requires SameRows(db, after)
    ensures Idling(config, db, bag) <==> Idling(config, after, bag)
  {
    SameRowsAligned(db, after);
    AlignedIdling(config, db, after, bag);
  }

  lemma EffectGoesOn(config: Config, db: Database, tasks: seq<seq<Task>>, command: CommandId, action: Action, role: Role)
    requires CoreInv(config, db, tasks) && role in db.roles && (action.Continue? ==> SafelyPaused(db))
    requires db.workflow == Active ==> !Idling(config, db, Actions(tasks))
    ensures var after := ControlEffect(db, command, action, role);
            after.workflow == Active ==> !Idling(config, after, Actions(Started(tasks, CommandTask(db, action))))
  {
    var after := ControlEffect(db, command, action, role);
    if action == Continue {
      ContinuedStored(config, db, command, role);
    } else {
      ControlAligned(db, command, action, role);
      AlignedIdling(config, db, after, Actions(tasks));
      ActionsStarted(tasks, CommandTask(db, action));
      MoreMatters(config, after, Actions(tasks), multiset(CommandTask(db, action)));
      if after.workflow == Active { EffectActive(db, command, action, role); }
    }
  }

  lemma EffectActive(db: Database, command: CommandId, action: Action, role: Role)
    requires role in db.roles && ControlEffect(db, command, action, role).workflow == Active
    ensures db.workflow == Active
  {
    match action
    case RestartFailed =>
    case ExtendCalls(_) =>
    case Continue =>
    case Restart =>
    case _ =>
  }

  /** Guidance wakes a run with nothing at work unless its calls are paused. */
  lemma GuidedWorkflow(db: Database, command: CommandId, role: Role)
    requires role in db.roles && NoneActive(db)
    ensures Resume(db, command, role, true).workflow == if db.paused then NeedsAttention else Active
  {
    assert ResumeBound(db, command, role) == db;
  }

  lemma GuidedGoesOn(config: Config, db: Database, bag: multiset<Task>, command: CommandId, role: Role, waking: bool)
    requires role in db.roles && PauseDominates(db) && (db.workflow == Active ==> !Idling(config, db, bag))
    requires waking ==> db.paused || !Idling(config, db, bag)
    ensures var after := Resume(db, command, role, waking); after.workflow == Active ==> !Idling(config, after, bag)
  {
    var after := Resume(db, command, role, waking);
    ResumeAligned(db, command, role, waking);
    ResumeMoves(db, command, role, waking);
    AlignedIdling(config, db, after, bag);
    if waking && Idling(config, db, bag) {
      assert NoneActive(db);
      GuidedWorkflow(db, command, role);
    }
  }

  lemma NewRoundMatters(config: Config, db: Database, after: Database, bag: multiset<Task>)
    requires Rounds(db) && NextRound(db, after) && AssignTo(Implementer, Implementation, after.round) in bag
    ensures !Idling(config, after, bag)
  {
    assert Matters(config, after, AssignTo(Implementer, Implementation, after.round));
  }

  lemma ReopenedGoesOn(config: Config, db: Database, tasks: seq<seq<Task>>, round: nat)
    requires Rounds(db) && db.round <= round <= db.round + 1
    requires db.workflow == Active ==> !Idling(config, db, Actions(tasks))
    requires round == db.round ==> db.paused || !Idling(config, db, Actions(tasks)) || Opening(db)
    ensures var after := Advance(db, round);
            after.workflow == Active ==> !Idling(config, after, Actions(Started(tasks, PlanTask(Reopening(round)))))
  {
    var after := Advance(db, round);
    var repair := AssignTo(Implementer, Implementation, round);
    var later := Actions(Started(tasks, PlanTask(Reopening(round))));
    ActionsStarted(tasks, PlanTask(Reopening(round)));
    assert repair in PlanTask(Reopening(round)) && repair in later;
    if round == db.round + 1 {
      AdvanceRows(db);
      NewRoundMatters(config, db, after, later);
    } else if !db.paused {
      SameIdling(config, db, after, Actions(tasks));
      MoreMatters(config, after, Actions(tasks), multiset(PlanTask(Reopening(round))));
      if Opening(db) { assert Matters(config, after, repair); }
    }
  }

  lemma PlanGoesOn(config: Config, db: Database, tasks: seq<seq<Task>>, x: Sending)
    requires Rounds(db) && PauseDominates(db) && x.role in db.roles && (db.workflow == Active ==> !Idling(config, db, Actions(tasks)))
    requires x.plan.Reopening? ==> db.round <= x.plan.round <= db.round + 1
    requires Waking(x.plan) && !db.paused && Idling(config, db, Actions(tasks)) ==>
               x.plan.Reopening? && (x.plan.round == db.round ==> Opening(db))
    ensures var after := PlanEffect(db, x.command, x.role, x.plan);
            after.workflow == Active ==> !Idling(config, after, Actions(Started(tasks, PlanTask(x.plan))))
  {
    match x.plan
    case Reopening(round) => ReopenedGoesOn(config, db, tasks, round);
    case Guiding(waking) => GuidedGoesOn(config, db, Actions(tasks), x.command, x.role, waking);
    case Aborting =>
  }

  lemma SentGoesOn(config: Config, s: Schedule, i: nat)
    requires config.Valid() && Inv(config, s) && GoesOnActive(config, s) && !Regresses(s, Sent(i)) && !IdleWake(config, s, Sent(i))
    ensures GoesOnActive(config, Next(config, s, Sent(i)))
  {
    if Writes(s, Sent(i)) {
      var x := s.sends[i];
      var effect, later := PlanEffect(s.db, x.command, x.role, x.plan), Actions(Started(s.tasks, PlanTask(x.plan)));
      SentNext(config, s, i);
      assert SendOk(config, s.db, Actions(s.tasks), x.plan);
      PlanGoesOn(config, s.db, s.tasks, x);
      SameIdling(config, effect, Receipted(effect, x.command, Command(PlanAction(x.plan), x.role, StatusAccepted)), later);
    }
  }

  // ----- actions of an active run -----

  /** What mattered beside an action that did not still does. */
  lemma BesideMatters(config: Config, db: Database, after: Database, bag: multiset<Task>, a: Task, more: multiset<Task>)
    requires Aligned(db, after) && !Idling(config, db, bag) && !Matters(config, db, a)
    ensures !Idling(config, after, bag - multiset{a} + more)
  {
    AlignedMatters(config, db, after, bag);
    if SomethingMatters(config, db, bag) {
      var b :| b in bag && Matters(config, db, b);
      StaysQueued(bag, a, more, b);
      AlignedMatter(config, db, after, b);
    }
  }

  lemma AssignGoesOn(config: Config, db: Database, bag: multiset<Task>, a: Task, connected: bool, id: AssignmentId, delivery: DeliveryId)
    requires a.AssignTo? && (connected && Assignable(db, a.role, id, delivery) <==> !AlreadyGiven(db, a.role, a.kind, a.round))
    requires db.workflow == Active ==> !Idling(config, db, bag)
    ensures var after := TaskDatabase(config, db, a, connected, id, delivery);
            after.workflow == Active ==> !Idling(config, after, bag - multiset{a} + multiset([]))
  {
    if AlreadyGiven(db, a.role, a.kind, a.round) {
      SameRowsAligned(db, db);
      if !Idling(config, db, bag) { BesideMatters(config, db, db, bag, a, multiset([])); }
    } else {
      AssignRows(db, a.role, a.kind, a.round, id, delivery);
      var after := Assign(db, a.role, a.kind, a.round, id, delivery);
      if !RepairLimitReached(db, a.role, a.kind, a.round) { assert after.roles[a.role].active == Some(id); }
    }
  }

  /** An activation that is the only thing that matters leads to its check, and the
      round is neither approved nor waiting. */
  lemma ActivateGoesOn(config: Config, db: Database, bag: multiset<Task>, a: Task)
    requires config.Valid() && Stored(config, db) && Queued(config, db, bag) && a in bag && a.ActivateRound?
    requires Matters(config, db, a) || !AllDecided(config, db, a.round)
    ensures !ApprovedReview(db) && db.pending == None
  {
    assert ActionOk(config, db, a);
    if Matters(config, db, a) { ReportedImplementation(config, db, db.round); } else { NothingExclusive(config, db, bag, a); }
    if ApprovedReview(db) { ReadyIdle(config, db); }
  }

  lemma ActivatedGoesOn(config: Config, db: Database, bag: multiset<Task>, a: Task)
    requires config.Valid() && Stored(config, db) && Queued(config, db, bag) && NoPrelude(bag) && Owed(config, db, bag) && a in bag && a.ActivateRound?
    requires db.workflow == Active ==> !Idling(config, db, bag)
    ensures var after := Activate(db, config.specialists, a.round, a.run);
            after.workflow == Active ==> !Idling(config, after, bag - multiset{a} + multiset(Follow(config, db, a)))
  {
    var after := Activate(db, config.specialists, a.round, a.run);
    assert ActionOk(config, db, a);
    if Matters(config, db, a) || !AllDecided(config, db, a.round) {
      ActivateGoesOn(config, db, bag, a);
      ActionTaken(config, db, bag, a, false, 0, 0);
      ActivateOwed(config, db, bag, a);
      ActivateGrows(db, config.specialists, a.round, a.run);
      assert !ApprovedReview(after);
      UnsettledGoesOn(config, after, bag - multiset{a} + multiset(Follow(config, db, a)));
    } else {
      DecidedAlready(config, db, a.round, a.run);
      SameRowsAligned(db, db);
      if !Idling(config, db, bag) { BesideMatters(config, db, after, bag, a, multiset(Follow(config, db, a))); }
    }
  }

  lemma CheckGoesOn(config: Config, db: Database, bag: multiset<Task>, a: Task)
    requires Sound(config, db) && a.ReviewCheck? && ActionOk(config, db, a) && PastReviewed(db)
    requires db.workflow == Active ==> !Idling(config, db, bag)
    ensures db.workflow == Active ==> !Idling(config, db, bag - multiset{a} + multiset(Follow(config, db, a)))
  {
    SameRowsAligned(db, db);
    if ReviewDue(config, db, a.round) {
      var review := AssignTo(Reviewer, Review, a.round);
      ReviewGiven(config, db, a.round);
      assert a.round == db.round;
      NewInBag(bag, a, [review], review);
      assert Matters(config, db, review);
    } else if !Idling(config, db, bag) {
      BesideMatters(config, db, db, bag, a, multiset(Follow(config, db, a)));
    }
  }

  /** The first actions of a run leave its first assignment to give. */
  lemma PreludeGoesOn(config: Config, db: Database, bag: multiset<Task>, a: Task, connected: bool, id: AssignmentId, delivery: DeliveryId)
    requires config.Valid() && Stored(config, db) && a in bag && Prelude(a) && Queued(config, db, bag) && Owed(config, db, bag)
    requires Taken(config, TaskDatabase(config, db, a, connected, id, delivery), bag, a, multiset(Follow(config, db, a)))
    ensures var after := TaskDatabase(config, db, a, connected, id, delivery);
            !Idling(config, after, bag - multiset{a} + multiset(Follow(config, db, a)))
  {
    var after := TaskDatabase(config, db, a, connected, id, delivery);
    assert ActionOk(config, db, a);
    ActionOwed(config, db, bag, a, connected, id, delivery);
    PristineStays(config, db, a, connected, id, delivery);
    UnsettledGoesOn(config, after, bag - multiset{a} + multiset(Follow(config, db, a)));
  }

  lemma PristineStays(config: Config, db: Database, a: Task, connected: bool, id: AssignmentId, delivery: DeliveryId)
    requires Prelude(a) && Pristine(db)
    ensures var after := TaskDatabase(config, db, a, connected, id, delivery); !ApprovedReview(after) && after.pending == None
  {
  }

  lemma OrdinaryGoesOn(config: Config, db: Database, bag: multiset<Task>, a: Task, connected: bool, id: AssignmentId, delivery: DeliveryId)
    requires config.Valid() && Stored(config, db) && Queued(config, db, bag) && Owed(config, db, bag) && a in bag && NoPrelude(bag)
    requires a.AssignTo? ==> (connected && Assignable(db, a.role, id, delivery) <==> !AlreadyGiven(db, a.role, a.kind, a.round))
    requires db.workflow == Active ==> !Idling(config, db, bag)
    ensures var after := TaskDatabase(config, db, a, connected, id, delivery);
            after.workflow == Active ==> !Idling(config, after, bag - multiset{a} + multiset(Follow(config, db, a)))
  {
    assert ActionOk(config, db, a);
    match a
    case AssignTo(_, _, _) => AssignGoesOn(config, db, bag, a, connected, id, delivery);
    case ActivateRound(_, _) => ActivatedGoesOn(config, db, bag, a);
    case ReviewCheck(_) => CheckGoesOn(config, db, bag, a);
    case ApproveRun =>
    case AdvanceTo(round) =>
      AdvanceRows(db);
      NewInBag(bag, a, Follow(config, db, a), AssignTo(Implementer, Implementation, round));
      NewRoundMatters(config, db, Advance(db, round), bag - multiset{a} + multiset(Follow(config, db, a)));
    case ConfirmRepair(_) => ConfirmGoesOn(config, db, bag, a);
    case _ =>
  }

  lemma ConfirmGoesOn(config: Config, db: Database, bag: multiset<Task>, a: Task)
    requires a.ConfirmRepair? && (db.workflow == Active ==> !Idling(config, db, bag))
    ensures var after := TaskDatabase(config, db, a, true, 0, 0);
            after.workflow == Active ==> !Idling(config, after, bag - multiset{a} + multiset([]))
  {
    ConfirmRows(config, db, a);
    SameRowsAligned(db, db);
    if !Idling(config, db, bag) { BesideMatters(config, db, db, bag, a, multiset([])); }
  }

  lemma ProceedGoesOn(config: Config, s: Schedule, move: Move)
    requires config.Valid() && Inv(config, s) && Owed(config, s.db, Actions(s.tasks)) && GoesOnActive(config, s) && move.Proceed?
    requires !Untimely(s, move) && !Loses(s, move)
    ensures GoesOnActive(config, Next(config, s, move))
  {
    if move.task < |s.tasks| {
      var a, rest := s.tasks[move.task][0], s.tasks[move.task][1..];
      ProceedNext(config, s, move);
      RestFollows(config, s.db, a, rest);
      HeadReplaced(s.tasks, move.task, Follow(config, s.db, a));
      if Prelude(a) {
        PreludeTaken(config, s.db, s.tasks, move);
        PreludeGoesOn(config, s.db, Actions(s.tasks), a, move.connected, move.id, move.delivery);
      } else {
        HeadPrelude(s.tasks, move.task);
        OrdinaryGoesOn(config, s.db, Actions(s.tasks), a, move.connected, move.id, move.delivery);
      }
    }
  }

  lemma InterruptGoesOn(config: Config, s: Schedule, move: Move)
    requires GoesOnActive(config, s) && !Loses(s, move) && (move.Fail? || move.Abandon? || move.Unsent? || move.Crash? || move.Reboot?)
    ensures GoesOnActive(config, Next(config, s, move))
  {
    match move
    case Reboot =>
      QuietBoot(s.db);
      AlignedIdling(config, s.db, Boot(s.db), Actions(s.tasks));
      BootActive(s.db);
    case _ =>
  }

  lemma BootActive(db: Database)
    ensures Boot(db).workflow == Active ==> db.workflow == Active
  {
    if Interrupted(db) != {} { FailedActive(db, Interrupted(db)); } else { BootedActive(db); }
  }

  lemma FailedActive(db: Database, interrupted: set<Role>)
    ensures FailHandovers(db, interrupted).workflow == Uncertain
  {
  }

  lemma BootedActive(db: Database)
    ensures BootWorkflow(db).workflow == db.workflow || BootWorkflow(db).workflow == Connecting || BootWorkflow(db).workflow == Uncertain
  {
    if db.workflow == Starting {
      assert BootWorkflow(db) == SetWorkflow(db, Connecting);
    } else if db.workflow.Routing? || db.workflow.Initializing? {
      assert BootWorkflow(db) == SetWorkflow(db, Uncertain);
    } else {
      assert BootWorkflow(db) == db;
    }
  }

  lemma MoveGoesOn(config: Config, s: Schedule, move: Move)
    requires config.Valid() && Inv(config, s) && Owed(config, s.db, Actions(s.tasks)) && GoesOnActive(config, s)
    requires !Untimely(s, move) && !Regresses(s, move) && !Loses(s, move) && !IdleWake(config, s, move)
    ensures GoesOnActive(config, Next(config, s, move))
  {
    match move
    case Background(tx) => BackgroundGoesOn(config, s, tx);
    case Begin(_) =>
    case Submit(_, _, _, _, _, _) => SubmitGoesOn(config, s, move);
    case Operate(command, action, role, link) => OperateGoesOn(config, s, command, action, role, link);
    case Proceed(_, _, _, _) => ProceedGoesOn(config, s, move);
    case Sent(i) => SentGoesOn(config, s, i);
    case _ => InterruptGoesOn(config, s, move);
  }

  lemma IdleWoken(config: Config, s: Schedule, move: Move)
    requires config.Valid() && Inv(config, s) && IdleWake(config, s, move)
    ensures !GoesOnActive(config, Next(config, s, move))
  {
    var i := move.send;
    var x := s.sends[i];
    var effect, later := PlanEffect(s.db, x.command, x.role, x.plan), Actions(Started(s.tasks, PlanTask(x.plan)));
    SentNext(config, s, i);
    ActionsStarted(s.tasks, PlanTask(x.plan));
    assert NoneActive(s.db);
    match x.plan {
      case Reopening(round) => ReopenedIdle(config, s.db, s.tasks);
      case Guiding(waking) =>
        ResumeAligned(s.db, x.command, x.role, waking);
        AlignedIdling(config, s.db, effect, Actions(s.tasks));
        GuidedWorkflow(s.db, x.command, x.role);
    }
    SameIdling(config, effect, Receipted(effect, x.command, Command(PlanAction(x.plan), x.role, StatusAccepted)), later);
  }

  lemma ReopenedIdle(config: Config, db: Database, tasks: seq<seq<Task>>)
    requires Idling(config, db, Actions(tasks)) && !db.paused && !Opening(db) && db.round > 1
    ensures var after := Advance(db, db.round);
            after.workflow == Active && Idling(config, after, Actions(Started(tasks, PlanTask(Reopening(db.round)))))
  {
    var after := Advance(db, db.round);
    var repair := AssignTo(Implementer, Implementation, db.round);
    ActionsStarted(tasks, PlanTask(Reopening(db.round)));
    SameIdling(config, db, after, Actions(tasks));
    AlignedGiven(db, after, Implementer, Implementation, db.round);
    assert !Matters(config, after, repair);
    assert forall b :: b in PlanTask(Reopening(db.round)) ==> b == repair;
  }

  /** No guidance is written that wakes the run with nothing left to do. */
  ghost predicate NeverIdleWoken(config: Config, moves: seq<Move>)
    requires config.Valid()
  {
    forall i :: 0 <= i < |moves| && Begun(config, moves[..i]) ==> !IdleWake(config, Play(config, moves[..i]), moves[i])
  }

  lemma NeverPrefix(config: Config, moves: seq<Move>, n: nat)
    requires config.Valid() && NeverIdleWoken(config, moves) && n <= |moves|
    ensures NeverIdleWoken(config, moves[..n])
  {
    forall i | 0 <= i < n && Begun(config, moves[..n][..i]) ensures !IdleWake(config, Play(config, moves[..n][..i]), moves[..n][i]) {
      assert moves[..n][..i] == moves[..i];
    }
  }

  lemma {:induction false} ScheduleGoesOn(config: Config, moves: seq<Move>)
    requires config.Valid() && Timely(config, moves) && Lossless(config, moves) && Begun(config, moves) && NeverIdleWoken(config, moves)
    ensures GoesOnActive(config, Play(config, moves))
    decreases |moves|
  {
    var n := |moves| - 1;
    if Begun(config, moves[..n]) {
      TimelyPrefix(config, moves, n);
      LosslessPrefix(config, moves, n);
      NeverPrefix(config, moves, n);
      ScheduleGoesOn(config, moves[..n]);
      LastGoesOn(config, moves);
    } else {
      FirstGoesOn(config, moves);
    }
  }

  lemma LastGoesOn(config: Config, moves: seq<Move>)
    requires config.Valid() && Timely(config, moves) && Lossless(config, moves) && NeverIdleWoken(config, moves)
    requires moves != [] && Begun(config, moves[..|moves| - 1]) && GoesOnActive(config, Play(config, moves[..|moves| - 1]))
    ensures GoesOnActive(config, Play(config, moves))
  {
    var n := |moves| - 1;
    TimelyPrefix(config, moves, n);
    LosslessPrefix(config, moves, n);
    ScheduleInv(config, moves[..n]);
    ScheduleOwed(config, moves[..n]);
    MoveGoesOn(config, Play(config, moves[..n]), moves[n]);
  }

  lemma FirstGoesOn(config: Config, moves: seq<Move>)
    requires config.Valid() && moves != [] && Begun(config, moves) && !Begun(config, moves[..|moves| - 1])
    ensures GoesOnActive(config, Play(config, moves))
  {
  }

  lemma PrefixGoesOn(config: Config, moves: seq<Move>, i: nat)
    requires config.Valid() && Timely(config, moves) && Lossless(config, moves) && NeverIdleWoken(config, moves)
    requires i <= |moves| && Begun(config, moves[..i])
    ensures GoesOnActive(config, Play(config, moves[..i]))
  {
    TimelyPrefix(config, moves, i);
    LosslessPrefix(config, moves, i);
    NeverPrefix(config, moves, i);
    ScheduleGoesOn(config, moves[..i]);
  }

  lemma WokenIdle(config: Config, moves: seq<Move>, i: nat)
    requires config.Valid() && Timely(config, moves) && i < |moves| && Begun(config, moves[..i])
    requires IdleWake(config, Play(config, moves[..i]), moves[i])
    ensures Begun(config, moves[..i + 1]) && !GoesOnActive(config, Play(config, moves[..i + 1]))
  {
    TimelyPrefix(config, moves, i);
    ScheduleInv(config, moves[..i]);
    IdleWoken(config, Play(config, moves[..i]), moves[i]);
    assert moves[..i + 1][..i] == moves[..i];
  }

  /** An active run has a role at work or a queued action with something to do, at
      every point of a timely schedule that loses no task: if and only if no
      guidance is written that wakes it with nothing left to do. */
  lemma ActiveGoesOn(config: Config, moves: seq<Move>)
    requires config.Valid() && Timely(config, moves) && Lossless(config, moves)
    ensures (forall i :: 0 <= i <= |moves| && Begun(config, moves[..i]) ==> GoesOnActive(config, Play(config, moves[..i])))
            <==> (forall i :: 0 <= i < |moves| && Begun(config, moves[..i]) ==> !IdleWake(config, Play(config, moves[..i]), moves[i]))
  {
    if forall i :: 0 <= i < |moves| && Begun(config, moves[..i]) ==> !IdleWake(config, Play(config, moves[..i]), moves[i]) {
      forall i | 0 <= i <= |moves| && Begun(config, moves[..i]) ensures GoesOnActive(config, Play(config, moves[..i])) {
        PrefixGoesOn(config, moves, i);
      }
    } else {
      var i :| 0 <= i < |moves| && Begun(config, moves[..i]) && IdleWake(config, Play(config, moves[..i]), moves[i]);
      WokenIdle(config, moves, i);
    }
  }

  // ----- what follows, one step after another -----

  /** The task that was started last goes on. */
  function Last(tasks: seq<seq<Task>>, connected: bool, id: AssignmentId, delivery: DeliveryId): Move {
    Proceed(|tasks|, connected, id, delivery)
  }

  /** An accepted plan, in which case the run is phased: the implementer is given the
      implementation of the round. */
  lemma PlanLeadsOn(config: Config, s: Schedule, move: Move, id: AssignmentId, delivery: DeliveryId)
    requires config.Valid() && Inv(config, s) && move.Submit? && move.role == Implementer && move.kind == Plan
    requires Implementer in s.db.roles && s.db.roles[Implementer].generation == move.generation && Reportable(s.db, Implementer, move.id, Plan)
    requires Assignable(s.db, Implementer, id, delivery)
    ensures var after := Next(config, Next(config, s, move), Last(s.tasks, true, id, delivery)).db;
            && id in after.assignments && after.assignments[id] == NewAssignment(Implementer, Implementation, s.db.round, delivery)
            && Implementer in after.roles && after.roles[Implementer].active == Some(id) && after.workflow == s.db.workflow
  {
    var given := AssignTo(Implementer, Implementation, s.db.round);
    var after := AcceptReport(s.db, Implementer, move.generation, move.id, Plan, move.verdict);
    ReportIsStored(config, s.db, Implementer, move.generation, move.id, Plan, move.verdict);
    ReportRows(s.db, Implementer, move.generation, move.id, Plan, move.verdict);
    assert s.db.round == 1;
    ReportNext(config, s, move, [given]);
    LastNext(config, after, s.tasks, [given], s.sends, true, id, delivery);
    AssignRows(after, Implementer, Implementation, s.db.round, id, delivery);
  }

  /** An accepted implementation: the specialists of the round that have no decision
      are decided as the activation rules say for its paths. */
  lemma ImplementationLeadsOn(config: Config, s: Schedule, move: Move)
    requires config.Valid() && Inv(config, s) && move.Submit? && move.role == Implementer && move.kind == Implementation
    requires Implementer in s.db.roles && s.db.roles[Implementer].generation == move.generation && Reportable(s.db, Implementer, move.id, Implementation)
    ensures var after := Next(config, Next(config, s, move), Last(s.tasks, true, 0, 0)).db;
            forall r :: r in config.specialists ==>
              && (r, s.db.round) in after.activations
              && after.activations[(r, s.db.round)]
                 == if (r, s.db.round) in s.db.activations then s.db.activations[(r, s.db.round)] else r in move.run
  {
    ReportRows(s.db, Implementer, move.generation, move.id, Implementation, move.verdict);
    ReportNext(config, s, move, [ActivateRound(s.db.round, move.run)]);
    LastNext(config, AcceptReport(s.db, Implementer, move.generation, move.id, Implementation, move.verdict), s.tasks,
             [ActivateRound(s.db.round, move.run)], s.sends, true, 0, 0);
  }

  /** The report of a specialist that completes the evidence of the round: its check
      passes, and the reviewer is given the round. */
  lemma EvidenceLeadsOn(config: Config, s: Schedule, move: Move, id: AssignmentId, delivery: DeliveryId)
    requires config.Valid() && Inv(config, s) && move.Submit? && move.role in config.specialists
    requires move.role in s.db.roles && s.db.roles[move.role].generation == move.generation && Reportable(s.db, move.role, move.id, move.kind)
    requires ReviewDue(config, Next(config, s, move).db, s.db.round) && Assignable(s.db, Reviewer, id, delivery)
    ensures var checked := Next(config, Next(config, s, move), Last(s.tasks, true, 0, 0));
            var after := Next(config, checked, Last(s.tasks, true, id, delivery)).db;
            && id in after.assignments && after.assignments[id] == NewAssignment(Reviewer, Review, s.db.round, delivery)
            && Reviewer in after.roles && after.roles[Reviewer].active == Some(id)
  {
    ReportIsStored(config, s.db, move.role, move.generation, move.id, move.kind, move.verdict);
    EvidenceThen(config, s, move, id, delivery);
  }

  lemma EvidenceThen(config: Config, s: Schedule, move: Move, id: AssignmentId, delivery: DeliveryId)
    requires move.Submit? && move.role != Implementer && move.role != Reviewer && Reportable(s.db, move.role, move.id, move.kind)
    requires s.db.roles[move.role].generation == move.generation && s.db.assignments[move.id].round == s.db.round
    requires ReviewDue(config, Next(config, s, move).db, s.db.round) && Assignable(s.db, Reviewer, id, delivery)
    ensures var checked := Next(config, Next(config, s, move), Last(s.tasks, true, 0, 0));
            var after := Next(config, checked, Last(s.tasks, true, id, delivery)).db;
            && id in after.assignments && after.assignments[id] == NewAssignment(Reviewer, Review, s.db.round, delivery)
            && Reviewer in after.roles && after.roles[Reviewer].active == Some(id)
  {
    var review := AssignTo(Reviewer, Review, s.db.round);
    var after := AcceptReport(s.db, move.role, move.generation, move.id, move.kind, move.verdict);
    ReportRows(s.db, move.role, move.generation, move.id, move.kind, move.verdict);
    ReportNext(config, s, move, [ReviewCheck(s.db.round)]);
    assert [review] + [] == [review];
    LastNext(config, after, s.tasks, [ReviewCheck(s.db.round)], s.sends, true, 0, 0);
    LastNext(config, after, s.tasks, [review], s.sends, true, id, delivery);
    AssignRows(after, Reviewer, Review, s.db.round, id, delivery);
  }

  /** An approving review makes the run ready in its round, any other review opens
      the next round; paused calls keep it from being ready or active. */
  lemma ReviewLeadsOn(config: Config, s: Schedule, move: Move)
    requires config.Valid() && Inv(config, s) && move.Submit? && move.role == Reviewer
    requires Reviewer in s.db.roles && s.db.roles[Reviewer].generation == move.generation && Reportable(s.db, Reviewer, move.id, move.kind)
    ensures var after := Next(config, Next(config, s, move), Last(s.tasks, true, 0, 0)).db;
            && after.round == (if move.verdict == Approved then s.db.round else s.db.round + 1)
            && after.workflow == (if s.db.paused then NeedsAttention else if move.verdict == Approved then Ready else Active)
  {
    ReportIsStored(config, s.db, Reviewer, move.generation, move.id, move.kind, move.verdict);
    ReviewThen(config, s, move);
  }

  lemma ReviewThen(config: Config, s: Schedule, move: Move)
    requires move.Submit? && move.role == Reviewer && Reportable(s.db, Reviewer, move.id, move.kind)
    requires s.db.roles[Reviewer].generation == move.generation && s.db.assignments[move.id].round == s.db.round
    ensures var after := Next(config, Next(config, s, move), Last(s.tasks, true, 0, 0)).db;
            && after.round == (if move.verdict == Approved then s.db.round else s.db.round + 1)
            && after.workflow == (if s.db.paused then NeedsAttention else if move.verdict == Approved then Ready else Active)
  {
    var task := if move.verdict == Approved then ApproveRun else AdvanceTo(s.db.round + 1);
    ReportNext(config, s, move, [task]);
    var after := AcceptReport(s.db, Reviewer, move.generation, move.id, move.kind, move.verdict);
    ReportRows(s.db, Reviewer, move.generation, move.id, move.kind, move.verdict);
    LastNext(config, after, s.tasks, [task], s.sends, true, 0, 0);
    if move.verdict == Approved { ApprovedWorkflow(after); } else { AdvancedWorkflow(after, s.db.round + 1); }
  }

  lemma ApprovedWorkflow(db: Database)
    ensures Approve(db).round == db.round && Approve(db).workflow == if db.paused then NeedsAttention else Ready
  {
  }

  lemma AdvancedWorkflow(db: Database, round: nat)
    ensures Advance(db, round).round == round && Advance(db, round).workflow == if db.paused then NeedsAttention else Active
  {
  }

  lemma ReportNext(config: Config, s: Schedule, move: Move, task: seq<Task>)
    requires move.Submit? && move.role in s.db.roles && s.db.roles[move.role].generation == move.generation
    requires Reportable(s.db, move.role, move.id, move.kind) && task != []
    requires task == RouteReport(config, move.role, s.db.assignments[move.id].round, move.kind, move.verdict, move.run)
    ensures Next(config, s, move) == Schedule(AcceptReport(s.db, move.role, move.generation, move.id, move.kind, move.verdict), s.tasks + [task], s.sends)
  {
  }

  /** The first action of the task that was started last. */
  lemma LastNext(config: Config, db: Database, tasks: seq<seq<Task>>, task: seq<Task>, sends: seq<Sending>, connected: bool, id: AssignmentId, delivery: DeliveryId)
    requires task != []
    ensures var rest := TaskRest(config, db, task[0], task[1..]);
            Next(config, Schedule(db, tasks + [task], sends), Last(tasks, connected, id, delivery))
            == Schedule(TaskDatabase(config, db, task[0], connected, id, delivery), if rest == [] then tasks else tasks + [rest], sends)
  {
    var s := Schedule(db, tasks + [task], sends);
    var rest := TaskRest(config, db, task[0], task[1..]);
    ProceedNext(config, s, Last(tasks, connected, id, delivery));
    assert Replaced(s.tasks, |tasks|, rest) == if rest == [] then tasks else tasks + [rest];
  }

  /** The first actions of a run: it becomes active and the probe is decided. */
  ghost function Opened(config: Config, s: Schedule, probe: bool): Schedule {
    var active := Next(config, Next(config, s, Begin(probe)), Proceed(0, true, 0, 0));
    if Probe in config.specialists then Next(config, active, Proceed(0, true, 0, 0)) else active
  }

  lemma OpenedIs(config: Config, s: Schedule, probe: bool)
    requires Inv(config, s) && s.db.workflow == Connecting
    ensures var given := AssignTo(Implementer, if config.phased then Plan else Implementation, 1);
            var active := SetWorkflow(SetWorkflow(s.db, Initializing), Active);
            var rest := if Probe in config.specialists && probe then [AssignTo(Probe, Specialist, 1)] else [];
            var db := if Probe in config.specialists then Activate(active, [Probe], 1, if probe then {Probe} else {}) else active;
            Opened(config, s, probe) == Schedule(db, [[given] + rest], s.sends)
  {
    var given := AssignTo(Implementer, if config.phased then Plan else Implementation, 1);
    var db := SetWorkflow(s.db, Initializing);
    BeginNext(config, s, probe);
    if Probe in config.specialists {
      SetActiveNext(config, db, [DecideProbe(probe), given], s.sends);
      assert [DecideProbe(probe)] + [given] == [DecideProbe(probe), given];
      DecideNext(config, SetWorkflow(db, Active), probe, [given], s.sends);
    } else {
      SetActiveNext(config, db, [given], s.sends);
      assert [given] + [] == [given];
    }
  }

  /** Once all roles are connected the run becomes active, the probe is decided, and
      the implementer is given a plan or at once the implementation. */
  lemma BeginLeadsOn(config: Config, s: Schedule, probe: bool, id: AssignmentId, delivery: DeliveryId)
    requires config.Valid() && Inv(config, s) && s.db.workflow == Connecting && Assignable(s.db, Implementer, id, delivery)
    ensures var start := Opened(config, s, probe);
            var after := Next(config, start, Proceed(0, true, id, delivery)).db;
            && start.db.workflow == (if s.db.paused then NeedsAttention else Active)
            && (Probe in config.specialists ==> (Probe, 1) in start.db.activations && start.db.activations[(Probe, 1)] == probe)
            && id in after.assignments
            && after.assignments[id] == NewAssignment(Implementer, if config.phased then Plan else Implementation, 1, delivery)
  {
    SomeActions(s.tasks);
    assert Pristine(s.db);
    OpenedIs(config, s, probe);
    OpenedRows(config, s.db, probe);
    FirstGiven(config, Opened(config, s, probe), if config.phased then Plan else Implementation, id, delivery);
  }

  lemma OpenedRows(config: Config, db: Database, probe: bool)
    requires Pristine(db)
    ensures var active := SetWorkflow(SetWorkflow(db, Initializing), Active);
            var after := Activate(active, [Probe], 1, if probe then {Probe} else {});
            && active.workflow == (if db.paused then NeedsAttention else Active) && active == db.(workflow := active.workflow)
            && after == active.(activations := after.activations) && (Probe, 1) in after.activations && after.activations[(Probe, 1)] == probe
  {
    var active := SetWorkflow(SetWorkflow(db, Initializing), Active);
    assert SetWorkflow(db, Initializing) == db.(workflow := Initializing);
    assert active == db.(workflow := if db.paused then NeedsAttention else Active);
    ProbeDecided(active, probe);
  }

  lemma ProbeDecided(db: Database, probe: bool)
    requires db.activations == map[]
    ensures var after := Activate(db, [Probe], 1, if probe then {Probe} else {});
            && after == db.(activations := after.activations) && (Probe, 1) in after.activations && after.activations[(Probe, 1)] == probe
  {
    var decided := map s | s in [Probe] && (s, 1) !in db.activations :: (s, 1) := s in (if probe then {Probe} else {});
    assert Probe in [Probe] && (Probe, 1) in decided;
  }

  lemma BeginNext(config: Config, s: Schedule, probe: bool)
    requires Inv(config, s) && s.db.workflow == Connecting
    ensures var given := AssignTo(Implementer, if config.phased then Plan else Implementation, 1);
            Next(config, s, Begin(probe))
            == Schedule(SetWorkflow(s.db, Initializing),
                        [[SetActive] + if Probe in config.specialists then [DecideProbe(probe), given] else [given]], s.sends)
  {
    SomeActions(s.tasks);
    assert s.tasks == [];
    var task := StartTasks(config, probe);
    assert Started([], task) == [task];
    var given := AssignTo(Implementer, if config.phased then Plan else Implementation, 1);
    assert task == [SetActive] + if Probe in config.specialists then [DecideProbe(probe), given] else [given];
  }

  lemma SetActiveNext(config: Config, db: Database, rest: seq<Task>, sends: seq<Sending>)
    requires rest != []
    ensures Next(config, Schedule(db, [[SetActive] + rest], sends), Proceed(0, true, 0, 0)) == Schedule(SetWorkflow(db, Active), [rest], sends)
  {
    var s := Schedule(db, [[SetActive] + rest], sends);
    assert s.tasks[0][1..] == rest;
    ProceedNext(config, s, Proceed(0, true, 0, 0));
  }

  lemma DecideNext(config: Config, db: Database, probe: bool, rest: seq<Task>, sends: seq<Sending>)
    requires rest != []
    ensures Next(config, Schedule(db, [[DecideProbe(probe)] + rest], sends), Proceed(0, true, 0, 0))
            == Schedule(Activate(db, [Probe], 1, if probe then {Probe} else {}),
                        [rest + if probe then [AssignTo(Probe, Specialist, 1)] else []], sends)
  {
    var s := Schedule(db, [[DecideProbe(probe)] + rest], sends);
    assert s.tasks[0][1..] == rest;
    ProceedNext(config, s, Proceed(0, true, 0, 0));
  }

  lemma FirstGiven(config: Config, s: Schedule, kind: Kind, id: AssignmentId, delivery: DeliveryId)
    requires |s.tasks| == 1 && s.tasks[0] != [] && s.tasks[0][0] == AssignTo(Implementer, kind, 1) && Assignable(s.db, Implementer, id, delivery)
    ensures var after := Next(config, s, Proceed(0, true, id, delivery)).db;
            id in after.assignments && after.assignments[id] == NewAssignment(Implementer, kind, 1, delivery)
  {
    ProceedNext(config, s, Proceed(0, true, id, delivery));
    AssignRows(s.db, Implementer, kind, 1, id, delivery);
  }

  /** An approved continuation gives the pending repair to a connected implementer
      and ends the pause; if it could not, the run is marked uncertain. */
  lemma ContinueLeadsOn(config: Config, s: Schedule, command: CommandId, link: Link, connected: bool, id: AssignmentId, delivery: DeliveryId)
    requires config.Valid() && Inv(config, s) && Assignable(s.db, Implementer, id, delivery)
    requires ControlStatus(s.db, command, Continue, Implementer, link) == Some(StatusAccepted)
    ensures var approved := Next(config, s, Operate(command, Continue, Implementer, link));
            var given := Next(config, approved, Last(s.tasks, connected, id, delivery));
            var after := Next(config, given, Last(s.tasks, true, 0, 0)).db;
            && approved.db.workflow == Routing
            && if connected
               then
                 && id in after.assignments && after.assignments[id] == NewAssignment(Implementer, Implementation, s.db.pending.value, delivery)
                 && after.pending == None && after.workflow == (if s.db.paused then NeedsAttention else Active)
               else after.assignments == s.db.assignments && after.workflow == Uncertain
  {
    var approved := Next(config, s, Operate(command, Continue, Implementer, link));
    ContinueNext(config, s, command, link);
    PendingNext(config, approved.db, s.tasks, s.sends, s.db.pending.value, connected, id, delivery);
  }

  /** What an approved continuation queues. */
  function Continuing(round: nat): seq<Task> {
    [AssignTo(Implementer, Implementation, round), ConfirmRepair(round)]
  }

  lemma ContinueNext(config: Config, s: Schedule, command: CommandId, link: Link)
    requires Implementer in s.db.roles && s.db.pending.Some?
    requires ControlStatus(s.db, command, Continue, Implementer, link) == Some(StatusAccepted)
    ensures var approved := Next(config, s, Operate(command, Continue, Implementer, link));
            && approved == Schedule(approved.db, s.tasks + [Continuing(s.db.pending.value)], s.sends)
            && SameRows(s.db, approved.db) && approved.db.pending == s.db.pending
            && approved.db.workflow == Routing && approved.db.paused == s.db.paused
            && !RepairLimitReached(approved.db, Implementer, Implementation, s.db.pending.value)
  {
    OperateNext(config, s, command, Continue, Implementer, link);
    ApprovedRoom(s.db, Next(config, s, Operate(command, Continue, Implementer, link)).db, command);
  }

  lemma PendingNext(config: Config, db: Database, tasks: seq<seq<Task>>, sends: seq<Sending>, round: nat, connected: bool, id: AssignmentId, delivery: DeliveryId)
    requires Assignable(db, Implementer, id, delivery) && round > 1 && db.pending == Some(round) && db.workflow == Routing
    requires !RepairLimitReached(db, Implementer, Implementation, round)
    ensures var given := Next(config, Schedule(db, tasks + [Continuing(round)], sends), Last(tasks, connected, id, delivery));
            var after := Next(config, given, Last(tasks, true, 0, 0)).db;
            if connected
            then
              && id in after.assignments && after.assignments[id] == NewAssignment(Implementer, Implementation, round, delivery)
              && after.pending == None && after.workflow == (if db.paused then NeedsAttention else Active)
            else after.assignments == db.assignments && after.workflow == Uncertain
  {
    LastNext(config, db, tasks, Continuing(round), sends, connected, id, delivery);
    assert Continuing(round)[1..] == [ConfirmRepair(round)];
    var given := TaskDatabase(config, db, Continuing(round)[0], connected, id, delivery);
    LastNext(config, given, tasks, [ConfirmRepair(round)], sends, true, 0, 0);
    ConfirmRows(config, given, ConfirmRepair(round));
    if connected { RepairGiven(db, round, id, delivery); }
  }

  /** The raised cap has room for the pending repair. */
  lemma ApprovedRoom(db: Database, after: Database, command: CommandId)
    requires SafelyPaused(db) && Implementer in db.roles
    requires after == Receipted(ControlEffect(db, command, Continue, Implementer), command, Command(Continue, Implementer, StatusAccepted))
    ensures SameRows(db, after) && after.pending == db.pending && after.workflow == Routing && after.paused == db.paused
    ensures forall round :: !RepairLimitReached(after, Implementer, Implementation, round)
  {
    assert RepairRounds(after) == RepairRounds(db);
  }

  lemma RepairGiven(db: Database, round: nat, id: AssignmentId, delivery: DeliveryId)
    requires Assignable(db, Implementer, id, delivery) && round > 1 && db.pending == Some(round)
    requires !RepairLimitReached(db, Implementer, Implementation, round)
    ensures var after := Assign(db, Implementer, Implementation, round, id, delivery);
            && id in after.assignments && after.assignments[id] == NewAssignment(Implementer, Implementation, round, delivery)
            && after.pending == None && after.workflow == (if db.paused then NeedsAttention else Active)
            && AlreadyGiven(after, Implementer, Implementation, round) && !Unconfirmed(after, round)
  {
    var after := Assign(db, Implementer, Implementation, round, id, delivery);
    assert after.assignments[id] == NewAssignment(Implementer, Implementation, round, delivery);
  }
}
