/** Safety over every schedule, with routing tasks and commands that overlap:
    assignment integrity, approval, and the dominance of the pause. */

module Approval {
  import opened Options
  import opened Tables
  import opened Transactions
  import opened Runs
  import opened Monotone
  import opened Routing
  import opened Integrity
  import opened Workflows

  ghost predicate ApprovedReview(db: Database) {
    exists id :: id in db.reports && db.reports[id].role == Reviewer && db.reports[id].round == db.round && db.reports[id].verdict == Approved
  }

  ghost predicate AllDecided(config: Config, db: Database, round: nat) {
    forall s :: s in config.specialists ==> (s, round) in db.activations
  }

  /** Every round before the current one had its review. */
  ghost predicate PastReviewed(db: Database) {
    forall round: nat :: 1 <= round < db.round ==> ReviewAssigned(db, round)
  }

  ghost predicate Pristine(db: Database) {
    db.assignments == map[] && db.reports == map[] && db.activations == map[] && db.round == 1 && db.pending == None
  }

  // ----- a round that is opening -----

  /** The current round is a repair that was not given to the implementer yet. */
  ghost predicate Opening(db: Database) {
    db.round > 1 && !AlreadyGiven(db, Implementer, Implementation, db.round)
  }

  /** Nothing is at work in it. */
  ghost predicate OpeningIdle(db: Database) {
    Opening(db) ==> NoneActive(db)
  }

  /** A repair that waits for approval is the one of such a round. */
  ghost predicate PendingOpen(db: Database) {
    db.pending.Some? ==> db.pending.value == db.round && Opening(db)
  }

  // ----- what an action still to be taken relies on -----

  predicate Repair(action: Task) {
    action.AssignTo? && action.role == Implementer && action.kind == Implementation && action.round > 1
  }

  ghost predicate ActionOk(config: Config, db: Database, action: Task) {
    match action
    case SetActive => Pristine(db)
    case DecideProbe(_) => Pristine(db) && Probe in config.specialists
    case AssignTo(role, kind, round) =>
      if role == Reviewer then kind == Review && 1 <= round <= db.round && Evidence(config, db, round)
      else if Repair(action) then round <= db.round && (round < db.round ==> AlreadyGiven(db, role, kind, round))
      else Assigning(config, db, role, kind, round)
    case ActivateRound(round, _) => 1 <= round <= db.round && (round < db.round ==> AllDecided(config, db, round))
    case ReviewCheck(round) => 1 <= round <= db.round
    case ApproveRun => ApprovedReview(db)
    case AdvanceTo(round) => round == db.round + 1 && NoneActive(db) && ReviewAssigned(db, db.round)
    case ConfirmRepair(_) => true
  }

  /** Actions that end a round. */
  predicate Exclusive(action: Task) {
    action.ApproveRun? || action.AdvanceTo?
  }

  /** Actions left over from a round that is settled: they store nothing, unless
      something is stored that was given already. */
  ghost predicate Harmless(config: Config, db: Database, action: Task) {
    match action
    case ReviewCheck(_) => true
    case ConfirmRepair(_) => true
    case ActivateRound(round, _) => AllDecided(config, db, round)
    case AssignTo(role, kind, round) =>
      if role == Reviewer then ReviewAssigned(db, round) else Repair(action) && AlreadyGiven(db, role, kind, round)
    case _ => false
  }

  ghost predicate Each(config: Config, db: Database, bag: multiset<Task>) {
    forall a :: a in bag ==> ActionOk(config, db, a)
  }

  /** Reviews and repairs may be queued more than once. */
  predicate Single(a: Task) {
    a.AssignTo? && a.role != Reviewer && !Repair(a)
  }

  predicate SameTarget(a: Task, b: Task) {
    Single(a) && Single(b) && a.role == b.role
  }

  ghost predicate OneEach(bag: multiset<Task>) {
    forall a, b :: a in bag && b in bag && SameTarget(a, b) ==> a == b && bag[a] == 1
  }

  ghost predicate Alone(config: Config, db: Database, bag: multiset<Task>) {
    forall a :: a in bag && Exclusive(a) ==> bag[a] == 1 && forall b :: b in bag ==> b == a || Harmless(config, db, b)
  }

  ghost predicate AllHarmless(config: Config, db: Database, bag: multiset<Task>) {
    forall a :: a in bag ==> Harmless(config, db, a)
  }

  // ----- the invariant -----

  ghost predicate ReadyApproved(db: Database) {
    db.workflow == Ready ==> ApprovedReview(db)
  }

  /** While a repair is not given yet, its assignment is the only action that can
      matter. */
  ghost predicate OpeningBag(config: Config, db: Database, bag: multiset<Task>) {
    Opening(db) ==> forall a :: a in bag ==> Harmless(config, db, a) || a == AssignTo(Implementer, Implementation, db.round)
  }

  ghost predicate ReadyBag(config: Config, db: Database, bag: multiset<Task>) {
    db.workflow == Ready ==> AllHarmless(config, db, bag)
  }

  ghost predicate FreshStart(db: Database, bag: multiset<Task>) {
    Unstarted(db.workflow) ==> Pristine(db) && bag == multiset{}
  }

  ghost predicate Stored(config: Config, db: Database) {
    Sound(config, db) && PastReviewed(db) && ReadyApproved(db) && PauseDominates(db) && OpeningIdle(db) && PendingOpen(db)
  }

  ghost predicate Queued(config: Config, db: Database, bag: multiset<Task>) {
    && Each(config, db, bag) && OneEach(bag) && Alone(config, db, bag)
    && OpeningBag(config, db, bag) && ReadyBag(config, db, bag) && FreshStart(db, bag)
  }

  predicate Prelude(action: Task) {
    action.SetActive? || action.DecideProbe?
  }

  /** What is left of the starting task while its first actions are. */
  predicate Preluded(task: seq<Task>) {
    || (|task| == 2 && Prelude(task[0]) && task[1].AssignTo? && task[1].role == Implementer)
    || (|task| == 3 && task[0].SetActive? && task[1].DecideProbe? && task[2].AssignTo? && task[2].role == Implementer)
  }

  /** The first actions of a run come before all others. */
  ghost predicate Ordered(tasks: seq<seq<Task>>) {
    && (forall i :: 0 <= i < |tasks| ==> tasks[i] != [])
    && forall i, j :: 0 <= i < |tasks| && 0 <= j < |tasks[i]| && Prelude(tasks[i][j]) ==> |tasks| == 1 && Preluded(tasks[i])
  }

  ghost predicate CoreInv(config: Config, db: Database, tasks: seq<seq<Task>>) {
    Stored(config, db) && Queued(config, db, Actions(tasks)) && Ordered(tasks)
  }

  /** The current round is approved and nothing queued can still matter. */
  ghost predicate Settled(config: Config, db: Database, bag: multiset<Task>) {
    ApprovedReview(db) && AllHarmless(config, db, bag)
  }

  /** What guidance in flight relies on: the round it opens is the next one and
      the current one is settled, or it was opened by someone else. */
  ghost predicate SendOk(config: Config, db: Database, bag: multiset<Task>, plan: Plan) {
    plan.Reopening? ==> 1 < plan.round <= db.round + 1 && (plan.round == db.round + 1 ==> Settled(config, db, bag))
  }

  ghost predicate InFlight(config: Config, db: Database, bag: multiset<Task>, sends: seq<Sending>) {
    forall x :: x in sends ==> SendOk(config, db, bag, x.plan)
  }

  ghost predicate Inv(config: Config, s: Schedule) {
    CoreInv(config, s.db, s.tasks) && InFlight(config, s.db, Actions(s.tasks), s.sends)
  }

  lemma ReadyIdle(config: Config, db: Database)
    requires config.Valid() && Sound(config, db) && ApprovedReview(db)
    ensures NoneActive(db) && Evidence(config, db, db.round) && ReviewAssigned(db, db.round)
  {
    var id :| id in db.reports && db.reports[id].role == Reviewer && db.reports[id].round == db.round && db.reports[id].verdict == Approved;
    assert db.assignments[id].role == Reviewer && db.assignments[id].round == db.round && db.assignments[id].state == Completed;
    ReviewEndsRound(config, db, id);
  }

  /** An exclusive action waits only where nothing is at work. */
  lemma ExclusiveIdle(config: Config, db: Database, action: Task)
    requires config.Valid() && Sound(config, db) && ActionOk(config, db, action) && (Exclusive(action) || Prelude(action))
    ensures NoneActive(db)
  {
    if action.ApproveRun? { ReadyIdle(config, db); }
  }

  lemma ApprovedGiven(config: Config, db: Database)
    requires config.Valid() && Sound(config, db) && ReviewAssigned(db, db.round)
    ensures !Opening(db)
  {
    var review :| review in db.assignments && db.assignments[review].role == Reviewer && db.assignments[review].round == db.round;
    assert Evidence(config, db, db.round);
    ReportedImplementation(config, db, db.round);
  }

  lemma SubBag(config: Config, db: Database, bag: multiset<Task>, sub: multiset<Task>)
    requires Queued(config, db, bag) && sub <= bag
    ensures Queued(config, db, sub)
  {
    assert forall a :: a in sub ==> a in bag && sub[a] <= bag[a];
  }

  // ----- transactions that route nothing -----

  lemma AlignedAssigning(config: Config, db: Database, after: Database, role: Role, kind: Kind, round: nat)
    requires Aligned(db, after) && Assigning(config, db, role, kind, round)
    ensures Assigning(config, after, role, kind, round)
  {
    EvidenceGrows(config, db, after, round);
  }

  lemma AlignedReviewed(db: Database, after: Database, round: nat)
    requires Aligned(db, after)
    ensures ReviewAssigned(db, round) <==> ReviewAssigned(after, round)
  {
  }

  lemma AlignedGiven(db: Database, after: Database, role: Role, kind: Kind, round: nat)
    requires Aligned(db, after)
    ensures AlreadyGiven(db, role, kind, round) <==> AlreadyGiven(after, role, kind, round)
  {
  }

  lemma AlignedPristine(db: Database, after: Database)
    requires Aligned(db, after) && after.pending == db.pending && Pristine(db)
    ensures Pristine(after)
  {
    assert after.assignments.Keys == {};
    assert after.assignments == map[];
  }

  lemma AlignedAction(config: Config, db: Database, after: Database, action: Task)
    requires Aligned(db, after) && after.pending == db.pending
    ensures ActionOk(config, db, action) ==> ActionOk(config, after, action)
    ensures Harmless(config, db, action) ==> Harmless(config, after, action)
  {
    match action
    case SetActive => if Pristine(db) { AlignedPristine(db, after); }
    case DecideProbe(_) => if Pristine(db) { AlignedPristine(db, after); }
    case AssignTo(role, kind, round) =>
      EvidenceGrows(config, db, after, round);
      AlignedReviewed(db, after, round);
      AlignedGiven(db, after, role, kind, round);
      if Single(action) && Assigning(config, db, role, kind, round) { AlignedAssigning(config, db, after, role, kind, round); }
    case AdvanceTo(round) => AlignedReviewed(db, after, db.round);
    case _ =>
  }

  lemma AlignedOpening(db: Database, after: Database)
    requires Aligned(db, after)
    ensures Opening(db) <==> Opening(after)
    ensures OpeningIdle(db) ==> OpeningIdle(after)
  {
    AlignedGiven(db, after, Implementer, Implementation, db.round);
  }

  lemma AlignedStored(config: Config, db: Database, after: Database)
    requires Stored(config, db) && Aligned(db, after) && after.pending == db.pending && WorkflowMoves(db, after)
    ensures Stored(config, after)
  {
    AlignedSound(config, db, after);
    AlignedOpening(db, after);
    forall round: nat | 1 <= round < after.round ensures ReviewAssigned(after, round) {
      AlignedReviewed(db, after, round);
    }
  }

  lemma AlignedQueued(config: Config, db: Database, after: Database, bag: multiset<Task>)
    requires Queued(config, db, bag) && Aligned(db, after) && after.pending == db.pending && WorkflowMoves(db, after)
    ensures Queued(config, after, bag)
  {
    AlignedOpening(db, after);
    forall a ensures ActionOk(config, db, a) ==> ActionOk(config, after, a)
             ensures Harmless(config, db, a) ==> Harmless(config, after, a)
    {
      AlignedAction(config, db, after, a);
    }
    if Unstarted(after.workflow) { AlignedPristine(db, after); }
  }

  lemma AlignedSettled(config: Config, db: Database, after: Database, bag: multiset<Task>)
    requires Aligned(db, after) && after.pending == db.pending && Settled(config, db, bag)
    ensures Settled(config, after, bag)
  {
    forall a | a in bag ensures Harmless(config, after, a) { AlignedAction(config, db, after, a); }
  }

  /** What a move keeps for guidance in flight: rounds only go on, and a settled
      round stays settled while it lasts. */
  ghost predicate GoesOn(config: Config, db: Database, bag: multiset<Task>, after: Database, later: multiset<Task>) {
    && db.round <= after.round
    && (after.round == db.round && Settled(config, db, bag) ==> Settled(config, after, later))
  }

  lemma SendsGoOn(config: Config, db: Database, bag: multiset<Task>, after: Database, later: multiset<Task>, sends: seq<Sending>)
    requires InFlight(config, db, bag, sends) && GoesOn(config, db, bag, after, later)
    ensures InFlight(config, after, later, sends)
  {
  }

  lemma AlignedInv(config: Config, db: Database, tasks: seq<seq<Task>>, after: Database)
    requires CoreInv(config, db, tasks) && Aligned(db, after) && after.pending == db.pending && WorkflowMoves(db, after)
    ensures CoreInv(config, after, tasks) && GoesOn(config, db, Actions(tasks), after, Actions(tasks))
  {
    AlignedStored(config, db, after);
    AlignedQueued(config, db, after, Actions(tasks));
    if Settled(config, db, Actions(tasks)) { AlignedSettled(config, db, after, Actions(tasks)); }
  }

  /** With nothing at work every stored assignment is completed. */
  lemma IdleCompleted(db: Database)
    requires Pointers(db) && NoneActive(db)
    ensures AllCompleted(db)
  {
  }

  lemma OwnerNotReady(config: Config, db: Database, role: Role, id: AssignmentId)
    requires config.Valid() && Sound(config, db) && ReadyApproved(db)
    requires role in db.roles && db.roles[role].active == Some(id)
    ensures db.workflow != Ready
  {
    if db.workflow == Ready { ReadyIdle(config, db); }
  }

  /** A denied call pauses the run, and never in the ready state: a role that
      asks holds an assignment. */
  lemma ProviderMoves(config: Config, db: Database, role: Role, generation: nat, id: AssignmentId, resume: Option<CommandId>, request: RequestId)
    requires config.Valid() && Sound(config, db) && ReadyApproved(db) && PauseDominates(db)
    ensures IncidentalMoves(db, ProviderTurn(db, role, generation, id, resume, request))
  {
    var decision := ProviderTurnDecision(db, role, generation, id, resume, request);
    DecisionPause(db, role, generation, id, resume, request);
    match decision
    case Refused =>
    case Decided(reserved, granted) =>
      OwnerNotReady(config, db, role, id);
      if !granted {
        DeniedWorkflow(db, reserved, role, id);
      }
  }

  lemma BackgroundInv(config: Config, db: Database, tasks: seq<seq<Task>>, tx: Transaction)
    requires config.Valid() && CoreInv(config, db, tasks) && !Routes(tx)
    ensures CoreInv(config, Apply(db, tx), tasks) && GoesOn(config, db, Actions(tasks), Apply(db, tx), Actions(tasks))
  {
    if Incidental(tx) {
      QuietIncidental(db, tx);
      BackgroundMoves(db, tx);
      AlignedInv(config, db, tasks, Apply(db, tx));
    } else if tx.role in db.roles && db.roles[tx.role].generation == tx.generation {
      var f := tx.frame;
      ShapedProviderTurn(db, tx.role, tx.generation, f.id, f.resume, f.request);
      ProviderMoves(config, db, tx.role, tx.generation, f.id, f.resume, f.request);
      AlignedInv(config, db, tasks, ProviderTurn(db, tx.role, tx.generation, f.id, f.resume, f.request));
    }
  }

  // ----- bags of actions -----

  lemma {:induction false} ActionsReplaced(tasks: seq<seq<Task>>, i: nat, task: seq<Task>)
    requires i < |tasks|
    ensures Actions(Replaced(tasks, i, task)) + multiset(tasks[i]) == Actions(tasks) + multiset(task)
    decreases |tasks|
  {
    var after := Replaced(tasks, i, task);
    if i == 0 {
      if task == [] {
        assert after == tasks[1..];
      } else {
        assert after[0] == task && after[1..] == tasks[1..];
      }
    } else {
      ActionsReplaced(tasks[1..], i - 1, task);
      assert tasks[1..][i - 1] == tasks[i];
      assert after[0] == tasks[0];
      assert after[1..] == Replaced(tasks[1..], i - 1, task);
      assert Actions(after) == multiset(tasks[0]) + Actions(Replaced(tasks[1..], i - 1, task));
      Front(multiset(tasks[0]), Actions(Replaced(tasks[1..], i - 1, task)), multiset(tasks[i]), Actions(tasks[1..]), multiset(task));
    }
  }

  lemma Front(head: multiset<Task>, a: multiset<Task>, b: multiset<Task>, c: multiset<Task>, d: multiset<Task>)
    requires a + b == c + d
    ensures head + a + b == head + c + d
  {
    assert head + a + b == head + (a + b);
  }

  lemma {:induction false} ActionsStarted(tasks: seq<seq<Task>>, task: seq<Task>)
    ensures Actions(Started(tasks, task)) == Actions(tasks) + multiset(task)
    decreases |tasks|
  {
    if task == [] {
    } else if tasks == [] {
      assert Started(tasks, task)[1..] == [];
    } else {
      ActionsStarted(tasks[1..], task);
      assert Started(tasks, task)[0] == tasks[0] && Started(tasks, task)[1..] == Started(tasks[1..], task);
    }
  }

  lemma {:induction false} ActionsHold(tasks: seq<seq<Task>>, i: nat, j: nat)
    requires i < |tasks| && j < |tasks[i]|
    ensures tasks[i][j] in Actions(tasks)
    decreases |tasks|
  {
    if i == 0 {
      assert tasks[0][j] in multiset(tasks[0]);
    } else {
      assert tasks[1..][i - 1] == tasks[i];
      ActionsHold(tasks[1..], i - 1, j);
    }
  }

  lemma {:induction false} ActionsFrom(tasks: seq<seq<Task>>, a: Task) returns (i: nat, j: nat)
    requires a in Actions(tasks)
    ensures i < |tasks| && j < |tasks[i]| && tasks[i][j] == a
    decreases |tasks|
  {
    if a in tasks[0] {
      i := 0;
      j :| 0 <= j < |tasks[0]| && tasks[0][j] == a;
    } else {
      var k;
      k, j := ActionsFrom(tasks[1..], a);
      i := k + 1;
    }
  }

  /** The head of a task is replaced by `more`, in front of the rest. */
  lemma HeadReplaced(tasks: seq<seq<Task>>, i: nat, more: seq<Task>)
    requires i < |tasks| && tasks[i] != []
    ensures var a := tasks[i][0];
            && a in Actions(tasks)
            && Actions(Replaced(tasks, i, more + tasks[i][1..])) == Actions(tasks) - multiset{a} + multiset(more)
            && Actions(Replaced(tasks, i, tasks[i][1..] + more)) == Actions(tasks) - multiset{a} + multiset(more)
  {
    var a, rest := tasks[i][0], tasks[i][1..];
    assert tasks[i] == [a] + rest;
    Split([a], rest);
    Split(more, rest);
    Split(rest, more);
    ActionsReplaced(tasks, i, more + rest);
    ActionsReplaced(tasks, i, rest + more);
    ActionsHold(tasks, i, 0);
    Exchange(Actions(Replaced(tasks, i, more + rest)), Actions(tasks), a, multiset(rest), multiset(more));
    Exchange(Actions(Replaced(tasks, i, rest + more)), Actions(tasks), a, multiset(rest), multiset(more));
  }

  lemma Split(a: seq<Task>, b: seq<Task>)
    ensures multiset(a + b) == multiset(a) + multiset(b)
  {
  }

  lemma Exchange(after: multiset<Task>, before: multiset<Task>, a: Task, rest: multiset<Task>, more: multiset<Task>)
    requires after + (multiset{a} + rest) == before + (more + rest) && a in before
    ensures after == before - multiset{a} + more
  {
    forall x ensures after[x] == (before - multiset{a} + more)[x] {
      assert (after + (multiset{a} + rest))[x] == (before + (more + rest))[x];
    }
  }

  // ----- more rows, more certainty -----

  /** Rows were added, none was removed or given to someone else. */
  ghost predicate Grown(db: Database, after: Database) {
    && (forall id :: id in db.assignments ==>
          && id in after.assignments
          && after.assignments[id].role == db.assignments[id].role && after.assignments[id].round == db.assignments[id].round
          && after.assignments[id].kind == db.assignments[id].kind)
    && Submap(db.reports, after.reports) && Submap(db.activations, after.activations)
  }

  lemma GrownReviewed(db: Database, after: Database, round: nat)
    requires Grown(db, after) && ReviewAssigned(db, round)
    ensures ReviewAssigned(after, round)
  {
  }

  lemma GrownGiven(db: Database, after: Database, role: Role, kind: Kind, round: nat)
    requires Grown(db, after) && AlreadyGiven(db, role, kind, round)
    ensures AlreadyGiven(after, role, kind, round)
  {
  }

  lemma GrownHarmless(config: Config, db: Database, after: Database, a: Task)
    requires Grown(db, after) && Harmless(config, db, a)
    ensures Harmless(config, after, a)
  {
    if a.AssignTo? {
      if a.role == Reviewer { GrownReviewed(db, after, a.round); } else { GrownGiven(db, after, a.role, a.kind, a.round); }
    }
  }

  lemma GrownPast(db: Database, after: Database)
    requires Grown(db, after) && PastReviewed(db) && after.round == db.round
    ensures PastReviewed(after)
  {
    forall round: nat | 1 <= round < after.round ensures ReviewAssigned(after, round) {
      GrownReviewed(db, after, round);
    }
  }

  lemma GrownApproved(db: Database, after: Database)
    requires Grown(db, after) && after.round == db.round && ApprovedReview(db)
    ensures ApprovedReview(after)
  {
    var id :| id in db.reports && db.reports[id].role == Reviewer && db.reports[id].round == db.round && db.reports[id].verdict == Approved;
    assert after.reports[id] == db.reports[id];
  }

  /** Actions that depend on nothing but what only grows. */
  lemma GrownAction(config: Config, db: Database, after: Database, b: Task)
    requires Grown(db, after) && after.round == db.round && ActionOk(config, db, b)
    requires !Prelude(b) && !Exclusive(b) && !Single(b)
    ensures ActionOk(config, after, b)
  {
    if b.AssignTo? {
      EvidenceGrows(config, db, after, b.round);
      if Repair(b) && b.round < db.round { GrownGiven(db, after, b.role, b.kind, b.round); }
    }
  }

  // ----- an assignment is stored -----

  ghost predicate NoPrelude(bag: multiset<Task>) {
    forall a :: a in bag ==> !Prelude(a)
  }

  lemma InsertGrows(db: Database, after: Database, role: Role, id: AssignmentId, row: Assignment)
    requires role in db.roles && id !in db.assignments && SameRows(Insert(db, role, id, row), after)
    ensures Grown(db, after)
  {
  }

  /** Storing an assignment of one role leaves the assignments of the others
      allowed. */
  lemma InsertAssigning(config: Config, db: Database, after: Database, role: Role, kind: Kind, id: AssignmentId, delivery: DeliveryId, b: Task)
    requires role in db.roles && id !in db.assignments
    requires SameRows(Insert(db, role, id, NewAssignment(role, kind, db.round, delivery)), after)
    requires Single(b) && b.role != role && Assigning(config, db, b.role, b.kind, b.round)
    ensures Assigning(config, after, b.role, b.kind, b.round)
  {
    if b.kind == Implementation { assert b.role == Implementer; }
  }

  lemma InsertAction(config: Config, db: Database, after: Database, role: Role, kind: Kind, id: AssignmentId, delivery: DeliveryId, b: Task)
    requires role in db.roles && id !in db.assignments
    requires SameRows(Insert(db, role, id, NewAssignment(role, kind, db.round, delivery)), after)
    requires ActionOk(config, db, b) && !Prelude(b) && !Exclusive(b) && (Single(b) ==> b.role != role)
    ensures ActionOk(config, after, b)
  {
    InsertGrows(db, after, role, id, NewAssignment(role, kind, db.round, delivery));
    if Single(b) {
      InsertAssigning(config, db, after, role, kind, id, delivery, b);
    } else {
      GrownAction(config, db, after, b);
    }
  }

  /** Nothing exclusive waits beside an action that still matters. */
  lemma NothingExclusive(config: Config, db: Database, bag: multiset<Task>, a: Task)
    requires Queued(config, db, bag) && PendingOpen(db) && a in bag && !Exclusive(a) && !Harmless(config, db, a) && !Repair(a)
    ensures forall b :: b in bag ==> !Exclusive(b)
    ensures db.workflow != Ready && !Opening(db) && db.pending == None
  {
  }

  /** Nor while a repair is not given yet. */
  lemma OpeningOrdinary(config: Config, db: Database, bag: multiset<Task>)
    requires config.Valid() && Stored(config, db) && Queued(config, db, bag) && Opening(db)
    ensures forall b :: b in bag ==> !Exclusive(b) && !Single(b)
    ensures db.workflow != Ready
  {
    if db.workflow == Ready {
      ReadyIdle(config, db);
      ApprovedGiven(config, db);
    }
  }

  lemma StoredGiven(config: Config, db: Database, a: Task, id: AssignmentId, delivery: DeliveryId)
    requires Stored(config, db) && a.AssignTo? && Assigning(config, db, a.role, a.kind, a.round)
    requires Assignable(db, a.role, id, delivery) && !RepairLimitReached(db, a.role, a.kind, a.round)
    requires db.workflow != Ready && (Opening(db) ==> Repair(a))
    ensures var after := Assign(db, a.role, a.kind, a.round, id, delivery);
            && Stored(config, after) && !Opening(after) && after.pending == None && after.workflow != Ready
            && (Unstarted(after.workflow) ==> Unstarted(db.workflow))
  {
    var after := Assign(db, a.role, a.kind, a.round, id, delivery);
    AssignSound(config, db, a.role, a.kind, a.round, id, delivery);
    AssignRows(db, a.role, a.kind, a.round, id, delivery);
    InsertGrows(db, after, a.role, id, NewAssignment(a.role, a.kind, a.round, delivery));
    GrownPast(db, after);
    GivenNow(db, after, a, id, delivery);
  }

  lemma GivenNow(db: Database, after: Database, a: Task, id: AssignmentId, delivery: DeliveryId)
    requires a.AssignTo? && a.round == db.round && a.role in db.roles && id !in db.assignments
    requires SameRows(Insert(db, a.role, id, NewAssignment(a.role, a.kind, a.round, delivery)), after)
    ensures AlreadyGiven(after, a.role, a.kind, a.round)
    ensures (Opening(db) ==> Repair(a)) ==> !Opening(after)
  {
    assert after.assignments[id] == NewAssignment(a.role, a.kind, a.round, delivery);
    if !Opening(db) && db.round > 1 {
      InsertGrows(db, after, a.role, id, NewAssignment(a.role, a.kind, a.round, delivery));
      GrownGiven(db, after, Implementer, Implementation, db.round);
    }
  }

  lemma RestQueued(config: Config, db: Database, after: Database, bag: multiset<Task>, a: Task, id: AssignmentId, delivery: DeliveryId)
    requires Queued(config, db, bag) && NoPrelude(bag) && a in bag && a.AssignTo? && a.round == db.round
    requires a.role in db.roles && id !in db.assignments
    requires SameRows(Insert(db, a.role, id, NewAssignment(a.role, a.kind, a.round, delivery)), after)
    requires !Opening(after) && after.workflow != Ready && !Unstarted(after.workflow)
    requires forall b :: b in bag ==> !Exclusive(b) && (Repair(a) ==> !Single(b))
    ensures Queued(config, after, bag - multiset{a})
  {
    var rest := bag - multiset{a};
    forall b | b in rest ensures ActionOk(config, after, b) && !Exclusive(b) {
      assert b in bag;
      assert b != a || bag[a] > 1;
      if Single(b) && b.role == a.role && a.role != Reviewer { assert SameTarget(a, b); }
      InsertAction(config, db, after, a.role, a.kind, id, delivery, b);
    }
    assert forall b :: b in rest ==> b in bag && rest[b] <= bag[b];
  }

  /** The state and the rest of the actions after `a` was taken. */
  ghost predicate Taken(config: Config, after: Database, bag: multiset<Task>, a: Task, more: multiset<Task>) {
    Stored(config, after) && Queued(config, after, bag - multiset{a} + more)
  }

  lemma SkippedTaken(config: Config, db: Database, bag: multiset<Task>, a: Task)
    requires Stored(config, db) && Queued(config, db, bag) && a in bag
    ensures Taken(config, db, bag, a, multiset{})
  {
    SubBag(config, db, bag, bag - multiset{a} + multiset{});
  }

  lemma AssigningNow(config: Config, db: Database, a: Task)
    requires config.Valid() && Stored(config, db) && a.AssignTo? && ActionOk(config, db, a)
    requires !AlreadyGiven(db, a.role, a.kind, a.round)
    ensures Assigning(config, db, a.role, a.kind, a.round) && !Harmless(config, db, a)
    ensures Repair(a) ==> Opening(db)
  {
    if a.role == Reviewer {
      ReviewGiven(config, db, a.round);
      assert a.round == db.round;
      ReviewAssigning(config, db);
    } else if Repair(a) {
      assert a.round == db.round && Opening(db);
      assert Implementer in config.Roles();
    }
  }

  /** Every reviewer assignment is a review. */
  lemma ReviewGiven(config: Config, db: Database, round: nat)
    requires Sound(config, db)
    ensures ReviewAssigned(db, round) <==> AlreadyGiven(db, Reviewer, Review, round)
  {
    forall id | id in db.assignments && db.assignments[id].role == Reviewer ensures db.assignments[id].kind == Review {
      assert KindFits(config, Reviewer, db.assignments[id].kind);
    }
  }

  lemma ReviewAssigning(config: Config, db: Database)
    requires config.Valid() && Sound(config, db) && Evidence(config, db, db.round) && !ReviewAssigned(db, db.round)
    ensures Assigning(config, db, Reviewer, Review, db.round)
  {
    assert Reviewer in config.Roles();
    assert forall id :: id in db.assignments && db.assignments[id].role == Reviewer ==> db.assignments[id].round != db.round;
  }

  /** An assignment is stored, and its role had no other one waiting. */
  lemma GivenTaken(config: Config, db: Database, bag: multiset<Task>, a: Task, id: AssignmentId, delivery: DeliveryId)
    requires config.Valid() && Stored(config, db) && Queued(config, db, bag) && NoPrelude(bag) && a in bag && a.AssignTo?
    requires !AlreadyGiven(db, a.role, a.kind, a.round)
    requires Assignable(db, a.role, id, delivery) && !RepairLimitReached(db, a.role, a.kind, a.round)
    ensures Taken(config, Assign(db, a.role, a.kind, a.round, id, delivery), bag, a, multiset{})
  {
    var after := Assign(db, a.role, a.kind, a.round, id, delivery);
    AssigningNow(config, db, a);
    if Repair(a) { OpeningOrdinary(config, db, bag); } else { NothingExclusive(config, db, bag, a); }
    StoredGiven(config, db, a, id, delivery);
    AssignRows(db, a.role, a.kind, a.round, id, delivery);
    RestQueued(config, db, after, bag, a, id, delivery);
    assert bag - multiset{a} + multiset{} == bag - multiset{a};
  }

  lemma SameRowsOpening(db: Database, after: Database)
    requires SameRows(db, after)
    ensures Opening(db) <==> Opening(after)
  {
  }

  /** Only the workflow, the pause, the cap or the repair pause changed. */
  lemma SameRowsQueued(config: Config, db: Database, after: Database, bag: multiset<Task>)
    requires SameRows(db, after) && Queued(config, db, bag) && NoPrelude(bag) && after.workflow != Ready && !Unstarted(after.workflow)
    ensures Queued(config, after, bag)
  {
    SameRowsOpening(db, after);
    forall b | b in bag ensures ActionOk(config, after, b) && (Harmless(config, db, b) ==> Harmless(config, after, b)) {
      SameRowsAction(config, db, after, b);
    }
  }

  lemma SameRowsAction(config: Config, db: Database, after: Database, b: Task)
    requires SameRows(db, after) && ActionOk(config, db, b) && !Prelude(b)
    ensures ActionOk(config, after, b) && (Harmless(config, db, b) ==> Harmless(config, after, b))
  {
    if Harmless(config, db, b) { GrownHarmless(config, db, after, b); }
    if Exclusive(b) {
      if b.AdvanceTo? { GrownReviewed(db, after, db.round); } else { GrownApproved(db, after); }
    } else if !Single(b) {
      GrownAction(config, db, after, b);
    } else {
      EvidenceGrows(config, db, after, b.round);
    }
  }

  lemma RepairPaused(config: Config, db: Database, bag: multiset<Task>, a: Task, id: AssignmentId, delivery: DeliveryId)
    requires config.Valid() && Stored(config, db) && Queued(config, db, bag) && NoPrelude(bag) && a in bag && a.AssignTo? && ActionOk(config, db, a)
    requires !AlreadyGiven(db, a.role, a.kind, a.round)
    requires Assignable(db, a.role, id, delivery) && RepairLimitReached(db, a.role, a.kind, a.round)
    ensures Taken(config, Assign(db, a.role, a.kind, a.round, id, delivery), bag, a, multiset{})
  {
    var after := Assign(db, a.role, a.kind, a.round, id, delivery);
    AssigningNow(config, db, a);
    AssignSound(config, db, a.role, a.kind, a.round, id, delivery);
    AssignRows(db, a.role, a.kind, a.round, id, delivery);
    GrownPast(db, after);
    SameRowsOpening(db, after);
    assert Stored(config, after);
    SubBag(config, db, bag, bag - multiset{a});
    SameRowsQueued(config, db, after, bag - multiset{a});
    assert bag - multiset{a} + multiset{} == bag - multiset{a};
  }

  /** What waits beside an exclusive action is harmless, and stays so. */
  lemma HarmlessBag(config: Config, db: Database, after: Database, bag: multiset<Task>, a: Task)
    requires Queued(config, db, bag) && a in bag && Exclusive(a)
    requires SameRows(db, after) && !Unstarted(after.workflow)
    ensures Queued(config, after, bag - multiset{a}) && AllHarmless(config, after, bag - multiset{a})
  {
    var rest := bag - multiset{a};
    forall b | b in rest ensures b in bag && b != a && Harmless(config, after, b) && ActionOk(config, after, b) && !Exclusive(b) {
      assert b in bag && bag[a] == 1;
      GrownHarmless(config, db, after, b);
      SameRowsAction(config, db, after, b);
    }
    assert forall b :: b in rest ==> rest[b] <= bag[b];
  }

  lemma AssignTaken(config: Config, db: Database, bag: multiset<Task>, a: Task, connected: bool, id: AssignmentId, delivery: DeliveryId)
    requires config.Valid() && Stored(config, db) && Queued(config, db, bag) && NoPrelude(bag) && a in bag && a.AssignTo?
    requires connected && Assignable(db, a.role, id, delivery) ==> !AlreadyGiven(db, a.role, a.kind, a.round)
    ensures Taken(config, TaskDatabase(config, db, a, connected, id, delivery), bag, a, multiset{})
  {
    if !connected || !Assignable(db, a.role, id, delivery) {
      SkippedTaken(config, db, bag, a);
    } else if RepairLimitReached(db, a.role, a.kind, a.round) {
      RepairPaused(config, db, bag, a, id, delivery);
    } else {
      GivenTaken(config, db, bag, a, id, delivery);
    }
  }

  // ----- the start -----

  lemma PristineBag(config: Config, db: Database, bag: multiset<Task>, a: Task)
    requires Stored(config, db) && Queued(config, db, bag) && a in bag && Prelude(a)
    ensures Pristine(db) && !Unstarted(db.workflow) && db.workflow != Ready
  {
    assert ActionOk(config, db, a);
    assert !ApprovedReview(db);
  }

  lemma SetActiveTaken(config: Config, db: Database, bag: multiset<Task>)
    requires config.Valid() && Stored(config, db) && Queued(config, db, bag) && SetActive in bag
    ensures Taken(config, SetWorkflow(db, Active), bag, SetActive, multiset{})
  {
    PristineBag(config, db, bag, SetActive);
    SubBag(config, db, bag, bag - multiset{SetActive} + multiset{});
    QuietWorkflow(db, Implementer, Idle, Active);
    AlignedStored(config, db, SetWorkflow(db, Active));
    AlignedQueued(config, db, SetWorkflow(db, Active), bag - multiset{SetActive} + multiset{});
  }

  /** A specialist without a decision this round has no work in it. */
  lemma UndecidedIdle(config: Config, db: Database, specialist: Role)
    requires config.Valid() && Sound(config, db) && specialist in config.specialists
    requires (specialist, db.round) !in db.activations
    ensures specialist in db.roles && db.roles[specialist].active == None
    ensures forall id :: id in db.assignments && db.assignments[id].role == specialist ==> db.assignments[id].round != db.round
  {
    assert specialist in config.Roles();
    assert specialist != Implementer && specialist != Reviewer;
    forall id | id in db.assignments && db.assignments[id].role == specialist
      ensures db.assignments[id].round != db.round
    {
      assert KindFits(config, specialist, db.assignments[id].kind);
    }
  }

  lemma ActivatedAssigning(config: Config, db: Database, specialists: seq<Role>, run: set<Role>, specialist: Role)
    requires config.Valid() && Sound(config, db) && specialist in config.specialists && specialist in specialists
    requires (specialist, db.round) !in db.activations && specialist in run
    ensures Assigning(config, Activate(db, specialists, db.round, run), specialist, Specialist, db.round)
  {
    UndecidedIdle(config, db, specialist);
    var after := Activate(db, specialists, db.round, run);
    assert after.activations[(specialist, db.round)];
    assert specialist != Implementer && specialist != Reviewer;
    assert KindFits(config, specialist, Specialist);
  }

  lemma ActivateGrows(db: Database, specialists: seq<Role>, round: nat, run: set<Role>)
    ensures var after := Activate(db, specialists, round, run);
            after == db.(activations := after.activations) && Grown(db, after)
  {
  }

  /** New decisions leave waiting actions allowed. */
  lemma DecidedAction(config: Config, db: Database, after: Database, a: Task)
    requires ActionOk(config, db, a) && !Prelude(a)
    requires after == db.(activations := after.activations) && Grown(db, after)
    ensures ActionOk(config, after, a)
  {
    match a
    case AssignTo(role, kind, round) => EvidenceGrows(config, db, after, round);
    case AdvanceTo(round) => GrownReviewed(db, after, db.round);
    case ApproveRun => GrownApproved(db, after);
    case _ =>
  }

  lemma StoredDecided(config: Config, db: Database, after: Database)
    requires Stored(config, db) && Sound(config, after) && after == db.(activations := after.activations) && Grown(db, after)
    ensures Stored(config, after)
  {
    GrownPast(db, after);
  }

  lemma DecidedBag(config: Config, db: Database, after: Database, bag: multiset<Task>)
    requires Queued(config, db, bag) && NoPrelude(bag) && !Unstarted(db.workflow)
    requires after == db.(activations := after.activations) && Grown(db, after)
    ensures Queued(config, after, bag)
  {
    forall a | a in bag ensures ActionOk(config, after, a) { DecidedAction(config, db, after, a); }
    forall a | a in bag && Harmless(config, db, a) ensures Harmless(config, after, a) { GrownHarmless(config, db, after, a); }
  }

  // ----- specialists are decided -----

  /** `more` may wait beside a bag in which nothing is exclusive or settled. */
  lemma AddOrdinary(config: Config, db: Database, bag: multiset<Task>, more: multiset<Task>)
    requires Queued(config, db, bag) && !Opening(db) && db.workflow != Ready && !Unstarted(db.workflow)
    requires forall b :: b in bag ==> !Exclusive(b)
    requires forall b :: b in more ==> ActionOk(config, db, b) && !Exclusive(b)
    requires OneEach(bag + more)
    ensures Queued(config, db, bag + more)
  {
    assert forall b :: b in bag + more ==> b in bag || b in more;
  }

  /** Harmless actions may wait beside anything. */
  lemma AddHarmless(config: Config, db: Database, bag: multiset<Task>, a: Task)
    requires Queued(config, db, bag) && !Unstarted(db.workflow)
    requires ActionOk(config, db, a) && Harmless(config, db, a)
    ensures Queued(config, db, bag + multiset{a})
  {
    var after := bag + multiset{a};
    assert forall b :: b in after ==> b in bag || b == a;
    assert !Exclusive(a);
    assert forall b :: b != a ==> after[b] == bag[b];
    assert forall b :: SameTarget(a, b) ==> false;
  }

  lemma CheckTaken(config: Config, db: Database, after: Database, bag: multiset<Task>, a: Task, round: nat)
    requires Taken(config, after, bag, a, multiset{}) && !Unstarted(after.workflow)
    requires 1 <= round <= after.round
    ensures Taken(config, after, bag, a, multiset{ReviewCheck(round)})
  {
    AddHarmless(config, after, bag - multiset{a} + multiset{}, ReviewCheck(round));
    assert bag - multiset{a} + multiset{} + multiset{ReviewCheck(round)} == bag - multiset{a} + multiset{ReviewCheck(round)};
  }

  lemma DecidedTaken(config: Config, db: Database, specialists: seq<Role>, run: set<Role>, bag: multiset<Task>, a: Task)
    requires Stored(config, db) && Queued(config, db, bag) && a in bag && NoPrelude(bag - multiset{a}) && !Unstarted(db.workflow)
    ensures Taken(config, Activate(db, specialists, db.round, run), bag, a, multiset{})
  {
    var after := Activate(db, specialists, db.round, run);
    ActivateSound(config, db, specialists, run);
    ActivateGrows(db, specialists, db.round, run);
    StoredDecided(config, db, after);
    SubBag(config, db, bag, bag - multiset{a});
    DecidedBag(config, db, after, bag - multiset{a});
    assert bag - multiset{a} + multiset{} == bag - multiset{a};
  }

  lemma ProbeTaken(config: Config, db: Database, bag: multiset<Task>, runs: bool)
    requires config.Valid() && Stored(config, db) && Queued(config, db, bag) && DecideProbe(runs) in bag
    requires NoPrelude(bag - multiset{DecideProbe(runs)})
    requires forall b :: b in bag && b.AssignTo? ==> b.role == Implementer
    ensures Taken(config, Activate(db, [Probe], 1, if runs then {Probe} else {}), bag, DecideProbe(runs),
                  if runs then multiset{AssignTo(Probe, Specialist, 1)} else multiset{})
  {
    var a := DecideProbe(runs);
    PristineBag(config, db, bag, a);
    assert ActionOk(config, db, a);
    DecidedTaken(config, db, [Probe], if runs then {Probe} else {}, bag, a);
    if runs {
      ProbeAssigned(config, db, bag);
    }
  }

  lemma ProbeAssigned(config: Config, db: Database, bag: multiset<Task>)
    requires config.Valid() && Stored(config, db) && Pristine(db) && Probe in config.specialists && db.workflow != Ready && !Unstarted(db.workflow)
    requires Taken(config, Activate(db, [Probe], 1, {Probe}), bag, DecideProbe(true), multiset{})
    requires Queued(config, db, bag)
    requires forall b :: b in bag && b.AssignTo? ==> b.role == Implementer
    ensures Taken(config, Activate(db, [Probe], 1, {Probe}), bag, DecideProbe(true), multiset{AssignTo(Probe, Specialist, 1)})
  {
    var after := Activate(db, [Probe], 1, {Probe});
    var rest := bag - multiset{DecideProbe(true)} + multiset{};
    var probe := AssignTo(Probe, Specialist, 1);
    ActivatedAssigning(config, db, [Probe], {Probe}, Probe);
    forall b | b in rest ensures !Exclusive(b) && !SameTarget(b, probe) && !SameTarget(probe, b) {
      assert b in bag;
      assert ActionOk(config, db, b);
      FirstRound(config, db, b);
    }
    assert probe !in rest by { assert !SameTarget(probe, probe) || probe !in rest; }
    assert (rest + multiset{probe})[probe] == 1;
    assert forall b :: b in rest + multiset{probe} ==> b in rest || b == probe;
    assert forall b :: b != probe ==> (rest + multiset{probe})[b] == rest[b];
    AddOrdinary(config, after, rest, multiset{probe});
    assert bag - multiset{DecideProbe(true)} + multiset{probe} == rest + multiset{probe};
  }

  /** Before the first assignment nothing exclusive can wait. */
  lemma FirstRound(config: Config, db: Database, b: Task)
    requires ActionOk(config, db, b) && Pristine(db)
    ensures !Exclusive(b)
  {
    assert !ApprovedReview(db) && !ReviewAssigned(db, db.round);
  }

  ghost predicate Undecided(db: Database, round: nat, run: set<Role>, specialist: Role) {
    specialist in run && (specialist, round) !in db.activations
  }

  lemma {:induction false} NewlyRunMembers(db: Database, specialists: seq<Role>, round: nat, run: set<Role>)
    ensures forall s :: s in NewlyRun(db, specialists, round, run) <==> s in specialists && Undecided(db, round, run, s)
  {
    if specialists != [] {
      NewlyRunMembers(db, specialists[1..], round, run);
      assert specialists == [specialists[0]] + specialists[1..];
    }
  }

  lemma {:induction false} NewlyRunDistinct(db: Database, specialists: seq<Role>, round: nat, run: set<Role>)
    requires Distinct(specialists)
    ensures Distinct(NewlyRun(db, specialists, round, run))
  {
    if specialists != [] {
      NewlyRunDistinct(db, specialists[1..], round, run);
      NewlyRunMembers(db, specialists[1..], round, run);
      assert specialists[0] !in NewlyRun(db, specialists[1..], round, run);
    }
  }

  /** Each role once, each with its own assignment. */
  lemma {:induction false} AssignAllOnce(roles: seq<Role>, round: nat)
    requires Distinct(roles)
    ensures forall b :: b in multiset(AssignAll(roles, round)) ==>
              b.AssignTo? && b.role in roles && b == AssignTo(b.role, Specialist, round) && multiset(AssignAll(roles, round))[b] == 1
  {
    if roles != [] {
      var last := |roles| - 1;
      AssignAllOnce(roles[..last], round);
      assert AssignAll(roles, round) == AssignAll(roles[..last], round) + [AssignTo(roles[last], Specialist, round)];
      assert roles[last] !in roles[..last];
    }
  }

  /** An activation after everything was decided adds no decision. */
  lemma DecidedAlready(config: Config, db: Database, round: nat, run: set<Role>)
    requires AllDecided(config, db, round)
    ensures Activate(db, config.specialists, round, run) == db && NewlyRun(db, config.specialists, round, run) == []
  {
    var after := Activate(db, config.specialists, round, run);
    assert after.activations == db.activations;
    NewlyRunNone(db, config.specialists, round, run);
  }

  lemma {:induction false} NewlyRunNone(db: Database, specialists: seq<Role>, round: nat, run: set<Role>)
    requires forall s :: s in specialists ==> (s, round) in db.activations
    ensures NewlyRun(db, specialists, round, run) == []
  {
    if specialists != [] {
      assert specialists[0] in specialists && forall s :: s in specialists[1..] ==> s in specialists;
      NewlyRunNone(db, specialists[1..], round, run);
    }
  }

  /** The specialists that run get one assignment each, still allowed. */
  lemma ActivatedMore(config: Config, db: Database, rest: multiset<Task>, run: set<Role>)
    requires config.Valid() && Stored(config, db) && Each(config, db, rest) && NoPrelude(rest)
    ensures var after := Activate(db, config.specialists, db.round, run);
            var more := multiset(AssignAll(NewlyRun(db, config.specialists, db.round, run), db.round));
            && (forall b :: b in more ==> ActionOk(config, after, b) && !Exclusive(b) && b.AssignTo? && more[b] == 1)
            && (forall b, c :: b in more && c in more && SameTarget(b, c) ==> b == c)
            && (forall b, c :: b in more && c in rest ==> !SameTarget(b, c) && !SameTarget(c, b))
  {
    var chosen := NewlyRun(db, config.specialists, db.round, run);
    NewlyRunMembers(db, config.specialists, db.round, run);
    NewlyRunDistinct(db, config.specialists, db.round, run);
    AssignAllOnce(chosen, db.round);
    var more := multiset(AssignAll(chosen, db.round));
    forall b | b in more
      ensures ActionOk(config, Activate(db, config.specialists, db.round, run), b) && !Exclusive(b)
      ensures forall c :: c in rest ==> !SameTarget(b, c)
    {
      assert b.role in chosen && Undecided(db, db.round, run, b.role);
      ActivatedAssigning(config, db, config.specialists, run, b.role);
      UndecidedFree(config, db, rest, b.role);
    }
  }

  /** Nothing waits for a specialist that is not decided. */
  lemma UndecidedFree(config: Config, db: Database, rest: multiset<Task>, specialist: Role)
    requires config.Valid() && Each(config, db, rest) && specialist in config.specialists && (specialist, db.round) !in db.activations
    ensures forall c :: c in rest && c.AssignTo? ==> c.role != specialist
  {
    forall c | c in rest && c.AssignTo? ensures c.role != specialist {
      assert ActionOk(config, db, c);
      assert c.role != Reviewer ==> KindFits(config, c.role, c.kind);
    }
  }

  lemma OneEachSum(rest: multiset<Task>, more: multiset<Task>)
    requires OneEach(rest)
    requires forall b :: b in more ==> b.AssignTo? && more[b] == 1
    requires forall b, c :: b in more && c in more && SameTarget(b, c) ==> b == c
    requires forall b, c :: b in more && c in rest ==> !SameTarget(b, c) && !SameTarget(c, b)
    ensures OneEach(rest + more)
  {
    forall b, c | b in rest + more && c in rest + more && SameTarget(b, c) ensures b == c && (rest + more)[b] == 1 {
      assert SameTarget(b, b) && SameTarget(c, b);
      assert (rest + more)[b] == rest[b] + more[b];
      if b in more {
        assert b !in rest;
      } else {
        assert c !in more;
      }
    }
  }

  lemma ActivateRoundTaken(config: Config, db: Database, bag: multiset<Task>, a: Task)
    requires config.Valid() && Stored(config, db) && Queued(config, db, bag) && NoPrelude(bag) && a in bag && a.ActivateRound?
    ensures Taken(config, Activate(db, config.specialists, a.round, a.run), bag, a,
                  multiset(AssignAll(NewlyRun(db, config.specialists, a.round, a.run), a.round)) + multiset{ReviewCheck(a.round)})
  {
    assert ActionOk(config, db, a);
    if AllDecided(config, db, a.round) {
      DecidedAlready(config, db, a.round, a.run);
      SkippedTaken(config, db, bag, a);
      CheckTaken(config, db, db, bag, a, a.round);
      assert multiset(AssignAll([], a.round)) + multiset{ReviewCheck(a.round)} == multiset{ReviewCheck(a.round)};
    } else {
      ActivatedTaken(config, db, bag, a);
    }
  }

  lemma ActivatedTaken(config: Config, db: Database, bag: multiset<Task>, a: Task)
    requires config.Valid() && Stored(config, db) && Queued(config, db, bag) && NoPrelude(bag) && a in bag && a.ActivateRound?
    requires a.round == db.round && !AllDecided(config, db, a.round)
    ensures Taken(config, Activate(db, config.specialists, a.round, a.run), bag, a,
                  multiset(AssignAll(NewlyRun(db, config.specialists, a.round, a.run), a.round)) + multiset{ReviewCheck(a.round)})
  {
    var after := Activate(db, config.specialists, a.round, a.run);
    var rest := bag - multiset{a};
    var more := multiset(AssignAll(NewlyRun(db, config.specialists, a.round, a.run), a.round));
    var check := ReviewCheck(a.round);
    NothingExclusive(config, db, bag, a);
    assert forall b :: b in rest ==> b in bag;
    DecidedTaken(config, db, config.specialists, a.run, bag, a);
    assert bag - multiset{a} + multiset{} == rest;
    ActivatedMore(config, db, rest, a.run);
    OneEachSum(rest, more);
    AddOrdinary(config, after, rest, more);
    AddHarmless(config, after, rest + more, check);
    assert rest + more + multiset{check} == rest + (more + multiset{check});
  }

  // ----- reviews -----

  /** With a review due nothing exclusive waits, and no repair. */
  lemma DueOrdinary(config: Config, db: Database, bag: multiset<Task>, round: nat)
    requires config.Valid() && Stored(config, db) && Queued(config, db, bag) && 1 <= round <= db.round
    requires ReviewDue(config, db, round)
    ensures !Opening(db) && db.workflow != Ready
    ensures forall b :: b in bag ==> !Exclusive(b)
    ensures round == db.round
  {
    assert round == db.round;
    ReportedImplementation(config, db, round);
    if db.workflow == Ready { ReadyIdle(config, db); }
    forall b | b in bag ensures !Exclusive(b) {
      assert ActionOk(config, db, b);
      if b.ApproveRun? { ReadyIdle(config, db); }
    }
  }

  lemma ReportedImplementation(config: Config, db: Database, round: nat)
    requires Sound(config, db) && ImplementationReported(db, round)
    ensures AlreadyGiven(db, Implementer, Implementation, round)
  {
    var id :| id in db.reports && db.reports[id].role == Implementer && db.reports[id].kind == Implementation && db.reports[id].round == round;
    assert db.assignments[id].kind == Implementation;
  }

  lemma ReviewCheckTaken(config: Config, db: Database, bag: multiset<Task>, a: Task)
    requires config.Valid() && Stored(config, db) && Queued(config, db, bag) && !Unstarted(db.workflow) && a in bag && a.ReviewCheck?
    ensures Taken(config, db, bag, a, if ReviewDue(config, db, a.round) then multiset{AssignTo(Reviewer, Review, a.round)} else multiset{})
  {
    assert ActionOk(config, db, a);
    SkippedTaken(config, db, bag, a);
    if ReviewDue(config, db, a.round) {
      var review := AssignTo(Reviewer, Review, a.round);
      var rest := bag - multiset{a} + multiset{};
      DueOrdinary(config, db, bag, a.round);
      assert forall b :: b in rest ==> b in bag;
      OneEachReview(rest, review);
      AddOrdinary(config, db, rest, multiset{review});
      assert bag - multiset{a} + multiset{review} == rest + multiset{review};
    }
  }

  lemma OneEachReview(rest: multiset<Task>, review: Task)
    requires OneEach(rest) && !Single(review)
    ensures OneEach(rest + multiset{review})
  {
    assert forall b, c :: SameTarget(b, c) ==> (rest + multiset{review})[b] == rest[b] && (rest + multiset{review})[c] == rest[c];
  }

  lemma ApproveTaken(config: Config, db: Database, bag: multiset<Task>)
    requires config.Valid() && Stored(config, db) && Queued(config, db, bag) && ApproveRun in bag
    ensures Taken(config, Approve(db), bag, ApproveRun, multiset{})
  {
    var after := Approve(db);
    assert ActionOk(config, db, ApproveRun);
    MetaSound(config, db, after);
    GrownPast(db, after);
    SameRowsOpening(db, after);
    ApprovedStored(config, db, after);
    HarmlessBag(config, db, after, bag, ApproveRun);
    assert bag - multiset{ApproveRun} + multiset{} == bag - multiset{ApproveRun};
  }

  lemma ApprovedStored(config: Config, db: Database, after: Database)
    requires ApprovedReview(db) && after == Approve(db)
    ensures ReadyApproved(after) && PauseDominates(after) && !Unstarted(after.workflow) && SameRows(db, after) && after.pending == db.pending
  {
    if after.workflow == Ready { assert after.reports == db.reports; }
  }

  // ----- a new round -----

  /** The rows of the round before stay as they were. */
  ghost predicate NextRound(db: Database, after: Database) {
    && after.round == db.round + 1 && after.roles == db.roles && after.assignments == db.assignments
    && after.reports == db.reports && after.activations == db.activations && after.pending == db.pending
    && PauseDominates(after) && after.workflow != Ready && !Unstarted(after.workflow)
  }

  lemma AdvanceRows(db: Database)
    ensures NextRound(db, Advance(db, db.round + 1))
  {
  }

  lemma NextPast(db: Database, after: Database)
    requires PastReviewed(db) && ReviewAssigned(db, db.round) && NextRound(db, after)
    ensures PastReviewed(after)
  {
    forall round: nat | 1 <= round < after.round ensures ReviewAssigned(after, round) {
      assert ReviewAssigned(db, round);
      var id :| id in db.assignments && db.assignments[id].role == Reviewer && db.assignments[id].round == round;
      assert id in after.assignments;
    }
  }

  lemma NextOpening(db: Database, after: Database)
    requires Rounds(db) && NoneActive(db) && db.pending == None && NextRound(db, after)
    ensures Opening(after) && OpeningIdle(after) && PendingOpen(after)
  {
  }

  lemma AdvanceStored(config: Config, db: Database)
    requires config.Valid() && Stored(config, db) && NoneActive(db) && ReviewAssigned(db, db.round)
    ensures Stored(config, Advance(db, db.round + 1)) && Opening(Advance(db, db.round + 1)) && NextRound(db, Advance(db, db.round + 1))
  {
    var after := Advance(db, db.round + 1);
    AdvanceSound(config, db);
    ApprovedGiven(config, db);
    AdvanceRows(db);
    NextPast(db, after);
    NextOpening(db, after);
    NextStored(config, db, after);
  }

  lemma NextStored(config: Config, db: Database, after: Database)
    requires NextRound(db, after) && Sound(config, after) && PastReviewed(after) && OpeningIdle(after) && PendingOpen(after)
    ensures Stored(config, after)
  {
  }

  lemma AdvancedAction(config: Config, db: Database, after: Database, b: Task)
    requires NextRound(db, after) && ActionOk(config, db, b) && Harmless(config, db, b)
    ensures ActionOk(config, after, b) && Harmless(config, after, b)
  {
    GrownHarmless(config, db, after, b);
    if b.AssignTo? { EvidenceGrows(config, db, after, b.round); }
  }

  lemma AdvancedRest(config: Config, db: Database, after: Database, rest: multiset<Task>)
    requires NextRound(db, after) && Each(config, db, rest) && AllHarmless(config, db, rest)
    ensures Queued(config, after, rest)
  {
    forall b | b in rest ensures ActionOk(config, after, b) && Harmless(config, after, b) {
      AdvancedAction(config, db, after, b);
    }
    HarmlessQueued(config, after, rest);
  }

  /** The assignment of a repair may wait beside anything that waits: it matters
      only in a round that was opened for it. */
  lemma AddRepair(config: Config, db: Database, bag: multiset<Task>, round: nat)
    requires config.Valid() && Stored(config, db) && Queued(config, db, bag) && !Unstarted(db.workflow)
    requires 1 < round <= db.round && (round < db.round ==> AlreadyGiven(db, Implementer, Implementation, round))
    ensures Queued(config, db, bag + multiset{AssignTo(Implementer, Implementation, round)})
  {
    var a := AssignTo(Implementer, Implementation, round);
    if AlreadyGiven(db, Implementer, Implementation, round) {
      AddHarmless(config, db, bag, a);
    } else {
      OpeningOrdinary(config, db, bag);
      var after := bag + multiset{a};
      assert forall b :: b in after ==> b in bag || b == a;
      assert forall b :: b != a ==> after[b] == bag[b];
    }
  }

  /** The next round opens with everything else harmless. */
  lemma AdvancedQueued(config: Config, db: Database, rest: multiset<Task>)
    requires config.Valid() && Stored(config, db) && NoneActive(db) && ReviewAssigned(db, db.round)
    requires Each(config, db, rest) && AllHarmless(config, db, rest)
    ensures var after := Advance(db, db.round + 1);
            && Stored(config, after) && Opening(after) && NoneActive(after)
            && Queued(config, after, rest + multiset{AssignTo(Implementer, Implementation, db.round + 1)})
  {
    var after := Advance(db, db.round + 1);
    AdvanceStored(config, db);
    AdvancedRest(config, db, after, rest);
    AddRepair(config, after, rest, db.round + 1);
  }

  /** Harmless actions may wait anywhere once the run has started. */
  lemma HarmlessQueued(config: Config, db: Database, bag: multiset<Task>)
    requires Each(config, db, bag) && AllHarmless(config, db, bag) && !Unstarted(db.workflow)
    ensures Queued(config, db, bag)
  {
  }

  /** An exclusive action may wait beside harmless ones. */
  lemma AddExclusive(config: Config, db: Database, rest: multiset<Task>, a: Task)
    requires Each(config, db, rest) && AllHarmless(config, db, rest) && ActionOk(config, db, a) && Exclusive(a)
    requires db.workflow != Ready && !Unstarted(db.workflow) && !Opening(db)
    ensures Queued(config, db, rest + multiset{a})
  {
    var bag := rest + multiset{a};
    assert !Harmless(config, db, a) && a !in rest;
    assert forall b :: b in bag ==> b in rest || b == a;
    assert forall b :: b in rest ==> !Exclusive(b) && !Single(b);
    assert bag[a] == 1;
  }

  /** What waits beside an exclusive action. */
  lemma BesideExclusive(config: Config, db: Database, bag: multiset<Task>, a: Task)
    requires Queued(config, db, bag) && a in bag && Exclusive(a)
    ensures Each(config, db, bag - multiset{a}) && AllHarmless(config, db, bag - multiset{a})
  {
    forall b | b in bag - multiset{a} ensures ActionOk(config, db, b) && Harmless(config, db, b) {
      assert b in bag && bag[a] == 1;
    }
  }

  lemma AdvanceTaken(config: Config, db: Database, bag: multiset<Task>, a: Task)
    requires config.Valid() && Stored(config, db) && Queued(config, db, bag) && a in bag && a.AdvanceTo?
    ensures Taken(config, Advance(db, a.round), bag, a, multiset{AssignTo(Implementer, Implementation, a.round)})
  {
    AdvanceReady(config, db, bag, a);
    BesideExclusive(config, db, bag, a);
    AdvancedQueued(config, db, bag - multiset{a});
  }

  lemma AdvanceReady(config: Config, db: Database, bag: multiset<Task>, a: Task)
    requires Queued(config, db, bag) && a in bag && a.AdvanceTo?
    ensures a.round == db.round + 1 && NoneActive(db) && ReviewAssigned(db, db.round)
  {
    assert ActionOk(config, db, a);
  }

  // ----- any action -----

  lemma {:induction false} HeadPrelude(tasks: seq<seq<Task>>, i: nat)
    requires Ordered(tasks) && i < |tasks| && !Prelude(tasks[i][0])
    ensures NoPrelude(Actions(tasks))
  {
    forall a | a in Actions(tasks) ensures !Prelude(a) {
      var k, j := ActionsFrom(tasks, a);
    }
  }

  /** The actions that replace the head of a task, and where they stand. */
  ghost function Follow(config: Config, db: Database, a: Task): seq<Task> {
    match a
    case DecideProbe(run) => if run then [AssignTo(Probe, Specialist, 1)] else []
    case ActivateRound(round, run) => AssignAll(NewlyRun(db, config.specialists, round, run), round) + [ReviewCheck(round)]
    case ReviewCheck(round) => if ReviewDue(config, db, round) then [AssignTo(Reviewer, Review, round)] else []
    case AdvanceTo(round) => [AssignTo(Implementer, Implementation, round)]
    case _ => []
  }

  lemma RestFollows(config: Config, db: Database, a: Task, rest: seq<Task>)
    ensures TaskRest(config, db, a, rest) == if a.DecideProbe? then rest + Follow(config, db, a) else Follow(config, db, a) + rest
  {
  }

  /** Whether the repair was stored is the last thing a continuation looks at. */
  lemma ConfirmTaken(config: Config, db: Database, bag: multiset<Task>, a: Task)
    requires Stored(config, db) && Queued(config, db, bag) && a in bag && NoPrelude(bag) && a.ConfirmRepair?
    ensures Taken(config, TaskDatabase(config, db, a, true, 0, 0), bag, a, multiset{})
  {
    var after := TaskDatabase(config, db, a, true, 0, 0);
    SubBag(config, db, bag, bag - multiset{a} + multiset{});
    ConfirmRows(config, db, a);
    if after != db { UncertainCore(config, db, bag - multiset{a} + multiset{}); }
  }

  lemma UncertainCore(config: Config, db: Database, bag: multiset<Task>)
    requires Stored(config, db) && Queued(config, db, bag)
    ensures Stored(config, SetWorkflow(db, Uncertain)) && Queued(config, SetWorkflow(db, Uncertain), bag)
  {
    QuietWorkflow(db, Implementer, Idle, Uncertain);
    AlignedStored(config, db, SetWorkflow(db, Uncertain));
    AlignedQueued(config, db, SetWorkflow(db, Uncertain), bag);
  }

  lemma ActionTaken(config: Config, db: Database, bag: multiset<Task>, a: Task, connected: bool, id: AssignmentId, delivery: DeliveryId)
    requires config.Valid() && Stored(config, db) && Queued(config, db, bag) && a in bag && NoPrelude(bag)
    requires connected && a.AssignTo? && Assignable(db, a.role, id, delivery) ==> !AlreadyGiven(db, a.role, a.kind, a.round)
    ensures Taken(config, TaskDatabase(config, db, a, connected, id, delivery), bag, a, multiset(Follow(config, db, a)))
  {
    match a
    case AssignTo(_, _, _) => AssignTaken(config, db, bag, a, connected, id, delivery);
    case ActivateRound(round, run) =>
      Split(AssignAll(NewlyRun(db, config.specialists, round, run), round), [ReviewCheck(round)]);
      ActivateRoundTaken(config, db, bag, a);
    case ReviewCheck(_) => ReviewCheckTaken(config, db, bag, a);
    case ApproveRun => ApproveTaken(config, db, bag);
    case AdvanceTo(_) => AdvanceTaken(config, db, bag, a);
    case ConfirmRepair(_) => ConfirmTaken(config, db, bag, a);
    case _ =>
  }

  lemma PreludeTaken(config: Config, db: Database, tasks: seq<seq<Task>>, move: Move)
    requires config.Valid() && CoreInv(config, db, tasks) && move.Proceed? && move.task < |tasks| && Prelude(tasks[move.task][0])
    ensures var a := tasks[move.task][0];
            Taken(config, TaskDatabase(config, db, a, move.connected, move.id, move.delivery), Actions(tasks), a, multiset(Follow(config, db, a)))
  {
    var task := tasks[0];
    var bag := Actions(tasks);
    assert Preluded(task) && tasks == [task];
    assert Actions([]) == multiset{} && tasks[1..] == [];
    assert bag == multiset(task);
    ActionsHold(tasks, 0, 0);
    match task[0]
    case SetActive => SetActiveTaken(config, db, bag);
    case DecideProbe(runs) =>
      assert task == [task[0], task[1]];
      assert bag == multiset{task[0], task[1]};
      ProbeTaken(config, db, bag, runs);
  }

  lemma ProceedNext(config: Config, s: Schedule, move: Move)
    requires move.Proceed? && move.task < |s.tasks| && s.tasks[move.task] != []
    ensures var a, rest := s.tasks[move.task][0], s.tasks[move.task][1..];
            Next(config, s, move) == Schedule(TaskDatabase(config, s.db, a, move.connected, move.id, move.delivery),
                                              Replaced(s.tasks, move.task, TaskRest(config, s.db, a, rest)), s.sends)
  {
  }

  /** The starting task stays the first thing that happens. */
  lemma OrderedRest(config: Config, db: Database, tasks: seq<seq<Task>>, i: nat)
    requires Ordered(tasks) && i < |tasks|
    ensures Ordered(Replaced(tasks, i, TaskRest(config, db, tasks[i][0], tasks[i][1..])))
  {
    var a, rest := tasks[i][0], tasks[i][1..];
    var after := Replaced(tasks, i, TaskRest(config, db, a, rest));
    RestFollows(config, db, a, rest);
    if Prelude(a) {
      OrderedPrelude(config, db, tasks, TaskRest(config, db, a, rest));
    } else {
      OrderedLater(config, db, tasks, i);
    }
  }

  lemma OrderedPrelude(config: Config, db: Database, tasks: seq<seq<Task>>, rest: seq<Task>)
    requires Ordered(tasks) && |tasks| >= 1 && Prelude(tasks[0][0]) && rest == TaskRest(config, db, tasks[0][0], tasks[0][1..])
    ensures |tasks| == 1 && Ordered(Replaced(tasks, 0, rest))
  {
    assert Preluded(tasks[0]);
    assert Replaced(tasks, 0, rest) == if rest == [] then [] else [rest];
  }

  lemma OrderedLater(config: Config, db: Database, tasks: seq<seq<Task>>, i: nat)
    requires Ordered(tasks) && i < |tasks| && !Prelude(tasks[i][0])
    ensures Ordered(Replaced(tasks, i, TaskRest(config, db, tasks[i][0], tasks[i][1..])))
  {
    var a, rest := tasks[i][0], tasks[i][1..];
    var more := TaskRest(config, db, a, rest);
    HeadPrelude(tasks, i);
    RestFollows(config, db, a, rest);
    forall b | b in more ensures !Prelude(b) {
      FollowOrdinary(config, db, a, b);
      if b in rest {
        var k :| 0 <= k < |rest| && rest[k] == b;
        ActionsHold(tasks, i, k + 1);
      }
    }
    forall k, j | 0 <= k < |tasks| && 0 <= j < |tasks[k]| ensures !Prelude(tasks[k][j]) { ActionsHold(tasks, k, j); }
    NoneOrdered(tasks, i, more);
  }

  lemma FollowOrdinary(config: Config, db: Database, a: Task, b: Task)
    ensures b in Follow(config, db, a) ==> !Prelude(b)
  {
  }

  lemma NoneOrdered(tasks: seq<seq<Task>>, i: nat, more: seq<Task>)
    requires i < |tasks| && forall k :: 0 <= k < |tasks| ==> tasks[k] != []
    requires forall k, j :: 0 <= k < |tasks| && 0 <= j < |tasks[k]| ==> !Prelude(tasks[k][j])
    requires forall b :: b in more ==> !Prelude(b)
    ensures Ordered(Replaced(tasks, i, more))
  {
    var after := Replaced(tasks, i, more);
    forall k | 0 <= k < |after| ensures after[k] != [] && (after[k] == more || after[k] in tasks) {
      if more == [] {
        assert after[k] == if k < i then tasks[k] else tasks[k + 1];
      } else {
        assert after[k] == if k == i then more else tasks[k];
      }
    }
    forall k, j | 0 <= k < |after| && 0 <= j < |after[k]| ensures !Prelude(after[k][j]) {
      assert after[k] == more || after[k] in tasks;
      if after[k] == more { assert after[k][j] in more; }
    }
  }

  /** Where a round is settled every action stores nothing, and what follows it
      is harmless again. */
  lemma SettledTaken(config: Config, db: Database, bag: multiset<Task>, a: Task, connected: bool, id: AssignmentId, delivery: DeliveryId)
    requires config.Valid() && Stored(config, db) && Queued(config, db, bag) && a in bag && Settled(config, db, bag)
    requires connected && a.AssignTo? && Assignable(db, a.role, id, delivery) ==> !AlreadyGiven(db, a.role, a.kind, a.round)
    ensures Settled(config, TaskDatabase(config, db, a, connected, id, delivery), bag - multiset{a} + multiset(Follow(config, db, a)))
  {
    var after := TaskDatabase(config, db, a, connected, id, delivery);
    ReadyIdle(config, db);
    assert Harmless(config, db, a) && ActionOk(config, db, a);
    SettledAction(config, db, a, connected, id, delivery);
    SameRowsSettled(config, db, after, bag);
    ChecksSettled(config, after, bag, a, Follow(config, db, a));
  }

  lemma ChecksSettled(config: Config, db: Database, bag: multiset<Task>, a: Task, follow: seq<Task>)
    requires Settled(config, db, bag) && forall b :: b in follow ==> b.ReviewCheck?
    ensures Settled(config, db, bag - multiset{a} + multiset(follow))
  {
    forall b | b in bag - multiset{a} + multiset(follow) ensures Harmless(config, db, b) {
      assert b in bag || b in follow;
    }
  }

  /** A harmless action changes no row, and only a check can follow it. */
  lemma SettledAction(config: Config, db: Database, a: Task, connected: bool, id: AssignmentId, delivery: DeliveryId)
    requires Sound(config, db) && PastReviewed(db) && ReviewAssigned(db, db.round) && Harmless(config, db, a) && ActionOk(config, db, a)
    requires connected && a.AssignTo? && Assignable(db, a.role, id, delivery) ==> !AlreadyGiven(db, a.role, a.kind, a.round)
    ensures SameRows(db, TaskDatabase(config, db, a, connected, id, delivery))
    ensures forall b :: b in Follow(config, db, a) ==> b.ReviewCheck?
  {
    match a
    case ReviewCheck(round) => assert ReviewAssigned(db, round);
    case ActivateRound(_, _) => DecidedAgain(config, db, a);
    case AssignTo(_, _, _) => GivenAction(config, db, a, connected, id, delivery);
    case ConfirmRepair(_) => ConfirmRows(config, db, a);
  }

  lemma DecidedAgain(config: Config, db: Database, a: Task)
    requires a.ActivateRound? && AllDecided(config, db, a.round)
    ensures TaskDatabase(config, db, a, true, 0, 0) == db && Follow(config, db, a) == [ReviewCheck(a.round)]
  {
    DecidedAlready(config, db, a.round, a.run);
  }

  lemma GivenAction(config: Config, db: Database, a: Task, connected: bool, id: AssignmentId, delivery: DeliveryId)
    requires Sound(config, db) && a.AssignTo? && Harmless(config, db, a) && ActionOk(config, db, a)
    requires connected && Assignable(db, a.role, id, delivery) ==> !AlreadyGiven(db, a.role, a.kind, a.round)
    ensures TaskDatabase(config, db, a, connected, id, delivery) == db
  {
    ReviewGiven(config, db, a.round);
  }

  lemma ConfirmRows(config: Config, db: Database, a: Task)
    requires a.ConfirmRepair?
    ensures var after := TaskDatabase(config, db, a, true, 0, 0); after == db || after == SetWorkflow(db, Uncertain)
  {
    if Unconfirmed(db, a.round) {} else {}
  }

  lemma SameRowsSettled(config: Config, db: Database, after: Database, bag: multiset<Task>)
    requires SameRows(db, after) && Settled(config, db, bag)
    ensures Settled(config, after, bag)
  {
    GrownApproved(db, after);
    forall b | b in bag ensures Harmless(config, after, b) { GrownHarmless(config, db, after, b); }
  }

  lemma TaskRound(config: Config, db: Database, bag: multiset<Task>, a: Task, connected: bool, id: AssignmentId, delivery: DeliveryId)
    requires Queued(config, db, bag) && a in bag
    ensures db.round <= TaskDatabase(config, db, a, connected, id, delivery).round
  {
    if a.AssignTo? {
      AssignRound(db, a, id, delivery);
    } else if a.AdvanceTo? {
      assert ActionOk(config, db, a);
    }
  }

  lemma AssignRound(db: Database, a: Task, id: AssignmentId, delivery: DeliveryId)
    requires a.AssignTo?
    ensures Assign(db, a.role, a.kind, a.round, id, delivery).round == db.round
  {
    if Assignable(db, a.role, id, delivery) { AssignRows(db, a.role, a.kind, a.round, id, delivery); }
  }

  lemma ProceedInv(config: Config, s: Schedule, move: Move)
    requires config.Valid() && Inv(config, s) && move.Proceed? && !Untimely(s, move)
    ensures Inv(config, Next(config, s, move))
  {
    if move.task < |s.tasks| {
      var a, rest := s.tasks[move.task][0], s.tasks[move.task][1..];
      var bag := Actions(s.tasks);
      var after := TaskDatabase(config, s.db, a, move.connected, move.id, move.delivery);
      ProceedNext(config, s, move);
      RestFollows(config, s.db, a, rest);
      HeadReplaced(s.tasks, move.task, Follow(config, s.db, a));
      OrderedRest(config, s.db, s.tasks, move.task);
      if Prelude(a) {
        PreludeTaken(config, s.db, s.tasks, move);
      } else {
        HeadPrelude(s.tasks, move.task);
        ActionTaken(config, s.db, bag, a, move.connected, move.id, move.delivery);
      }
      TaskRound(config, s.db, bag, a, move.connected, move.id, move.delivery);
      if Settled(config, s.db, bag) { SettledTaken(config, s.db, bag, a, move.connected, move.id, move.delivery); }
      SendsGoOn(config, s.db, bag, after, bag - multiset{a} + multiset(Follow(config, s.db, a)), s.sends);
    }
  }

  // ----- moves that start a task -----

  lemma BeginGiven(config: Config, db: Database, given: Task)
    requires config.Valid() && Stored(config, db) && Pristine(db)
    requires given == AssignTo(Implementer, if config.phased then Plan else Implementation, 1)
    ensures ActionOk(config, db, given)
  {
    assert Implementer in config.Roles();
  }

  lemma BeginBag(config: Config, db: Database, given: Task, bag: multiset<Task>)
    requires config.Valid() && Stored(config, db) && Pristine(db) && !Unstarted(db.workflow) && db.workflow != Ready
    requires given == AssignTo(Implementer, if config.phased then Plan else Implementation, 1) && bag[given] == 1
    requires forall b :: b in bag ==> b == given || b == SetActive || (b.DecideProbe? && Probe in config.specialists)
    ensures Queued(config, db, bag)
  {
    BeginGiven(config, db, given);
  }

  lemma BeginTasks(config: Config, db: Database, probe: bool)
    requires config.Valid() && Stored(config, db) && Pristine(db) && !Unstarted(db.workflow) && db.workflow != Ready
    ensures Queued(config, db, multiset(StartTasks(config, probe))) && Ordered([StartTasks(config, probe)])
  {
    var given := AssignTo(Implementer, if config.phased then Plan else Implementation, 1);
    var task := StartTasks(config, probe);
    if Probe in config.specialists {
      assert task == [SetActive, DecideProbe(probe), given];
      assert multiset(task) == multiset{SetActive, DecideProbe(probe), given};
    } else {
      assert task == [SetActive, given];
      assert multiset(task) == multiset{SetActive, given};
    }
    BeginBag(config, db, given, multiset(task));
  }

  lemma SomeActions(tasks: seq<seq<Task>>)
    ensures tasks != [] && tasks[0] != [] ==> Actions(tasks) != multiset{}
  {
    if tasks != [] && tasks[0] != [] { ActionsHold(tasks, 0, 0); }
  }

  lemma BeginInv(config: Config, s: Schedule, probe: bool)
    requires config.Valid() && Inv(config, s)
    ensures Inv(config, Next(config, s, Begin(probe)))
  {
    if s.db.workflow == Connecting {
      var after := SetWorkflow(s.db, Initializing);
      var task := StartTasks(config, probe);
      SomeActions(s.tasks);
      assert s.tasks == [] && Pristine(s.db);
      assert !ApprovedReview(s.db);
      MetaSound(config, s.db, after);
      assert Stored(config, after);
      BeginTasks(config, after, probe);
      ActionsStarted([], task);
      assert Started([], task) == [task];
      SendsGoOn(config, s.db, Actions(s.tasks), after, multiset(task), s.sends);
    }
  }

  /** The report just accepted from `role` is the latest thing that happened. */
  ghost predicate JustReported(config: Config, after: Database, role: Role, id: AssignmentId, kind: Kind, verdict: Verdict) {
    && Sound(config, after)
    && role in after.roles && after.roles[role].active == None
    && id in after.assignments && after.assignments[id].role == role && after.assignments[id].kind == kind
    && after.assignments[id].round == after.round && after.assignments[id].state == Completed
    && id in after.reports && after.reports[id] == Report(role, after.round, kind, verdict)
    && (kind == Plan ==>
          forall i :: i in after.assignments && after.assignments[i].kind == Implementation ==> after.assignments[i].round != after.round)
  }

  lemma AcceptedReport(config: Config, db: Database, role: Role, generation: nat, id: AssignmentId, kind: Kind, verdict: Verdict)
    requires Sound(config, db) && Reportable(db, role, id, kind)
    ensures db.assignments[id].round == db.round
    ensures JustReported(config, AcceptReport(db, role, generation, id, kind, verdict), role, id, kind, verdict)
  {
    ReportSound(config, db, role, generation, id, kind, verdict);
    ReportRows(db, role, generation, id, kind, verdict);
  }

  /** A role that holds an assignment leaves room only for ordinary actions. */
  lemma WorkingOrdinary(config: Config, db: Database, bag: multiset<Task>, role: Role)
    requires config.Valid() && Stored(config, db) && Queued(config, db, bag) && role in db.roles && db.roles[role].active.Some?
    ensures forall b :: b in bag ==> !Exclusive(b) && !Prelude(b) && (Single(b) ==> b.role != role)
    ensures !Opening(db) && !ApprovedReview(db) && db.workflow != Ready && !Unstarted(db.workflow)
  {
    forall b | b in bag ensures !Exclusive(b) && !Prelude(b) && (Single(b) ==> b.role != role) {
      assert ActionOk(config, db, b);
      if Exclusive(b) || Prelude(b) { ExclusiveIdle(config, db, b); }
    }
    if ApprovedReview(db) { ReadyIdle(config, db); }
    assert db.roles[role].active.value in db.assignments;
  }

  lemma ReportGrows(db: Database, after: Database, role: Role, id: AssignmentId, kind: Kind, verdict: Verdict)
    requires id in db.assignments && id !in db.reports && role in db.roles
    requires after.assignments == db.assignments[id := db.assignments[id].(state := Completed, attempt := ReportAccepted)]
    requires after.reports == db.reports[id := Report(role, db.assignments[id].round, kind, verdict)]
    requires after.activations == db.activations
    ensures Grown(db, after)
  {
  }

  lemma ReportedAction(config: Config, db: Database, after: Database, role: Role, id: AssignmentId, b: Task)
    requires ActionOk(config, db, b) && !Exclusive(b) && !Prelude(b) && (Single(b) ==> b.role != role)
    requires id in db.assignments && role in db.roles && Grown(db, after) && after.round == db.round && after.activations == db.activations
    requires after.assignments == db.assignments[id := db.assignments[id].(state := Completed, attempt := ReportAccepted)]
    requires after.roles == db.roles[role := db.roles[role].(active := None, state := Idle)]
    ensures ActionOk(config, after, b)
  {
    if Single(b) {
      assert after.roles[b.role] == db.roles[b.role];
    } else {
      GrownAction(config, db, after, b);
    }
  }

  lemma ReportedStored(config: Config, db: Database, role: Role, generation: nat, id: AssignmentId, kind: Kind, verdict: Verdict)
    requires Stored(config, db) && Reportable(db, role, id, kind) && !Opening(db) && db.workflow != Ready
    ensures var after := AcceptReport(db, role, generation, id, kind, verdict);
            Stored(config, after) && Grown(db, after) && !Opening(after)
  {
    var after := AcceptReport(db, role, generation, id, kind, verdict);
    ReportSound(config, db, role, generation, id, kind, verdict);
    ReportRows(db, role, generation, id, kind, verdict);
    ReportGrows(db, after, role, id, kind, verdict);
    GrownPast(db, after);
    if db.round > 1 { GrownGiven(db, after, Implementer, Implementation, db.round); }
  }

  lemma ReportedQueued(config: Config, db: Database, bag: multiset<Task>, role: Role, generation: nat, id: AssignmentId, kind: Kind, verdict: Verdict)
    requires config.Valid() && Stored(config, db) && Queued(config, db, bag) && Reportable(db, role, id, kind)
    ensures var after := AcceptReport(db, role, generation, id, kind, verdict);
            && Stored(config, after) && Queued(config, after, bag)
            && !Opening(after) && after.workflow != Ready && !Unstarted(after.workflow)
            && forall b :: b in bag ==> !Exclusive(b) && !Prelude(b) && (Single(b) ==> b.role != role)
  {
    var after := AcceptReport(db, role, generation, id, kind, verdict);
    WorkingOrdinary(config, db, bag, role);
    ReportedStored(config, db, role, generation, id, kind, verdict);
    ReportRows(db, role, generation, id, kind, verdict);
    forall b | b in bag ensures ActionOk(config, after, b) { ReportedAction(config, db, after, role, id, b); }
  }

  /** After a review everything else that waits is harmless. */
  lemma ReviewedHarmless(config: Config, db: Database, b: Task)
    requires config.Valid() && Stored(config, db) && ReviewAssigned(db, db.round) && ActionOk(config, db, b) && !Exclusive(b) && !Prelude(b)
    ensures Harmless(config, db, b)
  {
    ReviewedEvidence(config, db);
    match b
    case ReviewCheck(_) =>
    case ActivateRound(_, _) =>
    case ConfirmRepair(_) =>
    case AssignTo(_, _, _) => ReviewedAssign(config, db, b);
  }

  lemma ReviewedEvidence(config: Config, db: Database)
    requires Sound(config, db) && ReviewAssigned(db, db.round)
    ensures Evidence(config, db, db.round)
  {
    var review :| review in db.assignments && db.assignments[review].role == Reviewer && db.assignments[review].round == db.round;
  }

  lemma ReviewedAssign(config: Config, db: Database, b: Task)
    requires config.Valid() && Sound(config, db) && PastReviewed(db) && ReviewAssigned(db, db.round) && Evidence(config, db, db.round)
    requires ActionOk(config, db, b) && b.AssignTo?
    ensures Harmless(config, db, b)
  {
    if Single(b) { EvidenceLeavesNone(config, db, b); } else { ReportedImplementation(config, db, db.round); }
  }

  /** With complete evidence of a round only a review is left to assign in it. */
  lemma EvidenceLeavesNone(config: Config, db: Database, b: Task)
    requires config.Valid() && Sound(config, db) && Evidence(config, db, db.round)
    requires b.AssignTo? && b.role != Reviewer
    ensures !Assigning(config, db, b.role, b.kind, b.round)
  {
    ReportedImplementation(config, db, db.round);
    if b.round == db.round && KindFits(config, b.role, b.kind) && b.role != Implementer {
      if (b.role, b.round) in db.activations && db.activations[(b.role, b.round)] {
        assert RoleReported(db, b.role, b.round);
        var id :| id in db.reports && db.reports[id].role == b.role && db.reports[id].round == b.round;
        assert id in db.assignments && db.assignments[id].role == b.role && db.assignments[id].round == b.round;
        assert KindFits(config, db.assignments[id].role, db.assignments[id].kind);
      }
    }
  }

  /** An accepted plan leaves the implementation of its round to assign. */
  lemma PlannedAssigning(config: Config, db: Database, plan: AssignmentId, verdict: Verdict)
    requires config.Valid() && JustReported(config, db, Implementer, plan, Plan, verdict)
    ensures config.phased && db.round == 1 && Assigning(config, db, Implementer, Implementation, db.round)
  {
  }

  lemma AddRoute(config: Config, after: Database, bag: multiset<Task>, role: Role, id: AssignmentId, kind: Kind, verdict: Verdict, run: set<Role>)
    requires config.Valid() && Stored(config, after) && Queued(config, after, bag) && JustReported(config, after, role, id, kind, verdict)
    requires !Opening(after) && after.workflow != Ready && !Unstarted(after.workflow)
    requires forall b :: b in bag ==> !Exclusive(b) && !Prelude(b) && (Single(b) ==> b.role != role)
    ensures Queued(config, after, bag + multiset(RouteReport(config, role, after.round, kind, verdict, run)))
  {
    assert KindFits(config, role, kind);
    var route := RouteReport(config, role, after.round, kind, verdict, run);
    match role
    case Implementer =>
      if kind == Plan {
        AddPlanned(config, after, bag, id, verdict);
        assert route == [AssignTo(Implementer, Implementation, after.round)];
      } else {
        AddActivation(config, after, bag, run);
        assert route == [ActivateRound(after.round, run)];
      }
    case Reviewer =>
      AddReviewed(config, after, bag, id, verdict);
      assert route == [if verdict == Approved then ApproveRun else AdvanceTo(after.round + 1)];
    case _ =>
      AddHarmless(config, after, bag, ReviewCheck(after.round));
      assert route == [ReviewCheck(after.round)];
  }

  lemma AddPlanned(config: Config, after: Database, bag: multiset<Task>, plan: AssignmentId, verdict: Verdict)
    requires config.Valid() && Stored(config, after) && Queued(config, after, bag) && JustReported(config, after, Implementer, plan, Plan, verdict)
    requires !Opening(after) && after.workflow != Ready && !Unstarted(after.workflow)
    requires forall b :: b in bag ==> !Exclusive(b) && (Single(b) ==> b.role != Implementer)
    ensures config.phased && Queued(config, after, bag + multiset{AssignTo(Implementer, Implementation, after.round)})
  {
    var given := AssignTo(Implementer, Implementation, after.round);
    PlannedAssigning(config, after, plan, verdict);
    assert given !in bag && (bag + multiset{given})[given] == 1;
    assert forall b :: b in bag + multiset{given} ==> b in bag || b == given;
    assert forall b :: b != given ==> (bag + multiset{given})[b] == bag[b];
    AddOrdinary(config, after, bag, multiset{given});
  }

  lemma AddActivation(config: Config, after: Database, bag: multiset<Task>, run: set<Role>)
    requires Queued(config, after, bag) && Rounds(after)
    requires !Opening(after) && after.workflow != Ready && !Unstarted(after.workflow)
    requires forall b :: b in bag ==> !Exclusive(b)
    ensures Queued(config, after, bag + multiset{ActivateRound(after.round, run)})
  {
    var a := ActivateRound(after.round, run);
    assert forall b, c :: SameTarget(b, c) ==> (bag + multiset{a})[b] == bag[b] && (bag + multiset{a})[c] == bag[c];
    AddOrdinary(config, after, bag, multiset{a});
  }

  lemma AddReviewed(config: Config, after: Database, bag: multiset<Task>, review: AssignmentId, verdict: Verdict)
    requires config.Valid() && Stored(config, after) && Queued(config, after, bag) && JustReported(config, after, Reviewer, review, Review, verdict)
    requires !Opening(after) && after.workflow != Ready && !Unstarted(after.workflow)
    requires forall b :: b in bag ==> !Exclusive(b) && !Prelude(b)
    ensures Queued(config, after, bag + multiset{if verdict == Approved then ApproveRun else AdvanceTo(after.round + 1)})
  {
    assert ReviewAssigned(after, after.round);
    ReviewEndsRound(config, after, review);
    forall b | b in bag ensures Harmless(config, after, b) {
      assert ActionOk(config, after, b);
      ReviewedHarmless(config, after, b);
    }
    if verdict == Approved { assert ApprovedReview(after) by { assert after.reports[review].verdict == Approved; } }
    AddExclusive(config, after, bag, if verdict == Approved then ApproveRun else AdvanceTo(after.round + 1));
  }

  lemma StartOrdered(tasks: seq<seq<Task>>, task: seq<Task>)
    requires Ordered(tasks) && NoPrelude(Actions(tasks)) && forall b :: b in task ==> !Prelude(b)
    ensures Ordered(Started(tasks, task))
  {
    forall k, j | 0 <= k < |tasks| && 0 <= j < |tasks[k]| ensures !Prelude(tasks[k][j]) { ActionsHold(tasks, k, j); }
    var after := Started(tasks, task);
    forall k, j | 0 <= k < |after| && 0 <= j < |after[k]| ensures !Prelude(after[k][j]) {
      if k < |tasks| { assert after[k] == tasks[k]; } else { assert after[k][j] in task; }
    }
  }

  lemma RouteOrdinary(config: Config, role: Role, round: nat, kind: Kind, verdict: Verdict, run: set<Role>)
    ensures forall b :: b in RouteReport(config, role, round, kind, verdict, run) ==> !Prelude(b)
  {
  }

  lemma SubmittedInv(config: Config, s: Schedule, role: Role, generation: nat, id: AssignmentId, kind: Kind, verdict: Verdict, run: set<Role>)
    requires config.Valid() && Inv(config, s) && Reportable(s.db, role, id, kind)
    ensures Inv(config, Schedule(AcceptReport(s.db, role, generation, id, kind, verdict),
                                 Started(s.tasks, RouteReport(config, role, s.db.assignments[id].round, kind, verdict, run)), s.sends))
  {
    var after := AcceptReport(s.db, role, generation, id, kind, verdict);
    var route := RouteReport(config, role, s.db.assignments[id].round, kind, verdict, run);
    AcceptedReport(config, s.db, role, generation, id, kind, verdict);
    ReportRows(s.db, role, generation, id, kind, verdict);
    WorkingOrdinary(config, s.db, Actions(s.tasks), role);
    ReportedQueued(config, s.db, Actions(s.tasks), role, generation, id, kind, verdict);
    AddRoute(config, after, Actions(s.tasks), role, id, kind, verdict, run);
    ActionsStarted(s.tasks, route);
    RouteOrdinary(config, role, s.db.assignments[id].round, kind, verdict, run);
    StartOrdered(s.tasks, route);
    SendsGoOn(config, s.db, Actions(s.tasks), after, Actions(Started(s.tasks, route)), s.sends);
  }

  lemma RefusedReport(config: Config, s: Schedule, role: Role, generation: nat, id: AssignmentId, kind: Kind, verdict: Verdict)
    requires Inv(config, s) && !Reportable(s.db, role, id, kind)
    ensures Inv(config, Schedule(AcceptReport(s.db, role, generation, id, kind, verdict), s.tasks, s.sends))
  {
    if !DuplicateReport(s.db, role, id, kind) {
      var after := RecordRejection(s.db, role, generation, id);
      QuietRejection(s.db, role, generation, id, None);
      RejectionMoves(s.db, role, generation, id, None);
      assert after.workflow == s.db.workflow;
      AlignedInv(config, s.db, s.tasks, after);
      SendsGoOn(config, s.db, Actions(s.tasks), after, Actions(s.tasks), s.sends);
    }
  }

  lemma SubmitInv(config: Config, s: Schedule, move: Move)
    requires config.Valid() && Inv(config, s) && move.Submit?
    ensures Inv(config, Next(config, s, move))
  {
    var role, id := move.role, move.id;
    if role in s.db.roles && s.db.roles[role].generation == move.generation {
      if Reportable(s.db, role, id, move.kind) {
        SubmittedInv(config, s, role, move.generation, id, move.kind, move.verdict, move.run);
      } else {
        RefusedReport(config, s, role, move.generation, id, move.kind, move.verdict);
      }
    }
  }

  // ----- operator commands -----

  /** Nothing of the start is left in a later round. */
  lemma LaterOrdinary(config: Config, db: Database, bag: multiset<Task>)
    requires Queued(config, db, bag) && db.round > 1
    ensures NoPrelude(bag)
  {
    forall b | b in bag ensures !Prelude(b) { assert ActionOk(config, db, b); }
  }

  /** A new task whose actions may wait. */
  lemma WithTask(config: Config, db: Database, tasks: seq<seq<Task>>, task: seq<Task>)
    requires Stored(config, db) && Queued(config, db, Actions(tasks) + multiset(task))
    requires Ordered(tasks) && NoPrelude(Actions(tasks)) && forall b :: b in task ==> !Prelude(b)
    ensures CoreInv(config, db, Started(tasks, task))
  {
    ActionsStarted(tasks, task);
    StartOrdered(tasks, task);
  }

  lemma ContinuedStored(config: Config, db: Database, command: CommandId, role: Role)
    requires Stored(config, db) && db.pending.Some? && role in db.roles
    ensures var after := ControlEffect(db, command, Continue, role);
            && Stored(config, after) && SameRows(db, after) && after.pending == db.pending && after.workflow == Routing
  {
    var after := ControlEffect(db, command, Continue, role);
    assert SameRows(db, after) && after.pending == db.pending && after.workflow == Routing && after.paused == db.paused;
    MetaSound(config, db, after);
    GrownPast(db, after);
    SameRowsOpening(db, after);
  }

  /** The task an approved continuation starts: the pending repair, which is the
      only assignment that can still be stored, and the look at what became of it. */
  lemma ContinuedInv(config: Config, db: Database, tasks: seq<seq<Task>>, command: CommandId, role: Role)
    requires config.Valid() && CoreInv(config, db, tasks) && db.pending.Some? && role in db.roles
    ensures var after, later := ControlEffect(db, command, Continue, role), Started(tasks, CommandTask(db, Continue));
            && CoreInv(config, after, later) && GoesOn(config, db, Actions(tasks), after, Actions(later))
            && AssignTo(Implementer, Implementation, db.round) in Actions(later)
            && forall a :: a in Actions(later) ==> Harmless(config, after, a) || a == AssignTo(Implementer, Implementation, db.round)
  {
    var after := ControlEffect(db, command, Continue, role);
    var bag := Actions(tasks);
    var repair, confirm := AssignTo(Implementer, Implementation, db.round), ConfirmRepair(db.round);
    ContinuedStored(config, db, command, role);
    LaterOrdinary(config, db, bag);
    SameRowsQueued(config, db, after, bag);
    AddRepair(config, after, bag, db.round);
    AddHarmless(config, after, bag + multiset{repair}, confirm);
    assert CommandTask(db, Continue) == [repair, confirm];
    assert multiset([repair, confirm]) == multiset{repair, confirm};
    assert bag + multiset{repair} + multiset{confirm} == bag + multiset{repair, confirm};
    WithTask(config, after, tasks, [repair, confirm]);
    ActionsStarted(tasks, [repair, confirm]);
    if ApprovedReview(db) {
      ReadyIdle(config, db);
      ApprovedGiven(config, db);
    }
  }

  lemma ReceiptInv(config: Config, db: Database, tasks: seq<seq<Task>>, command: CommandId, receipt: Command)
    requires CoreInv(config, db, tasks)
    ensures var after := Receipted(db, command, receipt);
            CoreInv(config, after, tasks) && GoesOn(config, db, Actions(tasks), after, Actions(tasks))
  {
    ReceiptAligned(db, Receipted(db, command, receipt));
    AlignedInv(config, db, tasks, Receipted(db, command, receipt));
  }

  lemma ReceiptAligned(db: Database, after: Database)
    requires after == db.(commands := after.commands) && PauseDominates(db)
    ensures Aligned(db, after) && after.pending == db.pending && after.workflow == db.workflow && WorkflowMoves(db, after)
  {
  }

  /** A command that is written at once. */
  lemma EffectInv(config: Config, db: Database, tasks: seq<seq<Task>>, command: CommandId, action: Action, role: Role)
    requires config.Valid() && CoreInv(config, db, tasks) && role in db.roles
    requires action.Continue? ==> SafelyPaused(db)
    ensures var after, later := ControlEffect(db, command, action, role), Started(tasks, CommandTask(db, action));
            CoreInv(config, after, later) && GoesOn(config, db, Actions(tasks), after, Actions(later))
  {
    if action == Continue {
      ContinuedInv(config, db, tasks, command, role);
    } else {
      ControlAligned(db, command, action, role);
      AlignedInv(config, db, tasks, ControlEffect(db, command, action, role));
    }
  }

  lemma OperateNext(config: Config, s: Schedule, command: CommandId, action: Action, role: Role, link: Link)
    ensures Next(config, s, Operate(command, action, role, link)) ==
            match ControlStatus(s.db, command, action, role, link)
            case None => s
            case Some(answer) =>
              if answer != StatusAccepted then s.(db := Receipted(s.db, command, Command(action, role, answer)))
              else if Awaits(action) then s.(sends := s.sends + [Sending(command, role, Planned(s.db, action, role))])
              else Schedule(Receipted(ControlEffect(s.db, command, action, role), command, Command(action, role, answer)),
                            Started(s.tasks, CommandTask(s.db, action)), s.sends)
  {
  }

  /** Guidance that reopens an approved run relies on nothing that is not so when
      it is checked. */
  lemma PlannedOk(config: Config, db: Database, bag: multiset<Task>, action: Action, role: Role)
    requires Stored(config, db) && Queued(config, db, bag)
    ensures SendOk(config, db, bag, Planned(db, action, role))
  {
  }

  lemma WrittenInv(config: Config, s: Schedule, command: CommandId, action: Action, role: Role)
    requires config.Valid() && Inv(config, s) && role in s.db.roles && (action.Continue? ==> SafelyPaused(s.db))
    ensures Inv(config, Schedule(Receipted(ControlEffect(s.db, command, action, role), command, Command(action, role, StatusAccepted)),
                                 Started(s.tasks, CommandTask(s.db, action)), s.sends))
  {
    var effect, later := ControlEffect(s.db, command, action, role), Started(s.tasks, CommandTask(s.db, action));
    EffectInv(config, s.db, s.tasks, command, action, role);
    SendsGoOn(config, s.db, Actions(s.tasks), effect, Actions(later), s.sends);
    ReceiptInv(config, effect, later, command, Command(action, role, StatusAccepted));
    SendsGoOn(config, effect, Actions(later), Receipted(effect, command, Command(action, role, StatusAccepted)), Actions(later), s.sends);
  }

  lemma OperateInv(config: Config, s: Schedule, command: CommandId, action: Action, role: Role, link: Link)
    requires config.Valid() && Inv(config, s)
    ensures Inv(config, Next(config, s, Operate(command, action, role, link)))
  {
    OperateNext(config, s, command, action, role, link);
    match ControlStatus(s.db, command, action, role, link)
    case None =>
    case Some(answer) =>
      if answer != StatusAccepted {
        ReceiptInv(config, s.db, s.tasks, command, Command(action, role, answer));
        SendsGoOn(config, s.db, Actions(s.tasks), Receipted(s.db, command, Command(action, role, answer)), Actions(s.tasks), s.sends);
      } else if Awaits(action) {
        PlannedOk(config, s.db, Actions(s.tasks), action, role);
      } else {
        WrittenInv(config, s, command, action, role);
      }
  }

  // ----- commands that were sent -----

  /** Guidance that opens the next round of a run that is still settled. */
  lemma ReopenedInv(config: Config, db: Database, tasks: seq<seq<Task>>)
    requires config.Valid() && CoreInv(config, db, tasks) && Settled(config, db, Actions(tasks))
    ensures CoreInv(config, Advance(db, db.round + 1), Started(tasks, PlanTask(Reopening(db.round + 1))))
    ensures Opening(Advance(db, db.round + 1)) && NoneActive(Advance(db, db.round + 1))
  {
    SettledAdvances(config, db, Actions(tasks));
    SettledOrdinary(config, db, tasks);
    WithRepair(config, Advance(db, db.round + 1), tasks, db.round + 1);
  }

  lemma WithRepair(config: Config, db: Database, tasks: seq<seq<Task>>, round: nat)
    requires Stored(config, db) && Queued(config, db, Actions(tasks) + multiset{AssignTo(Implementer, Implementation, round)})
    requires Ordered(tasks) && NoPrelude(Actions(tasks))
    ensures CoreInv(config, db, Started(tasks, PlanTask(Reopening(round))))
    ensures Actions(Started(tasks, PlanTask(Reopening(round)))) == Actions(tasks) + multiset{AssignTo(Implementer, Implementation, round)}
  {
    var repair := AssignTo(Implementer, Implementation, round);
    assert PlanTask(Reopening(round)) == [repair] && multiset([repair]) == multiset{repair};
    WithTask(config, db, tasks, [repair]);
    ActionsStarted(tasks, [repair]);
  }

  lemma SettledAdvances(config: Config, db: Database, bag: multiset<Task>)
    requires config.Valid() && Stored(config, db) && Queued(config, db, bag) && Settled(config, db, bag)
    ensures var after := Advance(db, db.round + 1);
            && Stored(config, after) && Opening(after) && NoneActive(after)
            && Queued(config, after, bag + multiset{AssignTo(Implementer, Implementation, db.round + 1)})
  {
    ReadyIdle(config, db);
    AdvancedQueued(config, db, bag);
  }

  lemma SettledOrdinary(config: Config, db: Database, tasks: seq<seq<Task>>)
    requires Settled(config, db, Actions(tasks))
    ensures NoPrelude(Actions(tasks))
  {
  }

  /** The round it opens was opened by other guidance in the meantime: the run
      goes on in it, with one more assignment waiting. */
  lemma ReopenedAgain(config: Config, db: Database, tasks: seq<seq<Task>>)
    requires config.Valid() && CoreInv(config, db, tasks) && db.round > 1
    ensures var after, later := Advance(db, db.round), Started(tasks, PlanTask(Reopening(db.round)));
            CoreInv(config, after, later) && GoesOn(config, db, Actions(tasks), after, Actions(later))
  {
    var after := Advance(db, db.round);
    assert after == SetWorkflow(db, Active);
    QuietWorkflow(db, Implementer, Idle, Active);
    AlignedInv(config, db, tasks, after);
    AddRepair(config, after, Actions(tasks), db.round);
    LaterOrdinary(config, db, Actions(tasks));
    WithRepair(config, after, tasks, db.round);
    if Settled(config, db, Actions(tasks)) { SettledRepair(config, after, Actions(tasks)); }
  }

  lemma SettledRepair(config: Config, db: Database, bag: multiset<Task>)
    requires config.Valid() && Sound(config, db) && db.round > 1 && Settled(config, db, bag)
    ensures Settled(config, db, bag + multiset{AssignTo(Implementer, Implementation, db.round)})
  {
    ReadyIdle(config, db);
    ApprovedGiven(config, db);
  }

  lemma PlanInv(config: Config, db: Database, tasks: seq<seq<Task>>, x: Sending)
    requires config.Valid() && CoreInv(config, db, tasks) && SendOk(config, db, Actions(tasks), x.plan) && x.role in db.roles
    requires x.plan.Reopening? ==> db.round <= x.plan.round
    ensures var after, later := PlanEffect(db, x.command, x.role, x.plan), Started(tasks, PlanTask(x.plan));
            CoreInv(config, after, later) && GoesOn(config, db, Actions(tasks), after, Actions(later))
  {
    match x.plan
    case Reopening(round) =>
      if round == db.round {
        ReopenedAgain(config, db, tasks);
      } else {
        assert round == db.round + 1;
        ReopenedInv(config, db, tasks);
      }
    case Guiding(waking) => GuidedInv(config, db, tasks, x.command, x.role, waking);
    case Aborting =>
  }

  lemma GuidedInv(config: Config, db: Database, tasks: seq<seq<Task>>, command: CommandId, role: Role, waking: bool)
    requires CoreInv(config, db, tasks) && role in db.roles
    ensures var after := Resume(db, command, role, waking);
            CoreInv(config, after, tasks) && GoesOn(config, db, Actions(tasks), after, Actions(tasks))
  {
    ResumeAligned(db, command, role, waking);
    ResumeMoves(db, command, role, waking);
    AlignedInv(config, db, tasks, Resume(db, command, role, waking));
  }

  lemma SentNext(config: Config, s: Schedule, i: nat)
    requires Writes(s, Sent(i))
    ensures var x := s.sends[i];
            Next(config, s, Sent(i)) ==
            Schedule(Receipted(PlanEffect(s.db, x.command, x.role, x.plan), x.command, Command(PlanAction(x.plan), x.role, StatusAccepted)),
                     Started(s.tasks, PlanTask(x.plan)), Without(s.sends, i))
  {
  }

  lemma WithoutOk(config: Config, s: Schedule, i: nat)
    requires Inv(config, s)
    ensures Inv(config, s.(sends := Without(s.sends, i)))
  {
  }

  lemma SentInv(config: Config, s: Schedule, i: nat)
    requires config.Valid() && Inv(config, s) && !Regresses(s, Sent(i))
    ensures Inv(config, Next(config, s, Sent(i)))
  {
    WithoutOk(config, s, i);
    if Writes(s, Sent(i)) {
      var x, left := s.sends[i], Without(s.sends, i);
      var effect, later := PlanEffect(s.db, x.command, x.role, x.plan), Started(s.tasks, PlanTask(x.plan));
      var receipt := Command(PlanAction(x.plan), x.role, StatusAccepted);
      SentNext(config, s, i);
      PlanInv(config, s.db, s.tasks, x);
      SendsGoOn(config, s.db, Actions(s.tasks), effect, Actions(later), left);
      ReceiptInv(config, effect, later, x.command, receipt);
      SendsGoOn(config, effect, Actions(later), Receipted(effect, x.command, receipt), Actions(later), left);
    }
  }

  // ----- every move, every schedule -----

  lemma DropInv(config: Config, s: Schedule)
    requires Inv(config, s)
    ensures Inv(config, Schedule(s.db, [], []))
  {
    SubBag(config, s.db, Actions(s.tasks), multiset{});
  }

  lemma AbandonInv(config: Config, s: Schedule, i: nat)
    requires Inv(config, s) && i < |s.tasks|
    ensures Inv(config, s.(tasks := Replaced(s.tasks, i, [])))
  {
    var fewer := Actions(Replaced(s.tasks, i, []));
    ActionsReplaced(s.tasks, i, []);
    Fewer(fewer, multiset(s.tasks[i]), Actions(s.tasks));
    SubBag(config, s.db, Actions(s.tasks), fewer);
    FewerOrdered(s.tasks, i);
    assert forall a :: a in fewer ==> a in Actions(s.tasks);
    SendsGoOn(config, s.db, Actions(s.tasks), s.db, fewer, s.sends);
  }

  lemma UncertainInv(config: Config, s: Schedule)
    requires Inv(config, s)
    ensures Inv(config, s.(db := SetWorkflow(s.db, Uncertain)))
  {
    QuietWorkflow(s.db, Implementer, Idle, Uncertain);
    AlignedInv(config, s.db, s.tasks, SetWorkflow(s.db, Uncertain));
    SendsGoOn(config, s.db, Actions(s.tasks), SetWorkflow(s.db, Uncertain), Actions(s.tasks), s.sends);
  }

  lemma Fewer(a: multiset<Task>, b: multiset<Task>, c: multiset<Task>)
    requires a + b == c + multiset([])
    ensures a <= c
  {
    forall x ensures a[x] <= c[x] {
      assert (a + b)[x] == (c + multiset([]))[x];
    }
  }

  lemma FewerOrdered(tasks: seq<seq<Task>>, i: nat)
    requires Ordered(tasks) && i < |tasks|
    ensures Ordered(Replaced(tasks, i, []))
  {
    var after := Replaced(tasks, i, []);
    forall k | 0 <= k < |after| ensures after[k] == if k < i then tasks[k] else tasks[k + 1] {
    }
  }

  lemma RebootInv(config: Config, s: Schedule)
    requires Inv(config, s)
    ensures Inv(config, Schedule(Boot(s.db), [], []))
  {
    DropInv(config, s);
    QuietBoot(s.db);
    BootMoves(s.db);
    AlignedInv(config, s.db, [], Boot(s.db));
  }

  lemma BackgroundKeeps(config: Config, s: Schedule, tx: Transaction)
    requires config.Valid() && Inv(config, s)
    ensures Inv(config, Next(config, s, Background(tx)))
  {
    if !Routes(tx) {
      BackgroundInv(config, s.db, s.tasks, tx);
      SendsGoOn(config, s.db, Actions(s.tasks), Apply(s.db, tx), Actions(s.tasks), s.sends);
    }
  }

  lemma InterruptInv(config: Config, s: Schedule, move: Move)
    requires Inv(config, s) && (move.Fail? || move.Abandon? || move.Unsent? || move.Crash? || move.Reboot?)
    ensures Inv(config, Next(config, s, move))
  {
    InterruptNext(config, s, move);
    match move
    case Crash => DropInv(config, s);
    case Reboot => RebootInv(config, s);
    case Unsent(i) => WithoutOk(config, s, i);
    case Abandon(i) => DroppedInv(config, s, i);
    case Fail(i) =>
      DroppedInv(config, s, i);
      UncertainInv(config, Dropped(s, i));
  }

  function Dropped(s: Schedule, i: nat): Schedule {
    if i < |s.tasks| then s.(tasks := Replaced(s.tasks, i, [])) else s
  }

  lemma DroppedInv(config: Config, s: Schedule, i: nat)
    requires Inv(config, s)
    ensures Inv(config, Dropped(s, i))
  {
    if i < |s.tasks| { AbandonInv(config, s, i); }
  }

  lemma InterruptNext(config: Config, s: Schedule, move: Move)
    requires move.Fail? || move.Abandon? || move.Unsent? || move.Crash? || move.Reboot?
    ensures Next(config, s, move) ==
            match move
            case Crash => Schedule(s.db, [], [])
            case Reboot => Schedule(Boot(s.db), [], [])
            case Unsent(i) => s.(sends := Without(s.sends, i))
            case Abandon(i) => Dropped(s, i)
            case Fail(i) => Dropped(s, i).(db := SetWorkflow(s.db, Uncertain))
            case _ => s
  {
  }

  lemma MoveInv(config: Config, s: Schedule, move: Move)
    requires config.Valid() && Inv(config, s) && !Untimely(s, move) && !Regresses(s, move)
    ensures Inv(config, Next(config, s, move))
  {
    match move
    case Background(tx) => BackgroundKeeps(config, s, tx);
    case Begin(probe) => BeginInv(config, s, probe);
    case Submit(_, _, _, _, _, _) => SubmitInv(config, s, move);
    case Operate(command, action, role, link) => OperateInv(config, s, command, action, role, link);
    case Proceed(_, _, _, _) => ProceedInv(config, s, move);
    case Sent(i) => SentInv(config, s, i);
    case _ => InterruptInv(config, s, move);
  }

  lemma InitialInv(config: Config)
    requires config.Valid()
    ensures Inv(config, Schedule(InitialDatabase(config), [], []))
  {
    assert InitialDatabase(config).roles.Keys == config.Roles();
  }

  lemma TimelyPrefix(config: Config, moves: seq<Move>, n: nat)
    requires Timely(config, moves) && n <= |moves|
    ensures Timely(config, moves[..n])
  {
    forall i | 0 <= i < n
      ensures !Untimely(Play(config, moves[..n][..i]), moves[..n][i]) && !Regresses(Play(config, moves[..n][..i]), moves[..n][i])
    {
      assert moves[..n][..i] == moves[..i];
    }
  }

  lemma TimelyMore(config: Config, moves: seq<Move>, move: Move)
    requires Timely(config, moves) && !Untimely(Play(config, moves), move) && !Regresses(Play(config, moves), move)
    ensures Timely(config, moves + [move])
  {
    var all := moves + [move];
    forall i | 0 <= i < |all| ensures !Untimely(Play(config, all[..i]), all[i]) && !Regresses(Play(config, all[..i]), all[i]) {
      assert all[..i] == moves[..i];
      if i == |moves| { assert moves[..i] == moves; }
    }
  }

  lemma {:induction false} ScheduleInv(config: Config, moves: seq<Move>)
    requires config.Valid() && Timely(config, moves)
    ensures Inv(config, Play(config, moves))
    decreases |moves|
  {
    if moves == [] {
      InitialInv(config);
    } else {
      var n := |moves| - 1;
      TimelyPrefix(config, moves, n);
      ScheduleInv(config, moves[..n]);
      MoveInv(config, Play(config, moves[..n]), moves[n]);
    }
  }

  // ----- what holds, and exactly when -----

  ghost predicate ReadyHolds(config: Config, db: Database) {
    db.workflow == Ready ==>
      && (exists id :: id in db.reports && db.reports[id].role == Reviewer && db.reports[id].round == db.round && db.reports[id].verdict == Approved)
      && (exists id :: id in db.reports && db.reports[id].role == Implementer && db.reports[id].round == db.round && db.reports[id].kind == Implementation)
      && (forall s :: s in config.specialists ==>
            && (s, db.round) in db.activations
            && (db.activations[(s, db.round)] ==> exists id :: id in db.reports && db.reports[id].role == s && db.reports[id].round == db.round))
      && NoneActive(db) && AllCompleted(db)
  }

  predicate SameRoleAndRound(db: Database, a: AssignmentId, b: AssignmentId) {
    && a in db.assignments && b in db.assignments
    && db.assignments[a].role == db.assignments[b].role && db.assignments[a].round == db.assignments[b].round
  }

  /** A role has at most one open assignment and its pointer names exactly that
      one, exactly the completed assignments have a report, and a round has at
      most one reviewer assignment and one per specialist. */
  ghost predicate IntegrityHolds(config: Config, db: Database) {
    && Sound(config, db)
    && (forall id :: id in db.assignments && db.assignments[id].state != Completed ==>
          db.roles[db.assignments[id].role].active == Some(id))
    && (forall id :: id in db.assignments ==> (id in db.reports <==> db.assignments[id].state == Completed))
    && (forall a, b :: SameRoleAndRound(db, a, b) && db.assignments[a].role != Implementer ==> a == b)
  }

  /** A repair that waits for approval is that of the current round, which it was
      not given in yet, and nothing is at work. */
  ghost predicate PendingHolds(db: Database) {
    db.pending.Some? ==> db.pending.value == db.round && Opening(db) && NoneActive(db) && AllCompleted(db)
  }

  ghost predicate AllHold(config: Config, db: Database) {
    IntegrityHolds(config, db) && ReadyHolds(config, db) && PauseDominates(db) && PendingHolds(db)
  }

  /** All of it at every point of a schedule, and no round comes back. */
  ghost predicate HoldsThroughout(config: Config, moves: seq<Move>) {
    && (forall i :: 0 <= i <= |moves| ==> AllHold(config, Play(config, moves[..i]).db))
    && (forall i :: 0 <= i < |moves| ==> Play(config, moves[..i]).db.round <= Next(config, Play(config, moves[..i]), moves[i]).db.round)
  }

  lemma SoundHolds(config: Config, db: Database)
    requires Sound(config, db)
    ensures IntegrityHolds(config, db)
  {
    forall a, b | SameRoleAndRound(db, a, b) && db.assignments[a].role != Implementer ensures a == b {
      assert KindFits(config, db.assignments[a].role, db.assignments[a].kind) && KindFits(config, db.assignments[b].role, db.assignments[b].kind);
    }
  }

  /** Assignment integrity at every point of every timely schedule. */
  lemma AssignmentIntegrity(config: Config, moves: seq<Move>)
    requires config.Valid() && Timely(config, moves)
    ensures IntegrityHolds(config, Play(config, moves).db)
  {
    ScheduleInv(config, moves);
    SoundHolds(config, Play(config, moves).db);
  }

  /** Ready is reached only through an approving review of the current round,
      complete evidence of that round, and with no assignment open. */
  lemma ReadyIsApproved(config: Config, moves: seq<Move>)
    requires config.Valid() && Timely(config, moves)
    ensures ReadyHolds(config, Play(config, moves).db)
  {
    ScheduleInv(config, moves);
    var db := Play(config, moves).db;
    if db.workflow == Ready {
      ReadyIdle(config, db);
      IdleCompleted(db);
    }
  }

  /** While provider calls are paused the workflow is neither active nor ready. */
  lemma PauseRulesOut(config: Config, moves: seq<Move>)
    requires config.Valid() && Timely(config, moves)
    ensures PauseDominates(Play(config, moves).db)
  {
    ScheduleInv(config, moves);
  }

  /** A pending repair is the one the round was opened for. */
  lemma PendingIsOpen(config: Config, moves: seq<Move>)
    requires config.Valid() && Timely(config, moves)
    ensures PendingHolds(Play(config, moves).db)
  {
    ScheduleInv(config, moves);
    var db := Play(config, moves).db;
    if db.pending.Some? { IdleCompleted(db); }
  }

  /** Giving the same work twice breaks integrity at once, or makes a repair wait
      for approval that was given already. */
  lemma UntimelyBreaks(config: Config, s: Schedule, move: Move)
    requires AllHold(config, s.db) && Untimely(s, move)
    ensures !AllHold(config, Next(config, s, move).db)
  {
    var a := s.tasks[move.task][0];
    var after := Next(config, s, move).db;
    var other :| other in s.db.assignments && s.db.assignments[other].role == a.role && s.db.assignments[other].kind == a.kind
                 && s.db.assignments[other].round == a.round;
    assert after == Assign(s.db, a.role, a.kind, a.round, move.id, move.delivery);
    GivenTwice(s.db, a, other, move.id, move.delivery);
  }

  lemma GivenTwice(db: Database, a: Task, other: AssignmentId, id: AssignmentId, delivery: DeliveryId)
    requires a.AssignTo? && Assignable(db, a.role, id, delivery)
    requires other in db.assignments && db.assignments[other].role == a.role && db.assignments[other].kind == a.kind
             && db.assignments[other].round == a.round
    ensures var after := Assign(db, a.role, a.kind, a.round, id, delivery); !Unique(after) || !PendingHolds(after)
  {
    var after := Assign(db, a.role, a.kind, a.round, id, delivery);
    AssignRows(db, a.role, a.kind, a.round, id, delivery);
    if RepairLimitReached(db, a.role, a.kind, a.round) {
      assert other in after.assignments && after.pending == Some(a.round);
    } else {
      assert after.assignments[id] == NewAssignment(a.role, a.kind, a.round, delivery);
      assert after.assignments[other] == db.assignments[other] && other != id;
    }
  }

  /** No other move goes back to an earlier round. */
  lemma MoveForward(config: Config, s: Schedule, move: Move)
    requires config.Valid() && Inv(config, s)
    ensures Regresses(s, move) <==> Next(config, s, move).db.round < s.db.round
  {
    match move
    case Background(tx) => BackgroundRound(config, s, tx);
    case Submit(role, generation, id, kind, verdict, _) => SubmitRound(s.db, role, generation, id, kind, verdict);
    case Operate(command, action, role, link) => ControlRound(s.db, command, action, role, link);
    case Proceed(_, _, _, _) => ProceedRound(config, s, move);
    case Sent(i) => if Writes(s, move) { SentNext(config, s, i); SentRound(s.db, s.sends[i]); }
    case Reboot => QuietBoot(s.db);
    case _ =>
  }

  lemma ProceedRound(config: Config, s: Schedule, move: Move)
    requires Inv(config, s) && move.Proceed?
    ensures s.db.round <= MoveDatabase(config, s, move).round
  {
    if move.task < |s.tasks| {
      ActionsHold(s.tasks, move.task, 0);
      TaskRound(config, s.db, Actions(s.tasks), s.tasks[move.task][0], move.connected, move.id, move.delivery);
    }
  }

  lemma BackgroundRound(config: Config, s: Schedule, tx: Transaction)
    requires config.Valid() && Inv(config, s)
    ensures s.db.round <= MoveDatabase(config, s, Background(tx)).round
  {
    if !Routes(tx) { BackgroundInv(config, s.db, s.tasks, tx); }
  }

  lemma SubmitRound(db: Database, role: Role, generation: nat, id: AssignmentId, kind: Kind, verdict: Verdict)
    ensures Receive(db, role, generation, ReportFrame(id, kind, verdict)).round == db.round
  {
    RejectionRound(db, role, generation, id);
    AcceptRound(db, role, generation, id, kind, verdict);
  }

  lemma RejectionRound(db: Database, role: Role, generation: nat, id: AssignmentId)
    ensures RecordRejection(db, role, generation, id).round == db.round
  {
    QuietRejection(db, role, generation, id, None);
  }

  lemma AcceptRound(db: Database, role: Role, generation: nat, id: AssignmentId, kind: Kind, verdict: Verdict)
    requires RecordRejection(db, role, generation, id).round == db.round
    ensures AcceptReport(db, role, generation, id, kind, verdict).round == db.round
  {
  }

  lemma ControlRound(db: Database, command: CommandId, action: Action, role: Role, link: Link)
    ensures Control(db, command, action, role, link).round == db.round
  {
  }

  lemma SentRound(db: Database, x: Sending)
    requires x.role in db.roles
    ensures PlanEffect(db, x.command, x.role, x.plan).round == if x.plan.Reopening? then x.plan.round else db.round
  {
    if x.plan.Guiding? { ShapedResume(db, x.command, x.role, x.plan.waking); }
  }

  lemma TimelyPoint(config: Config, moves: seq<Move>, i: nat)
    requires config.Valid() && Timely(config, moves) && i <= |moves|
    ensures AllHold(config, Play(config, moves[..i]).db)
    ensures i < |moves| ==> Play(config, moves[..i]).db.round <= Next(config, Play(config, moves[..i]), moves[i]).db.round
  {
    TimelyPrefix(config, moves, i);
    AssignmentIntegrity(config, moves[..i]);
    ReadyIsApproved(config, moves[..i]);
    PauseRulesOut(config, moves[..i]);
    PendingIsOpen(config, moves[..i]);
    ScheduleInv(config, moves[..i]);
    if i < |moves| { MoveForward(config, Play(config, moves[..i]), moves[i]); }
  }

  lemma RegressBreaks(config: Config, s: Schedule, move: Move)
    requires Regresses(s, move)
    ensures Next(config, s, move).db.round < s.db.round
  {
    SentNext(config, s, move.send);
    SentRound(s.db, s.sends[move.send]);
  }

  /** All of it holds at every point of a schedule if and only if nothing is given
      twice and no round is reopened that is over: if whatever is stored relies
      on something that was read and still holds. */
  lemma HoldsExactlyWhenTimely(config: Config, moves: seq<Move>)
    requires config.Valid()
    ensures HoldsThroughout(config, moves) <==> Timely(config, moves)
  {
    if Timely(config, moves) {
      forall i | 0 <= i <= |moves| ensures AllHold(config, Play(config, moves[..i]).db) { TimelyPoint(config, moves, i); }
      forall i | 0 <= i < |moves|
        ensures Play(config, moves[..i]).db.round <= Next(config, Play(config, moves[..i]), moves[i]).db.round
      {
        TimelyPoint(config, moves, i);
      }
    } else {
      var i :| 0 <= i < |moves| && (Untimely(Play(config, moves[..i]), moves[i]) || Regresses(Play(config, moves[..i]), moves[i]));
      LateBreaks(config, moves, i);
    }
  }

  lemma LateBreaks(config: Config, moves: seq<Move>, i: nat)
    requires i < |moves| && (Untimely(Play(config, moves[..i]), moves[i]) || Regresses(Play(config, moves[..i]), moves[i]))
    ensures !HoldsThroughout(config, moves)
  {
    var s := Play(config, moves[..i]);
    assert moves[..i + 1][..i] == moves[..i];
    assert Play(config, moves[..i + 1]) == Next(config, s, moves[i]);
    if Regresses(s, moves[i]) {
      RegressBreaks(config, s, moves[i]);
    } else if AllHold(config, s.db) {
      UntimelyBreaks(config, s, moves[i]);
      assert !AllHold(config, Play(config, moves[..i + 1]).db);
    }
  }

  // ----- assignments that follow their check at once -----

  predicate IsReview(a: Task) {
    a.AssignTo? && a.role == Reviewer
  }

  ghost predicate NoReview(tasks: seq<seq<Task>>) {
    forall a :: a in Actions(tasks) ==> !IsReview(a)
  }

  /** The only review that waits is the next action of one task, and due. */
  ghost predicate OneReview(s: Schedule, i: nat) {
    && i < |s.tasks| && s.tasks[i] != [] && IsReview(s.tasks[i][0]) && !ReviewAssigned(s.db, s.tasks[i][0].round)
    && NoReview(Replaced(s.tasks, i, s.tasks[i][1..]))
  }

  lemma AssignAllOrdinary(roles: seq<Role>, round: nat)
    requires forall r :: r in roles ==> r != Reviewer
    ensures forall a :: a in AssignAll(roles, round) ==> !IsReview(a)
  {
    forall a | a in AssignAll(roles, round) ensures !IsReview(a) {
      var i :| 0 <= i < |roles| && AssignAll(roles, round)[i] == a;
      assert roles[i] in roles;
    }
  }

  lemma FollowsNoReview(config: Config, db: Database, a: Task)
    requires config.Valid() && !(a.ReviewCheck? && ReviewDue(config, db, a.round))
    ensures forall b :: b in Follow(config, db, a) ==> !IsReview(b)
  {
    if a.ActivateRound? {
      NewlyRunMembers(db, config.specialists, a.round, a.run);
      AssignAllOrdinary(NewlyRun(db, config.specialists, a.round, a.run), a.round);
    }
  }

  lemma StepsNoReview(config: Config, s: Schedule, move: Move)
    requires config.Valid() && NoReview(s.tasks) && move.Proceed? && !PassesCheck(config, s, move)
    ensures NoReview(Next(config, s, move).tasks)
  {
    if move.task < |s.tasks| && s.tasks[move.task] != [] {
      var a, rest := s.tasks[move.task][0], s.tasks[move.task][1..];
      ProceedNext(config, s, move);
      RestFollows(config, s.db, a, rest);
      HeadReplaced(s.tasks, move.task, Follow(config, s.db, a));
      FollowsNoReview(config, s.db, a);
    }
  }

  lemma StartNoReview(tasks: seq<seq<Task>>, task: seq<Task>)
    requires NoReview(tasks) && forall a :: a in task ==> !IsReview(a)
    ensures NoReview(Started(tasks, task))
  {
    ActionsStarted(tasks, task);
  }

  lemma FewerNoReview(tasks: seq<seq<Task>>, i: nat)
    requires NoReview(tasks) && i < |tasks|
    ensures NoReview(Replaced(tasks, i, []))
  {
    ActionsReplaced(tasks, i, []);
    Fewer(Actions(Replaced(tasks, i, [])), multiset(tasks[i]), Actions(tasks));
  }

  /** Only a check that passes makes a review wait. */
  lemma MovesNoReview(config: Config, s: Schedule, move: Move)
    requires config.Valid() && NoReview(s.tasks) && !PassesCheck(config, s, move)
    ensures NoReview(Next(config, s, move).tasks)
  {
    match move
    case Proceed(_, _, _, _) => StepsNoReview(config, s, move);
    case Begin(probe) => StartNoReview(s.tasks, StartTasks(config, probe));
    case Submit(role, generation, id, kind, verdict, run) =>
      if role in s.db.roles && s.db.roles[role].generation == generation && Reportable(s.db, role, id, kind) {
        StartNoReview(s.tasks, RouteReport(config, role, s.db.assignments[id].round, kind, verdict, run));
      }
    case Operate(command, action, role, link) => StartNoReview(s.tasks, CommandTask(s.db, action));
    case Sent(i) => if Writes(s, move) { StartNoReview(s.tasks, PlanTask(s.sends[i].plan)); }
    case Fail(i) => if i < |s.tasks| { FewerNoReview(s.tasks, i); }
    case Abandon(i) => if i < |s.tasks| { FewerNoReview(s.tasks, i); }
    case _ =>
  }

  lemma OnlyHeadReview(tasks: seq<seq<Task>>, i: nat, review: Task)
    requires NoReview(tasks) && i < |tasks| && tasks[i] != []
    ensures var after := tasks[i := [review] + tasks[i][1..]];
            after[i][1..] == tasks[i][1..] && NoReview(Replaced(after, i, after[i][1..]))
  {
    var rest := tasks[i][1..];
    var after := tasks[i := [review] + rest];
    assert after[i][1..] == rest;
    assert Replaced(after, i, rest) == Replaced(tasks, i, rest);
    HeadReplaced(tasks, i, []);
    assert [] + rest == rest;
    assert Actions(Replaced(tasks, i, rest)) <= Actions(tasks);
  }

  lemma PassedNext(config: Config, s: Schedule, move: Move)
    requires PassesCheck(config, s, move)
    ensures var task := s.tasks[move.task];
            Next(config, s, move) == Schedule(s.db, s.tasks[move.task := [AssignTo(Reviewer, Review, task[0].round)] + task[1..]], s.sends)
  {
    ProceedNext(config, s, move);
  }

  lemma PassedOneReview(config: Config, s: Schedule, move: Move)
    requires config.Valid() && NoReview(s.tasks) && PassesCheck(config, s, move)
    ensures OneReview(Next(config, s, move), move.task)
  {
    PassedNext(config, s, move);
    OnlyHeadReview(s.tasks, move.task, AssignTo(Reviewer, Review, s.tasks[move.task][0].round));
  }

  /** The task of the waiting review goes on, or ends. */
  lemma OneReviewGone(config: Config, s: Schedule, i: nat, move: Move)
    requires OneReview(s, i)
    requires TaskNext(move, i)
    ensures NoReview(Next(config, s, move).tasks)
  {
    match move
    case Proceed(_, _, _, _) => ProceedNext(config, s, move);
    case Fail(_) => DroppedReview(s.tasks, i);
    case Abandon(_) => DroppedReview(s.tasks, i);
    case _ =>
  }

  lemma DroppedReview(tasks: seq<seq<Task>>, i: nat)
    requires i < |tasks| && tasks[i] != [] && NoReview(Replaced(tasks, i, tasks[i][1..]))
    ensures NoReview(Replaced(tasks, i, []))
  {
    var rest := tasks[i][1..];
    ActionsReplaced(tasks, i, []);
    ActionsReplaced(tasks, i, rest);
    LessThanRest(Actions(Replaced(tasks, i, [])), Actions(Replaced(tasks, i, rest)), multiset(tasks[i]), Actions(tasks), multiset(rest));
  }

  lemma LessThanRest(a: multiset<Task>, b: multiset<Task>, c: multiset<Task>, d: multiset<Task>, rest: multiset<Task>)
    requires a + c == d + multiset([]) && b + c == d + rest
    ensures a <= b
  {
    forall x ensures a[x] <= b[x] {
      assert (a + c)[x] == (d + multiset([]))[x] && (b + c)[x] == (d + rest)[x];
    }
  }

  lemma OtherTask(tasks: seq<seq<Task>>, i: nat, k: nat)
    requires i < |tasks| && k < |tasks| && i != k && tasks[i] != [] && tasks[k] != [] && NoReview(Replaced(tasks, i, tasks[i][1..]))
    ensures !IsReview(tasks[k][0])
  {
    var after := Replaced(tasks, i, tasks[i][1..]);
    var at := if tasks[i][1..] == [] && k > i then k - 1 else k;
    assert after[at] == tasks[k];
    ActionsHold(after, at, 0);
  }

  // ----- repairs that follow their check at once -----

  ghost predicate NoRepair(bag: multiset<Task>) {
    forall a :: a in bag ==> !Repair(a)
  }

  /** At most one repair waits, and it was not given yet; after a continuation it
      waits in a halted run. */
  ghost predicate OneRepair(db: Database, bag: multiset<Task>) {
    && (forall a :: a in bag && Repair(a) ==> bag[a] == 1 && a.round == db.round && Opening(db))
    && (db.pending.Some? && !NoRepair(bag) ==> Halting(db.workflow))
  }

  /** No waking guidance is in flight. */
  ghost predicate Quiet(sends: seq<Sending>) {
    forall x :: x in sends ==> !Waking(x.plan)
  }

  /** The only one is the latest, and what it was checked on still holds. */
  ghost predicate JustChecked(s: Schedule) {
    && s.sends != [] && Quiet(s.sends[..|s.sends| - 1]) && !Halting(s.db.workflow)
    && var plan := s.sends[|s.sends| - 1].plan;
       plan.Reopening? ==> s.db.workflow == Ready && plan.round == s.db.round + 1
  }

  lemma SubRepair(db: Database, bag: multiset<Task>, sub: multiset<Task>)
    requires OneRepair(db, bag) && sub <= bag
    ensures OneRepair(db, sub)
  {
    assert forall a :: a in sub ==> a in bag && sub[a] <= bag[a];
  }

  lemma MoreRepair(db: Database, bag: multiset<Task>, more: multiset<Task>)
    requires OneRepair(db, bag) && NoRepair(more)
    ensures OneRepair(db, bag + more)
  {
    forall a | a in bag + more && Repair(a) ensures a in bag && (bag + more)[a] == bag[a] { assert a !in more; }
  }

  /** Rows of assignments, the round and the pending repair stayed as they were. */
  lemma KeptRepair(db: Database, bag: multiset<Task>, after: Database)
    requires OneRepair(db, bag) && after.round == db.round && after.pending == db.pending && (Opening(db) ==> Opening(after))
    requires db.pending.Some? && Halting(db.workflow) ==> Halting(after.workflow)
    ensures OneRepair(after, bag)
  {
  }

  lemma AlignedRepair(db: Database, bag: multiset<Task>, after: Database)
    requires OneRepair(db, bag) && Aligned(db, after) && after.pending == db.pending
    requires db.pending.Some? && Halting(db.workflow) ==> Halting(after.workflow)
    ensures OneRepair(after, bag)
  {
    AlignedOpening(db, after);
    KeptRepair(db, bag, after);
  }

  lemma PendingHalted(config: Config, db: Database)
    requires Stored(config, db) && db.pending.Some? && Halting(db.workflow)
    ensures Halted(db)
  {
    IdleCompleted(db);
  }

  lemma BackgroundRepair(config: Config, db: Database, bag: multiset<Task>, tx: Transaction)
    requires config.Valid() && Stored(config, db) && OneRepair(db, bag) && !Routes(tx)
    ensures OneRepair(Apply(db, tx), bag)
  {
    if db.pending.Some? && Halting(db.workflow) {
      PendingHalted(config, db);
      HaltedBackground(db, tx);
    }
    BackgroundAligned(db, tx);
    AlignedRepair(db, bag, Apply(db, tx));
  }

  lemma BackgroundAligned(db: Database, tx: Transaction)
    requires !Routes(tx)
    ensures Aligned(db, Apply(db, tx)) && Apply(db, tx).pending == db.pending
  {
    if Incidental(tx) {
      QuietIncidental(db, tx);
    } else if tx.role in db.roles && db.roles[tx.role].generation == tx.generation {
      ShapedProviderTurn(db, tx.role, tx.generation, tx.frame.id, tx.frame.resume, tx.frame.request);
    }
  }

  /** A settled round has no repair waiting. */
  lemma SettledNoRepair(config: Config, db: Database, bag: multiset<Task>)
    requires config.Valid() && Sound(config, db) && OneRepair(db, bag) && ReviewAssigned(db, db.round)
    ensures NoRepair(bag)
  {
    ApprovedGiven(config, db);
  }

  lemma {:induction false} AssignAllNoRepair(roles: seq<Role>, round: nat)
    ensures NoRepair(multiset(AssignAll(roles, round)))
  {
    forall a | a in multiset(AssignAll(roles, round)) ensures !Repair(a) {
      var i :| 0 <= i < |roles| && AssignAll(roles, round)[i] == a;
    }
  }

  lemma FollowNoRepair(config: Config, db: Database, a: Task)
    requires !a.AdvanceTo?
    ensures NoRepair(multiset(Follow(config, db, a)))
  {
    if a.ActivateRound? {
      var all := AssignAll(NewlyRun(db, config.specialists, a.round, a.run), a.round);
      AssignAllNoRepair(NewlyRun(db, config.specialists, a.round, a.run), a.round);
      Split(all, [ReviewCheck(a.round)]);
    }
  }

  /** What is left once the only repair that waits was taken. */
  lemma LastRepair(db: Database, bag: multiset<Task>, a: Task)
    requires OneRepair(db, bag) && a in bag && Repair(a)
    ensures NoRepair(bag - multiset{a})
  {
    forall b | b in bag - multiset{a} ensures !Repair(b) {
      assert b in bag && (b == a ==> bag[a] > 1);
      assert Repair(b) ==> b == AssignTo(Implementer, Implementation, db.round);
    }
  }

  lemma TakenRepair(config: Config, db: Database, bag: multiset<Task>, a: Task, connected: bool, id: AssignmentId, delivery: DeliveryId)
    requires config.Valid() && Stored(config, db) && Queued(config, db, bag) && OneRepair(db, bag) && a in bag
    requires connected && a.AssignTo? && Assignable(db, a.role, id, delivery) ==> !AlreadyGiven(db, a.role, a.kind, a.round)
    ensures OneRepair(TaskDatabase(config, db, a, connected, id, delivery), bag - multiset{a} + multiset(Follow(config, db, a)))
  {
    var after := TaskDatabase(config, db, a, connected, id, delivery);
    var rest := bag - multiset{a};
    assert ActionOk(config, db, a);
    if a.AdvanceTo? {
      AdvancedRepair(config, db, bag, a);
    } else {
      FollowNoRepair(config, db, a);
      if Repair(a) { LastRepair(db, bag, a); }
      if !NoRepair(rest) { RepairBeside(config, db, bag, a, connected, id, delivery); }
      MoreRepair(after, rest, multiset(Follow(config, db, a)));
    }
  }

  lemma AdvancedRepair(config: Config, db: Database, bag: multiset<Task>, a: Task)
    requires config.Valid() && Stored(config, db) && Queued(config, db, bag) && OneRepair(db, bag) && a in bag && a.AdvanceTo?
    ensures OneRepair(Advance(db, a.round), bag - multiset{a} + multiset([AssignTo(Implementer, Implementation, a.round)]))
  {
    assert ActionOk(config, db, a);
    SettledNoRepair(config, db, bag);
    OpenedRepair(config, db, bag - multiset{a});
  }

  lemma OpenedRepair(config: Config, db: Database, bag: multiset<Task>)
    requires config.Valid() && Stored(config, db) && NoneActive(db) && ReviewAssigned(db, db.round) && NoRepair(bag)
    ensures OneRepair(Advance(db, db.round + 1), bag + multiset([AssignTo(Implementer, Implementation, db.round + 1)]))
  {
    AdvanceStored(config, db);
    ApprovedGiven(config, db);
    OnlyRepair(Advance(db, db.round + 1), bag);
  }

  lemma OnlyRepair(db: Database, bag: multiset<Task>)
    requires Opening(db) && db.pending == None && NoRepair(bag)
    ensures OneRepair(db, bag + multiset([AssignTo(Implementer, Implementation, db.round)]))
  {
    var repair := AssignTo(Implementer, Implementation, db.round);
    assert bag[repair] == 0;
    assert multiset([repair]) == multiset{repair};
    assert forall b :: b in bag + multiset{repair} ==> b in bag || b == repair;
  }

  /** Beside a repair that waits nothing is taken that moves it. */
  lemma RepairBeside(config: Config, db: Database, bag: multiset<Task>, a: Task, connected: bool, id: AssignmentId, delivery: DeliveryId)
    requires config.Valid() && Stored(config, db) && Queued(config, db, bag) && OneRepair(db, bag) && a in bag
    requires !Repair(a) && !NoRepair(bag - multiset{a})
    requires connected && a.AssignTo? && Assignable(db, a.role, id, delivery) ==> !AlreadyGiven(db, a.role, a.kind, a.round)
    ensures OneRepair(TaskDatabase(config, db, a, connected, id, delivery), bag - multiset{a})
  {
    var after := TaskDatabase(config, db, a, connected, id, delivery);
    var repair :| repair in bag - multiset{a} && Repair(repair);
    assert repair in bag;
    OpeningOrdinary(config, db, bag);
    SubRepair(db, bag, bag - multiset{a});
    LaterOrdinary(config, db, bag);
    match a
    case AssignTo(_, _, _) => ReviewBeside(config, db, bag, a, connected, id, delivery);
    case _ =>
      PlainTask(config, db, a, connected, id, delivery);
      KeptRepair(db, bag - multiset{a}, after);
  }

  lemma PlainTask(config: Config, db: Database, a: Task, connected: bool, id: AssignmentId, delivery: DeliveryId)
    requires a.ActivateRound? || a.ReviewCheck? || a.ConfirmRepair?
    ensures var after := TaskDatabase(config, db, a, connected, id, delivery);
            && after.round == db.round && after.pending == db.pending && after.assignments == db.assignments
            && (after.workflow == db.workflow || after.workflow == Uncertain)
  {
    match a
    case ActivateRound(_, _) =>
    case ReviewCheck(_) =>
    case ConfirmRepair(_) => ConfirmRows(config, db, a);
  }

  /** A review that waits there is of a round that has one. */
  lemma ReviewBeside(config: Config, db: Database, bag: multiset<Task>, a: Task, connected: bool, id: AssignmentId, delivery: DeliveryId)
    requires config.Valid() && Stored(config, db) && Queued(config, db, bag) && a in bag && Opening(db) && a.AssignTo? && !Repair(a)
    requires connected && Assignable(db, a.role, id, delivery) ==> !AlreadyGiven(db, a.role, a.kind, a.round)
    ensures TaskDatabase(config, db, a, connected, id, delivery) == db
  {
    assert Harmless(config, db, a) && ActionOk(config, db, a);
    GivenAction(config, db, a, connected, id, delivery);
  }

  lemma StartRepair(config: Config, s: Schedule, probe: bool)
    requires Inv(config, s) && OneRepair(s.db, Actions(s.tasks))
    ensures OneRepair(Next(config, s, Begin(probe)).db, Actions(Next(config, s, Begin(probe)).tasks))
  {
    if s.db.workflow == Connecting {
      var task := StartTasks(config, probe);
      SomeActions(s.tasks);
      assert s.tasks == [] && s.db.pending == None;
      ActionsStarted(s.tasks, task);
      StartNoRepair(config, probe);
    }
  }

  lemma StartNoRepair(config: Config, probe: bool)
    ensures NoRepair(multiset(StartTasks(config, probe)))
  {
  }

  lemma SubmitRepair(config: Config, s: Schedule, move: Move)
    requires config.Valid() && Inv(config, s) && OneRepair(s.db, Actions(s.tasks)) && move.Submit?
    ensures OneRepair(Next(config, s, move).db, Actions(Next(config, s, move).tasks))
  {
    var role, id, kind := move.role, move.id, move.kind;
    if role in s.db.roles && s.db.roles[role].generation == move.generation {
      if Reportable(s.db, role, id, kind) {
        SubmittedRepair(config, s.db, s.tasks, role, move.generation, id, kind, move.verdict, move.run);
      } else {
        RefusedRepair(s.db, Actions(s.tasks), role, move.generation, id, kind, move.verdict);
      }
    }
  }

  lemma SubmittedRepair(config: Config, db: Database, tasks: seq<seq<Task>>, role: Role, generation: nat, id: AssignmentId, kind: Kind,
                        verdict: Verdict, run: set<Role>)
    requires config.Valid() && CoreInv(config, db, tasks) && OneRepair(db, Actions(tasks)) && Reportable(db, role, id, kind)
    ensures OneRepair(AcceptReport(db, role, generation, id, kind, verdict),
                      Actions(Started(tasks, RouteReport(config, role, db.assignments[id].round, kind, verdict, run))))
  {
    var route := RouteReport(config, role, db.assignments[id].round, kind, verdict, run);
    WorkingOrdinary(config, db, Actions(tasks), role);
    ReportRows(db, role, generation, id, kind, verdict);
    ActionsStarted(tasks, route);
    RouteNoRepair(config, db, role, id, kind, verdict, run);
  }

  lemma RefusedRepair(db: Database, bag: multiset<Task>, role: Role, generation: nat, id: AssignmentId, kind: Kind, verdict: Verdict)
    requires OneRepair(db, bag) && PauseDominates(db) && !Reportable(db, role, id, kind)
    ensures OneRepair(AcceptReport(db, role, generation, id, kind, verdict), bag)
  {
    if !DuplicateReport(db, role, id, kind) {
      QuietRejection(db, role, generation, id, None);
      RejectionMoves(db, role, generation, id, None);
      AlignedRepair(db, bag, RecordRejection(db, role, generation, id));
    }
  }

  lemma RouteNoRepair(config: Config, db: Database, role: Role, id: AssignmentId, kind: Kind, verdict: Verdict, run: set<Role>)
    requires Sound(config, db) && Reportable(db, role, id, kind)
    ensures NoRepair(multiset(RouteReport(config, role, db.assignments[id].round, kind, verdict, run)))
  {
  }

  lemma ContinueRepair(config: Config, db: Database, tasks: seq<seq<Task>>, command: CommandId, role: Role)
    requires config.Valid() && CoreInv(config, db, tasks) && OneRepair(db, Actions(tasks)) && SafelyPaused(db) && role in db.roles
    ensures OneRepair(ControlEffect(db, command, Continue, role), Actions(Started(tasks, CommandTask(db, Continue))))
  {
    var after := ControlEffect(db, command, Continue, role);
    var bag := Actions(tasks);
    var repair, confirm := AssignTo(Implementer, Implementation, db.round), ConfirmRepair(db.round);
    ContinuedStored(config, db, command, role);
    SameRowsOpening(db, after);
    assert CommandTask(db, Continue) == [repair, confirm];
    assert multiset([repair, confirm]) == multiset{repair, confirm};
    ActionsStarted(tasks, [repair, confirm]);
    assert NoRepair(bag) && bag[repair] == 0;
    assert forall b :: b in bag + multiset{repair, confirm} ==> b in bag || b == repair || b == confirm;
  }

  lemma EffectRepair(config: Config, db: Database, tasks: seq<seq<Task>>, command: CommandId, action: Action, role: Role)
    requires config.Valid() && CoreInv(config, db, tasks) && OneRepair(db, Actions(tasks)) && role in db.roles
    requires action.Continue? ==> SafelyPaused(db)
    ensures OneRepair(ControlEffect(db, command, action, role), Actions(Started(tasks, CommandTask(db, action))))
  {
    if action == Continue {
      ContinueRepair(config, db, tasks, command, role);
    } else {
      ControlAligned(db, command, action, role);
      if db.pending.Some? && Halting(db.workflow) {
        PendingHalted(config, db);
        HaltedControl(db, command, action, role);
      }
      AlignedRepair(db, Actions(tasks), ControlEffect(db, command, action, role));
    }
  }

  lemma ReceiptRepair(db: Database, bag: multiset<Task>, command: CommandId, receipt: Command)
    requires OneRepair(db, bag)
    ensures OneRepair(Receipted(db, command, receipt), bag)
  {
    KeptRepair(db, bag, Receipted(db, command, receipt));
  }

  lemma OperateRepair(config: Config, s: Schedule, command: CommandId, action: Action, role: Role, link: Link)
    requires config.Valid() && Inv(config, s) && OneRepair(s.db, Actions(s.tasks))
    ensures var after := Next(config, s, Operate(command, action, role, link)); OneRepair(after.db, Actions(after.tasks))
  {
    OperateNext(config, s, command, action, role, link);
    match ControlStatus(s.db, command, action, role, link)
    case None =>
    case Some(answer) =>
      if answer != StatusAccepted {
        ReceiptRepair(s.db, Actions(s.tasks), command, Command(action, role, answer));
      } else if !Awaits(action) {
        EffectRepair(config, s.db, s.tasks, command, action, role);
        ReceiptRepair(ControlEffect(s.db, command, action, role), Actions(Started(s.tasks, CommandTask(s.db, action))),
                      command, Command(action, role, answer));
      }
  }

  lemma PlanRepair(config: Config, db: Database, tasks: seq<seq<Task>>, x: Sending)
    requires config.Valid() && CoreInv(config, db, tasks) && OneRepair(db, Actions(tasks)) && x.role in db.roles
    requires Waking(x.plan) ==> !Halting(db.workflow)
    requires x.plan.Reopening? ==> db.workflow == Ready && x.plan.round == db.round + 1
    ensures OneRepair(PlanEffect(db, x.command, x.role, x.plan), Actions(Started(tasks, PlanTask(x.plan))))
  {
    match x.plan
    case Reopening(round) =>
      ReadyIdle(config, db);
      SettledNoRepair(config, db, Actions(tasks));
      OpenedRepair(config, db, Actions(tasks));
      ActionsStarted(tasks, PlanTask(x.plan));
    case Guiding(waking) =>
      ResumeAligned(db, x.command, x.role, waking);
      ResumeMoves(db, x.command, x.role, waking);
      AlignedRepair(db, Actions(tasks), Resume(db, x.command, x.role, waking));
    case Aborting =>
  }

  lemma SentRepair(config: Config, s: Schedule, i: nat)
    requires config.Valid() && Inv(config, s) && OneRepair(s.db, Actions(s.tasks))
    requires Quiet(s.sends) || (JustChecked(s) && i == |s.sends| - 1)
    ensures OneRepair(Next(config, s, Sent(i)).db, Actions(Next(config, s, Sent(i)).tasks))
  {
    if Writes(s, Sent(i)) {
      var x := s.sends[i];
      SentNext(config, s, i);
      PlanRepair(config, s.db, s.tasks, x);
      ReceiptRepair(PlanEffect(s.db, x.command, x.role, x.plan), Actions(Started(s.tasks, PlanTask(x.plan))),
                    x.command, Command(PlanAction(x.plan), x.role, StatusAccepted));
    }
  }

  lemma ProceedRepair(config: Config, s: Schedule, move: Move)
    requires config.Valid() && Inv(config, s) && OneRepair(s.db, Actions(s.tasks)) && move.Proceed? && !Untimely(s, move)
    ensures OneRepair(Next(config, s, move).db, Actions(Next(config, s, move).tasks))
  {
    if move.task < |s.tasks| {
      var a, rest := s.tasks[move.task][0], s.tasks[move.task][1..];
      ProceedNext(config, s, move);
      RestFollows(config, s.db, a, rest);
      HeadReplaced(s.tasks, move.task, Follow(config, s.db, a));
      TakenRepair(config, s.db, Actions(s.tasks), a, move.connected, move.id, move.delivery);
    }
  }

  lemma FailedRepair(config: Config, s: Schedule, i: nat)
    requires OneRepair(s.db, Actions(s.tasks)) && i < |s.tasks|
    ensures OneRepair(s.db, Actions(Replaced(s.tasks, i, []))) && OneRepair(SetWorkflow(s.db, Uncertain), Actions(Replaced(s.tasks, i, [])))
  {
    ActionsReplaced(s.tasks, i, []);
    Fewer(Actions(Replaced(s.tasks, i, [])), multiset(s.tasks[i]), Actions(s.tasks));
    SubRepair(s.db, Actions(s.tasks), Actions(Replaced(s.tasks, i, [])));
    KeptRepair(s.db, Actions(Replaced(s.tasks, i, [])), SetWorkflow(s.db, Uncertain));
  }

  lemma MoveRepair(config: Config, s: Schedule, move: Move)
    requires config.Valid() && Inv(config, s) && OneRepair(s.db, Actions(s.tasks)) && !Untimely(s, move)
    requires Quiet(s.sends) || (JustChecked(s) && SendNext(move, |s.sends| - 1))
    ensures OneRepair(Next(config, s, move).db, Actions(Next(config, s, move).tasks))
  {
    match move
    case Background(tx) => if !Routes(tx) { BackgroundRepair(config, s.db, Actions(s.tasks), tx); }
    case Begin(probe) => StartRepair(config, s, probe);
    case Submit(_, _, _, _, _, _) => SubmitRepair(config, s, move);
    case Operate(command, action, role, link) => OperateRepair(config, s, command, action, role, link);
    case Proceed(_, _, _, _) => ProceedRepair(config, s, move);
    case Sent(i) => SentRepair(config, s, i);
    case _ => InterruptRepair(config, s, move);
  }

  lemma FailRepair(config: Config, s: Schedule, i: nat)
    requires OneRepair(s.db, Actions(s.tasks))
    ensures OneRepair(Next(config, s, Fail(i)).db, Actions(Next(config, s, Fail(i)).tasks))
  {
    if i < |s.tasks| { FailedRepair(config, s, i); } else { KeptRepair(s.db, Actions(s.tasks), SetWorkflow(s.db, Uncertain)); }
  }

  lemma InterruptRepair(config: Config, s: Schedule, move: Move)
    requires OneRepair(s.db, Actions(s.tasks)) && (move.Fail? || move.Abandon? || move.Unsent? || move.Crash? || move.Reboot?)
    ensures OneRepair(Next(config, s, move).db, Actions(Next(config, s, move).tasks))
  {
    match move
    case Fail(i) => FailRepair(config, s, i);
    case Abandon(i) => if i < |s.tasks| { FailedRepair(config, s, i); }
    case _ =>
  }

  // ----- guidance that is written at once -----

  lemma StaysQuiet(config: Config, s: Schedule, move: Move)
    requires Quiet(s.sends) && !Wakes(s, move)
    ensures Quiet(Next(config, s, move).sends)
  {
  }

  lemma NowChecked(config: Config, s: Schedule, move: Move)
    requires Quiet(s.sends) && Wakes(s, move)
    ensures JustChecked(Next(config, s, move)) && |Next(config, s, move).sends| == |s.sends| + 1
  {
    OperateNext(config, s, move.command, move.action, move.role, move.link);
    var after := Next(config, s, move);
    assert after.sends[..|after.sends| - 1] == s.sends;
  }

  lemma ThenQuiet(config: Config, s: Schedule, move: Move)
    requires JustChecked(s) && SendNext(move, |s.sends| - 1)
    ensures Quiet(Next(config, s, move).sends)
  {
    assert Without(s.sends, |s.sends| - 1) == s.sends[..|s.sends| - 1];
  }

  // ----- prompt schedules -----

  ghost predicate ReviewPrompt(config: Config, moves: seq<Move>, k: nat)
    requires k <= |moves|
  {
    var s := Play(config, moves[..k]);
    NoReview(s.tasks) || (k > 0 && PassesCheck(config, Play(config, moves[..k - 1]), moves[k - 1]) && OneReview(s, moves[k - 1].task))
  }

  ghost predicate GuidancePrompt(config: Config, moves: seq<Move>, k: nat)
    requires k <= |moves|
  {
    var s := Play(config, moves[..k]);
    || Quiet(s.sends)
    || (k > 0 && Wakes(Play(config, moves[..k - 1]), moves[k - 1]) && JustChecked(s)
        && |s.sends| == |Play(config, moves[..k - 1]).sends| + 1)
  }

  ghost predicate Prompted(config: Config, moves: seq<Move>, k: nat)
    requires k <= |moves|
  {
    var s := Play(config, moves[..k]);
    ReviewPrompt(config, moves, k) && GuidancePrompt(config, moves, k) && OneRepair(s.db, Actions(s.tasks))
  }

  /** What waits was not given yet. */
  lemma PromptMove(config: Config, s: Schedule, i: nat, move: Move)
    requires config.Valid() && Inv(config, s) && OneRepair(s.db, Actions(s.tasks)) && (NoReview(s.tasks) || OneReview(s, i))
    requires Quiet(s.sends) || (JustChecked(s) && SendNext(move, |s.sends| - 1))
    ensures !Untimely(s, move) && !Regresses(s, move)
  {
    if move.Proceed? && move.task < |s.tasks| {
      var a := s.tasks[move.task][0];
      ActionsHold(s.tasks, move.task, 0);
      assert ActionOk(config, s.db, a);
      if !NoReview(s.tasks) && move.task != i { OtherTask(s.tasks, i, move.task); }
      if IsReview(a) { ReviewGiven(config, s.db, a.round); }
    }
  }

  lemma PromptStep(config: Config, moves: seq<Move>, k: nat)
    requires config.Valid() && Prompt(config, moves) && k < |moves| && Prompted(config, moves, k) && Timely(config, moves[..k])
    ensures !Untimely(Play(config, moves[..k]), moves[k]) && !Regresses(Play(config, moves[..k]), moves[k])
    ensures Prompted(config, moves, k + 1)
  {
    var s, move := Play(config, moves[..k]), moves[k];
    assert moves[..k + 1][..k] == moves[..k];
    assert Play(config, moves[..k + 1]) == Next(config, s, move);
    ScheduleInv(config, moves[..k]);
    PromptMove(config, s, if k > 0 && moves[k - 1].Proceed? then moves[k - 1].task else 0, move);
    MoveRepair(config, s, move);
    ReviewStep(config, moves, k);
    GuidanceStep(config, moves, k);
  }

  lemma ReviewStep(config: Config, moves: seq<Move>, k: nat)
    requires config.Valid() && Prompt(config, moves) && k < |moves| && ReviewPrompt(config, moves, k)
    ensures ReviewPrompt(config, moves, k + 1)
  {
    var s := Play(config, moves[..k]);
    assert moves[..k + 1][..k] == moves[..k];
    assert Play(config, moves[..k + 1]) == Next(config, s, moves[k]);
    if !NoReview(s.tasks) {
      OneReviewGone(config, s, moves[k - 1].task, moves[k]);
    } else if PassesCheck(config, s, moves[k]) {
      PassedOneReview(config, s, moves[k]);
    } else {
      MovesNoReview(config, s, moves[k]);
    }
  }

  lemma GuidanceStep(config: Config, moves: seq<Move>, k: nat)
    requires Prompt(config, moves) && k < |moves| && GuidancePrompt(config, moves, k)
    ensures GuidancePrompt(config, moves, k + 1)
  {
    var s := Play(config, moves[..k]);
    assert moves[..k + 1][..k] == moves[..k];
    assert Play(config, moves[..k + 1]) == Next(config, s, moves[k]);
    if !Quiet(s.sends) {
      ThenQuiet(config, s, moves[k]);
    } else if Wakes(s, moves[k]) {
      NowChecked(config, s, moves[k]);
    } else {
      StaysQuiet(config, s, moves[k]);
    }
  }

  lemma {:induction false} PromptState(config: Config, moves: seq<Move>, k: nat)
    requires config.Valid() && Prompt(config, moves) && k <= |moves|
    ensures Timely(config, moves[..k]) && Prompted(config, moves, k)
  {
    if k > 0 {
      PromptState(config, moves, k - 1);
      PromptStep(config, moves, k - 1);
      TimelyMore(config, moves[..k - 1], moves[k - 1]);
      assert moves[..k] == moves[..k - 1] + [moves[k - 1]];
    }
  }

  /** A schedule that never separates a check that passes from its assignment, nor
      waking guidance from its write, is timely, however its tasks and commands
      overlap otherwise. */
  lemma PromptIsTimely(config: Config, moves: seq<Move>)
    requires config.Valid() && Prompt(config, moves)
    ensures Timely(config, moves)
  {
    PromptState(config, moves, |moves|);
    assert moves[..|moves|] == moves;
  }
}
