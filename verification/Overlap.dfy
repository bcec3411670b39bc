/** A schedule whose routing tasks overlap, and what it breaks. */

module Overlap {
  import opened Options
  import opened Tables
  import opened Transactions
  import opened Runs
  import opened Monotone
  import opened Routing
  import opened Integrity
  import opened Workflows
  import opened Approval
  import opened Replay

  /** One specialist, decided to run; one provider call for the whole run. */
  const Small: Config := Config([Django], false, map[RunScope := 1], None)

  const Review1: Task := AssignTo(Reviewer, Review, 1)

  lemma SmallStarts()
    ensures var s := Next(Small, Next(Small, Next(Small, Schedule(InitialDatabase(Small), [], []), Reboot), Begin(false)), Proceed(0, true, 0, 0));
            && s.tasks == [[AssignTo(Implementer, Implementation, 1)]]
            && s.db == InitialDatabase(Small).(workflow := Active)
  {
    var db := InitialDatabase(Small);
    var booted := Next(Small, Schedule(db, [], []), Reboot);
    assert Interrupted(db) == {};
    assert booted == Schedule(db.(workflow := Connecting), [], []);
    var begun := Next(Small, booted, Begin(false));
    var task := StartTasks(Small, false);
    assert Probe !in Small.specialists;
    assert task == [SetActive, AssignTo(Implementer, Implementation, 1)];
    assert begun == Schedule(db.(workflow := Initializing), [task], []);
    assert task[1..] == [AssignTo(Implementer, Implementation, 1)];
  }

  /** The rows `db` shares with a run that has just started. */
  predicate Untouched(db: Database) {
    && db.workflow == Active && db.round == 1 && !db.paused && db.pending == None && db.cap == None
    && db.limits == Small.limits && db.admissions == map[] && db.commands == map[]
    && Reviewer in db.roles && db.roles[Reviewer] == RoleRow(Disconnected, false, None, 1)
    && Django in db.roles && db.roles[Django].generation == 1
  }

  lemma SmallImplements(db: Database)
    requires db == InitialDatabase(Small).(workflow := Active)
    ensures var s := Next(Small, Next(Small, Schedule(db, [[AssignTo(Implementer, Implementation, 1)]], []), Proceed(0, true, 1, 1)),
                          Submit(Implementer, 1, 1, Implementation, NoVerdict, {Django}));
            OneReport(s)
  {
    assert Implementer in Small.Roles() && Django in Small.Roles() && Reviewer in Small.Roles();
    var given := Next(Small, Schedule(db, [[AssignTo(Implementer, Implementation, 1)]], []), Proceed(0, true, 1, 1));
    assert given.db == Insert(db, Implementer, 1, NewAssignment(Implementer, Implementation, 1, 1));
    assert given.tasks == [];
  }

  lemma SmallSpecialist(s: Schedule)
    requires OneReport(s)
    ensures var last := Next(Small, Next(Small, Next(Small, s, Proceed(0, true, 0, 0)), Proceed(0, true, 2, 2)), Submit(Django, 1, 2, Specialist, NoVerdict, {}));
            TwoReports(last)
  {
    var db := s.db;
    assert NewlyRun(db, [Django], 1, {Django}) == [Django];
    var one := Next(Small, s, Proceed(0, true, 0, 0));
    assert AssignAll([Django], 1) + [ReviewCheck(1)] + [] == [AssignTo(Django, Specialist, 1), ReviewCheck(1)];
    assert one.tasks == [[AssignTo(Django, Specialist, 1), ReviewCheck(1)]];
    assert one.db.activations == map[(Django, 1) := true];
    assert one.db == db.(activations := map[(Django, 1) := true]);
    SpecialistReports(one);
  }

  lemma SpecialistReports(s: Schedule)
    requires s.tasks == [[AssignTo(Django, Specialist, 1), ReviewCheck(1)]] && Untouched(s.db)
    requires s.db.assignments.Keys == {1} && s.db.assignments[1].role == Implementer && s.db.assignments[1].delivery == 1
    requires s.db.reports == map[1 := Report(Implementer, 1, Implementation, NoVerdict)]
    requires s.db.activations == map[(Django, 1) := true]
    ensures TwoReports(Next(Small, Next(Small, s, Proceed(0, true, 2, 2)), Submit(Django, 1, 2, Specialist, NoVerdict, {})))
  {
    SpecialistGiven(s);
    var two := Next(Small, s, Proceed(0, true, 2, 2));
    assert Reportable(two.db, Django, 2, Specialist);
  }

  lemma SpecialistGiven(s: Schedule)
    requires s.tasks == [[AssignTo(Django, Specialist, 1), ReviewCheck(1)]] && Untouched(s.db)
    requires s.db.assignments.Keys == {1} && s.db.assignments[1].role == Implementer && s.db.assignments[1].delivery == 1
    ensures Next(Small, s, Proceed(0, true, 2, 2))
            == Schedule(Insert(s.db, Django, 2, NewAssignment(Django, Specialist, 1, 2)), [[ReviewCheck(1)]], s.sends)
  {
    ProceedNext(Small, s, Proceed(0, true, 2, 2));
    assert Assign(s.db, Django, Specialist, 1, 2, 2) == Insert(s.db, Django, 2, NewAssignment(Django, Specialist, 1, 2));
  }

  /** The rows once the specialist has reported too. */
  predicate TwoReports(s: Schedule) {
    && s.tasks == [[ReviewCheck(1)], [ReviewCheck(1)]] && Untouched(s.db)
    && s.db.assignments.Keys == {1, 2}
    && s.db.assignments[1].role == Implementer && s.db.assignments[2].role == Django
    && s.db.assignments[1].delivery == 1 && s.db.assignments[2].delivery == 2
    && s.db.reports == map[1 := Report(Implementer, 1, Implementation, NoVerdict), 2 := Report(Django, 1, Specialist, NoVerdict)]
    && s.db.activations == map[(Django, 1) := true]
  }

  lemma SmallDue(db: Database)
    requires db.assignments.Keys == {1, 2}
    requires db.assignments[1].role == Implementer && db.assignments[2].role == Django
    requires db.assignments[1].delivery == 1 && db.assignments[2].delivery == 2
    requires db.reports == map[1 := Report(Implementer, 1, Implementation, NoVerdict), 2 := Report(Django, 1, Specialist, NoVerdict)]
    requires db.activations == map[(Django, 1) := true]
    requires Reviewer in db.roles
    ensures ReviewDue(Small, db, 1)
  {
    assert db.reports[1].role == Implementer && db.reports[2].role == Django;
    assert RoleReported(db, Django, 1);
  }

  function Begun(): seq<Move> {
    [] + [Reboot] + [Begin(false)] + [Proceed(0, true, 0, 0)]
  }

  function Implemented(): seq<Move> {
    Begun() + [Proceed(0, true, 1, 1)] + [Submit(Implementer, 1, 1, Implementation, NoVerdict, {Django})]
  }

  /** The implementation and the specialist's report; two review checks follow. */
  function Before(): seq<Move> {
    Implemented() + [Proceed(0, true, 0, 0)] + [Proceed(0, true, 2, 2)] + [Submit(Django, 1, 2, Specialist, NoVerdict, {})]
  }

  lemma BegunPlays()
    ensures Play(Small, Begun()) == Schedule(InitialDatabase(Small).(workflow := Active), [[AssignTo(Implementer, Implementation, 1)]], [])
  {
    PlayNext(Small, [], Reboot);
    PlayNext(Small, [] + [Reboot], Begin(false));
    PlayNext(Small, [] + [Reboot] + [Begin(false)], Proceed(0, true, 0, 0));
    SmallStarts();
  }

  /** The rows once the implementation was reported. */
  predicate OneReport(s: Schedule) {
    && s.tasks == [[ActivateRound(1, {Django})]] && Untouched(s.db)
    && s.db.assignments.Keys == {1} && s.db.assignments[1].role == Implementer && s.db.assignments[1].delivery == 1
    && s.db.reports == map[1 := Report(Implementer, 1, Implementation, NoVerdict)]
    && s.db.activations == map[]
  }

  lemma ImplementedPlays()
    ensures OneReport(Play(Small, Implemented()))
  {
    var given := Proceed(0, true, 1, 1);
    BegunPlays();
    PlayNext(Small, Begun(), given);
    PlayNext(Small, Begun() + [given], Submit(Implementer, 1, 1, Implementation, NoVerdict, {Django}));
    SmallImplements(InitialDatabase(Small).(workflow := Active));
  }

  lemma BothChecksReached()
    ensures var s := Play(Small, Before());
            && s.tasks == [[ReviewCheck(1)], [ReviewCheck(1)]] && ReviewDue(Small, s.db, 1) && Untouched(s.db)
            && s.db.assignments.Keys == {1, 2} && s.db.assignments[1].delivery == 1 && s.db.assignments[2].delivery == 2
            && s.db.reports.Keys == {1, 2}
  {
    var m := Implemented();
    ImplementedPlays();
    PlayNext(Small, m, Proceed(0, true, 0, 0));
    PlayNext(Small, m + [Proceed(0, true, 0, 0)], Proceed(0, true, 2, 2));
    PlayNext(Small, m + [Proceed(0, true, 0, 0)] + [Proceed(0, true, 2, 2)], Submit(Django, 1, 2, Specialist, NoVerdict, {}));
    SmallSpecialist(Play(Small, m));
    SmallDue(Play(Small, Before()).db);
  }

  /** Both checks pass, and the first review is stored. */
  function First(): seq<Move> {
    Before() + [Proceed(0, true, 0, 0)] + [Proceed(1, true, 0, 0)] + [Proceed(0, true, 3, 3)]
  }

  /** The first review is stored, and another one is still to be. */
  predicate FirstStored(s: Schedule) {
    && s.tasks == [[Review1]]
    && s.db.assignments.Keys == {1, 2, 3} && s.db.assignments[3] == NewAssignment(Reviewer, Review, 1, 3)
    && s.db.assignments[1].delivery == 1 && s.db.assignments[2].delivery == 2
    && s.db.reports.Keys == {1, 2}
    && s.db.workflow == Active && s.db.round == 1 && !s.db.paused && s.db.pending == None && s.db.cap == None
    && s.db.limits == map[RunScope := 1] && s.db.admissions == map[]
    && Reviewer in s.db.roles && s.db.roles[Reviewer] == RoleRow(Working, false, Some(3), 1)
  }

  lemma ChecksPass(s: Schedule)
    requires s.tasks == [[ReviewCheck(1)], [ReviewCheck(1)]] && ReviewDue(Small, s.db, 1)
    ensures Next(Small, Next(Small, s, Proceed(0, true, 0, 0)), Proceed(1, true, 0, 0)) == Schedule(s.db, [[Review1], [Review1]], s.sends)
  {
    assert [Review1] + [] == [Review1];
    var one := Next(Small, s, Proceed(0, true, 0, 0));
    assert one == Schedule(s.db, [[Review1], [ReviewCheck(1)]], s.sends);
    var two := Next(Small, one, Proceed(1, true, 0, 0));
    assert two.tasks == [[Review1], [Review1]];
  }

  lemma FirstReached()
    ensures FirstStored(Play(Small, First()))
  {
    var m := Before();
    var s := Play(Small, m);
    BothChecksReached();
    PlayNext(Small, m, Proceed(0, true, 0, 0));
    PlayNext(Small, m + [Proceed(0, true, 0, 0)], Proceed(1, true, 0, 0));
    PlayNext(Small, m + [Proceed(0, true, 0, 0)] + [Proceed(1, true, 0, 0)], Proceed(0, true, 3, 3));
    ChecksPass(s);
    ReviewStored(Schedule(s.db, [[Review1], [Review1]], s.sends), 3);
    assert Replaced([[Review1], [Review1]], 0, []) == [[Review1]];
  }

  lemma ReviewStored(s: Schedule, id: AssignmentId)
    requires s.tasks != [] && s.tasks[0] == [Review1] && Assignable(s.db, Reviewer, id, id)
    ensures Next(Small, s, Proceed(0, true, id, id))
            == Schedule(Insert(s.db, Reviewer, id, NewAssignment(Reviewer, Review, 1, id)), Replaced(s.tasks, 0, []), s.sends)
  {
    ProceedNext(Small, s, Proceed(0, true, id, id));
  }

  /** One round can get two reviews: the check and the insert are separate
      transactions. */
  lemma OverlapAssignsTwoReviews()
    ensures exists moves, a, b ::
      var db := Play(Small, moves).db;
      && a in db.assignments && b in db.assignments && a != b
      && db.assignments[a].role == Reviewer && db.assignments[b].role == Reviewer
      && db.assignments[a].round == db.assignments[b].round
  {
    var s := Play(Small, First());
    FirstReached();
    PlayNext(Small, First(), Proceed(0, true, 4, 4));
    ReviewStored(s, 4);
    var db := Play(Small, First() + [Proceed(0, true, 4, 4)]).db;
    assert db.assignments[3].role == Reviewer && db.assignments[4].role == Reviewer && 3 in db.assignments && 4 in db.assignments;
  }

  /** The first review approves before the second is stored; then the run is
      marked ready. */
  function Approving(): seq<Move> {
    First() + [Submit(Reviewer, 1, 3, Review, Approved, {})] + [Proceed(0, true, 4, 4)] + [Proceed(0, true, 0, 0)]
  }

  /** Ready, with a reviewer still at work and one provider call left. */
  predicate ReadyAtWork(db: Database) {
    && db.workflow == Ready && !db.paused
    && Reviewer in db.roles && db.roles[Reviewer] == RoleRow(Working, false, Some(4), 1)
    && 4 in db.assignments && db.assignments[4] == NewAssignment(Reviewer, Review, 1, 4)
    && db.limits == map[RunScope := 1] && db.admissions == map[]
  }

  lemma FirstApproves(s: Schedule)
    requires FirstStored(s)
    ensures var next := Next(Small, s, Submit(Reviewer, 1, 3, Review, Approved, {}));
            && next.tasks == [[Review1], [ApproveRun]]
            && next.db == Completing(s.db, Reviewer, 3, Review, Approved)
  {
    assert Reportable(s.db, Reviewer, 3, Review);
  }

  lemma ApprovingReached()
    ensures ReadyAtWork(Play(Small, Approving()).db)
  {
    var s := Play(Small, First());
    FirstReached();
    var submit := Submit(Reviewer, 1, 3, Review, Approved, {});
    PlayNext(Small, First(), submit);
    PlayNext(Small, First() + [submit], Proceed(0, true, 4, 4));
    PlayNext(Small, First() + [submit] + [Proceed(0, true, 4, 4)], Proceed(0, true, 0, 0));
    FirstApproves(s);
    var approved := Next(Small, s, submit);
    ReviewStored(approved, 4);
    var again := Next(Small, approved, Proceed(0, true, 4, 4));
    assert again.tasks == [[ApproveRun]];
    ProceedNext(Small, again, Proceed(0, true, 0, 0));
    assert Play(Small, Approving()).db == Approve(again.db);
  }

  /** A run can be ready while a reviewer is at work. */
  lemma OverlapReadyAtWork()
    ensures exists moves, role, id ::
      var db := Play(Small, moves).db;
      && db.workflow == Ready && role in db.roles && db.roles[role].active == Some(id)
      && id in db.assignments && db.assignments[id].state != Completed
  {
    ApprovingReached();
    var db := Play(Small, Approving()).db;
    assert Reviewer in db.roles && db.roles[Reviewer].active == Some(4) && 4 in db.assignments;
  }

  function Call(request: RequestId): Move {
    Background(TxFrame(Reviewer, 1, ProviderTurnFrame(4, None, request)))
  }

  lemma OneCall(db: Database)
    requires ReadyAtWork(db)
    ensures ProviderTurn(db, Reviewer, 1, 4, None, 1)
            == db.(admissions := map[1 := Admission(Reviewer, 4, 1, None, true)])
  {
    assert GrantedIn(db.admissions, RunScope, Reviewer, 4) == {};
    assert Owns(db, Reviewer, 1, 4, None);
    assert RunScope in db.limits;
    assert UnderCeilings(db, Reviewer, 4);
    assert db.admissions[1 := Admission(Reviewer, 4, 1, None, true)] == map[1 := Admission(Reviewer, 4, 1, None, true)];
  }

  lemma SecondCall(db: Database)
    requires ReadyAtWork(db.(admissions := map[])) && db.admissions == map[1 := Admission(Reviewer, 4, 1, None, true)]
    ensures var after := ProviderTurn(db, Reviewer, 1, 4, None, 2); after.paused && after.workflow == Ready
  {
    assert GrantedIn(db.admissions, RunScope, Reviewer, 4) == {1};
    assert Owns(db, Reviewer, 1, 4, None);
    assert !UnderCeilings(db, Reviewer, 4) by { assert RunScope in db.limits; }
  }

  lemma TwoCalls(s: Schedule)
    requires ReadyAtWork(s.db)
    ensures var after := Next(Small, Next(Small, s, Call(1)), Call(2)).db; after.paused && after.workflow == Ready
  {
    OneCall(s.db);
    SecondCall(s.db.(admissions := map[1 := Admission(Reviewer, 4, 1, None, true)]));
  }

  /** A run can be ready while its provider calls are paused. */
  lemma OverlapReadyPaused()
    ensures exists moves :: Play(Small, moves).db.workflow == Ready && Play(Small, moves).db.paused
  {
    ApprovingReached();
    var m := Approving();
    var db := Play(Small, m).db;
    PlayNext(Small, m, Call(1));
    PlayNext(Small, m + [Call(1)], Call(2));
    TwoCalls(Play(Small, m));
    assert Play(Small, m + [Call(1)] + [Call(2)]).db.paused;
  }
}
