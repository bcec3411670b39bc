/** Guidance that is written late: it was checked on a ready run and overtaken by
    other guidance while it was being sent. What it then breaks. */

module Stale {
  import opened Options
  import opened Tables
  import opened Transactions
  import opened Runs
  import opened Routing
  import opened Integrity
  import opened Workflows
  import opened Repair
  import opened Approval
  import opened Replay
  import opened Progress

  /** An implementer and a reviewer, and nobody else. */
  function Pair(cap: Option<nat>): Config {
    Config([], false, map[], cap)
  }

  function Implement(round: nat): Task {
    AssignTo(Implementer, Implementation, round)
  }

  // ----- one round of such a run -----

  /** Every row is older than `n`, and the round has no review. */
  predicate Older(db: Database, n: nat) {
    && (forall id :: id in db.assignments ==>
          && id < n && db.assignments[id].delivery < n
          && (db.assignments[id].role == Reviewer ==> db.assignments[id].round < db.round))
    && (forall id :: id in db.reports ==> id < n)
    && db.roles.Keys == {Implementer, Reviewer}
    && db.roles[Implementer].generation == 1 && db.roles[Reviewer].generation == 1
    && !db.paused && db.pending == None && db.workflow == Active && (db.round > 1 ==> db.cap == None)
  }

  function Handed(db: Database, n: nat): Database
    requires Older(db, n)
  {
    Insert(db, Implementer, n, NewAssignment(Implementer, Implementation, db.round, n))
  }

  function Built(db: Database, n: nat): Database
    requires Older(db, n)
  {
    Completing(Handed(db, n), Implementer, n, Implementation, NoVerdict)
  }

  function Shown(db: Database, n: nat): Database
    requires Older(db, n)
  {
    Insert(Built(db, n), Reviewer, n + 1, NewAssignment(Reviewer, Review, db.round, n + 1))
  }

  function Judged(db: Database, n: nat, verdict: Verdict): Database
    requires Older(db, n)
  {
    Completing(Shown(db, n), Reviewer, n + 1, Review, verdict)
  }

  function Ended(db: Database, n: nat, verdict: Verdict): Database
    requires Older(db, n)
  {
    if verdict == Approved then Approve(Judged(db, n, verdict)) else Advance(Judged(db, n, verdict), db.round + 1)
  }

  function Build(moves: seq<Move>, n: nat): seq<Move> {
    moves + [Proceed(0, true, n, n)] + [Submit(Implementer, 1, n, Implementation, NoVerdict, {})]
  }

  function Show(moves: seq<Move>, n: nat): seq<Move> {
    moves + [Proceed(0, true, 0, 0)] + [Proceed(0, true, 0, 0)] + [Proceed(0, true, n + 1, n + 1)]
  }

  function Judge(moves: seq<Move>, n: nat, verdict: Verdict): seq<Move> {
    moves + [Submit(Reviewer, 1, n + 1, Review, verdict, {})] + [Proceed(0, true, 0, 0)]
  }

  lemma HeadNext(config: Config, s: Schedule, id: nat, after: Database, follow: seq<Task>)
    requires |s.tasks| == 1 && s.tasks[0] != []
    requires after == TaskDatabase(config, s.db, s.tasks[0][0], true, id, id) && follow == TaskRest(config, s.db, s.tasks[0][0], s.tasks[0][1..])
    ensures Next(config, s, Proceed(0, true, id, id)) == Schedule(after, if follow == [] then [] else [follow], s.sends)
  {
    ProceedNext(config, s, Proceed(0, true, id, id));
  }

  lemma HandedNext(config: Config, s: Schedule, n: nat)
    requires Older(s.db, n) && s.tasks == [[Implement(s.db.round)]]
    ensures Next(config, s, Proceed(0, true, n, n)) == Schedule(Handed(s.db, n), [], s.sends)
  {
    assert !RepairLimitReached(s.db, Implementer, Implementation, s.db.round);
    assert FreshDelivery(s.db, n) && n !in s.db.assignments;
    assert Assign(s.db, Implementer, Implementation, s.db.round, n, n) == Handed(s.db, n);
    HeadNext(config, s, n, Handed(s.db, n), []);
  }

  lemma BuiltNext(config: Config, s: Schedule, db: Database, n: nat)
    requires Older(db, n) && s.db == Handed(db, n) && s.tasks == []
    ensures Next(config, s, Submit(Implementer, 1, n, Implementation, NoVerdict, {})) == Schedule(Built(db, n), [[ActivateRound(db.round, {})]], s.sends)
  {
    assert Reportable(s.db, Implementer, n, Implementation);
  }

  lemma BuildPlays(config: Config, moves: seq<Move>, n: nat)
    requires var s := Play(config, moves); Older(s.db, n) && s.tasks == [[Implement(s.db.round)]]
    ensures var s := Play(config, moves);
            Play(config, Build(moves, n)) == Schedule(Built(s.db, n), [[ActivateRound(s.db.round, {})]], s.sends)
  {
    var s := Play(config, moves);
    PlayNext(config, moves, Proceed(0, true, n, n));
    HandedNext(config, s, n);
    PlayNext(config, moves + [Proceed(0, true, n, n)], Submit(Implementer, 1, n, Implementation, NoVerdict, {}));
    BuiltNext(config, Schedule(Handed(s.db, n), [], s.sends), s.db, n);
  }

  lemma ActivatedNext(cap: Option<nat>, s: Schedule)
    requires s.tasks == [[ActivateRound(s.db.round, {})]]
    ensures Next(Pair(cap), s, Proceed(0, true, 0, 0)) == Schedule(s.db, [[ReviewCheck(s.db.round)]], s.sends)
  {
    assert Activate(s.db, [], s.db.round, {}).activations == s.db.activations;
    assert AssignAll([], s.db.round) + [ReviewCheck(s.db.round)] + [] == [ReviewCheck(s.db.round)];
    HeadNext(Pair(cap), s, 0, s.db, [ReviewCheck(s.db.round)]);
  }

  lemma CheckedNext(cap: Option<nat>, s: Schedule, db: Database, n: nat)
    requires Older(db, n) && s.db == Built(db, n) && s.tasks == [[ReviewCheck(db.round)]]
    ensures Next(Pair(cap), s, Proceed(0, true, 0, 0)) == Schedule(s.db, [[AssignTo(Reviewer, Review, db.round)]], s.sends)
  {
    assert n in s.db.reports && s.db.reports[n] == Report(Implementer, db.round, Implementation, NoVerdict);
    assert ReviewDue(Pair(cap), s.db, db.round);
    HeadNext(Pair(cap), s, 0, s.db, [AssignTo(Reviewer, Review, db.round)]);
  }

  lemma ShownNext(config: Config, s: Schedule, db: Database, n: nat)
    requires Older(db, n) && s.db == Built(db, n) && s.tasks == [[AssignTo(Reviewer, Review, db.round)]]
    ensures Next(config, s, Proceed(0, true, n + 1, n + 1)) == Schedule(Shown(db, n), [], s.sends)
  {
    assert FreshDelivery(s.db, n + 1) && n + 1 !in s.db.assignments;
    HeadNext(config, s, n + 1, Shown(db, n), []);
  }

  function Turned(db: Database, n: nat, verdict: Verdict, sends: seq<Sending>): Schedule
    requires Older(db, n)
  {
    Schedule(Ended(db, n, verdict), if verdict == Approved then [] else [[Implement(db.round + 1)]], sends)
  }

  function Decision(db: Database, verdict: Verdict): Task {
    if verdict == Approved then ApproveRun else AdvanceTo(db.round + 1)
  }

  lemma JudgedNext(config: Config, s: Schedule, db: Database, n: nat, verdict: Verdict)
    requires Older(db, n) && s.db == Shown(db, n) && s.tasks == []
    ensures Next(config, s, Submit(Reviewer, 1, n + 1, Review, verdict, {}))
            == Schedule(Judged(db, n, verdict), [[Decision(db, verdict)]], s.sends)
  {
    ShownReports(s.db, db, n);
    assert AcceptReport(s.db, Reviewer, 1, n + 1, Review, verdict) == Completing(s.db, Reviewer, n + 1, Review, verdict);
  }

  lemma ShownReports(shown: Database, db: Database, n: nat)
    requires Older(db, n) && shown == Shown(db, n)
    ensures Reviewer in shown.roles && shown.roles[Reviewer].generation == 1 && Reportable(shown, Reviewer, n + 1, Review)
    ensures shown.assignments[n + 1].round == db.round
  {
  }

  lemma EndedNext(config: Config, db: Database, n: nat, verdict: Verdict, sends: seq<Sending>)
    requires Older(db, n)
    ensures Next(config, Schedule(Judged(db, n, verdict), [[Decision(db, verdict)]], sends), Proceed(0, true, 0, 0)) == Turned(db, n, verdict, sends)
  {
    var s := Schedule(Judged(db, n, verdict), [[Decision(db, verdict)]], sends);
    if verdict == Approved {
      HeadNext(config, s, 0, Ended(db, n, verdict), []);
    } else {
      assert [Implement(db.round + 1)] + [] == [Implement(db.round + 1)];
      HeadNext(config, s, 0, Ended(db, n, verdict), [Implement(db.round + 1)]);
    }
  }

  lemma JudgedPlays(config: Config, moves: seq<Move>, db: Database, n: nat, verdict: Verdict, sends: seq<Sending>, told: seq<Move>)
    requires Older(db, n) && Play(config, moves) == Schedule(Shown(db, n), [], sends)
    requires told == moves + [Submit(Reviewer, 1, n + 1, Review, verdict, {})]
    ensures Play(config, told) == Schedule(Judged(db, n, verdict), [[Decision(db, verdict)]], sends)
  {
    PlayNext(config, moves, Submit(Reviewer, 1, n + 1, Review, verdict, {}));
    JudgedNext(config, Play(config, moves), db, n, verdict);
  }

  lemma EndedPlays(config: Config, moves: seq<Move>, db: Database, n: nat, verdict: Verdict, sends: seq<Sending>, all: seq<Move>)
    requires Older(db, n) && Play(config, moves) == Schedule(Judged(db, n, verdict), [[Decision(db, verdict)]], sends)
    requires all == moves + [Proceed(0, true, 0, 0)]
    ensures Play(config, all) == Turned(db, n, verdict, sends)
  {
    PlayNext(config, moves, Proceed(0, true, 0, 0));
    EndedNext(config, db, n, verdict, sends);
  }

  lemma ShownPlays(cap: Option<nat>, moves: seq<Move>, db: Database, n: nat, sends: seq<Sending>)
    requires Older(db, n) && Play(Pair(cap), moves) == Schedule(Built(db, n), [[ActivateRound(db.round, {})]], sends)
    ensures Play(Pair(cap), Show(moves, n)) == Schedule(Shown(db, n), [], sends)
  {
    var config, go := Pair(cap), Proceed(0, true, 0, 0);
    CheckedPlays(cap, moves, db, n, sends);
    PlayNext(config, moves + [go] + [go], Proceed(0, true, n + 1, n + 1));
    ShownNext(config, Play(config, moves + [go] + [go]), db, n);
  }

  lemma CheckedPlays(cap: Option<nat>, moves: seq<Move>, db: Database, n: nat, sends: seq<Sending>)
    requires Older(db, n) && Play(Pair(cap), moves) == Schedule(Built(db, n), [[ActivateRound(db.round, {})]], sends)
    ensures Play(Pair(cap), moves + [Proceed(0, true, 0, 0)] + [Proceed(0, true, 0, 0)])
            == Schedule(Built(db, n), [[AssignTo(Reviewer, Review, db.round)]], sends)
  {
    var config, go := Pair(cap), Proceed(0, true, 0, 0);
    PlayNext(config, moves, go);
    ActivatedNext(cap, Play(config, moves));
    PlayNext(config, moves + [go], go);
    CheckedNext(cap, Play(config, moves + [go]), db, n);
  }

  function Turn(moves: seq<Move>, n: nat, verdict: Verdict): seq<Move> {
    Judge(Show(Build(moves, n), n), n, verdict)
  }

  /** A whole round. */
  lemma TurnPlays(cap: Option<nat>, moves: seq<Move>, db: Database, n: nat, verdict: Verdict, sends: seq<Sending>)
    requires Older(db, n) && Play(Pair(cap), moves) == Schedule(db, [[Implement(db.round)]], sends)
    ensures Play(Pair(cap), Turn(moves, n, verdict)) == Turned(db, n, verdict, sends)
  {
    BuildPlays(Pair(cap), moves, n);
    var shown := Show(Build(moves, n), n);
    var told := shown + [Submit(Reviewer, 1, n + 1, Review, verdict, {})];
    ShownPlays(cap, Build(moves, n), db, n, sends);
    JudgedPlays(Pair(cap), shown, db, n, verdict, sends, told);
    EndedPlays(Pair(cap), told, db, n, verdict, sends, Turn(moves, n, verdict));
  }

  // ----- the first round, approved -----

  function Started1(): seq<Move> {
    [] + [Reboot] + [Begin(false)] + [Proceed(0, true, 0, 0)]
  }

  lemma StartPlays(cap: Option<nat>)
    ensures Play(Pair(cap), Started1()) == Schedule(InitialDatabase(Pair(cap)).(workflow := Active), [[Implement(1)]], [])
  {
    var config := Pair(cap);
    var db := InitialDatabase(config);
    PlayNext(config, [], Reboot);
    assert Interrupted(db) == {};
    assert Play(config, [] + [Reboot]) == Schedule(db.(workflow := Connecting), [], []);
    PlayNext(config, [] + [Reboot], Begin(false));
    assert StartTasks(config, false) == [SetActive, Implement(1)];
    var begun := Schedule(db.(workflow := Initializing), [[SetActive, Implement(1)]], []);
    assert Play(config, [] + [Reboot] + [Begin(false)]) == begun;
    PlayNext(config, [] + [Reboot] + [Begin(false)], Proceed(0, true, 0, 0));
    HeadNext(config, begun, 0, db.(workflow := Active), [Implement(1)]);
  }

  function Approved1(): seq<Move> {
    Turn(Started1(), 1, Approved)
  }

  /** What is left of an approved first round. */
  predicate ReadyFirst(db: Database, cap: Option<nat>) {
    && db.workflow == Ready && db.round == 1 && !db.paused && db.pending == None && db.cap == cap && db.commands == map[]
    && db.roles == map[Implementer := RoleRow(Idle, false, None, 1), Reviewer := RoleRow(Idle, false, None, 1)]
    && db.assignments.Keys == {1, 2} && db.reports.Keys == {1, 2}
    && db.assignments[1].role == Implementer && db.assignments[1].round == 1 && db.assignments[1].delivery == 1
    && db.assignments[2].role == Reviewer && db.assignments[2].round == 1 && db.assignments[2].delivery == 2
  }

  lemma ApprovedPlays(cap: Option<nat>)
    ensures var s := Play(Pair(cap), Approved1()); ReadyFirst(s.db, cap) && s.tasks == [] && s.sends == []
  {
    StartPlays(cap);
    EndedFirst(cap);
    TurnPlays(cap, Started1(), InitialDatabase(Pair(cap)).(workflow := Active), 1, Approved, []);
  }

  lemma EndedFirst(cap: Option<nat>)
    ensures var db := InitialDatabase(Pair(cap)).(workflow := Active); Older(db, 1) && ReadyFirst(Ended(db, 1, Approved), cap)
  {
    var db := InitialDatabase(Pair(cap)).(workflow := Active);
    assert db.roles.Keys == {Implementer, Reviewer};
    assert db.roles == map[Implementer := RoleRow(Disconnected, false, None, 1), Reviewer := RoleRow(Disconnected, false, None, 1)];
  }

  // ----- two operators, one ready run -----

  const Linked: Link := Link(true, true, true)

  function Told(command: CommandId): Move {
    Operate(command, Send, Implementer, Linked)
  }

  /** Both are checked on the ready run. */
  function Both(): seq<Move> {
    Approved1() + [Told(1)] + [Told(2)]
  }

  function Late(command: CommandId): Sending {
    Sending(command, Implementer, Reopening(2))
  }

  lemma BothPlay(cap: Option<nat>)
    ensures var s := Play(Pair(cap), Both()); ReadyFirst(s.db, cap) && s.tasks == [] && s.sends == [Late(1), Late(2)]
  {
    ApprovedPlays(cap);
    var s := Play(Pair(cap), Approved1());
    PlayNext(Pair(cap), Approved1(), Told(1));
    OperateNext(Pair(cap), s, 1, Send, Implementer, Linked);
    PlayNext(Pair(cap), Approved1() + [Told(1)], Told(2));
    OperateNext(Pair(cap), Schedule(s.db, [], [Late(1)]), 2, Send, Implementer, Linked);
  }

  /** The first is written, and opens the second round. */
  function One(): seq<Move> {
    Both() + [Sent(0)]
  }

  predicate SecondOpen(db: Database, cap: Option<nat>, written: set<CommandId>) {
    ReadyFirst(db.(workflow := Ready, round := 1, commands := map[]), cap) && db.workflow == Active && db.round == 2 && db.commands.Keys == written
  }

  lemma OnePlays(cap: Option<nat>)
    ensures var s := Play(Pair(cap), One()); SecondOpen(s.db, cap, {1}) && s.tasks == [[Implement(2)]] && s.sends == [Late(2)]
  {
    BothPlay(cap);
    PlayNext(Pair(cap), Both(), Sent(0));
    SentNext(Pair(cap), Play(Pair(cap), Both()), 0);
  }

  /** Then the second, which opens it again. */
  function Two(): seq<Move> {
    One() + [Sent(0)]
  }

  lemma TwoPlay(cap: Option<nat>)
    ensures var s := Play(Pair(cap), Two()); SecondOpen(s.db, cap, {1, 2}) && s.tasks == [[Implement(2)], [Implement(2)]] && s.sends == []
  {
    OnePlays(cap);
    PlayNext(Pair(cap), One(), Sent(0));
    SentNext(Pair(cap), Play(Pair(cap), One()), 0);
  }

  /** The implementer is given the second round twice. */
  function Orphaned(): seq<Move> {
    Two() + [Proceed(0, true, 3, 3)]
  }

  lemma SecondOlder(db: Database, written: set<CommandId>)
    requires SecondOpen(db, None, written)
    ensures Older(db, 3)
  {
  }

  lemma HandedOlder(db: Database, n: nat)
    requires Older(db, n)
    ensures var after := Handed(db, n); Older(after, n + 1) && n in after.assignments && after.assignments[n].state == Delivering
  {
  }

  lemma OrphanPlays()
    ensures var before := Play(Pair(None), Two()).db;
            && Older(before, 3) && before.round == 2 && Play(Pair(None), Orphaned()) == Schedule(Handed(before, 3), [[Implement(2)]], [])
            && Older(Handed(before, 3), 4) && 3 in Handed(before, 3).assignments && Handed(before, 3).assignments[3].state == Delivering
  {
    TwoPlay(None);
    var s := Play(Pair(None), Two());
    SecondOlder(s.db, {1, 2});
    HandedOlder(s.db, 3);
    PlayNext(Pair(None), Two(), Proceed(0, true, 3, 3));
    HandedFirst(s, 3);
  }

  /** The first of two tasks hands the round over. */
  lemma HandedFirst(s: Schedule, n: nat)
    requires Older(s.db, n) && s.db.round == 2 && s.tasks == [[Implement(2)], [Implement(2)]]
    ensures Next(Pair(None), s, Proceed(0, true, n, n)) == Schedule(Handed(s.db, n), [[Implement(2)]], s.sends)
  {
    ProceedNext(Pair(None), s, Proceed(0, true, n, n));
    assert !RepairLimitReached(s.db, Implementer, Implementation, 2);
    assert FreshDelivery(s.db, n) && n !in s.db.assignments;
    assert Assign(s.db, Implementer, Implementation, 2, n, n) == Handed(s.db, n);
  }

  /** Two operators who send to one ready run leave two open assignments of the
      implementer in one round. */
  lemma TwoSendsTwoAssignments()
    ensures exists moves, a, b ::
      var db := Play(Pair(None), moves).db;
      && a in db.assignments && b in db.assignments && a != b
      && db.assignments[a].role == Implementer && db.assignments[b].role == Implementer
      && db.assignments[a].round == db.assignments[b].round
      && db.assignments[a].state != Completed && db.assignments[b].state != Completed
  {
    OrphanPlays();
    var s := Play(Pair(None), Orphaned());
    PlayNext(Pair(None), Orphaned(), Proceed(0, true, 4, 4));
    HandedNext(Pair(None), s, 4);
    BothOpen(Play(Pair(None), Two()).db);
    var db := Play(Pair(None), Orphaned() + [Proceed(0, true, 4, 4)]).db;
    assert 3 in db.assignments && 4 in db.assignments;
  }

  lemma BothOpen(db: Database)
    requires Older(db, 3) && Older(Handed(db, 3), 4)
    ensures var after := Handed(Handed(db, 3), 4).assignments;
            && 3 in after && after[3] == NewAssignment(Implementer, Implementation, db.round, 3)
            && 4 in after && after[4] == NewAssignment(Implementer, Implementation, db.round, 4)
  {
  }

  /** The one that its role no longer points at stays open when the other is
      reviewed and the run is ready again. */
  lemma TwoSendsReadyAtWork()
    ensures exists moves, id ::
      var db := Play(Pair(None), moves).db;
      db.workflow == Ready && id in db.assignments && db.assignments[id].state != Completed
  {
    OrphanPlays();
    var db := Play(Pair(None), Orphaned()).db;
    TurnPlays(None, Orphaned(), db, 4, Approved, []);
    OrphanStays(db, 4);
    assert 3 in Play(Pair(None), Turn(Orphaned(), 4, Approved)).db.assignments;
  }

  lemma OrphanStays(db: Database, n: nat)
    requires Older(db, n)
    ensures var after := Ended(db, n, Approved);
            after.workflow == Ready && forall id :: id in db.assignments ==> id in after.assignments && after.assignments[id] == db.assignments[id]
  {
  }

  // ----- a round that comes back -----

  /** The second round ends while the second command is still being sent; then it
      is written. */
  lemma LateSendGoesBack()
    ensures exists moves :: Regresses(Play(Pair(None), moves), Sent(0)) && Play(Pair(None), moves).db.workflow == Active
  {
    OnePlays(None);
    var db := Play(Pair(None), One()).db;
    SecondOlder(db, {1});
    TurnPlays(None, One(), db, 3, ChangesRequested, [Late(2)]);
    LateRegresses(db);
    assert Regresses(Play(Pair(None), Turn(One(), 3, ChangesRequested)), Sent(0));
  }

  lemma LateRegresses(db: Database)
    requires Older(db, 3) && db.round == 2 && db.commands.Keys == {1}
    ensures var s := Turned(db, 3, ChangesRequested, [Late(2)]); Regresses(s, Sent(0)) && s.db.workflow == Active
  {
    EndedRows(db, 3);
  }

  lemma EndedRows(db: Database, n: nat)
    requires Older(db, n)
    ensures var after := Ended(db, n, ChangesRequested);
            after.round == db.round + 1 && after.workflow == Active && after.commands == db.commands && after.roles.Keys == db.roles.Keys
  {
  }

  /** Or that round is approved meanwhile: once the command is written the run is
      active and nobody has anything to do. */
  lemma LateSendStalls()
    ensures exists moves ::
      var s := Play(Pair(None), moves);
      s.db.workflow == Ready && IdleWake(Pair(None), s, Sent(0)) && Next(Pair(None), s, Sent(0)).db.workflow == Active
  {
    OnePlays(None);
    var db := Play(Pair(None), One()).db;
    SecondOlder(db, {1});
    TurnPlays(None, One(), db, 3, Approved, [Late(2)]);
    LateIdles(db);
    LateWakes(Turned(db, 3, Approved, [Late(2)]));
    assert Play(Pair(None), Turn(One(), 3, Approved)) == Turned(db, 3, Approved, [Late(2)]);
  }

  lemma LateIdles(db: Database)
    requires SecondOpen(db, None, {1}) && Older(db, 3)
    ensures var s := Turned(db, 3, Approved, [Late(2)]); s.db.workflow == Ready && IdleWake(Pair(None), s, Sent(0))
  {
    var after := Ended(db, 3, Approved);
    EndedIdle(db);
    assert Actions([]) == multiset{};
    assert AlreadyGiven(after, Implementer, Implementation, 2) by { assert 3 in after.assignments; }
  }

  lemma EndedIdle(db: Database)
    requires SecondOpen(db, None, {1}) && Older(db, 3)
    ensures var after := Ended(db, 3, Approved);
            && after.workflow == Ready && after.round == 2 && !after.paused && after.commands == db.commands
            && after.roles.Keys == {Implementer, Reviewer} && (forall r :: r in after.roles ==> after.roles[r].active == None)
            && 3 in after.assignments && after.assignments[3].role == Implementer
            && after.assignments[3].kind == Implementation && after.assignments[3].round == 2
  {
  }

  lemma LateWakes(s: Schedule)
    requires IdleWake(Pair(None), s, Sent(0)) && s.sends == [Late(2)] && s.db.round == 2
    ensures Next(Pair(None), s, Sent(0)).db.workflow == Active
  {
    SentNext(Pair(None), s, 0);
  }

  // ----- an approved continuation that is woken -----

  /** No repair without approval: the second round waits for the operator. */
  function Waited(): seq<Move> {
    One() + [Proceed(0, true, 3, 3)]
  }

  const Approval1: Move := Operate(3, Continue, Implementer, Linked)

  lemma WaitedPlays()
    ensures var s := Play(Pair(Some(0)), Waited());
            && s.db.workflow == NeedsAttention && s.db.pending == Some(2) && SafelyPaused(s.db) && s.sends == [Late(2)]
            && RepairRounds(s.db) == {} && s.db.cap == Some(0) && s.db.commands.Keys == {1} && Implementer in s.db.roles
  {
    OnePlays(Some(0));
    var s := Play(Pair(Some(0)), One());
    PlayNext(Pair(Some(0)), One(), Proceed(0, true, 3, 3));
    WaitedRows(s.db);
    HeadNext(Pair(Some(0)), s, 3, Assign(s.db, Implementer, Implementation, 2, 3, 3), []);
  }

  lemma WaitedRows(db: Database)
    requires SecondOpen(db, Some(0), {1})
    ensures var after := Assign(db, Implementer, Implementation, 2, 3, 3);
            && after.workflow == NeedsAttention && after.pending == Some(2) && SafelyPaused(after)
            && RepairRounds(after) == {} && after.cap == Some(0) && after.commands.Keys == {1} && Implementer in after.roles
  {
    assert RepairRounds(db) == {};
    assert FreshDelivery(db, 3) && Assignable(db, Implementer, 3, 3);
    var after := Assign(db, Implementer, Implementation, 2, 3, 3);
    assert after == SetWorkflow(db, NeedsAttention).(pending := Some(2));
    SameRepairRounds(db, after);
  }

  /** The continuation is approved, the late guidance is written, the broker is
      lost: it comes back active, with the repair neither assigned nor uncertain. */
  lemma LateSendWakesApproved()
    ensures Approves(Play(Pair(Some(0)), Waited()), Approval1)
    ensures Disturbs(Play(Pair(Some(0)), Waited() + [Approval1]), Sent(0))
    ensures !StaysLost(Pair(Some(0)), Waited() + [Approval1], [Sent(0)], [], [])
  {
    var config := Pair(Some(0));
    WaitedPlays();
    var s := Play(config, Waited());
    assert RaisedCap(s.db) == 1;
    assert Approves(s, Approval1);
    PlayNext(config, Waited(), Approval1);
    ApprovedRows(config, s, Approval1);
    OperateNext(config, s, 3, Continue, Implementer, Linked);
    var approved := Play(config, Waited() + [Approval1]);
    assert RepairRounds(approved.db) == {} by { SameRepairRounds(s.db, approved.db); }
    assert CanWake(approved, 0);
    WokenIsBack(config, Waited() + [Approval1], 0);
  }
}
