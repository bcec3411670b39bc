/** Provider-call admission over every run: ceilings, extensions and receipts. */

module Ceilings {
  import opened Options
  import opened Tables
  import opened Transactions
  import opened Runs
  import opened Monotone

  /** The request a transaction authorizes, if it authorizes one. */
  function Grants(db: Database, tx: Transaction): Option<RequestId> {
    if tx.TxFrame? && tx.frame.ProviderTurnFrame? && tx.role in db.roles && db.roles[tx.role].generation == tx.generation then
      var f := tx.frame;
      match ProviderTurnDecision(db, tx.role, tx.generation, f.id, f.resume, f.request)
      case Decided(_, true) => Some(f.request)
      case _ => None
    else None
  }

  predicate Extends(db: Database, tx: Transaction) {
    tx.TxControl? && tx.action.ExtendCalls? && ControlStatus(db, tx.command, tx.action, tx.role, tx.link) == Some(StatusAccepted)
  }

  /** The sum of the extensions accepted along a run. */
  function Extended(db: Database, txs: seq<Transaction>): int {
    if txs == [] then 0
    else
      var before, last := Run(db, txs[..|txs| - 1]), txs[|txs| - 1];
      Extended(db, txs[..|txs| - 1]) + if Extends(before, last) then last.action.amount else 0
  }

  /** For whom an authorization counts. */
  datatype Whom = Everyone | Whose(role: Role) | For(assignment: AssignmentId)

  predicate Counted(whom: Whom, role: Role, id: AssignmentId) {
    match whom case Everyone => true case Whose(r) => r == role case For(a) => a == id
  }

  /** The authorizations sent along a run, counted as they leave: to the role that
      asked, for the assignment it named. */
  function GrantsSent(db: Database, txs: seq<Transaction>, whom: Whom): nat {
    if txs == [] then 0
    else
      var before, last := Run(db, txs[..|txs| - 1]), txs[|txs| - 1];
      GrantsSent(db, txs[..|txs| - 1], whom)
      + if Grants(before, last).Some? && Counted(whom, last.role, last.frame.id) then 1 else 0
  }

  // ----- the granted rows -----

  function Granted(db: Database): set<RequestId> {
    set q | q in db.admissions && db.admissions[q].granted
  }

  function GrantedTo(db: Database, role: Role): set<RequestId> {
    set q | q in db.admissions && db.admissions[q].granted && db.admissions[q].role == role
  }

  function GrantedFor(db: Database, id: AssignmentId): set<RequestId> {
    set q | q in db.admissions && db.admissions[q].granted && db.admissions[q].assignment == id
  }

  function GrantedOf(db: Database, whom: Whom): set<RequestId> {
    match whom case Everyone => Granted(db) case Whose(role) => GrantedTo(db, role) case For(id) => GrantedFor(db, id)
  }

  /** The three scopes count all rows, those of a role, those of an assignment. */
  lemma ScopesCount(db: Database, role: Role, id: AssignmentId)
    ensures GrantedIn(db.admissions, RunScope, role, id) == Granted(db)
    ensures GrantedIn(db.admissions, RoleScope, role, id) == GrantedTo(db, role)
    ensures GrantedIn(db.admissions, AssignmentScope, role, id) == GrantedFor(db, id)
  {
  }

  ghost predicate WithinCeilings(db: Database) {
    forall scope, role, id :: scope in db.limits ==> |GrantedIn(db.admissions, scope, role, id)| <= db.limits[scope]
  }

  lemma GrantedAfter(admissions: map<RequestId, Admission>, request: RequestId, row: Admission, scope: CallScope, role: Role, id: AssignmentId)
    requires request !in admissions
    ensures GrantedIn(admissions[request := row], scope, role, id) ==
            GrantedIn(admissions, scope, role, id) + if row.granted && InScope(scope, row, role, id) then {request} else {}
  {
  }

  lemma SameScope(admissions: map<RequestId, Admission>, row: Admission, scope: CallScope, role: Role, id: AssignmentId)
    requires InScope(scope, row, role, id)
    ensures GrantedIn(admissions, scope, role, id) == GrantedIn(admissions, scope, row.role, row.assignment)
  {
  }

  lemma ReserveWithin(db: Database, request: RequestId, role: Role, id: AssignmentId, generation: nat, resume: Option<CommandId>)
    requires WithinCeilings(db)
    ensures var decision := Reserve(db, request, role, id, generation, resume);
            decision.Decided? ==> WithinCeilings(decision.db) && decision.db.limits == db.limits
  {
    var decision := Reserve(db, request, role, id, generation, resume);
    if decision.Decided? && request !in db.admissions && |db.admissions| < MAX_CALL_ALLOWANCE {
      var row := Admission(role, id, generation, resume, decision.granted);
      forall scope, r, i | scope in db.limits
        ensures |GrantedIn(decision.db.admissions, scope, r, i)| <= db.limits[scope]
      {
        GrantedAfter(db.admissions, request, row, scope, r, i);
        if row.granted && InScope(scope, row, r, i) {
          SameScope(db.admissions, row, scope, r, i);
        }
      }
    }
  }

  /** The rows and limits a transaction leaves, for every transaction. */
  lemma LedgerStep(db: Database, tx: Transaction)
    ensures var after := Apply(db, tx);
            if tx.TxFrame? && tx.frame.ProviderTurnFrame?
            then after.limits == db.limits
            else after.admissions == db.admissions && (!Extends(db, tx) ==> after.limits == db.limits)
    ensures Extends(db, tx) ==> Apply(db, tx).limits == map scope | scope in db.limits :: db.limits[scope] + tx.action.amount
  {
    if Incidental(tx) {
      QuietIncidental(db, tx);
    } else if tx.TxFrame? {
      LedgerFrame(db, tx);
    } else if tx.TxControl? {
      LedgerControl(db, tx);
    } else if tx.TxAssign? {
      LedgerAssign(db, tx.role, tx.kind, tx.round, tx.id, tx.delivery);
    } else if tx.TxFinish? {
      LedgerFinish(db, tx.command, tx.role, tx.plan);
    }
  }

  lemma LedgerAssign(db: Database, role: Role, kind: Kind, round: nat, id: AssignmentId, delivery: DeliveryId)
    ensures Assign(db, role, kind, round, id, delivery).admissions == db.admissions
    ensures Assign(db, role, kind, round, id, delivery).limits == db.limits
  {
    if !Assignable(db, role, id, delivery) {
    } else if RepairLimitReached(db, role, kind, round) {
    } else {
      GivenRows(db, role, kind, round, id, delivery);
    }
  }

  lemma LedgerFrame(db: Database, tx: Transaction)
    requires tx.TxFrame? && !IncidentalFrame(tx.frame)
    ensures Apply(db, tx).limits == db.limits
    ensures tx.frame.ReportFrame? ==> Apply(db, tx).admissions == db.admissions
  {
    match tx.frame
    case ReportFrame(id, kind, verdict) => LedgerReport(db, tx.role, tx.generation, id, kind, verdict);
    case ProviderTurnFrame(id, resume, request) => ShapedProviderTurn(db, tx.role, tx.generation, id, resume, request);
  }

  lemma LedgerReport(db: Database, role: Role, generation: nat, id: AssignmentId, kind: Kind, verdict: Verdict)
    ensures var after := AcceptReport(db, role, generation, id, kind, verdict);
            after.limits == db.limits && after.admissions == db.admissions
  {
    if Reportable(db, role, id, kind) {
    } else if DuplicateReport(db, role, id, kind) {
    } else {
      QuietRejection(db, role, generation, id, None);
    }
  }

  lemma LedgerEffect(db: Database, id: CommandId, action: Action, role: Role)
    requires role in db.roles
    ensures var after := ControlEffect(db, id, action, role);
            && after.admissions == db.admissions
            && (!action.ExtendCalls? ==> after.limits == db.limits)
  {
    match action
    case RestartFailed => QuietUncertain(db, role);
    case ExtendCalls(amount) =>
    case Continue =>
    case Restart =>
    case _ =>
  }

  lemma LedgerControl(db: Database, tx: Transaction)
    requires tx.TxControl?
    ensures Apply(db, tx).admissions == db.admissions
    ensures Apply(db, tx).limits ==
            if Extends(db, tx) then map scope | scope in db.limits :: db.limits[scope] + tx.action.amount else db.limits
  {
    match ControlStatus(db, tx.command, tx.action, tx.role, tx.link)
    case None =>
    case Some(status) => if status == StatusAccepted { LedgerEffect(db, tx.command, tx.action, tx.role); }
  }

  lemma LedgerFinish(db: Database, id: CommandId, role: Role, plan: Plan)
    ensures var after := Finish(db, id, role, plan); after.admissions == db.admissions && after.limits == db.limits
  {
    if role in db.roles && plan.Guiding? { ShapedResume(db, id, role, plan.waking); }
  }

  lemma StepWithin(db: Database, tx: Transaction)
    requires WithinCeilings(db)
    ensures WithinCeilings(Apply(db, tx))
  {
    LedgerStep(db, tx);
    if tx.TxFrame? && tx.frame.ProviderTurnFrame? {
      var f := tx.frame;
      ShapedProviderTurn(db, tx.role, tx.generation, f.id, f.resume, f.request);
      ReserveWithin(db, f.request, tx.role, f.id, tx.generation, f.resume);
    }
  }

  lemma ReserveGrants(db: Database, request: RequestId, role: Role, id: AssignmentId, generation: nat, resume: Option<CommandId>)
    ensures match Reserve(db, request, role, id, generation, resume)
            case Refused => true
            case Decided(reserved, granted) =>
              && GrantedIn(reserved.admissions, RunScope, Implementer, 0)
                 == GrantedIn(db.admissions, RunScope, Implementer, 0) + (if granted then {request} else {})
              && (granted ==> !db.paused && request !in db.admissions)
  {
    match Reserve(db, request, role, id, generation, resume)
    case Refused =>
    case Decided(reserved, granted) =>
      if request !in db.admissions && |db.admissions| < MAX_CALL_ALLOWANCE {
        GrantedAfter(db.admissions, request, Admission(role, id, generation, resume, granted), RunScope, Implementer, 0);
      }
  }

  lemma TurnGrants(db: Database, role: Role, generation: nat, f: Frame)
    requires f.ProviderTurnFrame?
    ensures var after := ProviderTurn(db, role, generation, f.id, f.resume, f.request);
            match ProviderTurnDecision(db, role, generation, f.id, f.resume, f.request)
            case Refused => after.admissions == db.admissions
            case Decided(_, granted) =>
              && GrantedIn(after.admissions, RunScope, Implementer, 0)
                 == GrantedIn(db.admissions, RunScope, Implementer, 0) + (if granted then {f.request} else {})
              && (granted ==> !db.paused && f.request !in db.admissions)
  {
    ShapedProviderTurn(db, role, generation, f.id, f.resume, f.request);
    ReserveGrants(db, f.request, role, f.id, generation, f.resume);
  }

  /** A granted turn enters the ledger at its own request, which was not there;
      nothing is granted while admission is paused, and every other transaction
      leaves the granted set as it is. */
  lemma StepGrants(db: Database, tx: Transaction)
    ensures var after := Apply(db, tx);
            GrantedIn(after.admissions, RunScope, Implementer, 0) ==
            GrantedIn(db.admissions, RunScope, Implementer, 0) + match Grants(db, tx) case Some(q) => {q} case None => {}
    ensures match Grants(db, tx)
            case Some(q) => !db.paused && q !in db.admissions
            case None => true
  {
    if tx.TxFrame? && tx.frame.ProviderTurnFrame? {
      if tx.role in db.roles && db.roles[tx.role].generation == tx.generation {
        TurnGrants(db, tx.role, tx.generation, tx.frame);
      }
    } else {
      LedgerStep(db, tx);
    }
  }

  /** A granted turn is recorded for the role that asked and the assignment it
      named. */
  lemma StepCounts(db: Database, tx: Transaction, whom: Whom)
    ensures |GrantedOf(Apply(db, tx), whom)|
            == |GrantedOf(db, whom)| + if Grants(db, tx).Some? && Counted(whom, tx.role, tx.frame.id) then 1 else 0
  {
    if tx.TxFrame? && tx.frame.ProviderTurnFrame? {
      if tx.role in db.roles && db.roles[tx.role].generation == tx.generation { TurnCounts(db, tx.role, tx.generation, tx.frame, whom); }
    } else {
      LedgerStep(db, tx);
    }
  }

  lemma TurnCounts(db: Database, role: Role, generation: nat, f: Frame, whom: Whom)
    requires f.ProviderTurnFrame?
    ensures var after := ProviderTurn(db, role, generation, f.id, f.resume, f.request);
            |GrantedOf(after, whom)| == |GrantedOf(db, whom)| + match ProviderTurnDecision(db, role, generation, f.id, f.resume, f.request)
                                                                case Decided(_, true) => if Counted(whom, role, f.id) then 1 else 0
                                                                case _ => 0
  {
    var after := ProviderTurn(db, role, generation, f.id, f.resume, f.request);
    match ProviderTurnDecision(db, role, generation, f.id, f.resume, f.request)
    case Refused =>
    case Decided(reserved, granted) =>
      TurnLedger(db, role, generation, f);
      SameLedger(reserved, after, whom);
      if Owns(db, role, generation, f.id, f.resume) && !(db.assignments[f.id].attempt == AttentionRaised && !db.assignments[f.id].authorized) {
        ReserveCounts(db, f.request, role, f.id, generation, f.resume, whom);
      }
  }

  lemma TurnLedger(db: Database, role: Role, generation: nat, f: Frame)
    requires f.ProviderTurnFrame?
    ensures var decision := ProviderTurnDecision(db, role, generation, f.id, f.resume, f.request);
            decision.Decided? ==> ProviderTurn(db, role, generation, f.id, f.resume, f.request).admissions == decision.db.admissions
  {
    ShapedProviderTurn(db, role, generation, f.id, f.resume, f.request);
  }

  lemma SameLedger(db: Database, after: Database, whom: Whom)
    requires after.admissions == db.admissions
    ensures GrantedOf(after, whom) == GrantedOf(db, whom)
  {
    match whom
    case Everyone =>
    case Whose(role) =>
    case For(id) =>
  }

  lemma ReserveCounts(db: Database, request: RequestId, role: Role, id: AssignmentId, generation: nat, resume: Option<CommandId>, whom: Whom)
    ensures match Reserve(db, request, role, id, generation, resume)
            case Refused => true
            case Decided(reserved, granted) =>
              |GrantedOf(reserved, whom)| == |GrantedOf(db, whom)| + if granted && Counted(whom, role, id) then 1 else 0
  {
    match Reserve(db, request, role, id, generation, resume)
    case Refused =>
    case Decided(reserved, granted) =>
      if request !in db.admissions && |db.admissions| < MAX_CALL_ALLOWANCE {
        RecordedCounts(db, reserved, request, Admission(role, id, generation, resume, granted), whom);
      } else {
        SameLedger(db, reserved, whom);
      }
  }

  lemma RecordedCounts(db: Database, after: Database, request: RequestId, row: Admission, whom: Whom)
    requires request !in db.admissions && after.admissions == db.admissions[request := row]
    ensures |GrantedOf(after, whom)| == |GrantedOf(db, whom)| + if row.granted && Counted(whom, row.role, row.assignment) then 1 else 0
  {
    RecordedRow(db, after, request, row, whom);
    assert request !in GrantedOf(db, whom);
  }

  lemma RecordedRow(db: Database, after: Database, request: RequestId, row: Admission, whom: Whom)
    requires request !in db.admissions && after.admissions == db.admissions[request := row]
    ensures request !in GrantedOf(db, whom)
    ensures GrantedOf(after, whom) == if row.granted && Counted(whom, row.role, row.assignment) then GrantedOf(db, whom) + {request} else GrantedOf(db, whom)
  {
    match whom
    case Everyone =>
    case Whose(role) =>
    case For(id) =>
  }

  /** Over every run: each ceiling is its initial value plus the accepted
      extensions; neither the run nor any role nor any assignment was granted more
      turns than its ceiling allows; and what was granted in all, to a role and for
      an assignment is as much as was authorized to leave. */
  lemma {:induction false} CallCeilings(config: Config, txs: seq<Transaction>)
    ensures var start := InitialDatabase(config);
            var db := Run(start, txs);
            && db.limits.Keys == config.limits.Keys
            && (forall scope :: scope in db.limits ==> db.limits[scope] == config.limits[scope] + Extended(start, txs))
            && (RunScope in db.limits ==> |Granted(db)| <= db.limits[RunScope])
            && (RoleScope in db.limits ==> forall r :: |GrantedTo(db, r)| <= db.limits[RoleScope])
            && (AssignmentScope in db.limits ==> forall a :: |GrantedFor(db, a)| <= db.limits[AssignmentScope])
            && |Granted(db)| == GrantsSent(start, txs, Everyone)
            && (forall r :: |GrantedTo(db, r)| == GrantsSent(start, txs, Whose(r)))
            && (forall a :: |GrantedFor(db, a)| == GrantsSent(start, txs, For(a)))
  {
    var db := Run(InitialDatabase(config), txs);
    LimitsGrow(config, txs);
    GrantsCounted(config, txs, Everyone);
    ScopesCount(db, Implementer, 0);
    forall r ensures |GrantedTo(db, r)| == GrantsSent(InitialDatabase(config), txs, Whose(r))
             ensures RoleScope in db.limits ==> |GrantedTo(db, r)| <= db.limits[RoleScope]
    {
      GrantsCounted(config, txs, Whose(r));
      ScopesCount(db, r, 0);
    }
    forall a ensures |GrantedFor(db, a)| == GrantsSent(InitialDatabase(config), txs, For(a))
             ensures AssignmentScope in db.limits ==> |GrantedFor(db, a)| <= db.limits[AssignmentScope]
    {
      GrantsCounted(config, txs, For(a));
      ScopesCount(db, Implementer, a);
    }
  }

  lemma {:induction false} LimitsGrow(config: Config, txs: seq<Transaction>)
    ensures var start := InitialDatabase(config);
            var db := Run(start, txs);
            && db.limits.Keys == config.limits.Keys
            && (forall scope :: scope in db.limits ==> db.limits[scope] == config.limits[scope] + Extended(start, txs))
            && WithinCeilings(db)
    decreases |txs|
  {
    var start := InitialDatabase(config);
    if txs == [] {
      assert forall scope, role, id :: GrantedIn(start.admissions, scope, role, id) == {};
    } else {
      var before, last := Run(start, txs[..|txs| - 1]), txs[|txs| - 1];
      LimitsGrow(config, txs[..|txs| - 1]);
      StepWithin(before, last);
      LedgerStep(before, last);
    }
  }

  lemma {:induction false} GrantsCounted(config: Config, txs: seq<Transaction>, whom: Whom)
    ensures |GrantedOf(Run(InitialDatabase(config), txs), whom)| == GrantsSent(InitialDatabase(config), txs, whom)
    decreases |txs|
  {
    var start := InitialDatabase(config);
    if txs == [] {
      assert GrantedOf(start, whom) == {};
    } else {
      GrantsCounted(config, txs[..|txs| - 1], whom);
      StepCounts(Run(start, txs[..|txs| - 1]), txs[|txs| - 1], whom);
    }
  }

  /** No request is authorized twice, and a paused run authorizes nothing. */
  lemma GrantedOnce(db: Database, txs: seq<Transaction>, between: seq<Transaction>, tx: Transaction, later: Transaction)
    requires Grants(Run(db, txs), tx).Some?
    ensures !Run(db, txs).paused
    ensures Grants(Run(db, txs + [tx] + between), later) != Grants(Run(db, txs), tx)
  {
    var granting := txs + [tx];
    assert granting[..|granting| - 1] == txs;
    StepGrants(Run(db, txs), tx);
    RunKeeps(db, granting, between);
    var q := Grants(Run(db, txs), tx).value;
    assert q in GrantedIn(Run(db, granting).admissions, RunScope, Implementer, 0);
    StepGrants(Run(db, granting + between), later);
  }

  ghost predicate Bounded(limits: map<CallScope, nat>) {
    forall scope :: scope in limits ==> limits[scope] <= MAX_CALL_ALLOWANCE
  }

  /** No accepted extension takes a ceiling beyond the most that is allowed. */
  lemma {:induction false} CeilingsBounded(config: Config, txs: seq<Transaction>)
    requires Bounded(config.limits)
    ensures Bounded(Run(InitialDatabase(config), txs).limits)
    decreases |txs|
  {
    if txs != [] {
      var before, last := Run(InitialDatabase(config), txs[..|txs| - 1]), txs[|txs| - 1];
      CeilingsBounded(config, txs[..|txs| - 1]);
      StepBounded(before, last);
    }
  }

  lemma StepBounded(db: Database, tx: Transaction)
    requires Bounded(db.limits)
    ensures Bounded(Apply(db, tx).limits)
  {
    LedgerStep(db, tx);
    if Extends(db, tx) {
      ExtensionFitted(db, tx);
      forall scope | scope in Apply(db, tx).limits ensures Apply(db, tx).limits[scope] <= MAX_CALL_ALLOWANCE {
        assert scope in db.limits;
      }
    } else {
      assert Apply(db, tx).limits == db.limits;
    }
  }

  lemma ExtensionFitted(db: Database, tx: Transaction)
    requires Extends(db, tx)
    ensures db.paused && 1 <= tx.action.amount
    ensures forall scope :: scope in db.limits ==> db.limits[scope] + tx.action.amount <= MAX_CALL_ALLOWANCE
  {
  }

  /** What one admission decides: a new request is granted exactly when the
      ledger has room, admission is not paused and every ceiling has room. */
  lemma ReserveDecides(db: Database, request: RequestId, role: Role, id: AssignmentId, generation: nat, resume: Option<CommandId>)
    requires db.limits != map[] && request !in db.admissions
    ensures var decision := Reserve(db, request, role, id, generation, resume);
            && decision.Decided?
            && (decision.granted <==>
                && |db.admissions| < MAX_CALL_ALLOWANCE
                && !db.paused
                && (RunScope in db.limits ==> |Granted(db)| < db.limits[RunScope])
                && (RoleScope in db.limits ==> |GrantedTo(db, role)| < db.limits[RoleScope])
                && (AssignmentScope in db.limits ==> |GrantedFor(db, id)| < db.limits[AssignmentScope]))
            && decision.db.paused == (db.paused || !decision.granted)
  {
    ScopesCount(db, role, id);
    UnderMeans(db, role, id);
  }

  lemma UnderMeans(db: Database, role: Role, id: AssignmentId)
    ensures UnderCeilings(db, role, id) <==>
            && (RunScope in db.limits ==> |Granted(db)| < db.limits[RunScope])
            && (RoleScope in db.limits ==> |GrantedTo(db, role)| < db.limits[RoleScope])
            && (AssignmentScope in db.limits ==> |GrantedFor(db, id)| < db.limits[AssignmentScope])
  {
    ScopesCount(db, role, id);
    forall scope | scope in db.limits && !UnderCeilings(db, role, id)
      ensures scope == RunScope || scope == RoleScope || scope == AssignmentScope
    {
    }
  }

  /** A request that is in the ledger is answered without a grant, and only in the
      same words: another role, assignment, generation or epoch conflicts. */
  lemma ReserveAgain(db: Database, request: RequestId, role: Role, id: AssignmentId, generation: nat, resume: Option<CommandId>)
    requires db.limits != map[] && request in db.admissions
    ensures var row := db.admissions[request];
            Reserve(db, request, role, id, generation, resume)
            == if (row.role, row.assignment, row.generation, row.resume) == (role, id, generation, resume) then Decided(db, false) else Refused
  {
  }

  /** What was decided stays recorded in the words of the request, so the same
      request is never taken for another. */
  lemma ReserveRecords(db: Database, request: RequestId, role: Role, id: AssignmentId, generation: nat, resume: Option<CommandId>)
    requires db.limits != map[] && request !in db.admissions && |db.admissions| < MAX_CALL_ALLOWANCE
    ensures var after := Reserve(db, request, role, id, generation, resume).db;
            && Reserve(after, request, role, id, generation, resume) == Decided(after, false)
            && forall r: Role, i: AssignmentId, g: nat, e: Option<CommandId> ::
                 (r, i, g, e) != (role, id, generation, resume) ==> Reserve(after, request, r, i, g, e) == Refused
  {
  }
}
