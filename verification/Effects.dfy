/** What the handlers of the store mean to each other: which later calls they
    answer, refuse or leave without effect. */

module Effects {
  import opened Options
  import opened Tables
  import opened Transactions
  import opened Runs
  import Monotone
  import Integrity

  /** Assignment integrity, in whatever configuration, is kept. */
  ghost predicate KeepsIntegrity(db: Database, after: Database) {
    forall config :: Integrity.Sound(config, db) ==> Integrity.Sound(config, after)
  }

  lemma ShapedIntegrity(db: Database, after: Database)
    requires Monotone.Shaped(db, after)
    ensures KeepsIntegrity(db, after)
  {
    assert Integrity.Aligned(db, after);
    forall config | Integrity.Sound(config, db) ensures Integrity.Sound(config, after) {
      Integrity.AlignedSound(config, db, after);
    }
  }

  // ----- connections -----

  /** A connection that ends before anything else happens leaves an ordinary role
      disconnected, and a role that was handed over, with its run, uncertain. */
  predicate LeavesAsItCame(db: Database, after: Database, role: Role, generation: nat)
    requires role in db.roles
  {
    var gone := Disconnect(after, role, generation);
    if db.roles[role].state == Restarting then gone.workflow == Uncertain && role in gone.roles && gone.roles[role].state == RoleUncertain
    else gone == db.(roles := db.roles[role := db.roles[role].(connected := false, state := Disconnected)])
  }

  /** A handover that was requested and is not confirmed. */
  predicate UnderWay(row: RoleRow) {
    row.state == Restarting || row.state == Recovering
  }

  lemma HelloRows(db: Database, role: Role, generation: nat)
    ensures var after := Hello(db, role, generation);
            && (role in db.roles && db.roles[role].generation == generation ==>
                  && role in after.roles && after.roles[role].connected && after.roles[role].active == db.roles[role].active
                  && after.roles[role].state == if db.roles[role].state == Restarting then Recovering else Idle)
            && forall r :: r in db.roles && r != role ==> r in after.roles && after.roles[r] == db.roles[r]
  {
  }

  lemma HelloMeans(db: Database, role: Role, generation: nat)
    ensures var after := Hello(db, role, generation);
            if role in db.roles && db.roles[role].generation == generation
            then KeepsIntegrity(db, after) && LeavesAsItCame(db, after, role, generation)
            else after == db
  {
    Monotone.QuietHello(db, role, generation);
    ShapedIntegrity(db, Hello(db, role, generation));
    if role in db.roles && db.roles[role].generation == generation { HelloGone(db, role, generation); }
  }

  lemma Twice<K, V>(m: map<K, V>, k: K, a: V, b: V)
    ensures m[k := a][k := b] == m[k := b]
  {
  }

  function GoneState(row: RoleRow, generation: nat): RoleState {
    if row.state == Recovering && row.generation == generation then RoleUncertain
    else if row.state.Restarting? || row.state.Recovering? || row.state.RoleUncertain? then row.state
    else Disconnected
  }

  /** The row that the end of a connection leaves. */
  function GoneRow(row: RoleRow, generation: nat): RoleRow {
    row.(state := GoneState(row, generation), connected := false)
  }

  lemma GoneIs(db: Database, role: Role, generation: nat)
    requires role in db.roles
    ensures var row := db.roles[role];
            var workflow := if row.state == Recovering && row.generation == generation then Uncertain else db.workflow;
            Disconnect(db, role, generation) == db.(workflow := workflow, roles := db.roles[role := GoneRow(row, generation)])
  {
    var row := db.roles[role];
    var workflow := if row.state == Recovering && row.generation == generation then Uncertain else db.workflow;
    MarkedIs(db, role, generation);
    LeftIs(db, workflow, role, row.(state := GoneState(row, generation)));
  }

  lemma LeftIs(db: Database, workflow: Workflow, role: Role, row: RoleRow)
    requires role in db.roles
    ensures SetConnected(db.(workflow := workflow, roles := db.roles[role := row]), role, false)
            == db.(workflow := workflow, roles := db.roles[role := row.(connected := false)])
  {
    Twice(db.roles, role, row, row.(connected := false));
  }

  lemma MarkedIs(db: Database, role: Role, generation: nat)
    requires role in db.roles
    ensures var row := db.roles[role];
            var workflow := if row.state == Recovering && row.generation == generation then Uncertain else db.workflow;
            MarkGone(db, role, generation) == db.(workflow := workflow, roles := db.roles[role := row.(state := GoneState(row, generation))])
  {
    var row := db.roles[role];
    if row.state == Recovering && row.generation == generation {
      assert MarkGone(db, role, generation) == MarkHandoverUncertain(db, role);
    } else if row.state.Restarting? || row.state.Recovering? || row.state.RoleUncertain? {
      assert db.roles[role := row] == db.roles;
    } else {
      assert MarkGone(db, role, generation) == SetRoleState(db, role, Disconnected);
    }
  }

  lemma HelloGone(db: Database, role: Role, generation: nat)
    requires role in db.roles && db.roles[role].generation == generation
    ensures LeavesAsItCame(db, Hello(db, role, generation), role, generation)
  {
    var row := db.roles[role];
    var greeted := row.(connected := true, state := if row.state == Restarting then Recovering else Idle);
    GoneIs(Hello(db, role, generation), role, generation);
    Twice(db.roles, role, greeted, GoneRow(greeted, generation));
  }

  lemma GoneMeans(db: Database, role: Role, generation: nat)
    ensures var after := Disconnect(db, role, generation);
            && KeepsIntegrity(db, after)
            && Disconnect(after, role, generation) == after
            && (after.workflow != db.workflow ==> role in db.roles && db.roles[role].state == Recovering && db.roles[role].generation == generation)
            && (role in db.roles && db.roles[role].state == Restarting ==> role in after.roles && after.roles[role].state == Restarting)
  {
    Monotone.QuietDisconnect(db, role, generation);
    ShapedIntegrity(db, Disconnect(db, role, generation));
    if role in db.roles { GoneAgain(db, role, generation); }
  }

  lemma GoneAgain(db: Database, role: Role, generation: nat)
    requires role in db.roles
    ensures var after := Disconnect(db, role, generation); Disconnect(after, role, generation) == after
  {
    var gone := GoneRow(db.roles[role], generation);
    GoneIs(db, role, generation);
    GoneIs(Disconnect(db, role, generation), role, generation);
    Twice(db.roles, role, gone, GoneRow(gone, generation));
  }

  lemma BootMeans(db: Database)
    ensures KeepsIntegrity(db, Boot(db))
  {
    Monotone.QuietBoot(db);
    ShapedIntegrity(db, Boot(db));
  }

  /** What startup leaves of the workflow and of every role. */
  lemma BootRows(db: Database)
    ensures var after := Boot(db);
            && after.workflow != Starting && after.workflow != Routing && after.workflow != Initializing
            && after.roles.Keys == db.roles.Keys
            && (forall r :: r in db.roles ==>
                  after.roles[r] == if UnderWay(db.roles[r]) then db.roles[r].(state := RoleUncertain, connected := false) else db.roles[r])
            && ((exists r :: r in db.roles && UnderWay(db.roles[r])) ==> after.workflow == Uncertain)
            && ((forall r :: r in db.roles ==> !UnderWay(db.roles[r])) ==>
                  after.workflow == match db.workflow case Starting => Connecting case Routing => Uncertain case Initializing => Uncertain case other => other)
  {
    assert forall r :: r in db.roles ==> (r in Interrupted(db) <==> UnderWay(db.roles[r]));
    if Interrupted(db) == {} {
      assert Boot(db) == BootWorkflow(db);
      BootedWorkflow(db);
    }
  }

  lemma BootedWorkflow(db: Database)
    ensures var after := BootWorkflow(db);
            && after.roles == db.roles
            && after.workflow == match db.workflow case Starting => Connecting case Routing => Uncertain case Initializing => Uncertain case other => other
  {
    if db.workflow == Starting {
      assert BootWorkflow(db) == SetWorkflow(db, Connecting);
    } else if db.workflow.Routing? || db.workflow.Initializing? {
      assert BootWorkflow(db) == SetWorkflow(db, Uncertain);
    } else {
      assert BootWorkflow(db) == db;
    }
  }

  // ----- deliveries and reports -----

  lemma AcknowledgeMeans(db: Database, role: Role, delivery: DeliveryId, accepted: bool)
    ensures var after := Acknowledge(db, role, delivery, accepted);
            && KeepsIntegrity(db, after)
            && Acknowledge(after, role, delivery, accepted) == after
            && forall id :: id in db.assignments && db.assignments[id].delivery != delivery ==>
                 id in after.assignments && after.assignments[id] == db.assignments[id]
  {
    Monotone.QuietAcknowledge(db, role, delivery, accepted);
    ShapedIntegrity(db, Acknowledge(db, role, delivery, accepted));
    if Answers(db, role, delivery) {
      if accepted { AcceptedAgain(db, role, delivery); } else { UnsureAgain(db, role, delivery); }
    }
  }

  lemma AcceptedAgain(db: Database, role: Role, delivery: DeliveryId)
    requires Answers(db, role, delivery)
    ensures var after := Acknowledge(db, role, delivery, true);
            && Acknowledge(after, role, delivery, true) == after
            && forall id :: id in db.assignments && id != db.roles[role].active.value ==>
                 id in after.assignments && after.assignments[id] == db.assignments[id]
  {
    var id := db.roles[role].active.value;
    var after := Acknowledge(db, role, delivery, true);
    AcceptedIs(db, role, id);
    assert after == Acknowledged(db, role, id) && Answers(after, role, delivery);
    assert after.assignments[id := after.assignments[id].(state := Accepted)] == after.assignments;
    AcceptedSame(after, role, id);
  }

  lemma AcceptedIs(db: Database, role: Role, id: AssignmentId)
    requires role in db.roles && id in db.assignments
    ensures var after := Acknowledged(db, role, id);
            && after.assignments == db.assignments[id := db.assignments[id].(state := Accepted)]
            && role in after.roles && after.roles[role].active == db.roles[role].active
            && !after.roles[role].state.Disconnected? && !after.roles[role].state.Idle? && !after.roles[role].state.Recovering?
  {
    var acked := SetAssignment(db, id, db.assignments[id].(state := Accepted));
    if db.roles[role].state.Disconnected? || db.roles[role].state.Idle? || db.roles[role].state.Recovering? {
      assert Acknowledged(db, role, id) == SetRoleState(acked, role, Working);
    } else {
      assert Acknowledged(db, role, id) == acked;
    }
  }

  lemma AcceptedSame(db: Database, role: Role, id: AssignmentId)
    requires role in db.roles && id in db.assignments && db.assignments[id := db.assignments[id].(state := Accepted)] == db.assignments
    requires !db.roles[role].state.Disconnected? && !db.roles[role].state.Idle? && !db.roles[role].state.Recovering?
    ensures Acknowledged(db, role, id) == db
  {
  }

  lemma UnsureAgain(db: Database, role: Role, delivery: DeliveryId)
    requires Answers(db, role, delivery)
    ensures var after := Acknowledge(db, role, delivery, false);
            && Acknowledge(after, role, delivery, false) == after
            && forall id :: id in db.assignments && id != db.roles[role].active.value ==>
                 id in after.assignments && after.assignments[id] == db.assignments[id]
  {
    var id := db.roles[role].active.value;
    var after := Unsure(db, role, id);
    assert after.assignments == db.assignments[id := db.assignments[id].(state := DeliveryUncertain)];
    assert after.assignments[id := after.assignments[id].(state := DeliveryUncertain)] == after.assignments;
    assert after.roles[role := after.roles[role].(state := RoleUncertain)] == after.roles;
  }

  /** A classified rejection is recorded once and never makes a report of any
      assignment unacceptable. */
  lemma RejectionMeans(db: Database, role: Role, generation: nat, id: AssignmentId)
    ensures var after := RecordRejection(db, role, generation, id);
            && KeepsIntegrity(db, after)
            && RecordRejection(after, role, generation, id) == after
            && forall r, i, k :: Reportable(after, r, i, k) <==> Reportable(db, r, i, k)
  {
    Monotone.QuietRejection(db, role, generation, id, None);
    ShapedIntegrity(db, RecordRejection(db, role, generation, id));
  }

  /** The open assignment of its role and kind, without a report. */
  predicate Unreported(db: Database, role: Role, id: AssignmentId, kind: Kind) {
    && role in db.roles && db.roles[role].active == Some(id) && id !in db.reports
    && id in db.assignments && db.assignments[id].role == role && db.assignments[id].kind == kind
    && db.assignments[id].state in {Delivering, Accepted}
  }

  lemma ReportableMeans(db: Database, role: Role, id: AssignmentId, kind: Kind)
    ensures Reportable(db, role, id, kind) <==> Unreported(db, role, id, kind)
  {
  }

  lemma ReportMeans(db: Database, role: Role, generation: nat, id: AssignmentId, kind: Kind, verdict: Verdict)
    ensures KeepsIntegrity(db, AcceptReport(db, role, generation, id, kind, verdict))
  {
    if Reportable(db, role, id, kind) {
      forall config | Integrity.Sound(config, db) ensures Integrity.Sound(config, AcceptReport(db, role, generation, id, kind, verdict)) {
        Integrity.ReportSound(config, db, role, generation, id, kind, verdict);
      }
    } else if !DuplicateReport(db, role, id, kind) {
      RejectionMeans(db, role, generation, id);
    }
  }

  /** What the acknowledgement of the live delivery writes. */
  lemma AnsweredRows(db: Database, role: Role, delivery: DeliveryId, accepted: bool)
    requires Answers(db, role, delivery)
    ensures var after := Acknowledge(db, role, delivery, accepted);
            var id, row := db.roles[role].active.value, db.roles[role];
            if accepted
            then
              && after.assignments == db.assignments[id := db.assignments[id].(state := Accepted)] && after.workflow == db.workflow
              && after.roles == db.roles[role := row.(state := if row.state in {Disconnected, Idle, Recovering} then Working else row.state)]
            else
              && after.assignments == db.assignments[id := db.assignments[id].(state := DeliveryUncertain)] && after.workflow == Uncertain
              && after.roles == db.roles[role := row.(state := RoleUncertain)]
  {
    var id, row := db.roles[role].active.value, db.roles[role];
    if accepted {
      var acked := SetAssignment(db, id, db.assignments[id].(state := Accepted));
      if row.state in {Disconnected, Idle, Recovering} {
        assert Acknowledged(db, role, id) == SetRoleState(acked, role, Working);
      } else {
        assert Acknowledged(db, role, id) == acked;
        assert db.roles[role := row] == db.roles;
      }
    } else {
      assert Acknowledge(db, role, delivery, false) == Unsure(db, role, id);
    }
  }

  // ----- attention -----

  /** The role waits, and with it the run, unless it is uncertain or ready. */
  predicate WaitsForOperator(db: Database, after: Database, role: Role) {
    && role in db.roles && after.roles == db.roles[role := db.roles[role].(state := Waiting)]
    && after.workflow == if db.workflow == Uncertain || db.workflow == Ready then db.workflow else NeedsAttention
  }

  /** No late lifecycle frame of its worker moves this role. */
  ghost predicate Unmoved(db: Database, role: Role) {
    forall state: RoleState, named :: state != RoleUncertain ==> Lifecycle(db, role, state, named) == db
  }

  lemma WaitingMeans(db: Database, role: Role, id: AssignmentId)
    requires role in db.roles && id in db.assignments
    ensures var after := AttentionWaiting(db, role, id);
            KeepsIntegrity(db, after) && (db.roles[role].active.Some? ==> Unmoved(after, role))
  {
    var after := AttentionWaiting(db, role, id);
    Monotone.QuietWaiting(db, role, id);
    ShapedIntegrity(db, after);
    assert role in after.roles && after.roles[role].state == Waiting;
  }

  /** Until the next guidance every provider call of this assignment is denied,
      no recovery turn is granted, and the signal can be repeated. */
  ghost predicate Blocked(db: Database, role: Role, generation: nat, id: AssignmentId, resume: Option<CommandId>) {
    && Owns(db, role, generation, id, resume)
    && !RecoveryAllowed(db.assignments[id])
    && (forall request :: ProviderTurnDecision(db, role, generation, id, resume, request) == Decided(db, false))
    && RaiseAttention(db, role, generation, id, resume) == db
  }

  lemma WaitingRow(db: Database, role: Role, id: AssignmentId)
    requires role in db.roles && id in db.assignments
    ensures var after := AttentionWaiting(db, role, id);
            && after.assignments == db.assignments[id := db.assignments[id].(authorized := false)]
            && after.roles == db.roles[role := db.roles[role].(state := Waiting)]
  {
  }

  lemma RaiseMeans(db: Database, role: Role, generation: nat, id: AssignmentId, resume: Option<CommandId>)
    ensures var after := RaiseAttention(db, role, generation, id, resume);
            && KeepsIntegrity(db, after)
            && if Owns(db, role, generation, id, resume) then Blocked(after, role, generation, id, resume) else after == db
  {
    Monotone.QuietRaise(db, role, generation, id, resume);
    ShapedIntegrity(db, RaiseAttention(db, role, generation, id, resume));
    if Owns(db, role, generation, id, resume) {
      RaisedRow(db, role, generation, id, resume);
      RaisedBlocks(RaiseAttention(db, role, generation, id, resume), role, generation, id, resume);
    }
  }

  lemma RaisedBlocks(db: Database, role: Role, generation: nat, id: AssignmentId, resume: Option<CommandId>)
    requires Owns(db, role, generation, id, resume) && db.assignments[id].attempt == AttentionRaised && !db.assignments[id].authorized
    ensures Blocked(db, role, generation, id, resume)
  {
  }

  lemma RaisedRow(db: Database, role: Role, generation: nat, id: AssignmentId, resume: Option<CommandId>)
    requires Owns(db, role, generation, id, resume)
    ensures var after := RaiseAttention(db, role, generation, id, resume);
            Owns(after, role, generation, id, resume) && after.assignments[id].attempt == AttentionRaised && !after.assignments[id].authorized
  {
    var row := db.assignments[id];
    if row.attempt == AttentionRaised && !row.authorized {
      assert RaiseAttention(db, role, generation, id, resume) == db;
    } else {
      WaitingRow(SetAssignment(db, id, row.(attempt := AttentionRaised)), role, id);
    }
  }

  /** A role that is made to wait, after a change of its assignment's row. */
  lemma WaitsAfter(db: Database, middle: Database, role: Role, id: AssignmentId)
    requires role in db.roles && middle.roles == db.roles && middle.workflow == db.workflow && id in middle.assignments
    ensures WaitsForOperator(db, AttentionWaiting(middle, role, id), role)
  {
    WaitingRow(middle, role, id);
    WaitingWorkflow(middle, role, id);
  }

  lemma WaitingWorkflow(db: Database, role: Role, id: AssignmentId)
    requires role in db.roles && id in db.assignments
    ensures AttentionWaiting(db, role, id).workflow == if db.workflow == Uncertain || db.workflow == Ready then db.workflow else NeedsAttention
  {
  }

  lemma RaiseWaits(db: Database, role: Role, generation: nat, id: AssignmentId, resume: Option<CommandId>)
    ensures Owns(db, role, generation, id, resume) && RaiseAttention(db, role, generation, id, resume) != db ==>
              WaitsForOperator(db, RaiseAttention(db, role, generation, id, resume), role)
  {
    if Owns(db, role, generation, id, resume) {
      WaitsAfter(db, SetAssignment(db, id, db.assignments[id].(attempt := AttentionRaised)), role, id);
    }
  }

  /** A call that is answered without a grant leaves its assignment blocked and its
      role waiting; a granted one changes neither. */
  lemma ProviderAnswers(db: Database, role: Role, generation: nat, id: AssignmentId, resume: Option<CommandId>, request: RequestId)
    ensures var after := ProviderTurn(db, role, generation, id, resume, request);
            match ProviderTurnDecision(db, role, generation, id, resume, request)
            case Refused => after == db
            case Decided(_, true) => after.roles == db.roles && after.assignments == db.assignments && after.workflow == db.workflow
            case Decided(_, false) => WaitsForOperator(db, after, role) && Blocked(after, role, generation, id, resume)
  {
    match ProviderTurnDecision(db, role, generation, id, resume, request)
    case Refused =>
    case Decided(reserved, granted) =>
      assert reserved.roles == db.roles && reserved.assignments == db.assignments && reserved.workflow == db.workflow;
      if !granted { DeniedWaits(db, reserved, role, generation, id, resume); }
  }

  lemma DeniedWaits(db: Database, reserved: Database, role: Role, generation: nat, id: AssignmentId, resume: Option<CommandId>)
    requires Owns(db, role, generation, id, resume)
    requires reserved.roles == db.roles && reserved.assignments == db.assignments && reserved.workflow == db.workflow
    ensures var after := AttentionWaiting(SetAssignment(reserved, id, reserved.assignments[id].(attempt := AttentionRaised)), role, id);
            WaitsForOperator(db, after, role) && Blocked(after, role, generation, id, resume)
  {
    var raised := SetAssignment(reserved, id, reserved.assignments[id].(attempt := AttentionRaised));
    WaitsAfter(db, raised, role, id);
    WaitingRow(raised, role, id);
    RaisedBlocks(AttentionWaiting(raised, role, id), role, generation, id, resume);
  }

  /** A settlement counts once, and after the first no settlement reserves a
      reminder any more: the role waits for its recovery turn or for the operator. */
  lemma SettledOnce(db: Database, role: Role, generation: nat, id: AssignmentId, resume: Option<CommandId>, settlement: RequestId)
    requires Settles(db, role, generation, id, resume, settlement)
    ensures var after := Settle(db, role, generation, id, resume, settlement);
            && Owns(after, role, generation, id, resume) && !Settles(after, role, generation, id, resume, settlement)
            && (forall other :: !Nudges(after.assignments[id], other))
            && if Nudges(db.assignments[id], settlement)
               then && after.roles == db.roles[role := db.roles[role].(state := Waiting)] && after.workflow == db.workflow
                    && RecoveryAllowed(after.assignments[id]) && RecoveryWaiting(after.assignments[id])
               else WaitsForOperator(db, after, role)
  {
    if Nudges(db.assignments[id], settlement) {
      ReservedRow(db, role, id, settlement);
    } else {
      CountedRow(db, role, id, settlement);
    }
  }

  lemma ReservedRow(db: Database, role: Role, id: AssignmentId, settlement: RequestId)
    requires role in db.roles && id in db.assignments && Nudges(db.assignments[id], settlement)
    ensures var after := AfterSettlement(db, role, id, settlement);
            && after.assignments == db.assignments[id := Counted(db.assignments[id], settlement).(reminder := Reserved, authorized := false)]
            && after.roles == db.roles[role := db.roles[role].(state := Waiting)] && after.workflow == db.workflow
  {
  }

  lemma CountedRow(db: Database, role: Role, id: AssignmentId, settlement: RequestId)
    requires role in db.roles && id in db.assignments && !Nudges(db.assignments[id], settlement)
    ensures var after := AfterSettlement(db, role, id, settlement);
            && after.assignments == db.assignments[id := Counted(db.assignments[id], settlement).(authorized := false)]
            && WaitsForOperator(db, after, role)
  {
    var row := Counted(db.assignments[id], settlement);
    var counted := SetAssignment(db, id, row);
    WaitsAfter(db, counted, role, id);
    WaitingRow(counted, role, id);
    Twice(db.assignments, id, row, row.(authorized := false));
  }

  lemma SettleMeans(db: Database, role: Role, generation: nat, id: AssignmentId, resume: Option<CommandId>, settlement: RequestId)
    ensures KeepsIntegrity(db, Settle(db, role, generation, id, resume, settlement))
  {
    Monotone.QuietSettle(db, role, generation, id, resume, settlement);
    ShapedIntegrity(db, Settle(db, role, generation, id, resume, settlement));
  }

  lemma RecoveryMeans(db: Database, role: Role, generation: nat, id: AssignmentId, resume: Option<CommandId>)
    ensures KeepsIntegrity(db, RecoveryTurn(db, role, generation, id, resume))
  {
    Monotone.QuietRecoveryTurn(db, role, generation, id, resume);
    ShapedIntegrity(db, RecoveryTurn(db, role, generation, id, resume));
  }

  lemma ProviderMeans(db: Database, role: Role, generation: nat, id: AssignmentId, resume: Option<CommandId>, request: RequestId)
    ensures KeepsIntegrity(db, ProviderTurn(db, role, generation, id, resume, request))
  {
    Monotone.ShapedProviderTurn(db, role, generation, id, resume, request);
    ShapedIntegrity(db, ProviderTurn(db, role, generation, id, resume, request));
  }

  /** Waiting for guidance with an assignment, or in or after a handover. */
  predicate Held(row: RoleRow) {
    (row.state == Waiting && row.active.Some?) || row.state == Recovering || row.state == RoleUncertain
  }

  lemma LifecycleRows(db: Database, role: Role, state: RoleState, named: Option<Option<AssignmentId>>)
    ensures var after := Lifecycle(db, role, state, named);
            after == db || (role in db.roles && after == SetRoleState(db, role, after.roles[role].state)
                            && (Held(db.roles[role]) && state != RoleUncertain ==> after.roles[role].state == db.roles[role].state))
  {
  }

  lemma LifecycleMeans(db: Database, role: Role, state: RoleState, named: Option<Option<AssignmentId>>)
    ensures var after := Lifecycle(db, role, state, named);
            && KeepsIntegrity(db, after)
            && after.roles.Keys == db.roles.Keys
            && (forall r :: r in db.roles && Held(db.roles[r]) && state != RoleUncertain ==> after.roles[r].state == db.roles[r].state)
            && forall r :: r in db.roles && r != role ==> after.roles[r] == db.roles[r]
  {
    Monotone.QuietLifecycle(db, role, state, named);
    ShapedIntegrity(db, Lifecycle(db, role, state, named));
    LifecycleRows(db, role, state, named);
  }

  /** What a lifecycle frame does to the run: with an assignment a role that turned
      uncertain makes an unfinished run uncertain, one that waits makes it need
      attention, and one that works again makes it active unless its calls are
      paused; nothing else moves it. */
  lemma LifecycleRun(db: Database, role: Role, state: RoleState)
    ensures var after := LifecycleWorkflow(db, role, state);
            && after == db.(workflow := after.workflow)
            && (role in db.roles && db.roles[role].active.Some? && state == RoleUncertain && db.workflow != Ready ==> after.workflow == Uncertain)
            && (role in db.roles && db.roles[role].active.Some? && state == Waiting && db.workflow !in {Ready, Uncertain} ==> after.workflow == NeedsAttention)
            && (role in db.roles && db.roles[role].active.Some? && state == Working && db.workflow == NeedsAttention && !db.paused ==> after.workflow == Active)
            && (after != db ==> role in db.roles && db.roles[role].active.Some? && db.workflow !in {Ready, Uncertain}
                                && (state == Working ==> db.workflow == NeedsAttention && !db.paused))
  {
  }

  /** What a reconnect writes: an assignment that was never acknowledged leaves
      everything uncertain; one that has to wait is spent and waits; a handover that
      is confirmed replays its assignment under a new delivery. */
  lemma ReconnectRows(db: Database, role: Role, id: AssignmentId, delivery: DeliveryId)
    requires role in db.roles && id in db.assignments && db.assignments[id].role == role
    ensures db.assignments[id].state in {Delivering, DeliveryUncertain} ==>
              var after := RecoverUncertain(db, role, id);
              && after.assignments == db.assignments[id := db.assignments[id].(state := DeliveryUncertain)] && after.workflow == Uncertain
              && after.roles == db.roles[role := db.roles[role].(state := RoleUncertain)]
    ensures db.assignments[id].state != Completed ==>
              var after := RecoverWaiting(db, role, id);
              && WaitsForOperator(db, after, role) && id in after.assignments && !after.assignments[id].authorized
              && after.assignments[id].reminder == (if db.assignments[id].reminder == Reserved then Used else db.assignments[id].reminder)
    ensures db.assignments[id].state != Completed && FreshDelivery(db, delivery) ==>
              RotateDelivery(db, role, id, delivery).assignments == db.assignments[id := db.assignments[id].(delivery := delivery, state := Delivering)]
    ensures RecoverIdle(db, role).roles == db.roles[role := db.roles[role].(state := Idle)]
  {
    if db.assignments[id].state != Completed { SpentWaits(db, role, id); }
    if db.assignments[id].state in {Delivering, DeliveryUncertain} {
      assert RecoverUncertain(db, role, id) == Unsure(db, role, id);
      UnsureRows(db, role, id);
    }
    RotatedRow(db, role, id, delivery);
  }

  lemma RotatedRow(db: Database, role: Role, id: AssignmentId, delivery: DeliveryId)
    requires role in db.roles && id in db.assignments && db.assignments[id].role == role
    ensures db.assignments[id].state != Completed && FreshDelivery(db, delivery) ==>
              RotateDelivery(db, role, id, delivery).assignments == db.assignments[id := db.assignments[id].(delivery := delivery, state := Delivering)]
    ensures RecoverIdle(db, role).roles == db.roles[role := db.roles[role].(state := Idle)]
  {
  }

  lemma SpentWaits(db: Database, role: Role, id: AssignmentId)
    requires WaitsToRecover(db, role, id)
    ensures var after := RecoverWaiting(db, role, id);
            && WaitsForOperator(db, after, role) && id in after.assignments && !after.assignments[id].authorized
            && after.assignments[id].reminder == (if db.assignments[id].reminder == Reserved then Used else db.assignments[id].reminder)
  {
    var middle := SetAssignment(db, id, Spent(db.assignments[id]));
    WaitsAfter(db, middle, role, id);
    WaitingRow(middle, role, id);
  }

  lemma UnsureRows(db: Database, role: Role, id: AssignmentId)
    requires role in db.roles && id in db.assignments
    ensures var after := Unsure(db, role, id);
            && after.assignments == db.assignments[id := db.assignments[id].(state := DeliveryUncertain)] && after.workflow == Uncertain
            && after.roles == db.roles[role := db.roles[role].(state := RoleUncertain)]
  {
  }

  // ----- guidance -----

  /** Only the live assignment of the role was changed: it is in the epoch of the
      command, frames of any other epoch are refused, and neither a reconnect nor
      an earlier signal makes it wait. */
  ghost predicate OnlyGuided(db: Database, after: Database, command: CommandId, role: Role)
    requires role in db.roles
  {
    var live := db.roles[role].active;
    && (forall id :: id in db.assignments && Some(id) != live ==> id in after.assignments && after.assignments[id] == db.assignments[id])
    && (live.Some? && live.value in db.assignments ==>
          && live.value in after.assignments
          && !RecoveryWaiting(after.assignments[live.value])
          && (forall generation, resume :: Owns(after, role, generation, live.value, resume) ==> resume == Some(command))
          && forall generation, request ::
               ProviderTurnDecision(after, role, generation, live.value, Some(command), request)
               == if Owns(after, role, generation, live.value, Some(command))
                  then Reserve(after, request, role, live.value, generation, Some(command)) else Refused)
  }

  /** Guidance is accepted in a run that needs attention only for a role that waits
      with an assignment it accepted. */
  lemma SendStatus(db: Database, id: CommandId, action: Action, role: Role, link: Link)
    ensures var status := ControlStatus(db, id, action, role, link);
            && (role !in db.roles || id in db.commands ==> status == None)
            && ((action == Send || action == Abort) && status.Some? ==> (status != Some(StatusUncertain) <==> link.connected))
            && (action == Send && status.Some? && link.connected ==>
                  (status == Some(StatusAccepted) <==>
                     db.workflow == NeedsAttention ==>
                       && db.roles[role].state == Waiting && db.roles[role].active.Some? && db.roles[role].active.value in db.assignments
                       && db.assignments[db.roles[role].active.value].state == Accepted))
  {
  }

  /** Every other command: what its receipt says, and what it leaves. */
  lemma CommandStatus(db: Database, id: CommandId, action: Action, role: Role, link: Link)
    ensures var status, after := ControlStatus(db, id, action, role, link), Control(db, id, action, role, link);
            && (|db.commands| >= 4096 && action != RestartFailed ==> status == None)
            && (status == None ==> after == db)
            && (role in db.roles && id !in db.commands && |db.commands| < 4096 && action == Abort ==>
                  status == Some(if link.connected then StatusAccepted else StatusUncertain))
            && (action == Continue && status.Some? ==> (status != Some(StatusUncertain) <==> link.connected && link.baseline))
  {
    match action
    case RestartFailed =>
    case ExtendCalls(_) =>
    case Continue =>
    case Restart =>
    case _ =>
  }

  lemma RestartStatus(db: Database, id: CommandId, role: Role, link: Link)
    ensures var status, after := ControlStatus(db, id, Restart, role, link), Control(db, id, Restart, role, link);
            && (status.Some? ==> (status != Some(StatusUncertain) <==> link.baseline))
            && (status == Some(StatusAccepted) ==>
                  after.roles == db.roles[role := db.roles[role].(generation := db.roles[role].generation + 1, state := Restarting)])
            && (role in db.roles && id !in db.commands && |db.commands| < 4096 && link.baseline && link.launchable ==> status == Some(StatusAccepted))
  {
  }

  lemma FailedStatus(db: Database, id: CommandId, role: Role, link: Link)
    ensures var status, after := ControlStatus(db, id, RestartFailed, role, link), Control(db, id, RestartFailed, role, link);
            && (status.Some? ==> (status == Some(StatusAccepted) <==> db.roles[role].state in {Restarting, Recovering, RoleUncertain}))
            && (status.Some? && UnderWay(db.roles[role]) ==>
                  after.workflow == Uncertain && role in after.roles && after.roles[role].state == RoleUncertain)
  {
    if role in db.roles && UnderWay(db.roles[role]) { FailedRows(db, role); }
  }

  lemma FailedRows(db: Database, role: Role)
    requires role in db.roles
    ensures var after := MarkHandoverUncertain(db, role); after.workflow == Uncertain && role in after.roles && after.roles[role].state == RoleUncertain
  {
  }

  lemma ExtendStatus(db: Database, id: CommandId, amount: int, role: Role, link: Link)
    ensures var status, after := ControlStatus(db, id, ExtendCalls(amount), role, link), Control(db, id, ExtendCalls(amount), role, link);
            && (status == Some(StatusConflict) ==> !db.paused || db.limits == map[])
            && (status == Some(StatusAccepted) ==>
                  && db.paused && !after.paused && after.limits.Keys == db.limits.Keys
                  && forall scope :: scope in db.limits ==> after.limits[scope] == db.limits[scope] + amount)
  {
  }

  /** An extension that fits is accepted while calls are paused. */
  lemma ExtensionAccepted(db: Database, id: CommandId, amount: int, link: Link)
    requires Implementer in db.roles && id !in db.commands && |db.commands| < 4096 && db.paused && db.limits != map[]
    requires 1 <= amount <= 1_000_000 && forall scope :: scope in db.limits ==> db.limits[scope] + amount <= 1_000_000
    ensures ControlStatus(db, id, ExtendCalls(amount), Implementer, link) == Some(StatusAccepted)
  {
  }

  /** A run is safely paused with a repair pending, a cap, and nobody at work,
      waiting, uncertain or under handover. */
  lemma SafelyPausedMeans(db: Database)
    ensures SafelyPaused(db) <==>
            && db.workflow == NeedsAttention && db.pending.Some? && db.cap.Some?
            && forall r :: r in db.roles ==> db.roles[r].active == None && (db.roles[r].state == Idle || db.roles[r].state == Disconnected)
  {
    forall r | r in db.roles
      ensures (db.roles[r].state == Idle || db.roles[r].state == Disconnected)
              <==> !db.roles[r].state.Working? && !db.roles[r].state.Waiting? && !db.roles[r].state.Restarting?
                   && !db.roles[r].state.Recovering? && !db.roles[r].state.RoleUncertain?
    {
    }
  }

  /** The approved cap leaves room for one more repair than were admitted. */
  lemma ApprovedCap(db: Database)
    requires db.cap.Some? && Implementer in db.roles
    ensures var after := ControlEffect(db, 0, Continue, Implementer);
            && after.cap.Some? && after.cap.value > |RepairRounds(db)| && after.cap.value > db.cap.value
            && (after.cap.value == db.cap.value + 1 || after.cap.value == |RepairRounds(db)| + 1) && RepairRounds(after) == RepairRounds(db)
  {
  }

  /** The role works; the run is active once no other role waits, and needs
      attention as long as its calls are paused. */
  ghost predicate Woken(db: Database, after: Database, role: Role) {
    && role in db.roles && after.roles == db.roles[role := db.roles[role].(state := Working)]
    && after.workflow ==
       if exists r :: r in db.roles && r != role && db.roles[r].state == Waiting && db.roles[r].active.Some? then db.workflow
       else if db.paused then NeedsAttention else Active
  }

  lemma WokenBy(db: Database, command: CommandId, role: Role)
    requires role in db.roles
    ensures Woken(db, Resume(db, command, role, true), role)
  {
    var bound := ResumeBound(db, command, role);
    assert bound.roles == db.roles && bound.workflow == db.workflow && bound.paused == db.paused;
    WakesRole(bound, role);
  }

  lemma WakesRole(db: Database, role: Role)
    requires role in db.roles
    ensures Woken(db, Wake(db, role), role)
  {
    var woken := SetRoleState(db, role, Working);
    forall r | r in db.roles && r != role ensures r in woken.roles && woken.roles[r] == db.roles[r] {
    }
    if exists r :: r in db.roles && r != role && db.roles[r].state == Waiting && db.roles[r].active.Some? {
      var r :| r in db.roles && r != role && db.roles[r].state == Waiting && db.roles[r].active.Some?;
      assert r in woken.roles && woken.roles[r].state == Waiting;
    }
  }

  lemma WakeRows(db: Database, role: Role)
    requires role in db.roles
    ensures Wake(db, role).assignments == db.assignments
  {
  }

  /** Guidance that is written late changes what it should, whatever happened since
      it was checked; a reopening keeps integrity if what was read still holds. */
  lemma PlanMeans(db: Database, command: CommandId, role: Role, plan: Plan)
    requires role in db.roles
    ensures var after := PlanEffect(db, command, role, plan);
            match plan
            case Reopening(round) =>
              && after.assignments == db.assignments && after.roles == db.roles && after.round == round
              && (round == db.round + 1 && Integrity.NoneActive(db) ==> KeepsIntegrity(db, after))
            case Guiding(_) => KeepsIntegrity(db, after) && OnlyGuided(db, after, command, role)
            case Aborting => after == db
  {
    match plan
    case Reopening(round) => ReopeningMeans(db, round);
    case Guiding(waking) => GuidingMeans(db, command, role, waking);
    case Aborting =>
  }

  lemma ReopeningMeans(db: Database, round: nat)
    ensures var after := Advance(db, round);
            && after.assignments == db.assignments && after.roles == db.roles && after.round == round
            && (round == db.round + 1 && Integrity.NoneActive(db) ==> KeepsIntegrity(db, after))
  {
    AdvancedRows(db, round);
    if round == db.round + 1 && Integrity.NoneActive(db) { AdvanceKeeps(db, round); }
  }

  lemma AdvancedRows(db: Database, round: nat)
    ensures var after := Advance(db, round); after.assignments == db.assignments && after.roles == db.roles && after.round == round
  {
  }

  lemma GuidingMeans(db: Database, command: CommandId, role: Role, waking: bool)
    requires role in db.roles
    ensures var after := Resume(db, command, role, waking);
            KeepsIntegrity(db, after) && OnlyGuided(db, after, command, role)
  {
    Monotone.ShapedResume(db, command, role, waking);
    ShapedIntegrity(db, Resume(db, command, role, waking));
    WakeRows(ResumeBound(db, command, role), role);
    ResumedOnly(db, command, role, waking);
  }

  lemma AdvanceKeeps(db: Database, round: nat)
    requires Integrity.NoneActive(db) && round == db.round + 1
    ensures KeepsIntegrity(db, Advance(db, round))
  {
    forall config | Integrity.Sound(config, db) ensures Integrity.Sound(config, Advance(db, round)) {
      Integrity.AdvanceSound(config, db);
    }
  }

  lemma ResumedOnly(db: Database, command: CommandId, role: Role, waking: bool)
    requires role in db.roles && Wake(ResumeBound(db, command, role), role).assignments == ResumeBound(db, command, role).assignments
    ensures OnlyGuided(db, Resume(db, command, role, waking), command, role)
  {
    var after := Resume(db, command, role, waking);
    assert after.assignments == ResumeBound(db, command, role).assignments;
    match db.roles[role].active
    case None =>
    case Some(a) => if a in db.assignments { GuidedDecides(after, command, role, a); }
  }

  lemma GuidedDecides(db: Database, command: CommandId, role: Role, id: AssignmentId)
    requires id in db.assignments && db.assignments[id].resume == Some(command) && db.assignments[id].authorized
    ensures !RecoveryWaiting(db.assignments[id])
    ensures forall generation, resume :: Owns(db, role, generation, id, resume) ==> resume == Some(command)
    ensures forall generation, request ::
              ProviderTurnDecision(db, role, generation, id, Some(command), request)
              == if Owns(db, role, generation, id, Some(command))
                 then Reserve(db, request, role, id, generation, Some(command)) else Refused
  {
  }
}
