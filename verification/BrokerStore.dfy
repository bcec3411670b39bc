/** The broker's store as an object: its handlers update rows step by step, in
    the order of their statements, and commit what the transaction functions say. */

module BrokerStore {
  import opened Options
  import opened Tables
  import opened Transactions
  import opened Runs
  import opened Effects
  import Ceilings
  import Repair

  class Store {
    var workflow: Workflow
    var round: nat
    var paused: bool
    var limits: map<CallScope, nat>
    var cap: Option<nat>
    var pending: Option<nat>
    var roles: map<Role, RoleRow>
    var assignments: map<AssignmentId, Assignment>
    var reports: map<AssignmentId, Tables.Report>
    var activations: map<(Role, nat), bool>
    var admissions: map<RequestId, Admission>
    var commands: map<CommandId, Command>

    function View(): Database reads this {
      Database(workflow, round, paused, limits, cap, pending, roles, assignments, reports, activations, admissions, commands)
    }

    constructor (config: Config)
      ensures View() == InitialDatabase(config)
    {
      workflow, round, paused, limits, cap, pending := Starting, 1, false, config.limits, config.cap, None;
      roles := map r | r in config.Roles() :: RoleRow(Disconnected, false, None, 1);
      assignments, reports, activations, admissions, commands := map[], map[], map[], map[], map[];
    }

    // ----- single statements -----

    method SetMetaWorkflow(value: Workflow)
      modifies this`workflow
      ensures View() == SetWorkflow(old(View()), value)
    {
      var stored := value;
      if (value == Active || value == Ready) && paused { stored := NeedsAttention; }
      workflow := stored;
    }

    method UpdateRole(role: Role, state: RoleState)
      requires role in roles
      modifies this`roles
      ensures View() == SetRoleState(old(View()), role, state)
    {
      roles := roles[role := roles[role].(state := state)];
    }

    method UpdateAssignment(id: AssignmentId, row: Assignment)
      modifies this`assignments
      ensures View() == SetAssignment(old(View()), id, row)
    {
      assignments := assignments[id := row];
    }

    method AttentionWaiting(role: Role, id: AssignmentId)
      requires role in roles && id in assignments
      modifies this`assignments, this`roles, this`workflow
      ensures View() == Transactions.AttentionWaiting(old(View()), role, id)
      ensures KeepsIntegrity(old(View()), View())
      ensures assignments == old(assignments)[id := old(assignments)[id].(authorized := false)]
      ensures roles == old(roles)[role := old(roles)[role].(state := Waiting)]
      ensures workflow == if old(workflow) == Uncertain || old(workflow) == Ready then old(workflow) else NeedsAttention
      ensures roles[role].active.Some? ==> Unmoved(View(), role)
    {
      WaitingMeans(View(), role, id);
      UpdateAssignment(id, assignments[id].(authorized := false));
      UpdateRole(role, Waiting);
      if workflow != Uncertain && workflow != Ready { SetMetaWorkflow(NeedsAttention); }
    }

    // ----- start, connection and handover -----

    /** Reconciles what a previous broker left behind: the workflow first, then
        every handover that was under way, role by role. */
    method Reconcile()
      modifies this`workflow, this`roles
      ensures View() == Boot(old(View()))
      ensures KeepsIntegrity(old(View()), View())
      ensures workflow != Starting && workflow != Routing && workflow != Initializing
      ensures forall r :: r in roles ==> roles[r].state != Restarting && roles[r].state != Recovering
      ensures roles.Keys == old(roles).Keys
      ensures forall r :: r in old(roles) ==>
        roles[r] == if UnderWay(old(roles)[r]) then old(roles)[r].(state := RoleUncertain, connected := false) else old(roles)[r]
      ensures (exists r :: r in old(roles) && UnderWay(old(roles)[r])) ==> workflow == Uncertain
      ensures (forall r :: r in old(roles) ==> !UnderWay(old(roles)[r])) ==>
        workflow == match old(workflow) case Starting => Connecting case Routing => Uncertain case Initializing => Uncertain case other => other
    {
      ReconcileTables();
      BootMeans(old(View()));
      BootRows(old(View()));
    }

    method ReconcileTables()
      modifies this`workflow, this`roles
      ensures View() == Boot(old(View()))
    {
      if workflow == Starting {
        SetMetaWorkflow(Connecting);
      } else if workflow == Routing || workflow == Initializing {
        SetMetaWorkflow(Uncertain);
      }
      var interrupted := set r | r in roles && (roles[r].state == Restarting || roles[r].state == Recovering);
      assert interrupted == Interrupted(old(View()));
      if interrupted != {} {
        SetMetaWorkflow(Uncertain);
        FailInterrupted(interrupted);
      }
      assert View() == Boot(old(View()));
    }

    method FailInterrupted(interrupted: set<Role>)
      requires interrupted <= roles.Keys
      modifies this`roles
      ensures roles == FailHandovers(old(View()), interrupted).roles
    {
      var left := interrupted;
      ghost var before := roles;
      while left != {}
        invariant left <= interrupted && roles.Keys == before.Keys
        invariant forall r :: r in before ==>
          roles[r] == if r in interrupted && r !in left then before[r].(state := RoleUncertain, connected := false) else before[r]
        decreases |left|
      {
        var r :| r in left;
        roles := roles[r := roles[r].(state := RoleUncertain, connected := false)];
        left := left - {r};
      }
    }

    method Hello(role: Role, generation: nat) returns (accepted: bool)
      modifies this`roles
      ensures View() == Transactions.Hello(old(View()), role, generation)
      ensures accepted <==> role in old(roles) && old(roles)[role].generation == generation
      ensures !accepted ==> View() == old(View())
      ensures accepted ==> KeepsIntegrity(old(View()), View()) && LeavesAsItCame(old(View()), View(), role, generation)
      ensures accepted ==> roles[role].connected && roles[role].active == old(roles)[role].active
                           && roles[role].state == if old(roles)[role].state == Restarting then Recovering else Idle
      ensures forall r :: r in old(roles) && r != role ==> r in roles && roles[r] == old(roles)[r]
    {
      HelloMeans(View(), role, generation);
      HelloRows(View(), role, generation);
      if role !in roles || roles[role].generation != generation { return false; }
      var handover := roles[role].state == Restarting;
      roles := roles[role := roles[role].(connected := true, state := if handover then Recovering else Idle)];
      return true;
    }

    method MarkUncertain(role: Role)
      modifies this`roles, this`workflow
      ensures View() == MarkHandoverUncertain(old(View()), role)
    {
      if role !in roles { return; }
      UpdateRole(role, RoleUncertain);
      SetMetaWorkflow(Uncertain);
    }

    method ClientGone(role: Role, generation: nat)
      modifies this`roles, this`workflow
      ensures View() == Disconnect(old(View()), role, generation)
      ensures KeepsIntegrity(old(View()), View())
      ensures Disconnect(View(), role, generation) == View()
      ensures workflow != old(workflow) ==> role in old(roles) && old(roles)[role].state == Recovering && old(roles)[role].generation == generation
      ensures role in old(roles) && old(roles)[role].state == Restarting ==> roles[role].state == Restarting
      ensures role in old(roles) ==> role in roles && roles == old(roles)[role := roles[role]] && !roles[role].connected
      ensures role in old(roles) && old(roles)[role].state == Recovering && old(roles)[role].generation == generation ==>
        roles[role].state == RoleUncertain && workflow == Uncertain
      ensures role in old(roles) && old(roles)[role].state !in {Restarting, Recovering, RoleUncertain} ==> roles[role].state == Disconnected
    {
      if role in roles { SetGone(role, generation); }
      GoneMeans(old(View()), role, generation);
    }

    method SetGone(role: Role, generation: nat)
      requires role in roles
      modifies this`roles, this`workflow
      ensures View() == Disconnect(old(View()), role, generation)
    {
      var state := roles[role].state;
      if state == Recovering && roles[role].generation == generation {
        MarkUncertain(role);
      } else if state != Restarting && state != Recovering && state != RoleUncertain {
        UpdateRole(role, Disconnected);
      }
      roles := roles[role := roles[role].(connected := false)];
    }

    // ----- deliveries -----

    method HandleDeliveryAck(role: Role, delivery: DeliveryId, accepted: bool)
      modifies this`assignments, this`roles, this`workflow
      ensures View() == Acknowledge(old(View()), role, delivery, accepted)
      ensures KeepsIntegrity(old(View()), View())
      ensures Acknowledge(View(), role, delivery, accepted) == View()
      ensures forall id :: id in old(assignments) && old(assignments)[id].delivery != delivery ==>
        id in assignments && assignments[id] == old(assignments)[id]
      ensures Answers(old(View()), role, delivery) ==>
        var id, row := old(roles)[role].active.value, old(roles)[role];
        if accepted
        then
          && assignments == old(assignments)[id := old(assignments)[id].(state := Accepted)] && workflow == old(workflow)
          && roles == old(roles)[role := row.(state := if row.state in {Disconnected, Idle, Recovering} then Working else row.state)]
        else
          && assignments == old(assignments)[id := old(assignments)[id].(state := DeliveryUncertain)] && workflow == Uncertain
          && roles == old(roles)[role := row.(state := RoleUncertain)]
      ensures !Answers(old(View()), role, delivery) ==> View() == old(View())
      ensures Answers(old(View()), role, delivery) <==>
        && role in old(roles) && old(roles)[role].active.Some? && old(roles)[role].active.value in old(assignments)
        && var row := old(assignments)[old(roles)[role].active.value];
           row.delivery == delivery && row.role == role && row.state != Completed
    {
      RecordAck(role, delivery, accepted);
      AcknowledgeMeans(old(View()), role, delivery, accepted);
      if Answers(old(View()), role, delivery) { AnsweredRows(old(View()), role, delivery, accepted); }
    }

    /** The acknowledgement of the live delivery of a role. */
    method RecordAck(role: Role, delivery: DeliveryId, accepted: bool)
      modifies this`assignments, this`roles, this`workflow
      ensures View() == Acknowledge(old(View()), role, delivery, accepted)
    {
      if role !in roles || roles[role].active.None? || roles[role].active.value !in assignments { return; }
      var id := roles[role].active.value;
      var row := assignments[id];
      if row.delivery != delivery || row.role != role || row.state == Completed { return; }
      UpdateAssignment(id, row.(state := if accepted then Accepted else DeliveryUncertain));
      var state := roles[role].state;
      if accepted && (state == Disconnected || state == Idle || state == Recovering) {
        UpdateRole(role, Working);
      }
      if !accepted {
        UpdateRole(role, RoleUncertain);
        SetMetaWorkflow(Uncertain);
      }
    }

    method StoreAssignment(role: Role, kind: Kind, forRound: nat, id: AssignmentId, delivery: DeliveryId) returns (sent: bool)
      requires Assignable(View(), role, id, delivery)
      modifies this`assignments, this`roles, this`pending, this`workflow
      ensures View() == Transactions.Assign(old(View()), role, kind, forRound, id, delivery)
      ensures sent <==> !RepairLimitReached(old(View()), role, kind, forRound)
      ensures sent ==>
        && assignments == old(assignments)[id := NewAssignment(role, kind, forRound, delivery)]
        && roles == old(roles)[role := old(roles)[role].(active := Some(id), state := Working)]
        && (pending.Some? ==> pending == old(pending) && !(role == Implementer && kind == Implementation && forRound > 1))
      ensures !sent ==> assignments == old(assignments) && roles == old(roles) && pending == Some(forRound) && workflow == NeedsAttention
    {
      var atLimit := LimitReached(role, kind, forRound);
      if atLimit {
        SetMetaWorkflow(NeedsAttention);
        pending := Some(forRound);
        return false;
      }
      assignments := assignments[id := NewAssignment(role, kind, forRound, delivery)];
      roles := roles[role := roles[role].(active := Some(id), state := Working)];
      if role == Implementer && kind == Implementation && forRound > 1 && pending.Some? {
        pending := None;
        SetMetaWorkflow(Active);
      }
      return true;
    }

    method LimitReached(role: Role, kind: Kind, forRound: nat) returns (reached: bool)
      ensures reached <==> RepairLimitReached(View(), role, kind, forRound)
      ensures reached <==> role == Implementer && kind == Implementation && forRound > 1 && cap.Some? && |Repair.Repaired(View())| >= cap.value
    {
      if role != Implementer || kind != Implementation || forRound <= 1 || cap.None? { return false; }
      var used := CountRepairRounds();
      return used >= cap.value;
    }

    /** The distinct repair rounds among the stored assignments. */
    method CountRepairRounds() returns (used: nat)
      ensures used == |RepairRounds(View())|
      ensures used == |Repair.Repaired(View())|
    {
      Repair.RepairedRounds(View());
      var rounds: set<nat> := {};
      var left := assignments.Keys;
      while left != {}
        invariant left <= assignments.Keys
        invariant rounds == set id | id in assignments && id !in left && IsRepair(assignments[id]) :: assignments[id].round
        decreases |left|
      {
        var id :| id in left;
        if assignments[id].role == Implementer && assignments[id].kind == Implementation && assignments[id].round > 1 {
          rounds := rounds + {assignments[id].round};
        }
        left := left - {id};
      }
      assert rounds == RepairRounds(View());
      return |rounds|;
    }

    // ----- worker frames -----

    method IsReportable(role: Role, id: AssignmentId, kind: Kind) returns (reportable: bool)
      ensures reportable <==> Reportable(View(), role, id, kind)
    {
      if role !in roles || id !in assignments || id in reports { return false; }
      var row := assignments[id];
      return row.role == role && row.kind == kind && (row.state == Delivering || row.state == Accepted) && roles[role].active == Some(id);
    }

    method HandleReport(role: Role, generation: nat, id: AssignmentId, kind: Kind, verdict: Verdict) returns (accepted: bool)
      modifies this`assignments, this`reports, this`roles
      ensures View() == AcceptReport(old(View()), role, generation, id, kind, verdict)
      ensures accepted <==> Reportable(old(View()), role, id, kind)
      ensures accepted <==> Unreported(old(View()), role, id, kind)
      ensures KeepsIntegrity(old(View()), View())
      ensures accepted ==>
        && reports == old(reports)[id := Report(role, old(assignments)[id].round, kind, verdict)]
        && assignments == old(assignments)[id := old(assignments)[id].(state := Completed, attempt := ReportAccepted)]
        && roles == old(roles)[role := old(roles)[role].(active := None, state := Idle)]
      ensures accepted ==> !Reportable(View(), role, id, kind) && DuplicateReport(View(), role, id, kind)
      ensures DuplicateReport(old(View()), role, id, kind) ==> View() == old(View())
      ensures !accepted ==> reports == old(reports) && roles == old(roles) && forall i :: i != id && i in old(assignments) ==>
        i in assignments && assignments[i] == old(assignments)[i]
    {
      ReportMeans(View(), role, generation, id, kind, verdict);
      ReportableMeans(View(), role, id, kind);
      accepted := IsReportable(role, id, kind);
      if accepted {
        Complete(role, id, kind, verdict);
      } else {
        var duplicate := id in assignments && assignments[id].role == role && assignments[id].kind == kind && id in reports;
        if !duplicate { RecordReportRejection(role, generation, id); }
      }
    }

    method Complete(role: Role, id: AssignmentId, kind: Kind, verdict: Verdict)
      requires role in roles && id in assignments
      modifies this`assignments, this`reports, this`roles
      ensures View() == Completing(old(View()), role, id, kind, verdict)
    {
      reports := reports[id := Report(role, assignments[id].round, kind, verdict)];
      UpdateAssignment(id, assignments[id].(state := Completed, attempt := ReportAccepted));
      roles := roles[role := roles[role].(active := None, state := Idle)];
    }

    method RecordReportRejection(role: Role, generation: nat, id: AssignmentId)
      modifies this`assignments
      ensures View() == RecordRejection(old(View()), role, generation, id)
      ensures KeepsIntegrity(old(View()), View())
      ensures RecordRejection(View(), role, generation, id) == View()
      ensures forall r, i, k :: Reportable(View(), r, i, k) <==> Reportable(old(View()), r, i, k)
      ensures role in roles && roles[role].active == Some(id) && roles[role].generation == generation && id in old(assignments)
              && old(assignments)[id].role == role && old(assignments)[id].attempt == NoAttempt
              && (old(assignments)[id].state == Delivering || old(assignments)[id].state == Accepted)
              ==> id in assignments && assignments[id] == old(assignments)[id].(attempt := Rejected)
    {
      RejectionMeans(View(), role, generation, id);
      if && role in roles && roles[role].active == Some(id) && roles[role].generation == generation
         && id in assignments && assignments[id].role == role && assignments[id].attempt == NoAttempt
         && (assignments[id].state == Delivering || assignments[id].state == Accepted)
      {
        UpdateAssignment(id, assignments[id].(attempt := Rejected));
      }
    }

    method HandleAttention(role: Role, generation: nat, id: AssignmentId, resume: Option<CommandId>)
      modifies this`assignments, this`roles, this`workflow
      ensures View() == RaiseAttention(old(View()), role, generation, id, resume)
      ensures KeepsIntegrity(old(View()), View())
      ensures if Owns(old(View()), role, generation, id, resume) then Blocked(View(), role, generation, id, resume) else View() == old(View())
      ensures Owns(old(View()), role, generation, id, resume) && RaiseAttention(old(View()), role, generation, id, resume) != old(View()) ==>
        WaitsForOperator(old(View()), View(), role)
      ensures Owns(old(View()), role, generation, id, resume) <==>
        && role in old(roles) && old(roles)[role].active == Some(id) && old(roles)[role].generation == generation
        && id in old(assignments) && old(assignments)[id].resume == resume
        && (old(assignments)[id].state == Delivering || old(assignments)[id].state == Accepted)
    {
      RaiseMeans(View(), role, generation, id, resume);
      RaiseWaits(View(), role, generation, id, resume);
      if !Owns(View(), role, generation, id, resume) { return; }
      var duplicate := assignments[id].attempt == AttentionRaised && !assignments[id].authorized;
      if !duplicate { Raise(role, id); }
    }

    method HandleSettlement(role: Role, generation: nat, id: AssignmentId, resume: Option<CommandId>, settlement: RequestId) returns (nudge: bool)
      modifies this`assignments, this`roles, this`workflow
      ensures View() == Settle(old(View()), role, generation, id, resume, settlement)
      ensures nudge <==> Owns(old(View()), role, generation, id, resume) && Nudges(old(assignments)[id], settlement)
      ensures nudge <==>
        && Owns(old(View()), role, generation, id, resume)
        && old(assignments)[id].lastSettlement != Some(settlement) && old(assignments)[id].settlements == 0
        && old(assignments)[id].reminder == NoReminder && old(assignments)[id].attempt != AttentionRaised
      ensures KeepsIntegrity(old(View()), View())
      ensures nudge ==> && roles == old(roles)[role := old(roles)[role].(state := Waiting)] && workflow == old(workflow)
                        && RecoveryAllowed(assignments[id]) && RecoveryWaiting(assignments[id])
      ensures Settles(old(View()), role, generation, id, resume, settlement) ==>
        && !Settles(View(), role, generation, id, resume, settlement)
        && forall other :: !(Owns(View(), role, generation, id, resume) && Nudges(assignments[id], other))
      ensures Settles(old(View()), role, generation, id, resume, settlement) && !nudge ==> WaitsForOperator(old(View()), View(), role)
      ensures !Settles(old(View()), role, generation, id, resume, settlement) ==> View() == old(View())
    {
      SettleMeans(View(), role, generation, id, resume, settlement);
      if Settles(View(), role, generation, id, resume, settlement) { SettledOnce(View(), role, generation, id, resume, settlement); }
      if !Owns(View(), role, generation, id, resume) || assignments[id].lastSettlement == Some(settlement) { return false; }
      nudge := CountSettlement(role, id, settlement);
    }

    /** A settlement that was not counted before. */
    method CountSettlement(role: Role, id: AssignmentId, settlement: RequestId) returns (nudge: bool)
      requires role in roles && id in assignments && assignments[id].lastSettlement != Some(settlement)
      modifies this`assignments, this`roles, this`workflow
      ensures nudge <==> Nudges(old(assignments)[id], settlement)
      ensures View() == AfterSettlement(old(View()), role, id, settlement)
    {
      var row := assignments[id];
      var count := if row.settlements + 1 < 2 then row.settlements + 1 else 2;
      var counted := row.(settlements := count, lastSettlement := Some(settlement));
      UpdateAssignment(id, counted);
      nudge := count == 1 && row.reminder == NoReminder && row.attempt != AttentionRaised;
      if nudge {
        ReserveReminder(role, id);
        Overwritten(old(assignments), id, counted, counted.(reminder := Reserved, authorized := false));
      } else {
        AttentionWaiting(role, id);
      }
    }

    method ReserveReminder(role: Role, id: AssignmentId)
      requires role in roles && id in assignments
      modifies this`assignments, this`roles
      ensures View() == SetRoleState(SetAssignment(old(View()), id, old(assignments)[id].(reminder := Reserved, authorized := false)), role, Waiting)
    {
      UpdateAssignment(id, assignments[id].(reminder := Reserved, authorized := false));
      UpdateRole(role, Waiting);
    }

    method HandleRecoveryTurn(role: Role, generation: nat, id: AssignmentId, resume: Option<CommandId>) returns (allowed: bool)
      modifies this`assignments, this`roles, this`workflow
      ensures View() == RecoveryTurn(old(View()), role, generation, id, resume)
      ensures allowed <==> Owns(old(View()), role, generation, id, resume) && RecoveryAllowed(old(assignments)[id])
      ensures allowed <==> Owns(old(View()), role, generation, id, resume)
                           && old(assignments)[id].reminder == Reserved && old(assignments)[id].attempt != AttentionRaised
      ensures KeepsIntegrity(old(View()), View())
      ensures allowed ==> roles == old(roles)[role := old(roles)[role].(state := Working)] && !RecoveryAllowed(assignments[id])
      ensures Owns(old(View()), role, generation, id, resume) && !allowed ==> WaitsForOperator(old(View()), View(), role)
    {
      RecoveryMeans(View(), role, generation, id, resume);
      if !Owns(View(), role, generation, id, resume) { return false; }
      allowed := assignments[id].reminder == Reserved && assignments[id].attempt != AttentionRaised;
      if allowed {
        UpdateAssignment(id, assignments[id].(reminder := Used));
        UpdateRole(role, Working);
      } else {
        AttentionWaiting(role, id);
      }
    }

    // ----- provider-call admission -----

    /** The granted rows one ceiling counts. */
    method CountGranted(scope: CallScope, role: Role, id: AssignmentId) returns (used: nat)
      ensures used == |GrantedIn(admissions, scope, role, id)|
      ensures scope == RunScope ==> used == |Ceilings.Granted(View())|
      ensures scope == RoleScope ==> used == |Ceilings.GrantedTo(View(), role)|
      ensures scope == AssignmentScope ==> used == |Ceilings.GrantedFor(View(), id)|
    {
      used := 0;
      var left := admissions.Keys;
      ghost var counted: set<RequestId> := {};
      while left != {}
        invariant left <= admissions.Keys && used == |counted|
        invariant forall q :: q in counted <==> q in admissions && q !in left && admissions[q].granted && InScope(scope, admissions[q], role, id)
        decreases |left|
      {
        var q :| q in left;
        left := left - {q};
        if admissions[q].granted && InScope(scope, admissions[q], role, id) {
          used := used + 1;
          counted := counted + {q};
        }
      }
      assert counted == GrantedIn(admissions, scope, role, id);
      Ceilings.ScopesCount(View(), role, id);
    }

    method ReserveProviderTurn(request: RequestId, role: Role, id: AssignmentId, generation: nat, resume: Option<CommandId>)
      returns (decided: bool, granted: bool)
      modifies this`admissions, this`paused
      ensures match Reserve(old(View()), request, role, id, generation, resume)
              case Refused => !decided && View() == old(View())
              case Decided(after, allowed) => decided && granted == allowed && View() == after
      ensures old(limits) != map[] && request !in old(admissions) ==>
                && decided
                && (granted <==>
                    && |old(admissions)| < MAX_CALL_ALLOWANCE && !old(paused)
                    && (RunScope in limits ==> |Ceilings.Granted(old(View()))| < limits[RunScope])
                    && (RoleScope in limits ==> |Ceilings.GrantedTo(old(View()), role)| < limits[RoleScope])
                    && (AssignmentScope in limits ==> |Ceilings.GrantedFor(old(View()), id)| < limits[AssignmentScope]))
      ensures request in old(admissions) ==> !granted && admissions == old(admissions)
    {
      if limits != map[] && request !in admissions { Ceilings.ReserveDecides(View(), request, role, id, generation, resume); }
      if limits == map[] { return false, false; }
      if request in admissions {
        var previous := admissions[request];
        return previous.role == role && previous.assignment == id && previous.generation == generation && previous.resume == resume, false;
      }
      if |admissions| >= MAX_CALL_ALLOWANCE {
        paused := true;
        return true, false;
      }
      granted := HasRoom(role, id);
      granted := granted && !paused;
      admissions := admissions[request := Admission(role, id, generation, resume, granted)];
      if !granted { paused := true; }
      decided := true;
    }

    /** Every retained ceiling has room for one more turn. */
    method HasRoom(role: Role, id: AssignmentId) returns (room: bool)
      ensures room == UnderCeilings(View(), role, id)
    {
      room := true;
      var left := limits.Keys;
      while left != {}
        invariant left <= limits.Keys
        invariant room <==> forall s :: s in limits && s !in left ==> |GrantedIn(admissions, s, role, id)| < limits[s]
        decreases |left|
      {
        var scope :| scope in left;
        left := left - {scope};
        var used := CountGranted(scope, role, id);
        room := room && used < limits[scope];
      }
    }

    method HandleProviderTurn(role: Role, generation: nat, id: AssignmentId, resume: Option<CommandId>, request: RequestId) returns (allowed: bool)
      modifies this`admissions, this`paused, this`assignments, this`roles, this`workflow
      ensures View() == ProviderTurn(old(View()), role, generation, id, resume, request)
      ensures allowed <==> match ProviderTurnDecision(old(View()), role, generation, id, resume, request)
                           case Refused => false
                           case Decided(_, granted) => granted
      ensures KeepsIntegrity(old(View()), View())
      ensures ProviderTurnDecision(old(View()), role, generation, id, resume, request).Decided? && !allowed ==>
        WaitsForOperator(old(View()), View(), role) && Blocked(View(), role, generation, id, resume)
      ensures allowed ==> roles == old(roles) && assignments == old(assignments) && workflow == old(workflow)
    {
      ProviderMeans(View(), role, generation, id, resume, request);
      ProviderAnswers(View(), role, generation, id, resume, request);
      if !Owns(View(), role, generation, id, resume) { return false; }
      var decided := true;
      if assignments[id].attempt == AttentionRaised && !assignments[id].authorized {
        allowed := false;
      } else {
        decided, allowed := ReserveProviderTurn(request, role, id, generation, resume);
      }
      if !decided { return false; }
      if !allowed { Raise(role, id); }
    }

    /** The assignment carries a raised attention and waits. */
    method Raise(role: Role, id: AssignmentId)
      requires role in roles && id in assignments
      modifies this`assignments, this`roles, this`workflow
      ensures View() == Transactions.AttentionWaiting(SetAssignment(old(View()), id, old(assignments)[id].(attempt := AttentionRaised)), role, id)
    {
      UpdateAssignment(id, assignments[id].(attempt := AttentionRaised));
      AttentionWaiting(role, id);
    }

    /** Every retained ceiling grows by the same amount, and the pause ends. */
    method ExtendCallAllowance(amount: nat)
      modifies this`limits, this`paused
      ensures View() == old(View()).(limits := map scope | scope in old(limits) :: old(limits)[scope] + amount, paused := false)
    {
      var extended: map<CallScope, nat> := map[];
      var left := limits.Keys;
      while left != {}
        invariant left <= limits.Keys && extended.Keys == limits.Keys - left
        invariant forall s :: s in extended ==> extended[s] == limits[s] + amount
        decreases |left|
      {
        var scope :| scope in left;
        extended := extended[scope := limits[scope] + amount];
        left := left - {scope};
      }
      assert extended == map scope | scope in limits :: limits[scope] + amount;
      limits := extended;
      paused := false;
    }

    // ----- lifecycle -----

    method HandleLifecycle(role: Role, state: RoleState, named: Option<Option<AssignmentId>>)
      modifies this`roles
      ensures View() == Lifecycle(old(View()), role, state, named)
      ensures KeepsIntegrity(old(View()), View())
      ensures forall r :: r in old(roles) && Held(old(roles)[r]) && state != RoleUncertain ==> roles[r].state == old(roles)[r].state
      ensures forall r :: r in old(roles) && r != role ==> r in roles && roles[r] == old(roles)[r]
      ensures role in old(roles) && !Held(old(roles)[role]) && state in {Idle, Working, RoleUncertain}
              && (named.Some? ==> named.value == old(roles)[role].active && (old(roles)[role].state != Waiting || state == RoleUncertain))
              ==> roles == old(roles)[role := old(roles)[role].(state := state)]
      ensures named.Some? && role in old(roles) && named.value != old(roles)[role].active ==> roles == old(roles)
    {
      StoreLifecycle(role, state, named);
      LifecycleMeans(old(View()), role, state, named);
    }

    method StoreLifecycle(role: Role, state: RoleState, named: Option<Option<AssignmentId>>)
      modifies this`roles
      ensures View() == Lifecycle(old(View()), role, state, named)
    {
      if role !in roles || (state != Idle && state != Working && state != Waiting && state != RoleUncertain) { return; }
      var row := roles[role];
      var retained := state;
      if (row.state == Recovering || row.state == RoleUncertain) && state != RoleUncertain { retained := row.state; }
      if named.None? {
        if row.state == Waiting && row.active.Some? && state != RoleUncertain { return; }
      } else {
        if named.value != row.active { return; }
        if state == Waiting || (row.state == Waiting && state != RoleUncertain) { return; }
      }
      UpdateRole(role, retained);
    }

    // ----- operator control -----

    method FailRestart(role: Role) returns (status: Status)
      requires role in roles
      modifies this`roles, this`workflow
      ensures status == if old(roles)[role].state.Restarting? || old(roles)[role].state.Recovering? || old(roles)[role].state.RoleUncertain?
                        then StatusAccepted else StatusConflict
      ensures View() == ControlEffect(old(View()), 0, RestartFailed, role)
      ensures UnderWay(old(roles)[role]) ==> workflow == Uncertain && roles == old(roles)[role := old(roles)[role].(state := RoleUncertain)]
      ensures !UnderWay(old(roles)[role]) ==> View() == old(View())
    {
      var state := roles[role].state;
      if state == Restarting || state == Recovering {
        MarkUncertain(role);
        return StatusAccepted;
      }
      return if state == RoleUncertain then StatusAccepted else StatusConflict;
    }

    /** One more repair round than admitted so far or retained as the cap; refused
        where the policy allows no more. */
    method ApproveContinuation() returns (status: Option<Status>)
      requires Implementer in roles
      modifies this`cap, this`workflow
      ensures status == if !SafelyPaused(old(View())) then Some(StatusConflict)
                        else if RaisedCap(old(View())) > MAX_REPAIR_ROUNDS then None else Some(StatusAccepted)
      ensures View() == if status == Some(StatusAccepted) then ControlEffect(old(View()), 0, Continue, Implementer) else old(View())
      ensures status != Some(StatusConflict) <==>
        && old(workflow) == NeedsAttention && pending.Some? && old(cap).Some?
        && forall r :: r in roles ==> roles[r].active == None && (roles[r].state == Idle || roles[r].state == Disconnected)
      ensures status == Some(StatusAccepted) ==>
        && workflow == Routing && old(cap).Some? && cap.Some? && cap.value > |RepairRounds(View())| && cap.value > old(cap).value
        && (cap.value == old(cap).value + 1 || cap.value == |RepairRounds(View())| + 1)
        && (pending.Some? ==> !RepairLimitReached(View(), Implementer, Implementation, pending.value))
    {
      SafelyPausedMeans(View());
      status := RaiseCap();
      if status == Some(StatusAccepted) { ApprovedCap(old(View())); }
    }

    method RaiseCap() returns (status: Option<Status>)
      requires Implementer in roles
      modifies this`cap, this`workflow
      ensures status == if !SafelyPaused(old(View())) then Some(StatusConflict)
                        else if RaisedCap(old(View())) > MAX_REPAIR_ROUNDS then None else Some(StatusAccepted)
      ensures View() == if status == Some(StatusAccepted) then ControlEffect(old(View()), 0, Continue, Implementer) else old(View())
    {
      if !SafelyPaused(View()) { return Some(StatusConflict); }
      var used := CountRepairRounds();
      var raised := (if cap.value < used then used else cap.value) + 1;
      if raised > MAX_REPAIR_ROUNDS { return None; }
      cap := Some(raised);
      SetMetaWorkflow(Routing);
      return Some(StatusAccepted);
    }

    method RequestRestart(role: Role)
      requires role in roles
      modifies this`roles
      ensures View() == ControlEffect(old(View()), 0, Restart, role)
      ensures roles == old(roles)[role := old(roles)[role].(generation := old(roles)[role].generation + 1, state := Restarting)]
    {
      roles := roles[role := roles[role].(generation := roles[role].generation + 1, state := Restarting)];
    }

    /** What guidance is going to write, from the workflow state before it is sent. */
    method PlanSend(role: Role) returns (plan: Plan)
      ensures plan == Planned(View(), Send, role)
      ensures plan.Reopening? <==> workflow == Ready && role == Implementer
      ensures plan.Reopening? ==> plan.round == round + 1
      ensures !plan.Reopening? ==> plan == Guiding(workflow == NeedsAttention)
    {
      if workflow == Ready && role == Implementer { return Reopening(round + 1); }
      return Guiding(workflow == NeedsAttention);
    }

    /** Once it is sent, guidance opens the round it was planned for, or binds and
        wakes the assignment that its role holds by now. */
    method OperatorSend(command: CommandId, role: Role, plan: Plan)
      requires role in roles
      modifies this`assignments, this`roles, this`workflow, this`round
      ensures View() == PlanEffect(old(View()), command, role, plan)
      ensures plan.Reopening? ==> assignments == old(assignments) && roles == old(roles) && round == plan.round
      ensures plan.Reopening? && plan.round == old(round) + 1 && Integrity.NoneActive(old(View())) ==> KeepsIntegrity(old(View()), View())
      ensures plan.Guiding? ==> KeepsIntegrity(old(View()), View()) && OnlyGuided(old(View()), View(), command, role)
      ensures plan == Guiding(true) ==> Woken(old(View()), View(), role)
      ensures plan == Guiding(false) ==> roles == old(roles) && workflow == old(workflow)
      ensures plan == Aborting ==> View() == old(View())
    {
      match plan {
        case Reopening(next) => AdvanceRound(next);
        case Guiding(waking) =>
          BindGuidance(command, role);
          if waking { WakeRole(role); }
        case Aborting =>
      }
      PlanMeans(old(View()), command, role, plan);
      if plan == Guiding(true) { WokenBy(old(View()), command, role); }
    }

    method BindGuidance(command: CommandId, role: Role)
      requires role in roles
      modifies this`assignments
      ensures View() == ResumeBound(old(View()), command, role)
    {
      var active := roles[role].active;
      if active.Some? && active.value in assignments {
        UpdateAssignment(active.value, assignments[active.value].(resume := Some(command), authorized := true));
      }
    }

    method WakeRole(role: Role)
      requires role in roles
      modifies this`roles, this`workflow
      ensures View() == Wake(old(View()), role)
    {
      UpdateRole(role, Working);
      if !OtherWaiting(View(), role) { SetMetaWorkflow(Active); }
    }

    /** A new command: its receipt is stored with its effect, in one transaction,
        unless it is to be sent first; then nothing is stored yet. */
    method HandleControl(command: CommandId, action: Action, role: Role, link: Link) returns (status: Option<Status>, plan: Option<Plan>)
      modifies this
      ensures status == ControlStatus(old(View()), command, action, role, link)
      ensures View() == Control(old(View()), command, action, role, link)
      ensures plan == if status == Some(StatusAccepted) && Awaits(action) then Some(Planned(old(View()), action, role)) else None
      ensures plan.Some? ==> View() == old(View())
      ensures status.Some? && plan.None? ==> command in commands && commands[command] == Command(action, role, status.value)
      ensures status == Some(StatusConflict) || status == Some(StatusUncertain) ==> View() == old(View()).(commands := commands)
      ensures command in old(commands) || role !in old(roles) ==> status == None
      ensures |old(commands)| >= 4096 && action != RestartFailed ==> status == None
      ensures status == None ==> View() == old(View())
      ensures action == Restart && status.Some? ==> (status != Some(StatusUncertain) <==> link.baseline)
      ensures action == Restart && status == Some(StatusAccepted) ==>
        roles == old(roles)[role := old(roles)[role].(generation := old(roles)[role].generation + 1, state := Restarting)]
      ensures action == RestartFailed && status.Some? ==>
        (status == Some(StatusAccepted) <==> old(roles)[role].state in {Restarting, Recovering, RoleUncertain})
      ensures action.ExtendCalls? && status == Some(StatusAccepted) ==>
        && old(paused) && !paused && limits.Keys == old(limits).Keys
        && forall scope :: scope in old(limits) ==> limits[scope] == old(limits)[scope] + action.amount
      ensures (action == Send || action == Abort) && status.Some? ==> (status != Some(StatusUncertain) <==> link.connected)
      ensures action == Send && status.Some? && link.connected ==>
        (status == Some(StatusAccepted) <==>
          old(workflow) == NeedsAttention ==>
            && old(roles)[role].state == Waiting && old(roles)[role].active.Some? && old(roles)[role].active.value in old(assignments)
            && old(assignments)[old(roles)[role].active.value].state == Accepted)
      ensures plan.Some? && action == Send ==>
        if old(workflow) == Ready && role == Implementer then plan.value == Reopening(old(round) + 1)
        else plan.value == Guiding(old(workflow) == NeedsAttention)
    {
      status, plan := AnswerControl(command, action, role, link);
      SendStatus(old(View()), command, action, role, link);
      CommandStatus(old(View()), command, action, role, link);
      match action {
        case Restart => RestartStatus(old(View()), command, role, link);
        case RestartFailed => FailedStatus(old(View()), command, role, link);
        case ExtendCalls(amount) => ExtendStatus(old(View()), command, amount, role, link);
        case _ =>
      }
    }

    method AnswerControl(command: CommandId, action: Action, role: Role, link: Link) returns (status: Option<Status>, plan: Option<Plan>)
      modifies this
      ensures status == ControlStatus(old(View()), command, action, role, link)
      ensures View() == Control(old(View()), command, action, role, link)
      ensures plan == if status == Some(StatusAccepted) && Awaits(action) then Some(Planned(old(View()), action, role)) else None
    {
      if role !in roles || command in commands || (action.Continue? && role != Implementer)
         || (action.ExtendCalls? && (role != Implementer || !(1 <= action.amount <= MAX_CALL_ALLOWANCE)))
      { return None, None; }
      var state := roles[role].state;
      if |commands| >= MAX_COMMANDS && !(action == RestartFailed && (state == Restarting || state == Recovering)) { return None, None; }
      var answer := Act(command, action, role, link);
      if answer.None? { return None, None; }
      if answer.value == StatusAccepted && action == Send {
        var guidance := PlanSend(role);
        return answer, Some(guidance);
      }
      if answer.value == StatusAccepted && action == Abort { return answer, Some(Aborting); }
      commands := commands[command := Command(action, role, answer.value)];
      return answer, None;
    }

    /** A command that was sent is written with its receipt. Nothing that was read
        for it is read again; a second receipt of one identity is refused, and the
        whole transaction with it. */
    method FinishControl(command: CommandId, role: Role, plan: Plan) returns (written: bool)
      requires role in roles
      modifies this`assignments, this`roles, this`workflow, this`round, this`commands
      ensures written == (command !in old(commands))
      ensures View() == Finish(old(View()), command, role, plan)
      ensures !written ==> View() == old(View())
      ensures written ==> commands == old(commands)[command := Command(PlanAction(plan), role, StatusAccepted)]
    {
      if command in commands { return false; }
      OperatorSend(command, role, plan);
      commands := commands[command := Command(PlanAction(plan), role, StatusAccepted)];
      return true;
    }

    /** The effect of a command that is admitted, and what its receipt will say;
        None when it is refused after all. */
    method Act(command: CommandId, action: Action, role: Role, link: Link) returns (answer: Option<Status>)
      requires role in roles && command !in commands
      requires action.Continue? || action.ExtendCalls? ==> role == Implementer
      requires action.ExtendCalls? ==> 1 <= action.amount <= MAX_CALL_ALLOWANCE
      requires |commands| < MAX_COMMANDS || (action == RestartFailed && (roles[role].state.Restarting? || roles[role].state.Recovering?))
      modifies this`workflow, this`paused, this`limits, this`cap, this`roles
      ensures answer == ControlStatus(old(View()), command, action, role, link)
      ensures View() == if answer == Some(StatusAccepted) then ControlEffect(old(View()), command, action, role) else old(View())
    {
      match action {
        case RestartFailed =>
          var failed := FailRestart(role);
          return Some(failed);
        case ExtendCalls(amount) =>
          if !paused || limits == map[] { return Some(StatusConflict); }
          if exists scope :: scope in limits && limits[scope] + amount > MAX_CALL_ALLOWANCE { return None; }
          ExtendCallAllowance(amount);
          return Some(StatusAccepted);
        case Continue =>
          if !link.connected || !link.baseline { return Some(StatusUncertain); }
          var approved := ApproveContinuation();
          return approved;
        case Restart =>
          if !link.baseline { return Some(StatusUncertain); }
          if !link.launchable { return None; }
          RequestRestart(role);
          return Some(StatusAccepted);
        case Abort => return Some(if link.connected then StatusAccepted else StatusUncertain);
        case Send =>
          if !link.connected { return Some(StatusUncertain); }
          if SendConflicts(View(), role) { return Some(StatusConflict); }
          return Some(StatusAccepted);
      }
    }

    // ----- routing -----

    /** One immutable decision per specialist and round. */
    method ActivateRound(specialists: seq<Role>, forRound: nat, run: set<Role>)
      modifies this`activations
      ensures View() == Activate(old(View()), specialists, forRound, run)
      ensures forall key :: key in old(activations) ==> key in activations && activations[key] == old(activations)[key]
      ensures forall s :: s in specialists && (s, forRound) !in old(activations) ==>
        (s, forRound) in activations && activations[(s, forRound)] == (s in run)
      ensures forall key :: key in activations && key !in old(activations) ==> key.0 in specialists && key.1 == forRound
    {
      ghost var before := activations;
      for i := 0 to |specialists|
        invariant forall key :: key in before ==> key in activations && activations[key] == before[key]
        invariant forall key :: key in activations && key !in before ==> key.1 == forRound && key.0 in specialists[..i] && activations[key] == (key.0 in run)
        invariant forall k :: 0 <= k < i ==> (specialists[k], forRound) in activations
      {
        if (specialists[i], forRound) !in activations {
          activations := activations[(specialists[i], forRound) := specialists[i] in run];
        }
      }
      assert activations == Activate(old(View()), specialists, forRound, run).activations;
    }

    method AdvanceRound(next: nat)
      modifies this`round, this`workflow
      ensures View() == Advance(old(View()), next)
    {
      round := next;
      SetMetaWorkflow(Active);
    }
  }

  lemma Overwritten<K, V>(m: map<K, V>, k: K, a: V, b: V)
    ensures m[k := a][k := b] == m[k := b]
  {
  }
}
