/** The worker extension's closure variables as an object, its handlers as
    methods in the order in which they write. */

module WorkerSession {
  import opened Options
  import opened Tables
  import opened Journal
  import opened Worker

  /** No signal raised in an epoch up to `epoch` sets the recovery flag any more. */
  ghost predicate Outdated(w: Live, epoch: nat) {
    forall id, e: nat :: e <= epoch ==> AttentionAcknowledged(w, id, e) == w
  }

  lemma AcknowledgedInv(w: Live, id: AssignmentId, epoch: nat)
    requires Inv(w)
    ensures Inv(AttentionAcknowledged(w, id, epoch))
  {
    AttentionInv(w, AttentionAck(id, epoch));
    assert forall policy :: Inv(Handled(policy, w, AttentionAck(id, epoch)));
    assert Handled(Policy(map[], map[]), w, AttentionAck(id, epoch)) == AttentionAcknowledged(w, id, epoch);
  }

  lemma SettledInv(w: Live, run: AssignmentId, resume: Option<CommandId>, settlement: RequestId)
    requires Inv(w)
    ensures Inv(AgentSettled(w, run, resume, settlement))
  {
    AttentionInv(w, Settle(run, resume, settlement));
    assert Handled(Policy(map[], map[]), w, Settle(run, resume, settlement)) == AgentSettled(w, run, resume, settlement);
  }

  lemma RecordedInv(w: Live, id: AssignmentId, settlement: RequestId)
    requires Inv(w)
    ensures Inv(SettlementRecorded(w, id, settlement))
  {
    AttentionInv(w, SettlementAck(id, settlement));
    assert Handled(Policy(map[], map[]), w, SettlementAck(id, settlement)) == SettlementRecorded(w, id, settlement);
  }

  lemma RemindedInv(w: Live, id: AssignmentId, resume: Option<CommandId>)
    requires Inv(w)
    ensures Inv(Worker.AcceptReminder(w, id, resume))
  {
    AttentionInv(w, Remind(id, resume));
    assert Handled(Policy(map[], map[]), w, Remind(id, resume)) == Worker.AcceptReminder(w, id, resume);
  }

  lemma AcceptKeeps(w: Live, e: Envelope, usage: Usage)
    ensures Inv(w) ==> Inv(Worker.AcceptDelivery(w, e, usage).live)
  {
    if Inv(w) { AcceptInv(w, e, usage); }
  }

  class Session {
    var delivered: set<DeliveryId>
    var assignmentIds: set<AssignmentId>
    var activeAssignment: Option<Work>
    var attentionState: Attention
    var guardrailState: Guard
    var guidanceEpoch: nat
    var reminderPending: bool
    var started: seq<DeliveryId>
    var entries: seq<Entry>

    ghost function View(): Live reads this {
      Live(delivered, assignmentIds, activeAssignment, attentionState, guardrailState, guidanceEpoch, reminderPending, started, entries)
    }

    constructor ()
      ensures View() == Fresh
    {
      delivered, assignmentIds, activeAssignment := {}, {}, None;
      attentionState, guardrailState := Calm, Unguarded;
      guidanceEpoch, reminderPending, started, entries := 0, false, [], [];
    }

    /** Session start: everything but the journal is forgotten and restored. */
    method Restore()
      modifies this
      ensures View() == Restarted(old(View()))
      ensures Inv(old(View())) ==> Inv(View())
    {
      if Inv(View()) { RestartInv(View()); }
      var restored;
      delivered, assignmentIds, restored := RestoreWorkerState(entries);
      activeAssignment := restored;
      var id := if restored.Some? then Some(restored.value.id) else None;
      attentionState := RestoreAttentionState(entries, id);
      guardrailState := RestoreGuardrailState(entries, id);
      guidanceEpoch, reminderPending := 0, false;
    }

    method AppendEntry(entry: Entry)
      modifies this`entries
      ensures View() == Record(old(View()), entry)
    {
      entries := entries + [entry];
    }

    method RecordAttentionState(patch: Patch)
      modifies this`entries
      ensures View() == RecordAttention(old(View()), patch)
    {
      if activeAssignment.None? { return; }
      AppendEntry(AttentionChanged(activeAssignment.value.id, patch));
    }

    method SyncRecoveryState(waiting: Option<bool>, resume: Option<CommandId>)
      modifies this
      ensures View() == Sync(old(View()), waiting, resume)
      ensures Inv(old(View())) ==> Inv(View())
      ensures waiting == Some(true) ==> forall id, epoch :: !ReminderApplies(View(), id, epoch)
      ensures waiting.Some? && resume != old(attentionState.resume) ==> Outdated(View(), old(guidanceEpoch))
      ensures waiting.None? ==> View() == old(View())
      ensures waiting.Some? ==>
        var changed := resume != old(attentionState.resume);
        && attentionState == Attention(waiting.value, old(attentionState.reminderSeen) || waiting.value,
                                       if changed then None else old(attentionState.settlement), resume)
        && guidanceEpoch == (if changed then old(guidanceEpoch) + 1 else old(guidanceEpoch)) && !reminderPending
    {
      if Inv(View()) { SyncInv(View(), waiting, resume); }
      if waiting.None? { return; }
      if resume != attentionState.resume {
        guidanceEpoch := guidanceEpoch + 1;
        attentionState := attentionState.(settlement := None);
      }
      attentionState := attentionState.(resume := resume);
      attentionState := attentionState.(recovery := waiting.value);
      if waiting.value { attentionState := attentionState.(reminderSeen := true); }
      reminderPending := false;
      RecordAttentionState(Patch(Some(attentionState.recovery), Some(attentionState.reminderSeen), Some(attentionState.settlement), Some(resume)));
    }

    method AcceptOperatorGuidance(e: Envelope)
      requires e.ForContext?
      modifies this
      ensures View() == Guide(old(View()), e)
      ensures Inv(old(View())) ==> Inv(View())
      ensures e.operator && e.owner == ActiveId(old(View())) ==> Outdated(View(), old(guidanceEpoch)) && !attentionState.recovery
      ensures e.operator && e.owner == ActiveId(old(View())) ==>
        && attentionState == Attention(false, old(attentionState.reminderSeen), None, e.resume)
        && guidanceEpoch == old(guidanceEpoch) + 1 && !reminderPending
      ensures !(e.operator && e.owner == ActiveId(old(View()))) ==> View() == old(View())
    {
      if Inv(View()) { GuideInv(View(), e); }
      if !e.operator || e.owner != (if activeAssignment.Some? then Some(activeAssignment.value.id) else None) { return; }
      guidanceEpoch := guidanceEpoch + 1;
      attentionState := attentionState.(recovery := false);
      attentionState := attentionState.(resume := e.resume);
      attentionState := attentionState.(settlement := None);
      reminderPending := false;
      RecordAttentionState(Patch(Some(false), None, Some(None), Some(attentionState.resume)));
    }

    method ActivateAssignment(e: Envelope, usage: Usage)
      requires e.ForAssignment?
      modifies this
      ensures View() == Activate(old(View()), e, usage)
      ensures Inv(old(View())) && !StaleOwner(old(View()), e) ==> Opening(View(), e)
      ensures guardrailState == if ActiveId(old(View())) == Some(e.id) then old(guardrailState) else Unguarded
      ensures ActiveId(old(View())) == Some(e.id) ==> activeAssignment.value.baseline == old(activeAssignment).value.baseline
      ensures e.waiting.None? ==> entries == old(entries) && attentionState == AttentionOf(old(entries), e.id)
      ensures e.waiting.Some? ==> attentionState.recovery == e.waiting.value && attentionState.resume == e.resume
    {
      if Inv(View()) && !StaleOwner(View(), e) { ActivateOpens(View(), e, usage); }
      var same := activeAssignment.Some? && activeAssignment.value.id == e.id;
      var baseline := if same then activeAssignment.value.baseline else Some(usage);
      if !same { guardrailState := Unguarded; }
      activeAssignment := Some(Work(e.id, e.round, e.kind, baseline));
      attentionState := RestoreAttentionState(entries, Some(e.id));
      SyncRecoveryState(e.waiting, e.resume);
    }

    method AcceptDelivery(e: Envelope, usage: Usage) returns (ack: Ack)
      modifies this
      ensures View() == Worker.AcceptDelivery(old(View()), e, usage).live
      ensures ack == Worker.AcceptDelivery(old(View()), e, usage).ack
      ensures Inv(old(View())) ==> Inv(View())
      ensures Inv(old(View())) ==>
                && (ack == AckDuplicate <==> e.delivery in Journal.ScanAll(old(entries)).delivered)
                && (ack == AckUncertain <==> e.delivery !in Journal.ScanAll(old(entries)).delivered && Untaken(old(View()), e))
                && (ack == AckUncertain <==> e.delivery !in Journal.ScanAll(entries).delivered)
                && (ack == AckUncertain ==> View() == old(View()))
                && started == old(started) + (if ack == AckAccepted && e.trigger then [e.delivery] else [])
    {
      if Inv(View()) { AcceptAnswers(View(), e, usage); }
      AcceptKeeps(View(), e, usage);
      var activeId := if activeAssignment.Some? then Some(activeAssignment.value.id) else None;
      if e.delivery in delivered {
        if e.ForAssignment? && activeId == Some(e.id) { SyncRecoveryState(e.waiting, e.resume); }
        return AckDuplicate;
      }
      var stale :=
        if e.ForAssignment? then e.id in assignmentIds && activeId != Some(e.id)
        else e.operator && e.trigger && (activeAssignment.None? || e.owner != activeId);
      if stale { return AckUncertain; }
      AcceptNew(e, usage);
      return AckAccepted;
    }

    /** A delivery that is neither known nor stale: memory is bound before the turn
        can start, and the entries follow. */
    method AcceptNew(e: Envelope, usage: Usage)
      modifies this
      ensures View() == Note(Bound(Start(Bind(old(View()), e, usage), e), e), e)
    {
      if e.ForAssignment? { ActivateAssignment(e, usage); } else { AcceptOperatorGuidance(e); }
      if e.trigger { started := started + [e.delivery]; }
      if e.ForAssignment? && e.id !in assignmentIds {
        AppendEntry(Boundary(e.id, activeAssignment.value.baseline));
        assignmentIds := assignmentIds + {e.id};
      }
      AppendEntry(if e.ForAssignment? then AssignmentDelivered(e.delivery, e.id, e.round, e.kind) else ContextDelivered(e.delivery));
      delivered := delivered + {e.delivery};
    }

    method AcceptReminder(id: AssignmentId, resume: Option<CommandId>) returns (scheduled: bool)
      modifies this
      ensures View() == Worker.AcceptReminder(old(View()), id, resume)
      ensures scheduled == ReminderApplies(old(View()), id, resume)
      ensures Inv(old(View())) ==> Inv(View())
      ensures !ReminderApplies(View(), id, resume)
      ensures scheduled <==> ActiveId(old(View())) == Some(id) && old(attentionState).resume == resume
                             && !old(attentionState).recovery && !old(attentionState).reminderSeen
      ensures scheduled ==> attentionState == old(attentionState).(recovery := true, reminderSeen := true) && reminderPending
      ensures !scheduled ==> View() == old(View())
    {
      if Inv(View()) { RemindedInv(View(), id, resume); }
      if activeAssignment.None? || activeAssignment.value.id != id || attentionState.resume != resume
         || attentionState.recovery || attentionState.reminderSeen
      { return false; }
      attentionState := attentionState.(recovery := true);
      attentionState := attentionState.(reminderSeen := true);
      reminderPending := true;
      RecordAttentionState(Patch(Some(true), Some(true), None, None));
      return true;
    }

    method AcceptClosedAssignment(id: AssignmentId)
      modifies this
      ensures View() == AcceptClosed(old(View()), id)
      ensures Inv(old(View())) ==> Inv(View()) && ActiveId(Restarted(View())) != Some(id)
      ensures ActiveId(old(View())) != Some(id) ==> View() == old(View())
      ensures ActiveId(old(View())) == Some(id) ==>
        activeAssignment == None && guardrailState == Unguarded && attentionState == Calm && entries == old(entries) + [ReportDelivered(id)]
    {
      if Inv(View()) { ClosedInv(View(), id); }
      if activeAssignment.None? || activeAssignment.value.id != id { return; }
      AppendEntry(ReportDelivered(id));
      activeAssignment := None;
      guardrailState := Unguarded;
      attentionState := Calm;
    }

    method FinishReport(id: AssignmentId)
      modifies this
      ensures View() == Worker.ReportAccepted(old(View()), id)
      ensures Inv(old(View())) ==> Inv(View()) && ActiveId(Restarted(View())) != Some(id)
      ensures ActiveId(old(View())) != Some(id) ==> View() == old(View()).(journal := entries)
      ensures entries == old(entries) + [ReportDelivered(id)]
      ensures ActiveId(old(View())) == Some(id) ==> activeAssignment == None && guardrailState == Unguarded
    {
      if Inv(View()) { ClosedInv(View(), id); }
      AppendEntry(ReportDelivered(id));
      if activeAssignment.Some? && activeAssignment.value.id == id {
        activeAssignment := None;
        guardrailState := Unguarded;
      }
    }

    method FinishAttention(id: AssignmentId, epoch: nat)
      modifies this
      ensures View() == AttentionAcknowledged(old(View()), id, epoch)
      ensures Inv(old(View())) ==> Inv(View())
      ensures guidanceEpoch != epoch || ActiveId(View()) != Some(id) ==> View() == old(View())
      ensures Inv(old(View())) && guidanceEpoch == epoch && ActiveId(View()) == Some(id) ==> Restarted(View()).attention.recovery
    {
      if Inv(View()) { AcknowledgedInv(View(), id, epoch); }
      if activeAssignment.Some? && activeAssignment.value.id == id && guidanceEpoch == epoch {
        attentionState := attentionState.(recovery := true);
        RecordAttentionState(Patch(Some(true), None, None, None));
      }
    }

    method OnAgentSettled(run: AssignmentId, resume: Option<CommandId>, settlement: RequestId)
      modifies this
      ensures View() == AgentSettled(old(View()), run, resume, settlement)
      ensures Inv(old(View())) ==> Inv(View())
      ensures forall again :: AgentSettled(View(), run, resume, again) == View()
      ensures old(attentionState).settlement.Some? ==> View() == old(View())
      ensures ActiveId(old(View())) == Some(run) && old(attentionState).resume == resume && old(attentionState).settlement.None? ==>
        attentionState == old(attentionState).(settlement := Some(settlement))
      ensures ActiveId(old(View())) != Some(run) || old(attentionState).resume != resume ==> View() == old(View())
    {
      if Inv(View()) { SettledInv(View(), run, resume, settlement); }
      if activeAssignment.Some? && activeAssignment.value.id == run && attentionState.resume == resume {
        if attentionState.settlement.None? {
          attentionState := attentionState.(settlement := Some(settlement));
          RecordAttentionState(Patch(None, None, Some(attentionState.settlement), None));
        }
      }
    }

    method FinishSettlement(id: AssignmentId, settlement: RequestId)
      modifies this
      ensures View() == SettlementRecorded(old(View()), id, settlement)
      ensures Inv(old(View())) ==> Inv(View())
      ensures ActiveId(View()) == Some(id) ==> attentionState.settlement != Some(settlement)
      ensures old(attentionState).settlement != Some(settlement) ==> View() == old(View())
      ensures attentionState == old(attentionState) || attentionState == old(attentionState).(settlement := None)
    {
      if Inv(View()) { RecordedInv(View(), id, settlement); }
      if activeAssignment.Some? && activeAssignment.value.id == id && attentionState.settlement == Some(settlement) {
        attentionState := attentionState.(settlement := None);
        RecordAttentionState(Patch(None, None, Some(None), None));
      }
    }

    method RecordPendingGuardrail(level: Level, thresholds: Thresholds, observed: map<Metric, real>)
      modifies this
      ensures View() == EvaluateLevel(old(View()), level, thresholds, observed)
      ensures Inv(old(View())) && ValidThresholds(thresholds) ==> Inv(View())
      ensures Inv(old(View())) && ValidThresholds(thresholds) && OneFinding(old(entries)) ==> OneFinding(entries)
      ensures Existing(old(guardrailState), level).Some? ==> View() == old(View())
      ensures View() != old(View()) <==>
        && activeAssignment.Some? && Existing(old(guardrailState), level) == None
        && exists metric :: metric in thresholds && metric in observed && thresholds[metric] <= observed[metric]
      ensures View() != old(View()) ==>
        exists metric :: metric in thresholds && metric in observed && thresholds[metric] <= observed[metric]
          && entries == old(entries) + [GuardTriggered(activeAssignment.value.id, level, Finding(metric, observed[metric], thresholds[metric]))]
          && Existing(guardrailState, level) == Some(Finding(metric, observed[metric], thresholds[metric]))
          && forall other :: other in thresholds && other in observed && thresholds[other] <= observed[other] ==> !Sooner(other, metric)
    {
      CrossingFound(thresholds, observed);
      if Inv(View()) && ValidThresholds(thresholds) { EvaluateInv(View(), level, thresholds, observed); }
      if Inv(View()) && OneFinding(entries) { EvaluatedOnce(View(), level, thresholds, observed); }
      if activeAssignment.None? || Existing(guardrailState, level).Some? { return; }
      var finding := FirstFinding(thresholds, observed);
      if finding.None? { return; }
      guardrailState := if level == Warning then guardrailState.(warning := finding) else guardrailState.(hard := finding);
      AppendEntry(GuardTriggered(activeAssignment.value.id, level, finding.value));
    }

    method DeliverGuardrailWarning(reporting: bool) returns (shown: bool)
      modifies this
      ensures View() == ShowWarning(old(View()), reporting)
      ensures shown == (View() != old(View()))
      ensures shown <==> activeAssignment.Some? && !reporting && old(guardrailState).warning.Some? && !old(guardrailState).shown
      ensures shown ==> guardrailState.shown && entries == old(entries) + [WarningShown(activeAssignment.value.id)]
      ensures Inv(old(View())) ==> Inv(View())
    {
      if Inv(View()) { ShowInv(View(), reporting); }
      if activeAssignment.None? || reporting || guardrailState.warning.None? || guardrailState.shown { return false; }
      AppendEntry(WarningShown(activeAssignment.value.id));
      guardrailState := guardrailState.(shown := true);
      return true;
    }
  }
}
