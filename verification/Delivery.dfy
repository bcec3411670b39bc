/** Broker and worker together: the store of the one, the journal of the other,
    and between them frames that may be lost, delayed and reordered. */

module Delivery {
  import opened Options
  import opened Tables
  import opened Transactions
  import opened Runs
  import opened Monotone
  import opened Rows
  import Journal
  import W = Worker

  /** `issued` are the ids drawn so far, `resendable` the deliveries the broker
      once found accepted when it read an assignment for a reconnecting worker. */
  datatype System = System(
    db: Database,
    issued: set<DeliveryId>,
    resendable: set<DeliveryId>,
    flight: multiset<W.Envelope>,
    acks: multiset<(DeliveryId, bool)>,
    worker: W.Live)

  datatype Step =
    /** Any transaction but those that send to this worker or record its acks. */
    | Store(tx: Transaction)
    | AssignNew(kind: Kind, round: nat, id: AssignmentId, delivery: DeliveryId)
    | Handover(id: AssignmentId, delivery: DeliveryId, trigger: bool, waiting: bool)
    | ReadAccepted(id: AssignmentId)
    | Resend(envelope: W.Envelope)
    | SendContext(envelope: W.Envelope)
    | AckAbort(command: DeliveryId)
    | Receive(envelope: W.Envelope, usage: Journal.Usage)
    | ReceiveAndDie(envelope: W.Envelope, usage: Journal.Usage, point: W.Point)
    | LoseFrame(envelope: W.Envelope)
    | RecordAck(ack: (DeliveryId, bool), generation: nat)
    | LoseAck(ack: (DeliveryId, bool))
    | Work(event: W.Event)

  predicate SendsOrAcks(tx: Transaction, role: Role) {
    match tx
    case TxAssign(r, _, _, _, _) => r == role
    case TxRotateDelivery(r, _, _) => r == role
    case TxFrame(r, _, frame) => r == role && frame.AckFrame?
    case _ => false
  }

  function Next(role: Role, policy: W.Policy, s: System, step: Step): System {
    match step
    case Store(tx) =>
      if SendsOrAcks(tx, role) then s
      else s.(db := Apply(s.db, tx))
    case AssignNew(kind, round, id, delivery) =>
      var after := Assign(s.db, role, kind, round, id, delivery);
      if delivery in s.issued || id in s.db.assignments then s
      else if id !in after.assignments then s.(db := after)
      else s.(db := after, issued := s.issued + {delivery},
              flight := s.flight + multiset{W.ForAssignment(delivery, id, round, kind, true, None, None)})
    case Handover(id, delivery, trigger, waiting) =>
      var after := RotateDelivery(s.db, role, id, delivery);
      if delivery in s.issued || after == s.db then s
      else
        var row := after.assignments[id];
        s.(db := after, issued := s.issued + {delivery},
           flight := s.flight + multiset{W.ForAssignment(delivery, id, row.round, row.kind, trigger, Some(waiting), row.resume)})
    case ReadAccepted(id) =>
      if id in s.db.assignments && s.db.assignments[id].role == role && s.db.assignments[id].state == Accepted
      then s.(resendable := s.resendable + {s.db.assignments[id].delivery})
      else s
    case Resend(envelope) =>
      if envelope.ForAssignment? && envelope.delivery in s.resendable then s.(flight := s.flight + multiset{envelope}) else s
    case SendContext(envelope) =>
      if envelope.ForContext? && envelope.delivery !in s.issued
      then s.(issued := s.issued + {envelope.delivery}, flight := s.flight + multiset{envelope})
      else s
    case AckAbort(command) =>
      if command in s.issued then s
      else s.(issued := s.issued + {command}, acks := s.acks + multiset{(command, true)})
    case Receive(envelope, usage) =>
      if envelope !in s.flight then s
      else
        var accepting := W.AcceptDelivery(s.worker, envelope, usage);
        s.(worker := accepting.live, flight := s.flight - multiset{envelope},
           acks := s.acks + multiset{(envelope.delivery, !accepting.ack.AckUncertain?)})
    case ReceiveAndDie(envelope, usage, point) =>
      if envelope !in s.flight then s
      else s.(worker := W.Handled(policy, s.worker, W.Cut(envelope, usage, point)), flight := s.flight - multiset{envelope})
    case LoseFrame(envelope) => s.(flight := s.flight - multiset{envelope})
    case RecordAck(ack, generation) =>
      if ack !in s.acks then s
      else s.(db := Runs.Receive(s.db, role, generation, AckFrame(ack.0, ack.1)), acks := s.acks - multiset{ack})
    case LoseAck(ack) => s.(acks := s.acks - multiset{ack})
    case Work(event) =>
      if event.Deliver? || event.Cut? then s else s.(worker := W.Handled(policy, s.worker, event))
  }

  function Start(config: Config): System {
    System(InitialDatabase(config), {}, {}, multiset{}, multiset{}, W.Fresh)
  }

  function Execution(config: Config, role: Role, policy: W.Policy, steps: seq<Step>): System {
    if steps == [] then Start(config)
    else Next(role, policy, Execution(config, role, policy, steps[..|steps| - 1]), steps[|steps| - 1])
  }

  // ----- the frames of one delivery -----

  /** Frames in flight under one delivery id. */
  ghost predicate Unsent(flight: multiset<W.Envelope>, delivery: DeliveryId) {
    forall e :: e in flight ==> e.delivery != delivery
  }

  ghost predicate AtMostOneFrame(flight: multiset<W.Envelope>, delivery: DeliveryId) {
    forall e, f :: e in flight && f in flight && e.delivery == delivery && f.delivery == delivery ==> e == f && flight[e] == 1
  }

  ghost predicate StartedOnce(started: seq<DeliveryId>) {
    forall i, j :: 0 <= i < j < |started| ==> started[i] != started[j]
  }

  /** Until the worker has journalled a delivery there is one frame of it at
      most, and none once its turn was started. */
  ghost predicate Pending(s: System) {
    forall d :: d !in s.worker.delivered ==>
      AtMostOneFrame(s.flight, d) && (d in s.worker.started ==> Unsent(s.flight, d))
  }

  ghost predicate Drawn(s: System) {
    && (forall e :: e in s.flight ==> e.delivery in s.issued)
    && (forall d :: d in s.worker.started ==> d in s.issued)
    && (forall a :: a in s.acks ==> a.0 in s.issued)
  }

  ghost predicate Settled(s: System, role: Role) {
    && (forall d :: d in s.resendable ==> d in s.worker.delivered && d in s.issued)
    && (forall id :: id in s.db.assignments && s.db.assignments[id].role == role ==>
          && s.db.assignments[id].delivery in s.issued
          && (s.db.assignments[id].state == Accepted ==> s.db.assignments[id].delivery in s.worker.delivered))
  }

  /** A positive acknowledgement is of a journalled delivery, or of an abort. */
  ghost predicate Honest(s: System, role: Role) {
    forall a :: a in s.acks && a.1 ==>
      a.0 in s.worker.delivered
      || forall id :: id in s.db.assignments && s.db.assignments[id].role == role ==> s.db.assignments[id].delivery != a.0
  }

  ghost predicate Inv(s: System, role: Role) {
    && W.Inv(s.worker)
    && StartedOnce(s.worker.started)
    && Pending(s) && Drawn(s) && Settled(s, role) && Honest(s, role)
  }

  // ----- what a transaction leaves of the deliveries of one role -----

  ghost predicate Kept(db: Database, after: Database, role: Role) {
    forall id :: id in after.assignments && after.assignments[id].role == role ==>
      && id in db.assignments && db.assignments[id].role == role
      && after.assignments[id].delivery == db.assignments[id].delivery
      && (after.assignments[id].state == Accepted ==> db.assignments[id].state == Accepted)
  }

  /** The acknowledgement of another role touches only that role's assignment. */
  lemma KeptAcknowledge(db: Database, role: Role, other: Role, delivery: DeliveryId, accepted: bool)
    requires other != role
    ensures Kept(db, Acknowledge(db, other, delivery, accepted), role)
  {
    AcknowledgedRow(db, other, delivery, accepted);
  }

  lemma KeptHandled(db: Database, role: Role, other: Role, generation: nat, frame: Frame)
    requires other in db.roles && !(other == role && frame.AckFrame?)
    ensures Kept(db, Handle(db, other, generation, frame), role)
  {
    if frame.AckFrame? {
      KeptAcknowledge(db, role, other, frame.delivery, frame.accepted);
    } else {
      KeptFrame(db, other, generation, frame);
    }
  }

  lemma KeptRotation(db: Database, role: Role, other: Role, id: AssignmentId, delivery: DeliveryId)
    requires other != role
    ensures Kept(db, RotateDelivery(db, other, id, delivery), role)
  {
  }

  lemma KeptGiven(db: Database, role: Role, other: Role, kind: Kind, round: nat, id: AssignmentId, delivery: DeliveryId)
    requires other in db.roles && other != role
    ensures Kept(db, Given(db, other, kind, round, id, delivery), role)
  {
    GivenRows(db, other, kind, round, id, delivery);
  }

  lemma HeldKept(db: Database, after: Database, role: Role)
    requires RowsHeld(db, after)
    ensures Kept(db, after, role)
  {
  }

  lemma StoreKeeps(db: Database, role: Role, tx: Transaction)
    requires !SendsOrAcks(tx, role)
    ensures Kept(db, Apply(db, tx), role)
  {
    match tx
    case TxFrame(other, generation, frame) => if other in db.roles { KeptHandled(db, role, other, generation, frame); }
    case TxAssign(other, kind, round, id, delivery) => KeptAssign(db, role, other, kind, round, id, delivery);
    case TxRotateDelivery(other, id, delivery) => KeptRotation(db, role, other, id, delivery);
    case _ =>
      OtherHeld(db, tx);
      HeldKept(db, Apply(db, tx), role);
  }

  lemma KeptAssign(db: Database, role: Role, other: Role, kind: Kind, round: nat, id: AssignmentId, delivery: DeliveryId)
    requires other != role
    ensures Kept(db, Assign(db, other, kind, round, id, delivery), role)
  {
    if !Assignable(db, other, id, delivery) {
    } else if RepairLimitReached(db, other, kind, round) {
    } else {
      KeptGiven(db, role, other, kind, round, id, delivery);
    }
  }

  // ----- what a worker step leaves of its deliveries -----

  lemma {:induction false} ScanGrows(journal: seq<Journal.Entry>, more: seq<Journal.Entry>)
    ensures Journal.ScanAll(journal).delivered <= Journal.ScanAll(journal + more).delivered
    decreases |more|
  {
    if more == [] {
      assert journal + more == journal;
    } else {
      var shorter := more[..|more| - 1];
      ScanGrows(journal, shorter);
      assert (journal + more)[..|journal + more| - 1] == journal + shorter;
    }
  }

  lemma JournalGrows(w: W.Live, e: W.Envelope, usage: Journal.Usage, point: W.Point)
    ensures w.journal <= W.CutShort(w, e, usage, point).journal
  {
    if e.delivery !in w.delivered && !W.StaleOwner(w, e) {
      assert w.journal <= W.Bind(w, e, usage).journal;
      assert W.Start(W.Bind(w, e, usage), e).journal == W.Bind(w, e, usage).journal;
    }
  }

  lemma CutStarts(w: W.Live, e: W.Envelope, usage: Journal.Usage, point: W.Point)
    ensures var cut := W.CutShort(w, e, usage, point);
            cut.started == w.started || (cut.started == w.started + [e.delivery] && e.delivery !in w.delivered)
  {
    assert W.Bind(w, e, usage).started == w.started;
  }

  lemma CutKeeps(w: W.Live, e: W.Envelope, usage: Journal.Usage, point: W.Point)
    ensures Journal.ScanAll(w.journal).delivered <= Journal.ScanAll(W.CutShort(w, e, usage, point).journal).delivered
  {
    var cut := W.CutShort(w, e, usage, point);
    JournalGrows(w, e, usage, point);
    ScanGrows(w.journal, cut.journal[|w.journal|..]);
    assert w.journal + cut.journal[|w.journal|..] == cut.journal;
  }

  lemma CutProgress(policy: W.Policy, w: W.Live, e: W.Envelope, usage: Journal.Usage, point: W.Point)
    requires W.Inv(w)
    ensures var after := W.Handled(policy, w, W.Cut(e, usage, point));
            && W.Inv(after)
            && w.delivered <= after.delivered
            && (after.started == w.started || (after.started == w.started + [e.delivery] && e.delivery !in w.delivered))
  {
    W.CutInv(w, e, usage, point);
    CutKeeps(w, e, usage, point);
    CutStarts(w, e, usage, point);
  }

  lemma ReceiveProgress(w: W.Live, e: W.Envelope, usage: Journal.Usage)
    requires W.Inv(w)
    ensures var accepting := W.AcceptDelivery(w, e, usage);
            var after := accepting.live;
            && W.Inv(after)
            && w.delivered <= after.delivered
            && (!accepting.ack.AckUncertain? ==> e.delivery in after.delivered)
            && (after.started == w.started || (after.started == w.started + [e.delivery] && e.delivery !in w.delivered))
  {
    W.AcceptInv(w, e, usage);
    assert W.Bind(w, e, usage).started == w.started && W.Bind(w, e, usage).delivered == w.delivered;
  }

  lemma WorkProgress(policy: W.Policy, w: W.Live, event: W.Event)
    requires W.Inv(w) && W.ValidPolicy(policy) && !event.Deliver? && !event.Cut?
    ensures var after := W.Handled(policy, w, event);
            W.Inv(after) && after.delivered == w.delivered && after.started == w.started
  {
    W.HandledInv(policy, w, event);
  }

  // ----- the invariant -----

  lemma RemoveFrame(flight: multiset<W.Envelope>, e: W.Envelope, d: DeliveryId)
    requires AtMostOneFrame(flight, d) && e in flight
    ensures AtMostOneFrame(flight - multiset{e}, d)
    ensures e.delivery == d ==> Unsent(flight - multiset{e}, d)
    ensures Unsent(flight, d) ==> Unsent(flight - multiset{e}, d)
  {
    assert forall f :: f in flight - multiset{e} ==> f in flight;
  }

  lemma StartsOnce(started: seq<DeliveryId>, d: DeliveryId)
    requires StartedOnce(started) && d !in started
    ensures StartedOnce(started + [d])
  {
    var after := started + [d];
    forall i, j | 0 <= i < j < |after| ensures after[i] != after[j] {
      assert after[i] == started[i];
    }
  }

  /** A frame leaves the network and the worker makes progress with it. */
  lemma TakenPending(s: System, after: System, e: W.Envelope)
    requires Pending(s) && StartedOnce(s.worker.started) && e in s.flight
    requires after.flight == s.flight - multiset{e} && s.worker.delivered <= after.worker.delivered
    requires after.worker.started == s.worker.started
             || (after.worker.started == s.worker.started + [e.delivery] && e.delivery !in s.worker.delivered)
    ensures Pending(after) && StartedOnce(after.worker.started)
  {
    if after.worker.started != s.worker.started {
      assert !Unsent(s.flight, e.delivery);
      StartsOnce(s.worker.started, e.delivery);
    }
    forall d | d !in after.worker.delivered
      ensures AtMostOneFrame(after.flight, d) && (d in after.worker.started ==> Unsent(after.flight, d))
    {
      RemoveFrame(s.flight, e, d);
    }
  }

  /** A frame under an id that is new, or already journalled, is added. */
  lemma SentPending(s: System, after: System, e: W.Envelope)
    requires Pending(s) && Drawn(s) && after.worker == s.worker
    requires after.flight == s.flight + multiset{e}
    requires e.delivery !in s.issued || e.delivery in s.worker.delivered
    ensures Pending(after)
  {
    forall d | d !in after.worker.delivered
      ensures AtMostOneFrame(after.flight, d) && (d in after.worker.started ==> Unsent(after.flight, d))
    {
      assert AtMostOneFrame(s.flight, d);
      forall f | f in after.flight && f.delivery == d ensures (f in s.flight || f == e) {
      }
      if d == e.delivery {
        assert Unsent(s.flight, d);
        assert s.flight[e] == 0;
      }
    }
  }

  // ----- steps of the store -----

  ghost predicate SameNetwork(s: System, after: System) {
    && after.flight == s.flight && after.acks == s.acks && after.issued == s.issued
    && after.resendable == s.resendable && after.worker == s.worker
  }

  lemma KeptSettled(s: System, after: System, role: Role)
    requires Settled(s, role) && Honest(s, role) && SameNetwork(s, after) && Kept(s.db, after.db, role)
    ensures Settled(after, role) && Honest(after, role)
  {
  }

  lemma StoreInv(s: System, role: Role, policy: W.Policy, tx: Transaction)
    requires Inv(s, role)
    ensures Inv(Next(role, policy, s, Store(tx)), role)
  {
    if !SendsOrAcks(tx, role) {
      var after := Next(role, policy, s, Store(tx));
      StoreKeeps(s.db, role, tx);
      KeptSettled(s, after, role);
    }
  }

  /** A new delivery of this role, sent once. */
  lemma SentInv(s: System, after: System, role: Role, id: AssignmentId, e: W.Envelope)
    requires Inv(s, role) && e.delivery !in s.issued
    requires after == s.(db := after.db, issued := s.issued + {e.delivery}, flight := s.flight + multiset{e})
    requires id in after.db.assignments && after.db.assignments[id].delivery == e.delivery && after.db.assignments[id].state != Accepted
    requires after.db.assignments == s.db.assignments[id := after.db.assignments[id]]
    ensures Inv(after, role)
  {
    SentPending(s, after, e);
  }

  /** The repair pause, or an assignment that could not be stored. */
  lemma PausedInv(s: System, role: Role, kind: Kind, round: nat, id: AssignmentId, delivery: DeliveryId)
    requires Inv(s, role) && id !in s.db.assignments
    requires id !in Assign(s.db, role, kind, round, id, delivery).assignments
    ensures Inv(s.(db := Assign(s.db, role, kind, round, id, delivery)), role)
  {
    var after := s.(db := Assign(s.db, role, kind, round, id, delivery));
    NewRow(s.db, role, kind, round, id, delivery);
    KeptSettled(s, after, role);
  }

  lemma AssignNewInv(s: System, role: Role, policy: W.Policy, kind: Kind, round: nat, id: AssignmentId, delivery: DeliveryId)
    requires Inv(s, role)
    ensures Inv(Next(role, policy, s, AssignNew(kind, round, id, delivery)), role)
  {
    var db := Assign(s.db, role, kind, round, id, delivery);
    var after := Next(role, policy, s, AssignNew(kind, round, id, delivery));
    if delivery in s.issued || id in s.db.assignments {
      assert after == s;
    } else if id in db.assignments {
      NewRow(s.db, role, kind, round, id, delivery);
      SentInv(s, after, role, id, W.ForAssignment(delivery, id, round, kind, true, None, None));
    } else {
      PausedInv(s, role, kind, round, id, delivery);
    }
  }

  lemma HandoverInv(s: System, role: Role, policy: W.Policy, id: AssignmentId, delivery: DeliveryId, trigger: bool, waiting: bool)
    requires Inv(s, role)
    ensures Inv(Next(role, policy, s, Handover(id, delivery, trigger, waiting)), role)
  {
    var db := RotateDelivery(s.db, role, id, delivery);
    if delivery !in s.issued && db != s.db {
      var row := db.assignments[id];
      SentInv(s, Next(role, policy, s, Handover(id, delivery, trigger, waiting)), role, id,
              W.ForAssignment(delivery, id, row.round, row.kind, trigger, Some(waiting), row.resume));
    }
  }

  lemma AcknowledgedSettled(s: System, after: System, role: Role, ack: (DeliveryId, bool), active: AssignmentId)
    requires Settled(s, role) && Honest(s, role) && ack in s.acks
    requires active in s.db.assignments && s.db.assignments[active].delivery == ack.0 && s.db.assignments[active].role == role
    requires after == s.(db := after.db, acks := s.acks - multiset{ack})
    requires after.db.assignments == s.db.assignments[active := s.db.assignments[active].(state := if ack.1 then Accepted else DeliveryUncertain)]
    ensures Settled(after, role) && Honest(after, role)
  {
    assert ack.1 ==> ack.0 in s.worker.delivered;
    assert forall a :: a in after.acks ==> a in s.acks;
  }

  lemma RecordedSettled(s: System, after: System, role: Role, ack: (DeliveryId, bool))
    requires Settled(s, role) && Honest(s, role) && ack in s.acks
    requires after == s.(db := after.db, acks := s.acks - multiset{ack})
    requires after.db == s.db || after.db == Acknowledge(s.db, role, ack.0, ack.1)
    ensures Settled(after, role) && Honest(after, role)
  {
    AcknowledgedRow(s.db, role, ack.0, ack.1);
    if Answers(s.db, role, ack.0) && after.db != s.db {
      AcknowledgedSettled(s, after, role, ack, s.db.roles[role].active.value);
    } else {
      assert forall a :: a in after.acks ==> a in s.acks;
    }
  }

  lemma RecordedInv(s: System, after: System, role: Role, ack: (DeliveryId, bool), generation: nat)
    requires Inv(s, role) && ack in s.acks
    requires after == s.(db := after.db, acks := s.acks - multiset{ack})
    requires after.db == Apply(s.db, TxFrame(role, generation, AckFrame(ack.0, ack.1)))
    ensures Inv(after, role)
  {
    RecordedSettled(s, after, role, ack);
    assert forall a :: a in after.acks ==> a in s.acks;
  }

  lemma RecordAckInv(s: System, role: Role, policy: W.Policy, ack: (DeliveryId, bool), generation: nat)
    requires Inv(s, role)
    ensures Inv(Next(role, policy, s, RecordAck(ack, generation)), role)
  {
    if ack in s.acks {
      RecordedInv(s, Next(role, policy, s, RecordAck(ack, generation)), role, ack, generation);
    }
  }

  // ----- steps of the network and the worker -----

  lemma ReceivedHonest(s: System, after: System, role: Role, e: W.Envelope, ack: (DeliveryId, bool))
    requires Settled(s, role) && Honest(s, role) && Drawn(s) && e in s.flight
    requires after == s.(worker := after.worker, flight := s.flight - multiset{e}, acks := s.acks + multiset{ack})
    requires s.worker.delivered <= after.worker.delivered && ack.0 == e.delivery && (ack.1 ==> e.delivery in after.worker.delivered)
    requires after.worker.started == s.worker.started || after.worker.started == s.worker.started + [e.delivery]
    ensures Settled(after, role) && Honest(after, role) && Drawn(after)
  {
    assert forall f :: f in after.flight ==> f in s.flight;
    assert forall a :: a in after.acks ==> a in s.acks || a == ack;
  }

  lemma ReceiveInv(s: System, role: Role, policy: W.Policy, e: W.Envelope, usage: Journal.Usage)
    requires Inv(s, role)
    ensures Inv(Next(role, policy, s, Receive(e, usage)), role)
  {
    if e in s.flight {
      var after := Next(role, policy, s, Receive(e, usage));
      ReceiveProgress(s.worker, e, usage);
      TakenPending(s, after, e);
      ReceivedHonest(s, after, role, e, (e.delivery, !W.AcceptDelivery(s.worker, e, usage).ack.AckUncertain?));
    }
  }

  lemma DiedHonest(s: System, after: System, role: Role, e: W.Envelope)
    requires Settled(s, role) && Honest(s, role) && Drawn(s) && e in s.flight
    requires after == s.(worker := after.worker, flight := s.flight - multiset{e})
    requires s.worker.delivered <= after.worker.delivered
    requires after.worker.started == s.worker.started || after.worker.started == s.worker.started + [e.delivery]
    ensures Settled(after, role) && Honest(after, role) && Drawn(after)
  {
    assert forall f :: f in after.flight ==> f in s.flight;
  }

  lemma ReceiveAndDieInv(s: System, role: Role, policy: W.Policy, e: W.Envelope, usage: Journal.Usage, point: W.Point)
    requires Inv(s, role)
    ensures Inv(Next(role, policy, s, ReceiveAndDie(e, usage, point)), role)
  {
    if e in s.flight {
      var after := Next(role, policy, s, ReceiveAndDie(e, usage, point));
      CutProgress(policy, s.worker, e, usage, point);
      TakenPending(s, after, e);
      DiedHonest(s, after, role, e);
    }
  }

  lemma SendInv(s: System, role: Role, policy: W.Policy, step: Step)
    requires Inv(s, role) && (step.Resend? || step.SendContext?)
    ensures Inv(Next(role, policy, s, step), role)
  {
    var after := Next(role, policy, s, step);
    if after != s { SentPending(s, after, step.envelope); }
  }

  lemma LoseFrameInv(s: System, role: Role, e: W.Envelope)
    requires Inv(s, role)
    ensures Inv(s.(flight := s.flight - multiset{e}), role)
  {
    var after := s.(flight := s.flight - multiset{e});
    if e in s.flight {
      TakenPending(s, after, e);
    } else {
      assert after == s;
    }
    assert forall f :: f in after.flight ==> f in s.flight;
  }

  lemma LoseAckInv(s: System, role: Role, ack: (DeliveryId, bool))
    requires Inv(s, role)
    ensures Inv(s.(acks := s.acks - multiset{ack}), role)
  {
    var after := s.(acks := s.acks - multiset{ack});
    assert forall a :: a in after.acks ==> a in s.acks;
  }

  lemma AckAbortInv(s: System, role: Role, policy: W.Policy, command: DeliveryId)
    requires Inv(s, role)
    ensures Inv(Next(role, policy, s, AckAbort(command)), role)
  {
    if command !in s.issued {
      var after := Next(role, policy, s, AckAbort(command));
      assert forall id :: id in s.db.assignments && s.db.assignments[id].role == role ==> s.db.assignments[id].delivery != command;
      assert Honest(after, role);
    }
  }

  lemma WorkInv(s: System, role: Role, policy: W.Policy, event: W.Event)
    requires Inv(s, role) && W.ValidPolicy(policy)
    ensures Inv(Next(role, policy, s, Work(event)), role)
  {
    if !event.Deliver? && !event.Cut? { WorkProgress(policy, s.worker, event); }
  }

  lemma ReadAcceptedInv(s: System, role: Role, policy: W.Policy, id: AssignmentId)
    requires Inv(s, role)
    ensures Inv(Next(role, policy, s, ReadAccepted(id)), role)
  {
    var after := Next(role, policy, s, ReadAccepted(id));
    assert after == s.(resendable := after.resendable);
  }

  lemma StepInv(s: System, role: Role, policy: W.Policy, step: Step)
    requires Inv(s, role) && W.ValidPolicy(policy)
    ensures Inv(Next(role, policy, s, step), role)
  {
    match step
    case Store(tx) => StoreInv(s, role, policy, tx);
    case AssignNew(kind, round, id, delivery) => AssignNewInv(s, role, policy, kind, round, id, delivery);
    case Handover(id, delivery, trigger, waiting) => HandoverInv(s, role, policy, id, delivery, trigger, waiting);
    case Receive(envelope, usage) => ReceiveInv(s, role, policy, envelope, usage);
    case ReceiveAndDie(envelope, usage, point) => ReceiveAndDieInv(s, role, policy, envelope, usage, point);
    case RecordAck(ack, generation) => RecordAckInv(s, role, policy, ack, generation);
    case Resend(_) => SendInv(s, role, policy, step);
    case SendContext(_) => SendInv(s, role, policy, step);
    case LoseFrame(e) => LoseFrameInv(s, role, e);
    case LoseAck(ack) => LoseAckInv(s, role, ack);
    case AckAbort(command) => AckAbortInv(s, role, policy, command);
    case Work(event) => WorkInv(s, role, policy, event);
    case ReadAccepted(id) => ReadAcceptedInv(s, role, policy, id);
  }

  lemma {:induction false} ExecutionInv(config: Config, role: Role, policy: W.Policy, steps: seq<Step>)
    requires W.ValidPolicy(policy)
    ensures Inv(Execution(config, role, policy, steps), role)
    decreases |steps|
  {
    if steps != [] {
      ExecutionInv(config, role, policy, steps[..|steps| - 1]);
      StepInv(Execution(config, role, policy, steps[..|steps| - 1]), role, policy, steps[|steps| - 1]);
    }
  }

  /** At most one turn is ever started for a delivery, over every interleaving of
      assignments, reconnects, handovers, crashes of either side at any point of
      an acceptance, and lost or delayed frames and acknowledgements. */
  lemma StartsAtMostOnce(config: Config, role: Role, policy: W.Policy, steps: seq<Step>)
    requires W.ValidPolicy(policy)
    ensures StartedOnce(Execution(config, role, policy, steps).worker.started)
  {
    ExecutionInv(config, role, policy, steps);
  }

  // ----- negative acknowledgements -----

  /** What was refused is not journalled, and no frame of it is left: it never
      will be. */
  ghost predicate Refused(s: System) {
    forall a :: a in s.acks && !a.1 ==> a.0 !in s.worker.delivered && Unsent(s.flight, a.0)
  }

  lemma SentRefused(s: System, after: System, e: W.Envelope)
    requires Refused(s) && Drawn(s) && after.worker == s.worker && after.flight == s.flight + multiset{e} && after.acks == s.acks
    requires e.delivery !in s.issued || e.delivery in s.worker.delivered
    ensures Refused(after)
  {
    forall a | a in after.acks && !a.1 ensures Unsent(after.flight, a.0) {
      assert e.delivery != a.0;
      assert forall f :: f in after.flight ==> f in s.flight || f == e;
    }
  }

  /** A frame leaves the network, and the worker journals nothing else for it. */
  lemma TakenRefused(s: System, after: System, e: W.Envelope)
    requires Refused(s) && e in s.flight && after.flight == s.flight - multiset{e} && after.acks == s.acks
    requires after.worker.delivered <= s.worker.delivered + {e.delivery}
    ensures Refused(after)
  {
    assert forall f :: f in after.flight ==> f in s.flight;
    forall a | a in after.acks && !a.1 ensures a.0 != e.delivery { assert Unsent(s.flight, a.0); }
  }

  lemma AnsweredRefused(s: System, ack: (DeliveryId, bool))
    requires Refused(s) && (!ack.1 ==> ack.0 !in s.worker.delivered && Unsent(s.flight, ack.0))
    ensures Refused(s.(acks := s.acks + multiset{ack}))
  {
    assert forall a :: a in s.acks + multiset{ack} ==> a in s.acks || a == ack;
  }

  lemma ReceiveRefused(s: System, role: Role, policy: W.Policy, e: W.Envelope, usage: Journal.Usage)
    requires Inv(s, role) && Refused(s)
    ensures Refused(Next(role, policy, s, Receive(e, usage)))
  {
    if e in s.flight {
      var after := Next(role, policy, s, Receive(e, usage));
      var ack := !W.AcceptDelivery(s.worker, e, usage).ack.AckUncertain?;
      ReceivedDelivers(s.worker, e, usage);
      var taken := after.(acks := s.acks);
      TakenRefused(s, taken, e);
      if !ack { RemoveFrame(s.flight, e, e.delivery); }
      AnsweredRefused(taken, (e.delivery, ack));
    }
  }

  lemma ReceivedDelivers(w: W.Live, e: W.Envelope, usage: Journal.Usage)
    requires W.Inv(w)
    ensures var accepting := W.AcceptDelivery(w, e, usage);
            accepting.live.delivered == if accepting.ack.AckUncertain? then w.delivered else w.delivered + {e.delivery}
    ensures W.AcceptDelivery(w, e, usage).ack.AckUncertain? ==> e.delivery !in w.delivered
  {
    W.AcceptAnswers(w, e, usage);
    W.AcceptInv(w, e, usage);
  }

  lemma DieRefused(s: System, role: Role, policy: W.Policy, e: W.Envelope, usage: Journal.Usage, point: W.Point)
    requires Inv(s, role) && Refused(s)
    ensures Refused(Next(role, policy, s, ReceiveAndDie(e, usage, point)))
  {
    if e in s.flight {
      W.CutDelivers(s.worker, e, usage, point);
      TakenRefused(s, Next(role, policy, s, ReceiveAndDie(e, usage, point)), e);
    }
  }

  lemma FewerRefused(s: System, after: System)
    requires Refused(s) && after.worker.delivered == s.worker.delivered
    requires (forall f :: f in after.flight ==> f in s.flight) && (forall a :: a in after.acks && !a.1 ==> a in s.acks)
    ensures Refused(after)
  {
  }

  lemma StepRefused(s: System, role: Role, policy: W.Policy, step: Step)
    requires Inv(s, role) && W.ValidPolicy(policy) && Refused(s)
    ensures Refused(Next(role, policy, s, step))
  {
    match step
    case AssignNew(_, _, _, _) => NewRefused(s, role, policy, step);
    case Handover(_, _, _, _) => NewRefused(s, role, policy, step);
    case Receive(e, usage) => ReceiveRefused(s, role, policy, e, usage);
    case ReceiveAndDie(e, usage, point) => DieRefused(s, role, policy, e, usage, point);
    case Work(event) => WorkRefused(s, role, policy, event);
    case _ => if step.Resend? || step.SendContext? { AgainRefused(s, role, policy, step); } else { LostRefused(s, role, policy, step); }
  }

  lemma AgainRefused(s: System, role: Role, policy: W.Policy, step: Step)
    requires Inv(s, role) && Refused(s) && (step.Resend? || step.SendContext?)
    ensures Refused(Next(role, policy, s, step))
  {
    var after := Next(role, policy, s, step);
    if after != s { SentRefused(s, after, step.envelope); }
  }

  lemma WorkRefused(s: System, role: Role, policy: W.Policy, event: W.Event)
    requires Inv(s, role) && W.ValidPolicy(policy) && Refused(s)
    ensures Refused(Next(role, policy, s, Work(event)))
  {
    if !event.Deliver? && !event.Cut? {
      WorkProgress(policy, s.worker, event);
      FewerRefused(s, Next(role, policy, s, Work(event)));
    }
  }

  lemma LostRefused(s: System, role: Role, policy: W.Policy, step: Step)
    requires Refused(s) && (step.Store? || step.ReadAccepted? || step.AckAbort? || step.LoseFrame? || step.RecordAck? || step.LoseAck?)
    ensures Refused(Next(role, policy, s, step))
  {
    var after := Next(role, policy, s, step);
    assert after.worker == s.worker;
    assert forall f :: f in after.flight ==> f in s.flight;
    assert forall a :: a in after.acks && !a.1 ==> a in s.acks;
    FewerRefused(s, after);
  }

  lemma NewRefused(s: System, role: Role, policy: W.Policy, step: Step)
    requires Inv(s, role) && Refused(s) && (step.AssignNew? || step.Handover?)
    ensures Refused(Next(role, policy, s, step))
  {
    var after := Next(role, policy, s, step);
    match step
    case AssignNew(kind, round, id, delivery) =>
      if after.flight != s.flight { SentRefused(s, after, W.ForAssignment(delivery, id, round, kind, true, None, None)); }
    case Handover(id, delivery, trigger, waiting) =>
      if after.flight != s.flight {
        var row := after.db.assignments[id];
        SentRefused(s, after, W.ForAssignment(delivery, id, row.round, row.kind, trigger, Some(waiting), row.resume));
      }
  }

  lemma {:induction false} ExecutionRefused(config: Config, role: Role, policy: W.Policy, steps: seq<Step>)
    requires W.ValidPolicy(policy)
    ensures Refused(Execution(config, role, policy, steps))
    decreases |steps|
  {
    if steps != [] {
      ExecutionInv(config, role, policy, steps[..|steps| - 1]);
      ExecutionRefused(config, role, policy, steps[..|steps| - 1]);
      StepRefused(Execution(config, role, policy, steps[..|steps| - 1]), role, policy, steps[|steps| - 1]);
    }
  }

  /** An accepted assignment stays accepted through every acknowledgement that is
      recorded, and neither its role nor the run becomes uncertain by one. */
  lemma AcceptedSurvivesAck(config: Config, role: Role, policy: W.Policy, steps: seq<Step>, ack: (DeliveryId, bool), generation: nat, id: AssignmentId)
    requires W.ValidPolicy(policy)
    requires var db := Execution(config, role, policy, steps).db;
             && role in db.roles && db.roles[role].active == Some(id)
             && id in db.assignments && db.assignments[id].role == role && db.assignments[id].state == Accepted
    ensures var s := Execution(config, role, policy, steps);
            var after := Next(role, policy, s, RecordAck(ack, generation)).db;
            && after.assignments == s.db.assignments && after.workflow == s.db.workflow
            && role in after.roles && after.roles[role].active == Some(id)
            && (s.db.roles[role].state != RoleUncertain ==> after.roles[role].state != RoleUncertain)
  {
    ExecutionInv(config, role, policy, steps);
    ExecutionRefused(config, role, policy, steps);
    AcceptedSurvives(Execution(config, role, policy, steps), role, policy, ack, generation, id);
  }

  lemma AcceptedSurvives(s: System, role: Role, policy: W.Policy, ack: (DeliveryId, bool), generation: nat, id: AssignmentId)
    requires Inv(s, role) && Refused(s)
    requires role in s.db.roles && s.db.roles[role].active == Some(id)
    requires id in s.db.assignments && s.db.assignments[id].role == role && s.db.assignments[id].state == Accepted
    ensures var after := Next(role, policy, s, RecordAck(ack, generation)).db;
            && after.assignments == s.db.assignments && after.workflow == s.db.workflow
            && role in after.roles && after.roles[role].active == Some(id)
            && (s.db.roles[role].state != RoleUncertain ==> after.roles[role].state != RoleUncertain)
  {
    if ack in s.acks {
      assert !ack.1 ==> ack.0 != s.db.assignments[id].delivery;
      AckOfAccepted(s.db, role, generation, ack, id);
    }
  }

  lemma AckOfAccepted(db: Database, role: Role, generation: nat, ack: (DeliveryId, bool), id: AssignmentId)
    requires role in db.roles && db.roles[role].active == Some(id) && id in db.assignments && db.assignments[id].state == Accepted
    requires !ack.1 ==> ack.0 != db.assignments[id].delivery
    ensures var after := Runs.Receive(db, role, generation, AckFrame(ack.0, ack.1));
            && after.assignments == db.assignments && after.workflow == db.workflow
            && role in after.roles && after.roles[role].active == Some(id)
            && (db.roles[role].state != RoleUncertain ==> after.roles[role].state != RoleUncertain)
  {
    if db.roles[role].generation == generation && Answers(db, role, ack.0) { AckedRow(db, role, id); }
  }

  lemma AckedRow(db: Database, role: Role, id: AssignmentId)
    requires role in db.roles && id in db.assignments
    ensures var after := Acknowledged(db, role, id);
            && after.assignments == db.assignments[id := db.assignments[id].(state := Accepted)] && after.workflow == db.workflow
            && role in after.roles && after.roles[role].active == db.roles[role].active
            && (db.roles[role].state != RoleUncertain ==> after.roles[role].state != RoleUncertain)
            && (db.roles[role].state == Recovering ==> after.roles[role].state == Working)
  {
    AcceptedRow(db, role, id);
    AckedRole(db, role, id);
  }

  lemma AckedRole(db: Database, role: Role, id: AssignmentId)
    requires role in db.roles && id in db.assignments
    ensures var after := Acknowledged(db, role, id);
            && after.workflow == db.workflow
            && after.roles == if WakesUp(db.roles[role].state) then db.roles[role := db.roles[role].(state := Working)] else db.roles
  {
    var acked := SetAssignment(db, id, db.assignments[id].(state := Accepted));
    if WakesUp(db.roles[role].state) {
      assert Acknowledged(db, role, id) == SetRoleState(acked, role, Working);
    } else {
      assert Acknowledged(db, role, id) == acked;
    }
  }

  predicate WakesUp(state: RoleState) {
    state.Disconnected? || state.Idle? || state.Recovering?
  }

  /** A delivery the broker sends again to a worker that reconnects is answered
      positively when it arrives, and the worker starts no turn for it. */
  lemma ResendAnswered(config: Config, role: Role, policy: W.Policy, steps: seq<Step>, e: W.Envelope, usage: Journal.Usage)
    requires W.ValidPolicy(policy)
    requires var s := Execution(config, role, policy, steps); e in s.flight && e.delivery in s.resendable
    ensures var s := Execution(config, role, policy, steps);
            var after := Next(role, policy, s, Receive(e, usage));
            after.acks == s.acks + multiset{(e.delivery, true)} && after.worker.started == s.worker.started
  {
    ExecutionInv(config, role, policy, steps);
    DuplicateAnswered(Execution(config, role, policy, steps), role, policy, e, usage);
  }

  lemma DuplicateAnswered(s: System, role: Role, policy: W.Policy, e: W.Envelope, usage: Journal.Usage)
    requires Inv(s, role) && e in s.flight && e.delivery in s.worker.delivered
    ensures var after := Next(role, policy, s, Receive(e, usage));
            after.acks == s.acks + multiset{(e.delivery, true)} && after.worker.started == s.worker.started
  {
    W.AcceptAnswers(s.worker, e, usage);
  }

  /** A new delivery is answered positively too, and its turn started, unless its
      assignment was closed: so it is accepted once that answer is recorded. */
  lemma RecordedIsAccepted(config: Config, role: Role, policy: W.Policy, steps: seq<Step>, e: W.Envelope, usage: Journal.Usage)
    requires W.ValidPolicy(policy)
    requires var s := Execution(config, role, policy, steps);
             && e in s.flight && e.ForAssignment? && role in s.db.roles && s.db.roles[role].active == Some(e.id)
             && e.id in s.db.assignments && s.db.assignments[e.id].role == role && s.db.assignments[e.id].delivery == e.delivery
             && s.db.assignments[e.id].state != Completed
             && (e.delivery in s.worker.delivered || e.id !in s.worker.known || W.ActiveId(s.worker) == Some(e.id))
    ensures var s := Execution(config, role, policy, steps);
            var received := Next(role, policy, s, Receive(e, usage));
            var after := Next(role, policy, received, RecordAck((e.delivery, true), s.db.roles[role].generation)).db;
            && e.delivery in received.worker.delivered
            && after.assignments == s.db.assignments[e.id := s.db.assignments[e.id].(state := Accepted)]
            && after.workflow == s.db.workflow && role in after.roles
            && (s.db.roles[role].state == Recovering ==> after.roles[role].state == Working)
  {
    ExecutionInv(config, role, policy, steps);
    ReceivedPositive(Execution(config, role, policy, steps), role, policy, e, usage);
    var s := Execution(config, role, policy, steps);
    var received := Next(role, policy, s, Receive(e, usage));
    RecordedPositive(received, role, policy, e.delivery, e.id);
  }

  lemma ReceivedPositive(s: System, role: Role, policy: W.Policy, e: W.Envelope, usage: Journal.Usage)
    requires Inv(s, role) && e in s.flight && e.ForAssignment?
    requires e.delivery in s.worker.delivered || e.id !in s.worker.known || W.ActiveId(s.worker) == Some(e.id)
    ensures var received := Next(role, policy, s, Receive(e, usage));
            received.db == s.db && (e.delivery, true) in received.acks && e.delivery in received.worker.delivered
  {
    W.AcceptAnswers(s.worker, e, usage);
    W.AcceptInv(s.worker, e, usage);
  }

  lemma RecordedPositive(s: System, role: Role, policy: W.Policy, delivery: DeliveryId, id: AssignmentId)
    requires (delivery, true) in s.acks && role in s.db.roles && s.db.roles[role].active == Some(id)
    requires id in s.db.assignments && s.db.assignments[id].role == role && s.db.assignments[id].delivery == delivery
    requires s.db.assignments[id].state != Completed
    ensures var after := Next(role, policy, s, RecordAck((delivery, true), s.db.roles[role].generation)).db;
            && after.assignments == s.db.assignments[id := s.db.assignments[id].(state := Accepted)]
            && after.workflow == s.db.workflow && role in after.roles
            && (s.db.roles[role].state == Recovering ==> after.roles[role].state == Working)
  {
    AckedRow(s.db, role, id);
  }

  /** An assignment the broker believes accepted is journalled by its worker. */
  lemma AcceptedIsJournalled(config: Config, role: Role, policy: W.Policy, steps: seq<Step>, id: AssignmentId)
    requires W.ValidPolicy(policy)
    requires var db := Execution(config, role, policy, steps).db;
             id in db.assignments && db.assignments[id].role == role && db.assignments[id].state == Accepted
    ensures var s := Execution(config, role, policy, steps); s.db.assignments[id].delivery in s.worker.delivered
  {
    ExecutionInv(config, role, policy, steps);
  }
}
