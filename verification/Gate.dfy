/** The gate in front of a worker's provider requests while it recovers. Frames
    of one connection arrive in order or not at all; the broker answers one
    message of a connection at a time. */

module Gate {
  import opened Options
  import opened Tables
  import opened Transactions
  import opened Runs
  import opened Monotone
  import opened Recovery
  import opened Rows
  import Journal
  import W = Worker

  /** An answer of the broker, with what the handler that waits for it has
      captured. */
  datatype Reply = Granted(id: AssignmentId) | Noted(id: AssignmentId, resume: Option<CommandId>, epoch: nat)

  datatype Ask =
    | AskRecovery(id: AssignmentId, resume: Option<CommandId>)
    | AskAttention(id: AssignmentId, resume: Option<CommandId>, epoch: nat)

  datatype Frame =
    | Delivered(envelope: W.Envelope)
    | Reminder(id: AssignmentId, resume: Option<CommandId>)
    | Closed(id: AssignmentId)
    | Answer(reply: Reply)

  /** What an observer of the worker sees: its recovery flag is journalled for an
      assignment, the guidance epoch of an assignment changes, a provider request
      of it leaves. */
  datatype Mark = Recovered(id: AssignmentId) | Guided(id: AssignmentId) | Released(id: AssignmentId)

  datatype Phase = Offline | Greeting | Serving

  /** `wire` are the frames on their way to the worker, `todo` those the
      connection's own handler has still to send, `resolved` the answers that
      arrived and whose handlers have not gone on yet, `checked` the operator
      commands that were accepted and not sent yet. `gated` counts the requests
      that left with a recovery authorization. */
  datatype System = System(
    db: Database,
    phase: Phase,
    wire: seq<Frame>,
    todo: seq<Frame>,
    checked: map<CommandId, Plan>,
    asked: multiset<Ask>,
    resolved: multiset<Reply>,
    worker: W.Live,
    log: seq<Mark>,
    gated: multiset<AssignmentId>)

  datatype Step =
    /** Any transaction, of this worker's frames or of anyone else. */
    | Store(tx: Transaction)
    | Connect
    /** The reconnecting worker's accepted assignment, as it is read. */
    | Read(id: AssignmentId, delivery: DeliveryId)
    | NothingToRead
    /** A new assignment, run state or a closing notice, from any handler. */
    | Tell(frame: Frame)
    | Check(command: CommandId, link: Link)
    /** Guidance that was checked, sent before its command is written. */
    | Guide(command: CommandId, delivery: DeliveryId)
    | ServeSettlement(generation: nat, id: AssignmentId, resume: Option<CommandId>, settlement: RequestId)
    | ServeRecovery(generation: nat, ask: Ask)
    | ServeAttention(generation: nat, ask: Ask)
    | Push
    | Drop
    | Take(usage: Journal.Usage)
    | TakeAndDie(usage: Journal.Usage, point: W.Point)
    | GoOn(reply: Reply)
    | Request
    | Raise
    | Work(event: W.Event)
    | Die

  function Attends(w: W.Live, id: AssignmentId): Journal.Attention {
    Journal.AttentionOf(w.journal, id)
  }

  /** What is seen of a worker that goes from `w` to `after`. */
  function Marks(w: W.Live, after: W.Live): seq<Mark> {
    match W.ActiveId(after)
    case None => []
    case Some(id) =>
      var guided := after.epoch != w.epoch;
      (if guided then [Guided(id)] else [])
      + if Attends(after, id).recovery && (guided || !Attends(w, id).recovery) then [Recovered(id)] else []
  }

  function Working(s: System, after: W.Live): System {
    s.(worker := after, log := s.log + Marks(s.worker, after))
  }

  function Lost(s: System): System {
    s.(phase := Offline, wire := [], todo := [], asked := multiset{}, resolved := multiset{})
  }

  /** The envelope of an assignment that a reconnecting worker is sent. */
  function Reopening(id: AssignmentId, row: Assignment, delivery: DeliveryId): W.Envelope {
    var waiting := RecoveryWaiting(row);
    W.ForAssignment(delivery, id, row.round, row.kind, !waiting, Some(waiting), row.resume)
  }

  function Guidance(db: Database, role: Role, command: CommandId, plan: Plan, delivery: DeliveryId): W.Envelope
    requires role in db.roles
  {
    var owner := db.roles[role].active;
    W.ForContext(delivery, true, owner, !plan.Reopening?, if owner.Some? && !plan.Reopening? then Some(command) else None)
  }

  /** Frames that neither open a connection nor answer on it. */
  predicate Plain(frame: Frame) {
    match frame
    case Delivered(e) => if e.ForAssignment? then e.waiting.None? else !e.operator
    case Closed(_) => true
    case _ => false
  }

  predicate LocalEvent(event: W.Event) {
    event.Report? || event.Settle? || event.SettlementAck? || event.Evaluate? || event.Show? || event.AgentStart?
  }

  function Taken(w: W.Live, frame: Frame, usage: Journal.Usage): W.Live {
    match frame
    case Delivered(e) => W.AcceptDelivery(w, e, usage).live
    case Reminder(id, resume) => W.AcceptReminder(w, id, resume)
    case Closed(id) => W.AcceptClosed(w, id)
    case Answer(_) => w
  }

  predicate Idle(s: System) {
    s.phase == Serving && s.todo == []
  }

  function SettlementTx(role: Role, generation: nat, id: AssignmentId, resume: Option<CommandId>, settlement: RequestId): Transaction {
    TxFrame(role, generation, SettlementFrame(id, resume, settlement))
  }

  function RecoveryTx(role: Role, generation: nat, ask: Ask): Transaction {
    TxFrame(role, generation, RecoveryTurnFrame(ask.id, ask.resume))
  }

  function AttentionTx(role: Role, generation: nat, ask: Ask): Transaction {
    TxFrame(role, generation, AttentionFrame(ask.id, ask.resume))
  }

  function Asked(s: System): System {
    match s.worker.active
    case None => s
    case Some(a) =>
      if !s.worker.attention.recovery then s.(log := s.log + [Released(a.id)])
      else if s.phase == Offline then s
      else s.(asked := s.asked + multiset{AskRecovery(a.id, s.worker.attention.resume)})
  }

  function Raised(s: System): System {
    match s.worker.active
    case None => s
    case Some(a) =>
      if s.phase == Offline then s
      else s.(asked := s.asked + multiset{AskAttention(a.id, s.worker.attention.resume, s.worker.epoch)})
  }

  function WentOn(s: System, reply: Reply): System
    requires reply in s.resolved
  {
    var rest := s.(resolved := s.resolved - multiset{reply});
    match reply
    case Granted(id) => rest.(log := s.log + [Released(id)], gated := s.gated + multiset{id})
    case Noted(id, _, epoch) => Working(rest, W.AttentionAcknowledged(s.worker, id, epoch))
  }

  function Next(role: Role, policy: W.Policy, s: System, step: Step): System {
    match step
    case Store(tx) => s.(db := Apply(s.db, tx))
    case Connect => if s.phase == Offline then s.(phase := Greeting) else s
    case Read(id, delivery) =>
      if s.phase == Greeting && id in s.db.assignments && s.db.assignments[id].role == role && s.db.assignments[id].state == Accepted
      then s.(phase := Serving, todo := [Delivered(Reopening(id, s.db.assignments[id], delivery))])
      else s
    case NothingToRead => if s.phase == Greeting then s.(phase := Serving) else s
    case Tell(frame) => if s.phase != Offline && Plain(frame) then s.(wire := s.wire + [frame]) else s
    case Check(command, link) =>
      if ControlStatus(s.db, command, Send, role, link) == Some(StatusAccepted)
      then s.(checked := s.checked[command := Planned(s.db, Send, role)])
      else s
    case Guide(command, delivery) =>
      if s.phase != Offline && role in s.db.roles && command in s.checked
      then s.(wire := s.wire + [Delivered(Guidance(s.db, role, command, s.checked[command], delivery))])
      else s
    case ServeSettlement(generation, id, resume, settlement) =>
      if !Idle(s) then s
      else
        var tx := SettlementTx(role, generation, id, resume, settlement);
        s.(db := Apply(s.db, tx), todo := if Reminds(s.db, tx).Some? then [Reminder(id, resume)] else [])
    case ServeRecovery(generation, ask) =>
      if !Idle(s) || ask !in s.asked || !ask.AskRecovery? then s
      else
        var tx := RecoveryTx(role, generation, ask);
        s.(db := Apply(s.db, tx), asked := s.asked - multiset{ask}, todo := if Recovers(s.db, tx).Some? then [Answer(Granted(ask.id))] else [])
    case ServeAttention(generation, ask) =>
      if !Idle(s) || ask !in s.asked || !ask.AskAttention? then s
      else
        var owns := Owns(s.db, role, generation, ask.id, ask.resume);
        s.(db := Apply(s.db, AttentionTx(role, generation, ask)), asked := s.asked - multiset{ask},
           todo := if owns then [Answer(Noted(ask.id, ask.resume, ask.epoch))] else [])
    case Push => if s.todo == [] then s else s.(wire := s.wire + [s.todo[0]], todo := s.todo[1..])
    case Drop => if s.resolved == multiset{} then Lost(s) else s
    case Take(usage) =>
      if s.wire == [] then s
      else
        var rest := s.(wire := s.wire[1..]);
        if s.wire[0].Answer? then rest.(resolved := s.resolved + multiset{s.wire[0].reply})
        else Working(rest, Taken(s.worker, s.wire[0], usage))
    case TakeAndDie(usage, point) =>
      if s.wire == [] || !s.wire[0].Delivered? then s
      else
        var cut := W.CutShort(s.worker, s.wire[0].envelope, usage, point);
        Lost(s).(worker := W.Restarted(cut), log := s.log + Marks(s.worker, cut))
    case GoOn(reply) => if reply in s.resolved then WentOn(s, reply) else s
    case Request => Asked(s)
    case Raise => Raised(s)
    case Work(event) => if LocalEvent(event) then Working(s, W.Handled(policy, s.worker, event)) else s
    case Die => Lost(s).(worker := W.Restarted(s.worker))
  }

  function Start(config: Config): System {
    System(InitialDatabase(config), Offline, [], [], map[], multiset{}, multiset{}, W.Fresh, [], multiset{})
  }

  function Execution(config: Config, role: Role, policy: W.Policy, steps: seq<Step>): System {
    if steps == [] then Start(config)
    else Next(role, policy, Execution(config, role, policy, steps[..|steps| - 1]), steps[|steps| - 1])
  }

  // ----- the log -----

  /** The requests that left since recovery was journalled, if no guidance came. */
  function Since(log: seq<Mark>, id: AssignmentId): Option<nat> {
    if log == [] then None
    else
      var before, last := Since(log[..|log| - 1], id), log[|log| - 1];
      if last == Recovered(id) then (if before.Some? then before else Some(0))
      else if last == Guided(id) then None
      else if last == Released(id) && before.Some? then Some(before.value + 1)
      else before
  }

  function Requests(log: seq<Mark>, id: AssignmentId): nat {
    if log == [] then 0
    else Requests(log[..|log| - 1], id) + if log[|log| - 1] == Released(id) then 1 else 0
  }

  lemma SinceOne(log: seq<Mark>, mark: Mark, id: AssignmentId)
    ensures var before := Since(log, id);
            Since(log + [mark], id) ==
              if mark == Recovered(id) then (if before.Some? then before else Some(0))
              else if mark == Guided(id) then None
              else if mark == Released(id) && before.Some? then Some(before.value + 1)
              else before
  {
    assert (log + [mark])[..|log + [mark]| - 1] == log;
  }

  /** From a recovery on, without guidance, all requests are counted. */
  lemma {:induction false} SinceCounts(log: seq<Mark>, id: AssignmentId, i: nat, j: nat)
    requires i < j <= |log| && log[i] == Recovered(id) && forall k :: i < k < j ==> log[k] != Guided(id)
    ensures Since(log[..j], id).Some? && Requests(log[i..j], id) <= Since(log[..j], id).value
    decreases j
  {
    assert log[..j][..j - 1] == log[..j - 1];
    if i + 1 == j {
      assert log[i..j] == [Recovered(id)];
    } else {
      SinceCounts(log, id, i, j - 1);
      assert log[i..j][..|log[i..j]| - 1] == log[i..j - 1];
    }
  }

  // ----- the invariant -----

  /** Recovery is journalled only for an assignment whose worker has to wait. */
  ghost predicate RecoveringWaits(db: Database, w: W.Live) {
    forall id :: Attends(w, id).recovery ==> Waits(db, id, Attends(w, id).resume) && Begun(db, Attends(w, id).resume)
  }

  /** The captured epoch still names the captured guidance. */
  predicate Coherent(w: W.Live, id: AssignmentId, resume: Option<CommandId>, epoch: nat) {
    && id in w.known && epoch <= w.epoch
    && (W.ActiveId(w) == Some(id) && w.epoch == epoch ==> w.attention.resume == resume)
  }

  predicate ReplyOk(db: Database, w: W.Live, reply: Reply) {
    match reply
    case Granted(_) => true
    case Noted(id, resume, epoch) => Waits(db, id, resume) && Begun(db, resume) && Coherent(w, id, resume, epoch)
  }

  predicate EnvelopeOk(db: Database, w: W.Live, e: W.Envelope) {
    match e
    case ForAssignment(_, id, _, _, _, Some(waiting), resume) =>
      if waiting then Waits(db, id, resume) && Begun(db, resume)
      else !(Attends(w, id).recovery && Attends(w, id).resume == resume)
    case _ => true
  }

  predicate FrameOk(db: Database, w: W.Live, frame: Frame) {
    match frame
    case Delivered(e) => EnvelopeOk(db, w, e)
    case Reminder(id, resume) => Waits(db, id, resume) && Begun(db, resume)
    case Closed(_) => true
    case Answer(reply) => ReplyOk(db, w, reply)
  }

  ghost predicate FramesOk(db: Database, w: W.Live, frames: seq<Frame>) {
    forall i :: 0 <= i < |frames| ==> FrameOk(db, w, frames[i])
  }

  ghost predicate RepliesOk(db: Database, w: W.Live, resolved: multiset<Reply>) {
    forall r :: r in resolved ==> ReplyOk(db, w, r)
  }

  ghost predicate AsksOk(w: W.Live, asked: multiset<Ask>) {
    forall a :: a in asked && a.AskAttention? ==> Coherent(w, a.id, a.resume, a.epoch)
  }

  predicate Opening(frame: Frame) {
    frame.Delivered? && frame.envelope.ForAssignment? && frame.envelope.waiting.Some?
  }

  predicate Calm(frame: Frame) {
    (frame.Delivered? && !Opening(frame)) || frame.Closed?
  }

  /** What a reconnecting worker is sent comes before anything that answers it. */
  ghost predicate InOrder(phase: Phase, frames: seq<Frame>, resolved: multiset<Reply>) {
    && (phase != Serving ==> resolved == multiset{} && forall i :: 0 <= i < |frames| ==> Calm(frames[i]))
    && (forall j :: 0 <= j < |frames| && Opening(frames[j]) ==> resolved == multiset{} && forall i :: 0 <= i < j ==> Calm(frames[i]))
  }

  function Grants(gated: multiset<AssignmentId>, resolved: multiset<Reply>, frames: seq<Frame>, id: AssignmentId): nat {
    gated[id] + resolved[Granted(id)] + multiset(frames)[Answer(Granted(id))]
  }

  /** A recovery authorization exists once, and never again after it was given. */
  ghost predicate Rationed(db: Database, gated: multiset<AssignmentId>, resolved: multiset<Reply>, frames: seq<Frame>) {
    forall id :: var n := Grants(gated, resolved, frames, id); n <= 1 && (n == 1 ==> ReminderRank(db, id) == 2)
  }

  /** The flag is journalled exactly from a recovery to the next guidance. */
  ghost predicate Logged(w: W.Live, log: seq<Mark>, gated: multiset<AssignmentId>) {
    forall id ::
      && (Since(log, id).Some? <==> Attends(w, id).recovery)
      && (Since(log, id).Some? ==> Since(log, id).value <= gated[id])
  }

  ghost predicate Bounded(log: seq<Mark>) {
    forall id, k: nat :: k <= |log| && Since(log[..k], id).Some? ==> Since(log[..k], id).value <= 1
  }

  ghost predicate Inv(s: System) {
    && W.Inv(s.worker)
    && EpochsBegun(s.db)
    && RecoveringWaits(s.db, s.worker)
    && FramesOk(s.db, s.worker, s.wire + s.todo)
    && RepliesOk(s.db, s.worker, s.resolved)
    && AsksOk(s.worker, s.asked)
    && InOrder(s.phase, s.wire + s.todo, s.resolved)
    && (s.phase != Serving ==> s.todo == [])
    && Rationed(s.db, s.gated, s.resolved, s.wire + s.todo)
    && Logged(s.worker, s.log, s.gated)
    && Bounded(s.log)
  }

  // ----- what a worker step does to its attention -----

  /** Nothing about recovery or guidance is journalled for `id`. */
  predicate SameAt(w: W.Live, after: W.Live, id: AssignmentId) {
    Attends(after, id).recovery == Attends(w, id).recovery && Attends(after, id).resume == Attends(w, id).resume
  }

  ghost predicate SameAll(w: W.Live, after: W.Live) {
    forall id :: SameAt(w, after, id)
  }

  /** What every step of the worker keeps: only its own assignment is touched,
      and the flag is not cleared within a guidance epoch. */
  ghost predicate Keeps(w: W.Live, after: W.Live) {
    match W.ActiveId(after)
    case None => SameAll(w, after)
    case Some(a) =>
      && (forall id :: id != a ==> SameAt(w, after, id))
      && (after.epoch == w.epoch && Attends(w, a).recovery ==> Attends(after, a).recovery)
  }

  /** No assignment is recovering that was not, in the same epoch. */
  ghost predicate NoneNew(w: W.Live, after: W.Live) {
    forall id :: Attends(after, id).recovery ==> Attends(w, id).recovery && Attends(w, id).resume == Attends(after, id).resume
  }

  /** Assignments are known for good, an assignment that is left never comes
      back, and within an epoch the guidance stays. */
  ghost predicate Forward(w: W.Live, after: W.Live) {
    && w.known <= after.known && w.epoch <= after.epoch
    && (W.ActiveId(after).Some? && W.ActiveId(after) != W.ActiveId(w) ==> W.ActiveId(after).value !in w.known)
    && (W.ActiveId(after).Some? && W.ActiveId(after) == W.ActiveId(w) && after.epoch == w.epoch ==> after.attention.resume == w.attention.resume)
  }

  lemma CoherentForward(w: W.Live, after: W.Live, id: AssignmentId, resume: Option<CommandId>, epoch: nat)
    requires Forward(w, after) && Coherent(w, id, resume, epoch)
    ensures Coherent(after, id, resume, epoch)
  {
  }

  // ----- an envelope -----

  /** What accepting an envelope does to the attention of its assignment. */
  ghost predicate Outcome(w: W.Live, after: W.Live, e: W.Envelope) {
    || (SameAll(w, after) && after.epoch == w.epoch)
    || (Guides(e) && after.epoch == w.epoch + 1 && W.ActiveId(after) == W.ActiveId(w)
        && match W.ActiveId(w) case None => SameAll(w, after) case Some(a) =>
             (forall id :: id != a ==> SameAt(w, after, id)) && !Attends(after, a).recovery)
    || (e.ForAssignment? && e.waiting.Some? && W.ActiveId(after) == Some(e.id)
        && (forall id :: id != e.id ==> SameAt(w, after, id))
        && Attends(after, e.id).recovery == e.waiting.value && Attends(after, e.id).resume == e.resume
        && after.epoch == if e.resume != Attends(w, e.id).resume then w.epoch + 1 else w.epoch)
  }

  predicate Guides(e: W.Envelope) {
    e.ForContext? && e.operator
  }

  predicate Unrelated(entry: Journal.Entry) {
    !entry.AttentionChanged?
  }

  lemma UnrelatedSame(w: W.Live, after: W.Live, entry: Journal.Entry)
    requires after.journal == w.journal + [entry] && Unrelated(entry)
    ensures SameAll(w, after)
  {
    forall id ensures SameAt(w, after, id) { Journal.Append(w.journal, entry, id); }
  }

  lemma PatchedAt(w: W.Live, after: W.Live, a: AssignmentId, patch: Journal.Patch)
    requires after.journal == w.journal + [Journal.AttentionChanged(a, patch)]
    ensures forall id :: id != a ==> SameAt(w, after, id)
    ensures Attends(after, a) == Journal.Patched(Attends(w, a), patch)
  {
    forall id ensures id != a ==> SameAt(w, after, id) { Journal.Append(w.journal, Journal.AttentionChanged(a, patch), id); }
    Journal.Append(w.journal, Journal.AttentionChanged(a, patch), a);
  }

  lemma OutcomeThen(w: W.Live, middle: W.Live, after: W.Live, e: W.Envelope)
    requires Outcome(w, middle, e) && SameAll(middle, after) && after.epoch == middle.epoch && W.ActiveId(after) == W.ActiveId(middle)
    ensures Outcome(w, after, e)
  {
    forall id ensures SameAt(w, middle, id) ==> SameAt(w, after, id)
              ensures Attends(after, id).recovery == Attends(middle, id).recovery && Attends(after, id).resume == Attends(middle, id).resume
    {
      assert SameAt(middle, after, id);
    }
  }

  /** Synchronizing the active assignment with what the broker read of it. */
  lemma SyncOutcome(w: W.Live, primed: W.Live, e: W.Envelope)
    requires e.ForAssignment? && W.ActiveId(primed) == Some(e.id) && primed.attention == Attends(w, e.id)
    requires primed.journal == w.journal && primed.epoch == w.epoch
    ensures Outcome(w, W.Sync(primed, e.waiting, e.resume), e)
  {
    var after := W.Sync(primed, e.waiting, e.resume);
    match e.waiting
    case None => assert SameAll(w, after);
    case Some(recovery) =>
      W.SyncPatch(primed, recovery, e.resume);
      PatchedAt(w, after, e.id, Journal.Patch(Some(recovery), Some(after.attention.reminderSeen), Some(after.attention.settlement), Some(e.resume)));
  }

  lemma GuideOutcome(w: W.Live, e: W.Envelope)
    requires e.ForContext?
    ensures Outcome(w, W.Guide(w, e), e)
  {
    var after := W.Guide(w, e);
    if e.operator && e.owner == W.ActiveId(w) {
      match w.active
      case None => assert SameAll(w, after);
      case Some(a) => PatchedAt(w, after, a.id, Journal.Patch(Some(false), None, Some(None), Some(e.resume)));
    } else {
      assert SameAll(w, after);
    }
  }

  lemma BindOutcome(w: W.Live, e: W.Envelope, usage: Journal.Usage)
    ensures Outcome(w, W.Bind(w, e, usage), e)
  {
    if e.ForAssignment? {
      var guard := if W.ActiveId(w) == Some(e.id) then w.guard else Journal.Unguarded;
      var active := Some(Journal.Work(e.id, e.round, e.kind, W.BaselineFor(w, e.id, usage)));
      SyncOutcome(w, w.(guard := guard, active := active, attention := Attends(w, e.id)), e);
    } else {
      GuideOutcome(w, e);
    }
  }

  lemma BoundSame(w: W.Live, e: W.Envelope)
    ensures var after := W.Bound(w, e); SameAll(w, after) && after.epoch == w.epoch && W.ActiveId(after) == W.ActiveId(w)
  {
    if e.ForAssignment? && e.id !in w.known {
      UnrelatedSame(w, W.Bound(w, e), Journal.Boundary(e.id, if w.active.Some? then w.active.value.baseline else None));
    }
  }

  lemma NoteSame(w: W.Live, e: W.Envelope)
    ensures var after := W.Note(w, e); SameAll(w, after) && after.epoch == w.epoch && W.ActiveId(after) == W.ActiveId(w)
  {
    UnrelatedSame(w, W.Note(w, e),
                  if e.ForAssignment? then Journal.AssignmentDelivered(e.delivery, e.id, e.round, e.kind) else Journal.ContextDelivered(e.delivery));
  }

  lemma CutOutcome(w: W.Live, e: W.Envelope, usage: Journal.Usage, point: W.Point)
    ensures Outcome(w, W.CutShort(w, e, usage, point), e)
  {
    if e.delivery !in w.delivered && !W.StaleOwner(w, e) {
      var bind := W.Bind(w, e, usage);
      var start := W.Start(bind, e);
      BindOutcome(w, e, usage);
      assert SameAll(bind, start);
      OutcomeThen(w, bind, start, e);
      BoundSame(start, e);
      OutcomeThen(w, start, W.Bound(start, e), e);
      NoteSame(W.Bound(start, e), e);
      OutcomeThen(w, W.Bound(start, e), W.Note(W.Bound(start, e), e), e);
    } else {
      assert SameAll(w, W.CutShort(w, e, usage, point));
    }
  }

  lemma AcceptOutcome(w: W.Live, e: W.Envelope, usage: Journal.Usage)
    requires W.Inv(w)
    ensures Outcome(w, W.AcceptDelivery(w, e, usage).live, e)
  {
    var after := W.AcceptDelivery(w, e, usage).live;
    if e.delivery in w.delivered {
      if e.ForAssignment? && W.ActiveId(w) == Some(e.id) {
        SyncOutcome(w, w, e);
      } else {
        assert SameAll(w, after);
      }
    } else {
      CutOutcome(w, e, usage, W.AfterNote);
      if W.StaleOwner(w, e) { assert SameAll(w, after); }
    }
  }

  /** The flag survives an envelope within an epoch, unless it says that its
      assignment need not wait in that very epoch. */
  lemma OutcomeKeeps(db: Database, w: W.Live, after: W.Live, e: W.Envelope)
    requires Outcome(w, after, e) && EnvelopeOk(db, w, e)
    ensures Keeps(w, after)
  {
    match W.ActiveId(after)
    case None =>
    case Some(a) => assert SameAt(w, after, a) || !SameAt(w, after, a);
  }

  lemma OutcomeWaits(db: Database, w: W.Live, after: W.Live, e: W.Envelope)
    requires Outcome(w, after, e) && EnvelopeOk(db, w, e) && RecoveringWaits(db, w)
    ensures RecoveringWaits(db, after)
  {
    forall id | Attends(after, id).recovery
      ensures Waits(db, id, Attends(after, id).resume) && Begun(db, Attends(after, id).resume)
    {
      assert SameAt(w, after, id) || !SameAt(w, after, id);
    }
  }

  lemma OutcomeNoneNew(w: W.Live, after: W.Live, e: W.Envelope)
    requires Outcome(w, after, e) && !(e.ForAssignment? && e.waiting.Some?)
    ensures NoneNew(w, after)
  {
    forall id | Attends(after, id).recovery ensures Attends(w, id).recovery && Attends(w, id).resume == Attends(after, id).resume {
      assert SameAt(w, after, id) || !SameAt(w, after, id);
    }
  }

  lemma AcceptForward(w: W.Live, e: W.Envelope, usage: Journal.Usage)
    requires W.Inv(w)
    ensures Forward(w, W.AcceptDelivery(w, e, usage).live)
  {
    var after := W.AcceptDelivery(w, e, usage).live;
    AcceptOutcome(w, e, usage);
    W.AcceptInv(w, e, usage);
    if e.delivery in w.delivered {
    } else if W.StaleOwner(w, e) {
    } else if e.ForAssignment? {
      assert W.ActiveId(after) == Some(e.id);
    } else {
    }
  }

  // ----- every frame, every handler -----

  lemma TakenInv(w: W.Live, frame: Frame, usage: Journal.Usage)
    requires W.Inv(w)
    ensures W.Inv(Taken(w, frame, usage))
  {
    match frame
    case Delivered(e) => W.AcceptInv(w, e, usage);
    case Reminder(id, resume) =>
      if W.ReminderApplies(w, id, resume) { W.PatchInv(w, W.AcceptReminder(w, id, resume), Journal.Patch(Some(true), Some(true), None, None)); }
    case Closed(id) => W.ClosedInv(w, id);
    case Answer(_) =>
  }

  /** The flag is set for the active assignment, in its epoch. */
  lemma SetFlag(db: Database, w: W.Live, after: W.Live, a: AssignmentId, seen: Option<bool>)
    requires W.Inv(w) && W.ActiveId(w) == Some(a) && RecoveringWaits(db, w)
    requires Waits(db, a, w.attention.resume) && Begun(db, w.attention.resume)
    requires after.journal == w.journal + [Journal.AttentionChanged(a, Journal.Patch(Some(true), seen, None, None))]
    requires after.active == w.active && after.epoch == w.epoch && after.known == w.known && after.attention.resume == w.attention.resume
    ensures Keeps(w, after) && Forward(w, after) && RecoveringWaits(db, after)
  {
    PatchedAt(w, after, a, Journal.Patch(Some(true), seen, None, None));
    forall id | Attends(after, id).recovery
      ensures Waits(db, id, Attends(after, id).resume) && Begun(db, Attends(after, id).resume)
    {
      if id != a { assert SameAt(w, after, id); }
    }
  }

  lemma SameStep(db: Database, w: W.Live, after: W.Live)
    requires SameAll(w, after)
    ensures Keeps(w, after) && NoneNew(w, after)
    ensures RecoveringWaits(db, w) ==> RecoveringWaits(db, after)
  {
    forall id ensures Attends(after, id).recovery == Attends(w, id).recovery && Attends(after, id).resume == Attends(w, id).resume {
      assert SameAt(w, after, id);
    }
  }

  lemma ClosedSame(w: W.Live, id: AssignmentId)
    ensures SameAll(w, W.AcceptClosed(w, id)) && Forward(w, W.AcceptClosed(w, id))
    ensures SameAll(w, W.ReportAccepted(w, id)) && Forward(w, W.ReportAccepted(w, id))
  {
    UnrelatedSame(w, W.ReportAccepted(w, id), Journal.ReportDelivered(id));
    if W.ActiveId(w) == Some(id) {
      UnrelatedSame(w, W.AcceptClosed(w, id), Journal.ReportDelivered(id));
    } else {
      assert SameAll(w, w);
    }
  }

  lemma TakenStep(db: Database, w: W.Live, frame: Frame, usage: Journal.Usage)
    requires W.Inv(w) && RecoveringWaits(db, w) && FrameOk(db, w, frame)
    ensures var after := Taken(w, frame, usage);
            Keeps(w, after) && Forward(w, after) && RecoveringWaits(db, after) && (Calm(frame) ==> NoneNew(w, after))
  {
    var after := Taken(w, frame, usage);
    match frame
    case Delivered(e) =>
      AcceptOutcome(w, e, usage);
      AcceptForward(w, e, usage);
      OutcomeKeeps(db, w, after, e);
      OutcomeWaits(db, w, after, e);
      if Calm(frame) { OutcomeNoneNew(w, after, e); }
    case Reminder(id, resume) =>
      if W.ReminderApplies(w, id, resume) { SetFlag(db, w, after, id, Some(true)); } else { SameStep(db, w, after); }
    case Closed(id) =>
      ClosedSame(w, id);
      SameStep(db, w, after);
    case Answer(_) => SameStep(db, w, after);
  }

  // ----- the log of a worker step -----

  lemma LoggedOnce(log: seq<Mark>, mark: Mark, gated: multiset<AssignmentId>)
    requires Bounded(log) && forall id :: gated[id] <= 1
    requires forall id :: Since(log + [mark], id).Some? ==> Since(log + [mark], id).value <= gated[id]
    ensures Bounded(log + [mark])
  {
    var after := log + [mark];
    forall id, k: nat | k <= |after| && Since(after[..k], id).Some? ensures Since(after[..k], id).value <= 1 {
      if k <= |log| {
        assert after[..k] == log[..k];
      } else {
        assert after[..k] == after;
        assert gated[id] <= 1;
      }
    }
  }

  lemma GuidedMark(log: seq<Mark>, gated: multiset<AssignmentId>, a: AssignmentId)
    requires Bounded(log) && forall id :: gated[id] <= 1
    requires forall id :: Since(log, id).Some? ==> Since(log, id).value <= gated[id]
    ensures var after := log + [Guided(a)];
            && Bounded(after)
            && forall id :: Since(after, id) == if id == a then None else Since(log, id)
  {
    forall id ensures Since(log + [Guided(a)], id) == if id == a then None else Since(log, id) {
      SinceOne(log, Guided(a), id);
    }
    LoggedOnce(log, Guided(a), gated);
  }

  lemma RecoveredMark(log: seq<Mark>, gated: multiset<AssignmentId>, a: AssignmentId)
    requires Bounded(log) && (forall id :: gated[id] <= 1) && Since(log, a).None?
    requires forall id :: Since(log, id).Some? ==> Since(log, id).value <= gated[id]
    ensures var after := log + [Recovered(a)];
            && Bounded(after)
            && forall id :: Since(after, id) == if id == a then Some(0) else Since(log, id)
  {
    forall id ensures Since(log + [Recovered(a)], id) == if id == a then Some(0) else Since(log, id) {
      SinceOne(log, Recovered(a), id);
    }
    LoggedOnce(log, Recovered(a), gated);
  }

  lemma MarksLogged(w: W.Live, after: W.Live, log: seq<Mark>, gated: multiset<AssignmentId>)
    requires Keeps(w, after) && Logged(w, log, gated) && Bounded(log) && forall id :: gated[id] <= 1
    ensures Logged(after, log + Marks(w, after), gated) && Bounded(log + Marks(w, after))
  {
    match W.ActiveId(after)
    case None =>
      assert log + [] == log;
      assert forall id :: SameAt(w, after, id);
      forall id ensures Since(log, id).Some? <==> Attends(after, id).recovery { assert SameAt(w, after, id); }
    case Some(a) =>
      var guided := after.epoch != w.epoch;
      var middle := if guided then log + [Guided(a)] else log;
      if guided { GuidedMark(log, gated, a); }
      var recovered := Attends(after, a).recovery && (guided || !Attends(w, a).recovery);
      if recovered { RecoveredMark(middle, gated, a); }
      assert log + Marks(w, after) == if recovered then middle + [Recovered(a)] else middle;
      forall id
        ensures Since(log + Marks(w, after), id).Some? <==> Attends(after, id).recovery
        ensures Since(log + Marks(w, after), id).Some? ==> Since(log + Marks(w, after), id).value <= gated[id]
      {
        if id != a { assert SameAt(w, after, id); }
      }
  }

  // ----- a worker step within the system -----

  lemma FrameForward(db: Database, w: W.Live, after: W.Live, frame: Frame)
    requires FrameOk(db, w, frame) && Forward(w, after) && (Opening(frame) ==> NoneNew(w, after))
    ensures FrameOk(db, after, frame)
  {
    match frame
    case Answer(Noted(id, resume, epoch)) => CoherentForward(w, after, id, resume, epoch);
    case _ =>
  }

  lemma WorkedFrames(db: Database, w: W.Live, after: W.Live, frames: seq<Frame>)
    requires FramesOk(db, w, frames) && Forward(w, after)
    requires NoneNew(w, after) || forall i :: 0 <= i < |frames| ==> !Opening(frames[i])
    ensures FramesOk(db, after, frames)
  {
    forall i | 0 <= i < |frames| ensures FrameOk(db, after, frames[i]) { FrameForward(db, w, after, frames[i]); }
  }

  lemma WorkedReplies(db: Database, w: W.Live, after: W.Live, resolved: multiset<Reply>, asked: multiset<Ask>)
    requires RepliesOk(db, w, resolved) && AsksOk(w, asked) && Forward(w, after)
    ensures RepliesOk(db, after, resolved) && AsksOk(after, asked)
  {
    forall r | r in resolved ensures ReplyOk(db, after, r) {
      if r.Noted? { CoherentForward(w, after, r.id, r.resume, r.epoch); }
    }
    forall a | a in asked && a.AskAttention? ensures Coherent(after, a.id, a.resume, a.epoch) {
      CoherentForward(w, after, a.id, a.resume, a.epoch);
    }
  }

  lemma GatedOnce(s: System)
    requires Inv(s)
    ensures forall id :: s.gated[id] <= 1
  {
    forall id ensures s.gated[id] <= 1 {
      assert Grants(s.gated, s.resolved, s.wire + s.todo, id) <= 1;
    }
  }

  lemma WorkedInv(s: System, after: W.Live)
    requires Inv(s) && W.Inv(after)
    requires Keeps(s.worker, after) && Forward(s.worker, after) && RecoveringWaits(s.db, after)
    requires NoneNew(s.worker, after) || forall i :: 0 <= i < |s.wire + s.todo| ==> !Opening((s.wire + s.todo)[i])
    ensures Inv(Working(s, after))
  {
    GatedOnce(s);
    WorkedFrames(s.db, s.worker, after, s.wire + s.todo);
    WorkedReplies(s.db, s.worker, after, s.resolved, s.asked);
    MarksLogged(s.worker, after, s.log, s.gated);
  }

  // ----- frames come and go -----

  lemma {:induction false} FewerGrants(gated: multiset<AssignmentId>, resolved: multiset<Reply>, frame: Frame, frames: seq<Frame>, id: AssignmentId)
    ensures Grants(gated, resolved, [frame] + frames, id) == Grants(gated, resolved, frames, id) + if frame == Answer(Granted(id)) then 1 else 0
  {
    assert multiset([frame] + frames) == multiset{frame} + multiset(frames);
  }

  /** The first frame is taken off the wire. */
  lemma PopInv(s: System)
    requires Inv(s) && s.wire != []
    ensures Inv(s.(wire := s.wire[1..])) && FrameOk(s.db, s.worker, s.wire[0])
    ensures (forall i :: 0 <= i < |s.wire[1..] + s.todo| ==> !Opening((s.wire[1..] + s.todo)[i])) || Calm(s.wire[0])
  {
    var all, rest := s.wire + s.todo, s.wire[1..] + s.todo;
    assert all == [s.wire[0]] + rest;
    assert forall i :: 0 <= i < |rest| ==> rest[i] == all[i + 1];
    assert FrameOk(s.db, s.worker, all[0]);
    PopOrder(s.phase, all, rest, s.resolved);
    forall id ensures var n := Grants(s.gated, s.resolved, rest, id); n <= 1 && (n == 1 ==> ReminderRank(s.db, id) == 2) {
      FewerGrants(s.gated, s.resolved, s.wire[0], rest, id);
      assert Grants(s.gated, s.resolved, all, id) <= 1;
    }
  }

  lemma PopOrder(phase: Phase, all: seq<Frame>, rest: seq<Frame>, resolved: multiset<Reply>)
    requires InOrder(phase, all, resolved) && all != [] && rest == all[1..]
    ensures InOrder(phase, rest, resolved)
    ensures (forall i :: 0 <= i < |rest| ==> !Opening(rest[i])) || Calm(all[0])
  {
    forall j | 0 <= j < |rest| && Opening(rest[j]) ensures resolved == multiset{} && forall i :: 0 <= i < j ==> Calm(rest[i]) {
      assert Opening(all[j + 1]);
      assert forall i :: 0 <= i < j ==> rest[i] == all[i + 1];
    }
    if i :| 0 <= i < |rest| && Opening(rest[i]) {
      assert Opening(all[i + 1]);
    }
  }

  lemma TakeInv(s: System, usage: Journal.Usage)
    requires Inv(s) && s.wire != [] && !s.wire[0].Answer?
    ensures Inv(Working(s.(wire := s.wire[1..]), Taken(s.worker, s.wire[0], usage)))
  {
    PopInv(s);
    TakenInv(s.worker, s.wire[0], usage);
    TakenStep(s.db, s.worker, s.wire[0], usage);
    WorkedInv(s.(wire := s.wire[1..]), Taken(s.worker, s.wire[0], usage));
  }

  /** An answer reaches the handler that waits for it. */
  lemma AnswerInv(s: System)
    requires Inv(s) && s.wire != [] && s.wire[0].Answer?
    ensures Inv(s.(wire := s.wire[1..], resolved := s.resolved + multiset{s.wire[0].reply}))
  {
    var reply := s.wire[0].reply;
    var after := s.(wire := s.wire[1..], resolved := s.resolved + multiset{reply});
    var all, rest := s.wire + s.todo, s.wire[1..] + s.todo;
    PopInv(s);
    assert all == [s.wire[0]] + rest;
    assert s.phase == Serving by { assert !Calm(all[0]); }
    forall id ensures Grants(s.gated, after.resolved, rest, id) == Grants(s.gated, s.resolved, all, id) {
      FewerGrants(s.gated, s.resolved, s.wire[0], rest, id);
    }
    assert forall r :: r in after.resolved ==> r in s.resolved || r == reply;
  }

  /** A calm frame is sent by another handler. */
  lemma ToldInv(s: System, frame: Frame)
    requires Inv(s) && Calm(frame)
    ensures Inv(s.(wire := s.wire + [frame]))
  {
    var all, after := s.wire + s.todo, s.wire + [frame] + s.todo;
    var n := |s.wire|;
    assert forall i :: 0 <= i < |after| ==> after[i] == if i < n then all[i] else if i == n then frame else all[i - 1];
    assert FramesOk(s.db, s.worker, after) by {
      forall i | 0 <= i < |after| ensures FrameOk(s.db, s.worker, after[i]) {
        if i < n { assert FrameOk(s.db, s.worker, all[i]); } else if i > n { assert FrameOk(s.db, s.worker, all[i - 1]); }
      }
    }
    ToldOrder(s.phase, s.wire, frame, s.todo, s.resolved);
    forall id ensures Grants(s.gated, s.resolved, after, id) == Grants(s.gated, s.resolved, all, id) {
      ToldGrants(s.wire, frame, s.todo, Answer(Granted(id)));
    }
  }

  lemma ToldGrants(wire: seq<Frame>, frame: Frame, todo: seq<Frame>, other: Frame)
    requires frame != other
    ensures multiset(wire + [frame] + todo)[other] == multiset(wire + todo)[other]
  {
    assert multiset(wire + [frame] + todo) == multiset(wire) + multiset{frame} + multiset(todo);
    assert multiset(wire + todo) == multiset(wire) + multiset(todo);
  }

  lemma ToldOrder(phase: Phase, wire: seq<Frame>, frame: Frame, todo: seq<Frame>, resolved: multiset<Reply>)
    requires InOrder(phase, wire + todo, resolved) && Calm(frame)
    ensures InOrder(phase, wire + [frame] + todo, resolved)
  {
    var all, after, n := wire + todo, wire + [frame] + todo, |wire|;
    forall i | 0 <= i < |after| ensures after[i] == frame || (i != n && after[i] == all[if i < n then i else i - 1]) {
    }
    forall j | 0 <= j < |after| && Opening(after[j]) ensures resolved == multiset{} && forall i :: 0 <= i < j ==> Calm(after[i]) {
      assert j != n;
      assert Opening(all[if j < n then j else j - 1]);
      forall i | 0 <= i < j ensures Calm(after[i]) {
        assert after[i] == frame || after[i] == all[if i < n then i else i - 1];
      }
    }
  }

  /** The connection's own handler has one more frame to send. */
  lemma ToSendInv(s: System, frame: Frame)
    requires Inv(s) && Idle(s) && FrameOk(s.db, s.worker, frame) && !Opening(frame)
    requires frame.Answer? && frame.reply.Granted? ==>
      ReminderRank(s.db, frame.reply.id) == 2 && Grants(s.gated, s.resolved, s.wire + s.todo, frame.reply.id) == 0
    ensures Inv(s.(todo := [frame]))
  {
    assert s.wire + s.todo == s.wire;
    var after := s.wire + [frame];
    assert FramesOk(s.db, s.worker, after);
    assert forall j :: 0 <= j < |after| && Opening(after[j]) ==> j < |s.wire| && Opening(s.wire[j]);
    forall id
      ensures Grants(s.gated, s.resolved, after, id) == Grants(s.gated, s.resolved, s.wire, id) + if frame == Answer(Granted(id)) then 1 else 0
    {
      assert multiset(after) == multiset(s.wire) + multiset{frame};
    }
  }

  // ----- transactions -----

  lemma StoreFrame(db: Database, tx: Transaction, w: W.Live, frame: Frame)
    requires FrameOk(db, w, frame)
    ensures FrameOk(Apply(db, tx), w, frame)
  {
    match frame
    case Delivered(ForAssignment(_, id, _, _, _, Some(waiting), resume)) => if waiting { WaitsOn(db, tx, id, resume); }
    case Reminder(id, resume) => WaitsOn(db, tx, id, resume);
    case Answer(Noted(id, resume, epoch)) => WaitsOn(db, tx, id, resume);
    case _ =>
  }

  lemma StoreRations(s: System, tx: Transaction)
    requires Rationed(s.db, s.gated, s.resolved, s.wire + s.todo)
    ensures Rationed(Apply(s.db, tx), s.gated, s.resolved, s.wire + s.todo)
  {
    forall id
      ensures var n := Grants(s.gated, s.resolved, s.wire + s.todo, id); n <= 1 && (n == 1 ==> ReminderRank(Apply(s.db, tx), id) == 2)
    {
      StepRank(s.db, tx, id);
      RankAtMost(Apply(s.db, tx), id);
    }
  }

  lemma StoreInv(s: System, tx: Transaction)
    requires Inv(s)
    ensures Inv(s.(db := Apply(s.db, tx)))
  {
    var db := Apply(s.db, tx);
    EpochsOn(s.db, tx);
    StoreRations(s, tx);
    forall id | Attends(s.worker, id).recovery
      ensures Waits(db, id, Attends(s.worker, id).resume) && Begun(db, Attends(s.worker, id).resume)
    {
      WaitsOn(s.db, tx, id, Attends(s.worker, id).resume);
    }
    forall i | 0 <= i < |s.wire + s.todo| ensures FrameOk(db, s.worker, (s.wire + s.todo)[i]) {
      StoreFrame(s.db, tx, s.worker, (s.wire + s.todo)[i]);
    }
    forall r | r in s.resolved ensures ReplyOk(db, s.worker, r) {
      StoreFrame(s.db, tx, s.worker, Answer(r));
    }
  }

  lemma RemindedWaits(db: Database, role: Role, generation: nat, id: AssignmentId, resume: Option<CommandId>, settlement: RequestId)
    requires EpochsBegun(db) && Reminds(db, SettlementTx(role, generation, id, resume, settlement)).Some?
    ensures var after := Apply(db, SettlementTx(role, generation, id, resume, settlement)); Waits(after, id, resume) && Begun(after, resume)
  {
    StepKeeps(db, SettlementTx(role, generation, id, resume, settlement));
    assert Begun(db, db.assignments[id].resume);
  }

  lemma RevokedRow(db: Database, role: Role, id: AssignmentId)
    requires role in db.roles && id in db.assignments
    ensures Transactions.AttentionWaiting(db, role, id).assignments == db.assignments[id := db.assignments[id].(authorized := false)]
  {
  }

  lemma RaiseIs(db: Database, role: Role, generation: nat, id: AssignmentId, resume: Option<CommandId>)
    requires Owns(db, role, generation, id, resume)
    ensures var row := db.assignments[id];
            RaiseAttention(db, role, generation, id, resume) ==
              if row.attempt == AttentionRaised && !row.authorized then db
              else Transactions.AttentionWaiting(SetAssignment(db, id, row.(attempt := AttentionRaised)), role, id)
  {
  }

  lemma RaisedRow(db: Database, role: Role, generation: nat, id: AssignmentId, resume: Option<CommandId>)
    requires Owns(db, role, generation, id, resume)
    ensures var after := RaiseAttention(db, role, generation, id, resume).assignments;
            id in after && after[id].resume == resume && RecoveryWaiting(after[id])
  {
    var row := db.assignments[id];
    RaiseIs(db, role, generation, id, resume);
    if row.attempt != AttentionRaised || row.authorized {
      RevokedRow(SetAssignment(db, id, row.(attempt := AttentionRaised)), role, id);
    }
  }

  lemma OwnedWaits(db: Database, role: Role, generation: nat, id: AssignmentId, resume: Option<CommandId>)
    requires EpochsBegun(db) && Owns(db, role, generation, id, resume)
    ensures var after := Apply(db, TxFrame(role, generation, AttentionFrame(id, resume))); Waits(after, id, resume) && Begun(after, resume)
  {
    var tx := TxFrame(role, generation, AttentionFrame(id, resume));
    assert Apply(db, tx) == RaiseAttention(db, role, generation, id, resume);
    RaisedRow(db, role, generation, id, resume);
    StepKeeps(db, tx);
    assert Begun(db, db.assignments[id].resume);
  }

  // ----- every step -----

  lemma ServeSettlementInv(s: System, role: Role, policy: W.Policy, generation: nat, id: AssignmentId, resume: Option<CommandId>, settlement: RequestId)
    requires Inv(s)
    ensures Inv(Next(role, policy, s, ServeSettlement(generation, id, resume, settlement)))
  {
    if Idle(s) {
      var tx := SettlementTx(role, generation, id, resume, settlement);
      StoreInv(s, tx);
      if Reminds(s.db, tx).Some? {
        RemindedWaits(s.db, role, generation, id, resume, settlement);
        ToSendInv(s.(db := Apply(s.db, tx)), Reminder(id, resume));
      }
    }
  }

  lemma FewerAsked(s: System, ask: Ask)
    requires Inv(s)
    ensures Inv(s.(asked := s.asked - multiset{ask}))
  {
    assert forall a :: a in s.asked - multiset{ask} ==> a in s.asked;
  }

  /** A reservation that is not claimed yet was never authorized. */
  lemma NotYetGranted(db: Database, gated: multiset<AssignmentId>, resolved: multiset<Reply>, frames: seq<Frame>, tx: Transaction, id: AssignmentId)
    requires Rationed(db, gated, resolved, frames) && Recovers(db, tx) == Some(id)
    ensures Grants(gated, resolved, frames, id) == 0 && ReminderRank(Apply(db, tx), id) == 2
  {
    RecoverRank(db, tx, id);
  }

  lemma RecoversAsked(db: Database, role: Role, generation: nat, ask: Ask)
    requires ask.AskRecovery?
    ensures var tx := RecoveryTx(role, generation, ask); Recovers(db, tx).Some? ==> Recovers(db, tx) == Some(ask.id)
  {
  }

  lemma AuthorizedInv(s: System, tx: Transaction, id: AssignmentId)
    requires Inv(s) && Idle(s) && Recovers(s.db, tx) == Some(id)
    ensures Inv(s.(db := Apply(s.db, tx), todo := [Answer(Granted(id))]))
  {
    StoreInv(s, tx);
    NotYetGranted(s.db, s.gated, s.resolved, s.wire + s.todo, tx, id);
    ToSendInv(s.(db := Apply(s.db, tx)), Answer(Granted(id)));
  }

  lemma ServeRecoveryInv(s: System, role: Role, policy: W.Policy, generation: nat, ask: Ask)
    requires Inv(s)
    ensures Inv(Next(role, policy, s, ServeRecovery(generation, ask)))
  {
    if Idle(s) && ask in s.asked && ask.AskRecovery? {
      var tx := RecoveryTx(role, generation, ask);
      var served := s.(asked := s.asked - multiset{ask});
      FewerAsked(s, ask);
      if Recovers(s.db, tx).Some? {
        RecoversAsked(s.db, role, generation, ask);
        AuthorizedInv(served, tx, ask.id);
      } else {
        StoreInv(served, tx);
      }
    }
  }

  lemma ServeAttentionInv(s: System, role: Role, policy: W.Policy, generation: nat, ask: Ask)
    requires Inv(s)
    ensures Inv(Next(role, policy, s, ServeAttention(generation, ask)))
  {
    if Idle(s) && ask in s.asked && ask.AskAttention? {
      var tx := AttentionTx(role, generation, ask);
      FewerAsked(s, ask);
      var served := s.(asked := s.asked - multiset{ask});
      StoreInv(served, tx);
      if Owns(s.db, role, generation, ask.id, ask.resume) {
        OwnedWaits(s.db, role, generation, ask.id, ask.resume);
        ToSendInv(served.(db := Apply(s.db, tx)), Answer(Noted(ask.id, ask.resume, ask.epoch)));
      }
    }
  }

  /** A worker told that it need not wait is not recovering in that epoch. */
  lemma ReopeningOk(db: Database, w: W.Live, id: AssignmentId, delivery: DeliveryId)
    requires EpochsBegun(db) && RecoveringWaits(db, w) && id in db.assignments && db.assignments[id].state == Accepted
    ensures EnvelopeOk(db, w, Reopening(id, db.assignments[id], delivery))
  {
    assert Begun(db, db.assignments[id].resume);
  }

  lemma ReadInv(s: System, role: Role, policy: W.Policy, id: AssignmentId, delivery: DeliveryId)
    requires Inv(s)
    ensures Inv(Next(role, policy, s, Read(id, delivery)))
  {
    if s.phase == Greeting && id in s.db.assignments && s.db.assignments[id].role == role && s.db.assignments[id].state == Accepted {
      var frame := Delivered(Reopening(id, s.db.assignments[id], delivery));
      var after := s.wire + [frame];
      ReopeningOk(s.db, s.worker, id, delivery);
      assert s.wire + s.todo == s.wire;
      assert FramesOk(s.db, s.worker, after);
      forall other ensures Grants(s.gated, s.resolved, after, other) == Grants(s.gated, s.resolved, s.wire, other) {
        assert multiset(after) == multiset(s.wire) + multiset{frame};
      }
    }
  }

  lemma PushInv(s: System, role: Role, policy: W.Policy)
    requires Inv(s)
    ensures Inv(Next(role, policy, s, Push))
  {
    if s.todo != [] {
      assert s.wire + [s.todo[0]] + s.todo[1..] == s.wire + s.todo;
    }
  }

  /** The connection is gone, and with it all that was on it. */
  lemma LostInv(s: System)
    requires Inv(s)
    ensures Inv(Lost(s))
  {
    forall id
      ensures Grants(s.gated, multiset{}, [], id) <= Grants(s.gated, s.resolved, s.wire + s.todo, id)
    {
    }
  }

  /** The same journal is all that the invariant knows of a restarted worker. */
  lemma RestartedInv(s: System, w: W.Live, log: seq<Mark>)
    requires Inv(s) && s == Lost(s) && W.Inv(W.Restarted(w)) && RecoveringWaits(s.db, w) && Logged(w, log, s.gated) && Bounded(log)
    ensures Inv(s.(worker := W.Restarted(w), log := log))
  {
    assert forall id :: Attends(W.Restarted(w), id) == Attends(w, id);
  }

  lemma DieInv(s: System)
    requires Inv(s)
    ensures Inv(Lost(s).(worker := W.Restarted(s.worker)))
  {
    LostInv(s);
    W.RestartInv(s.worker);
    RestartedInv(Lost(s), s.worker, s.log);
  }

  lemma TakeAndDieInv(s: System, usage: Journal.Usage, point: W.Point)
    requires Inv(s) && s.wire != [] && s.wire[0].Delivered?
    ensures var cut := W.CutShort(s.worker, s.wire[0].envelope, usage, point);
            Inv(Lost(s).(worker := W.Restarted(cut), log := s.log + Marks(s.worker, cut)))
  {
    var e := s.wire[0].envelope;
    var cut := W.CutShort(s.worker, e, usage, point);
    LostInv(s);
    GatedOnce(s);
    assert FrameOk(s.db, s.worker, (s.wire + s.todo)[0]);
    CutOutcome(s.worker, e, usage, point);
    OutcomeKeeps(s.db, s.worker, cut, e);
    OutcomeWaits(s.db, s.worker, cut, e);
    MarksLogged(s.worker, cut, s.log, s.gated);
    W.CutInv(s.worker, e, usage, point);
    RestartedInv(Lost(s), cut, s.log + Marks(s.worker, cut));
  }

  lemma FewerResolved(s: System, reply: Reply)
    requires Inv(s) && reply in s.resolved
    ensures Inv(s.(resolved := s.resolved - multiset{reply}))
    ensures forall i :: 0 <= i < |s.wire + s.todo| ==> !Opening((s.wire + s.todo)[i])
  {
    assert forall r :: r in s.resolved - multiset{reply} ==> r in s.resolved;
    assert forall id ::
      Grants(s.gated, s.resolved - multiset{reply}, s.wire + s.todo, id) <= Grants(s.gated, s.resolved, s.wire + s.todo, id);
  }

  /** An acknowledged signal sets the flag if its guidance still stands. */
  lemma NotedInv(s: System, id: AssignmentId, resume: Option<CommandId>, epoch: nat)
    requires Inv(s) && Noted(id, resume, epoch) in s.resolved
    ensures Inv(WentOn(s, Noted(id, resume, epoch)))
  {
    var rest := s.(resolved := s.resolved - multiset{Noted(id, resume, epoch)});
    var after := W.AttentionAcknowledged(s.worker, id, epoch);
    FewerResolved(s, Noted(id, resume, epoch));
    assert ReplyOk(s.db, s.worker, Noted(id, resume, epoch));
    if W.ActiveId(s.worker) == Some(id) && s.worker.epoch == epoch {
      W.PatchInv(s.worker, after, Journal.Patch(Some(true), None, None, None));
      SetFlag(s.db, s.worker, after, id, None);
    } else {
      SameStep(s.db, s.worker, after);
    }
    WorkedInv(rest, after);
  }

  /** An authorized request leaves, and is counted. */
  lemma GrantedInv(s: System, id: AssignmentId)
    requires Inv(s) && Granted(id) in s.resolved
    ensures Inv(WentOn(s, Granted(id)))
  {
    var after := WentOn(s, Granted(id));
    var frames := s.wire + s.todo;
    FewerResolved(s, Granted(id));
    forall other ensures Grants(after.gated, after.resolved, frames, other) == Grants(s.gated, s.resolved, frames, other) {
    }
    assert Rationed(after.db, after.gated, after.resolved, frames);
    ReleasedLogged(s.worker, s.log, s.gated, id);
    GatedSum(after.gated, after.resolved, frames, s.db);
    forall other ensures Since(after.log, other).Some? ==> Since(after.log, other).value <= after.gated[other] {
      SinceOne(s.log, Released(id), other);
    }
    LoggedOnce(s.log, Released(id), after.gated);
  }

  lemma GatedSum(gated: multiset<AssignmentId>, resolved: multiset<Reply>, frames: seq<Frame>, db: Database)
    requires Rationed(db, gated, resolved, frames)
    ensures forall id :: gated[id] <= 1
  {
    forall id ensures gated[id] <= 1 { assert Grants(gated, resolved, frames, id) <= 1; }
  }

  lemma ReleasedLogged(w: W.Live, log: seq<Mark>, gated: multiset<AssignmentId>, id: AssignmentId)
    requires Logged(w, log, gated)
    ensures Logged(w, log + [Released(id)], gated + multiset{id})
  {
    forall other
      ensures Since(log + [Released(id)], other).Some? <==> Attends(w, other).recovery
      ensures Since(log + [Released(id)], other).Some? ==> Since(log + [Released(id)], other).value <= (gated + multiset{id})[other]
    {
      SinceOne(log, Released(id), other);
    }
  }

  /** A request that leaves without an authorization leaves a worker that is not
      recovering. */
  lemma UngatedInv(s: System, a: AssignmentId)
    requires Inv(s) && W.ActiveId(s.worker) == Some(a) && !s.worker.attention.recovery
    ensures Inv(s.(log := s.log + [Released(a)]))
  {
    assert !Attends(s.worker, a).recovery;
    GatedOnce(s);
    forall id ensures Since(s.log + [Released(a)], id) == Since(s.log, id) {
      SinceOne(s.log, Released(a), id);
      assert Since(s.log, a).None?;
    }
    LoggedOnce(s.log, Released(a), s.gated);
  }

  lemma RequestInv(s: System)
    requires Inv(s)
    ensures Inv(Asked(s))
  {
    match s.worker.active
    case None =>
    case Some(a) =>
      if !s.worker.attention.recovery {
        UngatedInv(s, a.id);
      } else if s.phase != Offline {
        assert forall x :: x in Asked(s).asked ==> x in s.asked || x.AskRecovery?;
      }
  }

  lemma RaiseInv(s: System)
    requires Inv(s)
    ensures Inv(Raised(s))
  {
    match s.worker.active
    case None =>
    case Some(a) =>
      if s.phase != Offline {
        var ask := AskAttention(a.id, s.worker.attention.resume, s.worker.epoch);
        assert Coherent(s.worker, ask.id, ask.resume, ask.epoch);
        assert forall x :: x in Raised(s).asked ==> x in s.asked || x == ask;
      }
  }

  // ----- the worker on its own -----

  lemma SettlementSame(w: W.Live, after: W.Live, patch: Journal.Patch)
    requires patch.recovery.None? && patch.resume.None?
    requires after == w || (w.active.Some? && after.journal == w.journal + [Journal.AttentionChanged(w.active.value.id, patch)])
    ensures SameAll(w, after)
  {
    if after != w { PatchedAt(w, after, w.active.value.id, patch); }
  }

  lemma LocalSame(policy: W.Policy, w: W.Live, event: W.Event)
    requires LocalEvent(event)
    ensures SameAll(w, W.Handled(policy, w, event)) && Forward(w, W.Handled(policy, w, event))
  {
    var after := W.Handled(policy, w, event);
    match event
    case Report(id) => ClosedSame(w, id);
    case Settle(run, resume, settlement) => SettlementSame(w, after, Journal.Patch(None, None, Some(Some(settlement)), None));
    case SettlementAck(id, settlement) => SettlementSame(w, after, Journal.Patch(None, None, Some(None), None));
    case Evaluate(level, observed) =>
      if after != w { UnrelatedSame(w, after, after.journal[|w.journal|]); }
    case Show(reporting) =>
      if after != w { UnrelatedSame(w, after, Journal.WarningShown(w.active.value.id)); }
    case AgentStart =>
  }

  lemma WorkInv(s: System, role: Role, policy: W.Policy, event: W.Event)
    requires Inv(s) && W.ValidPolicy(policy)
    ensures Inv(Next(role, policy, s, Work(event)))
  {
    if LocalEvent(event) {
      var after := W.Handled(policy, s.worker, event);
      W.HandledInv(policy, s.worker, event);
      LocalSame(policy, s.worker, event);
      SameStep(s.db, s.worker, after);
      WorkedInv(s, after);
    }
  }

  lemma ConnectInv(s: System, role: Role, policy: W.Policy, step: Step)
    requires Inv(s) && (step.Connect? || step.NothingToRead?)
    ensures Inv(Next(role, policy, s, step))
  {
    assert forall i :: 0 <= i < |s.wire + s.todo| && Calm((s.wire + s.todo)[i]) ==> !Opening((s.wire + s.todo)[i]);
  }

  lemma SendInv(s: System, role: Role, policy: W.Policy, step: Step)
    requires Inv(s) && (step.Tell? || step.Guide?)
    ensures Inv(Next(role, policy, s, step))
  {
    match step
    case Tell(frame) => if s.phase != Offline && Plain(frame) { ToldInv(s, frame); }
    case Guide(command, delivery) =>
      if s.phase != Offline && role in s.db.roles && command in s.checked {
        ToldInv(s, Delivered(Guidance(s.db, role, command, s.checked[command], delivery)));
      }
  }

  lemma WireInv(s: System, role: Role, policy: W.Policy, step: Step)
    requires Inv(s) && (step.Take? || step.TakeAndDie?)
    ensures Inv(Next(role, policy, s, step))
  {
    if s.wire != [] {
      match step
      case Take(usage) => if s.wire[0].Answer? { AnswerInv(s); } else { TakeInv(s, usage); }
      case TakeAndDie(usage, point) => if s.wire[0].Delivered? { TakeAndDieInv(s, usage, point); }
    }
  }

  lemma GoOnInv(s: System, role: Role, policy: W.Policy, reply: Reply)
    requires Inv(s)
    ensures Inv(Next(role, policy, s, GoOn(reply)))
  {
    if reply in s.resolved {
      match reply
      case Granted(id) => GrantedInv(s, id);
      case Noted(id, resume, epoch) => NotedInv(s, id, resume, epoch);
    }
  }

  lemma StepInv(s: System, role: Role, policy: W.Policy, step: Step)
    requires Inv(s) && W.ValidPolicy(policy)
    ensures Inv(Next(role, policy, s, step))
  {
    match step
    case Store(tx) => StoreInv(s, tx);
    case Connect => ConnectInv(s, role, policy, step);
    case NothingToRead => ConnectInv(s, role, policy, step);
    case Read(id, delivery) => ReadInv(s, role, policy, id, delivery);
    case Tell(_) => SendInv(s, role, policy, step);
    case Check(_, _) =>
    case Guide(_, _) => SendInv(s, role, policy, step);
    case ServeSettlement(generation, id, resume, settlement) => ServeSettlementInv(s, role, policy, generation, id, resume, settlement);
    case ServeRecovery(generation, ask) => ServeRecoveryInv(s, role, policy, generation, ask);
    case ServeAttention(generation, ask) => ServeAttentionInv(s, role, policy, generation, ask);
    case Push => PushInv(s, role, policy);
    case Drop => LostInv(s);
    case Take(_) => WireInv(s, role, policy, step);
    case TakeAndDie(_, _) => WireInv(s, role, policy, step);
    case GoOn(reply) => GoOnInv(s, role, policy, reply);
    case Request => RequestInv(s);
    case Raise => RaiseInv(s);
    case Work(event) => WorkInv(s, role, policy, event);
    case Die => DieInv(s);
  }

  lemma StartInv(config: Config)
    ensures Inv(Start(config))
  {
    assert forall id :: Attends(W.Fresh, id) == Journal.Calm;
  }

  lemma {:induction false} ExecutionInv(config: Config, role: Role, policy: W.Policy, steps: seq<Step>)
    requires W.ValidPolicy(policy)
    ensures Inv(Execution(config, role, policy, steps))
    decreases |steps|
  {
    if steps == [] {
      StartInv(config);
    } else {
      ExecutionInv(config, role, policy, steps[..|steps| - 1]);
      StepInv(Execution(config, role, policy, steps[..|steps| - 1]), role, policy, steps[|steps| - 1]);
    }
  }

  /** The journalled recovery flag of an assignment is cleared by guidance and by
      nothing else: not by reconnects, handovers, deaths at any point, late
      frames or transactions of anyone. */
  lemma FlagClearedByGuidanceOnly(config: Config, role: Role, policy: W.Policy, steps: seq<Step>, id: AssignmentId)
    requires W.ValidPolicy(policy)
    ensures var s := Execution(config, role, policy, steps); Attends(s.worker, id).recovery <==> Since(s.log, id).Some?
  {
    ExecutionInv(config, role, policy, steps);
  }

  /** Once the recovery of an assignment is journalled at most one provider
      request of it leaves before the next guidance: over every interleaving of
      transactions, connections and handlers, with the worker dying at any point. */
  lemma OneRecoveryRequest(config: Config, role: Role, policy: W.Policy, steps: seq<Step>, id: AssignmentId, i: nat, j: nat)
    requires W.ValidPolicy(policy)
    requires var log := Execution(config, role, policy, steps).log;
             i < j <= |log| && log[i] == Recovered(id) && forall k :: i < k < j ==> log[k] != Guided(id)
    ensures Requests(Execution(config, role, policy, steps).log[i..j], id) <= 1
  {
    var s := Execution(config, role, policy, steps);
    ExecutionInv(config, role, policy, steps);
    SinceCounts(s.log, id, i, j);
  }

  // ----- the bound is reached -----

  lemma StepOnto(config: Config, role: Role, policy: W.Policy, steps: seq<Step>, step: Step)
    ensures Execution(config, role, policy, steps + [step]) == Next(role, policy, Execution(config, role, policy, steps), step)
  {
    assert (steps + [step])[..|steps + [step]| - 1] == steps;
  }

  const Given1: W.Envelope := W.ForAssignment(1, 1, 1, Implementation, true, None, None)
  const Usage0: Journal.Usage := Journal.Usage(0, 0.0, 0.0, 0.0, 0.0, 0.0, None)

  /** An assignment is stored and sent; the worker accepts it. */
  function Accepting(): seq<Step> {
    [] + [Store(TxAssign(Implementer, Implementation, 1, 1, 1))] + [Connect] + [NothingToRead] + [Tell(Delivered(Given1))] + [Take(Usage0)]
  }

  /** It settles without a report, is reminded, and asks for its recovery turn. */
  function Recovering(): seq<Step> {
    Accepting() + [ServeSettlement(1, 1, None, 7)] + [Push] + [Take(Usage0)]
  }

  function Releasing(): seq<Step> {
    Recovering() + [Request] + [ServeRecovery(1, AskRecovery(1, None))] + [Push] + [Take(Usage0)] + [GoOn(Granted(1))]
  }

  /** The first assignment, open and without guidance. */
  predicate Placed(db: Database) {
    && Implementer in db.roles && db.roles[Implementer].active == Some(1) && db.roles[Implementer].generation == 1
    && 1 in db.assignments && db.assignments[1].state == Delivering && db.assignments[1].resume == None
    && db.assignments[1].attempt == NoAttempt
  }

  predicate Untried(row: Assignment) {
    row.reminder == NoReminder && row.settlements == 0 && row.lastSettlement == None
  }

  lemma GivenPlaced(config: Config)
    ensures Implementer in config.Roles()
    ensures var db := Given(InitialDatabase(config), Implementer, Implementation, 1, 1, 1); Placed(db) && Untried(db.assignments[1])
  {
    GivenRows(InitialDatabase(config), Implementer, Implementation, 1, 1, 1);
  }

  /** The stored assignment as its worker has it. */
  predicate Holding(s: System) {
    && Idle(s) && s.wire == [] && s.asked == multiset{} && s.resolved == multiset{} && s.gated == multiset{}
    && Placed(s.db)
    && W.ActiveId(s.worker) == Some(1) && s.worker.attention.resume == None && s.worker.epoch == 0
  }

  lemma FirstAccepted()
    ensures var w := W.AcceptDelivery(W.Fresh, Given1, Usage0).live;
            W.ActiveId(w) == Some(1) && w.attention == Journal.Calm && w.epoch == 0 && Attends(w, 1) == Journal.Calm
  {
    AcceptOutcome(W.Fresh, Given1, Usage0);
    W.AcceptInv(W.Fresh, Given1, Usage0);
    assert Attends(W.Fresh, 1) == Journal.Calm;
  }

  /** The assignment is stored and on its way. */
  lemma GivenReached(config: Config, policy: W.Policy)
    ensures var s := Execution(config, Implementer, policy, Accepting()[..4]);
            && Implementer in s.db.roles
            && s == System(Given(InitialDatabase(config), Implementer, Implementation, 1, 1, 1), Serving, [Delivered(Given1)], [],
                           map[], multiset{}, multiset{}, W.Fresh, [], multiset{})
  {
    var a: seq<Step> := [] + [Store(TxAssign(Implementer, Implementation, 1, 1, 1))];
    StepOnto(config, Implementer, policy, [], Store(TxAssign(Implementer, Implementation, 1, 1, 1)));
    StepOnto(config, Implementer, policy, a, Connect);
    StepOnto(config, Implementer, policy, a + [Connect], NothingToRead);
    StepOnto(config, Implementer, policy, a + [Connect] + [NothingToRead], Tell(Delivered(Given1)));
    assert Accepting()[..4] == a + [Connect] + [NothingToRead] + [Tell(Delivered(Given1))];
    assert Implementer in config.Roles();
  }

  lemma FirstTaken(s: System, policy: W.Policy)
    requires s.wire == [Delivered(Given1)] && s.worker == W.Fresh && s.log == []
    ensures Next(Implementer, policy, s, Take(Usage0)) == s.(wire := [], worker := W.AcceptDelivery(W.Fresh, Given1, Usage0).live)
  {
    FirstAccepted();
    assert Marks(W.Fresh, W.AcceptDelivery(W.Fresh, Given1, Usage0).live) == [];
    assert s.log + [] == s.log;
  }

  lemma AcceptingReached(config: Config, policy: W.Policy)
    ensures var s := Execution(config, Implementer, policy, Accepting());
            && Holding(s) && s.log == [] && s.worker.attention == Journal.Calm && Attends(s.worker, 1) == Journal.Calm
            && Untried(s.db.assignments[1])
  {
    var sent := Accepting()[..4];
    GivenReached(config, policy);
    StepOnto(config, Implementer, policy, sent, Take(Usage0));
    assert Accepting() == sent + [Take(Usage0)];
    GivenPlaced(config);
    FirstAccepted();
    FirstTaken(Execution(config, Implementer, policy, sent), policy);
  }

  lemma SettledOnce(s: System, policy: W.Policy)
    requires Holding(s) && Untried(s.db.assignments[1])
    ensures var after := Next(Implementer, policy, s, ServeSettlement(1, 1, None, 7));
            && after == s.(db := after.db, todo := [Reminder(1, None)])
            && Holding(after.(todo := [])) && after.db.assignments[1].reminder == Reserved
  {
    var row := s.db.assignments[1];
    assert Owns(s.db, Implementer, 1, 1, None) && Nudges(row, 7);
    assert Apply(s.db, SettlementTx(Implementer, 1, 1, None, 7)) == AfterSettlement(s.db, Implementer, 1, 7);
  }

  lemma ReminderMark(w: W.Live)
    requires W.ActiveId(w) == Some(1) && w.attention == Journal.Calm && Attends(w, 1) == Journal.Calm
    ensures var after := W.AcceptReminder(w, 1, None);
            && Marks(w, after) == [Recovered(1)]
            && W.ActiveId(after) == Some(1) && after.epoch == w.epoch && after.attention.recovery && after.attention.resume == None
  {
    PatchedAt(w, W.AcceptReminder(w, 1, None), 1, Journal.Patch(Some(true), Some(true), None, None));
  }

  lemma PushTake(s: System, policy: W.Policy)
    requires s.wire == [] && |s.todo| == 1 && !s.todo[0].Answer?
    ensures Next(Implementer, policy, Next(Implementer, policy, s, Push), Take(Usage0))
            == Working(s.(todo := []), Taken(s.worker, s.todo[0], Usage0))
  {
    var pushed := Next(Implementer, policy, s, Push);
    assert pushed == s.(wire := [s.todo[0]], todo := []);
    assert pushed.wire[1..] == [];
  }

  lemma RemindedOnce(s: System, policy: W.Policy)
    requires Holding(s.(todo := [])) && s.todo == [Reminder(1, None)] && s.worker.attention == Journal.Calm
    requires Attends(s.worker, 1) == Journal.Calm && s.log == []
    ensures var after := Next(Implementer, policy, Next(Implementer, policy, s, Push), Take(Usage0));
            && Holding(after) && after.db == s.db && after.worker.attention.recovery && after.log == [Recovered(1)]
  {
    PushTake(s, policy);
    ReminderMark(s.worker);
  }

  lemma RecoveringReached(config: Config, policy: W.Policy)
    ensures var s := Execution(config, Implementer, policy, Recovering());
            Holding(s) && s.db.assignments[1].reminder == Reserved && s.worker.attention.recovery && s.log == [Recovered(1)]
  {
    var a := Accepting();
    var s := Execution(config, Implementer, policy, a);
    AcceptingReached(config, policy);
    StepOnto(config, Implementer, policy, a, ServeSettlement(1, 1, None, 7));
    StepOnto(config, Implementer, policy, a + [ServeSettlement(1, 1, None, 7)], Push);
    StepOnto(config, Implementer, policy, a + [ServeSettlement(1, 1, None, 7)] + [Push], Take(Usage0));
    SettledOnce(s, policy);
    RemindedOnce(Next(Implementer, policy, s, ServeSettlement(1, 1, None, 7)), policy);
  }

  lemma AskedOnce(s: System, policy: W.Policy)
    requires Holding(s) && s.db.assignments[1].reminder == Reserved && s.worker.attention.recovery
    ensures var ask := AskRecovery(1, None);
            var after := Next(Implementer, policy, Next(Implementer, policy, s, Request), ServeRecovery(1, ask));
            after == s.(db := after.db, todo := [Answer(Granted(1))])
  {
    var ask := AskRecovery(1, None);
    assert Next(Implementer, policy, s, Request) == s.(asked := multiset{ask});
    assert Recovers(s.db, RecoveryTx(Implementer, 1, ask)) == Some(1);
  }

  lemma GrantedOnce(s: System, policy: W.Policy)
    requires Idle(s.(todo := [])) && s.todo == [Answer(Granted(1))] && s.wire == [] && s.resolved == multiset{}
    ensures var after := Next(Implementer, policy, Next(Implementer, policy, Next(Implementer, policy, s, Push), Take(Usage0)), GoOn(Granted(1)));
            after.log == s.log + [Released(1)]
  {
    var pushed := Next(Implementer, policy, s, Push);
    assert pushed == s.(wire := [Answer(Granted(1))], todo := []);
    var taken := Next(Implementer, policy, pushed, Take(Usage0));
    assert taken.resolved == multiset{Granted(1)} && taken.log == s.log;
  }

  /** A recovering worker can have its one request: the bound is met in every
      configuration. */
  lemma OneRequestLeaves(config: Config, policy: W.Policy)
    ensures Execution(config, Implementer, policy, Releasing()).log == [Recovered(1), Released(1)]
  {
    var r := Recovering();
    var s := Execution(config, Implementer, policy, r);
    RecoveringReached(config, policy);
    StepOnto(config, Implementer, policy, r, Request);
    StepOnto(config, Implementer, policy, r + [Request], ServeRecovery(1, AskRecovery(1, None)));
    var t := r + [Request] + [ServeRecovery(1, AskRecovery(1, None))];
    StepOnto(config, Implementer, policy, t, Push);
    StepOnto(config, Implementer, policy, t + [Push], Take(Usage0));
    StepOnto(config, Implementer, policy, t + [Push] + [Take(Usage0)], GoOn(Granted(1)));
    AskedOnce(s, policy);
    GrantedOnce(Execution(config, Implementer, policy, t), policy);
  }
}
