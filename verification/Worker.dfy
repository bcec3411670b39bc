/** The worker session: what its handlers keep in memory, what they write to the
    journal, and that a restart at any point rebuilds the memory exactly. */

module Worker {
  import opened Options
  import opened Tables
  import opened Journal

  datatype Envelope =
    | ForAssignment(delivery: DeliveryId, id: AssignmentId, round: nat, kind: Kind, trigger: bool, waiting: Option<bool>, resume: Option<CommandId>)
    | ForContext(delivery: DeliveryId, operator: bool, owner: Option<AssignmentId>, trigger: bool, resume: Option<CommandId>)

  datatype Ack = AckAccepted | AckDuplicate | AckUncertain

  /** `started` lists the deliveries handed to Pi to start a turn with. */
  datatype Live = Live(
    delivered: set<DeliveryId>,
    known: set<AssignmentId>,
    active: Option<Work>,
    attention: Attention,
    guard: Guard,
    epoch: nat,
    reminding: bool,
    started: seq<DeliveryId>,
    journal: seq<Entry>)

  function ActiveId(w: Live): Option<AssignmentId> {
    match w.active case None => None case Some(a) => Some(a.id)
  }

  function Record(w: Live, entry: Entry): Live {
    w.(journal := w.journal + [entry])
  }

  /** Attention entries are written only while an assignment is active. */
  function RecordAttention(w: Live, patch: Patch): Live {
    match w.active
    case None => w
    case Some(a) => Record(w, AttentionChanged(a.id, patch))
  }

  // ----- deliveries -----

  function Sync(w: Live, waiting: Option<bool>, resume: Option<CommandId>): Live {
    match waiting
    case None => w
    case Some(recovery) =>
      var changed := resume != w.attention.resume;
      var attention := Attention(recovery, w.attention.reminderSeen || recovery, if changed then None else w.attention.settlement, resume);
      RecordAttention(
        w.(attention := attention, epoch := if changed then w.epoch + 1 else w.epoch, reminding := false),
        Patch(Some(recovery), Some(attention.reminderSeen), Some(attention.settlement), Some(resume)))
  }

  function Guide(w: Live, e: Envelope): Live
    requires e.ForContext?
  {
    if !e.operator || e.owner != ActiveId(w) then w
    else
      RecordAttention(
        w.(attention := Attention(false, w.attention.reminderSeen, None, e.resume), epoch := w.epoch + 1, reminding := false),
        Patch(Some(false), None, Some(None), Some(e.resume)))
  }

  function BaselineFor(w: Live, id: AssignmentId, usage: Usage): Option<Usage> {
    if ActiveId(w) == Some(id) then w.active.value.baseline else Some(usage)
  }

  function Activate(w: Live, e: Envelope, usage: Usage): Live
    requires e.ForAssignment?
  {
    var guard := if ActiveId(w) == Some(e.id) then w.guard else Unguarded;
    var active := Some(Work(e.id, e.round, e.kind, BaselineFor(w, e.id, usage)));
    Sync(w.(guard := guard, active := active, attention := AttentionOf(w.journal, e.id)), e.waiting, e.resume)
  }

  predicate StaleOwner(w: Live, e: Envelope) {
    match e
    case ForAssignment(_, id, _, _, _, _, _) => id in w.known && ActiveId(w) != Some(id)
    case ForContext(_, operator, owner, trigger, _) => operator && trigger && (w.active.None? || owner != ActiveId(w))
  }

  /** The steps of accepting a new delivery; a crash may fall between any two. */
  function Bind(w: Live, e: Envelope, usage: Usage): Live {
    if e.ForAssignment? then Activate(w, e, usage) else Guide(w, e)
  }

  function Start(w: Live, e: Envelope): Live {
    if e.trigger then w.(started := w.started + [e.delivery]) else w
  }

  function Bound(w: Live, e: Envelope): Live {
    if e.ForAssignment? && e.id !in w.known
    then Record(w, Boundary(e.id, if w.active.Some? then w.active.value.baseline else None)).(known := w.known + {e.id})
    else w
  }

  function Note(w: Live, e: Envelope): Live {
    var entry := if e.ForAssignment? then AssignmentDelivered(e.delivery, e.id, e.round, e.kind) else ContextDelivered(e.delivery);
    Record(w, entry).(delivered := w.delivered + {e.delivery})
  }

  datatype Accepting = Accepting(live: Live, ack: Ack)

  function AcceptDelivery(w: Live, e: Envelope, usage: Usage): Accepting {
    if e.delivery in w.delivered then
      Accepting(if e.ForAssignment? && ActiveId(w) == Some(e.id) then Sync(w, e.waiting, e.resume) else w, AckDuplicate)
    else if StaleOwner(w, e) then Accepting(w, AckUncertain)
    else Accepting(Note(Bound(Start(Bind(w, e, usage), e), e), e), AckAccepted)
  }

  /** How far an acceptance got when the process died. */
  datatype Point = AfterBind | AfterStart | AfterBoundary | AfterNote

  function CutShort(w: Live, e: Envelope, usage: Usage, point: Point): Live {
    if e.delivery in w.delivered || StaleOwner(w, e) then w
    else match point
         case AfterBind => Bind(w, e, usage)
         case AfterStart => Start(Bind(w, e, usage), e)
         case AfterBoundary => Bound(Start(Bind(w, e, usage), e), e)
         case AfterNote => Note(Bound(Start(Bind(w, e, usage), e), e), e)
  }

  // ----- the other handlers -----

  predicate ReminderApplies(w: Live, id: AssignmentId, resume: Option<CommandId>) {
    ActiveId(w) == Some(id) && w.attention.resume == resume && !w.attention.recovery && !w.attention.reminderSeen
  }

  function AcceptReminder(w: Live, id: AssignmentId, resume: Option<CommandId>): Live {
    if !ReminderApplies(w, id, resume) then w
    else
      RecordAttention(
        w.(attention := w.attention.(recovery := true, reminderSeen := true), reminding := true),
        Patch(Some(true), Some(true), None, None))
  }

  function AcceptClosed(w: Live, id: AssignmentId): Live {
    if ActiveId(w) != Some(id) then w
    else Record(w, ReportDelivered(id)).(active := None, guard := Unguarded, attention := Calm)
  }

  /** The broker accepted the report that was sent for `id`. */
  function ReportAccepted(w: Live, id: AssignmentId): Live {
    var noted := Record(w, ReportDelivered(id));
    if ActiveId(w) == Some(id) then noted.(active := None, guard := Unguarded) else noted
  }

  /** The broker recorded the attention raised for `id` in guidance epoch `epoch`. */
  function AttentionAcknowledged(w: Live, id: AssignmentId, epoch: nat): Live {
    if ActiveId(w) == Some(id) && w.epoch == epoch
    then RecordAttention(w.(attention := w.attention.(recovery := true)), Patch(Some(true), None, None, None))
    else w
  }

  function AgentSettled(w: Live, run: AssignmentId, resume: Option<CommandId>, settlement: RequestId): Live {
    if ActiveId(w) == Some(run) && w.attention.resume == resume && w.attention.settlement.None?
    then RecordAttention(w.(attention := w.attention.(settlement := Some(settlement))), Patch(None, None, Some(Some(settlement)), None))
    else w
  }

  function SettlementRecorded(w: Live, id: AssignmentId, settlement: RequestId): Live {
    if ActiveId(w) == Some(id) && w.attention.settlement == Some(settlement)
    then RecordAttention(w.(attention := w.attention.(settlement := None)), Patch(None, None, Some(None), None))
    else w
  }

  type Thresholds = map<Metric, real>

  ghost predicate ValidThresholds(thresholds: Thresholds) {
    forall metric :: metric in thresholds ==> ValidThreshold(metric, thresholds[metric])
  }

  predicate Crossed(thresholds: Thresholds, observed: map<Metric, real>, metric: Metric) {
    metric in thresholds && metric in observed && observed[metric] >= thresholds[metric]
  }

  function FirstFinding(thresholds: Thresholds, observed: map<Metric, real>): Option<Finding> {
    if Crossed(thresholds, observed, ContextPercent) then Some(Finding(ContextPercent, observed[ContextPercent], thresholds[ContextPercent]))
    else if Crossed(thresholds, observed, ContextTokens) then Some(Finding(ContextTokens, observed[ContextTokens], thresholds[ContextTokens]))
    else if Crossed(thresholds, observed, ProviderCalls) then Some(Finding(ProviderCalls, observed[ProviderCalls], thresholds[ProviderCalls]))
    else None
  }

  /** Findings are looked for in this order. */
  predicate Sooner(metric: Metric, other: Metric) {
    (metric == ContextPercent && other != ContextPercent) || (metric == ContextTokens && other == ProviderCalls)
  }

  /** The finding is the first threshold that is reached. */
  lemma CrossingFound(thresholds: Thresholds, observed: map<Metric, real>)
    ensures match FirstFinding(thresholds, observed)
            case None => forall m :: m in thresholds && m in observed ==> observed[m] < thresholds[m]
            case Some(f) =>
              && f.metric in thresholds && f.metric in observed && thresholds[f.metric] <= observed[f.metric]
              && f == Finding(f.metric, observed[f.metric], thresholds[f.metric])
              && forall m :: m in thresholds && m in observed && thresholds[m] <= observed[m] ==> !Sooner(m, f.metric)
  {
    forall m: Metric
      ensures m == ContextPercent || m == ContextTokens || m == ProviderCalls
      ensures m in thresholds && m in observed && thresholds[m] <= observed[m] <==> Crossed(thresholds, observed, m)
    {
    }
    assert FirstFinding(thresholds, observed) == None ==>
      !Crossed(thresholds, observed, ContextPercent) && !Crossed(thresholds, observed, ContextTokens) && !Crossed(thresholds, observed, ProviderCalls);
  }

  function Existing(guard: Guard, level: Level): Option<Finding> {
    match level case Warning => guard.warning case Hard => guard.hard
  }

  function EvaluateLevel(w: Live, level: Level, thresholds: Thresholds, observed: map<Metric, real>): Live {
    if w.active.None? || Existing(w.guard, level).Some? then w
    else match FirstFinding(thresholds, observed)
         case None => w
         case Some(finding) =>
           Record(w, GuardTriggered(w.active.value.id, level, finding)).(guard := Triggered(w.guard, level, finding))
  }

  function ShowWarning(w: Live, reporting: bool): Live {
    if w.active.Some? && !reporting && w.guard.warning.Some? && !w.guard.shown
    then Record(w, WarningShown(w.active.value.id)).(guard := w.guard.(shown := true))
    else w
  }

  function BeforeAgentStart(w: Live): Live {
    w.(reminding := false)
  }

  /** Session start: memory is rebuilt from the journal alone. */
  function Restarted(w: Live): Live {
    var scan := ScanAll(w.journal);
    var active := Attached(scan);
    Live(scan.delivered, scan.known, active,
         if active.Some? then AttentionOf(w.journal, active.value.id) else Calm,
         if active.Some? then GuardOf(w.journal, active.value.id) else Unguarded,
         0, false, w.started, w.journal)
  }

  const Fresh: Live := Live({}, {}, None, Calm, Unguarded, 0, false, [], [])

  // ----- any sequence of handlers -----

  datatype Event =
    | Deliver(envelope: Envelope, usage: Usage)
    | Cut(envelope: Envelope, usage: Usage, point: Point)
    | Remind(id: AssignmentId, resume: Option<CommandId>)
    | Close(id: AssignmentId)
    | Report(id: AssignmentId)
    | AttentionAck(id: AssignmentId, epoch: nat)
    | Settle(id: AssignmentId, resume: Option<CommandId>, settlement: RequestId)
    | SettlementAck(id: AssignmentId, settlement: RequestId)
    | Evaluate(level: Level, observed: map<Metric, real>)
    | Show(reporting: bool)
    | AgentStart
    | Restart

  datatype Policy = Policy(warning: Thresholds, hard: Thresholds)

  ghost predicate ValidPolicy(policy: Policy) {
    ValidThresholds(policy.warning) && ValidThresholds(policy.hard)
  }

  function Handled(policy: Policy, w: Live, event: Event): Live {
    match event
    case Deliver(envelope, usage) => AcceptDelivery(w, envelope, usage).live
    case Cut(envelope, usage, point) => Restarted(CutShort(w, envelope, usage, point))
    case Remind(id, resume) => AcceptReminder(w, id, resume)
    case Close(id) => AcceptClosed(w, id)
    case Report(id) => ReportAccepted(w, id)
    case AttentionAck(id, epoch) => AttentionAcknowledged(w, id, epoch)
    case Settle(id, resume, settlement) => AgentSettled(w, id, resume, settlement)
    case SettlementAck(id, settlement) => SettlementRecorded(w, id, settlement)
    case Evaluate(level, observed) => EvaluateLevel(w, level, if level == Warning then policy.warning else policy.hard, observed)
    case Show(reporting) => ShowWarning(w, reporting)
    case AgentStart => BeforeAgentStart(w)
    case Restart => Restarted(w)
  }

  function Session(policy: Policy, events: seq<Event>): Live {
    if events == [] then Fresh
    else Handled(policy, Session(policy, events[..|events| - 1]), events[|events| - 1])
  }

  // ----- the journal always rebuilds the memory -----

  function Rounded(active: Option<Work>): Option<Work> {
    match active case None => None case Some(a) => Some(a.(baseline := Retained(a.baseline)))
  }

  /** What folding the journal gives is the memory, up to a usage baseline that
      is not a valid one. */
  ghost predicate Replays(w: Live) {
    var scan := ScanAll(w.journal);
    && scan.delivered == w.delivered
    && scan.known == w.known
    && Attached(scan) == Rounded(w.active)
    && (w.active.Some? ==>
          && AttentionOf(w.journal, w.active.value.id) == w.attention
          && GuardOf(w.journal, w.active.value.id) == w.guard)
  }

  ghost predicate Inv(w: Live) {
    && Replays(w)
    && (w.active.Some? ==> w.active.value.id in w.known)
    && GuardsKnown(w.journal, w.known)
  }

  /** Retained baselines are valid ones of known assignments, and so is the
      restored assignment, in every journal. */
  lemma {:induction false} ScanNames(journal: seq<Entry>)
    ensures var scan := ScanAll(journal);
            && (forall id :: id in scan.baselines ==> id in scan.known && ValidBaseline(scan.baselines[id]))
            && (scan.active.Some? ==> scan.active.value.id in scan.known && scan.active.value.baseline.None?)
  {
    if journal != [] { ScanNames(journal[..|journal| - 1]); }
  }

  lemma RestartInv(w: Live)
    requires GuardsKnown(w.journal, ScanAll(w.journal).known)
    ensures Inv(Restarted(w))
  {
    ScanNames(w.journal);
  }

  /** An entry that is neither a guardrail nor about deliveries. */
  lemma PatchInv(w: Live, after: Live, patch: Patch)
    requires Inv(w) && after == RecordAttention(w.(attention := Patched(w.attention, patch), epoch := after.epoch, reminding := after.reminding), patch)
    ensures Inv(after)
  {
    match w.active
    case None =>
    case Some(a) => Append(w.journal, AttentionChanged(a.id, patch), a.id);
  }

  lemma SyncPatch(w: Live, recovery: bool, resume: Option<CommandId>)
    ensures var after := Sync(w, Some(recovery), resume);
            var patch := Patch(Some(recovery), Some(after.attention.reminderSeen), Some(after.attention.settlement), Some(resume));
            after == RecordAttention(w.(attention := Patched(w.attention, patch), epoch := after.epoch, reminding := after.reminding), patch)
  {
  }

  lemma SyncInv(w: Live, waiting: Option<bool>, resume: Option<CommandId>)
    requires Inv(w)
    ensures Inv(Sync(w, waiting, resume))
  {
    match waiting
    case None =>
    case Some(recovery) =>
      var after := Sync(w, waiting, resume);
      SyncPatch(w, recovery, resume);
      PatchInv(w, after, Patch(Some(recovery), Some(after.attention.reminderSeen), Some(after.attention.settlement), Some(resume)));
  }

  lemma GuideInv(w: Live, e: Envelope)
    requires Inv(w) && e.ForContext?
    ensures Inv(Guide(w, e))
  {
    if e.operator && e.owner == ActiveId(w) {
      PatchInv(w, Guide(w, e), Patch(Some(false), None, Some(None), Some(e.resume)));
    }
  }

  // ----- accepting an assignment -----

  /** Between the activation in memory and the delivery entry. */
  ghost predicate Opening(w: Live, e: Envelope) {
    var scan := ScanAll(w.journal);
    && e.ForAssignment?
    && scan.delivered == w.delivered && scan.known == w.known && GuardsKnown(w.journal, w.known)
    && ActiveId(w) == Some(e.id) && w.active.value.round == e.round && w.active.value.kind == e.kind
    && AttentionOf(w.journal, e.id) == w.attention
    && GuardOf(w.journal, e.id) == w.guard
    && if e.id in w.known
       then Retained(w.active.value.baseline) == (if e.id in scan.baselines then Some(scan.baselines[e.id]) else None)
       else e.id !in scan.baselines
  }

  lemma ActivateOpens(w: Live, e: Envelope, usage: Usage)
    requires Inv(w) && e.ForAssignment? && !StaleOwner(w, e)
    ensures Opening(Activate(w, e, usage), e)
  {
    ScanNames(w.journal);
    if ActiveId(w) != Some(e.id) { UnknownUnguarded(w.journal, w.known, e.id); }
    var active := Some(Work(e.id, e.round, e.kind, BaselineFor(w, e.id, usage)));
    var primed := w.(guard := if ActiveId(w) == Some(e.id) then w.guard else Unguarded, active := active, attention := AttentionOf(w.journal, e.id));
    assert Opening(primed, e);
    SyncOpening(primed, e);
  }

  lemma SyncOpening(w: Live, e: Envelope)
    requires Opening(w, e)
    ensures Opening(Sync(w, e.waiting, e.resume), e)
  {
    if e.waiting.Some? {
      var after := Sync(w, e.waiting, e.resume);
      var patch := Patch(Some(e.waiting.value), Some(after.attention.reminderSeen), Some(after.attention.settlement), Some(e.resume));
      SyncPatch(w, e.waiting.value, e.resume);
      SyncKeeps(w, e.waiting, e.resume);
      PatchOpening(w, after, e, patch);
    }
  }

  /** One attention entry of the assignment that is being accepted. */
  lemma PatchOpening(w: Live, after: Live, e: Envelope, patch: Patch)
    requires Opening(w, e) && after.journal == w.journal + [AttentionChanged(e.id, patch)] && after.attention == Patched(w.attention, patch)
    requires after.delivered == w.delivered && after.known == w.known && after.active == w.active && after.guard == w.guard
    ensures Opening(after, e)
  {
    Append(w.journal, AttentionChanged(e.id, patch), e.id);
  }

  /** What a reconnect says leaves everything but the attention. */
  lemma SyncKeeps(w: Live, waiting: Option<bool>, resume: Option<CommandId>)
    ensures var after := Sync(w, waiting, resume);
            after.delivered == w.delivered && after.known == w.known && after.active == w.active && after.guard == w.guard && after.started == w.started
  {
  }

  lemma BoundOpening(w: Live, e: Envelope)
    requires Opening(w, e)
    ensures Opening(Bound(w, e), e) && e.id in Bound(w, e).known
  {
    if e.id !in w.known { Append(w.journal, Boundary(e.id, w.active.value.baseline), e.id); }
  }

  lemma NoteInv(w: Live, e: Envelope)
    requires Opening(w, e) && e.id in w.known
    ensures Inv(Note(w, e))
  {
    Append(w.journal, AssignmentDelivered(e.delivery, e.id, e.round, e.kind), e.id);
  }

  lemma NoteContextInv(w: Live, e: Envelope)
    requires Inv(w) && e.ForContext?
    ensures Inv(Note(w, e))
  {
    Append(w.journal, ContextDelivered(e.delivery), if w.active.Some? then w.active.value.id else 0);
  }

  lemma AcceptInv(w: Live, e: Envelope, usage: Usage)
    requires Inv(w)
    ensures Inv(AcceptDelivery(w, e, usage).live)
  {
    if e.delivery in w.delivered {
      if e.ForAssignment? { SyncInv(w, e.waiting, e.resume); }
    } else if StaleOwner(w, e) {
    } else if e.ForAssignment? {
      ActivateOpens(w, e, usage);
      var started := Start(Activate(w, e, usage), e);
      BoundOpening(started, e);
      NoteInv(Bound(started, e), e);
    } else {
      GuideInv(w, e);
      NoteContextInv(Start(Guide(w, e), e), e);
    }
  }

  /** Nobody here can take this envelope: its assignment is journalled and not the
      active one, or it would start a turn for an assignment that is not active. */
  ghost predicate Untaken(w: Live, e: Envelope) {
    if e.ForAssignment? then e.id in ScanAll(w.journal).known && !(w.active.Some? && w.active.value.id == e.id)
    else e.operator && e.trigger && !(w.active.Some? && e.owner == Some(w.active.value.id))
  }

  /** What is answered, from the journal alone: a delivery that is journalled is a
      duplicate, whatever the worker does by now; one that is new is accepted,
      journalled, and starts a turn exactly if it is to trigger one; the answer is
      uncertain exactly if it is neither journalled nor taken. */
  lemma AcceptAnswers(w: Live, e: Envelope, usage: Usage)
    requires Inv(w)
    ensures var accepting := AcceptDelivery(w, e, usage);
            var before, after := ScanAll(w.journal).delivered, ScanAll(accepting.live.journal).delivered;
            && (accepting.ack == AckDuplicate <==> e.delivery in before)
            && (accepting.ack == AckUncertain <==> e.delivery !in before && Untaken(w, e))
            && (accepting.ack == AckUncertain <==> e.delivery !in after)
            && after == (if accepting.ack == AckUncertain then before else before + {e.delivery})
            && accepting.live.started == w.started + (if accepting.ack == AckAccepted && e.trigger then [e.delivery] else [])
            && (accepting.ack == AckUncertain ==> accepting.live == w)
            && (accepting.ack == AckAccepted && e.ForAssignment? ==> ActiveId(accepting.live) == Some(e.id))
  {
    AcceptInv(w, e, usage);
    if e.delivery in w.delivered {
      if e.ForAssignment? && ActiveId(w) == Some(e.id) { assert Sync(w, e.waiting, e.resume).delivered == w.delivered; }
    } else if !StaleOwner(w, e) {
      TakenStarts(w, e, usage);
    }
  }

  lemma TakenStarts(w: Live, e: Envelope, usage: Usage)
    ensures var taken := Note(Bound(Start(Bind(w, e, usage), e), e), e);
            && taken.started == w.started + (if e.trigger then [e.delivery] else [])
            && taken.delivered == w.delivered + {e.delivery}
            && (e.ForAssignment? ==> ActiveId(taken) == Some(e.id))
  {
    var bind := Bind(w, e, usage);
    assert bind.started == w.started && bind.delivered == w.delivered;
    if e.ForAssignment? { assert ActiveId(bind) == Some(e.id); }
  }

  // ----- the process dies while accepting -----

  lemma CutInv(w: Live, e: Envelope, usage: Usage, point: Point)
    requires Inv(w)
    ensures Inv(Restarted(CutShort(w, e, usage, point)))
  {
    var cut := CutShort(w, e, usage, point);
    if e.delivery in w.delivered || StaleOwner(w, e) {
    } else if e.ForAssignment? {
      ActivateOpens(w, e, usage);
      var started := Start(Activate(w, e, usage), e);
      BoundOpening(started, e);
      NoteInv(Bound(started, e), e);
    } else {
      GuideInv(w, e);
      NoteContextInv(Start(Guide(w, e), e), e);
    }
    assert GuardsKnown(cut.journal, ScanAll(cut.journal).known);
    RestartInv(cut);
  }

  /** However far an acceptance got, no other delivery was journalled. */
  lemma CutDelivers(w: Live, e: Envelope, usage: Usage, point: Point)
    requires Inv(w)
    ensures ScanAll(CutShort(w, e, usage, point).journal).delivered <= ScanAll(w.journal).delivered + {e.delivery}
  {
    if e.delivery in w.delivered || StaleOwner(w, e) {
    } else if point == AfterNote {
      AcceptAnswers(w, e, usage);
    } else {
      UnnotedDelivers(w, e, usage, point);
    }
  }

  lemma UnnotedDelivers(w: Live, e: Envelope, usage: Usage, point: Point)
    requires Inv(w) && !StaleOwner(w, e) && e.delivery !in w.delivered && point != AfterNote
    ensures ScanAll(CutShort(w, e, usage, point).journal).delivered == ScanAll(w.journal).delivered
  {
    if e.ForAssignment? {
      ActivateOpens(w, e, usage);
      BoundOpening(Start(Activate(w, e, usage), e), e);
    } else {
      GuideInv(w, e);
    }
  }

  // ----- the other handlers -----

  lemma ClosedInv(w: Live, id: AssignmentId)
    requires Inv(w)
    ensures Inv(AcceptClosed(w, id)) && Inv(ReportAccepted(w, id))
  {
    Append(w.journal, ReportDelivered(id), if w.active.Some? then w.active.value.id else 0);
  }

  lemma AttentionInv(w: Live, event: Event)
    requires Inv(w) && (event.Remind? || event.AttentionAck? || event.Settle? || event.SettlementAck?)
    ensures forall policy :: Inv(Handled(policy, w, event))
  {
    match event
    case Remind(id, resume) =>
      if ReminderApplies(w, id, resume) { PatchInv(w, AcceptReminder(w, id, resume), Patch(Some(true), Some(true), None, None)); }
    case AttentionAck(id, epoch) =>
      if ActiveId(w) == Some(id) && w.epoch == epoch { PatchInv(w, AttentionAcknowledged(w, id, epoch), Patch(Some(true), None, None, None)); }
    case Settle(id, resume, settlement) =>
      if ActiveId(w) == Some(id) && w.attention.resume == resume && w.attention.settlement.None? {
        PatchInv(w, AgentSettled(w, id, resume, settlement), Patch(None, None, Some(Some(settlement)), None));
      }
    case SettlementAck(id, settlement) =>
      if ActiveId(w) == Some(id) && w.attention.settlement == Some(settlement) {
        PatchInv(w, SettlementRecorded(w, id, settlement), Patch(None, None, Some(None), None));
      }
  }

  lemma FindingValid(thresholds: Thresholds, observed: map<Metric, real>)
    requires ValidThresholds(thresholds)
    ensures match FirstFinding(thresholds, observed) case None => true case Some(finding) => ValidFinding(finding)
  {
    match FirstFinding(thresholds, observed)
    case None =>
    case Some(finding) =>
      assert finding.metric in thresholds && finding.threshold == thresholds[finding.metric];
      assert ValidThreshold(finding.metric, thresholds[finding.metric]);
  }

  lemma EvaluateInv(w: Live, level: Level, thresholds: Thresholds, observed: map<Metric, real>)
    requires Inv(w) && ValidThresholds(thresholds)
    ensures Inv(EvaluateLevel(w, level, thresholds, observed))
  {
    if w.active.Some? && FirstFinding(thresholds, observed).Some? {
      var finding := FirstFinding(thresholds, observed).value;
      FindingValid(thresholds, observed);
      Append(w.journal, GuardTriggered(w.active.value.id, level, finding), w.active.value.id);
    }
  }

  lemma ShowInv(w: Live, reporting: bool)
    requires Inv(w)
    ensures Inv(ShowWarning(w, reporting))
  {
    if w.active.Some? { Append(w.journal, WarningShown(w.active.value.id), w.active.value.id); }
  }

  lemma HandledInv(policy: Policy, w: Live, event: Event)
    requires Inv(w) && ValidPolicy(policy)
    ensures Inv(Handled(policy, w, event))
  {
    match event
    case Deliver(envelope, usage) => AcceptInv(w, envelope, usage);
    case Cut(envelope, usage, point) => CutInv(w, envelope, usage, point);
    case Close(id) => ClosedInv(w, id);
    case Report(id) => ClosedInv(w, id);
    case Evaluate(level, observed) => EvaluateInv(w, level, if level == Warning then policy.warning else policy.hard, observed);
    case Show(reporting) => ShowInv(w, reporting);
    case AgentStart =>
    case Restart => RestartInv(w);
    case _ => AttentionInv(w, event);
  }

  /** After every handler of every session, folding the journal gives exactly the
      deliveries, the known assignments and the active assignment with its valid
      usage baseline, and, while one is active, its attention and guardrails. */
  lemma {:induction false} JournalReplays(policy: Policy, events: seq<Event>)
    requires ValidPolicy(policy)
    ensures Inv(Session(policy, events))
    decreases |events|
  {
    if events != [] {
      JournalReplays(policy, events[..|events| - 1]);
      HandledInv(policy, Session(policy, events[..|events| - 1]), events[|events| - 1]);
    }
  }

  /** A restart gives back the session's memory exactly when the usage baseline
      it holds is a valid one. */
  lemma RestartRestores(policy: Policy, events: seq<Event>)
    requires ValidPolicy(policy)
    ensures var w := Session(policy, events);
            var again := Restarted(w);
            && again.delivered == w.delivered && again.known == w.known
            && again.active == Rounded(w.active)
            && (w.active.Some? ==> again.attention == w.attention && again.guard == w.guard)
            && (again.active == w.active <==> (w.active.Some? && w.active.value.baseline.Some? ==> ValidBaseline(w.active.value.baseline.value)))
  {
    JournalReplays(policy, events);
  }

  // ----- guidance without an owner -----

  /** Guidance for a role that holds no assignment names none, and the worker that
      holds none applies it: earlier signals are outdated, nothing is journalled,
      and a restart knows nothing of it. */
  lemma UnboundGuidance(w: Live, e: Envelope)
    requires e.ForContext? && e.operator && e.owner == None && w.active == None
    ensures var after := Guide(w, e);
            && after.epoch == w.epoch + 1 && !after.attention.recovery && after.journal == w.journal
            && Restarted(after) == Restarted(w)
            && forall id, epoch :: AttentionAcknowledged(after, id, epoch) == after
  {
  }

  // ----- one finding per level -----

  predicate SameFinding(a: Entry, b: Entry) {
    a.GuardTriggered? && b.GuardTriggered? && a.id == b.id && a.level == b.level
  }

  /** At most one valid finding of each level is journalled for an assignment. */
  ghost predicate OneFinding(journal: seq<Entry>) {
    && (forall entry :: entry in journal && entry.GuardTriggered? ==> ValidFinding(entry.finding))
    && forall i, j :: 0 <= i < j < |journal| ==> !SameFinding(journal[i], journal[j])
  }

  /** The folded guardrails name a finding for every level that has an entry. */
  lemma {:induction false} FoundExists(journal: seq<Entry>, i: nat)
    requires OneFinding(journal) && i < |journal| && journal[i].GuardTriggered?
    ensures Existing(GuardOf(journal, journal[i].id), journal[i].level).Some?
    decreases |journal|
  {
    var shorter, last := journal[..|journal| - 1], journal[|journal| - 1];
    assert last in journal;
    assert forall entry :: entry in shorter ==> entry in journal;
    if i < |shorter| { FoundExists(shorter, i); }
  }

  lemma OneMore(journal: seq<Entry>, entry: Entry)
    requires OneFinding(journal)
    requires entry.GuardTriggered? ==> ValidFinding(entry.finding) && forall i :: 0 <= i < |journal| ==> !SameFinding(journal[i], entry)
    ensures OneFinding(journal + [entry])
  {
    forall i, j | 0 <= i < j < |journal + [entry]| ensures !SameFinding((journal + [entry])[i], (journal + [entry])[j]) {
      if j < |journal| { assert !SameFinding(journal[i], journal[j]); }
    }
  }

  lemma EvaluatedOnce(w: Live, level: Level, thresholds: Thresholds, observed: map<Metric, real>)
    requires Inv(w) && OneFinding(w.journal)
    ensures ValidThresholds(thresholds) ==> OneFinding(EvaluateLevel(w, level, thresholds, observed).journal)
  {
    if ValidThresholds(thresholds) && w.active.Some? && Existing(w.guard, level).None? && FirstFinding(thresholds, observed).Some? {
      var entry := GuardTriggered(w.active.value.id, level, FirstFinding(thresholds, observed).value);
      FindingValid(thresholds, observed);
      forall i | 0 <= i < |w.journal| ensures !SameFinding(w.journal[i], entry) {
        if SameFinding(w.journal[i], entry) { FoundExists(w.journal, i); }
      }
      OneMore(w.journal, entry);
    }
  }

  ghost predicate Unguarding(entry: Entry) {
    !entry.GuardTriggered?
  }

  lemma {:induction false} MoreUnguarding(journal: seq<Entry>, more: seq<Entry>)
    requires OneFinding(journal) && forall i :: 0 <= i < |more| ==> Unguarding(more[i])
    ensures OneFinding(journal + more)
    decreases |more|
  {
    if more == [] {
      assert journal + more == journal;
    } else {
      var n := |more| - 1;
      MoreUnguarding(journal, more[..n]);
      OneMore(journal + more[..n], more[n]);
      assert journal + more == journal + more[..n] + [more[n]];
    }
  }

  /** The entries a handler other than the guardrails appends. */
  lemma Appended(policy: Policy, w: Live, event: Event) returns (more: seq<Entry>)
    requires !event.Evaluate?
    ensures Handled(policy, w, event).journal == w.journal + more
    ensures forall i :: 0 <= i < |more| ==> Unguarding(more[i])
  {
    var after := Handled(policy, w, event);
    match event {
      case Deliver(envelope, usage) =>
        if envelope.delivery in w.delivered || StaleOwner(w, envelope) {
        } else {
          more := AppendedBy(w, envelope, usage, AfterNote);
          return;
        }
      case Cut(envelope, usage, point) =>
        more := AppendedBy(w, envelope, usage, point);
        return;
      case _ =>
    }
    more := after.journal[|w.journal|..];
  }

  lemma AppendedBy(w: Live, e: Envelope, usage: Usage, point: Point) returns (more: seq<Entry>)
    ensures CutShort(w, e, usage, point).journal == w.journal + more
    ensures forall i :: 0 <= i < |more| ==> Unguarding(more[i])
  {
    if e.delivery in w.delivered || StaleOwner(w, e) {
      more := [];
    } else {
      var bind := Bind(w, e, usage);
      var bound := Bound(Start(bind, e), e);
      assert w.journal <= bind.journal <= bound.journal;
      more := CutShort(w, e, usage, point).journal[|w.journal|..];
    }
  }

  lemma HandledOnce(policy: Policy, w: Live, event: Event)
    requires Inv(w) && OneFinding(w.journal) && ValidPolicy(policy)
    ensures OneFinding(Handled(policy, w, event).journal)
  {
    if event.Evaluate? {
      EvaluatedOnce(w, event.level, if event.level == Warning then policy.warning else policy.hard, event.observed);
    } else {
      var more := Appended(policy, w, event);
      MoreUnguarding(w.journal, more);
    }
  }

  /** Over every session, with restarts and deaths at any point, an assignment
      gets at most one finding of each level, and only valid ones. */
  lemma {:induction false} OneFindingPerLevel(policy: Policy, events: seq<Event>)
    requires ValidPolicy(policy)
    ensures OneFinding(Session(policy, events).journal)
    decreases |events|
  {
    if events != [] {
      var shorter := events[..|events| - 1];
      OneFindingPerLevel(policy, shorter);
      JournalReplays(policy, shorter);
      HandledOnce(policy, Session(policy, shorter), events[|events| - 1]);
    }
  }
}
