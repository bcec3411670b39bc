/** The worker's durable journal and the three folds that rebuild its state from
    it when a session starts. */

module Journal {
  import opened Options
  import opened Tables

  /** Accumulated provider usage; a broken provider may report fractions. */
  datatype Usage = Usage(calls: nat, input: real, output: real, cacheRead: real, cacheWrite: real, cost: real, reasoning: Option<real>)

  predicate Integral(value: real) {
    value >= 0.0 && value == value.Floor as real
  }

  predicate ValidBaseline(usage: Usage) {
    && Integral(usage.input) && Integral(usage.output) && Integral(usage.cacheRead) && Integral(usage.cacheWrite)
    && usage.cost >= 0.0
    && (usage.reasoning.Some? ==> Integral(usage.reasoning.value))
  }

  function Retained(baseline: Option<Usage>): Option<Usage> {
    if baseline.Some? && ValidBaseline(baseline.value) then baseline else None
  }

  datatype Level = Warning | Hard

  /** In the order in which the thresholds are examined. */
  datatype Metric = ContextPercent | ContextTokens | ProviderCalls

  datatype Finding = Finding(metric: Metric, observed: real, threshold: real)

  const MAX_SAFE_INTEGER := 0x1F_FFFF_FFFF_FFFF as real

  predicate ValidThreshold(metric: Metric, threshold: real) {
    if metric.ContextPercent? then 0.0 < threshold <= 100.0
    else 0.0 < threshold <= MAX_SAFE_INTEGER && Integral(threshold)
  }

  predicate ValidFinding(finding: Finding) {
    ValidThreshold(finding.metric, finding.threshold) && finding.observed >= finding.threshold
  }

  /** Fields that are absent from an attention entry leave the state alone. */
  datatype Patch = Patch(
    recovery: Option<bool>,
    seen: Option<bool>,
    settlement: Option<Option<RequestId>>,
    resume: Option<Option<CommandId>>)

  datatype Entry =
    | Boundary(id: AssignmentId, baseline: Option<Usage>)
    | AssignmentDelivered(delivery: DeliveryId, id: AssignmentId, round: nat, kind: Kind)
    | ContextDelivered(delivery: DeliveryId)
    | ReportDelivered(id: AssignmentId)
    | AttentionChanged(id: AssignmentId, patch: Patch)
    | GuardTriggered(id: AssignmentId, level: Level, finding: Finding)
    | WarningShown(id: AssignmentId)

  datatype Work = Work(id: AssignmentId, round: nat, kind: Kind, baseline: Option<Usage>)

  // ----- deliveries and the active assignment -----

  /** The accumulator of the restoring loop. */
  datatype Scan = Scan(
    delivered: set<DeliveryId>,
    known: set<AssignmentId>,
    active: Option<Work>,
    baselines: map<AssignmentId, Usage>)

  function ScanEntry(scan: Scan, entry: Entry): Scan {
    match entry
    case Boundary(id, baseline) =>
      var named := scan.(known := scan.known + {id});
      if Retained(baseline).Some? then named.(baselines := named.baselines[id := baseline.value]) else named
    case AssignmentDelivered(delivery, id, round, kind) =>
      scan.(delivered := scan.delivered + {delivery}, known := scan.known + {id}, active := Some(Work(id, round, kind, None)))
    case ContextDelivered(delivery) => scan.(delivered := scan.delivered + {delivery})
    case ReportDelivered(id) =>
      if scan.active.Some? && scan.active.value.id == id then scan.(active := None) else scan
    case _ => scan
  }

  function ScanAll(journal: seq<Entry>): Scan {
    if journal == [] then Scan({}, {}, None, map[])
    else ScanEntry(ScanAll(journal[..|journal| - 1]), journal[|journal| - 1])
  }

  function Attached(scan: Scan): Option<Work> {
    match scan.active
    case None => None
    case Some(a) => Some(if a.id in scan.baselines then a.(baseline := Some(scan.baselines[a.id])) else a)
  }

  method RestoreWorkerState(journal: seq<Entry>)
    returns (delivered: set<DeliveryId>, known: set<AssignmentId>, active: Option<Work>)
    ensures delivered == ScanAll(journal).delivered
    ensures known == ScanAll(journal).known
    ensures active == Attached(ScanAll(journal))
  {
    delivered, known, active := {}, {}, None;
    var baselines: map<AssignmentId, Usage> := map[];
    for i := 0 to |journal|
      invariant Scan(delivered, known, active, baselines) == ScanAll(journal[..i])
    {
      assert journal[..i + 1][..i] == journal[..i];
      match journal[i]
      case Boundary(id, baseline) =>
        known := known + {id};
        if baseline.Some? && ValidBaseline(baseline.value) { baselines := baselines[id := baseline.value]; }
      case AssignmentDelivered(delivery, id, round, kind) =>
        delivered := delivered + {delivery};
        known := known + {id};
        active := Some(Work(id, round, kind, None));
      case ContextDelivered(delivery) => delivered := delivered + {delivery};
      case ReportDelivered(id) =>
        if active.Some? && active.value.id == id { active := None; }
      case _ =>
    }
    assert journal[..|journal|] == journal;
    if active.Some? && active.value.id in baselines {
      active := Some(active.value.(baseline := Some(baselines[active.value.id])));
    }
  }

  // ----- attention -----

  datatype Attention = Attention(recovery: bool, reminderSeen: bool, settlement: Option<RequestId>, resume: Option<CommandId>)

  const Calm: Attention := Attention(false, false, None, None)

  function Patched(state: Attention, patch: Patch): Attention {
    Attention(
      if patch.recovery.Some? then patch.recovery.value else state.recovery,
      state.reminderSeen || patch.seen == Some(true),
      if patch.settlement.Some? then patch.settlement.value else state.settlement,
      if patch.resume.Some? then patch.resume.value else state.resume)
  }

  function AttentionOf(journal: seq<Entry>, id: AssignmentId): Attention {
    if journal == [] then Calm
    else
      var state := AttentionOf(journal[..|journal| - 1], id);
      var entry := journal[|journal| - 1];
      if entry.AttentionChanged? && entry.id == id then Patched(state, entry.patch) else state
  }

  method RestoreAttentionState(journal: seq<Entry>, id: Option<AssignmentId>) returns (state: Attention)
    ensures state == if id.Some? then AttentionOf(journal, id.value) else Calm
  {
    state := Calm;
    if id.None? { return; }
    for i := 0 to |journal|
      invariant state == AttentionOf(journal[..i], id.value)
    {
      assert journal[..i + 1][..i] == journal[..i];
      var entry := journal[i];
      if entry.AttentionChanged? && entry.id == id.value {
        if entry.patch.resume.Some? { state := state.(resume := entry.patch.resume.value); }
        if entry.patch.recovery.Some? { state := state.(recovery := entry.patch.recovery.value); }
        if entry.patch.seen == Some(true) { state := state.(reminderSeen := true); }
        if entry.patch.settlement.Some? { state := state.(settlement := entry.patch.settlement.value); }
      }
    }
    assert journal[..|journal|] == journal;
  }

  // ----- guardrails -----

  datatype Guard = Guard(warning: Option<Finding>, hard: Option<Finding>, shown: bool)

  const Unguarded: Guard := Guard(None, None, false)

  function Triggered(guard: Guard, level: Level, finding: Finding): Guard {
    match level
    case Warning => if guard.warning.None? then guard.(warning := Some(finding)) else guard
    case Hard => if guard.hard.None? then guard.(hard := Some(finding)) else guard
  }

  function GuardEntry(guard: Guard, entry: Entry, id: AssignmentId): Guard {
    match entry
    case GuardTriggered(owner, level, finding) =>
      if owner == id && ValidFinding(finding) then Triggered(guard, level, finding) else guard
    case WarningShown(owner) => if owner == id then guard.(shown := guard.warning.Some?) else guard
    case _ => guard
  }

  function GuardOf(journal: seq<Entry>, id: AssignmentId): Guard {
    if journal == [] then Unguarded
    else GuardEntry(GuardOf(journal[..|journal| - 1], id), journal[|journal| - 1], id)
  }

  method RestoreGuardrailState(journal: seq<Entry>, id: Option<AssignmentId>) returns (state: Guard)
    ensures state == if id.Some? then GuardOf(journal, id.value) else Unguarded
  {
    state := Unguarded;
    if id.None? { return; }
    for i := 0 to |journal|
      invariant state == GuardOf(journal[..i], id.value)
    {
      assert journal[..i + 1][..i] == journal[..i];
      match journal[i]
      case GuardTriggered(owner, level, finding) =>
        if owner == id.value && ValidFinding(finding) {
          if level == Warning && state.warning.None? { state := state.(warning := Some(finding)); }
          if level == Hard && state.hard.None? { state := state.(hard := Some(finding)); }
        }
      case WarningShown(owner) => if owner == id.value { state := state.(shown := state.warning.Some?); }
      case _ =>
    }
    assert journal[..|journal|] == journal;
  }

  // ----- appending -----

  lemma Append(journal: seq<Entry>, entry: Entry, id: AssignmentId)
    ensures ScanAll(journal + [entry]) == ScanEntry(ScanAll(journal), entry)
    ensures AttentionOf(journal + [entry], id)
            == if entry.AttentionChanged? && entry.id == id then Patched(AttentionOf(journal, id), entry.patch) else AttentionOf(journal, id)
    ensures GuardOf(journal + [entry], id) == GuardEntry(GuardOf(journal, id), entry, id)
  {
    assert (journal + [entry])[..|journal + [entry]| - 1] == journal;
  }

  ghost predicate GuardsKnown(journal: seq<Entry>, known: set<AssignmentId>) {
    forall entry :: entry in journal && (entry.GuardTriggered? || entry.WarningShown?) ==> entry.id in known
  }

  /** An assignment the worker never heard of has no guardrail entries. */
  lemma {:induction false} UnknownUnguarded(journal: seq<Entry>, known: set<AssignmentId>, id: AssignmentId)
    requires GuardsKnown(journal, known) && id !in known
    ensures GuardOf(journal, id) == Unguarded
  {
    if journal != [] {
      var shorter, last := journal[..|journal| - 1], journal[|journal| - 1];
      assert last in journal;
      assert forall entry :: entry in shorter ==> entry in journal;
      UnknownUnguarded(shorter, known, id);
    }
  }

  // ----- what the folds find -----

  predicate Delivers(entry: Entry, delivery: DeliveryId) {
    (entry.AssignmentDelivered? || entry.ContextDelivered?) && entry.delivery == delivery
  }

  predicate Names(entry: Entry, id: AssignmentId) {
    (entry.Boundary? || entry.AssignmentDelivered?) && entry.id == id
  }

  lemma LastOf(journal: seq<Entry>)
    requires journal != []
    ensures journal == journal[..|journal| - 1] + [journal[|journal| - 1]]
  {
  }

  /** Delivered and known is exactly what some entry says. */
  lemma {:induction false} ScanMembers(journal: seq<Entry>)
    ensures forall d :: d in ScanAll(journal).delivered <==> exists e :: e in journal && Delivers(e, d)
    ensures forall id :: id in ScanAll(journal).known <==> exists e :: e in journal && Names(e, id)
  {
    if journal != [] {
      var front, last := journal[..|journal| - 1], journal[|journal| - 1];
      LastOf(journal);
      ScanMembers(front);
      forall d ensures d in ScanAll(journal).delivered <==> exists e :: e in journal && Delivers(e, d) {
        if d in ScanAll(front).delivered {
          var e :| e in front && Delivers(e, d);
          assert e in journal;
        }
        if Delivers(last, d) { assert last in journal; }
      }
      forall id ensures id in ScanAll(journal).known <==> exists e :: e in journal && Names(e, id) {
        if id in ScanAll(front).known {
          var e :| e in front && Names(e, id);
          assert e in journal;
        }
        if Names(last, id) { assert last in journal; }
      }
    }
  }

  /** The assignment of entry `i` was not reported or followed by another one. */
  ghost predicate Open(journal: seq<Entry>, i: nat) {
    && i < |journal| && journal[i].AssignmentDelivered?
    && forall j :: i < j < |journal| ==> !journal[j].AssignmentDelivered? && journal[j] != ReportDelivered(journal[i].id)
  }

  /** The active assignment is the open one, and there is none exactly if none is
      open. */
  lemma {:induction false} ScanActive(journal: seq<Entry>) returns (i: nat)
    ensures match ScanAll(journal).active
            case Some(a) => Open(journal, i) && a == Work(journal[i].id, journal[i].round, journal[i].kind, None)
            case None => forall k: nat :: !Open(journal, k)
  {
    i := 0;
    if journal != [] {
      var front, last := journal[..|journal| - 1], journal[|journal| - 1];
      i := ScanActive(front);
      if last.AssignmentDelivered? { i := |journal| - 1; }
      forall k: nat | Open(journal, k) && k < |front| ensures Open(front, k) {
      }
      if ScanAll(front).active.Some? && !last.AssignmentDelivered? { OpenOnce(front, i); }
    }
  }

  /** At most one assignment is open. */
  lemma OpenOnce(journal: seq<Entry>, i: nat)
    requires Open(journal, i)
    ensures forall k: nat :: Open(journal, k) ==> k == i
  {
  }

  predicate Records(entry: Entry, id: AssignmentId, level: Level) {
    entry.GuardTriggered? && entry.id == id && entry.level == level && ValidFinding(entry.finding)
  }

  function FindingOf(guard: Guard, level: Level): Option<Finding> {
    match level case Warning => guard.warning case Hard => guard.hard
  }

  /** The finding of a level is that of its first valid entry. */
  lemma {:induction false} GuardFirst(journal: seq<Entry>, id: AssignmentId, level: Level) returns (i: nat)
    ensures match FindingOf(GuardOf(journal, id), level)
            case Some(f) => i < |journal| && Records(journal[i], id, level) && journal[i].finding == f && forall j :: 0 <= j < i ==> !Records(journal[j], id, level)
            case None => forall e :: e in journal ==> !Records(e, id, level)
  {
    i := 0;
    if journal != [] {
      var front := journal[..|journal| - 1];
      LastOf(journal);
      i := GuardFirst(front, id, level);
      if FindingOf(GuardOf(front, id), level) == None {
        i := |journal| - 1;
        forall j | 0 <= j < i ensures !Records(journal[j], id, level) { assert journal[j] == front[j] && front[j] in front; }
      }
    }
  }
}
