/** When a single-provider plan counts as materially supported, and how many
    bytes the support object takes. */

module Support {
  import opened Options
  import opened Planner

  datatype Reference = Reasoning | Image | ContextWindow | MaxOutputTokens | Thinking | CacheShort | CacheLong | DeclaredCost

  datatype Choice = NoReference | By(reference: Reference)

  datatype Preference = PreferSingle | PreferMixed | NoPreference

  // ----- model facts -----

  datatype Tokens = Tokens(declared: bool, tokens: int)

  datatype RetentionStatus = RetentionDeclared | RetentionMissing | RetentionOther

  datatype Retention = Retention(status: RetentionStatus, short: Option<bool>, long: Option<bool>)

  datatype Cost = Cost(declared: bool, tiers: nat, input: real, output: real, cacheRead: real, cacheWrite: real)

  datatype Capabilities = Capabilities(
    reasoning: Option<bool>, image: Option<bool>, context: Tokens, output: Tokens, retention: Retention, cost: Cost)

  type Catalog = map<Identity, Capabilities>

  function Rank(level: Level): nat {
    match level case Off => 0 case Minimal => 1 case Low => 2 case Medium => 3 case High => 4 case XHigh => 5 case Max => 6
  }

  predicate CostAdvantage(left: Cost, right: Cost) {
    && left.declared && right.declared && left.tiers == 0 && right.tiers == 0
    && left.input > 0.0 && right.input > 0.0 && left.input <= right.input * 0.8
    && left.output > 0.0 && right.output > 0.0 && left.output <= right.output * 0.8
    && left.cacheRead <= right.cacheRead && left.cacheWrite <= right.cacheWrite
  }

  predicate TokenAdvantage(left: Tokens, right: Tokens) {
    left.declared && right.declared && left.tokens > 0 && right.tokens > 0 && left.tokens * 4 >= right.tokens * 5
  }

  predicate CacheAdvantage(left: Retention, right: Retention, own: Option<bool>, other: Option<bool>) {
    left.status.RetentionDeclared? && own == Some(true) && !right.status.RetentionOther? && other == Some(false)
  }

  /** A material advantage of one model at one level over another model. */
  predicate Advantage(reference: Reference, left: Capabilities, right: Capabilities, level: Level, levels: seq<Level>) {
    match reference
    case Reasoning => left.reasoning == Some(true) && right.reasoning == Some(false)
    case Image => left.image == Some(true) && right.image == Some(false)
    case ContextWindow => TokenAdvantage(left.context, right.context)
    case MaxOutputTokens => TokenAdvantage(left.output, right.output)
    case Thinking => forall l :: l in levels ==> Rank(level) > Rank(l)
    case CacheShort => CacheAdvantage(left.retention, right.retention, left.retention.short, right.retention.short)
    case CacheLong => CacheAdvantage(left.retention, right.retention, left.retention.long, right.retention.long)
    case DeclaredCost => CostAdvantage(left.cost, right.cost)
  }

  /** The role's tuple beats every candidate of another provider, and there is
      one: vacuous coverage is no support. */
  predicate Supports(reference: Reference, role: RoleFacts, catalog: Catalog, t: Tuple) {
    && t.identity in catalog
    && (exists c :: c in role.candidates && c.identity.provider != t.identity.provider)
    && forall c :: c in role.candidates && c.identity.provider != t.identity.provider ==>
         c.identity in catalog && Advantage(reference, catalog[t.identity], catalog[c.identity], t.level, c.levels)
  }

  datatype Derived = LockedSingle | LockedMixed | Mixed | Supported(reference: Reference)

  function Derive(choice: Choice, preference: Preference, selected: seq<RoleFacts>, catalog: Catalog, tuples: seq<Tuple>): Option<Derived>
    requires |tuples| == |selected|
  {
    var single, mixed := SingleFeasible(selected), MixedFeasible(selected);
    var one := |UsedProviders(tuples)| == 1;
    if (one && !single) || (!one && !mixed) then None
    else if preference == (if one then PreferMixed else PreferSingle) then None
    else if !(single && mixed) then
      if choice != NoReference then None else Some(if single then LockedSingle else LockedMixed)
    else if !one then
      if choice != NoReference then None else Some(Mixed)
    else if preference != PreferSingle || choice == NoReference then None
    else if forall i :: 0 <= i < |selected| ==> Supports(choice.reference, selected[i], catalog, tuples[i])
    then Some(Supported(choice.reference))
    else None
  }

  // ----- what a plan needs to be supported -----

  /** The candidates of another provider that the role offers. */
  ghost predicate Alternative(role: RoleFacts, t: Tuple, c: Candidate) {
    c in role.candidates && c.identity.provider != t.identity.provider
  }

  ghost predicate HasAlternative(role: RoleFacts, t: Tuple) {
    exists c :: Alternative(role, t, c)
  }

  function Window(capabilities: Capabilities, output: bool): Tokens {
    if output then capabilities.output else capabilities.context
  }

  /** Token references: the declared window of the selected model is positive and
      at least five quarters of that of every alternative. */
  lemma SupportedByTokens(output: bool, role: RoleFacts, catalog: Catalog, t: Tuple)
    ensures Supports(if output then MaxOutputTokens else ContextWindow, role, catalog, t) <==>
            && HasAlternative(role, t) && t.identity in catalog
            && forall c :: Alternative(role, t, c) ==>
                 && c.identity in catalog
                 && Window(catalog[t.identity], output).declared && Window(catalog[c.identity], output).declared
                 && Window(catalog[c.identity], output).tokens > 0
                 && Window(catalog[t.identity], output).tokens as real >= Window(catalog[c.identity], output).tokens as real * 1.25
  {
    var reference := if output then MaxOutputTokens else ContextWindow;
    if t.identity in catalog {
      forall c | Alternative(role, t, c) && c.identity in catalog
        ensures Advantage(reference, catalog[t.identity], catalog[c.identity], t.level, c.levels) <==>
                && Window(catalog[t.identity], output).declared && Window(catalog[c.identity], output).declared
                && Window(catalog[c.identity], output).tokens > 0
                && Window(catalog[t.identity], output).tokens as real >= Window(catalog[c.identity], output).tokens as real * 1.25
      {
        FiveQuarters(Window(catalog[t.identity], output), Window(catalog[c.identity], output));
      }
    }
    AlternativesSupport(reference, role, catalog, t);
  }

  lemma FiveQuarters(left: Tokens, right: Tokens)
    ensures TokenAdvantage(left, right) <==>
            left.declared && right.declared && right.tokens > 0 && left.tokens as real >= right.tokens as real * 1.25
  {
    assert (left.tokens * 4) as real == left.tokens as real * 4.0;
    assert (right.tokens * 5) as real == right.tokens as real * 5.0;
  }

  /** One alternative at a time. */
  lemma AlternativesSupport(reference: Reference, role: RoleFacts, catalog: Catalog, t: Tuple)
    ensures Supports(reference, role, catalog, t) <==>
            && HasAlternative(role, t) && t.identity in catalog
            && forall c :: Alternative(role, t, c) ==>
                 c.identity in catalog && Advantage(reference, catalog[t.identity], catalog[c.identity], t.level, c.levels)
  {
    if HasAlternative(role, t) {
      var c :| Alternative(role, t, c);
      assert c in role.candidates && c.identity.provider != t.identity.provider;
    }
    if Supports(reference, role, catalog, t) {
      var c :| c in role.candidates && c.identity.provider != t.identity.provider;
      assert Alternative(role, t, c);
    }
  }

  /** Declared cost: at least a fifth cheaper on both base rates, no cache rate
      higher, no tiers on either side. */
  lemma SupportedByCost(role: RoleFacts, catalog: Catalog, t: Tuple)
    ensures Supports(DeclaredCost, role, catalog, t) <==>
            && HasAlternative(role, t) && t.identity in catalog
            && forall c :: Alternative(role, t, c) ==>
                 && c.identity in catalog
                 && var own, other := catalog[t.identity].cost, catalog[c.identity].cost;
                    && own.declared && other.declared && own.tiers == other.tiers == 0
                    && 0.0 < own.input && 5.0 * own.input <= 4.0 * other.input
                    && 0.0 < own.output && 5.0 * own.output <= 4.0 * other.output
                    && !(own.cacheRead > other.cacheRead) && !(own.cacheWrite > other.cacheWrite)
  {
    if t.identity in catalog {
      forall c | Alternative(role, t, c) && c.identity in catalog
        ensures var own, other := catalog[t.identity].cost, catalog[c.identity].cost;
                CostAdvantage(own, other) <==>
                && own.declared && other.declared && own.tiers == other.tiers == 0
                && 0.0 < own.input && 5.0 * own.input <= 4.0 * other.input
                && 0.0 < own.output && 5.0 * own.output <= 4.0 * other.output
                && !(own.cacheRead > other.cacheRead) && !(own.cacheWrite > other.cacheWrite)
      {
      }
    }
    AlternativesSupport(DeclaredCost, role, catalog, t);
  }

  /** Flags: the selected model is known to have what every alternative is known
      not to have; what is unknown on either side is no support. */
  lemma SupportedByFlag(image: bool, role: RoleFacts, catalog: Catalog, t: Tuple)
    ensures Supports(if image then Image else Reasoning, role, catalog, t) <==>
            && HasAlternative(role, t) && t.identity in catalog
            && (if image then catalog[t.identity].image else catalog[t.identity].reasoning) == Some(true)
            && forall c :: Alternative(role, t, c) ==>
                 c.identity in catalog && (if image then catalog[c.identity].image else catalog[c.identity].reasoning) == Some(false)
  {
    AlternativesSupport(if image then Image else Reasoning, role, catalog, t);
  }

  /** Cache retention: declared and there on the selected side, known to be absent
      on the other, where it may be inferred from a missing declaration. */
  lemma SupportedByCache(long: bool, role: RoleFacts, catalog: Catalog, t: Tuple)
    ensures Supports(if long then CacheLong else CacheShort, role, catalog, t) <==>
            && HasAlternative(role, t) && t.identity in catalog
            && catalog[t.identity].retention.status == RetentionDeclared
            && (if long then catalog[t.identity].retention.long else catalog[t.identity].retention.short) == Some(true)
            && forall c :: Alternative(role, t, c) ==>
                 && c.identity in catalog && catalog[c.identity].retention.status in {RetentionDeclared, RetentionMissing}
                 && (if long then catalog[c.identity].retention.long else catalog[c.identity].retention.short) == Some(false)
  {
    AlternativesSupport(if long then CacheLong else CacheShort, role, catalog, t);
    forall c | Alternative(role, t, c) && c.identity in catalog
      ensures catalog[c.identity].retention.status in {RetentionDeclared, RetentionMissing} <==> !catalog[c.identity].retention.status.RetentionOther?
    {
    }
  }

  const LEVELS: seq<Level> := [Off, Minimal, Low, Medium, High, XHigh, Max]

  /** Thinking: the selected level comes later in the order of effort than every
      level of every alternative. */
  lemma SupportedByThinking(role: RoleFacts, catalog: Catalog, t: Tuple)
    ensures Supports(Thinking, role, catalog, t) <==>
            && HasAlternative(role, t) && t.identity in catalog
            && forall c :: Alternative(role, t, c) ==>
                 c.identity in catalog && forall l :: l in c.levels ==> Exceeds(t.level, l)
  {
    AlternativesSupport(Thinking, role, catalog, t);
    forall c | Alternative(role, t, c)
      ensures (forall l :: l in c.levels ==> Rank(t.level) > Rank(l)) <==> (forall l :: l in c.levels ==> Exceeds(t.level, l))
    {
      forall l | l in c.levels ensures Rank(t.level) > Rank(l) <==> Exceeds(t.level, l) { RankOrder(t.level, l); }
    }
  }

  ghost predicate Exceeds(level: Level, other: Level) {
    exists i, j :: 0 <= j < i < |LEVELS| && LEVELS[i] == level && LEVELS[j] == other
  }

  lemma RankOrder(level: Level, other: Level)
    ensures Rank(level) > Rank(other) <==> Exceeds(level, other)
  {
    assert LEVELS[Rank(level)] == level && LEVELS[Rank(other)] == other;
    assert forall i :: 0 <= i < |LEVELS| ==> Rank(LEVELS[i]) == i;
  }

  /** A wider window of the selected model keeps its support. */
  lemma WiderKeepsSupport(output: bool, role: RoleFacts, catalog: Catalog, t: Tuple, wider: Capabilities)
    requires Supports(if output then MaxOutputTokens else ContextWindow, role, catalog, t)
    requires Window(wider, output).declared && Window(wider, output).tokens >= Window(catalog[t.identity], output).tokens
    ensures Supports(if output then MaxOutputTokens else ContextWindow, role, catalog[t.identity := wider], t)
  {
    SupportedByTokens(output, role, catalog, t);
    SupportedByTokens(output, role, catalog[t.identity := wider], t);
    forall c | Alternative(role, t, c) ensures catalog[t.identity := wider][c.identity] == catalog[c.identity] {
      assert c.identity != t.identity;
    }
  }

  /** A window of one alternative beyond four fifths of it ends the support. */
  lemma WiderAlternativeEndsSupport(output: bool, role: RoleFacts, catalog: Catalog, t: Tuple, c: Candidate, wider: Capabilities)
    requires t.identity in catalog && Alternative(role, t, c)
    requires 5 * Window(wider, output).tokens > 4 * Window(catalog[t.identity], output).tokens
    ensures !Supports(if output then MaxOutputTokens else ContextWindow, role, catalog[c.identity := wider], t)
  {
    SupportedByTokens(output, role, catalog[c.identity := wider], t);
    var own := Window(catalog[t.identity], output).tokens;
    assert (5 * Window(wider, output).tokens) as real == 5.0 * Window(wider, output).tokens as real;
    assert (4 * own) as real == 4.0 * own as real;
  }

  // ----- what is accepted -----

  ghost predicate AllUse(tuples: seq<Tuple>, provider: string) {
    forall i :: 0 <= i < |tuples| ==> tuples[i].identity.provider == provider
  }

  ghost predicate OneProvider(tuples: seq<Tuple>) {
    exists p: string :: AllUse(tuples, p)
  }

  ghost predicate Offers(role: RoleFacts, provider: string) {
    exists c :: c in role.candidates && c.identity.provider == provider
  }

  ghost predicate AllOffer(selected: seq<RoleFacts>, provider: string) {
    forall i :: 0 <= i < |selected| ==> Offers(selected[i], provider)
  }

  ghost predicate CommonProvider(selected: seq<RoleFacts>) {
    exists p: string :: AllOffer(selected, p)
  }

  ghost predicate TwoOffered(selected: seq<RoleFacts>) {
    exists i, j, p: string, q: string :: 0 <= i < |selected| && 0 <= j < |selected| && p != q && Offers(selected[i], p) && Offers(selected[j], q)
  }

  lemma ProvidersMean(selected: seq<RoleFacts>, tuples: seq<Tuple>)
    requires selected != [] && |tuples| == |selected|
    ensures SingleFeasible(selected) <==> CommonProvider(selected)
    ensures MixedFeasible(selected) <==> TwoOffered(selected)
    ensures |UsedProviders(tuples)| == 1 <==> OneProvider(tuples)
  {
    CommonMeans(selected);
    TwoMean(selected);
    UsedMean(tuples);
  }

  lemma CommonMeans(selected: seq<RoleFacts>)
    requires selected != []
    ensures SingleFeasible(selected) <==> CommonProvider(selected)
  {
    if SingleFeasible(selected) {
      var p :| p in Providers(selected[0]) && forall r :: r in selected ==> p in Providers(r);
      forall i | 0 <= i < |selected| ensures Offers(selected[i], p) { assert p in Providers(selected[i]); }
      assert AllOffer(selected, p);
    }
    if CommonProvider(selected) {
      var p: string :| AllOffer(selected, p);
      forall r | r in selected ensures p in Providers(r) {
        var i :| 0 <= i < |selected| && selected[i] == r;
        assert Offers(selected[i], p);
      }
      assert selected[0] in selected;
    }
  }

  lemma TwoMean(selected: seq<RoleFacts>)
    ensures MixedFeasible(selected) <==> TwoOffered(selected)
  {
    if MixedFeasible(selected) {
      var p :| p in AllProviders(selected);
      var q := AnotherMember(AllProviders(selected), p);
      var i := OfferedBy(selected, p);
      var j := OfferedBy(selected, q);
    }
    if TwoOffered(selected) {
      var i, j, p: string, q: string :| 0 <= i < |selected| && 0 <= j < |selected| && p != q && Offers(selected[i], p) && Offers(selected[j], q);
      assert selected[i] in selected && selected[j] in selected;
      assert p in AllProviders(selected) && q in AllProviders(selected);
      TwoMembers(AllProviders(selected), p, q);
    }
  }

  lemma OfferedBy(selected: seq<RoleFacts>, p: string) returns (i: nat)
    requires p in AllProviders(selected)
    ensures i < |selected| && Offers(selected[i], p)
  {
    var r, c :| r in selected && c in r.candidates && c.identity.provider == p;
    i :| 0 <= i < |selected| && selected[i] == r;
  }

  lemma UsedMean(tuples: seq<Tuple>)
    requires tuples != []
    ensures |UsedProviders(tuples)| == 1 <==> OneProvider(tuples)
  {
    var p := tuples[0].identity.provider;
    assert tuples[0] in tuples && p in UsedProviders(tuples);
    if OneProvider(tuples) {
      forall t | t in tuples ensures t.identity.provider == p {
        var i :| 0 <= i < |tuples| && tuples[i] == t;
      }
      OneUsed(tuples, p);
    }
    if |UsedProviders(tuples)| == 1 {
      forall i | 0 <= i < |tuples| ensures tuples[i].identity.provider == p {
        assert tuples[i] in tuples && tuples[i].identity.provider in UsedProviders(tuples);
        if tuples[i].identity.provider != p { TwoMembers(UsedProviders(tuples), p, tuples[i].identity.provider); }
      }
      assert AllUse(tuples, p);
    }
  }

  /** Which plans are accepted, and as what: the choice between one provider and
      several is open only where both are on offer; a plan on one provider then
      needs a preference for it and a reference that supports every role. */
  lemma DerivesExactly(choice: Choice, preference: Preference, selected: seq<RoleFacts>, catalog: Catalog, tuples: seq<Tuple>)
    requires selected != [] && |tuples| == |selected|
    ensures var derived := Derive(choice, preference, selected, catalog, tuples);
            && (derived == Some(LockedSingle) <==>
                  CommonProvider(selected) && !TwoOffered(selected) && OneProvider(tuples) && preference != PreferMixed && choice == NoReference)
            && (derived == Some(LockedMixed) <==>
                  !CommonProvider(selected) && TwoOffered(selected) && !OneProvider(tuples) && preference != PreferSingle && choice == NoReference)
            && (derived == Some(Mixed) <==>
                  CommonProvider(selected) && TwoOffered(selected) && !OneProvider(tuples) && preference != PreferSingle && choice == NoReference)
            && forall reference :: derived == Some(Supported(reference)) <==>
                 && CommonProvider(selected) && TwoOffered(selected) && OneProvider(tuples) && preference == PreferSingle
                 && choice == By(reference)
                 && forall i :: 0 <= i < |selected| ==> Supports(reference, selected[i], catalog, tuples[i])
  {
    ProvidersMean(selected, tuples);
  }

  // ----- widths -----

  /** The bytes of a level name in JSON. */
  function LevelWidth(level: Level): nat {
    match level case Off => 5 case Minimal => 9 case Low => 5 case Medium => 8 case High => 6 case XHigh => 7 case Max => 5
  }

  const DIGEST := 66

  function LevelsWidth(levels: seq<Level>): nat {
    if levels == [] then 0 else LevelWidth(levels[0]) + (if |levels| > 1 then 1 else 0) + LevelsWidth(levels[1..])
  }

  /** The other-provider candidates, as the elements of a JSON array. */
  function AlternativesWidth(text: string -> nat, candidates: seq<Candidate>, provider: string, first: bool): nat {
    if candidates == [] then 0
    else if candidates[0].identity.provider == provider then AlternativesWidth(text, candidates[1..], provider, first)
    else
      var c := candidates[0];
      (if first then 0 else 1) + 12 + text(c.identity.provider) + 9 + text(c.identity.model) + 20 + LevelsWidth(c.levels) + 10 + DIGEST + 1
      + AlternativesWidth(text, candidates[1..], provider, false)
  }

  /** Everything in a role's slice but the model and the level. */
  function FrameWidth(text: string -> nat, role: RoleFacts, provider: string): nat {
    8 + text(role.role) + 24 + text(provider) + 9 + 12 + 9 + DIGEST + 18
    + AlternativesWidth(text, role.candidates, provider, true) + 2
  }

  function SliceWidth(text: string -> nat, role: RoleFacts, t: Tuple): nat {
    FrameWidth(text, role, t.identity.provider) + text(t.identity.model) + LevelWidth(t.level)
  }

  function SlicesWidth(text: string -> nat, selected: seq<RoleFacts>, tuples: seq<Tuple>): nat
    requires |tuples| == |selected|
  {
    if selected == [] then 0
    else SlicesWidth(text, selected[..|selected| - 1], tuples[..|tuples| - 1])
         + (if |selected| > 1 then 1 else 0) + SliceWidth(text, selected[|selected| - 1], tuples[|tuples| - 1])
  }

  function ReferenceWidth(reference: Reference): nat {
    match reference
    case Reasoning => 11 case Image => 7 case ContextWindow => 16 case MaxOutputTokens => 19
    case Thinking => 10 case CacheShort => 13 case CacheLong => 12 case DeclaredCost => 15
  }

  const LOCKED_SINGLE_BYTES := 104
  const LOCKED_MIXED_BYTES := 103
  const MIXED_BYTES := 114

  function SupportBytes(text: string -> nat, derived: Derived, selected: seq<RoleFacts>, tuples: seq<Tuple>): nat
    requires |tuples| == |selected|
  {
    match derived
    case LockedSingle => LOCKED_SINGLE_BYTES
    case LockedMixed => LOCKED_MIXED_BYTES
    case Mixed => MIXED_BYTES
    case Supported(reference) => 100 + ReferenceWidth(reference) + 10 + 2 + SlicesWidth(text, selected, tuples)
  }

  datatype Comparison = Homogeneous | Heterogeneous

  function ComparisonBytes(comparison: Comparison): nat {
    match comparison case Homogeneous => 59 case Heterogeneous => 53
  }

  function ComparisonOf(tuples: seq<Tuple>): Comparison {
    if |UsedProviders(tuples)| == 1 then Homogeneous else Heterogeneous
  }
}
