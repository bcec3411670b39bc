/** The largest support object any accepted plan can have, found per role,
    provider and reference instead of over rosters of assignments. */

module SupportMaximum {
  import opened Options
  import opened Planner
  import opened Support

  const References: seq<Reference> :=
    [Reasoning, Image, ContextWindow, MaxOutputTokens, Thinking, CacheShort, CacheLong, DeclaredCost]

  // ----- the widest slice of one role -----

  ghost predicate Passing(role: RoleFacts, provider: string, reference: Reference, catalog: Catalog, t: Tuple) {
    Eligible(role, t) && t.identity.provider == provider && Supports(reference, role, catalog, t)
  }

  /** The width of a widest passing tuple, if any passes. */
  ghost predicate Widest(text: string -> nat, role: RoleFacts, provider: string, reference: Reference, catalog: Catalog, slice: Option<nat>) {
    && (slice.Some? ==> exists t :: Passing(role, provider, reference, catalog, t) && SliceWidth(text, role, t) == slice.value)
    && (forall t :: Passing(role, provider, reference, catalog, t) ==> slice.Some? && SliceWidth(text, role, t) <= slice.value)
  }

  ghost predicate AtMost(text: string -> nat, role: RoleFacts, provider: string, reference: Reference, catalog: Catalog, width: nat) {
    forall t :: Passing(role, provider, reference, catalog, t) ==> SliceWidth(text, role, t) <= width
  }

  /** Only the `thinking` reference looks at the level that is used. */
  lemma LevelIrrelevant(reference: Reference, role: RoleFacts, catalog: Catalog, t: Tuple, level: Level)
    requires reference != Thinking
    ensures Supports(reference, role, catalog, t) <==> Supports(reference, role, catalog, t.(level := level))
  {
    var u := t.(level := level);
    forall c | c in role.candidates && c.identity.provider != t.identity.provider && t.identity in catalog && c.identity in catalog
      ensures Advantage(reference, catalog[t.identity], catalog[c.identity], t.level, c.levels)
              <==> Advantage(reference, catalog[u.identity], catalog[c.identity], u.level, c.levels)
    {
      match reference case Reasoning => case Image => case ContextWindow => case MaxOutputTokens => case CacheShort => case CacheLong => case DeclaredCost =>
    }
  }

  datatype Pair = Pair(tuple: Tuple, width: nat)

  function PairWidth(text: string -> nat, t: Tuple): nat {
    text(t.identity.model) + LevelWidth(t.level)
  }

  predicate Precedes(a: string, b: string) {
    b != "" && (a == "" || a[0] < b[0] || (a[0] == b[0] && Precedes(a[1..], b[1..])))
  }

  predicate Descending(pairs: seq<Pair>) {
    forall i, j :: 0 <= i < j < |pairs| ==> pairs[i].width >= pairs[j].width
  }

  /** Stable insertion: wider first, then by model name. */
  method InsertPair(pairs: seq<Pair>, pair: Pair) returns (after: seq<Pair>)
    requires Descending(pairs)
    ensures Descending(after)
    ensures forall p :: p in after <==> p in pairs || p == pair
  {
    var i := 0;
    while i < |pairs|
          && (pairs[i].width > pair.width
              || (pairs[i].width == pair.width && !Precedes(pair.tuple.identity.model, pairs[i].tuple.identity.model)))
      invariant 0 <= i <= |pairs|
      invariant forall k :: 0 <= k < i ==> pairs[k].width >= pair.width
    {
      i := i + 1;
    }
    after := pairs[..i] + [pair] + pairs[i..];
    Inserted(pairs, pair, i);
  }

  lemma Inserted(pairs: seq<Pair>, pair: Pair, i: nat)
    requires Descending(pairs) && i <= |pairs|
    requires forall k :: 0 <= k < i ==> pairs[k].width >= pair.width
    requires i < |pairs| ==> pairs[i].width <= pair.width
    ensures Descending(pairs[..i] + [pair] + pairs[i..])
    ensures forall p :: p in pairs[..i] + [pair] + pairs[i..] <==> p in pairs || p == pair
  {
    var after := pairs[..i] + [pair] + pairs[i..];
    forall a, b | 0 <= a < b < |after| ensures after[a].width >= after[b].width {
      var x := if a <= i then a else a - 1;
      var y := if b <= i then b else b - 1;
      assert a < i ==> after[a] == pairs[a];
      assert a > i ==> after[a] == pairs[a - 1];
      assert b < i ==> after[b] == pairs[b];
      assert b > i ==> after[b] == pairs[b - 1];
    }
    assert pairs == pairs[..i] + pairs[i..];
  }

  /** The widest level, the first of those that are equally wide. */
  method WidestLevel(levels: seq<Level>) returns (widest: Level)
    requires levels != []
    ensures widest in levels
    ensures forall level :: level in levels ==> LevelWidth(level) <= LevelWidth(widest)
  {
    widest := levels[0];
    for i := 1 to |levels|
      invariant widest in levels
      invariant forall k :: 0 <= k < i ==> LevelWidth(levels[k]) <= LevelWidth(widest)
    {
      if LevelWidth(widest) < LevelWidth(levels[i]) { widest := levels[i]; }
    }
  }

  /** Every pair is an eligible tuple with its width. */
  ghost predicate Honest(text: string -> nat, role: RoleFacts, provider: string, pairs: seq<Pair>) {
    forall p :: p in pairs ==>
      Eligible(role, p.tuple) && p.tuple.identity.provider == provider && p.width == PairWidth(text, p.tuple)
  }

  /** A tuple that passes is matched by a pair at least as wide that passes. */
  ghost predicate Represented(text: string -> nat, reference: Reference, pairs: seq<Pair>, t: Tuple) {
    exists p :: p in pairs && p.tuple.identity == t.identity && p.width >= PairWidth(text, t) && (reference == Thinking ==> p.tuple == t)
  }

  ghost predicate Covers(text: string -> nat, reference: Reference, candidates: seq<Candidate>, provider: string, pairs: seq<Pair>) {
    forall c, level :: c in candidates && c.identity.provider == provider && level in c.levels ==>
      Represented(text, reference, pairs, Tuple(c.identity, level))
  }

  method CandidateLevels(reference: Reference, c: Candidate) returns (levels: seq<Level>)
    requires c.levels != []
    ensures forall level :: level in levels ==> level in c.levels
    ensures reference == Thinking ==> levels == c.levels
    ensures reference != Thinking ==> |levels| == 1 && forall level :: level in c.levels ==> LevelWidth(level) <= LevelWidth(levels[0])
  {
    if reference == Thinking { return c.levels; }
    var widest := WidestLevel(c.levels);
    levels := [widest];
  }

  method AddPairs(text: string -> nat, role: RoleFacts, reference: Reference, c: Candidate, pairs: seq<Pair>) returns (after: seq<Pair>)
    requires c in role.candidates && c.levels != []
    requires Descending(pairs) && Honest(text, role, c.identity.provider, pairs)
    ensures Descending(after) && Honest(text, role, c.identity.provider, after)
    ensures forall p :: p in pairs ==> p in after
    ensures forall level :: level in c.levels ==> Represented(text, reference, after, Tuple(c.identity, level))
  {
    var levels := CandidateLevels(reference, c);
    after := pairs;
    for i := 0 to |levels|
      invariant Descending(after) && Honest(text, role, c.identity.provider, after)
      invariant forall p :: p in pairs ==> p in after
      invariant forall k :: 0 <= k < i ==> Pair(Tuple(c.identity, levels[k]), PairWidth(text, Tuple(c.identity, levels[k]))) in after
    {
      var t := Tuple(c.identity, levels[i]);
      assert levels[i] in levels;
      assert Eligible(role, t);
      after := InsertPair(after, Pair(t, text(c.identity.model) + LevelWidth(levels[i])));
    }
    forall level | level in c.levels ensures Represented(text, reference, after, Tuple(c.identity, level)) {
      var k :| 0 <= k < |levels| && (reference == Thinking ==> levels[k] == level);
      var p := Pair(Tuple(c.identity, levels[k]), PairWidth(text, Tuple(c.identity, levels[k])));
      assert p in after;
    }
  }

  method OrderedPairs(text: string -> nat, role: RoleFacts, provider: string, reference: Reference) returns (pairs: seq<Pair>)
    ensures Descending(pairs) && Honest(text, role, provider, pairs)
    ensures Covers(text, reference, role.candidates, provider, pairs)
  {
    pairs := [];
    for i := 0 to |role.candidates|
      invariant Descending(pairs) && Honest(text, role, provider, pairs)
      invariant Covers(text, reference, role.candidates[..i], provider, pairs)
    {
      var c := role.candidates[i];
      ghost var before := pairs;
      assert role.candidates[..i + 1] == role.candidates[..i] + [c];
      if c.identity.provider == provider && c.levels != [] {
        pairs := AddPairs(text, role, reference, c, pairs);
        CoversMore(text, reference, role.candidates[..i], provider, before, pairs);
      }
    }
    assert role.candidates[..|role.candidates|] == role.candidates;
  }

  lemma CoversMore(text: string -> nat, reference: Reference, candidates: seq<Candidate>, provider: string, pairs: seq<Pair>, more: seq<Pair>)
    requires Covers(text, reference, candidates, provider, pairs) && forall p :: p in pairs ==> p in more
    ensures Covers(text, reference, candidates, provider, more)
  {
    forall c, level | c in candidates && c.identity.provider == provider && level in c.levels
      ensures Represented(text, reference, more, Tuple(c.identity, level))
    {
      assert Represented(text, reference, pairs, Tuple(c.identity, level));
      var p :| p in pairs && p.tuple.identity == c.identity && p.width >= PairWidth(text, Tuple(c.identity, level))
               && (reference == Thinking ==> p.tuple == Tuple(c.identity, level));
      assert p in more;
    }
  }

  /** The first passing pair in falling order of width. */
  method PassingSlice(text: string -> nat, role: RoleFacts, provider: string, reference: Reference, catalog: Catalog) returns (slice: Option<nat>)
    ensures Widest(text, role, provider, reference, catalog, slice)
  {
    if forall c :: c in role.candidates ==> c.identity.provider == provider {
      return None;
    }
    var pairs := OrderedPairs(text, role, provider, reference);
    var i := FirstPassing(role, reference, catalog, pairs);
    if i == |pairs| {
      NonePasses(text, role, provider, reference, catalog, pairs);
      return None;
    }
    FirstIsWidest(text, role, provider, reference, catalog, pairs, i);
    slice := Some(SliceWidth(text, role, pairs[i].tuple));
  }

  method FirstPassing(role: RoleFacts, reference: Reference, catalog: Catalog, pairs: seq<Pair>) returns (i: nat)
    ensures i <= |pairs| && (i < |pairs| ==> Supports(reference, role, catalog, pairs[i].tuple))
    ensures forall k :: 0 <= k < i ==> !Supports(reference, role, catalog, pairs[k].tuple)
  {
    i := 0;
    while i < |pairs| && !Supports(reference, role, catalog, pairs[i].tuple)
      invariant 0 <= i <= |pairs|
      invariant forall k :: 0 <= k < i ==> !Supports(reference, role, catalog, pairs[k].tuple)
    {
      i := i + 1;
    }
  }

  lemma FirstIsWidest(text: string -> nat, role: RoleFacts, provider: string, reference: Reference, catalog: Catalog, pairs: seq<Pair>, i: nat)
    requires Descending(pairs) && Honest(text, role, provider, pairs) && Covers(text, reference, role.candidates, provider, pairs)
    requires i < |pairs| && Supports(reference, role, catalog, pairs[i].tuple)
    requires forall k :: 0 <= k < i ==> !Supports(reference, role, catalog, pairs[k].tuple)
    ensures Widest(text, role, provider, reference, catalog, Some(SliceWidth(text, role, pairs[i].tuple)))
  {
    assert pairs[i] in pairs;
    assert Passing(role, provider, reference, catalog, pairs[i].tuple);
    forall t | Passing(role, provider, reference, catalog, t)
      ensures SliceWidth(text, role, t) <= SliceWidth(text, role, pairs[i].tuple)
    {
      NotWider(text, role, provider, reference, catalog, pairs, i, t);
    }
  }

  lemma SliceOfPair(text: string -> nat, role: RoleFacts, t: Tuple)
    ensures SliceWidth(text, role, t) == FrameWidth(text, role, t.identity.provider) + PairWidth(text, t)
  {
  }

  lemma NotWider(text: string -> nat, role: RoleFacts, provider: string, reference: Reference, catalog: Catalog, pairs: seq<Pair>, i: nat, t: Tuple)
    requires Descending(pairs) && Covers(text, reference, role.candidates, provider, pairs)
    requires i < |pairs| && forall k :: 0 <= k < i ==> !Supports(reference, role, catalog, pairs[k].tuple)
    requires pairs[i].width == PairWidth(text, pairs[i].tuple) && pairs[i].tuple.identity.provider == provider
    requires Passing(role, provider, reference, catalog, t)
    ensures SliceWidth(text, role, t) <= SliceWidth(text, role, pairs[i].tuple)
  {
    var k := RepresentedAt(text, role, provider, reference, catalog, pairs, t);
    assert i <= k;
    SliceOfPair(text, role, t);
    SliceOfPair(text, role, pairs[i].tuple);
  }

  lemma NonePasses(text: string -> nat, role: RoleFacts, provider: string, reference: Reference, catalog: Catalog, pairs: seq<Pair>)
    requires Covers(text, reference, role.candidates, provider, pairs)
    requires forall k :: 0 <= k < |pairs| ==> !Supports(reference, role, catalog, pairs[k].tuple)
    ensures Widest(text, role, provider, reference, catalog, None)
  {
    forall t ensures !Passing(role, provider, reference, catalog, t) {
      if Passing(role, provider, reference, catalog, t) {
        var k := RepresentedAt(text, role, provider, reference, catalog, pairs, t);
      }
    }
  }

  lemma RepresentedAt(text: string -> nat, role: RoleFacts, provider: string, reference: Reference, catalog: Catalog, pairs: seq<Pair>, t: Tuple)
    returns (k: nat)
    requires Covers(text, reference, role.candidates, provider, pairs)
    requires Passing(role, provider, reference, catalog, t)
    ensures k < |pairs| && Supports(reference, role, catalog, pairs[k].tuple)
    ensures pairs[k].tuple.identity == t.identity && pairs[k].width >= PairWidth(text, t)
  {
    var c :| c in role.candidates && c.identity == t.identity && t.level in c.levels;
    assert Represented(text, reference, pairs, Tuple(c.identity, t.level));
    var p :| p in pairs && p.tuple.identity == t.identity && p.width >= PairWidth(text, t) && (reference == Thinking ==> p.tuple == t);
    k :| 0 <= k < |pairs| && pairs[k] == p;
    if reference != Thinking {
      LevelIrrelevant(reference, role, catalog, t, p.tuple.level);
      assert t.(level := p.tuple.level) == p.tuple;
    }
  }

  // ----- the index of widest slices -----

  type Index = map<(string, string, Reference), nat>

  function Lookup(index: Index, role: string, provider: string, reference: Reference): Option<nat> {
    if (role, provider, reference) in index then Some(index[(role, provider, reference)]) else None
  }

  ghost predicate DistinctNames(roles: seq<RoleFacts>) {
    forall i, j :: 0 <= i < j < |roles| ==> roles[i].role != roles[j].role
  }

  ghost predicate RoleIndexed(text: string -> nat, role: RoleFacts, catalog: Catalog, index: Index) {
    forall provider, reference :: Widest(text, role, provider, reference, catalog, Lookup(index, role.role, provider, reference))
  }

  method ProviderList(role: RoleFacts) returns (providers: seq<string>)
    ensures forall p :: p in providers <==> p in Providers(role)
  {
    providers := [];
    for i := 0 to |role.candidates|
      invariant forall p :: p in providers <==> exists c :: c in role.candidates[..i] && c.identity.provider == p
    {
      var provider := role.candidates[i].identity.provider;
      assert role.candidates[..i + 1] == role.candidates[..i] + [role.candidates[i]];
      if provider !in providers { providers := providers + [provider]; }
    }
    assert role.candidates[..|role.candidates|] == role.candidates;
  }

  method ReferenceSlices(text: string -> nat, role: RoleFacts, provider: string, catalog: Catalog, index: Index) returns (after: Index)
    requires forall reference :: (role.role, provider, reference) !in index
    ensures forall reference :: Widest(text, role, provider, reference, catalog, Lookup(after, role.role, provider, reference))
    ensures forall key: (string, string, Reference) :: key.0 != role.role || key.1 != provider ==> (key in after <==> key in index) && (key in index ==> after[key] == index[key])
  {
    after := index;
    for i := 0 to |References|
      invariant forall k :: 0 <= k < i ==> Widest(text, role, provider, References[k], catalog, Lookup(after, role.role, provider, References[k]))
      invariant forall k :: i <= k < |References| ==> (role.role, provider, References[k]) !in after
      invariant forall key: (string, string, Reference) :: key.0 != role.role || key.1 != provider ==> (key in after <==> key in index) && (key in index ==> after[key] == index[key])
    {
      var slice := PassingSlice(text, role, provider, References[i], catalog);
      if slice.Some? { after := after[(role.role, provider, References[i]) := slice.value]; }
    }
    forall reference ensures Widest(text, role, provider, reference, catalog, Lookup(after, role.role, provider, reference)) {
      var k := Position(reference);
    }
  }

  lemma Position(reference: Reference) returns (k: nat)
    ensures k < |References| && References[k] == reference
  {
    k := match reference
      case Reasoning => 0 case Image => 1 case ContextWindow => 2 case MaxOutputTokens => 3
      case Thinking => 4 case CacheShort => 5 case CacheLong => 6 case DeclaredCost => 7;
  }

  method ProviderSlices(text: string -> nat, role: RoleFacts, catalog: Catalog, index: Index) returns (after: Index)
    requires forall key: (string, string, Reference) :: key in index ==> key.0 != role.role
    ensures RoleIndexed(text, role, catalog, after)
    ensures forall key: (string, string, Reference) :: key.0 != role.role ==> (key in after <==> key in index) && (key in index ==> after[key] == index[key])
  {
    var providers := ProviderList(role);
    after := index;
    var i := 0;
    while i < |providers|
      invariant 0 <= i <= |providers|
      invariant forall provider, reference :: provider in providers[..i] ==>
        Widest(text, role, provider, reference, catalog, Lookup(after, role.role, provider, reference))
      invariant forall provider, reference :: provider !in providers[..i] ==> (role.role, provider, reference) !in after
      invariant forall key: (string, string, Reference) :: key.0 != role.role ==> (key in after <==> key in index) && (key in index ==> after[key] == index[key])
    {
      var provider := providers[i];
      assert providers[..i + 1] == providers[..i] + [provider];
      if provider !in providers[..i] {
        ghost var before := after;
        after := ReferenceSlices(text, role, provider, catalog, after);
        forall p, reference | p != provider ensures Lookup(after, role.role, p, reference) == Lookup(before, role.role, p, reference) {
          assert (role.role, p, reference).1 != provider;
        }
      }
      i := i + 1;
    }
    assert providers[..i] == providers;
    forall provider, reference ensures Widest(text, role, provider, reference, catalog, Lookup(after, role.role, provider, reference)) {
      if provider !in providers {
        forall t | Passing(role, provider, reference, catalog, t) ensures false { EligibleProvider(role, t); }
      }
    }
  }

  method SupportSliceIndex(text: string -> nat, roles: seq<RoleFacts>, catalog: Catalog) returns (index: Index)
    requires DistinctNames(roles)
    ensures forall r :: r in roles ==> RoleIndexed(text, r, catalog, index)
  {
    index := map[];
    for i := 0 to |roles|
      invariant forall k :: 0 <= k < i ==> RoleIndexed(text, roles[k], catalog, index)
      invariant forall key: (string, string, Reference) :: key in index ==> exists k :: 0 <= k < i && roles[k].role == key.0
    {
      ghost var before := index;
      index := ProviderSlices(text, roles[i], catalog, index);
      forall k | 0 <= k < i ensures RoleIndexed(text, roles[k], catalog, index) {
        assert RoleIndexed(text, roles[k], catalog, before);
        forall provider, reference ensures Lookup(index, roles[k].role, provider, reference) == Lookup(before, roles[k].role, provider, reference) {
        }
      }
    }
  }

  // ----- one provider and one reference for a whole roster -----

  ghost predicate AllPassing(selected: seq<RoleFacts>, provider: string, reference: Reference, catalog: Catalog, tuples: seq<Tuple>) {
    |tuples| == |selected| && forall i :: 0 <= i < |selected| ==> Passing(selected[i], provider, reference, catalog, tuples[i])
  }

  function SumWidths(slices: seq<nat>): nat {
    if slices == [] then 0 else SumWidths(slices[..|slices| - 1]) + (if |slices| > 1 then 1 else 0) + slices[|slices| - 1]
  }

  method SupportedBytes(reference: Reference, slices: seq<nat>) returns (bytes: nat)
    ensures bytes == 100 + ReferenceWidth(reference) + 10 + 2 + SumWidths(slices)
  {
    bytes := 100 + ReferenceWidth(reference) + 10 + 2;
    for i := 0 to |slices|
      invariant bytes == 100 + ReferenceWidth(reference) + 10 + 2 + SumWidths(slices[..i])
    {
      assert slices[..i + 1][..i] == slices[..i];
      if i > 0 { bytes := bytes + 1; }
      bytes := bytes + slices[i];
    }
    assert slices[..|slices|] == slices;
  }

  lemma {:induction false} SumBounds(text: string -> nat, selected: seq<RoleFacts>, tuples: seq<Tuple>, slices: seq<nat>)
    requires |tuples| == |selected| == |slices|
    ensures (forall i :: 0 <= i < |slices| ==> SliceWidth(text, selected[i], tuples[i]) <= slices[i]) ==> SlicesWidth(text, selected, tuples) <= SumWidths(slices)
    ensures (forall i :: 0 <= i < |slices| ==> SliceWidth(text, selected[i], tuples[i]) == slices[i]) ==> SlicesWidth(text, selected, tuples) == SumWidths(slices)
  {
    if slices != [] {
      var n := |slices| - 1;
      SumBounds(text, selected[..n], tuples[..n], slices[..n]);
    }
  }

  ghost predicate WidestTotal(text: string -> nat, selected: seq<RoleFacts>, provider: string, reference: Reference, catalog: Catalog, bytes: Option<nat>) {
    && (bytes.Some? ==> exists tuples :: AllPassing(selected, provider, reference, catalog, tuples)
                                         && SupportBytes(text, Supported(reference), selected, tuples) == bytes.value)
    && (forall tuples :: AllPassing(selected, provider, reference, catalog, tuples) ==>
          bytes.Some? && SupportBytes(text, Supported(reference), selected, tuples) <= bytes.value)
  }

  lemma WidestParts(text: string -> nat, role: RoleFacts, provider: string, reference: Reference, catalog: Catalog, slice: Option<nat>)
    requires Widest(text, role, provider, reference, catalog, slice)
    ensures slice.Some? ==> AtMost(text, role, provider, reference, catalog, slice.value)
  {
  }

  lemma WidestTuple(text: string -> nat, role: RoleFacts, provider: string, reference: Reference, catalog: Catalog, width: nat) returns (t: Tuple)
    requires Widest(text, role, provider, reference, catalog, Some(width))
    ensures Passing(role, provider, reference, catalog, t) && SliceWidth(text, role, t) == width
  {
    t :| Passing(role, provider, reference, catalog, t) && SliceWidth(text, role, t) == width;
  }

  method HomogeneousSliceBytes(text: string -> nat, selected: seq<RoleFacts>, ghost catalog: Catalog, index: Index, provider: string, reference: Reference)
    returns (bytes: Option<nat>)
    requires forall r :: r in selected ==> RoleIndexed(text, r, catalog, index)
    ensures WidestTotal(text, selected, provider, reference, catalog, bytes)
  {
    var slices: seq<nat> := [];
    ghost var tuples: seq<Tuple> := [];
    for i := 0 to |selected|
      invariant |slices| == |tuples| == i
      invariant forall k :: 0 <= k < i ==>
        && Passing(selected[k], provider, reference, catalog, tuples[k])
        && SliceWidth(text, selected[k], tuples[k]) == slices[k]
        && AtMost(text, selected[k], provider, reference, catalog, slices[k])
    {
      assert selected[i] in selected && RoleIndexed(text, selected[i], catalog, index);
      var slice := Lookup(index, selected[i].role, provider, reference);
      WidestParts(text, selected[i], provider, reference, catalog, slice);
      if slice.None? {
        NoneTotal(text, selected, provider, reference, catalog, i);
        return None;
      }
      ghost var t := WidestTuple(text, selected[i], provider, reference, catalog, slice.value);
      slices := slices + [slice.value];
      tuples := tuples + [t];
    }
    var total := SupportedBytes(reference, slices);
    bytes := Some(total);
    SomeTotal(text, selected, provider, reference, catalog, slices, tuples, total);
  }

  lemma NoneTotal(text: string -> nat, selected: seq<RoleFacts>, provider: string, reference: Reference, catalog: Catalog, i: nat)
    requires i < |selected| && Widest(text, selected[i], provider, reference, catalog, None)
    ensures WidestTotal(text, selected, provider, reference, catalog, None)
  {
  }

  lemma TotalReached(text: string -> nat, selected: seq<RoleFacts>, provider: string, reference: Reference, catalog: Catalog, slices: seq<nat>, tuples: seq<Tuple>)
    requires |slices| == |tuples| == |selected| && AllPassing(selected, provider, reference, catalog, tuples)
    requires forall k :: 0 <= k < |selected| ==> SliceWidth(text, selected[k], tuples[k]) == slices[k]
    ensures SlicesWidth(text, selected, tuples) == SumWidths(slices)
  {
    SumBounds(text, selected, tuples, slices);
  }

  lemma SomeTotal(text: string -> nat, selected: seq<RoleFacts>, provider: string, reference: Reference, catalog: Catalog, slices: seq<nat>, tuples: seq<Tuple>, bytes: nat)
    requires |slices| == |selected| && AllPassing(selected, provider, reference, catalog, tuples)
    requires forall k :: 0 <= k < |selected| ==> SliceWidth(text, selected[k], tuples[k]) == slices[k]
    requires forall k :: 0 <= k < |selected| ==> AtMost(text, selected[k], provider, reference, catalog, slices[k])
    requires bytes == 100 + ReferenceWidth(reference) + 10 + 2 + SumWidths(slices)
    ensures WidestTotal(text, selected, provider, reference, catalog, Some(bytes))
  {
    TotalReached(text, selected, provider, reference, catalog, slices, tuples);
    assert SupportBytes(text, Supported(reference), selected, tuples) == bytes;
    forall all | AllPassing(selected, provider, reference, catalog, all)
      ensures SupportBytes(text, Supported(reference), selected, all) <= bytes
    {
      TotalBound(text, selected, provider, reference, catalog, slices, all);
    }
  }

  lemma TotalBound(text: string -> nat, selected: seq<RoleFacts>, provider: string, reference: Reference, catalog: Catalog, slices: seq<nat>, all: seq<Tuple>)
    requires |slices| == |selected| && AllPassing(selected, provider, reference, catalog, all)
    requires forall k :: 0 <= k < |selected| ==> AtMost(text, selected[k], provider, reference, catalog, slices[k])
    ensures SlicesWidth(text, selected, all) <= SumWidths(slices)
  {
    SumBounds(text, selected, all, slices);
    forall k | 0 <= k < |selected| ensures SliceWidth(text, selected[k], all[k]) <= slices[k] {
      assert Passing(selected[k], provider, reference, catalog, all[k]);
    }
  }

  // ----- one roster -----

  datatype Best = Best(supportBytes: nat, comparison: Option<Comparison>, total: int)

  function Remembered(best: Best, bytes: nat, comparison: Comparison): Best {
    var total := bytes + ComparisonBytes(comparison);
    if total > best.total then Best(bytes, Some(comparison), total) else best
  }

  /** A plan the support derivation accepts: its bytes and its comparison. */
  ghost predicate Accepted(text: string -> nat, selected: seq<RoleFacts>, catalog: Catalog, choice: Choice, preference: Preference, tuples: seq<Tuple>, bytes: nat, comparison: Comparison) {
    && Assigned(selected, tuples)
    && var derived := Derive(choice, preference, selected, catalog, tuples);
       derived.Some? && bytes == SupportBytes(text, derived.value, selected, tuples) && comparison == ComparisonOf(tuples)
  }

  ghost predicate Reached(text: string -> nat, selected: seq<RoleFacts>, catalog: Catalog, bytes: nat, comparison: Comparison) {
    exists choice, preference, tuples :: Accepted(text, selected, catalog, choice, preference, tuples, bytes, comparison)
  }

  ghost predicate FromRoster(text: string -> nat, selected: seq<RoleFacts>, catalog: Catalog, best: Best) {
    && best.comparison.Some?
    && best.total == best.supportBytes + ComparisonBytes(best.comparison.value)
    && Reached(text, selected, catalog, best.supportBytes, best.comparison.value)
  }

  /** Every accepted plan of the roster is within the best. */
  ghost predicate Bounded(text: string -> nat, selected: seq<RoleFacts>, catalog: Catalog, best: Best) {
    forall bytes: nat, comparison :: Reached(text, selected, catalog, bytes, comparison) ==> bytes + ComparisonBytes(comparison) <= best.total
  }

  ghost predicate Advanced(text: string -> nat, selected: seq<RoleFacts>, catalog: Catalog, before: Best, after: Best) {
    after.total >= before.total && (after == before || FromRoster(text, selected, catalog, after))
  }

  method CommonProviders(selected: seq<RoleFacts>) returns (common: seq<string>)
    requires selected != []
    ensures forall p :: p in common <==> forall r :: r in selected ==> p in Providers(r)
  {
    var first := ProviderList(selected[0]);
    common := [];
    for i := 0 to |first|
      invariant forall p :: p in common <==> p in first[..i] && forall r :: r in selected ==> p in Providers(r)
    {
      if forall r :: r in selected ==> first[i] in Providers(r) { common := common + [first[i]]; }
    }
    assert selected[0] in selected;
  }

  lemma LockedSingleReached(text: string -> nat, selected: seq<RoleFacts>, catalog: Catalog, p: string)
    requires selected != [] && ValidRoles(selected) && forall r :: r in selected ==> p in Providers(r)
    requires !MixedFeasible(selected)
    ensures Reached(text, selected, catalog, LOCKED_SINGLE_BYTES, Homogeneous)
  {
    var tuples := AllFrom(selected, p);
    OneUsed(tuples, p);
    assert selected[0] in selected && SingleFeasible(selected);
    assert Accepted(text, selected, catalog, NoReference, NoPreference, tuples, LOCKED_SINGLE_BYTES, Homogeneous);
  }

  lemma MixedReached(text: string -> nat, selected: seq<RoleFacts>, catalog: Catalog)
    requires |selected| >= 2 && ValidRoles(selected) && MixedFeasible(selected)
    ensures Reached(text, selected, catalog, if SingleFeasible(selected) then MIXED_BYTES else LOCKED_MIXED_BYTES, Heterogeneous)
  {
    var tuples := MixedFrom(selected);
    assert Accepted(text, selected, catalog, NoReference, NoPreference, tuples, if SingleFeasible(selected) then MIXED_BYTES else LOCKED_MIXED_BYTES, Heterogeneous);
  }

  lemma PassingUse(selected: seq<RoleFacts>, catalog: Catalog, provider: string, reference: Reference, tuples: seq<Tuple>)
    requires selected != [] && AllPassing(selected, provider, reference, catalog, tuples)
    ensures Assigned(selected, tuples) && UsedProviders(tuples) == {provider}
    ensures forall i :: 0 <= i < |selected| ==> Supports(reference, selected[i], catalog, tuples[i])
  {
    forall t | t in tuples ensures t.identity.provider == provider {
      var k :| 0 <= k < |tuples| && tuples[k] == t;
      assert Passing(selected[k], provider, reference, catalog, tuples[k]);
    }
    OneUsed(tuples, provider);
    forall i | 0 <= i < |selected| ensures Eligible(selected[i], tuples[i]) && Supports(reference, selected[i], catalog, tuples[i]) {
      assert Passing(selected[i], provider, reference, catalog, tuples[i]);
    }
  }

  lemma SupportedDerived(selected: seq<RoleFacts>, catalog: Catalog, reference: Reference, tuples: seq<Tuple>)
    requires Assigned(selected, tuples) && SingleFeasible(selected) && MixedFeasible(selected) && |UsedProviders(tuples)| == 1
    requires forall i :: 0 <= i < |selected| ==> Supports(reference, selected[i], catalog, tuples[i])
    ensures Derive(By(reference), PreferSingle, selected, catalog, tuples) == Some(Supported(reference))
  {
  }

  lemma SupportedAccepted(text: string -> nat, selected: seq<RoleFacts>, catalog: Catalog, provider: string, reference: Reference, tuples: seq<Tuple>)
    requires selected != [] && SingleFeasible(selected) && MixedFeasible(selected)
    requires AllPassing(selected, provider, reference, catalog, tuples)
    ensures Accepted(text, selected, catalog, By(reference), PreferSingle, tuples, SupportBytes(text, Supported(reference), selected, tuples), Homogeneous)
  {
    PassingUse(selected, catalog, provider, reference, tuples);
    SupportedDerived(selected, catalog, reference, tuples);
  }

  lemma SupportedReached(text: string -> nat, selected: seq<RoleFacts>, catalog: Catalog, provider: string, reference: Reference, bytes: nat)
    requires selected != [] && SingleFeasible(selected) && MixedFeasible(selected)
    requires WidestTotal(text, selected, provider, reference, catalog, Some(bytes))
    ensures Reached(text, selected, catalog, bytes, Homogeneous)
  {
    var tuples: seq<Tuple> :| AllPassing(selected, provider, reference, catalog, tuples) && SupportBytes(text, Supported(reference), selected, tuples) == bytes;
    SupportedAccepted(text, selected, catalog, provider, reference, tuples);
  }

  /** Each provider and reference, whose widest total has been considered. */
  ghost predicate Considered(text: string -> nat, selected: seq<RoleFacts>, catalog: Catalog, provider: string, reference: Reference, best: Best) {
    forall tuples :: AllPassing(selected, provider, reference, catalog, tuples) ==>
      SupportBytes(text, Supported(reference), selected, tuples) + ComparisonBytes(Homogeneous) <= best.total
  }

  ghost predicate ConsideredFirst(text: string -> nat, selected: seq<RoleFacts>, catalog: Catalog, provider: string, n: nat, best: Best)
    requires n <= |References|
  {
    forall k :: 0 <= k < n ==> Considered(text, selected, catalog, provider, References[k], best)
  }

  method ConsiderReference(text: string -> nat, selected: seq<RoleFacts>, ghost catalog: Catalog, index: Index, provider: string, reference: Reference, best: Best)
    returns (after: Best)
    requires selected != [] && SingleFeasible(selected) && MixedFeasible(selected)
    requires forall r :: r in selected ==> RoleIndexed(text, r, catalog, index)
    ensures Advanced(text, selected, catalog, best, after)
    ensures Considered(text, selected, catalog, provider, reference, after)
  {
    after := best;
    var bytes := HomogeneousSliceBytes(text, selected, catalog, index, provider, reference);
    if bytes.Some? {
      SupportedReached(text, selected, catalog, provider, reference, bytes.value);
      after := Remembered(after, bytes.value, Homogeneous);
    }
  }

  lemma AdvancedTwice(text: string -> nat, selected: seq<RoleFacts>, catalog: Catalog, a: Best, b: Best, c: Best)
    requires Advanced(text, selected, catalog, a, b) && Advanced(text, selected, catalog, b, c)
    ensures Advanced(text, selected, catalog, a, c)
  {
  }

  method ConsiderProvider(text: string -> nat, selected: seq<RoleFacts>, ghost catalog: Catalog, index: Index, provider: string, best: Best) returns (after: Best)
    requires selected != [] && SingleFeasible(selected) && MixedFeasible(selected)
    requires forall r :: r in selected ==> RoleIndexed(text, r, catalog, index)
    ensures Advanced(text, selected, catalog, best, after)
    ensures forall reference :: Considered(text, selected, catalog, provider, reference, after)
  {
    after := best;
    for i := 0 to |References|
      invariant Advanced(text, selected, catalog, best, after)
      invariant ConsideredFirst(text, selected, catalog, provider, i, after)
    {
      ghost var before := after;
      after := ConsiderReference(text, selected, catalog, index, provider, References[i], after);
      AdvancedTwice(text, selected, catalog, best, before, after);
      ConsideredMore(text, selected, catalog, provider, i, before, after);
    }
    AllConsidered(text, selected, catalog, provider, after);
  }

  lemma ConsideredMore(text: string -> nat, selected: seq<RoleFacts>, catalog: Catalog, provider: string, n: nat, before: Best, after: Best)
    requires n < |References| && ConsideredFirst(text, selected, catalog, provider, n, before) && before.total <= after.total
    requires Considered(text, selected, catalog, provider, References[n], after)
    ensures ConsideredFirst(text, selected, catalog, provider, n + 1, after)
  {
    forall k | 0 <= k < n ensures Considered(text, selected, catalog, provider, References[k], after) {
      ConsideredStill(text, selected, catalog, provider, References[k], before, after);
    }
  }

  lemma AllConsidered(text: string -> nat, selected: seq<RoleFacts>, catalog: Catalog, provider: string, best: Best)
    requires ConsideredFirst(text, selected, catalog, provider, |References|, best)
    ensures forall reference :: Considered(text, selected, catalog, provider, reference, best)
  {
    forall reference ensures Considered(text, selected, catalog, provider, reference, best) {
      var k := Position(reference);
    }
  }

  lemma ConsideredStill(text: string -> nat, selected: seq<RoleFacts>, catalog: Catalog, provider: string, reference: Reference, before: Best, after: Best)
    requires Considered(text, selected, catalog, provider, reference, before) && before.total <= after.total
    ensures Considered(text, selected, catalog, provider, reference, after)
  {
  }

  method ConsiderHomogeneousSupport(text: string -> nat, selected: seq<RoleFacts>, ghost catalog: Catalog, index: Index, common: seq<string>, best: Best)
    returns (after: Best)
    requires selected != [] && SingleFeasible(selected) && MixedFeasible(selected)
    requires forall r :: r in selected ==> RoleIndexed(text, r, catalog, index)
    ensures Advanced(text, selected, catalog, best, after)
    ensures forall provider, reference :: provider in common ==> Considered(text, selected, catalog, provider, reference, after)
  {
    after := best;
    for i := 0 to |common|
      invariant Advanced(text, selected, catalog, best, after)
      invariant forall k, reference :: 0 <= k < i ==> Considered(text, selected, catalog, common[k], reference, after)
    {
      ghost var before := after;
      after := ConsiderProvider(text, selected, catalog, index, common[i], after);
      forall k, reference | 0 <= k < i ensures Considered(text, selected, catalog, common[k], reference, after) {
        ConsideredStill(text, selected, catalog, common[k], reference, before, after);
      }
    }
  }

  /** What an accepted plan is, by the compositions its roster allows. */
  lemma AcceptedBound(text: string -> nat, selected: seq<RoleFacts>, catalog: Catalog, common: seq<string>, best: Best,
                      choice: Choice, preference: Preference, tuples: seq<Tuple>, bytes: nat, comparison: Comparison)
    requires selected != [] && Accepted(text, selected, catalog, choice, preference, tuples, bytes, comparison)
    requires forall p :: p in common <==> forall r :: r in selected ==> p in Providers(r)
    requires SingleFeasible(selected) && !MixedFeasible(selected) ==> LOCKED_SINGLE_BYTES + ComparisonBytes(Homogeneous) <= best.total
    requires !SingleFeasible(selected) && MixedFeasible(selected) ==> LOCKED_MIXED_BYTES + ComparisonBytes(Heterogeneous) <= best.total
    requires SingleFeasible(selected) && MixedFeasible(selected) ==>
               && MIXED_BYTES + ComparisonBytes(Heterogeneous) <= best.total
               && forall provider, reference :: provider in common ==> Considered(text, selected, catalog, provider, reference, best)
    ensures bytes + ComparisonBytes(comparison) <= best.total
  {
    var derived := Derive(choice, preference, selected, catalog, tuples).value;
    match derived
    case Supported(reference) =>
      OneProviderCommon(selected, tuples);
      var provider := tuples[0].identity.provider;
      forall i | 0 <= i < |selected| ensures Passing(selected[i], provider, reference, catalog, tuples[i]) {
        assert tuples[i] in tuples;
      }
      assert AllPassing(selected, provider, reference, catalog, tuples);
      assert Considered(text, selected, catalog, provider, reference, best);
    case _ =>
  }

  method ConsiderRosterSupport(text: string -> nat, selected: seq<RoleFacts>, ghost catalog: Catalog, index: Index, best: Best) returns (after: Best)
    requires ValidRoles(selected)
    requires forall r :: r in selected ==> RoleIndexed(text, r, catalog, index)
    ensures Advanced(text, selected, catalog, best, after)
    ensures if |selected| < 2 then after == best else Bounded(text, selected, catalog, after)
  {
    after := best;
    if |selected| < 2 { return; }
    var common := CommonProviders(selected);
    var diverse := |AllProviders(selected)| > 1;
    assert selected[0] in selected;
    CommonIsFeasible(selected, common);
    if common != [] && !diverse {
      assert common[0] in common;
      LockedSingleReached(text, selected, catalog, common[0]);
      after := Remembered(after, LOCKED_SINGLE_BYTES, Homogeneous);
    }
    if common == [] && diverse {
      MixedReached(text, selected, catalog);
      after := Remembered(after, LOCKED_MIXED_BYTES, Heterogeneous);
    }
    if common != [] && diverse {
      MixedReached(text, selected, catalog);
      after := Remembered(after, MIXED_BYTES, Heterogeneous);
      after := ConsiderHomogeneousSupport(text, selected, catalog, index, common, after);
    }
    RosterBounded(text, selected, catalog, common, after);
  }

  lemma CommonIsFeasible(selected: seq<RoleFacts>, common: seq<string>)
    requires selected != []
    requires forall p :: p in common <==> forall r :: r in selected ==> p in Providers(r)
    ensures common != [] <==> SingleFeasible(selected)
  {
    assert selected[0] in selected;
    if common != [] { assert common[0] in common; }
    if SingleFeasible(selected) {
      var p :| p in Providers(selected[0]) && forall r :: r in selected ==> p in Providers(r);
      assert p in common;
    }
  }

  lemma RosterBounded(text: string -> nat, selected: seq<RoleFacts>, catalog: Catalog, common: seq<string>, best: Best)
    requires selected != []
    requires forall p :: p in common <==> forall r :: r in selected ==> p in Providers(r)
    requires SingleFeasible(selected) && !MixedFeasible(selected) ==> LOCKED_SINGLE_BYTES + ComparisonBytes(Homogeneous) <= best.total
    requires !SingleFeasible(selected) && MixedFeasible(selected) ==> LOCKED_MIXED_BYTES + ComparisonBytes(Heterogeneous) <= best.total
    requires SingleFeasible(selected) && MixedFeasible(selected) ==>
               && MIXED_BYTES + ComparisonBytes(Heterogeneous) <= best.total
               && forall provider, reference :: provider in common ==> Considered(text, selected, catalog, provider, reference, best)
    ensures Bounded(text, selected, catalog, best)
  {
    forall bytes: nat, comparison | Reached(text, selected, catalog, bytes, comparison)
      ensures bytes + ComparisonBytes(comparison) <= best.total
    {
      var choice: Choice, preference: Preference, tuples: seq<Tuple> :| Accepted(text, selected, catalog, choice, preference, tuples, bytes, comparison);
      AcceptedBound(text, selected, catalog, common, best, choice, preference, tuples, bytes, comparison);
    }
  }

  // ----- every roster -----

  const MAX_EVIDENCE_BYTES := 224 * 1024
  const MAX_OPTIONAL := 12

  function Pow2(n: nat): nat {
    if n == 0 then 1 else 2 * Pow2(n - 1)
  }

  predicate Bit(mask: nat, i: nat) {
    if i == 0 then mask % 2 == 1 else Bit(mask / 2, i - 1)
  }

  function Bits(mask: nat, n: nat): seq<bool> {
    seq(n, i requires 0 <= i < n => Bit(mask, i))
  }

  /** Every choice of optional roles is the bits of some mask. */
  lemma {:induction false} MaskOf(chosen: seq<bool>) returns (mask: nat)
    ensures mask < Pow2(|chosen|) && Bits(mask, |chosen|) == chosen
  {
    if chosen == [] {
      mask := 0;
    } else {
      var rest := MaskOf(chosen[1..]);
      mask := 2 * rest + if chosen[0] then 1 else 0;
      forall i | 0 <= i < |chosen| ensures Bit(mask, i) == chosen[i] {
        if i > 0 {
          assert Bits(rest, |chosen| - 1)[i - 1] == chosen[1..][i - 1];
        }
      }
    }
  }

  method PickMasked(optional: seq<RoleFacts>, mask: nat) returns (picked: seq<RoleFacts>)
    ensures picked == Picked(optional, Bits(mask, |optional|))
  {
    picked := [];
    for i := 0 to |optional|
      invariant picked + Picked(optional[i..], Bits(mask, |optional|)[i..]) == Picked(optional, Bits(mask, |optional|))
    {
      assert optional[i..][1..] == optional[i + 1..];
      assert Bits(mask, |optional|)[i..][1..] == Bits(mask, |optional|)[i + 1..];
      if Bit(mask, i) { picked := picked + [optional[i]]; }
    }
  }

  method SplitRoles(roles: seq<RoleFacts>) returns (required: seq<RoleFacts>, optional: seq<RoleFacts>)
    ensures required == Required(roles) && optional == Optional(roles)
  {
    required, optional := [], [];
    for i := 0 to |roles|
      invariant required + Required(roles[i..]) == Required(roles)
      invariant optional + Optional(roles[i..]) == Optional(roles)
    {
      assert roles[i..][1..] == roles[i + 1..];
      if roles[i].required { required := required + [roles[i]]; } else { optional := optional + [roles[i]]; }
    }
  }

  /** A plan over some roster of at least two roles that is accepted. */
  ghost predicate Plan(text: string -> nat, roles: seq<RoleFacts>, catalog: Catalog, selected: seq<RoleFacts>, bytes: nat, comparison: Comparison) {
    Roster(roles, selected) && |selected| >= 2 && Reached(text, selected, catalog, bytes, comparison)
  }

  /** The best so far is nothing yet, or an accepted plan. */
  ghost predicate Held(text: string -> nat, roles: seq<RoleFacts>, catalog: Catalog, best: Best) {
    match best.comparison
    case None => best == Best(0, None, -1)
    case Some(comparison) =>
      && best.total == best.supportBytes + ComparisonBytes(comparison)
      && exists selected :: Plan(text, roles, catalog, selected, best.supportBytes, comparison)
  }

  /** What the search has established after the masks below `n`. */
  ghost predicate Searched(text: string -> nat, roles: seq<RoleFacts>, catalog: Catalog, n: nat, best: Best) {
    Held(text, roles, catalog, best) && MasksBounded(text, roles, catalog, n, best)
  }

  ghost predicate MasksBounded(text: string -> nat, roles: seq<RoleFacts>, catalog: Catalog, n: nat, best: Best) {
    forall mask: nat :: mask < n ==> MaskBounded(text, roles, catalog, mask, best)
  }

  function MaskRoster(roles: seq<RoleFacts>, mask: nat): seq<RoleFacts> {
    Required(roles) + Picked(Optional(roles), Bits(mask, |Optional(roles)|))
  }

  ghost predicate MaskBounded(text: string -> nat, roles: seq<RoleFacts>, catalog: Catalog, mask: nat, best: Best) {
    |MaskRoster(roles, mask)| >= 2 ==> Bounded(text, MaskRoster(roles, mask), catalog, best)
  }

  lemma {:induction false} PickedFrom(roles: seq<RoleFacts>, chosen: seq<bool>)
    requires |chosen| == |roles|
    ensures forall r :: r in Picked(roles, chosen) ==> r in roles
  {
    if roles != [] {
      PickedFrom(roles[1..], chosen[1..]);
      assert forall r :: r in roles[1..] ==> r in roles;
    }
  }

  lemma {:induction false} PartsFrom(roles: seq<RoleFacts>)
    ensures forall r :: r in Required(roles) || r in Optional(roles) ==> r in roles
  {
    if roles != [] {
      PartsFrom(roles[1..]);
      assert forall r :: r in roles[1..] ==> r in roles;
    }
  }

  lemma MaskIsRoster(roles: seq<RoleFacts>, mask: nat)
    ensures Roster(roles, MaskRoster(roles, mask))
    ensures forall r :: r in MaskRoster(roles, mask) ==> r in roles
  {
    var chosen := Bits(mask, |Optional(roles)|);
    PickedFrom(Optional(roles), chosen);
    PartsFrom(roles);
    assert |chosen| == |Optional(roles)|;
  }

  lemma HeldStill(text: string -> nat, roles: seq<RoleFacts>, catalog: Catalog, mask: nat, before: Best, after: Best)
    requires Held(text, roles, catalog, before) && Advanced(text, MaskRoster(roles, mask), catalog, before, after)
    requires |MaskRoster(roles, mask)| < 2 ==> after == before
    ensures Held(text, roles, catalog, after)
  {
    if after != before {
      MaskIsRoster(roles, mask);
      assert Plan(text, roles, catalog, MaskRoster(roles, mask), after.supportBytes, after.comparison.value);
    }
  }

  lemma BoundedStill(text: string -> nat, roles: seq<RoleFacts>, catalog: Catalog, mask: nat, before: Best, after: Best)
    requires MaskBounded(text, roles, catalog, mask, before) && before.total <= after.total
    ensures MaskBounded(text, roles, catalog, mask, after)
  {
  }

  lemma MasksMore(text: string -> nat, roles: seq<RoleFacts>, catalog: Catalog, mask: nat, before: Best, after: Best)
    requires MasksBounded(text, roles, catalog, mask, before) && before.total <= after.total
    requires MaskBounded(text, roles, catalog, mask, after)
    ensures MasksBounded(text, roles, catalog, mask + 1, after)
  {
    forall m: nat | m < mask + 1 ensures MaskBounded(text, roles, catalog, m, after) {
      if m < mask { BoundedStill(text, roles, catalog, m, before, after); }
    }
  }

  lemma SearchedMore(text: string -> nat, roles: seq<RoleFacts>, catalog: Catalog, mask: nat, before: Best, after: Best)
    requires Searched(text, roles, catalog, mask, before)
    requires Advanced(text, MaskRoster(roles, mask), catalog, before, after)
    requires if |MaskRoster(roles, mask)| < 2 then after == before else Bounded(text, MaskRoster(roles, mask), catalog, after)
    ensures Searched(text, roles, catalog, mask + 1, after)
  {
    HeldStill(text, roles, catalog, mask, before, after);
    MasksMore(text, roles, catalog, mask, before, after);
  }

  /** All plans are bounded once all masks are. */
  lemma AllMasks(text: string -> nat, roles: seq<RoleFacts>, catalog: Catalog, best: Best, selected: seq<RoleFacts>, bytes: nat, comparison: Comparison)
    requires Searched(text, roles, catalog, Pow2(|Optional(roles)|), best)
    requires Plan(text, roles, catalog, selected, bytes, comparison)
    ensures best.comparison.Some? && bytes + ComparisonBytes(comparison) <= best.supportBytes + ComparisonBytes(best.comparison.value)
  {
    var chosen: seq<bool> :| |chosen| == |Optional(roles)| && selected == Required(roles) + Picked(Optional(roles), chosen);
    var mask := MaskOf(chosen);
    assert MaskBounded(text, roles, catalog, mask, best);
    assert MaskRoster(roles, mask) == selected;
  }

  /** With at most twelve optional roles the answer is the size of some accepted
      plan and no accepted plan, over any roster, any eligible assignment and any
      reference, is larger; there is no answer exactly when no plan is accepted.
      With more optional roles it is one byte over what evidence may take. */
  method MaximumProviderSupport(text: string -> nat, roles: seq<RoleFacts>, catalog: Catalog)
    returns (supportBytes: nat, comparison: Option<Comparison>)
    requires ValidRoles(roles) && DistinctNames(roles)
    ensures |Optional(roles)| > 12 ==> supportBytes == 224 * 1024 + 1 && comparison == Some(Homogeneous)
    ensures |Optional(roles)| <= 12 && comparison.Some? ==>
              exists selected :: Plan(text, roles, catalog, selected, supportBytes, comparison.value)
    ensures |Optional(roles)| <= 12 ==>
              forall selected, bytes: nat, other :: Plan(text, roles, catalog, selected, bytes, other) ==>
                comparison.Some? && bytes + ComparisonBytes(other) <= supportBytes + ComparisonBytes(comparison.value)
  {
    var required, optional := SplitRoles(roles);
    if |optional| > MAX_OPTIONAL { return MAX_EVIDENCE_BYTES + 1, Some(Homogeneous); }
    var index := SupportSliceIndex(text, roles, catalog);
    var best := Best(0, None, -1);
    var mask := 0;
    while mask < Pow2(|optional|)
      invariant 0 <= mask <= Pow2(|optional|)
      invariant Searched(text, roles, catalog, mask, best)
    {
      var picked := PickMasked(optional, mask);
      MaskIsRoster(roles, mask);
      var after := ConsiderRosterSupport(text, required + picked, catalog, index, best);
      SearchedMore(text, roles, catalog, mask, best, after);
      best := after;
      mask := mask + 1;
    }
    supportBytes, comparison := best.supportBytes, best.comparison;
    forall selected, bytes: nat, other | Plan(text, roles, catalog, selected, bytes, other)
      ensures comparison.Some? && bytes + ComparisonBytes(other) <= supportBytes + ComparisonBytes(comparison.value)
    {
      AllMasks(text, roles, catalog, best, selected, bytes, other);
    }
  }
}
