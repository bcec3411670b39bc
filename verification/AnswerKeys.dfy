/** How the eligible model and level of a role are asked for and answered: the
    answer keys of a question set stand one to one for the eligible tuples. */

module AnswerKeys {
  import opened Options
  import opened Planner

  /** A catalog index with one of its levels. */
  datatype Pair = Pair(index: nat, level: Level)

  const THINKING_ORDER: seq<Level> := [Off, Minimal, Low, Medium, High, XHigh, Max]
  const MAX_CHOICE_OPTIONS := 255

  // ----- keys -----

  function Digit(d: nat): char
    requires d < 36
  {
    if d < 10 then '0' + d as char else 'a' + (d - 10) as char
  }

  function Value(c: char): nat {
    if '0' <= c <= '9' then (c - '0') as nat else if 'a' <= c <= 'z' then 10 + (c - 'a') as nat else 0
  }

  function Base36(n: nat): (s: string)
    ensures s != "" && forall c :: c in s ==> c != '_'
  {
    if n < 36 then [Digit(n)] else Base36(n / 36) + [Digit(n % 36)]
  }

  function Parsed(s: string): nat {
    if s == "" then 0 else 36 * Parsed(s[..|s| - 1]) + Value(s[|s| - 1])
  }

  function LevelName(level: Level): string {
    match level
    case Off => "off" case Minimal => "minimal" case Low => "low" case Medium => "medium"
    case High => "high" case XHigh => "xhigh" case Max => "max"
  }

  function ModelKey(index: nat): string {
    "m" + Base36(index)
  }

  function TupleKey(pair: Pair): string {
    "m" + Base36(pair.index) + "_" + LevelName(pair.level)
  }

  lemma {:induction false} Base36RoundTrip(n: nat)
    ensures Parsed(Base36(n)) == n
  {
    if n >= 36 { Base36RoundTrip(n / 36); }
  }

  const DIGITS := "0123456789abcdefghijklmnopqrstuvwxyz"

  /** What an index is written with: its value in base 36, most significant digit
      first, without leading zeros. */
  lemma {:induction false} Base36Digits(n: nat)
    ensures |DIGITS| == 36 && forall c :: c in Base36(n) ==> c in DIGITS
    ensures n >= 36 ==> Base36(n) == Base36(n / 36) + [DIGITS[n % 36]]
    ensures n < 36 ==> Base36(n) == [DIGITS[n]]
    ensures |Base36(n)| > 1 ==> Base36(n)[0] != '0'
  {
    DigitText(n % 36);
    if n >= 36 { Base36Digits(n / 36); }
  }

  lemma DigitText(d: nat)
    requires d < 36
    ensures |DIGITS| == 36 && Digit(d) == DIGITS[d] && (Digit(d) == '0' <==> d == 0)
  {
  }

  lemma LevelNamesDistinct(a: Level, b: Level)
    requires LevelName(a) == LevelName(b)
    ensures a == b
  {
    assert LevelName(Off)[1] == 'f' && LevelName(Minimal)[1] == 'i' && LevelName(Low)[1] == 'o';
    assert LevelName(Medium)[1] == 'e' && LevelName(High)[0] == 'h' && LevelName(XHigh)[0] == 'x' && LevelName(Max)[1] == 'a';
  }

  /** The separator occurs in no index, so a key splits in one way. */
  lemma SplitAtUnderscore(a: string, b: string, x: string, y: string)
    requires a + "_" + x == b + "_" + y
    requires (forall c :: c in a ==> c != '_') && (forall c :: c in b ==> c != '_')
    ensures a == b && x == y
  {
    var s := a + "_" + x;
    assert s[|a|] == '_' && s[|b|] == '_';
    forall i | 0 <= i < |a| ensures s[i] != '_' { assert s[i] == a[i] && a[i] in a; }
    forall i | 0 <= i < |b| ensures s[i] != '_' { assert s[i] == b[i] && b[i] in b; }
    assert s[..|a|] == a && s[..|b|] == b;
    assert s[|a| + 1..] == x && s[|b| + 1..] == y;
  }

  lemma TupleKeysDistinct(p: Pair, q: Pair)
    requires TupleKey(p) == TupleKey(q)
    ensures p == q
  {
    var x, y := LevelName(p.level), LevelName(q.level);
    assert TupleKey(p)[1..] == Base36(p.index) + "_" + x;
    assert TupleKey(q)[1..] == Base36(q.index) + "_" + y;
    SplitAtUnderscore(Base36(p.index), Base36(q.index), x, y);
    LevelNamesDistinct(p.level, q.level);
    Base36RoundTrip(p.index);
    Base36RoundTrip(q.index);
  }

  // ----- eligible pairs and their axes -----

  /** What fixes the choice of one role: the indexes in its scope, and a model
      or a level that is locked. */
  datatype Limits = Limits(scope: set<nat>, model: Option<nat>, level: Option<Level>)

  predicate Allowed(limits: Limits, pair: Pair) {
    && pair.index in limits.scope
    && (limits.model == None || limits.model == Some(pair.index))
    && (limits.level == None || limits.level == Some(pair.level))
  }

  function LevelPairs(index: nat, levels: seq<Level>, limits: Limits): seq<Pair> {
    if levels == [] then []
    else (if Allowed(limits, Pair(index, levels[0])) then [Pair(index, levels[0])] else []) + LevelPairs(index, levels[1..], limits)
  }

  /** `candidates` are the levels of each catalog entry. */
  function EligiblePairs(candidates: seq<seq<Level>>, limits: Limits): seq<Pair> {
    if candidates == [] then []
    else
      var last := |candidates| - 1;
      EligiblePairs(candidates[..last], limits) + LevelPairs(last, candidates[last], limits)
  }

  ghost predicate Distinct<T>(s: seq<T>) {
    forall i, j :: 0 <= i < j < |s| ==> s[i] != s[j]
  }

  /** The indexes that occur, in order of first occurrence. */
  function Indexes(eligible: seq<Pair>): seq<nat> {
    if eligible == [] then []
    else
      var last := eligible[|eligible| - 1].index;
      var before := Indexes(eligible[..|eligible| - 1]);
      if last in before then before else before + [last]
  }

  /** The levels that occur, in their fixed order. */
  function Levels(eligible: seq<Pair>, order: seq<Level>): seq<Level> {
    if order == [] then []
    else (if exists p :: p in eligible && p.level == order[0] then [order[0]] else []) + Levels(eligible, order[1..])
  }

  datatype Axes = Axes(eligible: seq<Pair>, indexes: seq<nat>, levels: seq<Level>, joint: bool)

  predicate Rectangular(eligible: seq<Pair>, indexes: seq<nat>, levels: seq<Level>) {
    forall index, level :: index in indexes && level in levels ==> Pair(index, level) in eligible
  }

  /** None where the planner refuses to ask. */
  function TypesafeRoleAxes(candidates: seq<seq<Level>>, limits: Limits): Option<Axes> {
    var eligible := EligiblePairs(candidates, limits);
    var indexes, levels := Indexes(eligible), Levels(eligible, THINKING_ORDER);
    var joint := |indexes| > 1 && |levels| > 1 && !Rectangular(eligible, indexes, levels);
    if eligible == [] || (joint && |eligible| > MAX_CHOICE_OPTIONS) then None
    else Some(Axes(eligible, indexes, levels, joint))
  }

  lemma {:induction false} IndexMembers(eligible: seq<Pair>)
    ensures forall i :: i in Indexes(eligible) <==> exists p :: p in eligible && p.index == i
    ensures Distinct(Indexes(eligible))
  {
    if eligible != [] {
      var shorter, last := eligible[..|eligible| - 1], eligible[|eligible| - 1];
      IndexMembers(shorter);
      assert eligible == shorter + [last];
      assert forall p :: p in eligible <==> p in shorter || p == last;
    }
  }

  lemma {:induction false} LevelMembers(eligible: seq<Pair>, order: seq<Level>)
    requires Distinct(order)
    ensures forall l :: l in Levels(eligible, order) <==> l in order && exists p :: p in eligible && p.level == l
    ensures Distinct(Levels(eligible, order)) && |Levels(eligible, order)| <= |order|
  {
    if order != [] {
      assert order == [order[0]] + order[1..];
      LevelMembers(eligible, order[1..]);
      assert order[0] !in order[1..];
      assert order[0] !in Levels(eligible, order[1..]);
    }
  }

  lemma AllLevels(level: Level)
    ensures level in THINKING_ORDER && Distinct(THINKING_ORDER)
  {
    var k := match level case Off => 0 case Minimal => 1 case Low => 2 case Medium => 3 case High => 4 case XHigh => 5 case Max => 6;
    assert THINKING_ORDER[k] == level;
  }

  /** The axes span the eligible pairs. */
  lemma AxesSpan(eligible: seq<Pair>)
    ensures var indexes, levels := Indexes(eligible), Levels(eligible, THINKING_ORDER);
            && Distinct(indexes) && Distinct(levels) && |levels| <= 7
            && (forall i :: i in indexes <==> exists p :: p in eligible && p.index == i)
            && (forall l :: l in levels <==> exists p :: p in eligible && p.level == l)
  {
    IndexMembers(eligible);
    AllLevels(Off);
    LevelMembers(eligible, THINKING_ORDER);
    forall l ensures l in THINKING_ORDER { AllLevels(l); }
  }

  lemma {:induction false} LevelPairsExact(index: nat, levels: seq<Level>, limits: Limits)
    ensures forall p :: p in LevelPairs(index, levels, limits) <==> p.index == index && p.level in levels && Allowed(limits, p)
  {
    if levels != [] {
      LevelPairsExact(index, levels[1..], limits);
      assert levels == [levels[0]] + levels[1..];
    }
  }

  /** Eligible is exactly a catalog entry in scope at one of its levels, as far as
      neither the model nor the level is locked to another. */
  lemma {:induction false} EligibleExactly(candidates: seq<seq<Level>>, limits: Limits)
    ensures forall p :: p in EligiblePairs(candidates, limits) <==>
              && p.index < |candidates| && p.level in candidates[p.index] && p.index in limits.scope
              && (limits.model.Some? ==> limits.model.value == p.index) && (limits.level.Some? ==> limits.level.value == p.level)
    decreases |candidates|
  {
    if candidates != [] {
      var last := |candidates| - 1;
      EligibleExactly(candidates[..last], limits);
      LevelPairsExact(last, candidates[last], limits);
    }
  }

  ghost predicate Hole(eligible: seq<Pair>, p: Pair, q: Pair) {
    p in eligible && q in eligible && Pair(p.index, q.level) !in eligible
  }

  /** One joint question is asked exactly if some eligible model does not go with
      some eligible level; the planner refuses exactly if nothing is eligible or
      that question has more than 255 options. */
  lemma JointExactly(candidates: seq<seq<Level>>, limits: Limits)
    ensures var eligible := EligiblePairs(candidates, limits);
            match TypesafeRoleAxes(candidates, limits)
            case None => eligible == [] || (|eligible| > 255 && exists p, q :: Hole(eligible, p, q))
            case Some(axes) =>
              && eligible != [] && axes.eligible == eligible
              && (axes.joint <==> exists p, q :: Hole(eligible, p, q))
              && (axes.joint ==> |eligible| <= 255)
  {
    var eligible := EligiblePairs(candidates, limits);
    var indexes, levels := Indexes(eligible), Levels(eligible, THINKING_ORDER);
    AxesSpan(eligible);
    if !Rectangular(eligible, indexes, levels) {
      var index, level :| index in indexes && level in levels && Pair(index, level) !in eligible;
      var p :| p in eligible && p.index == index;
      var q :| q in eligible && q.level == level;
      assert Hole(eligible, p, q);
      if |indexes| <= 1 { SingleElement(indexes, p.index, q.index); }
      if |levels| <= 1 { SingleElement(levels, p.level, q.level); }
    }
  }

  /** Without a joint question the eligible pairs are exactly the product. */
  lemma SplitIsProduct(candidates: seq<seq<Level>>, limits: Limits)
    requires TypesafeRoleAxes(candidates, limits).Some? && !TypesafeRoleAxes(candidates, limits).value.joint
    ensures var axes := TypesafeRoleAxes(candidates, limits).value;
            forall p: Pair :: p in axes.eligible <==> p.index in axes.indexes && p.level in axes.levels
  {
    var axes := TypesafeRoleAxes(candidates, limits).value;
    AxesSpan(axes.eligible);
    forall p: Pair | p.index in axes.indexes && p.level in axes.levels ensures p in axes.eligible {
      if Rectangular(axes.eligible, axes.indexes, axes.levels) {
        assert Pair(p.index, p.level) == p;
      } else if |axes.indexes| <= 1 {
        var q :| q in axes.eligible && q.level == p.level;
        SingleElement(axes.indexes, q.index, p.index);
        assert q == p;
      } else {
        var q :| q in axes.eligible && q.index == p.index;
        SingleElement(axes.levels, q.level, p.level);
        assert q == p;
      }
    }
  }

  lemma SingleElement<T>(s: seq<T>, a: T, b: T)
    requires |s| <= 1 && a in s && b in s
    ensures a == b
  {
  }

  // ----- questions and answers -----

  /** What the answers to one role's questions are: one joint key, or a key for
      each axis that has more than one choice. */
  datatype Answer = JointAnswer(key: string) | SplitAnswer(model: Option<string>, level: Option<string>)

  ghost predicate Offered(axes: Axes, answer: Answer) {
    match answer
    case JointAnswer(key) => axes.joint && exists p :: p in axes.eligible && TupleKey(p) == key
    case SplitAnswer(model, level) =>
      && !axes.joint
      && (if |axes.indexes| > 1 then model.Some? && exists i :: i in axes.indexes && ModelKey(i) == model.value else model.None?)
      && (if |axes.levels| > 1 then level.Some? && exists l :: l in axes.levels && LevelName(l) == level.value else level.None?)
  }

  function FindPair(eligible: seq<Pair>, wanted: Pair -> bool): Option<Pair> {
    if eligible == [] then None
    else if wanted(eligible[0]) then Some(eligible[0])
    else FindPair(eligible[1..], wanted)
  }

  function Decode(axes: Axes, answer: Answer): Option<Pair>
    requires axes.indexes != [] && axes.levels != []
  {
    match answer
    case JointAnswer(key) => FindPair(axes.eligible, (p: Pair) => TupleKey(p) == key)
    case SplitAnswer(model, level) =>
      var index := if model.Some? && model.value != "" then Parsed(model.value[1..]) else axes.indexes[0];
      var name := if level.Some? then level.value else LevelName(axes.levels[0]);
      FindPair(axes.eligible, (p: Pair) => p.index == index && LevelName(p.level) == name)
  }

  function Encode(axes: Axes, pair: Pair): Answer {
    if axes.joint then JointAnswer(TupleKey(pair))
    else SplitAnswer(
      if |axes.indexes| > 1 then Some(ModelKey(pair.index)) else None,
      if |axes.levels| > 1 then Some(LevelName(pair.level)) else None)
  }

  lemma {:induction false} Found(eligible: seq<Pair>, wanted: Pair -> bool)
    ensures match FindPair(eligible, wanted)
            case Some(p) => p in eligible && wanted(p)
            case None => forall p :: p in eligible ==> !wanted(p)
  {
    if eligible != [] && !wanted(eligible[0]) {
      Found(eligible[1..], wanted);
      assert eligible == [eligible[0]] + eligible[1..];
    }
  }

  lemma FoundOnly(eligible: seq<Pair>, wanted: Pair -> bool, pair: Pair)
    requires pair in eligible && wanted(pair) && forall p :: p in eligible && wanted(p) ==> p == pair
    ensures FindPair(eligible, wanted) == Some(pair)
  {
    Found(eligible, wanted);
  }

  /** The keys of an eligible pair are offered, and read back as that pair. */
  lemma EncodeDecodes(candidates: seq<seq<Level>>, limits: Limits, pair: Pair)
    requires TypesafeRoleAxes(candidates, limits).Some? && pair in TypesafeRoleAxes(candidates, limits).value.eligible
    ensures var axes := TypesafeRoleAxes(candidates, limits).value;
            && axes.indexes != [] && axes.levels != []
            && Offered(axes, Encode(axes, pair)) && Decode(axes, Encode(axes, pair)) == Some(pair)
  {
    var axes := TypesafeRoleAxes(candidates, limits).value;
    AxesSpan(axes.eligible);
    if axes.joint {
      forall p | p in axes.eligible && TupleKey(p) == TupleKey(pair) ensures p == pair { TupleKeysDistinct(p, pair); }
      FoundOnly(axes.eligible, (p: Pair) => TupleKey(p) == TupleKey(pair), pair);
    } else {
      SplitDecodes(axes, pair);
    }
  }

  lemma SplitDecodes(axes: Axes, pair: Pair)
    requires !axes.joint && pair in axes.eligible && pair.index in axes.indexes && pair.level in axes.levels
    ensures Decode(axes, Encode(axes, pair)) == Some(pair)
  {
    var answer := Encode(axes, pair);
    if |axes.indexes| > 1 {
      assert ModelKey(pair.index)[1..] == Base36(pair.index);
      Base36RoundTrip(pair.index);
    } else {
      SingleElement(axes.indexes, axes.indexes[0], pair.index);
    }
    if |axes.levels| <= 1 { SingleElement(axes.levels, axes.levels[0], pair.level); }
    var name := LevelName(pair.level);
    forall p | p in axes.eligible && p.index == pair.index && LevelName(p.level) == name ensures p == pair {
      LevelNamesDistinct(p.level, pair.level);
    }
    FoundOnly(axes.eligible, (p: Pair) => p.index == pair.index && LevelName(p.level) == name, pair);
  }

  /** Every offered answer is the encoding of exactly one eligible pair, so a
      valid answer is always read, and different answers read differently. */
  lemma OfferedDecodes(candidates: seq<seq<Level>>, limits: Limits, answer: Answer)
    requires TypesafeRoleAxes(candidates, limits).Some? && Offered(TypesafeRoleAxes(candidates, limits).value, answer)
    ensures var axes := TypesafeRoleAxes(candidates, limits).value;
            && axes.indexes != [] && axes.levels != []
            && match Decode(axes, answer)
               case Some(pair) => pair in axes.eligible && answer == Encode(axes, pair)
               case None => false
  {
    var axes := TypesafeRoleAxes(candidates, limits).value;
    AxesSpan(axes.eligible);
    assert axes.eligible[0] in axes.eligible;
    assert axes.eligible[0].index in axes.indexes && axes.eligible[0].level in axes.levels;
    var pair := OfferedPair(axes, answer);
    if !axes.joint { SplitIsProduct(candidates, limits); }
    EncodeDecodes(candidates, limits, pair);
  }

  lemma OfferedPair(axes: Axes, answer: Answer) returns (pair: Pair)
    requires axes.indexes != [] && axes.levels != [] && Offered(axes, answer)
    ensures answer == Encode(axes, pair)
    ensures if axes.joint then pair in axes.eligible else pair.index in axes.indexes && pair.level in axes.levels
  {
    match answer
    case JointAnswer(key) => pair :| pair in axes.eligible && TupleKey(pair) == key;
    case SplitAnswer(model, level) =>
      var index, chosen := axes.indexes[0], axes.levels[0];
      if |axes.indexes| > 1 { index :| index in axes.indexes && ModelKey(index) == model.value; }
      if |axes.levels| > 1 { chosen :| chosen in axes.levels && LevelName(chosen) == level.value; }
      pair := Pair(index, chosen);
  }

  // ----- the size of a joint question -----

  /** A pool of at most thirty-two identities: the indexes in scope. */
  ghost predicate Pooled(candidates: seq<seq<Level>>, limits: Limits) {
    |limits.scope| <= 32 && forall i :: 0 <= i < |candidates| ==> Distinct(candidates[i])
  }

  lemma {:induction false} LevelPairsDistinct(index: nat, levels: seq<Level>, limits: Limits)
    requires Distinct(levels)
    ensures Distinct(LevelPairs(index, levels, limits))
    ensures forall p :: p in LevelPairs(index, levels, limits) ==> p.index == index && p.level in levels && Allowed(limits, p)
  {
    if levels != [] {
      LevelPairsDistinct(index, levels[1..], limits);
      assert levels == [levels[0]] + levels[1..];
    }
  }

  lemma {:induction false} EligibleDistinct(candidates: seq<seq<Level>>, limits: Limits)
    requires forall i :: 0 <= i < |candidates| ==> Distinct(candidates[i])
    ensures Distinct(EligiblePairs(candidates, limits))
    ensures forall p :: p in EligiblePairs(candidates, limits) ==> p.index < |candidates| && Allowed(limits, p)
  {
    if candidates != [] {
      var last := |candidates| - 1;
      EligibleDistinct(candidates[..last], limits);
      LevelPairsDistinct(last, candidates[last], limits);
    }
  }

  function Grid(indexes: set<nat>, levels: set<Level>): set<Pair> {
    set i, l | i in indexes && l in levels :: Pair(i, l)
  }

  lemma {:induction false} GridSize(indexes: set<nat>, levels: set<Level>)
    ensures |Grid(indexes, levels)| == |indexes| * |levels|
    decreases |indexes|
  {
    if indexes == {} {
      assert Grid(indexes, levels) == {};
    } else {
      var i :| i in indexes;
      var rest := indexes - {i};
      var row := Grid({i}, levels);
      GridSize(rest, levels);
      RowSize(i, levels);
      assert Grid(indexes, levels) == Grid(rest, levels) + row && Grid(rest, levels) !! row;
      assert |indexes| == |rest| + 1;
      Distributes(|rest|, |levels|);
    }
  }

  lemma Distributes(a: nat, b: nat)
    ensures (a + 1) * b == a * b + b
  {
  }

  lemma {:induction false} RowSize(i: nat, levels: set<Level>)
    ensures |Grid({i}, levels)| == |levels|
    decreases |levels|
  {
    if levels == {} {
      assert Grid({i}, levels) == {};
    } else {
      var l :| l in levels;
      RowSize(i, levels - {l});
      assert Grid({i}, levels) == Grid({i}, levels - {l}) + {Pair(i, l)};
      assert Pair(i, l) !in Grid({i}, levels - {l});
    }
  }

  lemma {:induction false} DistinctSize<T>(s: seq<T>)
    requires Distinct(s)
    ensures |set x | x in s| == |s|
  {
    if s != [] {
      var shorter, last := s[..|s| - 1], s[|s| - 1];
      DistinctSize(shorter);
      assert (set x | x in s) == (set x | x in shorter) + {last};
      assert last !in shorter;
    }
  }

  /** A joint question has a hole in its rectangle, so a pool of thirty-two models
      by seven levels never asks it with more than 223 options, and the limit on
      options is never what refuses. */
  lemma JointAtMost223(candidates: seq<seq<Level>>, limits: Limits)
    requires Pooled(candidates, limits)
    ensures var eligible := EligiblePairs(candidates, limits);
            match TypesafeRoleAxes(candidates, limits)
            case None => eligible == []
            case Some(axes) => axes.joint ==> |eligible| <= 223
  {
    var eligible := EligiblePairs(candidates, limits);
    var indexes, levels := Indexes(eligible), Levels(eligible, THINKING_ORDER);
    EligibleDistinct(candidates, limits);
    AxesSpan(eligible);
    if !Rectangular(eligible, indexes, levels) {
      HoleBound(eligible, indexes, levels, limits.scope);
    }
  }

  lemma HoleBound(eligible: seq<Pair>, indexes: seq<nat>, levels: seq<Level>, scope: set<nat>)
    requires Distinct(eligible) && Distinct(indexes) && Distinct(levels) && |levels| <= 7 && |scope| <= 32
    requires forall p :: p in eligible ==> p.index in indexes && p.level in levels
    requires forall i :: i in indexes ==> i in scope
    requires !Rectangular(eligible, indexes, levels)
    ensures |eligible| <= 223
  {
    var pairs, columns, rows := set p | p in eligible, set i | i in indexes, set l | l in levels;
    var grid := Grid(columns, rows);
    var index, level :| index in indexes && level in levels && Pair(index, level) !in eligible;
    DistinctSize(eligible);
    DistinctSize(indexes);
    DistinctSize(levels);
    GridSize(columns, rows);
    assert pairs <= grid - {Pair(index, level)};
    SubsetSize(pairs, grid - {Pair(index, level)});
    SubsetSize(columns, scope);
    Product(|columns|, |rows|);
  }

  lemma Product(a: nat, b: nat)
    requires a <= 32 && b <= 7
    ensures a * b <= 224
  {
  }

  // ----- reading a whole response -----

  datatype Asked = Asked(role: string, axes: Axes)

  /** Reads the answers role by role; an answer that names no eligible tuple
      refuses the plan. */
  method TypeSafeAssignmentAnswers(fixed: map<string, Pair>, asked: seq<Asked>, answers: map<string, Answer>) returns (assignments: Option<map<string, Pair>>)
    requires forall i :: 0 <= i < |asked| ==> asked[i].axes.indexes != [] && asked[i].axes.levels != [] && asked[i].role in answers
    requires forall i, j :: 0 <= i < j < |asked| ==> asked[i].role != asked[j].role
    ensures assignments.Some? <==> forall i :: 0 <= i < |asked| ==> Decode(asked[i].axes, answers[asked[i].role]).Some?
    ensures assignments.Some? ==>
              && (forall i :: 0 <= i < |asked| ==>
                    asked[i].role in assignments.value && Decode(asked[i].axes, answers[asked[i].role]) == Some(assignments.value[asked[i].role]))
              && (forall r :: r in fixed && (forall i :: 0 <= i < |asked| ==> asked[i].role != r) ==>
                    r in assignments.value && assignments.value[r] == fixed[r])
  {
    var byRole := fixed;
    for k := 0 to |asked|
      invariant forall i :: 0 <= i < k ==>
        asked[i].role in byRole && Decode(asked[i].axes, answers[asked[i].role]) == Some(byRole[asked[i].role])
      invariant forall r :: r in fixed && (forall i :: 0 <= i < k ==> asked[i].role != r) ==> r in byRole && byRole[r] == fixed[r]
    {
      var pair := Decode(asked[k].axes, answers[asked[k].role]);
      if pair.None? { return None; }
      byRole := byRole[asked[k].role := pair.value];
    }
    assignments := Some(byRole);
  }
}
