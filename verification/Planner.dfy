/** What the planner may choose from: the catalog, the candidates of each role,
    rosters and the eligible assignments of a roster. */

module Planner {
  import opened Options

  /** In rising order of effort. */
  datatype Level = Off | Minimal | Low | Medium | High | XHigh | Max

  datatype Identity = Identity(provider: string, model: string)

  /** One model a role may run on, with the levels that remain open for it. */
  datatype Candidate = Candidate(identity: Identity, levels: seq<Level>)

  datatype RoleFacts = RoleFacts(role: string, required: bool, candidates: seq<Candidate>)

  datatype Tuple = Tuple(identity: Identity, level: Level)

  predicate Eligible(role: RoleFacts, t: Tuple) {
    exists c :: c in role.candidates && c.identity == t.identity && t.level in c.levels
  }

  predicate ValidRole(role: RoleFacts) {
    role.candidates != [] && forall c :: c in role.candidates ==> c.levels != []
  }

  predicate ValidRoles(roles: seq<RoleFacts>) {
    forall r :: r in roles ==> ValidRole(r)
  }

  function Required(roles: seq<RoleFacts>): seq<RoleFacts> {
    if roles == [] then [] else (if roles[0].required then [roles[0]] else []) + Required(roles[1..])
  }

  function Optional(roles: seq<RoleFacts>): seq<RoleFacts> {
    if roles == [] then [] else (if roles[0].required then [] else [roles[0]]) + Optional(roles[1..])
  }

  function Picked(roles: seq<RoleFacts>, chosen: seq<bool>): seq<RoleFacts>
    requires |chosen| == |roles|
  {
    if roles == [] then [] else (if chosen[0] then [roles[0]] else []) + Picked(roles[1..], chosen[1..])
  }

  /** A roster keeps every required role and any of the optional ones. */
  ghost predicate Roster(roles: seq<RoleFacts>, selected: seq<RoleFacts>) {
    exists chosen: seq<bool> :: |chosen| == |Optional(roles)| && selected == Required(roles) + Picked(Optional(roles), chosen)
  }

  predicate Assigned(selected: seq<RoleFacts>, tuples: seq<Tuple>) {
    |tuples| == |selected| && forall i :: 0 <= i < |selected| ==> Eligible(selected[i], tuples[i])
  }

  function Providers(role: RoleFacts): set<string> {
    set c | c in role.candidates :: c.identity.provider
  }

  function AllProviders(roles: seq<RoleFacts>): set<string> {
    set r, c | r in roles && c in r.candidates :: c.identity.provider
  }

  function UsedProviders(tuples: seq<Tuple>): set<string> {
    set t | t in tuples :: t.identity.provider
  }

  /** Some provider serves every one of these roles. */
  predicate SingleFeasible(roles: seq<RoleFacts>) {
    roles != [] && exists p :: p in Providers(roles[0]) && forall r :: r in roles ==> p in Providers(r)
  }

  predicate MixedFeasible(roles: seq<RoleFacts>) {
    |AllProviders(roles)| > 1
  }

  // ----- cardinalities -----

  lemma TwoMembers<T>(s: set<T>, a: T, b: T)
    requires a in s && b in s && a != b
    ensures |s| > 1
  {
    assert {a, b} <= s;
    assert |s - {a, b}| + |{a, b}| == |s|;
  }

  lemma AnotherMember<T>(s: set<T>, a: T) returns (b: T)
    requires |s| > 1
    ensures b in s && b != a
  {
    if s - {a} == {} {
      assert s <= {a};
      SubsetSize(s, {a});
    }
    b :| b in s - {a};
  }

  lemma SubsetSize<T>(s: set<T>, t: set<T>)
    requires s <= t
    ensures |s| <= |t|
  {
    assert |t - s| + |s| == |t|;
  }

  lemma OneUsed(tuples: seq<Tuple>, p: string)
    requires tuples != [] && forall t :: t in tuples ==> t.identity.provider == p
    ensures UsedProviders(tuples) == {p}
  {
    assert tuples[0] in tuples;
    assert UsedProviders(tuples) <= {p};
  }

  lemma SomeEligible(role: RoleFacts, p: string) returns (t: Tuple)
    requires ValidRole(role) && p in Providers(role)
    ensures Eligible(role, t) && t.identity.provider == p
  {
    var c :| c in role.candidates && c.identity.provider == p;
    assert c.levels != [];
    t := Tuple(c.identity, c.levels[0]);
    assert c in role.candidates && c.identity == t.identity && t.level in c.levels;
  }

  lemma EligibleProvider(role: RoleFacts, t: Tuple)
    requires Eligible(role, t)
    ensures t.identity.provider in Providers(role)
  {
    var c :| c in role.candidates && c.identity == t.identity && t.level in c.levels;
    assert c.identity.provider in Providers(role);
  }

  /** Eligible tuples that all use one provider, where every role offers it. */
  lemma {:induction false} AllFrom(selected: seq<RoleFacts>, p: string) returns (tuples: seq<Tuple>)
    requires ValidRoles(selected) && forall r :: r in selected ==> p in Providers(r)
    ensures Assigned(selected, tuples) && forall t :: t in tuples ==> t.identity.provider == p
  {
    if selected == [] {
      tuples := [];
    } else {
      var t := SomeEligible(selected[0], p);
      var rest := AllFrom(selected[1..], p);
      tuples := [t] + rest;
      forall i | 0 <= i < |selected| ensures Eligible(selected[i], tuples[i]) {
        if i > 0 { assert selected[i] == selected[1..][i - 1] && tuples[i] == rest[i - 1]; }
      }
    }
  }

  /** Any eligible tuples. */
  lemma {:induction false} AnyFrom(selected: seq<RoleFacts>) returns (tuples: seq<Tuple>)
    requires ValidRoles(selected)
    ensures Assigned(selected, tuples)
  {
    if selected == [] {
      tuples := [];
    } else {
      assert selected[0] in selected && ValidRole(selected[0]);
      var p := selected[0].candidates[0].identity.provider;
      assert p in Providers(selected[0]);
      var t := SomeEligible(selected[0], p);
      var rest := AnyFrom(selected[1..]);
      tuples := [t] + rest;
      forall i | 0 <= i < |selected| ensures Eligible(selected[i], tuples[i]) {
        if i > 0 { assert selected[i] == selected[1..][i - 1] && tuples[i] == rest[i - 1]; }
      }
    }
  }

  /** With two providers on offer and two roles, some assignment uses two. */
  lemma MixedFrom(selected: seq<RoleFacts>) returns (tuples: seq<Tuple>)
    requires ValidRoles(selected) && |selected| >= 2 && MixedFeasible(selected)
    ensures Assigned(selected, tuples) && |UsedProviders(tuples)| > 1
  {
    tuples := AnyFrom(selected);
    var first := tuples[0].identity.provider;
    var other := AnotherMember(AllProviders(selected), first);
    var r, c :| r in selected && c in r.candidates && c.identity.provider == other;
    var k :| 0 <= k < |selected| && selected[k] == r;
    assert other in Providers(selected[k]);
    var t := SomeEligible(selected[k], other);
    if k > 0 {
      tuples := tuples[k := t];
      TwoUsed(tuples, 0, k);
    } else if tuples[1].identity.provider != first {
      TwoUsed(tuples, 0, 1);
    } else {
      tuples := tuples[0 := t];
      TwoUsed(tuples, 0, 1);
    }
  }

  lemma TwoUsed(tuples: seq<Tuple>, i: nat, j: nat)
    requires i < |tuples| && j < |tuples| && tuples[i].identity.provider != tuples[j].identity.provider
    ensures |UsedProviders(tuples)| > 1
  {
    assert tuples[i] in tuples && tuples[j] in tuples;
    TwoMembers(UsedProviders(tuples), tuples[i].identity.provider, tuples[j].identity.provider);
  }

  /** Using one provider throughout makes it common to all the roles. */
  lemma OneProviderCommon(selected: seq<RoleFacts>, tuples: seq<Tuple>)
    requires Assigned(selected, tuples) && selected != [] && |UsedProviders(tuples)| == 1
    ensures forall r :: r in selected ==> tuples[0].identity.provider in Providers(r)
    ensures forall t :: t in tuples ==> t.identity.provider == tuples[0].identity.provider
    ensures SingleFeasible(selected)
  {
    var p := tuples[0].identity.provider;
    assert tuples[0] in tuples && p in UsedProviders(tuples);
    forall t | t in tuples ensures t.identity.provider == p {
      assert t.identity.provider in UsedProviders(tuples);
      if t.identity.provider != p { TwoMembers(UsedProviders(tuples), t.identity.provider, p); }
    }
    forall r | r in selected ensures p in Providers(r) {
      var k :| 0 <= k < |selected| && selected[k] == r;
      EligibleProvider(selected[k], tuples[k]);
      assert tuples[k] in tuples;
    }
    assert selected[0] in selected;
  }

  lemma UsedAreOffered(selected: seq<RoleFacts>, tuples: seq<Tuple>)
    requires Assigned(selected, tuples)
    ensures UsedProviders(tuples) <= AllProviders(selected)
  {
    forall p | p in UsedProviders(tuples) ensures p in AllProviders(selected) {
      var t :| t in tuples && t.identity.provider == p;
      var k :| 0 <= k < |tuples| && tuples[k] == t;
      EligibleProvider(selected[k], t);
      var c :| c in selected[k].candidates && c.identity.provider == p;
      assert selected[k] in selected;
    }
  }
}
