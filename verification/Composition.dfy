/** Which provider compositions a plan can have, decided by scanning the catalog
    once per role instead of trying rosters and assignments. */

module Composition {
  import opened Options
  import opened Planner

  datatype Item = Item(identity: Identity, levels: seq<Level>)

  /** What is fixed about a role before planning; an included role is required,
      an excluded one is not planned at all. */
  datatype Inclusion = Included | Excluded | Undecided

  datatype Lock = Lock(role: string, inclusion: Inclusion, identity: Option<Identity>, level: Option<Level>)

  predicate LevelOpen(lock: Lock, level: Level) {
    lock.level == None || lock.level == Some(level)
  }

  predicate Open(catalog: seq<Item>, eligible: set<Identity>, lock: Lock, t: Tuple) {
    && t.identity in eligible
    && (lock.identity == None || lock.identity == Some(t.identity))
    && LevelOpen(lock, t.level)
    && exists item :: item in catalog && item.identity == t.identity && t.level in item.levels
  }

  method OpenLevels(levels: seq<Level>, lock: Lock) returns (kept: seq<Level>)
    ensures forall level :: level in kept <==> level in levels && LevelOpen(lock, level)
  {
    kept := [];
    for i := 0 to |levels|
      invariant forall level :: level in kept <==> level in levels[..i] && LevelOpen(lock, level)
    {
      if lock.level == None || lock.level == Some(levels[i]) { kept := kept + [levels[i]]; }
    }
  }

  /** The candidates of a role offer exactly the tuples its locks leave open. */
  method CompositionRoleFacts(catalog: seq<Item>, eligible: set<Identity>, lock: Lock) returns (facts: RoleFacts)
    ensures facts.role == lock.role && facts.required == lock.inclusion.Included?
    ensures forall t :: Eligible(facts, t) <==> Open(catalog, eligible, lock, t)
    ensures forall c :: c in facts.candidates ==> c.levels != []
  {
    var candidates: seq<Candidate> := [];
    for i := 0 to |catalog|
      invariant forall c :: c in candidates ==> c.levels != []
      invariant forall t :: Eligible(RoleFacts(lock.role, lock.inclusion.Included?, candidates), t) <==> Open(catalog[..i], eligible, lock, t)
    {
      var item := catalog[i];
      ghost var before := RoleFacts(lock.role, lock.inclusion.Included?, candidates);
      assert catalog[..i + 1] == catalog[..i] + [item];
      if item.identity in eligible && (lock.identity == None || lock.identity == Some(item.identity)) {
        var levels := OpenLevels(item.levels, lock);
        if levels != [] {
          candidates := candidates + [Candidate(item.identity, levels)];
        }
        ghost var after := RoleFacts(lock.role, lock.inclusion.Included?, candidates);
        forall t ensures Eligible(after, t) <==> Open(catalog[..i + 1], eligible, lock, t) {
          NextItem(catalog[..i], item, eligible, lock, t);
          NextCandidate(before, after, Candidate(item.identity, levels), t);
        }
      } else {
        forall t ensures Eligible(before, t) <==> Open(catalog[..i + 1], eligible, lock, t) {
          NextItem(catalog[..i], item, eligible, lock, t);
        }
      }
    }
    assert catalog[..|catalog|] == catalog;
    facts := RoleFacts(lock.role, lock.inclusion.Included?, candidates);
  }

  lemma NextItem(catalog: seq<Item>, item: Item, eligible: set<Identity>, lock: Lock, t: Tuple)
    ensures Open(catalog + [item], eligible, lock, t) <==>
            Open(catalog, eligible, lock, t)
            || (t.identity in eligible && (lock.identity == None || lock.identity == Some(t.identity))
                && LevelOpen(lock, t.level) && item.identity == t.identity && t.level in item.levels)
  {
    assert forall x :: x in catalog + [item] <==> x in catalog || x == item;
  }

  lemma NextCandidate(before: RoleFacts, after: RoleFacts, c: Candidate, t: Tuple)
    requires after.candidates == before.candidates + [c] || (c.levels == [] && after.candidates == before.candidates)
    ensures Eligible(after, t) <==> Eligible(before, t) || (c.identity == t.identity && t.level in c.levels)
  {
    if after.candidates == before.candidates + [c] {
      assert forall x :: x in after.candidates <==> x in before.candidates || x == c;
    }
  }

  // ----- run-level feasibility -----

  datatype Feasible = Unavailable | Feasible(single: bool, mixed: bool)

  /** The composition question of a run whose roles have these candidates. */
  function CompositionFeasible(roles: seq<RoleFacts>): Feasible {
    if (exists r :: r in roles && r.candidates == []) || |Required(roles)| < 2 then Unavailable
    else Feasible(SingleFeasible(Required(roles)), MixedFeasible(roles))
  }

  lemma {:induction false} RosterMembers(roles: seq<RoleFacts>)
    ensures forall r :: r in roles <==> r in Required(roles) || r in Optional(roles)
    ensures forall r :: r in Required(roles) ==> r.required
  {
    if roles != [] {
      RosterMembers(roles[1..]);
      assert forall r :: r in roles <==> r == roles[0] || r in roles[1..];
    }
  }

  lemma {:induction false} PickedMembers(roles: seq<RoleFacts>, chosen: seq<bool>)
    requires |chosen| == |roles|
    ensures forall r :: r in Picked(roles, chosen) ==> r in roles
    ensures (forall i :: 0 <= i < |chosen| ==> chosen[i]) ==> Picked(roles, chosen) == roles
    ensures (forall i :: 0 <= i < |chosen| ==> !chosen[i]) ==> Picked(roles, chosen) == []
  {
    if roles != [] {
      PickedMembers(roles[1..], chosen[1..]);
      assert forall r :: r in roles[1..] ==> r in roles;
      assert forall i :: 0 <= i < |chosen| - 1 ==> chosen[1..][i] == chosen[i + 1];
      assert [roles[0]] + roles[1..] == roles;
    }
  }

  lemma RosterBounds(roles: seq<RoleFacts>, selected: seq<RoleFacts>)
    requires Roster(roles, selected)
    ensures forall r :: r in Required(roles) ==> r in selected
    ensures forall r :: r in selected ==> r in roles
    ensures |selected| >= |Required(roles)|
    ensures AllProviders(selected) <= AllProviders(roles)
  {
    var chosen: seq<bool> :| |chosen| == |Optional(roles)| && selected == Required(roles) + Picked(Optional(roles), chosen);
    PickedMembers(Optional(roles), chosen);
    RosterMembers(roles);
  }

  lemma SmallestRoster(roles: seq<RoleFacts>)
    ensures Roster(roles, Required(roles))
  {
    var chosen := seq(|Optional(roles)|, i => false);
    PickedMembers(Optional(roles), chosen);
    assert Required(roles) + [] == Required(roles);
  }

  lemma LargestRoster(roles: seq<RoleFacts>)
    ensures Roster(roles, Required(roles) + Optional(roles))
  {
    var chosen := seq(|Optional(roles)|, i => true);
    PickedMembers(Optional(roles), chosen);
  }

  ghost predicate Achievable(roles: seq<RoleFacts>, selected: seq<RoleFacts>, tuples: seq<Tuple>) {
    Roster(roles, selected) && Assigned(selected, tuples)
  }

  /** A single-provider plan is offered exactly when some roster with some
      eligible assignment uses one provider throughout. */
  lemma SingleExact(roles: seq<RoleFacts>)
    requires CompositionFeasible(roles).Feasible? && ValidRoles(roles)
    ensures CompositionFeasible(roles).single <==>
            exists selected, tuples :: Achievable(roles, selected, tuples) && |UsedProviders(tuples)| == 1
  {
    RosterMembers(roles);
    if SingleFeasible(Required(roles)) {
      var tuples := SingleAchieved(roles);
    }
    if selected: seq<RoleFacts>, tuples: seq<Tuple> :| Achievable(roles, selected, tuples) && |UsedProviders(tuples)| == 1 {
      SingleNeeded(roles, selected, tuples);
    }
  }

  lemma SingleAchieved(roles: seq<RoleFacts>) returns (tuples: seq<Tuple>)
    requires ValidRoles(Required(roles)) && SingleFeasible(Required(roles))
    ensures Achievable(roles, Required(roles), tuples) && |UsedProviders(tuples)| == 1
  {
    var required := Required(roles);
    var p :| p in Providers(required[0]) && forall r :: r in required ==> p in Providers(r);
    tuples := AllFrom(required, p);
    SmallestRoster(roles);
    OneUsed(tuples, p);
  }

  lemma SingleNeeded(roles: seq<RoleFacts>, selected: seq<RoleFacts>, tuples: seq<Tuple>)
    requires Required(roles) != [] && Achievable(roles, selected, tuples) && |UsedProviders(tuples)| == 1
    ensures SingleFeasible(Required(roles))
  {
    RosterBounds(roles, selected);
    OneProviderCommon(selected, tuples);
    var required := Required(roles);
    assert required[0] in required;
    assert tuples[0].identity.provider in Providers(required[0]);
  }

  /** A mixed plan is offered exactly when some roster with some eligible
      assignment uses at least two providers. */
  lemma MixedExact(roles: seq<RoleFacts>)
    requires CompositionFeasible(roles).Feasible? && ValidRoles(roles)
    ensures CompositionFeasible(roles).mixed <==>
            exists selected, tuples :: Achievable(roles, selected, tuples) && |UsedProviders(tuples)| > 1
  {
    RosterMembers(roles);
    var all := Required(roles) + Optional(roles);
    assert forall r :: r in all <==> r in roles;
    assert AllProviders(all) == AllProviders(roles);
    if MixedFeasible(roles) {
      var tuples := MixedFrom(all);
      LargestRoster(roles);
      assert Achievable(roles, all, tuples);
    }
    if selected: seq<RoleFacts>, tuples: seq<Tuple> :| Achievable(roles, selected, tuples) && |UsedProviders(tuples)| > 1 {
      RosterBounds(roles, selected);
      UsedAreOffered(selected, tuples);
      SubsetSize(UsedProviders(tuples), AllProviders(roles));
    }
  }

  /** The offer is never empty, and what a roster makes feasible the run-level
      question offers. */
  lemma NeverEmpty(roles: seq<RoleFacts>)
    requires CompositionFeasible(roles).Feasible? && ValidRoles(roles)
    ensures CompositionFeasible(roles).single || CompositionFeasible(roles).mixed
    ensures forall selected :: Roster(roles, selected) ==>
              && (SingleFeasible(selected) ==> CompositionFeasible(roles).single)
              && (MixedFeasible(selected) ==> CompositionFeasible(roles).mixed)
  {
    var required := Required(roles);
    RosterMembers(roles);
    var p := required[0].candidates[0].identity.provider;
    assert p in Providers(required[0]);
    if !SingleFeasible(required) {
      var r :| r in required && p !in Providers(r);
      var q := r.candidates[0].identity.provider;
      assert q in Providers(r) && r in roles && required[0] in roles;
      assert p in AllProviders(roles) && q in AllProviders(roles);
      TwoMembers(AllProviders(roles), p, q);
    }
    forall selected | Roster(roles, selected)
      ensures SingleFeasible(selected) ==> SingleFeasible(required)
      ensures MixedFeasible(selected) ==> MixedFeasible(roles)
    {
      RosterBounds(roles, selected);
      SubsetSize(AllProviders(selected), AllProviders(roles));
      if SingleFeasible(selected) {
        var common :| common in Providers(selected[0]) && forall r :: r in selected ==> common in Providers(r);
        assert required[0] in required && common in Providers(required[0]);
      }
    }
  }
}
