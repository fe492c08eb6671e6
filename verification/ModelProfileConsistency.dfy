/**
 When mutate_sources keeps the three documents consistent: exactly on the acceptable decisions, which a
 caller can tell from the documents as they stand and the decision alone.
 */
module ModelProfileConsistency {
  import opened Wrappers
  import opened ModelProfiles

  // ------------------------------------------------------------------
  // The condition, on the documents before the call and the decision
  // ------------------------------------------------------------------

  /** The terms that the named profile and its variants end up with, but for statuses. */
  function Terms(profiles: map<Id, Profile>, decision: Decision): Profile
    requires decision.profile in profiles || Targets(decision.intent)
  {
    if Targets(decision.intent) then decision.target else profiles[decision.profile]
  }

  /** A profile that the decision makes inherit. */
  predicate Inheriting(profiles: map<Id, Profile>, decision: Decision, v: Id)
    requires decision.profile in profiles || Targets(decision.intent)
  {
    && v in profiles && v != decision.profile && profiles[v].capability == Some(decision.profile)
    && IsBase(decision.profile, Terms(profiles, decision))
  }

  /** Some profile stays in service under the terms: the named one unless it retires, or a variant. */
  predicate StaysLive(profiles: map<Id, Profile>, decision: Decision)
    requires decision.profile in profiles || Targets(decision.intent)
  {
    !decision.intent.Retire?
    || exists v | v in profiles :: Inheriting(profiles, decision, v) && profiles[v].status != Retired
  }

  predicate FeedsActive(profiles: map<Id, Profile>, decision: Decision)
    requires decision.profile in profiles || Targets(decision.intent)
  {
    exists v | v in profiles :: Inheriting(profiles, decision, v) && profiles[v].status == Active
  }

  /** Every binding has a route of its own provider; a live profile selects none that is retired. */
  predicate Routable(routes: map<string, Route>, p: Profile, live: bool) {
    forall b | b in p.bindings ::
      && p.bindings[b].route in routes
      && routes[p.bindings[b].route].provider == p.bindings[b].provider
      && (live && b in p.selected.Values ==> !routes[p.bindings[b].route].retired)
  }

  /** Callers that some other base profile lists while it is selected but not active. */
  predicate RegisteredElsewhere(profiles: map<Id, Profile>, id: Id, caller: string) {
    exists q | q in profiles ::
      q != id && IsBase(q, profiles[q]) && profiles[q].status == SelectedNotActive && caller in profiles[q].callers
  }

  /** An activation must select an active binding in its environment. */
  predicate BindingActive(decision: Decision) {
    decision.intent.Activate? && decision.environment.Some? ==>
      var p, environment := decision.target, decision.environment.value;
      environment in p.selected && p.selected[environment] in p.bindings ==>
        p.bindings[p.selected[environment]].status == Active
  }

  /** Activating a base must not take a caller that another base merely registers. */
  predicate CallersFree(profiles: map<Id, Profile>, decision: Decision) {
    decision.intent.Activate? && IsBase(decision.profile, decision.target) ==>
      forall c | c in decision.target.callers :: !RegisteredElsewhere(profiles, decision.profile, c)
  }

  /** If the flat selection rests on a rebuilt profile, the terms still select its binding. */
  predicate SelectionKept(d: Documents, decision: Decision)
    requires decision.profile in d.profiles || Targets(decision.intent)
  {
    d.selection.profile == decision.profile || Inheriting(d.profiles, decision, d.selection.profile) ==>
      Selects(Terms(d.profiles, decision), d.selection.environment, d.selection.binding)
  }

  /** The part of the condition that concerns the rebuilt profiles. */
  predicate TermsFit(before: Documents, decision: Decision)
    requires decision.profile in before.profiles || Targets(decision.intent)
  {
    var terms := Terms(before.profiles, decision);
    && Complete(terms)
    && Routable(before.routes, terms, StaysLive(before.profiles, decision))
    && (FeedsActive(before.profiles, decision) ==> !terms.directAccess)
    && BindingActive(decision)
  }

  /** The whole condition. Nothing in it looks at the documents after the call. */
  predicate Acceptable(d: Documents, decision: Decision)
    requires decision.profile in d.profiles || Targets(decision.intent)
  {
    TermsFit(d, decision) && CallersFree(d.profiles, decision) && SelectionKept(d, decision)
  }

  // ------------------------------------------------------------------
  // What the mutation does to the registry, for the rest of the proof
  // ------------------------------------------------------------------

  /** Only the rebuilt profiles change, no other appears, and retirement reaches every binding. */
  predicate Inherited(before: map<Id, Profile>, after: map<Id, Profile>, rebuilt: set<Id>) {
    && rebuilt <= after.Keys == before.Keys + rebuilt
    && (forall id | id in after && id !in rebuilt :: after[id] == before[id])
    && (forall id | id in rebuilt && after[id].status == Retired :: AllRetired(after[id]))
  }

  predicate AllRetired(p: Profile) {
    forall b | b in p.bindings :: p.bindings[b].status == Retired
  }

  lemma RegistryInherits(profiles: map<Id, Profile>, decision: Decision)
    requires HandedOff(decision) && (decision.profile in profiles || Targets(decision.intent))
    ensures Inherited(profiles, Registry(profiles, decision), Affected(Registry(profiles, decision), decision.profile))
  {
    var registry := Registry(profiles, decision);
    forall id | id in Affected(registry, decision.profile) && registry[id].status == Retired
      ensures AllRetired(registry[id])
    {
    }
  }

  // ------------------------------------------------------------------
  // Rebuilt profiles
  // ------------------------------------------------------------------

  /** What is left to ask of a rebuilt profile once the documents are mutated. */
  predicate Fit(d: Documents, id: Id)
    requires id in d.profiles && id in d.activations
  {
    var p, a := d.profiles[id], d.activations[id];
    && Routable(d.routes, p, p.status != Retired)
    && (a.allowed ==> a.binding in p.bindings && p.bindings[a.binding].status == Active)
    && Shaped(p)
  }

  predicate AllFit(d: Documents, rebuilt: set<Id>) {
    forall id | id in rebuilt :: id in d.profiles && id in d.activations && Fit(d, id)
  }

  /** No caller is active and merely registered at once. */
  predicate CallersDisjoint(profiles: map<Id, Profile>) {
    CallersOf(profiles, Active) !! CallersOf(profiles, SelectedNotActive)
  }

  /** A rebuilt profile satisfies its rules exactly when it is fit. */
  lemma RebuiltOk(before: Documents, after: Documents, decision: Decision, rebuilt: set<Id>, id: Id)
    requires rebuilt <= after.profiles.Keys && id in rebuilt && Rebuilt(before, after, decision, rebuilt)
    requires after.profiles[id].status == Retired ==> AllRetired(after.profiles[id])
    ensures Fit(after, id) <==> ProfileOk(after, id)
  {
    assert ActivationRebuilt(before, after, decision, id);
    RebuiltRoutes(before, after, rebuilt, id);
    if after.profiles[id].status == Retired { RetiredIsUngranted(before, after, rebuilt, id); }
  }

  lemma RebuiltRoutes(before: Documents, after: Documents, rebuilt: set<Id>, id: Id)
    requires rebuilt <= after.profiles.Keys && id in rebuilt
    requires PlaneRebuilt(before, after, rebuilt) && RoutesReviewed(after, rebuilt)
    ensures var p := after.profiles[id];
            (forall b | b in p.bindings :: BindingRoutes(after, id, b))
            <==> Routable(after.routes, p, p.status != Retired)
  {
    var p := after.profiles[id];
    forall b | b in p.bindings && p.status != Retired ensures id in after.routes[p.bindings[b].route].profiles {
      assert Bound(p, p.bindings[b].route);
    }
  }

  lemma RetiredIsUngranted(before: Documents, after: Documents, rebuilt: set<Id>, id: Id)
    requires rebuilt <= after.profiles.Keys && id in rebuilt && after.profiles[id].status == Retired
    requires PlaneRebuilt(before, after, rebuilt) && GrantsRebuilt(before, after, rebuilt)
    ensures Ungranted(after, id)
  {
    forall i | 0 <= i < |after.grants| ensures after.grants[i].profile != id {
      assert multiset(after.grants)[after.grants[i]] > 0;
    }
  }

  /** What a decision may not change: the rules of a profile that was not rebuilt still hold. */
  lemma UntouchedOk(before: Documents, after: Documents, decision: Decision, rebuilt: set<Id>, id: Id)
    requires rebuilt <= after.profiles.Keys && Rebuilt(before, after, decision, rebuilt)
    requires id in before.profiles && id in after.profiles && id !in rebuilt
    requires after.profiles[id] == before.profiles[id]
    requires ProfileOk(before, id)
    ensures ProfileOk(after, id)
  {
    forall b | b in after.profiles[id].bindings ensures BindingRoutes(after, id, b) {
      UntouchedBinding(before, after, rebuilt, id, b);
    }
    if after.profiles[id].status == Retired { UntouchedGrants(before, after, rebuilt, id); }
  }

  lemma UntouchedBinding(before: Documents, after: Documents, rebuilt: set<Id>, id: Id, b: string)
    requires rebuilt <= after.profiles.Keys && PlaneRebuilt(before, after, rebuilt)
    requires id in before.profiles && id in after.profiles && id !in rebuilt
    requires after.profiles[id] == before.profiles[id]
    requires b in before.profiles[id].bindings && BindingRoutes(before, id, b)
    ensures BindingRoutes(after, id, b)
  {
    var route := before.profiles[id].bindings[b].route;
    assert after.routes[route].provider == before.routes[route].provider;
    assert id in before.routes[route].profiles ==> id in after.routes[route].profiles - rebuilt;
  }

  lemma UntouchedGrants(before: Documents, after: Documents, rebuilt: set<Id>, id: Id)
    requires rebuilt <= after.profiles.Keys
    requires PlaneRebuilt(before, after, rebuilt) && GrantsRebuilt(before, after, rebuilt)
    requires id !in rebuilt && Ungranted(before, id)
    ensures Ungranted(after, id)
  {
    forall r | r in after.routes ensures id !in after.routes[r].profiles {
      assert after.routes[r].profiles - rebuilt == before.routes[r].profiles - rebuilt;
      assert id in after.routes[r].profiles <==> id in after.routes[r].profiles - rebuilt;
    }
    forall i | 0 <= i < |after.grants| ensures after.grants[i].profile != id {
      var grant := after.grants[i];
      assert multiset(after.grants)[grant] > 0;
      assert grant.profile !in rebuilt ==> grant in before.grants;
    }
  }

  lemma GrantsOk(before: Documents, after: Documents, rebuilt: set<Id>, grant: Grant)
    requires rebuilt <= after.profiles.Keys && GrantsRebuilt(before, after, rebuilt)
    requires forall i | 0 <= i < |before.grants| :: GrantOk(before, before.grants[i])
    requires forall id | id in before.profiles && id !in rebuilt ::
               id in after.profiles && after.profiles[id] == before.profiles[id]
    requires forall id | id in rebuilt :: Shaped(after.profiles[id])
    requires grant in after.grants
    ensures GrantOk(after, grant)
  {
    assert multiset(after.grants)[grant] > 0;
    if grant.profile !in rebuilt {
      var i :| 0 <= i < |before.grants| && before.grants[i] == grant;
      assert GrantOk(before, before.grants[i]);
    }
  }

  // ------------------------------------------------------------------
  // Consistency after the mutation
  // ------------------------------------------------------------------

  /** The rules about single profiles after the mutation. */
  lemma ProfilesOk(before: Documents, after: Documents, decision: Decision, rebuilt: set<Id>)
    requires forall id | id in before.profiles :: ProfileOk(before, id)
    requires Inherited(before.profiles, after.profiles, rebuilt) && Rebuilt(before, after, decision, rebuilt)
    requires AllFit(after, rebuilt)
    ensures forall id | id in after.profiles :: ProfileOk(after, id)
  {
    forall id | id in after.profiles ensures ProfileOk(after, id) {
      if id in rebuilt {
        assert Fit(after, id);
        RebuiltOk(before, after, decision, rebuilt, id);
      } else {
        assert ProfileOk(before, id);
        UntouchedOk(before, after, decision, rebuilt, id);
      }
    }
  }

  lemma AllGrantsOk(before: Documents, after: Documents, rebuilt: set<Id>)
    requires forall i | 0 <= i < |before.grants| :: GrantOk(before, before.grants[i])
    requires Inherited(before.profiles, after.profiles, rebuilt) && GrantsRebuilt(before, after, rebuilt)
    requires forall id | id in rebuilt :: Shaped(after.profiles[id])
    ensures forall i | 0 <= i < |after.grants| :: GrantOk(after, after.grants[i])
  {
    forall i | 0 <= i < |after.grants| ensures GrantOk(after, after.grants[i]) {
      GrantsOk(before, after, rebuilt, after.grants[i]);
    }
  }

  /** Everything but the caller lists and the selection, which the mutation sets or keeps outright. */
  lemma FitKeepsRules(before: Documents, after: Documents, decision: Decision, rebuilt: set<Id>)
    requires forall id | id in before.profiles :: ProfileOk(before, id)
    requires forall i | 0 <= i < |before.grants| :: GrantOk(before, before.grants[i])
    requires before.planeProfiles <= before.profiles.Keys && before.activations.Keys == before.profiles.Keys
    requires Inherited(before.profiles, after.profiles, rebuilt) && Rebuilt(before, after, decision, rebuilt)
    requires AllFit(after, rebuilt)
    ensures forall id | id in after.profiles :: ProfileOk(after, id)
    ensures forall i | 0 <= i < |after.grants| :: GrantOk(after, after.grants[i])
    ensures after.planeProfiles <= after.profiles.Keys && after.activations.Keys == after.profiles.Keys
  {
    ProfilesOk(before, after, decision, rebuilt);
    forall id | id in rebuilt ensures Shaped(after.profiles[id]) { assert Fit(after, id); }
    AllGrantsOk(before, after, rebuilt);
  }

  lemma FitKeepsConsistency(before: Documents, after: Documents, decision: Decision, rebuilt: set<Id>)
    requires Consistent(before) && HandedOff(decision) && Mutated(before, after, decision)
    requires rebuilt == Affected(after.profiles, decision.profile)
    requires AllFit(after, rebuilt) && CallersDisjoint(after.profiles) && SelectionOk(after)
    ensures Consistent(after)
  {
    RegistryInherits(before.profiles, decision);
    FitKeepsRules(before, after, decision, rebuilt);
  }

  lemma ConsistencyNeedsFit(before: Documents, after: Documents, decision: Decision, rebuilt: set<Id>)
    requires HandedOff(decision) && Mutated(before, after, decision) && Consistent(after)
    requires rebuilt == Affected(after.profiles, decision.profile)
    ensures AllFit(after, rebuilt) && CallersDisjoint(after.profiles) && SelectionOk(after)
  {
    RegistryInherits(before.profiles, decision);
    forall id | id in rebuilt ensures Fit(after, id) {
      assert ProfileOk(after, id);
      RebuiltOk(before, after, decision, rebuilt, id);
    }
  }

  // ------------------------------------------------------------------
  // The same, seen from before the call
  // ------------------------------------------------------------------

  lemma NamedTerms(profiles: map<Id, Profile>, decision: Decision)
    requires decision.profile in profiles || Targets(decision.intent)
    ensures var p := Registry(profiles, decision)[decision.profile];
            SameTerms(p, Terms(profiles, decision)) && p == Decided(profiles, decision)
  {
  }

  lemma VariantTerms(profiles: map<Id, Profile>, decision: Decision, v: Id)
    requires decision.profile in profiles || Targets(decision.intent)
    requires v in Variants(Registry(profiles, decision), decision.profile)
    ensures var p := Registry(profiles, decision)[v];
            && SameTerms(p, Terms(profiles, decision))
            && Inheriting(profiles, decision, v) && p.status == profiles[v].status
            && (p.status == Active ==> AllActive(p))
  {
    NamedTerms(profiles, decision);
    VariantIsInherited(profiles, decision, v);
  }

  predicate AllActive(p: Profile) {
    forall b | b in p.bindings :: p.bindings[b].status == Active
  }

  /** Every rebuilt profile has the terms; the named one its decided status, a variant its own. */
  lemma RebuiltTerms(profiles: map<Id, Profile>, decision: Decision, id: Id)
    requires decision.profile in profiles || Targets(decision.intent)
    requires id in Affected(Registry(profiles, decision), decision.profile)
    ensures var p := Registry(profiles, decision)[id];
            && SameTerms(p, Terms(profiles, decision))
            && (if id == decision.profile
                then p == Decided(profiles, decision)
                else Inheriting(profiles, decision, id) && p.status == profiles[id].status
                     && (p.status == Active ==> AllActive(p)))
  {
    if id == decision.profile { NamedTerms(profiles, decision); } else { VariantTerms(profiles, decision, id); }
  }

  /** And those are the named profile and the inheriting ones. */
  lemma WhoIsRebuilt(profiles: map<Id, Profile>, decision: Decision)
    requires decision.profile in profiles || Targets(decision.intent)
    ensures forall id ::
              id in Affected(Registry(profiles, decision), decision.profile) <==>
                id == decision.profile || Inheriting(profiles, decision, id)
  {
  }

  lemma RoutableTerms(before: Documents, after: Documents, p: Profile, terms: Profile, live: bool)
    requires RoutesKept(before, after) && SameTerms(p, terms)
    ensures Routable(after.routes, p, live) <==> Routable(before.routes, terms, live)
  {
    forall b | b in p.bindings
      ensures p.bindings[b].route == terms.bindings[b].route && p.bindings[b].provider == terms.bindings[b].provider
    {
    }
  }

  /** Fitness of one rebuilt profile in terms of what stood before. */
  lemma FitFromTerms(before: Documents, after: Documents, decision: Decision, rebuilt: set<Id>, id: Id)
    requires HandedOff(decision) && Mutated(before, after, decision)
    requires rebuilt == Affected(after.profiles, decision.profile) && id in rebuilt
    ensures var terms, p := Terms(before.profiles, decision), after.profiles[id];
            Fit(after, id) <==>
              && Complete(terms) && Routable(before.routes, terms, p.status != Retired)
              && (p.status == Active ==> !terms.directAccess)
              && (id == decision.profile ==> BindingActive(decision))
  {
    var terms, p := Terms(before.profiles, decision), after.profiles[id];
    RebuiltTerms(before.profiles, decision, id);
    RoutableTerms(before, after, p, terms, p.status != Retired);
    assert ActivationRebuilt(before, after, decision, id);
    if Complete(terms) { ActivationFits(before, after, decision, id); }
  }

  lemma ActivationFits(before: Documents, after: Documents, decision: Decision, id: Id)
    requires HandedOff(decision)
    requires decision.profile in before.profiles || Targets(decision.intent)
    requires id in after.profiles && id in after.activations && ActivationRebuilt(before, after, decision, id)
    requires SameTerms(after.profiles[id], Terms(before.profiles, decision))
    requires if id == decision.profile then after.profiles[id] == Decided(before.profiles, decision)
             else after.profiles[id].status == Active ==> AllActive(after.profiles[id])
    requires Complete(after.profiles[id])
    ensures var p, a := after.profiles[id], after.activations[id];
            (a.allowed ==> a.binding in p.bindings && p.bindings[a.binding].status == Active)
            <==> (id == decision.profile ==> BindingActive(decision))
  {
    var p, a := after.profiles[id], after.activations[id];
    assert a.binding in p.selected.Values;
  }

  /** All rebuilt profiles are fit if the terms are, for what stays live and what is fed. */
  lemma TermsMakeFit(before: Documents, after: Documents, decision: Decision, rebuilt: set<Id>)
    requires HandedOff(decision) && Mutated(before, after, decision)
    requires rebuilt == Affected(after.profiles, decision.profile)
    requires TermsFit(before, decision)
    ensures AllFit(after, rebuilt)
  {
    LiveAfter(before.profiles, decision);
    forall id | id in rebuilt ensures id in after.activations && Fit(after, id) {
      FitFromTerms(before, after, decision, rebuilt, id);
    }
  }

  lemma FitMakesTerms(before: Documents, after: Documents, decision: Decision, rebuilt: set<Id>)
    requires HandedOff(decision) && Mutated(before, after, decision)
    requires rebuilt == Affected(after.profiles, decision.profile)
    requires AllFit(after, rebuilt)
    ensures TermsFit(before, decision)
  {
    LiveAfter(before.profiles, decision);
    FitFromTerms(before, after, decision, rebuilt, decision.profile);
    if StaysLive(before.profiles, decision) {
      var id :| id in rebuilt && after.profiles[id].status != Retired;
      FitFromTerms(before, after, decision, rebuilt, id);
    }
    if FeedsActive(before.profiles, decision) {
      var id :| id in rebuilt && id != decision.profile && after.profiles[id].status == Active;
      FitFromTerms(before, after, decision, rebuilt, id);
    }
  }

  /** Who is live, and who is active and fed, after the decision. */
  lemma LiveAfter(profiles: map<Id, Profile>, decision: Decision)
    requires HandedOff(decision) && (decision.profile in profiles || Targets(decision.intent))
    ensures var registry := Registry(profiles, decision);
            var rebuilt := Affected(registry, decision.profile);
            && (StaysLive(profiles, decision) <==> exists id | id in rebuilt :: registry[id].status != Retired)
            && (registry[decision.profile].status == Active <==> decision.intent.Activate?)
            && (FeedsActive(profiles, decision) <==>
                  exists id | id in rebuilt :: id != decision.profile && registry[id].status == Active)
  {
    var registry := Registry(profiles, decision);
    var rebuilt := Affected(registry, decision.profile);
    WhoIsRebuilt(profiles, decision);
    forall id | id in rebuilt
      ensures registry[id].status ==
                if id == decision.profile then Decided(profiles, decision).status else profiles[id].status
    {
      RebuiltTerms(profiles, decision, id);
    }
    assert decision.profile in rebuilt;
  }

  /** Another base is a base before and after, and the same one. */
  lemma OtherBases(profiles: map<Id, Profile>, decision: Decision, q: Id)
    requires HandedOff(decision) && (decision.profile in profiles || Targets(decision.intent))
    requires q != decision.profile
    ensures var registry := Registry(profiles, decision);
            q in registry && IsBase(q, registry[q]) <==> q in profiles && IsBase(q, profiles[q])
    ensures var registry := Registry(profiles, decision);
            q in registry && IsBase(q, registry[q]) ==> registry[q] == profiles[q]
  {
  }

  lemma CallersFromTerms(profiles: map<Id, Profile>, decision: Decision)
    requires HandedOff(decision) && (decision.profile in profiles || Targets(decision.intent))
    requires CallersDisjoint(profiles)
    ensures CallersDisjoint(Registry(profiles, decision)) <==> CallersFree(profiles, decision)
  {
    var registry, id := Registry(profiles, decision), decision.profile;
    NamedTerms(profiles, decision);
    if CallersFree(profiles, decision) {
      forall c | c in CallersOf(registry, Active) ensures c !in CallersOf(registry, SelectedNotActive) {
        ActiveCallerIsNew(profiles, decision, c);
      }
    } else {
      var c :| c in decision.target.callers && RegisteredElsewhere(profiles, id, c);
      var q :| q in profiles && q != id && IsBase(q, profiles[q]) && profiles[q].status == SelectedNotActive
               && c in profiles[q].callers;
      OtherBases(profiles, decision, q);
      assert c in CallersOf(registry, Active) && c in CallersOf(registry, SelectedNotActive);
    }
  }

  lemma ActiveCallerIsNew(profiles: map<Id, Profile>, decision: Decision, c: string)
    requires HandedOff(decision) && (decision.profile in profiles || Targets(decision.intent))
    requires CallersDisjoint(profiles) && CallersFree(profiles, decision)
    requires c in CallersOf(Registry(profiles, decision), Active)
    ensures c !in CallersOf(Registry(profiles, decision), SelectedNotActive)
  {
    var registry, id := Registry(profiles, decision), decision.profile;
    NamedTerms(profiles, decision);
    var a :| a in registry && IsBase(a, registry[a]) && registry[a].status == Active && c in registry[a].callers;
    if a != id { OtherBases(profiles, decision, a); }
    forall q | q in registry && IsBase(q, registry[q]) && registry[q].status == SelectedNotActive
      ensures c !in registry[q].callers
    {
      OtherBases(profiles, decision, q);
      if a == id {
        assert c in registry[q].callers ==> RegisteredElsewhere(profiles, id, c);
      } else {
        assert c in CallersOf(profiles, Active) && c !in CallersOf(profiles, SelectedNotActive);
      }
    }
  }

  lemma SelectionFromTerms(before: Documents, after: Documents, decision: Decision)
    requires SelectionOk(before) && (decision.profile in before.profiles || Targets(decision.intent))
    requires after.profiles == Registry(before.profiles, decision) && after.selection == before.selection
    ensures SelectionOk(after) <==> SelectionKept(before, decision)
  {
    var id := before.selection.profile;
    WhoIsRebuilt(before.profiles, decision);
    if id in Affected(after.profiles, decision.profile) { RebuiltTerms(before.profiles, decision, id); }
  }

  // ------------------------------------------------------------------
  // The main result
  // ------------------------------------------------------------------

  /** For all six intents: a successful mutation of consistent documents leaves them consistent exactly
      when the decision was acceptable for the documents it was made on. */
  lemma MutationIsConsistent(before: Documents, after: Documents, decision: Decision)
    requires Consistent(before) && HandedOff(decision) && Mutated(before, after, decision)
    ensures Consistent(after) <==> Acceptable(before, decision)
  {
    var rebuilt := Affected(after.profiles, decision.profile);
    CallersFromTerms(before.profiles, decision);
    SelectionFromTerms(before, after, decision);
    if Consistent(after) {
      ConsistencyNeedsFit(before, after, decision, rebuilt);
      FitMakesTerms(before, after, decision, rebuilt);
    }
    if Acceptable(before, decision) {
      TermsMakeFit(before, after, decision, rebuilt);
      FitKeepsConsistency(before, after, decision, rebuilt);
    }
  }

  /** Some selected binding of the profile goes over a retired route. */
  predicate SelectsRetired(routes: map<string, Route>, p: Profile) {
    exists b | b in p.bindings && b in p.selected.Values ::
      p.bindings[b].route in routes && routes[p.bindings[b].route].retired
  }

  /** What suspending or retiring a profile needs: a retired one that something still lives by must not
      select a retired route; an active variant must not inherit direct access; and the flat selection
      must not rest on a variant that selects otherwise than its base. */
  predicate Withdrawable(d: Documents, decision: Decision)
    requires decision.profile in d.profiles
  {
    var p := d.profiles[decision.profile];
    && (p.status == Retired && StaysLive(d.profiles, decision) ==> !SelectsRetired(d.routes, p))
    && (FeedsActive(d.profiles, decision) ==> !p.directAccess)
    && (Inheriting(d.profiles, decision, d.selection.profile) ==>
          Selects(p, d.selection.environment, d.selection.binding))
  }

  /** A suspension or retirement keeps consistency exactly when the profile is withdrawable. */
  lemma WithdrawalIsConsistent(before: Documents, after: Documents, decision: Decision)
    requires Consistent(before) && HandedOff(decision) && Mutated(before, after, decision)
    requires decision.intent.Suspend? || decision.intent.Retire?
    ensures Consistent(after) <==> Withdrawable(before, decision)
  {
    MutationIsConsistent(before, after, decision);
    WithdrawalAccepts(before, decision);
  }

  lemma WithdrawalAccepts(d: Documents, decision: Decision)
    requires decision.intent.Suspend? || decision.intent.Retire?
    requires decision.profile in d.profiles && ProfileOk(d, decision.profile) && SelectionOk(d)
    ensures Acceptable(d, decision) <==> Withdrawable(d, decision)
  {
    var p, live := d.profiles[decision.profile], StaysLive(d.profiles, decision);
    forall b | b in p.bindings
      ensures p.bindings[b].route in d.routes && d.routes[p.bindings[b].route].provider == p.bindings[b].provider
      ensures p.status != Retired && b in p.selected.Values ==> !d.routes[p.bindings[b].route].retired
    {
      assert BindingRoutes(d, decision.profile, b);
    }
    assert Routable(d.routes, p, live) <==> !live || !SelectsRetired(d.routes, p);
  }

  /** In particular a profile that is in service and that nothing inherits from can always be withdrawn. */
  lemma PlainWithdrawalIsConsistent(before: Documents, after: Documents, decision: Decision)
    requires Consistent(before) && HandedOff(decision) && Mutated(before, after, decision)
    requires decision.intent.Suspend? || decision.intent.Retire?
    requires before.profiles[decision.profile].status != Retired
    requires forall v | v in before.profiles :: !Inheriting(before.profiles, decision, v)
    ensures Consistent(after)
  {
    WithdrawalIsConsistent(before, after, decision);
  }
}
