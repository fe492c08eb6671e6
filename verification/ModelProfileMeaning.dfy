/**
 What a mutation means document by document and field by field, and what consistency asks, rule by rule:
 the statements read fields only, and name none of the functions that the mutation is specified with.
 */
module ModelProfileMeaning {
  import opened Wrappers
  import opened ModelProfiles
  import opened ModelProfileMutation

  // ------------------------------------------------------------------
  // The registry
  // ------------------------------------------------------------------

  /** A variant of the named profile's capability, while the named profile is the capability's base. */
  predicate Heir(profiles: map<Id, Profile>, named: Id, v: Id)
    requires named in profiles
  {
    && v in profiles && v != named && profiles[v].capability == Some(named)
    && (profiles[named].capability == None || profiles[named].capability == Some(named))
  }

  /** The same binding in another status. */
  predicate SameBut(now: Binding, was: Binding, status: Status) {
    now.status == status && now.route == was.route && now.provider == was.provider && now.model == was.model
  }

  /** The named profile becomes the decision's target, or keeps every field but its status and those of its
      bindings; a suspension leaves retired bindings retired. */
  lemma NamedMeans(before: Documents, after: Documents, decision: Decision)
    requires Mutated(before, after, decision)
    ensures decision.profile in after.profiles
    ensures decision.intent in {Create, Amend, Activate, Except} ==>
              after.profiles[decision.profile] == decision.target
    ensures decision.intent in {Suspend, Retire} ==>
              && decision.profile in before.profiles
              && var now, was := after.profiles[decision.profile], before.profiles[decision.profile];
                 && now == was.(status := now.status, bindings := now.bindings)
                 && now.status == (if decision.intent == Suspend then Status.Suspended else Retired)
                 && now.bindings.Keys == was.bindings.Keys
                 && forall b | b in was.bindings ::
                      SameBut(now.bindings[b], was.bindings[b],
                              if decision.intent == Suspend && was.bindings[b].status != Retired
                              then SelectedNotActive else Retired)
  {
    NamedIsDecided(before, after, decision);
  }

  lemma NamedIsDecided(before: Documents, after: Documents, decision: Decision)
    requires Mutated(before, after, decision)
    ensures decision.profile in after.profiles && (decision.profile in before.profiles || Targets(decision.intent))
    ensures after.profiles[decision.profile] == Decided(before.profiles, decision)
  {
  }

  /** An heir keeps capability, status and whatever the capability does not define; the other fields are the
      named profile's, and the statuses of its bindings follow its own. */
  lemma HeirMeans(before: Documents, after: Documents, decision: Decision, v: Id)
    requires Mutated(before, after, decision) && Heir(after.profiles, decision.profile, v)
    ensures v in before.profiles
    ensures var now, was, base := after.profiles[v], before.profiles[v], after.profiles[decision.profile];
            && now.capability == was.capability && now.status == was.status && now.remainder == was.remainder
            && now.purpose == base.purpose && now.callers == base.callers && now.tasks == base.tasks
            && now.selected == base.selected && now.outputRef == base.outputRef && now.recordRef == base.recordRef
            && now.invocationPath == base.invocationPath && now.humanApproval == base.humanApproval
            && now.directAccess == base.directAccess && now.bindings.Keys == base.bindings.Keys
            && forall b | b in base.bindings ::
                 SameBut(now.bindings[b], base.bindings[b],
                         if was.status in {Active, Retired} then was.status else SelectedNotActive)
  {
  }

  /** No profile disappears, only the named one may appear, and one that is neither named nor an heir is
      untouched. */
  lemma OthersMean(before: Documents, after: Documents, decision: Decision)
    requires Mutated(before, after, decision)
    ensures after.profiles.Keys == before.profiles.Keys + {decision.profile}
    ensures forall id | id in after.profiles && id != decision.profile && !Heir(after.profiles, decision.profile, id) ::
              after.profiles[id] == before.profiles[id]
  {
  }

  // ------------------------------------------------------------------
  // The access plane
  // ------------------------------------------------------------------

  /** The named profile and its heirs are rebuilt. */
  predicate IsRebuilt(profiles: map<Id, Profile>, named: Id, id: Id)
    requires named in profiles
  {
    id == named || Heir(profiles, named, id)
  }

  lemma RebuiltMeans(profiles: map<Id, Profile>, named: Id, id: Id)
    requires named in profiles
    ensures id in Affected(profiles, named) <==> IsRebuilt(profiles, named, id)
  {
  }

  /** A rebuilt profile is allowed in the plane unless it is retired; the others are allowed as before. */
  lemma PlaneMeans(before: Documents, after: Documents, decision: Decision, id: Id)
    requires Mutated(before, after, decision)
    ensures id in after.planeProfiles <==>
              if IsRebuilt(after.profiles, decision.profile, id) then after.profiles[id].status != Retired
              else id in before.planeProfiles
  {
    RebuiltMeans(after.profiles, decision.profile, id);
  }

  /** Routes keep provider, models and retirement. A rebuilt profile is allowed on the routes that one of its
      bindings names, unless it is retired; the others are allowed where they were. */
  lemma RoutesMean(before: Documents, after: Documents, decision: Decision, r: string, id: Id)
    requires Mutated(before, after, decision)
    ensures after.routes.Keys == before.routes.Keys
    ensures r in after.routes ==>
              && after.routes[r].provider == before.routes[r].provider
              && after.routes[r].models == before.routes[r].models
              && after.routes[r].retired == before.routes[r].retired
    ensures r in after.routes ==>
              (id in after.routes[r].profiles <==>
                 if IsRebuilt(after.profiles, decision.profile, id)
                 then after.profiles[id].status != Retired
                      && exists b | b in after.profiles[id].bindings :: after.profiles[id].bindings[b].route == r
                 else id in before.routes[r].profiles)
  {
    RebuiltMeans(after.profiles, decision.profile, id);
    if r in after.routes {
      var rebuilt := Affected(after.profiles, decision.profile);
      assert after.routes[r] == before.routes[r].(profiles := after.routes[r].profiles);
      assert id in after.routes[r].profiles - rebuilt <==> id in before.routes[r].profiles - rebuilt;
      assert id in rebuilt ==>
               (id in after.routes[r].profiles <==>
                  after.profiles[id].status != Retired && Bound(after.profiles[id], r));
    }
  }

  /** Every binding of a rebuilt profile in service names a route that lists its model. */
  lemma BindingsAreReviewed(before: Documents, after: Documents, decision: Decision, id: Id, b: string)
    requires Mutated(before, after, decision)
    requires IsRebuilt(after.profiles, decision.profile, id) && after.profiles[id].status != Retired
    requires b in after.profiles[id].bindings
    ensures var binding := after.profiles[id].bindings[b];
            binding.route in after.routes && binding.model in after.routes[binding.route].models
  {
    RebuiltMeans(after.profiles, decision.profile, id);
  }

  /** A profile that grants its callers access: in service, and the base of its capability. */
  predicate Grants(p: Profile, id: Id) {
    p.status != Retired && (p.capability == None || p.capability == Some(id))
  }

  /** Every grant of a rebuilt profile carries that profile's purpose, tasks and schema references, each under
      its own name, for a caller that the profile lists. */
  lemma GrantMeans(before: Documents, after: Documents, decision: Decision, grant: Grant)
    requires Mutated(before, after, decision) && grant in after.grants
    requires IsRebuilt(after.profiles, decision.profile, grant.profile)
    ensures var p := after.profiles[grant.profile];
            && Grants(p, grant.profile) && grant.callerId in p.callers
            && grant.purpose == p.purpose && grant.tasks == p.tasks
            && grant.outputRef == p.outputRef && grant.recordRef == p.recordRef
  {
    RebuiltMeans(after.profiles, decision.profile, grant.profile);
    assert multiset(after.grants)[grant] > 0;
  }

  /** Every caller that a rebuilt granting profile lists has such a grant, as often as it is listed. */
  lemma CallersAreGranted(before: Documents, after: Documents, decision: Decision, id: Id, caller: string)
    requires Mutated(before, after, decision) && IsRebuilt(after.profiles, decision.profile, id)
    requires Grants(after.profiles[id], id) && caller in after.profiles[id].callers
    ensures var p := after.profiles[id];
            exists grant | grant in after.grants ::
              && grant.profile == id && grant.callerId == caller && grant.purpose == p.purpose
              && grant.tasks == p.tasks && grant.outputRef == p.outputRef && grant.recordRef == p.recordRef
              && multiset(after.grants)[grant] == multiset(p.callers)[caller]
  {
    RebuiltMeans(after.profiles, decision.profile, id);
    var p := after.profiles[id];
    var grant := Grant(caller, p.purpose, id, p.tasks, p.outputRef, p.recordRef);
    assert multiset(after.grants)[grant] == multiset(p.callers)[caller] > 0;
  }

  /** The grants of the other profiles stay, each as often as before. */
  lemma OtherGrantsStay(before: Documents, after: Documents, decision: Decision, grant: Grant)
    requires Mutated(before, after, decision) && !IsRebuilt(after.profiles, decision.profile, grant.profile)
    ensures multiset(after.grants)[grant] == multiset(before.grants)[grant]
  {
    RebuiltMeans(after.profiles, decision.profile, grant.profile);
  }

  /** The named profile's activation: allowed exactly when it is active, for the decision's environment or else
      the first that the profile selects a binding in. */
  lemma NamedActivationMeans(before: Documents, after: Documents, decision: Decision)
    requires Mutated(before, after, decision)
    ensures var id := decision.profile;
            && id in after.activations
            && var p, a := after.profiles[id], after.activations[id];
               && a.environment in p.selected && a.binding == p.selected[a.environment]
               && (decision.environment.Some? ==> a.environment == decision.environment.value)
               && (a.allowed <==> p.status == Active)
               && a.reason == ReasonFor(before.activations, decision, id, p.status)
  {
    assert ActivationRebuilt(before, after, decision, decision.profile);
  }

  /** The reason tells an activation from any other decision, by the decision's id. */
  lemma ReasonMeans(activations: map<Id, Activation>, decision: Decision, status: Status)
    ensures var reason := ReasonFor(activations, decision, decision.profile, status);
            && (status == Active ==> reason == "security-reviewed-lifecycle-decision:" + decision.id)
            && (status == Status.Suspended ==> reason == "lifecycle-suspended:" + decision.id)
            && (status == Retired ==> reason == "lifecycle-retired:" + decision.id)
            && (status == Exception ==> reason == "lifecycle-exception:" + decision.id)
            && (status == SelectedNotActive ==> reason == "lifecycle-selected-not-active:" + decision.id)
  {
    assert "lifecycle-" + "suspended" + ":" == "lifecycle-suspended:";
    assert "lifecycle-" + "retired" + ":" == "lifecycle-retired:";
    assert "lifecycle-" + "exception" + ":" == "lifecycle-exception:";
    assert "lifecycle-" + "selected-not-active" + ":" == "lifecycle-selected-not-active:";
  }

  /** An heir's activation: allowed exactly if it was and the heir is active, in the first environment. */
  lemma HeirActivationMeans(before: Documents, after: Documents, decision: Decision, v: Id)
    requires Mutated(before, after, decision) && Heir(after.profiles, decision.profile, v)
    ensures v in after.activations
    ensures var p, a := after.profiles[v], after.activations[v];
            && a.environment in p.selected && a.binding == p.selected[a.environment]
            && (a.allowed <==> p.status == Active && v in before.activations && before.activations[v].allowed)
            && a.reason == if v in before.activations then before.activations[v].reason
                           else "inherited-capability-contract:" + decision.id
  {
    RebuiltMeans(after.profiles, decision.profile, v);
    assert ActivationRebuilt(before, after, decision, v);
  }

  /** Where the environment is chosen, none that the profile selects in comes earlier in the alphabet: at the
      first difference the chosen one has the smaller character, or it is a prefix. */
  lemma FirstEnvironment(before: Documents, after: Documents, decision: Decision, id: Id, e: string)
    requires Mutated(before, after, decision) && IsRebuilt(after.profiles, decision.profile, id)
    requires (id != decision.profile || decision.environment == None) && e in after.profiles[id].selected
    ensures id in after.activations
    ensures var first := after.activations[id].environment;
            first <= e || exists n: nat | n < |first| && n < |e| :: first[..n] == e[..n] && first[n] < e[n]
  {
    RebuiltMeans(after.profiles, decision.profile, id);
    assert ActivationRebuilt(before, after, decision, id);
    PrecedesMeans(after.activations[id].environment, e);
  }

  lemma {:induction false} PrecedesMeans(a: string, b: string)
    requires Precedes(a, b)
    ensures a <= b || exists n: nat | n < |a| && n < |b| :: a[..n] == b[..n] && a[n] < b[n]
  {
    if a != [] {
      if a[0] < b[0] {
        assert a[..0] == b[..0];
      } else {
        PrecedesMeans(a[1..], b[1..]);
        if !(a[1..] <= b[1..]) {
          var n: nat :| n < |a| - 1 && n < |b| - 1 && a[1..][..n] == b[1..][..n] && a[1..][n] < b[1..][n];
          assert a[..n + 1] == [a[0]] + a[1..][..n] && b[..n + 1] == [b[0]] + b[1..][..n];
        }
      }
    }
  }

  /** The remaining entries stay, as does the flat selection. */
  lemma OtherActivationsStay(before: Documents, after: Documents, decision: Decision, id: Id)
    requires Mutated(before, after, decision) && !IsRebuilt(after.profiles, decision.profile, id)
    ensures after.selection == before.selection
    ensures id in after.activations <==> id in before.activations
    ensures id in before.activations ==> after.activations[id] == before.activations[id]
  {
    RebuiltMeans(after.profiles, decision.profile, id);
  }

  // ------------------------------------------------------------------
  // The runtime-assist contract
  // ------------------------------------------------------------------

  /** The contract names every profile; its consumers are the callers that a base lists while it is active, and
      registered those that one lists while it is selected but not active. */
  lemma ContractMeans(before: Documents, after: Documents, decision: Decision, caller: string)
    requires Mutated(before, after, decision)
    ensures after.contractProfiles == after.profiles.Keys
    ensures caller in after.activeCallers <==>
              exists id | id in after.profiles ::
                var p := after.profiles[id];
                p.status == Active && (p.capability == None || p.capability == Some(id)) && caller in p.callers
    ensures caller in after.registeredCallers <==>
              exists id | id in after.profiles ::
                var p := after.profiles[id];
                p.status == SelectedNotActive && (p.capability == None || p.capability == Some(id))
                && caller in p.callers
  {
  }

  // ------------------------------------------------------------------
  // Refusals
  // ------------------------------------------------------------------

  /** A decision is not carried out exactly when: a profile to create exists, or another does not exist; heirs
      would have to copy a reference that the named profile lacks; a binding of a rebuilt profile in service
      names no route, or a model that its route does not list; or no environment can be chosen. */
  lemma RefusedMeans(d: Documents, decision: Decision)
    requires decision.profile in d.profiles || Targets(decision.intent)
    ensures var registry := Registry(d.profiles, decision);
            var named := registry[decision.profile];
            !Mutable(d, decision) <==>
              || (decision.intent == Create && decision.profile in d.profiles)
              || (decision.intent != Create && decision.profile !in d.profiles)
              || ((exists v | v in registry :: Heir(registry, decision.profile, v))
                  && (named.outputRef == None || named.recordRef == None))
              || (exists id | id in registry ::
                    IsRebuilt(registry, decision.profile, id) && BindsUnreviewed(registry[id], d.routes))
              || (decision.environment.Some? && decision.environment.value !in named.selected)
              || (decision.environment == None && named.selected == map[])
              || (exists v | v in registry :: Heir(registry, decision.profile, v) && registry[v].selected == map[])
  {
    var registry := Registry(d.profiles, decision);
    InheritanceMeans(d, decision);
    forall id | id in Affected(registry, decision.profile)
      ensures IsRebuilt(registry, decision.profile, id)
      ensures Reviewed(registry[id], d.routes) <==> !BindsUnreviewed(registry[id], d.routes)
    {
      RebuiltMeans(registry, decision.profile, id);
    }
    forall id | id in registry && IsRebuilt(registry, decision.profile, id)
      ensures id in Affected(registry, decision.profile)
    {
      RebuiltMeans(registry, decision.profile, id);
    }
    assert IsRebuilt(registry, decision.profile, decision.profile);
    forall v | v in registry && Heir(registry, decision.profile, v)
      ensures IsRebuilt(registry, decision.profile, v)
    {
    }
  }

  /** In service, with a binding to no route or to a route that does not list its model. */
  predicate BindsUnreviewed(p: Profile, routes: map<string, Route>) {
    p.status != Retired
    && exists b | b in p.bindings ::
         p.bindings[b].route !in routes || p.bindings[b].model !in routes[p.bindings[b].route].models
  }

  lemma InheritanceMeans(d: Documents, decision: Decision)
    requires decision.profile in d.profiles || Targets(decision.intent)
    ensures var registry := Registry(d.profiles, decision);
            var named := registry[decision.profile];
            CanInherit(d.profiles[decision.profile := Decided(d.profiles, decision)], decision.profile) <==>
              (forall v | v in registry :: !Heir(registry, decision.profile, v))
              || (named.outputRef.Some? && named.recordRef.Some?)
  {
    var decided := d.profiles[decision.profile := Decided(d.profiles, decision)];
    var registry := Registry(d.profiles, decision);
    forall v ensures v in Variants(decided, decision.profile) <==> Heir(registry, decision.profile, v) {}
  }

  // ------------------------------------------------------------------
  // The validator's rules
  // ------------------------------------------------------------------

  /** The registry by itself. */
  predicate RegistryRules(d: Documents) {
    forall id | id in d.profiles ::
      var p := d.profiles[id];
      && p.callers != [] && p.tasks != {} && p.selected != map[]
      && (forall e | e in p.selected :: p.selected[e] in p.bindings)
      && (p.status == Active ==> !p.directAccess)
      && (p.status == Retired ==> forall b | b in p.bindings :: p.bindings[b].status == Retired)
  }

  /** Registry bindings against the plane's routes. */
  predicate RouteRules(d: Documents) {
    forall id, b | id in d.profiles && b in d.profiles[id].bindings ::
      var p, binding := d.profiles[id], d.profiles[id].bindings[b];
      && binding.route in d.routes
      && d.routes[binding.route].provider == binding.provider
      && (p.status != Retired ==>
            id in d.routes[binding.route].profiles && binding.model in d.routes[binding.route].models)
      && (p.status != Retired && d.routes[binding.route].retired ==>
            forall e | e in p.selected :: p.selected[e] != b)
  }

  /** Who is allowed in the plane, on its routes, and among its callers. */
  ghost predicate AccessRules(d: Documents) {
    && (forall id :: id in d.planeProfiles <==> id in d.profiles && d.profiles[id].status != Retired)
    && (forall r, id | r in d.routes && id in d.routes[r].profiles && id in d.profiles ::
          d.profiles[id].status != Retired)
    && (forall grant | grant in d.grants ::
          && grant.profile in d.profiles && d.profiles[grant.profile].status != Retired
          && grant.tasks == d.profiles[grant.profile].tasks)
  }

  predicate ActivationRules(d: Documents) {
    && d.activations.Keys == d.profiles.Keys
    && (forall id | id in d.activations ::
          var p, a := d.profiles[id], d.activations[id];
          && a.environment in p.selected && a.binding == p.selected[a.environment]
          && (a.allowed ==>
                p.status == Active && a.binding in p.bindings && p.bindings[a.binding].status == Active))
    && d.selection.profile in d.profiles
    && d.selection.environment in d.profiles[d.selection.profile].selected
    && d.selection.binding == d.profiles[d.selection.profile].selected[d.selection.environment]
  }

  ghost predicate ContractRules(d: Documents) {
    && (forall id | id in d.contractProfiles :: id in d.profiles)
    && (forall c :: c in d.activeCallers <==>
          exists id | id in d.profiles ::
            var p := d.profiles[id];
            p.status == Active && (p.capability == None || p.capability == Some(id)) && c in p.callers)
    && (forall c :: c in d.registeredCallers <==>
          exists id | id in d.profiles ::
            var p := d.profiles[id];
            p.status == SelectedNotActive && (p.capability == None || p.capability == Some(id)) && c in p.callers)
    && (forall c | c in d.activeCallers :: c !in d.registeredCallers)
  }

  /** Documents are consistent exactly when they satisfy these rules. */
  lemma ConsistentMeans(d: Documents)
    ensures Consistent(d) <==>
              RegistryRules(d) && RouteRules(d) && AccessRules(d) && ActivationRules(d) && ContractRules(d)
  {
    if Consistent(d) { ConsistentRules(d); }
    if RegistryRules(d) && RouteRules(d) && AccessRules(d) && ActivationRules(d) && ContractRules(d) {
      RulesConsistent(d);
    }
  }

  lemma ContractRulesMean(d: Documents)
    ensures ContractRules(d) <==>
              && d.contractProfiles <= d.profiles.Keys
              && d.activeCallers == CallersOf(d.profiles, Active)
              && d.registeredCallers == CallersOf(d.profiles, SelectedNotActive)
              && d.activeCallers !! d.registeredCallers
  {
  }

  /** The rules that a single profile is subject to, but for its activation. */
  lemma ProfileMeans(d: Documents, id: Id)
    requires id in d.profiles && id in d.activations
    ensures var p := d.profiles[id];
            ProfileOk(d, id) <==>
              && (forall b | b in p.bindings :: BindingRoutes(d, id, b))
              && ActivationOk(p, d.activations[id]) && Shaped(p)
              && (p.status == Retired ==> forall b | b in p.bindings :: p.bindings[b].status == Retired)
              && (id in d.planeProfiles <==> p.status != Retired)
              && (p.status == Retired ==>
                    && (forall r | r in d.routes :: id !in d.routes[r].profiles)
                    && forall grant | grant in d.grants :: grant.profile != id)
  {
  }

  lemma ConsistentRules(d: Documents)
    requires Consistent(d)
    ensures RegistryRules(d) && RouteRules(d) && AccessRules(d) && ActivationRules(d) && ContractRules(d)
  {
    ContractRulesMean(d);
    RegistryOfConsistent(d);
    RoutesOfConsistent(d);
    AccessOfConsistent(d);
  }

  lemma RegistryOfConsistent(d: Documents)
    requires forall id | id in d.profiles :: ProfileOk(d, id)
    ensures RegistryRules(d)
  {
  }

  lemma AccessOfConsistent(d: Documents)
    requires Consistent(d)
    ensures AccessRules(d)
  {
    forall id | id in d.profiles { ProfileMeans(d, id); }
    GrantsOfConsistent(d);
  }

  lemma GrantsOfConsistent(d: Documents)
    requires forall id | id in d.profiles :: ProfileOk(d, id)
    requires forall i | 0 <= i < |d.grants| :: GrantOk(d, d.grants[i])
    ensures forall grant | grant in d.grants ::
              && grant.profile in d.profiles && d.profiles[grant.profile].status != Retired
              && grant.tasks == d.profiles[grant.profile].tasks
  {
    forall grant | grant in d.grants
      ensures grant.profile in d.profiles && d.profiles[grant.profile].status != Retired
      ensures grant.tasks == d.profiles[grant.profile].tasks
    {
      var i :| 0 <= i < |d.grants| && d.grants[i] == grant;
      assert GrantOk(d, d.grants[i]) && ProfileOk(d, grant.profile);
    }
  }

  lemma RoutesOfConsistent(d: Documents)
    requires forall id | id in d.profiles :: ProfileOk(d, id)
    ensures RouteRules(d)
  {
    forall id, b | id in d.profiles && b in d.profiles[id].bindings ensures BindingRoutes(d, id, b) {
      assert ProfileOk(d, id);
    }
  }

  lemma RulesConsistent(d: Documents)
    requires RegistryRules(d) && RouteRules(d) && AccessRules(d) && ActivationRules(d) && ContractRules(d)
    ensures Consistent(d)
  {
    ContractRulesMean(d);
    forall id | id in d.profiles ensures ProfileOk(d, id) {
      BindingsOfRules(d, id);
      ProfileMeans(d, id);
    }
    forall i | 0 <= i < |d.grants| ensures GrantOk(d, d.grants[i]) {
      assert d.grants[i] in d.grants;
    }
  }

  lemma BindingsOfRules(d: Documents, id: Id)
    requires RouteRules(d) && id in d.profiles
    ensures forall b | b in d.profiles[id].bindings :: BindingRoutes(d, id, b)
  {
  }
}
