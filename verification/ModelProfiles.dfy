/**
 The three governed model documents - profile registry, access plane, runtime-assist contract - the
 cross-document rules of validate_ai_model_profiles.py, and mutate_sources, which edits all three.

 The documents' sorted, duplicate-free lists are sets here; the list of caller grants is a sequence
 whose order is not modelled.
 */
module ModelProfiles {
  import opened Wrappers

  type Id = string

  datatype Status = Active | SelectedNotActive | Suspended | Retired | Exception

  datatype Binding = Binding(status: Status, route: string, provider: string, model: string)

  datatype Profile = Profile(
    status: Status, capability: Option<Id>, purpose: string, callers: seq<string>, tasks: set<string>,
    bindings: map<string, Binding>, selected: map<string, string>,
    outputRef: Option<string>, recordRef: Option<string>,
    invocationPath: string, humanApproval: bool, directAccess: bool, remainder: string)

  datatype Route = Route(provider: string, retired: bool, models: set<string>, profiles: set<Id>)

  datatype Grant = Grant(
    callerId: string, purpose: string, profile: Id, tasks: set<string>,
    outputRef: Option<string>, recordRef: Option<string>)

  datatype Activation = Activation(allowed: bool, environment: string, binding: string, reason: string)

  /** The flat selection of the access plane: active_profile, active_environment, active_binding. */
  datatype Selection = Selection(profile: Id, environment: string, binding: string)

  datatype Documents = Documents(
    profiles: map<Id, Profile>,
    planeProfiles: set<Id>, routes: map<string, Route>, grants: seq<Grant>, activations: map<Id, Activation>,
    selection: Selection,
    contractProfiles: set<Id>, activeCallers: set<string>, registeredCallers: set<string>)

  predicate IsBase(id: Id, p: Profile) {
    p.capability == None || p.capability == Some(id)
  }

  // ------------------------------------------------------------------
  // The validator's cross-document rules
  // ------------------------------------------------------------------

  predicate BindingRoutes(d: Documents, id: Id, bindingId: string)
    requires id in d.profiles && bindingId in d.profiles[id].bindings
  {
    var p := d.profiles[id];
    var b := p.bindings[bindingId];
    && b.route in d.routes
    && d.routes[b.route].provider == b.provider
    && (p.status != Retired ==>
          && id in d.routes[b.route].profiles
          && b.model in d.routes[b.route].models
          && (bindingId in p.selected.Values ==> !d.routes[b.route].retired))
  }

  /** No access grant of any kind for this profile. */
  predicate Ungranted(d: Documents, id: Id) {
    && id !in d.planeProfiles
    && (forall r | r in d.routes :: id !in d.routes[r].profiles)
    && forall i | 0 <= i < |d.grants| :: d.grants[i].profile != id
  }

  predicate Selects(p: Profile, environment: string, binding: string) {
    environment in p.selected && p.selected[environment] == binding
  }

  predicate ActivationOk(p: Profile, a: Activation) {
    && Selects(p, a.environment, a.binding)
    && (a.allowed ==> p.status == Active && a.binding in p.bindings && p.bindings[a.binding].status == Active)
  }

  predicate GrantOk(d: Documents, grant: Grant) {
    && grant.profile in d.profiles
    && grant.tasks != {} && grant.tasks == d.profiles[grant.profile].tasks
  }

  /** What the registry asks of any profile, as far as the other documents rely on it. */
  predicate Complete(p: Profile) {
    p.callers != [] && p.tasks != {} && p.selected != map[] && p.selected.Values <= p.bindings.Keys
  }

  predicate Shaped(p: Profile) {
    Complete(p) && (p.status == Active ==> !p.directAccess)
  }

  /** The rules that concern one profile. */
  predicate ProfileOk(d: Documents, id: Id)
    requires id in d.profiles
  {
    var p := d.profiles[id];
    && (forall b | b in p.bindings :: BindingRoutes(d, id, b))
    && (if p.status == Retired
        then Ungranted(d, id) && forall b | b in p.bindings :: p.bindings[b].status == Retired
        else id in d.planeProfiles)
    && id in d.activations && ActivationOk(p, d.activations[id])
    && Shaped(p)
  }

  /** The flat selection names a profile that selects this binding in this environment. */
  predicate SelectionOk(d: Documents) {
    && d.selection.profile in d.profiles
    && Selects(d.profiles[d.selection.profile], d.selection.environment, d.selection.binding)
  }

  /** Callers of the base profiles that are in the given status. */
  function CallersOf(profiles: map<Id, Profile>, status: Status): set<string> {
    set id, caller | id in profiles && IsBase(id, profiles[id]) && profiles[id].status == status
                     && caller in profiles[id].callers :: caller
  }

  predicate Consistent(d: Documents) {
    && (forall id | id in d.profiles :: ProfileOk(d, id))
    && (forall i | 0 <= i < |d.grants| :: GrantOk(d, d.grants[i]))
    && d.planeProfiles <= d.profiles.Keys
    && d.activations.Keys == d.profiles.Keys
    && SelectionOk(d)
    && d.contractProfiles <= d.profiles.Keys
    && d.activeCallers == CallersOf(d.profiles, Active)
    && d.registeredCallers == CallersOf(d.profiles, SelectedNotActive)
    && d.activeCallers !! d.registeredCallers
  }

  // ------------------------------------------------------------------
  // Decisions, and what they do to the registry
  // ------------------------------------------------------------------

  datatype Intent = Create | Amend | Activate | Except | Suspend | Retire

  datatype Decision = Decision(id: string, intent: Intent, profile: Id, target: Profile, environment: Option<string>)

  predicate Targets(intent: Intent) {
    intent.Create? || intent.Amend? || intent.Activate? || intent.Except?
  }

  /** validate_handoff ties the target's status and the environment to the intent, and lets no target
      reach its provider directly. */
  predicate HandedOff(decision: Decision) {
    && (Targets(decision.intent) ==> !decision.target.directAccess)
    && (decision.intent.Create? || decision.intent.Amend? ==> decision.target.status == Suspended)
    && (decision.intent.Activate? ==> decision.target.status == Active && decision.environment.Some?)
    && (decision.intent.Except? ==> decision.target.status == Exception)
    && (!decision.intent.Activate? ==> decision.environment == None)
  }

  function SuspendBindings(bindings: map<string, Binding>): map<string, Binding> {
    map b | b in bindings ::
      if bindings[b].status == Retired then bindings[b] else bindings[b].(status := SelectedNotActive)
  }

  function SetBindings(bindings: map<string, Binding>, status: Status): map<string, Binding> {
    map b | b in bindings :: bindings[b].(status := status)
  }

  /** The named profile after the decision. */
  function Decided(profiles: map<Id, Profile>, decision: Decision): Profile
    requires decision.profile in profiles || Targets(decision.intent)
  {
    match decision.intent
    case Suspend =>
      var p := profiles[decision.profile];
      p.(status := Suspended, bindings := SuspendBindings(p.bindings))
    case Retire =>
      var p := profiles[decision.profile];
      p.(status := Retired, bindings := SetBindings(p.bindings, Retired))
    case _ => decision.target
  }

  function InheritedStatus(variant: Status): Status {
    if variant == Retired then Retired else if variant == Active then Active else SelectedNotActive
  }

  /** A variant keeps its own status and takes the capability's contract from its base. */
  function Inherit(variant: Profile, base: Profile): Profile {
    variant.(purpose := base.purpose, callers := base.callers, tasks := base.tasks,
             bindings := SetBindings(base.bindings, InheritedStatus(variant.status)),
             selected := base.selected, outputRef := base.outputRef, recordRef := base.recordRef,
             invocationPath := base.invocationPath, humanApproval := base.humanApproval,
             directAccess := base.directAccess)
  }

  function Variants(profiles: map<Id, Profile>, id: Id): set<Id>
    requires id in profiles
  {
    if IsBase(id, profiles[id])
    then set v | v in profiles && v != id && profiles[v].capability == Some(id)
    else {}
  }

  function WithVariants(profiles: map<Id, Profile>, id: Id): map<Id, Profile>
    requires id in profiles
  {
    map v | v in profiles :: if v in Variants(profiles, id) then Inherit(profiles[v], profiles[id]) else profiles[v]
  }

  /** The whole registry after the decision. */
  function Registry(profiles: map<Id, Profile>, decision: Decision): map<Id, Profile>
    requires decision.profile in profiles || Targets(decision.intent)
  {
    WithVariants(profiles[decision.profile := Decided(profiles, decision)], decision.profile)
  }

  /** Every profile whose grants are rebuilt: the named one and the variants of its capability. */
  function Affected(registry: map<Id, Profile>, id: Id): set<Id>
    requires id in registry
  {
    {id} + Variants(registry, id)
  }

  /** caller_projection */
  function ProjectCaller(id: Id, callerId: string, p: Profile): Grant {
    Grant(callerId, p.purpose, id, p.tasks, p.outputRef, p.recordRef)
  }

  // ------------------------------------------------------------------
  // What mutate_sources does to the access plane, for a set of rebuilt profiles
  // ------------------------------------------------------------------

  predicate Bound(p: Profile, route: string) {
    exists b | b in p.bindings :: p.bindings[b].route == route
  }

  /** No route is added, dropped or changed but for its grants. */
  predicate RoutesKept(before: Documents, after: Documents) {
    && after.routes.Keys == before.routes.Keys
    && forall r | r in after.routes :: after.routes[r] == before.routes[r].(profiles := after.routes[r].profiles)
  }

  /** Exactly the non-retired rebuilt profiles are in the plane, and on exactly the routes they bind. */
  predicate PlaneRebuilt(before: Documents, after: Documents, rebuilt: set<Id>)
    requires rebuilt <= after.profiles.Keys
  {
    && after.planeProfiles ==
         (before.planeProfiles - rebuilt) + (set id | id in rebuilt && after.profiles[id].status != Retired)
    && RoutesKept(before, after)
    && (forall r | r in after.routes :: after.routes[r].profiles - rebuilt == before.routes[r].profiles - rebuilt)
    && (forall r, id | r in after.routes && id in rebuilt ::
          id in after.routes[r].profiles <==> after.profiles[id].status != Retired && Bound(after.profiles[id], r))
  }

  /** Every non-retired rebuilt profile binds only reviewed routes and models. */
  predicate RoutesReviewed(d: Documents, rebuilt: set<Id>)
    requires rebuilt <= d.profiles.Keys
  {
    forall id, b | id in rebuilt && d.profiles[id].status != Retired && b in d.profiles[id].bindings ::
      var binding := d.profiles[id].bindings[b];
      binding.route in d.routes && binding.model in d.routes[binding.route].models
  }

  predicate Granting(p: Profile, id: Id) {
    p.status != Retired && IsBase(id, p)
  }

  /** How often a grant is due for a rebuilt profile: once for each time a granting base lists its caller. */
  function Due(id: Id, p: Profile, grant: Grant): nat {
    if Granting(p, id) && grant == ProjectCaller(id, grant.callerId, p) then multiset(p.callers)[grant.callerId] else 0
  }

  /** The grants, each as often as before for the other profiles, and as often as due for the rebuilt ones. */
  ghost predicate GrantsRebuilt(before: Documents, after: Documents, rebuilt: set<Id>)
    requires rebuilt <= after.profiles.Keys
  {
    forall grant: Grant :: multiset(after.grants)[grant] ==
      if grant.profile in rebuilt then Due(grant.profile, after.profiles[grant.profile], grant)
      else multiset(before.grants)[grant]
  }

  /** The order of the environment names: the lists are sorted by code points. */
  predicate Precedes(a: string, b: string) {
    a == [] || (b != [] && (a[0] < b[0] || (a[0] == b[0] && Precedes(a[1..], b[1..]))))
  }

  function StatusName(status: Status): string {
    match status
    case Active => "active"
    case SelectedNotActive => "selected-not-active"
    case Suspended => "suspended"
    case Retired => "retired"
    case Exception => "exception"
  }

  /** Why an activation entry is as it is; an inherited one keeps its reason. */
  function ReasonFor(activations: map<Id, Activation>, decision: Decision, id: Id, status: Status): string {
    if id != decision.profile then
      if id in activations then activations[id].reason else "inherited-capability-contract:" + decision.id
    else if status == Active then "security-reviewed-lifecycle-decision:" + decision.id
    else "lifecycle-" + StatusName(status) + ":" + decision.id
  }

  predicate ActivationRebuilt(before: Documents, after: Documents, decision: Decision, id: Id)
    requires id in after.profiles && id in after.activations
  {
    var p, a := after.profiles[id], after.activations[id];
    var inherited := id != decision.profile;
    && a.environment in p.selected && a.binding == p.selected[a.environment]
    && (if !inherited && decision.environment.Some? then a.environment == decision.environment.value
        else forall e | e in p.selected :: Precedes(a.environment, e))
    && (a.allowed <==> p.status == Active && (inherited ==> id in before.activations && before.activations[id].allowed))
    && a.reason == ReasonFor(before.activations, decision, id, p.status)
  }

  predicate ActivationsRebuilt(before: Documents, after: Documents, decision: Decision, rebuilt: set<Id>)
    requires rebuilt <= after.profiles.Keys
  {
    && after.activations.Keys == before.activations.Keys + rebuilt
    && (forall id | id in before.activations && id !in rebuilt :: after.activations[id] == before.activations[id])
    && (forall id | id in rebuilt :: ActivationRebuilt(before, after, decision, id))
  }

  /** Plane, routes, grants and activations of exactly these profiles are rebuilt. */
  ghost predicate Rebuilt(before: Documents, after: Documents, decision: Decision, rebuilt: set<Id>)
    requires rebuilt <= after.profiles.Keys
  {
    && PlaneRebuilt(before, after, rebuilt)
    && RoutesReviewed(after, rebuilt)
    && GrantsRebuilt(before, after, rebuilt)
    && ActivationsRebuilt(before, after, decision, rebuilt)
  }

  /** The full effect of a successful mutation. */
  ghost predicate Mutated(before: Documents, after: Documents, decision: Decision) {
    && (decision.profile in before.profiles <==> !decision.intent.Create?)
    && after.profiles == Registry(before.profiles, decision)
    && Rebuilt(before, after, decision, Affected(after.profiles, decision.profile))
    && after.selection == before.selection
    && after.contractProfiles == after.profiles.Keys
    && after.activeCallers == CallersOf(after.profiles, Active)
    && after.registeredCallers == CallersOf(after.profiles, SelectedNotActive)
  }

  // ------------------------------------------------------------------
  // What a decision achieves, whatever the documents were
  // ------------------------------------------------------------------

  /** Neither the profile, nor a binding of it, nor its activation is active. */
  predicate Inactive(d: Documents, id: Id) {
    && id in d.profiles && d.profiles[id].status != Active
    && (forall b | b in d.profiles[id].bindings :: d.profiles[id].bindings[b].status != Active)
    && id in d.activations && !d.activations[id].allowed
  }

  /** Suspending or retiring a profile takes effect in all documents; a retired one has no grant left. */
  lemma WithdrawalTakesEffect(before: Documents, after: Documents, decision: Decision)
    requires Mutated(before, after, decision)
    requires decision.intent.Suspend? || decision.intent.Retire?
    ensures Inactive(after, decision.profile)
    ensures decision.intent.Retire? ==> Ungranted(after, decision.profile)
  {
    var p := after.profiles[decision.profile];
    assert p == Decided(before.profiles, decision);
    assert decision.profile in Affected(after.profiles, decision.profile);
    assert ActivationRebuilt(before, after, decision, decision.profile);
    forall i | decision.intent.Retire? && 0 <= i < |after.grants|
      ensures after.grants[i].profile != decision.profile
    {
      assert multiset(after.grants)[after.grants[i]] > 0;
    }
  }

  /** The terms of a capability, which every variant of it shares with its base. */
  predicate SameTerms(p: Profile, q: Profile) {
    && p.purpose == q.purpose && p.callers == q.callers && p.tasks == q.tasks && p.selected == q.selected
    && p.outputRef == q.outputRef && p.recordRef == q.recordRef && p.invocationPath == q.invocationPath
    && p.humanApproval == q.humanApproval && p.directAccess == q.directAccess
    && p.bindings.Keys == q.bindings.Keys
    && forall b | b in p.bindings :: p.bindings[b] == q.bindings[b].(status := p.bindings[b].status)
  }

  /** Whatever a decision does to a base, its variants follow: the same terms, granted where the base's
      bindings route unless retired, never called directly; but each keeps its own status, and none
      becomes activated that was not. */
  lemma VariantsFollowTheirBase(before: Documents, after: Documents, decision: Decision, v: Id)
    requires Mutated(before, after, decision) && v in Variants(after.profiles, decision.profile)
    ensures v in before.profiles && after.profiles[v].status == before.profiles[v].status
    ensures SameTerms(after.profiles[v], after.profiles[decision.profile])
    ensures v in after.activations
    ensures after.activations[v].allowed ==>
              v in before.activations && before.activations[v].allowed && after.profiles[v].status == Active
    ensures v in after.planeProfiles <==> after.profiles[v].status != Retired
    ensures forall r | r in after.routes ::
              v in after.routes[r].profiles <==>
                after.profiles[v].status != Retired && Bound(after.profiles[decision.profile], r)
    ensures forall grant | grant in after.grants :: grant.profile != v
  {
    VariantIsInherited(before.profiles, decision, v);
    assert ActivationRebuilt(before, after, decision, v);
    var p, base := after.profiles[v], after.profiles[decision.profile];
    forall grant | grant in after.grants ensures grant.profile != v {
      assert multiset(after.grants)[grant] > 0;
    }
    forall r | r in after.routes ensures Bound(p, r) <==> Bound(base, r) {
      if Bound(p, r) {
        var b :| b in p.bindings && p.bindings[b].route == r;
        assert b in base.bindings && base.bindings[b].route == r;
      }
      if Bound(base, r) {
        var b :| b in base.bindings && base.bindings[b].route == r;
        assert b in p.bindings && p.bindings[b].route == r;
      }
    }
  }

  lemma VariantIsInherited(profiles: map<Id, Profile>, decision: Decision, v: Id)
    requires decision.profile in profiles || Targets(decision.intent)
    requires v in Variants(Registry(profiles, decision), decision.profile)
    ensures var registry := Registry(profiles, decision);
            && v in profiles && v != decision.profile && !IsBase(v, registry[v])
            && registry[v].status == profiles[v].status
            && SameTerms(registry[v], registry[decision.profile])
  {
  }
}
