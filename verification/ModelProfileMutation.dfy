/**
 mutate_sources in its own form: in-place edits of the registry, the access plane and the
 runtime-assist contract, proved to have exactly the effect that ModelProfiles describes, and to
 fail exactly when the code raises.
 */
module ModelProfileMutation {
  import opened Wrappers
  import opened ModelProfiles

  /** The grants that do not name this profile, in their order. */
  function Others(grants: seq<Grant>, id: Id): (r: seq<Grant>)
    ensures forall grant: Grant ::
              multiset(r)[grant] == if grant.profile == id then 0 else multiset(grants)[grant]
  {
    if grants == [] then [] else
    assert grants == [grants[0]] + grants[1..];
    (if grants[0].profile == id then [] else [grants[0]]) + Others(grants[1..], id)
  }

  /** How often a grant stands among the projections of these callers. */
  function Listed(id: Id, p: Profile, callers: seq<string>, grant: Grant): nat {
    if grant == ProjectCaller(id, grant.callerId, p) then multiset(callers)[grant.callerId] else 0
  }

  /** The projections of a profile's callers came in addition. */
  ghost predicate Extends(before: seq<Grant>, after: seq<Grant>, id: Id, p: Profile) {
    forall grant: Grant ::
      multiset(after)[grant] == multiset(before)[grant] + Listed(id, p, p.callers, grant)
  }

  /** Optional references that a base must carry for its variants to copy. */
  predicate CanInherit(profiles: map<Id, Profile>, id: Id)
    requires id in profiles
  {
    Variants(profiles, id) != {} ==> profiles[id].outputRef.Some? && profiles[id].recordRef.Some?
  }

  /** The activation environment of a rebuilt profile can be chosen and selects a binding. */
  predicate EnvironmentResolves(profiles: map<Id, Profile>, decision: Decision, id: Id)
    requires id in profiles
  {
    if id == decision.profile && decision.environment.Some?
    then decision.environment.value in profiles[id].selected
    else profiles[id].selected != map[]
  }

  predicate Reviewed(p: Profile, routes: map<string, Route>) {
    p.status != Retired ==> forall b | b in p.bindings ::
      p.bindings[b].route in routes && p.bindings[b].model in routes[p.bindings[b].route].models
  }

  /** What one rebuilt profile needs. */
  predicate Rebuildable(profiles: map<Id, Profile>, routes: map<string, Route>, decision: Decision, id: Id)
    requires id in profiles
  {
    Reviewed(profiles[id], routes) && EnvironmentResolves(profiles, decision, id)
  }

  /** Exactly the decisions that mutate_sources carries out on these documents. */
  predicate Mutable(d: Documents, decision: Decision) {
    && (decision.profile in d.profiles <==> !decision.intent.Create?)
    && CanInherit(d.profiles[decision.profile := Decided(d.profiles, decision)], decision.profile)
    && var registry := Registry(d.profiles, decision);
    && forall id | id in Affected(registry, decision.profile) :: Rebuildable(registry, d.routes, decision, id)
  }

  // ------------------------------------------------------------------
  // One rebuilt profile after the others
  // ------------------------------------------------------------------

  lemma PlaneCompose(a: Documents, b: Documents, c: Documents, done: set<Id>, id: Id)
    requires b.profiles == c.profiles && done <= b.profiles.Keys && id in b.profiles && id !in done
    requires PlaneRebuilt(a, b, done) && PlaneRebuilt(b, c, {id})
    ensures PlaneRebuilt(a, c, done + {id})
  {
    forall r | r in c.routes ensures c.routes[r].profiles - (done + {id}) == a.routes[r].profiles - (done + {id}) {
      assert c.routes[r].profiles - {id} == b.routes[r].profiles - {id};
      assert b.routes[r].profiles - done == a.routes[r].profiles - done;
      forall p | p !in done + {id} ensures p in c.routes[r].profiles <==> p in a.routes[r].profiles {
        assert p in c.routes[r].profiles - {id} <==> p in b.routes[r].profiles - {id};
        assert p in b.routes[r].profiles - done <==> p in a.routes[r].profiles - done;
      }
    }
    forall r, p | r in c.routes && p in done + {id}
      ensures p in c.routes[r].profiles <==> c.profiles[p].status != Retired && Bound(c.profiles[p], r)
    {
      if p != id { assert p in c.routes[r].profiles - {id} <==> p in b.routes[r].profiles - {id}; }
    }
  }

  lemma GrantsCompose(a: Documents, b: Documents, c: Documents, done: set<Id>, id: Id)
    requires b.profiles == c.profiles && done <= b.profiles.Keys && id in b.profiles && id !in done
    requires GrantsRebuilt(a, b, done) && GrantsRebuilt(b, c, {id})
    ensures GrantsRebuilt(a, c, done + {id})
  {
  }

  lemma ActivationsCompose(a: Documents, b: Documents, c: Documents, decision: Decision, done: set<Id>, id: Id)
    requires b.profiles == c.profiles && done <= b.profiles.Keys && id in b.profiles && id !in done
    requires ActivationsRebuilt(a, b, decision, done) && ActivationsRebuilt(b, c, decision, {id})
    ensures ActivationsRebuilt(a, c, decision, done + {id})
  {
    forall p | p in done + {id} ensures ActivationRebuilt(a, c, decision, p) {
      if p == id { assert ActivationRebuilt(b, c, decision, id); } else { assert ActivationRebuilt(a, b, decision, p); }
    }
  }

  /** The loop's progress: these profiles are rebuilt. */
  ghost predicate RebuiltSoFar(before: Documents, now: Documents, decision: Decision, done: set<Id>) {
    && done <= now.profiles.Keys && PlaneRebuilt(before, now, done) && GrantsRebuilt(before, now, done)
    && ActivationsRebuilt(before, now, decision, done)
  }

  lemma NothingRebuilt(before: Documents, now: Documents, decision: Decision)
    requires now == before.(profiles := now.profiles)
    ensures RebuiltSoFar(before, now, decision, {})
  {
  }

  lemma AllReviewed(before: Documents, after: Documents, decision: Decision, rebuilt: set<Id>)
    requires RebuiltSoFar(before, after, decision, rebuilt)
    requires forall id | id in rebuilt :: Rebuildable(after.profiles, before.routes, decision, id)
    ensures Rebuilt(before, after, decision, rebuilt)
  {
    forall id | id in rebuilt ensures Reviewed(after.profiles[id], after.routes) {
      assert Rebuildable(after.profiles, before.routes, decision, id);
    }
  }

  /** Regranting and reactivating one more profile composes with what was rebuilt before. */
  lemma RebuildCompose(
    a: Documents, b: Documents, middle: Documents, c: Documents, decision: Decision, done: set<Id>, id: Id)
    requires done <= b.profiles.Keys && id in b.profiles && id !in done
    requires PlaneRebuilt(a, b, done) && GrantsRebuilt(a, b, done) && ActivationsRebuilt(a, b, decision, done)
    requires middle.profiles == b.profiles && middle.activations == b.activations
    requires c == middle.(activations := c.activations)
    requires PlaneRebuilt(b, middle, {id}) && GrantsRebuilt(b, middle, {id})
    requires ActivationsRebuilt(middle, c, decision, {id})
    ensures PlaneRebuilt(a, c, done + {id}) && GrantsRebuilt(a, c, done + {id})
    ensures ActivationsRebuilt(a, c, decision, done + {id})
  {
    PlaneCompose(a, b, middle, done, id);
    GrantsCompose(a, b, middle, done, id);
    SameActivations(middle, b, c, decision, id);
    ActivationsCompose(a, b, c, decision, done, id);
  }

  lemma SameActivations(middle: Documents, b: Documents, c: Documents, decision: Decision, id: Id)
    requires id in c.profiles && middle.activations == b.activations
    requires ActivationsRebuilt(middle, c, decision, {id})
    ensures ActivationsRebuilt(b, c, decision, {id})
  {
    assert ActivationRebuilt(middle, c, decision, id);
  }

  lemma RegrantedPlane(before: Documents, after: Documents, id: Id)
    requires id in after.profiles && RoutesKept(before, after)
    requires after.planeProfiles ==
               (before.planeProfiles - {id}) + if after.profiles[id].status != Retired then {id} else {}
    requires forall r | r in after.routes ::
               after.routes[r].profiles == (before.routes[r].profiles - {id})
                 + if after.profiles[id].status != Retired && Bound(after.profiles[id], r) then {id} else {}
    ensures PlaneRebuilt(before, after, {id})
  {
  }

  lemma RegrantedCallers(before: Documents, after: Documents, id: Id)
    requires id in after.profiles
    requires var p := after.profiles[id];
             if Granting(p, id) then Extends(Others(before.grants, id), after.grants, id, p)
             else after.grants == Others(before.grants, id)
    ensures GrantsRebuilt(before, after, {id})
  {
  }

  /** The plane edits and the runtime-assist lists together are the whole mutation. */
  lemma MutatedInTwo(before: Documents, plane: Documents, after: Documents, decision: Decision)
    requires decision.profile in before.profiles <==> !decision.intent.Create?
    requires plane.profiles == Registry(before.profiles, decision) && plane.selection == before.selection
    requires Rebuilt(before, plane, decision, Affected(plane.profiles, decision.profile))
    requires after == plane.(contractProfiles := plane.profiles.Keys,
                             activeCallers := CallersOf(plane.profiles, Active),
                             registeredCallers := CallersOf(plane.profiles, SelectedNotActive))
    ensures Mutated(before, after, decision)
  {
    forall id | id in Affected(after.profiles, decision.profile)
      ensures ActivationRebuilt(before, after, decision, id)
    {
      assert ActivationRebuilt(before, plane, decision, id);
    }
  }

  /** The same routes, with one more profile granted on some of them. */
  ghost predicate RoutesWith(before: map<string, Route>, after: map<string, Route>, granted: set<string>, id: Id) {
    && after.Keys == before.Keys
    && forall r | r in after ::
         after[r] == before[r].(profiles := before[r].profiles + if r in granted then {id} else {})
  }

  lemma GrantStep(before: map<string, Route>, now: map<string, Route>, granted: set<string>, id: Id, r: string)
    requires RoutesWith(before, now, granted, id) && r in now
    ensures RoutesWith(before, now[r := now[r].(profiles := now[r].profiles + {id})], granted + {r}, id)
  {
  }

  /** Once all bindings are granted, the granted routes are the bound ones. */
  lemma GrantedBound(
    before: map<string, Route>, now: map<string, Route>, granted: set<string>, id: Id, p: Profile)
    requires RoutesWith(before, now, granted, id)
    requires forall r | r in granted :: Bound(p, r)
    requires forall b | b in p.bindings :: p.bindings[b].route in granted
    ensures forall r | r in now ::
              now[r] == before[r].(profiles := before[r].profiles + if Bound(p, r) then {id} else {})
  {
  }

  // ------------------------------------------------------------------
  // The first environment in sorted order
  // ------------------------------------------------------------------

  lemma {:induction false} PrecedesTotal(a: string, b: string)
    ensures Precedes(a, b) || Precedes(b, a)
  {
    if a != [] && b != [] { PrecedesTotal(a[1..], b[1..]); }
  }

  lemma {:induction false} PrecedesTransitive(a: string, b: string, c: string)
    requires Precedes(a, b) && Precedes(b, c)
    ensures Precedes(a, c)
  {
    if a != [] && a[0] == b[0] == c[0] { PrecedesTransitive(a[1..], b[1..], c[1..]); }
  }

  method FirstOf(names: set<string>) returns (first: string)
    requires names != {}
    ensures first in names && forall name | name in names :: Precedes(first, name)
  {
    first :| first in names;
    PrecedesTotal(first, first);
    var pending := names - {first};
    while pending != {}
      invariant first in names && pending <= names
      invariant forall name | name in names && name !in pending :: Precedes(first, name)
      decreases pending
    {
      var name :| name in pending;
      PrecedesTotal(first, name);
      PrecedesTotal(name, name);
      if !Precedes(first, name) {
        forall other | other in names && other !in pending ensures Precedes(name, other) {
          PrecedesTransitive(name, first, other);
        }
        first := name;
      }
      pending := pending - {name};
    }
  }

  class Sources {
    var profiles: map<Id, Profile>
    var planeProfiles: set<Id>
    var routes: map<string, Route>
    var grants: seq<Grant>
    var activations: map<Id, Activation>
    var selection: Selection
    var contractProfiles: set<Id>
    var activeCallers: set<string>
    var registeredCallers: set<string>

    ghost function Snapshot(): Documents
      reads this
    {
      Documents(profiles, planeProfiles, routes, grants, activations, selection,
                contractProfiles, activeCallers, registeredCallers)
    }

    constructor (d: Documents)
      ensures Snapshot() == d
    {
      profiles, planeProfiles, routes, grants := d.profiles, d.planeProfiles, d.routes, d.grants;
      activations, selection, contractProfiles := d.activations, d.selection, d.contractProfiles;
      activeCallers, registeredCallers := d.activeCallers, d.registeredCallers;
    }

    /** The registry edits: the named profile, then every variant of its capability. */
    method EditRegistry(decision: Decision) returns (ok: bool)
      modifies this`profiles
      ensures ok <==>
                && (decision.profile in old(profiles) <==> !decision.intent.Create?)
                && CanInherit(old(profiles)[decision.profile := Decided(old(profiles), decision)], decision.profile)
      ensures ok ==> profiles == Registry(old(profiles), decision)
    {
      var id := decision.profile;
      if decision.intent.Create? && id in profiles { return false; }
      if !decision.intent.Create? && id !in profiles { return false; }
      if Targets(decision.intent) {
        profiles := profiles[id := decision.target];
      } else {
        var p := profiles[id];
        var names, bindings := p.bindings.Keys, p.bindings;
        while names != {}
          invariant names <= p.bindings.Keys == bindings.Keys
          invariant forall b | b in names :: bindings[b] == p.bindings[b]
          invariant forall b | b in bindings && b !in names ::
                      bindings[b] == if decision.intent.Suspend? then SuspendBindings(p.bindings)[b]
                                     else SetBindings(p.bindings, Retired)[b]
          decreases names
        {
          var b :| b in names;
          names := names - {b};
          if decision.intent.Retire? {
            bindings := bindings[b := bindings[b].(status := Retired)];
          } else if bindings[b].status != Retired {
            bindings := bindings[b := bindings[b].(status := SelectedNotActive)];
          }
        }
        var suspend := decision.intent.Suspend?;
        assert bindings == if suspend then SuspendBindings(p.bindings) else SetBindings(p.bindings, Retired);
        profiles := profiles[id := p.(status := if suspend then Suspended else Retired, bindings := bindings)];
      }
      assert profiles == old(profiles)[id := Decided(old(profiles), decision)];
      ok := EditVariants(id);
    }

    /** The loop that copies the capability's fields into its variants. */
    method EditVariants(id: Id) returns (ok: bool)
      requires id in profiles
      modifies this`profiles
      ensures ok <==> CanInherit(old(profiles), id)
      ensures ok ==> profiles == WithVariants(old(profiles), id)
    {
      var base := profiles[id];
      ok := true;
      if !IsBase(id, base) { return; }
      ghost var before := profiles;
      var pending := set v | v in profiles && v != id && profiles[v].capability == Some(id);
      assert pending == Variants(before, id);
      if pending != {} && (base.outputRef == None || base.recordRef == None) { return false; }
      while pending != {}
        invariant pending <= Variants(before, id)
        invariant profiles.Keys == before.Keys
        invariant forall v | v in before ::
                    profiles[v] ==
                      if v in Variants(before, id) && v !in pending then Inherit(before[v], before[id]) else before[v]
        decreases pending
      {
        var v :| v in pending;
        profiles := profiles[v := Inherit(profiles[v], base)];
        pending := pending - {v};
      }
    }

    /** The plane edits for one rebuilt profile; refused when it binds an unreviewed route or model. */
    method Regrant(id: Id) returns (ok: bool)
      requires id in profiles
      modifies this`planeProfiles, this`routes, this`grants
      ensures ok <==> Reviewed(profiles[id], old(routes))
      ensures ok ==> PlaneRebuilt(old(Snapshot()), Snapshot(), {id}) && GrantsRebuilt(old(Snapshot()), Snapshot(), {id})
    {
      ghost var before := Snapshot();
      var p := profiles[id];
      grants := Others(grants, id);
      routes := map r | r in routes :: routes[r].(profiles := routes[r].profiles - {id});
      planeProfiles := planeProfiles - {id};
      ok := true;
      if p.status != Retired {
        planeProfiles := planeProfiles + {id};
        ok := GrantRoutes(id);
        if !ok { return; }
        if IsBase(id, p) { GrantCallers(id); }
      }
      RegrantedPlane(before, Snapshot(), id);
      RegrantedCallers(before, Snapshot(), id);
    }

    method GrantRoutes(id: Id) returns (ok: bool)
      requires id in profiles && profiles[id].status != Retired
      modifies this`routes
      ensures ok <==> Reviewed(profiles[id], old(routes))
      ensures routes.Keys == old(routes).Keys
      ensures forall r | r in routes ::
                routes[r] == old(routes)[r].(profiles := routes[r].profiles)
      ensures ok ==> forall r | r in routes ::
                routes[r].profiles == old(routes)[r].profiles + if Bound(profiles[id], r) then {id} else {}
    {
      var p := profiles[id];
      var pending := p.bindings.Keys;
      ghost var before, granted := routes, {};
      while pending != {}
        invariant pending <= p.bindings.Keys
        invariant RoutesWith(before, routes, granted, id)
        invariant forall r | r in granted :: Bound(p, r)
        invariant forall b | b in p.bindings && b !in pending ::
                    && p.bindings[b].route in granted && p.bindings[b].route in before
                    && p.bindings[b].model in before[p.bindings[b].route].models
        decreases pending
      {
        var b :| b in pending;
        var binding := p.bindings[b];
        if binding.route !in routes || binding.model !in routes[binding.route].models { return false; }
        GrantStep(before, routes, granted, id, binding.route);
        routes := routes[binding.route := routes[binding.route].(profiles := routes[binding.route].profiles + {id})];
        granted := granted + {binding.route};
        pending := pending - {b};
      }
      GrantedBound(before, routes, granted, id, p);
      ok := true;
    }

    method GrantCallers(id: Id)
      requires id in profiles
      modifies this`grants
      ensures Extends(old(grants), grants, id, profiles[id])
    {
      var p := profiles[id];
      ghost var before := grants;
      for i := 0 to |p.callers|
        invariant forall grant: Grant ::
                    multiset(grants)[grant] == multiset(before)[grant] + Listed(id, p, p.callers[..i], grant)
      {
        assert p.callers[..i + 1] == p.callers[..i] + [p.callers[i]];
        grants := grants + [ProjectCaller(id, p.callers[i], p)];
      }
      assert p.callers[..|p.callers|] == p.callers;
    }

    /** The activation entry of one rebuilt profile. */
    method Reactivate(decision: Decision, id: Id) returns (ok: bool)
      requires id in profiles
      modifies this`activations
      ensures ok <==> EnvironmentResolves(profiles, decision, id)
      ensures ok ==> ActivationsRebuilt(old(Snapshot()), Snapshot(), decision, {id})
    {
      var p := profiles[id];
      var environment := if id == decision.profile then decision.environment else None;
      if environment == None {
        if p.selected == map[] { return false; }
        var first := FirstOf(p.selected.Keys);
        environment := Some(first);
      }
      if environment.value !in p.selected { return false; }
      var inherited := id != decision.profile;
      var prior := id in activations && activations[id].allowed;
      var reason := ReasonFor(activations, decision, id, p.status);
      activations := activations[id := Activation(p.status == Active && (!inherited || prior),
                                                  environment.value, p.selected[environment.value], reason)];
      ok := true;
    }

    /** mutate_sources: it succeeds on exactly the mutable decisions, and then has exactly the described
        effect on all three documents. */
    method Mutate(decision: Decision) returns (ok: bool)
      modifies this
      ensures ok <==> Mutable(old(Snapshot()), decision)
      ensures ok ==> Mutated(old(Snapshot()), Snapshot(), decision)
    {
      ghost var before := Snapshot();
      ok := EditRegistry(decision);
      if !ok { return; }
      ok := RebuildAll(decision, before);
      if !ok { return; }
      ghost var rebuilt := Snapshot();
      EditContract();
      MutatedInTwo(before, rebuilt, Snapshot(), decision);
    }

    /** The runtime-assist lists. */
    method EditContract()
      modifies this`contractProfiles, this`activeCallers, this`registeredCallers
      ensures contractProfiles == profiles.Keys
      ensures activeCallers == CallersOf(profiles, Active)
      ensures registeredCallers == CallersOf(profiles, SelectedNotActive)
    {
      contractProfiles := profiles.Keys;
      activeCallers := CallersOf(profiles, Active);
      registeredCallers := CallersOf(profiles, SelectedNotActive);
    }

    method RebuildAll(decision: Decision, ghost before: Documents) returns (ok: bool)
      requires decision.profile in profiles
      requires Snapshot() == before.(profiles := profiles)
      modifies this`planeProfiles, this`routes, this`grants, this`activations
      ensures ok <==> forall id | id in Affected(profiles, decision.profile) ::
                        Rebuildable(profiles, before.routes, decision, id)
      ensures ok ==> Rebuilt(before, Snapshot(), decision, Affected(profiles, decision.profile))
    {
      var affected := {decision.profile} + Variants(profiles, decision.profile);
      ok := RebuildEach(decision, affected, before);
      if ok { AllReviewed(before, Snapshot(), decision, affected); }
    }

    /** The loop over the affected profiles. */
    method RebuildEach(decision: Decision, affected: set<Id>, ghost before: Documents) returns (ok: bool)
      requires affected <= profiles.Keys
      requires Snapshot() == before.(profiles := profiles)
      modifies this`planeProfiles, this`routes, this`grants, this`activations
      ensures ok <==> forall id | id in affected :: Rebuildable(profiles, before.routes, decision, id)
      ensures ok ==> RebuiltSoFar(before, Snapshot(), decision, affected)
    {
      var pending := affected;
      ghost var done: set<Id> := {};
      NothingRebuilt(before, Snapshot(), decision);
      while pending != {}
        invariant done !! pending && done + pending == affected
        invariant RebuiltSoFar(before, Snapshot(), decision, done)
        invariant forall id | id in done :: Rebuildable(profiles, before.routes, decision, id)
        decreases pending
      {
        var id :| id in pending;
        ok := RebuildOne(decision, id, before, done);
        if !ok { return; }
        pending, done := pending - {id}, done + {id};
      }
      assert done == affected;
      ok := true;
    }

    method RebuildOne(decision: Decision, id: Id, ghost before: Documents, ghost done: set<Id>) returns (ok: bool)
      requires id in profiles && id !in done && done <= profiles.Keys
      requires RebuiltSoFar(before, Snapshot(), decision, done)
      modifies this`planeProfiles, this`routes, this`grants, this`activations
      ensures ok <==> Rebuildable(profiles, before.routes, decision, id)
      ensures ok ==> RebuiltSoFar(before, Snapshot(), decision, done + {id})
    {
      ghost var start := Snapshot();
      ok := Regrant(id);
      if !ok { return; }
      ghost var middle := Snapshot();
      ok := Reactivate(decision, id);
      if !ok { return; }
      RebuildCompose(before, start, middle, Snapshot(), decision, done, id);
    }
  }
}
