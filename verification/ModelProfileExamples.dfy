/**
 Two decisions on consistent documents that mutate_sources carries out and the validator then rejects,
 because the flat selection of the access plane is never updated.
 */
module ModelProfileExamples {
  import opened Wrappers
  import opened ModelProfiles
  import opened ModelProfileMutation
  import opened ModelProfileConsistency

  function ExampleBinding(status: Status): Binding { Binding(status, "r", "o", "m") }

  function ExampleProfile(capability: Option<Id>, selected: string): Profile {
    Profile(Status.Suspended, capability, "purpose", ["c"], {"t"},
            map["x" := ExampleBinding(SelectedNotActive), "y" := ExampleBinding(SelectedNotActive)],
            map["e" := selected], Some("output"), Some("record"), "path", true, false, "")
  }

  predicate IsExample(p: Profile) {
    p == ExampleProfile(p.capability, "x") || p == ExampleProfile(p.capability, "y")
  }

  /** What an example profile selects in its one environment. */
  function Chosen(p: Profile): string
    requires IsExample(p)
  {
    p.selected["e"]
  }

  function ExampleDocuments(profiles: map<Id, Profile>, selection: Selection): Documents
    requires forall id | id in profiles :: IsExample(profiles[id])
  {
    Documents(profiles, profiles.Keys, map["r" := Route("o", false, {"m"}, profiles.Keys)], [],
              map id | id in profiles :: Activation(false, "e", Chosen(profiles[id]), ""),
              selection, profiles.Keys, {}, {})
  }

  lemma ExampleIsConsistent(profiles: map<Id, Profile>, id: Id)
    requires id in profiles
    requires forall q | q in profiles :: IsExample(profiles[q])
    ensures Consistent(ExampleDocuments(profiles, Selection(id, "e", Chosen(profiles[id]))))
  {
    var d := ExampleDocuments(profiles, Selection(id, "e", Chosen(profiles[id])));
    forall q | q in profiles ensures ProfileOk(d, q) { ExampleIsOk(d, q); }
  }

  lemma ExampleIsOk(d: Documents, id: Id)
    requires id in d.profiles && forall q | q in d.profiles :: IsExample(d.profiles[q])
    requires d == ExampleDocuments(d.profiles, d.selection)
    ensures ProfileOk(d, id)
  {
    forall b | b in d.profiles[id].bindings ensures BindingRoutes(d, id, b) {}
  }

  /** Amending the profile that the flat selection names so that it selects another reviewed binding. */
  lemma AmendmentMovesSelection() returns (d: Documents, decision: Decision)
    ensures Consistent(d) && HandedOff(decision) && decision.intent.Amend? && Mutable(d, decision)
    ensures !SelectionKept(d, decision) && !Acceptable(d, decision)
  {
    var profiles: map<Id, Profile> := map["p" := ExampleProfile(None, "x")];
    d := ExampleDocuments(profiles, Selection("p", "e", "x"));
    ExampleIsConsistent(profiles, "p");
    decision := Decision("1", Amend, "p", ExampleProfile(None, "y"), None);
  }

  /** A suspension is carried out wherever every binding is reviewed and every reference present. */
  lemma SuspensionIsMutable(d: Documents, decision: Decision)
    requires decision.intent.Suspend? && decision.environment == None && decision.profile in d.profiles
    requires d.profiles[decision.profile].outputRef.Some? && d.profiles[decision.profile].recordRef.Some?
    requires d.profiles[decision.profile].selected != map[]
    requires forall b | b in d.profiles[decision.profile].bindings ::
               var binding := d.profiles[decision.profile].bindings[b];
               binding.route in d.routes && binding.model in d.routes[binding.route].models
    ensures Mutable(d, decision)
  {
    var registry := Registry(d.profiles, decision);
    forall id | id in Affected(registry, decision.profile)
      ensures Rebuildable(registry, d.routes, decision, id)
    {
      RebuiltTerms(d.profiles, decision, id);
    }
  }

  /** Suspending a base whose variant the flat selection names with a selection of its own. */
  lemma SuspensionMovesSelection() returns (d: Documents, decision: Decision)
    ensures Consistent(d) && HandedOff(decision) && decision.intent.Suspend? && Mutable(d, decision)
    ensures !Withdrawable(d, decision) && !Acceptable(d, decision)
  {
    var base, variant := ExampleProfile(None, "x"), ExampleProfile(Some("p"), "y");
    var profiles: map<Id, Profile> := map["p" := base, "v" := variant];
    d := ExampleDocuments(profiles, Selection("v", "e", "y"));
    ExampleIsConsistent(profiles, "v");
    decision := Decision("1", Suspend, "p", ExampleProfile(None, "x"), None);
    SuspensionIsMutable(d, decision);
    assert Inheriting(profiles, decision, "v");
  }
}
