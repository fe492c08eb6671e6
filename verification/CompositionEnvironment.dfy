/**
 build_profile_environments and the two bounded environments: what a validated composition projects into
 its profiles, and what a child process is given of it.
 */
module CompositionEnvironment {
  import opened Wrappers
  import opened CompositionGraph
  import opened CompositionContract

  // ------------------------------------------------------------------
  // build_profile_environments
  // ------------------------------------------------------------------

  type Environment = map<string, string>

  /** A number in decimal digits. */
  function Decimal(n: int): string
    decreases if n < 0 then 1 - n else n
  {
    if n < 0 then "-" + Decimal(-n)
    else if n < 10 then [('0' as int + n) as char]
    else Decimal(n / 10) + [('0' as int + n % 10) as char]
  }

  /** The number that decimal digits stand for. */
  function Digits(s: string): int {
    if s == "" then 0 else 10 * Digits(s[..|s| - 1]) + (s[|s| - 1] as int - '0' as int)
  }

  lemma {:induction false} DecimalReadsBack(n: nat)
    ensures Digits(Decimal(n)) == n && Decimal(n) != ""
    ensures forall i | 0 <= i < |Decimal(n)| :: '0' <= Decimal(n)[i] <= '9'
    ensures Decimal(n)[0] == '0' ==> n == 0
  {
    if n >= 10 {
      DecimalReadsBack(n / 10);
      assert Decimal(n)[..|Decimal(n)| - 1] == Decimal(n / 10);
    } else {
      assert Decimal(n)[..0] == "";
    }
  }

  predicate Addressable(service: Service) { service.hostPort || service.scheme.Some? }

  /** _render_service_projection */
  function AddressText(service: Service, namespace: string): string
    requires Addressable(service)
  {
    var host := service.name + "." + namespace + ".svc.cluster.local";
    if service.hostPort then host + ":" + Decimal(service.port)
    else service.scheme.value + "://" + host + ":" + Decimal(service.port)
  }

  datatype Inputs = Inputs(namespaces: map<Id, string>, credentials: map<string, string>, operator: string)

  /** The lookups of the builder that would otherwise raise. */
  predicate Renders(inputs: Inputs, content: Content) {
    match content
    case Address(service, host) => host in inputs.namespaces && Addressable(service)
    case Declared(ProfileService(service), profile) => profile in inputs.namespaces && Addressable(service)
    case Declared(ProfileNamespace(profile), _) => profile in inputs.namespaces
    case Declared(OperatorTemplate(pieces), _) => |pieces| == 2 && IsLabel(pieces[0] + inputs.operator + pieces[1])
    case Declared(Unsupported, _) => false
    case _ => true
  }

  /** The value of a slot; a credential binding without a value writes nothing. */
  function Render(inputs: Inputs, content: Content): Option<string>
    requires Renders(inputs, content)
  {
    match content
    case Address(service, host) => Some(AddressText(service, inputs.namespaces[host]))
    case Caller(callerId) => Some(callerId)
    case Credential(bindingId) =>
      if bindingId in inputs.credentials then Some(inputs.credentials[bindingId]) else None
    case Declared(Literal(text), _) => Some(text)
    case Declared(ProfileService(service), profile) => Some(AddressText(service, inputs.namespaces[profile]))
    case Declared(ProfileNamespace(profile), _) => Some(inputs.namespaces[profile])
    case Declared(OperatorTemplate(pieces), _) => Some(pieces[0] + inputs.operator + pieces[1])
  }

  predicate AllRender(inputs: Inputs, slots: seq<Slot>) {
    forall i | 0 <= i < |slots| :: Renders(inputs, slots[i].content)
  }

  /** What writing the slots one after the other leaves at each target. */
  function Effect(inputs: Inputs, slots: seq<Slot>): map<(Id, string), string>
    requires AllRender(inputs, slots)
  {
    if slots == [] then map[] else
    var last := slots[|slots| - 1];
    var before := Effect(inputs, slots[..|slots| - 1]);
    match Render(inputs, last.content)
    case Some(value) => before[TargetOf(last) := value]
    case None => before
  }

  ghost predicate Represents(environments: map<Id, Environment>, profiles: set<Id>, effect: map<(Id, string), string>) {
    && environments.Keys == profiles
    && forall p, v :: ((p in environments && v in environments[p]) <==> (p, v) in effect)
         && (p in environments && v in environments[p] ==> environments[p][v] == effect[(p, v)])
  }

  /** Writing the slots, one after the other, into the per-profile environments; a slot that
      cannot be rendered stops the builder. */
  method WriteAll(profiles: set<Id>, slots: seq<Slot>, inputs: Inputs)
    returns (result: Result<map<Id, Environment>, Slot>)
    requires forall i | 0 <= i < |slots| :: slots[i].profile in profiles
    ensures result.Success? <==> AllRender(inputs, slots)
    ensures result.Success? ==> Represents(result.value, profiles, Effect(inputs, slots))
    ensures result.Failure? ==> result.error in slots && !Renders(inputs, result.error.content)
  {
    var environments: map<Id, Environment> := map p | p in profiles :: map[];
    for i := 0 to |slots|
      invariant AllRender(inputs, slots[..i])
      invariant Represents(environments, profiles, Effect(inputs, slots[..i]))
    {
      var slot := slots[i];
      assert slots[..i + 1][..i] == slots[..i] && slots[..i + 1][i] == slot;
      if !Renders(inputs, slot.content) { return Failure(slot); }
      assert AllRender(inputs, slots[..i + 1]);
      var rendered := Render(inputs, slot.content);
      if rendered.Some? {
        ghost var before := environments;
        environments := environments[slot.profile := environments[slot.profile][slot.variable := rendered.value]];
        RepresentsWrite(before, profiles, Effect(inputs, slots[..i]), slot, rendered.value);
      }
    }
    assert slots[..|slots|] == slots;
    result := Success(environments);
  }

  lemma RepresentsWrite(
    environments: map<Id, Environment>, profiles: set<Id>, effect: map<(Id, string), string>, slot: Slot, value: string)
    requires Represents(environments, profiles, effect) && slot.profile in profiles
    ensures Represents(environments[slot.profile := environments[slot.profile][slot.variable := value]],
                       profiles, effect[TargetOf(slot) := value])
  {
  }

  datatype Unbuilt = NoNamespace(profile: Id) | Unrendered(slot: Slot)

  predicate ProvidersPlaced(c: Composition, inputs: Inputs) {
    forall i | 0 <= i < |c.dependencies| :: c.dependencies[i].provider in inputs.namespaces
  }

  // ------------------------------------------------------------------
  // What each kind of declaration puts into the environments
  // ------------------------------------------------------------------

  predicate Holds(environments: map<Id, Environment>, profile: Id, variable: string, value: string) {
    profile in environments && variable in environments[profile] && environments[profile][variable] == value
  }

  /** The text is the cluster address of a service in a namespace: host and port, or a URL. */
  predicate IsAddress(text: string, service: Service, namespace: string) {
    var host := service.name + "." + namespace + ".svc.cluster.local";
    if service.hostPort then text == host + ":" + Decimal(service.port)
    else service.scheme.Some? && text == service.scheme.value + "://" + host + ":" + Decimal(service.port)
  }

  predicate HoldsAddress(
    environments: map<Id, Environment>, profile: Id, variable: string, service: Service, namespace: string)
  {
    && profile in environments && variable in environments[profile]
    && IsAddress(environments[profile][variable], service, namespace)
  }

  /** A consumer finds each endpoint of a dependency in the provider's namespace. */
  predicate EndpointsProjected(c: Composition, inputs: Inputs, environments: map<Id, Environment>) {
    forall i, j | 0 <= i < |c.dependencies| && 0 <= j < |c.dependencies[i].endpoints| ::
      EndpointProjected(c.dependencies[i], c.dependencies[i].endpoints[j], inputs, environments)
  }

  predicate EndpointProjected(d: Dependency, e: Endpoint, inputs: Inputs, environments: map<Id, Environment>) {
    && d.provider in inputs.namespaces
    && HoldsAddress(environments, d.consumer, e.variable, e.service, inputs.namespaces[d.provider])
  }

  /** Both ends of a caller binding get the caller id, each under its own variable. */
  predicate CallersProjected(c: Composition, environments: map<Id, Environment>) {
    forall i | 0 <= i < |c.callers| ::
      && Holds(environments, c.callers[i].consumer, c.callers[i].consumerVariable, c.callers[i].callerId)
      && Holds(environments, c.callers[i].provider, c.callers[i].providerVariable, c.callers[i].callerId)
  }

  /** A credential goes to each of its projections, and nothing does without one. */
  predicate CredentialsProjected(c: Composition, inputs: Inputs, environments: map<Id, Environment>) {
    forall i, j | 0 <= i < |c.credentials| && 0 <= j < |c.credentials[i].projections| ::
      var id, to := c.credentials[i].bindingId, c.credentials[i].projections[j];
      if id in inputs.credentials then Holds(environments, to.profile, to.variable, inputs.credentials[id])
      else to.profile in environments && to.variable !in environments[to.profile]
  }

  predicate BindingProjected(b: ProfileBinding, inputs: Inputs, environments: map<Id, Environment>) {
    match b.source
    case Literal(text) => Holds(environments, b.profile, b.variable, text)
    case ProfileService(service) =>
      b.profile in inputs.namespaces
      && HoldsAddress(environments, b.profile, b.variable, service, inputs.namespaces[b.profile])
    case ProfileNamespace(source) =>
      source in inputs.namespaces && Holds(environments, b.profile, b.variable, inputs.namespaces[source])
    case OperatorTemplate(pieces) =>
      |pieces| == 2 && Holds(environments, b.profile, b.variable, pieces[0] + inputs.operator + pieces[1])
    case Unsupported => false
  }

  predicate BindingsProjected(c: Composition, inputs: Inputs, environments: map<Id, Environment>) {
    forall i | 0 <= i < |c.bindings| :: BindingProjected(c.bindings[i], inputs, environments)
  }

  /** Some declaration of the composition names this variable of this profile. */
  predicate DeclaredFor(c: Composition, p: Id, v: string) {
    || (exists i, j | 0 <= i < |c.dependencies| && 0 <= j < |c.dependencies[i].endpoints| ::
          c.dependencies[i].consumer == p && c.dependencies[i].endpoints[j].variable == v)
    || (exists i | 0 <= i < |c.callers| ::
          || (c.callers[i].consumer == p && c.callers[i].consumerVariable == v)
          || (c.callers[i].provider == p && c.callers[i].providerVariable == v))
    || (exists i, j | 0 <= i < |c.credentials| && 0 <= j < |c.credentials[i].projections| ::
          c.credentials[i].projections[j] == Projection(p, v))
    || (exists i | 0 <= i < |c.bindings| :: c.bindings[i].profile == p && c.bindings[i].variable == v)
  }

  /** One environment for each profile, with declared variables only. */
  predicate OnlyDeclared(c: Composition, environments: map<Id, Environment>) {
    && environments.Keys == c.profiles.Keys
    && forall p, v | p in environments && v in environments[p] :: DeclaredFor(c, p, v)
  }

  lemma {:induction false} FlattenHolds<T>(table: seq<T>, slots: T -> seq<Slot>, i: nat, j: nat)
    requires i < |table| && j < |slots(table[i])|
    ensures slots(table[i])[j] in Flatten(table, slots)
    decreases |table|
  {
    var last := |table| - 1;
    if i < last {
      FlattenHolds(table[..last], slots, i, j);
    } else {
      assert slots(table[last])[j] in slots(table[last]);
    }
  }

  lemma {:induction false} FlattenComes<T>(table: seq<T>, slots: T -> seq<Slot>, slot: Slot)
    returns (i: nat, j: nat)
    requires slot in Flatten(table, slots)
    ensures i < |table| && j < |slots(table[i])| && slots(table[i])[j] == slot
    decreases |table|
  {
    var last := |table| - 1;
    if slot in Flatten(table[..last], slots) {
      i, j := FlattenComes(table[..last], slots, slot);
    } else {
      i := last;
      j :| 0 <= j < |slots(table[last])| && slots(table[last])[j] == slot;
    }
  }

  /** What a declared slot leaves in the environments. */
  lemma SlotLeaves(
    inputs: Inputs, slots: seq<Slot>, slot: Slot, profiles: set<Id>, environments: map<Id, Environment>)
    requires AllRender(inputs, slots) && OneWriterEach(slots) && slot in slots
    requires slot.profile in profiles && Represents(environments, profiles, Effect(inputs, slots))
    ensures Renders(inputs, slot.content) && slot.profile in environments
    ensures match Render(inputs, slot.content)
            case Some(value) => Holds(environments, slot.profile, slot.variable, value)
            case None => slot.variable !in environments[slot.profile]
  {
    var k :| 0 <= k < |slots| && slots[k] == slot;
    EveryWriteSurvives(inputs, slots, k);
  }

  /** A validated and built composition, for the lemmas below. */
  ghost predicate Built(c: Composition, inputs: Inputs, environments: map<Id, Environment>) {
    && Admissible(c.profiles, Slots(c)) && AllRender(inputs, Slots(c))
    && Represents(environments, c.profiles.Keys, Effect(inputs, Slots(c)))
  }

  lemma BuiltSlot(c: Composition, inputs: Inputs, environments: map<Id, Environment>, slot: Slot)
    requires Built(c, inputs, environments) && slot in Slots(c)
    ensures Renders(inputs, slot.content) && slot.profile in environments
    ensures match Render(inputs, slot.content)
            case Some(value) => Holds(environments, slot.profile, slot.variable, value)
            case None => slot.variable !in environments[slot.profile]
  {
    var k :| 0 <= k < |Slots(c)| && Slots(c)[k] == slot;
    SlotLeaves(inputs, Slots(c), slot, c.profiles.Keys, environments);
  }

  lemma EndpointsAreProjected(c: Composition, inputs: Inputs, environments: map<Id, Environment>)
    requires Built(c, inputs, environments)
    ensures EndpointsProjected(c, inputs, environments)
  {
    forall i, j | 0 <= i < |c.dependencies| && 0 <= j < |c.dependencies[i].endpoints|
      ensures EndpointProjected(c.dependencies[i], c.dependencies[i].endpoints[j], inputs, environments)
    {
      FlattenHolds(c.dependencies, DependencySlots, i, j);
      BuiltSlot(c, inputs, environments, DependencySlots(c.dependencies[i])[j]);
    }
  }

  lemma CallersAreProjected(c: Composition, inputs: Inputs, environments: map<Id, Environment>)
    requires Built(c, inputs, environments)
    ensures CallersProjected(c, environments)
  {
    forall i | 0 <= i < |c.callers|
      ensures Holds(environments, c.callers[i].consumer, c.callers[i].consumerVariable, c.callers[i].callerId)
      ensures Holds(environments, c.callers[i].provider, c.callers[i].providerVariable, c.callers[i].callerId)
    {
      FlattenHolds(c.callers, CallerSlots, i, 0);
      FlattenHolds(c.callers, CallerSlots, i, 1);
      BuiltSlot(c, inputs, environments, CallerSlots(c.callers[i])[0]);
      BuiltSlot(c, inputs, environments, CallerSlots(c.callers[i])[1]);
    }
  }

  lemma CredentialsAreProjected(c: Composition, inputs: Inputs, environments: map<Id, Environment>)
    requires Built(c, inputs, environments)
    ensures CredentialsProjected(c, inputs, environments)
  {
    forall i, j | 0 <= i < |c.credentials| && 0 <= j < |c.credentials[i].projections|
      ensures var id, to := c.credentials[i].bindingId, c.credentials[i].projections[j];
              if id in inputs.credentials then Holds(environments, to.profile, to.variable, inputs.credentials[id])
              else to.profile in environments && to.variable !in environments[to.profile]
    {
      FlattenHolds(c.credentials, CredentialSlots, i, j);
      BuiltSlot(c, inputs, environments, CredentialSlots(c.credentials[i])[j]);
    }
  }

  lemma BindingsAreProjected(c: Composition, inputs: Inputs, environments: map<Id, Environment>)
    requires Built(c, inputs, environments)
    ensures BindingsProjected(c, inputs, environments)
  {
    forall i | 0 <= i < |c.bindings| ensures BindingProjected(c.bindings[i], inputs, environments) {
      FlattenHolds(c.bindings, BindingSlots, i, 0);
      BuiltSlot(c, inputs, environments, BindingSlots(c.bindings[i])[0]);
    }
  }

  lemma SlotIsDeclared(c: Composition, slot: Slot)
    requires slot in Slots(c)
    ensures DeclaredFor(c, slot.profile, slot.variable)
  {
    if slot in Flatten(c.dependencies, DependencySlots) {
      var i, j := FlattenComes(c.dependencies, DependencySlots, slot);
      assert c.dependencies[i].endpoints[j].variable == slot.variable;
    } else if slot in Flatten(c.callers, CallerSlots) {
      var i, j := FlattenComes(c.callers, CallerSlots, slot);
      assert j == 0 || j == 1;
    } else if slot in Flatten(c.credentials, CredentialSlots) {
      var i, j := FlattenComes(c.credentials, CredentialSlots, slot);
      assert c.credentials[i].projections[j] == Projection(slot.profile, slot.variable);
    } else {
      var i, j := FlattenComes(c.bindings, BindingSlots, slot);
    }
  }

  lemma OnlyDeclaredIsProjected(c: Composition, inputs: Inputs, environments: map<Id, Environment>)
    requires Built(c, inputs, environments)
    ensures OnlyDeclared(c, environments)
  {
    forall p, v | p in environments && v in environments[p] ensures DeclaredFor(c, p, v) {
      assert (p, v) in Effect(inputs, Slots(c));
      var k := EffectIsWritten(inputs, Slots(c), (p, v));
      SlotIsDeclared(c, Slots(c)[k]);
    }
  }

  predicate BindingBuildable(b: ProfileBinding, inputs: Inputs) {
    match b.source
    case Literal(text) => true
    case ProfileService(service) => b.profile in inputs.namespaces && (service.hostPort || service.scheme.Some?)
    case ProfileNamespace(source) => source in inputs.namespaces
    case OperatorTemplate(pieces) => |pieces| == 2 && IsLabel(pieces[0] + inputs.operator + pieces[1])
    case Unsupported => false
  }

  /** What the builder looks up and would raise without. */
  predicate Buildable(c: Composition, inputs: Inputs) {
    && (forall i | 0 <= i < |c.dependencies| :: c.dependencies[i].provider in inputs.namespaces)
    && (forall i, j | 0 <= i < |c.dependencies| && 0 <= j < |c.dependencies[i].endpoints| ::
          c.dependencies[i].endpoints[j].service.hostPort || c.dependencies[i].endpoints[j].service.scheme.Some?)
    && forall i | 0 <= i < |c.bindings| :: BindingBuildable(c.bindings[i], inputs)
  }

  lemma BuildableRenders(c: Composition, inputs: Inputs)
    requires Buildable(c, inputs)
    ensures ProvidersPlaced(c, inputs) && AllRender(inputs, Slots(c))
  {
    forall slot | slot in Slots(c) ensures Renders(inputs, slot.content) {
      if slot in Flatten(c.dependencies, DependencySlots) {
        var i, j := FlattenComes(c.dependencies, DependencySlots, slot);
        assert slot.content == Address(c.dependencies[i].endpoints[j].service, c.dependencies[i].provider);
      } else if slot in Flatten(c.callers, CallerSlots) {
        var i, j := FlattenComes(c.callers, CallerSlots, slot);
        assert j == 0 || j == 1;
      } else if slot in Flatten(c.credentials, CredentialSlots) {
        var i, j := FlattenComes(c.credentials, CredentialSlots, slot);
      } else {
        var i, j := FlattenComes(c.bindings, BindingSlots, slot);
        assert BindingBuildable(c.bindings[i], inputs);
      }
    }
    forall i | 0 <= i < |Slots(c)| ensures Renders(inputs, Slots(c)[i].content) { assert Slots(c)[i] in Slots(c); }
  }

  lemma RenderedSlot(c: Composition, inputs: Inputs, slot: Slot)
    requires AllRender(inputs, Slots(c)) && slot in Slots(c)
    ensures Renders(inputs, slot.content)
  {
  }

  lemma RendersBuildable(c: Composition, inputs: Inputs)
    requires ProvidersPlaced(c, inputs) && AllRender(inputs, Slots(c))
    ensures Buildable(c, inputs)
  {
    forall i, j | 0 <= i < |c.dependencies| && 0 <= j < |c.dependencies[i].endpoints|
      ensures c.dependencies[i].endpoints[j].service.hostPort || c.dependencies[i].endpoints[j].service.scheme.Some?
    {
      FlattenHolds(c.dependencies, DependencySlots, i, j);
      RenderedSlot(c, inputs, DependencySlots(c.dependencies[i])[j]);
    }
    forall i | 0 <= i < |c.bindings| ensures BindingBuildable(c.bindings[i], inputs) {
      FlattenHolds(c.bindings, BindingSlots, i, 0);
      RenderedSlot(c, inputs, BindingSlots(c.bindings[i])[0]);
    }
  }

  /** build_profile_environments: the provider namespaces, then the slots of the four tables in the
      code's order. */
  method BuildEnvironments(c: Composition, inputs: Inputs) returns (result: Result<map<Id, Environment>, Unbuilt>)
    requires Admissible(c.profiles, Slots(c))
    ensures result.Success? <==> ProvidersPlaced(c, inputs) && AllRender(inputs, Slots(c))
    ensures result.Success? <==> Buildable(c, inputs)
    ensures result.Success? ==> Represents(result.value, c.profiles.Keys, Effect(inputs, Slots(c)))
    ensures result.Success? ==>
              && EndpointsProjected(c, inputs, result.value) && CallersProjected(c, result.value)
              && CredentialsProjected(c, inputs, result.value) && BindingsProjected(c, inputs, result.value)
              && OnlyDeclared(c, result.value)
  {
    if Buildable(c, inputs) { BuildableRenders(c, inputs); }
    if ProvidersPlaced(c, inputs) && AllRender(inputs, Slots(c)) { RendersBuildable(c, inputs); }
    for i := 0 to |c.dependencies|
      invariant forall j | 0 <= j < i :: c.dependencies[j].provider in inputs.namespaces
    {
      var provider := c.dependencies[i].provider;
      if provider !in inputs.namespaces { return Failure(NoNamespace(provider)); }
    }
    var written := WriteAll(c.profiles.Keys, Slots(c), inputs);
    match written
    case Success(environments) =>
      result := Success(environments);
      EndpointsAreProjected(c, inputs, environments);
      CallersAreProjected(c, inputs, environments);
      CredentialsAreProjected(c, inputs, environments);
      BindingsAreProjected(c, inputs, environments);
      OnlyDeclaredIsProjected(c, inputs, environments);
    case Failure(slot) => result := Failure(Unrendered(slot));
  }

  /** Every value in place was written by some slot of that target. */
  lemma {:induction false} EffectIsWritten(inputs: Inputs, slots: seq<Slot>, target: (Id, string)) returns (i: nat)
    requires AllRender(inputs, slots) && target in Effect(inputs, slots)
    ensures i < |slots| && TargetOf(slots[i]) == target
    ensures Render(inputs, slots[i].content) == Some(Effect(inputs, slots)[target])
  {
    var last := |slots| - 1;
    if TargetOf(slots[last]) == target && Render(inputs, slots[last].content).Some? {
      i := last;
    } else {
      i := EffectIsWritten(inputs, slots[..last], target);
    }
  }

  /** With one writer for each target, no write is lost and none is overwritten. */
  lemma {:induction false} EveryWriteSurvives(inputs: Inputs, slots: seq<Slot>, i: nat)
    requires AllRender(inputs, slots) && OneWriterEach(slots) && i < |slots|
    ensures match Render(inputs, slots[i].content)
            case Some(value) =>
              TargetOf(slots[i]) in Effect(inputs, slots) && Effect(inputs, slots)[TargetOf(slots[i])] == value
            case None => TargetOf(slots[i]) !in Effect(inputs, slots)
  {
    var last := |slots| - 1;
    if i < last {
      EveryWriteSurvives(inputs, slots[..last], i);
    } else if TargetOf(slots[i]) in Effect(inputs, slots[..last]) {
      var j := EffectIsWritten(inputs, slots[..last], TargetOf(slots[i]));
    }
  }

  /** A slot occurs once where every target has one writer. */
  lemma {:induction false} OccursOnce(slots: seq<Slot>, slot: Slot)
    requires OneWriterEach(slots)
    ensures multiset(slots)[slot] <= 1
  {
    if slots != [] {
      var last := |slots| - 1;
      assert slots == slots[..last] + [slots[last]];
      OccursOnce(slots[..last], slot);
      forall i | 0 <= i < last ensures slots[..last][i] != slots[last] {
        assert TargetOf(slots[i]) != TargetOf(slots[last]);
      }
    }
  }

  lemma OccursTwice(slots: seq<Slot>, i: nat, j: nat)
    requires i < j < |slots| && slots[i] == slots[j]
    ensures multiset(slots)[slots[i]] >= 2
  {
    assert slots == slots[..j] + slots[j..];
    assert slots[i] in slots[..j] && slots[j] in slots[j..];
  }

  /** Reordering the slots leaves each target its one writer. */
  lemma OneWriterStays(slots: seq<Slot>, shuffled: seq<Slot>)
    requires multiset(slots) == multiset(shuffled) && OneWriterEach(slots)
    ensures OneWriterEach(shuffled)
  {
    forall i, j | 0 <= i < j < |shuffled| ensures TargetOf(shuffled[i]) != TargetOf(shuffled[j]) {
      assert shuffled[i] in multiset(shuffled) && shuffled[j] in multiset(shuffled);
      if shuffled[i] == shuffled[j] {
        OccursTwice(shuffled, i, j);
        OccursOnce(slots, shuffled[i]);
      } else {
        var a :| 0 <= a < |slots| && slots[a] == shuffled[i];
        var b :| 0 <= b < |slots| && slots[b] == shuffled[j];
        assert a != b;
      }
    }
  }

  lemma ShuffleKeeps(inputs: Inputs, slots: seq<Slot>, shuffled: seq<Slot>)
    requires multiset(slots) == multiset(shuffled)
    requires AllRender(inputs, slots) && OneWriterEach(slots)
    ensures AllRender(inputs, shuffled) && OneWriterEach(shuffled)
  {
    OneWriterStays(slots, shuffled);
    forall i | 0 <= i < |shuffled| ensures Renders(inputs, shuffled[i].content) {
      assert shuffled[i] in multiset(shuffled);
      assert shuffled[i] in slots;
    }
  }

  /** A composition that declares the same slots in any other order renders too, and projects the same
      environments. */
  lemma OrderIndependent(inputs: Inputs, slots: seq<Slot>, shuffled: seq<Slot>)
    requires multiset(slots) == multiset(shuffled)
    requires AllRender(inputs, slots) && OneWriterEach(slots)
    ensures AllRender(inputs, shuffled) && Effect(inputs, slots) == Effect(inputs, shuffled)
  {
    ShuffleKeeps(inputs, slots, shuffled);
    SameEffect(inputs, slots, shuffled);
  }

  lemma SameEffect(inputs: Inputs, slots: seq<Slot>, shuffled: seq<Slot>)
    requires multiset(slots) == multiset(shuffled)
    requires AllRender(inputs, slots) && AllRender(inputs, shuffled)
    requires OneWriterEach(slots) && OneWriterEach(shuffled)
    ensures Effect(inputs, slots) == Effect(inputs, shuffled)
  {
    var a, b := Effect(inputs, slots), Effect(inputs, shuffled);
    forall target | target in a ensures target in b && a[target] == b[target] {
      SameWrite(inputs, slots, shuffled, target);
    }
    forall target | target in b ensures target in a {
      SameWrite(inputs, shuffled, slots, target);
    }
  }

  lemma SameWrite(inputs: Inputs, slots: seq<Slot>, shuffled: seq<Slot>, target: (Id, string))
    requires multiset(slots) == multiset(shuffled)
    requires AllRender(inputs, slots) && AllRender(inputs, shuffled)
    requires OneWriterEach(slots) && OneWriterEach(shuffled)
    requires target in Effect(inputs, slots)
    ensures target in Effect(inputs, shuffled) && Effect(inputs, slots)[target] == Effect(inputs, shuffled)[target]
  {
    var i := EffectIsWritten(inputs, slots, target);
    assert slots[i] in multiset(slots);
    var j :| 0 <= j < |shuffled| && shuffled[j] == slots[i];
    EveryWriteSurvives(inputs, shuffled, j);
  }

  // ------------------------------------------------------------------
  // Two compositions that differ only in the order of their tables
  // ------------------------------------------------------------------

  lemma {:induction false} FlattenAdds<T>(a: seq<T>, b: seq<T>, slots: T -> seq<Slot>)
    ensures Flatten(a + b, slots) == Flatten(a, slots) + Flatten(b, slots)
    decreases |b|
  {
    if b == [] {
      assert a + b == a;
    } else {
      var last := |b| - 1;
      assert (a + b)[..|a + b| - 1] == a + b[..last];
      FlattenAdds(a, b[..last], slots);
    }
  }

  lemma FlattenOne<T>(x: T, slots: T -> seq<Slot>)
    ensures Flatten([x], slots) == slots(x)
  {
    assert [x][..0] == [];
  }

  /** One entry more in a table brings its own slots along, wherever it stands. */
  lemma FlattenInsert<T>(a: seq<T>, x: T, b: seq<T>, slots: T -> seq<Slot>)
    ensures multiset(Flatten(a + [x] + b, slots)) == multiset(Flatten(a + b, slots)) + multiset(slots(x))
  {
    FlattenAdds(a + [x], b, slots);
    FlattenAdds(a, [x], slots);
    FlattenAdds(a, b, slots);
    FlattenOne(x, slots);
  }

  lemma TakenOut<T>(s: seq<T>, j: nat) returns (rest: seq<T>)
    requires j < |s|
    ensures rest == s[..j] + s[j + 1..] && s == s[..j] + [s[j]] + s[j + 1..]
    ensures multiset(rest) == multiset(s) - multiset{s[j]}
  {
    rest := s[..j] + s[j + 1..];
    assert s == s[..j] + [s[j]] + s[j + 1..];
    assert multiset(s) == multiset(rest) + multiset{s[j]};
  }

  lemma {:induction false} FlattenShuffles<T>(a: seq<T>, b: seq<T>, slots: T -> seq<Slot>)
    requires multiset(a) == multiset(b)
    ensures multiset(Flatten(a, slots)) == multiset(Flatten(b, slots))
    decreases |a|
  {
    if a == [] {
      assert |multiset(b)| == 0;
    } else {
      var x, last := a[|a| - 1], |a| - 1;
      assert x in multiset(b);
      var j :| 0 <= j < |b| && b[j] == x;
      var less := TakenOut(a, last);
      var rest := TakenOut(b, j);
      assert less == a[..last] && a == a[..last] + [x] + [];
      FlattenShuffles(less, rest, slots);
      FlattenInsert(a[..last], x, [], slots);
      assert a[..last] + [] == less;
      FlattenInsert(b[..j], x, b[j + 1..], slots);
    }
  }

  /** The same declarations, in any order within each of the four tables. */
  predicate SameDeclarations(c: Composition, d: Composition) {
    && c.profiles == d.profiles
    && multiset(c.dependencies) == multiset(d.dependencies)
    && multiset(c.callers) == multiset(d.callers)
    && multiset(c.credentials) == multiset(d.credentials)
    && multiset(c.bindings) == multiset(d.bindings)
  }

  lemma SameSlots(c: Composition, d: Composition)
    requires SameDeclarations(c, d)
    ensures multiset(Slots(c)) == multiset(Slots(d))
  {
    FlattenShuffles(c.dependencies, d.dependencies, DependencySlots);
    FlattenShuffles(c.callers, d.callers, CallerSlots);
    FlattenShuffles(c.credentials, d.credentials, CredentialSlots);
    FlattenShuffles(c.bindings, d.bindings, BindingSlots);
  }

  lemma StillAdmissible(profiles: map<Id, string>, slots: seq<Slot>, shuffled: seq<Slot>)
    requires multiset(slots) == multiset(shuffled) && Admissible(profiles, slots)
    ensures Admissible(profiles, shuffled)
  {
    OneWriterStays(slots, shuffled);
    forall i | 0 <= i < |shuffled| ensures shuffled[i].profile in profiles && IsVariable(shuffled[i].variable) {
      assert shuffled[i] in multiset(shuffled);
      assert shuffled[i] in slots;
    }
  }

  /** Permuting the declaration tables of a validated composition changes nothing: it is still admissible,
      the builder succeeds on both or on neither, and the environments are the same. */
  method BuildPermuted(c: Composition, d: Composition, inputs: Inputs)
    returns (first: Result<map<Id, Environment>, Unbuilt>, second: Result<map<Id, Environment>, Unbuilt>)
    requires SameDeclarations(c, d) && Admissible(c.profiles, Slots(c))
    ensures first.Success? <==> second.Success?
    ensures first.Success? ==> first == second
  {
    SameSlots(c, d);
    StillAdmissible(c.profiles, Slots(c), Slots(d));
    first := BuildEnvironments(c, inputs);
    second := BuildEnvironments(d, inputs);
    if ProvidersPlaced(c, inputs) { SameProviders(c, d, inputs); }
    if ProvidersPlaced(d, inputs) { SameProviders(d, c, inputs); }
    if AllRender(inputs, Slots(c)) { OrderIndependent(inputs, Slots(c), Slots(d)); }
    if AllRender(inputs, Slots(d)) { OrderIndependent(inputs, Slots(d), Slots(c)); }
    if first.Success? {
      SameEnvironments(first.value, second.value, c.profiles.Keys, Effect(inputs, Slots(c)));
    }
  }

  lemma SameProviders(c: Composition, d: Composition, inputs: Inputs)
    requires SameDeclarations(c, d) && ProvidersPlaced(c, inputs)
    ensures ProvidersPlaced(d, inputs)
  {
    forall i | 0 <= i < |d.dependencies| ensures d.dependencies[i].provider in inputs.namespaces {
      assert d.dependencies[i] in multiset(d.dependencies);
      assert d.dependencies[i] in c.dependencies;
    }
  }

  lemma SameEnvironments(
    a: map<Id, Environment>, b: map<Id, Environment>, profiles: set<Id>, effect: map<(Id, string), string>)
    requires Represents(a, profiles, effect) && Represents(b, profiles, effect)
    ensures a == b
  {
    forall p | p in a ensures a[p] == b[p] {
      forall v ensures (v in a[p] <==> v in b[p]) && (v in a[p] ==> a[p][v] == b[p][v]) {
        assert (v in a[p]) <==> (p, v) in effect;
        assert (v in b[p]) <==> (p, v) in effect;
      }
    }
  }

  // ------------------------------------------------------------------
  // bounded_child_environment and bounded_standalone_environment
  // ------------------------------------------------------------------

  function DeclaredVariables(c: Composition): set<string> {
    set slot | slot in Slots(c) :: slot.variable
  }

  /** Those are the variables that some declaration names for some profile. */
  lemma DeclaredVariablesAre(c: Composition, v: string)
    ensures v in DeclaredVariables(c) <==> exists p :: DeclaredFor(c, p, v)
  {
    if v in DeclaredVariables(c) {
      var slot :| slot in Slots(c) && slot.variable == v;
      SlotIsDeclared(c, slot);
    }
    if p :| DeclaredFor(c, p, v) {
      var slot := DeclaredIsSlot(c, p, v);
    }
  }

  lemma DeclaredIsSlot(c: Composition, p: Id, v: string) returns (slot: Slot)
    requires DeclaredFor(c, p, v)
    ensures slot in Slots(c) && slot.variable == v && slot.profile == p
  {
    if i, j :| 0 <= i < |c.dependencies| && 0 <= j < |c.dependencies[i].endpoints|
               && c.dependencies[i].consumer == p && c.dependencies[i].endpoints[j].variable == v {
      FlattenHolds(c.dependencies, DependencySlots, i, j);
      slot := DependencySlots(c.dependencies[i])[j];
    } else if i :| 0 <= i < |c.callers| && c.callers[i].consumer == p && c.callers[i].consumerVariable == v {
      FlattenHolds(c.callers, CallerSlots, i, 0);
      slot := CallerSlots(c.callers[i])[0];
    } else if i :| 0 <= i < |c.callers| && c.callers[i].provider == p && c.callers[i].providerVariable == v {
      FlattenHolds(c.callers, CallerSlots, i, 1);
      slot := CallerSlots(c.callers[i])[1];
    } else if i, j :| 0 <= i < |c.credentials| && 0 <= j < |c.credentials[i].projections|
                      && c.credentials[i].projections[j] == Projection(p, v) {
      FlattenHolds(c.credentials, CredentialSlots, i, j);
      slot := CredentialSlots(c.credentials[i])[j];
    } else {
      var i :| 0 <= i < |c.bindings| && c.bindings[i].profile == p && c.bindings[i].variable == v;
      FlattenHolds(c.bindings, BindingSlots, i, 0);
      slot := BindingSlots(c.bindings[i])[0];
    }
  }

  function BoundedChild(c: Composition, base: Environment, profileEnvironment: Environment): (r: Environment)
    ensures forall v | v in DeclaredVariables(c) ::
              if v in profileEnvironment then v in r && r[v] == profileEnvironment[v] else v !in r
    ensures forall v | v !in DeclaredVariables(c) && v !in profileEnvironment ::
              if v in base then v in r && r[v] == base[v] else v !in r
  {
    (map v | v in base && v !in DeclaredVariables(c) :: base[v]) + profileEnvironment
  }

  /** Whatever the parent's environment held, a child sees a declared variable only when its own
      profile projects one there, and every other variable exactly as the parent had it. */
  lemma ChildSeesOnlyItsOwn(
    c: Composition, inputs: Inputs, environments: map<Id, Environment>, base: Environment, p: Id, v: string)
    requires Admissible(c.profiles, Slots(c)) && p in c.profiles && AllRender(inputs, Slots(c))
    requires Represents(environments, c.profiles.Keys, Effect(inputs, Slots(c)))
    ensures var child := BoundedChild(c, base, environments[p]);
            if v in DeclaredVariables(c) then
              (v in child <==> (p, v) in Effect(inputs, Slots(c)))
              && (v in child ==> exists i | 0 <= i < |Slots(c)| ::
                    TargetOf(Slots(c)[i]) == (p, v) && Render(inputs, Slots(c)[i].content) == Some(child[v]))
            else (v in child <==> v in base) && (v in base ==> child[v] == base[v])
  {
    var child := BoundedChild(c, base, environments[p]);
    if (p, v) in Effect(inputs, Slots(c)) {
      var i := EffectIsWritten(inputs, Slots(c), (p, v));
      assert Slots(c)[i] in Slots(c);
    }
  }

  const CONTEXT := {"DEVINT_COMPOSITION_ID", "DEVINT_COMPOSITION_ROOT_PROFILE_ID", "DEVINT_COMPOSITION_ACTION"}

  function DeclaredAnywhere(compositions: seq<Composition>): set<string> {
    set i, v | 0 <= i < |compositions| && v in DeclaredVariables(compositions[i]) :: v
  }

  /** The loop over every registered composition: a standalone run keeps exactly the variables that
      no composition declares and that are not composition context. */
  method BoundedStandalone(compositions: seq<Composition>, base: Environment) returns (bounded: Environment)
    ensures bounded == map v | v in base && v !in DeclaredAnywhere(compositions) && v !in CONTEXT :: base[v]
    ensures forall v ::
              v in bounded <==>
                && v in base && v != "DEVINT_COMPOSITION_ID" && v != "DEVINT_COMPOSITION_ROOT_PROFILE_ID"
                && v != "DEVINT_COMPOSITION_ACTION"
                && !exists i | 0 <= i < |compositions| :: v in DeclaredVariables(compositions[i])
  {
    bounded := base;
    for i := 0 to |compositions|
      invariant bounded == map v | v in base && v !in DeclaredAnywhere(compositions[..i]) :: base[v]
    {
      DeclaredNext(compositions, i);
      bounded := BoundedChild(compositions[i], bounded, map[]);
    }
    assert compositions[..|compositions|] == compositions;
    bounded := bounded - CONTEXT;
  }

  lemma DeclaredNext(compositions: seq<Composition>, i: nat)
    requires i < |compositions|
    ensures DeclaredAnywhere(compositions[..i + 1])
         == DeclaredAnywhere(compositions[..i]) + DeclaredVariables(compositions[i])
  {
    var now, before := compositions[..i + 1], compositions[..i];
    forall v | v in DeclaredAnywhere(now) ensures v in DeclaredAnywhere(before) + DeclaredVariables(compositions[i]) {
      var j :| 0 <= j < |now| && v in DeclaredVariables(now[j]);
      if j < i { assert before[j] == now[j]; }
    }
    forall v | v in DeclaredAnywhere(before) ensures v in DeclaredAnywhere(now) {
      var j :| 0 <= j < |before| && v in DeclaredVariables(before[j]);
      assert now[j] == before[j];
    }
    assert now[i] == compositions[i];
  }
}
