/**
 The contract checks of resolve_runtime_composition, and the environments that a
 resolved composition projects into its profiles.

 Every declared projection is a Slot: a profile, a variable, and what will be written
 there. Validation claims the target of each slot once; the builder writes each slot.
 */
module CompositionContract {
  import opened Wrappers
  import opened Text
  import opened CompositionGraph

  const OWNER := "platform-engineering"

  datatype Service = Service(name: string, port: int, hostPort: bool, scheme: Option<string>)

  datatype Endpoint = Endpoint(variable: string, service: Service)

  datatype Dependency = Dependency(consumer: Id, provider: Id, endpoints: seq<Endpoint>)

  datatype CallerBinding = CallerBinding(
    ownerRepo: string, consumer: Id, provider: Id, callerId: string,
    consumerVariable: string, providerVariable: string)

  datatype Projection = Projection(profile: Id, variable: string)

  datatype CredentialBinding = CredentialBinding(
    bindingId: string, ownerRepo: string, valueSource: string, retention: string, projections: seq<Projection>)

  /** An operator template is given by its pieces between the {operator} tokens. */
  datatype Source =
    | Literal(text: string)
    | ProfileService(service: Service)
    | ProfileNamespace(profile: Id)
    | OperatorTemplate(pieces: seq<string>)
    | Unsupported

  datatype ProfileBinding = ProfileBinding(ownerRepo: string, profile: Id, variable: string, source: Source)

  datatype Composition = Composition(
    ownerRepo: string, root: Id, profiles: map<Id, string>,
    dependencies: seq<Dependency>, callers: seq<CallerBinding>,
    credentials: seq<CredentialBinding>, bindings: seq<ProfileBinding>)

  datatype Profile = Profile(lifecycle: string, runtimeOwner: string)

  // ------------------------------------------------------------------
  // Field shapes
  // ------------------------------------------------------------------

  predicate Lower(c: char) { 'a' <= c <= 'z' || '0' <= c <= '9' }

  predicate IsVariable(s: string) {
    && s != [] && 'A' <= s[0] <= 'Z'
    && forall i | 0 <= i < |s| :: 'A' <= s[i] <= 'Z' || '0' <= s[i] <= '9' || s[i] == '_'
  }

  /** Dot-separated labels of lower-case letters, digits and inner hyphens. */
  predicate IsServiceName(s: string) {
    && s != [] && Lower(s[0]) && Lower(s[|s| - 1])
    && (forall i | 0 <= i < |s| :: Lower(s[i]) || s[i] == '-' || s[i] == '.')
    && (forall i | 0 < i < |s| - 1 && s[i] == '.' :: Lower(s[i - 1]) && Lower(s[i + 1]))
  }

  predicate IsService(s: Service) {
    && IsServiceName(s.name) && 1 <= s.port <= 65535
    && if s.hostPort then s.scheme == None else s.scheme == Some("http") || s.scheme == Some("https")
  }

  predicate IsSource(profiles: map<Id, string>, source: Source) {
    match source
    case Literal(text) => text != []
    case ProfileService(service) => IsService(service)
    case ProfileNamespace(profile) => profile in profiles
    case OperatorTemplate(pieces) =>
      |pieces| == 2 && forall c | c in pieces[0] + pieces[1] :: Lower(c) || c == '-'
    case Unsupported => false
  }

  // ------------------------------------------------------------------
  // Slots
  // ------------------------------------------------------------------

  datatype Content =
    | Address(service: Service, host: Id)
    | Caller(callerId: string)
    | Credential(bindingId: string)
    | Declared(source: Source, profile: Id)

  datatype Slot = Slot(profile: Id, variable: string, content: Content)

  function DependencySlots(d: Dependency): seq<Slot> {
    seq(|d.endpoints|, i requires 0 <= i < |d.endpoints| =>
      Slot(d.consumer, d.endpoints[i].variable, Address(d.endpoints[i].service, d.provider)))
  }

  function CallerSlots(b: CallerBinding): seq<Slot> {
    [Slot(b.consumer, b.consumerVariable, Caller(b.callerId)),
     Slot(b.provider, b.providerVariable, Caller(b.callerId))]
  }

  function CredentialSlots(b: CredentialBinding): seq<Slot> {
    seq(|b.projections|, i requires 0 <= i < |b.projections| =>
      Slot(b.projections[i].profile, b.projections[i].variable, Credential(b.bindingId)))
  }

  function BindingSlots(b: ProfileBinding): seq<Slot> {
    [Slot(b.profile, b.variable, Declared(b.source, b.profile))]
  }

  function Flatten<T>(table: seq<T>, slots: T -> seq<Slot>): (r: seq<Slot>) {
    if table == [] then [] else Flatten(table[..|table| - 1], slots) + slots(table[|table| - 1])
  }

  function Slots(c: Composition): seq<Slot> {
    Flatten(c.dependencies, DependencySlots) + Flatten(c.callers, CallerSlots)
    + Flatten(c.credentials, CredentialSlots) + Flatten(c.bindings, BindingSlots)
  }

  function TargetOf(slot: Slot): (Id, string) { (slot.profile, slot.variable) }

  function Targets(slots: seq<Slot>): set<(Id, string)> {
    set slot | slot in slots :: TargetOf(slot)
  }

  predicate OneWriterEach(slots: seq<Slot>) {
    forall i, j | 0 <= i < j < |slots| :: TargetOf(slots[i]) != TargetOf(slots[j])
  }

  /** What _validate_projection_target accepts over a whole sequence of targets. */
  predicate Admissible(profiles: map<Id, string>, slots: seq<Slot>) {
    && (forall i | 0 <= i < |slots| :: slots[i].profile in profiles && IsVariable(slots[i].variable))
    && OneWriterEach(slots)
  }

  lemma AdmissiblePrefix(profiles: map<Id, string>, slots: seq<Slot>, more: seq<Slot>)
    requires Admissible(profiles, slots + more)
    ensures Admissible(profiles, slots)
  {
    assert forall i | 0 <= i < |slots| :: (slots + more)[i] == slots[i];
  }

  lemma {:induction false} FlattenSplits<T>(table: seq<T>, slots: T -> seq<Slot>, k: nat)
    requires k <= |table|
    ensures exists more :: Flatten(table, slots) == Flatten(table[..k], slots) + more
    decreases |table|
  {
    if k == |table| {
      assert table[..k] == table;
      assert Flatten(table, slots) == Flatten(table[..k], slots) + [];
    } else {
      var shorter := table[..|table| - 1];
      FlattenSplits(shorter, slots, k);
      assert shorter[..k] == table[..k];
      var more :| Flatten(shorter, slots) == Flatten(table[..k], slots) + more;
      assert Flatten(table, slots) == Flatten(table[..k], slots) + (more + slots(table[|table| - 1]));
    }
  }

  // ------------------------------------------------------------------
  // The contract of a composition, apart from its graph
  // ------------------------------------------------------------------

  predicate DependencyOk(c: Composition, d: Dependency) {
    && d.consumer in c.profiles && d.provider in c.profiles && d.consumer != d.provider
    && forall i | 0 <= i < |d.endpoints| :: IsService(d.endpoints[i].service)
  }

  /** Some declared dependency makes the provider a provider of the consumer. */
  predicate HasEdge(dependencies: seq<Dependency>, consumer: Id, provider: Id) {
    exists i | 0 <= i < |dependencies| :: dependencies[i].consumer == consumer && dependencies[i].provider == provider
  }

  predicate CallerOk(c: Composition, b: CallerBinding) {
    && b.ownerRepo == OWNER && b.consumer in c.profiles && b.provider in c.profiles
    && b.consumer != b.provider && !IsBlank(b.callerId)
    && HasEdge(c.dependencies, b.consumer, b.provider)
  }

  predicate CredentialOk(b: CredentialBinding) {
    b.ownerRepo == OWNER && b.valueSource == "runtime-generated" && b.retention == "composition-lifetime"
  }

  predicate BindingOk(c: Composition, b: ProfileBinding) {
    b.ownerRepo == OWNER && IsSource(c.profiles, b.source)
  }

  predicate ProfilesOk(registry: map<Id, Profile>, c: Composition) {
    forall p | p in c.profiles :: p in registry && registry[p] == Profile(c.profiles[p], OWNER)
  }

  predicate DependenciesOk(c: Composition) {
    forall i | 0 <= i < |c.dependencies| :: DependencyOk(c, c.dependencies[i])
  }

  predicate CallersOk(c: Composition) {
    forall i | 0 <= i < |c.callers| :: CallerOk(c, c.callers[i])
  }

  predicate CredentialsOk(c: Composition) {
    forall i | 0 <= i < |c.credentials| :: CredentialOk(c.credentials[i])
  }

  predicate BindingsOk(c: Composition) {
    forall i | 0 <= i < |c.bindings| :: BindingOk(c, c.bindings[i])
  }

  predicate TablesOk(c: Composition) {
    DependenciesOk(c) && CallersOk(c) && CredentialsOk(c) && BindingsOk(c) && Admissible(c.profiles, Slots(c))
  }

  predicate Contracted(registry: map<Id, Profile>, c: Composition) {
    c.ownerRepo == OWNER && c.root in c.profiles && ProfilesOk(registry, c) && TablesOk(c)
  }

  function Providers(c: Composition, consumer: Id): set<Id> {
    set i | 0 <= i < |c.dependencies| && c.dependencies[i].consumer == consumer :: c.dependencies[i].provider
  }

  function GraphOf(c: Composition): Graph {
    map p | p in c.profiles :: Providers(c, p)
  }

  // ------------------------------------------------------------------
  // resolve_runtime_composition
  // ------------------------------------------------------------------

  datatype Error =
    | OwnerInvalid | ContractInvalid | ProfileInvalid | DependencyInvalid | ProjectionInvalid
    | CallerInvalid | CredentialInvalid | BindingInvalid | DependencyCycle | ProfileDisconnected

  /** projected_targets, with the slots that have claimed them. */
  class Claims {
    const profiles: map<Id, string>
    var targets: set<(Id, string)>
    ghost var claimed: seq<Slot>

    ghost predicate Valid()
      reads this
    {
      Admissible(profiles, claimed) && targets == Targets(claimed)
    }

    constructor (profiles: map<Id, string>)
      ensures Valid() && this.profiles == profiles && claimed == []
    {
      this.profiles := profiles;
      targets, claimed := {}, [];
    }

    /** _validate_projection_target: a known profile, a variable name, and a target nobody has. */
    method Claim(slot: Slot) returns (ok: bool)
      requires Valid()
      modifies this
      ensures ok <==> Admissible(profiles, old(claimed) + [slot])
      ensures ok ==> Valid() && claimed == old(claimed) + [slot]
    {
      var next := claimed + [slot];
      assert next[|claimed|] == slot && forall i | 0 <= i < |claimed| :: next[i] == claimed[i];
      if slot.profile !in profiles || !IsVariable(slot.variable) { return false; }
      if TargetOf(slot) in targets {
        ghost var i :| 0 <= i < |claimed| && TargetOf(claimed[i]) == TargetOf(slot);
        return false;
      }
      targets := targets + {TargetOf(slot)};
      claimed := next;
      ok := true;
    }

    /** Claim a whole group of slots in turn. */
    method ClaimAll(slots: seq<Slot>) returns (ok: bool)
      requires Valid()
      modifies this
      ensures ok <==> Admissible(profiles, old(claimed) + slots)
      ensures ok ==> Valid() && claimed == old(claimed) + slots
    {
      ghost var start := claimed;
      var i := 0;
      assert start + slots[..0] == start;
      while i < |slots|
        invariant 0 <= i <= |slots|
        invariant Valid() && claimed == start + slots[..i]
      {
        assert start + slots[..i + 1] == (start + slots[..i]) + [slots[i]];
        assert start + slots == (start + slots[..i + 1]) + slots[i + 1..];
        ok := Claim(slots[i]);
        if !ok {
          if Admissible(profiles, start + slots) { AdmissiblePrefix(profiles, start + slots[..i + 1], slots[i + 1..]); }
          return;
        }
        i := i + 1;
      }
      assert slots[..i] == slots;
      ok := true;
    }
  }

  datatype Fault = EntryFault | TargetFault

  lemma Regroup(a: seq<Slot>, b: seq<Slot>, more: seq<Slot>)
    ensures a + (b + more) == (a + b) + more
  {
  }

  /** Targets that clash within a prefix of a table clash in the table. */
  lemma ClashStays<T>(profiles: map<Id, string>, start: seq<Slot>, table: seq<T>, slots: T -> seq<Slot>, k: nat)
    requires k <= |table| && !Admissible(profiles, start + Flatten(table[..k], slots))
    ensures !Admissible(profiles, start + Flatten(table, slots))
  {
    FlattenSplits(table, slots, k);
    var part := Flatten(table[..k], slots);
    var more :| Flatten(table, slots) == part + more;
    Regroup(start, part, more);
    if Admissible(profiles, (start + part) + more) { AdmissiblePrefix(profiles, start + part, more); }
  }

  /** One of the four declaration tables: each entry is checked, then its targets are claimed. */
  method ClaimTable<T>(claims: Claims, table: seq<T>, slots: T -> seq<Slot>, accepts: T -> bool)
    returns (fault: Option<Fault>)
    requires claims.Valid()
    modifies claims
    ensures fault == None <==>
              && (forall i | 0 <= i < |table| :: accepts(table[i]))
              && Admissible(claims.profiles, old(claims.claimed) + Flatten(table, slots))
    ensures fault == Some(EntryFault) ==> exists i | 0 <= i < |table| :: !accepts(table[i])
    ensures fault == Some(TargetFault) ==> !Admissible(claims.profiles, old(claims.claimed) + Flatten(table, slots))
    ensures fault == None ==> claims.Valid() && claims.claimed == old(claims.claimed) + Flatten(table, slots)
  {
    ghost var start := claims.claimed;
    assert start + Flatten(table[..0], slots) == start;
    for i := 0 to |table|
      invariant claims.Valid() && claims.claimed == start + Flatten(table[..i], slots)
      invariant forall j | 0 <= j < i :: accepts(table[j])
    {
      if !accepts(table[i]) { return Some(EntryFault); }
      assert table[..i + 1][..i] == table[..i] && table[..i + 1][i] == table[i];
      assert start + Flatten(table[..i + 1], slots) == claims.claimed + slots(table[i]);
      var ok := claims.ClaimAll(slots(table[i]));
      if !ok {
        ClashStays(claims.profiles, start, table, slots, i + 1);
        return Some(TargetFault);
      }
    }
    assert table[..|table|] == table;
    fault := None;
  }

  /** The graph that the dependency table adds edges to, one dependency at a time. */
  method BuildGraph(c: Composition) returns (graph: Graph)
    requires DependenciesOk(c)
    ensures graph == GraphOf(c) && Closed(graph)
  {
    graph := map p | p in c.profiles :: {};
    for i := 0 to |c.dependencies|
      invariant graph.Keys == c.profiles.Keys
      invariant forall p | p in graph ::
                  graph[p] == set j | 0 <= j < i && c.dependencies[j].consumer == p :: c.dependencies[j].provider
    {
      var d := c.dependencies[i];
      graph := graph[d.consumer := graph[d.consumer] + {d.provider}];
    }
  }

  /** If the targets of all tables are admissible, so are those of the tables read so far. */
  lemma TablesPrefix(c: Composition)
    ensures Admissible(c.profiles, Slots(c)) ==>
              var a, b := Flatten(c.dependencies, DependencySlots), Flatten(c.callers, CallerSlots);
              var d := Flatten(c.credentials, CredentialSlots);
              Admissible(c.profiles, a) && Admissible(c.profiles, a + b) && Admissible(c.profiles, a + b + d)
  {
    var a, b := Flatten(c.dependencies, DependencySlots), Flatten(c.callers, CallerSlots);
    var d, e := Flatten(c.credentials, CredentialSlots), Flatten(c.bindings, BindingSlots);
    if Admissible(c.profiles, Slots(c)) {
      AdmissiblePrefix(c.profiles, a + b + d, e);
      AdmissiblePrefix(c.profiles, a + b, d);
      AdmissiblePrefix(c.profiles, a, b);
    }
  }

  function Blame(fault: Fault, entryError: Error): Error {
    if fault == TargetFault then ProjectionInvalid else entryError
  }

  method ClaimDependencies(c: Composition, claims: Claims) returns (fault: Option<Fault>)
    requires claims.Valid()
    modifies claims
    ensures fault == None <==>
              DependenciesOk(c)
              && Admissible(claims.profiles, old(claims.claimed) + Flatten(c.dependencies, DependencySlots))
    ensures fault == None ==>
              claims.Valid() && claims.claimed == old(claims.claimed) + Flatten(c.dependencies, DependencySlots)
    ensures fault == Some(EntryFault) ==> !DependenciesOk(c)
    ensures fault == Some(TargetFault) ==>
              !Admissible(claims.profiles, old(claims.claimed) + Flatten(c.dependencies, DependencySlots))
  {
    fault := ClaimTable(claims, c.dependencies, DependencySlots, x => DependencyOk(c, x));
  }

  method ClaimCallers(c: Composition, claims: Claims) returns (fault: Option<Fault>)
    requires claims.Valid()
    modifies claims
    ensures fault == None <==>
              CallersOk(c) && Admissible(claims.profiles, old(claims.claimed) + Flatten(c.callers, CallerSlots))
    ensures fault == None ==> claims.Valid() && claims.claimed == old(claims.claimed) + Flatten(c.callers, CallerSlots)
    ensures fault == Some(EntryFault) ==> !CallersOk(c)
    ensures fault == Some(TargetFault) ==>
              !Admissible(claims.profiles, old(claims.claimed) + Flatten(c.callers, CallerSlots))
  {
    fault := ClaimTable(claims, c.callers, CallerSlots, x => CallerOk(c, x));
  }

  method ClaimCredentials(c: Composition, claims: Claims) returns (fault: Option<Fault>)
    requires claims.Valid()
    modifies claims
    ensures fault == None <==>
              CredentialsOk(c)
              && Admissible(claims.profiles, old(claims.claimed) + Flatten(c.credentials, CredentialSlots))
    ensures fault == None ==>
              claims.Valid() && claims.claimed == old(claims.claimed) + Flatten(c.credentials, CredentialSlots)
    ensures fault == Some(EntryFault) ==> !CredentialsOk(c)
    ensures fault == Some(TargetFault) ==>
              !Admissible(claims.profiles, old(claims.claimed) + Flatten(c.credentials, CredentialSlots))
  {
    fault := ClaimTable(claims, c.credentials, CredentialSlots, CredentialOk);
  }

  method ClaimBindings(c: Composition, claims: Claims) returns (fault: Option<Fault>)
    requires claims.Valid()
    modifies claims
    ensures fault == None <==>
              BindingsOk(c) && Admissible(claims.profiles, old(claims.claimed) + Flatten(c.bindings, BindingSlots))
    ensures fault == None ==>
              claims.Valid() && claims.claimed == old(claims.claimed) + Flatten(c.bindings, BindingSlots)
    ensures fault == Some(EntryFault) ==> !BindingsOk(c)
    ensures fault == Some(TargetFault) ==>
              !Admissible(claims.profiles, old(claims.claimed) + Flatten(c.bindings, BindingSlots))
  {
    fault := ClaimTable(claims, c.bindings, BindingSlots, x => BindingOk(c, x));
  }

  /** The first table with an invalid entry is blamed, or a target that is invalid or claimed twice. */
  predicate Blames(c: Composition, error: Error) {
    match error
    case DependencyInvalid => !DependenciesOk(c)
    case CallerInvalid => DependenciesOk(c) && !CallersOk(c)
    case CredentialInvalid => DependenciesOk(c) && CallersOk(c) && !CredentialsOk(c)
    case BindingInvalid => DependenciesOk(c) && CallersOk(c) && CredentialsOk(c) && !BindingsOk(c)
    case ProjectionInvalid => !Admissible(c.profiles, Slots(c))
    case _ => false
  }

  /** The four tables, in the order of the code. */
  method CheckTables(c: Composition) returns (error: Option<Error>)
    ensures error == None <==> TablesOk(c)
    ensures error.Some? ==> Blames(c, error.value)
  {
    TablesPrefix(c);
    ghost var a, b := Flatten(c.dependencies, DependencySlots), Flatten(c.callers, CallerSlots);
    ghost var d := Flatten(c.credentials, CredentialSlots);
    var claims := new Claims(c.profiles);
    assert [] + a == a;
    var fault := ClaimDependencies(c, claims);
    if fault.Some? { return Some(Blame(fault.value, DependencyInvalid)); }
    assert claims.claimed == a;
    fault := ClaimCallers(c, claims);
    if fault.Some? { return Some(Blame(fault.value, CallerInvalid)); }
    assert claims.claimed == a + b;
    fault := ClaimCredentials(c, claims);
    if fault.Some? { return Some(Blame(fault.value, CredentialInvalid)); }
    assert claims.claimed == a + b + d;
    fault := ClaimBindings(c, claims);
    if fault.Some? { return Some(Blame(fault.value, BindingInvalid)); }
    error := None;
  }

  /** The depth-first ordering of a composition whose tables are in order. */
  method ResolveOrder(c: Composition) returns (result: Result<seq<Id>, Error>)
    requires DependenciesOk(c) && c.root in c.profiles
    ensures result.Success? <==> Acyclic(GraphOf(c)) && Connected(GraphOf(c), c.root)
    ensures result.Success? ==>
              var order := result.value;
              && Distinct(order) && Elements(order) == c.profiles.Keys
              && ProvidersFirst(GraphOf(c), order) && DependenciesOrdered(c, order)
              && order != [] && order[|order| - 1] == c.root
    ensures result == Failure(DependencyCycle) ==> !Acyclic(GraphOf(c))
    ensures result == Failure(ProfileDisconnected) ==> !Connected(GraphOf(c), c.root)
    ensures result.Failure? ==> result.error.DependencyCycle? || result.error.ProfileDisconnected?
  {
    var graph := BuildGraph(c);
    var ordered := Order(graph, c.root);
    match ordered
    case Ordered(order) =>
      OrderIsOrdered(c, order);
      result := Success(order);
    case Cyclic => result := Failure(DependencyCycle);
    case Disconnected => result := Failure(ProfileDisconnected);
  }

  // ------------------------------------------------------------------
  // What a resolved composition promises, field by field
  // ------------------------------------------------------------------

  /** Every dependency has its provider before its consumer. */
  predicate DependenciesOrdered(c: Composition, order: seq<Id>) {
    forall i, k | 0 <= i < |c.dependencies| && 0 <= k < |order| && order[k] == c.dependencies[i].consumer ::
      c.dependencies[i].provider in order[..k]
  }

  /** The edges of the graph are the declared dependencies. */
  lemma EdgesAreDependencies(c: Composition, p: Id, q: Id)
    requires p in c.profiles
    ensures q in GraphOf(c)[p] <==>
              exists i | 0 <= i < |c.dependencies| :: c.dependencies[i].consumer == p && c.dependencies[i].provider == q
  {
  }

  lemma OrderIsOrdered(c: Composition, order: seq<Id>)
    requires DependenciesOk(c) && ProvidersFirst(GraphOf(c), order)
    ensures DependenciesOrdered(c, order)
  {
    forall i, k | 0 <= i < |c.dependencies| && 0 <= k < |order| && order[k] == c.dependencies[i].consumer
      ensures c.dependencies[i].provider in order[..k]
    {
      assert DependencyOk(c, c.dependencies[i]);
      EdgesAreDependencies(c, order[k], c.dependencies[i].provider);
    }
  }

  /** A service address that its reader can use. */
  predicate UsableService(s: Service) {
    && 1 <= s.port <= 65535 && IsServiceName(s.name)
    && (s.hostPort ==> s.scheme == None) && (!s.hostPort ==> s.scheme in {Some("http"), Some("https")})
  }

  /** Profiles registered in the required lifecycle under the platform's ownership; dependencies between two
      different participants; callers along declared dependencies; generated credentials only. */
  predicate FieldsInOrder(registry: map<Id, Profile>, c: Composition) {
    && c.ownerRepo == "platform-engineering" && c.root in c.profiles
    && (forall p | p in c.profiles ::
          p in registry && registry[p].lifecycle == c.profiles[p]
          && registry[p].runtimeOwner == "platform-engineering")
    && (forall i | 0 <= i < |c.dependencies| ::
          && c.dependencies[i].consumer in c.profiles && c.dependencies[i].provider in c.profiles
          && c.dependencies[i].consumer != c.dependencies[i].provider
          && forall j | 0 <= j < |c.dependencies[i].endpoints| :: UsableService(c.dependencies[i].endpoints[j].service))
    && (forall i | 0 <= i < |c.callers| ::
          && c.callers[i].ownerRepo == "platform-engineering"
          && c.callers[i].consumer != c.callers[i].provider && !IsBlank(c.callers[i].callerId)
          && exists k | 0 <= k < |c.dependencies| ::
               c.dependencies[k].consumer == c.callers[i].consumer
               && c.dependencies[k].provider == c.callers[i].provider)
    && (forall i | 0 <= i < |c.credentials| ::
          && c.credentials[i].ownerRepo == "platform-engineering"
          && c.credentials[i].valueSource == "runtime-generated"
          && c.credentials[i].retention == "composition-lifetime")
    && (forall i | 0 <= i < |c.bindings| :: BindingInOrder(c, c.bindings[i]))
  }

  predicate BindingInOrder(c: Composition, b: ProfileBinding) {
    && b.ownerRepo == "platform-engineering"
    && match b.source
       case Literal(text) => text != ""
       case ProfileService(service) => UsableService(service)
       case ProfileNamespace(source) => source in c.profiles
       case OperatorTemplate(pieces) =>
         |pieces| == 2
         && forall x | x in pieces[0] || x in pieces[1] :: 'a' <= x <= 'z' || '0' <= x <= '9' || x == '-'
       case Unsupported => false
  }

  lemma SourceInOrder(c: Composition, source: Source)
    requires source.OperatorTemplate? && IsSource(c.profiles, source)
    ensures forall x | x in source.pieces[0] || x in source.pieces[1] :: 'a' <= x <= 'z' || '0' <= x <= '9' || x == '-'
  {
    forall x | x in source.pieces[0] || x in source.pieces[1] ensures Lower(x) || x == '-' {
      assert x in source.pieces[0] + source.pieces[1];
    }
  }

  /** The contract is exactly these fields, and one writer with a good name for every target. */
  lemma ContractedInOrder(registry: map<Id, Profile>, c: Composition)
    ensures Contracted(registry, c) <==> FieldsInOrder(registry, c) && Admissible(c.profiles, Slots(c))
  {
    if Contracted(registry, c) {
      forall i | 0 <= i < |c.dependencies| ensures DependencyOk(c, c.dependencies[i]) {}
      forall i | 0 <= i < |c.callers| ensures CallerOk(c, c.callers[i]) {}
      forall i | 0 <= i < |c.credentials| ensures CredentialOk(c.credentials[i]) {}
      forall i | 0 <= i < |c.bindings| ensures BindingInOrder(c, c.bindings[i]) {
        assert BindingOk(c, c.bindings[i]);
        if c.bindings[i].source.OperatorTemplate? { SourceInOrder(c, c.bindings[i].source); }
      }
    }
    if FieldsInOrder(registry, c) && Admissible(c.profiles, Slots(c)) { OrderedFieldsContract(registry, c); }
  }

  lemma OrderedFieldsContract(registry: map<Id, Profile>, c: Composition)
    requires FieldsInOrder(registry, c) && Admissible(c.profiles, Slots(c))
    ensures Contracted(registry, c)
  {
    forall i | 0 <= i < |c.bindings| ensures BindingOk(c, c.bindings[i]) {
      assert BindingInOrder(c, c.bindings[i]);
    }
    forall i | 0 <= i < |c.callers| ensures CallerOk(c, c.callers[i]) {
      var k :| 0 <= k < |c.dependencies| && c.dependencies[k].consumer == c.callers[i].consumer
               && c.dependencies[k].provider == c.callers[i].provider;
    }
  }

  /** A label: letters, digits and inner hyphens. */
  predicate IsLabel(s: string) {
    && s != "" && s[0] != '-' && s[|s| - 1] != '-'
    && forall i | 0 <= i < |s| :: 'a' <= s[i] <= 'z' || '0' <= s[i] <= '9' || s[i] == '-'
  }

  lemma LabelIsName(first: string)
    requires '.' !in first
    ensures IsServiceName(first) <==> IsLabel(first)
  {
  }

  lemma NamesJoin(first: string, rest: string)
    requires '.' !in first && IsLabel(first) && IsServiceName(rest)
    ensures IsServiceName(first + "." + rest)
  {
    var name, n := first + "." + rest, |first|;
    forall i | 0 <= i < |name| ensures Lower(name[i]) || name[i] == '-' || name[i] == '.' {
      assert name[i] == if i < n then first[i] else if i == n then '.' else rest[i - n - 1];
    }
    forall i | 0 < i < |name| - 1 && name[i] == '.' ensures Lower(name[i - 1]) && Lower(name[i + 1]) {
      assert i >= n && name[n - 1] == first[n - 1] && name[n + 1] == rest[0];
      if i > n {
        var k := i - n - 1;
        assert rest[k] == '.' && k > 0;
        assert name[i - 1] == rest[k - 1] && name[i + 1] == rest[k + 1];
      }
    }
    assert name[0] == first[0] && name[|name| - 1] == rest[|rest| - 1];
  }

  lemma NamesSplit(first: string, rest: string)
    requires '.' !in first && IsServiceName(first + "." + rest)
    ensures IsLabel(first) && IsServiceName(rest)
  {
    var name, n := first + "." + rest, |first|;
    assert name[n] == '.';
    assert n > 0 && rest != "";
    assert Lower(name[n - 1]) && Lower(name[n + 1]);
    forall i | 0 <= i < n ensures Lower(first[i]) || first[i] == '-' {
      assert first[i] == name[i] && first[i] in first;
    }
    assert first[0] == name[0] && first[n - 1] == name[n - 1];
    forall k | 0 <= k < |rest| ensures Lower(rest[k]) || rest[k] == '-' || rest[k] == '.' {
      assert rest[k] == name[n + 1 + k];
    }
    forall k | 0 < k < |rest| - 1 && rest[k] == '.' ensures Lower(rest[k - 1]) && Lower(rest[k + 1]) {
      var i := n + 1 + k;
      assert name[i] == '.' && name[i - 1] == rest[k - 1] && name[i + 1] == rest[k + 1];
    }
    assert rest[0] == name[n + 1] && rest[|rest| - 1] == name[|name| - 1];
  }

  /** A service name is a label, or a label, a dot and a service name. */
  lemma ServiceNamesAreLabels(first: string, rest: string)
    requires '.' !in first
    ensures IsServiceName(first) <==> IsLabel(first)
    ensures IsServiceName(first + "." + rest) <==> IsLabel(first) && IsServiceName(rest)
  {
    LabelIsName(first);
    if IsServiceName(first + "." + rest) { NamesSplit(first, rest); }
    if IsLabel(first) && IsServiceName(rest) { NamesJoin(first, rest); }
  }

  /** The shape of an environment variable's name, by growth: a capital, then capitals, digits, underscores. */
  lemma VariablesGrow(s: string, x: char)
    ensures !IsVariable("")
    ensures IsVariable([x]) <==> 'A' <= x <= 'Z'
    ensures s != "" ==>
              (IsVariable(s + [x]) <==> IsVariable(s) && ('A' <= x <= 'Z' || '0' <= x <= '9' || x == '_'))
  {
    var longer := s + [x];
    if s != "" {
      assert longer[0] == s[0] && longer[|s|] == x;
      assert forall i | 0 <= i < |s| :: longer[i] == s[i];
    }
  }

  /** What an error of the contract says is wrong, everything that is checked before being in order. */
  predicate Faulty(registry: map<Id, Profile>, c: Composition, error: Error) {
    match error
    case OwnerInvalid => c.ownerRepo != "platform-engineering"
    case ContractInvalid => c.ownerRepo == "platform-engineering" && c.root !in c.profiles
    case ProfileInvalid =>
      c.ownerRepo == "platform-engineering" && c.root in c.profiles && !ProfilesOk(registry, c)
    case DependencyCycle => false
    case ProfileDisconnected => false
    case _ =>
      && c.ownerRepo == "platform-engineering" && c.root in c.profiles && ProfilesOk(registry, c)
      && Blames(c, error)
  }

  /** The checks up to the tables. */
  method CheckContract(registry: map<Id, Profile>, c: Composition) returns (error: Option<Error>)
    ensures error == None <==> Contracted(registry, c)
    ensures error.Some? ==> Faulty(registry, c, error.value)
  {
    if c.ownerRepo != OWNER { return Some(OwnerInvalid); }
    if c.root !in c.profiles { return Some(ContractInvalid); }
    if !ProfilesOk(registry, c) { return Some(ProfileInvalid); }
    error := CheckTables(c);
  }

  /** resolve_runtime_composition: it succeeds exactly on a contracted composition whose graph is
      acyclic and reached in full from the root, and then orders every profile after its providers. */
  method Resolve(registry: map<Id, Profile>, c: Composition) returns (result: Result<seq<Id>, Error>)
    ensures result.Success? <==> Contracted(registry, c) && Acyclic(GraphOf(c)) && Connected(GraphOf(c), c.root)
    ensures result.Success? ==>
              var order := result.value;
              && Distinct(order) && Elements(order) == c.profiles.Keys
              && ProvidersFirst(GraphOf(c), order) && DependenciesOrdered(c, order)
              && order != [] && order[|order| - 1] == c.root
    ensures result.Success? ==> FieldsInOrder(registry, c)
    ensures result == Failure(DependencyCycle) ==> Contracted(registry, c) && !Acyclic(GraphOf(c))
    ensures result == Failure(ProfileDisconnected) ==> Contracted(registry, c) && !Connected(GraphOf(c), c.root)
    ensures result.Failure? ==>
              result.error.DependencyCycle? || result.error.ProfileDisconnected? || Faulty(registry, c, result.error)
  {
    var error := CheckContract(registry, c);
    if error.Some? { return Failure(error.value); }
    result := ResolveOrder(c);
    ContractedInOrder(registry, c);
  }
}
