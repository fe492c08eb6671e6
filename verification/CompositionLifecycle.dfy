/**
 execute_composition: the recorded lifecycle of one composition, under one up or down at a
 time, any number of concurrent status runs, and a crash between any two durable writes.
 */
module CompositionLifecycle {
  import opened Wrappers
  import opened CompositionGraph

  datatype Verb = Up | Status | Down

  datatype Lifecycle = Active | Degraded | Suspended

  datatype ActionResult = ActionResult(action: Verb, succeeded: bool)

  datatype Manifest = Manifest(
    lifecycle: Lifecycle, lastAction: Verb, lastResult: Option<ActionResult>,
    completed: seq<Id>, failed: seq<Id>, rolledBack: seq<Id>, rollbackFailed: seq<Id>)

  // ------------------------------------------------------------------
  // The three manifest writes
  // ------------------------------------------------------------------

  /** Before the first profile call: a degraded record with an unsuccessful last action. */
  function IntentWrite(current: Option<Manifest>, action: Verb): Manifest {
    var base := if current.Some? then current.value else Manifest(Degraded, action, None, [], [], [], []);
    base.(lifecycle := Degraded, lastAction := action, lastResult := Some(ActionResult(action, false)))
  }

  /** What status takes the last lifecycle result to be; legacy active records count as a good up. */
  function EffectiveResult(current: Manifest): Option<ActionResult> {
    if current.lastResult == None && current.lifecycle == Active && current.lastAction != Down
    then Some(ActionResult(Up, true)) else current.lastResult
  }

  function StatusWrite(current: Manifest, completed: seq<Id>, failed: seq<Id>): Manifest {
    var result := EffectiveResult(current);
    var lifecycle :=
      if failed != [] then Degraded
      else if current.lifecycle == Degraded && result == Some(ActionResult(Up, true)) then Active
      else current.lifecycle;
    Manifest(lifecycle, Status, result, completed, failed, [], [])
  }

  function FinalWrite(
    action: Verb, completed: seq<Id>, failed: seq<Id>, rolledBack: seq<Id>, rollbackFailed: seq<Id>): Manifest
  {
    var ok := failed == [] && rollbackFailed == [];
    Manifest(if !ok then Degraded else if action == Down then Suspended else Active,
             action, Some(ActionResult(action, ok)), completed, failed, rolledBack, rollbackFailed)
  }

  /** Intent is degraded and unsuccessful until the action ends. */
  lemma IntentWriteTells(current: Option<Manifest>, action: Verb)
    ensures var m := IntentWrite(current, action);
            m.lifecycle == Degraded && m.lastAction == action && m.lastResult == Some(ActionResult(action, false))
  {
  }

  /** A failed check degrades; a clean one leaves the lifecycle, but for a successfully started composition,
      which it makes active again. The last lifecycle result survives any check. */
  lemma StatusWriteTells(current: Manifest, completed: seq<Id>, failed: seq<Id>)
    ensures var m := StatusWrite(current, completed, failed);
            && m.lastAction == Status && m.completed == completed && m.failed == failed
            && m.rolledBack == [] && m.rollbackFailed == []
            && (failed != [] ==> m.lifecycle == Degraded)
            && (failed == [] && current.lifecycle != Degraded ==> m.lifecycle == current.lifecycle)
            && (failed == [] && current.lifecycle == Degraded ==>
                  m.lifecycle == if current.lastResult == Some(ActionResult(Up, true)) then Active else Degraded)
            && (current.lastResult.Some? ==> m.lastResult == current.lastResult)
            && (current.lastResult == None ==>
                  m.lastResult == if current.lifecycle == Active && current.lastAction != Down
                                  then Some(ActionResult(Up, true)) else None)
  {
  }

  // ------------------------------------------------------------------
  // The lifecycle machine
  // ------------------------------------------------------------------

  /** The record, the up or down now running, and what really happened to the last one begun. */
  datatype Ledger = Ledger(manifest: Option<Manifest>, running: Option<Verb>, begun: Option<Verb>, succeeded: bool)

  datatype Event =
    | Begin(action: Verb)
    | Finish(completed: seq<Id>, failed: seq<Id>, rolledBack: seq<Id>, rollbackFailed: seq<Id>)
    | Abandon
    | Observe(completed: seq<Id>, failed: seq<Id>)

  predicate Step(l: Ledger, event: Event, l': Ledger) {
    match event
    case Begin(action) =>
      && action != Status && l.running == None
      && l' == Ledger(Some(IntentWrite(l.manifest, action)), Some(action), Some(action), false)
    case Finish(completed, failed, rolledBack, rollbackFailed) =>
      && l.running.Some?
      && var m := FinalWrite(l.running.value, completed, failed, rolledBack, rollbackFailed);
      && l' == Ledger(Some(m), None, l.begun, m.lastResult.value.succeeded)
    case Abandon => l' == l.(running := None)
    case Observe(completed, failed) =>
      && l.manifest.Some?
      && l' == l.(manifest := Some(StatusWrite(l.manifest.value, completed, failed)))
  }

  /** Nothing recorded, or a record of an earlier release that is active only after a successful up. */
  predicate Initial(l: Ledger) {
    && l.running == None
    && (l.manifest.Some? ==> l.manifest.value.lastResult == None)
    && (ReadsActive(l) ==> GoodUp(l))
  }

  predicate ReadsActive(l: Ledger) {
    l.manifest.Some? && l.manifest.value.lifecycle == Active
  }

  predicate GoodUp(l: Ledger) {
    l.begun == Some(Up) && l.succeeded
  }

  predicate Run(ledgers: seq<Ledger>, events: seq<Event>) {
    && |ledgers| == |events| + 1
    && Initial(ledgers[0])
    && forall i {:trigger events[i]} | 0 <= i < |events| :: Step(ledgers[i], events[i], ledgers[i + 1])
  }

  predicate Honest(l: Ledger) {
    && (l.running.Some? ==> l.begun == l.running && !l.succeeded && l.running != Some(Status))
    && (ReadsActive(l) ==> GoodUp(l))
    && (l.manifest.Some? && l.manifest.value.lastResult.Some? ==>
          l.begun == Some(l.manifest.value.lastResult.value.action)
          && l.succeeded == l.manifest.value.lastResult.value.succeeded)
    && (l.running.Some? ==> l.manifest.Some? && l.manifest.value.lastResult.Some?)
  }

  lemma StepHonest(l: Ledger, event: Event, l': Ledger)
    requires Honest(l) && Step(l, event, l')
    ensures Honest(l')
  {
  }

  lemma {:induction false} RunHonest(ledgers: seq<Ledger>, events: seq<Event>, k: nat)
    requires Run(ledgers, events) && k < |ledgers|
    ensures Honest(ledgers[k])
  {
    if k > 0 {
      RunHonest(ledgers, events, k - 1);
      StepHonest(ledgers[k - 1], events[k - 1], ledgers[k]);
    }
  }

  /** Recorded active means that the last lifecycle action begun was an up that completed successfully,
      and that none is running. */
  lemma ActiveMeansGoodUp(ledgers: seq<Ledger>, events: seq<Event>, k: nat)
    requires Run(ledgers, events) && k < |ledgers|
    requires ReadsActive(ledgers[k])
    ensures GoodUp(ledgers[k]) && ledgers[k].running == None
  {
    RunHonest(ledgers, events, k);
  }

  predicate SuccessfulUp(l: Ledger, event: Event) {
    event.Finish? && l.running == Some(Up) && event.failed == [] && event.rollbackFailed == []
  }

  /** An action that was begun, finished or not, leaves the record inactive until a successful up ends. */
  lemma {:induction false} InterruptedIsNotActive(ledgers: seq<Ledger>, events: seq<Event>, a: nat, b: nat)
    requires Run(ledgers, events) && a < b < |ledgers|
    requires events[a].Begin?
    requires forall k | a < k < b :: !SuccessfulUp(ledgers[k], events[k])
    ensures !ReadsActive(ledgers[b]) && !GoodUp(ledgers[b])
    decreases b
  {
    RunHonest(ledgers, events, b);
    assert Step(ledgers[b - 1], events[b - 1], ledgers[b]);
    if a + 1 < b {
      RunHonest(ledgers, events, b - 1);
      InterruptedIsNotActive(ledgers, events, a, b - 1);
    }
  }

  /** A health check that failed once does not cost the record its history: after any number of
      status runs, the last of them clean, a successfully started composition reads active again. */
  lemma {:induction false} CleanStatusRecovers(ledgers: seq<Ledger>, events: seq<Event>, a: nat, b: nat)
    requires Run(ledgers, events) && a < b < |ledgers|
    requires SuccessfulUp(ledgers[a], events[a])
    requires forall k | a < k < b :: events[k].Observe?
    ensures ledgers[b].manifest.Some?
    ensures EffectiveResult(ledgers[b].manifest.value) == Some(ActionResult(Up, true))
    ensures ledgers[b].manifest.value.lifecycle != Suspended
    ensures events[b - 1].Observe? && events[b - 1].failed == [] ==> ReadsActive(ledgers[b])
    decreases b
  {
    assert Step(ledgers[b - 1], events[b - 1], ledgers[b]);
    if a + 1 < b {
      CleanStatusRecovers(ledgers, events, a, b - 1);
    }
  }

  // ------------------------------------------------------------------
  // Dispatch
  // ------------------------------------------------------------------

  datatype Call = Call(verb: Verb, profile: Id)

  function Calls(verb: Verb, profiles: seq<Id>): seq<Call> {
    seq(|profiles|, i requires 0 <= i < |profiles| => Call(verb, profiles[i]))
  }

  function Reverse(ps: seq<Id>): (r: seq<Id>)
    ensures |r| == |ps| && forall i | 0 <= i < |ps| :: r[i] == ps[|ps| - 1 - i]
  {
    seq(|ps|, i requires 0 <= i < |ps| => ps[|ps| - 1 - i])
  }

  /** The profiles an up reaches: all, or up to and including the first that fails. */
  function Reached(order: seq<Id>, fails: Id -> bool): seq<Id> {
    if order == [] then [] else
    var before := order[..|order| - 1];
    if AllStart(before, fails) then order else Reached(before, fails)
  }

  /** What is reached is a prefix of the order: all of it, or up to the first failure. */
  lemma {:induction false} ReachedIs(order: seq<Id>, fails: Id -> bool)
    ensures var r := Reached(order, fails);
            && r <= order
            && (AllStart(order, fails) ==> r == order)
            && (!AllStart(order, fails) ==> r != [] && fails(r[|r| - 1]) && AllStart(r[..|r| - 1], fails))
  {
    if order != [] { ReachedIs(order[..|order| - 1], fails); }
  }

  predicate AllStart(order: seq<Id>, fails: Id -> bool) {
    forall i | 0 <= i < |order| :: !fails(order[i])
  }

  /** The profiles whose call fails, or does not, in order. */
  function Those(profiles: seq<Id>, fails: Id -> bool, failing: bool): seq<Id> {
    if profiles == [] then [] else
    var last := profiles[|profiles| - 1];
    Those(profiles[..|profiles| - 1], fails, failing) + if fails(last) == failing then [last] else []
  }

  lemma {:induction false} ThoseAre(profiles: seq<Id>, fails: Id -> bool, failing: bool, p: Id)
    ensures p in Those(profiles, fails, failing) <==> p in profiles && fails(p) == failing
  {
    if profiles != [] { ThoseAre(profiles[..|profiles| - 1], fails, failing, p); }
  }

  /** An up calls the profiles it reaches in order, and if one fails, stops the same ones backwards. */
  lemma UpCallAt(order: seq<Id>, fails: Id -> bool, i: nat)
    requires i < |UpCalls(order, fails)|
    ensures var n := |Reached(order, fails)|;
            && n <= |order| && |UpCalls(order, fails)| == (if AllStart(order, fails) then n else 2 * n)
            && UpCalls(order, fails)[i] == if i < n then Call(Up, order[i]) else Call(Down, order[2 * n - 1 - i])
  {
    ReachedIs(order, fails);
    UpCallsAre(order, fails);
    var reached := Reached(order, fails);
    if AllStart(order, fails) {
      assert UpCalls(order, fails) == Calls(Up, reached);
    } else {
      ThereAndBack(reached, i);
    }
  }

  lemma ThereAndBack(profiles: seq<Id>, i: nat)
    requires i < 2 * |profiles|
    ensures var n := |profiles|;
            (Calls(Up, profiles) + Calls(Down, Reverse(profiles)))[i] ==
              if i < n then Call(Up, profiles[i]) else Call(Down, profiles[2 * n - 1 - i])
  {
  }

  lemma ThoseGrow(profiles: seq<Id>, fails: Id -> bool, i: nat)
    requires i < |profiles|
    ensures var p, more := profiles[i], profiles[..i + 1];
            && Those(more, fails, true) == Those(profiles[..i], fails, true) + (if fails(p) then [p] else [])
            && Those(more, fails, false) == Those(profiles[..i], fails, false) + (if fails(p) then [] else [p])
  {
    assert profiles[..i + 1][..i] == profiles[..i];
  }

  /** The profiles that a run through the order calls: an up stops at the first failure. */
  function Called(action: Verb, order: seq<Id>, fails: Id -> bool): seq<Id> {
    if action == Up then Reached(order, fails) else order
  }

  lemma {:induction false} ThoseNone(profiles: seq<Id>, fails: Id -> bool)
    ensures Those(profiles, fails, true) == [] <==> AllStart(profiles, fails)
    ensures AllStart(profiles, fails) ==> Those(profiles, fails, false) == profiles
  {
    if profiles != [] {
      ThoseNone(profiles[..|profiles| - 1], fails);
      assert AllStart(profiles, fails) <==>
               AllStart(profiles[..|profiles| - 1], fails) && !fails(profiles[|profiles| - 1]);
    }
  }

  /** An up starts what it reached but for the last, if that one fails. */
  lemma {:induction false} UpParts(order: seq<Id>, fails: Id -> bool)
    ensures var reached := Reached(order, fails);
            && Those(reached, fails, false) + Those(reached, fails, true) == reached
            && |Those(reached, fails, true)| <= 1
            && (Those(reached, fails, true) == [] <==> AllStart(order, fails))
  {
    if order != [] {
      var before := order[..|order| - 1];
      if AllStart(before, fails) { ThoseNone(before, fails); } else { UpParts(before, fails); }
    }
  }

  /** The up failed, and every profile it had reached could be stopped. */
  predicate RolledBack(order: seq<Id>, upFails: Id -> bool, downFails: Id -> bool) {
    !AllStart(order, upFails) && AllStart(Reached(order, upFails), downFails)
  }

  /** Credentials go only after an up that failed somewhere, with every reached profile stopped. */
  lemma RolledBackMeans(order: seq<Id>, upFails: Id -> bool, downFails: Id -> bool)
    ensures AllStart(order, upFails) <==> forall p | p in order :: !upFails(p)
    ensures RolledBack(order, upFails, downFails) <==>
              (exists p | p in order :: upFails(p)) && forall p | p in Reached(order, upFails) :: !downFails(p)
  {
    assert AllStart(order, upFails) ==> forall p | p in order :: !upFails(p);
    forall i | 0 <= i < |order| ensures order[i] in order {}
    var reached := Reached(order, upFails);
    forall i | 0 <= i < |reached| ensures reached[i] in reached {}
  }

  /** The record of a completed up: who started, who failed, and how the rollback of both went. */
  function UpRecord(order: seq<Id>, upFails: Id -> bool, downFails: Id -> bool): Manifest {
    var reached := Reached(order, upFails);
    var stops := if AllStart(order, upFails) then [] else Reverse(reached);
    FinalWrite(Up, Those(reached, upFails, false), Those(reached, upFails, true),
               Those(stops, downFails, false), Those(stops, downFails, true))
  }

  /** That record is active exactly when nothing failed, names what was reached, and accounts for the
      stop of each reached profile of a failed up. */
  lemma UpRecordTells(order: seq<Id>, upFails: Id -> bool, downFails: Id -> bool)
    ensures var m, reached := UpRecord(order, upFails, downFails), Reached(order, upFails);
            var good := AllStart(order, upFails);
            && m.lifecycle == (if good then Active else Degraded)
            && m.lastAction == Up && m.lastResult == Some(ActionResult(Up, good))
            && m.completed + m.failed == reached
            && multiset(m.rolledBack + m.rollbackFailed) == multiset(if good then [] else reached)
            && (m.rollbackFailed == [] <==> good || AllStart(reached, downFails))
  {
    UpParts(order, upFails);
    var reached := Reached(order, upFails);
    var stops := if AllStart(order, upFails) then [] else Reverse(reached);
    ThoseSplit(stops, downFails);
    ThoseNone(stops, downFails);
    ReverseSame(reached);
    ReverseStarts(reached, downFails);
  }

  lemma {:induction false} ThoseSplit(profiles: seq<Id>, fails: Id -> bool)
    ensures multiset(Those(profiles, fails, false) + Those(profiles, fails, true)) == multiset(profiles)
  {
    if profiles != [] {
      ThoseSplit(profiles[..|profiles| - 1], fails);
      assert profiles == profiles[..|profiles| - 1] + [profiles[|profiles| - 1]];
    }
  }

  lemma {:induction false} ReverseSame(profiles: seq<Id>)
    ensures multiset(Reverse(profiles)) == multiset(profiles)
  {
    if profiles != [] {
      var last := |profiles| - 1;
      ReverseSame(profiles[..last]);
      assert Reverse(profiles) == [profiles[last]] + Reverse(profiles[..last]);
      assert profiles == profiles[..last] + [profiles[last]];
    }
  }

  lemma DownRecordTells(order: seq<Id>, fails: Id -> bool)
    ensures var m, good := DownRecord(order, fails), AllStart(order, fails);
            && m.lifecycle == (if good then Suspended else Degraded)
            && m.lastAction == Down && m.lastResult == Some(ActionResult(Down, good))
            && multiset(m.completed + m.failed) == multiset(order)
  {
    ThoseSplit(Reverse(order), fails);
    ThoseNone(Reverse(order), fails);
    ReverseSame(order);
    ReverseStarts(order, fails);
  }

  function DownRecord(order: seq<Id>, fails: Id -> bool): Manifest {
    FinalWrite(Down, Those(Reverse(order), fails, false), Those(Reverse(order), fails, true), [], [])
  }

  /** What an up dispatches: every profile in order, or those it reached and then the same ones
      stopped in the opposite order. */
  function UpCalls(order: seq<Id>, fails: Id -> bool): seq<Call> {
    var reached := Reached(order, fails);
    if AllStart(order, fails) then Calls(Up, order) else Calls(Up, reached) + Calls(Down, Reverse(reached))
  }

  lemma Regroup(a: seq<Call>, b: seq<Call>, c: seq<Call>)
    ensures (a + b) + c == a + (b + c)
  {
  }

  /** The calls of the rollback, if the up fails. */
  function StopCalls(order: seq<Id>, fails: Id -> bool): seq<Call> {
    if AllStart(order, fails) then [] else Calls(Down, Reverse(Reached(order, fails)))
  }

  lemma UpCallsAre(order: seq<Id>, fails: Id -> bool)
    ensures UpCalls(order, fails) == Calls(Up, Reached(order, fails)) + StopCalls(order, fails)
  {
    ReachedIs(order, fails);
  }

  lemma CallsGrow(verb: Verb, profiles: seq<Id>, i: nat)
    requires i < |profiles|
    ensures profiles[..i + 1] == profiles[..i] + [profiles[i]]
    ensures Calls(verb, profiles[..i + 1]) == Calls(verb, profiles[..i]) + [Call(verb, profiles[i])]
    ensures Calls(verb, profiles[..i]) <= Calls(verb, profiles)
  {
    assert Calls(verb, profiles)[..i] == Calls(verb, profiles[..i]);
  }

  lemma {:induction false} ReachedPrefix(order: seq<Id>, fails: Id -> bool, k: nat)
    requires k < |order| && fails(order[k]) && AllStart(order[..k], fails)
    ensures Reached(order, fails) == order[..k + 1] && !AllStart(order, fails)
    decreases |order|
  {
    var before := order[..|order| - 1];
    if k < |before| {
      assert before[..k] == order[..k] && before[..k + 1] == order[..k + 1] && before[k] == order[k];
      ReachedPrefix(before, fails, k);
    }
  }

  /** Stopping a prefix of the order backwards: consumers first, nobody twice. */
  lemma BackwardsStopsConsumersFirst(g: Graph, order: seq<Id>, n: nat, i: nat, j: nat)
    requires n <= |order| && Distinct(order) && ProvidersFirst(g, order)
    requires i < n && j < n
    ensures i < j ==> Reverse(order[..n])[i] != Reverse(order[..n])[j]
    ensures Reverse(order[..n])[j] in g[order[n - 1 - i]] ==> i < j
  {
    var stops := Reverse(order[..n]);
    assert stops[i] == order[n - 1 - i] && stops[j] == order[n - 1 - j];
    if stops[j] in g[stops[i]] {
      var k :| 0 <= k < n - 1 - i && order[k] == stops[j];
    }
  }

  /** Each profile a failed up started is stopped exactly once, after every profile that consumes it. */
  lemma RollbackStopsConsumersFirst(g: Graph, order: seq<Id>, fails: Id -> bool, i: nat, j: nat)
    requires Distinct(order) && ProvidersFirst(g, order)
    requires i < |Reached(order, fails)| && j < |Reached(order, fails)|
    ensures var stops := Reverse(Reached(order, fails));
            && (i < j ==> stops[i] != stops[j])
            && stops[i] in g && (stops[j] in g[stops[i]] ==> i < j)
  {
    ReachedIs(order, fails);
    var n := |Reached(order, fails)|;
    assert Reached(order, fails) == order[..n];
    assert Reverse(order[..n])[i] == order[n - 1 - i];
    BackwardsStopsConsumersFirst(g, order, n, i, j);
  }

  // ------------------------------------------------------------------
  // execute_composition
  // ------------------------------------------------------------------

  /** Interrupted is a crash or an exception; Refused leaves before the first durable write. */
  datatype Exit = Refused | Interrupted | Exited(code: nat)

  class Composition {
    const order: seq<Id>
    const bindings: set<string>
    var manifest: Option<Manifest>
    var secrets: set<string>
    ghost var calls: seq<Call>
    ghost var ledgers: seq<Ledger>
    ghost var events: seq<Event>

    ghost function Now(): Ledger
      reads this
      requires ledgers != []
    {
      ledgers[|ledgers| - 1]
    }

    /** The events so far are a run of the lifecycle machine that ends with this record. */
    ghost predicate Tracks()
      reads this
    {
      Run(ledgers, events) && Now().manifest == manifest
    }

    ghost predicate Valid()
      reads this
    {
      Tracks() && Now().running == None
    }

    constructor (order: seq<Id>, bindings: set<string>)
      ensures Valid() && this.order == order && this.bindings == bindings
      ensures manifest == None && calls == [] && secrets == {}
    {
      this.order, this.bindings := order, bindings;
      manifest, secrets, calls, events := None, {}, [], [];
      ledgers := [Ledger(None, None, None, false)];
    }

    ghost method Record(event: Event, next: Ledger)
      requires Run(ledgers, events) && Step(Now(), event, next) && next.manifest == manifest
      modifies this`ledgers, this`events
      ensures Tracks() && Now() == next
      ensures ledgers == old(ledgers) + [next] && events == old(events) + [event]
    {
      ghost var more, names := ledgers + [next], events + [event];
      forall i | 0 <= i < |names| ensures Step(more[i], names[i], more[i + 1]) {
        if i < |events| {
          assert names[i] == events[i];
          assert Step(ledgers[i], events[i], ledgers[i + 1]);
        }
      }
      ledgers, events := more, names;
    }

    /** Any number of complete status runs elsewhere; only their last write matters here. */
    method OtherStatusRuns()
      requires Tracks() && manifest.Some?
      modifies this`manifest, this`ledgers, this`events
      ensures Tracks() && manifest.Some?
      ensures Now() == old(Now()).(manifest := manifest)
      ensures old(ledgers) <= ledgers && old(events) <= events
      ensures forall k | |old(events)| <= k < |events| :: events[k].Observe?
    {
      var rounds :| 0 <= rounds;
      for r := 0 to rounds
        invariant Tracks() && manifest.Some?
        invariant Now() == old(Now()).(manifest := manifest)
        invariant old(ledgers) <= ledgers && old(events) <= events
        invariant forall k | |old(events)| <= k < |events| :: events[k].Observe?
      {
        var completed: seq<Id>, failed: seq<Id> := *, *;
        manifest := Some(StatusWrite(manifest.value, completed, failed));
        Record(Observe(completed, failed), Now().(manifest := manifest));
      }
    }

    /** load_or_create_credentials with create: one durable file at a time. */
    method CreateSecrets() returns (created: bool, done: bool)
      modifies this`secrets
      ensures old(secrets) <= secrets <= old(secrets) + bindings
      ensures done ==> secrets == old(secrets) + bindings
      ensures done ==> (created <==> !(bindings <= old(secrets)))
    {
      created := false;
      var missing := bindings - secrets;
      while missing != {}
        invariant missing <= bindings - old(secrets)
        invariant secrets == old(secrets) + (bindings - missing)
        invariant created <==> missing != bindings - old(secrets)
        decreases missing
      {
        if * { return created, false; }
        var binding :| binding in missing;
        secrets := secrets + {binding};
        missing := missing - {binding};
        created := true;
      }
      done := true;
    }

    /** remove_credentials: one unlink at a time. */
    method RemoveSecrets() returns (done: bool)
      modifies this`secrets
      ensures old(secrets) - bindings <= secrets <= old(secrets)
      ensures done ==> secrets == old(secrets) - bindings
    {
      var left := bindings;
      while left != {}
        invariant left <= bindings
        invariant secrets == old(secrets) - (bindings - left)
        decreases left
      {
        if * { return false; }
        var binding :| binding in left;
        secrets := secrets - {binding};
        left := left - {binding};
      }
      done := true;
    }

    /** The intent write, under the metadata lock. */
    method BeginAction(action: Verb)
      requires Valid() && action != Status
      modifies this`manifest, this`ledgers, this`events
      ensures Tracks() && manifest.Some? && Now().running == Some(action)
      ensures old(ledgers) <= ledgers
    {
      manifest := Some(IntentWrite(manifest, action));
      Record(Begin(action), Ledger(manifest, Some(action), Some(action), false));
    }

    method AbandonAction()
      requires Tracks()
      modifies this`ledgers, this`events
      ensures Valid() && manifest == old(manifest) && old(ledgers) <= ledgers
    {
      Record(Abandon, Now().(running := None));
    }

    /** The loop over run_order; up stops at the first failure, the others go through. */
    method Dispatch(action: Verb, runOrder: seq<Id>, fails: Id -> bool)
      returns (completed: seq<Id>, failures: seq<Id>, done: bool)
      modifies this`calls
      ensures old(calls) <= calls
      ensures !done ==> calls <= old(calls) + Calls(action, runOrder)
      ensures done ==>
                var called := Called(action, runOrder, fails);
                && calls == old(calls) + Calls(action, called)
                && completed == Those(called, fails, false) && failures == Those(called, fails, true)
    {
      completed, failures := [], [];
      ghost var start := calls;
      for i := 0 to |runOrder|
        invariant calls == start + Calls(action, runOrder[..i])
        invariant completed == Those(runOrder[..i], fails, false) && failures == Those(runOrder[..i], fails, true)
        invariant action == Up ==> AllStart(runOrder[..i], fails)
      {
        ThoseGrow(runOrder, fails, i);
        CallsGrow(action, runOrder, i);
        if * { return completed, failures, false; }
        calls := calls + [Call(action, runOrder[i])];
        if fails(runOrder[i]) {
          failures := failures + [runOrder[i]];
          if action == Up {
            ReachedPrefix(runOrder, fails, i);
            return completed, failures, true;
          }
        } else {
          completed := completed + [runOrder[i]];
        }
      }
      assert runOrder[..|runOrder|] == runOrder;
      ReachedIs(runOrder, fails);
      done := true;
    }

    method DispatchUp(fails: Id -> bool) returns (completed: seq<Id>, failures: seq<Id>, done: bool)
      modifies this`calls
      ensures old(calls) <= calls
      ensures done ==>
                var reached := Reached(order, fails);
                && calls == old(calls) + Calls(Up, reached)
                && completed == Those(reached, fails, false) && failures == Those(reached, fails, true)
                && completed + failures == reached && |failures| <= 1
                && (failures == [] <==> AllStart(order, fails))
    {
      completed, failures, done := Dispatch(Up, order, fails);
      UpParts(order, fails);
    }

    /** The rollback of a failed up: the failure first, then what was completed, last first. */
    method Rollback(completed: seq<Id>, failures: seq<Id>, fails: Id -> bool)
      returns (stopped: seq<Id>, stuck: seq<Id>, done: bool)
      requires |failures| == 1
      modifies this`calls
      ensures done ==> calls == old(calls) + Calls(Down, Reverse(completed + failures))
      ensures done ==> (stuck == [] <==> AllStart(completed + failures, fails))
      ensures done ==>
                var called := Reverse(completed + failures);
                stopped == Those(called, fails, false) && stuck == Those(called, fails, true)
      ensures old(calls) <= calls
    {
      var rollbackOrder := failures + Reverse(completed);
      assert rollbackOrder == Reverse(completed + failures);
      stopped, stuck, done := Dispatch(Down, rollbackOrder, fails);
      ThoseNone(rollbackOrder, fails);
      ReverseStarts(completed + failures, fails);
    }

    /** The last write of an up or down. */
    method FinishAction(action: Verb, completed: seq<Id>, failures: seq<Id>, stopped: seq<Id>, stuck: seq<Id>)
      requires Tracks() && Now().running == Some(action)
      modifies this`manifest, this`ledgers, this`events
      ensures Valid() && old(ledgers) <= ledgers
      ensures manifest == Some(FinalWrite(action, completed, failures, stopped, stuck))
    {
      manifest := Some(FinalWrite(action, completed, failures, stopped, stuck));
      Record(Finish(completed, failures, stopped, stuck),
             Ledger(manifest, None, Now().begun, failures == [] && stuck == []));
    }

    /** The failure branch of up: stop what was started, drop credentials this run created if every
        stop worked, and record the failure. */
    method RollBackUp(
      created: bool, completed: seq<Id>, failures: seq<Id>, ghost reached: seq<Id>, downFails: Id -> bool)
      returns (done: bool)
      requires completed + failures == reached
      requires Tracks() && manifest.Some? && Now().running == Some(Up) && |failures| == 1
      modifies this
      ensures Valid() && old(ledgers) <= ledgers && old(calls) <= calls
      ensures done ==>
                && calls == old(calls) + Calls(Down, Reverse(reached))
                && var called := Reverse(reached);
                   manifest == Some(FinalWrite(Up, completed, failures,
                                               Those(called, downFails, false), Those(called, downFails, true)))
      ensures done ==>
                secrets == if created && AllStart(reached, downFails) then old(secrets) - bindings else old(secrets)
      ensures secrets <= old(secrets)
      ensures secrets == old(secrets) || (created && AllStart(reached, downFails))
    {
      var stopped, stuck, finished := Rollback(completed, failures, downFails);
      if !finished { AbandonAction(); return false; }
      if created && stuck == [] {
        finished := RemoveSecrets();
        if !finished { AbandonAction(); return false; }
      }
      OtherStatusRuns();
      if * { AbandonAction(); return false; }
      FinishAction(Up, completed, failures, stopped, stuck);
      done := true;
    }

    /** The forward half of up: credentials, intent, and the profiles in order. */
    method StartProfiles(upFails: Id -> bool)
      returns (created: bool, completed: seq<Id>, failures: seq<Id>, done: bool)
      requires Valid()
      modifies this
      ensures old(ledgers) <= ledgers && old(calls) <= calls && old(secrets) <= secrets
      ensures !done ==> Valid()
      ensures done ==>
                && Tracks() && manifest.Some? && Now().running == Some(Up)
                && secrets == old(secrets) + bindings
                && (created <==> !(bindings <= old(secrets)))
                && calls == old(calls) + Calls(Up, Reached(order, upFails))
                && completed + failures == Reached(order, upFails) && |failures| <= 1
                && completed == Those(Reached(order, upFails), upFails, false)
                && failures == Those(Reached(order, upFails), upFails, true)
                && (failures == [] <==> AllStart(order, upFails))
    {
      completed, failures := [], [];
      created, done := CreateSecrets();
      if !done { return; }
      BeginAction(Up);
      assert old(ledgers) <= ledgers;
      OtherStatusRuns();
      assert old(ledgers) <= ledgers;
      completed, failures, done := DispatchUp(upFails);
      if !done {
        AbandonAction();
        assert old(ledgers) <= ledgers;
        return;
      }
      OtherStatusRuns();
      assert old(ledgers) <= ledgers;
    }

    /** execute_composition for up. When it runs to its end, the calls made and the credentials left
        are exactly determined by which calls fail, and the record is active iff nothing failed. */
    method ExecuteUp(upFails: Id -> bool, downFails: Id -> bool) returns (exit: Exit)
      requires Valid()
      modifies this
      ensures Valid() && old(ledgers) <= ledgers && old(calls) <= calls
      ensures exit.Exited? ==>
                && calls == old(calls) + UpCalls(order, upFails)
                && (exit.code == 0 <==> AllStart(order, upFails))
                && manifest == Some(UpRecord(order, upFails, downFails))
      ensures exit.Exited? ==>
                secrets == if RolledBack(order, upFails, downFails) && !(bindings <= old(secrets))
                           then old(secrets) - bindings else old(secrets) + bindings
      ensures old(secrets) <= secrets || (RolledBack(order, upFails, downFails) && !(bindings <= old(secrets)))
    {
      var created, completed, failures, done := StartProfiles(upFails);
      if !done { return Interrupted; }
      assert old(ledgers) <= ledgers && (old(secrets) + bindings) - bindings == old(secrets) - bindings;
      exit := ConcludeUp(created, completed, failures, upFails, downFails);
      assert old(ledgers) <= ledgers && old(calls) <= calls;
      UpCallsAre(order, upFails);
      Regroup(old(calls), Calls(Up, Reached(order, upFails)), StopCalls(order, upFails));
    }

    /** The rest of up after the profiles were called: the final record, or the rollback. */
    method ConcludeUp(
      created: bool, completed: seq<Id>, failures: seq<Id>, upFails: Id -> bool, downFails: Id -> bool)
      returns (exit: Exit)
      requires Tracks() && manifest.Some? && Now().running == Some(Up)
      requires var reached := Reached(order, upFails);
               && completed == Those(reached, upFails, false) && failures == Those(reached, upFails, true)
               && completed + failures == reached && |failures| <= 1
               && (failures == [] <==> AllStart(order, upFails))
      modifies this
      ensures Valid() && old(ledgers) <= ledgers && old(calls) <= calls && !exit.Refused?
      ensures exit.Exited? ==>
                && calls == old(calls) + StopCalls(order, upFails)
                && (exit.code == 0 <==> AllStart(order, upFails))
                && manifest == Some(UpRecord(order, upFails, downFails))
                && secrets == if created && RolledBack(order, upFails, downFails)
                              then old(secrets) - bindings else old(secrets)
      ensures secrets <= old(secrets)
      ensures secrets == old(secrets) || (created && RolledBack(order, upFails, downFails))
    {
      if failures == [] {
        FinishAction(Up, completed, failures, [], []);
        return Exited(0);
      }
      var done := RollBackUp(created, completed, failures, Reached(order, upFails), downFails);
      exit := if done then Exited(1) else Interrupted;
    }

    /** The dispatching half of down: intent, and every profile in the opposite order. */
    method StopProfiles(fails: Id -> bool)
      returns (completed: seq<Id>, failures: seq<Id>, done: bool)
      requires Valid()
      modifies this`calls, this`manifest, this`ledgers, this`events
      ensures old(ledgers) <= ledgers && old(calls) <= calls
      ensures !done ==> Valid()
      ensures done ==>
                && Tracks() && manifest.Some? && Now().running == Some(Down)
                && calls == old(calls) + Calls(Down, Reverse(order))
                && (failures == [] <==> AllStart(order, fails))
                && completed == Those(Reverse(order), fails, false) && failures == Those(Reverse(order), fails, true)
    {
      BeginAction(Down);
      OtherStatusRuns();
      assert old(ledgers) <= ledgers;
      completed, failures, done := Dispatch(Down, Reverse(order), fails);
      ThoseNone(Reverse(order), fails);
      ReverseStarts(order, fails);
      if !done {
        AbandonAction();
        assert old(ledgers) <= ledgers;
        return;
      }
      OtherStatusRuns();
      assert old(ledgers) <= ledgers;
    }

    /** execute_composition for down: every profile, consumers first, whatever fails on the way;
        credentials go only after a stop without failures. */
    method ExecuteDown(fails: Id -> bool) returns (exit: Exit)
      requires Valid()
      modifies this
      ensures Valid() && old(ledgers) <= ledgers && old(calls) <= calls
      ensures exit.Refused? <==>
                old(manifest) == None || (old(manifest).value.lifecycle != Suspended && !(bindings <= old(secrets)))
      ensures exit.Refused? ==> manifest == old(manifest) && secrets == old(secrets) && calls == old(calls)
      ensures exit.Exited? ==>
                && calls == old(calls) + Calls(Down, Reverse(order))
                && (exit.code == 0 <==> AllStart(order, fails))
                && manifest == Some(DownRecord(order, fails))
                && secrets == if AllStart(order, fails) then old(secrets) - bindings else old(secrets)
      ensures secrets <= old(secrets)
      ensures secrets == old(secrets) || AllStart(order, fails)
    {
      if manifest == None { return Refused; }
      if manifest.value.lifecycle != Suspended && !(bindings <= secrets) { return Refused; }
      var completed, failures, finished := StopProfiles(fails);
      if !finished { return Interrupted; }
      if failures == [] {
        finished := RemoveSecrets();
        if !finished { AbandonAction(); return Interrupted; }
      }
      if * { AbandonAction(); return Interrupted; }
      FinishAction(Down, completed, failures, [], []);
      exit := Exited(if failures != [] then 1 else 0);
    }

    /** execute_composition for status: a clean check restores active only over a successful up. */
    method ExecuteStatus(fails: Id -> bool) returns (exit: Exit)
      requires Tracks()
      modifies this`calls, this`manifest, this`ledgers, this`events
      ensures Tracks() && old(ledgers) <= ledgers && old(calls) <= calls
      ensures Now().running == old(Now()).running
      ensures exit.Exited? ==>
                && calls == old(calls) + Calls(Status, order) && manifest.Some?
                && manifest.value.completed == Those(order, fails, false)
                && manifest.value.failed == Those(order, fails, true)
                && manifest.value.lastAction == Status
                && (!AllStart(order, fails) ==> manifest.value.lifecycle == Degraded)
                && (exit.code == 0 <==> AllStart(order, fails) && manifest.value.lifecycle != Degraded)
                && (manifest.value.lastResult.Some? && manifest.value.lifecycle != Suspended ==>
                      (manifest.value.lifecycle == Active <==> AllStart(order, fails) && GoodUp(Now())))
      ensures exit == Exited(0) ==>
                AllStart(order, fails) && manifest.value.lifecycle in {Active, Suspended}
      ensures exit.Exited? && manifest.value.lifecycle == Active ==> GoodUp(Now())
    {
      if manifest == None { return Refused; }
      if manifest.value.lifecycle != Suspended && !(bindings <= secrets) { return Refused; }
      var completed, failures, finished := Dispatch(Status, order, fails);
      ThoseNone(order, fails);
      if !finished { return Interrupted; }
      OtherStatusRuns();
      manifest := Some(StatusWrite(manifest.value, completed, failures));
      Record(Observe(completed, failures), Now().(manifest := manifest));
      RunHonest(ledgers, events, |ledgers| - 1);
      exit := Exited(if failures != [] || manifest.value.lifecycle == Degraded then 1 else 0);
    }
  }

  lemma ReverseStarts(order: seq<Id>, fails: Id -> bool)
    ensures AllStart(Reverse(order), fails) <==> AllStart(order, fails)
  {
    if AllStart(Reverse(order), fails) {
      forall i | 0 <= i < |order| ensures !fails(order[i]) {
        assert Reverse(order)[|order| - 1 - i] == order[i];
      }
    }
  }
}
