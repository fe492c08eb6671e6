/**
 Why the one-token promise needs its hypothesis: started_at is durable before the mint, so a token with
 exactly the maximum lifetime still outlives started_at plus that maximum by its mint delay. For every
 contract and every positive sum of mint delay and lifetime excess there is a run that shows it, and it
 attains the bound of the overlap theorem.
 */
module SourceIntentOverlap {
  import opened Wrappers
  import opened SourceIntent
  import opened SourceIntentInvariant
  import opened SourceIntentTheorems

  lemma Append(c: Contract, worlds: seq<World>, labels: seq<Label>, name: Label, next: World)
    requires Run(c, worlds, labels) && Step(c, worlds[|worlds| - 1], name, next)
    ensures Run(c, worlds + [next], labels + [name])
  {
    PathStep(c, worlds[|worlds| - 1], name, next, [], []);
    assert [next] + [] == [next] && [name] + [] == [name];
    Continue(c, worlds, labels, [next], [name]);
  }

  /** A rest state in which this issue command may mint: nothing recorded yet, or only its own lost mint,
      whose deadline has passed. */
  predicate Mintable(c: Contract, w: World, cmd: Command) {
    var id, unit := cmd.intent.intentId, cmd.intent.landingUnit;
    && cmd.action == Issue && cmd.intent.supersedes == None
    && w.process.Idle? && !w.store.suspended && w.clock < cmd.intent.expiresAt
    && unit !in w.store.credentials
    && (id in w.store.aliases ==> w.store.aliases[id] == AliasOf(cmd.intent))
    && (unit in w.store.records ==> Expired(c, w.store.records[unit], cmd, w.clock))
  }

  predicate Expired(c: Contract, record: Record, cmd: Command, time: int) {
    && record.pending.Some?
    && var p := record.pending.value;
    && record == LostRecord(cmd, PendingAt(cmd, Issuing, p.startedAt))
    && Deadline(c, p) <= time
  }

  function LostRecord(cmd: Command, pending: Option<Pending>): Record {
    Record(cmd.intent, cmd.session, Approved, pending, map[])
  }

  function PendingAt(cmd: Command, stage: Stage, time: int): Option<Pending> {
    Some(Pending(cmd.id, OperationOf(cmd), stage, None, time))
  }

  /** Lookup, gate and the preparing write. */
  lemma Enters(c: Contract, w: World, cmd: Command) returns (w1: World, w2: World, w3: World)
    requires Mintable(c, w, cmd)
    ensures Step(c, w, Begin(cmd), w1) && Step(c, w1, Bind, w2) && Step(c, w2, Choose, w3)
    ensures w3.process == Prepared(cmd, LostRecord(cmd, PendingAt(cmd, Preparing, w.clock)), w.clock)
    ensures w3.tokens == w.tokens && w3.clock == w.clock
    ensures w3.store.credentials == w.store.credentials && w3.store.suspended == w.store.suspended
    ensures cmd.intent.intentId in w3.store.aliases
    ensures w3.store.aliases[cmd.intent.intentId] == AliasOf(cmd.intent)
  {
    var id, unit := cmd.intent.intentId, cmd.intent.landingUnit;
    var state := if unit in w.store.records then w.store.records[unit] else NewRecord(cmd);
    w1 := w.(process := Opened(cmd, state));
    var aliases := if id in w.store.aliases then w.store.aliases else w.store.aliases[id := AliasOf(cmd.intent)];
    w2 := w1.(store := w1.store.(aliases := aliases), process := Bound(cmd, state, w.clock));
    var preparing := LostRecord(cmd, PendingAt(cmd, Preparing, w.clock));
    w3 := PutRecord(w2, preparing).(process := Prepared(cmd, preparing, w.clock));
    assert Decide(c, w2.store, cmd, state, w.clock) == Prepare(preparing);
  }

  /** The issuing write, a delayed mint, and a crash before the projection. */
  lemma Loses(c: Contract, w: World, cmd: Command, delay: nat, expiresAt: int)
    returns (more: seq<World>, names: seq<Label>)
    requires w.process == Prepared(cmd, LostRecord(cmd, PendingAt(cmd, Preparing, w.clock)), w.clock)
    requires cmd.intent.landingUnit !in w.store.credentials && w.clock < cmd.intent.expiresAt
    ensures Path(c, w, more, names) && more != []
    ensures var end := more[|more| - 1];
            && end.process.Idle? && end.clock == w.clock + delay
            && end.tokens == w.tokens + [Token(cmd.intent, w.clock, w.clock + delay, expiresAt, false)]
            && end.store == PutRecord(w, LostRecord(cmd, PendingAt(cmd, Issuing, w.clock))).store
  {
    var now := w.clock;
    var issuing := LostRecord(cmd, PendingAt(cmd, Issuing, now));
    var w4 := PutRecord(w, issuing).(process := Minting(cmd, issuing, now));
    var w5 := w4.(clock := now + delay);
    var w6 := w5.(tokens := w5.tokens + [Token(cmd.intent, now, now + delay, expiresAt, false)],
                  process := Minted(cmd, issuing, now, |w5.tokens|));
    var w7 := w6.(process := Idle);
    PathStep(c, w6, Crash, w7, [], []);
    more, names := [w7] + [], [Crash] + [];
    PathStep(c, w5, Mint(expiresAt), w6, more, names);
    more, names := [w6] + more, [Mint(expiresAt)] + names;
    PathStep(c, w4, Tick(now + delay), w5, more, names);
    more, names := [w5] + more, [Tick(now + delay)] + names;
    PathStep(c, w, Announce, w4, more, names);
    more, names := [w4] + more, [Announce] + names;
  }

  /** From rest to a mint that the process does not survive. */
  lemma LostMint(c: Contract, w: World, cmd: Command, delay: nat, expiresAt: int)
    returns (more: seq<World>, names: seq<Label>)
    requires Mintable(c, w, cmd)
    ensures Path(c, w, more, names) && more != []
    ensures var end := more[|more| - 1];
            && end.clock == w.clock + delay
            && end.tokens == w.tokens + [Token(cmd.intent, w.clock, w.clock + delay, expiresAt, false)]
            && forall time | time < cmd.intent.expiresAt && w.clock + c.maximumLifetime <= time ::
                 Mintable(c, end.(clock := time), cmd)
  {
    var w1, w2, w3 := Enters(c, w, cmd);
    more, names := Loses(c, w3, cmd, delay, expiresAt);
    PathStep(c, w2, Choose, w3, more, names);
    more, names := [w3] + more, [Choose] + names;
    PathStep(c, w1, Bind, w2, more, names);
    more, names := [w2] + more, [Bind] + names;
    PathStep(c, w, Begin(cmd), w1, more, names);
    more, names := [w1] + more, [Begin(cmd)] + names;
  }

  function Later(a: int, b: int): int { if a < b then b else a }

  /** For every contract, every first issue of an intent, and every mint delay and lifetime excess with a
      positive sum: a run in which the delayed first token is lost, a second one is minted when the first
      one's deadline has passed, and both are live until the first expires. With a delay of at most the
      maximum lifetime the overlap is one tick short of delay plus excess. */
  lemma DelayOrExcessOverlaps(c: Contract, cmd: Command, delay: nat, excess: int)
    returns (worlds: seq<World>, labels: seq<Label>)
    requires cmd.action == Issue && cmd.intent.supersedes == None
    requires 0 < delay + excess && 0 < c.maximumLifetime + excess
    requires Later(delay, c.maximumLifetime) < cmd.intent.expiresAt
    ensures Run(c, worlds, labels)
    ensures var w := worlds[|worlds| - 1];
            && |w.tokens| == 2 && LiveToken(w, 0) && LiveToken(w, 1)
            && w.tokens[0].intent == w.tokens[1].intent == cmd.intent
            && MintDelay(w.tokens[0]) == delay && LifetimeExcess(c, w.tokens[0]) == excess
            && MintDelay(w.tokens[1]) == 0
            && (delay + excess <= c.maximumLifetime && delay <= c.maximumLifetime ==>
                  LifetimeExcess(c, w.tokens[1]) == 0)
            && (delay <= c.maximumLifetime ==> w.clock - w.tokens[1].mintedAt == delay + excess - 1)
  {
    var second, end := Later(delay, c.maximumLifetime), delay + c.maximumLifetime + excess;
    var w0 := World(Store(map[], map[], map[], map[], false), [], 0, Idle);
    worlds, labels := [w0], [];
    var more, names := LostMint(c, w0, cmd, delay, end);
    Continue(c, worlds, labels, more, names);
    worlds, labels := worlds + more, labels + names;
    var w2 := more[|more| - 1].(clock := second);
    Append(c, worlds, labels, Tick(second), w2);
    worlds, labels := worlds + [w2], labels + [Tick(second)];
    more, names := LostMint(c, w2, cmd, 0, Later(second + c.maximumLifetime, end));
    Continue(c, worlds, labels, more, names);
    worlds, labels := worlds + more, labels + names;
    var w4 := more[|more| - 1].(clock := end - 1);
    Append(c, worlds, labels, Tick(end - 1), w4);
    worlds, labels := worlds + [w4], labels + [Tick(end - 1)];
  }
}
