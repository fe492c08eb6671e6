/** What the invariant buys: the promises of the source-intent protocol over every run. */
module SourceIntentTheorems {
  import opened Wrappers
  import opened SourceIntent
  import opened SourceIntentInvariant
  import opened SourceIntentSteps

  // ------------------------------------------------------------------
  // At most one live token.
  // ------------------------------------------------------------------

  predicate LiveToken(w: World, i: nat)
    requires i < |w.tokens|
  {
    !w.tokens[i].revoked && w.clock < w.tokens[i].expiresAt
  }

  /** The hypothesis of the one-token promise: no token outlives started_at plus the maximum. */
  predicate Timely(c: Contract, w: World) {
    forall i | 0 <= i < |w.tokens| :: w.tokens[i].expiresAt <= w.tokens[i].startedAt + c.maximumLifetime
  }

  function MintDelay(token: Token): int {
    token.mintedAt - token.startedAt
  }

  function LifetimeExcess(c: Contract, token: Token): int {
    token.expiresAt - token.mintedAt - c.maximumLifetime
  }

  /** With no hypothesis at all, two tokens of one unit overlap for less than the
      older one's mint delay plus its lifetime excess. */
  lemma OverlapBounded(c: Contract, worlds: seq<World>, labels: seq<Label>, k: nat, i: nat, j: nat)
    requires Run(c, worlds, labels) && k < |worlds|
    requires i < j < |worlds[k].tokens|
    requires worlds[k].tokens[i].intent.landingUnit == worlds[k].tokens[j].intent.landingUnit
    requires LiveToken(worlds[k], i) && LiveToken(worlds[k], j)
    ensures var older := worlds[k].tokens[i];
            worlds[k].clock - worlds[k].tokens[j].mintedAt < MintDelay(older) + LifetimeExcess(c, older)
  {
    RunKeeps(c, worlds, labels, k);
    assert Settled(c, worlds[k].tokens[i], worlds[k].tokens[j].mintedAt);
  }

  lemma AtMostOneLiveToken(c: Contract, worlds: seq<World>, labels: seq<Label>, k: nat)
    requires Run(c, worlds, labels) && k < |worlds|
    requires Timely(c, worlds[k])
    ensures forall i: nat, j: nat | i < j < |worlds[k].tokens| && LiveToken(worlds[k], i) && LiveToken(worlds[k], j) ::
              worlds[k].tokens[i].intent.landingUnit != worlds[k].tokens[j].intent.landingUnit
  {
    forall i: nat, j: nat | i < j < |worlds[k].tokens| && LiveToken(worlds[k], i) && LiveToken(worlds[k], j)
      ensures worlds[k].tokens[i].intent.landingUnit != worlds[k].tokens[j].intent.landingUnit
    {
      RunKeeps(c, worlds, labels, k);
      if worlds[k].tokens[i].intent.landingUnit == worlds[k].tokens[j].intent.landingUnit {
        OverlapBounded(c, worlds, labels, k, i, j);
      }
    }
  }

  // ------------------------------------------------------------------
  // Tombstones and succession.
  // ------------------------------------------------------------------

  predicate IsCurrent(w: World, intent: Intent) {
    intent.landingUnit in w.store.records && w.store.records[intent.landingUnit].intent == intent
  }

  predicate Tombstoned(w: World, intent: Intent) {
    intent in w.store.history
    || (IsCurrent(w, intent) && w.store.records[intent.landingUnit].phase == Tombstone)
  }

  predicate Superseded(w: World, intent: Intent) {
    intent in w.store.history && !IsCurrent(w, intent)
  }

  /** The three things a step may do to the records and the history. */
  predicate Keeps(w: World, w': World) {
    w'.store.records == w.store.records && w'.store.history == w.store.history
  }

  predicate Archives(w: World, w': World, unit: string) {
    && unit in w.store.records
    && w'.store.records == w.store.records
    && w'.store.history == w.store.history[w.store.records[unit].intent := w.store.records[unit]]
    && w.store.records[unit].phase == Tombstone
    && w.store.records[unit].intent.landingUnit == unit
  }

  predicate Rewrites(w: World, w': World, unit: string) {
    && unit in w'.store.records
    && var next := w'.store.records[unit];
    && w'.store.records == w.store.records[unit := next]
    && w'.store.history == w.store.history
    && next.intent.landingUnit == unit
    && (unit in w.store.records ==>
          var state := w.store.records[unit];
          if state.intent == next.intent then
            && (state.phase == Tombstone ==> next.phase == Tombstone)
            && (state.session.Some? ==> next.session == state.session)
            && forall id | id in state.operations ::
                 id in next.operations && next.operations[id] == state.operations[id]
          else
            state.intent in w.store.history && w.store.history[state.intent] == state)
    && (IsCurrent(w, next.intent) || next.intent !in w.store.history)
  }

  lemma Effect(c: Contract, w: World, move: Label, w': World) returns (unit: string)
    requires Inv(c, w) && Step(c, w, move, w')
    ensures Keeps(w, w') || Archives(w, w', unit) || Rewrites(w, w', unit)
  {
    unit := "";
    match move
    case Begin(cmd) => unit := cmd.intent.landingUnit; BeginEffect(c, w, cmd, w');
    case Choose => unit := w.process.cmd.intent.landingUnit; ChooseEffect(c, w, w');
    case Announce => unit := w.process.cmd.intent.landingUnit;
    case Finish => unit := w.process.cmd.intent.landingUnit;
    case _ =>
  }

  lemma BeginEffect(c: Contract, w: World, cmd: Command, w': World)
    requires Inv(c, w) && BeginStep(w, cmd, w')
    ensures Keeps(w, w') || Archives(w, w', cmd.intent.landingUnit)
  {
    assert UnitInv(c, w, cmd.intent.landingUnit);
  }

  lemma ChooseEffect(c: Contract, w: World, w': World)
    requires Inv(c, w) && ChooseStep(c, w, w')
    ensures Keeps(w, w') || Rewrites(w, w', w.process.cmd.intent.landingUnit)
  {
    RetiredFacts(c, w, w.process.cmd.intent);
  }

  lemma MintsOnlyForCurrent(c: Contract, w: World, move: Label, w': World)
    requires Inv(c, w) && Step(c, w, move, w')
    ensures TokensGrow(w.tokens, w'.tokens)
    ensures forall k | |w.tokens| <= k < |w'.tokens| ::
              IsCurrent(w, w'.tokens[k].intent) && !Tombstoned(w, w'.tokens[k].intent)
  {
    if move.Mint? { RetiredFacts(c, w, w.process.cmd.intent); }
  }

  lemma TombstoneStep(c: Contract, w: World, move: Label, w': World, intent: Intent)
    requires Inv(c, w) && Step(c, w, move, w')
    requires Tombstoned(w, intent)
    ensures Tombstoned(w', intent)
    ensures Superseded(w, intent) ==> Superseded(w', intent)
    ensures |w.tokens| <= |w'.tokens|
    ensures forall k | |w.tokens| <= k < |w'.tokens| :: w'.tokens[k].intent != intent
  {
    RetiredFacts(c, w, intent);
    MintsOnlyForCurrent(c, w, move, w');
    var unit := Effect(c, w, move, w');
  }

  /** Once tombstoned, always tombstoned, and nothing is minted under the intent again;
      once superseded, never current again. */
  lemma {:induction false} TombstonesArePermanent(
    c: Contract, worlds: seq<World>, labels: seq<Label>, a: nat, b: nat, intent: Intent)
    requires Run(c, worlds, labels) && a <= b < |worlds|
    requires Tombstoned(worlds[a], intent)
    ensures Tombstoned(worlds[b], intent)
    ensures Superseded(worlds[a], intent) ==> Superseded(worlds[b], intent)
    ensures |worlds[a].tokens| <= |worlds[b].tokens|
    ensures forall k | |worlds[a].tokens| <= k < |worlds[b].tokens| :: worlds[b].tokens[k].intent != intent
    decreases b
  {
    if a < b {
      TombstonesArePermanent(c, worlds, labels, a, b - 1, intent);
      RunKeeps(c, worlds, labels, b - 1);
      TombstoneStep(c, worlds[b - 1], labels[b - 1], worlds[b], intent);
      TokensOnlyGrow(c, worlds[b - 1], labels[b - 1], worlds[b]);
    }
  }

  lemma TokensOnlyGrow(c: Contract, w: World, move: Label, w': World)
    requires Step(c, w, move, w')
    ensures TokensGrow(w.tokens, w'.tokens)
    ensures AliasesGrow(w.store.aliases, w'.store.aliases)
    ensures w.clock <= w'.clock
  {
  }

  // ------------------------------------------------------------------
  // Receipts.
  // ------------------------------------------------------------------

  /** Where a command of this intent finds its recorded receipts. */
  function Ledger(w: World, intent: Intent): map<string, Entry> {
    if IsCurrent(w, intent) then w.store.records[intent.landingUnit].operations
    else if intent in w.store.history then w.store.history[intent].operations
    else map[]
  }

  predicate RevocationReceipted(w: World, intent: Intent) {
    exists id | id in Ledger(w, intent) :: Ledger(w, intent)[id].operation.action == Revoke
  }

  /** A recorded revocation, or an admitted successor, means every token of the intent
      has settled; if tokens are timely none of them is live. */
  lemma RevokedMeansNoLiveToken(c: Contract, worlds: seq<World>, labels: seq<Label>, k: nat, intent: Intent)
    requires Run(c, worlds, labels) && k < |worlds|
    requires RevocationReceipted(worlds[k], intent) || intent in worlds[k].store.history
    ensures forall i | 0 <= i < |worlds[k].tokens| && worlds[k].tokens[i].intent == intent ::
              Settled(c, worlds[k].tokens[i], worlds[k].clock)
    ensures Timely(c, worlds[k]) ==>
              forall i: nat | i < |worlds[k].tokens| && worlds[k].tokens[i].intent == intent ::
                !LiveToken(worlds[k], i)
  {
    var w := worlds[k];
    RunKeeps(c, worlds, labels, k);
    RetiredFacts(c, w, intent);
    assert UnitInv(c, w, intent.landingUnit);
    if intent !in w.store.history {
      assert RevocationRecorded(w.store.records[intent.landingUnit]) by {
        var id :| id in Ledger(w, intent) && Ledger(w, intent)[id].operation.action == Revoke;
        assert id in w.store.records[intent.landingUnit].operations;
      }
    }
  }

  /** The converse side: an unrecorded revocation may leave a lost token, but only one
      whose whole lifetime is bounded by the issuance the record still names. */
  lemma LostTokensAreBounded(c: Contract, worlds: seq<World>, labels: seq<Label>, k: nat, unit: string, i: nat)
    requires Run(c, worlds, labels) && k < |worlds|
    requires i < |worlds[k].tokens| && worlds[k].tokens[i].intent.landingUnit == unit
    requires Timely(c, worlds[k]) && LiveToken(worlds[k], i)
    ensures unit in worlds[k].store.records
    ensures if unit in worlds[k].store.credentials then worlds[k].store.credentials[unit].token == i
            else
              && UncertainMint(worlds[k].store.records[unit]).Some?
              && worlds[k].tokens[i].expiresAt <= Deadline(c, worlds[k].store.records[unit].pending.value)
  {
    RunKeeps(c, worlds, labels, k);
    assert UnitInv(c, worlds[k], unit);
  }

  lemma LedgerEffect(c: Contract, w: World, w': World, unit: string, intent: Intent, id: string)
    requires intent in w.store.history ==> RetiredInv(c, w, intent)
    requires Keeps(w, w') || Archives(w, w', unit) || Rewrites(w, w', unit)
    requires id in Ledger(w, intent)
    ensures id in Ledger(w', intent) && Ledger(w', intent)[id] == Ledger(w, intent)[id]
  {
  }

  lemma ReceiptStep(c: Contract, w: World, move: Label, w': World, intent: Intent, id: string)
    requires Inv(c, w) && Step(c, w, move, w')
    requires id in Ledger(w, intent)
    ensures id in Ledger(w', intent) && Ledger(w', intent)[id] == Ledger(w, intent)[id]
  {
    RetiredFacts(c, w, intent);
    var unit := Effect(c, w, move, w');
    LedgerEffect(c, w, w', unit, intent, id);
  }

  lemma {:induction false} ReceiptsArePermanent(
    c: Contract, worlds: seq<World>, labels: seq<Label>, a: nat, b: nat, intent: Intent, id: string)
    requires Run(c, worlds, labels) && a <= b < |worlds|
    requires id in Ledger(worlds[a], intent)
    ensures id in Ledger(worlds[b], intent) && Ledger(worlds[b], intent)[id] == Ledger(worlds[a], intent)[id]
    decreases b
  {
    if a < b {
      ReceiptsArePermanent(c, worlds, labels, a, b - 1, intent, id);
      RunKeeps(c, worlds, labels, b - 1);
      ReceiptStep(c, worlds[b - 1], labels[b - 1], worlds[b], intent, id);
    }
  }

  /** Re-running a recorded command, at any later time, answers from the ledger and changes nothing:
      the recorded receipt for the same input, a refusal for any other. */
  lemma ReplayIsExact(
    c: Contract, worlds: seq<World>, labels: seq<Label>, a: nat, b: nat, cmd: Command, w': World)
    requires Run(c, worlds, labels) && a <= b < |worlds|
    requires cmd.id in Ledger(worlds[a], cmd.intent)
    requires Step(c, worlds[b], Begin(cmd), w')
    ensures w' == worlds[b]
    ensures var recorded := Ledger(worlds[a], cmd.intent)[cmd.id];
            LookUp(worlds[b].store, cmd) ==
              if recorded.operation == OperationOf(cmd) then Replayed(recorded.receipt) else Refused
  {
    ReceiptsArePermanent(c, worlds, labels, a, b, cmd.intent, cmd.id);
    RunKeeps(c, worlds, labels, b);
    RetiredFacts(c, worlds[b], cmd.intent);
    assert UnitInv(c, worlds[b], cmd.intent.landingUnit);
  }

  // ------------------------------------------------------------------
  // Identities and sessions.
  // ------------------------------------------------------------------

  predicate Known(w: World, intent: Intent) {
    IsCurrent(w, intent) || intent in w.store.history
  }

  /** One intent id stands for one intent, across every Landing Unit. */
  lemma IdentityIsNeverRebound(
    c: Contract, worlds: seq<World>, labels: seq<Label>, a: nat, b: nat, first: Intent, second: Intent)
    requires Run(c, worlds, labels) && a <= b < |worlds|
    requires Known(worlds[a], first) && Known(worlds[b], second)
    requires first.intentId == second.intentId
    ensures first == second
  {
    RunKeeps(c, worlds, labels, a);
    RunKeeps(c, worlds, labels, b);
    AliasesPersist(c, worlds, labels, a, b);
    RetiredFacts(c, worlds[a], first);
    RetiredFacts(c, worlds[b], second);
    assert UnitInv(c, worlds[a], first.landingUnit);
    assert UnitInv(c, worlds[b], second.landingUnit);
    assert Aliased(worlds[a].store, first) && Aliased(worlds[b].store, second);
  }

  lemma {:induction false} AliasesPersist(c: Contract, worlds: seq<World>, labels: seq<Label>, a: nat, b: nat)
    requires Run(c, worlds, labels) && a <= b < |worlds|
    ensures AliasesGrow(worlds[a].store.aliases, worlds[b].store.aliases)
    decreases b
  {
    if a < b {
      AliasesPersist(c, worlds, labels, a, b - 1);
      TokensOnlyGrow(c, worlds[b - 1], labels[b - 1], worlds[b]);
    }
  }

  predicate SessionBound(w: World, intent: Intent, session: string) {
    if IsCurrent(w, intent) then w.store.records[intent.landingUnit].session == Some(session)
    else intent in w.store.history && w.store.history[intent].session == Some(session)
  }

  lemma SessionEffect(c: Contract, w: World, w': World, unit: string, intent: Intent, session: string)
    requires intent in w.store.history ==> RetiredInv(c, w, intent)
    requires Keeps(w, w') || Archives(w, w', unit) || Rewrites(w, w', unit)
    requires SessionBound(w, intent, session)
    ensures SessionBound(w', intent, session)
  {
  }

  lemma SessionStep(c: Contract, w: World, move: Label, w': World, intent: Intent, session: string)
    requires Inv(c, w) && Step(c, w, move, w')
    requires SessionBound(w, intent, session)
    ensures SessionBound(w', intent, session)
  {
    RetiredFacts(c, w, intent);
    var unit := Effect(c, w, move, w');
    SessionEffect(c, w, w', unit, intent, session);
  }

  lemma {:induction false} SessionIsNeverRebound(
    c: Contract, worlds: seq<World>, labels: seq<Label>, a: nat, b: nat, intent: Intent, session: string)
    requires Run(c, worlds, labels) && a <= b < |worlds|
    requires SessionBound(worlds[a], intent, session)
    ensures SessionBound(worlds[b], intent, session)
    decreases b
  {
    if a < b {
      SessionIsNeverRebound(c, worlds, labels, a, b - 1, intent, session);
      RunKeeps(c, worlds, labels, b - 1);
      SessionStep(c, worlds[b - 1], labels[b - 1], worlds[b], intent, session);
    }
  }

  // ------------------------------------------------------------------
  // Revocation stays possible.
  // ------------------------------------------------------------------

  /** The deadline of a possible lost mint, if one is recorded, has passed. */
  predicate PastUncertainty(c: Contract, w: World, unit: string)
    requires unit in w.store.records
  {
    var pending := UncertainMint(w.store.records[unit]);
    pending.Some? ==> Deadline(c, pending.value) <= w.clock
  }

  /** A continuation of a run: each world follows from the one before it. */
  ghost predicate Path(c: Contract, w: World, more: seq<World>, names: seq<Label>)
    decreases |more|
  {
    && |more| == |names|
    && (more != [] ==> Step(c, w, names[0], more[0]) && Path(c, more[0], more[1..], names[1..]))
  }

  lemma {:induction false} Continue(
    c: Contract, worlds: seq<World>, labels: seq<Label>, more: seq<World>, names: seq<Label>)
    requires Run(c, worlds, labels) && Path(c, worlds[|worlds| - 1], more, names)
    ensures Run(c, worlds + more, labels + names)
    decreases |more|
  {
    if more == [] {
      assert worlds + more == worlds && labels + names == labels;
    } else {
      var ws, ls := worlds + [more[0]], labels + [names[0]];
      forall i | 0 <= i < |ls| ensures Step(c, ws[i], ls[i], ws[i + 1]) {
        if i < |labels| { assert Step(c, worlds[i], labels[i], worlds[i + 1]); }
      }
      Continue(c, ws, ls, more[1..], names[1..]);
      assert ws + more[1..] == worlds + more && ls + names[1..] == labels + names;
    }
  }

  lemma PathStep(c: Contract, w: World, name: Label, next: World, more: seq<World>, names: seq<Label>)
    requires Step(c, w, name, next) && Path(c, next, more, names)
    ensures Path(c, w, [next] + more, [name] + names)
  {
    assert ([next] + more)[1..] == more && ([name] + names)[1..] == names;
  }

  /** A new revoke command of the current intent, with the session the record asks for. */
  predicate Revocable(c: Contract, w: World, cmd: Command) {
    && w.process.Idle? && IsCurrent(w, cmd.intent) && cmd.action == Revoke
    && cmd.id !in Ledger(w, cmd.intent)
    && var state := w.store.records[cmd.intent.landingUnit];
    && (state.session.Some? ==> cmd.session == state.session)
    && (cmd.intent.landingUnit !in w.store.credentials ==> PastUncertainty(c, w, cmd.intent.landingUnit))
  }

  /** Lookup, checks and tombstone of such a command: none of them refuses. */
  lemma RevocationEnters(c: Contract, w: World, cmd: Command) returns (w1: World, w2: World, w3: World)
    requires Inv(c, w) && Revocable(c, w, cmd)
    ensures Step(c, w, Begin(cmd), w1) && Step(c, w1, Bind, w2) && Step(c, w2, Choose, w3)
    ensures w3.process.Entombed? && w3.process.cmd == cmd && w3.process.now == w.clock
    ensures w3.store.credentials == w.store.credentials && w3.tokens == w.tokens
    ensures w3.process.state.pending == UncertainMint(w.store.records[cmd.intent.landingUnit])
    ensures w3.process.state.intent == cmd.intent
  {
    var unit := cmd.intent.landingUnit;
    assert UnitInv(c, w, unit);
    var state := w.store.records[unit];
    w1 := w.(process := Opened(cmd, state));
    var bound := WithSession(state, cmd);
    w2 := w1.(process := Bound(cmd, bound, w.clock));
    var tomb := bound.(phase := Tombstone, pending := UncertainMint(bound));
    w3 := PutRecord(w2, tomb).(process := Entombed(cmd, tomb, w.clock));
  }

  /** From the tombstone to the receipt. */
  lemma RevocationLeaves(c: Contract, w: World) returns (more: seq<World>, names: seq<Label>)
    requires w.process.Entombed? && w.process.cmd.action == Revoke
    requires w.process.state.intent == w.process.cmd.intent
    requires var unit := w.process.cmd.intent.landingUnit;
             if unit in w.store.credentials then w.store.credentials[unit].token < |w.tokens|
             else w.process.state.pending.Some? ==> Deadline(c, w.process.state.pending.value) <= w.process.now
    ensures Path(c, w, more, names)
    ensures more != [] && w.process.cmd.id in Ledger(more[|more| - 1], w.process.cmd.intent)
    ensures RevocationReceipted(more[|more| - 1], w.process.cmd.intent)
  {
    var cmd, state, now := w.process.cmd, w.process.state, w.process.now;
    var unit := cmd.intent.landingUnit;
    var last := DropCredential(w, unit).(process := Finishing(cmd, state, now, Revoked));
    if unit in w.store.credentials {
      var k := w.store.credentials[unit].token;
      var a := w.(tokens := RevokeToken(w.tokens, k), process := Withdrawn(cmd, state, now));
      var b := DropCredential(a, unit).(process := Finishing(cmd, state, now, Revoked));
      var end := PutRecord(b, Completed(b.store, cmd, state, Revoked, now)).(process := Idle);
      PathStep(c, b, Finish, end, [], []);
      PathStep(c, a, RemoveCurrent, b, [end], [Finish]);
      PathStep(c, w, RevokeCurrent, a, [b] + [end], [RemoveCurrent] + [Finish]);
      more, names := [a] + ([b] + [end]), [RevokeCurrent] + ([RemoveCurrent] + [Finish]);
      assert Ledger(end, cmd.intent)[cmd.id].operation.action == Revoke;
    } else {
      var b := w.(process := Finishing(cmd, state, now, Revoked));
      var end := PutRecord(b, Completed(b.store, cmd, state, Revoked, now)).(process := Idle);
      PathStep(c, b, Finish, end, [], []);
      PathStep(c, w, SettleRevocation, b, [end], [Finish]);
      more, names := [b] + [end], [SettleRevocation] + [Finish];
      assert Ledger(end, cmd.intent)[cmd.id].operation.action == Revoke;
    }
  }

  /** From every reachable rest state, suspended or expired or not, such a command completes:
      the run can be continued to a recorded revocation. */
  lemma RevocationCanComplete(c: Contract, worlds: seq<World>, labels: seq<Label>, cmd: Command)
    returns (more: seq<World>, names: seq<Label>)
    requires Run(c, worlds, labels) && Revocable(c, worlds[|worlds| - 1], cmd)
    ensures Run(c, worlds + more, labels + names)
    ensures more != [] && cmd.id in Ledger(more[|more| - 1], cmd.intent)
    ensures RevocationReceipted(more[|more| - 1], cmd.intent)
  {
    var w := worlds[|worlds| - 1];
    RunKeeps(c, worlds, labels, |worlds| - 1);
    assert UnitInv(c, w, cmd.intent.landingUnit);
    var w1, w2, w3 := RevocationEnters(c, w, cmd);
    var tail, ends := RevocationLeaves(c, w3);
    PathStep(c, w2, Choose, w3, tail, ends);
    PathStep(c, w1, Bind, w2, [w3] + tail, [Choose] + ends);
    PathStep(c, w, Begin(cmd), w1, [w2] + ([w3] + tail), [Bind] + ([Choose] + ends));
    more, names := [w1] + ([w2] + ([w3] + tail)), [Begin(cmd)] + ([Bind] + ([Choose] + ends));
    Continue(c, worlds, labels, more, names);
  }
}
