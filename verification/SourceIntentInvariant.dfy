/**
 The inductive invariant of the source-intent machine.

 A token is settled at a time when it is revoked or when the whole maximum
 lifetime has passed since the started_at it was minted under. No step assumes
 anything about when the provider lets a token expire; the theorems add that.
 */
module SourceIntentInvariant {
  import opened Wrappers
  import opened SourceIntent

  predicate Settled(c: Contract, token: Token, time: int) {
    token.revoked || token.startedAt + c.maximumLifetime <= time
  }

  predicate Quiet(c: Contract, w: World, unit: string) {
    forall i | 0 <= i < |w.tokens| && w.tokens[i].intent.landingUnit == unit ::
      Settled(c, w.tokens[i], w.clock)
  }

  predicate QuietExcept(c: Contract, w: World, unit: string, k: nat) {
    forall i | 0 <= i < |w.tokens| && w.tokens[i].intent.landingUnit == unit && i != k ::
      Settled(c, w.tokens[i], w.clock)
  }

  /** Every token of the unit was minted no later than under the pending issuance. */
  predicate BoundedBy(c: Contract, w: World, unit: string, startedAt: int) {
    forall i | 0 <= i < |w.tokens| && w.tokens[i].intent.landingUnit == unit ::
      Settled(c, w.tokens[i], w.clock) || w.tokens[i].startedAt <= startedAt
  }

  predicate RevocationRecorded(record: Record) {
    exists id | id in record.operations :: record.operations[id].operation.action == Revoke
  }

  predicate Aliased(store: Store, intent: Intent) {
    intent.intentId in store.aliases && store.aliases[intent.intentId] == AliasOf(intent)
  }

  /** The projected credential is the only token of the unit that may be unsettled. */
  predicate CredentialInv(c: Contract, w: World, unit: string)
    requires unit in w.store.records && unit in w.store.credentials
  {
    var intent, credential := w.store.records[unit].intent, w.store.credentials[unit];
    && credential.token < |w.tokens|
    && w.tokens[credential.token].intent == intent
    && w.tokens[credential.token].expiresAt == credential.expiresAt
    && credential.binding == BindingOf(intent)
    && QuietExcept(c, w, unit, credential.token)
  }

  predicate RecordInv(c: Contract, w: World, unit: string)
    requires unit in w.store.records
  {
    var record := w.store.records[unit];
    && record.intent.landingUnit == unit
    && Aliased(w.store, record.intent)
    && (record.pending.Some? ==> record.pending.value.startedAt <= w.clock)
    && (unit in w.store.credentials ==> CredentialInv(c, w, unit))
    && (unit !in w.store.credentials ==>
          if UncertainMint(record).Some? then BoundedBy(c, w, unit, record.pending.value.startedAt)
          else Quiet(c, w, unit))
    && (RevocationRecorded(record) ==>
          record.phase == Tombstone && record.pending == None && unit !in w.store.credentials)
  }

  predicate UnitInv(c: Contract, w: World, unit: string) {
    if unit in w.store.records then RecordInv(c, w, unit)
    else
      && unit !in w.store.credentials
      && forall i | 0 <= i < |w.tokens| :: w.tokens[i].intent.landingUnit != unit
  }

  /** A record that was retired to history, and what its unit holds now. */
  predicate RetiredInv(c: Contract, w: World, intent: Intent)
    requires intent in w.store.history
  {
    var retired, unit := w.store.history[intent], intent.landingUnit;
    && retired.intent == intent
    && retired.phase == Tombstone
    && retired.pending == None
    && Aliased(w.store, intent)
    && unit in w.store.records
    && (w.store.records[unit].intent == intent ==>
          && w.store.records[unit].phase == Tombstone
          && forall id | id in retired.operations ::
               id in w.store.records[unit].operations && w.store.records[unit].operations[id] == retired.operations[id])
    && forall i | 0 <= i < |w.tokens| && w.tokens[i].intent == intent :: Settled(c, w.tokens[i], w.clock)
  }

  predicate TokenInv(w: World) {
    forall i | 0 <= i < |w.tokens| ::
      w.tokens[i].startedAt <= w.tokens[i].mintedAt <= w.clock
  }

  /** A later token of a unit was minted only after every earlier one had settled. */
  predicate Separated(c: Contract, w: World) {
    forall i, j | 0 <= i < j < |w.tokens| && w.tokens[i].intent.landingUnit == w.tokens[j].intent.landingUnit ::
      Settled(c, w.tokens[i], w.tokens[j].mintedAt)
  }

  // ------------------------------------------------------------------
  // What the volatile memory of the lock holder has to do with the store.
  // ------------------------------------------------------------------

  /** The memory copy of the unit's own record, up to a newly bound session. */
  predicate Continuing(store: Store, cmd: Command, state: Record) {
    var unit := cmd.intent.landingUnit;
    && unit in store.records
    && store.records[unit].intent == cmd.intent
    && state == store.records[unit].(session := state.session)
    && (store.records[unit].session.Some? ==> state.session == store.records[unit].session)
    && cmd.id !in state.operations
  }

  /** A fresh record for a free unit, or for one whose tombstoned record is in history. */
  predicate Starting(store: Store, cmd: Command, state: Record) {
    var unit := cmd.intent.landingUnit;
    && state == NewRecord(cmd)
    && unit !in store.credentials
    && cmd.intent !in store.history
    && (unit in store.records ==>
          var previous := store.records[unit];
          && previous.intent != cmd.intent
          && previous.intent in store.history
          && store.history[previous.intent] == previous
          && previous.phase == Tombstone
          && previous.pending == None)
  }

  /** The record in memory is the durable one, and it belongs to an aliased intent. */
  predicate Held(store: Store, cmd: Command, state: Record) {
    && Continuing(store, cmd, state)
    && state == store.records[cmd.intent.landingUnit]
    && Aliased(store, cmd.intent)
  }

  predicate Issuance(w: World, cmd: Command, state: Record, now: int) {
    && Held(w.store, cmd, state)
    && cmd.action != Revoke
    && state.phase != Tombstone
    && state.pending.Some?
    && now <= w.clock
  }

  predicate TokenWithdrawn(w: World, unit: string) {
    && unit in w.store.credentials
    && w.store.credentials[unit].token < |w.tokens|
    && w.tokens[w.store.credentials[unit].token].revoked
  }

  predicate ProcessInv(c: Contract, w: World) {
    var store := w.store;
    match w.process
    case Idle => true
    case Suspending => true
    case Removing(unit, _) => TokenWithdrawn(w, unit)
    case Opened(cmd, state) =>
      && (cmd.intent.intentId in store.aliases ==> Aliased(store, cmd.intent))
      && (Continuing(store, cmd, state) || Starting(store, cmd, state))
    case Bound(cmd, state, now) =>
      && now <= w.clock
      && Aliased(store, cmd.intent)
      && (state.phase == Tombstone ==> cmd.action == Revoke)
      && (Continuing(store, cmd, state) || Starting(store, cmd, state))
    case Entombed(cmd, state, now) =>
      && Held(store, cmd, state) && cmd.action == Revoke && state.phase == Tombstone && now <= w.clock
      && state.pending == UncertainMint(state)
    case Withdrawn(cmd, state, now) =>
      && Held(store, cmd, state) && cmd.action == Revoke && state.phase == Tombstone && now <= w.clock
      && TokenWithdrawn(w, cmd.intent.landingUnit)
    case Prepared(cmd, state, now) =>
      && Issuance(w, cmd, state, now)
      && state.pending.value.stage == Preparing
    case Rotating(cmd, state, now) =>
      && Issuance(w, cmd, state, now)
      && state.pending.value.stage == Preparing
      && TokenWithdrawn(w, cmd.intent.landingUnit)
    case Minting(cmd, state, now) =>
      && Issuance(w, cmd, state, now)
      && state.pending.value.stage == Issuing
      && cmd.intent.landingUnit !in store.credentials
      && Quiet(c, w, cmd.intent.landingUnit)
    case Minted(cmd, state, now, k) =>
      && Issuance(w, cmd, state, now)
      && state.pending.value.stage == Issuing
      && cmd.intent.landingUnit !in store.credentials
      && k < |w.tokens|
      && w.tokens[k].intent == cmd.intent
      && QuietExcept(c, w, cmd.intent.landingUnit, k)
    case Finishing(cmd, state, now, outcome) =>
      && Aliased(store, cmd.intent)
      && now <= w.clock
      && Continuing(store, cmd, state)
      && (outcome == Revoked <==> cmd.action == Revoke)
      && if cmd.action == Revoke
         then state.phase == Tombstone && state == store.records[cmd.intent.landingUnit]
              && cmd.intent.landingUnit !in store.credentials && Quiet(c, w, cmd.intent.landingUnit)
         else state.phase != Tombstone && cmd.intent.landingUnit in store.credentials
  }

  ghost predicate Inv(c: Contract, w: World) {
    && (forall unit: string :: UnitInv(c, w, unit))
    && (forall intent | intent in w.store.history :: RetiredInv(c, w, intent))
    && TokenInv(w)
    && Separated(c, w)
    && ProcessInv(c, w)
  }

  // ------------------------------------------------------------------
  // Frames: what a step leaves alone.
  // ------------------------------------------------------------------

  /** Tokens are only appended or revoked. */
  predicate TokensGrow(before: seq<Token>, after: seq<Token>) {
    && |before| <= |after|
    && forall i | 0 <= i < |before| ::
         after[i] == before[i] || after[i] == before[i].(revoked := true)
  }

  predicate AliasesGrow(before: map<string, Alias>, after: map<string, Alias>) {
    forall id | id in before :: id in after && after[id] == before[id]
  }

  /** A step that touched nothing of this unit. */
  predicate UnitUntouched(w: World, w': World, unit: string) {
    && w.clock <= w'.clock
    && TokensGrow(w.tokens, w'.tokens)
    && (forall i | |w.tokens| <= i < |w'.tokens| :: w'.tokens[i].intent.landingUnit != unit)
    && AliasesGrow(w.store.aliases, w'.store.aliases)
    && (unit in w.store.records <==> unit in w'.store.records)
    && (unit in w.store.records ==> w.store.records[unit] == w'.store.records[unit])
    && (unit in w.store.credentials <==> unit in w'.store.credentials)
    && (unit in w.store.credentials ==> w.store.credentials[unit] == w'.store.credentials[unit])
  }

  lemma UnitFrame(c: Contract, w: World, w': World, unit: string)
    requires UnitInv(c, w, unit)
    requires UnitUntouched(w, w', unit)
    ensures UnitInv(c, w', unit)
  {
  }

  /** A step that leaves records and history alone and mints nothing. */
  predicate RecordsUntouched(w: World, w': World) {
    && w.clock <= w'.clock
    && TokensGrow(w.tokens, w'.tokens)
    && |w.tokens| == |w'.tokens|
    && AliasesGrow(w.store.aliases, w'.store.aliases)
    && w.store.records == w'.store.records
    && w.store.history == w'.store.history
  }

  lemma HistoryFrame(c: Contract, w: World, w': World)
    requires Inv(c, w)
    requires RecordsUntouched(w, w')
    ensures forall intent | intent in w'.store.history :: RetiredInv(c, w', intent)
    ensures TokenInv(w') && Separated(c, w')
  {
    forall intent | intent in w'.store.history
      ensures RetiredInv(c, w', intent)
    {
      assert RetiredInv(c, w, intent);
    }
  }
}
