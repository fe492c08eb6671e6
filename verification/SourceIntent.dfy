/**
 The source-intent credential protocol of scripts/agent_source_intent.py, as a
 state machine with one step per durable write or provider call.

 Durable state is a Store; the provider's tokens and the wall clock stand beside
 it; the one process that holds the projection lock is a Process value, whose
 contents a crash (or any exception) discards. A digest is symbolic: two intents
 have the same digest exactly when they are equal.
 */
module SourceIntent {
  import opened Wrappers

  datatype Parties = Parties(
    callerId: string, operatorId: string, repository: string,
    repositoryId: int, installationId: int, reviewerId: string)

  /** key is the work_item_ref, prototype_id or owner_repo that the kind selects. */
  datatype Subject = Subject(kind: string, key: string, detail: string)

  datatype Intent = Intent(
    intentId: string, purpose: string, parties: Parties, landingUnit: string,
    branch: string, fetchedBase: string, subject: Subject, sourceStart: string,
    expiresAt: int, supersedes: Option<Digest>)

  datatype Digest = OfIntent(intent: Intent) | Foreign(hex: string)

  datatype Action = Issue | Renew | Revoke

  datatype Command = Command(id: string, action: Action, intent: Intent, session: Option<string>)

  /** What operation_digest covers: the action and the whole input. */
  datatype Operation = Operation(action: Action, intent: Intent, session: Option<string>)

  datatype Outcome = Issued | Renewed | Current | Revoked

  datatype Receipt = Receipt(
    commandId: string, action: Action, outcome: Outcome, intent: Intent,
    session: Option<string>, tokenExpiresAt: Option<int>, recordedAt: int)

  datatype Entry = Entry(operation: Operation, receipt: Receipt)

  datatype Stage = Preparing | Issuing

  datatype Pending = Pending(
    commandId: string, operation: Operation, stage: Stage,
    priorExpiry: Option<int>, startedAt: int)

  datatype Phase = Approved | Live | Tombstone

  datatype Record = Record(
    intent: Intent, session: Option<string>, phase: Phase,
    pending: Option<Pending>, operations: map<string, Entry>)

  datatype Alias = Alias(digest: Digest, landingUnit: string)

  datatype Binding = Binding(
    landingUnit: string, repository: string, repositoryId: int, installationId: int,
    branch: string, fetchedBase: string, reviewerId: string)

  datatype Credential = Credential(binding: Binding, token: nat, expiresAt: int)

  datatype Store = Store(
    records: map<string, Record>,
    aliases: map<string, Alias>,
    history: map<Intent, Record>,
    credentials: map<string, Credential>,
    suspended: bool)

  /** startedAt is the started_at of the pending issuance the token was minted under. */
  datatype Token = Token(intent: Intent, startedAt: int, mintedAt: int, expiresAt: int, revoked: bool)

  datatype Contract = Contract(maximumLifetime: nat, rotateBefore: int)

  function OperationOf(cmd: Command): Operation {
    Operation(cmd.action, cmd.intent, cmd.session)
  }

  function AliasOf(intent: Intent): Alias {
    Alias(OfIntent(intent), intent.landingUnit)
  }

  function BindingOf(intent: Intent): Binding {
    var p := intent.parties;
    Binding(intent.landingUnit, p.repository, p.repositoryId, p.installationId,
            intent.branch, intent.fetchedBase, p.reviewerId)
  }

  function NewRecord(cmd: Command): Record {
    Record(cmd.intent, cmd.session, Approved, None, map[])
  }

  // ------------------------------------------------------------------
  // The checks of operate, in the order the code makes them.
  // ------------------------------------------------------------------

  datatype Lookup =
    | Refused
    | Replayed(receipt: Receipt)
    | Found(state: Record, retired: Option<Record>)

  /** May cmd's intent replace the record that now occupies its Landing Unit? */
  predicate MaySucceed(store: Store, cmd: Command)
    requires cmd.intent.landingUnit in store.records
  {
    var intent := cmd.intent;
    var state := store.records[intent.landingUnit];
    var previous := state.intent;
    && cmd.action != Renew
    && state.phase == Tombstone
    && state.pending == None
    && intent.landingUnit !in store.credentials
    && intent.supersedes == Some(OfIntent(previous))
    && intent.intentId != previous.intentId
    && intent.subject.kind == previous.subject.kind
    && intent.subject.key == previous.subject.key
    && intent.parties == previous.parties
  }

  function Replay(operations: map<string, Entry>, cmd: Command): Lookup
    requires cmd.id in operations
  {
    var recorded := operations[cmd.id];
    if recorded.operation == OperationOf(cmd) then Replayed(recorded.receipt) else Refused
  }

  /** Alias check, history replay, succession, first record, recorded command. */
  function LookUp(store: Store, cmd: Command): Lookup {
    var intent := cmd.intent;
    var unit := intent.landingUnit;
    if intent.intentId in store.aliases && store.aliases[intent.intentId] != AliasOf(intent) then Refused
    else if unit in store.records && store.records[unit].intent != intent then
      if intent in store.history then
        if cmd.id in store.history[intent].operations
        then Replay(store.history[intent].operations, cmd)
        else Refused
      else if MaySucceed(store, cmd) then Found(NewRecord(cmd), Some(store.records[unit]))
      else Refused
    else if unit in store.records then
      if cmd.id in store.records[unit].operations
      then Replay(store.records[unit].operations, cmd)
      else Found(store.records[unit], None)
    else if cmd.action == Renew || unit in store.credentials || intent.supersedes.Some? then Refused
    else Found(NewRecord(cmd), None)
  }

  /** The tombstone, session, expiry, suspension and projection checks. */
  predicate Allowed(store: Store, cmd: Command, state: Record, now: int) {
    && (state.phase == Tombstone ==> cmd.action == Revoke)
    && (state.session.Some? ==> cmd.session == state.session)
    && (cmd.action != Revoke ==> now < cmd.intent.expiresAt && !store.suspended)
    && (cmd.intent.landingUnit in store.credentials ==>
          store.credentials[cmd.intent.landingUnit].binding == BindingOf(cmd.intent))
  }

  function WithSession(state: Record, cmd: Command): Record {
    if cmd.session.Some? then state.(session := cmd.session) else state
  }

  datatype Decision =
    | Deny
    | Entomb(state: Record)
    | Prepare(state: Record)
    | Conclude(outcome: Outcome)

  function Deadline(c: Contract, pending: Pending): int {
    pending.startedAt + c.maximumLifetime
  }

  /** A pending mint that may have reached the provider; the preparing stage cannot have. */
  function UncertainMint(state: Record): Option<Pending> {
    if state.pending.Some? && state.pending.value.stage == Issuing then state.pending else None
  }

  function Decide(c: Contract, store: Store, cmd: Command, state: Record, now: int): Decision {
    var unit := cmd.intent.landingUnit;
    var projected := unit in store.credentials;
    var pending := UncertainMint(state);
    if cmd.action == Revoke then
      Entomb(state.(phase := Tombstone, pending := pending))
    else if pending.Some? && (pending.value.commandId != cmd.id || pending.value.operation != OperationOf(cmd)) then
      Deny
    else
      var landed := pending.Some? && projected
        && Some(store.credentials[unit].expiresAt) != pending.value.priorExpiry;
      if pending.Some? && !landed && now < Deadline(c, pending.value) then Deny
      else
        var remaining := if projected then store.credentials[unit].expiresAt - now else 0;
        if cmd.action == Issue && state.phase == Live && remaining <= c.rotateBefore then Deny
        else if projected && c.rotateBefore < remaining then Conclude(Current)
        else if landed then Conclude(if cmd.action == Issue then Issued else Renewed)
        else
          var prior := if projected then Some(store.credentials[unit].expiresAt) else None;
          Prepare(state.(pending := Some(Pending(cmd.id, OperationOf(cmd), Preparing, prior, now))))
  }

  function ReceiptOf(cmd: Command, state: Record, outcome: Outcome, expiry: Option<int>, now: int): Receipt {
    Receipt(cmd.id, cmd.action, outcome, cmd.intent, state.session, expiry, now)
  }

  /** The last write of operate: phase, cleared pending, and the command's receipt. */
  function Completed(store: Store, cmd: Command, state: Record, outcome: Outcome, now: int): Record {
    var unit := cmd.intent.landingUnit;
    var expiry := if cmd.action != Revoke && unit in store.credentials
                  then Some(store.credentials[unit].expiresAt) else None;
    var receipt := ReceiptOf(cmd, state, outcome, expiry, now);
    state.(phase := if cmd.action == Revoke then Tombstone else Live,
           pending := None,
           operations := state.operations[cmd.id := Entry(OperationOf(cmd), receipt)])
  }

  // ------------------------------------------------------------------
  // The machine.
  // ------------------------------------------------------------------

  /** Where the holder of the projection lock stands, with its volatile memory. */
  datatype Process =
    | Idle
    | Opened(cmd: Command, state: Record)
    | Bound(cmd: Command, state: Record, now: int)
    | Entombed(cmd: Command, state: Record, now: int)
    | Withdrawn(cmd: Command, state: Record, now: int)
    | Prepared(cmd: Command, state: Record, now: int)
    | Rotating(cmd: Command, state: Record, now: int)
    | Minting(cmd: Command, state: Record, now: int)
    | Minted(cmd: Command, state: Record, now: int, token: nat)
    | Finishing(cmd: Command, state: Record, now: int, outcome: Outcome)
    | Suspending
    | Removing(unit: string, suspending: bool)

  datatype World = World(store: Store, tokens: seq<Token>, clock: int, process: Process)

  datatype Label =
    | Tick(time: int)
    | Crash
    | Begin(cmd: Command)
    | Bind
    | Choose
    | RevokeCurrent
    | RemoveCurrent
    | SettleRevocation
    | Announce
    | Mint(expiresAt: int)
    | DiscardMint
    | Project
    | Finish
    | StartSuspension
    | Resume
    | StopSession(unit: string)
    | RemoveSession

  predicate Initial(w: World) {
    && w.store.records == map[] && w.store.aliases == map[] && w.store.history == map[]
    && w.store.credentials == map[] && w.tokens == [] && w.process == Idle
  }

  function RevokeToken(tokens: seq<Token>, k: nat): seq<Token>
    requires k < |tokens|
  {
    tokens[k := tokens[k].(revoked := true)]
  }

  predicate BeginStep(w: World, cmd: Command, w': World) {
    && w.process.Idle?
    && var found := LookUp(w.store, cmd);
       match found
       case Found(state, None) => w' == w.(process := Opened(cmd, state))
       case Found(state, Some(retired)) =>
         w' == w.(store := w.store.(history := w.store.history[retired.intent := retired]),
                  process := Opened(cmd, state))
       case _ => w' == w
  }

  predicate BindStep(w: World, w': World) {
    && w.process.Opened?
    && var cmd, state := w.process.cmd, w.process.state;
    && Allowed(w.store, cmd, state, w.clock)
    && var id := cmd.intent.intentId;
    && var aliases := if id in w.store.aliases then w.store.aliases
                      else w.store.aliases[id := AliasOf(cmd.intent)];
    && w' == w.(store := w.store.(aliases := aliases),
                process := Bound(cmd, WithSession(state, cmd), w.clock))
  }

  function PutRecord(w: World, state: Record): World {
    w.(store := w.store.(records := w.store.records[state.intent.landingUnit := state]))
  }

  predicate ChooseStep(c: Contract, w: World, w': World) {
    && w.process.Bound?
    && var cmd, state, now := w.process.cmd, w.process.state, w.process.now;
       match Decide(c, w.store, cmd, state, now)
       case Deny => false
       case Entomb(next) => w' == PutRecord(w, next).(process := Entombed(cmd, next, now))
       case Prepare(next) => w' == PutRecord(w, next).(process := Prepared(cmd, next, now))
       case Conclude(outcome) => w' == w.(process := Finishing(cmd, state, now, outcome))
  }

  /** safe_revoke of the projected token, on the way to a tombstone or to a rotation. */
  predicate RevokeCurrentStep(w: World, w': World) {
    && (w.process.Entombed? || w.process.Prepared?)
    && var unit := w.process.cmd.intent.landingUnit;
    && unit in w.store.credentials
    && var k := w.store.credentials[unit].token;
    && k < |w.tokens|
    && w' == w.(tokens := RevokeToken(w.tokens, k),
                process := if w.process.Entombed?
                           then Withdrawn(w.process.cmd, w.process.state, w.process.now)
                           else Rotating(w.process.cmd, w.process.state, w.process.now))
  }

  function DropCredential(w: World, unit: string): World {
    w.(store := w.store.(credentials := w.store.credentials - {unit}))
  }

  predicate RemoveCurrentStep(w: World, w': World) {
    && (w.process.Withdrawn? || w.process.Rotating?)
    && var cmd, state, now := w.process.cmd, w.process.state, w.process.now;
    && w' == DropCredential(w, cmd.intent.landingUnit).(
               process := if w.process.Withdrawn? then Finishing(cmd, state, now, Revoked)
                          else Prepared(cmd, state, now))
  }

  /** Revoking with nothing projected waits for a possible lost mint to expire. */
  predicate SettleRevocationStep(c: Contract, w: World, w': World) {
    && w.process.Entombed?
    && var cmd, state, now := w.process.cmd, w.process.state, w.process.now;
    && cmd.intent.landingUnit !in w.store.credentials
    && (state.pending.Some? ==> Deadline(c, state.pending.value) <= now)
    && w' == w.(process := Finishing(cmd, state, now, Revoked))
  }

  /** before_issue: a fresh clock, and the issuing stage made durable before the mint. */
  predicate AnnounceStep(w: World, w': World) {
    && w.process.Prepared?
    && var cmd, state, now := w.process.cmd, w.process.state, w.process.now;
    && cmd.intent.landingUnit !in w.store.credentials
    && w.clock < cmd.intent.expiresAt
    && state.pending.Some?
    && var next := state.(pending := Some(state.pending.value.(stage := Issuing, startedAt := w.clock)));
    && w' == PutRecord(w, next).(process := Minting(cmd, next, now))
  }

  predicate MintStep(w: World, expiresAt: int, w': World) {
    && w.process.Minting?
    && var cmd, state, now := w.process.cmd, w.process.state, w.process.now;
    && state.pending.Some?
    && var token := Token(cmd.intent, state.pending.value.startedAt, w.clock, expiresAt, false);
    && w' == w.(tokens := w.tokens + [token], process := Minted(cmd, state, now, |w.tokens|))
  }

  /** Verification or projection of the fresh token failed, and revoking it succeeded. */
  predicate DiscardMintStep(w: World, w': World) {
    && w.process.Minted?
    && w.process.token < |w.tokens|
    && w' == w.(tokens := RevokeToken(w.tokens, w.process.token), process := Idle)
  }

  predicate ProjectStep(w: World, w': World) {
    && w.process.Minted?
    && var cmd, state, now, k := w.process.cmd, w.process.state, w.process.now, w.process.token;
    && k < |w.tokens|
    && var credential := Credential(BindingOf(cmd.intent), k, w.tokens[k].expiresAt);
    && var outcome := if cmd.action == Issue then Issued else Renewed;
    && w' == w.(store := w.store.(credentials := w.store.credentials[cmd.intent.landingUnit := credential]),
                process := Finishing(cmd, state, now, outcome))
  }

  predicate FinishStep(w: World, w': World) {
    && w.process.Finishing?
    && var cmd, state, now, outcome := w.process.cmd, w.process.state, w.process.now, w.process.outcome;
    && w' == PutRecord(w, Completed(w.store, cmd, state, outcome, now)).(process := Idle)
  }

  /** One session of command_suspend, or the whole of command_revoke: revoke, then remove. */
  predicate StopSessionStep(w: World, unit: string, w': World) {
    && (w.process.Suspending? || w.process.Idle?)
    && unit in w.store.credentials
    && var k := w.store.credentials[unit].token;
    && k < |w.tokens|
    && w' == w.(tokens := RevokeToken(w.tokens, k), process := Removing(unit, w.process.Suspending?))
  }

  predicate RemoveSessionStep(w: World, w': World) {
    && w.process.Removing?
    && w' == DropCredential(w, w.process.unit).(
               process := if w.process.suspending then Suspending else Idle)
  }

  predicate Step(c: Contract, w: World, move: Label, w': World) {
    match move
    case Tick(time) => w.clock <= time && w' == w.(clock := time)
    case Crash => w' == w.(process := Idle)
    case Begin(cmd) => BeginStep(w, cmd, w')
    case Bind => BindStep(w, w')
    case Choose => ChooseStep(c, w, w')
    case RevokeCurrent => RevokeCurrentStep(w, w')
    case RemoveCurrent => RemoveCurrentStep(w, w')
    case SettleRevocation => SettleRevocationStep(c, w, w')
    case Announce => AnnounceStep(w, w')
    case Mint(expiresAt) => MintStep(w, expiresAt, w')
    case DiscardMint => DiscardMintStep(w, w')
    case Project => ProjectStep(w, w')
    case Finish => FinishStep(w, w')
    case StartSuspension =>
      w.process.Idle? && w' == w.(store := w.store.(suspended := true), process := Suspending)
    case Resume =>
      w.process.Idle? && w' == w.(store := w.store.(suspended := false))
    case StopSession(unit) => StopSessionStep(w, unit, w')
    case RemoveSession => RemoveSessionStep(w, w')
  }

  /** A run from an empty installation: every adjacent pair of worlds is one step. */
  ghost predicate Run(c: Contract, worlds: seq<World>, labels: seq<Label>) {
    && |worlds| == |labels| + 1
    && Initial(worlds[0])
    && forall i {:trigger labels[i]} | 0 <= i < |labels| :: Step(c, worlds[i], labels[i], worlds[i + 1])
  }
}
