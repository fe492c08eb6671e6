/**
 What the checks of the protocol are for, stated on the raw records: when anything may be minted, who may
 follow whom on a Landing Unit, what a projected credential is bound to, and when it is rotated.
 */
module SourceIntentPolicy {
  import opened Wrappers
  import opened SourceIntent
  import opened SourceIntentInvariant
  import opened SourceIntentSteps
  import opened SourceIntentTheorems

  // ------------------------------------------------------------------
  // A second invariant: what the lock holder has been admitted for
  // ------------------------------------------------------------------

  /** The next intent names its predecessor and keeps its subject, parties and Landing Unit. */
  predicate Succeeds(next: Intent, previous: Intent) {
    && next.supersedes == Some(OfIntent(previous)) && next.intentId != previous.intentId
    && next.landingUnit == previous.landingUnit
    && next.subject.kind == previous.subject.kind && next.subject.key == previous.subject.key
    && next.parties == previous.parties
  }

  /** The command is for the current intent, or opens a first or a succeeding record, which no renewal does. */
  predicate Entered(store: Store, cmd: Command) {
    var unit := cmd.intent.landingUnit;
    if unit in store.records && store.records[unit].intent == cmd.intent then true
    else
      && cmd.action != Renew
      && if unit in store.records then Succeeds(cmd.intent, store.records[unit].intent)
         else cmd.intent.supersedes == None
  }

  predicate SessionTaken(cmd: Command, state: Record) {
    cmd.session.Some? ==> state.session == cmd.session
  }

  predicate MayIssue(w: World, cmd: Command, state: Record) {
    SessionTaken(cmd, state) && cmd.action != Revoke && !w.store.suspended
  }

  predicate Unexpired(cmd: Command, state: Record) {
    state.pending.Some? && state.pending.value.startedAt < cmd.intent.expiresAt
  }

  /** Outcomes go with their actions, and current means outside the rotation window. */
  predicate OutcomeFits(c: Contract, store: Store, cmd: Command, now: int, outcome: Outcome) {
    var unit := cmd.intent.landingUnit;
    match outcome
    case Issued => cmd.action == Issue
    case Renewed => cmd.action == Renew
    case Revoked => cmd.action == Revoke
    case Current =>
      && cmd.action != Revoke && unit in store.credentials
      && c.rotateBefore < store.credentials[unit].expiresAt - now
  }

  predicate Policy(c: Contract, w: World) {
    match w.process
    case Opened(cmd, state) => Entered(w.store, cmd)
    case Bound(cmd, state, now) =>
      && Entered(w.store, cmd) && SessionTaken(cmd, state)
      && (cmd.action != Revoke ==> !w.store.suspended && now < cmd.intent.expiresAt)
    case Entombed(cmd, state, now) => SessionTaken(cmd, state)
    case Withdrawn(cmd, state, now) => SessionTaken(cmd, state)
    case Prepared(cmd, state, now) => MayIssue(w, cmd, state)
    case Rotating(cmd, state, now) => MayIssue(w, cmd, state)
    case Minting(cmd, state, now) => MayIssue(w, cmd, state) && Unexpired(cmd, state)
    case Minted(cmd, state, now, k) => MayIssue(w, cmd, state) && Unexpired(cmd, state)
    case Finishing(cmd, state, now, outcome) =>
      SessionTaken(cmd, state) && OutcomeFits(c, w.store, cmd, now, outcome)
    case _ => true
  }

  lemma BeginPolicy(c: Contract, w: World, cmd: Command, w': World)
    requires Inv(c, w) && BeginStep(w, cmd, w')
    ensures w'.process.Opened? ==> Entered(w'.store, cmd)
  {
    assert UnitInv(c, w, cmd.intent.landingUnit);
  }

  lemma ChoosePolicy(c: Contract, w: World, w': World)
    requires Inv(c, w) && Policy(c, w) && ChooseStep(c, w, w')
    ensures Policy(c, w')
  {
  }

  lemma StepPolicy(c: Contract, w: World, move: Label, w': World)
    requires Inv(c, w) && Policy(c, w) && Step(c, w, move, w')
    ensures Policy(c, w')
  {
    match move
    case Begin(cmd) => BeginPolicy(c, w, cmd, w');
    case Choose => ChoosePolicy(c, w, w');
    case _ =>
  }

  lemma {:induction false} RunPolicy(c: Contract, worlds: seq<World>, labels: seq<Label>, k: nat)
    requires Run(c, worlds, labels) && k < |worlds|
    ensures Policy(c, worlds[k])
  {
    if k > 0 {
      RunPolicy(c, worlds, labels, k - 1);
      RunKeeps(c, worlds, labels, k - 1);
      StepPolicy(c, worlds[k - 1], labels[k - 1], worlds[k]);
    }
  }

  // ------------------------------------------------------------------
  // Minting
  // ------------------------------------------------------------------

  /** In every run a token is minted only while issuance is not suspended, under an announcement made before
      the intent expired, for the current intent of a unit that has no projected credential. */
  lemma MintsArePermitted(c: Contract, worlds: seq<World>, labels: seq<Label>, k: nat)
    requires Run(c, worlds, labels) && k < |labels| && labels[k].Mint?
    ensures |worlds[k + 1].tokens| == |worlds[k].tokens| + 1
    ensures var w, token := worlds[k], worlds[k + 1].tokens[|worlds[k].tokens|];
            && !w.store.suspended
            && token.startedAt < token.intent.expiresAt && token.mintedAt == w.clock && !token.revoked
            && token.intent.landingUnit in w.store.records
            && w.store.records[token.intent.landingUnit].intent == token.intent
            && w.store.records[token.intent.landingUnit].phase != Tombstone
            && token.intent.landingUnit !in w.store.credentials
  {
    RunPolicy(c, worlds, labels, k);
    RunKeeps(c, worlds, labels, k);
  }

  /** Only minting adds tokens: between suspension and resumption there are no new ones. */
  lemma {:induction false} SuspendedRunsMintNothing(
    c: Contract, worlds: seq<World>, labels: seq<Label>, a: nat, b: nat)
    requires Run(c, worlds, labels) && a <= b < |worlds|
    requires worlds[a].store.suspended && forall k | a <= k < b :: !labels[k].Resume?
    ensures worlds[b].store.suspended && |worlds[b].tokens| == |worlds[a].tokens|
    ensures forall unit | unit in worlds[b].store.credentials ::
              unit in worlds[a].store.credentials
              && worlds[b].store.credentials[unit] == worlds[a].store.credentials[unit]
  {
    if a < b {
      SuspendedRunsMintNothing(c, worlds, labels, a, b - 1);
      RunPolicy(c, worlds, labels, b - 1);
      assert Step(c, worlds[b - 1], labels[b - 1], worlds[b]);
    }
  }

  // ------------------------------------------------------------------
  // Succession
  // ------------------------------------------------------------------

  /** A unit's intent appears without a predecessor, and changes only to a successor that names a tombstoned
      predecessor without a projected credential. */
  lemma SuccessionStep(c: Contract, w: World, move: Label, w': World, unit: string)
    requires Inv(c, w) && Policy(c, w) && Step(c, w, move, w')
    requires unit in w'.store.records
    ensures unit !in w.store.records ==> w'.store.records[unit].intent.supersedes == None
    ensures unit in w.store.records && w'.store.records[unit].intent != w.store.records[unit].intent ==>
              && Succeeds(w'.store.records[unit].intent, w.store.records[unit].intent)
              && w.store.records[unit].phase == Tombstone && w.store.records[unit].pending == None
              && unit !in w.store.credentials
  {
    assert UnitInv(c, w, unit);
    if move.Choose? {
      ChooseOpens(c, w, w', unit);
    } else {
      RecordsKeepIntents(c, w, move, w', unit);
    }
  }

  /** Only the choice puts a record for another intent. */
  lemma RecordsKeepIntents(c: Contract, w: World, move: Label, w': World, unit: string)
    requires Inv(c, w) && Step(c, w, move, w') && !move.Choose? && unit in w'.store.records
    ensures unit in w.store.records && w'.store.records[unit].intent == w.store.records[unit].intent
  {
    assert UnitInv(c, w, unit);
    var changed := Effect(c, w, move, w');
  }

  lemma ChooseOpens(c: Contract, w: World, w': World, unit: string)
    requires Inv(c, w) && Policy(c, w) && ChooseStep(c, w, w')
    requires unit in w'.store.records
    ensures unit != w.process.cmd.intent.landingUnit ==>
              unit in w.store.records && w'.store.records[unit] == w.store.records[unit]
    ensures unit == w.process.cmd.intent.landingUnit && unit in w.store.records ==>
              w'.store.records[unit].intent == w.process.cmd.intent
              || w'.store.records[unit] == w.store.records[unit]
    ensures unit == w.process.cmd.intent.landingUnit && unit !in w.store.records ==>
              w'.store.records[unit].intent == w.process.cmd.intent
  {
  }

  /** Over any run a Landing Unit keeps its subject and all its parties, through every succession. */
  lemma {:induction false} UnitsKeepTheirParties(
    c: Contract, worlds: seq<World>, labels: seq<Label>, a: nat, b: nat, unit: string)
    requires Run(c, worlds, labels) && a <= b < |worlds|
    requires unit in worlds[a].store.records
    ensures unit in worlds[b].store.records
    ensures var was, now := worlds[a].store.records[unit].intent, worlds[b].store.records[unit].intent;
            && now.landingUnit == was.landingUnit == unit
            && now.subject.kind == was.subject.kind && now.subject.key == was.subject.key
            && now.parties.callerId == was.parties.callerId && now.parties.operatorId == was.parties.operatorId
            && now.parties.repository == was.parties.repository
            && now.parties.repositoryId == was.parties.repositoryId
            && now.parties.installationId == was.parties.installationId
            && now.parties.reviewerId == was.parties.reviewerId
  {
    RunKeeps(c, worlds, labels, b);
    assert UnitInv(c, worlds[b], unit);
    if a < b {
      UnitsKeepTheirParties(c, worlds, labels, a, b - 1, unit);
      RunKeeps(c, worlds, labels, b - 1);
      RunPolicy(c, worlds, labels, b - 1);
      RecordsStay(c, worlds[b - 1], labels[b - 1], worlds[b], unit);
      SuccessionStep(c, worlds[b - 1], labels[b - 1], worlds[b], unit);
    }
  }

  lemma RecordsStay(c: Contract, w: World, move: Label, w': World, unit: string)
    requires Inv(c, w) && Step(c, w, move, w') && unit in w.store.records
    ensures unit in w'.store.records
  {
    var changed := Effect(c, w, move, w');
  }

  /** Exactly the commands that get past the lookup: those of the current intent that are not recorded yet, a
      first issue or revocation on a free unit, and one by a proper successor of a settled tombstone. */
  lemma WhoIsAdmitted(store: Store, cmd: Command)
    requires cmd.intent.landingUnit in store.records ==>
               store.records[cmd.intent.landingUnit].intent.landingUnit == cmd.intent.landingUnit
    ensures var intent, unit := cmd.intent, cmd.intent.landingUnit;
            LookUp(store, cmd).Found? <==>
              && (intent.intentId in store.aliases ==>
                    store.aliases[intent.intentId].digest == OfIntent(intent)
                    && store.aliases[intent.intentId].landingUnit == unit)
              && if unit !in store.records then
                   cmd.action != Renew && intent.supersedes == None && unit !in store.credentials
                 else if store.records[unit].intent == intent then
                   cmd.id !in store.records[unit].operations
                 else
                   && cmd.action != Renew && intent !in store.history && unit !in store.credentials
                   && store.records[unit].phase == Tombstone && store.records[unit].pending == None
                   && Succeeds(intent, store.records[unit].intent)
  {
  }

  // ------------------------------------------------------------------
  // Projected credentials
  // ------------------------------------------------------------------

  /** In every world of a run a projected credential holds a token of its unit's current intent, with that
      token's expiry, and every coordinate of the intent. */
  lemma CredentialsAreBound(c: Contract, worlds: seq<World>, labels: seq<Label>, k: nat, unit: string)
    requires Run(c, worlds, labels) && k < |worlds| && unit in worlds[k].store.credentials
    ensures unit in worlds[k].store.records
    ensures var w := worlds[k];
            var intent, credential := w.store.records[unit].intent, w.store.credentials[unit];
            && credential.token < |w.tokens|
            && w.tokens[credential.token].intent == intent
            && w.tokens[credential.token].expiresAt == credential.expiresAt
            && credential.binding.landingUnit == unit == intent.landingUnit
            && credential.binding.repository == intent.parties.repository
            && credential.binding.repositoryId == intent.parties.repositoryId
            && credential.binding.installationId == intent.parties.installationId
            && credential.binding.branch == intent.branch
            && credential.binding.fetchedBase == intent.fetchedBase
            && credential.binding.reviewerId == intent.parties.reviewerId
  {
    RunKeeps(c, worlds, labels, k);
    assert UnitInv(c, worlds[k], unit);
  }

  // ------------------------------------------------------------------
  // Rotation and recovery
  // ------------------------------------------------------------------

  /** What an issue or renewal may go on to do: it prepares a mint only with no credential left outside the
      rotation window, an issue never rotates an issued record, and an uncertain mint is taken up only by its
      own command, which mints again only when the first one neither landed nor can still be valid. */
  lemma ChoiceIsJustified(c: Contract, w: World, w': World)
    requires ChooseStep(c, w, w') && w.process.cmd.action != Revoke
    ensures var cmd, state, now := w.process.cmd, w.process.state, w.process.now;
            var unit := cmd.intent.landingUnit;
            && w'.store.credentials == w.store.credentials && w'.tokens == w.tokens
            && (w'.process.Prepared? ==>
                  && (unit !in w.store.credentials || w.store.credentials[unit].expiresAt - now <= c.rotateBefore)
                  && (0 <= c.rotateBefore ==> !(cmd.action == Issue && state.phase == Live))
                  && (state.pending.Some? && state.pending.value.stage == Issuing ==>
                        && (unit in w.store.credentials ==>
                              Some(w.store.credentials[unit].expiresAt) == state.pending.value.priorExpiry)
                        && state.pending.value.startedAt + c.maximumLifetime <= now))
            && (state.pending.Some? && state.pending.value.stage == Issuing ==>
                  state.pending.value.commandId == cmd.id
                  && state.pending.value.operation == Operation(cmd.action, cmd.intent, cmd.session))
            && (w'.process.Prepared? || w'.process.Finishing?)
  {
  }

  /** Outside the window a command is answered current and mints nothing; inside it a renewal mints. */
  lemma WindowDecides(c: Contract, store: Store, cmd: Command, state: Record, now: int)
    requires cmd.action != Revoke && cmd.intent.landingUnit in store.credentials
    requires state.pending.Some? ==> state.pending.value.stage == Preparing
    ensures var remaining := store.credentials[cmd.intent.landingUnit].expiresAt - now;
            && (c.rotateBefore < remaining ==> Decide(c, store, cmd, state, now) == Conclude(Current))
            && (remaining <= c.rotateBefore && cmd.action == Renew ==> Decide(c, store, cmd, state, now).Prepare?)
            && (remaining <= c.rotateBefore && cmd.action == Issue && state.phase == Live ==>
                  Decide(c, store, cmd, state, now) == Deny)
  {
  }
}
