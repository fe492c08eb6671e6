/** What a recorded receipt says is true: of the command it answers, and of the tokens minted. */
module SourceIntentReceipts {
  import opened Wrappers
  import opened SourceIntent
  import opened SourceIntentInvariant
  import opened SourceIntentSteps
  import opened SourceIntentTheorems
  import opened SourceIntentPolicy

  predicate MintedFor(w: World, intent: Intent, expiresAt: int) {
    exists k | 0 <= k < |w.tokens| :: w.tokens[k].intent == intent && w.tokens[k].expiresAt == expiresAt
  }

  /** The entry answers this command of this intent and its session, with an outcome of its action; an issue
      or renew receipt names the expiry of a token that was minted for the very intent, outside the rotation
      window if it says current, and a revoke receipt names none. */
  predicate Truthful(c: Contract, w: World, intent: Intent, id: string, entry: Entry) {
    var operation, receipt := entry.operation, entry.receipt;
    && operation.intent == intent && receipt.intent == intent
    && receipt.commandId == id && receipt.action == operation.action
    && (operation.session.Some? ==> receipt.session == operation.session)
    && (receipt.outcome == Revoked <==> operation.action == Revoke)
    && (receipt.outcome == Issued ==> operation.action == Issue)
    && (receipt.outcome == Renewed ==> operation.action == Renew)
    && (operation.action == Revoke <==> receipt.tokenExpiresAt == None)
    && (operation.action != Revoke ==> MintedFor(w, intent, receipt.tokenExpiresAt.value))
    && (receipt.outcome == Current ==> c.rotateBefore < receipt.tokenExpiresAt.value - receipt.recordedAt)
    && receipt.recordedAt <= w.clock
  }

  lemma FinishIsTruthful(c: Contract, w: World, w': World)
    requires Inv(c, w) && Policy(c, w) && FinishStep(w, w')
    ensures var cmd, state := w.process.cmd, w'.store.records[w.process.cmd.intent.landingUnit];
            && state.pending == None && state.phase == (if cmd.action == Revoke then Tombstone else Live)
            && (cmd.session.Some? ==> state.session == cmd.session)
    ensures var cmd := w.process.cmd;
            && IsCurrent(w', cmd.intent) && cmd.id in Ledger(w', cmd.intent)
            && Truthful(c, w', cmd.intent, cmd.id, Ledger(w', cmd.intent)[cmd.id])
  {
    var cmd, unit := w.process.cmd, w.process.cmd.intent.landingUnit;
    assert UnitInv(c, w, unit);
    if cmd.action != Revoke {
      var k := w.store.credentials[unit].token;
      assert w'.tokens[k].intent == cmd.intent && w'.tokens[k].expiresAt == w.store.credentials[unit].expiresAt;
    }
  }

  /** A record that is put keeps the entries of its intent, or starts with none. */
  lemma PutEntries(c: Contract, w: World, next: Record, w': World, intent: Intent, id: string)
    requires Inv(c, w) && w'.store == PutRecord(w, next).store
    requires w.process.Bound? || w.process.Prepared?
    requires next.operations == w.process.state.operations && next.intent == w.process.cmd.intent
    requires id in Ledger(w', intent)
    ensures id in Ledger(w, intent) && Ledger(w', intent)[id] == Ledger(w, intent)[id]
  {
    var unit := next.intent.landingUnit;
    assert UnitInv(c, w, unit);
  }

  /** Only the last write of a command adds an entry, and that entry is the command's own. */
  lemma NewEntries(c: Contract, w: World, move: Label, w': World, intent: Intent, id: string)
    requires Inv(c, w) && Step(c, w, move, w')
    requires id in Ledger(w', intent)
    ensures (id in Ledger(w, intent) && Ledger(w', intent)[id] == Ledger(w, intent)[id])
            || (move.Finish? && intent == w.process.cmd.intent && id == w.process.cmd.id)
  {
    match move
    case Begin(cmd) => BeginEntries(c, w, cmd, w', intent, id);
    case Choose => ChooseEntries(c, w, w', intent, id);
    case Announce => AnnounceEntries(c, w, w', intent, id);
    case _ =>
  }

  lemma ChooseEntries(c: Contract, w: World, w': World, intent: Intent, id: string)
    requires Inv(c, w) && ChooseStep(c, w, w')
    requires id in Ledger(w', intent)
    ensures id in Ledger(w, intent) && Ledger(w', intent)[id] == Ledger(w, intent)[id]
  {
    match Decide(c, w.store, w.process.cmd, w.process.state, w.process.now)
    case Entomb(next) => PutEntries(c, w, next, w', intent, id);
    case Prepare(next) => PutEntries(c, w, next, w', intent, id);
    case _ =>
  }

  lemma AnnounceEntries(c: Contract, w: World, w': World, intent: Intent, id: string)
    requires Inv(c, w) && AnnounceStep(w, w')
    requires id in Ledger(w', intent)
    ensures id in Ledger(w, intent) && Ledger(w', intent)[id] == Ledger(w, intent)[id]
  {
    PutEntries(c, w, w'.process.state, w', intent, id);
  }

  lemma BeginEntries(c: Contract, w: World, cmd: Command, w': World, intent: Intent, id: string)
    requires Inv(c, w) && BeginStep(w, cmd, w')
    requires id in Ledger(w', intent)
    ensures id in Ledger(w, intent) && Ledger(w', intent)[id] == Ledger(w, intent)[id]
  {
    assert UnitInv(c, w, cmd.intent.landingUnit);
  }

  lemma TruthPersists(c: Contract, w: World, w': World, intent: Intent, id: string, entry: Entry)
    requires Truthful(c, w, intent, id, entry) && TokensGrow(w.tokens, w'.tokens) && w.clock <= w'.clock
    ensures Truthful(c, w', intent, id, entry)
  {
    if entry.operation.action != Revoke {
      var k :| 0 <= k < |w.tokens| && w.tokens[k].intent == intent
               && w.tokens[k].expiresAt == entry.receipt.tokenExpiresAt.value;
      assert w'.tokens[k].intent == intent && w'.tokens[k].expiresAt == w.tokens[k].expiresAt;
    }
  }

  /** In every run, every recorded receipt tells the truth. */
  lemma {:induction false} ReceiptsAreTruthful(
    c: Contract, worlds: seq<World>, labels: seq<Label>, k: nat, intent: Intent, id: string)
    requires Run(c, worlds, labels) && k < |worlds|
    requires id in Ledger(worlds[k], intent)
    ensures Truthful(c, worlds[k], intent, id, Ledger(worlds[k], intent)[id])
  {
    if k > 0 {
      var w, w' := worlds[k - 1], worlds[k];
      RunKeeps(c, worlds, labels, k - 1);
      RunPolicy(c, worlds, labels, k - 1);
      NewEntries(c, w, labels[k - 1], w', intent, id);
      TokensOnlyGrow(c, w, labels[k - 1], w');
      if id in Ledger(w, intent) && Ledger(w', intent)[id] == Ledger(w, intent)[id] {
        ReceiptsAreTruthful(c, worlds, labels, k - 1, intent, id);
        TruthPersists(c, w, w', intent, id, Ledger(w, intent)[id]);
      } else {
        FinishIsTruthful(c, w, w');
      }
    }
  }
}
