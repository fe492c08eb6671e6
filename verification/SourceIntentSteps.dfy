/** Every step of the source-intent machine keeps the invariant, one lemma a step. */
module SourceIntentSteps {
  import opened Wrappers
  import opened SourceIntent
  import opened SourceIntentInvariant

  lemma InitialInv(c: Contract, w: World)
    requires Initial(w)
    ensures Inv(c, w)
  {
    forall unit: string ensures UnitInv(c, w, unit) {}
  }

  lemma RetiredFacts(c: Contract, w: World, intent: Intent)
    requires Inv(c, w)
    ensures intent in w.store.history ==> RetiredInv(c, w, intent)
  {
  }

  /** Steps that change neither a record nor history and drop no credential. */
  lemma QuietStepKeeps(c: Contract, w: World, w': World)
    requires Inv(c, w)
    requires RecordsUntouched(w, w')
    requires w.store.credentials == w'.store.credentials
    requires ProcessInv(c, w')
    ensures Inv(c, w')
  {
    HistoryFrame(c, w, w');
    forall unit: string ensures UnitInv(c, w', unit) {
      assert UnitInv(c, w, unit);
      UnitFrame(c, w, w', unit);
    }
  }

  lemma TickKeeps(c: Contract, w: World, time: int, w': World)
    requires Inv(c, w) && Step(c, w, Tick(time), w')
    ensures Inv(c, w')
  {
    QuietStepKeeps(c, w, w');
  }

  lemma CrashKeeps(c: Contract, w: World, w': World)
    requires Inv(c, w) && Step(c, w, Crash, w')
    ensures Inv(c, w')
  {
    QuietStepKeeps(c, w, w');
  }

  lemma SuspensionFlagKeeps(c: Contract, w: World, move: Label, w': World)
    requires Inv(c, w) && Step(c, w, move, w')
    requires move.StartSuspension? || move.Resume?
    ensures Inv(c, w')
  {
    QuietStepKeeps(c, w, w');
  }

  /** A retired record's unit is quiet, so every token of its intent is settled. */
  lemma ArchiveKeeps(c: Contract, w: World, unit: string, w': World)
    requires Inv(c, w) && unit in w.store.records
    requires var r := w.store.records[unit];
             r.phase == Tombstone && r.pending == None && unit !in w.store.credentials
    requires var r := w.store.records[unit];
             w' == w.(store := w.store.(history := w.store.history[r.intent := r]), process := w'.process)
    requires ProcessInv(c, w')
    ensures Inv(c, w')
  {
    var r := w.store.records[unit];
    assert UnitInv(c, w, unit);
    forall intent | intent in w'.store.history ensures RetiredInv(c, w', intent) {
      if intent != r.intent { assert RetiredInv(c, w, intent); }
    }
    forall u: string ensures UnitInv(c, w', u) {
      assert UnitInv(c, w, u);
      UnitFrame(c, w, w', u);
    }
  }

  lemma BeginKeeps(c: Contract, w: World, cmd: Command, w': World)
    requires Inv(c, w) && Step(c, w, Begin(cmd), w')
    ensures Inv(c, w')
  {
    var unit := cmd.intent.landingUnit;
    assert UnitInv(c, w, unit);
    match LookUp(w.store, cmd)
    case Found(state, Some(retired)) =>
      ArchiveKeeps(c, w, unit, w');
    case Found(state, None) =>
      RetiredFacts(c, w, cmd.intent);
      QuietStepKeeps(c, w, w');
    case _ =>
  }

  lemma BindKeeps(c: Contract, w: World, w': World)
    requires Inv(c, w) && Step(c, w, Bind, w')
    ensures Inv(c, w')
  {
    QuietStepKeeps(c, w, w');
  }

  /** Writing the holder's record: its own unit and its own history entry are the only news. */
  lemma PutKeeps(c: Contract, w: World, cmd: Command, state: Record, w': World)
    requires Inv(c, w)
    requires state.intent == cmd.intent && Aliased(w.store, cmd.intent)
    requires w' == PutRecord(w, state).(process := w'.process)
    requires RecordInv(c, w', cmd.intent.landingUnit)
    requires cmd.intent in w.store.history ==>
               && cmd.intent.landingUnit in w.store.records
               && w.store.records[cmd.intent.landingUnit].intent == cmd.intent
               && state.phase == Tombstone
    requires cmd.intent.landingUnit in w.store.records ==>
               var r := w.store.records[cmd.intent.landingUnit];
               r.intent == cmd.intent ==>
                 forall id | id in r.operations :: id in state.operations && state.operations[id] == r.operations[id]
    requires ProcessInv(c, w')
    ensures Inv(c, w')
  {
    var unit := cmd.intent.landingUnit;
    forall intent | intent in w'.store.history ensures RetiredInv(c, w', intent) {
      assert RetiredInv(c, w, intent);
    }
    forall u: string ensures UnitInv(c, w', u) {
      assert UnitInv(c, w, u);
      if u != unit { UnitFrame(c, w, w', u); }
    }
  }

  lemma ChooseKeeps(c: Contract, w: World, w': World)
    requires Inv(c, w) && Step(c, w, Choose, w')
    ensures Inv(c, w')
  {
    var cmd, state, now := w.process.cmd, w.process.state, w.process.now;
    var unit := cmd.intent.landingUnit;
    assert UnitInv(c, w, unit);
    RetiredFacts(c, w, cmd.intent);
    match Decide(c, w.store, cmd, state, now)
    case Conclude(outcome) =>
      QuietStepKeeps(c, w, w');
    case Entomb(next) =>
      EntombUnit(c, w, next, w');
      EntombProcess(c, w, next, w');
      PutKeeps(c, w, cmd, next, w');
    case Prepare(next) =>
      PrepareUnit(c, w, next, w');
      PutKeeps(c, w, cmd, next, w');
    case Deny =>
  }

  lemma EntombUnit(c: Contract, w: World, next: Record, w': World)
    requires Inv(c, w) && w.process.Bound?
    requires Decide(c, w.store, w.process.cmd, w.process.state, w.process.now) == Entomb(next)
    requires w' == PutRecord(w, next).(process := Entombed(w.process.cmd, next, w.process.now))
    ensures RecordInv(c, w', w.process.cmd.intent.landingUnit)
  {
    var unit := w.process.cmd.intent.landingUnit;
    assert UnitInv(c, w, unit);
  }

  lemma EntombProcess(c: Contract, w: World, next: Record, w': World)
    requires ProcessInv(c, w) && w.process.Bound?
    requires Decide(c, w.store, w.process.cmd, w.process.state, w.process.now) == Entomb(next)
    requires w' == PutRecord(w, next).(process := Entombed(w.process.cmd, next, w.process.now))
    ensures ProcessInv(c, w')
  {
  }

  lemma PrepareUnit(c: Contract, w: World, next: Record, w': World)
    requires Inv(c, w) && w.process.Bound?
    requires Decide(c, w.store, w.process.cmd, w.process.state, w.process.now) == Prepare(next)
    requires w' == PutRecord(w, next).(process := Prepared(w.process.cmd, next, w.process.now))
    ensures RecordInv(c, w', w.process.cmd.intent.landingUnit)
    ensures ProcessInv(c, w')
  {
    var unit := w.process.cmd.intent.landingUnit;
    assert UnitInv(c, w, unit);
  }

  /** Revoking the projected token, with the credential file still in place. */
  lemma RevokeCurrentKeeps(c: Contract, w: World, w': World)
    requires Inv(c, w) && Step(c, w, RevokeCurrent, w')
    ensures Inv(c, w')
  {
    QuietStepKeeps(c, w, w');
  }

  lemma StopSessionKeeps(c: Contract, w: World, unit: string, w': World)
    requires Inv(c, w) && Step(c, w, StopSession(unit), w')
    ensures Inv(c, w')
  {
    QuietStepKeeps(c, w, w');
  }

  lemma DiscardMintKeeps(c: Contract, w: World, w': World)
    requires Inv(c, w) && Step(c, w, DiscardMint, w')
    ensures Inv(c, w')
  {
    QuietStepKeeps(c, w, w');
  }

  /** Dropping a credential whose token is revoked leaves the unit quiet. */
  lemma DropKeeps(c: Contract, w: World, unit: string, w': World)
    requires Inv(c, w)
    requires TokenWithdrawn(w, unit)
    requires w' == DropCredential(w, unit).(process := w'.process)
    requires ProcessInv(c, w')
    ensures Inv(c, w')
  {
    HistoryFrame(c, w, w');
    forall u: string ensures UnitInv(c, w', u) {
      assert UnitInv(c, w, u);
      if u != unit { UnitFrame(c, w, w', u); }
    }
  }

  lemma RemoveCurrentKeeps(c: Contract, w: World, w': World)
    requires Inv(c, w) && Step(c, w, RemoveCurrent, w')
    ensures Inv(c, w')
  {
    var unit := w.process.cmd.intent.landingUnit;
    assert UnitInv(c, w, unit);
    DropKeeps(c, w, unit, w');
  }

  lemma RemoveSessionKeeps(c: Contract, w: World, w': World)
    requires Inv(c, w) && Step(c, w, RemoveSession, w')
    ensures Inv(c, w')
  {
    DropKeeps(c, w, w.process.unit, w');
  }

  lemma SettleRevocationKeeps(c: Contract, w: World, w': World)
    requires Inv(c, w) && Step(c, w, SettleRevocation, w')
    ensures Inv(c, w')
  {
    assert UnitInv(c, w, w.process.cmd.intent.landingUnit);
    QuietStepKeeps(c, w, w');
  }

  lemma AnnounceKeeps(c: Contract, w: World, w': World)
    requires Inv(c, w) && Step(c, w, Announce, w')
    ensures Inv(c, w')
  {
    var cmd, state := w.process.cmd, w.process.state;
    assert UnitInv(c, w, cmd.intent.landingUnit);
    RetiredFacts(c, w, cmd.intent);
    PutKeeps(c, w, cmd, w'.process.state, w');
  }

  lemma MintKeeps(c: Contract, w: World, expiresAt: int, w': World)
    requires Inv(c, w) && Step(c, w, Mint(expiresAt), w')
    ensures Inv(c, w')
  {
    var cmd := w.process.cmd;
    var unit := cmd.intent.landingUnit;
    assert UnitInv(c, w, unit);
    MintHistory(c, w, expiresAt, w');
    forall u: string ensures UnitInv(c, w', u) {
      assert UnitInv(c, w, u);
      if u != unit { UnitFrame(c, w, w', u); }
    }
  }

  /** A mint is for no retired intent, and follows only settled tokens. */
  lemma MintHistory(c: Contract, w: World, expiresAt: int, w': World)
    requires Inv(c, w) && Step(c, w, Mint(expiresAt), w')
    ensures forall intent | intent in w'.store.history :: RetiredInv(c, w', intent)
    ensures TokenInv(w') && Separated(c, w')
  {
    RetiredFacts(c, w, w.process.cmd.intent);
    assert UnitInv(c, w, w.process.cmd.intent.landingUnit);
    forall intent | intent in w'.store.history ensures RetiredInv(c, w', intent) {
      assert RetiredInv(c, w, intent);
    }
  }

  lemma ProjectKeeps(c: Contract, w: World, w': World)
    requires Inv(c, w) && Step(c, w, Project, w')
    ensures Inv(c, w')
  {
    var unit := w.process.cmd.intent.landingUnit;
    assert UnitInv(c, w, unit);
    HistoryFrame(c, w, w');
    forall u: string ensures UnitInv(c, w', u) {
      assert UnitInv(c, w, u);
      if u != unit { UnitFrame(c, w, w', u); }
    }
  }

  lemma NoNewRevocation(before: Record, after: Record, id: string)
    requires id in after.operations
    requires after.operations == before.operations[id := after.operations[id]]
    ensures (RevocationRecorded(after) && after.operations[id].operation.action != Revoke)
              ==> RevocationRecorded(before)
  {
    if RevocationRecorded(after) && after.operations[id].operation.action != Revoke {
      var k :| k in after.operations && after.operations[k].operation.action == Revoke;
      assert k in before.operations && before.operations[k].operation.action == Revoke;
    }
  }

  lemma FinishKeeps(c: Contract, w: World, w': World)
    requires Inv(c, w) && Step(c, w, Finish, w')
    ensures Inv(c, w')
  {
    var cmd, state := w.process.cmd, w.process.state;
    var unit := cmd.intent.landingUnit;
    assert UnitInv(c, w, unit);
    RetiredFacts(c, w, cmd.intent);
    var next := w'.store.records[unit];
    NoNewRevocation(w.store.records[unit], next, cmd.id);
    PutKeeps(c, w, cmd, next, w');
  }

  lemma StepKeeps(c: Contract, w: World, move: Label, w': World)
    requires Inv(c, w) && Step(c, w, move, w')
    ensures Inv(c, w')
  {
    match move
    case Tick(time) => TickKeeps(c, w, time, w');
    case Crash => CrashKeeps(c, w, w');
    case Begin(cmd) => BeginKeeps(c, w, cmd, w');
    case Bind => BindKeeps(c, w, w');
    case Choose => ChooseKeeps(c, w, w');
    case RevokeCurrent => RevokeCurrentKeeps(c, w, w');
    case RemoveCurrent => RemoveCurrentKeeps(c, w, w');
    case SettleRevocation => SettleRevocationKeeps(c, w, w');
    case Announce => AnnounceKeeps(c, w, w');
    case Mint(expiresAt) => MintKeeps(c, w, expiresAt, w');
    case DiscardMint => DiscardMintKeeps(c, w, w');
    case Project => ProjectKeeps(c, w, w');
    case Finish => FinishKeeps(c, w, w');
    case StartSuspension => SuspensionFlagKeeps(c, w, move, w');
    case Resume => SuspensionFlagKeeps(c, w, move, w');
    case StopSession(unit) => StopSessionKeeps(c, w, unit, w');
    case RemoveSession => RemoveSessionKeeps(c, w, w');
  }

  lemma {:induction false} RunKeeps(c: Contract, worlds: seq<World>, labels: seq<Label>, k: nat)
    requires Run(c, worlds, labels) && k < |worlds|
    ensures Inv(c, worlds[k])
  {
    if k == 0 {
      InitialInv(c, worlds[0]);
    } else {
      RunKeeps(c, worlds, labels, k - 1);
      StepKeeps(c, worlds[k - 1], labels[k - 1], worlds[k]);
    }
  }
}
