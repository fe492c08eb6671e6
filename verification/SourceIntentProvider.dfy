/**
 operate, deliver_locked, command_revoke and command_suspend in the form the code has
 them: methods that update the durable files and the provider one write at a time.

 `if *` stands for an exception or a crash between two effects, and for an outcome the
 provider decides. The ghost run records every effect as one step of the machine, so
 each method's Valid() says that whatever happened is a run, and the theorems about
 runs apply to the files as they now are.
 */
module SourceIntentProvider {
  import opened Wrappers
  import opened SourceIntent
  import opened SourceIntentInvariant
  import opened SourceIntentSteps
  import opened SourceIntentTheorems

  datatype Answer = Refusal | Interrupted | Answered(receipt: Receipt)

  class Provider {
    const contract: Contract
    var records: map<string, Record>
    var aliases: map<string, Alias>
    var history: map<Intent, Record>
    var credentials: map<string, Credential>
    var suspended: bool
    var tokens: seq<Token>
    var clock: int
    ghost var worlds: seq<World>
    ghost var labels: seq<Label>

    ghost function Snapshot(process: Process): World
      reads this
    {
      World(Store(records, aliases, history, credentials, suspended), tokens, clock, process)
    }

    /** The recorded run ends where the files are, with this process holding the lock. */
    ghost predicate At(process: Process)
      reads this
    {
      Run(contract, worlds, labels) && worlds[|worlds| - 1] == Snapshot(process)
    }

    ghost predicate Valid()
      reads this
    {
      At(Idle)
    }

    constructor (contract: Contract, clock: int)
      ensures Valid() && this.contract == contract && this.clock == clock
      ensures records == map[] && tokens == [] && credentials == map[]
    {
      this.contract, this.clock := contract, clock;
      records, aliases, history, credentials := map[], map[], map[], map[];
      suspended, tokens := false, [];
      labels := [];
      new;
      worlds := [Snapshot(Idle)];
    }

    /** Record the effect just made as one step of the run. */
    ghost method Advance(move: Label, process: Process)
      requires Run(contract, worlds, labels)
      requires Step(contract, worlds[|worlds| - 1], move, Snapshot(process))
      modifies this`worlds, this`labels
      ensures At(process)
      ensures worlds == old(worlds) + [Snapshot(process)] && labels == old(labels) + [move]
    {
      PathStep(contract, worlds[|worlds| - 1], move, Snapshot(process), [], []);
      assert [Snapshot(process)] + [] == [Snapshot(process)] && [move] + [] == [move];
      Continue(contract, worlds, labels, [Snapshot(process)], [move]);
      worlds, labels := worlds + [Snapshot(process)], labels + [move];
    }

    /** Time passes, whoever holds the lock. */
    method Wait(ghost process: Process)
      requires At(process)
      modifies this`clock, this`worlds, this`labels
      ensures At(process) && old(clock) <= clock && old(worlds) <= worlds
    {
      ghost var here := Snapshot(process);
      var time :| clock <= time;
      clock := time;
      assert Snapshot(process) == here.(clock := clock);
      Advance(Tick(clock), process);
    }

    /** Aliases, history, succession and recorded commands: the lookup, whose only effect is the
        history entry of a retired predecessor. */
    method Find(cmd: Command) returns (state: Record, early: Option<Answer>)
      requires Valid()
      modifies this`history, this`worlds, this`labels
      ensures old(worlds) <= worlds
      ensures early == None ==> At(Opened(cmd, state))
      ensures early.Some? ==> Valid() && Snapshot(Idle) == old(Snapshot(Idle))
      ensures early == None ==>
                var store, store' := old(Snapshot(Idle).store), Snapshot(Idle).store;
                store' == store.(history := store'.history)
      ensures match LookUp(old(Snapshot(Idle).store), cmd)
              case Refused => early == Some(Refusal)
              case Replayed(receipt) => early == Some(Answered(receipt))
              case Found(found, _) => early == None && state == found
    {
      var intent := cmd.intent;
      var unit := intent.landingUnit;
      state := NewRecord(cmd);
      if intent.intentId in aliases && aliases[intent.intentId] != AliasOf(intent) {
        return state, Some(Refusal);
      }
      if unit in records && records[unit].intent != intent {
        if intent in history {
          var operations := history[intent].operations;
          if cmd.id in operations && operations[cmd.id].operation == OperationOf(cmd) {
            return state, Some(Answered(operations[cmd.id].receipt));
          }
          return state, Some(Refusal);
        }
        var stored := records[unit];
        if cmd.action == Renew || stored.phase != Tombstone || stored.pending != None || unit in credentials
          || intent.supersedes != Some(OfIntent(stored.intent))
          || intent.intentId == stored.intent.intentId
          || intent.subject.kind != stored.intent.subject.kind || intent.subject.key != stored.intent.subject.key
          || intent.parties != stored.intent.parties
        {
          return state, Some(Refusal);
        }
        history := history[stored.intent := stored];
      } else if unit in records {
        state := records[unit];
        if cmd.id in state.operations {
          if state.operations[cmd.id].operation != OperationOf(cmd) { return state, Some(Refusal); }
          return state, Some(Answered(state.operations[cmd.id].receipt));
        }
      } else if cmd.action == Renew || unit in credentials || intent.supersedes.Some? {
        return state, Some(Refusal);
      }
      Advance(Begin(cmd), Opened(cmd, state));
      early := None;
    }

    /** The tombstone, session, expiry, suspension and projection checks, at one clock reading. */
    method Gate(cmd: Command, state: Record, now: int) returns (passed: bool)
      ensures passed == Allowed(Snapshot(Idle).store, cmd, state, now)
      ensures passed <==>
                && (state.phase == Tombstone ==> cmd.action == Revoke)
                && (state.session.Some? ==> cmd.session == state.session)
                && (cmd.action != Revoke ==> now < cmd.intent.expiresAt && !suspended)
                && (cmd.intent.landingUnit in credentials ==>
                      var bound, intent := credentials[cmd.intent.landingUnit].binding, cmd.intent;
                      && bound.landingUnit == intent.landingUnit && bound.branch == intent.branch
                      && bound.fetchedBase == intent.fetchedBase
                      && bound.repository == intent.parties.repository
                      && bound.repositoryId == intent.parties.repositoryId
                      && bound.installationId == intent.parties.installationId
                      && bound.reviewerId == intent.parties.reviewerId)
    {
      var unit := cmd.intent.landingUnit;
      if state.phase == Tombstone && cmd.action != Revoke { return false; }
      if state.session.Some? && cmd.session != state.session { return false; }
      if cmd.action != Revoke && cmd.intent.expiresAt <= now { return false; }
      if cmd.action != Revoke && suspended { return false; }
      if unit in credentials && credentials[unit].binding != BindingOf(cmd.intent) { return false; }
      passed := true;
    }

    /** The session joins the record in memory, and the intent id is bound for ever. */
    method BindIntent(cmd: Command, found: Record) returns (state: Record)
      requires At(Opened(cmd, found)) && Allowed(Snapshot(Idle).store, cmd, found, clock)
      modifies this`aliases, this`worlds, this`labels
      ensures old(worlds) <= worlds
      ensures At(Bound(cmd, state, clock)) && state == WithSession(found, cmd)
    {
      state := found;
      if cmd.session.Some? { state := state.(session := cmd.session); }
      if cmd.intent.intentId !in aliases { aliases := aliases[cmd.intent.intentId := AliasOf(cmd.intent)]; }
      Advance(Bind, Bound(cmd, state, clock));
    }

    /** What is left of a pending issuance once the recovery rules have let the command on. */
    ghost predicate Recovered(cmd: Command, state: Record, now: int, pending: Option<Pending>)
      reads this
    {
      var uncertain, unit := UncertainMint(state), cmd.intent.landingUnit;
      if cmd.action == Revoke || uncertain == None then pending == uncertain
      else
        && uncertain.value.commandId == cmd.id && uncertain.value.operation == OperationOf(cmd)
        && if unit in credentials && Some(credentials[unit].expiresAt) != uncertain.value.priorExpiry
           then pending == uncertain
           else pending == None && Deadline(contract, uncertain.value) <= now
    }

    /** Lines 256-275: drop a preparing issuance, and judge an uncertain one. */
    method Recover(cmd: Command, state: Record, now: int) returns (pending: Option<Pending>, proceed: bool)
      requires At(Bound(cmd, state, now))
      ensures !proceed ==> Decide(contract, Snapshot(Idle).store, cmd, state, now) == Deny
      ensures proceed ==> Recovered(cmd, state, now, pending)
    {
      var unit := cmd.intent.landingUnit;
      pending, proceed := state.pending, true;
      if pending.Some? && pending.value.stage == Preparing { pending := None; }
      if pending.Some? {
        if pending.value.commandId != cmd.id || pending.value.operation != OperationOf(cmd) {
          proceed := cmd.action == Revoke;
        } else if cmd.action != Revoke {
          if unit in credentials && Some(credentials[unit].expiresAt) != pending.value.priorExpiry {
          } else if now < pending.value.startedAt + contract.maximumLifetime {
            proceed := false;
          } else {
            pending := None;
          }
        }
      }
    }

    /** The revoke branch: tombstone first, then the provider, then the projection. */
    method Retire(cmd: Command, bound: Record, now: int, pending: Option<Pending>) returns (state: Record, done: bool)
      requires At(Bound(cmd, bound, now)) && cmd.action == Revoke && pending == UncertainMint(bound)
      modifies this
      ensures old(worlds) <= worlds
      ensures done ==> At(Finishing(cmd, state, now, Revoked))
      ensures !done ==> Valid()
      ensures |tokens| == |old(tokens)|
      ensures cmd.intent.landingUnit in records
      ensures var left := records[cmd.intent.landingUnit]; left.intent == cmd.intent && left.phase == Tombstone
    {
      var unit := cmd.intent.landingUnit;
      MemoryAgrees(Bound(cmd, bound, now));
      state := bound.(phase := Tombstone, pending := pending);
      records := records[unit := state];
      Advance(Choose, Entombed(cmd, state, now));
      Wait(Entombed(cmd, state, now));
      if unit in credentials {
        done := Withdraw(cmd, state, now);
      } else if pending.Some? && now < pending.value.startedAt + contract.maximumLifetime {
        Advance(Crash, Idle);
        done := false;
      } else {
        Advance(SettleRevocation, Finishing(cmd, state, now, Revoked));
        done := true;
      }
    }

    /** The facts of the invariant that the methods below rely on. */
    lemma TokenExists(process: Process, unit: string)
      requires At(process)
      ensures unit in credentials ==> credentials[unit].token < |tokens|
    {
      RunKeeps(contract, worlds, labels, |worlds| - 1);
      assert UnitInv(contract, Snapshot(process), unit);
    }

    lemma MemoryAgrees(process: Process)
      requires At(process)
      ensures process.Bound? || process.Prepared? || process.Finishing? ==> process.state.intent == process.cmd.intent
      ensures process.Prepared? ==> process.state.pending.Some?
      ensures process.Finishing? && process.cmd.action != Revoke ==> process.cmd.intent.landingUnit in credentials
    {
      RunKeeps(contract, worlds, labels, |worlds| - 1);
    }

    /** safe_revoke of the projected token, then the removal of its projection. */
    method Withdraw(cmd: Command, state: Record, now: int) returns (done: bool)
      requires At(if cmd.action == Revoke then Entombed(cmd, state, now) else Prepared(cmd, state, now))
      requires cmd.intent.landingUnit in credentials
      modifies this`tokens, this`credentials, this`worlds, this`labels
      ensures old(worlds) <= worlds && |tokens| == |old(tokens)|
      ensures !done ==> Valid()
      ensures done ==>
                At(if cmd.action == Revoke then Finishing(cmd, state, now, Revoked) else Prepared(cmd, state, now))
      ensures done ==> cmd.intent.landingUnit !in credentials
    {
      var unit := cmd.intent.landingUnit;
      if * { Advance(Crash, Idle); return false; }
      TokenExists(if cmd.action == Revoke then Entombed(cmd, state, now) else Prepared(cmd, state, now), unit);
      var k := credentials[unit].token;
      tokens := tokens[k := tokens[k].(revoked := true)];
      Advance(RevokeCurrent, if cmd.action == Revoke then Withdrawn(cmd, state, now) else Rotating(cmd, state, now));
      if * { Advance(Crash, Idle); return false; }
      credentials := credentials - {unit};
      Advance(RemoveCurrent,
              if cmd.action == Revoke then Finishing(cmd, state, now, Revoked) else Prepared(cmd, state, now));
      done := true;
    }

    /** before_issue: the clock is read again, and the issuing stage is durable before the mint. */
    method BeforeIssue(cmd: Command, prepared: Record, now: int) returns (state: Record, done: bool)
      requires At(Prepared(cmd, prepared, now)) && cmd.intent.landingUnit !in credentials
      modifies this`records, this`clock, this`worlds, this`labels
      ensures old(worlds) <= worlds
      ensures done ==> At(Minting(cmd, state, now)) && state.pending.Some?
      ensures !done ==> Valid()
    {
      state := prepared;
      Wait(Prepared(cmd, state, now));
      if * { Advance(Crash, Idle); return state, false; }
      if cmd.intent.expiresAt <= clock { Advance(Crash, Idle); return state, false; }
      MemoryAgrees(Prepared(cmd, state, now));
      state := state.(pending := Some(state.pending.value.(stage := Issuing, startedAt := clock)));
      records := records[cmd.intent.landingUnit := state];
      Advance(Announce, Minting(cmd, state, now));
      done := true;
    }

    /** issue_repository_token and the projection; the provider alone decides the expiry. */
    method MintAndProject(cmd: Command, state: Record, now: int, outcome: Outcome) returns (done: bool)
      requires At(Minting(cmd, state, now)) && state.pending.Some?
      requires outcome == if cmd.action == Issue then Issued else Renewed
      modifies this`tokens, this`credentials, this`clock, this`worlds, this`labels
      ensures old(worlds) <= worlds
      ensures done ==> At(Finishing(cmd, state, now, outcome))
      ensures !done ==> Valid()
      ensures |old(tokens)| <= |tokens| <= |old(tokens)| + 1
    {
      Wait(Minting(cmd, state, now));
      if * { Advance(Crash, Idle); return false; }
      var k := |tokens|;
      MintToken(cmd, state, now);
      if * { Advance(Crash, Idle); return false; }
      if * {
        tokens := tokens[k := tokens[k].(revoked := true)];
        Advance(DiscardMint, Idle);
        return false;
      }
      ProjectToken(cmd, state, now, outcome);
      done := true;
    }

    method MintToken(cmd: Command, state: Record, now: int)
      requires At(Minting(cmd, state, now)) && state.pending.Some?
      modifies this`tokens, this`worlds, this`labels
      ensures old(worlds) <= worlds
      ensures At(Minted(cmd, state, now, |old(tokens)|)) && |tokens| == |old(tokens)| + 1
    {
      var k, expiresAt: int := |tokens|, *;
      tokens := tokens + [Token(cmd.intent, state.pending.value.startedAt, clock, expiresAt, false)];
      Advance(Mint(expiresAt), Minted(cmd, state, now, k));
    }

    /** The atomic write of the credential file for the newest token. */
    method ProjectToken(cmd: Command, state: Record, now: int, outcome: Outcome)
      requires tokens != [] && At(Minted(cmd, state, now, |tokens| - 1))
      requires outcome == if cmd.action == Issue then Issued else Renewed
      modifies this`credentials, this`worlds, this`labels
      ensures old(worlds) <= worlds
      ensures At(Finishing(cmd, state, now, outcome))
    {
      var k := |tokens| - 1;
      var credential := Credential(BindingOf(cmd.intent), k, tokens[k].expiresAt);
      credentials := credentials[cmd.intent.landingUnit := credential];
      Advance(Project, Finishing(cmd, state, now, outcome));
    }

    /** deliver_locked: withdraw the old token, announce, mint, project. */
    method DeliverLocked(cmd: Command, prepared: Record, now: int, outcome: Outcome) returns (state: Record, done: bool)
      requires At(Prepared(cmd, prepared, now)) && cmd.action != Revoke
      requires outcome == if cmd.action == Issue then Issued else Renewed
      modifies this
      ensures old(worlds) <= worlds
      ensures done ==> At(Finishing(cmd, state, now, outcome))
      ensures !done ==> Valid()
      ensures |old(tokens)| <= |tokens| <= |old(tokens)| + 1
    {
      state := prepared;
      Wait(Prepared(cmd, state, now));
      if cmd.intent.landingUnit in credentials {
        done := Withdraw(cmd, state, now);
        if !done { return; }
      }
      state, done := BeforeIssue(cmd, state, now);
      if !done { return; }
      done := MintAndProject(cmd, state, now, outcome);
    }

    /** The issue and renew branch, from the recovered pending to a projected credential. */
    method Admit(cmd: Command, bound: Record, now: int, pending: Option<Pending>)
      returns (state: Record, outcome: Outcome, done: bool)
      requires At(Bound(cmd, bound, now)) && cmd.action != Revoke
      requires Recovered(cmd, bound, now, pending)
      modifies this
      ensures old(worlds) <= worlds
      ensures done ==> At(Finishing(cmd, state, now, outcome))
      ensures !done ==> Valid()
      ensures |old(tokens)| <= |tokens| <= |old(tokens)| + 1
    {
      var unit := cmd.intent.landingUnit;
      state := bound;
      var projected := unit in credentials;
      var remaining := if projected then credentials[unit].expiresAt - now else 0;
      outcome := Current;
      if cmd.action == Issue && state.phase == Live && remaining <= contract.rotateBefore {
        Advance(Crash, Idle);
        return state, outcome, false;
      }
      if !projected || remaining <= contract.rotateBefore {
        outcome := if cmd.action == Issue then Issued else Renewed;
        if pending == None {
          MemoryAgrees(Bound(cmd, bound, now));
          var prior := if projected then Some(credentials[unit].expiresAt) else None;
          state := state.(pending := Some(Pending(cmd.id, OperationOf(cmd), Preparing, prior, now)));
          records := records[unit := state];
          Advance(Choose, Prepared(cmd, state, now));
          state, done := DeliverLocked(cmd, state, now, outcome);
          return state, outcome, done;
        }
      }
      Advance(Choose, Finishing(cmd, state, now, outcome));
      done := true;
    }

    /** The last write: the phase, the cleared pending issuance and the receipt, in one record. */
    method Close(cmd: Command, held: Record, now: int, outcome: Outcome) returns (receipt: Receipt)
      requires At(Finishing(cmd, held, now, outcome))
      modifies this`records, this`worlds, this`labels
      ensures Valid() && old(worlds) <= worlds
      ensures receipt.commandId == cmd.id && receipt.intent == cmd.intent && receipt.outcome == outcome
      ensures var ledger := Ledger(Snapshot(Idle), cmd.intent);
              cmd.id in ledger && ledger[cmd.id] == Entry(OperationOf(cmd), receipt)
    {
      var unit := cmd.intent.landingUnit;
      MemoryAgrees(Finishing(cmd, held, now, outcome));
      var expiry := if cmd.action == Revoke then None else Some(credentials[unit].expiresAt);
      receipt := Receipt(cmd.id, cmd.action, outcome, cmd.intent, held.session, expiry, now);
      var state := held.(phase := if cmd.action == Revoke then Tombstone else Live,
                         pending := None,
                         operations := held.operations[cmd.id := Entry(OperationOf(cmd), receipt)]);
      records := records[unit := state];
      Advance(Finish, Idle);
    }

    /** At this clock reading the gate or the recovery rules say no. */
    ghost predicate Justified(store: Store, cmd: Command, found: Record, now: int) {
      !Allowed(store, cmd, found, now)
      || Decide(contract, store, cmd, WithSession(found, cmd), now) == Deny
    }

    /** The clock reading, the gate, the binding and the recovery rules. */
    method Judge(cmd: Command, found: Record) returns (state: Record, now: int, pending: Option<Pending>, proceed: bool)
      requires At(Opened(cmd, found))
      modifies this`aliases, this`clock, this`worlds, this`labels
      ensures old(worlds) <= worlds && old(clock) <= now == clock
      ensures proceed ==> At(Bound(cmd, state, now)) && Recovered(cmd, state, now, pending)
      ensures proceed && cmd.action != Revoke ==> !suspended && now < cmd.intent.expiresAt
      ensures !proceed ==> Valid() && Justified(old(Snapshot(Idle).store), cmd, found, now)
    {
      Wait(Opened(cmd, found));
      state, now, pending := found, clock, None;
      proceed := Gate(cmd, found, now);
      if !proceed { Advance(Crash, Idle); return; }
      state := BindIntent(cmd, found);
      pending, proceed := Recover(cmd, state, now);
      if !proceed { Advance(Crash, Idle); }
    }

    /** A command that is not a replay, from the gate to its answer. */
    method Execute(cmd: Command, found: Record) returns (answer: Answer)
      requires At(Opened(cmd, found))
      modifies this
      ensures Valid() && old(worlds) <= worlds
      ensures |tokens| <= |old(tokens)| + 1
      ensures cmd.action == Revoke ==> |tokens| == |old(tokens)|
      ensures cmd.action != Revoke && old(suspended) ==> tokens == old(tokens) && credentials == old(credentials)
      ensures answer.Answered? ==>
                var ledger := Ledger(Snapshot(Idle), cmd.intent);
                cmd.id in ledger && ledger[cmd.id] == Entry(OperationOf(cmd), answer.receipt)
      ensures answer == Refusal ==> Justified(old(Snapshot(Idle).store), cmd, found, clock)
    {
      var state, now, pending, proceed := Judge(cmd, found);
      if !proceed { return Refusal; }
      var outcome, done := Revoked, false;
      if cmd.action == Revoke {
        state, done := Retire(cmd, state, now, pending);
      } else {
        state, outcome, done := Admit(cmd, state, now, pending);
      }
      if !done { return Interrupted; }
      if * { Advance(Crash, Idle); return Interrupted; }
      var receipt := Close(cmd, state, now, outcome);
      answer := Answered(receipt);
    }

    /** One authorised command, from the lock to the answer. Whatever fails on the way, the
        files are at the end of a run; an answer is the receipt the ledger now holds for this
        very input; at most one token was minted, and none for a replay or a revocation. */
    method Operate(cmd: Command) returns (answer: Answer)
      requires Valid()
      modifies this
      ensures Valid() && old(worlds) <= worlds
      ensures |tokens| <= |old(tokens)| + 1
      ensures cmd.action == Revoke ==> |tokens| == |old(tokens)|
      ensures cmd.action != Revoke && old(suspended) ==> tokens == old(tokens) && credentials == old(credentials)
      ensures answer.Answered? ==>
                var ledger := Ledger(Snapshot(Idle), cmd.intent);
                cmd.id in ledger && ledger[cmd.id] == Entry(OperationOf(cmd), answer.receipt)
      ensures cmd.id in old(Ledger(Snapshot(Idle), cmd.intent)) ==>
                && Snapshot(Idle) == old(Snapshot(Idle))
                && var recorded := old(Ledger(Snapshot(Idle), cmd.intent)[cmd.id]);
                   answer == if recorded.operation == OperationOf(cmd) then Answered(recorded.receipt) else Refusal
      ensures answer == Refusal ==>
                match LookUp(old(Snapshot(Idle).store), cmd)
                case Refused => true
                case Replayed(_) => false
                case Found(found, _) => Justified(old(Snapshot(Idle).store), cmd, found, clock)
    {
      ReplayHere(cmd);
      ghost var store := Snapshot(Idle).store;
      var found, early := Find(cmd);
      if early.Some? { return early.value; }
      SameJudgement(store, Snapshot(Idle).store, cmd, found);
      answer := Execute(cmd, found);
    }

    /** History has no say in the gate or in the recovery rules. */
    lemma SameJudgement(store: Store, store': Store, cmd: Command, found: Record)
      requires store' == store.(history := store'.history)
      ensures forall now :: Justified(store, cmd, found, now) == Justified(store', cmd, found, now)
    {
    }

    /** What a recorded command must answer, and only a recorded one can be answered at lookup. */
    lemma ReplayHere(cmd: Command)
      requires Valid()
      ensures var w := Snapshot(Idle);
              cmd.id in Ledger(w, cmd.intent) ==>
                var recorded := Ledger(w, cmd.intent)[cmd.id];
                LookUp(w.store, cmd) ==
                  if recorded.operation == OperationOf(cmd) then Replayed(recorded.receipt) else Refused
      ensures var w := Snapshot(Idle);
              LookUp(w.store, cmd).Replayed? ==>
                && cmd.id in Ledger(w, cmd.intent)
                && Ledger(w, cmd.intent)[cmd.id] == Entry(OperationOf(cmd), LookUp(w.store, cmd).receipt)
    {
      var w := worlds[|worlds| - 1];
      RunKeeps(contract, worlds, labels, |worlds| - 1);
      RetiredFacts(contract, w, cmd.intent);
      assert UnitInv(contract, w, cmd.intent.landingUnit);
    }

    /** One projected session: revoke its token at the provider, then remove the projection. */
    method StopSession(unit: string, suspending: bool) returns (done: bool)
      requires At(if suspending then Suspending else Idle)
      requires unit in credentials
      modifies this`tokens, this`credentials, this`worlds, this`labels
      ensures old(worlds) <= worlds
      ensures if done then At(if suspending then Suspending else Idle) else Valid()
      ensures done ==> credentials == old(credentials) - {unit}
    {
      if * { Advance(Crash, Idle); return false; }
      TokenExists(if suspending then Suspending else Idle, unit);
      var k := credentials[unit].token;
      tokens := tokens[k := tokens[k].(revoked := true)];
      Advance(Label.StopSession(unit), Removing(unit, suspending));
      done := RemoveSession(unit, suspending);
    }

    /** _remove_session, once the token is revoked. */
    method RemoveSession(unit: string, suspending: bool) returns (done: bool)
      requires At(Removing(unit, suspending))
      modifies this`credentials, this`worlds, this`labels
      ensures old(worlds) <= worlds
      ensures if done then At(if suspending then Suspending else Idle) else Valid()
      ensures done ==> credentials == old(credentials) - {unit}
    {
      if * { Advance(Crash, Idle); return false; }
      credentials := credentials - {unit};
      Advance(Label.RemoveSession, if suspending then Suspending else Idle);
      done := true;
    }

    /** command_revoke for one Landing Unit. */
    method RevokeUnit(unit: string) returns (done: bool)
      requires Valid()
      modifies this`tokens, this`credentials, this`worlds, this`labels
      ensures Valid() && old(worlds) <= worlds
      ensures done ==> credentials == old(credentials) - {unit}
    {
      if unit !in credentials { return true; }
      done := StopSession(unit, false);
    }

    /** command_suspend: the flag first, then every projected session in turn. */
    method Suspend() returns (done: bool)
      requires Valid()
      modifies this`suspended, this`tokens, this`credentials, this`worlds, this`labels
      ensures Valid() && old(worlds) <= worlds
      ensures suspended
      ensures done ==> credentials == map[]
    {
      suspended := true;
      Advance(StartSuspension, Suspending);
      while credentials.Keys != {}
        invariant At(Suspending) && old(worlds) <= worlds && suspended
        decreases credentials.Keys
      {
        var unit :| unit in credentials.Keys;
        done := StopSession(unit, true);
        if !done { return; }
      }
      Advance(Crash, Idle);
      done := true;
    }

    /** The resume flag of command_commission. */
    method ResumeIssuance()
      requires Valid()
      modifies this`suspended, this`worlds, this`labels
      ensures Valid() && old(worlds) <= worlds && !suspended
    {
      suspended := false;
      Advance(Resume, Idle);
    }
  }
}
