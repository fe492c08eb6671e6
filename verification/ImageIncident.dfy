/**
 The once-per-incident repair of runtime_artifact_integrity.py: check, repair and confirm runs over one
 artifact, one at a time, as a machine whose steps are the durable incident writes and the one destructive
 cache effect. A crash or an exception may end a run between any two steps.
 */
module ImageIncident {
  import opened Wrappers

  datatype Phase = Attempted | Restored | Closed

  /** Where a run of repair stands in its volatile memory: about to remove, or replacing what it removed. */
  datatype Process = Idle | Removing | Replacing

  datatype State = State(incident: Option<Phase>, process: Process)

  datatype Move = Attempt | Remove | Replace | Resume | Confirm | Crash

  predicate IsOpen(incident: Option<Phase>) {
    incident.Some? && incident != Some(Closed)
  }

  predicate Step(s: State, move: Move, s': State) {
    match move
    case Attempt => s.process == Idle && !IsOpen(s.incident) && s' == State(Some(Attempted), Removing)
    case Remove => s.process == Removing && s' == s.(process := Replacing)
    case Replace => s.process == Replacing && s' == State(Some(Restored), Idle)
    case Resume => s.process == Idle && s.incident == Some(Attempted) && s' == State(Some(Restored), Idle)
    case Confirm => s.process == Idle && s.incident.Some? && s' == State(Some(Closed), Idle)
    case Crash => s' == s.(process := Idle)
  }

  predicate Run(states: seq<State>, moves: seq<Move>) {
    && |states| == |moves| + 1
    && states[0] == State(None, Idle)
    && forall i {:trigger moves[i]} | 0 <= i < |moves| :: Step(states[i], moves[i], states[i + 1])
  }

  function Removals(moves: seq<Move>): nat {
    if moves == [] then 0
    else Removals(moves[..|moves| - 1]) + if moves[|moves| - 1] == Remove then 1 else 0
  }

  /** Incidents that went from open to closed among the first n moves; confirming a closed one again
      closes nothing. */
  function Closings(states: seq<State>, moves: seq<Move>, n: nat): nat
    requires n <= |moves| < |states|
  {
    if n == 0 then 0
    else Closings(states, moves, n - 1) + if moves[n - 1] == Confirm && IsOpen(states[n - 1].incident) then 1 else 0
  }

  /** In every run, destructive removals number at most one more than closed incidents; and only an open
      incident that is past its removal accounts for the one more. */
  lemma {:induction false} RemovalsAreBounded(states: seq<State>, moves: seq<Move>, n: nat)
    requires Run(states, moves) && n <= |moves|
    ensures Removals(moves[..n]) <= Closings(states, moves, n)
              + if IsOpen(states[n].incident) && states[n].process != Removing then 1 else 0
    ensures states[n].process != Idle ==> states[n].incident == Some(Attempted)
  {
    if n > 0 {
      RemovalsAreBounded(states, moves, n - 1);
      assert Step(states[n - 1], moves[n - 1], states[n]);
      assert moves[..n][..n - 1] == moves[..n - 1];
    }
  }

  /** Every removal directly follows the attempt that its own run made durable, when no incident was open. */
  lemma RemovalFollowsAttempt(states: seq<State>, moves: seq<Move>, i: nat)
    requires Run(states, moves) && i < |moves| && moves[i] == Remove
    ensures 0 < i && moves[i - 1] == Attempt && !IsOpen(states[i - 1].incident)
    ensures states[i].incident == Some(Attempted)
  {
    assert Step(states[i], moves[i], states[i + 1]);
    if i > 0 { assert Step(states[i - 1], moves[i - 1], states[i]); }
  }

  /** An incident whose removal happened stays open, and gets no second one, until it is confirmed. */
  lemma {:induction false} OpenUntilConfirmed(states: seq<State>, moves: seq<Move>, i: nat, j: nat)
    requires Run(states, moves) && i < j <= |moves| && moves[i] == Remove
    requires forall k | i < k < j :: moves[k] != Confirm
    ensures IsOpen(states[j].incident) && states[j].process != Removing
  {
    assert Step(states[j - 1], moves[j - 1], states[j]);
    if i + 1 < j {
      OpenUntilConfirmed(states, moves, i, j - 1);
    } else {
      RemovalFollowsAttempt(states, moves, i);
    }
  }

  /** Between any two removals the incident was confirmed. */
  lemma RemovalsNeedConfirmation(states: seq<State>, moves: seq<Move>, i: nat, j: nat)
    requires Run(states, moves) && i < j < |moves| && moves[i] == moves[j] == Remove
    ensures exists k | i < k < j :: moves[k] == Confirm
  {
    assert Step(states[j], moves[j], states[j + 1]);
    if forall k | i < k < j :: moves[k] != Confirm { OpenUntilConfirmed(states, moves, i, j); }
  }

  /** A first repair, or one after the last incident was closed, is always possible: attempt, removal and
      replacement continue the run. */
  lemma RepairIsPossible(states: seq<State>, moves: seq<Move>) returns (more: seq<State>)
    requires Run(states, moves)
    requires states[|states| - 1] in {State(None, Idle), State(Some(Closed), Idle)}
    ensures Run(states + more, moves + [Attempt, Remove, Replace])
    ensures |more| == 3 && more[2] == State(Some(Restored), Idle)
  {
    more := [State(Some(Attempted), Removing), State(Some(Attempted), Replacing), State(Some(Restored), Idle)];
    var all, names := states + more, moves + [Attempt, Remove, Replace];
    forall i | 0 <= i < |names| ensures Step(all[i], names[i], all[i + 1]) {
      if i < |moves| {
        assert names[i] == moves[i];
        assert Step(states[i], moves[i], states[i + 1]);
      }
    }
  }

  class Artifact {
    var incident: Option<Phase>
    ghost var states: seq<State>
    ghost var moves: seq<Move>

    /** The recorded run ends here, with this process at work. */
    ghost predicate At(process: Process)
      reads this
    {
      Run(states, moves) && states[|states| - 1] == State(incident, process)
    }

    ghost predicate Valid()
      reads this
    {
      At(Idle)
    }

    constructor ()
      ensures Valid() && incident == None && moves == []
    {
      incident, states, moves := None, [State(None, Idle)], [];
    }

    ghost method Advance(move: Move, process: Process)
      requires Run(states, moves) && Step(states[|states| - 1], move, State(incident, process))
      modifies this`states, this`moves
      ensures At(process) && moves == old(moves) + [move]
      ensures Removals(moves) == Removals(old(moves)) + if move == Remove then 1 else 0
    {
      ghost var more, names := states + [State(incident, process)], moves + [move];
      forall i | 0 <= i < |names| ensures Step(more[i], names[i], more[i + 1]) {
        if i < |moves| {
          assert names[i] == moves[i];
          assert Step(states[i], moves[i], states[i + 1]);
        }
      }
      assert names[..|moves|] == moves;
      states, moves := more, names;
    }

    /** repair: refused on an open incident; otherwise one attempt, at most one removal, and restored
        only after the replacement was verified. */
    method Repair() returns (repaired: bool)
      requires Valid()
      modifies this
      ensures Valid() && old(moves) <= moves
      ensures IsOpen(old(incident)) ==> !repaired && moves == old(moves)
      ensures Removals(moves) <= Removals(old(moves)) + 1
      ensures repaired ==> incident == Some(Restored) && Removals(moves) == Removals(old(moves)) + 1
    {
      if incident.Some? && incident != Some(Closed) { return false; }
      if * { return false; }
      incident := Some(Attempted);
      Advance(Attempt, Removing);
      repaired := RemoveAndReplace();
    }

    /** The destructive part of a repair, up to the verified replacement. */
    method RemoveAndReplace() returns (repaired: bool)
      requires At(Removing)
      modifies this
      ensures Valid() && old(moves) <= moves
      ensures Removals(moves) <= Removals(old(moves)) + 1
      ensures repaired ==> incident == Some(Restored) && Removals(moves) == Removals(old(moves)) + 1
    {
      if * {
        Advance(Crash, Idle);
        return false;
      }
      Advance(Remove, Replacing);
      repaired := *;
      if repaired {
        incident := Some(Restored);
        Advance(Replace, Idle);
      } else {
        Advance(Crash, Idle);
      }
    }

    /** check over bytes that are proven good: an interrupted attempt resumes without a new removal. */
    method Check(corrupt: bool)
      requires Valid()
      modifies this
      ensures Valid() && old(moves) <= moves
      ensures Removals(moves) == Removals(old(moves))
      ensures incident == old(incident)
              || (!corrupt && old(incident) == Some(Attempted) && incident == Some(Restored))
    {
      if corrupt || incident != Some(Attempted) { return; }
      if * { return; }
      incident := Some(Restored);
      Advance(Resume, Idle);
    }

    /** confirm: an incident closes only over good bytes and ready consumers. */
    method Confirm(corrupt: bool, consumersReady: bool)
      requires Valid()
      modifies this
      ensures Valid() && old(moves) <= moves
      ensures Removals(moves) == Removals(old(moves))
      ensures incident == old(incident)
              || (!corrupt && consumersReady && old(incident).Some? && incident == Some(Closed))
    {
      if corrupt || incident == None || !consumersReady { return; }
      if * { return; }
      incident := Some(Closed);
      Advance(Move.Confirm, Idle);
    }
  }
}
