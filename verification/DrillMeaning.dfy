/**
 What the drill commands refuse and write, field by field, and what the register holds in every run: the
 statements read the files only, and name none of the functions that the commands are specified with.
 */
module DrillMeaning {
  import opened Wrappers
  import opened Text
  import opened DrillLedger

  // ------------------------------------------------------------------
  // Text and lookups
  // ------------------------------------------------------------------

  /** The text stands at n, with white space before and after it, and neither begins nor ends with any. */
  predicate StandsAt(s: string, text: string, n: nat) {
    && n + |text| <= |s| && s[n..n + |text|] == text
    && (forall i | 0 <= i < |s| && !(n <= i < n + |text|) :: IsSpace(s[i]))
    && (text != "" ==> !IsSpace(s[n]) && !IsSpace(s[n + |text| - 1]))
  }

  /** What is left of a text without the white space around it. */
  predicate Stripped(s: string, text: string) {
    exists n | 0 <= n <= |s| :: StandsAt(s, text, n)
  }

  lemma SpaceBefore(c: char, rest: string, text: string, n: nat)
    requires IsSpace(c) && StandsAt(rest, text, n)
    ensures StandsAt([c] + rest, text, n + 1)
  {
    var s := [c] + rest;
    assert forall i | 0 < i < |s| :: s[i] == rest[i - 1];
    assert s[n + 1..n + 1 + |text|] == rest[n..n + |text|];
  }

  lemma SpaceAfter(rest: string, c: char, text: string, n: nat)
    requires IsSpace(c) && StandsAt(rest, text, n)
    ensures StandsAt(rest + [c], text, n)
  {
    var s := rest + [c];
    assert s[n..n + |text|] == rest[n..n + |text|];
  }

  lemma {:induction false} StripMeans(s: string)
    ensures Stripped(s, Strip(s))
  {
    var text := Strip(s);
    if s == "" {
      assert StandsAt(s, text, 0);
    } else if IsSpace(s[0]) {
      StripMeans(s[1..]);
      var n :| 0 <= n <= |s[1..]| && StandsAt(s[1..], text, n);
      SpaceBefore(s[0], s[1..], text, n);
      assert s == [s[0]] + s[1..];
    } else if IsSpace(s[|s| - 1]) {
      var most, last := s[..|s| - 1], s[|s| - 1];
      StripMeans(most);
      var n :| 0 <= n <= |most| && StandsAt(most, text, n);
      SpaceAfter(most, last, text, n);
      assert s == most + [last];
    } else {
      assert s[0..0 + |s|] == s;
      assert StandsAt(s, s, 0);
    }
  }

  /** There is only one such text. */
  lemma StrippedIsUnique(s: string, a: string, b: string)
    requires Stripped(s, a) && Stripped(s, b)
    ensures a == b
  {
    var n :| 0 <= n <= |s| && StandsAt(s, a, n);
    var m :| 0 <= m <= |s| && StandsAt(s, b, m);
    if a == "" {
      assert forall i | 0 <= i < |s| :: IsSpace(s[i]);
    } else {
      assert b != "";
    }
  }

  /** The first record with an id stands at k. */
  predicate FirstAt(records: seq<Record>, id: string, k: nat) {
    k < |records| && records[k].id == id && forall i | 0 <= i < k :: records[i].id != id
  }

  predicate Occurs(records: seq<Record>, id: string) {
    exists i | 0 <= i < |records| :: records[i].id == id
  }

  lemma FirstMeans(records: seq<Record>, id: string)
    ensures First(records, id).Some? <==> Occurs(records, id)
    ensures forall k: nat :: FirstAt(records, id, k) <==> First(records, id) == Some(k)
  {
  }

  // ------------------------------------------------------------------
  // Recordings
  // ------------------------------------------------------------------

  /** The record holds the report: status and decision as they are, every text stripped. */
  predicate Holds(record: Record, r: Report, evidenceRef: string) {
    && record.id == r.id && record.status == r.status && record.decision == r.decision
    && Stripped(r.justification, record.justification) && Stripped(r.owner, record.owner)
    && Stripped(r.reviewOn, record.reviewOn) && record.evidenceRef == evidenceRef
    && Stripped(r.note, record.note) && record.updatedAt == r.at && Stripped(r.actor, record.updatedBy)
  }

  /** One record is replaced by one that holds the report. */
  ghost predicate Updated(before: seq<Record>, after: seq<Record>, r: Report, evidenceRef: string) {
    exists k: nat | FirstAt(before, r.id, k) ::
      && |after| == |before| && Holds(after[k], r, evidenceRef)
      && forall i | 0 <= i < |before| && i != k :: after[i] == before[i]
  }

  /** The register has an entry that repeats the report, and the others as before. */
  ghost predicate Entered(before: seq<Exception>, after: seq<Exception>, scope: Scope, r: Report) {
    && (exists entry | entry in after ::
          && entry.scope == scope && entry.id == r.id && entry.status == r.status && entry.decision == r.decision
          && Stripped(r.justification, entry.justification) && Stripped(r.owner, entry.owner)
          && Stripped(r.reviewOn, entry.reviewOn) && entry.updatedAt == r.later
          && Stripped(r.actor, entry.updatedBy) && Stripped(r.note, entry.note))
    && (forall entry: Exception | !(entry.scope == scope && entry.id == r.id) :: entry in after <==> entry in before)
  }

  /** The register has no entry for the id, and the others as before. */
  ghost predicate Cleared(before: seq<Exception>, after: seq<Exception>, scope: Scope, id: string) {
    && (forall entry | entry in after :: !(entry.scope == scope && entry.id == id))
    && (forall entry: Exception | !(entry.scope == scope && entry.id == id) :: entry in after <==> entry in before)
  }

  predicate AnyBlank(r: Report) {
    IsBlank(r.decision) || IsBlank(r.justification) || IsBlank(r.owner) || IsBlank(r.reviewOn)
  }

  lemma StripsMean(r: Report)
    ensures Stripped(r.justification, Strip(r.justification)) && Stripped(r.owner, Strip(r.owner))
    ensures Stripped(r.reviewOn, Strip(r.reviewOn)) && Stripped(r.evidenceRef, Strip(r.evidenceRef))
    ensures Stripped(r.note, Strip(r.note)) && Stripped(r.actor, Strip(r.actor))
  {
    StripMeans(r.justification);
    StripMeans(r.owner);
    StripMeans(r.reviewOn);
    StripMeans(r.evidenceRef);
    StripMeans(r.note);
    StripMeans(r.actor);
  }

  lemma EnteredBy(before: seq<Exception>, scope: Scope, r: Report)
    ensures Entered(before, Upsert(before, EntryFor(scope, r)), scope, r)
  {
    var entry := EntryFor(scope, r);
    var after := Upsert(before, entry);
    StripsMean(r);
    match FirstEntry(before, scope, r.id) {
      case None => assert after[|before|] == entry;
      case Some(k) => assert after[k] == entry;
    }
    forall other: Exception | !(other.scope == scope && other.id == r.id)
      ensures other in after <==> other in before
    {
      if other in before {
        var i :| 0 <= i < |before| && before[i] == other;
        assert after[i] == other;
      }
      if other in after {
        var i :| 0 <= i < |after| && after[i] == other;
        assert i < |before| && before[i] == other;
      }
    }
  }

  lemma UpdatedBy(before: seq<Record>, scope: Scope, r: Report, k: nat)
    requires FirstAt(before, r.id, k)
    ensures Updated(before, before[k := Filled(before[k], scope, r)], r,
                    if scope == VerificationCheck then Strip(r.evidenceRef) else "")
  {
    StripsMean(r);
    var after := before[k := Filled(before[k], scope, r)];
    assert Holds(after[k], r, if scope == VerificationCheck then Strip(r.evidenceRef) else "");
  }

  /** verify is denied exactly for an id that the ledger does not know, then for a blocked check with a blank
      decision, justification, owner or review date, then for an id missing from the evidence file. */
  lemma VerificationDenied(files: Files, r: Report)
    ensures var outcome := Outcome(files, RecordStatus(VerificationCheck, r));
            && (outcome == Failure(UnknownId) <==> !Occurs(files.verification, r.id))
            && (outcome == Failure(MissingField) <==>
                  Occurs(files.verification, r.id) && r.status == Blocked && AnyBlank(r))
            && (outcome == Failure(MissingEvidence) <==>
                  && Occurs(files.verification, r.id) && !(r.status == Blocked && AnyBlank(r))
                  && !Occurs(files.evidence.checks, r.id))
            && (outcome.Success? <==>
                  && Occurs(files.verification, r.id) && !(r.status == Blocked && AnyBlank(r))
                  && Occurs(files.evidence.checks, r.id))
  {
    FirstMeans(files.verification, r.id);
    FirstMeans(files.evidence.checks, r.id);
  }

  /** And restore likewise, where the exceptional status is another. */
  lemma RestoreDenied(files: Files, r: Report)
    ensures var outcome := Outcome(files, RecordStatus(RestoreSurface, r));
            && (outcome == Failure(UnknownId) <==> !Occurs(files.restore, r.id))
            && (outcome == Failure(MissingField) <==>
                  Occurs(files.restore, r.id) && r.status == Excepted && AnyBlank(r))
            && (outcome == Failure(MissingEvidence) <==>
                  && Occurs(files.restore, r.id) && !(r.status == Excepted && AnyBlank(r))
                  && !Occurs(files.evidence.surfaces, r.id))
            && (outcome.Success? <==>
                  && Occurs(files.restore, r.id) && !(r.status == Excepted && AnyBlank(r))
                  && Occurs(files.evidence.surfaces, r.id))
  {
    FirstMeans(files.restore, r.id);
    FirstMeans(files.evidence.surfaces, r.id);
  }

  predicate SomePending(records: seq<Record>) {
    exists i | 0 <= i < |records| :: records[i].status == Pending
  }

  predicate PhaseMeans(phase: Phase, ledger: seq<Record>) {
    phase == if SomePending(ledger) then InProgress else Recorded
  }

  /** The register has the entry that the report asks for, or none for its id; and the others as before. */
  ghost predicate Registered(before: seq<Exception>, after: seq<Exception>, scope: Scope, r: Report, raised: bool) {
    if raised then Entered(before, after, scope, r) else Cleared(before, after, scope, r.id)
  }

  /** What a verify makes of the files: the check in the ledger and its copy hold the report, a blocked one has
      its entry, any other has none, and the phase follows the ledger. */
  lemma VerificationWrites(files: Files, r: Report)
    requires Outcome(files, RecordStatus(VerificationCheck, r)).Success?
    ensures var after := Outcome(files, RecordStatus(VerificationCheck, r)).value;
            && Updated(files.verification, after.verification, r, Strip(r.evidenceRef))
            && Updated(files.evidence.checks, after.evidence.checks, r, Strip(r.evidenceRef))
            && Registered(files.evidence.register, after.evidence.register, VerificationCheck, r, r.status == Blocked)
            && PhaseMeans(after.run.verification, after.verification)
  {
    var checks, copies := files.verification, files.evidence.checks;
    var after := Outcome(files, RecordStatus(VerificationCheck, r)).value;
    FirstMeans(checks, r.id);
    FirstMeans(copies, r.id);
    var k, j := First(checks, r.id).value, First(copies, r.id).value;
    assert after.verification == checks[k := Filled(checks[k], VerificationCheck, r)];
    assert after.evidence.checks == copies[j := Filled(copies[j], VerificationCheck, r)];
    UpdatedBy(checks, VerificationCheck, r, k);
    UpdatedBy(copies, VerificationCheck, r, j);
    RegisteredBy(files, VerificationCheck, r);
  }

  /** And nothing else changes. */
  lemma VerificationLeaves(files: Files, r: Report)
    requires Outcome(files, RecordStatus(VerificationCheck, r)).Success?
    ensures var after := Outcome(files, RecordStatus(VerificationCheck, r)).value;
            && after.run == files.run.(verification := after.run.verification)
            && after.baseline == files.baseline && after.restore == files.restore
            && after.evidence ==
                 files.evidence.(checks := after.evidence.checks, register := after.evidence.register)
  {
  }

  lemma RegisteredBy(files: Files, scope: Scope, r: Report)
    requires Outcome(files, RecordStatus(scope, r)).Success?
    ensures var after := Outcome(files, RecordStatus(scope, r)).value;
            Registered(files.evidence.register, after.evidence.register, scope, r,
                       if scope == VerificationCheck then r.status == Blocked else r.status == Excepted)
  {
    EnteredBy(files.evidence.register, scope, r);
  }

  /** And a restore, for its own ledger and copy. */
  lemma RestoreWrites(files: Files, r: Report)
    requires Outcome(files, RecordStatus(RestoreSurface, r)).Success?
    ensures var after := Outcome(files, RecordStatus(RestoreSurface, r)).value;
            && Updated(files.restore, after.restore, r, "")
            && Updated(files.evidence.surfaces, after.evidence.surfaces, r, "")
            && Registered(files.evidence.register, after.evidence.register, RestoreSurface, r, r.status == Excepted)
            && PhaseMeans(after.run.restore, after.restore)
  {
    var surfaces, copies := files.restore, files.evidence.surfaces;
    var after := Outcome(files, RecordStatus(RestoreSurface, r)).value;
    FirstMeans(surfaces, r.id);
    FirstMeans(copies, r.id);
    var k, j := First(surfaces, r.id).value, First(copies, r.id).value;
    assert after.restore == surfaces[k := Filled(surfaces[k], RestoreSurface, r)];
    assert after.evidence.surfaces == copies[j := Filled(copies[j], RestoreSurface, r)];
    UpdatedBy(surfaces, RestoreSurface, r, k);
    UpdatedBy(copies, RestoreSurface, r, j);
    RegisteredBy(files, RestoreSurface, r);
  }

  lemma RestoreLeaves(files: Files, r: Report)
    requires Outcome(files, RecordStatus(RestoreSurface, r)).Success?
    ensures var after := Outcome(files, RecordStatus(RestoreSurface, r)).value;
            && after.run == files.run.(restore := after.run.restore)
            && after.baseline == files.baseline && after.verification == files.verification
            && after.evidence ==
                 files.evidence.(surfaces := after.evidence.surfaces, register := after.evidence.register)
  {
  }

  // ------------------------------------------------------------------
  // The register in every run
  // ------------------------------------------------------------------

  /** The record that counts for an id has this status. */
  ghost predicate Stands(records: seq<Record>, id: string, status: Status) {
    exists k: nat | FirstAt(records, id, k) :: records[k].status == status
  }

  lemma StandsMeans(records: seq<Record>, id: string, status: Status)
    requires status != Pending
    ensures Stands(records, id, status) <==> StatusOf(records, id) == status
  {
    FirstMeans(records, id);
  }

  /** One entry for this scope and id, and only one. */
  predicate HasOne(register: seq<Exception>, scope: Scope, id: string) {
    exists j | 0 <= j < |register| ::
      && register[j].scope == scope && register[j].id == id
      && forall i | 0 <= i < |register| && register[i].scope == scope && register[i].id == id :: i == j
  }

  predicate HasNone(register: seq<Exception>, scope: Scope, id: string) {
    forall i | 0 <= i < |register| :: !(register[i].scope == scope && register[i].id == id)
  }

  lemma CountedEntries(register: seq<Exception>, scope: Scope, id: string)
    requires Distinct(register)
    ensures EntriesFor(register, scope, id) == if HasOne(register, scope, id) then 1 else 0
    ensures HasNone(register, scope, id) <==> !HasOne(register, scope, id)
  {
    EntriesAreCounted(register, scope, id);
    var first := FirstEntry(register, scope, id);
    if first.Some? {
      forall i | 0 <= i < |register| && register[i].scope == scope && register[i].id == id ensures i == first.value {
      }
    }
  }

  /** At every moment of every run, crashes included: the register has exactly one entry for a check that the
      evidence file shows as blocked and for a surface that it shows as excepted, and none for any other id. */
  lemma RegisterInRuns(trace: seq<Files>, attempts: seq<Attempt>, i: nat, id: string)
    requires IsRun(trace, attempts) && i < |trace|
    ensures var evidence := trace[i].evidence; var register := evidence.register;
            && (if Stands(evidence.checks, id, Blocked) then HasOne(register, VerificationCheck, id)
                else HasNone(register, VerificationCheck, id))
            && (if Stands(evidence.surfaces, id, Excepted) then HasOne(register, RestoreSurface, id)
                else HasNone(register, RestoreSurface, id))
  {
    var evidence := trace[i].evidence;
    RunKeeps(trace, attempts, i);
    RegisterFollowsEvidence(trace[i], VerificationCheck, id);
    RegisterFollowsEvidence(trace[i], RestoreSurface, id);
    StandsMeans(evidence.checks, id, Blocked);
    StandsMeans(evidence.surfaces, id, Excepted);
    CountedEntries(evidence.register, VerificationCheck, id);
    CountedEntries(evidence.register, RestoreSurface, id);
  }

  /** And each entry says what its record says, and gives decision, justification, owner and review date. */
  lemma EntriesRepeatRecords(trace: seq<Files>, attempts: seq<Attempt>, i: nat, j: nat)
    requires IsRun(trace, attempts) && i < |trace| && j < |trace[i].evidence.register|
    ensures var evidence := trace[i].evidence; var entry := evidence.register[j];
            var records := if entry.scope == VerificationCheck then evidence.checks else evidence.surfaces;
            && entry.status == (if entry.scope == VerificationCheck then Blocked else Excepted)
            && entry.decision != "" && entry.justification != "" && entry.owner != "" && entry.reviewOn != ""
            && exists k: nat | FirstAt(records, entry.id, k) ::
                 && records[k].status == entry.status && records[k].decision == entry.decision
                 && records[k].justification == entry.justification && records[k].owner == entry.owner
                 && records[k].reviewOn == entry.reviewOn && records[k].note == entry.note
                 && records[k].updatedBy == entry.updatedBy
  {
    var evidence := trace[i].evidence;
    var entry := evidence.register[j];
    RunKeeps(trace, attempts, i);
    EntryIs(evidence.register, j);
    FirstMeans(Copies(evidence, entry.scope), entry.id);
    assert Matches(EntryOf(evidence.register, entry.scope, entry.id), entry.scope,
                   LookUp(Copies(evidence, entry.scope), entry.id));
  }

  // ------------------------------------------------------------------
  // Attestation and activation
  // ------------------------------------------------------------------

  /** The record that counts for a stripped id: the last one. */
  predicate LastAt(records: seq<Record>, id: string, k: nat) {
    && k < |records| && Stripped(records[k].id, id)
    && forall i | k < i < |records| :: !Stripped(records[i].id, id)
  }

  lemma StrippedIs(s: string, text: string)
    ensures Stripped(s, text) <==> Strip(s) == text
  {
    StripMeans(s);
    if Stripped(s, text) { StrippedIsUnique(s, text, Strip(s)); }
  }

  /** Some record has this stripped id. */
  predicate Lists(records: seq<Record>, id: string) {
    exists i | 0 <= i < |records| :: Stripped(records[i].id, id)
  }

  lemma {:induction false} LastCounts(records: seq<Record>, id: string, k: nat)
    requires LastAt(records, id, k)
    ensures id in ById(records) && ById(records)[id] == records[k]
  {
    var last := |records| - 1;
    StrippedIs(records[last].id, id);
    if k < last { LastCounts(records[..last], id, k); }
  }

  lemma LastStays(records: seq<Record>, id: string, k: nat)
    requires records != [] && LastAt(records[..|records| - 1], id, k)
    requires !Stripped(records[|records| - 1].id, id)
    ensures LastAt(records, id, k)
  {
  }

  lemma {:induction false} FindLast(records: seq<Record>, id: string) returns (k: nat)
    requires id in ById(records)
    ensures LastAt(records, id, k)
  {
    var last := |records| - 1;
    StrippedIs(records[last].id, id);
    if Strip(records[last].id) == id {
      k := last;
    } else {
      k := FindLast(records[..last], id);
      LastStays(records, id, k);
    }
  }

  lemma {:induction false} ListedIsKey(records: seq<Record>, id: string)
    ensures id in ById(records) <==> Lists(records, id)
  {
    if records != [] {
      var last, before := records[|records| - 1], records[..|records| - 1];
      StrippedIs(last.id, id);
      ListedIsKey(before, id);
      assert records == before + [last];
      assert Lists(records, id) <==> Lists(before, id) || Stripped(last.id, id);
    }
  }

  predicate Vouched(record: Record) {
    record.status == Attested && !IsBlank(record.evidenceRef)
  }

  /** Whatever counts for an id in these records is attested with evidence. */
  ghost predicate AllVouched(records: seq<Record>) {
    forall id, k: nat | LastAt(records, id, k) :: Vouched(records[k])
  }

  /** A baseline is completely attested exactly when neither list is empty nor has a blank id, both have the
      same ids, and the record that counts for each id is attested with evidence on either side. */
  lemma CompleteMeans(baseline: seq<Record>, attestations: seq<Record>)
    ensures Complete(baseline, attestations) <==>
              && baseline != [] && attestations != []
              && (forall i | 0 <= i < |baseline| :: !IsBlank(baseline[i].id))
              && (forall i | 0 <= i < |attestations| :: !IsBlank(attestations[i].id))
              && (forall id :: Lists(baseline, id) <==> Lists(attestations, id))
              && AllVouched(baseline) && AllVouched(attestations)
  {
    BlankIds(baseline);
    BlankIds(attestations);
    VouchedMeans(baseline);
    VouchedMeans(attestations);
    SameIds(baseline, attestations);
  }

  lemma BlankIds(records: seq<Record>)
    ensures "" in ById(records) <==> exists i | 0 <= i < |records| :: IsBlank(records[i].id)
  {
    ListedIsKey(records, "");
    forall i | 0 <= i < |records| ensures Stripped(records[i].id, "") <==> IsBlank(records[i].id) {
      StrippedIs(records[i].id, "");
    }
  }

  lemma VouchedMeans(records: seq<Record>)
    ensures (forall id | id in ById(records) :: IsAttested(ById(records)[id])) <==> AllVouched(records)
  {
    forall id, k: nat | LastAt(records, id, k) ensures id in ById(records) && ById(records)[id] == records[k] {
      LastCounts(records, id, k);
    }
    if AllVouched(records) {
      forall id | id in ById(records) ensures IsAttested(ById(records)[id]) {
        var k := FindLast(records, id);
        assert Vouched(records[k]);
      }
    } else {
      var id, k: nat :| LastAt(records, id, k) && !Vouched(records[k]);
      assert !IsAttested(ById(records)[id]);
    }
  }

  lemma SameIds(left: seq<Record>, right: seq<Record>)
    ensures ById(left).Keys == ById(right).Keys <==> forall id :: Lists(left, id) <==> Lists(right, id)
  {
    forall id ensures (id in ById(left) <==> Lists(left, id)) && (id in ById(right) <==> Lists(right, id)) {
      ListedIsKey(left, id);
      ListedIsKey(right, id);
    }
  }

  /** An attestation is denied after activation, without an actor, for an unknown surface, without a reference,
      and for a surface missing from the evidence file, in this order. */
  lemma AttestationDenied(files: Files, surface: string, actor: string, evidenceRef: string, note: string, at: string)
    ensures var outcome := Outcome(files, AttestBaseline(surface, actor, evidenceRef, note, at));
            outcome ==
              if files.run.activation != Unstarted then Failure(AfterActivation)
              else if IsBlank(actor) then Failure(BlankActor)
              else if !Occurs(files.baseline, surface) then Failure(UnknownId)
              else if IsBlank(evidenceRef) then Failure(BlankReference)
              else if !Occurs(files.evidence.attestations, surface) then Failure(MissingEvidence)
              else outcome
    ensures Outcome(files, AttestBaseline(surface, actor, evidenceRef, note, at)).Success? <==>
              && files.run.activation == Unstarted && !IsBlank(actor) && Occurs(files.baseline, surface)
              && !IsBlank(evidenceRef) && Occurs(files.evidence.attestations, surface)
  {
    FirstMeans(files.baseline, surface);
    FirstMeans(files.evidence.attestations, surface);
  }

  /** A record became attested with these texts; no other field of it changed. */
  predicate NowAttested(was: Record, now: Record, actor: string, evidenceRef: string, note: string, at: string) {
    && now == was.(status := Attested, evidenceRef := now.evidenceRef, note := now.note, updatedAt := at,
                   updatedBy := now.updatedBy)
    && Stripped(evidenceRef, now.evidenceRef) && Stripped(note, now.note) && Stripped(actor, now.updatedBy)
  }

  /** So did the record that counts for a surface, and no other record changed. */
  ghost predicate AttestedIn(
    before: seq<Record>, after: seq<Record>, surface: string, actor: string, evidenceRef: string, note: string,
    at: string)
  {
    exists k: nat | FirstAt(before, surface, k) ::
      && |after| == |before| && NowAttested(before[k], after[k], actor, evidenceRef, note, at)
      && forall i | 0 <= i < |before| && i != k :: after[i] == before[i]
  }

  lemma AttestedBy(
    before: seq<Record>, surface: string, actor: string, evidenceRef: string, note: string, at: string, k: nat)
    requires FirstAt(before, surface, k)
    ensures AttestedIn(before, before[k := Attest(before[k], Strip(evidenceRef), Strip(note), at, Strip(actor))],
                       surface, actor, evidenceRef, note, at)
  {
    var now := Attest(before[k], Strip(evidenceRef), Strip(note), at, Strip(actor));
    assert NowAttested(before[k], now, actor, evidenceRef, note, at) by {
      StripMeans(actor);
      StripMeans(evidenceRef);
      StripMeans(note);
    }
    assert before[k := now][k] == now;
  }

  lemma AttestationWrites(files: Files, surface: string, actor: string, evidenceRef: string, note: string, at: string)
    requires Outcome(files, AttestBaseline(surface, actor, evidenceRef, note, at)).Success?
    ensures var after := Outcome(files, AttestBaseline(surface, actor, evidenceRef, note, at)).value;
            && AttestedIn(files.baseline, after.baseline, surface, actor, evidenceRef, note, at)
            && AttestedIn(files.evidence.attestations, after.evidence.attestations,
                          surface, actor, evidenceRef, note, at)
            && after.evidence.capture ==
                 (if Complete(after.baseline, after.evidence.attestations) then Captured else InProgress)
            && after.run == files.run.(baseline := after.evidence.capture)
            && after.verification == files.verification && after.restore == files.restore
            && after.evidence ==
                 files.evidence.(attestations := after.evidence.attestations, capture := after.evidence.capture)
  {
    var attestations := files.evidence.attestations;
    FirstMeans(files.baseline, surface);
    FirstMeans(attestations, surface);
    AttestedBy(files.baseline, surface, actor, evidenceRef, note, at, First(files.baseline, surface).value);
    AttestedBy(attestations, surface, actor, evidenceRef, note, at, First(attestations, surface).value);
  }

  /** An activation needs an actor, a captured and complete baseline, and only surfaces of that baseline. */
  lemma ActivationDenied(files: Files, actor: string, surfaces: seq<string>, note: string, at: string)
    ensures var outcome := Outcome(files, Activate(actor, surfaces, note, at));
            var captured := files.run.baseline == Captured == files.evidence.capture
                            && Complete(files.baseline, files.evidence.attestations);
            var known := forall i | 0 <= i < |surfaces| ::
                           !IsBlank(surfaces[i]) && Occurs(files.baseline, surfaces[i]);
            && (outcome == Failure(BlankActor) <==> IsBlank(actor))
            && (outcome == Failure(NotAttested) <==> !IsBlank(actor) && !captured)
            && (outcome == Failure(UnknownSurfaces) <==> !IsBlank(actor) && captured && !known)
            && (outcome.Success? <==> !IsBlank(actor) && captured && known)
  {
    forall i | 0 <= i < |surfaces|
      ensures surfaces[i] in KnownSurfaces(files.baseline) <==>
                !IsBlank(surfaces[i]) && Occurs(files.baseline, surfaces[i])
    {
      FirstMeans(files.baseline, surfaces[i]);
    }
  }

  /** It records the actor, the note and the clock reading; the surfaces named, or else every surface of the
      baseline in its order; and appends the same to the evidence file. */
  lemma ActivationWrites(files: Files, actor: string, surfaces: seq<string>, note: string, at: string)
    requires Outcome(files, Activate(actor, surfaces, note, at)).Success?
    ensures var after := Outcome(files, Activate(actor, surfaces, note, at)).value;
            && after.run.activated.Some?
            && var activation := after.run.activated.value;
               && Stripped(actor, activation.actor) && Stripped(note, activation.note) && activation.recordedAt == at
               && (surfaces != [] ==> activation.surfaces == surfaces)
               && (surfaces == [] ==>
                     |activation.surfaces| == |files.baseline|
                     && forall i | 0 <= i < |files.baseline| :: activation.surfaces[i] == files.baseline[i].id)
               && after == files.(run := files.run.(activation := Recorded, activated := Some(activation)),
                                  evidence := files.evidence.(activations := files.evidence.activations + [activation]))
  {
    StripMeans(actor);
    StripMeans(note);
    BlankIds(files.baseline);
    AllKnown(files.baseline);
  }

  lemma {:induction false} AllKnown(baseline: seq<Record>)
    requires forall i | 0 <= i < |baseline| :: !IsBlank(baseline[i].id)
    ensures |KnownSurfaces(baseline)| == |baseline|
    ensures forall i | 0 <= i < |baseline| :: KnownSurfaces(baseline)[i] == baseline[i].id
  {
    if baseline != [] { AllKnown(baseline[1..]); }
  }

  /** In every run, crashes included: a recorded activation names an actor and known surfaces of a baseline that
      is attested with evidence throughout. */
  lemma ActivationInRuns(trace: seq<Files>, attempts: seq<Attempt>, i: nat)
    requires IsRun(trace, attempts) && i < |trace| && trace[i].run.activation == Recorded
    ensures var files := trace[i];
            && files.run.activated.Some? && files.run.activated.value.actor != ""
            && files.baseline != [] && AllVouched(files.baseline) && AllVouched(files.evidence.attestations)
            && (forall id :: Lists(files.baseline, id) <==> Lists(files.evidence.attestations, id))
            && forall s | s in files.run.activated.value.surfaces :: !IsBlank(s) && Occurs(files.baseline, s)
  {
    var files := trace[i];
    ActivationIsAttested(trace, attempts, i);
    CompleteMeans(files.baseline, files.evidence.attestations);
    forall s | s in files.run.activated.value.surfaces ensures !IsBlank(s) && Occurs(files.baseline, s) {
      FirstMeans(files.baseline, s);
    }
  }

  // ------------------------------------------------------------------
  // Phases
  // ------------------------------------------------------------------

  /** While no command was cut short: a recorded verification or restore phase means that nothing is pending, one
      in progress that something is; and a baseline is captured only while it is completely attested. */
  lemma PhasesMean(trace: seq<Files>, attempts: seq<Attempt>, i: nat)
    requires IsRun(trace, attempts) && i < |trace|
    requires forall j | 0 <= j < i :: 5 <= attempts[j].cut
    ensures var files := trace[i];
            && (files.run.verification == Recorded ==> !SomePending(files.verification))
            && (files.run.verification == InProgress ==> SomePending(files.verification))
            && (files.run.restore == Recorded ==> !SomePending(files.restore))
            && (files.run.restore == InProgress ==> SomePending(files.restore))
            && (files.run.baseline == Captured ==> Complete(files.baseline, files.evidence.attestations))
            && (files.run.baseline == InProgress ==> !Complete(files.baseline, files.evidence.attestations))
            && files.evidence.capture == files.run.baseline
  {
    PhasesTellTheTruth(trace, attempts, i);
  }
}
