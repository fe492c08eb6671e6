/**
 The ledgers of one uncontrolled drill run of platform_drill.py: five files, four commands that load
 all of them and write some back, and a crash possible between any two writes.
 */
module DrillLedger {
  import opened Wrappers
  import opened Text

  datatype Status = Pending | Attested | Passed | Failed | Blocked | NotApplicable | Restored | Excepted

  /** A baseline surface, a verification check or a restore surface: the keys each kind lacks stay as built. */
  datatype Record = Record(
    id: string, status: Status, decision: string, justification: string, owner: string, reviewOn: string,
    evidenceRef: string, note: string, updatedAt: string, updatedBy: string)

  datatype Scope = VerificationCheck | RestoreSurface

  datatype Exception = Exception(
    scope: Scope, id: string, status: Status, decision: string, justification: string, owner: string,
    reviewOn: string, updatedAt: string, updatedBy: string, note: string)

  datatype Phase = Unstarted | InProgress | Captured | Recorded

  datatype Activation = Activation(actor: string, surfaces: seq<string>, note: string, recordedAt: string)

  /** run.yaml */
  datatype Run = Run(
    baseline: Phase, activation: Phase, verification: Phase, restore: Phase, activated: Option<Activation>)

  /** evidence.yaml */
  datatype Evidence = Evidence(
    capture: Phase, attestations: seq<Record>, activations: seq<Activation>,
    checks: seq<Record>, surfaces: seq<Record>, register: seq<Exception>)

  datatype Files = Files(
    run: Run, baseline: seq<Record>, verification: seq<Record>, restore: seq<Record>, evidence: Evidence)

  /** What the operator says about one check or restore surface; at and later are clock readings. */
  datatype Report = Report(
    id: string, status: Status, decision: string, justification: string, owner: string, reviewOn: string,
    evidenceRef: string, note: string, actor: string, at: string, later: string)

  datatype Command =
    | AttestBaseline(surface: string, actor: string, evidenceRef: string, note: string, at: string)
    | Activate(actor: string, surfaces: seq<string>, note: string, at: string)
    | RecordStatus(scope: Scope, report: Report)

  datatype Denial =
    | AfterActivation | BlankActor | UnknownId | BlankReference | MissingField | MissingEvidence
    | NotAttested | UnknownSurfaces

  // ------------------------------------------------------------------
  // Text and lists
  // ------------------------------------------------------------------

  function Strip(s: string): (r: string)
    ensures r == "" <==> IsBlank(s)
    ensures r != "" ==> !IsSpace(r[0]) && !IsSpace(r[|r| - 1])
  {
    if s == "" then ""
    else if IsSpace(s[0]) then Strip(s[1..])
    else if IsSpace(s[|s| - 1]) then Strip(s[..|s| - 1])
    else s
  }

  /** The first record with this id. */
  function First(records: seq<Record>, id: string): (r: Option<nat>)
    ensures r == None ==> forall i | 0 <= i < |records| :: records[i].id != id
    ensures r.Some? ==> r.value < |records| && records[r.value].id == id
                        && forall i | 0 <= i < r.value :: records[i].id != id
  {
    if records == [] then None
    else if records[0].id == id then Some(0)
    else match First(records[1..], id) case None => None case Some(k) => Some(k + 1)
  }

  function LookUp(records: seq<Record>, id: string): Option<Record> {
    match First(records, id) case None => None case Some(k) => Some(records[k])
  }

  /** Records by stripped id, where a later one hides an earlier one. */
  function ById(records: seq<Record>): map<string, Record> {
    if records == [] then map[] else
    var last := records[|records| - 1];
    ById(records[..|records| - 1])[Strip(last.id) := last]
  }

  predicate IsAttested(record: Record) {
    record.status == Attested && Strip(record.evidenceRef) != ""
  }

  /** baseline_attestation_complete */
  predicate Complete(baseline: seq<Record>, attestations: seq<Record>) {
    var left, right := ById(baseline), ById(attestations);
    && baseline != [] && attestations != []
    && "" !in left && "" !in right && left.Keys == right.Keys
    && forall id | id in left :: IsAttested(left[id]) && IsAttested(right[id])
  }

  // ------------------------------------------------------------------
  // The exception register
  // ------------------------------------------------------------------

  function FirstEntry(register: seq<Exception>, scope: Scope, id: string): (r: Option<nat>)
    ensures r == None ==> forall i | 0 <= i < |register| :: !(register[i].scope == scope && register[i].id == id)
    ensures r.Some? ==> r.value < |register| && register[r.value].scope == scope && register[r.value].id == id
  {
    if register == [] then None
    else if register[0].scope == scope && register[0].id == id then Some(0)
    else match FirstEntry(register[1..], scope, id) case None => None case Some(k) => Some(k + 1)
  }

  function EntryOf(register: seq<Exception>, scope: Scope, id: string): Option<Exception> {
    match FirstEntry(register, scope, id) case None => None case Some(k) => Some(register[k])
  }

  /** No two entries for one scope and id. */
  predicate Distinct(register: seq<Exception>) {
    forall i, j | 0 <= i < j < |register| ::
      !(register[i].scope == register[j].scope && register[i].id == register[j].id)
  }

  /** upsert_exception_entry */
  function Upsert(register: seq<Exception>, entry: Exception): (r: seq<Exception>)
    ensures Distinct(register) ==> Distinct(r)
  {
    match FirstEntry(register, entry.scope, entry.id)
    case None => register + [entry]
    case Some(k) => register[k := entry]
  }

  /** Among distinct entries, the one found is the only one that can be. */
  lemma EntryIs(register: seq<Exception>, i: nat)
    requires Distinct(register) && i < |register|
    ensures EntryOf(register, register[i].scope, register[i].id) == Some(register[i])
  {
    var k := FirstEntry(register, register[i].scope, register[i].id);
    assert k.Some?;
    assert k.value == i;
  }

  lemma UpsertEntries(register: seq<Exception>, entry: Exception)
    requires Distinct(register)
    ensures EntryOf(Upsert(register, entry), entry.scope, entry.id) == Some(entry)
    ensures forall scope, id | !(scope == entry.scope && id == entry.id) ::
              EntryOf(Upsert(register, entry), scope, id) == EntryOf(register, scope, id)
  {
    var r := Upsert(register, entry);
    match FirstEntry(register, entry.scope, entry.id) {
      case None => EntryIs(r, |register|);
      case Some(k) => EntryIs(r, k);
    }
    forall scope, id | !(scope == entry.scope && id == entry.id)
      ensures EntryOf(r, scope, id) == EntryOf(register, scope, id)
    {
      match FirstEntry(register, scope, id) {
        case Some(k) => assert r[k] == register[k]; EntryIs(r, k);
        case None =>
          forall i | 0 <= i < |r| ensures !(r[i].scope == scope && r[i].id == id) {
            assert r[i] == entry || r[i] == register[i];
          }
      }
    }
  }

  /** remove_exception_entry */
  function Remove(register: seq<Exception>, scope: Scope, id: string): (r: seq<Exception>)
    ensures forall e :: e in r <==> e in register && !(e.scope == scope && e.id == id)
    ensures Distinct(register) ==> Distinct(r)
  {
    if register == [] then [] else
    var rest := Remove(register[1..], scope, id);
    if register[0].scope == scope && register[0].id == id then rest
    else
      var r := [register[0]] + rest;
      assert Distinct(register) ==> Distinct(register[1..]);
      assert Distinct(register) ==>
        forall e | e in rest :: !(e.scope == register[0].scope && e.id == register[0].id) by {
        forall e | Distinct(register) && e in rest
          ensures !(e.scope == register[0].scope && e.id == register[0].id)
        {
          assert e in register[1..];
        }
      }
      r
  }

  lemma RemoveEntries(register: seq<Exception>, gone: Scope, goneId: string, scope: Scope, id: string)
    requires Distinct(register)
    ensures EntryOf(Remove(register, gone, goneId), scope, id)
            == if scope == gone && id == goneId then None else EntryOf(register, scope, id)
  {
    var r := Remove(register, gone, goneId);
    match EntryOf(register, scope, id) {
      case Some(entry) =>
        if !(scope == gone && id == goneId) {
          assert entry in r;
          var j :| 0 <= j < |r| && r[j] == entry;
          EntryIs(r, j);
        }
      case None =>
    }
    forall i | 0 <= i < |r| && r[i].scope == scope && r[i].id == id
      ensures EntryOf(register, scope, id) == Some(r[i]) && !(scope == gone && id == goneId)
    {
      assert r[i] in register;
      var j :| 0 <= j < |register| && register[j] == r[i];
      EntryIs(register, j);
    }
  }

  // ------------------------------------------------------------------
  // What a command makes of the files, before any write
  // ------------------------------------------------------------------

  /** The statuses that need a governed exception. */
  predicate Raises(scope: Scope, status: Status) {
    match scope
    case VerificationCheck => status == Blocked
    case RestoreSurface => status == Excepted
  }

  function Ledger(files: Files, scope: Scope): seq<Record> {
    match scope case VerificationCheck => files.verification case RestoreSurface => files.restore
  }

  function Copies(evidence: Evidence, scope: Scope): seq<Record> {
    match scope case VerificationCheck => evidence.checks case RestoreSurface => evidence.surfaces
  }

  function Filled(record: Record, scope: Scope, r: Report): Record {
    Record(record.id, r.status, r.decision, Strip(r.justification), Strip(r.owner), Strip(r.reviewOn),
           if scope == VerificationCheck then Strip(r.evidenceRef) else "",
           Strip(r.note), r.at, Strip(r.actor))
  }

  function EntryFor(scope: Scope, r: Report): Exception {
    Exception(scope, r.id, r.status, r.decision, Strip(r.justification), Strip(r.owner), Strip(r.reviewOn),
              r.later, Strip(r.actor), Strip(r.note))
  }

  predicate FieldsMissing(r: Report) {
    Strip(r.decision) == "" || Strip(r.justification) == "" || Strip(r.owner) == "" || Strip(r.reviewOn) == ""
  }

  predicate NonePending(ledger: seq<Record>) {
    forall i | 0 <= i < |ledger| :: ledger[i].status != Pending
  }

  function PhaseFor(ledger: seq<Record>): Phase {
    if NonePending(ledger) then Recorded else InProgress
  }

  /** The reports that a recording takes: a known id, in both files, with the fields its status needs. */
  predicate Accepts(files: Files, scope: Scope, r: Report) {
    && First(Ledger(files, scope), r.id).Some?
    && (Raises(scope, r.status) ==> !FieldsMissing(r))
    && First(Copies(files.evidence, scope), r.id).Some?
  }

  /** cmd_verify and cmd_restore */
  function Recording(files: Files, scope: Scope, r: Report): Result<Files, Denial>
  {
    var ledger, copies := Ledger(files, scope), Copies(files.evidence, scope);
    match First(ledger, r.id)
    case None => Failure(UnknownId)
    case Some(k) =>
      if Raises(scope, r.status) && FieldsMissing(r) then Failure(MissingField) else
      match First(copies, r.id)
      case None => Failure(MissingEvidence)
      case Some(j) =>
        var ledger' := ledger[k := Filled(ledger[k], scope, r)];
        var copies' := copies[j := Filled(copies[j], scope, r)];
        var register' := if Raises(scope, r.status) then Upsert(files.evidence.register, EntryFor(scope, r))
                         else Remove(files.evidence.register, scope, r.id);
        Success(Placed(files, scope, ledger', copies', register'))
  }

  /** The files with one ledger, its evidence copy and the register replaced. */
  function Placed(files: Files, scope: Scope, ledger: seq<Record>, copies: seq<Record>, register: seq<Exception>)
    : (r: Files)
    ensures Ledger(r, scope) == ledger && Copies(r.evidence, scope) == copies && r.evidence.register == register
    ensures forall s | s != scope ::
              Ledger(r, s) == Ledger(files, s) && Copies(r.evidence, s) == Copies(files.evidence, s)
    ensures r.run.activation == files.run.activation && r.run.activated == files.run.activated
    ensures r.baseline == files.baseline
    ensures r.evidence.attestations == files.evidence.attestations && r.evidence.capture == files.evidence.capture
  {
    match scope
    case VerificationCheck =>
      files.(run := files.run.(verification := PhaseFor(ledger)), verification := ledger,
             evidence := files.evidence.(register := register, checks := copies))
    case RestoreSurface =>
      files.(run := files.run.(restore := PhaseFor(ledger)), restore := ledger,
             evidence := files.evidence.(register := register, surfaces := copies))
  }

  function Attest(record: Record, evidenceRef: string, note: string, at: string, actor: string): Record {
    record.(status := Attested, evidenceRef := evidenceRef, note := note, updatedAt := at, updatedBy := actor)
  }

  /** cmd_attest_baseline */
  function Attesting(files: Files, c: Command): Result<Files, Denial>
    requires c.AttestBaseline?
  {
    if files.run.activation != Unstarted then Failure(AfterActivation)
    else if Strip(c.actor) == "" then Failure(BlankActor)
    else match First(files.baseline, c.surface)
    case None => Failure(UnknownId)
    case Some(k) =>
      if Strip(c.evidenceRef) == "" then Failure(BlankReference) else
      match First(files.evidence.attestations, c.surface)
      case None => Failure(MissingEvidence)
      case Some(j) =>
        var evidenceRef, note, actor := Strip(c.evidenceRef), Strip(c.note), Strip(c.actor);
        var baseline := files.baseline[k := Attest(files.baseline[k], evidenceRef, note, c.at, actor)];
        var before := files.evidence.attestations;
        var attestations := before[j := Attest(before[j], evidenceRef, note, c.at, actor)];
        var phase := if Complete(baseline, attestations) then Captured else InProgress;
        Success(files.(run := files.run.(baseline := phase), baseline := baseline,
                       evidence := files.evidence.(attestations := attestations, capture := phase)))
  }

  /** The nonblank ids of the baseline, in order. */
  function KnownSurfaces(baseline: seq<Record>): (r: seq<string>)
    ensures forall id :: id in r <==> Strip(id) != "" && First(baseline, id).Some?
  {
    if baseline == [] then []
    else if Strip(baseline[0].id) == "" then KnownSurfaces(baseline[1..])
    else [baseline[0].id] + KnownSurfaces(baseline[1..])
  }

  predicate Subset(some: seq<string>, all: seq<string>) {
    forall i | 0 <= i < |some| :: some[i] in all
  }

  /** cmd_activate */
  function Activating(files: Files, c: Command): Result<Files, Denial>
    requires c.Activate?
  {
    if Strip(c.actor) == "" then Failure(BlankActor)
    else if files.run.baseline != Captured || files.evidence.capture != Captured
            || !Complete(files.baseline, files.evidence.attestations) then Failure(NotAttested)
    else
      var known := KnownSurfaces(files.baseline);
      var scoped := if c.surfaces == [] then known else c.surfaces;
      if !Subset(scoped, known) then Failure(UnknownSurfaces)
      else
        var activation := Activation(Strip(c.actor), scoped, Strip(c.note), c.at);
        Success(files.(run := files.run.(activation := Recorded, activated := Some(activation)),
                       evidence := files.evidence.(activations := files.evidence.activations + [activation])))
  }

  function Outcome(files: Files, c: Command): Result<Files, Denial>
  {
    match c
    case AttestBaseline(_, _, _, _, _) => Attesting(files, c)
    case Activate(_, _, _, _) => Activating(files, c)
    case RecordStatus(scope, report) => Recording(files, scope, report)
  }

  // ------------------------------------------------------------------
  // Runs
  // ------------------------------------------------------------------

  /** The files when only the first cut of the five, in the order of write_run, have been written. */
  function Torn(before: Files, after: Files, cut: nat): Files {
    Files(if 1 <= cut then after.run else before.run,
          if 2 <= cut then after.baseline else before.baseline,
          if 3 <= cut then after.verification else before.verification,
          if 4 <= cut then after.restore else before.restore,
          if 5 <= cut then after.evidence else before.evidence)
  }

  /** One command, dying after cut of its writes; a cut of five or more is a command that completes. */
  datatype Attempt = Attempt(command: Command, cut: nat)

  function Step(files: Files, attempt: Attempt): Files
  {
    match Outcome(files, attempt.command)
    case Failure(_) => files
    case Success(after) => Torn(files, after, attempt.cut)
  }

  predicate AllPending(records: seq<Record>) {
    forall i | 0 <= i < |records| :: records[i] == Blank(records[i].id)
  }

  function Blank(id: string): Record { Record(id, Pending, "", "", "", "", "", "", "", "") }

  /** A new run: ledgers as built, an evidence template with everything pending and an empty register.
      The template may list the same ids in another order, or miss some. */
  predicate Initial(files: Files) {
    && files.run == Run(Unstarted, Unstarted, Unstarted, Unstarted, None)
    && AllPending(files.baseline) && AllPending(files.verification) && AllPending(files.restore)
    && files.evidence.capture == Unstarted && AllPending(files.evidence.attestations)
    && AllPending(files.evidence.checks) && AllPending(files.evidence.surfaces)
    && files.evidence.register == []
  }

  /** The files after each attempt of a run. */
  ghost predicate IsRun(trace: seq<Files>, attempts: seq<Attempt>) {
    && |trace| == |attempts| + 1 && Initial(trace[0])
    && forall i | 0 <= i < |attempts| ::
         trace[i + 1] == Step(trace[i], attempts[i])
  }

  // ------------------------------------------------------------------
  // The register and the records it speaks for
  // ------------------------------------------------------------------

  predicate SpeaksFor(entry: Exception, record: Record) {
    && entry.status == record.status && entry.decision == record.decision && entry.owner == record.owner
    && entry.justification == record.justification && entry.reviewOn == record.reviewOn
    && entry.note == record.note && entry.updatedBy == record.updatedBy
    && entry.decision != "" && entry.justification != "" && entry.owner != "" && entry.reviewOn != ""
  }

  /** An entry stands exactly for a record with an exceptional status, and repeats what it says. */
  predicate Matches(entry: Option<Exception>, scope: Scope, record: Option<Record>) {
    && (entry.Some? <==> record.Some? && Raises(scope, record.value.status))
    && (entry.Some? ==> SpeaksFor(entry.value, record.value))
  }

  ghost predicate RegisterOk(evidence: Evidence) {
    && Distinct(evidence.register)
    && forall scope, id :: Matches(EntryOf(evidence.register, scope, id), scope, LookUp(Copies(evidence, scope), id))
  }

  ghost predicate Inv(files: Files) {
    && RegisterOk(files.evidence)
    && (files.run.activation == Unstarted || files.run.activation == Recorded)
    && (files.run.activation == Recorded ==>
          Complete(files.baseline, files.evidence.attestations) && Scoped(files.run, files.baseline))
  }

  /** A recorded activation names its actor, and only surfaces of the baseline. */
  predicate Scoped(run: Run, baseline: seq<Record>) {
    && run.activated.Some? && run.activated.value.actor != ""
    && Subset(run.activated.value.surfaces, KnownSurfaces(baseline))
  }

  /** Filling the first record with an id changes what is found under that id only. */
  lemma FilledLookUp(records: seq<Record>, k: nat, record: Record, id: string)
    requires First(records, record.id) == Some(k)
    ensures LookUp(records[k := record], id) == if id == record.id then Some(record) else LookUp(records, id)
  {
    var after := records[k := record];
    assert forall i | 0 <= i < |records| :: after[i].id == records[i].id;
    match First(records, id) {
      case None => assert forall i | 0 <= i < |after| :: after[i].id != id;
      case Some(j) => assert after[j].id == id;
    }
  }

  lemma PendingLookUp(records: seq<Record>, id: string)
    requires AllPending(records)
    ensures LookUp(records, id) == None || LookUp(records, id) == Some(Blank(id))
  {}

  lemma InitialInv(files: Files)
    requires Initial(files)
    ensures Inv(files)
  {
    forall scope, id
      ensures Matches(EntryOf(files.evidence.register, scope, id), scope, LookUp(Copies(files.evidence, scope), id))
    {
      PendingLookUp(Copies(files.evidence, scope), id);
    }
  }

  lemma RecordingRegister(files: Files, scope: Scope, r: Report)
    requires RegisterOk(files.evidence) && Accepts(files, scope, r)
    ensures RegisterOk(Recording(files, scope, r).value.evidence)
  {
    var before, after := files.evidence, Recording(files, scope, r).value.evidence;
    var copies := Copies(before, scope);
    var j := First(copies, r.id).value;
    forall s, id ensures Matches(EntryOf(after.register, s, id), s, LookUp(Copies(after, s), id)) {
      assert Matches(EntryOf(before.register, s, id), s, LookUp(Copies(before, s), id));
      if s == scope { FilledLookUp(copies, j, Filled(copies[j], scope, r), id); }
      if Raises(scope, r.status) { UpsertEntries(before.register, EntryFor(scope, r)); }
      else { RemoveEntries(before.register, scope, r.id, s, id); }
    }
  }

  /** Every attempt keeps the invariant, wherever it dies. */
  lemma StepKeeps(files: Files, attempt: Attempt)
    requires Inv(files)
    ensures Inv(Step(files, attempt))
  {
    if Outcome(files, attempt.command).Success? {
      var after := Outcome(files, attempt.command).value;
      OutcomeKeepsBaseline(files, attempt.command);
      RegisterKept(files, attempt.command);
      assert RegisterOk(Torn(files, after, attempt.cut).evidence);
    }
  }

  lemma RegisterKept(files: Files, c: Command)
    requires RegisterOk(files.evidence) && Outcome(files, c).Success?
    ensures RegisterOk(Outcome(files, c).value.evidence)
  {
    if c.RecordStatus? {
      RecordingRegister(files, c.scope, c.report);
    } else {
      OtherCommandsKeep(files, c, VerificationCheck);
      OtherCommandsKeep(files, c, RestoreSurface);
    }
  }

  /** Baseline and attestation change only while activation is unstarted; activating needs both complete. */
  lemma OutcomeKeepsBaseline(files: Files, c: Command)
    requires Outcome(files, c).Success?
    ensures var after := Outcome(files, c).value;
            if c.AttestBaseline? then files.run.activation == Unstarted == after.run.activation
            else
              && after.baseline == files.baseline && after.evidence.attestations == files.evidence.attestations
              && after.evidence.capture == files.evidence.capture
              && (c.RecordStatus? ==>
                    after.run.activation == files.run.activation && after.run.activated == files.run.activated)
              && (c.Activate? ==> after.run.activation == Recorded && Scoped(after.run, files.baseline)
                                  && Complete(files.baseline, files.evidence.attestations))
  {}

  lemma {:induction false} RunKeeps(trace: seq<Files>, attempts: seq<Attempt>, i: nat)
    requires IsRun(trace, attempts) && i < |trace|
    ensures Inv(trace[i])
  {
    if i == 0 {
      InitialInv(trace[0]);
    } else {
      RunKeeps(trace, attempts, i - 1);
      StepKeeps(trace[i - 1], attempts[i - 1]);
    }
  }

  // ------------------------------------------------------------------
  // Theorems over all runs
  // ------------------------------------------------------------------

  function EntriesFor(register: seq<Exception>, scope: Scope, id: string): nat {
    if register == [] then 0
    else EntriesFor(register[1..], scope, id) + if register[0].scope == scope && register[0].id == id then 1 else 0
  }

  lemma {:induction false} EntriesAreCounted(register: seq<Exception>, scope: Scope, id: string)
    requires Distinct(register)
    ensures EntriesFor(register, scope, id) == if EntryOf(register, scope, id).Some? then 1 else 0
  {
    if register != [] {
      var rest := register[1..];
      EntriesAreCounted(rest, scope, id);
      if register[0].scope == scope && register[0].id == id {
        forall j | 0 <= j < |rest| ensures !(rest[j].scope == scope && rest[j].id == id) {
          assert rest[j] == register[j + 1];
        }
      }
    }
  }

  /** At every moment of every run, crashes included, the register holds exactly one entry for each
      record of the evidence file that is blocked or excepted, and none for anything else. */
  lemma RegisterMatchesEvidence(trace: seq<Files>, attempts: seq<Attempt>, i: nat, scope: Scope, id: string)
    requires IsRun(trace, attempts) && i < |trace|
    ensures var evidence := trace[i].evidence; var record := LookUp(Copies(evidence, scope), id);
            && EntriesFor(evidence.register, scope, id)
               == (if record.Some? && Raises(scope, record.value.status) then 1 else 0)
            && (EntryOf(evidence.register, scope, id).Some? ==>
                  record.Some? && SpeaksFor(EntryOf(evidence.register, scope, id).value, record.value))
  {
    RunKeeps(trace, attempts, i);
    EntriesAreCounted(trace[i].evidence.register, scope, id);
    assert Matches(EntryOf(trace[i].evidence.register, scope, id), scope, LookUp(Copies(trace[i].evidence, scope), id));
  }

  lemma StepFreezes(files: Files, attempt: Attempt)
    requires files.run.activation == Recorded
    ensures var next := Step(files, attempt);
            && next.run.activation == Recorded && next.baseline == files.baseline
            && next.evidence.attestations == files.evidence.attestations
            && next.evidence.capture == files.evidence.capture
  {
    if Outcome(files, attempt.command).Success? { OutcomeKeepsBaseline(files, attempt.command); }
  }

  /** A recorded activation has a complete baseline attestation behind it, at every later moment too, and
      covers only surfaces of that baseline. */
  lemma ActivationIsAttested(trace: seq<Files>, attempts: seq<Attempt>, i: nat)
    requires IsRun(trace, attempts) && i < |trace|
    requires trace[i].run.activation == Recorded
    ensures Complete(trace[i].baseline, trace[i].evidence.attestations)
    ensures Scoped(trace[i].run, trace[i].baseline)
  {
    RunKeeps(trace, attempts, i);
  }

  /** Once activation is recorded, no later attempt changes it or the baseline attestation. */
  lemma {:induction false} ActivationFreezesBaseline(trace: seq<Files>, attempts: seq<Attempt>, i: nat, j: nat)
    requires IsRun(trace, attempts) && i <= j < |trace|
    requires trace[i].run.activation == Recorded
    ensures trace[j].run.activation == Recorded
    ensures trace[j].baseline == trace[i].baseline
    ensures trace[j].evidence.attestations == trace[i].evidence.attestations
    ensures trace[j].evidence.capture == trace[i].evidence.capture
  {
    if i < j {
      ActivationFreezesBaseline(trace, attempts, i, j - 1);
      StepFreezes(trace[j - 1], attempts[j - 1]);
    }
  }

  predicate Whole(attempt: Attempt) { 5 <= attempt.cut }

  /** A phase summary repeats what its files show. */
  predicate Shows(phase: Phase, done: bool) {
    phase == Unstarted || (phase == InProgress && !done) || ((phase == Recorded || phase == Captured) && done)
  }

  predicate PhasesShow(files: Files) {
    && Shows(files.run.verification, NonePending(files.verification))
    && Shows(files.run.restore, NonePending(files.restore))
    && Shows(files.run.baseline, Complete(files.baseline, files.evidence.attestations))
    && files.evidence.capture == files.run.baseline
  }

  lemma RecordingShows(files: Files, scope: Scope, r: Report)
    requires PhasesShow(files) && Accepts(files, scope, r)
    ensures PhasesShow(Recording(files, scope, r).value)
  {
  }

  lemma AttestingShows(files: Files, c: Command)
    requires c.AttestBaseline? && PhasesShow(files) && Attesting(files, c).Success?
    ensures PhasesShow(Attesting(files, c).value)
  {
  }

  lemma OutcomeShows(files: Files, c: Command)
    requires PhasesShow(files) && Outcome(files, c).Success?
    ensures PhasesShow(Outcome(files, c).value)
  {
    match c
    case AttestBaseline(_, _, _, _, _) => AttestingShows(files, c);
    case Activate(_, _, _, _) =>
    case RecordStatus(scope, report) => RecordingShows(files, scope, report);
  }

  /** While no command was cut short, the recorded phases tell exactly whether checks, restore
      surfaces and baseline attestation are complete. */
  lemma {:induction false} PhasesTellTheTruth(trace: seq<Files>, attempts: seq<Attempt>, i: nat)
    requires IsRun(trace, attempts) && i < |trace|
    requires forall j | 0 <= j < i :: Whole(attempts[j])
    ensures PhasesShow(trace[i])
  {
    if i > 0 {
      PhasesTellTheTruth(trace, attempts, i - 1);
      var outcome := Outcome(trace[i - 1], attempts[i - 1].command);
      if outcome.Success? { OutcomeShows(trace[i - 1], attempts[i - 1].command); }
    }
  }

  function PhaseOf(run: Run, scope: Scope): Phase {
    match scope case VerificationCheck => run.verification case RestoreSurface => run.restore
  }

  /** Only one ledger, its phase, its copy and the register differ. */
  predicate OneLedgerApart(before: Files, after: Files, scope: Scope) {
    && after.baseline == before.baseline && after.run.baseline == before.run.baseline
    && after.evidence.attestations == before.evidence.attestations
    && after.evidence.capture == before.evidence.capture
    && forall s | s != scope :: Ledger(after, s) == Ledger(before, s) && PhaseOf(after.run, s) == PhaseOf(before.run, s)
  }

  lemma RecordingIsApart(files: Files, scope: Scope, r: Report)
    requires Accepts(files, scope, r)
    ensures var after := Recording(files, scope, r).value;
            OneLedgerApart(files, after, scope) && PhaseOf(after.run, scope) == PhaseFor(Ledger(after, scope))
  {
  }

  lemma TornPhase(before: Files, after: Files, scope: Scope, cut: nat)
    requires OneLedgerApart(before, after, scope) && PhaseOf(after.run, scope) == PhaseFor(Ledger(after, scope))
    requires PhasesShow(before)
    ensures PhasesShow(Torn(before, after, cut)) <==>
              !(1 <= cut < LedgerWrite(scope)
                && NonePending(Ledger(after, scope)) != NonePending(Ledger(before, scope)))
  {
    var other := if scope == VerificationCheck then RestoreSurface else VerificationCheck;
    assert Ledger(after, other) == Ledger(before, other) && PhaseOf(after.run, other) == PhaseOf(before.run, other);
  }

  /** A recording that dies after the run file and before its ledger leaves a false phase exactly when it
      would have settled the last pending record, or reopened a settled ledger. */
  lemma TornRecordingPhase(files: Files, scope: Scope, r: Report, cut: nat)
    requires PhasesShow(files) && Accepts(files, scope, r)
    ensures var after := Recording(files, scope, r).value;
            PhasesShow(Torn(files, after, cut)) <==>
              !(1 <= cut < LedgerWrite(scope)
                && NonePending(Ledger(after, scope)) != NonePending(Ledger(files, scope)))
  {
    RecordingIsApart(files, scope, r);
    TornPhase(files, Recording(files, scope, r).value, scope, cut);
  }

  // ------------------------------------------------------------------
  // Agreement of ledger and evidence copy
  // ------------------------------------------------------------------

  predicate Touches(attempt: Attempt, scope: Scope, id: string) {
    attempt.command.RecordStatus? && attempt.command.scope == scope && attempt.command.report.id == id
  }

  /** The ledger and the evidence copy say the same about an id; neither alone says anything exceptional. */
  predicate Agree(files: Files, scope: Scope, id: string) {
    match (LookUp(Ledger(files, scope), id), LookUp(Copies(files.evidence, scope), id))
    case (Some(a), Some(b)) => a == b
    case (Some(a), None) => !Raises(scope, a.status)
    case (None, Some(b)) => !Raises(scope, b.status)
    case (None, None) => true
  }

  /** A successful recording fills the ledger record and its copy alike, and changes no other record. */
  lemma RecordingLookUp(files: Files, scope: Scope, r: Report, s: Scope, id: string)
    requires Accepts(files, scope, r)
    ensures var after := Recording(files, scope, r).value;
            if s == scope && id == r.id then
              && LookUp(Ledger(after, s), id).Some?
              && LookUp(Ledger(after, s), id) == LookUp(Copies(after.evidence, s), id)
              && LookUp(Ledger(after, s), id).value.status == r.status
            else
              && LookUp(Ledger(after, s), id) == LookUp(Ledger(files, s), id)
              && LookUp(Copies(after.evidence, s), id) == LookUp(Copies(files.evidence, s), id)
  {
    var ledger, copies := Ledger(files, scope), Copies(files.evidence, scope);
    var k, j := First(ledger, r.id).value, First(copies, r.id).value;
    FilledLookUp(ledger, k, Filled(ledger[k], scope, r), id);
    FilledLookUp(copies, j, Filled(copies[j], scope, r), id);
  }

  /** Agreement about an id survives any cut if both files keep their record of it, or if nothing is cut. */
  lemma TornAgrees(before: Files, after: Files, cut: nat, scope: Scope, id: string)
    requires Agree(after, scope, id)
    requires cut < 5 ==>
               && Agree(before, scope, id)
               && LookUp(Ledger(after, scope), id) == LookUp(Ledger(before, scope), id)
    ensures Agree(Torn(before, after, cut), scope, id)
  {}

  lemma OutcomeAgrees(files: Files, c: Command, scope: Scope, id: string)
    requires Outcome(files, c).Success?
    requires !(c.RecordStatus? && c.scope == scope && c.report.id == id) ==> Agree(files, scope, id)
    ensures var after := Outcome(files, c).value;
            && Agree(after, scope, id)
            && (!(c.RecordStatus? && c.scope == scope && c.report.id == id) ==>
                  LookUp(Ledger(after, scope), id) == LookUp(Ledger(files, scope), id))
  {
    if c.RecordStatus? {
      RecordingLookUp(files, c.scope, c.report, scope, id);
    } else {
      OtherCommandsKeep(files, c, scope);
    }
  }

  lemma StepAgrees(files: Files, attempt: Attempt, scope: Scope, id: string)
    requires !Touches(attempt, scope, id) ==> Agree(files, scope, id)
    requires Touches(attempt, scope, id) ==>
               5 <= attempt.cut && (Agree(files, scope, id) || Outcome(files, attempt.command).Success?)
    ensures Agree(Step(files, attempt), scope, id)
  {
    var outcome := Outcome(files, attempt.command);
    if outcome.Success? {
      OutcomeAgrees(files, attempt.command, scope, id);
      TornAgrees(files, outcome.value, attempt.cut, scope, id);
    }
  }

  /** After any history of crashes, one completed command on the id brings ledger and register together. */
  lemma RecordingHeals(trace: seq<Files>, attempts: seq<Attempt>, i: nat, scope: Scope, id: string)
    requires IsRun(trace, attempts) && i < |attempts|
    requires Touches(attempts[i], scope, id) && 5 <= attempts[i].cut
    requires Accepts(trace[i], scope, attempts[i].command.report)
    ensures Agree(trace[i + 1], scope, id)
    ensures LookUp(Ledger(trace[i + 1], scope), id).Some?
    ensures Matches(EntryOf(trace[i + 1].evidence.register, scope, id), scope, LookUp(Ledger(trace[i + 1], scope), id))
  {
    StepAgrees(trace[i], attempts[i], scope, id);
    RunKeeps(trace, attempts, i + 1);
    RecordingLookUp(trace[i], scope, attempts[i].command.report, scope, id);
    var evidence := trace[i + 1].evidence;
    assert Matches(EntryOf(evidence.register, scope, id), scope, LookUp(Copies(evidence, scope), id));
  }

  // ------------------------------------------------------------------
  // Register and ledgers: the exact condition
  // ------------------------------------------------------------------

  /** The write of write_run that makes a ledger durable; the register is in the fifth. */
  function LedgerWrite(scope: Scope): nat {
    if scope == VerificationCheck then 3 else 4
  }

  const EVIDENCE_WRITE: nat := 5

  predicate BetweenWrites(scope: Scope, cut: nat) {
    LedgerWrite(scope) <= cut < EVIDENCE_WRITE
  }

  function StatusOf(records: seq<Record>, id: string): Status {
    match LookUp(records, id) case None => Pending case Some(record) => record.status
  }

  /** The register has exactly one entry for the id if the ledger raises one, and none otherwise. */
  predicate Explained(files: Files, scope: Scope, id: string) {
    EntriesFor(files.evidence.register, scope, id)
    == if Raises(scope, StatusOf(Ledger(files, scope), id)) then 1 else 0
  }

  /** An attempt on this id that the files of the run take. */
  predicate Counts(files: Files, attempt: Attempt, scope: Scope, id: string) {
    Touches(attempt, scope, id) && Accepts(files, scope, attempt.command.report)
  }

  /** What the attempts said last about an id in the files up to the given write. */
  function Said(files: Files, attempts: seq<Attempt>, scope: Scope, id: string, write: nat): Status {
    if attempts == [] then Pending else
    var last := attempts[|attempts| - 1];
    if Counts(files, last, scope, id) && write <= last.cut then last.command.report.status
    else Said(files, attempts[..|attempts| - 1], scope, id, write)
  }

  lemma OutcomeStatus(files: Files, c: Command, scope: Scope, id: string)
    requires Outcome(files, c).Success?
    ensures var after := Outcome(files, c).value;
            if c.RecordStatus? && c.scope == scope && c.report.id == id then
              && Accepts(files, scope, c.report)
              && StatusOf(Ledger(after, scope), id) == c.report.status
              && StatusOf(Copies(after.evidence, scope), id) == c.report.status
            else
              && StatusOf(Ledger(after, scope), id) == StatusOf(Ledger(files, scope), id)
              && StatusOf(Copies(after.evidence, scope), id) == StatusOf(Copies(files.evidence, scope), id)
  {
    if c.RecordStatus? {
      RecordingLookUp(files, c.scope, c.report, scope, id);
    } else {
      OtherCommandsKeep(files, c, scope);
    }
  }

  lemma OtherCommandsKeep(files: Files, c: Command, scope: Scope)
    requires !c.RecordStatus? && Outcome(files, c).Success?
    ensures Ledger(Outcome(files, c).value, scope) == Ledger(files, scope)
    ensures Copies(Outcome(files, c).value.evidence, scope) == Copies(files.evidence, scope)
    ensures Outcome(files, c).value.evidence.register == files.evidence.register
  {
  }

  lemma TornStatus(before: Files, after: Files, cut: nat, scope: Scope, id: string)
    ensures StatusOf(Ledger(Torn(before, after, cut), scope), id)
            == StatusOf(Ledger(if LedgerWrite(scope) <= cut then after else before, scope), id)
    ensures StatusOf(Copies(Torn(before, after, cut).evidence, scope), id)
            == StatusOf(Copies((if EVIDENCE_WRITE <= cut then after else before).evidence, scope), id)
  {
  }

  /** One attempt sets the status in the ledger and in the evidence file exactly when it reaches their writes. */
  lemma StepStatus(files: Files, attempt: Attempt, scope: Scope, id: string)
    ensures var counts := Counts(files, attempt, scope, id);
            && StatusOf(Ledger(Step(files, attempt), scope), id)
               == (if counts && LedgerWrite(scope) <= attempt.cut then attempt.command.report.status
                   else StatusOf(Ledger(files, scope), id))
            && StatusOf(Copies(Step(files, attempt).evidence, scope), id)
               == (if counts && EVIDENCE_WRITE <= attempt.cut then attempt.command.report.status
                   else StatusOf(Copies(files.evidence, scope), id))
  {
    var outcome := Outcome(files, attempt.command);
    if outcome.Success? {
      OutcomeStatus(files, attempt.command, scope, id);
      TornStatus(files, outcome.value, attempt.cut, scope, id);
    }
  }

  /** Whether ledger and evidence file know an id. */
  function Knows(files: Files, scope: Scope, id: string): (bool, bool) {
    (First(Ledger(files, scope), id).Some?, First(Copies(files.evidence, scope), id).Some?)
  }

  lemma OutcomeKnows(files: Files, c: Command, scope: Scope, id: string)
    requires Outcome(files, c).Success?
    ensures Knows(Outcome(files, c).value, scope, id) == Knows(files, scope, id)
  {
    if c.RecordStatus? {
      RecordingLookUp(files, c.scope, c.report, scope, id);
    } else {
      OtherCommandsKeep(files, c, scope);
    }
  }

  lemma TornKnows(before: Files, after: Files, cut: nat, scope: Scope, id: string)
    requires Knows(after, scope, id) == Knows(before, scope, id)
    ensures Knows(Torn(before, after, cut), scope, id) == Knows(before, scope, id)
  {
  }

  /** Which ids the files know never changes. */
  lemma StepKnows(files: Files, attempt: Attempt, scope: Scope, id: string)
    ensures Knows(Step(files, attempt), scope, id) == Knows(files, scope, id)
  {
    var outcome := Outcome(files, attempt.command);
    if outcome.Success? {
      OutcomeKnows(files, attempt.command, scope, id);
      TornKnows(files, outcome.value, attempt.cut, scope, id);
    }
  }

  lemma {:induction false} RunKnows(trace: seq<Files>, attempts: seq<Attempt>, i: nat, scope: Scope, id: string)
    requires IsRun(trace, attempts) && i < |trace|
    ensures Knows(trace[i], scope, id) == Knows(trace[0], scope, id)
  {
    if i > 0 {
      RunKnows(trace, attempts, i - 1, scope, id);
      StepKnows(trace[i - 1], attempts[i - 1], scope, id);
    }
  }

  lemma CountsAlike(files: Files, other: Files, attempt: Attempt, scope: Scope, id: string)
    requires Knows(files, scope, id) == Knows(other, scope, id)
    ensures Counts(files, attempt, scope, id) == Counts(other, attempt, scope, id)
  {
  }

  lemma SaidSnoc(files: Files, attempts: seq<Attempt>, i: nat, scope: Scope, id: string, write: nat)
    requires i < |attempts|
    ensures Said(files, attempts[..i + 1], scope, id, write)
            == if Counts(files, attempts[i], scope, id) && write <= attempts[i].cut
               then attempts[i].command.report.status else Said(files, attempts[..i], scope, id, write)
  {
    assert attempts[..i + 1][..i] == attempts[..i] && attempts[..i + 1][i] == attempts[i];
  }

  /** In every run, ledger and evidence file hold what was said last up to their own writes. */
  lemma {:induction false} RunSays(trace: seq<Files>, attempts: seq<Attempt>, i: nat, scope: Scope, id: string)
    requires IsRun(trace, attempts) && i < |trace|
    ensures StatusOf(Ledger(trace[i], scope), id) == Said(trace[0], attempts[..i], scope, id, LedgerWrite(scope))
    ensures StatusOf(Copies(trace[i].evidence, scope), id) == Said(trace[0], attempts[..i], scope, id, EVIDENCE_WRITE)
  {
    if i == 0 {
      PendingLookUp(Ledger(trace[0], scope), id);
      PendingLookUp(Copies(trace[0].evidence, scope), id);
    } else {
      RunSays(trace, attempts, i - 1, scope, id);
      RunKnows(trace, attempts, i - 1, scope, id);
      CountsAlike(trace[i - 1], trace[0], attempts[i - 1], scope, id);
      StepStatus(trace[i - 1], attempts[i - 1], scope, id);
      SaidSnoc(trace[0], attempts, i - 1, scope, id, LedgerWrite(scope));
      SaidSnoc(trace[0], attempts, i - 1, scope, id, EVIDENCE_WRITE);
    }
  }

  lemma RegisterFollowsEvidence(files: Files, scope: Scope, id: string)
    requires RegisterOk(files.evidence)
    ensures EntriesFor(files.evidence.register, scope, id)
            == if Raises(scope, StatusOf(Copies(files.evidence, scope), id)) then 1 else 0
  {
    EntriesAreCounted(files.evidence.register, scope, id);
    assert Matches(EntryOf(files.evidence.register, scope, id), scope, LookUp(Copies(files.evidence, scope), id));
  }

  /** In every run, crashes included: the register has exactly the entry that the ledger calls for if and
      only if the last command whose ledger write happened and the last one that completed agree on
      whether the id is exceptional. */
  lemma RegisterMatchesLedger(trace: seq<Files>, attempts: seq<Attempt>, i: nat, scope: Scope, id: string)
    requires IsRun(trace, attempts) && i < |trace|
    ensures Explained(trace[i], scope, id) <==>
              (Raises(scope, Said(trace[0], attempts[..i], scope, id, LedgerWrite(scope)))
               <==> Raises(scope, Said(trace[0], attempts[..i], scope, id, EVIDENCE_WRITE)))
  {
    RunSays(trace, attempts, i, scope, id);
    RunKeeps(trace, attempts, i);
    RegisterFollowsEvidence(trace[i], scope, id);
  }

  lemma {:induction false} SaidWhole(files: Files, attempts: seq<Attempt>, scope: Scope, id: string)
    requires forall j | 0 <= j < |attempts| ::
               Touches(attempts[j], scope, id) ==> !BetweenWrites(scope, attempts[j].cut)
    ensures Said(files, attempts, scope, id, LedgerWrite(scope)) == Said(files, attempts, scope, id, EVIDENCE_WRITE)
  {
    if attempts != [] { SaidWhole(files, attempts[..|attempts| - 1], scope, id); }
  }

  /** In particular while no command on the id dies between its ledger write and its evidence write. */
  lemma UntornRunsMatch(trace: seq<Files>, attempts: seq<Attempt>, i: nat, scope: Scope, id: string)
    requires IsRun(trace, attempts) && i < |trace|
    requires forall j | 0 <= j < i :: Touches(attempts[j], scope, id) ==> !BetweenWrites(scope, attempts[j].cut)
    ensures Explained(trace[i], scope, id)
  {
    SaidWhole(trace[0], attempts[..i], scope, id);
    RegisterMatchesLedger(trace, attempts, i, scope, id);
  }

  /** One command on files where register and ledger match breaks the match exactly when it dies between
      the two writes and changes whether the id is exceptional: a new exception is then missing its entry,
      an ended one keeps it. */
  lemma TornRecordingMismatches(files: Files, attempt: Attempt, scope: Scope, id: string)
    requires Inv(files) && Explained(files, scope, id) && Counts(files, attempt, scope, id)
    ensures Explained(Step(files, attempt), scope, id) <==>
              !(BetweenWrites(scope, attempt.cut)
                && Raises(scope, attempt.command.report.status) != Raises(scope, StatusOf(Ledger(files, scope), id)))
  {
    StepStatus(files, attempt, scope, id);
    StepKeeps(files, attempt);
    RegisterFollowsEvidence(files, scope, id);
    RegisterFollowsEvidence(Step(files, attempt), scope, id);
  }

  // ------------------------------------------------------------------
  // The commands over the files
  // ------------------------------------------------------------------

  class Drill {
    var run: Run
    var baseline: seq<Record>
    var verification: seq<Record>
    var restore: seq<Record>
    var evidence: Evidence

    function Contents(): Files
      reads this
    {
      Files(run, baseline, verification, restore, evidence)
    }

    ghost predicate Valid()
      reads this
    {
      Inv(Contents())
    }

    constructor (files: Files)
      requires Initial(files)
      ensures Valid() && Contents() == files
    {
      run, baseline, verification := files.run, files.baseline, files.verification;
      restore, evidence := files.restore, files.evidence;
      InitialInv(files);
    }

    /** write_run: the five files in a fixed order; the process may die after any of them. */
    method WriteRun(after: Files) returns (cut: nat)
      modifies this
      ensures cut <= 5 && Contents() == Torn(old(Contents()), after, cut)
    {
      if * { return 0; }
      run := after.run;
      if * { return 1; }
      baseline := after.baseline;
      if * { return 2; }
      verification := after.verification;
      if * { return 3; }
      restore := after.restore;
      if * { return 4; }
      evidence := after.evidence;
      return 5;
    }

    method AttestSurface(surface: string, actor: string, evidenceRef: string, note: string, at: string)
      returns (denied: Option<Denial>, cut: nat)
      requires Valid()
      modifies this
      ensures Valid()
      ensures match Outcome(old(Contents()), AttestBaseline(surface, actor, evidenceRef, note, at))
              case Failure(why) => denied == Some(why) && Contents() == old(Contents())
              case Success(after) => denied == None && Contents() == Torn(old(Contents()), after, cut)
    {
      ghost var command := AttestBaseline(surface, actor, evidenceRef, note, at);
      denied, cut := None, 0;
      if run.activation != Unstarted { return Some(AfterActivation), 0; }
      if Strip(actor) == "" { return Some(BlankActor), 0; }
      var target := First(baseline, surface);
      if target.None? { return Some(UnknownId), 0; }
      if Strip(evidenceRef) == "" { return Some(BlankReference), 0; }
      var surfaces := baseline;
      surfaces := surfaces[target.value :=
        Attest(surfaces[target.value], Strip(evidenceRef), Strip(note), at, Strip(actor))];
      var attestations := evidence.attestations;
      var copy := First(attestations, surface);
      if copy.None? { return Some(MissingEvidence), 0; }
      attestations := attestations[copy.value :=
        Attest(attestations[copy.value], Strip(evidenceRef), Strip(note), at, Strip(actor))];
      var phase := InProgress;
      if Complete(surfaces, attestations) { phase := Captured; }
      ghost var before := Contents();
      var after := Contents().(run := run.(baseline := phase), baseline := surfaces,
                          evidence := evidence.(attestations := attestations, capture := phase));
      cut := WriteRun(after);
      StepKeeps(before, Attempt(command, cut));
    }

    method RecordActivation(actor: string, surfaces: seq<string>, note: string, at: string)
      returns (denied: Option<Denial>, cut: nat)
      requires Valid()
      modifies this
      ensures Valid()
      ensures match Outcome(old(Contents()), Activate(actor, surfaces, note, at))
              case Failure(why) => denied == Some(why) && Contents() == old(Contents())
              case Success(after) => denied == None && Contents() == Torn(old(Contents()), after, cut)
    {
      ghost var command := Activate(actor, surfaces, note, at);
      denied, cut := None, 0;
      if Strip(actor) == "" { return Some(BlankActor), 0; }
      if run.baseline != Captured || evidence.capture != Captured || !Complete(baseline, evidence.attestations) {
        return Some(NotAttested), 0;
      }
      var known := KnownSurfaces(baseline);
      var scoped := if surfaces == [] then known else surfaces;
      if !Subset(scoped, known) { return Some(UnknownSurfaces), 0; }
      var activation := Activation(Strip(actor), scoped, Strip(note), at);
      ghost var before := Contents();
      var after := Contents().(run := run.(activation := Recorded, activated := Some(activation)),
                          evidence := evidence.(activations := evidence.activations + [activation]));
      cut := WriteRun(after);
      StepKeeps(before, Attempt(command, cut));
    }

    method RecordVerification(r: Report) returns (denied: Option<Denial>, cut: nat)
      requires Valid()
      modifies this
      ensures Valid()
      ensures match Outcome(old(Contents()), RecordStatus(VerificationCheck, r))
              case Failure(why) => denied == Some(why) && Contents() == old(Contents())
              case Success(after) => denied == None && Contents() == Torn(old(Contents()), after, cut)
    {
      denied, cut := None, 0;
      var checks, target := verification, First(verification, r.id);
      if target.None? { return Some(UnknownId), 0; }
      if r.status == Blocked && FieldsMissing(r) { return Some(MissingField), 0; }
      checks := checks[target.value := Filled(checks[target.value], VerificationCheck, r)];
      var copies, copy := evidence.checks, First(evidence.checks, r.id);
      if copy.None? { return Some(MissingEvidence), 0; }
      copies := copies[copy.value := Filled(copies[copy.value], VerificationCheck, r)];
      var register := evidence.register;
      if r.status == Blocked { register := Upsert(register, EntryFor(VerificationCheck, r)); }
      else { register := Remove(register, VerificationCheck, r.id); }
      ghost var before := Contents();
      var after := Contents().(run := run.(verification := PhaseFor(checks)), verification := checks,
                          evidence := evidence.(register := register, checks := copies));
      cut := WriteRun(after);
      StepKeeps(before, Attempt(RecordStatus(VerificationCheck, r), cut));
    }

    method RecordRestore(r: Report) returns (denied: Option<Denial>, cut: nat)
      requires Valid()
      modifies this
      ensures Valid()
      ensures match Outcome(old(Contents()), RecordStatus(RestoreSurface, r))
              case Failure(why) => denied == Some(why) && Contents() == old(Contents())
              case Success(after) => denied == None && Contents() == Torn(old(Contents()), after, cut)
    {
      denied, cut := None, 0;
      var surfaces, target := restore, First(restore, r.id);
      if target.None? { return Some(UnknownId), 0; }
      if r.status == Excepted && FieldsMissing(r) { return Some(MissingField), 0; }
      surfaces := surfaces[target.value := Filled(surfaces[target.value], RestoreSurface, r)];
      var copies, copy := evidence.surfaces, First(evidence.surfaces, r.id);
      if copy.None? { return Some(MissingEvidence), 0; }
      copies := copies[copy.value := Filled(copies[copy.value], RestoreSurface, r)];
      var register := evidence.register;
      if r.status == Excepted { register := Upsert(register, EntryFor(RestoreSurface, r)); }
      else { register := Remove(register, RestoreSurface, r.id); }
      ghost var before := Contents();
      var after := Contents().(run := run.(restore := PhaseFor(surfaces)), restore := surfaces,
                          evidence := evidence.(register := register, surfaces := copies));
      cut := WriteRun(after);
      StepKeeps(before, Attempt(RecordStatus(RestoreSurface, r), cut));
    }
  }
}
