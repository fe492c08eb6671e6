/**
 contract_from_record_snapshot: which repositories the Workspace inventory admits as credential
 targets, given the Intake register and the legacy repositories of the contract.
 */
module RepositoryAdmission {
  import opened Wrappers

  datatype Repository = Repository(fullName: string, id: int)

  /** A provider_repository mapping; keyed says that it has exactly the three expected keys. */
  datatype Binding = Binding(keyed: bool, provider: string, id: int, fullName: string)

  datatype Lineage = Lineage(source: string, sourceRef: string, digestOk: bool, version: int)

  datatype Entry = Entry(
    binding: Option<Binding>, lifecycle: string, posture: string, recordId: string, lineage: Lineage)

  /** An entry of the inventory, in document order: the repos section, then retired_repos. */
  datatype Row = Row(name: string, retired: bool, entry: Entry)

  /** Names in the Intake register with the binding each may carry. */
  type Intake = map<string, Option<Binding>>

  function LowerChar(c: char): char {
    if 'A' <= c <= 'Z' then (c as int - 'A' as int + 'a' as int) as char else c
  }

  /** casefold of an ASCII name. */
  function Fold(s: string): (r: string)
    ensures |r| == |s|
  {
    if s == [] then [] else [LowerChar(s[0])] + Fold(s[1..])
  }

  predicate AlphaNumeric(c: char) { 'a' <= c <= 'z' || 'A' <= c <= 'Z' || '0' <= c <= '9' }

  /** owner/name: an owner of letters, digits and hyphens, a name that also takes dots and underscores. */
  predicate IsFullName(s: string) {
    exists k | 0 < k < |s| - 1 ::
      && s[k] == '/' && AlphaNumeric(s[0])
      && (forall i | 0 <= i < k :: AlphaNumeric(s[i]) || s[i] == '-')
      && (forall i | k < i < |s| :: AlphaNumeric(s[i]) || s[i] == '.' || s[i] == '_' || s[i] == '-')
  }

  predicate BindingOk(b: Binding) {
    b.keyed && b.provider == "github" && 1 <= b.id && IsFullName(b.fullName)
  }

  datatype Resolution = Skip | Bad | Claim(repository: Repository)

  /** The repository a row stands for: its own binding, or the legacy repository of its name. */
  function Resolve(legacy: map<string, Repository>, row: Row): Resolution {
    match row.entry.binding
    case None => if row.name in legacy then Claim(legacy[row.name]) else Skip
    case Some(b) =>
      if !BindingOk(b) || (row.name in legacy && b.id != legacy[row.name].id) then Bad
      else Claim(Repository(b.fullName, b.id))
  }

  predicate IsActive(row: Row) {
    !row.retired && row.entry.lifecycle == "active" && row.entry.posture == "active"
  }

  /** Canonical promotion lineage: the entry left Intake and kept its accepted classification. */
  predicate Promoted(intake: Intake, row: Row) {
    && row.entry.binding.Some?
    && row.name !in intake
    && row.entry.recordId == "repo:" + row.name
    && row.entry.lineage.source == "workspace-intake"
    && row.entry.lineage.sourceRef == "repo:" + row.name
    && row.entry.lineage.digestOk
    && 1 <= row.entry.lineage.version
  }

  predicate RowOk(intake: Intake, legacy: map<string, Repository>, row: Row) {
    && !Resolve(legacy, row).Bad?
    && (Resolve(legacy, row).Claim? && IsActive(row) && row.name !in legacy ==> Promoted(intake, row))
  }

  /** Every repository that some row stands for, in document order. */
  function Claims(legacy: map<string, Repository>, rows: seq<Row>): seq<Repository> {
    if rows == [] then [] else
    var before := Claims(legacy, rows[..|rows| - 1]);
    match Resolve(legacy, rows[|rows| - 1])
    case Claim(repository) => before + [repository]
    case _ => before
  }

  /** The admitted ones: those of active rows. */
  function Admitted(legacy: map<string, Repository>, rows: seq<Row>): seq<Repository> {
    if rows == [] then [] else
    var before, last := Admitted(legacy, rows[..|rows| - 1]), rows[|rows| - 1];
    match Resolve(legacy, last)
    case Claim(repository) => if IsActive(last) then before + [repository] else before
    case _ => before
  }

  function IntakeIds(intake: Intake): set<int> {
    set name | name in intake && intake[name].Some? :: intake[name].value.id
  }

  function IntakeNames(intake: Intake): set<string> {
    set name | name in intake && intake[name].Some? :: Fold(intake[name].value.fullName)
  }

  function Ids(repositories: seq<Repository>): set<int> {
    set r | r in repositories :: r.id
  }

  function Names(repositories: seq<Repository>): set<string> {
    set r | r in repositories :: Fold(r.fullName)
  }

  predicate Apart(a: Repository, b: Repository) {
    a.id != b.id && Fold(a.fullName) != Fold(b.fullName)
  }

  predicate PairwiseApart(repositories: seq<Repository>) {
    forall i, j | 0 <= i < j < |repositories| :: Apart(repositories[i], repositories[j])
  }

  predicate OutsideIntake(intake: Intake, repositories: seq<Repository>) {
    forall i | 0 <= i < |repositories| ::
      repositories[i].id !in IntakeIds(intake) && Fold(repositories[i].fullName) !in IntakeNames(intake)
  }

  /** Exactly the inventories that are admitted. */
  predicate Admissible(intake: Intake, legacy: map<string, Repository>, rows: seq<Row>) {
    && (forall i | 0 <= i < |rows| :: RowOk(intake, legacy, rows[i]))
    && PairwiseApart(Claims(legacy, rows))
    && OutsideIntake(intake, Claims(legacy, rows))
  }

  lemma {:induction false} ClaimsPrefix(legacy: map<string, Repository>, rows: seq<Row>, k: nat)
    requires k <= |rows|
    ensures Claims(legacy, rows[..k]) <= Claims(legacy, rows)
    decreases |rows|
  {
    if k == |rows| {
      assert rows[..k] == rows;
    } else {
      assert rows[..|rows| - 1][..k] == rows[..k];
      ClaimsPrefix(legacy, rows[..|rows| - 1], k);
    }
  }

  lemma AdmissiblePrefix(intake: Intake, legacy: map<string, Repository>, rows: seq<Row>, k: nat)
    requires k <= |rows| && Admissible(intake, legacy, rows)
    ensures Admissible(intake, legacy, rows[..k])
  {
    ClaimsPrefix(legacy, rows, k);
    var all, some := Claims(legacy, rows), Claims(legacy, rows[..k]);
    assert forall i | 0 <= i < |some| :: some[i] == all[i];
  }

  /** The claims after one more row. */
  function Extended(claimed: seq<Repository>, resolution: Resolution): seq<Repository> {
    if resolution.Claim? then claimed + [resolution.repository] else claimed
  }

  /** One more row is admissible exactly when it is sound and its claim collides with nothing before it. */
  lemma AdmissibleStep(intake: Intake, legacy: map<string, Repository>, rows: seq<Row>, i: nat)
    requires i < |rows|
    ensures var next := Extended(Claims(legacy, rows[..i]), Resolve(legacy, rows[i]));
            && Claims(legacy, rows[..i + 1]) == next
            && (Admissible(intake, legacy, rows[..i + 1]) ==>
                  RowOk(intake, legacy, rows[i]) && PairwiseApart(next) && OutsideIntake(intake, next))
            && (Admissible(intake, legacy, rows[..i]) && RowOk(intake, legacy, rows[i])
                && PairwiseApart(next) && OutsideIntake(intake, next) ==>
                  Admissible(intake, legacy, rows[..i + 1]))
  {
    var upTo := rows[..i + 1];
    assert upTo[..i] == rows[..i] && upTo[i] == rows[i];
  }

  /** contract_from_record_snapshot: the sets of taken ids and names grow row by row; the result is the
      active repositories of an admissible inventory, and every other inventory is refused. */
  method Admit(intake: Intake, legacy: map<string, Repository>, rows: seq<Row>)
    returns (repositories: seq<Repository>, ok: bool)
    ensures ok <==> Admissible(intake, legacy, rows)
    ensures ok ==> repositories == Admitted(legacy, rows)
  {
    var physicalIds, coordinates := IntakeIds(intake), IntakeNames(intake);
    repositories := [];
    ghost var claimed: seq<Repository> := [];
    for i := 0 to |rows|
      invariant Admissible(intake, legacy, rows[..i])
      invariant claimed == Claims(legacy, rows[..i]) && repositories == Admitted(legacy, rows[..i])
      invariant physicalIds == IntakeIds(intake) + Ids(claimed)
      invariant coordinates == IntakeNames(intake) + Names(claimed)
    {
      var row := rows[i];
      assert rows[..i + 1][..i] == rows[..i] && rows[..i + 1][i] == row;
      AdmissibleStep(intake, legacy, rows, i);
      if Admissible(intake, legacy, rows) { AdmissiblePrefix(intake, legacy, rows, i + 1); }
      var resolution := Resolve(legacy, row);
      match resolution {
        case Skip =>
        case Bad => return [], false;
        case Claim(repository) =>
          var folded := Fold(repository.fullName);
          if repository.id in physicalIds || folded in coordinates {
            TakenIsClash(intake, claimed, repository);
            return [], false;
          }
          physicalIds, coordinates := physicalIds + {repository.id}, coordinates + {folded};
          NextIsApart(intake, claimed, repository);
          claimed := claimed + [repository];
          if IsActive(row) {
            if row.name !in legacy && !Promoted(intake, row) { return [], false; }
            repositories := repositories + [repository];
          }
      }
    }
    assert rows[..|rows|] == rows;
    ok := true;
  }

  lemma TakenIsClash(intake: Intake, claimed: seq<Repository>, next: Repository)
    requires next.id in IntakeIds(intake) + Ids(claimed)
             || Fold(next.fullName) in IntakeNames(intake) + Names(claimed)
    ensures !(PairwiseApart(claimed + [next]) && OutsideIntake(intake, claimed + [next]))
  {
    var all := claimed + [next];
    assert all[|claimed|] == next;
    if next.id in Ids(claimed) || Fold(next.fullName) in Names(claimed) {
      var r :| r in claimed && !Apart(r, next);
      var j :| 0 <= j < |claimed| && claimed[j] == r;
      assert !Apart(all[j], all[|claimed|]);
    }
  }

  lemma NextIsApart(intake: Intake, claimed: seq<Repository>, next: Repository)
    requires PairwiseApart(claimed) && OutsideIntake(intake, claimed)
    requires next.id !in IntakeIds(intake) + Ids(claimed)
    requires Fold(next.fullName) !in IntakeNames(intake) + Names(claimed)
    ensures PairwiseApart(claimed + [next]) && OutsideIntake(intake, claimed + [next])
    ensures Ids(claimed + [next]) == Ids(claimed) + {next.id}
    ensures Names(claimed + [next]) == Names(claimed) + {Fold(next.fullName)}
  {
    assert forall r :: r in claimed + [next] <==> r in claimed || r == next;
    assert next in claimed + [next];
    forall j | 0 <= j < |claimed| ensures Apart(claimed[j], next) {
      assert claimed[j] in claimed;
    }
  }

  // ------------------------------------------------------------------
  // What admission promises
  // ------------------------------------------------------------------

  /** An admitted repository comes from an active row, and stands among the claims at its own place. */
  lemma {:induction false} AdmittedHasRow(legacy: map<string, Repository>, rows: seq<Row>, i: nat)
    returns (row: nat, place: nat)
    requires i < |Admitted(legacy, rows)|
    ensures row < |rows| && IsActive(rows[row])
    ensures Resolve(legacy, rows[row]) == Claim(Admitted(legacy, rows)[i])
    ensures place < |Claims(legacy, rows)| && place == |Claims(legacy, rows[..row])|
    ensures Claims(legacy, rows)[place] == Admitted(legacy, rows)[i]
  {
    var last := |rows| - 1;
    if i < |Admitted(legacy, rows[..last])| {
      row, place := AdmittedHasRow(legacy, rows[..last], i);
      assert rows[..last][..row] == rows[..row];
    } else {
      row, place := last, |Claims(legacy, rows[..last])|;
    }
  }

  /** Later admitted repositories come from later rows. */
  lemma {:induction false} AdmittedInOrder(legacy: map<string, Repository>, rows: seq<Row>, i: nat, j: nat)
    returns (p: nat, q: nat)
    requires i < j < |Admitted(legacy, rows)|
    ensures p < q < |Claims(legacy, rows)|
    ensures Claims(legacy, rows)[p] == Admitted(legacy, rows)[i]
    ensures Claims(legacy, rows)[q] == Admitted(legacy, rows)[j]
  {
    var last := |rows| - 1;
    if j < |Admitted(legacy, rows[..last])| {
      p, q := AdmittedInOrder(legacy, rows[..last], i, j);
    } else {
      var row, place := AdmittedHasRow(legacy, rows[..last], i);
      p, q := place, |Claims(legacy, rows[..last])|;
    }
  }

  /** Admitted repositories differ pairwise in numeric id and in case-folded name. */
  lemma AdmittedAreDistinct(intake: Intake, legacy: map<string, Repository>, rows: seq<Row>)
    requires Admissible(intake, legacy, rows)
    ensures PairwiseApart(Admitted(legacy, rows)) && OutsideIntake(intake, Admitted(legacy, rows))
  {
    var admitted := Admitted(legacy, rows);
    forall i, j | 0 <= i < j < |admitted| ensures Apart(admitted[i], admitted[j]) {
      var p, q := AdmittedInOrder(legacy, rows, i, j);
    }
    forall i | 0 <= i < |admitted|
      ensures admitted[i].id !in IntakeIds(intake) && Fold(admitted[i].fullName) !in IntakeNames(intake)
    {
      var row, place := AdmittedHasRow(legacy, rows, i);
    }
  }

  /** No admitted repository shares its id or folded name with a retired or inactive row. */
  lemma AdmittedAvoidsRetired(intake: Intake, legacy: map<string, Repository>, rows: seq<Row>, i: nat, k: nat)
    requires Admissible(intake, legacy, rows)
    requires i < |Admitted(legacy, rows)|
    requires k < |rows| && !IsActive(rows[k]) && Resolve(legacy, rows[k]).Claim?
    ensures Apart(Admitted(legacy, rows)[i], Resolve(legacy, rows[k]).repository)
  {
    var row, place := AdmittedHasRow(legacy, rows, i);
    var taken := |Claims(legacy, rows[..k])|;
    ClaimStands(legacy, rows, k);
    if row < k {
      StrictlyLater(legacy, rows, row, k);
    } else {
      StrictlyLater(legacy, rows, k, row);
    }
  }

  lemma ClaimStands(legacy: map<string, Repository>, rows: seq<Row>, k: nat)
    requires k < |rows| && Resolve(legacy, rows[k]).Claim?
    ensures var taken := |Claims(legacy, rows[..k])|;
            taken < |Claims(legacy, rows)| && Claims(legacy, rows)[taken] == Resolve(legacy, rows[k]).repository
  {
    ClaimsPrefix(legacy, rows, k + 1);
    assert rows[..k + 1][..k] == rows[..k];
    var upTo, all := Claims(legacy, rows[..k + 1]), Claims(legacy, rows);
    assert all[|upTo| - 1] == upTo[|upTo| - 1];
  }

  lemma StrictlyLater(legacy: map<string, Repository>, rows: seq<Row>, a: nat, b: nat)
    requires a < b < |rows| && Resolve(legacy, rows[a]).Claim?
    ensures |Claims(legacy, rows[..a])| < |Claims(legacy, rows[..b])|
  {
    assert rows[..b][..a] == rows[..a];
    ClaimStands(legacy, rows[..b], a);
  }

  /** Each admitted repository is a legacy identity with its id unchanged, or was promoted from Intake. */
  lemma AdmittedHasProvenance(intake: Intake, legacy: map<string, Repository>, rows: seq<Row>, i: nat)
    returns (row: nat)
    requires Admissible(intake, legacy, rows)
    requires i < |Admitted(legacy, rows)|
    ensures row < |rows| && IsActive(rows[row])
    ensures var name, repository := rows[row].name, Admitted(legacy, rows)[i];
            if name in legacy then repository.id == legacy[name].id
            else
              && Promoted(intake, rows[row])
              && var binding := rows[row].entry.binding.value;
                 repository == Repository(binding.fullName, binding.id)
  {
    var place;
    row, place := AdmittedHasRow(legacy, rows, i);
    assert RowOk(intake, legacy, rows[row]);
  }

  // ------------------------------------------------------------------
  // The same, without the functions above
  // ------------------------------------------------------------------

  /** The same letter, in either case; any other character as it is. */
  predicate SameLetter(c: char, d: char) {
    || c == d
    || ('A' <= c <= 'Z' && d as int == c as int + 32)
    || ('A' <= d <= 'Z' && c as int == d as int + 32)
  }

  predicate SameButCase(s: string, t: string) {
    |s| == |t| && forall i | 0 <= i < |s| :: SameLetter(s[i], t[i])
  }

  /** Folding identifies exactly the names that differ in case only. */
  lemma {:induction false} FoldMeans(s: string, t: string)
    ensures Fold(s) == Fold(t) <==> SameButCase(s, t)
  {
    if s != [] && t != [] {
      FoldMeans(s[1..], t[1..]);
      assert Fold(s)[0] == LowerChar(s[0]) && Fold(s)[1..] == Fold(s[1..]);
      assert Fold(t)[0] == LowerChar(t[0]) && Fold(t)[1..] == Fold(t[1..]);
      assert LowerChar(s[0]) == LowerChar(t[0]) <==> SameLetter(s[0], t[0]);
      assert Fold(s) == Fold(t) <==> LowerChar(s[0]) == LowerChar(t[0]) && Fold(s[1..]) == Fold(t[1..]);
      if SameButCase(s, t) {
        assert forall i | 0 <= i < |s[1..]| :: s[1..][i] == s[i + 1] && t[1..][i] == t[i + 1];
      }
      if SameButCase(s[1..], t[1..]) && SameLetter(s[0], t[0]) {
        forall i | 0 <= i < |s| ensures SameLetter(s[i], t[i]) {
          assert i == 0 || (s[i] == s[1..][i - 1] && t[i] == t[1..][i - 1]);
        }
      }
    }
  }

  /** A row with a sound binding of its own; or without one, but with a legacy repository of its name. */
  predicate Stands(legacy: map<string, Repository>, row: Row) {
    row.entry.binding.Some? || row.name in legacy
  }

  /** What identifies the repository a row stands for. */
  function IdOf(legacy: map<string, Repository>, row: Row): int
    requires Stands(legacy, row)
  {
    if row.entry.binding.Some? then row.entry.binding.value.id else legacy[row.name].id
  }

  function NameOf(legacy: map<string, Repository>, row: Row): string
    requires Stands(legacy, row)
  {
    if row.entry.binding.Some? then row.entry.binding.value.fullName else legacy[row.name].fullName
  }

  /** A sound binding has the three keys, the one provider, a positive id and a full name, and replaces no legacy
      id. */
  predicate Sound(legacy: map<string, Repository>, row: Row) {
    row.entry.binding.Some? ==>
      var b := row.entry.binding.value;
      && b.keyed && b.provider == "github" && b.id >= 1 && IsFullName(b.fullName)
      && (row.name in legacy ==> b.id == legacy[row.name].id)
  }

  /** An active row that no legacy repository stands behind was promoted from Intake: it is no longer in it, and
      its record and lineage name it. */
  predicate Warranted(intake: Intake, legacy: map<string, Repository>, row: Row) {
    !row.retired && row.entry.lifecycle == "active" && row.entry.posture == "active" && row.entry.binding.Some?
    && row.name !in legacy ==>
      && row.name !in intake
      && row.entry.recordId == "repo:" + row.name && row.entry.lineage.sourceRef == "repo:" + row.name
      && row.entry.lineage.source == "workspace-intake" && row.entry.lineage.digestOk
      && row.entry.lineage.version >= 1
  }

  /** No two rows stand for the same id, or for names that differ in case only. */
  predicate RowsApart(legacy: map<string, Repository>, rows: seq<Row>) {
    forall i, j | 0 <= i < j < |rows| && Stands(legacy, rows[i]) && Stands(legacy, rows[j]) ::
      && IdOf(legacy, rows[i]) != IdOf(legacy, rows[j])
      && !SameButCase(NameOf(legacy, rows[i]), NameOf(legacy, rows[j]))
  }

  /** No row stands for an id or name that a binding in the Intake register has. */
  predicate RowsOutside(intake: Intake, legacy: map<string, Repository>, rows: seq<Row>) {
    forall i, name | 0 <= i < |rows| && Stands(legacy, rows[i]) && name in intake && intake[name].Some? ::
      && IdOf(legacy, rows[i]) != intake[name].value.id
      && !SameButCase(NameOf(legacy, rows[i]), intake[name].value.fullName)
  }

  lemma ResolveMeans(legacy: map<string, Repository>, row: Row)
    ensures Resolve(legacy, row).Bad? <==> !Sound(legacy, row)
    ensures Resolve(legacy, row).Skip? <==> !Stands(legacy, row)
    ensures Sound(legacy, row) && Stands(legacy, row) ==>
              Resolve(legacy, row) == Claim(Repository(NameOf(legacy, row), IdOf(legacy, row)))
  {
  }

  /** Every claim is some row's. */
  lemma {:induction false} ClaimHasRow(legacy: map<string, Repository>, rows: seq<Row>, place: nat) returns (row: nat)
    requires place < |Claims(legacy, rows)|
    ensures row < |rows| && Resolve(legacy, rows[row]) == Claim(Claims(legacy, rows)[place])
    ensures place == |Claims(legacy, rows[..row])|
  {
    var last := |rows| - 1;
    if place < |Claims(legacy, rows[..last])| {
      row := ClaimHasRow(legacy, rows[..last], place);
      assert rows[..last][..row] == rows[..row];
    } else {
      row := last;
    }
  }

  lemma ApartMeans(a: Repository, b: Repository)
    ensures Apart(a, b) <==> a.id != b.id && !SameButCase(a.fullName, b.fullName)
  {
    FoldMeans(a.fullName, b.fullName);
  }

  lemma RowsApartMeans(legacy: map<string, Repository>, rows: seq<Row>)
    requires forall i | 0 <= i < |rows| :: Sound(legacy, rows[i])
    ensures PairwiseApart(Claims(legacy, rows)) <==> RowsApart(legacy, rows)
  {
    var claims := Claims(legacy, rows);
    if PairwiseApart(claims) {
      forall i, j | 0 <= i < j < |rows| && Stands(legacy, rows[i]) && Stands(legacy, rows[j])
        ensures IdOf(legacy, rows[i]) != IdOf(legacy, rows[j])
        ensures !SameButCase(NameOf(legacy, rows[i]), NameOf(legacy, rows[j]))
      {
        ResolveMeans(legacy, rows[i]);
        ResolveMeans(legacy, rows[j]);
        ClaimStands(legacy, rows, i);
        ClaimStands(legacy, rows, j);
        StrictlyLater(legacy, rows, i, j);
        ApartMeans(Resolve(legacy, rows[i]).repository, Resolve(legacy, rows[j]).repository);
      }
    }
    if RowsApart(legacy, rows) {
      forall p, q | 0 <= p < q < |claims| ensures Apart(claims[p], claims[q]) {
        var i := ClaimHasRow(legacy, rows, p);
        var j := ClaimHasRow(legacy, rows, q);
        ClaimsGrow(legacy, rows, i, j);
        ResolveMeans(legacy, rows[i]);
        ResolveMeans(legacy, rows[j]);
        ApartMeans(claims[p], claims[q]);
      }
    }
  }

  lemma ClaimsGrow(legacy: map<string, Repository>, rows: seq<Row>, i: nat, j: nat)
    requires i < |rows| && j < |rows| && |Claims(legacy, rows[..i])| < |Claims(legacy, rows[..j])|
    ensures i < j
  {
    if j <= i {
      assert rows[..i][..j] == rows[..j];
      ClaimsPrefix(legacy, rows[..i], j);
    }
  }

  lemma RowsOutsideMean(intake: Intake, legacy: map<string, Repository>, rows: seq<Row>)
    requires forall i | 0 <= i < |rows| :: Sound(legacy, rows[i])
    ensures OutsideIntake(intake, Claims(legacy, rows)) <==> RowsOutside(intake, legacy, rows)
  {
    var claims := Claims(legacy, rows);
    if OutsideIntake(intake, claims) {
      forall i, name | 0 <= i < |rows| && Stands(legacy, rows[i]) && name in intake && intake[name].Some?
        ensures IdOf(legacy, rows[i]) != intake[name].value.id
        ensures !SameButCase(NameOf(legacy, rows[i]), intake[name].value.fullName)
      {
        ResolveMeans(legacy, rows[i]);
        ClaimStands(legacy, rows, i);
        FoldMeans(NameOf(legacy, rows[i]), intake[name].value.fullName);
      }
    }
    if RowsOutside(intake, legacy, rows) {
      forall p | 0 <= p < |claims|
        ensures claims[p].id !in IntakeIds(intake) && Fold(claims[p].fullName) !in IntakeNames(intake)
      {
        var i := ClaimHasRow(legacy, rows, p);
        ResolveMeans(legacy, rows[i]);
        forall name | name in intake && intake[name].Some?
          ensures Fold(claims[p].fullName) != Fold(intake[name].value.fullName)
        {
          FoldMeans(claims[p].fullName, intake[name].value.fullName);
        }
      }
    }
  }

  /** An inventory is admitted exactly when every row is sound and warranted, and the repositories that its rows
      stand for differ from one another and from those of the Intake register. */
  lemma AdmissibleMeans(intake: Intake, legacy: map<string, Repository>, rows: seq<Row>)
    ensures Admissible(intake, legacy, rows) <==>
              && (forall i | 0 <= i < |rows| :: Sound(legacy, rows[i]) && Warranted(intake, legacy, rows[i]))
              && RowsApart(legacy, rows) && RowsOutside(intake, legacy, rows)
  {
    forall i | 0 <= i < |rows|
      ensures RowOk(intake, legacy, rows[i]) <==> Sound(legacy, rows[i]) && Warranted(intake, legacy, rows[i])
    {
      ResolveMeans(legacy, rows[i]);
    }
    if forall i | 0 <= i < |rows| :: Sound(legacy, rows[i]) {
      RowsApartMeans(legacy, rows);
      RowsOutsideMean(intake, legacy, rows);
    }
  }

  /** A row whose repository is admitted: in service by section, lifecycle and posture, and standing for one. */
  predicate InService(legacy: map<string, Repository>, row: Row) {
    && !row.retired && row.entry.lifecycle == "active" && row.entry.posture == "active"
    && (row.entry.binding.Some? || row.name in legacy)
  }

  /** The admitted repositories are those of the rows in service, all of them, in document order. */
  lemma {:induction false} AdmittedMeans(legacy: map<string, Repository>, rows: seq<Row>)
    returns (places: seq<nat>)
    requires forall i | 0 <= i < |rows| :: Sound(legacy, rows[i])
    ensures |places| == |Admitted(legacy, rows)|
    ensures forall p | 0 <= p < |places| ::
              && places[p] < |rows| && InService(legacy, rows[places[p]])
              && Admitted(legacy, rows)[p].id == IdOf(legacy, rows[places[p]])
              && Admitted(legacy, rows)[p].fullName == NameOf(legacy, rows[places[p]])
    ensures forall p, q | 0 <= p < q < |places| :: places[p] < places[q]
    ensures forall i | 0 <= i < |rows| && InService(legacy, rows[i]) :: i in places
  {
    places := [];
    if rows != [] {
      var last := |rows| - 1;
      places := AdmittedMeans(legacy, rows[..last]);
      ResolveMeans(legacy, rows[last]);
      if InService(legacy, rows[last]) { places := places + [last]; }
    }
  }

  predicate Alphabetic(c: char) { 'a' <= c <= 'z' || 'A' <= c <= 'Z' }

  /** owner/name, read from its two parts. */
  lemma FullNameMeans(owner: string, name: string)
    requires '/' !in owner
    ensures IsFullName(owner + "/" + name) <==>
              && owner != "" && name != "" && owner[0] != '-'
              && (forall i | 0 <= i < |owner| :: Alphabetic(owner[i]) || '0' <= owner[i] <= '9' || owner[i] == '-')
              && (forall i | 0 <= i < |name| ::
                    Alphabetic(name[i]) || '0' <= name[i] <= '9' || name[i] in {'.', '_', '-'})
  {
    var s, k := owner + "/" + name, |owner|;
    assert s[k] == '/';
    assert forall i | 0 <= i < k :: s[i] == owner[i] && s[i] != '/';
    assert forall i | 0 <= i < |name| :: name[i] == s[k + 1 + i];
  }
}
