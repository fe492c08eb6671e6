/**
 The whole unit of build_auto_resume_spec, against the line syntax of systemd.syntax(7): a line that ends in
 a backslash is joined with the next line that is no comment, a space taking the backslash's place.
 */
module SystemdUnitFile {
  import opened Wrappers
  import opened Text
  import opened SystemdUnit
  import opened SystemdCommand

  // ------------------------------------------------------------------
  // Writing and reading lines
  // ------------------------------------------------------------------

  /** str.join with a separator of one character. */
  function Joined(parts: seq<string>, separator: char): string {
    if parts == [] then []
    else if |parts| == 1 then parts[0] else parts[0] + [separator] + Joined(parts[1..], separator)
  }

  /** str.split likewise. */
  function Parted(text: string, separator: char): (r: seq<string>)
    ensures r != [] && forall i | 0 <= i < |r| :: separator !in r[i]
  {
    if text == [] then [""]
    else
      var rest := Parted(text[1..], separator);
      if text[0] == separator then [""] + rest else [[text[0]] + rest[0]] + rest[1..]
  }

  predicate EndsInBackslash(line: string) { line != [] && line[|line| - 1] == '\\' }

  predicate IsComment(line: string) { line != [] && (line[0] == '#' || line[0] == ';') }

  function SkipComments(lines: seq<string>): (r: seq<string>)
    ensures |r| <= |lines|
    ensures Single(lines) ==> Single(r)
  {
    if lines != [] && IsComment(lines[0]) then SkipComments(lines[1..]) else lines
  }

  /** The lines after continuation. */
  function Logical(lines: seq<string>): seq<string>
    decreases |lines|
  {
    if |lines| <= 1 || !EndsInBackslash(lines[0]) then
      if lines == [] then [] else [lines[0]] + Logical(lines[1..])
    else
      var head, rest := lines[0][..|lines[0]| - 1] + " ", SkipComments(lines[1..]);
      if rest == [] then [head] else Logical([head + rest[0]] + rest[1..])
  }

  /** A unit file, as its reader sees it. */
  function ReadUnit(text: string): seq<string> {
    Logical(Parted(text, '\n'))
  }

  predicate Single(lines: seq<string>) {
    forall i | 0 <= i < |lines| :: '\n' !in lines[i]
  }

  /** No line but the last asks for continuation. */
  predicate Unbroken(lines: seq<string>) {
    forall i | 0 <= i < |lines| - 1 :: !EndsInBackslash(lines[i])
  }

  lemma {:induction false} PartedPiece(piece: string, text: string, separator: char)
    requires separator !in piece
    ensures Parted(piece + [separator] + text, separator) == [piece] + Parted(text, separator)
    ensures Parted(piece, separator) == [piece]
  {
    if piece == [] {
      assert piece + [separator] + text == [separator] + text && ([separator] + text)[1..] == text;
    } else {
      PartedPiece(piece[1..], text, separator);
      assert (piece + [separator] + text)[1..] == piece[1..] + [separator] + text;
      assert [piece[0]] + piece[1..] == piece;
      assert ([piece[1..]] + Parted(text, separator))[1..] == Parted(text, separator);
      assert piece[0] in piece;
    }
  }

  /** A text splits back into the parts it was joined from exactly when none of them holds the separator. */
  lemma {:induction false} JoinedPartsBack(parts: seq<string>, separator: char)
    requires parts != []
    ensures Parted(Joined(parts, separator), separator) == parts <==>
              forall i | 0 <= i < |parts| :: separator !in parts[i]
  {
    if forall i | 0 <= i < |parts| :: separator !in parts[i] {
      if |parts| == 1 {
        PartedPiece(parts[0], "", separator);
      } else {
        JoinedPartsBack(parts[1..], separator);
        PartedPiece(parts[0], Joined(parts[1..], separator), separator);
        assert [parts[0]] + parts[1..] == parts;
      }
    }
  }

  /** Continuation never makes lines more, never brings a newline in, and makes them fewer wherever a line
      but the last asks for it. */
  lemma {:induction false} LogicalShrinks(lines: seq<string>)
    ensures |Logical(lines)| <= |lines|
    ensures !Unbroken(lines) ==> |Logical(lines)| < |lines|
    ensures Single(lines) ==> Single(Logical(lines))
    decreases |lines|
  {
    if |lines| > 1 && EndsInBackslash(lines[0]) {
      var head, rest := lines[0][..|lines[0]| - 1] + " ", SkipComments(lines[1..]);
      if rest != [] { LogicalShrinks([head + rest[0]] + rest[1..]); }
    } else if lines != [] {
      LogicalShrinks(lines[1..]);
      if Unbroken(lines[1..]) { UnbrokenCons(lines); }
    }
  }

  lemma UnbrokenCons(lines: seq<string>)
    requires lines != [] && Unbroken(lines[1..]) && (|lines| == 1 || !EndsInBackslash(lines[0]))
    ensures Unbroken(lines)
  {
    forall i | 0 <= i < |lines| - 1 ensures !EndsInBackslash(lines[i]) {
      assert i == 0 || lines[i] == lines[1..][i - 1];
    }
  }

  lemma {:induction false} UnbrokenStays(lines: seq<string>)
    requires Unbroken(lines)
    ensures Logical(lines) == lines
  {
    if lines != [] {
      forall i | 0 <= i < |lines[1..]| - 1 ensures !EndsInBackslash(lines[1..][i]) {
        assert lines[1..][i] == lines[i + 1];
      }
      UnbrokenStays(lines[1..]);
      assert [lines[0]] + lines[1..] == lines;
    }
  }

  /** A unit text reads back as the lines it was joined from exactly when none of them holds a newline and
      none but the last ends in a backslash. */
  lemma LinesReadBack(lines: seq<string>)
    requires lines != []
    ensures ReadUnit(Joined(lines, '\n')) == lines <==> Single(lines) && Unbroken(lines)
  {
    var split := Parted(Joined(lines, '\n'), '\n');
    JoinedPartsBack(lines, '\n');
    LogicalShrinks(split);
    if Single(lines) && Unbroken(lines) { UnbrokenStays(lines); }
  }

  // ------------------------------------------------------------------
  // The lines of the unit
  // ------------------------------------------------------------------

  datatype Target = Composition(id: string) | Profile(id: string)

  function Arguments(target: Target): seq<string> {
    match target
    case Composition(id) => ["--composition", id]
    case Profile(id) => ["--profile", id]
  }

  function Prefix(target: Target): string {
    "Description=Resume dev-integration " + if target.Composition? then "composition " else "profile "
  }

  function Description(target: Target): string { Prefix(target) + target.id }

  function Doubled(s: string): string { Replace(s, '%', "%%") }

  const LIMITS: seq<string> :=
    ["StartLimitIntervalSec=10min", "StartLimitBurst=3", "", "[Service]", "Type=oneshot",
     "Environment=DEVINT_AUTO_RESUME=1"]

  const RESTARTS: seq<string> :=
    ["RemainAfterExit=yes", "Restart=on-failure", "RestartSec=60s", "TimeoutStartSec=15min", "",
     "[Install]", "WantedBy=default.target", ""]

  function Settings(path: string, directory: string, command: string): seq<string> {
    ["Environment=" + Quote("PATH=" + path), "WorkingDirectory=" + Doubled(directory), "ExecStart=" + command]
  }

  function UnitLines(target: Target, path: string, directory: string, command: string): seq<string> {
    ["[Unit]", Description(target)] + LIMITS + Settings(path, directory, command) + RESTARTS
  }

  /** A line that its reader takes as it stands. */
  predicate Plain(line: string) {
    '\n' !in line && !EndsInBackslash(line)
  }

  predicate AllPlain(lines: seq<string>) {
    forall i | 0 <= i < |lines| :: Plain(lines[i])
  }

  lemma PlainAdds(a: seq<string>, b: seq<string>)
    ensures AllPlain(a + b) <==> AllPlain(a) && AllPlain(b)
  {
    if AllPlain(a + b) {
      assert forall i | 0 <= i < |a| :: (a + b)[i] == a[i];
      assert forall i | 0 <= i < |b| :: (a + b)[|a| + i] == b[i];
    }
  }

  lemma PlainParts(a: seq<string>, b: seq<string>, c: seq<string>, d: seq<string>)
    ensures AllPlain(a + b + c + d) <==> AllPlain(a) && AllPlain(b) && AllPlain(c) && AllPlain(d)
  {
    PlainAdds(a, b);
    PlainAdds(a + b, c);
    PlainAdds(a + b + c, d);
  }

  /** The text that follows decides whether a line is plain, once the text before it is. */
  lemma PlainSuffix(before: string, text: string)
    requires Plain(before)
    ensures Plain(before + text) <==> Plain(text)
  {
    assert '\n' in before + text <==> '\n' in before || '\n' in text;
  }

  lemma LimitsArePlain()
    ensures AllPlain(LIMITS)
  {
  }

  lemma RestartsArePlain()
    ensures AllPlain(RESTARTS)
  {
  }

  lemma HeadIsPlain(target: Target)
    ensures AllPlain(["[Unit]", Description(target)]) <==> Plain(target.id)
  {
    PlainSuffix(Prefix(target), target.id);
    var head := ["[Unit]", Description(target)];
    assert head[1] == Description(target) && Plain(head[0]);
  }

  lemma QuotedIsPlain(value: string)
    ensures Plain(Quote(value))
  {
    QuoteIsEscape(value);
    EscapedHasNoNewline(value);
  }

  /** A line of quoted words ends in a quote. */
  lemma {:induction false} JoinedIsPlain(words: seq<string>)
    ensures Plain(Join(words))
  {
    if words != [] {
      QuotedIsPlain(words[0]);
      if |words| > 1 {
        JoinedIsPlain(words[1..]);
        PlainSuffix(Quote(words[0]) + " ", Join(words[1..]));
      }
    }
  }

  /** Doubling percent signs changes neither newlines nor a last backslash. */
  lemma {:induction false} DoubledIsPlain(s: string)
    ensures Plain(Doubled(s)) <==> Plain(s)
    ensures s == [] <==> Doubled(s) == []
  {
    if s != [] {
      DoubledIsPlain(s[1..]);
      var first := if s[0] == '%' then "%%" else [s[0]];
      assert Doubled(s) == first + Doubled(s[1..]) && s == [s[0]] + s[1..];
      if s[1..] != [] {
        PlainAfter(first, Doubled(s[1..]));
        PlainAfter([s[0]], s[1..]);
      }
    }
  }

  lemma PlainAfter(before: string, text: string)
    requires text != []
    ensures Plain(before + text) <==> '\n' !in before && Plain(text)
  {
    assert '\n' in before + text <==> '\n' in before || '\n' in text;
  }

  lemma SettingsArePlain(path: string, directory: string, words: seq<string>)
    ensures AllPlain(Settings(path, directory, Join(words))) <==> Plain(directory)
  {
    QuotedIsPlain("PATH=" + path);
    JoinedIsPlain(words);
    DoubledIsPlain(directory);
    PlainSuffix("Environment=", Quote("PATH=" + path));
    PlainSuffix("WorkingDirectory=", Doubled(directory));
    PlainSuffix("ExecStart=", Join(words));
    var lines := Settings(path, directory, Join(words));
    assert lines[1] == "WorkingDirectory=" + Doubled(directory);
  }

  lemma UnitLinesArePlain(target: Target, path: string, directory: string, words: seq<string>)
    ensures AllPlain(UnitLines(target, path, directory, Join(words))) <==> Plain(target.id) && Plain(directory)
  {
    LimitsArePlain();
    RestartsArePlain();
    HeadIsPlain(target);
    SettingsArePlain(path, directory, words);
    PlainParts(["[Unit]", Description(target)], LIMITS, Settings(path, directory, Join(words)), RESTARTS);
  }

  /** The last line is empty, so that plain lines are exactly the ones that read back. */
  lemma PlainReadsBack(lines: seq<string>)
    requires lines != [] && lines[|lines| - 1] == ""
    ensures AllPlain(lines) <==> Single(lines) && Unbroken(lines)
  {
    if Single(lines) && Unbroken(lines) {
      forall i | 0 <= i < |lines| ensures Plain(lines[i]) {}
    }
  }

  lemma UnitEndsEmpty(target: Target, path: string, directory: string, command: string)
    ensures var lines := UnitLines(target, path, directory, command); lines[|lines| - 1] == ""
  {
    assert RESTARTS[|RESTARTS| - 1] == "";
  }

  // ------------------------------------------------------------------
  // What the unit says
  // ------------------------------------------------------------------

  /** The unit, line by line: three starts at most in ten minutes, one attempt a minute after a failure, each
      of them a quarter of an hour at most, whenever the operator logs in. */
  lemma UnitMeans(target: Target, path: string, directory: string, command: string)
    ensures UnitLines(target, path, directory, command) ==
              [ "[Unit]",
                (if target.Composition? then "Description=Resume dev-integration composition "
                 else "Description=Resume dev-integration profile ") + target.id,
                "StartLimitIntervalSec=10min",
                "StartLimitBurst=3",
                "",
                "[Service]",
                "Type=oneshot",
                "Environment=DEVINT_AUTO_RESUME=1",
                "Environment=" + Quote("PATH=" + path),
                "WorkingDirectory=" + Doubled(directory),
                "ExecStart=" + command,
                "RemainAfterExit=yes",
                "Restart=on-failure",
                "RestartSec=60s",
                "TimeoutStartSec=15min",
                "",
                "[Install]",
                "WantedBy=default.target",
                "" ]
  {
    assert "Description=Resume dev-integration " + "composition " == "Description=Resume dev-integration composition ";
    assert "Description=Resume dev-integration " + "profile " == "Description=Resume dev-integration profile ";
  }

  /** The working directory reads back under percent specifiers. */
  lemma {:induction false} DirectoryReadsBack(directory: string)
    ensures Specified(Doubled(directory)) == Some(directory)
  {
    if directory != [] {
      DirectoryReadsBack(directory[1..]);
      assert directory == [directory[0]] + directory[1..];
      if directory[0] == '%' {
        assert Doubled(directory) == "%%" + Doubled(directory[1..]);
        assert Doubled(directory)[2..] == Doubled(directory[1..]);
      } else {
        assert Doubled(directory)[1..] == Doubled(directory[1..]);
      }
    }
  }

  /** Percent specifiers of a value: a doubled sign is one; any other is beyond this model. */
  function Specified(s: string): Option<string> {
    if s == [] then Some([])
    else if "%%" <= s then
      match Specified(s[2..]) case None => None case Some(rest) => Some("%" + rest)
    else if s[0] == '%' then None
    else
      match Specified(s[1..]) case None => None case Some(rest) => Some([s[0]] + rest)
  }

  // ------------------------------------------------------------------
  // build_auto_resume_spec
  // ------------------------------------------------------------------

  datatype Runtime = NotAMapping | Runtime(policy: Option<string>, stateModel: string)

  datatype Request = Request(
    runtime: Runtime, composition: Option<string>, profile: string, operator: string, python: string,
    runner: string, workspaceRoot: string, repos: seq<(string, string)>, path: seq<string>, directory: string)

  /** resolve_resume_policy: manual unless stated, and login only over persistent state. */
  predicate PolicyOk(runtime: Runtime) {
    && runtime.Runtime?
    && var policy := if runtime.policy.Some? then runtime.policy.value else "manual";
       policy == "manual" || (policy == "operator-login" && runtime.stateModel == "persistent")
  }

  /** What _slugify leaves non-empty. */
  predicate Sluggable(s: string) {
    exists i | 0 <= i < |s| :: 'a' <= s[i] <= 'z' || 'A' <= s[i] <= 'Z' || '0' <= s[i] <= '9'
  }

  predicate IsAbsolute(path: string) { "/" <= path }

  predicate PathEntryOk(entry: string) { IsAbsolute(entry) && '\n' !in entry }

  predicate Renderable(r: Request) {
    && PolicyOk(r.runtime) && Sluggable(r.profile) && Sluggable(r.operator) && r.python != ""
    && (r.composition.Some? ==> !IsBlank(r.composition.value) && '\n' !in r.composition.value)
    && (forall i | 0 <= i < |r.path| :: PathEntryOk(r.path[i]))
    && IsAbsolute(r.directory) && '\n' !in r.directory
  }

  function TargetOf(r: Request): Target {
    if r.composition.Some? then Composition(r.composition.value) else Profile(r.profile)
  }

  function CommandHead(r: Request): seq<string> {
    [r.python, r.runner, "up"] + Arguments(TargetOf(r))
    + ["--operator", r.operator, "--workspace-root", r.workspaceRoot]
  }

  /** The command, word by word: the runner under python is asked to bring the target up, a composition if one
      is named and else the profile, for the operator, with one path for each repository. */
  lemma CommandMeans(r: Request)
    ensures var words := CommandHead(r) + RepoArguments(r.repos);
            && |words| == 9 + 2 * |r.repos|
            && words[..9] == [ r.python, r.runner, "up",
                               if r.composition.Some? then "--composition" else "--profile",
                               if r.composition.Some? then r.composition.value else r.profile,
                               "--operator", r.operator, "--workspace-root", r.workspaceRoot ]
            && forall i | 0 <= i < |r.repos| ::
                 words[9 + 2 * i] == "--repo-path" && words[10 + 2 * i] == r.repos[i].0 + "=" + r.repos[i].1
  {
    RepoArgumentsMean(r.repos);
    var head, tail := CommandHead(r), RepoArguments(r.repos);
    assert |head| == 9 && (head + tail)[..9] == head;
    forall i | 0 <= i < |r.repos|
      ensures (head + tail)[9 + 2 * i] == tail[2 * i] && (head + tail)[10 + 2 * i] == tail[2 * i + 1]
    {
    }
  }

  lemma {:induction false} RepoArgumentsMean(repos: seq<(string, string)>)
    ensures |RepoArguments(repos)| == 2 * |repos|
    ensures forall i | 0 <= i < |repos| ::
              && RepoArguments(repos)[2 * i] == "--repo-path"
              && RepoArguments(repos)[2 * i + 1] == repos[i].0 + "=" + repos[i].1
  {
    if repos != [] { RepoArgumentsMean(repos[..|repos| - 1]); }
  }

  /** A unit is written exactly under these conditions. */
  lemma RenderableMeans(r: Request)
    ensures Renderable(r) <==>
              && r.runtime.Runtime?
              && (r.runtime.policy == None || r.runtime.policy.value == "manual"
                  || (r.runtime.policy.value == "operator-login" && r.runtime.stateModel == "persistent"))
              && (exists c | c in r.profile :: 'a' <= c <= 'z' || 'A' <= c <= 'Z' || '0' <= c <= '9')
              && (exists c | c in r.operator :: 'a' <= c <= 'z' || 'A' <= c <= 'Z' || '0' <= c <= '9')
              && r.python != ""
              && (r.composition == None
                  || ('\n' !in r.composition.value && exists c | c in r.composition.value :: !IsSpace(c)))
              && (forall i | 0 <= i < |r.path| :: "/" <= r.path[i] && '\n' !in r.path[i])
              && "/" <= r.directory && '\n' !in r.directory
  {
    forall i | 0 <= i < |r.path| ensures PathEntryOk(r.path[i]) <==> "/" <= r.path[i] && '\n' !in r.path[i] {}
    SluggableMeans(r.profile);
    SluggableMeans(r.operator);
    if r.composition.Some? { BlankMeans(r.composition.value); }
  }

  lemma SluggableMeans(s: string)
    ensures Sluggable(s) <==> exists c | c in s :: 'a' <= c <= 'z' || 'A' <= c <= 'Z' || '0' <= c <= '9'
  {
    if i :| 0 <= i < |s| && ('a' <= s[i] <= 'z' || 'A' <= s[i] <= 'Z' || '0' <= s[i] <= '9') {
      assert s[i] in s;
    }
  }

  lemma BlankMeans(s: string)
    ensures IsBlank(s) <==> forall c | c in s :: IsSpace(c)
  {
  }

  /** The entries of PATH, each where it first stands. */
  function FirstOf(entries: seq<string>): (r: seq<string>)
    ensures forall e :: e in r <==> e in entries
    ensures forall i, j | 0 <= i < j < |r| :: r[i] != r[j]
  {
    if entries == [] then [] else
    var before, last := FirstOf(entries[..|entries| - 1]), entries[|entries| - 1];
    assert entries == entries[..|entries| - 1] + [last];
    if last in before then before else before + [last]
  }

  /** An entry that comes first in the result first stood earlier. */
  lemma {:induction false} FirstOfInOrder(entries: seq<string>, i: nat, j: nat, q: nat)
    requires i < j < |FirstOf(entries)| && q < |entries| && entries[q] == FirstOf(entries)[j]
    ensures exists p | 0 <= p < q :: entries[p] == FirstOf(entries)[i]
  {
    var before, last := entries[..|entries| - 1], |entries| - 1;
    if j == |FirstOf(before)| {
      assert entries[q] !in before;
      assert entries == before + [entries[last]];
      assert FirstOf(entries)[i] == FirstOf(before)[i] && FirstOf(before)[i] in before;
      var p :| 0 <= p < |before| && before[p] == FirstOf(before)[i];
      assert entries[p] == FirstOf(entries)[i];
    } else if q < last {
      FirstOfInOrder(before, i, j, q);
      var p :| 0 <= p < q && before[p] == FirstOf(before)[i];
      assert entries[p] == FirstOf(entries)[i];
    } else {
      assert FirstOf(before)[i] in before;
      var p :| 0 <= p < |before| && before[p] == FirstOf(before)[i];
      assert entries[p] == FirstOf(entries)[i];
    }
  }

  /** The value of PATH has exactly the kept entries between its colons. */
  lemma PathReadsBack(raw: seq<string>)
    requires raw != [] && forall i | 0 <= i < |raw| :: ':' !in raw[i]
    ensures Parted(Joined(FirstOf(raw), ':'), ':') == FirstOf(raw)
  {
    var entries := FirstOf(raw);
    assert raw[0] in entries;
    forall i | 0 <= i < |entries| ensures ':' !in entries[i] {
      assert entries[i] in raw;
    }
    JoinedPartsBack(entries, ':');
  }

  /** _resolve_path_environment, over the entries of the variable. */
  method ResolvePath(raw: seq<string>) returns (entries: seq<string>, ok: bool)
    ensures ok <==> forall i | 0 <= i < |raw| :: PathEntryOk(raw[i])
    ensures ok ==> entries == FirstOf(raw)
  {
    entries := [];
    for i := 0 to |raw|
      invariant forall j | 0 <= j < i :: PathEntryOk(raw[j])
      invariant entries == FirstOf(raw[..i])
    {
      if !PathEntryOk(raw[i]) { return entries, false; }
      assert raw[..i + 1][..i] == raw[..i] && raw[..i + 1][i] == raw[i];
      if raw[i] !in entries { entries := entries + [raw[i]]; }
    }
    assert raw[..|raw|] == raw;
    ok := true;
  }

  /** The unit of build_auto_resume_spec. It is refused exactly where the code raises; and a unit that is
      written reads back as the intended lines exactly when the target's id holds no newline, which for a
      profile is not checked, and neither that id nor the working directory ends in a backslash, which is
      checked for neither. */
  method RenderUnit(r: Request) returns (content: Option<string>)
    ensures content.Some? <==> Renderable(r)
    ensures content.Some? ==>
              var target, words := TargetOf(r), CommandHead(r) + RepoArguments(r.repos);
              ReadUnit(content.value) == UnitLines(target, Joined(FirstOf(r.path), ':'), r.directory, Join(words))
              <==> '\n' !in target.id && !EndsInBackslash(target.id) && !EndsInBackslash(r.directory)
  {
    if !PolicyOk(r.runtime) || !Sluggable(r.profile) || !Sluggable(r.operator) || r.python == "" { return None; }
    if r.composition.Some? && (IsBlank(r.composition.value) || '\n' in r.composition.value) { return None; }
    var command := RenderExecStart(CommandHead(r), r.repos);
    var path, ok := ResolvePath(r.path);
    if !ok || !IsAbsolute(r.directory) || '\n' in r.directory { return None; }
    var lines := UnitLines(TargetOf(r), Joined(path, ':'), r.directory, command);
    content := Some(Joined(lines, '\n'));
    UnitLinesArePlain(TargetOf(r), Joined(path, ':'), r.directory, CommandHead(r) + RepoArguments(r.repos));
    UnitEndsEmpty(TargetOf(r), Joined(path, ':'), r.directory, command);
    PlainReadsBack(lines);
    LinesReadBack(lines);
  }
}
