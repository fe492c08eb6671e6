/**
 The ExecStart= line of build_auto_resume_spec, against the variable substitution of
 systemd.service(5), "Command lines": ${NAME} anywhere in a word, $NAME as a word of its own, and $$ for a
 dollar sign. Any other dollar sign is an ordinary character.
 */
module SystemdCommand {
  import opened Wrappers
  import opened SystemdUnit

  // ------------------------------------------------------------------
  // Variable substitution
  // ------------------------------------------------------------------

  type Environment = map<string, string>

  predicate NameChar(c: char) { 'a' <= c <= 'z' || 'A' <= c <= 'Z' || '0' <= c <= '9' || c == '_' }

  predicate IsName(s: string) {
    s != [] && !('0' <= s[0] <= '9') && forall i | 0 <= i < |s| :: NameChar(s[i])
  }

  /** The number of name characters that the text starts with. */
  function NameRun(s: string): (n: nat)
    ensures n <= |s|
  {
    if s == [] || !NameChar(s[0]) then 0 else 1 + NameRun(s[1..])
  }

  /** ${NAME} at the start of the text: the name, and what follows the brace. */
  function Braced(s: string): (r: Option<(string, string)>)
    ensures r.Some? ==> |r.value.1| < |s|
  {
    if !("${" <= s) then None
    else
      var n := 2 + NameRun(s[2..]);
      if n < |s| && s[n] == '}' && IsName(s[2..n]) then Some((s[2..n], s[n + 1..])) else None
  }

  function Value(env: Environment, name: string): string {
    if name in env then env[name] else ""
  }

  /** Substitution inside a word; what is put in is not looked at again. */
  function Expand(env: Environment, s: string): string
    decreases |s|
  {
    if s == [] then []
    else if "$$" <= s then "$" + Expand(env, s[2..])
    else
      match Braced(s)
      case Some((name, rest)) => Value(env, name) + Expand(env, rest)
      case None => [s[0]] + Expand(env, s[1..])
  }

  /** The pieces of a text between white space, none of them empty. */
  function SplitSpaces(s: string): seq<string> {
    if s == [] then []
    else if Space(s[0]) then SplitSpaces(s[1..])
    else if |s| == 1 || Space(s[1]) then [[s[0]]] + SplitSpaces(s[1..])
    else
      var more := SplitSpaces(s[1..]);
      if more == [] then [[s[0]]] else [[s[0]] + more[0]] + more[1..]
  }

  predicate IsVariableWord(item: string) {
    item != [] && item[0] == '$' && IsName(item[1..])
  }

  function WordsOf(env: Environment, item: string): seq<string> {
    if IsVariableWord(item) then SplitSpaces(Value(env, item[1..])) else [Expand(env, item)]
  }

  function AllWords(env: Environment, items: seq<string>): seq<string> {
    if items == [] then [] else WordsOf(env, items[0]) + AllWords(env, items[1..])
  }

  /** An ExecStart= line: items, specifiers, then variables. */
  function ReadCommand(env: Environment, line: string): Option<seq<string>> {
    match ReadEnvironment(line)
    case None => None
    case Some(items) => Some(AllWords(env, items))
  }

  // ------------------------------------------------------------------
  // Which arguments survive
  // ------------------------------------------------------------------

  /** Some form that systemd substitutes stands at this place. */
  predicate SubstitutesAt(item: string, i: nat)
    requires i <= |item|
  {
    "$$" <= item[i..] || Braced(item[i..]).Some?
  }

  predicate Substitutes(item: string) {
    IsVariableWord(item) || exists i | 0 <= i < |item| :: SubstitutesAt(item, i)
  }

  lemma SubstitutesBelow(item: string, i: nat)
    requires i < |item|
    ensures SubstitutesAt(item, i + 1) <==> SubstitutesAt(item[1..], i)
  {
    assert item[1..][i..] == item[i + 1..];
  }

  lemma {:induction false} ExpandKeeps(env: Environment, s: string)
    requires forall i | 0 <= i < |s| :: !SubstitutesAt(s, i)
    ensures Expand(env, s) == s
  {
    if s != [] {
      assert !SubstitutesAt(s, 0) && s[0..] == s;
      forall i | 0 <= i < |s[1..]| ensures !SubstitutesAt(s[1..], i) { SubstitutesBelow(s, i); }
      ExpandKeeps(env, s[1..]);
    }
  }

  /** Where nothing is set, substitution shortens every word it touches. */
  lemma {:induction false} ExpandShrinks(s: string)
    ensures |Expand(map[], s)| <= |s|
    ensures (exists i | 0 <= i < |s| :: SubstitutesAt(s, i)) ==> |Expand(map[], s)| < |s|
    decreases |s|
  {
    if s != [] {
      assert s[0..] == s;
      if "$$" <= s {
        ExpandShrinks(s[2..]);
      } else if Braced(s).Some? {
        ExpandShrinks(Braced(s).value.1);
      } else {
        ExpandShrinks(s[1..]);
        if i :| 0 <= i < |s| && SubstitutesAt(s, i) {
          SubstitutesBelow(s, i - 1);
        }
      }
    }
  }

  /** Words and characters of a command line. */
  function Size(words: seq<string>): nat {
    if words == [] then 0 else 1 + |words[0]| + Size(words[1..])
  }

  lemma {:induction false} SizeAdds(a: seq<string>, b: seq<string>)
    ensures Size(a + b) == Size(a) + Size(b)
  {
    if a == [] {
      assert a + b == b;
    } else {
      assert (a + b)[1..] == a[1..] + b;
      SizeAdds(a[1..], b);
    }
  }

  lemma {:induction false} AllWordsShrink(items: seq<string>)
    ensures Size(AllWords(map[], items)) <= Size(items)
    ensures (exists i | 0 <= i < |items| :: Substitutes(items[i])) ==> Size(AllWords(map[], items)) < Size(items)
  {
    if items != [] {
      AllWordsShrink(items[1..]);
      ExpandShrinks(items[0]);
      SizeAdds(WordsOf(map[], items[0]), AllWords(map[], items[1..]));
      if i :| 0 <= i < |items| && Substitutes(items[i]) {
        assert i == 0 || items[1..][i - 1] == items[i];
      }
    }
  }

  lemma {:induction false} AllWordsKeep(env: Environment, items: seq<string>)
    requires forall i | 0 <= i < |items| :: !Substitutes(items[i])
    ensures AllWords(env, items) == items
  {
    if items != [] {
      ExpandKeeps(env, items[0]);
      AllWordsKeep(env, items[1..]);
    }
  }

  /** An ExecStart= line reads back as the original arguments in every environment exactly when no argument
      holds a form that systemd substitutes; _systemd_quote does not double dollar signs. */
  lemma CommandRoundTrip(words: seq<string>)
    ensures (forall env :: ReadCommand(env, Join(words)) == Some(words))
            <==> forall i | 0 <= i < |words| :: !Substitutes(words[i])
  {
    EnvironmentRoundTrip(words);
    if forall i | 0 <= i < |words| :: !Substitutes(words[i]) {
      forall env ensures ReadCommand(env, Join(words)) == Some(words) { AllWordsKeep(env, words); }
    }
    if forall env :: ReadCommand(env, Join(words)) == Some(words) {
      var unset: Environment := map[];
      assert ReadCommand(unset, Join(words)) == Some(words);
      AllWordsShrink(words);
    }
  }

  /** In particular an argument without a dollar sign holds none. */
  lemma NoDollarNoSubstitution(item: string)
    requires '$' !in item
    ensures !Substitutes(item)
  {
    forall i | 0 <= i < |item| ensures !SubstitutesAt(item, i) {
      assert item[i..][0] == item[i];
    }
  }

  /** A variable's name: letters, digits and underscores, and no digit first. */
  predicate Word(s: string) {
    && s != "" && !('0' <= s[0] <= '9')
    && forall i | 0 <= i < |s| ::
         'a' <= s[i] <= 'z' || 'A' <= s[i] <= 'Z' || '0' <= s[i] <= '9' || s[i] == '_'
  }

  lemma WordMeans(s: string)
    ensures IsName(s) <==> Word(s)
  {
    forall i | 0 <= i < |s|
      ensures NameChar(s[i]) <==> 'a' <= s[i] <= 'z' || 'A' <= s[i] <= 'Z' || '0' <= s[i] <= '9' || s[i] == '_'
    {
    }
  }

  lemma {:induction false} NameRunIs(s: string, n: nat)
    requires n <= |s| && forall i | 0 <= i < n :: NameChar(s[i])
    requires n == |s| || !NameChar(s[n])
    ensures NameRun(s) == n
  {
    if n > 0 { NameRunIs(s[1..], n - 1); }
  }

  lemma BracedMeans(s: string)
    ensures Braced(s).Some? <==> exists n | 2 < n < |s| :: s[0] == '$' && s[1] == '{' && s[n] == '}' && Word(s[2..n])
  {
    if n :| 2 < n < |s| && s[0] == '$' && s[1] == '{' && s[n] == '}' && Word(s[2..n]) {
      WordMeans(s[2..n]);
      assert "${" <= s;
      forall i | 0 <= i < n - 2 ensures NameChar(s[2..][i]) { assert s[2..n][i] == s[2..][i]; }
      NameRunIs(s[2..], n - 2);
    }
    if Braced(s).Some? {
      var n := 2 + NameRun(s[2..]);
      WordMeans(s[2..n]);
      assert s[n] == '}' && 2 < n < |s|;
    }
  }

  /** A name in braces behind a dollar sign. */
  predicate BracedAt(item: string, i: nat) {
    exists n | i + 2 < n < |item| :: item[i] == '$' && item[i + 1] == '{' && item[n] == '}' && Word(item[i + 2..n])
  }

  /** That, or two dollar signs in a row. */
  predicate FormAt(item: string, i: nat) {
    (i < |item| - 1 && item[i] == item[i + 1] == '$') || BracedAt(item, i)
  }

  /** The forms that systemd substitutes, spelled out: an argument that is a dollar sign and a name, or that holds
      two dollar signs in a row, or a name in braces behind a dollar sign. */
  lemma SubstitutesMeans(item: string)
    ensures Substitutes(item) <==>
              || (item != "" && item[0] == '$' && Word(item[1..]))
              || exists i | 0 <= i < |item| :: FormAt(item, i)
  {
    if item != "" { WordMeans(item[1..]); }
    forall i | 0 <= i < |item|
      ensures SubstitutesAt(item, i) <==> FormAt(item, i)
    {
      DoubleHere(item, i);
      BracedHere(item, i);
    }
  }

  lemma DoubleHere(item: string, i: nat)
    requires i < |item|
    ensures "$$" <= item[i..] <==> i < |item| - 1 && item[i] == item[i + 1] == '$'
  {
    var s := item[i..];
    if "$$" <= s { assert s[0] == s[1] == '$'; }
  }

  lemma BracedHere(item: string, i: nat)
    requires i < |item|
    ensures Braced(item[i..]).Some? <==> BracedAt(item, i)
  {
    var s := item[i..];
    BracedMeans(s);
    if n :| 2 < n < |s| && s[0] == '$' && s[1] == '{' && s[n] == '}' && Word(s[2..n]) {
      assert item[i + 2..i + n] == s[2..n];
    }
    if n :| i + 2 < n < |item| && item[i] == '$' && item[i + 1] == '{' && item[n] == '}' && Word(item[i + 2..n]) {
      assert item[i + 2..n] == s[2..n - i];
    }
  }

  // ------------------------------------------------------------------
  // The rendering loop
  // ------------------------------------------------------------------

  function RepoArguments(repos: seq<(string, string)>): seq<string> {
    if repos == [] then []
    else RepoArguments(repos[..|repos| - 1])
         + ["--repo-path", repos[|repos| - 1].0 + "=" + repos[|repos| - 1].1]
  }

  /** The ExecStart line of build_auto_resume_spec: the command list extended repository by repository,
      quoted and joined. */
  method RenderExecStart(head: seq<string>, repos: seq<(string, string)>) returns (line: string)
    ensures var command := head + RepoArguments(repos);
            && line == Join(command)
            && ((forall env :: ReadCommand(env, line) == Some(command))
                <==> forall i | 0 <= i < |command| :: !Substitutes(command[i]))
    ensures '\n' !in line
  {
    var command := head;
    for i := 0 to |repos|
      invariant command == head + RepoArguments(repos[..i])
    {
      assert repos[..i + 1][..i] == repos[..i];
      command := command + ["--repo-path", repos[i].0 + "=" + repos[i].1];
    }
    assert repos[..|repos|] == repos;
    line := Join(command);
    CommandRoundTrip(command);
    NoRawNewline(command);
  }
}
