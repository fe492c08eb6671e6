/**
 The quoted items of dev_integration_auto_resume.py: _systemd_quote prints them, and a reader built from
 systemd.syntax(7), "Quoting", and the percent specifiers of unit files reads them back.
 */
module SystemdUnit {
  import opened Wrappers

  // ------------------------------------------------------------------
  // The printer
  // ------------------------------------------------------------------

  /** str.replace of a one-character pattern. */
  function Replace(s: string, c: char, text: string): string {
    if s == [] then [] else (if s[0] == c then text else [s[0]]) + Replace(s[1..], c, text)
  }

  /** _systemd_quote: four replacements in a chain, then quotes around the result. */
  function Quote(value: string): string {
    "\"" + Replace(Replace(Replace(Replace(value, '\\', "\\\\"), '"', "\\\""), '%', "%%"), '\n', "\\n") + "\""
  }

  function EscapeChar(c: char): string {
    if c == '\\' then "\\\\"
    else if c == '"' then "\\\""
    else if c == '%' then "%%"
    else if c == '\n' then "\\n"
    else [c]
  }

  function Escape(value: string): string {
    if value == [] then [] else EscapeChar(value[0]) + Escape(value[1..])
  }

  lemma {:induction false} ReplaceAppends(a: string, b: string, c: char, text: string)
    ensures Replace(a + b, c, text) == Replace(a, c, text) + Replace(b, c, text)
  {
    if a == [] {
      assert a + b == b;
    } else {
      assert (a + b)[1..] == a[1..] + b;
      ReplaceAppends(a[1..], b, c, text);
    }
  }

  function Chain(value: string): string {
    Replace(Replace(Replace(Replace(value, '\\', "\\\\"), '"', "\\\""), '%', "%%"), '\n', "\\n")
  }

  lemma ReplaceOne(c: char, x: char, text: string)
    ensures Replace([x], c, text) == if x == c then text else [x]
  {
    assert [x][1..] == [];
  }

  lemma ReplaceTwo(c: char, x: char, y: char, text: string)
    requires x != c && y != c
    ensures Replace([x, y], c, text) == [x, y]
  {
    assert [x, y] == [x] + [y];
    ReplaceAppends([x], [y], c, text);
    ReplaceOne(c, x, text);
    ReplaceOne(c, y, text);
  }

  lemma ChainChar(x: char)
    ensures Chain([x]) == EscapeChar(x)
  {
    ReplaceOne('\\', x, "\\\\");
    if x == '\\' {
      ReplaceTwo('"', '\\', '\\', "\\\"");
      ReplaceTwo('%', '\\', '\\', "%%");
      ReplaceTwo('\n', '\\', '\\', "\\n");
    } else {
      ReplaceOne('"', x, "\\\"");
      if x == '"' {
        ReplaceTwo('%', '\\', '"', "%%");
        ReplaceTwo('\n', '\\', '"', "\\n");
      } else {
        ReplaceOne('%', x, "%%");
        if x == '%' {
          ReplaceTwo('\n', '%', '%', "\\n");
        } else {
          ReplaceOne('\n', x, "\\n");
        }
      }
    }
  }

  lemma ChainAppends(a: string, b: string)
    ensures Chain(a + b) == Chain(a) + Chain(b)
  {
    ReplaceAppends(a, b, '\\', "\\\\");
    var a1, b1 := Replace(a, '\\', "\\\\"), Replace(b, '\\', "\\\\");
    ReplaceAppends(a1, b1, '"', "\\\"");
    var a2, b2 := Replace(a1, '"', "\\\""), Replace(b1, '"', "\\\"");
    ReplaceAppends(a2, b2, '%', "%%");
    ReplaceAppends(Replace(a2, '%', "%%"), Replace(b2, '%', "%%"), '\n', "\\n");
  }

  /** The chained replacements are one replacement of each character: no later one touches what an
      earlier one wrote. */
  lemma {:induction false} ChainIsPerCharacter(value: string)
    ensures Chain(value) == Escape(value)
  {
    if value != [] {
      assert value == [value[0]] + value[1..];
      ChainAppends([value[0]], value[1..]);
      ChainChar(value[0]);
      ChainIsPerCharacter(value[1..]);
    }
  }

  lemma QuoteIsEscape(value: string)
    ensures Quote(value) == "\"" + Escape(value) + "\""
  {
    ChainIsPerCharacter(value);
  }

  function Join(words: seq<string>): string {
    if words == [] then [] else if |words| == 1 then Quote(words[0]) else Quote(words[0]) + " " + Join(words[1..])
  }

  lemma {:induction false} NoRawNewline(words: seq<string>)
    ensures '\n' !in Join(words)
  {
    if words != [] {
      QuoteIsEscape(words[0]);
      EscapedHasNoNewline(words[0]);
      if |words| > 1 { NoRawNewline(words[1..]); }
    }
  }

  lemma {:induction false} EscapedHasNoNewline(value: string)
    ensures '\n' !in Escape(value)
  {
    if value != [] { EscapedHasNoNewline(value[1..]); }
  }

  // ------------------------------------------------------------------
  // The reader
  // ------------------------------------------------------------------

  predicate Space(c: char) { c == ' ' || c == '\t' || c == '\n' || c == '\r' }

  /** The one-character escapes; numeric escapes are not modelled. */
  function Unescape(c: char): Option<char> {
    if c == '\\' || c == '"' || c == '\'' then Some(c)
    else if c == 'n' then Some('\n')
    else if c == 't' then Some('\t')
    else if c == 'r' then Some('\r')
    else if c == 's' then Some(' ')
    else None
  }

  /** A quoted item, from after its opening quote: its text, and what follows the closing quote. */
  function Quoted(s: string, quote: char): (r: Option<(string, string)>)
    ensures r.Some? ==> |r.value.1| < |s|
  {
    if s == [] then None
    else if s[0] == quote then Some(("", s[1..]))
    else if s[0] == '\\' then
      if |s| == 1 || Unescape(s[1]) == None then None
      else
        match Quoted(s[2..], quote)
        case None => None
        case Some((text, rest)) => Some(([Unescape(s[1]).value] + text, rest))
    else
      match Quoted(s[1..], quote)
      case None => None
      case Some((text, rest)) => Some(([s[0]] + text, rest))
  }

  /** An unquoted item runs to the next space. */
  function Bare(s: string): (r: Option<(string, string)>)
    ensures r.Some? ==> |r.value.1| <= |s|
    ensures r.Some? && s != [] && !Space(s[0]) ==> |r.value.1| < |s|
  {
    if s == [] || Space(s[0]) then Some(("", s))
    else if s[0] == '\\' then
      if |s| == 1 || Unescape(s[1]) == None then None
      else
        match Bare(s[2..])
        case None => None
        case Some((text, rest)) => Some(([Unescape(s[1]).value] + text, rest))
    else
      match Bare(s[1..])
      case None => None
      case Some((text, rest)) => Some(([s[0]] + text, rest))
  }

  /** The items of a line; a closing quote must be followed by a space or the end. */
  function Items(s: string): Option<seq<string>>
    decreases |s|
  {
    if s == [] then Some([])
    else if Space(s[0]) then Items(s[1..])
    else
      var item := if s[0] == '"' || s[0] == '\'' then Quoted(s[1..], s[0]) else Bare(s);
      match item
      case None => None
      case Some((text, rest)) =>
        if rest != [] && !Space(rest[0]) then None
        else
          match Items(rest)
          case None => None
          case Some(items) => Some([text] + items)
  }

  /** %% stands for a percent sign; every other specifier depends on the host. */
  function Specifiers(s: string): Option<string> {
    if s == [] then Some([])
    else if s[0] == '%' then
      if |s| == 1 || s[1] != '%' then None
      else
        match Specifiers(s[2..])
        case None => None
        case Some(text) => Some("%" + text)
    else
      match Specifiers(s[1..])
      case None => None
      case Some(text) => Some([s[0]] + text)
  }

  function Each(items: seq<string>, f: string -> Option<string>): (r: Option<seq<string>>)
    ensures r.Some? ==> |r.value| == |items| && forall i | 0 <= i < |items| :: f(items[i]) == Some(r.value[i])
    ensures (forall i | 0 <= i < |items| :: f(items[i]).Some?) ==> r.Some?
  {
    if items == [] then Some([])
    else
      match (f(items[0]), Each(items[1..], f))
      case (Some(first), Some(rest)) => Some([first] + rest)
      case _ => None
  }

  /** An Environment= line: items, then specifiers. */
  function ReadEnvironment(line: string): Option<seq<string>> {
    match Items(line)
    case None => None
    case Some(items) => Each(items, Specifiers)
  }

  // ------------------------------------------------------------------
  // Round trips
  // ------------------------------------------------------------------

  function Percents(value: string): string {
    if value == [] then [] else Percent(value[0]) + Percents(value[1..])
  }

  lemma QuotedPlain(c: char, more: string)
    requires c != '"' && c != '\\'
    ensures Quoted([c] + more, '"') == match Quoted(more, '"')
                                      case None => None
                                      case Some((text, rest)) => Some(([c] + text, rest))
  {
    assert ([c] + more)[1..] == more;
  }

  lemma QuotedEscape(c: char, more: string)
    requires Unescape(c).Some?
    ensures Quoted("\\" + [c] + more, '"') == match Quoted(more, '"')
                                              case None => None
                                              case Some((text, rest)) => Some(([Unescape(c).value] + text, rest))
  {
    assert ("\\" + [c] + more)[2..] == more;
  }

  function Percent(c: char): string { if c == '%' then "%%" else [c] }

  lemma QuotedChar(c: char, more: string)
    ensures Quoted(EscapeChar(c) + more, '"') == match Quoted(more, '"')
                                                 case None => None
                                                 case Some((text, rest)) => Some((Percent(c) + text, rest))
  {
    if c == '%' {
      assert "%%" + more == ['%'] + (['%'] + more);
      QuotedPlain('%', more);
      QuotedPlain('%', ['%'] + more);
      var r := Quoted(more, '"');
      assert r.Some? ==> ['%'] + (['%'] + r.value.0) == "%%" + r.value.0;
    } else if c == '\\' || c == '"' || c == '\n' {
      assert EscapeChar(c) == "\\" + [if c == '\n' then 'n' else c];
      QuotedEscape(if c == '\n' then 'n' else c, more);
    } else {
      QuotedPlain(c, more);
    }
  }

  lemma Regroup(a: string, b: string, c: string)
    ensures (a + b) + c == a + (b + c)
  {
  }

  lemma {:induction false} QuotedReads(value: string, rest: string)
    ensures Quoted(Escape(value) + ("\"" + rest), '"') == Some((Percents(value), rest))
  {
    var tail := "\"" + rest;
    if value == [] {
      assert Escape(value) + tail == tail && tail[1..] == rest;
    } else {
      var more := Escape(value[1..]) + tail;
      QuotedReads(value[1..], rest);
      Regroup(EscapeChar(value[0]), Escape(value[1..]), tail);
      QuotedChar(value[0], more);

    }
  }

  lemma {:induction false} SpecifiersRead(value: string)
    ensures Specifiers(Percents(value)) == Some(value)
  {
    if value != [] {
      SpecifiersRead(value[1..]);
      var rest := Percents(value[1..]);
      if value[0] == '%' {
        assert ("%%" + rest)[2..] == rest;
      } else {
        assert ([value[0]] + rest)[1..] == rest;
      }
      assert [value[0]] + value[1..] == value;
    }
  }

  /** Reading one printed argument off the front of a line. */
  lemma ItemsStep(value: string, rest: string)
    requires rest == "" || Space(rest[0])
    ensures Items(Quote(value) + rest) ==
              match Items(rest) case None => None case Some(items) => Some([Percents(value)] + items)
  {
    QuoteIsEscape(value);
    var line := Quote(value) + rest;
    assert line[0] == '"';
    assert line[1..] == Escape(value) + ("\"" + rest);
    QuotedReads(value, rest);
    assert Quoted(line[1..], '"') == Some((Percents(value), rest));
  }

  lemma SpaceSkipped(rest: string)
    ensures Items(" " + rest) == Items(rest)
  {
    assert (" " + rest)[1..] == rest;
  }

  function PercentsOf(words: seq<string>): (r: seq<string>)
    ensures |r| == |words| && forall i | 0 <= i < |words| :: r[i] == Percents(words[i])
  {
    seq(|words|, i requires 0 <= i < |words| => Percents(words[i]))
  }

  lemma PercentsOfCons(words: seq<string>)
    requires words != []
    ensures PercentsOf(words) == [Percents(words[0])] + PercentsOf(words[1..])
  {
  }

  lemma {:induction false} ItemsRead(words: seq<string>)
    ensures Items(Join(words)) == Some(PercentsOf(words))
  {
    if words == [] {
      assert PercentsOf(words) == [];
    } else {
      var rest := if |words| == 1 then "" else " " + Join(words[1..]);
      if |words| > 1 { Regroup(Quote(words[0]), " ", Join(words[1..])); }
      assert Join(words) == Quote(words[0]) + rest;
      ItemsStep(words[0], rest);
      ItemsRead(words[1..]);
      if |words| > 1 { SpaceSkipped(Join(words[1..])); }
      PercentsOfCons(words);
    }
  }

  /** Environment= lines read back exactly. */
  lemma EnvironmentRoundTrip(words: seq<string>)
    ensures ReadEnvironment(Join(words)) == Some(words)
  {
    ItemsRead(words);
    var items := PercentsOf(words);
    forall i | 0 <= i < |words| ensures Specifiers(items[i]) == Some(words[i]) {
      SpecifiersRead(words[i]);
    }
    assert Each(items, Specifiers).value == words;
  }
}
