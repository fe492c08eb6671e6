/**
 Archive member names. path_key turns a name into a normalised key; the replay compares keys with
 startswith. The model works on the components of a key, and this file shows that nothing is lost.
 */
module LayerPaths {
  import opened Wrappers

  /** The components of a key; the archive root is []. */
  type Path = seq<string>

  const DOT: string := "."
  const DOTDOT: string := ".."

  /** while name.startswith('./'): name = name[2:] */
  function StripDots(name: string): (r: string)
    ensures !("./" <= r)
    ensures |r| <= |name|
  {
    if "./" <= name then StripDots(name[2..]) else name
  }

  /** The pieces of a name between slashes; one more than there are slashes. */
  function Split(name: string): (r: seq<string>)
    ensures r != []
    ensures forall i | 0 <= i < |r| :: '/' !in r[i]
  {
    if name == [] then [""]
    else
      var rest := Split(name[1..]);
      if name[0] == '/' then [""] + rest else [[name[0]] + rest[0]] + rest[1..]
  }

  function Normal(pieces: seq<string>): (r: Path)
    ensures forall i | 0 <= i < |r| :: r[i] in pieces && r[i] != "" && r[i] != DOT
  {
    if pieces == [] then []
    else if pieces[0] == "" || pieces[0] == DOT then Normal(pieces[1..])
    else [pieces[0]] + Normal(pieces[1..])
  }

  /** path_key: leading ./ dropped, then refuse absolute names, parent references and NUL. */
  function PathKey(name: string): (r: Option<Path>)
    ensures r.Some? ==> WellFormed(r.value)
  {
    var stripped := StripDots(name);
    var key := Normal(Split(stripped));
    if "/" <= stripped || DOTDOT in key || '\0' in stripped then None else Some(key)
  }

  /** Non-empty components without slashes and without . or .. */
  predicate WellFormed(p: Path) {
    forall i | 0 <= i < |p| :: p[i] != "" && p[i] != DOT && p[i] != DOTDOT && '/' !in p[i]
  }

  /** The string key of a path: its components with slashes between them. */
  function Join(p: Path): string {
    if p == [] then "" else if |p| == 1 then p[0] else p[0] + "/" + Join(p[1..])
  }

  lemma {:induction false} JoinSplits(p: Path)
    requires p != [] && forall i | 0 <= i < |p| :: '/' !in p[i]
    ensures Split(Join(p)) == p
  {
    if |p| == 1 {
      SplitWord(p[0]);
    } else {
      JoinSplits(p[1..]);
      SplitAt(p[0], Join(p[1..]));
    }
  }

  lemma {:induction false} SplitWord(word: string)
    requires '/' !in word
    ensures Split(word) == [word]
  {
    if word != [] {
      SplitWord(word[1..]);
      assert [word[0]] + word[1..] == word;
    }
  }

  lemma {:induction false} SplitAt(word: string, rest: string)
    requires '/' !in word
    ensures Split(word + "/" + rest) == [word] + Split(rest)
  {
    var whole := word + "/" + rest;
    if word == [] {
      assert whole[1..] == rest;
    } else {
      SplitAt(word[1..], rest);
      assert whole[1..] == word[1..] + "/" + rest;
      assert [word[0]] + word[1..] == word;
    }
  }

  lemma {:induction false} NormalFixed(p: Path)
    requires WellFormed(p)
    ensures Normal(p) == p
  {
    if p != [] { NormalFixed(p[1..]); }
  }

  /** A key is a fixed point of path_key: normalising again changes nothing, and distinct paths
      have distinct keys. */
  lemma KeyIsNormal(p: Path)
    requires WellFormed(p) && p != [] && forall i | 0 <= i < |p| :: '\0' !in p[i]
    ensures PathKey(Join(p)) == Some(p)
  {
    var name := Join(p);
    assert p[0] != [] && p[0] <= name && name[0] == p[0][0];
    FirstPiece(p);
    JoinSplits(p);
    NormalFixed(p);
    JoinHasNoNul(p);
  }

  /** No joined path starts like a relative one. */
  lemma FirstPiece(p: Path)
    requires WellFormed(p) && p != []
    ensures !("./" <= Join(p))
  {
    JoinSplits(p);
    var name := Join(p);
    if "./" <= name {
      assert name == DOT + "/" + name[2..];
      SplitAt(DOT, name[2..]);
    }
  }

  lemma {:induction false} JoinHasNoNul(p: Path)
    requires forall i | 0 <= i < |p| :: '\0' !in p[i]
    ensures '\0' !in Join(p)
  {
    if |p| > 1 { JoinHasNoNul(p[1..]); }
  }

  /** key.startswith(prefix + '/') on the strings is: a proper prefix of the components. */
  lemma {:induction false} StartsWithIsBelow(q: Path, p: Path)
    requires WellFormed(q) && WellFormed(p) && q != [] && p != []
    ensures Join(q) + "/" <= Join(p) <==> q < p
  {
    if Join(q) + "/" <= Join(p) {
      var rest := Join(p)[|Join(q)| + 1..];
      assert Join(p) == Join(q) + "/" + rest;
      SplitJoin(q, rest);
      JoinSplits(p);
    } else if q < p {
      JoinPrefix(q, p);
    }
  }

  lemma Associates(a: string, b: string, c: string, d: string, e: string)
    ensures a + b + c + d + e == a + b + (c + d + e)
  {
  }

  lemma Prepends(word: string, p: Path, more: Path)
    ensures [word] + (p + more) == ([word] + p) + more
  {
  }

  lemma {:induction false} SplitJoin(q: Path, rest: string)
    requires q != [] && forall i | 0 <= i < |q| :: '/' !in q[i]
    ensures Split(Join(q) + "/" + rest) == q + Split(rest)
  {
    if |q| == 1 {
      SplitAt(q[0], rest);
    } else {
      SplitJoin(q[1..], rest);
      SplitAt(q[0], Join(q[1..]) + "/" + rest);
      Associates(q[0], "/", Join(q[1..]), "/", rest);
      Prepends(q[0], q[1..], Split(rest));
      assert [q[0]] + q[1..] == q;
    }
  }

  lemma {:induction false} JoinPrefix(q: Path, p: Path)
    requires q != [] && q < p
    ensures Join(q) + "/" <= Join(p)
  {
    if |q| > 1 { JoinPrefix(q[1..], p[1..]); }
  }
}
