/**
 The byte stream that working_tree_sha256 feeds to its digest: length-prefixed fields, grouped into
 one record for each path. It is uniquely decodable, so different trees give different streams.
 */
module DigestStream {
  import opened Wrappers

  type Byte = b: int | 0 <= b < 256
  type Bytes = seq<Byte>

  datatype Field = Field(tag: Bytes, value: Bytes)

  const TAG_BOUND: nat := 0x1_0000_0000
  const VALUE_BOUND: nat := 0x1_0000_0000_0000_0000

  function Power256(width: nat): nat {
    if width == 0 then 1 else 256 * Power256(width - 1)
  }

  lemma Bounds()
    ensures Power256(4) == TAG_BOUND && Power256(8) == VALUE_BOUND
  {
    assert Power256(2) == 0x1_0000;
    assert Power256(3) == 0x100_0000;
    assert Power256(4) == TAG_BOUND;
    assert Power256(5) == 0x100_0000_0000;
    assert Power256(6) == 0x1_0000_0000_0000;
    assert Power256(7) == 0x100_0000_0000_0000;
  }

  /** int.to_bytes(width, "big"), for a number that fits. */
  function BigEndian(n: nat, width: nat): (r: Bytes)
    ensures |r| == width
  {
    if width == 0 then [] else BigEndian(n / 256, width - 1) + [n % 256]
  }

  function Number(bytes: Bytes): nat {
    if bytes == [] then 0 else 256 * Number(bytes[..|bytes| - 1]) + bytes[|bytes| - 1]
  }

  lemma {:induction false} NumberOfBigEndian(n: nat, width: nat)
    requires n < Power256(width)
    ensures Number(BigEndian(n, width)) == n
  {
    if width > 0 {
      NumberOfBigEndian(n / 256, width - 1);
      assert BigEndian(n, width)[..width - 1] == BigEndian(n / 256, width - 1);
    }
  }

  // ------------------------------------------------------------------
  // Fields
  // ------------------------------------------------------------------

  /** Neither length overflows its prefix. */
  predicate Fits(f: Field) {
    |f.tag| < TAG_BOUND && |f.value| < VALUE_BOUND
  }

  predicate AllFit(fields: seq<Field>) {
    forall i | 0 <= i < |fields| :: Fits(fields[i])
  }

  function EncodeField(f: Field): Bytes {
    BigEndian(|f.tag|, 4) + f.tag + BigEndian(|f.value|, 8) + f.value
  }

  function Encode(fields: seq<Field>): Bytes {
    if fields == [] then [] else EncodeField(fields[0]) + Encode(fields[1..])
  }

  /** Split off a chunk whose length is given in its first width bytes. */
  function TakeChunk(stream: Bytes, width: nat): (r: Option<(Bytes, Bytes)>)
    ensures r.Some? ==> |r.value.1| + width <= |stream|
  {
    if |stream| < width then None
    else
      var n := Number(stream[..width]);
      if |stream| < width + n then None else Some((stream[width..width + n], stream[width + n..]))
  }

  function Decode(stream: Bytes): Option<seq<Field>>
    decreases |stream|
  {
    if stream == [] then Some([])
    else
      match TakeChunk(stream, 4)
      case None => None
      case Some((tag, more)) =>
        match TakeChunk(more, 8)
        case None => None
        case Some((value, rest)) =>
          match Decode(rest)
          case None => None
          case Some(fields) => Some([Field(tag, value)] + fields)
  }

  lemma ChunkTaken(chunk: Bytes, rest: Bytes, width: nat)
    requires |chunk| < Power256(width)
    ensures TakeChunk(BigEndian(|chunk|, width) + chunk + rest, width) == Some((chunk, rest))
  {
    var stream := BigEndian(|chunk|, width) + chunk + rest;
    NumberOfBigEndian(|chunk|, width);
    assert stream[..width] == BigEndian(|chunk|, width);
    assert stream[width..width + |chunk|] == chunk;
    assert stream[width + |chunk|..] == rest;
  }

  /** Decoding inverts encoding for every list of fields within the length bounds. */
  lemma {:induction false} DecodeEncode(fields: seq<Field>)
    requires AllFit(fields)
    ensures Decode(Encode(fields)) == Some(fields)
  {
    if fields != [] {
      var f, rest := fields[0], Encode(fields[1..]);
      Bounds();
      var tail := BigEndian(|f.value|, 8) + f.value + rest;
      assert Encode(fields) == BigEndian(|f.tag|, 4) + f.tag + tail;
      ChunkTaken(f.tag, tail, 4);
      ChunkTaken(f.value, rest, 8);
      DecodeEncode(fields[1..]);
      assert [f] + fields[1..] == fields;
    }
  }

  lemma {:induction false} EncodeAppends(a: seq<Field>, b: seq<Field>)
    ensures Encode(a + b) == Encode(a) + Encode(b)
  {
    if a == [] {
      assert a + b == b;
    } else {
      assert (a + b)[1..] == a[1..] + b;
      EncodeAppends(a[1..], b);
    }
  }

  // ------------------------------------------------------------------
  // Records
  // ------------------------------------------------------------------

  /** What the stream says about one changed or untracked path. */
  datatype State =
    | Missing
    | Regular(mode: Bytes, contentSha256: Bytes)
    | Symlink(mode: Bytes, target: Bytes)
    | Submodule(mode: Bytes, head: Bytes, dirty: Option<Bytes>)

  datatype Record = Record(path: Bytes, state: State)

  datatype Kind = MissingKind | FileKind | SymlinkKind | SubmoduleKind

  /** One field of a record, before its tag is spelled out. */
  datatype Line =
    | PathLine(path: Bytes)
    | KindLine(kind: Kind)
    | ModeLine(mode: Bytes)
    | ContentLine(sha256: Bytes)
    | TargetLine(target: Bytes)
    | HeadLine(head: Bytes)
    | DirtyLine(sha256: Bytes)

  function StateLines(state: State): seq<Line> {
    match state
    case Missing => [KindLine(MissingKind)]
    case Regular(mode, sha) => [ModeLine(mode), KindLine(FileKind), ContentLine(sha)]
    case Symlink(mode, target) => [ModeLine(mode), KindLine(SymlinkKind), TargetLine(target)]
    case Submodule(mode, head, None) => [ModeLine(mode), KindLine(SubmoduleKind), HeadLine(head)]
    case Submodule(mode, head, Some(dirty)) =>
      [ModeLine(mode), KindLine(SubmoduleKind), HeadLine(head), DirtyLine(dirty)]
  }

  function RecordLines(r: Record): seq<Line> {
    [PathLine(r.path)] + StateLines(r.state)
  }

  function TreeLines(records: seq<Record>): seq<Line> {
    if records == [] then [] else RecordLines(records[0]) + TreeLines(records[1..])
  }

  /** The reader of the record grammar: a state is told apart by its kind, and a dirty submodule by
      the field that follows. */
  function ParseState(lines: seq<Line>): (r: Option<(State, seq<Line>)>)
    ensures r.Some? ==> |r.value.1| < |lines|
  {
    if |lines| >= 1 && lines[0] == KindLine(MissingKind) then Some((Missing, lines[1..]))
    else if |lines| >= 3 && lines[0].ModeLine? && lines[1].KindLine? then
      var mode, kind, third, rest := lines[0].mode, lines[1].kind, lines[2], lines[3..];
      if kind == FileKind && third.ContentLine? then Some((Regular(mode, third.sha256), rest))
      else if kind == SymlinkKind && third.TargetLine? then Some((Symlink(mode, third.target), rest))
      else if kind == SubmoduleKind && third.HeadLine? then
        if rest != [] && rest[0].DirtyLine?
        then Some((Submodule(mode, third.head, Some(rest[0].sha256)), rest[1..]))
        else Some((Submodule(mode, third.head, None), rest))
      else None
    else None
  }

  function ParseTree(lines: seq<Line>): Option<seq<Record>>
    decreases |lines|
  {
    if lines == [] then Some([])
    else if !lines[0].PathLine? then None
    else
      match ParseState(lines[1..])
      case None => None
      case Some((state, rest)) =>
        match ParseTree(rest)
        case None => None
        case Some(records) => Some([Record(lines[0].path, state)] + records)
  }

  lemma StateParses(state: State, rest: seq<Line>)
    requires rest == [] || rest[0].PathLine?
    ensures ParseState(StateLines(state) + rest) == Some((state, rest))
  {
    var lines := StateLines(state) + rest;
    assert lines[|StateLines(state)|..] == rest;
  }

  lemma AfterFirst(x: Line, y: seq<Line>, z: seq<Line>)
    ensures (([x] + y) + z)[1..] == y + z
    ensures (([x] + y) + z)[0] == x
  {
    assert ([x] + y) + z == [x] + (y + z);
  }

  /** Parsing inverts the record grammar. */
  lemma {:induction false} TreeParses(records: seq<Record>)
    ensures ParseTree(TreeLines(records)) == Some(records)
    ensures records != [] ==> TreeLines(records) != [] && TreeLines(records)[0].PathLine?
  {
    if records != [] {
      var r, rest := records[0], TreeLines(records[1..]);
      TreeParses(records[1..]);
      StateParses(r.state, rest);
      AfterFirst(PathLine(r.path), StateLines(r.state), rest);
      assert [r] + records[1..] == records;
    }
  }

  // ------------------------------------------------------------------
  // Tags
  // ------------------------------------------------------------------

  // The ASCII bytes of the labels and kinds.
  const PATH: Bytes := [112, 97, 116, 104]  // path
  const KIND: Bytes := [107, 105, 110, 100]  // kind
  const MODE: Bytes := [109, 111, 100, 101]  // mode
  const TARGET: Bytes := [116, 97, 114, 103, 101, 116]  // target
  const MISSING: Bytes := [109, 105, 115, 115, 105, 110, 103]  // missing
  const FILE: Bytes := [102, 105, 108, 101]  // file
  const SYMLINK: Bytes := [115, 121, 109, 108, 105, 110, 107]  // symlink
  const SUBMODULE: Bytes := [115, 117, 98, 109, 111, 100, 117, 108, 101]  // submodule
  const SHA256: Bytes := [115, 104, 97, 50, 53, 54]  // sha256
  const HEAD: Bytes := SUBMODULE + [95, 104, 101, 97, 100]  // submodule_head
  const CONTENT: Bytes := [99, 111, 110, 116, 101, 110, 116, 95] + SHA256  // content_sha256
  // submodule_working_tree_sha256
  const DIRTY: Bytes := SUBMODULE + [95, 119, 111, 114, 107, 105, 110, 103, 95, 116, 114, 101, 101, 95] + SHA256

  function KindBytes(kind: Kind): Bytes {
    match kind
    case MissingKind => MISSING
    case FileKind => FILE
    case SymlinkKind => SYMLINK
    case SubmoduleKind => SUBMODULE
  }

  function FieldOf(line: Line): Field {
    match line
    case PathLine(path) => Field(PATH, path)
    case KindLine(kind) => Field(KIND, KindBytes(kind))
    case ModeLine(mode) => Field(MODE, mode)
    case ContentLine(sha256) => Field(CONTENT, sha256)
    case TargetLine(target) => Field(TARGET, target)
    case HeadLine(head) => Field(HEAD, head)
    case DirtyLine(sha256) => Field(DIRTY, sha256)
  }

  /** Lengths and first bytes are enough to tell the labels apart. */
  lemma TagsDiffer()
    ensures |PATH| == |KIND| == |MODE| == 4 && PATH[0] == 112 && KIND[0] == 107 && MODE[0] == 109
    ensures |TARGET| == 6 && |CONTENT| == 14 && |HEAD| == 14 && |DIRTY| == 29
    ensures CONTENT[0] == 99 && HEAD[0] == 115
  {
  }

  lemma KindsDiffer(a: Kind, b: Kind)
    requires KindBytes(a) == KindBytes(b)
    ensures a == b
  {
    assert |MISSING| == |SYMLINK| == 7 && |FILE| == 4 && |SUBMODULE| == 9;
    assert MISSING[0] == 109 && SYMLINK[0] == 115;
  }

  lemma LinesDiffer(a: Line, b: Line)
    requires FieldOf(a) == FieldOf(b)
    ensures a == b
  {
    TagsDiffer();
    if a.KindLine? && b.KindLine? { KindsDiffer(a.kind, b.kind); }
  }

  function FieldsOf(lines: seq<Line>): (r: seq<Field>)
    ensures |r| == |lines| && forall i | 0 <= i < |lines| :: r[i] == FieldOf(lines[i])
  {
    if lines == [] then [] else [FieldOf(lines[0])] + FieldsOf(lines[1..])
  }

  function TreeFields(records: seq<Record>): seq<Field> {
    FieldsOf(TreeLines(records))
  }

  /** The stream hashed for a tree. */
  function Stream(records: seq<Record>): Bytes {
    Encode(TreeFields(records))
  }

  /** Different lists of path records give different streams. */
  lemma StreamIsInjective(a: seq<Record>, b: seq<Record>)
    requires AllFit(TreeFields(a)) && AllFit(TreeFields(b))
    requires Stream(a) == Stream(b)
    ensures a == b
  {
    DecodeEncode(TreeFields(a));
    DecodeEncode(TreeFields(b));
    SameLines(TreeLines(a), TreeLines(b));
    TreeParses(a);
    TreeParses(b);
  }

  // ------------------------------------------------------------------
  // The layout, byte by byte
  // ------------------------------------------------------------------

  /** The bytes are those of an ASCII text. */
  predicate Spells(bytes: Bytes, text: string) {
    |bytes| == |text| && forall i | 0 <= i < |text| :: bytes[i] == text[i] as int < 128
  }

  /** The labels. */
  lemma LabelsAreText()
    ensures Spells(PATH, "path") && Spells(KIND, "kind") && Spells(MODE, "mode") && Spells(TARGET, "target")
    ensures Spells(CONTENT, "content_sha256") && Spells(HEAD, "submodule_head")
  {
  }

  lemma LongLabelIsText()
    ensures Spells(DIRTY, "submodule_working_tree_sha256")
  {
  }

  /** And the kinds. */
  lemma KindsAreText()
    ensures Spells(MISSING, "missing") && Spells(FILE, "file")
    ensures Spells(SYMLINK, "symlink") && Spells(SUBMODULE, "submodule")
  {
  }

  /** A label's length has four bytes, the most significant first. */
  lemma LabelLengthMeans(n: nat)
    requires n < TAG_BOUND
    ensures var b: seq<int> := BigEndian(n, 4);
            n == 0x100_0000 * b[0] + 0x1_0000 * b[1] + 0x100 * b[2] + b[3]
  {
    var n1 := n / 256;
    var n2 := n1 / 256;
    LastByte(n, 4);
    LastByte(n1, 3);
    LastByte(n2, 2);
    LastByte(n2 / 256, 1);
  }

  /** A value's has eight. */
  lemma ValueLengthMeans(n: nat)
    requires n < VALUE_BOUND
    ensures var b: seq<int> := BigEndian(n, 8);
            n == 0x100_0000_0000_0000 * b[0] + 0x1_0000_0000_0000 * b[1] + 0x100_0000_0000 * b[2]
                 + 0x1_0000_0000 * b[3] + 0x100_0000 * b[4] + 0x1_0000 * b[5] + 0x100 * b[6] + b[7]
  {
    var n1 := n / 256;
    var n2 := n1 / 256;
    var n3 := n2 / 256;
    LastByte(n, 8);
    LastByte(n1, 7);
    LastByte(n2, 6);
    LastByte(n3, 5);
    LabelLengthMeans(n3 / 256);
  }

  lemma LastByte(n: nat, width: nat)
    requires width > 0
    ensures BigEndian(n, width)[width - 1] == n % 256
    ensures BigEndian(n, width)[..width - 1] == BigEndian(n / 256, width - 1)
  {
  }

  /** A field is the label with its length in front, and then the value with its own. */
  lemma FieldMeans(f: Field)
    ensures var e, n := EncodeField(f), |f.tag|;
            && |e| == 12 + n + |f.value|
            && e[..4] == BigEndian(n, 4) && e[4..4 + n] == f.tag
            && e[4 + n..12 + n] == BigEndian(|f.value|, 8) && e[12 + n..] == f.value
  {
  }

  /** What the stream says of one path, label by label. */
  lemma RecordMeans(path: Bytes, mode: Bytes, text: Bytes, dirty: Bytes)
    ensures FieldsOf(RecordLines(Record(path, Missing))) == [Field(PATH, path), Field(KIND, MISSING)]
    ensures FieldsOf(RecordLines(Record(path, Regular(mode, text)))) ==
              [Field(PATH, path), Field(MODE, mode), Field(KIND, FILE), Field(CONTENT, text)]
    ensures FieldsOf(RecordLines(Record(path, Symlink(mode, text)))) ==
              [Field(PATH, path), Field(MODE, mode), Field(KIND, SYMLINK), Field(TARGET, text)]
    ensures FieldsOf(RecordLines(Record(path, Submodule(mode, text, None)))) ==
              [Field(PATH, path), Field(MODE, mode), Field(KIND, SUBMODULE), Field(HEAD, text)]
    ensures FieldsOf(RecordLines(Record(path, Submodule(mode, text, Some(dirty))))) ==
              [Field(PATH, path), Field(MODE, mode), Field(KIND, SUBMODULE), Field(HEAD, text), Field(DIRTY, dirty)]
  {
  }

  lemma SameLines(a: seq<Line>, b: seq<Line>)
    requires FieldsOf(a) == FieldsOf(b)
    ensures a == b
  {
    forall i | 0 <= i < |a| ensures a[i] == b[i] {
      assert FieldsOf(a)[i] == FieldsOf(b)[i];
      LinesDiffer(a[i], b[i]);
    }
  }

  // ------------------------------------------------------------------
  // The writer
  // ------------------------------------------------------------------

  /** The digest object, by the bytes it has been updated with. */
  class DigestWriter {
    var stream: Bytes

    constructor ()
      ensures stream == []
    {
      stream := [];
    }

    method Update(bytes: Bytes)
      modifies this
      ensures stream == old(stream) + bytes
    {
      stream := stream + bytes;
    }

    /** _add_digest_field; to_bytes raises when a length does not fit its prefix. */
    method AddField(f: Field) returns (ok: bool)
      modifies this
      ensures ok <==> Fits(f)
      ensures ok ==> stream == old(stream) + EncodeField(f)
    {
      if |f.tag| >= TAG_BOUND { return false; }
      Update(BigEndian(|f.tag|, 4));
      Update(f.tag);
      if |f.value| >= VALUE_BOUND { return false; }
      Update(BigEndian(|f.value|, 8));
      Update(f.value);
      ok := true;
    }

    method AddFields(fields: seq<Field>) returns (ok: bool)
      modifies this
      ensures ok <==> AllFit(fields)
      ensures ok ==> stream == old(stream) + Encode(fields)
    {
      ghost var start := stream;
      for i := 0 to |fields|
        invariant AllFit(fields[..i])
        invariant stream == start + Encode(fields[..i])
      {
        ok := AddField(fields[i]);
        if !ok { return; }
        assert fields[..i + 1] == fields[..i] + [fields[i]];
        EncodeAppends(fields[..i], [fields[i]]);
        assert Encode([fields[i]]) == EncodeField(fields[i]) + [];
      }
      assert fields[..|fields|] == fields;
      ok := true;
    }
  }

  lemma {:induction false} FieldsAppend(a: seq<Line>, b: seq<Line>)
    ensures FieldsOf(a + b) == FieldsOf(a) + FieldsOf(b)
  {
    var joined, parts := FieldsOf(a + b), FieldsOf(a) + FieldsOf(b);
    assert forall i | 0 <= i < |joined| :: joined[i] == parts[i];
  }

  lemma {:induction false} TreeAppend(a: seq<Record>, b: seq<Record>)
    ensures TreeLines(a + b) == TreeLines(a) + TreeLines(b)
  {
    if a == [] {
      assert a + b == b;
    } else {
      TreeAppend(a[1..], b);
      assert (a + b)[1..] == a[1..] + b && (a + b)[0] == a[0];
      Regroup(RecordLines(a[0]), TreeLines(a[1..]), TreeLines(b));
    }
  }

  lemma Regroup(x: seq<Line>, y: seq<Line>, z: seq<Line>)
    ensures x + (y + z) == (x + y) + z
  {
  }

  /** A prefix of the records overflows only if the whole does. */
  lemma PrefixFits(records: seq<Record>, i: nat)
    requires i <= |records| && AllFit(TreeFields(records))
    ensures AllFit(TreeFields(records[..i]))
  {
    TreeAppend(records[..i], records[i..]);
    assert records[..i] + records[i..] == records;
    FieldsAppend(TreeLines(records[..i]), TreeLines(records[i..]));
    var fields, more := TreeFields(records[..i]), TreeFields(records[i..]);
    assert forall k | 0 <= k < |fields| :: fields[k] == (fields + more)[k];
  }

  /** One more path: its fields go to the end of the stream. */
  lemma StreamSnoc(records: seq<Record>, r: Record)
    ensures TreeFields(records + [r]) == TreeFields(records) + FieldsOf(RecordLines(r))
    ensures Stream(records + [r]) == Stream(records) + Encode(FieldsOf(RecordLines(r)))
  {
    TreeAppend(records, [r]);
    assert TreeLines([r]) == RecordLines(r) + TreeLines([]);
    FieldsAppend(TreeLines(records), RecordLines(r));
    EncodeAppends(TreeFields(records), FieldsOf(RecordLines(r)));
  }

  lemma FitParts(a: seq<Field>, b: seq<Field>)
    ensures AllFit(a + b) <==> AllFit(a) && AllFit(b)
  {
    assert forall i | 0 <= i < |a| :: (a + b)[i] == a[i];
    assert forall i | 0 <= i < |b| :: (a + b)[|a| + i] == b[i];
  }

  /** The loop of working_tree_sha256 over the sorted paths, up to the final hash. */
  method WorkingTree(records: seq<Record>) returns (stream: Bytes, ok: bool)
    ensures ok <==> AllFit(TreeFields(records))
    ensures ok ==> stream == Stream(records)
  {
    var writer := new DigestWriter();
    stream := [];
    for i := 0 to |records|
      invariant AllFit(TreeFields(records[..i]))
      invariant writer.stream == Stream(records[..i])
    {
      assert records[..i + 1] == records[..i] + [records[i]];
      StreamSnoc(records[..i], records[i]);
      FitParts(TreeFields(records[..i]), FieldsOf(RecordLines(records[i])));
      ok := writer.AddFields(FieldsOf(RecordLines(records[i])));
      if !ok {
        if AllFit(TreeFields(records)) { PrefixFits(records, i + 1); }
        return;
      }
    }
    assert records[..|records|] == records;
    stream, ok := writer.stream, true;
  }
}
