/**
 layer_inventory: the replay of OCI layer changesets into a flat inventory, and its agreement with
 the layer semantics of the OCI Image Format Specification, "Image Layer Filesystem Changeset"
 (sections "Whiteouts" and "Opaque Whiteout").
 */
module LayerReplay {
  import opened Wrappers
  import opened LayerPaths

  datatype Item =
    | File(mode: int, sha256: string)
    | Link(target: string)
    | HardLink(mode: int, to: Path)
    | Directory(mode: int)
    | Special(mode: int)

  type Inventory = map<Path, Item>

  /** A tar member as the archive reader presents it. */
  datatype Node =
    | FileNode(mode: int, sha256: string)
    | SymbolicNode(target: string)
    | HardNode(mode: int, linkName: string)
    | DirectoryNode(mode: int)
    | OtherNode(mode: int)

  datatype Member = Member(name: string, node: Node)

  // ------------------------------------------------------------------
  // What one member asks for
  // ------------------------------------------------------------------

  datatype Change =
    | Whiteout(victim: Path)
    | Opaque(directory: Path)
    | Put(path: Path, item: Item)

  datatype Parsed = Unsafe | Skipped | Parsed(path: Path, change: Change)

  const OPAQUE: string := ".wh..wh..opq"
  const WHITEOUT: string := ".wh."

  function Bits(mode: int): int { mode % 4096 }

  function Parse(m: Member): (r: Parsed)
    ensures r.Parsed? ==> r.path != []
    ensures r.Parsed? && r.change.Put? ==> r.change.path == r.path
  {
    var key := PathKey(m.name);
    if key == None then Unsafe
    else if key.value == [] then Skipped
    else
      var path := key.value;
      var base, parent := path[|path| - 1], path[..|path| - 1];
      if base == OPAQUE then Parsed(path, Opaque(parent))
      else if WHITEOUT <= base then Parsed(path, Whiteout(parent + [base[4..]]))
      else
        match m.node
        case FileNode(mode, sha256) => Parsed(path, Put(path, File(Bits(mode), sha256)))
        case SymbolicNode(target) => Parsed(path, Put(path, Link(target)))
        case HardNode(mode, linkName) =>
          var to := PathKey(linkName);
          if to == None then Unsafe else Parsed(path, Put(path, HardLink(Bits(mode), to.value)))
        case DirectoryNode(mode) => Parsed(path, Put(path, Directory(Bits(mode))))
        case OtherNode(mode) => Parsed(path, Put(path, Special(Bits(mode))))
  }

  // ------------------------------------------------------------------
  // The replay, as a function of the changes read
  // ------------------------------------------------------------------

  /** The updates dictionary: the last put of each path. */
  function Updates(changes: seq<Change>): Inventory {
    if changes == [] then map[] else
    var before, last := Updates(changes[..|changes| - 1]), changes[|changes| - 1];
    if last.Put? then before[last.path := last.item] else before
  }

  /** Its insertion order: each path where it was first put. */
  function Order(changes: seq<Change>): (r: seq<Path>)
    ensures forall p :: p in r <==> p in Updates(changes)
    ensures forall i, j | 0 <= i < j < |r| :: r[i] != r[j]
  {
    if changes == [] then [] else
    var before, last := Order(changes[..|changes| - 1]), changes[|changes| - 1];
    if last.Put? && last.path !in before then before + [last.path] else before
  }

  predicate Hides(change: Change, p: Path) {
    match change
    case Whiteout(victim) => victim <= p
    case Opaque(directory) => directory < p
    case Put(_, _) => false
  }

  predicate Hidden(changes: seq<Change>, p: Path) {
    exists i | 0 <= i < |changes| :: Hides(changes[i], p)
  }

  predicate LinkAbove(lower: Inventory, updates: Inventory, p: Path) {
    exists n | 0 < n < |p| ::
      var item := if p[..n] in updates then Some(updates[p[..n]])
                  else if p[..n] in lower then Some(lower[p[..n]]) else None;
      item.Some? && (item.value.Link? || item.value.HardLink?)
  }

  /** One member after the changes read so far, unless it is refused. */
  function ReadOne(lower: Inventory, changes: seq<Change>, member: Member): Option<seq<Change>> {
    match Parse(member)
    case Unsafe => None
    case Skipped => Some(changes)
    case Parsed(path, change) =>
      if LinkAbove(lower, Updates(changes), path) then None else Some(changes + [change])
  }

  /** The reading loop: the changes of a layer, unless some member is refused. */
  function Read(lower: Inventory, members: seq<Member>): Option<seq<Change>> {
    if members == [] then Some([]) else
    var before := Read(lower, members[..|members| - 1]);
    if before == None then None else ReadOne(lower, before.value, members[|members| - 1])
  }

  function Visible(lower: Inventory, changes: seq<Change>): Inventory {
    map p | p in lower && !Hidden(changes, p) :: lower[p]
  }

  /** What an entry that goes in first clears away: a non-directory over a directory, all below it. */
  function Cleared(inventory: Inventory, name: Path, item: Item): Inventory {
    if !item.Directory? && name in inventory && inventory[name].Directory?
    then map p | p in inventory && !(name < p) :: inventory[p]
    else inventory
  }

  /** One iteration of the installing loop. */
  function InstallOne(inventory: Inventory, name: Path, item: Item): Inventory {
    Cleared(inventory, name, item)[name := item]
  }

  function Install(inventory: Inventory, order: seq<Path>, updates: Inventory): Inventory
    requires forall p | p in order :: p in updates
  {
    if order == [] then inventory else
    var last := order[|order| - 1];
    InstallOne(Install(inventory, order[..|order| - 1], updates), last, updates[last])
  }

  /** The inventory before hard links are resolved. */
  function Replayed(lower: Inventory, changes: seq<Change>): Inventory {
    Install(Visible(lower, changes), Order(changes), Updates(changes))
  }

  // ------------------------------------------------------------------
  // The insertion order of the entries dictionary
  // ------------------------------------------------------------------

  /** The keys of an inventory, each once. */
  ghost predicate Keyed(inventory: Inventory, keys: seq<Path>) {
    && (forall i, j | 0 <= i < j < |keys| :: keys[i] != keys[j])
    && forall p :: p in keys <==> p in inventory
  }

  /** The keys that are left after some were deleted, in their old order. */
  function Kept(keys: seq<Path>, left: Inventory): (r: seq<Path>)
    ensures forall p :: p in r <==> p in keys && p in left
  {
    if keys == [] then [] else
    var last, rest := keys[|keys| - 1], Kept(keys[..|keys| - 1], left);
    if last in left then rest + [last] else rest
  }

  lemma {:induction false} KeptOnce(keys: seq<Path>, left: Inventory)
    requires forall i, j | 0 <= i < j < |keys| :: keys[i] != keys[j]
    ensures forall i, j | 0 <= i < j < |Kept(keys, left)| :: Kept(keys, left)[i] != Kept(keys, left)[j]
  {
    if keys != [] { KeptOnce(keys[..|keys| - 1], left); }
  }

  /** The keys after one entry went in: cleared ones are gone, and a new one stands last. */
  function NextKeys(keys: seq<Path>, inventory: Inventory, name: Path, item: Item): seq<Path> {
    var left := Kept(keys, Cleared(inventory, name, item));
    if name in left then left else left + [name]
  }

  lemma NextKeyed(inventory: Inventory, keys: seq<Path>, name: Path, item: Item)
    requires Keyed(inventory, keys)
    ensures Keyed(InstallOne(inventory, name, item), NextKeys(keys, inventory, name, item))
  {
    KeptOnce(keys, Cleared(inventory, name, item));
  }

  function InstallKeys(keys: seq<Path>, inventory: Inventory, order: seq<Path>, updates: Inventory): seq<Path>
    requires forall p | p in order :: p in updates
  {
    if order == [] then keys else
    var last, before := order[|order| - 1], order[..|order| - 1];
    NextKeys(InstallKeys(keys, inventory, before, updates), Install(inventory, before, updates), last, updates[last])
  }

  function ReplayedKeys(keys: seq<Path>, lower: Inventory, changes: seq<Change>): seq<Path> {
    InstallKeys(Kept(keys, Visible(lower, changes)), Visible(lower, changes), Order(changes), Updates(changes))
  }

  // ------------------------------------------------------------------
  // The reference semantics
  // ------------------------------------------------------------------

  /** A path is covered when the layer puts a non-directory somewhere above it. */
  predicate Covered(changes: seq<Change>, p: Path) {
    exists q | q in Updates(changes) :: q < p && !Updates(changes)[q].Directory?
  }

  /** OCI: the layer's own entries, over the lower entries it neither hides nor covers; where in the
      archive a whiteout stands plays no part. A put below a lower file leaves both; see TreeLikeExactly. */
  function Oci(lower: Inventory, changes: seq<Change>): Inventory {
    var updates := Updates(changes);
    (map p | p in lower && !Hidden(changes, p) && !Covered(changes, p) :: lower[p]) + updates
  }

  /** No entry of the layer lies below one of its own non-directories. */
  predicate NoPutBelowFile(changes: seq<Change>) {
    forall p | p in Updates(changes) :: !Covered(changes, p)
  }

  /** Where the layer covers a surviving lower entry, the covering path was a surviving directory. */
  predicate CoversDirectories(lower: Inventory, changes: seq<Change>) {
    forall q, p | q in Updates(changes) && p in Visible(lower, changes) ::
      q < p && !Updates(changes)[q].Directory? ==>
        q in Visible(lower, changes) && lower[q].Directory?
  }

  /** Every proper ancestor of an entry is a directory entry. */
  predicate TreeLike(inventory: Inventory) {
    forall p, n | p in inventory && 0 < n < |p| :: p[..n] in inventory && inventory[p[..n]].Directory?
  }

  /** Every entry of the layer has its directories in the resulting image. */
  predicate Supported(lower: Inventory, changes: seq<Change>) {
    forall p, n | p in Updates(changes) && 0 < n < |p| ::
      p[..n] in Oci(lower, changes) && Oci(lower, changes)[p[..n]].Directory?
  }

  // ------------------------------------------------------------------
  // Replay agrees with the reference semantics
  // ------------------------------------------------------------------

  /** What an installing prefix has done to one path. */
  predicate InstalledAt(base: Inventory, order: seq<Path>, updates: Inventory, result: Inventory, p: Path)
    requires forall q | q in order :: q in updates
  {
    if p in order then p in result && result[p] == updates[p]
    else
      var dropped := exists q | q in order :: q < p && !updates[q].Directory? && q in base && base[q].Directory?;
      (p in result <==> p in base && !dropped) && (p in result ==> result[p] == base[p])
  }

  predicate Unnested(order: seq<Path>, updates: Inventory)
    requires forall q | q in order :: q in updates
  {
    forall p, q | p in order && q in order :: q < p ==> updates[q].Directory?
  }

  lemma {:induction false} InstallEffect(base: Inventory, order: seq<Path>, updates: Inventory, p: Path)
    requires forall q | q in order :: q in updates
    requires Unnested(order, updates)
    ensures InstalledAt(base, order, updates, Install(base, order, updates), p)
  {
    if order != [] {
      var last, rest := order[|order| - 1], order[..|order| - 1];
      assert order == rest + [last] && last in order;
      assert forall q | q in rest :: q in order;
      InstallEffect(base, rest, updates, p);
      InstallEffect(base, rest, updates, last);
    }
  }

  lemma PrefixesCompare(q: Path, r: Path, p: Path)
    requires q < p && r < p
    ensures q < r || r < q || q == r
  {
    assert q == p[..|q|] && r == p[..|r|];
  }

  /** What the installing loop does to one surviving lower path that the layer does not put. */
  lemma SurvivorAt(lower: Inventory, changes: seq<Change>, p: Path)
    requires NoPutBelowFile(changes)
    requires p in Visible(lower, changes) && p !in Updates(changes)
    ensures p in Replayed(lower, changes) <==>
              forall q | q in Updates(changes) && q < p && !Updates(changes)[q].Directory? ::
                !(q in Visible(lower, changes) && lower[q].Directory?)
    ensures p in Replayed(lower, changes) ==> Replayed(lower, changes)[p] == lower[p]
  {
    InstallEffect(Visible(lower, changes), Order(changes), Updates(changes), p);
  }

  lemma OtherwiseAt(lower: Inventory, changes: seq<Change>, p: Path)
    requires NoPutBelowFile(changes)
    requires p !in Visible(lower, changes) || p in Updates(changes)
    ensures p in Replayed(lower, changes) <==> p in Oci(lower, changes)
    ensures p in Replayed(lower, changes) ==> Replayed(lower, changes)[p] == Oci(lower, changes)[p]
  {
    InstallEffect(Visible(lower, changes), Order(changes), Updates(changes), p);
  }

  lemma CoveredIsDropped(lower: Inventory, changes: seq<Change>, p: Path)
    requires NoPutBelowFile(changes) && CoversDirectories(lower, changes)
    requires p in Visible(lower, changes) && p !in Updates(changes)
    ensures p in Replayed(lower, changes) <==> !Covered(changes, p)
    ensures p in Replayed(lower, changes) ==> Replayed(lower, changes)[p] == lower[p]
  {
    SurvivorAt(lower, changes, p);
    if Covered(changes, p) {
      var q :| q in Updates(changes) && q < p && !Updates(changes)[q].Directory?;
      assert q in Visible(lower, changes) && lower[q].Directory?;
    }
  }

  lemma CoveringDirectoriesAgrees(lower: Inventory, changes: seq<Change>)
    requires NoPutBelowFile(changes) && CoversDirectories(lower, changes)
    ensures Replayed(lower, changes) == Oci(lower, changes)
  {
    var code, oci := Replayed(lower, changes), Oci(lower, changes);
    forall p ensures (p in code <==> p in oci) && (p in code ==> code[p] == oci[p]) {
      if p in Visible(lower, changes) && p !in Updates(changes) {
        CoveredIsDropped(lower, changes, p);
      } else {
        OtherwiseAt(lower, changes, p);
      }
    }
  }

  /** Without nesting inside the layer, the replay is the reference semantics exactly when the layer
      covers only what hangs below surviving directories. */
  lemma ReplayIsOci(lower: Inventory, changes: seq<Change>)
    requires NoPutBelowFile(changes)
    ensures Replayed(lower, changes) == Oci(lower, changes) <==> CoversDirectories(lower, changes)
  {
    if CoversDirectories(lower, changes) {
      CoveringDirectoriesAgrees(lower, changes);
    } else {
      var q, p :| q in Updates(changes) && p in Visible(lower, changes) && q < p && !Updates(changes)[q].Directory?
                  && !(q in Visible(lower, changes) && lower[q].Directory?);
      SurvivorDiffers(lower, changes, q, p);
    }
  }

  /** A covered lower entry survives the replay when its covering path was no surviving directory. */
  lemma SurvivorDiffers(lower: Inventory, changes: seq<Change>, q: Path, p: Path)
    requires NoPutBelowFile(changes)
    requires q in Updates(changes) && p in Visible(lower, changes) && q < p && !Updates(changes)[q].Directory?
    requires !(q in Visible(lower, changes) && lower[q].Directory?)
    ensures p in Replayed(lower, changes) && p !in Oci(lower, changes)
  {
    var updates := Updates(changes);
    assert Covered(changes, p);
    SurvivorAt(lower, changes, p);
    forall r | r in updates && r < p && !updates[r].Directory? ensures r == q {
      PrefixesCompare(q, r, p);
      assert !Covered(changes, q) && !Covered(changes, r);
    }
  }

  // ------------------------------------------------------------------
  // Whiteouts act wherever they stand
  // ------------------------------------------------------------------

  lemma UpdatesSnoc(s: seq<Change>, x: Change)
    ensures Updates(s + [x]) == if x.Put? then Updates(s)[x.path := x.item] else Updates(s)
    ensures Order(s + [x]) == if x.Put? && x.path !in Order(s) then Order(s) + [x.path] else Order(s)
  {
    assert (s + [x])[..|s|] == s && (s + [x])[|s|] == x;
  }

  lemma {:induction false} UpdatesAppend(a: seq<Change>, b: seq<Change>, w: Change)
    requires !w.Put?
    ensures Updates(a + [w] + b) == Updates(a + b)
    ensures Order(a + [w] + b) == Order(a + b)
    decreases |b|
  {
    if b == [] {
      assert a + [w] + b == a + [w] && a + b == a;
      UpdatesSnoc(a, w);
    } else {
      var rest, last := b[..|b| - 1], b[|b| - 1];
      assert a + [w] + b == (a + [w] + rest) + [last];
      assert a + b == (a + rest) + [last];
      UpdatesAppend(a, rest, w);
      UpdatesSnoc(a + [w] + rest, last);
      UpdatesSnoc(a + rest, last);
    }
  }

  /** A whiteout hides the same lower entries wherever it stands in the archive, and never an entry
      of its own layer. */
  lemma WhiteoutPositionIsIrrelevant(lower: Inventory, a: seq<Change>, b: seq<Change>, w: Change)
    requires !w.Put?
    ensures Replayed(lower, a + [w] + b) == Replayed(lower, [w] + (a + b))
    ensures forall p | p in Updates(a + b) && NoPutBelowFile(a + b) :: p in Replayed(lower, a + [w] + b)
  {
    UpdatesAppend(a, b, w);
    UpdatesAppend([], a + b, w);
    assert [] + [w] + (a + b) == [w] + (a + b) && [] + (a + b) == a + b;
    forall p ensures Hidden(a + [w] + b, p) <==> Hidden([w] + (a + b), p) {
      HiddenSplits(a, b, w, p);
      HiddenSplits([], a + b, w, p);
    }
    assert Visible(lower, a + [w] + b) == Visible(lower, [w] + (a + b));
    forall p | p in Updates(a + b) && NoPutBelowFile(a + b) ensures p in Replayed(lower, a + [w] + b) {
      NestingUnchanged(a, b, w);
      OtherwiseAt(lower, a + [w] + b, p);
    }
  }

  lemma NestingUnchanged(a: seq<Change>, b: seq<Change>, w: Change)
    requires !w.Put? && NoPutBelowFile(a + b)
    ensures NoPutBelowFile(a + [w] + b)
  {
    UpdatesAppend(a, b, w);
    forall p | p in Updates(a + [w] + b) ensures !Covered(a + [w] + b, p) {
      assert !Covered(a + b, p);
    }
  }

  lemma HiddenSplits(a: seq<Change>, b: seq<Change>, w: Change, p: Path)
    ensures Hidden(a + [w] + b, p) <==> Hidden(a + b, p) || Hides(w, p)
  {
    var longer, shorter := a + [w] + b, a + b;
    if Hidden(longer, p) && !Hides(w, p) {
      var i :| 0 <= i < |longer| && Hides(longer[i], p);
      assert shorter[if i < |a| then i else i - 1] == longer[i];
    }
    if Hidden(shorter, p) {
      var i :| 0 <= i < |shorter| && Hides(shorter[i], p);
      assert longer[if i < |a| then i else i + 1] == shorter[i];
    }
    assert longer[|a|] == w;
  }

  // ------------------------------------------------------------------
  // Images whose layers carry their directories
  // ------------------------------------------------------------------

  predicate Rooted(changes: seq<Change>) {
    forall p | p in Updates(changes) :: p != []
  }

  lemma SupportedIsUnnested(lower: Inventory, changes: seq<Change>)
    requires Supported(lower, changes) && Rooted(changes)
    ensures NoPutBelowFile(changes)
  {
    forall p | p in Updates(changes) ensures !Covered(changes, p) {
      forall q | q in Updates(changes) && q < p ensures Updates(changes)[q].Directory? {
        assert q == p[..|q|] && 0 < |q| < |p|;
      }
    }
  }

  lemma HiddenBelow(changes: seq<Change>, q: Path, p: Path)
    requires q <= p && Hidden(changes, q)
    ensures Hidden(changes, p)
  {
    var i :| 0 <= i < |changes| && Hides(changes[i], q);
    assert Hides(changes[i], p);
  }

  lemma CoveredBelow(changes: seq<Change>, q: Path, p: Path)
    requires q <= p && Covered(changes, q)
    ensures Covered(changes, p)
  {
    var r :| r in Updates(changes) && r < q && !Updates(changes)[r].Directory?;
    assert r < p;
  }

  lemma TreeLikeCovers(lower: Inventory, changes: seq<Change>)
    requires TreeLike(lower) && Rooted(changes)
    ensures CoversDirectories(lower, changes)
  {
    forall q, p | q in Updates(changes) && p in Visible(lower, changes) && q < p && !Updates(changes)[q].Directory?
      ensures q in Visible(lower, changes) && lower[q].Directory?
    {
      assert q == p[..|q|] && 0 < |q| < |p|;
      if Hidden(changes, q) { HiddenBelow(changes, q, p); }
    }
  }

  lemma TreeLikeNext(lower: Inventory, changes: seq<Change>)
    requires TreeLike(lower) && Supported(lower, changes)
    ensures TreeLike(Oci(lower, changes))
  {
    var oci, updates := Oci(lower, changes), Updates(changes);
    forall p, n | p in oci && 0 < n < |p| ensures p[..n] in oci && oci[p[..n]].Directory? {
      var q := p[..n];
      if p !in updates {
        assert q in lower && lower[q].Directory?;
        if Hidden(changes, q) { HiddenBelow(changes, q, p); }
        if Covered(changes, q) { CoveredBelow(changes, q, p); }
      }
    }
  }

  /** Over a tree-like image the outcome is tree-like exactly when the layer finds the directories of all its
      entries; one that puts an entry below a surviving lower file is the other case, and its outcome, here
      and in the code, is no file tree. */
  lemma TreeLikeExactly(lower: Inventory, changes: seq<Change>)
    requires TreeLike(lower)
    ensures TreeLike(Oci(lower, changes)) <==> Supported(lower, changes)
  {
    if Supported(lower, changes) { TreeLikeNext(lower, changes); }
  }
}
