/**
 What whiteouts, opaque markers and entries mean, path by path and member by member: the statements name
 neither the replay's own functions nor those of the reference semantics for what is hidden or covered.
 */
module LayerMeaning {
  import opened Wrappers
  import opened LayerPaths
  import opened LayerReplay
  import opened LayerInventory

  // ------------------------------------------------------------------
  // Changes
  // ------------------------------------------------------------------

  /** The last put of a path among the changes. */
  predicate LastPut(changes: seq<Change>, p: Path, i: nat) {
    && i < |changes| && changes[i].Put? && changes[i].path == p
    && forall k | i < k < |changes| :: !(changes[k].Put? && changes[k].path == p)
  }

  /** A layer has its own entry exactly for the paths it puts. */
  lemma {:induction false} OwnMeansPut(changes: seq<Change>, p: Path)
    ensures p in Updates(changes) <==> exists i | 0 <= i < |changes| :: changes[i].Put? && changes[i].path == p
  {
    if changes != [] {
      var before, last := changes[..|changes| - 1], changes[|changes| - 1];
      OwnMeansPut(before, p);
      assert p in Updates(changes) <==> p in Updates(before) || (last.Put? && last.path == p);
      assert changes == before + [last];
    }
  }

  /** And the entry is the last one put. */
  lemma {:induction false} OwnIsLastPut(changes: seq<Change>, p: Path, i: nat)
    requires LastPut(changes, p, i)
    ensures p in Updates(changes) && Updates(changes)[p] == changes[i].item
  {
    var last := |changes| - 1;
    if i < last { OwnIsLastPut(changes[..last], p, i); }
  }

  /** Some whiteout of the layer names this path or a directory above it. */
  predicate WhitedOut(changes: seq<Change>, p: Path) {
    exists i | 0 <= i < |changes| :: changes[i].Whiteout? && changes[i].victim <= p
  }

  /** The path lies below, and is not, a directory that the layer marks opaque. */
  predicate BelowOpaque(changes: seq<Change>, p: Path) {
    exists i | 0 <= i < |changes| ::
      changes[i].Opaque? && changes[i].directory <= p && changes[i].directory != p
  }

  /** A path of the lower inventory that the layer neither whites out nor has below an opaque directory. */
  predicate Survives(lower: Inventory, changes: seq<Change>, p: Path) {
    p in lower && !WhitedOut(changes, p) && !BelowOpaque(changes, p)
  }

  /** The layer puts a non-directory above the path, and keeps it. */
  predicate BelowFile(changes: seq<Change>, p: Path) {
    exists q | q in Updates(changes) :: q <= p && q != p && !Updates(changes)[q].Directory?
  }

  /** The lower entries that stay visible are exactly those that no whiteout names and that lie below no opaque
      directory. */
  lemma VisibleMeans(lower: Inventory, changes: seq<Change>, p: Path)
    ensures p in Visible(lower, changes) <==> Survives(lower, changes, p)
    ensures p in Visible(lower, changes) ==> Visible(lower, changes)[p] == lower[p]
  {
    if i :| 0 <= i < |changes| && changes[i].Whiteout? && changes[i].victim <= p {
      assert Hides(changes[i], p);
    }
    if i :| 0 <= i < |changes| && changes[i].Opaque? && changes[i].directory <= p && changes[i].directory != p {
      assert Hides(changes[i], p);
    }
  }

  /** The reference semantics at a path: the layer's own entry; or the lower one, unless it is whited out, below
      an opaque directory, or below a file of the layer. */
  lemma OciMeans(lower: Inventory, changes: seq<Change>, p: Path)
    ensures var oci, own := Oci(lower, changes), Updates(changes);
            if p in own then p in oci && oci[p] == own[p]
            else if Survives(lower, changes, p) && !BelowFile(changes, p)
            then p in oci && oci[p] == lower[p]
            else p !in oci
  {
    VisibleMeans(lower, changes, p);
    assert BelowFile(changes, p) <==> Covered(changes, p);
  }

  /** The same for the replay of a layer without updates below its own files, over a lower inventory whose
      covered entries hang below surviving directories. */
  lemma ReplayMeans(lower: Inventory, changes: seq<Change>, p: Path)
    requires NoPutBelowFile(changes) && CoversDirectories(lower, changes)
    ensures var result, own := Replayed(lower, changes), Updates(changes);
            if p in own then p in result && result[p] == own[p]
            else if Survives(lower, changes, p) && !BelowFile(changes, p)
            then p in result && result[p] == lower[p]
            else p !in result
  {
    ReplayIsOci(lower, changes);
    OciMeans(lower, changes, p);
  }

  /** Both conditions of the comparison, spelled out. */
  lemma NestingMeans(changes: seq<Change>)
    ensures NoPutBelowFile(changes) <==> forall p | p in Updates(changes) :: !BelowFile(changes, p)
  {
    forall p ensures BelowFile(changes, p) <==> Covered(changes, p) {}
  }

  lemma CoveringMeans(lower: Inventory, changes: seq<Change>)
    ensures CoversDirectories(lower, changes) <==>
              forall q, p | q in Updates(changes) && Survives(lower, changes, p) && q <= p && q != p ::
                Updates(changes)[q].Directory? || (Survives(lower, changes, q) && lower[q].Directory?)
  {
    forall p ensures p in Visible(lower, changes) <==> Survives(lower, changes, p) {
      VisibleMeans(lower, changes, p);
    }
    var updates := Updates(changes);
    if CoversDirectories(lower, changes) {
      forall q, p | q in updates && Survives(lower, changes, p) && q <= p && q != p
        ensures updates[q].Directory? || (Survives(lower, changes, q) && lower[q].Directory?)
      {
        assert p in Visible(lower, changes) && q < p;
      }
    }
  }

  // ------------------------------------------------------------------
  // Archive members
  // ------------------------------------------------------------------

  /** A path that can be the key of a member. */
  predicate IsKey(p: Path) {
    WellFormed(p) && p != [] && forall i | 0 <= i < |p| :: '\0' !in p[i]
  }

  function LastOf(p: Path): string
    requires p != []
  {
    p[|p| - 1]
  }

  /** dir/.wh.name asks for the removal of dir/name. */
  lemma WhiteoutMember(directory: Path, name: string, node: Node)
    requires IsKey(directory + [".wh." + name]) && name != ".wh..opq"
    ensures Parse(Member(Join(directory + [".wh." + name]), node))
            == Parsed(directory + [".wh." + name], Whiteout(directory + [name]))
  {
    var p := directory + [".wh." + name];
    KeyIsNormal(p);
    assert LastOf(p) == ".wh." + name && p[..|p| - 1] == directory;
    assert (".wh." + name)[4..] == name;
    assert OPAQUE == ".wh." + ".wh..opq";
  }

  /** dir/.wh..wh..opq marks dir opaque. */
  lemma OpaqueMember(directory: Path, node: Node)
    requires IsKey(directory + [".wh..wh..opq"])
    ensures Parse(Member(Join(directory + [".wh..wh..opq"]), node))
            == Parsed(directory + [".wh..wh..opq"], Opaque(directory))
  {
    var p := directory + [".wh..wh..opq"];
    KeyIsNormal(p);
    assert LastOf(p) == OPAQUE && p[..|p| - 1] == directory;
  }

  /** Any other member puts the item that its type stands for, with the permission bits of its mode. */
  lemma OtherMember(p: Path, node: Node)
    requires IsKey(p) && !(".wh." <= LastOf(p))
    ensures var parsed := Parse(Member(Join(p), node));
            && (node.FileNode? ==> parsed == Parsed(p, Put(p, File(node.mode % 4096, node.sha256))))
            && (node.SymbolicNode? ==> parsed == Parsed(p, Put(p, Link(node.target))))
            && (node.DirectoryNode? ==> parsed == Parsed(p, Put(p, Directory(node.mode % 4096))))
            && (node.OtherNode? ==> parsed == Parsed(p, Put(p, Special(node.mode % 4096))))
            && (node.HardNode? ==>
                  parsed == if PathKey(node.linkName) == None then Unsafe
                            else Parsed(p, Put(p, HardLink(node.mode % 4096, PathKey(node.linkName).value))))
  {
    KeyIsNormal(p);
    assert OPAQUE[..4] == WHITEOUT == ".wh.";
  }

  /** Names that would leave the archive root are refused, and a leading ./ does not matter. */
  lemma UnsafeNames(p: Path, rest: string, name: string)
    requires WellFormed(p)
    ensures PathKey("/" + name) == None
    ensures '\0' in name ==> PathKey(name) == None
    ensures PathKey("./" + name) == PathKey(name)
    ensures p != [] ==> PathKey(Join(p) + "/" + ".." + "/" + rest) == None
  {
    assert ("./" + name)[2..] == name;
    assert StripDots("./" + name) == StripDots(name);
    assert ("/" + name)[0] == '/';
    if '\0' in name { StripKeepsNul(name); }
    if p != [] { ParentStays(p, rest); }
  }

  lemma {:induction false} StripKeepsNul(name: string)
    requires '\0' in name
    ensures '\0' in StripDots(name)
  {
    if "./" <= name {
      assert name == "./" + name[2..];
      StripKeepsNul(name[2..]);
    }
  }

  lemma ParentStays(p: Path, rest: string)
    requires WellFormed(p) && p != []
    ensures PathKey(Join(p) + "/" + ".." + "/" + rest) == None
  {
    var tail := ".." + "/" + rest;
    var name := Join(p) + "/" + tail;
    assert name == Join(p) + "/" + ".." + "/" + rest;
    FirstPiece(p);
    assert p[0] != [] && p[0] <= Join(p) && name[0] == p[0][0];
    DotFirst(p, tail);
    SplitJoin(p, tail);
    SplitAt("..", rest);
    NormalAppends(p, Split(tail));
    assert Split(tail) == [".."] + Split(rest);
    assert ".." in Normal(Split(tail));
  }

  lemma DotFirst(p: Path, tail: string)
    requires WellFormed(p) && p != []
    ensures !("./" <= Join(p) + "/" + tail)
  {
    var name := Join(p) + "/" + tail;
    if "./" <= name {
      assert name == "." + "/" + name[2..];
      SplitAt(".", name[2..]);
      SplitJoin(p, tail);
    }
  }

  lemma {:induction false} NormalAppends(a: seq<string>, b: seq<string>)
    ensures Normal(a + b) == Normal(a) + Normal(b)
  {
    if a == [] {
      assert a + b == b;
    } else {
      assert (a + b)[1..] == a[1..] + b;
      NormalAppends(a[1..], b);
    }
  }

  /** A member is refused exactly for an unsafe name, or for an entry that is, for the changes so far, a link
      above it. */
  lemma RefusalMeans(lower: Inventory, changes: seq<Change>, member: Member)
    ensures ReadOne(lower, changes, member) == None <==>
              || Parse(member).Unsafe?
              || (Parse(member).Parsed?
                  && exists q | q in Updates(changes) || q in lower ::
                       && q != [] && q <= Parse(member).path && q != Parse(member).path
                       && var item := if q in Updates(changes) then Updates(changes)[q] else lower[q];
                          item.Link? || item.HardLink?)
  {
    if Parse(member).Parsed? {
      var p, updates := Parse(member).path, Updates(changes);
      if LinkAbove(lower, updates, p) {
        var n :| 0 < n < |p| && (p[..n] in updates || p[..n] in lower)
                 && var item := if p[..n] in updates then updates[p[..n]] else lower[p[..n]];
                    item.Link? || item.HardLink?;
      }
      if q :| (q in updates || q in lower) && q != [] && q <= p && q != p
              && var item := if q in updates then updates[q] else lower[q]; item.Link? || item.HardLink? {
        assert q == p[..|q|] && 0 < |q| < |p|;
      }
    }
  }

  // ------------------------------------------------------------------
  // Layers
  // ------------------------------------------------------------------

  /** Every member of a readable layer left its change behind. */
  lemma {:induction false} ChangesOfMembers(lower: Inventory, members: seq<Member>, i: nat)
    requires Read(lower, members).Some? && i < |members| && Parse(members[i]).Parsed?
    ensures Parse(members[i]).change in Read(lower, members).value
  {
    var last := |members| - 1;
    if i < last { ChangesOfMembers(lower, members[..last], i); }
  }

  /** In particular a readable layer with a member dir/.wh.name removes dir/name and all below it, as far as the
      layer does not put them itself: from the replay, and from the reference semantics. */
  lemma WhiteoutRemoves(
    lower: Inventory, members: seq<Member>, i: nat, directory: Path, name: string, node: Node, p: Path)
    requires Read(lower, members).Some? && i < |members|
    requires IsKey(directory + [".wh." + name]) && name != ".wh..opq"
    requires members[i] == Member(Join(directory + [".wh." + name]), node)
    requires directory + [name] <= p && p !in Updates(Read(lower, members).value)
    ensures p !in Visible(lower, Read(lower, members).value)
    ensures p !in Oci(lower, Read(lower, members).value)
    ensures NoPutBelowFile(Read(lower, members).value) ==> p !in Replayed(lower, Read(lower, members).value)
  {
    var changes := Read(lower, members).value;
    WhiteoutMember(directory, name, node);
    ChangesOfMembers(lower, members, i);
    var k :| 0 <= k < |changes| && changes[k] == Whiteout(directory + [name]);
    assert WhitedOut(changes, p);
    VisibleMeans(lower, changes, p);
    OciMeans(lower, changes, p);
    if NoPutBelowFile(changes) { OtherwiseAt(lower, changes, p); }
  }

  /** And one with an opaque marker removes what lies below its directory, but not the directory. */
  lemma OpaqueRemoves(lower: Inventory, members: seq<Member>, i: nat, directory: Path, node: Node, p: Path)
    requires Read(lower, members).Some? && i < |members|
    requires IsKey(directory + [".wh..wh..opq"])
    requires members[i] == Member(Join(directory + [".wh..wh..opq"]), node)
    requires directory <= p && directory != p && p !in Updates(Read(lower, members).value)
    ensures p !in Visible(lower, Read(lower, members).value)
    ensures p !in Oci(lower, Read(lower, members).value)
    ensures NoPutBelowFile(Read(lower, members).value) ==> p !in Replayed(lower, Read(lower, members).value)
  {
    var changes := Read(lower, members).value;
    OpaqueMember(directory, node);
    ChangesOfMembers(lower, members, i);
    var k :| 0 <= k < |changes| && changes[k] == Opaque(directory);
    assert BelowOpaque(changes, p);
    VisibleMeans(lower, changes, p);
    OciMeans(lower, changes, p);
    if NoPutBelowFile(changes) { OtherwiseAt(lower, changes, p); }
  }

  /** What the reading loop collects for removal, spelled out. */
  lemma RemovalsMean(lower: Inventory, changes: seq<Change>, p: Path)
    ensures p in HiddenOf(lower, changes) <==> p in lower && (WhitedOut(changes, p) || BelowOpaque(changes, p))
  {
    VisibleMeans(lower, changes, p);
  }

  // ------------------------------------------------------------------
  // Dictionary order
  // ------------------------------------------------------------------

  predicate Before(keys: seq<Path>, p: Path, q: Path) {
    exists i, j | 0 <= i < j < |keys| :: keys[i] == p && keys[j] == q
  }

  lemma {:induction false} KeptInOrder(keys: seq<Path>, left: Inventory, p: Path, q: Path)
    requires p in left && q in left
    ensures Before(Kept(keys, left), p, q) <==> Before(keys, p, q)
  {
    if keys != [] {
      var last, before := keys[|keys| - 1], keys[..|keys| - 1];
      KeptInOrder(before, left, p, q);
      SnocInOrder(before, last, p, q);
      assert before + [last] == keys;
      SnocInOrder(Kept(before, left), last, p, q);
    }
  }

  lemma SnocInOrder(keys: seq<Path>, x: Path, p: Path, q: Path)
    ensures Before(keys + [x], p, q) <==> Before(keys, p, q) || (p in keys && q == x)
  {
    var more := keys + [x];
    if i, j :| 0 <= i < j < |keys| && keys[i] == p && keys[j] == q {
      assert more[i] == p && more[j] == q;
    }
    if p in keys && q == x {
      var i :| 0 <= i < |keys| && keys[i] == p;
      assert more[i] == p && more[|keys|] == q;
    }
    if i, j :| 0 <= i < j < |more| && more[i] == p && more[j] == q {
      assert keys[i] == p;
      if j < |keys| { assert keys[j] == q; }
    }
  }

  /** Installing an entry keeps the places of the entries that stay; a new one stands last. */
  lemma PlacesStay(keys: seq<Path>, inventory: Inventory, name: Path, item: Item, p: Path, q: Path)
    requires Keyed(inventory, keys)
    requires p in InstallOne(inventory, name, item) && q in InstallOne(inventory, name, item)
    ensures var next := NextKeys(keys, inventory, name, item);
            && (p in inventory && q in inventory ==> (Before(next, p, q) <==> Before(keys, p, q)))
            && (name !in inventory ==> next[|next| - 1] == name)
  {
    var cleared := Cleared(inventory, name, item);
    if p in inventory && q in inventory {
      assert p in cleared && q in cleared;
      KeptInOrder(keys, cleared, p, q);
      if name !in Kept(keys, cleared) { SnocInOrder(Kept(keys, cleared), name, p, q); }
    }
  }
}
