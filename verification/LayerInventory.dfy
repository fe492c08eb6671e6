/**
 layer_inventory and the fold of trusted_inventory in their own form: the entries dictionary with its
 insertion order, the reading, installing and link-resolving loops, and what they amount to.
 */
module LayerInventory {
  import opened Wrappers
  import opened LayerPaths
  import opened LayerReplay

  // ------------------------------------------------------------------
  // Hard links
  // ------------------------------------------------------------------

  /** A chain of hard links from its first path to a regular file at its last. */
  predicate IsChain(inventory: Inventory, chain: seq<Path>) {
    && chain != []
    && (forall i | 0 <= i < |chain| :: chain[i] in inventory)
    && (forall i | 0 <= i < |chain| - 1 ::
          inventory[chain[i]].HardLink? && inventory[chain[i]].to == chain[i + 1])
    && inventory[chain[|chain| - 1]].File?
  }

  ghost predicate LeadsTo(inventory: Inventory, p: Path, file: Item) {
    exists chain :: IsChain(inventory, chain) && chain[0] == p && inventory[chain[|chain| - 1]] == file
  }

  /** Every hard link has become the file its chain ends at; nothing else has changed. */
  ghost predicate Resolves(before: Inventory, after: Inventory) {
    && after.Keys == before.Keys
    && forall p | p in before ::
         if before[p].HardLink? then LeadsTo(before, p, after[p]) else after[p] == before[p]
  }

  lemma {:induction false} ChainsEndTogether(inventory: Inventory, a: seq<Path>, b: seq<Path>)
    requires IsChain(inventory, a) && IsChain(inventory, b) && a[0] == b[0]
    ensures a[|a| - 1] == b[|b| - 1]
  {
    if |a| > 1 {
      assert |b| > 1;
      ChainsEndTogether(inventory, a[1..], b[1..]);
    }
  }

  /** Whatever order the links are visited in, a success leaves the same inventory. */
  lemma ResolutionIsUnique(before: Inventory, first: Inventory, second: Inventory)
    requires Resolves(before, first) && Resolves(before, second)
    ensures first == second
  {
    forall p | p in before ensures first[p] == second[p] {
      if before[p].HardLink? {
        var a :| IsChain(before, a) && a[0] == p && before[a[|a| - 1]] == first[p];
        var b :| IsChain(before, b) && b[0] == p && before[b[|b| - 1]] == second[p];
        ChainsEndTogether(before, a, b);
      }
    }
  }

  /** After a success no hard link remains, and each equals its target, which is a regular file. */
  lemma ResolvedLinksEqualTheirTargets(before: Inventory, after: Inventory, p: Path)
    requires Resolves(before, after) && p in before
    ensures !after[p].HardLink?
    ensures before[p].HardLink? ==>
              var to := before[p].to;
              to in after && after[to].File? && after[p] == after[to]
  {
    if before[p].HardLink? {
      var a :| IsChain(before, a) && a[0] == p && before[a[|a| - 1]] == after[p];
      assert |a| > 1;
      var rest := a[1..];
      assert IsChain(before, rest);
      var to := before[p].to;
      assert rest[0] == to;
      if before[to].HardLink? {
        var b :| IsChain(before, b) && b[0] == to && before[b[|b| - 1]] == after[to];
        ChainsEndTogether(before, rest, b);
      } else {
        assert |rest| == 1;
      }
    }
  }

  lemma TreeLikeResolved(before: Inventory, after: Inventory)
    requires TreeLike(before) && Resolves(before, after)
    ensures TreeLike(after)
  {
  }

  /** If this entry is a hard link, it points at a regular file, or at a hard link visited before it. */
  predicate ResolvableAfter(inventory: Inventory, name: Path, visited: set<Path>)
    requires name in inventory
  {
    inventory[name].HardLink? ==>
      var to := inventory[name].to;
      to in inventory && (inventory[to].File? || (inventory[to].HardLink? && to in visited))
  }

  function Visited(keys: seq<Path>): set<Path> {
    set p | p in keys
  }

  /** Exactly the inventories whose hard links the loop resolves, visiting them in this order. */
  predicate Resolvable(inventory: Inventory, keys: seq<Path>) {
    keys == []
    || var last, before := keys[|keys| - 1], keys[..|keys| - 1];
       Resolvable(inventory, before) && last in inventory && ResolvableAfter(inventory, last, Visited(before))
  }

  lemma {:induction false} ResolvablePrefix(inventory: Inventory, keys: seq<Path>, n: nat)
    requires n <= |keys| && Resolvable(inventory, keys)
    ensures Resolvable(inventory, keys[..n])
    decreases |keys|
  {
    if n == |keys| {
      assert keys[..n] == keys;
    } else {
      ResolvablePrefix(inventory, keys[..|keys| - 1], n);
      assert keys[..|keys| - 1][..n] == keys[..n];
    }
  }

  /** What the loop makes of the entries, visiting these keys in order. */
  function Resolved(inventory: Inventory, keys: seq<Path>): Inventory {
    if keys == [] then inventory else
    var now, last := Resolved(inventory, keys[..|keys| - 1]), keys[|keys| - 1];
    if last in now && now[last].HardLink? && now[last].to in now then now[last := now[now[last].to]] else now
  }

  /** A chain with one more link in front. */
  lemma ChainGrows(inventory: Inventory, p: Path, file: Item)
    requires p in inventory && inventory[p].HardLink? && LeadsTo(inventory, inventory[p].to, file)
    ensures LeadsTo(inventory, p, file)
  {
    var chain :| IsChain(inventory, chain) && chain[0] == inventory[p].to && inventory[chain[|chain| - 1]] == file;
    var longer := [p] + chain;
    assert IsChain(inventory, longer) && longer[0] == p && longer[|longer| - 1] == chain[|chain| - 1];
  }

  // ------------------------------------------------------------------
  // layer_inventory and the fold of trusted_inventory
  // ------------------------------------------------------------------

  /** The entries dictionary: its content, and its keys in insertion order. */
  class Entries {
    var entries: Inventory
    var keys: seq<Path>

    ghost predicate Valid()
      reads this
    {
      Keyed(entries, keys)
    }

    constructor ()
      ensures Valid() && entries == map[] && keys == []
    {
      entries, keys := map[], [];
    }

    /** One iteration of the reading loop: refuse the member, or take up what it asks for. */
    method ReadNext(
      member: Member, updates: Inventory, order: seq<Path>, removals: set<Path>, ghost changes: seq<Change>)
      returns (updates': Inventory, order': seq<Path>, removals': set<Path>, ok: bool)
      requires Gathered(entries, changes, updates, order, removals)
      ensures ok <==> ReadOne(entries, changes, member).Some?
      ensures ok ==> Gathered(entries, ReadOne(entries, changes, member).value, updates', order', removals')
    {
      updates', order', removals' := updates, order, removals;
      match Parse(member) {
        case Unsafe => return updates', order', removals', false;
        case Skipped =>
        case Parsed(path, change) =>
          if LinkAbove(entries, updates, path) { return updates', order', removals', false; }
          UpdatesSnoc(changes, change);
          HiddenSnoc(entries, changes, change);
          match change {
            case Opaque(directory) => removals' := removals + set key | key in entries && directory < key;
            case Whiteout(victim) => removals' := removals + set key | key in entries && victim <= key;
            case Put(name, item) =>
              if name !in updates { order' := order + [name]; }
              updates' := updates[name := item];
          }
      }
      ok := true;
    }

    /** The reading loop fills updates and removals; entries stay as they are. */
    method ReadLayer(members: seq<Member>)
      returns (updates: Inventory, order: seq<Path>, removals: set<Path>, ok: bool)
      ensures ok <==> Read(entries, members).Some?
      ensures ok ==> Gathered(entries, Read(entries, members).value, updates, order, removals)
    {
      updates, order, removals := map[], [], {};
      ghost var changes: seq<Change> := [];
      for i := 0 to |members|
        invariant Read(entries, members[..i]) == Some(changes)
        invariant Gathered(entries, changes, updates, order, removals)
      {
        ReadStep(entries, members, i, changes);
        updates, order, removals, ok := ReadNext(members[i], updates, order, removals, changes);
        if !ok {
          ReadStops(entries, members, i + 1);
          return;
        }
        changes := ReadOne(entries, changes, members[i]).value;
      }
      assert members[..|members|] == members;
      ok := true;
    }

    /** entries.pop for every removal. */
    method RemoveAll(removals: set<Path>, ghost changes: seq<Change>)
      requires Valid() && removals == HiddenOf(entries, changes)
      modifies this
      ensures Valid() && entries == Visible(old(entries), changes) && keys == Kept(old(keys), entries)
    {
      entries := map p | p in entries && p !in removals :: entries[p];
      assert entries == Visible(old(entries), changes);
      KeptOnce(keys, entries);
      keys := Kept(keys, entries);
    }

    /** One iteration of the installing loop. */
    method InstallNext(name: Path, item: Item)
      requires Valid()
      modifies this
      ensures Valid() && entries == InstallOne(old(entries), name, item)
      ensures keys == NextKeys(old(keys), old(entries), name, item)
    {
      NextKeyed(entries, keys, name, item);
      if !item.Directory? && name in entries && entries[name].Directory? {
        entries := map p | p in entries && !(name < p) :: entries[p];
      }
      assert entries == Cleared(old(entries), name, item);
      keys := Kept(keys, entries);
      if name !in keys { keys := keys + [name]; }
      entries := entries[name := item];
    }

    /** The installing loop over updates.items(). */
    method InstallUpdates(order: seq<Path>, updates: Inventory)
      requires Valid() && forall p | p in order :: p in updates
      modifies this
      ensures Valid() && entries == Install(old(entries), order, updates)
      ensures keys == InstallKeys(old(keys), old(entries), order, updates)
    {
      for i := 0 to |order|
        invariant Valid() && entries == Install(old(entries), order[..i], updates)
        invariant keys == InstallKeys(old(keys), old(entries), order[..i], updates)
      {
        assert order[..i + 1][..i] == order[..i] && order[..i + 1][i] == order[i];
        InstallNext(order[i], updates[order[i]]);
      }
      assert order[..|order|] == order;
    }

    /** One iteration of the last loop: a hard link becomes a copy of what its target holds by then. */
    method ResolveNext(name: Path, ghost before: Inventory, ghost visited: set<Path>) returns (ok: bool)
      requires name in before && name !in visited && ResolvedSo(before, entries, visited)
      modifies this`entries
      ensures ok <==> ResolvableAfter(before, name, visited)
      ensures ok ==> ResolvedSo(before, entries, visited + {name})
    {
      VisitOne(before, entries, visited, name);
      if !entries[name].HardLink? { return true; }
      var to := entries[name].to;
      if to !in entries || !entries[to].File? { return false; }
      entries := entries[name := entries[to]];
      ok := true;
    }

    /** The last loop, over the entries in dictionary order. */
    method ResolveLinks() returns (ok: bool)
      requires Valid()
      modifies this`entries
      ensures ok <==> Resolvable(old(entries), keys)
      ensures ok ==> Valid() && Resolves(old(entries), entries) && entries == Resolved(old(entries), keys)
    {
      ghost var before := entries;
      for i := 0 to |keys|
        invariant ResolvedSo(before, entries, Visited(keys[..i]))
        invariant Resolvable(before, keys[..i])
      {
        VisitNext(before, keys, i);
        ok := ResolveNext(keys[i], before, Visited(keys[..i]));
        if !ok {
          if Resolvable(before, keys) { ResolvablePrefix(before, keys, i + 1); }
          return;
        }
      }
      VisitAll(before, entries, keys);
      ResolvedIsResolved(before, keys);
      ResolutionIsUnique(before, entries, Resolved(before, keys));
      ok := true;
    }

    /** layer_inventory: it succeeds exactly when the members can be read and the links resolved in
        dictionary order, and then leaves the replayed changes with their links resolved. */
    method Replay(members: seq<Member>) returns (ok: bool)
      requires Valid()
      modifies this
      ensures ok <==>
                && Read(old(entries), members).Some?
                && var changes := Read(old(entries), members).value;
                   Resolvable(Replayed(old(entries), changes), ReplayedKeys(old(keys), old(entries), changes))
      ensures ok ==>
                var changes := Read(old(entries), members).value;
                && Valid() && keys == ReplayedKeys(old(keys), old(entries), changes)
                && Resolves(Replayed(old(entries), changes), entries)
                && entries == Resolved(Replayed(old(entries), changes), keys)
    {
      var updates, order, removals, readable := ReadLayer(members);
      if !readable { return false; }
      ghost var changes := Read(entries, members).value;
      RemoveAll(removals, changes);
      InstallUpdates(order, updates);
      ok := ResolveLinks();
    }
  }

  /** The links that were visited are resolved, and nothing else has changed. */
  ghost predicate ResolvedSo(before: Inventory, now: Inventory, visited: set<Path>) {
    && now.Keys == before.Keys
    && forall p | p in before ::
         if p in visited && before[p].HardLink? then now[p].File? && LeadsTo(before, p, now[p])
         else now[p] == before[p]
  }

  lemma VisitNext(inventory: Inventory, keys: seq<Path>, i: nat)
    requires Keyed(inventory, keys) && i < |keys|
    ensures keys[i] in inventory && keys[i] !in Visited(keys[..i])
    ensures Visited(keys[..i + 1]) == Visited(keys[..i]) + {keys[i]}
    ensures Resolvable(inventory, keys[..i + 1]) <==>
              Resolvable(inventory, keys[..i]) && ResolvableAfter(inventory, keys[i], Visited(keys[..i]))
  {
    assert keys[i] in keys;
    assert keys[..i + 1] == keys[..i] + [keys[i]];
  }

  lemma {:induction false} ResolvedSoFar(inventory: Inventory, keys: seq<Path>, n: nat)
    requires Keyed(inventory, keys) && n <= |keys| && Resolvable(inventory, keys[..n])
    ensures ResolvedSo(inventory, Resolved(inventory, keys[..n]), Visited(keys[..n]))
  {
    if n > 0 {
      VisitNext(inventory, keys, n - 1);
      ResolvedSoFar(inventory, keys, n - 1);
      assert keys[..n][..n - 1] == keys[..n - 1] && keys[..n][n - 1] == keys[n - 1];
      VisitOne(inventory, Resolved(inventory, keys[..n - 1]), Visited(keys[..n - 1]), keys[n - 1]);
    }
  }

  lemma ResolvedIsResolved(inventory: Inventory, keys: seq<Path>)
    requires Keyed(inventory, keys) && Resolvable(inventory, keys[..|keys|])
    ensures Resolves(inventory, Resolved(inventory, keys))
  {
    ResolvedSoFar(inventory, keys, |keys|);
    VisitAll(inventory, Resolved(inventory, keys[..|keys|]), keys);
  }

  lemma VisitAll(before: Inventory, now: Inventory, keys: seq<Path>)
    requires Keyed(before, keys) && ResolvedSo(before, now, Visited(keys[..|keys|]))
    ensures Resolves(before, now) && Keyed(now, keys)
    ensures keys[..|keys|] == keys
  {
    assert keys[..|keys|] == keys;
  }

  /** Visiting one more entry: a link can be resolved now exactly when it is resolvable after those
      visited before, and then is. */
  lemma VisitOne(before: Inventory, now: Inventory, visited: set<Path>, name: Path)
    requires name in before && name !in visited && ResolvedSo(before, now, visited)
    ensures now[name] == before[name]
    ensures !before[name].HardLink? ==> ResolvedSo(before, now, visited + {name})
    ensures before[name].HardLink? ==>
              var to := before[name].to;
              && (ResolvableAfter(before, name, visited) <==> to in now && now[to].File?)
              && (to in now && now[to].File? ==> ResolvedSo(before, now[name := now[to]], visited + {name}))
  {
    if before[name].HardLink? {
      var to := before[name].to;
      if to in now && now[to].File? {
        if !before[to].HardLink? {
          assert IsChain(before, [to]) && [to][0] == to;
          assert LeadsTo(before, to, now[to]);
        }
        ChainGrows(before, name, now[to]);
      }
    }
  }

  /** What the reading loop holds after these changes. */
  predicate Gathered(
    lower: Inventory, changes: seq<Change>, updates: Inventory, order: seq<Path>, removals: set<Path>)
  {
    updates == Updates(changes) && order == Order(changes) && removals == HiddenOf(lower, changes)
  }

  function HiddenOf(lower: Inventory, changes: seq<Change>): set<Path> {
    set p | p in lower && Hidden(changes, p)
  }

  lemma HiddenSnoc(lower: Inventory, changes: seq<Change>, change: Change)
    ensures HiddenOf(lower, changes + [change]) == HiddenOf(lower, changes) + set p | p in lower && Hides(change, p)
  {
    HiddenGrows(changes, change);
  }

  /** Reading one more member. */
  lemma ReadStep(lower: Inventory, members: seq<Member>, i: nat, changes: seq<Change>)
    requires i < |members| && Read(lower, members[..i]) == Some(changes)
    ensures Read(lower, members[..i + 1]) == ReadOne(lower, changes, members[i])
  {
    assert members[..i + 1][..i] == members[..i] && members[..i + 1][i] == members[i];
  }

  lemma HiddenGrows(changes: seq<Change>, change: Change)
    ensures forall p :: Hidden(changes + [change], p) <==> Hidden(changes, p) || Hides(change, p)
  {
    forall p ensures Hidden(changes + [change], p) <==> Hidden(changes, p) || Hides(change, p) {
      HiddenSplits(changes, [], change, p);
      assert changes + [change] + [] == changes + [change] && changes + [] == changes;
    }
  }

  lemma {:induction false} ReadStops(lower: Inventory, members: seq<Member>, k: nat)
    requires k <= |members| && Read(lower, members[..k]) == None
    ensures Read(lower, members) == None
    decreases |members|
  {
    if k < |members| {
      assert members[..|members| - 1][..k] == members[..k];
      ReadStops(lower, members[..|members| - 1], k);
    } else {
      assert members[..k] == members;
    }
  }

  lemma {:induction false} ReadIsRooted(lower: Inventory, members: seq<Member>)
    requires Read(lower, members).Some?
    ensures Rooted(Read(lower, members).value)
  {
    if members != [] {
      var last := |members| - 1;
      ReadIsRooted(lower, members[..last]);
      if Parse(members[last]).Parsed? { UpdatesSnoc(Read(lower, members[..last]).value, Parse(members[last]).change); }
    }
  }

  /** One layer of an OCI image over the one below it, hard links resolved. */
  ghost predicate OciLayer(lower: Inventory, members: seq<Member>, upper: Inventory) {
    Read(lower, members).Some? && Resolves(Oci(lower, Read(lower, members).value), upper)
  }

  ghost predicate SupportedLayer(lower: Inventory, members: seq<Member>) {
    Read(lower, members).Some? ==> Supported(lower, Read(lower, members).value)
  }

  /** The layers up to and including k carry their directories. */
  ghost predicate SupportedUpTo(stages: seq<Inventory>, layers: seq<seq<Member>>, k: nat)
    requires k < |stages| && k < |layers|
  {
    forall j | 0 <= j <= k :: SupportedLayer(stages[j], layers[j])
  }

  /** Stage k + 1 is the OCI image of layer k over stage k, and tree-like. */
  ghost predicate OciStage(stages: seq<Inventory>, layers: seq<seq<Member>>, k: nat)
    requires k + 1 < |stages| && k < |layers|
  {
    OciLayer(stages[k], layers[k], stages[k + 1]) && TreeLike(stages[k + 1])
  }

  predicate NoHardLink(inventory: Inventory) {
    forall p | p in inventory :: !inventory[p].HardLink?
  }

  /** The upper stage is the OCI image of the layer over the lower one exactly when the layer covers only
      what hangs below surviving directories; only layers with entries below their own files are left out. */
  ghost predicate ExactLayer(lower: Inventory, members: seq<Member>, upper: Inventory) {
    && Read(lower, members).Some?
    && var changes := Read(lower, members).value;
       NoPutBelowFile(changes) ==> (OciLayer(lower, members, upper) <==> CoversDirectories(lower, changes))
  }

  /** An image so far: its entries, and their dictionary order. */
  datatype Stage = Stage(entries: Inventory, keys: seq<Path>)

  /** layer_inventory over a stage: nothing when a member is refused or a link cannot be resolved. */
  function ReplayOver(stage: Stage, members: seq<Member>): Option<Stage> {
    match Read(stage.entries, members)
    case None => None
    case Some(changes) =>
      var replayed := Replayed(stage.entries, changes);
      var keys := ReplayedKeys(stage.keys, stage.entries, changes);
      if Resolvable(replayed, keys) then Some(Stage(Resolved(replayed, keys), keys)) else None
  }

  function Fold(layers: seq<seq<Member>>): Option<Stage> {
    if layers == [] then Some(Stage(map[], []))
    else
      match Fold(layers[..|layers| - 1])
      case None => None
      case Some(stage) => ReplayOver(stage, layers[|layers| - 1])
  }

  lemma {:induction false} FoldStops(layers: seq<seq<Member>>, n: nat)
    requires n <= |layers| && Fold(layers[..n]) == None
    ensures Fold(layers) == None
    decreases |layers|
  {
    if n == |layers| {
      assert layers[..n] == layers;
    } else {
      assert layers[..|layers| - 1][..n] == layers[..n];
      FoldStops(layers[..|layers| - 1], n);
    }
  }

  lemma FoldStep(layers: seq<seq<Member>>, i: nat, stage: Stage)
    requires i < |layers| && Fold(layers[..i]) == Some(stage)
    ensures Fold(layers[..i + 1]) == ReplayOver(stage, layers[i])
  {
    assert layers[..i + 1][..i] == layers[..i] && layers[..i + 1][i] == layers[i];
  }

  /** trusted_inventory: the fold over an image's layers. It succeeds exactly when every layer can be read
      and its links resolved over what the layers below it leave, and then leaves the one outcome of that.
      Every stage is exact; and while every layer carries its directories, each is the OCI image of the
      layers so far, and stays tree-like. */
  method TrustedInventory(layers: seq<seq<Member>>) returns (entries: Inventory, ghost stages: seq<Inventory>, ok: bool)
    ensures ok <==> Fold(layers).Some?
    ensures ok ==> entries == Fold(layers).value.entries
    ensures ok ==> |stages| == |layers| + 1 && stages[0] == map[] && stages[|layers|] == entries
    ensures ok ==> AllExact(stages, layers, |layers|)
    ensures ok ==> AllSupported(stages, layers, |layers|)
    ensures ok ==> NoHardLink(entries)
  {
    var inventory := new Entries();
    stages := [map[]];
    for i := 0 to |layers|
      invariant inventory.Valid() && Fold(layers[..i]) == Some(Stage(inventory.entries, inventory.keys))
      invariant |stages| == i + 1 && stages[0] == map[] && stages[i] == inventory.entries
      invariant AllExact(stages, layers, i) && AllSupported(stages, layers, i)
      invariant NoHardLink(inventory.entries)
    {
      FoldStep(layers, i, Stage(inventory.entries, inventory.keys));
      ok := inventory.Replay(layers[i]);
      if !ok {
        FoldStops(layers, i + 1);
        return map[], stages, false;
      }
      ReplayIsExact(stages[i], layers[i], inventory.entries);
      ExactNext(stages, layers, i, inventory.entries);
      StageFollows(stages, layers, i, inventory.entries);
      stages := stages + [inventory.entries];
    }
    assert layers[..|layers|] == layers;
    entries, ok := inventory.entries, true;
  }

  /** While the layers up to a stage carry their directories, it is an OCI stage. */
  ghost predicate AllSupported(stages: seq<Inventory>, layers: seq<seq<Member>>, n: nat)
    requires n < |stages| && n <= |layers|
  {
    forall k: nat | k < n :: SupportedUpTo(stages, layers, k) ==> OciStage(stages, layers, k)
  }

  /** A replayed and resolved layer is the OCI layer exactly when it covers only what hangs below
      directories. */
  lemma ResolvedIsOci(lower: Inventory, changes: seq<Change>, upper: Inventory)
    requires NoPutBelowFile(changes) && Resolves(Replayed(lower, changes), upper)
    ensures Resolves(Oci(lower, changes), upper) <==> CoversDirectories(lower, changes)
  {
    ReplayIsOci(lower, changes);
    if Resolves(Oci(lower, changes), upper) { SameKeys(lower, changes); }
  }

  lemma SameKeys(lower: Inventory, changes: seq<Change>)
    requires NoPutBelowFile(changes) && Replayed(lower, changes).Keys == Oci(lower, changes).Keys
    ensures CoversDirectories(lower, changes)
  {
    forall q, p | q in Updates(changes) && p in Visible(lower, changes) && q < p && !Updates(changes)[q].Directory?
      ensures q in Visible(lower, changes) && lower[q].Directory?
    {
      if !(q in Visible(lower, changes) && lower[q].Directory?) {
        SurvivorDiffers(lower, changes, q, p);
        assert false;
      }
    }
  }

  ghost predicate AllExact(stages: seq<Inventory>, layers: seq<seq<Member>>, n: nat)
    requires n < |stages| && n <= |layers|
  {
    forall k: nat | k < n :: ExactLayer(stages[k], layers[k], stages[k + 1])
  }

  lemma ExactNext(stages: seq<Inventory>, layers: seq<seq<Member>>, i: nat, upper: Inventory)
    requires |stages| == i + 1 && i < |layers| && AllExact(stages, layers, i)
    requires ExactLayer(stages[i], layers[i], upper)
    ensures AllExact(stages + [upper], layers, i + 1)
  {
  }

  lemma ReplayIsExact(lower: Inventory, members: seq<Member>, upper: Inventory)
    requires Read(lower, members).Some? && Resolves(Replayed(lower, Read(lower, members).value), upper)
    ensures ExactLayer(lower, members, upper)
  {
    var changes := Read(lower, members).value;
    if NoPutBelowFile(changes) { ResolvedIsOci(lower, changes, upper); }
  }

  lemma StageFollows(stages: seq<Inventory>, layers: seq<seq<Member>>, i: nat, upper: Inventory)
    requires |stages| == i + 1 && i < |layers| && stages[0] == map[]
    requires AllSupported(stages, layers, i)
    requires Read(stages[i], layers[i]).Some?
    requires Resolves(Replayed(stages[i], Read(stages[i], layers[i]).value), upper)
    ensures AllSupported(stages + [upper], layers, i + 1)
    ensures NoHardLink(upper)
  {
    var more := stages + [upper];
    forall p | p in upper ensures !upper[p].HardLink? {
      ResolvedLinksEqualTheirTargets(Replayed(stages[i], Read(stages[i], layers[i]).value), upper, p);
    }
    forall k: nat | k < i + 1 && SupportedUpTo(more, layers, k) ensures OciStage(more, layers, k) {
      assert forall j | 0 <= j <= k :: more[j] == stages[j];
      assert forall j | 0 <= j <= k :: SupportedLayer(more[j], layers[j]) ==> SupportedLayer(stages[j], layers[j]);
      if k < i {
        assert SupportedUpTo(stages, layers, k);
        assert OciStage(stages, layers, k);
      } else {
        if 0 < i {
          assert SupportedUpTo(stages, layers, i - 1);
          assert OciStage(stages, layers, i - 1);
        }
        SupportedStep(stages[i], layers[i], upper);
      }
    }
  }

  lemma SupportedStep(lower: Inventory, members: seq<Member>, upper: Inventory)
    requires Read(lower, members).Some? && TreeLike(lower) && SupportedLayer(lower, members)
    requires Resolves(Replayed(lower, Read(lower, members).value), upper)
    ensures OciLayer(lower, members, upper) && TreeLike(upper)
  {
    var changes := Read(lower, members).value;
    ReadIsRooted(lower, members);
    SupportedIsUnnested(lower, changes);
    TreeLikeCovers(lower, changes);
    ReplayIsOci(lower, changes);
    TreeLikeNext(lower, changes);
    TreeLikeResolved(Oci(lower, changes), upper);
  }

  /** Without its directory entry a lower directory is not cleared: a layer whose one member is a file
      with the directory's name leaves the entries below it in the inventory, which the reference
      semantics drops. */
  lemma ImplicitDirectorySurvives(directory: Path, name: string, below: Item, mode: int, sha256: string)
    requires WellFormed(directory) && directory != [] && forall i | 0 <= i < |directory| :: '\0' !in directory[i]
    requires !(WHITEOUT <= directory[|directory| - 1])
    ensures var lower: Inventory, p := map[directory + [name] := below], directory + [name];
            var members := [Member(Join(directory), FileNode(mode, sha256))];
            var changes := [Put(directory, File(Bits(mode), sha256))];
            && Read(lower, members) == Some(changes)
            && NoPutBelowFile(changes) && !CoversDirectories(lower, changes)
            && p in Replayed(lower, changes) && p !in Oci(lower, changes)
  {
    var p := directory + [name];
    var lower: Inventory := map[p := below];
    var over := File(Bits(mode), sha256);
    ReadsFile(lower, directory, mode, sha256);
    FileOverDirectory(lower, directory, p, over);
  }

  lemma ReadsFile(lower: Inventory, path: Path, mode: int, sha256: string)
    requires WellFormed(path) && path != [] && forall i | 0 <= i < |path| :: '\0' !in path[i]
    requires !(WHITEOUT <= path[|path| - 1])
    requires forall q | q in lower :: |path| <= |q|
    ensures Read(lower, [Member(Join(path), FileNode(mode, sha256))]) == Some([Put(path, File(Bits(mode), sha256))])
  {
    KeyIsNormal(path);
    var member := Member(Join(path), FileNode(mode, sha256));
    assert OPAQUE[..4] == WHITEOUT;
    assert Parse(member) == Parsed(path, Put(path, File(Bits(mode), sha256)));
    assert [member][..0] == [];
    forall n | 0 < n < |path| ensures path[..n] !in lower { assert |path[..n]| < |path|; }
    assert !LinkAbove(lower, Updates([]), path);
    assert Read(lower, [member]) == ReadOne(lower, [], member);
    assert [] + [Put(path, File(Bits(mode), sha256))] == [Put(path, File(Bits(mode), sha256))];
  }

  lemma FileOverDirectory(lower: Inventory, directory: Path, p: Path, over: Item)
    requires lower.Keys == {p} && directory < p && !over.Directory?
    ensures var changes := [Put(directory, over)];
            && NoPutBelowFile(changes) && !CoversDirectories(lower, changes)
            && p in Replayed(lower, changes) && p !in Oci(lower, changes)
  {
    var changes := [Put(directory, over)];
    assert changes[..0] == [];
    assert Updates(changes) == map[directory := over];
    assert !Hides(changes[0], p);
    assert p in Visible(lower, changes);
    SurvivorDiffers(lower, changes, directory, p);
  }
}
