// The tree of directories and files that a formatted disk stands for, and the invariant that ties
// the three redundant structures (cluster map, directory tables, data clusters) together.
module Volume {
  import opened Layout

  // A directory slot: a directory, named by its cluster, and an index into its table.
  datatype Slot = Slot(dir: nat, index: nat)

  // The decoded file system. `fat` and `tabs` are what the disk says; `depth`, `chains` and `own`
  // explain it: the distance of each directory from the root, the clusters of each live slot in
  // order, and for each cluster in use the slot that owns it.
  datatype Vol = Vol(
    fat: FatMap,
    tabs: map<nat, Table>,
    depth: map<nat, nat>,
    chains: map<Slot, seq<nat>>,
    own: map<nat, Slot>)

  function Blocks(size: nat): nat {
    (size + CLUSTER_SIZE - 1) / CLUSTER_SIZE
  }

  predicate IsSlot(v: Vol, s: Slot) {
    s.dir in v.tabs && 1 <= s.index < TABLE_SIZE
  }

  function Ent(v: Vol, s: Slot): Entry
    requires IsSlot(v, s)
  {
    v.tabs[s.dir][s.index]
  }

  // Slot 0 of a table is a header whose cluster field names the parent directory.
  function Parent(v: Vol, c: nat): nat
    requires c in v.tabs
  {
    v.tabs[c][0].cluster
  }

  /* The invariant */

  ghost predicate Increasing(cs: seq<nat>) {
    forall i, j :: 0 <= i < j < |cs| ==> cs[i] < cs[j]
  }

  ghost predicate Link(fat: FatMap, cs: seq<nat>, j: nat)
    requires j < |cs|
  {
    && 3 <= cs[j] < CLUSTER_MAP_SIZE
    && fat[cs[j]] == if j + 1 < |cs| then cs[j + 1] else END_OF_FILE
  }

  // The map links the clusters of `cs` in order and ends with the end-of-file mark.
  ghost predicate IsChain(fat: FatMap, cs: seq<nat>) {
    |cs| > 0 && Increasing(cs) && forall j :: 0 <= j < |cs| ==> Link(fat, cs, j)
  }

  // A slot that names a directory agrees with the header of that directory's own table.
  ghost predicate FolderOk(v: Vol, s: Slot)
    requires s in v.chains && IsSlot(v, s)
  {
    exists k :: v.chains[s] == [k] && IsChild(v, k, s.dir, Ent(v, s))
  }

  ghost predicate IsChild(v: Vol, k: int, dir: nat, e: Entry) {
    && k in v.tabs && k != ROOT_CLUSTER
    && v.tabs[k][0].cluster == dir && v.tabs[k][0].name == e.name && v.tabs[k][0].ext == ZERO_EXT && e.ext == ZERO_EXT
  }

  ghost predicate Owns(v: Vol, s: Slot, cs: seq<nat>) {
    forall k :: k in cs ==> k in v.own && v.own[k] == s
  }

  // A slot with a chain is live, the chain starts where its entry says, no other slot shares a
  // cluster of it, and its length is what the kind and the size of the entry ask for.
  ghost predicate SlotOk(v: Vol, s: Slot)
    requires s in v.chains
  {
    && IsSlot(v, s) && Live(Ent(v, s))
    && IsChain(v.fat, v.chains[s])
    && Ent(v, s).cluster == v.chains[s][0]
    && Owns(v, s, v.chains[s])
    && (if IsDir(Ent(v, s)) then FolderOk(v, s)
        else Ent(v, s).filesize > 0 && |v.chains[s]| == Blocks(Ent(v, s).filesize))
  }

  // A directory hangs one level below its parent and is entered from exactly the slot that owns
  // its cluster.
  ghost predicate Hangs(v: Vol, c: nat)
    requires c in v.tabs
  {
    && Parent(v, c) in v.tabs && Parent(v, c) in v.depth && c in v.depth
    && v.depth[c] == v.depth[Parent(v, c)] + 1
    && c in v.own && v.own[c].dir == Parent(v, c)
    && v.own[c] in v.chains && v.chains[v.own[c]] == [c]
    && IsSlot(v, v.own[c]) && IsDir(Ent(v, v.own[c]))
  }

  ghost predicate DirOk(v: Vol, c: nat)
    requires c in v.tabs
  {
    && ROOT_CLUSTER <= c < CLUSTER_MAP_SIZE && v.fat[c] == END_OF_FILE
    && Live(v.tabs[c][0]) && IsDir(v.tabs[c][0])
    && (if c == ROOT_CLUSTER then Parent(v, c) == c else Hangs(v, c))
  }

  // A cluster with an owner lies on the owner's chain.
  ghost predicate CellOk(v: Vol, k: nat)
    requires k in v.own
  {
    v.own[k] in v.chains && k in v.chains[v.own[k]]
  }

  ghost predicate Covered(v: Vol, s: Slot) {
    IsSlot(v, s) && Live(Ent(v, s)) ==> s in v.chains
  }

  predicate SameKey(e: Entry, f: Entry) {
    e.name == f.name && e.ext == f.ext && (IsDir(e) <==> IsDir(f))
  }

  ghost predicate Distinct(t: Table) {
    forall i, j :: 1 <= i < j < TABLE_SIZE && Live(t[i]) && Live(t[j]) ==> !SameKey(t[i], t[j])
  }

  ghost predicate HasLive(t: Table) {
    exists i :: 1 <= i < TABLE_SIZE && Live(t[i])
  }

  // The header flag says exactly whether the directory has a live entry.
  ghost predicate FlagExact(t: Table) {
    t[0].userAttribute == if HasLive(t) then UATTR_NOT_EMPTY else 0
  }

  ghost predicate DeadCleared(t: Table) {
    forall i :: 1 <= i < TABLE_SIZE && !Live(t[i]) ==> t[i] == ZERO_ENTRY
  }

  ghost predicate KeysOk(v: Vol, c: nat)
    requires c in v.tabs
  {
    Distinct(v.tabs[c])
  }

  ghost predicate CleanOk(v: Vol, c: nat)
    requires c in v.tabs
  {
    FlagExact(v.tabs[c]) && DeadCleared(v.tabs[c])
  }

  ghost predicate Base(v: Vol) {
    && v.fat[0] == CLUSTER_0_VALUE && v.fat[1] == CLUSTER_1_VALUE
    && v.tabs.Keys == v.depth.Keys
    && ROOT_CLUSTER in v.tabs && v.depth[ROOT_CLUSTER] == 0
  }

  // The structure: a tree of directories whose live slots own disjoint chains.
  ghost predicate Tree(v: Vol) {
    && Base(v)
    && (forall s {:trigger SlotOk(v, s)} :: s in v.chains ==> SlotOk(v, s))
    && (forall s {:trigger Covered(v, s)} :: Covered(v, s))
    && (forall k {:trigger CellOk(v, k)} :: k in v.own ==> CellOk(v, k))
    && (forall c {:trigger DirOk(v, c)} :: c in v.tabs ==> DirOk(v, c))
    && (forall c {:trigger KeysOk(v, c)} :: c in v.tabs ==> KeysOk(v, c))
  }

  // Everything that format, write, read and delete keep.
  ghost predicate Inv(v: Vol) {
    Tree(v) && forall c {:trigger CleanOk(v, c)} :: c in v.tabs ==> CleanOk(v, c)
  }

  // No map cell is in use without an owner.
  ghost predicate NoLeak(v: Vol) {
    forall k :: 3 <= k < CLUSTER_MAP_SIZE && v.fat[k] != 0 ==> k in v.own
  }

  /* Searching a table */

  // What the driver looks for when it scans the slots of a table.
  datatype Pattern =
    | Dead
    | Folder(name: Name)
    | Key(name: Name, ext: Ext)
    | FileKey(name: Name, ext: Ext)
    | FolderKey(name: Name, ext: Ext)
    | Named(name: Name)

  predicate Matches(e: Entry, p: Pattern) {
    match p
    case Dead => !Live(e)
    case Folder(n) => e.name == n && Live(e) && IsDir(e)
    case Key(n, x) => e.name == n && e.ext == x && Live(e)
    case FileKey(n, x) => e.name == n && e.ext == x && Live(e) && !IsDir(e)
    case FolderKey(n, x) => e.name == n && e.ext == x && Live(e) && IsDir(e)
    case Named(n) => e.name == n
  }

  // The first matching slot at or after `i`, or TABLE_SIZE.
  function FirstFrom(t: Table, p: Pattern, i: nat): (s: nat)
    requires i <= TABLE_SIZE
    ensures i <= s <= TABLE_SIZE
    ensures s < TABLE_SIZE ==> Matches(t[s], p)
    ensures forall j :: i <= j < s ==> !Matches(t[j], p)
    decreases TABLE_SIZE - i
  {
    if i == TABLE_SIZE || Matches(t[i], p) then i else FirstFrom(t, p, i + 1)
  }

  function First(t: Table, p: Pattern): (s: nat)
    ensures 1 <= s <= TABLE_SIZE
    ensures s < TABLE_SIZE ==> Matches(t[s], p)
    ensures forall j :: 1 <= j < s ==> !Matches(t[j], p)
  {
    FirstFrom(t, p, 1)
  }

  lemma FirstIs(t: Table, p: Pattern, s: nat)
    requires 1 <= s <= TABLE_SIZE
    requires s < TABLE_SIZE ==> Matches(t[s], p)
    requires forall j :: 1 <= j < s ==> !Matches(t[j], p)
    ensures First(t, p) == s
  {
  }

  /* The ways in which the driver adds to a volume and takes from it */

  ghost function Owned(cs: seq<nat>, s: Slot): (m: map<nat, Slot>)
  {
    map k | k in cs :: s
  }

  function Filled(t: Table, i: nat, e: Entry): Table
    requires 1 <= i < TABLE_SIZE
  {
    t[0 := t[0].(userAttribute := UATTR_NOT_EMPTY)][i := e]
  }

  ghost function AddFile(v: Vol, s: Slot, e: Entry, cs: seq<nat>, fat: FatMap): Vol
    requires IsSlot(v, s)
  {
    Vol(fat, v.tabs[s.dir := Filled(v.tabs[s.dir], s.index, e)], v.depth, v.chains[s := cs], v.own + Owned(cs, s))
  }

  ghost function AddFolder(v: Vol, s: Slot, e: Entry, k: nat, table: Table): Vol
    requires IsSlot(v, s) && s.dir in v.depth && k < CLUSTER_MAP_SIZE
  {
    Vol(v.fat[k := END_OF_FILE],
        v.tabs[s.dir := Filled(v.tabs[s.dir], s.index, e)][k := table],
        v.depth[k := v.depth[s.dir] + 1],
        v.chains[s := [k]],
        v.own[k := s])
  }

  function Freed(fat: FatMap, cs: seq<nat>): (r: FatMap)
    ensures forall k :: 0 <= k < CLUSTER_MAP_SIZE ==> r[k] == if k in cs then 0 else fat[k]
  {
    seq(CLUSTER_MAP_SIZE, k requires 0 <= k < CLUSTER_MAP_SIZE => if k in cs then 0 else fat[k])
  }

  ghost function Emptied(t: Table, i: nat): Table
    requires 1 <= i < TABLE_SIZE
  {
    var u := t[i := ZERO_ENTRY];
    if HasLive(u) then u else u[0 := u[0].(userAttribute := 0)]
  }

  /* Frames: what a slot and a directory depend on */

  ghost predicate SameChain(f: FatMap, g: FatMap, cs: seq<nat>) {
    forall k :: k in cs && k < CLUSTER_MAP_SIZE ==> f[k] == g[k]
  }

  lemma ChainFrame(f: FatMap, g: FatMap, cs: seq<nat>)
    requires IsChain(f, cs) && SameChain(f, g, cs)
    ensures IsChain(g, cs)
  {
    forall j | 0 <= j < |cs|
      ensures Link(g, cs, j)
    {
      assert Link(f, cs, j);
      assert cs[j] in cs;
    }
  }

  // Two headers that differ at most in what the structure does not read.
  predicate SameHeader(a: Entry, b: Entry) {
    a.name == b.name && a.ext == b.ext && SameShape(a, b)
  }

  predicate SameShape(a: Entry, b: Entry) {
    a.cluster == b.cluster && a.attribute == b.attribute && a.undelete == b.undelete
  }

  predicate SameEntry(a: Entry, b: Entry) {
    a == b.(times := a.times)
  }

  lemma SlotFrame(v: Vol, w: Vol, s: Slot)
    requires s in v.chains && SlotOk(v, s)
    requires s in w.chains && w.chains[s] == v.chains[s]
    requires IsSlot(w, s) && SameEntry(Ent(w, s), Ent(v, s))
    requires SameChain(v.fat, w.fat, v.chains[s])
    requires Owns(w, s, v.chains[s])
    requires IsDir(Ent(v, s)) ==> var k := Ent(v, s).cluster;
             k in v.tabs ==> k in w.tabs && SameHeader(w.tabs[k][0], v.tabs[k][0])
    ensures SlotOk(w, s)
  {
    hide Blocks, IsChain;
    ChainFrame(v.fat, w.fat, v.chains[s]);
    if IsDir(Ent(v, s)) {
      var k :| v.chains[s] == [k] && IsChild(v, k, s.dir, Ent(v, s));
      assert IsChild(w, k, s.dir, Ent(w, s));
    }
  }

  lemma DirFrame(v: Vol, w: Vol, c: nat)
    requires c in v.tabs && DirOk(v, c)
    requires c in w.tabs && SameShape(w.tabs[c][0], v.tabs[c][0]) && w.fat[c] == v.fat[c]
    requires c != ROOT_CLUSTER ==>
      var p := Parent(v, c);
      && (p in v.tabs && p in v.depth ==> p in w.tabs && p in w.depth && w.depth[p] == v.depth[p])
      && (c in v.depth ==> c in w.depth && w.depth[c] == v.depth[c])
      && (c in v.own ==>
            var s := v.own[c];
            && c in w.own && w.own[c] == s
            && (s in v.chains ==> s in w.chains && w.chains[s] == v.chains[s])
            && (IsSlot(v, s) ==> IsSlot(w, s) && Ent(w, s).attribute == Ent(v, s).attribute))
    ensures DirOk(w, c)
  {
  }

  ghost predicate TableOk(t: Table) {
    Distinct(t) && FlagExact(t) && DeadCleared(t)
  }

  lemma TablesFrame(v: Vol, w: Vol)
    requires Tree(v)
    requires forall c :: c in w.tabs ==> (c in v.tabs && w.tabs[c] == v.tabs[c]) || Distinct(w.tabs[c])
    ensures forall c {:trigger KeysOk(w, c)} :: c in w.tabs ==> KeysOk(w, c)
  {
    hide Distinct, SlotOk, DirOk;
    forall c {:trigger KeysOk(w, c)} | c in w.tabs
      ensures KeysOk(w, c)
    {
      if c in v.tabs {
        assert KeysOk(v, c);
      }
    }
  }

  lemma CleanFrame(v: Vol, w: Vol)
    requires Inv(v)
    requires forall c :: c in w.tabs ==> (c in v.tabs && w.tabs[c] == v.tabs[c]) || TableOk(w.tabs[c])
    ensures forall c {:trigger CleanOk(w, c)} :: c in w.tabs ==> CleanOk(w, c)
  {
    hide Distinct, FlagExact, DeadCleared, SlotOk, DirOk;
    forall c {:trigger CleanOk(w, c)} | c in w.tabs
      ensures CleanOk(w, c)
    {
      if c in v.tabs {
        assert CleanOk(v, c);
      }
    }
  }

  lemma CleanTable(v: Vol, c: nat)
    requires Inv(v) && c in v.tabs
    ensures TableOk(v.tabs[c])
  {
    assert KeysOk(v, c) && CleanOk(v, c);
  }

  /* Each change keeps the invariant */

  ghost predicate CanAdd(v: Vol, s: Slot, e: Entry) {
    && Tree(v) && IsSlot(v, s) && !Live(Ent(v, s))
    && Live(e)
    && (forall i :: 1 <= i < TABLE_SIZE && Live(v.tabs[s.dir][i]) ==> !SameKey(v.tabs[s.dir][i], e))
  }

  lemma FilledTable(t: Table, i: nat, e: Entry)
    requires 1 <= i < TABLE_SIZE && Live(e)
    requires Distinct(t)
    requires forall j :: 1 <= j < TABLE_SIZE && Live(t[j]) ==> !SameKey(t[j], e)
    ensures var u := Filled(t, i, e);
      SameHeader(u[0], t[0]) && Distinct(u) && FlagExact(u) && (DeadCleared(t) ==> TableOk(u))
  {
    assert Live(Filled(t, i, e)[i]);
  }

  ghost predicate CanAddFile(v: Vol, s: Slot, e: Entry, cs: seq<nat>, fat: FatMap) {
    && CanAdd(v, s, e) && !IsDir(e) && e.filesize > 0 && |cs| == Blocks(e.filesize)
    && IsChain(fat, cs) && e.cluster == cs[0]
    && (forall k :: k in cs ==> k < CLUSTER_MAP_SIZE && v.fat[k] == 0)
    && (forall k :: 0 <= k < CLUSTER_MAP_SIZE && k !in cs ==> fat[k] == v.fat[k])
  }

  // What AddFile changes, field by field.
  ghost predicate FileAdded(v: Vol, w: Vol, s: Slot, e: Entry, cs: seq<nat>) {
    && CanAddFile(v, s, e, cs, w.fat)
    && w.tabs == v.tabs[s.dir := Filled(v.tabs[s.dir], s.index, e)]
    && w.depth == v.depth
    && w.chains == v.chains[s := cs]
    && w.own == v.own + Owned(cs, s)
  }

  lemma ChainCell(fat: FatMap, cs: seq<nat>, k: nat)
    requires IsChain(fat, cs) && k in cs
    ensures 3 <= k < CLUSTER_MAP_SIZE && fat[k] != 0
  {
    var j :| 0 <= j < |cs| && cs[j] == k;
    assert Link(fat, cs, j);
    assert j + 1 < |cs| ==> Link(fat, cs, j + 1);
  }

  // An owned cluster is in use, so a free one is nobody's.
  lemma OwnedCell(v: Vol, k: nat)
    requires Tree(v) && k in v.own
    ensures 3 <= k < CLUSTER_MAP_SIZE && v.fat[k] != 0
  {
    assert CellOk(v, k) && SlotOk(v, v.own[k]);
    ChainCell(v.fat, v.chains[v.own[k]], k);
  }

  lemma FileAddedSlots(v: Vol, w: Vol, s: Slot, e: Entry, cs: seq<nat>)
    requires FileAdded(v, w, s, e, cs)
    ensures forall q {:trigger SlotOk(w, q)} :: q in w.chains ==> SlotOk(w, q)
  {
    hide Blocks, IsChain, Distinct, FlagExact, DeadCleared;
    forall q {:trigger SlotOk(w, q)} | q in w.chains
      ensures SlotOk(w, q)
    {
      if q != s {
        assert SlotOk(v, q);
        forall k | k in v.chains[q]
          ensures k < CLUSTER_MAP_SIZE && w.fat[k] == v.fat[k] && k !in cs
        {
          OwnedCell(v, k);
        }
        assert KeysOk(v, s.dir);
        FilledTable(v.tabs[s.dir], s.index, e);
        SlotFrame(v, w, q);
      }
    }
  }

  lemma FileAddedDirs(v: Vol, w: Vol, s: Slot, e: Entry, cs: seq<nat>)
    requires FileAdded(v, w, s, e, cs)
    ensures forall c {:trigger DirOk(w, c)} :: c in w.tabs ==> DirOk(w, c)
  {
    hide Blocks, IsChain, Distinct, FlagExact, DeadCleared;
    assert KeysOk(v, s.dir);
    FilledTable(v.tabs[s.dir], s.index, e);
    forall c {:trigger DirOk(w, c)} | c in w.tabs
      ensures DirOk(w, c)
    {
      assert DirOk(v, c);
      if c != ROOT_CLUSTER {
        OwnedCell(v, c);
        assert SlotOk(v, v.own[c]);
      }
      DirFrame(v, w, c);
    }
  }

  lemma FileAddedCells(v: Vol, w: Vol, s: Slot, e: Entry, cs: seq<nat>)
    requires FileAdded(v, w, s, e, cs)
    ensures forall k {:trigger CellOk(w, k)} :: k in w.own ==> CellOk(w, k)
    ensures forall q {:trigger Covered(w, q)} :: Covered(w, q)
  {
    hide Blocks, IsChain, Distinct, FlagExact, DeadCleared;
    forall k {:trigger CellOk(w, k)} | k in w.own
      ensures CellOk(w, k)
    {
      if k !in cs {
        assert CellOk(v, k) && SlotOk(v, v.own[k]);
      }
    }
    forall q {:trigger Covered(w, q)}
      ensures Covered(w, q)
    {
      assert Covered(v, q);
    }
  }

  lemma FileAddedKeepsInv(v: Vol, w: Vol, s: Slot, e: Entry, cs: seq<nat>)
    requires FileAdded(v, w, s, e, cs)
    ensures Tree(w) && (Inv(v) ==> Inv(w))
    ensures NoLeak(v) ==> NoLeak(w)
  {
    hide Blocks, IsChain, Distinct, FlagExact, DeadCleared, SlotOk, DirOk, Covered, CellOk;
    FileAddedSlots(v, w, s, e, cs);
    FileAddedDirs(v, w, s, e, cs);
    FileAddedCells(v, w, s, e, cs);
    assert KeysOk(v, s.dir);
    FilledTable(v.tabs[s.dir], s.index, e);
    TablesFrame(v, w);
    if Inv(v) {
      CleanTable(v, s.dir);
      CleanFrame(v, w);
    }
  }

  // The table of a new directory: a header that names it and its parent, and no live slot.
  ghost predicate FreshTable(t: Table, name: Name, parent: nat) {
    && Live(t[0]) && IsDir(t[0]) && t[0].name == name && t[0].ext == ZERO_EXT && t[0].cluster == parent
    && t[0].userAttribute == 0
    && forall i :: 1 <= i < TABLE_SIZE ==> t[i] == ZERO_ENTRY
  }

  ghost predicate FolderAdded(v: Vol, w: Vol, s: Slot, e: Entry, k: nat, table: Table) {
    && CanAdd(v, s, e) && IsDir(e) && e.ext == ZERO_EXT && e.cluster == k
    && 3 <= k < CLUSTER_MAP_SIZE && v.fat[k] == 0
    && FreshTable(table, e.name, s.dir)
    && w.fat == v.fat[k := END_OF_FILE]
    && w.tabs == v.tabs[s.dir := Filled(v.tabs[s.dir], s.index, e)][k := table]
    && s.dir in v.depth && w.depth == v.depth[k := v.depth[s.dir] + 1]
    && w.chains == v.chains[s := [k]]
    && w.own == v.own[k := s]
  }

  lemma FolderAddedSlots(v: Vol, w: Vol, s: Slot, e: Entry, k: nat, table: Table)
    requires FolderAdded(v, w, s, e, k, table)
    ensures forall q {:trigger SlotOk(w, q)} :: q in w.chains ==> SlotOk(w, q)
  {
    hide Blocks, Distinct, FlagExact, DeadCleared;
    assert KeysOk(v, s.dir);
    FilledTable(v.tabs[s.dir], s.index, e);
    assert k !in v.tabs by { assert k in v.tabs ==> DirOk(v, k); }
    forall q {:trigger SlotOk(w, q)} | q in w.chains
      ensures SlotOk(w, q)
    {
      if q != s {
        assert SlotOk(v, q);
        forall j | j in v.chains[q]
          ensures j < CLUSTER_MAP_SIZE && w.fat[j] == v.fat[j] && j != k
        {
          OwnedCell(v, j);
        }
        SlotFrame(v, w, q);
      } else {
        assert IsChild(w, k, s.dir, Ent(w, s));
        assert Link(w.fat, [k], 0);
      }
    }
  }

  lemma FolderAddedDirs(v: Vol, w: Vol, s: Slot, e: Entry, k: nat, table: Table)
    requires FolderAdded(v, w, s, e, k, table)
    ensures forall c {:trigger DirOk(w, c)} :: c in w.tabs ==> DirOk(w, c)
  {
    hide Blocks, IsChain, Distinct, FlagExact, DeadCleared;
    assert KeysOk(v, s.dir);
    FilledTable(v.tabs[s.dir], s.index, e);
    assert k !in v.tabs by { assert k in v.tabs ==> DirOk(v, k); }
    forall c {:trigger DirOk(w, c)} | c in w.tabs
      ensures DirOk(w, c)
    {
      if c != k {
        assert DirOk(v, c);
        if c != ROOT_CLUSTER {
          OwnedCell(v, c);
          assert SlotOk(v, v.own[c]);
        }
        DirFrame(v, w, c);
      }
    }
  }

  lemma FolderAddedCells(v: Vol, w: Vol, s: Slot, e: Entry, k: nat, table: Table)
    requires FolderAdded(v, w, s, e, k, table)
    ensures forall j {:trigger CellOk(w, j)} :: j in w.own ==> CellOk(w, j)
    ensures forall q {:trigger Covered(w, q)} :: Covered(w, q)
  {
    hide Blocks, IsChain, Distinct, FlagExact, DeadCleared;
    forall j {:trigger CellOk(w, j)} | j in w.own
      ensures CellOk(w, j)
    {
      if j != k {
        assert CellOk(v, j) && SlotOk(v, v.own[j]);
      }
    }
    forall q {:trigger Covered(w, q)}
      ensures Covered(w, q)
    {
      assert Covered(v, q);
    }
  }

  lemma FolderAddedKeepsInv(v: Vol, w: Vol, s: Slot, e: Entry, k: nat, table: Table)
    requires FolderAdded(v, w, s, e, k, table)
    ensures Tree(w) && (Inv(v) ==> Inv(w))
    ensures NoLeak(v) ==> NoLeak(w)
  {
    hide Blocks, IsChain, SlotOk, Covered, CellOk;
    FolderAddedSlots(v, w, s, e, k, table);
    FolderAddedDirs(v, w, s, e, k, table);
    FolderAddedCells(v, w, s, e, k, table);
    assert k !in v.tabs by { assert k in v.tabs ==> DirOk(v, k); }
    hide DirOk, Distinct, FlagExact, DeadCleared;
    assert KeysOk(v, s.dir);
    FilledTable(v.tabs[s.dir], s.index, e);
    FreshIsEmpty(table, e.name, s.dir);
    TablesFrame(v, w);
    if Inv(v) {
      CleanTable(v, s.dir);
      CleanFrame(v, w);
    }
  }

  lemma FreshIsEmpty(t: Table, name: Name, parent: nat)
    requires FreshTable(t, name, parent)
    ensures TableOk(t)
  {
  }

  // Only time stamps of one slot differ.
  ghost predicate Touched(v: Vol, w: Vol, s: Slot, e: Entry) {
    && IsSlot(v, s) && SameEntry(e, Ent(v, s)) && (!Live(e) ==> e == Ent(v, s))
    && w == v.(tabs := v.tabs[s.dir := v.tabs[s.dir][s.index := e]])
  }

  lemma TouchedTable(t: Table, i: nat, e: Entry)
    requires 1 <= i < TABLE_SIZE && SameEntry(e, t[i]) && (!Live(e) ==> e == t[i]) && Distinct(t)
    ensures Distinct(t[i := e]) && (TableOk(t) ==> TableOk(t[i := e]))
  {
    var u := t[i := e];
    assert forall j :: 1 <= j < TABLE_SIZE ==> Live(u[j]) == Live(t[j]);
  }

  lemma TouchedKeepsInv(v: Vol, w: Vol, s: Slot, e: Entry)
    requires Tree(v) && Touched(v, w, s, e)
    ensures Tree(w) && (Inv(v) ==> Inv(w))
    ensures NoLeak(v) ==> NoLeak(w)
  {
    hide Blocks, IsChain, Distinct, FlagExact, DeadCleared;
    forall q {:trigger SlotOk(w, q)} | q in w.chains
      ensures SlotOk(w, q)
    {
      assert SlotOk(v, q);
      SlotFrame(v, w, q);
    }
    forall c {:trigger DirOk(w, c)} | c in w.tabs
      ensures DirOk(w, c)
    {
      assert DirOk(v, c);
      DirFrame(v, w, c);
    }
    forall q {:trigger Covered(w, q)}
      ensures Covered(w, q)
    {
      assert Covered(v, q);
    }
    forall k {:trigger CellOk(w, k)} | k in w.own
      ensures CellOk(w, k)
    {
      assert CellOk(v, k);
    }
    assert KeysOk(v, s.dir);
    TouchedTable(v.tabs[s.dir], s.index, e);
    TablesFrame(v, w);
    if Inv(v) {
      CleanTable(v, s.dir);
      CleanFrame(v, w);
    }
  }

  /* Directories and the entries that name them */

  lemma ParentIsAbove(v: Vol, c: nat)
    requires Tree(v) && c in v.tabs && c != ROOT_CLUSTER
    ensures Parent(v, c) in v.tabs && v.depth[c] == v.depth[Parent(v, c)] + 1
  {
    assert DirOk(v, c);
  }

  // The entry that names a directory.
  lemma OwnerSlot(v: Vol, c: nat)
    requires Tree(v) && c in v.tabs && c != ROOT_CLUSTER
    ensures c in v.own && v.own[c] in v.chains && v.own[c].dir == Parent(v, c) && IsSlot(v, v.own[c])
    ensures IsDir(Ent(v, v.own[c])) && Live(Ent(v, v.own[c])) && Ent(v, v.own[c]).cluster == c
  {
    hide IsChain;
    assert DirOk(v, c);
    assert SlotOk(v, v.own[c]);
  }

  // What a folder's entry and the folder's own table say of each other.
  lemma FolderSlot(v: Vol, s: Slot)
    requires Tree(v) && s in v.chains && IsSlot(v, s) && IsDir(Ent(v, s))
    ensures var k := Ent(v, s).cluster;
      && Live(Ent(v, s)) && Ent(v, s).ext == ZERO_EXT
      && k in v.tabs && k != s.dir && k != ROOT_CLUSTER && v.chains[s] == [k]
      && k in v.own && v.own[k] == s
      && Live(v.tabs[k][0]) && IsDir(v.tabs[k][0])
      && v.tabs[k][0].name == Ent(v, s).name && v.tabs[k][0].ext == ZERO_EXT && Parent(v, k) == s.dir
      && s.dir in v.tabs && ROOT_CLUSTER <= s.dir < CLUSTER_MAP_SIZE && 3 <= k < CLUSTER_MAP_SIZE
  {
    hide IsChain;
    assert SlotOk(v, s);
    assert DirOk(v, Ent(v, s).cluster);
    assert DirOk(v, s.dir);
  }
}
