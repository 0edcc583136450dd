// rename_dir: relabelling a folder in its parent's table and in its own header.
module Renaming {
  import opened Layout
  import opened Volume
  import opened Pruning
  import opened Disks
  import opened Shown
  import opened Operations
  import opened Writing
  import opened Deleting

  // The entry that a folder gets when it is renamed or moved, built from the header of its own table.
  function RelinkedEntry(header: Entry, name: Name, ext: Ext, k: U32, now: Stamp): Entry {
    Entry(name, ext, header.attribute, header.userAttribute, 1,
          ZERO_TIMES.(createTime := now.time, createDate := now.date), k, header.filesize)
  }

  function Relabelled(t: Table, name: Name): Table {
    t[0 := t[0].(name := name)]
  }

  ghost predicate IsFolder(v: Vol, s: Slot) {
    Tree(v) && s in v.chains && IsSlot(v, s) && IsDir(Ent(v, s)) && Ent(v, s).cluster in v.tabs
  }

  ghost predicate NameFree(v: Vol, s: Slot, name: Name)
    requires IsSlot(v, s)
  {
    name == Ent(v, s).name || FolderAt(v, s.dir, name).None?
  }

  // The slot `s` is a live folder and the new name is free for it.
  ghost predicate Renamable(v: Vol, s: Slot, name: Name) {
    IsFolder(v, s) && NameFree(v, s, name)
  }

  ghost function Renamed(v: Vol, s: Slot, name: Name, now: Stamp): Vol
    requires IsFolder(v, s)
  {
    var k := Ent(v, s).cluster;
    var e := RelinkedEntry(v.tabs[k][0], name, ZERO_EXT, k, now);
    v.(tabs := v.tabs[s.dir := v.tabs[s.dir][s.index := e]][k := Relabelled(v.tabs[k], name)])
  }

  ghost predicate IsRenamed(v: Vol, w: Vol, s: Slot, e: Entry, k: nat, name: Name) {
    && Renamable(v, s, name) && k == Ent(v, s).cluster && k != s.dir
    && e.name == name && e.ext == ZERO_EXT && IsDir(e) && Live(e) && e.cluster == k
    && w.fat == v.fat && w.depth == v.depth && w.chains == v.chains && w.own == v.own
    && w.tabs == v.tabs[s.dir := v.tabs[s.dir][s.index := e]][k := Relabelled(v.tabs[k], name)]
  }

  lemma RenamedIs(v: Vol, s: Slot, name: Name, now: Stamp)
    requires Renamable(v, s, name)
    ensures var k := Ent(v, s).cluster;
      IsRenamed(v, Renamed(v, s, name, now), s, RelinkedEntry(v.tabs[k][0], name, ZERO_EXT, k, now), k, name)
  {
    hide SlotOk, DirOk, FolderAt;
    FolderSlot(v, s);
  }

  lemma RenamedSlots(v: Vol, w: Vol, s: Slot, e: Entry, k: nat, name: Name)
    requires IsRenamed(v, w, s, e, k, name)
    ensures forall q {:trigger SlotOk(w, q)} :: q in w.chains ==> SlotOk(w, q)
  {
    hide Blocks, IsChain, FolderAt, First;
    FolderSlot(v, s);
    forall q {:trigger SlotOk(w, q)} | q in w.chains
      ensures SlotOk(w, q)
    {
      assert SlotOk(v, q);
      if q == s {
        assert IsChild(w, k, s.dir, e);
      } else {
        if IsDir(Ent(v, q)) {
          FolderSlot(v, q);
        }
        SlotFrame(v, w, q);
      }
    }
  }

  lemma RenamedDirs(v: Vol, w: Vol, s: Slot, e: Entry, k: nat, name: Name)
    requires IsRenamed(v, w, s, e, k, name)
    ensures forall c {:trigger DirOk(w, c)} :: c in w.tabs ==> DirOk(w, c)
  {
    hide Blocks, IsChain, FolderAt, First;
    FolderSlot(v, s);
    forall c {:trigger DirOk(w, c)} | c in w.tabs
      ensures DirOk(w, c)
    {
      assert DirOk(v, c);
      DirFrame(v, w, c);
    }
  }

  lemma RenamedTables(v: Vol, w: Vol, s: Slot, e: Entry, k: nat, name: Name)
    requires IsRenamed(v, w, s, e, k, name)
    ensures Distinct(w.tabs[s.dir]) && Distinct(w.tabs[k])
    ensures Inv(v) ==> TableOk(w.tabs[s.dir]) && TableOk(w.tabs[k])
  {
    hide Blocks, IsChain, SlotOk, DirOk, FirstFrom;
    FolderSlot(v, s);
    assert KeysOk(v, s.dir) && KeysOk(v, k);
    if Inv(v) {
      CleanTable(v, s.dir);
      CleanTable(v, k);
    }
    var t := v.tabs[s.dir];
    forall j | 1 <= j < TABLE_SIZE && j != s.index && Live(t[j])
      ensures !SameKey(t[j], e)
    {
      if IsDir(t[j]) {
        FoldersHaveNoExt(v, s.dir, j);
        assert name == Ent(v, s).name || !Matches(t[j], Folder(name));
      }
    }
    ReplacedTable(t, s.index, e);
    RelabelledTable(v.tabs[k], name);
  }

  lemma ReplacedTable(t: Table, i: nat, e: Entry)
    requires 1 <= i < TABLE_SIZE && Distinct(t) && Live(t[i]) && Live(e)
    requires forall j :: 1 <= j < TABLE_SIZE && j != i && Live(t[j]) ==> !SameKey(t[j], e)
    ensures Distinct(t[i := e]) && (TableOk(t) ==> TableOk(t[i := e]))
  {
    var u := t[i := e];
    assert Live(u[i]);
  }

  lemma RelabelledTable(t: Table, name: Name)
    requires Distinct(t)
    ensures Distinct(Relabelled(t, name)) && (TableOk(t) ==> TableOk(Relabelled(t, name)))
  {
    var u := Relabelled(t, name);
    assert forall j :: 1 <= j < TABLE_SIZE ==> u[j] == t[j];
    assert HasLive(u) == HasLive(t);
  }

  // Renaming a folder keeps the tree and the invariant.
  lemma RenamedKeepsInv(v: Vol, w: Vol, s: Slot, e: Entry, k: nat, name: Name)
    requires IsRenamed(v, w, s, e, k, name)
    ensures Tree(w) && (Inv(v) ==> Inv(w))
    ensures NoLeak(v) ==> NoLeak(w)
  {
    hide Blocks, IsChain, Distinct, FlagExact, DeadCleared, SlotOk, DirOk, FolderAt;
    RenamedSlots(v, w, s, e, k, name);
    RenamedDirs(v, w, s, e, k, name);
    RenamedTables(v, w, s, e, k, name);
    TablesFrame(v, w);
    if Inv(v) {
      CleanFrame(v, w);
    }
    forall q {:trigger Covered(w, q)}
      ensures Covered(w, q)
    {
      assert Covered(v, q);
    }
    forall c {:trigger CellOk(w, c)} | c in w.own
      ensures CellOk(w, c)
    {
      assert CellOk(v, c);
    }
  }

  /* Names */

  lemma SameSlotsFind(t: Table, u: Table, p: Pattern)
    requires forall j :: 1 <= j < TABLE_SIZE ==> u[j] == t[j]
    ensures First(u, p) == First(t, p)
  {
    FirstIs(u, p, First(t, p));
  }

  lemma RenamedFinds(v: Vol, w: Vol, s: Slot, e: Entry, k: nat, name: Name, dir: nat, ext: Ext, other: Name)
    requires IsRenamed(v, w, s, e, k, name) && dir in v.tabs
    ensures First(w.tabs[dir], FileKey(other, ext)) == First(v.tabs[dir], FileKey(other, ext))
    ensures FolderAt(w, dir, other) ==
      if dir == s.dir && other == name then Some(k)
      else if dir == s.dir && other == Ent(v, s).name then None
      else FolderAt(v, dir, other)
  {
    hide SlotOk, DirOk, FirstFrom, First, Base;
    FolderSlot(v, s);
    if dir == s.dir {
      var t, u := v.tabs[dir], w.tabs[dir];
      assert u == t[s.index := e];
      FirstUnmoved(t, u, s.index, FileKey(other, ext));
      OnlyFolderSlot(v, s);
      if other == name {
        forall j | 1 <= j < TABLE_SIZE && j != s.index
          ensures !Matches(u[j], Folder(name))
        {
          assert name == Ent(v, s).name || !Matches(t[j], Folder(name));
        }
        FirstIsOnly(u, s.index, Folder(name));
      } else if other == Ent(v, s).name {
        FirstIs(u, Folder(other), TABLE_SIZE);
      } else {
        FirstUnmoved(t, u, s.index, Folder(other));
      }
    } else if dir == k {
      SameSlotsFind(v.tabs[k], w.tabs[k], FileKey(other, ext));
      SameSlotsFind(v.tabs[k], w.tabs[k], Folder(other));
    }
  }

  lemma OnlyFolderSlot(v: Vol, s: Slot)
    requires Tree(v) && s in v.chains && IsSlot(v, s) && IsDir(Ent(v, s))
    ensures forall j :: 1 <= j < TABLE_SIZE && j != s.index ==> !Matches(v.tabs[s.dir][j], Folder(Ent(v, s).name))
  {
    hide SlotOk, DirOk;
    FolderSlot(v, s);
    var t := v.tabs[s.dir];
    assert KeysOk(v, s.dir);
    forall j | 1 <= j < TABLE_SIZE && j != s.index && Live(t[j]) && IsDir(t[j])
      ensures t[j].name != Ent(v, s).name
    {
      FoldersHaveNoExt(v, s.dir, j);
      assert !SameKey(t[j], t[s.index]) || !SameKey(t[s.index], t[j]);
    }
  }

  // Renaming relabels exactly one folder and leaves the contents of every file alone.
  lemma RenamedNames(d: Disk, b: Disk, v: Vol, w: Vol, s: Slot, e: Entry, k: nat, name: Name, f: FileName)
    requires IsRenamed(v, w, s, e, k, name) && Tree(w)
    requires forall c :: 0 <= c < DISK_CLUSTERS && c != s.dir && c != k ==> b[c] == d[c]
    ensures FileAt(b, w, f) == FileAt(d, v, f)
    ensures FolderAt(w, f.dir, f.name) ==
      if f.dir == s.dir && f.name == name then Some(k)
      else if f.dir == s.dir && f.name == Ent(v, s).name then None
      else FolderAt(v, f.dir, f.name)
  {
    hide SlotOk, DirOk, FirstFrom, First, Relabelled;
    FolderSlot(v, s);
    if f.dir in v.tabs {
      RenamedFinds(v, w, s, e, k, name, f.dir, f.ext, f.name);
      var q := Slot(f.dir, First(v.tabs[f.dir], FileKey(f.name, f.ext)));
      if q.index < TABLE_SIZE {
        assert Covered(v, q);
        forall c | c in v.chains[q]
          ensures c < CLUSTER_MAP_SIZE && b[c] == d[c]
        {
          FileCellIsNoDir(v, q, c);
        }
        RenamedEntries(v, w, s, e, k, name, q);
      }
    }
    FileAtFrame(d, b, v, w, f);
  }

  lemma RenamedEntries(v: Vol, w: Vol, s: Slot, e: Entry, k: nat, name: Name, q: Slot)
    requires IsRenamed(v, w, s, e, k, name) && IsSlot(v, q) && q != s
    ensures Ent(w, q) == Ent(v, q)
  {
  }

  /* The disk */

  // After the visit of the read: the parent's table with the new entry, then the folder's table.
  function RenameLog(t: Table, i: nat, p: ClusterNo, child: Table, k: ClusterNo, name: Name,
      now: Stamp): seq<ClusterWrite>
    requires i < TABLE_SIZE
  {
    [PutTable(p, t[i := RelinkedEntry(child[0], name, ZERO_EXT, k, now)]), PutTable(k, Relabelled(child, name))]
  }

  lemma TwoTablesRep(d: Disk, v: Vol, w: Vol, p: ClusterNo, t: Table, k: ClusterNo, u: Table)
    requires Rep(d, v) && p != FAT_CLUSTER && k != FAT_CLUSTER && p != k && w.fat == v.fat
    requires w.tabs == v.tabs[p := t][k := u]
    ensures Rep(Put(Put(d, PutTable(p, t)), PutTable(k, u)), w)
  {
    hide AsTable, EncodeTable, AsFat, EncodeFat;
    AsTableIs(EncodeTable(t), t);
    AsTableIs(EncodeTable(u), u);
  }

  // What rename_dir leaves on disk, given that it replaces the slot it should.
  lemma {:induction false} RenamedRep(d: Disk, v: Vol, s: Slot, name: Name, now: Stamp)
    requires Rep(d, v) && Renamable(v, s, name) && s.dir < DISK_CLUSTERS && Ent(v, s).cluster < DISK_CLUSTERS
    ensures var k := Ent(v, s).cluster;
      Rep(Apply(d, RenameLog(v.tabs[s.dir], s.index, s.dir, v.tabs[k], k, name, now)), Renamed(v, s, name, now))
  {
    hide AsTable, EncodeTable, AsFat, EncodeFat, SlotOk, DirOk, FolderAt, RelinkedEntry, Relabelled;
    FolderSlot(v, s);
    var k := Ent(v, s).cluster;
    var t := v.tabs[s.dir][s.index := RelinkedEntry(v.tabs[k][0], name, ZERO_EXT, k, now)];
    var u := Relabelled(v.tabs[k], name);
    ApplyTwo(d, PutTable(s.dir, t), PutTable(k, u));
    TwoTablesRep(d, v, Renamed(v, s, name, now), s.dir, t, k, u);
  }

  /* When the first slot with the old name is another one */

  // Two live slots cannot name the same cluster.
  lemma TwoEntries(u: Vol, s: Slot, r: Slot)
    requires IsSlot(u, s) && IsSlot(u, r) && s != r
    requires Live(Ent(u, s)) && Live(Ent(u, r)) && Ent(u, s).cluster == Ent(u, r).cluster
    ensures !Tree(u)
  {
    hide Tree;
    if Tree(u) {
      LiveOwnsFirst(u, s);
      LiveOwnsFirst(u, r);
    }
  }

  lemma LiveOwnsFirst(u: Vol, s: Slot)
    requires Tree(u) && IsSlot(u, s) && Live(Ent(u, s))
    ensures Ent(u, s).cluster in u.own && u.own[Ent(u, s).cluster] == s
  {
    assert Covered(u, s);
    assert SlotOk(u, s);
    assert u.chains[s][0] in u.chains[s];
  }

  // A tree has no two live folders of one name in a directory.
  lemma TwoNames(u: Vol, c: nat, i: nat, j: nat)
    requires c in u.tabs && 1 <= i < TABLE_SIZE && 1 <= j < TABLE_SIZE && i != j
    requires Live(u.tabs[c][i]) && Live(u.tabs[c][j]) && SameKey(u.tabs[c][i], u.tabs[c][j])
    ensures !Tree(u)
  {
    hide Tree;
    if Tree(u) {
      NamesDiffer(u, c, i, j);
    }
  }

  lemma NamesDiffer(u: Vol, c: nat, i: nat, j: nat)
    requires Tree(u) && c in u.tabs && 1 <= i < TABLE_SIZE && 1 <= j < TABLE_SIZE && i != j
    ensures Live(u.tabs[c][i]) && Live(u.tabs[c][j]) ==> !SameKey(u.tabs[c][i], u.tabs[c][j])
  {
    hide SlotOk, DirOk, Base;
    assert KeysOk(u, c);
    assert SameKey(u.tabs[c][i], u.tabs[c][j]) == SameKey(u.tabs[c][j], u.tabs[c][i]);
  }

  // A live folder entry agrees with the header of the folder's table.
  lemma HeaderAgrees(u: Vol, s: Slot)
    requires Tree(u) && IsSlot(u, s) && Live(Ent(u, s)) && IsDir(Ent(u, s))
    ensures var k := Ent(u, s).cluster;
      k in u.tabs && u.tabs[k][0].name == Ent(u, s).name && Parent(u, k) == s.dir
  {
    hide Tree;
    LiveSlot(u, s);
    FolderSlot(u, s);
  }

  // The disk after the two writes, when slot `i` is the one that is replaced.
  lemma {:induction false} RenameDisk(d: Disk, v: Vol, s: Slot, i: nat, name: Name, now: Stamp)
    requires Rep(d, v) && IsFolder(v, s) && s.dir < DISK_CLUSTERS && Ent(v, s).cluster < DISK_CLUSTERS
    requires 1 <= i < TABLE_SIZE && v.tabs[s.dir][i].name == Ent(v, s).name
    ensures var k := Ent(v, s).cluster;
      var e := RelinkedEntry(v.tabs[k][0], name, ZERO_EXT, k, now);
      var log := RenameLog(v.tabs[s.dir], i, s.dir, v.tabs[k], k, name, now);
      && IsDir(e) && Live(e) && e.name == name && e.ext == ZERO_EXT && e.cluster == k && k != s.dir
      && Tab(Apply(d, log[..1]), s.dir) == v.tabs[s.dir][i := e] && Tab(Apply(d, log), s.dir) == v.tabs[s.dir][i := e]
      && Tab(Apply(d, log[..1]), k) == v.tabs[k] && Tab(Apply(d, log), k) == Relabelled(v.tabs[k], name)
      && KeepsAllFolders(v, Apply(d, log[..1]), {k}) && KeepsAllFolders(v, Apply(d, log), {k})
      && (i != s.index ==> KeepsAllFolders(v, Apply(d, log[..1]), {}) && KeepsAllFolders(v, Apply(d, log), {}))
  {
    hide AsTable, EncodeTable, AsFat, EncodeFat, SlotOk, DirOk, FolderAt, Tree;
    FolderSlot(v, s);
    OnlyFolderSlot(v, s);
    var k := Ent(v, s).cluster;
    var t, u := v.tabs[s.dir][i := RelinkedEntry(v.tabs[k][0], name, ZERO_EXT, k, now)], Relabelled(v.tabs[k], name);
    var log := RenameLog(v.tabs[s.dir], i, s.dir, v.tabs[k], k, name, now);
    ApplyTwo(d, PutTable(s.dir, t), PutTable(k, u));
    assert log[..1] == [PutTable(s.dir, t)];
    AsTableIs(EncodeTable(t), t);
    AsTableIs(EncodeTable(u), u);
  }

  // When another slot has been replaced, two entries name the folder, before and after the second write.
  lemma {:induction false} WrongSlot(d: Disk, v: Vol, s: Slot, i: nat, name: Name, now: Stamp)
    requires Rep(d, v) && IsFolder(v, s) && s.dir < DISK_CLUSTERS && Ent(v, s).cluster < DISK_CLUSTERS
    requires 1 <= i < TABLE_SIZE && i != s.index && v.tabs[s.dir][i].name == Ent(v, s).name
    ensures var k := Ent(v, s).cluster;
      var log := RenameLog(v.tabs[s.dir], i, s.dir, v.tabs[k], k, name, now);
      !ShowsTree(Apply(d, log[..1])) && !ShowsTree(Apply(d, log))
  {
    hide AsTable, AsFat, Tree, Apply, KeepsAllFolders;
    RenameDisk(d, v, s, i, name, now);
    LiveSlot(v, s);
    var k := Ent(v, s).cluster;
    var log := RenameLog(v.tabs[s.dir], i, s.dir, v.tabs[k], k, name, now);
    forall b, u | b in {Apply(d, log[..1]), Apply(d, log)} && Shows(b, u)
      ensures false
    {
      FoldersStay(v, b, u, s.dir, {});
      TwoEntries(u, Slot(s.dir, i), s);
    }
  }

  // When the new name is taken, two folders have it.
  lemma {:induction false} NameTaken(d: Disk, v: Vol, s: Slot, name: Name, now: Stamp)
    requires Rep(d, v) && IsFolder(v, s) && s.dir < DISK_CLUSTERS && Ent(v, s).cluster < DISK_CLUSTERS
    requires !NameFree(v, s, name)
    ensures var k := Ent(v, s).cluster;
      !ShowsTree(Apply(d, RenameLog(v.tabs[s.dir], s.index, s.dir, v.tabs[k], k, name, now)))
  {
    hide AsTable, AsFat, Tree, Apply, RenameLog, KeepsAllFolders, First, Under;
    RenameDisk(d, v, s, s.index, name, now);
    UnderNotParent(v, s);
    var k, j := Ent(v, s).cluster, First(v.tabs[s.dir], Folder(name));
    FoldersHaveNoExt(v, s.dir, j);
    var b := Apply(d, RenameLog(v.tabs[s.dir], s.index, s.dir, v.tabs[k], k, name, now));
    forall u | Shows(b, u)
      ensures false
    {
      FoldersStay(v, b, u, s.dir, {k});
      TwoNames(u, s.dir, s.index, j);
    }
  }

  // rename_dir replaces the first slot that carries the old name, whatever it is, and does not look for
  // the new one. The disk shows a tree again exactly when that slot is the folder itself and no other
  // folder there has the new name; it is the renamed tree then.
  lemma {:induction false} RenameExact(d: Disk, v: Vol, s: Slot, name: Name, now: Stamp)
    requires Rep(d, v) && IsFolder(v, s) && s.dir < DISK_CLUSTERS && Ent(v, s).cluster < DISK_CLUSTERS
    ensures var i, k := First(v.tabs[s.dir], Named(Ent(v, s).name)), Ent(v, s).cluster;
      i < TABLE_SIZE &&
      var b := Apply(d, RenameLog(v.tabs[s.dir], i, s.dir, v.tabs[k], k, name, now));
      && (ShowsTree(b) <==> i == s.index && NameFree(v, s, name))
      && (forall u :: Shows(b, u) ==> u == Renamed(v, s, name, now))
  {
    hide AsTable, AsFat, Tree, FirstFrom, Renamed, RenameLog, NameFree, RelinkedEntry, Relabelled;
    var i, k := First(v.tabs[s.dir], Named(Ent(v, s).name)), Ent(v, s).cluster;
    assert Matches(Ent(v, s), Named(Ent(v, s).name));
    var b, w := Apply(d, RenameLog(v.tabs[s.dir], i, s.dir, v.tabs[k], k, name, now)), Renamed(v, s, name, now);
    if i != s.index {
      WrongSlot(d, v, s, i, name, now);
    } else if !NameFree(v, s, name) {
      NameTaken(d, v, s, name, now);
    } else {
      RenamedShows(d, v, s, name, now);
      forall u | Shows(b, u)
        ensures u == w
      {
        OneTree(b, u, w);
      }
    }
  }

  lemma {:induction false} RenamedShows(d: Disk, v: Vol, s: Slot, name: Name, now: Stamp)
    requires Rep(d, v) && Renamable(v, s, name) && s.dir < DISK_CLUSTERS && Ent(v, s).cluster < DISK_CLUSTERS
    ensures var k := Ent(v, s).cluster;
      Shows(Apply(d, RenameLog(v.tabs[s.dir], s.index, s.dir, v.tabs[k], k, name, now)), Renamed(v, s, name, now))
  {
    hide Tree, Rep, Renamed, RenameLog, NameFree;
    var k := Ent(v, s).cluster;
    RenamedRep(d, v, s, name, now);
    RenamedIs(v, s, name, now);
    RenamedKeepsInv(v, Renamed(v, s, name, now), s, RelinkedEntry(v.tabs[k][0], name, ZERO_EXT, k, now), k, name);
  }

  // A power failure between the two writes leaves a tree exactly when it is the folder's slot that has
  // been replaced and the name is the old one; else entry and header disagree.
  lemma {:induction false} RenameCrash(d: Disk, v: Vol, s: Slot, name: Name, now: Stamp)
    requires Rep(d, v) && IsFolder(v, s) && s.dir < DISK_CLUSTERS && Ent(v, s).cluster < DISK_CLUSTERS
    ensures var i, k := First(v.tabs[s.dir], Named(Ent(v, s).name)), Ent(v, s).cluster;
      i < TABLE_SIZE &&
      var log := RenameLog(v.tabs[s.dir], i, s.dir, v.tabs[k], k, name, now);
      && |log| == 2
      && (ShowsTree(Apply(d, log[..1])) <==> i == s.index && name == Ent(v, s).name)
      && (forall u :: Shows(Apply(d, log[..1]), u) ==> u == Renamed(v, s, name, now))
  {
    hide AsTable, AsFat, Tree, First, FirstFrom, KeepsAllFolders, RelinkedEntry, Apply, Under, Renamed, FolderAt;
    var i, k := First(v.tabs[s.dir], Named(Ent(v, s).name)), Ent(v, s).cluster;
    FirstFits(v.tabs[s.dir], Named(Ent(v, s).name), s.index);
    var log := RenameLog(v.tabs[s.dir], i, s.dir, v.tabs[k], k, name, now);
    var b := Apply(d, log[..1]);
    RenameDisk(d, v, s, i, name, now);
    UnderNotParent(v, s);
    LiveSlot(v, s);
    FolderSlot(v, s);
    if i != s.index {
      WrongSlot(d, v, s, i, name, now);
    } else if name != Ent(v, s).name {
      forall u | Shows(b, u)
        ensures false
      {
        FoldersStay(v, b, u, s.dir, {k});
        HeaderAgrees(u, s);
      }
    } else {
      SameNameHalf(d, v, s, now);
      forall u | Shows(b, u)
        ensures u == Renamed(v, s, name, now)
      {
        OneTree(b, u, Renamed(v, s, name, now));
      }
    }
  }

  lemma FirstFits(t: Table, p: Pattern, i: nat)
    requires 1 <= i < TABLE_SIZE && Matches(t[i], p)
    ensures 1 <= First(t, p) <= i
  {
    hide FirstFrom;
  }

  // With the old name the second write changes nothing.
  lemma {:induction false} SameNameHalf(d: Disk, v: Vol, s: Slot, now: Stamp)
    requires Rep(d, v) && IsFolder(v, s) && s.dir < DISK_CLUSTERS && Ent(v, s).cluster < DISK_CLUSTERS
    ensures var k, name := Ent(v, s).cluster, Ent(v, s).name;
      Shows(Apply(d, RenameLog(v.tabs[s.dir], s.index, s.dir, v.tabs[k], k, name, now)[..1]), Renamed(v, s, name, now))
  {
    hide AsTable, EncodeTable, AsFat, EncodeFat, SlotOk, DirOk, FolderAt, RelinkedEntry;
    FolderSlot(v, s);
    var k, name := Ent(v, s).cluster, Ent(v, s).name;
    var e := RelinkedEntry(v.tabs[k][0], name, ZERO_EXT, k, now);
    var t := v.tabs[s.dir][s.index := e];
    var log := RenameLog(v.tabs[s.dir], s.index, s.dir, v.tabs[k], k, name, now);
    RenamedShows(d, v, s, name, now);
    ApplyTwo(d, log[0], log[1]);
    assert log[..1] == [PutTable(s.dir, t)];
    assert Relabelled(v.tabs[k], name) == v.tabs[k];
    AsTableIs(EncodeTable(t), t);
  }
}
