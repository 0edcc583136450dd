// Deleting a file or a folder: the name disappears with all that hangs from it, and the clusters of its
// own chain become free.
module Deleting {
  import opened Layout
  import opened Volume
  import opened Pruning
  import opened Disks
  import opened Shown
  import opened Operations
  import opened Writing

  // The slot a delete looks for: the first live one with the name and the extension, file or folder.
  function Target(t: Table, req: Request): (i: nat) {
    First(t, Key(req.name, req.ext))
  }

  // The code of a delete whose parent is a directory of the volume.
  function DeleteCode(v: Vol, req: Request): int
    requires req.parent in v.tabs
  {
    var t := v.tabs[req.parent];
    var i := Target(t, req);
    if !IsDir(t[0]) then -1
    else if i == TABLE_SIZE then 1
    else if IsDir(t[i]) && t[i].cluster in v.tabs && v.tabs[t[i].cluster][0].userAttribute == UATTR_NOT_EMPTY then 2
    else 0
  }

  // If the delete finds a folder, its flag says whether there is something in it.
  ghost predicate FlagTells(v: Vol, req: Request) {
    req.parent in v.tabs ==>
      var t := v.tabs[req.parent];
      var i := Target(t, req);
      i < TABLE_SIZE && IsDir(t[i]) && t[i].cluster in v.tabs ==>
        var u := v.tabs[t[i].cluster];
        u[0].userAttribute == UATTR_NOT_EMPTY <==> HasLive(u)
  }

  lemma FlagsTell(v: Vol, req: Request)
    requires Inv(v)
    ensures FlagTells(v, req)
  {
    hide Tree, First, DeadCleared, HasLive;
    if req.parent in v.tabs {
      var t := v.tabs[req.parent];
      var i := Target(t, req);
      if i < TABLE_SIZE && t[i].cluster in v.tabs {
        assert CleanOk(v, t[i].cluster);
      }
    }
  }

  ghost predicate Deletable(v: Vol, req: Request) {
    Tree(v) && req.parent in v.tabs && DeleteCode(v, req) == 0
  }

  function TargetSlot(v: Vol, req: Request): Slot
    requires req.parent in v.tabs
  {
    Slot(req.parent, Target(v.tabs[req.parent], req))
  }

  lemma TargetIsLive(v: Vol, req: Request)
    requires Deletable(v, req)
    ensures var s := TargetSlot(v, req);
      && IsSlot(v, s) && s in v.chains && |v.chains[s]| > 0 && Live(Ent(v, s))
      && Ent(v, s).name == req.name && Ent(v, s).ext == req.ext
      && Ent(v, s).cluster == v.chains[s][0]
      && (IsDir(Ent(v, s)) ==> Ent(v, s).cluster in v.tabs)
      && (forall j :: 0 <= j < |v.chains[s]| ==> 3 <= v.chains[s][j] < CLUSTER_MAP_SIZE)
  {
    var s := TargetSlot(v, req);
    assert DirOk(v, req.parent);
    assert Covered(v, s);
    assert SlotOk(v, s);
    forall j | 0 <= j < |v.chains[s]|
      ensures 3 <= v.chains[s][j] < CLUSTER_MAP_SIZE
    {
      assert Link(v.fat, v.chains[s], j);
    }
  }

  // The volume after the delete.
  ghost function Deleted(v: Vol, req: Request): Vol
    requires Deletable(v, req)
  {
    TargetIsLive(v, req);
    Pruned(v, TargetSlot(v, req))
  }

  // The parent's table goes to disk before the map.
  ghost function DeleteLog(v: Vol, req: Request): seq<ClusterWrite>
    requires Deletable(v, req) && req.parent < DISK_CLUSTERS
  {
    TargetIsLive(v, req);
    var s := TargetSlot(v, req);
    [PutTable(req.parent, Emptied(v.tabs[req.parent], s.index)), PutFat(Freed(v.fat, v.chains[s]))]
  }

  // A delete of something from which nothing hangs.
  lemma DeletedRemoves(v: Vol, req: Request)
    requires Deletable(v, req) && IsLeaf(v, TargetSlot(v, req))
    ensures Removed(v, Deleted(v, req), TargetSlot(v, req))
  {
    hide SlotOk, DirOk, Tree, First, Emptied, IsLeaf, Pruned;
    TargetIsLive(v, req);
    LeafRemoved(v, TargetSlot(v, req));
  }

  // As long as the flags are exact, that is every delete.
  lemma DeletableIsLeaf(v: Vol, req: Request)
    requires Inv(v) && Deletable(v, req)
    ensures IsLeaf(v, TargetSlot(v, req))
  {
    hide Tree, First, FirstFrom, HasLive;
    TargetIsLive(v, req);
    var s := TargetSlot(v, req);
    if IsDir(Ent(v, s)) {
      ClearFlagIsLeaf(v, s);
    }
  }

  ghost function DeleteDisk(d: Disk, v: Vol, req: Request): Disk
    requires Deletable(v, req) && req.parent < DISK_CLUSTERS
  {
    Apply(d, DeleteLog(v, req))
  }

  lemma {:induction false} ApplyTwo(d: Disk, a: ClusterWrite, b: ClusterWrite)
    ensures Apply(d, [a, b]) == Put(Put(d, a), b)
    ensures Apply(d, [a]) == Put(d, a)
  {
    ApplyThree(d, a, b, b);
  }

  lemma DeleteDiskIs(d: Disk, v: Vol, req: Request)
    requires Deletable(v, req) && req.parent < DISK_CLUSTERS
    ensures req.parent in Deleted(v, req).tabs
    ensures DeleteDisk(d, v, req)
      == Put(Put(d, PutTable(req.parent, Deleted(v, req).tabs[req.parent])), PutFat(Deleted(v, req).fat))
  {
    hide SlotOk, DirOk, Tree, First, Emptied, EncodeTable, EncodeFat, Freed, HangsFrom, GoesWith;
    TargetIsLive(v, req);
    CutKeepsDirs(v, TargetSlot(v, req));
    ApplyTwo(d, PutTable(req.parent, Deleted(v, req).tabs[req.parent]), PutFat(Deleted(v, req).fat));
  }

  lemma PutTableThenFat(d: Disk, v: Vol, w: Vol, p: ClusterNo)
    requires Rep(d, v) && p != FAT_CLUSTER && p in w.tabs
    requires forall c :: c in v.tabs ==> c != FAT_CLUSTER
    requires forall c :: c in w.tabs && c != p ==> c in v.tabs && w.tabs[c] == v.tabs[c]
    ensures Rep(Put(Put(d, PutTable(p, w.tabs[p])), PutFat(w.fat)), w)
  {
    hide AsTable, EncodeTable, AsFat, EncodeFat;
    AsTableIs(EncodeTable(w.tabs[p]), w.tabs[p]);
    AsFatIs(EncodeFat(w.fat), w.fat);
  }

  lemma DeletedTables(v: Vol, req: Request)
    requires Deletable(v, req)
    ensures req.parent in Deleted(v, req).tabs
    ensures forall c :: c in Deleted(v, req).tabs && c != req.parent ==>
      c in v.tabs && Deleted(v, req).tabs[c] == v.tabs[c]
    ensures Tree(Deleted(v, req))
  {
    hide Tree, First, Emptied, Freed, HangsFrom, GoesWith, Pruned;
    TargetIsLive(v, req);
    CutKeepsDirs(v, TargetSlot(v, req));
    PrunedKeepsTree(v, TargetSlot(v, req));
  }

  // The two writes of a delete take the disk of `v` to the disk of Deleted.
  lemma DeletedRep(d: Disk, v: Vol, req: Request)
    requires Rep(d, v) && Deletable(v, req) && req.parent < DISK_CLUSTERS
    ensures Rep(DeleteDisk(d, v, req), Deleted(v, req))
  {
    hide AsTable, EncodeTable, AsFat, EncodeFat, First, Emptied, Deleted, DeleteDisk, Freed, SlotOk, Tree;
    DeleteDiskIs(d, v, req);
    DeletedTables(v, req);
    DirCell(v, req.parent);
    forall c | c in v.tabs
      ensures c != FAT_CLUSTER
    {
      DirCell(v, c);
    }
    PutTableThenFat(d, v, Deleted(v, req), req.parent);
  }

  /* What a removal does to searches */

  lemma EmptiedSlots(t: Table, i: nat)
    requires 1 <= i < TABLE_SIZE
    ensures Emptied(t, i)[i] == ZERO_ENTRY
    ensures forall j :: 1 <= j < TABLE_SIZE && j != i ==> Emptied(t, i)[j] == t[j]
  {
  }

  lemma EmptiedFirst(t: Table, i: nat, p: Pattern)
    requires 1 <= i < TABLE_SIZE && Live(t[i]) && Distinct(t) && (p.FileKey? || p.FolderKey?)
    ensures First(Emptied(t, i), p) == if Matches(t[i], p) then TABLE_SIZE else First(t, p)
  {
    hide Emptied;
    EmptiedSlots(t, i);
    var u := Emptied(t, i);
    if Matches(t[i], p) {
      assert forall j :: 1 <= j < TABLE_SIZE && j != i && Live(t[j]) ==> !SameKey(t[i], t[j]) && !SameKey(t[j], t[i]);
      FirstIs(u, p, TABLE_SIZE);
    } else {
      FirstUnmoved(t, u, i, p);
    }
  }

  lemma NoLiveNoFind(t: Table, p: Pattern)
    requires !HasLive(t) && (p.Folder? || p.FileKey?)
    ensures First(t, p) == TABLE_SIZE
  {
    FirstIs(t, p, TABLE_SIZE);
  }

  // The files that are gone: the one of the slot, and those in directories that hang from it.
  ghost predicate FileGoes(v: Vol, s: Slot, f: FileName)
    requires Tree(v) && IsSlot(v, s)
  {
    HangsFrom(v, s, f.dir) || (!IsDir(Ent(v, s)) && f == FileName(s.dir, Ent(v, s).name, Ent(v, s).ext))
  }

  ghost predicate FolderGoes(v: Vol, s: Slot, c: nat, name: Name)
    requires Tree(v) && IsSlot(v, s)
  {
    HangsFrom(v, s, c) || (IsDir(Ent(v, s)) && c == s.dir && name == Ent(v, s).name)
  }

  lemma RemovedFiles(d: Disk, b: Disk, v: Vol, s: Slot, f: FileName)
    requires Tree(v) && s in v.chains && IsSlot(v, s) && Tree(Pruned(v, s))
    requires forall c :: 0 <= c < DISK_CLUSTERS && c != FAT_CLUSTER && c != s.dir ==> b[c] == d[c]
    ensures FileAt(b, Pruned(v, s), f) == if FileGoes(v, s, f) then None else FileAt(d, v, f)
  {
    hide Emptied, FlagExact, DeadCleared, Distinct, Blocks, IsChain, SlotOk, DirOk, First, FirstFrom, Freed, Severed;
    hide HangsFrom;
    PrunedKeepsTree(v, s);
    LiveSlot(v, s);
    var w := Pruned(v, s);
    if f.dir in w.tabs {
      assert KeysOk(v, s.dir);
      var p := FileKey(f.name, f.ext);
      EmptiedFirst(v.tabs[s.dir], s.index, p);
      RemovedTable(v, s);
      if f.dir != s.dir || !Matches(Ent(v, s), p) {
        RemovedOtherFile(d, b, v, s, f);
        FileAtFrame(d, b, v, w, f);
      }
    }
  }

  lemma RemovedTable(v: Vol, s: Slot)
    requires Tree(v) && s in v.chains && IsSlot(v, s)
    ensures s.dir in Pruned(v, s).tabs && Pruned(v, s).tabs[s.dir] == Emptied(v.tabs[s.dir], s.index)
  {
    hide Tree, Emptied, HangsFrom;
    CutKeepsDirs(v, s);
  }

  lemma RemovedOtherFile(d: Disk, b: Disk, v: Vol, s: Slot, f: FileName)
    requires Tree(v) && s in v.chains && IsSlot(v, s) && IsCut(v, Pruned(v, s), s)
    requires f.dir in v.tabs && f.dir in Pruned(v, s).tabs
    requires forall c :: 0 <= c < DISK_CLUSTERS && c != FAT_CLUSTER && c != s.dir ==> b[c] == d[c]
    requires f.dir != s.dir || !Matches(Ent(v, s), FileKey(f.name, f.ext))
    ensures var i := First(v.tabs[f.dir], FileKey(f.name, f.ext));
      var q, w := Slot(f.dir, i), Pruned(v, s);
      i < TABLE_SIZE && q in v.chains ==>
        && q in w.chains && w.chains[q] == v.chains[q]
        && w.tabs[f.dir][i] == v.tabs[f.dir][i]
        && forall k :: k in v.chains[q] && k < CLUSTER_MAP_SIZE ==> b[k] == d[k]
  {
    hide Emptied, FlagExact, DeadCleared, Distinct, Blocks, IsChain, DirOk, First, FirstFrom, Freed, Severed, HangsFrom;
    hide Pruned;
    var i := First(v.tabs[f.dir], FileKey(f.name, f.ext));
    var q := Slot(f.dir, i);
    if i < TABLE_SIZE && q in v.chains {
      forall k | k in v.chains[q] && k < CLUSTER_MAP_SIZE
        ensures b[k] == d[k]
      {
        FileCellIsNoDir(v, q, k);
      }
    }
  }

  lemma FoldersHaveNoExt(v: Vol, c: nat, i: nat)
    requires Tree(v) && c in v.tabs && 1 <= i < TABLE_SIZE && Live(v.tabs[c][i]) && IsDir(v.tabs[c][i])
    ensures v.tabs[c][i].ext == ZERO_EXT
  {
    hide IsChain;
    assert Covered(v, Slot(c, i));
    assert SlotOk(v, Slot(c, i));
  }

  lemma FolderIsFolderKey(v: Vol, c: nat, name: Name)
    requires Tree(v) && c in v.tabs
    ensures First(v.tabs[c], Folder(name)) == First(v.tabs[c], FolderKey(name, ZERO_EXT))
  {
    hide SlotOk, DirOk, Base;
    var t, i := v.tabs[c], First(v.tabs[c], Folder(name));
    if i < TABLE_SIZE {
      FoldersHaveNoExt(v, c, i);
    }
    FirstIs(t, FolderKey(name, ZERO_EXT), i);
  }

  lemma RemovedFolders(v: Vol, s: Slot, dir: nat, name: Name)
    requires Tree(v) && s in v.chains && IsSlot(v, s) && Tree(Pruned(v, s))
    ensures FolderAt(Pruned(v, s), dir, name) == if FolderGoes(v, s, dir, name) then None else FolderAt(v, dir, name)
  {
    hide Emptied, FlagExact, DeadCleared, Distinct, Blocks, IsChain, SlotOk, DirOk, First, FirstFrom, Freed, HangsFrom;
    hide Severed;
    PrunedKeepsTree(v, s);
    LiveSlot(v, s);
    var w := Pruned(v, s);
    if dir in w.tabs {
      assert KeysOk(v, s.dir);
      EmptiedFirst(v.tabs[s.dir], s.index, FolderKey(name, ZERO_EXT));
      RemovedTable(v, s);
      FolderIsFolderKey(v, dir, name);
      FolderIsFolderKey(w, dir, name);
      if IsDir(Ent(v, s)) {
        FoldersHaveNoExt(v, s.dir, s.index);
      }
    }
  }

  // A directory without live entries binds nothing.
  lemma LeafBindsNothing(d: Disk, v: Vol, s: Slot, f: FileName)
    requires Tree(v) && s in v.chains && IsSlot(v, s) && IsLeaf(v, s) && HangsFrom(v, s, f.dir)
    ensures FileAt(d, v, f) == None && FolderAt(v, f.dir, f.name) == None
  {
    hide SlotOk, DirOk, First, FirstFrom, HangsFrom, GoesWith;
    LeafHangs(v, s);
    NoLiveNoFind(v.tabs[f.dir], FileKey(f.name, f.ext));
    NoLiveNoFind(v.tabs[f.dir], Folder(f.name));
  }

  // A successful delete unbinds the name it found, file or folder, and whatever hangs from it, and leaves
  // every other name alone. If nothing hangs from it, that is one name.
  lemma DeleteUnbinds(d: Disk, v: Vol, req: Request, f: FileName)
    requires Rep(d, v) && Deletable(v, req) && req.parent < DISK_CLUSTERS
    ensures Tree(Deleted(v, req)) && (Inv(v) ==> IsLeaf(v, TargetSlot(v, req)) && Inv(Deleted(v, req)))
    ensures NoLeak(v) && IsLeaf(v, TargetSlot(v, req)) ==> NoLeak(Deleted(v, req))
    ensures var s, b, w := TargetSlot(v, req), DeleteDisk(d, v, req), Deleted(v, req);
      && IsSlot(v, s)
      && FileAt(b, w, f) == (if FileGoes(v, s, f) then None else FileAt(d, v, f))
      && FolderAt(w, f.dir, f.name) == (if FolderGoes(v, s, f.dir, f.name) then None else FolderAt(v, f.dir, f.name))
    ensures var e := Ent(v, TargetSlot(v, req));
      IsLeaf(v, TargetSlot(v, req)) ==>
        && FileAt(DeleteDisk(d, v, req), Deleted(v, req), f)
           == (if !IsDir(e) && f == FileName(req.parent, req.name, req.ext) then None else FileAt(d, v, f))
        && FolderAt(Deleted(v, req), f.dir, f.name)
           == (if IsDir(e) && f.dir == req.parent && f.name == req.name then None else FolderAt(v, f.dir, f.name))
  {
    TargetIsLive(v, req);
    DeleteDiskIs(d, v, req);
    hide DeleteDisk, Target, FolderAt, FileAt, Removed, Inv, Tree, NoLeak, EncodeTable, EncodeFat, HangsFrom, IsLeaf;
    hide DeleteCode, Pruned;
    var w, s := Deleted(v, req), TargetSlot(v, req);
    PrunedKeepsTree(v, s);
    RemovedFiles(d, DeleteDisk(d, v, req), v, s, f);
    RemovedFolders(v, s, f.dir, f.name);
    if Inv(v) {
      DeletableIsLeaf(v, req);
    }
    if IsLeaf(v, s) {
      LeafRemoved(v, s);
      RemovedKeepsInv(v, w, s);
      if HangsFrom(v, s, f.dir) {
        LeafBindsNothing(d, v, s, f);
      }
    }
  }

  // The disk after a successful delete shows exactly one tree: the old one without the slot and what hung
  // from it. What hung from a folder keeps its cells, so clusters leak exactly when the folder was not
  // empty, whatever its flag said.
  lemma DeleteOrphansExact(d: Disk, v: Vol, req: Request)
    requires Rep(d, v) && Deletable(v, req) && req.parent < DISK_CLUSTERS && NoLeak(v)
    ensures var s, b, w := TargetSlot(v, req), DeleteDisk(d, v, req), Deleted(v, req);
      && IsSlot(v, s) && s in v.chains
      && Shows(b, w) && (forall u :: Shows(b, u) ==> u == w)
      && (forall c :: c in w.tabs <==> c in v.tabs && !HangsFrom(v, s, c))
      && (forall q :: q in w.chains <==> q in v.chains && !GoesWith(v, s, q))
      && (NoLeak(w) <==> IsLeaf(v, s))
      && (IsLeaf(v, s) <==> forall q :: q in v.chains && GoesWith(v, s, q) ==> q == s)
  {
    hide Tree, Rep, First, FirstFrom, DeleteDisk, Pruned, HangsFrom, NoLeak, DeleteCode;
    var s, b, w := TargetSlot(v, req), DeleteDisk(d, v, req), Deleted(v, req);
    TargetIsLive(v, req);
    PrunedKeepsTree(v, s);
    DeletedRep(d, v, req);
    forall u | Shows(b, u)
      ensures u == w
    {
      OneTree(b, u, w);
    }
    LeafExact(v, s);
    if IsDir(Ent(v, s)) {
      PrunedLeaks(v, s);
    } else {
      LeafRemoved(v, s);
      RemovedKeepsInv(v, w, s);
    }
  }

  // Nothing hangs from a slot exactly when no other slot goes with it.
  lemma LeafExact(v: Vol, s: Slot)
    requires Tree(v) && s in v.chains && IsSlot(v, s)
    ensures IsLeaf(v, s) <==> forall q :: q in v.chains && GoesWith(v, s, q) ==> q == s
  {
    hide SlotOk, DirOk, Under, Base;
    if IsLeaf(v, s) {
      LeafHangs(v, s);
    } else {
      var k := Ent(v, s).cluster;
      var j :| 1 <= j < TABLE_SIZE && Live(v.tabs[k][j]);
      LiveSlot(v, Slot(k, j));
      UnderSelf(v, k);
      FolderSlot(v, s);
      assert GoesWith(v, s, Slot(k, j));
    }
  }
}
