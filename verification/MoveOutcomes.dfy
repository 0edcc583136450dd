// What a disk shows after each write of move_dir, whatever slot is cleared and wherever the folder goes.
module MoveOutcomes {
  import opened Layout
  import opened Volume
  import opened Pruning
  import opened Disks
  import opened Shown
  import opened Operations
  import opened Writing
  import opened Deleting
  import opened Renaming
  import opened Moving

  /* Moving a folder into itself */

  // The tree without the folder, whose entry is dead and whose clusters are not freed.
  ghost function Detached(v: Vol, s: Slot): Vol
    requires Tree(v) && IsSlot(v, s)
  {
    Severed(v, s, Unlinked(v.tabs[s.dir], s.index), v.fat)
  }

  lemma DetachedIs(v: Vol, s: Slot)
    requires Tree(v) && s in v.chains && IsSlot(v, s)
    ensures IsCut(v, Detached(v, s), s) && Tree(Detached(v, s))
    ensures s.dir in Detached(v, s).tabs && Detached(v, s).tabs[s.dir] == Unlinked(v.tabs[s.dir], s.index)
    ensures !NoLeak(Detached(v, s))
  {
    hide Tree, Severed, HangsFrom, GoesWith;
    var t := Unlinked(v.tabs[s.dir], s.index);
    UnlinkedCuts(v.tabs[s.dir], s.index);
    CutIs(v, s, t, v.fat);
    CutKeepsTree(v, Detached(v, s), s);
    DetachedTable(v, s);
    LiveSlot(v, s);
    var c := v.chains[s][0];
    OwnedIsChain(v, s, c);
    OwnedCell(v, c);
    DetachedLoses(v, s, c);
  }

  lemma UnlinkedCuts(t: Table, i: nat)
    requires 1 <= i < TABLE_SIZE
    ensures SlotCut(t, Unlinked(t, i), i)
  {
  }

  lemma DetachedTable(v: Vol, s: Slot)
    requires Tree(v) && s in v.chains && IsSlot(v, s)
    ensures s.dir in Detached(v, s).tabs && Detached(v, s).tabs[s.dir] == Unlinked(v.tabs[s.dir], s.index)
  {
    hide Tree, HangsFrom, Unlinked;
    CutKeepsDirs(v, s);
  }

  lemma DetachedLoses(v: Vol, s: Slot, c: nat)
    requires Tree(v) && IsSlot(v, s) && c in v.own && v.own[c] == s
    ensures c !in Detached(v, s).own && Detached(v, s).fat == v.fat
  {
    hide Tree, HangsFrom, Unlinked;
  }

  // One folder is gone with all below it; every other name is bound to what it was bound to.
  ghost predicate OneLost(d: Disk, v: Vol, e: Disk, w: Vol, s: Slot) {
    && Tree(v) && Tree(w) && IsSlot(v, s)
    && (forall f :: FileAt(e, w, f) == if HangsFrom(v, s, f.dir) then None else FileAt(d, v, f))
    && (forall c, n :: FolderAt(w, c, n) == if FolderGoes(v, s, c, n) then None else FolderAt(v, c, n))
  }

  lemma DetachedNames(d: Disk, b: Disk, v: Vol, s: Slot)
    requires IsFolder(v, s)
    requires forall c :: 3 <= c < DISK_CLUSTERS && c !in v.tabs ==> b[c] == d[c]
    ensures OneLost(d, v, b, Detached(v, s), s)
  {
    hide Tree, FileAt, FolderAt, Detached, HangsFrom;
    DetachedIs(v, s);
    var w := Detached(v, s);
    forall f: FileName
      ensures FileAt(b, w, f) == if HangsFrom(v, s, f.dir) then None else FileAt(d, v, f)
    {
      DetachedFile(d, b, v, s, f);
    }
    forall c, n
      ensures FolderAt(w, c, n) == if FolderGoes(v, s, c, n) then None else FolderAt(v, c, n)
    {
      DetachedFolder(v, s, c, n);
    }
  }

  lemma DetachedFile(d: Disk, b: Disk, v: Vol, s: Slot, f: FileName)
    requires IsFolder(v, s) && Tree(Detached(v, s))
    requires forall c :: 3 <= c < DISK_CLUSTERS && c !in v.tabs ==> b[c] == d[c]
    ensures FileAt(b, Detached(v, s), f) == if HangsFrom(v, s, f.dir) then None else FileAt(d, v, f)
  {
    hide SlotOk, DirOk, First, FirstFrom, HangsFrom, Detached, KeysOk, CellOk, Base;
    DetachedIs(v, s);
    var w := Detached(v, s);
    if f.dir in w.tabs {
      var p := FileKey(f.name, f.ext);
      if f.dir == s.dir {
        FirstUnmoved(v.tabs[s.dir], w.tabs[s.dir], s.index, p);
      }
      var q := Slot(f.dir, First(v.tabs[f.dir], p));
      if q.index < TABLE_SIZE {
        assert Covered(v, q);
        forall k | k in v.chains[q]
          ensures k < CLUSTER_MAP_SIZE && b[k] == d[k]
        {
          FileCellIsNoDir(v, q, k);
        }
      }
      FileAtFrame(d, b, v, w, f);
    }
  }

  lemma DetachedFolder(v: Vol, s: Slot, c: nat, n: Name)
    requires IsFolder(v, s)
    ensures FolderAt(Detached(v, s), c, n) == if FolderGoes(v, s, c, n) then None else FolderAt(v, c, n)
  {
    hide Tree, First, FirstFrom, HangsFrom, Detached;
    DetachedIs(v, s);
    OnlyFolderSlot(v, s);
    var w := Detached(v, s);
    if c in w.tabs && c == s.dir {
      if n == Ent(v, s).name {
        FirstIs(w.tabs[c], Folder(n), TABLE_SIZE);
      } else {
        FirstUnmoved(v.tabs[c], w.tabs[c], s.index, Folder(n));
      }
    }
  }

  /* Disks on which the folder's slot, or another one with its name, has been cleared */

  // The target's table after the move, when slot `i` of the old parent has been cleared.
  function Received(v: Vol, p: nat, i: nat, q: nat, e: Entry): Table
    requires p in v.tabs && q in v.tabs && i < TABLE_SIZE
  {
    var target := if q == p then Unlinked(v.tabs[p], i) else v.tabs[q];
    var m := First(target, Dead);
    if m < TABLE_SIZE then target[m := e] else target
  }

  // The folder, the slot that is cleared, and the target of a move.
  ghost predicate Moves(d: Disk, v: Vol, s: Slot, i: nat, q: nat) {
    && Rep(d, v) && IsFolder(v, s) && Roomy(v, s, q) && s.dir < DISK_CLUSTERS && q < CLUSTER_MAP_SIZE
    && Ent(v, s).cluster < DISK_CLUSTERS
    && 1 <= i < TABLE_SIZE && v.tabs[s.dir][i].name == Ent(v, s).name
  }

  // The disk after the first `m` writes of a move that clears slot `i`.
  ghost function MoveDisk(d: Disk, v: Vol, s: Slot, i: nat, q: nat, now: Stamp, m: nat): Disk
    requires Moves(d, v, s, i, q) && m <= 4
  {
    var k := Ent(v, s).cluster;
    Apply(d, MoveLog(v.tabs[s.dir], i, s.dir, v.tabs[q], q, v.tabs[k], k, v.fat, now)[..m])
  }

  // What is in the tables after each write. The header of the folder comes third, the map last.
  lemma MoveDiskTables(d: Disk, v: Vol, s: Slot, i: nat, q: nat, now: Stamp, m: nat, c: nat)
    requires Moves(d, v, s, i, q) && m <= 4 && c in v.tabs && c < DISK_CLUSTERS
    ensures var k, b := Ent(v, s).cluster, MoveDisk(d, v, s, i, q, now, m);
      && Fat(b) == v.fat
      && Tab(b, c) ==
         if c == k && m >= 3 then Reparented(v.tabs[k], q)
         else if c == q && m >= 2 then Received(v, s.dir, i, q, MovedEntry(v.tabs[k][0], k, now))
         else if c == s.dir && m >= 1 then Unlinked(v.tabs[s.dir], i)
         else v.tabs[c]
  {
    hide AsTable, EncodeTable, AsFat, EncodeFat, SlotOk, DirOk, Tree, First, FirstFrom, Unlinked,
      Reparented, MovedEntry;
    var k, p := Ent(v, s).cluster, s.dir;
    TargetCell(v, c);
    TargetCell(v, q);
    TargetCell(v, k);
    TargetCell(v, p);
    var log := MoveLog(v.tabs[p], i, p, v.tabs[q], q, v.tabs[k], k, v.fat, now);
    var t, u, x := Unlinked(v.tabs[p], i), Received(v, p, i, q, MovedEntry(v.tabs[k][0], k, now)),
      Reparented(v.tabs[k], q);
    assert log == [PutTable(p, t), PutTable(q, u), PutTable(k, x), PutFat(v.fat)];
    ApplyPrefixes(d, log, m);
    AsTableIs(EncodeTable(t), t);
    AsTableIs(EncodeTable(u), u);
    AsTableIs(EncodeTable(x), x);
    AsFatIs(EncodeFat(v.fat), v.fat);
  }

  lemma {:induction false} ApplyPrefixes(d: Disk, log: seq<ClusterWrite>, m: nat)
    requires |log| == 4 && m <= 4
    ensures Apply(d, log[..m]) ==
      if m == 0 then d
      else if m == 1 then Put(d, log[0])
      else if m == 2 then Put(Put(d, log[0]), log[1])
      else if m == 3 then Put(Put(Put(d, log[0]), log[1]), log[2])
      else Put(Put(Put(Put(d, log[0]), log[1]), log[2]), log[3])
  {
    hide Put, Apply;
    ApplyFour(d, log[0], log[1], log[2], log[3]);
    ApplyThree(d, log[0], log[1], log[2]);
    ApplyNone(d);
    assert log[..0] == [] && log[..1] == [log[0]] && log[..2] == [log[0], log[1]];
    assert log[..3] == [log[0], log[1], log[2]] && log[..4] == [log[0], log[1], log[2], log[3]];
  }

  lemma {:induction false} ApplyNone(d: Disk)
    ensures Apply(d, []) == d
  {
  }

  lemma TargetCell(v: Vol, q: nat)
    requires Tree(v) && q in v.tabs
    ensures q != FAT_CLUSTER
  {
    DirCell(v, q);
  }

  // No folder but the one that is moved is unhooked on the way; nor is that one when another slot is
  // cleared.
  lemma MoveKeepsFolders(d: Disk, v: Vol, s: Slot, i: nat, q: nat, now: Stamp, m: nat)
    requires Moves(d, v, s, i, q) && m <= 4
    ensures KeepsAllFolders(v, MoveDisk(d, v, s, i, q, now, m), {Ent(v, s).cluster})
    ensures i != s.index ==> KeepsAllFolders(v, MoveDisk(d, v, s, i, q, now, m), {})
  {
    hide Rep, Tab, Tree, First, FirstFrom, MoveDisk, MovedEntry, FolderAt;
    OnlyFolderSlot(v, s);
    var k := Ent(v, s).cluster;
    var x: set<nat> := if i != s.index then {} else {k};
    forall c | c in v.tabs && c < DISK_CLUSTERS
      ensures KeepsFolders(v.tabs[c], Tab(MoveDisk(d, v, s, i, q, now, m), c), x)
      ensures KeepsFolders(v.tabs[c], Tab(MoveDisk(d, v, s, i, q, now, m), c), {k})
    {
      MoveDiskTables(d, v, s, i, q, now, m, c);
    }
  }

  // Two disks with the same map and the same tables show the same tree.
  lemma SameDecoding(b: Disk, c: Disk, w: Vol)
    requires Shows(b, w) && Fat(c) == Fat(b)
    requires forall k :: k in w.tabs && k < DISK_CLUSTERS ==> Tab(c, k) == Tab(b, k)
    ensures Shows(c, w)
  {
    hide Tree, AsTable, AsFat;
  }

  // The tree without slot `i` of a directory, if it was live.
  ghost function Without(v: Vol, s: Slot): Vol
    requires Tree(v) && IsSlot(v, s)
  {
    if Live(Ent(v, s)) then Detached(v, s) else v
  }

  // After the first write the slot is cleared, whatever it is; a file or a folder in it is lost.
  lemma FirstWriteShows(d: Disk, v: Vol, s: Slot, i: nat, q: nat, now: Stamp)
    requires Moves(d, v, s, i, q)
    ensures Shows(MoveDisk(d, v, s, i, q, now, 1), Without(v, Slot(s.dir, i)))
  {
    hide Tree, Tab, MoveDisk, FolderAt, First, HangsFrom, GoesWith;
    var b, r := MoveDisk(d, v, s, i, q, now, 1), Slot(s.dir, i);
    forall c | c in v.tabs && c < DISK_CLUSTERS
      ensures Tab(b, c) == if c == s.dir then Unlinked(v.tabs[c], i) else v.tabs[c]
    {
      MoveDiskTables(d, v, s, i, q, now, 1, c);
    }
    MoveDiskTables(d, v, s, i, q, now, 1, s.dir);
    LiveSlot(v, r);
    if Live(Ent(v, r)) {
      DetachedIs(v, r);
    } else {
      assert Unlinked(v.tabs[s.dir], i) == v.tabs[s.dir];
    }
  }

  // Inside the folder no write is seen: the folder is gone once its entry is cleared.
  lemma {:induction false} InsideShows(d: Disk, v: Vol, s: Slot, q: nat, now: Stamp, m: nat)
    requires Moves(d, v, s, s.index, q) && 1 <= m <= 4 && Under(v, Ent(v, s).cluster, q)
    ensures Shows(MoveDisk(d, v, s, s.index, q, now, m), Detached(v, s))
  {
    hide Tree, Tab, MoveDisk, FolderAt, First, Unlinked, Received, Reparented, MovedEntry, Under, Severed;
    var b, w, k := MoveDisk(d, v, s, s.index, q, now, m), Detached(v, s), Ent(v, s).cluster;
    DetachedIs(v, s);
    UnderSelf(v, k);
    MoveDiskTables(d, v, s, s.index, q, now, m, s.dir);
    forall c | c in w.tabs
      ensures c < DISK_CLUSTERS && Tab(b, c) == w.tabs[c]
    {
      assert !HangsFrom(v, s, c) && c != k && c != q;
      MoveDiskTables(d, v, s, s.index, q, now, m, c);
    }
    assert w.fat == v.fat by { DetachedFat(v, s); }
  }

  lemma DetachedFat(v: Vol, s: Slot)
    requires Tree(v) && IsSlot(v, s)
    ensures Detached(v, s).fat == v.fat
  {
    hide Tree, HangsFrom, GoesWith;
  }

  // The moved tree is there after the third write; within one directory already after the second.
  lemma OutsideShows(d: Disk, v: Vol, s: Slot, q: nat, now: Stamp, m: nat)
    requires Moves(d, v, s, s.index, q) && Movable(v, s, q) && m <= 4 && (m >= 3 || (m == 2 && q == s.dir))
    ensures Shows(MoveDisk(d, v, s, s.index, q, now, m), Moved(v, s, q, now))
  {
    hide Tree, Tab, MoveDisk, FolderAt, First, Unlinked, Received, MovedEntry, Under, Moved, NewDepth;
    var b, c, k := MoveDisk(d, v, s, s.index, q, now, 4), MoveDisk(d, v, s, s.index, q, now, m), Ent(v, s).cluster;
    FolderSlot(v, s);
    WholeMove(d, v, s, s.index, q, now);
    MovedShows(d, v, s, q, now);
    MovedIs(v, s, q, now);
    MovedHeaders(v, Moved(v, s, q, now), s, Slot(q, First(TargetTable(v, s, q), Dead)),
      MovedEntry(v.tabs[k][0], k, now), k);
    assert q == s.dir ==> Reparented(v.tabs[k], q) == v.tabs[k];
    MoveDiskTables(d, v, s, s.index, q, now, m, k);
    MoveDiskTables(d, v, s, s.index, q, now, 4, k);
    forall a | a in v.tabs && a < DISK_CLUSTERS
      ensures Tab(c, a) == Tab(b, a)
    {
      MoveDiskTables(d, v, s, s.index, q, now, m, a);
      MoveDiskTables(d, v, s, s.index, q, now, 4, a);
    }
    SameDecoding(b, c, Moved(v, s, q, now));
  }

  lemma {:induction false} WholeMove(d: Disk, v: Vol, s: Slot, i: nat, q: nat, now: Stamp)
    requires Moves(d, v, s, i, q)
    ensures var k := Ent(v, s).cluster;
      MoveDisk(d, v, s, i, q, now, 4) ==
      Apply(d, MoveLog(v.tabs[s.dir], i, s.dir, v.tabs[q], q, v.tabs[k], k, v.fat, now))
  {
    hide Tree, First, FirstFrom, FolderAt;
    var k := Ent(v, s).cluster;
    var log := MoveLog(v.tabs[s.dir], i, s.dir, v.tabs[q], q, v.tabs[k], k, v.fat, now);
    assert log[..4] == log;
  }

  /* Disks that show no tree */

  // The entry that the second write puts into the target.
  lemma NewEntry(v: Vol, s: Slot, i: nat, q: nat, now: Stamp)
    requires IsFolder(v, s) && Roomy(v, s, q) && 1 <= i < TABLE_SIZE
    requires i == s.index || v.tabs[s.dir][i].name == Ent(v, s).name
    ensures var k, target := Ent(v, s).cluster, if q == s.dir then Unlinked(v.tabs[s.dir], i) else v.tabs[q];
      var j, e := First(target, Dead), MovedEntry(v.tabs[k][0], k, now);
      && 1 <= j < TABLE_SIZE && Received(v, s.dir, i, q, e) == target[j := e]
      && Live(e) && IsDir(e) && e.cluster == k && e.name == Ent(v, s).name && e.ext == ZERO_EXT
      && (i != s.index ==> Slot(q, j) != s && (q == s.dir ==> target[s.index] == Ent(v, s)))
      && Live(Ent(v, s)) && k != s.dir && Parent(v, k) == s.dir
  {
    hide Tree, FirstFrom;
    FolderSlot(v, s);
    if q == s.dir {
      assert Matches(Unlinked(v.tabs[s.dir], i)[i], Dead);
    }
  }

  // Another slot has been cleared: the folder's own entry is still there, and a second one with it.
  lemma WrongSlotCleared(d: Disk, v: Vol, s: Slot, i: nat, q: nat, now: Stamp, m: nat)
    requires Moves(d, v, s, i, q) && i != s.index && 2 <= m <= 4
    ensures !ShowsTree(MoveDisk(d, v, s, i, q, now, m))
  {
    hide Tree, Tab, MoveDisk, FolderAt, First, Unlinked, MovedEntry, Under, Received, KeepsAllFolders, Moves;
    MoveFacts(d, v, s, i, q);
    NewEntry(v, s, i, q, now);
    MoveKeepsFolders(d, v, s, i, q, now, m);
    var b, k := MoveDisk(d, v, s, i, q, now, m), Ent(v, s).cluster;
    MoveDiskTables(d, v, s, i, q, now, m, s.dir);
    MoveDiskTables(d, v, s, i, q, now, m, q);
    MoveDiskTables(d, v, s, i, q, now, m, k);
    UnlinkedElsewhere(v.tabs[s.dir], i, s.index);
    forall u | Shows(b, u)
      ensures false
    {
      FoldersStay(v, b, u, s.dir, {});
      FoldersStay(v, b, u, q, {});
      if m >= 3 && q != s.dir {
        HeaderAgrees(u, s);
      } else {
        var j := First(if q == s.dir then Unlinked(v.tabs[s.dir], i) else v.tabs[q], Dead);
        TwoEntries(u, s, Slot(q, j));
      }
    }
  }

  lemma UnlinkedElsewhere(t: Table, i: nat, j: nat)
    requires i < TABLE_SIZE && j < TABLE_SIZE && i != j
    ensures Unlinked(t, i)[j] == t[j]
  {
  }

  lemma MoveFacts(d: Disk, v: Vol, s: Slot, i: nat, q: nat)
    requires Moves(d, v, s, i, q)
    ensures Rep(d, v) && IsFolder(v, s) && Roomy(v, s, q) && 1 <= i < TABLE_SIZE
    ensures v.tabs[s.dir][i].name == Ent(v, s).name
    ensures s.dir < DISK_CLUSTERS && q < CLUSTER_MAP_SIZE && Ent(v, s).cluster < DISK_CLUSTERS && q in v.tabs
  {
    hide Tree;
  }

  // Between entry and header: the target names the folder, and the folder still names its old parent.
  lemma {:induction false} HalfMoved(d: Disk, v: Vol, s: Slot, q: nat, now: Stamp)
    requires Moves(d, v, s, s.index, q) && q != s.dir && !Under(v, Ent(v, s).cluster, q)
    ensures !ShowsTree(MoveDisk(d, v, s, s.index, q, now, 2))
  {
    hide Tree, Tab, MoveDisk, FolderAt, First, Unlinked, MovedEntry, Under, Received, KeepsAllFolders, Moves;
    MoveFacts(d, v, s, s.index, q);
    NewEntry(v, s, s.index, q, now);
    MoveKeepsFolders(d, v, s, s.index, q, now, 2);
    var b, k := MoveDisk(d, v, s, s.index, q, now, 2), Ent(v, s).cluster;
    UnderSelf(v, k);
    MoveDiskTables(d, v, s, s.index, q, now, 2, q);
    MoveDiskTables(d, v, s, s.index, q, now, 2, k);
    forall u | Shows(b, u)
      ensures false
    {
      FoldersStay(v, b, u, q, {k});
      HeaderAgrees(u, Slot(q, First(v.tabs[q], Dead)));
    }
  }

  // The target has another folder of the name.
  lemma {:induction false} NameTakenThere(d: Disk, v: Vol, s: Slot, q: nat, now: Stamp, m: nat)
    requires Moves(d, v, s, s.index, q) && !FreeIn(v, s, q) && !Under(v, Ent(v, s).cluster, q) && 3 <= m <= 4
    ensures !ShowsTree(MoveDisk(d, v, s, s.index, q, now, m))
  {
    hide Tree, Tab, MoveDisk, First, Unlinked, MovedEntry, Under, Received, KeepsAllFolders, Moves;
    MoveFacts(d, v, s, s.index, q);
    NewEntry(v, s, s.index, q, now);
    MoveKeepsFolders(d, v, s, s.index, q, now, m);
    var b, k, j := MoveDisk(d, v, s, s.index, q, now, m), Ent(v, s).cluster, First(v.tabs[q], Folder(Ent(v, s).name));
    UnderSelf(v, k);
    FoldersHaveNoExt(v, q, j);
    MoveDiskTables(d, v, s, s.index, q, now, m, q);
    forall u | Shows(b, u)
      ensures false
    {
      FoldersStay(v, b, u, q, {k});
      TwoNames(u, q, First(v.tabs[q], Dead), j);
    }
  }

  /* When a tree is left, and which */

  // move_dir clears the first slot that carries the name, whatever it is, and looks neither for another
  // folder of the name in the target nor whether the target is inside the folder. The disk shows a tree
  // exactly when the slot is the folder itself, and the target is inside it or has no other folder of the
  // name. If the target is inside, the tree is the old one without the folder and all below it.
  lemma {:induction false} MoveExact(d: Disk, v: Vol, s: Slot, q: nat, now: Stamp)
    requires Rep(d, v) && IsFolder(v, s) && Roomy(v, s, q) && s.dir < DISK_CLUSTERS && q < CLUSTER_MAP_SIZE
    requires Ent(v, s).cluster < DISK_CLUSTERS
    ensures var i, k := First(v.tabs[s.dir], Named(Ent(v, s).name)), Ent(v, s).cluster;
      i < TABLE_SIZE &&
      var b := Apply(d, MoveLog(v.tabs[s.dir], i, s.dir, v.tabs[q], q, v.tabs[k], k, v.fat, now));
      && (ShowsTree(b) <==> i == s.index && (Under(v, k, q) || FreeIn(v, s, q)))
      && (forall u :: Shows(b, u) ==> if Under(v, k, q) then u == Detached(v, s)
        else Movable(v, s, q) && u == Moved(v, s, q, now))
  {
    hide Tree, First, MoveDisk, MoveLog, Under, FreeIn, Roomy, Detached, Moved;
    FirstFits(v.tabs[s.dir], Named(Ent(v, s).name), s.index);
    var i := First(v.tabs[s.dir], Named(Ent(v, s).name));
    WholeMove(d, v, s, i, q, now);
    MoveShows(d, v, s, i, q, now, 4);
  }

  lemma {:induction false} MoveShows(d: Disk, v: Vol, s: Slot, i: nat, q: nat, now: Stamp, m: nat)
    requires Moves(d, v, s, i, q) && 3 <= m <= 4
    ensures var b, k := MoveDisk(d, v, s, i, q, now, m), Ent(v, s).cluster;
      && (ShowsTree(b) <==> i == s.index && (Under(v, k, q) || FreeIn(v, s, q)))
      && (forall u :: Shows(b, u) ==> if Under(v, k, q) then u == Detached(v, s)
        else Movable(v, s, q) && u == Moved(v, s, q, now))
  {
    hide Tree, First, MoveDisk, Under, FreeIn, Detached, Moved, Rep;
    var b, k := MoveDisk(d, v, s, i, q, now, m), Ent(v, s).cluster;
    if i != s.index {
      WrongSlotCleared(d, v, s, i, q, now, m);
    } else if Under(v, k, q) {
      InsideShows(d, v, s, q, now, m);
      OnlyTree(b, Detached(v, s));
    } else if FreeIn(v, s, q) {
      OutsideShows(d, v, s, q, now, m);
      OnlyTree(b, Moved(v, s, q, now));
    } else {
      NameTakenThere(d, v, s, q, now, m);
    }
  }

  lemma OnlyTree(b: Disk, w: Vol)
    requires Shows(b, w)
    ensures ShowsTree(b) && forall u :: Shows(b, u) ==> u == w
  {
    hide Tree, Rep;
    forall u | Shows(b, u)
      ensures u == w
    {
      OneTree(b, u, w);
    }
  }

  // A power failure on the way. After the first write the slot that was cleared is lost, with all below it.
  // After the second there is a tree exactly when it was the folder and the target is inside it or where
  // it was. The last write, of the map, changes nothing.
  lemma {:induction false} MoveCrash(d: Disk, v: Vol, s: Slot, q: nat, now: Stamp, m: nat)
    requires Rep(d, v) && IsFolder(v, s) && Roomy(v, s, q) && s.dir < DISK_CLUSTERS && q < CLUSTER_MAP_SIZE
    requires Ent(v, s).cluster < DISK_CLUSTERS && 1 <= m <= 3
    ensures var i, k := First(v.tabs[s.dir], Named(Ent(v, s).name)), Ent(v, s).cluster;
      i < TABLE_SIZE &&
      var b := Apply(d, MoveLog(v.tabs[s.dir], i, s.dir, v.tabs[q], q, v.tabs[k], k, v.fat, now)[..m]);
      && (m == 1 ==> Shows(b, Without(v, Slot(s.dir, i))))
      && (m == 2 ==> (ShowsTree(b) <==> i == s.index && (Under(v, k, q) || q == s.dir)))
      && (m == 3 ==> (ShowsTree(b) <==> i == s.index && (Under(v, k, q) || FreeIn(v, s, q))))
      && (m >= 2 ==> forall u :: Shows(b, u) ==>
            if Under(v, k, q) then u == Detached(v, s) else Movable(v, s, q) && u == Moved(v, s, q, now))
  {
    hide Tree, First, Under, FreeIn, Roomy, Detached, Moved, Without, Rep, MoveLog, Apply;
    FirstFits(v.tabs[s.dir], Named(Ent(v, s).name), s.index);
    var i := First(v.tabs[s.dir], Named(Ent(v, s).name));
    if m == 1 {
      FirstWriteShows(d, v, s, i, q, now);
    } else if m == 3 {
      MoveShows(d, v, s, i, q, now, 3);
    } else {
      SecondWriteShows(d, v, s, i, q, now);
    }
  }

  lemma {:induction false} SecondWriteShows(d: Disk, v: Vol, s: Slot, i: nat, q: nat, now: Stamp)
    requires Moves(d, v, s, i, q)
    ensures var b, k := MoveDisk(d, v, s, i, q, now, 2), Ent(v, s).cluster;
      && (ShowsTree(b) <==> i == s.index && (Under(v, k, q) || q == s.dir))
      && (forall u :: Shows(b, u) ==> if Under(v, k, q) then u == Detached(v, s)
        else Movable(v, s, q) && u == Moved(v, s, q, now))
  {
    hide Tree, First, MoveDisk, Under, Detached, Moved, Rep, FolderAt;
    var b, k := MoveDisk(d, v, s, i, q, now, 2), Ent(v, s).cluster;
    if i != s.index {
      WrongSlotCleared(d, v, s, i, q, now, 2);
    } else if Under(v, k, q) {
      InsideShows(d, v, s, q, now, 2);
      OnlyTree(b, Detached(v, s));
    } else if q == s.dir {
      OutsideShows(d, v, s, q, now, 2);
      OnlyTree(b, Moved(v, s, q, now));
    } else {
      HalfMoved(d, v, s, q, now);
    }
  }
}
