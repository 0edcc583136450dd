// Power failures: what the disk decodes to after any prefix of the cluster writes of an operation.
module Crash {
  import opened Layout
  import opened Volume
  import opened Pruning
  import opened Allocation
  import opened Disks
  import opened Shown
  import opened Operations
  import opened Writing
  import opened Deleting

  // Cells nobody owns may hold anything: the invariant allows leaked clusters.
  lemma LeakedMap(v: Vol, g: FatMap)
    requires Tree(v)
    requires forall k :: 0 <= k < CLUSTER_MAP_SIZE && v.fat[k] != 0 ==> g[k] == v.fat[k]
    ensures Tree(v.(fat := g)) && (Inv(v) ==> Inv(v.(fat := g)))
  {
    hide Blocks, IsChain, Distinct, FlagExact, DeadCleared;
    var w := v.(fat := g);
    forall s {:trigger SlotOk(w, s)} | s in w.chains
      ensures SlotOk(w, s)
    {
      assert SlotOk(v, s);
      forall k | k in v.chains[s]
        ensures k < CLUSTER_MAP_SIZE && g[k] == v.fat[k]
      {
        OwnedCell(v, k);
      }
      SlotFrame(v, w, s);
    }
    forall c {:trigger DirOk(w, c)} | c in w.tabs
      ensures DirOk(w, c)
    {
      assert DirOk(v, c);
      DirFrame(v, w, c);
    }
    forall s {:trigger Covered(w, s)}
      ensures Covered(w, s)
    {
      assert Covered(v, s);
    }
    forall k {:trigger CellOk(w, k)} | k in w.own
      ensures CellOk(w, k)
    {
      assert CellOk(v, k);
    }
    TablesFrame(v, w);
    if Inv(v) {
      CleanFrame(v, w);
    }
  }

  // The volume that a disk shows when its tables are those of `v`: only the map may differ.
  ghost function Showing(d: Disk, v: Vol): Vol {
    v.(fat := Fat(d))
  }

  // Contents do not depend on the map cells that nobody owns.
  lemma LeakedFiles(d: Disk, b: Disk, v: Vol, w: Vol, f: FileName)
    requires Tree(v) && Tree(w) && w == v.(fat := w.fat)
    requires forall c :: 3 <= c < CLUSTER_MAP_SIZE && v.fat[c] != 0 && c !in v.tabs ==> b[c] == d[c]
    ensures FileAt(b, w, f) == FileAt(d, v, f)
  {
    hide Blocks, IsChain, SlotOk, DirOk, First, FirstFrom;
    if f.dir in v.tabs {
      var i := First(v.tabs[f.dir], FileKey(f.name, f.ext));
      var q := Slot(f.dir, i);
      if i < TABLE_SIZE {
        assert Covered(v, q);
        forall k | k in v.chains[q]
          ensures k < CLUSTER_MAP_SIZE && b[k] == d[k]
        {
          FileCellIsNoDir(v, q, k);
        }
      }
    }
    FileAtFrame(d, b, v, w, f);
  }

  // A file write cut short anywhere before its last cluster write leaves the old tree: every table
  // is the old one, every file reads as before, and at worst some cells of the map have leaked.
  lemma {:induction false} FileWriteCrash(d: Disk, v: Vol, req: Request, buf: seq<Byte>, now: Stamp, m: nat,
      f: FileName)
    requires Rep(d, v) && FileWritable(v, req) && Holds(buf, Blocks(req.size)) && req.parent < DISK_CLUSTERS
    requires m < |FileLog(v.fat, v.tabs[req.parent], req, buf, now)|
    ensures var b := Apply(d, FileLog(v.fat, v.tabs[req.parent], req, buf, now)[..m]);
      && Shows(b, Showing(b, v)) && (Inv(v) ==> Inv(Showing(b, v)))
      && FileAt(b, Showing(b, v), f) == FileAt(d, v, f)
  {
    hide AsTable, EncodeTable, AsFat, EncodeFat, Linked, FreeCount, Filled, FileEntry, ChainLog, Tree, WriteCode;
    var cs := FileChain(v.fat, req.size);
    var log := FileLog(v.fat, v.tabs[req.parent], req, buf, now);
    FileWrittenAdds(v, req, now);
    assert log[..m] == ChainLog(v.fat, cs, buf)[..m];
    ChainLogPrefix(d, cs, buf, m);
    CrashShowsOld(d, Apply(d, log[..m]), v, cs, f);
  }

  lemma CrashShowsOld(d: Disk, b: Disk, v: Vol, cs: seq<nat>, f: FileName)
    requires Rep(d, v) && Tree(v) && InRange(cs) && Grown(d, b, cs)
    requires forall k :: k in cs ==> k < CLUSTER_MAP_SIZE && v.fat[k] == 0
    ensures Shows(b, Showing(b, v)) && (Inv(v) ==> Inv(Showing(b, v)))
    ensures FileAt(b, Showing(b, v), f) == FileAt(d, v, f)
  {
    hide AsTable, AsFat, SlotOk, DirOk, FileAt;
    GrownKeepsTables(d, b, v, cs);
    LeakedMap(v, Fat(b));
    LeakedFiles(d, b, v, Showing(b, v), f);
  }

  // A delete cut between its two writes already shows the new tree; the freed clusters leak.
  lemma {:induction false} DeleteCrash(d: Disk, v: Vol, req: Request, f: FileName)
    requires Rep(d, v) && Deletable(v, req) && req.parent < DISK_CLUSTERS
    ensures var b := Apply(d, DeleteLog(v, req)[..1]);
      && Tree(Deleted(v, req)) && Shows(b, Showing(d, Deleted(v, req)))
      && (Inv(v) ==> Inv(Deleted(v, req)) && Inv(Showing(d, Deleted(v, req))))
      && FileAt(b, Showing(d, Deleted(v, req)), f) == FileAt(DeleteDisk(d, v, req), Deleted(v, req), f)
  {
    hide AsTable, EncodeTable, AsFat, EncodeFat, First, Emptied, SlotOk, Tree, Freed, FileAt, HangsFrom, GoesWith;
    var w, s := Deleted(v, req), TargetSlot(v, req);
    DeleteDiskIs(d, v, req);
    TargetIsLive(v, req);
    PrunedKeepsTree(v, s);
    if Inv(v) {
      DeletableIsLeaf(v, req);
      LeafRemoved(v, s);
      RemovedKeepsInv(v, w, s);
    }
    LeakedMap(w, v.fat);
    DeletedTable(d, v, req);
    LeakedFiles(DeleteDisk(d, v, req), Apply(d, DeleteLog(v, req)[..1]), w, Showing(d, w), f);
  }

  lemma {:induction false} DeletedTable(d: Disk, v: Vol, req: Request)
    requires Rep(d, v) && Deletable(v, req) && req.parent < DISK_CLUSTERS
    ensures var b := Apply(d, DeleteLog(v, req)[..1]);
      && Rep(b, Showing(d, Deleted(v, req)))
      && forall c :: 0 <= c < DISK_CLUSTERS && c != FAT_CLUSTER ==> b[c] == DeleteDisk(d, v, req)[c]
  {
    hide AsTable, EncodeTable, AsFat, EncodeFat, First, Emptied, SlotOk, Tree, Freed, HangsFrom, GoesWith, Pruned;
    var w, p := Deleted(v, req), req.parent;
    TargetIsLive(v, req);
    DeletedTables(v, req);
    RemovedTable(v, TargetSlot(v, req));
    DeleteDiskIs(d, v, req);
    DirCell(v, p);
    ApplyTwo(d, PutTable(p, w.tabs[p]), PutFat(w.fat));
    assert DeleteLog(v, req)[..1] == [PutTable(p, w.tabs[p])];
    AsTableIs(EncodeTable(w.tabs[p]), w.tabs[p]);
  }

  /* Making a folder is not safe in this way */

  // A live entry whose first map cell is free cannot be part of a tree.
  lemma DanglingEntry(u: Vol, s: Slot)
    requires IsSlot(u, s) && Live(Ent(u, s))
    requires Ent(u, s).cluster < CLUSTER_MAP_SIZE && u.fat[Ent(u, s).cluster] == 0
    ensures !Tree(u)
  {
    hide Base;
    if Tree(u) {
      assert Covered(u, s);
      assert SlotOk(u, s);
      ChainCell(u.fat, u.chains[s], u.chains[s][0]);
    }
  }

  // The disk shows a tree that satisfies the whole invariant.
  ghost predicate Consistent(b: Disk) {
    exists u :: Rep(b, u) && Inv(u)
  }

  // A folder write stores the parent's table before the map. Cut after its first, or before any, or
  // after all three writes, the disk shows a tree again; cut after two it shows none.
  lemma {:induction false} FolderWriteCrash(d: Disk, v: Vol, req: Request, now: Stamp, m: nat)
    requires Rep(d, v) && FolderWritable(v, req) && req.parent < DISK_CLUSTERS && m <= 3
    ensures var log := FolderLog(v.fat, v.tabs[req.parent], req, now);
      && |log| == 3 && (ShowsTree(Apply(d, log[..m])) <==> m != 2)
      && (Inv(v) && m != 2 ==> Consistent(Apply(d, log[..m])))
  {
    hide AsTable, EncodeTable, AsFat, EncodeFat, FreeCount, Filled, NewTable, Tree, WriteCode;
    var log := FolderLog(v.fat, v.tabs[req.parent], req, now);
    FolderMadeAdds(v, req, now);
    var w, k, p := FolderMade(v, req, now), NewCluster(v.fat), req.parent;
    ApplyThree(d, log[0], log[1], log[2]);
    FolderPrefixes(d, v, req, now);
    if m == 3 {
      assert log[..3] == log;
      FolderMadeRep(d, v, req, now);
      FolderAddedKeepsInv(v, w, NewSlot(v, req), FolderEntry(req, k, now), k, NewTable(req.name, p, now));
      assert Shows(Apply(d, log), w);
      assert Inv(v) ==> Rep(Apply(d, log), w) && Inv(w);
    }
  }

  lemma {:induction false} FolderPrefixes(d: Disk, v: Vol, req: Request, now: Stamp)
    requires Rep(d, v) && FolderWritable(v, req) && req.parent < DISK_CLUSTERS
    ensures var log := FolderLog(v.fat, v.tabs[req.parent], req, now);
      && ShowsTree(Apply(d, log[..0])) && ShowsTree(Apply(d, log[..1])) && !ShowsTree(Apply(d, log[..2]))
      && (Inv(v) ==> Consistent(Apply(d, log[..0])) && Consistent(Apply(d, log[..1])))
  {
    hide AsTable, EncodeTable, AsFat, EncodeFat, FreeCount, Filled, Tree, WriteCode;
    var log := FolderLog(v.fat, v.tabs[req.parent], req, now);
    var k, p := NewCluster(v.fat), req.parent;
    var a, b := Put(d, log[0]), Put(Put(d, log[0]), log[1]);
    ApplyThree(d, log[0], log[1], log[2]);
    assert log[..0] == [] && log[..1] == [log[0]] && log[..2] == [log[0], log[1]];
    assert Shows(d, v) && (Inv(v) ==> Rep(d, v) && Inv(v));
    FolderMadeAdds(v, req, now);
    DirCell(v, p);
    assert Shows(a, v) && (Inv(v) ==> Rep(a, v) && Inv(v));
    FolderHalfWay(b, v, req, now);
  }

  lemma FolderHalfWay(b: Disk, v: Vol, req: Request, now: Stamp)
    requires FolderWritable(v, req) && req.parent < DISK_CLUSTERS
    requires var k := NewCluster(v.fat);
      && Fat(b)[k] == 0
      && b[req.parent] == EncodeTable(Filled(v.tabs[req.parent], NewSlot(v, req).index, FolderEntry(req, k, now)))
    requires forall c :: c in v.tabs && c != req.parent && c < DISK_CLUSTERS ==> Tab(b, c) == v.tabs[c]
    ensures !ShowsTree(b)
  {
    hide AsTable, EncodeTable, AsFat, EncodeFat, FreeCount, Filled, Tree, WriteCode;
    var s, k := NewSlot(v, req), NewCluster(v.fat);
    var t := Filled(v.tabs[s.dir], s.index, FolderEntry(req, k, now));
    AsTableIs(EncodeTable(t), t);
    FilledSlots(v.tabs[s.dir], s.index, FolderEntry(req, k, now));
    forall u | Rep(b, u)
      ensures !Tree(u)
    {
      if Tree(u) {
        FoldersStay(v, b, u, s.dir, {});
        DanglingEntry(u, s);
      }
    }
  }
}
