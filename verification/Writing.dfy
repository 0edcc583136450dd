// Writing files and folders: the cluster writes of the driver take the volume to the one meant, the
// invariant is kept, and exactly one name changes.
module Writing {
  import opened Layout
  import opened Volume
  import opened Allocation
  import opened Disks
  import opened Operations

  /* Writing a file */

  ghost predicate FileWritable(v: Vol, req: Request) {
    && Tree(v) && req.parent in v.tabs && req.size > 0
    && WriteCode(v.tabs[req.parent], req) == 0
    && HasRoom(v.fat, v.tabs[req.parent], req)
  }

  function NewSlot(v: Vol, req: Request): (s: Slot)
    requires req.parent in v.tabs
  {
    Slot(req.parent, First(v.tabs[req.parent], Dead))
  }

  function NewFile(v: Vol, req: Request, now: Stamp): Entry
    requires req.parent in v.tabs && HasRoom(v.fat, v.tabs[req.parent], req) && req.size > 0
  {
    FileEntry(Ent(v, NewSlot(v, req)), req, FileChain(v.fat, req.size)[0], now)
  }

  // The volume after a file has been written.
  ghost function FileWritten(v: Vol, req: Request, now: Stamp): Vol
    requires FileWritable(v, req)
  {
    var cs := FileChain(v.fat, req.size);
    AddFile(v, NewSlot(v, req), NewFile(v, req, now), cs, Linked(v.fat, cs))
  }

  // The first dead slot is free for an entry whose name nothing has.
  lemma SlotIsFree(v: Vol, req: Request, e: Entry)
    requires Tree(v) && req.parent in v.tabs && WriteCode(v.tabs[req.parent], req) == 0
    requires First(v.tabs[req.parent], Dead) < TABLE_SIZE
    requires Live(e) && e.name == req.name && e.ext == req.ext && req.size > 0
    ensures CanAdd(v, NewSlot(v, req), e)
  {
    hide Tree, FirstFrom;
  }

  lemma FileWrittenAdds(v: Vol, req: Request, now: Stamp)
    requires FileWritable(v, req)
    ensures FileAdded(v, FileWritten(v, req, now), NewSlot(v, req), NewFile(v, req, now), FileChain(v.fat, req.size))
    ensures InRange(FileChain(v.fat, req.size)) && Increasing(FileChain(v.fat, req.size))
  {
    hide Linked, Smallest, FreeCount, Filled, CanAdd, Tree, First, WriteCode;
    var cs := FileChain(v.fat, req.size);
    SlotIsFree(v, req, NewFile(v, req, now));
    SmallestIsLeast(v.fat, Blocks(req.size), 3);
    LinkedIsChain(v.fat, cs);
  }

  // A data cluster of a file is no directory.
  lemma FileCellIsNoDir(v: Vol, s: Slot, k: nat)
    requires Tree(v) && s in v.chains && k in v.chains[s]
    requires IsSlot(v, s) && !IsDir(Ent(v, s))
    ensures 3 <= k < CLUSTER_MAP_SIZE && v.fat[k] != 0 && k !in v.tabs
  {
    hide IsChain;
    assert SlotOk(v, s);
    ChainCell(v.fat, v.chains[s], k);
    assert k in v.tabs ==> DirOk(v, k);
  }

  // The cells of directories are in use.
  lemma DirCell(v: Vol, c: nat)
    requires Tree(v) && c in v.tabs
    ensures ROOT_CLUSTER <= c < CLUSTER_MAP_SIZE && v.fat[c] != 0
  {
    assert DirOk(v, c);
  }

  // The disk while a chain is being written still shows the old tables.
  lemma GrownKeepsTables(d: Disk, e: Disk, v: Vol, cs: seq<nat>)
    requires Rep(d, v) && Tree(v) && InRange(cs) && Grown(d, e, cs)
    requires forall k :: k in cs ==> k < CLUSTER_MAP_SIZE && v.fat[k] == 0
    ensures e[0] == d[0]
    ensures forall c :: c in v.tabs ==> c < DISK_CLUSTERS && e[c] == d[c] && Tab(e, c) == v.tabs[c]
  {
    hide AsTable;
    assert 0 !in cs;
    forall c | c in v.tabs
      ensures c < DISK_CLUSTERS && e[c] == d[c]
    {
      DirCell(v, c);
    }
  }

  // The disk after the writes of a file write.
  function FileDisk(d: Disk, fat: FatMap, t: Table, req: Request, buf: seq<Byte>, now: Stamp): Disk
    requires req.parent < DISK_CLUSTERS && req.size > 0 && HasRoom(fat, t, req) && Holds(buf, Blocks(req.size))
  {
    Apply(d, FileLog(fat, t, req, buf, now))
  }

  // All clusters but the map, the parent and the new chain are as before; the chain holds the data.
  ghost predicate OnlyWrote(d: Disk, e: Disk, p: nat, cs: seq<nat>, buf: seq<Byte>) {
    && InRange(cs) && Holds(buf, |cs|)
    && (forall j :: 0 <= j < |cs| ==> e[cs[j]] == Chunk(buf, j))
    && (forall c :: 0 <= c < DISK_CLUSTERS && c != FAT_CLUSTER && c != p && c !in cs ==> e[c] == d[c])
  }

  lemma {:induction false} FileDiskSteps(d: Disk, v: Vol, req: Request, buf: seq<Byte>, now: Stamp)
    requires Rep(d, v) && FileWritable(v, req) && Holds(buf, Blocks(req.size)) && req.parent < DISK_CLUSTERS
    ensures var cs := FileChain(v.fat, req.size);
      var e := Apply(d, ChainLog(v.fat, cs, buf));
      && Grown(d, e, cs) && Laid(d, e, cs, buf)
      && FileDisk(d, v.fat, v.tabs[req.parent], req, buf, now)
         == Put(e, PutTable(req.parent, FileWritten(v, req, now).tabs[req.parent]))
  {
    hide AsTable, EncodeTable, AsFat, EncodeFat, Linked, FreeCount, Filled, FileEntry, Tree;
    FileWrittenAdds(v, req, now);
    var cs := FileChain(v.fat, req.size);
    ChainLogEffect(d, cs, buf);
    ApplyOne(d, ChainLog(v.fat, cs, buf), PutTable(req.parent, FileWritten(v, req, now).tabs[req.parent]));
  }

  // Storing a table where a directory is does to the disk what it does to the volume.
  lemma PutTableRep(e: Disk, v: Vol, w: Vol, p: ClusterNo, t: Table)
    requires Fat(e) == w.fat && p != FAT_CLUSTER
    requires forall c :: c in v.tabs ==> c < DISK_CLUSTERS && Tab(e, c) == v.tabs[c]
    requires w.tabs == v.tabs[p := t]
    ensures Rep(Put(e, PutTable(p, t)), w)
  {
    hide AsTable, EncodeTable, AsFat, EncodeFat;
    AsTableIs(EncodeTable(t), t);
  }

  // Carrying out the writes of a file write takes the disk of `v` to the disk of FileWritten.
  lemma FileWrittenRep(d: Disk, v: Vol, req: Request, buf: seq<Byte>, now: Stamp)
    requires Rep(d, v) && FileWritable(v, req) && Holds(buf, Blocks(req.size)) && req.parent < DISK_CLUSTERS
    ensures Rep(FileDisk(d, v.fat, v.tabs[req.parent], req, buf, now), FileWritten(v, req, now))
  {
    var cs := FileChain(v.fat, req.size);
    FileWrittenAdds(v, req, now);
    DirCell(v, req.parent);
    FileDiskSteps(d, v, req, buf, now);
    hide AsTable, EncodeTable, AsFat, EncodeFat, Linked, FreeCount, Filled, FileEntry, FileDisk, FileWritten;
    hide ChainLog, Tree, WriteCode, HasRoom, IsChain, CanAdd, Smallest, Apply;
    var e := Apply(d, ChainLog(v.fat, cs, buf));
    GrownKeepsTables(d, e, v, cs);
    var w := FileWritten(v, req, now);
    PutTableRep(e, v, w, req.parent, w.tabs[req.parent]);
  }

  lemma StoredThenTable(d: Disk, e: Disk, cs: seq<nat>, buf: seq<Byte>, p: ClusterNo, t: Table)
    requires InRange(cs) && Holds(buf, |cs|)
    requires Grown(d, e, cs) && Laid(d, e, cs, buf) && p !in cs
    ensures OnlyWrote(d, Put(e, PutTable(p, t)), p, cs, buf)
  {
    hide AsFat, EncodeTable, Linked, Chunk;
    forall j | 0 <= j < |cs|
      ensures Put(e, PutTable(p, t))[cs[j]] == Chunk(buf, j)
    {
      assert cs[j] in cs;
    }
  }

  lemma FileWrittenData(d: Disk, v: Vol, req: Request, buf: seq<Byte>, now: Stamp)
    requires Rep(d, v) && FileWritable(v, req) && Holds(buf, Blocks(req.size)) && req.parent < DISK_CLUSTERS
    ensures OnlyWrote(d, FileDisk(d, v.fat, v.tabs[req.parent], req, buf, now), req.parent,
      FileChain(v.fat, req.size), buf)
  {
    hide OnlyWrote;
    var cs := FileChain(v.fat, req.size);
    FileWrittenAdds(v, req, now);
    DirCell(v, req.parent);
    FileDiskSteps(d, v, req, buf, now);
    hide AsTable, EncodeTable, AsFat, EncodeFat, Linked, FreeCount, Filled, FileEntry, FileDisk, FileWritten;
    hide ChainLog, Tree, WriteCode, HasRoom, IsChain, Smallest, Apply;
    StoredThenTable(d, Apply(d, ChainLog(v.fat, cs, buf)), cs, buf, req.parent,
      FileWritten(v, req, now).tabs[req.parent]);
  }

  lemma {:induction false} GatherLaid(e: Disk, cs: seq<nat>, buf: seq<Byte>)
    requires InRange(cs) && Holds(buf, |cs|)
    requires forall j :: 0 <= j < |cs| ==> e[cs[j]] == Chunk(buf, j)
    ensures Gather(e, cs) == Cut(buf, |cs|)
  {
    if |cs| > 0 {
      hide Chunk;
      GatherLaid(e, cs[..|cs| - 1], buf);
    }
  }

  // Only the new name changes what a search for a file finds in the parent.
  lemma FilledFirst(t: Table, i: nat, e: Entry, name: Name, ext: Ext)
    requires 1 <= i < TABLE_SIZE && !Live(t[i]) && Live(e) && !IsDir(e)
    requires forall j :: 1 <= j < TABLE_SIZE && Live(t[j]) ==> !SameKey(t[j], e)
    ensures First(Filled(t, i, e), FileKey(name, ext)) ==
      if name == e.name && ext == e.ext then i else First(t, FileKey(name, ext))
    ensures First(Filled(t, i, e), Folder(name)) == First(t, Folder(name))
  {
    var u := Filled(t, i, e);
    FirstUnmoved(t, u, i, Folder(name));
    if name == e.name && ext == e.ext {
      FirstIsOnly(u, i, FileKey(name, ext));
    } else {
      FirstUnmoved(t, u, i, FileKey(name, ext));
    }
  }

  lemma FileAddedElsewhere(d: Disk, b: Disk, v: Vol, w: Vol, s: Slot, e: Entry, cs: seq<nat>,
      buf: seq<Byte>, f: FileName)
    requires FileAdded(v, w, s, e, cs) && Tree(w) && OnlyWrote(d, b, s.dir, cs, buf)
    requires f != FileName(s.dir, e.name, e.ext)
    ensures FileAt(b, w, f) == FileAt(d, v, f)
  {
    hide Chunk, Blocks, IsChain, Filled, FlagExact, DeadCleared;
    if f.dir in v.tabs {
      FilledFirst(v.tabs[s.dir], s.index, e, f.name, f.ext);
      var i := First(v.tabs[f.dir], FileKey(f.name, f.ext));
      var q := Slot(f.dir, i);
      if i < TABLE_SIZE {
        assert Covered(v, q);
        forall k | k in v.chains[q]
          ensures k < CLUSTER_MAP_SIZE && b[k] == d[k]
        {
          FileCellIsNoDir(v, q, k);
        }
        FilledSlots(v.tabs[s.dir], s.index, e);
      }
    }
    FileAtFrame(d, b, v, w, f);
  }

  lemma FilledSlots(t: Table, i: nat, e: Entry)
    requires 1 <= i < TABLE_SIZE
    ensures Filled(t, i, e)[i] == e
    ensures forall j :: 1 <= j < TABLE_SIZE && j != i ==> Filled(t, i, e)[j] == t[j]
  {
  }

  lemma FileAddedHere(d: Disk, b: Disk, v: Vol, w: Vol, s: Slot, e: Entry, cs: seq<nat>, buf: seq<Byte>)
    requires FileAdded(v, w, s, e, cs) && Tree(w) && OnlyWrote(d, b, s.dir, cs, buf)
    ensures Holds(buf, Blocks(e.filesize))
    ensures FileAt(b, w, FileName(s.dir, e.name, e.ext)) == Some(Operations.Stored(buf, e.filesize))
  {
    hide Chunk, IsChain, Filled, FlagExact, DeadCleared;
    FilledFirst(v.tabs[s.dir], s.index, e, e.name, e.ext);
    FilledSlots(v.tabs[s.dir], s.index, e);
    GatherLaid(b, cs, buf);
  }

  // A successful file write binds one name to the stored bytes and leaves every other name alone.
  lemma FileWriteBinds(d: Disk, v: Vol, req: Request, buf: seq<Byte>, now: Stamp, f: FileName)
    requires Rep(d, v) && FileWritable(v, req) && Holds(buf, Blocks(req.size)) && req.parent < DISK_CLUSTERS
    ensures Tree(FileWritten(v, req, now)) && (Inv(v) ==> Inv(FileWritten(v, req, now)))
    ensures FileAt(FileDisk(d, v.fat, v.tabs[req.parent], req, buf, now), FileWritten(v, req, now), f)
      == if f == FileName(req.parent, req.name, req.ext) then Some(Operations.Stored(buf, req.size))
        else FileAt(d, v, f)
  {
    var s, e, cs := NewSlot(v, req), NewFile(v, req, now), FileChain(v.fat, req.size);
    FileWrittenAdds(v, req, now);
    FileWrittenData(d, v, req, buf, now);
    hide FileAdded, OnlyWrote, FileDisk, FileChain, FileWritten, Inv, Tree, HasRoom;
    var w, b := FileWritten(v, req, now), FileDisk(d, v.fat, v.tabs[req.parent], req, buf, now);
    FileAddedKeepsInv(v, w, s, e, cs);
    if f == FileName(req.parent, req.name, req.ext) {
      FileAddedHere(d, b, v, w, s, e, cs, buf);
    } else {
      FileAddedElsewhere(d, b, v, w, s, e, cs, buf, f);
    }
  }

  lemma InvTree(v: Vol)
    requires Inv(v)
    ensures Tree(v)
  {
  }

  lemma FileAddedFolders(v: Vol, w: Vol, s: Slot, e: Entry, cs: seq<nat>, dir: nat, name: Name)
    requires FileAdded(v, w, s, e, cs)
    ensures FolderAt(w, dir, name) == FolderAt(v, dir, name)
  {
    hide Chunk, Blocks, IsChain, Filled, FlagExact, DeadCleared, Tree;
    FilledFirst(v.tabs[s.dir], s.index, e, name, ZERO_EXT);
    FilledSlots(v.tabs[s.dir], s.index, e);
  }

  lemma FileWriteKeepsFolders(v: Vol, req: Request, now: Stamp, dir: nat, name: Name)
    requires FileWritable(v, req)
    ensures FolderAt(FileWritten(v, req, now), dir, name) == FolderAt(v, dir, name)
    ensures NoLeak(v) ==> NoLeak(FileWritten(v, req, now))
  {
    FileWrittenAdds(v, req, now);
    hide FileAdded, FileWritten, FileChain, HasRoom, NewFile, FolderAt, NoLeak, Inv, Tree;
    FileAddedKeepsInv(v, FileWritten(v, req, now), NewSlot(v, req), NewFile(v, req, now), FileChain(v.fat, req.size));
    FileAddedFolders(v, FileWritten(v, req, now), NewSlot(v, req), NewFile(v, req, now),
      FileChain(v.fat, req.size), dir, name);
  }

  /* Making a folder */

  ghost predicate FolderWritable(v: Vol, req: Request) {
    && Tree(v) && req.parent in v.tabs && req.size == 0
    && WriteCode(v.tabs[req.parent], req) == 0
    && HasRoom(v.fat, v.tabs[req.parent], req)
  }

  // The cluster a new folder gets.
  function NewCluster(fat: FatMap): (k: nat)
    requires FreeCount(fat, 3) > 0
    ensures 3 <= k < CLUSTER_MAP_SIZE && fat[k] == 0
  {
    FreeCountPositive(fat, 3);
    FirstFree(fat)
  }

  // The volume after a folder has been made.
  ghost function FolderMade(v: Vol, req: Request, now: Stamp): Vol
    requires FolderWritable(v, req)
  {
    var k := NewCluster(v.fat);
    AddFolder(v, NewSlot(v, req), FolderEntry(req, k, now), k, NewTable(req.name, req.parent, now))
  }

  lemma FolderMadeAdds(v: Vol, req: Request, now: Stamp)
    requires FolderWritable(v, req)
    ensures var k := NewCluster(v.fat);
      FolderAdded(v, FolderMade(v, req, now), NewSlot(v, req), FolderEntry(req, k, now), k,
        NewTable(req.name, req.parent, now))
    ensures NewCluster(v.fat) !in v.tabs
  {
    hide FreeCount, Filled, Distinct, FlagExact, DeadCleared;
    var k := NewCluster(v.fat);
    assert k in v.tabs ==> DirOk(v, k);
    assert DirOk(v, req.parent);
    FolderKeyIsNew(v, req);
  }

  // Folders carry no extension, so a folder name that is free is a free key.
  lemma FolderKeyIsNew(v: Vol, req: Request)
    requires FolderWritable(v, req)
    ensures forall i :: 1 <= i < TABLE_SIZE && Live(v.tabs[req.parent][i]) && v.tabs[req.parent][i].name == req.name ==>
      !IsDir(v.tabs[req.parent][i])
  {
    forall i | 1 <= i < TABLE_SIZE && Live(v.tabs[req.parent][i]) && v.tabs[req.parent][i].name == req.name
      ensures !IsDir(v.tabs[req.parent][i])
    {
      assert !Matches(v.tabs[req.parent][i], Folder(req.name));
    }
  }

  function FolderDisk(d: Disk, fat: FatMap, t: Table, req: Request, now: Stamp): Disk
    requires req.parent < DISK_CLUSTERS && req.size == 0 && HasRoom(fat, t, req)
  {
    Apply(d, FolderLog(fat, t, req, now))
  }

  lemma {:induction false} ApplyThree(d: Disk, a: ClusterWrite, b: ClusterWrite, c: ClusterWrite)
    ensures Apply(d, [a]) == Put(d, a)
    ensures Apply(d, [a, b]) == Put(Put(d, a), b)
    ensures Apply(d, [a, b, c]) == Put(Put(Put(d, a), b), c)
  {
    ApplyOne(d, [], a);
    ApplyOne(d, [a], b);
    ApplyOne(d, [a, b], c);
    assert [] + [a] == [a] && [a] + [b] == [a, b] && [a, b] + [c] == [a, b, c];
  }

  // Two tables and the map, stored one after the other where no other table is.
  lemma FolderAddedRep(d: Disk, v: Vol, w: Vol, p: ClusterNo, k: ClusterNo, t: Table, u: Table)
    requires Rep(d, v) && p != FAT_CLUSTER && k != FAT_CLUSTER && p != k
    requires forall c :: c in v.tabs ==> c != FAT_CLUSTER
    requires w.tabs == v.tabs[p := t][k := u]
    ensures Rep(Put(Put(Put(d, PutTable(k, u)), PutTable(p, t)), PutFat(w.fat)), w)
  {
    hide AsTable, EncodeTable, AsFat, EncodeFat;
    AsTableIs(EncodeTable(t), t);
    AsTableIs(EncodeTable(u), u);
    AsFatIs(EncodeFat(w.fat), w.fat);
  }

  lemma FolderDiskIs(d: Disk, v: Vol, req: Request, now: Stamp)
    requires FolderWritable(v, req) && req.parent < DISK_CLUSTERS
    ensures var k, w := NewCluster(v.fat), FolderMade(v, req, now);
      k in w.tabs &&
      FolderDisk(d, v.fat, v.tabs[req.parent], req, now)
      == Put(Put(Put(d, PutTable(k, w.tabs[k])), PutTable(req.parent, w.tabs[req.parent])), PutFat(w.fat))
  {
    var k, w := NewCluster(v.fat), FolderMade(v, req, now);
    FolderMadeAdds(v, req, now);
    hide EncodeTable, EncodeFat, FreeCount, Filled, FolderEntry, NewTable, Tree;
    ApplyThree(d, PutTable(k, w.tabs[k]), PutTable(req.parent, w.tabs[req.parent]), PutFat(w.fat));
  }

  // The three writes of a folder take the disk of `v` to the disk of FolderMade.
  lemma FolderMadeRep(d: Disk, v: Vol, req: Request, now: Stamp)
    requires Rep(d, v) && FolderWritable(v, req) && req.parent < DISK_CLUSTERS
    ensures Rep(FolderDisk(d, v.fat, v.tabs[req.parent], req, now), FolderMade(v, req, now))
  {
    var p, k, w := req.parent, NewCluster(v.fat), FolderMade(v, req, now);
    FolderMadeAdds(v, req, now);
    FolderDiskIs(d, v, req, now);
    forall c | c in v.tabs
      ensures c != FAT_CLUSTER
    {
      DirCell(v, c);
    }
    hide AsTable, EncodeTable, AsFat, EncodeFat, FreeCount, Filled, FolderEntry, NewTable, Tree, FolderMade;
    hide FolderDisk, WriteCode;
    FolderAddedRep(d, v, w, p, k, w.tabs[p], w.tabs[k]);
  }

  lemma FilledFolderFirst(t: Table, i: nat, e: Entry, name: Name, ext: Ext)
    requires 1 <= i < TABLE_SIZE && !Live(t[i]) && Live(e) && IsDir(e)
    requires First(t, Folder(e.name)) == TABLE_SIZE
    ensures First(Filled(t, i, e), FileKey(name, ext)) == First(t, FileKey(name, ext))
    ensures First(Filled(t, i, e), Folder(name)) == if name == e.name then i else First(t, Folder(name))
  {
    var u := Filled(t, i, e);
    FirstUnmoved(t, u, i, FileKey(name, ext));
    if name == e.name {
      FirstIsOnly(u, i, Folder(name));
    } else {
      FirstUnmoved(t, u, i, Folder(name));
    }
  }

  lemma FreshFinds(t: Table, name: Name, parent: nat, p: Pattern)
    requires FreshTable(t, name, parent) && p != Dead && !p.Named?
    ensures First(t, p) == TABLE_SIZE
  {
    FirstIs(t, p, TABLE_SIZE);
  }

  lemma FolderAddedFolders(v: Vol, w: Vol, s: Slot, e: Entry, k: nat, table: Table, dir: nat, name: Name)
    requires FolderAdded(v, w, s, e, k, table) && k !in v.tabs
    requires First(v.tabs[s.dir], Folder(e.name)) == TABLE_SIZE
    ensures FolderAt(w, dir, name) == if dir == s.dir && name == e.name then Some(k) else FolderAt(v, dir, name)
  {
    hide Filled, Tree, SameKey, First, FirstFrom, FreshTable;
    FilledFolderFirst(v.tabs[s.dir], s.index, e, name, ZERO_EXT);
    FilledSlots(v.tabs[s.dir], s.index, e);
    FreshFinds(table, e.name, s.dir, Folder(name));
  }

  lemma FolderAddedFiles(d: Disk, b: Disk, v: Vol, w: Vol, s: Slot, e: Entry, k: nat, table: Table, f: FileName)
    requires FolderAdded(v, w, s, e, k, table) && Tree(w) && k !in v.tabs
    requires First(v.tabs[s.dir], Folder(e.name)) == TABLE_SIZE
    requires forall c :: 0 <= c < DISK_CLUSTERS && c != FAT_CLUSTER && c != s.dir && c != k ==> b[c] == d[c]
    ensures FileAt(b, w, f) == FileAt(d, v, f)
  {
    hide Filled, FlagExact, DeadCleared, Distinct, FreshTable, SameKey, Blocks, IsChain, SlotOk, DirOk, First;
    hide FirstFrom;
    FreshFinds(table, e.name, s.dir, FileKey(f.name, f.ext));
    if f.dir in v.tabs {
      FilledFolderFirst(v.tabs[s.dir], s.index, e, f.name, f.ext);
      FilledSlots(v.tabs[s.dir], s.index, e);
      var i := First(v.tabs[f.dir], FileKey(f.name, f.ext));
      var q := Slot(f.dir, i);
      if i < TABLE_SIZE {
        assert Covered(v, q);
        forall c | c in v.chains[q]
          ensures c < CLUSTER_MAP_SIZE && b[c] == d[c]
        {
          FileCellIsNoDir(v, q, c);
        }
      }
      FileAtFrame(d, b, v, w, f);
    }
  }

  // A new folder binds one folder name, is itself empty, and touches no file.
  lemma FolderWriteBinds(d: Disk, v: Vol, req: Request, now: Stamp, f: FileName)
    requires Rep(d, v) && FolderWritable(v, req) && req.parent < DISK_CLUSTERS
    ensures Tree(FolderMade(v, req, now)) && (Inv(v) ==> Inv(FolderMade(v, req, now)))
    ensures NoLeak(v) ==> NoLeak(FolderMade(v, req, now))
    ensures FileAt(FolderDisk(d, v.fat, v.tabs[req.parent], req, now), FolderMade(v, req, now), f) == FileAt(d, v, f)
    ensures FolderAt(FolderMade(v, req, now), f.dir, f.name) ==
      if f.dir == req.parent && f.name == req.name then Some(NewCluster(v.fat)) else FolderAt(v, f.dir, f.name)
  {
    var s, k := NewSlot(v, req), NewCluster(v.fat);
    var e, table := FolderEntry(req, k, now), NewTable(req.name, req.parent, now);
    FolderMadeAdds(v, req, now);
    FolderDiskIs(d, v, req, now);
    hide FolderMade, FolderDisk, HasRoom, FolderAdded, FolderAt, NewCluster, NewTable, Inv, Tree, NoLeak, EncodeTable;
    hide EncodeFat;
    var w, b := FolderMade(v, req, now), FolderDisk(d, v.fat, v.tabs[req.parent], req, now);
    FolderAddedKeepsInv(v, w, s, e, k, table);
    FolderAddedFolders(v, w, s, e, k, table, f.dir, f.name);
    FolderAddedFiles(d, b, v, w, s, e, k, table, f);
  }
}
