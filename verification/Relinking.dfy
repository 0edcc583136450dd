// The two calls that relabel and relink folders, on the driver.
module Relinking {
  import opened Layout
  import opened Volume
  import opened Pruning
  import opened Disks
  import opened Shown
  import opened Operations
  import opened Writing
  import opened Reading
  import opened Runs
  import opened Renaming
  import opened Moving
  import opened MoveOutcomes
  import opened FatDriver
  import opened Calls
  import Simulation
  import Deleting

  ghost predicate Opens(d: Disk, v: Vol, req: Request, now: Stamp)
    requires Tree(v) && Allowed(d, v, Op.ReadFolder(req, now))
  {
    !Refused(d, Op.ReadFolder(req, now)) && ReadFolderCode(v.tabs[req.parent], req) == 0
  }

  // The volume once the folder has been read.
  ghost function AfterRead(d: Disk, v: Vol, req: Request, now: Stamp): Vol
    requires Tree(v) && Allowed(d, v, Op.ReadFolder(req, now))
  {
    StepVol(d, v, Op.ReadFolder(req, now))
  }

  // The disk once the folder has been read.
  ghost function DiskAfterRead(d: Disk, v: Vol, req: Request, now: Stamp): Disk
    requires Tree(v) && Allowed(d, v, Op.ReadFolder(req, now))
  {
    StepDisk(d, v, Op.ReadFolder(req, now))
  }

  // The new name is free, and the first slot with the old one is the folder.
  ghost predicate MayRename(v: Vol, req: Request, newName: Name) {
    && req.parent in v.tabs && Renamable(v, FolderSlotOf(v, req), newName)
    && First(v.tabs[req.parent], Named(req.name)) == FolderSlotOf(v, req).index
  }

  ghost predicate MayMove(v: Vol, req: Request, q: nat) {
    && req.parent in v.tabs && q < CLUSTER_MAP_SIZE && Movable(v, FolderSlotOf(v, req), q)
    && First(v.tabs[req.parent], Named(req.name)) == FolderSlotOf(v, req).index
  }

  // The target is in the folder, and the first slot with its name is the folder.
  ghost predicate MovesInside(v: Vol, req: Request, q: nat) {
    && req.parent in v.tabs && q < CLUSTER_MAP_SIZE && IsFolder(v, FolderSlotOf(v, req))
    && q in v.tabs && Under(v, Ent(v, FolderSlotOf(v, req)).cluster, q)
    && First(v.tabs[req.parent], Named(req.name)) == FolderSlotOf(v, req).index
  }

  // The read has found the folder.
  ghost predicate Finds(v: Vol, req: Request) {
    && req.parent < DISK_CLUSTERS && IsSlot(v, FolderSlotOf(v, req))
    && Ent(v, FolderSlotOf(v, req)).cluster in v.tabs && Ent(v, FolderSlotOf(v, req)).cluster < DISK_CLUSTERS
  }

  // What the calls write after the read, whatever slot carries the name first.
  ghost function RenameWrites(v: Vol, req: Request, newName: Name, now: Stamp): seq<ClusterWrite>
    requires Finds(v, req)
  {
    var t, k := v.tabs[req.parent], Ent(v, FolderSlotOf(v, req)).cluster;
    var i := First(t, Named(req.name));
    if i < TABLE_SIZE then RenameLog(t, i, req.parent, v.tabs[k], k, newName, now) else []
  }

  ghost function MoveWrites(v: Vol, req: Request, q: nat, now: Stamp): seq<ClusterWrite>
    requires Finds(v, req) && q in v.tabs && q < DISK_CLUSTERS
  {
    var t, k := v.tabs[req.parent], Ent(v, FolderSlotOf(v, req)).cluster;
    var i := First(t, Named(req.name));
    if i < TABLE_SIZE then MoveLog(t, i, req.parent, v.tabs[q], q, v.tabs[k], k, v.fat, now) else []
  }

  // One folder has another name; every other folder and the contents of every file are what they were.
  ghost predicate OneRelabelled(d: Disk, v: Vol, e: Disk, w: Vol, s: Slot, name: Name) {
    && Tree(v) && Tree(w) && IsSlot(v, s)
    && (forall f :: FileAt(e, w, f) == FileAt(d, v, f))
    && (forall c, n :: FolderAt(w, c, n) ==
          if c == s.dir && n == name then Some(Ent(v, s).cluster)
          else if c == s.dir && n == Ent(v, s).name then None
          else FolderAt(v, c, n))
  }

  // One folder has another parent; every other folder and the contents of every file are what they were.
  ghost predicate OneMoved(d: Disk, v: Vol, e: Disk, w: Vol, s: Slot, q: nat) {
    && Tree(v) && Tree(w) && IsSlot(v, s)
    && (forall f :: FileAt(e, w, f) == FileAt(d, v, f))
    && (forall c, n :: FolderAt(w, c, n) ==
          if c == q && n == Ent(v, s).name then Some(Ent(v, s).cluster)
          else if c == s.dir && n == Ent(v, s).name then None
          else FolderAt(v, c, n))
  }

  lemma SameFolders(v: Vol, w: Vol, c: nat, n: Name)
    requires SameTree(v, w)
    ensures FolderAt(w, c, n) == FolderAt(v, c, n)
  {
    if c in v.tabs {
      SameTreeFinds(v, w, c, Folder(n));
    }
  }

  lemma LookThenRelabel(c: Disk, u: Vol, d: Disk, v: Vol, e: Disk, w: Vol, s: Slot, name: Name)
    requires OnlyLooked(c, u, d, v) && OneRelabelled(d, v, e, w, s, name)
    ensures OneRelabelled(c, u, e, w, s, name)
  {
    hide Tree, FileAt, FolderAt;
    SameSlot(u, v, s);
    forall f: FileName
      ensures FileAt(e, w, f) == FileAt(c, u, f)
    {
      assert FileAt(d, v, f) == FileAt(c, u, f);
    }
    forall k, n
      ensures FolderAt(v, k, n) == FolderAt(u, k, n)
    {
      SameFolders(u, v, k, n);
    }
  }

  lemma LookThenMove(c: Disk, u: Vol, d: Disk, v: Vol, e: Disk, w: Vol, s: Slot, q: nat)
    requires OnlyLooked(c, u, d, v) && OneMoved(d, v, e, w, s, q)
    ensures OneMoved(c, u, e, w, s, q)
  {
    hide Tree, FileAt, FolderAt;
    SameSlot(u, v, s);
    forall f: FileName
      ensures FileAt(e, w, f) == FileAt(c, u, f)
    {
      assert FileAt(d, v, f) == FileAt(c, u, f);
    }
    forall k, n
      ensures FolderAt(v, k, n) == FolderAt(u, k, n)
    {
      SameFolders(u, v, k, n);
    }
  }

  lemma LookThenLose(c: Disk, u: Vol, d: Disk, v: Vol, e: Disk, w: Vol, s: Slot)
    requires OnlyLooked(c, u, d, v) && OneLost(d, v, e, w, s)
    ensures OneLost(c, u, e, w, s)
  {
    hide Tree, FileAt, FolderAt, Under;
    SameSlot(u, v, s);
    SameKeys(u, v);
    forall k
      ensures HangsFrom(v, s, k) <==> HangsFrom(u, s, k)
    {
      if k in u.tabs {
        StillUnder(u, v, Ent(u, s).cluster, k);
      }
    }
    forall f: FileName
      ensures FileAt(d, v, f) == FileAt(c, u, f)
    {
    }
    forall k, n
      ensures FolderAt(v, k, n) == FolderAt(u, k, n)
    {
      SameFolders(u, v, k, n);
    }
  }

  lemma SameSlot(v: Vol, w: Vol, s: Slot)
    requires SameTree(v, w) && IsSlot(w, s)
    ensures IsSlot(v, s) && SameEntry(Ent(w, s), Ent(v, s))
  {
  }

  // The loop of both calls: the first slot with a name.
  method FindNamed(table: Table, name: Name) returns (i: nat)
    ensures i == First(table, Named(name))
  {
    i := 1;
    while i < TABLE_SIZE && table[i].name != name
      invariant 1 <= i <= TABLE_SIZE
      invariant forall j :: 1 <= j < i ==> table[j].name != name
    {
      i := i + 1;
    }
    FirstIs(table, Named(name), i);
  }

  method FindDead(table: Table) returns (i: nat)
    ensures i == First(table, Dead)
  {
    i := 1;
    while i < TABLE_SIZE && table[i].undelete != 0
      invariant 1 <= i <= TABLE_SIZE
      invariant forall j :: 1 <= j < i ==> Live(table[j])
    {
      i := i + 1;
    }
    FirstIs(table, Dead, i);
  }

  method LoadOne(driver: Driver, c: ClusterNo) returns (table: Table)
    requires driver.Shape()
    ensures table == Tab(driver.Content(), c)
  {
    var data := driver.device.ReadCluster(c);
    table := DecodeTable(data);
    AsTableIs(data, table);
  }

  // ... and leaves a disk and a cache that agree with the renamed tree.
  lemma {:induction false} RenameOutcome(d: Disk, v: Vol, req: Request, newName: Name, now: Stamp)
    requires Rep(d, v) && Formatted(d) && MayRename(v, req, newName) && Finds(v, req)
    ensures var w := Renamed(v, FolderSlotOf(v, req), newName, now);
      && Rep(Apply(d, RenameWrites(v, req, newName, now)), w)
      && Formatted(Apply(d, RenameWrites(v, req, newName, now)))
      && Tree(w) && (Inv(v) ==> Inv(w)) && w.fat == v.fat && (NoLeak(v) ==> NoLeak(w))
  {
    hide SlotOk, DirOk, AsFat, AsTable, EncodeTable, EncodeFat, First, FirstFrom, FolderAt, RelinkedEntry, Relabelled;
    hide Signature;
    var s := FolderSlotOf(v, req);
    FolderSlot(v, s);
    var k := Ent(v, s).cluster;
    var log := RenameLog(v.tabs[req.parent], s.index, req.parent, v.tabs[k], k, newName, now);
    RenamedIs(v, s, newName, now);
    var e := RelinkedEntry(v.tabs[k][0], newName, ZERO_EXT, k, now);
    RenamedKeepsInv(v, Renamed(v, s, newName, now), s, e, k, newName);
    RenamedRep(d, v, s, newName, now);
    Deleting.ApplyTwo(d, log[0], log[1]);
  }

  // A rename that finds its folder changes one name and no content.
  lemma {:induction false} RenameNames(d: Disk, v: Vol, req: Request, newName: Name, now: Stamp)
    requires Rep(d, v) && Formatted(d) && MayRename(v, req, newName) && Finds(v, req)
    ensures var s := FolderSlotOf(v, req);
      OneRelabelled(d, v, Apply(d, RenameWrites(v, req, newName, now)), Renamed(v, s, newName, now), s, newName)
  {
    hide SlotOk, DirOk, AsFat, AsTable, EncodeTable, EncodeFat, First, FirstFrom, FolderAt, FileAt, RelinkedEntry;
    hide Relabelled, Rep, Formatted, KeysOk, CleanOk;
    var s := FolderSlotOf(v, req);
    FolderSlot(v, s);
    var k, w := Ent(v, s).cluster, Renamed(v, s, newName, now);
    var e := RelinkedEntry(v.tabs[k][0], newName, ZERO_EXT, k, now);
    var log := RenameLog(v.tabs[s.dir], s.index, s.dir, v.tabs[k], k, newName, now);
    Deleting.ApplyTwo(d, log[0], log[1]);
    RenamedIs(v, s, newName, now);
    RenamedKeepsInv(v, w, s, e, k, newName);
    var b := Apply(d, log);
    forall f: FileName
      ensures FileAt(b, w, f) == FileAt(d, v, f)
    {
      RenamedNames(d, b, v, w, s, e, k, newName, f);
    }
    forall c, n
      ensures FolderAt(w, c, n) ==
        if c == s.dir && n == newName then Some(k)
        else if c == s.dir && n == Ent(v, s).name then None
        else FolderAt(v, c, n)
    {
      RenamedNames(d, b, v, w, s, e, k, newName, FileName(c, n, ZERO_EXT));
    }
  }

  // The name that the read has found is there.
  lemma NameThere(v: Vol, req: Request)
    requires Finds(v, req)
    ensures 1 <= First(v.tabs[req.parent], Named(req.name)) < TABLE_SIZE
  {
    hide FirstFrom;
    var i := FolderSlotOf(v, req).index;
    FirstFound(v.tabs[req.parent], Named(req.name), i);
  }

  // What the read of both calls leaves.
  lemma LookedFirst(d: Disk, v: Vol, req: Request, now: Stamp)
    requires Rep(d, v) && Tree(v) && Allowed(d, v, Op.ReadFolder(req, now))
    ensures OnlyLooked(d, v, DiskAfterRead(d, v, req, now), AfterRead(d, v, req, now))
  {
    hide Tree, StepDisk, StepVol, AsTable, AsFat;
    var op := Op.ReadFolder(req, now);
    if Refused(d, op) {
      StepRefused(d, v, op);
      NothingLooked(d, v);
    } else {
      ReadStep(d, v, op);
    }
  }

  lemma StepRefused(d: Disk, v: Vol, op: Op)
    requires Tree(v) && Allowed(d, v, op) && Refused(d, op)
    ensures StepDisk(d, v, op) == d && StepVol(d, v, op) == v
  {
    hide Tree, AsTable, AsFat;
  }

  // The slot of the folder is the same before and after the read.
  lemma SlotStays(v: Vol, w: Vol, req: Request)
    requires SameTree(v, w) && req.parent in v.tabs
    ensures FolderSlotOf(w, req) == FolderSlotOf(v, req)
  {
    SameTreeFinds(v, w, req.parent, FolderKey(req.name, req.ext));
  }

  lemma FolderRange(d: Disk, v: Vol, req: Request)
    requires Rep(d, v) && IsSlot(v, FolderSlotOf(v, req)) && Ent(v, FolderSlotOf(v, req)).cluster in v.tabs
    ensures Finds(v, req) && Tab(d, req.parent) == v.tabs[req.parent]
  {
  }

  lemma RenameRelates(c: Disk, u: Vol, d: Disk, v: Vol, e: Disk, w: Vol, req: Request, name: Name)
    requires OnlyLooked(c, u, d, v) && req.parent in v.tabs && OneRelabelled(d, v, e, w, FolderSlotOf(v, req), name)
    ensures FolderSlotOf(v, req) == FolderSlotOf(u, req)
    ensures OneRelabelled(c, u, e, w, FolderSlotOf(u, req), name)
  {
    hide SameTree, OneRelabelled, SameFiles;
    SameKeys(u, v);
    SlotStays(u, v, req);
    LookThenRelabel(c, u, d, v, e, w, FolderSlotOf(v, req), name);
  }

  // Give a folder a new name. Returns the code of the read when that fails. The first slot with the old
  // name is replaced, whatever it is; if it is the folder, exactly one folder is relabelled.
  method RenameDir(driver: Driver, req: Request, newName: Name, buf: array<Entry>, now: Stamp) returns (code: int)
    requires driver.Intact() && buf.Length == TABLE_SIZE && Apart(driver, buf)
    requires Allowed(driver.Content(), driver.vol, Op.ReadFolder(req, now))
    modifies driver`vol, driver.device, driver.device.image, driver.fatTable, driver.dirTableBuf, buf
    ensures code == old(Simulation.CallCode(driver.Content(), driver.vol, Op.ReadFolder(req, now)))
    ensures old(Tab(driver.Content(), req.parent)[0].attribute) != 0x10 ==> code == -1
    ensures code == 0 <==> old(Opens(driver.Content(), driver.vol, req, now))
    ensures code != 0 ==> driver.Intact() && (old(driver.Valid()) ==> driver.Valid())
    ensures code != 0 ==> driver.vol == old(AfterRead(driver.Content(), driver.vol, req, now))
    ensures code != 0 ==> OnlyLooked(old(driver.Content()), old(driver.vol), driver.Content(), driver.vol)
    ensures code != 0 ==>
      driver.device.log == old(driver.device.log) + old(StepLog(driver.Content(), driver.vol, Op.ReadFolder(req, now)))
    ensures code == 0 ==> Finds(old(AfterRead(driver.Content(), driver.vol, req, now)), req)
    ensures code == 0 ==>
      var writes := RenameWrites(old(AfterRead(driver.Content(), driver.vol, req, now)), req, newName, now);
      && driver.Content() == Apply(old(DiskAfterRead(driver.Content(), driver.vol, req, now)), writes)
      && driver.device.log == old(driver.device.log)
           + old(StepLog(driver.Content(), driver.vol, Op.ReadFolder(req, now))) + writes
    ensures code == 0 && MayRename(old(AfterRead(driver.Content(), driver.vol, req, now)), req, newName) ==>
      var v, s := old(AfterRead(driver.Content(), driver.vol, req, now)), FolderSlotOf(old(driver.vol), req);
      && driver.Intact() && (old(driver.Valid()) ==> driver.Valid())
      && FolderSlotOf(v, req) == s && driver.vol == Renamed(v, s, newName, now)
      && OneRelabelled(old(driver.Content()), old(driver.vol), driver.Content(), driver.vol, s, newName)
  {
    hide Inv, Rep, Formatted, AsFat, AsTable, StepVol, StepDisk, StepLog, First, OnlyLooked, FolderSlotOf;
    hide RenameWrites, Renamed, NameFree, OneRelabelled, Tree;
    ghost var d0, v0 := driver.Content(), driver.vol;
    LookedFirst(d0, v0, req, now);
    var clusterNumber;
    code, clusterNumber := driver.ReadDirectory(req, buf, now);
    if code != 0 {
      return;
    }
    ghost var d, v := driver.Content(), driver.vol;
    FolderRange(d, v, req);
    RenameOnDisk(driver, req, newName, clusterNumber, buf[..], now, v);
    if MayRename(v, req, newName) {
      RenameOutcome(d, v, req, newName, now);
      RenameNames(d, v, req, newName, now);
      driver.vol := Renamed(v, FolderSlotOf(v, req), newName, now);
      RenameRelates(d0, v0, d, v, driver.Content(), driver.vol, req, newName);
    }
  }

  // The two writes of rename_dir.
  method RenameOnDisk(driver: Driver, req: Request, newName: Name, clusterNumber: nat, child: Table, now: Stamp,
      ghost v: Vol)
    requires driver.Shape() && Rep(driver.Content(), v) && Finds(v, req)
    requires clusterNumber == Ent(v, FolderSlotOf(v, req)).cluster && child == v.tabs[clusterNumber]
    modifies driver.device, driver.device.image, driver.fatTable
    ensures driver.Content() == Apply(old(driver.Content()), RenameWrites(v, req, newName, now))
    ensures driver.device.log == old(driver.device.log) + RenameWrites(v, req, newName, now)
    ensures driver.fatTable[..] == v.fat
  {
    hide AsFat, AsTable, First, FirstFrom, EncodeTable, EncodeFat, RelinkedEntry, Relabelled;
    ghost var d := driver.Content();
    NameThere(v, req);
    driver.LoadFat();
    var newEntry := RelinkedEntry(child[0], newName, ZERO_EXT, clusterNumber, now);
    var dirTable := LoadOne(driver, req.parent);
    var i := FindNamed(dirTable, req.name);
    dirTable := dirTable[i := newEntry];
    driver.device.WriteCluster(req.parent, EncodeTable(dirTable));
    driver.device.WriteCluster(clusterNumber, EncodeTable(Relabelled(child, newName)));
    ghost var writes := RenameWrites(v, req, newName, now);
    Deleting.ApplyTwo(d, writes[0], writes[1]);
  }

  // A move that finds its folder rebinds one name and changes no content ...
  lemma {:induction false} MoveNames(d: Disk, v: Vol, req: Request, q: nat, now: Stamp)
    requires Rep(d, v) && Formatted(d) && MayMove(v, req, q) && Finds(v, req)
    ensures q in v.tabs && q < DISK_CLUSTERS
    ensures var s := FolderSlotOf(v, req);
      OneMoved(d, v, Apply(d, MoveWrites(v, req, q, now)), Moved(v, s, q, now), s, q)
  {
    hide SlotOk, DirOk, AsFat, AsTable, EncodeTable, EncodeFat, First, FirstFrom, FolderAt, FileAt, MovedEntry;
    hide Reparented, Unlinked, Rep, Formatted, KeysOk, CleanOk, Under, NewDepth, Moved;
    var s := FolderSlotOf(v, req);
    FolderSlot(v, s);
    var k, w := Ent(v, s).cluster, Moved(v, s, q, now);
    var e, r := MovedEntry(v.tabs[k][0], k, now), Slot(q, First(TargetTable(v, s, q), Dead));
    var log := MoveLog(v.tabs[s.dir], s.index, s.dir, v.tabs[q], q, v.tabs[k], k, v.fat, now);
    ApplyFour(d, log[0], log[1], log[2], log[3]);
    MovedIs(v, s, q, now);
    MovedKeepsTree(v, w, s, r, e, k);
    var b := Apply(d, log);
    forall f: FileName
      ensures FileAt(b, w, f) == FileAt(d, v, f)
    {
      MovedNames(d, b, v, w, s, r, e, k, f);
    }
    forall c, n
      ensures FolderAt(w, c, n) ==
        if c == q && n == Ent(v, s).name then Some(k)
        else if c == s.dir && n == Ent(v, s).name then None
        else FolderAt(v, c, n)
    {
      MovedNames(d, b, v, w, s, r, e, k, FileName(c, n, ZERO_EXT));
    }
  }

  // ... and leaves a disk and a cache that agree with the moved tree.
  lemma {:induction false} MoveOutcome(d: Disk, v: Vol, req: Request, q: nat, now: Stamp)
    requires Rep(d, v) && Formatted(d) && MayMove(v, req, q) && Finds(v, req)
    ensures q in v.tabs && q < DISK_CLUSTERS
    ensures var e, w := Apply(d, MoveWrites(v, req, q, now)), Moved(v, FolderSlotOf(v, req), q, now);
      Rep(e, w) && Formatted(e) && Tree(w) && w.fat == v.fat
  {
    hide SlotOk, AsFat, AsTable, EncodeTable, EncodeFat, FirstFrom, FolderAt, MovedEntry, Reparented, Unlinked;
    hide Signature, Under, NewDepth;
    var s := FolderSlotOf(v, req);
    FolderSlot(v, s);
    DirCell(v, q);
    var k := Ent(v, s).cluster;
    var log := MoveLog(v.tabs[req.parent], s.index, req.parent, v.tabs[q], q, v.tabs[k], k, v.fat, now);
    var r := Slot(q, First(TargetTable(v, s, q), Dead));
    MovedIs(v, s, q, now);
    MovedKeepsTree(v, Moved(v, s, q, now), s, r, MovedEntry(v.tabs[k][0], k, now), k);
    MovedRep(d, v, s, q, now);
    ApplyFour(d, log[0], log[1], log[2], log[3]);
  }

  lemma MoveRelates(c: Disk, u: Vol, d: Disk, v: Vol, e: Disk, w: Vol, req: Request, q: nat)
    requires OnlyLooked(c, u, d, v) && req.parent in v.tabs && OneMoved(d, v, e, w, FolderSlotOf(v, req), q)
    ensures FolderSlotOf(v, req) == FolderSlotOf(u, req)
    ensures OneMoved(c, u, e, w, FolderSlotOf(u, req), q)
  {
    hide SameTree, OneMoved, SameFiles;
    SameKeys(u, v);
    SlotStays(u, v, req);
    LookThenMove(c, u, d, v, e, w, FolderSlotOf(v, req), q);
  }

  // A move into the folder itself leaves a disk that shows the tree without it.
  lemma {:induction false} InsideOutcome(d: Disk, v: Vol, req: Request, q: nat, now: Stamp)
    requires Rep(d, v) && Formatted(d) && MovesInside(v, req, q) && Finds(v, req) && TargetFits(v, req, q)
    ensures q in v.tabs && q < DISK_CLUSTERS
    ensures var s := FolderSlotOf(v, req);
      var e, w := Apply(d, MoveWrites(v, req, q, now)), Detached(v, s);
      && Rep(e, w) && Formatted(e) && Tree(w) && w.fat == v.fat && OneLost(d, v, e, w, s)
  {
    hide Tree, AsFat, AsTable, EncodeTable, EncodeFat, FirstFrom, First, FolderAt, FileAt, MovedEntry, Reparented;
    hide Unlinked, Signature, Under, Detached, Rep;
    var s := FolderSlotOf(v, req);
    var k := Ent(v, s).cluster;
    FolderSlot(v, s);
    DirCell(v, q);
    WholeMove(d, v, s, s.index, q, now);
    InsideShows(d, v, s, q, now, 4);
    DetachedFat(v, s);
    var a, b, c, x := MoveSteps(d, v, req, q, now);
    DetachedNames(d, Apply(d, MoveWrites(v, req, q, now)), v, s);
  }

  lemma LoseRelates(c: Disk, u: Vol, d: Disk, v: Vol, e: Disk, w: Vol, req: Request)
    requires OnlyLooked(c, u, d, v) && req.parent in v.tabs && OneLost(d, v, e, w, FolderSlotOf(v, req))
    ensures FolderSlotOf(v, req) == FolderSlotOf(u, req)
    ensures OneLost(c, u, e, w, FolderSlotOf(u, req))
  {
    hide SameTree, OneLost, SameFiles;
    SameKeys(u, v);
    SlotStays(u, v, req);
    LookThenLose(c, u, d, v, e, w, FolderSlotOf(v, req));
  }

  // The target is a directory that has a dead slot when the folder has left its old one.
  ghost predicate TargetFits(v: Vol, req: Request, q: nat) {
    req.parent in v.tabs && IsSlot(v, FolderSlotOf(v, req)) && Roomy(v, FolderSlotOf(v, req), q) && q < CLUSTER_MAP_SIZE
  }

  lemma TargetThere(v: Vol, req: Request, q: nat)
    requires TargetFits(v, req, q)
    ensures q in v.tabs && q < CLUSTER_MAP_SIZE
  {
    hide First;
  }

  // The second write of a move finds a dead slot, the one it has just cleared if need be.
  lemma DeadThere(v: Vol, req: Request, q: nat)
    requires Finds(v, req) && TargetFits(v, req, q)
    ensures var i := First(v.tabs[req.parent], Named(req.name));
      i < TABLE_SIZE && First(if q == req.parent then Unlinked(v.tabs[q], i) else v.tabs[q], Dead) < TABLE_SIZE
  {
    hide FirstFrom;
    NameThere(v, req);
    var i := First(v.tabs[req.parent], Named(req.name));
    assert Matches(Unlinked(v.tabs[req.parent], i)[i], Dead);
  }

  // Move a folder under directory `q`. Returns the code of the read when that fails. The first slot with
  // the name is cleared, whatever it is. If it is the folder, and the target is outside the folder and has
  // no other folder of that name, exactly one folder is moved; if the target is inside, the folder is lost
  // with all below it.
  method MoveDir(driver: Driver, req: Request, q: nat, buf: array<Entry>, now: Stamp) returns (code: int)
    requires driver.Intact() && buf.Length == TABLE_SIZE && Apart(driver, buf)
    requires Allowed(driver.Content(), driver.vol, Op.ReadFolder(req, now))
    requires Opens(driver.Content(), driver.vol, req, now) ==>
      TargetFits(AfterRead(driver.Content(), driver.vol, req, now), req, q)
    modifies driver`vol, driver.device, driver.device.image, driver.fatTable, driver.dirTableBuf, buf
    ensures code == old(Simulation.CallCode(driver.Content(), driver.vol, Op.ReadFolder(req, now)))
    ensures old(Tab(driver.Content(), req.parent)[0].attribute) != 0x10 ==> code == -1
    ensures code == 0 <==> old(Opens(driver.Content(), driver.vol, req, now))
    ensures code != 0 ==> driver.Intact() && (old(driver.Valid()) ==> driver.Valid())
    ensures code != 0 ==> driver.vol == old(AfterRead(driver.Content(), driver.vol, req, now))
    ensures code != 0 ==> OnlyLooked(old(driver.Content()), old(driver.vol), driver.Content(), driver.vol)
    ensures code != 0 ==>
      driver.device.log == old(driver.device.log) + old(StepLog(driver.Content(), driver.vol, Op.ReadFolder(req, now)))
    ensures code == 0 ==> Finds(old(AfterRead(driver.Content(), driver.vol, req, now)), req)
    ensures code == 0 ==> q in old(AfterRead(driver.Content(), driver.vol, req, now)).tabs && q < DISK_CLUSTERS
    ensures code == 0 ==>
      var writes := MoveWrites(old(AfterRead(driver.Content(), driver.vol, req, now)), req, q, now);
      && driver.Content() == Apply(old(DiskAfterRead(driver.Content(), driver.vol, req, now)), writes)
      && driver.device.log == old(driver.device.log)
           + old(StepLog(driver.Content(), driver.vol, Op.ReadFolder(req, now))) + writes
    ensures code == 0 && MayMove(old(AfterRead(driver.Content(), driver.vol, req, now)), req, q) ==>
      var v, s := old(AfterRead(driver.Content(), driver.vol, req, now)), FolderSlotOf(old(driver.vol), req);
      && driver.Intact() && FolderSlotOf(v, req) == s && driver.vol == Moved(v, s, q, now)
      && OneMoved(old(driver.Content()), old(driver.vol), driver.Content(), driver.vol, s, q)
    ensures code == 0 && MovesInside(old(AfterRead(driver.Content(), driver.vol, req, now)), req, q) ==>
      var v, s := old(AfterRead(driver.Content(), driver.vol, req, now)), FolderSlotOf(old(driver.vol), req);
      && driver.Intact() && FolderSlotOf(v, req) == s && driver.vol == Detached(v, s)
      && OneLost(old(driver.Content()), old(driver.vol), driver.Content(), driver.vol, s)
  {
    hide Inv, Rep, Formatted, AsFat, AsTable, StepVol, StepDisk, StepLog, First, OnlyLooked, FolderSlotOf;
    hide MoveWrites, Moved, FreeIn, OneMoved, OneLost, Detached, Under, Roomy, Tree;
    ghost var d0, v0 := driver.Content(), driver.vol;
    LookedFirst(d0, v0, req, now);
    var clusterNumber;
    code, clusterNumber := driver.ReadDirectory(req, buf, now);
    if code != 0 {
      return;
    }
    ghost var d, v := driver.Content(), driver.vol;
    FolderRange(d, v, req);
    TargetThere(v, req, q);
    MoveOnDisk(driver, req, q, clusterNumber, buf[..], now, v);
    if MayMove(v, req, q) {
      MoveOutcome(d, v, req, q, now);
      MoveNames(d, v, req, q, now);
      driver.vol := Moved(v, FolderSlotOf(v, req), q, now);
      MoveRelates(d0, v0, d, v, driver.Content(), driver.vol, req, q);
    } else if MovesInside(v, req, q) {
      InsideOutcome(d, v, req, q, now);
      driver.vol := Detached(v, FolderSlotOf(v, req));
      LoseRelates(d0, v0, d, v, driver.Content(), driver.vol, req);
    }
  }

  // Clear the first slot of a directory that carries the name.
  method ClearNamed(driver: Driver, p: ClusterNo, name: Name)
    requires driver.Shape() && First(Tab(driver.Content(), p), Named(name)) < TABLE_SIZE
    modifies driver.device, driver.device.image
    ensures var t := old(Tab(driver.Content(), p));
      var w := PutTable(p, Unlinked(t, First(t, Named(name))));
      driver.Content() == Put(old(driver.Content()), w) && driver.device.log == old(driver.device.log) + [w]
  {
    hide AsTable, First, FirstFrom, EncodeTable, Unlinked, Clusters;
    var dirTable := LoadOne(driver, p);
    var i := FindNamed(dirTable, name);
    driver.device.WriteCluster(p, EncodeTable(Unlinked(dirTable, i)));
  }

  // Put an entry into the first dead slot of a directory.
  method FillDead(driver: Driver, q: ClusterNo, e: Entry)
    requires driver.Shape() && First(Tab(driver.Content(), q), Dead) < TABLE_SIZE
    modifies driver.device, driver.device.image
    ensures var t := old(Tab(driver.Content(), q));
      var w := PutTable(q, t[First(t, Dead) := e]);
      driver.Content() == Put(old(driver.Content()), w) && driver.device.log == old(driver.device.log) + [w]
  {
    hide AsTable, First, FirstFrom, EncodeTable, Clusters;
    var dirTable := LoadOne(driver, q);
    var m := FindDead(dirTable);
    driver.device.WriteCluster(q, EncodeTable(dirTable[m := e]));
  }

  // The four writes of move_dir.
  method MoveOnDisk(driver: Driver, req: Request, q: nat, clusterNumber: nat, child: Table, now: Stamp, ghost v: Vol)
    requires driver.Shape() && Rep(driver.Content(), v) && Finds(v, req) && TargetFits(v, req, q)
    requires clusterNumber == Ent(v, FolderSlotOf(v, req)).cluster && child == v.tabs[clusterNumber]
    modifies driver.device, driver.device.image, driver.fatTable
    ensures driver.Content() == Apply(old(driver.Content()), MoveWrites(v, req, q, now))
    ensures driver.device.log == old(driver.device.log) + MoveWrites(v, req, q, now)
    ensures driver.fatTable[..] == v.fat
  {
    hide AsFat, AsTable, First, FirstFrom, EncodeTable, EncodeFat, MovedEntry, Reparented, Unlinked, MoveWrites;
    hide FolderSlotOf, Apply, Clusters, Put, PutTable, PutFat;
    ghost var d, log := driver.Content(), driver.device.log;
    NameThere(v, req);
    DeadThere(v, req, q);
    ghost var a, b, c, e := MoveSteps(d, v, req, q, now);
    ghost var i := First(v.tabs[req.parent], Named(req.name));
    TargetOnDisk(d, v, req, q, Unlinked(v.tabs[req.parent], i));
    driver.LoadFat();
    var newEntry := MovedEntry(child[0], clusterNumber, now);
    ClearNamed(driver, req.parent, req.name);
    assert driver.Content() == Put(d, a) && driver.device.log == log + [a];
    FillDead(driver, q, newEntry);
    assert driver.Content() == Put(Put(d, a), b) && driver.device.log == log + [a] + [b];
    driver.device.WriteCluster(clusterNumber, EncodeTable(Reparented(child, q)));
    driver.StoreFat();
    assert log + [a] + [b] + [c] + [e] == log + [a, b, c, e];
  }

  // The four writes one by one.
  lemma MoveSteps(d: Disk, v: Vol, req: Request, q: nat, now: Stamp)
    returns (a: ClusterWrite, b: ClusterWrite, c: ClusterWrite, e: ClusterWrite)
    requires Finds(v, req) && TargetFits(v, req, q) && q < DISK_CLUSTERS
    ensures var k, i := Ent(v, FolderSlotOf(v, req)).cluster, First(v.tabs[req.parent], Named(req.name));
      i < TABLE_SIZE &&
      var t := Unlinked(v.tabs[req.parent], i);
      var target := if q == req.parent then t else v.tabs[q];
      var m := First(target, Dead);
      && a == PutTable(req.parent, t)
      && m < TABLE_SIZE && b == PutTable(q, target[m := MovedEntry(v.tabs[k][0], k, now)])
      && c == ClusterWrite(k, EncodeTable(Reparented(v.tabs[k], q))) && e == PutFat(v.fat)
    ensures MoveWrites(v, req, q, now) == [a, b, c, e]
    ensures Apply(d, MoveWrites(v, req, q, now)) == Put(Put(Put(Put(d, a), b), c), e)
  {
    hide First, FirstFrom, EncodeTable, EncodeFat, MovedEntry, Reparented, Unlinked, FolderSlotOf, Apply;
    DeadThere(v, req, q);
    var writes := MoveWrites(v, req, q, now);
    a, b, c, e := writes[0], writes[1], writes[2], writes[3];
    ApplyFour(d, a, b, c, e);
  }

  /* When the calls leave a tree */

  lemma {:induction false} StillUnder(v: Vol, w: Vol, k: nat, c: nat)
    requires Tree(v) && Tree(w) && Looked(v, w) && c in v.tabs
    ensures c in w.tabs && (Under(w, k, c) <==> Under(v, k, c))
    decreases if c in v.depth then v.depth[c] else 0
  {
    hide SlotOk, DirOk;
    if c != k && c != ROOT_CLUSTER {
      ParentIsAbove(v, c);
      assert SameEntry(w.tabs[c][0], v.tabs[c][0]);
      StillUnder(v, w, k, Parent(v, c));
    }
  }

  // Nothing that the two calls find depends on time stamps.
  lemma OpenedSlot(d: Disk, v: Vol, req: Request, now: Stamp)
    requires Rep(d, v) && Tree(v) && Allowed(d, v, Op.ReadFolder(req, now)) && Opens(d, v, req, now)
    ensures var e, w, s := DiskAfterRead(d, v, req, now), AfterRead(d, v, req, now), FolderSlotOf(v, req);
      && Rep(e, w) && Tree(w) && Looked(v, w) && req.parent in v.tabs
      && FolderSlotOf(w, req) == s && s.dir == req.parent && IsFolder(v, s) && IsFolder(w, s)
      && Ent(v, s).name == req.name && Ent(w, s).name == req.name && Ent(w, s).cluster == Ent(v, s).cluster
      && First(w.tabs[req.parent], Named(req.name)) == First(v.tabs[req.parent], Named(req.name))
  {
    hide Tree, First, FirstFrom, StepDisk, StepVol, AsTable, AsFat, FileAt;
    LookedFirst(d, v, req, now);
    StepKeeps(d, v, Op.ReadFolder(req, now), FileName(0, ZERO_NAME, ZERO_EXT));
    var w, s := AfterRead(d, v, req, now), FolderSlotOf(v, req);
    SlotStays(v, w, req);
    SameTreeFinds(v, w, req.parent, Named(req.name));
    LiveSlot(v, s);
    LiveSlot(w, s);
    FolderSlot(v, s);
    FolderSlot(w, s);
  }

  // The disk that rename_dir leaves shows a tree exactly when the first slot with the old name was the
  // folder and no other folder had the new one.
  lemma RenameDirExact(d: Disk, v: Vol, req: Request, newName: Name, now: Stamp)
    requires Rep(d, v) && Tree(v) && Allowed(d, v, Op.ReadFolder(req, now)) && Opens(d, v, req, now)
    ensures var e, w, s := DiskAfterRead(d, v, req, now), AfterRead(d, v, req, now), FolderSlotOf(v, req);
      && Finds(w, req) && IsFolder(v, s)
      && (ShowsTree(Apply(e, RenameWrites(w, req, newName, now)))
          <==> First(v.tabs[req.parent], Named(req.name)) == s.index && NameFree(v, s, newName))
  {
    hide First, FirstFrom, StepDisk, StepVol, AsTable, AsFat, FolderSlotOf, FolderAt, Allowed, Opens, RenameLog;
    hide Apply, SameTree, Tree;
    OpenedSlot(d, v, req, now);
    var e, w, s := DiskAfterRead(d, v, req, now), AfterRead(d, v, req, now), FolderSlotOf(v, req);
    SameFolders(v, w, s.dir, newName);
    FolderRange(e, w, req);
    RenameExact(e, w, s, newName, now);
  }

  // The disk that move_dir leaves shows a tree exactly when the first slot with the name was the folder,
  // and the target was inside it or had no other folder of the name.
  lemma {:induction false} MoveDirExact(d: Disk, v: Vol, req: Request, q: nat, now: Stamp)
    requires Rep(d, v) && Tree(v) && Allowed(d, v, Op.ReadFolder(req, now)) && Opens(d, v, req, now)
    requires TargetFits(v, req, q)
    ensures var e, w, s := DiskAfterRead(d, v, req, now), AfterRead(d, v, req, now), FolderSlotOf(v, req);
      && Finds(w, req) && q in w.tabs && IsFolder(v, s)
      && (ShowsTree(Apply(e, MoveWrites(w, req, q, now)))
          <==> First(v.tabs[req.parent], Named(req.name)) == s.index
               && (Under(v, Ent(v, s).cluster, q) || FreeIn(v, s, q)))
  {
    hide First, FirstFrom, StepDisk, StepVol, AsTable, AsFat, FolderSlotOf, FolderAt, Allowed, Opens, MoveLog;
    hide Under, Apply, Tree;
    OpenedSlot(d, v, req, now);
    var e, w, s := DiskAfterRead(d, v, req, now), AfterRead(d, v, req, now), FolderSlotOf(v, req);
    SameFolders(v, w, q, Ent(v, s).name);
    SameTreeFinds(v, w, q, Dead);
    StillUnder(v, w, Ent(v, s).cluster, q);
    FolderRange(e, w, req);
    MoveExact(e, w, s, q, now);
  }

  // What the target's table is once the old parent has been stored.
  lemma TargetOnDisk(d: Disk, v: Vol, req: Request, q: nat, t: Table)
    requires req.parent < DISK_CLUSTERS && q < DISK_CLUSTERS
    ensures Tab(Put(d, PutTable(req.parent, t)), q) == if q == req.parent then t else Tab(d, q)
  {
    hide AsTable, EncodeTable;
    AsTableIs(EncodeTable(t), t);
  }
}
