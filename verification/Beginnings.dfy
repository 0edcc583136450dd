// File systems soon after a format: what the first calls leave in the tables and in the map.
module Beginnings {
  import opened Layout
  import opened Volume
  import opened Allocation
  import opened Disks
  import opened Operations
  import opened Writing
  import opened Runs

  /* Tables and maps of young file systems */

  // The table has these entries, from slot 1 on, and no others.
  ghost predicate Lists(t: Table, es: seq<Entry>) {
    && |es| < TABLE_SIZE - 1 && IsDir(t[0])
    && (forall j :: 0 <= j < |es| ==> t[j + 1] == es[j] && Live(es[j]))
    && (forall j :: |es| < j < TABLE_SIZE ==> t[j] == ZERO_ENTRY)
  }

  // Every cell from `m` on is free.
  ghost predicate FreeFrom(fat: FatMap, m: nat) {
    forall j :: m <= j < CLUSTER_MAP_SIZE ==> fat[j] == 0
  }

  lemma ListsFresh(t: Table, name: Name, parent: nat)
    requires FreshTable(t, name, parent)
    ensures Lists(t, [])
  {
  }

  lemma ListsDead(t: Table, es: seq<Entry>)
    requires Lists(t, es)
    ensures First(t, Dead) == |es| + 1
  {
    hide FirstFrom;
    forall j | 1 <= j < |es| + 1
      ensures !Matches(t[j], Dead)
    {
      assert t[(j - 1) + 1] == es[j - 1];
    }
    FirstIs(t, Dead, |es| + 1);
  }

  lemma ListsFilled(t: Table, es: seq<Entry>, e: Entry)
    requires Lists(t, es) && Live(e) && |es| < TABLE_SIZE - 2
    ensures Lists(Filled(t, |es| + 1, e), es + [e])
    ensures Filled(t, |es| + 1, e)[0].cluster == t[0].cluster
  {
  }

  // A search that only a live entry can end finds the first of the list that matches.
  lemma ListsFinds(t: Table, es: seq<Entry>, p: Pattern, i: nat)
    requires Lists(t, es) && !Matches(ZERO_ENTRY, p) && i <= |es|
    requires i < |es| ==> Matches(es[i], p)
    requires forall j :: 0 <= j < i ==> !Matches(es[j], p)
    ensures First(t, p) == if i < |es| then i + 1 else TABLE_SIZE
  {
    hide FirstFrom;
    forall j | 1 <= j < TABLE_SIZE && j < i + 1
      ensures !Matches(t[j], p)
    {
      assert t[(j - 1) + 1] == es[j - 1];
    }
    FirstIs(t, p, if i < |es| then i + 1 else TABLE_SIZE);
  }

  lemma {:induction false} FreeFromCount(fat: FatMap, m: nat, i: nat)
    requires FreeFrom(fat, m) && i <= CLUSTER_MAP_SIZE && m < CLUSTER_MAP_SIZE
    ensures FreeCount(fat, i) >= CLUSTER_MAP_SIZE - if i < m then m else i
    decreases CLUSTER_MAP_SIZE - i
  {
    if i < CLUSTER_MAP_SIZE {
      FreeFromCount(fat, m, i + 1);
    }
  }

  /* One call at a time */

  // The cells below `m` are taken, the others free.
  ghost predicate TakenBelow(fat: FatMap, m: nat) {
    3 <= m < CLUSTER_MAP_SIZE && FreeFrom(fat, m) && forall j :: 3 <= j < m ==> fat[j] != 0
  }

  lemma {:induction false} FirstFreeIs(fat: FatMap, m: nat)
    requires TakenBelow(fat, m)
    ensures FreeCount(fat, 3) >= CLUSTER_MAP_SIZE - m && FirstFree(fat) == m
  {
    hide FreeCount;
    FreeFromCount(fat, m, 3);
    assert fat[m] == 0;
  }

  // The volume in which a folder is made has room for it.
  lemma FolderFits(v: Vol, req: Request, es: seq<Entry>, m: nat)
    requires Inv(v) && req.parent in v.tabs && req.size == 0
    requires Lists(v.tabs[req.parent], es) && First(v.tabs[req.parent], Folder(req.name)) == TABLE_SIZE
    requires TakenBelow(v.fat, m)
    ensures FolderWritable(v, req) && NewSlot(v, req) == Slot(req.parent, |es| + 1) && NewCluster(v.fat) == m
  {
    hide Tree, First, FirstFrom, FreeCount, FirstFree;
    ListsDead(v.tabs[req.parent], es);
    FirstFreeIs(v.fat, m);
  }

  lemma FolderFacts(v: Vol, req: Request, es: seq<Entry>, m: nat, now: Stamp)
    requires FolderWritable(v, req) && NewSlot(v, req) == Slot(req.parent, |es| + 1) && NewCluster(v.fat) == m
    requires Lists(v.tabs[req.parent], es) && |es| < TABLE_SIZE - 2 && TakenBelow(v.fat, m) && m + 1 < CLUSTER_MAP_SIZE
    ensures var w, e := FolderMade(v, req, now), FolderEntry(req, m, now);
      && e.name == req.name && e.cluster == m && Live(e) && IsDir(e) && e.ext == ZERO_EXT
      && w.chains.Keys == v.chains.Keys + {Slot(req.parent, |es| + 1)} && m !in v.tabs
      && w.tabs.Keys == v.tabs.Keys + {m}
      && Lists(w.tabs[req.parent], es + [e]) && Lists(w.tabs[m], []) && Parent(w, m) == req.parent
      && (forall c :: c in v.tabs && c != req.parent ==> w.tabs[c] == v.tabs[c])
      && TakenBelow(w.fat, m + 1) && Parent(w, req.parent) == Parent(v, req.parent)
  {
    hide Tree, First, FirstFrom, FreeCount, FirstFree, Filled, Lists, Inv, WriteCode, HasRoom;
    var w, e := FolderMade(v, req, now), FolderEntry(req, m, now);
    FolderMadeAdds(v, req, now);
    ListsFilled(v.tabs[req.parent], es, e);
    ListsFresh(w.tabs[m], req.name, req.parent);
  }

  // The call that makes the folder.
  lemma FolderStep(d: Disk, v: Vol, req: Request, now: Stamp)
    requires Rep(d, v) && Inv(v) && FolderWritable(v, req)
    ensures var op, w := Op.Write(req, [], now), FolderMade(v, req, now);
      && Allowed(d, v, op) && !Refused(d, op) && StepVol(d, v, op) == w
      && Rep(StepDisk(d, v, op), w) && Inv(w)
  {
    hide SlotOk, DirOk, AsTable, AsFat, First, FirstFrom, FolderMade, FolderDisk, FolderLog, HasRoom;
    var op := Op.Write(req, [], now);
    StepKeeps(d, v, op, FileName(0, ZERO_NAME, ZERO_EXT));
  }

  // ... and that in which a file is written.
  lemma FileFits(v: Vol, req: Request, es: seq<Entry>, m: nat)
    requires Inv(v) && req.parent in v.tabs && 0 < Blocks(req.size) <= CLUSTER_MAP_SIZE - m
    requires Lists(v.tabs[req.parent], es) && First(v.tabs[req.parent], Key(req.name, req.ext)) == TABLE_SIZE
    requires TakenBelow(v.fat, m)
    ensures FileWritable(v, req) && NewSlot(v, req) == Slot(req.parent, |es| + 1)
  {
    hide Tree, First, FirstFrom, FirstFree, FreeCount;
    ListsDead(v.tabs[req.parent], es);
    FirstFreeIs(v.fat, m);
  }

  lemma FileFacts(v: Vol, req: Request, es: seq<Entry>, now: Stamp)
    requires FileWritable(v, req) && NewSlot(v, req) == Slot(req.parent, |es| + 1)
    requires Lists(v.tabs[req.parent], es) && |es| < TABLE_SIZE - 2
    ensures var w, e := FileWritten(v, req, now), NewFile(v, req, now);
      && e.name == req.name && e.ext == req.ext && Live(e) && !IsDir(e) && e.filesize == req.size && e.attribute == 0
      && Lists(w.tabs[req.parent], es + [e]) && w.tabs.Keys == v.tabs.Keys
      && w.chains.Keys == v.chains.Keys + {Slot(req.parent, |es| + 1)}
      && (forall c :: c in v.tabs && c != req.parent ==> w.tabs[c] == v.tabs[c])
  {
    hide Tree, First, FirstFrom, FreeCount, FirstFree, Filled, Lists, Inv, WriteCode, HasRoom, FileWritten;
    FileWrittenAdds(v, req, now);
    ListsFilled(v.tabs[req.parent], es, NewFile(v, req, now));
  }

  // One cluster is the first free one.
  lemma OneCluster(v: Vol, req: Request, m: nat, now: Stamp)
    requires FileWritable(v, req) && Blocks(req.size) == 1 && TakenBelow(v.fat, m) && m + 1 < CLUSTER_MAP_SIZE
    ensures TakenBelow(FileWritten(v, req, now).fat, m + 1)
  {
    hide Tree, First, FirstFrom, FreeCount, FirstFree, Filled, Inv, WriteCode, HasRoom, FileWritten;
    var w := FileWritten(v, req, now);
    FileWrittenAdds(v, req, now);
    SmallestOne(v.fat, m);
    assert FileChain(v.fat, req.size) == [m];
    assert Link(w.fat, [m], 0);
  }

  lemma {:induction false} SmallestOne(fat: FatMap, m: nat)
    requires TakenBelow(fat, m)
    ensures FreeCount(fat, 3) > 0 && Smallest(fat, 1, 3) == [m]
  {
    hide FreeCount;
    FirstFreeIs(fat, m);
    SmallestIsLeast(fat, 1, 3);
    var c := Smallest(fat, 1, 3)[0];
    assert fat[m] == 0;
    assert c == m;
  }

  lemma FileStep(d: Disk, v: Vol, req: Request, buf: seq<Byte>, now: Stamp)
    requires Rep(d, v) && Inv(v) && FileWritable(v, req) && Holds(buf, Blocks(req.size))
    ensures var op, w := Op.Write(req, buf, now), FileWritten(v, req, now);
      && Allowed(d, v, op) && !Refused(d, op) && StepVol(d, v, op) == w
      && Rep(StepDisk(d, v, op), w) && Inv(w)
  {
    hide SlotOk, DirOk, AsTable, AsFat, First, FirstFrom, FileWritten, FileDisk, FileLog, HasRoom, Blocks;
    var op := Op.Write(req, buf, now);
    StepKeeps(d, v, op, FileName(0, ZERO_NAME, ZERO_EXT));
  }

  /* Runs of a few calls */

  // A run of these calls on a fresh format of `d` ends with this disk and this tree.
  ghost predicate At(d: Disk, now: Stamp, ops: seq<Op>, b: Disk, v: Vol) {
    FromFormat(d, now, ops) && Reached(d, now, ops) == (b, v) && Rep(b, v) && Inv(v)
  }

  lemma {:induction false} RunAppend(d: Disk, v: Vol, ops: seq<Op>, op: Op)
    requires Rep(d, v) && Inv(v) && AllowedRun(d, v, ops)
    requires var (b, w) := Run(d, v, ops); Allowed(b, w, op)
    ensures AllowedRun(d, v, ops + [op])
    ensures var (b, w) := Run(d, v, ops); Inv(w) && Run(d, v, ops + [op]) == (StepDisk(b, w, op), StepVol(b, w, op))
    decreases |ops|
  {
    hide Rep, Inv, StepDisk, StepVol, Allowed;
    InvTree(v);
    InvTree(Run(d, v, ops).1);
    if ops == [] {
      assert [] + [op] == [op] && [op][1..] == [];
      StepKeeps(d, v, op, FileName(0, ZERO_NAME, ZERO_EXT));
    } else {
      StepKeeps(d, v, ops[0], FileName(0, ZERO_NAME, ZERO_EXT));
      RunAppend(StepDisk(d, v, ops[0]), StepVol(d, v, ops[0]), ops[1..], op);
      assert (ops + [op])[0] == ops[0] && (ops + [op])[1..] == ops[1..] + [op];
    }
  }

  lemma AtNext(d: Disk, now: Stamp, ops: seq<Op>, b: Disk, v: Vol, op: Op)
    requires At(d, now, ops, b, v) && Allowed(b, v, op)
    ensures Tree(v) && At(d, now, ops + [op], StepDisk(b, v, op), StepVol(b, v, op))
  {
    hide Rep, Inv, StepDisk, StepVol, Allowed, AllowedRun, Run, FormatDisk, EmptyVol;
    InvTree(v);
    FormatRep(d, now);
    EmptyVolOk(now);
    RunAppend(FormatDisk(d, now), EmptyVol(now), ops, op);
    StepKeeps(b, v, op, FileName(0, ZERO_NAME, ZERO_EXT));
  }

  lemma Fresh(d: Disk, now: Stamp)
    ensures var b, v := FormatDisk(d, now), EmptyVol(now);
      && At(d, now, [], b, v) && Lists(v.tabs[ROOT_CLUSTER], []) && TakenBelow(v.fat, 3)
      && v.tabs.Keys == {ROOT_CLUSTER} && v.chains.Keys == {}
  {
    hide EmptyFat, NewTable, FormatDisk, Inv, Rep;
    FormatRep(d, now);
    EmptyVolOk(now);
    ListsFresh(EmptyVol(now).tabs[ROOT_CLUSTER], ROOT_NAME, ROOT_CLUSTER);
  }

  // One folder more.
  lemma AddedFolder(d: Disk, now: Stamp, ops: seq<Op>, b: Disk, v: Vol, req: Request, es: seq<Entry>, m: nat)
    returns (c: Disk, w: Vol, e: Entry)
    requires At(d, now, ops, b, v) && req.parent in v.tabs && req.size == 0
    requires Lists(v.tabs[req.parent], es) && First(v.tabs[req.parent], Folder(req.name)) == TABLE_SIZE
    requires |es| < TABLE_SIZE - 2 && TakenBelow(v.fat, m) && m + 1 < CLUSTER_MAP_SIZE
    ensures At(d, now, ops + [Op.Write(req, [], now)], c, w)
    ensures e.name == req.name && e.cluster == m && Live(e) && IsDir(e) && e.ext == ZERO_EXT
    ensures w.chains.Keys == v.chains.Keys + {Slot(req.parent, |es| + 1)}
    ensures m !in v.tabs && w.tabs.Keys == v.tabs.Keys + {m}
    ensures Lists(w.tabs[req.parent], es + [e]) && Lists(w.tabs[m], [])
    ensures Parent(w, m) == req.parent && Parent(w, req.parent) == Parent(v, req.parent)
    ensures forall k :: k in v.tabs && k != req.parent ==> w.tabs[k] == v.tabs[k]
    ensures TakenBelow(w.fat, m + 1)
  {
    hide Inv, Rep, Allowed, StepVol, StepDisk, FolderWritable, First, FolderEntry, FolderMade, Lists, TakenBelow;
    hide FromFormat, Reached;
    FolderFits(v, req, es, m);
    FolderFacts(v, req, es, m, now);
    FolderStep(b, v, req, now);
    AtNext(d, now, ops, b, v, Op.Write(req, [], now));
    c, w, e := StepDisk(b, v, Op.Write(req, [], now)), FolderMade(v, req, now), FolderEntry(req, m, now);
  }

  // One file more.
  lemma AddedFile(d: Disk, now: Stamp, ops: seq<Op>, b: Disk, v: Vol, req: Request, buf: seq<Byte>,
      es: seq<Entry>, m: nat)
    returns (c: Disk, w: Vol, e: Entry)
    requires At(d, now, ops, b, v) && req.parent in v.tabs && Holds(buf, Blocks(req.size))
    requires 0 < Blocks(req.size) <= CLUSTER_MAP_SIZE - m
    requires Lists(v.tabs[req.parent], es) && First(v.tabs[req.parent], Key(req.name, req.ext)) == TABLE_SIZE
    requires |es| < TABLE_SIZE - 2 && TakenBelow(v.fat, m)
    ensures At(d, now, ops + [Op.Write(req, buf, now)], c, w)
    ensures FileWritable(v, req) && w == FileWritten(v, req, now)
    ensures e.name == req.name && e.ext == req.ext && Live(e) && !IsDir(e) && e.filesize == req.size && e.attribute == 0
    ensures w.chains.Keys == v.chains.Keys + {Slot(req.parent, |es| + 1)} && w.tabs.Keys == v.tabs.Keys
    ensures Lists(w.tabs[req.parent], es + [e])
    ensures forall k :: k in v.tabs && k != req.parent ==> w.tabs[k] == v.tabs[k]
    ensures Blocks(req.size) == 1 && m + 1 < CLUSTER_MAP_SIZE ==> TakenBelow(w.fat, m + 1)
  {
    hide Inv, Rep, Tree, Allowed, StepVol, StepDisk, HasRoom, WriteCode, First, NewFile, FileWritten, Lists,
      TakenBelow, Blocks;
    hide FromFormat, Reached;
    FileFits(v, req, es, m);
    FileFacts(v, req, es, now);
    FileStep(b, v, req, buf, now);
    AtNext(d, now, ops, b, v, Op.Write(req, buf, now));
    if Blocks(req.size) == 1 && m + 1 < CLUSTER_MAP_SIZE {
      OneCluster(v, req, m, now);
    }
    c, w, e := StepDisk(b, v, Op.Write(req, buf, now)), FileWritten(v, req, now), NewFile(v, req, now);
  }

  function FolderReq(name: Name, parent: U32): Request {
    Request(name, ZERO_EXT, parent, 0)
  }

  function FolderCall(name: Name, parent: U32, now: Stamp): Op {
    Op.Write(FolderReq(name, parent), [], now)
  }
}
