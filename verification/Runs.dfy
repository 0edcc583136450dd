// Whole runs: any sequence of writes, reads and deletes on a formatted disk.
module Runs {
  import opened Layout
  import opened Volume
  import opened Pruning
  import opened Disks
  import opened Operations
  import opened Writing
  import opened Deleting
  import opened Reading

  datatype Op =
    | Write(req: Request, buf: seq<Byte>, now: Stamp)
    | Read(req: Request, now: Stamp)
    | ReadFolder(req: Request, now: Stamp)
    | Delete(req: Request)

  /* Formatting */

  const ROOT_NAME: Name := [114, 111, 111, 116, 0, 0, 0, 0]

  // A map with only the three reserved clusters in use.
  function EmptyFat(): (f: FatMap)
    ensures f[0] == CLUSTER_0_VALUE && f[1] == CLUSTER_1_VALUE && f[2] == END_OF_FILE
    ensures forall k :: 3 <= k < CLUSTER_MAP_SIZE ==> f[k] == 0
  {
    [CLUSTER_0_VALUE, CLUSTER_1_VALUE, END_OF_FILE] + seq(CLUSTER_MAP_SIZE - 3, _ => 0)
  }

  ghost function EmptyVol(now: Stamp): Vol {
    Vol(EmptyFat(), map[ROOT_CLUSTER := NewTable(ROOT_NAME, ROOT_CLUSTER, now)], map[ROOT_CLUSTER := 0], map[], map[])
  }

  lemma EmptyVolOk(now: Stamp)
    ensures Inv(EmptyVol(now)) && NoLeak(EmptyVol(now))
  {
    hide EmptyFat, NewTable;
    var v := EmptyVol(now);
    FreshIsEmpty(v.tabs[ROOT_CLUSTER], ROOT_NAME, ROOT_CLUSTER);
  }

  // What formatting writes: the signature block, the map and the root table.
  function FormatDisk(d: Disk, now: Stamp): Disk {
    var boot: Cluster := Signature() + d[0][BLOCK_SIZE..];
    Put(Put(d[0 := boot], PutFat(EmptyFat())), PutTable(ROOT_CLUSTER, NewTable(ROOT_NAME, ROOT_CLUSTER, now)))
  }

  lemma FormatRep(d: Disk, now: Stamp)
    ensures Formatted(FormatDisk(d, now)) && Rep(FormatDisk(d, now), EmptyVol(now))
  {
    hide AsTable, EncodeTable, AsFat, EncodeFat, EmptyFat, NewTable, Signature;
    var t := NewTable(ROOT_NAME, ROOT_CLUSTER, now);
    AsTableIs(EncodeTable(t), t);
    AsFatIs(EncodeFat(EmptyFat()), EmptyFat());
    assert FormatDisk(d, now)[0][..BLOCK_SIZE] == Signature();
  }

  /* Steps */

  // A request that names no directory is refused and changes nothing.
  ghost predicate Refused(d: Disk, op: Op) {
    op.req.parent < DISK_CLUSTERS && !IsDir(Tab(d, op.req.parent)[0])
  }

  // The contract of one call: the parent is a directory, or shows that it is none; and a write that
  // creates something finds room for it and a buffer that holds it.
  ghost predicate Allowed(d: Disk, v: Vol, op: Op) {
    || Refused(d, op)
    || (&& op.req.parent in v.tabs && op.req.parent < DISK_CLUSTERS
        && (op.Write? && WriteCode(v.tabs[op.req.parent], op.req) == 0 ==>
              HasRoom(v.fat, v.tabs[op.req.parent], op.req)
              && (op.req.size > 0 ==> Holds(op.buf, Blocks(op.req.size)))))
  }

  ghost function Found(v: Vol, op: Op): nat
    requires op.req.parent in v.tabs
  {
    var t := v.tabs[op.req.parent];
    if op.Read? && ReadCode(t, op.req) == 0 then First(t, FileKey(op.req.name, op.req.ext))
    else if op.ReadFolder? && ReadFolderCode(t, op.req) == 0 then First(t, FolderKey(op.req.name, op.req.ext))
    else TABLE_SIZE
  }

  // The cluster writes of a call, in order.
  ghost function StepLog(d: Disk, v: Vol, op: Op): seq<ClusterWrite>
    requires Tree(v) && Allowed(d, v, op)
  {
    if Refused(d, op) then []
    else
      var p := op.req.parent;
      var t := v.tabs[p];
      match op
      case Write(req, buf, now) =>
        if WriteCode(t, req) != 0 then []
        else if req.size == 0 then FolderLog(v.fat, t, req, now)
        else FileLog(v.fat, t, req, buf, now)
      case Delete(req) => if DeleteCode(v, req) != 0 then [] else DeleteLog(v, req)
      case _ =>
        if Found(v, op) == TABLE_SIZE then [] else VisitLog(v, Slot(p, Found(v, op)), op.now)
  }

  ghost function StepDisk(d: Disk, v: Vol, op: Op): Disk
    requires Tree(v) && Allowed(d, v, op)
  {
    if Refused(d, op) then d
    else
      var p := op.req.parent;
      var t := v.tabs[p];
      match op
      case Write(req, buf, now) =>
        if WriteCode(t, req) != 0 then d
        else if req.size == 0 then FolderDisk(d, v.fat, t, req, now)
        else FileDisk(d, v.fat, t, req, buf, now)
      case Delete(req) => if DeleteCode(v, req) != 0 then d else DeleteDisk(d, v, req)
      case _ =>
        if Found(v, op) == TABLE_SIZE then d else Apply(d, VisitLog(v, Slot(p, Found(v, op)), op.now))
  }

  lemma {:induction false} StepDiskIsApply(d: Disk, v: Vol, op: Op)
    requires Tree(v) && Allowed(d, v, op)
    ensures StepDisk(d, v, op) == Apply(d, StepLog(d, v, op))
  {
    hide Tree, First, FirstFrom, FolderLog, FileLog, DeleteLog, VisitLog;
  }

  ghost function StepVol(d: Disk, v: Vol, op: Op): Vol
    requires Tree(v) && Allowed(d, v, op)
  {
    if Refused(d, op) then v
    else
      var p := op.req.parent;
      var t := v.tabs[p];
      match op
      case Write(req, _, now) =>
        if WriteCode(t, req) != 0 then v
        else if req.size == 0 then FolderMade(v, req, now)
        else FileWritten(v, req, now)
      case Delete(req) => if DeleteCode(v, req) != 0 then v else Deleted(v, req)
      case _ => if Found(v, op) == TABLE_SIZE then v else Visited(v, Slot(p, Found(v, op)), op.now)
  }

  lemma FoundIsLive(v: Vol, op: Op)
    requires Tree(v) && op.req.parent in v.tabs && Found(v, op) < TABLE_SIZE
    ensures Slot(op.req.parent, Found(v, op)) in v.chains
  {
    hide SlotOk, DirOk;
    assert Covered(v, Slot(op.req.parent, Found(v, op)));
  }

  // The names an operation may change.
  predicate Concerns(op: Op, f: FileName) {
    (op.Write? || op.Delete?) && f == FileName(op.req.parent, op.req.name, op.req.ext)
  }

  // A delete that is let through although something hangs from what it finds.
  ghost predicate Orphans(d: Disk, v: Vol, op: Op) {
    && Tree(v) && op.Delete? && !Refused(d, op) && op.req.parent in v.tabs
    && DeleteCode(v, op.req) == 0 && !IsLeaf(v, TargetSlot(v, op.req))
  }

  // The directory hangs from the folder that an operation deletes.
  ghost predicate LosesDir(d: Disk, v: Vol, op: Op, c: nat) {
    Orphans(d, v, op) && HangsFrom(v, TargetSlot(v, op.req), c)
  }

  // Every allowed step keeps the tree and, if it holds, the invariant, and every file it does not
  // concern. Only a delete that orphans something leaks, and as long as the invariant holds there is none.
  lemma StepKeeps(d: Disk, v: Vol, op: Op, f: FileName)
    requires Rep(d, v) && Tree(v) && Allowed(d, v, op)
    ensures var e, w := StepDisk(d, v, op), StepVol(d, v, op);
      && Rep(e, w) && Tree(w) && (Inv(v) ==> Inv(w) && !Orphans(d, v, op))
      && (NoLeak(v) && !Orphans(d, v, op) ==> NoLeak(w))
      && (!Concerns(op, f) && !LosesDir(d, v, op, f.dir) ==> FileAt(e, w, f) == FileAt(d, v, f))
  {
    hide AsTable, FileAt, FolderAt, Tree, First, FirstFrom, NoLeak, FileDisk, FolderDisk, DeleteDisk, HangsFrom, IsLeaf;
    hide Pruned, DeleteCode;
    if !Refused(d, op) {
      match op
      case Write(req, buf, now) =>
        if WriteCode(v.tabs[req.parent], req) == 0 {
          if req.size == 0 {
            FolderMadeRep(d, v, req, now);
            FolderWriteBinds(d, v, req, now, f);
          } else {
            FileWrittenRep(d, v, req, buf, now);
            FileWriteBinds(d, v, req, buf, now, f);
            FileWriteKeepsFolders(v, req, now, f.dir, f.name);
          }
        }
      case Delete(req) =>
        if DeleteCode(v, req) == 0 {
          DeleteKeeps(d, v, req, f);
        }
      case _ =>
        if Found(v, op) < TABLE_SIZE {
          FoundIsLive(v, op);
          VisitKeepsNames(d, v, Slot(op.req.parent, Found(v, op)), op.now, f);
        }
    }
  }

  lemma DeleteKeeps(d: Disk, v: Vol, req: Request, f: FileName)
    requires Rep(d, v) && Deletable(v, req) && req.parent < DISK_CLUSTERS && !Refused(d, Op.Delete(req))
    ensures var e, w, op := DeleteDisk(d, v, req), Deleted(v, req), Op.Delete(req);
      && Rep(e, w) && Tree(w) && (Inv(v) ==> Inv(w) && !Orphans(d, v, op))
      && (NoLeak(v) && !Orphans(d, v, op) ==> NoLeak(w))
      && (!Concerns(op, f) && !LosesDir(d, v, op, f.dir) ==> FileAt(e, w, f) == FileAt(d, v, f))
  {
    hide AsTable, FileAt, FolderAt, Tree, First, FirstFrom, NoLeak, DeleteDisk, HangsFrom, IsLeaf, Pruned, DeleteCode;
    TargetIsLive(v, req);
    DeletedRep(d, v, req);
    DeleteUnbinds(d, v, req, f);
  }

  // No operation writes the boot cluster, so the signature stays and a remount does not reformat.
  lemma StepKeepsBoot(d: Disk, v: Vol, op: Op)
    requires Rep(d, v) && Tree(v) && Allowed(d, v, op)
    ensures StepDisk(d, v, op)[0] == d[0]
  {
    hide AsTable, EncodeTable, AsFat, EncodeFat, Tree, First, FirstFrom;
    if !Refused(d, op) {
      DirCell(v, op.req.parent);
      match op
      case Write(req, buf, now) =>
        if WriteCode(v.tabs[req.parent], req) == 0 {
          if req.size == 0 {
            FolderDiskIs(d, v, req, now);
          } else {
            FileWrittenData(d, v, req, buf, now);
          }
        }
      case Delete(req) =>
        if DeleteCode(v, req) == 0 {
          DeleteDiskIs(d, v, req);
        }
      case _ =>
        if Found(v, op) < TABLE_SIZE {
          VisitRep(d, v, Slot(op.req.parent, Found(v, op)), op.now);
        }
    }
  }

  /* Runs */

  ghost predicate AllowedRun(d: Disk, v: Vol, ops: seq<Op>)
    requires Rep(d, v) && Inv(v)
    decreases |ops|
  {
    ops == [] ||
    (Allowed(d, v, ops[0]) &&
     (var e, w := StepDisk(d, v, ops[0]), StepVol(d, v, ops[0]);
      StepKeeps(d, v, ops[0], FileName(0, ZERO_NAME, ZERO_EXT));
      AllowedRun(e, w, ops[1..])))
  }

  ghost function Run(d: Disk, v: Vol, ops: seq<Op>): (r: (Disk, Vol))
    requires Rep(d, v) && Inv(v) && AllowedRun(d, v, ops)
    ensures Rep(r.0, r.1) && Inv(r.1)
    decreases |ops|
  {
    if ops == [] then (d, v)
    else
      StepKeeps(d, v, ops[0], FileName(0, ZERO_NAME, ZERO_EXT));
      Run(StepDisk(d, v, ops[0]), StepVol(d, v, ops[0]), ops[1..])
  }

  // No run leaks a cluster or writes the boot cluster.
  lemma {:induction false} RunKeeps(d: Disk, v: Vol, ops: seq<Op>)
    requires Rep(d, v) && Inv(v) && AllowedRun(d, v, ops)
    ensures var (e, w) := Run(d, v, ops);
      e[0] == d[0] && (NoLeak(v) ==> NoLeak(w))
    decreases |ops|
  {
    hide Rep, Inv, StepDisk, StepVol, NoLeak;
    InvTree(v);
    if ops != [] {
      StepKeeps(d, v, ops[0], FileName(0, ZERO_NAME, ZERO_EXT));
      StepKeepsBoot(d, v, ops[0]);
      RunKeeps(StepDisk(d, v, ops[0]), StepVol(d, v, ops[0]), ops[1..]);
    }
  }

  // The runs that start by formatting a disk.
  ghost predicate FromFormat(d: Disk, now: Stamp, ops: seq<Op>) {
    FormatRep(d, now);
    EmptyVolOk(now);
    AllowedRun(FormatDisk(d, now), EmptyVol(now), ops)
  }

  ghost function Reached(d: Disk, now: Stamp, ops: seq<Op>): (Disk, Vol)
    requires FromFormat(d, now, ops)
  {
    FormatRep(d, now);
    EmptyVolOk(now);
    Run(FormatDisk(d, now), EmptyVol(now), ops)
  }

  // Every state of every run from a fresh format: the disk decodes to a tree that satisfies the
  // invariant, no cluster has leaked, and mounting it again does not reformat.
  lemma ReachableStates(d: Disk, now: Stamp, ops: seq<Op>)
    requires FromFormat(d, now, ops)
    ensures var (e, w) := Reached(d, now, ops);
      Rep(e, w) && Inv(w) && NoLeak(w) && Formatted(e)
  {
    hide Rep, Inv, NoLeak, FormatDisk, EmptyVol;
    FormatRep(d, now);
    EmptyVolOk(now);
    RunKeeps(FormatDisk(d, now), EmptyVol(now), ops);
  }

  // A name that is bound cannot be written again, so only a delete can change it: of the name itself, or of
  // a folder above it whose flag is wrong.
  lemma BoundStays(d: Disk, v: Vol, op: Op, f: FileName)
    requires Rep(d, v) && Tree(v) && Allowed(d, v, op) && FileAt(d, v, f).Some?
    requires !(op.Delete? && Concerns(op, f)) && !LosesDir(d, v, op, f.dir)
    ensures Tree(StepVol(d, v, op)) && FileAt(StepDisk(d, v, op), StepVol(d, v, op), f) == FileAt(d, v, f)
  {
    hide AsTable, Tree, FirstFrom, NoLeak, FileDisk, FolderDisk, DeleteDisk, FileWritten, FolderMade;
    StepKeeps(d, v, op, f);
    if Concerns(op, f) && !Refused(d, op) && WriteCode(v.tabs[op.req.parent], op.req) == 0 {
      if op.req.size == 0 {
        FolderWriteBinds(d, v, op.req, op.now, f);
      } else {
        FileSize(d, v, f);
        KeyIsEither(v.tabs[op.req.parent], f.name, f.ext);
      }
    }
  }

  // A file that is there reads back byte for byte after any run that does not delete its name.
  lemma {:induction false} FileSurvives(d: Disk, v: Vol, ops: seq<Op>, f: FileName)
    requires Rep(d, v) && Inv(v) && AllowedRun(d, v, ops) && FileAt(d, v, f).Some?
    requires forall i :: 0 <= i < |ops| ==> !(ops[i].Delete? && Concerns(ops[i], f))
    ensures var (e, w) := Run(d, v, ops); FileAt(e, w, f) == FileAt(d, v, f)
    decreases |ops|
  {
    hide Rep, Inv, StepDisk, StepVol, FileAt;
    InvTree(v);
    if ops != [] {
      StepKeeps(d, v, ops[0], f);
      BoundStays(d, v, ops[0], f);
      FileSurvives(StepDisk(d, v, ops[0]), StepVol(d, v, ops[0]), ops[1..], f);
    }
  }

  // What a successful write stored is what is read, however long the run that follows; up to 256
  // clusters it is what the caller passed.
  lemma {:induction false} WrittenReadsBack(d: Disk, v: Vol, req: Request, buf: seq<Byte>, now: Stamp, ops: seq<Op>)
    requires Rep(d, v) && Inv(v) && AllowedRun(d, v, [Op.Write(req, buf, now)] + ops)
    requires !Refused(d, Op.Write(req, buf, now)) && req.size > 0
    requires req.parent in v.tabs && WriteCode(v.tabs[req.parent], req) == 0
    requires forall i :: 0 <= i < |ops| ==>
      !(ops[i].Delete? && Concerns(ops[i], FileName(req.parent, req.name, req.ext)))
    ensures var (e, w) := Run(d, v, [Op.Write(req, buf, now)] + ops);
      && FileAt(e, w, FileName(req.parent, req.name, req.ext)) == Some(Stored(buf, req.size))
      && (Blocks(req.size) <= 256 ==> |buf| >= req.size && Stored(buf, req.size) == buf[..req.size])
  {
    hide FileDisk, FileAt, Tree, Rep, HasRoom, Blocks, Stored, FileWritten;
    var op, f := Op.Write(req, buf, now), FileName(req.parent, req.name, req.ext);
    assert ([op] + ops)[1..] == ops;
    StepKeeps(d, v, op, f);
    WriteAllowed(d, v, req, buf, now);
    FileWriteBinds(d, v, req, buf, now, f);
    FileSurvives(StepDisk(d, v, op), StepVol(d, v, op), ops, f);
    BlocksCover(req.size);
    StoredIsBuffer(req.size);
  }

  lemma BlocksCover(size: nat)
    ensures CLUSTER_SIZE * Blocks(size) >= size
  {
  }

  lemma WriteAllowed(d: Disk, v: Vol, req: Request, buf: seq<Byte>, now: Stamp)
    requires Rep(d, v) && Inv(v) && Allowed(d, v, Op.Write(req, buf, now)) && !Refused(d, Op.Write(req, buf, now))
    requires req.size > 0 && WriteCode(v.tabs[req.parent], req) == 0
    ensures FileWritable(v, req) && Holds(buf, Blocks(req.size)) && req.parent < DISK_CLUSTERS
  {
    hide Tree, FileDisk, AsTable, AsFat, First, FirstFrom, Blocks;
  }
}
