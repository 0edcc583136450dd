// The driver refines two plain maps of names: every call is a step of the abstract file system
// below, with the return code the abstract file system asks for.
module Simulation {
  import opened Layout
  import opened Volume
  import opened Pruning
  import opened Disks
  import opened Operations
  import opened Writing
  import opened Deleting
  import opened Reading
  import opened Runs

  datatype FolderName = FolderName(dir: nat, name: Name)

  datatype Fs = Fs(ghost files: imap<FileName, seq<Byte>>, ghost folders: imap<FolderName, nat>)

  ghost predicate Empty(a: Fs, dir: nat) {
    && (forall f :: f in a.files ==> f.dir != dir)
    && (forall g :: g in a.folders ==> g.dir != dir)
  }

  // The number is that of no directory.
  ghost predicate NoDir(a: Fs, k: nat) {
    k != ROOT_CLUSTER && forall g :: g in a.folders ==> a.folders[g] != k
  }

  // A directory number that nothing uses yet; the root has its own.
  ghost predicate Unused(a: Fs, k: nat) {
    NoDir(a, k) && Empty(a, k)
  }

  function FileOf(req: Request): FileName {
    FileName(req.parent, req.name, req.ext)
  }

  function FolderOf(req: Request): FolderName {
    FolderName(req.parent, req.name)
  }

  // A folder answers to a name and the empty extension.
  ghost predicate FolderTakes(a: Fs, req: Request) {
    req.ext == ZERO_EXT && FolderOf(req) in a.folders
  }

  ghost predicate MayWriteFile(a: Fs, b: Fs, req: Request, buf: seq<Byte>, code: int) {
    if FileOf(req) in a.files || FolderTakes(a, req) then code == 1 && b == a
    else code == 0 && Holds(buf, Blocks(req.size)) && b == a.(files := a.files[FileOf(req) := Stored(buf, req.size)])
  }

  ghost predicate MayMakeFolder(a: Fs, b: Fs, req: Request, code: int) {
    if FolderOf(req) in a.folders then code == 1 && b == a
    else code == 0 && exists k :: Unused(a, k) && b == a.(folders := a.folders[FolderOf(req) := k])
  }

  ghost predicate MayRead(a: Fs, req: Request, code: int) {
    code ==
    if req.size < CLUSTER_SIZE then -1
    else if FileOf(req) in a.files then (if req.size < |a.files[FileOf(req)]| then 2 else 0)
    else if FolderOf(req) in a.folders then 1
    else 3
  }

  ghost predicate MayReadFolder(a: Fs, req: Request, code: int) {
    code ==
    if FolderTakes(a, req) then (if req.size >= CLUSTER_SIZE then 0 else 2)
    else if FileOf(req) in a.files then 1
    else 3
  }

  ghost predicate MayDelete(a: Fs, b: Fs, req: Request, code: int) {
    || (code == 1 && b == a && FileOf(req) !in a.files && !FolderTakes(a, req))
    || (code == 2 && b == a && FolderTakes(a, req) && !Empty(a, a.folders[FolderOf(req)]))
    || (code == 0 && FileOf(req) in a.files && b == a.(files := a.files - {FileOf(req)}))
    || (code == 0 && FolderTakes(a, req) && Empty(a, a.folders[FolderOf(req)])
        && b == a.(folders := a.folders - {FolderOf(req)}))
  }

  // A call that names no directory is refused: a write with 2, every other with -1.
  ghost predicate AbstractStep(a: Fs, b: Fs, op: Op, code: int) {
    if NoDir(a, op.req.parent) then b == a && code == if op.Write? then 2 else -1
    else MayStep(a, b, op, code)
  }

  ghost predicate MayStep(a: Fs, b: Fs, op: Op, code: int) {
    match op
    case Write(req, buf, _) => if req.size == 0 then MayMakeFolder(a, b, req, code)
      else MayWriteFile(a, b, req, buf, code)
    case Read(req, _) => b == a && MayRead(a, req, code)
    case ReadFolder(req, _) => b == a && MayReadFolder(a, req, code)
    case Delete(req) => MayDelete(a, b, req, code)
  }

  /* The abstract value of a disk */

  ghost function View(d: Disk, v: Vol): Fs
    requires Tree(v)
  {
    Fs(imap f: FileName | FileAt(d, v, f).Some? :: FileAt(d, v, f).value,
       imap g: FolderName | FolderAt(v, g.dir, g.name).Some? :: FolderAt(v, g.dir, g.name).value)
  }

  // The code of a call whose parent is a directory of the tree.
  function Code(v: Vol, op: Op): int
    requires op.req.parent in v.tabs
  {
    var t := v.tabs[op.req.parent];
    match op
    case Write(req, _, _) => WriteCode(t, req)
    case Read(req, _) => ReadCode(t, req)
    case ReadFolder(req, _) => ReadFolderCode(t, req)
    case Delete(req) => DeleteCode(v, req)
  }

  ghost function CallCode(d: Disk, v: Vol, op: Op): int
    requires Tree(v) && Allowed(d, v, op)
  {
    if !Refused(d, op) then Code(v, op) else if op.Write? then 2 else -1
  }

  lemma LiveIsNamed(d: Disk, v: Vol, c: nat)
    requires Tree(v) && c in v.tabs
    ensures HasLive(v.tabs[c]) <==> !Empty(View(d, v), c)
  {
    hide SlotOk, DirOk, First, FirstFrom;
    var t := v.tabs[c];
    if HasLive(t) {
      var i :| 1 <= i < TABLE_SIZE && Live(t[i]);
      if IsDir(t[i]) {
        assert Matches(t[i], Folder(t[i].name));
        assert FolderName(c, t[i].name) in View(d, v).folders;
      } else {
        assert Matches(t[i], FileKey(t[i].name, t[i].ext));
        FileSize(d, v, FileName(c, t[i].name, t[i].ext));
        assert FileName(c, t[i].name, t[i].ext) in View(d, v).files;
      }
    } else {
      forall f: FileName | f.dir == c
        ensures f !in View(d, v).files
      {
        NoLiveNoFind(t, FileKey(f.name, f.ext));
      }
      forall g: FolderName | g.dir == c
        ensures g !in View(d, v).folders
      {
        NoLiveNoFind(t, Folder(g.name));
      }
    }
  }

  // The folders of the abstract value are directories of the tree.
  lemma FolderIsDir(v: Vol, dir: nat, name: Name)
    requires Tree(v) && FolderAt(v, dir, name).Some?
    ensures FolderAt(v, dir, name).value in v.tabs
  {
    hide DirOk, First, FirstFrom, IsChain;
    var s := Slot(dir, First(v.tabs[dir], Folder(name)));
    assert Covered(v, s);
    assert SlotOk(v, s);
  }

  lemma WriteCodeExact(d: Disk, v: Vol, req: Request)
    requires Tree(v) && req.parent in v.tabs
    ensures var a := View(d, v);
      WriteCode(v.tabs[req.parent], req) ==
      if req.size == 0 then (if FolderOf(req) in a.folders then 1 else 0)
      else if FileOf(req) in a.files || FolderTakes(a, req) then 1 else 0
  {
    hide SlotOk, First, FirstFrom;
    assert DirOk(v, req.parent);
    FileSize(d, v, FileOf(req));
    FolderKeyNeedsNoExt(v, req.parent, req.name, req.ext);
    KeyIsEither(v.tabs[req.parent], req.name, req.ext);
  }

  lemma DirHeader(v: Vol, c: nat)
    requires Tree(v) && c in v.tabs
    ensures IsDir(v.tabs[c][0])
  {
    assert DirOk(v, c);
  }

  // The directories of the tree are the root and what the folders lead to.
  lemma DirIsNamed(d: Disk, v: Vol, c: nat)
    requires Tree(v)
    ensures c in v.tabs <==> !NoDir(View(d, v), c)
  {
    hide SlotOk, DirOk, FolderAt, FileAt;
    if c in v.tabs && c != ROOT_CLUSTER {
      OwnerSlot(v, c);
      var s := v.own[c];
      OnlyFolder(v, s.dir, s.index);
      assert FolderName(s.dir, Ent(v, s).name) in View(d, v).folders;
    }
    forall g | g in View(d, v).folders
      ensures View(d, v).folders[g] in v.tabs
    {
      FolderIsDir(v, g.dir, g.name);
    }
  }

  lemma RefusedIsNoDir(d: Disk, v: Vol, op: Op)
    requires Rep(d, v) && Tree(v) && Allowed(d, v, op)
    ensures Refused(d, op) <==> NoDir(View(d, v), op.req.parent)
  {
    hide Tree, View, NoDir, AsTable, AsFat, First, WriteCode;
    DirIsNamed(d, v, op.req.parent);
    if op.req.parent in v.tabs {
      DirHeader(v, op.req.parent);
    }
  }

  /* The simulation */

  lemma FileWriteSimulates(d: Disk, v: Vol, req: Request, buf: seq<Byte>, now: Stamp)
    requires Rep(d, v) && FileWritable(v, req) && Holds(buf, Blocks(req.size)) && req.parent < DISK_CLUSTERS
    ensures Tree(FileWritten(v, req, now)) && (Inv(v) ==> Inv(FileWritten(v, req, now)))
    ensures View(FileDisk(d, v.fat, v.tabs[req.parent], req, buf, now), FileWritten(v, req, now))
      == View(d, v).(files := View(d, v).files[FileOf(req) := Stored(buf, req.size)])
  {
    hide FileDisk, FileWritten, FileAt, FolderAt, Rep, WriteCode, HasRoom;
    var e, w := FileDisk(d, v.fat, v.tabs[req.parent], req, buf, now), FileWritten(v, req, now);
    FileWriteBinds(d, v, req, buf, now, FileOf(req));
    forall f: FileName
      ensures FileAt(e, w, f) == if f == FileOf(req) then Some(Stored(buf, req.size)) else FileAt(d, v, f)
      ensures FolderAt(w, f.dir, f.name) == FolderAt(v, f.dir, f.name)
    {
      FileWriteBinds(d, v, req, buf, now, f);
      FileWriteKeepsFolders(v, req, now, f.dir, f.name);
    }
    FoldersByFiles(v, w);
    assert View(e, w).files == View(d, v).files[FileOf(req) := Stored(buf, req.size)];
    assert View(e, w).folders == View(d, v).folders;
  }

  lemma FoldersByFiles(v: Vol, w: Vol)
    requires forall f: FileName :: FolderAt(w, f.dir, f.name) == FolderAt(v, f.dir, f.name)
    ensures forall g: FolderName :: FolderAt(w, g.dir, g.name) == FolderAt(v, g.dir, g.name)
  {
    forall g: FolderName
      ensures FolderAt(w, g.dir, g.name) == FolderAt(v, g.dir, g.name)
    {
      var f := FileName(g.dir, g.name, ZERO_EXT);
      assert FolderAt(w, f.dir, f.name) == FolderAt(v, f.dir, f.name);
    }
  }

  lemma FolderWriteSimulates(d: Disk, v: Vol, req: Request, now: Stamp)
    requires Rep(d, v) && FolderWritable(v, req) && req.parent < DISK_CLUSTERS
    ensures Tree(FolderMade(v, req, now)) && (Inv(v) ==> Inv(FolderMade(v, req, now)))
    ensures View(FolderDisk(d, v.fat, v.tabs[req.parent], req, now), FolderMade(v, req, now))
      == View(d, v).(folders := View(d, v).folders[FolderOf(req) := NewCluster(v.fat)])
  {
    hide FolderDisk, FolderMade, FileAt, FolderAt, Rep, WriteCode;
    var e, w := FolderDisk(d, v.fat, v.tabs[req.parent], req, now), FolderMade(v, req, now);
    FolderWriteBinds(d, v, req, now, FileOf(req));
    forall f: FileName
      ensures FileAt(e, w, f) == FileAt(d, v, f)
    {
      FolderWriteBinds(d, v, req, now, f);
    }
    forall g: FolderName
      ensures FolderAt(w, g.dir, g.name) == if g == FolderOf(req) then Some(NewCluster(v.fat))
        else FolderAt(v, g.dir, g.name)
    {
      FolderWriteBinds(d, v, req, now, FileName(g.dir, g.name, ZERO_EXT));
    }
    assert View(e, w).files == View(d, v).files;
    assert View(e, w).folders == View(d, v).folders[FolderOf(req) := NewCluster(v.fat)];
  }

  lemma NewClusterIsUnused(d: Disk, v: Vol, req: Request, now: Stamp)
    requires FolderWritable(v, req)
    ensures Unused(View(d, v), NewCluster(v.fat))
  {
    hide FolderMade, NewCluster, SlotOk, DirOk, First, FirstFrom;
    FolderMadeAdds(v, req, now);
    forall g: FolderName | g in View(d, v).folders
      ensures View(d, v).folders[g] != NewCluster(v.fat)
    {
      FolderIsDir(v, g.dir, g.name);
    }
  }

  lemma DeleteSimulates(d: Disk, v: Vol, req: Request)
    requires Rep(d, v) && Deletable(v, req) && req.parent < DISK_CLUSTERS && IsLeaf(v, TargetSlot(v, req))
    ensures Tree(Deleted(v, req))
    ensures var a, b := View(d, v), View(DeleteDisk(d, v, req), Deleted(v, req));
      b == if IsDir(Ent(v, TargetSlot(v, req))) then a.(folders := a.folders - {FolderOf(req)})
           else a.(files := a.files - {FileOf(req)})
  {
    hide DeleteDisk, Deleted, FileAt, FolderAt, Rep, Target;
    TargetIsLive(v, req);
    var e, w := DeleteDisk(d, v, req), Deleted(v, req);
    DeleteUnbinds(d, v, req, FileOf(req));
    var folder := IsDir(Ent(v, TargetSlot(v, req)));
    forall f: FileName
      ensures FileAt(e, w, f) == if !folder && f == FileOf(req) then None else FileAt(d, v, f)
    {
      DeleteUnbinds(d, v, req, f);
    }
    forall g: FolderName
      ensures FolderAt(w, g.dir, g.name) == if folder && g == FolderOf(req) then None else FolderAt(v, g.dir, g.name)
    {
      DeleteUnbinds(d, v, req, FileName(g.dir, g.name, ZERO_EXT));
    }
    var a, b := View(d, v), View(e, w);
    if folder {
      assert b.files == a.files;
      assert b.folders == a.folders - {FolderOf(req)};
    } else {
      assert b.files == a.files - {FileOf(req)};
      assert b.folders == a.folders;
    }
  }

  // The found entry of a delete is the name the caller sees.
  lemma TargetIsNamed(d: Disk, v: Vol, req: Request)
    requires Tree(v) && req.parent in v.tabs && Target(v.tabs[req.parent], req) < TABLE_SIZE
    ensures var e := v.tabs[req.parent][Target(v.tabs[req.parent], req)];
      if IsDir(e) then FolderTakes(View(d, v), req) && View(d, v).folders[FolderOf(req)] == e.cluster &&
        e.cluster in v.tabs
      else FileOf(req) in View(d, v).files
  {
    hide SlotOk, DirOk, FirstFrom;
    var t := v.tabs[req.parent];
    var i := Target(t, req);
    if IsDir(t[i]) {
      FoldersHaveNoExt(v, req.parent, i);
      FirstIs(t, FolderKey(req.name, ZERO_EXT), First(t, FolderKey(req.name, ZERO_EXT)));
      FolderIsFolderKey(v, req.parent, req.name);
      OnlyFolder(v, req.parent, i);
      FolderIsDir(v, req.parent, req.name);
    } else {
      FileSize(d, v, FileOf(req));
      assert Matches(t[i], FileKey(req.name, req.ext));
    }
  }

  lemma OnlyFolder(v: Vol, c: nat, i: nat)
    requires Tree(v) && c in v.tabs && 1 <= i < TABLE_SIZE && Live(v.tabs[c][i]) && IsDir(v.tabs[c][i])
    ensures FolderAt(v, c, v.tabs[c][i].name) == Some(v.tabs[c][i].cluster)
  {
    hide SlotOk, DirOk, FirstFrom;
    var t, name := v.tabs[c], v.tabs[c][i].name;
    assert Matches(t[i], Folder(name));
    var j := First(t, Folder(name));
    FoldersHaveNoExt(v, c, i);
    FoldersHaveNoExt(v, c, j);
    assert KeysOk(v, c);
  }

  lemma DeleteCodeSimulates(d: Disk, v: Vol, req: Request)
    requires Rep(d, v) && Tree(v) && req.parent in v.tabs && req.parent < DISK_CLUSTERS && FlagTells(v, req)
    ensures var code := DeleteCode(v, req);
      && (code != 0 ==> MayDelete(View(d, v), View(d, v), req, code))
      && (code == 0 ==> Tree(Deleted(v, req)) && MayDelete(View(d, v),
        View(DeleteDisk(d, v, req), Deleted(v, req)), req, 0))
  {
    hide View, SlotOk, First, FirstFrom, Deleted, DeleteDisk, FileAt, FolderAt;
    assert DirOk(v, req.parent);
    DeleteCodeNames(d, v, req);
    var t := v.tabs[req.parent];
    var i := Target(t, req);
    if i < TABLE_SIZE {
      TargetIsNamed(d, v, req);
      if IsDir(t[i]) {
        LiveIsNamed(d, v, t[i].cluster);
      }
      if DeleteCode(v, req) == 0 {
        DeleteSimulates(d, v, req);
      }
    }
  }

  lemma DeleteCodeNames(d: Disk, v: Vol, req: Request)
    requires Tree(v) && req.parent in v.tabs
    ensures DeleteCode(v, req) == 1 <==> FileOf(req) !in View(d, v).files && !FolderTakes(View(d, v), req)
  {
    hide SlotOk, DirOk, First, FirstFrom, Tree;
    DeleteCodeExact(d, v, req);
  }

  lemma {:induction false} VisitSimulates(d: Disk, v: Vol, s: Slot, now: Stamp)
    requires Rep(d, v) && Tree(v) && s in v.chains && IsSlot(v, s) && s.dir < DISK_CLUSTERS
    ensures Tree(Visited(v, s, now))
    ensures View(Apply(d, VisitLog(v, s, now)), Visited(v, s, now)) == View(d, v)
  {
    hide FileAt, FolderAt, Rep, VisitLog, Visited;
    var e, w := Apply(d, VisitLog(v, s, now)), Visited(v, s, now);
    VisitKeepsNames(d, v, s, now, FileName(0, ZERO_NAME, ZERO_EXT));
    forall f: FileName
      ensures FileAt(e, w, f) == FileAt(d, v, f) && FolderAt(w, f.dir, f.name) == FolderAt(v, f.dir, f.name)
    {
      VisitKeepsNames(d, v, s, now, f);
    }
    FoldersByFiles(v, w);
    assert View(e, w).files == View(d, v).files;
    assert View(e, w).folders == View(d, v).folders;
  }

  lemma ReadCodesSimulate(d: Disk, v: Vol, req: Request)
    requires Tree(v) && req.parent in v.tabs
    ensures MayRead(View(d, v), req, ReadCode(v.tabs[req.parent], req))
    ensures MayReadFolder(View(d, v), req, ReadFolderCode(v.tabs[req.parent], req))
  {
    hide SlotOk, DirOk, First, FirstFrom, Tree, ReadCode, ReadFolderCode;
    ReadCodeExact(d, v, req);
    ReadFolderCodeExact(d, v, req);
  }

  // Forward simulation: on the abstract values every allowed call is an abstract step with the same code.
  // Of the invariant that takes the tree and, for a delete, the flag of the folder that is found.
  lemma StepSimulates(d: Disk, v: Vol, op: Op)
    requires Rep(d, v) && Tree(v) && Allowed(d, v, op) && (op.Delete? ==> FlagTells(v, op.req))
    ensures Tree(StepVol(d, v, op))
    ensures AbstractStep(View(d, v), View(StepDisk(d, v, op), StepVol(d, v, op)), op, CallCode(d, v, op))
  {
    hide View, Tree, First, FirstFrom, NoDir, FileDisk, FolderDisk, DeleteDisk, FileWritten, FolderMade, Deleted;
    RefusedIsNoDir(d, v, op);
    if !Refused(d, op) {
      match op
      case Write(req, buf, now) =>
        WriteCodeExact(d, v, req);
        DirHeader(v, req.parent);
        if WriteCode(v.tabs[req.parent], req) == 0 {
          if req.size == 0 {
            FolderWriteSimulates(d, v, req, now);
            NewClusterIsUnused(d, v, req, now);
          } else {
            FileWriteSimulates(d, v, req, buf, now);
          }
        }
      case Delete(req) =>
        DeleteCodeSimulates(d, v, req);
      case _ =>
        ReadCodesSimulate(d, v, op.req);
        if Found(v, op) < TABLE_SIZE {
          FoundIsLive(v, op);
          VisitSimulates(d, v, Slot(op.req.parent, Found(v, op)), op.now);
        }
    }
  }

  /* Whole runs */

  // The codes of the calls of a run.
  ghost function Codes(d: Disk, v: Vol, ops: seq<Op>): (codes: seq<int>)
    requires Rep(d, v) && Inv(v) && AllowedRun(d, v, ops)
    decreases |ops|
  {
    if ops == [] then []
    else
      StepKeeps(d, v, ops[0], FileName(0, ZERO_NAME, ZERO_EXT));
      [CallCode(d, v, ops[0])] + Codes(StepDisk(d, v, ops[0]), StepVol(d, v, ops[0]), ops[1..])
  }

  // The abstract file system can go from `a` to `b` by these calls with these codes.
  ghost predicate AbstractRun(a: Fs, b: Fs, ops: seq<Op>, codes: seq<int>)
    decreases |ops|
  {
    if ops == [] then codes == [] && a == b
    else codes != [] && exists c :: AbstractStep(a, c, ops[0], codes[0]) && AbstractRun(c, b, ops[1..], codes[1..])
  }

  // Every run of the driver is a run of the abstract file system with the same codes.
  lemma {:induction false} RunSimulates(d: Disk, v: Vol, ops: seq<Op>)
    requires Rep(d, v) && Inv(v) && AllowedRun(d, v, ops)
    ensures var (e, w) := Run(d, v, ops);
      Inv(w) && AbstractRun(View(d, v), View(e, w), ops, Codes(d, v, ops))
    decreases |ops|
  {
    hide Rep, Inv, StepDisk, StepVol, View, AbstractStep, CallCode;
    InvTree(v);
    if ops != [] {
      var e, w := StepDisk(d, v, ops[0]), StepVol(d, v, ops[0]);
      StepKeeps(d, v, ops[0], FileName(0, ZERO_NAME, ZERO_EXT));
      FlagsTell(v, ops[0].req);
      StepSimulates(d, v, ops[0]);
      RunSimulates(e, w, ops[1..]);
      var codes := Codes(d, v, ops);
      assert codes[1..] == Codes(e, w, ops[1..]);
      InvTree(w);
      assert AbstractStep(View(d, v), View(e, w), ops[0], codes[0]);
    }
  }
}
