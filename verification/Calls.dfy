// The driver as its callers see it: what reading a folder, reading a file and deleting an entry do to
// the tree and to every file in it. The clock is arbitrary.
module Calls {
  import opened Layout
  import opened Volume
  import opened Pruning
  import opened Disks
  import opened Operations
  import opened Deleting
  import opened Reading
  import opened Runs
  import opened FatDriver
  import Simulation

  /* Trees up to time stamps */

  // Only time stamps differ: what reads leave behind.
  ghost predicate SameTree(v: Vol, w: Vol) {
    && w.tabs.Keys == v.tabs.Keys
    && forall c, j :: c in v.tabs && 0 <= j < TABLE_SIZE ==> SameEntry(w.tabs[c][j], v.tabs[c][j])
  }

  lemma SameTreeTrans(u: Vol, v: Vol, w: Vol)
    requires SameTree(u, v) && SameTree(v, w)
    ensures SameTree(u, w)
  {
  }

  lemma SameTreeFinds(v: Vol, w: Vol, c: nat, p: Pattern)
    requires SameTree(v, w) && c in v.tabs
    ensures First(w.tabs[c], p) == First(v.tabs[c], p)
  {
    SameMatches(v.tabs[c], w.tabs[c], p);
  }

  lemma SameKeys(v: Vol, w: Vol)
    requires SameTree(v, w)
    ensures w.tabs.Keys == v.tabs.Keys
  {
  }

  // Nothing but time stamps has changed.
  ghost predicate Looked(v: Vol, w: Vol) {
    w.fat == v.fat && w.depth == v.depth && w.chains == v.chains && w.own == v.own && SameTree(v, w)
  }

  ghost predicate SameFiles(d: Disk, v: Vol, e: Disk, w: Vol) {
    Tree(v) && Tree(w) && forall f :: FileAt(e, w, f) == FileAt(d, v, f)
  }

  ghost predicate StaysClean(v: Vol, w: Vol) {
    Inv(v) ==> Inv(w)
  }

  // The tree and the contents of every file are what they were; only time stamps have changed.
  ghost predicate OnlyLooked(d: Disk, v: Vol, e: Disk, w: Vol) {
    Looked(v, w) && SameFiles(d, v, e, w) && StaysClean(v, w)
  }

  lemma OnlyLookedTwice(c: Disk, u: Vol, d: Disk, v: Vol, e: Disk, w: Vol)
    requires OnlyLooked(c, u, d, v) && OnlyLooked(d, v, e, w)
    ensures OnlyLooked(c, u, e, w)
  {
    hide Tree, Inv, FileAt;
    SameTreeTrans(u, v, w);
    forall f: FileName
      ensures FileAt(e, w, f) == FileAt(c, u, f)
    {
      assert FileAt(d, v, f) == FileAt(c, u, f);
    }
  }

  lemma NothingLooked(d: Disk, v: Vol)
    requires Tree(v)
    ensures OnlyLooked(d, v, d, v)
  {
    hide Tree, Inv, FileAt;
  }

  // The file of slot `s`, if it is one, is gone, and every other is what it was.
  ghost predicate LostFile(d: Disk, v: Vol, e: Disk, w: Vol, s: Slot) {
    && Tree(v) && Tree(w) && IsSlot(v, s)
    && forall f :: FileAt(e, w, f) ==
         if !IsDir(Ent(v, s)) && f == FileName(s.dir, Ent(v, s).name, Ent(v, s).ext) then None else FileAt(d, v, f)
  }

  ghost predicate Apart(driver: Driver, a: object)
    reads driver, driver.device
  {
    a != driver.device.image && a != driver.fatTable && a != driver.dirTableBuf
  }

  lemma ReadStep(d: Disk, v: Vol, op: Op)
    requires Rep(d, v) && Tree(v) && op.req.parent in v.tabs && (op.Read? || op.ReadFolder?)
    ensures Allowed(d, v, op) && !Refused(d, op)
    ensures OnlyLooked(d, v, StepDisk(d, v, op), StepVol(d, v, op))
  {
    ReadAllowed(d, v, op);
    ReadLooks(d, v, op);
    hide AsTable, AsFat, StepDisk, StepVol, Inv, Tree, Looked, Rep, FileAt;
    forall f: FileName
      ensures Tree(StepVol(d, v, op)) && FileAt(StepDisk(d, v, op), StepVol(d, v, op), f) == FileAt(d, v, f)
    {
      StepKeeps(d, v, op, f);
    }
    StepKeeps(d, v, op, FileName(0, ZERO_NAME, ZERO_EXT));
  }

  lemma ReadAllowed(d: Disk, v: Vol, op: Op)
    requires Rep(d, v) && Tree(v) && op.req.parent in v.tabs && !op.Write?
    ensures Allowed(d, v, op) && !Refused(d, op)
  {
    hide SlotOk, AsTable, AsFat;
    assert DirOk(v, op.req.parent);
  }

  lemma ReadLooks(d: Disk, v: Vol, op: Op)
    requires Rep(d, v) && Tree(v) && op.req.parent in v.tabs && (op.Read? || op.ReadFolder?)
    requires Allowed(d, v, op) && !Refused(d, op)
    ensures Looked(v, StepVol(d, v, op))
  {
    hide SlotOk, DirOk, First, FirstFrom, AsTable, AsFat;
  }

  lemma DeleteStep(d: Disk, v: Vol, req: Request)
    requires Rep(d, v) && Tree(v) && req.parent in v.tabs
    ensures var op := Op.Delete(req);
      && Allowed(d, v, op) && !Refused(d, op)
      && (DeleteCode(v, req) != 0 ==> StepVol(d, v, op) == v && StepDisk(d, v, op) == d)
      && (DeleteCode(v, req) == 0 && IsLeaf(v, TargetSlot(v, req)) ==>
            && Removed(v, StepVol(d, v, op), TargetSlot(v, req))
            && LostFile(d, v, StepDisk(d, v, op), StepVol(d, v, op), TargetSlot(v, req)))
  {
    var op := Op.Delete(req);
    ReadAllowed(d, v, op);
    hide AsTable, AsFat, First, FirstFrom, SlotOk, DirOk, Emptied, FileAt, DeleteLog, Freed, Rep, IsLeaf,
      Pruned, FileGoes;
    hide FolderGoes, HangsFrom;
    if DeleteCode(v, req) == 0 && IsLeaf(v, TargetSlot(v, req)) {
      DeletedRemoves(v, req);
      TargetIsLive(v, req);
      forall f: FileName
        ensures Tree(Deleted(v, req))
        ensures FileAt(DeleteDisk(d, v, req), Deleted(v, req), f) ==
          if !IsDir(Ent(v, TargetSlot(v, req))) && f == FileName(req.parent, req.name, req.ext) then None
          else FileAt(d, v, f)
      {
        DeleteUnbinds(d, v, req, f);
      }
      DeleteUnbinds(d, v, req, FileName(0, ZERO_NAME, ZERO_EXT));
    }
  }

  /* The calls */

  method OpenFolder(driver: Driver, req: Request, buf: array<Entry>) returns (code: int, found: nat)
    requires driver.Intact() && Apart(driver, buf) && buf.Length == TABLE_SIZE
    requires req.parent in driver.vol.tabs && req.size >= CLUSTER_SIZE
    modifies driver`vol, driver.device, driver.device.image, driver.fatTable, driver.dirTableBuf, buf
    ensures driver.Intact()
    ensures OnlyLooked(old(driver.Content()), old(driver.vol), driver.Content(), driver.vol)
    ensures code == FolderCode(old(driver.vol).tabs[req.parent], req.name, req.ext)
    ensures code == 0 ==>
      var v := old(driver.vol);
      && found == v.tabs[req.parent][First(v.tabs[req.parent], FolderKey(req.name, req.ext))].cluster
      && found in driver.vol.tabs && buf[..] == driver.vol.tabs[found]
  {
    hide Inv, Tree, Rep, Formatted, AsFat, AsTable, First, FirstFrom, StepVol, StepDisk, StepLog, FolderAt, SameTree;
    hide SameFiles;
    ghost var v, d := driver.vol, driver.Content();
    var now: Stamp := *;
    ReadStep(d, v, Op.ReadFolder(req, now));
    FolderCodeIs(d, v, req, now);
    code, found := driver.ReadDirectory(req, buf, now);
    SameFolderSlot(v, driver.vol, req);
  }

  // What opening a folder in a directory returns: 0, 1 for a file, 3 for nothing.
  function FolderCode(t: Table, name: Name, ext: Ext): (code: int)
    ensures code == 0 <==> First(t, FolderKey(name, ext)) < TABLE_SIZE
  {
    if First(t, FolderKey(name, ext)) < TABLE_SIZE then 0
    else if First(t, Key(name, ext)) < TABLE_SIZE then 1
    else 3
  }

  lemma FolderCodeIs(d: Disk, v: Vol, req: Request, now: Stamp)
    requires Rep(d, v) && Tree(v) && req.parent in v.tabs && req.size >= CLUSTER_SIZE
    ensures Simulation.Code(v, Op.ReadFolder(req, now)) == FolderCode(v.tabs[req.parent], req.name, req.ext)
  {
    hide SlotOk, AsTable, AsFat, First, FirstFrom;
    assert DirOk(v, req.parent);
  }

  lemma SameFolderSlot(v: Vol, w: Vol, req: Request)
    requires SameTree(v, w) && req.parent in v.tabs
    ensures FolderSlotOf(w, req) == FolderSlotOf(v, req)
    ensures var s := FolderSlotOf(v, req); IsSlot(v, s) ==> IsSlot(w, s) && Ent(w, s).cluster == Ent(v, s).cluster
  {
    SameTreeFinds(v, w, req.parent, FolderKey(req.name, req.ext));
  }

  method ReadFile(driver: Driver, req: Request, out: array<Byte>) returns (code: int)
    requires driver.Intact() && Apart(driver, out) && req.parent in driver.vol.tabs
    requires ReadFits(driver.Content(), driver.vol, req, out.Length)
    modifies driver`vol, driver.device, driver.device.image, driver.fatTable, driver.dirTableBuf, out
    ensures driver.Intact()
    ensures OnlyLooked(old(driver.Content()), old(driver.vol), driver.Content(), driver.vol)
    ensures code == old(ReadCode(driver.vol.tabs[req.parent], req))
  {
    hide Inv, Tree, Rep, Formatted, AsFat, AsTable, First, FirstFrom, StepVol, StepDisk, StepLog, FileAt, SameTree;
    hide SameFiles, ReadCode;
    ghost var v, d := driver.vol, driver.Content();
    var now: Stamp := *;
    ReadStep(d, v, Op.Read(req, now));
    var found;
    code, found := driver.Read(req, out, now);
  }

  method DeleteEntry(driver: Driver, req: Request) returns (code: int)
    requires driver.Intact() && req.parent in driver.vol.tabs
    modifies driver`vol, driver.device, driver.device.image, driver.fatTable, driver.dirTableBuf
    ensures driver.Intact() && (old(driver.Valid()) ==> driver.Valid())
    ensures code == old(DeleteCode(driver.vol, req))
    ensures code != 0 ==> driver.vol == old(driver.vol) && driver.Content() == old(driver.Content())
    ensures code == 0 && old(IsLeaf(driver.vol, TargetSlot(driver.vol, req))) ==>
      && Removed(old(driver.vol), driver.vol, old(TargetSlot(driver.vol, req)))
      && LostFile(old(driver.Content()), old(driver.vol), driver.Content(), driver.vol,
        old(TargetSlot(driver.vol, req)))
  {
    hide Inv, Tree, Rep, Formatted, AsFat, AsTable, First, FirstFrom, StepVol, StepDisk, StepLog, FileAt, SameTree;
    hide DeleteCode, Removed, LostFile;
    DeleteStep(driver.Content(), driver.vol, req);
    code := driver.Delete(req);
  }
}
