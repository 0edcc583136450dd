// Reachable states in which a power failure between two writes leaves no tree, or one that has lost a folder.
module CrashExamples {
  import opened Layout
  import opened Volume
  import opened Pruning
  import opened Disks
  import opened Shown
  import opened Operations
  import opened Writing
  import opened Runs
  import opened Crash
  import opened Renaming
  import opened Moving
  import opened MoveOutcomes
  import opened FatDriver
  import opened Calls
  import opened Relinking
  import opened Beginnings
  import opened Examples

  // The first folder on a fresh disk: after two of its three writes the disk shows no tree.
  lemma FolderHalfMade(d: Disk, name: Name, now: Stamp)
    ensures FromFormat(d, now, [])
    ensures var (x, v) := Reached(d, now, []);
      var req := FolderReq(name, ROOT_CLUSTER);
      && FolderWritable(v, req)
      && var log := FolderLog(v.fat, v.tabs[ROOT_CLUSTER], req, now);
      |log| == 3 && ShowsTree(Apply(x, log[..1])) && !ShowsTree(Apply(x, log[..2])) && ShowsTree(Apply(x, log[..3]))
  {
    hide FromFormat, Reached, FormatDisk, EmptyVol, First, Rep, Inv, Lists, TakenBelow, FolderLog, ShowsTree;
    Fresh(d, now);
    var x, v, req := FormatDisk(d, now), EmptyVol(now), FolderReq(name, ROOT_CLUSTER);
    ListsFinds(v.tabs[ROOT_CLUSTER], [], Folder(name), 0);
    FolderFits(v, req, [], 3);
    FolderWriteCrash(x, v, req, now, 1);
    FolderWriteCrash(x, v, req, now, 2);
    FolderWriteCrash(x, v, req, now, 3);
  }

  // Renaming the only folder: between the two writes the disk shows no tree.
  lemma RenameHalfWay(d: Disk, name: Name, newName: Name, now: Stamp)
    requires newName != name
    ensures FromFormat(d, now, [FolderCall(name, ROOT_CLUSTER, now)])
    ensures var (x, v) := Reached(d, now, [FolderCall(name, ROOT_CLUSTER, now)]);
      var req := LookReq(name, ROOT_CLUSTER);
      && Tree(v) && Allowed(x, v, Op.ReadFolder(req, now)) && Opens(x, v, req, now)
      && var e, w := DiskAfterRead(x, v, req, now), AfterRead(x, v, req, now);
      && Finds(w, req) && |RenameWrites(w, req, newName, now)| == 2
      && !ShowsTree(Apply(e, RenameWrites(w, req, newName, now)[..1]))
  {
    hide FromFormat, Reached, Allowed, Opens, AfterRead, DiskAfterRead, First, ShowsTree, Rep, Inv, Tree, Lists;
    hide TakenBelow, FormatDisk, EmptyVol, RenameLog, Apply;
    var call, req := FolderCall(name, ROOT_CLUSTER, now), LookReq(name, ROOT_CLUSTER);
    Fresh(d, now);
    ListsFinds(EmptyVol(now).tabs[ROOT_CLUSTER], [], Folder(name), 0);
    var x, v, f := AddedFolder(d, now, [], FormatDisk(d, now), EmptyVol(now), FolderReq(name, ROOT_CLUSTER), [], 3);
    assert [] + [call] == [call] && [] + [f] == [f];
    ListsFinds(v.tabs[ROOT_CLUSTER], [f], FolderKey(name, ZERO_EXT), 0);
    InvTree(v);
    CanOpen(x, v, req, now);
    OpenedSlot(x, v, req, now);
    var e, w := DiskAfterRead(x, v, req, now), AfterRead(x, v, req, now);
    FolderRange(e, w, req);
    RenameCrash(e, w, FolderSlotOf(w, req), newName, now);
  }

  // Moving the folder in the first folder into the second: after the first write the only tree has lost the
  // folder, and after the second the disk shows none.
  lemma MoveHalfWay(d: Disk, a: Name, b: Name, c: Name, now: Stamp)
    requires a != b
    ensures FromFormat(d, now, ThreeCalls(a, b, c, now))
    ensures var (x, v) := Reached(d, now, ThreeCalls(a, b, c, now));
      var req := LookReq(c, 3);
      && Tree(v) && Allowed(x, v, Op.ReadFolder(req, now)) && Opens(x, v, req, now) && 5 in v.tabs
      && var e, w := DiskAfterRead(x, v, req, now), AfterRead(x, v, req, now);
      && Finds(w, req) && 4 in w.tabs && |MoveWrites(w, req, 4, now)| == 4
      && ShowsTree(Apply(e, MoveWrites(w, req, 4, now)[..1])) && !ShowsTree(Apply(e, MoveWrites(w, req, 4, now)[..2]))
      && forall u :: Shows(Apply(e, MoveWrites(w, req, 4, now)[..1]), u) ==> 5 !in u.tabs
  {
    hide FromFormat, Reached, Allowed, Opens, AfterRead, DiskAfterRead, First, ShowsTree, Rep, Inv, Tree, Under;
    hide TakenBelow, Apply, ThreeFolders, MoveLog;
    var x, v := ThreeMade(d, a, b, c, now);
    var req := LookReq(c, 3);
    ThreeFacts(v, a, b, c);
    ThreeThere(v, a, b, c);
    CanOpen(x, v, req, now);
    OpenedSlot(x, v, req, now);
    var e, w := DiskAfterRead(x, v, req, now), AfterRead(x, v, req, now);
    FolderRange(e, w, req);
    SameTreeFinds(v, w, 4, Dead);
    UnderRoot(v, 5);
    UnderChild(v, 5, 4);
    StillUnder(v, w, 5, 4);
    TwoWrites(e, w, req, now);
  }

  lemma {:induction false} TwoWrites(e: Disk, w: Vol, req: Request, now: Stamp)
    requires Rep(e, w) && Finds(w, req) && req.parent == 3 && 4 in w.tabs && First(w.tabs[4], Dead) < TABLE_SIZE
    requires var s := FolderSlotOf(w, req);
      && s.dir == 3 && IsFolder(w, s) && Ent(w, s).cluster == 5 && Ent(w, s).name == req.name
      && First(w.tabs[3], Named(req.name)) == s.index && !Under(w, 5, 4)
    ensures |MoveWrites(w, req, 4, now)| == 4
    ensures ShowsTree(Apply(e, MoveWrites(w, req, 4, now)[..1]))
    ensures !ShowsTree(Apply(e, MoveWrites(w, req, 4, now)[..2]))
    ensures forall u :: Shows(Apply(e, MoveWrites(w, req, 4, now)[..1]), u) ==> 5 !in u.tabs
  {
    hide First, FirstFrom, Rep, Tree, Under, Apply, Detached;
    var s := FolderSlotOf(w, req);
    MoveCrash(e, w, s, 4, now, 1);
    MoveCrash(e, w, s, 4, now, 2);
    LiveSlot(w, s);
    UnderSelf(w, 5);
    DetachedIs(w, s);
    assert HangsFrom(w, s, 5);
    OnlyTree(Apply(e, MoveWrites(w, req, 4, now)[..1]), Detached(w, s));
  }
}
