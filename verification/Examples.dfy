// Reachable states in which storing, undoing, renaming, moving and deleting go wrong.
module Examples {
  import opened Layout
  import opened Volume
  import opened Pruning
  import opened Disks
  import opened Shown
  import opened Operations
  import opened Writing
  import opened Deleting
  import opened Runs
  import opened Undo
  import opened Renaming
  import opened Moving
  import opened MoveOutcomes
  import opened FatDriver
  import opened Calls
  import opened Relinking
  import opened Histories
  import opened Beginnings

  /* A file of 257 clusters */

  // A write that the driver takes on a fresh disk, and that does not store what it was given.
  lemma WrapFails(d: Disk, name: Name, now: Stamp) returns (buf: seq<Byte>)
    ensures var req := Request(name, ZERO_EXT, ROOT_CLUSTER, 257 * CLUSTER_SIZE);
      var op := Op.Write(req, buf, now);
      && |buf| >= req.size && FromFormat(d, now, [op]) && WriteCode(EmptyVol(now).tabs[ROOT_CLUSTER], req) == 0
      && var (b, v) := Reached(d, now, [op]);
      && Tree(v) && FileAt(b, v, FileName(ROOT_CLUSTER, name, ZERO_EXT)).Some?
      && FileAt(b, v, FileName(ROOT_CLUSTER, name, ZERO_EXT)).value != buf[..req.size]
  {
    hide FormatDisk, FileWritten, Lists, FileAt, Stored, Rep, Inv, Tree, Blocks, NewTable, EmptyFat, Allowed, HasRoom;
    var size := 257 * CLUSTER_SIZE;
    assert Blocks(size) == 257 by { Blocks257(); }
    var req := Request(name, ZERO_EXT, ROOT_CLUSTER, size);
    WrapCounterexample(size);
    buf :| |buf| >= CLUSTER_SIZE * Blocks(size) && Stored(buf, size) != buf[..size];
    Fresh(d, now);
    var x, v := FormatDisk(d, now), EmptyVol(now);
    ListsFinds(v.tabs[ROOT_CLUSTER], [], Key(name, ZERO_EXT), 0);
    var c, w, e := AddedFile(d, now, [], x, v, req, buf, [], 3);
    assert [] + [Op.Write(req, buf, now)] == [Op.Write(req, buf, now)];
    InvTree(w);
    StoredHere(d, x, v, req, buf, now);
  }

  lemma Blocks257()
    ensures Blocks(257 * CLUSTER_SIZE) == 257
  {
  }

  lemma StoredHere(d: Disk, x: Disk, v: Vol, req: Request, buf: seq<Byte>, now: Stamp)
    requires At(d, now, [], x, v) && FileWritable(v, req) && Holds(buf, Blocks(req.size))
    ensures FromFormat(d, now, [Op.Write(req, buf, now)])
    ensures var (b, w) := Reached(d, now, [Op.Write(req, buf, now)]);
      Tree(w) && FileAt(b, w, FileName(req.parent, req.name, req.ext)) == Some(Stored(buf, req.size))
  {
    hide FormatDisk, EmptyVol, FileWritten, FileAt, Stored, Rep, Inv, Tree, Blocks, FileDisk, HasRoom,
      StepVol, StepDisk;
    hide FromFormat, Reached, WriteCode, Holds;
    InvTree(v);
    FileStep(x, v, req, buf, now);
    AtNext(d, now, [], x, v, Op.Write(req, buf, now));
    assert [] + [Op.Write(req, buf, now)] == [Op.Write(req, buf, now)];
    FileStored(x, v, req, buf, now);
  }

  lemma FileStored(x: Disk, v: Vol, req: Request, buf: seq<Byte>, now: Stamp)
    requires Rep(x, v) && FileWritable(v, req) && Holds(buf, Blocks(req.size))
    requires Allowed(x, v, Op.Write(req, buf, now)) && !Refused(x, Op.Write(req, buf, now))
    ensures var b, w := StepDisk(x, v, Op.Write(req, buf, now)), StepVol(x, v, Op.Write(req, buf, now));
      Tree(w) && FileAt(b, w, FileName(req.parent, req.name, req.ext)) == Some(Stored(buf, req.size))
  {
    hide FileWritten, FileAt, Stored, Tree, Blocks, FileDisk, HasRoom, AsTable, AsFat;
    FileWriteBinds(x, v, req, buf, now, FileName(req.parent, req.name, req.ext));
  }

  /* A file, and then a folder of its name */

  function FileReq(name: Name): Request {
    Request(name, ZERO_EXT, ROOT_CLUSTER, 1)
  }

  // A file without extension.
  function FileCall(name: Name, buf: Cluster, now: Stamp): Op {
    Op.Write(FileReq(name), buf, now)
  }

  lemma FileAlone(d: Disk, name: Name, buf: Cluster, now: Stamp) returns (b: Disk, v: Vol, e: Entry)
    ensures At(d, now, [FileCall(name, buf, now)], b, v)
    ensures Lists(v.tabs[ROOT_CLUSTER], [e]) && e.name == name && e.ext == ZERO_EXT && Live(e) && !IsDir(e)
    ensures v.tabs.Keys == {ROOT_CLUSTER} && TakenBelow(v.fat, 4)
    ensures e.filesize == FileReq(name).size
  {
    hide FormatDisk, EmptyVol, Rep, Inv, Lists, TakenBelow, FromFormat, Reached, FileWritten;
    Fresh(d, now);
    ListsFinds(EmptyVol(now).tabs[ROOT_CLUSTER], [], Key(name, ZERO_EXT), 0);
    b, v, e := AddedFile(d, now, [], FormatDisk(d, now), EmptyVol(now), FileReq(name), buf, [], 3);
    assert [] + [FileCall(name, buf, now)] == [FileCall(name, buf, now)] && [] + [e] == [e];
  }

  // A folder that is made after a file of its name is not undone by a delete: the file goes instead.
  lemma UndoFails(d: Disk, name: Name, buf: Cluster, now: Stamp)
    ensures FromFormat(d, now, [FileCall(name, buf, now)])
    ensures var v, req := Reached(d, now, [FileCall(name, buf, now)]).1, FolderReq(name, ROOT_CLUSTER);
      && FolderWritable(v, req) && Deletable(FolderMade(v, req, now), req)
      && Deleted(FolderMade(v, req, now), req) != v
  {
    hide FromFormat, Reached, FolderMade, Deleted, Deletable, First, Inv, Tree, WriteCode, HasRoom;
    var b, v, e := FileAlone(d, name, buf, now);
    var t := v.tabs[ROOT_CLUSTER];
    ListsFinds(t, [e], Folder(name), 1);
    ListsFinds(t, [e], Key(name, ZERO_EXT), 0);
    FolderFits(v, FolderReq(name, ROOT_CLUSTER), [e], 4);
    FolderUndo(v, FolderReq(name, ROOT_CLUSTER), now, FolderReq(name, ROOT_CLUSTER));
  }

  /* Renaming and moving that folder */

  function TwoCalls(name: Name, buf: Cluster, now: Stamp): seq<Op> {
    [FileCall(name, buf, now)] + [FolderCall(name, ROOT_CLUSTER, now)]
  }

  // The folder stands in slot 2 of the root, behind the file in slot 1.
  lemma FileThenFolder(d: Disk, name: Name, buf: Cluster, now: Stamp) returns (b: Disk, v: Vol, e: Entry, f: Entry)
    ensures At(d, now, TwoCalls(name, buf, now), b, v) && ROOT_CLUSTER in v.tabs
    ensures Lists(v.tabs[ROOT_CLUSTER], [e, f]) && e.name == name && !IsDir(e)
    ensures f.name == name && f.ext == ZERO_EXT && IsDir(f) && Live(f)
    ensures e.ext == ZERO_EXT && Live(e) && f.cluster == 4 && 4 in v.tabs && Lists(v.tabs[4], [])
  {
    hide Rep, Inv, Lists, TakenBelow, FromFormat, Reached;
    var x, w;
    x, w, e := FileAlone(d, name, buf, now);
    ListsFinds(w.tabs[ROOT_CLUSTER], [e], Folder(name), 1);
    b, v, f := AddedFolder(d, now, [FileCall(name, buf, now)], x, w, FolderReq(name, ROOT_CLUSTER), [e], 4);
    assert [e] + [f] == [e, f];
  }

  // Reading a folder, to rename or to move it.
  function LookReq(name: Name, parent: U32): Request {
    Request(name, ZERO_EXT, parent, CLUSTER_SIZE)
  }

  lemma CanOpen(b: Disk, v: Vol, req: Request, now: Stamp)
    requires Rep(b, v) && Tree(v) && req.parent in v.tabs && req.size == CLUSTER_SIZE
    requires First(v.tabs[req.parent], FolderKey(req.name, req.ext)) < TABLE_SIZE
    ensures Allowed(b, v, Op.ReadFolder(req, now)) && Opens(b, v, req, now)
  {
    hide SlotOk, AsTable, AsFat, First, FirstFrom;
    assert DirOk(v, req.parent);
  }

  // Renaming the folder replaces the file, and the disk shows no tree any more.
  lemma RenameFails(d: Disk, name: Name, newName: Name, buf: Cluster, now: Stamp)
    ensures FromFormat(d, now, TwoCalls(name, buf, now))
    ensures var (b, v) := Reached(d, now, TwoCalls(name, buf, now));
      var req := LookReq(name, ROOT_CLUSTER);
      && Tree(v) && Allowed(b, v, Op.ReadFolder(req, now)) && Opens(b, v, req, now)
      && var e, w := DiskAfterRead(b, v, req, now), AfterRead(b, v, req, now);
      Finds(w, req) && !ShowsTree(Apply(e, RenameWrites(w, req, newName, now)))
  {
    hide FromFormat, Reached, Allowed, Opens, RenameWrites, AfterRead, DiskAfterRead, NameFree, First, ShowsTree, Rep;
    hide Inv, Tree;
    var b, v, e, f := FileThenFolder(d, name, buf, now);
    BehindFile(v, name, e, f);
    InvTree(v);
    CanOpen(b, v, LookReq(name, ROOT_CLUSTER), now);
    RenameDirExact(b, v, LookReq(name, ROOT_CLUSTER), newName, now);
  }

  lemma BehindFile(v: Vol, name: Name, e: Entry, f: Entry)
    requires ROOT_CLUSTER in v.tabs && Lists(v.tabs[ROOT_CLUSTER], [e, f]) && e.name == name && !IsDir(e)
    requires f.name == name && f.ext == ZERO_EXT && IsDir(f) && Live(f)
    ensures First(v.tabs[ROOT_CLUSTER], FolderKey(name, ZERO_EXT)) == 2 && First(v.tabs[ROOT_CLUSTER], Named(name)) == 1
  {
    hide FirstFrom;
    var t := v.tabs[ROOT_CLUSTER];
    assert t[1] == [e, f][0] && t[2] == [e, f][1];
    ListsFinds(t, [e, f], FolderKey(name, ZERO_EXT), 1);
    FirstIs(t, Named(name), 1);
  }

  // Moving the folder to where it is clears the file, and the disk shows no tree any more.
  lemma MoveFails(d: Disk, name: Name, buf: Cluster, now: Stamp)
    ensures FromFormat(d, now, TwoCalls(name, buf, now))
    ensures var (b, v) := Reached(d, now, TwoCalls(name, buf, now));
      var req := LookReq(name, ROOT_CLUSTER);
      && Tree(v) && Allowed(b, v, Op.ReadFolder(req, now)) && Opens(b, v, req, now)
      && var e, w := DiskAfterRead(b, v, req, now), AfterRead(b, v, req, now);
      && Finds(w, req) && ROOT_CLUSTER in w.tabs && !ShowsTree(Apply(e, MoveWrites(w, req, ROOT_CLUSTER, now)))
  {
    hide FromFormat, Reached, Allowed, Opens, MoveWrites, AfterRead, DiskAfterRead, FreeIn, First, ShowsTree, Rep;
    hide Inv, Tree, Under;
    var b, v, e, f := FileThenFolder(d, name, buf, now);
    BehindFile(v, name, e, f);
    InvTree(v);
    CanOpen(b, v, LookReq(name, ROOT_CLUSTER), now);
    MoveDirExact(b, v, LookReq(name, ROOT_CLUSTER), ROOT_CLUSTER, now);
  }

  /* Two folders in the root, and one in the first of them */

  function ThreeCalls(a: Name, b: Name, c: Name, now: Stamp): seq<Op> {
    [FolderCall(a, ROOT_CLUSTER, now)] + [FolderCall(b, ROOT_CLUSTER, now)] + [FolderCall(c, 3, now)]
  }

  ghost predicate ThreeFolders(v: Vol, a: Name, b: Name, c: Name) {
    && Inv(v) && {ROOT_CLUSTER, 3, 4, 5} <= v.tabs.Keys && TakenBelow(v.fat, 6)
    && Lists(v.tabs[4], []) && Lists(v.tabs[5], []) && Parent(v, 3) == ROOT_CLUSTER && Parent(v, 4) == ROOT_CLUSTER
    && Parent(v, 5) == 3
    && (exists g :: Lists(v.tabs[3], [g]) && IsFolderEntry(g, c, 5))
    && (exists e, f :: Lists(v.tabs[ROOT_CLUSTER], [e, f]) && IsFolderEntry(e, a, 3) && IsFolderEntry(f, b, 4))
  }

  predicate IsFolderEntry(e: Entry, name: Name, k: nat) {
    e.name == name && e.ext == ZERO_EXT && IsDir(e) && e.cluster == k
  }

  lemma ThreeMade(d: Disk, a: Name, b: Name, c: Name, now: Stamp) returns (x: Disk, v: Vol)
    requires a != b
    ensures At(d, now, ThreeCalls(a, b, c, now), x, v) && ThreeFolders(v, a, b, c)
  {
    hide FormatDisk, EmptyVol, Rep, Inv, Lists, TakenBelow, FromFormat, Reached, First;
    Fresh(d, now);
    var o1, o2 := FolderCall(a, ROOT_CLUSTER, now), FolderCall(b, ROOT_CLUSTER, now);
    ListsFinds(EmptyVol(now).tabs[ROOT_CLUSTER], [], Folder(a), 0);
    var x1, v1, e := AddedFolder(d, now, [], FormatDisk(d, now), EmptyVol(now), FolderReq(a, ROOT_CLUSTER), [], 3);
    assert [] + [e] == [e] && [] + [o1] == [o1];
    ListsFinds(v1.tabs[ROOT_CLUSTER], [e], Folder(b), 1);
    var x2, v2, f := AddedFolder(d, now, [o1], x1, v1, FolderReq(b, ROOT_CLUSTER), [e], 4);
    assert [e] + [f] == [e, f];
    ListsFinds(v2.tabs[3], [], Folder(c), 0);
    var g;
    x, v, g := AddedFolder(d, now, [o1] + [o2], x2, v2, FolderReq(c, 3), [], 5);
    assert [] + [g] == [g];
    assert Lists(v.tabs[3], [g]) && IsFolderEntry(g, c, 5);
    assert Lists(v.tabs[ROOT_CLUSTER], [e, f]) && IsFolderEntry(e, a, 3) && IsFolderEntry(f, b, 4);
  }

  // Where the searches of the calls end.
  lemma ThreeFacts(v: Vol, a: Name, b: Name, c: Name)
    requires ThreeFolders(v, a, b, c) && a != b
    ensures var t := v.tabs[ROOT_CLUSTER];
      && First(t, FolderKey(a, ZERO_EXT)) == 1 && First(t, Named(a)) == 1 && t[1].cluster == 3
      && First(t, FolderKey(b, ZERO_EXT)) == 2 && First(t, Named(b)) == 2 && t[2].cluster == 4
      && First(t, Folder(b)) == 2 && First(t, Key(b, ZERO_EXT)) == 2 && IsDir(t[2]) && Live(t[2])
    ensures var u := v.tabs[3];
      && First(u, FolderKey(c, ZERO_EXT)) == 1 && First(u, Named(c)) == 1 && First(u, Folder(c)) == 1
      && u[1].cluster == 5
      && First(u, Dead) == 2 && !HasOther(u, 1)
    ensures First(v.tabs[4], Dead) == 1 && First(v.tabs[4], Folder(c)) == TABLE_SIZE && !HasLive(v.tabs[4])
    ensures First(v.tabs[5], Dead) < TABLE_SIZE
  {
    hide First, Tree, Lists;
    var e, f :| Lists(v.tabs[ROOT_CLUSTER], [e, f]) && IsFolderEntry(e, a, 3) && IsFolderEntry(f, b, 4);
    var g :| Lists(v.tabs[3], [g]) && IsFolderEntry(g, c, 5);
    TwoListed(v.tabs[ROOT_CLUSTER], e, f);
    OneListed(v.tabs[3], g);
    ListsDead(v.tabs[4], []);
    ListsFinds(v.tabs[4], [], Folder(c), 0);
    NoneListed(v.tabs[4]);
    ListsDead(v.tabs[5], []);
  }

  lemma TwoListed(t: Table, e: Entry, f: Entry)
    requires Lists(t, [e, f]) && IsFolderEntry(e, e.name, e.cluster) && IsFolderEntry(f, f.name, f.cluster)
    requires e.name != f.name
    ensures First(t, FolderKey(e.name, ZERO_EXT)) == 1 && First(t, Named(e.name)) == 1 && t[1] == e
    ensures First(t, FolderKey(f.name, ZERO_EXT)) == 2 && First(t, Named(f.name)) == 2 && t[2] == f && Live(f)
    ensures First(t, Folder(f.name)) == 2 && First(t, Key(f.name, ZERO_EXT)) == 2
  {
    hide First, FirstFrom;
    assert t[1] == [e, f][0] && t[2] == [e, f][1] && Live([e, f][0]) && Live([e, f][1]);
    ListsFinds(t, [e, f], FolderKey(e.name, ZERO_EXT), 0);
    ListsFinds(t, [e, f], FolderKey(f.name, ZERO_EXT), 1);
    ListsFinds(t, [e, f], Folder(f.name), 1);
    ListsFinds(t, [e, f], Key(f.name, ZERO_EXT), 1);
    FirstIs(t, Named(e.name), 1);
    FirstIs(t, Named(f.name), 2);
  }

  lemma OneListed(u: Table, g: Entry)
    requires Lists(u, [g]) && IsFolderEntry(g, g.name, g.cluster)
    ensures First(u, FolderKey(g.name, ZERO_EXT)) == 1 && First(u, Named(g.name)) == 1 && First(u, Folder(g.name)) == 1
    ensures u[1] == g && First(u, Dead) == 2 && !HasOther(u, 1)
  {
    hide First, FirstFrom;
    assert u[1] == [g][0] && Live([g][0]);
    ListsFinds(u, [g], FolderKey(g.name, ZERO_EXT), 0);
    ListsFinds(u, [g], Folder(g.name), 0);
    FirstIs(u, Named(g.name), 1);
    ListsDead(u, [g]);
  }

  lemma NoneListed(t: Table)
    requires Lists(t, [])
    ensures !HasLive(t)
  {
  }

  lemma {:induction false} UnderChild(v: Vol, k: nat, c: nat)
    requires Tree(v) && c in v.tabs && c != k && c != ROOT_CLUSTER
    requires Parent(v, c) in v.tabs && !Under(v, k, Parent(v, c))
    ensures !Under(v, k, c)
  {
  }

  // Renaming the first folder to the name of the second is let through, and the disk shows no tree any
  // more.
  lemma RenameTakenFails(d: Disk, a: Name, b: Name, c: Name, now: Stamp)
    requires a != b
    ensures FromFormat(d, now, ThreeCalls(a, b, c, now))
    ensures var (x, v) := Reached(d, now, ThreeCalls(a, b, c, now));
      var req := LookReq(a, ROOT_CLUSTER);
      && Tree(v) && Allowed(x, v, Op.ReadFolder(req, now)) && Opens(x, v, req, now)
      && First(v.tabs[ROOT_CLUSTER], Named(a)) == FolderSlotOf(v, req).index
      && var e, w := DiskAfterRead(x, v, req, now), AfterRead(x, v, req, now);
      Finds(w, req) && !ShowsTree(Apply(e, RenameWrites(w, req, b, now)))
  {
    hide FromFormat, Reached, Allowed, Opens, RenameWrites, AfterRead, DiskAfterRead, First, ShowsTree, Rep, Inv, Tree;
    var x, v := ThreeMade(d, a, b, c, now);
    ThreeFacts(v, a, b, c);
    InvTree(v);
    CanOpen(x, v, LookReq(a, ROOT_CLUSTER), now);
    RenameDirExact(x, v, LookReq(a, ROOT_CLUSTER), b, now);
  }

  // Moving a folder to where another has its name is let through, with the same effect.
  lemma MoveTakenFails(d: Disk, a: Name, b: Name, now: Stamp)
    requires a != b
    ensures FromFormat(d, now, ThreeCalls(a, b, b, now))
    ensures var (x, v) := Reached(d, now, ThreeCalls(a, b, b, now));
      var req := LookReq(b, ROOT_CLUSTER);
      && Tree(v) && Allowed(x, v, Op.ReadFolder(req, now)) && Opens(x, v, req, now)
      && First(v.tabs[ROOT_CLUSTER], Named(b)) == FolderSlotOf(v, req).index
      && var e, w := DiskAfterRead(x, v, req, now), AfterRead(x, v, req, now);
      Finds(w, req) && 3 in w.tabs && !ShowsTree(Apply(e, MoveWrites(w, req, 3, now)))
  {
    hide FromFormat, Reached, Allowed, Opens, MoveWrites, AfterRead, DiskAfterRead, First, ShowsTree, Rep, Inv, Tree;
    hide Under;
    var x, v := ThreeMade(d, a, b, b, now);
    ThreeFacts(v, a, b, b);
    InvTree(v);
    UnderRoot(v, 4);
    UnderChild(v, 4, 3);
    CanOpen(x, v, LookReq(b, ROOT_CLUSTER), now);
    MoveDirExact(x, v, LookReq(b, ROOT_CLUSTER), 3, now);
  }

  // Moving the first folder into the one that is in it returns 0. The only tree on the disk has neither.
  lemma MoveInsideLoses(d: Disk, a: Name, b: Name, c: Name, now: Stamp)
    requires a != b
    ensures FromFormat(d, now, ThreeCalls(a, b, c, now))
    ensures var (x, v) := Reached(d, now, ThreeCalls(a, b, c, now));
      var call := Move(LookReq(a, ROOT_CLUSTER), 5, now);
      && Tree(v) && Allowed(x, v, Op.ReadFolder(call.req, now)) && Opens(x, v, call.req, now)
      && Permitted(x, v, call) && Loses(x, v, call) && {3, 5} <= v.tabs.Keys
      && var (e, w) := Outcome(x, v, call);
      Shows(e, w) && !NoLeak(w) && forall u :: Shows(e, u) ==> u == w && 3 !in u.tabs && 5 !in u.tabs
  {
    hide FromFormat, Reached, Allowed, Opens, First, Rep, Inv, Tree, Under, Outcome, Permitted, Swallows, NoLeak;
    var x, v := ThreeMade(d, a, b, c, now);
    var call := Move(LookReq(a, ROOT_CLUSTER), 5, now);
    ThreeFacts(v, a, b, c);
    InvTree(v);
    CanOpen(x, v, call.req, now);
    FromReached(d, now, ThreeCalls(a, b, c, now), x, v);
    UnderSelf(v, 3);
    UnderStep(v, 3, 5);
    MovePermitted(x, v, call.req, 5, now);
    SwallowLoses(x, v, call);
    var (e, w) := Outcome(x, v, call);
    OnlyTree(e, w);
  }

  lemma FromReached(d: Disk, now: Stamp, ops: seq<Op>, x: Disk, v: Vol)
    requires At(d, now, ops, x, v)
    ensures Formatted(x) && NoLeak(v)
  {
    hide Formatted, NoLeak, Inv, Rep, FromFormat, Reached;
    ReachableStates(d, now, ops);
  }

  // What is below a folder that is moved into itself is no part of the tree that is left.
  lemma SwallowLoses(d: Disk, v: Vol, c: Call)
    requires Rep(d, v) && Tree(v) && Formatted(d) && Permitted(d, v, c) && Swallows(d, v, c)
    ensures var (e, w) := Outcome(d, v, c);
      && Shows(e, w) && !NoLeak(w)
      && forall k :: HangsFrom(v, FolderSlotOf(v, c.req), k) ==> k !in w.tabs
  {
    hide Rep, Tree, StepVol, StepDisk, Allowed, Opens, MoveWrites, NoLeak, Under, First, FileAt;
    var w0 := AfterRead(d, v, c.req, c.now);
    CallKeeps(d, v, c, FileName(0, ZERO_NAME, ZERO_EXT));
    OpenedSlot(d, v, c.req, c.now);
    DetachedIs(w0, FolderSlotOf(w0, c.req));
    forall k | HangsFrom(v, FolderSlotOf(v, c.req), k)
      ensures HangsFrom(w0, FolderSlotOf(w0, c.req), k)
    {
      SwallowedDirs(d, v, c.req, c.now, k);
    }
  }

  /* Flags that a move leaves behind */

  // Moving the only folder of the first into the second leaves both flags wrong. A delete of the second is
  // then let through, and the only tree on the disk has lost what was moved, but not its clusters.
  lemma FlagsFail(d: Disk, a: Name, b: Name, c: Name, now: Stamp)
    requires a != b
    ensures FromFormat(d, now, ThreeCalls(a, b, c, now))
    ensures var (x, v) := Reached(d, now, ThreeCalls(a, b, c, now));
      var move, del := Move(LookReq(c, 3), 4, now), Basic(Op.Delete(FolderReq(b, ROOT_CLUSTER)));
      && Tree(v) && Allowed(x, v, Op.ReadFolder(move.req, now)) && Opens(x, v, move.req, now) && Permitted(x, v, move)
      && var (e, w) := Outcome(x, v, move);
      && Tree(w) && NoLeak(w) && {3, 4, 5} <= w.tabs.Keys && !FlagExact(w.tabs[3]) && !FlagExact(w.tabs[4])
      && Permitted(e, w, del) && DeleteCode(w, del.op.req) == 0 && Loses(e, w, del)
      && var (y, u) := Outcome(e, w, del);
      Shows(y, u) && !NoLeak(u) && 5 !in u.tabs && forall t :: Shows(y, t) ==> t == u
  {
    hide FromFormat, Reached, Allowed, Opens, First, Rep, Inv, Tree, Under, Outcome, Permitted, NoLeak, DeleteCode;
    hide FlagExact, Orphans, HangsFrom, ThreeFolders, Loses, StepVol, StepDisk;
    var x, v := ThreeMade(d, a, b, c, now);
    var move, del := Move(LookReq(c, 3), 4, now), Basic(Op.Delete(FolderReq(b, ROOT_CLUSTER)));
    ThreeFacts(v, a, b, c);
    ThreeThere(v, a, b, c);
    CanOpen(x, v, move.req, now);
    FromReached(d, now, ThreeCalls(a, b, c, now), x, v);
    UnderRoot(v, 5);
    UnderChild(v, 5, 4);
    MovePermitted(x, v, move.req, 4, now);
    MovedAway(x, v, a, b, c, now);
    var (e, w) := Outcome(x, v, move);
    OrphanMade(e, w, b);
    BasicCall(e, w, del.op);
  }

  lemma BasicCall(d: Disk, v: Vol, op: Op)
    requires Tree(v) && Allowed(d, v, op)
    ensures Permitted(d, v, Basic(op)) && Outcome(d, v, Basic(op)) == (StepDisk(d, v, op), StepVol(d, v, op))
    ensures Loses(d, v, Basic(op)) <==> Orphans(d, v, op)
  {
    hide Tree, Allowed, StepVol, StepDisk, Orphans;
  }

  lemma ThreeThere(v: Vol, a: Name, b: Name, c: Name)
    requires ThreeFolders(v, a, b, c)
    ensures Inv(v) && Tree(v) && {ROOT_CLUSTER, 3, 4, 5} <= v.tabs.Keys && TakenBelow(v.fat, 6)
    ensures Parent(v, 3) == ROOT_CLUSTER && Parent(v, 4) == ROOT_CLUSTER && Parent(v, 5) == 3
  {
    hide Tree;
    InvTree(v);
  }

  // The tree after the move.
  ghost predicate MovedOver(w: Vol, b: Name) {
    && Tree(w) && {ROOT_CLUSTER, 3, 4, 5} <= w.tabs.Keys && !FlagExact(w.tabs[3]) && !FlagExact(w.tabs[4])
    && HasLive(w.tabs[4]) && Slot(ROOT_CLUSTER, 2) in w.chains && Parent(w, 5) == 4
    && !HasLive(w.tabs[3]) && TakenBelow(w.fat, 6)
    && First(w.tabs[ROOT_CLUSTER], Key(b, ZERO_EXT)) == 2
    && IsDir(w.tabs[ROOT_CLUSTER][2]) && w.tabs[ROOT_CLUSTER][2].cluster == 4
  }

  lemma MovedAway(x: Disk, v: Vol, a: Name, b: Name, c: Name, now: Stamp)
    requires Rep(x, v) && ThreeFolders(v, a, b, c) && a != b && Tree(v) && Formatted(x) && NoLeak(v)
    requires Permitted(x, v, Move(LookReq(c, 3), 4, now)) && !Swallows(x, v, Move(LookReq(c, 3), 4, now))
    requires Allowed(x, v, Op.ReadFolder(LookReq(c, 3), now)) && Opens(x, v, LookReq(c, 3), now)
    ensures var (e, w) := Outcome(x, v, Move(LookReq(c, 3), 4, now));
      Rep(e, w) && Formatted(e) && NoLeak(w) && MovedOver(w, b)
  {
    hide Allowed, Opens, First, Rep, Inv, Tree, Under, NoLeak, FlagExact, StepVol, StepDisk, FileAt, Moved, MoveWrites;
    hide Lists, HasLive, HasOther, Formatted, TakenBelow;
    var req := LookReq(c, 3);
    ThreeFacts(v, a, b, c);
    ThreeThere(v, a, b, c);
    LookKeeps(x, v, req, now, FileName(0, ZERO_NAME, ZERO_EXT));
    OpenedSlot(x, v, req, now);
    CallKeeps(x, v, Move(req, 4, now), FileName(0, ZERO_NAME, ZERO_EXT));
    var w := AfterRead(x, v, req, now);
    LookedFacts(v, w, b);
    FlagsLeft(w, b, now);
  }

  lemma LookedFacts(v: Vol, w: Vol, b: Name)
    requires SameTree(v, w) && {ROOT_CLUSTER, 3, 4, 5} <= v.tabs.Keys
    ensures {ROOT_CLUSTER, 3, 4, 5} <= w.tabs.Keys
    ensures First(w.tabs[ROOT_CLUSTER], Key(b, ZERO_EXT)) == First(v.tabs[ROOT_CLUSTER], Key(b, ZERO_EXT))
    ensures SameEntry(w.tabs[ROOT_CLUSTER][2], v.tabs[ROOT_CLUSTER][2])
    ensures HasOther(w.tabs[3], 1) <==> HasOther(v.tabs[3], 1)
    ensures HasLive(w.tabs[4]) <==> HasLive(v.tabs[4])
  {
    SameTreeFinds(v, w, ROOT_CLUSTER, Key(b, ZERO_EXT));
    forall j | 1 <= j < TABLE_SIZE
      ensures Live(w.tabs[3][j]) == Live(v.tabs[3][j]) && Live(w.tabs[4][j]) == Live(v.tabs[4][j])
    {
      assert SameEntry(w.tabs[3][j], v.tabs[3][j]) && SameEntry(w.tabs[4][j], v.tabs[4][j]);
    }
  }

  lemma FlagsLeft(w: Vol, b: Name, now: Stamp)
    requires Inv(w) && Movable(w, Slot(3, 1), 4) && Ent(w, Slot(3, 1)).cluster == 5
    requires {ROOT_CLUSTER, 3, 4, 5} <= w.tabs.Keys && !HasOther(w.tabs[3], 1) && !HasLive(w.tabs[4])
    requires TakenBelow(w.fat, 6)
    requires First(w.tabs[ROOT_CLUSTER], Key(b, ZERO_EXT)) == 2
    requires IsDir(w.tabs[ROOT_CLUSTER][2]) && w.tabs[ROOT_CLUSTER][2].cluster == 4
    ensures MovedOver(Moved(w, Slot(3, 1), 4, now), b)
  {
    hide First, FirstFrom, SlotOk, DirOk, Under, NewDepth, FolderAt, KeysOk, Base, FlagExact, TakenBelow;
    var s, u := Slot(3, 1), Moved(w, Slot(3, 1), 4, now);
    var r, e := Slot(4, First(TargetTable(w, s, 4), Dead)), MovedEntry(w.tabs[5][0], 5, now);
    MovedIs(w, s, 4, now);
    MovedKeepsTree(w, u, s, r, e, 5);
    MovedFlags(w, u, s, r, e, 5);
    MovedSlotFacts(w, u, s, r, e, 5);
    MovedHeaders(w, u, s, r, e, 5);
    LiveSlot(w, Slot(ROOT_CLUSTER, 2));
    assert Live(u.tabs[4][r.index]);
    assert u.tabs[ROOT_CLUSTER] == w.tabs[ROOT_CLUSTER];
    assert u.tabs[3] == Unlinked(w.tabs[3], 1);
  }

  lemma OrphanMade(e: Disk, w: Vol, b: Name)
    requires Rep(e, w) && NoLeak(w) && MovedOver(w, b)
    ensures var del := Op.Delete(FolderReq(b, ROOT_CLUSTER));
      && Allowed(e, w, del) && !Refused(e, del) && DeleteCode(w, del.req) == 0 && Orphans(e, w, del)
      && var (y, u) := (StepDisk(e, w, del), StepVol(e, w, del));
      Shows(y, u) && !NoLeak(u) && 5 !in u.tabs && forall t :: Shows(y, t) ==> t == u
  {
    hide First, FirstFrom, SlotOk, Under, NoLeak, AsTable, AsFat, Pruned, DeleteDisk, Base, KeysOk;
    var del := Op.Delete(FolderReq(b, ROOT_CLUSTER));
    assert DirOk(w, ROOT_CLUSTER);
    UnderSelf(w, 4);
    UnderStep(w, 4, 5);
    DeleteOrphansExact(e, w, del.req);
    assert HangsFrom(w, Slot(ROOT_CLUSTER, 2), 5);
  }

  // A file that is written where the folder was, and deleted, leaves another flag there.
  lemma FileUndoFails(d: Disk, a: Name, b: Name, c: Name, now: Stamp)
    requires a != b
    ensures FromFormat(d, now, ThreeCalls(a, b, c, now))
    ensures var (x, v) := Reached(d, now, ThreeCalls(a, b, c, now));
      var move, req := Move(LookReq(c, 3), 4, now), Request(c, ZERO_EXT, 3, 1);
      && Tree(v) && Permitted(x, v, move)
      && var w := Outcome(x, v, move).1;
      && FileWritable(w, req) && Deletable(FileWritten(w, req, now), req)
      && Deleted(FileWritten(w, req, now), req) != w
  {
    hide FromFormat, Reached, Allowed, Opens, First, Rep, Inv, Tree, Under, Outcome, Permitted, NoLeak, DeleteCode;
    hide FlagExact, ThreeFolders, StepVol, StepDisk, FileWritable, FileWritten, Deleted, Deletable, TakenBelow;
    var x, v := ThreeMade(d, a, b, c, now);
    var move, req := Move(LookReq(c, 3), 4, now), Request(c, ZERO_EXT, 3, 1);
    ThreeFacts(v, a, b, c);
    ThreeThere(v, a, b, c);
    CanOpen(x, v, move.req, now);
    FromReached(d, now, ThreeCalls(a, b, c, now), x, v);
    UnderRoot(v, 5);
    UnderChild(v, 5, 4);
    MovePermitted(x, v, move.req, 4, now);
    MovedAway(x, v, a, b, c, now);
    var w := Outcome(x, v, move).1;
    EmptyTakes(w, b, req);
    FileUndo(w, req, now, req);
  }

  lemma EmptyTakes(w: Vol, b: Name, req: Request)
    requires MovedOver(w, b) && req.parent == 3 && req.size == 1
    ensures FileWritable(w, req) && !Spotless(w.tabs[3], NewSlot(w, req).index)
  {
    hide FirstFrom, SlotOk, Under, FlagExact;
    assert DirOk(w, 3);
    assert !Live(w.tabs[3][1]);
    FirstFreeIs(w.fat, 6);
  }
}
