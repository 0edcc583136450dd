// rm: removing a file or, recursively, a folder with what the paths of its entries lead to.
module Removal {
  import opened Layout
  import opened Volume
  import opened Pruning
  import opened Disks
  import opened Operations
  import opened Deleting
  import opened Reading
  import opened FatDriver
  import opened Calls
  import opened Strings
  import opened Paths
  import opened Clearing
  import opened Walking
  import opened Sweeping

  /* What the driver finds on the way */

  // The flag of a folder in what is left.
  lemma FlagIs(v: Vol, w: Vol, gone: set<Slot>, s: Slot)
    requires Cleared(v, w, gone) && Tree(w) && FlagsStay(v, w) && FlagSound(v, s)
    requires s in v.chains && s !in gone && IsSlot(v, s) && IsDir(Ent(v, s))
    ensures var k := Ent(v, s).cluster;
      && k in v.tabs && k in w.tabs
      && (w.tabs[k][0].userAttribute == UATTR_NOT_EMPTY <==> Occupied(v, s, gone))
      && (HasLive(w.tabs[k]) <==> !EntriesGone(v, k, gone))
      && (forall j :: 1 <= j < TABLE_SIZE ==>
            if Slot(k, j) in gone then !Live(w.tabs[k][j]) else SameEntry(w.tabs[k][j], v.tabs[k][j]))
  {
    hide SlotOk, DirOk, Base, DeadCleared, First;
    var k := Ent(v, s).cluster;
    FolderSlot(v, s);
    assert TableCleared(v.tabs[k], w.tabs[k], k, gone);
    forall j | 1 <= j < TABLE_SIZE
      ensures Live(w.tabs[k][j]) <==> Slot(k, j) in v.chains && Slot(k, j) !in gone
    {
      LiveSlot(v, Slot(k, j));
    }
    if HasLive(v.tabs[k]) {
      assert FlagExact(v.tabs[k]);
    }
    assert FlagStays(v.tabs[k], w.tabs[k]);
  }

  // A folder is the only one of its name.
  lemma FolderHeld(v: Vol, s: Slot, gone: set<Slot>)
    requires Tree(v) && s in v.chains && s !in gone && IsSlot(v, s) && IsDir(Ent(v, s))
    ensures Held(v, s.dir, FolderKey(Ent(v, s).name, Ent(v, s).ext), gone) == s.index
  {
    hide SlotOk, DirOk, First, FirstFrom, Base;
    LiveSlot(v, s);
    assert KeysOk(v, s.dir);
    FirstIsOnly(v.tabs[s.dir], s.index, FolderKey(Ent(v, s).name, Ent(v, s).ext));
  }

  // The delete finds the first entry that has the name, and removes it unless it is a folder with something
  // left in it, or one that says so.
  lemma DeleteFinds(v: Vol, w: Vol, gone: set<Slot>, s: Slot, req: Request)
    requires Cleared(v, w, gone) && Tree(w) && FlagsStay(v, w) && FlagSound(v, s)
    requires s in v.chains && IsSlot(v, s) && s.dir in w.tabs && FolderIsIt(v, s, gone)
    requires req.parent == s.dir && req.name == Ent(v, s).name && req.ext == Ent(v, s).ext
    ensures var i := Found(v, s, gone); var t := Slot(s.dir, i);
      && DeleteCode(w, req) ==
         (if i == TABLE_SIZE then 1 else if IsDir(Ent(v, t)) && Occupied(v, t, gone) then 2 else 0)
      && (i < TABLE_SIZE ==> TargetSlot(w, req) == t && t in w.chains && t !in gone)
      && (DeleteCode(w, req) == 0 ==> IsLeaf(w, t))
  {
    hide Tree, First, FirstFrom, EntriesGone, Stuck, TableCleared, CellsCleared, OwnersCleared, FlagSound, FlagsStay;
    hide Found;
    FoundExact(v, w, gone, s);
    HeaderIsDir(w, s.dir);
    var i := Found(v, s, gone);
    if i < TABLE_SIZE {
      FoundIsLive(v, w, gone, s);
      if IsDir(Ent(v, Slot(s.dir, i))) {
        FlagIs(v, w, gone, s);
      }
    }
  }

  lemma FoundIsLive(v: Vol, w: Vol, gone: set<Slot>, s: Slot)
    requires Cleared(v, w, gone) && IsSlot(v, s) && s.dir in w.tabs && Found(v, s, gone) < TABLE_SIZE
    requires FolderIsIt(v, s, gone)
    ensures var t := Slot(s.dir, Found(v, s, gone));
      && IsSlot(v, t) && IsSlot(w, t) && t in v.chains && t !in gone && t in w.chains && SameEntry(Ent(w, t), Ent(v, t))
      && (IsDir(Ent(v, t)) ==> t == s)
  {
    hide Tree, First, FirstFrom, CellsCleared, OwnersCleared;
    LiveSlot(v, Slot(s.dir, Found(v, s, gone)));
    assert TableCleared(v.tabs[s.dir], w.tabs[s.dir], s.dir, gone);
  }

  // A folder that has the name of `s` and is not gone is `s`.
  ghost predicate FolderIsIt(v: Vol, s: Slot, gone: set<Slot>)
    requires IsSlot(v, s)
  {
    var i := Held(v, s.dir, FolderKey(Ent(v, s).name, Ent(v, s).ext), gone);
    if IsDir(Ent(v, s)) then i in {s.index, TABLE_SIZE} else i == TABLE_SIZE
  }

  lemma PickedIsIt(v: Vol, st: seq<Frame>, comps: seq<Text>, gone: set<Slot>, root: bool)
    requires Tree(v) && |st| > 0 && |comps| > 0 && Picked(v, st, comps, gone, root).Some?
    ensures var s := Picked(v, st, comps, gone, root).value;
      && IsSlot(v, s) && s in v.chains && s !in gone && FolderIsIt(v, s, gone)
  {
    hide Tree, Walk, NameAndExt, Unpad, Sought, First;
    var s := Picked(v, st, comps, gone, root).value;
    LiveSlot(v, s);
    if IsDir(Ent(v, s)) {
      FolderHeld(v, s, gone);
    }
  }

  lemma StillIt(v: Vol, s: Slot, g: set<Slot>)
    requires Tree(v) && s in v.chains && IsSlot(v, s) && IsDir(Ent(v, s))
    ensures FolderIsIt(v, s, g)
  {
    hide Tree, First;
    FolderHeld(v, s, {});
  }

  lemma HeaderIsDir(w: Vol, c: nat)
    requires Tree(w) && c in w.tabs
    ensures IsDir(w.tabs[c][0]) && ROOT_CLUSTER <= c < CLUSTER_MAP_SIZE
  {
    assert DirOk(w, c);
  }

  // What is gone so far, what the rest still holds, and flags that are still right.
  ghost predicate Tidied(d: Disk, v: Vol, e: Disk, w: Vol, gone: set<Slot>) {
    Cleared(v, w, gone) && FilesCleared(d, v, e, w, gone) && FlagsStay(v, w) && StaysClean(v, w)
  }

  // The tree that is being cleared.
  ghost predicate Progress(driver: Driver, d: Disk, v: Vol, gone: set<Slot>)
    reads driver, driver.device.image, driver.fatTable
  {
    driver.Intact() && Tidied(d, v, driver.Content(), driver.vol, gone)
  }

  lemma LookedClearing(d: Disk, v: Vol, e: Disk, w: Vol, b: Disk, x: Vol, gone: set<Slot>)
    requires Tidied(d, v, e, w, gone) && OnlyLooked(e, w, b, x)
    ensures Tidied(d, v, b, x, gone)
  {
    hide Cleared, FilesCleared, SameTree, SameFiles, FlagsStay, Inv;
    ClearedLooked(v, w, x, gone);
    FilesClearedLooked(d, v, e, w, b, x, gone);
    FlagsLooked(v, w, x);
  }

  lemma RemovedClearing(d: Disk, v: Vol, e: Disk, w: Vol, b: Disk, x: Vol, gone: set<Slot>, s: Slot)
    requires Tidied(d, v, e, w, gone) && Removed(w, x, s) && LostFile(e, w, b, x, s)
    requires s in w.chains && StaysClean(w, x)
    ensures Tidied(d, v, b, x, gone + {s})
  {
    hide Cleared, FilesCleared, Removed, LostFile, FlagsStay, Inv;
    ClearedRemoved(v, w, x, gone, s);
    FilesClearedRemoved(d, v, e, w, b, x, gone, s);
    FlagsRemoved(v, w, x, s);
  }

  method DeleteFound(driver: Driver, req: Request, ghost d: Disk, ghost v: Vol, ghost gone: set<Slot>, ghost s: Slot)
    returns (code: int)
    requires Progress(driver, d, v, gone) && s in v.chains && IsSlot(v, s) && FolderIsIt(v, s, gone)
    requires s.dir in driver.vol.tabs && FlagSound(v, s)
    requires req.parent == s.dir && req.name == Ent(v, s).name && req.ext == Ent(v, s).ext
    modifies driver`vol, driver.device, driver.device.image, driver.fatTable, driver.dirTableBuf
    ensures Progress(driver, d, v, Dropped(v, s, gone)) && (code == 0 <==> Dropped(v, s, gone) != gone)
  {
    hide Inv, Tree, Rep, Formatted, Cleared, FilesCleared, Removed, LostFile, DeleteCode, TargetSlot, Occupied;
    hide IsLeaf, FlagsStay, FolderIsIt, Found;
    ghost var e, w := driver.Content(), driver.vol;
    DeleteFinds(v, w, gone, s, req);
    code := DeleteEntry(driver, req);
    if code == 0 {
      RemovedClearing(d, v, e, w, driver.Content(), driver.vol, gone, Slot(s.dir, Found(v, s, gone)));
    }
  }

  // What the driver chooses in what is left.
  lemma ChosenCleared(v: Vol, w: Vol, gone: set<Slot>, c: nat, req: Request)
    requires Cleared(v, w, gone) && Tree(w) && c in w.tabs && c in v.tabs && req.size == RM_BUFFER
    ensures var p := Chosen(v, c, req.name, req.ext, gone);
      && (FolderCode(w.tabs[c], req.name, req.ext) == 0 <==> p.Some? && IsDir(Ent(v, p.value)))
      && (FolderCode(w.tabs[c], req.name, req.ext) == 0 ==>
            w.tabs[c][First(w.tabs[c], FolderKey(req.name, req.ext))].cluster == Ent(v, p.value).cluster)
      && (FolderCode(w.tabs[c], req.name, req.ext) != 0 ==> (ReadCode(w.tabs[c], req) == 0 <==> p.Some?))
  {
    hide Tree, First, FirstFrom, CellsCleared, OwnersCleared, FolderCode;
    HeldIs(v, w, gone, c, FolderKey(req.name, req.ext));
    HeldIs(v, w, gone, c, FileKey(req.name, req.ext));
    HeaderIsDir(w, c);
    assert TableCleared(v.tabs[c], w.tabs[c], c, gone);
    FolderCodeZero(w.tabs[c], req);
  }

  lemma FolderCodeZero(t: Table, req: Request)
    ensures FolderCode(t, req.name, req.ext) == 0 <==> First(t, FolderKey(req.name, req.ext)) < TABLE_SIZE
  {
  }

  lemma ReadBufferFits(d: Disk, v: Vol, req: Request)
    requires req.size == RM_BUFFER
    ensures ReadFits(d, v, req, RM_BUFFER)
  {
    hide First;
  }

  // A path in a buffer of its own.
  function Buffered(src: Text): (b: seq<Byte>)
    requires |src| < PATH_ROOM
    ensures |b| == PATH_ROOM
  {
    src + seq(PATH_ROOM - |src|, _ => 0)
  }

  lemma BufferedParts(src: Text)
    requires |src| < PATH_ROOM && 0 !in src && |Parts(src)| <= 12
    ensures PathFits(Buffered(src)) && Components(Buffered(src)) == Parts(src)
  {
    hide Split;
    CStringIs(Buffered(src), 0, src);
    PartsFree(src);
  }

  lemma PartsFree(src: Text)
    requires 0 !in src
    ensures forall t :: t in Parts(src) ==> 0 !in t && |t| <= |src|
  {
    SplitFree(src, SLASH, 0);
  }

  lemma {:induction false} SplitFree(s: Text, delim: Byte, i: nat)
    requires 0 !in s && i <= |s|
    ensures forall t :: t in SplitFrom(s, delim, i) ==> 0 !in t && |t| <= |s|
    decreases |s| - i
  {
    var k := NextDelim(s, delim, i);
    if k < |s| {
      SplitFree(s, delim, k + 1);
    }
  }

  lemma {:induction false} CStringIsUnpad(s: Text, p: nat)
    requires p < |s| && s[|s| - 1] == 0
    ensures CString(s, p) == Unpad(s[p..])
    decreases |s| - p
  {
    if s[p] != 0 {
      CStringIsUnpad(s, p + 1);
      assert s[p..][1..] == s[p + 1..];
    }
  }

  lemma SoughtText(leaf: Option<Text>)
    requires leaf.Some? ==> |leaf.value| < 12
    ensures Sought(leaf)[11] == 0 && CString(Sought(leaf), 0) == Unpad(Sought(leaf))
  {
    hide CString, Unpad;
    CStringIsUnpad(Sought(leaf), 0);
    assert Sought(leaf)[0..] == Sought(leaf);
  }

  /* rm */

  // What has been found: nothing, a folder (0) with its table, or a file (1).
  ghost predicate Located(v: Vol, w: Vol, p: Option<Slot>, kind: int, req: Request, table: seq<Entry>) {
    && (p.None? <==> kind == -1)
    && (p.Some? ==>
          && IsSlot(v, p.value) && p.value.dir in w.tabs && req.parent == p.value.dir
          && req.name == Ent(v, p.value).name && req.ext == Ent(v, p.value).ext
          && kind == (if IsDir(Ent(v, p.value)) then 0 else 1)
          && (kind == 0 ==> Ent(v, p.value).cluster in w.tabs && table == w.tabs[Ent(v, p.value).cluster]))
  }

  // The request asks for what the path names in what is left.
  ghost predicate Requested(v: Vol, w: Vol, p: Option<Slot>, gone: set<Slot>, found: bool, req: Request) {
    if found then
      && req.size == RM_BUFFER && req.parent in w.tabs && req.parent in v.tabs
      && p == Chosen(v, req.parent, req.name, req.ext, gone)
    else p.None?
  }

  lemma {:induction false} SomethingAsked(v: Vol, w: Vol, st: seq<Frame>, comps: seq<Text>, gone: set<Slot>, root: bool)
    requires Cleared(v, w, gone) && Tree(w) && |st| > 0 && |comps| > 0
    requires Grounded(v, st, comps) && StartStays(v, st, comps, gone)
    ensures var r := Resolve(w, st, comps);
      && r == Walk(v, st, comps, gone) && Grounded(w, st, comps) && StackOk(w, r.stack)
      && Top(r.stack).cluster in w.tabs && Top(r.stack).cluster in v.tabs && Top(r.stack).cluster < CLUSTER_MAP_SIZE
      && var parts := NameAndExt(Unpad(Sought(r.leaf)));
      Picked(v, st, comps, gone, root) ==
        if (root && r.code == 3) || parts.None? then None
        else Chosen(v, Top(r.stack).cluster, parts.value.0, parts.value.1, gone)
  {
    hide Tree, Resolve, NameAndExt, Unpad, Sought, Leads, Chosen, Walk, CellsCleared, OwnersCleared, TableCleared;
    WalkExact(v, w, gone, st, comps);
    ResolveKeepsStack(w, st, comps);
    ParentHere(v, w, gone, Resolve(w, st, comps).stack);
  }

  lemma ParentHere(v: Vol, w: Vol, gone: set<Slot>, st: seq<Frame>)
    requires Cleared(v, w, gone) && Tree(w) && StackOk(w, st)
    ensures Top(st).cluster in w.tabs && Top(st).cluster in v.tabs && Top(st).cluster < CLUSTER_MAP_SIZE
  {
    hide Tree, Leads;
    StackTop(w, st);
    DirRange(w, Top(st).cluster);
  }

  // Walk to the parent on a copy of the working directory.
  method WalkTo(driver: Driver, tokenizer: Tokenizer, cwd: Cwd, srcFile: array<Byte>, src: Text,
                ghost d: Disk, ghost v: Vol, ghost gone: set<Slot>)
    returns (code: int)
    requires Progress(driver, d, v, gone) && cwd.Shape() && Anchored(cwd.Frames())
    requires 0 !in src && |src| < PATH_ROOM && |Parts(src)| <= 12
    requires Grounded(v, cwd.Frames(), Parts(src)) && StartStays(v, cwd.Frames(), Parts(src), gone)
    requires srcFile.Length == 12 && Apart(driver, srcFile) && forall k :: 0 <= k < 12 ==> srcFile[k] == 0
    modifies driver`vol, driver.device, driver.device.image, driver.fatTable, driver.dirTableBuf,
      tokenizer, cwd, srcFile
    ensures Progress(driver, d, v, gone) && cwd.Shape() && SameTree(old(driver.vol), driver.vol)
    ensures var r := Walk(v, old(cwd.Frames()), Parts(src), gone);
      code == r.code && cwd.Frames() == r.stack && srcFile[..] == Sought(r.leaf)
  {
    hide Inv, Rep, Formatted, Cleared, FilesCleared, FlagsStay, OnlyLooked, Resolve, FramesOf, Picked, Walk;
    hide Components, PathFits, Parts, Unpad, NameAndExt, Leads, Tree, Sought, StartStays, Grounded;
    ghost var st := cwd.Frames();
    var path := new Byte[PATH_ROOM](k requires 0 <= k < PATH_ROOM => if k < |src| then src[k] else 0);
    var buf := new Entry[TABLE_SIZE](_ => ZERO_ENTRY);
    assert path[..] == Buffered(src);
    BufferedParts(src);
    ghost var e, w := driver.Content(), driver.vol;
    SomethingAsked(v, w, st, Parts(src), gone, false);
    code := ReadPath(driver, tokenizer, path, cwd, srcFile, buf);
    LookedClearing(d, v, e, w, driver.Content(), driver.vol, gone);
    OnlyLookedTree(e, w, driver.Content(), driver.vol);
    SoughtIs(Resolve(w, st, Parts(src)).leaf, srcFile[..]);
  }

  lemma OnlyLookedTree(d: Disk, v: Vol, e: Disk, w: Vol)
    requires OnlyLooked(d, v, e, w)
    ensures SameTree(v, w)
  {
    hide SameTree, SameFiles;
  }

  lemma SoughtIs(leaf: Option<Text>, bytes: seq<Byte>)
    requires |bytes| == 12
    requires if leaf.Some? then bytes == Leaf(leaf.value) else forall k :: 0 <= k < 12 ==> bytes[k] == 0
    ensures bytes == Sought(leaf)
  {
    hide Pad;
  }

  // Find the parent and the name, and with them the request for what the path names.
  method FindParent(driver: Driver, tokenizer: Tokenizer, cwd: Cwd, src: Text, root: bool,
                    ghost recursive: bool, ghost d: Disk, ghost v: Vol, ghost gone: set<Slot>)
    returns (found: bool, req: Request)
    requires Progress(driver, d, v, gone) && cwd.Shape() && Anchored(cwd.Frames()) && Tree(v)
    requires RmReady(v, cwd.Frames(), src, gone, recursive, root)
    modifies driver`vol, driver.device, driver.device.image, driver.fatTable, driver.dirTableBuf, tokenizer
    ensures Progress(driver, d, v, gone)
    ensures Requested(v, driver.vol, Picked(v, cwd.Frames(), Parts(src), gone, root), gone, found, req)
  {
    hide Inv, Rep, Formatted, Cleared, FilesCleared, FlagsStay, Resolve, FramesOf, Chosen, Picked, Grounded, SameTree;
    hide Parts, CString, Unpad, NameAndExt, Leads, Tree, Sought, StartStays, StackOk, RmReady, Walk;
    ghost var st, w := cwd.Frames(), driver.vol;
    ghost var r := Walk(v, st, Parts(src), gone);
    PathReady(v, st, src, gone, recursive, root);
    SomethingAsked(v, w, st, Parts(src), gone, root);
    var srcCwd := new Cwd.Copy(cwd);
    var srcFile := new Byte[12](_ => 0);
    var code := WalkTo(driver, tokenizer, srcCwd, srcFile, src, d, v, gone);
    SameKeys(w, driver.vol);
    req := Request(ZERO_NAME, ZERO_EXT, 0, RM_BUFFER);
    if code == 3 && root {
      return false, req;
    }
    SoughtText(r.leaf);
    var name, ext := new Byte[8](_ => 0), new Byte[3](_ => 0);
    code := SeparateFilename(tokenizer, srcFile, name, ext);
    if code == 3 {
      return false, req;
    }
    TopFrame(srcCwd);
    found, req := true, Request(name[..], ext[..], srcCwd.clustersStack[srcCwd.top], RM_BUFFER);
  }

  lemma {:induction false} PathReady(v: Vol, st: seq<Frame>, src: Text, gone: set<Slot>, recursive: bool, root: bool)
    requires Tree(v) && |st| > 0 && RmReady(v, st, src, gone, recursive, root)
    ensures 0 !in src && |src| < PATH_ROOM && |Parts(src)| <= 12
    ensures Grounded(v, st, Parts(src)) && StartStays(v, st, Parts(src), gone)
    ensures var leaf := Walk(v, st, Parts(src), gone).leaf; leaf.Some? ==> |leaf.value| < 12
  {
    hide Tree, Walk, Grounded, StartStays, Picked, EntriesReady, Parts;
  }

  // See whether the request names a folder or a file.
  method Probe(driver: Driver, req: Request, dirTable: array<Entry>, ghost d: Disk, ghost v: Vol, ghost gone: set<Slot>)
    returns (kind: int)
    requires Progress(driver, d, v, gone) && dirTable.Length == TABLE_SIZE && Apart(driver, dirTable)
    requires req.size == RM_BUFFER && req.parent in driver.vol.tabs && req.parent in v.tabs
    modifies driver`vol, driver.device, driver.device.image, driver.fatTable, driver.dirTableBuf, dirTable
    ensures Progress(driver, d, v, gone)
    ensures Located(v, driver.vol, Chosen(v, req.parent, req.name, req.ext, gone), kind, req, dirTable[..])
  {
    hide Inv, Rep, Formatted, Cleared, FilesCleared, FlagsStay, SameFiles, SameTree, Chosen, FolderCode, ReadCode;
    hide ReadFits, Tree, First;
    ghost var e, w := driver.Content(), driver.vol;
    ChosenCleared(v, w, gone, req.parent, req);
    var code, found := OpenFolder(driver, req, dirTable);
    LookedClearing(d, v, e, w, driver.Content(), driver.vol, gone);
    SameKeys(w, driver.vol);
    if code == 0 {
      return 0;
    }
    ghost var b, x := driver.Content(), driver.vol;
    var clusters := new Byte[RM_BUFFER](_ => 0);
    ChosenCleared(v, x, gone, req.parent, req);
    FolderCodeSame(w, x, req);
    ReadBufferFits(b, x, req);
    code := ReadFile(driver, req, clusters);
    LookedClearing(d, v, b, x, driver.Content(), driver.vol, gone);
    SameKeys(x, driver.vol);
    kind := if code == 0 then 1 else -1;
  }

  lemma FolderCodeSame(w: Vol, x: Vol, req: Request)
    requires SameTree(w, x) && req.parent in w.tabs
    ensures FolderCode(x.tabs[req.parent], req.name, req.ext) == 0 <==>
      FolderCode(w.tabs[req.parent], req.name, req.ext) == 0
  {
    SameTreeFinds(w, x, req.parent, FolderKey(req.name, req.ext));
  }

  // Remove a file, or a folder and, if asked to, what its entries' paths lead to.
  method Rm(driver: Driver, tokenizer: Tokenizer, cwd: Cwd, src: Text, recursive: bool, root: bool,
            ghost d: Disk, ghost v: Vol, ghost gone: set<Slot>)
    requires Progress(driver, d, v, gone) && cwd.Shape() && Anchored(cwd.Frames()) && Tree(v)
    requires RmReady(v, cwd.Frames(), src, gone, recursive, root)
    modifies driver`vol, driver.device, driver.device.image, driver.fatTable, driver.dirTableBuf, tokenizer
    ensures Progress(driver, d, v, After(v, cwd.Frames(), src, gone, recursive, root))
    decreases Slack(src), 1
  {
    hide Inv, Rep, Formatted, Cleared, FilesCleared, FlagsStay, Resolve, FramesOf, Chosen, Picked, Walk, Grounded;
    hide Parts, Unpad, NameAndExt, Leads, Tree, Sought, StartStays, StackOk, HasLive, RmReady, EntriesReady, After;
    hide SweptBefore, Occupied, FlagSound, Dropped, FolderIsIt, Slack;
    ghost var st := cwd.Frames();
    ghost var p := Picked(v, st, Parts(src), gone, root);
    var found, req := FindParent(driver, tokenizer, cwd, src, root, recursive, d, v, gone);
    if p.None? {
      NothingPicked(v, st, src, gone, recursive, root);
    }
    if !found {
      return;
    }
    var dirTable := new Entry[TABLE_SIZE](_ => ZERO_ENTRY);
    var kind := Probe(driver, req, dirTable, d, v, gone);
    if kind == -1 {
      return;
    }
    ghost var s := p.value;
    PickedIsIt(v, st, Parts(src), gone, root);
    PickedReady(v, st, src, gone, recursive, root);
    var code;
    if kind == 1 {
      code := DeleteFound(driver, req, d, v, gone, s);
    } else {
      FlagIs(v, driver.vol, gone, s);
      if dirTable[0].userAttribute != UATTR_NOT_EMPTY {
        code := DeleteFound(driver, req, d, v, gone, s);
      } else if recursive {
        ghost var g := SweptBefore(v, st, src, gone, s, TABLE_SIZE);
        RmEntries(driver, tokenizer, cwd, src, dirTable, st, d, v, gone, s);
        StillIt(v, s, g);
        StillThere(v, driver.vol, g, s);
        code := DeleteFound(driver, req, d, v, g, s);
      }
    }
  }

  lemma {:induction false} NothingPicked(v: Vol, st: seq<Frame>, src: Text, gone: set<Slot>, recursive: bool,
      root: bool)
    requires Tree(v) && |st| > 0 && Picked(v, st, Parts(src), gone, root).None?
    ensures After(v, st, src, gone, recursive, root) == gone
  {
    hide Tree, Picked, Parts;
  }

  // What has been picked, and what is gone in the end.
  lemma {:induction false} PickedReady(v: Vol, st: seq<Frame>, src: Text, gone: set<Slot>, recursive: bool, root: bool)
    requires Tree(v) && |st| > 0 && RmReady(v, st, src, gone, recursive, root)
    requires Picked(v, st, Parts(src), gone, root).Some?
    requires var s := Picked(v, st, Parts(src), gone, root).value; IsSlot(v, s) && s in v.chains
    ensures var s := Picked(v, st, Parts(src), gone, root).value;
      && FlagSound(v, s) && |src| < PATH_ROOM
      && (if !IsDir(Ent(v, s)) || !Occupied(v, s, gone) then
            After(v, st, src, gone, recursive, root) == Dropped(v, s, gone)
          else if !recursive then After(v, st, src, gone, recursive, root) == gone
          else
            var g := SweptBefore(v, st, src, gone, s, TABLE_SIZE);
            && After(v, st, src, gone, recursive, root) == Dropped(v, s, g)
            && EntriesReady(v, st, src, gone, s, TABLE_SIZE) && !DirGone(v, s.dir, g))
  {
    hide Tree, Picked, Parts, Walk, Grounded, StartStays, FlagSound, Dropped, EntriesReady, SweptBefore, DirGone, Stuck;
    var s := Picked(v, st, Parts(src), gone, root).value;
    if IsDir(Ent(v, s)) && !Occupied(v, s, gone) {
      NothingSwept(v, st, src, gone, s, TABLE_SIZE);
    }
  }

  lemma {:induction false} NothingSwept(v: Vol, st: seq<Frame>, src: Text, gone: set<Slot>, s: Slot, i: nat)
    requires Tree(v) && |st| > 0 && s in v.chains && IsSlot(v, s) && IsDir(Ent(v, s)) && i <= TABLE_SIZE
    requires EntriesGone(v, Ent(v, s).cluster, gone)
    ensures SweptBefore(v, st, src, gone, s, i) == gone
    decreases i
  {
    hide Tree, After, Spelled;
    if i > 1 {
      NothingSwept(v, st, src, gone, s, i - 1);
    }
  }

  lemma StillThere(v: Vol, w: Vol, g: set<Slot>, s: Slot)
    requires Cleared(v, w, g) && s in v.chains && IsSlot(v, s) && !DirGone(v, s.dir, g)
    ensures s.dir in w.tabs
  {
    hide Tree, DirGone, TableCleared, CellsCleared, OwnersCleared;
  }

  // Call rm for every live entry of a folder, with the path of the entry.
  method RmEntries(driver: Driver, tokenizer: Tokenizer, cwd: Cwd, src: Text, dirTable: array<Entry>,
                   ghost st: seq<Frame>, ghost d: Disk, ghost v: Vol, ghost gone: set<Slot>, ghost s: Slot)
    requires cwd.Shape() && cwd.Frames() == st && Anchored(st)
    requires Tree(v) && s in v.chains && IsSlot(v, s) && IsDir(Ent(v, s)) && Ent(v, s).cluster in v.tabs
    requires EntriesReady(v, st, src, gone, s, TABLE_SIZE) && |src| < PATH_ROOM
    requires Progress(driver, d, v, gone) && dirTable.Length == TABLE_SIZE && Apart(driver, dirTable)
    requires forall j :: 1 <= j < TABLE_SIZE ==>
      if Slot(Ent(v, s).cluster, j) in gone then !Live(dirTable[j])
      else SameEntry(dirTable[j], v.tabs[Ent(v, s).cluster][j])
    modifies driver`vol, driver.device, driver.device.image, driver.fatTable, driver.dirTableBuf, tokenizer
    ensures Progress(driver, d, v, SweptBefore(v, st, src, gone, s, TABLE_SIZE))
    decreases Slack(src), 0
  {
    hide Inv, Rep, Formatted, Cleared, FilesCleared, FlagsStay, Resolve, FramesOf, Chosen, Picked, SweptBefore;
    hide Parts, Unpad, NameAndExt, Leads, Tree, StartStays, HasLive, RmReady, After, EntriesReady, NameText;
    ghost var k := Ent(v, s).cluster;
    TurnStarts(v, st, src, gone, s);
    for i := 1 to TABLE_SIZE
      invariant Progress(driver, d, v, SweptBefore(v, st, src, gone, s, i))
    {
      var e := dirTable[i];
      LiveSlot(v, Slot(k, i));
      TurnIsCall(v, st, src, gone, s, i);
      if Live(e) {
        SameText(e, v.tabs[k][i]);
        Rm(driver, tokenizer, cwd, Spelled(src, e), true, false, d, v, SweptBefore(v, st, src, gone, s, i));
      }
    }
  }

  lemma SameText(e: Entry, f: Entry)
    requires SameEntry(e, f)
    ensures NameText(e) == NameText(f)
  {
    hide Unpad;
  }

  lemma {:induction false} TurnStarts(v: Vol, st: seq<Frame>, src: Text, gone: set<Slot>, s: Slot)
    requires Tree(v) && |st| > 0 && s in v.chains && IsSlot(v, s) && IsDir(Ent(v, s))
    ensures SweptBefore(v, st, src, gone, s, 1) == gone
  {
    hide Tree;
  }

  // The turn of an entry is the call for its path.
  lemma {:induction false} TurnIsCall(v: Vol, st: seq<Frame>, src: Text, gone: set<Slot>, s: Slot, i: nat)
    requires Tree(v) && |st| > 0 && s in v.chains && IsSlot(v, s) && IsDir(Ent(v, s)) && 1 <= i < TABLE_SIZE
    requires EntriesReady(v, st, src, gone, s, TABLE_SIZE)
    ensures var q, g := Slot(Ent(v, s).cluster, i), SweptBefore(v, st, src, gone, s, i);
      if q in v.chains && q !in gone then
        && IsSlot(v, q) && |src| < |Spelled(src, Ent(v, q))| < PATH_ROOM
        && RmReady(v, st, Spelled(src, Ent(v, q)), g, true, false)
        && SweptBefore(v, st, src, gone, s, i + 1) == After(v, st, Spelled(src, Ent(v, q)), g, true, false)
      else SweptBefore(v, st, src, gone, s, i + 1) == g
  {
    hide Tree, After, RmReady, Spelled;
    EntriesReadyBefore(v, st, src, gone, s, i + 1, TABLE_SIZE);
    SlotsAreThere(v, Slot(Ent(v, s).cluster, i));
  }

  lemma {:induction false} EntriesReadyBefore(v: Vol, st: seq<Frame>, src: Text, gone: set<Slot>, s: Slot,
      i: nat, j: nat)
    requires Tree(v) && |st| > 0 && s in v.chains && IsSlot(v, s) && IsDir(Ent(v, s)) && i <= j <= TABLE_SIZE
    requires EntriesReady(v, st, src, gone, s, j)
    ensures EntriesReady(v, st, src, gone, s, i)
    decreases j
  {
    hide Tree, SweptBefore, RmReady, Spelled;
    if i < j && j > 1 {
      EntriesReadyBefore(v, st, src, gone, s, i, j - 1);
    }
  }

  // The rm of the shell: exactly what its paths lead to is gone, and every other file holds what it held.
  method Remove(driver: Driver, tokenizer: Tokenizer, cwd: Cwd, src: Text, recursive: bool)
    requires driver.Intact() && cwd.Shape() && Anchored(cwd.Frames())
    requires RmReady(driver.vol, cwd.Frames(), src, {}, recursive, true)
    modifies driver`vol, driver.device, driver.device.image, driver.fatTable, driver.dirTableBuf, tokenizer
    ensures driver.Intact() && (old(driver.Valid()) ==> driver.Valid())
    ensures var v := old(driver.vol);
      var gone := After(v, cwd.Frames(), src, {}, recursive, true);
      Cleared(v, driver.vol, gone) && FilesCleared(old(driver.Content()), v, driver.Content(), driver.vol, gone)
  {
    hide Inv, Rep, Formatted, Cleared, RmReady, Picked, Parts, FramesOf, After, Tree, FileAt, StackOk;
    ghost var d, v := driver.Content(), driver.vol;
    ClearedNothing(v);
    Rm(driver, tokenizer, cwd, src, recursive, true, d, v, {});
  }
}
