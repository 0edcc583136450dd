// Reading files and folders: return codes, the access stamp, and the fact that nothing else changes.
module Reading {
  import opened Layout
  import opened Volume
  import opened Disks
  import opened Operations
  import opened Deleting
  import Writing

  function ReadCode(t: Table, req: Request): int {
    if req.size < CLUSTER_SIZE || !IsDir(t[0]) then -1
    else
      var i := First(t, FileKey(req.name, req.ext));
      if i < TABLE_SIZE then (if req.size < t[i].filesize then 2 else 0)
      else if First(t, Folder(req.name)) < TABLE_SIZE then 1
      else 3
  }

  function ReadFolderCode(t: Table, req: Request): int {
    if !IsDir(t[0]) then -1
    else if First(t, FolderKey(req.name, req.ext)) < TABLE_SIZE then (if req.size >= CLUSTER_SIZE then 0 else 2)
    else if First(t, Key(req.name, req.ext)) < TABLE_SIZE then 1
    else 3
  }

  function Accessed(e: Entry, now: Stamp): Entry {
    e.(times := e.times.(accessDate := now.date))
  }

  // The volume after slot `s` has been read.
  ghost function Visited(v: Vol, s: Slot, now: Stamp): Vol
    requires IsSlot(v, s)
  {
    v.(tabs := v.tabs[s.dir := v.tabs[s.dir][s.index := Accessed(Ent(v, s), now)]])
  }

  function VisitLog(v: Vol, s: Slot, now: Stamp): seq<ClusterWrite>
    requires IsSlot(v, s) && s.dir < DISK_CLUSTERS
  {
    [PutTable(s.dir, v.tabs[s.dir][s.index := Accessed(Ent(v, s), now)])]
  }

  lemma SameMatches(t: Table, u: Table, p: Pattern)
    requires forall j :: 0 <= j < TABLE_SIZE ==> SameEntry(u[j], t[j])
    ensures First(u, p) == First(t, p)
  {
    FirstIs(u, p, First(t, p));
  }

  lemma VisitTouches(v: Vol, s: Slot, now: Stamp)
    requires Tree(v) && s in v.chains
    ensures IsSlot(v, s)
    ensures Touched(v, Visited(v, s, now), s, Accessed(Ent(v, s), now))
  {
    hide DirOk, IsChain;
    assert SlotOk(v, s);
  }

  // Reading changes no binding: only a time stamp moves.
  lemma {:induction false} VisitKeepsNames(d: Disk, v: Vol, s: Slot, now: Stamp, f: FileName)
    requires Rep(d, v) && Tree(v) && s in v.chains && s.dir < DISK_CLUSTERS
    ensures IsSlot(v, s)
    ensures var e, w := Apply(d, VisitLog(v, s, now)), Visited(v, s, now);
      && Rep(e, w) && Tree(w) && (Inv(v) ==> Inv(w)) && (NoLeak(v) ==> NoLeak(w))
      && FileAt(e, w, f) == FileAt(d, v, f)
      && FolderAt(w, f.dir, f.name) == FolderAt(v, f.dir, f.name)
  {
    hide AsTable, EncodeTable, AsFat, EncodeFat, SlotOk, DirOk, First, FirstFrom;
    VisitTouches(v, s, now);
    var e, w := Apply(d, VisitLog(v, s, now)), Visited(v, s, now);
    TouchedKeepsInv(v, w, s, Accessed(Ent(v, s), now));
    VisitRep(d, v, s, now);
    forall p: Pattern
      ensures First(w.tabs[s.dir], p) == First(v.tabs[s.dir], p)
    {
      SameMatches(v.tabs[s.dir], w.tabs[s.dir], p);
    }
    VisitFiles(d, e, v, w, s, f);
  }

  lemma {:induction false} VisitRep(d: Disk, v: Vol, s: Slot, now: Stamp)
    requires Rep(d, v) && Tree(v) && IsSlot(v, s) && s.dir < DISK_CLUSTERS
    ensures Rep(Apply(d, VisitLog(v, s, now)), Visited(v, s, now))
    ensures forall c :: 0 <= c < DISK_CLUSTERS && c != s.dir ==> Apply(d, VisitLog(v, s, now))[c] == d[c]
  {
    hide AsTable, EncodeTable, AsFat, EncodeFat, SlotOk, First, FirstFrom, Accessed;
    var t := v.tabs[s.dir][s.index := Accessed(Ent(v, s), now)];
    ApplyTwo(d, PutTable(s.dir, t), PutTable(s.dir, t));
    AsTableIs(EncodeTable(t), t);
    assert DirOk(v, s.dir);
  }

  lemma VisitFiles(d: Disk, e: Disk, v: Vol, w: Vol, s: Slot, f: FileName)
    requires Tree(v) && Tree(w) && IsSlot(v, s) && w.chains == v.chains && w.tabs.Keys == v.tabs.Keys
    requires forall c, j :: c in v.tabs && 0 <= j < TABLE_SIZE ==> SameEntry(w.tabs[c][j], v.tabs[c][j])
    requires forall c :: 0 <= c < DISK_CLUSTERS && c != s.dir ==> e[c] == d[c]
    ensures FileAt(e, w, f) == FileAt(d, v, f)
  {
    hide SlotOk, DirOk, First, FirstFrom;
    if f.dir in v.tabs {
      var i := First(v.tabs[f.dir], FileKey(f.name, f.ext));
      SameMatches(v.tabs[f.dir], w.tabs[f.dir], FileKey(f.name, f.ext));
      var q := Slot(f.dir, i);
      if i < TABLE_SIZE {
        assert Covered(v, q);
        forall k | k in v.chains[q]
          ensures k < CLUSTER_MAP_SIZE && e[k] == d[k]
        {
          Writing.FileCellIsNoDir(v, q, k);
        }
      }
    }
    FileAtFrame(d, e, v, w, f);
  }

  /* Return codes do not depend on the order of the slots */

  lemma FileSize(d: Disk, v: Vol, f: FileName)
    requires Tree(v) && f.dir in v.tabs
    ensures var i := First(v.tabs[f.dir], FileKey(f.name, f.ext));
      && (FileAt(d, v, f).Some? <==> i < TABLE_SIZE)
      && (i < TABLE_SIZE ==> |FileAt(d, v, f).value| == v.tabs[f.dir][i].filesize)
  {
    hide SlotOk, DirOk, First, FirstFrom;
    var i := First(v.tabs[f.dir], FileKey(f.name, f.ext));
    if i < TABLE_SIZE {
      assert Covered(v, Slot(f.dir, i));
      ContentsFit(v, Slot(f.dir, i));
    }
  }

  // What read returns, in terms of the names bound in the directory.
  lemma ReadCodeExact(d: Disk, v: Vol, req: Request)
    requires Tree(v) && req.parent in v.tabs
    ensures ReadCode(v.tabs[req.parent], req) ==
      if req.size < CLUSTER_SIZE then -1
      else match FileAt(d, v, FileName(req.parent, req.name, req.ext))
        case Some(data) => if req.size < |data| then 2 else 0
        case None => if FolderAt(v, req.parent, req.name).Some? then 1 else 3
  {
    hide SlotOk, First, FirstFrom;
    assert DirOk(v, req.parent);
    FileSize(d, v, FileName(req.parent, req.name, req.ext));
  }

  lemma KeyIsEither(t: Table, name: Name, ext: Ext)
    ensures First(t, Key(name, ext)) < TABLE_SIZE
      <==> First(t, FileKey(name, ext)) < TABLE_SIZE || First(t, FolderKey(name, ext)) < TABLE_SIZE
  {
    var k, i, j := First(t, Key(name, ext)), First(t, FileKey(name, ext)), First(t, FolderKey(name, ext));
    assert k < TABLE_SIZE ==> Matches(t[k], FileKey(name, ext)) || Matches(t[k], FolderKey(name, ext));
    assert i < TABLE_SIZE ==> Matches(t[i], Key(name, ext));
    assert j < TABLE_SIZE ==> Matches(t[j], Key(name, ext));
  }

  // Folders are found under the empty extension only.
  lemma FolderKeyNeedsNoExt(v: Vol, c: nat, name: Name, ext: Ext)
    requires Tree(v) && c in v.tabs
    ensures First(v.tabs[c], FolderKey(name, ext)) < TABLE_SIZE <==> ext == ZERO_EXT && FolderAt(v, c, name).Some?
  {
    hide SlotOk, DirOk, FirstFrom;
    var i := First(v.tabs[c], FolderKey(name, ext));
    FolderIsFolderKey(v, c, name);
    if i < TABLE_SIZE {
      FoldersHaveNoExt(v, c, i);
    }
  }

  lemma ReadFolderCodeExact(d: Disk, v: Vol, req: Request)
    requires Tree(v) && req.parent in v.tabs
    ensures ReadFolderCode(v.tabs[req.parent], req) ==
      if req.ext == ZERO_EXT && FolderAt(v, req.parent, req.name).Some? then (if req.size >= CLUSTER_SIZE then 0 else 2)
      else if FileAt(d, v, FileName(req.parent, req.name, req.ext)).Some? then 1
      else 3
  {
    hide SlotOk, First, FirstFrom;
    assert DirOk(v, req.parent);
    FileSize(d, v, FileName(req.parent, req.name, req.ext));
    FolderKeyNeedsNoExt(v, req.parent, req.name, req.ext);
    KeyIsEither(v.tabs[req.parent], req.name, req.ext);
  }

  // A delete fails with 1 exactly when nothing has the name, and with 2 exactly when what it finds
  // first is a folder with something in it, as far as the flag tells: no directory is then orphaned.
  lemma DeleteCodeExact(d: Disk, v: Vol, req: Request)
    requires Tree(v) && req.parent in v.tabs
    ensures Inv(v) ==> FlagTells(v, req)
    ensures DeleteCode(v, req) == 1 <==>
      && FileAt(d, v, FileName(req.parent, req.name, req.ext)).None?
      && !(req.ext == ZERO_EXT && FolderAt(v, req.parent, req.name).Some?)
    ensures FlagTells(v, req) ==> (DeleteCode(v, req) == 2 <==>
      var i := Target(v.tabs[req.parent], req);
      i < TABLE_SIZE && IsDir(v.tabs[req.parent][i]) &&
      v.tabs[req.parent][i].cluster in v.tabs && HasLive(v.tabs[v.tabs[req.parent][i].cluster]))
    ensures DeleteCode(v, req) in {0, 1, 2}
  {
    hide SlotOk, First, FirstFrom;
    assert DirOk(v, req.parent);
    FileSize(d, v, FileName(req.parent, req.name, req.ext));
    FolderKeyNeedsNoExt(v, req.parent, req.name, req.ext);
    KeyIsEither(v.tabs[req.parent], req.name, req.ext);
    if Inv(v) {
      FlagsTell(v, req);
    }
  }
}
