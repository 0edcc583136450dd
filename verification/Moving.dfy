// move_dir: relinking a folder under another directory.
module Moving {
  import opened Layout
  import opened Volume
  import opened Pruning
  import opened Disks
  import opened Shown
  import opened Operations
  import opened Writing
  import opened Renaming

  // The entry in the new parent: that of the header's own name.
  function MovedEntry(header: Entry, k: U32, now: Stamp): Entry {
    RelinkedEntry(header, header.name, header.ext, k, now)
  }

  function Unlinked(t: Table, i: nat): Table
    requires i < TABLE_SIZE
  {
    t[i := t[i].(undelete := 0)]
  }

  function Reparented(t: Table, q: U32): Table {
    t[0 := t[0].(cluster := q)]
  }

  // The table of the target once the folder has left its old slot.
  function TargetTable(v: Vol, s: Slot, q: nat): Table
    requires IsSlot(v, s) && q in v.tabs
  {
    if q == s.dir then Unlinked(v.tabs[q], s.index) else v.tabs[q]
  }

  // The target is a directory that has a dead slot once the folder has left its old one.
  ghost predicate Roomy(v: Vol, s: Slot, q: nat)
    requires IsSlot(v, s)
  {
    q in v.tabs && (q == s.dir || First(v.tabs[q], Dead) < TABLE_SIZE)
  }

  // The target has no other folder of the name.
  ghost predicate FreeIn(v: Vol, s: Slot, q: nat)
    requires IsSlot(v, s)
  {
    q == s.dir || FolderAt(v, q, Ent(v, s).name).None?
  }

  // The slot `s` is a live folder; the target is a directory outside it that has room and no folder of the
  // same name.
  ghost predicate Movable(v: Vol, s: Slot, q: nat) {
    IsFolder(v, s) && Roomy(v, s, q) && !Under(v, Ent(v, s).cluster, q) && FreeIn(v, s, q)
  }

  lemma RoomIsThere(v: Vol, s: Slot, q: nat)
    requires IsSlot(v, s) && Roomy(v, s, q)
    ensures First(TargetTable(v, s, q), Dead) < TABLE_SIZE
  {
    if q == s.dir {
      assert Matches(TargetTable(v, s, q)[s.index], Dead);
    }
  }

  ghost function NewDepth(v: Vol, k: nat, q: nat): map<nat, nat>
    requires Tree(v) && k in v.tabs && q in v.tabs
  {
    map c | c in v.tabs :: if Under(v, k, c) then Shift(v, k, c) + v.depth[q] + 1 else v.depth[c]
  }

  ghost function Shift(v: Vol, k: nat, c: nat): nat
    requires Tree(v) && k in v.tabs && c in v.tabs && Under(v, k, c)
  {
    UnderIsDeeper(v, k, c);
    v.depth[c] - v.depth[k]
  }

  // The volume after the move of `s` to slot `r`.
  ghost predicate IsMoved(v: Vol, w: Vol, s: Slot, r: Slot, e: Entry, k: nat) {
    && Movable(v, s, r.dir) && r.dir < CLUSTER_MAP_SIZE && k == Ent(v, s).cluster && k != s.dir && k != r.dir
    && 1 <= r.index < TABLE_SIZE && !Live(TargetTable(v, s, r.dir)[r.index])
    && e.name == Ent(v, s).name && e.ext == ZERO_EXT && IsDir(e) && Live(e) && e.cluster == k
    && w.fat == v.fat
    && w.tabs == v.tabs[s.dir := Unlinked(v.tabs[s.dir], s.index)]
                       [r.dir := TargetTable(v, s, r.dir)[r.index := e]]
                       [k := Reparented(v.tabs[k], r.dir)]
    && w.depth == NewDepth(v, k, r.dir)
    && w.chains == (v.chains - {s})[r := [k]]
    && w.own == v.own[k := r]
  }

  lemma MovedSlotFacts(v: Vol, w: Vol, s: Slot, r: Slot, e: Entry, k: nat)
    requires IsMoved(v, w, s, r, e, k)
    ensures r == s || r !in v.chains
    ensures v.chains[s] == [k] && k in v.own && v.own[k] == s && k in v.tabs && k != ROOT_CLUSTER
    ensures forall q :: q in w.chains && q != r ==> q in v.chains && q != s && k !in v.chains[q]
    ensures forall q :: q in v.chains && q != s && q != r ==> IsSlot(w, q) && Ent(w, q) == Ent(v, q)
    ensures v.tabs[k][0].name == e.name && v.tabs[k][0].ext == ZERO_EXT && 3 <= k < CLUSTER_MAP_SIZE
  {
    hide DirOk, IsChain, First, FirstFrom, FolderAt, NewDepth, Under;
    FolderSlot(v, s);
    forall q | q in v.chains && q != s
      ensures k !in v.chains[q] && IsSlot(v, q) && Live(Ent(v, q))
    {
      assert SlotOk(v, q);
    }
  }

  lemma MovedSlots(v: Vol, w: Vol, s: Slot, r: Slot, e: Entry, k: nat)
    requires IsMoved(v, w, s, r, e, k)
    ensures forall q {:trigger SlotOk(w, q)} :: q in w.chains ==> SlotOk(w, q)
  {
    hide Blocks, DirOk, First, FirstFrom, FolderAt, NewDepth, Under, Increasing;
    MovedSlotFacts(v, w, s, r, e, k);
    assert SlotOk(v, s);
    forall q {:trigger SlotOk(w, q)} | q in w.chains
      ensures SlotOk(w, q)
    {
      if q == r {
        assert IsChild(w, k, r.dir, e);
      } else {
        assert SlotOk(v, q);
        if IsDir(Ent(v, q)) {
          assert Ent(v, q).cluster in v.chains[q];
        }
        SlotFrame(v, w, q);
      }
    }
  }

  lemma MovedHeaders(v: Vol, w: Vol, s: Slot, r: Slot, e: Entry, k: nat)
    requires IsMoved(v, w, s, r, e, k)
    ensures w.tabs.Keys == v.tabs.Keys
    ensures forall c :: c in v.tabs && c != k ==> w.tabs[c][0] == v.tabs[c][0]
    ensures k in v.tabs && w.tabs[k][0] == v.tabs[k][0].(cluster := r.dir)
    ensures forall j :: 1 <= j < TABLE_SIZE ==> w.tabs[k][j] == v.tabs[k][j]
  {
    hide SlotOk, DirOk, First, FirstFrom, FolderAt, NewDepth, Under;
  }

  lemma MovedDirs(v: Vol, w: Vol, s: Slot, r: Slot, e: Entry, k: nat)
    requires IsMoved(v, w, s, r, e, k)
    ensures forall c {:trigger DirOk(w, c)} :: c in w.tabs ==> DirOk(w, c)
  {
    hide SlotOk, First, FirstFrom, FolderAt, Under, Distinct, FlagExact, DeadCleared;
    MovedSlotFacts(v, w, s, r, e, k);
    MovedHeaders(v, w, s, r, e, k);
    forall c {:trigger DirOk(w, c)} | c in w.tabs
      ensures DirOk(w, c)
    {
      assert DirOk(v, c);
      if c == k {
        assert Under(v, k, k) by { UnderSelf(v, k); }
      } else if c != ROOT_CLUSTER {
        UnderStep(v, k, c);
        MovedHangs(v, w, s, r, e, k, c);
      }
    }
  }

  lemma MovedHangs(v: Vol, w: Vol, s: Slot, r: Slot, e: Entry, k: nat, c: nat)
    requires IsMoved(v, w, s, r, e, k) && c in v.tabs && c != k && c != ROOT_CLUSTER && DirOk(v, c)
    requires c in w.tabs && w.tabs[c][0] == v.tabs[c][0]
    ensures Hangs(w, c)
  {
    hide SlotOk, First, FirstFrom, FolderAt, Under, Distinct, FlagExact, DeadCleared;
    MovedSlotFacts(v, w, s, r, e, k);
    MovedHeaders(v, w, s, r, e, k);
    UnderStep(v, k, c);
  }

  lemma MovedKeys(v: Vol, w: Vol, s: Slot, r: Slot, e: Entry, k: nat)
    requires IsMoved(v, w, s, r, e, k)
    ensures forall c {:trigger KeysOk(w, c)} :: c in w.tabs ==> KeysOk(w, c)
  {
    hide SlotOk, DirOk, FirstFrom, Under, FlagExact, DeadCleared, NewDepth;
    MovedSlotFacts(v, w, s, r, e, k);
    forall c {:trigger KeysOk(w, c)} | c in w.tabs
      ensures KeysOk(w, c)
    {
      assert KeysOk(v, c);
      if c == r.dir {
        NoSuchFolder(v, s, r.dir);
      }
    }
  }

  // No other live folder of the target has the name.
  lemma NoSuchFolder(v: Vol, s: Slot, q: nat)
    requires Movable(v, s, q)
    ensures forall j :: 1 <= j < TABLE_SIZE && Live(v.tabs[q][j]) && IsDir(v.tabs[q][j]) && Slot(q, j) != s ==>
      v.tabs[q][j].name != Ent(v, s).name
  {
    hide SlotOk, DirOk, FirstFrom, Under, FlagExact, DeadCleared;
    if q == s.dir {
      OnlyFolderSlot(v, s);
    }
    forall j | 1 <= j < TABLE_SIZE && Live(v.tabs[q][j]) && IsDir(v.tabs[q][j]) && Slot(q, j) != s
      ensures v.tabs[q][j].name != Ent(v, s).name
    {
      assert !Matches(v.tabs[q][j], Folder(Ent(v, s).name));
    }
  }

  lemma MovedCells(v: Vol, w: Vol, s: Slot, r: Slot, e: Entry, k: nat)
    requires IsMoved(v, w, s, r, e, k)
    ensures forall c {:trigger CellOk(w, c)} :: c in w.own ==> CellOk(w, c)
    ensures Base(w)
  {
    hide SlotOk, DirOk, First, FirstFrom, FolderAt, Distinct, FlagExact, DeadCleared, Reparented;
    MovedSlotFacts(v, w, s, r, e, k);
    forall c {:trigger CellOk(w, c)} | c in w.own
      ensures CellOk(w, c)
    {
      if c != k {
        assert CellOk(v, c);
      }
    }
  }

  lemma MovedCovers(v: Vol, w: Vol, s: Slot, r: Slot, e: Entry, k: nat)
    requires IsMoved(v, w, s, r, e, k)
    ensures forall q {:trigger Covered(w, q)} :: Covered(w, q)
  {
    hide SlotOk, DirOk, First, FirstFrom, FolderAt, Distinct, FlagExact, DeadCleared, Under, NewDepth, KeysOk;
    hide CleanOk, Base;
    MovedSlotFacts(v, w, s, r, e, k);
    forall q {:trigger Covered(w, q)}
      ensures Covered(w, q)
    {
      assert Covered(v, q);
    }
  }

  // Moving a folder keeps the tree: it stays acyclic, header and entry agree, and every chain is
  // where it was.
  lemma MovedKeepsTree(v: Vol, w: Vol, s: Slot, r: Slot, e: Entry, k: nat)
    requires IsMoved(v, w, s, r, e, k)
    ensures Tree(w)
    ensures NoLeak(v) ==> NoLeak(w)
  {
    hide SlotOk, DirOk, First, FirstFrom, FolderAt, Under, Covered, CellOk, KeysOk, Base;
    MovedSlotFacts(v, w, s, r, e, k);
    MovedSlots(v, w, s, r, e, k);
    MovedDirs(v, w, s, r, e, k);
    MovedKeys(v, w, s, r, e, k);
    MovedCells(v, w, s, r, e, k);
    MovedCovers(v, w, s, r, e, k);
  }

  /* Names */

  lemma MovedFinds(v: Vol, w: Vol, s: Slot, r: Slot, e: Entry, k: nat, dir: nat, name: Name, ext: Ext)
    requires IsMoved(v, w, s, r, e, k) && dir in v.tabs
    ensures First(w.tabs[dir], FileKey(name, ext)) == First(v.tabs[dir], FileKey(name, ext))
    ensures FolderAt(w, dir, name) ==
      if name == e.name && dir == r.dir then Some(k)
      else if name == e.name && dir == s.dir then None
      else FolderAt(v, dir, name)
  {
    hide SlotOk, DirOk, First, FirstFrom, Under, Distinct, FlagExact, DeadCleared, NewDepth;
    MovedSlotFacts(v, w, s, r, e, k);
    FolderSlot(v, s);
    NoSuchFolder(v, s, r.dir);
    OnlyFolderSlot(v, s);
    var a := v.tabs[dir];
    var b := if dir == s.dir then Unlinked(a, s.index) else a;
    if dir == s.dir {
      FirstUnmoved(a, b, s.index, FileKey(name, ext));
      if name == e.name {
        FirstIs(b, Folder(name), TABLE_SIZE);
      } else {
        FirstUnmoved(a, b, s.index, Folder(name));
      }
    }
    if dir == r.dir {
      var u := b[r.index := e];
      assert w.tabs[dir] == u;
      FirstUnmoved(b, u, r.index, FileKey(name, ext));
      if name == e.name {
        FirstIsOnly(u, r.index, Folder(name));
      } else {
        FirstUnmoved(b, u, r.index, Folder(name));
      }
    } else if dir == k {
      SameSlotsFind(a, w.tabs[dir], FileKey(name, ext));
      SameSlotsFind(a, w.tabs[dir], Folder(name));
    } else {
      assert w.tabs[dir] == b;
    }
  }

  // A move rebinds exactly one folder and leaves the contents of every file alone.
  lemma MovedNames(d: Disk, b: Disk, v: Vol, w: Vol, s: Slot, r: Slot, e: Entry, k: nat, f: FileName)
    requires IsMoved(v, w, s, r, e, k) && Tree(w)
    requires forall c :: 0 <= c < DISK_CLUSTERS && c != FAT_CLUSTER && c != s.dir && c != r.dir && c != k ==>
      b[c] == d[c]
    ensures FileAt(b, w, f) == FileAt(d, v, f)
    ensures FolderAt(w, f.dir, f.name) ==
      if f.name == e.name && f.dir == r.dir then Some(k)
      else if f.name == e.name && f.dir == s.dir then None
      else FolderAt(v, f.dir, f.name)
  {
    hide SlotOk, DirOk, First, FirstFrom, Under, Distinct, FlagExact, DeadCleared, NewDepth, Unlinked;
    hide Reparented, TargetTable;
    MovedSlotFacts(v, w, s, r, e, k);
    if f.dir in v.tabs {
      MovedFinds(v, w, s, r, e, k, f.dir, f.name, f.ext);
      var q := Slot(f.dir, First(v.tabs[f.dir], FileKey(f.name, f.ext)));
      if q.index < TABLE_SIZE {
        assert Covered(v, q);
        forall c | c in v.chains[q]
          ensures c < CLUSTER_MAP_SIZE && b[c] == d[c]
        {
          FileCellIsNoDir(v, q, c);
        }
      }
    }
    FileAtFrame(d, b, v, w, f);
  }

  /* The flags */

  // Something else than slot `i` is in the table.
  ghost predicate HasOther(t: Table, i: nat) {
    exists j :: 1 <= j < TABLE_SIZE && j != i && Live(t[j])
  }

  // The move updates no header flag. So the flags stay exact precisely when it stays in one directory,
  // or the folder had company where it was and finds company where it goes.
  lemma MovedFlags(v: Vol, w: Vol, s: Slot, r: Slot, e: Entry, k: nat)
    requires Inv(v) && IsMoved(v, w, s, r, e, k)
    ensures FlagExact(w.tabs[s.dir]) <==> r.dir == s.dir || HasOther(v.tabs[s.dir], s.index)
    ensures FlagExact(w.tabs[r.dir]) <==> r.dir == s.dir || HasLive(v.tabs[r.dir])
    ensures forall c :: c in v.tabs && c != s.dir && c != r.dir ==> FlagExact(w.tabs[c])
  {
    hide SlotOk, DirOk, First, FirstFrom, Under, Distinct, DeadCleared, NewDepth, FolderAt;
    MovedHeaders(v, w, s, r, e, k);
    FolderSlot(v, s);
    assert CleanOk(v, s.dir) && CleanOk(v, r.dir);
    assert Live(v.tabs[s.dir][s.index]) && Live(w.tabs[r.dir][r.index]);
    if r.dir != s.dir {
      OldParentLive(v, w, s, r, e, k);
    }
    forall c | c in v.tabs && c != s.dir && c != r.dir
      ensures FlagExact(w.tabs[c])
    {
      assert CleanOk(v, c);
      assert forall j :: 1 <= j < TABLE_SIZE ==> w.tabs[c][j] == v.tabs[c][j];
      assert HasLive(w.tabs[c]) == HasLive(v.tabs[c]);
    }
  }

  lemma OldParentLive(v: Vol, w: Vol, s: Slot, r: Slot, e: Entry, k: nat)
    requires IsMoved(v, w, s, r, e, k) && r.dir != s.dir
    ensures HasLive(w.tabs[s.dir]) <==> HasOther(v.tabs[s.dir], s.index)
  {
    hide SlotOk, DirOk, First, FirstFrom, Under, Distinct, DeadCleared, FlagExact, NewDepth, FolderAt, CleanOk;
    var t, u := v.tabs[s.dir], w.tabs[s.dir];
    if HasOther(t, s.index) {
      var j :| 1 <= j < TABLE_SIZE && j != s.index && Live(t[j]);
      assert Live(u[j]);
    }
  }

  /* The disk */

  // After the visit of the read: the old parent, the new parent, the folder, and the map again.
  function MoveLog(t: Table, i: nat, p: ClusterNo, u: Table, q: ClusterNo, child: Table, k: ClusterNo,
                   fat: FatMap, now: Stamp): seq<ClusterWrite>
    requires i < TABLE_SIZE
  {
    var target := if q == p then Unlinked(t, i) else u;
    var m := First(target, Dead);
    [PutTable(p, Unlinked(t, i)),
     PutTable(q, if m < TABLE_SIZE then target[m := MovedEntry(child[0], k, now)] else target),
     PutTable(k, Reparented(child, q)),
     PutFat(fat)]
  }

  ghost function Moved(v: Vol, s: Slot, q: nat, now: Stamp): Vol
    requires Movable(v, s, q) && q < CLUSTER_MAP_SIZE
  {
    var k := Ent(v, s).cluster;
    var target := TargetTable(v, s, q);
    RoomIsThere(v, s, q);
    var r := Slot(q, First(target, Dead));
    Vol(v.fat,
        v.tabs[s.dir := Unlinked(v.tabs[s.dir], s.index)]
              [q := target[r.index := MovedEntry(v.tabs[k][0], k, now)]]
              [k := Reparented(v.tabs[k], q)],
        NewDepth(v, k, q), (v.chains - {s})[r := [k]], v.own[k := r])
  }

  lemma MovedIs(v: Vol, s: Slot, q: nat, now: Stamp)
    requires Movable(v, s, q) && q < CLUSTER_MAP_SIZE
    ensures var k := Ent(v, s).cluster;
      IsMoved(v, Moved(v, s, q, now), s, Slot(q, First(TargetTable(v, s, q), Dead)),
        MovedEntry(v.tabs[k][0], k, now), k)
  {
    hide SlotOk, DirOk, FirstFrom, FolderAt, NewDepth;
    RoomIsThere(v, s, q);
    FolderSlot(v, s);
    UnderSelf(v, Ent(v, s).cluster);
  }

  lemma {:induction false} ApplyFour(d: Disk, a: ClusterWrite, b: ClusterWrite, c: ClusterWrite, e: ClusterWrite)
    ensures Apply(d, [a, b, c, e]) == Put(Put(Put(Put(d, a), b), c), e)
  {
    ApplyThree(d, a, b, c);
    ApplyOne(d, [a, b, c], e);
    assert [a, b, c] + [e] == [a, b, c, e];
  }

  lemma ThreeTablesRep(d: Disk, v: Vol, w: Vol, p: ClusterNo, t: Table, q: ClusterNo, u: Table, k: ClusterNo, x: Table)
    requires Rep(d, v) && p != FAT_CLUSTER && q != FAT_CLUSTER && k != FAT_CLUSTER && p != k && q != k
    requires forall c :: c in v.tabs ==> c != FAT_CLUSTER
    requires w.tabs == v.tabs[p := t][q := u][k := x]
    ensures Rep(Put(Put(Put(Put(d, PutTable(p, t)), PutTable(q, u)), PutTable(k, x)), PutFat(w.fat)), w)
  {
    hide AsTable, EncodeTable, AsFat, EncodeFat;
    AsTableIs(EncodeTable(t), t);
    AsTableIs(EncodeTable(u), u);
    AsTableIs(EncodeTable(x), x);
    AsFatIs(EncodeFat(w.fat), w.fat);
  }

  // What move_dir leaves on disk, given that it clears the slot it should.
  lemma {:induction false} MovedRep(d: Disk, v: Vol, s: Slot, q: nat, now: Stamp)
    requires Rep(d, v) && Movable(v, s, q) && s.dir < DISK_CLUSTERS && q < CLUSTER_MAP_SIZE
    requires Ent(v, s).cluster < DISK_CLUSTERS
    ensures var k := Ent(v, s).cluster;
      Rep(Apply(d, MoveLog(v.tabs[s.dir], s.index, s.dir, v.tabs[q], q, v.tabs[k], k, v.fat, now)), Moved(v, s, q, now))
  {
    hide AsTable, EncodeTable, AsFat, EncodeFat, SlotOk, First, FirstFrom, FolderAt, NewDepth, MovedEntry;
    hide Reparented, Unlinked;
    FolderSlot(v, s);
    MovedIs(v, s, q, now);
    forall c | c in v.tabs
      ensures c != FAT_CLUSTER
    {
      DirCell(v, c);
    }
    var k, w := Ent(v, s).cluster, Moved(v, s, q, now);
    var t := Unlinked(v.tabs[s.dir], s.index);
    ApplyFour(d, PutTable(s.dir, t), PutTable(q, w.tabs[q]), PutTable(k, w.tabs[k]), PutFat(w.fat));
    ThreeTablesRep(d, v, w, s.dir, t, q, w.tabs[q], k, w.tabs[k]);
  }

  lemma {:induction false} MovedShows(d: Disk, v: Vol, s: Slot, q: nat, now: Stamp)
    requires Rep(d, v) && Movable(v, s, q) && s.dir < DISK_CLUSTERS && q < CLUSTER_MAP_SIZE
    requires Ent(v, s).cluster < DISK_CLUSTERS
    ensures var k := Ent(v, s).cluster;
      Shows(Apply(d, MoveLog(v.tabs[s.dir], s.index, s.dir, v.tabs[q], q, v.tabs[k], k, v.fat, now)),
        Moved(v, s, q, now))
  {
    hide Tree, Rep, First, FirstFrom, FolderAt, NewDepth, MoveLog, Under, Moved;
    var k, w := Ent(v, s).cluster, Moved(v, s, q, now);
    MovedRep(d, v, s, q, now);
    MovedIs(v, s, q, now);
    MovedKeepsTree(v, w, s, Slot(q, First(TargetTable(v, s, q), Dead)), MovedEntry(v.tabs[k][0], k, now), k);
  }
}
