// A delete undoes a write. What it does not restore is what a move has left: a dead slot that is not zero,
// and a wrong flag. And for a folder, no file may stand in the way.
module Undo {
  import opened Layout
  import opened Volume
  import opened Pruning
  import opened Operations
  import opened Writing
  import opened Deleting

  // The slot is zero and the flag is exact, as they are in every table until a folder is moved.
  ghost predicate Spotless(t: Table, i: nat)
    requires i < TABLE_SIZE
  {
    t[i] == ZERO_ENTRY && FlagExact(t)
  }

  // The table once the slot is zero and the flag exact.
  ghost function Undone(t: Table, i: nat): Table
    requires 1 <= i < TABLE_SIZE
  {
    t[0 := t[0].(userAttribute := if HasLive(t) then UATTR_NOT_EMPTY else 0)][i := ZERO_ENTRY]
  }

  lemma FilledThenEmptied(t: Table, i: nat, e: Entry)
    requires 1 <= i < TABLE_SIZE && !Live(t[i])
    ensures Emptied(Filled(t, i, e), i) == Undone(t, i)
    ensures Undone(t, i) == t <==> Spotless(t, i)
  {
    var u := Filled(t, i, e)[i := ZERO_ENTRY];
    assert forall j :: 1 <= j < TABLE_SIZE ==> Live(u[j]) == Live(t[j]);
    assert HasLive(u) == HasLive(t);
    assert Undone(t, i)[0].userAttribute == t[0].userAttribute ==> Undone(t, i)[0] == t[0];
  }

  // As long as the invariant holds, every dead slot is spotless.
  lemma SpotlessIfInv(v: Vol, s: Slot)
    requires Inv(v) && IsSlot(v, s) && !Live(Ent(v, s))
    ensures Spotless(v.tabs[s.dir], s.index)
  {
    hide FlagExact;
    CleanTable(v, s.dir);
  }

  lemma LinkedThenFreed(f: FatMap, g: FatMap, cs: seq<nat>)
    requires forall k :: k in cs ==> k < CLUSTER_MAP_SIZE && f[k] == 0
    requires forall k :: 0 <= k < CLUSTER_MAP_SIZE && k !in cs ==> g[k] == f[k]
    ensures Freed(g, cs) == f
  {
  }

  // Removing the slot that was just filled gives back every part of the volume but that table.
  lemma AddThenRemove(v: Vol, w: Vol, u: Vol, s: Slot, e: Entry, cs: seq<nat>)
    requires FileAdded(v, w, s, e, cs) && Removed(w, u, s)
    ensures u == v.(tabs := v.tabs[s.dir := Undone(v.tabs[s.dir], s.index)])
  {
    hide Filled, Emptied, Freed, Distinct, FlagExact, DeadCleared, Blocks, IsChain, SlotOk, DirOk, Covered;
    hide Base, KeysOk, Undone;
    FilledThenEmptied(v.tabs[s.dir], s.index, e);
    FilledSlots(v.tabs[s.dir], s.index, e);
    LinkedThenFreed(v.fat, w.fat, cs);
    NewIsUnowned(v, s, cs);
    assert u.tabs == v.tabs[s.dir := Undone(v.tabs[s.dir], s.index)];
    assert u.chains == v.chains;
    assert u.own == v.own;
  }

  lemma NewIsUnowned(v: Vol, s: Slot, cs: seq<nat>)
    requires Tree(v) && IsSlot(v, s) && !Live(Ent(v, s))
    requires forall k :: k in cs ==> k < CLUSTER_MAP_SIZE && v.fat[k] == 0
    ensures s !in v.chains && forall k :: k in cs ==> k !in v.own
  {
    hide IsChain;
    assert s in v.chains ==> SlotOk(v, s);
    forall k | k in cs
      ensures k !in v.own
    {
      if k in v.own {
        OwnedCell(v, k);
      }
    }
  }

  // Writing a file and deleting it again restores the map, the whole structure and all tables, but for
  // the flag and the dead slot of the parent if a move had left them wrong.
  lemma FileUndo(v: Vol, req: Request, now: Stamp, del: Request)
    requires FileWritable(v, req)
    requires del.name == req.name && del.ext == req.ext && del.parent == req.parent
    ensures Deletable(FileWritten(v, req, now), del)
    ensures var s, u := NewSlot(v, req), Deleted(FileWritten(v, req, now), del);
      && u == v.(tabs := v.tabs[s.dir := Undone(v.tabs[s.dir], s.index)])
      && (u == v <==> Spotless(v.tabs[s.dir], s.index))
      && (Inv(v) ==> u == v)
  {
    hide Undone, Spotless, FlagExact, Filled, First, Tree, IsLeaf;
    var s, e, cs := NewSlot(v, req), NewFile(v, req, now), FileChain(v.fat, req.size);
    var w := FileWritten(v, req, now);
    FileWrittenAdds(v, req, now);
    FileAddedKeepsInv(v, w, s, e, cs);
    NewFileIsTarget(v, w, s, e, cs, del);
    DeletedRemoves(w, del);
    AddThenRemove(v, w, Deleted(w, del), s, e, cs);
    FilledThenEmptied(v.tabs[s.dir], s.index, e);
    OneTable(v, s.dir, Undone(v.tabs[s.dir], s.index));
    if Inv(v) {
      SpotlessIfInv(v, s);
    }
  }

  lemma OneTable(v: Vol, c: nat, t: Table)
    requires c in v.tabs
    ensures v.(tabs := v.tabs[c := t]) == v <==> t == v.tabs[c]
  {
    assert v.(tabs := v.tabs[c := t]).tabs[c] == t;
  }

  lemma NewFileIsTarget(v: Vol, w: Vol, s: Slot, e: Entry, cs: seq<nat>, del: Request)
    requires FileAdded(v, w, s, e, cs) && Tree(w)
    requires First(v.tabs[s.dir], Key(e.name, e.ext)) == TABLE_SIZE
    requires del.name == e.name && del.ext == e.ext && del.parent == s.dir
    ensures Deletable(w, del) && TargetSlot(w, del) == s && IsLeaf(w, s)
  {
    hide Filled, Distinct, FlagExact, DeadCleared, Blocks, IsChain, SlotOk, Covered, FirstFrom, First;
    FilledSlots(v.tabs[s.dir], s.index, e);
    FirstIsOnly(w.tabs[s.dir], s.index, Key(e.name, e.ext));
    assert DirOk(w, s.dir);
  }

  /* Folders */

  lemma AddFolderThenRemove(v: Vol, w: Vol, u: Vol, s: Slot, e: Entry, k: nat, table: Table)
    requires FolderAdded(v, w, s, e, k, table) && k !in v.tabs && Removed(w, u, s)
    ensures u == v.(tabs := v.tabs[s.dir := Undone(v.tabs[s.dir], s.index)])
  {
    hide Filled, Emptied, Freed, Distinct, FlagExact, DeadCleared, Blocks, IsChain, SlotOk, DirOk, Covered;
    hide KeysOk, Undone;
    FilledThenEmptied(v.tabs[s.dir], s.index, e);
    FilledSlots(v.tabs[s.dir], s.index, e);
    LinkedThenFreed(v.fat, w.fat, [k]);
    NewIsUnowned(v, s, [k]);
    assert k in [k] && k !in v.own;
    assert u.tabs == v.tabs[s.dir := Undone(v.tabs[s.dir], s.index)];
    assert u.depth == v.depth;
    assert u.chains == v.chains;
    assert u.own == v.own;
  }

  // Deleting a folder right after making it restores the volume exactly when no live file without an
  // extension has the same name in an earlier slot, and no move had left the slot or the flag wrong.
  // If there is such a file, it is what the delete finds.
  lemma FolderUndo(v: Vol, req: Request, now: Stamp, del: Request)
    requires FolderWritable(v, req)
    requires del.name == req.name && del.ext == ZERO_EXT && del.parent == req.parent
    ensures Deletable(FolderMade(v, req, now), del)
    ensures var s, u := NewSlot(v, req), Deleted(FolderMade(v, req, now), del);
      var alone := s.index < First(v.tabs[req.parent], Key(req.name, ZERO_EXT));
      && (alone ==> u == v.(tabs := v.tabs[s.dir := Undone(v.tabs[s.dir], s.index)]))
      && (u == v <==> alone && Spotless(v.tabs[s.dir], s.index))
      && (Inv(v) ==> (u == v <==> alone))
  {
    hide Undone, Spotless, FlagExact, Filled, First, Tree, IsLeaf;
    var s, k := NewSlot(v, req), NewCluster(v.fat);
    var e, table := FolderEntry(req, k, now), NewTable(req.name, req.parent, now);
    var w := FolderMade(v, req, now);
    FolderMadeAdds(v, req, now);
    FolderAddedKeepsInv(v, w, s, e, k, table);
    FolderTarget(v, w, s, e, k, table, del);
    DeletedRemoves(w, del);
    FilledThenEmptied(v.tabs[s.dir], s.index, e);
    if s.index < First(v.tabs[s.dir], Key(req.name, ZERO_EXT)) {
      AddFolderThenRemove(v, w, Deleted(w, del), s, e, k, table);
      OneTable(v, s.dir, Undone(v.tabs[s.dir], s.index));
    } else {
      RemovedIsGone(v, w, Deleted(w, del), TargetSlot(w, del));
    }
    if Inv(v) {
      SpotlessIfInv(v, s);
    }
  }

  lemma FolderTarget(v: Vol, w: Vol, s: Slot, e: Entry, k: nat, table: Table, del: Request)
    requires FolderAdded(v, w, s, e, k, table) && Tree(w) && k !in v.tabs
    requires del.name == e.name && del.ext == ZERO_EXT && del.parent == s.dir
    requires First(v.tabs[s.dir], Folder(e.name)) == TABLE_SIZE
    ensures Deletable(w, del) && IsLeaf(w, TargetSlot(w, del))
    ensures var i := First(v.tabs[s.dir], Key(e.name, ZERO_EXT));
      && (s.index < i ==> TargetSlot(w, del) == s)
      && (i <= s.index ==> i < s.index && TargetSlot(w, del) == Slot(s.dir, i) && Slot(s.dir, i) in v.chains)
  {
    hide Filled, Distinct, FlagExact, DeadCleared, Blocks, IsChain, SlotOk, FirstFrom, First;
    FilledSlots(v.tabs[s.dir], s.index, e);
    assert DirOk(w, s.dir);
    var i := First(v.tabs[s.dir], Key(e.name, ZERO_EXT));
    if s.index < i {
      FirstIs(w.tabs[s.dir], Key(e.name, ZERO_EXT), s.index);
    } else {
      FirstIs(w.tabs[s.dir], Key(e.name, ZERO_EXT), i);
      assert Covered(v, Slot(s.dir, i));
    }
  }

  lemma RemovedIsGone(v: Vol, w: Vol, u: Vol, s: Slot)
    requires Removed(w, u, s) && s in v.chains
    ensures u != v
  {
    assert s !in u.chains;
  }
}
