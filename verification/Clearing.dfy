// Clearing a set of slots: what is left of a tree when they and their clusters are gone. Deletes and
// reads are steps of it.
module Clearing {
  import opened Layout
  import opened Volume
  import opened Pruning
  import opened Disks
  import opened Operations
  import opened Deleting
  import opened Calls

  // The directory was named by a slot that is gone.
  ghost predicate DirGone(v: Vol, c: nat, gone: set<Slot>) {
    c != ROOT_CLUSTER && c in v.own && v.own[c] in gone
  }

  // Exactly the clusters of the slots that are gone have been freed.
  ghost predicate CellsCleared(v: Vol, w: Vol, gone: set<Slot>) {
    forall k :: 0 <= k < CLUSTER_MAP_SIZE ==> w.fat[k] == if k in v.own && v.own[k] in gone then 0 else v.fat[k]
  }

  predicate HeaderKept(a: Entry, b: Entry) {
    a == b.(times := a.times, userAttribute := a.userAttribute)
  }

  ghost predicate TableCleared(t: Table, u: Table, c: nat, gone: set<Slot>) {
    && HeaderKept(u[0], t[0])
    && forall j :: 1 <= j < TABLE_SIZE ==> if Slot(c, j) in gone then !Live(u[j]) else SameEntry(u[j], t[j])
  }

  ghost predicate TablesCleared(v: Vol, w: Vol, gone: set<Slot>) {
    && (forall c :: c in w.tabs <==> c in v.tabs && !DirGone(v, c, gone))
    && (forall c :: c in w.tabs ==> TableCleared(v.tabs[c], w.tabs[c], c, gone))
  }

  ghost predicate OwnersCleared(v: Vol, w: Vol, gone: set<Slot>) {
    && (forall k :: k in w.own <==> k in v.own && v.own[k] !in gone)
    && (forall k :: k in w.own ==> w.own[k] == v.own[k])
  }

  // `w` is `v` without the slots of `gone`, up to time stamps and the flags of the headers.
  ghost predicate Cleared(v: Vol, w: Vol, gone: set<Slot>) {
    && Tree(v) && gone <= v.chains.Keys
    && CellsCleared(v, w, gone) && TablesCleared(v, w, gone) && OwnersCleared(v, w, gone)
    && w.chains == v.chains - gone
    && w.depth.Keys == w.tabs.Keys && forall c :: c in w.depth && c in v.depth ==> w.depth[c] == v.depth[c]
  }

  lemma ClearedNothing(v: Vol)
    requires Tree(v)
    ensures Cleared(v, v, {})
  {
    hide SlotOk, DirOk;
    assert v.chains - {} == v.chains;
  }

  lemma ClearedLooked(v: Vol, w: Vol, x: Vol, gone: set<Slot>)
    requires Cleared(v, w, gone) && Looked(w, x)
    ensures Cleared(v, x, gone)
  {
    hide Tree, TableCleared, SameEntry;
    forall c | c in x.tabs
      ensures TableCleared(v.tabs[c], x.tabs[c], c, gone)
    {
      assert TableCleared(v.tabs[c], w.tabs[c], c, gone);
      TableLooked(v.tabs[c], w.tabs[c], x.tabs[c], c, gone);
    }
  }

  lemma TableLooked(t: Table, u: Table, x: Table, c: nat, gone: set<Slot>)
    requires TableCleared(t, u, c, gone) && forall j :: 0 <= j < TABLE_SIZE ==> SameEntry(x[j], u[j])
    ensures TableCleared(t, x, c, gone)
  {
  }

  lemma TableEmptied(t: Table, u: Table, c: nat, gone: set<Slot>, i: nat)
    requires TableCleared(t, u, c, gone) && 1 <= i < TABLE_SIZE
    ensures TableCleared(t, Emptied(u, i), c, gone + {Slot(c, i)})
  {
    hide Emptied;
    EmptiedKeepsHeader(u, i);
    EmptiedSlots(u, i);
  }

  lemma TableElsewhere(t: Table, u: Table, c: nat, gone: set<Slot>, s: Slot)
    requires TableCleared(t, u, c, gone) && s.dir != c
    ensures TableCleared(t, u, c, gone + {s})
  {
  }

  lemma ClearedSlot(v: Vol, w: Vol, gone: set<Slot>, s: Slot)
    requires Cleared(v, w, gone) && s in w.chains && IsSlot(w, s)
    ensures s in v.chains && s !in gone && w.chains[s] == v.chains[s]
    ensures IsSlot(v, s) && SameEntry(Ent(w, s), Ent(v, s))
  {
    hide Tree;
    assert TableCleared(v.tabs[s.dir], w.tabs[s.dir], s.dir, gone);
  }

  lemma RemovedTables(v: Vol, w: Vol, x: Vol, gone: set<Slot>, s: Slot)
    requires Cleared(v, w, gone) && Removed(w, x, s)
    ensures s in v.chains
    ensures TablesCleared(v, x, gone + {s})
  {
    hide SlotOk, DirOk, Base, Emptied, Blocks, TableCleared, CellsCleared, OwnersCleared, Inv;
    RemovedIsLeaf(w, x, s);
    ClearedSlot(v, w, gone, s);
    forall c | c in v.tabs
      ensures c in x.tabs <==> !DirGone(v, c, gone + {s})
    {
      if c != ROOT_CLUSTER {
        OwnerSlot(v, c);
        OwnedIsChain(v, s, c);
        OwnerChain(v, c);
      }
    }
    forall c | c in x.tabs
      ensures TableCleared(v.tabs[c], x.tabs[c], c, gone + {s})
    {
      assert TableCleared(v.tabs[c], w.tabs[c], c, gone);
      if c == s.dir {
        TableEmptied(v.tabs[c], w.tabs[c], c, gone, s.index);
      } else {
        TableElsewhere(v.tabs[c], w.tabs[c], c, gone, s);
      }
    }
  }

  lemma OwnerChain(v: Vol, c: nat)
    requires Tree(v) && c in v.tabs && c != ROOT_CLUSTER
    ensures c in v.own && v.own[c] in v.chains && v.chains[v.own[c]] == [c]
  {
    hide SlotOk;
    assert DirOk(v, c);
  }

  lemma EmptiedKeepsHeader(t: Table, i: nat)
    requires 1 <= i < TABLE_SIZE
    ensures HeaderKept(Emptied(t, i)[0], t[0])
  {
  }

  // A removal clears one more slot.
  lemma ClearedRemoved(v: Vol, w: Vol, x: Vol, gone: set<Slot>, s: Slot)
    requires Cleared(v, w, gone) && Removed(w, x, s)
    ensures s in v.chains && s !in gone && Cleared(v, x, gone + {s})
  {
    hide SlotOk, DirOk, Base, Emptied, Blocks, TablesCleared, Freed;
    RemovedIsLeaf(w, x, s);
    ClearedSlotHere(v, w, gone, s);
    RemovedTables(v, w, x, gone, s);
    forall k
      ensures k in v.chains[s] <==> k in v.own && v.own[k] == s
    {
      OwnedIsChain(v, s, k);
    }
    assert v.chains - (gone + {s}) == v.chains - gone - {s};
  }

  lemma ClearedSlotHere(v: Vol, w: Vol, gone: set<Slot>, s: Slot)
    requires Cleared(v, w, gone) && s in w.chains && IsSlot(w, s)
    ensures s in v.chains && s !in gone && w.chains[s] == v.chains[s]
  {
    hide Tree;
  }

  /* Flags */

  // Flags that were exact are exact, and an empty folder has the flag it had.
  ghost predicate FlagsStay(v: Vol, w: Vol) {
    forall c :: c in v.tabs && c in w.tabs ==> FlagStays(v.tabs[c], w.tabs[c])
  }

  ghost predicate FlagStays(t: Table, u: Table) {
    && (FlagExact(t) ==> FlagExact(u))
    && (!HasLive(t) ==> !HasLive(u) && u[0].userAttribute == t[0].userAttribute)
  }

  lemma FlagsLooked(v: Vol, w: Vol, x: Vol)
    requires FlagsStay(v, w) && SameTree(w, x)
    ensures FlagsStay(v, x)
  {
    hide HasLive;
    forall c | c in v.tabs && c in x.tabs
      ensures FlagStays(v.tabs[c], x.tabs[c])
    {
      assert FlagStays(v.tabs[c], w.tabs[c]);
      assert SameEntry(x.tabs[c][0], w.tabs[c][0]);
      SameLive(w.tabs[c], x.tabs[c]);
    }
  }

  lemma SameLive(t: Table, u: Table)
    requires forall j :: 1 <= j < TABLE_SIZE ==> SameEntry(u[j], t[j])
    ensures HasLive(u) <==> HasLive(t)
  {
    if HasLive(t) {
      var j :| 1 <= j < TABLE_SIZE && Live(t[j]);
      assert Live(u[j]);
    }
  }

  lemma EmptiedFlag(t: Table, i: nat)
    requires 1 <= i < TABLE_SIZE && FlagExact(t)
    ensures FlagExact(Emptied(t, i))
  {
    var u := t[i := ZERO_ENTRY];
    if HasLive(u) {
      var j :| 1 <= j < TABLE_SIZE && Live(u[j]);
      assert Live(t[j]);
    } else {
      assert !HasLive(Emptied(t, i));
    }
  }

  lemma FlagsRemoved(v: Vol, w: Vol, x: Vol, s: Slot)
    requires FlagsStay(v, w) && Removed(w, x, s)
    ensures FlagsStay(v, x)
  {
    hide SlotOk, DirOk, Base, Emptied, FlagExact, Freed, IsLeaf;
    LiveSlot(w, s);
    assert HasLive(w.tabs[s.dir]);
    forall c | c in v.tabs && c in x.tabs
      ensures FlagStays(v.tabs[c], x.tabs[c])
    {
      assert FlagStays(v.tabs[c], w.tabs[c]);
      if c == s.dir && FlagExact(v.tabs[c]) {
        EmptiedFlag(w.tabs[c], s.index);
      }
    }
  }

  /* Searches */

  // A search for a name finds in what is left what it found before, unless that is gone.
  lemma FindsCleared(v: Vol, w: Vol, gone: set<Slot>, c: nat, p: Pattern)
    requires Cleared(v, w, gone) && c in w.tabs && (p.Key? || p.FileKey? || p.FolderKey?)
    requires Slot(c, First(v.tabs[c], p)) !in gone
    ensures c in v.tabs && First(w.tabs[c], p) == First(v.tabs[c], p)
  {
    hide Tree, First, FirstFrom;
    var t, u := v.tabs[c], w.tabs[c];
    assert TableCleared(t, u, c, gone);
    assert !Live(ZERO_ENTRY);
    FirstIs(u, p, First(t, p));
  }

  /* Files */

  // The slot of a file's name, or one that is not there.
  ghost function FileSlot(v: Vol, f: FileName): Slot {
    Slot(f.dir, if f.dir in v.tabs then First(v.tabs[f.dir], FileKey(f.name, f.ext)) else TABLE_SIZE)
  }

  // Exactly the files of the slots that are gone are gone; the others hold what they held.
  ghost predicate FilesCleared(d: Disk, v: Vol, e: Disk, w: Vol, gone: set<Slot>) {
    && Tree(v) && Tree(w)
    && forall f :: FileAt(e, w, f) == if FileSlot(v, f) in gone then None else FileAt(d, v, f)
  }

  lemma FilesClearedLooked(d: Disk, v: Vol, e: Disk, w: Vol, b: Disk, x: Vol, gone: set<Slot>)
    requires FilesCleared(d, v, e, w, gone) && SameFiles(e, w, b, x)
    ensures FilesCleared(d, v, b, x, gone)
  {
    hide Tree, FileAt;
    forall f: FileName
      ensures FileAt(b, x, f) == if FileSlot(v, f) in gone then None else FileAt(d, v, f)
    {
      assert FileAt(e, w, f) == if FileSlot(v, f) in gone then None else FileAt(d, v, f);
    }
  }

  lemma OnlySlot(v: Vol, s: Slot, f: FileName)
    requires Tree(v) && s in v.chains && IsSlot(v, s)
    ensures FileSlot(v, f) == s <==> !IsDir(Ent(v, s)) && f == FileName(s.dir, Ent(v, s).name, Ent(v, s).ext)
  {
    hide SlotOk, DirOk, First, FirstFrom;
    LiveSlot(v, s);
    assert KeysOk(v, s.dir);
    if !IsDir(Ent(v, s)) {
      FirstIsOnly(v.tabs[s.dir], s.index, FileKey(Ent(v, s).name, Ent(v, s).ext));
    }
  }

  lemma FilesClearedRemoved(d: Disk, v: Vol, e: Disk, w: Vol, b: Disk, x: Vol, gone: set<Slot>, s: Slot)
    requires FilesCleared(d, v, e, w, gone) && LostFile(e, w, b, x, s)
    requires Cleared(v, w, gone) && s in w.chains
    ensures FilesCleared(d, v, b, x, gone + {s})
  {
    hide Tree, FileAt, FileSlot;
    ClearedSlot(v, w, gone, s);
    forall f: FileName
      ensures FileAt(b, x, f) == if FileSlot(v, f) in gone + {s} then None else FileAt(d, v, f)
    {
      assert FileAt(e, w, f) == if FileSlot(v, f) in gone then None else FileAt(d, v, f);
      OnlySlot(v, s, f);
    }
  }
}
