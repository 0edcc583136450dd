// What rm does about the one entry that its path names, from the fields of the entries.
module RmOutcome {
  import opened Layout
  import opened Volume
  import opened Pruning
  import opened Operations
  import opened Strings
  import opened Paths
  import opened Walking
  import opened Sweeping
  import Removal

  // Two entries of a directory have one name.
  ghost predicate SameName(v: Vol, o: Slot, s: Slot)
    requires IsSlot(v, o) && IsSlot(v, s)
  {
    o.dir == s.dir && Ent(v, o).name == Ent(v, s).name && Ent(v, o).ext == Ent(v, s).ext
  }

  // A file goes. A folder that is empty goes, unless a file of its name is in front of it: then that goes.
  // A folder that is not stays, unless rm is recursive. If nothing is named, nothing goes.
  lemma {:induction false} RmDecides(v: Vol, st: seq<Frame>, src: Text, gone: set<Slot>, recursive: bool, root: bool,
      s: Slot)
    requires Tree(v) && |st| > 0
    ensures Picked(v, st, Parts(src), gone, root).None? ==> After(v, st, src, gone, recursive, root) == gone
    ensures Picked(v, st, Parts(src), gone, root) == Some(s) ==>
      && s in v.chains && IsSlot(v, s) && (Ent(v, s).attribute == 0x10 ==> Ent(v, s).cluster in v.tabs)
      && (Ent(v, s).attribute != 0x10 ==> After(v, st, src, gone, recursive, root) == gone + {s})
      && (Ent(v, s).attribute == 0x10 && !recursive
          && (exists o :: o in v.chains && o !in gone && o.dir == Ent(v, s).cluster) ==>
            After(v, st, src, gone, recursive, root) == gone)
      && (Ent(v, s).attribute == 0x10 && v.tabs[Ent(v, s).cluster][0].userAttribute != 0xAA
          && (forall o :: o in v.chains && o.dir == Ent(v, s).cluster ==> o in gone) ==>
            if exists o :: o in v.chains && IsSlot(v, o) && o !in gone && SameName(v, o, s) && o.index < s.index
            then exists o :: o in v.chains && IsSlot(v, o) && o !in gone && SameName(v, o, s) && o.index < s.index
                   && Ent(v, o).attribute != 0x10 && After(v, st, src, gone, recursive, root) == gone + {o}
            else After(v, st, src, gone, recursive, root) == gone + {s})
  {
    hide Tree, Parts, Picked, Dropped, SweptBefore, SameName;
    if Picked(v, st, Parts(src), gone, root) == Some(s) {
      PickedIs(v, st, Parts(src), gone, root, s);
      DropsFirst(v, s, gone);
      if Ent(v, s).attribute == 0x10 {
        FolderSlot(v, s);
        var k := Ent(v, s).cluster;
        if (forall o :: o in v.chains && o.dir == k ==> o in gone) && v.tabs[k][0].userAttribute != 0xAA {
          assert !Occupied(v, s, gone);
          Removal.NothingSwept(v, st, src, gone, s, TABLE_SIZE);
          assert After(v, st, src, gone, recursive, root) == Dropped(v, s, gone);
        }
        forall o | o in v.chains && o.dir == k
          ensures 1 <= o.index < TABLE_SIZE && Slot(k, o.index) == o
        {
          LiveSlot(v, o);
        }
      }
    }
  }

  // What has been picked is live and not gone; if it is a file, there is no folder of its name.
  lemma PickedIs(v: Vol, st: seq<Frame>, comps: seq<Text>, gone: set<Slot>, root: bool, s: Slot)
    requires Tree(v) && |st| > 0 && |comps| > 0 && Picked(v, st, comps, gone, root) == Some(s)
    ensures s in v.chains && IsSlot(v, s) && s !in gone
    ensures Ent(v, s).attribute != 0x10 ==> Held(v, s.dir, FolderKey(Ent(v, s).name, Ent(v, s).ext), gone) == TABLE_SIZE
  {
    hide Tree, Walk, Held, NameAndExt, Unpad;
    LiveSlot(v, s);
    HeldLive(v, s.dir, FolderKey(Ent(v, s).name, Ent(v, s).ext), gone, s);
  }

  // A delete drops the first slot of the name that is not gone.
  lemma DropsFirst(v: Vol, s: Slot, gone: set<Slot>)
    requires Tree(v) && s in v.chains && IsSlot(v, s) && s !in gone
    requires Ent(v, s).attribute != 0x10 ==>
      Held(v, s.dir, FolderKey(Ent(v, s).name, Ent(v, s).ext), gone) == TABLE_SIZE
    ensures Ent(v, s).attribute != 0x10 ==> Dropped(v, s, gone) == gone + {s}
    ensures Ent(v, s).attribute == 0x10 && !Occupied(v, s, gone) ==>
      if exists o :: o in v.chains && IsSlot(v, o) && o !in gone && SameName(v, o, s) && o.index < s.index
      then exists o :: o in v.chains && IsSlot(v, o) && o !in gone && SameName(v, o, s) && o.index < s.index
             && Ent(v, o).attribute != 0x10 && Dropped(v, s, gone) == gone + {o}
      else Dropped(v, s, gone) == gone + {s}
  {
    hide Tree, Held, Occupied;
    var e := Ent(v, s);
    var file, folder := FileKey(e.name, e.ext), FolderKey(e.name, e.ext);
    var i, j := Held(v, s.dir, file, gone), Held(v, s.dir, folder, gone);
    HeldLive(v, s.dir, file, gone, s);
    HeldLive(v, s.dir, folder, gone, s);
    HeldLive(v, s.dir, file, gone, Slot(s.dir, i));
    forall o | o in v.chains && IsSlot(v, o) && o !in gone && SameName(v, o, s)
      ensures o.index == if Ent(v, o).attribute == 0x10 then j else i
      ensures o == Slot(s.dir, o.index)
    {
      HeldLive(v, s.dir, file, gone, o);
      HeldLive(v, s.dir, folder, gone, o);
      LiveSlot(v, o);
    }
  }

  // What a call asks for that names a file or nothing: a path of fewer than fifty characters with at most
  // twelve components, the last of fewer than twelve characters, and a directory to start in that is there.
  lemma {:induction false} RmAsks(v: Vol, st: seq<Frame>, src: Text, gone: set<Slot>, recursive: bool, root: bool)
    requires Tree(v) && |st| > 0
    requires var p := Picked(v, st, Parts(src), gone, root); p.Some? ==> Ent(v, p.value).attribute != 0x10
    ensures RmReady(v, st, src, gone, recursive, root) <==>
      && 0 !in src && |src| < 50 && |Parts(src)| <= 12
      && Grounded(v, st, Parts(src)) && StartStays(v, st, Parts(src), gone)
      && var leaf := Walk(v, st, Parts(src), gone).leaf; leaf.Some? ==> |leaf.value| < 12
  {
    hide Tree, Parts, Picked, Walk, Grounded, StartStays, EntriesReady, SweptBefore;
  }
}
