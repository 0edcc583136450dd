// What rm can remove at most: slots in the directories where its paths land, and folders only with all they
// hold.
module Bounds {
  import opened Layout
  import opened Volume
  import opened Pruning
  import opened Operations
  import opened Strings
  import opened Paths
  import opened Subtrees
  import opened Walking
  import opened Sweeping
  import opened Spelling
  import opened Turns

  /* A file and a folder of one name */

  // The file in front of a folder of its name: what a delete of the folder finds.
  ghost function Ahead(v: Vol, s: Slot): set<Slot>
    requires IsSlot(v, s)
  {
    var i := First(v.tabs[s.dir], FileKey(Ent(v, s).name, Ent(v, s).ext));
    if IsDir(Ent(v, s)) && i < s.index then {Slot(s.dir, i)} else {}
  }

  // The folder of the file's name.
  ghost function Twin(v: Vol, f: Slot): (i: nat)
    requires IsSlot(v, f)
    ensures i <= TABLE_SIZE
  {
    First(v.tabs[f.dir], FolderKey(Ent(v, f).name, Ent(v, f).ext))
  }

  // The file stands in front of a folder of its name.
  ghost predicate Fronts(v: Vol, f: Slot)
    requires IsSlot(v, f)
  {
    !IsDir(Ent(v, f)) && f.index < Twin(v, f) < TABLE_SIZE
  }

  // There is no folder of the file's name, or it is gone.
  ghost predicate Alone(v: Vol, f: Slot, gone: set<Slot>)
    requires IsSlot(v, f)
  {
    !IsDir(Ent(v, f)) && (Twin(v, f) < TABLE_SIZE ==> Slot(f.dir, Twin(v, f)) in gone)
  }

  // A file that rm can read, or that is deleted in place of a folder; or a folder.
  ghost predicate Loose(v: Vol, f: Slot)
    requires IsSlot(v, f)
  {
    Fits(Ent(v, f)) || Fronts(v, f)
  }

  lemma AheadFronts(v: Vol, s: Slot)
    requires Tree(v) && s in v.chains && IsSlot(v, s)
    ensures forall f :: f in Ahead(v, s) ==>
      && f in v.chains && IsSlot(v, f) && f.dir == s.dir && f.index < s.index && Fronts(v, f) && f != s
      && Ent(v, f).name == Ent(v, s).name && Ent(v, f).ext == Ent(v, s).ext && Twin(v, f) == s.index
  {
    hide SlotOk, DirOk, FirstFrom, Base;
    if IsDir(Ent(v, s)) {
      FolderSlot(v, s);
      FolderFirst(v, s);
      forall f | f in Ahead(v, s)
        ensures f in v.chains
      {
        LiveSlot(v, f);
      }
    }
  }

  // The folder of a file's name, and the file of a folder's.
  lemma TwinIs(v: Vol, f: Slot)
    requires Tree(v) && f in v.chains && IsSlot(v, f) && !IsDir(Ent(v, f)) && Twin(v, f) < TABLE_SIZE
    ensures var t := Slot(f.dir, Twin(v, f));
      && t in v.chains && IsSlot(v, t) && IsDir(Ent(v, t)) && t != f
      && Ent(v, t).name == Ent(v, f).name && Ent(v, t).ext == Ent(v, f).ext && Ent(v, f).ext == ZERO_EXT
      && (Fronts(v, f) ==> Ahead(v, t) == {f}) && (!Fronts(v, f) ==> Ahead(v, t) == {})
  {
    hide SlotOk, DirOk, FirstFrom, Base;
    var t := Slot(f.dir, Twin(v, f));
    LiveSlot(v, t);
    LiveSlot(v, f);
    FolderSlot(v, t);
    OwnKey(v, f);
  }

  // A file is the first of its name, a folder as well.
  lemma OwnKey(v: Vol, s: Slot)
    requires Tree(v) && s in v.chains && IsSlot(v, s)
    ensures var e := Ent(v, s);
      First(v.tabs[s.dir], if IsDir(e) then FolderKey(e.name, e.ext) else FileKey(e.name, e.ext)) == s.index
  {
    hide SlotOk, DirOk, First, FirstFrom, Base;
    LiveSlot(v, s);
    assert KeysOk(v, s.dir);
    var e := Ent(v, s);
    FirstIsOnly(v.tabs[s.dir], s.index, if IsDir(e) then FolderKey(e.name, e.ext) else FileKey(e.name, e.ext));
  }

  // Of a file and a folder of one name both are spelled or neither is.
  lemma TwinSpelled(v: Vol, f: Slot)
    requires Tree(v) && f in v.chains && IsSlot(v, f) && !IsDir(Ent(v, f)) && Twin(v, f) < TABLE_SIZE
    requires var t := Slot(f.dir, Twin(v, f)); Neat(Ent(v, f)) && Neat(Ent(v, t))
    ensures Spellable(Ent(v, f)) <==> Spellable(Ent(v, Slot(f.dir, Twin(v, f))))
  {
    hide Tree, First, Neat, Spellable, Unpad, Twin;
    TwinIs(v, f);
    SpellableExact(Ent(v, f));
    SpellableExact(Ent(v, Slot(f.dir, Twin(v, f))));
    UnpadZero();
  }

  /* Regions */

  // The live slots of a directory are in the set.
  ghost predicate SlotsIn(v: Vol, c: nat, r: set<Slot>) {
    forall j :: 1 <= j < TABLE_SIZE && Slot(c, j) in v.chains ==> Slot(c, j) in r
  }

  // A set of slots that has, with every folder, all its entries.
  ghost predicate Region(v: Vol, r: set<Slot>) {
    forall q :: q in r ==> LiveEntry(v, q) && (IsDir(Ent(v, q)) ==> SlotsIn(v, Ent(v, q).cluster, r))
  }

  ghost predicate NeatEntries(v: Vol, s: Slot)
    requires IsSlot(v, s)
  {
    IsDir(Ent(v, s)) ==>
      forall j :: 1 <= j < TABLE_SIZE && Slot(Ent(v, s).cluster, j) in v.chains ==>
        LiveEntry(v, Slot(Ent(v, s).cluster, j))
  }

  // The paths of the entries land in the region, if anywhere.
  ghost predicate LandsIn(v: Vol, st: seq<Frame>, src: Text, r: set<Slot>)
    requires |st| > 0
  {
    var l := Landing(v, st, src);
    l.Some? ==> SlotsIn(v, l.value, r)
  }

  // What rm asks of a slot it removes: a folder that is empty by then and can say so, with no file in front of
  // it; or a file that it can read and that is alone by then, or that stands in front of a folder.
  ghost predicate Removable(v: Vol, q: Slot, gone: set<Slot>) {
    && q in v.chains && IsSlot(v, q) && !Stuck(v, q)
    && if IsDir(Ent(v, q)) then EntriesGone(v, Ent(v, q).cluster, gone) && Ahead(v, q) <= gone
       else (Fits(Ent(v, q)) && Alone(v, q, gone)) || Fronts(v, q)
  }

  // From `gone` to `now` only removable slots of the region have gone, each spelled by its text.
  ghost predicate Went(v: Vol, gone: set<Slot>, now: set<Slot>, r: set<Slot>) {
    gone <= now && forall q :: q in now && q !in gone ==> Removable(v, q, now) && q in r && Spellable(Ent(v, q))
  }

  // ... and possibly the slot `s`, or the file in front of it.
  ghost predicate WentWith(v: Vol, gone: set<Slot>, now: set<Slot>, s: Slot, r: set<Slot>) {
    && gone <= now && IsSlot(v, s)
    && forall q :: q in now && q !in gone ==>
         Removable(v, q, now) && (q == s || q in Ahead(v, s) || (q in r && Spellable(Ent(v, q))))
  }

  // A delete of a name drops the file in front of the folder, if there is one, or else the folder, or the file.
  lemma DroppedIs(v: Vol, s: Slot, gone: set<Slot>)
    requires Tree(v) && s in v.chains && IsSlot(v, s) && s !in gone && (!IsDir(Ent(v, s)) ==> Alone(v, s, gone))
    ensures Dropped(v, s, gone) ==
      if !(Ahead(v, s) <= gone) then gone + Ahead(v, s)
      else if IsDir(Ent(v, s)) && Occupied(v, s, gone) then gone
      else gone + {s}
  {
    hide SlotOk, DirOk, First, FirstFrom, Base, EntriesGone, Stuck;
    OwnKey(v, s);
    NoSlotThere(v, s.dir);
    var i := First(v.tabs[s.dir], FileKey(Ent(v, s).name, Ent(v, s).ext));
    if IsDir(Ent(v, s)) && i < TABLE_SIZE && i != s.index {
      AheadFronts(v, s);
      LiveSlot(v, Slot(s.dir, i));
    }
  }

  lemma NoSlotThere(v: Vol, c: nat)
    requires Tree(v)
    ensures Slot(c, TABLE_SIZE) !in v.chains
  {
    hide Tree;
    LiveSlot(v, Slot(c, TABLE_SIZE));
  }

  lemma RemovableMore(v: Vol, q: Slot, gone: set<Slot>, more: set<Slot>)
    requires Removable(v, q, gone) && gone <= more
    ensures Removable(v, q, more)
  {
    hide Stuck, Fits, Ahead, Fronts, Twin;
  }

  lemma WentMore(v: Vol, gone: set<Slot>, g: set<Slot>, now: set<Slot>, q: Slot, r: set<Slot>)
    requires Went(v, gone, g, r) && WentWith(v, g, now, q, r) && q in r && Spellable(Ent(v, q))
    requires Tree(v) && Region(v, r) && q in v.chains && SlotsIn(v, q.dir, r)
    ensures Went(v, gone, now, r)
  {
    hide Tree, Spellable, Removable, Ahead, Neat, Twin;
    AheadFronts(v, q);
    forall x | x in now && x !in gone
      ensures IsSlot(v, x) && Removable(v, x, now) && x in r && Spellable(Ent(v, x))
    {
      if x in g {
        RemovableMore(v, x, g, now);
      } else if x in Ahead(v, q) {
        assert Slot(q.dir, x.index) in r;
        TwinSpelled(v, x);
      }
    }
  }

  /* Everything below a directory */

  ghost function UnderSet(v: Vol, c: nat): set<Slot>
    requires Tree(v)
  {
    set q | q in v.chains && q.dir in v.tabs && Under(v, c, q.dir)
  }

  lemma {:induction false} UnderInRegion(v: Vol, c: nat, r: set<Slot>, q: Slot)
    requires Tree(v) && Region(v, r) && SlotsIn(v, c, r) && q in v.chains && q.dir in v.tabs && Under(v, c, q.dir)
    ensures q in r
    decreases v.depth[q.dir]
  {
    hide SlotOk, DirOk, LiveEntry;
    SlotDir(v, q);
    if q.dir != c {
      ParentIsAbove(v, q.dir);
      OwnerSlot(v, q.dir);
      UnderInRegion(v, c, r, v.own[q.dir]);
    }
  }

  lemma UnderIsRegion(v: Vol, c: nat, r: set<Slot>)
    requires Tree(v) && c in v.tabs && Region(v, r) && SlotsIn(v, c, r)
    ensures UnderSet(v, c) <= r && Region(v, UnderSet(v, c)) && SlotsIn(v, c, UnderSet(v, c))
  {
    hide SlotOk, DirOk, LiveEntry, Under;
    UnderSelf(v, c);
    forall q | q in UnderSet(v, c)
      ensures q in r
    {
      UnderInRegion(v, c, r, q);
    }
    forall q | q in UnderSet(v, c)
      ensures IsSlot(v, q) && (IsDir(Ent(v, q)) ==> SlotsIn(v, Ent(v, q).cluster, UnderSet(v, c)))
    {
      SlotDir(v, q);
      if IsDir(Ent(v, q)) {
        FolderSlot(v, q);
        ChildUnder(v, c, q);
      }
    }
  }

  lemma {:induction false} ChildUnder(v: Vol, c: nat, q: Slot)
    requires Tree(v) && q in v.chains && IsSlot(v, q) && IsDir(Ent(v, q)) && Under(v, c, q.dir)
    ensures Ent(v, q).cluster in v.tabs && Under(v, c, Ent(v, q).cluster)
  {
    hide SlotOk, DirOk;
    FolderSlot(v, q);
    ParentIsAbove(v, Ent(v, q).cluster);
  }

  // The slot of a directory does not lie below it, nor below one of its entries.
  lemma OwnerOutside(v: Vol, l: nat, c: nat)
    requires Tree(v) && l in v.tabs && c in v.tabs && (c == l || (c != ROOT_CLUSTER && Parent(v, c) == l))
    ensures l != ROOT_CLUSTER ==> l in v.own && v.own[l] !in UnderSet(v, c)
  {
    hide SlotOk, DirOk;
    if l != ROOT_CLUSTER {
      OwnerSlot(v, l);
      ParentIsAbove(v, l);
      if c != l {
        ParentIsAbove(v, c);
      }
      if Under(v, c, Parent(v, l)) {
        UnderIsDeeper(v, c, Parent(v, l));
      }
    }
  }

  /* The bounds */

  // The path that has been picked lands in the region, and so do those of what it picks.
  lemma NextLandsIn(v: Vol, st: seq<Frame>, src: Text, q: Slot, gone: set<Slot>, r: set<Slot>)
    requires Tree(v) && Worded(v) && |st| > 0 && LiveEntry(v, q) && Region(v, r) && LandsIn(v, st, src, r)
    requires Picked(v, st, Parts(Spelled(src, Ent(v, q))), gone, false).Some?
    ensures var p := Picked(v, st, Parts(Spelled(src, Ent(v, q))), gone, false).value;
      && p in r && Spellable(Ent(v, p)) && NeatEntries(v, p) && p in v.chains
      && LandsIn(v, st, Spelled(src, Ent(v, q)), r)
      && Landing(v, st, src) == Some(p.dir) && SlotsIn(v, p.dir, r)
      && var next := Landing(v, st, Spelled(src, Ent(v, q)));
      (next.Some? ==> next.value in v.tabs && next.value != ROOT_CLUSTER && Parent(v, next.value) == p.dir)
  {
    hide Tree, Worded, NameText, Neat, Parts, Walk, Spellable, Picked, Landing, NameAndExt;
    TurnPicks(v, st, src, q, gone);
    NextLanding(v, st, src, q);
    var p := Picked(v, st, Parts(Spelled(src, Ent(v, q))), gone, false).value;
    InRegion(v, r, p.dir, p);
    var next := Landing(v, st, Spelled(src, Ent(v, q)));
    if next.Some? {
      var f :| f in v.chains && IsSlot(v, f) && IsDir(Ent(v, f)) && f.dir == Landing(v, st, src).value
        && Ent(v, f).cluster == next.value;
      InRegion(v, r, f.dir, f);
      FolderSlot(v, f);
    }
  }

  lemma InRegion(v: Vol, r: set<Slot>, c: nat, q: Slot)
    requires Region(v, r) && SlotsIn(v, c, r) && q in v.chains && q.dir == c && IsSlot(v, q)
    ensures q in r && LiveEntry(v, q) && NeatEntries(v, q)
  {
    hide Neat;
    if IsDir(Ent(v, q)) {
      forall j | 1 <= j < TABLE_SIZE && Slot(Ent(v, q).cluster, j) in v.chains
        ensures LiveEntry(v, Slot(Ent(v, q).cluster, j))
      {
        assert Slot(Ent(v, q).cluster, j) in r;
      }
    }
  }

  // What has been picked is not gone, and a file is picked only if there is no folder of its name.
  lemma PickedAlone(v: Vol, st: seq<Frame>, comps: seq<Text>, gone: set<Slot>, root: bool)
    requires |st| > 0 && |comps| > 0
    ensures var p := Picked(v, st, comps, gone, root);
      p.Some? ==>
        && IsSlot(v, p.value) && p.value !in gone && Fits(Ent(v, p.value))
        && (!IsDir(Ent(v, p.value)) ==> Alone(v, p.value, gone))
  {
    hide Walk, NameAndExt, First;
  }

  // Each turn removes only slots of the region.
  lemma {:induction false} BeforeWent(v: Vol, st: seq<Frame>, src: Text, gone: set<Slot>, s: Slot, i: nat, r: set<Slot>)
    requires Tree(v) && Worded(v) && |st| > 0 && s in v.chains && IsSlot(v, s) && IsDir(Ent(v, s))
    requires NeatEntries(v, s) && Region(v, r) && LandsIn(v, st, src, r) && i <= TABLE_SIZE
    ensures Went(v, gone, SweptBefore(v, st, src, gone, s, i), r)
    decreases Slack(src), i
  {
    hide Tree, Worded, Region, LandsIn, Went, WentWith, Picked, Parts, Spelled, Swept, Neat, Spellable, Landing;
    if i <= 1 {
      NothingWent(v, gone, r);
    } else {
      var g, q := SweptBefore(v, st, src, gone, s, i - 1), Slot(Ent(v, s).cluster, i - 1);
      BeforeWent(v, st, src, gone, s, i - 1, r);
      SlotsAreThere(v, q);
      if q in v.chains && q !in gone && |Spelled(src, Ent(v, q))| < PATH_ROOM {
        var below := Spelled(src, Ent(v, q));
        var p := Picked(v, st, Parts(below), g, false);
        if p.Some? {
          NextLandsIn(v, st, src, q, g, r);
          PickedAlone(v, st, Parts(below), g, false);
          PickStays(v, st, src, q, g, r);
          SweptWent(v, st, below, g, p.value, r);
          WentMore(v, gone, g, Swept(v, st, below, g, p.value), p.value, r);
        }
      }
    }
  }

  lemma NothingWent(v: Vol, gone: set<Slot>, r: set<Slot>)
    ensures Went(v, gone, gone, r)
  {
  }

  // The loop over the entries of what has been picked does not remove it: their paths land below its directory.
  lemma {:induction false} PickStays(v: Vol, st: seq<Frame>, src: Text, q: Slot, g: set<Slot>, r: set<Slot>)
    requires Tree(v) && Worded(v) && |st| > 0 && LiveEntry(v, q) && Region(v, r) && LandsIn(v, st, src, r)
    requires |src| < |Spelled(src, Ent(v, q))| < PATH_ROOM
    requires Picked(v, st, Parts(Spelled(src, Ent(v, q))), g, false).Some?
    ensures var p := Picked(v, st, Parts(Spelled(src, Ent(v, q))), g, false).value;
      && p in v.chains && p !in g
      && (IsDir(Ent(v, p)) ==> p !in SweptBefore(v, st, Spelled(src, Ent(v, q)), g, p, TABLE_SIZE))
    decreases Slack(src), 1
  {
    hide Tree, Worded, Region, Went, Picked, Parts, Spelled, SweptBefore, Neat, Spellable, Landing, NeatEntries;
    hide UnderSet, SlotsIn;
    var below := Spelled(src, Ent(v, q));
    var p := Picked(v, st, Parts(below), g, false).value;
    NextLandsIn(v, st, src, q, g, r);
    PickedAlone(v, st, Parts(below), g, false);
    if IsDir(Ent(v, p)) {
      var next := Landing(v, st, below);
      if next.Some? {
        UnderIsRegion(v, next.value, r);
        BeforeWent(v, st, below, g, p, TABLE_SIZE, UnderSet(v, next.value));
        EntryOutside(v, p, next.value);
        WentOnly(v, g, SweptBefore(v, st, below, g, p, TABLE_SIZE), UnderSet(v, next.value), p);
      } else {
        NothingIsRegion(v);
        BeforeWent(v, st, below, g, p, TABLE_SIZE, {});
        WentOnly(v, g, SweptBefore(v, st, below, g, p, TABLE_SIZE), {}, p);
      }
    }
  }

  lemma NothingIsRegion(v: Vol)
    ensures Region(v, {})
  {
  }

  lemma WentOnly(v: Vol, gone: set<Slot>, now: set<Slot>, r: set<Slot>, q: Slot)
    requires Went(v, gone, now, r) && q !in gone && q !in r
    ensures q !in now
  {
    hide Removable, Spellable;
  }

  // An entry of a directory does not lie below another.
  lemma EntryOutside(v: Vol, p: Slot, c: nat)
    requires Tree(v) && p in v.chains && c in v.tabs && c != ROOT_CLUSTER && Parent(v, c) == p.dir
    ensures p !in UnderSet(v, c)
  {
    hide SlotOk, DirOk;
    SlotDir(v, p);
    ParentIsAbove(v, c);
    if Under(v, c, p.dir) {
      UnderIsDeeper(v, c, p.dir);
    }
  }

  // What has been chosen goes at most with what lies in the region, or the file in front of it goes.
  lemma {:induction false} SweptWent(v: Vol, st: seq<Frame>, src: Text, gone: set<Slot>, s: Slot, r: set<Slot>)
    requires Tree(v) && Worded(v) && |st| > 0 && s in v.chains && IsSlot(v, s) && Fits(Ent(v, s)) && s !in gone
    requires NeatEntries(v, s) && Region(v, r)
    requires if IsDir(Ent(v, s)) then LandsIn(v, st, src, r) && s !in SweptBefore(v, st, src, gone, s, TABLE_SIZE)
      else Alone(v, s, gone)
    ensures WentWith(v, gone, Swept(v, st, src, gone, s), s, r)
    decreases Slack(src), TABLE_SIZE + 1
  {
    hide Tree, Worded, Region, LandsIn, Picked, Dropped, SweptBefore, Neat, Spellable, Stuck, NeatEntries, Ahead;
    hide Fits, Fronts, Alone, EntriesGone;
    var g := if IsDir(Ent(v, s)) then SweptBefore(v, st, src, gone, s, TABLE_SIZE) else gone;
    if IsDir(Ent(v, s)) {
      BeforeWent(v, st, src, gone, s, TABLE_SIZE, r);
    }
    DroppedIs(v, s, g);
    FileNotStuck(v, s);
    AheadFronts(v, s);
    var now := Dropped(v, s, g);
    forall q | q in now && q !in gone
      ensures Removable(v, q, now) && (q == s || q in Ahead(v, s) || (q in r && Spellable(Ent(v, q))))
    {
      if q in g {
        RemovableMore(v, q, g, now);
      } else if q in Ahead(v, s) {
        FrontRemovable(v, q, now);
      } else {
        assert q == s;
        DroppedRemovable(v, s, g);
        RemovableMore(v, s, g, now);
      }
    }
  }

  lemma FrontRemovable(v: Vol, q: Slot, now: set<Slot>)
    requires q in v.chains && IsSlot(v, q) && Fronts(v, q)
    ensures Removable(v, q, now)
  {
  }

  lemma DroppedRemovable(v: Vol, s: Slot, g: set<Slot>)
    requires s in v.chains && IsSlot(v, s) && Fits(Ent(v, s)) && !Stuck(v, s) && Ahead(v, s) <= g
    requires if IsDir(Ent(v, s)) then !Occupied(v, s, g) else Alone(v, s, g)
    ensures Removable(v, s, g)
  {
    hide Ahead, Fits, Fronts, Alone;
  }

  lemma FileNotStuck(v: Vol, s: Slot)
    requires IsSlot(v, s)
    ensures !IsDir(Ent(v, s)) ==> !Stuck(v, s)
  {
  }

  /* Subtrees as regions */

  // Everything below a slot.
  ghost function Inner(v: Vol, s: Slot): set<Slot>
    requires Tree(v)
  {
    Subtree(v, s) - {s}
  }

  lemma EntryOf(v: Vol, s: Slot, q: Slot)
    requires Tree(v) && s in v.chains && IsSlot(v, s) && IsDir(Ent(v, s)) && q in v.chains && q.dir == Ent(v, s).cluster
    ensures IsSlot(v, q) && Live(Ent(v, q)) && q in Inner(v, s)
  {
    hide Tree;
    LiveSlot(v, q);
    FolderSlot(v, s);
  }

  lemma InnerIsRegion(v: Vol, s: Slot)
    requires Tree(v) && s in v.chains && IsSlot(v, s) && IsDir(Ent(v, s))
    requires forall q :: q in Inner(v, s) ==> LiveEntry(v, q)
    ensures Region(v, Inner(v, s)) && SlotsIn(v, Ent(v, s).cluster, Inner(v, s)) && NeatEntries(v, s)
  {
    hide Tree, Subtree, Neat;
    forall q | q in Inner(v, s) && IsDir(Ent(v, q))
      ensures SlotsIn(v, Ent(v, q).cluster, Inner(v, s))
    {
      SubtreeBelow(v, s, q);
      forall j | 1 <= j < TABLE_SIZE && Slot(Ent(v, q).cluster, j) in v.chains
        ensures Slot(Ent(v, q).cluster, j) in Inner(v, s)
      {
        EntryOf(v, q, Slot(Ent(v, q).cluster, j));
      }
    }
    forall j | 1 <= j < TABLE_SIZE && Slot(Ent(v, s).cluster, j) in v.chains
      ensures Slot(Ent(v, s).cluster, j) in Inner(v, s)
    {
      EntryOf(v, s, Slot(Ent(v, s).cluster, j));
    }
  }

  // If a folder has gone with all its entries, so has everything below it.
  lemma {:induction false} GoneBelow(v: Vol, gone: set<Slot>, now: set<Slot>, s: Slot, q: Slot)
    requires Tree(v) && s in v.chains && s in now && q in v.chains && q in Subtree(v, s) && Subtree(v, s) !! gone
    requires forall x :: x in now && x !in gone ==> Removable(v, x, now)
    ensures q in now
    decreases if q.dir in v.depth then v.depth[q.dir] else 0
  {
    hide SlotOk, DirOk, Base, Subtree, Fits, Stuck;
    SlotDir(v, q);
    if q != s {
      SelfBelow(v, s);
      UpInside(v, s, q);
      var o := v.own[q.dir];
      GoneBelow(v, gone, now, s, o);
      assert Removable(v, o, now);
    }
  }

  // The directory of something below a slot is named by something at or below it.
  lemma UpInside(v: Vol, s: Slot, q: Slot)
    requires Tree(v) && s in v.chains && q in Subtree(v, s) && q != s
    ensures q.dir in v.tabs && q.dir != ROOT_CLUSTER && q.dir in v.own && v.own[q.dir] in Subtree(v, s)
    ensures var o := v.own[q.dir];
      && o in v.chains && IsSlot(v, o) && IsDir(Ent(v, o)) && Ent(v, o).cluster == q.dir
      && o.dir in v.depth && q.dir in v.depth && v.depth[o.dir] < v.depth[q.dir]
  {
    hide SlotOk, DirOk, Under;
    SlotDir(v, s);
    FolderSlot(v, s);
    UnderRoot(v, Ent(v, s).cluster);
    OwnerSlot(v, q.dir);
    ParentIsAbove(v, q.dir);
    FolderOwned(v, v.own[q.dir]);
    if q.dir != Ent(v, s).cluster {
      UnderStep(v, Ent(v, s).cluster, q.dir);
    }
  }

  lemma FolderOwned(v: Vol, o: Slot)
    requires Tree(v) && o in v.chains && IsSlot(v, o) && IsDir(Ent(v, o))
    ensures Ent(v, o).cluster in v.own && v.own[Ent(v, o).cluster] == o
  {
    hide Tree;
    FolderSlot(v, o);
  }
}
