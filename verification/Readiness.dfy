// When a recursive rm finds what it asks for at every call on the way.
module Readiness {
  import opened Layout
  import opened Volume
  import opened Operations
  import opened Strings
  import opened Paths
  import opened Clearing
  import opened Walking
  import opened Sweeping
  import opened Spelling
  import opened Turns
  import opened Bounds
  import opened SweepResults
  import opened PathSweeps

  // Twelve bytes and one component for every directory on the way down: room for whatever rm spells.
  ghost predicate RoomDeep(v: Vol, c: nat, length: nat, parts: nat)
    requires Tree(v)
    decreases PATH_ROOM - length
  {
    && length + 12 < PATH_ROOM && parts < 12
    && forall d :: d in v.chains && IsSlot(v, d) && d.dir == c && IsDir(Ent(v, d)) ==>
         RoomDeep(v, Ent(v, d).cluster, length + 12, parts + 1)
  }

  lemma {:induction false} RoomDeepLess(v: Vol, c: nat, length: nat, parts: nat, less: nat, fewer: nat)
    requires Tree(v) && RoomDeep(v, c, length, parts) && less <= length && fewer <= parts
    ensures RoomDeep(v, c, less, fewer)
    decreases PATH_ROOM - length
  {
    hide Tree;
    forall d | d in v.chains && IsSlot(v, d) && d.dir == c && IsDir(Ent(v, d))
      ensures RoomDeep(v, Ent(v, d).cluster, less + 12, fewer + 1)
    {
      RoomDeepLess(v, Ent(v, d).cluster, length + 12, parts + 1, less + 12, fewer + 1);
    }
  }

  // The conditions under which the loop over the entries of `s` goes through: whatever it can come to lies
  // in the region, has flags that hide nothing, and is reached by paths that fit and start outside of it.
  ghost predicate Calm(v: Vol, st: seq<Frame>, src: Text, gone: set<Slot>, s: Slot, r: set<Slot>, base: set<Slot>) {
    && Tree(v) && Worded(v) && |st| > 0 && 0 !in src && s in v.chains && IsSlot(v, s) && IsDir(Ent(v, s))
    && Region(v, r) && NeatEntries(v, s) && (forall q :: q in r ==> FlagSound(v, q)) && gone <= base + r
    && Last(src) != UP && Last(src) != []
    && Grounded(v, st, Parts(src)) && StartStays(v, st, Parts(src), base + r)
    && |src| + 12 < PATH_ROOM && |Parts(src)| < 12
    && LandsCalmly(v, st, src, r)
  }

  ghost predicate LandsCalmly(v: Vol, st: seq<Frame>, src: Text, r: set<Slot>)
    requires Tree(v) && |st| > 0
  {
    var l := Landing(v, st, src);
    l.Some? ==> SlotsIn(v, l.value, r) && RoomDeep(v, l.value, |src|, |Parts(src)|)
  }

  /* Walks */

  // A walk that succeeds ends in a directory that is there.
  lemma {:induction false} LandedThere(v: Vol, st: seq<Frame>, src: Text, g: set<Slot>)
    requires Tree(v) && |st| > 0 && Last(src) != UP && Last(src) != []
    requires Walk(v, st, Slashed(Parts(src)), g).code == 0
    ensures !DirGone(v, Top(Walk(v, st, Slashed(Parts(src)), g).stack).cluster, g)
    ensures Landing(v, st, src) == Some(Top(Walk(v, st, Slashed(Parts(src)), g).stack).cluster)
  {
    hide Tree, Parts, OpenLeft, DirGone, Pad, First;
    var comps := Parts(src);
    LeafIsLast(v, st, comps, g);
    LastLeaf(v, st, comps, g);
    WalkLess(v, st, Slashed(comps), g, {});
    var r := Walk(v, st, comps, g);
    assert [Last(src), []][1..] == [[]];
    OpenLeftLess(v, Top(r.stack).cluster, Pad(Last(src), 8), g);
    OpenLeftIff(v, Top(r.stack).cluster, Pad(Last(src), 8), g);
  }

  lemma OpenLeftLess(v: Vol, c: nat, name: Name, g: set<Slot>)
    requires c in v.tabs && OpenLeft(v, c, name, g) == 0
    ensures OpenLeft(v, c, name, {}) == 0
  {
  }

  // If the whole walk succeeds, so does the walk to the last component.
  lemma {:induction false} LastLeaf(v: Vol, st: seq<Frame>, comps: seq<Text>, g: set<Slot>)
    requires |st| > 0 && |comps| > 0 && comps[|comps| - 1] != UP && Walk(v, st, Slashed(comps), g).code == 0
    ensures Walk(v, st, comps, g).code == 0 && Walk(v, st, comps, g).leaf == Some(comps[|comps| - 1])
    decreases |comps|
  {
    hide OpenLeft;
    var c := comps[0];
    assert Slashed(comps)[1..] == Slashed(comps[1..]);
    if |comps| > 1 {
      if c == UP {
        LastLeaf(v, st[..|st| - 1], comps[1..], g);
      } else if c == [] {
        LastLeaf(v, st, comps[1..], g);
      } else {
        OpenedThere(v, Top(st).cluster, Pad(c, 8), g);
        LastLeaf(v, st + [Frame(Opened(v, Top(st).cluster, Pad(c, 8)), Pad(c, 8))], comps[1..], g);
      }
    }
  }

  /* The calls */

  // The path of an entry, as the call for it takes it.
  lemma {:induction false} EntryPathReady(v: Vol, st: seq<Frame>, src: Text, gone: set<Slot>, s: Slot, r: set<Slot>,
      base: set<Slot>, e: Slot, g: set<Slot>)
    requires Calm(v, st, src, gone, s, r, base) && g <= base + r
    requires e in v.chains && IsSlot(v, e) && e.dir == Ent(v, s).cluster
    ensures LiveEntry(v, e)
    ensures var below := Spelled(src, Ent(v, e));
      && 0 !in below && |src| < |below| <= |src| + 12 && ExtEnds(Ent(v, e))
      && Parts(below) == Parts(src) + [NameText(Ent(v, e))]
      && Grounded(v, st, Parts(below)) && StartStays(v, st, Parts(below), g)
      && StartStays(v, st, Parts(below), base + r)
      && var leaf := Walk(v, st, Parts(below), g).leaf; (leaf.Some? ==> |leaf.value| < 12)
  {
    hide Tree, Worded, Walk, Parts, NameText, Risen, StackOk, FlagSound, Region, LandsCalmly;
    EntryText(v, e);
    SpelledFree(src, Ent(v, e));
    PartsBelow(src, NameText(Ent(v, e)));
    RisenBelow(st, Parts(src), NameText(Ent(v, e)));
    LeafIsLast(v, st, Parts(Spelled(src, Ent(v, e))), g);
    LastOfTwo(Parts(src), NameText(Ent(v, e)));
  }

  lemma {:induction false} ReadyFile(v: Vol, st: seq<Frame>, src: Text, gone: set<Slot>, root: bool)
    requires Tree(v) && |st| > 0 && 0 !in src && |src| < PATH_ROOM && |Parts(src)| <= 12
    requires Grounded(v, st, Parts(src)) && StartStays(v, st, Parts(src), gone)
    requires var leaf := Walk(v, st, Parts(src), gone).leaf; leaf.Some? ==> |leaf.value| < 12
    requires var p := Picked(v, st, Parts(src), gone, root); p.Some? ==> !IsDir(Ent(v, p.value))
    ensures RmReady(v, st, src, gone, true, root)
  {
    hide Tree, Walk, Parts, Grounded, StartStays, Picked;
  }

  lemma {:induction false} ReadyFolder(v: Vol, st: seq<Frame>, src: Text, gone: set<Slot>, root: bool, p: Slot)
    requires Tree(v) && |st| > 0 && 0 !in src && |src| < PATH_ROOM && |Parts(src)| <= 12
    requires Grounded(v, st, Parts(src)) && StartStays(v, st, Parts(src), gone)
    requires var leaf := Walk(v, st, Parts(src), gone).leaf; leaf.Some? ==> |leaf.value| < 12
    requires Picked(v, st, Parts(src), gone, root) == Some(p) && p in v.chains && IsDir(Ent(v, p)) && FlagSound(v, p)
    requires EntriesReady(v, st, src, gone, p, TABLE_SIZE)
    requires !DirGone(v, p.dir, SweptBefore(v, st, src, gone, p, TABLE_SIZE))
    ensures RmReady(v, st, src, gone, true, root)
  {
    hide Tree, Walk, Parts, Grounded, StartStays, Picked, EntriesReady, SweptBefore;
  }

  // The conditions pass to the folder that is picked at a turn.
  lemma {:induction false} CalmBelow(v: Vol, st: seq<Frame>, src: Text, gone: set<Slot>, s: Slot, r: set<Slot>,
      base: set<Slot>, e: Slot)
    requires Calm(v, st, src, gone, s, r, base) && e in v.chains && IsSlot(v, e) && e.dir == Ent(v, s).cluster
    requires var g, below := SweptBefore(v, st, src, gone, s, e.index), Spelled(src, Ent(v, e));
      var p := Picked(v, st, Parts(below), g, false); p.Some? && IsDir(Ent(v, p.value))
    ensures var g, below := SweptBefore(v, st, src, gone, s, e.index), Spelled(src, Ent(v, e));
      var p := Picked(v, st, Parts(below), g, false).value;
      && |src| < |below| && p in r && Landing(v, st, src) == Some(p.dir) && !DirGone(v, p.dir, g)
      && Calm(v, st, below, g, p, r, base)
  {
    hide Tree, Worded, Region, SweptBefore, Parts, Landing, FlagSound, Grounded, StartStays, Walk, Picked, Spellable;
    hide RoomDeep, Removable, DirGone, NameText, SlotsIn, Neat;
    var g, below := SweptBefore(v, st, src, gone, s, e.index), Spelled(src, Ent(v, e));
    var p := Picked(v, st, Parts(below), g, false).value;
    CalmLandsIn(v, st, src, gone, s, r, base);
    BeforeWent(v, st, src, gone, s, e.index, r);
    EntryPathReady(v, st, src, gone, s, r, base, e, g);
    TurnPicks(v, st, src, e, g);
    NextLandsIn(v, st, src, e, g, r);
    EntryText(v, e);
    LandedThere(v, st, src, g);
    LastOfTwo(Parts(src), NameText(Ent(v, e)));
    DeepAt(v, p.dir, |src|, |Parts(src)|, p);
    CalmLanding(v, st, src, gone, s, r, base, e);
  }

  lemma CalmLandsIn(v: Vol, st: seq<Frame>, src: Text, gone: set<Slot>, s: Slot, r: set<Slot>, base: set<Slot>)
    requires Calm(v, st, src, gone, s, r, base)
    ensures LandsIn(v, st, src, r)
  {
    hide Tree, Worded, Region, Parts, Landing, FlagSound, Grounded, StartStays, RoomDeep, SlotsIn;
  }

  lemma DeepAt(v: Vol, c: nat, length: nat, parts: nat, d: Slot)
    requires Tree(v) && RoomDeep(v, c, length, parts) && d in v.chains && IsSlot(v, d) && d.dir == c && IsDir(Ent(v, d))
    ensures RoomDeep(v, Ent(v, d).cluster, length + 12, parts + 1) && length + 24 < PATH_ROOM && parts + 1 < 12
  {
    hide Tree;
  }

  lemma CalmLanding(v: Vol, st: seq<Frame>, src: Text, gone: set<Slot>, s: Slot, r: set<Slot>, base: set<Slot>, e: Slot)
    requires Calm(v, st, src, gone, s, r, base) && LiveEntry(v, e) && NameText(Ent(v, e)) != UP
    requires |Spelled(src, Ent(v, e))| <= |src| + 12
    requires Parts(Spelled(src, Ent(v, e))) == Parts(src) + [NameText(Ent(v, e))]
    ensures LandsCalmly(v, st, Spelled(src, Ent(v, e)), r)
    ensures var l, n := Landing(v, st, src), Landing(v, st, Spelled(src, Ent(v, e)));
      n.Some? ==>
        && l.Some? && l.value in v.tabs
        && n.value in v.tabs && n.value != ROOT_CLUSTER && Parent(v, n.value) == l.value
  {
    hide Tree, Worded, Parts, Landing, FlagSound, Grounded, StartStays, NameText, Neat;
    var n := Landing(v, st, Spelled(src, Ent(v, e)));
    NextLanding(v, st, src, e);
    if n.Some? {
      var l := Landing(v, st, src);
      var d :| d in v.chains && IsSlot(v, d) && IsDir(Ent(v, d)) && d.dir == l.value && Ent(v, d).cluster == n.value;
      assert d in r;
      DeepAt(v, l.value, |src|, |Parts(src)|, d);
      RoomDeepLess(v, n.value, |src| + 12, |Parts(src)| + 1, |Spelled(src, Ent(v, e))|, |Parts(src)| + 1);
      FolderSlot(v, d);
    }
  }

  // The directory of what has been picked is there at the end of its loop.
  lemma {:induction false} ParentThere(v: Vol, st: seq<Frame>, src: Text, gone: set<Slot>, s: Slot, r: set<Slot>,
      base: set<Slot>, e: Slot, p: Slot, g: set<Slot>)
    requires Calm(v, st, src, gone, s, r, base) && LiveEntry(v, e) && NameText(Ent(v, e)) != UP
    requires |Spelled(src, Ent(v, e))| <= |src| + 12
    requires Parts(Spelled(src, Ent(v, e))) == Parts(src) + [NameText(Ent(v, e))]
    requires Calm(v, st, Spelled(src, Ent(v, e)), g, p, r, base) && Landing(v, st, src) == Some(p.dir)
    requires !DirGone(v, p.dir, g)
    ensures !DirGone(v, p.dir, SweptBefore(v, st, Spelled(src, Ent(v, e)), g, p, TABLE_SIZE))
  {
    hide Tree, Worded, Region, SweptBefore, Parts, Landing, FlagSound, Grounded, StartStays, Spellable, RoomDeep;
    hide Removable, UnderSet, SlotsIn, NameText;
    var below := Spelled(src, Ent(v, e));
    CalmLanding(v, st, src, gone, s, r, base, e);
    var n := Landing(v, st, below);
    if n.Some? {
      UnderIsRegion(v, n.value, r);
      BeforeWent(v, st, below, g, p, TABLE_SIZE, UnderSet(v, n.value));
      OwnerOutside(v, p.dir, n.value);
    } else {
      NothingIsRegion(v);
      BeforeWent(v, st, below, g, p, TABLE_SIZE, {});
    }
  }

  lemma {:induction false} EntriesCalm(v: Vol, st: seq<Frame>, src: Text, gone: set<Slot>, s: Slot, r: set<Slot>,
      base: set<Slot>, i: nat)
    requires Calm(v, st, src, gone, s, r, base) && i <= TABLE_SIZE
    ensures EntriesReady(v, st, src, gone, s, i)
    decreases Slack(src), i, 1
  {
    hide Tree, Worded, Region, SweptBefore, Parts, FlagSound, Grounded, StartStays, RmReady, NeatEntries, LandsCalmly;
    if i > 1 {
      var e := Slot(Ent(v, s).cluster, i - 1);
      EntriesCalm(v, st, src, gone, s, r, base, i - 1);
      SlotsAreThere(v, e);
      if e in v.chains {
        TurnReady(v, st, src, gone, s, r, base, e);
      }
    }
  }

  // At its turn the call for the entry's path finds what it asks for.
  lemma {:induction false} TurnReady(v: Vol, st: seq<Frame>, src: Text, gone: set<Slot>, s: Slot, r: set<Slot>,
      base: set<Slot>, e: Slot)
    requires Calm(v, st, src, gone, s, r, base) && e in v.chains && IsSlot(v, e) && e.dir == Ent(v, s).cluster
    ensures var g, below := SweptBefore(v, st, src, gone, s, e.index), Spelled(src, Ent(v, e));
      ExtEnds(Ent(v, e)) && |src| < |below| < PATH_ROOM && RmReady(v, st, below, g, true, false)
    decreases Slack(src), e.index, 0
  {
    hide Tree, Worded, Region, SweptBefore, Parts, FlagSound, Grounded, StartStays, RmReady, Picked, Walk, NameText;
    hide Went, LandsIn, LandsCalmly, DirGone, EntriesReady, NeatEntries, Landing, Spellable, Neat, ExtEnds;
    var g, below := SweptBefore(v, st, src, gone, s, e.index), Spelled(src, Ent(v, e));
    CalmLandsIn(v, st, src, gone, s, r, base);
    BeforeWent(v, st, src, gone, s, e.index, r);
    WentWithin(v, gone, g, r);
    EntryPathReady(v, st, src, gone, s, r, base, e, g);
    var p := Picked(v, st, Parts(below), g, false);
    if p.Some? && IsDir(Ent(v, p.value)) {
      TurnPicks(v, st, src, e, g);
      CalmBelow(v, st, src, gone, s, r, base, e);
      EntriesCalm(v, st, below, g, p.value, r, base, TABLE_SIZE);
      ParentThere(v, st, src, gone, s, r, base, e, p.value, g);
      ReadyFolder(v, st, below, g, false, p.value);
    } else {
      ReadyFile(v, st, below, g, false);
    }
  }

  lemma WentWithin(v: Vol, gone: set<Slot>, now: set<Slot>, r: set<Slot>)
    requires Went(v, gone, now, r)
    ensures now <= gone + r
  {
    hide Removable, Spellable;
  }

  // A recursive rm that has chosen folder `s` finds what it asks for all the way, if the names below, and
  // those where the paths of the entries land, are neat, their flags hide nothing, the paths fit, and the
  // path starts outside.
  lemma {:induction false} ReadyIf(v: Vol, st: seq<Frame>, src: Text, gone: set<Slot>, root: bool, s: Slot,
      r: set<Slot>)
    requires Calm(v, st, src, gone, s, r, gone) && Picked(v, st, Parts(src), gone, root) == Some(s) && FlagSound(v, s)
    requires var leaf := Walk(v, st, Parts(src), gone).leaf; leaf.Some? ==> |leaf.value| < 12
    requires !DirGone(v, s.dir, gone + r)
    ensures RmReady(v, st, src, gone, true, root)
  {
    hide Tree, Worded, Region, SweptBefore, Parts, FlagSound, Grounded, RmReady, Picked, Walk, EntriesReady, Risen;
    hide Went, LandsIn, LandsCalmly, NeatEntries;
    EntriesCalm(v, st, src, gone, s, r, gone, TABLE_SIZE);
    CalmLandsIn(v, st, src, gone, s, r, gone);
    BeforeWent(v, st, src, gone, s, TABLE_SIZE, r);
    WentWithin(v, gone, SweptBefore(v, st, src, gone, s, TABLE_SIZE), r);
    ReadyFolder(v, st, src, gone, root, s);
  }
}
