// Exactly which slots go, when a folder whose name has a dot is no way into another, and what goes at all
// below such a folder.
module Strays {
  import opened Layout
  import opened Volume
  import opened Pruning
  import opened Operations
  import opened Strings
  import opened Paths
  import opened Subtrees
  import opened Walking
  import opened Sweeping
  import opened Spelling
  import opened Turns
  import opened Bounds
  import opened SweepResults

  // No text with a dot stands for a folder and is at the same time the name of one.
  ghost predicate NoStray(v: Vol, s: Slot)
    requires Tree(v)
  {
    forall e :: e in Inner(v, s) && IsSlot(v, e) ==> Straight(v, e)
  }

  ghost predicate Straight(v: Vol, e: Slot)
    requires IsSlot(v, e)
  {
    var t, dir := NameText(Ent(v, e)), v.tabs[e.dir];
    var key := NameAndExt(t);
    DOT in t && key.Some? && First(dir, FolderKey(key.value.0, key.value.1)) < TABLE_SIZE ==>
      |t| > 8 || First(dir, FolderKey(Pad(t, 8), ZERO_EXT)) == TABLE_SIZE
  }

  // At its turn the entry is picked as the folder it is, or what is picked is a file, or a folder to whose
  // entries no path leads.
  lemma StraightPicks(v: Vol, st: seq<Frame>, src: Text, e: Slot, g: set<Slot>)
    requires Tree(v) && Worded(v) && |st| > 0 && LiveEntry(v, e) && Straight(v, e) && Landing(v, st, src) == Some(e.dir)
    ensures var below := Spelled(src, Ent(v, e));
      var p := Picked(v, st, Parts(below), g, false);
      p.Some? && IsDir(Ent(v, p.value)) ==>
        (p.value == e && Spellable(Ent(v, e))) || Landing(v, st, below) == None
  {
    hide Tree, Worded, NameText, NameAndExt, Parts, Walk, Picked, Landing, First, FirstFrom, Pad, Spellable, Neat;
    hide Unpad;
    var t, below := NameText(Ent(v, e)), Spelled(src, Ent(v, e));
    var p := Picked(v, st, Parts(below), g, false);
    TurnPicks(v, st, src, e, g);
    if p.Some? && IsDir(Ent(v, p.value)) {
      var q := p.value;
      FolderSlot(v, q);
      FolderFirst(v, q);
      EntryText(v, e);
      if DOT in t {
        NextLanding(v, st, src, e);
        NoFolderLands(v, st, src, e, q.dir);
      } else {
        DotlessText(Ent(v, e));
        Separated(t, Ent(v, q).name, Ent(v, q).ext);
        SameFolder(v, e, q);
        SpellableExact(Ent(v, e));
      }
    }
  }

  lemma SameFolder(v: Vol, e: Slot, q: Slot)
    requires Tree(v) && LiveEntry(v, e) && IsDir(Ent(v, e)) && NameText(Ent(v, e)) == Unpad(Ent(v, e).name)
    requires q in v.chains && IsSlot(v, q) && IsDir(Ent(v, q)) && q.dir == e.dir
    requires Ent(v, q).name == Pad(NameText(Ent(v, e)), 8)
    ensures q == e
  {
    hide Tree, First, Pad, Unpad, NameText;
    FolderFirst(v, e);
    FolderFirst(v, q);
  }

  lemma NoFolderLands(v: Vol, st: seq<Frame>, src: Text, e: Slot, c: nat)
    requires Tree(v) && Worded(v) && |st| > 0 && LiveEntry(v, e) && NameText(Ent(v, e)) != UP
    requires Landing(v, st, src) == Some(c) && c in v.tabs
    requires var t := NameText(Ent(v, e)); |t| > 8 || First(v.tabs[c], FolderKey(Pad(t, 8), ZERO_EXT)) == TABLE_SIZE
    ensures Landing(v, st, Spelled(src, Ent(v, e))) == None
  {
    hide Tree, Worded, NameText, Parts, Walk, Landing, First, FirstFrom, Pad, Neat;
    NextLanding(v, st, src, e);
    var next := Landing(v, st, Spelled(src, Ent(v, e)));
    if next.Some? {
      var f :| f in v.chains && IsSlot(v, f) && IsDir(Ent(v, f)) && f.dir == c && Ent(v, f).cluster == next.value
        && Ent(v, f).name == Pad(NameText(Ent(v, e)), 8) && |NameText(Ent(v, e))| <= 8;
      FolderFirst(v, f);
    }
  }

  // What goes below an entry has no wild folder above it, if there is none below the entry.
  lemma NotWildBelow(v: Vol, s: Slot, e: Slot, q: Slot)
    requires Tree(v) && s in v.chains && IsSlot(v, s) && IsDir(Ent(v, s))
    requires e in v.chains && IsSlot(v, e) && e.dir == Ent(v, s).cluster && q in Subtree(v, e)
    requires (q == e || Spellable(Ent(v, e))) && !Wild(v, e, q)
    ensures !Wild(v, s, q)
  {
    hide Tree, Subtree, Spellable, Under, Via, Below;
    var k := Ent(v, s).cluster;
    FolderSlot(v, s);
    SubtreeLives(v, e, q);
    SlotDir(v, q);
    forall d | d in Inner(v, s) && d != q && q in Subtree(v, d) && IsSlot(v, d) && IsDir(Ent(v, d))
               && !Spellable(Ent(v, d))
      ensures false
    {
      SubtreeLives(v, s, d);
      InnerVia(v, s, d);
      ViaAtLeastOne(v, k, d);
      var j := Via(v, k, d);
      ViaThis(v, k, j, d);
      SlotDir(v, Slot(k, j));
      SubtreeBelow(v, Slot(k, j), d);
      SameEntryAbove(v, k, Slot(k, j), e, q);
      SubtreeBelow(v, d, q);
    }
  }

  // Nothing goes below a folder that is not spelled.
  lemma {:induction false} NothingWild(v: Vol, st: seq<Frame>, src: Text, gone: set<Slot>, root: bool, s: Slot, q: Slot)
    requires Plainly(v, st, src, gone, root, s) && Orderly(v, s) && NoStray(v, s)
    requires q in Swept(v, st, src, gone, s) && q !in gone && q in Subtree(v, s)
    ensures !Wild(v, s, q)
    decreases Slack(src), TABLE_SIZE + 1
  {
    hide Tree, Worded, Subtree, Walk, Parts, Picked, LiveEntry, Spellable, SweptBefore, Wild, Landing, NoStray, Dropped;
    NotWildSelf(v, s);
    SubtreeLives(v, s, q);
    if q != s {
      NotDirect(v, s, q);
      DroppedIn(v, s, SweptBefore(v, st, src, gone, s, TABLE_SIZE), q);
      BeforeNotWild(v, st, src, gone, root, s, TABLE_SIZE, q);
    }
  }

  lemma DroppedIn(v: Vol, s: Slot, g: set<Slot>, q: Slot)
    requires IsSlot(v, s) && q in Dropped(v, s, g) && q.dir != s.dir
    ensures q in g
  {
    hide Found, EntriesGone, Stuck;
  }

  lemma NotWildSelf(v: Vol, s: Slot)
    requires Tree(v) && s in v.chains
    ensures !Wild(v, s, s)
  {
    hide Tree, Subtree, Spellable;
    forall d | d in Inner(v, s) && s in Subtree(v, d)
      ensures false
    {
      SubtreeLives(v, s, d);
      SubtreeBelow(v, s, d);
    }
  }

  lemma {:induction false} BeforeNotWild(v: Vol, st: seq<Frame>, src: Text, gone: set<Slot>, root: bool, s: Slot,
      i: nat, q: Slot)
    requires Plainly(v, st, src, gone, root, s) && Orderly(v, s) && NoStray(v, s) && IsDir(Ent(v, s)) && i <= TABLE_SIZE
    requires q in SweptBefore(v, st, src, gone, s, i) && q !in gone
    ensures !Wild(v, s, q)
    decreases Slack(src), i
  {
    hide Tree, Worded, Subtree, Walk, Parts, Picked, Spellable, Swept, Wild, Landing, NameText, Straight, Neat;
    hide Spelled, Ahead, Fits, Alone;
    if i > 1 {
      var g, e := SweptBefore(v, st, src, gone, s, i - 1), Slot(Ent(v, s).cluster, i - 1);
      if q in g {
        BeforeNotWild(v, st, src, gone, root, s, i - 1, q);
      } else {
        FolderLands(v, st, src, gone, root, s);
        TurnAdded(v, st, src, gone, s, i, q);
        EntryOf(v, s, e);
        OrderlyBelow(v, s, e);
        var below := Spelled(src, Ent(v, e));
        StraightPicks(v, st, src, e, g);
        var p := Picked(v, st, Parts(below), g, false).value;
        TurnPicks(v, st, src, e, g);
        EntryOf(v, s, p);
        OrderlyBelow(v, s, p);
        AheadFronts(v, p);
        if p == e && Spellable(Ent(v, e)) && IsDir(Ent(v, e)) {
          SpelledPlainly(v, st, src, e, g);
          SweptBounds(v, st, below, g, false, e);
          if q in Subtree(v, e) {
            NothingWild(v, st, below, g, false, e, q);
            NotWildBelow(v, s, e, q);
          }
        } else {
          PickedAlone(v, st, Parts(below), g, false);
          PickedGoes(v, st, below, g, p);
        }
        if q.dir == Ent(v, s).cluster {
          EntryNotWild(v, s, q);
        }
      }
    }
  }

  lemma TurnAdded(v: Vol, st: seq<Frame>, src: Text, gone: set<Slot>, s: Slot, i: nat, q: Slot)
    requires Tree(v) && |st| > 0 && s in v.chains && IsSlot(v, s) && IsDir(Ent(v, s)) && 1 < i <= TABLE_SIZE
    requires q in SweptBefore(v, st, src, gone, s, i) && q !in SweptBefore(v, st, src, gone, s, i - 1)
    ensures var g, e := SweptBefore(v, st, src, gone, s, i - 1), Slot(Ent(v, s).cluster, i - 1);
      && e in v.chains && IsSlot(v, e)
      && var below := Spelled(src, Ent(v, e));
      var p := Picked(v, st, Parts(below), g, false);
      |below| < PATH_ROOM && p.Some? && p.value in v.chains && q in Swept(v, st, below, g, p.value)
  {
    hide Tree, Picked, Parts, Spelled, Swept;
    var e := Slot(Ent(v, s).cluster, i - 1);
    SlotsAreThere(v, e);
    if e in v.chains {
      PickedLives(v, st, Parts(Spelled(src, Ent(v, e))), SweptBefore(v, st, src, gone, s, i - 1));
    }
  }

  // A file, or a folder to whose entries no path leads.
  lemma {:induction false} PickedGoes(v: Vol, st: seq<Frame>, src: Text, gone: set<Slot>, s: Slot)
    requires Tree(v) && Worded(v) && |st| > 0 && Orderly(v, s) && Fits(Ent(v, s)) && s !in gone
    requires if IsDir(Ent(v, s)) then Landing(v, st, src) == None else Alone(v, s, gone)
    ensures Swept(v, st, src, gone, s) <= gone + {s} + Ahead(v, s)
  {
    hide Tree, Worded, Landing, SweptBefore, Ahead, LiveEntry, Alone, Fits, Spellable, Removable;
    NothingIsRegion(v);
    NeatBelow(v, s);
    if IsDir(Ent(v, s)) {
      BeforeWent(v, st, src, gone, s, TABLE_SIZE, {});
      WentIn(v, gone, SweptBefore(v, st, src, gone, s, TABLE_SIZE), {});
      DroppedIs(v, s, SweptBefore(v, st, src, gone, s, TABLE_SIZE));
    } else {
      DroppedIs(v, s, gone);
    }
  }

  /* The results */

  // On a path that goes through nothing that it may remove, what goes is exactly what is good and does not
  // lie below a folder that is not spelled. Of what does, nothing goes unless a text is both the name of a
  // folder and stands for another. If a file is in front of the folder, it goes in place of the folder.
  lemma {:induction false} SweptExact(v: Vol, st: seq<Frame>, src: Text, gone: set<Slot>, root: bool, s: Slot)
    requires Plainly(v, st, src, gone, root, s) && Orderly(v, s) && RoomFor(v, s, src) && Subtree(v, s) !! gone
    requires Direct(v, st, src, gone, s)
    ensures forall q :: q in Subtree(v, s) && !Wild(v, s, q) ==>
      (q in Swept(v, st, src, gone, s) <==> Good(v, gone, s, q))
    ensures NoStray(v, s) ==>
      forall q :: q in Subtree(v, s) ==> (q in Swept(v, st, src, gone, s) <==> Good(v, gone, s, q) && !Wild(v, s, q))
    ensures gone + Ahead(v, s) <= Swept(v, st, src, gone, s) <= gone + Subtree(v, s) + Ahead(v, s)
  {
    hide Tree, Worded, Subtree, Walk, Parts, Picked, LiveEntry, Spellable, Swept, Wild, NoStray, Good, Direct, Ahead;
    SweptBounds(v, st, src, gone, root, s);
    forall q | q in Subtree(v, s)
      ensures q in Swept(v, st, src, gone, s) ==> Good(v, gone, s, q) && (NoStray(v, s) ==> !Wild(v, s, q))
      ensures !Wild(v, s, q) && Good(v, gone, s, q) ==> q in Swept(v, st, src, gone, s)
    {
      SubtreeLives(v, s, q);
      if q in Swept(v, st, src, gone, s) {
        GoneIsGood(v, gone, Swept(v, st, src, gone, s), s, q);
        if NoStray(v, s) {
          NothingWild(v, st, src, gone, root, s, q);
        }
      } else if !Wild(v, s, q) && Good(v, gone, s, q) {
        GoodGoes(v, st, src, gone, root, s, q);
      }
    }
  }

  // ... and so everything goes exactly when everything is clear and no file is in front of the folder.
  lemma {:induction false} SweptAll(v: Vol, st: seq<Frame>, src: Text, gone: set<Slot>, root: bool, s: Slot)
    requires Plainly(v, st, src, gone, root, s) && Orderly(v, s) && RoomFor(v, s, src) && Subtree(v, s) !! gone
    requires Direct(v, st, src, gone, s)
    ensures Swept(v, st, src, gone, s) == gone + Subtree(v, s) <==> Clear(v, s) && Ahead(v, s) <= gone
  {
    hide Tree, Worded, Subtree, Walk, Parts, Picked, LiveEntry, Spellable, Swept, Wild, Clear, Direct, Ahead;
    SweptExact(v, st, src, gone, root, s);
    SweptBounds(v, st, src, gone, root, s);
    SelfBelow(v, s);
    NotWildSelf(v, s);
    if Clear(v, s) && Ahead(v, s) <= gone {
      forall q | q in Subtree(v, s)
        ensures q in Swept(v, st, src, gone, s)
      {
        if q != s {
          ClearBelow(v, gone, s, q);
        }
      }
    }
  }

  // The paths of the entries of a folder that was chosen by a name with a dot land in the folder that has
  // this name, dot and all. Only what is in it can go.
  lemma {:induction false} DottedStays(v: Vol, st: seq<Frame>, src: Text, gone: set<Slot>, root: bool, s: Slot, i: nat)
    requires Tree(v) && Worded(v) && |st| > 0 && s in v.chains && IsSlot(v, s) && IsDir(Ent(v, s)) && Orderly(v, s)
    requires Picked(v, st, Parts(src), gone, root) == Some(s) && DOT in Last(src) && i <= TABLE_SIZE
    ensures var j := First(v.tabs[s.dir], FolderKey(Pad(Last(src), 8), ZERO_EXT));
      if |Last(src)| > 8 || j == TABLE_SIZE then SweptBefore(v, st, src, gone, s, i) == gone
      else Orderly(v, Slot(s.dir, j)) ==> SweptBefore(v, st, src, gone, s, i) <= gone + Inner(v, Slot(s.dir, j))
  {
    hide Tree, Worded, Subtree, Parts, LiveEntry, Spellable, SweptBefore, Walk, Pad, Landing, Region, First, Removable;
    hide NeatEntries, Picked;
    DottedLands(v, st, src, gone, root, s);
    NeatBelow(v, s);
    var j := First(v.tabs[s.dir], FolderKey(Pad(Last(src), 8), ZERO_EXT));
    BeforeGrows(v, st, src, gone, s, 0, i);
    if |Last(src)| > 8 || j == TABLE_SIZE {
      NothingIsRegion(v);
      BeforeWent(v, st, src, gone, s, i, {});
    } else {
      var d := Slot(s.dir, j);
      LiveSlot(v, d);
      FirstMatches(v.tabs[s.dir], FolderKey(Pad(Last(src), 8), ZERO_EXT));
      if Orderly(v, d) {
        InnerIsRegion(v, d);
        BeforeWent(v, st, src, gone, s, i, Inner(v, d));
      }
    }
  }

  lemma FirstMatches(t: Table, p: Pattern)
    ensures First(t, p) < TABLE_SIZE ==> Matches(t[First(t, p)], p)
  {
    hide FirstFrom;
  }

  lemma DottedLands(v: Vol, st: seq<Frame>, src: Text, gone: set<Slot>, root: bool, s: Slot)
    requires Tree(v) && Worded(v) && |st| > 0 && s in v.chains && IsSlot(v, s) && DOT in Last(src)
    requires Picked(v, st, Parts(src), gone, root) == Some(s)
    ensures var j, l := First(v.tabs[s.dir], FolderKey(Pad(Last(src), 8), ZERO_EXT)), Landing(v, st, src);
      if |Last(src)| > 8 || j == TABLE_SIZE then l == None else l == Some(v.tabs[s.dir][j].cluster)
  {
    hide Tree, NameAndExt, Chosen, Parts, Worded, First, Unpad, Pad, Sought;
    var r := Walk(v, st, Parts(src), gone);
    LeafIsLast(v, st, Parts(src), gone);
    LeafIsLast(v, st, Parts(src), {});
    NoNameSought();
    if r.leaf.None? {
      NamelessNothing(v, Top(r.stack).cluster, gone);
    }
    WalkLess(v, st, Parts(src), gone, {});
    assert [Last(src), []][1..] == [[]];
  }

  // Once a folder that the path goes through is gone, nothing more goes.
  lemma {:induction false} SweepStops(v: Vol, st: seq<Frame>, src: Text, gone: set<Slot>, s: Slot, i: nat, j: nat)
    requires Tree(v) && Worded(v) && |st| > 0 && s in v.chains && IsSlot(v, s) && IsDir(Ent(v, s))
    requires NeatEntries(v, s) && i <= j <= TABLE_SIZE
    requires Walk(v, st, Slashed(Parts(src)), SweptBefore(v, st, src, gone, s, i)).code != 0
    ensures SweptBefore(v, st, src, gone, s, j) == SweptBefore(v, st, src, gone, s, i)
    decreases j
  {
    hide Tree, Worded, Parts, NameText, Walk, Swept, Picked, Neat, Spellable;
    if i < j {
      SweepStops(v, st, src, gone, s, i, j - 1);
      var g, q := SweptBefore(v, st, src, gone, s, i), Slot(Ent(v, s).cluster, j - 1);
      if j > 1 && q in v.chains {
        TurnPicks(v, st, src, q, g);
      }
    }
  }
}
