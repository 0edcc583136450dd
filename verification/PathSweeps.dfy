// What rm removes when its path goes through what it removes.
module PathSweeps {
  import opened Layout
  import opened Volume
  import opened Pruning
  import opened Operations
  import opened Strings
  import opened Paths
  import opened Subtrees
  import opened Clearing
  import opened Walking
  import opened Sweeping
  import opened Spelling
  import opened Turns
  import opened Bounds
  import opened SweepResults

  /* The directories that a walk enters */

  ghost function Crossed(v: Vol, st: seq<Frame>, comps: seq<Text>): (r: set<nat>)
    requires |st| > 0 && |comps| > 0
    decreases |comps|
  {
    var c := comps[0];
    if |comps| == 1 then {}
    else if c == UP then if |st| > 1 then Crossed(v, st[..|st| - 1], comps[1..]) else {}
    else if c == [] then Crossed(v, st, comps[1..])
    else
      var dir, name := Top(st).cluster, Pad(c, 8);
      if |c| <= 8 && dir in v.tabs && OpenLeft(v, dir, name, {}) == 0 then
        {Opened(v, dir, name)} + Crossed(v, st + [Frame(Opened(v, dir, name), name)], comps[1..])
      else {}
  }

  lemma OpenLeftIff(v: Vol, c: nat, name: Name, gone: set<Slot>)
    requires Tree(v) && c in v.tabs && OpenLeft(v, c, name, {}) == 0
    ensures First(v.tabs[c], FolderKey(name, ZERO_EXT)) < TABLE_SIZE
    ensures OpenLeft(v, c, name, gone) == 0 <==> !DirGone(v, Opened(v, c, name), gone)
  {
    hide Tree, First, FirstFrom;
    var s := Slot(c, First(v.tabs[c], FolderKey(name, ZERO_EXT)));
    LiveSlot(v, s);
    FolderSlot(v, s);
  }

  // A path is blocked exactly by the folders that are gone among those it enters.
  lemma {:induction false} SafeIsEntered(v: Vol, st: seq<Frame>, comps: seq<Text>, gone: set<Slot>)
    requires Tree(v) && |st| > 0 && |comps| > 0 && Walk(v, st, comps, {}).code == 0
    ensures Walk(v, st, comps, gone).code == 0 <==> forall c :: c in Crossed(v, st, comps) ==> !DirGone(v, c, gone)
    decreases |comps|
  {
    hide Tree, OpenLeft, First, DirGone;
    var c := comps[0];
    if |comps| > 1 {
      if c == UP {
        SafeIsEntered(v, st[..|st| - 1], comps[1..], gone);
      } else if c == [] {
        SafeIsEntered(v, st, comps[1..], gone);
      } else {
        var dir, name := Top(st).cluster, Pad(c, 8);
        OpenLeftIff(v, dir, name, gone);
        SafeIsEntered(v, st + [Frame(Opened(v, dir, name), name)], comps[1..], gone);
      }
    }
  }

  ghost predicate OnStack(st: seq<Frame>, c: nat) {
    exists i :: 0 <= i < |st| && st[i].cluster == c
  }

  // A walk enters a directory from its parent, or starts there.
  lemma {:induction false} EnteredFromParent(v: Vol, st: seq<Frame>, comps: seq<Text>, x: nat)
    requires Tree(v) && |st| > 0 && |comps| > 0 && Grounded(v, st, comps) && x in Crossed(v, st, comps)
    ensures x in v.tabs && x != ROOT_CLUSTER
    ensures Parent(v, x) in Crossed(v, st, comps) || OnStack(Risen(st, comps), Parent(v, x))
    decreases |comps|
  {
    hide Tree, OpenLeft, First, Leads;
    var c := comps[0];
    if |comps| > 1 {
      if c == UP {
        EnteredFromParent(v, st[..|st| - 1], comps[1..], x);
      } else if c == [] {
        EnteredFromParent(v, st, comps[1..], x);
      } else {
        var dir, name := Top(st).cluster, Pad(c, 8);
        OpenedThere(v, dir, name, {});
        OpenedIsChild(v, dir, name);
        Pushed(v, st, name);
        var next := st + [Frame(Opened(v, dir, name), name)];
        PathIsGrounded(v, next, comps[1..]);
        if x == Opened(v, dir, name) {
          assert st[|st| - 1].cluster == dir;
        } else {
          EnteredFromParent(v, next, comps[1..], x);
          if OnStack(Risen(next, comps[1..]), Parent(v, x)) {
            var i :| 0 <= i < |Risen(next, comps[1..])| && Risen(next, comps[1..])[i].cluster == Parent(v, x);
            assert next[i].cluster == Parent(v, x);
            assert i < |st| ==> st[i].cluster == Parent(v, x);
          }
        }
      }
    }
  }

  // One component more enters one directory more.
  lemma {:induction false} EnteredDown(v: Vol, st: seq<Frame>, comps: seq<Text>, t: Text)
    requires |st| > 0 && |comps| > 0 && t != UP && t != []
    requires Walk(v, st, Slashed(comps + [t]), {}).code == 0
    ensures var k := Top(Walk(v, st, Slashed(comps + [t]), {}).stack).cluster;
      Crossed(v, st, Slashed(comps + [t])) == Crossed(v, st, Slashed(comps)) + {k}
    decreases |comps|
  {
    hide OpenLeft, First;
    var c := comps[0];
    assert Slashed(comps)[1..] == Slashed(comps[1..]);
    assert Slashed(comps + [t])[1..] == Slashed(comps[1..] + [t]);
    if |comps| == 1 {
      assert comps[1..] == [] && Slashed([]) == [[]] && [] + [t] == [t];
      assert Slashed(comps) == [c, []] && Slashed(comps + [t]) == [c, t, []];
      EnteredOne(v, st, c, t);
    } else if c == UP {
      EnteredDown(v, st[..|st| - 1], comps[1..], t);
    } else if c == [] {
      EnteredDown(v, st, comps[1..], t);
    } else {
      OpenedThere(v, Top(st).cluster, Pad(c, 8), {});
      EnteredDown(v, st + [Frame(Opened(v, Top(st).cluster, Pad(c, 8)), Pad(c, 8))], comps[1..], t);
    }
  }

  lemma {:induction false} EnteredOne(v: Vol, st: seq<Frame>, c: Text, t: Text)
    requires |st| > 0 && t != UP && t != [] && Walk(v, st, [c, t, []], {}).code == 0
    ensures Crossed(v, st, [c, t, []]) ==
      Crossed(v, st, [c, []]) + {Top(Walk(v, st, [c, t, []], {}).stack).cluster}
  {
    hide OpenLeft, First;
    assert [c, t, []][1..] == [t, []] && [c, []][1..] == [[]];
    if c == UP {
      LastDown(v, st[..|st| - 1], t);
    } else if c == [] {
      LastDown(v, st, t);
    } else {
      OpenedThere(v, Top(st).cluster, Pad(c, 8), {});
      LastDown(v, st + [Frame(Opened(v, Top(st).cluster, Pad(c, 8)), Pad(c, 8))], t);
    }
  }

  lemma {:induction false} LastDown(v: Vol, st: seq<Frame>, t: Text)
    requires |st| > 0 && t != UP && t != [] && Walk(v, st, [t, []], {}).code == 0
    ensures Crossed(v, st, [t, []]) == {Top(Walk(v, st, [t, []], {}).stack).cluster}
    ensures Crossed(v, st, [[]]) == {}
  {
    hide OpenLeft, First;
    assert [t, []][1..] == [[]];
  }

  /* The setting */

  // A clear folder with no file in front of it, and a path to it that starts outside the folder.
  ghost predicate Sweepable(v: Vol, st: seq<Frame>, src: Text, gone: set<Slot>, root: bool, s: Slot) {
    && Plainly(v, st, src, gone, root, s) && Orderly(v, s) && RoomFor(v, s, src) && Subtree(v, s) !! gone
    && Grounded(v, st, Parts(src)) && StartStays(v, st, Parts(src), gone + Inner(v, s)) && Clear(v, s)
    && Ahead(v, s) <= gone
  }

  // The path of a folder's entry starts where that of the folder does.
  lemma {:induction false} RisenBelow(st: seq<Frame>, comps: seq<Text>, t: Text)
    requires |st| > 0 && |comps| > 0 && comps[|comps| - 1] != UP && comps[|comps| - 1] != []
    ensures Risen(st, comps + [t]) == Risen(st, comps)
    decreases |comps|
  {
    assert (comps + [t])[1..] == comps[1..] + [t];
    if |comps| > 1 {
      if comps[0] == UP && |st| > 1 {
        RisenBelow(st[..|st| - 1], comps[1..], t);
      } else if comps[0] == [] {
        RisenBelow(st, comps[1..], t);
      }
    }
  }

  lemma LastIsName(v: Vol, st: seq<Frame>, src: Text, gone: set<Slot>, root: bool, s: Slot)
    requires Tree(v) && Worded(v) && |st| > 0 && Picked(v, st, Parts(src), gone, root) == Some(s)
    ensures Last(src) != UP && Last(src) != []
  {
    hide Tree, NameAndExt, Chosen, Parts, Worded, First, Unpad, Pad, Sought;
    var r := Walk(v, st, Parts(src), gone);
    LeafIsLast(v, st, Parts(src), gone);
    NoNameSought();
    NamelessNothing(v, Top(r.stack).cluster, gone);
    if r.leaf == Some([]) {
      SoughtIsText([]);
    }
  }

  // The conditions pass to an entry at its turn, if it is alone.
  lemma {:induction false} EntrySweepable(v: Vol, st: seq<Frame>, src: Text, gone: set<Slot>, root: bool, s: Slot,
      e: Slot, g: set<Slot>)
    requires Sweepable(v, st, src, gone, root, s) && IsDir(Ent(v, s)) && e in Inner(v, s) && IsSlot(v, e)
    requires e.dir == Ent(v, s).cluster && gone <= g <= gone + Inner(v, s) && Subtree(v, e) !! g
    requires Walk(v, st, Slashed(Parts(src)), g).code == 0 && Ahead(v, e) <= g && (!IsDir(Ent(v, e)) ==> Alone(v, e, g))
    requires !Fronts(v, e)
    ensures var below := Spelled(src, Ent(v, e));
      && e in v.chains && e !in gone && |src| < |below| < PATH_ROOM
      && Picked(v, st, Parts(below), g, false) == Some(e) && Sweepable(v, st, below, g, false, e)
      && Landing(v, st, src) == Some(e.dir) && LiveEntry(v, e) && Spellable(Ent(v, e))
  {
    hide Tree, Worded, Subtree, Walk, Picked, Neat, Spellable, Parts, NameText, Stuck, Risen, Ahead, Alone, Fronts;
    hide Landing, RoomFor, Swept, Fits, StackOk;
    var below := Spelled(src, Ent(v, e));
    OrderlyBelow(v, s, e);
    FolderLands(v, st, src, gone, root, s);
    ClearParts(v, s, e);
    SelfBelow(v, e);
    SpelledPicks(v, st, src, e, g);
    SpelledPlainly(v, st, src, e, g);
    EntryText(v, e);
    RoomForEntry(v, s, e, src);
    LastIsName(v, st, src, gone, root, s);
    RisenBelow(st, Parts(src), NameText(Ent(v, e)));
  }

  lemma ClearParts(v: Vol, s: Slot, e: Slot)
    requires Tree(v) && s in v.chains && Clear(v, s) && e in Inner(v, s) && e in v.chains && IsSlot(v, e)
    ensures Spellable(Ent(v, e)) && Loose(v, e) && !Stuck(v, e) && Clear(v, e)
  {
    hide Tree, Subtree, Spellable, Fits, Stuck, Fronts;
    ClearInside(v, s, e);
    SelfBelow(v, e);
  }

  /* Entries in order */

  // Everything that may have gone before entry `i`.
  ghost function Done(v: Vol, gone: set<Slot>, s: Slot, i: nat): set<Slot>
    requires Tree(v) && IsSlot(v, s)
  {
    gone + Earlier(v, Ent(v, s).cluster, i)
  }

  lemma EarlierGrows(v: Vol, k: nat, i: nat, j: nat)
    requires Tree(v) && i <= j
    ensures Earlier(v, k, i) <= Earlier(v, k, j)
  {
    hide Tree, Under, Via;
  }

  // Entry `i` and everything below it is disjoint from what has been cleared before, and all of that
  // lies below the folder.
  lemma EntryApart(v: Vol, gone: set<Slot>, s: Slot, i: nat)
    requires Tree(v) && s in v.chains && IsSlot(v, s) && IsDir(Ent(v, s)) && 1 <= i < TABLE_SIZE
    requires Subtree(v, s) !! gone
    ensures gone <= Done(v, gone, s, i) <= gone + Inner(v, s) && Done(v, gone, s, i) <= Done(v, gone, s, i + 1)
    ensures var q := Slot(Ent(v, s).cluster, i);
      if q in v.chains then
        && IsSlot(v, q) && q in Inner(v, s) && Subtree(v, q) !! Done(v, gone, s, i)
        && Done(v, gone, s, i + 1) == Done(v, gone, s, i) + Subtree(v, q)
      else Done(v, gone, s, i + 1) == Done(v, gone, s, i)
  {
    hide Tree, Subtree, Earlier;
    var k := Ent(v, s).cluster;
    FolderSlot(v, s);
    EarlierEnds(v, s);
    EarlierGrows(v, k, i, TABLE_SIZE);
    EarlierStep(v, k, i);
    if Slot(k, i) in v.chains {
      EntryOf(v, s, Slot(k, i));
      SubtreeBelow(v, s, Slot(k, i));
    }
  }

  // The file in front of the folder is gone; the folder in front of the file is, too, or has something left in it.
  ghost predicate TwinSettled(v: Vol, e: Slot, g: set<Slot>)
    requires IsSlot(v, e)
  {
    && Ahead(v, e) <= g
    && (!IsDir(Ent(v, e)) && Twin(v, e) < e.index ==>
          var t := Slot(e.dir, Twin(v, e)); t in g || (IsSlot(v, t) && Occupied(v, t, g)))
  }

  // What an entry's turn removes lies at or below it.
  lemma {:induction false} TurnBounds(v: Vol, st: seq<Frame>, src: Text, gone: set<Slot>, root: bool, s: Slot,
      e: Slot, g: set<Slot>)
    requires Sweepable(v, st, src, gone, root, s) && IsDir(Ent(v, s)) && e in Inner(v, s) && IsSlot(v, e)
    requires e.dir == Ent(v, s).cluster && g <= gone + Inner(v, s) && Subtree(v, e) !! g
    requires Walk(v, st, Slashed(Parts(src)), g).code == 0 ==> TwinSettled(v, e, g)
    ensures var now := After(v, st, Spelled(src, Ent(v, e)), g, true, false); g <= now <= g + Subtree(v, e)
    ensures var below := Spelled(src, Ent(v, e));
      var p := Picked(v, st, Parts(below), g, false);
      && (p.Some? ==> Walk(v, st, Slashed(Parts(src)), g).code == 0)
      && (IsDir(Ent(v, e)) && p.Some? ==>
            p == Some(e) && After(v, st, below, g, true, false) == Swept(v, st, below, g, e))
      && (Walk(v, st, Slashed(Parts(src)), g).code == 0 && Fronts(v, e) && !Alone(v, e, g) ==>
            After(v, st, below, g, true, false) == g + {e})
  {
    hide Tree, Worded, Subtree, Walk, Picked, Neat, Spellable, Parts, Clear, Swept, Landing, RoomFor, Fits, Twin;
    hide Grounded, StartStays, Ahead, Alone, Fronts, Spelled, Occupied, NameText, TwinSettled, After;
    OrderlyBelow(v, s, e);
    FolderLands(v, st, src, gone, root, s);
    ClearParts(v, s, e);
    SelfBelow(v, e);
    SpelledPicks(v, st, src, e, g);
    var below := Spelled(src, Ent(v, e));
    AfterIs(v, st, below, g);
    FolderFronts(v, e);
    if Picked(v, st, Parts(below), g, false).Some? {
      if IsDir(Ent(v, e)) {
        SpelledPlainly(v, st, src, e, g);
        SweptBounds(v, st, below, g, false, e);
        SettledAhead(v, e, g);
      } else if Alone(v, e, g) {
        SweptFile(v, st, below, g, e);
      } else {
        TwinTurn(v, st, src, gone, root, s, e, g);
      }
    }
  }

  lemma FolderFronts(v: Vol, q: Slot)
    requires IsSlot(v, q)
    ensures IsDir(Ent(v, q)) ==> !Fronts(v, q)
  {
  }

  lemma {:induction false} AfterIs(v: Vol, st: seq<Frame>, src: Text, g: set<Slot>)
    requires Tree(v) && |st| > 0
    ensures var p, now := Picked(v, st, Parts(src), g, false), After(v, st, src, g, true, false);
      if p.None? then now == g else p.value in v.chains && now == Swept(v, st, src, g, p.value)
  {
    hide Tree, Picked, Parts, Swept;
    PickedLives(v, st, Parts(src), g);
  }

  lemma SettledAhead(v: Vol, e: Slot, g: set<Slot>)
    requires IsSlot(v, e) && TwinSettled(v, e, g)
    ensures Ahead(v, e) <= g
  {
  }

  // At the turn of a file with a folder of its name, it goes exactly if it stands in front.
  lemma {:induction false} TwinTurn(v: Vol, st: seq<Frame>, src: Text, gone: set<Slot>, root: bool, s: Slot, e: Slot,
      g: set<Slot>)
    requires Sweepable(v, st, src, gone, root, s) && IsDir(Ent(v, s)) && e in Inner(v, s) && IsSlot(v, e)
    requires e.dir == Ent(v, s).cluster && !IsDir(Ent(v, e)) && !Alone(v, e, g) && e !in g && TwinSettled(v, e, g)
    requires LiveEntry(v, e) && Spellable(Ent(v, e)) && Landing(v, st, src) == Some(e.dir)
    requires Picked(v, st, Parts(Spelled(src, Ent(v, e))), g, false) == Some(Slot(e.dir, Twin(v, e)))
    ensures Twin(v, e) < TABLE_SIZE
    ensures var t := Slot(e.dir, Twin(v, e));
      t in v.chains && Swept(v, st, Spelled(src, Ent(v, e)), g, t) == if Fronts(v, e) then g + {e} else g
  {
    hide Tree, Worded, Subtree, Walk, Picked, Neat, Spellable, Parts, Clear, Landing, RoomFor, Fits, Twin, SweptBefore;
    hide Grounded, StartStays, Spelled, Occupied, NameText, Removable, Ahead, Fronts, Alone, TwinSettled, Dropped;
    hide Went, Region, NeatEntries, Stuck, Loose;
    var t, below := Slot(e.dir, Twin(v, e)), Spelled(src, Ent(v, e));
    TwinDrops(v, e, g);
    TwinBelow(v, s, e);
    OrderlyBelow(v, s, t);
    NoFolderOfText(v, st, src, s, e);
    NothingIsRegion(v);
    NeatBelow(v, t);
    BeforeWent(v, st, below, g, t, TABLE_SIZE, {});
    WentIn(v, g, SweptBefore(v, st, below, g, t, TABLE_SIZE), {});
    assert SweptBefore(v, st, below, g, t, TABLE_SIZE) == g;
  }

  lemma TwinDrops(v: Vol, e: Slot, g: set<Slot>)
    requires Tree(v) && e in v.chains && IsSlot(v, e) && !IsDir(Ent(v, e)) && !Alone(v, e, g) && e !in g
    requires TwinSettled(v, e, g)
    ensures Twin(v, e) < TABLE_SIZE
    ensures var t := Slot(e.dir, Twin(v, e));
      && t in v.chains && IsSlot(v, t) && IsDir(Ent(v, t))
      && Dropped(v, t, g) == if Fronts(v, e) then g + {e} else g
  {
    hide Tree, Occupied, Ahead, Twin, Dropped;
    TwinIs(v, e);
    DroppedIs(v, Slot(e.dir, Twin(v, e)), g);
  }

  // Where everything is spelled, no folder has the text of a file as its name.
  lemma NoFolderOfText(v: Vol, st: seq<Frame>, src: Text, s: Slot, e: Slot)
    requires Tree(v) && Worded(v) && |st| > 0 && Orderly(v, s) && Clear(v, s) && IsDir(Ent(v, s)) && IsSlot(v, e)
    requires e.dir == Ent(v, s).cluster && LiveEntry(v, e) && Spellable(Ent(v, e)) && !IsDir(Ent(v, e))
    requires Landing(v, st, src) == Some(e.dir)
    ensures Landing(v, st, Spelled(src, Ent(v, e))) == None
  {
    hide Tree, Worded, Subtree, Neat, Spellable, Parts, Landing, NameText, Stuck, Loose, Pad, Unpad;
    NotNameless(v, e);
    SpelledNotUp(Ent(v, e));
    NextLanding(v, st, src, e);
    var t, next := NameText(Ent(v, e)), Landing(v, st, Spelled(src, Ent(v, e)));
    if next.Some? {
      var f :| f in v.chains && IsSlot(v, f) && IsDir(Ent(v, f)) && f.dir == e.dir && Ent(v, f).cluster == next.value
        && Ent(v, f).name == Pad(t, 8) && |t| <= 8;
      EntryOf(v, s, f);
      OrderlyBelow(v, s, f);
      EntryText(v, e);
      FolderSlot(v, f);
      UnpadPad(t, 8);
      SpellableExact(Ent(v, f));
      DotlessText(Ent(v, e));
    }
  }

  lemma TurnAdds(v: Vol, st: seq<Frame>, src: Text, gone: set<Slot>, root: bool, s: Slot, i: nat)
    requires Sweepable(v, st, src, gone, root, s) && IsDir(Ent(v, s)) && 1 <= i < TABLE_SIZE
    requires gone <= SweptBefore(v, st, src, gone, s, i) <= Done(v, gone, s, i)
    requires TwinsSettled(v, st, src, gone, s, i)
    ensures SweptBefore(v, st, src, gone, s, i) <= SweptBefore(v, st, src, gone, s, i + 1)
    ensures SweptBefore(v, st, src, gone, s, i + 1) <= Done(v, gone, s, i + 1)
    ensures SweptBefore(v, st, src, gone, s, i + 1) * Done(v, gone, s, i) <= SweptBefore(v, st, src, gone, s, i)
  {
    hide Tree, Worded, Subtree, Earlier, Picked, Parts, Spelled, After, Sweepable, Done, TwinSettled, Walk, Fronts;
    hide Alone;
    hide Swept, Ahead, Clear, Orderly, Grounded, StartStays, Stuck;
    SweepableFacts(v, st, src, gone, root, s);
    EntryApart(v, gone, s, i);
    var g, e := SweptBefore(v, st, src, gone, s, i), Slot(Ent(v, s).cluster, i);
    if e in v.chains {
      SelfBelow(v, e);
      TurnBounds(v, st, src, gone, root, s, e, g);
    }
  }

  ghost predicate TwinsSettled(v: Vol, st: seq<Frame>, src: Text, gone: set<Slot>, s: Slot, i: nat)
    requires Tree(v) && |st| > 0 && s in v.chains && IsSlot(v, s) && IsDir(Ent(v, s)) && i < TABLE_SIZE
  {
    var g, e := SweptBefore(v, st, src, gone, s, i), Slot(Ent(v, s).cluster, i);
    e in v.chains && IsSlot(v, e) && e !in g && Walk(v, st, Slashed(Parts(src)), g).code == 0 ==> TwinSettled(v, e, g)
  }

  lemma {:induction false} BeforeDone(v: Vol, st: seq<Frame>, src: Text, gone: set<Slot>, root: bool, s: Slot, i: nat)
    requires Sweepable(v, st, src, gone, root, s) && IsDir(Ent(v, s)) && 1 <= i <= TABLE_SIZE
    ensures gone <= SweptBefore(v, st, src, gone, s, i) <= Done(v, gone, s, i)
    decreases i, 0
  {
    hide Tree, Worded, Subtree, Earlier, Picked, Parts, Spelled, After, Sweepable, Done, TwinsSettled;
    SweepableFacts(v, st, src, gone, root, s);
    if i == 1 {
      StartsDone(v, gone, s);
    } else {
      hide SweptBefore;
      BeforeDone(v, st, src, gone, root, s, i - 1);
      TwinsSettle(v, st, src, gone, root, s, i - 1);
      TurnAdds(v, st, src, gone, root, s, i - 1);
    }
  }

  // As long as the path is not blocked, every turn before has done its work.
  lemma {:induction false} TwinsSettle(v: Vol, st: seq<Frame>, src: Text, gone: set<Slot>, root: bool, s: Slot, i: nat)
    requires Sweepable(v, st, src, gone, root, s) && IsDir(Ent(v, s)) && 1 <= i < TABLE_SIZE
    ensures TwinsSettled(v, st, src, gone, s, i)
    decreases i, 3
  {
    hide Tree, Worded, Subtree, Earlier, Picked, Parts, Spelled, After, Sweepable, Done, SweptBefore, Walk, Twin, Ahead;
    hide Occupied, LiveEntry, Spellable;
    SweepableFacts(v, st, src, gone, root, s);
    var g, e := SweptBefore(v, st, src, gone, s, i), Slot(Ent(v, s).cluster, i);
    if e in v.chains && IsSlot(v, e) && e !in g && Walk(v, st, Slashed(Parts(src)), g).code == 0 {
      AheadFronts(v, e);
      forall f | f in Ahead(v, e)
        ensures f in g
      {
        FrontWent(v, st, src, gone, root, s, i, f, e);
      }
      if !IsDir(Ent(v, e)) && Twin(v, e) < e.index {
        var t := Slot(e.dir, Twin(v, e));
        TwinIs(v, e);
        if t !in g {
          FolderWent(v, st, src, gone, root, s, i, t);
        }
      }
    }
  }

  // The file in front of a folder went at its own turn.
  lemma {:induction false} FrontWent(v: Vol, st: seq<Frame>, src: Text, gone: set<Slot>, root: bool, s: Slot, i: nat,
      f: Slot, e: Slot)
    requires Sweepable(v, st, src, gone, root, s) && IsDir(Ent(v, s)) && 1 <= i < TABLE_SIZE
    requires e == Slot(Ent(v, s).cluster, i) && e in v.chains && IsSlot(v, e) && f in Ahead(v, e)
    requires e !in SweptBefore(v, st, src, gone, s, i)
    requires Walk(v, st, Slashed(Parts(src)), SweptBefore(v, st, src, gone, s, i)).code == 0
    ensures f in SweptBefore(v, st, src, gone, s, i)
  {
    hide Tree, Worded, Subtree, Earlier, Picked, Parts, Spelled, After, Done, SweptBefore, Walk, Twin, Ahead, Clear;
    hide Occupied, LiveEntry, Spellable, Landing, Grounded, StartStays, Fits, RoomFor;
    AheadFronts(v, e);
    var h, below := SweptBefore(v, st, src, gone, s, f.index), Spelled(src, Ent(v, f));
    BeforeGrows(v, st, src, gone, s, f.index, i);
    BeforeGrows(v, st, src, gone, s, f.index + 1, i);
    if f !in h {
      EntryOf(v, s, f);
      OrderlyBelow(v, s, f);
      ClearParts(v, s, f);
      FolderLands(v, st, src, gone, root, s);
      WalkLess(v, st, Slashed(Parts(src)), SweptBefore(v, st, src, gone, s, i), h);
      SpelledPicks(v, st, src, f, h);
      EntryText(v, f);
      RoomForEntry(v, s, f, src);
      TurnTaken(v, st, src, gone, s, f);
      FrontGoes(v, st, below, h, e, f);
    }
  }

  // A folder that has not gone at its turn has something left in it for good.
  lemma {:induction false} FolderWent(v: Vol, st: seq<Frame>, src: Text, gone: set<Slot>, root: bool, s: Slot, i: nat,
      t: Slot)
    requires Sweepable(v, st, src, gone, root, s) && IsDir(Ent(v, s)) && 1 <= i < TABLE_SIZE
    requires t in v.chains && IsSlot(v, t) && IsDir(Ent(v, t)) && t.dir == Ent(v, s).cluster && 1 <= t.index < i
    requires Ahead(v, t) == {} && t !in SweptBefore(v, st, src, gone, s, i)
    requires Walk(v, st, Slashed(Parts(src)), SweptBefore(v, st, src, gone, s, i)).code == 0
    ensures Occupied(v, t, SweptBefore(v, st, src, gone, s, i))
    decreases i, 2
  {
    hide Tree, Worded, Subtree, Earlier, Picked, Parts, Spelled, After, Done, SweptBefore, Walk, Twin, Ahead, Clear;
    hide LiveEntry, Spellable, Landing, Grounded, StartStays, Fits, RoomFor, Stuck;
    var g, h := SweptBefore(v, st, src, gone, s, i), SweptBefore(v, st, src, gone, s, t.index);
    var x := SweptBefore(v, st, Spelled(src, Ent(v, t)), h, t, TABLE_SIZE);
    EntryOf(v, s, t);
    ClearParts(v, s, t);
    BeforeDone(v, st, src, gone, root, s, t.index);
    EntryApart(v, gone, s, t.index);
    BeforeGrows(v, st, src, gone, s, t.index, i);
    BeforeGrows(v, st, src, gone, s, t.index + 1, i);
    FolderTurn(v, st, src, gone, root, s, t, g);
    Settled(v, st, src, gone, root, s, t.index + 1, i);
    var m :| 1 <= m < TABLE_SIZE && Slot(Ent(v, t).cluster, m) in v.chains && Slot(Ent(v, t).cluster, m) !in x;
    EntryOf(v, t, Slot(Ent(v, t).cluster, m));
  }

  lemma {:induction false} FolderTurn(v: Vol, st: seq<Frame>, src: Text, gone: set<Slot>, root: bool, s: Slot,
      t: Slot, g: set<Slot>)
    requires Sweepable(v, st, src, gone, root, s) && IsDir(Ent(v, s)) && 1 <= t.index < TABLE_SIZE
    requires t in v.chains && t in Inner(v, s) && IsSlot(v, t) && IsDir(Ent(v, t)) && t.dir == Ent(v, s).cluster
    requires Ahead(v, t) == {} && t !in g && SweptBefore(v, st, src, gone, s, t.index + 1) <= g
    requires SweptBefore(v, st, src, gone, s, t.index) <= g
    requires Walk(v, st, Slashed(Parts(src)), g).code == 0
    requires Subtree(v, t) !! SweptBefore(v, st, src, gone, s, t.index)
    ensures var h := SweptBefore(v, st, src, gone, s, t.index);
      var x := SweptBefore(v, st, Spelled(src, Ent(v, t)), h, t, TABLE_SIZE);
      SweptBefore(v, st, src, gone, s, t.index + 1) == x && Occupied(v, t, x)
  {
    hide Tree, Worded, Subtree, Picked, Parts, Spelled, After, SweptBefore, Walk, Twin, Ahead, Clear, Neat, NameText;
    hide Spellable, Landing, Grounded, StartStays, Fits, RoomFor, EntriesGone, Occupied, Region, Went;
    var h, below := SweptBefore(v, st, src, gone, s, t.index), Spelled(src, Ent(v, t));
    var x := SweptBefore(v, st, below, h, t, TABLE_SIZE);
    OrderlyBelow(v, s, t);
    ClearParts(v, s, t);
    FolderLands(v, st, src, gone, root, s);
    WalkLess(v, st, Slashed(Parts(src)), g, h);
    SpelledPicks(v, st, src, t, h);
    EntryText(v, t);
    RoomForEntry(v, s, t, src);
    TurnTaken(v, st, src, gone, s, t);
    SpelledPlainly(v, st, src, t, h);
    BeforeBounds(v, st, below, h, false, t, TABLE_SIZE);
    WentOnly(v, h, x, Inner(v, t), t);
    DroppedIs(v, t, x);
  }

  lemma StartsDone(v: Vol, gone: set<Slot>, s: Slot)
    requires Tree(v) && s in v.chains && IsSlot(v, s) && IsDir(Ent(v, s))
    ensures Done(v, gone, s, 1) == gone
  {
    hide Tree, Earlier;
    FolderSlot(v, s);
    EarlierStarts(v, Ent(v, s).cluster);
  }

  lemma SweepableFacts(v: Vol, st: seq<Frame>, src: Text, gone: set<Slot>, root: bool, s: Slot)
    requires Sweepable(v, st, src, gone, root, s)
    ensures Tree(v) && s in v.chains && IsSlot(v, s) && Subtree(v, s) !! gone && |st| > 0 && Worded(v) && s !in gone
    ensures Clear(v, s) && Orderly(v, s) && Ahead(v, s) <= gone && Grounded(v, st, Parts(src)) && !Stuck(v, s)
    ensures StartStays(v, st, Parts(src), gone + Inner(v, s)) && s in Subtree(v, s)
    ensures (!IsDir(Ent(v, s)) ==> Alone(v, s, gone)) && RoomFor(v, s, src)
  {
    hide Tree, RoomFor, Subtree, Walk, Picked, Parts, Fits, Spellable, Stuck, Fronts, Ahead, Alone;
    SelfBelow(v, s);
    PickedAlone(v, st, Parts(src), gone, root);
  }

  /* When everything goes */

  // Every folder below `s` that the path enters is the last live entry of its directory.
  ghost predicate LastOnPath(v: Vol, st: seq<Frame>, src: Text, s: Slot)
    requires Tree(v) && |st| > 0
  {
    forall x :: x in Crossed(v, st, Slashed(Parts(src))) && x in v.own && v.own[x] in Inner(v, s) ==>
      LastEntry(v, v.own[x])
  }

  ghost predicate LastEntry(v: Vol, o: Slot) {
    forall j :: o.index < j < TABLE_SIZE ==> Slot(o.dir, j) !in v.chains
  }

  lemma {:induction false} StackUnder(v: Vol, st: seq<Frame>, i: nat)
    requires Tree(v) && StackOk(v, st) && i < |st|
    ensures st[i].cluster in v.tabs && Top(st).cluster in v.tabs && Under(v, st[i].cluster, Top(st).cluster)
    decreases |st| - i
  {
    hide SlotOk, DirOk, First;
    StackDepth(v, st, i);
    StackTop(v, st);
    if i < |st| - 1 {
      StackUnder(v, st, i + 1);
      assert Leads(v, st[i], st[i + 1]);
      OpenedIsChild(v, st[i].cluster, st[i + 1].name);
      UnderSelf(v, st[i].cluster);
      UnderStep(v, st[i].cluster, st[i + 1].cluster);
      UnderTrans(v, st[i].cluster, st[i + 1].cluster, Top(st).cluster);
    }
  }

  // The path does not start below the folder.
  lemma {:induction false} ParentOffStack(v: Vol, st: seq<Frame>, s: Slot, gone: set<Slot>, c: nat)
    requires Tree(v) && s in v.chains && IsSlot(v, s) && IsDir(Ent(v, s)) && StackOk(v, st)
    requires !DirGone(v, Top(st).cluster, gone + Inner(v, s))
    requires c in v.tabs && c != Ent(v, s).cluster && Under(v, Ent(v, s).cluster, c)
    ensures !OnStack(st, c)
  {
    hide SlotOk, DirOk, Base, Under, Leads, First;
    var k := Ent(v, s).cluster;
    FolderSlot(v, s);
    if OnStack(st, c) {
      var i :| 0 <= i < |st| && st[i].cluster == c;
      StackUnder(v, st, i);
      UnderTrans(v, k, c, Top(st).cluster);
      BelowInside(v, s, c, Top(st).cluster);
    }
  }

  // A directory strictly below the folder is named by a slot below it.
  lemma {:induction false} BelowInside(v: Vol, s: Slot, c: nat, x: nat)
    requires Tree(v) && s in v.chains && IsSlot(v, s) && IsDir(Ent(v, s)) && c in v.tabs && x in v.tabs
    requires c != Ent(v, s).cluster && Under(v, Ent(v, s).cluster, c) && Under(v, c, x)
    ensures x != ROOT_CLUSTER && x in v.own && v.own[x] in Inner(v, s)
  {
    hide SlotOk, DirOk, Base, Under;
    var k := Ent(v, s).cluster;
    FolderSlot(v, s);
    UnderRoot(v, k);
    UnderTrans(v, k, c, x);
    UnderIsDeeper(v, k, c);
    UnderIsDeeper(v, c, x);
    StrictlyDeeper(v, k, c);
    UnderStep(v, k, x);
    OwnerSlot(v, x);
    UnderNotParent(v, s);
  }

  lemma {:induction false} StrictlyDeeper(v: Vol, k: nat, c: nat)
    requires Tree(v) && k in v.tabs && c in v.tabs && c != k && Under(v, k, c)
    ensures v.depth[c] > v.depth[k]
  {
    hide SlotOk, DirOk;
    ParentIsAbove(v, c);
    UnderIsDeeper(v, k, Parent(v, c));
  }

  // If the path enters a directory below `k`, it enters the one directly below `k` on the way.
  lemma {:induction false} EntersToward(v: Vol, st: seq<Frame>, comps: seq<Text>, s: Slot, gone: set<Slot>, x: nat)
    requires Tree(v) && s in v.chains && IsSlot(v, s) && IsDir(Ent(v, s)) && |st| > 0 && |comps| > 0
    requires Grounded(v, st, comps) && StartStays(v, st, comps, gone + Inner(v, s)) && x in Crossed(v, st, comps)
    requires x in v.tabs && x != Ent(v, s).cluster && Under(v, Ent(v, s).cluster, x)
    ensures Toward(v, Ent(v, s).cluster, x) in Crossed(v, st, comps)
    decreases v.depth[x]
  {
    hide SlotOk, DirOk, Subtree, Leads, Crossed, First;
    var k := Ent(v, s).cluster;
    FolderSlot(v, s);
    UnderRoot(v, k);
    UnderStep(v, k, x);
    if Parent(v, x) != k {
      EnteredFromParent(v, st, comps, x);
      ParentOffStack(v, Risen(st, comps), s, gone, Parent(v, x));
      EntersToward(v, st, comps, s, gone, Parent(v, x));
    }
  }

  // A directory that the path enters is not among what went before an entry, if those it enters come last.
  lemma {:induction false} EnteredStays(v: Vol, st: seq<Frame>, src: Text, gone: set<Slot>, s: Slot, i: nat, x: nat)
    requires Tree(v) && s in v.chains && IsSlot(v, s) && IsDir(Ent(v, s)) && |st| > 0
    requires Grounded(v, st, Slashed(Parts(src))) && StartStays(v, st, Slashed(Parts(src)), gone + Inner(v, s))
    requires LastOnPath(v, st, src, s) && 1 <= i < TABLE_SIZE && Slot(Ent(v, s).cluster, i) in v.chains
    requires x in Crossed(v, st, Slashed(Parts(src)))
    ensures x in v.own ==> v.own[x] !in Earlier(v, Ent(v, s).cluster, i)
  {
    hide SlotOk, DirOk, Leads, Crossed, Under, Base, Parts, First;
    var k := Ent(v, s).cluster;
    EnteredFromParent(v, st, Slashed(Parts(src)), x);
    if x in v.own && v.own[x] in Earlier(v, k, i) {
      FolderSlot(v, s);
      OwnerSlot(v, x);
      var o := v.own[x];
      EarlierIsInner(v, s, i, o);
      UnderStepTo(v, k, x);
      EntersToward(v, st, Slashed(Parts(src)), s, gone, x);
      var y := Toward(v, k, x);
      OwnerSlot(v, y);
      TowardVia(v, k, x);
      UnderSelf(v, k);
      EarlierIsInner(v, s, i, v.own[y]);
    }
  }

  // A directory whose slot lies below `k` lies below `k`.
  lemma {:induction false} UnderStepTo(v: Vol, k: nat, x: nat)
    requires Tree(v) && k in v.tabs && x in v.tabs && x != ROOT_CLUSTER && Parent(v, x) in v.tabs
    requires Under(v, k, Parent(v, x))
    ensures Under(v, k, x) && x != k
  {
    hide SlotOk, DirOk;
    ParentIsAbove(v, x);
    UnderIsDeeper(v, k, Parent(v, x));
  }

  // The slot of a directory below `k` is reached through the same entry as that of the one directly below.
  lemma {:induction false} TowardVia(v: Vol, k: nat, x: nat)
    requires Tree(v) && k in v.tabs && x in v.tabs && x != k && Under(v, k, x) && x in v.own && v.own[x].dir in v.tabs
    requires x != ROOT_CLUSTER && v.own[x].dir == Parent(v, x) && Under(v, k, Parent(v, x))
    requires var y := Toward(v, k, x); y in v.own && v.own[y].dir == k
    ensures Via(v, k, v.own[Toward(v, k, x)]) == Via(v, k, v.own[x])
    ensures Via(v, k, v.own[Toward(v, k, x)]) == v.own[Toward(v, k, x)].index
  {
    hide SlotOk, DirOk, Under;
    UnderSelf(v, k);
    if Parent(v, x) != k {
      UnderStep(v, k, x);
    }
  }

  lemma {:induction false} EarlierIsInner(v: Vol, s: Slot, i: nat, o: Slot)
    requires Tree(v) && s in v.chains && IsSlot(v, s) && IsDir(Ent(v, s)) && i < TABLE_SIZE
    requires o in v.chains && o.dir in v.tabs && Under(v, Ent(v, s).cluster, o.dir)
    ensures o in Inner(v, s)
  {
    hide SlotOk, DirOk, Base, Under;
    UnderNotParent(v, s);
  }

  // If the folders that the path enters come last, every entry goes at its turn.
  lemma {:induction false} GoesIf(v: Vol, st: seq<Frame>, src: Text, gone: set<Slot>, root: bool, s: Slot)
    requires Sweepable(v, st, src, gone, root, s) && LastOnPath(v, st, src, s)
    ensures Swept(v, st, src, gone, s) == gone + Subtree(v, s)
    decreases Slack(src), TABLE_SIZE + 1
  {
    hide Tree, Worded, Subtree, Picked, Parts, Earlier, Sweepable, SweptBefore, LastOnPath, Stuck, Done, Clear;
    hide StartStays, Grounded, Ahead, Alone;
    SweepableFacts(v, st, src, gone, root, s);
    if IsDir(Ent(v, s)) {
      var k, g := Ent(v, s).cluster, SweptBefore(v, st, src, gone, s, TABLE_SIZE);
      TurnsGoIf(v, st, src, gone, root, s, TABLE_SIZE);
      AllDone(v, gone, s);
      DroppedIs(v, s, g);
    } else {
      SweptFile(v, st, src, gone, s);
      SmallFile(v, s);
    }
  }

  lemma AllDone(v: Vol, gone: set<Slot>, s: Slot)
    requires Tree(v) && s in v.chains && IsSlot(v, s) && IsDir(Ent(v, s)) && Subtree(v, s) !! gone
    ensures Done(v, gone, s, TABLE_SIZE) + {s} == gone + Subtree(v, s) && s !in Done(v, gone, s, TABLE_SIZE)
    ensures EntriesGone(v, Ent(v, s).cluster, Done(v, gone, s, TABLE_SIZE))
  {
    hide Tree, Subtree, Earlier;
    EarlierEnds(v, s);
    SelfBelow(v, s);
    forall j | 1 <= j < TABLE_SIZE && Slot(Ent(v, s).cluster, j) in v.chains
      ensures Slot(Ent(v, s).cluster, j) in Done(v, gone, s, TABLE_SIZE)
    {
      EntryOf(v, s, Slot(Ent(v, s).cluster, j));
    }
  }

  lemma SmallFile(v: Vol, s: Slot)
    requires Tree(v) && s in v.chains && IsSlot(v, s) && !IsDir(Ent(v, s))
    ensures Subtree(v, s) == {s}
  {
    hide Tree, Under;
  }

  lemma {:induction false} TurnsGoIf(v: Vol, st: seq<Frame>, src: Text, gone: set<Slot>, root: bool, s: Slot, i: nat)
    requires Sweepable(v, st, src, gone, root, s) && LastOnPath(v, st, src, s) && IsDir(Ent(v, s))
    requires 1 <= i <= TABLE_SIZE
    ensures SweptBefore(v, st, src, gone, s, i) == Done(v, gone, s, i)
    decreases Slack(src), i
  {
    hide Tree, Worded, Subtree, Picked, Parts, Earlier, Sweepable, LastOnPath, Stuck, Done, Clear, Swept, Walk;
    hide StartStays, Grounded, Spelled, Spellable, LiveEntry, Landing, Ahead, Alone, Fronts, TwinSettled, After;
    hide RoomFor;
    SweepableFacts(v, st, src, gone, root, s);
    if i == 1 {
      StartsDone(v, gone, s);
    } else {
      var g, e := SweptBefore(v, st, src, gone, s, i - 1), Slot(Ent(v, s).cluster, i - 1);
      TurnsGoIf(v, st, src, gone, root, s, i - 1);
      EntryApart(v, gone, s, i - 1);
      if e in v.chains {
        PathStays(v, st, src, gone, root, s, i - 1);
        DoneSettled(v, gone, s, e);
        OrderlyBelow(v, s, e);
        ClearParts(v, s, e);
        EntryFits(v, s, e, src);
        FolderFronts(v, e);
        SettledAhead(v, e, g);
        if Fronts(v, e) {
          SmallFile(v, e);
          TurnBounds(v, st, src, gone, root, s, e, g);
        } else {
          EntrySweepable(v, st, src, gone, root, s, e, g);
          AfterIs(v, st, Spelled(src, Ent(v, e)), g);
          LastBelow(v, st, src, s, e);
          GoesIf(v, st, Spelled(src, Ent(v, e)), g, false, e);
        }
      }
    }
  }

  lemma EntryFits(v: Vol, s: Slot, e: Slot, src: Text)
    requires Tree(v) && Worded(v) && RoomFor(v, s, src) && s in v.chains && IsSlot(v, s) && IsDir(Ent(v, s))
    requires LiveEntry(v, e) && e.dir == Ent(v, s).cluster
    ensures |Spelled(src, Ent(v, e))| < PATH_ROOM
  {
    hide Tree, Worded, NameText, RoomBelow, Neat;
    EntryText(v, e);
    RoomForEntry(v, s, e, src);
  }

  // Where all earlier entries are gone, and no later ones, what shares a name is settled.
  lemma DoneSettled(v: Vol, gone: set<Slot>, s: Slot, e: Slot)
    requires Tree(v) && s in v.chains && IsSlot(v, s) && IsDir(Ent(v, s)) && e in v.chains && IsSlot(v, e)
    requires e.dir == Ent(v, s).cluster && Subtree(v, s) !! gone
    ensures TwinSettled(v, e, Done(v, gone, s, e.index))
    ensures !IsDir(Ent(v, e)) ==> (Alone(v, e, Done(v, gone, s, e.index)) <==> !Fronts(v, e))
  {
    hide Tree, Subtree, Earlier, Twin, Ahead, Occupied;
    AheadFronts(v, e);
    forall f | f in Ahead(v, e)
      ensures f in Done(v, gone, s, e.index)
    {
      EntryDone(v, gone, s, e.index, f);
    }
    if !IsDir(Ent(v, e)) && Twin(v, e) < TABLE_SIZE {
      TwinIs(v, e);
      EntryDone(v, gone, s, e.index, Slot(e.dir, Twin(v, e)));
    }
  }

  lemma EntryDone(v: Vol, gone: set<Slot>, s: Slot, i: nat, x: Slot)
    requires Tree(v) && s in v.chains && IsSlot(v, s) && IsDir(Ent(v, s)) && x in v.chains
    requires x.dir == Ent(v, s).cluster && Subtree(v, s) !! gone
    ensures x in Done(v, gone, s, i) <==> x.index < i
  {
    hide Tree;
    EntryOf(v, s, x);
    SlotDir(v, x);
    UnderSelf(v, x.dir);
  }

  lemma LastBelow(v: Vol, st: seq<Frame>, src: Text, s: Slot, e: Slot)
    requires Tree(v) && Worded(v) && |st| > 0 && Orderly(v, s) && LastOnPath(v, st, src, s)
    requires IsDir(Ent(v, s)) && e in Inner(v, s) && IsSlot(v, e) && e.dir == Ent(v, s).cluster && e in v.chains
    requires Spellable(Ent(v, e)) && Landing(v, st, src) == Some(e.dir)
    ensures LastOnPath(v, st, Spelled(src, Ent(v, e)), e)
  {
    hide Tree, Subtree, Parts, Walk, Neat, Spellable, Crossed, LastEntry, NameText, Landing;
    OrderlyBelow(v, s, e);
    if IsDir(Ent(v, e)) {
      CrossedBelow(v, st, src, e);
      FolderSlot(v, e);
    } else {
      SmallFile(v, e);
    }
  }

  // The path of a folder enters, besides, the folder.
  lemma {:induction false} CrossedBelow(v: Vol, st: seq<Frame>, src: Text, e: Slot)
    requires Tree(v) && Worded(v) && |st| > 0 && LiveEntry(v, e) && Spellable(Ent(v, e)) && IsDir(Ent(v, e))
    requires Landing(v, st, src) == Some(e.dir)
    ensures Crossed(v, st, Slashed(Parts(Spelled(src, Ent(v, e))))) ==
      Crossed(v, st, Slashed(Parts(src))) + {Ent(v, e).cluster}
  {
    hide Tree, Worded, Parts, NameText, First, Spellable, Crossed, Neat, Pad, Unpad;
    var t := NameText(Ent(v, e));
    EntryText(v, e);
    NotNameless(v, e);
    SpelledNotUp(Ent(v, e));
    PartsBelow(src, t);
    SlashedApart(v, st, Parts(src), t, {});
    FolderFirst(v, e);
    NeatName(v, e);
    assert |t| <= 8;
    EnteredDown(v, st, Parts(src), t);
  }

  // The path of the folder is not blocked by what went before an entry.
  lemma {:induction false} PathStays(v: Vol, st: seq<Frame>, src: Text, gone: set<Slot>, root: bool, s: Slot, i: nat)
    requires Sweepable(v, st, src, gone, root, s) && LastOnPath(v, st, src, s) && IsDir(Ent(v, s))
    requires 1 <= i < TABLE_SIZE && Slot(Ent(v, s).cluster, i) in v.chains
    ensures Walk(v, st, Slashed(Parts(src)), Done(v, gone, s, i)).code == 0
  {
    hide Tree, Worded, Subtree, Parts, Earlier, LastOnPath, Clear, Walk, Crossed, Picked, RoomFor, Risen, StackOk;
    var comps := Parts(src);
    FolderLands(v, st, src, gone, root, s);
    LastIsName(v, st, src, gone, root, s);
    RisenBelow(st, comps, []);
    WalkLess(v, st, Slashed(comps), gone, {});
    SafeIsEntered(v, st, Slashed(comps), gone);
    SafeIsEntered(v, st, Slashed(comps), Done(v, gone, s, i));
    forall x | x in Crossed(v, st, Slashed(comps))
      ensures !DirGone(v, x, Done(v, gone, s, i))
    {
      EnteredStays(v, st, src, gone, s, i, x);
    }
  }

  /* When not everything goes */

  // What an entry's turn removes is settled: later turns do not change it.
  lemma {:induction false} Settled(v: Vol, st: seq<Frame>, src: Text, gone: set<Slot>, root: bool, s: Slot,
      i: nat, j: nat)
    requires Sweepable(v, st, src, gone, root, s) && IsDir(Ent(v, s)) && 1 <= i <= j <= TABLE_SIZE
    ensures SweptBefore(v, st, src, gone, s, j) * Done(v, gone, s, i) == SweptBefore(v, st, src, gone, s, i)
    decreases j, 1
  {
    hide Tree, Subtree, Earlier, Picked, Parts, Spelled, Swept, Sweepable, Done, Worded, After, SweptBefore;
    hide TwinsSettled;
    SweepableFacts(v, st, src, gone, root, s);
    BeforeDone(v, st, src, gone, root, s, i);
    if i < j {
      Settled(v, st, src, gone, root, s, i, j - 1);
      BeforeDone(v, st, src, gone, root, s, j - 1);
      TwinsSettle(v, st, src, gone, root, s, j - 1);
      TurnAdds(v, st, src, gone, root, s, j - 1);
      DoneGrows(v, gone, s, i, j - 1);
    }
  }

  lemma DoneGrows(v: Vol, gone: set<Slot>, s: Slot, i: nat, j: nat)
    requires Tree(v) && IsSlot(v, s) && i <= j
    ensures Done(v, gone, s, i) <= Done(v, gone, s, j)
  {
    hide Tree, Earlier;
    EarlierGrows(v, Ent(v, s).cluster, i, j);
  }

  // If everything goes, each entry went at its turn, by a path that was not blocked.
  lemma {:induction false} TurnWent(v: Vol, st: seq<Frame>, src: Text, gone: set<Slot>, root: bool, s: Slot, i: nat)
    requires Sweepable(v, st, src, gone, root, s) && IsDir(Ent(v, s))
    requires Swept(v, st, src, gone, s) == gone + Subtree(v, s)
    requires 1 <= i < TABLE_SIZE && Slot(Ent(v, s).cluster, i) in v.chains
    ensures var q, g := Slot(Ent(v, s).cluster, i), SweptBefore(v, st, src, gone, s, i);
      && IsSlot(v, q) && g == Done(v, gone, s, i) && Walk(v, st, Slashed(Parts(src)), g).code == 0
      && var below := Spelled(src, Ent(v, q));
      (IsDir(Ent(v, q)) ==>
         Picked(v, st, Parts(below), g, false) == Some(q) && Swept(v, st, below, g, q) == g + Subtree(v, q))
  {
    hide Tree, Subtree, Parts, Earlier, Picked, Walk, Sweepable, Done, Worded, Swept, TwinSettled, After, Fronts, Alone;
    SweepableFacts(v, st, src, gone, root, s);
    var q, g := Slot(Ent(v, s).cluster, i), SweptBefore(v, st, src, gone, s, i);
    EntryApart(v, gone, s, i);
    AllSettled(v, st, src, gone, root, s, i);
    AllSettled(v, st, src, gone, root, s, i + 1);
    DoneSettled(v, gone, s, q);
    TurnBounds(v, st, src, gone, root, s, q, g);
    AfterIs(v, st, Spelled(src, Ent(v, q)), g);
    SelfBelow(v, q);
  }

  lemma {:induction false} AllSettled(v: Vol, st: seq<Frame>, src: Text, gone: set<Slot>, root: bool, s: Slot, i: nat)
    requires Sweepable(v, st, src, gone, root, s) && IsDir(Ent(v, s)) && 1 <= i <= TABLE_SIZE
    requires Swept(v, st, src, gone, s) == gone + Subtree(v, s)
    ensures SweptBefore(v, st, src, gone, s, i) == Done(v, gone, s, i)
  {
    hide Tree, Subtree, Earlier, SweptBefore, Sweepable, Done, Worded, Occupied, Ahead, Alone, Dropped, Orderly, Clear;
    hide Grounded, StartStays, RoomFor, Stuck, EntriesGone;
    SweepableFacts(v, st, src, gone, root, s);
    var g := SweptBefore(v, st, src, gone, s, TABLE_SIZE);
    Settled(v, st, src, gone, root, s, i, TABLE_SIZE);
    BeforeDone(v, st, src, gone, root, s, TABLE_SIZE);
    AllDone(v, gone, s);
    DroppedIs(v, s, g);
    DoneGrows(v, gone, s, i, TABLE_SIZE);
  }

  lemma {:induction false} GoesOnlyIf(v: Vol, st: seq<Frame>, src: Text, gone: set<Slot>, root: bool, s: Slot, x: nat)
    requires Sweepable(v, st, src, gone, root, s) && Swept(v, st, src, gone, s) == gone + Subtree(v, s)
    requires x in Crossed(v, st, Slashed(Parts(src))) && x in v.own && v.own[x] in Inner(v, s)
    ensures LastEntry(v, v.own[x])
    decreases Slack(src)
  {
    hide Tree, Parts, Earlier, Crossed, Swept, Sweepable, Spelled, LastEntry, Subtree, Walk, Picked, Done, Worded;
    hide SweptBefore, Landing, LiveEntry, Spellable;
    var o := v.own[x];
    SweepableFacts(v, st, src, gone, root, s);
    InnerEntry(v, s, o);
    var k := Ent(v, s).cluster;
    var i :| 1 <= i < TABLE_SIZE && Slot(k, i) in v.chains && o in Subtree(v, Slot(k, i));
    var q, g := Slot(k, i), SweptBefore(v, st, src, gone, s, i);
    TurnWent(v, st, src, gone, root, s, i);
    if o == q {
      NothingAfter(v, st, src, gone, root, s, i, x);
    } else {
      EntryApart(v, gone, s, i);
      DoneSettled(v, gone, s, q);
      InnerEntry(v, q, o);
      SettledAhead(v, q, g);
      FolderFronts(v, q);
      EntrySweepable(v, st, src, gone, root, s, q, g);
      CrossedBelow(v, st, src, q);
      GoesOnlyIf(v, st, Spelled(src, Ent(v, q)), g, false, q, x);
    }
  }

  // What lies below a folder lies at or below one of its entries.
  lemma InnerEntry(v: Vol, s: Slot, o: Slot)
    requires Tree(v) && s in v.chains && IsSlot(v, s) && o in Inner(v, s)
    ensures IsDir(Ent(v, s))
    ensures exists i ::
      1 <= i < TABLE_SIZE && Slot(Ent(v, s).cluster, i) in v.chains && o in Subtree(v, Slot(Ent(v, s).cluster, i))
  {
    hide Tree, Under, Below, Via;
    if !IsDir(Ent(v, s)) {
      SmallFile(v, s);
    } else {
      FolderSlot(v, s);
      SubtreeLives(v, s, o);
      InnerVia(v, s, o);
      ViaAtLeastOne(v, Ent(v, s).cluster, o);
      ViaThis(v, Ent(v, s).cluster, Via(v, Ent(v, s).cluster, o), o);
    }
  }

  // Once the folder of entry `i` is gone, the paths of the entries behind it enter it in vain.
  lemma {:induction false} NothingAfter(v: Vol, st: seq<Frame>, src: Text, gone: set<Slot>, root: bool, s: Slot,
      i: nat, x: nat)
    requires Sweepable(v, st, src, gone, root, s) && IsDir(Ent(v, s))
    requires Swept(v, st, src, gone, s) == gone + Subtree(v, s) && 1 <= i < TABLE_SIZE
    requires x in Crossed(v, st, Slashed(Parts(src))) && x in v.own && v.own[x] == Slot(Ent(v, s).cluster, i)
    requires v.own[x] in v.chains
    ensures LastEntry(v, v.own[x])
  {
    hide Tree, Parts, Crossed, Swept, Under, Via, Sweepable, Done, Worded, Earlier, First, Leads;
    hide Spelled, Subtree, SweptBefore, Walk, Picked, Risen, StackOk;
    SweepableFacts(v, st, src, gone, root, s);
    var k := Ent(v, s).cluster;
    SweepablePath(v, st, src, gone, root, s);
    SelfBelow(v, v.own[x]);
    EntryApart(v, gone, s, i);
    forall j | i < j < TABLE_SIZE
      ensures Slot(k, j) !in v.chains
    {
      if Slot(k, j) in v.chains {
        TurnWent(v, st, src, gone, root, s, j);
        DoneGrows(v, gone, s, i + 1, j);
        SafeIsEntered(v, st, Slashed(Parts(src)), SweptBefore(v, st, src, gone, s, j));
        EnteredFromParent(v, st, Slashed(Parts(src)), x);
      }
    }
  }

  lemma {:induction false} SweepablePath(v: Vol, st: seq<Frame>, src: Text, gone: set<Slot>, root: bool, s: Slot)
    requires Sweepable(v, st, src, gone, root, s) && IsDir(Ent(v, s))
    ensures Walk(v, st, Slashed(Parts(src)), {}).code == 0 && Grounded(v, st, Slashed(Parts(src)))
  {
    hide Tree, Worded, Subtree, Parts, Clear, Walk, Picked, RoomFor, Risen, StackOk;
    FolderLands(v, st, src, gone, root, s);
    LastIsName(v, st, src, gone, root, s);
    RisenBelow(st, Parts(src), []);
    WalkLess(v, st, Slashed(Parts(src)), gone, {});
  }

  // On any path that does not start below the folder everything goes exactly when everything is clear, no file
  // is in front of the folder, and every folder below it that the path enters is the last entry of its directory.
  lemma {:induction false} SweptWhole(v: Vol, st: seq<Frame>, src: Text, gone: set<Slot>, root: bool, s: Slot)
    requires Plainly(v, st, src, gone, root, s) && Orderly(v, s) && RoomFor(v, s, src) && Subtree(v, s) !! gone
    requires Grounded(v, st, Parts(src)) && StartStays(v, st, Parts(src), gone + Inner(v, s))
    ensures Swept(v, st, src, gone, s) == gone + Subtree(v, s) <==>
      Clear(v, s) && Ahead(v, s) <= gone && LastOnPath(v, st, src, s)
  {
    hide Tree, Worded, Subtree, Parts, Walk, Picked, LiveEntry, Swept, Clear, Crossed, LastEntry, Grounded, StartStays;
    hide Ahead;
    SweptBounds(v, st, src, gone, root, s);
    SelfBelow(v, s);
    if Swept(v, st, src, gone, s) == gone + Subtree(v, s) {
      GoneIsGood(v, gone, Swept(v, st, src, gone, s), s, s);
      forall x | x in Crossed(v, st, Slashed(Parts(src))) && x in v.own && v.own[x] in Inner(v, s)
        ensures LastEntry(v, v.own[x])
      {
        GoesOnlyIf(v, st, src, gone, root, s, x);
      }
    }
    if Clear(v, s) && Ahead(v, s) <= gone && LastOnPath(v, st, src, s) {
      GoesIf(v, st, src, gone, root, s);
    }
  }
}
