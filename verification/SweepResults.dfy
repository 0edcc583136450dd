// Which slots go: exactly those that rm can spell its way to, and only with all they hold.
module SweepResults {
  import opened Layout
  import opened Volume
  import opened Pruning
  import opened Operations
  import opened Strings
  import opened Paths
  import opened Subtrees
  import opened Walking
  import opened Sweeping
  import opened Spelling
  import opened Turns
  import opened Bounds

  /* The setting */

  // A folder, or a file, that is chosen by its own name.
  ghost predicate Plainly(v: Vol, st: seq<Frame>, src: Text, gone: set<Slot>, root: bool, s: Slot) {
    && Tree(v) && Worded(v) && |st| > 0 && 0 !in src && s in v.chains && IsSlot(v, s)
    && Picked(v, st, Parts(src), gone, root) == Some(s)
    && (var leaf := Walk(v, st, Parts(src), gone).leaf; leaf.Some? ==> |leaf.value| < 12)
    && (IsDir(Ent(v, s)) ==> DOT !in Last(src))
  }

  // The names below the slot are neat.
  ghost predicate Orderly(v: Vol, s: Slot)
    requires Tree(v)
  {
    s in v.chains && IsSlot(v, s) && forall q :: q in Inner(v, s) ==> LiveEntry(v, q)
  }

  // The paths of everything below fit into the buffers: 50 bytes, 12 components.
  ghost predicate RoomBelow(v: Vol, s: Slot, length: nat, parts: nat)
    requires Tree(v)
    decreases PATH_ROOM - length
  {
    && length < PATH_ROOM && parts <= 12
    && (s in v.chains && IsSlot(v, s) && IsDir(Ent(v, s)) ==>
          forall q :: q in v.chains && IsSlot(v, q) && q.dir == Ent(v, s).cluster ==>
            RoomBelow(v, q, length + 1 + |NameText(Ent(v, q))|, parts + 1))
  }

  // Everything at or below the slot is a folder, or a file of at most 16 KiB or in front of a folder of its
  // name, is no empty folder that says it is not, and, but for the slot itself, is spelled by its text.
  ghost predicate Clear(v: Vol, s: Slot)
    requires Tree(v)
  {
    forall f :: f in Subtree(v, s) ==>
      IsSlot(v, f) && Loose(v, f) && !Stuck(v, f) && (f != s ==> Spellable(Ent(v, f)))
  }

  // ... and the slot is the one that was chosen, and no file is in front of it any more; or it is spelled as
  // well, and if a folder of its name is in front of it, that is clear, too.
  ghost predicate Good(v: Vol, gone: set<Slot>, s: Slot, q: Slot)
    requires Tree(v)
  {
    && Clear(v, q) && IsSlot(v, q)
    && if q == s then Ahead(v, s) <= gone
       else Spellable(Ent(v, q)) && (!IsDir(Ent(v, q)) && Twin(v, q) < q.index ==> Clear(v, Slot(q.dir, Twin(v, q))))
  }

  // Somewhere on the way from `s` to `q` is a folder that its text does not spell.
  ghost predicate Wild(v: Vol, s: Slot, q: Slot)
    requires Tree(v)
  {
    exists d :: d in Inner(v, s) && d != q && q in Subtree(v, d) && IsSlot(v, d) && IsDir(Ent(v, d))
                && !Spellable(Ent(v, d))
  }

  // The path of the folder goes through nothing that may be removed.
  ghost predicate Direct(v: Vol, st: seq<Frame>, src: Text, gone: set<Slot>, s: Slot)
    requires Tree(v) && |st| > 0
  {
    IsSlot(v, s) && IsDir(Ent(v, s)) ==> Walk(v, st, Slashed(Parts(src)), gone + Inner(v, s)).code == 0
  }

  lemma OrderlyBelow(v: Vol, s: Slot, q: Slot)
    requires Tree(v) && Orderly(v, s) && q in Inner(v, s)
    ensures q in v.chains && IsSlot(v, q) && Orderly(v, q) && LiveEntry(v, q) && LiveEntry(v, q)
    ensures Inner(v, q) <= Inner(v, s) && s !in Subtree(v, q) && q != s
  {
    hide Tree, Neat, Under, Below;
    SubtreeBelow(v, s, q);
  }

  lemma RoomForEntry(v: Vol, s: Slot, q: Slot, src: Text)
    requires Tree(v) && RoomFor(v, s, src) && s in v.chains && IsSlot(v, s) && IsDir(Ent(v, s))
    requires q in v.chains && IsSlot(v, q) && q.dir == Ent(v, s).cluster && SLASH !in NameText(Ent(v, q))
    ensures RoomFor(v, q, Spelled(src, Ent(v, q))) && |Spelled(src, Ent(v, q))| < PATH_ROOM
    ensures |Parts(Spelled(src, Ent(v, q)))| <= 12
  {
    hide Tree, NameText, Parts;
    PartsBelow(src, NameText(Ent(v, q)));
  }

  ghost predicate RoomFor(v: Vol, s: Slot, src: Text)
    requires Tree(v)
  {
    RoomBelow(v, s, |src|, |Parts(src)|)
  }

  /* Turns */

  lemma SpelledNotUp(e: Entry)
    requires Neat(e) && Spellable(e) && (e.name != ZERO_NAME || e.ext != ZERO_EXT)
    ensures NameText(e) != UP && (IsDir(e) ==> DOT !in NameText(e))
  {
    hide NameAndExt, Pad, Unpad;
    UnpadFree(e.name);
    UnpadFree(e.ext);
    assert 0 !in NameText(e);
    Separated(NameText(e), e.name, e.ext);
    UpIsNameless();
  }

  // The entry is chosen by its key if rm can read it and, for a file, there is no folder of its name left.
  lemma OwnKeyChosen(v: Vol, q: Slot, gone: set<Slot>)
    requires Tree(v) && q in v.chains && IsSlot(v, q)
    ensures var p := Chosen(v, q.dir, Ent(v, q).name, Ent(v, q).ext, gone);
      && (q !in gone && (IsDir(Ent(v, q)) || (Fits(Ent(v, q)) && Alone(v, q, gone))) ==> p == Some(q))
      && (q !in gone && !IsDir(Ent(v, q)) && !Alone(v, q, gone) ==> p == Some(Slot(q.dir, Twin(v, q))))
      && (!IsDir(Ent(v, q)) && Alone(v, q, gone) && !Fits(Ent(v, q)) ==> p == None)
      && (p == Some(q) ==> q !in gone && Fits(Ent(v, q)))
  {
    hide SlotOk, DirOk, First, FirstFrom, Base;
    OwnKey(v, q);
    LiveSlot(v, q);
  }

  // Where the path of the folder still leads, the path of an entry that is spelled names the entry, or the
  // folder of its name.
  lemma {:induction false} SpelledPicks(v: Vol, st: seq<Frame>, src: Text, q: Slot, g: set<Slot>)
    requires Tree(v) && Worded(v) && |st| > 0 && LiveEntry(v, q) && Spellable(Ent(v, q))
    requires Landing(v, st, src) == Some(q.dir)
    ensures var below := Spelled(src, Ent(v, q));
      var p, there := Picked(v, st, Parts(below), g, false), Walk(v, st, Slashed(Parts(src)), g).code == 0;
      && Parts(below) == Parts(src) + [NameText(Ent(v, q))]
      && (p.Some? ==> there)
      && (there && q !in g && (IsDir(Ent(v, q)) || (Fits(Ent(v, q)) && Alone(v, q, g))) ==> p == Some(q))
      && (there && q !in g && !IsDir(Ent(v, q)) && !Alone(v, q, g) ==> p == Some(Slot(q.dir, Twin(v, q))))
      && (!IsDir(Ent(v, q)) && Alone(v, q, g) && !Fits(Ent(v, q)) ==> p == None)
      && (p == Some(q) ==> q !in g && Fits(Ent(v, q)))
      && var leaf := Walk(v, st, Parts(below), g).leaf; (leaf.Some? ==> |leaf.value| < 12)
  {
    hide Tree, NameAndExt, Chosen, NameText, Parts, Walk, Fits, Alone, Twin;
    var t := NameText(Ent(v, q));
    EntryText(v, q);
    PartsBelow(src, t);
    LastIsPicked(v, st, Parts(src), t, g);
    SpelledNotUp(Ent(v, q));
    OwnKeyChosen(v, q, g);
    if Walk(v, st, Slashed(Parts(src)), g).code == 0 {
      WalkLess(v, st, Slashed(Parts(src)), g, {});
    }
  }

  lemma LastOfTwo(parts: seq<Text>, t: Text)
    ensures (parts + [t])[|parts + [t]| - 1] == t
  {
  }

  lemma SpelledFree(src: Text, e: Entry)
    requires 0 !in src
    ensures 0 !in Spelled(src, e)
  {
    hide Unpad;
    UnpadFree(e.name);
    UnpadFree(e.ext);
  }

  // ... and if it does, the entry is chosen by its own name.
  lemma SpelledPlainly(v: Vol, st: seq<Frame>, src: Text, q: Slot, g: set<Slot>)
    requires Tree(v) && Worded(v) && |st| > 0 && 0 !in src && LiveEntry(v, q) && Spellable(Ent(v, q))
    requires Landing(v, st, src) == Some(q.dir)
    requires Picked(v, st, Parts(Spelled(src, Ent(v, q))), g, false) == Some(q)
    ensures Plainly(v, st, Spelled(src, Ent(v, q)), g, false, q)
  {
    hide Tree, Chosen, NameText, Parts, Walk, Neat, Spellable, Picked;
    SpelledPicks(v, st, src, q, g);
    SpelledNotUp(Ent(v, q));
    SpelledFree(src, Ent(v, q));
    LastOfTwo(Parts(src), NameText(Ent(v, q)));
  }

  /* Bounds */

  // Only slots of the subtree go, folders only with all they hold, and nothing comes back. If there is a file
  // in front of the folder, that goes instead of the folder.
  lemma {:induction false} SweptBounds(v: Vol, st: seq<Frame>, src: Text, gone: set<Slot>, root: bool, s: Slot)
    requires Plainly(v, st, src, gone, root, s) && Orderly(v, s)
    ensures WentWith(v, gone, Swept(v, st, src, gone, s), s, Inner(v, s))
    ensures gone <= Swept(v, st, src, gone, s) <= gone + Subtree(v, s) + Ahead(v, s)
    ensures s !in gone && Ahead(v, s) <= Swept(v, st, src, gone, s)
    ensures if Ahead(v, s) <= gone then Swept(v, st, src, gone, s) <= gone + Subtree(v, s)
      else s !in Swept(v, st, src, gone, s)
  {
    hide Tree, Worded, Subtree, Walk, Parts, Picked, LiveEntry, Region, Fits, Removable, Spellable, Landing, Ahead;
    hide SweptBefore, Went, Alone, Occupied;
    SelfBelow(v, s);
    PickedAlone(v, st, Parts(src), gone, root);
    AheadFronts(v, s);
    if IsDir(Ent(v, s)) {
      var g := SweptBefore(v, st, src, gone, s, TABLE_SIZE);
      BeforeBounds(v, st, src, gone, root, s, TABLE_SIZE);
      WentOnly(v, gone, g, Inner(v, s), s);
      WentIn(v, gone, g, Inner(v, s));
      SweptWent(v, st, src, gone, s, Inner(v, s));
      DroppedIs(v, s, g);
      AheadOutside(v, s);
    } else {
      NothingIsRegion(v);
      SweptWent(v, st, src, gone, s, {});
      DroppedIs(v, s, gone);
      FileAhead(v, s);
    }
  }

  lemma FileAhead(v: Vol, s: Slot)
    requires IsSlot(v, s)
    ensures !IsDir(Ent(v, s)) ==> Ahead(v, s) == {}
  {
  }

  lemma WentIn(v: Vol, gone: set<Slot>, now: set<Slot>, r: set<Slot>)
    requires Went(v, gone, now, r)
    ensures gone <= now <= gone + r
  {
    hide Removable, Spellable;
  }

  lemma AheadOutside(v: Vol, s: Slot)
    requires Tree(v) && s in v.chains && IsSlot(v, s)
    ensures Ahead(v, s) !! Subtree(v, s)
  {
    hide Tree, Subtree, Ahead, Fronts, Twin;
    AheadFronts(v, s);
    forall f | f in Ahead(v, s) && f in Subtree(v, s)
      ensures false
    {
      NotDirect(v, s, f);
    }
  }

  lemma {:induction false} BeforeBounds(v: Vol, st: seq<Frame>, src: Text, gone: set<Slot>, root: bool, s: Slot, i: nat)
    requires Plainly(v, st, src, gone, root, s) && Orderly(v, s) && IsDir(Ent(v, s)) && i <= TABLE_SIZE
    ensures Went(v, gone, SweptBefore(v, st, src, gone, s, i), Inner(v, s))
    ensures Region(v, Inner(v, s)) && SlotsIn(v, Ent(v, s).cluster, Inner(v, s)) && NeatEntries(v, s)
    ensures Landing(v, st, src) == Some(Ent(v, s).cluster)
  {
    hide Tree, Worded, Subtree, SweptBefore, Walk, Parts, Picked, LiveEntry, Region, Landing, Went;
    FolderLands(v, st, src, gone, root, s);
    InnerIsRegion(v, s);
    BeforeWent(v, st, src, gone, s, i, Inner(v, s));
  }

  /* What may be gone when the loop comes to an entry */

  // An entry of the directory `k`, or something below an earlier entry or below one that is not spelled.
  ghost predicate Early(v: Vol, k: nat, i: nat, q: Slot)
    requires Tree(v)
  {
    && q in v.chains && q.dir in v.tabs && Under(v, k, q.dir)
    && var e := Slot(k, Via(v, k, q));
    (q.dir == k || e.index < i || (IsSlot(v, e) && !Spellable(Ent(v, e))))
  }

  lemma EntryIsEarly(v: Vol, k: nat, i: nat, q: Slot)
    requires Tree(v) && k in v.tabs && q in v.chains && q.dir == k
    ensures Early(v, k, i, q)
  {
    hide Tree, Via;
    UnderSelf(v, k);
  }

  // Below entry `d` of the directory.
  lemma BelowIsEarly(v: Vol, k: nat, i: nat, d: Slot, q: Slot)
    requires Tree(v) && k in v.tabs && d in v.chains && IsSlot(v, d) && d.dir == k && q in Subtree(v, d)
    requires d.index < i || !Spellable(Ent(v, d))
    ensures Early(v, k, i, q)
  {
    hide Tree, Via, Under, Below, Spellable;
    SlotDir(v, q);
    ViaIs(v, k, d.index, q);
  }

  // What goes at the turn of an entry: the entry and what is below it, if it is spelled; else another entry,
  // with what is below the folder that has the text as its name.
  lemma {:induction false} TurnIsEarly(v: Vol, st: seq<Frame>, src: Text, s: Slot, e: Slot, g: set<Slot>, q: Slot)
    requires Tree(v) && Worded(v) && |st| > 0 && Orderly(v, s) && IsDir(Ent(v, s))
    requires e in v.chains && e.dir == Ent(v, s).cluster && IsSlot(v, e)
    requires Landing(v, st, src) == Some(Ent(v, s).cluster)
    requires |Spelled(src, Ent(v, e))| < PATH_ROOM
    requires Picked(v, st, Parts(Spelled(src, Ent(v, e))), g, false).Some?
    requires var p := Picked(v, st, Parts(Spelled(src, Ent(v, e))), g, false).value;
      p in v.chains && q in Swept(v, st, Spelled(src, Ent(v, e)), g, p) && q !in g
    ensures Early(v, Ent(v, s).cluster, e.index + 1, q)
  {
    hide Tree, Worded, Subtree, Swept, Walk, Parts, Picked, Neat, Spellable, NameText, Landing, Early, NameAndExt;
    hide SweptBefore, Region, Removable, Ahead, Fits, Alone, SlotsIn, NeatEntries, Spelled, Twin;
    var k, below := Ent(v, s).cluster, Spelled(src, Ent(v, e));
    var p := Picked(v, st, Parts(below), g, false).value;
    FolderSlot(v, s);
    EntryOf(v, s, e);
    OrderlyBelow(v, s, e);
    TurnPicks(v, st, src, e, g);
    EntryOf(v, s, p);
    OrderlyBelow(v, s, p);
    PickedAlone(v, st, Parts(below), g, false);
    TurnRegion(v, st, src, s, e, p);
    var d :| Lander(v, st, below, k, e, p, d);
    var r := if Landing(v, st, below).Some? then Inner(v, d) else {};
    if Landing(v, st, below).Some? {
      EntryOf(v, s, d);
      OrderlyBelow(v, s, d);
      InnerIsRegion(v, d);
    } else {
      NothingIsRegion(v);
    }
    NeatBelow(v, p);
    InnerIsRegion(v, s);
    PickStays(v, st, src, e, g, Inner(v, s));
    SweptWent(v, st, below, g, p, r);
    AheadFronts(v, p);
    if q == p || q in Ahead(v, p) {
      EntryIsEarly(v, k, e.index + 1, q);
    } else {
      BelowIsEarly(v, k, e.index + 1, d, q);
    }
  }

  lemma NeatBelow(v: Vol, p: Slot)
    requires Tree(v) && Orderly(v, p)
    ensures NeatEntries(v, p)
  {
    hide Tree, Neat;
    if IsDir(Ent(v, p)) {
      InnerIsRegion(v, p);
    }
  }

  // The slot of the folder in which the paths of the entries of `p` land, if there is one: `e` itself if it
  // is spelled, or else one that is not spelled either.
  ghost predicate Lander(v: Vol, st: seq<Frame>, below: Text, k: nat, e: Slot, p: Slot, d: Slot)
    requires |st| > 0 && IsSlot(v, p)
  {
    var l := Landing(v, st, below);
    l.Some? ==>
      && d in v.chains && IsSlot(v, d) && IsDir(Ent(v, d)) && d.dir == k && Ent(v, d).cluster == l.value
      && (d == e || !Spellable(Ent(v, d)))
  }

  lemma TurnRegion(v: Vol, st: seq<Frame>, src: Text, s: Slot, e: Slot, p: Slot)
    requires Tree(v) && Worded(v) && |st| > 0 && Orderly(v, s) && IsDir(Ent(v, s)) && LiveEntry(v, e)
    requires e.dir == Ent(v, s).cluster && Landing(v, st, src) == Some(e.dir) && IsSlot(v, p)
    requires NameText(Ent(v, e)) != UP
    ensures exists d :: Lander(v, st, Spelled(src, Ent(v, e)), e.dir, e, p, d)
  {
    hide Tree, Worded, Subtree, Walk, Parts, Spellable, NameText, Landing, NameAndExt, Pad, Unpad;
    var k, below := Ent(v, s).cluster, Spelled(src, Ent(v, e));
    NextLanding(v, st, src, e);
    var l := Landing(v, st, below);
    if l.Some? {
      var t := NameText(Ent(v, e));
      var d :| d in v.chains && IsSlot(v, d) && IsDir(Ent(v, d)) && d.dir == k && Ent(v, d).cluster == l.value
        && Ent(v, d).name == Pad(t, 8) && |t| <= 8;
      EntryOf(v, s, d);
      OrderlyBelow(v, s, d);
      EntryText(v, e);
      EntryText(v, d);
      UnpadPad(t, 8);
      FolderSlot(v, d);
      SpellableExact(Ent(v, d));
      SpellableExact(Ent(v, e));
      if DOT !in t {
        DotlessText(Ent(v, e));
        FolderFirst(v, e);
        FolderFirst(v, d);
        NeatName(v, e);
      }
      assert Lander(v, st, below, k, e, p, d);
    } else {
      assert Lander(v, st, below, k, e, p, e);
    }
  }

  lemma NeatName(v: Vol, e: Slot)
    requires LiveEntry(v, e)
    ensures Pad(Unpad(Ent(v, e).name), 8) == Ent(v, e).name
  {
    hide Pad, Unpad, NameText;
  }

  // The text of a file has a dot.
  lemma DotlessText(e: Entry)
    ensures DOT !in NameText(e) ==> IsDir(e) && NameText(e) == Unpad(e.name)
  {
    hide Unpad;
    if !IsDir(e) {
      assert NameText(e)[|NameText(e)| - |Unpad(e.ext)| - 1] == DOT;
    }
  }

  lemma PickedLives(v: Vol, st: seq<Frame>, comps: seq<Text>, gone: set<Slot>)
    requires Tree(v) && |st| > 0 && |comps| > 0
    ensures var p := Picked(v, st, comps, gone, false); p.Some? ==> p.value in v.chains
  {
    hide Tree, Picked;
    var p := Picked(v, st, comps, gone, false);
    if p.Some? {
      SlotsAreThere(v, p.value);
    }
  }

  lemma {:induction false} BeforeIsEarly(v: Vol, st: seq<Frame>, src: Text, gone: set<Slot>, s: Slot, i: nat, q: Slot)
    requires Tree(v) && Worded(v) && |st| > 0 && Orderly(v, s) && IsDir(Ent(v, s)) && i <= TABLE_SIZE
    requires Landing(v, st, src) == Some(Ent(v, s).cluster)
    requires q in SweptBefore(v, st, src, gone, s, i) && q !in gone
    ensures Early(v, Ent(v, s).cluster, i, q)
    decreases i
  {
    hide Tree, Worded, Picked, Parts, Spelled, Swept, LiveEntry, Neat, Spellable, Landing, Subtree, Via, Under;
    if i > 1 {
      var g, e := SweptBefore(v, st, src, gone, s, i - 1), Slot(Ent(v, s).cluster, i - 1);
      if q in g {
        BeforeIsEarly(v, st, src, gone, s, i - 1, q);
      } else {
        SlotsAreThere(v, e);
        PickedLives(v, st, Parts(Spelled(src, Ent(v, e))), g);
        TurnIsEarly(v, st, src, s, e, g, q);
      }
    }
  }

  /* Which entries go */

  lemma {:induction false} SweptGrows(v: Vol, st: seq<Frame>, src: Text, gone: set<Slot>, s: Slot)
    requires Tree(v) && |st| > 0 && s in v.chains
    ensures gone <= Swept(v, st, src, gone, s)
    decreases Slack(src), TABLE_SIZE + 1
  {
    hide Tree, SweptBefore, Found;
    SlotsAreThere(v, s);
    if IsDir(Ent(v, s)) {
      BeforeGrows(v, st, src, gone, s, TABLE_SIZE, TABLE_SIZE);
      BeforeGrows(v, st, src, gone, s, 0, TABLE_SIZE);
    }
  }

  lemma {:induction false} BeforeGrows(v: Vol, st: seq<Frame>, src: Text, gone: set<Slot>, s: Slot, i: nat, j: nat)
    requires Tree(v) && |st| > 0 && s in v.chains && IsSlot(v, s) && IsDir(Ent(v, s)) && i <= j <= TABLE_SIZE
    ensures SweptBefore(v, st, src, gone, s, i) <= SweptBefore(v, st, src, gone, s, j)
    ensures gone <= SweptBefore(v, st, src, gone, s, j)
    decreases Slack(src), j
  {
    hide Tree, Swept, Picked, Parts, Spelled;
    if j > 1 {
      var g, q := SweptBefore(v, st, src, gone, s, j - 1), Slot(Ent(v, s).cluster, j - 1);
      BeforeGrows(v, st, src, gone, s, if i < j then i else j - 1, j - 1);
      SlotsAreThere(v, q);
      if q in v.chains && q !in gone && |Spelled(src, Ent(v, q))| < PATH_ROOM {
        var below := Spelled(src, Ent(v, q));
        var p := Picked(v, st, Parts(below), g, false);
        if p.Some? {
          SlotsAreThere(v, p.value);
          SweptGrows(v, st, below, g, p.value);
        }
      }
    }
  }

  // Nothing below an entry that is spelled is gone before its turn.
  lemma {:induction false} EntryUntouched(v: Vol, st: seq<Frame>, src: Text, gone: set<Slot>, s: Slot, e: Slot)
    requires Tree(v) && Worded(v) && |st| > 0 && Orderly(v, s) && IsDir(Ent(v, s))
    requires e in v.chains && IsSlot(v, e) && e.dir == Ent(v, s).cluster && Spellable(Ent(v, e))
    requires Subtree(v, s) !! gone
    requires Landing(v, st, src) == Some(Ent(v, s).cluster)
    ensures Inner(v, e) !! SweptBefore(v, st, src, gone, s, e.index)
  {
    hide Tree, Worded, Under, Via, Spellable, LiveEntry, Neat, Landing, SweptBefore, Parts;
    var k, g := Ent(v, s).cluster, SweptBefore(v, st, src, gone, s, e.index);
    EntryOf(v, s, e);
    SubtreeBelow(v, s, e);
    forall q | q in Inner(v, e) && q in g
      ensures false
    {
      BeforeIsEarly(v, st, src, gone, s, e.index, q);
      SlotDir(v, q);
      ViaIs(v, k, e.index, q);
      NotDirect(v, e, q);
    }
  }

  // What lies below an entry is no entry of the same directory.
  lemma NotDirect(v: Vol, e: Slot, q: Slot)
    requires Tree(v) && e in v.chains && IsSlot(v, e) && q in Inner(v, e)
    ensures q.dir != e.dir && IsDir(Ent(v, e))
  {
    hide SlotOk, DirOk, Base, Under;
    if IsDir(Ent(v, e)) {
      UnderNotParent(v, e);
    }
  }

  // The path to an entry passes through nothing that the path to the folder does not, except the folder.
  lemma {:induction false} EntryDirect(v: Vol, st: seq<Frame>, src: Text, gone: set<Slot>, s: Slot, e: Slot,
      g: set<Slot>)
    requires Tree(v) && Worded(v) && |st| > 0 && Orderly(v, s) && IsDir(Ent(v, s)) && Direct(v, st, src, gone, s)
    requires e in Inner(v, s) && IsSlot(v, e) && e.dir == Ent(v, s).cluster && Spellable(Ent(v, e))
    requires Landing(v, st, src) == Some(e.dir) && g <= gone + Inner(v, s) && e !in g
    ensures Walk(v, st, Slashed(Parts(src)), g).code == 0 && Direct(v, st, Spelled(src, Ent(v, e)), g, e)
  {
    hide Tree, Subtree, Walk, Parts, Neat, Spellable, NameText, NameAndExt, Pad, Unpad, Worded, First;
    OrderlyBelow(v, s, e);
    WalkLess(v, st, Slashed(Parts(src)), gone + Inner(v, s), g);
    if IsDir(Ent(v, e)) {
      var t, all := NameText(Ent(v, e)), g + Inner(v, e);
      EntryText(v, e);
      NotNameless(v, e);
      SpelledNotUp(Ent(v, e));
      PartsBelow(src, t);
      SlashedApart(v, st, Parts(src), t, all);
      WalkLess(v, st, Slashed(Parts(src)), gone + Inner(v, s), all);
      WalkLess(v, st, Slashed(Parts(src)), gone + Inner(v, s), {});
      FolderFirst(v, e);
      NeatName(v, e);
      assert |t| <= 8;
      assert e !in all;
    }
  }

  lemma NotNameless(v: Vol, e: Slot)
    requires Worded(v) && e in v.chains && IsSlot(v, e)
    ensures Ent(v, e).name != ZERO_NAME || Ent(v, e).ext != ZERO_EXT
  {
  }

  // What has gone was clear.
  lemma GoneIsClear(v: Vol, gone: set<Slot>, now: set<Slot>, s: Slot, q: Slot)
    requires Tree(v) && Orderly(v, s) && Subtree(v, s) !! gone && WentWith(v, gone, now, s, Inner(v, s))
    requires q in v.chains && q in Subtree(v, s) && q in now
    ensures Clear(v, q)
  {
    hide Tree, Subtree, Spellable, Fits, Stuck, LiveEntry, Ahead, Fronts, Alone;
    SlotDir(v, q);
    SubtreeBelow(v, s, q);
    AheadOutside(v, s);
    forall f | f in Subtree(v, q)
      ensures IsSlot(v, f) && Loose(v, f) && !Stuck(v, f) && (f != q ==> Spellable(Ent(v, f)))
    {
      SubtreeLives(v, q, f);
      GoneBelow(v, gone, now, q, f);
      assert Removable(v, f, now);
      FolderIsLoose(v, f);
    }
  }

  lemma FolderIsLoose(v: Vol, f: Slot)
    requires IsSlot(v, f)
    ensures IsDir(Ent(v, f)) ==> Loose(v, f)
  {
  }

  // ... and good.
  lemma GoneIsGood(v: Vol, gone: set<Slot>, now: set<Slot>, s: Slot, q: Slot)
    requires Tree(v) && Orderly(v, s) && Subtree(v, s) !! gone && WentWith(v, gone, now, s, Inner(v, s))
    requires now <= gone + Subtree(v, s) + Ahead(v, s) && (s in now ==> Ahead(v, s) <= gone)
    requires q in v.chains && q in Subtree(v, s) && q in now
    ensures Good(v, gone, s, q)
  {
    hide Tree, Subtree, Spellable, Fits, Stuck, LiveEntry, Ahead, Clear, Twin;
    SubtreeLives(v, s, q);
    GoneIsClear(v, gone, now, s, q);
    AheadOutside(v, s);
    assert Removable(v, q, now);
    if q != s && !IsDir(Ent(v, q)) && Twin(v, q) < q.index {
      TwinIs(v, q);
      var t := Slot(q.dir, Twin(v, q));
      TwinBelow(v, s, q);
      GoneIsClear(v, gone, now, s, t);
    }
  }

  // The folder of a file's name lies where the file does.
  lemma TwinBelow(v: Vol, s: Slot, q: Slot)
    requires Tree(v) && s in v.chains && q in v.chains && IsSlot(v, q) && q in Inner(v, s) && !IsDir(Ent(v, q))
    requires Twin(v, q) < TABLE_SIZE
    ensures Slot(q.dir, Twin(v, q)) in v.chains && Slot(q.dir, Twin(v, q)) in Inner(v, s)
  {
    hide Tree, Under, Twin, Ahead, Fronts;
    TwinIs(v, q);
    NotDirect(v, s, q);
  }

  // On a path that goes through nothing that it may remove, whatever is good goes, unless it lies below a
  // folder that is not spelled.
  lemma {:induction false} GoodGoes(v: Vol, st: seq<Frame>, src: Text, gone: set<Slot>, root: bool, s: Slot, q: Slot)
    requires Plainly(v, st, src, gone, root, s) && Orderly(v, s) && RoomFor(v, s, src) && Subtree(v, s) !! gone
    requires Direct(v, st, src, gone, s) && q in Subtree(v, s) && Good(v, gone, s, q) && !Wild(v, s, q)
    ensures q in Swept(v, st, src, gone, s)
    decreases Slack(src), TABLE_SIZE + 1
  {
    hide Tree, Worded, Subtree, Walk, Parts, Picked, Neat, LiveEntry, Spellable, SweptBefore, Wild, Region, Removable;
    hide Landing, Direct, Fits, RoomFor, EntriesGone, Stuck, LandsIn, NeatEntries, SlotsIn, Via, Under, Ahead, Alone;
    hide Clear, Went;
    SubtreeLives(v, s, q);
    SelfBelow(v, s);
    PickedAlone(v, st, Parts(src), gone, root);
    if IsDir(Ent(v, s)) {
      var g := SweptBefore(v, st, src, gone, s, TABLE_SIZE);
      BeforeBounds(v, st, src, gone, root, s, TABLE_SIZE);
      WentOnly(v, gone, g, Inner(v, s), s);
      WentIn(v, gone, g, Inner(v, s));
      DroppedIs(v, s, g);
      if q == s {
        AllEntriesGo(v, st, src, gone, root, s);
      } else {
        InnerVia(v, s, q);
        EntryGoes(v, st, src, gone, root, s, TABLE_SIZE, q);
      }
    } else {
      FileSubtree(v, s, q);
      FileAhead(v, s);
      DroppedIs(v, s, gone);
    }
  }

  lemma FileSubtree(v: Vol, s: Slot, q: Slot)
    requires Tree(v) && s in v.chains && IsSlot(v, s) && !IsDir(Ent(v, s))
    ensures q in Subtree(v, s) <==> q == s
  {
    hide Tree, Under;
  }

  lemma {:induction false} AllEntriesGo(v: Vol, st: seq<Frame>, src: Text, gone: set<Slot>, root: bool, s: Slot)
    requires Plainly(v, st, src, gone, root, s) && Orderly(v, s) && RoomFor(v, s, src) && Subtree(v, s) !! gone
    requires Direct(v, st, src, gone, s) && IsDir(Ent(v, s)) && Clear(v, s)
    ensures !Occupied(v, s, SweptBefore(v, st, src, gone, s, TABLE_SIZE))
    decreases Slack(src), TABLE_SIZE, 1
  {
    hide Tree, Worded, Subtree, Walk, Parts, Picked, Neat, LiveEntry, Spellable, SweptBefore, Region, Removable;
    hide Landing, Direct, RoomFor, Stuck, Fits, Loose, Good;
    var k, g := Ent(v, s).cluster, SweptBefore(v, st, src, gone, s, TABLE_SIZE);
    SelfBelow(v, s);
    forall j | 1 <= j < TABLE_SIZE && Slot(k, j) in v.chains
      ensures Slot(k, j) in g
    {
      EntryOf(v, s, Slot(k, j));
      ClearBelow(v, gone, s, Slot(k, j));
      InnerVia(v, s, Slot(k, j));
      EntryGoes(v, st, src, gone, root, s, TABLE_SIZE, Slot(k, j));
    }
  }

  // Everything below something clear is good, and nothing there is wild.
  lemma ClearBelow(v: Vol, gone: set<Slot>, s: Slot, q: Slot)
    requires Tree(v) && s in v.chains && Clear(v, s) && q in Inner(v, s)
    ensures Good(v, gone, s, q) && Clear(v, q) && !Wild(v, s, q)
  {
    hide Tree, Subtree, Spellable, Fits, Stuck, Loose, Twin;
    SubtreeLives(v, s, q);
    ClearInside(v, s, q);
    if !IsDir(Ent(v, q)) && Twin(v, q) < q.index {
      TwinBelow(v, s, q);
      ClearInside(v, s, Slot(q.dir, Twin(v, q)));
    }
  }

  lemma ClearInside(v: Vol, s: Slot, q: Slot)
    requires Tree(v) && s in v.chains && Clear(v, s) && q in Subtree(v, s) && q in v.chains
    ensures Clear(v, q) && IsSlot(v, q)
  {
    hide Tree, Subtree, Spellable, Fits, Stuck, Loose;
    SubtreeBelow(v, s, q);
    SubtreeLives(v, s, q);
    if q != s {
      NoCycle(v, s, q);
    }
  }

  // Two slots do not lie below each other.
  lemma NoCycle(v: Vol, s: Slot, q: Slot)
    requires Tree(v) && s in v.chains && q in v.chains && q in Inner(v, s)
    ensures s !in Subtree(v, q)
  {
    hide Tree, Under;
    SubtreeBelow(v, s, q);
  }

  // An entry of the folder is never wild.
  lemma EntryNotWild(v: Vol, s: Slot, e: Slot)
    requires Tree(v) && s in v.chains && IsSlot(v, s) && IsDir(Ent(v, s)) && e in v.chains && e.dir == Ent(v, s).cluster
    ensures !Wild(v, s, e)
  {
    hide Tree, Spellable, Subtree;
    EntryOf(v, s, e);
    forall d | d in Inner(v, s) && d != e && IsSlot(v, d)
      ensures e !in Subtree(v, d)
    {
      SubtreeLives(v, s, d);
      NotAboveEntry(v, s, d, e);
    }
  }

  lemma NotAboveEntry(v: Vol, s: Slot, d: Slot, e: Slot)
    requires Tree(v) && s in v.chains && IsSlot(v, s) && IsDir(Ent(v, s)) && e in v.chains && e.dir == Ent(v, s).cluster
    requires d in v.chains && IsSlot(v, d) && d in Inner(v, s) && d != e
    ensures e !in Subtree(v, d)
  {
    hide SlotOk, DirOk, Base;
    SlotDir(v, d);
    FolderSlot(v, s);
    UnderIsDeeper(v, Ent(v, s).cluster, d.dir);
    if IsDir(Ent(v, d)) {
      FolderSlot(v, d);
      ParentIsAbove(v, Ent(v, d).cluster);
      if e.dir in v.tabs && Under(v, Ent(v, d).cluster, e.dir) {
        UnderIsDeeper(v, Ent(v, d).cluster, e.dir);
      }
    }
  }

  lemma {:induction false} EntryGoes(v: Vol, st: seq<Frame>, src: Text, gone: set<Slot>, root: bool, s: Slot,
      i: nat, q: Slot)
    requires Plainly(v, st, src, gone, root, s) && Orderly(v, s) && RoomFor(v, s, src) && Subtree(v, s) !! gone
    requires Direct(v, st, src, gone, s) && IsDir(Ent(v, s)) && i <= TABLE_SIZE
    requires q in Inner(v, s) && Good(v, gone, s, q) && !Wild(v, s, q)
    requires q.dir in v.tabs && Under(v, Ent(v, s).cluster, q.dir) && Via(v, Ent(v, s).cluster, q) < i
    ensures q in SweptBefore(v, st, src, gone, s, i)
    decreases Slack(src), i, 0
  {
    hide Tree, Worded, Subtree, Walk, Parts, Picked, Neat, LiveEntry, Spellable, Region, Removable, Via, Under;
    hide Landing, Direct, RoomFor, Swept, Fits, Spelled, Wild, Clear, Good, Ahead, Twin, Fronts, Alone, Went;
    var k := Ent(v, s).cluster;
    SubtreeLives(v, s, q);
    ViaAtLeastOne(v, k, q);
    FolderSlot(v, s);
    var g, e := SweptBefore(v, st, src, gone, s, i - 1), Slot(k, i - 1);
    BeforeGrows(v, st, src, gone, s, i - 1, i);
    if Via(v, k, q) < i - 1 {
      EntryGoes(v, st, src, gone, root, s, i - 1, q);
    } else {
      ViaThis(v, k, i - 1, q);
      EntryOf(v, s, e);
      BeforeBounds(v, st, src, gone, root, s, i - 1);
      if e in g {
        EntryWhole(v, gone, g, s, e, q);
      } else if IsDir(Ent(v, e)) {
        FolderTurnGoes(v, st, src, gone, root, s, i, e, q);
      } else {
        FileSubtree(v, e, q);
        FileTurnGoes(v, st, src, gone, root, s, i, e);
      }
    }
  }

  // At the turn of a folder.
  lemma {:induction false} FolderTurnGoes(v: Vol, st: seq<Frame>, src: Text, gone: set<Slot>, root: bool, s: Slot,
      i: nat, e: Slot, q: Slot)
    requires Plainly(v, st, src, gone, root, s) && Orderly(v, s) && RoomFor(v, s, src) && Subtree(v, s) !! gone
    requires Direct(v, st, src, gone, s) && IsDir(Ent(v, s)) && 1 < i <= TABLE_SIZE
    requires q in Inner(v, s) && q in v.chains && Good(v, gone, s, q) && !Wild(v, s, q) && q in Subtree(v, e)
    requires e == Slot(Ent(v, s).cluster, i - 1) && e in v.chains && IsSlot(v, e) && IsDir(Ent(v, e))
    requires e in Inner(v, s) && e !in SweptBefore(v, st, src, gone, s, i - 1)
    ensures q in SweptBefore(v, st, src, gone, s, i)
    decreases Slack(src), i - 1, 2
  {
    hide Tree, Worded, Subtree, Walk, Parts, Picked, Neat, LiveEntry, Spellable, Region, Removable, Via, Under;
    hide Landing, Direct, RoomFor, Swept, Fits, Spelled, Wild, Clear, Ahead, Twin, Fronts, Alone, Went, SweptBefore;
    hide Loose, Good;
    var g := SweptBefore(v, st, src, gone, s, i - 1);
    AheadGone(v, st, src, gone, root, s, i, e, q);
    EntryIsSpelled(v, gone, g, s, e, q);
    TurnGoes(v, st, src, gone, root, s, e);
    GoodGoes(v, st, Spelled(src, Ent(v, e)), g, false, e, q);
  }

  // The file in front of a folder that is to go has gone before.
  lemma {:induction false} AheadGone(v: Vol, st: seq<Frame>, src: Text, gone: set<Slot>, root: bool, s: Slot,
      i: nat, e: Slot, q: Slot)
    requires Plainly(v, st, src, gone, root, s) && Orderly(v, s) && RoomFor(v, s, src) && Subtree(v, s) !! gone
    requires Direct(v, st, src, gone, s) && IsDir(Ent(v, s)) && 1 < i <= TABLE_SIZE
    requires q in Inner(v, s) && q in v.chains && Good(v, gone, s, q)
    requires e == Slot(Ent(v, s).cluster, i - 1) && e in v.chains && IsSlot(v, e) && IsDir(Ent(v, e))
    requires e in Inner(v, s)
    ensures q == e ==> Ahead(v, e) <= SweptBefore(v, st, src, gone, s, i - 1)
    decreases Slack(src), i - 1, 1
  {
    hide Tree, Worded, Subtree, Walk, Parts, Picked, Neat, LiveEntry, Spellable, Region, Removable, Via, Under;
    hide Landing, Direct, RoomFor, Swept, Fits, Spelled, Wild, Ahead, Twin, Alone, Went, SweptBefore;
    AheadFronts(v, e);
    if q == e {
      forall f | f in Ahead(v, e)
        ensures f in SweptBefore(v, st, src, gone, s, i - 1)
      {
        EntryOf(v, s, f);
        EntryNotWild(v, s, f);
        FrontIsGood(v, gone, s, f, e);
        InnerVia(v, s, f);
        DirectVia(v, s, f);
        EntryGoes(v, st, src, gone, root, s, i - 1, f);
      }
    }
  }

  lemma {:induction false} DirectVia(v: Vol, s: Slot, f: Slot)
    requires Tree(v) && f.dir in v.tabs && IsSlot(v, s) && f.dir == Ent(v, s).cluster && Under(v, f.dir, f.dir)
    ensures Via(v, Ent(v, s).cluster, f) == f.index
  {
  }

  // A file in front of a folder that is spelled is good.
  lemma FrontIsGood(v: Vol, gone: set<Slot>, s: Slot, f: Slot, e: Slot)
    requires Tree(v) && Orderly(v, s) && e in v.chains && IsSlot(v, e) && f in Ahead(v, e) && Spellable(Ent(v, e))
    requires e in Inner(v, s) && f in Inner(v, s)
    ensures Good(v, gone, s, f)
  {
    hide Tree, Subtree, Ahead, Neat, Spellable, Twin, Fits;
    AheadFronts(v, e);
    TwinSpelled(v, f);
    FileIsClear(v, f);
  }

  lemma FileIsClear(v: Vol, f: Slot)
    requires Tree(v) && f in v.chains && IsSlot(v, f) && !IsDir(Ent(v, f))
    ensures Clear(v, f) <==> Loose(v, f)
  {
    hide Tree, Subtree, Spellable, Fits, Fronts;
    FileNotStuck(v, f);
    SelfBelow(v, f);
    forall x | x in Subtree(v, f)
      ensures x == f
    {
      FileSubtree(v, f, x);
    }
  }

  // At the turn of a file.
  lemma {:induction false} FileTurnGoes(v: Vol, st: seq<Frame>, src: Text, gone: set<Slot>, root: bool, s: Slot,
      i: nat, e: Slot)
    requires Plainly(v, st, src, gone, root, s) && Orderly(v, s) && RoomFor(v, s, src) && Subtree(v, s) !! gone
    requires Direct(v, st, src, gone, s) && IsDir(Ent(v, s)) && 1 < i <= TABLE_SIZE && Good(v, gone, s, e)
    requires e == Slot(Ent(v, s).cluster, i - 1) && e in v.chains && IsSlot(v, e) && !IsDir(Ent(v, e))
    requires e in Inner(v, s) && e !in SweptBefore(v, st, src, gone, s, i - 1)
    ensures e in SweptBefore(v, st, src, gone, s, i)
    decreases Slack(src), i - 1, 2
  {
    hide Tree, Worded, Subtree, Walk, Parts, Picked, Neat, LiveEntry, Spellable, Region, Removable, Via, Under;
    hide Landing, Direct, RoomFor, Swept, Fits, Spelled, Wild, Ahead, Twin, Fronts, Went, SweptBefore, Alone, After;
    hide Clear;
    var g, below := SweptBefore(v, st, src, gone, s, i - 1), Spelled(src, Ent(v, e));
    OrderlyBelow(v, s, e);
    BeforeBounds(v, st, src, gone, root, s, i - 1);
    WentIn(v, gone, g, Inner(v, s));
    EntryDirect(v, st, src, gone, s, e, g);
    SpelledPicks(v, st, src, e, g);
    EntryText(v, e);
    RoomForEntry(v, s, e, src);
    FileIsClear(v, e);
    TwinGone(v, st, src, gone, root, s, i, e);
    TurnTaken(v, st, src, gone, s, e);
    if Alone(v, e, g) {
      FileAhead(v, e);
      SweptFile(v, st, below, g, e);
    } else {
      TwinIs(v, e);
      FrontGoes(v, st, below, g, Slot(e.dir, Twin(v, e)), e);
    }
  }

  // By then the folder in front of it is gone; a folder behind it is not.
  lemma {:induction false} TwinGone(v: Vol, st: seq<Frame>, src: Text, gone: set<Slot>, root: bool, s: Slot,
      i: nat, e: Slot)
    requires Plainly(v, st, src, gone, root, s) && Orderly(v, s) && RoomFor(v, s, src) && Subtree(v, s) !! gone
    requires Direct(v, st, src, gone, s) && IsDir(Ent(v, s)) && 1 < i <= TABLE_SIZE && Good(v, gone, s, e)
    requires e == Slot(Ent(v, s).cluster, i - 1) && e in v.chains && IsSlot(v, e) && !IsDir(Ent(v, e))
    requires e in Inner(v, s) && e !in SweptBefore(v, st, src, gone, s, i - 1)
    ensures Alone(v, e, SweptBefore(v, st, src, gone, s, i - 1)) <==> !Fronts(v, e)
    decreases Slack(src), i - 1, 1
  {
    hide Tree, Worded, Subtree, Walk, Parts, Picked, Neat, Spellable, Region, Via, Under, Ahead;
    hide Landing, Direct, RoomFor, Swept, Fits, Spelled, Wild, Clear, Twin, SweptBefore;
    var g, t := SweptBefore(v, st, src, gone, s, i - 1), Slot(e.dir, Twin(v, e));
    BeforeBounds(v, st, src, gone, root, s, i - 1);
    if Twin(v, e) < TABLE_SIZE {
      TwinIs(v, e);
      TwinBelow(v, s, e);
      if Fronts(v, e) {
        assert t in g ==> Removable(v, t, g);
      } else {
        OrderlyBelow(v, s, e);
        OrderlyBelow(v, s, t);
        TwinSpelled(v, e);
        EntryNotWild(v, s, t);
        InnerVia(v, s, t);
        DirectVia(v, s, t);
        EntryGoes(v, st, src, gone, root, s, i - 1, t);
      }
    }
  }

  lemma {:induction false} TurnTaken(v: Vol, st: seq<Frame>, src: Text, gone: set<Slot>, s: Slot, e: Slot)
    requires Tree(v) && |st| > 0 && s in v.chains && IsSlot(v, s) && IsDir(Ent(v, s)) && 1 <= e.index < TABLE_SIZE
    requires e in v.chains && IsSlot(v, e) && e.dir == Ent(v, s).cluster && e !in gone
    requires |src| < |Spelled(src, Ent(v, e))| < PATH_ROOM
    ensures var g, below := SweptBefore(v, st, src, gone, s, e.index), Spelled(src, Ent(v, e));
      var p := Picked(v, st, Parts(below), g, false);
      && (p.Some? ==> p.value in v.chains)
      && SweptBefore(v, st, src, gone, s, e.index + 1) == if p.None? then g else Swept(v, st, below, g, p.value)
  {
    hide Tree, Picked, Parts, Spelled, Swept;
    PickedLives(v, st, Parts(Spelled(src, Ent(v, e))), SweptBefore(v, st, src, gone, s, e.index));
  }

  lemma {:induction false} SweptFile(v: Vol, st: seq<Frame>, src: Text, g: set<Slot>, e: Slot)
    requires Tree(v) && |st| > 0 && e in v.chains && IsSlot(v, e) && e !in g && Alone(v, e, g)
    ensures Swept(v, st, src, g, e) == g + {e}
  {
    hide Tree, Found, Ahead;
    FileAhead(v, e);
    DroppedIs(v, e, g);
  }

  // The file in front of the folder goes with the folder's turn.
  lemma {:induction false} FrontGoes(v: Vol, st: seq<Frame>, src: Text, g: set<Slot>, t: Slot, e: Slot)
    requires Tree(v) && |st| > 0 && e in v.chains && IsSlot(v, e) && Fronts(v, e) && t == Slot(e.dir, Twin(v, e))
    ensures t in v.chains && e in Swept(v, st, src, g, t)
  {
    hide Tree, First, SweptBefore, EntriesGone, Stuck;
    TwinIs(v, e);
    OwnKey(v, e);
    OwnKey(v, t);
    BeforeGrows(v, st, src, g, t, 0, TABLE_SIZE);
  }

  lemma {:induction false} ViaAtLeastOne(v: Vol, k: nat, q: Slot)
    requires Tree(v) && q in v.chains && q.dir in v.tabs && Under(v, k, q.dir)
    ensures 1 <= Via(v, k, q) < TABLE_SIZE
  {
    hide Tree, Under, Via;
    ViaIsIndex(v, k, q);
  }

  lemma {:induction false} InnerVia(v: Vol, s: Slot, q: Slot)
    requires Tree(v) && s in v.chains && IsSlot(v, s) && IsDir(Ent(v, s)) && q in Inner(v, s)
    ensures var k := Ent(v, s).cluster; q.dir in v.tabs && Under(v, k, q.dir) && Via(v, k, q) < TABLE_SIZE
  {
    hide Tree, Under, Via;
    SubtreeLives(v, s, q);
    SlotDir(v, q);
    ViaAtLeastOne(v, Ent(v, s).cluster, q);
  }

  lemma {:induction false} ViaThis(v: Vol, k: nat, i: nat, q: Slot)
    requires Tree(v) && k in v.tabs && q in v.chains && q.dir in v.tabs && Under(v, k, q.dir)
    requires 1 <= i < TABLE_SIZE && Via(v, k, q) == i
    ensures Slot(k, i) in v.chains && q in Subtree(v, Slot(k, i))
  {
    hide Tree, Under, Via;
    ViaIs(v, k, i, q);
  }

  lemma EntryIsSpelled(v: Vol, gone: set<Slot>, g: set<Slot>, s: Slot, e: Slot, q: Slot)
    requires Tree(v) && s in v.chains && e in Inner(v, s) && e in v.chains && IsSlot(v, e) && IsDir(Ent(v, e))
    requires q in Subtree(v, e) && q != s && q in v.chains
    requires Good(v, gone, s, q) && !Wild(v, s, q) && (q == e ==> Ahead(v, e) <= g)
    ensures Spellable(Ent(v, e)) && Good(v, g, e, q) && !Wild(v, e, q)
  {
    hide Tree, Spellable, Subtree, Clear, Ahead, Twin;
    SubtreeBelow(v, s, e);
    SelfBelow(v, e);
    SubtreeLives(v, e, q);
    SelfBelow(v, q);
  }

  lemma EntryWhole(v: Vol, gone: set<Slot>, g: set<Slot>, s: Slot, e: Slot, q: Slot)
    requires Tree(v) && s in v.chains && e in Inner(v, s) && e in v.chains && q in Subtree(v, e) && e in g
    requires Subtree(v, s) !! gone && Went(v, gone, g, Inner(v, s))
    ensures q in g
  {
    hide Tree, Spellable, Subtree, Fits, Stuck, EntriesGone;
    SubtreeBelow(v, s, e);
    SubtreeLives(v, e, q);
    GoneBelow(v, gone, g, e, q);
  }

  // At its turn the entry is picked, and the conditions pass to it.
  lemma {:induction false} TurnGoes(v: Vol, st: seq<Frame>, src: Text, gone: set<Slot>, root: bool, s: Slot, e: Slot)
    requires Plainly(v, st, src, gone, root, s) && Orderly(v, s) && RoomFor(v, s, src) && Subtree(v, s) !! gone
    requires Direct(v, st, src, gone, s) && IsDir(Ent(v, s)) && e in Inner(v, s) && IsSlot(v, e) && IsDir(Ent(v, e))
    requires e.dir == Ent(v, s).cluster && Spellable(Ent(v, e))
    requires e !in SweptBefore(v, st, src, gone, s, e.index)
    ensures var g, below := SweptBefore(v, st, src, gone, s, e.index), Spelled(src, Ent(v, e));
      && e in v.chains && e !in gone && |src| < |below| < PATH_ROOM
      && Picked(v, st, Parts(below), g, false) == Some(e)
      && Plainly(v, st, below, g, false, e) && Orderly(v, e) && RoomFor(v, e, below) && Subtree(v, e) !! g
      && Direct(v, st, below, g, e)
      && SweptBefore(v, st, src, gone, s, e.index + 1) == Swept(v, st, below, g, e)
  {
    hide Tree, Worded, Subtree, Walk, Picked, Neat, Spellable, Region, Removable, Parts;
    hide Landing, Direct, RoomFor, Swept, Fits;
    var g, below := SweptBefore(v, st, src, gone, s, e.index), Spelled(src, Ent(v, e));
    OrderlyBelow(v, s, e);
    BeforeBounds(v, st, src, gone, root, s, e.index);
    EntryUntouched(v, st, src, gone, s, e);
    EntryDirect(v, st, src, gone, s, e, g);
    SpelledPicks(v, st, src, e, g);
    SpelledPlainly(v, st, src, e, g);
    EntryText(v, e);
    RoomForEntry(v, s, e, src);
    SubtreeSplits(v, e);
  }

  lemma SubtreeSplits(v: Vol, e: Slot)
    requires Tree(v)
    ensures Subtree(v, e) <= Inner(v, e) + {e}
  {
    hide Tree, Subtree;
  }
}
