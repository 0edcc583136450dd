// The turns of rm over the entries of a folder: where the paths of the entries land, and what they pick.
module Turns {
  import opened Layout
  import opened Volume
  import opened Pruning
  import opened Operations
  import opened Strings
  import opened Paths
  import opened Walking
  import opened Sweeping
  import opened Spelling

  /* Walks, one component at a time */

  lemma {:induction false} WalkApart(v: Vol, st: seq<Frame>, comps: seq<Text>, last: Text, gone: set<Slot>)
    requires |st| > 0 && |comps| > 0
    ensures var r := Walk(v, st, Slashed(comps), gone); var q := Walk(v, st, comps + [last], gone);
      && (if r.code != 0 then q == r && r.leaf == None else q == Walk(v, r.stack, [last], gone))
      && (r.code == 0 ==> r.leaf == Some([]))
    decreases |comps|
  {
    hide OpenLeft;
    var c := comps[0];
    assert Slashed(comps)[1..] == Slashed(comps[1..]);
    assert (comps + [last])[1..] == comps[1..] + [last];
    if |comps| == 1 {
      assert comps[1..] == [] && Slashed(comps[1..]) == [[]] && comps[1..] + [last] == [last];
    } else {
      if c == UP {
        if |st| > 1 {
          WalkApart(v, st[..|st| - 1], comps[1..], last, gone);
        }
      } else if c == [] {
        WalkApart(v, st, comps[1..], last, gone);
      } else if |c| <= 8 && Top(st).cluster in v.tabs && OpenLeft(v, Top(st).cluster, Pad(c, 8), gone) == 0 {
        OpenedThere(v, Top(st).cluster, Pad(c, 8), gone);
        WalkApart(v, st + [Frame(Opened(v, Top(st).cluster, Pad(c, 8)), Pad(c, 8))], comps[1..], last, gone);
      }
    }
  }

  lemma OpenedThere(v: Vol, c: nat, name: Name, gone: set<Slot>)
    requires c in v.tabs && OpenLeft(v, c, name, gone) == 0
    ensures First(v.tabs[c], FolderKey(name, ZERO_EXT)) < TABLE_SIZE
  {
  }

  // What is handed back is the last component.
  lemma {:induction false} LeafIsLast(v: Vol, st: seq<Frame>, comps: seq<Text>, gone: set<Slot>)
    requires |st| > 0 && |comps| > 0
    ensures var r := Walk(v, st, comps, gone);
      && (r.leaf.Some? ==> r.code == 0 && r.leaf.value == comps[|comps| - 1] && r.leaf.value != UP)
      && (r.leaf.Some? ==> Walk(v, st, Slashed(comps), gone) == Walk(v, r.stack, [r.leaf.value, []], gone))
    decreases |comps|
  {
    hide OpenLeft;
    var c := comps[0];
    assert Slashed(comps)[1..] == Slashed(comps[1..]);
    if |comps| == 1 {
      assert Slashed(comps) == [c, []];
    } else {
      if c == UP {
        if |st| > 1 {
          LeafIsLast(v, st[..|st| - 1], comps[1..], gone);
        }
      } else if c == [] {
        LeafIsLast(v, st, comps[1..], gone);
      } else if |c| <= 8 && Top(st).cluster in v.tabs && OpenLeft(v, Top(st).cluster, Pad(c, 8), gone) == 0 {
        OpenedThere(v, Top(st).cluster, Pad(c, 8), gone);
        LeafIsLast(v, st + [Frame(Opened(v, Top(st).cluster, Pad(c, 8)), Pad(c, 8))], comps[1..], gone);
      }
    }
  }

  // Where a walk succeeds, it does so as long as less is gone.
  lemma {:induction false} WalkLess(v: Vol, st: seq<Frame>, comps: seq<Text>, gone: set<Slot>, less: set<Slot>)
    requires |st| > 0 && |comps| > 0 && less <= gone && Walk(v, st, comps, gone).code == 0
    ensures Walk(v, st, comps, less) == Walk(v, st, comps, gone)
    decreases |comps|
  {
    hide First;
    var c := comps[0];
    if |comps| > 1 {
      if c == UP {
        WalkLess(v, st[..|st| - 1], comps[1..], gone, less);
      } else if c == [] {
        WalkLess(v, st, comps[1..], gone, less);
      } else {
        WalkLess(v, st + [Frame(Opened(v, Top(st).cluster, Pad(c, 8)), Pad(c, 8))], comps[1..], gone, less);
      }
    }
  }

  // ... and it leads to a path of the tree.
  lemma {:induction false} WalkKeepsStack(v: Vol, st: seq<Frame>, comps: seq<Text>, gone: set<Slot>)
    requires Tree(v) && |st| > 0 && |comps| > 0 && Grounded(v, st, comps)
    ensures StackOk(v, Walk(v, st, comps, gone).stack)
    decreases |comps|
  {
    hide Tree, First, Leads, OpenLeft;
    var c := comps[0];
    if |comps| > 1 {
      if c == UP {
        if |st| > 1 {
          WalkKeepsStack(v, st[..|st| - 1], comps[1..], gone);
        }
      } else if c == [] {
        WalkKeepsStack(v, st, comps[1..], gone);
      } else {
        StackTop(v, st);
        if |c| <= 8 && OpenLeft(v, Top(st).cluster, Pad(c, 8), gone) == 0 {
          OpenedThere(v, Top(st).cluster, Pad(c, 8), gone);
          Pushed(v, st, Pad(c, 8));
          var next := st + [Frame(Opened(v, Top(st).cluster, Pad(c, 8)), Pad(c, 8))];
          PathIsGrounded(v, next, comps[1..]);
          WalkKeepsStack(v, next, comps[1..], gone);
        }
      }
    }
  }

  /* What the path of an entry picks */

  lemma NamelessNothing(v: Vol, c: nat, gone: set<Slot>)
    requires Tree(v) && Worded(v) && c in v.tabs
    ensures Chosen(v, c, ZERO_NAME, ZERO_EXT, gone) == None
  {
    hide Tree, First, FirstFrom;
    var p := Chosen(v, c, ZERO_NAME, ZERO_EXT, gone);
    if p.Some? {
      LiveSlot(v, p.value);
    }
  }

  // Without a last component the empty name is looked for.
  lemma NoNameSought()
    ensures NameAndExt(Unpad(Sought(None))) == Some((ZERO_NAME, ZERO_EXT))
    ensures NameAndExt([]) == Some((ZERO_NAME, ZERO_EXT))
  {
    hide Split;
    SoughtNone();
    UnpadPad([], 12);
    SplitOne([], DOT);
    PadNothing();
  }

  // A path is looked up where the path without its last component leads.
  lemma {:induction false} LastIsPicked(v: Vol, st: seq<Frame>, comps: seq<Text>, t: Text, gone: set<Slot>)
    requires Tree(v) && Worded(v) && |st| > 0 && |comps| > 0 && 0 !in t && |t| < 12
    ensures var r := Walk(v, st, Slashed(comps), gone); var p := Picked(v, st, comps + [t], gone, false);
      p == if r.code != 0 || t == UP || NameAndExt(t).None? || Top(r.stack).cluster !in v.tabs then None
           else Chosen(v, Top(r.stack).cluster, NameAndExt(t).value.0, NameAndExt(t).value.1, gone)
    ensures var leaf := Walk(v, st, comps + [t], gone).leaf; leaf.Some? ==> leaf.value == t
  {
    hide Tree, NameAndExt, Chosen, Unpad, Pad, Worded;
    WalkApart(v, st, comps, t, gone);
    NoNameSought();
    UnpadPad(t, 12);
    var q := Walk(v, st, comps + [t], gone);
    if q.leaf == None && Top(q.stack).cluster in v.tabs {
      NamelessNothing(v, Top(q.stack).cluster, gone);
    }
  }

  // The directory in which the entries are looked for as long as nothing is gone.
  ghost function Landing(v: Vol, st: seq<Frame>, src: Text): Option<nat>
    requires |st| > 0
  {
    var r := Walk(v, st, Slashed(Parts(src)), {});
    if r.code == 0 then Some(Top(r.stack).cluster) else None
  }

  // An entry as the loop of rm finds it.
  ghost predicate LiveEntry(v: Vol, q: Slot) {
    q in v.chains && IsSlot(v, q) && Neat(Ent(v, q))
  }

  lemma PartsBelow(src: Text, t: Text)
    requires SLASH !in t
    ensures Parts(src + [SLASH] + t) == Parts(src) + [t]
  {
    SplitAppend(src, t, SLASH);
  }

  lemma EntryText(v: Vol, q: Slot)
    requires Tree(v) && Worded(v) && LiveEntry(v, q)
    ensures var t := NameText(Ent(v, q)); 0 !in t && t != [] && |t| < 12 && SLASH !in t
    ensures IsDir(Ent(v, q)) ==> Ent(v, q).ext == ZERO_EXT && NameText(Ent(v, q)) == Unpad(Ent(v, q).name)
  {
    hide Tree, Unpad;
    if IsDir(Ent(v, q)) {
      FolderSlot(v, q);
    }
    PadNothing();
  }

  // What the path of an entry picks lies in that directory, is spelled by its text, and is no other folder's.
  lemma {:induction false} TurnPicks(v: Vol, st: seq<Frame>, src: Text, q: Slot, gone: set<Slot>)
    requires Tree(v) && Worded(v) && |st| > 0 && LiveEntry(v, q)
    ensures var below := Spelled(src, Ent(v, q));
      && Parts(below) == Parts(src) + [NameText(Ent(v, q))]
      && var p := Picked(v, st, Parts(below), gone, false);
      && (p.Some? ==>
            && Walk(v, st, Slashed(Parts(src)), gone).code == 0
            && Landing(v, st, src) == Some(p.value.dir) && p.value in v.chains
            && Spellable(Ent(v, p.value)) && NameText(Ent(v, q)) != UP
            && NameAndExt(NameText(Ent(v, q))) == Some((Ent(v, p.value).name, Ent(v, p.value).ext)))
  {
    hide Tree, NameAndExt, Chosen, NameText, Neat, Parts, Walk, Spellable, Worded;
    var t := NameText(Ent(v, q));
    EntryText(v, q);
    PartsBelow(src, t);
    LastIsPicked(v, st, Parts(src), t, gone);
    var p := Picked(v, st, Parts(src) + [t], gone, false);
    if p.Some? {
      WalkLess(v, st, Slashed(Parts(src)), gone, {});
      LiveSlot(v, p.value);
      if IsDir(Ent(v, p.value)) {
        FolderSlot(v, p.value);
      }
      TextsNameSpelled(Ent(v, q), Ent(v, p.value));
    }
  }

  // A folder is the first of its name.
  lemma FolderFirst(v: Vol, q: Slot)
    requires Tree(v) && q in v.chains && IsSlot(v, q) && IsDir(Ent(v, q))
    ensures First(v.tabs[q.dir], FolderKey(Ent(v, q).name, ZERO_EXT)) == q.index
  {
    hide SlotOk, DirOk, First, FirstFrom, Base;
    FolderSlot(v, q);
    LiveSlot(v, q);
    assert KeysOk(v, q.dir);
    FirstIsOnly(v.tabs[q.dir], q.index, FolderKey(Ent(v, q).name, ZERO_EXT));
  }

  // The paths of the entries of what has been picked land in the folder whose name is the text.
  lemma NextLanding(v: Vol, st: seq<Frame>, src: Text, q: Slot)
    requires Tree(v) && Worded(v) && |st| > 0 && LiveEntry(v, q) && NameText(Ent(v, q)) != UP
    ensures var next := Landing(v, st, Spelled(src, Ent(v, q)));
      next.Some? ==>
        && Landing(v, st, src).Some?
        && exists f :: f in v.chains && IsSlot(v, f) && IsDir(Ent(v, f)) && f.dir == Landing(v, st, src).value
             && Ent(v, f).cluster == next.value && Ent(v, f).name == Pad(NameText(Ent(v, q)), 8)
             && |NameText(Ent(v, q))| <= 8
  {
    hide Tree, NameText, Neat, Parts, Worded, First;
    var t := NameText(Ent(v, q));
    EntryText(v, q);
    PartsBelow(src, t);
    var r := Walk(v, st, Slashed(Parts(src)), {});
    var comps := Parts(src);
    SlashedApart(v, st, comps, t, {});
    var next := Landing(v, st, Spelled(src, Ent(v, q)));
    if next.Some? {
      var c, name := Top(r.stack).cluster, Pad(t, 8);
      OpenedThere(v, c, name, {});
      LiveSlot(v, Slot(c, First(v.tabs[c], FolderKey(name, ZERO_EXT))));
    }
  }

  lemma {:induction false} SlashedApart(v: Vol, st: seq<Frame>, comps: seq<Text>, t: Text, gone: set<Slot>)
    requires |st| > 0 && |comps| > 0 && t != UP && t != []
    ensures var r := Walk(v, st, Slashed(comps), gone); var next := Walk(v, st, Slashed(comps + [t]), gone);
      if r.code != 0 then next == r
      else if |t| > 8 || Top(r.stack).cluster !in v.tabs then next.code != 0
      else if OpenLeft(v, Top(r.stack).cluster, Pad(t, 8), gone) != 0 then next.code != 0
      else next == Resolved(0, r.stack + [Frame(Opened(v, Top(r.stack).cluster, Pad(t, 8)), Pad(t, 8))], Some([]))
  {
    hide OpenLeft, Pad;
    WalkApart(v, st, comps, t, gone);
    WalkApart(v, st, comps + [t], [], gone);
    LeafIsLast(v, st, comps + [t], gone);
    var r := Walk(v, st, Slashed(comps), gone);
    if r.code == 0 {
      assert [t, []][1..] == [[]];
    } else {
      WalkFails(v, st, comps, t, gone);
    }
  }

  // A walk that fails on the way fails with whatever comes behind.
  lemma {:induction false} WalkFails(v: Vol, st: seq<Frame>, comps: seq<Text>, t: Text, gone: set<Slot>)
    requires |st| > 0 && |comps| > 0 && Walk(v, st, Slashed(comps), gone).code != 0
    ensures Walk(v, st, Slashed(comps + [t]), gone) == Walk(v, st, Slashed(comps), gone)
    decreases |comps|
  {
    hide OpenLeft;
    var c := comps[0];
    assert Slashed(comps)[1..] == Slashed(comps[1..]);
    assert Slashed(comps + [t])[1..] == Slashed(comps[1..] + [t]);
    if |comps| == 1 {
      assert Slashed(comps) == [c, []] && [c, []][1..] == [[]];
    } else if c == UP {
      if |st| > 1 {
        WalkFails(v, st[..|st| - 1], comps[1..], t, gone);
      }
    } else if c == [] {
      WalkFails(v, st, comps[1..], t, gone);
    } else if |c| <= 8 && Top(st).cluster in v.tabs && OpenLeft(v, Top(st).cluster, Pad(c, 8), gone) == 0 {
      OpenedThere(v, Top(st).cluster, Pad(c, 8), gone);
      WalkFails(v, st + [Frame(Opened(v, Top(st).cluster, Pad(c, 8)), Pad(c, 8))], comps[1..], t, gone);
    }
  }

  // A folder that is chosen by its own name is where the paths of its entries land, now and from the start.
  lemma {:induction false} FolderLands(v: Vol, st: seq<Frame>, src: Text, gone: set<Slot>, root: bool, s: Slot)
    requires Tree(v) && Worded(v) && |st| > 0 && 0 !in src && DOT !in Last(src)
    requires Picked(v, st, Parts(src), gone, root) == Some(s) && s in v.chains && IsSlot(v, s) && IsDir(Ent(v, s))
    requires var leaf := Walk(v, st, Parts(src), gone).leaf; leaf.Some? ==> |leaf.value| < 12
    ensures Landing(v, st, src) == Some(Ent(v, s).cluster) && Walk(v, st, Slashed(Parts(src)), gone).code == 0
    ensures var r := Walk(v, st, Parts(src), gone);
      && r.code == 0
      && Walk(v, st, Slashed(Parts(src)), gone).stack == r.stack + [Frame(Ent(v, s).cluster, Ent(v, s).name)]
  {
    hide Tree, NameAndExt, Chosen, Parts, Worded, First, Unpad, Pad, Sought;
    var r := Walk(v, st, Parts(src), gone);
    LeafIsLast(v, st, Parts(src), gone);
    NoNameSought();
    if r.leaf.None? {
      NamelessNothing(v, Top(r.stack).cluster, gone);
    }
    var t := Last(src);
    LastFree(src);
    SoughtIsText(t);
    FolderSlot(v, s);
    ChosenHas(v, Top(r.stack).cluster, t, gone);
    Separated(t, Ent(v, s).name, Ent(v, s).ext);
    UnpadPad(t, 12);
    FolderFirst(v, s);
    if t == [] {
      NamelessNothing(v, Top(r.stack).cluster, gone);
    }
    assert [t, []][1..] == [[]];
    WalkLess(v, st, Slashed(Parts(src)), gone, {});
  }

  lemma SoughtIsText(t: Text)
    requires 0 !in t && |t| < 12
    ensures Unpad(Sought(Some(t))) == t
  {
    hide Unpad, Pad;
    UnpadPad(t, 12);
  }

  lemma ChosenHas(v: Vol, c: nat, t: Text, gone: set<Slot>)
    requires c in v.tabs && NameAndExt(t).Some?
    ensures var p := Chosen(v, c, NameAndExt(t).value.0, NameAndExt(t).value.1, gone);
      p.Some? ==> p.value.dir == c && NameAndExt(t) == Some((Ent(v, p.value).name, Ent(v, p.value).ext))
  {
    hide Chosen, NameAndExt;
  }

  lemma LastFree(src: Text)
    requires 0 !in src
    ensures 0 !in Last(src)
  {
    hide SplitFrom;
    TokensFree(src, SLASH, 0);
    assert Last(src) in Parts(src);
  }
}
