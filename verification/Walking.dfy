// Paths in a tree from which slots are gone: where they lead, and what they name.
module Walking {
  import opened Layout
  import opened Volume
  import opened Pruning
  import opened Operations
  import opened Strings
  import opened Paths
  import opened Clearing

  const RM_BUFFER: U32 := 8 * CLUSTER_SIZE

  /* Searches */

  // The file, or the folder, of a name, unless it is gone.
  ghost function Held(v: Vol, c: nat, p: Pattern, gone: set<Slot>): (i: nat)
    requires c in v.tabs
    ensures i <= TABLE_SIZE
    ensures i < TABLE_SIZE ==> 1 <= i && Matches(v.tabs[c][i], p) && Slot(c, i) !in gone && i == First(v.tabs[c], p)
  {
    var i := First(v.tabs[c], p);
    if Slot(c, i) in gone then TABLE_SIZE else i
  }

  // No other slot has the name of one that is gone.
  lemma FirstGone(v: Vol, w: Vol, gone: set<Slot>, c: nat, p: Pattern)
    requires Cleared(v, w, gone) && c in w.tabs && c in v.tabs && (p.FileKey? || p.FolderKey?)
    requires First(v.tabs[c], p) < TABLE_SIZE && Slot(c, First(v.tabs[c], p)) in gone
    ensures First(w.tabs[c], p) == TABLE_SIZE
  {
    hide SlotOk, DirOk, First, FirstFrom, Base;
    var t, u := v.tabs[c], w.tabs[c];
    var i := First(t, p);
    LiveSlot(v, Slot(c, i));
    assert KeysOk(v, c);
    assert TableCleared(t, u, c, gone);
    FirstIs(u, p, TABLE_SIZE);
  }

  lemma HeldIs(v: Vol, w: Vol, gone: set<Slot>, c: nat, p: Pattern)
    requires Cleared(v, w, gone) && c in w.tabs && (p.FileKey? || p.FolderKey?)
    ensures c in v.tabs && First(w.tabs[c], p) == Held(v, c, p, gone)
  {
    hide Tree, First, FirstFrom, TableCleared, CellsCleared, OwnersCleared;
    var i := First(v.tabs[c], p);
    if Slot(c, i) in gone {
      NoSlot(v, w, gone, c);
      FirstGone(v, w, gone, c, p);
    } else {
      FindsCleared(v, w, gone, c, p);
    }
  }

  lemma NoSlot(v: Vol, w: Vol, gone: set<Slot>, c: nat)
    requires Cleared(v, w, gone)
    ensures Slot(c, TABLE_SIZE) !in gone
  {
    hide SlotOk, DirOk, Base;
    LiveSlot(v, Slot(c, TABLE_SIZE));
  }

  function Lower(i: nat, j: nat): nat {
    if i < j then i else j
  }

  // A search for a name that takes files and folders finds the first of the two.
  lemma FirstKey(t: Table, name: Name, ext: Ext)
    ensures First(t, Key(name, ext)) == Lower(First(t, FileKey(name, ext)), First(t, FolderKey(name, ext)))
  {
    hide First, FirstFrom;
    FirstIs(t, Key(name, ext), Lower(First(t, FileKey(name, ext)), First(t, FolderKey(name, ext))));
  }

  /* The walk */

  // What opening folder `name` returns: 0, 1 for a file, 3 for nothing.
  ghost function OpenLeft(v: Vol, c: nat, name: Name, gone: set<Slot>): int
    requires c in v.tabs
  {
    if Held(v, c, FolderKey(name, ZERO_EXT), gone) < TABLE_SIZE then 0
    else if Held(v, c, FileKey(name, ZERO_EXT), gone) < TABLE_SIZE then 1
    else 3
  }

  lemma OpenLeftIs(v: Vol, w: Vol, gone: set<Slot>, c: nat, name: Name)
    requires Cleared(v, w, gone) && c in w.tabs
    ensures c in v.tabs && OpenCode(w, c, name) == OpenLeft(v, c, name, gone)
    ensures OpenLeft(v, c, name, gone) == 0 ==> First(v.tabs[c], FolderKey(name, ZERO_EXT)) < TABLE_SIZE
    ensures OpenLeft(v, c, name, gone) == 0 ==> Opened(w, c, name) == Opened(v, c, name)
  {
    hide Tree, First, FirstFrom;
    HeldIs(v, w, gone, c, FolderKey(name, ZERO_EXT));
    HeldIs(v, w, gone, c, FileKey(name, ZERO_EXT));
    FirstKey(w.tabs[c], name, ZERO_EXT);
    assert TableCleared(v.tabs[c], w.tabs[c], c, gone);
  }

  // Walk the components but for the last one, without the folders that are gone.
  ghost function Walk(v: Vol, st: seq<Frame>, comps: seq<Text>, gone: set<Slot>): (r: Resolved)
    requires |st| > 0 && |comps| > 0
    ensures |r.stack| > 0
    decreases |comps|
  {
    var c := comps[0];
    if |comps| == 1 then
      if c == UP then Resolved(0, if |st| > 1 then st[..|st| - 1] else st, None)
      else Resolved(0, st, Some(c))
    else if c == UP then
      if |st| > 1 then Walk(v, st[..|st| - 1], comps[1..], gone) else Resolved(3, st, None)
    else if c == [] then Walk(v, st, comps[1..], gone)
    else if |c| > 8 || Top(st).cluster !in v.tabs then Resolved(3, st, None)
    else
      var dir, name := Top(st).cluster, Pad(c, 8);
      if OpenLeft(v, dir, name, gone) == 0 then
        Walk(v, st + [Frame(Opened(v, dir, name), name)], comps[1..], gone)
      else Resolved(OpenLeft(v, dir, name, gone), st, None)
  }

  // The directory that the walk starts in is still there.
  ghost predicate StartStays(v: Vol, st: seq<Frame>, comps: seq<Text>, gone: set<Slot>)
    requires |st| > 0 && |comps| > 0
  {
    !DirGone(v, Top(Risen(st, comps)).cluster, gone)
  }

  // If a directory is still there, so are those above it.
  lemma {:induction false} StackStays(v: Vol, w: Vol, gone: set<Slot>, st: seq<Frame>)
    requires Cleared(v, w, gone) && Tree(w) && StackOk(v, st) && Top(st).cluster in w.tabs
    ensures StackOk(w, st)
    decreases |st|
  {
    hide Tree, First, CellsCleared, OwnersCleared;
    if |st| > 1 {
      var up, a, b := st[..|st| - 1], st[|st| - 2], st[|st| - 1];
      assert Leads(v, a, b);
      OpenedIsChild(v, a.cluster, b.name);
      ParentIsAbove(w, b.cluster);
      assert TableCleared(v.tabs[b.cluster], w.tabs[b.cluster], b.cluster, gone);
      assert Parent(w, b.cluster) == Parent(v, b.cluster);
      assert Top(up) == a;
      StackStays(v, w, gone, up);
      StepStays(v, w, gone, a, b);
      forall i | 0 <= i < |st| - 1
        ensures Leads(w, st[i], st[i + 1])
      {
        assert i < |st| - 2 ==> up[i] == st[i] && up[i + 1] == st[i + 1];
      }
    }
  }

  lemma StepStays(v: Vol, w: Vol, gone: set<Slot>, a: Frame, b: Frame)
    requires Cleared(v, w, gone) && Leads(v, a, b) && a.cluster in w.tabs && b.cluster in w.tabs
    ensures Leads(w, a, b)
  {
    hide SlotOk, DirOk, First, FirstFrom, Base, CellsCleared, OwnersCleared;
    var p := FolderKey(b.name, ZERO_EXT);
    var i := First(v.tabs[a.cluster], p);
    LiveSlot(v, Slot(a.cluster, i));
    FolderSlot(v, Slot(a.cluster, i));
    FindsCleared(v, w, gone, a.cluster, p);
    assert TableCleared(v.tabs[a.cluster], w.tabs[a.cluster], a.cluster, gone);
  }

  // In a tree from which slots are gone the resolver does exactly this walk.
  lemma {:induction false} WalkExact(v: Vol, w: Vol, gone: set<Slot>, st: seq<Frame>, comps: seq<Text>)
    requires Cleared(v, w, gone) && Tree(w) && |st| > 0 && |comps| > 0
    requires Grounded(v, st, comps) && StartStays(v, st, comps, gone)
    ensures Resolve(w, st, comps) == Walk(v, st, comps, gone) && Grounded(w, st, comps)
    decreases |comps|
  {
    hide Tree, First, OpenCode, OpenLeft, TableCleared, DirGone, Leads, CellsCleared, OwnersCleared;
    StartIsThere(v, w, gone, Risen(st, comps));
    StackStays(v, w, gone, Risen(st, comps));
    var c := comps[0];
    if |comps| > 1 {
      if c == UP {
        if |st| > 1 {
          WalkExact(v, w, gone, st[..|st| - 1], comps[1..]);
        }
      } else if c == [] {
        WalkExact(v, w, gone, st, comps[1..]);
      } else if |c| <= 8 {
        var dir, name := Top(st).cluster, Pad(c, 8);
        OpenLeftIs(v, w, gone, dir, name);
        OpenIsFound(w, dir, name);
        if OpenLeft(v, dir, name, gone) == 0 {
          Pushed(v, st, name);
          var next := st + [Frame(Opened(v, dir, name), name)];
          OpenedIsChild(w, dir, name);
          OpenedStays(v, w, gone, next, comps[1..]);
          PathIsGrounded(v, next, comps[1..]);
          WalkExact(v, w, gone, next, comps[1..]);
        }
      }
    }
  }

  lemma StartIsThere(v: Vol, w: Vol, gone: set<Slot>, st: seq<Frame>)
    requires Cleared(v, w, gone) && StackOk(v, st) && !DirGone(v, Top(st).cluster, gone)
    ensures Top(st).cluster in w.tabs
  {
    hide Tree, First, Leads, TableCleared;
    StackTop(v, st);
  }

  // Wherever the walk goes up to from a directory that is there, it finds one that is there.
  lemma OpenedStays(v: Vol, w: Vol, gone: set<Slot>, next: seq<Frame>, comps: seq<Text>)
    requires Cleared(v, w, gone) && Tree(w) && StackOk(v, next) && Top(next).cluster in w.tabs && |comps| > 0
    ensures StartStays(v, next, comps, gone)
  {
    hide Tree, First, OpenCode, TableCleared, CellsCleared, OwnersCleared, Leads;
    StackStays(v, w, gone, next);
    PathIsGrounded(w, next, comps);
    StackTop(w, Risen(next, comps));
  }

  /* What a path names */

  // A file that the buffer of rm can take.
  predicate Fits(e: Entry) {
    IsDir(e) || e.filesize <= RM_BUFFER
  }

  // The entry that rm chooses: a folder of the name, or else a file of at most eight clusters.
  ghost function Chosen(v: Vol, c: nat, name: Name, ext: Ext, gone: set<Slot>): (p: Option<Slot>)
    requires c in v.tabs
    ensures p.Some? ==> IsSlot(v, p.value) && p.value.dir == c && Live(Ent(v, p.value)) && Fits(Ent(v, p.value))
    ensures p.Some? ==> Ent(v, p.value).name == name && Ent(v, p.value).ext == ext && p.value !in gone
  {
    var i, j := Held(v, c, FolderKey(name, ext), gone), Held(v, c, FileKey(name, ext), gone);
    if i < TABLE_SIZE then Some(Slot(c, i))
    else if j < TABLE_SIZE && v.tabs[c][j].filesize <= RM_BUFFER then Some(Slot(c, j))
    else None
  }

  lemma ChosenExact(v: Vol, w: Vol, gone: set<Slot>, c: nat, name: Name, ext: Ext)
    requires Cleared(v, w, gone) && c in w.tabs
    ensures c in v.tabs && Chosen(w, c, name, ext, {}) == Chosen(v, c, name, ext, gone)
  {
    hide Tree, First, FirstFrom, CellsCleared, OwnersCleared;
    HeldIs(v, w, gone, c, FolderKey(name, ext));
    HeldIs(v, w, gone, c, FileKey(name, ext));
    assert TableCleared(v.tabs[c], w.tabs[c], c, gone);
  }

  // What the path names. The shell's rm gives up when the walk fails with 3; else a walk that has failed
  // leaves the empty name, which is then looked for where the walk stopped.
  ghost function Picked(v: Vol, st: seq<Frame>, comps: seq<Text>, gone: set<Slot>, root: bool): (p: Option<Slot>)
    requires |st| > 0 && |comps| > 0
    ensures p.Some? ==> IsSlot(v, p.value) && Live(Ent(v, p.value)) && Fits(Ent(v, p.value)) && p.value !in gone
  {
    var r := Walk(v, st, comps, gone);
    var parts := NameAndExt(Unpad(Sought(r.leaf)));
    var c := Top(r.stack).cluster;
    if (root && r.code == 3) || parts.None? || c !in v.tabs then None
    else Chosen(v, c, parts.value.0, parts.value.1, gone)
  }

  lemma PickedExact(v: Vol, w: Vol, gone: set<Slot>, st: seq<Frame>, comps: seq<Text>, root: bool)
    requires Cleared(v, w, gone) && Tree(w) && |st| > 0 && |comps| > 0
    requires Grounded(v, st, comps) && StartStays(v, st, comps, gone)
    ensures Picked(w, st, comps, {}, root) == Picked(v, st, comps, gone, root)
  {
    hide Tree, Resolve, Walk, NameAndExt, Chosen, Leads, Unpad, Sought, CellsCleared, OwnersCleared;
    hide TableCleared;
    WalkExact(v, w, gone, st, comps);
    ResolveKeepsStack(w, st, comps);
    var r := Resolve(w, st, comps);
    StackTop(w, r.stack);
    ClearedNothing(w);
    WalkExact(w, w, {}, st, comps);
    var parts := NameAndExt(Unpad(Sought(r.leaf)));
    if parts.Some? {
      ChosenExact(v, w, gone, Top(r.stack).cluster, parts.value.0, parts.value.1);
    }
  }

  // An entry of the name is held if it is live and not gone; no other of its kind has the name.
  lemma HeldLive(v: Vol, c: nat, p: Pattern, gone: set<Slot>, s: Slot)
    requires Tree(v) && c in v.tabs && (p.FileKey? || p.FolderKey?) && s.dir == c
    ensures s in v.chains ==> IsSlot(v, s)
    ensures Held(v, c, p, gone) == s.index && s.index < TABLE_SIZE <==>
      s in v.chains && s !in gone && Matches(Ent(v, s), p)
  {
    hide SlotOk, DirOk, FirstFrom, Base;
    LiveSlot(v, s);
    assert KeysOk(v, c);
    if s in v.chains && Matches(Ent(v, s), p) {
      var i := First(v.tabs[c], p);
      assert i == s.index;
    }
  }

  // The entry that rm chooses for a name: the folder, or, if there is none, the file, unless it has more than
  // 16384 bytes. What is gone does not count.
  lemma ChosenIs(v: Vol, c: nat, name: Name, ext: Ext, gone: set<Slot>, s: Slot)
    requires Tree(v) && c in v.tabs
    ensures s in v.chains ==> IsSlot(v, s)
    ensures Chosen(v, c, name, ext, gone) == Some(s) <==>
      && s in v.chains && s !in gone && s.dir == c && Ent(v, s).name == name && Ent(v, s).ext == ext
      && (Ent(v, s).attribute == 0x10 ||
          (Ent(v, s).filesize <= 16384 && forall o ::
             o in v.chains && IsSlot(v, o) && o !in gone && o.dir == c && Ent(v, o).attribute == 0x10 ==>
               Ent(v, o).name != name || Ent(v, o).ext != ext))
  {
    hide Tree, Held;
    LiveSlot(v, s);
    var p, q := FolderKey(name, ext), FileKey(name, ext);
    var i, j := Held(v, c, p, gone), Held(v, c, q, gone);
    HeldLive(v, c, p, gone, Slot(c, s.index));
    HeldLive(v, c, q, gone, Slot(c, s.index));
    HeldLive(v, c, p, gone, Slot(c, i));
    forall o | o in v.chains && IsSlot(v, o) && o !in gone && o.dir == c && Ent(v, o).attribute == 0x10
      ensures i == TABLE_SIZE ==> Ent(v, o).name != name || Ent(v, o).ext != ext
    {
      LiveSlot(v, o);
      HeldLive(v, c, p, gone, o);
    }
  }

  // What a path names, from the characters of its last component: the part up to the first dot, and that up to
  // the next, each followed by zeros, are the fields of the entry. A walk that fails names nothing if rm was
  // asked by the shell and the code is 3; otherwise it goes on with the empty component.
  lemma {:induction false} PickedText(v: Vol, st: seq<Frame>, comps: seq<Text>, gone: set<Slot>, root: bool, text: Text,
      i: nat, j: nat, s: Slot)
    requires Tree(v) && |st| > 0 && |comps| > 0
    requires var r := Walk(v, st, comps, gone);
      Top(r.stack).cluster in v.tabs && text == if r.leaf.Some? then r.leaf.value else []
    requires DotsAt(text, i, j) && 0 !in text && |text| <= 12
    ensures s in v.chains ==> IsSlot(v, s)
    ensures var r := Walk(v, st, comps, gone);
      Picked(v, st, comps, gone, root) == Some(s) <==>
      && !(root && r.code == 3) && i <= 8 && j <= i + 4
      && s in v.chains && s !in gone && s.dir == Top(r.stack).cluster
      && (forall k :: 0 <= k < 8 ==> Ent(v, s).name[k] == if k < i then text[k] else 0)
      && (forall k :: 0 <= k < 3 ==> Ent(v, s).ext[k] == if i + 1 + k < j then text[i + 1 + k] else 0)
      && (Ent(v, s).attribute == 0x10 ||
          (Ent(v, s).filesize <= 16384 && forall o ::
             o in v.chains && IsSlot(v, o) && o !in gone && o.dir == s.dir && Ent(v, o).attribute == 0x10 ==>
               Ent(v, o).name != Ent(v, s).name || Ent(v, o).ext != Ent(v, s).ext))
  {
    hide Tree, Walk, NameAndExt, Chosen, Unpad, DotsAt;
    LiveSlot(v, s);
    UnpadPad(text, 12);
    var r := Walk(v, st, comps, gone);
    assert Unpad(Sought(r.leaf)) == text by {
      assert Pad([], 12) == Sought(None);
    }
    SeparatesExact(text, i, j);
    if i <= 8 && j <= i + 4 {
      var (name, ext) := NameAndExt(text).value;
      ChosenIs(v, Top(r.stack).cluster, name, ext, gone, s);
      if s in v.chains {
        assert Ent(v, s).name == name <==> forall k :: 0 <= k < 8 ==> Ent(v, s).name[k] == name[k];
        assert Ent(v, s).ext == ext <==> forall k :: 0 <= k < 3 ==> Ent(v, s).ext[k] == ext[k];
      }
    }
  }

  // What a delete of the name finds: the first file or folder that has it.
  ghost function Found(v: Vol, s: Slot, gone: set<Slot>): (i: nat)
    requires IsSlot(v, s)
    ensures i <= TABLE_SIZE
  {
    var e := Ent(v, s);
    Lower(Held(v, s.dir, FileKey(e.name, e.ext), gone), Held(v, s.dir, FolderKey(e.name, e.ext), gone))
  }

  lemma FoundExact(v: Vol, w: Vol, gone: set<Slot>, s: Slot)
    requires Cleared(v, w, gone) && s.dir in w.tabs && IsSlot(v, s)
    ensures First(w.tabs[s.dir], Key(Ent(v, s).name, Ent(v, s).ext)) == Found(v, s, gone)
  {
    hide Tree, First, FirstFrom, CellsCleared, OwnersCleared, TableCleared;
    var e := Ent(v, s);
    HeldIs(v, w, gone, s.dir, FileKey(e.name, e.ext));
    HeldIs(v, w, gone, s.dir, FolderKey(e.name, e.ext));
    FirstKey(w.tabs[s.dir], e.name, e.ext);
  }
}
