// whereis: a depth-first search of the whole tree, and what it prints.
module Whereis {
  import opened Layout
  import opened Volume
  import opened Pruning
  import opened Disks
  import opened Operations
  import opened Deleting
  import opened Runs
  import opened FatDriver
  import opened Strings
  import opened Paths
  import opened Subtrees
  import opened Calls

  // What is looked for: the start of a name, and an extension, if it is not all zeros.
  datatype Query = Query(name: Text, ext: Ext)

  predicate Asked(e: Entry, q: Query)
    requires |q.name| <= 8
  {
    e.name[..|q.name|] == q.name && (q.ext[0] == 0 || e.ext == q.ext)
  }

  // The name of a folder has at most seven characters, padded with zeros; a file has no attribute.
  predicate Short(e: Entry) {
    if IsDir(e) then |Unpad(e.name)| <= 7 && Pad(Unpad(e.name), 8) == e.name else e.attribute == 0
  }

  ghost predicate ShortNames(v: Vol)
    requires Tree(v)
  {
    forall s :: s in v.chains ==> IsSlot(v, s) && Short(Ent(v, s))
  }

  // A file that has been found, and the directories that lead to it.
  datatype Hit = Hit(stack: seq<Frame>, slot: Slot)

  // The folder of a live entry can be entered, and the stack stays a path.
  lemma Enter(v: Vol, st: seq<Frame>, i: nat)
    requires Tree(v) && StackOk(v, st) && 1 <= i < TABLE_SIZE && Top(st).cluster in v.tabs
    requires Live(v.tabs[Top(st).cluster][i]) && IsDir(v.tabs[Top(st).cluster][i])
    ensures var e := v.tabs[Top(st).cluster][i];
      && StackOk(v, st + [Frame(e.cluster, e.name)])
      && e.cluster in v.tabs && Parent(v, e.cluster) == Top(st).cluster && e.cluster != ROOT_CLUSTER
      && |st| + 1 < CLUSTER_MAP_SIZE
  {
    hide SlotOk, DirOk, First, FirstFrom;
    var c := Top(st).cluster;
    var e := v.tabs[c][i];
    FoldersHaveNoExt(v, c, i);
    OnlyOneFolder(v, c, i);
    Pushed(v, st, e.name);
    StackTop(v, st + [Frame(e.cluster, e.name)]);
    LiveSlot(v, Slot(c, i));
    FolderSlot(v, Slot(c, i));
  }

  lemma OnlyOneFolder(v: Vol, c: nat, i: nat)
    requires Tree(v) && c in v.tabs && 1 <= i < TABLE_SIZE && Live(v.tabs[c][i]) && IsDir(v.tabs[c][i])
    requires v.tabs[c][i].ext == ZERO_EXT
    ensures First(v.tabs[c], FolderKey(v.tabs[c][i].name, ZERO_EXT)) == i
  {
    hide SlotOk, DirOk, First, FirstFrom;
    assert KeysOk(v, c);
    FirstIsOnly(v.tabs[c], i, FolderKey(v.tabs[c][i].name, ZERO_EXT));
  }

  // The files found from slot `i` of the top directory on, in the order of the search.
  ghost function Hits(v: Vol, st: seq<Frame>, i: nat, q: Query): (hs: seq<Hit>)
    requires Tree(v) && StackOk(v, st) && 1 <= i <= TABLE_SIZE && |q.name| <= 8
    decreases CLUSTER_MAP_SIZE - |st|, TABLE_SIZE - i
  {
    hide Tree, First;
    if i == TABLE_SIZE then []
    else
      StackTop(v, st);
      var e := v.tabs[Top(st).cluster][i];
      (if e.name[0] == 0 || !Live(e) then []
       else if IsDir(e) then
         Enter(v, st, i);
         Hits(v, st + [Frame(e.cluster, e.name)], 1, q)
       else if Asked(e, q) then [Hit(st, Slot(Top(st).cluster, i))]
       else [])
      + Hits(v, st, i + 1, q)
  }

  // How often a slot is among the hits.
  function Count(hs: seq<Hit>, s: Slot): nat {
    if hs == [] then 0 else (if hs[0].slot == s then 1 else 0) + Count(hs[1..], s)
  }

  lemma {:induction false} CountConcat(a: seq<Hit>, b: seq<Hit>, s: Slot)
    ensures Count(a + b, s) == Count(a, s) + Count(b, s)
  {
    if a == [] {
      assert a + b == b;
    } else {
      CountConcat(a[1..], b, s);
      assert (a + b)[1..] == a[1..] + b;
    }
  }

  // Whether the search from slot `i` of directory `k` on comes to the slot and prints it.
  ghost predicate Sees(v: Vol, k: nat, i: nat, q: Query, s: Slot)
    requires Tree(v) && s in v.chains && |q.name| <= 8
  {
    && IsSlot(v, s) && !IsDir(Ent(v, s)) && Asked(Ent(v, s), q)
    && Under(v, k, s.dir) && Via(v, k, s) >= i
  }

  // What the search sees from slot `i` on: what lies behind slot `i`, and what it sees from the next on.
  lemma SeesStep(v: Vol, k: nat, i: nat, q: Query, s: Slot)
    requires Tree(v) && s in v.chains && |q.name| <= 8 && k in v.tabs && 1 <= i < TABLE_SIZE
    ensures var e := v.tabs[k][i];
      && (Sees(v, k, i, q, s) && !Sees(v, k, i + 1, q, s) <==>
            Live(e) && (if IsDir(e) then e.cluster in v.tabs && Sees(v, e.cluster, 1, q, s)
              else s == Slot(k, i) && Asked(e, q)))
      && (Sees(v, k, i + 1, q, s) ==> Sees(v, k, i, q, s))
  {
    hide SlotOk, DirOk, Base, Under, Via;
    SlotDir(v, s);
    LiveSlot(v, Slot(k, i));
    ViaIs(v, k, i, s);
    var e := v.tabs[k][i];
    if Live(e) && IsDir(e) {
      FolderSlot(v, Slot(k, i));
      if Under(v, e.cluster, s.dir) {
        ViaIsIndex(v, e.cluster, s);
      }
    }
  }

  // Neither the slot nor a folder on the way from `k` to it has an empty name. The search skips those.
  ghost predicate Visible(v: Vol, k: nat, s: Slot)
    requires Tree(v)
  {
    forall o :: o in v.chains && IsSlot(v, o) && o.dir in v.tabs && Under(v, k, o.dir) && s in Subtree(v, o) ==>
      Ent(v, o).name[0] != 0
  }

  // Behind an entry of the directory: the entry has a name, and so has everything behind it.
  lemma VisibleStep(v: Vol, k: nat, i: nat, s: Slot)
    requires Tree(v) && k in v.tabs && 1 <= i < TABLE_SIZE && s in v.chains
    requires var e := Slot(k, i); e in v.chains && IsSlot(v, e) && s in Subtree(v, e)
    ensures var e := v.tabs[k][i];
      Visible(v, k, s) <==> e.name[0] != 0 && (s != Slot(k, i) ==> IsDir(e) && Visible(v, e.cluster, s))
  {
    hide SlotOk, DirOk, Base, Under, Via, Below;
    var e := Slot(k, i);
    UnderSelf(v, k);
    SlotDir(v, s);
    if s != e {
      BelowFolder(v, e, s);
      if Visible(v, k, s) {
        forall o | o in v.chains && IsSlot(v, o) && o.dir in v.tabs && Under(v, Ent(v, e).cluster, o.dir)
                   && s in Subtree(v, o)
          ensures Ent(v, o).name[0] != 0
        {
          FolderSlot(v, e);
          UnderStep(v, k, Ent(v, e).cluster);
          UnderTrans(v, k, Ent(v, e).cluster, o.dir);
        }
      }
    }
    if Ent(v, e).name[0] != 0 && (s != e ==> Visible(v, Ent(v, e).cluster, s)) {
      forall o | o in v.chains && IsSlot(v, o) && o.dir in v.tabs && Under(v, k, o.dir) && s in Subtree(v, o)
        ensures Ent(v, o).name[0] != 0
      {
        OnTheWay(v, k, e, o, s);
      }
    }
  }

  lemma {:induction false} BelowFolder(v: Vol, e: Slot, s: Slot)
    requires Tree(v) && e in v.chains && IsSlot(v, e) && s in Subtree(v, e) && s != e
    ensures IsDir(Ent(v, e)) && s.dir in v.tabs && Under(v, Ent(v, e).cluster, s.dir)
  {
    hide Tree, Under;
  }

  // What lies on the way to a slot behind an entry is the entry or lies behind it.
  lemma {:induction false} OnTheWay(v: Vol, k: nat, e: Slot, o: Slot, s: Slot)
    requires Tree(v) && k in v.tabs && e in v.chains && IsSlot(v, e) && e.dir == k
    requires s in v.chains && s in Subtree(v, e)
    requires o in v.chains && IsSlot(v, o) && o.dir in v.tabs && Under(v, k, o.dir) && s in Subtree(v, o)
    ensures o == e || (s != e && IsDir(Ent(v, e)) && Under(v, Ent(v, e).cluster, o.dir))
  {
    hide SlotOk, DirOk, Base, Under, Via, Below;
    SlotDir(v, s);
    ViaIsIndex(v, k, o);
    ViaIs(v, k, Via(v, k, o), o);
    var a := Slot(k, Via(v, k, o));
    assert o in Subtree(v, a);
    SlotDir(v, a);
    SubtreeBelow(v, a, o);
    SameEntryAbove(v, k, a, e, s);
    if o != e {
      BelowFolder(v, e, o);
      SubtreeBelow(v, e, o);
    }
  }

  // Every file that is asked for is found exactly once if it can be seen, and nothing else is.
  lemma {:induction false} HitsExact(v: Vol, st: seq<Frame>, i: nat, q: Query, s: Slot)
    requires Tree(v) && StackOk(v, st) && 1 <= i <= TABLE_SIZE && |q.name| <= 8 && s in v.chains
    ensures Top(st).cluster in v.tabs
    ensures Count(Hits(v, st, i, q), s) ==
      if Sees(v, Top(st).cluster, i, q, s) && Visible(v, Top(st).cluster, s) then 1 else 0
    decreases CLUSTER_MAP_SIZE - |st|, TABLE_SIZE - i
  {
    hide SlotOk, DirOk, Base, Under, Via, First, Sees, Asked, Visible, Subtree;
    StackTop(v, st);
    var k := Top(st).cluster;
    if i == TABLE_SIZE {
      SeesNothing(v, k, q, s);
    } else {
      var e := v.tabs[k][i];
      SeesStep(v, k, i, q, s);
      HitsExact(v, st, i + 1, q, s);
      LiveSlot(v, Slot(k, i));
      var rest := Hits(v, st, i + 1, q);
      if Sees(v, k, i, q, s) && !Sees(v, k, i + 1, q, s) {
        SeenBehind(v, k, i, q, s);
        VisibleStep(v, k, i, s);
      }
      if e.name[0] != 0 && Live(e) && IsDir(e) {
        Enter(v, st, i);
        var next := st + [Frame(e.cluster, e.name)];
        HitsExact(v, next, 1, q, s);
        CountConcat(Hits(v, next, 1, q), rest, s);
      } else if e.name[0] != 0 && Live(e) && Asked(e, q) {
        CountConcat([Hit(st, Slot(k, i))], rest, s);
      } else {
        assert [] + rest == rest;
      }
    }
  }

  // What is seen at slot `i` only lies at or behind it.
  lemma SeenBehind(v: Vol, k: nat, i: nat, q: Query, s: Slot)
    requires Tree(v) && s in v.chains && |q.name| <= 8 && k in v.tabs && 1 <= i < TABLE_SIZE
    requires Sees(v, k, i, q, s) && !Sees(v, k, i + 1, q, s)
    ensures Slot(k, i) in v.chains && IsSlot(v, Slot(k, i)) && s in Subtree(v, Slot(k, i)) && !IsDir(Ent(v, s))
  {
    hide SlotOk, DirOk, Base, Under, Via, Below, Asked;
    SlotDir(v, s);
    ViaIs(v, k, i, s);
    SlotDir(v, Slot(k, i));
  }

  lemma SeesNothing(v: Vol, k: nat, q: Query, s: Slot)
    requires Tree(v) && s in v.chains && |q.name| <= 8 && k in v.tabs
    ensures !Sees(v, k, TABLE_SIZE, q, s)
  {
    hide SlotOk, DirOk, Base, Under, Via;
    SlotDir(v, s);
    if Under(v, k, s.dir) {
      ViaIsIndex(v, k, s);
    }
  }

  lemma NameStarts(v: Vol, k: nat, i: nat)
    requires Tree(v) && ShortNames(v) && k in v.tabs && 1 <= i < TABLE_SIZE
    ensures Live(v.tabs[k][i]) ==> Short(v.tabs[k][i])
  {
    hide SlotOk, DirOk, Base;
    LiveSlot(v, Slot(k, i));
  }

  lemma {:induction false} RootIsAbove(v: Vol, c: nat)
    requires Tree(v) && c in v.tabs
    ensures Under(v, ROOT_CLUSTER, c)
    decreases v.depth[c]
  {
    hide SlotOk, DirOk;
    if c != ROOT_CLUSTER {
      ParentIsAbove(v, c);
      RootIsAbove(v, Parent(v, c));
    }
  }

  const ROOT_STACK: seq<Frame> := [Frame(ROOT_CLUSTER, ROOT_NAME)]

  // From the root the search finds each live file that is asked for exactly once, unless its own name or
  // that of a folder above it is empty.
  lemma {:induction false} WhereisExact(v: Vol, q: Query, s: Slot)
    requires Tree(v) && |q.name| <= 8 && s in v.chains
    ensures StackOk(v, ROOT_STACK) && IsSlot(v, s)
    ensures Count(Hits(v, ROOT_STACK, 1, q), s) ==
      if !IsDir(Ent(v, s)) && Asked(Ent(v, s), q)
         && forall o :: o in v.chains && IsSlot(v, o) && s in Subtree(v, o) ==> Ent(v, o).name[0] != 0
      then 1 else 0
  {
    hide SlotOk, DirOk, Under, Via, First, Hits, Below, Asked;
    SlotDir(v, s);
    RootIsAbove(v, s.dir);
    ViaIsIndex(v, ROOT_CLUSTER, s);
    HitsExact(v, ROOT_STACK, 1, q, s);
    forall o | o in v.chains && IsSlot(v, o)
      ensures Under(v, ROOT_CLUSTER, o.dir)
    {
      RootIsAbove(v, o.dir);
    }
  }

  // Each hit names its file by the directories that lead to it.
  lemma {:induction false} HitPaths(v: Vol, st: seq<Frame>, i: nat, q: Query)
    requires Tree(v) && StackOk(v, st) && 1 <= i <= TABLE_SIZE && |q.name| <= 8
    ensures forall h :: h in Hits(v, st, i, q) ==>
      && StackOk(v, h.stack) && st <= h.stack && Top(h.stack).cluster == h.slot.dir
      && IsSlot(v, h.slot) && Asked(Ent(v, h.slot), q) && h.slot in v.chains
    decreases CLUSTER_MAP_SIZE - |st|, TABLE_SIZE - i
  {
    hide Tree, First, Leads, Asked;
    StackTop(v, st);
    if i < TABLE_SIZE {
      var e := v.tabs[Top(st).cluster][i];
      LiveSlot(v, Slot(Top(st).cluster, i));
      HitPaths(v, st, i + 1, q);
      if e.name[0] != 0 && Live(e) && IsDir(e) {
        Enter(v, st, i);
        HitPaths(v, st + [Frame(e.cluster, e.name)], 1, q);
      }
    }
  }

  lemma {:induction false} IsCounted(hs: seq<Hit>, x: nat)
    requires x < |hs|
    ensures Count(hs, hs[x].slot) > 0
  {
    if x > 0 {
      IsCounted(hs[1..], x - 1);
    }
  }

  // What the search finds from slot `i` on lies at or behind slot `i` or a later one.
  lemma {:induction false} FoundBehind(v: Vol, st: seq<Frame>, i: nat, q: Query, x: nat, a: nat)
    requires Tree(v) && StackOk(v, st) && 1 <= i <= TABLE_SIZE && |q.name| <= 8 && x < |Hits(v, st, i, q)|
    requires 1 <= a < TABLE_SIZE && Hits(v, st, i, q)[x].slot in Subtree(v, Slot(Top(st).cluster, a))
    requires Slot(Top(st).cluster, a) in v.chains
    ensures i <= a
  {
    hide SlotOk, DirOk, Base, Under, Via, First, Asked, Hits, Visible;
    StackTop(v, st);
    var s := Hits(v, st, i, q)[x].slot;
    SlotDir(v, s);
    IsCounted(Hits(v, st, i, q), x);
    HitsExact(v, st, i, q, s);
    ViaIs(v, Top(st).cluster, a, s);
  }

  // What is found before the rest is found at or behind slot `i`.
  lemma AtOrBehind(v: Vol, st: seq<Frame>, i: nat, q: Query, x: nat)
    requires Tree(v) && StackOk(v, st) && 1 <= i < TABLE_SIZE && |q.name| <= 8
    requires x + |Hits(v, st, i + 1, q)| < |Hits(v, st, i, q)|
    ensures var s := Slot(Top(st).cluster, i);
      s in v.chains && Hits(v, st, i, q)[x].slot in Subtree(v, s)
  {
    hide SlotOk, DirOk, Base, Under, Via, First, Asked, Visible;
    StackTop(v, st);
    var s := Slot(Top(st).cluster, i);
    LiveSlot(v, s);
    var e := v.tabs[s.dir][i];
    HitPaths(v, st, i, q);
    var hit := Hits(v, st, i, q)[x];
    assert hit in Hits(v, st, i, q);
    if IsDir(e) {
      Enter(v, st, i);
      var next := st + [Frame(e.cluster, e.name)];
      assert Hits(v, st, i, q) == Hits(v, next, 1, q) + Hits(v, st, i + 1, q);
      IsCounted(Hits(v, next, 1, q), x);
      HitsExact(v, next, 1, q, hit.slot);
    }
  }

  lemma EndsWithRest(v: Vol, st: seq<Frame>, i: nat, q: Query)
    requires Tree(v) && StackOk(v, st) && 1 <= i <= TABLE_SIZE && |q.name| <= 8 && Hits(v, st, i, q) != []
    ensures i < TABLE_SIZE
    ensures var hs, rest := Hits(v, st, i, q), Hits(v, st, i + 1, q);
      |hs| >= |rest| && hs[|hs| - |rest|..] == rest
  {
    hide Tree, First, Asked;
    StackTop(v, st);
    if Live(v.tabs[Top(st).cluster][i]) && IsDir(v.tabs[Top(st).cluster][i]) {
      Enter(v, st, i);
    }
  }

  lemma InTree(v: Vol, s: Slot, q: Slot)
    requires Tree(v) && q in Subtree(v, s)
    ensures q in v.chains && IsSlot(v, q)
  {
    hide Tree;
    SlotDir(v, q);
  }

  // The answer keeps the order of the slots: of two entries of a directory, all that is found at or behind the
  // first comes before all that is found at or behind the second.
  lemma {:induction false} HitsInOrder(v: Vol, st: seq<Frame>, i: nat, q: Query, x: nat, y: nat, a: nat, b: nat)
    requires Tree(v) && StackOk(v, st) && 1 <= i <= TABLE_SIZE && |q.name| <= 8 && x < y < |Hits(v, st, i, q)|
    requires 1 <= a < TABLE_SIZE && 1 <= b < TABLE_SIZE
    requires var c := Top(st).cluster; Slot(c, a) in v.chains && Slot(c, b) in v.chains
    requires Hits(v, st, i, q)[x].slot in Subtree(v, Slot(Top(st).cluster, a))
    requires Hits(v, st, i, q)[y].slot in Subtree(v, Slot(Top(st).cluster, b))
    ensures a <= b
    decreases TABLE_SIZE - i
  {
    hide Tree, Under, Via, First, Hits, Subtree, Leads;
    StackTop(v, st);
    var c := Top(st).cluster;
    var hs := Hits(v, st, i, q);
    FoundBehind(v, st, i, q, y, b);
    EndsWithRest(v, st, i, q);
    var n := |hs| - |Hits(v, st, i + 1, q)|;
    if x >= n {
      HitsInOrder(v, st, i + 1, q, x - n, y - n, a, b);
    } else {
      AtOrBehind(v, st, i, q, x);
      InTree(v, Slot(c, i), hs[x].slot);
      SameEntryAbove(v, c, Slot(c, i), Slot(c, a), hs[x].slot);
    }
  }

  /* What is printed */

  const BLANKS: Text := [32, 32]
  const COLON: Text := [58, 32]

  function PathText(st: seq<Frame>): Text {
    if st == [] then [] else PathText(st[..|st| - 1]) + Unpad(st[|st| - 1].name) + [SLASH]
  }

  // A line of the answer: the directories, the name as it was asked for, and the extension of the file.
  function Printed(st: seq<Frame>, e: Entry, q: Query): Text {
    PathText(st) + q.name + (if e.ext[0] != 0 then [DOT] + Unpad(e.ext) else []) + BLANKS
  }

  ghost function Answer(v: Vol, hs: seq<Hit>, q: Query): Text
    requires forall h :: h in hs ==> IsSlot(v, h.slot)
  {
    if hs == [] then [] else Printed(hs[0].stack, Ent(v, hs[0].slot), q) + Answer(v, hs[1..], q)
  }

  lemma {:induction false} AnswerConcat(v: Vol, a: seq<Hit>, b: seq<Hit>, q: Query)
    requires forall h :: h in a ==> IsSlot(v, h.slot)
    requires forall h :: h in b ==> IsSlot(v, h.slot)
    ensures Answer(v, a + b, q) == Answer(v, a, q) + Answer(v, b, q)
  {
    hide Printed;
    if a == [] {
      assert a + b == b;
    } else {
      AnswerConcat(v, a[1..], b, q);
      assert (a + b)[1..] == a[1..] + b;
    }
  }

  // The printed path is that of the file exactly when the whole name was asked for: after a shorter
  // start of the name, whereis prints the path of a file that need not exist.
  lemma PrintsFile(st: seq<Frame>, e: Entry, q: Query)
    requires 0 !in q.name && |q.name| <= 8 && Asked(e, q)
    ensures Printed(st, e, q) == Printed(st, e, Query(Unpad(e.name), q.ext)) <==> q.name == Unpad(e.name)
  {
    var tail := (if e.ext[0] != 0 then [DOT] + Unpad(e.ext) else []) + BLANKS;
    assert Printed(st, e, q) == PathText(st) + q.name + tail;
    var other := Query(Unpad(e.name), q.ext);
    assert Printed(st, e, other) == PathText(st) + other.name + tail;
    if Printed(st, e, q) == Printed(st, e, other) {
      assert |q.name| == |other.name|;
      assert Printed(st, e, q)[|PathText(st)|..|PathText(st)| + |q.name|] == q.name;
      assert Printed(st, e, other)[|PathText(st)|..|PathText(st)| + |q.name|] == other.name;
    }
  }

  class Terminal {
    var text: Text

    constructor ()
      ensures text == []
    {
      text := [];
    }

    method Puts(s: Text)
      modifies this
      ensures text == old(text) + s
    {
      text := text + s;
    }
  }

  /* The search */

  // The tree that is searched: only time stamps change on the way.
  ghost predicate Searching(driver: Driver, cwd: Cwd, d: Disk, v: Vol, q: Query)
    reads driver, driver.device, driver.device.image, driver.fatTable, driver.dirTableBuf, cwd
  {
    && driver.Intact() && Tree(v) && ShortNames(v) && OnlyLooked(d, v, driver.Content(), driver.vol)
    && cwd.Shape() && StackOk(v, cwd.Frames()) && |q.name| <= 8
  }

  // The rest of the answer, from slot `i` of the top directory on.
  ghost function Rest(v: Vol, st: seq<Frame>, i: nat, q: Query): Text
    requires Tree(v) && StackOk(v, st) && 1 <= i <= TABLE_SIZE && |q.name| <= 8
  {
    HitPaths(v, st, i, q);
    Answer(v, Hits(v, st, i, q), q)
  }

  lemma RestStep(v: Vol, st: seq<Frame>, i: nat, q: Query)
    requires Tree(v) && StackOk(v, st) && 1 <= i < TABLE_SIZE && |q.name| <= 8
    ensures Top(st).cluster in v.tabs
    ensures var e := v.tabs[Top(st).cluster][i];
      && (e.name[0] == 0 || !Live(e) || (!IsDir(e) && !Asked(e, q)) ==> Rest(v, st, i, q) == Rest(v, st, i + 1, q))
      && (e.name[0] != 0 && Live(e) && IsDir(e) ==>
            var next := st + [Frame(e.cluster, e.name)];
            StackOk(v, next) && |next| < CLUSTER_MAP_SIZE &&
              Rest(v, st, i, q) == Rest(v, next, 1, q) + Rest(v, st, i + 1, q))
      && (e.name[0] != 0 && Live(e) && !IsDir(e) && Asked(e, q) ==>
            Rest(v, st, i, q) == Printed(st, e, q) + Rest(v, st, i + 1, q))
  {
    hide Tree, First, Leads, Asked, Printed;
    StackTop(v, st);
    var e := v.tabs[Top(st).cluster][i];
    HitPaths(v, st, i + 1, q);
    var rest := Hits(v, st, i + 1, q);
    if e.name[0] == 0 || !Live(e) || (!IsDir(e) && !Asked(e, q)) {
      assert [] + rest == rest;
    } else if IsDir(e) {
      Enter(v, st, i);
      var next := st + [Frame(e.cluster, e.name)];
      HitPaths(v, next, 1, q);
      AnswerConcat(v, Hits(v, next, 1, q), rest, q);
    } else {
      var h := Hit(st, Slot(Top(st).cluster, i));
      AnswerConcat(v, [h], rest, q);
      assert Answer(v, [h], q) == Printed(st, e, q) + Answer(v, [], q);
    }
  }

  // The folder on top of the stack is opened by its name in the directory below it.
  lemma TopIsNamed(v: Vol, w: Vol, st: seq<Frame>)
    requires Tree(v) && ShortNames(v) && SameTree(v, w) && StackOk(v, st) && |st| > 1
    ensures var p, f := st[|st| - 2].cluster, st[|st| - 1];
      && p in w.tabs && ROOT_CLUSTER <= p < CLUSTER_MAP_SIZE && f.cluster in v.tabs && f.cluster in w.tabs
      && Pad(Unpad(f.name), 8) == f.name
      && First(w.tabs[p], FolderKey(f.name, ZERO_EXT)) < TABLE_SIZE
      && w.tabs[p][First(w.tabs[p], FolderKey(f.name, ZERO_EXT))].cluster == f.cluster
  {
    hide SlotOk, DirOk, Base, First, FirstFrom, ShortNames;
    var p, f := st[|st| - 2].cluster, st[|st| - 1];
    assert Leads(v, st[|st| - 2], st[|st| - 1]);
    DirRange(v, p);
    SameTreeFinds(v, w, p, FolderKey(f.name, ZERO_EXT));
    NameStarts(v, p, First(v.tabs[p], FolderKey(f.name, ZERO_EXT)));
  }

  method EmitPath(cwd: Cwd, q: Query, e: Entry, out: Terminal)
    requires cwd.Shape()
    modifies out
    ensures out.text == old(out.text) + Printed(cwd.Frames(), e, q)
  {
    hide Unpad, PathText, FramesOf;
    ghost var st, start := cwd.Frames(), out.text;
    PathTextStarts(st);
    for j := 0 to cwd.top + 1
      invariant out.text == start + PathText(st[..j])
    {
      PathTextStep(cwd, j, start);
      out.Puts(Unpad(cwd.dirNames[j]));
      out.Puts([SLASH]);
    }
    var ending := if e.ext[0] != 0 then [DOT] + Unpad(e.ext) else [];
    PrintedParts(start, st, e, q, ending);
    out.Puts(q.name);
    if e.ext[0] != 0 {
      Regroup(out.text, [DOT], Unpad(e.ext));
      out.Puts([DOT]);
      out.Puts(Unpad(e.ext));
    }
    out.Puts(BLANKS);
  }

  lemma PathTextStarts(st: seq<Frame>)
    ensures PathText(st[..0]) == [] && st[..|st|] == st
  {
  }

  lemma PathTextStep(cwd: Cwd, j: nat, start: Text)
    requires cwd.Shape() && j <= cwd.top
    ensures start + PathText(cwd.Frames()[..j + 1])
      == start + PathText(cwd.Frames()[..j]) + Unpad(cwd.dirNames[j]) + [SLASH]
  {
    hide Unpad;
    var st := cwd.Frames();
    assert st[..j + 1][..j] == st[..j];
    assert st[j].name == cwd.dirNames[j];
  }

  lemma {:induction false} PrintedParts(start: Text, st: seq<Frame>, e: Entry, q: Query, ending: Text)
    requires ending == if e.ext[0] != 0 then [DOT] + Unpad(e.ext) else []
    ensures start + PathText(st) + q.name + ending + BLANKS == start + Printed(st, e, q)
    ensures ending == [] ==> start + PathText(st) + q.name + BLANKS == start + Printed(st, e, q)
  {
    hide Unpad, PathText;
  }

  // Go through the slots of a table: folders are searched, files that are asked for are printed.
  method SearchTable(driver: Driver, cwd: Cwd, q: Query, table: array<Entry>, out: Terminal, ghost d: Disk,
      ghost v: Vol)
    requires Searching(driver, cwd, d, v, q) && table.Length == TABLE_SIZE && Apart(driver, table)
    requires Top(cwd.Frames()).cluster in v.tabs
    requires forall j :: 0 <= j < TABLE_SIZE ==> SameEntry(table[j], v.tabs[Top(cwd.Frames()).cluster][j])
    modifies driver`vol, driver.device, driver.device.image, driver.fatTable, driver.dirTableBuf, cwd, out
    ensures Searching(driver, cwd, d, v, q) && cwd.Frames() == old(cwd.Frames())
    ensures out.text == old(out.text) + Rest(v, cwd.Frames(), 1, q)
    decreases CLUSTER_MAP_SIZE - cwd.top, 0
  {
    hide Inv, Rep, Formatted, Tree, SameTree, SameFiles, StackOk, FramesOf, ShortNames, Rest, Printed, Asked;
    ghost var st := cwd.Frames();
    for i := 1 to TABLE_SIZE
      invariant Searching(driver, cwd, d, v, q) && cwd.Frames() == st
      invariant out.text + Rest(v, st, i, q) == old(out.text) + Rest(v, st, 1, q)
    {
      RestStep(v, st, i, q);
      var e := table[i];
      SameAnswer(st, e, v.tabs[Top(st).cluster][i], q);
      ghost var before := out.text;
      if e.name[0] != 0 && Live(e) {
        if IsDir(e) {
          cwd.Push(e.cluster, e.name);
          SearchUtil(driver, cwd, q, out, d, v);
          cwd.Pop();
          assert (st + [Frame(e.cluster, e.name)])[..|st|] == st;
          Regroup(before, Rest(v, st + [Frame(e.cluster, e.name)], 1, q), Rest(v, st, i + 1, q));
        } else if Asked(e, q) {
          EmitPath(cwd, q, e, out);
          Regroup(before, Printed(st, e, q), Rest(v, st, i + 1, q));
        }
      }
    }
    RestEnds(v, st, q);
  }

  lemma Regroup(a: Text, b: Text, c: Text)
    ensures (a + b) + c == a + (b + c)
  {
  }

  lemma SameAnswer(st: seq<Frame>, e: Entry, f: Entry, q: Query)
    requires SameEntry(e, f) && |q.name| <= 8
    ensures Printed(st, e, q) == Printed(st, f, q) && Asked(e, q) == Asked(f, q)
  {
  }

  lemma RestEnds(v: Vol, st: seq<Frame>, q: Query)
    requires Tree(v) && StackOk(v, st) && |q.name| <= 8
    ensures Rest(v, st, TABLE_SIZE, q) == []
  {
  }

  // Search the folder on top of the stack. The stack is as before at the end.
  method SearchUtil(driver: Driver, cwd: Cwd, q: Query, out: Terminal, ghost d: Disk, ghost v: Vol)
    requires Searching(driver, cwd, d, v, q) && cwd.top > 0
    modifies driver`vol, driver.device, driver.device.image, driver.fatTable, driver.dirTableBuf, cwd, out
    ensures Searching(driver, cwd, d, v, q) && cwd.Frames() == old(cwd.Frames())
    ensures out.text == old(out.text) + Rest(v, cwd.Frames(), 1, q)
    decreases CLUSTER_MAP_SIZE - cwd.top, 1
  {
    hide Inv, Rep, Formatted, Tree, SameTree, SameFiles, StackOk, ShortNames, Rest, First;
    ghost var st, e, w := cwd.Frames(), driver.Content(), driver.vol;
    var table := new Entry[TABLE_SIZE](_ => ZERO_ENTRY);
    TopIsNamed(v, w, st);
    assert st[|st| - 2] == Frame(cwd.clustersStack[cwd.top - 1], cwd.dirNames[cwd.top - 1]);
    assert st[|st| - 1] == Frame(cwd.clustersStack[cwd.top], cwd.dirNames[cwd.top]);
    var name := Pad(Unpad(cwd.dirNames[cwd.top]), 8);
    var code, found := OpenFolder(driver, Request(name, ZERO_EXT, cwd.clustersStack[cwd.top - 1],
      8 * CLUSTER_SIZE), table);
    OnlyLookedTwice(d, v, e, w, driver.Content(), driver.vol);
    SameTable(v, driver.vol, st[|st| - 1].cluster);
    SearchTable(driver, cwd, q, table, out, d, v);
  }

  lemma SameTable(v: Vol, w: Vol, c: nat)
    requires SameTree(v, w) && c in v.tabs
    ensures c in w.tabs && forall j :: 0 <= j < TABLE_SIZE ==> SameEntry(w.tabs[c][j], v.tabs[c][j])
  {
  }

  // Read the table of the root, which is one cluster long.
  method ReadRootDirectory(driver: Driver, buf: array<Entry>) returns (code: int)
    requires driver.Intact() && Apart(driver, buf) && buf.Length == TABLE_SIZE
    modifies buf
    ensures code == 0 && ROOT_CLUSTER in driver.vol.tabs && buf[..] == driver.vol.tabs[ROOT_CLUSTER]
  {
    hide Formatted, AsFat, AsTable, SlotOk;
    var c := ROOT_CLUSTER;
    var more := true;
    assert DirOk(driver.vol, ROOT_CLUSTER);
    while more
      invariant driver.Intact()
      invariant if more then c == ROOT_CLUSTER else buf[..] == driver.vol.tabs[ROOT_CLUSTER]
      decreases more
    {
      var data := driver.device.ReadCluster(c);
      var table := DecodeTable(data);
      AsTableIs(data, table);
      forall j | 0 <= j < TABLE_SIZE {
        buf[j] := table[j];
      }
      assert buf[..] == table;
      c := driver.fatTable[c];
      more := c != END_OF_FILE;
    }
    code := 0;
  }

  // What a command line asks for; a name that does not separate asks for everything.
  function Asking(fileName: Text): (q: Query)
    ensures |q.name| <= 8
  {
    var parts := NameAndExt(fileName);
    if parts.Some? then Query(Unpad(parts.value.0), parts.value.1) else Query([], ZERO_EXT)
  }

  // Both fields start as zeros and stay so if the name does not separate.
  lemma {:induction false} AskingIs(text: Text, name: Name, ext: Ext)
    requires if NameAndExt(text).Some? then NameAndExt(text).value == (name, ext)
             else (forall k :: 0 <= k < 8 ==> name[k] == 0) && (forall k :: 0 <= k < 3 ==> ext[k] == 0)
    ensures Query(Unpad(name), ext) == Asking(text)
  {
    hide NameAndExt;
    assert NameAndExt(text).None? ==> ext == ZERO_EXT;
  }

  // What is asked for, by the positions of the dots: the characters up to the first dot, and as an extension
  // those up to the next, followed by zeros. A text that does not separate asks for every file.
  lemma AskingExact(text: Text, i: nat, j: nat, e: Entry)
    requires DotsAt(text, i, j) && 0 !in text
    ensures Asking(text).name == if i <= 8 && j <= i + 4 then text[..i] else []
    ensures Asked(e, Asking(text)) <==>
      (i <= 8 && j <= i + 4 ==>
         && (forall k :: 0 <= k < i ==> e.name[k] == text[k])
         && (i + 1 < j ==> forall k :: 0 <= k < 3 ==> e.ext[k] == if i + 1 + k < j then text[i + 1 + k] else 0))
  {
    hide NameAndExt, Unpad;
    SeparatesExact(text, i, j);
    var q := Asking(text);
    if i <= 8 && j <= i + 4 {
      var (name, ext) := NameAndExt(text).value;
      assert name == Pad(text[..i], 8);
      UnpadPad(text[..i], 8);
      assert e.name[..i] == text[..i] <==> forall k :: 0 <= k < i ==> e.name[k] == text[k];
      assert q.ext[0] == 0 <==> i + 1 >= j;
      assert e.ext == q.ext <==> forall k :: 0 <= k < 3 ==> e.ext[k] == q.ext[k];
    } else {
      UnpadZeros();
    }
  }

  lemma UnpadZeros()
    ensures Unpad([]) == []
  {
  }

  // What whereis finds, from the text of the command and the fields of the entry.
  lemma {:induction false} WhereisText(v: Vol, text: Text, i: nat, j: nat, s: Slot)
    requires Tree(v) && s in v.chains && DotsAt(text, i, j) && 0 !in text
    ensures StackOk(v, ROOT_STACK) && IsSlot(v, s)
    ensures var e := Ent(v, s);
      Count(Hits(v, ROOT_STACK, 1, Asking(text)), s) ==
      if && e.attribute != 0x10
         && (i <= 8 && j <= i + 4 ==>
               && (forall k :: 0 <= k < i ==> e.name[k] == text[k])
               && (i + 1 < j ==> forall k :: 0 <= k < 3 ==> e.ext[k] == if i + 1 + k < j then text[i + 1 + k] else 0))
         && (forall o :: o in v.chains && IsSlot(v, o) && s in Subtree(v, o) ==> Ent(v, o).name[0] != 0)
      then 1 else 0
  {
    hide Tree, Hits, Asked, Asking, Subtree, DotsAt;
    WhereisExact(v, Asking(text), s);
    AskingExact(text, i, j, Ent(v, s));
  }

  lemma RootStackOk(v: Vol)
    requires Tree(v)
    ensures StackOk(v, ROOT_STACK) && ROOT_CLUSTER in v.tabs
  {
    hide SlotOk, DirOk;
  }

  method Whereis(driver: Driver, tokenizer: Tokenizer, fileName: array<Byte>, out: Terminal)
    requires driver.Intact() && Terminated(fileName) && Apart(driver, fileName)
    requires ShortNames(driver.vol) && |Asking(CString(fileName[..], 0)).name| <= 7
    modifies driver`vol, driver.device, driver.device.image, driver.fatTable, driver.dirTableBuf, out
    modifies tokenizer, fileName
    ensures driver.Intact()
    ensures OnlyLooked(old(driver.Content()), old(driver.vol), driver.Content(), driver.vol)
    ensures StackOk(old(driver.vol), ROOT_STACK)
    ensures var q := old(Asking(CString(fileName[..], 0)));
      out.text == old(out.text) + q.name + COLON + Rest(old(driver.vol), ROOT_STACK, 1, q)
  {
    hide Inv, Rep, Formatted, Tree, SameTree, SameFiles, ShortNames, Rest, CString, NameAndExt, Unpad, Asking, StackOk;
    hide FramesOf, AsTable, AsFat;
    ghost var d, v := driver.Content(), driver.vol;
    ghost var text := CString(fileName[..], 0);
    var name, ext := new Byte[8](_ => 0), new Byte[3](_ => 0);
    var separated := SeparateFilename(tokenizer, fileName, name, ext);
    var q := Query(Unpad(name[..]), ext[..]);
    AskingIs(text, name[..], ext[..]);
    RootStackOk(v);
    out.Puts(q.name);
    out.Puts(COLON);
    var cwd := new Cwd();
    var table := new Entry[TABLE_SIZE](_ => ZERO_ENTRY);
    var code := ReadRootDirectory(driver, table);
    NothingLooked(d, v);
    SameTable(v, v, ROOT_CLUSTER);
    SearchTable(driver, cwd, q, table, out, d, v);
  }
}