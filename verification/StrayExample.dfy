// A reachable tree in which rm -r goes astray: the text of one folder stands for another.
module StrayExample {
  import opened Layout
  import opened Volume
  import opened Pruning
  import opened Disks
  import opened Operations
  import opened Writing
  import opened Runs
  import opened Strings
  import opened Paths
  import opened Subtrees
  import opened Walking
  import opened Sweeping
  import opened Spelling
  import opened Turns
  import opened Bounds
  import opened SweepResults
  import opened Strays
  import opened Readiness
  import opened RmExamples
  import opened Beginnings

  // The name `b.`.
  const STRAY: Name := [B, DOT, 0, 0, 0, 0, 0, 0]

  lemma StrayFacts()
    ensures Unpad(STRAY) == [B, DOT] && Pad([B, DOT], 8) == STRAY && STRAY != ZERO_NAME && STRAY != Letter(B)
    ensures NameAndExt([B, DOT]) == Some((Letter(B), ZERO_EXT)) && DOT in [B, DOT]
  {
    hide Unpad, NameAndExt;
    assert Pad([B, DOT], 8) == STRAY && STRAY[0] == B && STRAY[1] != Letter(B)[1];
    UnpadPad([B, DOT], 8);
    LetterFacts(B);
    SeparateText([B], []);
    assert [B, DOT] == [B] + [DOT] + [] && [B, DOT][1] == DOT;
  }

  predicate Made(e: Entry, name: Name, k: U32) {
    e.name == name && e.ext == ZERO_EXT && IsDir(e) && e.cluster == k
  }

  // Folder `a` holds the folders `b.` and `b`, and each of them a folder `c`.
  ghost predicate StrayTree(v: Vol) {
    && Inv(v) && v.tabs.Keys == {ROOT_CLUSTER, 3, 4, 5, 6, 7}
    && (exists e :: Lists(v.tabs[ROOT_CLUSTER], [e]) && IsA(e))
    && (exists g, h :: Lists(v.tabs[3], [g, h]) && Made(g, STRAY, 4) && Made(h, Letter(B), 5))
    && (exists x :: Lists(v.tabs[4], [x]) && Made(x, Letter(C), 6))
    && (exists y :: Lists(v.tabs[5], [y]) && Made(y, Letter(C), 7))
    && Lists(v.tabs[6], []) && Lists(v.tabs[7], [])
  }

  function ThreeFoldersMade(now: Stamp): seq<Op> {
    FolderIn(STRAY, now) + [FolderCall(Letter(B), 3, now)]
  }

  lemma BothMade(d: Disk, now: Stamp) returns (b: Disk, v: Vol, e: Entry, g: Entry, h: Entry)
    ensures At(d, now, ThreeFoldersMade(now), b, v) && v.tabs.Keys == {ROOT_CLUSTER, 3, 4, 5} && TakenBelow(v.fat, 6)
    ensures Lists(v.tabs[ROOT_CLUSTER], [e]) && IsA(e) && Lists(v.tabs[3], [g, h])
    ensures Made(g, STRAY, 4) && Made(h, Letter(B), 5) && Lists(v.tabs[4], []) && Lists(v.tabs[5], [])
  {
    hide Inv, Rep, Lists, TakenBelow, FromFormat, Reached, First, IsA;
    var p, u;
    p, u, e, g := OneInA(d, STRAY, now);
    StrayFacts();
    FolderDiffers(u.tabs[3], g);
    b, v, h := AddedFolder(d, now, FolderIn(STRAY, now), p, u, FolderReq(Letter(B), 3), [g], 5);
    assert [g] + [h] == [g, h];
  }

  lemma FourMade(d: Disk, now: Stamp) returns (b: Disk, v: Vol, e: Entry, g: Entry, h: Entry, x: Entry)
    ensures At(d, now, ThreeFoldersMade(now) + [FolderCall(Letter(C), 4, now)], b, v) && TakenBelow(v.fat, 7)
    ensures v.tabs.Keys == {ROOT_CLUSTER, 3, 4, 5, 6}
    ensures Lists(v.tabs[ROOT_CLUSTER], [e]) && IsA(e) && Lists(v.tabs[3], [g, h]) && Lists(v.tabs[4], [x])
    ensures Made(g, STRAY, 4) && Made(h, Letter(B), 5) && Made(x, Letter(C), 6)
    ensures Lists(v.tabs[5], []) && Lists(v.tabs[6], [])
  {
    hide Inv, Rep, Lists, TakenBelow, FromFormat, Reached, First, IsA;
    var p, u;
    p, u, e, g, h := BothMade(d, now);
    ListsFinds(u.tabs[4], [], Folder(Letter(C)), 0);
    b, v, x := AddedFolder(d, now, ThreeFoldersMade(now), p, u, FolderReq(Letter(C), 4), [], 6);
    assert [] + [x] == [x];
  }

  function FiveCalls(now: Stamp): seq<Op> {
    ThreeFoldersMade(now) + [FolderCall(Letter(C), 4, now)] + [FolderCall(Letter(C), 5, now)]
  }

  lemma StrayMade(d: Disk, now: Stamp) returns (b: Disk, v: Vol)
    ensures At(d, now, FiveCalls(now), b, v) && StrayTree(v)
  {
    hide Inv, Rep, Lists, TakenBelow, FromFormat, Reached, First, IsA;
    var p, u, e, g, h, x := FourMade(d, now);
    ListsFinds(u.tabs[5], [], Folder(Letter(C)), 0);
    var y;
    var calls := ThreeFoldersMade(now) + [FolderCall(Letter(C), 4, now)];
    b, v, y := AddedFolder(d, now, calls, p, u, FolderReq(Letter(C), 5), [], 7);
    assert [] + [y] == [y];
    MadeFolders(v, e, g, h, x, y);
  }

  lemma FolderDiffers(t: Table, g: Entry)
    requires Lists(t, [g]) && g.name == STRAY && STRAY != Letter(B)
    ensures First(t, Folder(Letter(B))) == TABLE_SIZE
  {
    hide First;
    ListsFinds(t, [g], Folder(Letter(B)), 1);
  }

  lemma MadeFolders(v: Vol, e: Entry, g: Entry, h: Entry, x: Entry, y: Entry)
    requires Inv(v) && v.tabs.Keys == {ROOT_CLUSTER, 3, 4, 5, 6, 7}
    requires Lists(v.tabs[ROOT_CLUSTER], [e]) && IsA(e)
    requires Lists(v.tabs[3], [g, h]) && g.name == STRAY && g.ext == ZERO_EXT && IsDir(g) && g.cluster == 4
    requires h.name == Letter(B) && h.ext == ZERO_EXT && IsDir(h) && h.cluster == 5
    requires Lists(v.tabs[4], [x]) && x.name == Letter(C) && x.ext == ZERO_EXT && IsDir(x) && x.cluster == 6
    requires Lists(v.tabs[5], [y]) && y.name == Letter(C) && y.ext == ZERO_EXT && IsDir(y) && y.cluster == 7
    requires Lists(v.tabs[6], []) && Lists(v.tabs[7], [])
    ensures StrayTree(v)
  {
    hide Inv, Lists;
  }

  /* What is in the tree */

  // The name and the cluster of each folder.
  function NameAt(q: Slot): (Name, U32) {
    if q == SLOT_A then (Letter(A), 3)
    else if q == Slot(3, 1) then (STRAY, 4)
    else if q == Slot(3, 2) then (Letter(B), 5)
    else if q == Slot(4, 1) then (Letter(C), 6) else (Letter(C), 7)
  }

  const FIVE: set<Slot> := {SLOT_A, Slot(3, 1), Slot(3, 2), Slot(4, 1), Slot(5, 1)}

  lemma StrayIs(v: Vol)
    requires StrayTree(v)
    ensures Tree(v) && Inv(v) && v.tabs.Keys == {ROOT_CLUSTER, 3, 4, 5, 6, 7}
  {
    hide Inv, Lists, Made;
    InvTree(v);
  }

  lemma SlotsThere(v: Vol, q: Slot)
    requires StrayTree(v)
    ensures q in v.chains <==> q in FIVE
    ensures q in FIVE ==> IsSlot(v, q) && Made(Ent(v, q), NameAt(q).0, NameAt(q).1)
  {
    hide SlotOk, DirOk, Lists;
    StrayIs(v);
    LiveSlot(v, q);
    var e :| Lists(v.tabs[ROOT_CLUSTER], [e]) && IsA(e);
    var g, h :| Lists(v.tabs[3], [g, h]) && Made(g, STRAY, 4) && Made(h, Letter(B), 5);
    var x :| Lists(v.tabs[4], [x]) && Made(x, Letter(C), 6);
    var y :| Lists(v.tabs[5], [y]) && Made(y, Letter(C), 7);
    if IsSlot(v, q) {
      ListsLive(v.tabs[q.dir], if q.dir == ROOT_CLUSTER then [e] else if q.dir == 3 then [g, h]
        else if q.dir == 4 then [x] else if q.dir == 5 then [y] else [], q.index);
    }
  }

  lemma TextThere(v: Vol, q: Slot)
    requires StrayTree(v) && q in FIVE
    ensures q in v.chains && IsSlot(v, q) && Neat(Ent(v, q)) && Ent(v, q).name != ZERO_NAME && Tree(v)
    ensures q in {Slot(4, 1), Slot(5, 1)} ==> NameText(Ent(v, q)) == [C]
    ensures q == Slot(3, 1) ==> NameText(Ent(v, q)) == [B, DOT] && !Spellable(Ent(v, q))
    ensures q == Slot(3, 2) ==> NameText(Ent(v, q)) == [B]
  {
    hide Inv, Tree, Lists, NameAndExt, Unpad, Pad, StrayTree, First, FirstFrom;
    StrayIs(v);
    SlotsThere(v, q);
    LetterFacts(A);
    LetterFacts(B);
    LetterFacts(C);
    StrayFacts();
    assert SLASH !in [A] && SLASH !in [B] && SLASH !in [C] && SLASH !in [B, DOT];
    SpellableExact(Ent(v, q));
  }

  lemma OnlyFolders(v: Vol, q: Slot)
    requires StrayTree(v) && q in FIVE && IsSlot(v, q)
    ensures Ahead(v, q) == {}
  {
    hide Inv, Tree, StrayTree, First, FirstFrom;
    StrayIs(v);
    SlotsThere(v, q);
    AheadFronts(v, q);
    forall f | f in Ahead(v, q)
      ensures false
    {
      SlotsThere(v, f);
    }
  }

  // Everything hangs from `a`, and the folder `c` in `b.` hangs from a folder that is not spelled.
  lemma StrayBelow(v: Vol)
    requires StrayTree(v)
    ensures Tree(v) && Worded(v) && Orderly(v, SLOT_A) && Inner(v, SLOT_A) == FIVE - {SLOT_A}
    ensures Wild(v, SLOT_A, Slot(4, 1)) && SLOT_A in v.chains
    ensures forall q :: q in Inner(v, SLOT_A) ==> LiveEntry(v, q)
    ensures forall q :: FlagSound(v, q)
  {
    hide Tree, Inv, StrayTree, Neat, Spellable, FlagSound, Stuck, NameText;
    StrayIs(v);
    AllHang(v);
    forall q | q in v.chains && IsSlot(v, q)
      ensures Ent(v, q).name != ZERO_NAME
    {
      SlotsThere(v, q);
      TextThere(v, q);
    }
    SlotsThere(v, SLOT_A);
    TextThere(v, SLOT_A);
    TextThere(v, Slot(3, 1));
    SlotsThere(v, Slot(3, 1));
    forall q | q in Inner(v, SLOT_A)
      ensures LiveEntry(v, q)
    {
      TextThere(v, q);
    }
    forall q
      ensures FlagSound(v, q)
    {
      SoundFlag(v, q);
    }
  }

  lemma AllHang(v: Vol)
    requires StrayTree(v)
    ensures Tree(v) && Inner(v, SLOT_A) == FIVE - {SLOT_A} && Slot(4, 1) in Subtree(v, Slot(3, 1))
  {
    hide SlotOk, DirOk, Base, StrayTree, Inv, Under;
    StrayIs(v);
    SlotsThere(v, SLOT_A);
    SlotsThere(v, Slot(3, 1));
    SlotsThere(v, Slot(3, 2));
    SlotsThere(v, Slot(4, 1));
    FolderSlot(v, Slot(3, 1));
    FolderSlot(v, Slot(3, 2));
    UnderSelf(v, 3);
    UnderSelf(v, 4);
    UnderStep(v, 3, 4);
    UnderStep(v, 3, 5);
    forall q
      ensures q in FIVE - {SLOT_A} <==> q in Inner(v, SLOT_A)
    {
      SlotsThere(v, q);
    }
  }

  lemma {:induction false} DeepThere(v: Vol)
    requires StrayTree(v)
    ensures Tree(v) && RoomDeep(v, 3, 1, 1)
  {
    hide Tree, Inv, StrayTree, RoomDeep;
    StrayIs(v);
    NoneBelow(v, 6, 25, 3);
    NoneBelow(v, 7, 25, 3);
    OneBelow(v, 4, Slot(4, 1), 13, 2);
    OneBelow(v, 5, Slot(5, 1), 13, 2);
    forall d | d in v.chains && IsSlot(v, d) && d.dir == 3 && IsDir(Ent(v, d))
      ensures RoomDeep(v, Ent(v, d).cluster, 13, 2)
    {
      SlotsThere(v, d);
    }
    RoomStep(v, 3, 1, 1);
  }

  lemma RoomStep(v: Vol, c: nat, length: nat, parts: nat)
    requires Tree(v) && length + 12 < PATH_ROOM && parts < 12
    requires forall d :: d in v.chains && IsSlot(v, d) && d.dir == c && IsDir(Ent(v, d)) ==>
      RoomDeep(v, Ent(v, d).cluster, length + 12, parts + 1)
    ensures RoomDeep(v, c, length, parts)
  {
    hide Tree, IsDir;
  }

  lemma {:induction false} NoneBelow(v: Vol, c: nat, length: nat, parts: nat)
    requires StrayTree(v) && Tree(v) && c in {6, 7} && length <= 30 && parts < 12
    ensures RoomDeep(v, c, length, parts)
  {
    hide Tree, Inv, StrayTree;
    forall d | d in v.chains
      ensures d.dir != c
    {
      SlotsThere(v, d);
    }
  }

  lemma OneBelow(v: Vol, c: nat, e: Slot, length: nat, parts: nat)
    requires StrayTree(v) && Tree(v) && c in {4, 5} && e == Slot(c, 1) && length <= 30 && parts < 11
    requires RoomDeep(v, c + 2, length + 12, parts + 1)
    ensures RoomDeep(v, c, length, parts)
  {
    hide Tree, Inv, StrayTree;
    forall d | d in v.chains && IsSlot(v, d) && d.dir == c && IsDir(Ent(v, d))
      ensures RoomDeep(v, Ent(v, d).cluster, length + 12, parts + 1)
    {
      SlotsThere(v, d);
    }
  }

  /* What the paths pick */

  // A folder is opened by its name, and chosen by its name alone.
  lemma Enters(v: Vol, q: Slot)
    requires Tree(v) && q in v.chains && IsSlot(v, q) && IsDir(Ent(v, q))
    ensures q.dir in v.tabs && OpenLeft(v, q.dir, Ent(v, q).name, {}) == 0
    ensures Opened(v, q.dir, Ent(v, q).name) == Ent(v, q).cluster
    ensures Chosen(v, q.dir, Ent(v, q).name, ZERO_EXT, {}) == Some(q)
  {
    hide Tree, First, FirstFrom;
    LiveSlot(v, q);
    FolderFirst(v, q);
  }

  lemma {:induction false} PicksA(v: Vol)
    requires StrayTree(v)
    ensures Tree(v) && Parts([A]) == [[A]] && Last([A]) == [A] && Worded(v) && SLOT_A in v.chains
    ensures Walk(v, AtRoot(), [[A]], {}) == Resolved(0, AtRoot(), Some([A]))
    ensures Picked(v, AtRoot(), [[A]], {}, true) == Some(SLOT_A)
    ensures Walk(v, AtRoot(), Slashed([[A]]), {}).code == 0
    ensures Top(Walk(v, AtRoot(), Slashed([[A]]), {}).stack).cluster == 3
    ensures Grounded(v, AtRoot(), [[A]]) && forall g :: StartStays(v, AtRoot(), [[A]], g)
  {
    hide Tree, StrayTree, First, FirstFrom, OpenLeft, Pad, Subtree, Parts, Opened, NameAndExt, Unpad, Chosen, Orderly;
    StrayBelow(v);
    SlotsThere(v, SLOT_A);
    OneComponent();
    LetterFacts(A);
    UnpadPad([A], 12);
    Enters(v, SLOT_A);
    assert Slashed([[A]]) == [[A], []] && [[A], []][1..] == [[]];
  }

  // The text of the folder `b.` picks the folder `b`.
  lemma PicksOther(v: Vol)
    requires StrayTree(v)
    ensures Tree(v) && SLOT_A in v.chains && Slot(3, 1) in v.chains && Slot(3, 2) in v.chains
    ensures var below := Spelled([A], Ent(v, Slot(3, 1)));
      && |below| == 4 && Parts(below) == [[A]] + [[B, DOT]]
      && Picked(v, AtRoot(), Parts(below), {}, false) == Some(Slot(3, 2))
  {
    hide Tree, StrayTree, First, FirstFrom, NameAndExt, Chosen, NameText, Parts, Walk, Neat, Worded;
    PicksA(v);
    StrayFacts();
    TextThere(v, Slot(3, 1));
    SlotsThere(v, Slot(3, 2));
    Enters(v, Slot(3, 2));
    PartsBelow([A], [B, DOT]);
    LastIsPicked(v, AtRoot(), [[A]], [B, DOT], {});
  }

  // ... and the path of what is in `b` leads through `b.`.
  lemma PicksWrong(v: Vol)
    requires StrayTree(v)
    ensures Tree(v) && Slot(4, 1) in v.chains && Slot(5, 1) in v.chains
    ensures var src := [A] + [SLASH] + [B, DOT]; var below := Spelled(src, Ent(v, Slot(5, 1)));
      && |below| == 6 && Parts(below) == [[A]] + [[B, DOT]] + [[C]]
      && Picked(v, AtRoot(), Parts(below), {}, false) == Some(Slot(4, 1))
  {
    hide Tree, StrayTree, First, FirstFrom, NameAndExt, Chosen, NameText, Parts, Walk, Neat, Worded, OpenLeft;
    hide Pad, Opened;
    PicksA(v);
    StrayFacts();
    LetterFacts(C);
    TextThere(v, Slot(3, 1));
    TextThere(v, Slot(5, 1));
    SlotsThere(v, Slot(3, 1));
    SlotsThere(v, Slot(4, 1));
    Enters(v, Slot(3, 1));
    Enters(v, Slot(4, 1));
    PartsBelow([A], [B, DOT]);
    PartsBelow([A] + [SLASH] + [B, DOT], [C]);
    SlashedApart(v, AtRoot(), [[A]], [B, DOT], {});
    LastIsPicked(v, AtRoot(), [[A]] + [[B, DOT]], [C], {});
  }

  // What goes at the turn of the first entry.
  lemma {:induction false} FirstTurn(v: Vol, st: seq<Frame>, src: Text, s: Slot, e: Slot, p: Slot)
    requires Tree(v) && |st| > 0 && s in v.chains && IsSlot(v, s) && IsDir(Ent(v, s))
    requires e in v.chains && IsSlot(v, e) && e == Slot(Ent(v, s).cluster, 1) && p in v.chains
    requires |src| < |Spelled(src, Ent(v, e))| < PATH_ROOM
    requires Picked(v, st, Parts(Spelled(src, Ent(v, e))), {}, false) == Some(p)
    ensures Swept(v, st, Spelled(src, Ent(v, e)), {}, p) <= Swept(v, st, src, {}, s)
  {
    hide Tree, Picked, Parts, Spelled, Walking.Found;
    SlotsAreThere(v, p);
    assert SweptBefore(v, st, src, {}, s, 1) == {};
    assert SweptBefore(v, st, src, {}, s, 2) == After(v, st, Spelled(src, Ent(v, e)), {}, true, false);
    BeforeGrows(v, st, src, {}, s, 2, TABLE_SIZE);
  }

  lemma {:induction false} EmptyLoop(v: Vol, st: seq<Frame>, src: Text, s: Slot, i: nat)
    requires Tree(v) && |st| > 0 && s in v.chains && IsSlot(v, s) && IsDir(Ent(v, s)) && i <= TABLE_SIZE
    requires forall j :: 1 <= j < TABLE_SIZE ==> Slot(Ent(v, s).cluster, j) !in v.chains
    ensures SweptBefore(v, st, src, {}, s, i) == {}
    decreases i
  {
    hide Tree, Picked, Parts, Spelled, Swept;
    if i > 1 {
      EmptyLoop(v, st, src, s, i - 1);
    }
  }

  // The folder `c` in `b.` goes: it is empty.
  lemma {:induction false} WrongGoes(v: Vol, src: Text)
    requires StrayTree(v)
    ensures Tree(v) && Slot(4, 1) in v.chains && Slot(4, 1) in Swept(v, AtRoot(), src, {}, Slot(4, 1))
  {
    hide Tree, StrayTree, First, FirstFrom, SweptBefore;
    StrayIs(v);
    var s := Slot(4, 1);
    SlotsThere(v, s);
    OnlyFolders(v, s);
    forall j | 1 <= j < TABLE_SIZE
      ensures Slot(6, j) !in v.chains
    {
      SlotsThere(v, Slot(6, j));
    }
    EmptyLoop(v, AtRoot(), src, s, TABLE_SIZE);
    SoundFlag(v, s);
    DroppedIs(v, s, {});
  }

  // The three turns, one in the other.
  lemma {:induction false} WrongTurns(v: Vol)
    requires StrayTree(v)
    ensures Tree(v) && SLOT_A in v.chains && Slot(4, 1) in Swept(v, AtRoot(), [A], {}, SLOT_A)
  {
    hide Tree, StrayTree, Picked, Swept, NameText, Parts, Lists, Neat, Spellable;
    PicksOther(v);
    PicksWrong(v);
    TextThere(v, Slot(3, 1));
    SlotsThere(v, SLOT_A);
    SlotsThere(v, Slot(3, 1));
    SlotsThere(v, Slot(3, 2));
    SlotsThere(v, Slot(5, 1));
    var src := [A] + [SLASH] + [B, DOT];
    assert Spelled([A], Ent(v, Slot(3, 1))) == src;
    FirstTurn(v, AtRoot(), [A], SLOT_A, Slot(3, 1), Slot(3, 2));
    FirstTurn(v, AtRoot(), src, Slot(3, 2), Slot(5, 1), Slot(4, 1));
    WrongGoes(v, Spelled(src, Ent(v, Slot(5, 1))));
  }

  lemma {:induction false} StrayReady(v: Vol)
    requires StrayTree(v)
    ensures Tree(v) && RmReady(v, AtRoot(), [A], {}, true, true)
  {
    hide Tree, StrayTree, Walk, Parts, Worded, Neat, Subtree, FlagSound, Grounded, StartStays, Picked, LiveEntry;
    hide RmReady, Landing, RoomDeep, Region, SlotsIn, NeatEntries, Wild, Spellable;
    PicksA(v);
    StrayBelow(v);
    SlotsThere(v, SLOT_A);
    InnerIsRegion(v, SLOT_A);
    FolderLands(v, AtRoot(), [A], {}, true, SLOT_A);
    DeepThere(v);
    assert [A] != UP && 0 !in [A] && DOT !in [A];
    assert {} + Inner(v, SLOT_A) == Inner(v, SLOT_A);
    ReadyIf(v, AtRoot(), [A], {}, true, SLOT_A, Inner(v, SLOT_A));
  }

  lemma StrayThere(v: Vol)
    requires StrayTree(v)
    ensures Tree(v) && !NoStray(v, SLOT_A)
  {
    hide Tree, StrayTree, Subtree, First, FirstFrom, Spellable, NameText, Neat, NameAndExt, Pad, Orderly, Wild, Worded;
    StrayBelow(v);
    StrayFacts();
    TextThere(v, Slot(3, 1));
    TextThere(v, Slot(3, 2));
    SlotsThere(v, Slot(3, 2));
    SlotsThere(v, Slot(3, 1));
    FolderFirst(v, Slot(3, 1));
    FolderFirst(v, Slot(3, 2));
    assert !Straight(v, Slot(3, 1));
  }

  // A folder with the folders `b.` and `b`, each with a folder `c`. At the turn of `b.` the path names `b`, and
  // the path of its entry, `a/b./c`, leads into `b.`: the folder `c` there goes.
  lemma StrayGoes(d: Disk, now: Stamp)
    ensures FromFormat(d, now, FiveCalls(now))
    ensures var v := Reached(d, now, FiveCalls(now)).1;
      && Tree(v) && RmReady(v, AtRoot(), [A], {}, true, true) && SLOT_A in v.chains && Orderly(v, SLOT_A)
      && Wild(v, SLOT_A, Slot(4, 1)) && !NoStray(v, SLOT_A)
      && Slot(4, 1) in After(v, AtRoot(), [A], {}, true, true)
  {
    hide FromFormat, Reached, StrayTree, Tree, RmReady, Orderly, Wild, NoStray, Swept, Walk, Parts, Subtree, Picked;
    var b, v := StrayMade(d, now);
    StrayBelow(v);
    StrayThere(v);
    StrayReady(v);
    WrongTurns(v);
    PicksA(v);
    SlotsThere(v, SLOT_A);
  }
}
