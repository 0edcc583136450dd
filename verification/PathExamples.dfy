// Reachable trees in which a path command does something else than it was asked for.
module PathExamples {
  import opened Layout
  import opened Volume
  import opened Pruning
  import opened Disks
  import opened Operations
  import opened Writing
  import opened Runs
  import opened Strings
  import opened Paths
  import opened Subtrees
  import opened Whereis
  import opened Walking
  import opened Sweeping
  import opened Spelling
  import opened Turns
  import opened RmExamples
  import opened Beginnings
  import Examples
  import Removal

  /* cd */

  // With a folder `a` in the root, `cd a/b` fails and has moved to `a`.
  lemma CdMoves(d: Disk, now: Stamp)
    ensures FromFormat(d, now, [FolderCall(Letter(A), ROOT_CLUSTER, now)])
    ensures var v := Reached(d, now, [FolderCall(Letter(A), ROOT_CLUSTER, now)]).1;
      && StackOk(v, AtRoot()) && CdResult(v, AtRoot(), [[A], [B]]) == (3, AtRoot() + [Frame(3, Letter(A))])
  {
    hide Inv, Rep, TakenBelow, FromFormat, Reached, First, EmptyVol, FormatDisk, Pad, Unpad;
    Fresh(d, now);
    ListsFinds(EmptyVol(now).tabs[ROOT_CLUSTER], [], Folder(Letter(A)), 0);
    var call := FolderCall(Letter(A), ROOT_CLUSTER, now);
    var b, v, e := AddedFolder(d, now, [], FormatDisk(d, now), EmptyVol(now),
      FolderReq(Letter(A), ROOT_CLUSTER), [], 3);
    assert [] + [e] == [e] && [] + [call] == [call];
    ListsFinds(v.tabs[ROOT_CLUSTER], [e], FolderKey(Letter(A), ZERO_EXT), 0);
    ListsFinds(v.tabs[3], [], FolderKey(Letter(B), ZERO_EXT), 0);
    ListsFinds(v.tabs[3], [], Key(Letter(B), ZERO_EXT), 0);
    LetterFacts(A);
    LetterFacts(B);
    PadShort([B]);
    PadStarts([B]);
    assert [[A], [B]][1..] == [[B]];
    assert Opened(v, ROOT_CLUSTER, Letter(A)) == 3;
    assert Resolve(v, AtRoot() + [Frame(3, Letter(A))], [[B]]) ==
      Resolved(0, AtRoot() + [Frame(3, Letter(A))], Some([B]));
    assert Resolve(v, AtRoot(), [[A], [B]]) == Resolved(0, AtRoot() + [Frame(3, Letter(A))], Some([B]));
  }

  lemma PadStarts(t: Text)
    ensures |t| <= 8 ==> Pad(t, 12)[..8] == Pad(t, 8)
  {
  }

  /* whereis */

  const TXT: Ext := [116, 120, 116]

  function DotTxt(buf: Cluster, now: Stamp): Op {
    Op.Write(Request(ZERO_NAME, TXT, ROOT_CLUSTER, 1), buf, now)
  }

  // A file `.txt` has an empty name. whereis is asked for `.txt`, and does not find it.
  lemma EmptyNameHidden(d: Disk, buf: Cluster, now: Stamp)
    ensures FromFormat(d, now, [DotTxt(buf, now)])
    ensures var v, s, q := Reached(d, now, [DotTxt(buf, now)]).1, Slot(ROOT_CLUSTER, 1), Asking([DOT] + TXT);
      && Tree(v) && s in v.chains && IsSlot(v, s) && !IsDir(Ent(v, s)) && Asked(Ent(v, s), q) && ShortNames(v)
      && NameAndExt([DOT] + TXT) == Some((Ent(v, s).name, Ent(v, s).ext))
      && StackOk(v, ROOT_STACK) && Count(Hits(v, ROOT_STACK, 1, q), s) == 0
  {
    hide Inv, Rep, TakenBelow, FromFormat, Reached, First, EmptyVol, FormatDisk, Pad, Blocks, FileWritable, Hits;
    hide Unpad, NameAndExt, Asking;
    Fresh(d, now);
    OneBlock(buf);
    ListsFinds(EmptyVol(now).tabs[ROOT_CLUSTER], [], Key(ZERO_NAME, TXT), 0);
    var b, v, e := AddedFile(d, now, [], FormatDisk(d, now), EmptyVol(now),
      Request(ZERO_NAME, TXT, ROOT_CLUSTER, 1), buf, [], 3);
    assert [] + [DotTxt(buf, now)] == [DotTxt(buf, now)] && [] + [e] == [e];
    var s := Slot(ROOT_CLUSTER, 1);
    AtTree(d, now, [DotTxt(buf, now)], b, v);
    LiveSlot(v, s);
    SelfBelow(v, s);
    AskedDotTxt();
    assert v.chains.Keys == {s};
    WhereisExact(v, Asking([DOT] + TXT), s);
  }

  lemma AtTree(d: Disk, now: Stamp, ops: seq<Op>, b: Disk, v: Vol)
    requires At(d, now, ops, b, v)
    ensures Tree(v)
  {
    InvTree(v);
  }

  lemma AskedDotTxt()
    ensures NameAndExt([DOT] + TXT) == Some((ZERO_NAME, TXT)) && Asking([DOT] + TXT) == Query([], TXT)
  {
    hide NameAndExt;
    SeparateText([], TXT);
    assert [] + [DOT] + TXT == [DOT] + TXT;
    PadNothing();
    UnpadZero();
    assert Pad(TXT, 3) == TXT;
  }

  /* rm */

  // A file and a folder `a`: rm is asked for `a`, chooses the folder, and removes the file.
  lemma {:induction false} SharedNameGoes(d: Disk, buf: Cluster, now: Stamp, recursive: bool)
    ensures FromFormat(d, now, Examples.TwoCalls(Letter(A), buf, now))
    ensures var v := Reached(d, now, Examples.TwoCalls(Letter(A), buf, now)).1;
      var file, folder := Slot(ROOT_CLUSTER, 1), Slot(ROOT_CLUSTER, 2);
      && Tree(v) && RmReady(v, AtRoot(), [A], {}, recursive, true)
      && Picked(v, AtRoot(), Parts([A]), {}, true) == Some(folder) && IsDir(Ent(v, folder))
      && IsSlot(v, file) && !IsDir(Ent(v, file))
      && After(v, AtRoot(), [A], {}, recursive, true) == {file}
  {
    hide Inv, Rep, TakenBelow, FromFormat, Reached, Pad, Unpad, Parts, NameAndExt, First, FirstFrom;
    var b, v, e, f := Examples.FileThenFolder(d, Letter(A), buf, now);
    AtTree(d, now, Examples.TwoCalls(Letter(A), buf, now), b, v);
    var file, folder := Slot(ROOT_CLUSTER, 1), Slot(ROOT_CLUSTER, 2);
    ListsLive(v.tabs[ROOT_CLUSTER], [e, f], 1);
    ListsLive(v.tabs[ROOT_CLUSTER], [e, f], 2);
    ListsFinds(v.tabs[ROOT_CLUSTER], [e, f], FileKey(Letter(A), ZERO_EXT), 0);
    ListsFinds(v.tabs[ROOT_CLUSTER], [e, f], FolderKey(Letter(A), ZERO_EXT), 1);
    LetterFacts(A);
    UnpadPad([A], 12);
    OneComponent();
    NothingHeld(v, 4);
    LiveSlot(v, folder);
    SharedSweeps(v, e, f, recursive);
  }

  // A folder without entries.
  lemma NothingHeld(v: Vol, k: nat)
    requires Tree(v) && k in v.tabs && Lists(v.tabs[k], [])
    ensures EntriesGone(v, k, {}) && !HasLive(v.tabs[k])
  {
    hide Tree;
    forall j | 1 <= j < TABLE_SIZE
      ensures Slot(k, j) !in v.chains && !Live(v.tabs[k][j])
    {
      LiveSlot(v, Slot(k, j));
      ListsLive(v.tabs[k], [], j);
    }
  }

  lemma {:induction false} SharedSweeps(v: Vol, e: Entry, f: Entry, recursive: bool)
    requires Inv(v) && Tree(v) && ROOT_CLUSTER in v.tabs && 4 in v.tabs && EntriesGone(v, 4, {}) && !HasLive(v.tabs[4])
    requires var t := v.tabs[ROOT_CLUSTER]; t[1] == e && t[2] == f
    requires Slot(ROOT_CLUSTER, 2) in v.chains && e.name == Letter(A) && e.ext == ZERO_EXT && !IsDir(e)
    requires f.name == Letter(A) && f.ext == ZERO_EXT && IsDir(f) && f.cluster == 4
    requires First(v.tabs[ROOT_CLUSTER], FileKey(Letter(A), ZERO_EXT)) == 1
    requires First(v.tabs[ROOT_CLUSTER], FolderKey(Letter(A), ZERO_EXT)) == 2
    requires Parts([A]) == [[A]] && Unpad(Sought(Some([A]))) == [A] && NameAndExt([A]) == Some((Letter(A), ZERO_EXT))
    ensures Picked(v, AtRoot(), Parts([A]), {}, true) == Some(Slot(ROOT_CLUSTER, 2))
    ensures RmReady(v, AtRoot(), [A], {}, recursive, true)
    ensures After(v, AtRoot(), [A], {}, recursive, true) == {Slot(ROOT_CLUSTER, 1)}
  {
    hide Tree, Pad, Unpad, Parts, NameAndExt, First, FirstFrom, SweptBefore, EntriesReady;
    var folder := Slot(ROOT_CLUSTER, 2);
    SoundFlag(v, folder);
    NothingGone(v, folder);
    assert Walk(v, AtRoot(), [[A]], {}) == Resolved(0, AtRoot(), Some([A]));
  }

  lemma {:induction false} NothingGone(v: Vol, s: Slot)
    requires Tree(v) && s in v.chains && IsSlot(v, s) && IsDir(Ent(v, s)) && EntriesGone(v, Ent(v, s).cluster, {})
    ensures SweptBefore(v, AtRoot(), [A], {}, s, TABLE_SIZE) == {}
  {
    hide Tree;
    Removal.NothingSwept(v, AtRoot(), [A], {}, s, TABLE_SIZE);
  }

  function TwoFiles(buf: Cluster, now: Stamp): seq<Op> {
    [Examples.FileCall(ZERO_NAME, buf, now)] + [Examples.FileCall(Letter(A), buf, now)]
  }

  // A file without any name, as `.` makes it, and a file `a`: rm of `a/b`, which leads nowhere, removes the
  // file without a name.
  lemma NamelessGoes(d: Disk, buf: Cluster, now: Stamp)
    ensures FromFormat(d, now, TwoFiles(buf, now))
    ensures var v, file := Reached(d, now, TwoFiles(buf, now)).1, Slot(ROOT_CLUSTER, 1);
      && Tree(v) && RmReady(v, AtRoot(), [A, SLASH, B], {}, false, true)
      && Resolve(v, AtRoot(), Parts([A, SLASH, B])).code == 1
      && IsSlot(v, file) && NameAndExt([DOT]) == Some((Ent(v, file).name, Ent(v, file).ext))
      && After(v, AtRoot(), [A, SLASH, B], {}, false, true) == {file}
  {
    hide Inv, Rep, TakenBelow, FromFormat, Reached, Pad, Unpad, Parts, NameAndExt, First, FirstFrom, Blocks;
    hide FileWritable, FileWritten;
    OneBlock(buf);
    var x, w, e := Examples.FileAlone(d, ZERO_NAME, buf, now);
    LetterFacts(A);
    ListsFinds(w.tabs[ROOT_CLUSTER], [e], Key(Letter(A), ZERO_EXT), 1);
    var b, v, f := AddedFile(d, now, [Examples.FileCall(ZERO_NAME, buf, now)], x, w, Examples.FileReq(Letter(A)),
      buf, [e], 4);
    assert [e] + [f] == [e, f];
    AtTree(d, now, TwoFiles(buf, now), b, v);
    var t := v.tabs[ROOT_CLUSTER];
    ListsLive(t, [e, f], 1);
    ListsLive(t, [e, f], 2);
    ListsFinds(t, [e, f], FolderKey(Letter(A), ZERO_EXT), 2);
    ListsFinds(t, [e, f], FileKey(Letter(A), ZERO_EXT), 1);
    ListsFinds(t, [e, f], Key(Letter(A), ZERO_EXT), 1);
    ListsFinds(t, [e, f], FolderKey(ZERO_NAME, ZERO_EXT), 2);
    ListsFinds(t, [e, f], FileKey(ZERO_NAME, ZERO_EXT), 0);
    NestedParts();
    DotIsNameless();
    NoNameSought();
    LiveSlot(v, Slot(ROOT_CLUSTER, 1));
    NamelessSweeps(v);
  }

  lemma NestedParts()
    ensures Parts([A, SLASH, B]) == [[A], [B]] && 0 !in [A, SLASH, B]
  {
    hide Parts;
    OneComponent();
    PartsBelow([A], [B]);
    assert [A] + [SLASH] + [B] == [A, SLASH, B] && [[A]] + [[B]] == [[A], [B]];
  }

  lemma DotIsNameless()
    ensures NameAndExt([DOT]) == Some((ZERO_NAME, ZERO_EXT))
  {
    hide NameAndExt;
    SeparateText([], []);
    assert [] + [DOT] + [] == [DOT];
    PadNothing();
  }

  lemma {:induction false} NamelessSweeps(v: Vol)
    requires Tree(v) && ROOT_CLUSTER in v.tabs && Slot(ROOT_CLUSTER, 1) in v.chains
    requires var t := v.tabs[ROOT_CLUSTER];
      && First(t, FolderKey(Letter(A), ZERO_EXT)) == TABLE_SIZE && First(t, FileKey(Letter(A), ZERO_EXT)) == 2
      && First(t, FolderKey(ZERO_NAME, ZERO_EXT)) == TABLE_SIZE && First(t, FileKey(ZERO_NAME, ZERO_EXT)) == 1
      && First(t, Key(Letter(A), ZERO_EXT)) == 2
      && !IsDir(t[1]) && t[1].name == ZERO_NAME && t[1].ext == ZERO_EXT && t[1].filesize <= RM_BUFFER
    requires Parts([A, SLASH, B]) == [[A], [B]] && Pad([A], 8) == Letter(A)
    requires NameAndExt(Unpad(Sought(None))) == Some((ZERO_NAME, ZERO_EXT))
    ensures RmReady(v, AtRoot(), [A, SLASH, B], {}, false, true)
    ensures Resolve(v, AtRoot(), Parts([A, SLASH, B])).code == 1
    ensures After(v, AtRoot(), [A, SLASH, B], {}, false, true) == {Slot(ROOT_CLUSTER, 1)}
  {
    hide Tree, Pad, Unpad, Parts, NameAndExt, First, FirstFrom, SweptBefore, EntriesReady, Sought;
    NestedParts();
    assert Walk(v, AtRoot(), [[A], [B]], {}) == Resolved(1, AtRoot(), None);
    assert Picked(v, AtRoot(), [[A], [B]], {}, true) == Some(Slot(ROOT_CLUSTER, 1));
  }

  const JPE: Ext := [106, 112, 101]

  function OneJpe(buf: Cluster, now: Stamp): seq<Op> {
    [Op.Write(Request(Letter(A), JPE, ROOT_CLUSTER, 1), buf, now)]
  }

  // The text `a.jpeg`.
  const LONG: Text := [A, DOT, 106, 112, 101, 103]

  // A file `a.jpe`: rm of `a.jpe` removes it, and rm of `a.jpeg` removes nothing.
  lemma {:induction false} LongExtStays(d: Disk, buf: Cluster, now: Stamp, recursive: bool)
    ensures FromFormat(d, now, OneJpe(buf, now))
    ensures var v, file := Reached(d, now, OneJpe(buf, now)).1, Slot(ROOT_CLUSTER, 1);
      && Tree(v) && file in v.chains && IsSlot(v, file) && Ent(v, file).name == Letter(A) && Ent(v, file).ext == JPE
      && RmReady(v, AtRoot(), LONG, {}, recursive, true) && RmReady(v, AtRoot(), LONG[..5], {}, recursive, true)
      && After(v, AtRoot(), LONG, {}, recursive, true) == {}
      && After(v, AtRoot(), LONG[..5], {}, recursive, true) == {file}
  {
    hide Inv, Rep, TakenBelow, FromFormat, Reached, First, EmptyVol, FormatDisk, Pad, Blocks, FileWritable, Unpad;
    hide NameAndExt, Parts, FileWritten;
    Fresh(d, now);
    OneBlock(buf);
    LetterFacts(A);
    ListsFinds(EmptyVol(now).tabs[ROOT_CLUSTER], [], Key(Letter(A), JPE), 0);
    var b, v, e := AddedFile(d, now, [], FormatDisk(d, now), EmptyVol(now),
      Request(Letter(A), JPE, ROOT_CLUSTER, 1), buf, [], 3);
    assert [] + OneJpe(buf, now) == OneJpe(buf, now) && [] + [e] == [e];
    AtTree(d, now, OneJpe(buf, now), b, v);
    ListsFinds(v.tabs[ROOT_CLUSTER], [e], FolderKey(Letter(A), JPE), 1);
    ListsFinds(v.tabs[ROOT_CLUSTER], [e], FileKey(Letter(A), JPE), 0);
    ListsLive(v.tabs[ROOT_CLUSTER], [e], 1);
    LiveSlot(v, Slot(ROOT_CLUSTER, 1));
    JpeTexts();
    JpeSweeps(v, recursive);
  }

  lemma JpeTexts()
    ensures NameAndExt(LONG) == None && NameAndExt(LONG[..5]) == Some((Letter(A), JPE))
    ensures Parts(LONG) == [LONG] && Parts(LONG[..5]) == [LONG[..5]]
    ensures Unpad(Sought(Some(LONG))) == LONG && Unpad(Sought(Some(LONG[..5]))) == LONG[..5]
  {
    hide NameAndExt, Split, Unpad, Pad;
    SeparatesExact(LONG, 1, 6);
    assert LONG[..5] == [A] + [DOT] + JPE;
    SeparateText([A], JPE);
    LetterFacts(A);
    FullExt();
    SplitOne(LONG, SLASH);
    SplitOne(LONG[..5], SLASH);
    UnpadPad(LONG, 12);
    UnpadPad(LONG[..5], 12);
  }

  lemma FullExt()
    ensures Pad(JPE, 3) == JPE
  {
  }

  lemma {:induction false} JpeSweeps(v: Vol, recursive: bool)
    requires Tree(v) && ROOT_CLUSTER in v.tabs && Slot(ROOT_CLUSTER, 1) in v.chains
    requires var t := v.tabs[ROOT_CLUSTER];
      && First(t, FolderKey(Letter(A), JPE)) == TABLE_SIZE && First(t, FileKey(Letter(A), JPE)) == 1
      && !IsDir(t[1]) && t[1].name == Letter(A) && t[1].ext == JPE && t[1].filesize <= RM_BUFFER
    ensures RmReady(v, AtRoot(), LONG, {}, recursive, true) && RmReady(v, AtRoot(), LONG[..5], {}, recursive, true)
    ensures After(v, AtRoot(), LONG, {}, recursive, true) == {}
    ensures After(v, AtRoot(), LONG[..5], {}, recursive, true) == {Slot(ROOT_CLUSTER, 1)}
  {
    hide Tree, Pad, Unpad, Parts, NameAndExt, First, FirstFrom, SweptBefore, EntriesReady, Sought;
    JpeTexts();
    assert Walk(v, AtRoot(), [LONG], {}) == Resolved(0, AtRoot(), Some(LONG));
    assert Walk(v, AtRoot(), [LONG[..5]], {}) == Resolved(0, AtRoot(), Some(LONG[..5]));
  }
}
