// Reachable trees and paths with which rm leaves part of the folder it was given, or removes something else.
module RmExamples {
  import opened Layout
  import opened Volume
  import opened Pruning
  import opened Disks
  import opened Operations
  import opened Writing
  import opened Runs
  import opened Strings
  import opened Paths
  import opened Subtrees
  import opened Walking
  import opened Sweeping
  import opened Spelling
  import opened Turns
  import opened Bounds
  import opened SweepResults
  import opened Strays
  import opened PathSweeps
  import opened Readiness
  import opened Beginnings

  const A: Byte := 97
  const B: Byte := 98
  const C: Byte := 99

  function Letter(c: Byte): Name {
    [c, 0, 0, 0, 0, 0, 0, 0]
  }

  // The name `b.c`.
  const DOTTED: Name := [B, DOT, C, 0, 0, 0, 0, 0]

  lemma LetterFacts(c: Byte)
    requires c != 0 && c != DOT && c != SLASH
    ensures Unpad(Letter(c)) == [c] && Pad([c], 8) == Letter(c) && Letter(c) != ZERO_NAME
    ensures Unpad(ZERO_EXT) == [] && Pad([], 3) == ZERO_EXT && DOT !in [c]
    ensures NameAndExt([c]) == Some((Letter(c), ZERO_EXT))
  {
    hide NameAndExt, Unpad;
    assert Pad([c], 8) == Letter(c) && Letter(c)[0] == c;
    UnpadPad([c], 8);
    UnpadZero();
    PadNothing();
    SeparateText([c], []);
  }

  lemma DottedFacts()
    ensures Unpad(DOTTED) == [B, DOT, C] && Pad([B, DOT, C], 8) == DOTTED && DOTTED != ZERO_NAME
  {
    hide Unpad;
    assert Pad([B, DOT, C], 8) == DOTTED && DOTTED[0] == B;
    UnpadPad([B, DOT, C], 8);
  }

  // The root, and a working directory that is the root.
  function AtRoot(): seq<Frame> {
    [Frame(ROOT_CLUSTER, ROOT_NAME)]
  }

  /* Folder `a` in the root, and what is in it */

  predicate IsA(e: Entry) {
    e.name == Letter(A) && e.ext == ZERO_EXT && IsDir(e) && e.cluster == 3
  }

  // A file or a folder `b` or `c`, or a folder `b.c`.
  predicate Simple(e: Entry) {
    && e.ext == ZERO_EXT && e.name in {Letter(B), Letter(C), DOTTED}
    && (!IsDir(e) ==> e.attribute == 0 && e.name != DOTTED)
  }

  // Folder `a` on cluster 3 is all there is in the root; it holds the entries of `es`.
  ghost predicate FolderA(v: Vol, es: seq<Entry>) {
    && Inv(v) && ROOT_CLUSTER in v.tabs && 3 in v.tabs
    && (exists e :: Lists(v.tabs[ROOT_CLUSTER], [e]) && IsA(e))
    && Lists(v.tabs[3], es)
    && (forall c :: c in v.tabs && c != ROOT_CLUSTER && c != 3 ==> Lists(v.tabs[c], []))
    && (forall j :: 0 <= j < |es| ==> Simple(es[j]))
    && ((forall j :: 0 <= j < |es| ==> IsDir(es[j])) || (forall j :: 0 <= j < |es| ==> !IsDir(es[j])))
    && (forall j :: 0 <= j < |es| && IsDir(es[j]) ==>
          es[j].cluster in v.tabs && es[j].cluster != 3 && es[j].cluster != ROOT_CLUSTER)
  }

  const SLOT_A: Slot := Slot(ROOT_CLUSTER, 1)

  lemma SimpleFacts(e: Entry)
    requires Simple(e)
    ensures Neat(e) && e.name != ZERO_NAME && |NameText(e)| <= 3
    ensures Spellable(e) <==> e.name != DOTTED
    ensures NameText(e) == Unpad(e.name) + if IsDir(e) then [] else [DOT]
    ensures e.name == DOTTED ==> IsDir(e) && NameText(e) == [B, DOT, C]
  {
    hide NameAndExt, Unpad, Pad, Spellable;
    LetterFacts(B);
    LetterFacts(C);
    DottedFacts();
    TextFacts(e);
    assert Letter(B)[1] != DOTTED[1] && Letter(C)[1] != DOTTED[1];
    SpellableExact(e);
  }

  lemma TextFacts(e: Entry)
    requires e.ext == ZERO_EXT && Unpad(ZERO_EXT) == [] && Unpad(e.name) in {[B], [C], [B, DOT, C]}
    ensures SLASH !in NameText(e) && |NameText(e)| <= 4
    ensures NameText(e) == Unpad(e.name) + if IsDir(e) then [] else [DOT]
    ensures DOT in Unpad(e.name) <==> Unpad(e.name) == [B, DOT, C]
  {
    hide Unpad;
    assert [B, DOT, C][1] == DOT;
  }

  lemma ListsLive(t: Table, es: seq<Entry>, j: nat)
    requires Lists(t, es) && 1 <= j < TABLE_SIZE
    ensures Live(t[j]) <==> j <= |es|
    ensures j <= |es| ==> t[j] == es[j - 1]
    ensures |es| < TABLE_SIZE - 1
  {
    if j <= |es| {
      assert t[(j - 1) + 1] == es[j - 1];
    }
  }

  lemma FolderATree(v: Vol, es: seq<Entry>)
    requires FolderA(v, es)
    ensures Tree(v) && Inv(v) && ROOT_CLUSTER in v.tabs && 3 in v.tabs && IsSlot(v, SLOT_A)
  {
    InvTree(v);
  }

  // The live slots are that of `a` and those of the entries of `a`.
  lemma SlotsOfA(v: Vol, es: seq<Entry>, q: Slot)
    requires FolderA(v, es)
    ensures q in v.chains <==> q == SLOT_A || (q.dir == 3 && 1 <= q.index <= |es|)
    ensures q in v.chains ==> IsSlot(v, q)
    ensures q in v.chains && q.dir == 3 ==> Ent(v, q) == es[q.index - 1] && Simple(Ent(v, q))
    ensures q == SLOT_A ==> IsA(Ent(v, q))
  {
    hide SlotOk, DirOk, Lists, Simple;
    LiveSlot(v, q);
    var e :| Lists(v.tabs[ROOT_CLUSTER], [e]) && IsA(e);
    ListsLive(v.tabs[ROOT_CLUSTER], [e], 1);
    ListsLive(v.tabs[3], es, 1);
    if IsSlot(v, q) {
      ListsLive(v.tabs[q.dir], if q.dir == ROOT_CLUSTER then [e] else if q.dir == 3 then es else [], q.index);
    }
  }

  lemma NamesOfA(v: Vol, es: seq<Entry>)
    requires FolderA(v, es)
    ensures Tree(v) && Worded(v) && SLOT_A in v.chains && IsSlot(v, SLOT_A) && IsA(Ent(v, SLOT_A))
    ensures forall q :: q in v.chains ==> IsSlot(v, q) && (q != SLOT_A ==> Neat(Ent(v, q)))
  {
    hide Tree, Lists, First, FirstFrom, Unpad, FolderA, Neat, Simple, Spellable;
    FolderATree(v, es);
    LetterFacts(A);
    SlotsOfA(v, es, SLOT_A);
    forall q | q in v.chains
      ensures IsSlot(v, q) && (q != SLOT_A ==> Neat(Ent(v, q))) && Ent(v, q).name != ZERO_NAME
    {
      SlotsOfA(v, es, q);
      if q != SLOT_A {
        SimpleFacts(Ent(v, q));
      }
    }
  }

  // What hangs from `a`: all there is.
  lemma SubtreeOfA(v: Vol, es: seq<Entry>, q: Slot)
    requires FolderA(v, es)
    ensures Tree(v) && SLOT_A in v.chains
    ensures q in Subtree(v, SLOT_A) <==> q in v.chains
  {
    hide Tree, Lists, Under, Simple;
    FolderATree(v, es);
    SlotsOfA(v, es, q);
    SlotsOfA(v, es, SLOT_A);
    UnderSelf(v, 3);
  }

  lemma SoundFlag(v: Vol, q: Slot)
    requires Inv(v)
    ensures FlagSound(v, q) && !Stuck(v, q)
  {
    hide Tree, DeadCleared, HasLive;
    if IsSlot(v, q) && IsDir(Ent(v, q)) && Ent(v, q).cluster in v.tabs {
      assert CleanOk(v, Ent(v, q).cluster);
    }
  }

  lemma OrderlyA(v: Vol, es: seq<Entry>)
    requires FolderA(v, es)
    ensures Tree(v) && Worded(v) && Orderly(v, SLOT_A) && IsDir(Ent(v, SLOT_A)) && Ent(v, SLOT_A).cluster == 3
    ensures forall q :: FlagSound(v, q) && !Stuck(v, q)
  {
    hide Tree, Lists, FolderA, Neat, Subtree, Worded, FlagSound, Stuck;
    NamesOfA(v, es);
    FolderATree(v, es);
    forall q
      ensures FlagSound(v, q) && !Stuck(v, q)
    {
      SoundFlag(v, q);
    }
    forall q | q in Inner(v, SLOT_A)
      ensures LiveEntry(v, q)
    {
      SubtreeOfA(v, es, q);
    }
  }

  lemma RoomA(v: Vol, es: seq<Entry>, src: Text)
    requires FolderA(v, es) && |src| <= 30 && |Parts(src)| <= 10
    ensures Tree(v) && RoomFor(v, SLOT_A, src)
  {
    hide Tree, Lists, NameText, FolderA, RoomBelow, IsDir, Parts;
    FolderATree(v, es);
    SlotsOfA(v, es, SLOT_A);
    forall q | q in v.chains && IsSlot(v, q) && q.dir == 3
      ensures RoomBelow(v, q, |src| + 1 + |NameText(Ent(v, q))|, |Parts(src)| + 1)
    {
      EntryRoom(v, es, q, |src|, |Parts(src)|);
    }
    RoomAbove(v, SLOT_A, |src|, |Parts(src)|);
  }

  lemma RoomAbove(v: Vol, s: Slot, length: nat, parts: nat)
    requires Tree(v) && length <= 40 && parts <= 10 && s in v.chains && IsSlot(v, s)
    requires forall q :: q in v.chains && IsSlot(v, q) && q.dir == Ent(v, s).cluster ==>
      RoomBelow(v, q, length + 1 + |NameText(Ent(v, q))|, parts + 1)
    ensures RoomBelow(v, s, length, parts)
  {
    hide Tree, NameText, IsDir;
  }

  // An entry of `a` has nothing below it.
  lemma EntryRoom(v: Vol, es: seq<Entry>, q: Slot, length: nat, parts: nat)
    requires FolderA(v, es) && length <= 30 && parts <= 10 && Tree(v) && q in v.chains && IsSlot(v, q) && q.dir == 3
    ensures RoomBelow(v, q, length + 1 + |NameText(Ent(v, q))|, parts + 1)
  {
    hide Tree, Lists, NameText, FolderA, Simple, IsDir;
    SlotsOfA(v, es, q);
    SimpleFacts(Ent(v, q));
    forall r | r in v.chains && IsDir(Ent(v, q))
      ensures r.dir != Ent(v, q).cluster
    {
      SlotsOfA(v, es, r);
      FolderElsewhere(v, es, q);
    }
  }

  lemma FolderElsewhere(v: Vol, es: seq<Entry>, q: Slot)
    requires FolderA(v, es) && q in v.chains && IsSlot(v, q) && q.dir == 3 && IsDir(Ent(v, q))
    ensures Ent(v, q).cluster != 3 && Ent(v, q).cluster != ROOT_CLUSTER
  {
    hide Inv, Lists, Simple, IsDir;
    SlotsOfA(v, es, q);
  }

  /* What the paths name */

  lemma OpensA(v: Vol, es: seq<Entry>, gone: set<Slot>)
    requires FolderA(v, es) && SLOT_A !in gone
    ensures ROOT_CLUSTER in v.tabs && OpenLeft(v, ROOT_CLUSTER, Letter(A), gone) == 0
    ensures First(v.tabs[ROOT_CLUSTER], FolderKey(Letter(A), ZERO_EXT)) == 1 && Opened(v, ROOT_CLUSTER, Letter(A)) == 3
    ensures Chosen(v, ROOT_CLUSTER, Letter(A), ZERO_EXT, gone) == Some(SLOT_A)
  {
    hide Inv, FirstFrom, Simple;
    var e :| Lists(v.tabs[ROOT_CLUSTER], [e]) && IsA(e);
    ListsFinds(v.tabs[ROOT_CLUSTER], [e], FolderKey(Letter(A), ZERO_EXT), 0);
    ListsLive(v.tabs[ROOT_CLUSTER], [e], 1);
  }

  // A walk that ends at the root with `a` or with `a.` left to look for has found the folder.
  lemma {:induction false} NamesA(v: Vol, es: seq<Entry>, st: seq<Frame>, comps: seq<Text>, leaf: Text)
    requires FolderA(v, es) && |st| > 0 && |comps| > 0 && leaf in {[A], [A, DOT]}
    requires Walk(v, st, comps, {}) == Resolved(0, AtRoot(), Some(leaf))
    ensures Picked(v, st, comps, {}, true) == Some(SLOT_A)
  {
    hide Inv, Lists, Walk, NameAndExt, Unpad, Pad, First, FirstFrom, FolderA;
    FolderATree(v, es);
    UnpadPad(leaf, 12);
    LetterFacts(A);
    DottedName();
    OpensA(v, es, {});
  }

  lemma DottedName()
    ensures NameAndExt([A, DOT]) == Some((Letter(A), ZERO_EXT))
  {
    hide NameAndExt;
    LetterFacts(A);
    SeparateText([A], []);
    assert [A, DOT] == [A] + [DOT] + [];
  }

  // Room for the paths of the entries of `a`, and for those of theirs.
  lemma {:induction false} DeepA(v: Vol, es: seq<Entry>, length: nat, parts: nat)
    requires FolderA(v, es) && length <= 20 && parts <= 9
    ensures Tree(v) && RoomDeep(v, 3, length, parts)
  {
    hide Tree, Lists, FolderA, Simple;
    FolderATree(v, es);
    forall d | d in v.chains && IsSlot(v, d) && d.dir == 3 && IsDir(Ent(v, d))
      ensures RoomDeep(v, Ent(v, d).cluster, length + 12, parts + 1)
    {
      FolderElsewhere(v, es, d);
      forall q | q in v.chains && IsSlot(v, q) && q.dir == Ent(v, d).cluster
        ensures false
      {
        SlotsOfA(v, es, q);
      }
    }
  }

  // What rm -r asks for, and what its results ask for, if the path ends at the root with `a`.
  lemma {:induction false} PathToA(v: Vol, es: seq<Entry>, st: seq<Frame>, src: Text)
    requires FolderA(v, es) && |st| > 0 && 0 !in src && |src| <= 20 && |Parts(src)| <= 9 && Last(src) == [A]
    requires Walk(v, st, Parts(src), {}) == Resolved(0, AtRoot(), Some([A]))
    requires Tree(v) && Grounded(v, st, Parts(src)) && StartStays(v, st, Parts(src), Inner(v, SLOT_A))
    ensures Plainly(v, st, src, {}, true, SLOT_A) && Orderly(v, SLOT_A) && RoomFor(v, SLOT_A, src)
    ensures NoStray(v, SLOT_A) && RmReady(v, st, src, {}, true, true)
    ensures After(v, st, src, {}, true, true) == Swept(v, st, src, {}, SLOT_A)
  {
    hide Tree, Lists, FolderA, Walk, Parts, Worded, Neat, Subtree, FlagSound, Stuck, Grounded, StartStays, Picked;
    hide RoomFor, Orderly, NoStray, RmReady, Swept, Landing, RoomDeep, Region, SlotsIn, NeatEntries;
    NamesOfA(v, es);
    OrderlyA(v, es);
    RoomA(v, es, src);
    NamesA(v, es, st, Parts(src), [A]);
    NoStrayInA(v, es);
    assert {} + Inner(v, SLOT_A) == Inner(v, SLOT_A);
    NeatInA(v, es);
    InnerIsRegion(v, SLOT_A);
    FolderLands(v, st, src, {}, true, SLOT_A);
    DeepA(v, es, |src|, |Parts(src)|);
    assert Last(src) != UP && Last(src) != [];
    ReadyIf(v, st, src, {}, true, SLOT_A, Inner(v, SLOT_A));
  }

  lemma NeatInA(v: Vol, es: seq<Entry>)
    requires FolderA(v, es)
    ensures Tree(v) && forall q :: q in Inner(v, SLOT_A) ==> LiveEntry(v, q)
  {
    hide Tree, Lists, FolderA, Subtree, LiveEntry, Worded;
    OrderlyA(v, es);
  }

  // Where there is a file, there are no folders.
  lemma OnlyFilesThere(v: Vol, es: seq<Entry>, e: Slot, name: Name, ext: Ext)
    requires FolderA(v, es) && e in v.chains && IsSlot(v, e) && e.dir == 3 && !IsDir(Ent(v, e))
    ensures First(v.tabs[3], FolderKey(name, ext)) == TABLE_SIZE
  {
    hide Inv, Lists, First, FirstFrom, Simple;
    FolderATree(v, es);
    SlotsOfA(v, es, e);
    var i := First(v.tabs[3], FolderKey(name, ext));
    if i < TABLE_SIZE {
      LiveSlot(v, Slot(3, i));
      SlotsOfA(v, es, Slot(3, i));
    }
  }

  // The name `b.c` stands for no folder.
  lemma NoStrayInA(v: Vol, es: seq<Entry>)
    requires FolderA(v, es)
    ensures Tree(v) && NoStray(v, SLOT_A)
  {
    hide Tree, Lists, FolderA, Subtree, Straight, Simple;
    FolderATree(v, es);
    forall e | e in Inner(v, SLOT_A) && IsSlot(v, e)
      ensures Straight(v, e)
    {
      SubtreeOfA(v, es, e);
      SlotsOfA(v, es, e);
      StraightInA(v, es, e);
    }
  }

  lemma StraightInA(v: Vol, es: seq<Entry>, e: Slot)
    requires FolderA(v, es) && e in v.chains && IsSlot(v, e) && e.dir == 3
    ensures Straight(v, e)
  {
    hide Tree, Inv, Lists, FolderA, First, FirstFrom, Simple, Spellable, NameText, Neat, NameAndExt, Pad;
    FolderATree(v, es);
    SlotsOfA(v, es, e);
    var key := NameAndExt(NameText(Ent(v, e)));
    if Ent(v, e).name == DOTTED {
      SimpleFacts(Ent(v, e));
      DottedStands();
      NoFolderWithExt(v, e.dir, Letter(B), Pad([C], 3));
    } else if IsDir(Ent(v, e)) {
      PlainText(Ent(v, e));
    } else if key.Some? {
      OnlyFilesThere(v, es, e, key.value.0, key.value.1);
    }
  }

  lemma PlainText(e: Entry)
    requires Simple(e) && IsDir(e) && e.name != DOTTED
    ensures DOT !in NameText(e)
  {
    hide Unpad;
    LetterFacts(B);
    LetterFacts(C);
  }

  lemma DottedStands()
    ensures NameAndExt([B, DOT, C]) == Some((Letter(B), Pad([C], 3))) && Pad([C], 3) != ZERO_EXT
  {
    hide NameAndExt;
    LetterFacts(B);
    SeparateText([B], [C]);
    assert [B, DOT, C] == [B] + [DOT] + [C];
    assert Pad([C], 3)[0] == C;
  }

  lemma NoFolderWithExt(v: Vol, c: nat, name: Name, ext: Ext)
    requires Tree(v) && c in v.tabs && ext != ZERO_EXT
    ensures First(v.tabs[c], FolderKey(name, ext)) == TABLE_SIZE
  {
    hide Tree, First, FirstFrom;
    var i := First(v.tabs[c], FolderKey(name, ext));
    if i < TABLE_SIZE {
      LiveSlot(v, Slot(c, i));
      FolderSlot(v, Slot(c, i));
    }
  }

  lemma OneComponent()
    ensures Parts([A]) == [[A]] && Last([A]) == [A]
  {
    SplitOne([A], SLASH);
  }

  // The path `a` from the root.
  lemma {:induction false} PlainPath(v: Vol, es: seq<Entry>)
    requires FolderA(v, es)
    ensures Tree(v) && Parts([A]) == [[A]] && Last([A]) == [A]
    ensures Walk(v, AtRoot(), [[A]], {}) == Resolved(0, AtRoot(), Some([A]))
    ensures Grounded(v, AtRoot(), [[A]]) && forall g :: StartStays(v, AtRoot(), [[A]], g)
    ensures Walk(v, AtRoot(), [[A], []], Inner(v, SLOT_A)).code == 0 && Slashed([[A]]) == [[A], []]
  {
    hide Tree, FolderA, First, FirstFrom, OpenLeft, Pad, Subtree, Parts, Opened;
    FolderATree(v, es);
    OneComponent();
    LetterFacts(A);
    OpensA(v, es, Inner(v, SLOT_A));
    assert Slashed([[A]]) == [[A], []] && [[A], []][1..] == [[]];
  }

  lemma {:induction false} DirectPath(v: Vol, es: seq<Entry>)
    requires FolderA(v, es)
    ensures Tree(v) && Plainly(v, AtRoot(), [A], {}, true, SLOT_A) && Orderly(v, SLOT_A) && RoomFor(v, SLOT_A, [A])
    ensures NoStray(v, SLOT_A) && RmReady(v, AtRoot(), [A], {}, true, true) && Direct(v, AtRoot(), [A], {}, SLOT_A)
    ensures After(v, AtRoot(), [A], {}, true, true) == Swept(v, AtRoot(), [A], {}, SLOT_A)
    ensures WentWith(v, {}, Swept(v, AtRoot(), [A], {}, SLOT_A), SLOT_A, Inner(v, SLOT_A))
    ensures {} <= Swept(v, AtRoot(), [A], {}, SLOT_A) <= {} + Subtree(v, SLOT_A)
  {
    hide Tree, FolderA, Walk, Parts, Subtree, Swept, RmReady, NoStray, Orderly, RoomFor, Plainly, Grounded, StartStays;
    hide WentWith, After;
    PlainPath(v, es);
    assert 0 !in [A] && {} + Inner(v, SLOT_A) == Inner(v, SLOT_A);
    PathToA(v, es, AtRoot(), [A]);
    SweptBounds(v, AtRoot(), [A], {}, true, SLOT_A);
  }

  /* A file over 16 KiB */

  function FileOfSize(size: U32): Request {
    Request(Letter(B), ZERO_EXT, 3, size)
  }

  function FolderAndFile(size: U32, buf: seq<Byte>, now: Stamp): seq<Op> {
    [FolderCall(Letter(A), ROOT_CLUSTER, now)] + [Op.Write(FileOfSize(size), buf, now)]
  }

  lemma FileInA(d: Disk, size: U32, buf: seq<Byte>, now: Stamp) returns (b: Disk, v: Vol, f: Entry)
    requires 0 < Blocks(size) <= 256 && Holds(buf, Blocks(size))
    ensures At(d, now, FolderAndFile(size, buf, now), b, v) && FolderA(v, [f]) && !IsDir(f)
    ensures f.filesize == size && f.name == Letter(B)
  {
    hide Inv, Rep, Lists, TakenBelow, FromFormat, Reached, Blocks, First, EmptyVol, FormatDisk, Holds, FileWritable;
    hide FileWritten;
    Fresh(d, now);
    ListsFinds(EmptyVol(now).tabs[ROOT_CLUSTER], [], Folder(Letter(A)), 0);
    var call := FolderCall(Letter(A), ROOT_CLUSTER, now);
    var x, w, e := AddedFolder(d, now, [], FormatDisk(d, now), EmptyVol(now),
      FolderReq(Letter(A), ROOT_CLUSTER), [], 3);
    assert [] + [e] == [e] && [] + [call] == [call];
    ListsFinds(w.tabs[3], [], Key(Letter(B), ZERO_EXT), 0);
    b, v, f := AddedFile(d, now, [call], x, w, FileOfSize(size), buf, [], 4);
    assert [] + [f] == [f] && Letter(B)[1] != DOTTED[1];
    assert Lists(v.tabs[ROOT_CLUSTER], [e]);
  }

  // A folder with a file of nine clusters in it: rm -r removes neither.
  lemma BigFileStays(d: Disk, buf: seq<Byte>, now: Stamp)
    requires |buf| >= 9 * CLUSTER_SIZE
    ensures FromFormat(d, now, FolderAndFile(9 * CLUSTER_SIZE, buf, now))
    ensures var v := Reached(d, now, FolderAndFile(9 * CLUSTER_SIZE, buf, now)).1;
      && Tree(v) && RmReady(v, AtRoot(), [A], {}, true, true) && SLOT_A in v.chains && Slot(3, 1) in Subtree(v, SLOT_A)
      && After(v, AtRoot(), [A], {}, true, true) == {}
  {
    hide FromFormat, Reached, RmReady, FolderA, Tree, Swept, Subtree, Blocks, Holds, After, WentWith, Plainly, Parts;
    hide Direct, Orderly, RoomFor, NoStray, Wild, Good;
    NineBlocks(buf);
    var b, v, f := FileInA(d, 9 * CLUSTER_SIZE, buf, now);
    DirectPath(v, [f]);
    NothingGood(v, f);
    SweptExact(v, AtRoot(), [A], {}, true, SLOT_A);
  }

  lemma NineBlocks(buf: seq<Byte>)
    requires |buf| >= 9 * CLUSTER_SIZE
    ensures Blocks(9 * CLUSTER_SIZE) == 9 && Holds(buf, 9)
  {
  }

  // The entry is too large or is not spelled, and so the folder holds something that is.
  lemma NothingGood(v: Vol, f: Entry)
    requires FolderA(v, [f]) && (!Fits(f) || f.name == DOTTED)
    ensures Tree(v) && SLOT_A in v.chains && Slot(3, 1) in Subtree(v, SLOT_A)
    ensures forall q :: q in Subtree(v, SLOT_A) ==> !Good(v, {}, SLOT_A, q)
  {
    hide Tree, Lists, Subtree, FolderA, Simple, Spellable, First, FirstFrom, Stuck;
    var r := Slot(3, 1);
    SlotsOfA(v, [f], r);
    SubtreeOfA(v, [f], r);
    SelfBelow(v, r);
    assert [f][0] == f;
    SimpleFacts(f);
    if !IsDir(f) {
      OnlyFilesThere(v, [f], r, f.name, f.ext);
    }
    assert Loose(v, r) ==> Fits(f);
    forall q | q in Subtree(v, SLOT_A)
      ensures !Good(v, {}, SLOT_A, q)
    {
      SubtreeOfA(v, [f], q);
      SlotsOfA(v, [f], q);
      assert q == SLOT_A || q == r;
      assert r in Subtree(v, q);
    }
  }

  /* A folder given with a dot */

  // A folder with a file of one byte: rm -r of `a` removes both, rm -r of `a.` neither.
  lemma DotStays(d: Disk, buf: seq<Byte>, now: Stamp)
    requires |buf| >= CLUSTER_SIZE
    ensures FromFormat(d, now, FolderAndFile(1, buf, now))
    ensures var v := Reached(d, now, FolderAndFile(1, buf, now)).1;
      && Tree(v) && RmReady(v, AtRoot(), [A], {}, true, true) && RmReady(v, AtRoot(), [A, DOT], {}, true, true)
      && SLOT_A in v.chains && Slot(3, 1) in Subtree(v, SLOT_A)
      && After(v, AtRoot(), [A], {}, true, true) == Subtree(v, SLOT_A)
      && After(v, AtRoot(), [A, DOT], {}, true, true) == {}
  {
    hide FromFormat, Reached, RmReady, FolderA, Tree, Swept, Subtree, Blocks, Holds, After, WentWith, Plainly, Parts;
    hide Direct, Orderly, RoomFor, NoStray, Clear;
    OneBlock(buf);
    var b, v, f := FileInA(d, 1, buf, now);
    DirectPath(v, [f]);
    LettersDiffer();
    AllClear(v, [f]);
    SubtreeOfA(v, [f], Slot(3, 1));
    SlotsOfA(v, [f], Slot(3, 1));
    SweptAll(v, AtRoot(), [A], {}, true, SLOT_A);
    assert {} + Subtree(v, SLOT_A) == Subtree(v, SLOT_A);
    DottedPath(v, f);
  }

  lemma OneBlock(buf: seq<Byte>)
    requires |buf| >= CLUSTER_SIZE
    ensures Blocks(1) == 1 && Holds(buf, 1)
  {
  }

  // Entries that fit and have no dot in their name are clear.
  lemma AllClear(v: Vol, es: seq<Entry>)
    requires FolderA(v, es) && forall j :: 0 <= j < |es| ==> Fits(es[j]) && es[j].name != DOTTED
    ensures Tree(v) && Clear(v, SLOT_A)
  {
    hide Tree, Lists, Subtree, FolderA, Spellable, Stuck, Simple, FlagSound;
    OrderlyA(v, es);
    forall q | q in Subtree(v, SLOT_A)
      ensures IsSlot(v, q) && Fits(Ent(v, q)) && !Stuck(v, q) && (q != SLOT_A ==> Spellable(Ent(v, q)))
    {
      SubtreeOfA(v, es, q);
      SlotsOfA(v, es, q);
      if q != SLOT_A {
        SimpleFacts(Ent(v, q));
      }
    }
  }

  lemma DottedParts()
    ensures Parts([A, DOT]) == [[A, DOT]] && Last([A, DOT]) == [A, DOT] && DOT in [A, DOT] && 0 !in [A, DOT]
  {
    SplitOne([A, DOT], SLASH);
    assert [A, DOT][1] == DOT;
  }

  lemma {:induction false} DottedPath(v: Vol, f: Entry)
    requires FolderA(v, [f])
    ensures Tree(v) && RmReady(v, AtRoot(), [A, DOT], {}, true, true)
    ensures After(v, AtRoot(), [A, DOT], {}, true, true) == {}
  {
    hide Tree, Lists, FolderA, Parts, Worded, Neat, Subtree, FlagSound, Stuck, Picked, Pad, First, EntriesReady;
    hide Landing, NeatEntries, Region;
    hide RoomFor, SweptBefore, RmReady, Walk;
    var src := [A, DOT];
    NamesOfA(v, [f]);
    OrderlyA(v, [f]);
    DottedParts();
    RoomA(v, [f], src);
    DottedWalk(v);
    NamesA(v, [f], AtRoot(), Parts(src), src);
    NoDottedFolder(v, [f]);
    NothingIsRegion(v);
    NeatInA(v, [f]);
    InnerIsRegion(v, SLOT_A);
    DottedLands(v, AtRoot(), src, {}, true, SLOT_A);
    ReadyIf(v, AtRoot(), src, {}, true, SLOT_A, {});
    DottedStays(v, AtRoot(), src, {}, true, SLOT_A, TABLE_SIZE);
    DroppedIs(v, SLOT_A, {});
    SlotsOfA(v, [f], Slot(3, 1));
  }

  lemma {:induction false} DottedWalk(v: Vol)
    ensures Walk(v, AtRoot(), [[A, DOT]], {}) == Resolved(0, AtRoot(), Some([A, DOT]))
    ensures StackOk(v, AtRoot()) && Risen(AtRoot(), [[A, DOT]]) == AtRoot()
  {
  }

  lemma NoDottedFolder(v: Vol, es: seq<Entry>)
    requires FolderA(v, es)
    ensures ROOT_CLUSTER in v.tabs && First(v.tabs[ROOT_CLUSTER], FolderKey(Pad([A, DOT], 8), ZERO_EXT)) == TABLE_SIZE
  {
    hide Inv, FirstFrom, Simple;
    var e :| Lists(v.tabs[ROOT_CLUSTER], [e]) && IsA(e);
    assert Pad([A, DOT], 8)[1] == DOT && Letter(A)[1] == 0;
    ListsFinds(v.tabs[ROOT_CLUSTER], [e], FolderKey(Pad([A, DOT], 8), ZERO_EXT), 1);
  }

  /* Folders in the folder */

  function FolderIn(name: Name, now: Stamp): seq<Op> {
    [FolderCall(Letter(A), ROOT_CLUSTER, now)] + [FolderCall(name, 3, now)]
  }

  lemma OneInA(d: Disk, name: Name, now: Stamp) returns (y: Disk, u: Vol, e: Entry, g: Entry)
    ensures At(d, now, FolderIn(name, now), y, u)
    ensures u.tabs.Keys == {ROOT_CLUSTER, 3, 4} && TakenBelow(u.fat, 5)
    ensures Lists(u.tabs[ROOT_CLUSTER], [e]) && Lists(u.tabs[3], [g]) && Lists(u.tabs[4], []) && IsA(e)
    ensures g.name == name && g.ext == ZERO_EXT && Live(g) && IsDir(g) && g.cluster == 4
    ensures name in {Letter(B), Letter(C), DOTTED} ==> FolderA(u, [g])
  {
    hide Inv, Rep, Lists, TakenBelow, FromFormat, Reached, First, EmptyVol, FormatDisk;
    Fresh(d, now);
    ListsFinds(EmptyVol(now).tabs[ROOT_CLUSTER], [], Folder(Letter(A)), 0);
    var call := FolderCall(Letter(A), ROOT_CLUSTER, now);
    var x, w;
    x, w, e := AddedFolder(d, now, [], FormatDisk(d, now), EmptyVol(now), FolderReq(Letter(A), ROOT_CLUSTER), [], 3);
    assert [] + [e] == [e] && [] + [call] == [call];
    ListsFinds(w.tabs[3], [], Folder(name), 0);
    y, u, g := AddedFolder(d, now, [call], x, w, FolderReq(name, 3), [], 4);
    assert [] + [g] == [g];
  }

  // A folder `b.c` in the folder: rm -r removes neither, though nothing is too large and the path of `a`
  // enters nothing.
  lemma DottedFolderStays(d: Disk, now: Stamp)
    ensures FromFormat(d, now, FolderIn(DOTTED, now))
    ensures var v := Reached(d, now, FolderIn(DOTTED, now)).1;
      && Tree(v) && RmReady(v, AtRoot(), [A], {}, true, true) && SLOT_A in v.chains && Slot(3, 1) in Subtree(v, SLOT_A)
      && (forall q :: q in Subtree(v, SLOT_A) ==> IsSlot(v, q) && Fits(Ent(v, q)))
      && LastOnPath(v, AtRoot(), [A], SLOT_A)
      && After(v, AtRoot(), [A], {}, true, true) == {}
  {
    hide FromFormat, Reached, RmReady, FolderA, Tree, Swept, Subtree, After, WentWith, Plainly, Parts, Lists, Simple;
    hide Direct, Orderly, RoomFor, NoStray, Wild, Good, Under, Spellable, Crossed, TakenBelow;
    var b, v, e, g := OneInA(d, DOTTED, now);
    DirectPath(v, [g]);
    NothingGood(v, g);
    SweptExact(v, AtRoot(), [A], {}, true, SLOT_A);
    forall q | q in Subtree(v, SLOT_A)
      ensures IsSlot(v, q) && Fits(Ent(v, q))
    {
      SubtreeOfA(v, [g], q);
      SlotsOfA(v, [g], q);
      assert [g][0] == g;
    }
    EntersOnlyA(v, [g]);
  }

  lemma EntersOnlyA(v: Vol, es: seq<Entry>)
    requires FolderA(v, es)
    ensures Tree(v) && LastOnPath(v, AtRoot(), [A], SLOT_A)
  {
    hide Tree, FolderA, First, FirstFrom, OpenLeft, Pad, Subtree, Opened, Walk;
    NamesOfA(v, es);
    PlainPath(v, es);
    LetterFacts(A);
    OpensA(v, es, {});
    FolderSlot(v, SLOT_A);
    assert [[A], []][1..] == [[]];
    assert Crossed(v, AtRoot() + [Frame(3, Letter(A))], [[]]) == {};
    assert Crossed(v, AtRoot(), [[A], []]) == {3};
  }

  /* A path through what is removed */

  // The path `a/b/../../a`.
  const ROUND: Text := [A] + [SLASH] + [B] + [SLASH] + UP + [SLASH] + UP + [SLASH] + [A]

  lemma RoundParts()
    ensures |ROUND| == 11 && 0 !in ROUND && Parts(ROUND) == [[A]] + ([[B]] + [UP, UP, [A]]) && Last(ROUND) == [A]
    ensures Slashed(Parts(ROUND)) == [[A]] + ([[B]] + [UP, UP, [A], []])
    ensures Risen(AtRoot(), Parts(ROUND)) == AtRoot() && |Parts(ROUND)| == 5
  {
    hide Parts;
    OneComponent();
    PartsBelow([A], [B]);
    PartsBelow([A] + [SLASH] + [B], UP);
    PartsBelow([A] + [SLASH] + [B] + [SLASH] + UP, UP);
    PartsBelow([A] + [SLASH] + [B] + [SLASH] + UP + [SLASH] + UP, [A]);
    assert [[A]] + [[B]] + [UP] + [UP] + [[A]] == [[A]] + ([[B]] + [UP, UP, [A]]);
    assert Slashed([[A]] + ([[B]] + [UP, UP, [A]])) == [[A]] + ([[B]] + [UP, UP, [A], []]);
  }

  function FolderAndTwo(now: Stamp): seq<Op> {
    FolderIn(Letter(B), now) + [FolderCall(Letter(C), 3, now)]
  }

  lemma TwoInA(d: Disk, now: Stamp) returns (b: Disk, v: Vol, g: Entry, h: Entry)
    ensures At(d, now, FolderAndTwo(now), b, v) && FolderA(v, [g, h]) && {4, 5} <= v.tabs.Keys
    ensures IsDir(g) && g.name == Letter(B) && g.cluster == 4 && IsDir(h) && h.name == Letter(C) && h.cluster == 5
    ensures First(v.tabs[3], FolderKey(Letter(B), ZERO_EXT)) == 1 && v.tabs[3][1] == g
  {
    hide Inv, Rep, Lists, TakenBelow, FromFormat, Reached, First;
    var y, u, e;
    y, u, e, g := OneInA(d, Letter(B), now);
    LettersDiffer();
    ListsFinds(u.tabs[3], [g], Folder(Letter(C)), 1);
    b, v, h := AddedFolder(d, now, FolderIn(Letter(B), now), y, u, FolderReq(Letter(C), 3), [g], 5);
    assert [g] + [h] == [g, h] && [g, h][0] == g;
    assert Lists(v.tabs[ROOT_CLUSTER], [e]);
    assert Matches(g, FolderKey(Letter(B), ZERO_EXT));
    ListsFinds(v.tabs[3], [g, h], FolderKey(Letter(B), ZERO_EXT), 0);
    ListsLive(v.tabs[3], [g, h], 1);
  }

  lemma LettersDiffer()
    ensures Letter(B) != Letter(C) && Letter(B) != DOTTED && Letter(C) != DOTTED
  {
    assert Letter(B)[0] != Letter(C)[0] && Letter(B)[1] != DOTTED[1] && Letter(C)[1] != DOTTED[1];
  }

  // Down into two folders.
  lemma {:induction false} DownTwice(v: Vol, r: seq<Frame>, a: Text, b: Text, rest: seq<Text>)
    requires |r| > 0 && |rest| > 0 && a != UP && 0 < |a| <= 8 && b != UP && 0 < |b| <= 8
    requires Top(r).cluster in v.tabs && OpenLeft(v, Top(r).cluster, Pad(a, 8), {}) == 0
    requires First(v.tabs[Top(r).cluster], FolderKey(Pad(a, 8), ZERO_EXT)) < TABLE_SIZE
    requires var k := Opened(v, Top(r).cluster, Pad(a, 8)); k in v.tabs && OpenLeft(v, k, Pad(b, 8), {}) == 0
    ensures var k := Opened(v, Top(r).cluster, Pad(a, 8));
      && First(v.tabs[k], FolderKey(Pad(b, 8), ZERO_EXT)) < TABLE_SIZE
      && var m := Opened(v, k, Pad(b, 8));
      && Walk(v, r, [a] + ([b] + rest), {}) == Walk(v, r + [Frame(k, Pad(a, 8))] + [Frame(m, Pad(b, 8))], rest, {})
      && m in Crossed(v, r, [a] + ([b] + rest))
  {
    hide OpenLeft, First, Pad, Opened, Walk, Crossed;
    Down(v, r, a, [b] + rest);
    var next := r + [Frame(Opened(v, Top(r).cluster, Pad(a, 8)), Pad(a, 8))];
    assert Top(next).cluster == Opened(v, Top(r).cluster, Pad(a, 8));
    Down(v, next, b, rest);
  }

  // The walk goes down to `b`, back up, and finds `a`.
  lemma {:induction false} RoundWalk(v: Vol, g: Entry, h: Entry)
    requires FolderA(v, [g, h]) && IsDir(g) && g.cluster == 4 && 4 in v.tabs
    requires First(v.tabs[3], FolderKey(Letter(B), ZERO_EXT)) == 1 && v.tabs[3][1] == g
    ensures Walk(v, AtRoot(), [[A]] + ([[B]] + [UP, UP, [A]]), {}) == Resolved(0, AtRoot(), Some([A]))
    ensures 4 in Crossed(v, AtRoot(), [[A]] + ([[B]] + [UP, UP, [A], []]))
    ensures StackOk(v, AtRoot())
  {
    hide Inv, Lists, FolderA, First, FirstFrom, Pad, Opened, Simple, Walk, Crossed, OpenLeft;
    FolderATree(v, [g, h]);
    OpensA(v, [g, h], {});
    LetterFacts(A);
    LetterFacts(B);
    OpensB(v, g);
    WalkBack(v, AtRoot(), Frame(3, Letter(A)), Frame(4, Letter(B)));
    DownTwice(v, AtRoot(), [A], [B], [UP, UP, [A]]);
    DownTwice(v, AtRoot(), [A], [B], [UP, UP, [A], []]);
  }

  lemma OpensB(v: Vol, g: Entry)
    requires 3 in v.tabs && First(v.tabs[3], FolderKey(Letter(B), ZERO_EXT)) == 1 && v.tabs[3][1] == g
    ensures Opened(v, 3, Letter(B)) == g.cluster && OpenLeft(v, 3, Letter(B), {}) == 0
  {
    hide First;
  }

  lemma {:induction false} Down(v: Vol, st: seq<Frame>, c: Text, rest: seq<Text>)
    requires |st| > 0 && |rest| > 0 && c != UP && 0 < |c| <= 8 && Top(st).cluster in v.tabs
    requires OpenLeft(v, Top(st).cluster, Pad(c, 8), {}) == 0
    ensures First(v.tabs[Top(st).cluster], FolderKey(Pad(c, 8), ZERO_EXT)) < TABLE_SIZE
    ensures var f := Frame(Opened(v, Top(st).cluster, Pad(c, 8)), Pad(c, 8));
      && Walk(v, st, [c] + rest, {}) == Walk(v, st + [f], rest, {})
      && Crossed(v, st, [c] + rest) == {f.cluster} + Crossed(v, st + [f], rest)
  {
    hide OpenLeft, First, Pad;
    OpenedThere(v, Top(st).cluster, Pad(c, 8), {});
    assert ([c] + rest)[1..] == rest;
  }

  lemma {:induction false} WalkBack(v: Vol, r: seq<Frame>, fa: Frame, fb: Frame)
    requires |r| > 0
    ensures Walk(v, r + [fa] + [fb], [UP, UP, [A]], {}) == Resolved(0, r, Some([A]))
  {
    assert [UP, UP, [A]][1..] == [UP, [A]] && [UP, [A]][1..] == [[A]];
    assert (r + [fa] + [fb])[..|r| + 1] == r + [fa] && (r + [fa])[..|r|] == r;
    assert Walk(v, r, [[A]], {}) == Resolved(0, r, Some([A]));
    assert Walk(v, r + [fa], [UP, [A]], {}) == Resolved(0, r, Some([A]));
  }

  // A folder with two folders in it: rm -r by a path through the first of them leaves something of it.
  lemma RoundStays(d: Disk, now: Stamp)
    ensures FromFormat(d, now, FolderAndTwo(now))
    ensures var v := Reached(d, now, FolderAndTwo(now)).1;
      && Tree(v) && RmReady(v, AtRoot(), ROUND, {}, true, true) && SLOT_A in v.chains
      && Picked(v, AtRoot(), Parts(ROUND), {}, true) == Some(SLOT_A)
      && Clear(v, SLOT_A) && After(v, AtRoot(), ROUND, {}, true, true) != Subtree(v, SLOT_A)
  {
    hide FromFormat, Reached, FolderA, Tree, Subtree, Walk, Parts, Swept, Crossed, Clear, RmReady, After, StackOk;
    hide RoomFor, NoStray, Worded, LastOnPath, Orderly, Picked, Lists, TakenBelow, First;
    var b, v, g, h := TwoInA(d, now);
    FolderATree(v, [g, h]);
    RoundParts();
    RoundWalk(v, g, h);
    PathToA(v, [g, h], AtRoot(), ROUND);
    LettersDiffer();
    AllClear(v, [g, h]);
    NotLast(v, g, h);
    assert {} + Inner(v, SLOT_A) == Inner(v, SLOT_A) && {} + Subtree(v, SLOT_A) == Subtree(v, SLOT_A);
    SweptWhole(v, AtRoot(), ROUND, {}, true, SLOT_A);
  }

  lemma {:induction false} NotLast(v: Vol, g: Entry, h: Entry)
    requires FolderA(v, [g, h]) && IsDir(g) && g.cluster == 4 && 4 in Crossed(v, AtRoot(), Slashed(Parts(ROUND)))
    ensures Tree(v) && !LastOnPath(v, AtRoot(), ROUND, SLOT_A)
  {
    hide Tree, FolderA, Crossed, Subtree, Lists, Parts, Simple;
    SlotsOfA(v, [g, h], Slot(3, 1));
    SlotsOfA(v, [g, h], Slot(3, 2));
    SubtreeOfA(v, [g, h], Slot(3, 1));
    assert [g, h][0] == g;
    FolderSlot(v, Slot(3, 1));
    assert !LastEntry(v, Slot(3, 1));
  }

  /* A working directory inside what is removed */

  // The path `../../a`, and `a/b` as the working directory.
  const OUT: Text := UP + [SLASH] + UP + [SLASH] + [A]

  function InB(): seq<Frame> {
    AtRoot() + [Frame(3, Letter(A))] + [Frame(4, Letter(B))]
  }

  lemma OutParts()
    ensures |OUT| == 7 && 0 !in OUT && Parts(OUT) == [UP, UP, [A]] && Last(OUT) == [A]
  {
    SplitOne(UP, SLASH);
    assert Parts(UP) == [UP];
    hide Parts;
    PartsBelow(UP, UP);
    PartsBelow(UP + [SLASH] + UP, [A]);
    assert [UP] + [UP] + [[A]] == [UP, UP, [A]];
  }

  lemma {:induction false} OutWalk(v: Vol, es: seq<Entry>)
    requires FolderA(v, es)
    ensures Tree(v) && Walk(v, InB(), [UP, UP, [A]], {}) == Resolved(0, AtRoot(), Some([A]))
    ensures Walk(v, InB(), [UP, UP, [A], []], Inner(v, SLOT_A)).code == 0
    ensures StackOk(v, AtRoot()) && Risen(InB(), [UP, UP, [A]]) == AtRoot()
  {
    hide Tree, FolderA, Pad, Subtree, First, OpenLeft, Opened;
    PlainPath(v, es);
    WalkBack(v, AtRoot(), Frame(3, Letter(A)), Frame(4, Letter(B)));
    var r, fa, fb := AtRoot(), Frame(3, Letter(A)), Frame(4, Letter(B));
    assert [UP, UP, [A]][1..] == [UP, [A]] && [UP, [A]][1..] == [[A]];
    assert [UP, UP, [A], []][1..] == [UP, [A], []] && [UP, [A], []][1..] == [[A], []];
    assert (r + [fa] + [fb])[..2] == r + [fa] && (r + [fa])[..1] == r;
    hide Walk, Risen;
    StartOut(r, fa, fb);
    WalkOut(v, r, fa, fb, Inner(v, SLOT_A));
  }

  lemma {:induction false} StartOut(r: seq<Frame>, fa: Frame, fb: Frame)
    requires |r| == 1
    ensures Risen(r + [fa] + [fb], [UP, UP, [A]]) == r
  {
    assert [UP, UP, [A]][1..] == [UP, [A]] && [UP, [A]][1..] == [[A]];
    assert (r + [fa] + [fb])[..2] == r + [fa] && (r + [fa])[..1] == r;
    assert Risen(r, [[A]]) == r;
    assert Risen(r + [fa], [UP, [A]]) == r;
  }

  lemma {:induction false} WalkOut(v: Vol, r: seq<Frame>, fa: Frame, fb: Frame, gone: set<Slot>)
    requires |r| == 1
    ensures Walk(v, r + [fa] + [fb], [UP, UP, [A], []], gone) == Walk(v, r, [[A], []], gone)
  {
    hide OpenLeft;
    assert [UP, UP, [A], []][1..] == [UP, [A], []] && [UP, [A], []][1..] == [[A], []];
    assert (r + [fa] + [fb])[..2] == r + [fa] && (r + [fa])[..1] == r;
    assert Walk(v, r + [fa], [UP, [A], []], gone) == Walk(v, r, [[A], []], gone);
  }

  // From inside the folder: rm -r of `../../a` removes the folder with the working directory.
  lemma RemovedFromInside(d: Disk, now: Stamp)
    ensures FromFormat(d, now, FolderIn(Letter(B), now))
    ensures var v := Reached(d, now, FolderIn(Letter(B), now)).1;
      && Tree(v) && Anchored(InB()) && RmReady(v, InB(), OUT, {}, true, true) && SLOT_A in v.chains
      && Slot(3, 1) in Subtree(v, SLOT_A)
      && IsDir(Ent(v, Slot(3, 1))) && Ent(v, Slot(3, 1)).cluster == Top(InB()).cluster
      && After(v, InB(), OUT, {}, true, true) == Subtree(v, SLOT_A)
  {
    hide FromFormat, Reached, FolderA, Tree, Subtree, Walk, Parts, Swept, Clear, RmReady, After, StackOk, Risen;
    hide RoomFor, NoStray, Worded, Orderly, Picked, Lists, TakenBelow, First;
    var b, v, e, g := OneInA(d, Letter(B), now);
    FolderATree(v, [g]);
    OutParts();
    OutWalk(v, [g]);
    PathToA(v, [g], InB(), OUT);
    LettersDiffer();
    AllClear(v, [g]);
    SubtreeOfA(v, [g], Slot(3, 1));
    SlotsOfA(v, [g], Slot(3, 1));
    assert Slashed([UP, UP, [A]]) == [UP, UP, [A], []];
    assert {} + Inner(v, SLOT_A) == Inner(v, SLOT_A) && {} + Subtree(v, SLOT_A) == Subtree(v, SLOT_A);
    SweptAll(v, InB(), OUT, {}, true, SLOT_A);
  }
}
