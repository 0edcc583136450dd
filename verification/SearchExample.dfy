// A reachable tree with several files of one name, and what whereis prints for it, character by character.
module SearchExample {
  import opened Layout
  import opened Volume
  import opened Disks
  import opened Operations
  import opened Writing
  import opened Runs
  import opened Strings
  import opened Paths
  import opened Whereis
  import opened Spelling
  import opened RmExamples
  import opened PathExamples
  import opened Beginnings

  const MD: Ext := [109, 100, 0]

  function FileOp(ext: Ext, parent: U32, buf: Cluster, now: Stamp): Op {
    Op.Write(Request(Letter(A), ext, parent, 1), buf, now)
  }

  // The files `a.txt` and `a.md` and the folder `b` in the root, and a file `a.txt` in `b`.
  function FourCalls(buf: Cluster, now: Stamp): seq<Op> {
    [FileOp(TXT, ROOT_CLUSTER, buf, now)] + [FileOp(MD, ROOT_CLUSTER, buf, now)]
    + [FolderCall(Letter(B), ROOT_CLUSTER, now)] + [FileOp(TXT, 5, buf, now)]
  }

  predicate IsFile(e: Entry, ext: Ext) {
    e.name == Letter(A) && e.ext == ext && Live(e) && !IsDir(e)
  }

  // What the calls leave.
  ghost predicate Filed(v: Vol, e: Entry, f: Entry, g: Entry, h: Entry) {
    && Tree(v) && ROOT_CLUSTER in v.tabs && 5 in v.tabs
    && Lists(v.tabs[ROOT_CLUSTER], [e, f, g]) && Lists(v.tabs[5], [h])
    && IsFile(e, TXT) && IsFile(f, MD) && IsFile(h, TXT)
    && g.name == Letter(B) && g.ext == ZERO_EXT && Live(g) && IsDir(g) && g.cluster == 5
  }

  lemma TwoFilesFirst(d: Disk, buf: Cluster, now: Stamp) returns (b: Disk, v: Vol, e: Entry, f: Entry)
    ensures At(d, now, [FileOp(TXT, ROOT_CLUSTER, buf, now)] + [FileOp(MD, ROOT_CLUSTER, buf, now)], b, v)
    ensures ROOT_CLUSTER in v.tabs && Lists(v.tabs[ROOT_CLUSTER], [e, f]) && IsFile(e, TXT) && IsFile(f, MD)
    ensures TakenBelow(v.fat, 5)
  {
    hide Inv, Rep, Tree, TakenBelow, FromFormat, Reached, First, EmptyVol, FormatDisk, Pad, Blocks, FileWritable, Lists;
    hide FileWritten;
    Fresh(d, now);
    OneBlock(buf);
    ListsFinds(EmptyVol(now).tabs[ROOT_CLUSTER], [], Key(Letter(A), TXT), 0);
    b, v, e := AddedFile(d, now, [], FormatDisk(d, now), EmptyVol(now), Request(Letter(A), TXT, ROOT_CLUSTER, 1),
      buf, [], 3);
    var ops := [FileOp(TXT, ROOT_CLUSTER, buf, now)];
    assert [] + ops == ops && [] + [e] == [e];
    ListsFinds(v.tabs[ROOT_CLUSTER], [e], Key(Letter(A), MD), 1);
    b, v, f := AddedFile(d, now, ops, b, v, Request(Letter(A), MD, ROOT_CLUSTER, 1), buf, [e], 4);
    assert [e] + [f] == [e, f];
  }

  lemma FourFiles(d: Disk, buf: Cluster, now: Stamp) returns (v: Vol, e: Entry, f: Entry, g: Entry, h: Entry)
    ensures FromFormat(d, now, FourCalls(buf, now)) && v == Reached(d, now, FourCalls(buf, now)).1
    ensures Filed(v, e, f, g, h)
  {
    hide Inv, Rep, Tree, TakenBelow, FromFormat, Reached, First, Pad, Blocks, FileWritable, Lists, FileWritten;
    OneBlock(buf);
    var b;
    b, v, e, f := TwoFilesFirst(d, buf, now);
    var ops := [FileOp(TXT, ROOT_CLUSTER, buf, now)] + [FileOp(MD, ROOT_CLUSTER, buf, now)];
    ListsFinds(v.tabs[ROOT_CLUSTER], [e, f], Folder(Letter(B)), 2);
    b, v, g := AddedFolder(d, now, ops, b, v, FolderReq(Letter(B), ROOT_CLUSTER), [e, f], 5);
    ops := ops + [FolderCall(Letter(B), ROOT_CLUSTER, now)];
    assert [e, f] + [g] == [e, f, g];
    ListsFinds(v.tabs[5], [], Key(Letter(A), TXT), 0);
    b, v, h := AddedFile(d, now, ops, b, v, Request(Letter(A), TXT, 5, 1), buf, [], 6);
    assert [] + [h] == [h];
    AtTree(d, now, FourCalls(buf, now), b, v);
  }

  // Nothing is found behind the last live slot.
  lemma {:induction false} NothingBehind(v: Vol, st: seq<Frame>, i: nat, q: Query)
    requires Tree(v) && StackOk(v, st) && 1 <= i <= TABLE_SIZE && |q.name| <= 8 && Top(st).cluster in v.tabs
    requires forall j :: i <= j < TABLE_SIZE ==> !Live(v.tabs[Top(st).cluster][j])
    ensures Rest(v, st, i, q) == []
    decreases TABLE_SIZE - i
  {
    hide Tree, Leads, Asked, Hits;
    if i < TABLE_SIZE {
      RestStep(v, st, i, q);
      NothingBehind(v, st, i + 1, q);
    } else {
      RestEnds(v, st, q);
    }
  }

  function InB(): seq<Frame> {
    ROOT_STACK + [Frame(5, Letter(B))]
  }

  // The answer for `a`, with an extension or not.
  lemma Answered(v: Vol, e: Entry, f: Entry, g: Entry, h: Entry, ext: Ext)
    requires Filed(v, e, f, g, h) && (ext == TXT || ext == ZERO_EXT)
    ensures StackOk(v, ROOT_STACK)
    ensures var q := Query([A], ext);
      Rest(v, ROOT_STACK, 1, q) ==
      Printed(ROOT_STACK, e, q) + (if ext == TXT then [] else Printed(ROOT_STACK, f, q)) + Printed(InB(), h, q)
  {
    hide Tree, Leads, Lists, Printed, Rest;
    RootStackOk(v);
    var q := Query([A], ext);
    var t, u := v.tabs[ROOT_CLUSTER], v.tabs[5];
    forall j | 1 <= j < TABLE_SIZE
      ensures Live(t[j]) <==> j <= 3
      ensures Live(u[j]) <==> j <= 1
    {
      ListsLive(t, [e, f, g], j);
      ListsLive(u, [h], j);
    }
    ListsLive(t, [e, f, g], 1);
    ListsLive(t, [e, f, g], 2);
    ListsLive(t, [e, f, g], 3);
    ListsLive(u, [h], 1);
    assert f.ext[0] == 109;
    RestStep(v, ROOT_STACK, 1, q);
    RestStep(v, ROOT_STACK, 2, q);
    RestStep(v, ROOT_STACK, 3, q);
    NothingBehind(v, ROOT_STACK, 4, q);
    RestStep(v, InB(), 1, q);
    NothingBehind(v, InB(), 2, q);
  }

  // The text has the characters of the string.
  predicate Spells(t: Text, s: string) {
    |t| == |s| && forall k :: 0 <= k < |s| ==> t[k] == s[k] as int
  }

  lemma SpellsBoth(t: Text, u: Text, r: string, s: string)
    requires Spells(t, r) && Spells(u, s)
    ensures Spells(t + u, r + s)
  {
  }

  // What whereis prints when it is asked for `text`.
  ghost function AnswerTo(v: Vol, text: Text): Text
    requires Tree(v)
  {
    RootStackOk(v);
    Asking(text).name + COLON + Rest(v, ROOT_STACK, 1, Asking(text))
  }

  // `whereis a.txt` answers with the two files of that name and not with `a.md`; `whereis a` with all three.
  lemma WhereisPrints(d: Disk, buf: Cluster, now: Stamp, long: Text, short: Text)
    requires Spells(long, "a.txt") && Spells(short, "a")
    ensures FromFormat(d, now, FourCalls(buf, now))
    ensures var v := Reached(d, now, FourCalls(buf, now)).1;
      && Tree(v) && Spells(AnswerTo(v, long), "a: " + "root/a.txt  " + "root/b/a.txt  ")
      && Spells(AnswerTo(v, short), "a: " + "root/a.txt  " + "root/a.md  " + "root/b/a.txt  ")
  {
    hide Tree, Lists, FromFormat, Reached, Rest, Asking, Printed, Spells;
    var v, e, f, g, h := FourFiles(d, buf, now);
    AskedFor(long, short);
    Answered(v, e, f, g, h, TXT);
    Answered(v, e, f, g, h, ZERO_EXT);
    PrintedAs(e, f, h, TXT);
    PrintedAs(e, f, h, ZERO_EXT);
    var p, q := Query([A], TXT), Query([A], ZERO_EXT);
    var x, y, z := Printed(ROOT_STACK, e, p), Printed(ROOT_STACK, f, q), Printed(InB(), h, p);
    Heading();
    NameIsPrinted(ROOT_STACK, e, p, q);
    NameIsPrinted(InB(), h, p, q);
    SpellsBoth([A] + COLON, x, "a: ", "root/a.txt  ");
    SpellsBoth([A] + COLON + x, z, "a: " + "root/a.txt  ", "root/b/a.txt  ");
    SpellsBoth([A] + COLON + x, y, "a: " + "root/a.txt  ", "root/a.md  ");
    SpellsBoth([A] + COLON + x + y, z, "a: " + "root/a.txt  " + "root/a.md  ", "root/b/a.txt  ");
    assert AnswerTo(v, long) == [A] + COLON + x + z;
    assert AnswerTo(v, short) == [A] + COLON + x + y + z;
  }

  // Of the query only the name is printed.
  lemma NameIsPrinted(st: seq<Frame>, e: Entry, p: Query, q: Query)
    requires p.name == q.name
    ensures Printed(st, e, p) == Printed(st, e, q)
  {
  }

  lemma Heading()
    ensures Spells([A] + COLON, "a: ")
  {
  }

  lemma AskedFor(long: Text, short: Text)
    requires Spells(long, "a.txt") && Spells(short, "a")
    ensures Asking(long) == Query([A], TXT) && Asking(short) == Query([A], ZERO_EXT)
  {
    hide NameAndExt, Unpad;
    assert long == [A] + [DOT] + TXT && short == [A];
    SeparateText([A], TXT);
    LetterFacts(A);
    assert Pad(TXT, 3) == TXT;
  }

  lemma PrintedAs(e: Entry, f: Entry, h: Entry, ext: Ext)
    requires IsFile(e, TXT) && IsFile(f, MD) && IsFile(h, TXT)
    ensures var q := Query([A], ext);
      && Spells(Printed(ROOT_STACK, e, q), "root/a.txt  ") && Spells(Printed(ROOT_STACK, f, q), "root/a.md  ")
      && Spells(Printed(InB(), h, q), "root/b/a.txt  ")
  {
    hide PathText, Unpad;
    Fields();
    PathsSpelt();
  }

  lemma Fields()
    ensures Unpad(TXT) == TXT && Unpad(MD) == [109, 100]
  {
    hide Unpad;
    UnpadPad(TXT, 3);
    assert Pad(TXT, 3) == TXT && Pad([109, 100], 3) == MD;
    UnpadPad([109, 100], 3);
  }

  lemma PathsSpelt()
    ensures Spells(PathText(ROOT_STACK), "root/") && Spells(PathText(InB()), "root/b/")
  {
    hide Unpad;
    LetterFacts(B);
    var root: Text := [114, 111, 111, 116];
    assert Pad(root, 8) == ROOT_NAME;
    UnpadPad(root, 8);
    assert ROOT_STACK[..0] == [] && InB()[..1] == ROOT_STACK;
  }
}
