// Path resolution over a stack of directories: read_path and cd, against a pure resolver on the tree.
module Paths {
  import opened Layout
  import opened Volume
  import opened Disks
  import opened Operations
  import opened Runs
  import opened FatDriver
  import opened Calls
  import opened Strings

  /* The resolver */

  datatype Frame = Frame(cluster: nat, name: Name)

  datatype Resolved = Resolved(code: int, stack: seq<Frame>, leaf: Option<Text>)

  const UP: Text := [46, 46]

  // What opening folder `name` in directory `c` returns: 0, 1 for a file, 3 for nothing.
  function OpenCode(v: Vol, c: nat, name: Name): int
    requires c in v.tabs
  {
    FolderCode(v.tabs[c], name, ZERO_EXT)
  }

  function Opened(v: Vol, c: nat, name: Name): nat
    requires c in v.tabs && First(v.tabs[c], FolderKey(name, ZERO_EXT)) < TABLE_SIZE
  {
    v.tabs[c][First(v.tabs[c], FolderKey(name, ZERO_EXT))].cluster
  }

  // The stack spells a path of the tree that starts at the root.
  ghost predicate StackOk(v: Vol, st: seq<Frame>) {
    && |st| > 0 && st[0] == Frame(ROOT_CLUSTER, ROOT_NAME)
    && forall i :: 0 <= i < |st| - 1 ==> Leads(v, st[i], st[i + 1])
  }

  ghost predicate Leads(v: Vol, a: Frame, b: Frame) {
    && a.cluster in v.tabs && b.cluster in v.tabs
    && First(v.tabs[a.cluster], FolderKey(b.name, ZERO_EXT)) < TABLE_SIZE
    && Opened(v, a.cluster, b.name) == b.cluster
  }

  function Top(st: seq<Frame>): Frame
    requires |st| > 0
  {
    st[|st| - 1]
  }

  // Walk the components but for the last one; the last is handed back, except that `..` goes up.
  function Resolve(v: Vol, st: seq<Frame>, comps: seq<Text>): (r: Resolved)
    requires |st| > 0 && |comps| > 0
    ensures |r.stack| > 0
    decreases |comps|
  {
    var c := comps[0];
    if |comps| == 1 then
      if c == UP then Resolved(0, if |st| > 1 then st[..|st| - 1] else st, None)
      else Resolved(0, st, Some(c))
    else if c == UP then
      if |st| > 1 then Resolve(v, st[..|st| - 1], comps[1..]) else Resolved(3, st, None)
    else if c == [] then Resolve(v, st, comps[1..])
    else if |c| > 8 || Top(st).cluster !in v.tabs then Resolved(3, st, None)
    else
      var dir, name := Top(st).cluster, Pad(c, 8);
      if OpenCode(v, dir, name) == 0 then Resolve(v, st + [Frame(Opened(v, dir, name), name)], comps[1..])
      else Resolved(OpenCode(v, dir, name), st, None)
  }

  // The frames that are left when the path has gone up as far as it does before it goes down. Those above
  // them are popped without being looked at.
  function Risen(st: seq<Frame>, comps: seq<Text>): (r: seq<Frame>)
    requires |st| > 0 && |comps| > 0
    ensures 0 < |r| <= |st| && r == st[..|r|]
    decreases |comps|
  {
    if comps[0] == UP && |st| > 1 then
      if |comps| == 1 then st[..|st| - 1] else Risen(st[..|st| - 1], comps[1..])
    else if comps[0] == [] && |comps| > 1 then Risen(st, comps[1..])
    else st
  }

  // What a walk asks of the stack: the frames that are left spell a path of the tree.
  ghost predicate Grounded(v: Vol, st: seq<Frame>, comps: seq<Text>)
    requires |st| > 0 && |comps| > 0
  {
    StackOk(v, Risen(st, comps))
  }

  lemma PathIsGrounded(v: Vol, st: seq<Frame>, comps: seq<Text>)
    requires StackOk(v, st) && |comps| > 0
    ensures Grounded(v, st, comps)
  {
    hide Leads;
  }

  /* The stack stays a path, and is never deep */

  lemma OpenedIsChild(v: Vol, c: nat, name: Name)
    requires Tree(v) && c in v.tabs && First(v.tabs[c], FolderKey(name, ZERO_EXT)) < TABLE_SIZE
    ensures var k := Opened(v, c, name);
      k in v.tabs && Parent(v, k) == c && k != ROOT_CLUSTER && v.depth[k] == v.depth[c] + 1 && v.tabs[k][0].name == name
  {
    hide IsChain, FirstFrom;
    var s := Slot(c, First(v.tabs[c], FolderKey(name, ZERO_EXT)));
    assert Covered(v, s);
    assert SlotOk(v, s);
    assert DirOk(v, Opened(v, c, name));
  }

  // The height of the stack is the depth of its top directory.
  lemma {:induction false} StackDepth(v: Vol, st: seq<Frame>, i: nat)
    requires Tree(v) && StackOk(v, st) && i < |st|
    ensures st[i].cluster in v.tabs && v.depth[st[i].cluster] == i
    decreases i
  {
    hide SlotOk, DirOk, First;
    if i > 0 {
      StackDepth(v, st, i - 1);
      assert Leads(v, st[i - 1], st[i]);
      OpenedIsChild(v, st[i - 1].cluster, st[i].name);
    }
  }

  ghost function Shallow(v: Vol, n: nat): set<nat>
    requires v.tabs.Keys == v.depth.Keys
  {
    set c | c in v.tabs && v.depth[c] <= n
  }

  // A directory at depth `n` has a different directory at every smaller depth above it.
  lemma {:induction false} DepthNeedsDirs(v: Vol, c: nat, n: nat)
    requires Tree(v) && c in v.tabs && v.depth[c] == n
    ensures |Shallow(v, n)| >= n + 1
    decreases n
  {
    hide SlotOk, DirOk;
    if n == 0 {
      assert c in Shallow(v, 0);
    } else {
      ParentIsAbove(v, c);
      DepthNeedsDirs(v, Parent(v, c), n - 1);
      assert Shallow(v, n - 1) + {c} <= Shallow(v, n);
      Cardinality(Shallow(v, n - 1) + {c}, Shallow(v, n));
    }
  }

  lemma {:induction false} Cardinality(a: set<nat>, b: set<nat>)
    requires a <= b
    ensures |a| <= |b|
  {
    if a != {} {
      var x :| x in a;
      Cardinality(a - {x}, b - {x});
    }
  }

  ghost function Range(lo: nat, hi: nat): (r: set<nat>)
    requires lo <= hi
    ensures |r| == hi - lo && forall k :: lo <= k < hi <==> k in r
    decreases hi - lo
  {
    if lo == hi then {} else {lo} + Range(lo + 1, hi)
  }

  // There are at most 510 directories, so no path is as deep as the stack array is long.
  lemma DepthBound(v: Vol, c: nat)
    requires Tree(v) && c in v.tabs
    ensures v.depth[c] < CLUSTER_MAP_SIZE - 2
  {
    hide SlotOk;
    DepthNeedsDirs(v, c, v.depth[c]);
    Cardinality(Shallow(v, v.depth[c]), v.tabs.Keys);
    forall k | k in v.tabs
      ensures ROOT_CLUSTER <= k < CLUSTER_MAP_SIZE
    {
      assert DirOk(v, k);
    }
    Cardinality(v.tabs.Keys, Range(ROOT_CLUSTER, CLUSTER_MAP_SIZE));
  }

  // On success and on failure alike the resolver leaves a path of the tree.
  lemma {:induction false} ResolveKeepsStack(v: Vol, st: seq<Frame>, comps: seq<Text>)
    requires Tree(v) && |st| > 0 && |comps| > 0 && Grounded(v, st, comps)
    ensures StackOk(v, Resolve(v, st, comps).stack)
    ensures Resolve(v, st, comps).code in {0, 1, 3}
    decreases |comps|
  {
    hide Tree, First, Leads;
    var c := comps[0];
    if |comps| > 1 {
      if c == UP {
        if |st| > 1 {
          ResolveKeepsStack(v, st[..|st| - 1], comps[1..]);
        }
      } else if c == [] {
        ResolveKeepsStack(v, st, comps[1..]);
      } else {
        StackTop(v, st);
        if |c| <= 8 && OpenCode(v, Top(st).cluster, Pad(c, 8)) == 0 {
          Pushed(v, st, Pad(c, 8));
          var next := st + [Frame(Opened(v, Top(st).cluster, Pad(c, 8)), Pad(c, 8))];
          PathIsGrounded(v, next, comps[1..]);
          ResolveKeepsStack(v, next, comps[1..]);
        }
      }
    }
  }

  lemma StackTop(v: Vol, st: seq<Frame>)
    requires Tree(v) && StackOk(v, st)
    ensures Top(st).cluster in v.tabs && |st| <= CLUSTER_MAP_SIZE - 2
    ensures Top(st).cluster == ROOT_CLUSTER <==> |st| == 1
  {
    hide SlotOk, DirOk, First;
    StackDepth(v, st, |st| - 1);
    StackDepth(v, st, 0);
    DepthBound(v, Top(st).cluster);
  }

  lemma Pushed(v: Vol, st: seq<Frame>, name: Name)
    requires Tree(v) && StackOk(v, st)
    requires Top(st).cluster in v.tabs && First(v.tabs[Top(st).cluster], FolderKey(name, ZERO_EXT)) < TABLE_SIZE
    ensures StackOk(v, st + [Frame(Opened(v, Top(st).cluster, name), name)])
  {
    hide SlotOk, DirOk, First;
    OpenedIsChild(v, Top(st).cluster, name);
    var f := Frame(Opened(v, Top(st).cluster, name), name);
    assert Leads(v, Top(st), f);
    forall i | 0 <= i < |st|
      ensures Leads(v, (st + [f])[i], (st + [f])[i + 1])
    {
      if i < |st| - 1 {
        assert Leads(v, st[i], st[i + 1]);
      }
    }
  }

  /* The resolver does not see time stamps */

  lemma ResolveSameStep(v: Vol, w: Vol, c: nat, name: Name)
    requires SameTree(v, w) && c in v.tabs
    ensures OpenCode(w, c, name) == OpenCode(v, c, name)
    ensures OpenCode(v, c, name) == 0 ==> Opened(w, c, name) == Opened(v, c, name)
  {
    SameTreeFinds(v, w, c, FolderKey(name, ZERO_EXT));
    SameTreeFinds(v, w, c, Key(name, ZERO_EXT));
  }

  lemma {:induction false} ResolveSame(v: Vol, w: Vol, st: seq<Frame>, comps: seq<Text>)
    requires SameTree(v, w) && |st| > 0 && |comps| > 0
    ensures Resolve(w, st, comps) == Resolve(v, st, comps)
    decreases |comps|
  {
    hide OpenCode, First, SameTree;
    SameKeys(v, w);
    var c := comps[0];
    if |comps| > 1 {
      if c == UP {
        if |st| > 1 {
          ResolveSame(v, w, st[..|st| - 1], comps[1..]);
        }
      } else if c == [] {
        ResolveSame(v, w, st, comps[1..]);
      } else if |c| <= 8 && Top(st).cluster in v.tabs {
        ResolveSameStep(v, w, Top(st).cluster, Pad(c, 8));
        if OpenCode(v, Top(st).cluster, Pad(c, 8)) == 0 {
          OpenIsFound(v, Top(st).cluster, Pad(c, 8));
          ResolveSame(v, w, st + [Frame(Opened(v, Top(st).cluster, Pad(c, 8)), Pad(c, 8))], comps[1..]);
        }
      }
    }
  }

  lemma OpenIsFound(v: Vol, c: nat, name: Name)
    requires c in v.tabs
    ensures OpenCode(v, c, name) == 0 <==> First(v.tabs[c], FolderKey(name, ZERO_EXT)) < TABLE_SIZE
  {
  }

  lemma StackSame(v: Vol, w: Vol, st: seq<Frame>)
    requires SameTree(v, w) && StackOk(v, st)
    ensures StackOk(w, st)
  {
    hide First, SameTree;
    SameKeys(v, w);
    forall i | 0 <= i < |st| - 1
      ensures Leads(w, st[i], st[i + 1])
    {
      assert Leads(v, st[i], st[i + 1]);
      OpenIsFound(v, st[i].cluster, st[i + 1].name);
      OpenIsFound(w, st[i].cluster, st[i + 1].name);
      ResolveSameStep(v, w, st[i].cluster, st[i + 1].name);
    }
  }

  // Going down one component, on a tree that reads may have touched since.
  lemma {:induction false} StepDown(v: Vol, w: Vol, st: seq<Frame>, comps: seq<Text>)
    requires Tree(v) && SameTree(v, w) && StackOk(v, st)
    requires |comps| > 1 && comps[0] != UP && 0 < |comps[0]| <= 8
    ensures Top(st).cluster in v.tabs && Top(st).cluster in w.tabs
    ensures var c, name := Top(st).cluster, Pad(comps[0], 8);
      && OpenCode(w, c, name) == OpenCode(v, c, name)
      && (OpenCode(v, c, name) != 0 ==> Resolve(v, st, comps) == Resolved(OpenCode(v, c, name), st, None))
      && (OpenCode(v, c, name) == 0 ==>
            var next := st + [Frame(Opened(v, c, name), name)];
            && Opened(w, c, name) == Opened(v, c, name)
            && StackOk(v, next) && Resolve(v, st, comps) == Resolve(v, next, comps[1..]))
  {
    hide Tree, First, SameTree;
    SameKeys(v, w);
    StackTop(v, st);
    var c, name := Top(st).cluster, Pad(comps[0], 8);
    ResolveSameStep(v, w, c, name);
    if OpenCode(v, c, name) == 0 {
      Pushed(v, st, name);
    }
  }

  // Staying, or going up one directory.
  lemma {:induction false} StepUp(v: Vol, st: seq<Frame>, comps: seq<Text>)
    requires |st| > 0 && |comps| > 1 && Grounded(v, st, comps)
    ensures comps[0] == [] ==>
      Grounded(v, st, comps[1..]) && Resolve(v, st, comps) == Resolve(v, st, comps[1..])
    ensures comps[0] == UP && |st| == 1 ==> StackOk(v, st) && Resolve(v, st, comps) == Resolved(3, st, None)
    ensures comps[0] == UP && |st| > 1 ==>
      Grounded(v, st[..|st| - 1], comps[1..]) && Resolve(v, st, comps) == Resolve(v, st[..|st| - 1], comps[1..])
    ensures comps[0] != UP && comps[0] != [] ==> StackOk(v, st)
    ensures comps[0] != UP && |comps[0]| > 8 ==> Resolve(v, st, comps) == Resolved(3, st, None)
  {
    hide Leads;
  }

  lemma {:induction false} StepLast(v: Vol, st: seq<Frame>, comps: seq<Text>)
    requires |st| > 0 && |comps| == 1 && Grounded(v, st, comps)
    ensures comps[0] == UP && |st| == 1 ==> StackOk(v, st) && Resolve(v, st, comps) == Resolved(0, st, None)
    ensures comps[0] == UP && |st| > 1 ==>
      StackOk(v, st[..|st| - 1]) && Resolve(v, st, comps) == Resolved(0, st[..|st| - 1], None)
    ensures comps[0] != UP ==> StackOk(v, st) && Resolve(v, st, comps) == Resolved(0, st, Some(comps[0]))
  {
    hide Leads;
  }

  /* read_path */

  function FramesOf(clusters: seq<nat>, names: seq<Name>, n: nat): (st: seq<Frame>)
    requires n <= |clusters| && n <= |names|
    ensures |st| == n
  {
    seq(n, i requires 0 <= i < n => Frame(clusters[i], names[i]))
  }

  // The working directory: both stacks lie inside the structure itself and are copied with it.
  class Cwd {
    var clustersStack: seq<nat>
    var dirNames: seq<Name>
    var top: nat

    constructor ()
      ensures Shape() && Frames() == [Frame(ROOT_CLUSTER, ROOT_NAME)]
    {
      clustersStack := seq(CLUSTER_MAP_SIZE, _ => ROOT_CLUSTER);
      dirNames := seq<Name>(CLUSTER_MAP_SIZE, _ => ROOT_NAME);
      top := 0;
    }

    // Assigning the structure copies both stacks.
    constructor Copy(other: Cwd)
      requires other.Shape()
      ensures Shape() && Frames() == other.Frames()
    {
      clustersStack := other.clustersStack;
      dirNames := other.dirNames;
      top := other.top;
    }

    ghost predicate Shape()
      reads this
    {
      |clustersStack| == CLUSTER_MAP_SIZE && |dirNames| == CLUSTER_MAP_SIZE && top < CLUSTER_MAP_SIZE
    }

    ghost function Frames(): (st: seq<Frame>)
      requires Shape()
      reads this
      ensures |st| == top + 1
    {
      FramesOf(clustersStack, dirNames, top + 1)
    }

    method Pop()
      requires Shape() && top > 0
      modifies this
      ensures Shape() && Frames() == old(Frames())[..old(top)]
    {
      top := top - 1;
    }

    method Push(cluster: nat, name: Name)
      requires Shape() && top + 1 < CLUSTER_MAP_SIZE
      modifies this
      ensures Shape() && Frames() == old(Frames()) + [Frame(cluster, name)]
    {
      ghost var before := Frames();
      top := top + 1;
      clustersStack := clustersStack[top := cluster];
      dirNames := dirNames[top := name];
      assert Frames()[..top] == before;
    }
  }

  // Open the folder `name` of the directory on top of the stack.
  method OpenTop(driver: Driver, cwd: Cwd, name: Name, buf: array<Entry>) returns (code: int, found: nat)
    requires driver.Intact() && cwd.Shape() && StackOk(driver.vol, cwd.Frames()) && buf.Length == TABLE_SIZE
    requires Apart(driver, buf)
    modifies driver`vol, driver.device, driver.device.image, driver.fatTable, driver.dirTableBuf, buf
    ensures driver.Intact()
    ensures OnlyLooked(old(driver.Content()), old(driver.vol), driver.Content(), driver.vol)
    ensures Top(cwd.Frames()).cluster in driver.vol.tabs
    ensures code == OpenCode(old(driver.vol), Top(cwd.Frames()).cluster, name)
    ensures code == 0 ==> found == Opened(old(driver.vol), Top(cwd.Frames()).cluster, name) && found != ROOT_CLUSTER
  {
    hide Inv, Tree, Rep, Formatted, AsFat, AsTable, First, FirstFrom, SameTree, SameFiles;
    ghost var v := driver.vol;
    var c := cwd.clustersStack[cwd.top];
    assert Top(cwd.Frames()) == Frame(c, cwd.dirNames[cwd.top]);
    StackTop(v, cwd.Frames());
    DirRange(v, c);
    code, found := OpenFolder(driver, Request(name, ZERO_EXT, c, CLUSTER_SIZE), buf);
    SameKeys(v, driver.vol);
    if code == 0 {
      OpenIsFound(v, c, name);
      OpenedIsChild(v, c, name);
    }
  }

  lemma DirRange(v: Vol, c: nat)
    requires Tree(v) && c in v.tabs
    ensures ROOT_CLUSTER <= c < CLUSTER_MAP_SIZE
  {
    assert DirOk(v, c);
  }

  // The twelve bytes a caller gets of a component.
  function Leaf(t: Text): (r: Text)
    ensures |r| == 12
  {
    Pad(t, 12)
  }

  // A driver and a working directory on its tree.
  ghost predicate Ready(driver: Driver, cwd: Cwd, buf: array<Entry>)
    reads driver, driver.device, driver.device.image, driver.fatTable, driver.dirTableBuf, cwd
  {
    && driver.Intact() && cwd.Shape() && StackOk(driver.vol, cwd.Frames())
    && buf.Length == TABLE_SIZE && Apart(driver, buf)
  }

  // Only the lowest frame is the root.
  ghost predicate Anchored(st: seq<Frame>) {
    forall i :: 0 < i < |st| ==> st[i].cluster != ROOT_CLUSTER
  }

  // A driver and a working directory that may be gone, as long as the path leaves what is gone at once.
  ghost predicate ReadyFor(driver: Driver, cwd: Cwd, buf: array<Entry>, comps: seq<Text>)
    requires |comps| > 0
    reads driver, driver.device, driver.device.image, driver.fatTable, driver.dirTableBuf, cwd
  {
    && driver.Intact() && cwd.Shape() && Grounded(driver.vol, cwd.Frames(), comps) && Anchored(cwd.Frames())
    && buf.Length == TABLE_SIZE && Apart(driver, buf)
  }

  lemma PathIsAnchored(v: Vol, st: seq<Frame>)
    requires Tree(v) && StackOk(v, st)
    ensures Anchored(st)
  {
    hide Tree, First;
    forall i | 0 < i < |st|
      ensures st[i].cluster != ROOT_CLUSTER
    {
      assert Leads(v, st[i - 1], st[i]);
      OpenedIsChild(v, st[i - 1].cluster, st[i].name);
    }
  }

  // Walk the components from the working directory, moving the stack as it goes.
  method WalkPath(driver: Driver, dirs: seq<Text>, cwd: Cwd, buf: array<Entry>) returns (code: int, leaf: Option<Text>)
    requires |dirs| > 0 && ReadyFor(driver, cwd, buf, dirs)
    modifies driver`vol, driver.device, driver.device.image, driver.fatTable, driver.dirTableBuf, cwd, buf
    ensures Ready(driver, cwd, buf)
    ensures OnlyLooked(old(driver.Content()), old(driver.vol), driver.Content(), driver.vol)
    ensures Resolved(code, cwd.Frames(), leaf) == old(Resolve(driver.vol, cwd.Frames(), dirs))
  {
    hide Inv, Tree, Rep, Formatted, SameTree, SameFiles, StackOk, Resolve, OpenCode, Opened, FramesOf, Pad, Grounded;
    ghost var v := driver.vol;
    ghost var st0 := cwd.Frames();
    var currDirCluster := cwd.clustersStack[cwd.top];
    ghost var d := driver.Content();
    NothingLooked(d, v);
    TopFrame(cwd);
    var i := 0;
    leaf := None;
    while i < |dirs| - 1
      invariant 0 <= i <= |dirs| - 1
      invariant driver.Intact() && cwd.Shape() && buf.Length == TABLE_SIZE && Apart(driver, buf)
      invariant OnlyLooked(d, v, driver.Content(), driver.vol)
      invariant Grounded(v, cwd.Frames(), dirs[i..]) && Anchored(cwd.Frames())
      invariant Resolve(v, st0, dirs) == Resolve(v, cwd.Frames(), dirs[i..])
      invariant currDirCluster == ROOT_CLUSTER ==> cwd.top == 0
    {
      assert dirs[i..][1..] == dirs[i + 1..];
      StepUp(v, cwd.Frames(), dirs[i..]);
      if dirs[i] == UP {
        if currDirCluster != ROOT_CLUSTER && cwd.top != 0 {
          cwd.Pop();
        } else {
          StackSame(v, driver.vol, cwd.Frames());
          return 3, None;
        }
      } else if |dirs[i]| > 0 {
        StackSame(v, driver.vol, cwd.Frames());
        if |dirs[i]| > 8 {
          return 3, None;
        }
        StackTop(v, cwd.Frames());
        StepDown(v, driver.vol, cwd.Frames(), dirs[i..]);
        ghost var e, w := driver.Content(), driver.vol;
        var retcode, found := OpenTop(driver, cwd, Pad(dirs[i], 8), buf);
        OnlyLookedTwice(d, v, e, w, driver.Content(), driver.vol);
        if retcode == 0 {
          currDirCluster := found;
          cwd.Push(found, Pad(dirs[i], 8));
          PathIsGrounded(v, cwd.Frames(), dirs[i + 1..]);
          PathIsAnchored(v, cwd.Frames());
        }
        StackSame(v, driver.vol, cwd.Frames());
        if retcode != 0 {
          return retcode, None;
        }
      }
      i := i + 1;
    }
    StepLast(v, cwd.Frames(), dirs[i..]);
    if dirs[|dirs| - 1] == UP {
      if cwd.top > 0 {
        cwd.Pop();
      }
    } else {
      leaf := Some(dirs[|dirs| - 1]);
    }
    StackSame(v, driver.vol, cwd.Frames());
    code := 0;
  }

  lemma TopFrame(cwd: Cwd)
    requires cwd.Shape()
    ensures Top(cwd.Frames()) == Frame(cwd.clustersStack[cwd.top], cwd.dirNames[cwd.top])
  {
  }

  // What a walk promises: the resolver's code, stack and leaf; the leaf buffer is left alone if there is none.
  ghost predicate Walked(r: Resolved, code: int, stack: seq<Frame>, before: seq<Byte>, after: seq<Byte>) {
    && code == r.code && stack == r.stack
    && after == if r.leaf.Some? then Leaf(r.leaf.value) else before
  }

  // The components of a path, as the caller's 12 rows of 128 characters can hold them.
  ghost predicate PathFits(path: seq<Byte>) {
    && |path| > 0 && path[|path| - 1] == 0
    && |Components(path)| <= 12 && forall t :: t in Components(path) ==> |t| < 128
  }

  function Components(path: seq<Byte>): (ts: seq<Text>)
    requires |path| > 0 && path[|path| - 1] == 0
    ensures |ts| > 0
  {
    Split(CString(path, 0), SLASH)
  }

  method ReadPath(driver: Driver, tokenizer: Tokenizer, path: array<Byte>, cwd: Cwd, toFind: array<Byte>,
      buf: array<Entry>)
    returns (code: int)
    requires PathFits(path[..]) && ReadyFor(driver, cwd, buf, Components(path[..])) && toFind.Length == 12
    requires Apart(driver, path) && Apart(driver, toFind) && toFind != path
    requires buf as object != path as object && buf as object != toFind as object
    modifies driver`vol, driver.device, driver.device.image, driver.fatTable, driver.dirTableBuf, cwd, buf
    modifies tokenizer, path, toFind
    ensures Ready(driver, cwd, buf)
    ensures OnlyLooked(old(driver.Content()), old(driver.vol), driver.Content(), driver.vol)
    ensures Walked(old(Resolve(driver.vol, cwd.Frames(), Components(path[..]))), code, cwd.Frames(),
      old(toFind[..]), toFind[..])
  {
    hide Inv, Tree, Rep, Formatted, SameTree, SameFiles, StackOk, Resolve, FramesOf, Split, CString, Grounded;
    var dirs := Strparse(tokenizer, path, SLASH);
    var leaf;
    code, leaf := WalkPath(driver, dirs, cwd, buf);
    if leaf.Some? {
      var bytes := Leaf(leaf.value);
      forall k | 0 <= k < 12 {
        toFind[k] := bytes[k];
      }
      assert toFind[..] == bytes;
    }
  }

  /* cd */

  // The twelve bytes `cd` looks at: the last component, or zeros.
  function Sought(leaf: Option<Text>): (r: Text)
    ensures |r| == 12
  {
    if leaf.Some? then Leaf(leaf.value) else seq(12, _ => 0)
  }

  // The code and the stack of `cd`, given those of the walk.
  function Entered(v: Vol, r: Resolved): (int, seq<Frame>)
    requires |r.stack| > 0
  {
    var bytes := Sought(r.leaf);
    var dir, name := Top(r.stack).cluster, bytes[..8];
    if |Unpad(bytes)| > 8 || dir !in v.tabs then (3, r.stack)
    else if r.code != 0 || bytes[0] == 0 then (r.code, r.stack)
    else if OpenCode(v, dir, name) != 0 then (OpenCode(v, dir, name), r.stack)
    else (0, r.stack + [Frame(Opened(v, dir, name), name)])
  }

  method Cd(driver: Driver, tokenizer: Tokenizer, path: array<Byte>, cwd: Cwd, buf: array<Entry>) returns (code: int)
    requires PathFits(path[..]) && ReadyFor(driver, cwd, buf, Components(path[..]))
    requires Apart(driver, path) && buf as object != path as object
    modifies driver`vol, driver.device, driver.device.image, driver.fatTable, driver.dirTableBuf, cwd, buf
    modifies tokenizer, path
    ensures Ready(driver, cwd, buf)
    ensures OnlyLooked(old(driver.Content()), old(driver.vol), driver.Content(), driver.vol)
    ensures (code, cwd.Frames()) == old(CdResult(driver.vol, cwd.Frames(), Components(path[..])))
  {
    hide Inv, Tree, Rep, Formatted, SameTree, SameFiles, StackOk, Resolve, OpenCode, Opened, FramesOf, Pad, Components;
    hide Grounded;
    ghost var d, v := driver.Content(), driver.vol;
    ghost var r := Resolve(v, cwd.Frames(), Components(path[..]));
    var newDir := new Byte[12](_ => 0);
    code := ReadPath(driver, tokenizer, path, cwd, newDir, buf);
    ghost var e, w := driver.Content(), driver.vol;
    assert newDir[..] == Sought(r.leaf);
    StackTop(w, cwd.Frames());
    SameKeys(v, w);
    if |Unpad(newDir[..])| > 8 {
      code := 3;
    }
    if code == 0 && newDir[0] != 0 {
      var found;
      var name := newDir[..8];
      ResolveSameStep(v, w, Top(cwd.Frames()).cluster, name);
      PushedSame(v, w, cwd.Frames(), name);
      code, found := OpenTop(driver, cwd, name, buf);
      OnlyLookedTwice(d, v, e, w, driver.Content(), driver.vol);
      if code == 0 {
        cwd.Push(found, name);
      }
      StackSame(w, driver.vol, cwd.Frames());
    }
  }

  function CdResult(v: Vol, st: seq<Frame>, comps: seq<Text>): (int, seq<Frame>)
    requires |st| > 0 && |comps| > 0
  {
    Entered(v, Resolve(v, st, comps))
  }

  lemma PushedSame(v: Vol, w: Vol, st: seq<Frame>, name: Name)
    requires Tree(w) && SameTree(v, w) && StackOk(w, st)
    ensures Top(st).cluster in v.tabs && Top(st).cluster in w.tabs
    ensures var c := Top(st).cluster; c in w.tabs ==>
      OpenCode(w, c, name) == 0 ==> StackOk(w, st + [Frame(Opened(w, c, name), name)])
  {
    hide Tree, First, SameTree, Leads;
    SameKeys(v, w);
    StackTop(w, st);
    if OpenCode(w, Top(st).cluster, name) == 0 {
      Pushed(w, st, name);
    }
  }

  // The path with one more slash at its end.
  function Slashed(comps: seq<Text>): (r: seq<Text>) {
    comps + [[]]
  }

  lemma PadShort(t: Text)
    requires 0 !in t
    ensures |Unpad(Pad(t, 12))| > 8 <==> |t| > 8
    ensures Pad(t, 12)[0] == 0 <==> t == []
    ensures |t| <= 8 ==> Pad(t, 12)[..8] == Pad(t, 8)
  {
    UnpadPad(t, 12);
  }

  lemma {:induction false} UnpadPad(t: Text, n: nat)
    requires 0 !in t
    ensures Unpad(Pad(t, n)) == if |t| <= n then t else t[..n]
    decreases |t|
  {
    if |t| > 0 && n > 0 {
      UnpadPad(t[1..], n - 1);
      assert Pad(t, n)[1..] == Pad(t[1..], n - 1);
      assert t[0] in t;
    }
  }

  lemma {:induction false} ResolveApart(v: Vol, st: seq<Frame>, comps: seq<Text>, last: Text)
    requires |st| > 0 && |comps| > 0
    ensures var r := Resolve(v, st, Slashed(comps)); var q := Resolve(v, st, comps + [last]);
      if r.code != 0 then q == r else q == Resolve(v, r.stack, [last])
    decreases |comps|
  {
    hide OpenCode;
    var c := comps[0];
    assert Slashed(comps)[1..] == Slashed(comps[1..]);
    assert (comps + [last])[1..] == comps[1..] + [last];
    if |comps| > 1 {
      if c == UP {
        if |st| > 1 {
          ResolveApart(v, st[..|st| - 1], comps[1..], last);
        }
      } else if c == [] {
        ResolveApart(v, st, comps[1..], last);
      } else if |c| <= 8 && Top(st).cluster in v.tabs && OpenCode(v, Top(st).cluster, Pad(c, 8)) == 0 {
        OpenIsFound(v, Top(st).cluster, Pad(c, 8));
        ResolveApart(v, st + [Frame(Opened(v, Top(st).cluster, Pad(c, 8)), Pad(c, 8))], comps[1..], last);
      }
    }
  }

  lemma SoughtNone()
    ensures Sought(None) == Pad([], 12)
  {
  }

  lemma {:induction false} CdLast(v: Vol, st: seq<Frame>, c: Text)
    requires Tree(v) && StackOk(v, st) && 0 !in c
    ensures var walk, result := Resolve(v, st, Slashed([c])), CdResult(v, st, [c]);
      && result.1 == walk.stack
      && (result.0 == walk.code || (c == UP && |walk.stack| == 1 && walk.code == 3 && result.0 == 0))
  {
    hide Tree, First, Leads, Pad, Unpad, OpenCode, Opened;
    StackTop(v, st);
    PadShort(c);
    PadShort([]);
    SoughtNone();
    assert Slashed([c]) == [c] + [[]];
    assert Slashed([c])[1..] == [[]];
    if c == UP {
      if |st| > 1 {
        var up := st[..|st| - 1];
        StackTop(v, up);
        assert Resolve(v, up, [[]]) == Resolved(0, up, Some([]));
      }
    } else if c == [] {
      assert Resolve(v, st, [[]]) == Resolved(0, st, Some([]));
    } else if |c| <= 8 {
      OpenIsFound(v, Top(st).cluster, Pad(c, 8));
      if OpenCode(v, Top(st).cluster, Pad(c, 8)) == 0 {
        var next := st + [Frame(Opened(v, Top(st).cluster, Pad(c, 8)), Pad(c, 8))];
        assert Resolve(v, next, [[]]) == Resolved(0, next, Some([]));
      }
    }
  }

  // `cd p` does what resolving `p/` does, except that a final `..` at the root is let through.
  lemma {:induction false} CdIsWalk(v: Vol, st: seq<Frame>, comps: seq<Text>)
    requires Tree(v) && StackOk(v, st) && |comps| > 0 && forall t :: t in comps ==> 0 !in t
    ensures var walk, result := Resolve(v, st, Slashed(comps)), CdResult(v, st, comps);
      && result.1 == walk.stack
      && (result.0 == walk.code || (comps[|comps| - 1] == UP && |walk.stack| == 1 && walk.code == 3 && result.0 == 0))
    decreases |comps|
  {
    hide Tree, First, Leads, Pad, Unpad, OpenCode, Opened;
    StackTop(v, st);
    PadShort([]);
    SoughtNone();
    var c := comps[0];
    assert c in comps;
    assert Slashed(comps)[1..] == Slashed(comps[1..]);
    if |comps| == 1 {
      assert comps == [c];
      CdLast(v, st, c);
    } else if c == UP {
      if |st| > 1 {
        CdIsWalk(v, st[..|st| - 1], comps[1..]);
      }
    } else if c == [] {
      CdIsWalk(v, st, comps[1..]);
    } else if |c| <= 8 && OpenCode(v, Top(st).cluster, Pad(c, 8)) == 0 {
      OpenIsFound(v, Top(st).cluster, Pad(c, 8));
      Pushed(v, st, Pad(c, 8));
      CdIsWalk(v, st + [Frame(Opened(v, Top(st).cluster, Pad(c, 8)), Pad(c, 8))], comps[1..]);
    }
  }

  /* The resolver, component by component and on the fields of the entries */

  // The folder that a component leads to is in slot `i`, or, with `i` 64, there is none.
  predicate Leading(t: Table, c: Text, i: nat) {
    && 1 <= i <= 64
    && (i < 64 ==> t[i].undelete != 0 && t[i].attribute == 0x10 && Carries(t[i], c))
    && (i == 64 ==> forall j | 1 <= j < 64 :: t[j].undelete == 0 || t[j].attribute != 0x10 || !Carries(t[j], c))
  }

  // The name is the component followed by zeros, and there is no extension.
  predicate Carries(e: Entry, c: Text) {
    (forall k :: 0 <= k < 8 ==> e.name[k] == if k < |c| then c[k] else 0) && e.ext == [0, 0, 0]
  }

  lemma CarriesIs(e: Entry, c: Text)
    requires |c| <= 8
    ensures Carries(e, c) <==> e.name == Pad(c, 8) && e.ext == ZERO_EXT
  {
    assert e.name == Pad(c, 8) <==> forall k :: 0 <= k < 8 ==> e.name[k] == Pad(c, 8)[k];
  }

  lemma LeadingIs(t: Table, c: Text, i: nat)
    requires Leading(t, c, i) && Distinct(t) && |c| <= 8
    ensures First(t, FolderKey(Pad(c, 8), ZERO_EXT)) == i
  {
    hide FirstFrom, Pad, Carries;
    forall j | 1 <= j < 64
      ensures Carries(t[j], c) <==> t[j].name == Pad(c, 8) && t[j].ext == ZERO_EXT
    {
      CarriesIs(t[j], c);
    }
    FirstIs(t, FolderKey(Pad(c, 8), ZERO_EXT), i);
  }

  // A component that is not the last: `..` leaves the top directory and fails with 3 at the root; an empty one
  // stays; any other enters a folder, or fails with 1 if there is only a file and with 3 if there is nothing
  // or it has more than eight characters.
  lemma {:induction false} ComponentStep(v: Vol, st: seq<Frame>, c: Text, rest: seq<Text>, i: nat)
    requires Tree(v) && |st| > 0 && Top(st).cluster in v.tabs && |rest| > 0
    requires Leading(v.tabs[Top(st).cluster], c, i)
    ensures Resolve(v, st, [c] + rest) ==
      var t := v.tabs[Top(st).cluster];
      if c == [46, 46] then (if |st| > 1 then Resolve(v, st[..|st| - 1], rest) else Resolved(3, st, None))
      else if c == [] then Resolve(v, st, rest)
      else if |c| > 8 then Resolved(3, st, None)
      else if i < 64 then Resolve(v, st + [Frame(t[i].cluster, t[i].name)], rest)
      else if exists j | 1 <= j < 64 :: t[j].undelete != 0 && Carries(t[j], c) then Resolved(1, st, None)
      else Resolved(3, st, None)
  {
    hide SlotOk, DirOk, FirstFrom, Pad, Carries, Base;
    assert ([c] + rest)[1..] == rest;
    if |c| <= 8 && c != [] && c != UP {
      var dir, name := Top(st).cluster, Pad(c, 8);
      var t := v.tabs[dir];
      forall j | 1 <= j < 64
        ensures Carries(t[j], c) <==> t[j].name == name && t[j].ext == ZERO_EXT
      {
        CarriesIs(t[j], c);
      }
      assert KeysOk(v, dir);
      LeadingIs(t, c, i);
    }
  }

  // The last component: `..` leaves the top directory, if that is not the root; any other is handed back.
  lemma {:induction false} LastStep(v: Vol, st: seq<Frame>, c: Text)
    requires |st| > 0
    ensures Resolve(v, st, [c]) ==
      if c != [46, 46] then Resolved(0, st, Some(c))
      else Resolved(0, if |st| > 1 then st[..|st| - 1] else st, None)
  {
  }

  // A failing walk stops in the directory that the longest good prefix leads to.
  lemma {:induction false} FailsAt(v: Vol, st: seq<Frame>, comps: seq<Text>) returns (k: nat)
    requires |st| > 0 && |comps| > 0 && Resolve(v, st, Slashed(comps)).code != 0
    ensures k < |comps|
    ensures Resolve(v, st, Slashed(comps[..k])) == Resolved(0, Resolve(v, st, Slashed(comps)).stack, Some([]))
    ensures Resolve(v, st, Slashed(comps[..k + 1])) == Resolve(v, st, Slashed(comps))
    decreases |comps|
  {
    hide First, OpenCode, Opened, Pad, Matches;
    var c := comps[0];
    assert Slashed(comps)[1..] == Slashed(comps[1..]);
    k := 0;
    var next := st;
    if c == UP && |st| > 1 {
      next := st[..|st| - 1];
    } else if c != UP && c != [] && |c| <= 8 && Top(st).cluster in v.tabs &&
      OpenCode(v, Top(st).cluster, Pad(c, 8)) == 0 {
      OpenIsFound(v, Top(st).cluster, Pad(c, 8));
      next := st + [Frame(Opened(v, Top(st).cluster, Pad(c, 8)), Pad(c, 8))];
    } else if c != [] {
      assert Slashed(comps[..1]) == [c, []];
      return;
    }
    k := FailsAt(v, next, comps[1..]);
    k := k + 1;
    assert Slashed(comps[..k])[1..] == Slashed(comps[1..][..k - 1]);
    assert Slashed(comps[..k + 1])[1..] == Slashed(comps[1..][..k]);
  }

  // A path that only goes down leaves the stack alone when it fails exactly if its first folder cannot be
  // opened; else it has moved.
  lemma {:induction false} FailsInPlace(v: Vol, st: seq<Frame>, comps: seq<Text>)
    requires |st| > 0 && |comps| > 0 && UP !in comps && [] !in comps && Resolve(v, st, Slashed(comps)).code != 0
    ensures Resolve(v, st, Slashed(comps)).stack == st <==> Resolve(v, st, Slashed(comps[..1])).code != 0
    ensures |Resolve(v, st, Slashed(comps)).stack| >= |st|
    decreases |comps|
  {
    hide First, OpenCode, Opened;
    var c := comps[0];
    assert c in comps;
    assert Slashed(comps)[1..] == Slashed(comps[1..]) && Slashed(comps[..1]) == [c, []];
    assert [c, []][1..] == [[]] && (|comps| == 1 ==> Slashed(comps[1..]) == [[]]);
    if |c| <= 8 && Top(st).cluster in v.tabs && OpenCode(v, Top(st).cluster, Pad(c, 8)) == 0 {
      OpenIsFound(v, Top(st).cluster, Pad(c, 8));
      var next := st + [Frame(Opened(v, Top(st).cluster, Pad(c, 8)), Pad(c, 8))];
      assert Resolve(v, next, [[]]) == Resolved(0, next, Some([]));
      if |comps| > 1 {
        FailsInPlace(v, next, comps[1..]);
      }
    }
  }
}
