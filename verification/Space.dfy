// Conservation of space: the map cells in use are exactly those that the directories and the files
// account for.
module Space {
  import opened Layout
  import opened Volume
  import opened Allocation
  import opened Disks
  import opened Operations
  import opened Runs

  // Blocks of the files in slots at or after slot `i` of directory `c`, in table order.
  function FileBlocks(v: Vol, c: nat, i: nat): nat
    requires i <= TABLE_SIZE
    decreases CLUSTER_MAP_SIZE - c, TABLE_SIZE - i
  {
    if c >= CLUSTER_MAP_SIZE then 0
    else if c !in v.tabs || i == TABLE_SIZE then FileBlocks(v, c + 1, 1)
    else
      var e := v.tabs[c][i];
      (if Live(e) && !IsDir(e) then Blocks(e.filesize) else 0) + FileBlocks(v, c, i + 1)
  }

  predicate NotBefore(s: Slot, c: nat, i: nat) {
    s.dir > c || (s.dir == c && s.index >= i)
  }

  // Data cells whose owner is at or after that slot.
  ghost function FileCells(v: Vol, c: nat, i: nat): set<nat> {
    set k | k in v.own && k !in v.tabs && NotBefore(v.own[k], c, i)
  }

  ghost function CellsOf(v: Vol, s: Slot): set<nat> {
    set k | k in v.own && k !in v.tabs && v.own[k] == s
  }

  ghost function Elements(cs: seq<nat>): set<nat> {
    set k | k in cs
  }

  lemma ElementsSplit(cs: seq<nat>, n: nat)
    requires Increasing(cs) && |cs| == n + 1
    ensures Elements(cs) == Elements(cs[..n]) + {cs[n]} && cs[n] !in Elements(cs[..n])
  {
    assert cs == cs[..n] + [cs[n]];
    forall k | k in cs[..n]
      ensures k != cs[n]
    {
      var j :| 0 <= j < n && cs[..n][j] == k;
      assert cs[j] < cs[n];
    }
  }

  lemma {:induction false} SetOfChain(cs: seq<nat>)
    requires Increasing(cs)
    ensures |Elements(cs)| == |cs|
  {
    if |cs| > 0 {
      hide Elements;
      var n := |cs| - 1;
      SetOfChain(cs[..n]);
      ElementsSplit(cs, n);
    }
  }

  lemma CellsOfSlot(v: Vol, s: Slot)
    requires Tree(v) && IsSlot(v, s)
    ensures |CellsOf(v, s)| == if Live(Ent(v, s)) && !IsDir(Ent(v, s)) then Blocks(Ent(v, s).filesize) else 0
  {
    hide Blocks, Base;
    forall k | k in CellsOf(v, s)
      ensures s in v.chains && k in v.chains[s]
    {
      assert CellOk(v, k);
    }
    if s in v.chains {
      assert SlotOk(v, s);
      if IsDir(Ent(v, s)) {
        assert CellsOf(v, s) == {};
      } else {
        forall k | k in v.chains[s]
          ensures k in CellsOf(v, s)
        {
          ChainCell(v.fat, v.chains[s], k);
          assert k in v.tabs ==> DirOk(v, k);
        }
        assert CellsOf(v, s) == Elements(v.chains[s]);
        SetOfChain(v.chains[s]);
      }
    } else {
      assert Covered(v, s);
      assert CellsOf(v, s) == {};
    }
  }

  lemma OwnerIsSlot(v: Vol, k: nat)
    requires Tree(v) && k in v.own
    ensures IsSlot(v, v.own[k]) && v.own[k].dir < CLUSTER_MAP_SIZE
  {
    hide IsChain;
    assert CellOk(v, k) && SlotOk(v, v.own[k]);
    assert DirOk(v, v.own[k].dir);
  }

  lemma FileCellsSteps(v: Vol, c: nat, i: nat)
    requires Tree(v) && 1 <= i <= TABLE_SIZE
    ensures c >= CLUSTER_MAP_SIZE ==> FileCells(v, c, i) == {}
    ensures c !in v.tabs || i == TABLE_SIZE ==> FileCells(v, c, i) == FileCells(v, c + 1, 1)
    ensures i < TABLE_SIZE ==> FileCells(v, c, i) == CellsOf(v, Slot(c, i)) + FileCells(v, c, i + 1)
    ensures CellsOf(v, Slot(c, i)) !! FileCells(v, c, i + 1)
  {
    hide Tree;
    forall k | k in v.own
      ensures IsSlot(v, v.own[k]) && v.own[k].dir < CLUSTER_MAP_SIZE
    {
      OwnerIsSlot(v, k);
    }
  }

  // The data cells are counted by the sizes of the files.
  lemma {:induction false} FileCellsCount(v: Vol, c: nat, i: nat)
    requires Tree(v) && 1 <= i <= TABLE_SIZE
    ensures |FileCells(v, c, i)| == FileBlocks(v, c, i)
    decreases CLUSTER_MAP_SIZE - c, TABLE_SIZE - i
  {
    hide Tree, Blocks, FileCells, CellsOf;
    FileCellsSteps(v, c, i);
    if c >= CLUSTER_MAP_SIZE {
    } else if c !in v.tabs || i == TABLE_SIZE {
      FileCellsCount(v, c + 1, 1);
    } else {
      FileCellsCount(v, c, i + 1);
      CellsOfSlot(v, Slot(c, i));
    }
  }

  ghost function UsedCells(fat: FatMap, i: nat): set<nat> {
    set k: nat | i <= k < CLUSTER_MAP_SIZE && fat[k] != 0
  }

  lemma {:induction false} UsedAndFree(fat: FatMap, i: nat)
    requires i <= CLUSTER_MAP_SIZE
    ensures |UsedCells(fat, i)| + FreeCount(fat, i) == CLUSTER_MAP_SIZE - i
    decreases CLUSTER_MAP_SIZE - i
  {
    if i < CLUSTER_MAP_SIZE {
      UsedAndFree(fat, i + 1);
      assert UsedCells(fat, i) == UsedCells(fat, i + 1) + (if fat[i] != 0 then {i} else {});
    } else {
      assert UsedCells(fat, i) == {};
    }
  }

  lemma DirsAreOwned(v: Vol)
    requires Tree(v)
    ensures v.own.Keys == FileCells(v, 0, 1) + (v.tabs.Keys - {ROOT_CLUSTER})
    ensures FileCells(v, 0, 1) !! v.tabs.Keys
  {
    hide Blocks, IsChain;
    forall k | k in v.own
      ensures NotBefore(v.own[k], 0, 1) && k != ROOT_CLUSTER
    {
      OwnerIsSlot(v, k);
      OwnedCell(v, k);
    }
    forall c | c in v.tabs && c != ROOT_CLUSTER
      ensures c in v.own
    {
      assert DirOk(v, c);
    }
  }

  // The cells of the map in use are the three reserved ones, one for each directory but the root, and
  // ceil(size / 2048) for each file.
  lemma {:induction false} Conservation(v: Vol)
    requires Tree(v) && NoLeak(v)
    ensures |UsedCells(v.fat, 0)| == 3 + (|v.tabs| - 1) + FileBlocks(v, 0, 1)
    ensures FreeCount(v.fat, 3) == CLUSTER_MAP_SIZE - 3 - (|v.tabs| - 1) - FileBlocks(v, 0, 1)
  {
    hide SlotOk, DirOk, FileBlocks, FileCells, UsedCells;
    DirsAreOwned(v);
    FileCellsCount(v, 0, 1);
    UsedAndFree(v.fat, 3);
    UsedAreOwned(v);
    assert |v.tabs.Keys - {ROOT_CLUSTER}| == |v.tabs| - 1;
    ReservedAreUsed(v);
  }

  lemma UsedAreOwned(v: Vol)
    requires Tree(v) && NoLeak(v)
    ensures UsedCells(v.fat, 3) == v.own.Keys
  {
    hide SlotOk, DirOk;
    forall k | k in v.own
      ensures k in UsedCells(v.fat, 3)
    {
      OwnedCell(v, k);
    }
  }

  lemma ReservedAreUsed(v: Vol)
    requires Tree(v)
    ensures |UsedCells(v.fat, 0)| == 3 + |UsedCells(v.fat, 3)|
  {
    hide SlotOk;
    assert DirOk(v, ROOT_CLUSTER);
    assert UsedCells(v.fat, 0) == {0, 1, 2} + UsedCells(v.fat, 3);
  }

  // In every state of every run from a format, the map on disk has that many free cells.
  lemma ReachedSpace(d: Disk, now: Stamp, ops: seq<Op>)
    requires FromFormat(d, now, ops)
    ensures var (e, w) := Reached(d, now, ops);
      && Tree(w)
      && FreeCount(Fat(e), 3) == CLUSTER_MAP_SIZE - 3 - (|w.tabs| - 1) - FileBlocks(w, 0, 1)
  {
    hide FromFormat, Reached, Tree, FileBlocks, FreeCount, NoLeak;
    ReachableStates(d, now, ops);
    Conservation(Reached(d, now, ops).1);
  }
}
