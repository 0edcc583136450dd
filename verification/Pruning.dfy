// Taking a slot out of the tree, with everything that hangs from it.
module Pruning {
  import opened Layout
  import opened Volume

  // The slots with a chain are the live ones.
  lemma LiveSlot(v: Vol, s: Slot)
    requires Tree(v)
    ensures s in v.chains <==> IsSlot(v, s) && Live(Ent(v, s))
    ensures s in v.chains ==> |v.chains[s]| > 0
  {
    hide DirOk;
    assert Covered(v, s);
    if s in v.chains {
      assert SlotOk(v, s);
    }
  }

  /* What hangs from a directory */

  // Directory `c` is `k` or lies below it.
  ghost predicate Under(v: Vol, k: nat, c: nat)
    requires Tree(v) && c in v.tabs
    decreases v.depth[c]
  {
    c == k || (c != ROOT_CLUSTER && (ParentIsAbove(v, c); Under(v, k, Parent(v, c))))
  }

  lemma {:induction false} UnderIsDeeper(v: Vol, k: nat, c: nat)
    requires Tree(v) && c in v.tabs && k in v.tabs && Under(v, k, c)
    ensures v.depth[c] >= v.depth[k]
    decreases v.depth[c]
  {
    hide SlotOk, DirOk;
    if c != k {
      ParentIsAbove(v, c);
      UnderIsDeeper(v, k, Parent(v, c));
    }
  }

  lemma {:induction false} UnderStep(v: Vol, k: nat, c: nat)
    requires Tree(v) && c in v.tabs && k in v.tabs && c != k && c != ROOT_CLUSTER
    ensures Parent(v, c) in v.tabs && v.depth[c] == v.depth[Parent(v, c)] + 1
    ensures Under(v, k, c) <==> Under(v, k, Parent(v, c))
  {
    hide SlotOk, DirOk;
    ParentIsAbove(v, c);
  }

  lemma {:induction false} UnderSelf(v: Vol, k: nat)
    requires Tree(v) && k in v.tabs
    ensures Under(v, k, k)
  {
  }

  lemma {:induction false} UnderRoot(v: Vol, k: nat)
    requires Tree(v) && k != ROOT_CLUSTER
    ensures ROOT_CLUSTER in v.tabs && !Under(v, k, ROOT_CLUSTER)
  {
  }

  // A folder is not above the directory it is in.
  lemma {:induction false} UnderNotParent(v: Vol, s: Slot)
    requires Tree(v) && s in v.chains && IsSlot(v, s) && IsDir(Ent(v, s))
    ensures Ent(v, s).cluster in v.tabs && !Under(v, Ent(v, s).cluster, s.dir)
  {
    hide SlotOk, DirOk, Under;
    var k := Ent(v, s).cluster;
    FolderSlot(v, s);
    ParentIsAbove(v, k);
    if Under(v, k, s.dir) {
      UnderIsDeeper(v, k, s.dir);
    }
  }

  // Directory `c` hangs from slot `s`.
  ghost predicate HangsFrom(v: Vol, s: Slot, c: nat)
    requires Tree(v)
  {
    c in v.tabs && IsSlot(v, s) && IsDir(Ent(v, s)) && Under(v, Ent(v, s).cluster, c)
  }

  // Slot `q` is `s` or lies below it.
  ghost predicate GoesWith(v: Vol, s: Slot, q: Slot)
    requires Tree(v)
  {
    q == s || HangsFrom(v, s, q.dir)
  }

  /* Cutting */

  ghost predicate SlotCut(t: Table, u: Table, i: nat) {
    && SameHeader(u[0], t[0])
    && forall j :: 1 <= j < TABLE_SIZE ==> if j == i then !Live(u[j]) else u[j] == t[j]
  }

  ghost predicate TablesCut(v: Vol, w: Vol, s: Slot)
    requires Tree(v)
  {
    && (forall c :: c in w.tabs <==> c in v.tabs && !HangsFrom(v, s, c))
    && (forall c :: c in w.tabs ==> if c == s.dir then SlotCut(v.tabs[c], w.tabs[c], s.index)
      else w.tabs[c] == v.tabs[c])
    && w.depth.Keys == w.tabs.Keys && forall c :: c in w.depth && c in v.depth ==> w.depth[c] == v.depth[c]
  }

  ghost predicate ChainsCut(v: Vol, w: Vol, s: Slot)
    requires Tree(v)
  {
    && (forall q :: q in w.chains <==> q in v.chains && !GoesWith(v, s, q))
    && (forall q :: q in w.chains ==> w.chains[q] == v.chains[q])
  }

  ghost predicate OwnersCut(v: Vol, w: Vol, s: Slot)
    requires Tree(v)
  {
    && (forall k :: k in w.own <==> k in v.own && !GoesWith(v, s, v.own[k]))
    && (forall k :: k in w.own ==> w.own[k] == v.own[k])
  }

  // The map is the same for what stays.
  ghost predicate CellsCut(v: Vol, w: Vol) {
    && (forall k :: 0 <= k < 3 ==> w.fat[k] == v.fat[k])
    && (forall k :: k in w.own && k < CLUSTER_MAP_SIZE ==> w.fat[k] == v.fat[k])
  }

  // `w` is `v` without slot `s` and all that hangs from it.
  ghost predicate IsCut(v: Vol, w: Vol, s: Slot) {
    && Tree(v) && s in v.chains && IsSlot(v, s)
    && TablesCut(v, w, s) && ChainsCut(v, w, s) && OwnersCut(v, w, s) && CellsCut(v, w)
  }

  lemma CutKeepsDirs(v: Vol, s: Slot)
    requires Tree(v) && s in v.chains && IsSlot(v, s)
    ensures ROOT_CLUSTER in v.tabs && !HangsFrom(v, s, ROOT_CLUSTER) && !HangsFrom(v, s, s.dir)
  {
    hide SlotOk, DirOk, Under, Base;
    if IsDir(Ent(v, s)) {
      FolderSlot(v, s);
      UnderRoot(v, Ent(v, s).cluster);
      UnderNotParent(v, s);
    }
    RootThere(v);
  }

  lemma RootThere(v: Vol)
    requires Tree(v)
    ensures ROOT_CLUSTER in v.tabs
  {
  }

  // The folder that a slot names hangs from `s` exactly when the slot goes with `s`.
  lemma FolderGoesWith(v: Vol, s: Slot, q: Slot)
    requires Tree(v) && s in v.chains && q in v.chains && IsSlot(v, s) && IsSlot(v, q) && IsDir(Ent(v, q))
    ensures HangsFrom(v, s, Ent(v, q).cluster) <==> GoesWith(v, s, q)
  {
    hide SlotOk, DirOk, Under;
    var c := Ent(v, q).cluster;
    FolderSlot(v, q);
    if IsDir(Ent(v, s)) {
      FolderSlot(v, s);
      UnderSelf(v, Ent(v, s).cluster);
      if c != Ent(v, s).cluster {
        UnderStep(v, Ent(v, s).cluster, c);
      }
    }
  }

  lemma CutSlots(v: Vol, w: Vol, s: Slot)
    requires IsCut(v, w, s)
    ensures forall q {:trigger SlotOk(w, q)} :: q in w.chains ==> SlotOk(w, q)
  {
    hide Blocks, IsChain, Distinct, HangsFrom;
    forall q {:trigger SlotOk(w, q)} | q in w.chains
      ensures SlotOk(w, q)
    {
      assert SlotOk(v, q);
      forall k | k in v.chains[q]
        ensures k in w.own
      {
        assert k in v.own && v.own[k] == q;
      }
      if IsDir(Ent(v, q)) {
        FolderGoesWith(v, s, q);
      }
      SlotFrame(v, w, q);
    }
  }

  lemma CutDirs(v: Vol, w: Vol, s: Slot)
    requires IsCut(v, w, s)
    ensures forall c {:trigger DirOk(w, c)} :: c in w.tabs ==> DirOk(w, c)
  {
    hide Blocks, IsChain, Distinct, HangsFrom, GoesWith, SlotOk;
    CutKeepsDirs(v, s);
    forall c {:trigger DirOk(w, c)} | c in w.tabs
      ensures DirOk(w, c)
    {
      assert DirOk(v, c);
      if c != ROOT_CLUSTER {
        OwnerSlot(v, c);
        FolderGoesWith(v, s, v.own[c]);
        CutOwner(v, w, s, c);
      }
      DirFrame(v, w, c);
    }
  }

  lemma CutOwner(v: Vol, w: Vol, s: Slot, c: nat)
    requires IsCut(v, w, s) && c in w.tabs && c != ROOT_CLUSTER && c in v.own && v.own[c] in v.chains
    requires IsSlot(v, v.own[c])
    requires !GoesWith(v, s, v.own[c])
    ensures c in w.own && v.own[c] in w.chains && IsSlot(w, v.own[c]) && Ent(w, v.own[c]) == Ent(v, v.own[c])
    ensures v.own[c].dir in w.tabs
  {
    hide Tree;
  }

  lemma CutCells(v: Vol, w: Vol, s: Slot)
    requires IsCut(v, w, s)
    ensures forall k {:trigger CellOk(w, k)} :: k in w.own ==> CellOk(w, k)
    ensures forall q {:trigger Covered(w, q)} :: Covered(w, q)
    ensures forall c {:trigger KeysOk(w, c)} :: c in w.tabs ==> KeysOk(w, c)
    ensures Base(w)
  {
    hide Blocks, IsChain, SlotOk, DirOk, HangsFrom;
    CutKeepsDirs(v, s);
    forall k {:trigger CellOk(w, k)} | k in w.own
      ensures CellOk(w, k)
    {
      assert CellOk(v, k);
    }
    forall q {:trigger Covered(w, q)}
      ensures Covered(w, q)
    {
      assert Covered(v, q);
    }
    forall c {:trigger KeysOk(w, c)} | c in w.tabs
      ensures KeysOk(w, c)
    {
      assert KeysOk(v, c);
    }
  }

  // What is left is a tree.
  lemma CutKeepsTree(v: Vol, w: Vol, s: Slot)
    requires IsCut(v, w, s)
    ensures Tree(w)
  {
    hide SlotOk, DirOk, Covered, CellOk, KeysOk, Base, TablesCut, ChainsCut, OwnersCut, CellsCut;
    CutSlots(v, w, s);
    CutDirs(v, w, s);
    CutCells(v, w, s);
  }

  // The tree without `s`, when the table that held it has become `t` and the map `fat`.
  ghost function Severed(v: Vol, s: Slot, t: Table, fat: FatMap): Vol
    requires Tree(v)
  {
    Vol(fat,
        map c | c in v.tabs && !HangsFrom(v, s, c) :: if c == s.dir then t else v.tabs[c],
        map c | c in v.depth && !HangsFrom(v, s, c) :: v.depth[c],
        map q | q in v.chains && !GoesWith(v, s, q) :: v.chains[q],
        map k | k in v.own && !GoesWith(v, s, v.own[k]) :: v.own[k])
  }

  lemma CutIs(v: Vol, s: Slot, t: Table, fat: FatMap)
    requires Tree(v) && s in v.chains && IsSlot(v, s) && SlotCut(v.tabs[s.dir], t, s.index)
    requires forall k :: 0 <= k < CLUSTER_MAP_SIZE && (k in v.own ==> v.own[k] != s) ==> fat[k] == v.fat[k]
    ensures IsCut(v, Severed(v, s, t, fat), s)
  {
    hide SlotOk, DirOk, HangsFrom, Covered, CellOk, KeysOk, SlotCut;
    CutKeepsDirs(v, s);
    forall k | 0 <= k < 3
      ensures k !in v.own
    {
      if k in v.own {
        OwnedCell(v, k);
      }
    }
  }

  /* Removing: the slot becomes zero and its clusters free */

  lemma EmptiedHeader(t: Table, i: nat)
    requires 1 <= i < TABLE_SIZE
    ensures SameHeader(Emptied(t, i)[0], t[0]) && SlotCut(t, Emptied(t, i), i)
  {
  }

  lemma EmptiedTable(t: Table, i: nat)
    requires 1 <= i < TABLE_SIZE
    requires TableOk(t) && Live(t[i])
    ensures TableOk(Emptied(t, i))
  {
  }

  // The volume after slot `s` has been emptied and its chain freed, whatever hangs from it.
  ghost function Pruned(v: Vol, s: Slot): Vol
    requires Tree(v) && IsSlot(v, s) && s in v.chains
  {
    Severed(v, s, Emptied(v.tabs[s.dir], s.index), Freed(v.fat, v.chains[s]))
  }

  // The clusters that a slot owns are those of its chain.
  lemma OwnedIsChain(v: Vol, s: Slot, k: nat)
    requires Tree(v) && s in v.chains
    ensures k in v.chains[s] <==> k in v.own && v.own[k] == s
  {
    hide IsChain, DirOk;
    assert SlotOk(v, s);
    if k in v.own {
      assert CellOk(v, k);
    }
  }

  // Removing any slot leaves a tree.
  lemma PrunedKeepsTree(v: Vol, s: Slot)
    requires Tree(v) && IsSlot(v, s) && s in v.chains
    ensures IsCut(v, Pruned(v, s), s) && Tree(Pruned(v, s))
  {
    hide Tree, Emptied, Severed, SlotCut;
    EmptiedHeader(v.tabs[s.dir], s.index);
    forall k | 0 <= k < CLUSTER_MAP_SIZE && (k in v.own ==> v.own[k] != s)
      ensures k !in v.chains[s]
    {
      OwnedIsChain(v, s, k);
    }
    CutIs(v, s, Emptied(v.tabs[s.dir], s.index), Freed(v.fat, v.chains[s]));
    CutKeepsTree(v, Pruned(v, s), s);
  }

  // Nothing hangs from the slot.
  ghost predicate IsLeaf(v: Vol, s: Slot) {
    IsSlot(v, s) && IsDir(Ent(v, s)) && Ent(v, s).cluster in v.tabs ==> !HasLive(v.tabs[Ent(v, s).cluster])
  }

  // A folder whose flag is clear has no entry, as long as the flags are exact.
  lemma ClearFlagIsLeaf(v: Vol, s: Slot)
    requires Inv(v) && IsSlot(v, s) && Ent(v, s).cluster in v.tabs
    requires v.tabs[Ent(v, s).cluster][0].userAttribute != UATTR_NOT_EMPTY
    ensures IsLeaf(v, s)
  {
    hide SlotOk, DirOk;
    assert CleanOk(v, Ent(v, s).cluster);
  }

  // What a removal does field by field when nothing hangs from the slot.
  ghost predicate Removed(v: Vol, w: Vol, s: Slot) {
    && Tree(v) && s in v.chains && IsSlot(v, s) && |v.chains[s]| > 0 && IsLeaf(v, s)
    && var cs := v.chains[s];
    && var gone := if IsDir(Ent(v, s)) then {cs[0]} else {};
    && w.fat == Freed(v.fat, cs)
    && w.tabs == v.tabs[s.dir := Emptied(v.tabs[s.dir], s.index)] - gone
    && w.depth == v.depth - gone
    && w.chains == v.chains - {s}
    && w.own == v.own - (set k | k in cs)
  }

  lemma {:induction false} LeafUnder(v: Vol, k: nat, c: nat)
    requires Tree(v) && k in v.tabs && c in v.tabs && !HasLive(v.tabs[k])
    ensures Under(v, k, c) <==> c == k
    decreases v.depth[c]
  {
    hide SlotOk, DirOk;
    if c != k && c != ROOT_CLUSTER {
      UnderStep(v, k, c);
      LeafUnder(v, k, Parent(v, c));
      OwnerSlot(v, c);
    }
  }

  lemma LeafHangs(v: Vol, s: Slot)
    requires Tree(v) && s in v.chains && IsSlot(v, s) && IsLeaf(v, s)
    ensures forall c :: HangsFrom(v, s, c) <==> IsDir(Ent(v, s)) && c == Ent(v, s).cluster
    ensures forall q :: q in v.chains ==> (GoesWith(v, s, q) <==> q == s)
    ensures IsDir(Ent(v, s)) ==> v.chains[s] == [Ent(v, s).cluster] && Ent(v, s).cluster in v.tabs
    ensures IsDir(Ent(v, s)) ==> Ent(v, s).cluster != s.dir
  {
    hide SlotOk, DirOk, Base, Under;
    if IsDir(Ent(v, s)) {
      var k := Ent(v, s).cluster;
      FolderSlot(v, s);
      forall c | c in v.tabs
        ensures Under(v, k, c) <==> c == k
      {
        LeafUnder(v, k, c);
      }
      forall q | q in v.chains
        ensures q.dir != k
      {
        LiveSlot(v, q);
      }
    }
  }

  lemma LeafRemoved(v: Vol, s: Slot)
    requires Tree(v) && s in v.chains && IsSlot(v, s) && IsLeaf(v, s)
    ensures Removed(v, Pruned(v, s), s)
  {
    hide SlotOk, DirOk, HangsFrom, GoesWith, Emptied, Freed, IsLeaf, CellOk, KeysOk, Covered;
    LiveSlot(v, s);
    LeafHangs(v, s);
    var w, cs := Pruned(v, s), v.chains[s];
    var gone := if IsDir(Ent(v, s)) then {cs[0]} else {};
    assert w.tabs == v.tabs[s.dir := Emptied(v.tabs[s.dir], s.index)] - gone;
    assert w.depth == v.depth - gone;
    assert w.chains == v.chains - {s};
    forall k | k in v.own
      ensures GoesWith(v, s, v.own[k]) <==> k in cs
    {
      OwnedIsChain(v, s, k);
      OwnerLives(v, k);
    }
    assert w.own == v.own - (set k | k in cs);
  }

  lemma OwnerLives(v: Vol, k: nat)
    requires Tree(v) && k in v.own
    ensures v.own[k] in v.chains
  {
    hide SlotOk, DirOk;
    assert CellOk(v, k);
  }

  lemma RemovedIsRemove(v: Vol, w: Vol, s: Slot)
    requires Removed(v, w, s)
    ensures w == Pruned(v, s)
  {
    hide Tree, Pruned, Emptied, Freed, IsLeaf;
    LeafRemoved(v, s);
  }

  // Removing a slot from which nothing hangs keeps the invariant and leaks nothing.
  lemma RemovedKeepsInv(v: Vol, w: Vol, s: Slot)
    requires Removed(v, w, s)
    ensures Tree(w) && (Inv(v) ==> Inv(w))
    ensures NoLeak(v) ==> NoLeak(w)
  {
    hide SlotOk, DirOk, Base, Covered, CellOk, KeysOk, Pruned, IsLeaf, IsChain;
    RemovedIsRemove(v, w, s);
    PrunedKeepsTree(v, s);
    if Inv(v) {
      LiveSlot(v, s);
      CleanTable(v, s.dir);
      EmptiedTable(v.tabs[s.dir], s.index);
      CleanFrame(v, w);
    }
  }

  lemma RemovedIsLeaf(v: Vol, w: Vol, s: Slot)
    requires Removed(v, w, s)
    ensures IsDir(Ent(v, s)) ==>
      var k := v.chains[s][0];
      && v.chains[s] == [k] && k == Ent(v, s).cluster && k in v.tabs && k != ROOT_CLUSTER && k != s.dir
      && !HasLive(v.tabs[k])
    ensures !IsDir(Ent(v, s)) ==> forall c :: c in v.tabs ==> c !in v.chains[s]
  {
    hide Blocks, IsChain, HasLive;
    assert SlotOk(v, s);
    if IsDir(Ent(v, s)) {
      FolderSlot(v, s);
    } else {
      forall c | c in v.tabs
        ensures c !in v.chains[s]
      {
        assert DirOk(v, c);
        if c in v.chains[s] {
          ChainCell(v.fat, v.chains[s], c);
        }
      }
    }
  }

  // Removing a folder leaks clusters exactly when something is in it.
  lemma PrunedLeaks(v: Vol, s: Slot)
    requires Tree(v) && NoLeak(v) && s in v.chains && IsSlot(v, s) && IsDir(Ent(v, s))
    ensures Ent(v, s).cluster in v.tabs
    ensures NoLeak(Pruned(v, s)) <==> !HasLive(v.tabs[Ent(v, s).cluster])
  {
    hide SlotOk, DirOk, Base, Emptied, KeysOk, CellOk, Under;
    var k, w := Ent(v, s).cluster, Pruned(v, s);
    FolderSlot(v, s);
    if HasLive(v.tabs[k]) {
      var j :| 1 <= j < TABLE_SIZE && Live(v.tabs[k][j]);
      var q := Slot(k, j);
      assert Covered(v, q);
      LiveSlot(v, q);
      var c := v.chains[q][0];
      OwnedIsChain(v, q, c);
      OwnedIsChain(v, s, c);
      OwnedCell(v, c);
      UnderSelf(v, k);
      assert c !in w.own && w.fat[c] != 0;
    } else {
      LeafRemoved(v, s);
      RemovedKeepsInv(v, w, s);
    }
  }
}
