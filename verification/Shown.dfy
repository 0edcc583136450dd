// What tree a disk shows: at most one, and none at all if a folder is in the wrong place.
module Shown {
  import opened Layout
  import opened Volume
  import opened Pruning
  import opened Disks

  ghost predicate ShowsTree(b: Disk) {
    exists u :: Shows(b, u)
  }

  ghost predicate Shows(b: Disk, u: Vol) {
    Rep(b, u) && Tree(u)
  }

  /* Directories that a disk cannot lose */

  // Every live folder of one table, but for those of `x`, stands in the same slot of the other.
  ghost predicate KeepsFolders(t: Table, u: Table, x: set<nat>) {
    forall j :: 1 <= j < TABLE_SIZE && Live(t[j]) && IsDir(t[j]) && t[j].cluster !in x ==> u[j] == t[j]
  }

  // A disk on which no folder of `v`, but for those of `x`, has been unhooked.
  ghost predicate KeepsAllFolders(v: Vol, b: Disk, x: set<nat>) {
    forall c :: c in v.tabs && c < DISK_CLUSTERS ==> KeepsFolders(v.tabs[c], Tab(b, c), x)
  }

  // Every tree that such a disk shows has all directories of `v` that are not below those of `x`,
  // whatever else it has.
  lemma {:induction false} FoldersStay(v: Vol, b: Disk, u: Vol, c: nat, x: set<nat>)
    requires Tree(v) && KeepsAllFolders(v, b, x) && Shows(b, u) && c in v.tabs
    requires forall a :: a in x ==> !Under(v, a, c)
    ensures c in u.tabs
    decreases if c in v.depth then v.depth[c] else 0
  {
    hide SlotOk, AsTable, AsFat, KeepsFolders;
    if c != ROOT_CLUSTER {
      assert DirOk(v, c);
      UnderSelf(v, c);
      FoldersStay(v, b, u, Parent(v, c), x);
      OwnerSlot(v, c);
      assert KeepsFolders(v.tabs[Parent(v, c)], u.tabs[Parent(v, c)], x);
      EntryLeads(v, u, v.own[c], x);
    }
  }

  // A live folder entry leads to a directory.
  lemma EntryLeads(v: Vol, u: Vol, s: Slot, x: set<nat>)
    requires Tree(u) && IsSlot(v, s) && IsSlot(u, s) && Live(Ent(v, s)) && IsDir(Ent(v, s)) && Ent(v, s).cluster !in x
    requires KeepsFolders(v.tabs[s.dir], u.tabs[s.dir], x)
    ensures Ent(v, s).cluster in u.tabs
  {
    hide IsChain, DirOk;
    assert Covered(u, s);
    assert SlotOk(u, s);
  }

  /* At most one tree */

  lemma SameTables(b: Disk, u: Vol, v: Vol)
    requires Shows(b, u) && Shows(b, v)
    ensures u.tabs == v.tabs && u.fat == v.fat
  {
    hide Tree, AsTable, AsFat;
    forall c | c in v.tabs
      ensures c in u.tabs
    {
      FoldersStay(v, b, u, c, {});
    }
    forall c | c in u.tabs
      ensures c in v.tabs
    {
      FoldersStay(u, b, v, c, {});
    }
  }

  lemma {:induction false} SameDepth(u: Vol, v: Vol, c: nat)
    requires Tree(u) && Tree(v) && u.tabs == v.tabs && c in u.tabs
    ensures u.depth[c] == v.depth[c]
    decreases u.depth[c]
  {
    hide SlotOk, DirOk;
    if c != ROOT_CLUSTER {
      ParentIsAbove(u, c);
      ParentIsAbove(v, c);
      SameDepth(u, v, Parent(u, c));
    }
  }

  lemma {:induction false} SameLinks(fat: FatMap, a: seq<nat>, b: seq<nat>, j: nat)
    requires IsChain(fat, a) && IsChain(fat, b) && a[0] == b[0] && j < |a|
    ensures j < |b| && a[j] == b[j]
    decreases j
  {
    hide Increasing;
    if j > 0 {
      SameLinks(fat, a, b, j - 1);
      assert Link(fat, a, j - 1) && Link(fat, b, j - 1) && Link(fat, a, j);
    }
  }

  // The map determines a chain from its first cluster.
  lemma SameChains(fat: FatMap, a: seq<nat>, b: seq<nat>)
    requires IsChain(fat, a) && IsChain(fat, b) && a[0] == b[0]
    ensures a == b
  {
    hide IsChain;
    SameLength(fat, a, b);
    SameLength(fat, b, a);
    forall j | 0 <= j < |a|
      ensures j < |b| && a[j] == b[j]
    {
      SameLinks(fat, a, b, j);
    }
  }

  lemma SameLength(fat: FatMap, a: seq<nat>, b: seq<nat>)
    requires IsChain(fat, a) && IsChain(fat, b) && a[0] == b[0]
    ensures |a| <= |b|
  {
    SameLinks(fat, a, b, |a| - 1);
  }

  lemma ChainOf(v: Vol, s: Slot)
    requires Tree(v) && s in v.chains
    ensures IsSlot(v, s) && IsChain(v.fat, v.chains[s]) && v.chains[s][0] == Ent(v, s).cluster
  {
    hide DirOk, IsChain;
    assert SlotOk(v, s);
    assert |v.chains[s]| > 0;
  }

  // A disk shows at most one tree.
  lemma OneTree(b: Disk, u: Vol, v: Vol)
    requires Shows(b, u) && Shows(b, v)
    ensures u == v
  {
    hide SlotOk, DirOk, AsTable, AsFat, Rep, IsChain, KeysOk, Covered, CellOk;
    SameTables(b, u, v);
    forall c | c in u.tabs
      ensures u.depth[c] == v.depth[c]
    {
      SameDepth(u, v, c);
    }
    forall s
      ensures s in u.chains <==> s in v.chains
      ensures s in u.chains ==> u.chains[s] == v.chains[s]
    {
      LiveSlot(u, s);
      LiveSlot(v, s);
      if s in u.chains {
        ChainOf(u, s);
        ChainOf(v, s);
        SameChains(u.fat, u.chains[s], v.chains[s]);
      }
    }
    assert u.depth == v.depth && u.chains == v.chains;
    forall k
      ensures k in u.own <==> k in v.own
      ensures k in u.own && k in v.own ==> u.own[k] == v.own[k]
    {
      SameOwner(u, v, k);
      SameOwner(v, u, k);
    }
    assert u.own == v.own;
  }

  lemma SameOwner(u: Vol, v: Vol, k: nat)
    requires Tree(u) && Tree(v) && u.chains == v.chains
    ensures k in u.own ==> k in v.own && v.own[k] == u.own[k]
  {
    hide Tree;
    if k in u.own {
      OwnerLives(u, k);
      OwnedIsChain(u, u.own[k], k);
      OwnedIsChain(v, u.own[k], k);
    }
  }
}
