// Subtrees: the slots below a directory, and the entry of the directory through which each is reached.
module Subtrees {
  import opened Layout
  import opened Volume
  import opened Pruning

  // The directory directly below `k` on the way down to `c`.
  ghost function Toward(v: Vol, k: nat, c: nat): (m: nat)
    requires Tree(v) && c in v.tabs && c != k && Under(v, k, c)
    ensures m in v.tabs && m != ROOT_CLUSTER && Parent(v, m) == k
    ensures Under(v, m, c)
    decreases v.depth[c]
  {
    hide SlotOk, DirOk;
    ParentIsAbove(v, c);
    if Parent(v, c) == k then c else Toward(v, k, Parent(v, c))
  }

  // The index in the table of `k` through which the slot `q` is reached.
  ghost function Via(v: Vol, k: nat, q: Slot): nat
    requires Tree(v) && q.dir in v.tabs && Under(v, k, q.dir)
  {
    if q.dir == k then q.index
    else
      OwnerSlot(v, Toward(v, k, q.dir));
      v.own[Toward(v, k, q.dir)].index
  }

  // The slots at `s` and, if it names a folder, everywhere below it.
  ghost function Subtree(v: Vol, s: Slot): (r: set<Slot>)
    requires Tree(v)
  {
    set q | q in v.chains && Below(v, s, q)
  }

  ghost predicate Below(v: Vol, s: Slot, q: Slot)
    requires Tree(v)
  {
    || q == s
    || (IsSlot(v, s) && IsDir(Ent(v, s)) && q.dir in v.tabs && Under(v, Ent(v, s).cluster, q.dir))
  }

  // The slots below `k` that are reached through the entries before `i`.
  ghost function Earlier(v: Vol, k: nat, i: nat): (r: set<Slot>)
    requires Tree(v)
  {
    set q | q in v.chains && q.dir in v.tabs && Under(v, k, q.dir) && Via(v, k, q) < i
  }

  lemma {:induction false} TowardIs(v: Vol, k: nat, m: nat, c: nat)
    requires Tree(v) && m in v.tabs && m != ROOT_CLUSTER && Parent(v, m) == k && c in v.tabs && Under(v, m, c)
    ensures Under(v, k, c) && c != k && Toward(v, k, c) == m
    decreases v.depth[c]
  {
    hide SlotOk, DirOk;
    ParentIsAbove(v, m);
    UnderIsDeeper(v, m, c);
    if c != m {
      ParentIsAbove(v, c);
      TowardIs(v, k, m, Parent(v, c));
    } else {
      assert Under(v, k, k);
    }
  }

  // A slot is reached through entry `i` exactly when it belongs to the subtree of that entry.
  lemma {:induction false} ViaIs(v: Vol, k: nat, i: nat, q: Slot)
    requires Tree(v) && k in v.tabs && 1 <= i < TABLE_SIZE && q in v.chains && q.dir in v.tabs
    ensures Under(v, k, q.dir) && Via(v, k, q) == i <==> Slot(k, i) in v.chains && Below(v, Slot(k, i), q)
  {
    hide SlotOk, DirOk, Base;
    var s := Slot(k, i);
    LiveSlot(v, s);
    if Under(v, k, q.dir) && Via(v, k, q) == i && q.dir != k {
      OwnerSlot(v, Toward(v, k, q.dir));
    }
    if s in v.chains && Below(v, s, q) && q != s {
      FolderSlot(v, s);
      TowardIs(v, k, Ent(v, s).cluster, q.dir);
    }
  }

  lemma SlotDir(v: Vol, q: Slot)
    requires Tree(v) && q in v.chains
    ensures IsSlot(v, q)
  {
    hide DirOk, IsChain;
    assert SlotOk(v, q);
  }

  lemma EarlierStep(v: Vol, k: nat, i: nat)
    requires Tree(v) && k in v.tabs && 1 <= i < TABLE_SIZE
    ensures Earlier(v, k, i + 1) == Earlier(v, k, i) + (if Slot(k, i) in v.chains then Subtree(v, Slot(k, i)) else {})
    ensures Slot(k, i) in v.chains ==> Earlier(v, k, i) !! Subtree(v, Slot(k, i))
  {
    hide SlotOk, DirOk, Base, Under, Via, Below;
    forall q | q in v.chains && q.dir in v.tabs
      ensures Under(v, k, q.dir) && Via(v, k, q) == i <==> Slot(k, i) in v.chains && Below(v, Slot(k, i), q)
    {
      ViaIs(v, k, i, q);
    }
    forall q | q in v.chains
      ensures q.dir in v.tabs
    {
      SlotDir(v, q);
    }
  }

  lemma EarlierStarts(v: Vol, k: nat)
    requires Tree(v) && k in v.tabs
    ensures Earlier(v, k, 1) == {}
  {
    hide SlotOk, DirOk, Base, Under;
    forall q | q in v.chains && q.dir in v.tabs && Under(v, k, q.dir)
      ensures Via(v, k, q) >= 1
    {
      SlotDir(v, q);
      if q.dir != k {
        OwnerSlot(v, Toward(v, k, q.dir));
      }
    }
  }

  // A folder's subtree is its own slot and everything reached through its entries.
  lemma EarlierEnds(v: Vol, s: Slot)
    requires Tree(v) && s in v.chains && IsSlot(v, s) && IsDir(Ent(v, s))
    ensures Subtree(v, s) == {s} + Earlier(v, Ent(v, s).cluster, TABLE_SIZE)
    ensures s !in Earlier(v, Ent(v, s).cluster, TABLE_SIZE)
  {
    hide SlotOk, DirOk, Base, Under, Via;
    var k := Ent(v, s).cluster;
    FolderSlot(v, s);
    forall q | q in v.chains
      ensures q.dir in v.tabs && (Under(v, k, q.dir) ==> Via(v, k, q) < TABLE_SIZE)
    {
      SlotDir(v, q);
      if Under(v, k, q.dir) {
        ViaIsIndex(v, k, q);
      }
    }
    ParentIsAbove(v, k);
    if Under(v, k, s.dir) {
      UnderIsDeeper(v, k, s.dir);
    }
  }

  lemma {:induction false} ViaIsIndex(v: Vol, k: nat, q: Slot)
    requires Tree(v) && q in v.chains && q.dir in v.tabs && Under(v, k, q.dir)
    ensures 1 <= Via(v, k, q) < TABLE_SIZE
  {
    hide SlotOk, DirOk, Base, Under;
    SlotDir(v, q);
    if q.dir != k {
      OwnerSlot(v, Toward(v, k, q.dir));
    }
  }

  lemma SelfBelow(v: Vol, s: Slot)
    requires Tree(v) && s in v.chains
    ensures s in Subtree(v, s)
  {
    hide Tree;
  }

  lemma SubtreeLives(v: Vol, s: Slot, q: Slot)
    requires Tree(v) && q in Subtree(v, s)
    ensures q in v.chains
  {
    hide Tree, Below;
  }

  lemma {:induction false} UnderTrans(v: Vol, a: nat, b: nat, c: nat)
    requires Tree(v) && b in v.tabs && c in v.tabs && Under(v, a, b) && Under(v, b, c)
    ensures Under(v, a, c)
    decreases v.depth[c]
  {
    hide SlotOk, DirOk;
    if c != b && c != a {
      ParentIsAbove(v, c);
      UnderTrans(v, a, b, Parent(v, c));
    }
  }

  // What lies below something in a subtree lies in it.
  lemma SubtreeBelow(v: Vol, s: Slot, q: Slot)
    requires Tree(v) && s in v.chains && q in Subtree(v, s)
    ensures Subtree(v, q) <= Subtree(v, s) && (q != s ==> s !in Subtree(v, q))
  {
    hide SlotOk, DirOk, Base, Under;
    SlotDir(v, q);
    SlotDir(v, s);
    if q != s {
      FolderSlot(v, s);
      UnderNotParent(v, s);
      if IsDir(Ent(v, q)) {
        FolderSlot(v, q);
        UnderStep(v, Ent(v, s).cluster, Ent(v, q).cluster);
        UnderNotParent(v, q);
        forall f | f in Subtree(v, q)
          ensures f in Subtree(v, s) && f != s
        {
          SlotDir(v, f);
          if f != q {
            UnderTrans(v, Ent(v, s).cluster, Ent(v, q).cluster, f.dir);
          }
        }
      }
    }
  }

  // At most one entry of a directory has a slot in its subtree.
  lemma SameEntryAbove(v: Vol, k: nat, a: Slot, b: Slot, q: Slot)
    requires Tree(v) && k in v.tabs && q in v.chains && q.dir in v.tabs
    requires a in v.chains && b in v.chains && a.dir == k && b.dir == k
    requires q in Subtree(v, a) && q in Subtree(v, b)
    ensures a == b
  {
    hide Tree, Under, Via, Below;
    SlotDir(v, a);
    SlotDir(v, b);
    ViaIs(v, k, a.index, q);
    ViaIs(v, k, b.index, q);
  }
}
