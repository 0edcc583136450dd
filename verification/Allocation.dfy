// First-fit allocation: searching the cluster map for free cells and linking them into a chain.
module Allocation {
  import opened Layout
  import opened Volume

  // The first free cell at or after `i`, or CLUSTER_MAP_SIZE.
  function FirstFreeFrom(fat: FatMap, i: nat): (k: nat)
    requires i <= CLUSTER_MAP_SIZE
    ensures i <= k <= CLUSTER_MAP_SIZE
    ensures k < CLUSTER_MAP_SIZE ==> fat[k] == 0
    ensures forall j :: i <= j < k ==> fat[j] != 0
    decreases CLUSTER_MAP_SIZE - i
  {
    if i == CLUSTER_MAP_SIZE || fat[i] == 0 then i else FirstFreeFrom(fat, i + 1)
  }

  function FirstFree(fat: FatMap): nat {
    FirstFreeFrom(fat, 3)
  }

  function FreeCount(fat: FatMap, i: nat): nat
    requires i <= CLUSTER_MAP_SIZE
    decreases CLUSTER_MAP_SIZE - i
  {
    if i == CLUSTER_MAP_SIZE then 0 else (if fat[i] == 0 then 1 else 0) + FreeCount(fat, i + 1)
  }

  // The `n` smallest free clusters at or after `i`, in increasing order.
  function Smallest(fat: FatMap, n: nat, i: nat): (cs: seq<nat>)
    requires i <= CLUSTER_MAP_SIZE && n <= FreeCount(fat, i)
    ensures |cs| == n
    ensures forall j :: 0 <= j < n ==> i <= cs[j] < CLUSTER_MAP_SIZE && fat[cs[j]] == 0
    decreases CLUSTER_MAP_SIZE - i
  {
    if n == 0 then []
    else if fat[i] == 0 then [i] + Smallest(fat, n - 1, i + 1)
    else Smallest(fat, n, i + 1)
  }

  // Smallest really takes the least ones: it is increasing, and every free cluster that it leaves
  // out is larger than all those it takes.
  lemma {:induction false} SmallestIsLeast(fat: FatMap, n: nat, i: nat)
    requires i <= CLUSTER_MAP_SIZE && n <= FreeCount(fat, i)
    ensures Increasing(Smallest(fat, n, i))
    ensures forall j, k :: 0 <= j < n && i <= k < CLUSTER_MAP_SIZE && fat[k] == 0 && k !in Smallest(fat, n, i) ==>
      Smallest(fat, n, i)[j] < k
    decreases CLUSTER_MAP_SIZE - i
  {
    if n > 0 {
      if fat[i] == 0 {
        SmallestIsLeast(fat, n - 1, i + 1);
        var rest := Smallest(fat, n - 1, i + 1);
        assert Smallest(fat, n, i) == [i] + rest;
        forall j, k | 0 <= j < n && i <= k < CLUSTER_MAP_SIZE && fat[k] == 0 && k !in [i] + rest
          ensures ([i] + rest)[j] < k
        {
          assert k !in rest && k != i;
        }
      } else {
        SmallestIsLeast(fat, n, i + 1);
      }
    }
  }

  predicate InRange(cs: seq<nat>) {
    forall j :: 0 <= j < |cs| ==> 3 <= cs[j] < CLUSTER_MAP_SIZE
  }

  // The map after the clusters of `cs` have been linked one after the other.
  function Linked(fat: FatMap, cs: seq<nat>): FatMap
    requires InRange(cs)
  {
    if |cs| == 0 then fat
    else
      var n := |cs|;
      var before := Linked(fat, cs[..n - 1]);
      (if n == 1 then before else before[cs[n - 2] := cs[n - 1]])[cs[n - 1] := END_OF_FILE]
  }

  lemma {:induction false} LinkedIsChain(fat: FatMap, cs: seq<nat>)
    requires Increasing(cs) && InRange(cs)
    ensures |cs| > 0 ==> IsChain(Linked(fat, cs), cs)
    ensures forall k :: 0 <= k < CLUSTER_MAP_SIZE && k !in cs ==> Linked(fat, cs)[k] == fat[k]
  {
    var n := |cs|;
    if n > 0 {
      var init := cs[..n - 1];
      LinkedIsChain(fat, init);
      var before, after := Linked(fat, init), Linked(fat, cs);
      forall j | 0 <= j < n
        ensures Link(after, cs, j)
      {
        if j < n - 1 {
          assert Link(before, init, j);
          assert cs[j] < cs[n - 1];
          assert j < n - 2 ==> cs[j] < cs[n - 2];
        }
      }
      forall k | 0 <= k < CLUSTER_MAP_SIZE && k !in cs
        ensures after[k] == fat[k]
      {
        assert k !in init;
        assert k != cs[n - 1] && (n > 1 ==> k != cs[n - 2]);
      }
    }
  }

  lemma PrefixOf(cs: seq<nat>, j: nat, k: nat)
    requires Increasing(cs) && j < |cs| && k in cs
    ensures k in cs[..j] <==> k < cs[j]
  {
    var i :| 0 <= i < |cs| && cs[i] == k;
    if i < j {
      assert cs[..j][i] == k;
    }
  }

  // First fit finds the smallest free clusters one by one: with the first `j` of them linked, the
  // search returns the next one.
  lemma {:induction false} FirstFitIsSmallest(fat: FatMap, n: nat, j: nat)
    requires n <= FreeCount(fat, 3) && j < n
    ensures var cs := Smallest(fat, n, 3);
      FirstFree(Linked(fat, cs[..j])) == cs[j]
  {
    hide IsChain, Linked, Smallest, FreeCount;
    var cs := Smallest(fat, n, 3);
    SmallestIsLeast(fat, n, 3);
    assert Increasing(cs[..j]);
    LinkedIsChain(fat, cs[..j]);
    var linked := Linked(fat, cs[..j]);
    hide Increasing;
    forall k | 3 <= k < cs[j]
      ensures linked[k] != 0
    {
      if k in cs[..j] {
        ChainCell(linked, cs[..j], k);
      } else if k in cs {
        PrefixOf(cs, j, k);
      }
    }
    PrefixOf(cs, j, cs[j]);
  }

  // The loop of the driver's search agrees with FirstFree.
  method FindEmptyCluster(fatTable: array<U32>) returns (i: nat)
    requires fatTable.Length == CLUSTER_MAP_SIZE
    ensures i == FirstFree(fatTable[..])
  {
    i := 3;
    while i < CLUSTER_MAP_SIZE && fatTable[i] != 0
      invariant 3 <= i <= CLUSTER_MAP_SIZE
      invariant FirstFree(fatTable[..]) == FirstFreeFrom(fatTable[..], i)
    {
      i := i + 1;
    }
  }
}
