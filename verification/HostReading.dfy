// The read of the host tool: the kernel's, but the copy stops when no whole cluster fits any more.
module HostReading {
  import opened Layout
  import opened Volume
  import opened Allocation
  import opened Disks
  import opened Operations
  import opened Reading
  import opened Runs
  import opened FatDriver
  import Simulation

  // How many clusters of a chain of `n` go into a buffer of `size` bytes.
  function Transferred(n: nat, size: nat): (m: nat)
    ensures m <= n && CLUSTER_SIZE * m <= size
    ensures m == n || size < CLUSTER_SIZE * (m + 1)
  {
    if n <= size / CLUSTER_SIZE then n else size / CLUSTER_SIZE
  }

  // Copy the chain that starts at `first`, cluster by cluster, while whole clusters fit.
  method ReadChain(driver: Driver, first: nat, size: nat, out: array<Byte>, ghost cs: seq<nat>)
    requires driver.Shape() && out != driver.device.image && out as object != driver.fatTable as object
    requires IsChain(driver.fatTable[..], cs) && InRange(cs) && first == cs[0]
    requires CLUSTER_SIZE <= size <= out.Length
    modifies out
    ensures var m := Transferred(|cs|, size);
      out[..] == Gather(driver.Content(), cs[..m]) + old(out[CLUSTER_SIZE * m..])
  {
    hide Clusters, Increasing, Filling, Spliced, Gather, Transferred;
    ghost var d, fat: FatMap, before := driver.Content(), driver.fatTable[..], out[..];
    ghost var m := Transferred(|cs|, size);
    ghost var part := cs[..m];
    var clusterNumber := first;
    var fragmentCtr := 0;
    var left := size;
    FillingEnds(d, part, before);
    var more := true;
    while more
      invariant 0 <= fragmentCtr <= m && (more <==> fragmentCtr < m)
      invariant more ==> clusterNumber == cs[fragmentCtr]
      invariant left == size - CLUSTER_SIZE * fragmentCtr
      invariant driver.fatTable[..] == fat && driver.Content() == d
      invariant out[..] == Filling(d, part, fragmentCtr, before)
      decreases m - fragmentCtr
    {
      assert Link(fat, cs, fragmentCtr);
      assert fragmentCtr + 1 < |cs| ==> Link(fat, cs, fragmentCtr + 1);
      FillingGrows(d, part, fragmentCtr, before);
      driver.ReadFragment(clusterNumber, out, CLUSTER_SIZE * fragmentCtr);
      clusterNumber := driver.fatTable[clusterNumber];
      fragmentCtr := fragmentCtr + 1;
      left := left - CLUSTER_SIZE;
      more := clusterNumber != END_OF_FILE && left >= CLUSTER_SIZE;
    }
    FillingEnds(d, part, before);
  }

  // What the caller's buffer holds of a file after `m` clusters: a prefix, and the old bytes behind.
  ghost predicate Delivered(file: seq<Byte>, m: nat, before: seq<Byte>, after: seq<Byte>) {
    && CLUSTER_SIZE * m <= |before| && |after| == |before|
    && after[CLUSTER_SIZE * m..] == before[CLUSTER_SIZE * m..]
    && forall k :: 0 <= k < CLUSTER_SIZE * m && k < |file| ==> after[k] == file[k]
  }

  // Read a file into a buffer that is as long as the request says, or longer.
  method Read(driver: Driver, req: Request, out: array<Byte>, now: Stamp) returns (code: int)
    requires driver.Intact() && req.size <= out.Length
    requires out != driver.device.image && out as object != driver.fatTable as object
    requires out as object != driver.dirTableBuf as object
    requires Allowed(driver.Content(), driver.vol, Op.Read(req, now))
    modifies driver`vol, driver.device, driver.device.image, driver.fatTable, driver.dirTableBuf, out
    ensures driver.Intact() && (old(driver.Valid()) ==> driver.Valid())
    ensures driver.vol == old(StepVol(driver.Content(), driver.vol, Op.Read(req, now)))
    ensures driver.Content() == old(StepDisk(driver.Content(), driver.vol, Op.Read(req, now)))
    ensures code == old(Simulation.CallCode(driver.Content(), driver.vol, Op.Read(req, now)))
    ensures old(Tab(driver.Content(), req.parent)[0].attribute) != 0x10 ==> code == -1
    ensures code != 0 ==> out[..] == old(out[..])
    ensures code == 0 ==> old(FileAt(driver.Content(), driver.vol, FileName(req.parent, req.name, req.ext))).Some?
    ensures code == 0 ==>
      var file := old(FileAt(driver.Content(), driver.vol, FileName(req.parent, req.name, req.ext))).value;
      Delivered(file, Transferred(Blocks(|file|), req.size), old(out[..]), out[..])
  {
    hide Inv, Tree, Rep, Formatted, AsFat, AsTable, StepVol, StepDisk, StepLog, IsChain, First, FirstFrom;
    hide EncodeTable, EncodeFat, FileAt, Gather, InRange, Accessed, Blocks, Transferred;
    ghost var op, f := Op.Read(req, now), FileName(req.parent, req.name, req.ext);
    ghost var d, v := driver.Content(), driver.vol;
    StepSafe(d, v, op);
    driver.LoadTable(req.parent);
    ghost var t: Table := driver.dirTableBuf[..];
    if req.size < CLUSTER_SIZE || !IsDir(driver.dirTableBuf[0]) {
      if IsDir(driver.dirTableBuf[0]) {
        UnreadOutcome(d, v, op);
      }
      return -1;
    }
    var i;
    code, i := driver.FindFile(req);
    if i == TABLE_SIZE {
      UnreadOutcome(d, v, op);
      return;
    }
    var slot := driver.dirTableBuf[i];
    if req.size < slot.filesize {
      UnreadOutcome(d, v, op);
      return 2;
    }
    driver.LoadFat();
    driver.dirTableBuf[i] := Accessed(slot, now);
    ReadOutcome(d, v, op);
    assert driver.dirTableBuf[..] == t[i := Accessed(t[i], now)];
    driver.StoreTable(req.parent);
    ghost var cs := v.chains[Slot(req.parent, i)];
    ReadChain(driver, slot.cluster, req.size, out, cs);
    FileLength(d, v, f, cs);
    PrefixDelivered(driver.Content(), cs, Transferred(|cs|, req.size), FileAt(d, v, f).value, old(out[..]), out[..]);
    driver.vol := StepVol(d, v, op);
    code := 0;
  }

  lemma FileLength(d: Disk, v: Vol, f: FileName, cs: seq<nat>)
    requires Tree(v) && FileAt(d, v, f).Some? && First(v.tabs[f.dir], FileKey(f.name, f.ext)) < TABLE_SIZE
    requires Slot(f.dir, First(v.tabs[f.dir], FileKey(f.name, f.ext))) in v.chains
    requires cs == v.chains[Slot(f.dir, First(v.tabs[f.dir], FileKey(f.name, f.ext)))]
    ensures |cs| == Blocks(|FileAt(d, v, f).value|)
  {
    hide IsChain, DirOk, First;
    var s := Slot(f.dir, First(v.tabs[f.dir], FileKey(f.name, f.ext)));
    assert SlotOk(v, s);
  }

  lemma {:induction false} PrefixDelivered(d: Disk, cs: seq<nat>, m: nat, file: seq<Byte>, before: seq<Byte>,
      after: seq<Byte>)
    requires InRange(cs) && m <= |cs| && CLUSTER_SIZE * m <= |before|
    requires file <= Gather(d, cs) && after == Gather(d, cs[..m]) + before[CLUSTER_SIZE * m..]
    ensures Delivered(file, m, before, after)
  {
    GatherPrefix(d, cs, m);
    assert Gather(d, cs)[..CLUSTER_SIZE * m] == Gather(d, cs[..m]);
  }

  lemma {:induction false} GatherPrefix(d: Disk, cs: seq<nat>, m: nat)
    requires InRange(cs) && m <= |cs|
    ensures Gather(d, cs[..m]) <= Gather(d, cs)
    decreases |cs|
  {
    if m < |cs| {
      GatherPrefix(d, cs[..|cs| - 1], m);
      assert cs[..|cs| - 1][..m] == cs[..m];
    } else {
      assert cs[..m] == cs;
    }
  }

  // Host and kernel copy the same exactly when the request has room for the whole clusters of the
  // file; otherwise the host leaves out the last cluster, and only that.
  lemma HostAgrees(length: nat, size: nat)
    requires CLUSTER_SIZE <= size && 0 < length <= size
    ensures Transferred(Blocks(length), size) == Blocks(length) <==> CLUSTER_SIZE * Blocks(length) <= size
    ensures Transferred(Blocks(length), size) + 1 >= Blocks(length)
    ensures Transferred(Blocks(length), size) < Blocks(length) ==>
      length - CLUSTER_SIZE < CLUSTER_SIZE * Transferred(Blocks(length), size) < length
  {
    hide Transferred, Blocks;
    BlocksBound(length);
  }
}
