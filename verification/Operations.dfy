// What each driver operation is meant to do: its return code, the cluster writes it issues and the
// volume it leaves, as functions of the disk before the call.
module Operations {
  import opened Layout
  import opened Volume
  import opened Allocation
  import opened Disks

  datatype Option<+T> = None | Some(value: T)

  // `size` is the buffer size of the request; a write of size 0 asks for a folder.
  datatype Request = Request(name: Name, ext: Ext, parent: U32, size: U32)

  // What the clock says during a call.
  datatype Stamp = Stamp(time: U16, date: U16)

  /* The abstract file system */

  datatype FileName = FileName(dir: nat, name: Name, ext: Ext)

  lemma ContentsFit(v: Vol, s: Slot)
    requires Tree(v) && s in v.chains
    ensures IsSlot(v, s)
    ensures forall j :: 0 <= j < |v.chains[s]| ==> v.chains[s][j] < CLUSTER_MAP_SIZE
    ensures !IsDir(Ent(v, s)) ==> Ent(v, s).filesize <= CLUSTER_SIZE * |v.chains[s]|
  {
    assert SlotOk(v, s);
    forall j | 0 <= j < |v.chains[s]|
      ensures v.chains[s][j] < CLUSTER_MAP_SIZE
    {
      assert Link(v.fat, v.chains[s], j);
    }
  }

  // The bytes of the file in slot `s`.
  ghost function Contents(d: Disk, v: Vol, s: Slot): seq<Byte>
    requires Tree(v) && s in v.chains
  {
    ContentsFit(v, s);
    var data := Gather(d, v.chains[s]);
    if Ent(v, s).filesize <= |data| then data[..Ent(v, s).filesize] else data
  }

  // The driver implements this map: from a directory, a name and an extension to contents.
  ghost function FileAt(d: Disk, v: Vol, f: FileName): Option<seq<Byte>>
    requires Tree(v)
  {
    if f.dir in v.tabs then
      var i := First(v.tabs[f.dir], FileKey(f.name, f.ext));
      if i < TABLE_SIZE then
        assert Covered(v, Slot(f.dir, i));
        Some(Contents(d, v, Slot(f.dir, i)))
      else None
    else None
  }

  // ... and this one: from a directory and a name to the directory of that name under it.
  function FolderAt(v: Vol, dir: nat, name: Name): Option<nat> {
    if dir in v.tabs then
      var i := First(v.tabs[dir], Folder(name));
      if i < TABLE_SIZE then Some(v.tabs[dir][i].cluster) else None
    else None
  }

  // A slot that does not match before and after an update does not change what a search finds.
  lemma FirstUnmoved(t: Table, u: Table, i: nat, p: Pattern)
    requires 1 <= i < TABLE_SIZE && forall j :: 1 <= j < TABLE_SIZE && j != i ==> u[j] == t[j]
    requires !Matches(t[i], p) && !Matches(u[i], p)
    ensures First(u, p) == First(t, p)
  {
    FirstIs(u, p, First(t, p));
  }

  // The only match is the first one.
  lemma FirstIsOnly(t: Table, i: nat, p: Pattern)
    requires 1 <= i < TABLE_SIZE && Matches(t[i], p)
    requires forall j :: 1 <= j < TABLE_SIZE && j != i ==> !Matches(t[j], p)
    ensures First(t, p) == i
  {
    FirstIs(t, p, i);
  }

  lemma FileAtFrame(d: Disk, e: Disk, v: Vol, w: Vol, f: FileName)
    requires Tree(v) && Tree(w)
    requires f.dir in v.tabs <==> f.dir in w.tabs
    requires f.dir in v.tabs ==>
      var i := First(v.tabs[f.dir], FileKey(f.name, f.ext));
      var s := Slot(f.dir, i);
      && First(w.tabs[f.dir], FileKey(f.name, f.ext)) == i
      && (i < TABLE_SIZE && s in v.chains ==>
            && s in w.chains && w.chains[s] == v.chains[s]
            && w.tabs[f.dir][i].filesize == v.tabs[f.dir][i].filesize
            && forall k :: k in v.chains[s] && k < CLUSTER_MAP_SIZE ==> e[k] == d[k])
    ensures FileAt(e, w, f) == FileAt(d, v, f)
  {
    if f.dir in v.tabs {
      var i := First(v.tabs[f.dir], FileKey(f.name, f.ext));
      if i < TABLE_SIZE {
        var s := Slot(f.dir, i);
        assert Covered(v, s);
        ContentsFit(v, s);
        GatherFrame(d, e, v.chains[s]);
      }
    }
  }

  /* write */

  function NewTable(name: Name, parent: U32, now: Stamp): (t: Table)
    ensures FreshTable(t, name, parent)
  {
    var header := ZERO_ENTRY.(
      name := name,
      times := ZERO_TIMES.(createTime := now.time, createDate := now.date),
      cluster := parent,
      attribute := ATTR_SUBDIRECTORY,
      undelete := 1);
    [header] + seq(TABLE_SIZE - 1, _ => ZERO_ENTRY)
  }

  function FolderEntry(req: Request, k: U32, now: Stamp): Entry {
    NewTable(req.name, req.parent, now)[0].(cluster := k)
  }

  function FileEntry(was: Entry, req: Request, k: U32, now: Stamp): Entry {
    was.(
      name := req.name,
      ext := req.ext,
      cluster := k,
      filesize := req.size,
      attribute := 0,
      userAttribute := UATTR_NOT_EMPTY,
      undelete := 1,
      times := was.times.(createTime := now.time, createDate := now.date))
  }

  // What makes a name taken: a live folder for a new folder, any live entry for a new file.
  function Taken(req: Request): Pattern {
    if req.size == 0 then Folder(req.name) else Key(req.name, req.ext)
  }

  function WriteCode(t: Table, req: Request): int {
    if !IsDir(t[0]) then 2 else if First(t, Taken(req)) < TABLE_SIZE then 1 else 0
  }

  // The driver counts the clusters of a buffer in eight bits.
  function Fragment(j: nat): (i: nat)
    ensures i <= j && i < 256 && (j < 256 ==> i == j)
  {
    j % 256
  }

  // The cluster of a buffer that goes to the `j`-th cluster of a chain.
  function Chunk(buf: seq<Byte>, j: nat): Cluster
    requires Holds(buf, j + 1)
  {
    buf[CLUSTER_SIZE * Fragment(j)..CLUSTER_SIZE * Fragment(j) + CLUSTER_SIZE]
  }

  // A buffer is as long as its size rounded up to whole clusters, or as the part that is ever read.
  predicate Holds(buf: seq<Byte>, n: nat) {
    |buf| >= CLUSTER_SIZE * (if n < 256 then n else 256)
  }

  // The first `n` clusters that the driver stores from a buffer.
  function Cut(buf: seq<Byte>, n: nat): (data: seq<Byte>)
    requires Holds(buf, n)
    ensures |data| == CLUSTER_SIZE * n
  {
    if n == 0 then [] else Cut(buf, n - 1) + Chunk(buf, n - 1)
  }

  // The contents of a file of `size` bytes written from `buf`.
  function Stored(buf: seq<Byte>, size: nat): seq<Byte>
    requires Holds(buf, Blocks(size))
  {
    Cut(buf, Blocks(size))[..size]
  }

  // Up to 256 clusters the stored data is the buffer.
  lemma {:induction false} CutIsPrefix(buf: seq<Byte>, n: nat)
    requires n <= 256 && |buf| >= CLUSTER_SIZE * n
    ensures Cut(buf, n) == buf[..CLUSTER_SIZE * n]
  {
    if n > 0 {
      CutIsPrefix(buf, n - 1);
      assert buf[..CLUSTER_SIZE * n] == buf[..CLUSTER_SIZE * (n - 1)] + Chunk(buf, n - 1);
    }
  }

  lemma {:induction false} CutAt(buf: seq<Byte>, n: nat, j: nat)
    requires Holds(buf, n) && j < n
    ensures Cut(buf, n)[CLUSTER_SIZE * j..CLUSTER_SIZE * j + CLUSTER_SIZE] == Chunk(buf, j)
  {
    if j < n - 1 {
      CutAt(buf, n - 1, j);
      var short := Cut(buf, n - 1);
      assert Cut(buf, n)[CLUSTER_SIZE * j..CLUSTER_SIZE * j + CLUSTER_SIZE]
          == short[CLUSTER_SIZE * j..CLUSTER_SIZE * j + CLUSTER_SIZE];
    }
  }

  // A file is stored faithfully, whatever its bytes, exactly when it has at most 256 clusters.
  lemma StoredIsBuffer(size: nat)
    ensures (forall buf :: |buf| >= CLUSTER_SIZE * Blocks(size) ==> Stored(buf, size) == buf[..size])
      <==> Blocks(size) <= 256
  {
    if Blocks(size) <= 256 {
      forall buf | |buf| >= CLUSTER_SIZE * Blocks(size)
        ensures Stored(buf, size) == buf[..size]
      {
        CutIsPrefix(buf, Blocks(size));
      }
    } else {
      WrapCounterexample(size);
    }
  }

  function Marked(length: nat, at: nat): (b: seq<Byte>)
    ensures |b| == length && forall k :: 0 <= k < length ==> b[k] == if k == at then 1 else 0
  {
    seq(length, k => if k == at then 1 else 0)
  }

  // From the 257th cluster on the driver stores the beginning of the buffer again.
  lemma WrapCounterexample(size: nat)
    requires Blocks(size) > 256
    ensures exists buf :: |buf| >= CLUSTER_SIZE * Blocks(size) && Stored(buf, size) != buf[..size]
  {
    var n := Blocks(size);
    assert size > CLUSTER_SIZE * 256 && size <= CLUSTER_SIZE * n;
    hide Blocks, Chunk;
    var buf := Marked(CLUSTER_SIZE * n, CLUSTER_SIZE * 256);
    CutAt(buf, n, 256);
    var data := Cut(buf, n);
    hide Cut;
    assert data[CLUSTER_SIZE * 256..CLUSTER_SIZE * 256 + CLUSTER_SIZE][0] == data[CLUSTER_SIZE * 256];
    ChunkWraps(buf);
    assert data[..size][CLUSTER_SIZE * 256] == 0;
    assert buf[..size][CLUSTER_SIZE * 256] == 1;
  }

  lemma ChunkWraps(buf: seq<Byte>)
    requires |buf| >= CLUSTER_SIZE * 257
    ensures Chunk(buf, 256) == buf[..CLUSTER_SIZE]
  {
  }

  // For each cluster of the chain the map is written first, then the data.
  function ChainLog(fat: FatMap, cs: seq<nat>, buf: seq<Byte>): (ws: seq<ClusterWrite>)
    requires InRange(cs) && Holds(buf, |cs|)
    ensures |ws| == 2 * |cs|
  {
    if |cs| == 0 then []
    else
      var n := |cs| - 1;
      ChainLog(fat, cs[..n], buf) + [PutFat(Linked(fat, cs)), ClusterWrite(cs[n], Chunk(buf, n))]
  }

  // The part of a write that depends on there being room.
  predicate HasRoom(fat: FatMap, t: Table, req: Request) {
    && First(t, Dead) < TABLE_SIZE
    && (if req.size == 0 then FreeCount(fat, 3) > 0
        else req.size < 0x8000_0000 && Blocks(req.size) <= FreeCount(fat, 3))
  }

  function FileChain(fat: FatMap, size: nat): seq<nat>
    requires Blocks(size) <= FreeCount(fat, 3)
  {
    Smallest(fat, Blocks(size), 3)
  }

  function FileLog(fat: FatMap, t: Table, req: Request, buf: seq<Byte>, now: Stamp): seq<ClusterWrite>
    requires req.parent < DISK_CLUSTERS && req.size > 0 && HasRoom(fat, t, req) && Holds(buf, Blocks(req.size))
  {
    var cs := FileChain(fat, req.size);
    var i := First(t, Dead);
    ChainLog(fat, cs, buf) + [PutTable(req.parent, Filled(t, i, FileEntry(t[i], req, cs[0], now)))]
  }

  function FolderLog(fat: FatMap, t: Table, req: Request, now: Stamp): seq<ClusterWrite>
    requires req.parent < DISK_CLUSTERS && req.size == 0 && HasRoom(fat, t, req)
  {
    FreeCountPositive(fat, 3);
    var k := FirstFree(fat);
    [PutTable(k, NewTable(req.name, req.parent, now)),
     PutTable(req.parent, Filled(t, First(t, Dead), FolderEntry(req, k, now))),
     PutFat(fat[k := END_OF_FILE])]
  }

  lemma {:induction false} FreeCountPositive(fat: FatMap, i: nat)
    requires i <= CLUSTER_MAP_SIZE && FreeCount(fat, i) > 0
    ensures FirstFreeFrom(fat, i) < CLUSTER_MAP_SIZE
    decreases CLUSTER_MAP_SIZE - i
  {
    if fat[i] != 0 {
      FreeCountPositive(fat, i + 1);
    }
  }

  /* What a chain of writes leaves on the disk, after any number of them */

  // Only the map and the clusters of `cs` have changed, and in the map only the cells of `cs`.
  ghost predicate Grown(d: Disk, e: Disk, cs: seq<nat>) {
    && (forall c :: 0 <= c < DISK_CLUSTERS && c != FAT_CLUSTER && c !in cs ==> e[c] == d[c])
    && (forall k :: 0 <= k < CLUSTER_MAP_SIZE && k !in cs ==> Fat(e)[k] == Fat(d)[k])
  }

  ghost predicate Laid(d: Disk, e: Disk, cs: seq<nat>, buf: seq<Byte>)
    requires InRange(cs) && Holds(buf, |cs|)
  {
    && Fat(e) == Linked(Fat(d), cs)
    && forall j :: 0 <= j < |cs| ==> e[cs[j]] == Chunk(buf, j)
  }

  lemma {:induction false} GrownByMap(d: Disk, e: Disk, cs: seq<nat>, n: nat)
    requires Increasing(cs) && InRange(cs) && |cs| == n + 1 && Grown(d, e, cs[..n])
    ensures var f := Put(e, PutFat(Linked(Fat(d), cs)));
      Grown(d, f, cs) && Fat(f) == Linked(Fat(d), cs)
  {
    hide Linked, AsFat, EncodeFat, IsChain, Increasing;
    LinkedIsChain(Fat(d), cs);
    AsFatIs(e[FAT_CLUSTER], Linked(Fat(d), cs));
    assert forall k :: k !in cs ==> k !in cs[..n];
  }

  lemma {:induction false} ChainLogEffect(d: Disk, cs: seq<nat>, buf: seq<Byte>)
    requires Increasing(cs) && InRange(cs) && Holds(buf, |cs|)
    ensures var e := Apply(d, ChainLog(Fat(d), cs, buf));
      Grown(d, e, cs) && Laid(d, e, cs, buf)
  {
    if |cs| > 0 {
      var n := |cs| - 1;
      var us := ChainLog(Fat(d), cs[..n], buf);
      var one, two := PutFat(Linked(Fat(d), cs)), ClusterWrite(cs[n], Chunk(buf, n));
      assert ChainLog(Fat(d), cs, buf) == us + [one] + [two];
      hide Linked, AsFat, EncodeFat, IsChain, Chunk, Grown, Laid, Apply, ChainLog;
      ChainLogEffect(d, cs[..n], buf);
      ApplyOne(d, us, one);
      ApplyOne(d, us + [one], two);
      ChainLogStep(d, Apply(d, us), cs, buf, n);
    }
  }

  lemma {:induction false} LaidByData(d: Disk, e: Disk, cs: seq<nat>, buf: seq<Byte>, n: nat)
    requires Increasing(cs) && InRange(cs) && Holds(buf, |cs|) && |cs| == n + 1
    requires Grown(d, e, cs) && Fat(e) == Linked(Fat(d), cs)
    requires forall j :: 0 <= j < n ==> e[cs[j]] == Chunk(buf, j)
    ensures var f := Put(e, ClusterWrite(cs[n], Chunk(buf, n)));
      Grown(d, f, cs) && Laid(d, f, cs, buf)
  {
    hide Linked, AsFat, Chunk;
  }

  // One round of the loop: the map with one more cluster linked, then the data of that cluster.
  lemma {:induction false} ChainLogStep(d: Disk, e: Disk, cs: seq<nat>, buf: seq<Byte>, n: nat)
    requires Increasing(cs) && InRange(cs) && Holds(buf, |cs|) && |cs| == n + 1
    requires Grown(d, e, cs[..n]) && Laid(d, e, cs[..n], buf)
    ensures var f := Put(Put(e, PutFat(Linked(Fat(d), cs))), ClusterWrite(cs[n], Chunk(buf, n)));
      Grown(d, f, cs) && Laid(d, f, cs, buf)
  {
    hide Linked, AsFat, EncodeFat, IsChain, Chunk;
    var mapped := Put(e, PutFat(Linked(Fat(d), cs)));
    GrownByMap(d, e, cs, n);
    forall j | 0 <= j < n
      ensures mapped[cs[j]] == Chunk(buf, j)
    {
      assert cs[..n][j] == cs[j];
    }
    LaidByData(d, mapped, cs, buf, n);
  }

  // Half-way states are full states of a shorter chain, plus possibly one more map write.
  lemma {:induction false} ChainLogTake(fat: FatMap, cs: seq<nat>, buf: seq<Byte>, h: nat)
    requires InRange(cs) && Holds(buf, |cs|) && h <= |cs|
    ensures ChainLog(fat, cs, buf)[..2 * h] == ChainLog(fat, cs[..h], buf)
    ensures h < |cs| ==> ChainLog(fat, cs, buf)[2 * h] == PutFat(Linked(fat, cs[..h + 1]))
    decreases |cs|
  {
    hide Linked, Chunk, EncodeFat;
    if h < |cs| {
      var n := |cs| - 1;
      ChainLogTake(fat, cs[..n], buf, h);
      assert cs[..n][..h] == cs[..h];
      if h < n {
        assert cs[..n][..h + 1] == cs[..h + 1];
      } else {
        assert cs[..n + 1] == cs;
      }
    } else {
      assert cs[..h] == cs;
    }
  }

  // After any prefix of the writes the change is confined to the new chain.
  lemma {:induction false} ChainLogPrefix(d: Disk, cs: seq<nat>, buf: seq<Byte>, m: nat)
    requires Increasing(cs) && InRange(cs) && Holds(buf, |cs|) && m <= 2 * |cs|
    ensures Grown(d, Apply(d, ChainLog(Fat(d), cs, buf)[..m]), cs)
  {
    hide Linked, AsFat, EncodeFat, IsChain, Chunk, ChainLog;
    var h := m / 2;
    var ws := ChainLog(Fat(d), cs, buf);
    ChainLogTake(Fat(d), cs, buf, h);
    ChainLogEffect(d, cs[..h], buf);
    assert forall k :: k !in cs ==> k !in cs[..h];
    if m == 2 * h + 1 {
      assert ws[..m] == ws[..2 * h] + [ws[2 * h]];
      ApplyOne(d, ws[..2 * h], ws[2 * h]);
      assert cs[..h + 1][..h] == cs[..h];
      GrownByMap(d, Apply(d, ws[..2 * h]), cs[..h + 1], h);
      assert forall k :: k !in cs ==> k !in cs[..h + 1];
    }
  }
}
