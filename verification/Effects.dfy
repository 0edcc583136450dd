// What the calls return and what they leave on the disk: slot by slot, cell by cell and field by field,
// from what the disk held before.
module Effects {
  import opened Layout
  import opened Volume
  import opened Allocation
  import opened Pruning
  import opened Disks
  import opened Operations
  import opened Writing
  import opened Deleting
  import opened Reading
  import opened Runs
  import opened Renaming
  import opened Moving
  import opened FatDriver
  import opened Relinking
  import Simulation

  /* Codes */

  // A request that names no directory: 2 for a write, -1 for every other call, and nothing changes.
  lemma RefusedEffect(d: Disk, v: Vol, op: Op)
    requires Rep(d, v) && Tree(v) && Allowed(d, v, op) && Tab(d, op.req.parent)[0].attribute != 0x10
    ensures Simulation.CallCode(d, v, op) == if op.Write? then 2 else -1
    ensures StepDisk(d, v, op) == d && StepVol(d, v, op) == v && StepLog(d, v, op) == []
  {
    hide Tree, AsTable, AsFat;
  }

  // The parent's table as the disk and the tree have it.
  lemma ParentTable(d: Disk, v: Vol, op: Op)
    requires Rep(d, v) && Allowed(d, v, op) && Tab(d, op.req.parent)[0].attribute == 0x10
    ensures !Refused(d, op) && op.req.parent in v.tabs && v.tabs[op.req.parent] == Tab(d, op.req.parent)
    ensures Fat(d) == v.fat
  {
    hide AsTable, AsFat;
  }

  lemma WriteCodes(d: Disk, v: Vol, op: Op)
    requires Rep(d, v) && Tree(v) && Allowed(d, v, op) && op.Write?
    requires Tab(d, op.req.parent)[0].attribute == 0x10
    ensures Simulation.CallCode(d, v, op) ==
      var t := Tab(d, op.req.parent);
      if exists i | 1 <= i < 64 :: t[i].undelete != 0 && t[i].name == op.req.name
           && (if op.req.size == 0 then t[i].attribute == 0x10 else t[i].ext == op.req.ext)
      then 1 else 0
    ensures Simulation.CallCode(d, v, op) != 0 ==> StepDisk(d, v, op) == d && StepLog(d, v, op) == []
  {
    hide Tree, AsTable, AsFat, FirstFrom;
    ParentTable(d, v, op);
  }

  // `i` is the slot of the file, or 64 if there is none.
  lemma ReadCodes(d: Disk, v: Vol, op: Op, i: nat)
    requires Rep(d, v) && Tree(v) && Allowed(d, v, op) && op.Read?
    requires Tab(d, op.req.parent)[0].attribute == 0x10 && 1 <= i <= 64
    requires var t := Tab(d, op.req.parent);
      && (i < 64 ==> t[i].undelete != 0 && t[i].attribute != 0x10 && t[i].name == op.req.name && t[i].ext == op.req.ext)
      && (i == 64 ==> forall j | 1 <= j < 64 ::
            t[j].undelete == 0 || t[j].attribute == 0x10 || t[j].name != op.req.name || t[j].ext != op.req.ext)
    ensures var t := Tab(d, op.req.parent);
      Simulation.CallCode(d, v, op) ==
      if op.req.size < 2048 then -1
      else if i < 64 then (if op.req.size < t[i].filesize then 2 else 0)
      else if exists j | 1 <= j < 64 :: t[j].undelete != 0 && t[j].attribute == 0x10 && t[j].name == op.req.name then 1
      else 3
    ensures Simulation.CallCode(d, v, op) != 0 ==> StepDisk(d, v, op) == d && StepLog(d, v, op) == []
  {
    hide SlotOk, DirOk, AsTable, AsFat, FirstFrom;
    ParentTable(d, v, op);
    assert KeysOk(v, op.req.parent);
  }

  lemma ReadFolderCodes(d: Disk, v: Vol, op: Op)
    requires Rep(d, v) && Tree(v) && Allowed(d, v, op) && op.ReadFolder?
    requires Tab(d, op.req.parent)[0].attribute == 0x10
    ensures var t := Tab(d, op.req.parent);
      Simulation.CallCode(d, v, op) ==
      if exists i | 1 <= i < 64 ::
        t[i].undelete != 0 && t[i].name == op.req.name && t[i].ext == op.req.ext && t[i].attribute == 0x10
      then (if op.req.size < 2048 then 2 else 0)
      else if exists i | 1 <= i < 64 :: t[i].undelete != 0 && t[i].name == op.req.name && t[i].ext == op.req.ext
      then 1
      else 3
    ensures Simulation.CallCode(d, v, op) != 0 ==> StepDisk(d, v, op) == d && StepLog(d, v, op) == []
  {
    hide Tree, AsTable, AsFat, FirstFrom;
    ParentTable(d, v, op);
  }

  // The first live slot of the name decides: 2 for a folder whose header carries 0xAA.
  lemma DeleteCodes(d: Disk, v: Vol, op: Op, i: nat)
    requires Rep(d, v) && Tree(v) && Allowed(d, v, op) && op.Delete?
    requires Tab(d, op.req.parent)[0].attribute == 0x10 && 1 <= i <= 64
    requires var t := Tab(d, op.req.parent);
      && (i < 64 ==> t[i].undelete != 0 && t[i].name == op.req.name && t[i].ext == op.req.ext)
      && forall j :: 1 <= j < i ==> !(t[j].undelete != 0 && t[j].name == op.req.name && t[j].ext == op.req.ext)
    ensures var t := Tab(d, op.req.parent);
      && (i < 64 && t[i].attribute == 0x10 ==> t[i].cluster < 2048)
      && Simulation.CallCode(d, v, op) ==
        if i == 64 then 1
        else if t[i].attribute == 0x10 && Tab(d, t[i].cluster)[0].userAttribute == 0xAA then 2
        else 0
    ensures Simulation.CallCode(d, v, op) != 0 ==> StepDisk(d, v, op) == d && StepLog(d, v, op) == []
  {
    hide Tree, AsTable, AsFat, FirstFrom, First, DeleteLog, DeleteDisk;
    ParentTable(d, v, op);
    Simulation.DirHeader(v, op.req.parent);
    FirstIs(v.tabs[op.req.parent], Key(op.req.name, op.req.ext), i);
    if i < 64 {
      TargetFacts(d, v, op.req);
    }
  }

  /* What the calls ask for */

  // The free cells of the map.
  ghost function FreeCells(fat: FatMap, i: nat): set<nat> {
    set k: nat | i <= k < 512 && fat[k] == 0
  }

  lemma {:induction false} FreeCellsCount(fat: FatMap, i: nat)
    requires i <= 512
    ensures |FreeCells(fat, i)| == FreeCount(fat, i)
    decreases 512 - i
  {
    if i < 512 {
      FreeCellsCount(fat, i + 1);
      assert FreeCells(fat, i) == FreeCells(fat, i + 1) + if fat[i] == 0 then {i} else {};
    }
  }

  // A call may name anything that shows that it is no directory, or a directory of the tree; and a write that
  // creates something needs a dead slot, free cells and a buffer that is as long as the driver reads.
  lemma AllowedExact(d: Disk, v: Vol, op: Op)
    requires Rep(d, v) && Tree(v) && op.req.parent < 2048
    ensures Allowed(d, v, op) <==>
      || Tab(d, op.req.parent)[0].attribute != 0x10
      || (&& op.req.parent in v.tabs
          && var (t, n) := (Tab(d, op.req.parent), (op.req.size + 2047) / 2048);
          op.Write?
          && !(exists i | 1 <= i < 64 :: t[i].undelete != 0 && t[i].name == op.req.name
                 && (if op.req.size == 0 then t[i].attribute == 0x10 else t[i].ext == op.req.ext)) ==>
            && (exists i | 1 <= i < 64 :: t[i].undelete == 0)
            && (if op.req.size == 0 then FreeCells(Fat(d), 3) != {}
                else && op.req.size < 0x8000_0000 && n <= |FreeCells(Fat(d), 3)|
                     && |op.buf| >= 2048 * (if n < 256 then n else 256)))
  {
    hide SlotOk, DirOk, AsTable, AsFat, FirstFrom, FreeCount, FreeCells, Base;
    if op.req.parent in v.tabs {
      Simulation.DirHeader(v, op.req.parent);
      FreeCellsCount(v.fat, 3);
    }
  }

  // A read asks for a buffer that takes the whole clusters of the file that it will find.
  lemma ReadAsks(d: Disk, v: Vol, req: Request, length: nat)
    requires Tree(v) && req.parent in v.tabs
    ensures ReadFits(d, v, req, length) <==>
      forall i | 1 <= i < 64 :: var e := v.tabs[req.parent][i];
        (e.undelete != 0 && e.attribute != 0x10 && e.name == req.name && e.ext == req.ext
         && 2048 <= req.size && e.filesize <= req.size) ==> 2048 * ((e.filesize + 2047) / 2048) <= length
  {
    hide SlotOk, FirstFrom, Base;
    var t, p := v.tabs[req.parent], FileKey(req.name, req.ext);
    assert DirOk(v, req.parent);
    assert KeysOk(v, req.parent);
    var i := First(t, p);
    if i < 64 {
      assert forall j :: 1 <= j < 64 && Matches(t[j], p) ==> j == i;
    }
  }

  // A move asks for a target with a dead slot, which in its own directory the folder leaves behind.
  lemma MoveAsks(v: Vol, req: Request, q: nat)
    requires Tree(v) && Finds(v, req)
    ensures TargetFits(v, req, q) <==>
      q < 512 && q in v.tabs && (q == req.parent || exists i | 1 <= i < 64 :: v.tabs[q][i].undelete == 0)
  {
    hide Tree, FirstFrom;
    if q in v.tabs {
      var i := First(v.tabs[q], Dead);
      assert i < 64 ==> v.tabs[q][i].undelete == 0;
    }
  }

  /* What a successful call leaves */

  // A file takes the first dead slot `i` and the smallest free clusters `cs`, linked in order.
  lemma FileWriteEffect(d: Disk, v: Vol, op: Op) returns (i: nat, cs: seq<nat>)
    requires Rep(d, v) && Tree(v) && Allowed(d, v, op) && op.Write? && op.req.size > 0
    requires Tab(d, op.req.parent)[0].attribute == 0x10 && Simulation.CallCode(d, v, op) == 0
    ensures |cs| > 0 && 2048 * (|cs| - 1) < op.req.size <= 2048 * |cs|
    ensures var (p, t) := (op.req.parent, Tab(d, op.req.parent));
      var e := StepDisk(d, v, op);
      var u := Tab(e, p);
      && 1 <= i < 64 && t[i].undelete == 0 && (forall j :: 1 <= j < i ==> t[j].undelete != 0)
      && u[i].name == op.req.name && u[i].ext == op.req.ext && u[i].attribute == 0 && u[i].userAttribute == 0xAA
      && u[i].undelete == 1 && u[i].cluster == cs[0] && u[i].filesize == op.req.size
      && u[i].times == t[i].times.(createTime := op.now.time, createDate := op.now.date)
      && u[0] == t[0].(userAttribute := 0xAA) && (forall j :: 1 <= j < 64 && j != i ==> u[j] == t[j])
    ensures forall j :: 0 <= j < |cs| ==> 3 <= cs[j] < 512 && Fat(d)[cs[j]] == 0 && (j > 0 ==> cs[j - 1] < cs[j])
    ensures forall k :: 3 <= k < 512 && Fat(d)[k] == 0 && k !in cs ==> cs[|cs| - 1] < k
    ensures var e := StepDisk(d, v, op);
      && (forall k :: 0 <= k < 512 && k !in cs ==> Fat(e)[k] == Fat(d)[k])
      && (forall j :: 0 <= j < |cs| ==>
            && Fat(e)[cs[j]] == (if j + 1 < |cs| then cs[j + 1] else 0x0FFF_FFFF)
            && |op.buf| >= 2048 * (j % 256) + 2048 && e[cs[j]] == op.buf[2048 * (j % 256)..2048 * (j % 256) + 2048])
      && (forall c :: 0 <= c < 2048 && c != 1 && c != op.req.parent && c !in cs ==> e[c] == d[c])
    ensures var ws := StepLog(d, v, op);
      && |ws| == 2 * |cs| + 1 && ws[2 * |cs|].cluster == op.req.parent
      && forall j :: 0 <= j < |cs| ==> ws[2 * j].cluster == 1 && ws[2 * j + 1].cluster == cs[j]
  {
    hide AsTable, AsFat, Tree, First, FirstFrom, FileDisk, FreeCount, Linked, Blocks, Smallest, ChainLog, Chunk;
    hide EncodeTable, Increasing;
    ParentTable(d, v, op);
    FileOutcome(d, v, op);
    var req := op.req;
    i, cs := First(v.tabs[req.parent], Dead), FileChain(v.fat, req.size);
    LeastCells(v.fat, req.size, cs);
    ChainOrder(v.fat, cs, op.buf);
    LinkedCells(v.fat, cs, Linked(v.fat, cs));
    FileOnDisk(d, v, req, op.buf, op.now);
    FileWrittenRep(d, v, req, op.buf, op.now);
  }

  // The map goes to disk before the data of each cluster.
  lemma {:induction false} ChainOrder(fat: FatMap, cs: seq<nat>, buf: seq<Byte>)
    requires InRange(cs) && Holds(buf, |cs|)
    ensures var ws := ChainLog(fat, cs, buf);
      |ws| == 2 * |cs| && forall j :: 0 <= j < |cs| ==> ws[2 * j].cluster == 1 && ws[2 * j + 1].cluster == cs[j]
  {
    hide Linked, Chunk, EncodeFat;
    if cs != [] {
      ChainOrder(fat, cs[..|cs| - 1], buf);
    }
  }

  lemma FileOnDisk(d: Disk, v: Vol, req: Request, buf: seq<Byte>, now: Stamp)
    requires Rep(d, v) && FileWritable(v, req) && Holds(buf, Blocks(req.size)) && req.parent < DISK_CLUSTERS
    ensures var cs, e := FileChain(v.fat, req.size), FileDisk(d, v.fat, v.tabs[req.parent], req, buf, now);
      && Fat(e) == Linked(v.fat, cs)
      && (forall j :: 0 <= j < |cs| ==>
            |buf| >= 2048 * (j % 256) + 2048 && e[cs[j]] == buf[2048 * (j % 256)..2048 * (j % 256) + 2048])
      && (forall c :: 0 <= c < 2048 && c != 1 && c != req.parent && c !in cs ==> e[c] == d[c])
  {
    hide AsTable, AsFat, Tree, First, FirstFrom, FileDisk, FreeCount, Linked, Blocks, Smallest, Filled, FileEntry;
    FileWrittenRep(d, v, req, buf, now);
    FileWrittenData(d, v, req, buf, now);
  }

  // The smallest free clusters.
  lemma {:induction false} LeastCells(fat: FatMap, size: nat, cs: seq<nat>)
    requires size > 0 && Blocks(size) <= FreeCount(fat, 3) && cs == FileChain(fat, size)
    ensures |cs| > 0 && 2048 * (|cs| - 1) < size <= 2048 * |cs|
    ensures forall j :: 0 <= j < |cs| ==> 3 <= cs[j] < 512 && fat[cs[j]] == 0 && (j > 0 ==> cs[j - 1] < cs[j])
    ensures forall k :: 3 <= k < 512 && fat[k] == 0 && k !in cs ==> cs[|cs| - 1] < k
    ensures Increasing(cs) && InRange(cs)
  {
    hide FreeCount, Blocks, Smallest;
    BlocksBound(size);
    SmallestIsLeast(fat, Blocks(size), 3);
  }

  // The map that links them.
  lemma {:induction false} LinkedCells(fat: FatMap, cs: seq<nat>, linked: FatMap)
    requires |cs| > 0 && Increasing(cs) && InRange(cs) && linked == Linked(fat, cs)
    ensures forall k :: 0 <= k < 512 && k !in cs ==> linked[k] == fat[k]
    ensures forall j :: 0 <= j < |cs| ==> linked[cs[j]] == if j + 1 < |cs| then cs[j + 1] else 0x0FFF_FFFF
  {
    hide Linked;
    LinkedIsChain(fat, cs);
    forall j | 0 <= j < |cs|
      ensures linked[cs[j]] == if j + 1 < |cs| then cs[j + 1] else 0x0FFF_FFFF
    {
      assert Link(linked, cs, j);
    }
  }

  // A folder takes the first dead slot `i` and the smallest free cluster `k` for its table.
  lemma FolderWriteEffect(d: Disk, v: Vol, op: Op) returns (i: nat, k: nat)
    requires Rep(d, v) && Tree(v) && Allowed(d, v, op) && op.Write? && op.req.size == 0
    requires Tab(d, op.req.parent)[0].attribute == 0x10 && Simulation.CallCode(d, v, op) == 0
    ensures var (p, t) := (op.req.parent, Tab(d, op.req.parent));
      var u := Tab(StepDisk(d, v, op), p);
      && 1 <= i < 64 && t[i].undelete == 0 && (forall j :: 1 <= j < i ==> t[j].undelete != 0)
      && u[i].name == op.req.name && u[i].ext == [0, 0, 0] && u[i].attribute == 0x10 && u[i].userAttribute == 0
      && u[i].undelete == 1 && u[i].cluster == k && u[i].filesize == 0
      && u[i].times == Times(op.now.time, op.now.date, 0, 0, 0)
      && u[0] == t[0].(userAttribute := 0xAA) && (forall j :: 1 <= j < 64 && j != i ==> u[j] == t[j])
    ensures 3 <= k < 512 && Fat(d)[k] == 0 && forall c :: 3 <= c < k ==> Fat(d)[c] != 0
    ensures var e := StepDisk(d, v, op);
      && Fat(e) == Fat(d)[k := 0x0FFF_FFFF]
      && Tab(e, k)[0] == Tab(e, op.req.parent)[i].(cluster := op.req.parent)
      && (forall j :: 32 <= j < 2048 ==> e[k][j] == 0)
      && (forall c :: 0 <= c < 2048 && c != 1 && c != op.req.parent && c != k ==> e[c] == d[c])
    ensures var ws := StepLog(d, v, op);
      |ws| == 3 && ws[0].cluster == k && ws[1].cluster == op.req.parent && ws[2].cluster == 1
  {
    hide AsTable, AsFat, Tree, First, FirstFrom, FolderDisk, FreeCount, Blocks, EncodeTable, EncodeFat;
    ParentTable(d, v, op);
    FolderOutcome(d, v, op);
    var req := op.req;
    i, k := First(v.tabs[req.parent], Dead), NewCluster(v.fat);
    FolderMadeRep(d, v, req, op.now);
    FolderDiskIs(d, v, req, op.now);
    FolderMadeAdds(v, req, op.now);
    DirCell(v, req.parent);
    NewTableBytes(req.name, req.parent, op.now);
  }

  // A new table is zero behind its header.
  lemma NewTableBytes(name: Name, parent: U32, now: Stamp)
    ensures forall j :: 32 <= j < 2048 ==> EncodeTable(NewTable(name, parent, now))[j] == 0
  {
    forall j | 32 <= j < 2048
      ensures EncodeTable(NewTable(name, parent, now))[j] == 0
    {
      assert 1 <= j / 32 < 64;
      ZeroBytes(j % 32);
    }
  }

  lemma ZeroBytes(k: nat)
    requires k < 32
    ensures EncodeEntry(ZERO_ENTRY)[k] == 0
  {
  }

  // The slot `i` that DeleteCodes speaks of is zeroed and the cells of its chain `cs` are free; the header
  // loses its mark if no other slot is live.
  lemma DeleteEffect(d: Disk, v: Vol, op: Op, i: nat) returns (cs: seq<nat>)
    requires Rep(d, v) && Tree(v) && Allowed(d, v, op) && op.Delete?
    requires Tab(d, op.req.parent)[0].attribute == 0x10 && Simulation.CallCode(d, v, op) == 0 && 1 <= i < 64
    requires var t := Tab(d, op.req.parent);
      && t[i].undelete != 0 && t[i].name == op.req.name && t[i].ext == op.req.ext
      && forall j :: 1 <= j < i ==> !(t[j].undelete != 0 && t[j].name == op.req.name && t[j].ext == op.req.ext)
    ensures var (t, e) := (Tab(d, op.req.parent), StepDisk(d, v, op));
      var u := Tab(e, op.req.parent);
      && (forall k :: 32 * i <= k < 32 * i + 32 ==> e[op.req.parent][k] == 0)
      && (forall j :: 1 <= j < 64 && j != i ==> u[j] == t[j])
      && u[0] == t[0].(userAttribute :=
           if exists j :: 1 <= j < 64 && j != i && t[j].undelete != 0 then t[0].userAttribute else 0)
    ensures |cs| > 0 && cs[0] == Tab(d, op.req.parent)[i].cluster
    ensures forall j :: 0 <= j < |cs| ==>
      3 <= cs[j] < 512 && Fat(d)[cs[j]] == if j + 1 < |cs| then cs[j + 1] else 0x0FFF_FFFF
    ensures var e := StepDisk(d, v, op);
      && (forall k :: 0 <= k < 512 ==> Fat(e)[k] == if k in cs then 0 else Fat(d)[k])
      && (forall c :: 0 <= c < 2048 && c != 1 && c != op.req.parent ==> e[c] == d[c])
    ensures var ws := StepLog(d, v, op);
      |ws| == 2 && ws[0].cluster == op.req.parent && ws[1].cluster == 1
  {
    hide Tree, AsTable, AsFat, FirstFrom, First, DeleteLog, DeleteDisk, Emptied, EncodeTable, EncodeFat, StepDisk;
    hide StepLog, StepVol, Increasing, DeleteCode;
    ParentTable(d, v, op);
    Simulation.DirHeader(v, op.req.parent);
    var p, t := op.req.parent, v.tabs[op.req.parent];
    FirstIs(t, Key(op.req.name, op.req.ext), i);
    DeletedOutcome(d, v, op);
    TargetFacts(d, v, op.req);
    cs := v.chains[Slot(p, i)];
    forall j | 0 <= j < |cs|
      ensures 3 <= cs[j] < 512 && Fat(d)[cs[j]] == if j + 1 < |cs| then cs[j + 1] else 0x0FFF_FFFF
    {
      assert Link(v.fat, cs, j);
    }
    DirCell(v, p);
    TwoWritten(d, p, Emptied(t, i), Freed(v.fat, cs));
    ZeroedSlot(t, i);
  }

  // A table and then the map, stored.
  lemma TwoWritten(d: Disk, p: ClusterNo, t: Table, fat: FatMap)
    requires p != FAT_CLUSTER
    ensures var e := Put(Put(d, PutTable(p, t)), PutFat(fat));
      Tab(e, p) == t && Fat(e) == fat && e[p] == EncodeTable(t)
      && forall c :: 0 <= c < 2048 && c != 1 && c != p ==> e[c] == d[c]
  {
    hide AsTable, AsFat, EncodeTable, EncodeFat;
    AsTableIs(EncodeTable(t), t);
    AsFatIs(EncodeFat(fat), fat);
  }

  lemma ZeroedSlot(t: Table, i: nat)
    requires 1 <= i < 64
    ensures forall j :: 1 <= j < 64 && j != i ==> Emptied(t, i)[j] == t[j]
    ensures Emptied(t, i)[0] == t[0].(userAttribute :=
      if exists j :: 1 <= j < 64 && j != i && t[j].undelete != 0 then t[0].userAttribute else 0)
    ensures forall k :: 32 * i <= k < 32 * i + 32 ==> EncodeTable(Emptied(t, i))[k] == 0
  {
    var u := t[i := ZERO_ENTRY];
    assert HasLive(u) <==> exists j :: 1 <= j < 64 && j != i && t[j].undelete != 0 by {
      if j :| 1 <= j < 64 && j != i && t[j].undelete != 0 {
        assert Live(u[j]);
      }
    }
    forall k | 32 * i <= k < 32 * i + 32
      ensures EncodeTable(Emptied(t, i))[k] == 0
    {
      assert k / 32 == i;
      ZeroBytes(k % 32);
    }
  }

  // A read stamps the date of the last access on the slot it has found, and nothing else.
  lemma ReadEffect(d: Disk, v: Vol, op: Op) returns (i: nat)
    requires Rep(d, v) && Tree(v) && Allowed(d, v, op) && (op.Read? || op.ReadFolder?)
    requires Tab(d, op.req.parent)[0].attribute == 0x10 && Simulation.CallCode(d, v, op) == 0
    ensures var (t, e) := (Tab(d, op.req.parent), StepDisk(d, v, op));
      && 1 <= i < 64 && t[i].undelete != 0 && t[i].name == op.req.name && t[i].ext == op.req.ext
      && (op.ReadFolder? <==> t[i].attribute == 0x10)
      && Tab(e, op.req.parent) == t[i := t[i].(times := t[i].times.(accessDate := op.now.date))]
      && (forall c :: 0 <= c < 2048 && c != op.req.parent ==> e[c] == d[c])
    ensures |StepLog(d, v, op)| == 1 && StepLog(d, v, op)[0].cluster == op.req.parent
  {
    hide Tree, AsTable, AsFat, FirstFrom, EncodeTable, StepDisk, StepLog, StepVol, Increasing;
    ParentTable(d, v, op);
    var t := v.tabs[op.req.parent];
    if op.Read? {
      i := First(t, FileKey(op.req.name, op.req.ext));
      ReadOutcome(d, v, op);
    } else {
      i := First(t, FolderKey(op.req.name, op.req.ext));
      ReadFolderOutcome(d, v, op);
    }
    AsTableIs(EncodeTable(t[i := Accessed(t[i], op.now)]), t[i := Accessed(t[i], op.now)]);
  }

  // After the read, a rename puts an entry made from the folder's own header into the first slot `i` that
  // carries the old name, and the new name into the header of the folder's table.
  lemma RenameEffect(d: Disk, v: Vol, req: Request, newName: Name, now: Stamp) returns (i: nat, k: nat)
    requires Rep(d, v) && Tree(v) && Finds(v, req)
    ensures req.parent < 2048 && k < 2048
    ensures var (t, h, e) := (Tab(d, req.parent), Tab(d, k), Apply(d, RenameWrites(v, req, newName, now)));
      var u := Tab(e, req.parent);
      && (exists j | 1 <= j < 64 :: t[j].undelete != 0 && t[j].attribute == 0x10 && t[j].name == req.name
            && t[j].ext == req.ext && t[j].cluster == k)
      && 1 <= i < 64 && t[i].name == req.name && (forall j :: 1 <= j < i ==> t[j].name != req.name)
      && u[i].name == newName && u[i].ext == [0, 0, 0] && u[i].attribute == h[0].attribute
      && u[i].userAttribute == h[0].userAttribute && u[i].undelete == 1 && u[i].cluster == k
      && u[i].filesize == h[0].filesize && u[i].times == Times(now.time, now.date, 0, 0, 0)
      && (forall j :: 0 <= j < 64 && j != i ==> u[j] == t[j])
      && Tab(e, k) == h[0 := h[0].(name := newName)]
      && (forall c :: 0 <= c < 2048 && c != req.parent && c != k ==> e[c] == d[c])
    ensures var ws := RenameWrites(v, req, newName, now);
      |ws| == 2 && ws[0].cluster == req.parent && ws[1].cluster == k
  {
    hide Tree, AsTable, AsFat, FirstFrom, EncodeTable, Apply;
    NameThere(v, req);
    var s := FolderSlotOf(v, req);
    k, i := Ent(v, s).cluster, First(v.tabs[req.parent], Named(req.name));
    LiveSlot(v, s);
    ChildIsOther(v, s);
    var ws := RenameWrites(v, req, newName, now);
    ApplyTwo(d, ws[0], ws[1]);
    var t := v.tabs[req.parent];
    var u := t[i := RelinkedEntry(v.tabs[k][0], newName, ZERO_EXT, k, now)];
    AsTableIs(EncodeTable(u), u);
    AsTableIs(EncodeTable(Relabelled(v.tabs[k], newName)), Relabelled(v.tabs[k], newName));
    assert t[s.index].undelete != 0;
  }

  // After the read, a move clears the live mark of the first slot `i` with the name, puts an entry made from
  // the folder's own header into the first slot `m` of the target that is then dead, and the target's
  // number into that header. The map is stored as it was.
  lemma MoveEffect(d: Disk, v: Vol, req: Request, q: nat, now: Stamp) returns (i: nat, m: nat, k: nat)
    requires Rep(d, v) && Tree(v) && Finds(v, req) && TargetFits(v, req, q)
    ensures req.parent < 2048 && k < 2048 && q < 512 && q in v.tabs && 1 <= i < 64 && 1 <= m < 64
    ensures var t := Tab(d, req.parent);
      && (exists j | 1 <= j < 64 :: t[j].undelete != 0 && t[j].attribute == 0x10 && t[j].name == req.name
            && t[j].ext == req.ext && t[j].cluster == k)
      && t[i].name == req.name && (forall j :: 1 <= j < i ==> t[j].name != req.name)
    ensures var (t, h, e) := (Tab(d, req.parent), Tab(d, k), Apply(d, MoveWrites(v, req, q, now)));
      var cleared := t[i := t[i].(undelete := 0)];
      var target := if q == req.parent then cleared else Tab(d, q);
      var entry := Entry(h[0].name, h[0].ext, h[0].attribute, h[0].userAttribute, 1,
        Times(now.time, now.date, 0, 0, 0), k, h[0].filesize);
      && target[m].undelete == 0 && (forall j :: 1 <= j < m ==> target[j].undelete != 0)
      && (q != req.parent ==> Tab(e, req.parent) == cleared)
      && (q != k ==> Tab(e, q) == target[m := entry])
      && Tab(e, k) == h[0 := h[0].(cluster := q)] && Fat(e) == Fat(d)
      && (forall c :: 0 <= c < 2048 && c != 1 && c != req.parent && c != q && c != k ==> e[c] == d[c])
    ensures var ws := MoveWrites(v, req, q, now);
      |ws| == 4 && ws[0].cluster == req.parent && ws[1].cluster == q && ws[2].cluster == k && ws[3].cluster == 1
  {
    hide Tree, AsTable, AsFat, FirstFrom, EncodeTable, EncodeFat, Apply;
    NameThere(v, req);
    DeadThere(v, req, q);
    DirCell(v, q);
    DirCell(v, req.parent);
    var s, t := FolderSlotOf(v, req), v.tabs[req.parent];
    k, i := Ent(v, s).cluster, First(t, Named(req.name));
    LiveSlot(v, s);
    ChildIsOther(v, s);
    DirCell(v, k);
    var target := if q == req.parent then Unlinked(t, i) else v.tabs[q];
    m := First(target, Dead);
    var a, b, c, x := MoveSteps(d, v, req, q, now);
    ThreeTablesWritten(d, req.parent, Unlinked(t, i), q, target[m := MovedEntry(v.tabs[k][0], k, now)],
      k, Reparented(v.tabs[k], q), v.fat);
    assert t[s.index].undelete != 0;
  }

  // Three tables and then the map, stored; a later write of a cluster replaces an earlier one.
  lemma ThreeTablesWritten(d: Disk, p: ClusterNo, t: Table, q: ClusterNo, u: Table, k: ClusterNo, w: Table, fat: FatMap)
    requires p != FAT_CLUSTER && q != FAT_CLUSTER && k != FAT_CLUSTER && p != k
    ensures var e := Put(Put(Put(Put(d, PutTable(p, t)), PutTable(q, u)), PutTable(k, w)), PutFat(fat));
      && (q != p ==> Tab(e, p) == t) && (q != k ==> Tab(e, q) == u) && Tab(e, k) == w && Fat(e) == fat
      && forall c :: 0 <= c < 2048 && c != 1 && c != p && c != q && c != k ==> e[c] == d[c]
  {
    hide AsTable, AsFat, EncodeTable, EncodeFat;
    AsTableIs(EncodeTable(t), t);
    AsTableIs(EncodeTable(u), u);
    AsTableIs(EncodeTable(w), w);
    AsFatIs(EncodeFat(fat), fat);
  }

  /* Formatting */

  // Format signs the boot block, marks three cells of the map as used and makes a root table that is its
  // own parent.
  lemma FormatEffect(d: Disk, now: Stamp)
    ensures var e := FormatDisk(d, now);
      && (forall k :: 0 <= k < 23 ==> e[0][k] == "FAT32 - IF2230 edition\n"[k] as int)
      && (forall k :: 23 <= k < 512 ==> e[0][k] == 0) && (forall k :: 512 <= k < 2048 ==> e[0][k] == d[0][k])
      && Fat(e)[0] == 0x0FFF_FFF0 && Fat(e)[1] == 0x0FFF_FFFF && Fat(e)[2] == 0x0FFF_FFFF
      && (forall k :: 3 <= k < 512 ==> Fat(e)[k] == 0)
      && (forall k :: 0 <= k < 8 ==> Tab(e, 2)[0].name[k] == "root\0\0\0\0"[k] as int)
      && Tab(e, 2)[0].(name := [0, 0, 0, 0, 0, 0, 0, 0])
           == Entry([0, 0, 0, 0, 0, 0, 0, 0], [0, 0, 0], 0x10, 0, 1, Times(now.time, now.date, 0, 0, 0), 2, 0)
      && (forall k :: 32 <= k < 2048 ==> e[2][k] == 0) && (forall c :: 3 <= c < 2048 ==> e[c] == d[c])
  {
    hide AsTable, AsFat, EncodeTable, EncodeFat;
    AsTableIs(d[2], NewTable(ROOT_NAME, ROOT_CLUSTER, now));
    AsFatIs(d[1], EmptyFat());
    NewTableBytes(ROOT_NAME, ROOT_CLUSTER, now);
    SignatureText();
  }

  // A disk counts as formatted by the text in its first 23 bytes and the zeros up to byte 512.
  lemma SignatureText()
    ensures |"FAT32 - IF2230 edition\n"| == 23
    ensures forall d: Disk :: Formatted(d) <==>
      && (forall k :: 0 <= k < 23 ==> d[0][k] == "FAT32 - IF2230 edition\n"[k] as int)
      && (forall k :: 23 <= k < 512 ==> d[0][k] == 0)
  {
    var text := "FAT32 - IF2230 edition\n";
    forall k | 0 <= k < 23
      ensures SIGNATURE_TEXT[k] == text[k] as int
    {
    }
    forall d: Disk
      ensures Formatted(d) <==>
        && (forall k :: 0 <= k < 23 ==> d[0][k] == text[k] as int) && (forall k :: 23 <= k < 512 ==> d[0][k] == 0)
    {
      var boot := d[0][..BLOCK_SIZE];
      assert forall k :: 0 <= k < 512 ==> boot[k] == d[0][k];
      assert forall k :: 0 <= k < 512 ==> Signature()[k] == if k < 23 then text[k] as int else 0;
      if (forall k :: 0 <= k < 23 ==> d[0][k] == text[k] as int) && (forall k :: 23 <= k < 512 ==> d[0][k] == 0) {
        assert boot == Signature();
      }
    }
  }
}
