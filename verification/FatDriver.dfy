// The FAT driver: its cached map and table buffer, and the calls that update them and the disk step
// by step. Each call is proved to perform the step that Runs describes.
module FatDriver {
  import opened Layout
  import opened Volume
  import opened Allocation
  import opened Disks
  import opened Operations
  import opened Writing
  import opened Deleting
  import opened Reading
  import opened Runs
  import Simulation

  class Driver {
    const device: BlockDevice
    const fatTable: array<U32>
    const dirTableBuf: array<Entry>

    // The tree the disk stands for.
    ghost var vol: Vol

    ghost predicate Shape() {
      && device.Valid()
      && fatTable.Length == CLUSTER_MAP_SIZE
      && dirTableBuf.Length == TABLE_SIZE
      && device.image as object != fatTable as object
      && device.image as object != dirTableBuf as object
      && fatTable as object != dirTableBuf as object
    }

    ghost function Content(): Disk
      requires Shape()
      reads device.image
    {
      device.Content()
    }

    // The disk shows a tree, and the map is cached.
    ghost predicate Intact()
      reads this, device.image, fatTable
    {
      && Shape()
      && Formatted(Content()) && Rep(Content(), vol) && Tree(vol)
      && fatTable[..] == vol.fat
    }

    // ... and its flags are exact and its dead slots zero, as they are until a folder is moved.
    ghost predicate Valid()
      reads this, device.image, fatTable
    {
      Intact() && Inv(vol)
    }

    /* Mounting */

    constructor (bytes: array<Byte>, ghost v: Vol)
      requires bytes.Length == IMAGE_SIZE
      ensures Shape() && device.image == bytes && vol == v
      ensures fresh(device) && fresh(fatTable) && fresh(dirTableBuf)
    {
      var dev := new BlockDevice(bytes);
      device := dev;
      fatTable := new U32[CLUSTER_MAP_SIZE];
      dirTableBuf := new Entry[TABLE_SIZE](_ => ZERO_ENTRY);
      vol := v;
    }

    // Format the image if it carries no signature, then cache the map and the root table. A formatted
    // image is not changed.
    method Initialize(now: Stamp)
      requires Shape()
      requires Formatted(Content()) ==> Rep(Content(), vol) && Tree(vol)
      modifies this`vol, device, device.image, fatTable, dirTableBuf
      ensures Intact() && (old(Formatted(Content()) ==> Inv(vol)) ==> Valid())
      ensures dirTableBuf[..] == Tab(Content(), ROOT_CLUSTER)
      ensures if old(Formatted(Content())) then Content() == old(Content()) && vol == old(vol)
              else Content() == old(FormatDisk(Content(), now)) && vol == EmptyVol(now)
    {
      hide Inv, Formatted, AsFat, AsTable, EmptyVol, FormatDisk;
      var empty := IsEmptyStorage();
      if empty {
        FormatRep(Content(), now);
        EmptyVolOk(now);
        InvTree(EmptyVol(now));
        CreateFat32(now);
        vol := EmptyVol(now);
      }
      LoadFat();
      LoadTable(ROOT_CLUSTER);
    }

    method IsEmptyStorage() returns (empty: bool)
      requires Shape()
      ensures empty <==> !Formatted(Content())
    {
      var bootSector := device.ReadBlocks(0, 1);
      assert bootSector == Content()[0][..BLOCK_SIZE];
      empty := bootSector != Signature();
    }

    method CreateFat32(now: Stamp)
      requires Shape()
      modifies device, device.image
      ensures Content() == old(FormatDisk(Content(), now))
    {
      device.WriteBoot(Signature());
      device.WriteCluster(FAT_CLUSTER, EncodeFat(EmptyFat()));
      device.WriteCluster(ROOT_CLUSTER, EncodeTable(NewTable(ROOT_NAME, ROOT_CLUSTER, now)));
    }

    /* Loading and storing the map and a table */

    method LoadFat()
      requires Shape()
      modifies fatTable
      ensures fatTable[..] == Fat(Content())
    {
      var data := device.ReadCluster(FAT_CLUSTER);
      var fat := DecodeFat(data);
      AsFatIs(data, fat);
      forall k | 0 <= k < CLUSTER_MAP_SIZE {
        fatTable[k] := fat[k];
      }
      assert fatTable[..] == fat;
    }

    method StoreFat()
      requires Shape()
      modifies device, device.image
      ensures Content() == Put(old(Content()), PutFat(fatTable[..]))
      ensures device.log == old(device.log) + [PutFat(fatTable[..])]
    {
      device.WriteCluster(FAT_CLUSTER, EncodeFat(fatTable[..]));
    }

    method LoadTable(c: ClusterNo)
      requires Shape()
      modifies dirTableBuf
      ensures dirTableBuf[..] == Tab(Content(), c)
    {
      var data := device.ReadCluster(c);
      var table := DecodeTable(data);
      AsTableIs(data, table);
      forall i | 0 <= i < TABLE_SIZE {
        dirTableBuf[i] := table[i];
      }
      assert dirTableBuf[..] == table;
    }

    method StoreTable(c: ClusterNo)
      requires Shape()
      modifies device, device.image
      ensures Content() == Put(old(Content()), PutTable(c, dirTableBuf[..]))
      ensures device.log == old(device.log) + [PutTable(c, dirTableBuf[..])]
    {
      device.WriteCluster(c, EncodeTable(dirTableBuf[..]));
    }

    /* write */

    // The scan of a parent table: whether the name is taken, and otherwise the first dead slot.
    method FindSlot(req: Request) returns (taken: bool, entry: nat)
      requires Shape()
      ensures taken <==> First(dirTableBuf[..], Taken(req)) < TABLE_SIZE
      ensures !taken ==> entry == First(dirTableBuf[..], Dead)
    {
      var isFolder := req.size == 0;
      var foundEntry := false;
      entry := 0;
      var indexToCheck := 0;
      ghost var t: Table := dirTableBuf[..];
      while indexToCheck < TABLE_SIZE
        invariant 0 <= indexToCheck <= TABLE_SIZE
        invariant forall j :: 1 <= j < indexToCheck ==> !Matches(t[j], Taken(req))
        invariant if foundEntry then 1 <= entry < indexToCheck && !Live(t[entry]) else entry == indexToCheck
        invariant forall j :: 1 <= j < entry ==> Live(t[j])
      {
        var slot := dirTableBuf[indexToCheck];
        assert slot == t[indexToCheck];
        if isFolder && slot.name == req.name && IsDir(slot) && slot.undelete != 0 && indexToCheck != 0 {
          FirstFound(t, Taken(req), indexToCheck);
          return true, entry;
        }
        if !isFolder && slot.name == req.name && slot.ext == req.ext && slot.undelete != 0 && indexToCheck != 0 {
          FirstFound(t, Taken(req), indexToCheck);
          return true, entry;
        }
        if !foundEntry {
          if dirTableBuf[entry].undelete == 0 && entry != 0 {
            foundEntry := true;
          } else {
            entry := entry + 1;
          }
        }
        indexToCheck := indexToCheck + 1;
      }
      FirstIs(t, Taken(req), TABLE_SIZE);
      FirstIs(t, Dead, entry);
      taken := false;
    }

    method MakeFolder(req: Request, now: Stamp, entry: nat, clusterIndex: nat)
      requires Shape() && req.parent < DISK_CLUSTERS && req.size == 0
      requires HasRoom(fatTable[..], dirTableBuf[..], req)
      requires entry == First(dirTableBuf[..], Dead) && clusterIndex == NewCluster(fatTable[..])
      modifies device, device.image, fatTable, dirTableBuf
      ensures device.log == old(device.log) + old(FolderLog(fatTable[..], dirTableBuf[..], req, now))
      ensures Content() == old(FolderDisk(Content(), fatTable[..], dirTableBuf[..], req, now))
      ensures fatTable[..] == old(fatTable[..])[clusterIndex := END_OF_FILE]
    {
      ghost var t: Table, fat: FatMap := dirTableBuf[..], fatTable[..];
      var newTable := NewTable(req.name, req.parent, now);
      device.WriteCluster(clusterIndex, EncodeTable(newTable));

      var newEntry := newTable[0].(cluster := clusterIndex);
      dirTableBuf[0] := dirTableBuf[0].(userAttribute := UATTR_NOT_EMPTY);
      dirTableBuf[entry] := newEntry;
      fatTable[clusterIndex] := END_OF_FILE;
      assert dirTableBuf[..] == Filled(t, entry, newEntry);
      assert fatTable[..] == fat[clusterIndex := END_OF_FILE];

      StoreTable(req.parent);
      StoreFat();
      FolderLogEffect(old(Content()), fat, t, req, now);
    }

    // One round of the copy loop: link the cluster, store the map, store the data.
    method WriteFragment(buf: array<Byte>, prevClusterIndex: int, clusterIndex: nat, fragmentCtr: nat,
                         ghost fat: FatMap, ghost cs: seq<nat>)
      requires Shape() && buf != device.image
      requires |cs| > 0 && InRange(cs) && Holds(buf[..], |cs|)
      requires fatTable[..] == Linked(fat, cs[..|cs| - 1])
      requires clusterIndex == cs[|cs| - 1] && prevClusterIndex == if |cs| == 1 then -1 else cs[|cs| - 2]
      requires fragmentCtr == Fragment(|cs| - 1)
      modifies device, device.image, fatTable
      ensures fatTable[..] == Linked(fat, cs)
      ensures device.log == old(device.log)
        + [PutFat(Linked(fat, cs)), ClusterWrite(clusterIndex, Chunk(buf[..], |cs| - 1))]
      ensures Content() == Put(Put(old(Content()), PutFat(Linked(fat, cs))),
        ClusterWrite(clusterIndex, Chunk(buf[..], |cs| - 1)))
    {
      hide EncodeFat;
      ghost var before: FatMap := fatTable[..];
      if prevClusterIndex != -1 {
        fatTable[prevClusterIndex] := clusterIndex;
      }
      fatTable[clusterIndex] := END_OF_FILE;
      assert fatTable[..] == Linked(fat, cs);

      StoreFat();
      assert Chunk(buf[..], |cs| - 1) == buf[CLUSTER_SIZE * fragmentCtr..CLUSTER_SIZE * fragmentCtr + CLUSTER_SIZE];
      device.WriteCluster(clusterIndex, buf[CLUSTER_SIZE * fragmentCtr..CLUSTER_SIZE * fragmentCtr + CLUSTER_SIZE]);
    }

    // The copy loop: one cluster a round, found by first fit.
    method WriteChain(size: int, buf: array<Byte>, firstIndex: nat, ghost fat: FatMap, ghost cs: seq<nat>)
      requires Shape() && buf != device.image && buf as object != fatTable as object
      requires size > 0 && Blocks(size) <= FreeCount(fat, 3) && cs == FileChain(fat, size) && InRange(cs)
      requires Holds(buf[..], |cs|)
      requires fatTable[..] == fat && firstIndex == FirstFree(fat)
      modifies device, device.image, fatTable
      ensures fatTable[..] == Linked(fat, cs)
      ensures device.log == old(device.log) + ChainLog(fat, cs, buf[..])
      ensures Content() == Apply(old(Content()), ChainLog(fat, cs, buf[..]))
    {
      hide EncodeFat, EncodeTable, Linked, Chunk, FreeCount, Blocks, Smallest, FirstFree, Fragment;
      ghost var d0, data, log0 := Content(), buf[..], device.log;
      BlocksBound(size);
      FirstFitIsSmallest(fat, |cs|, 0);
      assert cs[..0] == [];
      LinkedNone(fat);
      var clusterIndex := firstIndex;
      var totalSize := size;
      var fragmentCtr := 0;
      FragmentStep(0);
      var prevClusterIndex: int := -1;
      ghost var j := 0;
      while totalSize > 0
        invariant 0 <= j <= |cs| && totalSize == size - CLUSTER_SIZE * j
        invariant totalSize > 0 <==> j < |cs|
        invariant fragmentCtr == Fragment(j)
        invariant j < |cs| ==> clusterIndex == cs[j]
        invariant j < |cs| ==> prevClusterIndex == if j == 0 then -1 else cs[j - 1]
        invariant fatTable[..] == Linked(fat, cs[..j])
        invariant device.log == log0 + ChainLog(fat, cs[..j], data)
        invariant Content() == Apply(d0, ChainLog(fat, cs[..j], data))
        invariant buf[..] == data
      {
        assert cs[..j + 1][..j] == cs[..j];
        WriteFragment(buf, prevClusterIndex, clusterIndex, fragmentCtr, fat, cs[..j + 1]);
        ChainLogGrows(d0, fat, cs, data, j);
        totalSize := totalSize - CLUSTER_SIZE;
        FragmentStep(j);
        fragmentCtr := (fragmentCtr + 1) % 256;
        j := j + 1;
        if totalSize > 0 {
          prevClusterIndex := clusterIndex;
          FirstFitIsSmallest(fat, |cs|, j);
          clusterIndex := FindEmptyCluster(fatTable);
        }
      }
      assert cs[..j] == cs;
    }

    method WriteFile(req: Request, buf: array<Byte>, now: Stamp, entry: nat, clusterIndex: nat)
      requires Shape() && req.parent < DISK_CLUSTERS && req.size > 0
      requires buf != device.image && buf as object != fatTable as object && buf as object != dirTableBuf as object
      requires HasRoom(fatTable[..], dirTableBuf[..], req) && Holds(buf[..], Blocks(req.size))
      requires entry == First(dirTableBuf[..], Dead) && clusterIndex == FirstFree(fatTable[..])
      modifies device, device.image, fatTable, dirTableBuf
      ensures device.log == old(device.log) + old(FileLog(fatTable[..], dirTableBuf[..], req, buf[..], now))
      ensures Content() == old(FileDisk(Content(), fatTable[..], dirTableBuf[..], req, buf[..], now))
      ensures fatTable[..] == old(Linked(fatTable[..], FileChain(fatTable[..], req.size)))
    {
      hide EncodeFat, EncodeTable, Linked, Chunk, FreeCount, Smallest, FirstFree, ChainLog;
      ghost var d0, fat: FatMap, t: Table := Content(), fatTable[..], dirTableBuf[..];
      ghost var cs := FileChain(fat, req.size);
      BlocksBound(req.size);
      FirstFitIsSmallest(fat, |cs|, 0);
      assert cs[..0] == [];
      LinkedNone(fat);
      dirTableBuf[entry] := FileEntry(dirTableBuf[entry], req, clusterIndex, now);
      dirTableBuf[0] := dirTableBuf[0].(userAttribute := UATTR_NOT_EMPTY);
      ghost var table := Filled(t, entry, FileEntry(t[entry], req, clusterIndex, now));
      assert dirTableBuf[..] == table;
      WriteChain(req.size, buf, clusterIndex, fat, cs);
      StoreTable(req.parent);
      ApplyOne(d0, ChainLog(fat, cs, buf[..]), PutTable(req.parent, table));
    }

    // Create a file, or a folder if the size is 0. Returns 0 on success, 1 if the name is taken, 2 if
    // the parent is no directory.
    method Write(req: Request, buf: array<Byte>, now: Stamp) returns (code: int)
      requires Intact()
      requires buf != device.image && buf as object != fatTable as object && buf as object != dirTableBuf as object
      requires Allowed(Content(), vol, Op.Write(req, buf[..], now))
      modifies this`vol, device, device.image, fatTable, dirTableBuf
      ensures Intact() && (old(Valid()) ==> Valid())
      ensures vol == old(StepVol(Content(), vol, Op.Write(req, buf[..], now)))
      ensures Content() == old(StepDisk(Content(), vol, Op.Write(req, buf[..], now)))
      ensures device.log == old(device.log) + old(StepLog(Content(), vol, Op.Write(req, buf[..], now)))
      ensures code == old(Simulation.CallCode(Content(), vol, Op.Write(req, buf[..], now)))
      ensures old(Tab(Content(), req.parent)[0].attribute) != 0x10 ==> code == 2
    {
      hide Inv, Tree, Rep, Formatted, AsFat, AsTable, First, FirstFrom, FileDisk, FolderDisk, FileLog, FolderLog;
      hide StepVol, StepDisk, StepLog, Linked, NewCluster;
      ghost var op := Op.Write(req, buf[..], now);
      ghost var d, v := Content(), vol;
      StepSafe(d, v, op);
      LoadFat();
      LoadTable(req.parent);
      var parentValid := IsDir(dirTableBuf[0]);
      if parentValid {
        var clusterIndex := FindEmptyCluster(fatTable);
        var taken, entry := FindSlot(req);
        if taken {
          TakenOutcome(d, v, op);
          return 1;
        }
        if req.size == 0 {
          FolderOutcome(d, v, op);
          MakeFolder(req, now, entry, clusterIndex);
        } else {
          FileOutcome(d, v, op);
          WriteFile(req, buf, now, entry, clusterIndex);
        }
        vol := StepVol(d, v, op);
        return 0;
      } else {
        return 2;
      }
    }

    /* delete */

    // Walk the chain from its first cluster and clear every cell.
    method FreeChain(first: nat, ghost fat: FatMap, ghost cs: seq<nat>)
      requires Shape() && fatTable[..] == fat && IsChain(fat, cs) && first == cs[0]
      modifies fatTable
      ensures fatTable[..] == Freed(fat, cs)
    {
      assert Link(fat, cs, 0);
      var clusterNumber := first;
      var next := fatTable[clusterNumber];
      fatTable[clusterNumber] := 0;
      ghost var j := 0;
      while next != END_OF_FILE
        invariant 0 <= j < |cs|
        invariant next == if j + 1 < |cs| then cs[j + 1] else END_OF_FILE
        invariant forall k :: 0 <= k < CLUSTER_MAP_SIZE ==> fatTable[k] == if k in cs[..j + 1] then 0 else fat[k]
        decreases |cs| - j
      {
        assert Link(fat, cs, j) && Link(fat, cs, j + 1);
        clusterNumber := next;
        next := fatTable[clusterNumber];
        fatTable[clusterNumber] := 0;
        assert cs[..j + 2] == cs[..j + 1] + [clusterNumber];
        j := j + 1;
      }
      assert Link(fat, cs, j);
      assert j + 1 < |cs| ==> Link(fat, cs, j + 1);
      assert cs[..j + 1] == cs;
    }

    // Clear a slot, and the header flag if no live slot is left.
    method ClearSlot(i: nat)
      requires Shape() && 1 <= i < TABLE_SIZE
      modifies dirTableBuf
      ensures dirTableBuf[..] == Emptied(old(dirTableBuf[..]), i)
    {
      ghost var t: Table := dirTableBuf[..];
      dirTableBuf[i] := ZERO_ENTRY;
      var notEmpty := false;
      var j := 1;
      while j < TABLE_SIZE && !notEmpty
        invariant 1 <= j <= TABLE_SIZE
        invariant notEmpty ==> HasLive(dirTableBuf[..])
        invariant !notEmpty ==> forall h :: 1 <= h < j ==> !Live(dirTableBuf[h])
      {
        if dirTableBuf[j].undelete != 0 {
          assert Live(dirTableBuf[..][j]);
          notEmpty := true;
        }
        j := j + 1;
      }
      assert dirTableBuf[..] == t[i := ZERO_ENTRY];
      assert notEmpty <==> HasLive(dirTableBuf[..]);
      if !notEmpty {
        dirTableBuf[0] := dirTableBuf[0].(userAttribute := 0);
      }
      assert dirTableBuf[..] == Emptied(t, i);
    }

    method FindTarget(req: Request) returns (i: nat)
      requires Shape()
      ensures i == Target(dirTableBuf[..], req)
    {
      ghost var t: Table := dirTableBuf[..];
      i := 1;
      while i < TABLE_SIZE
        invariant 1 <= i <= TABLE_SIZE
        invariant forall j :: 1 <= j < i ==> !Matches(t[j], Key(req.name, req.ext))
      {
        var slot := dirTableBuf[i];
        assert slot == t[i];
        if slot.ext == req.ext && slot.name == req.name && slot.undelete != 0 {
          FirstIs(t, Key(req.name, req.ext), i);
          return;
        }
        i := i + 1;
      }
      FirstIs(t, Key(req.name, req.ext), TABLE_SIZE);
    }

    // Free the chain that starts at `first` and clear slot `i`; the table goes to disk before the map.
    method RemoveSlot(p: ClusterNo, i: nat, first: nat, ghost fat: FatMap, ghost cs: seq<nat>)
      requires Shape() && 1 <= i < TABLE_SIZE && fatTable[..] == fat && IsChain(fat, cs) && first == cs[0]
      modifies device, device.image, fatTable, dirTableBuf
      ensures fatTable[..] == Freed(fat, cs)
      ensures var one, two := PutTable(p, old(Emptied(dirTableBuf[..], i))), PutFat(Freed(fat, cs));
        Content() == Put(Put(old(Content()), one), two) && device.log == old(device.log) + [one, two]
    {
      hide IsChain, Emptied, Freed, EncodeTable, EncodeFat;
      FreeChain(first, fat, cs);
      ClearSlot(i);
      StoreTable(p);
      StoreFat();
    }

    // Returns 0 on success, 1 if nothing has the name, 2 if a folder of that name is not empty, -1 if
    // the parent is no directory.
    method Delete(req: Request) returns (code: int)
      requires Intact()
      requires Allowed(Content(), vol, Op.Delete(req))
      modifies this`vol, device, device.image, fatTable, dirTableBuf
      ensures Intact() && (old(Valid()) ==> Valid())
      ensures vol == old(StepVol(Content(), vol, Op.Delete(req)))
      ensures Content() == old(StepDisk(Content(), vol, Op.Delete(req)))
      ensures device.log == old(device.log) + old(StepLog(Content(), vol, Op.Delete(req)))
      ensures code == old(Simulation.CallCode(Content(), vol, Op.Delete(req)))
      ensures old(Tab(Content(), req.parent)[0].attribute) != 0x10 ==> code == -1
    {
      hide Inv, Tree, Rep, Formatted, AsFat, AsTable, DeleteDisk, DeleteLog, StepVol, StepDisk, StepLog, Freed;
      hide IsChain, Emptied, First, FirstFrom, Target, EncodeTable, EncodeFat;
      ghost var op := Op.Delete(req);
      ghost var d, v := Content(), vol;
      StepSafe(d, v, op);
      LoadTable(req.parent);
      LoadFat();
      if !IsDir(dirTableBuf[0]) {
        return -1;
      }
      TargetInTable(dirTableBuf[..], req);
      var i := FindTarget(req);
      if i == TABLE_SIZE {
        UndeletedOutcome(d, v, op);
        return 1;
      }
      var slot := dirTableBuf[i];
      TargetFacts(d, v, req);
      if IsDir(slot) {
        var searchedDir := device.ReadCluster(slot.cluster);
        AsTableIs(searchedDir, DecodeTable(searchedDir));
        if DecodeTable(searchedDir)[0].userAttribute == UATTR_NOT_EMPTY {
          UndeletedOutcome(d, v, op);
          return 2;
        }
      }
      DeletedOutcome(d, v, op);
      RemoveSlot(req.parent, i, slot.cluster, v.fat, v.chains[Slot(req.parent, i)]);
      vol := StepVol(d, v, op);
      return 0;
    }

    /* read */

    method ReadFragment(clusterNumber: ClusterNo, out: array<Byte>, at: nat)
      requires Shape() && out != device.image && at + CLUSTER_SIZE <= out.Length
      modifies out
      ensures out[..] == Spliced(old(out[..]), at, Content()[clusterNumber])
    {
      hide Clusters;
      var data := device.ReadCluster(clusterNumber);
      forall k | 0 <= k < CLUSTER_SIZE {
        out[at + k] := data[k];
      }
    }

    // Copy the chain that starts at `first` into the caller's buffer, cluster by cluster.
    method ReadChain(first: nat, out: array<Byte>, ghost cs: seq<nat>)
      requires Shape() && out != device.image && out as object != fatTable as object
      requires IsChain(fatTable[..], cs) && InRange(cs) && first == cs[0] && CLUSTER_SIZE * |cs| <= out.Length
      modifies out
      ensures out[..] == Gather(Content(), cs) + old(out[CLUSTER_SIZE * |cs|..])
    {
      hide Clusters, Increasing, Filling, Spliced, Gather;
      ghost var d, fat: FatMap, before := Content(), fatTable[..], out[..];
      var clusterNumber := first;
      var fragmentCtr := 0;
      FillingEnds(d, cs, before);
      var more := true;
      while more
        invariant 0 <= fragmentCtr <= |cs| && (more <==> fragmentCtr < |cs|)
        invariant more ==> clusterNumber == cs[fragmentCtr]
        invariant fatTable[..] == fat && Content() == d
        invariant out[..] == Filling(d, cs, fragmentCtr, before)
        decreases |cs| - fragmentCtr
      {
        assert Link(fat, cs, fragmentCtr);
        assert fragmentCtr + 1 < |cs| ==> Link(fat, cs, fragmentCtr + 1);
        FillingGrows(d, cs, fragmentCtr, before);
        ReadFragment(clusterNumber, out, CLUSTER_SIZE * fragmentCtr);
        clusterNumber := fatTable[clusterNumber];
        fragmentCtr := fragmentCtr + 1;
        more := clusterNumber != END_OF_FILE;
      }
      FillingEnds(d, cs, before);
    }

    // The scan of a read: the slot of the file, or else whether a folder has the name.
    method FindFile(req: Request) returns (ret: int, entry: nat)
      requires Shape()
      ensures entry == First(dirTableBuf[..], FileKey(req.name, req.ext))
      ensures entry == TABLE_SIZE ==> ret == if First(dirTableBuf[..], Folder(req.name)) < TABLE_SIZE then 1 else 3
    {
      hide FirstFrom;
      ghost var t: Table := dirTableBuf[..];
      ret := 3;
      var i := 1;
      while i < TABLE_SIZE
        invariant 1 <= i <= TABLE_SIZE
        invariant forall j :: 1 <= j < i ==> !Matches(t[j], FileKey(req.name, req.ext))
        invariant ret == 1 || ret == 3
        invariant ret == 3 ==> forall j :: 1 <= j < i ==> !Matches(t[j], Folder(req.name))
        invariant ret == 1 ==> First(t, Folder(req.name)) < i
      {
        var slot := dirTableBuf[i];
        assert slot == t[i];
        if slot.name == req.name && slot.undelete != 0 {
          if IsDir(slot) {
            ret := 1;
            FirstBefore(t, Folder(req.name), i);
          } else if slot.ext == req.ext {
            FirstIs(t, FileKey(req.name, req.ext), i);
            return 0, i;
          }
        }
        i := i + 1;
      }
      FirstIs(t, FileKey(req.name, req.ext), TABLE_SIZE);
      if ret == 3 {
        FirstIs(t, Folder(req.name), TABLE_SIZE);
      }
      entry := TABLE_SIZE;
    }

    // Read a file into a buffer. Returns 0 on success, 1 if the name is a folder, 2 if the file is
    // larger than the request allows, 3 if there is none, -1 for a bad request.
    method Read(req: Request, out: array<Byte>, now: Stamp) returns (code: int, found: nat)
      requires Intact()
      requires out != device.image && out as object != fatTable as object && out as object != dirTableBuf as object
      requires Allowed(Content(), vol, Op.Read(req, now)) && ReadFits(Content(), vol, req, out.Length)
      modifies this`vol, device, device.image, fatTable, dirTableBuf, out
      ensures Intact() && (old(Valid()) ==> Valid())
      ensures vol == old(StepVol(Content(), vol, Op.Read(req, now)))
      ensures Content() == old(StepDisk(Content(), vol, Op.Read(req, now)))
      ensures device.log == old(device.log) + old(StepLog(Content(), vol, Op.Read(req, now)))
      ensures code == old(Simulation.CallCode(Content(), vol, Op.Read(req, now)))
      ensures old(Tab(Content(), req.parent)[0].attribute) != 0x10 ==> code == -1
      ensures code != 0 ==> out[..] == old(out[..])
      ensures code == 0 ==>
        && old(FileAt(Content(), vol, FileName(req.parent, req.name, req.ext))).Some?
        && old(FileAt(Content(), vol, FileName(req.parent, req.name, req.ext))).value <= out[..]
      ensures code == 0 ==>
        var t := old(Tab(Content(), req.parent));
        exists i | 1 <= i < 64 :: t[i].undelete != 0 && t[i].attribute != 0x10
          && t[i].name == req.name && t[i].ext == req.ext && found == t[i].cluster
    {
      hide Inv, Tree, Rep, Formatted, AsFat, AsTable, StepVol, StepDisk, StepLog, IsChain, First, FirstFrom;
      hide EncodeTable, EncodeFat, FileAt, Gather, InRange, Accessed;
      ghost var op, f := Op.Read(req, now), FileName(req.parent, req.name, req.ext);
      ghost var d, v := Content(), vol;
      found := 0;
      StepSafe(d, v, op);
      LoadTable(req.parent);
      ghost var t: Table := dirTableBuf[..];
      if !IsDir(dirTableBuf[0]) {
        return -1, found;
      }
      if req.size < CLUSTER_SIZE {
        UnreadOutcome(d, v, op);
        return -1, found;
      }
      var i;
      code, i := FindFile(req);
      if i == TABLE_SIZE {
        UnreadOutcome(d, v, op);
        return;
      }
      var slot := dirTableBuf[i];
      if req.size < slot.filesize {
        UnreadOutcome(d, v, op);
        return 2, found;
      }
      LoadFat();
      dirTableBuf[i] := Accessed(slot, now);
      ReadOutcome(d, v, op);
      assert dirTableBuf[..] == t[i := Accessed(t[i], now)];
      StoreTable(req.parent);
      found := slot.cluster;
      ReadChain(slot.cluster, out, v.chains[Slot(req.parent, i)]);
      vol := StepVol(d, v, op);
      code := 0;
    }

    // The scan of a folder read: the slot of the folder, or else whether a file has the key.
    method FindFolder(req: Request) returns (ret: int, entry: nat)
      requires Shape()
      ensures entry == First(dirTableBuf[..], FolderKey(req.name, req.ext))
      ensures entry == TABLE_SIZE ==> ret == if First(dirTableBuf[..], Key(req.name, req.ext)) < TABLE_SIZE then 1
        else 3
    {
      hide FirstFrom;
      ghost var t: Table := dirTableBuf[..];
      ret := 3;
      var i := 1;
      while i < TABLE_SIZE
        invariant 1 <= i <= TABLE_SIZE
        invariant forall j :: 1 <= j < i ==> !Matches(t[j], FolderKey(req.name, req.ext))
        invariant ret == 1 || ret == 3
        invariant ret == 3 ==> forall j :: 1 <= j < i ==> !Matches(t[j], Key(req.name, req.ext))
        invariant ret == 1 ==> First(t, Key(req.name, req.ext)) < i
      {
        var slot := dirTableBuf[i];
        assert slot == t[i];
        if slot.name == req.name && slot.undelete != 0 && slot.ext == req.ext {
          ret := 1;
          FirstBefore(t, Key(req.name, req.ext), i);
          if IsDir(slot) {
            FirstIs(t, FolderKey(req.name, req.ext), i);
            return 0, i;
          }
        }
        i := i + 1;
      }
      FirstIs(t, FolderKey(req.name, req.ext), TABLE_SIZE);
      if ret == 3 {
        FirstIs(t, Key(req.name, req.ext), TABLE_SIZE);
      }
      entry := TABLE_SIZE;
    }

    // Read a folder's table. Returns 0 on success, 1 if the name is a file, 2 if the buffer is too
    // small, 3 if there is none, -1 if the parent is no directory.
    method ReadDirectory(req: Request, out: array<Entry>, now: Stamp) returns (code: int, found: nat)
      requires Intact() && out.Length == TABLE_SIZE
      requires out as object != device.image as object && out as object != fatTable as object && out != dirTableBuf
      requires Allowed(Content(), vol, Op.ReadFolder(req, now))
      modifies this`vol, device, device.image, fatTable, dirTableBuf, out
      ensures Intact() && (old(Valid()) ==> Valid())
      ensures vol == old(StepVol(Content(), vol, Op.ReadFolder(req, now)))
      ensures Content() == old(StepDisk(Content(), vol, Op.ReadFolder(req, now)))
      ensures device.log == old(device.log) + old(StepLog(Content(), vol, Op.ReadFolder(req, now)))
      ensures code == old(Simulation.CallCode(Content(), vol, Op.ReadFolder(req, now)))
      ensures old(Tab(Content(), req.parent)[0].attribute) != 0x10 ==> code == -1
      ensures code != 0 ==> out[..] == old(out[..])
      ensures code == 0 ==>
        && old(FolderAt(vol, req.parent, req.name)) == Some(found)
        && found in vol.tabs && out[..] == vol.tabs[found]
        && IsSlot(vol, FolderSlotOf(vol, req)) && Ent(vol, FolderSlotOf(vol, req)).cluster == found
    {
      hide Inv, Tree, Rep, Formatted, AsFat, AsTable, StepVol, StepDisk, StepLog, IsChain, First, FirstFrom;
      hide EncodeTable, EncodeFat, FolderAt, Accessed;
      ghost var op := Op.ReadFolder(req, now);
      ghost var d, v := Content(), vol;
      found := 0;
      StepSafe(d, v, op);
      LoadTable(req.parent);
      ghost var t: Table := dirTableBuf[..];
      if !IsDir(dirTableBuf[0]) {
        return -1, found;
      }
      var i;
      code, i := FindFolder(req);
      if i == TABLE_SIZE {
        UnreadOutcome(d, v, op);
        return;
      }
      if req.size < CLUSTER_SIZE {
        UnreadOutcome(d, v, op);
        return 2, found;
      }
      var slot := dirTableBuf[i];
      LoadFat();
      dirTableBuf[i] := Accessed(slot, now);
      ReadFolderOutcome(d, v, op);
      assert dirTableBuf[..] == t[i := Accessed(t[i], now)];
      StoreTable(req.parent);
      found := slot.cluster;
      var data := device.ReadCluster(found);
      var table := DecodeTable(data);
      AsTableIs(data, table);
      forall j | 0 <= j < TABLE_SIZE {
        out[j] := table[j];
      }
      assert out[..] == table;
      vol := StepVol(d, v, op);
      code := 0;
    }
  }

  lemma FirstFound(t: Table, p: Pattern, i: nat)
    requires 1 <= i < TABLE_SIZE && Matches(t[i], p)
    ensures First(t, p) < TABLE_SIZE
  {
  }

  lemma FirstBefore(t: Table, p: Pattern, i: nat)
    requires 1 <= i < TABLE_SIZE && Matches(t[i], p)
    ensures First(t, p) < i + 1
  {
  }

  lemma FolderLogEffect(d: Disk, fat: FatMap, t: Table, req: Request, now: Stamp)
    requires req.parent < DISK_CLUSTERS && req.size == 0 && HasRoom(fat, t, req)
    ensures var log := FolderLog(fat, t, req, now);
      FolderDisk(d, fat, t, req, now) == Put(Put(Put(d, log[0]), log[1]), log[2])
  {
    hide EncodeTable, EncodeFat, FreeCount, Filled, FolderEntry, NewTable;
    var log := FolderLog(fat, t, req, now);
    ApplyThree(d, log[0], log[1], log[2]);
  }

  // What a call leaves behind is again a good state.
  lemma StepSafe(d: Disk, v: Vol, op: Op)
    requires Rep(d, v) && Tree(v) && Allowed(d, v, op) && Formatted(d)
    ensures Rep(StepDisk(d, v, op), StepVol(d, v, op)) && Formatted(StepDisk(d, v, op))
    ensures Tree(StepVol(d, v, op)) && (Inv(v) ==> Inv(StepVol(d, v, op)))
    ensures Fat(d) == v.fat
    ensures Refused(d, op) ==> StepDisk(d, v, op) == d && StepVol(d, v, op) == v && StepLog(d, v, op) == []
    ensures !Refused(d, op) ==>
      op.req.parent in v.tabs && Tab(d, op.req.parent) == v.tabs[op.req.parent] && IsDir(v.tabs[op.req.parent][0])
  {
    hide Tree, AsFat, AsTable, First, FirstFrom, FileDisk, FolderDisk, FileLog, FolderLog;
    StepKeeps(d, v, op, FileName(0, ZERO_NAME, ZERO_EXT));
    StepKeepsBoot(d, v, op);
    if !Refused(d, op) {
      Simulation.DirHeader(v, op.req.parent);
    }
  }

  lemma TakenOutcome(d: Disk, v: Vol, op: Op)
    requires Rep(d, v) && Tree(v) && Allowed(d, v, op) && op.Write? && !Refused(d, op)
    requires WriteCode(v.tabs[op.req.parent], op.req) != 0
    ensures StepDisk(d, v, op) == d && StepVol(d, v, op) == v && StepLog(d, v, op) == []
  {
    hide Tree, AsFat, AsTable;
  }

  lemma FolderOutcome(d: Disk, v: Vol, op: Op)
    requires Rep(d, v) && Tree(v) && Allowed(d, v, op) && op.Write? && !Refused(d, op)
    requires WriteCode(v.tabs[op.req.parent], op.req) == 0 && op.req.size == 0
    ensures HasRoom(v.fat, v.tabs[op.req.parent], op.req)
    ensures StepDisk(d, v, op) == FolderDisk(d, v.fat, v.tabs[op.req.parent], op.req, op.now)
    ensures StepLog(d, v, op) == FolderLog(v.fat, v.tabs[op.req.parent], op.req, op.now)
    ensures StepVol(d, v, op).fat == v.fat[NewCluster(v.fat) := END_OF_FILE]
    ensures NewCluster(v.fat) == FirstFree(v.fat)
  {
    hide Tree, AsFat, AsTable;
  }

  lemma FileOutcome(d: Disk, v: Vol, op: Op)
    requires Rep(d, v) && Tree(v) && Allowed(d, v, op) && op.Write? && !Refused(d, op)
    requires WriteCode(v.tabs[op.req.parent], op.req) == 0 && op.req.size > 0
    ensures HasRoom(v.fat, v.tabs[op.req.parent], op.req) && Holds(op.buf, Blocks(op.req.size))
    ensures StepDisk(d, v, op) == FileDisk(d, v.fat, v.tabs[op.req.parent], op.req, op.buf, op.now)
    ensures StepLog(d, v, op) == FileLog(v.fat, v.tabs[op.req.parent], op.req, op.buf, op.now)
    ensures StepVol(d, v, op).fat == Linked(v.fat, FileChain(v.fat, op.req.size))
  {
    hide Tree, AsFat, AsTable, FileDisk, FileLog;
  }

  lemma FragmentStep(j: nat)
    ensures (Fragment(j) + 1) % 256 == Fragment(j + 1)
    ensures Fragment(0) == 0
  {
  }

  lemma BlocksBound(size: nat)
    requires size > 0
    ensures CLUSTER_SIZE * (Blocks(size) - 1) < size <= CLUSTER_SIZE * Blocks(size)
  {
  }

  lemma {:induction false} LinkedNone(fat: FatMap)
    ensures Linked(fat, []) == fat
  {
  }

  lemma {:induction false} ChainLogGrows(d: Disk, fat: FatMap, cs: seq<nat>, buf: seq<Byte>, j: nat)
    requires InRange(cs) && j < |cs| && Holds(buf, |cs|)
    ensures var ws := ChainLog(fat, cs[..j], buf);
      var one, two := PutFat(Linked(fat, cs[..j + 1])), ClusterWrite(cs[j], Chunk(buf, j));
      && ChainLog(fat, cs[..j + 1], buf) == ws + [one, two]
      && Apply(d, ChainLog(fat, cs[..j + 1], buf)) == Put(Put(Apply(d, ws), one), two)
  {
    hide Linked, EncodeFat, Chunk;
    var ws := ChainLog(fat, cs[..j], buf);
    var one, two := PutFat(Linked(fat, cs[..j + 1])), ClusterWrite(cs[j], Chunk(buf, j));
    assert cs[..j + 1][..j] == cs[..j];
    ApplyOne(d, ws, one);
    ApplyOne(d, ws + [one], two);
    assert ws + [one, two] == ws + [one] + [two];
  }

  ghost function Spliced(out: seq<Byte>, at: nat, data: seq<Byte>): seq<Byte>
    requires at + |data| <= |out|
  {
    out[..at] + data + out[at + |data|..]
  }

  // A buffer that started as `before`, after `j` clusters of `cs` have been copied into it.
  ghost function Filling(d: Disk, cs: seq<nat>, j: nat, before: seq<Byte>): (out: seq<Byte>)
    requires InRange(cs) && j <= |cs| && CLUSTER_SIZE * |cs| <= |before|
    ensures |out| == |before|
  {
    Gather(d, cs[..j]) + before[CLUSTER_SIZE * j..]
  }

  lemma FillingGrows(d: Disk, cs: seq<nat>, j: nat, before: seq<Byte>)
    requires InRange(cs) && j < |cs| && CLUSTER_SIZE * |cs| <= |before|
    ensures Spliced(Filling(d, cs, j, before), CLUSTER_SIZE * j, d[cs[j]]) == Filling(d, cs, j + 1, before)
  {
    assert cs[..j + 1][..j] == cs[..j];
    var g := Gather(d, cs[..j]);
    var at := CLUSTER_SIZE * j;
    assert (g + before[at..])[..at] == g;
    assert (g + before[at..])[at + CLUSTER_SIZE..] == before[at + CLUSTER_SIZE..];
  }

  lemma {:induction false} FillingEnds(d: Disk, cs: seq<nat>, before: seq<Byte>)
    requires InRange(cs) && CLUSTER_SIZE * |cs| <= |before|
    ensures Filling(d, cs, 0, before) == before
    ensures Filling(d, cs, |cs|, before) == Gather(d, cs) + before[CLUSTER_SIZE * |cs|..]
  {
    assert cs[..|cs|] == cs && cs[..0] == [];
  }

  /* delete */

  lemma TargetFacts(d: Disk, v: Vol, req: Request)
    requires Rep(d, v) && Tree(v) && req.parent in v.tabs && Target(v.tabs[req.parent], req) < TABLE_SIZE
    ensures var s := TargetSlot(v, req);
      && s in v.chains && IsChain(v.fat, v.chains[s]) && Ent(v, s).cluster == v.chains[s][0]
      && (IsDir(Ent(v, s)) ==>
            && Ent(v, s).cluster in v.tabs && Ent(v, s).cluster < DISK_CLUSTERS
            && Tab(d, Ent(v, s).cluster) == v.tabs[Ent(v, s).cluster])
  {
    hide AsTable, AsFat, IsChain, DirOk, FirstFrom;
    var s := TargetSlot(v, req);
    assert Covered(v, s);
    assert SlotOk(v, s);
  }

  lemma UndeletedOutcome(d: Disk, v: Vol, op: Op)
    requires Rep(d, v) && Tree(v) && Allowed(d, v, op) && op.Delete? && !Refused(d, op)
    requires DeleteCode(v, op.req) != 0
    ensures StepDisk(d, v, op) == d && StepVol(d, v, op) == v && StepLog(d, v, op) == []
  {
    hide Tree, AsFat, AsTable;
  }

  lemma DeletedOutcome(d: Disk, v: Vol, op: Op)
    requires Rep(d, v) && Tree(v) && Allowed(d, v, op) && op.Delete? && !Refused(d, op)
    requires DeleteCode(v, op.req) == 0
    ensures var s := TargetSlot(v, op.req);
      && s in v.chains && IsSlot(v, s)
      && var one, two := PutTable(op.req.parent, Emptied(v.tabs[op.req.parent], s.index)),
        PutFat(Freed(v.fat, v.chains[s]));
      && StepLog(d, v, op) == [one, two]
      && StepDisk(d, v, op) == Put(Put(d, one), two)
      && StepVol(d, v, op).fat == Freed(v.fat, v.chains[s])
  {
    hide SlotOk, DirOk, AsFat, AsTable, Freed, Emptied, EncodeTable, EncodeFat, FirstFrom;
    TargetIsLive(v, op.req);
    var s := TargetSlot(v, op.req);
    ApplyTwo(d, PutTable(op.req.parent, Emptied(v.tabs[op.req.parent], s.index)), PutFat(Freed(v.fat, v.chains[s])));
  }

  /* read */

  // The caller's buffer holds the whole clusters of the file that will be found.
  ghost predicate ReadFits(d: Disk, v: Vol, req: Request, length: nat) {
    req.parent in v.tabs && ReadCode(v.tabs[req.parent], req) == 0 ==>
      var t := v.tabs[req.parent];
      CLUSTER_SIZE * Blocks(t[First(t, FileKey(req.name, req.ext))].filesize) <= length
  }

  lemma UnreadOutcome(d: Disk, v: Vol, op: Op)
    requires Rep(d, v) && Tree(v) && Allowed(d, v, op) && (op.Read? || op.ReadFolder?) && !Refused(d, op)
    requires Simulation.Code(v, op) != 0
    ensures StepDisk(d, v, op) == d && StepVol(d, v, op) == v && StepLog(d, v, op) == []
  {
    hide Tree, AsFat, AsTable, First, FirstFrom;
  }

  lemma ReadOutcome(d: Disk, v: Vol, op: Op)
    requires Rep(d, v) && Tree(v) && Allowed(d, v, op) && op.Read? && !Refused(d, op)
    requires Simulation.Code(v, op) == 0
    ensures var t := v.tabs[op.req.parent];
      var i := First(t, FileKey(op.req.name, op.req.ext));
      var s := Slot(op.req.parent, i);
      && i < TABLE_SIZE && s in v.chains && IsChain(v.fat, v.chains[s]) && InRange(v.chains[s])
      && t[i].cluster == v.chains[s][0] && |v.chains[s]| == Blocks(t[i].filesize)
      && var one := PutTable(op.req.parent, t[i := Accessed(t[i], op.now)]);
      && StepLog(d, v, op) == [one] && StepDisk(d, v, op) == Put(d, one)
      && StepVol(d, v, op).fat == v.fat
      && FileAt(d, v, FileName(op.req.parent, op.req.name, op.req.ext)).Some?
      && FileAt(d, v, FileName(op.req.parent, op.req.name, op.req.ext)).value <= Gather(Put(d, one), v.chains[s])
  {
    hide AsFat, AsTable, EncodeTable, DirOk, FirstFrom, Gather, IsChain, Accessed;
    FoundIsLive(v, op);
    var t := v.tabs[op.req.parent];
    var i := First(t, FileKey(op.req.name, op.req.ext));
    var s := Slot(op.req.parent, i);
    var one := PutTable(op.req.parent, t[i := Accessed(t[i], op.now)]);
    assert SlotOk(v, s);
    ChainRange(v.fat, v.chains[s]);
    ApplyTwo(d, one, one);
    forall j | 0 <= j < |v.chains[s]|
      ensures d[v.chains[s][j]] == Put(d, one)[v.chains[s][j]]
    {
      FileCellIsNoDir(v, s, v.chains[s][j]);
    }
    GatherFrame(d, Put(d, one), v.chains[s]);
  }

  lemma ChainRange(fat: FatMap, cs: seq<nat>)
    requires IsChain(fat, cs)
    ensures InRange(cs)
  {
    forall j | 0 <= j < |cs|
      ensures 3 <= cs[j] < CLUSTER_MAP_SIZE
    {
      assert Link(fat, cs, j);
    }
  }

  lemma ReadFolderOutcome(d: Disk, v: Vol, op: Op)
    requires Rep(d, v) && Tree(v) && Allowed(d, v, op) && op.ReadFolder? && !Refused(d, op)
    requires Simulation.Code(v, op) == 0
    ensures var t := v.tabs[op.req.parent];
      var i := First(t, FolderKey(op.req.name, op.req.ext));
      && i < TABLE_SIZE && t[i].cluster in v.tabs && t[i].cluster < DISK_CLUSTERS
      && var one := PutTable(op.req.parent, t[i := Accessed(t[i], op.now)]);
      && StepLog(d, v, op) == [one] && StepDisk(d, v, op) == Put(d, one)
      && StepVol(d, v, op).fat == v.fat
      && FolderAt(v, op.req.parent, op.req.name) == Some(t[i].cluster)
      && IsSlot(StepVol(d, v, op), FolderSlotOf(StepVol(d, v, op), op.req))
      && Ent(StepVol(d, v, op), FolderSlotOf(StepVol(d, v, op), op.req)).cluster == t[i].cluster
      && t[i].cluster in StepVol(d, v, op).tabs
      && Tab(Put(d, one), t[i].cluster) == StepVol(d, v, op).tabs[t[i].cluster]
  {
    hide AsFat, AsTable, EncodeTable, FirstFrom, IsChain, Accessed, FolderAt;
    FoundIsLive(v, op);
    var t := v.tabs[op.req.parent];
    var i := First(t, FolderKey(op.req.name, op.req.ext));
    var s := Slot(op.req.parent, i);
    var one := PutTable(op.req.parent, t[i := Accessed(t[i], op.now)]);
    assert SlotOk(v, s);
    ApplyTwo(d, one, one);
    Simulation.OnlyFolder(v, op.req.parent, i);
    ChildIsOther(v, s);
    AccessedMatches(t, i, op.now, FolderKey(op.req.name, op.req.ext));
  }

  lemma AccessedMatches(t: Table, i: nat, now: Stamp, p: Pattern)
    requires i < TABLE_SIZE
    ensures First(t[i := Accessed(t[i], now)], p) == First(t, p)
    ensures Accessed(t[i], now).cluster == t[i].cluster
  {
    SameMatches(t, t[i := Accessed(t[i], now)], p);
  }

  // The slot of the folder that a request names.
  ghost function FolderSlotOf(v: Vol, req: Request): Slot {
    Slot(req.parent, if req.parent in v.tabs then First(v.tabs[req.parent], FolderKey(req.name, req.ext)) else 0)
  }

  lemma ChildIsOther(v: Vol, s: Slot)
    requires Tree(v) && s in v.chains && IsSlot(v, s) && IsDir(Ent(v, s))
    ensures Ent(v, s).cluster in v.tabs && Ent(v, s).cluster != s.dir
  {
    hide IsChain;
    assert SlotOk(v, s);
    assert DirOk(v, Ent(v, s).cluster);
  }

  lemma TargetInTable(t: Table, req: Request)
    ensures 1 <= Target(t, req) <= TABLE_SIZE
  {
  }
}
