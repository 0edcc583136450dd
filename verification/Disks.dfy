// The disk: an image of 512-byte blocks read and written in clusters, and what its clusters decode
// to.
module Disks {
  import opened Layout
  import opened Volume

  const DISK_CLUSTERS := 2048
  const DISK_BLOCKS := 8192
  const IMAGE_SIZE := 4194304

  const ZERO_DISK: seq<Cluster> := seq<Cluster>(DISK_CLUSTERS, _ => ZERO_CLUSTER)

  type ClusterNo = x: int | 0 <= x < DISK_CLUSTERS
  type Disk = s: seq<Cluster> | |s| == DISK_CLUSTERS witness ZERO_DISK

  // "FAT32 - IF2230 edition" and a line feed.
  const SIGNATURE_TEXT: seq<Byte> :=
    [70, 65, 84, 51, 50, 32, 45, 32, 73, 70, 50, 50, 51, 48, 32, 101, 100, 105, 116, 105, 111, 110, 10]

  // The boot block of a formatted disk: the text, padded with zeros.
  function Signature(): (b: seq<Byte>)
    ensures |b| == BLOCK_SIZE
  {
    SIGNATURE_TEXT + seq(BLOCK_SIZE - |SIGNATURE_TEXT|, _ => 0)
  }

  predicate Formatted(d: Disk) {
    d[0][..BLOCK_SIZE] == Signature()
  }

  ghost function Fat(d: Disk): FatMap {
    AsFat(d[FAT_CLUSTER])
  }

  ghost function Tab(d: Disk, c: ClusterNo): Table {
    AsTable(d[c])
  }

  // The disk decodes to the map and the tables of `v`.
  ghost predicate Rep(d: Disk, v: Vol) {
    && Fat(d) == v.fat
    && forall c :: c in v.tabs ==> c < DISK_CLUSTERS && Tab(d, c) == v.tabs[c]
  }

  /* Cluster writes */

  datatype ClusterWrite = ClusterWrite(cluster: ClusterNo, data: Cluster)

  function Put(d: Disk, w: ClusterWrite): Disk {
    d[w.cluster := w.data]
  }

  // The disk after a sequence of cluster writes.
  function Apply(d: Disk, ws: seq<ClusterWrite>): Disk {
    if |ws| == 0 then d else Put(Apply(d, ws[..|ws| - 1]), ws[|ws| - 1])
  }

  lemma {:induction false} ApplyOne(d: Disk, ws: seq<ClusterWrite>, w: ClusterWrite)
    ensures Apply(d, ws + [w]) == Put(Apply(d, ws), w)
  {
    assert (ws + [w])[..|ws|] == ws;
  }

  lemma {:induction false} ApplyConcat(d: Disk, ws: seq<ClusterWrite>, us: seq<ClusterWrite>)
    ensures Apply(d, ws + us) == Apply(Apply(d, ws), us)
  {
    hide Put;
    if us == [] {
      assert ws + us == ws;
    } else {
      var init, last := us[..|us| - 1], us[|us| - 1];
      ApplyConcat(d, ws, init);
      ApplyOne(d, ws + init, last);
      ApplyOne(Apply(d, ws), init, last);
      assert us == init + [last];
      assert ws + us == ws + init + [last];
    }
  }

  lemma {:induction false} ApplyElsewhere(d: Disk, ws: seq<ClusterWrite>, c: ClusterNo)
    requires forall i :: 0 <= i < |ws| ==> ws[i].cluster != c
    ensures Apply(d, ws)[c] == d[c]
  {
    if ws != [] {
      ApplyElsewhere(d, ws[..|ws| - 1], c);
    }
  }

  function PutFat(fat: FatMap): ClusterWrite {
    ClusterWrite(FAT_CLUSTER, EncodeFat(fat))
  }

  function PutTable(c: ClusterNo, t: Table): ClusterWrite {
    ClusterWrite(c, EncodeTable(t))
  }

  /* File contents */

  // The bytes of the clusters of `cs`, in order.
  function Gather(d: Disk, cs: seq<nat>): (data: seq<Byte>)
    requires forall j :: 0 <= j < |cs| ==> cs[j] < DISK_CLUSTERS
    ensures |data| == CLUSTER_SIZE * |cs|
  {
    if |cs| == 0 then [] else Gather(d, cs[..|cs| - 1]) + d[cs[|cs| - 1]]
  }

  lemma {:induction false} GatherFrame(d: Disk, e: Disk, cs: seq<nat>)
    requires forall j :: 0 <= j < |cs| ==> cs[j] < DISK_CLUSTERS && d[cs[j]] == e[cs[j]]
    ensures Gather(d, cs) == Gather(e, cs)
  {
    if |cs| > 0 {
      GatherFrame(d, e, cs[..|cs| - 1]);
    }
  }

  /* The device */

  function Clusters(bytes: seq<Byte>): Disk
    requires |bytes| == IMAGE_SIZE
  {
    seq(DISK_CLUSTERS, c requires 0 <= c < DISK_CLUSTERS => bytes[CLUSTER_SIZE * c..CLUSTER_SIZE * c + CLUSTER_SIZE])
  }

  // Cluster `c` is the 2048 bytes of the image from 2048 * c on.
  lemma ImageOffsets(bytes: seq<Byte>, c: nat, k: nat)
    requires |bytes| == 4194304 && c < 2048 && k < 2048
    ensures Clusters(bytes)[c][k] == bytes[2048 * c + k]
  {
  }

  // Byte `k` of the image lies in the `count` blocks from `lba` on.
  predicate Inside(k: int, lba: nat, count: nat) {
    BLOCK_SIZE * lba <= k < BLOCK_SIZE * (lba + count)
  }

  class BlockDevice {
    const image: array<Byte>
    // Every cluster write so far.
    ghost var log: seq<ClusterWrite>

    ghost predicate Valid() {
      image.Length == IMAGE_SIZE
    }

    ghost function Content(): Disk
      reads image
      requires Valid()
    {
      Clusters(image[..])
    }

    constructor (bytes: array<Byte>)
      requires bytes.Length == IMAGE_SIZE
      ensures Valid() && image == bytes && log == []
    {
      image := bytes;
      log := [];
    }

    method ReadBlocks(lba: nat, count: nat) returns (data: seq<Byte>)
      requires Valid() && lba + count <= DISK_BLOCKS
      ensures data == image[BLOCK_SIZE * lba..BLOCK_SIZE * (lba + count)]
    {
      data := [];
      for i := 0 to count
        invariant data == image[BLOCK_SIZE * lba..BLOCK_SIZE * (lba + i)]
      {
        var at := BLOCK_SIZE * (lba + i);
        data := data + image[at..at + BLOCK_SIZE];
      }
    }

    method WriteBlocks(data: seq<Byte>, lba: nat, count: nat)
      requires Valid() && lba + count <= DISK_BLOCKS && |data| == BLOCK_SIZE * count
      modifies image
      ensures forall k :: 0 <= k < IMAGE_SIZE ==>
        image[k] == if Inside(k, lba, count) then data[k - BLOCK_SIZE * lba] else old(image[k])
    {
      for i := 0 to count
        invariant forall k :: 0 <= k < IMAGE_SIZE ==>
          image[k] == if Inside(k, lba, i) then data[k - BLOCK_SIZE * lba] else old(image[k])
      {
        forall k | 0 <= k < BLOCK_SIZE {
          image[BLOCK_SIZE * (lba + i) + k] := data[BLOCK_SIZE * i + k];
        }
      }
    }

    method ReadCluster(c: ClusterNo) returns (data: Cluster)
      requires Valid()
      ensures data == Content()[c]
    {
      data := ReadBlocks(CLUSTER_BLOCK_COUNT * c, CLUSTER_BLOCK_COUNT);
    }

    method WriteCluster(c: ClusterNo, data: Cluster)
      requires Valid()
      modifies this, image
      ensures Content() == Put(old(Content()), ClusterWrite(c, data))
      ensures log == old(log) + [ClusterWrite(c, data)]
    {
      WriteBlocks(data, CLUSTER_BLOCK_COUNT * c, CLUSTER_BLOCK_COUNT);
      log := log + [ClusterWrite(c, data)];
      forall e | 0 <= e < DISK_CLUSTERS
        ensures Content()[e] == Put(old(Content()), ClusterWrite(c, data))[e]
      {
        var at := CLUSTER_SIZE * e;
        if e == c {
          assert forall k :: 0 <= k < CLUSTER_SIZE ==> image[at..at + CLUSTER_SIZE][k] == data[k];
          assert image[at..at + CLUSTER_SIZE] == data;
        } else {
          assert forall k :: at <= k < at + CLUSTER_SIZE ==> !Inside(k, CLUSTER_BLOCK_COUNT * c, CLUSTER_BLOCK_COUNT);
          assert image[at..at + CLUSTER_SIZE] == old(image[at..at + CLUSTER_SIZE]);
        }
      }
    }

    // The boot sector is one block: the rest of cluster 0 stays.
    method WriteBoot(data: seq<Byte>)
      requires Valid() && |data| == BLOCK_SIZE
      modifies image
      ensures Content() == old(Content())[0 := data + old(Content())[0][BLOCK_SIZE..]]
    {
      WriteBlocks(data, 0, 1);
      forall e | 0 <= e < DISK_CLUSTERS
        ensures Content()[e] == old(Content())[0 := data + old(Content())[0][BLOCK_SIZE..]][e]
      {
        var at := CLUSTER_SIZE * e;
        if e == 0 {
          assert image[..CLUSTER_SIZE] == data + old(image[..CLUSTER_SIZE][BLOCK_SIZE..]);
        } else {
          assert image[at..at + CLUSTER_SIZE] == old(image[at..at + CLUSTER_SIZE]);
        }
      }
    }
  }
}
