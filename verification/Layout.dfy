// The on-disk layout of the file system: 32-byte directory entries, 64-slot directory tables and
// the 512-cell cluster map, each filling one 2048-byte cluster, little endian and packed.
module Layout {

  type Byte = x: int | 0 <= x < 0x100
  type U16 = x: int | 0 <= x < 0x1_0000
  type U32 = x: int | 0 <= x < 0x1_0000_0000

  const BLOCK_SIZE := 512
  const CLUSTER_BLOCK_COUNT := 4
  const CLUSTER_SIZE := 2048
  const CLUSTER_MAP_SIZE := 512
  const ENTRY_SIZE := 32
  const TABLE_SIZE := 64

  const CLUSTER_0_VALUE: U32 := 0x0FFF_FFF0
  const CLUSTER_1_VALUE: U32 := 0x0FFF_FFFF
  const END_OF_FILE: U32 := 0x0FFF_FFFF

  const FAT_CLUSTER := 1
  const ROOT_CLUSTER := 2

  const ATTR_SUBDIRECTORY: Byte := 0x10
  const UATTR_NOT_EMPTY: Byte := 0xAA

  type Name = s: seq<Byte> | |s| == 8 witness [0, 0, 0, 0, 0, 0, 0, 0]
  type Ext = s: seq<Byte> | |s| == 3 witness [0, 0, 0]

  const ZERO_NAME: Name := [0, 0, 0, 0, 0, 0, 0, 0]
  const ZERO_EXT: Ext := [0, 0, 0]

  // The fields that no operation reads back.
  datatype Times = Times(
    createTime: U16,
    createDate: U16,
    accessDate: U16,
    modifiedTime: U16,
    modifiedDate: U16)

  const ZERO_TIMES := Times(0, 0, 0, 0, 0)

  // A directory entry; `cluster` joins the two 16-bit halves that the disk keeps apart.
  datatype Entry = Entry(
    name: Name,
    ext: Ext,
    attribute: Byte,
    userAttribute: Byte,
    undelete: Byte,
    times: Times,
    cluster: U32,
    filesize: U32)

  const ZERO_ENTRY := Entry(ZERO_NAME, ZERO_EXT, 0, 0, 0, ZERO_TIMES, 0, 0)

  type Table = t: seq<Entry> | |t| == TABLE_SIZE witness seq(TABLE_SIZE, _ => ZERO_ENTRY)
  type FatMap = f: seq<U32> | |f| == CLUSTER_MAP_SIZE witness seq(CLUSTER_MAP_SIZE, _ => 0)
  type Cluster = s: seq<Byte> | |s| == CLUSTER_SIZE witness seq(CLUSTER_SIZE, _ => 0)

  const ZERO_CLUSTER: Cluster := seq(CLUSTER_SIZE, _ => 0)

  predicate Live(e: Entry) {
    e.undelete != 0
  }

  predicate IsDir(e: Entry) {
    e.attribute == ATTR_SUBDIRECTORY
  }

  /* Little-endian numbers */

  function Le16(x: U16): (b: seq<Byte>)
    ensures |b| == 2
  {
    [x % 0x100, x / 0x100]
  }

  function Le32(x: U32): (b: seq<Byte>)
    ensures |b| == 4
  {
    var y := x / 0x100;
    var z := y / 0x100;
    [x % 0x100, y % 0x100, z % 0x100, z / 0x100]
  }

  function Un16(lo: Byte, hi: Byte): (x: U16) {
    lo as int + 0x100 * (hi as int)
  }

  function Un32(b0: Byte, b1: Byte, b2: Byte, b3: Byte): (x: U32) {
    b0 as int + 0x100 * (b1 as int + 0x100 * (b2 as int + 0x100 * (b3 as int)))
  }

  function Halves(high: U16, low: U16): (x: U32) {
    high as int * 0x1_0000 + low as int
  }

  lemma Digits(lo: Byte, rest: nat)
    ensures (lo + 0x100 * rest) % 0x100 == lo && (lo + 0x100 * rest) / 0x100 == rest
  {
  }

  lemma RoundTrip16(x: U16, lo: Byte, hi: Byte)
    ensures Un16(x % 0x100, x / 0x100) == x
    ensures Le16(Un16(lo, hi)) == [lo, hi]
  {
    Digits(lo, hi);
  }

  lemma RoundTrip32(x: U32, b0: Byte, b1: Byte, b2: Byte, b3: Byte)
    ensures var b := Le32(x); Un32(b[0], b[1], b[2], b[3]) == x
    ensures Le32(Un32(b0, b1, b2, b3)) == [b0, b1, b2, b3]
  {
    Digits(b2, b3);
    Digits(b1, b2 as int + 0x100 * (b3 as int));
    Digits(b0, b1 as int + 0x100 * (b2 as int + 0x100 * (b3 as int)));
  }

  /* Directory entries */

  // The 21 bytes that follow the name and the extension.
  function EncodeAttributes(e: Entry): (b: seq<Byte>)
    ensures |b| == 21
  {
    var ct, cd, ad := Le16(e.times.createTime), Le16(e.times.createDate), Le16(e.times.accessDate);
    var ch, cl := Le16(e.cluster / 0x1_0000), Le16(e.cluster % 0x1_0000);
    var mt, md, fs := Le16(e.times.modifiedTime), Le16(e.times.modifiedDate), Le32(e.filesize);
    [e.attribute, e.userAttribute, e.undelete, ct[0], ct[1], cd[0], cd[1], ad[0], ad[1], ch[0], ch[1],
     mt[0], mt[1], md[0], md[1], cl[0], cl[1], fs[0], fs[1], fs[2], fs[3]]
  }

  function EncodeEntry(e: Entry): (b: seq<Byte>)
    ensures |b| == ENTRY_SIZE
  {
    e.name + e.ext + EncodeAttributes(e)
  }

  function DecodeEntry(b: seq<Byte>): Entry
    requires |b| == ENTRY_SIZE
  {
    var times := Times(Un16(b[14], b[15]), Un16(b[16], b[17]), Un16(b[18], b[19]),
                       Un16(b[22], b[23]), Un16(b[24], b[25]));
    var high, low := Un16(b[20], b[21]), Un16(b[26], b[27]);
    Entry(b[..8], b[8..11], b[11], b[12], b[13], times, Halves(high, low), Un32(b[28], b[29], b[30], b[31]))
  }

  lemma EntryRoundTrip(e: Entry)
    ensures DecodeEntry(EncodeEntry(e)) == e
  {
    var b := EncodeEntry(e);
    assert b[..8] == e.name;
    assert b[8..11] == e.ext;
    RoundTrip16(e.times.createTime, 0, 0);
    RoundTrip16(e.times.createDate, 0, 0);
    RoundTrip16(e.times.accessDate, 0, 0);
    RoundTrip16(e.cluster / 0x1_0000, 0, 0);
    RoundTrip16(e.times.modifiedTime, 0, 0);
    RoundTrip16(e.times.modifiedDate, 0, 0);
    RoundTrip16(e.cluster % 0x1_0000, 0, 0);
    RoundTrip32(e.filesize, 0, 0, 0, 0);
  }

  // Where the fields of an entry stand: numbers low byte first, the halves of the cluster apart.
  lemma EntryOffsets(b: seq<Byte>)
    requires |b| == 32
    ensures var e := DecodeEntry(b);
      && e.name == b[0..8] && e.ext == b[8..11]
      && e.attribute == b[11] && e.userAttribute == b[12] && e.undelete == b[13]
      && e.times.createTime == (b[14] as int) + 0x100 * (b[15] as int)
      && e.times.createDate == (b[16] as int) + 0x100 * (b[17] as int)
      && e.times.accessDate == (b[18] as int) + 0x100 * (b[19] as int)
      && e.times.modifiedTime == (b[22] as int) + 0x100 * (b[23] as int)
      && e.times.modifiedDate == (b[24] as int) + 0x100 * (b[25] as int)
      && e.cluster == (b[26] as int) + 0x100 * (b[27] as int) + 0x1_0000 * (b[20] as int) + 0x100_0000 * (b[21] as int)
      && e.filesize == (b[28] as int) + 0x100 * (b[29] as int) + 0x1_0000 * (b[30] as int) + 0x100_0000 * (b[31] as int)
    ensures Live(DecodeEntry(b)) <==> b[13] != 0
    ensures IsDir(DecodeEntry(b)) <==> b[11] == 16
  {
  }

  lemma AttributeBytesRoundTrip(b: seq<Byte>)
    requires |b| == ENTRY_SIZE
    ensures EncodeAttributes(DecodeEntry(b)) == b[11..]
  {
    hide Le16, Le32, Un16, Un32;
    var high, low := Un16(b[20], b[21]), Un16(b[26], b[27]);
    assert Halves(high, low) / 0x1_0000 == high && Halves(high, low) % 0x1_0000 == low;
    RoundTrip16(0, b[14], b[15]);
    RoundTrip16(0, b[16], b[17]);
    RoundTrip16(0, b[18], b[19]);
    RoundTrip16(0, b[20], b[21]);
    RoundTrip16(0, b[22], b[23]);
    RoundTrip16(0, b[24], b[25]);
    RoundTrip16(0, b[26], b[27]);
    RoundTrip32(0, b[28], b[29], b[30], b[31]);
  }

  lemma EntryBytesRoundTrip(b: seq<Byte>)
    requires |b| == ENTRY_SIZE
    ensures EncodeEntry(DecodeEntry(b)) == b
  {
    hide EncodeAttributes;
    AttributeBytesRoundTrip(b);
  }

  /* Directory tables */

  function EncodeTable(t: Table): Cluster {
    seq(CLUSTER_SIZE, k requires 0 <= k < CLUSTER_SIZE => EncodeEntry(t[k / ENTRY_SIZE])[k % ENTRY_SIZE])
  }

  function EntryBytes(b: Cluster, i: nat): (r: seq<Byte>)
    requires i < TABLE_SIZE
    ensures |r| == ENTRY_SIZE
  {
    b[ENTRY_SIZE * i..ENTRY_SIZE * i + ENTRY_SIZE]
  }

  function DecodeTable(b: Cluster): Table {
    seq(TABLE_SIZE, i requires 0 <= i < TABLE_SIZE => DecodeEntry(EntryBytes(b, i)))
  }

  lemma Position(i: nat, k: nat, width: nat)
    requires k < width && (width == ENTRY_SIZE || width == 4)
    ensures (width * i + k) / width == i && (width * i + k) % width == k
  {
  }

  // Reading back a written table yields the table.
  lemma TableRoundTrip(t: Table)
    ensures DecodeTable(EncodeTable(t)) == t
  {
    hide EncodeEntry, DecodeEntry;
    var b := EncodeTable(t);
    forall i | 0 <= i < TABLE_SIZE
      ensures DecodeTable(b)[i] == t[i]
    {
      var bytes := EntryBytes(b, i);
      forall k | 0 <= k < ENTRY_SIZE
        ensures bytes[k] == EncodeEntry(t[i])[k]
      {
        Position(i, k, ENTRY_SIZE);
        assert bytes[k] == b[ENTRY_SIZE * i + k];
      }
      assert bytes == EncodeEntry(t[i]);
      EntryRoundTrip(t[i]);
    }
  }

  // Every cluster is the image of some table: loading and storing a table never changes a byte.
  lemma TableBytesRoundTrip(b: Cluster)
    ensures EncodeTable(DecodeTable(b)) == b
  {
    hide EncodeEntry, DecodeEntry;
    var t := DecodeTable(b);
    forall k | 0 <= k < CLUSTER_SIZE
      ensures EncodeTable(t)[k] == b[k]
    {
      var i := k / ENTRY_SIZE;
      EntryBytesRoundTrip(EntryBytes(b, i));
    }
  }

  /* The cluster map */

  function EncodeFat(f: FatMap): Cluster {
    seq(CLUSTER_SIZE, k requires 0 <= k < CLUSTER_SIZE => Le32(f[k / 4])[k % 4])
  }

  function CellAt(b: Cluster, i: nat): U32
    requires i < CLUSTER_MAP_SIZE
  {
    Un32(b[4 * i], b[4 * i + 1], b[4 * i + 2], b[4 * i + 3])
  }

  function DecodeFat(b: Cluster): FatMap {
    seq(CLUSTER_MAP_SIZE, i requires 0 <= i < CLUSTER_MAP_SIZE => CellAt(b, i))
  }

  lemma FatRoundTrip(f: FatMap)
    ensures DecodeFat(EncodeFat(f)) == f
  {
    hide Le32, Un32;
    var b := EncodeFat(f);
    forall i | 0 <= i < CLUSTER_MAP_SIZE
      ensures DecodeFat(b)[i] == f[i]
    {
      forall k | 0 <= k < 4
        ensures b[4 * i + k] == Le32(f[i])[k]
      {
        Position(i, k, 4);
      }
      assert b[4 * i + 0] == Le32(f[i])[0];
      RoundTrip32(f[i], 0, 0, 0, 0);
    }
  }

  lemma FatBytesRoundTrip(b: Cluster)
    ensures EncodeFat(DecodeFat(b)) == b
  {
    hide Le32, Un32;
    var f := DecodeFat(b);
    forall k | 0 <= k < CLUSTER_SIZE
      ensures EncodeFat(f)[k] == b[k]
    {
      var i := k / 4;
      RoundTrip32(0, b[4 * i], b[4 * i + 1], b[4 * i + 2], b[4 * i + 3]);
      assert Le32(f[i])[k % 4] == b[4 * i + k % 4];
    }
  }

  /* What a cluster stands for. Specifications name the decoded value by what it encodes to. */

  ghost function AsTable(b: Cluster): Table {
    TableBytesRoundTrip(b);
    var t: Table :| EncodeTable(t) == b;
    t
  }

  ghost function AsFat(b: Cluster): FatMap {
    FatBytesRoundTrip(b);
    var f: FatMap :| EncodeFat(f) == b;
    f
  }

  lemma AsTableIs(b: Cluster, t: Table)
    ensures AsTable(b) == DecodeTable(b)
    ensures AsTable(EncodeTable(t)) == t
  {
    TableRoundTrip(t);
    TableRoundTrip(AsTable(b));
    TableRoundTrip(AsTable(EncodeTable(t)));
  }

  lemma AsFatIs(b: Cluster, f: FatMap)
    ensures AsFat(b) == DecodeFat(b)
    ensures AsFat(EncodeFat(f)) == f
  {
    FatRoundTrip(f);
    FatRoundTrip(AsFat(b));
    FatRoundTrip(AsFat(EncodeFat(f)));
  }

  // Entry `i` of a directory's cluster is the 32 bytes from 32 * i on.
  lemma TableOffsets(b: Cluster, t: Table, i: nat)
    requires i < 64
    ensures AsTable(b)[i] == DecodeEntry(b[32 * i..32 * i + 32])
    ensures EncodeTable(t)[32 * i..32 * i + 32] == EncodeEntry(t[i])
  {
    hide EncodeTable, DecodeEntry, AsTable, EncodeEntry;
    AsTableIs(b, t);
    TableRoundTrip(t);
    EntryBytesRoundTrip(EntryBytes(EncodeTable(t), i));
  }

  // Cell `k` of the map's cluster is the four bytes from 4 * k on, low byte first.
  lemma MapOffsets(b: Cluster, k: nat)
    requires k < 512
    ensures AsFat(b)[k] ==
      (b[4 * k] as int) + 0x100 * (b[4 * k + 1] as int) + 0x1_0000 * (b[4 * k + 2] as int)
      + 0x100_0000 * (b[4 * k + 3] as int)
  {
    hide EncodeFat, AsFat;
    AsFatIs(b, AsFat(b));
  }
}
