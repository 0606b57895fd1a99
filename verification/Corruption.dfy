/** A log entry that carries a checksum is refused once any one byte of its saved contents has changed. */
module Corruption {
  import opened Wrappers
  import opened BlockDevice
  import opened LogFormat
  import opened Checksum
  import opened Replay
  import opened Validation

  lemma {:induction false} FlattenLength(data: seq<Sector>)
    ensures |Flatten(data)| == SECTOR_SIZE * |data|
  {
    if data != [] { FlattenLength(data[1..]); }
  }

  /** Changing one byte of one sector changes one byte of the flattened contents. */
  lemma {:induction false} FlattenOneByte(data: seq<Sector>, j: nat, o: nat, b: bv8)
    requires j < |data| && o < SECTOR_SIZE
    ensures SECTOR_SIZE * j + o < |Flatten(data)|
    ensures Flatten(data)[SECTOR_SIZE * j + o] == data[j][o]
    ensures Flatten(data[j := data[j][o := b]]) == Flatten(data)[SECTOR_SIZE * j + o := b]
  {
    FlattenLength(data);
    var changed := data[j := data[j][o := b]];
    if j == 0 {
      assert changed[1..] == data[1..];
    } else {
      FlattenOneByte(data[1..], j - 1, o, b);
      assert changed[1..] == data[1..][j - 1 := data[1..][j - 1][o := b]];
    }
  }

  lemma CorruptEntryIsRefused(d: Disk, block: nat, ls: Buffer, i: nat, s: nat, o: nat, b: bv8)
    requires block > 0 && Saved(d, block, ls, i).Some? && EntryOf(ls, i).checksum != 0
    requires var e := EntryOf(ls, i); e.dest <= s < e.dest + Sectors(e) && s < |d|
    requires o < SECTOR_SIZE && b != d[s][o]
    ensures Saved(d[s := d[s][o := b]], block, ls, i).None?
  {
    hide EntryOf, Sectors, Crc, Flatten, SizeOk;
    var e := EntryOf(ls, i);
    var data, bad := Saved(d, block, ls, i).value, d[s := d[s][o := b]];
    var j := s - e.dest;
    assert data == d[e.dest..e.dest + Sectors(e)];
    assert bad[e.dest..e.dest + Sectors(e)] == data[j := data[j][o := b]];
    FlattenOneByte(data, j, o, b);
    OneByteChangeIsDetected(Flatten(data), SECTOR_SIZE * j + o, b, SeedOf(e, block));
  }
}
