/**
  The smallest log: two sectors, one log block in sector 0 whose only entry says that the original
  sector 0 was saved in sector 1.  It meets every condition of the crash-recovery results.
*/
module SmallLog {
  import opened Wrappers
  import opened BlockDevice
  import opened Bytes
  import opened LogFormat
  import opened Relocations
  import opened Replay
  import opened Validation
  import opened CrashRecovery

  function HeadByte(i: int): bv8 {
    if i == 0 then 0x42 else if i == 1 then 0x4f else if i == 2 then 0x57   // the magic
    else if i == 6 then 28                                                  // header size
    else if i == 9 then 2                                                   // block size 512
    else if i == 12 then 1                                                  // one entry
    else if i == 36 then 1                                                  // saved in sector 1
    else if i == 45 then 2                                                  // 512 bytes
    else 0
  }

  const HEAD: Sector := seq(512, i => HeadByte(i))
  const SMALL_LOG: Disk := [HEAD, BLANK]

  lemma HeadU16(b: seq<Sector>, k: nat)
    requires |b| > 0 && b[0] == HEAD && k + 1 < 512
    ensures U16(b, k) == HeadByte(k) as int + 0x100 * HeadByte(k + 1) as int
  {
    assert k / 512 == 0 && (k + 1) / 512 == 0;
  }

  lemma HeadIs(b: seq<Sector>)
    requires |b| > 0 && b[0] == HEAD
    ensures HeaderOf(b) == Header(MAGIC, 28, 512, 1, 0, 0)
  {
    hide HeadByte, U16;
    HeadU16(b, 0);
    HeadU16(b, 2);
    HeadU16(b, 6);
    HeadU16(b, 8);
    HeadU16(b, 10);
    HeadU16(b, 12);
    HeadU16(b, 14);
    HeadU16(b, 16);
    HeadU16(b, 18);
    HeadU16(b, 20);
    HeadU16(b, 22);
    HeadU16(b, 24);
    HeadU16(b, 26);
    HeadBytes();
  }

  lemma HeadBytes()
    ensures HeadByte(0) as int == 0x42 && HeadByte(1) as int == 0x4f && HeadByte(2) as int == 0x57
    ensures HeadByte(6) as int == 28 && HeadByte(9) as int == 2 && HeadByte(12) as int == 1
    ensures HeadByte(36) as int == 1 && HeadByte(45) as int == 2
    ensures forall i :: i !in {0, 1, 2, 6, 9, 12, 36, 45} ==> HeadByte(i) as int == 0
  {
  }

  lemma EntryIs(b: seq<Sector>)
    requires |b| > 0 && b[0] == HEAD
    ensures EntryOf(b, 0) == Entry(0, 1, 512, 0)
  {
    hide HeadByte, U16;
    HeadIs(b);
    HeadU16(b, 28);
    HeadU16(b, 30);
    HeadU16(b, 32);
    HeadU16(b, 34);
    HeadU16(b, 36);
    HeadU16(b, 38);
    HeadU16(b, 40);
    HeadU16(b, 42);
    HeadU16(b, 44);
    HeadU16(b, 46);
    HeadBytes();
    NoChecksum(b);
  }

  lemma NoChecksum(b: seq<Sector>)
    requires |b| > 0 && b[0] == HEAD
    ensures Bits32(b, 48) == 0
  {
    assert b[0][48] == b[0][49] == b[0][50] == b[0][51] == 0;
  }

  lemma SmallUndo()
    ensures Saved(SMALL_LOG, 1, [HEAD], 0) == Some([BLANK])
    ensures Undo(SMALL_LOG, 1, [HEAD], 1) == Some([BLANK, BLANK])
  {
    hide EntryOf, HeaderOf, Flatten;
    EntryIs([HEAD]);
    assert SMALL_LOG[1..2] == [BLANK];
    assert Get(SMALL_LOG, 1, 1) == Some([BLANK]);
    assert Put(SMALL_LOG, 0, [BLANK]) == [BLANK, BLANK];
    assert Undo([BLANK, BLANK], 1, [HEAD], 0) == Some([BLANK, BLANK]);
  }

  lemma SmallUndoAll()
    ensures UndoAll(SMALL_LOG, 1, 0) == Some([BLANK, BLANK]) && WfLog(SMALL_LOG, 1, 0)
  {
    hide EntryOf, HeaderOf, Undo;
    assert SMALL_LOG[0..1] == [HEAD];
    assert Get(SMALL_LOG, 0, 1) == Some([HEAD]);
    HeadIs([HEAD]);
    EntryIs([HEAD]);
    SmallUndo();
    assert UndoAll([BLANK, BLANK], 1, -1) == Some([BLANK, BLANK]);
    assert WfEntry(EntryOf([HEAD], 0), 0, 1, 2);
    assert WfBlock([HEAD], 1, 1, 2);
  }

  lemma BlankIsNoLog()
    ensures NotALog([BLANK, BLANK])
  {
    assert ByteAt([BLANK, BLANK], 0) == 0;
    BlankByte();
  }

  lemma BlankByte()
    ensures FromByte(ByteAt([BLANK, BLANK], 0)) == 0
  {
  }

  /** The log is accepted, and restoring it, after any power cuts and partial runs, brings sector 0 back. */
  lemma SmallLogIsRestored(disks: seq<Disk>, limits: seq<int>)
    requires disks != [] && disks[0] == SMALL_LOG
    requires forall i :: 0 <= i < |disks| - 1 ==> Interrupted(disks[i], disks[i + 1], 1)
    ensures UsableBlockSize(disks[|disks| - 1]) && Restore(disks[|disks| - 1]).disk == [BLANK, BLANK]
    ensures UsableBlockSize(AfterRuns(SMALL_LOG, limits))
    ensures Restore(AfterRuns(SMALL_LOG, limits)).disk == [BLANK, BLANK]
  {
    hide HeaderOf, EntryOf, UndoAll, WfLog, Validates, NotALog, Interrupted, Restore, AfterRuns;
    HeadIs(SMALL_LOG);
    SmallUndoAll();
    BlankIsNoLog();
    IdentityPresents(SMALL_LOG, 1);
    ValidatesIffUndoable(SMALL_LOG, map[0 := 0], SMALL_LOG, 1, 0);
    FreshLogSurvives(SMALL_LOG, disks, limits);
  }
}
