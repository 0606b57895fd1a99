/**
  A log of two entries with any checksums, on a disk of five sectors: the first entry says that sector 0 was
  saved in sector 3, the second that after that sector 3 was saved in sector 4.  The header also says that
  the original sector 0 is found in sector 2.
*/
module CheckedLog {
  import opened Wrappers
  import opened BlockDevice
  import opened LogFormat
  import opened Checksum
  import opened Replay
  import opened Validation
  import opened CrashRecovery
  import opened Restoring
  import opened RestoreCheckpoint
  import opened LogEncoding

  const HEADER := Header(0x00574f42, 28, 512, 2, 0, 2)

  function Entries(first: bv32, second: bv32): (es: seq<Entry>)
    ensures |es| == 2
  {
    [Entry(0, 3, 512, first), Entry(3, 4, 512, second)]
  }

  function Log(first: bv32, second: bv32): (b: Buffer)
    ensures |b| == 1
  {
    LogBlock(HEADER, 1, Entries(first, second), 1)
  }

  function LoggedDisk(first: bv32, second: bv32, kept: Sector, original: Sector, stale: Sector, saved: Sector)
    : (d: Disk)
    ensures |d| == 5
  {
    Log(first, second) + [kept, original, stale, saved]
  }

  /** Is `checksum` absent or that of a sector whose number is `number`? */
  predicate Fits(checksum: bv32, number: int, data: Sector) {
    checksum == 0 || checksum == Divide(BitsOf(data), (number % 0x1_0000_0000) as bv32)
  }

  lemma FitsSector(checksum: bv32, number: int, data: Sector)
    ensures ChecksumFits(checksum, number, [data]) == Fits(checksum, number, data)
  {
    hide Divide, BitsOf;
    assert Flatten([data]) == data + Flatten([]) == data;
  }

  lemma LoggedParts(first: bv32, second: bv32, kept: Sector, original: Sector, stale: Sector, saved: Sector)
    ensures var d := LoggedDisk(first, second, kept, original, stale, saved);
      d[4] == saved && d[..1] == Log(first, second) && Get(d, 0, 1) == Some(Log(first, second))
  {
    hide Log;
    assert LoggedDisk(first, second, kept, original, stale, saved)[0..1] == Log(first, second);
  }

  lemma LogIs(first: bv32, second: bv32)
    ensures HeaderOf(Log(first, second)) == HEADER
    ensures EntryOf(Log(first, second), 0) == Entry(0, 3, 512, first)
    ensures EntryOf(Log(first, second), 1) == Entry(3, 4, 512, second)
  {
    hide HeaderOf, EntryOf, LogBlock;
    var es := Entries(first, second);
    HeaderReadsBack(HEADER, 1, es, 1);
    EntryReadsBack(HEADER, 1, es, 1, 0);
    EntryReadsBack(HEADER, 1, es, 1, 1);
  }

  lemma SavedSector(d: Disk, ls: Buffer, i: nat, e: Entry)
    requires e == EntryOf(ls, i) && e.size == 512 && e.dest < |d|
    ensures Saved(d, 1, ls, i) == if Fits(e.checksum, e.source, d[e.dest]) then Some([d[e.dest]]) else None
  {
    hide EntryOf, Saved, ChecksumFits, Fits;
    EntryAcceptedIff(d, 1, ls, i, e);
    assert SavedBytes(d, e.dest, 512) == [d[e.dest]];
    FitsSector(e.checksum, e.source, d[e.dest]);
  }

  /** The second entry is undone first, and what it brings back to sector 3 is then brought back to sector 0. */
  lemma UndoBoth(first: bv32, second: bv32, kept: Sector, original: Sector, stale: Sector, saved: Sector)
    ensures Undo(LoggedDisk(first, second, kept, original, stale, saved), 1, Log(first, second), 2)
      == if Fits(second, 3, saved) && Fits(first, 0, saved) then Some([saved, kept, original, saved, saved]) else None
  {
    hide EntryOf, HeaderOf, Saved, Fits, Log, Undo, Put;
    var d, ls := LoggedDisk(first, second, kept, original, stale, saved), Log(first, second);
    LogIs(first, second);
    SavedSector(d, ls, 1, EntryOf(ls, 1));
    var d' := [ls[0], kept, original, saved, saved];
    assert Put(d, 3, [saved]) == d';
    SavedSector(d', ls, 0, EntryOf(ls, 0));
    assert Put(d', 0, [saved]) == [saved, kept, original, saved, saved];
    UndoStep(d, 1, ls, 2);
    UndoStep(d', 1, ls, 1);
    UndoNothing([saved, kept, original, saved, saved], 1, ls);
  }

  lemma UndoStep(d: Disk, block: nat, ls: Buffer, k: nat)
    requires block > 0 && k > 0
    ensures Undo(d, block, ls, k)
      == var saved := Saved(d, block, ls, k - 1);
         if saved.None? then None else Undo(Put(d, EntryOf(ls, k - 1).source, saved.value), block, ls, k - 1)
  {
  }

  lemma UndoNothing(d: Disk, block: nat, ls: Buffer)
    requires block > 0
    ensures Undo(d, block, ls, 0) == Some(d)
  {
  }

  lemma LoggedUndoAll(first: bv32, second: bv32, kept: Sector, original: Sector, stale: Sector, saved: Sector)
    ensures var d := LoggedDisk(first, second, kept, original, stale, saved);
      && WfLog(d, 1, 0)
      && UndoAll(d, 1, 0)
           == if Fits(second, 3, saved) && Fits(first, 0, saved) then Some([saved, kept, original, saved, saved])
              else None
  {
    hide EntryOf, HeaderOf, Fits, Log, Undo;
    var d, ls := LoggedDisk(first, second, kept, original, stale, saved), Log(first, second);
    assert d[0..1] == ls;
    assert Get(d, 0, 1) == Some(ls);
    LogIs(first, second);
    UndoBoth(first, second, kept, original, stale, saved);
    assert WfEntry(Entry(0, 3, 512, first), 0, 1, 5) && WfEntry(Entry(3, 4, 512, second), 1, 1, 5);
    assert WfBlock(ls, 2, 1, 5);
    if Undo(d, 1, ls, 2).Some? {
      assert UndoAll(Undo(d, 1, ls, 2).value, 1, -1) == Undo(d, 1, ls, 2);
    }
  }

  lemma LoggedHeader(first: bv32, second: bv32, kept: Sector, original: Sector, stale: Sector, saved: Sector)
    ensures HeaderOf(LoggedDisk(first, second, kept, original, stale, saved)) == HEADER
  {
    hide HeaderOf, Log;
    var d := LoggedDisk(first, second, kept, original, stale, saved);
    LogIs(first, second);
    assert d[..1] == Log(first, second);
    HeaderOfPrefix(d, 1);
  }

  /**
    The log is accepted exactly if each checksum is 0 or fits what was saved in sector 4, started from 3 for the
    entry that restores sector 3 and from 0 for the one that restores sector 0.  Then sector 3 is restored and,
    from that, sector 0; otherwise the original sector 0, from sector 2.
  */
  lemma AcceptedIffChecksumsFit(
    first: bv32, second: bv32, kept: Sector, original: Sector, stale: Sector, saved: Sector)
    ensures var d := LoggedDisk(first, second, kept, original, stale, saved);
      && UsableBlockSize(d) && Restore(d).ok
      && (Validates(d, map[0 := 0], 1, 0) <==> Fits(second, 3, saved) && Fits(first, 0, saved))
      && Restore(d).disk
           == if Fits(second, 3, saved) && Fits(first, 0, saved) then [saved, kept, original, saved, saved]
              else [original, kept, original, stale, saved]
  {
    hide HeaderOf, Fits, LoggedDisk, UndoAll, WfLog, Validates, Restore, Put;
    var d := LoggedDisk(first, second, kept, original, stale, saved);
    OriginalIsPutBack(first, second, kept, original, stale, saved);
    LoggedHeader(first, second, kept, original, stale, saved);
    LoggedUndoAll(first, second, kept, original, stale, saved);
    IdentityPresents(d, 1);
    ValidatesIffUndoable(d, map[0 := 0], d, 1, 0);
    AllOrNothing(d);
  }

  lemma OriginalIsPutBack(
    first: bv32, second: bv32, kept: Sector, original: Sector, stale: Sector, saved: Sector)
    ensures var d := LoggedDisk(first, second, kept, original, stale, saved);
      Get(d, 2, 1) == Some([original]) && Put(d, 0, [original]) == [original, kept, original, stale, saved]
  {
    hide Log;
    var d := LoggedDisk(first, second, kept, original, stale, saved);
    assert d[2..3] == [original];
  }

  /** Accepted, it is restored after any power cuts and runs that stopped at a limit. */
  lemma CheckedLogIsRestored(
    first: bv32, second: bv32, kept: Sector, original: Sector, stale: Sector, saved: Sector,
    disks: seq<Disk>, limits: seq<int>)
    requires Fits(second, 3, saved) && Fits(first, 0, saved) && NotALog([saved])
    requires disks != [] && disks[0] == LoggedDisk(first, second, kept, original, stale, saved)
    requires forall i :: 0 <= i < |disks| - 1 ==> Interrupted(disks[i], disks[i + 1], 1)
    ensures UsableBlockSize(disks[|disks| - 1]) && UsableBlockSize(AfterRuns(disks[0], limits))
    ensures Restore(disks[|disks| - 1]).disk == [saved, kept, original, saved, saved]
    ensures Restore(AfterRuns(disks[0], limits)).disk == [saved, kept, original, saved, saved]
  {
    hide HeaderOf, Fits, Log, LoggedDisk, UndoAll, WfLog, Validates, Restore, AfterRuns, Interrupted;
    var d := disks[0];
    LoggedHeader(first, second, kept, original, stale, saved);
    LoggedUndoAll(first, second, kept, original, stale, saved);
    AcceptedIffChecksumsFit(first, second, kept, original, stale, saved);
    var goal := [saved, kept, original, saved, saved];
    assert goal[..1] == [saved];
    HeaderOfPrefix(goal, 1);
    FreshLogSurvives(d, disks, limits);
  }

  // ----- Stopping at a limit -----

  function FirstOps(first: bv32, second: bv32, saved: Sector): seq<Op> {
    EntryOps(Log(first, second), 1, [saved])
  }

  function SecondOps(first: bv32, second: bv32, saved: Sector): seq<Op> {
    EntryOps(Restart(Log(first, second), 2), 0, [saved])
  }

  lemma AfterFirstOps(first: bv32, second: bv32, kept: Sector, original: Sector, stale: Sector, saved: Sector)
    ensures Apply(LoggedDisk(first, second, kept, original, stale, saved), FirstOps(first, second, saved))
      == Restart(Log(first, second), 2) + [kept, original, saved, saved]
  {
    hide HeaderOf, EntryOf, Restart, Apply, EntryOps, Log, Put;
    var d, ls := LoggedDisk(first, second, kept, original, stale, saved), Log(first, second);
    LogIs(first, second);
    ApplyEntryOps(d, ls, 1, [saved]);
    var restarted := Put(d, 0, Restart(ls, 2));
    assert restarted == Restart(ls, 2) + [kept, original, stale, saved];
    assert Put(restarted, 3, [saved]) == Restart(ls, 2) + [kept, original, saved, saved];
  }

  lemma TwoSteps(first: bv32, second: bv32, kept: Sector, original: Sector, stale: Sector, saved: Sector)
    requires Fits(second, 3, saved) && Fits(first, 0, saved)
    ensures RestoreBlock(LoggedDisk(first, second, kept, original, stale, saved), 1, Log(first, second), 2).steps
      == [FirstOps(first, second, saved), SecondOps(first, second, saved)]
  {
    hide HeaderOf, EntryOf, Fits, Log, RestoreBlock, Saved, Restart, Apply, EntryOps, LoggedDisk;
    var d, ls := LoggedDisk(first, second, kept, original, stale, saved), Log(first, second);
    LogIs(first, second);
    LoggedParts(first, second, kept, original, stale, saved);
    SavedSector(d, ls, 1, EntryOf(ls, 1));
    AfterFirstOps(first, second, kept, original, stale, saved);
    var d', ls' := Apply(d, FirstOps(first, second, saved)), Restart(ls, 2);
    RestartEntry(ls, 2, 0);
    SavedSector(d', ls', 0, EntryOf(ls', 0));
    RestoreBlockStep(d, 1, ls, 1);
    RestoreBlockStep(d', 1, ls', 0);
    BlockEndsAtOnce(Apply(d', SecondOps(first, second, saved)), 1, Restart(ls', 1), 0);
  }

  /** Accepted, a run that stops after one entry has restored sector 3 and not yet sector 0. */
  lemma OneEntryIsRestored(
    first: bv32, second: bv32, kept: Sector, original: Sector, stale: Sector, saved: Sector)
    requires Fits(second, 3, saved) && Fits(first, 0, saved)
    ensures var d := LoggedDisk(first, second, kept, original, stale, saved);
      && UsableBlockSize(d) && |Restore(d).steps| == 2
      && LimitedRun(d, 1) == Restart(Log(first, second), 2) + [kept, original, saved, saved]
  {
    hide HeaderOf, EntryOf, Fits, Log, Validates, RestoreBlock, RestoreAll, Saved, Restart, Apply, EntryOps, LoggedDisk;
    hide FirstOps, SecondOps, Ops;
    var d, ls := LoggedDisk(first, second, kept, original, stale, saved), Log(first, second);
    LoggedHeader(first, second, kept, original, stale, saved);
    AcceptedIffChecksumsFit(first, second, kept, original, stale, saved);
    LoggedParts(first, second, kept, original, stale, saved);
    LogIs(first, second);
    TwoSteps(first, second, kept, original, stale, saved);
    AfterFirstOps(first, second, kept, original, stale, saved);
    var run := RestoreBlock(d, 1, ls, 2);
    OnlyBlock(d, 1, ls);
    var steps := Restore(d).steps;
    assert steps == run.steps;
    assert steps[..1] == [FirstOps(first, second, saved)];
    OneStep(FirstOps(first, second, saved));
  }

  lemma OneStep(ops: seq<Op>)
    ensures Ops([ops]) == ops
  {
    assert Ops([ops]) == ops + Ops([]);
  }

  lemma OnlyBlock(d: Disk, block: nat, ls: Buffer)
    requires block > 0 && Get(d, 0, block) == Some(ls) && HeaderOk(HeaderOf(ls), block, 0, false)
    ensures RestoreAll(d, block, 0).steps == RestoreBlock(d, block, ls, HeaderOf(ls).count).steps
  {
    hide HeaderOf, RestoreBlock;
    var run := RestoreBlock(d, block, ls, HeaderOf(ls).count);
    EmptyPass(run.disk, block, -1);
  }

  // ----- A checksum that is not 0 -----

  lemma {:induction false} NoBitsSet(bits: seq<bool>)
    requires forall i :: 0 <= i < |bits| ==> !bits[i]
    ensures Divide(bits, 0) == 0
  {
    if bits != [] {
      assert FeedBit(0, false) == 0;
      NoBitsSet(bits[1..]);
    }
  }

  lemma {:induction false} ZerosHaveNoBits(data: seq<bv8>)
    requires forall i :: 0 <= i < |data| ==> data[i] == 0
    ensures forall i :: 0 <= i < |BitsOf(data)| ==> !BitsOf(data)[i]
  {
    if data != [] {
      ZeroByte();
      ZerosHaveNoBits(data[1..]);
    }
  }

  lemma ZeroByte()
    ensures LowBits(0, 8) == [false, false, false, false, false, false, false, false]
  {
  }

  /** The checksums of an empty sector differ from number to number, and only that with number 0 is 0. */
  lemma BlankChecksums(number: bv32, other: bv32)
    requires number != other
    ensures Divide(BitsOf(BLANK), 0) == 0 && Divide(BitsOf(BLANK), number) != Divide(BitsOf(BLANK), other)
  {
    hide Divide, BitsOf;
    ZerosHaveNoBits(BLANK);
    NoBitsSet(BitsOf(BLANK));
    TableDrivenIsBitSerial(BLANK, number);
    TableDrivenIsBitSerial(BLANK, other);
    if Crc(BLANK, number) == Crc(BLANK, other) {
      CrcIsInjectiveInStart(BLANK, number, other);
    }
  }

  lemma BlankFits(number: bv32)
    requires number != 0
    ensures Divide(BitsOf(BLANK), number) != 0 && Fits(0, 0, BLANK)
    ensures Fits(Divide(BitsOf(BLANK), number), 3, BLANK) <==> number == 3
  {
    hide Divide, BitsOf;
    BlankChecksums(number, 0);
    if number != 3 { BlankChecksums(number, 3); }
  }

  /** An entry whose checksum was started from any number but that of the sector to restore is refused. */
  lemma StartMatters(number: bv32, kept: Sector, original: Sector, stale: Sector)
    requires number != 0
    ensures var sum := Divide(BitsOf(BLANK), number);
      var d := LoggedDisk(0, sum, kept, original, stale, BLANK);
      && sum != 0 && UsableBlockSize(d)
      && Restore(d).disk
           == if number == 3 then [BLANK, kept, original, BLANK, BLANK] else [original, kept, original, stale, BLANK]
  {
    hide Divide, BitsOf, LoggedDisk, Restore, Validates, Fits, UsableBlockSize;
    BlankFits(number);
    AcceptedIffChecksumsFit(0, Divide(BitsOf(BLANK), number), kept, original, stale, BLANK);
  }
}
