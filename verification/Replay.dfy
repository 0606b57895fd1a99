/**
  What undoing a checkpoint log means, and the two ways the restore code goes through it.

  `UndoAll` is the meaning: log blocks from the newest to the oldest, entries from the last to the
  first, each copying its saved contents back.  `Validates` is the dry run that only reads, through
  a relocation map.  `RestoreAll` is the real pass, with its restart points and device operations.
*/
module Replay {
  import opened Wrappers
  import opened BlockDevice
  import opened LogFormat
  import opened Relocations
  import opened Checksum

  // ----- Checks shared by both passes -----

  function Flatten(data: seq<Sector>): seq<bv8> {
    if data == [] then [] else data[0] + Flatten(data[1..])
  }

  /** The running checksum starts from the block number the entry restores. */
  function SeedOf(e: Entry, block: nat): bv32
    requires block > 0
  {
    (e.source / block % 0x1_0000_0000) as bv32
  }

  predicate SizeOk(e: Entry, block: nat) {
    SECTOR_SIZE * block <= UINT32_MAX - e.size && e.size >= SECTOR_SIZE * block
  }

  predicate ContentsOk(e: Entry, block: nat, data: seq<Sector>)
    requires block > 0
  {
    e.checksum == 0 || Crc(Flatten(data), SeedOf(e, block)) == e.checksum
  }

  predicate HeaderOk(h: Header, block: nat, q: int, validating: bool) {
    && (h.magic == MAGIC || (h.magic == PARTIAL_MAGIC && !validating))
    && h.blockSize == SECTOR_SIZE * block
    && AsInt32(h.sequence) == q
    && HEADER_BYTES <= h.headerSize <= h.blockSize
    && 1 <= h.count <= (h.blockSize - h.headerSize) / ENTRY_BYTES
  }

  // ----- The meaning: reverse replay -----

  /** The contents saved by entry `i`, if the entry passes its checks on disk `d`. */
  function Saved(d: Disk, block: nat, ls: Buffer, i: nat): (r: Option<seq<Sector>>)
    requires block > 0
    ensures r.Some? ==> |r.value| == Sectors(EntryOf(ls, i))
  {
    var e := EntryOf(ls, i);
    if !SizeOk(e, block) then None
    else match Get(d, e.dest, Sectors(e))
      case None => None
      case Some(data) => if ContentsOk(e, block, data) then Some(data) else None
  }

  /** Undoes entries k-1, ..., 0 of one log block. */
  function Undo(d: Disk, block: nat, ls: Buffer, k: nat): (r: Option<Disk>)
    requires block > 0
    ensures r.Some? ==> |r.value| == |d|
    decreases k
  {
    if k == 0 then Some(d)
    else match Saved(d, block, ls, k - 1)
      case None => None
      case Some(data) => Undo(Put(d, EntryOf(ls, k - 1).source, data), block, ls, k - 1)
  }

  /** Undoes log blocks q, ..., 0; each is found at block 0 once the newer ones are undone. */
  function UndoAll(d: Disk, block: nat, q: int): (r: Option<Disk>)
    requires block > 0
    ensures r.Some? ==> |r.value| == |d|
    decreases q + 1
  {
    if q < 0 then Some(d)
    else match Get(d, 0, block)
      case None => None
      case Some(ls) =>
        if !HeaderOk(HeaderOf(ls), block, q, true) then None
        else match Undo(d, block, ls, HeaderOf(ls).count)
          case None => None
          case Some(d') => UndoAll(d', block, q - 1)
  }

  // ----- The dry run -----

  /** Reads `n` blocks from `sector`, each from where the relocation map says it is. */
  function VirtualRead(d: Disk, m: Relocs, block: nat, sector: nat, n: nat): (r: Option<seq<Sector>>)
    requires block > 0 && 0 in m
    decreases n
  {
    if n == 0 then Some([])
    else match Get(d, Lookup(m, sector), block)
      case None => None
      case Some(first) => match VirtualRead(d, m, block, sector + block, n - 1)
        case None => None
        case Some(rest) => Some(first + rest)
  }

  function VirtualSaved(d: Disk, m: Relocs, block: nat, ls: Buffer, i: nat): Option<seq<Sector>>
    requires block > 0 && 0 in m
  {
    var e := EntryOf(ls, i);
    if !SizeOk(e, block) then None
    else match VirtualRead(d, m, block, e.dest, Sectors(e) / block)
      case None => None
      case Some(data) => if ContentsOk(e, block, data) then Some(data) else None
  }

  function VirtualUndo(d: Disk, m: Relocs, block: nat, ls: Buffer, k: nat): (r: Option<Relocs>)
    requires block > 0 && 0 in m
    ensures r.Some? ==> 0 in r.value
    decreases k
  {
    if k == 0 then Some(m)
    else match VirtualSaved(d, m, block, ls, k - 1)
      case None => None
      case Some(_) =>
        var e := EntryOf(ls, k - 1);
        VirtualUndo(d, Relocated(m, e.source, e.dest, Sectors(e)), block, ls, k - 1)
  }

  /** The validating pass over log blocks q, ..., 0. */
  predicate Validates(d: Disk, m: Relocs, block: nat, q: int)
    requires block > 0 && 0 in m
    decreases q + 1
  {
    if q < 0 then true
    else match VirtualRead(d, m, block, 0, 1)
      case None => false
      case Some(ls) =>
        if !HeaderOk(HeaderOf(ls), block, q, true) then false
        else match VirtualUndo(d, m, block, ls, HeaderOf(ls).count)
          case None => false
          case Some(m') => Validates(d, m', block, q - 1)
  }

  // ----- The real pass -----

  /** Block 0 of an older log block is marked as begun while it is being restored. */
  function ToWrite(ls: Buffer, i: nat, data: seq<Sector>): (r: seq<Sector>)
    ensures |r| == |data|
  {
    if i == 0 && HeaderOf(ls).sequence != 0 && data != [] && HeaderOf(data).magic == MAGIC
    then Partial(data) else data
  }

  /** Everything the device is asked to do for one entry: save a restart point, then copy back. */
  function EntryOps(ls: Buffer, i: nat, data: seq<Sector>): seq<Op> {
    [Fsync, Write(0, Restart(ls, i + 1)), Fsync, Write(EntryOf(ls, i).source, ToWrite(ls, i, data))]
    + if i == 0 then [Fsync] else []
  }

  /** `steps` holds the operations of each entry restored; `ok` is false if a check failed after them. */
  datatype Run = Run(ok: bool, disk: Disk, steps: seq<seq<Op>>)

  function RestoreBlock(d: Disk, block: nat, ls: Buffer, k: nat): (r: Run)
    requires block > 0
    ensures |r.disk| == |d|
    decreases k
  {
    if k == 0 then Run(true, d, [])
    else match Saved(d, block, ls, k - 1)
      case None => Run(false, d, [])
      case Some(data) =>
        var ops := EntryOps(ls, k - 1, data);
        var rest := RestoreBlock(Apply(d, ops), block, Restart(ls, k), k - 1);
        rest.(steps := [ops] + rest.steps)
  }

  function RestoreAll(d: Disk, block: nat, q: int): (r: Run)
    requires block > 0
    ensures |r.disk| == |d|
    decreases q + 1
  {
    if q < 0 then Run(true, d, [])
    else match Get(d, 0, block)
      case None => Run(false, d, [])
      case Some(ls) =>
        if !HeaderOk(HeaderOf(ls), block, q, false) then Run(false, d, [])
        else
          var run := RestoreBlock(d, block, ls, HeaderOf(ls).count);
          if !run.ok then run
          else
            var rest := RestoreAll(run.disk, block, q - 1);
            rest.(steps := run.steps + rest.steps)
  }

  /** The operations of a run, entry after entry. */
  function Ops(steps: seq<seq<Op>>): seq<Op> {
    if steps == [] then [] else steps[0] + Ops(steps[1..])
  }

  // ----- The whole command -----

  predicate IsLog(d: Disk) {
    |d| > 0 && HeaderOf(d).magic in {MAGIC, PARTIAL_MAGIC}
  }

  function BlockOf(d: Disk): nat {
    HeaderOf(d).blockSize / SECTOR_SIZE
  }

  /** Blocks are whole sectors (smaller sizes than a header are refused, not excluded). */
  predicate UsableBlockSize(d: Disk) {
    IsLog(d) && HeaderOf(d).blockSize >= HEADER_BYTES ==> HeaderOf(d).blockSize % SECTOR_SIZE == 0
  }

  /** Validate unless a restore has already begun; then restore, or roll forward if validation fails. */
  function Restore(d: Disk): Run
    requires UsableBlockSize(d)
  {
    var h := HeaderOf(d);
    if !IsLog(d) || h.blockSize < HEADER_BYTES then Run(false, d, [])
    else
      var block, q := BlockOf(d), AsInt32(h.sequence);
      if h.magic == PARTIAL_MAGIC || Validates(d, map[0 := 0], block, q) then RestoreAll(d, block, q)
      else match Get(d, h.sector0, block)
        case None => Run(false, d, [])
        case Some(original) => Run(true, Put(d, 0, original), [[Write(0, original)]])
  }

  /** The log is fresh and the dry run rejects it. */
  predicate RollsForward(d: Disk)
    requires UsableBlockSize(d)
  {
    var h := HeaderOf(d);
    IsLog(d) && h.blockSize >= HEADER_BYTES && h.magic == MAGIC
    && !Validates(d, map[0 := 0], BlockOf(d), AsInt32(h.sequence))
  }

  // ----- Well-formed logs -----

  /**
    What the log writer guarantees of an entry that passes the size check: whole blocks on block
    boundaries, inside the device, not overlapping itself; the first entry of a log block restores
    exactly block 0 and no other entry touches block 0.
  */
  ghost predicate WfEntry(e: Entry, i: nat, block: nat, sectors: nat)
    requires block > 0
  {
    SizeOk(e, block) ==>
      && e.size % SECTOR_SIZE == 0 && Sectors(e) % block == 0
      && e.source % block == 0 && e.dest % block == 0
      && e.source + Sectors(e) <= sectors
      && block <= e.dest
      && (if i == 0 then e.source == 0 && Sectors(e) == block else block <= e.source)
      && (e.source + Sectors(e) <= e.dest || e.dest + Sectors(e) <= e.source)
  }

  ghost predicate WfBlock(ls: Buffer, k: nat, block: nat, sectors: nat)
    requires block > 0
  {
    forall i :: 0 <= i < k ==> WfEntry(EntryOf(ls, i), i, block, sectors)
  }

  /** Every log block that undoing reaches is well formed. */
  ghost predicate WfLog(d: Disk, block: nat, q: int)
    requires block > 0
    decreases q + 1
  {
    q >= 0 && Get(d, 0, block).Some? ==>
      var ls := Get(d, 0, block).value;
      HeaderOk(HeaderOf(ls), block, q, true) ==>
        && WfBlock(ls, HeaderOf(ls).count, block, |d|)
        && (Undo(d, block, ls, HeaderOf(ls).count).Some? ==>
              WfLog(Undo(d, block, ls, HeaderOf(ls).count).value, block, q - 1))
  }
}
