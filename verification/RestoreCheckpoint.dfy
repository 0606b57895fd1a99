/** The restore command: nested loops over log blocks and entries, acting on a device. */
module RestoreCheckpoint {
  import opened Wrappers
  import opened BlockDevice
  import opened LogFormat
  import opened OrderedMap
  import opened Relocations
  import opened UsedSectors
  import opened Checksum
  import opened Replay
  import opened Validation
  import opened Restoring
  import opened CrashRecovery

  datatype Status = Ok | Invalid | Again

  // ----- Reading -----

  /** A plain read, or when validating a read as though the relocations had happened. */
  method RelocatedRead(device: Device, relocations: RelocationMap, validating: bool, sector: nat, count: nat,
                       block: nat)
    returns (r: Option<seq<Sector>>)
    requires block > 0 && relocations.Valid()
    requires validating ==> count % block == 0
    ensures !validating ==> r == Get(device.disk, sector, count)
    ensures validating ==> r == VirtualRead(device.disk, relocations.entries, block, sector, count / block)
  {
    if validating {
      r := ReadBlocks(device, relocations, sector, count / block, block);
    } else {
      r := device.Read(sector, count);
    }
  }

  /** Reads block by block, each from where the relocation map says it is. */
  method ReadBlocks(device: Device, relocations: RelocationMap, sector: nat, n: nat, block: nat)
    returns (r: Option<seq<Sector>>)
    requires block > 0 && relocations.Valid()
    ensures r == VirtualRead(device.disk, relocations.entries, block, sector, n)
  {
    hide Lookup, VirtualRead, Get;
    var buffer: seq<Sector>, at: nat := [], sector;
    ghost var want := VirtualRead(device.disk, relocations.entries, block, sector, n);
    for i := 0 to n
      invariant Continues(want, buffer, VirtualRead(device.disk, relocations.entries, block, at, n - i))
    {
      VirtualReadOneMore(device.disk, relocations.entries, block, at, n - i);
      var got := device.Read(Lookup(relocations.entries, at), block);
      if got.None? { return None; }
      ContinuesOn(want, buffer, got.value, VirtualRead(device.disk, relocations.entries, block, at + block, n - i - 1));
      buffer := buffer + got.value;
      at := at + block;
    }
    NothingToRead(device.disk, relocations.entries, block, at);
    assert buffer + [] == buffer;
    return Some(buffer);
  }

  /** What was read so far and what is still to be read make up what is wanted. */
  ghost predicate Continues(want: Option<seq<Sector>>, buffer: seq<Sector>, rest: Option<seq<Sector>>) {
    rest.Some? == want.Some? && (rest.Some? ==> want.value == buffer + rest.value)
  }

  lemma ContinuesOn(want: Option<seq<Sector>>, buffer: seq<Sector>, got: seq<Sector>, rest: Option<seq<Sector>>)
    requires Continues(want, buffer, if rest.Some? then Some(got + rest.value) else None)
    ensures Continues(want, buffer + got, rest)
  {
    if rest.Some? { assert buffer + (got + rest.value) == (buffer + got) + rest.value; }
  }

  lemma NothingToRead(d: Disk, m: Relocs, block: nat, at: nat)
    requires block > 0 && 0 in m
    ensures VirtualRead(d, m, block, at, 0) == Some([])
  {
  }

  lemma {:induction false} FlattenConcat(a: seq<Sector>, b: seq<Sector>)
    ensures Flatten(a + b) == Flatten(a) + Flatten(b)
  {
    if a == [] {
      assert a + b == b;
    } else {
      assert (a + b)[1..] == a[1..] + b;
      FlattenConcat(a[1..], b);
    }
  }

  /** The checksum of an entry, run block by block. */
  method BlockwiseChecksum(data: seq<Sector>, seed: bv32, block: nat) returns (checksum: bv32)
    requires block > 0 && |data| % block == 0
    ensures checksum == Crc(Flatten(data), seed)
  {
    hide Crc, Flatten;
    checksum := seed;
    var n: nat := |data| / block;
    var at := 0;
    NoData(data, seed);
    for i := 0 to n
      invariant at == i * block <= |data|
      invariant checksum == Crc(Flatten(data[..at]), seed)
    {
      BlockFits(i, n, block, |data|);
      checksum := Crc32(Flatten(data[at..at + block]), checksum);
      MoreData(data, at, at + block, seed);
      at := at + block;
    }
    assert data[..at] == data;
  }

  lemma NoData(data: seq<Sector>, seed: bv32)
    ensures Crc(Flatten(data[..0]), seed) == seed
  {
  }

  lemma MoreData(data: seq<Sector>, at: nat, end: nat, seed: bv32)
    requires at <= end <= |data|
    ensures Crc(Flatten(data[..end]), seed) == Crc(Flatten(data[at..end]), Crc(Flatten(data[..at]), seed))
  {
    hide Crc, Flatten;
    assert data[..end] == data[..at] + data[at..end];
    FlattenConcat(data[..at], data[at..end]);
    CrcConcat(Flatten(data[..at]), Flatten(data[at..end]), seed);
  }

  lemma BlockFits(i: nat, n: nat, block: nat, size: nat)
    requires i < n && block > 0 && n == size / block
    ensures (i + 1) * block == i * block + block <= size
  {
    assert (i + 1) * block <= n * block;
  }

  // ----- Restoring one entry -----

  /**
    Saves a restart point when the target was copied from (which the test always reports), marks
    the saved contents as copied from, writes them back, and syncs if a log block was restored.
  */
  method RestoreSector(device: Device, used: UsedMap, ls: Buffer, i: nat, data: seq<Sector>) returns (ls': Buffer)
    requires used.Valid() && Sectors(EntryOf(ls, i)) > 0 && i + 1 <= UINT32_MAX
    requires HeaderOf(ls).headerSize >= HEADER_BYTES
    modifies device, used
    ensures used.Valid()
    ensures ls' == Restart(ls, i + 1)
    ensures device.history == old(device.history) + EntryOps(ls, i, data)
    ensures device.disk == Apply(old(device.disk), EntryOps(ls, i, data))
    ensures forall x: nat :: (
      Used(used.entries, x) <==> EntryOf(ls, i).dest <= x < EntryOf(ls, i).dest + Sectors(EntryOf(ls, i)))
  {
    hide HeaderOf, EntryOf, Restart, Apply, Put, Floor, Marked, ToWrite;
    var e := EntryOf(ls, i);
    ls' := SaveRestartPoint(device, used, ls, i);
    used.MarkUsed(e.dest, e.dest + Sectors(e));
    RestartHeader(ls, i + 1);
    var out := data;
    if i == 0 && HeaderOf(ls').sequence != 0 {
      if data != [] && HeaderOf(data).magic == MAGIC {
        out := Partial(data);
      }
    }
    assert out == ToWrite(ls, i, data) by { IsToWrite(ls, i, data, out); }
    device.Write(e.source, out);
    if i == 0 {
      device.Fsync();
    }
    ApplyEntryOps(old(device.disk), ls, i, data);
    assert device.history == old(device.history) + EntryOps(ls, i, data);
  }

  /** The target was copied from, as the test always reports: makes this entry the one to begin with. */
  method SaveRestartPoint(device: Device, used: UsedMap, ls: Buffer, i: nat) returns (ls': Buffer)
    requires used.Valid() && Sectors(EntryOf(ls, i)) > 0
    modifies device, used
    ensures used.Valid() && (forall x: nat :: !Used(used.entries, x)) && ls' == Restart(ls, i + 1)
    ensures device.history == old(device.history) + [Op.Fsync, Op.Write(0, Restart(ls, i + 1)), Op.Fsync]
    ensures device.disk == Put(old(device.disk), 0, Restart(ls, i + 1))
  {
    hide HeaderOf, EntryOf, Restart, Put, Floor, Canonical;
    ls' := ls;
    var e := EntryOf(ls, i);
    var collision := used.CheckCollision(e.source, e.source + Sectors(e));
    if collision {
      device.Fsync();
      ls' := Restart(ls, i + 1);
      device.Write(0, ls');
      device.Fsync();
      used.Clear();
    }
  }

  lemma IsToWrite(ls: Buffer, i: nat, data: seq<Sector>, out: seq<Sector>)
    requires
      var begun := i == 0 && HeaderOf(ls).sequence != 0 && data != [] && HeaderOf(data).magic == MAGIC;
      out == if begun then Partial(data) else data
    ensures out == ToWrite(ls, i, data)
  {
    hide HeaderOf, Partial;
  }

  /**
    Restart points precede overwrites: whatever an entry writes beside the restart point itself is
    written after a sync, a header that names this entry as the next one to redo, and another sync.
  */
  lemma RestartPrecedesOverwrite(ls: Buffer, i: nat, data: seq<Sector>, n: nat)
    requires n < |EntryOps(ls, i, data)| && EntryOps(ls, i, data)[n].Write? && n != 1 && i + 1 <= UINT32_MAX
    requires HeaderOf(ls).headerSize >= HEADER_BYTES
    ensures var ops := EntryOps(ls, i, data);
      && n >= 3 && ops[n - 3].Fsync? && ops[n - 2].Write? && ops[n - 2].at == 0 && ops[n - 1].Fsync?
      && HeaderOf(ops[n - 2].data).magic == PARTIAL_MAGIC && HeaderOf(ops[n - 2].data).count == i + 1
      && forall k: nat :: EntryOf(ops[n - 2].data, k) == EntryOf(ls, k)
  {
    hide HeaderOf, EntryOf, Restart, ToWrite;
    RestartHeader(ls, i + 1);
    forall k: nat ensures EntryOf(Restart(ls, i + 1), k) == EntryOf(ls, k) { RestartEntry(ls, i + 1, k); }
  }

  // ----- One log block -----

  /** The contents saved by entry `i`, if its size, its readability and its checksum are in order. */
  method EntryContents(device: Device, relocations: RelocationMap, validating: bool, ls: Buffer, i: nat, block: nat)
    returns (r: Option<seq<Sector>>)
    requires block > 0 && relocations.Valid()
    requires WfEntry(EntryOf(ls, i), i, block, |device.disk|)
    ensures !validating ==> r == Saved(device.disk, block, ls, i)
    ensures validating ==> r == VirtualSaved(device.disk, relocations.entries, block, ls, i)
  {
    hide EntryOf, Sectors, VirtualRead, Get, Crc;
    var e := EntryOf(ls, i);
    if !SizeOk(e, block) {
      return None;
    }
    var data := RelocatedRead(device, relocations, validating, e.dest, Sectors(e), block);
    if data.None? {
      return None;
    }
    assert |data.value| == Sectors(e) by {
      WholeBlocks(Sectors(e), block);
      if validating { VirtualReadLength(device.disk, relocations.entries, block, e.dest, Sectors(e) / block); }
    }
    var checksum := BlockwiseChecksum(data.value, SeedOf(e, block), block);
    if e.checksum != 0 && checksum != e.checksum {
      return None;
    }
    return data;
  }

  lemma {:induction false} VirtualReadLength(d: Disk, m: Relocs, block: nat, x: nat, n: nat)
    requires block > 0 && 0 in m && VirtualRead(d, m, block, x, n).Some?
    ensures |VirtualRead(d, m, block, x, n).value| == n * block
    decreases n
  {
    hide Lookup, Get;
    if n > 0 {
      VirtualReadLength(d, m, block, x + block, n - 1);
      assert n * block == block + (n - 1) * block;
    }
  }

  lemma WholeBlocks(count: nat, block: nat)
    requires block > 0 && count % block == 0
    ensures count / block * block == count
  {
  }

  /** The inner loop while validating: nothing is written, the relocation map moves on. */
  method ValidateEntries(device: Device, relocations: RelocationMap, ls: Buffer, block: nat) returns (ok: bool)
    requires block > 0 && relocations.Valid()
    requires WfBlock(ls, HeaderOf(ls).count, block, |device.disk|)
    modifies relocations
    ensures relocations.Valid()
    ensures var moved := VirtualUndo(device.disk, old(relocations.entries), block, ls, HeaderOf(ls).count);
      ok == moved.Some? && (ok ==> relocations.entries == moved.value)
  {
    hide EntryOf, HeaderOf, Sectors, VirtualSaved, Relocated, WfEntry, Redirects;
    ghost var want := VirtualUndo(device.disk, relocations.entries, block, ls, HeaderOf(ls).count);
    var k: nat := HeaderOf(ls).count;
    while k > 0
      invariant k <= HeaderOf(ls).count
      invariant relocations.Valid()
      invariant want == VirtualUndo(device.disk, relocations.entries, block, ls, k)
    {
      k := k - 1;
      var e := EntryOf(ls, k);
      assert WfEntry(e, k, block, |device.disk|);
      var data := EntryContents(device, relocations, true, ls, k, block);
      if data.None? {
        return false;
      }
      relocations.Relocate(e.source, e.dest, Sectors(e));
    }
    return true;
  }

  /** Does a run with this limit stop once `steps` entries have been restored? */
  predicate Hits(limit: int, steps: nat) {
    limit != 0 && steps > 0 && limit <= steps
  }

  predicate NoHitBefore(limit: int, from: nat, to: nat) {
    forall m: nat :: from <= m < to ==> !Hits(limit, m)
  }

  lemma {:induction false} ApplyOps(d: Disk, a: seq<seq<Op>>, ops: seq<Op>)
    ensures Ops(a + [ops]) == Ops(a) + ops
    ensures Apply(d, Ops(a + [ops])) == Apply(Apply(d, Ops(a)), ops)
  {
    OpsConcat(a, [ops]);
    assert Ops([ops]) == ops by {
      assert [ops][1..] == [];
      assert ops + [] == ops;
    }
    ApplyConcat(d, Ops(a), ops);
  }

  /** Checks one entry and restores it; an entry that fails its checks leaves everything as it was. */
  method RestoreEntry(device: Device, relocations: RelocationMap, used: UsedMap, ls: Buffer, i: nat, block: nat)
    returns (valid: bool, ls': Buffer)
    requires block > 0 && relocations.Valid() && used.Valid() && i + 1 <= UINT32_MAX
    requires WfEntry(EntryOf(ls, i), i, block, |device.disk|) && HeaderOf(ls).headerSize >= HEADER_BYTES
    modifies device, used
    ensures used.Valid()
    ensures var saved := Saved(old(device.disk), block, ls, i);
      && valid == saved.Some?
      && (saved.None? ==> device.disk == old(device.disk) && device.history == old(device.history) && ls' == ls)
      && (saved.Some? ==>
            && ls' == Restart(ls, i + 1)
            && device.history == old(device.history) + EntryOps(ls, i, saved.value)
            && device.disk == Apply(old(device.disk), EntryOps(ls, i, saved.value)))
  {
    hide EntryOf, HeaderOf, Sectors, Saved, EntryOps, Restart, Apply, WfEntry;
    var data := EntryContents(device, relocations, false, ls, i, block);
    if data.None? {
      return false, ls;
    }
    SavedReads(device.disk, block, ls, i);
    SizeMeansSectors(EntryOf(ls, i), block);
    ls' := RestoreSector(device, used, ls, i, data.value);
    return true, ls';
  }

  lemma RestartKeepsLog(a: Buffer, n: nat, ls: Buffer)
    requires SameLog(a, ls) && HeaderOf(a).headerSize >= HEADER_BYTES && n <= UINT32_MAX
    ensures SameLog(Restart(a, n), ls) && HeaderOf(Restart(a, n)).headerSize >= HEADER_BYTES
  {
    hide EntryOf, HeaderOf, Restart, SameLog;
    RestartIsSameLog(a, n);
    RestartHeader(a, n);
    SameLogTransitive(Restart(a, n), a, ls);
  }

  /** Progress of the restoring loop: `done` entries of `run` behind, the rest of it ahead. */
  ghost predicate Midway(run: Run, d0: Disk, done: seq<seq<Op>>, d: Disk, block: nat, ls: Buffer, k: nat)
    requires block > 0
  {
    var rest := RestoreBlock(d, block, ls, k);
    && |d| == |d0| && d == Apply(d0, Ops(done))
    && run.ok == rest.ok && run.disk == rest.disk && run.steps == done + rest.steps
  }

  lemma MidwayStarts(d: Disk, block: nat, ls: Buffer, k: nat)
    requires block > 0
    ensures Midway(RestoreBlock(d, block, ls, k), d, [], d, block, ls, k)
  {
    hide RestoreBlock;
  }

  lemma RestoreBlockStep(d: Disk, block: nat, ls: Buffer, k: nat)
    requires block > 0 && Saved(d, block, ls, k).Some?
    ensures var ops := EntryOps(ls, k, Saved(d, block, ls, k).value);
      var rest := RestoreBlock(Apply(d, ops), block, Restart(ls, k + 1), k);
      RestoreBlock(d, block, ls, k + 1) == Run(rest.ok, rest.disk, [ops] + rest.steps)
  {
    hide Saved, EntryOps, Restart, Apply, EntryOf, Sectors;
  }

  lemma MidwayAdvances(run: Run, d0: Disk, done: seq<seq<Op>>, d: Disk, block: nat, ls: Buffer, k: nat)
    requires block > 0 && Midway(run, d0, done, d, block, ls, k + 1) && Saved(d, block, ls, k).Some?
    ensures var ops := EntryOps(ls, k, Saved(d, block, ls, k).value);
      && Midway(run, d0, done + [ops], Apply(d, ops), block, Restart(ls, k + 1), k)
      && Ops(done + [ops]) == Ops(done) + ops
  {
    hide Saved, EntryOps, Restart, Apply, RestoreBlock, Ops, EntryOf, Sectors;
    var ops := EntryOps(ls, k, Saved(d, block, ls, k).value);
    RestoreBlockStep(d, block, ls, k);
    ApplyOps(d0, done, ops);
    var rest := RestoreBlock(Apply(d, ops), block, Restart(ls, k + 1), k);
    assert done + ([ops] + rest.steps) == (done + [ops]) + rest.steps;
  }

  lemma MidwayEnds(run: Run, d0: Disk, done: seq<seq<Op>>, d: Disk, block: nat, ls: Buffer, k: nat)
    requires block > 0 && Midway(run, d0, done, d, block, ls, k)
    requires k == 0 || Saved(d, block, ls, k - 1).None?
    ensures run == Run(k == 0, d, done)
  {
    hide Saved, EntryOps, Restart, Apply, EntryOf, Sectors;
  }

  /** The first `n` entries of `run` have been restored, and nothing else was done to the device. */
  ghost predicate Performed(run: Run, n: nat, d0: Disk, d: Disk, h0: seq<Op>, h: seq<Op>) {
    n <= |run.steps| && h == h0 + Ops(run.steps[..n]) && d == Apply(d0, Ops(run.steps[..n]))
      && (n == |run.steps| ==> d == run.disk)
  }

  /** The status is `Again` exactly at the limit; otherwise the whole run was made and its result reported. */
  ghost predicate Concludes(run: Run, limit: int, restored: nat, count: nat, status: Status)
    requires restored <= count
  {
    && NoHitBefore(limit, restored, count)
    && (status == Again <==> Hits(limit, count))
    && (status != Again ==> count - restored == |run.steps| && status == if run.ok then Ok else Invalid)
  }

  lemma PassStops(run: Run, d0: Disk, done: seq<seq<Op>>, d: Disk, block: nat, ls: Buffer, k: nat,
                  h0: seq<Op>, h: seq<Op>, limit: int, restored: nat, count: nat)
    requires block > 0 && Midway(run, d0, done, d, block, ls, k) && h == h0 + Ops(done)
    requires count == restored + |done| && NoHitBefore(limit, restored, count) && Hits(limit, count)
    ensures Performed(run, |done|, d0, d, h0, h) && Concludes(run, limit, restored, count, Again)
  {
    hide RestoreBlock, Apply;
    var rest := RestoreBlock(d, block, ls, k);
    assert run.steps[..|done|] == done;
    if rest.steps == [] {
      NothingRestored(d, block, ls, k);
    }
  }

  lemma NothingRestored(d: Disk, block: nat, ls: Buffer, k: nat)
    requires block > 0 && RestoreBlock(d, block, ls, k).steps == []
    ensures RestoreBlock(d, block, ls, k).disk == d
  {
  }

  lemma PassEnds(run: Run, d0: Disk, done: seq<seq<Op>>, d: Disk, block: nat, ls: Buffer, k: nat,
                 h0: seq<Op>, h: seq<Op>, limit: int, restored: nat, count: nat)
    requires block > 0 && Midway(run, d0, done, d, block, ls, k) && h == h0 + Ops(done)
    requires k == 0 || Saved(d, block, ls, k - 1).None?
    requires count == restored + |done| && NoHitBefore(limit, restored, count) && !Hits(limit, count)
    ensures Performed(run, |done|, d0, d, h0, h)
    ensures Concludes(run, limit, restored, count, if k == 0 then Ok else Invalid)
  {
    hide RestoreBlock, Apply, Saved;
    MidwayEnds(run, d0, done, d, block, ls, k);
    assert run.steps[..|done|] == done;
  }

  /** The inner loop while restoring, from the last entry of the log block to the first. */
  method RestoreEntries(device: Device, relocations: RelocationMap, ls: Buffer, block: nat, limit: int, restored: nat)
    returns (status: Status, count: nat)
    requires block > 0 && |ls| == block && relocations.Valid()
    requires WfBlock(ls, HeaderOf(ls).count, block, |device.disk|)
    requires HeaderOf(ls).headerSize >= HEADER_BYTES
    requires !Hits(limit, restored)
    modifies device
    ensures restored <= count
    ensures Performed(RestoreBlock(old(device.disk), block, ls, HeaderOf(ls).count), count - restored,
              old(device.disk), device.disk, old(device.history), device.history)
    ensures Concludes(RestoreBlock(old(device.disk), block, ls, HeaderOf(ls).count), limit, restored, count, status)
  {
    hide EntryOf, HeaderOf, Sectors, Saved, EntryOps, Restart, Apply, WfEntry, SameLog, RestoreBlock, Midway, WfBlock,
         Ops,
         Performed, Concludes, Canonical, Floor, Put;
    var used := new UsedMap();
    ghost var d0 := device.disk;
    var k: nat, buffer := HeaderOf(ls).count, ls;
    ghost var run := RestoreBlock(d0, block, ls, k);
    ghost var done: seq<seq<Op>> := [];
    FieldsAreBounded(ls);
    SameLogReflexive(ls);
    MidwayStarts(d0, block, ls, k);
    status, count := Ok, restored;
    assert device.history == old(device.history) + Ops(done) by { NoOps(); }
    while k > 0
      invariant used.Valid() && fresh(used)
      invariant 0 <= k <= HeaderOf(ls).count && SameLog(buffer, ls) && HeaderOf(buffer).headerSize >= HEADER_BYTES
      invariant count == restored + |done| && !Hits(limit, count) && NoHitBefore(limit, restored, count)
      invariant device.history == old(device.history) + Ops(done)
      invariant Midway(run, d0, done, device.disk, block, buffer, k)
    {
      k := k - 1;
      assert |device.disk| == |d0| by { MidwayFacts(run, d0, done, device.disk, block, buffer, k + 1); }
      EntryIsWf(buffer, ls, HeaderOf(ls).count, k, block, |d0|);
      ghost var d, b := device.disk, buffer;
      var valid;
      valid, buffer := RestoreEntry(device, relocations, used, buffer, k, block);
      if !valid {
        PassEnds(run, d0, done, d, block, b, k + 1, old(device.history), device.history, limit, restored, count);
        return Invalid, count;
      }
      MidwayAdvances(run, d0, done, d, block, b, k);
      RestartKeepsLog(b, k + 1, ls);
      done := done + [EntryOps(b, k, Saved(d, block, b, k).value)];
      count := count + 1;
      if limit != 0 && count >= limit {
        PassStops(run, d0, done, device.disk, block, buffer, k, old(device.history), device.history, limit, restored,
                  count);
        return Again, count;
      }
    }
    PassEnds(run, d0, done, device.disk, block, buffer, 0, old(device.history), device.history, limit, restored, count);
  }

  lemma MidwayFacts(run: Run, d0: Disk, done: seq<seq<Op>>, d: Disk, block: nat, ls: Buffer, k: nat)
    requires block > 0 && Midway(run, d0, done, d, block, ls, k)
    ensures |d| == |d0| && d == Apply(d0, Ops(done)) && |done| <= |run.steps| && run.steps[..|done|] == done
  {
    hide RestoreBlock, Apply;
  }

  lemma NoOps()
    ensures Ops([]) == []
  {
  }

  lemma SameLogReflexive(ls: Buffer)
    ensures SameLog(ls, ls)
  {
  }

  lemma EntryIsWf(a: Buffer, ls: Buffer, count: nat, k: nat, block: nat, sectors: nat)
    requires block > 0 && k < count && SameLog(a, ls) && WfBlock(ls, count, block, sectors)
    ensures WfEntry(EntryOf(a, k), k, block, sectors)
  {
    hide EntryOf, HeaderOf, WfEntry;
    assert EntryOf(a, k) == EntryOf(ls, k);
  }

  lemma SizeMeansSectors(e: Entry, block: nat)
    requires block > 0 && SizeOk(e, block)
    ensures Sectors(e) > 0
  {
  }

  // ----- A whole pass over the log -----

  /** The outer loop while validating. */
  method ValidatePass(device: Device, block: nat, sequence: int) returns (ok: bool)
    requires block > 0 && WfLog(device.disk, block, sequence)
    ensures ok == Validates(device.disk, map[0 := 0], block, sequence)
  {
    hide HeaderOf, EntryOf, VirtualRead, VirtualUndo, Undo, WfBlock, Presents, Lookup;
    var relocations := new RelocationMap();
    ghost var y := device.disk;
    IdentityPresents(y, block);
    var q := sequence;
    while q >= 0
      invariant relocations.Valid() && fresh(relocations)
      invariant Presents(device.disk, relocations.entries, y, block) && WfLog(y, block, q)
      invariant |y| == |device.disk|
      invariant Validates(device.disk, map[0 := 0], block, sequence) == Validates(device.disk, relocations.entries,
          block, q)
      decreases q + 1
    {
      WholeBlock(block);
      ZeroIsAligned(block);
      VirtualReadIsRead(device.disk, relocations.entries, y, block, 0, 1);
      var ls := RelocatedRead(device, relocations, true, 0, block, block);
      if ls.None? {
        return false;
      }
      if !HeaderOk(HeaderOf(ls.value), block, q, true) {
        return false;
      }
      VirtualUndoIsUndo(device.disk, relocations.entries, y, block, ls.value, HeaderOf(ls.value).count);
      var valid := ValidateEntries(device, relocations, ls.value, block);
      if !valid {
        return false;
      }
      y := Undo(y, block, ls.value, HeaderOf(ls.value).count).value;
      q := q - 1;
    }
    return true;
  }

  lemma WholeBlock(block: nat)
    requires block > 0
    ensures block % block == 0 && block / block == 1
  {
  }

  lemma ZeroIsAligned(block: nat)
    requires block > 0
    ensures 0 % block == 0
  {
  }

  /** Progress of the outer loop: log blocks above `q` are behind, the rest of `run` ahead. */
  ghost predicate Underway(run: Run, d0: Disk, done: seq<seq<Op>>, d: Disk, block: nat, q: int)
    requires block > 0
  {
    var rest := RestoreAll(d, block, q);
    && d == Apply(d0, Ops(done))
    && run.ok == rest.ok && run.disk == rest.disk && run.steps == done + rest.steps
  }

  lemma UnderwayStarts(d: Disk, block: nat, q: int)
    requires block > 0
    ensures Underway(RestoreAll(d, block, q), d, [], d, block, q)
  {
    hide RestoreAll;
  }

  /** No log block can be read here, or its header is refused. */
  lemma UnderwayRefused(run: Run, d0: Disk, done: seq<seq<Op>>, d: Disk, block: nat, q: int, h0: seq<Op>, h: seq<Op>)
    requires block > 0 && Underway(run, d0, done, d, block, q) && h == h0 + Ops(done)
    requires q >= 0 ==> Get(d, 0, block).None? || !HeaderOk(HeaderOf(Get(d, 0, block).value), block, q, false)
    ensures run == Run(q < 0, d, done) && Performed(run, |done|, d0, d, h0, h)
  {
    hide Apply, RestoreAll, Ops;
    RestoreAllRefused(d, block, q);
    assert run.steps == done;
    assert run.steps[..|done|] == done;
  }

  lemma RestoreAllRefused(d: Disk, block: nat, q: int)
    requires block > 0
    requires q >= 0 ==> Get(d, 0, block).None? || !HeaderOk(HeaderOf(Get(d, 0, block).value), block, q, false)
    ensures RestoreAll(d, block, q) == Run(q < 0, d, [])
  {
    hide HeaderOf, HeaderOk, RestoreBlock;
  }

  /** The log block at block 0 has been gone through up to entry `n`. */
  lemma UnderwayAdvances(run: Run, d0: Disk, done: seq<seq<Op>>, d: Disk, block: nat, q: int, ls: Buffer,
                         n: nat, d': Disk, h0: seq<Op>, h: seq<Op>, h': seq<Op>)
    requires block > 0 && q >= 0 && Underway(run, d0, done, d, block, q) && h == h0 + Ops(done)
    requires Get(d, 0, block) == Some(ls) && HeaderOk(HeaderOf(ls), block, q, false)
    requires Performed(RestoreBlock(d, block, ls, HeaderOf(ls).count), n, d, d', h, h')
    ensures var inner := RestoreBlock(d, block, ls, HeaderOf(ls).count);
      var did := done + inner.steps[..n];
      && |did| == |done| + n && did <= run.steps && h' == h0 + Ops(did) && d' == Apply(d0, Ops(did))
      && (n == |inner.steps| ==> d' == inner.disk)
      && (n == |inner.steps| && inner.ok ==> Underway(run, d0, did, d', block, q - 1))
      && (n == |inner.steps| && !inner.ok ==> run == Run(false, d', did))
  {
    hide HeaderOf, Apply, RestoreBlock, HeaderOk, Ops, RestoreAll;
    var inner := RestoreBlock(d, block, ls, HeaderOf(ls).count);
    OpsConcat(done, inner.steps[..n]);
    ApplyConcat(d0, Ops(done), Ops(inner.steps[..n]));
    assert (h0 + Ops(done)) + Ops(inner.steps[..n]) == h0 + (Ops(done) + Ops(inner.steps[..n]));
    assert inner.steps[..|inner.steps|] == inner.steps;
    RestIsUnderway(run, d0, done, d, block, q, ls, n);
    if n == |inner.steps| && inner.ok {
      assert Underway(run, d0, done + inner.steps, d', block, q - 1);
    }
  }

  /** What is left of the steps after `n` of this log block. */
  lemma RestIsUnderway(run: Run, d0: Disk, done: seq<seq<Op>>, d: Disk, block: nat, q: int, ls: Buffer, n: nat)
    requires block > 0 && q >= 0 && Underway(run, d0, done, d, block, q)
    requires Get(d, 0, block) == Some(ls) && HeaderOk(HeaderOf(ls), block, q, false)
    requires n <= |RestoreBlock(d, block, ls, HeaderOf(ls).count).steps|
    ensures var inner := RestoreBlock(d, block, ls, HeaderOf(ls).count);
      && done + inner.steps[..n] <= run.steps
      && (inner.ok ==> var rest := RestoreAll(inner.disk, block, q - 1);
            run.ok == rest.ok && run.disk == rest.disk && run.steps == (done + inner.steps) + rest.steps)
      && (!inner.ok ==> run == Run(false, inner.disk, done + inner.steps))
  {
    hide HeaderOf, Apply, RestoreBlock, HeaderOk, Ops, RestoreAll;
    var inner := RestoreBlock(d, block, ls, HeaderOf(ls).count);
    RestoreAllStep(d, block, q, ls);
    var rest := if inner.ok then RestoreAll(inner.disk, block, q - 1).steps else [];
    assert inner.steps == inner.steps[..n] + inner.steps[n..];
    assert run.steps == (done + inner.steps[..n]) + (inner.steps[n..] + rest);
  }

  lemma RestoreAllStep(d: Disk, block: nat, q: int, ls: Buffer)
    requires block > 0 && q >= 0 && Get(d, 0, block) == Some(ls) && HeaderOk(HeaderOf(ls), block, q, false)
    ensures var inner := RestoreBlock(d, block, ls, HeaderOf(ls).count);
      var rest := RestoreAll(inner.disk, block, q - 1);
      RestoreAll(d, block, q)
        == if inner.ok then Run(rest.ok, rest.disk, inner.steps + rest.steps) else inner
  {
    hide HeaderOf, RestoreBlock, HeaderOk;
  }

  lemma FullyPerformed(run: Run, d: Disk, block: nat, q: int, d0: Disk, did: seq<seq<Op>>, h0: seq<Op>, h: seq<Op>)
    requires did <= run.steps && h == h0 + Ops(did) && d == Apply(d0, Ops(did))
    requires |did| == |run.steps| ==> d == run.disk
    ensures Performed(run, |did|, d0, d, h0, h)
  {
    hide Apply, Ops;
    assert run.steps[..|did|] == did;
  }

  lemma RestoreEndsOnItsDisk(d: Disk, block: nat, q: int)
    requires block > 0
    ensures RestoreAll(d, block, q).disk == Apply(d, Ops(RestoreAll(d, block, q).steps))
    decreases q + 1
  {
    hide HeaderOf, RestoreBlock;
    if q >= 0 && Get(d, 0, block).Some? {
      var ls: Buffer := Get(d, 0, block).value;
      if HeaderOk(HeaderOf(ls), block, q, false) {
        var inner := RestoreBlock(d, block, ls, HeaderOf(ls).count);
        BlockEndsOnItsDisk(d, block, ls, HeaderOf(ls).count);
        if inner.ok {
          RestoreEndsOnItsDisk(inner.disk, block, q - 1);
          OpsConcat(inner.steps, RestoreAll(inner.disk, block, q - 1).steps);
          ApplyConcat(d, Ops(inner.steps), Ops(RestoreAll(inner.disk, block, q - 1).steps));
        }
      }
    }
  }

  lemma {:induction false} BlockEndsOnItsDisk(d: Disk, block: nat, ls: Buffer, k: nat)
    requires block > 0
    ensures RestoreBlock(d, block, ls, k).disk == Apply(d, Ops(RestoreBlock(d, block, ls, k).steps))
    decreases k
  {
    hide EntryOps, Restart, Saved, RestoreBlock, Apply, Ops, EntryOf, Sectors;
    if k > 0 && Saved(d, block, ls, k - 1).Some? {
      var ops := EntryOps(ls, k - 1, Saved(d, block, ls, k - 1).value);
      var rest := RestoreBlock(Apply(d, ops), block, Restart(ls, k), k - 1);
      BlockEndsOnItsDisk(Apply(d, ops), block, Restart(ls, k), k - 1);
      RestoreBlockStep(d, block, ls, k - 1);
      assert RestoreBlock(d, block, ls, k) == Run(rest.ok, rest.disk, [ops] + rest.steps);
      StepsCompose(d, ops, rest.steps, rest.disk);
    } else {
      BlockEndsAtOnce(d, block, ls, k);
    }
  }

  lemma FirstOps(ops: seq<Op>, rest: seq<seq<Op>>)
    ensures Ops([ops] + rest) == ops + Ops(rest)
  {
    assert ([ops] + rest)[1..] == rest;
  }

  lemma StepsCompose(d: Disk, ops: seq<Op>, rest: seq<seq<Op>>, end: Disk)
    requires end == Apply(Apply(d, ops), Ops(rest))
    ensures end == Apply(d, Ops([ops] + rest))
  {
    hide Apply, Ops;
    FirstOps(ops, rest);
    ApplyConcat(d, ops, Ops(rest));
  }

  lemma BlockEndsAtOnce(d: Disk, block: nat, ls: Buffer, k: nat)
    requires block > 0 && (k == 0 || Saved(d, block, ls, k - 1).None?)
    ensures RestoreBlock(d, block, ls, k) == Run(k == 0, d, []) && Apply(d, Ops([])) == d
  {
    hide Saved;
  }

  /** The outer loop while restoring. */
  method RestorePass(device: Device, block: nat, sequence: int, limit: int) returns (status: Status, ghost count: nat)
    requires block > 0 && WfRestore(device.disk, block, sequence)
    modifies device
    ensures Performed(RestoreAll(old(device.disk), block, sequence), count,
              old(device.disk), device.disk, old(device.history), device.history)
    ensures Concludes(RestoreAll(old(device.disk), block, sequence), limit, 0, count, status)
  {
    hide HeaderOf, EntryOf, RestoreBlock, WfBlock, Apply, Ops, Performed, Put, Restart;
    var relocations := new RelocationMap();
    var restored, q := 0, sequence;
    ghost var d0 := device.disk;
    ghost var run := RestoreAll(d0, block, sequence);
    ghost var done: seq<seq<Op>> := [];
    UnderwayStarts(d0, block, sequence);
    NoOps();
    while q >= 0
      invariant relocations.Valid() && fresh(relocations)
      invariant WfRestore(device.disk, block, q)
      invariant restored == |done| && !Hits(limit, restored) && NoHitBefore(limit, 0, restored)
      invariant device.history == old(device.history) + Ops(done)
      invariant Underway(run, d0, done, device.disk, block, q)
      decreases q + 1
    {
      var ls := RelocatedRead(device, relocations, false, 0, block, block);
      if ls.None? || !HeaderOk(HeaderOf(ls.value), block, q, false) {
        UnderwayRefused(run, d0, done, device.disk, block, q, old(device.history), device.history);
        return Invalid, restored;
      }
      ghost var d, h, was := device.disk, device.history, restored;
      ghost var inner := RestoreBlock(d, block, ls.value, HeaderOf(ls.value).count);
      status, restored := RestoreEntries(device, relocations, ls.value, block, limit, restored);
      ghost var n: nat := restored - was;
      assert n <= |inner.steps| by { PerformedLength(inner, n, d, device.disk, h, device.history); }
      UnderwayAdvances(run, d0, done, d, block, q, ls.value, n, device.disk, old(device.history), h, device.history);
      done := done + inner.steps[..n];
      if status != Ok {
        RestoreEndsOnItsDisk(d0, block, sequence);
        assert |done| == |run.steps| ==> done == run.steps;
        FullyPerformed(run, device.disk, block, q, d0, done, old(device.history), device.history);
        return status, restored;
      }
      q := q - 1;
    }
    UnderwayRefused(run, d0, done, device.disk, block, q, old(device.history), device.history);
    return Ok, restored;
  }

  lemma PerformedLength(run: Run, n: nat, d0: Disk, d: Disk, h0: seq<Op>, h: seq<Op>)
    requires Performed(run, n, d0, d, h0, h)
    ensures n <= |run.steps|
  {
    hide Apply;
  }

  // ----- The command -----

  /** What is assumed of the log on the device, fresh or half restored. */
  ghost predicate WfDevice(d: Disk)
    requires UsableBlockSize(d)
  {
    var h := HeaderOf(d);
    IsLog(d) && h.blockSize >= HEADER_BYTES ==>
      if h.magic == MAGIC then WfLog(d, BlockOf(d), AsInt32(h.sequence))
      else WfRestore(d, BlockOf(d), AsInt32(h.sequence))
  }

  lemma ConcludesAtLimit(run: Run, limit: int, count: nat, status: Status)
    requires count <= |run.steps| && Concludes(run, limit, 0, count, status)
    ensures count == StepsWithin(limit, |run.steps|)
    ensures limit != 0 && count > 1 ==> count - 1 < limit
    ensures status == if limit != 0 && count > 0 && limit <= count then Again else if run.ok then Ok else Invalid
  {
    if Hits(limit, count) && count > 1 {
      assert !Hits(limit, count - 1);
    }
  }

  lemma ValidatedIsWf(d: Disk, block: nat, q: int)
    requires block > 0 && WfLog(d, block, q) && Validates(d, map[0 := 0], block, q)
    ensures WfRestore(d, block, q)
  {
    hide HeaderOf, Presents;
    if q >= 0 {
      IdentityPresents(d, block);
      ValidatesIffUndoable(d, map[0 := 0], d, block, q);
      assert block <= |d|;
      hide Validates;
      RestoreFollowsUndo(d, d, block, q);
    }
  }

  lemma AllStepsWithin(limit: int, run: Run)
    requires |run.steps| <= 1
    ensures run.steps[..StepsWithin(limit, |run.steps|)] == run.steps
  {
  }

  /**
    Validates the log unless a restore has begun, then restores it, at most `limit` entries if a
    limit is given.  A fresh log that fails validation is rolled forward instead.
  */
  method RestoreFrom(device: Device, limit: int) returns (status: Status)
    requires UsableBlockSize(device.disk) && WfDevice(device.disk)
    modifies device
    ensures var run := Restore(old(device.disk));
      var n := StepsWithin(limit, |run.steps|);
      && device.history == old(device.history) + Ops(run.steps[..n])
      && device.disk == LimitedRun(old(device.disk), limit)
      && (limit == 0 ==> n == |run.steps|)
      && (n < |run.steps| ==> 0 < n && limit <= n)
      && (limit != 0 && n > 1 ==> n - 1 < limit)
      && status == if !RollsForward(old(device.disk)) && limit != 0 && n > 0 && limit <= n then Again
                   else if run.ok then Ok else Invalid
  {
    hide HeaderOf, EntryOf, Validates, WfLog, WfRestore, RestoreAll, Concludes, Put;
    ghost var d0 := device.disk;
    var validating := true;
    NoOps();
    while true
      invariant device.disk == d0 && device.history == old(device.history)
      invariant !validating ==>
        && IsLog(d0) && HeaderOf(d0).blockSize >= HEADER_BYTES && HeaderOf(d0).magic == MAGIC
        && Validates(d0, map[0 := 0], BlockOf(d0), AsInt32(HeaderOf(d0).sequence))
      decreases if validating then 1 else 0
    {
      if |device.disk| == 0 {
        assert device.history + [] == device.history;
        return Invalid;
      }
      var original := HeaderOf(device.disk);
      if original.magic == PARTIAL_MAGIC {
        validating := false;
      } else if original.magic != MAGIC {
        assert device.history + [] == device.history;
        return Invalid;
      }
      if original.blockSize < HEADER_BYTES {
        assert device.history + [] == device.history;
        return Invalid;
      }
      var block, q := original.blockSize / SECTOR_SIZE, AsInt32(original.sequence);
      if validating {
        var valid := ValidatePass(device, block, q);
        if !valid {
          status := RollForward(device, block, original.sector0);
          RolledForward(d0, limit);
          return status;
        }
        validating := false;
      } else {
        if original.magic == MAGIC {
          ValidatedIsWf(d0, block, q);
        }
        ghost var count;
        status, count := RestorePass(device, block, q, limit);
        assert count <= |RestoreAll(d0, block, q).steps| by {
          PerformedLength(RestoreAll(d0, block, q), count, d0, device.disk, old(device.history), device.history);
        }
        ConcludesAtLimit(RestoreAll(d0, block, q), limit, count, status);
        return status;
      }
    }
  }

  /** Puts the original block 0 back, as found at the sector the header names. */
  method RollForward(device: Device, block: nat, sector0: nat) returns (status: Status)
    modifies device
    ensures match Get(old(device.disk), sector0, block)
      case None => status == Invalid && device.disk == old(device.disk) && device.history == old(device.history)
      case Some(original) =>
        && status == Ok && device.disk == Put(old(device.disk), 0, original)
        && device.history == old(device.history) + [Write(0, original)]
  {
    var buffer := device.Read(sector0, block);
    if buffer.None? {
      return Invalid;
    }
    device.Write(0, buffer.value);
    return Ok;
  }

  lemma RolledForward(d: Disk, limit: int)
    requires UsableBlockSize(d) && RollsForward(d)
    ensures var run, original := Restore(d), Get(d, HeaderOf(d).sector0, BlockOf(d));
      var n := StepsWithin(limit, |run.steps|);
      && Ops(run.steps[..n]) == (if original.Some? then [Write(0, original.value)] else [])
      && LimitedRun(d, limit) == (if original.Some? then Put(d, 0, original.value) else d)
      && run.ok == original.Some?
  {
    hide HeaderOf, Validates;
    var run, original := Restore(d), Get(d, HeaderOf(d).sector0, BlockOf(d));
    AllStepsWithin(limit, run);
    NoOps();
    ApplyNothing(d);
    if original.Some? {
      var op := Write(0, original.value);
      assert run.steps == [[op]] && run.steps[1..] == [];
      assert Ops(run.steps) == [op] + Ops([]) == [op];
      assert [op][1..] == [];
      assert Apply(d, [op]) == Apply(Put(d, 0, original.value), []);
      ApplyNothing(Put(d, 0, original.value));
    }
  }

  lemma ApplyNothing(d: Disk)
    ensures Apply(d, []) == d
  {
  }
}
