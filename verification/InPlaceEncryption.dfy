/**
  The in-place encrypter: the buffered pass over the used blocks of a device, which reads plaintext
  and writes ciphertext over the same storage.

  Each method does one part of the run that `InPlaceRuns` specifies; what such a run achieves is
  proved in `InPlaceExactlyOnce`.
*/
module InPlaceEncryption {
  import opened InPlaceRuns
  import opened InPlaceExactlyOnce
  import opened InPlaceBitmaps

  /** The raw device and the encrypting device on top of it. */
  class Storage {
    var blocks: seq<Block>
    var transfers: nat
    const env: Env

    constructor (blocks: seq<Block>, env: Env)
      ensures this.blocks == blocks && transfers == 0 && this.env == env
    {
      this.blocks, transfers, this.env := blocks, 0, env;
    }

    method ReadRaw(first: nat, count: nat) returns (ok: bool, data: seq<Block>)
      modifies this`transfers
      ensures transfers == old(transfers) + 1
      ensures ok <==> env.works(old(transfers)) && first + count <= |blocks|
      ensures ok ==> data == blocks[first..first + count]
    {
      ok, data := env.works(transfers) && first + count <= |blocks|, [];
      transfers := transfers + 1;
      if ok {
        data := blocks[first..first + count];
      }
    }

    /** A write through the encrypting device; a failed one leaves garbage in its range. */
    method WriteEncrypted(first: nat, data: seq<Block>) returns (ok: bool)
      modifies this
      ensures transfers == old(transfers) + 1
      ensures ok <==> env.works(old(transfers)) && first + |data| <= |blocks|
      ensures ok ==> blocks == WithEncrypted(old(blocks), env.cipher, first, data)
      ensures !ok ==> blocks == WithGarbage(old(blocks), env.garbage, old(transfers), first, |data|)
    {
      ok := env.works(transfers) && first + |data| <= |blocks|;
      blocks := if ok then WithEncrypted(blocks, env.cipher, first, data)
                else WithGarbage(blocks, env.garbage, transfers, first, |data|);
      transfers := transfers + 1;
    }
  }

  class InPlaceEncrypter {
    const storage: Storage
    var blocksDone: nat
    var blockSize: nat
    var ioBufferSize: nat
    var firstPendingBlock: nat
    var blocksPending: nat

    /** Where the run is. */
    function Now(): Pass
      reads this, storage
    {
      Pass(storage.blocks, storage.transfers, firstPendingBlock, blocksPending, blocksDone)
    }

    /** The batch lies inside one window of the buffer. */
    ghost predicate Valid()
      reads this, storage
    {
      blockSize > 0 && ioBufferSize == RoundUp(IO_BUFFER_SIZE, blockSize) && InWindow(Now(), blockSize)
    }

    constructor (storage: Storage)
      ensures this.storage == storage
    {
      this.storage := storage;
    }

    /** Starts over for the given block size. */
    method InitFs(size: nat)
      requires size > 0
      modifies this
      ensures Valid() && blockSize == size && Now() == Started(storage.blocks, storage.transfers)
    {
      blocksDone, blockSize := 0, size;
      ioBufferSize := RoundUp(IO_BUFFER_SIZE, size);
      firstPendingBlock, blocksPending := 0, 0;
      WindowIsBuffer(size);
    }

    method UpdateProgress(blocks: nat)
      modifies this`blocksDone
      ensures blocksDone == old(blocksDone) + blocks
    {
      blocksDone := blocksDone + blocks;
    }

    /** Reads the batch, which fits the buffer, writes it encrypted, and forgets it. */
    method EncryptPendingData() returns (ok: bool)
      requires Valid()
      modifies this, storage
      ensures Valid() && unchanged(`blockSize, `ioBufferSize)
      ensures Outcome(Now(), ok) == Flushed(storage.env, old(Now()))
      ensures old(blocksPending) * blockSize <= ioBufferSize && (ok ==> blocksPending == 0)
    {
      hide RoundUp, WithEncrypted, WithGarbage, InWindow;
      BatchFits(Now(), blockSize);
      FlushStaysInWindow(storage.env, Now(), blockSize);
      if blocksPending == 0 {
        return true;
      }
      var read, buffer := storage.ReadRaw(firstPendingBlock, blocksPending);
      if !read {
        return false;
      }
      var wrote := storage.WriteEncrypted(firstPendingBlock, buffer);
      if !wrote {
        return false;
      }
      UpdateProgress(blocksPending);
      blocksPending := 0;
      return true;
    }

    /** Is the batch full, or is there a gap before the block, or is the block at a buffer boundary? */
    predicate EndsBatch(blockNum: nat)
      requires blockSize > 0 && ioBufferSize == RoundUp(IO_BUFFER_SIZE, blockSize) && ioBufferSize > 0
      reads this, storage
      ensures EndsBatch(blockNum) == Ends(Now(), blockSize, blockNum)
    {
      || blocksPending * blockSize == ioBufferSize
      || blockNum != firstPendingBlock + blocksPending
      || (blockNum * blockSize) % ioBufferSize == 0
    }

    /** Adds a block to the batch, flushing first when that is full, has a gap, or would cross a buffer boundary. */
    method ProcessUsedBlock(blockNum: nat) returns (ok: bool)
      requires Valid()
      modifies this, storage
      ensures Valid() && unchanged(`blockSize, `ioBufferSize)
      ensures Outcome(Now(), ok) == Offered(storage.env, blockSize, old(Now()), blockNum)
      ensures blocksPending * blockSize <= ioBufferSize
    {
      hide RoundUp, InWindow, Flushed, Ends, EndsBatch;
      OfferedStaysInWindow(storage.env, blockSize, Now(), blockNum);
      BatchFits(Offered(storage.env, blockSize, Now(), blockNum).pass, blockSize);
      WindowIsBuffer(blockSize);
      PositiveBuffer(blockSize);
      if EndsBatch(blockNum) {
        ok := EncryptPendingData();
        if !ok {
          return false;
        }
        firstPendingBlock := blockNum;
      }
      blocksPending := blocksPending + 1;
      return true;
    }

    /** Encrypts the used blocks of one group; like the original, it ignores what ProcessUsedBlock returns. */
    method EncryptGroup(l: Layout, g: nat, bitmap: Block)
      requires Valid() && WfLayout(l) && g < |l.groups| && blockSize == l.blockSize
      modifies this, storage
      ensures Valid() && unchanged(`blockSize) && FirstBlockInGroup(l, g) <= l.lenBlocks
      ensures Now() == OfferedIn(storage.env, l, g, bitmap, old(Now()), BlockCount(l, g))
    {
      hide RoundUp, InWindow, Offered, Bit;
      CountFits(l, g);
      var first, uninit := FirstBlockInGroup(l, g), l.groups[g].uninit;
      var count := if uninit then NumBaseMetaBlocksInGroup(l, g) else NumBlocksInGroup(l, g);
      for i := 0 to count
        invariant Valid() && blockSize == old(blockSize)
        invariant Now() == OfferedIn(storage.env, l, g, bitmap, old(Now()), i)
      {
        if uninit || Bit(bitmap, i) {
          var _ := ProcessUsedBlock(first + i);
        }
      }
    }

    /** Walks the block groups; fails only if a bitmap cannot be read. */
    method EncryptInPlaceExt4(l: Layout) returns (ok: bool)
      requires WfLayout(l)
      modifies this, storage
      ensures Valid() && blockSize == l.blockSize
      ensures
        var start := Started(old(storage.blocks), old(storage.transfers));
        Outcome(Now(), ok) == OfferedGroups(storage.env, l, start, |l.groups|)
    {
      hide RoundUp, InOneWindow, OfferedIn, BlockCount;
      InitFs(l.blockSize);
      ghost var start := Now();
      var g := 0;
      while g < |l.groups|
        invariant 0 <= g <= |l.groups| && Valid() && blockSize == l.blockSize
        invariant OfferedGroups(storage.env, l, start, g) == Outcome(Now(), true)
      {
        var read, data := storage.ReadRaw(l.groups[g].bitmapBlock, 1);
        if !read {
          StopsThere(storage.env, l, start, g, |l.groups|);
          return false;
        }
        EncryptGroup(l, g, data[0]);
        g := g + 1;
      }
      return true;
    }

    /** Without a known filesystem every sector is encrypted; here a failure stops the loop. */
    method EncryptFullDevice(sectors: nat) returns (ok: bool)
      modifies this, storage
      ensures Valid() && blockSize == 512
      ensures
        var start := Started(old(storage.blocks), old(storage.transfers));
        Outcome(Now(), ok) == OfferedSectors(storage.env, start, sectors)
    {
      hide RoundUp, InWindow, Offered;
      InitFs(512);
      ghost var start := Now();
      for i := 0 to sectors
        invariant Valid() && blockSize == 512
        invariant OfferedSectors(storage.env, start, i) == Outcome(Now(), true)
      {
        ok := ProcessUsedBlock(i);
        if !ok {
          SectorsStopThere(storage.env, start, i + 1, sectors);
          return false;
        }
      }
      return true;
    }

    /**
      The whole run; `synced` tells whether the sync at the end works.  What it achieves is stated by
      `RunIsExactIffClean` and `ExactIffBitmapsHold`; here once more what that means for the storage and
      the count.
    */
    method EncryptInPlace(filesystem: FileSystem, sectors: nat, synced: bool) returns (success: bool)
      requires filesystem.Ext4? ==> WfLayout(filesystem.layout)
      modifies this, storage
      ensures
        var o := RunOf(storage.env, filesystem, old(storage.blocks), old(storage.transfers), sectors);
        Now() == o.pass && success == (o.ok && synced)
      ensures success ==> UsedKnown(filesystem, old(storage.blocks))
      ensures
        var disk := old(storage.blocks);
        var named := NamedBlocks(storage.env, filesystem, disk, old(storage.transfers), sectors);
        var clean := Clean(storage.env, old(storage.transfers), storage.transfers);
        && (clean ==> (success <==> synced && UsedKnown(filesystem, disk) && forall b :: b in named ==> b < |disk|))
        && (success ==> (clean <==> blocksDone == |named|))
        && (success && clean ==>
              && ExactlyOnce(storage.blocks, disk, storage.env.cipher, named)
              && ((named == UsedBlocks(filesystem, disk, sectors)) <==>
                    AllBitmapsHold(storage.env.cipher, filesystem, disk)))
    {
      hide RoundUp, InWindow, OfferedGroups, OfferedSectors, Flushed;
      hide Clean, UsedBlocks, NamedBlocks, ExactlyOnce, AllBitmapsHold;
      match filesystem {
        case Ext4(layout) =>
          success := EncryptInPlaceExt4(layout);
        case Unknown =>
          success := EncryptFullDevice(sectors);
      }
      if success {
        success := EncryptPendingData();
      }
      RunIsExactIffClean(storage.env, filesystem, old(storage.blocks), old(storage.transfers), sectors);
      if success && Clean(storage.env, old(storage.transfers), storage.transfers) {
        NamedAreUsedIff(storage.env, filesystem, old(storage.blocks), old(storage.transfers), sectors);
      }
      if success && !synced {
        success := false;
      }
    }
  }

  lemma PositiveBuffer(blockSize: nat)
    requires blockSize > 0
    ensures RoundUp(IO_BUFFER_SIZE, blockSize) > 0
  {
    BufferHoldsWholeBlocks(blockSize);
  }

  /** A walk over the groups stops at a bitmap that cannot be read. */
  lemma {:induction false} StopsThere(e: Env, l: Layout, p: Pass, g: nat, n: nat)
    requires WfLayout(l) && g < n <= |l.groups| && OfferedGroups(e, l, p, g).ok
    requires var q := OfferedGroups(e, l, p, g).pass; !e.works(q.transfers) || l.groups[g].bitmapBlock >= |q.blocks|
    ensures var q := OfferedGroups(e, l, p, g).pass;
      OfferedGroups(e, l, p, n) == Outcome(q.(transfers := q.transfers + 1), false)
  {
    hide OfferedIn, BlockCount;
    if g + 1 < n { StopsThere(e, l, p, g, n - 1); }
  }

  lemma {:induction false} SectorsStopThere(e: Env, p: Pass, k: nat, n: nat)
    requires k <= n && !OfferedSectors(e, p, k).ok
    ensures OfferedSectors(e, p, n) == OfferedSectors(e, p, k)
  {
    hide Offered;
    if k < n { SectorsStopThere(e, p, k, n - 1); }
  }
}
