/**
  In-place encryption processes every used block exactly once, if and only if every transfer of a
  successful run worked.
*/
module InPlaceExactlyOnce {
  import opened Arithmetic
  import opened InPlaceRuns

  // ----- Buffer windows -----

  /** [first, first + count) lies between two consecutive multiples of `window`. */
  ghost predicate InOneWindow(first: nat, count: nat, window: nat)
    requires window > 0
  {
    count > 0 ==> first / window == (first + count - 1) / window
  }

  /** The I/O buffer holds a whole number of blocks. */
  lemma BufferHoldsWholeBlocks(blockSize: nat)
    requires blockSize > 0
    ensures RoundUp(IO_BUFFER_SIZE, blockSize) % blockSize == 0
    ensures RoundUp(IO_BUFFER_SIZE, blockSize) > 0
    ensures RoundUp(IO_BUFFER_SIZE, blockSize) / blockSize > 0
    ensures 32768 <= RoundUp(IO_BUFFER_SIZE, blockSize) < 32768 + blockSize
  {
    var q := IO_BUFFER_SIZE / blockSize;
    var r := RoundUp(IO_BUFFER_SIZE, blockSize);
    if IO_BUFFER_SIZE % blockSize != 0 {
      assert r == (q + 1) * blockSize;
      Quotient(q + 1, 0, blockSize);
    } else {
      assert r == q * blockSize;
      Quotient(q, 0, blockSize);
    }
  }

  /** A block starts on a buffer boundary exactly when its number is a multiple of the blocks per buffer. */
  lemma BoundaryIsMultiple(b: nat, blockSize: nat, window: nat)
    requires blockSize > 0 && window > 0
    ensures window * blockSize > 0
    ensures (b * blockSize) % (window * blockSize) == 0 <==> b % window == 0
  {
    var q, r := b / window, b % window;
    Regroup(q, r, window, blockSize);
    assert b == q * window + r;
    Quotient(q, r * blockSize, window * blockSize);
  }

  lemma Regroup(q: nat, r: nat, window: nat, blockSize: nat)
    requires blockSize > 0 && r < window
    ensures (q * window + r) * blockSize == q * (window * blockSize) + r * blockSize
    ensures 0 <= r * blockSize < window * blockSize
    ensures r * blockSize == 0 <==> r == 0
  {
    assert (q * window) * blockSize == q * (window * blockSize);
    assert (window - r) * blockSize > 0;
    assert r > 0 ==> r * blockSize >= blockSize;
  }

  lemma WindowGrows(first: nat, count: nat, window: nat)
    requires window > 0 && count > 0 && InOneWindow(first, count, window) && (first + count) % window != 0
    ensures InOneWindow(first, count + 1, window)
  {
    var b := first + count;
    var q, r := b / window, b % window;
    assert b == q * window + r;
    assert b - 1 == q * window + (r - 1);
    Quotient(q, r - 1, window);
  }

  /** So a batch always fits the buffer. */
  lemma WindowFits(first: nat, count: nat, window: nat)
    requires window > 0 && InOneWindow(first, count, window)
    ensures count <= window
  {
    if count > 0 {
      var q := first / window;
      assert first == q * window + first % window;
      assert first + count - 1 == q * window + (first + count - 1) % window;
    }
  }

  lemma FewerBytes(count: nat, w: nat, blockSize: nat)
    requires count <= w
    ensures count * blockSize <= w * blockSize
  {
    assert (w - count) * blockSize >= 0;
  }

  // ----- Exactly once -----

  /** Block `i` when the blocks in `done` have been encrypted exactly once and the others left alone. */
  ghost function Expected(original: seq<Block>, cipher: (nat, Block) -> Block, done: seq<nat>, i: nat): Block
    requires i < |original|
  {
    if i in done then cipher(i, original[i]) else original[i]
  }

  ghost predicate ExactlyOnce(blocks: seq<Block>, original: seq<Block>, cipher: (nat, Block) -> Block, done: seq<nat>) {
    && |blocks| == |original|
    && (forall b :: b in done ==> b < |original|)
    && forall i :: 0 <= i < |original| ==> blocks[i] == Expected(original, cipher, done, i)
  }

  /** The last `count` accepted blocks are the batch [first, first + count). */
  ghost predicate Batched(accepted: seq<nat>, first: nat, count: nat) {
    count <= |accepted| && forall j :: |accepted| - count <= j < |accepted| ==>
        accepted[j] == first + (j - (|accepted| - count))
  }

  lemma FlushKeepsExactlyOnce(before: seq<Block>, original: seq<Block>, cipher: (nat, Block) -> Block,
                              accepted: seq<nat>, first: nat, count: nat)
    requires Increasing(accepted) && Batched(accepted, first, count) && first + count <= |original|
    requires ExactlyOnce(before, original, cipher, accepted[..|accepted| - count])
    ensures ExactlyOnce(WithEncrypted(before, cipher, first, before[first..first + count]), original, cipher, accepted)
  {
    var done := |accepted| - count;
    var after := WithEncrypted(before, cipher, first, before[first..first + count]);
    forall b | b in accepted ensures b < |original| {
      var j :| 0 <= j < |accepted| && accepted[j] == b;
      if j < done { assert b in accepted[..done]; }
    }
    forall i | 0 <= i < |original| ensures after[i] == Expected(original, cipher, accepted, i) {
      if first <= i < first + count {
        assert accepted[done + (i - first)] == i;
        assert i !in accepted[..done];
      } else {
        assert i in accepted <==> i in accepted[..done];
      }
    }
  }

  lemma AcceptExtends(accepted: seq<nat>, first: nat, count: nat, b: nat)
    requires Increasing(accepted) && Batched(accepted, first, count) && b == first + count
    requires forall a :: a in accepted ==> a < b
    ensures Increasing(accepted + [b]) && Batched(accepted + [b], first, count + 1)
    ensures (accepted + [b])[..|accepted| - count] == accepted[..|accepted| - count]
  {
    var grown := accepted + [b];
    forall i, j | 0 <= i < j < |grown| ensures grown[i] < grown[j] {
      if j == |accepted| { assert accepted[i] in accepted; }
    }
    assert grown[..|accepted| - count] == accepted[..|accepted| - count];
  }

  /** The batch is within the accepted blocks. */
  lemma BatchIsAccepted(accepted: seq<nat>, first: nat, count: nat, i: nat)
    requires Batched(accepted, first, count) && first <= i < first + count
    ensures i in accepted
  {
    assert accepted[|accepted| - count + (i - first)] == i;
  }

  // ----- What a pass keeps -----

  /** The number of blocks the buffer holds. */
  function Window(blockSize: nat): nat
    requires blockSize > 0
  {
    RoundUp(IO_BUFFER_SIZE, blockSize) / blockSize
  }

  lemma WindowIsBuffer(blockSize: nat)
    requires blockSize > 0
    ensures Window(blockSize) > 0 && Window(blockSize) * blockSize == RoundUp(IO_BUFFER_SIZE, blockSize)
  {
    BufferHoldsWholeBlocks(blockSize);
  }

  ghost predicate InWindow(p: Pass, blockSize: nat)
    requires blockSize > 0
  {
    Window(blockSize) > 0 && InOneWindow(p.first, p.pending, Window(blockSize))
  }

  /** Every batch lies inside one window aligned to the buffer, and so never exceeds the buffer. */
  lemma OfferedStaysInWindow(e: Env, blockSize: nat, p: Pass, b: nat)
    requires blockSize > 0 && InWindow(p, blockSize)
    ensures InWindow(Offered(e, blockSize, p, b).pass, blockSize)
  {
    hide RoundUp, WithEncrypted, WithGarbage, Window;
    WindowIsBuffer(blockSize);
    BoundaryIsMultiple(b, blockSize, Window(blockSize));
    if !Ends(p, blockSize, b) && p.pending > 0 { WindowGrows(p.first, p.pending, Window(blockSize)); }
  }

  lemma FlushStaysInWindow(e: Env, p: Pass, blockSize: nat)
    requires blockSize > 0 && InWindow(p, blockSize)
    ensures InWindow(Flushed(e, p).pass, blockSize)
  {
  }

  lemma BatchFits(p: Pass, blockSize: nat)
    requires blockSize > 0 && InWindow(p, blockSize)
    ensures p.pending * blockSize <= RoundUp(IO_BUFFER_SIZE, blockSize)
  {
    hide RoundUp, Window;
    WindowIsBuffer(blockSize);
    WindowFits(p.first, p.pending, Window(blockSize));
    FewerBytes(p.pending, Window(blockSize), blockSize);
  }

  /**
    `accepted` are the blocks added so far, the last of them still in the batch; as long as the pass is
    `intact` the others are done.
  */
  ghost predicate Tracks(e: Env, disk: seq<Block>, p: Pass, accepted: seq<nat>, intact: bool) {
    && Increasing(accepted) && Batched(accepted, p.first, p.pending) && p.done == |accepted| - p.pending
    && |p.blocks| == |disk| && (forall i :: 0 <= i < |disk| && i !in accepted ==> p.blocks[i] == disk[i])
    && (intact ==> ExactlyOnce(p.blocks, disk, e.cipher, accepted[..p.done]))
  }

  lemma FlushedTracks(e: Env, disk: seq<Block>, p: Pass, accepted: seq<nat>, intact: bool)
    requires Tracks(e, disk, p, accepted, intact)
    ensures var o := Flushed(e, p);
      Tracks(e, disk, o.pass, accepted, intact && o.ok) && (o.ok ==> o.pass.pending == 0 && o.pass.done == |accepted|)
  {
    hide ExactlyOnce, Increasing, Batched, WithGarbage, WithEncrypted;
    var o := Flushed(e, p);
    assert |accepted| >= p.pending && accepted[..|accepted|] == accepted by {
      BatchIsShort(accepted, p.first, p.pending);
    }
    if p.pending > 0 && e.works(p.transfers) && Fits(p) {
      forall i | 0 <= i < |disk| && i !in accepted ensures o.pass.blocks[i] == disk[i] {
        OutsideBatch(e, p, accepted, i);
      }
      if o.ok {
        NoBatch(accepted, p.first);
        if intact { FlushKeepsExactlyOnce(p.blocks, disk, e.cipher, accepted, p.first, p.pending); }
      }
    }
  }

  lemma BatchIsShort(accepted: seq<nat>, first: nat, count: nat)
    requires Batched(accepted, first, count)
    ensures count <= |accepted|
  {
  }

  lemma NoBatch(accepted: seq<nat>, first: nat)
    ensures Batched(accepted, first, 0)
  {
  }

  /** A flush changes only blocks of the batch. */
  lemma OutsideBatch(e: Env, p: Pass, accepted: seq<nat>, i: nat)
    requires Batched(accepted, p.first, p.pending) && i < |p.blocks| && i !in accepted
    ensures Flushed(e, p).pass.blocks[i] == p.blocks[i]
  {
    if p.first <= i < p.first + p.pending { BatchIsAccepted(accepted, p.first, p.pending, i); }
  }

  lemma OfferedTracks(e: Env, blockSize: nat, disk: seq<Block>, p: Pass, accepted: seq<nat>, intact: bool, b: nat)
    requires blockSize > 0 && Tracks(e, disk, p, accepted, intact) && forall a :: a in accepted ==> a < b
    ensures var o := Offered(e, blockSize, p, b);
      Tracks(e, disk, o.pass, if o.ok then accepted + [b] else accepted, intact && o.ok)
  {
    hide ExactlyOnce, Increasing, Batched, RoundUp, Flushed;
    var o := Offered(e, blockSize, p, b);
    FlushedTracks(e, disk, p, accepted, intact);
    if Ends(p, blockSize, b) {
      if o.ok {
        NoBatch(accepted, b);
        AcceptExtends(accepted, b, 0, b);
        assert accepted[..|accepted|] == accepted;
      }
    } else {
      BatchIsShort(accepted, p.first, p.pending);
      AcceptExtends(accepted, p.first, p.pending, b);
    }
  }

  // ----- Failed transfers -----

  /** All transfers from number `from` up to `to` worked. */
  ghost predicate Clean(e: Env, from: nat, to: nat) {
    forall k: nat :: from <= k < to ==> e.works(k)
  }

  /** The batch reaches beyond the device, so it can never be flushed. */
  ghost predicate Stuck(p: Pass) {
    p.pending > 0 && !Fits(p)
  }

  lemma FlushFailures(e: Env, p: Pass)
    ensures var o := Flushed(e, p);
      && o.pass.transfers >= p.transfers && |o.pass.blocks| == |p.blocks|
      && (o.ok ==> Clean(e, p.transfers, o.pass.transfers) && !Stuck(p))
      && (!o.ok ==> !Clean(e, p.transfers, o.pass.transfers) || Stuck(o.pass))
      && (Stuck(p) ==> !o.ok && Stuck(o.pass))
  {
    var o := Flushed(e, p);
    if !o.ok {
      if e.works(p.transfers) && Fits(p) { assert !e.works(p.transfers + 1); }
    }
  }

  lemma OfferFailures(e: Env, blockSize: nat, p: Pass, b: nat)
    requires blockSize > 0
    ensures var o := Offered(e, blockSize, p, b);
      && o.pass.transfers >= p.transfers && |o.pass.blocks| == |p.blocks|
      && (o.ok ==> Clean(e, p.transfers, o.pass.transfers))
      && (!o.ok ==> !Clean(e, p.transfers, o.pass.transfers) || Stuck(o.pass))
      && (Stuck(p) ==> Stuck(o.pass))
  {
    hide Flushed, RoundUp;
    FlushFailures(e, p);
  }

  lemma CleanAlong(e: Env, a: nat, b: nat, c: nat)
    requires a <= b <= c
    ensures Clean(e, a, c) <==> Clean(e, a, b) && Clean(e, b, c)
  {
  }

  lemma StuckIsBeyond(p: Pass, accepted: seq<nat>)
    requires Batched(accepted, p.first, p.pending) && Stuck(p)
    ensures exists b :: b in accepted && b >= |p.blocks|
  {
    BatchIsAccepted(accepted, p.first, p.pending, p.first + p.pending - 1);
  }

  // ----- Walks -----

  /**
    The blocks in `used` have been offered since transfer `from`; those in `accepted` were added.
    They all were as long as every transfer worked, unless a batch reaches beyond the device.
  */
  ghost predicate Walked(e: Env, blockSize: nat, disk: seq<Block>, from: nat, p: Pass, used: seq<nat>,
                         accepted: seq<nat>)
    requires blockSize > 0
  {
    && SameBatch(p, BatchOf(blockSize, accepted))
    && Tracks(e, disk, p, accepted, accepted == used)
    && |accepted| <= |used| && (|accepted| == |used| ==> accepted == used) && (forall a :: a in accepted ==> a in used)
    && from <= p.transfers
    && (accepted == used ==> Clean(e, from, p.transfers))
    && (accepted != used ==> !Clean(e, from, p.transfers) || Stuck(p))
  }

  ghost predicate WalkedTo(e: Env, blockSize: nat, disk: seq<Block>, from: nat, p: Pass, used: seq<nat>)
    requires blockSize > 0
  {
    exists accepted :: Walked(e, blockSize, disk, from, p, used, accepted)
  }

  predicate SameBatch(p: Pass, q: Pass) {
    p.first == q.first && p.pending == q.pending && p.done == q.done
  }

  lemma WalkStarts(e: Env, blockSize: nat, disk: seq<Block>, from: nat)
    requires blockSize > 0
    ensures Walked(e, blockSize, disk, from, Started(disk, from), [], [])
  {
  }

  lemma WalkOffers(e: Env, blockSize: nat, disk: seq<Block>, from: nat, p: Pass, used: seq<nat>, accepted: seq<nat>,
                   b: nat)
    requires blockSize > 0 && Walked(e, blockSize, disk, from, p, used, accepted) && forall u :: u in used ==> u < b
    ensures var o := Offered(e, blockSize, p, b);
      Walked(e, blockSize, disk, from, o.pass, used + [b], if o.ok then accepted + [b] else accepted)
  {
    hide Tracks, Offered, Clean, Stuck;
    var o := Offered(e, blockSize, p, b);
    var added := if o.ok then accepted + [b] else accepted;
    OfferedTracks(e, blockSize, disk, p, accepted, accepted == used, b);
    OfferFailures(e, blockSize, p, b);
    OfferBatches(e, blockSize, p, accepted, b);
    CleanAlong(e, from, p.transfers, o.pass.transfers);
    assert added == used + [b] ==> o.ok && accepted == used by {
      if added == used + [b] && o.ok { assert accepted == added[..|accepted|] && used == (used + [b])[..|used|]; }
    }
  }

  /** A block that is offered joins the batch, or begins a new one, or leaves it as it was. */
  lemma OfferBatches(e: Env, blockSize: nat, p: Pass, accepted: seq<nat>, b: nat)
    requires blockSize > 0 && SameBatch(p, BatchOf(blockSize, accepted))
    ensures var o := Offered(e, blockSize, p, b);
      SameBatch(o.pass, BatchOf(blockSize, if o.ok then accepted + [b] else accepted))
  {
    hide RoundUp, WithEncrypted, WithGarbage;
    assert (accepted + [b])[..|accepted|] == accepted;
  }

  lemma {:induction false} WalkGroup(e: Env, disk: seq<Block>, from: nat, l: Layout, g: nat, bitmap: Block, p: Pass,
                                     used: seq<nat>, n: nat)
    requires l.blockSize > 0 && g < |l.groups| && WalkedTo(e, l.blockSize, disk, from, p, used)
    requires forall u :: u in used ==> u < FirstBlockInGroup(l, g)
    ensures WalkedTo(e, l.blockSize, disk, from, OfferedIn(e, l, g, bitmap, p, n), used + UsedIn(l, g, bitmap, n))
  {
    hide Walked, IsUsed, FirstBlockInGroup, Offered;
    if n == 0 {
      assert used + [] == used;
    } else {
      WalkGroup(e, disk, from, l, g, bitmap, p, used, n - 1);
      var q, sofar := OfferedIn(e, l, g, bitmap, p, n - 1), used + UsedIn(l, g, bitmap, n - 1);
      if IsUsed(l, g, bitmap, n - 1) {
        var b := FirstBlockInGroup(l, g) + n - 1;
        var accepted :| Walked(e, l.blockSize, disk, from, q, sofar, accepted);
        WalkOffers(e, l.blockSize, disk, from, q, sofar, accepted, b);
        assert sofar + [b] == used + UsedIn(l, g, bitmap, n);
      } else {
        assert UsedIn(l, g, bitmap, n) == UsedIn(l, g, bitmap, n - 1);
      }
    }
  }

  lemma {:induction false} WalkGroups(e: Env, disk: seq<Block>, from: nat, l: Layout, g: nat)
    requires WfLayout(l) && g <= |l.groups|
    ensures var o := OfferedGroups(e, l, Started(disk, from), g);
      && from <= o.pass.transfers && |o.pass.blocks| == |disk|
      && (o.ok ==>
            && BitmapsReadable(l, disk, g)
            && WalkedTo(e, l.blockSize, disk, from, o.pass, NamedBefore(e, l, disk, from, g)))
      && (!o.ok ==> !Clean(e, from, o.pass.transfers) || !BitmapsReadable(l, disk, g))
  {
    hide Walked, FirstBlockInGroup, OfferedIn, UsedIn;
    if g == 0 {
      WalkStarts(e, l.blockSize, disk, from);
    } else {
      WalkGroups(e, disk, from, l, g - 1);
      var before := OfferedGroups(e, l, Started(disk, from), g - 1);
      if before.ok {
        var q, at := before.pass, l.groups[g - 1].bitmapBlock;
        var read := q.(transfers := q.transfers + 1);
        var n := BlockCount(l, g - 1);
        if e.works(q.transfers) && at < |q.blocks| {
          GroupTransfers(e, l, g - 1, q.blocks[at], read, n);
          ReadOnly(e, l.blockSize, disk, from, q, NamedBefore(e, l, disk, from, g - 1));
          WalkGroup(e, disk, from, l, g - 1, q.blocks[at], read, NamedBefore(e, l, disk, from, g - 1), n);
        }
      }
    }
  }

  /** A read that works changes nothing. */
  lemma ReadOnly(e: Env, blockSize: nat, disk: seq<Block>, from: nat, p: Pass, used: seq<nat>)
    requires blockSize > 0 && WalkedTo(e, blockSize, disk, from, p, used) && e.works(p.transfers)
    ensures WalkedTo(e, blockSize, disk, from, p.(transfers := p.transfers + 1), used)
  {
    var q := p.(transfers := p.transfers + 1);
    var accepted :| Walked(e, blockSize, disk, from, p, used, accepted);
    CleanAlong(e, from, p.transfers, q.transfers);
    assert Tracks(e, disk, q, accepted, accepted == used);
    hide Tracks;
    assert Walked(e, blockSize, disk, from, q, used, accepted);
  }

  lemma {:induction false} GroupTransfers(e: Env, l: Layout, g: nat, bitmap: Block, p: Pass, n: nat)
    requires l.blockSize > 0 && g < |l.groups|
    ensures var q := OfferedIn(e, l, g, bitmap, p, n); q.transfers >= p.transfers && |q.blocks| == |p.blocks|
  {
    hide Offered, Bit;
    if n > 0 {
      GroupTransfers(e, l, g, bitmap, p, n - 1);
      OfferFailures(e, l.blockSize, OfferedIn(e, l, g, bitmap, p, n - 1), FirstBlockInGroup(l, g) + n - 1);
    }
  }

  /** Where the first `n` sectors were offered, none of them dropped. */
  ghost predicate SectorsWalked(e: Env, disk: seq<Block>, from: nat, o: Outcome, n: nat) {
    && from <= o.pass.transfers
    && (o.ok ==> Walked(e, 512, disk, from, o.pass, Counting(n), Counting(n)))
    && (!o.ok ==> !Clean(e, from, o.pass.transfers) || n > |disk|)
  }

  lemma WalkSector(e: Env, disk: seq<Block>, from: nat, p: Pass, n: nat)
    requires SectorsWalked(e, disk, from, Outcome(p, true), n)
    ensures SectorsWalked(e, disk, from, Offered(e, 512, p, n), n + 1)
  {
    hide Offered, Tracks, Clean, Stuck;
    WalkOffers(e, 512, disk, from, p, Counting(n), Counting(n), n);
    OfferFailures(e, 512, p, n);
    var o := Offered(e, 512, p, n);
    CleanAlong(e, from, p.transfers, o.pass.transfers);
    if !o.ok && Stuck(o.pass) { StuckBeyond(e, disk, o.pass, Counting(n)); }
    hide Walked;
    assert Counting(n + 1) == Counting(n) + [n];
  }

  lemma {:induction false} WalkSectors(e: Env, disk: seq<Block>, from: nat, n: nat)
    ensures SectorsWalked(e, disk, from, OfferedSectors(e, Started(disk, from), n), n)
  {
    hide Offered, Walked, Clean;
    if n == 0 {
      WalkStarts(e, 512, disk, from);
    } else {
      WalkSectors(e, disk, from, n - 1);
      var before := OfferedSectors(e, Started(disk, from), n - 1);
      if before.ok { WalkSector(e, disk, from, before.pass, n - 1); }
    }
  }

  lemma StuckBeyond(e: Env, disk: seq<Block>, p: Pass, accepted: seq<nat>)
    requires Tracks(e, disk, p, accepted, false) && Stuck(p)
    ensures exists b :: b in accepted && b >= |disk|
  {
    StuckIsBeyond(p, accepted);
  }

  // ----- Runs -----

  /** What the flush at the end of a walk leaves. */
  lemma FlushEnds(e: Env, blockSize: nat, disk: seq<Block>, from: nat, p: Pass, used: seq<nat>)
    requires blockSize > 0 && WalkedTo(e, blockSize, disk, from, p, used) && Increasing(used)
    ensures var o := Flushed(e, p);
      && (Clean(e, from, o.pass.transfers) ==> (o.ok <==> forall b :: b in used ==> b < |disk|))
      && (o.ok && Clean(e, from, o.pass.transfers) ==>
            ExactlyOnce(o.pass.blocks, disk, e.cipher, used) && o.pass.done == |used|)
      && |o.pass.blocks| == |disk|
      && (o.ok && !Clean(e, from, o.pass.transfers) ==>
          o.pass.done < |used| && LeavesPlaintext(o.pass.blocks, disk, used))
  {
    hide ExactlyOnce, Batched, Flushed, Increasing;
    var accepted :| Walked(e, blockSize, disk, from, p, used, accepted);
    var o := Flushed(e, p);
    FlushedTracks(e, disk, p, accepted, accepted == used);
    FlushFailures(e, p);
    CleanAlong(e, from, p.transfers, o.pass.transfers);
    if Stuck(o.pass) { StuckIsBeyond(o.pass, accepted); }
    if o.ok {
      assert accepted[..|accepted|] == accepted;
      if accepted == used { InRange(o.pass.blocks, disk, e.cipher, used); } else { SomeIsMissing(accepted, used); }
    }
  }

  lemma InRange(blocks: seq<Block>, disk: seq<Block>, cipher: (nat, Block) -> Block, done: seq<nat>)
    requires ExactlyOnce(blocks, disk, cipher, done)
    ensures forall b :: b in done ==> b < |disk|
  {
  }

  /** Some used block is still as it was, or lies beyond the device. */
  ghost predicate LeavesPlaintext(blocks: seq<Block>, disk: seq<Block>, used: seq<nat>)
    requires |blocks| == |disk|
  {
    exists b :: b in used && (b < |disk| ==> blocks[b] == disk[b])
  }

  function Elements(s: seq<nat>): set<nat> {
    set x | x in s
  }

  lemma SomeIsMissing(accepted: seq<nat>, used: seq<nat>)
    requires Increasing(accepted) && Increasing(used) && |accepted| < |used|
    ensures exists b :: b in used && b !in accepted
  {
    hide Increasing;
    DistinctCount(accepted);
    DistinctCount(used);
    if Elements(used) <= Elements(accepted) {
      Smaller(Elements(used), Elements(accepted));
    } else {
      var b :| b in Elements(used) && b !in Elements(accepted);
      assert b in used && b !in accepted;
    }
  }

  lemma Smaller(a: set<nat>, b: set<nat>)
    requires a <= b
    ensures |a| <= |b|
  {
    var rest := b - a;
    assert b == a + rest;
  }

  lemma {:induction false} DistinctCount(s: seq<nat>)
    requires Increasing(s)
    ensures |Elements(s)| == |s|
  {
    hide Increasing;
    if s != [] {
      var last, init := s[|s| - 1], s[..|s| - 1];
      LastIsGreatest(s);
      DistinctCount(init);
      ElementsOf(init, last);
      assert s == init + [last];
    }
  }

  lemma LastIsGreatest(s: seq<nat>)
    requires s != [] && Increasing(s)
    ensures Increasing(s[..|s| - 1]) && s[|s| - 1] !in s[..|s| - 1]
  {
  }

  lemma ElementsOf(init: seq<nat>, last: nat)
    ensures Elements(init + [last]) == Elements(init) + {last}
  {
  }

  lemma CountingIsIncreasing(n: nat)
    ensures Increasing(Counting(n))
  {
  }

  function BlockSizeOf(fs: FileSystem): nat {
    match fs case Ext4(l) => l.blockSize case Unknown => 512
  }

  /** What the walk of a run has come to. */
  lemma RunWalks(e: Env, fs: FileSystem, disk: seq<Block>, from: nat, sectors: nat)
    requires fs.Ext4? ==> WfLayout(fs.layout)
    ensures RunOf(e, fs, disk, from, sectors).ok ==> UsedKnown(fs, disk)
    ensures var named := NamedBlocks(e, fs, disk, from, sectors);
      var o := RunOf(e, fs, disk, from, sectors);
      && Increasing(named)
      && (fs.Unknown? && o.ok ==> Clean(e, from, o.pass.transfers))
      && ((exists p :: WalkedTo(e, BlockSizeOf(fs), disk, from, p, named) && o == Flushed(e, p) && UsedKnown(fs, disk))
         || (!o.ok && (!Clean(e, from, o.pass.transfers) || !UsedKnown(fs, disk) || (fs.Unknown? && sectors > |disk|))))
  {
    hide OfferedGroups, OfferedSectors, Flushed, Tracks;
    match fs
    case Ext4(l) =>
      WalkGroups(e, disk, from, l, |l.groups|);
      NamedIsIncreasing(e, l, disk, from, |l.groups|);
    case Unknown =>
      WalkSectors(e, disk, from, sectors);
      CountingIsIncreasing(sectors);
      var walked := OfferedSectors(e, Started(disk, from), sectors);
      FlushFailures(e, walked.pass);
      CleanAlong(e, from, walked.pass.transfers, Flushed(e, walked.pass).pass.transfers);
      assert walked.ok ==> WalkedTo(e, 512, disk, from, walked.pass, Counting(sectors));
  }

  /**
    What a run does, for every layout: if every transfer works, it succeeds exactly when every bitmap
    and every block it is told of is on the device; then each of these blocks is encrypted exactly once,
    all others are untouched, and the count is right.  If a transfer fails and the run still reports
    success, a block it was told of was left as it was, and the count shows it.
  */
  lemma RunIsExactIffClean(e: Env, fs: FileSystem, disk: seq<Block>, from: nat, sectors: nat)
    requires fs.Ext4? ==> WfLayout(fs.layout)
    ensures var o := RunOf(e, fs, disk, from, sectors);
      var named := NamedBlocks(e, fs, disk, from, sectors);
      var clean := Clean(e, from, o.pass.transfers);
      && (clean ==> (o.ok <==> UsedKnown(fs, disk) && forall b :: b in named ==> b < |disk|))
      && (o.ok ==> UsedKnown(fs, disk) && |o.pass.blocks| == |disk|)
      && (o.ok ==> (clean <==> o.pass.done == |named|))
      && (o.ok && clean ==> ExactlyOnce(o.pass.blocks, disk, e.cipher, named))
      && (o.ok && !clean ==> fs.Ext4? && LeavesPlaintext(o.pass.blocks, disk, named))
  {
    hide RunOf, Walked, ExactlyOnce, Flushed, NamedBlocks, Clean;
    RunWalks(e, fs, disk, from, sectors);
    var o := RunOf(e, fs, disk, from, sectors);
    var named := NamedBlocks(e, fs, disk, from, sectors);
    if p :| WalkedTo(e, BlockSizeOf(fs), disk, from, p, named) && o == Flushed(e, p) && UsedKnown(fs, disk) {
      FlushEnds(e, BlockSizeOf(fs), disk, from, p, named);
    } else if fs.Unknown? && sectors > |disk| {
      TooManySectors(e, disk, from, sectors);
    }
  }

  lemma TooManySectors(e: Env, disk: seq<Block>, from: nat, sectors: nat)
    requires sectors > |disk|
    ensures |disk| in NamedBlocks(e, Unknown, disk, from, sectors)
  {
    assert Counting(sectors)[|disk|] == |disk|;
  }

  /** No block of the disk is the same encrypted. */
  ghost predicate Changes(cipher: (nat, Block) -> Block, disk: seq<Block>) {
    forall i :: 0 <= i < |disk| ==> cipher(i, disk[i]) != disk[i]
  }

  /** If no block of the disk is the same encrypted, a run that reports success is exact only if it was clean. */
  lemma ExactMeansClean(e: Env, fs: FileSystem, disk: seq<Block>, from: nat, sectors: nat)
    requires fs.Ext4? ==> WfLayout(fs.layout)
    requires RunOf(e, fs, disk, from, sectors).ok && Changes(e.cipher, disk)
    ensures var o := RunOf(e, fs, disk, from, sectors);
      ExactlyOnce(o.pass.blocks, disk, e.cipher, NamedBlocks(e, fs, disk, from, sectors)) <==>
          Clean(e, from, o.pass.transfers)
  {
    hide RunOf, NamedBlocks, Clean;
    RunIsExactIffClean(e, fs, disk, from, sectors);
  }
}
