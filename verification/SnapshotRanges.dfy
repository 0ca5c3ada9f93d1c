/** CTID range partitioning of a table's heap (snapshot/manager.go). */
module SnapshotRanges {

  const MAX_OFFSET := 0xFFFF
  /** Block numbers are 32 bits wide. */
  const BLOCK_LIMIT := 0x1_0000_0000

  datatype Tid = Tid(block: nat, offset: nat)
  datatype CtidRange = CtidRange(min: Tid, max: Tid)
  datatype Estimate = Estimate(estimatedRows: int, totalBlocks: int)
  datatype Bounds = Bounds(min: Tid, max: Tid)
  datatype Result<T> = Ok(value: T) | Err

  /** The conversion to `uint32` keeps the low 32 bits. */
  function MakeTid(block: int, offset: nat): (t: Tid)
    ensures 0 <= block < BLOCK_LIMIT ==> t == Tid(block, offset)
  {
    Tid(block % BLOCK_LIMIT, offset)
  }

  /** PostgreSQL compares tuple ids by block, then by offset. */
  predicate AtMost(a: Tid, b: Tid)
  {
    a.block < b.block || (a.block == b.block && a.offset <= b.offset)
  }

  predicate Contains(r: CtidRange, t: Tid)
  {
    AtMost(r.min, t) && AtMost(t, r.max)
  }

  /** Whole blocks, in order, from `first` up to but not including `end`, without gap or overlap. */
  ghost predicate Tiles(ranges: seq<CtidRange>, first: int, end: int)
  {
    && (ranges == [] ==> first == end)
    && (ranges != [] ==> ranges[0].min.block == first && ranges[|ranges| - 1].max.block + 1 == end)
    && (forall i :: 0 <= i < |ranges| ==>
          ranges[i].min.offset == 0 && ranges[i].max.offset == MAX_OFFSET && ranges[i].min.block <= ranges[i].max.block)
    && (forall i :: 0 < i < |ranges| ==> ranges[i].min.block == ranges[i - 1].max.block + 1)
  }

  ghost predicate InExactlyOne(ranges: seq<CtidRange>, t: Tid)
  {
    exists i :: 0 <= i < |ranges| && Contains(ranges[i], t)
                && forall j :: 0 <= j < |ranges| && j != i ==> !Contains(ranges[j], t)
  }

  /** Every tuple id of the planned blocks lies in exactly one range, every other in none. */
  lemma TilesPartition(ranges: seq<CtidRange>, first: int, end: int, t: Tid)
    requires Tiles(ranges, first, end) && t.offset <= 0xFFFF
    ensures first <= t.block < end <==> InExactlyOne(ranges, t)
    ensures !(first <= t.block < end) ==> forall r <- ranges :: !Contains(r, t)
  {
    forall i, j | 0 <= i < j < |ranges| ensures ranges[i].max.block < ranges[j].min.block {
      TilesOrdered(ranges, first, end, i, j);
    }
    if first <= t.block < end {
      var i := Locate(ranges, first, end, t.block);
      assert Contains(ranges[i], t);
    } else {
      forall i | 0 <= i < |ranges| ensures !Contains(ranges[i], t) {
        if i > 0 { TilesOrdered(ranges, first, end, 0, i); }
        if i < |ranges| - 1 { TilesOrdered(ranges, first, end, i, |ranges| - 1); }
      }
    }
  }

  lemma {:induction false} TilesOrdered(ranges: seq<CtidRange>, first: int, end: int, i: nat, j: nat)
    requires Tiles(ranges, first, end) && i < j < |ranges|
    ensures ranges[i].max.block < ranges[j].min.block
    decreases j
  {
    if i < j - 1 {
      TilesOrdered(ranges, first, end, i, j - 1);
    }
  }

  lemma {:induction false} Locate(ranges: seq<CtidRange>, first: int, end: int, block: int) returns (i: nat)
    requires Tiles(ranges, first, end) && first <= block < end
    ensures i < |ranges| && ranges[i].min.block <= block <= ranges[i].max.block
  {
    i := 0;
    while block > ranges[i].max.block
      invariant i < |ranges| && ranges[i].min.block <= block
      decreases |ranges| - i
    {
      i := i + 1;
    }
  }

  lemma TilesAppend(ranges: seq<CtidRange>, first: int, mid: nat, r: CtidRange)
    requires Tiles(ranges, first, mid) && r.min == Tid(mid, 0) && r.max.offset == MAX_OFFSET && mid <= r.max.block
    ensures Tiles(ranges + [r], first, r.max.block + 1)
  {
  }

  // ---- the loops

  function CeilDiv(a: int, b: int): int
  {
    if b <= 0 then 0 else TruncDiv(a + b - 1, b)
  }

  /** Division toward zero. */
  function TruncDiv(a: int, b: int): int
    requires b > 0
  {
    if a >= 0 then a / b else -((-a) / b)
  }

  /** As many ranges as the slice was allocated for, tiling the blocks of the table. */
  method SplitCtidRange(totalBlocks: int, blocksPerRange: int) returns (ranges: seq<CtidRange>)
    requires totalBlocks <= BLOCK_LIMIT
    ensures totalBlocks > 0 && blocksPerRange > 0 ==>
      Tiles(ranges, 0, totalBlocks) && |ranges| == TruncDiv(totalBlocks + blocksPerRange - 1, blocksPerRange)
    ensures totalBlocks <= 0 || blocksPerRange <= 0 ==> ranges == []
  {
    ranges := [];
    if totalBlocks <= 0 || blocksPerRange <= 0 {
      return;
    }
    var blockStart := 0;
    while blockStart < totalBlocks
      invariant blockStart == |ranges| * blocksPerRange
      invariant Tiles(ranges, 0, if blockStart < totalBlocks then blockStart else totalBlocks)
      invariant ranges != [] ==> (|ranges| - 1) * blocksPerRange < totalBlocks
    {
      var blockEnd := (if blockStart + blocksPerRange < totalBlocks then blockStart + blocksPerRange
          else totalBlocks) - 1;
      var r := CtidRange(MakeTid(blockStart, 0), MakeTid(blockEnd, MAX_OFFSET));
      TilesAppend(ranges, 0, blockStart, r);
      NextMultiple(|ranges|, blocksPerRange);
      ranges := ranges + [r];
      blockStart := blockStart + blocksPerRange;
    }
    CeilIs(totalBlocks, blocksPerRange, |ranges|);
  }

  lemma NextMultiple(n: int, k: int)
    ensures (n + 1) * k == n * k + k
  {
  }

  lemma CeilIs(a: int, b: int, n: int)
    requires a > 0 && b > 0 && n > 0 && (n - 1) * b < a <= n * b
    ensures (a + b - 1) / b == n
  {
    var q := (a + b - 1) / b;
    assert q * b <= a + b - 1 < q * b + b;
    if q < n { LessMultiple(q, n - 1, b); }
    if q > n { LessMultiple(n + 1, q, b); }
  }

  lemma LessMultiple(x: int, y: int, k: int)
    requires x <= y && k >= 0
    ensures x * k <= y * k
  {
  }

  method SplitCtidRangeBetween(bounds: Bounds, blocksPerRange: int) returns (r: Result<seq<CtidRange>>)
    requires bounds.min.block < BLOCK_LIMIT && bounds.max.block < BLOCK_LIMIT
    ensures r.Err? <==> bounds.min.block > bounds.max.block
    ensures r.Ok? && blocksPerRange <= 0 ==> r.value == []
    ensures r.Ok? && blocksPerRange > 0 ==>
      && Tiles(r.value, bounds.min.block, bounds.max.block + 1)
      && |r.value| == TruncDiv(bounds.max.block - bounds.min.block + blocksPerRange, blocksPerRange)
  {
    var minBlock, maxBlock := bounds.min.block, bounds.max.block;
    if minBlock > maxBlock {
      return Err;
    }
    if blocksPerRange <= 0 {
      return Ok([]);
    }
    var ranges := [];
    var blockStart := minBlock;
    while blockStart <= maxBlock
      invariant blockStart - minBlock == |ranges| * blocksPerRange >= 0
      invariant Tiles(ranges, minBlock, if blockStart <= maxBlock then blockStart else maxBlock + 1)
      invariant ranges != [] ==> (|ranges| - 1) * blocksPerRange <= maxBlock - minBlock
      decreases maxBlock - blockStart
    {
      var blockEnd := if blockStart + blocksPerRange - 1 < maxBlock then blockStart + blocksPerRange - 1 else maxBlock;
      var range := CtidRange(MakeTid(blockStart, 0), MakeTid(blockEnd, MAX_OFFSET));
      TilesAppend(ranges, minBlock, blockStart, range);
      NextMultiple(|ranges|, blocksPerRange);
      ranges := ranges + [range];
      blockStart := blockStart + blocksPerRange;
    }
    CeilIs(maxBlock - minBlock + 1, blocksPerRange, |ranges|);
    r := Ok(ranges);
  }

  // ---- the plans

  function BlocksPerBatch(e: Estimate, batchSize: int): int
  {
    if e.totalBlocks <= 0 then 0
    else if batchSize <= 0 || e.estimatedRows <= 0 then 1
    else
      var blocks := CeilDiv(batchSize * e.totalBlocks, e.estimatedRows);
      if blocks <= 0 then 1 else blocks
  }

  /** The least positive number of blocks that is expected to hold a batch. Without an estimate or a batch
      size it is 1, and 0 without blocks. */
  lemma BlocksPerBatchLeast(e: Estimate, batchSize: int, b: int)
    ensures e.totalBlocks > 0 && batchSize > 0 && e.estimatedRows > 0 ==>
      var least := BlocksPerBatch(e, batchSize);
      && least > 0 && least * e.estimatedRows >= batchSize * e.totalBlocks
      && (b > 0 && b * e.estimatedRows >= batchSize * e.totalBlocks ==> b >= least)
    ensures e.totalBlocks <= 0 || batchSize <= 0 || e.estimatedRows <= 0 ==>
      BlocksPerBatch(e, batchSize) == if e.totalBlocks > 0 then 1 else 0
  {
    if e.totalBlocks > 0 && batchSize > 0 && e.estimatedRows > 0 {
      LeastBlocks(e, batchSize, b);
    }
  }

  lemma LeastBlocks(e: Estimate, batchSize: int, b: int)
    requires e.totalBlocks > 0 && batchSize > 0 && e.estimatedRows > 0
    ensures var least := BlocksPerBatch(e, batchSize);
      && least > 0 && least * e.estimatedRows >= batchSize * e.totalBlocks
      && (b > 0 && b * e.estimatedRows >= batchSize * e.totalBlocks ==> b >= least)
  {
    var a, r := batchSize * e.totalBlocks, e.estimatedRows;
    assert a > 0 by { LessMultiple(1, batchSize, e.totalBlocks); }
    var q := (a + r - 1) / r;
    assert q * r <= a + r - 1 < q * r + r;
    if q <= 0 { LessMultiple(q, 0, r); }
    if b > 0 && b * r >= a && b < q {
      LessMultiple(b, q - 1, r);
      NextMultiple(q - 1, r);
    }
  }

  /** `planQuerySnapshotFromBounds` once bounds were found. */
  method PlanFromBounds(e: Estimate, bounds: Bounds, batchSize: int) returns (r: Result<seq<CtidRange>>)
    requires bounds.min.block < BLOCK_LIMIT && bounds.max.block < BLOCK_LIMIT
    ensures r.Err? <==> bounds.min.block > bounds.max.block
    ensures r.Ok? && e.estimatedRows <= 0 ==> |r.value| == 1
    ensures r.Ok? ==> (Tiles(r.value, bounds.min.block, bounds.max.block + 1)
        <==> e.estimatedRows <= 0 || e.totalBlocks > 0)
    ensures r.Ok? && e.estimatedRows > 0 && e.totalBlocks <= 0 ==> r.value == []
  {
    var blocksPerBatch := BlocksPerBatch(e, batchSize);
    if e.estimatedRows <= 0 {
      if bounds.min.block > bounds.max.block {
        return Err;
      }
      blocksPerBatch := bounds.max.block - bounds.min.block + 1;
      CeilIs(blocksPerBatch, blocksPerBatch, 1);
    }
    r := SplitCtidRangeBetween(bounds, blocksPerBatch);
  }

  /** `planCtidRanges`: the whole heap, whatever the estimate and the batch size. */
  method PlanCtidRanges(e: Estimate, batchSize: int) returns (ranges: seq<CtidRange>)
    requires e.totalBlocks <= BLOCK_LIMIT
    ensures Tiles(ranges, 0, if e.totalBlocks > 0 then e.totalBlocks else 0)
  {
    ranges := SplitCtidRange(e.totalBlocks, BlocksPerBatch(e, batchSize));
  }
}
