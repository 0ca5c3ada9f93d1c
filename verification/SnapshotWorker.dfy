/** The snapshot worker (snapshot/worker.go): row batching and the LSN allocator shared by all workers. */
module SnapshotWorker {
  import opened Wal

  // ---- batching

  /** A row as read: the entry without its offset. */
  datatype Batch = Batch(lsn: Lsn, entries: seq<WriteEntry>)

  function AllRows(batches: seq<Batch>): seq<WriteEntry>
  {
    if batches == [] then [] else Plain(batches[0].entries) + AllRows(batches[1..])
  }

  /** Entries without their offsets. */
  function Plain(entries: seq<WriteEntry>): (r: seq<WriteEntry>)
    ensures |r| == |entries| && forall i :: 0 <= i < |r| ==> r[i] == entries[i].(offset := 0)
  {
    seq(|entries|, i requires 0 <= i < |entries| => entries[i].(offset := 0))
  }

  lemma {:induction false} AllRowsAppend(batches: seq<Batch>, b: Batch)
    ensures AllRows(batches + [b]) == AllRows(batches) + Plain(b.entries)
  {
    if batches == [] {
      assert batches + [b] == [b] && [b][1..] == [];
    } else {
      assert (batches + [b])[1..] == batches[1..] + [b];
      AllRowsAppend(batches[1..], b);
    }
  }

  ghost predicate OffsetsFromZero(entries: seq<WriteEntry>)
  {
    forall i :: 0 <= i < |entries| ==> entries[i].offset == i
  }

  /** The size after the conversion of the configured one to `uint32`; 0 sends every row alone. */
  function EffectiveSize(batchSize: int): (n: nat)
    ensures n > 0
  {
    var n := batchSize % 0x1_0000_0000;
    if n == 0 then 1 else n
  }

  /** Full batches under the allocated LSNs. */
  ghost predicate FullBatches(batches: seq<Batch>, size: nat, lsns: nat -> Lsn)
  {
    forall j :: 0 <= j < |batches| ==>
      |batches[j].entries| == size && OffsetsFromZero(batches[j].entries) && batches[j].lsn == lsns(j)
  }

  /** The first `i` rows are in the batches and in the current buffer. */
  ghost predicate Covers(batches: seq<Batch>, entries: seq<WriteEntry>, rows: seq<WriteEntry>, i: nat)
  {
    i <= |rows| && AllRows(batches) + Plain(entries) == Plain(rows)[..i]
  }

  lemma Flush(batches: seq<Batch>, lsn: Lsn, entries: seq<WriteEntry>, rows: seq<WriteEntry>, i: nat)
    requires Covers(batches, entries, rows, i)
    ensures AllRows(batches) <= Plain(rows)
    ensures Covers(batches + [Batch(lsn, entries)], [], rows, i)
  {
    AllRowsAppend(batches, Batch(lsn, entries));
    assert AllRows(batches + [Batch(lsn, entries)]) + [] == AllRows(batches) + Plain(entries);
  }

  /** Where sending goes wrong: at the batch of that number, before or after the listener has taken it. */
  datatype Failing = Never | HandingOver(batch: nat) | Reporting(batch: nat)

  /** The row loop of `processTableRange`; `batches` are those the listener has taken. `lsns` are the
      allocator's answers, `readError` says that reading the rows failed. */
  method ProcessTableRange(rows: seq<WriteEntry>, batchSize: int, lsns: nat -> Lsn, failing: Failing, readError: bool)
    returns (batches: seq<Batch>, ok: bool)
    ensures AllRows(batches) <= Plain(rows)
    ensures ok ==> !readError && AllRows(batches) == Plain(rows) && Within(failing, |batches|)
    ensures !ok ==> readError || FailedAt(failing, |batches|)
    ensures Shaped(batches, EffectiveSize(batchSize), lsns)
  {
    batches, ok := [], true;
    var batchCount := 0;
    var entries: seq<WriteEntry> := [];
    var size := batchSize % 0x1_0000_0000;
    for i := 0 to |rows|
      invariant ok && Within(failing, |batches|) && batchCount == |entries| < EffectiveSize(batchSize)
      invariant OffsetsFromZero(entries) && Covers(batches, entries, rows, i)
      invariant FullBatches(batches, EffectiveSize(batchSize), lsns)
    {
      RowRead(batches, entries, rows, i);
      entries := entries + [rows[i].(offset := batchCount)];
      batchCount := batchCount + 1;
      if batchCount >= size {
        batches, ok := SendBatch(batches, entries, lsns, failing, EffectiveSize(batchSize), rows, i + 1);
        if !ok {
          return;
        }
        entries, batchCount := [], 0;
      }
    }
    Flush(batches, lsns(|batches|), entries, rows, |rows|);
    ShapedMore(batches, entries, EffectiveSize(batchSize), lsns);
    if readError {
      return batches, false;
    }
    if batchCount > 0 {
      batches, ok := SendBatch(batches, entries, lsns, failing, EffectiveSize(batchSize), rows, |rows|);
      entries := [];
    }
    if ok {
      AllCovered(batches, rows);
    }
  }

  /** How many batches the listener has taken when sending goes wrong. */
  predicate FailedAt(failing: Failing, taken: nat)
  {
    match failing
    case Never => false
    case HandingOver(batch) => taken == batch
    case Reporting(batch) => taken == batch + 1
  }

  predicate Within(failing: Failing, n: nat)
  {
    failing.Never? || n <= failing.batch
  }

  /** `sendBatch`: the listener takes the batch, then its LSN is reported. */
  method SendBatch(batches: seq<Batch>, entries: seq<WriteEntry>, lsns: nat -> Lsn, failing: Failing,
                   ghost size: nat, ghost rows: seq<WriteEntry>, ghost i: nat)
    returns (sent: seq<Batch>, ok: bool)
    requires Within(failing, |batches|) && FullBatches(batches, size, lsns)
    requires OffsetsFromZero(entries) && 0 < |entries| <= size && Covers(batches, entries, rows, i)
    ensures ok ==> Covers(sent, [], rows, i) && Within(failing, |sent|)
    ensures ok && |entries| == size ==> FullBatches(sent, size, lsns)
    ensures Shaped(sent, size, lsns) && AllRows(sent) <= Plain(rows)
    ensures !ok ==> FailedAt(failing, |sent|)
  {
    Flush(batches, lsns(|batches|), entries, rows, i);
    ShapedMore(batches, entries, size, lsns);
    if failing == HandingOver(|batches|) {
      return batches, false;
    }
    sent := batches + [Batch(lsns(|batches|), entries)];
    ok := failing != Reporting(|batches|);
    Flush(sent, 0, [], rows, i);
  }

  lemma AllCovered(batches: seq<Batch>, rows: seq<WriteEntry>)
    requires Covers(batches, [], rows, |rows|)
    ensures AllRows(batches) == Plain(rows)
  {
    assert AllRows(batches) + Plain([]) == AllRows(batches);
    assert Plain(rows)[..|rows|] == Plain(rows);
  }

  /** All batches but the last are full. */
  ghost predicate Shaped(batches: seq<Batch>, size: nat, lsns: nat -> Lsn)
  {
    batches == [] ||
    (FullBatches(batches[..|batches| - 1], size, lsns) && LastBatch(batches[|batches| - 1], size, lsns(|batches| - 1)))
  }

  lemma ShapedMore(batches: seq<Batch>, entries: seq<WriteEntry>, size: nat, lsns: nat -> Lsn)
    requires FullBatches(batches, size, lsns) && OffsetsFromZero(entries) && |entries| <= size && size > 0
    ensures Shaped(batches, size, lsns)
    ensures entries != [] ==> Shaped(batches + [Batch(lsns(|batches|), entries)], size, lsns)
  {
    assert (batches + [Batch(lsns(|batches|), entries)])[..|batches|] == batches;
  }

  ghost predicate LastBatch(b: Batch, size: nat, lsn: Lsn)
  {
    0 < |b.entries| <= size && OffsetsFromZero(b.entries) && b.lsn == lsn
  }

  lemma RowRead(batches: seq<Batch>, entries: seq<WriteEntry>, rows: seq<WriteEntry>, i: nat)
    requires i < |rows| && Covers(batches, entries, rows, i)
    ensures Covers(batches, entries + [rows[i].(offset := |entries|)], rows, i + 1)
  {
    assert Plain(entries + [rows[i].(offset := |entries|)]) == Plain(entries) + [Plain(rows)[i]];
  }
}
