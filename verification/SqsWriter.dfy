/** Batching and response accounting of the SQS writer (pg2sqs/sqs_writer.go). */
module SqsWriter {
  import opened Wal

  const MAX_BATCH := 10

  /** A message on its way to a queue; its payload is opaque. */
  datatype Entry = Entry(queue: string, response: ResponseEntry, message: string)

  /** A buffer handed to the flush workers. */
  datatype Flushed = Flushed(queue: string, entries: seq<Entry>)

  function For(queue: string, es: seq<Entry>): seq<Entry>
  {
    if es == [] then [] else (if es[0].queue == queue then [es[0]] else []) + For(queue, es[1..])
  }

  function FlushedTo(queue: string, fs: seq<Flushed>): seq<Entry>
  {
    if fs == [] then [] else (if fs[0].queue == queue then fs[0].entries else []) + FlushedTo(queue, fs[1..])
  }

  function Buffer(buffers: map<string, seq<Entry>>, queue: string): seq<Entry>
  {
    if queue in buffers then buffers[queue] else []
  }

  lemma {:induction false} ForAppend(queue: string, es: seq<Entry>, e: Entry)
    ensures For(queue, es + [e]) == For(queue, es) + if e.queue == queue then [e] else []
  {
    var tail := if e.queue == queue then [e] else [];
    if es == [] {
      assert es + [e] == [e] && [e][1..] == [] && For(queue, []) == [];
    } else {
      assert (es + [e])[1..] == es[1..] + [e];
      ForAppend(queue, es[1..], e);
      var head := if es[0].queue == queue then [es[0]] else [];
      assert head + (For(queue, es[1..]) + tail) == head + For(queue, es[1..]) + tail;
    }
  }

  lemma {:induction false} FlushedAppend(queue: string, fs: seq<Flushed>, f: Flushed)
    ensures FlushedTo(queue, fs + [f]) == FlushedTo(queue, fs) + if f.queue == queue then f.entries else []
  {
    var tail := if f.queue == queue then f.entries else [];
    if fs == [] {
      assert fs + [f] == [f] && [f][1..] == [] && FlushedTo(queue, []) == [];
      assert tail + [] == tail;
    } else {
      assert (fs + [f])[1..] == fs[1..] + [f];
      FlushedAppend(queue, fs[1..], f);
      var head := if fs[0].queue == queue then fs[0].entries else [];
      assert head + (FlushedTo(queue, fs[1..]) + tail) == head + FlushedTo(queue, fs[1..]) + tail;
    }
  }

  ghost predicate Accounted(queue: string, buffers: map<string, seq<Entry>>, flushed: seq<Flushed>,
      received: seq<Entry>)
  {
    FlushedTo(queue, flushed) + Buffer(buffers, queue) == For(queue, received)
  }

  /** The goroutine of `runWorker`; `received` and `flushed` record history. */
  class Worker {
    var queueBatches: map<string, seq<Entry>>
    ghost var received: seq<Entry>
    ghost var flushed: seq<Flushed>

    /** For each queue what was flushed, followed by what is buffered, is what was received, in order;
        no batch is empty or too large. */
    ghost predicate Valid()
      reads this
    {
      && (forall queue {:trigger Accounted(queue, queueBatches, flushed, received)} ::
          Accounted(queue, queueBatches, flushed, received))
      && (forall f <- flushed :: 0 < |f.entries| <= 10)
      && (forall queue <- queueBatches :: |queueBatches[queue]| < MAX_BATCH)
    }

    constructor ()
      ensures Valid() && received == [] && flushed == []
    {
      queueBatches, received, flushed := map[], [], [];
      new;
      forall queue ensures Accounted(queue, queueBatches, flushed, received) {}
    }

    /** `tryFlushBatch`: the buffer is replaced before the old one is submitted. */
    method TryFlushBatch(queue: string, ghost more: seq<Entry>)
      requires forall x {:trigger Accounted(x, queueBatches, flushed, more)} ::
          Accounted(x, queueBatches, flushed, more)
      requires queue in queueBatches ==> |queueBatches[queue]| <= MAX_BATCH
      modifies this`queueBatches, this`flushed
      ensures forall x {:trigger Accounted(x, queueBatches, flushed, more)} :: Accounted(x, queueBatches, flushed, more)
      ensures Buffer(queueBatches, queue) == [] && queueBatches.Keys == old(queueBatches).Keys
      ensures forall x <- queueBatches :: x != queue ==> queueBatches[x] == old(queueBatches)[x]
      ensures flushed == old(flushed) + if Buffer(old(queueBatches), queue) == [] then []
          else [Flushed(queue, old(queueBatches)[queue])]
    {
      if queue !in queueBatches || queueBatches[queue] == [] {
        return;
      }
      ghost var f := Flushed(queue, queueBatches[queue]);
      queueBatches := queueBatches[queue := []];
      flushed := flushed + [f];
      forall x ensures Accounted(x, queueBatches, flushed, more) {
        assert Accounted(x, old(queueBatches), old(flushed), more);
        FlushedAppend(x, old(flushed), f);
      }
    }

    method OnEntry(e: Entry)
      requires Valid()
      modifies this
      ensures Valid() && received == old(received) + [e] && old(flushed) <= flushed
      ensures |flushed| == |old(flushed)| + if |Buffer(old(queueBatches), e.queue)| == 9 then 1 else 0
    {
      var buffer := if e.queue in queueBatches then queueBatches[e.queue] else [];
      queueBatches := queueBatches[e.queue := buffer + [e]];
      received := received + [e];
      forall x ensures Accounted(x, queueBatches, flushed, received) {
        assert Accounted(x, old(queueBatches), flushed, old(received));
        ForAppend(x, old(received), e);
      }
      if |queueBatches[e.queue]| >= MAX_BATCH {
        TryFlushBatch(e.queue, received);
      }
    }

    /** `tryFlushAll`; `failAt` counts the submissions until one fails, which ends it. */
    method OnTimer(failAt: nat)
      requires Valid()
      modifies this`queueBatches, this`flushed
      ensures Valid() && old(flushed) <= flushed
      ensures |flushed| <= |old(flushed)| + failAt + 1
      ensures |flushed| <= |old(flushed)| + failAt ==> forall queue <- queueBatches :: queueBatches[queue] == []
    {
      var rest := queueBatches.Keys;
      var count := 0;
      while rest != {} && count <= failAt
        invariant Valid() && rest <= queueBatches.Keys && old(flushed) <= flushed
            && |flushed| == |old(flushed)| + count <= |old(flushed)| + failAt + 1
        invariant forall queue <- queueBatches :: queue !in rest ==> queueBatches[queue] == []
        decreases rest
      {
        var queue :| queue in rest;
        rest := rest - {queue};
        if queueBatches[queue] != [] {
          count := count + 1;
        }
        TryFlushBatch(queue, received);
      }
    }
  }

  // ---- one flush

  /** What SQS answers: an error for the call, or the ids that failed. */
  datatype Answer = SendError | Sent(failed: seq<string>)

  /** Entries by position in the batch: those reported as failed and as delivered. */
  datatype Report = Fatal | Responses(errors: seq<nat>, oks: seq<nat>)

  ghost predicate Distinct<T>(s: seq<T>)
  {
    forall i, j :: 0 <= i < j < |s| ==> s[i] != s[j]
  }

  /** Every entry of the batch is in exactly one of the two responses, once. */
  ghost predicate Partition(errors: seq<nat>, oks: seq<nat>, n: nat)
  {
    && Distinct(errors) && Distinct(oks)
    && (forall k: nat :: k in errors ==> k < n && k !in oks)
    && (forall k: nat :: k in oks ==> k < n)
    && (forall k: nat :: k < n ==> k in errors || k in oks)
  }

  /** A failed id that was not sent, or that comes twice. */
  ghost predicate UnknownId(ids: seq<string>, failed: seq<string>)
  {
    || (exists i :: 0 <= i < |failed| && failed[i] !in ids)
    || (exists i, j :: 0 <= i < j < |failed| && failed[i] == failed[j])
  }

  /** `flushBatch`: `ids` are the fresh message ids. */
  method FlushBatch(n: nat, ids: seq<string>, answer: Answer) returns (r: Report)
    requires |ids| == n <= MAX_BATCH && Distinct(ids)
    ensures r == Fatal <==> answer.Sent? && UnknownId(ids, answer.failed)
    ensures r.Responses? ==> Partition(r.errors, r.oks, n)
    ensures answer.SendError? ==> r.Responses? && r.oks == []
    ensures answer.Sent? && r.Responses? ==>
      && |r.errors| == |answer.failed|
      && forall i :: 0 <= i < |r.errors| ==> r.errors[i] < n && ids[r.errors[i]] == answer.failed[i]
  {
    if answer.SendError? {
      var all := Everything(n);
      return Responses(all, []);
    }
    var batchMap := IdMap(ids);
    var errors, unknown := ProcessFailures(ids, answer.failed, batchMap);
    if unknown {
      return Fatal;
    }
    var oks := Remaining(ids, answer.failed, batchMap - Members(answer.failed));
    r := Responses(errors, oks);
    forall k: nat | k < n ensures k in errors || k in oks {
      if ids[k] in answer.failed {
        var i :| 0 <= i < |answer.failed| && answer.failed[i] == ids[k];
        assert errors[i] == k;
      }
    }
    forall i, j | 0 <= i < j < |errors| ensures errors[i] != errors[j] {
      assert answer.failed[i] != answer.failed[j];
    }
  }

  /** `processFailureFromSend` */
  method Everything(n: nat) returns (errors: seq<nat>)
    ensures Distinct(errors) && forall k: nat :: k in errors <==> k < n
  {
    errors := [];
    for i := 0 to n
      invariant |errors| == i && forall j :: 0 <= j < i ==> errors[j] == j
    {
      errors := errors + [i];
    }
    forall k: nat | k < n ensures k in errors { assert errors[k] == k; }
  }

  function Members(s: seq<string>): set<string>
  {
    set x <- s
  }

  ghost predicate MapsTo(ids: seq<string>, m: map<string, nat>)
  {
    forall id <- m :: m[id] < |ids| && ids[m[id]] == id
  }

  method IdMap(ids: seq<string>) returns (m: map<string, nat>)
    requires Distinct(ids)
    ensures m.Keys == Members(ids) && MapsTo(ids, m)
  {
    m := map[];
    for i := 0 to |ids|
      invariant m.Keys == Members(ids[..i]) && MapsTo(ids, m)
    {
      assert ids[..i + 1] == ids[..i] + [ids[i]];
      m := m[ids[i] := i];
    }
    assert ids[..|ids|] == ids;
  }

  method ProcessFailures(ids: seq<string>, failed: seq<string>, batchMap: map<string, nat>)
      returns (errors: seq<nat>, unknown: bool)
    requires batchMap.Keys == Members(ids) && MapsTo(ids, batchMap)
    ensures unknown <==> UnknownId(ids, failed)
    ensures !unknown ==>
      |errors| == |failed| && forall i :: 0 <= i < |failed| ==> errors[i] < |ids| && ids[errors[i]] == failed[i]
  {
    errors, unknown := [], false;
    var m := batchMap;
    for i := 0 to |failed|
      invariant m == batchMap - Members(failed[..i])
      invariant |errors| == i && forall j :: 0 <= j < i ==> errors[j] < |ids| && ids[errors[j]] == failed[j]
      invariant forall j :: 0 <= j < i ==> failed[j] in ids
      invariant forall j, k :: 0 <= j < k < i ==> failed[j] != failed[k]
    {
      if failed[i] !in m {
        if failed[i] in ids {
          var j :| 0 <= j < i && failed[j] == failed[i];
        }
        return errors, true;
      }
      errors := errors + [m[failed[i]]];
      assert failed[..i + 1] == failed[..i] + [failed[i]];
      m := m - {failed[i]};
    }
  }

  /** Delivered entries, in whatever order the map yields them. */
  method Remaining(ids: seq<string>, ghost failed: seq<string>, batchMap: map<string, nat>) returns (oks: seq<nat>)
    requires Distinct(ids) && batchMap.Keys == Members(ids) - Members(failed) && MapsTo(ids, batchMap)
    ensures Distinct(oks) && forall k: nat :: k in oks <==> k < |ids| && ids[k] !in failed
  {
    oks := [];
    var rest := batchMap;
    while rest != map[]
      invariant rest.Keys <= batchMap.Keys && MapsTo(ids, rest)
      invariant Distinct(oks) && forall k: nat :: k in oks <==> k < |ids| && ids[k] in batchMap && ids[k] !in rest
      decreases rest.Keys
    {
      var id :| id in rest;
      oks := oks + [rest[id]];
      rest := rest - {id};
    }
  }
}
