/** The LSN tracker (pg2buffer/pglsntracker/buffered_lsn_tracker.go) as a state machine.
    Every function below is one section of the source that runs under a lock. */
module TrackerSpec {
  import opened WriteQueues
  import opened Wal

  /** Stands for the pointer to a tracked write: the number of its allocation. */
  type Id = nat

  datatype Failure = Failure(retries: nat, downStreamDownRetries: nat)

  datatype RetryConfig = RetryConfig(maxRetries: int, maxConnectionRetries: int, maxBackoff: int)

  /** `trackedWriteRequest`; the cached size is that of the request it was made from. */
  datatype Tracked = Tracked(point: CommitPoint, write: Option<WriteRequest>, pending: set<Offset>,
                             failures: map<Offset, Failure>, queued: seq<WriteRequest>, released: bool)

  /** A retry that waits on the timing wheel. */
  datatype Retry = Retry(id: Id, write: WriteRequest)

  /** The fields of the tracker. `ready` holds the markers of the ready queue, `gauge` is the
      write-queue statistic and `freed` the tracked writes whose entries were released. */
  datatype Core = Core(objs: map<Id, Tracked>, tracking: seq<Id>, maxAck: CommitPoint,
                           ready: seq<Id>, timers: multiset<Retry>, gauge: int, freed: multiset<Id>)

  ghost predicate Closed(c: Core)
  {
    && (forall id <- c.tracking :: id in c.objs)
    && (forall id <- c.ready :: id in c.objs)
  }

  // ---- one tracked write

  function NewTracked(w: WriteRequest): Tracked
  {
    Tracked(CommitPoint(w.lsn, w.xid), Some(w), Offsets(w), map[], [], false)
  }

  predicate HasPendingEntries(t: Tracked, w: WriteRequest)
  {
    t.pending * Offsets(w) != {}
  }

  predicate Accepts(t: Tracked, w: WriteRequest)
  {
    !t.released && HasPendingEntries(t, w)
  }

  function Release(t: Tracked): Tracked
  {
    Tracked(t.point, None, {}, map[], [], true)
  }

  /** Removes the offsets and releases the write when nothing is left. */
  function Acked(t: Tracked, offsets: set<Offset>): Tracked
  {
    if t.pending <= offsets then (if t.released then t.(pending := {}) else Release(t))
    else t.(pending := t.pending - offsets)
  }

  function FullWrite(t: Tracked): Option<WriteRequest>
  {
    if t.write.None? || t.released || !HasPendingEntries(t, t.write.value) then None else t.write
  }

  function RetryWrite(t: Tracked, offset: Offset): Option<WriteRequest>
  {
    if t.write.None? || offset !in t.pending then None else
      match EntryAt(t.write.value.entries, offset)
      case None => None
      case Some(e) => Some(t.write.value.(entries := [e]))
  }

  /** `getFailedEntry`: the first failure counts one retry whatever its kind. */
  function Failed(failures: map<Offset, Failure>, offset: Offset, reason: Reason): Failure
  {
    if offset !in failures then Failure(1, if reason.downStreamDown then 1 else 0)
    else if reason.downStreamDown then
      failures[offset].(downStreamDownRetries := failures[offset].downStreamDownRetries + 1)
    else
      failures[offset].(retries := failures[offset].retries + 1)
  }

  // ---- the tracking queue

  function Find(c: Core, ids: seq<Id>, lsn: Lsn): (r: Option<Id>)
    requires forall id <- ids :: id in c.objs
    ensures r.Some? ==> r.value in ids && c.objs[r.value].point.lsn == lsn
    ensures r.None? ==> forall id <- ids :: c.objs[id].point.lsn != lsn
  {
    if ids == [] then None
    else if c.objs[ids[0]].point.lsn == lsn then Some(ids[0])
    else
      var r := Find(c, ids[1..], lsn);
      assert forall id <- ids :: id == ids[0] || id in ids[1..];
      r
  }

  predicate IsAcknowledged(c: Core, lsn: Lsn)
  {
    c.maxAck.lsn > 0 && lsn <= c.maxAck.lsn
  }

  /** `pushTrackedWrite`: `PushBefore` with the predicate "existing LSN greater than the new one". */
  function InsertByLsn(objs: map<Id, Tracked>, ids: seq<Id>, id: Id, lsn: Lsn): (r: seq<Id>)
  {
    InsertBeforeFirst(ids, id, x => LsnOf(objs, x) > lsn)
  }

  function LsnOf(objs: map<Id, Tracked>, id: Id): int
  {
    if id in objs then objs[id].point.lsn else -1
  }

  /** `Add` up to the call of `enqueueReadyWrite`: the new state and the write to enqueue. */
  function Track(c: Core, req: WriteRequest, id: Id): (Core, Option<Retry>)
    requires Closed(c)
  {
    if IsAcknowledged(c, req.lsn) then (c, None) else
    match Find(c, c.tracking, req.lsn)
    case Some(existing) =>
      var t := c.objs[existing];
      var full := FullWrite(t);
      if t.pending == {} || t.failures == map[] || full.None? then (c, None)
      else (c, Some(Retry(existing, full.value)))
    case None =>
      (c.(objs := c.objs[id := NewTracked(req)], tracking := InsertByLsn(c.objs, c.tracking, id, req.lsn)),
       Some(Retry(id, req)))
  }

  /** `queueWrite` */
  function QueueWrite(c: Core, id: Id, w: WriteRequest): (Core, bool)
    requires id in c.objs
  {
    var t := c.objs[id];
    if Accepts(t, w) then (c.(objs := c.objs[id := t.(queued := t.queued + [w])]), true) else (c, false)
  }

  /** Counting the queued write and pushing its marker. */
  function PushMarker(c: Core, id: Id): Core
  {
    c.(ready := c.ready + [id], gauge := c.gauge + 1)
  }

  /** `popQueuedWrite` */
  function TakeQueued(c: Core, id: Id): (Core, Option<WriteRequest>)
    requires id in c.objs
  {
    var t := c.objs[id];
    if t.queued == [] then (c, None)
    else (c.(objs := c.objs[id := t.(queued := t.queued[1..])]), Some(t.queued[0]))
  }

  /** Acknowledges offsets of one tracked write; a release takes its queued writes off the gauge. */
  function AckId(c: Core, id: Id, offsets: set<Offset>): Core
    requires id in c.objs
  {
    var t := c.objs[id];
    var t' := Acked(t, offsets);
    var c' := c.(objs := c.objs[id := t']);
    if t'.released && !t.released then c'.(gauge := c.gauge - |t.queued|, freed := c.freed + multiset{id}) else c'
  }

  /** `ack`: a response for an LSN that is no longer tracked is ignored. */
  function AckLsn(c: Core, lsn: Lsn, offsets: set<Offset>): Core
    requires Closed(c)
  {
    match Find(c, c.tracking, lsn)
    case None => c
    case Some(id) => AckId(c, id, offsets)
  }

  function AckAll(c: Core, es: seq<ResponseEntry>): (r: Core)
    requires Closed(c)
    ensures r.tracking == c.tracking && r.ready == c.ready && r.objs.Keys == c.objs.Keys
    decreases |es|
  {
    if es == [] then c else AckAll(AckLsn(c, es[0].lsn, {es[0].offset}), es[1..])
  }

  /** `advanceMaxAcknowledged` */
  function Advance(c: Core): (r: Core)
    requires Closed(c)
    decreases |c.tracking|
  {
    if c.tracking == [] || c.objs[c.tracking[0]].pending != {} then c else
      var id := c.tracking[0];
      var c1 := AckId(c, id, {});
      Advance(c1.(tracking := c.tracking[1..], maxAck := c.objs[id].point))
  }

  /** `OnSuccess` */
  function Success(c: Core, es: seq<ResponseEntry>): Core
    requires Closed(c)
  {
    Advance(AckAll(c, es))
  }

  // ---- failures

  datatype Verdict = Ignored | Missing | ShutDown | Skip | Again(retry: Retry) | Dropped

  /** One entry of an error response. */
  function JudgeEntry(c: Core, cfg: RetryConfig, e: ErrorEntry): (r: (Core, Verdict))
    requires Closed(c)
    ensures r.0.tracking == c.tracking && r.0.ready == c.ready && r.0.objs.Keys == c.objs.Keys
  {
    match Find(c, c.tracking, e.response.lsn)
    case None => (c, if IsAcknowledged(c, e.response.lsn) then Ignored else Missing)
    case Some(id) =>
      var t := c.objs[id];
      if t.pending == {} then (c, Ignored) else
      var f := Failed(t.failures, e.response.offset, e.reason);
      var c' := c.(objs := c.objs[id := t.(failures := t.failures[e.response.offset := f])]);
      (c', match Judge(cfg, f, e.reason)
           case Stop => ShutDown
           case GiveUp => Skip
           case TryAgain =>
             if cfg.maxBackoff > 0 && RetryWrite(t, e.response.offset).Some?
             then Again(Retry(id, RetryWrite(t, e.response.offset).value))
             else Dropped)
  }

  datatype Judgement = Stop | GiveUp | TryAgain

  /** What the limits say once a failure has been counted. */
  function Judge(cfg: RetryConfig, f: Failure, reason: Reason): Judgement
  {
    if cfg.maxConnectionRetries > 0 && f.downStreamDownRetries >= cfg.maxConnectionRetries && reason.downStreamDown
    then Stop
    else if f.retries >= cfg.maxRetries || !reason.retryable then GiveUp
    else TryAgain
  }

  datatype ErrorOutcome =
    | Processed(skips: seq<ResponseEntry>, retries: seq<Retry>)
    | ShuttingDown
    | MissingWrite

  /** `processErrorResponse`, entry by entry; the first shutdown or missing write ends it. */
  function ProcessErrors(c: Core, cfg: RetryConfig, es: seq<ErrorEntry>): (r: (Core, ErrorOutcome))
    requires Closed(c)
    ensures r.0.tracking == c.tracking && r.0.ready == c.ready && r.0.objs.Keys == c.objs.Keys
    decreases |es|
  {
    if es == [] then (c, Processed([], [])) else
    var (c1, v) := JudgeEntry(c, cfg, es[0]);
    if v.Missing? then (c1, MissingWrite) else if v.ShutDown? then (c1, ShuttingDown) else
    var (c2, rest) := ProcessErrors(c1, cfg, es[1..]);
    (c2, match rest
         case Processed(skips, retries) =>
           Processed(if v.Skip? then [es[0].response] + skips else skips,
                     if v.Again? then [v.retry] + retries else retries)
         case _ => rest)
  }
}
