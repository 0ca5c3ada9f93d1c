/** Runs of the LSN tracker: adds, responses, retry timers and pops interleave freely. Each
    goroutine's position between two locked sections is part of the state. */
module TrackerRuns {
  import opened WriteQueues
  import opened Wal
  import opened TrackerSpec
  import opened TrackerInvariant

  datatype Delivery = Delivery(lsn: Lsn, offset: Offset)

  /** `enqueuing`, `pushing`: goroutines inside `enqueueReadyWrite`, before `queueWrite` and before
      the marker is pushed. `popping`, `hand`: the pipeline between the marker, the queued write
      and the writer. */
  datatype Pipe = Pipe(enqueuing: multiset<Retry>, pushing: multiset<Id>, popping: multiset<Id>,
                           hand: multiset<WriteRequest>)

  /** `inflight`: handed to the writer and not answered. `skipping`, `scheduling`: what an error
      handler still has to acknowledge and to schedule. */
  datatype Downstream = Downstream(inflight: multiset<Delivery>, skipping: multiset<Delivery>,
                                       scheduling: multiset<Retry>)

  /** `accepted` and `answered` record history. */
  datatype Run = Run(core: Core, cfg: RetryConfig, pipe: Pipe, down: Downstream,
                         accepted: map<Id, WriteRequest>, answered: set<Delivery>, shutdown: bool, missing: bool)

  datatype Event =
    | Add(req: WriteRequest, id: Id)
    | Enqueue(x: Retry)
    | Push(pushed: Id)
    | PopMarker
    | Take(taken: Id)
    | Forward(w: WriteRequest)
    | OnSuccess(oks: seq<ResponseEntry>)
    | Poll
    | OnError(errs: seq<ErrorEntry>)
    | AckSkipped(d: Delivery)
    | Schedule(r: Retry)
    | Fire(timer: Retry)

  function Init(cfg: RetryConfig): Run
  {
    Run(Core(map[], [], CommitPoint(0, 0), [], multiset{}, 0, multiset{}), cfg,
        Pipe(multiset{}, multiset{}, multiset{}, multiset{}), Downstream(multiset{}, multiset{}, multiset{}),
        map[], {}, false, false)
  }

  function DeliveryOf(e: ResponseEntry): Delivery
  {
    Delivery(e.lsn, e.offset)
  }

  function Deliveries(es: seq<ResponseEntry>): (m: multiset<Delivery>)
  {
    if es == [] then multiset{} else multiset{DeliveryOf(es[0])} + Deliveries(es[1..])
  }

  function Responses(es: seq<ErrorEntry>): (r: seq<ResponseEntry>)
  {
    if es == [] then [] else [es[0].response] + Responses(es[1..])
  }

  /** Everything a writer has to answer for one request. */
  function Handed(w: WriteRequest): multiset<Delivery>
  {
    multiset(set o <- Offsets(w) :: Delivery(w.lsn, o))
  }

  // ---- the steps

  /** A goroutine's pointer always leads to a known write (`RefsOk`). */
  predicate Enabled(r: Run, e: Event)
  {
    match e
    case Add(req, id) => id !in r.core.objs && req.lsn > 0
    case Enqueue(x) => x in r.pipe.enqueuing && x.id in r.core.objs
    case Push(id) => id in r.pipe.pushing
    case PopMarker => r.core.ready != []
    case Take(id) => id in r.pipe.popping && id in r.core.objs
    case Forward(w) => w in r.pipe.hand
    case OnSuccess(_) => true
    case Poll => true
    case OnError(_) => true
    case AckSkipped(d) => d in r.down.skipping
    case Schedule(x) => x in r.down.scheduling
    case Fire(x) => x in r.core.timers
  }

  /** Pointers held by goroutines lead to known writes. */
  ghost predicate Refs(objs: map<Id, Tracked>, m: multiset<Retry>)
  {
    forall x <- m :: x.id in objs && x.write.lsn == objs[x.id].point.lsn
  }

  ghost predicate Known(objs: map<Id, Tracked>, m: multiset<Id>)
  {
    forall id <- m :: id in objs
  }

  ghost predicate RefsOk(r: Run)
  {
    && Refs(r.core.objs, r.pipe.enqueuing)
    && Refs(r.core.objs, r.down.scheduling)
    && Refs(r.core.objs, r.core.timers)
    && Known(r.core.objs, r.pipe.pushing)
    && Known(r.core.objs, r.pipe.popping)
  }

  function DoAdd(r: Run, req: WriteRequest, id: Id): Run
    requires Closed(r.core)
  {
    var (c, todo) := Track(r.core, req, id);
    r.(core := c,
       pipe := if todo.Some? then r.pipe.(enqueuing := r.pipe.enqueuing + multiset{todo.value}) else r.pipe,
       accepted := if id in c.objs then r.accepted[id := req] else r.accepted)
  }

  function DoEnqueue(r: Run, x: Retry): Run
    requires x.id in r.core.objs
  {
    var (c, ok) := QueueWrite(r.core, x.id, x.write);
    r.(core := c,
       pipe := r.pipe.(enqueuing := r.pipe.enqueuing - multiset{x},
                       pushing := if ok then r.pipe.pushing + multiset{x.id} else r.pipe.pushing))
  }

  function DoPush(r: Run, id: Id): Run
  {
    r.(core := PushMarker(r.core, id), pipe := r.pipe.(pushing := r.pipe.pushing - multiset{id}))
  }

  function DoPopMarker(r: Run): Run
    requires r.core.ready != []
  {
    r.(core := r.core.(ready := r.core.ready[1..]),
       pipe := r.pipe.(popping := r.pipe.popping + multiset{r.core.ready[0]}))
  }

  function DoTake(r: Run, id: Id): Run
    requires id in r.core.objs
  {
    var (c, w) := TakeQueued(r.core, id);
    r.(core := c,
       pipe := r.pipe.(popping := r.pipe.popping - multiset{id},
                       hand := if w.Some? then r.pipe.hand + multiset{w.value} else r.pipe.hand))
  }

  function DoForward(r: Run, w: WriteRequest): Run
  {
    r.(core := r.core.(gauge := r.core.gauge - 1),
       pipe := r.pipe.(hand := r.pipe.hand - multiset{w}),
       down := r.down.(inflight := r.down.inflight + Handed(w)))
  }

  function DoSuccess(r: Run, es: seq<ResponseEntry>): Run
    requires Closed(r.core)
  {
    r.(core := Success(r.core, es),
       down := r.down.(inflight := r.down.inflight - Deliveries(es)),
       answered := r.answered + set e <- es :: DeliveryOf(e))
  }

  function DoError(r: Run, es: seq<ErrorEntry>): Run
    requires Closed(r.core)
  {
    var (c, outcome) := ProcessErrors(r.core, r.cfg, es);
    var inflight := r.down.inflight - Deliveries(Responses(es));
    match outcome
    case Processed(skips, retries) =>
      r.(core := c,
         down := Downstream(inflight, r.down.skipping + Deliveries(skips), r.down.scheduling + multiset(retries)))
    case ShuttingDown => r.(core := c, down := r.down.(inflight := inflight), shutdown := true)
    case MissingWrite => r.(core := c, down := r.down.(inflight := inflight), missing := true)
  }

  function DoAckSkipped(r: Run, d: Delivery): Run
    requires Closed(r.core)
  {
    r.(core := AckLsn(r.core, d.lsn, {d.offset}),
       down := r.down.(skipping := r.down.skipping - multiset{d}),
       answered := r.answered + {d})
  }

  function DoSchedule(r: Run, x: Retry): Run
  {
    r.(core := r.core.(timers := r.core.timers + multiset{x}),
       down := r.down.(scheduling := r.down.scheduling - multiset{x}))
  }

  function DoFire(r: Run, x: Retry): Run
  {
    r.(core := r.core.(timers := r.core.timers - multiset{x}),
       pipe := r.pipe.(enqueuing := r.pipe.enqueuing + multiset{x}))
  }

  function Step(r: Run, e: Event): Run
    requires Closed(r.core) && Enabled(r, e)
  {
    match e
    case Add(req, id) => DoAdd(r, req, id)
    case Enqueue(x) => DoEnqueue(r, x)
    case Push(id) => DoPush(r, id)
    case PopMarker => DoPopMarker(r)
    case Take(id) => DoTake(r, id)
    case Forward(w) => DoForward(r, w)
    case OnSuccess(es) => DoSuccess(r, es)
    case Poll => r.(core := Advance(r.core))
    case OnError(es) => DoError(r, es)
    case AckSkipped(d) => DoAckSkipped(r, d)
    case Schedule(x) => DoSchedule(r, x)
    case Fire(x) => DoFire(r, x)
  }

  // ---- the invariant

  /** An offset of an accepted write is pending, or the writer acknowledged it or it was skipped. */
  ghost predicate HistoryOk(objs: map<Id, Tracked>, accepted: map<Id, WriteRequest>, answered: set<Delivery>, id: Id)
    requires id in objs
  {
    var t := objs[id];
    && id in accepted && accepted[id].lsn == t.point.lsn
    && (t.write.Some? ==> t.write.value == accepted[id])
    && (forall o <- Offsets(accepted[id]) :: o in t.pending || Delivery(t.point.lsn, o) in answered)
  }

  ghost predicate Histories(objs: map<Id, Tracked>, accepted: map<Id, WriteRequest>, answered: set<Delivery>)
  {
    && (forall id {:trigger HistoryOk(objs, accepted, answered, id)} ::
          id in objs ==> HistoryOk(objs, accepted, answered, id))
    && (forall id <- accepted :: id in objs)
  }

  /** Every queued write has a marker, or a goroutine that is about to push or has just popped one. */
  ghost predicate MarkerOk(objs: map<Id, Tracked>, ready: seq<Id>, pushing: multiset<Id>, popping: multiset<Id>, id: Id)
    requires id in objs
  {
    !objs[id].released ==> |objs[id].queued| == multiset(ready)[id] + pushing[id] + popping[id]
  }

  ghost predicate Markers(objs: map<Id, Tracked>, ready: seq<Id>, pushing: multiset<Id>, popping: multiset<Id>)
  {
    forall id {:trigger MarkerOk(objs, ready, pushing, popping, id)} ::
      id in objs ==> MarkerOk(objs, ready, pushing, popping, id)
  }

  /** The watermark is 0 or the point of an accepted write. */
  ghost predicate WatermarkKnown(objs: map<Id, Tracked>, maxAck: CommitPoint)
  {
    maxAck.lsn > 0 ==> exists id :: id in objs && objs[id].point == maxAck
  }

  ghost predicate RInv(r: Run)
  {
    && Inv(r.core)
    && RefsOk(r)
    && Drift(r.core) == |r.pipe.hand| - |r.pipe.pushing|
    && Histories(r.core.objs, r.accepted, r.answered)
    && Markers(r.core.objs, r.core.ready, r.pipe.pushing, r.pipe.popping)
    && WatermarkKnown(r.core.objs, r.core.maxAck)
  }

  // ---- effects on one tracked write

  function AckedAt(es: seq<ResponseEntry>, lsn: Lsn): set<Offset>
  {
    set e <- es | e.lsn == lsn :: e.offset
  }

  /** `t'` is `t` after the offsets were acknowledged. */
  ghost predicate Shrunk(t: Tracked, t': Tracked, offsets: set<Offset>)
  {
    && t'.point == t.point
    && t'.pending == t.pending - offsets
    && (t'.write.Some? ==> t'.write == t.write)
    && (!t'.released ==> t' == t.(pending := t.pending - offsets))
  }

  lemma AckLsnEffect(c: Core, lsn: Lsn, offsets: set<Offset>, id: Id)
    requires Inv(c) && id in c.objs
    ensures Shrunk(c.objs[id], AckLsn(c, lsn, offsets).objs[id], if c.objs[id].point.lsn == lsn then offsets else {})
  {
    assert Ok(c, id);
    var found := Find(c, c.tracking, lsn);
    if found.Some? && id in c.tracking {
      UniqueLsn(c, found.value, id);
    }
  }

  lemma UniqueLsn(c: Core, a: Id, b: Id)
    requires Closed(c) && Sorted(c.objs, c.tracking) && a in c.tracking && b in c.tracking
    ensures a == b || c.objs[a].point.lsn != c.objs[b].point.lsn
  {
    var i :| 0 <= i < |c.tracking| && c.tracking[i] == a;
    var j :| 0 <= j < |c.tracking| && c.tracking[j] == b;
    if i < j {
      assert Below(c.objs, c.tracking, i, j);
    } else if j < i {
      assert Below(c.objs, c.tracking, j, i);
    }
  }

  lemma AckLsnKeeps(c: Core, lsn: Lsn, offsets: set<Offset>)
    requires Inv(c)
    ensures Inv(AckLsn(c, lsn, offsets)) && Drift(AckLsn(c, lsn, offsets)) == Drift(c)
  {
    var found := Find(c, c.tracking, lsn);
    if found.Some? {
      AckIdKeeps(c, found.value, offsets);
    }
  }

  lemma {:induction false} AckAllEffect(c: Core, es: seq<ResponseEntry>, id: Id)
    requires Inv(c) && id in c.objs
    ensures Shrunk(c.objs[id], AckAll(c, es).objs[id], AckedAt(es, c.objs[id].point.lsn))
    decreases |es|
  {
    if es != [] {
      AckLsnKeeps(c, es[0].lsn, {es[0].offset});
      AckLsnEffect(c, es[0].lsn, {es[0].offset}, id);
      AckAllEffect(AckLsn(c, es[0].lsn, {es[0].offset}), es[1..], id);
      AckedAtStep(es, c.objs[id].point.lsn);
    }
  }

  lemma AckedAtStep(es: seq<ResponseEntry>, lsn: Lsn)
    requires es != []
    ensures AckedAt(es, lsn) == (if lsn == es[0].lsn then {es[0].offset} else {}) + AckedAt(es[1..], lsn)
  {
    assert es == [es[0]] + es[1..];
  }

  lemma {:induction false} AckAllFrame(c: Core, es: seq<ResponseEntry>)
    requires Inv(c)
    ensures AckAll(c, es).timers == c.timers && AckAll(c, es).maxAck == c.maxAck
    decreases |es|
  {
    if es != [] {
      AckLsnKeeps(c, es[0].lsn, {es[0].offset});
      AckAllFrame(AckLsn(c, es[0].lsn, {es[0].offset}), es[1..]);
    }
  }

  /** Error processing changes nothing but failure counts. */
  ghost predicate SameButFailures(t: Tracked, t': Tracked)
  {
    t' == t.(failures := t'.failures)
  }

  ghost predicate OnlyFailures(c: Core, d: Core)
  {
    && d.objs.Keys == c.objs.Keys
    && d == c.(objs := d.objs)
    && forall id <- c.objs :: SameButFailures(c.objs[id], d.objs[id])
  }

  lemma JudgeEffect(c: Core, cfg: RetryConfig, e: ErrorEntry)
    requires Inv(c)
    ensures OnlyFailures(c, JudgeEntry(c, cfg, e).0)
    ensures var v := JudgeEntry(c, cfg, e).1;
            v.Again? ==> v.retry.id in c.objs && v.retry.write.lsn == c.objs[v.retry.id].point.lsn
  {
    var found := Find(c, c.tracking, e.response.lsn);
    if found.Some? {
      assert Ok(c, found.value);
    }
  }

  /** The first entry adds at most one skip and one retry to those of the rest. */
  lemma ErrorsOutcome(c: Core, cfg: RetryConfig, es: seq<ErrorEntry>)
    requires Closed(c) && es != [] && ProcessErrors(c, cfg, es).1.Processed?
    ensures var (c1, v) := JudgeEntry(c, cfg, es[0]);
      var rest, all := ProcessErrors(c1, cfg, es[1..]).1, ProcessErrors(c, cfg, es).1;
      && rest.Processed? && (v.Skip? || v.Again? || v.Dropped? || v.Ignored?)
      && all.skips == (if v.Skip? then [es[0].response] + rest.skips else rest.skips)
      && all.retries == (if v.Again? then [v.retry] + rest.retries else rest.retries)
  {
  }

  lemma ErrorsEffect(c: Core, cfg: RetryConfig, es: seq<ErrorEntry>)
    requires Inv(c)
    ensures OnlyFailures(c, ProcessErrors(c, cfg, es).0)
    ensures var o := ProcessErrors(c, cfg, es).1;
            o.Processed? ==> Refs(c.objs, multiset(o.retries))
  {
    ErrorsFailures(c, cfg, es);
    ErrorsRefs(c, cfg, es);
  }

  lemma {:induction false} ErrorsFailures(c: Core, cfg: RetryConfig, es: seq<ErrorEntry>)
    requires Inv(c)
    ensures OnlyFailures(c, ProcessErrors(c, cfg, es).0)
    decreases |es|
  {
    if es != [] {
      var c1 := JudgeEntry(c, cfg, es[0]).0;
      JudgeKeeps(c, cfg, es[0]);
      JudgeEffect(c, cfg, es[0]);
      ErrorsFailures(c1, cfg, es[1..]);
      FailuresTwice(c, c1, ProcessErrors(c1, cfg, es[1..]).0);
    }
  }

  lemma {:induction false} ErrorsRefs(c: Core, cfg: RetryConfig, es: seq<ErrorEntry>)
    requires Inv(c)
    ensures var o := ProcessErrors(c, cfg, es).1;
            o.Processed? ==> Refs(c.objs, multiset(o.retries))
    decreases |es|
  {
    if es != [] && ProcessErrors(c, cfg, es).1.Processed? {
      var (c1, v) := JudgeEntry(c, cfg, es[0]);
      JudgeKeeps(c, cfg, es[0]);
      JudgeEffect(c, cfg, es[0]);
      ErrorsRefs(c1, cfg, es[1..]);
      ErrorsOutcome(c, cfg, es);
      var rest := ProcessErrors(c1, cfg, es[1..]).1.retries;
      SameRefs(c, c1, rest);
      if v.Again? {
        RefsMore(c.objs, v.retry, rest);
      }
    }
  }

  lemma FailuresTwice(c: Core, d: Core, e: Core)
    requires OnlyFailures(c, d) && OnlyFailures(d, e)
    ensures OnlyFailures(c, e)
  {
  }

  lemma SameRefs(c: Core, d: Core, retries: seq<Retry>)
    requires OnlyFailures(c, d) && Refs(d.objs, multiset(retries))
    ensures Refs(c.objs, multiset(retries))
  {
  }

  lemma RefsMore(objs: map<Id, Tracked>, x: Retry, retries: seq<Retry>)
    requires Refs(objs, multiset(retries)) && x.id in objs && x.write.lsn == objs[x.id].point.lsn
    ensures Refs(objs, multiset([x] + retries))
  {
    assert multiset([x] + retries) == multiset{x} + multiset(retries);
  }

  // ---- every step keeps the invariant

  lemma AddKeeps(r: Run, req: WriteRequest, id: Id)
    requires RInv(r) && id !in r.core.objs && req.lsn > 0
    ensures RInv(DoAdd(r, req, id)) && DoAdd(r, req, id).core.maxAck == r.core.maxAck
  {
    TrackKeeps(r.core, req, id);
    TrackEffect(r.core, req, id);
    var (c, todo) := Track(r.core, req, id);
    if id in c.objs {
      NewHistory(r, req, id);
      NewMarker(r, req, id);
      AddedKeeps(r, DoAdd(r, req, id), req, id);
    } else if todo.Some? {
      ResendKeeps(r, todo.value);
    }
  }

  /** A request is new to the tracker, or at most sends a known write again. */
  lemma TrackEffect(c: Core, req: WriteRequest, id: Id)
    requires Inv(c) && id !in c.objs
    ensures var (d, todo) := Track(c, req, id);
            if id in d.objs then todo == Some(Retry(id, req))
                && d == c.(objs := c.objs[id := NewTracked(req)], tracking := d.tracking)
            else d == c && (todo.Some? ==>
                              todo.value.id in c.objs && todo.value.write.lsn == c.objs[todo.value.id].point.lsn)
  {
    var found := Find(c, c.tracking, req.lsn);
    if found.Some? {
      assert Ok(c, found.value);
    }
  }

  lemma ResendKeeps(r: Run, x: Retry)
    requires RInv(r) && x.id in r.core.objs && x.write.lsn == r.core.objs[x.id].point.lsn
    ensures RInv(r.(pipe := r.pipe.(enqueuing := r.pipe.enqueuing + multiset{x})))
  {
  }

  lemma AddedKeeps(r: Run, r': Run, req: WriteRequest, id: Id)
    requires RInv(r) && id !in r.core.objs
    requires Inv(r'.core) && Drift(r'.core) == Drift(r.core)
    requires r'.core == r.core.(objs := r.core.objs[id := NewTracked(req)], tracking := r'.core.tracking)
    requires r'.pipe == r.pipe.(enqueuing := r.pipe.enqueuing + multiset{Retry(id, req)}) && r'.down == r.down
    requires Histories(r'.core.objs, r'.accepted, r'.answered) && WatermarkKnown(r'.core.objs, r.core.maxAck)
    requires Markers(r'.core.objs, r.core.ready, r.pipe.pushing, r.pipe.popping)
    ensures RInv(r')
  {
    AddedRefs(r, r', req, id);
  }

  lemma AddedRefs(r: Run, r': Run, req: WriteRequest, id: Id)
    requires RefsOk(r) && id !in r.core.objs
    requires r'.core.objs == r.core.objs[id := NewTracked(req)] && r'.core.timers == r.core.timers
    requires r'.pipe == r.pipe.(enqueuing := r.pipe.enqueuing + multiset{Retry(id, req)}) && r'.down == r.down
    ensures RefsOk(r')
  {
    RefsKept(r.core.objs, r'.core.objs, r.pipe.enqueuing);
    RefsKept(r.core.objs, r'.core.objs, r.down.scheduling);
    RefsKept(r.core.objs, r'.core.objs, r.core.timers);
  }

  lemma RefsKept(objs: map<Id, Tracked>, objs': map<Id, Tracked>, m: multiset<Retry>)
    requires Refs(objs, m) && forall id <- objs :: id in objs' && objs'[id].point == objs[id].point
    ensures Refs(objs', m)
  {
  }

  lemma NewHistory(r: Run, req: WriteRequest, id: Id)
    requires RInv(r) && id !in r.core.objs
    ensures Histories(r.core.objs[id := NewTracked(req)], r.accepted[id := req], r.answered)
    ensures WatermarkKnown(r.core.objs[id := NewTracked(req)], r.core.maxAck)
  {
    var objs := r.core.objs[id := NewTracked(req)];
    forall x | x in objs ensures HistoryOk(objs, r.accepted[id := req], r.answered, x) {
      if x != id { assert HistoryOk(r.core.objs, r.accepted, r.answered, x); }
    }
    assert forall x <- r.core.objs :: objs[x] == r.core.objs[x];
  }

  lemma NewMarker(r: Run, req: WriteRequest, id: Id)
    requires RInv(r) && id !in r.core.objs
    ensures Markers(r.core.objs[id := NewTracked(req)], r.core.ready, r.pipe.pushing, r.pipe.popping)
  {
    var objs := r.core.objs[id := NewTracked(req)];
    AbsentMarkers(r, id);
    forall x | x in objs ensures MarkerOk(objs, r.core.ready, r.pipe.pushing, r.pipe.popping, x) {
      if x != id { assert MarkerOk(r.core.objs, r.core.ready, r.pipe.pushing, r.pipe.popping, x); }
    }
  }

  lemma AbsentMarkers(r: Run, id: Id)
    requires Closed(r.core) && RefsOk(r) && id !in r.core.objs
    ensures multiset(r.core.ready)[id] == 0 && r.pipe.pushing[id] == 0 && r.pipe.popping[id] == 0
  {
    assert id !in r.core.ready;
    assert id !in multiset(r.core.ready);
  }

  /** A change of queued writes only. */
  lemma QueuedOnly(r: Run, objs: map<Id, Tracked>)
    requires Histories(r.core.objs, r.accepted, r.answered) && WatermarkKnown(r.core.objs, r.core.maxAck)
    requires objs.Keys == r.core.objs.Keys
    requires forall id <- objs :: objs[id] == r.core.objs[id].(queued := objs[id].queued)
    ensures Histories(objs, r.accepted, r.answered) && WatermarkKnown(objs, r.core.maxAck)
  {
    forall x | x in objs ensures HistoryOk(objs, r.accepted, r.answered, x) {
      assert HistoryOk(r.core.objs, r.accepted, r.answered, x);
    }
  }

  lemma EnqueueKeeps(r: Run, x: Retry)
    requires RInv(r) && x in r.pipe.enqueuing
    ensures RInv(DoEnqueue(r, x)) && DoEnqueue(r, x).core.maxAck == r.core.maxAck
  {
    QueueWriteKeeps(r.core, x.id, x.write);
    EnqueueFrame(r, x);
    QueuedOnly(r, DoEnqueue(r, x).core.objs);
    EnqueueMarkers(r, x);
    PipeKeeps(r, DoEnqueue(r, x));
  }

  /** Nothing but the queue of the write and the goroutine's position changes. */
  lemma EnqueueFrame(r: Run, x: Retry)
    requires x.id in r.core.objs && x in r.pipe.enqueuing
    ensures var r', ok := DoEnqueue(r, x), QueueWrite(r.core, x.id, x.write).1;
      && r'.core == r.core.(objs := r'.core.objs) && r'.core.objs.Keys == r.core.objs.Keys
      && (forall id <- r.core.objs :: r'.core.objs[id] == r.core.objs[id].(queued := r'.core.objs[id].queued))
      && r' == r.(core := r'.core, pipe := r'.pipe) && r'.pipe.hand == r.pipe.hand && r'.pipe.popping == r.pipe.popping
      && r'.pipe.enqueuing <= r.pipe.enqueuing
      && r'.pipe.pushing == if ok then r.pipe.pushing + multiset{x.id} else r.pipe.pushing
  {
  }

  lemma EnqueueMarkers(r: Run, x: Retry)
    requires x.id in r.core.objs && Markers(r.core.objs, r.core.ready, r.pipe.pushing, r.pipe.popping)
    ensures var r' := DoEnqueue(r, x); Markers(r'.core.objs, r.core.ready, r'.pipe.pushing, r.pipe.popping)
  {
    var r' := DoEnqueue(r, x);
    MarkersAfter(r, r'.core.objs, r.core.ready, r'.pipe.pushing, r.pipe.popping);
  }

  /** Assembles the invariant after a step of the pipeline. */
  lemma PipeKeeps(r: Run, r': Run)
    requires RInv(r) && Inv(r'.core) && Drift(r'.core) == |r'.pipe.hand| - |r'.pipe.pushing|
    requires r'.core.objs.Keys == r.core.objs.Keys
    requires forall id <- r.core.objs :: r'.core.objs[id].point == r.core.objs[id].point
    requires r'.core.timers == r.core.timers && r'.core.maxAck == r.core.maxAck
    requires r'.down.scheduling == r.down.scheduling
    requires r'.pipe.enqueuing <= r.pipe.enqueuing && r'.pipe.popping <= r.pipe.popping
    requires Known(r.core.objs, r'.pipe.pushing)
    requires Histories(r'.core.objs, r'.accepted, r'.answered) && WatermarkKnown(r'.core.objs, r.core.maxAck)
    requires Markers(r'.core.objs, r'.core.ready, r'.pipe.pushing, r'.pipe.popping)
    ensures RInv(r')
  {
  }

  /** The count of queued writes and the count of markers move together. */
  lemma MarkersAfter(r: Run, objs: map<Id, Tracked>, ready: seq<Id>, pushing: multiset<Id>, popping: multiset<Id>)
    requires Markers(r.core.objs, r.core.ready, r.pipe.pushing, r.pipe.popping) && objs.Keys == r.core.objs.Keys
    requires forall id <- objs :: objs[id].released == r.core.objs[id].released
    requires forall id <- objs :: !objs[id].released ==>
      |objs[id].queued| + multiset(r.core.ready)[id] + r.pipe.pushing[id] + r.pipe.popping[id]
      == |r.core.objs[id].queued| + multiset(ready)[id] + pushing[id] + popping[id]
    ensures Markers(objs, ready, pushing, popping)
  {
    forall id | id in objs ensures MarkerOk(objs, ready, pushing, popping, id) {
      assert MarkerOk(r.core.objs, r.core.ready, r.pipe.pushing, r.pipe.popping, id);
    }
  }

  lemma PushKeeps(r: Run, id: Id)
    requires RInv(r) && id in r.pipe.pushing
    ensures RInv(DoPush(r, id))
  {
    var r' := DoPush(r, id);
    forall x | x in r'.core.objs ensures MarkerOk(r'.core.objs, r'.core.ready, r'.pipe.pushing, r'.pipe.popping, x) {
      assert MarkerOk(r.core.objs, r.core.ready, r.pipe.pushing, r.pipe.popping, x);
    }
  }

  lemma PopMarkerKeeps(r: Run)
    requires RInv(r) && r.core.ready != []
    ensures RInv(DoPopMarker(r))
  {
    var r' := DoPopMarker(r);
    assert r.core.ready == [r.core.ready[0]] + r'.core.ready;
    forall x | x in r'.core.objs ensures MarkerOk(r'.core.objs, r'.core.ready, r'.pipe.pushing, r'.pipe.popping, x) {
      assert MarkerOk(r.core.objs, r.core.ready, r.pipe.pushing, r.pipe.popping, x);
    }
  }

  lemma TakeKeeps(r: Run, id: Id)
    requires RInv(r) && id in r.pipe.popping
    ensures RInv(DoTake(r, id)) && DoTake(r, id).core.maxAck == r.core.maxAck
  {
    TakeQueuedKeeps(r.core, id);
    TakeFrame(r, id);
    QueuedOnly(r, DoTake(r, id).core.objs);
    TakeMarkers(r, id);
    PipeKeeps(r, DoTake(r, id));
  }

  /** Nothing but the queue of the write and the goroutine's position changes. */
  lemma TakeFrame(r: Run, id: Id)
    requires id in r.core.objs && id in r.pipe.popping
    ensures var r', w := DoTake(r, id), TakeQueued(r.core, id).1;
      && r'.core == r.core.(objs := r'.core.objs) && r'.core.objs.Keys == r.core.objs.Keys
      && (forall x <- r.core.objs :: r'.core.objs[x] == r.core.objs[x].(queued := r'.core.objs[x].queued))
      && r' == r.(core := r'.core, pipe := r'.pipe) && r'.pipe.enqueuing == r.pipe.enqueuing
      && r'.pipe.pushing == r.pipe.pushing && r'.pipe.popping <= r.pipe.popping
      && |r'.pipe.hand| == |r.pipe.hand| + if w.Some? then 1 else 0
  {
  }

  lemma TakeMarkers(r: Run, id: Id)
    requires Inv(r.core) && id in r.core.objs && id in r.pipe.popping
    requires Markers(r.core.objs, r.core.ready, r.pipe.pushing, r.pipe.popping)
    ensures var r' := DoTake(r, id); Markers(r'.core.objs, r.core.ready, r.pipe.pushing, r'.pipe.popping)
  {
    var r' := DoTake(r, id);
    assert Ok(r.core, id);
    assert MarkerOk(r.core.objs, r.core.ready, r.pipe.pushing, r.pipe.popping, id);
    MarkersAfter(r, r'.core.objs, r.core.ready, r.pipe.pushing, r'.pipe.popping);
  }

  /** Acknowledging the offsets `offsets(lsn)`, all of which are recorded as answered. */
  lemma ShrinkKeeps(r: Run, objs: map<Id, Tracked>, answered: set<Delivery>, offsets: map<Id, set<Offset>>)
    requires RInv(r) && objs.Keys == r.core.objs.Keys == offsets.Keys && r.answered <= answered
    requires forall id <- objs :: Shrunk(r.core.objs[id], objs[id], offsets[id])
    requires forall id <- objs, o :: o in offsets[id] ==> Delivery(objs[id].point.lsn, o) in answered
    ensures Histories(objs, r.accepted, answered) && WatermarkKnown(objs, r.core.maxAck)
    ensures Markers(objs, r.core.ready, r.pipe.pushing, r.pipe.popping)
    ensures Refs(objs, r.pipe.enqueuing) && Refs(objs, r.down.scheduling) && Refs(objs, r.core.timers)
  {
    forall x | x in objs ensures HistoryOk(objs, r.accepted, answered, x) {
      assert HistoryOk(r.core.objs, r.accepted, r.answered, x);
    }
    forall x | x in objs ensures MarkerOk(objs, r.core.ready, r.pipe.pushing, r.pipe.popping, x) {
      assert Ok(r.core, x);
      assert MarkerOk(r.core.objs, r.core.ready, r.pipe.pushing, r.pipe.popping, x);
    }
  }

  lemma AckSkippedKeeps(r: Run, d: Delivery)
    requires RInv(r)
    ensures RInv(DoAckSkipped(r, d)) && DoAckSkipped(r, d).core.maxAck == r.core.maxAck
  {
    var c := AckLsn(r.core, d.lsn, {d.offset});
    AckLsnKeeps(r.core, d.lsn, {d.offset});
    var offsets := map id <- r.core.objs :: if r.core.objs[id].point.lsn == d.lsn then {d.offset} else {};
    forall id | id in c.objs ensures Shrunk(r.core.objs[id], c.objs[id], offsets[id]) {
      AckLsnEffect(r.core, d.lsn, {d.offset}, id);
    }
    ShrinkKeeps(r, c.objs, r.answered + {d}, offsets);
    AckFrame(r.core, d.lsn, {d.offset});
    PipeKeeps(r, DoAckSkipped(r, d));
  }

  lemma AckFrame(c: Core, lsn: Lsn, offsets: set<Offset>)
    requires Closed(c)
    ensures var d := AckLsn(c, lsn, offsets);
            && d.objs.Keys == c.objs.Keys && d.tracking == c.tracking && d.ready == c.ready
            && d.timers == c.timers && d.maxAck == c.maxAck
            && forall id <- c.objs :: d.objs[id].point == c.objs[id].point
  {
  }

  /** The watermark is always the point of an accepted write. */
  lemma {:induction false} AdvanceKnown(c: Core)
    requires Inv(c) && WatermarkKnown(c.objs, c.maxAck)
    ensures WatermarkKnown(Advance(c).objs, Advance(c).maxAck)
    decreases |c.tracking|
  {
    if c.tracking != [] && c.objs[c.tracking[0]].pending == {} {
      PopHeadKeeps(c);
      assert WatermarkKnown(c.objs, HeadPopped(c).maxAck) by { assert c.tracking[0] in c.objs; }
      AdvanceKnown(HeadPopped(c));
    }
  }

  lemma OnSuccessKeeps(r: Run, es: seq<ResponseEntry>)
    requires RInv(r)
    ensures RInv(DoSuccess(r, es)) && DoSuccess(r, es).core.maxAck.lsn >= r.core.maxAck.lsn
  {
    var c := AckAll(r.core, es);
    AckAllKeeps(r.core, es);
    AckAllFrame(r.core, es);
    AdvanceKeeps(c);
    var answered := r.answered + set e <- es :: DeliveryOf(e);
    var offsets := map id <- r.core.objs :: AckedAt(es, r.core.objs[id].point.lsn);
    forall id | id in c.objs ensures Shrunk(r.core.objs[id], c.objs[id], offsets[id]) {
      AckAllEffect(r.core, es, id);
    }
    forall id, o | id in c.objs && o in offsets[id] ensures Delivery(c.objs[id].point.lsn, o) in answered {
      var e :| e in es && e.lsn == r.core.objs[id].point.lsn && e.offset == o;
      assert DeliveryOf(e) in answered;
    }
    ShrinkKeeps(r, c.objs, answered, offsets);
    AdvanceKnown(c);
  }

  lemma PollKeeps(r: Run)
    requires RInv(r)
    ensures RInv(r.(core := Advance(r.core)))
    ensures Advance(r.core).maxAck.lsn >= r.core.maxAck.lsn
  {
    AdvanceKeeps(r.core);
    AdvanceKnown(r.core);
  }

  lemma OnErrorKeeps(r: Run, es: seq<ErrorEntry>)
    requires RInv(r)
    ensures RInv(DoError(r, es)) && DoError(r, es).core.maxAck == r.core.maxAck
  {
    ErrorsKeep(r.core, r.cfg, es);
    ErrorsEffect(r.core, r.cfg, es);
    var (c, outcome) := ProcessErrors(r.core, r.cfg, es);
    RetriesKnown(r, c, outcome);
    ErrorFrame(r, es);
    FailuresKeep(r, DoError(r, es));
  }

  lemma ErrorFrame(r: Run, es: seq<ErrorEntry>)
    requires Closed(r.core)
    ensures var r' := DoError(r, es);
            var (c, outcome) := ProcessErrors(r.core, r.cfg, es);
            && r'.core == c && r'.pipe == r.pipe && r'.accepted == r.accepted && r'.answered == r.answered
            && r'.down.scheduling == if outcome.Processed? then r.down.scheduling + multiset(outcome.retries)
                else r.down.scheduling
  {
  }

  lemma RetriesKnown(r: Run, c: Core, outcome: ErrorOutcome)
    requires RInv(r) && OnlyFailures(r.core, c)
    requires outcome.Processed? ==> Refs(r.core.objs, multiset(outcome.retries))
    ensures Refs(c.objs, r.down.scheduling)
    ensures outcome.Processed? ==> Refs(c.objs, r.down.scheduling + multiset(outcome.retries))
  {
    assert forall id <- c.objs :: SameButFailures(r.core.objs[id], c.objs[id]);
  }

  lemma FailuresKeep(r: Run, r': Run)
    requires RInv(r) && Inv(r'.core) && OnlyFailures(r.core, r'.core) && Drift(r'.core) == Drift(r.core)
    requires r'.pipe == r.pipe && r'.accepted == r.accepted && r'.answered == r.answered
    requires Refs(r'.core.objs, r'.down.scheduling)
    ensures RInv(r')
  {
    FailuresOnly(r, r'.core);
    assert forall id <- r.core.objs :: SameButFailures(r.core.objs[id], r'.core.objs[id]);
  }

  lemma FailuresOnly(r: Run, c: Core)
    requires RInv(r) && OnlyFailures(r.core, c)
    ensures Histories(c.objs, r.accepted, r.answered) && WatermarkKnown(c.objs, c.maxAck)
    ensures Markers(c.objs, c.ready, r.pipe.pushing, r.pipe.popping)
  {
    forall x | x in c.objs ensures HistoryOk(c.objs, r.accepted, r.answered, x) {
      assert SameButFailures(r.core.objs[x], c.objs[x]);
      assert HistoryOk(r.core.objs, r.accepted, r.answered, x);
    }
    forall x | x in c.objs ensures MarkerOk(c.objs, c.ready, r.pipe.pushing, r.pipe.popping, x) {
      assert SameButFailures(r.core.objs[x], c.objs[x]);
      assert MarkerOk(r.core.objs, r.core.ready, r.pipe.pushing, r.pipe.popping, x);
    }
    assert forall x <- r.core.objs :: SameButFailures(r.core.objs[x], c.objs[x]);
  }

  lemma ForwardKeeps(r: Run, w: WriteRequest)
    requires RInv(r) && w in r.pipe.hand
    ensures RInv(DoForward(r, w))
  {
  }

  lemma ScheduleKeeps(r: Run, x: Retry)
    requires RInv(r) && x in r.down.scheduling
    ensures RInv(DoSchedule(r, x))
  {
  }

  lemma FireKeeps(r: Run, x: Retry)
    requires RInv(r) && x in r.core.timers
    ensures RInv(DoFire(r, x))
  {
  }

  /** Every interleaving keeps the invariant, and the watermark never decreases. */
  lemma StepKeeps(r: Run, e: Event)
    requires RInv(r) && Enabled(r, e)
    ensures RInv(Step(r, e))
    ensures Step(r, e).core.maxAck.lsn >= r.core.maxAck.lsn
  {
    match e
    case Add(req, id) => AddKeeps(r, req, id);
    case Enqueue(x) => EnqueueKeeps(r, x);
    case Push(id) => PushKeeps(r, id);
    case PopMarker => PopMarkerKeeps(r);
    case Take(id) => TakeKeeps(r, id);
    case Forward(w) => ForwardKeeps(r, w);
    case OnSuccess(es) => OnSuccessKeeps(r, es);
    case Poll => PollKeeps(r);
    case OnError(es) => OnErrorKeeps(r, es);
    case AckSkipped(d) => AckSkippedKeeps(r, d);
    case Schedule(x) => ScheduleKeeps(r, x);
    case Fire(x) => FireKeeps(r, x);
  }
}
