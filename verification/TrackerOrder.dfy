/** The order in which writes leave the tracker: markers and the queued writes of a tracked write are first
    in, first out, and so requests that are added one after the other are handed over in that order. */
module TrackerOrder {
  import opened WriteQueues
  import opened Wal
  import opened TrackerSpec
  import opened TrackerInvariant
  import opened TrackerRuns
  import opened TrackerTheorems
  import opened RetryLimits
  import Tracker

  // ---- markers

  /** The markers pushed in a run. */
  function PushedIds(events: seq<Event>): seq<Id>
  {
    if events == [] then [] else (if events[0].Push? then [events[0].pushed] else []) + PushedIds(events[1..])
  }

  ghost function PoppedAt(r: Run, e: Event): seq<Id>
  {
    if e.PopMarker? && r.core.ready != [] then [r.core.ready[0]] else []
  }

  /** And those popped. */
  ghost function PoppedIds(r: Run, events: seq<Event>): seq<Id>
    decreases |events|
  {
    if events == [] || !Closed(r.core) || !Enabled(r, events[0]) then [] else
    PoppedAt(r, events[0]) + PoppedIds(Step(r, events[0]), events[1..])
  }

  lemma OthersKeepReady(r: Run, e: Event)
    requires RInv(r) && Enabled(r, e) && !e.Push? && !e.PopMarker?
    ensures Step(r, e).core.ready == r.core.ready
  {
    match e
    case Add(req, id) => TrackEffect(r.core, req, id);
    case Enqueue(x) => EnqueueFrame(r, x);
    case Take(id) => TakeFrame(r, id);
    case Forward(w) =>
    case OnSuccess(es) =>
      AckAllKeeps(r.core, es);
      AdvanceKeeps(AckAll(r.core, es));
    case Poll => AdvanceKeeps(r.core);
    case OnError(es) => ErrorFrame(r, es);
    case AckSkipped(d) => AckFrame(r.core, d.lsn, {d.offset});
    case Schedule(x) =>
    case Fire(x) =>
  }

  lemma StepReady(r: Run, e: Event)
    requires RInv(r) && Enabled(r, e)
    ensures PoppedAt(r, e) + Step(r, e).core.ready == r.core.ready + if e.Push? then [e.pushed] else []
  {
    if e.Push? {
      assert [] + (r.core.ready + [e.pushed]) == r.core.ready + [e.pushed];
    } else if e.PopMarker? {
      assert [r.core.ready[0]] + r.core.ready[1..] == r.core.ready + [];
    } else {
      OthersKeepReady(r, e);
    }
  }

  /** Over every run, markers are popped in the order they were pushed, and the rest are waiting. */
  lemma {:induction false} MarkersFifo(r: Run, events: seq<Event>, r': Run)
    requires RInv(r) && Runs(r, events, r')
    ensures r.core.ready + PushedIds(events) == PoppedIds(r, events) + r'.core.ready
    decreases |events|
  {
    if events != [] {
      var e, next := events[0], Step(r, events[0]);
      StepKeeps(r, e);
      StepReady(r, e);
      MarkersFifo(next, events[1..], r');
      Chained(r.core.ready, if e.Push? then [e.pushed] else [], PushedIds(events[1..]), PoppedAt(r, e),
              next.core.ready, PoppedIds(next, events[1..]), r'.core.ready);
      PoppedFirst(r, events);
    }
  }

  lemma PoppedFirst(r: Run, events: seq<Event>)
    requires events != [] && Closed(r.core) && Enabled(r, events[0])
    ensures PoppedIds(r, events) == PoppedAt(r, events[0]) + PoppedIds(Step(r, events[0]), events[1..])
  {
  }

  /** What goes in first and then the rest, against what comes out first and then the rest. */
  lemma Chained<T>(before: seq<T>, pushed: seq<T>, more: seq<T>, popped: seq<T>, mid: seq<T>, later: seq<T>,
      after: seq<T>)
    requires popped + mid == before + pushed && mid + more == later + after
    ensures before + (pushed + more) == popped + later + after
  {
    assert before + (pushed + more) == before + pushed + more;
    assert popped + mid + more == popped + (mid + more);
    assert popped + (later + after) == popped + later + after;
  }

  // ---- the queued writes of one tracked write

  ghost predicate Shares(c: Core, id: Id, w: WriteRequest)
  {
    id in c.objs && exists o :: o in c.objs[id].pending && o in Offsets(w)
  }

  /** A write is queued exactly while something of it is pending: one whose offsets were all acknowledged in
      the meantime, as that of a late retry, is not sent again. */
  lemma QueuedExactly(c: Core, id: Id, w: WriteRequest)
    requires Inv(c) && id in c.objs
    ensures QueueWrite(c, id, w).1 <==> Shares(c, id, w)
    ensures !QueueWrite(c, id, w).1 ==> QueueWrite(c, id, w).0 == c
  {
    assert Ok(c, id);
    var t := c.objs[id];
    if o :| o in t.pending && o in Offsets(w) {
      assert o in t.pending * Offsets(w);
    }
    if HasPendingEntries(t, w) {
      var o :| o in t.pending * Offsets(w);
      assert o in t.pending && o in Offsets(w);
    }
  }

  function QueuedOf(objs: map<Id, Tracked>, id: Id): seq<WriteRequest>
  {
    if id in objs then objs[id].queued else []
  }

  ghost function QueuedAt(r: Run, e: Event, id: Id): seq<WriteRequest>
  {
    if e.Enqueue? && e.x.id == id && Shares(r.core, id, e.x.write) then [e.x.write] else []
  }

  ghost function TakenAt(r: Run, e: Event, id: Id): seq<WriteRequest>
  {
    if e.Take? && e.taken == id && QueuedOf(r.core.objs, id) != [] then [QueuedOf(r.core.objs, id)[0]] else []
  }

  /** The writes queued in a tracked write over a run, and those taken from it. */
  ghost function QueuedIn(r: Run, events: seq<Event>, id: Id): seq<WriteRequest>
    decreases |events|
  {
    if events == [] || !Closed(r.core) || !Enabled(r, events[0]) then [] else
    QueuedAt(r, events[0], id) + QueuedIn(Step(r, events[0]), events[1..], id)
  }

  ghost function TakenIn(r: Run, events: seq<Event>, id: Id): seq<WriteRequest>
    decreases |events|
  {
    if events == [] || !Closed(r.core) || !Enabled(r, events[0]) then [] else
    TakenAt(r, events[0], id) + TakenIn(Step(r, events[0]), events[1..], id)
  }

  lemma QueuedFirst(r: Run, events: seq<Event>, id: Id)
    requires events != [] && Closed(r.core) && Enabled(r, events[0])
    ensures QueuedIn(r, events, id) == QueuedAt(r, events[0], id) + QueuedIn(Step(r, events[0]), events[1..], id)
    ensures TakenIn(r, events, id) == TakenAt(r, events[0], id) + TakenIn(Step(r, events[0]), events[1..], id)
  {
  }

  /** The write is there and has not been released. */
  ghost predicate Held(objs: map<Id, Tracked>, id: Id)
  {
    id in objs ==> !objs[id].released
  }

  lemma EnqueueQueues(r: Run, x: Retry, id: Id)
    requires Inv(r.core) && x.id in r.core.objs
    ensures QueuedOf(DoEnqueue(r, x).core.objs, id) == QueuedOf(r.core.objs, id) + QueuedAt(r, Enqueue(x), id)
  {
    QueuedExactly(r.core, x.id, x.write);
    EnqueuedJoins(r.core, x.id, x.write, id);
    WithoutFirst(QueuedOf(r.core.objs, id));
  }

  lemma EnqueuedJoins(c: Core, x: Id, w: WriteRequest, id: Id)
    requires x in c.objs
    ensures var q := QueuedOf(c.objs, id);
      QueuedOf(QueueWrite(c, x, w).0.objs, id) == if x == id && QueueWrite(c, x, w).1 then q + [w] else q
  {
  }

  lemma TakeQueues(r: Run, x: Id, id: Id)
    requires x in r.core.objs
    ensures TakenAt(r, Take(x), id) + QueuedOf(DoTake(r, x).core.objs, id) == QueuedOf(r.core.objs, id)
  {
    var q := QueuedOf(r.core.objs, id);
    TakenLeaves(r.core, x, id);
    WithoutFirst(q);
  }

  lemma TakenLeaves(c: Core, x: Id, id: Id)
    requires x in c.objs
    ensures var q := QueuedOf(c.objs, id);
      QueuedOf(TakeQueued(c, x).0.objs, id) == if x == id && q != [] then q[1..] else q
  {
  }

  lemma WithoutFirst<T>(q: seq<T>)
    ensures [] + q == q == q + [] && (q != [] ==> [q[0]] + q[1..] == q)
  {
  }

  /** Every other step leaves the queue alone, or releases the write. */
  lemma OthersKeepQueue(r: Run, e: Event, id: Id)
    requires RInv(r) && Enabled(r, e) && !e.Enqueue? && !e.Take? && Held(Step(r, e).core.objs, id)
    ensures QueuedOf(Step(r, e).core.objs, id) == QueuedOf(r.core.objs, id)
  {
    match e
    case Add(req, x) => TrackEffect(r.core, req, x);
    case Push(x) =>
    case PopMarker =>
    case Forward(w) =>
    case OnSuccess(es) => SuccessQueues(r.core, es, id);
    case Poll => AdvanceKeeps(r.core);
    case OnError(es) =>
      ErrorsEffect(r.core, r.cfg, es);
      ErrorFrame(r, es);
    case AckSkipped(d) => SkipQueues(r.core, d, id);
    case Schedule(x) =>
    case Fire(x) =>
  }

  lemma SuccessQueues(c: Core, es: seq<ResponseEntry>, id: Id)
    requires Inv(c) && Held(Success(c, es).objs, id)
    ensures QueuedOf(Success(c, es).objs, id) == QueuedOf(c.objs, id)
  {
    AckAllKeeps(c, es);
    AdvanceKeeps(AckAll(c, es));
    if id in c.objs {
      AckAllEffect(c, es, id);
    }
  }

  lemma SkipQueues(c: Core, d: Delivery, id: Id)
    requires Inv(c) && Held(AckLsn(c, d.lsn, {d.offset}).objs, id)
    ensures QueuedOf(AckLsn(c, d.lsn, {d.offset}).objs, id) == QueuedOf(c.objs, id)
  {
    AckFrame(c, d.lsn, {d.offset});
    if id in c.objs {
      AckLsnEffect(c, d.lsn, {d.offset}, id);
    }
  }

  lemma StepQueue(r: Run, e: Event, id: Id)
    requires RInv(r) && Enabled(r, e) && Held(Step(r, e).core.objs, id)
    ensures TakenAt(r, e, id) + QueuedOf(Step(r, e).core.objs, id) == QueuedOf(r.core.objs, id) + QueuedAt(r, e, id)
  {
    WithoutFirst(QueuedOf(r.core.objs, id));
    WithoutFirst(QueuedOf(Step(r, e).core.objs, id));
    if e.Enqueue? {
      EnqueueQueues(r, e.x, id);
    } else if e.Take? {
      TakeQueues(r, e.taken, id);
    } else {
      OthersKeepQueue(r, e, id);
    }
  }

  lemma StaysReleased(r: Run, e: Event, id: Id)
    requires RInv(r) && Enabled(r, e) && Held(Step(r, e).core.objs, id)
    ensures Held(r.core.objs, id)
  {
    if e.OnError? {
      ErrorsEffect(r.core, r.cfg, e.errs);
      ErrorFrame(r, e.errs);
    } else {
      StepCounts(r, e, id);
    }
  }

  lemma {:induction false} HeldBefore(r: Run, events: seq<Event>, r': Run, id: Id)
    requires RInv(r) && Runs(r, events, r') && Held(r'.core.objs, id)
    ensures Held(r.core.objs, id)
    decreases |events|
  {
    if events != [] {
      StepKeeps(r, events[0]);
      HeldBefore(Step(r, events[0]), events[1..], r', id);
      StaysReleased(r, events[0], id);
    }
  }

  /** Over every run, the queued writes of a tracked write that has not been released are taken in the order
      they were queued. */
  lemma {:induction false} QueueFifo(r: Run, events: seq<Event>, r': Run, id: Id)
    requires RInv(r) && Runs(r, events, r') && Held(r'.core.objs, id)
    ensures QueuedOf(r.core.objs, id) + QueuedIn(r, events, id)
            == TakenIn(r, events, id) + QueuedOf(r'.core.objs, id)
    decreases |events|
  {
    if events != [] {
      var e, next := events[0], Step(r, events[0]);
      StepKeeps(r, e);
      HeldBefore(next, events[1..], r', id);
      StepQueue(r, e, id);
      QueueFifo(next, events[1..], r', id);
      Chained(QueuedOf(r.core.objs, id), QueuedAt(r, e, id), QueuedIn(next, events[1..], id), TakenAt(r, e, id),
              QueuedOf(next.core.objs, id), TakenIn(next, events[1..], id), QueuedOf(r'.core.objs, id));
      QueuedFirst(r, events, id);
    }
  }

  // ---- whole calls

  datatype Call = AddCall(req: WriteRequest) | PopCall

  /** The requests that are added. */
  function AddsOf(calls: seq<Call>): seq<WriteRequest>
  {
    if calls == [] then [] else (if calls[0].AddCall? then [calls[0].req] else []) + AddsOf(calls[1..])
  }

  /** A call, with the number the next tracked write gets, and what it hands over. */
  ghost function Called(c: Core, call: Call, id: Id): (Core, seq<WriteRequest>)
    requires Closed(c)
  {
    match call
    case AddCall(req) => (Tracker.Added(c, req, id), [])
    case PopCall => var (d, w) := Tracker.Popped(c); (d, if w.Some? then [w.value] else [])
  }

  ghost function CalledAll(c: Core, calls: seq<Call>, id: Id): (Core, seq<WriteRequest>)
    decreases |calls|
  {
    if calls == [] || !Closed(c) then (c, []) else
    var (d, out) := Called(c, calls[0], id);
    var (e, rest) := CalledAll(d, calls[1..], if calls[0].AddCall? then id + 1 else id);
    (e, out + rest)
  }

  ghost predicate LinedAt(objs: map<Id, Tracked>, ready: seq<Id>, ws: seq<WriteRequest>, i: nat)
  {
    i < |ready| && i < |ws| ==> ready[i] in objs && objs[ready[i]].queued == [ws[i]]
  }

  /** The markers lead, in order, to these writes, one in each tracked write. */
  ghost predicate Lined(c: Core, ws: seq<WriteRequest>)
  {
    && |c.ready| == |ws| && Distinct(c.ready)
    && forall i: nat {:trigger LinedAt(c.objs, c.ready, ws, i)} :: LinedAt(c.objs, c.ready, ws, i)
  }

  /** LSNs above the watermark and everything tracked, and increasing. */
  ghost predicate NewLsns(c: Core, reqs: seq<WriteRequest>)
    requires Closed(c)
  {
    IncreasingLsns(reqs) && forall q <- reqs :: q.lsn > 0 && IsNew(c, q.lsn)
  }

  ghost predicate IsNew(c: Core, lsn: Lsn)
    requires Closed(c)
  {
    c.maxAck.lsn < lsn && forall id <- c.tracking :: c.objs[id].point.lsn < lsn
  }

  ghost predicate Numbers(c: Core, id: Id)
  {
    forall x <- c.objs :: x < id
  }

  lemma AddLines(c: Core, req: WriteRequest, id: Id, ws: seq<WriteRequest>)
    requires Inv(c) && Lined(c, ws) && Numbers(c, id) && req.lsn > 0 && IsNew(c, req.lsn)
    ensures var d := Tracker.Added(c, req, id);
      && Inv(d) && Lined(d, ws + [req]) && Numbers(d, id + 1) && d.maxAck == c.maxAck
      && (forall lsn :: lsn > req.lsn && IsNew(c, lsn) ==> IsNew(d, lsn))
  {
    Tracker.AddedKeepsInv(c, req, id);
    Tracker.AddedCases(c, req, id);
    TrackEffect(c, req, id);
    var t := Tracker.Tracking(c, req, id);
    NewAccepted(req);
    EnqueuedNew(t, id, req);
    var d := Tracker.Added(c, req, id);
    forall i: nat ensures LinedAt(d.objs, d.ready, ws + [req], i) {
      assert LinedAt(c.objs, c.ready, ws, i);
    }
    AddedTracking(c, req, id);
  }

  lemma AddedTracking(c: Core, req: WriteRequest, id: Id)
    requires Inv(c) && id !in c.objs && IsNew(c, req.lsn)
    ensures forall x :: x in InsertByLsn(c.objs, c.tracking, id, req.lsn) <==> x in c.tracking || x == id
  {
    var k := InsertPosition(c, req.lsn, id);
    InsertMembers(c.tracking, k, id);
  }

  lemma NewAccepted(req: WriteRequest)
    ensures Accepts(NewTracked(req), req)
  {
    var o :| o in Offsets(req);
    assert o in NewTracked(req).pending * Offsets(req);
  }

  lemma EnqueuedNew(t: Core, id: Id, req: WriteRequest)
    requires id in t.objs && t.objs[id] == NewTracked(req) && Accepts(NewTracked(req), req)
    ensures Tracker.Enqueued(t, id, req)
            == t.(objs := t.objs[id := NewTracked(req).(queued := [req])], ready := t.ready + [id],
                  gauge := t.gauge + 1)
  {
    assert NewTracked(req).queued + [req] == [req];
  }

  lemma PopLines(c: Core, ws: seq<WriteRequest>)
    requires Inv(c) && Lined(c, ws)
    ensures ws == [] ==> Tracker.Popped(c) == (c, None)
    ensures ws != [] ==>
      var (d, w) := Tracker.Popped(c);
      && w == Some(ws[0]) && Inv(d) && Lined(d, ws[1..]) && d.objs.Keys == c.objs.Keys
      && d == c.(objs := d.objs, ready := c.ready[1..]) && forall x <- c.objs :: d.objs[x].point == c.objs[x].point
  {
    if ws != [] {
      var c1, id := c.(ready := c.ready[1..]), c.ready[0];
      assert LinedAt(c.objs, c.ready, ws, 0);
      ReadyIrrelevant(c, c.ready[1..]);
      TakeQueuedKeeps(c1, id);
      assert [ws[0]][1..] == [];
      var d := Tracker.Popped(c).0;
      forall i: nat ensures LinedAt(d.objs, d.ready, ws[1..], i) {
        assert LinedAt(c.objs, c.ready, ws, i + 1);
      }
    }
  }

  lemma ReadyIrrelevant(c: Core, ready: seq<Id>)
    requires Inv(c) && forall id <- ready :: id in c.ready
    ensures Inv(c.(ready := ready))
  {
    var d := c.(ready := ready);
    assert AllOk(d.objs, d.tracking, d.maxAck, d.freed);
  }

  /** Calls of Add with new increasing LSNs and calls of Pop, in any order and without responses: what Pop
      hands over, followed by what is waiting, is what was waiting followed by what was added. */
  lemma {:induction false} HandedInOrder(c: Core, calls: seq<Call>, id: Id, ws: seq<WriteRequest>)
    returns (rest: seq<WriteRequest>)
    requires Inv(c) && Lined(c, ws) && Numbers(c, id) && NewLsns(c, AddsOf(calls))
    ensures var (d, out) := CalledAll(c, calls, id);
      Inv(d) && Lined(d, rest) && ws + AddsOf(calls) == out + rest
    decreases |calls|, 1
  {
    if calls == [] {
      rest := ws;
      WithoutFirst(ws);
    } else if calls[0].AddCall? {
      rest := AddedInOrder(c, calls, id, ws);
    } else {
      rest := PoppedInOrder(c, calls, id, ws);
    }
  }

  lemma {:induction false} AddedInOrder(c: Core, calls: seq<Call>, id: Id, ws: seq<WriteRequest>)
    returns (rest: seq<WriteRequest>)
    requires Inv(c) && Lined(c, ws) && Numbers(c, id) && NewLsns(c, AddsOf(calls)) && calls != [] && calls[0].AddCall?
    ensures var (d, out) := CalledAll(c, calls, id);
      Inv(d) && Lined(d, rest) && ws + AddsOf(calls) == out + rest
    decreases |calls|, 0
  {
    var req, more := calls[0].req, AddsOf(calls[1..]);
    AddsFirst(calls);
    FirstIsNew(c, req, more);
    AddLines(c, req, id, ws);
    AddedFirstCall(c, calls, id);
    AllNew(c, Tracker.Added(c, req, id), req, more);
    rest := HandedInOrder(Tracker.Added(c, req, id), calls[1..], id + 1, ws + [req]);
    Appended(ws, req, more);
  }

  lemma AddsFirst(calls: seq<Call>)
    requires calls != [] && calls[0].AddCall?
    ensures AddsOf(calls) == [calls[0].req] + AddsOf(calls[1..])
  {
  }

  lemma Appended<T>(ws: seq<T>, x: T, more: seq<T>)
    ensures ws + [x] + more == ws + ([x] + more)
  {
  }

  lemma AllNew(c: Core, d: Core, req: WriteRequest, more: seq<WriteRequest>)
    requires Closed(c) && Closed(d) && IncreasingLsns(more)
    requires forall lsn :: lsn > req.lsn && IsNew(c, lsn) ==> IsNew(d, lsn)
    requires forall q <- more :: q.lsn > req.lsn && IsNew(c, q.lsn)
    ensures NewLsns(d, more)
  {
  }

  lemma AddedFirstCall(c: Core, calls: seq<Call>, id: Id)
    requires Closed(c) && calls != [] && calls[0].AddCall?
    ensures CalledAll(c, calls, id) == CalledAll(Tracker.Added(c, calls[0].req, id), calls[1..], id + 1)
  {
    WithoutFirst(CalledAll(Tracker.Added(c, calls[0].req, id), calls[1..], id + 1).1);
  }

  lemma {:induction false} PoppedInOrder(c: Core, calls: seq<Call>, id: Id, ws: seq<WriteRequest>)
    returns (rest: seq<WriteRequest>)
    requires Inv(c) && Lined(c, ws) && Numbers(c, id) && NewLsns(c, AddsOf(calls)) && calls != [] && calls[0].PopCall?
    ensures var (d, out) := CalledAll(c, calls, id);
      Inv(d) && Lined(d, rest) && ws + AddsOf(calls) == out + rest
    decreases |calls|, 0
  {
    PopLines(c, ws);
    var d := Tracker.Popped(c).0;
    var out, left := if ws == [] then [] else [ws[0]], if ws == [] then [] else ws[1..];
    StillNew(c, d, AddsOf(calls));
    AddsTail(calls);
    rest := HandedInOrder(d, calls[1..], id, left);
    PoppedFirstCall(c, calls, id, ws);
    WithoutFirst(ws);
    OutThenRest(ws, out, left, AddsOf(calls[1..]), CalledAll(d, calls[1..], id).1, rest);
  }

  lemma AddsTail(calls: seq<Call>)
    requires calls != [] && calls[0].PopCall?
    ensures AddsOf(calls) == AddsOf(calls[1..])
  {
  }

  lemma StillNew(c: Core, d: Core, reqs: seq<WriteRequest>)
    requires Closed(c) && Closed(d) && d.tracking == c.tracking && d.maxAck == c.maxAck && NewLsns(c, reqs)
    requires forall x <- c.objs :: x in d.objs && d.objs[x].point == c.objs[x].point
    ensures NewLsns(d, reqs)
  {
  }

  lemma PoppedFirstCall(c: Core, calls: seq<Call>, id: Id, ws: seq<WriteRequest>)
    requires Inv(c) && Lined(c, ws) && calls != [] && calls[0].PopCall?
    ensures var (e, rest) := CalledAll(Tracker.Popped(c).0, calls[1..], id);
      CalledAll(c, calls, id) == (e, (if ws == [] then [] else [ws[0]]) + rest)
  {
    PopLines(c, ws);
  }

  lemma OutThenRest<T>(ws: seq<T>, out: seq<T>, left: seq<T>, adds: seq<T>, later: seq<T>, rest: seq<T>)
    requires ws == out + left && left + adds == later + rest
    ensures ws + adds == out + later + rest
  {
    assert out + left + adds == out + (left + adds);
    assert out + (later + rest) == out + later + rest;
  }

  lemma FirstIsNew(c: Core, req: WriteRequest, more: seq<WriteRequest>)
    requires Closed(c) && NewLsns(c, [req] + more)
    ensures req.lsn > 0 && IsNew(c, req.lsn) && IncreasingLsns(more)
    ensures forall q <- more :: q.lsn > req.lsn && IsNew(c, q.lsn)
  {
    var all := [req] + more;
    assert all[0] == req && req in all;
    assert forall i :: 0 <= i < |more| ==> all[i + 1] == more[i];
    forall q | q in more ensures q.lsn > req.lsn && IsNew(c, q.lsn) {
      var i :| 0 <= i < |more| && more[i] == q;
      assert all[i + 1] == q && q in all;
    }
  }

  /** In every state: Pop drops the markers that lead nowhere, takes the oldest queued write of the first one
      that does not, and finds nothing exactly when there is none. */
  lemma {:induction false} PoppedExactly(c: Core) returns (k: nat)
    requires Closed(c)
    ensures k <= |c.ready| && forall j :: 0 <= j < k ==> c.objs[c.ready[j]].queued == []
    ensures k == |c.ready| ==> Tracker.Popped(c) == (c.(ready := []), None)
    ensures k < |c.ready| ==>
      var id := c.ready[k]; var t := c.objs[id];
      && t.queued != []
      && Tracker.Popped(c)
         == (c.(ready := c.ready[k + 1..], objs := c.objs[id := t.(queued := t.queued[1..])]), Some(t.queued[0]))
    decreases |c.ready|
  {
    if c.ready == [] || c.objs[c.ready[0]].queued != [] {
      k := 0;
    } else {
      var d := c.(ready := c.ready[1..]);
      k := PoppedExactly(d);
      k := k + 1;
      assert k < |c.ready| ==> d.ready[k - 1] == c.ready[k] && d.ready[k..] == c.ready[k + 1..];
    }
  }

  // ---- sending a known request again

  /** A request whose LSN is tracked is sent again, as it was first added, if and only if a failure has been
      recorded for it since; a finished one never is. */
  lemma SentAgainExactly(c: Core, req: WriteRequest, id: Id, known: Id)
    requires Inv(c) && known in c.tracking && c.objs[known].point.lsn == req.lsn
    ensures c.objs[known].failures != map[] ==> c.objs[known].write.Some?
    ensures Track(c, req, id)
            == (c, if c.objs[known].failures != map[] then Some(Retry(known, c.objs[known].write.value)) else None)
  {
    assert Ok(c, known);
    var t := c.objs[known];
    UniqueLsn(c, Find(c, c.tracking, req.lsn).value, known);
    if !t.released {
      var o :| o in t.pending;
      assert o in t.pending * Offsets(t.write.value);
    }
  }

  // ---- commit points

  function PointOf(w: WriteRequest): CommitPoint
  {
    CommitPoint(w.lsn, w.xid)
  }

  ghost predicate PointsOk(objs: map<Id, Tracked>, accepted: map<Id, WriteRequest>)
  {
    forall id <- objs :: id in accepted && objs[id].point == PointOf(accepted[id])
  }

  ghost predicate SamePoints(objs: map<Id, Tracked>, objs': map<Id, Tracked>)
  {
    objs'.Keys == objs.Keys && forall id <- objs :: objs'[id].point == objs[id].point
  }

  lemma OthersKeepPoints(r: Run, e: Event)
    requires RInv(r) && Enabled(r, e) && !e.Add?
    ensures SamePoints(r.core.objs, Step(r, e).core.objs)
  {
    match e
    case Enqueue(x) => EnqueueFrame(r, x);
    case Push(x) =>
    case PopMarker =>
    case Take(x) => TakeFrame(r, x);
    case Forward(w) =>
    case OnSuccess(es) => SuccessPoints(r.core, es);
    case Poll => AdvanceKeeps(r.core);
    case OnError(es) =>
      ErrorsEffect(r.core, r.cfg, es);
      ErrorFrame(r, es);
    case AckSkipped(d) => AckFrame(r.core, d.lsn, {d.offset});
    case Schedule(x) =>
    case Fire(x) =>
  }

  lemma SuccessPoints(c: Core, es: seq<ResponseEntry>)
    requires Inv(c)
    ensures SamePoints(c.objs, Success(c, es).objs)
  {
    AckAllKeeps(c, es);
    AdvanceKeeps(AckAll(c, es));
    forall id | id in c.objs ensures AckAll(c, es).objs[id].point == c.objs[id].point {
      AckAllEffect(c, es, id);
    }
  }

  lemma StepPoints(r: Run, e: Event)
    requires RInv(r) && Enabled(r, e) && PointsOk(r.core.objs, r.accepted)
    ensures PointsOk(Step(r, e).core.objs, Step(r, e).accepted)
  {
    if e.Add? {
      TrackEffect(r.core, e.req, e.id);
    } else {
      OthersKeepPoints(r, e);
      OthersAddNothing(r, e);
    }
  }

  lemma {:induction false} RunPoints(r: Run, events: seq<Event>, r': Run)
    requires RInv(r) && Runs(r, events, r') && PointsOk(r.core.objs, r.accepted)
    ensures PointsOk(r'.core.objs, r'.accepted)
    decreases |events|
  {
    if events != [] {
      StepKeeps(r, events[0]);
      StepPoints(r, events[0]);
      RunPoints(Step(r, events[0]), events[1..], r');
    }
  }

  /** Over every run the watermark is where it started, or the LSN and xid of one accepted request. */
  lemma WatermarkPoint(cfg: RetryConfig, events: seq<Event>, r: Run)
    requires Reachable(cfg, events, r)
    ensures r.core.maxAck.lsn > 0 ==> exists id :: id in r.accepted && r.core.maxAck == PointOf(r.accepted[id])
  {
    InitOk(cfg);
    RunsKeep(Init(cfg), events, r);
    RunPoints(Init(cfg), events, r);
    if r.core.maxAck.lsn > 0 {
      var id :| id in r.core.objs && r.core.objs[id].point == r.core.maxAck;
      assert id in r.accepted;
    }
  }
}
