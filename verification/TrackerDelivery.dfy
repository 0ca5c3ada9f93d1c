/** Runs in which writers answer only what they were handed, and the way of one write to the writer. */
module TrackerDelivery {
  import opened WriteQueues
  import opened Wal
  import opened TrackerSpec
  import opened TrackerRuns
  import opened TrackerTheorems

  /** A response answers deliveries that are in flight. */
  predicate Answers(r: Run, e: Event)
  {
    && (e.OnSuccess? ==> Deliveries(e.oks) <= r.down.inflight)
    && (e.OnError? ==> Deliveries(Responses(e.errs)) <= r.down.inflight)
  }

  ghost predicate GoesTo(r: Run, e: Event, next: Run)
  {
    Closed(r.core) && Enabled(r, e) && Answers(r, e) && Step(r, e) == next
  }

  /** So does every response of the run. */
  ghost predicate Genuine(r: Run, events: seq<Event>, r': Run)
    decreases |events|
  {
    if events == [] then r == r' else
      exists next :: GoesTo(r, events[0], next) && Genuine(next, events[1..], r')
  }

  lemma {:induction false} GenuineRuns(r: Run, events: seq<Event>, r': Run)
    requires Genuine(r, events, r')
    ensures Runs(r, events, r')
    decreases |events|
  {
    if events != [] {
      var next :| GoesTo(r, events[0], next) && Genuine(next, events[1..], r');
      GenuineRuns(next, events[1..], r');
    }
  }

  lemma GenuineCons(r: Run, e: Event, next: Run, rest: seq<Event>, r': Run)
    requires GoesTo(r, e, next) && Genuine(next, rest, r')
    ensures Genuine(r, [e] + rest, r')
  {
    assert ([e] + rest)[1..] == rest;
  }

  lemma {:induction false} GenuineConcat(r: Run, a: seq<Event>, mid: Run, b: seq<Event>, r': Run)
    requires Genuine(r, a, mid) && Genuine(mid, b, r')
    ensures Genuine(r, a + b, r')
    decreases |a|
  {
    if a == [] {
      assert a + b == b;
    } else {
      var next :| GoesTo(r, a[0], next) && Genuine(next, a[1..], mid);
      GenuineConcat(next, a[1..], mid, b, r');
      GenuineCons(r, a[0], next, a[1..] + b, r');
      Regroup(a, b);
    }
  }

  lemma Regroup<T>(a: seq<T>, b: seq<T>)
    requires a != []
    ensures [a[0]] + (a[1..] + b) == a + b
  {
  }

  lemma {:induction false} AddedConcat(a: seq<Event>, b: seq<Event>)
    ensures Added(a + b) == Added(a) + Added(b)
    decreases |a|
  {
    if a == [] {
      assert a + b == b;
    } else {
      assert (a + b)[1..] == a[1..] + b;
      AddedConcat(a[1..], b);
    }
  }

  // ---- the way of a write to the writer

  /** What `Delivers` needs of a write on its way into the queue of its tracked write. */
  ghost predicate Deliverable(r: Run, x: Retry)
  {
    && Closed(r.core) && x in r.pipe.enqueuing && x.id in r.core.objs && r.core.ready == []
    && Accepts(r.core.objs[x.id], x.write) && r.core.objs[x.id].queued == []
  }

  function Queued(r: Run, x: Retry): Run
    requires x.id in r.core.objs
  {
    r.(core := r.core.(objs := r.core.objs[x.id := r.core.objs[x.id].(queued := [x.write])]),
       pipe := r.pipe.(enqueuing := r.pipe.enqueuing - multiset{x}))
  }

  /** Everything of the write is in flight. */
  function Handover(r: Run, x: Retry): Run
  {
    r.(pipe := r.pipe.(enqueuing := r.pipe.enqueuing - multiset{x}),
       down := r.down.(inflight := r.down.inflight + Handed(x.write)))
  }

  /** Neither an add nor a failure. */
  ghost predicate Passing(events: seq<Event>)
  {
    forall e <- events :: !e.Add? && !e.OnError?
  }

  lemma {:induction false} PassingAdds(events: seq<Event>)
    requires Passing(events)
    ensures Added(events) == []
  {
    if events != [] {
      PassingAdds(events[1..]);
    }
  }

  /** The four states on the way. */
  function Pushing(r: Run, x: Retry): Run
    requires x.id in r.core.objs
  {
    var q := Queued(r, x);
    q.(pipe := q.pipe.(pushing := q.pipe.pushing + multiset{x.id}))
  }

  function Marked(r: Run, x: Retry): Run
    requires x.id in r.core.objs
  {
    var q := Queued(r, x);
    q.(core := q.core.(ready := [x.id], gauge := q.core.gauge + 1))
  }

  function Popped(r: Run, x: Retry): Run
    requires x.id in r.core.objs
  {
    var q := Queued(r, x);
    q.(core := q.core.(gauge := q.core.gauge + 1), pipe := q.pipe.(popping := q.pipe.popping + multiset{x.id}))
  }

  function InHand(r: Run, x: Retry): Run
  {
    r.(core := r.core.(gauge := r.core.gauge + 1),
       pipe := r.pipe.(enqueuing := r.pipe.enqueuing - multiset{x}, hand := r.pipe.hand + multiset{x.write}))
  }

  lemma PutBack<T>(m: multiset<T>, x: T)
    ensures m + multiset{x} - multiset{x} == m
  {
  }

  lemma Enqueues(r: Run, x: Retry)
    requires Deliverable(r, x)
    ensures GoesTo(r, Enqueue(x), Pushing(r, x))
  {
    assert r.core.objs[x.id].queued + [x.write] == [x.write];
  }

  lemma Pushes(r: Run, x: Retry)
    requires Deliverable(r, x)
    ensures GoesTo(Pushing(r, x), Push(x.id), Marked(r, x))
  {
    PutBack(r.pipe.pushing, x.id);
    assert [] + [x.id] == [x.id];
  }

  lemma Pops(r: Run, x: Retry)
    requires Deliverable(r, x)
    ensures GoesTo(Marked(r, x), PopMarker, Popped(r, x))
  {
    assert [x.id][1..] == [];
  }

  lemma TakesQueued(objs: map<Id, Tracked>, id: Id, w: WriteRequest, c: Core)
    requires id in objs && objs[id].queued == [] && c.objs == objs[id := objs[id].(queued := [w])]
    ensures TakeQueued(c, id) == (c.(objs := objs), Some(w))
  {
    var t := objs[id];
    assert [w][1..] == [];
    assert t.(queued := [w]).(queued := []) == t;
    assert objs[id := t.(queued := [w])][id := t] == objs;
  }

  lemma Takes(r: Run, x: Retry)
    requires Deliverable(r, x)
    ensures GoesTo(Popped(r, x), Take(x.id), InHand(r, x))
  {
    TakesQueued(r.core.objs, x.id, x.write, Popped(r, x).core);
    PutBack(r.pipe.popping, x.id);
  }

  lemma Forwards(r: Run, x: Retry)
    requires Deliverable(r, x)
    ensures GoesTo(InHand(r, x), Forward(x.write), Handover(r, x))
  {
    PutBack(r.pipe.hand, x.write);
  }

  lemma TwoSteps(r: Run, d: Event, r1: Run, e: Event, r2: Run)
    requires GoesTo(r, d, r1) && GoesTo(r1, e, r2)
    ensures Genuine(r, [d, e], r2)
  {
    assert Genuine(r2, [], r2);
    GenuineCons(r1, e, r2, [], r2);
    GenuineCons(r, d, r1, [e] + [], r2);
    assert [d] + ([e] + []) == [d, e];
  }

  /** Queued, marked, popped and forwarded: the write is in flight and nothing else has changed. */
  lemma Delivers(r: Run, x: Retry) returns (events: seq<Event>)
    requires Deliverable(r, x)
    ensures Genuine(r, events, Handover(r, x)) && Passing(events)
  {
    Enqueues(r, x);
    Pushes(r, x);
    Pops(r, x);
    Takes(r, x);
    Forwards(r, x);
    TwoSteps(r, Enqueue(x), Pushing(r, x), Push(x.id), Marked(r, x));
    TwoSteps(Marked(r, x), PopMarker, Popped(r, x), Take(x.id), InHand(r, x));
    GenuineConcat(r, [Enqueue(x), Push(x.id)], Marked(r, x), [PopMarker, Take(x.id)], InHand(r, x));
    events := [Enqueue(x), Push(x.id)] + [PopMarker, Take(x.id)];
    GenuineLast(r, events, InHand(r, x), Forward(x.write), Handover(r, x));
    events := events + [Forward(x.write)];
  }

  // ---- a write that is added, delivered and acknowledged

  lemma AfterFirstAdd(cfg: RetryConfig, w: WriteRequest) returns (r: Run)
    requires w.lsn > 0
    ensures r == DoAdd(Init(cfg), w, 0)
    ensures r.core == Core(map[0 := NewTracked(w)], [0], CommitPoint(0, 0), [], multiset{}, 0, multiset{})
    ensures r.accepted == map[0 := w]
  {
    r := DoAdd(Init(cfg), w, 0);
    assert InsertByLsn(map[], [], 0, w.lsn) == [0];
  }

  lemma AckedAlone(w: WriteRequest)
    requires w.entries == []
    ensures var c := Core(map[0 := NewTracked(w)], [0], CommitPoint(0, 0), [], multiset{}, 0, multiset{});
            Success(c, [ResponseEntry(w.lsn, w.xid, 0)])
            == Core(map[0 := Release(NewTracked(w))], [], CommitPoint(w.lsn, w.xid), [], multiset{}, 0, multiset{0})
  {
    var c := Core(map[0 := NewTracked(w)], [0], CommitPoint(0, 0), [], multiset{}, 0, multiset{});
    var e := ResponseEntry(w.lsn, w.xid, 0);
    var c1 := AckLsn(c, w.lsn, {0});
    assert c1 == Core(map[0 := Release(NewTracked(w))], [0], CommitPoint(0, 0), [], multiset{}, 0, multiset{0});
    assert AckAll(c, [e]) == c1 by { assert [e][1..] == []; }
    assert AckId(c1, 0, {}) == c1;
    assert Advance(c1) == c1.(tracking := [], maxAck := CommitPoint(w.lsn, w.xid)) by { assert [0][1..] == []; }
  }

  /** The state after the write `w` without entries was added, delivered and acknowledged. */
  function Confirmed(cfg: RetryConfig, w: WriteRequest): Run
  {
    Run(Core(map[0 := Release(NewTracked(w))], [], CommitPoint(w.lsn, w.xid), [], multiset{}, 0, multiset{0}), cfg,
        Pipe(multiset{}, multiset{}, multiset{}, multiset{}), Downstream(multiset{}, multiset{}, multiset{}),
        map[0 := w], {Delivery(w.lsn, 0)}, false, false)
  }

  lemma HandedEmpty(w: WriteRequest)
    requires w.entries == []
    ensures Handed(w) == multiset{Delivery(w.lsn, 0)}
  {
    assert (set o <- Offsets(w) :: Delivery(w.lsn, o)) == {Delivery(w.lsn, 0)};
  }

  /** The states before: added, and in flight. */
  function Entered(cfg: RetryConfig, w: WriteRequest): Run
  {
    Init(cfg).(core := Core(map[0 := NewTracked(w)], [0], CommitPoint(0, 0), [], multiset{}, 0, multiset{}),
               accepted := map[0 := w], pipe := Pipe(multiset{Retry(0, w)}, multiset{}, multiset{}, multiset{}))
  }

  function InFlight(cfg: RetryConfig, w: WriteRequest): Run
  {
    Init(cfg).(core := Core(map[0 := NewTracked(w)], [0], CommitPoint(0, 0), [], multiset{}, 0, multiset{}),
               accepted := map[0 := w], down := Downstream(multiset{Delivery(w.lsn, 0)}, multiset{}, multiset{}))
  }

  lemma AddsFirst(cfg: RetryConfig, w: WriteRequest)
    requires w.entries == [] && w.lsn > 0
    ensures GoesTo(Init(cfg), Add(w, 0), Entered(cfg, w)) && Deliverable(Entered(cfg, w), Retry(0, w))
  {
    var r := AfterFirstAdd(cfg, w);
    assert 0 in NewTracked(w).pending * Offsets(w);
  }

  lemma HandoverFirst(cfg: RetryConfig, w: WriteRequest)
    requires w.entries == []
    ensures Handover(Entered(cfg, w), Retry(0, w)) == InFlight(cfg, w)
  {
    HandedEmpty(w);
    PutBack(multiset{}, Retry(0, w));
  }

  lemma Acknowledges(cfg: RetryConfig, w: WriteRequest)
    requires w.entries == []
    ensures GoesTo(InFlight(cfg, w), OnSuccess([ResponseEntry(w.lsn, w.xid, 0)]), Confirmed(cfg, w))
  {
    var e := ResponseEntry(w.lsn, w.xid, 0);
    AnsweredOne(e);
    SuccessIs(InFlight(cfg, w), [e]);
    AckedAlone(w);
  }

  lemma SuccessIs(r: Run, es: seq<ResponseEntry>)
    requires Closed(r.core) && Deliveries(es) == r.down.inflight
    ensures GoesTo(r, OnSuccess(es), r.(core := Success(r.core, es), down := r.down.(inflight := multiset{}),
        answered := r.answered + set e <- es :: DeliveryOf(e)))
  {
    assert r.down.inflight - Deliveries(es) == multiset{};
  }

  lemma AnsweredOne(e: ResponseEntry)
    ensures Deliveries([e]) == multiset{DeliveryOf(e)} && (set x <- [e] :: DeliveryOf(x)) == {DeliveryOf(e)}
  {
    assert [e][1..] == [] && [e][0] in [e];
  }

  lemma DeliversAndAcks(cfg: RetryConfig, w: WriteRequest) returns (events: seq<Event>)
    requires w.entries == [] && Deliverable(Entered(cfg, w), Retry(0, w))
    ensures Genuine(Entered(cfg, w), events, Confirmed(cfg, w)) && Passing(events)
  {
    var ok := OnSuccess([ResponseEntry(w.lsn, w.xid, 0)]);
    var sent := Delivers(Entered(cfg, w), Retry(0, w));
    HandoverFirst(cfg, w);
    Acknowledges(cfg, w);
    GenuineLast(Entered(cfg, w), sent, InFlight(cfg, w), ok, Confirmed(cfg, w));
    events := sent + [ok];
  }

  lemma Confirms(cfg: RetryConfig, w: WriteRequest) returns (events: seq<Event>)
    requires w.entries == [] && w.lsn > 0
    ensures Genuine(Init(cfg), events, Confirmed(cfg, w)) && Added(events) == [w]
  {
    AddsFirst(cfg, w);
    var rest := DeliversAndAcks(cfg, w);
    GenuineCons(Init(cfg), Add(w, 0), Entered(cfg, w), rest, Confirmed(cfg, w));
    events := [Add(w, 0)] + rest;
    AddedOnce(Add(w, 0), rest);
  }

  lemma GenuineLast(r: Run, events: seq<Event>, mid: Run, e: Event, r': Run)
    requires Genuine(r, events, mid) && GoesTo(mid, e, r')
    ensures Genuine(r, events + [e], r')
  {
    assert Genuine(r', [], r');
    GenuineCons(mid, e, r', [], r');
    assert [e] + [] == [e];
    GenuineConcat(r, events, mid, [e], r');
  }

  lemma AddedOnce(e: Event, rest: seq<Event>)
    requires e.Add? && Passing(rest)
    ensures Added([e] + rest) == [e.req]
  {
    assert ([e] + rest)[1..] == rest;
    PassingAdds(rest);
  }

  /** Out of order a request can be lost: LSN 1 is discarded once LSN 2 was acknowledged. */
  lemma LateLsnIsDropped(cfg: RetryConfig) returns (events: seq<Event>, r: Run, one: WriteRequest)
    ensures Genuine(Init(cfg), events, r) && one in Added(events)
    ensures one !in r.accepted.Values && one.lsn == 1 && r.core.maxAck.lsn == 2
  {
    var two := WriteRequest([], 2, 7, 0);
    one := WriteRequest([], 1, 8, 0);
    r := Confirmed(cfg, two);
    var before := Confirms(cfg, two);
    DroppedAdd(r, one, 1);
    GenuineLast(Init(cfg), before, r, Add(one, 1), r);
    AddedConcat(before, [Add(one, 1)]);
    AddedOnce(Add(one, 1), []);
    assert [Add(one, 1)] + [] == [Add(one, 1)];
    events := before + [Add(one, 1)];
  }

  lemma DroppedAdd(r: Run, req: WriteRequest, id: Id)
    requires Closed(r.core) && id !in r.core.objs && 0 < req.lsn <= r.core.maxAck.lsn
    ensures DoAdd(r, req, id) == r
  {
  }
}
