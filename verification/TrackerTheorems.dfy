/** What holds in every reachable state of the LSN tracker. */
module TrackerTheorems {
  import opened Wal
  import opened TrackerSpec
  import opened TrackerInvariant
  import opened TrackerRuns

  /** The events lead from `r` to `r'`, in any order the guards allow. */
  ghost predicate Runs(r: Run, events: seq<Event>, r': Run)
    decreases |events|
  {
    if events == [] then r == r' else
      Closed(r.core) && Enabled(r, events[0]) && Runs(Step(r, events[0]), events[1..], r')
  }

  ghost predicate Reachable(cfg: RetryConfig, events: seq<Event>, r: Run)
  {
    Runs(Init(cfg), events, r)
  }

  lemma InitOk(cfg: RetryConfig)
    ensures RInv(Init(cfg))
  {
  }

  lemma {:induction false} RunsKeep(r: Run, events: seq<Event>, r': Run)
    requires RInv(r) && Runs(r, events, r')
    ensures RInv(r') && r'.core.maxAck.lsn >= r.core.maxAck.lsn
    decreases |events|
  {
    if events != [] {
      StepKeeps(r, events[0]);
      RunsKeep(Step(r, events[0]), events[1..], r');
    }
  }

  ghost predicate FullyAnswered(r: Run, id: Id)
    requires id in r.accepted
  {
    forall o <- Offsets(r.accepted[id]) :: Delivery(r.accepted[id].lsn, o) in r.answered
  }

  /** Safety of the watermark: whatever order writes and responses arrive in, every offset of every
      accepted write at or below it was acknowledged by the writer or skipped, and every write still
      tracked lies above it. */
  lemma WatermarkSafe(cfg: RetryConfig, events: seq<Event>, r: Run, id: Id)
    requires Reachable(cfg, events, r) && id in r.accepted
    ensures id in r.core.objs && r.accepted[id].lsn == r.core.objs[id].point.lsn
    ensures r.accepted[id].lsn <= r.core.maxAck.lsn ==>
      id !in r.core.tracking && r.core.objs[id].pending == {} && FullyAnswered(r, id)
    ensures r.accepted[id].lsn > r.core.maxAck.lsn ==> id in r.core.tracking
    ensures Sorted(r.core.objs, r.core.tracking)
  {
    InitOk(cfg);
    RunsKeep(Init(cfg), events, r);
    assert Ok(r.core, id);
    assert HistoryOk(r.core.objs, r.accepted, r.answered, id);
  }

  /** The watermark is as high as it may be: after a poll it covers every accepted write below
      which nothing is pending. */
  lemma WatermarkExact(cfg: RetryConfig, events: seq<Event>, r: Run, id: Id)
    requires Reachable(cfg, events, r) && id in r.core.objs
    ensures Closed(r.core)
    ensures r.core.objs[id].point.lsn <= Advance(r.core).maxAck.lsn
            <==> forall x <- r.core.objs ::
                   r.core.objs[x].point.lsn <= r.core.objs[id].point.lsn ==> r.core.objs[x].pending == {}
  {
    InitOk(cfg);
    RunsKeep(Init(cfg), events, r);
    AdvanceKeeps(r.core);
    var c := Advance(r.core);
    assert Ok(c, id);
    if c.objs[id].point.lsn <= c.maxAck.lsn {
      forall x | x in c.objs && c.objs[x].point.lsn <= c.objs[id].point.lsn ensures c.objs[x].pending == {} {
        assert Ok(c, x);
      }
    } else {
      var head := c.tracking[0];
      var i :| 0 <= i < |c.tracking| && c.tracking[i] == id;
      if i > 0 { assert Below(c.objs, c.tracking, 0, i); }
      assert c.objs[head].pending != {} && c.objs[head].point.lsn <= c.objs[id].point.lsn;
    }
  }

  /** Entries are released once, when the write has nothing pending; the gauge is the number of
      queued writes once the goroutines on their way to or from the gauge are counted in. */
  lemma LifecycleConserved(cfg: RetryConfig, events: seq<Event>, r: Run)
    requires Reachable(cfg, events, r)
    ensures forall id <- r.core.objs :: r.core.freed[id] == if r.core.objs[id].pending == {} then 1 else 0
    ensures forall id <- r.core.freed :: id in r.core.objs && r.core.objs[id].queued == []
    ensures r.core.gauge + |r.pipe.pushing| == QueuedTotal(r.core) + |r.pipe.hand|
  {
    InitOk(cfg);
    RunsKeep(Init(cfg), events, r);
    forall id | id in r.core.objs
      ensures r.core.freed[id] == if r.core.objs[id].pending == {} then 1 else 0
      ensures id in r.core.freed ==> r.core.objs[id].queued == []
    {
      assert Ok(r.core, id);
    }
  }

  ghost predicate AcceptedLsn(r: Run, lsn: Lsn)
  {
    exists id :: id in r.accepted && r.accepted[id].lsn == lsn
  }

  /** The "write is missing" fatal is reached by a failed entry exactly when its LSN lies above the
      watermark and was never accepted. */
  lemma MissingExactly(r: Run, e: ErrorEntry)
    requires RInv(r)
    ensures JudgeEntry(r.core, r.cfg, e).1.Missing?
            <==> !AcceptedLsn(r, e.response.lsn) && !IsAcknowledged(r.core, e.response.lsn)
  {
    var found := Find(r.core, r.core.tracking, e.response.lsn);
    if found.Some? {
      assert HistoryOk(r.core.objs, r.accepted, r.answered, found.value);
    }
    if AcceptedLsn(r, e.response.lsn) {
      var id :| id in r.accepted && r.accepted[id].lsn == e.response.lsn;
      assert Ok(r.core, id);
      assert HistoryOk(r.core.objs, r.accepted, r.answered, id);
    }
  }

  /** So a response to accepted writes never reaches it, whatever was acknowledged before. */
  lemma {:induction false} MissingUnreachable(r: Run, es: seq<ErrorEntry>)
    requires RInv(r)
    requires forall e <- es :: AcceptedLsn(r, e.response.lsn)
    ensures !ProcessErrors(r.core, r.cfg, es).1.MissingWrite?
    decreases |es|
  {
    if es != [] {
      MissingExactly(r, es[0]);
      assert AcceptedLsn(r, es[0].response.lsn);
      JudgeKeeps(r.core, r.cfg, es[0]);
      JudgeEffect(r.core, r.cfg, es[0]);
      var r' := r.(core := JudgeEntry(r.core, r.cfg, es[0]).0);
      RetriesKnown(r, r'.core, ShuttingDown);
      FailuresKeep(r, r');
      forall e | e in es[1..] ensures AcceptedLsn(r', e.response.lsn) {
        assert AcceptedLsn(r, e.response.lsn);
      }
      MissingUnreachable(r', es[1..]);
    }
  }

  // ---- nothing is dropped

  /** A request is taken in exactly when its LSN is above the watermark and not tracked already. */
  lemma AddAccepts(r: Run, req: WriteRequest, id: Id)
    requires RInv(r) && id !in r.core.objs && req.lsn > 0
    ensures id in DoAdd(r, req, id).accepted
            <==> req.lsn > r.core.maxAck.lsn && !AcceptedLsn(r, req.lsn)
  {
    var found := Find(r.core, r.core.tracking, req.lsn);
    if found.Some? {
      assert HistoryOk(r.core.objs, r.accepted, r.answered, found.value);
    }
    if AcceptedLsn(r, req.lsn) {
      var x :| x in r.accepted && r.accepted[x].lsn == req.lsn;
      assert Ok(r.core, x) && HistoryOk(r.core.objs, r.accepted, r.answered, x);
    }
  }

  /** Requests of a run, in the order they were added. */
  ghost function Added(events: seq<Event>): seq<WriteRequest>
  {
    if events == [] then []
    else if events[0].Add? then [events[0].req] + Added(events[1..])
    else Added(events[1..])
  }

  ghost predicate LsnIn(reqs: seq<WriteRequest>, lsn: Lsn)
  {
    exists i :: 0 <= i < |reqs| && reqs[i].lsn == lsn
  }

  ghost predicate AllBelow(reqs: seq<WriteRequest>, lsn: Lsn)
  {
    forall i :: 0 <= i < |reqs| ==> reqs[i].lsn < lsn
  }

  ghost predicate InOrder(reqs: seq<WriteRequest>, i: nat)
    requires i < |reqs|
  {
    AllBelow(reqs[..i], reqs[i].lsn) || LsnIn(reqs[..i], reqs[i].lsn)
  }

  /** Each LSN is above all before it, or comes again, as after a reconnect. */
  ghost predicate Resends(reqs: seq<WriteRequest>)
  {
    forall i: nat {:trigger InOrder(reqs, i)} :: i < |reqs| ==> InOrder(reqs, i)
  }

  /** The first request of each LSN. */
  ghost function Firsts(reqs: seq<WriteRequest>): set<WriteRequest>
  {
    if reqs == [] then {} else
    var before, q := reqs[..|reqs| - 1], reqs[|reqs| - 1];
    Firsts(before) + if LsnIn(before, q.lsn) then {} else {q}
  }

  ghost function Lsns(reqs: seq<WriteRequest>): set<Lsn>
  {
    set q <- reqs :: q.lsn
  }

  ghost predicate Holds(accepted: map<Id, WriteRequest>, lsn: Lsn)
  {
    exists id :: id in accepted && accepted[id].lsn == lsn
  }

  /** What the tracker has taken in once the requests were added. */
  ghost predicate TakenIn(accepted: map<Id, WriteRequest>, reqs: seq<WriteRequest>)
  {
    && accepted.Values == Firsts(reqs)
    && (forall lsn {:trigger LsnIn(reqs, lsn)} :: LsnIn(reqs, lsn) <==> Holds(accepted, lsn))
    && |accepted| == |Lsns(reqs)|
  }

  /** No transaction is lost: when added LSNs increase along the run except for those that come again,
      and however responses are interleaved, the tracker takes in the first request of each LSN, once. */
  lemma NothingDropped(cfg: RetryConfig, events: seq<Event>, r: Run)
    requires Reachable(cfg, events, r) && Resends(Added(events))
    ensures TakenIn(r.accepted, Added(events))
  {
    InitOk(cfg);
    assert [] + Added(events) == Added(events);
    TakesInAll(Init(cfg), [], events, r);
  }

  ghost predicate IncreasingLsns(reqs: seq<WriteRequest>)
  {
    forall i, j :: 0 <= i < j < |reqs| ==> reqs[i].lsn < reqs[j].lsn
  }

  /** And when nothing comes again, every added request. */
  lemma NothingDroppedInOrder(cfg: RetryConfig, events: seq<Event>, r: Run)
    requires Reachable(cfg, events, r) && IncreasingLsns(Added(events))
    ensures r.accepted.Values == set q <- Added(events)
  {
    var reqs := Added(events);
    forall i: nat | i < |reqs| ensures InOrder(reqs, i) {
      assert AllBelow(reqs[..i], reqs[i].lsn);
    }
    NothingDropped(cfg, events, r);
    IncreasingFirsts(reqs);
  }

  lemma {:induction false} IncreasingFirsts(reqs: seq<WriteRequest>)
    requires IncreasingLsns(reqs)
    ensures Firsts(reqs) == set q <- reqs
  {
    if reqs != [] {
      var before, q := reqs[..|reqs| - 1], reqs[|reqs| - 1];
      IncreasingFirsts(before);
      assert reqs == before + [q];
      FirstsMore(before, q);
    }
  }

  lemma {:induction false} TakesInAll(r: Run, h: seq<WriteRequest>, events: seq<Event>, r': Run)
    requires RInv(r) && Runs(r, events, r') && TakenIn(r.accepted, h) && Resends(h + Added(events))
    ensures TakenIn(r'.accepted, h + Added(events))
    decreases |events|
  {
    if events == [] {
      assert h + Added(events) == h;
    } else {
      StepKeeps(r, events[0]);
      if events[0].Add? {
        var req := events[0].req;
        assert h + Added(events) == h + [req] + Added(events[1..]);
        NextInOrder(h, req, Added(events[1..]));
        AddTakesIn(r, h, req, events[0].id);
        TakesInAll(Step(r, events[0]), h + [req], events[1..], r');
      } else {
        OthersAddNothing(r, events[0]);
        TakesInAll(Step(r, events[0]), h, events[1..], r');
      }
    }
  }

  lemma NextInOrder(h: seq<WriteRequest>, req: WriteRequest, rest: seq<WriteRequest>)
    requires Resends(h + [req] + rest)
    ensures AllBelow(h, req.lsn) || LsnIn(h, req.lsn)
  {
    var all := h + [req] + rest;
    assert InOrder(all, |h|) && all[..|h|] == h && all[|h|] == req;
  }

  lemma AddTakesIn(r: Run, h: seq<WriteRequest>, req: WriteRequest, id: Id)
    requires RInv(r) && TakenIn(r.accepted, h) && id !in r.core.objs && req.lsn > 0
    requires AllBelow(h, req.lsn) || LsnIn(h, req.lsn)
    ensures TakenIn(DoAdd(r, req, id).accepted, h + [req])
  {
    AddEffect(r, req, id);
    if LsnIn(h, req.lsn) {
      ComesAgain(r.accepted, h, req);
    } else {
      AboveAccepted(r.accepted, h, req);
      WatermarkBelow(r, req);
      IsNew(r.accepted, h, req, id);
    }
  }

  lemma AboveAccepted(accepted: map<Id, WriteRequest>, h: seq<WriteRequest>, req: WriteRequest)
    requires TakenIn(accepted, h) && AllBelow(h, req.lsn)
    ensures forall id <- accepted :: accepted[id].lsn < req.lsn
  {
    forall id | id in accepted ensures accepted[id].lsn < req.lsn {
      assert Holds(accepted, accepted[id].lsn);
      assert LsnIn(h, accepted[id].lsn);
    }
  }

  lemma LastAdded(h: seq<WriteRequest>, req: WriteRequest)
    ensures forall lsn {:trigger LsnIn(h + [req], lsn)} :: LsnIn(h + [req], lsn) <==> LsnIn(h, lsn) || lsn == req.lsn
    ensures Lsns(h + [req]) == Lsns(h) + {req.lsn}
  {
    var all := h + [req];
    assert all[|h|] == req;
    forall lsn | LsnIn(h, lsn) ensures LsnIn(all, lsn) {
      var i :| 0 <= i < |h| && h[i].lsn == lsn;
      assert all[i].lsn == lsn;
    }
  }

  lemma ComesAgain(accepted: map<Id, WriteRequest>, h: seq<WriteRequest>, req: WriteRequest)
    requires TakenIn(accepted, h) && LsnIn(h, req.lsn)
    ensures TakenIn(accepted, h + [req])
  {
    LastAdded(h, req);
    assert (h + [req])[..|h|] == h;
    var i :| 0 <= i < |h| && h[i].lsn == req.lsn;
    assert h[i] in h && Lsns(h + [req]) == Lsns(h);
  }

  lemma IsNew(accepted: map<Id, WriteRequest>, h: seq<WriteRequest>, req: WriteRequest, id: Id)
    requires TakenIn(accepted, h) && !LsnIn(h, req.lsn) && id !in accepted
    ensures TakenIn(accepted[id := req], h + [req])
  {
    LastAdded(h, req);
    FirstsMore(h, req);
    AcceptedGrows(accepted, id, req);
    HoldsMore(accepted, req, id);
    assert req.lsn !in Lsns(h);
  }

  lemma FirstsMore(h: seq<WriteRequest>, req: WriteRequest)
    requires !LsnIn(h, req.lsn)
    ensures Firsts(h + [req]) == Firsts(h) + {req}
  {
    assert (h + [req])[..|h|] == h;
  }

  lemma HoldsMore(accepted: map<Id, WriteRequest>, req: WriteRequest, id: Id)
    requires id !in accepted
    ensures forall lsn {:trigger Holds(accepted[id := req], lsn)} ::
      Holds(accepted[id := req], lsn) <==> Holds(accepted, lsn) || lsn == req.lsn
  {
    var more := accepted[id := req];
    assert more[id].lsn == req.lsn;
    forall lsn | Holds(accepted, lsn) ensures Holds(more, lsn) {
      var x :| x in accepted && accepted[x].lsn == lsn;
      assert more[x].lsn == lsn;
    }
  }

  lemma AddEffect(r: Run, req: WriteRequest, id: Id)
    requires RInv(r) && id !in r.core.objs && req.lsn > 0
    ensures id !in r.accepted
    ensures DoAdd(r, req, id).accepted
            == if req.lsn > r.core.maxAck.lsn && !AcceptedLsn(r, req.lsn) then r.accepted[id := req] else r.accepted
  {
    AddAccepts(r, req, id);
  }

  lemma OthersAddNothing(r: Run, e: Event)
    requires Closed(r.core) && Enabled(r, e) && !e.Add?
    ensures Step(r, e).accepted == r.accepted
  {
    match e
    case Enqueue(x) =>
    case Push(id) =>
    case PopMarker =>
    case Take(id) =>
    case Forward(w) =>
    case OnSuccess(es) =>
    case Poll =>
    case OnError(es) => ErrorFrame(r, es);
    case AckSkipped(d) =>
    case Schedule(x) =>
    case Fire(x) =>
  }

  lemma AcceptedGrows(m: map<Id, WriteRequest>, id: Id, req: WriteRequest)
    requires id !in m
    ensures m[id := req].Values == m.Values + {req} && |m[id := req]| == |m| + 1
  {
    assert m[id := req].Keys == m.Keys + {id};
    assert m[id := req][id] == req;
    forall v | v in m.Values ensures v in m[id := req].Values {
      var k :| k in m && m[k] == v;
      assert m[id := req][k] == v;
    }
  }

  lemma WatermarkBelow(r: Run, req: WriteRequest)
    requires RInv(r) && req.lsn > 0 && forall id <- r.accepted :: r.accepted[id].lsn < req.lsn
    ensures req.lsn > r.core.maxAck.lsn && !AcceptedLsn(r, req.lsn)
  {
    if r.core.maxAck.lsn > 0 {
      var id :| id in r.core.objs && r.core.objs[id].point == r.core.maxAck;
      assert HistoryOk(r.core.objs, r.accepted, r.answered, id);
    }
  }
}
