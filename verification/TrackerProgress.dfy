/** No entry is stranded: while the tracker runs, every pending offset is carried by something
    that will bring it to the writer or to an acknowledgement. */
module TrackerProgress {
  import opened Wal
  import opened TrackerSpec
  import opened TrackerInvariant
  import opened TrackerRuns
  import opened TrackerTheorems

  ghost predicate Covers(m: multiset<Retry>, id: Id, o: Offset)
  {
    exists x :: x in m && x.id == id && o in Offsets(x.write)
  }

  ghost predicate Holds(m: multiset<WriteRequest>, lsn: Lsn, o: Offset)
  {
    exists w :: w in m && w.lsn == lsn && o in Offsets(w)
  }

  ghost predicate Queues(ws: seq<WriteRequest>, o: Offset)
  {
    exists w :: w in ws && o in Offsets(w)
  }

  /** A queued write, a goroutine of the pipeline, the writer, an error handler or a timer has it. */
  ghost predicate Carried(r: Run, id: Id, o: Offset)
    requires id in r.core.objs
  {
    var lsn := r.core.objs[id].point.lsn;
    || Queues(r.core.objs[id].queued, o)
    || Covers(r.pipe.enqueuing, id, o)
    || Holds(r.pipe.hand, lsn, o)
    || Delivery(lsn, o) in r.down.inflight
    || Delivery(lsn, o) in r.down.skipping
    || Covers(r.down.scheduling, id, o)
    || Covers(r.core.timers, id, o)
  }

  ghost predicate CarriedId(r: Run, id: Id)
    requires id in r.core.objs
  {
    forall o <- r.core.objs[id].pending :: Carried(r, id, o)
  }

  ghost predicate NothingStranded(r: Run)
  {
    forall id {:trigger CarriedId(r, id)} :: id in r.core.objs ==> CarriedId(r, id)
  }

  /** Writers acknowledge empty requests at once and never report one as failed. */
  ghost predicate NoEmptyFailures(r: Run, es: seq<ErrorEntry>)
  {
    forall e <- es, id <- r.accepted :: r.accepted[id].lsn == e.response.lsn ==> r.accepted[id].entries != []
  }

  ghost predicate Fair(r: Run, e: Event)
  {
    e.OnError? ==> NoEmptyFailures(r, e.errs)
  }

  /** Failed entries are scheduled again, or no failure is ever to be tried again. */
  predicate Redelivers(cfg: RetryConfig)
  {
    cfg.maxBackoff > 0 || cfg.maxRetries <= 1
  }

  // ---- error responses

  ghost predicate Reported(es: seq<ErrorEntry>, lsn: Lsn, o: Offset)
  {
    exists e :: e in es && e.response.lsn == lsn && e.response.offset == o
  }

  /** What one failed entry of a pending offset turns into. */
  lemma JudgedCarries(c: Core, cfg: RetryConfig, e: ErrorEntry, id: Id)
    requires Inv(c) && Redelivers(cfg) && id in c.objs && c.objs[id].point.lsn == e.response.lsn
    requires e.response.offset in c.objs[id].pending && c.objs[id].write.Some? && c.objs[id].write.value.entries != []
    ensures var v := JudgeEntry(c, cfg, e).1;
            || v.ShutDown? || v.Skip?
            || (v.Again? && v.retry.id == id && e.response.offset in Offsets(v.retry.write))
  {
    assert Ok(c, id);
    var found := Find(c, c.tracking, e.response.lsn);
    UniqueLsn(c, found.value, id);
  }

  lemma {:induction false} ErrorCarries(c: Core, cfg: RetryConfig, es: seq<ErrorEntry>, id: Id, o: Offset)
    requires Inv(c) && Redelivers(cfg) && id in c.objs && o in c.objs[id].pending
    requires c.objs[id].write.Some? && c.objs[id].write.value.entries != []
    requires Reported(es, c.objs[id].point.lsn, o)
    ensures var outcome := ProcessErrors(c, cfg, es).1;
            outcome.Processed? ==> Delivery(c.objs[id].point.lsn, o) in Deliveries(outcome.skips)
                                   || Covers(multiset(outcome.retries), id, o)
    decreases |es|
  {
    JudgeKeeps(c, cfg, es[0]);
    JudgeEffect(c, cfg, es[0]);
    var (c1, v) := JudgeEntry(c, cfg, es[0]);
    assert SameButFailures(c.objs[id], c1.objs[id]);
    var lsn := c.objs[id].point.lsn;
    if es[0].response.lsn == lsn && es[0].response.offset == o {
      JudgedCarries(c, cfg, es[0], id);
      FirstCarried(c, cfg, es, id, lsn, o);
    } else {
      assert Reported(es[1..], lsn, o) by {
        var e :| e in es && e.response.lsn == lsn && e.response.offset == o;
        assert e in es[1..];
      }
      ErrorCarries(c1, cfg, es[1..], id, o);
      LaterCarried(c, cfg, es, id, lsn, o);
    }
  }

  lemma FirstCarried(c: Core, cfg: RetryConfig, es: seq<ErrorEntry>, id: Id, lsn: Lsn, o: Offset)
    requires Closed(c) && es != [] && DeliveryOf(es[0].response) == Delivery(lsn, o)
    requires var v := JudgeEntry(c, cfg, es[0]).1;
             v.ShutDown? || v.Skip? || (v.Again? && v.retry.id == id && o in Offsets(v.retry.write))
    ensures var outcome := ProcessErrors(c, cfg, es).1;
            outcome.Processed? ==>
              Delivery(lsn, o) in Deliveries(outcome.skips) || Covers(multiset(outcome.retries), id, o)
  {
    var outcome := ProcessErrors(c, cfg, es).1;
    var v := JudgeEntry(c, cfg, es[0]).1;
    if outcome.Processed? && v.Again? {
      assert v.retry in multiset(outcome.retries);
    }
  }

  lemma LaterCarried(c: Core, cfg: RetryConfig, es: seq<ErrorEntry>, id: Id, lsn: Lsn, o: Offset)
    requires Closed(c) && es != []
    requires var outcome := ProcessErrors(JudgeEntry(c, cfg, es[0]).0, cfg, es[1..]).1;
             outcome.Processed? ==>
              Delivery(lsn, o) in Deliveries(outcome.skips) || Covers(multiset(outcome.retries), id, o)
    ensures var outcome := ProcessErrors(c, cfg, es).1;
            outcome.Processed? ==>
              Delivery(lsn, o) in Deliveries(outcome.skips) || Covers(multiset(outcome.retries), id, o)
  {
    if ProcessErrors(c, cfg, es).1.Processed? {
      ErrorsOutcome(c, cfg, es);
      var rest, all := ProcessErrors(JudgeEntry(c, cfg, es[0]).0, cfg, es[1..]).1, ProcessErrors(c, cfg, es).1;
      if Delivery(lsn, o) !in Deliveries(rest.skips) {
        CoversMore(rest.retries, all.retries, id, o);
      }
    }
  }

  lemma CoversMore(retries: seq<Retry>, all: seq<Retry>, id: Id, o: Offset)
    requires Covers(multiset(retries), id, o) && (all == retries || (all != [] && all[1..] == retries))
    ensures Covers(multiset(all), id, o)
  {
    var x :| x in multiset(retries) && x.id == id && o in Offsets(x.write);
    assert x in retries && x in all;
  }

  lemma {:induction false} DeliveriesMember(es: seq<ResponseEntry>, d: Delivery)
    requires d in Deliveries(es)
    ensures exists e :: e in es && DeliveryOf(e) == d
  {
    if DeliveryOf(es[0]) != d {
      DeliveriesMember(es[1..], d);
      var e :| e in es[1..] && DeliveryOf(e) == d;
      assert e in es;
    } else {
      assert es[0] in es;
    }
  }

  lemma {:induction false} ResponsesMember(es: seq<ErrorEntry>, d: Delivery)
    requires d in Deliveries(Responses(es))
    ensures Reported(es, d.lsn, d.offset)
  {
    if DeliveryOf(es[0].response) != d {
      assert Responses(es)[1..] == Responses(es[1..]);
      ResponsesMember(es[1..], d);
      var e :| e in es[1..] && e.response.lsn == d.lsn && e.response.offset == d.offset;
      assert e in es;
    } else {
      assert es[0] in es;
    }
  }

  // ---- the steps

  lemma EnqueueCarries(r: Run, x: Retry, id: Id, o: Offset)
    requires RInv(r) && x in r.pipe.enqueuing && id in r.core.objs && o in r.core.objs[id].pending
    requires Carried(r, id, o)
    ensures Carried(DoEnqueue(r, x), id, o)
  {
    var r' := DoEnqueue(r, x);
    assert Ok(r.core, id);
    if Queues(r.core.objs[id].queued, o) {
      var w :| w in r.core.objs[id].queued && o in Offsets(w);
      assert w in r'.core.objs[id].queued;
    } else if x.id == id && o in Offsets(x.write) {
      assert o in r.core.objs[id].pending * Offsets(x.write);
      assert r'.core.objs[id].queued[|r.core.objs[id].queued|] == x.write;
      assert x.write in r'.core.objs[id].queued;
    } else if Covers(r.pipe.enqueuing, id, o) {
      var y :| y in r.pipe.enqueuing && y.id == id && o in Offsets(y.write);
      assert y in r'.pipe.enqueuing;
    }
  }

  lemma TakeCarries(r: Run, taken: Id, id: Id, o: Offset)
    requires RInv(r) && taken in r.pipe.popping && id in r.core.objs && o in r.core.objs[id].pending
    requires Carried(r, id, o)
    ensures Carried(DoTake(r, taken), id, o)
  {
    var r' := DoTake(r, taken);
    assert Ok(r.core, id);
    var t := r.core.objs[id];
    if Queues(t.queued, o) {
      var w :| w in t.queued && o in Offsets(w);
      if taken == id {
        if w == t.queued[0] {
          assert w in r'.pipe.hand;
        } else {
          assert w in t.queued[1..];
        }
      }
    } else if Holds(r.pipe.hand, t.point.lsn, o) {
      var w :| w in r.pipe.hand && w.lsn == t.point.lsn && o in Offsets(w);
      assert w in r'.pipe.hand;
    }
  }

  lemma ForwardCarries(r: Run, w: WriteRequest, id: Id, o: Offset)
    requires RInv(r) && w in r.pipe.hand && id in r.core.objs
    requires Carried(r, id, o)
    ensures Carried(DoForward(r, w), id, o)
  {
    var r' := DoForward(r, w);
    var lsn := r.core.objs[id].point.lsn;
    if Holds(r.pipe.hand, lsn, o) {
      var v :| v in r.pipe.hand && v.lsn == lsn && o in Offsets(v);
      if v == w {
        assert Delivery(lsn, o) in Handed(w);
      } else {
        assert v in r'.pipe.hand;
      }
    }
  }

  lemma SuccessCarries(r: Run, es: seq<ResponseEntry>, id: Id, o: Offset)
    requires RInv(r) && id in r.core.objs && Carried(r, id, o)
    requires o in AckAll(r.core, es).objs[id].pending
    ensures id in DoSuccess(r, es).core.objs && Carried(DoSuccess(r, es), id, o)
  {
    AckAllKeeps(r.core, es);
    AckAllFrame(r.core, es);
    AckAllEffect(r.core, es, id);
    AdvanceKeeps(AckAll(r.core, es));
    var r' := DoSuccess(r, es);
    var lsn := r.core.objs[id].point.lsn;
    assert Ok(r'.core, id);
    assert o !in AckedAt(es, lsn);
    if Delivery(lsn, o) in r.down.inflight && Delivery(lsn, o) in Deliveries(es) {
      DeliveriesMember(es, Delivery(lsn, o));
    }
  }

  lemma SkipCarries(r: Run, d: Delivery, id: Id, o: Offset)
    requires RInv(r) && id in r.core.objs && Carried(r, id, o)
    requires o in DoAckSkipped(r, d).core.objs[id].pending
    ensures Carried(DoAckSkipped(r, d), id, o)
  {
    AckLsnKeeps(r.core, d.lsn, {d.offset});
    AckLsnEffect(r.core, d.lsn, {d.offset}, id);
    AckFrame(r.core, d.lsn, {d.offset});
    assert Ok(DoAckSkipped(r, d).core, id);
  }

  lemma ErrorStepCarries(r: Run, es: seq<ErrorEntry>, id: Id, o: Offset)
    requires RInv(r) && id in r.core.objs && o in r.core.objs[id].pending && Carried(r, id, o)
    requires Redelivers(r.cfg) && NoEmptyFailures(r, es)
    requires !DoError(r, es).shutdown && ProcessErrors(r.core, r.cfg, es).1.Processed?
    ensures id in DoError(r, es).core.objs && Carried(DoError(r, es), id, o)
  {
    var r' := DoError(r, es);
    var lsn := r.core.objs[id].point.lsn;
    var outcome := ProcessErrors(r.core, r.cfg, es).1;
    ErrorsEffect(r.core, r.cfg, es);
    assert SameButFailures(r.core.objs[id], r'.core.objs[id]);
    if Delivery(lsn, o) in r.down.inflight && Delivery(lsn, o) in Deliveries(Responses(es)) {
      ResponsesMember(es, Delivery(lsn, o));
      assert Ok(r.core, id) && HistoryOk(r.core.objs, r.accepted, r.answered, id);
      ErrorCarries(r.core, r.cfg, es, id, o);
      MoreCovered(r.down.scheduling, multiset(outcome.retries), id, o);
    } else {
      MoreCovered(r.down.scheduling, multiset(outcome.retries), id, o);
    }
  }

  lemma MoreCovered(a: multiset<Retry>, b: multiset<Retry>, id: Id, o: Offset)
    ensures Covers(a, id, o) || Covers(b, id, o) ==> Covers(a + b, id, o)
  {
    if Covers(a, id, o) {
      var x :| x in a && x.id == id && o in Offsets(x.write);
      assert x in a + b;
    } else if Covers(b, id, o) {
      var x :| x in b && x.id == id && o in Offsets(x.write);
      assert x in a + b;
    }
  }

  lemma FewerCovered(a: multiset<Retry>, x: Retry, id: Id, o: Offset)
    ensures Covers(a, id, o) ==> Covers(a - multiset{x}, id, o) || (x.id == id && o in Offsets(x.write))
  {
    if Covers(a, id, o) && !(x.id == id && o in Offsets(x.write)) {
      var y :| y in a && y.id == id && o in Offsets(y.write);
      assert y in a - multiset{x};
    }
  }

  lemma AddCarries(r: Run, req: WriteRequest, id: Id, x: Id, o: Offset)
    requires RInv(r) && id !in r.core.objs && x in DoAdd(r, req, id).core.objs
    requires x in r.core.objs ==> Carried(r, x, o)
    requires o in DoAdd(r, req, id).core.objs[x].pending
    ensures Carried(DoAdd(r, req, id), x, o)
  {
    TrackEffect(r.core, req, id);
    var todo := Track(r.core, req, id).1;
    var r' := DoAdd(r, req, id);
    if x == id {
      assert todo.value in r'.pipe.enqueuing;
    } else if todo.Some? {
      MoreCovered(r.pipe.enqueuing, multiset{todo.value}, x, o);
    }
  }

  lemma SelfCovered(x: Retry)
    ensures forall o <- Offsets(x.write) :: Covers(multiset{x}, x.id, o)
  {
    assert x in multiset{x};
  }

  ghost predicate Same(r: Run, r': Run)
  {
    && r'.core.objs.Keys == r.core.objs.Keys
    && forall id <- r.core.objs :: r'.core.objs[id].pending <= r.core.objs[id].pending
  }

  /** Whatever was pending and carried still is. */
  lemma AllCarried(r: Run, r': Run)
    requires NothingStranded(r) && Same(r, r')
    requires forall id <- r.core.objs, o <- r'.core.objs[id].pending :: Carried(r, id, o) ==> Carried(r', id, o)
    ensures NothingStranded(r')
  {
    forall id | id in r'.core.objs ensures CarriedId(r', id) { assert CarriedId(r, id); }
  }

  lemma EnqueueStrandsNothing(r: Run, x: Retry)
    requires RInv(r) && NothingStranded(r) && x in r.pipe.enqueuing
    ensures NothingStranded(DoEnqueue(r, x))
  {
    var r' := DoEnqueue(r, x);
    forall id, o | id in r.core.objs && o in r'.core.objs[id].pending && Carried(r, id, o) ensures Carried(r', id, o) {
      EnqueueCarries(r, x, id, o);
    }
    AllCarried(r, r');
  }

  lemma TakeStrandsNothing(r: Run, taken: Id)
    requires RInv(r) && NothingStranded(r) && taken in r.pipe.popping
    ensures NothingStranded(DoTake(r, taken))
  {
    var r' := DoTake(r, taken);
    forall id, o | id in r.core.objs && o in r'.core.objs[id].pending && Carried(r, id, o) ensures Carried(r', id, o) {
      TakeCarries(r, taken, id, o);
    }
    AllCarried(r, r');
  }

  lemma ForwardStrandsNothing(r: Run, w: WriteRequest)
    requires RInv(r) && NothingStranded(r) && w in r.pipe.hand
    ensures NothingStranded(DoForward(r, w))
  {
    var r' := DoForward(r, w);
    forall id, o | id in r.core.objs && o in r'.core.objs[id].pending && Carried(r, id, o) ensures Carried(r', id, o) {
      ForwardCarries(r, w, id, o);
    }
    AllCarried(r, r');
  }

  lemma ScheduleStrandsNothing(r: Run, x: Retry)
    requires NothingStranded(r)
    ensures NothingStranded(DoSchedule(r, x))
  {
    var r' := DoSchedule(r, x);
    forall id, o | id in r.core.objs && o in r'.core.objs[id].pending && Carried(r, id, o) ensures Carried(r', id, o) {
      MoreCovered(r.core.timers, multiset{x}, id, o);
      FewerCovered(r.down.scheduling, x, id, o);
      SelfCovered(x);
    }
    AllCarried(r, r');
  }

  lemma FireStrandsNothing(r: Run, x: Retry)
    requires NothingStranded(r)
    ensures NothingStranded(DoFire(r, x))
  {
    var r' := DoFire(r, x);
    forall id, o | id in r.core.objs && o in r'.core.objs[id].pending && Carried(r, id, o) ensures Carried(r', id, o) {
      MoreCovered(r.pipe.enqueuing, multiset{x}, id, o);
      FewerCovered(r.core.timers, x, id, o);
      SelfCovered(x);
    }
    AllCarried(r, r');
  }

  /** Steps that touch neither the tracked writes nor a carrier. */
  lemma FrameStrandsNothing(r: Run, r': Run)
    requires NothingStranded(r) && r'.core.objs == r.core.objs && r'.core.timers == r.core.timers && r'.down == r.down
    requires r'.pipe.enqueuing == r.pipe.enqueuing && r'.pipe.hand == r.pipe.hand
    ensures NothingStranded(r')
  {
    AllCarried(r, r');
  }

  lemma AddStrandsNothing(r: Run, req: WriteRequest, id: Id)
    requires RInv(r) && NothingStranded(r) && id !in r.core.objs
    ensures NothingStranded(DoAdd(r, req, id))
  {
    var r' := DoAdd(r, req, id);
    TrackEffect(r.core, req, id);
    forall x | x in r'.core.objs ensures CarriedId(r', x) {
      if x in r.core.objs { assert CarriedId(r, x); }
      forall o | o in r'.core.objs[x].pending ensures Carried(r', x, o) {
        AddCarries(r, req, id, x, o);
      }
    }
  }

  lemma SuccessStrandsNothing(r: Run, es: seq<ResponseEntry>)
    requires RInv(r) && NothingStranded(r)
    ensures NothingStranded(DoSuccess(r, es))
  {
    var r' := DoSuccess(r, es);
    AckAllKeeps(r.core, es);
    AdvanceKeeps(AckAll(r.core, es));
    forall id | id in r.core.objs ensures r'.core.objs[id].pending <= r.core.objs[id].pending {
      AckAllEffect(r.core, es, id);
    }
    forall id, o | id in r.core.objs && o in r'.core.objs[id].pending && Carried(r, id, o) ensures Carried(r', id, o) {
      SuccessCarries(r, es, id, o);
    }
    AllCarried(r, r');
  }

  lemma ErrorStrandsNothing(r: Run, es: seq<ErrorEntry>)
    requires RInv(r) && NothingStranded(r) && Redelivers(r.cfg) && NoEmptyFailures(r, es)
    requires !DoError(r, es).shutdown && !DoError(r, es).missing
    ensures NothingStranded(DoError(r, es))
  {
    var r' := DoError(r, es);
    ErrorsEffect(r.core, r.cfg, es);
    ErrorFrame(r, es);
    assert forall id <- r.core.objs :: SameButFailures(r.core.objs[id], r'.core.objs[id]);
    forall id, o | id in r.core.objs && o in r'.core.objs[id].pending && Carried(r, id, o) ensures Carried(r', id, o) {
      ErrorStepCarries(r, es, id, o);
    }
    AllCarried(r, r');
  }

  lemma SkipStrandsNothing(r: Run, d: Delivery)
    requires RInv(r) && NothingStranded(r)
    ensures NothingStranded(DoAckSkipped(r, d))
  {
    var r' := DoAckSkipped(r, d);
    AckFrame(r.core, d.lsn, {d.offset});
    forall id | id in r.core.objs ensures r'.core.objs[id].pending <= r.core.objs[id].pending {
      AckLsnEffect(r.core, d.lsn, {d.offset}, id);
    }
    forall id, o | id in r.core.objs && o in r'.core.objs[id].pending && Carried(r, id, o) ensures Carried(r', id, o) {
      SkipCarries(r, d, id, o);
    }
    AllCarried(r, r');
  }

  lemma StepStrandsNothing(r: Run, e: Event)
    requires RInv(r) && NothingStranded(r) && Redelivers(r.cfg) && Enabled(r, e) && Fair(r, e)
    requires !Step(r, e).shutdown && !Step(r, e).missing
    ensures NothingStranded(Step(r, e))
  {
    match e
    case Add(req, id) => AddStrandsNothing(r, req, id);
    case Enqueue(x) => EnqueueStrandsNothing(r, x);
    case Push(id) => FrameStrandsNothing(r, DoPush(r, id));
    case PopMarker => FrameStrandsNothing(r, DoPopMarker(r));
    case Take(id) => TakeStrandsNothing(r, id);
    case Forward(w) => ForwardStrandsNothing(r, w);
    case OnSuccess(es) => SuccessStrandsNothing(r, es);
    case Poll => AdvanceKeeps(r.core); FrameStrandsNothing(r, r.(core := Advance(r.core)));
    case OnError(es) => ErrorStrandsNothing(r, es);
    case AckSkipped(d) => SkipStrandsNothing(r, d);
    case Schedule(x) => ScheduleStrandsNothing(r, x);
    case Fire(x) => FireStrandsNothing(r, x);
  }

  /** A run in which writers behave and nothing has asked for a shutdown. */
  ghost predicate FairRuns(r: Run, events: seq<Event>, r': Run)
    decreases |events|
  {
    if events == [] then r == r' else
      && Closed(r.core) && Enabled(r, events[0]) && Fair(r, events[0])
      && !Step(r, events[0]).shutdown && !Step(r, events[0]).missing
      && FairRuns(Step(r, events[0]), events[1..], r')
  }

  lemma {:induction false} FairKeeps(r: Run, events: seq<Event>, r': Run)
    requires RInv(r) && NothingStranded(r) && Redelivers(r.cfg) && FairRuns(r, events, r')
    ensures RInv(r') && NothingStranded(r')
    decreases |events|
  {
    if events != [] {
      StepKeeps(r, events[0]);
      StepStrandsNothing(r, events[0]);
      CfgKept(r, events[0]);
      FairKeeps(Step(r, events[0]), events[1..], r');
    }
  }

  lemma CfgKept(r: Run, e: Event)
    requires Closed(r.core) && Enabled(r, e)
    ensures Step(r, e).cfg == r.cfg
  {
  }

  /** Over every fair run, every pending offset of every tracked write is queued, in a goroutine's
      hands, in flight, being skipped, or waits on a timer; and every queued write has its marker. */
  lemma NoEntryStranded(cfg: RetryConfig, events: seq<Event>, r: Run, id: Id, o: Offset)
    requires Redelivers(cfg) && FairRuns(Init(cfg), events, r) && id in r.core.objs && o in r.core.objs[id].pending
    ensures Carried(r, id, o)
    ensures |r.core.objs[id].queued| == multiset(r.core.ready)[id] + r.pipe.pushing[id] + r.pipe.popping[id]
  {
    InitOk(cfg);
    FairKeeps(Init(cfg), events, r);
    assert CarriedId(r, id);
    assert Ok(r.core, id) && MarkerOk(r.core.objs, r.core.ready, r.pipe.pushing, r.pipe.popping, id);
  }
}
