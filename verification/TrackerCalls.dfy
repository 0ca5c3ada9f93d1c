/** A whole call of a tracker method, with nothing in between, is a run of locked sections: what is
    proved of every run holds of the objects in `Tracker`. */
module TrackerCalls {
  import opened Wal
  import opened TrackerSpec
  import opened TrackerRuns
  import opened TrackerTheorems
  import Tracker

  lemma RunsCons(r: Run, e: Event, rest: seq<Event>, r': Run) returns (events: seq<Event>)
    requires Closed(r.core) && Enabled(r, e) && Runs(Step(r, e), rest, r')
    ensures Runs(r, events, r')
  {
    events := [e] + rest;
    assert events[1..] == rest;
  }

  lemma RunsNone(r: Run)
    ensures Runs(r, [], r)
  {
  }

  /** `enqueueReadyWrite` by a goroutine that holds the write. */
  lemma EnqueueIsRun(r: Run, x: Retry) returns (events: seq<Event>, r': Run)
    requires RInv(r) && x in r.pipe.enqueuing && x.id in r.core.objs
    ensures Runs(r, events, r') && r'.core == Tracker.Enqueued(r.core, x.id, x.write)
  {
    var r1 := DoEnqueue(r, x);
    StepKeeps(r, Enqueue(x));
    r' := r1;
    events := [];
    RunsNone(r1);
    if QueueWrite(r.core, x.id, x.write).1 {
      r' := DoPush(r1, x.id);
      RunsNone(r');
      events := RunsCons(r1, Push(x.id), [], r');
    }
    events := RunsCons(r, Enqueue(x), events, r');
  }

  lemma AddIsRun(r: Run, req: WriteRequest, id: Id) returns (events: seq<Event>, r': Run)
    requires RInv(r) && id !in r.core.objs && req.lsn > 0
    ensures Runs(r, events, r') && r'.core == Tracker.Added(r.core, req, id)
  {
    var r1 := DoAdd(r, req, id);
    StepKeeps(r, Add(req, id));
    var todo := Track(r.core, req, id).1;
    events, r' := [], r1;
    RunsNone(r1);
    if todo.Some? {
      events, r' := EnqueueIsRun(r1, todo.value);
    }
    events := RunsCons(r, Add(req, id), events, r');
  }

  lemma TimerIsRun(r: Run, x: Retry) returns (events: seq<Event>, r': Run)
    requires RInv(r) && x in r.core.timers
    ensures x.id in r.core.objs && Runs(r, events, r')
    ensures r'.core == Tracker.Enqueued(Tracker.Unscheduled(r.core, x), x.id, x.write)
  {
    var r1 := DoFire(r, x);
    StepKeeps(r, Fire(x));
    events, r' := EnqueueIsRun(r1, x);
    events := RunsCons(r, Fire(x), events, r');
  }

  lemma {:induction false} PopIsRun(r: Run) returns (events: seq<Event>, r': Run)
    requires RInv(r)
    ensures Runs(r, events, r') && r'.core == Tracker.Popped(r.core).0
    decreases |r.core.ready|
  {
    events, r' := [], r;
    RunsNone(r);
    if r.core.ready != [] {
      var id := r.core.ready[0];
      var r1 := DoPopMarker(r);
      StepKeeps(r, PopMarker);
      var r2 := DoTake(r1, id);
      StepKeeps(r1, Take(id));
      r' := r2;
      RunsNone(r2);
      if TakeQueued(r1.core, id).1.None? {
        events, r' := PopIsRun(r2);
      }
      events := RunsCons(r1, Take(id), events, r');
      events := RunsCons(r, PopMarker, events, r');
    }
  }

  lemma ErrorIsRun(r: Run, es: seq<ErrorEntry>) returns (events: seq<Event>, r': Run)
    requires RInv(r)
    ensures Runs(r, events, r') && r'.core == Tracker.ErrorsHandled(r.core, r.cfg, es).0
  {
    var r1 := DoError(r, es);
    StepKeeps(r, OnError(es));
    events, r' := [], r1;
    RunsNone(r1);
    var outcome := ProcessErrors(r.core, r.cfg, es).1;
    if outcome.Processed? {
      events, r' := FollowUpIsRun(r1, outcome.skips, outcome.retries);
    }
    events := RunsCons(r, OnError(es), events, r');
  }

  /** Acknowledging the skipped entries, then scheduling the retries. */
  lemma {:induction false} FollowUpIsRun(r: Run, skips: seq<ResponseEntry>, retries: seq<Retry>)
    returns (events: seq<Event>, r': Run)
    requires RInv(r) && Deliveries(skips) <= r.down.skipping && multiset(retries) <= r.down.scheduling
    ensures Runs(r, events, r')
    ensures var c := AckAll(r.core, skips); r'.core == c.(timers := c.timers + multiset(retries))
    decreases |skips|
  {
    if skips == [] {
      events, r' := ScheduleIsRun(r, retries);
    } else {
      var d := DeliveryOf(skips[0]);
      assert d in Deliveries(skips);
      var r1 := DoAckSkipped(r, d);
      StepKeeps(r, AckSkipped(d));
      events, r' := FollowUpIsRun(r1, skips[1..], retries);
      events := RunsCons(r, AckSkipped(d), events, r');
    }
  }

  lemma Scheduled(r: Run, retries: seq<Retry>)
    requires retries != [] && multiset(retries) <= r.down.scheduling
    ensures retries[0] in r.down.scheduling
    ensures multiset(retries[1..]) <= DoSchedule(r, retries[0]).down.scheduling
    ensures DoSchedule(r, retries[0]).core.timers + multiset(retries[1..]) == r.core.timers + multiset(retries)
  {
    assert retries == [retries[0]] + retries[1..];
  }

  lemma {:induction false} ScheduleIsRun(r: Run, retries: seq<Retry>) returns (events: seq<Event>, r': Run)
    requires RInv(r) && multiset(retries) <= r.down.scheduling
    ensures Runs(r, events, r')
    ensures r'.core == r.core.(timers := r.core.timers + multiset(retries))
    decreases |retries|
  {
    events, r' := [], r;
    RunsNone(r);
    if retries != [] {
      Scheduled(r, retries);
      StepKeeps(r, Schedule(retries[0]));
      events, r' := ScheduleIsRun(DoSchedule(r, retries[0]), retries[1..]);
      events := RunsCons(r, Schedule(retries[0]), events, r');
    }
  }
}
