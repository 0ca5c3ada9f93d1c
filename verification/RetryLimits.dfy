/** How often one entry can fail (getFailedEntry and the limits in processErrorResponse), over every
    run of the tracker. */
module RetryLimits {
  import opened WriteQueues
  import opened Wal
  import opened TrackerSpec
  import opened TrackerInvariant
  import opened TrackerRuns
  import opened TrackerTheorems
  import opened TrackerDelivery
  import opened TrackerStranding

  /** What is left of both limits. */
  function Budget(cfg: RetryConfig, failures: map<Offset, Failure>, o: Offset): int
  {
    if o in failures
    then (cfg.maxRetries - failures[o].retries) + (cfg.maxConnectionRetries - failures[o].downStreamDownRetries)
    else cfg.maxRetries + cfg.maxConnectionRetries
  }

  /** Each reported failure of a tracked write uses up budget of that offset and of no other. */
  lemma FailureUsesBudget(c: Core, cfg: RetryConfig, e: ErrorEntry, id: Id)
    requires Inv(c) && id in c.tracking && c.objs[id].point.lsn == e.response.lsn && c.objs[id].pending != {}
    ensures var o := e.response.offset;
            var failures, failures' := c.objs[id].failures, JudgeEntry(c, cfg, e).0.objs[id].failures;
            && Budget(cfg, failures', o) < Budget(cfg, failures, o)
            && (forall p :: p != o ==> Budget(cfg, failures', p) == Budget(cfg, failures, p))
  {
    var found := Find(c, c.tracking, e.response.lsn);
    UniqueLsn(c, found.value, id);
  }

  // ---- counting the tries of a run

  /** The failed entry is about this offset of this write, and is to be tried again. */
  predicate TriedAgain(c: Core, cfg: RetryConfig, e: ErrorEntry, id: Id, o: Offset)
    requires Closed(c)
  {
    var v := JudgeEntry(c, cfg, e).1;
    (v.Again? || v.Dropped?) && Find(c, c.tracking, e.response.lsn) == Some(id) && e.response.offset == o
  }

  /** How many entries of an error response are. */
  function Tries(c: Core, cfg: RetryConfig, es: seq<ErrorEntry>, id: Id, o: Offset): nat
    requires Closed(c)
    decreases |es|
  {
    if es == [] then 0 else
    var (c1, v) := JudgeEntry(c, cfg, es[0]);
    (if TriedAgain(c, cfg, es[0], id, o) then 1 else 0)
    + if v.Missing? || v.ShutDown? then 0 else Tries(c1, cfg, es[1..], id, o)
  }

  ghost function TriesIn(r: Run, events: seq<Event>, id: Id, o: Offset): nat
    decreases |events|
  {
    if events == [] || !Closed(r.core) || !Enabled(r, events[0]) then 0 else
    (if events[0].OnError? then Tries(r.core, r.cfg, events[0].errs, id, o) else 0)
    + TriesIn(Step(r, events[0]), events[1..], id, o)
  }

  // ---- the bound

  function Limit(cfg: RetryConfig): nat
  {
    if cfg.maxRetries + cfg.maxConnectionRetries > 2 then cfg.maxRetries + cfg.maxConnectionRetries - 2 else 0
  }

  function Total(failures: map<Offset, Failure>, o: Offset): nat
  {
    if o in failures then failures[o].retries + failures[o].downStreamDownRetries else 0
  }

  /** `n` tries so far: each one is in the counts of the entry, while there are counts. */
  ghost predicate Bounded(objs: map<Id, Tracked>, cfg: RetryConfig, id: Id, o: Offset, n: nat)
  {
    && n <= Limit(cfg)
    && (id !in objs ==> n == 0)
    && (id in objs && !objs[id].released ==>
          && n <= Total(objs[id].failures, o)
          && (o in objs[id].failures ==> objs[id].failures[o].downStreamDownRetries < cfg.maxConnectionRetries))
  }

  lemma TryBounded(c: Core, cfg: RetryConfig, e: ErrorEntry, id: Id, o: Offset, n: nat)
    requires Inv(c) && cfg.maxConnectionRetries > 0 && Bounded(c.objs, cfg, id, o, n)
    requires !JudgeEntry(c, cfg, e).1.ShutDown?
    ensures Bounded(JudgeEntry(c, cfg, e).0.objs, cfg, id, o, n + if TriedAgain(c, cfg, e, id, o) then 1 else 0)
  {
    var found := Find(c, c.tracking, e.response.lsn);
    if found == Some(id) {
      assert Ok(c, id);
    }
  }

  /** All entries of a response, up to a missing write. */
  lemma {:induction false} TriesBounded(c: Core, cfg: RetryConfig, es: seq<ErrorEntry>, id: Id, o: Offset, n: nat)
    requires Inv(c) && cfg.maxConnectionRetries > 0 && Bounded(c.objs, cfg, id, o, n)
    requires !ProcessErrors(c, cfg, es).1.ShuttingDown?
    ensures Bounded(ProcessErrors(c, cfg, es).0.objs, cfg, id, o, n + Tries(c, cfg, es, id, o))
    decreases |es|
  {
    if es != [] {
      var (c1, v) := JudgeEntry(c, cfg, es[0]);
      TryBounded(c, cfg, es[0], id, o, n);
      if !v.Missing? {
        JudgeKeeps(c, cfg, es[0]);
        TriesBounded(c1, cfg, es[1..], id, o, n + if TriedAgain(c, cfg, es[0], id, o) then 1 else 0);
      }
    }
  }

  /** Every other step leaves the counts of a write alone, or releases it. */
  ghost predicate CountsKept(objs: map<Id, Tracked>, objs': map<Id, Tracked>, id: Id)
  {
    if id in objs then
      id in objs' && (!objs'[id].released ==> !objs[id].released && objs'[id].failures == objs[id].failures)
    else id in objs' ==> objs'[id].failures == map[]
  }

  lemma StepCounts(r: Run, e: Event, id: Id)
    requires RInv(r) && Enabled(r, e) && !e.OnError?
    ensures CountsKept(r.core.objs, Step(r, e).core.objs, id)
  {
    match e
    case Add(req, x) => AddCounts(r, req, x, id);
    case Enqueue(x) => EnqueueCounts(r, x, id);
    case Push(x) =>
    case PopMarker =>
    case Take(x) => TakeCounts(r, x, id);
    case Forward(w) =>
    case OnSuccess(es) => SuccessCounts(r.core, es, id);
    case Poll => AdvanceKeeps(r.core);
    case AckSkipped(d) => SkipCounts(r.core, d, id);
    case Schedule(x) =>
    case Fire(x) =>
  }

  lemma AddCounts(r: Run, req: WriteRequest, x: Id, id: Id)
    requires Inv(r.core) && x !in r.core.objs
    ensures CountsKept(r.core.objs, DoAdd(r, req, x).core.objs, id)
  {
    TrackEffect(r.core, req, x);
  }

  lemma EnqueueCounts(r: Run, x: Retry, id: Id)
    requires x.id in r.core.objs && x in r.pipe.enqueuing
    ensures CountsKept(r.core.objs, DoEnqueue(r, x).core.objs, id)
  {
    EnqueueFrame(r, x);
  }

  lemma TakeCounts(r: Run, x: Id, id: Id)
    requires x in r.core.objs && x in r.pipe.popping
    ensures CountsKept(r.core.objs, DoTake(r, x).core.objs, id)
  {
    TakeFrame(r, x);
  }

  lemma SuccessCounts(c: Core, es: seq<ResponseEntry>, id: Id)
    requires Inv(c)
    ensures CountsKept(c.objs, Success(c, es).objs, id)
  {
    AckAllKeeps(c, es);
    AdvanceKeeps(AckAll(c, es));
    if id in c.objs {
      AckAllEffect(c, es, id);
    }
  }

  lemma SkipCounts(c: Core, d: Delivery, id: Id)
    requires Inv(c)
    ensures CountsKept(c.objs, AckLsn(c, d.lsn, {d.offset}).objs, id)
  {
    AckFrame(c, d.lsn, {d.offset});
    if id in c.objs {
      AckLsnEffect(c, d.lsn, {d.offset}, id);
    }
  }

  lemma KeptBounded(objs: map<Id, Tracked>, objs': map<Id, Tracked>, cfg: RetryConfig, id: Id, o: Offset, n: nat)
    requires Bounded(objs, cfg, id, o, n) && CountsKept(objs, objs', id)
    ensures Bounded(objs', cfg, id, o, n)
  {
  }

  lemma {:induction false} ShutdownStays(r: Run, events: seq<Event>, r': Run)
    requires Runs(r, events, r') && r.shutdown
    ensures r'.shutdown
    decreases |events|
  {
    if events != [] {
      StepShutdown(r, events[0]);
      ShutdownStays(Step(r, events[0]), events[1..], r');
    }
  }

  lemma StepShutdown(r: Run, e: Event)
    requires Closed(r.core) && Enabled(r, e)
    ensures r.shutdown ==> Step(r, e).shutdown
    ensures Step(r, e).cfg == r.cfg
    ensures e.OnError? && ProcessErrors(r.core, r.cfg, e.errs).1.ShuttingDown? ==> Step(r, e).shutdown
    ensures e.OnError? ==> Step(r, e).core == ProcessErrors(r.core, r.cfg, e.errs).0
  {
  }

  lemma {:induction false} RunBounded(r: Run, events: seq<Event>, r': Run, id: Id, o: Offset, n: nat)
    requires RInv(r) && Runs(r, events, r') && !r'.shutdown && r.cfg.maxConnectionRetries > 0
    requires Bounded(r.core.objs, r.cfg, id, o, n)
    ensures n + TriesIn(r, events, id, o) <= Limit(r.cfg)
    decreases |events|
  {
    if events != [] {
      var e, next := events[0], Step(r, events[0]);
      StepKeeps(r, e);
      StepShutdown(r, e);
      if next.shutdown {
        ShutdownStays(next, events[1..], r');
      }
      if e.OnError? {
        TriesBounded(r.core, r.cfg, e.errs, id, o, n);
        RunBounded(next, events[1..], r', id, o, n + Tries(r.core, r.cfg, e.errs, id, o));
      } else {
        StepCounts(r, e, id);
        KeptBounded(r.core.objs, next.core.objs, r.cfg, id, o, n);
        RunBounded(next, events[1..], r', id, o, n);
      }
    }
  }

  /** With a connection limit, over every run that does not stop the application and in any mix of
      failure kinds, an offset of a write is to be tried again at most
      maxRetries + maxConnectionRetries - 2 times. */
  lemma RetriesBounded(cfg: RetryConfig, events: seq<Event>, r: Run, id: Id, o: Offset)
    requires Reachable(cfg, events, r) && cfg.maxConnectionRetries > 0 && !r.shutdown
    ensures TriesIn(Init(cfg), events, id, o) <= Limit(cfg)
  {
    InitOk(cfg);
    RunBounded(Init(cfg), events, r, id, o, 0);
  }

  // ---- when there is no bound

  lemma NeverTried(c: Core, cfg: RetryConfig, e: ErrorEntry)
    requires Inv(c) && cfg.maxRetries <= 1
    ensures !JudgeEntry(c, cfg, e).1.Again? && !JudgeEntry(c, cfg, e).1.Dropped?
  {
    var found := Find(c, c.tracking, e.response.lsn);
    if found.Some? {
      assert Ok(c, found.value);
    }
  }

  lemma {:induction false} NoTries(c: Core, cfg: RetryConfig, es: seq<ErrorEntry>, id: Id, o: Offset)
    requires Inv(c) && cfg.maxRetries <= 1
    ensures Tries(c, cfg, es, id, o) == 0
    decreases |es|
  {
    if es != [] {
      NeverTried(c, cfg, es[0]);
      JudgeKeeps(c, cfg, es[0]);
      NoTries(JudgeEntry(c, cfg, es[0]).0, cfg, es[1..], id, o);
    }
  }

  lemma {:induction false} NoTriesIn(r: Run, events: seq<Event>, id: Id, o: Offset)
    requires RInv(r) && r.cfg.maxRetries <= 1
    ensures TriesIn(r, events, id, o) == 0
    decreases |events|
  {
    if events != [] && Enabled(r, events[0]) {
      StepKeeps(r, events[0]);
      StepShutdown(r, events[0]);
      if events[0].OnError? {
        NoTries(r.core, r.cfg, events[0].errs, id, o);
      }
      NoTriesIn(Step(r, events[0]), events[1..], id, o);
    }
  }

  // ---- retries that are scheduled

  /** The failed entry is about this offset of this write, and its retry is scheduled. */
  predicate Retried(c: Core, cfg: RetryConfig, e: ErrorEntry, id: Id, o: Offset)
    requires Closed(c)
  {
    JudgeEntry(c, cfg, e).1.Again? && TriedAgain(c, cfg, e, id, o)
  }

  function Retries(c: Core, cfg: RetryConfig, es: seq<ErrorEntry>, id: Id, o: Offset): nat
    requires Closed(c)
    decreases |es|
  {
    if es == [] then 0 else
    var (c1, v) := JudgeEntry(c, cfg, es[0]);
    (if Retried(c, cfg, es[0], id, o) then 1 else 0)
    + if v.Missing? || v.ShutDown? then 0 else Retries(c1, cfg, es[1..], id, o)
  }

  ghost function RetriesAt(r: Run, e: Event, id: Id, o: Offset): nat
    requires Closed(r.core)
  {
    if e.OnError? then Retries(r.core, r.cfg, e.errs, id, o) else 0
  }

  ghost function RetriesIn(r: Run, events: seq<Event>, id: Id, o: Offset): nat
    decreases |events|
  {
    if events == [] || !Closed(r.core) || !Enabled(r, events[0]) then 0 else
    RetriesAt(r, events[0], id, o) + RetriesIn(Step(r, events[0]), events[1..], id, o)
  }

  /** A scheduled retry is a try. */
  lemma {:induction false} RetriesAreTries(c: Core, cfg: RetryConfig, es: seq<ErrorEntry>, id: Id, o: Offset)
    requires Inv(c)
    ensures Retries(c, cfg, es, id, o) <= Tries(c, cfg, es, id, o)
    ensures cfg.maxBackoff <= 0 ==> Retries(c, cfg, es, id, o) == 0
    decreases |es|
  {
    if es != [] {
      JudgeKeeps(c, cfg, es[0]);
      RetriesAreTries(JudgeEntry(c, cfg, es[0]).0, cfg, es[1..], id, o);
    }
  }

  lemma {:induction false} RetriesInTries(r: Run, events: seq<Event>, id: Id, o: Offset)
    requires RInv(r)
    ensures RetriesIn(r, events, id, o) <= TriesIn(r, events, id, o)
    ensures r.cfg.maxBackoff <= 0 ==> RetriesIn(r, events, id, o) == 0
    decreases |events|
  {
    if events != [] && Enabled(r, events[0]) {
      StepKeeps(r, events[0]);
      StepShutdown(r, events[0]);
      if events[0].OnError? {
        RetriesAreTries(r.core, r.cfg, events[0].errs, id, o);
      }
      RetriesInTries(Step(r, events[0]), events[1..], id, o);
    }
  }

  lemma RetriesCons(r: Run, e: Event, next: Run, rest: seq<Event>, id: Id, o: Offset)
    requires GoesTo(r, e, next)
    ensures RetriesIn(r, [e] + rest, id, o) == RetriesAt(r, e, id, o) + RetriesIn(next, rest, id, o)
  {
    assert ([e] + rest)[1..] == rest;
  }

  lemma {:induction false} RetriesAfter(r: Run, events: seq<Event>, r': Run, rest: seq<Event>, id: Id, o: Offset)
    requires Genuine(r, events, r') && Passing(events)
    ensures RetriesIn(r, events + rest, id, o) == RetriesIn(r', rest, id, o)
    decreases |events|
  {
    if events == [] {
      assert events + rest == rest;
    } else {
      var next :| GoesTo(r, events[0], next) && Genuine(next, events[1..], r');
      RetriesAfter(next, events[1..], r', rest, id, o);
      RetriesCons(r, events[0], next, events[1..] + rest, id, o);
      Regroup(events, rest);
    }
  }

  // ---- one more round while the downstream is down

  function DownFailure(): ErrorEntry
  {
    ErrorEntry(ResponseEntry(1, 1, 0), Reason(true, true))
  }

  /** The write after `k` failures because the downstream was down. */
  function FailedDown(k: nat): Tracked
  {
    New().(failures := if k == 0 then map[] else map[0 := Failure(1, k)])
  }

  /** It is in flight. */
  function Waiting(cfg: RetryConfig, k: nat): Run
  {
    With(cfg, FailedDown(k), [], 0, Quiet(), multiset{Delivery(1, 0)})
  }

  predicate Endless(cfg: RetryConfig)
  {
    cfg.maxConnectionRetries <= 0 && cfg.maxRetries > 1 && cfg.maxBackoff > 0
  }

  lemma RetryOfOne(k: nat)
    ensures RetryWrite(FailedDown(k), 0) == Some(OneEntry())
  {
    OffsetZero();
    assert EntryAt(OneEntry().entries, 0) == Some(OneEntry().entries[0]);
  }

  lemma OneMore(cfg: RetryConfig, k: nat)
    requires Endless(cfg)
    ensures JudgeEntry(Waiting(cfg, k).core, cfg, DownFailure())
            == (Waiting(cfg, k + 1).core, Again(Retry(0, OneEntry())))
    ensures Retried(Waiting(cfg, k).core, cfg, DownFailure(), 0, 0)
  {
    OffsetZero();
    RetryOfOne(k);
    var t := FailedDown(k);
    assert t.failures[0 := Failure(1, k + 1)] == map[0 := Failure(1, k + 1)];
    assert map[0 := t][0 := FailedDown(k + 1)] == map[0 := FailedDown(k + 1)];
  }

  /** The failure has been judged, and its retry is scheduled, waits and is on its way again. */
  function Judged(cfg: RetryConfig, k: nat): Run
  {
    With(cfg, FailedDown(k), [], 0, Quiet(), multiset{}).(
      down := Downstream(multiset{}, multiset{}, multiset{Retry(0, OneEntry())}))
  }

  function OnTimer(cfg: RetryConfig, k: nat): Run
  {
    var r := With(cfg, FailedDown(k), [], 0, Quiet(), multiset{});
    r.(core := r.core.(timers := multiset{Retry(0, OneEntry())}))
  }

  function Returned(cfg: RetryConfig, k: nat): Run
  {
    With(cfg, FailedDown(k), [], 0, Quiet().(enqueuing := multiset{Retry(0, OneEntry())}), multiset{})
  }

  lemma FailsDown(cfg: RetryConfig, k: nat)
    requires Endless(cfg)
    ensures GoesTo(Waiting(cfg, k), OnError([DownFailure()]), Judged(cfg, k + 1))
    ensures RetriesAt(Waiting(cfg, k), OnError([DownFailure()]), 0, 0) == 1
  {
    OneMore(cfg, k);
    OneAnswered(DownFailure());
    assert [DownFailure()][1..] == [] && [Retry(0, OneEntry())] + [] == [Retry(0, OneEntry())];
    assert Retries(Waiting(cfg, k + 1).core, cfg, [], 0, 0) == 0;
  }

  lemma Reschedules(cfg: RetryConfig, k: nat)
    ensures GoesTo(Judged(cfg, k), Schedule(Retry(0, OneEntry())), OnTimer(cfg, k))
    ensures GoesTo(OnTimer(cfg, k), Fire(Retry(0, OneEntry())), Returned(cfg, k))
  {
    PutBack(multiset{}, Retry(0, OneEntry()));
  }

  /** A failure, its timer, and the way back to the writer. */
  lemma Round(cfg: RetryConfig, k: nat, rest: seq<Event>, r: Run) returns (events: seq<Event>)
    requires Endless(cfg) && Genuine(Waiting(cfg, k + 1), rest, r)
    ensures Genuine(Waiting(cfg, k), events, r)
    ensures RetriesIn(Waiting(cfg, k), events, 0, 0) == 1 + RetriesIn(Waiting(cfg, k + 1), rest, 0, 0)
  {
    var fail, x := OnError([DownFailure()]), Retry(0, OneEntry());
    OffsetZero();
    FailsDown(cfg, k);
    Reschedules(cfg, k + 1);
    TwoSteps(Judged(cfg, k + 1), Schedule(x), OnTimer(cfg, k + 1), Fire(x), Returned(cfg, k + 1));
    var sent := Sends(cfg, FailedDown(k + 1));
    GenuineConcat(Judged(cfg, k + 1), [Schedule(x), Fire(x)], Returned(cfg, k + 1), sent, Waiting(cfg, k + 1));
    var back := [Schedule(x), Fire(x)] + sent;
    GenuineConcat(Judged(cfg, k + 1), back, Waiting(cfg, k + 1), rest, r);
    RetriesAfter(Judged(cfg, k + 1), back, Waiting(cfg, k + 1), rest, 0, 0);
    GenuineCons(Waiting(cfg, k), fail, Judged(cfg, k + 1), back + rest, r);
    RetriesCons(Waiting(cfg, k), fail, Judged(cfg, k + 1), back + rest, 0, 0);
    events := [fail] + (back + rest);
  }

  /** A genuine run with `n` retries of the one entry. */
  ghost predicate RetriesTo(r: Run, events: seq<Event>, r': Run, n: nat)
  {
    Genuine(r, events, r') && RetriesIn(r, events, 0, 0) == n
  }

  lemma NoRetries(r: Run)
    ensures RetriesTo(r, [], r, 0)
  {
  }

  lemma RoundMore(cfg: RetryConfig, k: nat, rest: seq<Event>, r: Run, n: nat) returns (events: seq<Event>)
    requires Endless(cfg) && RetriesTo(Waiting(cfg, k + 1), rest, r, n)
    ensures RetriesTo(Waiting(cfg, k), events, r, n + 1)
  {
    events := Round(cfg, k, rest, r);
  }

  lemma {:induction false} KeepsFailing(cfg: RetryConfig, k: nat, m: nat) returns (events: seq<Event>)
    requires Endless(cfg) && k <= m
    ensures RetriesTo(Waiting(cfg, k), events, Waiting(cfg, m), m - k)
    decreases m - k
  {
    if k == m {
      events := [];
      NoRetries(Waiting(cfg, k));
    } else {
      events := KeepsFailing(cfg, k + 1, m);
      events := RoundMore(cfg, k, events, Waiting(cfg, m), m - k - 1);
    }
  }

  lemma PassingTo(r: Run, events: seq<Event>, mid: Run, rest: seq<Event>, r': Run, n: nat)
    requires Genuine(r, events, mid) && Passing(events) && RetriesTo(mid, rest, r', n)
    ensures RetriesTo(r, events + rest, r', n)
  {
    GenuineConcat(r, events, mid, rest, r');
    RetriesAfter(r, events, mid, rest, 0, 0);
  }

  lemma AddTo(r: Run, e: Event, next: Run, rest: seq<Event>, r': Run, n: nat)
    requires e.Add? && GoesTo(r, e, next) && RetriesTo(next, rest, r', n)
    ensures RetriesTo(r, [e] + rest, r', n)
  {
    GenuineCons(r, e, next, rest, r');
    RetriesCons(r, e, next, rest, 0, 0);
  }

  /** A run in which writers answer what they were handed and nothing is shut down has that many retries. */
  ghost predicate RetriedOften(cfg: RetryConfig, events: seq<Event>, r: Run, id: Id, o: Offset, n: nat)
  {
    Genuine(Init(cfg), events, r) && !r.shutdown && RetriesIn(Init(cfg), events, id, o) >= n
  }

  ghost predicate CanRetry(cfg: RetryConfig, n: nat)
  {
    exists events, r, id, o :: RetriedOften(cfg, events, r, id, o, n)
  }

  lemma FailsForever(cfg: RetryConfig, n: nat)
    requires Endless(cfg)
    ensures CanRetry(cfg, n)
  {
    Starts(cfg);
    var sent := Sends(cfg, FailedDown(0));
    var failing := KeepsFailing(cfg, 0, n);
    PassingTo(Returned(cfg, 0), sent, Waiting(cfg, 0), failing, Waiting(cfg, n), n);
    AddTo(Init(cfg), Add(OneEntry(), 0), Returned(cfg, 0), sent + failing, Waiting(cfg, n), n);
    assert RetriedOften(cfg, [Add(OneEntry(), 0)] + (sent + failing), Waiting(cfg, n), 0, 0, n);
  }

  lemma Starts(cfg: RetryConfig)
    ensures GoesTo(Init(cfg), Add(OneEntry(), 0), Returned(cfg, 0)) && FailedDown(0).pending == {0}
  {
    Adds(cfg);
    OffsetZero();
  }

  lemma RetriedSeldom(cfg: RetryConfig, events: seq<Event>, r: Run, id: Id, o: Offset, n: nat)
    requires !Endless(cfg) && RetriedOften(cfg, events, r, id, o, n)
    ensures n <= Limit(cfg)
  {
    InitOk(cfg);
    GenuineRuns(Init(cfg), events, r);
    RetriesInTries(Init(cfg), events, id, o);
    if cfg.maxConnectionRetries > 0 {
      RetriesBounded(cfg, events, r, id, o);
    } else if cfg.maxRetries <= 1 {
      NoTriesIn(Init(cfg), events, id, o);
    }
  }

  /** An entry can be retried without bound exactly when the connection limit is switched off, more than
      one try is allowed and there is a backoff: it never counts a second retry while the downstream
      stays down. */
  lemma UnboundedExactly(cfg: RetryConfig)
    ensures (forall n: nat :: CanRetry(cfg, n)) <==> Endless(cfg)
  {
    if Endless(cfg) {
      forall n: nat ensures CanRetry(cfg, n) {
        FailsForever(cfg, n);
      }
    } else {
      var n := Limit(cfg) + 1;
      forall events, r, id, o | RetriedOften(cfg, events, r, id, o, n) ensures false {
        RetriedSeldom(cfg, events, r, id, o, n);
      }
      assert !CanRetry(cfg, n);
    }
  }
}
