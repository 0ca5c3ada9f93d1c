/** When an entry can be stranded: a run that loses one, for every configuration that allows it. */
module TrackerStranding {
  import opened WriteQueues
  import opened Wal
  import opened TrackerSpec
  import opened TrackerRuns
  import opened TrackerTheorems
  import opened TrackerProgress
  import opened TrackerDelivery

  function OneEntry(): WriteRequest
  {
    WriteRequest([WriteEntry([], None, "1", Insert, "t", 0)], 1, 1, 0)
  }

  function OneFailure(): ErrorEntry
  {
    ErrorEntry(ResponseEntry(1, 1, 0), Reason(true, false))
  }

  /** The state of a run with that one write. */
  function With(cfg: RetryConfig, t: Tracked, ready: seq<Id>, gauge: int, pipe: Pipe, inflight: multiset<Delivery>): Run
  {
    Run(Core(map[0 := t], [0], CommitPoint(0, 0), ready, multiset{}, gauge, multiset{}), cfg, pipe,
        Downstream(inflight, multiset{}, multiset{}), map[0 := OneEntry()], {}, false, false)
  }

  function Quiet(): Pipe
  {
    Pipe(multiset{}, multiset{}, multiset{}, multiset{})
  }

  function New(): Tracked
  {
    NewTracked(OneEntry())
  }

  lemma OffsetZero()
    ensures Offsets(OneEntry()) == {0} && New().pending == {0}
  {
    var w := OneEntry();
    assert w.entries[0].offset in Offsets(w);
  }

  lemma Adds(cfg: RetryConfig)
    ensures DoAdd(Init(cfg), OneEntry(), 0)
            == With(cfg, New(), [], 0, Quiet().(enqueuing := multiset{Retry(0, OneEntry())}), multiset{})
  {
    assert InsertByLsn(map[], [], 0, 1) == [0];
  }

  /** The write reaches the writer. */
  lemma Sends(cfg: RetryConfig, t: Tracked) returns (events: seq<Event>)
    requires t.pending == {0} && t.queued == [] && !t.released
    ensures Genuine(With(cfg, t, [], 0, Quiet().(enqueuing := multiset{Retry(0, OneEntry())}), multiset{}), events,
        With(cfg, t, [], 0, Quiet(), multiset{Delivery(1, 0)}))
    ensures Passing(events)
  {
    var r := With(cfg, t, [], 0, Quiet().(enqueuing := multiset{Retry(0, OneEntry())}), multiset{});
    OffsetZero();
    assert 0 in t.pending * Offsets(OneEntry());
    events := Delivers(r, Retry(0, OneEntry()));
    HandedOne();
    assert multiset{Retry(0, OneEntry())} - multiset{Retry(0, OneEntry())} == multiset{};
    assert multiset{} + multiset{Delivery(1, 0)} == multiset{Delivery(1, 0)};
  }

  lemma HandedOne()
    ensures Handed(OneEntry()) == multiset{Delivery(1, 0)}
  {
    OffsetZero();
    var w := OneEntry();
    assert (set o <- Offsets(w) :: Delivery(w.lsn, o)) == {Delivery(1, 0)};
  }

  function Failed1(): Tracked
  {
    New().(failures := map[0 := Failure(1, 0)])
  }

  /** The failure is to be tried again, and nothing comes of it. */
  lemma Fails(cfg: RetryConfig)
    requires !Redelivers(cfg)
    ensures DoError(With(cfg, New(), [], 0, Quiet(), multiset{Delivery(1, 0)}), [OneFailure()])
            == With(cfg, Failed1(), [], 0, Quiet(), multiset{})
  {
    var c := With(cfg, New(), [], 0, Quiet(), multiset{Delivery(1, 0)}).core;
    JudgedDropped(cfg, c);
    assert [OneFailure()][1..] == [];
    OneAnswered(OneFailure());
  }

  lemma JudgedDropped(cfg: RetryConfig, c: Core)
    requires !Redelivers(cfg) && c == Core(map[0 := New()], [0], CommitPoint(0, 0), [], multiset{}, 0, multiset{})
    ensures JudgeEntry(c, cfg, OneFailure()) == (c.(objs := map[0 := Failed1()]), Dropped)
  {
    OffsetZero();
    assert map[0 := New()][0 := Failed1()] == map[0 := Failed1()];
  }

  /** Without failures a run is fair. */
  lemma {:induction false} PassingFair(r: Run, events: seq<Event>, r': Run, rest: seq<Event>, r'': Run)
    requires Genuine(r, events, r') && Passing(events) && !r.shutdown && !r.missing && FairRuns(r', rest, r'')
    ensures FairRuns(r, events + rest, r'')
    decreases |events|
  {
    if events == [] {
      assert events + rest == rest;
    } else {
      var next :| GoesTo(r, events[0], next) && Genuine(next, events[1..], r');
      PassingFlags(r, events[0]);
      PassingFair(next, events[1..], r', rest, r'');
      FairCons(r, events[0], next, events[1..] + rest, r'');
      Regroup(events, rest);
    }
  }

  lemma PassingFlags(r: Run, e: Event)
    requires Closed(r.core) && Enabled(r, e) && !e.OnError?
    ensures Step(r, e).shutdown == r.shutdown && Step(r, e).missing == r.missing
  {
  }

  lemma FairCons(r: Run, e: Event, next: Run, rest: seq<Event>, r': Run)
    requires Closed(r.core) && Enabled(r, e) && Fair(r, e) && Step(r, e) == next && !next.shutdown && !next.missing
    requires FairRuns(next, rest, r')
    ensures FairRuns(r, [e] + rest, r')
  {
    assert ([e] + rest)[1..] == rest;
  }

  /** A fair run, in which the writer answers what it was handed, at the end of which the one pending
      offset is carried by nothing. The tracker's default configuration, five retries and no backoff,
      is one of those. */
  lemma StrandingRun(cfg: RetryConfig) returns (events: seq<Event>, r: Run)
    requires !Redelivers(cfg)
    ensures FairRuns(Init(cfg), events, r) && Genuine(Init(cfg), events, r) && !NothingStranded(r)
  {
    var w := OneEntry();
    var r1 := With(cfg, New(), [], 0, Quiet().(enqueuing := multiset{Retry(0, w)}), multiset{});
    var r6 := With(cfg, New(), [], 0, Quiet(), multiset{Delivery(1, 0)});
    r := With(cfg, Failed1(), [], 0, Quiet(), multiset{});
    Adds(cfg);
    OffsetZero();
    var sent := Sends(cfg, New());
    FailsGenuinely(cfg, r6, r);
    var failed := [OnError([OneFailure()])] + [];
    PassingFair(r1, sent, r6, failed, r);
    FairCons(Init(cfg), Add(w, 0), r1, sent + failed, r);
    GenuineConcat(r1, sent, r6, failed, r);
    GenuineCons(Init(cfg), Add(w, 0), r1, sent + failed, r);
    events := [Add(w, 0)] + (sent + failed);
    NothingCarries(cfg, r);
  }

  lemma FailsGenuinely(cfg: RetryConfig, r6: Run, r: Run)
    requires !Redelivers(cfg) && r6 == With(cfg, New(), [], 0, Quiet(), multiset{Delivery(1, 0)})
    requires r == With(cfg, Failed1(), [], 0, Quiet(), multiset{})
    ensures FairRuns(r6, [OnError([OneFailure()])] + [], r) && Genuine(r6, [OnError([OneFailure()])] + [], r)
  {
    Fails(cfg);
    OneAnswered(OneFailure());
    assert FairRuns(r, [], r) && Genuine(r, [], r);
    FairCons(r6, OnError([OneFailure()]), r, [], r);
    GenuineCons(r6, OnError([OneFailure()]), r, [], r);
  }

  lemma OneAnswered(e: ErrorEntry)
    ensures Deliveries(Responses([e])) == multiset{DeliveryOf(e.response)}
  {
    assert [e][1..] == [] && Responses([e]) == [e.response];
    assert [e.response][1..] == [];
  }

  lemma NothingCarries(cfg: RetryConfig, r: Run)
    requires r == With(cfg, Failed1(), [], 0, Quiet(), multiset{})
    ensures !NothingStranded(r)
  {
    OffsetZero();
    assert 0 in r.core.objs && 0 in r.core.objs[0].pending;
    assert !Carried(r, 0, 0);
    assert !CarriedId(r, 0);
  }

  /** No fair run strands an entry if and only if failures are scheduled again or none is ever to be
      tried again. */
  lemma StrandedExactly(cfg: RetryConfig)
    ensures (forall events, r :: FairlyReached(cfg, events, r) ==> NothingStranded(r)) <==> Redelivers(cfg)
  {
    if Redelivers(cfg) {
      InitOk(cfg);
      forall events, r | FairlyReached(cfg, events, r) ensures NothingStranded(r) {
        FairKeeps(Init(cfg), events, r);
      }
    } else {
      var events, r := StrandingRun(cfg);
      assert FairlyReached(cfg, events, r);
    }
  }

  ghost predicate FairlyReached(cfg: RetryConfig, events: seq<Event>, r: Run)
  {
    FairRuns(Init(cfg), events, r)
  }
}
