/** Allocator, tracker and completion together: workers allocate LSNs, add their batches to the tracker and
    report them; a table is completed by the watermark. */
module SnapshotDelivery {
  import opened Wal
  import opened TrackerSpec
  import opened TrackerRuns
  import opened TrackerTheorems
  import opened TrackerDelivery
  import TI = TrackerInvariant
  import A = LsnAllocator
  import P = SnapshotProgress

  /** `added` are the LSNs of the batches handed to the tracker, `late` those that found the watermark at or
      above them. */
  datatype Joint = Joint(alloc: A.Alloc, run: Run, progress: P.Snapshot, added: set<Lsn>, late: set<Lsn>)

  datatype Happening =
    | Allocates(x: A.Action)
    | AddsBatch(w: A.Worker, req: WriteRequest, id: Id)
    | TrackerStep(e: Event)
    | Reports(report: P.Event)

  /** A worker adds its batch under the LSN it holds, once, and then reports it and marks it submitted; the
      acknowledged LSN that is reported was the watermark at some time. */
  predicate Possible(j: Joint, h: Happening)
  {
    match h
    case Allocates(x) => A.Enabled(j.alloc, x) && (x.Begin? ==> A.At(j.alloc, x.w).lsn in j.added)
    case AddsBatch(w, req, id) =>
      && A.At(j.alloc, w) == A.Holding(req.lsn) && req.lsn !in j.added
      && Enabled(j.run, Add(req, id))
    case TrackerStep(e) => Enabled(j.run, e) && !e.Add?
    case Reports(e) =>
      && P.Enabled(j.progress, e) && (e.BatchSubmitted? ==> e.lsn in j.added)
      && (e.Acked? ==> e.lsn <= j.run.core.maxAck.lsn)
  }

  function Next(j: Joint, h: Happening): Joint
    requires Closed(j.run.core) && Possible(j, h)
  {
    match h
    case Allocates(x) => j.(alloc := A.Step(j.alloc, x))
    case AddsBatch(_, req, id) =>
      j.(run := DoAdd(j.run, req, id), added := j.added + {req.lsn},
         late := if req.lsn <= j.run.core.maxAck.lsn then j.late + {req.lsn} else j.late)
    case TrackerStep(e) => j.(run := Step(j.run, e))
    case Reports(e) => j.(progress := P.Step(j.progress, e))
  }

  ghost predicate LeadsTo(j: Joint, h: Happening, next: Joint)
  {
    Closed(j.run.core) && Possible(j, h) && Next(j, h) == next
  }

  ghost predicate Leads(j: Joint, hs: seq<Happening>, j': Joint)
    decreases |hs|
  {
    if hs == [] then j == j' else exists next :: LeadsTo(j, hs[0], next) && Leads(next, hs[1..], j')
  }

  function Start(cfg: RetryConfig, progress: P.Snapshot): Joint
  {
    Joint(A.Init(), Init(cfg), progress, {}, {})
  }

  // ---- the invariant

  ghost predicate BatchesOk(accepted: map<Id, WriteRequest>, added: set<Lsn>, late: set<Lsn>, watermark: Lsn)
  {
    && late <= added && (forall l <- late :: l <= watermark)
    && forall l {:trigger Holds(accepted, l)} :: Holds(accepted, l) <==> l in added && l !in late
  }

  ghost predicate ReportsOk(p: P.Snapshot, added: set<Lsn>, watermark: Lsn)
  {
    P.Inv(p) && p.acked <= watermark && forall name <- p.tables :: p.tables[name].history.lsns <= added
  }

  ghost predicate Inv(j: Joint)
  {
    && RInv(j.run)
    && BatchesOk(j.run.accepted, j.added, j.late, j.run.core.maxAck.lsn)
    && ReportsOk(j.progress, j.added, j.run.core.maxAck.lsn)
  }

  lemma AddKeeps(j: Joint, req: WriteRequest, id: Id)
    requires Inv(j) && Enabled(j.run, Add(req, id)) && req.lsn !in j.added
    ensures RInv(DoAdd(j.run, req, id)) && DoAdd(j.run, req, id).core.maxAck.lsn >= j.run.core.maxAck.lsn
    ensures BatchesOk(DoAdd(j.run, req, id).accepted, j.added + {req.lsn},
        if req.lsn <= j.run.core.maxAck.lsn then j.late + {req.lsn} else j.late, j.run.core.maxAck.lsn)
  {
    StepKeeps(j.run, Add(req, id));
    AddEffect(j.run, req, id);
    assert !Holds(j.run.accepted, req.lsn);
    BatchKeeps(j.run.accepted, j.added, j.late, j.run.core.maxAck.lsn, req, id);
  }

  lemma BatchKeeps(accepted: map<Id, WriteRequest>, added: set<Lsn>, late: set<Lsn>, watermark: Lsn, req: WriteRequest,
      id: Id)
    requires BatchesOk(accepted, added, late, watermark) && id !in accepted && req.lsn !in added
    ensures if req.lsn <= watermark then BatchesOk(accepted, added + {req.lsn}, late + {req.lsn}, watermark)
            else BatchesOk(accepted[id := req], added + {req.lsn}, late, watermark)
  {
    if req.lsn > watermark {
      HoldsMore(accepted, req, id);
    }
  }

  lemma ReportKeeps(p: P.Snapshot, e: P.Event, added: set<Lsn>, watermark: Lsn)
    requires ReportsOk(p, added, watermark) && P.Enabled(p, e)
    requires (e.BatchSubmitted? ==> e.lsn in added) && (e.Acked? ==> e.lsn <= watermark)
    ensures ReportsOk(P.Step(p, e), added, watermark)
  {
    P.StepKeeps(p, e, "");
    var q := P.Step(p, e);
    forall name | name in q.tables ensures q.tables[name].history.lsns <= added {
      assert p.tables[name].history.lsns <= added;
    }
  }

  lemma StepKeepsInv(j: Joint, h: Happening)
    requires Inv(j) && Possible(j, h)
    ensures Inv(Next(j, h))
  {
    match h
    case Allocates(x) =>
    case AddsBatch(w, req, id) => AddKeeps(j, req, id);
    case TrackerStep(e) =>
      StepKeeps(j.run, e);
      OthersAddNothing(j.run, e);
    case Reports(e) => ReportKeeps(j.progress, e, j.added, j.run.core.maxAck.lsn);
  }

  lemma {:induction false} LeadsKeeps(j: Joint, hs: seq<Happening>, j': Joint)
    requires Inv(j) && Leads(j, hs, j')
    ensures Inv(j')
    decreases |hs|
  {
    if hs != [] {
      var next :| LeadsTo(j, hs[0], next) && Leads(next, hs[1..], j');
      StepKeepsInv(j, hs[0]);
      LeadsKeeps(next, hs[1..], j');
    }
  }

  lemma StartOk(cfg: RetryConfig, progress: P.Snapshot)
    requires P.Fresh(progress)
    ensures Inv(Start(cfg, progress))
  {
    InitOk(cfg);
  }

  /** A batch was taken in by the tracker and everything of it has been acknowledged. */
  ghost predicate Arrived(r: Run, lsn: Lsn)
  {
    exists id :: id in r.accepted && r.accepted[id].lsn == lsn && id in r.core.objs && r.core.objs[id].pending == {}
                 && FullyAnswered(r, id)
  }

  /** Over every run, all batches of a completed table have arrived if and only if none of them found the
      watermark at or above its LSN when it was added. */
  lemma CompletedArrivedExactly(cfg: RetryConfig, progress: P.Snapshot, hs: seq<Happening>, j: Joint, name: string)
    requires P.Fresh(progress) && Leads(Start(cfg, progress), hs, j) && name in j.progress.tables
    requires j.progress.tables[name].history.started && j.progress.tables[name].progress.status == P.Completed
    ensures var lsns := j.progress.tables[name].history.lsns;
      (forall l <- lsns :: Arrived(j.run, l)) <==> lsns !! j.late
  {
    StartOk(cfg, progress);
    LeadsKeeps(Start(cfg, progress), hs, j);
    assert P.TableOk(j.progress.tables[name], j.progress.acked);
    var lsns := j.progress.tables[name].history.lsns;
    forall l | l in lsns ensures Arrived(j.run, l) <==> l !in j.late {
      ArrivedExactly(j, l);
    }
  }

  lemma ArrivedExactly(j: Joint, l: Lsn)
    requires Inv(j) && l in j.added && l <= j.run.core.maxAck.lsn
    ensures Arrived(j.run, l) <==> l !in j.late
  {
    assert Holds(j.run.accepted, l) <==> l !in j.late;
    if l !in j.late {
      var id :| id in j.run.accepted && j.run.accepted[id].lsn == l;
      assert TI.Ok(j.run.core, id) && HistoryOk(j.run.core.objs, j.run.accepted, j.run.answered, id);
    }
  }

  // ---- one worker

  predicate By(h: Happening, w: A.Worker)
  {
    (h.Allocates? ==> h.x.w == w) && (h.AddsBatch? ==> h.w == w)
  }

  ghost predicate OnlyWorker(j: Joint, w: A.Worker)
  {
    && j.late == {} && (forall l <- j.added :: l <= j.alloc.next)
    && (A.At(j.alloc, w).Holding? ==> A.At(j.alloc, w).lsn == j.alloc.next)
  }

  lemma OneWorkerKeeps(j: Joint, h: Happening, w: A.Worker)
    requires Inv(j) && OnlyWorker(j, w) && Possible(j, h) && By(h, w)
    ensures OnlyWorker(Next(j, h), w)
  {
    if h.AddsBatch? {
      forall id | id in j.run.accepted ensures j.run.accepted[id].lsn < h.req.lsn {
        assert Holds(j.run.accepted, j.run.accepted[id].lsn);
      }
      WatermarkBelow(j.run, h.req);
    }
  }

  lemma {:induction false} OneWorkerLeads(j: Joint, hs: seq<Happening>, j': Joint, w: A.Worker)
    requires Inv(j) && OnlyWorker(j, w) && Leads(j, hs, j') && forall h <- hs :: By(h, w)
    ensures j'.late == {}
    decreases |hs|
  {
    if hs != [] {
      var next :| LeadsTo(j, hs[0], next) && Leads(next, hs[1..], j');
      StepKeepsInv(j, hs[0]);
      OneWorkerKeeps(j, hs[0], w);
      OneWorkerLeads(next, hs[1..], j', w);
    }
  }

  /** With one worker every batch of a completed table has arrived. */
  lemma OneWorkerArrives(cfg: RetryConfig, progress: P.Snapshot, hs: seq<Happening>, j: Joint, name: string,
      w: A.Worker)
    requires P.Fresh(progress) && Leads(Start(cfg, progress), hs, j) && name in j.progress.tables
    requires j.progress.tables[name].history.started && j.progress.tables[name].progress.status == P.Completed
    requires forall h <- hs :: By(h, w)
    ensures forall l <- j.progress.tables[name].history.lsns :: Arrived(j.run, l)
  {
    StartOk(cfg, progress);
    OneWorkerLeads(Start(cfg, progress), hs, j, w);
    CompletedArrivedExactly(cfg, progress, hs, j, name);
  }

  // ---- two workers

  /** Runs in which writers answer what they were handed. */
  ghost predicate GenuineTo(j: Joint, h: Happening, next: Joint)
  {
    LeadsTo(j, h, next) && (h.TrackerStep? ==> Answers(j.run, h.e))
  }

  ghost predicate GenuineLeads(j: Joint, hs: seq<Happening>, j': Joint)
    decreases |hs|
  {
    if hs == [] then j == j' else exists next :: GenuineTo(j, hs[0], next) && GenuineLeads(next, hs[1..], j')
  }

  lemma {:induction false} GenuineIsRun(j: Joint, hs: seq<Happening>, j': Joint)
    requires GenuineLeads(j, hs, j')
    ensures Leads(j, hs, j')
    decreases |hs|
  {
    if hs != [] {
      var next :| GenuineTo(j, hs[0], next) && GenuineLeads(next, hs[1..], j');
      GenuineIsRun(next, hs[1..], j');
    }
  }

  lemma LeadsCons(j: Joint, h: Happening, next: Joint, rest: seq<Happening>, j': Joint)
    requires GenuineTo(j, h, next) && GenuineLeads(next, rest, j')
    ensures GenuineLeads(j, [h] + rest, j')
  {
    assert ([h] + rest)[1..] == rest;
  }

  lemma {:induction false} LeadsConcat(j: Joint, a: seq<Happening>, mid: Joint, b: seq<Happening>, j': Joint)
    requires GenuineLeads(j, a, mid) && GenuineLeads(mid, b, j')
    ensures GenuineLeads(j, a + b, j')
    decreases |a|
  {
    if a == [] {
      assert a + b == b;
    } else {
      var next :| GenuineTo(j, a[0], next) && GenuineLeads(next, a[1..], mid);
      LeadsConcat(next, a[1..], mid, b, j');
      LeadsCons(j, a[0], next, a[1..] + b, j');
      Regroup(a, b);
    }
  }

  lemma {:induction false} TrackerLeads(j: Joint, events: seq<Event>, r: Run) returns (hs: seq<Happening>)
    requires Genuine(j.run, events, r) && Passing(events)
    ensures GenuineLeads(j, hs, j.(run := r))
    decreases |events|
  {
    if events == [] {
      hs := [];
      assert j.(run := r) == j;
    } else {
      var next :| GoesTo(j.run, events[0], next) && Genuine(next, events[1..], r);
      hs := TrackerLeads(j.(run := next), events[1..], r);
      LeadsCons(j, TrackerStep(events[0]), j.(run := next), hs, j.(run := r));
      hs := [TrackerStep(events[0])] + hs;
    }
  }

  lemma {:induction false} ReportLeads(j: Joint, es: seq<P.Event>, p: P.Snapshot) returns (hs: seq<Happening>)
    requires P.Runs(j.progress, es, p) && Closed(j.run.core)
    requires forall e <- es :: (e.BatchSubmitted? ==> e.lsn in j.added) && (e.Acked? ==> e.lsn <= j.run.core.maxAck.lsn)
    ensures GenuineLeads(j, hs, j.(progress := p))
    decreases |es|
  {
    if es == [] {
      hs := [];
      assert j.(progress := p) == j;
    } else {
      var next := j.(progress := P.Step(j.progress, es[0]));
      hs := ReportLeads(next, es[1..], p);
      LeadsCons(j, Reports(es[0]), next, hs, j.(progress := p));
      hs := [Reports(es[0])] + hs;
    }
  }

  // the reports for a table with two tasks of one batch each

  function Table(): P.Snapshot
  {
    P.Snapshot(map["t" := P.Table(P.Progress(0, 0, 0, false, 0, 0, 0, P.Pending), P.History(false, false, {}, {}, {}))],
               0)
  }

  ghost predicate Shows(p: P.Snapshot, h: P.History, acked: Lsn)
  {
    "t" in p.tables && p.tables["t"].history == h && p.acked == acked
  }

  lemma Reported(p: P.Snapshot, h: P.History, e: P.Event) returns (q: P.Snapshot)
    requires Shows(p, h, 0) && !e.Acked? && e.name == "t" && P.Enabled(p, e)
    ensures P.Runs(p, [e], q) && Shows(q, P.OnTable(p.tables["t"], e, 0).history, 0)
  {
    q := P.Step(p, e);
    assert [e][1..] == [];
  }

  lemma {:induction false} RunsConcat(p: P.Snapshot, a: seq<P.Event>, q: P.Snapshot, b: seq<P.Event>, q': P.Snapshot)
    requires P.Runs(p, a, q) && P.Runs(q, b, q')
    ensures P.Runs(p, a + b, q')
    decreases |a|
  {
    if a == [] {
      assert a + b == b;
    } else {
      assert (a + b)[1..] == a[1..] + b;
      RunsConcat(P.Step(p, a[0]), a[1..], q, b, q');
    }
  }

  lemma TasksSent() returns (es: seq<P.Event>, p: P.Snapshot)
    ensures P.Runs(Table(), es, p) && Shows(p, P.History(true, false, {0, 1}, {}, {}), 0)
    ensures forall e <- es :: !e.BatchSubmitted? && !e.Acked?
  {
    var p0 := Table();
    var p1 := Reported(p0, P.History(false, false, {}, {}, {}), P.TableStarted("t", 0));
    var p2 := Reported(p1, P.History(true, false, {}, {}, {}), P.TaskSent("t", 0));
    p := Reported(p2, P.History(true, false, {0}, {}, {}), P.TaskSent("t", 1));
    RunsConcat(p0, [P.TableStarted("t", 0)], p1, [P.TaskSent("t", 0)], p2);
    RunsConcat(p0, [P.TableStarted("t", 0)] + [P.TaskSent("t", 0)], p2, [P.TaskSent("t", 1)], p);
    es := [P.TableStarted("t", 0)] + [P.TaskSent("t", 0)] + [P.TaskSent("t", 1)];
  }

  lemma BatchesReported(p: P.Snapshot) returns (es: seq<P.Event>, q: P.Snapshot)
    requires Shows(p, P.History(true, false, {0, 1}, {}, {}), 0)
    ensures P.Runs(p, es, q) && Shows(q, P.History(true, false, {0, 1}, {}, {1, 2}), 0)
    ensures forall e <- es :: (e.BatchSubmitted? ==> e.lsn in {1, 2}) && !e.Acked?
  {
    var p1 := Reported(p, P.History(true, false, {0, 1}, {}, {}), P.BatchSubmitted("t", 0, 1));
    q := Reported(p1, P.History(true, false, {0, 1}, {}, {1}), P.BatchSubmitted("t", 1, 2));
    RunsConcat(p, [P.BatchSubmitted("t", 0, 1)], p1, [P.BatchSubmitted("t", 1, 2)], q);
    es := [P.BatchSubmitted("t", 0, 1)] + [P.BatchSubmitted("t", 1, 2)];
  }

  lemma TasksDone(p: P.Snapshot) returns (es: seq<P.Event>, q: P.Snapshot)
    requires Shows(p, P.History(true, false, {0, 1}, {}, {1, 2}), 0)
    ensures P.Runs(p, es, q) && Shows(q, P.History(true, true, {0, 1}, {0, 1}, {1, 2}), 0)
    ensures forall e <- es :: !e.BatchSubmitted? && !e.Acked?
  {
    var p1 := Reported(p, P.History(true, false, {0, 1}, {}, {1, 2}), P.TaskDone("t", 0));
    var p2 := Reported(p1, P.History(true, false, {0, 1}, {0}, {1, 2}), P.TaskDone("t", 1));
    q := Reported(p2, P.History(true, false, {0, 1}, {0, 1}, {1, 2}), P.TableDispatched("t"));
    RunsConcat(p, [P.TaskDone("t", 0)], p1, [P.TaskDone("t", 1)], p2);
    RunsConcat(p, [P.TaskDone("t", 0)] + [P.TaskDone("t", 1)], p2, [P.TableDispatched("t")], q);
    es := [P.TaskDone("t", 0)] + [P.TaskDone("t", 1)] + [P.TableDispatched("t")];
  }

  lemma AckReported(p: P.Snapshot, h: P.History) returns (q: P.Snapshot)
    requires Shows(p, h, 0)
    ensures P.Runs(p, [P.Acked(2)], q) && Shows(q, h, 2)
  {
    q := P.Step(p, P.Acked(2));
    assert [P.Acked(2)][1..] == [];
  }

  /** Everything that is reported once both batches were added. */
  lemma AllReported(p: P.Snapshot) returns (es: seq<P.Event>, q: P.Snapshot)
    requires Shows(p, P.History(true, false, {0, 1}, {}, {}), 0)
    ensures P.Runs(p, es, q) && Shows(q, P.History(true, true, {0, 1}, {0, 1}, {1, 2}), 2)
    ensures forall e <- es :: (e.BatchSubmitted? ==> e.lsn in {1, 2}) && (e.Acked? ==> e.lsn == 2)
  {
    var a, p1 := BatchesReported(p);
    var b, p2 := TasksDone(p1);
    q := AckReported(p2, P.History(true, true, {0, 1}, {0, 1}, {1, 2}));
    RunsConcat(p, a, p1, b, p2);
    RunsConcat(p, a + b, p2, [P.Acked(2)], q);
    es := a + b + [P.Acked(2)];
  }

  /** The second worker's batch is added, delivered and acknowledged before the first worker's is added. */
  lemma BatchesAdded(cfg: RetryConfig, p: P.Snapshot) returns (hs: seq<Happening>, j: Joint)
    ensures GenuineLeads(Start(cfg, p), hs, j)
    ensures j.run == Confirmed(cfg, WriteRequest([], 2, 0, 0)) && j.progress == p && j.added == {1, 2} && j.late == {1}
  {
    var one, two := WriteRequest([], 1, 0, 0), WriteRequest([], 2, 0, 0);
    var j0 := Start(cfg, p);
    var j1 := j0.(alloc := A.Step(j0.alloc, A.NextLsn(1)));
    var j2 := j1.(alloc := A.Step(j1.alloc, A.NextLsn(2)));
    AddsFirst(cfg, two);
    var j3 := j2.(run := Entered(cfg, two), added := {2});
    var events := DeliversAndAcks(cfg, two);
    var sent := TrackerLeads(j3, events, Confirmed(cfg, two));
    var j4 := j3.(run := Confirmed(cfg, two));
    j := LateAdd(j4, cfg, one, two);
    assert GenuineTo(j0, Allocates(A.NextLsn(1)), j1) && GenuineTo(j1, Allocates(A.NextLsn(2)), j2);
    assert GenuineTo(j2, AddsBatch(2, two, 0), j3) && GenuineLeads(j, [], j);
    LeadsCons(j4, AddsBatch(1, one, 1), j, [], j);
    LeadsConcat(j3, sent, j4, [AddsBatch(1, one, 1)] + [], j);
    hs := sent + ([AddsBatch(1, one, 1)] + []);
    LeadsCons(j2, AddsBatch(2, two, 0), j3, hs, j);
    LeadsCons(j1, Allocates(A.NextLsn(2)), j2, [AddsBatch(2, two, 0)] + hs, j);
    LeadsCons(j0, Allocates(A.NextLsn(1)), j1, [Allocates(A.NextLsn(2))] + ([AddsBatch(2, two, 0)] + hs), j);
    hs := [Allocates(A.NextLsn(1))] + ([Allocates(A.NextLsn(2))] + ([AddsBatch(2, two, 0)] + hs));
  }

  lemma LateAdd(j: Joint, cfg: RetryConfig, one: WriteRequest, two: WriteRequest) returns (next: Joint)
    requires one.lsn == 1 && two.lsn == 2 && j.run == Confirmed(cfg, two) && j.added == {2} && j.late == {}
    requires A.At(j.alloc, 1) == A.Holding(1)
    ensures GenuineTo(j, AddsBatch(1, one, 1), next) && next == j.(added := {1, 2}, late := {1})
  {
    DroppedAdd(j.run, one, 1);
    next := j.(added := {1, 2}, late := {1});
  }

  lemma TwoWorkersRun(cfg: RetryConfig) returns (hs: seq<Happening>, j: Joint)
    ensures GenuineLeads(Start(cfg, Table()), hs, j)
    ensures Shows(j.progress, P.History(true, true, {0, 1}, {0, 1}, {1, 2}), 2)
    ensures j.run.core.maxAck.lsn == 2 && j.added == {1, 2} && j.late == {1}
  {
    var es, p := TasksSent();
    var before := ReportLeads(Start(cfg, Table()), es, p);
    var adds, j1 := BatchesAdded(cfg, p);
    var fs, q := AllReported(p);
    var after := ReportLeads(j1, fs, q);
    j := j1.(progress := q);
    LeadsConcat(Start(cfg, Table()), before, Start(cfg, p), adds, j1);
    LeadsConcat(Start(cfg, Table()), before + adds, j1, after, j);
    hs := before + adds + after;
  }

  /** A run of two workers that loses a batch of a completed table. */
  lemma TwoWorkersLoseABatch(cfg: RetryConfig) returns (hs: seq<Happening>, j: Joint)
    ensures P.Fresh(Table()) && GenuineLeads(Start(cfg, Table()), hs, j) && "t" in j.progress.tables
    ensures j.progress.tables["t"].history.lsns == {1, 2} && j.progress.tables["t"].progress.status == P.Completed
    ensures !Arrived(j.run, 1) && Arrived(j.run, 2)
  {
    hs, j := TwoWorkersRun(cfg);
    StartOk(cfg, Table());
    GenuineIsRun(Start(cfg, Table()), hs, j);
    LeadsKeeps(Start(cfg, Table()), hs, j);
    ShownCompleted(j.progress);
    OneLost(j);
  }

  lemma ShownCompleted(p: P.Snapshot)
    requires P.Inv(p) && Shows(p, P.History(true, true, {0, 1}, {0, 1}, {1, 2}), 2)
    ensures p.tables["t"].progress.status == P.Completed
  {
    assert P.TableOk(p.tables["t"], 2);
    assert 1 in p.tables["t"].history.lsns;
  }

  lemma OneLost(j: Joint)
    requires Inv(j) && j.added == {1, 2} && j.late == {1} && j.run.core.maxAck.lsn == 2
    ensures !Arrived(j.run, 1) && Arrived(j.run, 2)
  {
    ArrivedExactly(j, 1);
    ArrivedExactly(j, 2);
  }
}
