/** Per-table completion of a snapshot (snapshot/progress_tracker.go). */
module SnapshotProgress {
  import opened Wal

  datatype Status = Pending | InProgress | Completed | Failed

  datatype Progress = Progress(processedRows: int, sinceLastReport: int, totalRows: int, dispatched: bool,
                               tasksCount: int, doneTasks: int, maxLsn: Lsn, status: Status)

  /** `isDone` */
  predicate IsDone(p: Progress, acked: Lsn)
  {
    p.doneTasks == p.tasksCount && p.dispatched && p.maxLsn <= acked && p.maxLsn > 0
  }

  /** Every handler ends with this. */
  function Settled(p: Progress, acked: Lsn): Progress
  {
    if IsDone(p, acked) then p.(status := Completed) else p
  }

  function Started(p: Progress, totalRows: int): Progress
  {
    p.(totalRows := totalRows, status := InProgress)
  }

  function TaskCompleted(p: Progress, acked: Lsn): Progress
  {
    Settled(p.(doneTasks := p.doneTasks + 1), acked)
  }

  function Dispatched(p: Progress, tasks: int, acked: Lsn): Progress
  {
    Settled(p.(dispatched := true, tasksCount := tasks), acked)
  }

  function WithMaxLsn(p: Progress, lsn: Lsn, acked: Lsn): Progress
  {
    Settled(if p.maxLsn < lsn then p.(maxLsn := lsn) else p, acked)
  }

  /** Division toward zero. */
  function Percent(n: int, percent: int): int
  {
    if n * percent >= 0 then n * percent / 100 else -((-(n * percent)) / 100)
  }

  /** `Add`: the new progress and whether to report it. */
  function RowsAdded(p: Progress, rows: int, every: int, acked: Lsn): (Progress, bool)
  {
    var q := p.(processedRows := p.processedRows + rows);
    if p.totalRows > 0 && 0 < every < 100 then
      var since := p.sinceLastReport + rows;
      var report := since >= Percent(p.totalRows, every);
      (Settled(q.(sinceLastReport := if report then 0 else since), acked), report)
    else (Settled(q, acked), true)
  }

  class SnapshotProgressTracker {
    const reportEvery: int
    var tables: map<string, Progress>
    var ackedLsn: Lsn

    constructor (tables: map<string, Progress>, reportEvery: int)
      ensures this.tables == tables && this.reportEvery == reportEvery && ackedLsn == 0
    {
      this.tables, this.reportEvery, ackedLsn := tables, reportEvery, 0;
    }

    /** Settles every table; the result names exactly the tables completed by this call. */
    method Ack(lsn: Lsn) returns (done: set<string>)
      modifies this
      ensures ackedLsn == if lsn > old(ackedLsn) then lsn else old(ackedLsn)
      ensures lsn <= old(ackedLsn) ==> tables == old(tables) && done == {}
      ensures lsn > old(ackedLsn) ==>
        && tables.Keys == old(tables).Keys
        && (forall name <- tables :: tables[name] == Settled(old(tables)[name], lsn))
        && (forall name :: name in done <==>
              name in tables && tables[name].status == Completed && old(tables)[name].status != Completed)
    {
      done := {};
      if lsn <= ackedLsn {
        return;
      }
      ackedLsn := lsn;
      var rest := tables.Keys;
      while rest != {}
        invariant ackedLsn == lsn && rest <= tables.Keys == old(tables).Keys
        invariant forall name <- tables :: tables[name] == if name in rest then old(tables)[name]
            else Settled(old(tables)[name], lsn)
        invariant forall name :: name in done <==>
          name in tables && name !in rest && tables[name].status == Completed && old(tables)[name].status != Completed
        decreases rest
      {
        var name :| name in rest;
        rest := rest - {name};
        if IsDone(tables[name], ackedLsn) && tables[name].status != Completed {
          tables := tables[name := tables[name].(status := Completed)];
          done := done + {name};
        }
      }
    }

    method MarkStarted(name: string, totalRows: int)
      modifies this`tables
      ensures tables == if name in old(tables) then old(tables)[name := Started(old(tables)[name], totalRows)]
          else old(tables)
    {
      if name in tables {
        tables := tables[name := tables[name].(totalRows := totalRows, status := InProgress)];
      }
    }

    method Add(name: string, rows: int) returns (processed: int, total: int, report: bool, isDone: bool)
      modifies this`tables
      ensures name !in old(tables) ==> tables == old(tables) && !report && !isDone && processed == total == 0
      ensures name in old(tables) ==>
        var (p, say) := RowsAdded(old(tables)[name], rows, reportEvery, ackedLsn);
        tables == old(tables)[name := p] && report == say && isDone == IsDone(p, ackedLsn)
        && processed == p.processedRows && total == p.totalRows
    {
      if name !in tables {
        return 0, 0, false, false;
      }
      var p := tables[name];
      p := p.(processedRows := p.processedRows + rows);
      report := true;
      total := p.totalRows;
      if total > 0 && reportEvery > 0 && reportEvery < 100 {
        p := p.(sinceLastReport := p.sinceLastReport + rows);
        if p.sinceLastReport >= Percent(total, reportEvery) {
          p := p.(sinceLastReport := 0);
        } else {
          report := false;
        }
      }
      isDone := IsDone(p, ackedLsn);
      if isDone {
        p := p.(status := Completed);
      }
      tables := tables[name := p];
      processed := p.processedRows;
    }

    method CompleteTask(name: string) returns (isDone: bool)
      modifies this`tables
      ensures name !in old(tables) ==> tables == old(tables) && !isDone
      ensures name in old(tables) ==> tables == old(tables)[name := TaskCompleted(old(tables)[name], ackedLsn)]
                                      && isDone == IsDone(tables[name], ackedLsn)
    {
      if name !in tables {
        return false;
      }
      var p := tables[name];
      p := p.(doneTasks := p.doneTasks + 1);
      isDone := IsDone(p, ackedLsn);
      tables := tables[name := if isDone then p.(status := Completed) else p];
    }

    method MarkDispatched(name: string, tasks: int) returns (isDone: bool)
      modifies this`tables
      ensures name !in old(tables) ==> tables == old(tables) && !isDone
      ensures name in old(tables) ==> tables == old(tables)[name := Dispatched(old(tables)[name], tasks, ackedLsn)]
                                      && isDone == IsDone(tables[name], ackedLsn)
    {
      if name !in tables {
        return false;
      }
      var p := tables[name].(dispatched := true, tasksCount := tasks);
      isDone := IsDone(p, ackedLsn);
      tables := tables[name := if isDone then p.(status := Completed) else p];
    }

    method AddMaxLsn(name: string, maxLsn: Lsn) returns (isDone: bool)
      modifies this`tables
      ensures name !in old(tables) ==> tables == old(tables) && !isDone
      ensures name in old(tables) ==> tables == old(tables)[name := WithMaxLsn(old(tables)[name], maxLsn, ackedLsn)]
                                      && isDone == IsDone(tables[name], ackedLsn)
    {
      if name !in tables {
        return false;
      }
      var p := tables[name];
      if p.maxLsn < maxLsn {
        p := p.(maxLsn := maxLsn);
      }
      isDone := IsDone(p, ackedLsn);
      tables := tables[name := if isDone then p.(status := Completed) else p];
    }
  }

  // ---- reporting

  /** Consecutive calls of `Add` for one table: the progress after them, and which of them report. */
  function RowsAddedAll(p: Progress, rows: seq<int>, every: int, acked: Lsn): (r: (Progress, seq<bool>))
    ensures |r.1| == |rows|
  {
    if rows == [] then (p, []) else
    var (q, says) := RowsAddedAll(p, rows[..|rows| - 1], every, acked);
    var (q', say) := RowsAdded(q, rows[|rows| - 1], every, acked);
    (q', says + [say])
  }

  function Sum(rows: seq<int>): int
  {
    if rows == [] then 0 else Sum(rows[..|rows| - 1]) + rows[|rows| - 1]
  }

  /** The rows since the last report before the last call, those of this call included. */
  function Since(rows: seq<int>, says: seq<bool>): int
    requires 0 < |rows| <= |says| + 1
  {
    var n := |rows| - 1;
    rows[n] + if n == 0 || says[n - 1] then 0 else Since(rows[..n], says[..n])
  }

  /** Reports are made at this share of the rows, or always. */
  predicate Throttled(total: int, every: int)
  {
    total > 0 && 0 < every < 100
  }

  /** A call reports if and only if the rows since the last report have reached the share. */
  ghost predicate SaysExactly(total: int, every: int, rows: seq<int>, says: seq<bool>, k: nat)
    requires k < |rows| == |says|
  {
    says[k] <==> !Throttled(total, every) || 100 * (Since(rows[..k + 1], says[..k]) + 1) > total * every
  }

  /** From the start of a table on, every call of Add counts its rows, and reports exactly then. */
  lemma {:induction false} ReportsExactly(p: Progress, total: int, rows: seq<int>, every: int, acked: Lsn)
    requires p.sinceLastReport == 0
    ensures var (q, says) := RowsAddedAll(Started(p, total), rows, every, acked);
      && q.totalRows == total && q.processedRows == p.processedRows + Sum(rows)
      && (forall k: nat :: k < |rows| ==> SaysExactly(total, every, rows, says, k))
      && (Throttled(total, every) ==>
            q.sinceLastReport == if rows == [] || says[|rows| - 1] then 0 else Since(rows, says[..|rows| - 1]))
  {
    if rows != [] {
      var n := |rows| - 1;
      ReportsExactly(p, total, rows[..n], every, acked);
      var (q, says) := RowsAddedAll(Started(p, total), rows[..n], every, acked);
      var all := RowsAddedAll(Started(p, total), rows, every, acked).1;
      assert rows[..n + 1] == rows && all[..n] == says;
      LastSays(q, total, rows, says, every, acked);
      CountsRows(q, rows[n], every, acked);
      forall k: nat | k < |rows| ensures SaysExactly(total, every, rows, all, k) {
        if k < n {
          EarlierSays(total, every, rows, all, n, k);
        }
      }
    }
  }

  lemma EarlierSays(total: int, every: int, rows: seq<int>, says: seq<bool>, n: nat, k: nat)
    requires k < n <= |rows| == |says| && SaysExactly(total, every, rows[..n], says[..n], k)
    ensures SaysExactly(total, every, rows, says, k)
  {
    assert rows[..n][..k + 1] == rows[..k + 1] && says[..n][..k] == says[..k];
  }

  lemma CountsRows(p: Progress, rows: int, every: int, acked: Lsn)
    ensures var (q, say) := RowsAdded(p, rows, every, acked);
      && q.totalRows == p.totalRows && q.processedRows == p.processedRows + rows
      && (Throttled(p.totalRows, every) ==> q.sinceLastReport == if say then 0 else p.sinceLastReport + rows)
  {
  }

  lemma LastSays(q: Progress, total: int, rows: seq<int>, says: seq<bool>, every: int, acked: Lsn)
    requires rows != [] && |says| == |rows| - 1 && q.totalRows == total
    requires Throttled(total, every) ==>
      q.sinceLastReport == if says == [] || says[|says| - 1] then 0 else Since(rows[..|says|], says[..|says| - 1])
    ensures RowsAdded(q, rows[|says|], every, acked).1 <==>
      !Throttled(total, every) || 100 * (Since(rows, says) + 1) > total * every
    ensures Throttled(total, every) ==> q.sinceLastReport + rows[|says|] == Since(rows, says)
  {
    if Throttled(total, every) {
      assert total * every >= 0;
      if says != [] && !says[|says| - 1] {
        assert says[..|rows| - 1][..|says| - 1] == says[..|says| - 1];
        SinceLess(rows[..|says|], says, says[..|says| - 1]);
      }
    }
  }

  /** Only the answers before the last call matter. */
  lemma {:induction false} SinceLess(rows: seq<int>, says: seq<bool>, fewer: seq<bool>)
    requires 0 < |rows| <= |fewer| + 1 && |fewer| <= |says| && says[..|fewer|] == fewer
    ensures Since(rows, says) == Since(rows, fewer)
    decreases |rows|
  {
    var n := |rows| - 1;
    if n > 0 {
      assert says[n - 1] == says[..|fewer|][n - 1] == fewer[n - 1];
      assert says[..n] == says[..|fewer|][..n] == fewer[..n];
    }
  }

  // ---- runs

  type Task = nat

  /** What happened to one table: `sent` tasks went to the workers, `done` ones reported so, `lsns`
      are the LSNs of its batches. */
  datatype History = History(started: bool, dispatched: bool, sent: set<Task>, done: set<Task>, lsns: set<Lsn>)

  datatype Table = Table(progress: Progress, history: History)

  datatype Snapshot = Snapshot(tables: map<string, Table>, acked: Lsn)

  datatype Event =
    | TableStarted(name: string, totalRows: int)
    | TaskSent(name: string, task: Task)
    | BatchSubmitted(name: string, task: Task, lsn: Lsn)
    | RowsDone(name: string, rows: int, every: int)
    | TaskDone(name: string, task: Task)
    | TableDispatched(name: string)
    | Acked(lsn: Lsn)

  /** A table is started first and dispatched after its last task was sent; a task's batches are
      reported before it is reported done. */
  predicate Enabled(s: Snapshot, e: Event)
  {
    if e.Acked? then true else
    e.name in s.tables &&
    var h := s.tables[e.name].history;
    match e
    case TableStarted(_, _) => !h.started
    case TaskSent(_, k) => h.started && !h.dispatched && k !in h.sent
    case BatchSubmitted(_, k, lsn) => k in h.sent && k !in h.done && lsn > 0
    case RowsDone(_, _, _) => h.started
    case TaskDone(_, k) => k in h.sent && k !in h.done
    case TableDispatched(_) => h.started && !h.dispatched
  }

  function OnTable(t: Table, e: Event, acked: Lsn): Table
    requires !e.Acked?
  {
    var p, h := t.progress, t.history;
    match e
    case TableStarted(_, rows) => Table(Started(p, rows), h.(started := true))
    case TaskSent(_, k) => Table(p, h.(sent := h.sent + {k}))
    case BatchSubmitted(_, _, lsn) => Table(WithMaxLsn(p, lsn, acked), h.(lsns := h.lsns + {lsn}))
    case RowsDone(_, rows, every) => Table(RowsAdded(p, rows, every, acked).0, h)
    case TaskDone(_, k) => Table(TaskCompleted(p, acked), h.(done := h.done + {k}))
    case TableDispatched(_) => Table(Dispatched(p, |h.sent|, acked), h.(dispatched := true))
  }

  function Step(s: Snapshot, e: Event): Snapshot
    requires Enabled(s, e)
  {
    match e
    case Acked(lsn) =>
      if lsn <= s.acked then s else
      Snapshot(map name | name in s.tables :: s.tables[name].(progress := Settled(s.tables[name].progress, lsn)), lsn)
    case _ => s.(tables := s.tables[e.name := OnTable(s.tables[e.name], e, s.acked)])
  }

  /** The table's batches are all delivered. */
  ghost predicate Delivered(h: History, acked: Lsn)
  {
    h.started && h.dispatched && h.done == h.sent && h.lsns != {} && forall l <- h.lsns :: l <= acked
  }

  ghost predicate TableOk(t: Table, acked: Lsn)
  {
    var p, h := t.progress, t.history;
    && h.done <= h.sent && p.doneTasks == |h.done|
    && p.dispatched == h.dispatched && p.tasksCount == (if h.dispatched then |h.sent| else 0)
    && (forall l <- h.lsns :: 0 < l <= p.maxLsn) && (p.maxLsn > 0 ==> p.maxLsn in h.lsns)
    && (!h.started ==> h.sent == {} && !h.dispatched)
    && (h.started ==> (p.status == Completed <==> Delivered(h, acked)))
  }

  ghost predicate Inv(s: Snapshot)
  {
    forall name <- s.tables :: TableOk(s.tables[name], s.acked)
  }

  lemma DoneExactly(p: Progress, h: History, acked: Lsn)
    requires h.started && h.done <= h.sent && p.doneTasks == |h.done|
    requires p.dispatched == h.dispatched && p.tasksCount == (if h.dispatched then |h.sent| else 0)
    requires (forall l <- h.lsns :: 0 < l <= p.maxLsn) && (p.maxLsn > 0 ==> p.maxLsn in h.lsns)
    ensures IsDone(p, acked) <==> Delivered(h, acked)
  {
    if |h.done| == |h.sent| {
      SameSize(h.done, h.sent);
    }
    if h.lsns != {} {
      var l :| l in h.lsns;
      assert l <= p.maxLsn;
    }
  }

  lemma SameSize<T>(a: set<T>, b: set<T>)
    requires a <= b && |a| == |b|
    ensures a == b
  {
    assert b == a + (b - a);
    assert |b| == |a| + |b - a|;
  }

  lemma TableKeeps(t: Table, e: Event, acked: Lsn)
    requires TableOk(t, acked) && !e.Acked?
    requires Enabled(Snapshot(map[e.name := t], acked), e)
    ensures TableOk(OnTable(t, e, acked), acked)
    ensures Delivered(t.history, acked) ==> Delivered(OnTable(t, e, acked).history, acked)
  {
    var p, h := t.progress, t.history;
    var t' := OnTable(t, e, acked);
    assert Snapshot(map[e.name := t], acked).tables[e.name] == t;
    if t'.history.started {
      if h.started { DoneExactly(p, h, acked); }
      DoneExactly(t'.progress, t'.history, acked);
    }
  }

  lemma AckKeeps(t: Table, acked: Lsn, lsn: Lsn)
    requires TableOk(t, acked) && lsn > acked
    ensures TableOk(t.(progress := Settled(t.progress, lsn)), lsn)
  {
    if t.history.started {
      DoneExactly(t.progress, t.history, lsn);
    }
  }

  lemma StepKeeps(s: Snapshot, e: Event, name: string)
    requires Inv(s) && Enabled(s, e)
    ensures Inv(Step(s, e)) && Step(s, e).tables.Keys == s.tables.Keys && Step(s, e).acked >= s.acked
    ensures name in s.tables && Delivered(s.tables[name].history, s.acked) ==>
      Delivered(Step(s, e).tables[name].history, Step(s, e).acked)
  {
    if e.Acked? {
      AckedKeeps(s, e.lsn);
    } else {
      TableEventKeeps(s, e);
    }
  }

  lemma TableEventKeeps(s: Snapshot, e: Event)
    requires Inv(s) && Enabled(s, e) && !e.Acked?
    ensures Inv(Step(s, e)) && Step(s, e).tables.Keys == s.tables.Keys
    ensures forall name <- s.tables ::
      Delivered(s.tables[name].history, s.acked) ==> Delivered(Step(s, e).tables[name].history, s.acked)
  {
    assert TableOk(s.tables[e.name], s.acked);
    TableKeeps(s.tables[e.name], e, s.acked);
  }

  lemma AckedKeeps(s: Snapshot, lsn: Lsn)
    requires Inv(s)
    ensures Inv(Step(s, Acked(lsn)))
  {
    forall x | x in s.tables && lsn > s.acked
      ensures TableOk(s.tables[x].(progress := Settled(s.tables[x].progress, lsn)), lsn)
    {
      AckKeeps(s.tables[x], s.acked, lsn);
    }
  }

  ghost predicate Runs(s: Snapshot, es: seq<Event>, s': Snapshot)
    decreases |es|
  {
    if es == [] then s == s' else Enabled(s, es[0]) && Runs(Step(s, es[0]), es[1..], s')
  }

  ghost predicate Fresh(s: Snapshot)
  {
    s.acked == 0 && forall name <- s.tables ::
      && s.tables[name].history == History(false, false, {}, {}, {})
      && !s.tables[name].progress.dispatched && s.tables[name].progress.tasksCount == 0
      && s.tables[name].progress.doneTasks == 0 && s.tables[name].progress.maxLsn == 0
  }

  lemma {:induction false} RunsKeep(s: Snapshot, es: seq<Event>, s': Snapshot, name: string)
    requires Inv(s) && Runs(s, es, s') && name in s.tables
    ensures Inv(s') && s'.tables.Keys == s.tables.Keys && s'.acked >= s.acked
    ensures Delivered(s.tables[name].history, s.acked) ==> Delivered(s'.tables[name].history, s'.acked)
    decreases |es|
  {
    if es != [] {
      StepKeeps(s, es[0], name);
      RunsKeep(Step(s, es[0]), es[1..], s', name);
    }
  }

  /** A started table is Completed exactly when it is dispatched, all its tasks are done, and it has
      batches all of which are acknowledged; and from then on it stays Completed. */
  lemma CompletedExactly(s0: Snapshot, es: seq<Event>, s: Snapshot, later: seq<Event>, s': Snapshot, name: string)
    requires Fresh(s0) && Runs(s0, es, s) && Runs(s, later, s') && name in s0.tables
    ensures name in s.tables && name in s'.tables
    ensures s.tables[name].history.started ==>
      (s.tables[name].progress.status == Completed <==> Delivered(s.tables[name].history, s.acked))
    ensures s.tables[name].history.started && s.tables[name].progress.status == Completed ==>
      s'.tables[name].progress.status == Completed
  {
    RunsKeep(s0, es, s, name);
    RunsKeep(s, later, s', name);
    assert TableOk(s.tables[name], s.acked) && TableOk(s'.tables[name], s'.acked);
  }
}
