/** What becomes of a failed entry, said by the reasons reported for it so far and the configured limits. */
module TrackerVerdicts {
  import opened Wal
  import opened TrackerSpec
  import opened TrackerInvariant
  import opened TrackerRuns
  import opened TrackerTheorems
  import opened RetryLimits
  import Tracker

  /** The entry is about this offset of this write, of which something is pending. */
  ghost predicate Concerns(c: Core, e: ErrorEntry, id: Id, o: Offset)
  {
    && id in c.tracking && id in c.objs && c.objs[id].point.lsn == e.response.lsn && c.objs[id].pending != {}
    && e.response.offset == o
  }

  // ---- counting

  function Downs(h: seq<Reason>): nat
  {
    if h == [] then 0 else Downs(h[..|h| - 1]) + if h[|h| - 1].downStreamDown then 1 else 0
  }

  /** The first failure counts whatever its kind, later ones if the downstream was not down. */
  function Counting(h: seq<Reason>): nat
  {
    if h == [] then 0 else
    Counting(h[..|h| - 1]) + if |h| == 1 || !h[|h| - 1].downStreamDown then 1 else 0
  }

  /** The recorded failures of an offset are those of the reasons. */
  ghost predicate Tallied(failures: map<Offset, Failure>, o: Offset, h: seq<Reason>)
  {
    if h == [] then o !in failures else o in failures && failures[o] == Failure(Counting(h), Downs(h))
  }

  // ---- the verdict

  predicate Shuts(cfg: RetryConfig, h: seq<Reason>)
  {
    h != [] && h[|h| - 1].downStreamDown && 0 < cfg.maxConnectionRetries <= Downs(h)
  }

  predicate Skips(cfg: RetryConfig, h: seq<Reason>)
  {
    h != [] && !Shuts(cfg, h) && (!h[|h| - 1].retryable || Counting(h) >= cfg.maxRetries)
  }

  /** The retry of one entry of the write, and nothing else of it. */
  ghost predicate RetryOf(x: Retry, id: Id, w: WriteRequest, o: Offset)
  {
    && x.id == id && x.write.lsn == w.lsn && x.write.xid == w.xid && x.write.commitTime == w.commitTime
    && |x.write.entries| == 1 && x.write.entries[0] in w.entries && x.write.entries[0].offset == o
  }

  ghost predicate HasEntry(w: WriteRequest, o: Offset)
  {
    exists e :: e in w.entries && e.offset == o
  }

  /** What becomes of it when `h` are the reasons so far, this one included. */
  ghost predicate VerdictIs(v: Verdict, cfg: RetryConfig, h: seq<Reason>, id: Id, t: Tracked, o: Offset)
  {
    && (v.ShutDown? <==> Shuts(cfg, h))
    && (v.Skip? <==> Skips(cfg, h))
    && (v.Again? <==> !Shuts(cfg, h) && !Skips(cfg, h) && cfg.maxBackoff > 0 && o in t.pending
                      && t.write.Some? && HasEntry(t.write.value, o))
    && (v.Again? ==> RetryOf(v.retry, id, t.write.value, o))
    && !v.Missing? && !v.Ignored?
  }

  lemma TalliedMore(failures: map<Offset, Failure>, o: Offset, h: seq<Reason>, reason: Reason)
    requires Tallied(failures, o, h)
    ensures Failed(failures, o, reason) == Failure(Counting(h + [reason]), Downs(h + [reason]))
  {
    assert (h + [reason])[..|h|] == h;
  }

  /** In every state: the verdict on a failed entry is that of the reasons counted so far, the failure is
      counted, and nothing else changes. */
  lemma VerdictExactly(c: Core, cfg: RetryConfig, e: ErrorEntry, id: Id, h: seq<Reason>)
    requires Inv(c) && Concerns(c, e, id, e.response.offset) && Tallied(c.objs[id].failures, e.response.offset, h)
    ensures var (d, v) := JudgeEntry(c, cfg, e); var o, more := e.response.offset, h + [e.reason];
      && VerdictIs(v, cfg, more, id, c.objs[id], o)
      && id in d.objs && d == c.(objs := c.objs[id := d.objs[id]])
      && d.objs[id] == c.objs[id].(failures := c.objs[id].failures[o := Failure(Counting(more), Downs(more))])
  {
    var found := Find(c, c.tracking, e.response.lsn);
    UniqueLsn(c, found.value, id);
    TalliedMore(c.objs[id].failures, e.response.offset, h, e.reason);
  }

  /** An entry that concerns nothing pending is ignored, or its write is missing; nothing changes. */
  lemma NoConcern(c: Core, cfg: RetryConfig, e: ErrorEntry)
    requires Inv(c) && forall id <- c.tracking :: !Concerns(c, e, id, e.response.offset)
    ensures JudgeEntry(c, cfg, e).0 == c
    ensures JudgeEntry(c, cfg, e).1
            == if (exists id :: id in c.tracking && c.objs[id].point.lsn == e.response.lsn)
                  || (c.maxAck.lsn > 0 && e.response.lsn <= c.maxAck.lsn)
               then Ignored else Missing
  {
    var found := Find(c, c.tracking, e.response.lsn);
    if found.Some? {
      assert !Concerns(c, e, found.value, e.response.offset);
    }
  }

  // ---- one response

  /** The state before entry `k`. */
  ghost function CoreAt(c: Core, cfg: RetryConfig, es: seq<ErrorEntry>, k: nat): (d: Core)
    requires Closed(c) && k <= |es|
    ensures Closed(d)
  {
    if k == 0 then c else JudgeEntry(CoreAt(c, cfg, es, k - 1), cfg, es[k - 1]).0
  }

  ghost function VerdictAt(c: Core, cfg: RetryConfig, es: seq<ErrorEntry>, k: nat): Verdict
    requires Closed(c) && k < |es|
  {
    JudgeEntry(CoreAt(c, cfg, es, k), cfg, es[k]).1
  }

  lemma {:induction false} CoreAtTail(c: Core, cfg: RetryConfig, es: seq<ErrorEntry>, k: nat)
    requires Closed(c) && 0 < k <= |es|
    ensures CoreAt(c, cfg, es, k) == CoreAt(JudgeEntry(c, cfg, es[0]).0, cfg, es[1..], k - 1)
  {
    if k == 1 {
      assert CoreAt(c, cfg, es, 0) == c;
    } else {
      CoreAtTail(c, cfg, es, k - 1);
    }
  }

  /** The verdicts on the entries of a response, one after the other. */
  ghost function Verdicts(c: Core, cfg: RetryConfig, es: seq<ErrorEntry>): (vs: seq<Verdict>)
    requires Closed(c)
    ensures |vs| == |es|
    decreases |es|
  {
    if es == [] then [] else var (c1, v) := JudgeEntry(c, cfg, es[0]); [v] + Verdicts(c1, cfg, es[1..])
  }

  lemma {:induction false} VerdictsAre(c: Core, cfg: RetryConfig, es: seq<ErrorEntry>, k: nat)
    requires Closed(c) && k < |es|
    ensures Verdicts(c, cfg, es)[k] == VerdictAt(c, cfg, es, k)
    decreases |es|
  {
    if k > 0 {
      CoreAtTail(c, cfg, es, k);
      VerdictsAre(JudgeEntry(c, cfg, es[0]).0, cfg, es[1..], k - 1);
    }
  }

  /** Responses of the skipped entries, and the retries, in order. */
  function SkipsOf(es: seq<ErrorEntry>, vs: seq<Verdict>): seq<ResponseEntry>
    requires |es| == |vs|
  {
    if es == [] then [] else (if vs[0].Skip? then [es[0].response] else []) + SkipsOf(es[1..], vs[1..])
  }

  function RetriesOf(vs: seq<Verdict>): seq<Retry>
  {
    if vs == [] then [] else (if vs[0].Again? then [vs[0].retry] else []) + RetriesOf(vs[1..])
  }

  predicate Continues(v: Verdict)
  {
    !v.Missing? && !v.ShutDown?
  }

  ghost predicate AllContinue(vs: seq<Verdict>)
  {
    forall k :: 0 <= k < |vs| ==> Continues(vs[k])
  }

  lemma ContinueTail(v: Verdict, rest: seq<Verdict>)
    ensures AllContinue([v] + rest) <==> Continues(v) && AllContinue(rest)
  {
    var vs := [v] + rest;
    assert vs[0] == v && forall k :: 0 <= k < |rest| ==> vs[k + 1] == rest[k];
  }

  /** A response is processed to the end exactly when no entry is missing its write or shuts down. Then its
      skips are those of the entries judged so, its retries those of the entries to be tried again. */
  lemma {:induction false} ResponseExactly(c: Core, cfg: RetryConfig, es: seq<ErrorEntry>)
    requires Closed(c)
    ensures var (d, out) := ProcessErrors(c, cfg, es); var vs := Verdicts(c, cfg, es);
      && (out.Processed? <==> AllContinue(vs))
      && (out.Processed? ==>
            d == CoreAt(c, cfg, es, |es|) && out.skips == SkipsOf(es, vs) && out.retries == RetriesOf(vs))
    decreases |es|
  {
    if es != [] {
      var (c1, v) := JudgeEntry(c, cfg, es[0]);
      var rest := Verdicts(c1, cfg, es[1..]);
      ContinueTail(v, rest);
      CoreAtTail(c, cfg, es, |es|);
      ResponseExactly(c1, cfg, es[1..]);
      assert ([v] + rest)[1..] == rest;
    }
  }

  /** The first verdict that ends a response. */
  ghost predicate StopsAt(vs: seq<Verdict>, k: nat)
  {
    k < |vs| && !Continues(vs[k]) && forall j :: 0 <= j < k ==> Continues(vs[j])
  }

  function Ending(v: Verdict): ErrorOutcome
  {
    if v.ShutDown? then ShuttingDown else MissingWrite
  }

  lemma {:induction false} FirstStop(c: Core, cfg: RetryConfig, es: seq<ErrorEntry>) returns (k: nat)
    requires Closed(c) && !AllContinue(Verdicts(c, cfg, es))
    ensures StopsAt(Verdicts(c, cfg, es), k) && ProcessErrors(c, cfg, es).1 == Ending(Verdicts(c, cfg, es)[k])
    decreases |es|
  {
    var (c1, v) := JudgeEntry(c, cfg, es[0]);
    var rest := Verdicts(c1, cfg, es[1..]);
    if !Continues(v) {
      k := 0;
    } else {
      ContinueTail(v, rest);
      var j := FirstStop(c1, cfg, es[1..]);
      k := j + 1;
      StopsLater(v, rest, j);
    }
  }

  lemma StopsLater(v: Verdict, rest: seq<Verdict>, k: nat)
    requires Continues(v) && StopsAt(rest, k)
    ensures StopsAt([v] + rest, k + 1) && ([v] + rest)[k + 1] == rest[k]
  {
    var vs := [v] + rest;
    forall j | 0 <= j < k + 1 ensures Continues(vs[j]) {
      assert j > 0 ==> vs[j] == rest[j - 1];
    }
  }

  /** Otherwise the first entry that ends it decides how, nothing but failure counts has changed, and no entry
      is acknowledged or retried. */
  lemma StoppedExactly(c: Core, cfg: RetryConfig, es: seq<ErrorEntry>) returns (k: nat)
    requires Inv(c) && !AllContinue(Verdicts(c, cfg, es))
    ensures StopsAt(Verdicts(c, cfg, es), k)
    ensures Tracker.ErrorsHandled(c, cfg, es).1
            == if Verdicts(c, cfg, es)[k].ShutDown? then Tracker.DownstreamDown else Tracker.WriteMissing
    ensures OnlyFailures(c, Tracker.ErrorsHandled(c, cfg, es).0)
  {
    k := FirstStop(c, cfg, es);
    ErrorsEffect(c, cfg, es);
  }

  lemma {:induction false} SkipsMembers(es: seq<ErrorEntry>, vs: seq<Verdict>, s: ResponseEntry)
    requires |es| == |vs|
    ensures s in SkipsOf(es, vs) <==> exists k :: 0 <= k < |es| && vs[k].Skip? && es[k].response == s
  {
    if es != [] {
      SkipsMembers(es[1..], vs[1..], s);
      if s in SkipsOf(es[1..], vs[1..]) {
        var k :| 0 <= k < |es| - 1 && vs[1..][k].Skip? && es[1..][k].response == s;
        assert vs[k + 1].Skip? && es[k + 1].response == s;
      }
      if k :| 0 < k < |es| && vs[k].Skip? && es[k].response == s {
        assert vs[1..][k - 1].Skip? && es[1..][k - 1].response == s;
      }
    }
  }

  lemma {:induction false} RetriesMembers(vs: seq<Verdict>, x: Retry)
    ensures x in RetriesOf(vs) <==> exists k :: 0 <= k < |vs| && vs[k] == Again(x)
  {
    if vs != [] {
      RetriesMembers(vs[1..], x);
      if x in RetriesOf(vs[1..]) {
        var k :| 0 <= k < |vs| - 1 && vs[1..][k] == Again(x);
        assert vs[k + 1] == Again(x);
      }
      if k :| 0 < k < |vs| && vs[k] == Again(x) {
        assert vs[1..][k - 1] == Again(x);
      }
    }
  }

  // ---- the reasons of a run

  /** The reasons a response reports for an offset of a write, up to the entry that ends it. */
  ghost function ReasonsIn(c: Core, cfg: RetryConfig, es: seq<ErrorEntry>, id: Id, o: Offset): seq<Reason>
    requires Closed(c)
    decreases |es|
  {
    if es == [] then [] else
    var (c1, v) := JudgeEntry(c, cfg, es[0]);
    (if Concerns(c, es[0], id, o) then [es[0].reason] else [])
    + if Continues(v) then ReasonsIn(c1, cfg, es[1..], id, o) else []
  }

  ghost function ReasonsAt(r: Run, e: Event, id: Id, o: Offset): seq<Reason>
    requires Closed(r.core)
  {
    if e.OnError? then ReasonsIn(r.core, r.cfg, e.errs, id, o) else []
  }

  /** And those of a run. */
  ghost function Reasons(r: Run, events: seq<Event>, id: Id, o: Offset): seq<Reason>
    decreases |events|
  {
    if events == [] || !Closed(r.core) || !Enabled(r, events[0]) then [] else
    ReasonsAt(r, events[0], id, o) + Reasons(Step(r, events[0]), events[1..], id, o)
  }

  ghost predicate TalliedAt(objs: map<Id, Tracked>, id: Id, o: Offset, h: seq<Reason>)
  {
    && (id !in objs ==> h == [])
    && (id in objs && !objs[id].released ==> Tallied(objs[id].failures, o, h))
  }

  lemma JudgeTallies(c: Core, cfg: RetryConfig, e: ErrorEntry, id: Id, o: Offset, h: seq<Reason>)
    requires Inv(c) && TalliedAt(c.objs, id, o, h)
    ensures TalliedAt(JudgeEntry(c, cfg, e).0.objs, id, o, if Concerns(c, e, id, o) then h + [e.reason] else h)
  {
    var found := Find(c, c.tracking, e.response.lsn);
    if found.Some? {
      assert Ok(c, found.value);
      if id in c.tracking {
        UniqueLsn(c, found.value, id);
      }
    }
    if Concerns(c, e, id, o) {
      assert Ok(c, id);
      VerdictExactly(c, cfg, e, id, h);
    }
  }

  lemma Assoc<T>(a: seq<T>, b: seq<T>, c: seq<T>)
    ensures a + b + c == a + (b + c) && a + [] == a
  {
  }

  lemma {:induction false} ErrorsTally(c: Core, cfg: RetryConfig, es: seq<ErrorEntry>, id: Id, o: Offset,
      h: seq<Reason>)
    requires Inv(c) && TalliedAt(c.objs, id, o, h)
    ensures TalliedAt(ProcessErrors(c, cfg, es).0.objs, id, o, h + ReasonsIn(c, cfg, es, id, o))
    decreases |es|
  {
    if es == [] {
      Assoc(h, [], []);
    } else {
      var (c1, v) := JudgeEntry(c, cfg, es[0]);
      var now := if Concerns(c, es[0], id, o) then [es[0].reason] else [];
      JudgeTallies(c, cfg, es[0], id, o, h);
      Assoc(h, now, []);
      Assoc(now, [], []);
      FirstProcessed(c, cfg, es);
      if Continues(v) {
        JudgeKeeps(c, cfg, es[0]);
        ErrorsTally(c1, cfg, es[1..], id, o, h + now);
        Assoc(h, now, ReasonsIn(c1, cfg, es[1..], id, o));
      }
    }
  }

  lemma FirstProcessed(c: Core, cfg: RetryConfig, es: seq<ErrorEntry>)
    requires Closed(c) && es != []
    ensures var (c1, v) := JudgeEntry(c, cfg, es[0]);
      ProcessErrors(c, cfg, es).0 == if Continues(v) then ProcessErrors(c1, cfg, es[1..]).0 else c1
  {
  }

  lemma StepTallies(r: Run, e: Event, id: Id, o: Offset, h: seq<Reason>)
    requires RInv(r) && Enabled(r, e) && TalliedAt(r.core.objs, id, o, h)
    ensures TalliedAt(Step(r, e).core.objs, id, o, h + ReasonsAt(r, e, id, o))
  {
    if e.OnError? {
      ErrorsTally(r.core, r.cfg, e.errs, id, o, h);
      StepShutdown(r, e);
    } else {
      StepCounts(r, e, id);
      Assoc(h, [], []);
    }
  }

  lemma {:induction false} RunTallies(r: Run, events: seq<Event>, r': Run, id: Id, o: Offset, h: seq<Reason>)
    requires RInv(r) && Runs(r, events, r') && TalliedAt(r.core.objs, id, o, h)
    ensures TalliedAt(r'.core.objs, id, o, h + Reasons(r, events, id, o)) && r'.cfg == r.cfg
    decreases |events|
  {
    if events == [] {
      Assoc(h, [], []);
    } else {
      var now, next := ReasonsAt(r, events[0], id, o), Step(r, events[0]);
      StepKeeps(r, events[0]);
      StepShutdown(r, events[0]);
      StepTallies(r, events[0], id, o, h);
      RunTallies(next, events[1..], r', id, o, h + now);
      Assoc(h, now, Reasons(next, events[1..], id, o));
      ReasonsFirst(r, events, id, o);
    }
  }

  lemma ReasonsFirst(r: Run, events: seq<Event>, id: Id, o: Offset)
    requires events != [] && Closed(r.core) && Enabled(r, events[0])
    ensures Reasons(r, events, id, o)
            == ReasonsAt(r, events[0], id, o) + Reasons(Step(r, events[0]), events[1..], id, o)
  {
  }

  /** Over every run, the verdict on a failed entry of a pending write depends on the reasons reported for
      this entry before, on its own and on the limits alone. */
  lemma VerdictOverRuns(cfg: RetryConfig, events: seq<Event>, r: Run, e: ErrorEntry, id: Id)
    requires Reachable(cfg, events, r) && Concerns(r.core, e, id, e.response.offset)
    ensures Closed(r.core)
    ensures var o := e.response.offset;
      VerdictIs(JudgeEntry(r.core, cfg, e).1, cfg, Reasons(Init(cfg), events, id, o) + [e.reason], id,
                r.core.objs[id], o)
  {
    var o := e.response.offset;
    InitOk(cfg);
    RunsKeep(Init(cfg), events, r);
    RunTallies(Init(cfg), events, r, id, o, []);
    assert [] + Reasons(Init(cfg), events, id, o) == Reasons(Init(cfg), events, id, o);
    assert Ok(r.core, id);
    VerdictExactly(r.core, cfg, e, id, Reasons(Init(cfg), events, id, o));
  }

  // ---- a whole call of OnError

  lemma NonRetryable(c: Core, cfg: RetryConfig, e: ErrorEntry, id: Id)
    requires Inv(c) && Concerns(c, e, id, e.response.offset)
    ensures c.objs[id].write.Some?
    ensures var v := JudgeEntry(c, cfg, e).1;
      && (!e.reason.retryable ==> v.Skip? || v.ShutDown?)
      && (v.Again? ==> e.reason.retryable
                       && RetryOf(v.retry, id, c.objs[id].write.value, e.response.offset))
      && (v.Dropped? ==> cfg.maxBackoff <= 0 || e.response.offset !in c.objs[id].pending
                         || !HasEntry(c.objs[id].write.value, e.response.offset))
      && !v.Ignored? && !v.Missing?
  {
    assert Ok(c, id);
    var found := Find(c, c.tracking, e.response.lsn);
    UniqueLsn(c, found.value, id);
  }

  lemma {:induction false} CoreAtKeeps(c: Core, cfg: RetryConfig, es: seq<ErrorEntry>, k: nat)
    requires Inv(c) && k <= |es|
    ensures Inv(CoreAt(c, cfg, es, k)) && OnlyFailures(c, CoreAt(c, cfg, es, k))
  {
    if k > 0 {
      CoreAtKeeps(c, cfg, es, k - 1);
      var d := CoreAt(c, cfg, es, k - 1);
      JudgeKeeps(d, cfg, es[k - 1]);
      JudgeEffect(d, cfg, es[k - 1]);
      FailuresTwice(c, d, CoreAt(c, cfg, es, k));
    }
  }

  /** Entry `k` is judged as it would be alone. */
  lemma JudgedInResponse(c: Core, cfg: RetryConfig, es: seq<ErrorEntry>, k: nat, id: Id)
    requires Inv(c) && k < |es| && Concerns(c, es[k], id, es[k].response.offset)
    ensures c.objs[id].write.Some?
    ensures var v, e := Verdicts(c, cfg, es)[k], es[k];
      && (!e.reason.retryable ==> v.Skip? || v.ShutDown?)
      && (v.Again? ==> e.reason.retryable && RetryOf(v.retry, id, c.objs[id].write.value, e.response.offset))
      && (v.Dropped? ==> cfg.maxBackoff <= 0 || e.response.offset !in c.objs[id].pending
                         || !HasEntry(c.objs[id].write.value, e.response.offset))
      && !v.Ignored? && !v.Missing?
  {
    assert Ok(c, id);
    VerdictsAre(c, cfg, es, k);
    CoreAtKeeps(c, cfg, es, k);
    var d := CoreAt(c, cfg, es, k);
    assert SameButFailures(c.objs[id], d.objs[id]);
    NonRetryable(d, cfg, es[k], id);
  }

  /** An entry with verdict Again concerns a write. */
  lemma AgainConcerns(c: Core, cfg: RetryConfig, e: ErrorEntry)
    requires Inv(c) && JudgeEntry(c, cfg, e).1.Again?
    ensures Concerns(c, e, JudgeEntry(c, cfg, e).1.retry.id, e.response.offset)
  {
  }

  /** After a call of OnError that was neither stopped by a shutdown nor by a missing write: the offset of a
      failure that is not to be retried is acknowledged. One that is still pending has a timer, unless there
      is no backoff or no entry to send. */
  lemma FailureHandled(c: Core, cfg: RetryConfig, es: seq<ErrorEntry>, k: nat, id: Id)
    requires Inv(c) && Tracker.ErrorsHandled(c, cfg, es).1 == Tracker.Done && k < |es|
    requires Concerns(c, es[k], id, es[k].response.offset)
    ensures var d, o := Tracker.ErrorsHandled(c, cfg, es).0, es[k].response.offset;
      && id in d.objs && c.objs[id].write.Some?
      && (!es[k].reason.retryable ==> o !in d.objs[id].pending)
      && (o in d.objs[id].pending && cfg.maxBackoff > 0 && HasEntry(c.objs[id].write.value, o) ==>
            exists x :: x in d.timers && RetryOf(x, id, c.objs[id].write.value, o))
  {
    var (d, out) := ProcessErrors(c, cfg, es);
    var vs, e, o := Verdicts(c, cfg, es), es[k], es[k].response.offset;
    ResponseExactly(c, cfg, es);
    JudgedInResponse(c, cfg, es, k, id);
    CoreAtKeeps(c, cfg, es, |es|);
    assert SameButFailures(c.objs[id], d.objs[id]);
    AckAllEffect(d, out.skips, id);
    AckAllFrame(d, out.skips);
    if vs[k].Skip? {
      SkipsMembers(es, vs, e.response);
      assert e.response in out.skips && o in AckedAt(out.skips, c.objs[id].point.lsn);
    }
    if vs[k].Again? {
      RetriesMembers(vs, vs[k].retry);
      assert vs[k].retry in multiset(out.retries);
    }
    assert Continues(vs[k]);
  }

  /** And every timer it has set is for a failure that is to be retried, with the one entry that failed. */
  lemma TimersAdded(c: Core, cfg: RetryConfig, es: seq<ErrorEntry>, x: Retry)
    requires Inv(c) && Tracker.ErrorsHandled(c, cfg, es).1 == Tracker.Done
    requires x in Tracker.ErrorsHandled(c, cfg, es).0.timers && x !in c.timers
    ensures exists k :: 0 <= k < |es| && TimerFor(c, es[k], x)
  {
    var (d, out) := ProcessErrors(c, cfg, es);
    var vs := Verdicts(c, cfg, es);
    ResponseExactly(c, cfg, es);
    CoreAtKeeps(c, cfg, es, |es|);
    AckAllFrame(d, out.skips);
    assert x in out.retries;
    RetriesMembers(vs, x);
    var k :| 0 <= k < |vs| && vs[k] == Again(x);
    VerdictsAre(c, cfg, es, k);
    CoreAtKeeps(c, cfg, es, k);
    var ck := CoreAt(c, cfg, es, k);
    AgainConcerns(ck, cfg, es[k]);
    assert SameButFailures(c.objs[x.id], ck.objs[x.id]);
    JudgedInResponse(c, cfg, es, k, x.id);
    assert TimerFor(c, es[k], x);
  }

  ghost predicate TimerFor(c: Core, e: ErrorEntry, x: Retry)
  {
    && e.reason.retryable && Concerns(c, e, x.id, e.response.offset)
    && c.objs[x.id].write.Some? && RetryOf(x, x.id, c.objs[x.id].write.value, e.response.offset)
  }
}
