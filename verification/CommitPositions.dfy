/** Confirmed positions against commit records: the position one past an ordinary transaction's end may
    lie inside the record that follows. */
module CommitPositions {
  import opened Wal
  import opened TrackerSpec
  import opened TrackerRuns
  import opened TrackerDelivery
  import opened Replicator
  import opened EndToEnd
  import opened CommitKeys

  /** Every accepted write is one of the transactions. */
  ghost predicate Tracks(accepted: map<Id, WriteRequest>, txs: seq<Tx>)
  {
    forall id <- accepted :: HasKey(txs, accepted[id].lsn)
  }

  ghost predicate HasKey(txs: seq<Tx>, lsn: Lsn)
  {
    exists i :: 0 <= i < |txs| && Key(txs[i]) == lsn
  }

  ghost predicate AllAfter(txs: seq<Tx>, start: Lsn)
  {
    forall i :: 0 <= i < |txs| ==> txs[i].commitLsn >= start
  }

  /** An ordinary transaction that has been confirmed ends where the record of `t` starts. */
  ghost predicate Meets(reported: seq<Lsn>, txs: seq<Tx>, t: Tx)
  {
    exists i :: 0 <= i < |txs| && !txs[i].streamed && txs[i].endLsn == t.commitLsn && txs[i].endLsn + 1 in reported
  }

  /** Over every run, the commit record of an unfinished transaction starts at or above every position
      ever reported if and only if it does not start where a confirmed ordinary one ends. */
  lemma RecordNotConfirmedExactly(cfg: RetryConfig, start: Lsn, hs: seq<Happening>, s: System, txs: seq<Tx>, j: nat,
      id: Id)
    requires Leads(Begin(cfg, start), hs, s) && WalOrder(txs) && AllAfter(txs, start) && Tracks(s.run.accepted, txs)
    requires j < |txs| && id in s.run.accepted && s.run.accepted[id].lsn == Key(txs[j]) && Unfinished(s.run, id)
    ensures (forall p <- s.rep.reported :: p <= txs[j].commitLsn) <==> !Meets(s.rep.reported, txs, txs[j])
  {
    ReportedKnown(cfg, start, hs, s);
    NothingConfirmedEarly(cfg, start, hs, s, id);
    KnownExactly(s.run.accepted, start, s.rep.reported, txs, j);
  }

  ghost predicate AllReportedKnown(accepted: map<Id, WriteRequest>, start: Lsn, reported: seq<Lsn>)
  {
    forall p <- reported :: p > 0 && KnownPos(accepted, start, p - 1)
  }

  lemma ReportedKnown(cfg: RetryConfig, start: Lsn, hs: seq<Happening>, s: System)
    requires Leads(Begin(cfg, start), hs, s)
    ensures AllReportedKnown(s.run.accepted, start, s.rep.reported)
  {
    LeadsOk(cfg, start, hs, s);
  }

  lemma KnownExactly(accepted: map<Id, WriteRequest>, start: Lsn, reported: seq<Lsn>, txs: seq<Tx>, j: nat)
    requires WalOrder(txs) && AllAfter(txs, start) && Tracks(accepted, txs) && j < |txs|
    requires AllReportedKnown(accepted, start, reported) && forall p <- reported :: p <= Key(txs[j])
    ensures (forall p <- reported :: p <= txs[j].commitLsn) <==> !Meets(reported, txs, txs[j])
  {
    forall p | p in reported && p > txs[j].commitLsn ensures Meets(reported, txs, txs[j]) {
      OvershootMeets(accepted, start, reported, txs, j, p);
    }
  }

  lemma OvershootMeets(accepted: map<Id, WriteRequest>, start: Lsn, reported: seq<Lsn>, txs: seq<Tx>, j: nat, p: Lsn)
    requires WalOrder(txs) && AllAfter(txs, start) && Tracks(accepted, txs) && j < |txs|
    requires p in reported && p > txs[j].commitLsn && p <= Key(txs[j]) && KnownPos(accepted, start, p - 1)
    ensures Meets(reported, txs, txs[j])
  {
    StartNotAbove(txs, start, j, p);
    var id :| id in accepted && accepted[id].lsn == p - 1;
    assert HasKey(txs, accepted[id].lsn);
    var i :| 0 <= i < |txs| && Key(txs[i]) == p - 1;
    KeyBefore(txs, i, j, p);
  }

  lemma StartNotAbove(txs: seq<Tx>, start: Lsn, j: nat, p: Lsn)
    requires WalOrder(txs) && AllAfter(txs, start) && j < |txs| && p > txs[j].commitLsn
    ensures p - 1 != StartPos(start)
  {
  }

  /** Only an ordinary record that ends where `j` starts has its key inside the record of `j`. */
  lemma KeyBefore(txs: seq<Tx>, i: nat, j: nat, p: Lsn)
    requires WalOrder(txs) && i < |txs| && j < |txs|
    requires Key(txs[i]) == p - 1 && txs[j].commitLsn < p <= Key(txs[j])
    ensures !txs[i].streamed && txs[i].endLsn == txs[j].commitLsn && p == txs[i].endLsn + 1
  {
    if j < i {
      KeysOrdered(txs, j, i);
    } else if i < j {
      assert txs[i].endLsn <= txs[j].commitLsn;
    }
  }

  // ---- a run in which it does

  /** One step, whose responses answer what is in flight. */
  ghost predicate LeadsTo(s: System, h: Happening, next: System)
  {
    && Closed(s.run.core) && Possible(s, h) && Next(s, h) == next
    && (h.TrackerStep? ==> Answers(s.run, h.e))
  }

  ghost predicate GenuineLeads(s: System, hs: seq<Happening>, s': System)
    decreases |hs|
  {
    if hs == [] then s == s' else exists next :: LeadsTo(s, hs[0], next) && GenuineLeads(next, hs[1..], s')
  }

  lemma {:induction false} GenuineLeadsLeads(s: System, hs: seq<Happening>, s': System)
    requires GenuineLeads(s, hs, s')
    ensures Leads(s, hs, s')
    decreases |hs|
  {
    if hs != [] {
      var next :| LeadsTo(s, hs[0], next) && GenuineLeads(next, hs[1..], s');
      GenuineLeadsLeads(next, hs[1..], s');
    }
  }

  lemma LeadsCons(s: System, h: Happening, next: System, rest: seq<Happening>, s': System)
    requires LeadsTo(s, h, next) && GenuineLeads(next, rest, s')
    ensures GenuineLeads(s, [h] + rest, s')
  {
    assert ([h] + rest)[1..] == rest;
  }

  /** A run of the tracker under a replicator that does nothing meanwhile. */
  lemma {:induction false} TrackerLeads(s: System, events: seq<Event>, r: Run, rest: seq<Happening>, s': System)
    returns (hs: seq<Happening>)
    requires Genuine(s.run, events, r) && GenuineLeads(s.(run := r), rest, s') && s.start == 0
    ensures GenuineLeads(s, hs, s')
    decreases |events|
  {
    if events == [] {
      hs := rest;
      assert s.(run := r) == s;
    } else {
      var next :| GoesTo(s.run, events[0], next) && Genuine(next, events[1..], r);
      hs := TrackerLeads(s.(run := next), events[1..], r, rest, s');
      LeadsCons(s, TrackerStep(events[0]), s.(run := next), hs, s');
      hs := [TrackerStep(events[0])] + hs;
    }
  }

  /** The second write is added after the first was acknowledged. */
  lemma AddsSecond(cfg: RetryConfig, first: WriteRequest, second: WriteRequest) returns (r: Run)
    requires first.entries == [] && second.entries == [] && 0 < first.lsn < second.lsn
    ensures GoesTo(Confirmed(cfg, first), Add(second, 1), r)
    ensures r.core == Core(map[0 := Release(NewTracked(first)), 1 := NewTracked(second)], [1],
                           CommitPoint(first.lsn, first.xid), [], multiset{}, 0, multiset{0})
    ensures r.accepted == map[0 := first, 1 := second]
  {
    var r2 := Confirmed(cfg, first);
    assert InsertByLsn(r2.core.objs, [], 1, second.lsn) == [1];
    r := DoAdd(r2, second, 1);
  }

  lemma BothAdded(cfg: RetryConfig, first: WriteRequest, second: WriteRequest) returns (events: seq<Event>, r: Run)
    requires first.entries == [] && second.entries == [] && 0 < first.lsn < second.lsn
    ensures Genuine(Init(cfg), events, r)
    ensures r.core == Core(map[0 := Release(NewTracked(first)), 1 := NewTracked(second)], [1],
                           CommitPoint(first.lsn, first.xid), [], multiset{}, 0, multiset{0})
    ensures r.accepted == map[0 := first, 1 := second]
  {
    var before := Confirms(cfg, first);
    r := AddsSecond(cfg, first, second);
    GenuineLast(Init(cfg), before, Confirmed(cfg, first), Add(second, 1), r);
    events := before + [Add(second, 1)];
  }

  lemma Reports(s: System) returns (hs: seq<Happening>, s': System)
    requires Closed(s.run.core) && Advance(s.run.core) == s.run.core
        && s.run.core.maxAck.lsn > s.rep.pos.lsn >= s.rep.lastSentLsn
    ensures GenuineLeads(s, hs, s') && s'.run == s.run && s.run.core.maxAck.lsn + 1 in s'.rep.reported
  {
    var s1 := s.(rep := Polled(s.rep, s.run.core.maxAck));
    s' := s1.(rep := Sent(s1.rep));
    assert s.run.(core := s.run.core) == s.run;
    assert GenuineLeads(s', [], s') && LeadsTo(s1, SendStandBy(false, true), s') && LeadsTo(s, ReadCommitPos, s1);
    LeadsCons(s1, SendStandBy(false, true), s', [], s');
    LeadsCons(s, ReadCommitPos, s1, [SendStandBy(false, true)] + [], s');
    hs := [ReadCommitPos] + ([SendStandBy(false, true)] + []);
  }

  /** A run in which writers answer what they were handed reports a position inside the commit record of
      the unfinished transaction `j`. */
  ghost predicate Overshoots(cfg: RetryConfig, start: Lsn, hs: seq<Happening>, s: System, txs: seq<Tx>, j: int, id: Id)
  {
    && GenuineLeads(Begin(cfg, start), hs, s) && AllAfter(txs, start) && Tracks(s.run.accepted, txs)
    && 0 <= j < |txs| && id in s.run.accepted && s.run.accepted[id].lsn == Key(txs[j]) && Unfinished(s.run, id)
    && Above(s.rep.reported, txs[j].commitLsn)
  }

  ghost predicate Above(reported: seq<Lsn>, lsn: Lsn)
  {
    exists p :: p in reported && p > lsn
  }

  /** An ordinary record starts where another ends; a streamed one that does is a collision of keys. */
  ghost predicate Touching(txs: seq<Tx>)
  {
    exists i, j :: 0 <= i < |txs| && 0 <= j < |txs| && Touch(txs[i], txs[j])
  }

  predicate Touch(a: Tx, b: Tx)
  {
    !a.streamed && !b.streamed && a.endLsn == b.commitLsn
  }

  /** After the first of two such transactions is acknowledged, a position inside the record of the second,
      of which everything is pending, is reported. */
  lemma ConfirmedInside(cfg: RetryConfig, txs: seq<Tx>, i: nat, j: nat) returns (hs: seq<Happening>, s: System)
    requires WalOrder(txs) && i < |txs| && j < |txs| && Touch(txs[i], txs[j])
    ensures Overshoots(cfg, 0, hs, s, txs, j, 1) && txs[j].commitLsn + 1 in s.rep.reported
  {
    var first, second := WriteRequest([], Key(txs[i]), 1, 0), WriteRequest([], Key(txs[j]), 2, 0);
    TouchOrdered(txs, i, j);
    hs, s := FirstReported(cfg, first, second);
    InsideRecord(cfg, txs, i, j, hs, s, first, second);
  }

  lemma InsideRecord(cfg: RetryConfig, txs: seq<Tx>, i: nat, j: nat, hs: seq<Happening>, s: System,
      first: WriteRequest, second: WriteRequest)
    requires i < |txs| && j < |txs| && Touch(txs[i], txs[j])
    requires first.lsn == Key(txs[i]) && second.lsn == Key(txs[j])
    requires GenuineLeads(Begin(cfg, 0), hs, s) && s.run.accepted == map[0 := first, 1 := second]
    requires Unfinished(s.run, 1) && first.lsn + 1 in s.rep.reported
    ensures Overshoots(cfg, 0, hs, s, txs, j, 1) && txs[j].commitLsn + 1 in s.rep.reported
  {
    BothKeys(txs, i, j, s.run.accepted, first, second);
    assert Above(s.rep.reported, txs[j].commitLsn);
  }

  lemma FirstReported(cfg: RetryConfig, first: WriteRequest, second: WriteRequest)
    returns (hs: seq<Happening>, s: System)
    requires first.entries == [] && second.entries == [] && 0 < first.lsn < second.lsn
    ensures GenuineLeads(Begin(cfg, 0), hs, s) && s.run.accepted == map[0 := first, 1 := second]
    ensures Unfinished(s.run, 1) && first.lsn + 1 in s.rep.reported
  {
    var events, r := BothAdded(cfg, first, second);
    var start := Begin(cfg, 0);
    hs, s := Reports(start.(run := r));
    hs := TrackerLeads(start, events, r, hs, s);
    SecondUnfinished(s.run, first, second);
  }

  lemma SecondUnfinished(r: Run, first: WriteRequest, second: WriteRequest)
    requires second.entries == [] && r.accepted == map[0 := first, 1 := second]
    requires r.core.objs == map[0 := Release(NewTracked(first)), 1 := NewTracked(second)]
    ensures Unfinished(r, 1)
  {
    assert 0 in NewTracked(second).pending;
  }

  lemma BothKeys(txs: seq<Tx>, i: nat, j: nat, accepted: map<Id, WriteRequest>, first: WriteRequest,
      second: WriteRequest)
    requires i < |txs| && j < |txs| && first.lsn == Key(txs[i]) && second.lsn == Key(txs[j])
    requires accepted == map[0 := first, 1 := second]
    ensures Tracks(accepted, txs)
  {
    assert HasKey(txs, first.lsn) && HasKey(txs, second.lsn);
  }

  lemma TouchOrdered(txs: seq<Tx>, i: nat, j: nat)
    requires WalOrder(txs) && i < |txs| && j < |txs| && Touch(txs[i], txs[j])
    ensures 0 < Key(txs[i]) < Key(txs[j])
  {
  }

  lemma OvershootTouches(cfg: RetryConfig, start: Lsn, hs: seq<Happening>, s: System, txs: seq<Tx>, j: int, id: Id)
    requires WalOrder(txs) && Overshoots(cfg, start, hs, s, txs, j, id)
    ensures Touching(txs)
  {
    GenuineLeadsLeads(Begin(cfg, start), hs, s);
    RecordNotConfirmedExactly(cfg, start, hs, s, txs, j, id);
    NothingConfirmedEarly(cfg, start, hs, s, id);
    MeetsTouches(s.rep.reported, txs, j);
  }

  lemma MeetsTouches(reported: seq<Lsn>, txs: seq<Tx>, j: nat)
    requires j < |txs| && Meets(reported, txs, txs[j]) && forall p <- reported :: p <= Key(txs[j])
    ensures Touching(txs)
  {
    var i :| 0 <= i < |txs| && !txs[i].streamed && txs[i].endLsn == txs[j].commitLsn && txs[i].endLsn + 1 in reported;
    assert Touch(txs[i], txs[j]);
  }

  /** For a given WAL, some run confirms part of an unfinished commit record if and only if an ordinary
      record starts where another ends. */
  lemma ConfirmedInsideExactly(cfg: RetryConfig, txs: seq<Tx>)
    requires WalOrder(txs)
    ensures (exists start, hs, s, j, id :: Overshoots(cfg, start, hs, s, txs, j, id)) <==> Touching(txs)
  {
    if Touching(txs) {
      var i, j :| 0 <= i < |txs| && 0 <= j < |txs| && Touch(txs[i], txs[j]);
      var hs, s := ConfirmedInside(cfg, txs, i, j);
    }
    forall start, hs, s, j, id | Overshoots(cfg, start, hs, s, txs, j, id) ensures Touching(txs) {
      OvershootTouches(cfg, start, hs, s, txs, j, id);
    }
  }

  /** The smallest case: position 21 is reported while the record of the second transaction starts at 20. */
  lemma RecordConfirmedEarly(cfg: RetryConfig) returns (hs: seq<Happening>, s: System, txs: seq<Tx>)
    ensures txs == [Tx(false, 10, 20), Tx(false, 20, 30)] && WalOrder(txs)
    ensures Overshoots(cfg, 0, hs, s, txs, 1, 1) && 21 in s.rep.reported
  {
    txs := [Tx(false, 10, 20), Tx(false, 20, 30)];
    hs, s := ConfirmedInside(cfg, txs, 0, 1);
  }
}
