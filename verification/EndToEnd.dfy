/** The tracker and the replicator together: what may be confirmed to the server, over every run
    with reconnects. */
module EndToEnd {
  import opened Wal
  import opened TrackerSpec
  import opened TrackerInvariant
  import opened TrackerRuns
  import opened TrackerTheorems
  import opened Replicator

  datatype System = System(run: Run, rep: Position, start: Lsn)

  datatype Happening =
    | TrackerStep(e: Event)
    | ReadCommitPos
    | SendStandBy(due: bool, ok: bool)
    | SyncSlots(saved: Lsn)
    | Connect

  function Begin(cfg: RetryConfig, start: Lsn): System
  {
    System(Init(cfg), Started(start), start)
  }

  /** The server sends nothing from before the start position. */
  predicate Possible(s: System, h: Happening)
  {
    h.TrackerStep? ==> Enabled(s.run, h.e) && (h.e.Add? ==> h.e.req.lsn >= s.start)
  }

  function Next(s: System, h: Happening): System
    requires Closed(s.run.core) && Possible(s, h)
  {
    match h
    case TrackerStep(e) => s.(run := Step(s.run, e))
    case ReadCommitPos =>
      var run := Step(s.run, Poll);
      s.(run := run, rep := Polled(s.rep, run.core.maxAck))
    case SendStandBy(due, ok) => s.(rep := StandBy(s.rep, due, ok))
    case SyncSlots(saved) => s.(rep := Synced(s.rep, saved))
    case Connect => s.(rep := Connected(s.rep))
  }

  ghost predicate Leads(s: System, hs: seq<Happening>, s': System)
    decreases |hs|
  {
    if hs == [] then s == s' else
      Closed(s.run.core) && Possible(s, hs[0]) && Leads(Next(s, hs[0]), hs[1..], s')
  }

  /** Where the position starts: one below the start. */
  function StartPos(start: Lsn): Lsn
  {
    if start > 0 then start - 1 else 0
  }

  /** The position is where it started, or has been raised to a watermark. */
  predicate PosBound(pos: Lsn, watermark: Lsn, start: Lsn)
  {
    pos == StartPos(start) || StartPos(start) < pos <= watermark
  }

  /** A position is the start, or the LSN of an accepted write. */
  ghost predicate KnownPos(accepted: map<Id, WriteRequest>, start: Lsn, pos: Lsn)
  {
    pos == StartPos(start) || exists id :: id in accepted && accepted[id].lsn == pos
  }

  ghost predicate AllKnown(accepted: map<Id, WriteRequest>, start: Lsn, rep: Position)
  {
    KnownPos(accepted, start, rep.pos.lsn) && forall p <- rep.reported :: p > 0 && KnownPos(accepted, start, p - 1)
  }

  ghost predicate AllFrom(accepted: map<Id, WriteRequest>, start: Lsn)
  {
    forall id <- accepted :: accepted[id].lsn >= start
  }

  ghost predicate SInv(s: System)
  {
    && RInv(s.run)
    && RepOk(s.rep, s.run.core.maxAck.lsn, s.run.accepted, s.start)
    && AllFrom(s.run.accepted, s.start)
  }

  lemma StandByKeeps(p: Position, due: bool, ok: bool)
    requires PositionOk(p)
    ensures PositionOk(StandBy(p, due, ok)) && p.reported <= StandBy(p, due, ok).reported
    ensures ok ==> StandBy(p, due, ok).lastSentLsn == p.pos.lsn
  {
  }

  /** What the replicator's state keeps. */
  ghost predicate RepOk(rep: Position, watermark: Lsn, accepted: map<Id, WriteRequest>, start: Lsn)
  {
    PositionOk(rep) && PosBound(rep.pos.lsn, watermark, start) && AllKnown(accepted, start, rep)
  }

  lemma PolledKeeps(rep: Position, before: Lsn, commit: CommitPoint, accepted: map<Id, WriteRequest>, start: Lsn)
    requires RepOk(rep, before, accepted, start) && before <= commit.lsn
    requires commit.lsn > 0 ==> KnownPos(accepted, start, commit.lsn)
    ensures RepOk(Polled(rep, commit), commit.lsn, accepted, start)
  {
  }

  lemma SentKeeps(rep: Position, watermark: Lsn, accepted: map<Id, WriteRequest>, start: Lsn, due: bool, ok: bool)
    requires RepOk(rep, watermark, accepted, start)
    ensures RepOk(StandBy(rep, due, ok), watermark, accepted, start)
  {
    StandByKeeps(rep, due, ok);
  }

  lemma NextKeeps(s: System, h: Happening)
    requires SInv(s) && Possible(s, h)
    ensures SInv(Next(s, h))
    ensures s.rep.reported <= Next(s, h).rep.reported && Next(s, h).start == s.start
  {
    match h
    case TrackerStep(e) => TrackerKeeps(s, e);
    case ReadCommitPos => PollKeepsAll(s);
    case SendStandBy(due, ok) =>
      StandByKeeps(s.rep, due, ok);
      SentKeeps(s.rep, s.run.core.maxAck.lsn, s.run.accepted, s.start, due, ok);
    case SyncSlots(saved) =>
    case Connect =>
  }

  lemma TrackerKeeps(s: System, e: Event)
    requires SInv(s) && Possible(s, TrackerStep(e))
    ensures SInv(s.(run := Step(s.run, e)))
  {
    StepKeeps(s.run, e);
    StartKept(s, e);
  }

  lemma PollKeepsAll(s: System)
    requires SInv(s)
    ensures SInv(Next(s, ReadCommitPos)) && Next(s, ReadCommitPos).rep.reported == s.rep.reported
  {
    var run := Step(s.run, Poll);
    StepKeeps(s.run, Poll);
    WatermarkAccepted(run);
    PolledKeeps(s.rep, s.run.core.maxAck.lsn, run.core.maxAck, run.accepted, s.start);
  }

  lemma StartKept(s: System, e: Event)
    requires SInv(s) && Possible(s, TrackerStep(e))
    ensures AllFrom(Step(s.run, e).accepted, s.start) && AllKnown(Step(s.run, e).accepted, s.start, s.rep)
  {
    AcceptedKept(s.run, e);
    forall pos | KnownPos(s.run.accepted, s.start, pos) ensures KnownPos(Step(s.run, e).accepted, s.start, pos) {
      if pos != StartPos(s.start) {
        var id :| id in s.run.accepted && s.run.accepted[id].lsn == pos;
        assert id in Step(s.run, e).accepted;
      }
    }
  }

  /** What was accepted stays so; only Add accepts anything. */
  lemma AcceptedKept(r: Run, e: Event)
    requires RInv(r) && Enabled(r, e)
    ensures forall id <- r.accepted :: id in Step(r, e).accepted && Step(r, e).accepted[id] == r.accepted[id]
    ensures forall id <- Step(r, e).accepted :: id in r.accepted || (e.Add? && Step(r, e).accepted[id] == e.req)
  {
    if e.Add? {
      assert Step(r, e) == DoAdd(r, e.req, e.id);
      assert forall id <- r.accepted :: id in r.core.objs;
    } else {
      OthersAddNothing(r, e);
    }
  }

  lemma WatermarkAccepted(r: Run)
    requires RInv(r)
    ensures r.core.maxAck.lsn > 0 ==> exists id :: id in r.accepted && r.accepted[id].lsn == r.core.maxAck.lsn
  {
    if r.core.maxAck.lsn > 0 {
      var id :| id in r.core.objs && r.core.objs[id].point == r.core.maxAck;
      assert HistoryOk(r.core.objs, r.accepted, r.answered, id);
    }
  }

  lemma {:induction false} LeadsKeeps(s: System, hs: seq<Happening>, s': System)
    requires SInv(s) && Leads(s, hs, s')
    ensures SInv(s') && s'.start == s.start
    decreases |hs|
  {
    if hs != [] {
      NextKeeps(s, hs[0]);
      LeadsKeeps(Next(s, hs[0]), hs[1..], s');
    }
  }

  lemma BeginOk(cfg: RetryConfig, start: Lsn)
    ensures SInv(Begin(cfg, start))
  {
    InitOk(cfg);
  }

  lemma LeadsOk(cfg: RetryConfig, start: Lsn, hs: seq<Happening>, s: System)
    requires Leads(Begin(cfg, start), hs, s)
    ensures SInv(s) && s.start == start
  {
    BeginOk(cfg, start);
    LeadsKeeps(Begin(cfg, start), hs, s);
  }

  /** End-to-end safety. In every run, reconnects included: reported positions never decrease, and an
      accepted write that is not fully acknowledged lies at or above every position ever reported to
      the server or to a replica's slot, and above every position replication was restarted from. */
  lemma NothingConfirmedEarly(cfg: RetryConfig, start: Lsn, hs: seq<Happening>, s: System, id: Id)
    requires Leads(Begin(cfg, start), hs, s)
    ensures NonDecreasing(s.rep.reported)
    ensures id in s.run.accepted && Unfinished(s.run, id) ==>
      && (forall p <- s.rep.reported :: p <= s.run.accepted[id].lsn)
      && (forall p <- s.rep.synced :: p <= s.run.accepted[id].lsn)
      && (forall p <- s.rep.restarts :: p < s.run.accepted[id].lsn)
  {
    LeadsOk(cfg, start, hs, s);
    if id in s.run.accepted && Unfinished(s.run, id) {
      UnansweredAbove(s, id);
      forall p | p in s.rep.reported ensures p <= s.run.accepted[id].lsn {
        ReportedBelow(s.rep, p);
      }
    }
  }

  /** Something of the write is pending, or was never answered. */
  ghost predicate Unfinished(r: Run, id: Id)
    requires id in r.accepted
  {
    !FullyAnswered(r, id) || (id in r.core.objs && r.core.objs[id].pending != {})
  }

  lemma UnansweredAbove(s: System, id: Id)
    requires SInv(s) && id in s.run.accepted && Unfinished(s.run, id)
    ensures s.run.accepted[id].lsn > s.rep.pos.lsn
  {
    assert Ok(s.run.core, id);
    assert HistoryOk(s.run.core.objs, s.run.accepted, s.run.answered, id);
  }

  lemma ReportedBelow(p: Position, x: Lsn)
    requires PositionOk(p) && x in p.reported
    ensures x <= p.pos.lsn + 1
  {
    var i :| 0 <= i < |p.reported| && p.reported[i] == x;
    if i < |p.reported| - 1 {
      assert p.reported[i] <= p.reported[|p.reported| - 1];
    }
  }

  /** What is known of the position in a run and after more of it. */
  lemma PositionReached(cfg: RetryConfig, start: Lsn, hs: seq<Happening>, s: System, more: seq<Happening>, s': System)
    requires Leads(Begin(cfg, start), hs, s) && Leads(s, more, s')
    ensures PositionOk(s.rep) && PosBound(s.rep.pos.lsn, s.run.core.maxAck.lsn, start)
    ensures PosBound(s'.rep.pos.lsn, s'.run.core.maxAck.lsn, start)
  {
    LeadsOk(cfg, start, hs, s);
    LeadsKeeps(s, more, s');
  }

  /** And nothing is held back: one round of the read loop reports one past the watermark, or the start
      position while the watermark is below it. */
  lemma RoundReportsWatermark(cfg: RetryConfig, start: Lsn, hs: seq<Happening>, s: System, due: bool, s': System)
    requires Leads(Begin(cfg, start), hs, s) && Leads(s, [ReadCommitPos, SendStandBy(due, true)], s')
    ensures s'.rep.pos.lsn == if s'.run.core.maxAck.lsn > StartPos(start) then s'.run.core.maxAck.lsn
        else StartPos(start)
    ensures s'.rep.lastSentLsn == s'.rep.pos.lsn && (s'.rep.pos.lsn > s.rep.pos.lsn
        ==> s'.rep.pos == s'.run.core.maxAck)
    ensures s'.rep.pos.lsn > 0 ==> s'.rep.reported != [] && s'.rep.reported[|s'.rep.reported| - 1] == s'.rep.pos.lsn + 1
  {
    PositionReached(cfg, start, hs, s, [ReadCommitPos, SendStandBy(due, true)], s');
    RoundIs(s, due, s');
    RoundOn(s.rep, s'.run.core.maxAck, due);
  }

  lemma RoundIs(s: System, due: bool, s': System)
    requires Leads(s, [ReadCommitPos, SendStandBy(due, true)], s')
    ensures s'.rep == StandBy(Polled(s.rep, s'.run.core.maxAck), due, true)
  {
    assert [ReadCommitPos, SendStandBy(due, true)][1..] == [SendStandBy(due, true)];
    LeadsOne(Next(s, ReadCommitPos), SendStandBy(due, true), s');
  }

  lemma RoundOn(p: Position, commit: CommitPoint, due: bool)
    requires PositionOk(p)
    ensures var q := StandBy(Polled(p, commit), due, true);
      && q.lastSentLsn == q.pos.lsn >= commit.lsn && (q.pos.lsn > p.pos.lsn ==> q.pos == commit)
      && (q.pos.lsn > 0 ==> q.reported != [] && q.reported[|q.reported| - 1] == q.pos.lsn + 1)
  {
    StandByKeeps(Polled(p, commit), due, true);
  }

  lemma LeadsOne(s: System, h: Happening, s': System)
    requires Leads(s, [h], s')
    ensures Closed(s.run.core) && Possible(s, h) && s' == Next(s, h)
  {
    assert [h][1..] == [];
  }

  /** A reconnect starts from the position: whatever was reported before is at most one past it, and after a
      round of the read loop it is the watermark or one below the start. */
  lemma ReconnectStarts(cfg: RetryConfig, start: Lsn, hs: seq<Happening>, s: System, s': System)
    requires Leads(Begin(cfg, start), hs, s) && Leads(s, [Connect], s')
    ensures s'.rep.restarts == s.rep.restarts + [s.rep.pos.lsn] && s'.run == s.run
    ensures forall p <- s.rep.reported :: p <= s.rep.pos.lsn + 1
    ensures s.rep.lastSentLsn == s.run.core.maxAck.lsn > StartPos(start) ==>
      s'.rep.restarts[|s'.rep.restarts| - 1] == s.run.core.maxAck.lsn
  {
    PositionReached(cfg, start, hs, s, [Connect], s');
    LeadsOne(s, Connect, s');
    forall p | p in s.rep.reported ensures p <= s.rep.pos.lsn + 1 {
      ReportedBelow(s.rep, p);
    }
  }

  /** The slots of the replicas are given the position reported last, exactly when it is above what they are
      known to have. */
  lemma SlotsFollow(cfg: RetryConfig, start: Lsn, hs: seq<Happening>, s: System, saved: Lsn, s': System)
    requires Leads(Begin(cfg, start), hs, s) && Leads(s, [SyncSlots(saved)], s')
    ensures var rep := s.rep; var last := if rep.reported == [] then 0 else rep.reported[|rep.reported| - 1];
      if last > rep.slotLsn
      then s'.rep.synced == rep.synced + [last] && s'.rep.slotLsn == (if saved == 0 then rep.slotLsn else saved)
      else s'.rep == rep
  {
    PositionReached(cfg, start, hs, s, [SyncSlots(saved)], s');
    LeadsOne(s, SyncSlots(saved), s');
  }
}
