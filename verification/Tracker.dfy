/** `PGBufferedLSNTracker` and `trackedWriteRequest` as objects updated in place. Each method is
    proved against the section of `TrackerSpec` it stands for. */
module Tracker {
  import opened WriteQueues
  import opened Wal
  import opened TrackerSpec
  import opened TrackerInvariant
  import opened TrackerRuns
  import opened TrackerGrouping

  function OffsetSet(offsets: seq<Offset>): set<Offset>
  {
    set o <- offsets
  }

  class TrackedWriteRequest {
    ghost const id: Id
    const point: CommitPoint
    const size: nat
    var write: Option<WriteRequest>
    var pending: set<Offset>
    var failures: map<Offset, Failure>
    var queued: seq<WriteRequest>
    var released: bool

    ghost function Value(): Tracked
      reads this
    {
      Tracked(point, write, pending, failures, queued, released)
    }

    constructor (w: WriteRequest, ghost id: Id)
      ensures Value() == NewTracked(w) && this.id == id && size == |w.entries|
    {
      var offsets := PendingOf(w);
      this.id := id;
      point := CommitPoint(w.lsn, w.xid);
      size := |w.entries|;
      write, pending, failures, queued, released := Some(w), offsets, map[], [], false;
    }

    static method PendingOf(w: WriteRequest) returns (s: set<Offset>)
      ensures s == Offsets(w)
    {
      if |w.entries| == 0 {
        return {0};
      }
      s := {};
      for i := 0 to |w.entries|
        invariant s == set e <- w.entries[..i] :: e.offset
      {
        assert w.entries[..i + 1] == w.entries[..i] + [w.entries[i]];
        s := s + {w.entries[i].offset};
      }
      assert w.entries[..|w.entries|] == w.entries;
    }

    method HasPending(w: WriteRequest) returns (has: bool)
      ensures has == HasPendingEntries(Value(), w)
    {
      if pending == {} {
        return false;
      }
      if |w.entries| == 0 {
        assert pending * Offsets(w) == if 0 in pending then {0} else {};
        return 0 in pending;
      }
      for i := 0 to |w.entries|
        invariant forall j :: 0 <= j < i ==> w.entries[j].offset !in pending
      {
        if w.entries[i].offset in pending {
          assert w.entries[i] in w.entries;
          assert w.entries[i].offset in pending * Offsets(w);
          return true;
        }
      }
      assert pending * Offsets(w) == {};
      has := false;
    }

    method QueueWrite(w: WriteRequest) returns (ok: bool)
      modifies this`queued
      ensures ok == Accepts(old(Value()), w)
      ensures Value() == if ok then old(Value()).(queued := old(queued) + [w]) else old(Value())
    {
      var has := HasPending(w);
      if released || !has {
        return false;
      }
      queued := queued + [w];
      ok := true;
    }

    method PopQueuedWrite() returns (r: Option<WriteRequest>)
      modifies this`queued
      ensures r == if old(queued) == [] then None else Some(old(queued)[0])
      ensures Value() == if old(queued) == [] then old(Value()) else old(Value()).(queued := old(queued)[1..])
    {
      if |queued| == 0 {
        return None;
      }
      r := Some(queued[0]);
      queued := queued[1..];
    }

    method Ack(offsets: seq<Offset>) returns (full: bool)
      modifies this`pending
      ensures Value() == old(Value()).(pending := old(pending) - OffsetSet(offsets))
      ensures full == (pending == {})
    {
      for i := 0 to |offsets|
        invariant pending == old(pending) - OffsetSet(offsets[..i])
      {
        assert offsets[..i + 1] == offsets[..i] + [offsets[i]];
        pending := pending - {offsets[i]};
      }
      assert offsets[..|offsets|] == offsets;
      full := pending == {};
    }

    method GetFailedEntry(offset: Offset, reason: Reason) returns (f: Failure)
      modifies this`failures
      ensures f == Failed(old(failures), offset, reason)
      ensures Value() == old(Value()).(failures := old(failures)[offset := f])
    {
      if offset !in failures {
        f := Failure(1, if reason.downStreamDown then 1 else 0);
      } else if reason.downStreamDown {
        f := failures[offset].(downStreamDownRetries := failures[offset].downStreamDownRetries + 1);
      } else {
        f := failures[offset].(retries := failures[offset].retries + 1);
      }
      failures := failures[offset := f];
    }

    method RetryWrite(offset: Offset) returns (r: Option<WriteRequest>)
      ensures r == TrackerSpec.RetryWrite(Value(), offset)
    {
      if write.None? || offset !in pending {
        return None;
      }
      var e := EntryAt(write.value.entries, offset);
      if e.None? {
        return None;
      }
      r := Some(WriteRequest([e.value], write.value.lsn, write.value.xid, write.value.commitTime));
    }

    method FullWrite() returns (r: Option<WriteRequest>)
      ensures r == TrackerSpec.FullWrite(Value())
    {
      if write.None? || released {
        return None;
      }
      var has := HasPending(write.value);
      r := if has then write else None;
    }

    /** Releases the entries once and says how many queued writes went with them. */
    method Release() returns (dropped: nat)
      modifies this
      ensures Value() == if old(released) then old(Value()) else TrackerSpec.Release(old(Value()))
      ensures dropped == if old(released) then 0 else |old(queued)|
    {
      if released {
        return 0;
      }
      dropped := |queued|;
      queued, pending, failures, write, released := [], {}, map[], None, true;
    }
  }

  datatype ReadyWriteEntry = ReadyWriteEntry(tracked: TrackedWriteRequest, write: WriteRequest)
  datatype RetryEntry = RetryEntry(tracked: TrackedWriteRequest, write: WriteRequest)

  ghost function Ids(s: seq<TrackedWriteRequest>): (r: seq<Id>)
    ensures |r| == |s| && forall i :: 0 <= i < |s| ==> r[i] == s[i].id
  {
    seq(|s|, i requires 0 <= i < |s| => s[i].id)
  }

  ghost function ReadyIds(s: seq<ReadyWriteEntry>): (r: seq<Id>)
    ensures |r| == |s| && forall i :: 0 <= i < |s| ==> r[i] == s[i].tracked.id
  {
    seq(|s|, i requires 0 <= i < |s| => s[i].tracked.id)
  }

  ghost function Timers(s: seq<RetryEntry>): (r: seq<Retry>)
    ensures |r| == |s| && forall i :: 0 <= i < |s| ==> r[i] == Retry(s[i].tracked.id, s[i].write)
  {
    seq(|s|, i requires 0 <= i < |s| => Retry(s[i].tracked.id, s[i].write))
  }

  /** The tracked writes by their numbers. */
  ghost function Values(known: seq<TrackedWriteRequest>): (m: map<Id, Tracked>)
    reads known
    ensures forall i: Id :: i in m <==> i < |known|
    ensures forall i: Id :: i < |known| ==> m[i] == known[i].Value()
  {
    map i: Id | 0 <= i < |known| :: known[i].Value()
  }

  /** Position in `known` is identity. */
  ghost predicate Numbered(known: seq<TrackedWriteRequest>)
  {
    forall i :: 0 <= i < |known| ==> known[i].id == i
  }

  ghost predicate Member(known: seq<TrackedWriteRequest>, o: TrackedWriteRequest)
  {
    o.id < |known| && known[o.id] == o
  }

  ghost predicate AllMembers(known: seq<TrackedWriteRequest>, s: seq<TrackedWriteRequest>)
  {
    forall o <- s :: Member(known, o)
  }

  ghost predicate ReadyMembers(known: seq<TrackedWriteRequest>, s: seq<ReadyWriteEntry>)
  {
    forall e <- s :: Member(known, e.tracked)
  }

  /** A retry carries the LSN of the write it belongs to. */
  ghost predicate Waits(known: seq<TrackedWriteRequest>, e: RetryEntry)
  {
    Member(known, e.tracked) && e.write.lsn == e.tracked.point.lsn
  }

  ghost predicate Members(known: seq<TrackedWriteRequest>, retries: seq<RetryEntry>)
  {
    forall e <- retries :: Waits(known, e)
  }

  class PGBufferedLSNTracker {
    const cfg: RetryConfig
    var tracking: seq<TrackedWriteRequest>
    var ready: seq<ReadyWriteEntry>
    var timers: seq<RetryEntry>
    var maxAcknowledged: CommitPoint
    var gauge: int
    ghost var known: seq<TrackedWriteRequest>
    ghost var freed: multiset<Id>

    ghost predicate Shape()
      reads this
    {
      && Numbered(known)
      && AllMembers(known, tracking)
      && ReadyMembers(known, ready)
      && Members(known, timers)
    }

    ghost function View(): Core
      reads this, known
    {
      Core(Values(known), Ids(tracking), maxAcknowledged, ReadyIds(ready), multiset(Timers(timers)), gauge, freed)
    }

    ghost predicate Valid()
      reads this, known
    {
      Shape() && Inv(View())
    }

    constructor (cfg: RetryConfig)
      ensures Valid() && View() == Init(cfg).core && this.cfg == cfg
    {
      this.cfg := cfg;
      tracking, ready, timers, maxAcknowledged, gauge := [], [], [], CommitPoint(0, 0), 0;
      known, freed := [], multiset{};
    }

    /** Exactly one tracked write changed. */
    twostate lemma OneChanged(o: TrackedWriteRequest)
      requires old(Shape()) && known == old(known) && Member(known, o)
      requires forall x <- known :: x != o ==> unchanged(x)
      ensures Values(known) == old(Values(known))[o.id := o.Value()]
    {
      forall i: Id | i < |known| && i != o.id ensures known[i].Value() == old(known[i].Value()) {
        assert known[i] in known && known[i] != o;
      }
    }

    method FindTrackedWrite(lsn: Lsn) returns (r: Option<TrackedWriteRequest>)
      requires Shape()
      ensures Closed(View())
      ensures r.Some? ==> Member(known, r.value) && View().objs[r.value.id] == r.value.Value()
      ensures r.Some? ==> r.value in tracking && Find(View(), View().tracking, lsn) == Some(r.value.id)
      ensures r.None? ==> Find(View(), View().tracking, lsn).None?
    {
      ShapeClosed();
      for i := 0 to |tracking|
        invariant forall j :: 0 <= j < i ==> tracking[j].point.lsn != lsn
      {
        if tracking[i].point.lsn == lsn {
          FindAt(View(), View().tracking, lsn, i);
          return Some(tracking[i]);
        }
      }
      r := None;
    }

    lemma ShapeClosed()
      requires Shape()
      ensures Closed(View())
      ensures forall i :: 0 <= i < |tracking| ==> View().objs[tracking[i].id] == tracking[i].Value()
    {
      forall id | id in View().tracking ensures id in View().objs {
        var i :| 0 <= i < |tracking| && View().tracking[i] == id;
        assert Member(known, tracking[i]);
      }
      forall id | id in View().ready ensures id in View().objs {
        var i :| 0 <= i < |ready| && View().ready[i] == id;
        assert Member(known, ready[i].tracked);
      }
      forall i | 0 <= i < |tracking|
        ensures tracking[i].id in View().objs && View().objs[tracking[i].id] == tracking[i].Value()
      {
        assert Member(known, tracking[i]);
      }
    }

    /** `ack` */
    method AckPoint(lsn: Lsn, offsets: seq<Offset>)
      requires Shape()
      modifies this`gauge, this`freed, known
      ensures Shape() && Closed(old(View()))
      ensures View() == AckLsn(old(View()), lsn, OffsetSet(offsets))
    {
      var found := FindTrackedWrite(lsn);
      if found.Some? {
        var o := found.value;
        AckTracked(o, offsets);
      }
    }

    method AckTracked(o: TrackedWriteRequest, offsets: seq<Offset>)
      requires Shape() && o in tracking
      modifies this`gauge, this`freed, o
      ensures Shape() && o.id in old(View()).objs
      ensures View() == AckId(old(View()), o.id, OffsetSet(offsets))
    {
      assert Member(known, o);
      AckIdIs(View(), o.id, OffsetSet(offsets));
      var dropped, first := AckAndRelease(o, offsets);
      gauge := gauge - dropped;
      freed := if first then freed + multiset{o.id} else freed;
      OneChanged(o);
    }

    /** `entry.ack` and, when nothing is left, `entry.release`. */
    static method AckAndRelease(o: TrackedWriteRequest, offsets: seq<Offset>) returns (dropped: nat, ghost first: bool)
      modifies o
      ensures o.Value() == Acked(old(o.Value()), OffsetSet(offsets))
      ensures first == (o.released && !old(o.released))
      ensures dropped == if first then |old(o.queued)| else 0
    {
      dropped, first := 0, false;
      var full := o.Ack(offsets);
      NothingLeft(old(o.pending), OffsetSet(offsets));
      if full {
        first := !o.released;
        dropped := o.Release();
      }
    }

    /** `advanceMaxAcknowledged` */
    method AdvanceMaxAcknowledged()
      requires Shape()
      modifies this, known
      ensures Shape() && known == old(known) && Closed(old(View()))
      ensures View() == Advance(old(View()))
    {
      ShapeClosed();
      ghost var c := View();
      while tracking != [] && tracking[0].pending == {}
        invariant Shape() && known == old(known)
        invariant c == View() && Closed(c)
        invariant Advance(c) == Advance(old(View()))
        decreases |tracking|
      {
        HeadView();
        ReleaseHead();
        AdvanceStep(c);
        c := View();
      }
      HeadView();
    }

    lemma HeadView()
      requires Shape()
      ensures tracking != [] ==> View().tracking != [] && tracking[0].id in View().objs && tracking[0] in known
                                 && View().objs[tracking[0].id] == tracking[0].Value()
      ensures tracking == [] <==> View().tracking == []
    {
      if tracking != [] {
        assert Member(known, tracking[0]);
      }
    }

    method ReleaseHead()
      requires Shape() && tracking != [] && tracking[0].pending == {}
      modifies this, known
      ensures Shape() && known == old(known) && |tracking| == |old(tracking)| - 1
      ensures Closed(old(View())) && View() == AckedHead(old(View()))
    {
      ShapeClosed();
      HeadView();
      AckTracked(tracking[0], []);
      assert OffsetSet([]) == {};
      DropHead();
    }

    method DropHead()
      requires Shape() && tracking != []
      modifies this`tracking, this`maxAcknowledged
      ensures Shape() && tracking == old(tracking)[1..]
      ensures View() == old(View()).(tracking := old(View()).tracking[1..], maxAck := old(tracking)[0].point)
    {
      maxAcknowledged := tracking[0].point;
      tracking := tracking[1..];
      assert Ids(tracking) == Ids(old(tracking))[1..];
    }

    method MaxAcknowledged() returns (point: CommitPoint)
      requires Valid()
      modifies this, known
      ensures Valid() && known == old(known)
      ensures View() == Advance(old(View())) && point == View().maxAck
    {
      AdvanceMaxAcknowledged();
      AdvanceKeeps(old(View()));
      point := maxAcknowledged;
    }

    // ---- responses

    /** `OnSuccess`: the entries are grouped by commit point and the groups applied in any order. */
    method OnSuccess(es: seq<ResponseEntry>) returns (point: CommitPoint)
      requires Valid()
      modifies this, known
      ensures Valid() && known == old(known)
      ensures View() == Success(old(View()), es) && point == View().maxAck
    {
      var acks := Group(es);
      ApplyAcks(acks);
      GroupingIrrelevant(old(View()), View(), es);
      AdvanceKeeps(View());
      AdvanceMaxAcknowledged();
      point := maxAcknowledged;
    }

    static method Group(es: seq<ResponseEntry>) returns (acks: AckMap)
      ensures Grouped(acks) == DeliverySet(es)
    {
      acks := map[];
      for i := 0 to |es|
        invariant Grouped(acks) == DeliverySet(es[..i])
      {
        assert es[..i + 1] == es[..i] + [es[i]];
        acks := AddToAckMap(acks, es[i]);
      }
      assert es[..|es|] == es;
    }

    method ApplyAcks(acks: AckMap)
      requires Shape() && Inv(View())
      modifies this`gauge, this`freed, known
      ensures Shape()
      ensures After(old(View()), View(), Grouped(acks))
    {
      ghost var done: set<Delivery>, was, c := {}, View(), View();
      var rest := acks;
      AfterNothing(was);
      while rest != map[]
        invariant Shape() && c == View() && After(was, c, done)
        invariant done + Grouped(rest) == Grouped(acks)
        decreases rest.Keys
      {
        var cp :| cp in rest;
        ApplyGroup(cp, rest[cp], was, done);
        c := View();
        GroupedWithout(rest, cp);
        done := done + At(cp.lsn, OffsetSet(rest[cp]));
        rest := rest - {cp};
      }
      assert Grouped(rest) == {};
    }

    method ApplyGroup(cp: CommitPoint, offsets: seq<Offset>, ghost was: Core, ghost done: set<Delivery>)
      requires Shape() && Inv(was) && After(was, View(), done)
      modifies this`gauge, this`freed, known
      ensures Shape() && After(was, View(), done + At(cp.lsn, OffsetSet(offsets)))
    {
      AfterMore(was, View(), done, cp.lsn, OffsetSet(offsets));
      AckPoint(cp.lsn, offsets);
    }

    /** `processErrorResponse` */
    method ProcessErrorResponse(es: seq<ErrorEntry>)
      returns (status: Status, acks: AckMap, retries: seq<RetryEntry>, ghost skips: seq<ResponseEntry>)
      requires Valid()
      modifies known
      ensures Valid() && Members(known, retries)
      ensures Grouped(acks) == DeliverySet(skips)
      ensures ProcessErrors(old(View()), cfg, es) == (View(), OutcomeOf(status, skips, Timers(retries)))
    {
      status, acks, retries, skips := Done, map[], [], [];
      ghost var was := View();
      var i := 0;
      assert es[0..] == es;
      Unstarted(ProcessErrors(was, cfg, es));
      while i < |es| && status == Done
        invariant 0 <= i <= |es| && Valid() && Members(known, retries)
        invariant Grouped(acks) == DeliverySet(skips)
        invariant ProcessErrors(was, cfg, es) ==
          if status == Done then Resumed(ProcessErrors(View(), cfg, es[i..]), skips, Timers(retries))
          else (View(), OutcomeOf(status, skips, Timers(retries)))
      {
        assert es[i..][1..] == es[i + 1..];
        status, acks, retries, skips := ProcessEntry(es[i], acks, retries, skips, es[i..]);
        i := i + 1;
      }
      Finished(View(), cfg, skips, Timers(retries));
      assert i == |es| ==> es[i..] == [];
    }

    /** One round of the loop; `rest` is what is left of the response. */
    method ProcessEntry(e: ErrorEntry, acks: AckMap, retries: seq<RetryEntry>,
                        ghost skips: seq<ResponseEntry>, ghost rest: seq<ErrorEntry>)
      returns (status: Status, acks': AckMap, retries': seq<RetryEntry>, ghost skips': seq<ResponseEntry>)
      requires Valid() && Members(known, retries) && Grouped(acks) == DeliverySet(skips)
      requires rest != [] && rest[0] == e
      modifies known
      ensures Valid() && Members(known, retries') && Grouped(acks') == DeliverySet(skips')
      ensures Resumed(ProcessErrors(old(View()), cfg, rest), skips, Timers(retries)) ==
        if status == Done then Resumed(ProcessErrors(View(), cfg, rest[1..]), skips', Timers(retries'))
        else (View(), OutcomeOf(status, skips', Timers(retries')))
    {
      ghost var c := View();
      var d := JudgeEntry(e);
      ErrorsDecided(c, cfg, rest, skips, Timers(retries), View(), d);
      acks', retries', skips' := Record(d, e.response, acks, retries, skips);
      status := if d.Fatal? then WriteMissing else if d.Halt? then DownstreamDown else Done;
    }

    method Record(d: Decision, e: ResponseEntry, acks: AckMap, retries: seq<RetryEntry>,
        ghost skips: seq<ResponseEntry>)
      returns (acks': AckMap, retries': seq<RetryEntry>, ghost skips': seq<ResponseEntry>)
      requires Grouped(acks) == DeliverySet(skips)
      requires Members(known, retries) && (d.Resend? ==> Waits(known, d.entry))
      ensures Grouped(acks') == DeliverySet(skips') && Members(known, retries')
      ensures skips' == if d.Acknowledge? then skips + [e] else skips
      ensures Timers(retries') == if d.Resend? then Timers(retries) + [Retry(d.entry.tracked.id, d.entry.write)]
          else Timers(retries)
    {
      acks', retries', skips' := acks, retries, skips;
      match d
      case Acknowledge =>
        acks' := AddToAckMap(acks, e);
        skips' := skips + [e];
      case Resend(entry) =>
        retries' := retries + [entry];
      case _ =>
    }

    method JudgeEntry(e: ErrorEntry) returns (d: Decision)
      requires Valid()
      modifies known
      ensures Valid()
      ensures d.Resend? ==> Waits(known, d.entry)
      ensures TrackerSpec.JudgeEntry(old(View()), cfg, e).0 == View()
      ensures Decides(d, TrackerSpec.JudgeEntry(old(View()), cfg, e).1)
    {
      JudgeKeeps(View(), cfg, e);
      d := JudgeInShape(e);
    }

    method JudgeInShape(e: ErrorEntry) returns (d: Decision)
      requires Valid()
      modifies known
      ensures Shape()
      ensures d.Resend? ==> Waits(known, d.entry)
      ensures TrackerSpec.JudgeEntry(old(View()), cfg, e).0 == View()
      ensures Decides(d, TrackerSpec.JudgeEntry(old(View()), cfg, e).1)
    {
      var found := FindTrackedWrite(e.response.lsn);
      if found.None? {
        return if maxAcknowledged.lsn > 0 && e.response.lsn <= maxAcknowledged.lsn then Continue else Fatal;
      }
      if found.value.pending == {} {
        return Continue;
      }
      JudgedEntry(View(), cfg, e, found.value.id);
      d := JudgeFound(found.value, e);
    }

    method JudgeFound(o: TrackedWriteRequest, e: ErrorEntry) returns (d: Decision)
      requires Shape() && Member(known, o) && (o.write.Some? ==> o.write.value.lsn == o.point.lsn)
      modifies o
      ensures Shape()
      ensures d.Resend? ==> Waits(known, d.entry)
      ensures var t := old(o.Value());
        && View() == old(View()).(objs := old(View()).objs[o.id := Counted(t, e)])
        && Decides(d, Judged(cfg, o.id, t, e))
    {
      d := JudgeTracked(o, e);
      OneChanged(o);
    }

    method JudgeTracked(o: TrackedWriteRequest, e: ErrorEntry) returns (d: Decision)
      modifies o
      ensures o.Value() == Counted(old(o.Value()), e)
      ensures Decides(d, Judged(cfg, o.id, old(o.Value()), e)) && (d.Resend? ==> d.entry.tracked == o)
      ensures d.Resend? ==> old(o.write).Some? && d.entry.write.lsn == old(o.write).value.lsn
    {
      var f := o.GetFailedEntry(e.response.offset, e.reason);
      if cfg.maxConnectionRetries > 0 && f.downStreamDownRetries >= cfg.maxConnectionRetries
          && e.reason.downStreamDown {
        return Halt;
      }
      if f.retries >= cfg.maxRetries || !e.reason.retryable {
        return Acknowledge;
      }
      if cfg.maxBackoff > 0 {
        var w := o.RetryWrite(e.response.offset);
        if w.Some? {
          return Resend(RetryEntry(o, w.value));
        }
      }
      d := Continue;
    }

    /** `OnError`, with nothing else in between: skipped entries are acknowledged, retries scheduled. */
    method OnError(es: seq<ErrorEntry>) returns (status: Status)
      requires Valid()
      modifies this, known
      ensures Valid() && known == old(known)
      ensures (View(), status) == ErrorsHandled(old(View()), cfg, es)
    {
      var acks, retries;
      ghost var skips;
      status, acks, retries, skips := ProcessErrorResponse(es);
      if status == Done {
        AckSkipped(acks, skips);
        TimersIrrelevant(View(), View().timers + multiset(Timers(retries)));
        ScheduleRetries(retries);
      }
    }

    method AckSkipped(acks: AckMap, ghost skips: seq<ResponseEntry>)
      requires Valid() && Grouped(acks) == DeliverySet(skips)
      modifies this`gauge, this`freed, known
      ensures Valid()
      ensures View() == AckAll(old(View()), skips)
    {
      ApplyAcks(acks);
      GroupingIrrelevant(old(View()), View(), skips);
    }

    method ScheduleRetries(retries: seq<RetryEntry>)
      requires Shape() && Members(known, retries)
      modifies this`timers
      ensures Shape()
      ensures View() == old(View()).(timers := old(View()).timers + multiset(Timers(retries)))
    {
      for i := 0 to |retries|
        invariant timers == old(timers) + retries[..i]
      {
        assert retries[..i + 1] == retries[..i] + [retries[i]];
        timers := timers + [retries[i]];
      }
      assert retries[..|retries|] == retries;
      assert Timers(timers) == Timers(old(timers)) + Timers(retries);
    }

    // ---- writes

    /** `enqueueReadyWrite` */
    method EnqueueReadyWrite(o: TrackedWriteRequest, w: WriteRequest)
      requires Shape() && Member(known, o)
      modifies this`ready, this`gauge, o`queued
      ensures Shape()
      ensures View() == Enqueued(old(View()), o.id, w)
    {
      var ok := o.QueueWrite(w);
      OneChanged(o);
      if ok {
        PushReady(o, w);
      }
    }

    method PushReady(o: TrackedWriteRequest, w: WriteRequest)
      requires Shape() && Member(known, o)
      modifies this`ready, this`gauge
      ensures Shape()
      ensures View() == PushMarker(old(View()), o.id)
    {
      gauge := gauge + 1;
      ready := ready + [ReadyWriteEntry(o, w)];
      assert ReadyIds(ready) == ReadyIds(old(ready)) + [o.id];
    }

    /** `onRetryTimer` for one of the waiting timers. */
    method OnRetryTimer(i: nat)
      requires Valid() && i < |timers|
      modifies this`ready, this`gauge, this`timers, known
      ensures Valid()
      ensures var e := old(timers)[i];
        e.tracked.id in old(View()).objs &&
        View() == Enqueued(Unscheduled(old(View()), Retry(e.tracked.id, e.write)), e.tracked.id, e.write)
    {
      var e := timers[i];
      assert Waits(known, e);
      Unschedule(i);
      TimersIrrelevant(old(View()), View().timers);
      EnqueuedKeeps(View(), e.tracked.id, e.write);
      EnqueueReadyWrite(e.tracked, e.write);
    }

    method Unschedule(i: nat)
      requires Shape() && i < |timers|
      modifies this`timers
      ensures Shape()
      ensures View() == Unscheduled(old(View()), Retry(old(timers)[i].tracked.id, old(timers)[i].write))
    {
      TimersWithout(timers, i);
      timers := timers[..i] + timers[i + 1..];
    }

    /** `Add`: an acknowledged LSN is ignored, a known one is sent again only after a failure. */
    method Add(req: WriteRequest)
      requires Valid() && req.lsn > 0
      modifies this, known
      ensures Valid() && old(known) <= known && fresh(known[|old(known)|..])
      ensures View() == Added(old(View()), req, |old(known)|)
    {
      AddedKeepsInv(View(), req, |known|);
      AddInShape(req);
    }

    method AddInShape(req: WriteRequest)
      requires Shape() && Closed(View())
      modifies this, known
      ensures Shape() && old(known) <= known && fresh(known[|old(known)|..])
      ensures View() == Added(old(View()), req, |old(known)|)
    {
      if maxAcknowledged.lsn > 0 && req.lsn <= maxAcknowledged.lsn {
        return;
      }
      var found := FindTrackedWrite(req.lsn);
      AddedCases(View(), req, |known|);
      if found.Some? {
        AddAgain(found.value);
      } else {
        AddNew(req);
      }
    }

    method AddNew(req: WriteRequest)
      requires Shape()
      modifies this
      ensures Shape() && old(known) <= known && fresh(known[|old(known)|..])
      ensures View() == Enqueued(Tracking(old(View()), req, |old(known)|), |old(known)|, req)
    {
      var o := TrackNew(req);
      EnqueueReadyWrite(o, req);
    }

    method TrackNew(req: WriteRequest) returns (o: TrackedWriteRequest)
      requires Shape()
      modifies this`tracking, this`known
      ensures Shape() && fresh(o) && known == old(known) + [o] && o.id == |old(known)|
      ensures View() == Tracking(old(View()), req, o.id)
    {
      o := new TrackedWriteRequest(req, |known|);
      PushTrackedWrite(o, req);
    }

    method AddAgain(o: TrackedWriteRequest)
      requires Shape() && Member(known, o)
      modifies this`ready, this`gauge, o`queued
      ensures Shape()
      ensures var t := old(o.Value()); var full := TrackerSpec.FullWrite(t);
        View() == if t.pending == {} || t.failures == map[] || full.None? then old(View())
                  else Enqueued(old(View()), o.id, full.value)
    {
      if o.pending == {} || o.failures == map[] {
        return;
      }
      var full := o.FullWrite();
      if full.Some? {
        EnqueueReadyWrite(o, full.value);
      }
    }

    /** `pushTrackedWrite`: `PushBefore` on the tracking queue. */
    method PushTrackedWrite(o: TrackedWriteRequest, ghost req: WriteRequest)
      requires Shape() && o !in known && o.id == |known| && o.Value() == NewTracked(req)
      modifies this`tracking, this`known
      ensures Shape() && known == old(known) + [o]
      ensures View() == Tracking(old(View()), req, o.id)
    {
      InsertedIds(known, tracking, o);
      ValuesMore(known, o);
      tracking := InsertBeforeFirst(tracking, o, Later(o.point.lsn));
      known := known + [o];
    }

    /** `readyWriteQueue.Pop`; `None` stands for waiting on an empty queue. */
    method Pop() returns (w: Option<WriteRequest>)
      requires Valid()
      modifies this`ready, known
      ensures Valid()
      ensures (View(), w) == Popped(old(View()))
    {
      PoppedKeeps(View());
      ShapeClosed();
      ghost var c := View();
      w := None;
      while ready != [] && w.None?
        invariant Shape() && c == View() && Closed(c)
        invariant Popped(old(View())) == if w.None? then Popped(c) else (c, w)
        decreases |ready|
      {
        w := PopOne();
        PoppedStep(c);
        c := View();
      }
    }

    method PopOne() returns (w: Option<WriteRequest>)
      requires Shape() && Closed(View()) && ready != []
      modifies this`ready, known
      ensures Shape() && |ready| == |old(ready)| - 1
      ensures var c := old(View()); (View(), w) == TakeQueued(c.(ready := c.ready[1..]), c.ready[0])
    {
      var o := DropReady();
      w := o.PopQueuedWrite();
      OneChanged(o);
    }

    method DropReady() returns (o: TrackedWriteRequest)
      requires Shape() && ready != []
      modifies this`ready
      ensures Shape() && |ready| == |old(ready)| - 1 && Member(known, o) && o.id == old(View()).ready[0]
      ensures View() == old(View()).(ready := old(View()).ready[1..])
    {
      o := ready[0].tracked;
      ready := ready[1..];
      assert ReadyIds(ready) == ReadyIds(old(ready))[1..];
    }
  }

  /** Markers are dropped until one leads to a queued write. */
  ghost function Popped(c: Core): (Core, Option<WriteRequest>)
    requires Closed(c)
    decreases |c.ready|
  {
    if c.ready == [] then (c, None) else
    var (d, w) := TakeQueued(c.(ready := c.ready[1..]), c.ready[0]);
    if w.Some? then (d, w) else Popped(d)
  }

  lemma PoppedStep(c: Core)
    requires Closed(c) && c.ready != []
    ensures var (d, w) := TakeQueued(c.(ready := c.ready[1..]), c.ready[0]);
      Closed(d) && Popped(c) == if w.Some? then (d, w) else Popped(d)
  {
  }

  /** What is popped was queued in a write that has not been released; nothing else moves. */
  lemma {:induction false} PoppedKeeps(c: Core)
    requires Inv(c)
    ensures Inv(Popped(c).0) && Drift(Popped(c).0) == Drift(c) + if Popped(c).1.Some? then 1 else 0
    ensures Popped(c).1.None? ==> Popped(c).0 == c.(ready := [])
    ensures Popped(c).1.Some? ==>
      exists id :: id in c.objs && !c.objs[id].released && Popped(c).1.value in c.objs[id].queued
    decreases |c.ready|
  {
    if c.ready != [] {
      var id, rest := c.ready[0], c.(ready := c.ready[1..]);
      assert Ok(c, id);
      TakeQueuedKeeps(rest, id);
      if c.objs[id].queued == [] {
        PoppedKeeps(rest);
      }
    }
  }

  lemma TimersWithout(timers: seq<RetryEntry>, i: nat)
    requires i < |timers|
    ensures multiset(Timers(timers[..i] + timers[i + 1..]))
            == multiset(Timers(timers)) - multiset{Retry(timers[i].tracked.id, timers[i].write)}
  {
    var a := Timers(timers);
    assert a == a[..i] + [a[i]] + a[i + 1..];
    assert Timers(timers[..i] + timers[i + 1..]) == a[..i] + a[i + 1..];
  }

  lemma TimersIrrelevant(c: Core, timers: multiset<Retry>)
    requires Inv(c)
    ensures Inv(c.(timers := timers))
  {
  }

  lemma EnqueuedKeeps(c: Core, id: Id, w: WriteRequest)
    requires Inv(c) && id in c.objs && w.lsn == c.objs[id].point.lsn
    ensures Inv(Enqueued(c, id, w)) && Drift(Enqueued(c, id, w)) == Drift(c)
  {
    QueueWriteKeeps(c, id, w);
  }

  datatype Status = Done | DownstreamDown | WriteMissing

  ghost function OutcomeOf(status: Status, skips: seq<ResponseEntry>, retries: seq<Retry>): ErrorOutcome
  {
    match status
    case Done => Processed(skips, retries)
    case DownstreamDown => ShuttingDown
    case WriteMissing => MissingWrite
  }

  /** What the loop of `processErrorResponse` decides for one entry. */
  datatype Decision = Continue | Fatal | Halt | Acknowledge | Resend(entry: RetryEntry)

  ghost predicate Decides(d: Decision, v: Verdict)
  {
    match v
    case Ignored => d == Continue
    case Dropped => d == Continue
    case Missing => d == Fatal
    case ShutDown => d == Halt
    case Skip => d == Acknowledge
    case Again(r) => d.Resend? && r == Retry(d.entry.tracked.id, d.entry.write)
  }

  /** A failure counted. */
  ghost function Counted(t: Tracked, e: ErrorEntry): Tracked
  {
    t.(failures := t.failures[e.response.offset := Failed(t.failures, e.response.offset, e.reason)])
  }

  ghost function Judged(cfg: RetryConfig, id: Id, t: Tracked, e: ErrorEntry): Verdict
  {
    match Judge(cfg, Failed(t.failures, e.response.offset, e.reason), e.reason)
    case Stop => ShutDown
    case GiveUp => Skip
    case TryAgain =>
      if cfg.maxBackoff > 0 && RetryWrite(t, e.response.offset).Some?
      then Again(Retry(id, RetryWrite(t, e.response.offset).value)) else Dropped
  }

  lemma JudgedEntry(c: Core, cfg: RetryConfig, e: ErrorEntry, id: Id)
    requires Inv(c) && Find(c, c.tracking, e.response.lsn) == Some(id) && c.objs[id].pending != {}
    ensures TrackerSpec.JudgeEntry(c, cfg, e)
            == (c.(objs := c.objs[id := Counted(c.objs[id], e)]), Judged(cfg, id, c.objs[id], e))
    ensures c.objs[id].write.Some? ==> c.objs[id].write.value.lsn == c.objs[id].point.lsn
  {
    assert Ok(c, id);
  }

  /** The result of the remaining entries after some have been skipped and some retried. */
  ghost function Resumed(r: (Core, ErrorOutcome), skips: seq<ResponseEntry>, retries: seq<Retry>): (Core, ErrorOutcome)
  {
    (r.0, match r.1 case Processed(s, t) => Processed(skips + s, retries + t) case other => other)
  }

  lemma Unstarted(r: (Core, ErrorOutcome))
    ensures Resumed(r, [], []) == r
  {
    if r.1.Processed? {
      assert [] + r.1.skips == r.1.skips && [] + r.1.retries == r.1.retries;
    }
  }

  lemma Finished(c: Core, cfg: RetryConfig, skips: seq<ResponseEntry>, retries: seq<Retry>)
    requires Closed(c)
    ensures Resumed(ProcessErrors(c, cfg, []), skips, retries) == (c, Processed(skips, retries))
  {
    assert skips + [] == skips && retries + [] == retries;
  }

  lemma ErrorsStep(c: Core, cfg: RetryConfig, es: seq<ErrorEntry>, skips: seq<ResponseEntry>, retries: seq<Retry>)
    requires Closed(c) && es != []
    ensures var (d, v) := TrackerSpec.JudgeEntry(c, cfg, es[0]);
      Resumed(ProcessErrors(c, cfg, es), skips, retries)
      == if v.Missing? then (d, MissingWrite) else if v.ShutDown? then (d, ShuttingDown)
         else Resumed(ProcessErrors(d, cfg, es[1..]), if v.Skip? then skips + [es[0].response] else skips,
                      if v.Again? then retries + [v.retry] else retries)
  {
    var (d, v) := TrackerSpec.JudgeEntry(c, cfg, es[0]);
    if !v.Missing? && !v.ShutDown? {
      var rest := ProcessErrors(d, cfg, es[1..]).1;
      if rest.Processed? {
        assert skips + ([es[0].response] + rest.skips) == skips + [es[0].response] + rest.skips;
        if v.Again? {
          assert retries + ([v.retry] + rest.retries) == retries + [v.retry] + rest.retries;
        }
      }
    }
  }

  /** The step in terms of what was decided. */
  lemma ErrorsDecided(c: Core, cfg: RetryConfig, es: seq<ErrorEntry>, skips: seq<ResponseEntry>, retries: seq<Retry>,
                      c1: Core, d: Decision)
    requires Closed(c) && Closed(c1) && es != [] && c1 == TrackerSpec.JudgeEntry(c, cfg, es[0]).0
    requires Decides(d, TrackerSpec.JudgeEntry(c, cfg, es[0]).1)
    ensures Resumed(ProcessErrors(c, cfg, es), skips, retries)
      == if d.Fatal? then (c1, MissingWrite) else if d.Halt? then (c1, ShuttingDown)
         else Resumed(ProcessErrors(c1, cfg, es[1..]), if d.Acknowledge? then skips + [es[0].response] else skips,
                      if d.Resend? then retries + [Retry(d.entry.tracked.id, d.entry.write)] else retries)
  {
    ErrorsStep(c, cfg, es, skips, retries);
  }

  type AckMap = map<CommitPoint, seq<Offset>>

  ghost function Grouped(acks: AckMap): set<Delivery>
  {
    set cp, o | cp in acks && o in acks[cp] :: Delivery(cp.lsn, o)
  }

  function AddToAckMap(acks: AckMap, e: ResponseEntry): (r: AckMap)
    ensures Grouped(r) == Grouped(acks) + {DeliveryOf(e)}
  {
    var cp := CommitPoint(e.lsn, e.xid);
    var r := acks[cp := (if cp in acks then acks[cp] else []) + [e.offset]];
    assert Grouped(r) == Grouped(acks) + {DeliveryOf(e)} by { GroupedMore(acks, e); }
    r
  }

  lemma GroupedMore(acks: AckMap, e: ResponseEntry)
    ensures var cp := CommitPoint(e.lsn, e.xid);
      Grouped(acks[cp := (if cp in acks then acks[cp] else []) + [e.offset]]) == Grouped(acks) + {DeliveryOf(e)}
  {
    var cp := CommitPoint(e.lsn, e.xid);
    var r := acks[cp := (if cp in acks then acks[cp] else []) + [e.offset]];
    assert cp in r && e.offset in r[cp];
    forall d | d in Grouped(acks) ensures d in Grouped(r) {
      var p, o :| p in acks && o in acks[p] && Delivery(p.lsn, o) == d;
      assert p in r && o in r[p];
    }
  }

  lemma GroupedWithout(acks: AckMap, cp: CommitPoint)
    requires cp in acks
    ensures Grouped(acks) == At(cp.lsn, OffsetSet(acks[cp])) + Grouped(acks - {cp})
  {
    var r := acks - {cp};
    forall d | d in Grouped(acks) ensures d in At(cp.lsn, OffsetSet(acks[cp])) + Grouped(r) {
      var p, o :| p in acks && o in acks[p] && Delivery(p.lsn, o) == d;
      if p != cp {
        assert p in r && o in r[p];
      } else {
        assert o in OffsetSet(acks[cp]);
      }
    }
  }

  /** `OnError` as a whole. */
  ghost function ErrorsHandled(c: Core, cfg: RetryConfig, es: seq<ErrorEntry>): (Core, Status)
    requires Closed(c)
  {
    var (d, outcome) := ProcessErrors(c, cfg, es);
    match outcome
    case Processed(skips, retries) =>
      var e := AckAll(d, skips);
      (e.(timers := e.timers + multiset(retries)), Done)
    case ShuttingDown => (d, DownstreamDown)
    case MissingWrite => (d, WriteMissing)
  }

  /** `queueWrite` and, if it was accepted, its marker. */
  ghost function Enqueued(c: Core, id: Id, w: WriteRequest): Core
    requires id in c.objs
  {
    var (d, ok) := QueueWrite(c, id, w);
    if ok then PushMarker(d, id) else d
  }

  ghost function Tracking(c: Core, req: WriteRequest, id: Id): Core
  {
    c.(objs := c.objs[id := NewTracked(req)], tracking := InsertByLsn(c.objs, c.tracking, id, req.lsn))
  }

  /** `Add` as a whole. */
  ghost function Added(c: Core, req: WriteRequest, id: Id): Core
    requires Closed(c)
  {
    var (d, todo) := Track(c, req, id);
    if todo.None? then d else Enqueued(d, todo.value.id, todo.value.write)
  }

  /** The two ways a request above the watermark is handled. */
  lemma AddedCases(c: Core, req: WriteRequest, id: Id)
    requires Closed(c) && !IsAcknowledged(c, req.lsn)
    ensures var found := Find(c, c.tracking, req.lsn);
      if found.None? then Added(c, req, id) == Enqueued(Tracking(c, req, id), id, req)
      else
        var t := c.objs[found.value];
        var full := FullWrite(t);
        Added(c, req, id) == if t.pending == {} || t.failures == map[] || full.None? then c
                             else Enqueued(c, found.value, full.value)
  {
  }

  /** A tracker that knows one write more. */
  lemma ValuesMore(known: seq<TrackedWriteRequest>, o: TrackedWriteRequest)
    ensures Values(known + [o]) == Values(known)[|known| := o.Value()]
  {
  }

  lemma AckIdIs(c: Core, id: Id, offsets: set<Offset>)
    requires id in c.objs
    ensures var t, t' := c.objs[id], Acked(c.objs[id], offsets);
      var first := t'.released && !t.released;
      AckId(c, id, offsets) == Core(c.objs[id := t'], c.tracking, c.maxAck, c.ready, c.timers,
                                    if first then c.gauge - |t.queued| else c.gauge,
                                    if first then c.freed + multiset{id} else c.freed)
  {
  }

  lemma AddedKeepsInv(c: Core, req: WriteRequest, id: Id)
    requires Inv(c) && id !in c.objs && req.lsn > 0
    ensures Inv(Added(c, req, id)) && Drift(Added(c, req, id)) == Drift(c)
  {
    TrackKeeps(c, req, id);
    var (d, todo) := Track(c, req, id);
    if todo.Some? {
      assert Ok(d, todo.value.id);
      EnqueuedKeeps(d, todo.value.id, todo.value.write);
    }
  }

  function Later(lsn: Lsn): TrackedWriteRequest -> bool
  {
    (x: TrackedWriteRequest) => x.point.lsn > lsn
  }

  /** Inserting the object is inserting its number. */
  lemma {:induction false} InsertedIds(known: seq<TrackedWriteRequest>, s: seq<TrackedWriteRequest>,
      o: TrackedWriteRequest)
    requires AllMembers(known, s) && o.id == |known|
    ensures Ids(InsertBeforeFirst(s, o, Later(o.point.lsn))) == InsertByLsn(Values(known), Ids(s), o.id, o.point.lsn)
    ensures AllMembers(known + [o], InsertBeforeFirst(s, o, Later(o.point.lsn)))
  {
    assert Member(known + [o], o);
    forall x | x in s ensures Member(known + [o], x) { assert Member(known, x); }
    if s != [] {
      assert Ids(s)[1..] == Ids(s[1..]);
      assert Member(known, s[0]);
      InsertedIds(known, s[1..], o);
    }
  }

  ghost function Unscheduled(c: Core, r: Retry): Core
  {
    c.(timers := c.timers - multiset{r})
  }

  ghost function AckedHead(c: Core): Core
    requires Closed(c) && c.tracking != []
  {
    AckId(c, c.tracking[0], {}).(tracking := c.tracking[1..], maxAck := c.objs[c.tracking[0]].point)
  }

  lemma AdvanceStep(c: Core)
    requires Closed(c) && c.tracking != [] && c.objs[c.tracking[0]].pending == {}
    ensures Closed(AckedHead(c)) && Advance(AckedHead(c)) == Advance(c)
  {
  }

  lemma NothingLeft<T>(a: set<T>, b: set<T>)
    ensures a - b == {} <==> a <= b
  {
    if !(a <= b) {
      var x :| x in a && x !in b;
      assert x in a - b;
    }
  }

  lemma {:induction false} FindAt(c: Core, ids: seq<Id>, lsn: Lsn, k: nat)
    requires k < |ids| && forall id <- ids :: id in c.objs
    requires c.objs[ids[k]].point.lsn == lsn
    requires forall j :: 0 <= j < k ==> c.objs[ids[j]].point.lsn != lsn
    ensures Find(c, ids, lsn) == Some(ids[k])
  {
    if k > 0 {
      assert c.objs[ids[0]].point.lsn != lsn;
      assert ids[1..][k - 1] == ids[k];
      FindAt(c, ids[1..], lsn, k - 1);
    }
  }
}
