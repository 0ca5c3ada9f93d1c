/** What every locked section of the LSN tracker keeps. */
module TrackerInvariant {
  import opened WriteQueues
  import opened Wal
  import opened TrackerSpec

  /** A tracked write is released exactly when nothing of it is pending, and a released one
      holds no entries, no failures and no queued writes. */
  ghost predicate TrackedOk(t: Tracked)
  {
    && t.point.lsn > 0
    && (t.released <==> t.pending == {})
    && (t.released ==> t.write.None? && t.queued == [] && t.failures == map[])
    && (!t.released ==> t.write.Some? && t.write.value.lsn == t.point.lsn && t.pending <= Offsets(t.write.value))
    && (forall w <- t.queued :: w.lsn == t.point.lsn)
    && FailuresCounted(t.failures)
  }

  /** Every recorded failure has used up a retry. */
  ghost predicate FailuresCounted(failures: map<Offset, Failure>)
  {
    forall o <- failures :: failures[o].retries >= 1
  }

  /** An accepted write is tracked above the watermark, or is fully acknowledged at or below it;
      its entries have been freed exactly when it is released. */
  ghost predicate IdOk(objs: map<Id, Tracked>, tracking: seq<Id>, maxAck: CommitPoint, freed: multiset<Id>, id: Id)
    requires id in objs
  {
    && TrackedOk(objs[id])
    && (if id in tracking then objs[id].point.lsn > maxAck.lsn
        else objs[id].released && objs[id].point.lsn <= maxAck.lsn)
    && (id in freed <==> objs[id].released)
  }

  ghost predicate AllOk(objs: map<Id, Tracked>, tracking: seq<Id>, maxAck: CommitPoint, freed: multiset<Id>)
  {
    forall id {:trigger IdOk(objs, tracking, maxAck, freed, id)} ::
      id in objs ==> IdOk(objs, tracking, maxAck, freed, id)
  }

  ghost predicate Below(objs: map<Id, Tracked>, tracking: seq<Id>, i: int, j: int)
    requires 0 <= i < |tracking| && 0 <= j < |tracking|
  {
    LsnOf(objs, tracking[i]) < LsnOf(objs, tracking[j])
  }

  /** The tracking queue is strictly increasing in LSN. */
  ghost predicate Sorted(objs: map<Id, Tracked>, tracking: seq<Id>)
  {
    forall i, j {:trigger Below(objs, tracking, i, j)} :: 0 <= i < j < |tracking| ==> Below(objs, tracking, i, j)
  }

  ghost predicate FreedOnce(objs: map<Id, Tracked>, freed: multiset<Id>)
  {
    && (forall id <- freed :: id in objs && freed[id] == 1)
  }

  ghost predicate Inv(c: Core)
  {
    && Closed(c)
    && AllOk(c.objs, c.tracking, c.maxAck, c.freed)
    && Sorted(c.objs, c.tracking)
    && FreedOnce(c.objs, c.freed)
  }

  ghost predicate Ok(c: Core, id: Id)
    requires id in c.objs
  {
    IdOk(c.objs, c.tracking, c.maxAck, c.freed, id)
  }

  // ---- the queued writes and the gauge

  function QueuedOf(objs: map<Id, Tracked>, id: Id): nat
  {
    if id in objs then |objs[id].queued| else 0
  }

  function QueuedIn(objs: map<Id, Tracked>, ids: seq<Id>): nat
  {
    if ids == [] then 0 else QueuedOf(objs, ids[0]) + QueuedIn(objs, ids[1..])
  }

  /** Writes still queued in tracked requests. */
  function QueuedTotal(c: Core): nat
  {
    QueuedIn(c.objs, c.tracking)
  }

  /** How far the gauge is from the number of queued writes. */
  function Drift(c: Core): int
  {
    c.gauge - QueuedTotal(c)
  }

  lemma {:induction false} QueuedInsert(objs: map<Id, Tracked>, ids: seq<Id>, k: nat, id: Id)
    requires k <= |ids|
    ensures QueuedIn(objs, InsertAt(ids, k, id)) == QueuedIn(objs, ids) + QueuedOf(objs, id)
  {
    if k == 0 {
      assert InsertAt(ids, k, id) == [id] + ids;
    } else {
      assert InsertAt(ids, k, id)[1..] == InsertAt(ids[1..], k - 1, id);
      QueuedInsert(objs, ids[1..], k - 1, id);
    }
  }

  lemma {:induction false} QueuedElsewhere(objs: map<Id, Tracked>, ids: seq<Id>, id: Id, t: Tracked)
    requires id !in ids
    ensures QueuedIn(objs[id := t], ids) == QueuedIn(objs, ids)
  {
    if ids != [] {
      QueuedElsewhere(objs, ids[1..], id, t);
    }
  }

  /** Changing one tracked write moves the total by the change of its own queue. */
  lemma {:induction false} QueuedUpdate(objs: map<Id, Tracked>, ids: seq<Id>, k: nat, t: Tracked)
    requires Distinct(ids) && k < |ids| && ids[k] in objs
    ensures QueuedIn(objs[ids[k] := t], ids) == QueuedIn(objs, ids) - |objs[ids[k]].queued| + |t.queued|
  {
    if k == 0 {
      QueuedElsewhere(objs, ids[1..], ids[0], t);
    } else {
      assert ids[1..][k - 1] == ids[k];
      QueuedUpdate(objs, ids[1..], k - 1, t);
    }
  }

  lemma SortedDistinct(c: Core)
    requires Sorted(c.objs, c.tracking)
    ensures Distinct(c.tracking)
  {
    forall i, j | 0 <= i < j < |c.tracking| ensures c.tracking[i] != c.tracking[j] {
      assert Below(c.objs, c.tracking, i, j);
    }
  }

  lemma QueuedChange(c: Core, id: Id, t: Tracked)
    requires Sorted(c.objs, c.tracking) && id in c.tracking && id in c.objs
    ensures QueuedIn(c.objs[id := t], c.tracking) == QueuedTotal(c) - |c.objs[id].queued| + |t.queued|
  {
    SortedDistinct(c);
    var k :| 0 <= k < |c.tracking| && c.tracking[k] == id;
    QueuedUpdate(c.objs, c.tracking, k, t);
  }

  // ---- changing one tracked write

  lemma SortedUpdate(c: Core, d: Core)
    requires Sorted(c.objs, c.tracking) && d.tracking == c.tracking
    requires forall id <- c.tracking :: LsnOf(d.objs, id) == LsnOf(c.objs, id)
    ensures Sorted(d.objs, d.tracking)
  {
    forall i, j | 0 <= i < j < |d.tracking| ensures Below(d.objs, d.tracking, i, j) {
      assert Below(c.objs, c.tracking, i, j);
    }
  }

  /** Replacing the value of a known write by one with the same LSN. */
  lemma UpdateKeeps(c: Core, id: Id, t: Tracked)
    requires Inv(c) && id in c.objs
    requires TrackedOk(t) && t.point == c.objs[id].point && t.released == c.objs[id].released
    ensures Inv(c.(objs := c.objs[id := t]))
    ensures QueuedTotal(c.(objs := c.objs[id := t])) == QueuedTotal(c) - |c.objs[id].queued| + |t.queued|
  {
    var d := c.(objs := c.objs[id := t]);
    assert Ok(c, id);
    forall x | x in d.objs ensures Ok(d, x) { assert Ok(c, x); }
    SortedUpdate(c, d);
    if id in c.tracking {
      QueuedChange(c, id, t);
    } else {
      QueuedElsewhere(c.objs, c.tracking, id, t);
    }
  }

  ghost function Freed(c: Core, id: Id): Core
    requires id in c.objs
  {
    c.(objs := c.objs[id := Release(c.objs[id])], gauge := c.gauge - |c.objs[id].queued|, freed := c.freed
        + multiset{id})
  }

  lemma ReleaseKeeps(c: Core, id: Id)
    requires Inv(c) && id in c.objs && !c.objs[id].released
    ensures Inv(Freed(c, id)) && Drift(Freed(c, id)) == Drift(c)
  {
    var d := Freed(c, id);
    assert Ok(c, id);
    QueuedChange(c, id, Release(c.objs[id]));
    SortedUpdate(c, d);
    forall x | x in d.objs ensures Ok(d, x) { assert Ok(c, x); }
  }

  // ---- the sections

  lemma TrackKeeps(c: Core, req: WriteRequest, id: Id)
    requires Inv(c) && id !in c.objs && req.lsn > 0
    ensures Inv(Track(c, req, id).0)
    ensures Drift(Track(c, req, id).0) == Drift(c)
  {
    if !IsAcknowledged(c, req.lsn) && Find(c, c.tracking, req.lsn).None? {
      var k := InsertPosition(c, req.lsn, id);
      NewKeeps(c, req, id, k);
    }
  }

  lemma InsertPosition(c: Core, lsn: Lsn, id: Id) returns (k: nat)
    requires Closed(c) && Sorted(c.objs, c.tracking) && forall x <- c.tracking :: c.objs[x].point.lsn != lsn
    ensures k <= |c.tracking|
    ensures InsertByLsn(c.objs, c.tracking, id, lsn) == InsertAt(c.tracking, k, id)
    ensures forall i :: 0 <= i < k ==> LsnOf(c.objs, c.tracking[i]) < lsn
    ensures forall i :: k <= i < |c.tracking| ==> LsnOf(c.objs, c.tracking[i]) > lsn
  {
    var before := (x: Id) => LsnOf(c.objs, x) > lsn;
    assert Monotone(c.tracking, before) by {
      forall i, j | 0 <= i < j < |c.tracking| && before(c.tracking[i]) ensures before(c.tracking[j]) {
        assert Below(c.objs, c.tracking, i, j);
      }
    }
    k := FirstMatch(c.tracking, before);
    BoundaryIsLinearInsertion(c.tracking, id, before, k);
  }

  ghost function WithNew(c: Core, req: WriteRequest, id: Id, k: nat): Core
    requires k <= |c.tracking|
  {
    c.(objs := c.objs[id := NewTracked(req)], tracking := InsertAt(c.tracking, k, id))
  }

  lemma NewKeeps(c: Core, req: WriteRequest, id: Id, k: nat)
    requires Inv(c) && id !in c.objs && req.lsn > c.maxAck.lsn
    requires k <= |c.tracking|
    requires forall i :: 0 <= i < k ==> LsnOf(c.objs, c.tracking[i]) < req.lsn
    requires forall i :: k <= i < |c.tracking| ==> LsnOf(c.objs, c.tracking[i]) > req.lsn
    ensures Inv(WithNew(c, req, id, k)) && Drift(WithNew(c, req, id, k)) == Drift(c)
  {
    var d := WithNew(c, req, id, k);
    InsertMembers(c.tracking, k, id);
    NewOk(c, req, id, k);
    NewSorted(c, req, id, k);
    QueuedInsert(d.objs, c.tracking, k, id);
    QueuedElsewhere(c.objs, c.tracking, id, NewTracked(req));
  }

  lemma NewOk(c: Core, req: WriteRequest, id: Id, k: nat)
    requires Inv(c) && id !in c.objs && req.lsn > c.maxAck.lsn && k <= |c.tracking|
    ensures var d := WithNew(c, req, id, k); AllOk(d.objs, d.tracking, d.maxAck, d.freed)
  {
    var d := WithNew(c, req, id, k);
    InsertMembers(c.tracking, k, id);
    forall x | x in d.objs ensures Ok(d, x) {
      if x != id { assert Ok(c, x); }
    }
  }

  lemma NewSorted(c: Core, req: WriteRequest, id: Id, k: nat)
    requires Closed(c) && Sorted(c.objs, c.tracking) && id !in c.objs && k <= |c.tracking|
    requires forall i :: 0 <= i < k ==> LsnOf(c.objs, c.tracking[i]) < req.lsn
    requires forall i :: k <= i < |c.tracking| ==> LsnOf(c.objs, c.tracking[i]) > req.lsn
    ensures Sorted(WithNew(c, req, id, k).objs, WithNew(c, req, id, k).tracking)
  {
    var d := WithNew(c, req, id, k);
    forall i, j | 0 <= i < j < |d.tracking| ensures Below(d.objs, d.tracking, i, j) {
      var a := if i < k then i else i - 1;
      var b := if j < k then j else j - 1;
      if i != k && j != k { assert Below(c.objs, c.tracking, a, b); }
    }
  }

  lemma InsertMembers<T>(s: seq<T>, k: nat, x: T)
    requires k <= |s|
    ensures forall e :: e in InsertAt(s, k, x) <==> e in s || e == x
  {
    assert s == s[..k] + s[k..];
  }

  lemma QueueWriteKeeps(c: Core, id: Id, w: WriteRequest)
    requires Inv(c) && id in c.objs && w.lsn == c.objs[id].point.lsn
    ensures Inv(QueueWrite(c, id, w).0)
    ensures Drift(QueueWrite(c, id, w).0) == Drift(c) - if QueueWrite(c, id, w).1 then 1 else 0
  {
    var t := c.objs[id];
    assert Ok(c, id);
    if Accepts(t, w) {
      UpdateKeeps(c, id, t.(queued := t.queued + [w]));
    }
  }

  /** What leaves a queue belongs to a write that has not been released. */
  lemma TakeQueuedKeeps(c: Core, id: Id)
    requires Inv(c) && id in c.objs
    ensures Inv(TakeQueued(c, id).0)
    ensures Drift(TakeQueued(c, id).0) == Drift(c) + if TakeQueued(c, id).1.Some? then 1 else 0
    ensures TakeQueued(c, id).1.Some? ==> !c.objs[id].released && TakeQueued(c, id).1.value.lsn == c.objs[id].point.lsn
  {
    var t := c.objs[id];
    assert Ok(c, id);
    if t.queued != [] {
      UpdateKeeps(c, id, t.(queued := t.queued[1..]));
    }
  }

  lemma AckIdKeeps(c: Core, id: Id, offsets: set<Offset>)
    requires Inv(c) && id in c.objs
    ensures Inv(AckId(c, id, offsets)) && Drift(AckId(c, id, offsets)) == Drift(c)
  {
    var t := c.objs[id];
    assert Ok(c, id);
    if t.released {
      assert AckId(c, id, offsets) == c;
    } else if t.pending <= offsets {
      ReleaseKeeps(c, id);
    } else {
      var o :| o in t.pending && o !in offsets;
      assert o in t.pending - offsets;
      UpdateKeeps(c, id, t.(pending := t.pending - offsets));
    }
  }

  lemma {:induction false} AckAllKeeps(c: Core, es: seq<ResponseEntry>)
    requires Inv(c)
    ensures Inv(AckAll(c, es)) && Drift(AckAll(c, es)) == Drift(c)
    decreases |es|
  {
    if es != [] {
      var found := Find(c, c.tracking, es[0].lsn);
      if found.Some? {
        AckIdKeeps(c, found.value, {es[0].offset});
      }
      AckAllKeeps(AckLsn(c, es[0].lsn, {es[0].offset}), es[1..]);
    }
  }

  ghost function HeadPopped(c: Core): Core
    requires Closed(c) && c.tracking != []
  {
    c.(tracking := c.tracking[1..], maxAck := c.objs[c.tracking[0]].point)
  }

  lemma PopHeadKeeps(c: Core)
    requires Inv(c) && c.tracking != [] && c.objs[c.tracking[0]].pending == {}
    ensures Inv(HeadPopped(c)) && Drift(HeadPopped(c)) == Drift(c) && HeadPopped(c).maxAck.lsn > c.maxAck.lsn
    ensures AckId(c, c.tracking[0], {}) == c
  {
    var d := HeadPopped(c);
    var id := c.tracking[0];
    assert Ok(c, id);
    forall x | x in d.objs ensures Ok(d, x) {
      assert Ok(c, x);
      if x in c.tracking {
        var i :| 0 <= i < |c.tracking| && c.tracking[i] == x;
        if i > 0 {
          assert Below(c.objs, c.tracking, 0, i) && d.tracking[i - 1] == x;
        } else {
          SortedDistinct(c);
          assert x !in d.tracking;
        }
      } else {
        assert x !in d.tracking;
      }
    }
    forall i, j | 0 <= i < j < |d.tracking| ensures Below(d.objs, d.tracking, i, j) { assert Below(c.objs,
        c.tracking, i + 1, j + 1); }
    assert c.objs[id := c.objs[id]] == c.objs;
  }

  /** The watermark only rises, and afterwards the oldest tracked write has something pending. */
  lemma {:induction false} AdvanceKeeps(c: Core)
    requires Inv(c)
    ensures Inv(Advance(c)) && Drift(Advance(c)) == Drift(c)
    ensures Advance(c).objs == c.objs && Advance(c).ready == c.ready && Advance(c).freed == c.freed
    ensures Advance(c).timers == c.timers
    ensures Advance(c).maxAck.lsn >= c.maxAck.lsn
    ensures Advance(c).tracking != [] ==> Advance(c).objs[Advance(c).tracking[0]].pending != {}
    decreases |c.tracking|
  {
    if c.tracking != [] && c.objs[c.tracking[0]].pending == {} {
      PopHeadKeeps(c);
      AdvanceKeeps(HeadPopped(c));
    }
  }

  lemma JudgeKeeps(c: Core, cfg: RetryConfig, e: ErrorEntry)
    requires Inv(c)
    ensures Inv(JudgeEntry(c, cfg, e).0) && Drift(JudgeEntry(c, cfg, e).0) == Drift(c)
  {
    var found := Find(c, c.tracking, e.response.lsn);
    if found.Some? && c.objs[found.value].pending != {} {
      assert Ok(c, found.value);
      var t := c.objs[found.value];
      var f := Failed(t.failures, e.response.offset, e.reason);
      UpdateKeeps(c, found.value, t.(failures := t.failures[e.response.offset := f]));
    }
  }

  lemma {:induction false} ErrorsKeep(c: Core, cfg: RetryConfig, es: seq<ErrorEntry>)
    requires Inv(c)
    ensures Inv(ProcessErrors(c, cfg, es).0) && Drift(ProcessErrors(c, cfg, es).0) == Drift(c)
    decreases |es|
  {
    if es != [] {
      JudgeKeeps(c, cfg, es[0]);
      ErrorsKeep(JudgeEntry(c, cfg, es[0]).0, cfg, es[1..]);
    }
  }
}
