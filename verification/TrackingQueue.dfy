/** The tracking queue as the tracker uses it: the linked queue with the tracker's predicates, and the
    callback of `advanceMaxAcknowledged`, which releases an entry before it is unlinked. */
module TrackingQueues {
  import opened WriteQueues
  import opened Wal
  import opened TrackerSpec
  import opened Tracker

  function SizeOf(): TrackedWriteRequest -> nat
  {
    (x: TrackedWriteRequest) => x.size
  }

  function LsnKey(): TrackedWriteRequest -> int
  {
    (x: TrackedWriteRequest) => x.point.lsn
  }

  function HasLsn(lsn: Lsn): TrackedWriteRequest -> bool
  {
    (x: TrackedWriteRequest) => x.point.lsn == lsn
  }

  /** The cached sizes of the entries, added up. */
  function Sizes(s: seq<TrackedWriteRequest>): nat
  {
    if s == [] then 0 else s[0].size + Sizes(s[1..])
  }

  lemma {:induction false} SizesAre(s: seq<TrackedWriteRequest>)
    ensures TotalSize(s, SizeOf()) == Sizes(s)
  {
    if s != [] {
      SizesAre(s[1..]);
    }
  }

  class TrackingQueue {
    const queue: WriteQueue<TrackedWriteRequest>

    ghost function Contents(): seq<TrackedWriteRequest>
      reads queue
    {
      queue.Contents()
    }

    /** Strictly increasing in LSN; the count is the sum of the cached sizes, released or not. */
    ghost predicate Valid()
      reads queue, queue.nodes
    {
      queue.Valid() && !queue.stopped && queue.size == SizeOf() && Increasing(queue.Contents(), LsnKey())
    }

    constructor ()
      ensures Valid() && Contents() == [] && fresh(queue)
    {
      queue := new WriteQueue(SizeOf());
    }

    /** `pushTrackedWrite`: the two-ended search puts a new LSN where linear insertion would. */
    method PushTrackedWrite(o: TrackedWriteRequest) returns (count: nat)
      requires Valid() && forall x <- Contents() :: x.point.lsn != o.point.lsn
      modifies queue, queue.nodes
      ensures Valid() && Contents() == InsertBeforeFirst(old(Contents()), o, Later(o.point.lsn))
      ensures count == Sizes(Contents())
    {
      SortedInsertion(Contents(), o, LsnKey(), Later(o.point.lsn));
      ghost var k, steps;
      count, k, steps := queue.PushBefore(o, Some(Later(o.point.lsn)));
      SizesAre(Contents());
    }

    /** `findTrackedWrite` */
    method FindTrackedWrite(lsn: Lsn) returns (r: Option<TrackedWriteRequest>)
      requires Valid()
      ensures r.Some? ==> r.value in Contents() && r.value.point.lsn == lsn
      ensures r.None? ==> forall x <- Contents() :: x.point.lsn != lsn
    {
      r := queue.Find(HasLsn(lsn));
      if r.None? {
        forall x | x in Contents() ensures x.point.lsn != lsn {
          var i :| 0 <= i < |Contents()| && Contents()[i] == x;
          assert !HasLsn(lsn)(Contents()[i]);
        }
      }
    }

    /** `advanceMaxAcknowledged`: `PopUntil` with the callback that releases the entry, takes its queued
        writes off the gauge and assigns the watermark. */
    method PopAcknowledged(max: CommitPoint, ghost region: set<object>)
      returns (point: CommitPoint, dropped: nat, ghost k: nat)
      requires Valid() && InRegion(region)
      modifies region
      ensures Valid() && k <= |old(Contents())| && Contents() == old(Contents())[k..]
      ensures Progress(old(Contents()), old(Snapshot(Contents())), k)
      ensures k < |old(Contents())| ==> old(Snapshot(Contents()))[k].pending != {}
      ensures point == if k > 0 then old(Contents())[k - 1].point else max
      ensures dropped == StillQueued(old(Snapshot(Contents())), k)
    {
      ghost var all, was := Contents(), Snapshot(Contents());
      assert all[0..] == all && Progress(all, was, 0);
      point, dropped, k := PopWhileAcknowledged(max, region, all, was);
      NextNotAcknowledged(region, all, was, k);
    }

    /** The first `k` of `all` have been popped. */
    ghost predicate At(region: set<object>, all: seq<TrackedWriteRequest>, was: seq<Tracked>, k: nat)
      reads queue, queue.nodes, all
    {
      && Valid() && InRegion(region) && Increasing(all, LsnKey())
      && k <= |all| && Contents() == all[k..] && Progress(all, was, k)
    }

    predicate HeadAcknowledged()
      reads queue, queue.nodes, queue.Contents()
      requires Valid()
    {
      queue.tail != null && queue.tail.data.pending == {}
    }

    lemma NextNotAcknowledged(region: set<object>, all: seq<TrackedWriteRequest>, was: seq<Tracked>, k: nat)
      requires At(region, all, was, k) && !HeadAcknowledged()
      ensures k < |all| ==> was[k].pending != {}
    {
      if k < |all| {
        assert Contents()[0] == all[k] && TrackedAt(all, was, k, k);
      }
    }

    method PopWhileAcknowledged(max: CommitPoint, ghost region: set<object>, ghost all: seq<TrackedWriteRequest>,
        ghost was: seq<Tracked>)
      returns (point: CommitPoint, dropped: nat, ghost k: nat)
      requires At(region, all, was, 0)
      modifies region
      ensures At(region, all, was, k) && !HeadAcknowledged()
      ensures Sums(max, all, was, k, point, dropped)
    {
      point, dropped, k := max, 0, 0;
      while HeadAcknowledged()
        invariant At(region, all, was, k) && Sums(max, all, was, k, point, dropped)
        decreases |all| - k
      {
        var next, n := PopNext(region, all, was, k);
        SumsNext(max, all, was, k, point, dropped);
        point, dropped, k := next, dropped + n, k + 1;
      }
    }

    method PopNext(ghost region: set<object>, ghost all: seq<TrackedWriteRequest>, ghost was: seq<Tracked>,
        ghost k: nat)
      returns (point: CommitPoint, dropped: nat)
      requires At(region, all, was, k) && HeadAcknowledged()
      modifies region
      ensures k < |all| && At(region, all, was, k + 1)
      ensures point == all[k].point && dropped == StillHeld(was[k])
    {
      assert queue.tail.data == Contents()[0] == all[k] && TrackedAt(all, was, k, k);
      point, dropped := ReleaseHead(region, Rest(all, k));
      ghost var m := k + 1;
      forall i | 0 <= i < |all| ensures TrackedAt(all, was, m, i) {
        assert old(TrackedAt(all, was, k, i));
      }
    }

    /** The objects the queue consists of. */
    ghost predicate InRegion(region: set<object>)
      reads queue
    {
      && queue in region && this !in region
      && (forall n <- queue.nodes :: n in region)
      && (forall x <- queue.Contents() :: x in region)
    }

    method ReleaseHead(ghost region: set<object>, ghost others: set<TrackedWriteRequest>)
      returns (point: CommitPoint, dropped: nat)
      requires Valid() && InRegion(region) && queue.tail != null && queue.tail.data.pending == {}
      requires queue.tail.data !in others
      modifies region
      ensures Valid() && InRegion(region) && |old(Contents())| > 0 && Contents() == old(Contents())[1..]
      ensures |queue.nodes| < |old(queue.nodes)|
      ensures old(Contents())[0].released && point == old(Contents())[0].point
      ensures forall x <- others :: x.Value() == old(x.Value())
      ensures dropped == if old(queue.tail.data.released) then 0 else |old(queue.tail.data.queued)|
    {
      var o := queue.tail.data;
      assert o == Contents()[0] && o in Contents();
      dropped := o.Release();
      point := o.point;
      queue.DropTail();
      assert Contents() == old(Contents())[1..];
    }
  }

  /** The queued writes that leave the gauge with a release. */
  function StillHeld(t: Tracked): nat
  {
    if t.released then 0 else |t.queued|
  }

  function StillQueued(was: seq<Tracked>, k: nat): nat
    requires k <= |was|
  {
    if k == 0 then 0 else StillQueued(was, k - 1) + StillHeld(was[k - 1])
  }

  /** The watermark and the number of queued writes dropped after `k` entries. */
  ghost predicate Sums(max: CommitPoint, all: seq<TrackedWriteRequest>, was: seq<Tracked>, k: nat, point: CommitPoint,
      dropped: nat)
  {
    && k <= |all| == |was|
    && point == (if k > 0 then all[k - 1].point else max) && dropped == StillQueued(was, k)
  }

  lemma SumsNext(max: CommitPoint, all: seq<TrackedWriteRequest>, was: seq<Tracked>, k: nat, point: CommitPoint,
      dropped: nat)
    requires Sums(max, all, was, k, point, dropped) && k < |all|
    ensures Sums(max, all, was, k + 1, all[k].point, dropped + StillHeld(was[k]))
  {
  }

  /** Entry `i` once the first `k` have been released. */
  ghost predicate TrackedAt(all: seq<TrackedWriteRequest>, was: seq<Tracked>, k: nat, i: nat)
    requires i < |all| == |was|
    reads all[i]
  {
    if i < k then was[i].pending == {} && all[i].Value().released else all[i].Value() == was[i]
  }

  /** The first `k` entries, all acknowledged, are released, and no other has changed. */
  ghost predicate Progress(all: seq<TrackedWriteRequest>, was: seq<Tracked>, k: nat)
    reads all
  {
    |was| == |all| && forall i {:trigger TrackedAt(all, was, k, i)} :: 0 <= i < |all| ==> TrackedAt(all, was, k, i)
  }

  ghost function Snapshot(s: seq<TrackedWriteRequest>): (r: seq<Tracked>)
    reads s
    ensures |r| == |s| && forall i :: 0 <= i < |s| ==> r[i] == s[i].Value()
  {
    if s == [] then [] else [s[0].Value()] + Snapshot(s[1..])
  }

  ghost function Rest(s: seq<TrackedWriteRequest>, k: nat): (r: set<TrackedWriteRequest>)
    requires Increasing(s, LsnKey()) && k < |s|
    ensures s[k] !in r && forall i :: 0 <= i < |s| && i != k ==> s[i] in r
  {
    assert forall i :: 0 <= i < |s| && i != k ==> s[i] != s[k] by {
      forall i | 0 <= i < |s| && i != k ensures s[i] != s[k] {
        Apart(s, i, k);
      }
    }
    set i | 0 <= i < |s| && i != k :: s[i]
  }

  lemma Apart(s: seq<TrackedWriteRequest>, i: nat, k: nat)
    requires Increasing(s, LsnKey()) && i < |s| && k < |s| && i != k
    ensures s[i] != s[k]
  {
    assert i < k ==> LsnKey()(s[i]) < LsnKey()(s[k]);
    assert k < i ==> LsnKey()(s[k]) < LsnKey()(s[i]);
  }
}
