/** Responses are grouped by commit point before they are applied; the order in which the groups
    are applied makes no difference. */
module TrackerGrouping {
  import opened Wal
  import opened TrackerSpec
  import opened TrackerInvariant
  import opened TrackerRuns

  function OffsetsIn(ds: set<Delivery>, lsn: Lsn): set<Offset>
  {
    set d <- ds | d.lsn == lsn :: d.offset
  }

  function At(lsn: Lsn, offsets: set<Offset>): set<Delivery>
  {
    set o <- offsets :: Delivery(lsn, o)
  }

  ghost predicate SameQueues(c: Core, d: Core)
  {
    d.tracking == c.tracking && d.ready == c.ready && d.timers == c.timers && d.maxAck == c.maxAck
  }

  ghost predicate AckedId(objs: map<Id, Tracked>, objs': map<Id, Tracked>, ds: set<Delivery>, id: Id)
    requires id in objs && id in objs'
  {
    objs'[id] == Acked(objs[id], OffsetsIn(ds, objs[id].point.lsn))
  }

  ghost predicate AckedObjs(objs: map<Id, Tracked>, objs': map<Id, Tracked>, ds: set<Delivery>)
  {
    && objs'.Keys == objs.Keys
    && forall id {:trigger AckedId(objs, objs', ds, id)} :: id in objs ==> AckedId(objs, objs', ds, id)
  }

  /** `d` is `c` after exactly the given deliveries were acknowledged. */
  ghost predicate After(c: Core, d: Core, ds: set<Delivery>)
  {
    && SameQueues(c, d)
    && AckedObjs(c.objs, d.objs, ds)
    && Inv(d) && Drift(d) == Drift(c)
  }

  /** That determines the state. */
  lemma AfterUnique(c: Core, d1: Core, d2: Core, ds: set<Delivery>)
    requires After(c, d1, ds) && After(c, d2, ds)
    ensures d1 == d2
  {
    forall id | id in c.objs ensures d1.objs[id] == d2.objs[id] {
      assert AckedId(c.objs, d1.objs, ds, id) && AckedId(c.objs, d2.objs, ds, id);
    }
    assert d1.objs == d2.objs;
    assert d1.freed == d2.freed by {
      forall id ensures d1.freed[id] == d2.freed[id] {
        if id in d1.objs {
          assert Ok(d1, id) && Ok(d2, id);
        }
      }
    }
  }

  lemma AfterNothing(c: Core)
    requires Inv(c)
    ensures After(c, c, {})
  {
    forall id | id in c.objs ensures AckedId(c.objs, c.objs, {}, id) {
      assert Ok(c, id);
      assert OffsetsIn({}, c.objs[id].point.lsn) == {};
    }
  }

  lemma AckedTwice(t: Tracked, a: set<Offset>, b: set<Offset>)
    requires TrackedOk(t)
    ensures Acked(Acked(t, a), b) == Acked(t, a + b)
  {
    if !(t.pending <= a + b) {
      var o :| o in t.pending && o !in a + b;
      assert o in t.pending - a && !(t.pending <= a);
      assert t.pending - a - b == t.pending - (a + b);
    } else if !(t.pending <= a) {
      assert t.pending - a <= b;
    }
  }

  /** One more group. */
  lemma AfterMore(c: Core, d: Core, ds: set<Delivery>, lsn: Lsn, offsets: set<Offset>)
    requires Inv(c) && After(c, d, ds)
    ensures After(c, AckLsn(d, lsn, offsets), ds + At(lsn, offsets))
  {
    var more := ds + At(lsn, offsets);
    var e := AckLsn(d, lsn, offsets);
    AckLsnKeeps(d, lsn, offsets);
    AckFrame(d, lsn, offsets);
    forall id | id in c.objs ensures AckedId(c.objs, e.objs, more, id) {
      assert Ok(c, id) && AckedId(c.objs, d.objs, ds, id);
      var here := if c.objs[id].point.lsn == lsn then offsets else {};
      assert d.objs[id].point == c.objs[id].point;
      AckLsnExact(d, lsn, offsets, id);
      AckedTwice(c.objs[id], OffsetsIn(ds, c.objs[id].point.lsn), here);
      MoreOffsets(ds, lsn, offsets, c.objs[id].point.lsn);
    }
  }

  lemma MoreOffsets(ds: set<Delivery>, lsn: Lsn, offsets: set<Offset>, at: Lsn)
    ensures OffsetsIn(ds + At(lsn, offsets), at)
            == OffsetsIn(ds, at) + if at == lsn then offsets else {}
  {
    var more := At(lsn, offsets);
    forall o | o in offsets && at == lsn ensures o in OffsetsIn(ds + more, at) {
      assert Delivery(lsn, o) in ds + more;
    }
    forall o | o in OffsetsIn(ds, at) ensures o in OffsetsIn(ds + more, at) {
      assert Delivery(at, o) in ds + more by {
        var d :| d in ds && d.lsn == at && d.offset == o;
        assert d == Delivery(at, o);
      }
    }
  }

  lemma AckLsnExact(c: Core, lsn: Lsn, offsets: set<Offset>, id: Id)
    requires Inv(c) && id in c.objs
    ensures AckLsn(c, lsn, offsets).objs[id] == Acked(c.objs[id], if c.objs[id].point.lsn == lsn then offsets else {})
  {
    assert Ok(c, id);
    var found := Find(c, c.tracking, lsn);
    if found.Some? && id in c.tracking {
      UniqueLsn(c, found.value, id);
    }
  }

  function DeliverySet(es: seq<ResponseEntry>): set<Delivery>
  {
    set e <- es :: DeliveryOf(e)
  }

  /** Entry by entry. */
  lemma {:induction false} AckAllAfter(c: Core, d: Core, ds: set<Delivery>, es: seq<ResponseEntry>)
    requires Inv(c) && After(c, d, ds)
    ensures After(c, AckAll(d, es), ds + DeliverySet(es))
    decreases |es|
  {
    if es == [] {
      assert ds + DeliverySet(es) == ds;
    } else {
      AfterMore(c, d, ds, es[0].lsn, {es[0].offset});
      DeliverySetStep(ds, es);
      AckAllAfter(c, AckLsn(d, es[0].lsn, {es[0].offset}), ds + At(es[0].lsn, {es[0].offset}), es[1..]);
    }
  }

  lemma DeliverySetStep(ds: set<Delivery>, es: seq<ResponseEntry>)
    requires es != []
    ensures ds + DeliverySet(es) == ds + At(es[0].lsn, {es[0].offset}) + DeliverySet(es[1..])
  {
    assert es == [es[0]] + es[1..];
    assert At(es[0].lsn, {es[0].offset}) == {DeliveryOf(es[0])};
  }

  /** Any grouping that applies the same deliveries ends in the same state as entry by entry. */
  lemma GroupingIrrelevant(c: Core, d: Core, es: seq<ResponseEntry>)
    requires Inv(c) && After(c, d, DeliverySet(es))
    ensures d == AckAll(c, es)
  {
    AfterNothing(c);
    AckAllAfter(c, c, {}, es);
    assert {} + DeliverySet(es) == DeliverySet(es);
    AfterUnique(c, d, AckAll(c, es), DeliverySet(es));
  }
}
