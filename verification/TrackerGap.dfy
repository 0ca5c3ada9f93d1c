/** Acknowledging a tracked write takes its lock twice, once for `ack` and once for `release`, and pops
    and timers need only that lock. Whatever runs in between, the two together act as one section. */
module TrackerGap {
  import opened Wal
  import opened TrackerSpec
  import opened TrackerInvariant

  /** `entry.ack` */
  function AckOnly(c: Core, id: Id, offsets: set<Offset>): Core
    requires id in c.objs
  {
    c.(objs := c.objs[id := c.objs[id].(pending := c.objs[id].pending - offsets)])
  }

  /** `entry.release`, once nothing is pending, with its effect on the gauge. */
  function ReleaseOnly(c: Core, id: Id): Core
    requires id in c.objs
  {
    var t := c.objs[id];
    if t.pending != {} || t.released then c
    else c.(objs := c.objs[id := Release(t)], gauge := c.gauge - |t.queued|, freed := c.freed + multiset{id})
  }

  /** Sections of other goroutines that take only the lock of a tracked write. */
  datatype Section = Pop(id: Id) | Queue(id: Id, w: WriteRequest)

  function Do(c: Core, s: Section): Core
    requires s.id in c.objs
  {
    match s
    case Pop(id) => TakeQueued(c, id).0
    case Queue(id, w) => QueueWrite(c, id, w).0
  }

  function DoAll(c: Core, ss: seq<Section>): (r: Core)
    requires forall s <- ss :: s.id in c.objs
    ensures r.objs.Keys == c.objs.Keys
    decreases |ss|
  {
    if ss == [] then c else DoAll(Do(c, ss[0]), ss[1..])
  }

  /** Without the attempts to queue something of this write. */
  function Without(ss: seq<Section>, id: Id): (r: seq<Section>)
    ensures forall s <- r :: s in ss
  {
    if ss == [] then [] else
    var rest := Without(ss[1..], id);
    if ss[0].Queue? && ss[0].id == id then rest else [ss[0]] + rest
  }

  /** With nothing in between the two sections are the one of the model. */
  lemma TwoSections(c: Core, id: Id, offsets: set<Offset>)
    requires Inv(c) && id in c.objs
    ensures ReleaseOnly(AckOnly(c, id, offsets), id) == AckId(c, id, offsets)
  {
    assert Ok(c, id);
    var t := c.objs[id];
    if t.pending <= offsets {
      assert t.pending - offsets == {};
      assert c.objs[id := t.(pending := {})][id := Release(t)] == c.objs[id := Release(t)];
    } else {
      var o :| o in t.pending && o !in offsets;
      assert o in t.pending - offsets;
    }
  }

  /** A pop in the gap is a pop before it, with the same write; queueing for another write too. */
  lemma DoCommutes(c: Core, id: Id, offsets: set<Offset>, s: Section)
    requires id in c.objs && s.id in c.objs && (s.Queue? ==> s.id != id)
    ensures Do(AckOnly(c, id, offsets), s) == AckOnly(Do(c, s), id, offsets)
    ensures s.Pop? ==> TakeQueued(AckOnly(c, id, offsets), s.id).1 == TakeQueued(c, s.id).1
  {
    var d := AckOnly(c, id, offsets);
    assert Do(d, s).objs == AckOnly(Do(c, s), id, offsets).objs;
  }

  /** Nothing is queued for a write that has nothing pending. */
  lemma QueueRefused(c: Core, id: Id, offsets: set<Offset>, w: WriteRequest)
    requires id in c.objs && c.objs[id].pending <= offsets
    ensures Do(AckOnly(c, id, offsets), Queue(id, w)) == AckOnly(c, id, offsets)
  {
    assert c.objs[id].pending - offsets == {};
  }

  lemma DoKeeps(c: Core, s: Section)
    requires Inv(c) && s.id in c.objs && (s.Queue? ==> s.w.lsn == c.objs[s.id].point.lsn)
    ensures Inv(Do(c, s)) && Do(c, s).objs.Keys == c.objs.Keys
    ensures forall x <- c.objs ::
      Do(c, s).objs[x].pending == c.objs[x].pending && Do(c, s).objs[x].point == c.objs[x].point
  {
    match s
    case Pop(id) => TakeQueuedKeeps(c, id);
    case Queue(id, w) => QueueWriteKeeps(c, id, w);
  }

  ghost predicate OwnLsns(c: Core, ss: seq<Section>)
  {
    forall s <- ss :: s.id in c.objs && (s.Queue? ==> s.w.lsn == c.objs[s.id].point.lsn)
  }

  /** Whatever runs between the two sections of an acknowledgement that leaves nothing pending, the
      outcome is that of the same sections before the acknowledgement as a whole; only attempts to
      queue something of this write come to nothing. */
  lemma {:induction false} GapHarmless(c: Core, id: Id, offsets: set<Offset>, ss: seq<Section>)
    requires Inv(c) && id in c.objs && c.objs[id].pending <= offsets && OwnLsns(c, ss)
    ensures ReleaseOnly(DoAll(AckOnly(c, id, offsets), ss), id) == AckId(DoAll(c, Without(ss, id)), id, offsets)
    decreases |ss|
  {
    if ss == [] {
      TwoSections(c, id, offsets);
    } else if ss[0].Queue? && ss[0].id == id {
      QueueRefused(c, id, offsets, ss[0].w);
      GapHarmless(c, id, offsets, ss[1..]);
    } else {
      DoCommutes(c, id, offsets, ss[0]);
      DoKeeps(c, ss[0]);
      GapHarmless(Do(c, ss[0]), id, offsets, ss[1..]);
      assert ([ss[0]] + Without(ss[1..], id))[1..] == Without(ss[1..], id);
    }
  }
}
