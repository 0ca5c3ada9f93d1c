/** The watermark over numbered offsets with sub-offsets (offsettracker/offset_tracker.go), whose
    acknowledged prefix is thrown away from time to time. */
module OffsetTracker {

  /** What is tracked: anything that has an offset. */
  datatype Entry = Entry(offset: nat, data: int)

  datatype Item = Item(entry: Entry, subOffsets: set<nat>)

  datatype Probe = Probe(known: bool, acknowledged: bool)

  datatype State = State(acked: map<nat, bool>, entries: map<nat, Item>, offsets: seq<nat>, lastMaxAck: Entry,
      checkStart: nat)

  const DEFAULT := Entry(0, 0)

  function Init(): State
  {
    State(map[], map[], [], DEFAULT, 0)
  }

  // ---- the operations

  /** Appending to a sorted slice and sorting it. */
  function InsertSorted(s: seq<nat>, x: nat): (r: seq<nat>)
    ensures |r| == |s| + 1
  {
    if s == [] || x < s[0] then [x] + s else [s[0]] + InsertSorted(s[1..], x)
  }

  predicate Ignored(last: Entry, off: nat)
  {
    off < last.offset
  }

  /** `AddWithSubOffsets` */
  function Added(c: State, e: Entry, subs: set<nat>): State
  {
    if Ignored(c.lastMaxAck, e.offset) || e.offset in c.acked then c
    else c.(acked := c.acked[e.offset := false], entries := c.entries[e.offset := Item(e, subs)],
            offsets := InsertSorted(c.offsets, e.offset))
  }

  predicate IsAcked(acked: map<nat, bool>, off: nat)
  {
    off in acked && acked[off]
  }

  function Acknowledge(c: State, off: nat, subs: set<nat>): State
  {
    if IsAcked(c.acked, off) || off !in c.entries then c else
    var left := c.entries[off].subOffsets - subs;
    c.(entries := c.entries[off := c.entries[off].(subOffsets := left)],
       acked := if left == {} then c.acked[off := true] else c.acked)
  }

  /** Index of the first offset from `i` on that is not acknowledged. */
  function Scan(acked: map<nat, bool>, offsets: seq<nat>, i: nat): (n: nat)
    requires i <= |offsets|
    ensures i <= n <= |offsets|
    ensures forall j :: i <= j < n ==> IsAcked(acked, offsets[j])
    ensures n < |offsets| ==> !IsAcked(acked, offsets[n])
    decreases |offsets| - i
  {
    if i == |offsets| || !IsAcked(acked, offsets[i]) then i else Scan(acked, offsets, i + 1)
  }

  function Members(s: seq<nat>): set<nat>
  {
    set x <- s
  }

  /** `MaxAcknowledged` for any value of the clean-up threshold. */
  function Advanced(c: State, threshold: int): State
    requires c.checkStart <= |c.offsets|
  {
    var n := Scan(c.acked, c.offsets, c.checkStart);
    if n == c.checkStart || c.offsets[n - 1] == 0 || c.offsets[n - 1] !in c.entries then c else
    var last := c.entries[c.offsets[n - 1]].entry;
    if n >= threshold then Compacted(c, n, last) else c.(lastMaxAck := last, checkStart := n)
  }

  /** The first `n` offsets thrown away. */
  function Compacted(c: State, n: nat, last: Entry): State
    requires n <= |c.offsets|
  {
    State(c.acked - Members(c.offsets[..n]), c.entries - Members(c.offsets[..n]), c.offsets[n..], last, 0)
  }

  // ---- the reference: nothing is ever thrown away

  datatype Tracked = Tracked(item: Item, acked: bool)
  datatype Ref = Ref(tracked: map<nat, Tracked>, last: Entry)

  function RefAdd(r: Ref, e: Entry, subs: set<nat>): Ref
  {
    if Ignored(r.last, e.offset) || e.offset in r.tracked then r
    else r.(tracked := r.tracked[e.offset := Tracked(Item(e, subs), false)])
  }

  function RefAcknowledge(r: Ref, off: nat, subs: set<nat>): Ref
  {
    if off !in r.tracked || r.tracked[off].acked then r else
    var left := r.tracked[off].item.subOffsets - subs;
    r.(tracked := r.tracked[off := Tracked(r.tracked[off].item.(subOffsets := left), left == {})])
  }

  /** All tracked offsets up to `o` are acknowledged. */
  ghost predicate Complete(tracked: map<nat, Tracked>, o: nat)
  {
    o in tracked && forall k <- tracked :: k <= o ==> tracked[k].acked
  }

  /** The largest tracked offset up to which everything is acknowledged. */
  ghost predicate Watermark(tracked: map<nat, Tracked>, o: nat)
  {
    Complete(tracked, o) && forall k: nat :: Complete(tracked, k) ==> k <= o
  }

  /** What `MaxAcknowledged` promises; offset 0 counts as nothing. */
  ghost predicate Answer(r: Ref, e: Entry)
  {
    || (exists o: nat :: o > 0 && Watermark(r.tracked, o) && e == r.tracked[o].item.entry)
    || ((forall o: nat :: Complete(r.tracked, o) ==> o == 0) && e == r.last)
  }

  // ---- compaction is invisible

  ghost predicate Sorted(s: seq<nat>)
  {
    forall i, j :: 0 <= i < j < |s| ==> s[i] < s[j]
  }

  /** The offsets that have been looked at are acknowledged and end with the watermark. */
  ghost predicate Checked(acked: map<nat, bool>, offsets: seq<nat>, start: nat, last: nat)
  {
    && start <= |offsets|
    && (forall i :: 0 <= i < start ==> IsAcked(acked, offsets[i]))
    && (forall i :: start <= i < |offsets| ==> offsets[i] >= last)
    && (start > 0 ==> offsets[start - 1] == last)
  }

  ghost predicate Consistent(c: State)
  {
    && Sorted(c.offsets)
    && c.acked.Keys == c.entries.Keys == Members(c.offsets)
    && Checked(c.acked, c.offsets, c.checkStart, c.lastMaxAck.offset)
  }

  ghost predicate BelowAll(k: nat, offsets: seq<nat>)
  {
    forall o <- offsets :: k < o
  }

  /** One tracked offset: both know the same, or it was thrown away after it had been acknowledged. */
  ghost predicate Agree(acked: map<nat, bool>, entries: map<nat, Item>, offsets: seq<nat>,
                        tracked: map<nat, Tracked>, last: nat, k: nat)
  {
    if k in entries && k in acked then k in tracked && tracked[k] == Tracked(entries[k], acked[k])
    else k in tracked ==> tracked[k].acked && k <= last && BelowAll(k, offsets)
  }

  ghost predicate RefOk(r: Ref)
  {
    && (forall k <- r.tracked :: r.tracked[k].item.entry.offset == k)
    && (r.last.offset > 0 ==> Complete(r.tracked, r.last.offset) && r.tracked[r.last.offset].item.entry == r.last)
  }

  ghost predicate Simulates(c: State, r: Ref)
  {
    && Consistent(c) && RefOk(r) && c.lastMaxAck == r.last
    && (forall k: nat {:trigger Agrees(c, r, k)} :: Agrees(c, r, k))
  }

  ghost predicate Agrees(c: State, r: Ref, k: nat)
  {
    Agree(c.acked, c.entries, c.offsets, r.tracked, r.last.offset, k)
  }

  /** The offset returned last has been thrown away and is added again. */
  predicate Readded(c: State, r: Ref, off: nat)
  {
    off == c.lastMaxAck.offset && off in r.tracked && off !in c.acked
  }

  lemma AcknowledgeSimulates(c: State, r: Ref, off: nat, subs: set<nat>)
    requires Simulates(c, r)
    ensures Simulates(Acknowledge(c, off, subs), RefAcknowledge(r, off, subs))
  {
    var c', r' := Acknowledge(c, off, subs), RefAcknowledge(r, off, subs);
    AcknowledgeConsistent(c, off, subs);
    RefAcknowledgeOk(r, off, subs);
    forall k: nat ensures Agrees(c', r', k) {
      AcknowledgeAgrees(c, r, off, subs, k);
    }
  }

  lemma AcknowledgeConsistent(c: State, off: nat, subs: set<nat>)
    requires Consistent(c)
    ensures Consistent(Acknowledge(c, off, subs))
  {
    var c' := Acknowledge(c, off, subs);
    if off in c.entries {
      assert c'.acked.Keys == c.acked.Keys && c'.entries.Keys == c.entries.Keys;
    }
  }

  lemma RefAcknowledgeOk(r: Ref, off: nat, subs: set<nat>)
    requires RefOk(r)
    ensures RefOk(RefAcknowledge(r, off, subs))
  {
  }

  lemma AcknowledgeAgrees(c: State, r: Ref, off: nat, subs: set<nat>, k: nat)
    requires c.acked.Keys == c.entries.Keys && Agrees(c, r, k) && Agrees(c, r, off)
    ensures Agrees(Acknowledge(c, off, subs), RefAcknowledge(r, off, subs), k)
  {
  }

  lemma {:induction false} InsertedSorted(s: seq<nat>, x: nat)
    requires Sorted(s) && x !in s
    ensures Sorted(InsertSorted(s, x))
    ensures forall y :: y in InsertSorted(s, x) <==> y in s || y == x
  {
    if s != [] && x > s[0] {
      assert forall i :: 0 <= i < |s| - 1 ==> s[1..][i] == s[i + 1];
      InsertedSorted(s[1..], x);
      var t := InsertSorted(s[1..], x);
      forall i | 0 <= i < |t| ensures s[0] < t[i] { assert t[i] in t; }
      forall y ensures y in InsertSorted(s, x) <==> y in s || y == x {
        assert y in s <==> y == s[0] || y in s[1..];
      }
    } else if s != [] {
      assert x != s[0];
    }
  }

  /** Insertion above a prefix leaves the prefix alone. */
  lemma {:induction false} InsertedAfter(s: seq<nat>, x: nat, n: nat)
    requires n <= |s| && forall i :: 0 <= i < n ==> s[i] < x
    ensures InsertSorted(s, x)[..n] == s[..n]
  {
    if n > 0 {
      assert forall i :: 0 <= i < |s| - 1 ==> s[1..][i] == s[i + 1];
      InsertedAfter(s[1..], x, n - 1);
      assert InsertSorted(s, x)[..n] == [s[0]] + InsertSorted(s[1..], x)[..n - 1];
    }
  }

  /** Adding an offset keeps the two together unless it brings back the watermark itself. */
  lemma AddSimulatesExactly(c: State, r: Ref, e: Entry, subs: set<nat>)
    requires Simulates(c, r)
    ensures Simulates(Added(c, e, subs), RefAdd(r, e, subs)) <==> !Readded(c, r, e.offset)
  {
    var c', r' := Added(c, e, subs), RefAdd(r, e, subs);
    assert Agrees(c, r, e.offset);
    if Readded(c, r, e.offset) {
      assert !Agrees(c', r', e.offset);
    } else if !Ignored(c.lastMaxAck, e.offset) && e.offset !in c.acked {
      assert e.offset !in r.tracked;
      AddConsistent(c, e, subs);
      RefAddOk(r, e, subs);
      forall k: nat ensures Agrees(c', r', k) {
        assert Agrees(c, r, k);
        AddAgrees(c, r, e, subs, k);
      }
    }
  }

  lemma AddConsistent(c: State, e: Entry, subs: set<nat>)
    requires Consistent(c) && !Ignored(c.lastMaxAck, e.offset) && e.offset !in c.acked
    ensures Consistent(Added(c, e, subs))
    ensures forall y :: y in InsertSorted(c.offsets, e.offset) <==> y in c.offsets || y == e.offset
  {
    var c', x := Added(c, e, subs), e.offset;
    assert x !in c.offsets by { assert x in c.offsets ==> x in Members(c.offsets); }
    InsertedSorted(c.offsets, x);
    MembersMore(c.offsets, x);
    TailAbove(c, x);
  }

  lemma MembersMore(s: seq<nat>, x: nat)
    requires forall y :: y in InsertSorted(s, x) <==> y in s || y == x
    ensures Members(InsertSorted(s, x)) == Members(s) + {x}
  {
  }

  lemma RefAddOk(r: Ref, e: Entry, subs: set<nat>)
    requires RefOk(r)
    ensures RefOk(RefAdd(r, e, subs))
  {
  }

  lemma PrefixBelow(c: State, x: nat)
    requires Consistent(c) && x >= c.lastMaxAck.offset && x !in c.offsets
    ensures forall i :: 0 <= i < c.checkStart ==> c.offsets[i] < x
  {
    forall i | 0 <= i < c.checkStart ensures c.offsets[i] < x {
      assert c.offsets[c.checkStart - 1] in c.offsets;
      assert i < c.checkStart - 1 ==> c.offsets[i] < c.offsets[c.checkStart - 1];
    }
  }

  lemma TailAbove(c: State, x: nat)
    requires Consistent(c) && x >= c.lastMaxAck.offset && x !in c.offsets
    ensures Checked(c.acked[x := false], InsertSorted(c.offsets, x), c.checkStart, c.lastMaxAck.offset)
  {
    var t, n := InsertSorted(c.offsets, x), c.checkStart;
    InsertedSorted(c.offsets, x);
    PrefixBelow(c, x);
    InsertedAfter(c.offsets, x, n);
    forall i | 0 <= i < n ensures IsAcked(c.acked[x := false], t[i]) && t[i] == c.offsets[i] {
      assert t[..n][i] == c.offsets[..n][i];
    }
    forall i | n <= i < |t| ensures t[i] >= c.lastMaxAck.offset {
      assert t[i] in t;
      if t[i] != x {
        var j :| 0 <= j < |c.offsets| && c.offsets[j] == t[i];
      }
    }
  }

  lemma AddAgrees(c: State, r: Ref, e: Entry, subs: set<nat>, k: nat)
    requires Agrees(c, r, k) && c.lastMaxAck == r.last && e.offset !in c.acked && e.offset !in r.tracked
    requires !Ignored(c.lastMaxAck, e.offset)
    requires forall y :: y in InsertSorted(c.offsets, e.offset) <==> y in c.offsets || y == e.offset
    ensures Agrees(Added(c, e, subs), RefAdd(r, e, subs), k)
  {
  }

  /** A tracked offset is complete exactly when the scan of the remaining offsets passes it. */
  lemma CompleteAt(c: State, r: Ref, n: nat, k: nat)
    requires Simulates(c, r) && n == Scan(c.acked, c.offsets, c.checkStart) && k in r.tracked
    ensures Complete(r.tracked, k) <==> k !in c.acked || k in c.offsets[..n]
  {
    assert Agrees(c, r, k);
    if k !in c.acked {
      forall x | x in r.tracked && x <= k ensures r.tracked[x].acked {
        assert Agrees(c, r, x);
        assert x in Members(c.offsets) <==> x in c.acked;
      }
    } else {
      assert k in Members(c.offsets);
      var i :| 0 <= i < |c.offsets| && c.offsets[i] == k;
      if i < n {
        assert c.offsets[..n][i] == k;
        forall x | x in r.tracked && x <= k ensures r.tracked[x].acked {
          AckedUpTo(c, r, n, i, x);
        }
      } else {
        assert Agrees(c, r, c.offsets[n]) && c.offsets[n] in Members(c.offsets) && c.offsets[n] <= k;
        assert k !in c.offsets[..n];
      }
    }
  }

  lemma AckedUpTo(c: State, r: Ref, n: nat, i: nat, x: nat)
    requires Simulates(c, r) && n == Scan(c.acked, c.offsets, c.checkStart)
    requires i < n && x in r.tracked && x <= c.offsets[i]
    ensures r.tracked[x].acked
  {
    assert Agrees(c, r, x);
    if x in c.acked {
      assert x in Members(c.offsets);
      var j :| 0 <= j < |c.offsets| && c.offsets[j] == x;
      assert j <= i;
      assert IsAcked(c.acked, c.offsets[j]);
    }
  }

  /** For every threshold the answer is that of the reference. */
  lemma MaxSimulates(c: State, r: Ref, threshold: int)
    requires Simulates(c, r)
    ensures var c' := Advanced(c, threshold);
      && Answer(r, c'.lastMaxAck) && c'.lastMaxAck.offset >= c.lastMaxAck.offset
      && Simulates(c', r.(last := c'.lastMaxAck))
  {
    var n := Scan(c.acked, c.offsets, c.checkStart);
    if n == c.checkStart || c.offsets[n - 1] == 0 {
      MaxUnchanged(c, r, n);
      assert Advanced(c, threshold) == c && r.(last := c.lastMaxAck) == r;
    } else {
      var e := MaxMoves(c, r, n);
      MarkedSimulates(c, r, n, e);
      CompactedSimulates(c, r, n, e);
    }
  }

  lemma MaxUnchanged(c: State, r: Ref, n: nat)
    requires Simulates(c, r) && n == Scan(c.acked, c.offsets, c.checkStart)
    requires n == c.checkStart || c.offsets[n - 1] == 0
    ensures Answer(r, r.last)
  {
    forall k: nat | Complete(r.tracked, k) ensures k <= r.last.offset {
      CompleteAt(c, r, n, k);
      assert Agrees(c, r, k);
      if k in c.acked {
        var i :| 0 <= i < n && c.offsets[..n][i] == k;
        assert c.offsets[i] <= c.offsets[n - 1];
      }
    }
    if r.last.offset > 0 {
      assert Watermark(r.tracked, r.last.offset);
    }
  }

  /** The entry the scan ends with is the answer. */
  lemma MaxMoves(c: State, r: Ref, n: nat) returns (e: Entry)
    requires Simulates(c, r) && n == Scan(c.acked, c.offsets, c.checkStart)
    requires c.checkStart < n && c.offsets[n - 1] > 0
    ensures Moves(c, r, n, e) && Answer(r, e)
  {
    var w := c.offsets[n - 1];
    assert w in Members(c.offsets) && Agrees(c, r, w);
    assert c.offsets[..n][n - 1] == w;
    CompleteAt(c, r, n, w);
    forall k: nat | Complete(r.tracked, k) ensures k <= w {
      CompleteAt(c, r, n, k);
      assert Agrees(c, r, k);
      if k in c.acked {
        var i :| 0 <= i < n && c.offsets[..n][i] == k;
        assert c.offsets[i] <= w;
      } else {
        assert w in c.offsets;
      }
    }
    assert Watermark(r.tracked, w);
    e := c.entries[w].entry;
  }

  ghost predicate Moves(c: State, r: Ref, n: nat, e: Entry)
  {
    && 0 < n <= |c.offsets| && e.offset == c.offsets[n - 1] >= r.last.offset
    && e.offset in c.entries && c.entries[e.offset].entry == e
    && Complete(r.tracked, e.offset) && r.tracked[e.offset].item.entry == e
  }

  lemma MarkedSimulates(c: State, r: Ref, n: nat, e: Entry)
    requires Simulates(c, r) && n == Scan(c.acked, c.offsets, c.checkStart) && c.checkStart < n && Moves(c, r, n, e)
    ensures Simulates(c.(lastMaxAck := e, checkStart := n), r.(last := e))
  {
    var c', r' := c.(lastMaxAck := e, checkStart := n), r.(last := e);
    MarkedConsistent(c, n, e);
    RefMoved(r, e);
    forall k: nat ensures Agrees(c', r', k) {
      AgreesAfter(c, r, n, k);
    }
  }

  lemma CompactedSimulates(c: State, r: Ref, n: nat, e: Entry)
    requires Simulates(c, r) && n == Scan(c.acked, c.offsets, c.checkStart) && c.checkStart < n && Moves(c, r, n, e)
    ensures Simulates(Compacted(c, n, e), r.(last := e))
  {
    var c', r' := Compacted(c, n, e), r.(last := e);
    CompactedConsistent(c, n, e);
    RefMoved(r, e);
    forall k: nat ensures Agrees(c', r', k) {
      AgreesAfter(c, r, n, k);
    }
  }

  lemma RefMoved(r: Ref, e: Entry)
    requires RefOk(r) && Complete(r.tracked, e.offset) && r.tracked[e.offset].item.entry == e
    ensures RefOk(r.(last := e))
  {
  }

  lemma AgreesAfter(c: State, r: Ref, n: nat, k: nat)
    requires Simulates(c, r) && n == Scan(c.acked, c.offsets, c.checkStart)
    requires c.checkStart < n && c.offsets[n - 1] >= r.last.offset
    ensures Agree(c.acked, c.entries, c.offsets, r.tracked, c.offsets[n - 1], k)
    ensures Agree(c.acked - Members(c.offsets[..n]), c.entries - Members(c.offsets[..n]), c.offsets[n..], r.tracked,
        c.offsets[n - 1], k)
  {
    assert Agrees(c, r, k);
    SplitSorted(c.offsets, n);
    DropAgrees(c.acked, c.entries, c.offsets, r.tracked, r.last.offset, n, k);
  }

  lemma MarkedConsistent(c: State, n: nat, e: Entry)
    requires Consistent(c) && n == Scan(c.acked, c.offsets, c.checkStart)
    requires c.checkStart < n && e.offset == c.offsets[n - 1]
    ensures Consistent(c.(lastMaxAck := e, checkStart := n))
  {
    SplitSorted(c.offsets, n);
    forall i | 0 <= i < n ensures IsAcked(c.acked, c.offsets[i]) {}
  }

  lemma CompactedConsistent(c: State, n: nat, e: Entry)
    requires Consistent(c) && 0 < n <= |c.offsets| && e.offset == c.offsets[n - 1]
    ensures Consistent(Compacted(c, n, e))
  {
    SplitSorted(c.offsets, n);
    assert (c.acked - Members(c.offsets[..n])).Keys == Members(c.offsets[n..]);
    assert (c.entries - Members(c.offsets[..n])).Keys == Members(c.offsets[n..]);
  }

  lemma SplitSorted(s: seq<nat>, n: nat)
    requires Sorted(s) && 0 < n <= |s|
    ensures Sorted(s[n..]) && Members(s) - Members(s[..n]) == Members(s[n..])
    ensures forall i :: n <= i < |s| ==> s[i] > s[n - 1]
    ensures forall x <- s[n..] :: x > s[n - 1]
    ensures forall x <- s[..n] :: x <= s[n - 1]
  {
    assert s == s[..n] + s[n..];
  }

  lemma DropAgrees(acked: map<nat, bool>, entries: map<nat, Item>, offsets: seq<nat>,
                   tracked: map<nat, Tracked>, last: nat, n: nat, k: nat)
    requires Agree(acked, entries, offsets, tracked, last, k) && 0 < n <= |offsets| && offsets[n - 1] >= last
    requires forall i :: 0 <= i < n ==> IsAcked(acked, offsets[i])
    requires forall x <- offsets[n..] :: x > offsets[n - 1]
    requires forall x <- offsets[..n] :: x <= offsets[n - 1]
    ensures Agree(acked, entries, offsets, tracked, offsets[n - 1], k)
    ensures Agree(acked - Members(offsets[..n]), entries - Members(offsets[..n]), offsets[n..], tracked,
        offsets[n - 1], k)
  {
    if k in offsets[..n] {
      var i :| 0 <= i < n && offsets[..n][i] == k;
      assert IsAcked(acked, offsets[i]);
    }
    assert forall x <- offsets[n..] :: x in offsets;
  }

  lemma AnswerUnique(r: Ref, a: Entry, b: Entry)
    requires Answer(r, a) && Answer(r, b)
    ensures a == b
  {
  }

  // ---- runs

  datatype Op = Add(e: Entry, subs: set<nat>) | Ack(off: nat, acked: set<nat>) | Max(threshold: int)

  function Step(c: State, op: Op): State
    requires c.checkStart <= |c.offsets|
  {
    match op
    case Add(e, subs) => Added(c, e, subs)
    case Ack(off, subs) => Acknowledge(c, off, subs)
    case Max(threshold) => Advanced(c, threshold)
  }

  /** The reference moves along; only its answers are taken from the run. */
  function RefStep(r: Ref, op: Op, last: Entry): Ref
  {
    match op
    case Add(e, subs) => RefAdd(r, e, subs)
    case Ack(off, subs) => RefAcknowledge(r, off, subs)
    case Max(_) => r.(last := last)
  }

  /** The offset that was returned last is not added again. */
  predicate AllowedOp(r: Ref, op: Op)
  {
    op.Add? ==> !(op.e.offset == r.last.offset && op.e.offset in r.tracked)
  }

  ghost predicate Allowed(c: State, r: Ref, ops: seq<Op>)
    requires c.checkStart <= |c.offsets|
    decreases |ops|
  {
    ops == [] ||
    var c' := Step(c, ops[0]);
    AllowedOp(r, ops[0]) && c'.checkStart <= |c'.offsets| && Allowed(c', RefStep(r, ops[0], c'.lastMaxAck), ops[1..])
  }

  ghost predicate InRange(c: State)
  {
    c.checkStart <= |c.offsets|
  }

  /** What the calls of `MaxAcknowledged` return. */
  ghost function Answers(c: State, ops: seq<Op>): seq<Entry>
    requires InRange(c)
    decreases |ops|
  {
    if ops == [] then [] else
    var c' := Step(c, ops[0]);
    var rest := if InRange(c') then Answers(c', ops[1..]) else [];
    if ops[0].Max? then [c'.lastMaxAck] + rest else rest
  }

  /** The same calls, with the clean-up at different times. */
  ghost predicate SameCalls(a: seq<Op>, b: seq<Op>)
  {
    |a| == |b| && forall i :: 0 <= i < |a| ==> a[i] == b[i] || (a[i].Max? && b[i].Max?)
  }

  lemma StepSimulates(c: State, r: Ref, op: Op)
    requires Simulates(c, r) && AllowedOp(r, op)
    ensures Simulates(Step(c, op), RefStep(r, op, Step(c, op).lastMaxAck))
    ensures op.Max? ==> Answer(r, Step(c, op).lastMaxAck)
    ensures Step(c, op).lastMaxAck.offset >= c.lastMaxAck.offset
  {
    match op
    case Add(e, subs) => AddSimulatesExactly(c, r, e, subs);
    case Ack(off, subs) => AcknowledgeSimulates(c, r, off, subs);
    case Max(threshold) => MaxSimulates(c, r, threshold);
  }

  /** Compaction is invisible: whenever it happens, the same calls return the same answers. */
  lemma {:induction false} CompactionInvisible(c1: State, c2: State, r: Ref, a: seq<Op>, b: seq<Op>)
    requires Simulates(c1, r) && Simulates(c2, r) && SameCalls(a, b) && Allowed(c1, r, a)
    ensures Answers(c1, a) == Answers(c2, b)
    decreases |a|
  {
    if a != [] {
      assert a[0] == b[0] || (a[0].Max? && b[0].Max?);
      StepSimulates(c1, r, a[0]);
      StepSimulates(c2, r, b[0]);
      var d1, d2 := Step(c1, a[0]), Step(c2, b[0]);
      if a[0].Max? {
        AnswerUnique(r, d1.lastMaxAck, d2.lastMaxAck);
      }
      CompactionInvisible(d1, d2, RefStep(r, a[0], d1.lastMaxAck), a[1..], b[1..]);
    }
  }

  /** Each answer is at least the one before, the first at least `from`. */
  ghost predicate Rising(es: seq<Entry>, from: nat)
  {
    es == [] || (es[0].offset >= from && Rising(es[1..], es[0].offset))
  }

  lemma RisingFrom(es: seq<Entry>, from: nat, lower: nat)
    requires Rising(es, from) && lower <= from
    ensures Rising(es, lower)
  {
  }

  /** What a tracker knows of its own offsets, whatever calls were made. */
  ghost predicate Sound(c: State)
  {
    Consistent(c) && forall k <- c.entries :: c.entries[k].entry.offset == k
  }

  lemma StepSound(c: State, op: Op)
    requires Sound(c)
    ensures Sound(Step(c, op)) && Step(c, op).lastMaxAck.offset >= c.lastMaxAck.offset
  {
    match op
    case Add(e, subs) =>
      if !Ignored(c.lastMaxAck, e.offset) && e.offset !in c.acked { AddConsistent(c, e, subs); }
    case Ack(off, subs) => AcknowledgeConsistent(c, off, subs);
    case Max(threshold) => AdvancedSound(c, threshold);
  }

  lemma AdvancedSound(c: State, threshold: int)
    requires Sound(c)
    ensures Sound(Advanced(c, threshold)) && Advanced(c, threshold).lastMaxAck.offset >= c.lastMaxAck.offset
  {
    var n := Scan(c.acked, c.offsets, c.checkStart);
    if n > c.checkStart && c.offsets[n - 1] in c.entries {
      var e := c.entries[c.offsets[n - 1]].entry;
      MarkedConsistent(c, n, e);
      CompactedConsistent(c, n, e);
    }
  }

  /** Answers never decrease, also when a watermark is added again. */
  lemma {:induction false} AnswersNeverDecrease(c: State, ops: seq<Op>)
    requires Sound(c)
    ensures Rising(Answers(c, ops), c.lastMaxAck.offset)
    decreases |ops|
  {
    if ops != [] {
      StepSound(c, ops[0]);
      var d := Step(c, ops[0]);
      AnswersNeverDecrease(d, ops[1..]);
      var rest := Answers(d, ops[1..]);
      if ops[0].Max? {
        assert ([d.lastMaxAck] + rest)[1..] == rest;
      } else {
        RisingFrom(rest, d.lastMaxAck.offset, c.lastMaxAck.offset);
      }
    }
  }

  lemma InitSimulates()
    ensures Simulates(Init(), Ref(map[], DEFAULT)) && Sound(Init())
  {
    forall k: nat ensures Agrees(Init(), Ref(map[], DEFAULT), k) {}
  }

  /** From the start on: whatever calls are made, compaction does not show as long as no thrown-away
      watermark is added again, and answers never decrease. */
  lemma FromTheStart(a: seq<Op>, b: seq<Op>)
    requires SameCalls(a, b)
    ensures Rising(Answers(Init(), a), 0)
    ensures Allowed(Init(), Ref(map[], DEFAULT), a) ==> Answers(Init(), a) == Answers(Init(), b)
  {
    InitSimulates();
    AnswersNeverDecrease(Init(), a);
    if Allowed(Init(), Ref(map[], DEFAULT), a) {
      CompactionInvisible(Init(), Init(), Ref(map[], DEFAULT), a, b);
    }
  }

  ghost predicate Thresholds(ops: seq<Op>, limit: int)
  {
    forall op <- ops :: op.Max? ==> op.threshold <= limit
  }

  ghost function After(c: State, ops: seq<Op>): State
    decreases |ops|
  {
    if ops == [] || c.checkStart > |c.offsets| then c else After(Step(c, ops[0]), ops[1..])
  }

  /** Memory is given back: over any calls with thresholds up to a limit, fewer acknowledged offsets than
      that are kept below the place where the next scan starts. */
  lemma {:induction false} FewKept(ops: seq<Op>, c: State, limit: int)
    requires Thresholds(ops, limit) && limit > 0 && c.checkStart < limit
    ensures After(c, ops).checkStart < limit
    decreases |ops|
  {
    if ops != [] && c.checkStart <= |c.offsets| {
      assert ops[0] in ops && forall op <- ops[1..] :: op in ops;
      FewKept(ops[1..], Step(c, ops[0]), limit);
    }
  }

  // ---- the object

  class Tracker {
    var acked: map<nat, bool>
    var entries: map<nat, Item>
    var offsets: seq<nat>
    var lastMaxAck: Entry
    var ackCheckStart: nat

    ghost function View(): State
      reads this
    {
      State(acked, entries, offsets, lastMaxAck, ackCheckStart)
    }

    constructor ()
      ensures View() == Init()
    {
      acked, entries, offsets, lastMaxAck, ackCheckStart := map[], map[], [], DEFAULT, 0;
    }

    method AddWithSubOffsets(e: Entry, subs: set<nat>) returns (p: Probe)
      modifies this
      ensures View() == Added(old(View()), e, subs)
      ensures p == if e.offset < old(lastMaxAck).offset then Probe(false, true)
                   else if e.offset in old(acked) then Probe(true, old(acked)[e.offset]) else Probe(false, false)
    {
      if e.offset < lastMaxAck.offset {
        return Probe(false, true);
      }
      if e.offset in acked {
        return Probe(true, acked[e.offset]);
      }
      acked := acked[e.offset := false];
      entries := entries[e.offset := Item(e, subs)];
      offsets := InsertSorted(offsets, e.offset);
      p := Probe(false, false);
    }

    method AcknowledgeWithSubOffsets(off: nat, subs: seq<nat>) returns (full: bool)
      modifies this`acked, this`entries
      ensures View() == Acknowledge(old(View()), off, Members(subs))
      ensures full == IsAcked(acked, off)
    {
      if off in acked && acked[off] {
        return true;
      }
      if off !in entries {
        return false;
      }
      var left := entries[off].subOffsets;
      for i := 0 to |subs|
        invariant left == entries[off].subOffsets - Members(subs[..i])
      {
        assert subs[..i + 1] == subs[..i] + [subs[i]];
        left := left - {subs[i]};
      }
      assert subs[..|subs|] == subs;
      entries := entries[off := entries[off].(subOffsets := left)];
      full := left == {};
      if full {
        acked := acked[off := true];
      }
    }

    /** `threshold` is a quarter of the capacity of the slice. */
    method MaxAcknowledged(threshold: int) returns (e: Entry)
      requires InRange(View())
      modifies this
      ensures View() == Advanced(old(View()), threshold) && e == lastMaxAck
    {
      var i := ackCheckStart;
      var max := 0;
      var found := false;
      while i < |offsets| && offsets[i] in acked && acked[offsets[i]]
        invariant ackCheckStart <= i <= |offsets|
        invariant Scan(acked, offsets, i) == Scan(acked, offsets, ackCheckStart)
        invariant max == (if i > ackCheckStart then offsets[i - 1] else 0) && found == (i > ackCheckStart
            && max in entries)
      {
        max := offsets[i];
        found := max in entries;
        i := i + 1;
      }
      if max == 0 || !found {
        return lastMaxAck;
      }
      lastMaxAck := entries[max].entry;
      ackCheckStart := i;
      if i >= threshold {
        Clean(i);
      }
      e := lastMaxAck;
    }

    method Clean(n: nat)
      requires n <= |offsets|
      modifies this`acked, this`entries, this`offsets, this`ackCheckStart
      ensures acked == old(acked) - Members(old(offsets)[..n]) && entries == old(entries) - Members(old(offsets)[..n])
      ensures offsets == old(offsets)[n..] && ackCheckStart == 0
    {
      for j := 0 to n
        invariant offsets == old(offsets)
        invariant acked == old(acked) - Members(offsets[..j]) && entries == old(entries) - Members(offsets[..j])
      {
        assert offsets[..j + 1] == offsets[..j] + [offsets[j]];
        acked := acked - {offsets[j]};
        entries := entries - {offsets[j]};
      }
      offsets := offsets[n..];
      ackCheckStart := 0;
    }
  }
}
