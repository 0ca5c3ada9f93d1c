/** When the compaction of the offset tracker shows: exactly after its watermark was thrown away and
    is added again. */
module OffsetCompaction {
  import opened OffsetTracker

  ghost predicate NoAckOf(ops: seq<Op>, x: nat)
  {
    forall op <- ops :: op.Ack? ==> op.off != x
  }

  /** The offset returned last is tracked again, unacknowledged and before all others. */
  ghost predicate Blocked(c: State, x: nat)
  {
    && c.checkStart == 0 && c.offsets != [] && c.offsets[0] == x == c.lastMaxAck.offset
    && x in c.acked && !c.acked[x]
  }

  lemma BlockedStep(c: State, x: nat, op: Op)
    requires Blocked(c, x) && (op.Ack? ==> op.off != x)
    ensures Blocked(Step(c, op), x) && Step(c, op).lastMaxAck == c.lastMaxAck
  {
  }

  lemma {:induction false} HeldBack(c: State, x: nat, ops: seq<Op>)
    requires Blocked(c, x) && NoAckOf(ops, x)
    ensures forall e <- Answers(c, ops) :: e == c.lastMaxAck
    decreases |ops|
  {
    if ops != [] {
      BlockedStep(c, x, ops[0]);
      HeldBack(Step(c, ops[0]), x, ops[1..]);
    }
  }

  /** A watermark that was thrown away and is added again holds back every later offset: until it is
      acknowledged again, every call returns it, whatever is added and acknowledged. */
  lemma ReaddedHoldsBack(c: State, r: Ref, e: Entry, subs: set<nat>, ops: seq<Op>)
    requires Simulates(c, r) && Readded(c, r, e.offset) && NoAckOf(ops, e.offset)
    ensures InRange(Added(c, e, subs))
    ensures forall a <- Answers(Added(c, e, subs), ops) :: a == c.lastMaxAck
  {
    ReaddedBlocks(c, r, e, subs);
    HeldBack(Added(c, e, subs), e.offset, ops);
  }

  lemma ReaddedBlocks(c: State, r: Ref, e: Entry, subs: set<nat>)
    requires Simulates(c, r) && Readded(c, r, e.offset)
    ensures Blocked(Added(c, e, subs), e.offset) && Added(c, e, subs).lastMaxAck == c.lastMaxAck
  {
    assert Agrees(c, r, e.offset);
    assert forall i :: 0 <= i < |c.offsets| ==> c.offsets[i] in Members(c.offsets);
    assert InsertSorted(c.offsets, e.offset) == [e.offset] + c.offsets;
  }

  /** A continuation in which everything else is acknowledged and one more offset comes. */
  lemma {:induction false} AcksThen(c: State, r: Ref, offs: seq<nat>, tail: seq<Op>)
    returns (ops: seq<Op>, c': State, r': Ref)
    requires Simulates(c, r) && forall o <- offs :: o in r.tracked
    ensures Simulates(c', r') && r'.tracked.Keys == r.tracked.Keys && r'.last == r.last
    ensures forall k <- r.tracked :: r.tracked[k].acked || k in offs ==> r'.tracked[k].acked
    ensures Answers(c, ops) == Answers(c', tail) && (Allowed(c', r', tail) ==> Allowed(c, r, ops))
    ensures forall x :: x !in offs && NoAckOf(tail, x) ==> NoAckOf(ops, x)
    decreases |offs|
  {
    if offs == [] {
      ops, c', r' := tail, c, r;
    } else {
      var op, c1, r1 := AckFully(c, r, offs[0]);
      var rest;
      rest, c', r' := AcksThen(c1, r1, offs[1..], tail);
      ops := [op] + rest;
      AckFirst(c, r, op, rest);
      forall k | k in r.tracked && (r.tracked[k].acked || k in offs) ensures r'.tracked[k].acked {
        assert k == offs[0] || k in offs[1..] || r1.tracked[k].acked;
      }
    }
  }

  lemma AckFully(c: State, r: Ref, o: nat) returns (op: Op, c1: State, r1: Ref)
    requires Simulates(c, r) && o in r.tracked
    ensures op.Ack? && op.off == o && c1 == Step(c, op) && r1 == RefStep(r, op, c1.lastMaxAck)
    ensures Simulates(c1, r1) && r1.tracked.Keys == r.tracked.Keys && r1.last == r.last && r1.tracked[o].acked
    ensures forall k <- r.tracked :: r.tracked[k].acked ==> r1.tracked[k].acked
  {
    op := Ack(o, r.tracked[o].item.subOffsets);
    StepSimulates(c, r, op);
    c1 := Step(c, op);
    r1 := RefStep(r, op, c1.lastMaxAck);
  }

  lemma AckFirst(c: State, r: Ref, op: Op, rest: seq<Op>)
    requires InRange(c) && op.Ack? && InRange(Step(c, op))
    ensures Answers(c, [op] + rest) == Answers(Step(c, op), rest)
    ensures Allowed(Step(c, op), RefStep(r, op, Step(c, op).lastMaxAck), rest) ==> Allowed(c, r, [op] + rest)
  {
    assert ([op] + rest)[1..] == rest;
  }

  function Others(s: seq<nat>, x: nat): (r: seq<nat>)
    ensures forall y :: y in r <==> y in s && y != x
  {
    if s == [] then [] else
    var rest := Others(s[1..], x);
    assert forall y :: y in s <==> y == s[0] || y in s[1..];
    if s[0] == x then rest else [s[0]] + rest
  }

  /** `y` is new and above everything else, which is acknowledged: it becomes the answer. */
  lemma NewestAnswered(c: State, r: Ref, y: nat) returns (tail: seq<Op>)
    requires Simulates(c, r) && y > 0 && y >= r.last.offset
    requires forall k <- r.tracked :: r.tracked[k].acked && k < y
    ensures tail == Newest(y) && Answers(c, tail) == [Entry(y, 0)] && Allowed(c, r, tail)
  {
    tail := Newest(y);
    var c1 := Step(c, tail[0]);
    var r1 := RefStep(r, tail[0], c1.lastMaxAck);
    StepSimulates(c, r, tail[0]);
    var c2 := Step(c1, tail[1]);
    var r2 := RefStep(r1, tail[1], c2.lastMaxAck);
    StepSimulates(c1, r1, tail[1]);
    var c3 := Step(c2, tail[2]);
    StepSimulates(c2, r2, tail[2]);
    RefNewest(r, y);
    AnswerUnique(r2, c3.lastMaxAck, Entry(y, 0));
    AnswersThree(c, tail, c1, c2, c3);
    AllowedThree(c, r, tail, r1, r2);
  }

  lemma RefNewest(r: Ref, y: nat)
    requires y > 0 && y >= r.last.offset && forall k <- r.tracked :: r.tracked[k].acked && k < y
    ensures Answer(RefAcknowledge(RefAdd(r, Entry(y, 0), {}), y, {}), Entry(y, 0))
  {
    var r2 := RefAcknowledge(RefAdd(r, Entry(y, 0), {}), y, {});
    assert Complete(r2.tracked, y);
    assert Watermark(r2.tracked, y);
  }

  function Newest(y: nat): seq<Op>
  {
    [Add(Entry(y, 0), {}), Ack(y, {}), Max(0)]
  }

  lemma AnswersThree(c: State, ops: seq<Op>, c1: State, c2: State, c3: State)
    requires InRange(c) && InRange(c1) && InRange(c2) && InRange(c3)
    requires |ops| == 3 && !ops[0].Max? && !ops[1].Max? && ops[2].Max?
    requires Step(c, ops[0]) == c1 && Step(c1, ops[1]) == c2 && Step(c2, ops[2]) == c3
    ensures Answers(c, ops) == [c3.lastMaxAck]
  {
    assert ops[1..] == [ops[1], ops[2]] && ops[1..][1..] == [ops[2]] && [ops[2]][1..] == [];
    assert Answers(c3, []) == [] && Answers(c2, [ops[2]]) == [c3.lastMaxAck];
    assert Answers(c1, ops[1..]) == [c3.lastMaxAck];
  }

  lemma AllowedThree(c: State, r: Ref, ops: seq<Op>, r1: Ref, r2: Ref)
    requires InRange(c) && |ops| == 3 && !ops[1].Add? && !ops[2].Add? && AllowedOp(r, ops[0])
    requires InRange(Step(c, ops[0])) && InRange(Step(Step(c, ops[0]), ops[1]))
        && InRange(Step(Step(Step(c, ops[0]), ops[1]), ops[2]))
    requires r1 == RefStep(r, ops[0], Step(c, ops[0]).lastMaxAck)
    requires r2 == RefStep(r1, ops[1], Step(Step(c, ops[0]), ops[1]).lastMaxAck)
    ensures Allowed(c, r, ops)
  {
    var c1 := Step(c, ops[0]);
    var c2 := Step(c1, ops[1]);
    assert ops[1..] == [ops[1], ops[2]] && ops[1..][1..] == [ops[2]] && [ops[2]][1..] == [];
    assert Allowed(c2, r2, [ops[2]]);
    assert Allowed(c1, r1, ops[1..]);
  }

  /** The same later calls, none of which adds the watermark again, return different answers. */
  ghost predicate TellsApart(c1: State, c2: State, r: Ref, ops: seq<Op>)
  {
    InRange(c1) && InRange(c2) && Allowed(c2, r, ops) && Answers(c1, ops) != Answers(c2, ops)
  }

  /** Two trackers with the same history, of which the second still knows its watermark. After an
      offset is added to both, some later calls tell them apart if and only if the first one has
      thrown that offset away as its watermark. */
  lemma CompactionShowsExactly(c1: State, c2: State, r: Ref, e: Entry, subs: set<nat>)
    requires Simulates(c1, r) && Simulates(c2, r) && !Readded(c2, r, e.offset)
    ensures (exists ops :: TellsApart(Added(c1, e, subs), Added(c2, e, subs), RefAdd(r, e, subs), ops))
            <==> Readded(c1, r, e.offset)
  {
    AddSimulatesExactly(c1, r, e, subs);
    AddSimulatesExactly(c2, r, e, subs);
    var d1, d2, r' := Added(c1, e, subs), Added(c2, e, subs), RefAdd(r, e, subs);
    if Readded(c1, r, e.offset) {
      var ops := TellingCalls(c1, c2, r, e, subs);
      assert TellsApart(d1, d2, r', ops);
    } else {
      forall ops ensures !TellsApart(d1, d2, r', ops) {
        if Allowed(d2, r', ops) {
          CompactionInvisible(d2, d1, r', ops, ops);
        }
      }
    }
  }

  lemma TellingCalls(c1: State, c2: State, r: Ref, e: Entry, subs: set<nat>) returns (ops: seq<Op>)
    requires Simulates(c1, r) && Simulates(c2, r) && Readded(c1, r, e.offset) && e.offset in c2.acked
    ensures TellsApart(Added(c1, e, subs), c2, r, ops)
  {
    var x := e.offset;
    assert Agrees(c1, r, x);
    var y := Above(c2.offsets, x);
    var c', r';
    ops, c', r' := AcksOfOthers(c2, r, x, Newest(y));
    TrackedBelow(c2, r, y);
    var tail := NewestAnswered(c', r', y);
    ReaddedHoldsBack(c1, r, e, subs, ops);
    Differ(Answers(Added(c1, e, subs), ops), Answers(c2, ops), c1.lastMaxAck, Entry(y, 0));
  }

  lemma Differ(a: seq<Entry>, b: seq<Entry>, before: Entry, after: Entry)
    requires (forall e <- a :: e == before) && b == [after] && before != after
    ensures a != b
  {
    assert after in b;
  }

  lemma TrackedBelow(c: State, r: Ref, y: nat)
    requires Simulates(c, r) && y > r.last.offset && forall o <- c.offsets :: o < y
    ensures forall k <- r.tracked :: k < y
  {
    forall k | k in r.tracked ensures k < y {
      assert Agrees(c, r, k);
      if k in c.acked { assert k in Members(c.offsets); }
    }
  }

  lemma {:induction false} Above(s: seq<nat>, x: nat) returns (y: nat)
    ensures y > x && forall o <- s :: o < y
  {
    y := x + 1;
    if s != [] {
      var z := Above(s[1..], x);
      y := if z > s[0] then z else s[0] + 1;
      forall o | o in s ensures o < y {
        assert o == s[0] || o in s[1..];
      }
    }
  }

  /** After them only the watermark's own state is as it was, and that is acknowledged. */
  lemma AcksOfOthers(c: State, r: Ref, x: nat, tail: seq<Op>) returns (ops: seq<Op>, c': State, r': Ref)
    requires Simulates(c, r) && x in r.tracked && r.tracked[x].acked && NoAckOf(tail, x)
    ensures Simulates(c', r') && r'.tracked.Keys == r.tracked.Keys && r'.last == r.last
    ensures forall k <- r'.tracked :: r'.tracked[k].acked
    ensures Answers(c, ops) == Answers(c', tail) && (Allowed(c', r', tail) ==> Allowed(c, r, ops)) && NoAckOf(ops, x)
  {
    var offs := Others(c.offsets, x);
    forall o | o in offs ensures o in r.tracked {
      assert o in Members(c.offsets) && Agrees(c, r, o);
    }
    ops, c', r' := AcksThen(c, r, offs, tail);
    forall k | k in r'.tracked ensures r'.tracked[k].acked {
      assert Agrees(c, r, k);
      if k in c.acked { assert k in Members(c.offsets); }
    }
  }

  /** Both kinds occur: the same calls from the start, cleaned up at once or not at all. */
  lemma CompactedOrNot()
    ensures Simulates(EarlyState(), OneRef()) && Simulates(LateState(), OneRef())
    ensures Readded(EarlyState(), OneRef(), 1) && !Readded(LateState(), OneRef(), 1)
    ensures EarlyState() == AfterOne(0) && LateState() == AfterOne(9)
  {
    assert [1][1..] == [] && [1][..1] == [1];
    var added := Step(Init(), Add(Entry(1, 0), {}));
    assert added == State(map[1 := false], map[1 := Item(Entry(1, 0), {})], [1], DEFAULT, 0);
    var acked := Step(added, Ack(1, {}));
    assert acked == State(map[1 := true], map[1 := Item(Entry(1, 0), {})], [1], DEFAULT, 0);
    assert Scan(acked.acked, acked.offsets, 0) == 1;
    assert Members([1]) == {1};
    OneSimulated();
  }

  /** Add 1, acknowledge it, ask, add 1 again, then add and acknowledge 2 and ask. */
  function Calls(threshold: int): seq<Op>
  {
    [Add(Entry(1, 0), {})] + ([Ack(1, {})] + ([Max(threshold)] + ([Add(Entry(1, 0), {})] + Newest(2))))
  }

  lemma AnswersCons(c: State, op: Op, rest: seq<Op>)
    requires InRange(c) && InRange(Step(c, op))
    ensures Answers(c, [op] + rest)
            == if op.Max? then [Step(c, op).lastMaxAck] + Answers(Step(c, op), rest) else Answers(Step(c, op), rest)
  {
    assert ([op] + rest)[1..] == rest;
  }

  lemma CallsAnswers(threshold: int, c: State)
    requires c == AfterOne(threshold) && (c == EarlyState() || c == LateState())
    ensures InRange(Added(c, Entry(1, 0), {}))
    ensures Answers(Init(), Calls(threshold)) == [Entry(1, 0)] + Answers(Added(c, Entry(1, 0), {}), Newest(2))
  {
    var last := [Add(Entry(1, 0), {})] + Newest(2);
    var c1 := Step(Init(), Add(Entry(1, 0), {}));
    var c2 := Step(c1, Ack(1, {}));
    AnswersCons(c, Add(Entry(1, 0), {}), Newest(2));
    AnswersCons(c2, Max(threshold), last);
    AnswersCons(c1, Ack(1, {}), [Max(threshold)] + last);
    AnswersCons(Init(), Add(Entry(1, 0), {}), [Ack(1, {})] + ([Max(threshold)] + last));
  }

  lemma EarlyAnswers()
    ensures InRange(Added(EarlyState(), Entry(1, 0), {}))
    ensures forall a <- Answers(Added(EarlyState(), Entry(1, 0), {}), Newest(2)) :: a == Entry(1, 0)
  {
    CompactedOrNot();
    ReaddedHoldsBack(EarlyState(), OneRef(), Entry(1, 0), {}, Newest(2));
  }

  lemma LateAnswers()
    ensures Added(LateState(), Entry(1, 0), {}) == LateState() && Answers(LateState(), Newest(2)) == [Entry(2, 0)]
  {
    CompactedOrNot();
    var tail := NewestAnswered(LateState(), OneRef(), 2);
  }

  lemma CallsSame()
    ensures SameCalls(Calls(0), Calls(9))
  {
  }

  /** Two runs from the start that differ in when the prefix is thrown away, and in an answer. */
  lemma CompactionShows()
    ensures SameCalls(Calls(0), Calls(9))
    ensures Answers(Init(), Calls(9)) == [Entry(1, 0)] + [Entry(2, 0)]
        && Answers(Init(), Calls(0)) != Answers(Init(), Calls(9))
  {
    CallsSame();
    CompactedOrNot();
    CallsAnswers(0, EarlyState());
    CallsAnswers(9, LateState());
    EarlyAnswers();
    LateAnswers();
    DifferAfter([Entry(1, 0)], Answers(Added(EarlyState(), Entry(1, 0), {}), Newest(2)), Entry(1, 0), Entry(2, 0));
  }

  lemma DifferAfter(head: seq<Entry>, a: seq<Entry>, before: Entry, after: Entry)
    requires (forall e <- a :: e == before) && before != after
    ensures head + a != head + [after]
  {
    Differ(a, [after], before, after);
    assert (head + a)[|head|..] == a && (head + [after])[|head|..] == [after];
  }

  /** Add 1, acknowledge it, ask for the watermark. */
  function AfterOne(threshold: int): State
  {
    var c := Step(Step(Init(), Add(Entry(1, 0), {})), Ack(1, {}));
    if c.checkStart <= |c.offsets| then Step(c, Max(threshold)) else c
  }

  function EarlyState(): State
  {
    State(map[], map[], [], Entry(1, 0), 0)
  }

  function LateState(): State
  {
    State(map[1 := true], map[1 := Item(Entry(1, 0), {})], [1], Entry(1, 0), 1)
  }

  function OneRef(): Ref
  {
    Ref(map[1 := Tracked(Item(Entry(1, 0), {}), true)], Entry(1, 0))
  }

  lemma OneSimulated()
    ensures Simulates(EarlyState(), OneRef()) && Simulates(LateState(), OneRef())
  {
    forall k: nat ensures Agrees(EarlyState(), OneRef(), k) && Agrees(LateState(), OneRef(), k) {}
  }
}
