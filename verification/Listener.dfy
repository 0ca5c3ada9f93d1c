/** The transaction demultiplexer (pg2buffer/buffered_listener.go) on values, and what it sends for
    every legal interleaving of ordinary and streamed transactions. The messages are those of
    section 55.9 "Logical Replication Message Formats" of the PostgreSQL 16 documentation. */
module Listener {
  import opened WriteQueues
  import opened Wal
  import opened Coalescing

  /** `decoded` is the outcome of reading the tuples of a row message. */
  datatype Message =
    | Begin(xid: Xid)
    | Commit(commitLsn: Lsn, endLsn: Lsn, time: int)
    | StreamStart(xid: Xid)
    | StreamStop
    | StreamCommit(xid: Xid, commitLsn: Lsn, endLsn: Lsn, time: int)
    | StreamAbort(xid: Xid)
    | Relation(rel: nat)
    | RowChange(xid: Xid, rel: nat, decoded: Option<Row>)

  /** `sent` is what was added to the LSN tracker. */
  datatype State = State(cache: map<Xid, seq<Row>>, current: Xid, relations: set<nat>, sent: seq<WriteRequest>)

  function Get(cache: map<Xid, seq<Row>>, xid: Xid): seq<Row>
  {
    if xid in cache then cache[xid] else []
  }

  function EntryOf(row: Row, offset: Offset): WriteEntry
  {
    WriteEntry(row.tuple, row.prev, row.pk, row.kind, row.table, offset)
  }

  function Numbered(rows: seq<Row>): (r: seq<WriteEntry>)
    ensures |r| == |rows| && forall i :: 0 <= i < |r| ==> r[i] == EntryOf(rows[i], i)
  {
    seq(|rows|, i requires 0 <= i < |rows| => EntryOf(rows[i], i))
  }

  function Send(s: State, xid: Xid, lsn: Lsn, time: int): State
  {
    s.(sent := s.sent + [WriteRequest(Numbered(Get(s.cache, xid)), lsn, xid, time)], cache := s.cache - {xid})
  }

  function RowXid(s: State, xid: Xid): Xid
  {
    if xid == 0 then s.current else xid
  }

  predicate Rejected(s: State, m: Message)
  {
    m.RowChange? && (m.rel !in s.relations || m.decoded.None?)
  }

  /** One message; a rejected row changes nothing. */
  function Handle(s: State, m: Message): State
  {
    match m
    case Begin(xid) => s.(current := xid)
    case Commit(_, endLsn, time) => if s.current > 0 then Send(s, s.current, endLsn, time).(current := 0) else s
    case StreamStart(_) => s
    case StreamStop => s
    case StreamCommit(xid, commitLsn, _, time) => Send(s, xid, commitLsn, time)
    case StreamAbort(xid) => s.(cache := s.cache - {xid})
    case Relation(rel) => s.(relations := s.relations + {rel})
    case RowChange(xid, rel, decoded) =>
      if Rejected(s, m) then s else
      var x := RowXid(s, xid);
      s.(cache := s.cache[x := Put(Get(s.cache, x), decoded.value)])
  }

  function HandleAll(ms: seq<Message>): State
  {
    if ms == [] then State(map[], 0, {}, []) else Handle(HandleAll(ms[..|ms| - 1]), ms[|ms| - 1])
  }

  // ---- the protocol, read off the messages alone

  datatype Phase = Idle | InTx(xid: Xid) | InStream(xid: Xid)

  function PhaseOf(ms: seq<Message>): Phase
  {
    if ms == [] then Idle else
    match ms[|ms| - 1]
    case Begin(xid) => InTx(xid)
    case Commit(_, _, _) => Idle
    case StreamStart(xid) => InStream(xid)
    case StreamStop => Idle
    case _ => PhaseOf(ms[..|ms| - 1])
  }

  /** Streamed transactions that have neither committed nor aborted. */
  function Open(ms: seq<Message>): set<Xid>
  {
    if ms == [] then {} else
    var before := Open(ms[..|ms| - 1]);
    match ms[|ms| - 1]
    case StreamStart(xid) => before + {xid}
    case StreamCommit(xid, _, _, _) => before - {xid}
    case StreamAbort(xid) => before - {xid}
    case _ => before
  }

  function Relations(ms: seq<Message>): set<nat>
  {
    if ms == [] then {} else
    Relations(ms[..|ms| - 1]) + if ms[|ms| - 1].Relation? then {ms[|ms| - 1].rel} else {}
  }

  /** Ordinary transactions are not interrupted; streamed ones come in blocks. A row carries its
      transaction's xid inside a block and 0 outside. */
  predicate LegalNext(ms: seq<Message>, m: Message)
  {
    match m
    case Begin(xid) => PhaseOf(ms) == Idle && xid > 0 && xid !in Open(ms)
    case Commit(_, _, _) => PhaseOf(ms).InTx?
    case StreamStart(xid) => PhaseOf(ms) == Idle && xid > 0
    case StreamStop => PhaseOf(ms).InStream?
    case StreamCommit(xid, _, _, _) => PhaseOf(ms) == Idle && xid in Open(ms)
    case StreamAbort(xid) => PhaseOf(ms) == Idle && xid in Open(ms)
    case Relation(_) => true
    case RowChange(xid, rel, decoded) =>
      && rel in Relations(ms) && decoded.Some? && PhaseOf(ms) != Idle
      && xid == if PhaseOf(ms).InStream? then PhaseOf(ms).xid else 0
  }

  predicate Legal(ms: seq<Message>)
  {
    ms == [] || (Legal(ms[..|ms| - 1]) && LegalNext(ms[..|ms| - 1], ms[|ms| - 1]))
  }

  predicate Active(ms: seq<Message>, xid: Xid)
  {
    PhaseOf(ms) != Idle && PhaseOf(ms).xid == xid
  }

  /** The rows of the transaction that is running under `xid`. */
  function RowsOf(ms: seq<Message>, xid: Xid): seq<Row>
  {
    if ms == [] then [] else
    var before, m := ms[..|ms| - 1], ms[|ms| - 1];
    match m
    case RowChange(_, _, Some(row)) => if Active(before, xid) then RowsOf(before, xid) + [row] else RowsOf(before, xid)
    case Begin(x) => if x == xid then [] else RowsOf(before, xid)
    case StreamStart(x) => if x == xid && x !in Open(before) then [] else RowsOf(before, xid)
    case _ => RowsOf(before, xid)
  }

  /** The request a commit has to send for the rows of its transaction. */
  ghost predicate Carries(req: WriteRequest, rows: seq<Row>, lsn: Lsn, xid: Xid, time: int)
  {
    && req.lsn == lsn && req.xid == xid && req.commitTime == time
    && exists s :: IsCoalesced(rows, s) && req.entries == Numbered(s)
  }

  /** `reqs` holds one request for each commit and nothing else. */
  ghost predicate Emits(ms: seq<Message>, reqs: seq<WriteRequest>)
  {
    if ms == [] then reqs == [] else
    var before, m := ms[..|ms| - 1], ms[|ms| - 1];
    match m
    case Commit(_, endLsn, time) =>
      reqs != [] && Emits(before, reqs[..|reqs| - 1]) && PhaseOf(before).InTx? &&
      Carries(reqs[|reqs| - 1], RowsOf(before, PhaseOf(before).xid), endLsn, PhaseOf(before).xid, time)
    case StreamCommit(xid, commitLsn, _, time) =>
      reqs != [] && Emits(before, reqs[..|reqs| - 1]) &&
      Carries(reqs[|reqs| - 1], RowsOf(before, xid), commitLsn, xid, time)
    case _ => Emits(before, reqs)
  }

  // ---- the theorem

  ghost predicate CacheOk(ms: seq<Message>, cache: map<Xid, seq<Row>>, xid: Xid)
  {
    Get(cache, xid) == if xid in Open(ms) || Active(ms, xid) then PutAll(RowsOf(ms, xid)) else []
  }

  ghost predicate CachesOk(ms: seq<Message>, cache: map<Xid, seq<Row>>)
  {
    forall xid {:trigger CacheOk(ms, cache, xid)} :: CacheOk(ms, cache, xid)
  }

  ghost predicate StateOk(ms: seq<Message>, s: State)
  {
    && s.current == (if PhaseOf(ms).InTx? then PhaseOf(ms).xid else 0)
    && s.relations == Relations(ms)
    && CachesOk(ms, s.cache)
    && (PhaseOf(ms).InStream? ==> PhaseOf(ms).xid in Open(ms))
    && (PhaseOf(ms).InTx? ==> PhaseOf(ms).xid > 0 && PhaseOf(ms).xid !in Open(ms))
  }

  /** For every legal interleaving: each commit sends exactly one request, each abort none, and the
      request holds the coalesced rows of its own transaction with offsets 0..n-1. */
  lemma {:induction false} DemuxExact(ms: seq<Message>)
    requires Legal(ms)
    ensures StateOk(ms, HandleAll(ms)) && Emits(ms, HandleAll(ms).sent)
  {
    if ms != [] {
      var before, m := ms[..|ms| - 1], ms[|ms| - 1];
      DemuxExact(before);
      assert ms == before + [m];
      HandleKeeps(before, m, HandleAll(before));
      HandleEmits(before, m, HandleAll(before));
    }
  }

  lemma HandleKeeps(before: seq<Message>, m: Message, s: State)
    requires StateOk(before, s) && LegalNext(before, m)
    ensures StateOk(before + [m], Handle(s, m))
  {
    var ms, s' := before + [m], Handle(s, m);
    assert ms[..|before|] == before && ms[|before|] == m;
    forall xid ensures CacheOk(ms, s'.cache, xid) {
      assert CacheOk(before, s.cache, xid);
      CacheKeeps(before, m, s, xid);
    }
  }

  lemma CacheKeeps(before: seq<Message>, m: Message, s: State, xid: Xid)
    requires StateOk(before, s) && LegalNext(before, m)
    ensures CacheOk(before + [m], Handle(s, m).cache, xid)
  {
    var ms := before + [m];
    assert ms[..|before|] == before && ms[|before|] == m;
    assert CacheOk(before, s.cache, xid);
    if m.RowChange? && Active(before, xid) {
      var rows := RowsOf(before, xid);
      assert (rows + [m.decoded.value])[..|rows|] == rows;
    }
  }

  lemma HandleEmits(before: seq<Message>, m: Message, s: State)
    requires StateOk(before, s) && LegalNext(before, m) && Emits(before, s.sent)
    ensures Emits(before + [m], Handle(s, m).sent)
  {
    var ms, s' := before + [m], Handle(s, m);
    assert ms[..|before|] == before && ms[|before|] == m;
    if m.Commit? || m.StreamCommit? {
      var xid := if m.Commit? then s.current else m.xid;
      assert CacheOk(before, s.cache, xid);
      var idx := PutAllCoalesces(RowsOf(before, xid));
      assert IsCoalesced(RowsOf(before, xid), PutAll(RowsOf(before, xid)));
      assert s'.sent[..|s'.sent| - 1] == s.sent;
    }
  }

  function Commits(ms: seq<Message>): nat
  {
    if ms == [] then 0 else
    Commits(ms[..|ms| - 1]) + if ms[|ms| - 1].Commit? || ms[|ms| - 1].StreamCommit? then 1 else 0
  }

  lemma {:induction false} OneRequestPerCommit(ms: seq<Message>, reqs: seq<WriteRequest>)
    requires Emits(ms, reqs)
    ensures |reqs| == Commits(ms)
  {
    if ms != [] {
      var m := ms[|ms| - 1];
      OneRequestPerCommit(ms[..|ms| - 1], if m.Commit? || m.StreamCommit? then reqs[..|reqs| - 1] else reqs);
    }
  }

  /** The entries of a request: one for each row key of the transaction, numbered in order. */
  lemma CarriedEntries(req: WriteRequest, rows: seq<Row>, lsn: Lsn, xid: Xid, time: int) returns (s: seq<Row>)
    requires Carries(req, rows, lsn, xid, time)
    ensures req.entries == Numbered(s) && DistinctKeys(s) && Keys(s) == Keys(rows)
    ensures forall i :: 0 <= i < |req.entries| ==> req.entries[i].offset == i
  {
    s :| IsCoalesced(rows, s) && req.entries == Numbered(s);
    var idx :| CoalescedAt(rows, s, idx);
    CoalescedKeys(rows, s, idx);
    CoalescedKeySet(rows, s, idx);
  }

  // ---- rows by the xid they carry, for every message sequence

  /** The transaction that rows without an xid belong to. */
  function Current(ms: seq<Message>): Xid
  {
    if ms == [] then 0 else
    match ms[|ms| - 1]
    case Begin(xid) => xid
    case Commit(_, _, _) => 0
    case _ => Current(ms[..|ms| - 1])
  }

  /** The row is accepted and carries `xid`, itself or through the current transaction. */
  predicate CarriesXid(before: seq<Message>, m: Message, xid: Xid)
  {
    && m.RowChange? && m.rel in Relations(before) && m.decoded.Some?
    && (if m.xid == 0 then Current(before) else m.xid) == xid
  }

  /** The message ends what is kept under `xid`. */
  predicate Ends(before: seq<Message>, m: Message, xid: Xid)
  {
    match m
    case Commit(_, _, _) => xid > 0 && Current(before) == xid
    case StreamCommit(x, _, _, _) => x == xid
    case StreamAbort(x) => x == xid
    case _ => false
  }

  /** The accepted rows that carried `xid` since its last commit or abort. */
  function CarriedRows(ms: seq<Message>, xid: Xid): seq<Row>
  {
    if ms == [] then [] else
    var before, m := ms[..|ms| - 1], ms[|ms| - 1];
    if Ends(before, m, xid) then []
    else if CarriesXid(before, m, xid) then CarriedRows(before, xid) + [m.decoded.value]
    else CarriedRows(before, xid)
  }

  lemma {:induction false} StateIs(ms: seq<Message>)
    ensures HandleAll(ms).current == Current(ms) && HandleAll(ms).relations == Relations(ms)
  {
    if ms != [] {
      StateIs(ms[..|ms| - 1]);
    }
  }

  lemma HandleKept(s: State, before: seq<Message>, m: Message, xid: Xid)
    requires s.current == Current(before) && s.relations == Relations(before)
    ensures Get(Handle(s, m).cache, xid)
            == if Ends(before, m, xid) then []
               else if CarriesXid(before, m, xid) then Put(Get(s.cache, xid), m.decoded.value)
               else Get(s.cache, xid)
  {
  }

  lemma PutAllMore(rows: seq<Row>, row: Row)
    ensures PutAll(rows + [row]) == Put(PutAll(rows), row)
  {
    assert (rows + [row])[..|rows|] == rows;
  }

  /** Whatever messages arrive, what is kept under an xid are exactly those rows, coalesced. */
  lemma {:induction false} CacheExact(ms: seq<Message>, xid: Xid)
    ensures Get(HandleAll(ms).cache, xid) == PutAll(CarriedRows(ms, xid))
  {
    if ms != [] {
      var before, m := ms[..|ms| - 1], ms[|ms| - 1];
      StateIs(before);
      CacheExact(before, xid);
      HandleKept(HandleAll(before), before, m, xid);
      if CarriesXid(before, m, xid) {
        PutAllMore(CarriedRows(before, xid), m.decoded.value);
      }
    }
  }

  /** So a streamed commit sends the rows that carried its xid, whatever messages came before. */
  lemma StreamCommitSends(ms: seq<Message>, xid: Xid, lsn: Lsn, end: Lsn, time: int)
    ensures HandleAll(ms + [StreamCommit(xid, lsn, end, time)]).sent
            == HandleAll(ms).sent + [WriteRequest(Numbered(PutAll(CarriedRows(ms, xid))), lsn, xid, time)]
  {
    var m := StreamCommit(xid, lsn, end, time);
    assert (ms + [m])[..|ms|] == ms;
    CacheExact(ms, xid);
  }

  /** And a row that carries another xid, as a subtransaction's does, makes no difference to what the
      commit of the stream sends, whatever messages came before. */
  lemma SubtransactionRowIsLost(ms: seq<Message>, x: Xid, y: Xid, rel: nat, row: Row, lsn: Lsn, end: Lsn, time: int)
    requires x != y && y != 0
    ensures HandleAll(ms + [RowChange(y, rel, Some(row))] + [StreamCommit(x, lsn, end, time)]).sent
            == HandleAll(ms + [StreamCommit(x, lsn, end, time)]).sent
  {
    var more := ms + [RowChange(y, rel, Some(row))];
    assert more[..|ms|] == ms;
    assert CarriedRows(more, x) == CarriedRows(ms, x) && HandleAll(more).sent == HandleAll(ms).sent;
    StreamCommitSends(more, x, lsn, end, time);
    StreamCommitSends(ms, x, lsn, end, time);
  }

  // ---- when that is all of them

  /** The protocol without the condition on the xid of rows in a stream. */
  predicate LegalBlocksNext(ms: seq<Message>, m: Message)
  {
    match m
    case RowChange(xid, rel, decoded) =>
      rel in Relations(ms) && decoded.Some? && PhaseOf(ms) != Idle && (PhaseOf(ms).InTx? ==> xid == 0)
    case _ => LegalNext(ms, m)
  }

  predicate LegalBlocks(ms: seq<Message>)
  {
    ms == [] || (LegalBlocks(ms[..|ms| - 1]) && LegalBlocksNext(ms[..|ms| - 1], ms[|ms| - 1]))
  }

  /** No row outside the blocks of `xid` carries it. */
  predicate NoStrangers(ms: seq<Message>, xid: Xid)
  {
    ms == [] ||
    (NoStrangers(ms[..|ms| - 1], xid)
     && (CarriesXid(ms[..|ms| - 1], ms[|ms| - 1], xid) ==> Active(ms[..|ms| - 1], xid)))
  }

  /** Every row in the blocks of the running transaction `xid` carries it. */
  predicate OwnRows(ms: seq<Message>, xid: Xid)
  {
    if ms == [] then true else
    var before, m := ms[..|ms| - 1], ms[|ms| - 1];
    match m
    case RowChange(_, _, _) => OwnRows(before, xid) && (Active(before, xid) ==> CarriesXid(before, m, xid))
    case Begin(x) => x == xid || OwnRows(before, xid)
    case StreamStart(x) => (x == xid && x !in Open(before)) || OwnRows(before, xid)
    case _ => OwnRows(before, xid)
  }

  ghost predicate RowsOk(ms: seq<Message>, xid: Xid)
  {
    var carried, rows := CarriedRows(ms, xid), RowsOf(ms, xid);
    if xid in Open(ms) || Active(ms, xid)
    then |carried| <= |rows| && (OwnRows(ms, xid) ==> carried == rows) && (!OwnRows(ms, xid) ==> |carried| < |rows|)
    else carried == []
  }

  lemma {:induction false} BlocksKeep(ms: seq<Message>, xid: Xid)
    requires LegalBlocks(ms) && NoStrangers(ms, xid) && xid > 0
    ensures RowsOk(ms, xid)
    ensures Current(ms) == if PhaseOf(ms).InTx? then PhaseOf(ms).xid else 0
    ensures PhaseOf(ms).InStream? ==> PhaseOf(ms).xid in Open(ms)
    ensures PhaseOf(ms).InTx? ==> PhaseOf(ms).xid !in Open(ms)
  {
    if ms != [] {
      BlocksKeep(ms[..|ms| - 1], xid);
    }
  }

  /** A streamed commit sends all rows of its blocks if and only if every one of them carries its
      xid, given that no other row does. */
  lemma StreamCarriesAllExactly(ms: seq<Message>, xid: Xid)
    requires LegalBlocks(ms) && NoStrangers(ms, xid) && xid > 0 && xid in Open(ms)
    ensures CarriedRows(ms, xid) == RowsOf(ms, xid) <==> OwnRows(ms, xid)
  {
    BlocksKeep(ms, xid);
  }

  /** A stream with one row, of a subtransaction. */
  function SubtransactionStream(row: Row): seq<Message>
  {
    [Relation(1), StreamStart(5), RowChange(6, 1, Some(row)), StreamStop]
  }

  /** Its commit sends nothing of it. */
  lemma LosesARow(row: Row)
    ensures var ms := SubtransactionStream(row);
      && LegalBlocks(ms) && NoStrangers(ms, 5) && 5 in Open(ms) && RowsOf(ms, 5) == [row]
      && HandleAll(ms + [StreamCommit(5, 10, 20, 0)]).sent == [WriteRequest([], 10, 5, 0)]
  {
    var ms := SubtransactionStream(row);
    assert ms[..3] == [Relation(1), StreamStart(5), RowChange(6, 1, Some(row))];
    UntilRow(row);
    assert CarriedRows(ms, 5) == [];
    StreamCommitSends(ms, 5, 10, 20, 0);
  }

  lemma UntilRow(row: Row)
    ensures var ms := [Relation(1), StreamStart(5), RowChange(6, 1, Some(row))];
      && LegalBlocks(ms) && NoStrangers(ms, 5) && Open(ms) == {5} && PhaseOf(ms) == InStream(5)
      && RowsOf(ms, 5) == [row] && CarriedRows(ms, 5) == [] && HandleAll(ms).sent == []
  {
    var ms := [Relation(1), StreamStart(5), RowChange(6, 1, Some(row))];
    assert ms[..2] == [Relation(1), StreamStart(5)];
    UntilStream();
  }

  lemma UntilStream()
    ensures var ms := [Relation(1), StreamStart(5)];
      && LegalBlocks(ms) && NoStrangers(ms, 5) && Open(ms) == {5} && PhaseOf(ms) == InStream(5) && Relations(ms) == {1}
      && RowsOf(ms, 5) == [] && CarriedRows(ms, 5) == [] && HandleAll(ms).sent == []
  {
    var ms := [Relation(1), StreamStart(5)];
    assert ms[..1] == [Relation(1)] && [Relation(1)][..0] == [];
    assert LegalBlocks([Relation(1)]) && NoStrangers([Relation(1)], 5) && PhaseOf([Relation(1)]) == Idle;
    assert Relations([Relation(1)]) == {1} && Open([Relation(1)]) == {} && RowsOf([Relation(1)], 5) == [];
    assert CarriedRows([Relation(1)], 5) == [] && HandleAll([Relation(1)]).sent == [];
  }
}
