/** Which LSN stands for a transaction: an ordinary commit is tracked under the end of its commit
    record, a streamed one under its start. */
module CommitKeys {
  import opened Wal
  import opened TrackerSpec
  import opened TrackerRuns
  import opened TrackerTheorems
  import opened TrackerDelivery
  import Listener

  /** A commit record occupies `commitLsn` up to `endLsn`. */
  datatype Tx = Tx(streamed: bool, commitLsn: Lsn, endLsn: Lsn)

  function Key(t: Tx): Lsn
  {
    if t.streamed then t.commitLsn else t.endLsn
  }

  /** Commit records follow each other in the WAL without overlap. */
  predicate WalOrder(txs: seq<Tx>)
  {
    && (forall i :: 0 <= i < |txs| ==> 0 < txs[i].commitLsn < txs[i].endLsn)
    && (forall i, j :: 0 <= i < j < |txs| ==> txs[i].endLsn <= txs[j].commitLsn)
  }

  /** A streamed commit record starts where an ordinary one ends. */
  predicate Collide(a: Tx, b: Tx)
  {
    !a.streamed && b.streamed && a.endLsn == b.commitLsn
  }

  ghost predicate NoCollision(txs: seq<Tx>)
  {
    forall i :: 0 < i < |txs| ==> !Collide(txs[i - 1], txs[i])
  }

  lemma KeysOrdered(txs: seq<Tx>, i: nat, j: nat)
    requires WalOrder(txs) && i < j < |txs|
    ensures Key(txs[i]) <= Key(txs[j])
    ensures Key(txs[i]) == Key(txs[j]) <==> Collide(txs[i], txs[j])
    ensures Collide(txs[i], txs[j]) ==> j == i + 1
  {
    if j > i + 1 {
      assert txs[i].endLsn <= txs[i + 1].commitLsn < txs[i + 1].endLsn <= txs[j].commitLsn;
    }
  }

  ghost predicate Keyed(txs: seq<Tx>, reqs: seq<WriteRequest>)
  {
    |reqs| == |txs| && forall i :: 0 <= i < |txs| ==> reqs[i].lsn == Key(txs[i])
  }

  // ---- how the server sends the transactions

  /** One past the last transaction sent. */
  function Reached(sent: seq<nat>): nat
  {
    if sent == [] then 0 else
    var before, i := Reached(sent[..|sent| - 1]), sent[|sent| - 1];
    if i < before then before else i + 1
  }

  predicate GoesOn(sent: seq<nat>, k: nat)
    requires k < |sent|
  {
    sent[k] <= Reached(sent[..k])
  }

  ghost predicate NoneSkipped(sent: seq<nat>)
  {
    forall k: nat {:trigger GoesOn(sent, k)} :: k < |sent| ==> GoesOn(sent, k)
  }

  /** The transactions come in WAL order, from the first on; after a reconnect the server starts again at
      one that it has sent already, or goes on. */
  ghost predicate Sends(txs: seq<Tx>, sent: seq<nat>, all: seq<Tx>)
  {
    && NoneSkipped(sent) && Reached(sent) == |txs| && |all| == |sent|
    && forall k :: 0 <= k < |sent| ==> sent[k] < |txs| && all[k] == txs[sent[k]]
  }

  lemma PrefixNoneSkipped(sent: seq<nat>, k: nat)
    requires NoneSkipped(sent) && k <= |sent|
    ensures NoneSkipped(sent[..k])
  {
    forall j: nat | j < k ensures GoesOn(sent[..k], j) {
      assert GoesOn(sent, j) && sent[..k][..j] == sent[..j];
    }
  }

  /** Exactly the transactions below it have been sent. */
  lemma {:induction false} ReachedIs(sent: seq<nat>, i: nat)
    requires NoneSkipped(sent)
    ensures i < Reached(sent) <==> i in sent
  {
    if sent != [] {
      var n := |sent| - 1;
      PrefixNoneSkipped(sent, n);
      ReachedIs(sent[..n], i);
      assert GoesOn(sent, n) && sent == sent[..n] + [sent[n]];
    }
  }

  /** So each tracked LSN is above all before it or comes again. */
  lemma SentResends(txs: seq<Tx>, sent: seq<nat>, all: seq<Tx>, reqs: seq<WriteRequest>)
    requires WalOrder(txs) && Sends(txs, sent, all) && Keyed(all, reqs)
    ensures Resends(reqs)
  {
    forall k: nat | k < |reqs| ensures InOrder(reqs, k) {
      SentInOrder(txs, sent, all, reqs, k);
    }
  }

  lemma SentInOrder(txs: seq<Tx>, sent: seq<nat>, all: seq<Tx>, reqs: seq<WriteRequest>, k: nat)
    requires WalOrder(txs) && Sends(txs, sent, all) && Keyed(all, reqs) && k < |reqs|
    ensures InOrder(reqs, k)
  {
    var before, i := sent[..k], sent[k];
    PrefixNoneSkipped(sent, k);
    assert GoesOn(sent, k);
    if i < Reached(before) {
      ReachedIs(before, i);
      var j :| 0 <= j < |before| && before[j] == i;
      assert reqs[..k][j].lsn == Key(txs[i]);
    } else if !LsnIn(reqs[..k], reqs[k].lsn) {
      forall j | 0 <= j < k ensures reqs[..k][j].lsn < reqs[k].lsn {
        ReachedIs(before, before[j]);
        assert before[j] < i && reqs[..k][j].lsn == Key(txs[before[j]]);
        KeysOrdered(txs, before[j], i);
      }
    }
  }

  // ---- how many requests the tracker takes in

  ghost function KeySet(txs: seq<Tx>): set<Lsn>
  {
    set t <- txs :: Key(t)
  }

  lemma {:induction false} KeysCounted(txs: seq<Tx>)
    requires WalOrder(txs)
    ensures |KeySet(txs)| <= |txs|
    ensures |KeySet(txs)| == |txs| <==> NoCollision(txs)
  {
    if txs == [] {
      assert KeySet(txs) == {};
    } else {
      KeysCounted(txs[..|txs| - 1]);
      KeySetLast(txs);
      LastCollides(txs);
      CollisionLast(txs);
    }
  }

  lemma KeySetLast(txs: seq<Tx>)
    requires txs != []
    ensures KeySet(txs) == KeySet(txs[..|txs| - 1]) + {Key(txs[|txs| - 1])}
  {
    assert txs == txs[..|txs| - 1] + [txs[|txs| - 1]];
  }

  lemma CollisionLast(txs: seq<Tx>)
    requires txs != []
    ensures var n := |txs| - 1;
      NoCollision(txs) <==> NoCollision(txs[..n]) && !(n > 0 && Collide(txs[n - 1], txs[n]))
  {
    var before := txs[..|txs| - 1];
    assert forall i :: 0 <= i < |before| ==> before[i] == txs[i];
  }

  lemma LastCollides(txs: seq<Tx>)
    requires WalOrder(txs) && txs != []
    ensures var n := |txs| - 1;
      Key(txs[n]) in KeySet(txs[..n]) <==> n > 0 && Collide(txs[n - 1], txs[n])
  {
    var n := |txs| - 1;
    if Key(txs[n]) in KeySet(txs[..n]) {
      var t :| t in txs[..n] && Key(t) == Key(txs[n]);
      var i :| 0 <= i < n && txs[i] == t;
      KeysOrdered(txs, i, n);
    }
    if n > 0 && Collide(txs[n - 1], txs[n]) {
      KeysOrdered(txs, n - 1, n);
      assert txs[..n][n - 1] == txs[n - 1] && txs[n - 1] in txs[..n];
    }
  }

  lemma SentKeys(txs: seq<Tx>, sent: seq<nat>, all: seq<Tx>, reqs: seq<WriteRequest>)
    requires Sends(txs, sent, all) && Keyed(all, reqs)
    ensures Lsns(reqs) == KeySet(txs)
  {
    forall lsn | lsn in Lsns(reqs) ensures lsn in KeySet(txs) {
      var q :| q in reqs && q.lsn == lsn;
      var k :| 0 <= k < |reqs| && reqs[k] == q;
      assert txs[sent[k]] in txs && Key(txs[sent[k]]) == lsn;
    }
    forall lsn | lsn in KeySet(txs) ensures lsn in Lsns(reqs) {
      var t :| t in txs && Key(t) == lsn;
      var i :| 0 <= i < |txs| && txs[i] == t;
      ReachedIs(sent, i);
      var k :| 0 <= k < |sent| && sent[k] == i;
      assert reqs[k] in reqs && reqs[k].lsn == lsn;
    }
  }

  /** A run that adds the transactions of the WAL in order, with what comes again after reconnects, takes
      in all of them if and only if no streamed commit record starts where an ordinary one ends;
      otherwise the later one is dropped, whatever else happens in the run. */
  lemma AllTakenInExactly(cfg: RetryConfig, events: seq<Event>, r: Run, txs: seq<Tx>, sent: seq<nat>, all: seq<Tx>)
    requires Reachable(cfg, events, r) && WalOrder(txs) && Sends(txs, sent, all) && Keyed(all, Added(events))
    ensures |r.accepted| == |txs| <==> NoCollision(txs)
    ensures |r.accepted| <= |txs| && TakenIn(r.accepted, Added(events))
  {
    SentResends(txs, sent, all, Added(events));
    NothingDropped(cfg, events, r);
    SentKeys(txs, sent, all, Added(events));
    KeysCounted(txs);
  }

  // ---- the requests of the listener

  /** The transactions that commit in a message sequence. */
  function TxsOf(ms: seq<Listener.Message>): seq<Tx>
  {
    if ms == [] then [] else
    var before := ms[..|ms| - 1];
    match ms[|ms| - 1]
    case Commit(commitLsn, endLsn, _) =>
      if Listener.Current(before) > 0 then TxsOf(before) + [Tx(false, commitLsn, endLsn)] else TxsOf(before)
    case StreamCommit(_, commitLsn, endLsn, _) => TxsOf(before) + [Tx(true, commitLsn, endLsn)]
    case _ => TxsOf(before)
  }

  /** Whatever messages arrive, the listener tracks each transaction that commits under its key. */
  lemma {:induction false} SentKeyed(ms: seq<Listener.Message>)
    ensures Keyed(TxsOf(ms), Listener.HandleAll(ms).sent)
  {
    if ms != [] {
      SentKeyed(ms[..|ms| - 1]);
      Listener.StateIs(ms[..|ms| - 1]);
    }
  }

  /** Listener and tracker together: the tracker takes in every transaction of the WAL, sent again or not,
      if and only if no two commit records meet that way. */
  lemma ListenerTakenInExactly(cfg: RetryConfig, events: seq<Event>, r: Run, ms: seq<Listener.Message>, txs: seq<Tx>,
      sent: seq<nat>)
    requires Reachable(cfg, events, r) && WalOrder(txs) && Sends(txs, sent, TxsOf(ms))
    requires Added(events) == Listener.HandleAll(ms).sent
    ensures |r.accepted| == |txs| <==> NoCollision(txs)
  {
    SentKeyed(ms);
    AllTakenInExactly(cfg, events, r, txs, sent, TxsOf(ms));
  }

  /** A run at a collision: the second transaction is not taken in. */
  lemma CollisionDrops(cfg: RetryConfig) returns (events: seq<Event>, r: Run, txs: seq<Tx>)
    ensures txs == [Tx(false, 10, 20), Tx(true, 20, 30)] && WalOrder(txs)
    ensures Genuine(Init(cfg), events, r) && Sends(txs, [0, 1], txs) && Keyed(txs, Added(events)) && |r.accepted| == 1
  {
    var first, second := WriteRequest([], 20, 1, 0), WriteRequest([], 20, 2, 0);
    txs := [Tx(false, 10, 20), Tx(true, 20, 30)];
    r := AfterFirstAdd(cfg, first);
    SameLsnIgnored(r, first, second);
    events := [Add(first, 0), Add(second, 1)];
    TwoSteps(Init(cfg), Add(first, 0), r, Add(second, 1), r);
    TwoAdded(events);
    TwoSent();
  }

  lemma TwoAdded(events: seq<Event>)
    requires |events| == 2 && events[0].Add? && events[1].Add?
    ensures Added(events) == [events[0].req, events[1].req]
  {
    assert events[1..] == [events[1]] && events[1..][1..] == [];
    assert Added([]) == [] && Added(events[1..]) == [events[1].req];
  }

  lemma TwoSent()
    ensures NoneSkipped([0, 1]) && Reached([0, 1]) == 2
  {
    var sent: seq<nat> := [0, 1];
    assert sent[..0] == [] && sent[..1] == [0] && [0][..0] == [];
    assert Reached([0]) == 1;
  }

  lemma SameLsnIgnored(r: Run, first: WriteRequest, second: WriteRequest)
    requires first.entries == [] && first.lsn == second.lsn > 0 && r.accepted == map[0 := first]
    requires r.core == Core(map[0 := NewTracked(first)], [0], CommitPoint(0, 0), [], multiset{}, 0, multiset{})
    ensures DoAdd(r, second, 1) == r
  {
  }
}
