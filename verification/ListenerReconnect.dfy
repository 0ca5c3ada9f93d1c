/** A reconnect in the middle of transactions. The listener keeps what it has received of them, and the
    server sends them again from their beginning. */
module ListenerReconnect {
  import opened Wal
  import opened Coalescing
  import opened CoalescedStore
  import opened Listener

  /** What the session relies on was said in the session: relations, and the transaction that rows without
      an xid and commits belong to. */
  predicate SelfContainedNext(ms: seq<Message>, m: Message)
  {
    && (m.RowChange? ==> m.rel in Relations(ms) && (m.xid == 0 ==> Current(ms) > 0))
    && (m.Commit? ==> Current(ms) > 0)
  }

  predicate SelfContained(ms: seq<Message>)
  {
    ms == [] || (SelfContained(ms[..|ms| - 1]) && SelfContainedNext(ms[..|ms| - 1], ms[|ms| - 1]))
  }

  lemma {:induction false} LegalSelfContained(ms: seq<Message>)
    requires Legal(ms)
    ensures SelfContained(ms)
  {
    if ms != [] {
      var before := ms[..|ms| - 1];
      LegalSelfContained(before);
      DemuxExact(before);
      StateIs(before);
      OpenPositive(before);
    }
  }

  lemma {:induction false} OpenPositive(ms: seq<Message>)
    requires Legal(ms)
    ensures 0 !in Open(ms)
  {
    if ms != [] {
      OpenPositive(ms[..|ms| - 1]);
    }
  }

  /** The commit or abort of `xid` is among the messages. */
  predicate EndsIn(ms: seq<Message>, xid: Xid)
  {
    ms != [] && (EndsIn(ms[..|ms| - 1], xid) || Ends(ms[..|ms| - 1], ms[|ms| - 1], xid))
  }

  /** What is left of earlier sessions. */
  function Residue(earlier: seq<Message>, ms: seq<Message>, xid: Xid): seq<Row>
  {
    if EndsIn(ms, xid) then [] else CarriedRows(earlier, xid)
  }

  lemma Split(earlier: seq<Message>, ms: seq<Message>)
    requires ms != []
    ensures (earlier + ms)[..|earlier + ms| - 1] == earlier + ms[..|ms| - 1]
    ensures (earlier + ms)[|earlier + ms| - 1] == ms[|ms| - 1]
  {
  }

  lemma {:induction false} SessionKnows(earlier: seq<Message>, ms: seq<Message>)
    ensures Relations(ms) <= Relations(earlier + ms)
    ensures Current(ms) > 0 ==> Current(earlier + ms) == Current(ms)
  {
    if ms != [] {
      Split(earlier, ms);
      SessionKnows(earlier, ms[..|ms| - 1]);
    }
  }

  /** The listener holds what is left over, followed by the rows of the session. */
  lemma {:induction false} CarriedAfter(earlier: seq<Message>, ms: seq<Message>, xid: Xid)
    requires SelfContained(ms)
    ensures CarriedRows(earlier + ms, xid) == Residue(earlier, ms, xid) + CarriedRows(ms, xid)
  {
    if ms == [] {
      assert earlier + ms == earlier;
    } else {
      var before, m := ms[..|ms| - 1], ms[|ms| - 1];
      Split(earlier, ms);
      SessionKnows(earlier, before);
      CarriedAfter(earlier, before, xid);
    }
  }

  predicate IsCommit(m: Message)
  {
    m.Commit? || m.StreamCommit?
  }

  /** The transaction a commit sends. */
  function Committed(ms: seq<Message>, m: Message): Xid
    requires IsCommit(m)
  {
    if m.Commit? then Current(ms) else m.xid
  }

  /** Whenever the session commits a transaction, what is left of it are its first rows, from one earlier
      session or several. */
  ghost predicate SentAgain(earlier: seq<Message>, ms: seq<Message>)
  {
    if ms == [] then true else
    var before, m := ms[..|ms| - 1], ms[|ms| - 1];
    && SentAgain(earlier, before)
    && (IsCommit(m) ==> var xid := Committed(before, m);
                        StartsAlike(Residue(earlier, before, xid), CarriedRows(before, xid)))
  }

  lemma SameRows(earlier: seq<Message>, ms: seq<Message>, xid: Xid)
    requires SelfContained(ms) && StartsAlike(Residue(earlier, ms, xid), CarriedRows(ms, xid))
    ensures Get(HandleAll(earlier + ms).cache, xid) == Get(HandleAll(ms).cache, xid)
  {
    CarriedAfter(earlier, ms, xid);
    CacheExact(earlier + ms, xid);
    CacheExact(ms, xid);
    RowsAgain(Residue(earlier, ms, xid), CarriedRows(ms, xid));
  }

  /** A session after a reconnect sends what it would have sent on its own, whatever had been received of
      its transactions before. */
  lemma {:induction false} ReconnectSends(earlier: seq<Message>, ms: seq<Message>)
    requires SelfContained(ms) && SentAgain(earlier, ms)
    ensures HandleAll(earlier + ms).sent == HandleAll(earlier).sent + HandleAll(ms).sent
  {
    if ms == [] {
      assert earlier + ms == earlier;
    } else {
      var before, m := ms[..|ms| - 1], ms[|ms| - 1];
      Split(earlier, ms);
      ReconnectSends(earlier, before);
      StateIs(before);
      StateIs(earlier + before);
      SessionKnows(earlier, before);
      if IsCommit(m) {
        SameRows(earlier, before, Committed(before, m));
      }
    }
  }
}
