/** Which rows of a transaction share an entry: the row key is the table's name, a separator and the primary
    key, so rows of two tables can meet only when one name continues the other past the separator. */
module RowKeys {
  import opened WriteQueues
  import opened Wal
  import opened Coalescing
  import opened Listener

  /** The name `a` is `b`, a separator and something more. */
  predicate Continues(a: string, b: string)
  {
    |a| > |b| && a[..|b|] == b && a[|b|] == ':'
  }

  /** A row under the key the listener gives it. */
  predicate Made(row: Row)
  {
    row.key == row.table + ":" + row.pk
  }

  /** The listener puts what it has decoded into the row and nothing else. */
  lemma NewRowIs(table: string, pk: string, kind: OpKind, tuple: Tuple, prev: Option<Tuple>)
    ensures var row := NewRow(table, pk, kind, tuple, prev);
      Made(row) && row == Row(row.key, table, pk, kind, tuple, prev)
  {
  }

  predicate SameRow(a: Row, b: Row)
  {
    a.table == b.table && a.pk == b.pk
  }

  /** What is left of the longer name and the primary key of the other row are the same. */
  predicate Overlap(a: Row, b: Row)
  {
    Continues(a.table, b.table) && b.pk == a.table[|b.table| + 1..] + ":" + a.pk
  }

  lemma KeyParts(row: Row)
    requires Made(row)
    ensures var n := |row.table|;
      && |KeyOf(row)| == n + 1 + |row.pk| && KeyOf(row)[..n] == row.table && KeyOf(row)[n] == ':'
      && KeyOf(row)[n + 1..] == row.pk
  {
  }

  lemma SameKeyLonger(a: Row, b: Row)
    requires Made(a) && Made(b) && |a.table| > |b.table|
    ensures KeyOf(a) == KeyOf(b) <==> Overlap(a, b)
  {
    var n, m := |a.table|, |b.table|;
    KeyParts(a);
    KeyParts(b);
    if KeyOf(a) == KeyOf(b) {
      assert a.table[..m] == KeyOf(a)[..m] && a.table[m] == KeyOf(a)[m];
      assert KeyOf(a)[m + 1..] == a.table[m + 1..] + ":" + a.pk;
    }
    if Overlap(a, b) {
      assert a.table == b.table + ":" + a.table[m + 1..];
      assert KeyOf(a) == b.table + ":" + (a.table[m + 1..] + ":" + a.pk);
    }
  }

  /** Two rows share a key exactly when they agree in table and primary key, or overlap. */
  lemma SameKeyExactly(a: Row, b: Row)
    requires Made(a) && Made(b)
    ensures KeyOf(a) == KeyOf(b) <==> SameRow(a, b) || Overlap(a, b) || Overlap(b, a)
  {
    KeyParts(a);
    KeyParts(b);
    if |a.table| > |b.table| {
      SameKeyLonger(a, b);
    } else if |b.table| > |a.table| {
      SameKeyLonger(b, a);
    }
  }

  /** Rows of two tables never share a key if and only if neither name continues the other. */
  lemma TablesApartExactly(t: string, u: string)
    requires t != u
    ensures (forall a, b :: Made(a) && Made(b) && a.table == t && b.table == u ==> KeyOf(a) != KeyOf(b))
            <==> !Continues(t, u) && !Continues(u, t)
  {
    forall a, b | Made(a) && Made(b) && a.table == t && b.table == u && KeyOf(a) == KeyOf(b)
      ensures Continues(t, u) || Continues(u, t)
    {
      SameKeyExactly(a, b);
    }
    if Continues(t, u) {
      Meet(t, u);
    } else if Continues(u, t) {
      Meet(u, t);
    }
  }

  lemma Meet(t: string, u: string)
    requires Continues(t, u)
    ensures var a, b := NewRow(t, "", Insert, [], None), NewRow(u, t[|u| + 1..] + ":" + "", Insert, [], None);
      Made(a) && Made(b) && KeyOf(a) == KeyOf(b)
  {
    var a, b := NewRow(t, "", Insert, [], None), NewRow(u, t[|u| + 1..] + ":" + "", Insert, [], None);
    NewRowIs(t, "", Insert, [], None);
    SameKeyExactly(a, b);
  }

  // ---- the entries of a transaction

  ghost predicate AllMade(rows: seq<Row>)
  {
    forall row <- rows :: Made(row)
  }

  /** No table of the rows continues another. */
  ghost predicate TablesApart(rows: seq<Row>)
  {
    forall a <- rows, b <- rows :: !Continues(a.table, b.table)
  }

  lemma SameKeyIsSameRow(rows: seq<Row>, i: nat, j: nat)
    requires AllMade(rows) && TablesApart(rows) && i < |rows| && j < |rows|
    ensures KeyOf(rows[i]) == KeyOf(rows[j]) <==> SameRow(rows[i], rows[j])
  {
    assert rows[i] in rows && rows[j] in rows;
    SameKeyExactly(rows[i], rows[j]);
  }

  /** The first and the last row of that table and primary key. */
  ghost predicate FirstRowOf(rows: seq<Row>, i: nat)
  {
    i < |rows| && forall j :: 0 <= j < i ==> !SameRow(rows[j], rows[i])
  }

  ghost predicate LastRowOf(rows: seq<Row>, i: nat)
  {
    i < |rows| && forall j :: i < j < |rows| ==> !SameRow(rows[j], rows[i])
  }

  /** The entry with offset `k`: tuple of the last row, kind and previous tuple of the first. */
  ghost predicate EntryIs(rows: seq<Row>, e: WriteEntry, k: nat, first: nat, last: nat)
  {
    && FirstRowOf(rows, first) && LastRowOf(rows, last) && SameRow(rows[first], rows[last])
    && e == WriteEntry(rows[last].tuple, rows[first].prev, rows[last].pk, rows[first].kind, rows[last].table, k)
  }

  ghost predicate HasEntry(rows: seq<Row>, e: WriteEntry, k: nat, last: nat)
  {
    exists first: nat :: EntryIs(rows, e, k, first, last)
  }

  /** One entry for each table and primary key, in the order of the last rows. */
  ghost predicate Entries(rows: seq<Row>, es: seq<WriteEntry>, lasts: seq<nat>)
  {
    && |es| == |lasts| && Coalescing.Increasing(lasts)
    && (forall k :: 0 <= k < |es| ==> HasEntry(rows, es[k], k, lasts[k]))
    && forall i: nat {:trigger LastRowOf(rows, i)} :: LastRowOf(rows, i) ==> i in lasts
  }

  lemma LastIsLastRow(rows: seq<Row>, i: nat)
    requires AllMade(rows) && TablesApart(rows)
    ensures (IsLast(rows, i) <==> LastRowOf(rows, i)) && (IsFirst(rows, i) <==> FirstRowOf(rows, i))
  {
    if i < |rows| {
      forall j | 0 <= j < |rows| ensures KeyOf(rows[j]) == KeyOf(rows[i]) <==> SameRow(rows[j], rows[i]) {
        SameKeyIsSameRow(rows, j, i);
      }
    }
  }

  lemma EntryOfLast(rows: seq<Row>, last: nat, e: Row, k: nat) returns (first: nat)
    requires AllMade(rows) && TablesApart(rows) && IsLast(rows, last) && EntryFor(rows, last, e)
    ensures EntryIs(rows, EntryOf(e, k), k, first, last)
  {
    first := FirstOf(rows, last);
    LastIsLastRow(rows, first);
    LastIsLastRow(rows, last);
    SameKeyIsSameRow(rows, first, last);
  }

  /** The request of a commit holds exactly these entries: rows of the transaction share one if and only if
      they agree in table and primary key. */
  lemma CarriedByRow(req: WriteRequest, rows: seq<Row>, lsn: Lsn, xid: Xid, time: int) returns (lasts: seq<nat>)
    requires Carries(req, rows, lsn, xid, time) && AllMade(rows) && TablesApart(rows)
    ensures Entries(rows, req.entries, lasts)
  {
    var s :| IsCoalesced(rows, s) && req.entries == Numbered(s);
    lasts :| CoalescedAt(rows, s, lasts);
    forall k | 0 <= k < |s| ensures HasEntry(rows, req.entries[k], k, lasts[k]) {
      assert IsLast(rows, lasts[k]) && EntryFor(rows, lasts[k], s[k]);
      var first := EntryOfLast(rows, lasts[k], s[k], k);
    }
    forall i: nat | LastRowOf(rows, i) ensures i in lasts {
      LastIsLastRow(rows, i);
      assert Listed(rows, lasts, i);
    }
  }

  // ---- the rows of a message sequence

  ghost predicate MadeMessages(ms: seq<Message>)
  {
    forall m <- ms :: m.RowChange? && m.decoded.Some? ==> Made(m.decoded.value)
  }

  lemma {:induction false} RowsMade(ms: seq<Message>, xid: Xid)
    requires MadeMessages(ms)
    ensures AllMade(RowsOf(ms, xid))
  {
    if ms != [] {
      var before, m := ms[..|ms| - 1], ms[|ms| - 1];
      assert m in ms && forall x <- before :: x in ms;
      RowsMade(before, xid);
    }
  }

  /** For every legal interleaving of messages the listener made, the last commit sends the entries of its
      transaction's rows by table and primary key. */
  lemma CommitSendsByRow(ms: seq<Message>, m: Message) returns (req: WriteRequest, lasts: seq<nat>)
    requires Legal(ms) && LegalNext(ms, m) && (m.Commit? || m.StreamCommit?) && MadeMessages(ms)
    requires TablesApart(RowsOf(ms, if m.Commit? then PhaseOf(ms).xid else m.xid))
    ensures HandleAll(ms + [m]).sent == HandleAll(ms).sent + [req]
    ensures var xid := if m.Commit? then PhaseOf(ms).xid else m.xid;
      && req.lsn == (if m.Commit? then m.endLsn else m.commitLsn) && req.xid == xid && req.commitTime == m.time
      && Entries(RowsOf(ms, xid), req.entries, lasts)
  {
    var all, xid := ms + [m], if m.Commit? then PhaseOf(ms).xid else m.xid;
    assert all[..|ms|] == ms && all[|ms|] == m;
    DemuxExact(all);
    DemuxExact(ms);
    RowsMade(ms, xid);
    var sent := HandleAll(all).sent;
    req := sent[|sent| - 1];
    lasts := CarriedByRow(req, RowsOf(ms, xid), if m.Commit? then m.endLsn else m.commitLsn, xid, m.time);
  }

  /** Rows of two tables, one entry: the second row replaces the tuple of the first. */
  lemma TablesMeet(x: Tuple, y: Tuple)
    ensures var a, b := NewRow("public.a:b", "c", Insert, x, None), NewRow("public.a", "b:c", Insert, y, None);
      PutAll([a, b]) == [a.(tuple := y)]
  {
    var a, b := NewRow("public.a:b", "c", Insert, x, None), NewRow("public.a", "b:c", Insert, y, None);
    SameKeyExactly(a, b);
    assert [a, b][..1] == [a] && [a][..0] == [];
    assert PutAll([a]) == [a];
    assert Put([a], b) == [a.(tuple := y)];
  }
}
