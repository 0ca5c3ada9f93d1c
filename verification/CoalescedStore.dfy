/** What coalesced entries do to a store in which inserts and updates set a key and deletes remove it, against
    what the rows of the transaction would have done; and rows that come again after a reconnect. */
module CoalescedStore {
  import opened WriteQueues
  import opened Wal
  import opened Coalescing

  /** Rows by their key. */
  type Store = map<string, Tuple>

  /** What the writer does for one entry, by its kind. */
  function Apply(store: Store, row: Row): Store
  {
    if row.kind == Delete then store - {KeyOf(row)} else store[KeyOf(row) := row.tuple]
  }

  function Replay(store: Store, rows: seq<Row>): Store
  {
    if rows == [] then store else Apply(Replay(store, rows[..|rows| - 1]), rows[|rows| - 1])
  }

  function Value(store: Store, key: string): Option<Tuple>
  {
    if key in store then Some(store[key]) else None
  }

  function Effect(row: Row): Option<Tuple>
  {
    if row.kind == Delete then None else Some(row.tuple)
  }

  /** The last row of a key decides. */
  lemma {:induction false} ReplayLast(store: Store, rows: seq<Row>, i: nat)
    requires IsLast(rows, i)
    ensures Value(Replay(store, rows), KeyOf(rows[i])) == Effect(rows[i])
  {
    var n := |rows| - 1;
    if i < n {
      assert KeyOf(rows[n]) != KeyOf(rows[i]) && rows[..n][i] == rows[i];
      ReplayLast(store, rows[..n], i);
    }
  }

  lemma {:induction false} ReplayOther(store: Store, rows: seq<Row>, key: string)
    requires key !in Keys(rows)
    ensures Value(Replay(store, rows), key) == Value(store, key)
  {
    if rows != [] {
      var n := |rows| - 1;
      assert KeyOf(rows[n]) in Keys(rows);
      assert forall i :: 0 <= i < n ==> rows[..n][i] == rows[i];
      ReplayOther(store, rows[..n], key);
    }
  }

  /** The first and the last row of the key. */
  ghost predicate Spans(rows: seq<Row>, key: string, first: nat, last: nat)
  {
    IsFirst(rows, first) && IsLast(rows, last) && KeyOf(rows[first]) == key == KeyOf(rows[last])
  }

  predicate SameSort(a: Row, b: Row)
  {
    a.kind == Delete <==> b.kind == Delete
  }

  /** They are both deletes, or neither is. */
  ghost predicate Steady(rows: seq<Row>, key: string)
  {
    forall first: nat, last: nat {:trigger Spans(rows, key, first, last)} ::
      Spans(rows, key, first, last) ==> SameSort(rows[first], rows[last])
  }

  lemma SpanUnique(rows: seq<Row>, key: string, first: nat, last: nat)
    requires Spans(rows, key, first, last)
    ensures Steady(rows, key) <==> SameSort(rows[first], rows[last])
  {
    forall a: nat, b: nat | Spans(rows, key, a, b) ensures a == first && b == last {
      assert !(a < first) && !(first < a) && !(b < last) && !(last < b);
    }
  }

  /** The entry of a key: kind of the first row, tuple of the last. */
  lemma EntryOfKey(rows: seq<Row>, i: nat) returns (first: nat, last: nat, j: nat)
    requires i < |rows|
    ensures Spans(rows, KeyOf(rows[i]), first, last)
    ensures IsLast(PutAll(rows), j) && PutAll(rows)[j] == rows[first].(tuple := rows[last].tuple)
  {
    var s := PutAll(rows);
    var idx := PutAllCoalesces(rows);
    first := FirstOf(rows, i);
    last := LastOf(rows, i);
    assert Listed(rows, idx, last);
    j :| 0 <= j < |idx| && idx[j] == last;
    assert EntryFor(rows, idx[j], s[j]);
    CoalescedKeys(rows, s, idx);
  }

  /** The entries leave the same value under a key as the rows if and only if the first and the last row
      of the key are both deletes or neither is. */
  lemma StoredExactly(store: Store, rows: seq<Row>, key: string)
    ensures Value(Replay(store, PutAll(rows)), key) == Value(Replay(store, rows), key) <==> Steady(rows, key)
  {
    if key in Keys(rows) {
      var i :| 0 <= i < |rows| && KeyOf(rows[i]) == key;
      var first, last, j := EntryOfKey(rows, i);
      ReplayLast(store, rows, last);
      ReplayLast(store, PutAll(rows), j);
      SpanUnique(rows, key, first, last);
    } else {
      var idx := PutAllCoalesces(rows);
      CoalescedKeySet(rows, PutAll(rows), idx);
      ReplayOther(store, rows, key);
      ReplayOther(store, PutAll(rows), key);
      NoSpan(rows, key);
    }
  }

  lemma NoSpan(rows: seq<Row>, key: string)
    requires key !in Keys(rows)
    ensures Steady(rows, key)
  {
    assert forall i :: 0 <= i < |rows| ==> KeyOf(rows[i]) in Keys(rows);
  }

  /** So the whole store is that of the rows if and only if this is so for every key. */
  lemma StoreExactly(store: Store, rows: seq<Row>)
    ensures Replay(store, PutAll(rows)) == Replay(store, rows) <==> forall key :: Steady(rows, key)
  {
    var a, b := Replay(store, PutAll(rows)), Replay(store, rows);
    forall key ensures Value(a, key) == Value(b, key) <==> Steady(rows, key) {
      StoredExactly(store, rows, key);
    }
    if forall key :: Steady(rows, key) {
      SameValues(a, b);
    }
  }

  lemma SameValues(a: Store, b: Store)
    requires forall key :: Value(a, key) == Value(b, key)
    ensures a == b
  {
    forall key ensures key in a <==> key in b {
      assert Value(a, key) == Value(b, key);
    }
    forall key | key in a ensures a[key] == b[key] {
      assert Value(a, key) == Value(b, key);
    }
  }

  /** A row that is inserted and deleted in one transaction is inserted. */
  lemma InsertedAndDeleted(tuple: Tuple)
    ensures var rows := [NewRow("t", "1", Insert, tuple, None), NewRow("t", "1", Delete, tuple, None)];
      && PutAll(rows) == [NewRow("t", "1", Insert, tuple, None)]
      && Replay(map[], rows) == map[]
      && Replay(map[], PutAll(rows)) == map[KeyOf(rows[0]) := tuple]
  {
    var insert, delete := NewRow("t", "1", Insert, tuple, None), NewRow("t", "1", Delete, tuple, None);
    var rows := [insert, delete];
    assert rows[..1] == [insert] && [insert][..0] == [];
    assert PutAll([insert]) == [insert];
    assert Put([insert], delete) == [insert];
    assert Replay(map[], [insert]) == map[KeyOf(insert) := tuple];
  }

  // ---- rows that come again

  /** Each key that occurs in `p` occurs there first as it does in `rows`. */
  ghost predicate StartsAlike(p: seq<Row>, rows: seq<Row>)
  {
    forall a: nat {:trigger IsFirst(p, a)} :: IsFirst(p, a) ==> FirstRow(rows, p[a])
  }

  ghost predicate FirstRow(rows: seq<Row>, row: Row)
  {
    exists b: nat :: IsFirst(rows, b) && rows[b] == row
  }

  /** So it is for the first rows of a transaction, received any number of times. */
  lemma PrefixAlike(p: seq<Row>, q: seq<Row>, rows: seq<Row>)
    requires StartsAlike(p, rows) && q <= rows
    ensures StartsAlike(p + q, rows)
  {
    var both := p + q;
    forall a: nat | IsFirst(both, a) ensures FirstRow(rows, both[a]) {
      if a < |p| {
        assert forall j :: 0 <= j <= a ==> both[j] == p[j];
        assert IsFirst(p, a);
      } else {
        var b := a - |p|;
        assert forall j :: 0 <= j <= b ==> both[|p| + j] == q[j] == rows[j];
        assert IsFirst(rows, b) && rows[b] == both[a];
      }
    }
  }

  lemma KeyAgain(p: seq<Row>, rows: seq<Row>, k: nat)
    requires StartsAlike(p, rows) && k < |p|
    ensures KeyOf(p[k]) in Keys(rows)
  {
    var a := FirstOf(p, k);
    assert FirstRow(rows, p[a]);
  }

  /** The last writes are those of the rows, shifted. */
  lemma LastAgain(p: seq<Row>, rows: seq<Row>, k: nat)
    requires StartsAlike(p, rows)
    ensures IsLast(p + rows, k) <==> k >= |p| && IsLast(rows, k - |p|)
  {
    var both, n := p + rows, |p|;
    assert forall i :: 0 <= i < |rows| ==> both[n + i] == rows[i];
    if k < n {
      KeyAgain(p, rows, k);
      var i :| 0 <= i < |rows| && KeyOf(rows[i]) == KeyOf(p[k]);
      assert both[k] == p[k] && KeyOf(both[n + i]) == KeyOf(both[k]);
    } else if k < |both| && IsLast(both, k) {
      forall j | k - n < j < |rows| ensures KeyOf(rows[j]) != KeyOf(rows[k - n]) {
        assert both[n + j] == rows[j];
      }
    }
  }

  /** The first write of a key is the same row. */
  lemma FirstAgain(p: seq<Row>, rows: seq<Row>, a: nat, b: nat)
    requires StartsAlike(p, rows) && IsFirst(p + rows, a) && IsFirst(rows, b) && KeyOf((p + rows)[a]) == KeyOf(rows[b])
    ensures (p + rows)[a] == rows[b]
  {
    var both, n := p + rows, |p|;
    if a < n {
      assert forall j :: 0 <= j <= a ==> both[j] == p[j];
      assert IsFirst(p, a) && FirstRow(rows, p[a]);
    } else {
      assert forall j :: 0 <= j <= a - n ==> both[n + j] == rows[j];
      assert IsFirst(rows, a - n);
    }
  }

  lemma EntryAgain(p: seq<Row>, rows: seq<Row>, last: nat, e: Row)
    requires StartsAlike(p, rows) && last < |rows| && EntryFor(p + rows, |p| + last, e)
    ensures EntryFor(rows, last, e)
  {
    var both := p + rows;
    assert both[|p| + last] == rows[last];
    forall first: nat | IsFirst(rows, first) && KeyOf(rows[first]) == KeyOf(rows[last])
      ensures e == rows[first].(tuple := rows[last].tuple)
    {
      var a := FirstOf(both, |p| + last);
      FirstAgain(p, rows, a, first);
    }
  }

  lemma Shifted(p: seq<Row>, rows: seq<Row>, idx: seq<nat>) returns (shifted: seq<nat>)
    requires StartsAlike(p, rows) && LastWrites(p + rows, idx)
    ensures LastWrites(rows, shifted) && |shifted| == |idx|
    ensures forall j :: 0 <= j < |idx| ==> idx[j] == |p| + shifted[j]
  {
    var both, n := p + rows, |p|;
    forall j | 0 <= j < |idx| ensures idx[j] >= n && IsLast(rows, idx[j] - n) {
      assert IsLast(both, idx[j]);
      LastAgain(p, rows, idx[j]);
    }
    shifted := seq(|idx|, j requires 0 <= j < |idx| => idx[j] - n);
    forall k: nat ensures Listed(rows, shifted, k) {
      if IsLast(rows, k) {
        LastAgain(p, rows, n + k);
        assert Listed(both, idx, n + k);
        var j :| 0 <= j < |idx| && idx[j] == n + k;
        assert shifted[j] == k;
      }
    }
  }

  /** The entries are those of the rows. */
  lemma RowsAgain(p: seq<Row>, rows: seq<Row>)
    requires StartsAlike(p, rows)
    ensures PutAll(p + rows) == PutAll(rows)
  {
    var s := PutAll(p + rows);
    var idx := PutAllCoalesces(p + rows);
    var shifted := Shifted(p, rows, idx);
    forall j | 0 <= j < |shifted| ensures EntryFor(rows, shifted[j], s[j]) {
      assert IsLast(rows, shifted[j]) && EntryFor(p + rows, idx[j], s[j]);
      EntryAgain(p, rows, shifted[j], s[j]);
    }
    var idx' := PutAllCoalesces(rows);
    CoalescedUnique(rows, s, shifted, PutAll(rows), idx');
  }
}
