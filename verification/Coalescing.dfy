/** What one transaction's rows become: one entry per row key, in the order of the last writes. */
module Coalescing {
  import opened WriteQueues
  import opened Wal

  /** A decoded row of a transaction under its row key. */
  datatype Row = Row(key: string, table: string, pk: string, kind: OpKind, tuple: Tuple, prev: Option<Tuple>)

  /** The row key is the table's name and the primary key. */
  function NewRow(table: string, pk: string, kind: OpKind, tuple: Tuple, prev: Option<Tuple>): Row
  {
    Row(table + ":" + pk, table, pk, kind, tuple, prev)
  }

  function KeyOf(row: Row): string
  {
    row.key
  }

  // ---- the reference

  ghost predicate IsFirst(rows: seq<Row>, i: nat)
  {
    i < |rows| && forall j :: 0 <= j < i ==> KeyOf(rows[j]) != KeyOf(rows[i])
  }

  ghost predicate IsLast(rows: seq<Row>, i: nat)
  {
    i < |rows| && forall j :: i < j < |rows| ==> KeyOf(rows[j]) != KeyOf(rows[i])
  }

  ghost predicate Increasing(idx: seq<nat>)
  {
    forall a, b :: 0 <= a < b < |idx| ==> idx[a] < idx[b]
  }

  /** `idx` lists the positions of the last writes, in order. */
  ghost predicate LastWrites(rows: seq<Row>, idx: seq<nat>)
  {
    && Increasing(idx)
    && (forall j :: 0 <= j < |idx| ==> IsLast(rows, idx[j]))
    && (forall k: nat {:trigger Listed(rows, idx, k)} :: Listed(rows, idx, k))
  }

  ghost predicate Listed(rows: seq<Row>, idx: seq<nat>, k: nat)
  {
    IsLast(rows, k) ==> k in idx
  }

  /** The entry for the last write of a key: its tuple; kind and previous tuple of the first write. */
  ghost predicate EntryFor(rows: seq<Row>, last: nat, e: Row)
  {
    && last < |rows| && KeyOf(e) == KeyOf(rows[last]) && e.tuple == rows[last].tuple
    && forall first: nat :: IsFirst(rows, first) && KeyOf(rows[first]) == KeyOf(rows[last])
         ==> e == rows[first].(tuple := rows[last].tuple)
  }

  ghost predicate CoalescedAt(rows: seq<Row>, s: seq<Row>, idx: seq<nat>)
  {
    && LastWrites(rows, idx) && |s| == |idx|
    && forall j :: 0 <= j < |idx| ==> EntryFor(rows, idx[j], s[j])
  }

  ghost predicate IsCoalesced(rows: seq<Row>, s: seq<Row>)
  {
    exists idx :: CoalescedAt(rows, s, idx)
  }

  // ---- the incremental form

  function IndexOfKey(s: seq<Row>, key: string): (i: nat)
    ensures i <= |s|
    ensures i < |s| ==> KeyOf(s[i]) == key
    ensures forall j :: 0 <= j < i ==> KeyOf(s[j]) != key
  {
    if s == [] || KeyOf(s[0]) == key then 0 else
      var i := IndexOfKey(s[1..], key);
      assert forall j :: 0 < j < |s| ==> s[j] == s[1..][j - 1];
      i + 1
  }

  /** A row of a known key replaces the tuple and moves the entry to the end. */
  function Put(s: seq<Row>, row: Row): seq<Row>
  {
    var i := IndexOfKey(s, KeyOf(row));
    if i < |s| then s[..i] + s[i + 1..] + [s[i].(tuple := row.tuple)] else s + [row]
  }

  function PutAll(rows: seq<Row>): seq<Row>
  {
    if rows == [] then [] else Put(PutAll(rows[..|rows| - 1]), rows[|rows| - 1])
  }

  ghost predicate DistinctKeys(s: seq<Row>)
  {
    forall i, j :: 0 <= i < j < |s| ==> KeyOf(s[i]) != KeyOf(s[j])
  }

  // ---- they agree

  /** The incremental form computes the reference. */
  lemma {:induction false} PutAllCoalesces(rows: seq<Row>) returns (idx: seq<nat>)
    ensures CoalescedAt(rows, PutAll(rows), idx)
  {
    if rows == [] {
      idx := [];
    } else {
      var n := |rows| - 1;
      var before := PutAllCoalesces(rows[..n]);
      assert rows == rows[..n] + [rows[n]];
      idx := PutCoalesces(rows[..n], PutAll(rows[..n]), before, rows[n]);
    }
  }

  lemma PutCoalesces(rows: seq<Row>, s: seq<Row>, idx: seq<nat>, row: Row) returns (idx': seq<nat>)
    requires CoalescedAt(rows, s, idx)
    ensures CoalescedAt(rows + [row], Put(s, row), idx')
  {
    var p := IndexOfKey(s, KeyOf(row));
    idx' := (if p < |s| then idx[..p] + idx[p + 1..] else idx) + [|rows|];
    PutLastWrites(rows, s, idx, row, p, idx');
    PutEntries(rows, s, idx, row, p, idx');
  }

  lemma LastMore(rows: seq<Row>, row: Row)
    ensures forall i: nat {:trigger IsLast(rows + [row], i)} :: i < |rows| ==>
      (IsLast(rows + [row], i) <==> IsLast(rows, i) && KeyOf(rows[i]) != KeyOf(row))
    ensures IsLast(rows + [row], |rows|)
  {
    var more := rows + [row];
    forall i: nat | i < |rows| ensures IsLast(more, i) <==> IsLast(rows, i) && KeyOf(rows[i]) != KeyOf(row) {
      if IsLast(more, i) {
        assert more[|rows|] == row;
        forall j | i < j < |rows| ensures KeyOf(rows[j]) != KeyOf(rows[i]) {
          assert more[j] == rows[j];
        }
      }
    }
  }

  /** The entry with the key of `row`, if any, is at the position of that key's last write. */
  lemma KeyPosition(rows: seq<Row>, s: seq<Row>, idx: seq<nat>, row: Row, k: nat)
    requires CoalescedAt(rows, s, idx) && IsLast(rows, k) && KeyOf(rows[k]) == KeyOf(row)
    ensures var p := IndexOfKey(s, KeyOf(row)); p < |s| && idx[p] == k
  {
    assert Listed(rows, idx, k);
    var j :| 0 <= j < |idx| && idx[j] == k;
    assert EntryFor(rows, idx[j], s[j]);
    var p := IndexOfKey(s, KeyOf(row));
    assert EntryFor(rows, idx[p], s[p]) && IsLast(rows, idx[p]);
  }

  lemma PutLastWrites(rows: seq<Row>, s: seq<Row>, idx: seq<nat>, row: Row, p: nat, idx': seq<nat>)
    requires CoalescedAt(rows, s, idx) && p == IndexOfKey(s, KeyOf(row))
    requires idx' == (if p < |s| then idx[..p] + idx[p + 1..] else idx) + [|rows|]
    ensures LastWrites(rows + [row], idx')
  {
    DropAppend(idx, p, |rows|, idx') by {
      forall j | 0 <= j < |idx| ensures idx[j] < |rows| { assert IsLast(rows, idx[j]); }
    }
    LastMore(rows, row);
    forall j | 0 <= j < |idx'| ensures IsLast(rows + [row], idx'[j]) {
      if j < |idx'| - 1 {
        OtherKey(rows, s, idx, row, if j < p then j else j + 1);
      }
    }
    forall k: nat ensures Listed(rows + [row], idx', k) {
      PutComplete(rows, s, idx, row, idx', k);
    }
  }

  lemma DropAppend(idx: seq<nat>, p: nat, n: nat, idx': seq<nat>)
    requires Increasing(idx) && p <= |idx| && forall j :: 0 <= j < |idx| ==> idx[j] < n
    requires idx' == (if p < |idx| then idx[..p] + idx[p + 1..] else idx) + [n]
    ensures Increasing(idx')
    ensures forall j :: 0 <= j < |idx'| - 1 ==> idx'[j] == idx[if j < p then j else j + 1]
    ensures n in idx' && forall j :: 0 <= j < |idx| && j != p ==> idx[j] in idx'
  {
    assert idx'[|idx'| - 1] == n;
    forall j | 0 <= j < |idx| && j != p ensures idx[j] in idx' {
      assert idx'[if j < p then j else j - 1] == idx[j];
    }
  }

  lemma PutComplete(rows: seq<Row>, s: seq<Row>, idx: seq<nat>, row: Row, idx': seq<nat>, k: nat)
    requires CoalescedAt(rows, s, idx) && |rows| in idx'
    requires forall j :: 0 <= j < |idx| && j != IndexOfKey(s, KeyOf(row)) ==> idx[j] in idx'
    ensures Listed(rows + [row], idx', k)
  {
    LastMore(rows, row);
    if IsLast(rows + [row], k) && k < |rows| {
      var j := StillThere(rows, s, idx, row, k);
    }
  }

  lemma OtherKey(rows: seq<Row>, s: seq<Row>, idx: seq<nat>, row: Row, i: nat)
    requires CoalescedAt(rows, s, idx) && i < |idx| && i != IndexOfKey(s, KeyOf(row))
    ensures IsLast(rows, idx[i]) && KeyOf(rows[idx[i]]) != KeyOf(row)
  {
    assert IsLast(rows, idx[i]);
    if KeyOf(rows[idx[i]]) == KeyOf(row) {
      KeyPosition(rows, s, idx, row, idx[i]);
    }
  }

  lemma StillThere(rows: seq<Row>, s: seq<Row>, idx: seq<nat>, row: Row, k: nat) returns (j: nat)
    requires CoalescedAt(rows, s, idx) && IsLast(rows, k) && KeyOf(rows[k]) != KeyOf(row)
    ensures j < |idx| && idx[j] == k && j != IndexOfKey(s, KeyOf(row))
  {
    assert Listed(rows, idx, k);
    j :| 0 <= j < |idx| && idx[j] == k;
    assert EntryFor(rows, idx[j], s[j]);
  }

  lemma EntryMore(rows: seq<Row>, row: Row, last: nat, e: Row)
    requires EntryFor(rows, last, e)
    ensures EntryFor(rows + [row], last, e)
    ensures KeyOf(row) == KeyOf(e) ==> EntryFor(rows + [row], |rows|, e.(tuple := row.tuple))
  {
    var more := rows + [row];
    forall first: nat | IsFirst(more, first) && KeyOf(more[first]) == KeyOf(rows[last]) ensures IsFirst(rows, first) {
      assert more[last] == rows[last];
      assert forall j :: 0 <= j < |rows| ==> more[j] == rows[j];
    }
  }

  lemma EntryNew(rows: seq<Row>, row: Row)
    requires forall i :: 0 <= i < |rows| ==> KeyOf(rows[i]) != KeyOf(row)
    ensures EntryFor(rows + [row], |rows|, row)
  {
  }

  lemma {:induction false} LastOf(rows: seq<Row>, i: nat) returns (k: nat)
    requires i < |rows|
    ensures IsLast(rows, k) && KeyOf(rows[k]) == KeyOf(rows[i])
    decreases |rows| - i
  {
    if IsLast(rows, i) {
      k := i;
    } else {
      var j :| i < j < |rows| && KeyOf(rows[j]) == KeyOf(rows[i]);
      k := LastOf(rows, j);
    }
  }

  lemma PutEntries(rows: seq<Row>, s: seq<Row>, idx: seq<nat>, row: Row, p: nat, idx': seq<nat>)
    requires CoalescedAt(rows, s, idx) && p == IndexOfKey(s, KeyOf(row))
    requires idx' == (if p < |s| then idx[..p] + idx[p + 1..] else idx) + [|rows|]
    ensures |Put(s, row)| == |idx'|
    ensures forall j :: 0 <= j < |idx'| ==> EntryFor(rows + [row], idx'[j], Put(s, row)[j])
  {
    var s' := Put(s, row);
    forall j | 0 <= j < |idx'| ensures EntryFor(rows + [row], idx'[j], s'[j]) {
      if j < |idx'| - 1 {
        Dropped(idx, p, |rows|, j);
        Dropped(s, p, s'[|s'| - 1], j);
        EntryKept(rows, s, idx, row, if j < p then j else j + 1);
      } else if p < |s| {
        EntryKept(rows, s, idx, row, p);
      } else {
        NewKey(rows, s, idx, row);
        EntryNew(rows, row);
      }
    }
  }

  lemma Dropped<T>(s: seq<T>, p: nat, x: T, j: nat)
    requires p <= |s| && j < if p < |s| then |s| - 1 else |s|
    ensures ((if p < |s| then s[..p] + s[p + 1..] else s) + [x])[j] == s[if j < p then j else j + 1]
  {
  }

  lemma EntryKept(rows: seq<Row>, s: seq<Row>, idx: seq<nat>, row: Row, i: nat)
    requires CoalescedAt(rows, s, idx) && i < |idx|
    ensures EntryFor(rows + [row], idx[i], s[i])
    ensures KeyOf(row) == KeyOf(s[i]) ==> EntryFor(rows + [row], |rows|, s[i].(tuple := row.tuple))
  {
    assert EntryFor(rows, idx[i], s[i]);
    EntryMore(rows, row, idx[i], s[i]);
  }

  lemma NewKey(rows: seq<Row>, s: seq<Row>, idx: seq<nat>, row: Row)
    requires CoalescedAt(rows, s, idx) && IndexOfKey(s, KeyOf(row)) == |s|
    ensures forall i :: 0 <= i < |rows| ==> KeyOf(rows[i]) != KeyOf(row)
  {
    forall i: nat | i < |rows| ensures KeyOf(rows[i]) != KeyOf(row) {
      var k := LastOf(rows, i);
      if KeyOf(rows[i]) == KeyOf(row) { KeyPosition(rows, s, idx, row, k); }
    }
  }

  // ---- what the reference says

  /** One entry for each key of the rows. */
  lemma CoalescedKeys(rows: seq<Row>, s: seq<Row>, idx: seq<nat>)
    requires CoalescedAt(rows, s, idx)
    ensures DistinctKeys(s)
  {
    forall i, j | 0 <= i < j < |s| ensures KeyOf(s[i]) != KeyOf(s[j]) {
      assert EntryFor(rows, idx[i], s[i]) && EntryFor(rows, idx[j], s[j]);
      assert IsLast(rows, idx[i]) && idx[i] < idx[j];
    }
  }

  lemma CoalescedKeySet(rows: seq<Row>, s: seq<Row>, idx: seq<nat>)
    requires CoalescedAt(rows, s, idx)
    ensures Keys(s) == Keys(rows)
  {
    forall key | key in Keys(rows) ensures key in Keys(s) {
      var i :| 0 <= i < |rows| && KeyOf(rows[i]) == key;
      var k := LastOf(rows, i);
      assert Listed(rows, idx, k);
      var j :| 0 <= j < |idx| && idx[j] == k;
      assert EntryFor(rows, idx[j], s[j]);
    }
    forall key | key in Keys(s) ensures key in Keys(rows) {
      var j :| 0 <= j < |s| && KeyOf(s[j]) == key;
      assert EntryFor(rows, idx[j], s[j]);
    }
  }

  function Keys(rows: seq<Row>): set<string>
  {
    set i | 0 <= i < |rows| :: KeyOf(rows[i])
  }

  /** The reference leaves no choice. */
  lemma CoalescedUnique(rows: seq<Row>, s: seq<Row>, idx: seq<nat>, t: seq<Row>, idx': seq<nat>)
    requires CoalescedAt(rows, s, idx) && CoalescedAt(rows, t, idx')
    ensures s == t
  {
    forall x: nat ensures x in idx <==> x in idx' {
      assert Listed(rows, idx, x) && Listed(rows, idx', x);
    }
    SameEnumeration(idx, idx');
    forall j | 0 <= j < |s| ensures s[j] == t[j] {
      assert EntryFor(rows, idx[j], s[j]) && EntryFor(rows, idx[j], t[j]);
      var first := FirstOf(rows, idx[j]);
    }
  }

  lemma {:induction false} FirstOf(rows: seq<Row>, i: nat) returns (k: nat)
    requires i < |rows|
    ensures k <= i && KeyOf(rows[k]) == KeyOf(rows[i]) && IsFirst(rows, k)
  {
    if IsFirst(rows, i) {
      k := i;
    } else {
      var j :| 0 <= j < i && KeyOf(rows[j]) == KeyOf(rows[i]);
      k := FirstOf(rows, j);
    }
  }

  lemma {:induction false} SameEnumeration(a: seq<nat>, b: seq<nat>)
    requires Increasing(a) && Increasing(b)
    requires forall x :: x in a <==> x in b
    ensures a == b
  {
    assert a == [] <==> b == [] by {
      if a != [] { assert a[0] in b; }
      if b != [] { assert b[0] in a; }
    }
    if a != [] {
      var m, n := |a| - 1, |b| - 1;
      assert a[m] in b && b[n] in a;
      assert a[m] == b[n];
      forall x ensures x in a[..m] <==> x in b[..n] {
        assert x in a <==> x in a[..m] || x == a[m];
        assert x in b <==> x in b[..n] || x == b[n];
      }
      SameEnumeration(a[..m], b[..n]);
      assert a == a[..m] + [a[m]] && b == b[..n] + [b[n]];
    }
  }
}
