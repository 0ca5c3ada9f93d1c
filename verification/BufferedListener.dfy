/** `PGBufferedListener` and its `txList` as objects updated in place, proved against `Listener`. */
module BufferedListener {
  import opened WriteQueues
  import opened Wal
  import opened Coalescing
  import Listener

  // ---- a linked list by element numbers, with a map from keys to elements

  ghost predicate NoRepeat(order: seq<nat>)
  {
    forall i, j :: 0 <= i < j < |order| ==> order[i] != order[j]
  }

  ghost predicate ElementOk(elements: map<nat, Row>, keys: map<string, nat>, next: nat, id: nat)
  {
    id < next && id in elements && KeyOf(elements[id]) in keys && keys[KeyOf(elements[id])] == id
  }

  ghost predicate KeyOk(order: seq<nat>, elements: map<nat, Row>, keys: map<string, nat>, key: string)
  {
    key in keys ==> keys[key] in order && keys[key] in elements && KeyOf(elements[keys[key]]) == key
  }

  ghost predicate ListOk(order: seq<nat>, elements: map<nat, Row>, keys: map<string, nat>, next: nat)
  {
    && NoRepeat(order)
    && (forall i :: 0 <= i < |order| ==> ElementOk(elements, keys, next, order[i]))
    && (forall key {:trigger KeyOk(order, elements, keys, key)} :: KeyOk(order, elements, keys, key))
  }

  ghost function RowsAt(order: seq<nat>, elements: map<nat, Row>): (r: seq<Row>)
    requires forall i :: 0 <= i < |order| ==> order[i] in elements
    ensures |r| == |order| && forall i :: 0 <= i < |r| ==> r[i] == elements[order[i]]
  {
    seq(|order|, i requires 0 <= i < |order| => elements[order[i]])
  }

  lemma KeyIndex(order: seq<nat>, elements: map<nat, Row>, keys: map<string, nat>, next: nat, key: string)
    requires ListOk(order, elements, keys, next)
    ensures var i := IndexOfKey(RowsAt(order, elements), key);
      && (key in keys <==> i < |order|)
      && (key in keys ==> order[i] == keys[key])
  {
    var rows := RowsAt(order, elements);
    var i := IndexOfKey(rows, key);
    assert KeyOk(order, elements, keys, key);
    if i < |order| {
      assert ElementOk(elements, keys, next, order[i]);
    }
    if key in keys {
      var j :| 0 <= j < |order| && order[j] == keys[key];
      assert KeyOf(rows[j]) == key;
    }
  }

  lemma AddOk(order: seq<nat>, elements: map<nat, Row>, keys: map<string, nat>, next: nat, row: Row)
    requires ListOk(order, elements, keys, next) && KeyOf(row) !in keys
    ensures ListOk(order + [next], elements[next := row], keys[KeyOf(row) := next], next + 1)
    ensures RowsAt(order + [next], elements[next := row]) == RowsAt(order, elements) + [row]
  {
    var order', elements', keys' := order + [next], elements[next := row], keys[KeyOf(row) := next];
    forall i | 0 <= i < |order'| ensures ElementOk(elements', keys', next + 1, order'[i]) {
      if i < |order| { assert ElementOk(elements, keys, next, order[i]); }
    }
    forall key ensures KeyOk(order', elements', keys', key) {
      assert KeyOk(order, elements, keys, key);
      assert order'[|order|] == next;
      if key in keys {
        var j :| 0 <= j < |order| && order[j] == keys[key];
        assert order'[j] == keys[key] && ElementOk(elements, keys, next, order[j]);
      }
    }
    forall i, j | 0 <= i < j < |order'| ensures order'[i] != order'[j] {
      assert ElementOk(elements, keys, next, order[i]);
    }
  }

  lemma SetOk(order: seq<nat>, elements: map<nat, Row>, keys: map<string, nat>, next: nat, key: string, tuple: Tuple)
    requires ListOk(order, elements, keys, next) && key in keys && keys[key] in elements
    ensures var elements' := elements[keys[key] := elements[keys[key]].(tuple := tuple)];
      && ListOk(order, elements', keys, next)
      && RowsAt(order, elements') == Updated(RowsAt(order, elements), key, tuple)
  {
    var id := keys[key];
    var elements' := elements[id := elements[id].(tuple := tuple)];
    assert KeyOk(order, elements, keys, key);
    KeyIndex(order, elements, keys, next, key);
    forall i | 0 <= i < |order| ensures ElementOk(elements', keys, next, order[i]) {
      assert ElementOk(elements, keys, next, order[i]);
    }
    forall k ensures KeyOk(order, elements', keys, k) {
      assert KeyOk(order, elements, keys, k);
    }
  }

  lemma MoveOk(order: seq<nat>, elements: map<nat, Row>, keys: map<string, nat>, next: nat, key: string)
    requires ListOk(order, elements, keys, next) && key in keys
    ensures ListOk(Remove(order, keys[key]) + [keys[key]], elements, keys, next)
    ensures RowsAt(Remove(order, keys[key]) + [keys[key]], elements) == Moved(RowsAt(order, elements), key)
  {
    KeyIndex(order, elements, keys, next, key);
    var p := IndexOfKey(RowsAt(order, elements), key);
    RemoveAt(order, p);
    var order' := order[..p] + order[p + 1..] + [order[p]];
    MovedOrder(order, p);
    forall i | 0 <= i < |order'| ensures ElementOk(elements, keys, next, order'[i]) {
      assert order'[i] in order;
    }
    forall k ensures KeyOk(order', elements, keys, k) {
      assert KeyOk(order, elements, keys, k);
    }
    MovedRows(order, elements, key, p);
  }

  lemma MovedOrder(order: seq<nat>, p: nat)
    requires NoRepeat(order) && p < |order|
    ensures var order' := order[..p] + order[p + 1..] + [order[p]];
      NoRepeat(order') && forall x :: x in order' <==> x in order
  {
    var order' := order[..p] + order[p + 1..] + [order[p]];
    forall x ensures x in order' <==> x in order {
      assert order == order[..p] + [order[p]] + order[p + 1..];
    }
  }

  lemma MovedRows(order: seq<nat>, elements: map<nat, Row>, key: string, p: nat)
    requires forall i :: 0 <= i < |order| ==> order[i] in elements
    requires p < |order| && p == IndexOfKey(RowsAt(order, elements), key)
    ensures var order' := order[..p] + order[p + 1..] + [order[p]];
      && (forall i :: 0 <= i < |order'| ==> order'[i] in elements)
      && RowsAt(order', elements) == Moved(RowsAt(order, elements), key)
  {
    var order' := order[..p] + order[p + 1..] + [order[p]];
    assert forall i :: 0 <= i < |order'| ==> order'[i] == order[if i < p then i else if i < |order| - 1 then i + 1
        else p];
  }

  function Remove(order: seq<nat>, id: nat): seq<nat>
  {
    if order == [] then [] else if order[0] == id then order[1..] else [order[0]] + Remove(order[1..], id)
  }

  lemma {:induction false} RemoveAt(order: seq<nat>, p: nat)
    requires NoRepeat(order) && p < |order|
    ensures Remove(order, order[p]) == order[..p] + order[p + 1..]
  {
    if p > 0 {
      assert order[1..][p - 1] == order[p];
      RemoveAt(order[1..], p - 1);
      assert order[..p] == [order[0]] + order[1..][..p - 1];
    }
  }

  ghost function Updated(s: seq<Row>, key: string, tuple: Tuple): seq<Row>
  {
    var i := IndexOfKey(s, key);
    if i < |s| then s[i := s[i].(tuple := tuple)] else s
  }

  ghost function Moved(s: seq<Row>, key: string): seq<Row>
  {
    var i := IndexOfKey(s, key);
    if i < |s| then s[..i] + s[i + 1..] + [s[i]] else s
  }

  lemma SameIndex(s: seq<Row>, t: seq<Row>, key: string)
    requires |s| == |t| && forall j :: 0 <= j < |s| ==> KeyOf(t[j]) == KeyOf(s[j])
    ensures IndexOfKey(t, key) == IndexOfKey(s, key)
  {
  }

  lemma UpdatedKeys(s: seq<Row>, i: nat, tuple: Tuple, key: string)
    requires i < |s|
    ensures IndexOfKey(s[i := s[i].(tuple := tuple)], key) == IndexOfKey(s, key)
  {
    var t := s[i := s[i].(tuple := tuple)];
    forall j | 0 <= j < |s| ensures KeyOf(t[j]) == KeyOf(s[j]) {}
    SameIndex(s, t, key);
  }

  lemma PutIsUpdateAndMove(s: seq<Row>, row: Row)
    requires IndexOfKey(s, KeyOf(row)) < |s|
    ensures Put(s, row) == Moved(Updated(s, KeyOf(row), row.tuple), KeyOf(row))
  {
    UpdatedMoved(s, KeyOf(row), row.tuple, IndexOfKey(s, KeyOf(row)));
  }

  lemma UpdatedMoved(s: seq<Row>, key: string, tuple: Tuple, i: nat)
    requires i == IndexOfKey(s, key) < |s|
    ensures Moved(Updated(s, key, tuple), key) == s[..i] + s[i + 1..] + [s[i].(tuple := tuple)]
  {
    UpdatedKeys(s, i, tuple, key);
    UpdateApart(s, i, s[i].(tuple := tuple));
  }

  lemma UpdateApart<T>(s: seq<T>, i: nat, x: T)
    requires i < |s|
    ensures s[..i] + s[i + 1..] + [x] == s[i := x][..i] + s[i := x][i + 1..] + [s[i := x][i]]
  {
    assert s[i := x][..i] == s[..i] && s[i := x][i + 1..] == s[i + 1..];
  }

  class TxList {
    var order: seq<nat>
    var elements: map<nat, Row>
    var keys: map<string, nat>
    var next: nat

    ghost predicate Valid()
      reads this
    {
      ListOk(order, elements, keys, next)
    }

    ghost function Rows(): seq<Row>
      requires Valid()
      reads this
    {
      assert forall i :: 0 <= i < |order| ==> ElementOk(elements, keys, next, order[i]);
      RowsAt(order, elements)
    }

    constructor ()
      ensures Valid() && Rows() == []
    {
      order, elements, keys, next := [], map[], map[], 0;
    }

    method Has(key: string) returns (found: bool)
      requires Valid()
      ensures found == (key in keys) == (IndexOfKey(Rows(), key) < |Rows()|)
    {
      KeyIndex(order, elements, keys, next, key);
      found := key in keys;
    }

    method Add(row: Row)
      requires Valid() && KeyOf(row) !in keys
      modifies this
      ensures Valid() && Rows() == old(Rows()) + [row]
    {
      AddOk(order, elements, keys, next, row);
      order, elements, keys, next := order + [next], elements[next := row], keys[KeyOf(row) := next], next + 1;
    }

    /** `existingEntry.Tuple = data` */
    method SetTuple(key: string, tuple: Tuple)
      requires Valid() && key in keys
      modifies this`elements
      ensures Valid() && Rows() == Updated(old(Rows()), key, tuple)
    {
      assert KeyOk(order, elements, keys, key);
      SetOk(order, elements, keys, next, key, tuple);
      var id := keys[key];
      elements := elements[id := elements[id].(tuple := tuple)];
    }

    method MoveKeyToEnd(key: string)
      requires Valid()
      modifies this`order
      ensures Valid() && Rows() == Moved(old(Rows()), key)
    {
      KeyIndex(order, elements, keys, next, key);
      if key in keys {
        MoveOk(order, elements, keys, next, key);
        order := Remove(order, keys[key]) + [keys[key]];
      }
    }

    /** `appendToTxCache` once the row has been decoded. */
    method Append(row: Row)
      requires Valid()
      modifies this
      ensures Valid() && Rows() == Put(old(Rows()), row)
    {
      var found := Has(KeyOf(row));
      if found {
        PutIsUpdateAndMove(Rows(), row);
        SetTuple(KeyOf(row), row.tuple);
        MoveKeyToEnd(KeyOf(row));
      } else {
        Add(row);
      }
    }

    /** The loop of `sendToLSNTracker`. */
    method Entries() returns (entries: seq<WriteEntry>)
      requires Valid()
      ensures entries == Listener.Numbered(Rows())
    {
      entries := [];
      for i := 0 to |order|
        invariant entries == Listener.Numbered(Rows()[..i])
      {
        assert ElementOk(elements, keys, next, order[i]);
        entries := entries + [Listener.EntryOf(elements[order[i]], i)];
      }
      assert Rows()[..|order|] == Rows();
    }
  }

  // ---- the listener

  ghost predicate CacheValid(cache: map<Xid, TxList>)
    reads cache.Values
  {
    && (forall x <- cache :: cache[x].Valid())
    && (forall x, y :: x in cache && y in cache && x != y ==> cache[x] != cache[y])
  }

  ghost function CacheRows(cache: map<Xid, TxList>): (m: map<Xid, seq<Row>>)
    requires CacheValid(cache)
    reads cache.Values
    ensures m.Keys == cache.Keys && forall x <- cache :: m[x] == cache[x].Rows()
  {
    map x | x in cache :: cache[x].Rows()
  }

  lemma CacheWithout(cache: map<Xid, TxList>, xid: Xid)
    requires CacheValid(cache)
    ensures CacheValid(cache - {xid}) && CacheRows(cache - {xid}) == CacheRows(cache) - {xid}
  {
  }

  lemma CacheWith(cache: map<Xid, TxList>, xid: Xid, entries: TxList)
    requires CacheValid(cache) && xid !in cache && entries.Valid() && entries !in cache.Values
    ensures CacheValid(cache[xid := entries])
    ensures CacheRows(cache[xid := entries]) == CacheRows(cache)[xid := entries.Rows()]
  {
  }

  ghost function RowMessage(xid: Xid, rel: nat, table: string, pk: string, kind: OpKind,
                            data: Option<(Tuple, Option<Tuple>)>): Listener.Message
  {
    Listener.RowChange(xid, rel, match data case Some(d) => Some(NewRow(table, pk, kind, d.0, d.1)) case None => None)
  }

  class PGBufferedListener {
    var txCache: map<Xid, TxList>
    var currentXid: Xid
    var relations: set<nat>
    var sent: seq<WriteRequest>

    ghost predicate Valid()
      reads this, txCache.Values
    {
      CacheValid(txCache)
    }

    ghost function View(): Listener.State
      requires Valid()
      reads this, txCache.Values
    {
      Listener.State(CacheRows(txCache), currentXid, relations, sent)
    }

    constructor ()
      ensures Valid() && View() == Listener.HandleAll([])
    {
      txCache, currentXid, relations, sent := map[], 0, {}, [];
    }

    method OnTxBegin(xid: Xid)
      requires Valid()
      modifies this`currentXid
      ensures Valid() && View() == Listener.Handle(old(View()), Listener.Begin(xid))
    {
      currentXid := xid;
    }

    method SendToLsnTracker(xid: Xid, lsn: Lsn, time: int)
      requires Valid()
      modifies this`sent, this`txCache
      ensures Valid() && View() == Listener.Send(old(View()), xid, lsn, time)
    {
      var entries := EntriesOf(xid);
      sent := sent + [WriteRequest(entries, lsn, xid, time)];
      Forget(xid);
    }

    method EntriesOf(xid: Xid) returns (entries: seq<WriteEntry>)
      requires Valid()
      ensures entries == Listener.Numbered(Listener.Get(View().cache, xid))
    {
      entries := [];
      if xid in txCache {
        entries := txCache[xid].Entries();
      }
    }

    method Forget(xid: Xid)
      requires Valid()
      modifies this`txCache
      ensures Valid() && View() == old(View()).(cache := old(View()).cache - {xid})
    {
      CacheWithout(txCache, xid);
      txCache := txCache - {xid};
    }

    method OnTxCommit(commitLsn: Lsn, endLsn: Lsn, time: int)
      requires Valid()
      modifies this
      ensures Valid() && View() == Listener.Handle(old(View()), Listener.Commit(commitLsn, endLsn, time))
    {
      if currentXid > 0 {
        SendToLsnTracker(currentXid, endLsn, time);
        currentXid := 0;
      }
    }

    method OnStreamCommit(xid: Xid, commitLsn: Lsn, endLsn: Lsn, time: int)
      requires Valid()
      modifies this
      ensures Valid() && View() == Listener.Handle(old(View()), Listener.StreamCommit(xid, commitLsn, endLsn, time))
    {
      SendToLsnTracker(xid, commitLsn, time);
    }

    method OnStreamAbort(xid: Xid)
      requires Valid()
      modifies this`txCache
      ensures Valid() && View() == Listener.Handle(old(View()), Listener.StreamAbort(xid))
    {
      Forget(xid);
    }

    /** `OnInsert`, `OnUpdate` and `OnDelete`; `data` are the decoded tuples. An unknown relation or an
        unreadable tuple is an error that changes nothing. */
    method OnRow(xid: Xid, rel: nat, table: string, pk: string, kind: OpKind, data: Option<(Tuple, Option<Tuple>)>)
      returns (ok: bool)
      requires Valid()
      modifies this`txCache, txCache.Values
      ensures Valid() && ok == !Listener.Rejected(old(View()), RowMessage(xid, rel, table, pk, kind, data))
      ensures View() == Listener.Handle(old(View()), RowMessage(xid, rel, table, pk, kind, data))
    {
      if rel !in relations || data.None? {
        return false;
      }
      var row := NewRow(table, pk, kind, data.value.0, data.value.1);
      AppendToTxCache(if xid == 0 then currentXid else xid, row);
      ok := true;
    }

    method AppendToTxCache(xid: Xid, row: Row)
      requires Valid()
      modifies this`txCache, txCache.Values
      ensures Valid()
      ensures View() == old(View()).(cache := old(View()).cache[xid := Put(Listener.Get(old(View()).cache, xid), row)])
    {
      if xid in txCache {
        AppendTo(xid, row);
      } else {
        AppendNew(xid, row);
      }
    }

    method AppendNew(xid: Xid, row: Row)
      requires Valid() && xid !in txCache
      modifies this`txCache
      ensures Valid()
      ensures View() == old(View()).(cache := old(View()).cache[xid := Put([], row)])
    {
      var entries := FreshList(row);
      Insert(xid, entries);
    }

    static method FreshList(row: Row) returns (entries: TxList)
      ensures fresh(entries) && entries.Valid() && entries.Rows() == Put([], row)
    {
      entries := new TxList();
      entries.Append(row);
    }

    method Insert(xid: Xid, entries: TxList)
      requires Valid() && xid !in txCache && entries.Valid() && entries !in txCache.Values
      modifies this`txCache
      ensures Valid()
      ensures View() == old(View()).(cache := old(View()).cache[xid := entries.Rows()])
    {
      CacheWith(txCache, xid, entries);
      txCache := txCache[xid := entries];
    }

    method AppendTo(xid: Xid, row: Row)
      requires Valid() && xid in txCache
      modifies txCache[xid]
      ensures Valid()
      ensures View() == old(View()).(cache := old(View()).cache[xid := Put(old(View()).cache[xid], row)])
    {
      txCache[xid].Append(row);
    }
  }
}
