/** Requests and responses exchanged between the listener, the LSN tracker and the
    downstream writer (pgwal/pg_wal_request.go, pgwal/pg_wal_response.go). */
module Wal {
  import opened WriteQueues

  type Lsn = nat
  type Xid = nat
  type Offset = nat

  /** Column values are opaque. */
  type Tuple = seq<(string, string)>

  datatype OpKind = Insert | Update | Delete | SnapshotRead

  datatype WriteEntry = WriteEntry(tuple: Tuple, prevTuple: Option<Tuple>, pk: string, kind: OpKind,
                                   table: string, offset: Offset)

  datatype WriteRequest = WriteRequest(entries: seq<WriteEntry>, lsn: Lsn, xid: Xid, commitTime: int)

  datatype CommitPoint = CommitPoint(lsn: Lsn, xid: Xid)

  /** What a writer says about a failure. */
  datatype Reason = Reason(retryable: bool, downStreamDown: bool)

  datatype ResponseEntry = ResponseEntry(lsn: Lsn, xid: Xid, offset: Offset)

  datatype ErrorEntry = ErrorEntry(response: ResponseEntry, reason: Reason)

  /** The offsets a request has to have acknowledged: an empty request stands for offset 0. */
  function Offsets(w: WriteRequest): (s: set<Offset>)
    ensures s != {}
  {
    var s := set e <- w.entries :: e.offset;
    if w.entries == [] then {0} else
      assert w.entries[0].offset in s;
      s
  }

  /** `GetEntryByOffset` */
  function EntryAt(entries: seq<WriteEntry>, offset: Offset): (r: Option<WriteEntry>)
    ensures r.Some? ==> r.value in entries && r.value.offset == offset
    ensures r.None? <==> forall e <- entries :: e.offset != offset
  {
    if entries == [] then None
    else if entries[0].offset == offset then Some(entries[0])
    else
      var r := EntryAt(entries[1..], offset);
      assert forall e <- entries :: e == entries[0] || e in entries[1..];
      r
  }
}
