/** Position reporting (replicator/pg_replicator.go): the watermark becomes standby status updates. */
module Replicator {
  import opened Wal

  /** `reported` records every position sent to the server, `synced` every position given to the
      replication slots of the replicas, `restarts` every position replication was started from. */
  datatype Position = Position(pos: CommitPoint, lastSentLsn: Lsn, replicaLsn: Lsn, slotLsn: Lsn,
                               reported: seq<Lsn>, synced: seq<Lsn>, restarts: seq<Lsn>)

  /** `watchAndRestart` */
  function Started(lsn: Lsn): Position
  {
    Position(CommitPoint(if lsn > 0 then lsn - 1 else 0, 0), 0, 0, 0, [], [], [])
  }

  /** The read loop after each message. */
  function Polled(p: Position, commit: CommitPoint): Position
  {
    if commit.lsn > p.pos.lsn then p.(pos := commit) else p
  }

  function Sent(p: Position): Position
  {
    p.(lastSentLsn := p.pos.lsn, replicaLsn := p.pos.lsn + 1, reported := p.reported + [p.pos.lsn + 1])
  }

  /** `sendStandBy`: sent when due, and always when the position has moved. `ok` is the outcome of
      the send. */
  function StandBy(p: Position, due: bool, ok: bool): Position
  {
    if (due || p.pos.lsn > p.lastSentLsn) && ok then Sent(p) else p
  }

  /** One tick of `advanceReplSlotsLoop`; `saved` is what the slots answered. */
  function Synced(p: Position, saved: Lsn): Position
  {
    if p.replicaLsn > p.slotLsn
    then p.(synced := p.synced + [p.replicaLsn], slotLsn := if saved > 0 then saved else p.slotLsn)
    else p
  }

  /** `StartReplication` after a connect or reconnect. */
  function Connected(p: Position): Position
  {
    p.(restarts := p.restarts + [p.pos.lsn])
  }

  predicate NonDecreasing(s: seq<Lsn>)
  {
    forall i, j :: 0 <= i < j < |s| ==> s[i] <= s[j]
  }

  /** Reported positions never decrease; the last one is what `lastSentLSN` and `replicaLSN` say. */
  predicate PositionOk(p: Position)
  {
    && NonDecreasing(p.reported)
    && p.lastSentLsn <= p.pos.lsn
    && (p.reported == [] ==> p.lastSentLsn == 0 && p.replicaLsn == 0)
    && (p.reported != [] ==> p.reported[|p.reported| - 1] == p.lastSentLsn + 1 == p.replicaLsn)
    && (forall x <- p.synced :: x in p.reported)
    && (forall x <- p.restarts :: x <= p.pos.lsn)
  }

  /** The object the read loop updates; times are ticks and 0 is the zero time. */
  class PGReplicator {
    const standByTimeout: nat
    const standByThreshold: nat
    var pos: CommitPoint
    var nextStandBy: int
    var lastSentLsn: Lsn
    var replicaLsn: Lsn
    ghost var rest: Position

    ghost function View(): Position
      reads this
    {
      rest.(pos := pos, lastSentLsn := lastSentLsn, replicaLsn := replicaLsn)
    }

    constructor (lsn: Lsn, timeout: nat, threshold: nat)
      ensures View() == Started(lsn) && PositionOk(View())
    {
      standByTimeout, standByThreshold := timeout, threshold;
      if lsn > 0 {
        pos := CommitPoint(lsn - 1, 0);
      } else {
        pos := CommitPoint(0, 0);
      }
      nextStandBy, lastSentLsn, replicaLsn := 0, 0, 0;
      rest := Started(lsn);
    }

    method Poll(commit: CommitPoint)
      requires PositionOk(View())
      modifies this`pos
      ensures View() == Polled(old(View()), commit) && PositionOk(View())
      ensures pos.lsn >= old(pos).lsn && pos.lsn >= commit.lsn
    {
      if commit.lsn > pos.lsn {
        pos := commit;
      }
    }

    /** Nothing was sent yet, the time of the next status update is near or past, or replication stops. */
    ghost predicate IsDue(now: int, stopping: bool)
      reads this
    {
      stopping || nextStandBy == 0 || nextStandBy - now <= standByThreshold
    }

    /** Sends exactly when due or when the position has moved. After a call that did not fail, the server has
        been told the current position. */
    method SendStandBy(now: int, later: int, stopping: bool, ok: bool) returns (failed: bool)
      requires PositionOk(View())
      modifies this
      ensures PositionOk(View()) && pos == old(pos)
      ensures View() == StandBy(old(View()), old(IsDue(now, stopping)), ok)
      ensures View().reported == old(View()).reported
                                 + if ok && (old(IsDue(now, stopping)) || pos.lsn > old(lastSentLsn)) then [pos.lsn + 1]
                                   else []
      ensures failed <==> !ok && (old(IsDue(now, stopping)) || pos.lsn > old(lastSentLsn))
      ensures !failed ==> lastSentLsn == pos.lsn
      ensures nextStandBy == if ok && (old(IsDue(now, stopping)) || pos.lsn > old(lastSentLsn))
                             then later + standByTimeout else old(nextStandBy)
    {
      var due := nextStandBy == 0 || now > nextStandBy || nextStandBy - now <= standByThreshold || stopping;
      failed := false;
      if due || pos.lsn > lastSentLsn {
        if !ok {
          return true;
        }
        rest := Sent(View());
        nextStandBy := later + standByTimeout;
        lastSentLsn := pos.lsn;
        replicaLsn := pos.lsn + 1;
      }
    }
  }
}
