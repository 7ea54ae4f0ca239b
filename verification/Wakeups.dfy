/** No lost wakeup: a caller that is asleep and has not been broadcast to still has reason to sleep. */
module Wakeups {
  import opened Bytes
  import opened Frames
  import opened ConnState
  import opened Protocol
  import opened Slots

  /** Why a Do may wait for a slot, and for window. */
  predicate NoSlot(conn: Conn) {
    conn.err.None? && conn.active >= conn.peerMaxStreams
  }

  predicate NoWindow(conn: Conn, id: nat) {
    conn.err.None? && id in conn.streams && Min(conn.connSendWindow, conn.streams[id].sendWindow) <= 0
  }

  predicate WaitsRightly(conn: Conn, x: Caller) {
    match x
    case SlotWait(_, _, Some(g)) => g <= conn.wakes && (g == conn.wakes ==> NoSlot(conn))
    case Sending(id, _, _, Some(g)) => g <= conn.wakes && (g == conn.wakes ==> NoWindow(conn, id))
    case _ => true
  }

  ghost predicate WakeOk(conn: Conn, callers: seq<Caller>) {
    forall c :: 0 <= c < |callers| ==> WaitsRightly(conn, callers[c])
  }

  /** A section that does not broadcast enables nobody. */
  ghost predicate StillBlocks(conn: Conn, conn': Conn) {
    && conn'.wakes == conn.wakes
    && (conn.err.None? ==>
          && conn'.err.None? && conn'.active >= conn.active && conn'.peerMaxStreams == conn.peerMaxStreams
          && conn'.connSendWindow <= conn.connSendWindow
          && forall id :: id in conn.streams ==>
               id in conn'.streams && conn'.streams[id].sendWindow <= conn.streams[id].sendWindow)
  }

  lemma WakeQuiet(conn: Conn, callers: seq<Caller>, conn': Conn)
    requires WakeOk(conn, callers) && StillBlocks(conn, conn')
    ensures WakeOk(conn', callers)
  {
    forall c | 0 <= c < |callers| ensures WaitsRightly(conn', callers[c]) {
      assert WaitsRightly(conn, callers[c]);
    }
  }

  lemma WakeBroadcast(conn: Conn, callers: seq<Caller>, conn': Conn)
    requires WakeOk(conn, callers) && conn'.wakes > conn.wakes
    ensures WakeOk(conn', callers)
  {
    forall c | 0 <= c < |callers| ensures WaitsRightly(conn', callers[c]) {
      assert WaitsRightly(conn, callers[c]);
    }
  }

  lemma WakeMove(conn: Conn, callers: seq<Caller>, c: nat, x: Caller)
    requires WakeOk(conn, callers) && c < |callers| && WaitsRightly(conn, x)
    ensures WakeOk(conn, callers[c := x])
  {
  }

  lemma WakeNumber(conn: Conn, callers: seq<Caller>, book: map<nat, Entry>, owner: Owner, keep: bool, n: nat)
    requires WakeOk(conn, callers) && IdsOk(conn, book)
    ensures WakeOk(Number(conn, owner, keep, n), callers)
  {
    if conn.err.None? && conn.nextID > MAX_STREAM_ID {
      WakeBroadcast(conn, callers, Number(conn, owner, keep, n));
    } else {
      assert !OpenedId(conn.nextID, conn.nextID);
      WakeQuiet(conn, callers, Number(conn, owner, keep, n));
    }
  }

  lemma WakeOpenBatch(conn: Conn, callers: seq<Caller>, book: map<nat, Entry>, n: nat, bodyLen: nat, keep: bool)
    requires WakeOk(conn, callers) && IdsOk(conn, book) && n <= STREAM_CAP
    ensures WakeOk(OpenBatch(conn, n, bodyLen, keep), callers)
  {
    var d := OpenBatch(conn, n, bodyLen, keep);
    if Opens(conn, n) {
      if n > 0 {
        BatchFitsExactly(conn, n);
        AddStreamsMap(conn.streams, conn.nextID, n, Stream(ByBatch, keep, conn.peerInitialWindow - bodyLen, FRESH));
      }
      WakeQuiet(conn, callers, d);
    } else if conn.err.None? {
      WakeBroadcast(conn, callers, d);
    } else {
      WakeQuiet(conn, callers, d);
    }
  }
}
