/** Flow control, sections 6.9.1 and 6.9.2 of RFC 9113: the windows against what was granted and what was taken. */
module Ledgers {
  import opened Frames
  import opened ConnState
  import opened Protocol
  import opened Segments
  import opened Slots

  /** On every open stream, what is left and what was taken make the current initial window and its WINDOW_UPDATEs. */
  ghost predicate LedgerOk(conn: Conn, book: map<nat, Entry>) {
    forall id :: id in conn.streams ==>
      && id in book
      && conn.streams[id].sendWindow + book[id].taken == conn.peerInitialWindow + book[id].granted
  }

  /** For the connection: window left, DATA octets on the wire, octets callers hold and octets lost with failed writes
      make 65535 and its WINDOW_UPDATEs, and the window never goes negative. */
  ghost predicate ConnLedgerOk(conn: Conn, callers: seq<Caller>, wire: seq<Frame>, granted: nat, lost: nat) {
    && conn.connSendWindow >= 0
    && conn.connSendWindow + DataBytes(wire) + Held(callers).1 + lost == DEFAULT_WINDOW + granted
  }

  lemma LedgerNumber(conn: Conn, book: map<nat, Entry>, c: nat, keep: bool, req: Req)
    requires LedgerOk(conn, book) && IdsOk(conn, book)
    ensures var d := Number(conn, ByDo(c), keep, |req.body|);
            var take := Grant(conn, conn.peerInitialWindow, |req.body|);
            if conn.err.None? && conn.nextID <= MAX_STREAM_ID
            then LedgerOk(d, book[conn.nextID := Entry(ByDo(c), req, keep, take, 0)])
            else LedgerOk(d, book)
  {
    assert !OpenedId(conn.nextID, conn.nextID);
  }

  lemma LedgerTakeMore(conn: Conn, book: map<nat, Entry>, id: nat, n: nat)
    requires LedgerOk(conn, book) && Window(conn, id, n).WindowTaken?
    ensures LedgerOk(TakeMore(conn, id, n), book[id := book[id].(taken := book[id].taken + Window(conn, id, n).take)])
  {
  }

  lemma LedgerOpenBatch(conn: Conn, book: map<nat, Entry>, n: nat, keep: bool, req: Req)
    requires LedgerOk(conn, book) && IdsOk(conn, book) && n <= STREAM_CAP && Opens(conn, n)
    ensures LedgerOk(OpenBatch(conn, n, |req.body|, keep),
                     AddEntries(book, conn.nextID, n, Entry(ByBatch, req, keep, |req.body|, 0)))
  {
    if n > 0 {
      BatchFitsExactly(conn, n);
      AddStreamsMap(conn.streams, conn.nextID, n, Stream(ByBatch, keep, conn.peerInitialWindow - |req.body|, FRESH));
      AddEntriesMap(book, conn.nextID, n, Entry(ByBatch, req, keep, |req.body|, 0));
    }
  }

  lemma LedgerSettings(conn: Conn, book: map<nat, Entry>, ss: seq<Setting>, top: int)
    requires LedgerOk(conn, book) && 0 <= conn.peerMaxStreams <= top && 100 <= top <= STREAM_CAP
    ensures LedgerOk(Settings(conn, ss), book)
  {
    SettingsFrame(conn, ss, top);
  }

  lemma LedgerShrink(conn: Conn, book: map<nat, Entry>, conn': Conn)
    requires LedgerOk(conn, book) && conn'.peerInitialWindow == conn.peerInitialWindow
    requires forall id :: id in conn'.streams ==>
               id in conn.streams && conn'.streams[id].sendWindow == conn.streams[id].sendWindow
    ensures LedgerOk(conn', book)
  {
  }

  lemma LedgerWindowUpdate(s: System, id: nat, increment: nat)
    requires LedgerOk(s.conn, s.book)
    ensures var t := TakesWindowUpdate(s, id, increment); LedgerOk(t.conn, t.book)
  {
  }

  /** A section that moves caller c to x and changes the connection window keeps the connection's ledger when the octets
      balance. */
  lemma ConnLedgerMove(conn: Conn, callers: seq<Caller>, wire: seq<Frame>, granted: nat, lost: nat,
                       conn': Conn, c: nat, x: Caller, fs: seq<Frame>, lost': nat)
    requires ConnLedgerOk(conn, callers, wire, granted, lost) && c < |callers|
    requires conn'.connSendWindow >= 0
    requires conn'.connSendWindow + DataBytes(fs) + Holds(x).1 + lost'
             == conn.connSendWindow + Holds(callers[c]).1 + lost
    ensures ConnLedgerOk(conn', callers[c := x], wire + fs, granted, lost')
  {
    HeldUpdate(callers, c, x);
    DataBytesConcat(wire, fs);
  }

  lemma ConnLedgerJoin(conn: Conn, callers: seq<Caller>, wire: seq<Frame>, granted: nat, lost: nat, conn': Conn,
                       x: Caller)
    requires ConnLedgerOk(conn, callers, wire, granted, lost)
    requires conn'.connSendWindow >= 0 && conn'.connSendWindow + Holds(x).1 == conn.connSendWindow
    ensures ConnLedgerOk(conn', callers + [x], wire, granted, lost)
  {
    HeldAppend(callers, x);
  }

  lemma ConnLedgerControl(conn: Conn, callers: seq<Caller>, wire: seq<Frame>, granted: nat, lost: nat, f: Frame)
    requires ConnLedgerOk(conn, callers, wire, granted, lost) && f.typ != DATA
    ensures ConnLedgerOk(conn, callers, wire + [f], granted, lost)
  {
    assert (wire + [f])[..|wire|] == wire;
  }

  // ----- the receive side -----

  /** The increments of the connection's WINDOW_UPDATEs on the wire. */
  function Updates(wire: seq<Frame>): nat {
    if wire == [] then 0 else
    var f := wire[|wire| - 1];
    Updates(wire[..|wire| - 1])
    + if f.typ == WINDOW_UPDATE && f.id == 0 && |f.payload| == 4 then FromU32(f.payload) else 0
  }

  lemma {:induction false} UpdatesConcat(a: seq<Frame>, b: seq<Frame>)
    requires forall f :: f in b ==> f.typ != WINDOW_UPDATE
    ensures Updates(a + b) == Updates(a)
    decreases |b|
  {
    if b == [] {
      assert a + b == a;
    } else {
      UpdatesConcat(a, b[..|b| - 1]);
      assert (a + b)[..|a + b| - 1] == a + b[..|b| - 1];
    }
  }

  /** Every WINDOW_UPDATE the client has sent is for the connection, nonzero, and fits in 31 bits. */
  predicate UpdateOk(f: Frame) {
    f.typ == WINDOW_UPDATE ==> f.id == 0 && |f.payload| == 4 && CONN_WINDOW / 2 <= FromU32(f.payload) < CONN_WINDOW
  }

  /** The connection's receive window, as the server keeps it: 2^30 from the preface, less the DATA read, plus
      updates. */
  ghost predicate ReceiveOk(reader: Reader, wire: seq<Frame>, received: nat) {
    && received == Updates(wire) + reader.recvConsumed
    && (!reader.phase.Failing? && !reader.phase.Exited? ==> reader.recvConsumed < CONN_WINDOW / 2)
    && forall f :: f in wire ==> UpdateOk(f)
  }

  lemma ReceiveData(reader: Reader, wire: seq<Frame>, received: nat, used: nat)
    requires ReceiveOk(reader, wire, received) && CONN_WINDOW / 2 <= used < CONN_WINDOW
    ensures Updates(wire + [WindowUpdate(0, used)]) == Updates(wire) + used
    ensures UpdateOk(WindowUpdate(0, used))
  {
    U32RoundTrip(used);
    assert (wire + [WindowUpdate(0, used)])[..|wire|] == wire;
  }
}
