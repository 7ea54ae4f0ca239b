/** Everything that holds in every reachable state, and the proof that each step keeps it. */
module Invariant {
  import opened Bytes
  import opened Frames
  import opened Requests
  import opened Segments
  import opened ConnState
  import opened Protocol
  import opened Slots
  import opened Wakeups
  import opened Ledgers
  import opened Wire
  import opened Results
  import opened Demux

  ghost predicate Counts(s: System) {
    && SlotsOk(s.conn, s.callers, s.topLimit)
    && IdsOk(s.conn, s.book)
    && WakeOk(s.conn, s.callers)
  }

  ghost predicate Windows(s: System) {
    && LedgerOk(s.conn, s.book)
    && ConnLedgerOk(s.conn, s.callers, s.wire, s.granted, s.lost)
    && ReceiveOk(s.reader, s.wire, s.received)
  }

  ghost predicate Writing(s: System) {
    && LockOk(s.callers, s.wmu)
    && OrderOk(s.wire, s.callers, s.wmu, s.conn.nextID)
    && CarryOk(s.wire, s.book)
    && ProgressOk(s.wire, s.book, s.callers)
  }

  ghost predicate Answering(s: System) {
    && PlaceOk(s.conn.streams, s.book, s.ended)
    && OwnersOk(s.book, s.callers)
    && ReturnsOk(s.callers, s.ended, s.told)
    && ReaderOk(s.conn, s.reader)
    && LiveOk(s.conn.streams, s.trace)
    && EndedOk(s.ended, s.book, s.trace)
  }

  ghost predicate Inv(s: System) {
    Counts(s) && Windows(s) && Writing(s) && Answering(s)
  }

  lemma InvStart()
    ensures Inv(START)
  {
    CountsStart();
    WindowsStart();
    WritingStart();
    AnsweringStart();
  }

  lemma CountsStart()
    ensures Counts(START)
  {
    forall id: nat ensures !OpenedId(id, 1) {}
  }

  lemma ConnLedgerStart(conn: Conn)
    requires conn.connSendWindow == DEFAULT_WINDOW
    ensures ConnLedgerOk(conn, [], [], 0, 0)
  {
  }

  lemma ReceiveStart(reader: Reader)
    requires reader.recvConsumed == 0
    ensures ReceiveOk(reader, [], 0)
  {
  }

  lemma LedgerStart(conn: Conn)
    requires conn.streams == map[]
    ensures LedgerOk(conn, map[])
  {
  }

  lemma WindowsStart()
    ensures Windows(START)
  {
    LedgerStart(START.conn);
    ConnLedgerStart(START.conn);
    ReceiveStart(START.reader);
  }

  lemma WritingStart()
    ensures Writing(START)
  {
  }

  lemma AnsweringStart()
    ensures Answering(START)
  {
  }

  lemma ZeroNeverOpened(conn: Conn, book: map<nat, Entry>)
    requires IdsOk(conn, book)
    ensures 0 !in book && conn.nextID !in book && conn.nextID !in conn.streams
  {
    assert !OpenedId(0, conn.nextID) && !OpenedId(conn.nextID, conn.nextID);
  }

  // ----- moving a caller -----

  /** What a step may do to a caller and the connection together without touching the map's keys, the book or the
      wire. */
  lemma MoveCounts(conn: Conn, callers: seq<Caller>, top: int, conn': Conn, c: nat, x: Caller)
    requires SlotsOk(conn, callers, top) && WakeOk(conn, callers) && c < |callers|
    requires StillBlocks(conn, conn') && WaitsRightly(conn', x)
    requires conn'.peerMaxStreams == conn.peerMaxStreams && conn'.active <= top && |conn'.streams| == |conn.streams|
    requires conn'.active - Holds(x).0 == conn.active - Holds(callers[c]).0
    ensures SlotsOk(conn', callers[c := x], top) && WakeOk(conn', callers[c := x])
  {
    SlotsMove(conn, callers, top, conn', c, x);
    WakeQuiet(conn, callers, conn');
    WakeMove(conn', callers, c, x);
  }

  lemma MoveLedger(conn: Conn, callers: seq<Caller>, wire: seq<Frame>, granted: nat, lost: nat, conn': Conn, c: nat,
                   x: Caller, lost': nat)
    requires ConnLedgerOk(conn, callers, wire, granted, lost) && c < |callers| && conn'.connSendWindow >= 0
    requires conn'.connSendWindow + Holds(x).1 + lost' == conn.connSendWindow + Holds(callers[c]).1 + lost
    ensures ConnLedgerOk(conn', callers[c := x], wire, granted, lost')
  {
    ConnLedgerMove(conn, callers, wire, granted, lost, conn', c, x, [], lost');
    assert wire + [] == wire;
  }

  lemma MoveWriting(wire: seq<Frame>, book: map<nat, Entry>, callers: seq<Caller>, wmu: Option<nat>, nextID: nat,
                    c: nat, x: Caller)
    requires LockOk(callers, wmu) && OrderOk(wire, callers, wmu, nextID) && ProgressOk(wire, book, callers)
    requires c < |callers| && !Locks(callers[c]) && !Locks(x) && Progress(wire, book, c, x)
    ensures LockOk(callers[c := x], wmu) && OrderOk(wire, callers[c := x], wmu, nextID)
            && ProgressOk(wire, book, callers[c := x])
  {
    LockMove(callers, wmu, c, x, wmu);
    OrderMove(wire, callers, wmu, nextID, c, x);
    ProgressMove(wire, book, callers, c, x);
  }

  lemma MoveAnswering(book: map<nat, Entry>, callers: seq<Caller>, ended: seq<Ended>, told: nat, c: nat, x: Caller)
    requires OwnersOk(book, callers) && ReturnsOk(callers, ended, told) && c < |callers|
    requires StreamOf(x) == StreamOf(callers[c]) && (x.Returned? ==> x.stream.None? && x.result.err.Some?)
    ensures OwnersOk(book, callers[c := x]) && ReturnsOk(callers[c := x], ended, told)
  {
    OwnersMove(book, callers, book, c, x);
    ReturnsMove(callers, ended, told, c, x);
  }

  // ----- Do -----

  lemma JoinKeeps(s: System, x: Caller)
    requires Inv(s) && x.SlotWait? && x.asleep.None?
    ensures Inv(s.(callers := s.callers + [x]))
  {
    JoinCounts(s.conn, s.callers, s.topLimit, s.conn, x);
    ConnLedgerJoin(s.conn, s.callers, s.wire, s.granted, s.lost, s.conn, x);
    JoinRest(s.wire, s.book, s.callers, s.wmu, s.conn.nextID, s.ended, s.told, x);
  }

  lemma JoinCounts(conn: Conn, callers: seq<Caller>, top: int, conn': Conn, x: Caller)
    requires SlotsOk(conn, callers, top) && WakeOk(conn, callers) && StillBlocks(conn, conn') && WaitsRightly(conn', x)
    requires conn'.peerMaxStreams == conn.peerMaxStreams && conn'.active <= top && conn'.streams == conn.streams
    requires conn'.active - Holds(x).0 == conn.active
    ensures SlotsOk(conn', callers + [x], top) && WakeOk(conn', callers + [x])
  {
    SlotsJoin(conn, callers, top, conn', x);
    WakeQuiet(conn, callers, conn');
  }

  lemma JoinRest(wire: seq<Frame>, book: map<nat, Entry>, callers: seq<Caller>, wmu: Option<nat>, nextID: nat,
                 ended: seq<Ended>, told: nat, x: Caller)
    requires LockOk(callers, wmu) && OrderOk(wire, callers, wmu, nextID) && ProgressOk(wire, book, callers)
    requires OwnersOk(book, callers) && ReturnsOk(callers, ended, told)
    requires x.SlotWait? || x.BatchHeld? || x.BatchReturned?
    ensures LockOk(callers + [x], wmu) && OrderOk(wire, callers + [x], wmu, nextID)
            && ProgressOk(wire, book, callers + [x])
    ensures OwnersOk(book, callers + [x]) && ReturnsOk(callers + [x], ended, told)
  {
    LockJoin(callers, wmu, x);
    OrderJoin(wire, callers, wmu, nextID, x);
    OwnersJoin(book, callers, x);
    ReturnsJoin(callers, ended, told, x);
  }

  lemma ChecksSlotKeeps(s: System, c: nat)
    requires Inv(s) && c < |s.callers| && s.callers[c].SlotWait?
    ensures Inv(ChecksSlot(s, c))
  {
    var t := ChecksSlot(s, c);
    var x := t.callers[c];
    MoveCounts(s.conn, s.callers, s.topLimit, t.conn, c, x);
    MoveLedger(s.conn, s.callers, s.wire, s.granted, s.lost, t.conn, c, x, s.lost);
    MoveWriting(s.wire, s.book, s.callers, s.wmu, s.conn.nextID, c, x);
    MoveAnswering(s.book, s.callers, s.ended, s.told, c, x);
  }

  lemma RefusedKeeps(s: System, c: nat)
    requires Inv(s) && Enabled(s, DoNumbers(c)) && (s.conn.err.Some? || s.conn.nextID > MAX_STREAM_ID)
    ensures Inv(Numbers(s, c))
  {
    var t := Numbers(s, c);
    var w, x := s.callers[c], t.callers[c];
    SlotsMove(s.conn, s.callers, s.topLimit, t.conn, c, x);
    WakeNumber(s.conn, s.callers, s.book, ByDo(c), w.keep, |w.req.body|);
    WakeMove(t.conn, s.callers, c, x);
    MoveLedger(s.conn, s.callers, s.wire, s.granted, s.lost, t.conn, c, x, s.lost);
    MoveWriting(s.wire, s.book, s.callers, s.wmu, s.conn.nextID, c, x);
    MoveAnswering(s.book, s.callers, s.ended, s.told, c, x);
  }

  lemma OpenedCounts(conn: Conn, callers: seq<Caller>, top: int, book: map<nat, Entry>, c: nat, keep: bool, n: nat,
                     x: Caller, e: Entry)
    requires SlotsOk(conn, callers, top) && IdsOk(conn, book) && WakeOk(conn, callers)
    requires c < |callers| && callers[c].SlotHeld? && x.Numbered? && conn.err.None? && conn.nextID <= MAX_STREAM_ID
    ensures var d := Number(conn, ByDo(c), keep, n);
            SlotsOk(d, callers[c := x], top) && IdsOk(d, book[conn.nextID := e]) && WakeOk(d, callers[c := x])
  {
    var d := Number(conn, ByDo(c), keep, n);
    SlotsNumber(conn, callers, top, book, c, keep, n, x);
    NumberSize(conn, book, ByDo(c), keep, n);
    WakeNumber(conn, callers, book, ByDo(c), keep, n);
    WakeMove(d, callers, c, x);
    IdsNumber(conn, book, d, e);
  }

  lemma OpenedWriting(wire: seq<Frame>, book: map<nat, Entry>, callers: seq<Caller>, nextID: nat, c: nat, x: Caller,
                      e: Entry)
    requires LockOk(callers, None) && OrderOk(wire, callers, None, nextID) && CarryOk(wire, book)
    requires ProgressOk(wire, book, callers)
    requires 0 !in book && nextID !in book && nextID != 0 && c < |callers|
    requires x.Numbered? && x.id == nextID && x.req == e.req && x.take <= |x.req.body| && e.owner == ByDo(c)
    ensures LockOk(callers[c := x], Some(c)) && OrderOk(wire, callers[c := x], Some(c), nextID + 2)
    ensures CarryOk(wire, book[nextID := e]) && ProgressOk(wire, book[nextID := e], callers[c := x])
  {
    LockMove(callers, None, c, x, Some(c));
    OrderNumber(wire, callers, nextID, c, x, nextID + 2);
    CarryExtends(wire, book, book[nextID := e]);
    ProgressExtends(wire, book, book[nextID := e], callers);
    NothingYet(wire, book, nextID);
    ProgressMove(wire, book[nextID := e], callers, c, x);
  }

  lemma OpenedAnswering(streams: map<nat, Stream>, book: map<nat, Entry>, callers: seq<Caller>, ended: seq<Ended>,
                        told: nat, trace: seq<Event>,
                        streams': map<nat, Stream>, id: nat, c: nat, x: Caller, e: Entry)
    requires PlaceOk(streams, book, ended) && OwnersOk(book, callers) && ReturnsOk(callers, ended, told)
    requires LiveOk(streams, trace) && EndedOk(ended, book, trace)
    requires id !in streams && id !in book && c < |callers| && callers[c].SlotHeld? && x.Numbered? && x.id == id
    requires streams'.Keys == streams.Keys + {id} && streams'[id].resp == FRESH
    requires e.owner == ByDo(c) == streams'[id].owner && e.keep == streams'[id].keep
    requires forall other :: other in streams ==> streams'[other] == streams[other]
    ensures PlaceOk(streams', book[id := e], ended) && OwnersOk(book[id := e], callers[c := x])
    ensures ReturnsOk(callers[c := x], ended, told)
    ensures LiveOk(streams', trace + [Protocol.Opened(id)])
            && EndedOk(ended, book[id := e], trace + [Protocol.Opened(id)])
  {
    PlaceOpen(streams, book, ended, streams', book[id := e]) by {
      assert forall k :: k in streams' ==> k in streams.Keys + {id};
    }
    OwnersNumber(book, callers, c, x, id, e);
    ReturnsMove(callers, ended, told, c, x);
    LiveOpen(streams, trace, id, streams');
    EndedLater(ended, book, trace, book[id := e], [Protocol.Opened(id)]);
  }

  lemma NumbersWindows(s: System, c: nat)
    requires Windows(s) && IdsOk(s.conn, s.book) && Enabled(s, DoNumbers(c)) && s.conn.err.None?
    requires s.conn.nextID <= MAX_STREAM_ID
    ensures Windows(Numbers(s, c))
  {
    var t := Numbers(s, c);
    LedgerNumber(s.conn, s.book, c, s.callers[c].keep, s.callers[c].req);
    MoveLedger(s.conn, s.callers, s.wire, s.granted, s.lost, t.conn, c, t.callers[c], s.lost);
  }

  lemma NumbersAnswering(s: System, c: nat)
    requires Answering(s) && IdsOk(s.conn, s.book) && Enabled(s, DoNumbers(c)) && s.conn.err.None?
    requires s.conn.nextID <= MAX_STREAM_ID
    ensures Answering(Numbers(s, c))
  {
    var t := Numbers(s, c);
    var w, x, id := s.callers[c], t.callers[c], s.conn.nextID;
    ZeroNeverOpened(s.conn, s.book);
    NumberSize(s.conn, s.book, ByDo(c), w.keep, |w.req.body|);
    OpenedAnswering(s.conn.streams, s.book, s.callers, s.ended, s.told, s.trace, t.conn.streams, id, c, x, t.book[id]);
  }

  lemma NumbersCounts(s: System, c: nat)
    requires Counts(s) && Enabled(s, DoNumbers(c)) && s.conn.err.None? && s.conn.nextID <= MAX_STREAM_ID
    ensures Counts(Numbers(s, c))
  {
    var t := Numbers(s, c);
    var w := s.callers[c];
    OpenedCounts(s.conn, s.callers, s.topLimit, s.book, c, w.keep, |w.req.body|, t.callers[c], t.book[s.conn.nextID]);
  }

  lemma NumbersWriting(s: System, c: nat)
    requires Writing(s) && IdsOk(s.conn, s.book) && Enabled(s, DoNumbers(c)) && s.conn.err.None?
    requires s.conn.nextID <= MAX_STREAM_ID
    ensures Writing(Numbers(s, c))
  {
    var t := Numbers(s, c);
    var id := s.conn.nextID;
    ZeroNeverOpened(s.conn, s.book);
    OpenedWriting(s.wire, s.book, s.callers, id, c, t.callers[c], t.book[id]);
  }

  lemma NumbersKeeps(s: System, c: nat)
    requires Inv(s) && Enabled(s, DoNumbers(c))
    ensures Inv(Numbers(s, c))
  {
    if s.conn.err.Some? || s.conn.nextID > MAX_STREAM_ID {
      RefusedKeeps(s, c);
    } else {
      NumbersCounts(s, c);
      NumbersWindows(s, c);
      NumbersWriting(s, c);
      NumbersAnswering(s, c);
    }
  }

  // ----- writing -----

  lemma CarriesTypes(fs: seq<Frame>, id: nat, block: seq<Byte>, body: seq<Byte>)
    requires Carries(fs, id, block, body)
    ensures forall f :: f in fs ==> f.typ == HEADERS || f.typ == DATA
  {
    forall f | f in fs ensures f.typ == HEADERS || f.typ == DATA {
      var i :| 0 <= i < |fs| && fs[i] == f;
    }
  }

  lemma ReceiveOther(reader: Reader, wire: seq<Frame>, received: nat, fs: seq<Frame>)
    requires ReceiveOk(reader, wire, received) && forall f :: f in fs ==> f.typ != WINDOW_UPDATE
    ensures ReceiveOk(reader, wire + fs, received)
  {
    UpdatesConcat(wire, fs);
  }

  lemma FirstWriteLedger(conn: Conn, callers: seq<Caller>, wire: seq<Frame>, granted: nat, lost: nat, c: nat, x: Caller)
    requires ConnLedgerOk(conn, callers, wire, granted, lost) && c < |callers| && callers[c].Numbered?
    requires callers[c].take <= |callers[c].req.body| && Holds(x).1 == 0
    ensures var w := callers[c];
            ConnLedgerOk(conn, callers[c := x], wire + FirstFrames(w.id, w.req.block, w.req.body, w.take), granted,
                         lost)
  {
    var w := callers[c];
    var fs := FirstFrames(w.id, w.req.block, w.req.body, w.take);
    FirstFramesCarry(w.id, w.req.block, w.req.body, w.take);
    DataBytesPayload(fs);
    ConnLedgerMove(conn, callers, wire, granted, lost, conn, c, x, fs, lost);
  }

  lemma FirstWriteCarry(wire: seq<Frame>, book: map<nat, Entry>, callers: seq<Caller>, c: nat, x: Caller)
    requires CarryOk(wire, book) && ProgressOk(wire, book, callers) && c < |callers| && callers[c].Numbered?
    requires var w := callers[c];
             w.take <= |w.req.body|
             && x == if w.take == |w.req.body| then AwaitDone(w.id) else Sending(w.id, w.req, w.take, None)
    ensures var w := callers[c];
            var wire' := wire + FirstFrames(w.id, w.req.block, w.req.body, w.take);
            CarryOk(wire', book) && ProgressOk(wire', book, callers[c := x])
  {
    var w := callers[c];
    var fs := FirstFrames(w.id, w.req.block, w.req.body, w.take);
    assert Progress(wire, book, c, w);
    FirstFramesCarry(w.id, w.req.block, w.req.body, w.take);
    CarriesTypes(fs, w.id, w.req.block, w.req.body);
    assert On(wire, w.id) + fs == fs;
    CarryGrows(wire, book, w.id, fs);
    Grows(wire, w.id, fs);
    ProgressGrows(wire, book, callers, c, x, w.id, fs);
  }

  lemma FirstWriteOrder(wire: seq<Frame>, callers: seq<Caller>, wmu: Option<nat>, nextID: nat, c: nat, x: Caller)
    requires LockOk(callers, wmu) && OrderOk(wire, callers, wmu, nextID) && c < |callers| && callers[c].Numbered?
    requires callers[c].take <= |callers[c].req.body| && !Locks(x)
    ensures var w := callers[c];
            && LockOk(callers[c := x], None)
            && OrderOk(wire + FirstFrames(w.id, w.req.block, w.req.body, w.take), callers[c := x], None, nextID)
  {
    var w := callers[c];
    FirstFramesCarry(w.id, w.req.block, w.req.body, w.take);
    LockMove(callers, wmu, c, x, None);
    OrderWrite(wire, callers, nextID, c, x, FirstFrames(w.id, w.req.block, w.req.body, w.take));
  }

  /** A write that fails: the lock is released, the caller moves on, the octets are lost. */
  lemma FailedWriteOrder(wire: seq<Frame>, book: map<nat, Entry>, callers: seq<Caller>, wmu: Option<nat>, nextID: nat,
                         c: nat, x: Caller)
    requires LockOk(callers, wmu) && OrderOk(wire, callers, wmu, nextID) && ProgressOk(wire, book, callers)
    requires c < |callers| && Locks(callers[c]) && (x.AwaitDone? || x.BatchReturned?)
    ensures LockOk(callers[c := x], None) && OrderOk(wire, callers[c := x], None, nextID)
            && ProgressOk(wire, book, callers[c := x])
  {
    LockMove(callers, wmu, c, x, None);
    OrderWrite(wire, callers, nextID, c, x, []);
    assert wire + [] == wire;
    ProgressMove(wire, book, callers, c, x);
  }

  lemma WritesWindows(s: System, c: nat)
    requires ConnLedgerOk(s.conn, s.callers, s.wire, s.granted, s.lost) && ReceiveOk(s.reader, s.wire, s.received)
    requires Enabled(s, DoWrites(c, true))
    ensures var t := Writes(s, c, true);
            ConnLedgerOk(t.conn, t.callers, t.wire, t.granted, t.lost) && ReceiveOk(t.reader, t.wire, t.received)
  {
    var w := s.callers[c];
    FirstWriteLedger(s.conn, s.callers, s.wire, s.granted, s.lost, c, Writes(s, c, true).callers[c]);
    FirstFramesCarry(w.id, w.req.block, w.req.body, w.take);
    CarriesTypes(FirstFrames(w.id, w.req.block, w.req.body, w.take), w.id, w.req.block, w.req.body);
    ReceiveOther(s.reader, s.wire, s.received, FirstFrames(w.id, w.req.block, w.req.body, w.take));
  }

  lemma WritesWriting(s: System, c: nat)
    requires Writing(s) && Enabled(s, DoWrites(c, true))
    ensures Writing(Writes(s, c, true))
  {
    FirstWriteOrder(s.wire, s.callers, s.wmu, s.conn.nextID, c, Writes(s, c, true).callers[c]);
    FirstWriteCarry(s.wire, s.book, s.callers, c, Writes(s, c, true).callers[c]);
  }

  lemma WritesKeeps(s: System, c: nat, ok: bool)
    requires Inv(s) && Enabled(s, DoWrites(c, ok))
    ensures Inv(Writes(s, c, ok))
  {
    var t := Writes(s, c, ok);
    var x := t.callers[c];
    MoveCounts(s.conn, s.callers, s.topLimit, s.conn, c, x);
    MoveAnswering(s.book, s.callers, s.ended, s.told, c, x);
    if ok {
      WritesWindows(s, c);
      WritesWriting(s, c);
    } else {
      MoveLedger(s.conn, s.callers, s.wire, s.granted, s.lost, s.conn, c, x, t.lost);
      FailedWriteOrder(s.wire, s.book, s.callers, s.wmu, s.conn.nextID, c, x);
    }
  }

  // ----- waiting for window -----

  lemma TookLedger(conn: Conn, book: map<nat, Entry>, callers: seq<Caller>, wire: seq<Frame>, granted: nat, lost: nat,
                   c: nat, n: nat)
    requires LedgerOk(conn, book) && ConnLedgerOk(conn, callers, wire, granted, lost)
    requires c < |callers| && callers[c].Sending? && Window(conn, callers[c].id, n).WindowTaken?
    ensures var w, take := callers[c], Window(conn, callers[c].id, n).take;
            && LedgerOk(TakeMore(conn, w.id, n), book[w.id := book[w.id].(taken := book[w.id].taken + take)])
            && ConnLedgerOk(TakeMore(conn, w.id, n), callers[c := Taken(w.id, w.req, w.sent, take)], wire, granted,
                            lost)
  {
    var w := callers[c];
    LedgerTakeMore(conn, book, w.id, n);
    MoveLedger(conn, callers, wire, granted, lost, TakeMore(conn, w.id, n), c,
               Taken(w.id, w.req, w.sent, Window(conn, w.id, n).take), lost);
  }

  lemma TookWriting(wire: seq<Frame>, book: map<nat, Entry>, callers: seq<Caller>, wmu: Option<nat>, nextID: nat,
                    c: nat, x: Caller, book': map<nat, Entry>)
    requires LockOk(callers, wmu) && OrderOk(wire, callers, wmu, nextID) && CarryOk(wire, book)
    requires ProgressOk(wire, book, callers)
    requires c < |callers| && !Locks(callers[c]) && x.Taken? && Progress(wire, book, c, x)
    requires Extends(book, book') && 0 !in book'
    ensures LockOk(callers[c := x], wmu) && OrderOk(wire, callers[c := x], wmu, nextID)
    ensures CarryOk(wire, book') && ProgressOk(wire, book', callers[c := x])
  {
    MoveWriting(wire, book, callers, wmu, nextID, c, x);
    CarryExtends(wire, book, book');
    ProgressExtends(wire, book, book', callers[c := x]);
  }

  lemma TookAnswering(streams: map<nat, Stream>, book: map<nat, Entry>, callers: seq<Caller>, ended: seq<Ended>,
                      told: nat, trace: seq<Event>,
                      streams': map<nat, Stream>, book': map<nat, Entry>, c: nat, x: Caller)
    requires PlaceOk(streams, book, ended) && OwnersOk(book, callers) && ReturnsOk(callers, ended, told)
    requires LiveOk(streams, trace) && EndedOk(ended, book, trace)
    requires streams'.Keys == streams.Keys && book'.Keys == book.Keys
    requires forall id :: id in streams ==> streams'[id] == streams[id].(sendWindow := streams'[id].sendWindow)
    requires forall id :: id in book ==> book'[id].owner == book[id].owner && book'[id].keep == book[id].keep
    requires c < |callers| && x.Taken? && StreamOf(x) == StreamOf(callers[c])
    ensures PlaceOk(streams', book', ended) && OwnersOk(book', callers[c := x])
            && ReturnsOk(callers[c := x], ended, told)
    ensures LiveOk(streams', trace) && EndedOk(ended, book', trace)
  {
    PlaceSame(streams, book, ended, streams', book');
    OwnersMove(book, callers, book', c, x);
    ReturnsMove(callers, ended, told, c, x);
    LiveSame(streams, trace, streams') by {
      assert forall id :: id in streams' ==> id in streams.Keys;
    }
    EndedLater(ended, book, trace, book', []) by {
      assert forall id :: id in book ==> id in book'.Keys;
    }
    assert trace + [] == trace;
  }

  lemma TookCounts(conn: Conn, callers: seq<Caller>, top: int, book: map<nat, Entry>, c: nat, x: Caller, id: nat,
                   n: nat, book': map<nat, Entry>)
    requires SlotsOk(conn, callers, top) && WakeOk(conn, callers) && IdsOk(conn, book) && c < |callers|
    requires callers[c].Sending? && x.Taken? && Window(conn, id, n).WindowTaken? && book'.Keys == book.Keys
    ensures var d := TakeMore(conn, id, n);
            SlotsOk(d, callers[c := x], top) && WakeOk(d, callers[c := x]) && IdsOk(d, book')
    ensures TakeMore(conn, id, n).streams.Keys == conn.streams.Keys
  {
    var d := TakeMore(conn, id, n);
    assert d.streams.Keys == conn.streams.Keys;
    MapSame(d.streams, conn.streams);
    MoveCounts(conn, callers, top, d, c, x);
    IdsShrink(conn, book, d, book');
  }

  predicate Takes(s: System, c: nat) {
    && Enabled(s, DoChecksWindow(c))
    && Window(s.conn, s.callers[c].id, |s.callers[c].req.body| - s.callers[c].sent).WindowTaken?
  }

  lemma TakesCounts(s: System, c: nat)
    requires Takes(s, c) && SlotsOk(s.conn, s.callers, s.topLimit) && WakeOk(s.conn, s.callers) && IdsOk(s.conn, s.book)
    ensures Counts(ChecksWindow(s, c))
  {
    var t := ChecksWindow(s, c);
    var w, n := s.callers[c], |s.callers[c].req.body| - s.callers[c].sent;
    assert t.book.Keys == s.book.Keys;
    TookCounts(s.conn, s.callers, s.topLimit, s.book, c, t.callers[c], w.id, n, t.book);
  }

  lemma TakesWindows(s: System, c: nat)
    requires Takes(s, c) && LedgerOk(s.conn, s.book) && ConnLedgerOk(s.conn, s.callers, s.wire, s.granted, s.lost)
    ensures var t := ChecksWindow(s, c);
            LedgerOk(t.conn, t.book) && ConnLedgerOk(t.conn, t.callers, t.wire, t.granted, t.lost)
  {
    TookLedger(s.conn, s.book, s.callers, s.wire, s.granted, s.lost, c, |s.callers[c].req.body| - s.callers[c].sent);
  }

  lemma TakesProgress(s: System, c: nat)
    requires Takes(s, c) && ProgressOk(s.wire, s.book, s.callers) && IdsOk(s.conn, s.book)
    ensures var t := ChecksWindow(s, c);
            Progress(s.wire, s.book, c, t.callers[c]) && Extends(s.book, t.book) && 0 !in t.book
  {
    assert Progress(s.wire, s.book, c, s.callers[c]);
    ZeroNeverOpened(s.conn, s.book);
  }

  lemma TakesWriting(s: System, c: nat)
    requires Takes(s, c) && Writing(s) && IdsOk(s.conn, s.book)
    ensures Writing(ChecksWindow(s, c))
  {
    var t := ChecksWindow(s, c);
    TakesProgress(s, c);
    TookWriting(s.wire, s.book, s.callers, s.wmu, s.conn.nextID, c, t.callers[c], t.book);
  }

  lemma TakesAnswering(s: System, c: nat)
    requires Takes(s, c) && Answering(s)
    ensures Answering(ChecksWindow(s, c))
  {
    var t := ChecksWindow(s, c);
    assert t.conn.streams.Keys == s.conn.streams.Keys && t.book.Keys == s.book.Keys;
    TookAnswering(s.conn.streams, s.book, s.callers, s.ended, s.told, s.trace, t.conn.streams, t.book, c, t.callers[c]);
  }

  lemma TakesKeeps(s: System, c: nat)
    requires Inv(s) && Takes(s, c)
    ensures Inv(ChecksWindow(s, c))
  {
    TakesCounts(s, c);
    TakesWindows(s, c);
    TakesWriting(s, c);
    TakesAnswering(s, c);
  }

  lemma ChecksWindowKeeps(s: System, c: nat)
    requires Inv(s) && Enabled(s, DoChecksWindow(c))
    ensures Inv(ChecksWindow(s, c))
  {
    if Takes(s, c) {
      TakesKeeps(s, c);
    } else {
      var x := ChecksWindow(s, c).callers[c];
      assert Progress(s.wire, s.book, c, s.callers[c]);
      MoveCounts(s.conn, s.callers, s.topLimit, s.conn, c, x);
      MoveLedger(s.conn, s.callers, s.wire, s.granted, s.lost, s.conn, c, x, s.lost);
      MoveWriting(s.wire, s.book, s.callers, s.wmu, s.conn.nextID, c, x);
      MoveAnswering(s.book, s.callers, s.ended, s.told, c, x);
    }
  }

  // ----- DATA -----

  lemma DataWriteProgress(wire: seq<Frame>, book: map<nat, Entry>, c: nat, w: Caller, x: Caller)
    requires w.Taken? && w.sent + w.take <= |w.req.body| && Progress(wire, book, c, w)
    requires x == if w.sent + w.take == |w.req.body| then AwaitDone(w.id)
                  else Sending(w.id, w.req, w.sent + w.take, None)
    ensures var fs := MoreFrames(w.id, w.req.body, w.sent, w.take);
            Progress(wire + fs, book, c, x) && Carries(On(wire, w.id) + fs, w.id, w.req.block, w.req.body)
  {
    CarriesMore(On(wire, w.id), w.id, w.req.block, w.req.body, w.sent, w.take);
    Grows(wire, w.id, MoreFrames(w.id, w.req.body, w.sent, w.take));
  }

  lemma DataWriteCarry(wire: seq<Frame>, book: map<nat, Entry>, callers: seq<Caller>, c: nat, x: Caller)
    requires CarryOk(wire, book) && ProgressOk(wire, book, callers) && c < |callers| && callers[c].Taken?
    requires var w := callers[c];
             && w.sent + w.take <= |w.req.body|
             && x == (if w.sent + w.take == |w.req.body| then AwaitDone(w.id)
                      else Sending(w.id, w.req, w.sent + w.take, None))
    ensures var w := callers[c];
            var wire' := wire + MoreFrames(w.id, w.req.body, w.sent, w.take);
            CarryOk(wire', book) && ProgressOk(wire', book, callers[c := x])
  {
    var w := callers[c];
    assert Progress(wire, book, c, w);
    DataWriteProgress(wire, book, c, w, x);
    CarryGrows(wire, book, w.id, MoreFrames(w.id, w.req.body, w.sent, w.take));
    ProgressGrows(wire, book, callers, c, x, w.id, MoreFrames(w.id, w.req.body, w.sent, w.take));
  }

  lemma DataWriteOrder(wire: seq<Frame>, callers: seq<Caller>, wmu: Option<nat>, nextID: nat, c: nat, x: Caller,
                       fs: seq<Frame>)
    requires LockOk(callers, wmu) && OrderOk(wire, callers, wmu, nextID) && c < |callers| && !Locks(callers[c])
    requires !Locks(x)
    requires forall f :: f in fs ==> f.typ == DATA
    ensures LockOk(callers[c := x], wmu) && OrderOk(wire + fs, callers[c := x], wmu, nextID)
  {
    LockMove(callers, wmu, c, x, wmu);
    OrderMove(wire, callers, wmu, nextID, c, x);
    OrderOther(wire, callers[c := x], wmu, nextID, fs);
  }

  lemma WritesDataWindows(s: System, c: nat)
    requires ConnLedgerOk(s.conn, s.callers, s.wire, s.granted, s.lost) && ReceiveOk(s.reader, s.wire, s.received)
    requires Enabled(s, DoWritesData(c, true))
    ensures var t := WritesData(s, c, true);
            ConnLedgerOk(t.conn, t.callers, t.wire, t.granted, t.lost) && ReceiveOk(t.reader, t.wire, t.received)
  {
    var w, x := s.callers[c], WritesData(s, c, true).callers[c];
    var fs := MoreFrames(w.id, w.req.body, w.sent, w.take);
    MoreFramesBytes(w.id, w.req.body, w.sent, w.take);
    ConnLedgerMove(s.conn, s.callers, s.wire, s.granted, s.lost, s.conn, c, x, fs, s.lost);
    ReceiveOther(s.reader, s.wire, s.received, fs);
  }

  lemma WritesDataOrder(s: System, c: nat)
    requires LockOk(s.callers, s.wmu) && OrderOk(s.wire, s.callers, s.wmu, s.conn.nextID)
    requires Enabled(s, DoWritesData(c, true))
    ensures var t := WritesData(s, c, true);
            LockOk(t.callers, t.wmu) && OrderOk(t.wire, t.callers, t.wmu, t.conn.nextID)
  {
    var w := s.callers[c];
    DataWriteOrder(s.wire, s.callers, s.wmu, s.conn.nextID, c, WritesData(s, c, true).callers[c],
                   MoreFrames(w.id, w.req.body, w.sent, w.take));
  }

  lemma WritesDataCarry(s: System, c: nat)
    requires CarryOk(s.wire, s.book) && ProgressOk(s.wire, s.book, s.callers) && Enabled(s, DoWritesData(c, true))
    ensures var t := WritesData(s, c, true); CarryOk(t.wire, t.book) && ProgressOk(t.wire, t.book, t.callers)
  {
    DataWriteCarry(s.wire, s.book, s.callers, c, WritesData(s, c, true).callers[c]);
  }

  lemma WritesDataKeeps(s: System, c: nat, ok: bool)
    requires Inv(s) && Enabled(s, DoWritesData(c, ok))
    ensures Inv(WritesData(s, c, ok))
  {
    var t := WritesData(s, c, ok);
    var x := t.callers[c];
    MoveCounts(s.conn, s.callers, s.topLimit, s.conn, c, x);
    MoveAnswering(s.book, s.callers, s.ended, s.told, c, x);
    if ok {
      WritesDataWindows(s, c);
      WritesDataOrder(s, c);
      WritesDataCarry(s, c);
    } else {
      MoveLedger(s.conn, s.callers, s.wire, s.granted, s.lost, s.conn, c, x, t.lost);
      MoveWriting(s.wire, s.book, s.callers, s.wmu, s.conn.nextID, c, x);
    }
  }

  lemma ReceivesKeeps(s: System, c: nat, i: nat)
    requires Inv(s) && Enabled(s, DoReceives(c, i))
    ensures Inv(s.(callers := s.callers[c := Returned(Some(s.callers[c].id), s.ended[i].result)]))
  {
    var x := Returned(Some(s.callers[c].id), s.ended[i].result);
    MoveCounts(s.conn, s.callers, s.topLimit, s.conn, c, x);
    MoveLedger(s.conn, s.callers, s.wire, s.granted, s.lost, s.conn, c, x, s.lost);
    MoveWriting(s.wire, s.book, s.callers, s.wmu, s.conn.nextID, c, x);
    OwnersMove(s.book, s.callers, s.book, c, x);
    ReturnsReceive(s.callers, s.ended, s.told, c, i, s.callers[c].id);
  }

  // ----- WriteBatch -----

  lemma BatchStartsCounts(s: System, req: Req, n: nat, keep: bool)
    requires Counts(s)
    ensures Counts(BatchStarts(s, req, n, keep))
  {
    var t := BatchStarts(s, req, n, keep);
    JoinCounts(s.conn, s.callers, s.topLimit, t.conn, t.callers[|s.callers|]);
  }

  lemma BatchStartsWindows(s: System, req: Req, n: nat, keep: bool)
    requires ConnLedgerOk(s.conn, s.callers, s.wire, s.granted, s.lost)
    ensures var t := BatchStarts(s, req, n, keep); ConnLedgerOk(t.conn, t.callers, t.wire, t.granted, t.lost)
  {
    var t := BatchStarts(s, req, n, keep);
    ConnLedgerJoin(s.conn, s.callers, s.wire, s.granted, s.lost, t.conn, t.callers[|s.callers|]);
  }

  lemma BatchStartsShape(s: System, req: Req, n: nat, keep: bool)
    ensures var t := BatchStarts(s, req, n, keep);
            && t == s.(conn := t.conn, callers := t.callers)
            && t.conn == s.conn.(active := t.conn.active, connSendWindow := t.conn.connSendWindow)
            && |t.callers| == |s.callers| + 1 && t.callers == s.callers + [t.callers[|s.callers|]]
            && (t.callers[|s.callers|].BatchHeld? || t.callers[|s.callers|].BatchReturned?)
  {
  }

  lemma BatchStartsKeeps(s: System, req: Req, n: nat, keep: bool)
    requires Inv(s)
    ensures Inv(BatchStarts(s, req, n, keep))
  {
    BatchStartsShape(s, req, n, keep);
    BatchStartsCounts(s, req, n, keep);
    BatchStartsWindows(s, req, n, keep);
    JoinRest(s.wire, s.book, s.callers, s.wmu, s.conn.nextID, s.ended, s.told,
             BatchStarts(s, req, n, keep).callers[|s.callers|]);
  }

  predicate OpensBatch(s: System, c: nat) {
    Enabled(s, BatchNumbers(c)) && Opens(s.conn, s.callers[c].n)
  }

  lemma BatchOpensCounts(s: System, c: nat)
    requires Counts(s) && Enabled(s, BatchNumbers(c))
    ensures Counts(BatchOpens(s, c))
  {
    var t := BatchOpens(s, c);
    var w, x := s.callers[c], t.callers[c];
    BatchBound(s.conn, s.callers, s.topLimit, c);
    SlotsOpenBatch(s.conn, s.callers, s.topLimit, s.book, c, |w.req.body|, w.keep, x);
    WakeOpenBatch(s.conn, s.callers, s.book, w.n, |w.req.body|, w.keep);
    WakeMove(t.conn, s.callers, c, x);
    if OpensBatch(s, c) {
      IdsOpenBatch(s.conn, s.book, w.n, |w.req.body|, w.keep, Entry(ByBatch, w.req, w.keep, |w.req.body|, 0));
    } else {
      IdsShrink(s.conn, s.book, t.conn, s.book);
    }
  }

  lemma BatchOpensWindows(s: System, c: nat)
    requires LedgerOk(s.conn, s.book) && ConnLedgerOk(s.conn, s.callers, s.wire, s.granted, s.lost)
    requires IdsOk(s.conn, s.book)
    requires Enabled(s, BatchNumbers(c)) && s.callers[c].n <= STREAM_CAP
    ensures var t := BatchOpens(s, c);
            LedgerOk(t.conn, t.book) && ConnLedgerOk(t.conn, t.callers, t.wire, t.granted, t.lost)
  {
    var t := BatchOpens(s, c);
    var w := s.callers[c];
    MoveLedger(s.conn, s.callers, s.wire, s.granted, s.lost, t.conn, c, t.callers[c], t.lost);
    if OpensBatch(s, c) {
      LedgerOpenBatch(s.conn, s.book, w.n, w.keep, w.req);
    } else {
      LedgerShrink(s.conn, s.book, t.conn);
    }
  }

  /** What opening n streams from nextID does to the book: new entries above everything, old ones as they were. */
  lemma BatchBook(conn: Conn, book: map<nat, Entry>, n: nat, e: Entry)
    requires IdsOk(conn, book) && n <= STREAM_CAP && Opens(conn, n)
    ensures conn.nextID + 2 * n <= MAX_STREAM_ID + 2 && Wrap(conn.nextID + 2 * n) == conn.nextID + 2 * n
    ensures var book' := AddEntries(book, conn.nextID, n, e);
            && (forall id :: id in book ==> id in book' && book'[id] == book[id])
            && (forall id :: id in book' && id !in book ==> book'[id] == e && InBatch(id, conn.nextID, n))
            && (forall id :: InBatch(id, conn.nextID, n) ==> id in book' && id !in book && book'[id] == e)
            && 0 !in book'
  {
    if n > 0 {
      BatchFitsExactly(conn, n);
    }
    ZeroNeverOpened(conn, book);
    AddEntriesMap(book, conn.nextID, n, e);
    forall id | InBatch(id, conn.nextID, n) ensures id !in book {
      assert !OpenedId(id, conn.nextID);
    }
  }

  lemma BatchOpensCarry(wire: seq<Frame>, book: map<nat, Entry>, callers: seq<Caller>, c: nat, x: Caller,
                        book': map<nat, Entry>)
    requires CarryOk(wire, book) && ProgressOk(wire, book, callers) && c < |callers| && x.BatchNumbered?
    requires x.first % 2 == 1 && x.first + 2 * x.n <= MAX_STREAM_ID + 2 && 0 !in book'
    requires forall id :: id in book ==> id in book' && book'[id] == book[id]
    requires forall id :: InBatch(id, x.first, x.n) ==> id !in book && Wire.Opened(book', id, ByBatch, x.req)
    ensures CarryOk(wire, book') && ProgressOk(wire, book', callers[c := x])
  {
    CarryExtends(wire, book, book');
    ProgressExtends(wire, book, book', callers);
    forall id | InBatch(id, x.first, x.n) ensures On(wire, id) == [] {
      NothingYet(wire, book, id);
    }
    ProgressMove(wire, book', callers, c, x);
  }

  lemma BatchOpensWriting(s: System, c: nat)
    requires Writing(s) && IdsOk(s.conn, s.book) && OpensBatch(s, c) && s.callers[c].n <= STREAM_CAP
    ensures Writing(BatchOpens(s, c))
  {
    var t := BatchOpens(s, c);
    var w, x := s.callers[c], t.callers[c];
    BatchBook(s.conn, s.book, w.n, Entry(ByBatch, w.req, w.keep, |w.req.body|, 0));
    LockMove(s.callers, s.wmu, c, x, Some(c));
    OrderNumber(s.wire, s.callers, s.conn.nextID, c, x, s.conn.nextID + 2 * w.n);
    BatchOpensCarry(s.wire, s.book, s.callers, c, x, t.book);
  }

  lemma BatchPlaces(conn: Conn, book: map<nat, Entry>, ended: seq<Ended>, n: nat, st: Stream, e: Entry)
    requires PlaceOk(conn.streams, book, ended) && IdsOk(conn, book) && n <= STREAM_CAP && Opens(conn, n)
    requires st.owner == e.owner && st.keep == e.keep
    ensures PlaceOk(AddStreams(conn.streams, conn.nextID, n, st), AddEntries(book, conn.nextID, n, e), ended)
  {
    BatchBook(conn, book, n, e);
    AddStreamsMap(conn.streams, conn.nextID, n, st);
    PlaceOpen(conn.streams, book, ended, AddStreams(conn.streams, conn.nextID, n, st),
              AddEntries(book, conn.nextID, n, e));
  }

  lemma BatchOpensOwners(s: System, c: nat)
    requires OwnersOk(s.book, s.callers) && ReturnsOk(s.callers, s.ended, s.told)
    requires IdsOk(s.conn, s.book) && OpensBatch(s, c) && s.callers[c].n <= STREAM_CAP
    ensures var t := BatchOpens(s, c); OwnersOk(t.book, t.callers) && ReturnsOk(t.callers, t.ended, t.told)
  {
    var t := BatchOpens(s, c);
    var w, x := s.callers[c], t.callers[c];
    BatchBook(s.conn, s.book, w.n, Entry(ByBatch, w.req, w.keep, |w.req.body|, 0));
    OwnersBatch(s.book, s.callers, t.book, c, x);
    ReturnsMove(s.callers, s.ended, s.told, c, x);
  }

  lemma BatchOpensDemux(s: System, c: nat)
    requires LiveOk(s.conn.streams, s.trace) && EndedOk(s.ended, s.book, s.trace)
    requires IdsOk(s.conn, s.book) && OpensBatch(s, c) && s.callers[c].n <= STREAM_CAP
    ensures var t := BatchOpens(s, c); LiveOk(t.conn.streams, t.trace) && EndedOk(t.ended, t.book, t.trace)
  {
    var t := BatchOpens(s, c);
    var w := s.callers[c];
    BatchBook(s.conn, s.book, w.n, Entry(ByBatch, w.req, w.keep, |w.req.body|, 0));
    LiveBatch(s.conn.streams, s.trace, s.conn.nextID, w.n,
              Stream(ByBatch, w.keep, s.conn.peerInitialWindow - |w.req.body|, FRESH));
    EndedLater(s.ended, s.book, s.trace, t.book, Openings(s.conn.nextID, w.n));
  }

  lemma BatchOpensReader(s: System, c: nat)
    requires ReaderOk(s.conn, s.reader) && IdsOk(s.conn, s.book) && OpensBatch(s, c) && s.callers[c].n <= STREAM_CAP
    ensures var t := BatchOpens(s, c); ReaderOk(t.conn, t.reader)
  {
    var w := s.callers[c];
    BatchStreamsStay(s.conn, s.book, w.n, Stream(ByBatch, w.keep, s.conn.peerInitialWindow - |w.req.body|, FRESH));
  }

  lemma BatchStreamsStay(conn: Conn, book: map<nat, Entry>, n: nat, st: Stream)
    requires IdsOk(conn, book) && n <= STREAM_CAP && Opens(conn, n)
    ensures forall id :: id in conn.streams ==> id in AddStreams(conn.streams, conn.nextID, n, st)
  {
    if n > 0 {
      BatchFitsExactly(conn, n);
    }
    AddStreamsMap(conn.streams, conn.nextID, n, st);
  }

  lemma BatchOpensAnswering(s: System, c: nat)
    requires Answering(s) && IdsOk(s.conn, s.book) && OpensBatch(s, c) && s.callers[c].n <= STREAM_CAP
    ensures Answering(BatchOpens(s, c))
  {
    var w := s.callers[c];
    BatchPlaces(s.conn, s.book, s.ended, w.n, Stream(ByBatch, w.keep, s.conn.peerInitialWindow - |w.req.body|, FRESH),
                Entry(ByBatch, w.req, w.keep, |w.req.body|, 0));
    BatchOpensOwners(s, c);
    BatchOpensDemux(s, c);
    BatchOpensReader(s, c);
  }

  lemma BatchOpensKeeps(s: System, c: nat)
    requires Inv(s) && Enabled(s, BatchNumbers(c))
    ensures Inv(BatchOpens(s, c))
  {
    BatchBound(s.conn, s.callers, s.topLimit, c);
    BatchOpensCounts(s, c);
    BatchOpensWindows(s, c);
    if OpensBatch(s, c) {
      BatchOpensWriting(s, c);
      BatchOpensAnswering(s, c);
    } else {
      var x := BatchOpens(s, c).callers[c];
      MoveWriting(s.wire, s.book, s.callers, s.wmu, s.conn.nextID, c, x);
      MoveAnswering(s.book, s.callers, s.ended, s.told, c, x);
    }
  }

  lemma BatchWrittenWindows(s: System, c: nat)
    requires ConnLedgerOk(s.conn, s.callers, s.wire, s.granted, s.lost) && ReceiveOk(s.reader, s.wire, s.received)
    requires Enabled(s, BatchWrites(c, true)) && Progress(s.wire, s.book, c, s.callers[c])
    ensures var t := BatchWritten(s, c, true);
            ConnLedgerOk(t.conn, t.callers, t.wire, t.granted, t.lost) && ReceiveOk(t.reader, t.wire, t.received)
  {
    var w := s.callers[c];
    var fs := RepeatFrames(w.req.block, w.req.body, w.first, w.n);
    DataBytesRepeat(w.req.block, w.req.body, w.first, w.n);
    ConnLedgerMove(s.conn, s.callers, s.wire, s.granted, s.lost, s.conn, c, BatchReturned(w.n, None), fs, s.lost);
    RepeatTracked(w.req.block, w.req.body, w.first, w.n);
    ReceiveOther(s.reader, s.wire, s.received, fs);
  }

  lemma BatchWrittenOrder(wire: seq<Frame>, callers: seq<Caller>, wmu: Option<nat>, nextID: nat, c: nat, x: Caller)
    requires LockOk(callers, wmu) && OrderOk(wire, callers, wmu, nextID) && c < |callers| && callers[c].BatchNumbered?
    requires !Locks(x)
    requires nextID <= MAX_STREAM_ID + 2
    ensures var w := callers[c];
            && LockOk(callers[c := x], None)
            && OrderOk(wire + RepeatFrames(w.req.block, w.req.body, w.first, w.n), callers[c := x], None, nextID)
  {
    var w := callers[c];
    RepeatOrdered(w.req.block, w.req.body, w.first, w.n);
    LockMove(callers, wmu, c, x, None);
    OrderWrite(wire, callers, nextID, c, x, RepeatFrames(w.req.block, w.req.body, w.first, w.n));
  }

  lemma BatchWrittenWriting(s: System, c: nat)
    requires Writing(s) && IdsOk(s.conn, s.book) && Enabled(s, BatchWrites(c, true))
    ensures Writing(BatchWritten(s, c, true))
  {
    var w := s.callers[c];
    assert Progress(s.wire, s.book, c, w);
    BatchWrittenOrder(s.wire, s.callers, s.wmu, s.conn.nextID, c, BatchReturned(w.n, None));
    CarryBatch(s.wire, s.book, c, w.first, w.req, w.n);
    ProgressBatch(s.wire, s.book, s.callers, s.wmu, c, BatchReturned(w.n, None));
  }

  lemma BatchWrittenKeeps(s: System, c: nat, ok: bool)
    requires Inv(s) && Enabled(s, BatchWrites(c, ok))
    ensures Inv(BatchWritten(s, c, ok))
  {
    var t := BatchWritten(s, c, ok);
    var x := t.callers[c];
    MoveCounts(s.conn, s.callers, s.topLimit, s.conn, c, x);
    MoveAnswering(s.book, s.callers, s.ended, s.told, c, x);
    assert Progress(s.wire, s.book, c, s.callers[c]);
    if ok {
      BatchWrittenWindows(s, c);
      BatchWrittenWriting(s, c);
    } else {
      MoveLedger(s.conn, s.callers, s.wire, s.granted, s.lost, s.conn, c, x, t.lost);
      FailedWriteOrder(s.wire, s.book, s.callers, s.wmu, s.conn.nextID, c, x);
    }
  }

  // ----- the reader -----

  lemma EndsCounts(s: System, id: nat, cause: Cause)
    requires Counts(s)
    ensures Counts(Ends(s, id, cause))
  {
    var t := Ends(s, id, cause);
    if id in s.conn.streams {
      assert t.conn.streams.Keys == s.conn.streams.Keys - {id};
      SlotsShrink(s.conn, s.callers, s.topLimit, t.conn, {id});
      IdsShrink(s.conn, s.book, t.conn, s.book);
      WakeBroadcast(s.conn, s.callers, t.conn);
    }
  }

  lemma EndsAnswering(s: System, id: nat, cause: Cause)
    requires Answering(s) && s.reader.phase.Idle?
    ensures Answering(Ends(s, id, cause))
  {
    var t := Ends(s, id, cause);
    if id in s.conn.streams {
      PlaceRemove(s, id, cause);
      ReturnsGrow(s.callers, s.ended, s.told, t.ended, s.told);
      LiveSame(s.conn.streams, s.trace, t.conn.streams);
      EndedNow(s.ended, s.book, s.trace, t.ended[|s.ended|..], s.conn.streams);
      assert s.ended + t.ended[|s.ended|..] == t.ended;
    }
  }

  lemma EndsWindows(s: System, id: nat, cause: Cause)
    requires Windows(s)
    ensures Windows(Ends(s, id, cause))
  {
    LedgerShrink(s.conn, s.book, Ends(s, id, cause).conn);
  }

  lemma EndsKeeps(s: System, id: nat, cause: Cause)
    requires Inv(s) && s.reader.phase.Idle?
    ensures Inv(Ends(s, id, cause))
  {
    EndsCounts(s, id, cause);
    EndsWindows(s, id, cause);
    EndsAnswering(s, id, cause);
  }

  lemma RespondsCounts(conn: Conn, callers: seq<Caller>, top: int, book: map<nat, Entry>, id: nat, r: Response)
    requires SlotsOk(conn, callers, top) && IdsOk(conn, book) && WakeOk(conn, callers)
    ensures var d := SetResponse(conn, id, r); SlotsOk(d, callers, top) && IdsOk(d, book) && WakeOk(d, callers)
    ensures SetResponse(conn, id, r).streams.Keys == conn.streams.Keys
  {
    var d := SetResponse(conn, id, r);
    assert d.streams.Keys == conn.streams.Keys;
    MapSame(d.streams, conn.streams);
    IdsShrink(conn, book, d, book);
    WakeQuiet(conn, callers, d);
  }

  /** An event reaches a stream in the map, and the reader goes idle. */
  function Responds(s: System, id: nat, e: Event): System
    requires id in s.conn.streams
  {
    s.(conn := SetResponse(s.conn, id, Apply(s.conn.streams[id].keep, s.conn.streams[id].resp, e)),
       trace := s.trace + [e],
       reader := s.reader.(phase := Idle, hdrStream := None))
  }

  lemma RespondsAnswering(s: System, id: nat, e: Event)
    requires Answering(s) && id in s.conn.streams && e.id == id && !e.Opened?
    ensures Answering(Responds(s, id, e))
  {
    var t := Responds(s, id, e);
    assert t.conn.streams.Keys == s.conn.streams.Keys;
    PlaceSame(s.conn.streams, s.book, s.ended, t.conn.streams, s.book);
    LiveEvent(s.conn.streams, s.trace, id, e, t.conn.streams[id].resp);
    EndedLater(s.ended, s.book, s.trace, s.book, [e]);
  }

  lemma ReceiveIdle(reader: Reader, wire: seq<Frame>, received: nat, reader': Reader)
    requires ReceiveOk(reader, wire, received) && reader'.recvConsumed == reader.recvConsumed
    requires (reader.phase.Failing? || reader.phase.Exited?) ==> (reader'.phase.Failing? || reader'.phase.Exited?)
    ensures ReceiveOk(reader', wire, received)
  {
  }

  lemma RespondsWindows(s: System, id: nat, e: Event)
    requires Windows(s) && id in s.conn.streams && !s.reader.phase.Failing? && !s.reader.phase.Exited?
    ensures Windows(Responds(s, id, e))
  {
    var t := Responds(s, id, e);
    LedgerShrink(s.conn, s.book, t.conn);
    ReceiveIdle(s.reader, s.wire, s.received, t.reader);
  }

  lemma RespondsKeeps(s: System, id: nat, e: Event)
    requires Inv(s) && id in s.conn.streams && e.id == id && !e.Opened? && !s.reader.phase.Failing?
    requires !s.reader.phase.Exited?
    ensures Inv(Responds(s, id, e))
  {
    RespondsCounts(s.conn, s.callers, s.topLimit, s.book, id,
                   Apply(s.conn.streams[id].keep, s.conn.streams[id].resp, e));
    RespondsWindows(s, id, e);
    RespondsAnswering(s, id, e);
  }

  lemma HandlesDataKeeps(s: System)
    requires Inv(s) && Enabled(s, HandleData)
    ensures Inv(HandlesData(s))
  {
    var f := s.reader.phase;
    var e := Data(f.id, f.data);
    if f.id in s.conn.streams {
      var u := Responds(s, f.id, e).(reader := s.reader.(phase := Idle));
      RespondsKeeps(s, f.id, e);
      IdleKeeps(Responds(s, f.id, e), u);
      if f.ends {
        EndsKeeps(u, f.id, Answered);
      }
    } else {
      ElsewhereKeeps(s, e);
    }
  }

  /** The reader's own header fields matter only inside a block. */
  lemma IdleKeeps(s: System, t: System)
    requires Inv(s) && t == s.(reader := t.reader) && s.reader.phase.Idle? && t.reader.phase.Idle?
    requires t.reader.recvConsumed == s.reader.recvConsumed
    ensures Inv(t)
  {
    ReceiveIdle(s.reader, s.wire, s.received, t.reader);
  }

  lemma ElsewhereKeeps(s: System, e: Event)
    requires Inv(s) && e.id !in s.conn.streams && s.reader.phase.GotData?
    ensures Inv(s.(reader := s.reader.(phase := Idle), trace := s.trace + [e]))
  {
    LiveElsewhere(s.conn.streams, s.trace, e);
    EndedLater(s.ended, s.book, s.trace, s.book, [e]);
    ReceiveIdle(s.reader, s.wire, s.received, s.reader.(phase := Idle));
  }

  lemma BlockIsResponse(s: System, id: nat, e: Event)
    requires Enabled(s, EndBlock) && s.reader.hdrStatus == LastStatus(0, s.reader.fields)
    requires s.reader.hdrStream == Some(id) && id in s.conn.streams && e == Block(id, s.reader.fields)
    ensures EndsBlock(s) == if s.reader.hdrEnd then Ends(Responds(s, id, e), id, Answered) else Responds(s, id, e)
  {
  }

  lemma EndsBlockKeeps(s: System)
    requires Inv(s) && Enabled(s, EndBlock)
    ensures Inv(EndsBlock(s))
  {
    var r := s.reader;
    if r.hdrStream.Some? && r.hdrStream.value in s.conn.streams {
      var e := Block(r.hdrStream.value, r.fields);
      BlockIsResponse(s, e.id, e);
      RespondsKeeps(s, e.id, e);
      if r.hdrEnd {
        EndsKeeps(Responds(s, e.id, e), e.id, Answered);
      }
    } else {
      PhaseKeeps(s, s.reader.(phase := Idle, hdrStream := None));
    }
  }

  /** Half the window used: the WINDOW_UPDATE for it goes out and the count starts again. */
  lemma UpdateWindows(s: System, f: Frame, used: nat, length: nat, reader': Reader)
    requires Windows(s) && used == s.reader.recvConsumed + length && reader'.recvConsumed == 0
    requires f.typ == WINDOW_UPDATE && UpdateOk(f) && Updates(s.wire + [f]) == Updates(s.wire) + used
    ensures Windows(s.(received := s.received + length, wire := s.wire + [f], reader := reader'))
  {
    ConnLedgerControl(s.conn, s.callers, s.wire, s.granted, s.lost, f);
  }

  lemma UpdateSent(s: System, used: nat, length: nat, reader': Reader)
    requires Windows(s) && used == s.reader.recvConsumed + length && reader'.recvConsumed == 0
    requires CONN_WINDOW / 2 <= used < CONN_WINDOW
    ensures Windows(s.(received := s.received + length, wire := s.wire + [WindowUpdate(0, used)], reader := reader'))
  {
    ReceiveData(s.reader, s.wire, s.received, used);
    UpdateWindows(s, WindowUpdate(0, used), used, length, reader');
  }

  /** Less than half used, or the write failed: the count grows. */
  lemma ConsumeWindows(s: System, length: nat, reader': Reader)
    requires Windows(s) && reader'.recvConsumed == s.reader.recvConsumed + length
    requires reader'.recvConsumed < CONN_WINDOW / 2 || reader'.phase.Failing?
    ensures Windows(s.(received := s.received + length, reader := reader'))
  {
  }

  lemma AccountsWindows(s: System, id: nat, length: nat, data: seq<Byte>, ends: bool, ok: bool)
    requires Windows(s) && Enabled(s, ReadData(id, length, data, ends, ok))
    ensures Windows(AccountsData(s, id, length, data, ends, ok))
  {
    var used := s.reader.recvConsumed + length;
    if used < CONN_WINDOW / 2 {
      ConsumeWindows(s, length, s.reader.(recvConsumed := used, phase := GotData(id, data, ends)));
    } else if ok {
      UpdateSent(s, used, length, s.reader.(recvConsumed := 0, phase := GotData(id, data, ends)));
    } else {
      ConsumeWindows(s, length, s.reader.(recvConsumed := used, phase := Failing(WriteFailed)));
    }
  }

  lemma ControlWriting(s: System, f: Frame)
    requires Writing(s) && 0 !in s.book && f.id == 0 && f.typ != HEADERS && f.typ != DATA
    ensures Writing(s.(wire := s.wire + [f]))
  {
    OrderOther(s.wire, s.callers, s.wmu, s.conn.nextID, [f]);
    ControlGrows(s.wire, s.book, s.callers, f);
  }

  lemma ReaderWriting(s: System, received: nat, reader': Reader)
    requires Writing(s)
    ensures Writing(s.(received := received, reader := reader'))
  {
  }

  lemma UpdateWriting(s: System, f: Frame, received: nat, reader': Reader)
    requires Writing(s) && 0 !in s.book && f.id == 0 && f.typ == WINDOW_UPDATE
    ensures Writing(s.(received := received, wire := s.wire + [f], reader := reader'))
  {
    ControlWriting(s, f);
  }

  lemma AccountsWriting(s: System, id: nat, length: nat, data: seq<Byte>, ends: bool, ok: bool)
    requires Writing(s) && 0 !in s.book
    ensures Writing(AccountsData(s, id, length, data, ends, ok))
  {
    var used := s.reader.recvConsumed + length;
    if used < CONN_WINDOW / 2 {
      ReaderWriting(s, s.received + length, s.reader.(recvConsumed := used, phase := GotData(id, data, ends)));
    } else if ok {
      UpdateWriting(s, WindowUpdate(0, used), s.received + length,
                    s.reader.(recvConsumed := 0, phase := GotData(id, data, ends)));
    } else {
      ReaderWriting(s, s.received + length, s.reader.(recvConsumed := used, phase := Failing(WriteFailed)));
    }
  }

  lemma AccountsKeeps(s: System, id: nat, length: nat, data: seq<Byte>, ends: bool, ok: bool)
    requires Inv(s) && Enabled(s, ReadData(id, length, data, ends, ok))
    ensures Inv(AccountsData(s, id, length, data, ends, ok))
  {
    ZeroNeverOpened(s.conn, s.book);
    AccountsWindows(s, id, length, data, ends, ok);
    AccountsWriting(s, id, length, data, ends, ok);
  }

  lemma ControlWindows(s: System, f: Frame, reader': Reader)
    requires Windows(s) && f.typ != DATA && f.typ != WINDOW_UPDATE && reader'.recvConsumed == s.reader.recvConsumed
    requires !s.reader.phase.Failing? && !s.reader.phase.Exited?
    ensures Windows(s.(wire := s.wire + [f], reader := reader'))
  {
    ConnLedgerControl(s.conn, s.callers, s.wire, s.granted, s.lost, f);
    ReceiveOther(s.reader, s.wire, s.received, [f]);
    ReceiveIdle(s.reader, s.wire + [f], s.received, reader');
  }

  /** A control frame the reader writes before it goes idle. */
  lemma ControlKeeps(s: System, f: Frame)
    requires Inv(s) && f.id == 0 && f.typ != HEADERS && f.typ != DATA && f.typ != WINDOW_UPDATE
    requires s.reader.phase.Idle? || s.reader.phase.OwesAck?
    ensures Inv(s.(wire := s.wire + [f], reader := s.reader.(phase := Idle)))
  {
    ZeroNeverOpened(s.conn, s.book);
    ControlWriting(s, f);
    ControlWindows(s, f, s.reader.(phase := Idle));
  }

  /** The reader changes phase alone. */
  lemma PhaseKeeps(s: System, reader': Reader)
    requires Inv(s) && !s.reader.phase.Exited? && reader'.recvConsumed == s.reader.recvConsumed
    requires !reader'.phase.Exited?
    requires s.reader.phase.Failing? ==> reader'.phase.Failing?
    requires reader'.phase.InBlock? ==>
               && reader'.hdrStatus == LastStatus(0, reader'.fields)
               && (reader'.hdrStream.Some? ==> reader'.hdrStream.value in s.conn.streams)
    ensures Inv(s.(reader := reader'))
  {
    ReceiveIdle(s.reader, s.wire, s.received, reader');
  }

  lemma FragmentKeeps(s: System, statuses: seq<int>)
    requires Inv(s) && Enabled(s, ReadFragment(statuses))
    ensures Inv(TakesFragment(s, statuses))
  {
    FragmentsJoin(s.reader.fields, statuses);
    PhaseKeeps(s, TakesFragment(s, statuses).reader);
  }

  lemma SettingsCounts(s: System, ss: seq<Setting>)
    requires Counts(s)
    ensures Counts(TakesSettings(s, ss))
  {
    var t := TakesSettings(s, ss);
    SlotsSettings(s.conn, s.callers, s.topLimit, ss);
    SettingsFrame(s.conn, ss, s.topLimit);
    IdsShrink(s.conn, s.book, t.conn, s.book);
    WakeBroadcast(s.conn, s.callers, t.conn);
  }

  lemma SettingsAnswering(s: System, ss: seq<Setting>)
    requires Answering(s) && SlotsOk(s.conn, s.callers, s.topLimit)
    ensures Answering(TakesSettings(s, ss))
  {
    var t := TakesSettings(s, ss);
    SettingsFrame(s.conn, ss, s.topLimit);
    PlaceSame(s.conn.streams, s.book, s.ended, t.conn.streams, s.book);
    LiveSame(s.conn.streams, s.trace, t.conn.streams) by {
      assert forall id :: id in t.conn.streams ==> id in s.conn.streams.Keys;
    }
  }

  lemma SettingsWindows(s: System, ss: seq<Setting>)
    requires Windows(s) && SlotsOk(s.conn, s.callers, s.topLimit) && s.reader.phase.Idle?
    ensures Windows(TakesSettings(s, ss))
  {
    LedgerSettings(s.conn, s.book, ss, s.topLimit);
    SettingsFrame(s.conn, ss, s.topLimit);
    ReceiveIdle(s.reader, s.wire, s.received, s.reader.(phase := OwesAck));
  }

  lemma SettingsKeeps(s: System, ss: seq<Setting>)
    requires Inv(s) && Enabled(s, ReadSettings(ss))
    ensures Inv(TakesSettings(s, ss))
  {
    SettingsFrame(s.conn, ss, s.topLimit);
    SettingsCounts(s, ss);
    SettingsWindows(s, ss);
    SettingsAnswering(s, ss);
  }

  lemma WindowUpdateCounts(s: System, id: nat, increment: nat)
    requires Counts(s)
    ensures Counts(TakesWindowUpdate(s, id, increment))
  {
    var t := TakesWindowUpdate(s, id, increment);
    assert t.conn.streams.Keys == s.conn.streams.Keys && t.book.Keys == s.book.Keys;
    MapSame(s.conn.streams, t.conn.streams);
    IdsShrink(s.conn, s.book, t.conn, t.book);
    WakeBroadcast(s.conn, s.callers, t.conn);
  }

  lemma WindowUpdateWriting(s: System, id: nat, increment: nat)
    requires Writing(s) && 0 !in s.book
    ensures Writing(TakesWindowUpdate(s, id, increment))
  {
    var t := TakesWindowUpdate(s, id, increment);
    CarryExtends(s.wire, s.book, t.book);
    ProgressExtends(s.wire, s.book, t.book, s.callers);
  }

  lemma WindowUpdateAnswering(s: System, id: nat, increment: nat)
    requires Answering(s)
    ensures Answering(TakesWindowUpdate(s, id, increment))
  {
    var t := TakesWindowUpdate(s, id, increment);
    assert t.conn.streams.Keys == s.conn.streams.Keys && t.book.Keys == s.book.Keys;
    PlaceSame(s.conn.streams, s.book, s.ended, t.conn.streams, t.book);
    LiveSame(s.conn.streams, s.trace, t.conn.streams);
    EndedLater(s.ended, s.book, s.trace, t.book, []);
    assert s.trace + [] == s.trace;
  }

  lemma WindowUpdateKeeps(s: System, id: nat, increment: nat)
    requires Inv(s)
    ensures Inv(TakesWindowUpdate(s, id, increment))
  {
    ZeroNeverOpened(s.conn, s.book);
    WindowUpdateCounts(s, id, increment);
    LedgerWindowUpdate(s, id, increment);
    WindowUpdateWriting(s, id, increment);
    WindowUpdateAnswering(s, id, increment);
  }

  /** Several streams leave the map at once: GOAWAY's refused ones, or all of them as the reader exits. */
  lemma ManyEndCounts(conn: Conn, callers: seq<Caller>, top: int, book: map<nat, Entry>, conn': Conn, gone: set<nat>)
    requires SlotsOk(conn, callers, top) && IdsOk(conn, book) && WakeOk(conn, callers)
    requires gone <= conn.streams.Keys && conn'.streams == conn.streams - gone && conn'.active == conn.active - |gone|
    requires conn'.nextID == conn.nextID && conn'.peerMaxStreams == conn.peerMaxStreams && conn'.wakes > conn.wakes
    ensures SlotsOk(conn', callers, top) && IdsOk(conn', book) && WakeOk(conn', callers)
  {
    assert conn'.streams.Keys == conn.streams.Keys - gone;
    SlotsShrink(conn, callers, top, conn', gone);
    IdsShrink(conn, book, conn', book);
    WakeBroadcast(conn, callers, conn');
  }

  lemma ManyEndAnswering(streams: map<nat, Stream>, book: map<nat, Entry>, callers: seq<Caller>, ended: seq<Ended>,
                         told: nat, trace: seq<Event>,
                         order: seq<nat>, gone: set<nat>, cause: Cause)
    requires PlaceOk(streams, book, ended) && ReturnsOk(callers, ended, told) && LiveOk(streams, trace)
    requires EndedOk(ended, book, trace)
    requires gone <= streams.Keys && Enumerates(order, gone)
    ensures forall id :: id in order ==> id in streams
    ensures var ended' := ended + EndingsOf(streams, order, cause, |trace|);
            && PlaceOk(streams - gone, book, ended') && ReturnsOk(callers, ended', told)
            && LiveOk(streams - gone, trace) && EndedOk(ended', book, trace)
  {
    var es := EndingsOf(streams, order, cause, |trace|);
    PlaceEnds(streams, book, ended, order, gone, es);
    ReturnsGrow(callers, ended, told, ended + es, told);
    LiveSame(streams, trace, streams - gone);
    EndedNow(ended, book, trace, es, streams);
  }

  lemma GoesAwayAnswering(s: System, last: nat, code: nat, order: seq<nat>)
    requires Answering(s) && Enabled(s, ReadGoAway(last, code, order))
    ensures Answering(GoesAway(s, last, code, order))
  {
    var cause := Refused(Away(s.conn, last, code).err.value);
    ManyEndAnswering(s.conn.streams, s.book, s.callers, s.ended, s.told, s.trace, order, Above(s.conn.streams, last),
                     cause);
  }

  lemma GoesAwayKeeps(s: System, last: nat, code: nat, order: seq<nat>)
    requires Inv(s) && Enabled(s, ReadGoAway(last, code, order))
    ensures Inv(GoesAway(s, last, code, order))
  {
    var t := GoesAway(s, last, code, order);
    ManyEndCounts(s.conn, s.callers, s.topLimit, s.book, t.conn, Above(s.conn.streams, last));
    LedgerShrink(s.conn, s.book, t.conn);
    GoesAwayAnswering(s, last, code, order);
  }

  lemma ExitsAnswering(s: System, order: seq<nat>)
    requires Answering(s) && Enabled(s, ReaderExits(order))
    ensures Answering(Exits(s, order))
  {
    var cause := ConnectionLost(Exit(s.conn, s.reader.phase.err).err.value);
    ManyEndAnswering(s.conn.streams, s.book, s.callers, s.ended, s.told, s.trace, order, s.conn.streams.Keys, cause);
    assert s.conn.streams - s.conn.streams.Keys == map[];
  }

  lemma ExitsKeeps(s: System, order: seq<nat>)
    requires Inv(s) && Enabled(s, ReaderExits(order))
    ensures Inv(Exits(s, order))
  {
    var t := Exits(s, order);
    assert s.conn.streams - s.conn.streams.Keys == map[];
    assert |s.conn.streams.Keys| == |s.conn.streams|;
    ManyEndCounts(s.conn, s.callers, s.topLimit, s.book, t.conn, s.conn.streams.Keys);
    LedgerStart(t.conn);
    LedgerShrink(s.conn, s.book, t.conn);
    ReceiveIdle(s.reader, s.wire, s.received, t.reader);
    ExitsAnswering(s, order);
  }

  lemma TellsKeeps(s: System)
    requires Inv(s) && s.told < |s.ended|
    ensures Inv(s.(told := s.told + 1))
  {
    ReturnsGrow(s.callers, s.ended, s.told, s.ended, s.told + 1);
  }
}
