/**
 The whole connection: any number of Do and WriteBatch callers and one reader, each advancing by one critical section,
 one write or one channel receive at a time, in any order. Two locks: wmu, held from numbering a stream until its
 HEADERS are written, and mu, held for exactly one step. A write may fail at any time; a failed write puts nothing on
 the wire.
 */
module Protocol {
  import opened Bytes
  import opened Frames
  import opened Requests
  import opened Segments
  import opened ConnState

  datatype Req = Req(block: seq<Byte>, body: seq<Byte>)

  /** Where a caller is. asleep is the Broadcast count it slept at. */
  datatype Caller =
    | SlotWait(req: Req, keep: bool, asleep: Option<nat>)          // Do, in its first loop
    | SlotHeld(req: Req, keep: bool)                               // a slot, no number yet
    | Numbered(id: nat, req: Req, take: nat)                       // holds wmu, about to write
    | Sending(id: nat, req: Req, sent: nat, asleep: Option<nat>)   // in writeStream's loop
    | Taken(id: nat, req: Req, sent: nat, take: nat)               // has window, about to write DATA
    | AwaitDone(id: nat)                                           // waits on the done channel
    | Returned(stream: Option<nat>, result: Response)
    | BatchHeld(req: Req, n: nat, keep: bool)                      // slots and window, no numbers yet
    | BatchNumbered(first: nat, req: Req, n: nat)                  // holds wmu, about to write
    | BatchReturned(count: nat, err: Option<Error>)

  /** The reader: between frames, inside a header block, handing a DATA frame on, owing a SETTINGS ack, or done. */
  datatype Phase =
    | Idle
    | InBlock
    | GotData(id: nat, data: seq<Byte>, ends: bool)
    | OwesAck
    | Failing(err: Error)
    | Exited

  /** fields is every :status decoded so far in the open block, fragment after fragment. */
  datatype Reader = Reader(phase: Phase, hdrStream: Option<nat>, hdrStatus: int, hdrEnd: bool, fields: seq<int>,
                           recvConsumed: nat)

  /** Why a stream left the map. */
  datatype Cause = Answered | Reset(code: nat) | Refused(err: Error) | ConnectionLost(err: Error)

  /** A stream that left the map, and the trace's length when it did. */
  datatype Ended = Ended(id: nat, owner: Owner, result: Response, cause: Cause, at: nat)

  /** What has been recorded of a stream ever opened: its owner and request, octets taken, WINDOW_UPDATEs received. */
  datatype Entry = Entry(owner: Owner, req: Req, keep: bool, taken: nat, granted: nat)

  /** What the reader and the numbering did, in order. */
  datatype Event = Opened(id: nat) | Data(id: nat, data: seq<Byte>) | Block(id: nat, fields: seq<int>)

  /** conn, wmu, callers and reader are the program's; the rest records what happened. ended[..told] have been handed
      over through done or OnResult, in that order. lost counts octets of window given to writes that never happened. */
  datatype System = System(conn: Conn, callers: seq<Caller>, wmu: Option<nat>, reader: Reader,
                           wire: seq<Frame>, ended: seq<Ended>, told: nat, book: map<nat, Entry>, trace: seq<Event>,
                           granted: nat, lost: nat, received: nat, topLimit: int)

  const START := System(INITIAL, [], None, Reader(Idle, None, 0, false, [], 0),
                        [], [], 0, map[], [], 0, 0, 0, 100)

  datatype Step =
    | DoArrives(req: Req, keep: bool)
    | DoChecksSlot(c: nat)
    | DoNumbers(c: nat)
    | DoWrites(c: nat, ok: bool)
    | DoChecksWindow(c: nat)
    | DoWritesData(c: nat, ok: bool)
    | DoReceives(c: nat, i: nat)
    | BatchArrives(req: Req, n: nat, keep: bool)
    | BatchNumbers(c: nat)
    | BatchWrites(c: nat, ok: bool)
    | ReadData(id: nat, length: nat, data: seq<Byte>, ends: bool, ok: bool)
    | HandleData
    | ReadHeaders(id: nat, endStream: bool)
    | ReadFragment(statuses: seq<int>)
    | EndBlock
    | ReadSettings(ss: seq<Setting>)
    | AckSettings(ok: bool)
    | ReadWindowUpdate(id: nat, increment: nat)
    | ReadPing(data: seq<Byte>, ok: bool)
    | ReadReset(id: nat, code: nat)
    | ReadGoAway(last: nat, code: nat, order: seq<nat>)
    | ReadFails(err: Error)
    | ReaderExits(order: seq<nat>)
    | ReaderTells

  // ----- Do -----

  /** Awake, or asleep and broadcast to since. */
  predicate Runnable(conn: Conn, asleep: Option<nat>) {
    asleep.Some? ==> asleep.value < conn.wakes
  }

  function Failed(e: Error): Response {
    FRESH.(err := Some(e))
  }

  function ChecksSlot(s: System, c: nat): System
    requires c < |s.callers| && s.callers[c].SlotWait?
  {
    var w := s.callers[c];
    var next := match Slot(s.conn)
      case SlotRefused(e) => Returned(None, Failed(e))
      case SlotSleep => SlotWait(w.req, w.keep, Some(s.conn.wakes))
      case SlotGranted => SlotHeld(w.req, w.keep);
    s.(conn := TakeSlot(s.conn), callers := s.callers[c := next])
  }

  function Numbers(s: System, c: nat): System
    requires c < |s.callers| && s.callers[c].SlotHeld?
  {
    var w := s.callers[c];
    var conn := Number(s.conn, ByDo(c), w.keep, |w.req.body|);
    if s.conn.err.Some? then
      s.(conn := conn, callers := s.callers[c := Returned(None, Failed(s.conn.err.value))])
    else if s.conn.nextID > MAX_STREAM_ID then
      s.(conn := conn, callers := s.callers[c := Returned(None, Failed(StreamsExhausted))])
    else
      var id, take := s.conn.nextID, Grant(s.conn, s.conn.peerInitialWindow, |w.req.body|);
      s.(conn := conn, callers := s.callers[c := Numbered(id, w.req, take)], wmu := Some(c),
         book := s.book[id := Entry(ByDo(c), w.req, w.keep, take, 0)], trace := s.trace + [Opened(id)])
  }

  function Writes(s: System, c: nat, ok: bool): System
    requires c < |s.callers| && s.callers[c].Numbered? && s.callers[c].take <= |s.callers[c].req.body|
  {
    var w := s.callers[c];
    if !ok then s.(wmu := None, callers := s.callers[c := AwaitDone(w.id)], lost := s.lost + w.take)
    else s.(wmu := None, wire := s.wire + FirstFrames(w.id, w.req.block, w.req.body, w.take),
            callers := s.callers[c := if w.take == |w.req.body| then AwaitDone(w.id)
                                      else Sending(w.id, w.req, w.take, None)])
  }

  function ChecksWindow(s: System, c: nat): System
    requires c < |s.callers| && s.callers[c].Sending? && s.callers[c].sent <= |s.callers[c].req.body|
  {
    var w := s.callers[c];
    var left := |w.req.body| - w.sent;
    match Window(s.conn, w.id, left)
    case WindowGone => s.(callers := s.callers[c := AwaitDone(w.id)])
    case WindowSleep => s.(callers := s.callers[c := Sending(w.id, w.req, w.sent, Some(s.conn.wakes))])
    case WindowTaken(take) =>
      s.(conn := TakeMore(s.conn, w.id, left), callers := s.callers[c := Taken(w.id, w.req, w.sent, take)],
         book := if w.id in s.book then s.book[w.id := s.book[w.id].(taken := s.book[w.id].taken + take)] else s.book)
  }

  function WritesData(s: System, c: nat, ok: bool): System
    requires c < |s.callers| && s.callers[c].Taken? && s.callers[c].sent + s.callers[c].take <= |s.callers[c].req.body|
  {
    var w := s.callers[c];
    var sent := w.sent + w.take;
    if !ok then s.(callers := s.callers[c := AwaitDone(w.id)], lost := s.lost + w.take)
    else s.(wire := s.wire + MoreFrames(w.id, w.req.body, w.sent, w.take),
            callers := s.callers[c := if sent == |w.req.body| then AwaitDone(w.id)
                                      else Sending(w.id, w.req, sent, None)])
  }

  // ----- WriteBatch -----

  function BatchStarts(s: System, req: Req, n: nat, keep: bool): System {
    var next := match Admit(s.conn, n, |req.body|)
      case BatchRefused(e) => BatchReturned(0, Some(e))
      case BatchFull => BatchReturned(0, None)
      case BatchAdmitted => BatchHeld(req, n, keep);
    s.(conn := Reserve(s.conn, n, |req.body|), callers := s.callers + [next])
  }

  function AddEntries(book: map<nat, Entry>, first: nat, n: nat, e: Entry): map<nat, Entry> {
    if n == 0 then book else AddEntries(book, first, n - 1, e)[Wrap(first + 2 * (n - 1)) := e]
  }

  function Openings(first: nat, n: nat): seq<Event> {
    if n == 0 then [] else Openings(first, n - 1) + [Opened(Wrap(first + 2 * (n - 1)))]
  }

  function BatchOpens(s: System, c: nat): System
    requires c < |s.callers| && s.callers[c].BatchHeld?
  {
    var w := s.callers[c];
    var conn := OpenBatch(s.conn, w.n, |w.req.body|, w.keep);
    if Opens(s.conn, w.n) then
      var first := s.conn.nextID;
      s.(conn := conn, wmu := Some(c), callers := s.callers[c := BatchNumbered(first, w.req, w.n)],
         book := AddEntries(s.book, first, w.n, Entry(ByBatch, w.req, w.keep, |w.req.body|, 0)),
         trace := s.trace + Openings(first, w.n))
    else
      s.(conn := conn, callers := s.callers[c := BatchReturned(0, conn.err)], lost := s.lost + w.n * |w.req.body|)
  }

  function BatchWritten(s: System, c: nat, ok: bool): System
    requires c < |s.callers| && s.callers[c].BatchNumbered?
  {
    var w := s.callers[c];
    if !ok then
      s.(wmu := None, callers := s.callers[c := BatchReturned(0, Some(WriteFailed))],
         lost := s.lost + w.n * |w.req.body|)
    else
      s.(wmu := None, callers := s.callers[c := BatchReturned(w.n, None)],
         wire := s.wire + RepeatFrames(w.req.block, w.req.body, w.first, w.n))
  }

  // ----- the reader -----

  function Conclude(r: Response, cause: Cause): Response {
    match cause
    case Answered => r
    case Reset(code) => r.(err := Some(StreamReset(code)))
    case Refused(e) => r.(err := Some(e))
    case ConnectionLost(e) => r.(err := Some(Closed(e)))
  }

  /** A stream leaves the map, to be handed to its owner. */
  function Ends(s: System, id: nat, cause: Cause): System {
    if id in s.conn.streams then
      var st := s.conn.streams[id];
      s.(conn := Remove(s.conn, id),
         ended := s.ended + [Ended(id, st.owner, Conclude(st.resp, cause), cause, |s.trace|)])
    else s
  }

  function AccountsData(s: System, id: nat, length: nat, data: seq<Byte>, ends: bool, ok: bool): System {
    var used := s.reader.recvConsumed + length;
    if used < CONN_WINDOW / 2 then
      s.(received := s.received + length, reader := s.reader.(recvConsumed := used, phase := GotData(id, data, ends)))
    else if ok then
      s.(received := s.received + length, wire := s.wire + [WindowUpdate(0, used)],
         reader := s.reader.(recvConsumed := 0, phase := GotData(id, data, ends)))
    else
      s.(received := s.received + length, reader := s.reader.(recvConsumed := used, phase := Failing(WriteFailed)))
  }

  function HandlesData(s: System): System
    requires s.reader.phase.GotData?
  {
    var f := s.reader.phase;
    var idle := s.(reader := s.reader.(phase := Idle), trace := s.trace + [Data(f.id, f.data)]);
    if f.id !in s.conn.streams then idle else
    var st := s.conn.streams[f.id];
    var t := idle.(conn := SetResponse(s.conn, f.id, OnData(st.keep, st.resp, f.data)));
    if f.ends then Ends(t, f.id, Answered) else t
  }

  function StartsBlock(s: System, id: nat, endStream: bool): System {
    s.(reader := s.reader.(phase := InBlock, hdrStream := if id in s.conn.streams then Some(id) else None,
                           hdrStatus := 0, hdrEnd := endStream, fields := []))
  }

  function TakesFragment(s: System, statuses: seq<int>): System {
    s.(reader := s.reader.(hdrStatus := LastStatus(s.reader.hdrStatus, statuses), fields := s.reader.fields + statuses))
  }

  function EndsBlock(s: System): System {
    var r := s.reader;
    var idle := s.(reader := r.(phase := Idle, hdrStream := None));
    if r.hdrStream.None? || r.hdrStream.value !in s.conn.streams then idle else
    var id := r.hdrStream.value;
    var t := idle.(trace := s.trace + [Block(id, r.fields)],
                   conn := SetResponse(s.conn, id, OnBlock(s.conn.streams[id].resp, r.hdrStatus)));
    if r.hdrEnd then Ends(t, id, Answered) else t
  }

  /** The largest limit among those a SETTINGS frame puts in force, one after the other. */
  function TopLimit(top: int, ss: seq<Setting>): int {
    if ss == [] then top
    else
      var before := TopLimit(top, ss[..|ss| - 1]);
      if ss[|ss| - 1].MaxConcurrentStreams? then Max(before, Min(ss[|ss| - 1].v, STREAM_CAP)) else before
  }

  function TakesSettings(s: System, ss: seq<Setting>): System {
    s.(conn := Settings(s.conn, ss), topLimit := TopLimit(s.topLimit, ss), reader := s.reader.(phase := OwesAck))
  }

  function TakesWindowUpdate(s: System, id: nat, increment: nat): System {
    s.(conn := AddWindow(s.conn, id, increment),
       granted := if id == 0 then s.granted + increment else s.granted,
       book := if id != 0 && id in s.conn.streams && id in s.book
               then s.book[id := s.book[id].(granted := s.book[id].granted + increment)] else s.book)
  }

  /** order is the refused streams in whatever order they are handed back. */
  predicate Enumerates(order: seq<nat>, ids: set<nat>) {
    && (forall i, j :: 0 <= i < j < |order| ==> order[i] != order[j])
    && (forall id :: id in order ==> id in ids)
    && (forall id :: id in ids ==> id in order)
  }

  function EndingsOf(streams: map<nat, Stream>, order: seq<nat>, cause: Cause, at: nat): (es: seq<Ended>)
    requires forall id :: id in order ==> id in streams
    ensures |es| == |order|
    ensures forall i :: 0 <= i < |es| ==>
              es[i] == Ended(order[i], streams[order[i]].owner, Conclude(streams[order[i]].resp, cause), cause, at)
  {
    seq(|order|, i requires 0 <= i < |order| =>
      Ended(order[i], streams[order[i]].owner, Conclude(streams[order[i]].resp, cause), cause, at))
  }

  function GoesAway(s: System, last: nat, code: nat, order: seq<nat>): System
    requires Enumerates(order, Above(s.conn.streams, last))
  {
    var conn := Away(s.conn, last, code);
    s.(conn := conn, ended := s.ended + EndingsOf(s.conn.streams, order, Refused(conn.err.value), |s.trace|))
  }

  function Exits(s: System, order: seq<nat>): System
    requires s.reader.phase.Failing? && Enumerates(order, s.conn.streams.Keys)
  {
    var conn := Exit(s.conn, s.reader.phase.err);
    s.(conn := conn, reader := s.reader.(phase := Exited, hdrStream := None),
       ended := s.ended + EndingsOf(s.conn.streams, order, ConnectionLost(conn.err.value), |s.trace|))
  }

  // ----- all of it -----

  /** The reader goes on only once it has handed over every stream that ended. */
  predicate Reading(s: System, phase: Phase) {
    s.reader.phase == phase && s.told == |s.ended|
  }

  predicate Enabled(s: System, st: Step) {
    match st
    case DoArrives(_, _) => true
    case DoChecksSlot(c) => c < |s.callers| && s.callers[c].SlotWait? && Runnable(s.conn, s.callers[c].asleep)
    case DoNumbers(c) => c < |s.callers| && s.callers[c].SlotHeld? && s.wmu.None?
    case DoWrites(c, _) => c < |s.callers| && s.callers[c].Numbered? && s.callers[c].take <= |s.callers[c].req.body|
    case DoChecksWindow(c) => c < |s.callers| && s.callers[c].Sending? && s.callers[c].sent <= |s.callers[c].req.body|
                              && Runnable(s.conn, s.callers[c].asleep)
    case DoWritesData(c, _) => c < |s.callers| && s.callers[c].Taken? && s.wmu.None?
                               && s.callers[c].sent + s.callers[c].take <= |s.callers[c].req.body|
    case DoReceives(c, i) => c < |s.callers| && s.callers[c].AwaitDone? && i < s.told && i < |s.ended|
                             && s.ended[i].id == s.callers[c].id
    case BatchArrives(_, _, _) => true
    case BatchNumbers(c) => c < |s.callers| && s.callers[c].BatchHeld? && s.wmu.None?
    case BatchWrites(c, _) => c < |s.callers| && s.callers[c].BatchNumbered?
    case ReadData(_, length, data, _, _) =>
      && Reading(s, Idle) && |data| <= length < MAX_LENGTH
      && (s.reader.recvConsumed + length >= CONN_WINDOW / 2 ==> s.wmu.None?)
    case HandleData => s.reader.phase.GotData? && s.told == |s.ended|
    case ReadHeaders(_, _) => Reading(s, Idle)
    case ReadFragment(_) => Reading(s, InBlock)
    case EndBlock => Reading(s, InBlock)
    case ReadSettings(_) => Reading(s, Idle)
    case AckSettings(_) => Reading(s, OwesAck) && s.wmu.None?
    case ReadWindowUpdate(_, _) => Reading(s, Idle)
    case ReadPing(data, _) => Reading(s, Idle) && |data| == 8 && s.wmu.None?
    case ReadReset(_, _) => Reading(s, Idle)
    case ReadGoAway(last, _, order) => Reading(s, Idle) && Enumerates(order, Above(s.conn.streams, last))
    case ReadFails(_) => s.told == |s.ended| && (s.reader.phase.Idle? || s.reader.phase.InBlock?)
    case ReaderExits(order) => s.told == |s.ended| && s.reader.phase.Failing? && Enumerates(order, s.conn.streams.Keys)
    case ReaderTells => s.told < |s.ended|
  }

  function Next(s: System, st: Step): System
    requires Enabled(s, st)
  {
    match st
    case DoArrives(req, keep) => s.(callers := s.callers + [SlotWait(req, keep, None)])
    case DoChecksSlot(c) => ChecksSlot(s, c)
    case DoNumbers(c) => Numbers(s, c)
    case DoWrites(c, ok) => Writes(s, c, ok)
    case DoChecksWindow(c) => ChecksWindow(s, c)
    case DoWritesData(c, ok) => WritesData(s, c, ok)
    case DoReceives(c, i) => s.(callers := s.callers[c := Returned(Some(s.callers[c].id), s.ended[i].result)])
    case BatchArrives(req, n, keep) => BatchStarts(s, req, n, keep)
    case BatchNumbers(c) => BatchOpens(s, c)
    case BatchWrites(c, ok) => BatchWritten(s, c, ok)
    case ReadData(id, length, data, ends, ok) => AccountsData(s, id, length, data, ends, ok)
    case HandleData => HandlesData(s)
    case ReadHeaders(id, endStream) => StartsBlock(s, id, endStream)
    case ReadFragment(statuses) => TakesFragment(s, statuses)
    case EndBlock => EndsBlock(s)
    case ReadSettings(ss) => TakesSettings(s, ss)
    case AckSettings(ok) =>
      if ok then s.(wire := s.wire + [Frame(SETTINGS, 1, 0, [])], reader := s.reader.(phase := Idle))
      else s.(reader := s.reader.(phase := Failing(WriteFailed)))
    case ReadWindowUpdate(id, increment) => TakesWindowUpdate(s, id, increment)
    case ReadPing(data, ok) =>
      if ok then s.(wire := s.wire + [Frame(PING, 1, 0, data)])
      else s.(reader := s.reader.(phase := Failing(WriteFailed)))
    case ReadReset(id, code) => Ends(s, id, Reset(code))
    case ReadGoAway(last, code, order) => GoesAway(s, last, code, order)
    case ReadFails(e) => s.(reader := s.reader.(phase := Failing(e)))
    case ReaderExits(order) => Exits(s, order)
    case ReaderTells => s.(told := s.told + 1)
  }

  /** The state a run reaches, or None when some step of it was not possible. */
  function Run(steps: seq<Step>): Option<System> {
    if steps == [] then Some(START) else
    match Run(steps[..|steps| - 1])
    case None => None
    case Some(s) => if Enabled(s, steps[|steps| - 1]) then Some(Next(s, steps[|steps| - 1])) else None
  }
}
