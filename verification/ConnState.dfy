/**
 The state ClientConn.mu guards, and each critical section as a function of it.
 The class in ClientConn.dfy runs them in place; Protocol.dfy interleaves them.
 */
module ConnState {
  import opened Bytes
  import Frames

  const DEFAULT_WINDOW := 65535
  const MAX_BODY := 0x400_0000
  const STREAM_CAP := 0x10_0000
  const CONN_WINDOW := 0x4000_0000

  datatype Error =
    | ReadFailed(code: nat)
    | WriteFailed
    | PushPromise
    | GoAway(code: nat)
    | StreamsExhausted
    | StreamReset(code: nat)
    | NoStatus
    | BodyTooLarge
    | Closed(cause: Error)

  /** A stream's response fields, and the Result handed over when it ends. */
  datatype Response = Response(status: int, body: seq<Byte>, n: nat, err: Option<Error>)

  const FRESH := Response(0, [], 0, None)

  /** Who learns of a stream's end: the Do that waits on its done channel, or OnResult. */
  datatype Owner = ByDo(caller: nat) | ByBatch

  datatype Stream = Stream(owner: Owner, keep: bool, sendWindow: int, resp: Response)

  /** wakes counts the Broadcasts on cond: a caller that slept at count g has been woken once wakes > g. */
  datatype Conn = Conn(streams: map<nat, Stream>, active: int, nextID: nat, connSendWindow: int,
                       peerInitialWindow: int, peerMaxStreams: int, err: Option<Error>, wakes: nat)

  const INITIAL := Conn(map[], 0, 1, DEFAULT_WINDOW, DEFAULT_WINDOW, 100, None, 0)

  function Fail(c: Conn, e: Error): Conn {
    c.(err := if c.err.None? then Some(e) else c.err, wakes := c.wakes + 1)
  }

  // ----- Do -----

  datatype SlotOutcome = SlotRefused(err: Error) | SlotSleep | SlotGranted

  function Slot(c: Conn): SlotOutcome {
    if c.err.Some? then SlotRefused(c.err.value)
    else if c.active >= c.peerMaxStreams then SlotSleep
    else SlotGranted
  }

  function TakeSlot(c: Conn): Conn {
    if Slot(c).SlotGranted? then c.(active := c.active + 1) else c
  }

  /** How much of n octets both windows let through. */
  function Grant(c: Conn, sendWindow: int, n: nat): (take: nat)
    ensures take <= n && take <= Max(c.connSendWindow, 0) && take <= Max(sendWindow, 0)
  {
    Min(n, Min(Max(c.connSendWindow, 0), Max(sendWindow, 0)))
  }

  function TakeWindow(c: Conn, id: nat, n: nat): Conn
    requires id in c.streams
  {
    var s := c.streams[id];
    var take := Grant(c, s.sendWindow, n);
    c.(connSendWindow := c.connSendWindow - take, streams := c.streams[id := s.(sendWindow := s.sendWindow - take)])
  }

  /** writeStream's first section: give back the slot, or number the stream and take window for its body. */
  function Number(c: Conn, owner: Owner, keep: bool, n: nat): Conn {
    if c.err.Some? then c.(active := c.active - 1)
    else if c.nextID > Frames.MAX_STREAM_ID then Fail(c.(active := c.active - 1), StreamsExhausted)
    else
      var s := Stream(owner, keep, c.peerInitialWindow, FRESH);
      TakeWindow(c.(nextID := Frames.Wrap(c.nextID + 2), streams := c.streams[c.nextID := s]), c.nextID, n)
  }

  datatype WindowOutcome = WindowGone | WindowSleep | WindowTaken(take: nat)

  /** The wait for more window inside writeStream's loop. */
  function Window(c: Conn, id: nat, n: nat): WindowOutcome {
    if c.err.Some? || id !in c.streams then WindowGone
    else if Min(c.connSendWindow, c.streams[id].sendWindow) <= 0 then WindowSleep
    else WindowTaken(Grant(c, c.streams[id].sendWindow, n))
  }

  function TakeMore(c: Conn, id: nat, n: nat): Conn {
    if Window(c, id, n).WindowTaken? then TakeWindow(c, id, n) else c
  }

  // ----- WriteBatch -----

  datatype BatchOutcome = BatchRefused(err: Error) | BatchFull | BatchAdmitted

  function Admit(c: Conn, n: nat, bodyLen: nat): BatchOutcome {
    if c.err.Some? then BatchRefused(c.err.value)
    else if c.active + n > c.peerMaxStreams || c.connSendWindow < n * bodyLen || c.peerInitialWindow < bodyLen
    then BatchFull
    else BatchAdmitted
  }

  function Reserve(c: Conn, n: nat, bodyLen: nat): Conn {
    if Admit(c, n, bodyLen).BatchAdmitted?
    then c.(active := c.active + n, connSendWindow := c.connSendWindow - n * bodyLen)
    else c
  }

  /** The last of n identifiers from nextID, as uint32 arithmetic finds it: n == 0 wraps below nextID. */
  function LastOf(nextID: nat, n: nat): nat {
    Frames.Wrap(nextID + 2 * (n - 1))
  }

  function AddStreams(streams: map<nat, Stream>, first: nat, n: nat, s: Stream): map<nat, Stream> {
    if n == 0 then streams
    else AddStreams(streams, first, n - 1, s)[Frames.Wrap(first + 2 * (n - 1)) := s]
  }

  predicate Opens(c: Conn, n: nat) {
    c.err.None? && LastOf(c.nextID, n) <= Frames.MAX_STREAM_ID
  }

  function OpenBatch(c: Conn, n: nat, bodyLen: nat, keep: bool): Conn {
    if Opens(c, n) then
      c.(nextID := Frames.Wrap(c.nextID + 2 * n),
         streams := AddStreams(c.streams, c.nextID, n, Stream(ByBatch, keep, c.peerInitialWindow - bodyLen, FRESH)))
    else if c.err.None? then Fail(c, StreamsExhausted).(active := c.active - n)
    else c.(active := c.active - n)
  }

  // ----- the reader -----

  function Remove(c: Conn, id: nat): Conn {
    if id in c.streams then c.(streams := c.streams - {id}, active := c.active - 1, wakes := c.wakes + 1) else c
  }

  datatype Setting = InitialWindowSize(v: nat) | MaxConcurrentStreams(v: nat) | OtherSetting

  function Shift(streams: map<nat, Stream>, delta: int): map<nat, Stream> {
    map id | id in streams :: streams[id].(sendWindow := streams[id].sendWindow + delta)
  }

  function ApplySetting(c: Conn, s: Setting): Conn {
    match s
    case InitialWindowSize(v) => c.(peerInitialWindow := v, streams := Shift(c.streams, v - c.peerInitialWindow))
    case MaxConcurrentStreams(v) => c.(peerMaxStreams := Min(v, STREAM_CAP))
    case OtherSetting => c
  }

  function ApplySettings(c: Conn, ss: seq<Setting>): Conn {
    if ss == [] then c else ApplySetting(ApplySettings(c, ss[..|ss| - 1]), ss[|ss| - 1])
  }

  function Settings(c: Conn, ss: seq<Setting>): Conn {
    var d := ApplySettings(c, ss);
    d.(wakes := d.wakes + 1)
  }

  function AddWindow(c: Conn, id: nat, increment: nat): Conn {
    var d := if id == 0 then c.(connSendWindow := c.connSendWindow + increment)
             else if id in c.streams
             then c.(streams := c.streams[id := c.streams[id].(sendWindow := c.streams[id].sendWindow + increment)])
             else c;
    d.(wakes := c.wakes + 1)
  }

  function Above(streams: map<nat, Stream>, last: nat): set<nat> {
    set id | id in streams && id > last
  }

  function Away(c: Conn, last: nat, code: nat): Conn {
    var refused := Above(c.streams, last);
    Fail(c, GoAway(code)).(streams := c.streams - refused, active := c.active - |refused|)
  }

  function Exit(c: Conn, e: Error): Conn {
    Fail(c, e).(streams := map[], active := c.active - |c.streams|)
  }

  // ----- one stream's response -----

  function OnData(keep: bool, r: Response, data: seq<Byte>): Response {
    var n := r.n + |data|;
    if !keep then r.(n := n)
    else if n > MAX_BODY then r.(n := n, err := if r.err.None? then Some(BodyTooLarge) else r.err)
    else r.(n := n, body := r.body + data)
  }

  function OnBlock(r: Response, status: int): Response {
    if status >= 200 && r.status == 0 then r.(status := status)
    else if 100 <= status < 200 then r
    else if status == 0 && r.status == 0 && r.err.None? then r.(err := Some(NoStatus))
    else r
  }

  /** The status a block is left with: the last :status the decoder reported in it. */
  function LastStatus(before: int, statuses: seq<int>): int {
    if statuses == [] then before else statuses[|statuses| - 1]
  }

  function SetResponse(c: Conn, id: nat, r: Response): Conn {
    if id in c.streams then c.(streams := c.streams[id := c.streams[id].(resp := r)]) else c
  }
}
