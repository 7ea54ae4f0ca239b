/** Slots and identifiers: what active counts, and which streams have ever been opened. */
module Slots {
  import opened Bytes
  import opened Frames
  import opened ConnState
  import opened Protocol

  /** Slots a caller has reserved and not yet opened, and octets of connection window it has taken and not yet
      written. */
  function Holds(c: Caller): (nat, nat) {
    match c
    case SlotHeld(_, _) => (1, 0)
    case Numbered(_, _, take) => (0, take)
    case Taken(_, _, _, take) => (0, take)
    case BatchHeld(req, n, _) => (n, n * |req.body|)
    case BatchNumbered(_, req, n) => (0, n * |req.body|)
    case _ => (0, 0)
  }

  function Held(cs: seq<Caller>): (nat, nat) {
    if cs == [] then (0, 0)
    else
      var (a, b) := Held(cs[..|cs| - 1]);
      var (x, y) := Holds(cs[|cs| - 1]);
      (a + x, b + y)
  }

  lemma HeldAppend(cs: seq<Caller>, x: Caller)
    ensures Held(cs + [x]).0 == Held(cs).0 + Holds(x).0
    ensures Held(cs + [x]).1 == Held(cs).1 + Holds(x).1
  {
    assert (cs + [x])[..|cs|] == cs;
  }

  lemma {:induction false} HeldUpdate(cs: seq<Caller>, c: nat, x: Caller)
    requires c < |cs|
    ensures Held(cs[c := x]).0 == Held(cs).0 - Holds(cs[c]).0 + Holds(x).0
    ensures Held(cs[c := x]).1 == Held(cs).1 - Holds(cs[c]).1 + Holds(x).1
  {
    var n := |cs| - 1;
    if c == n {
      assert cs[c := x][..n] == cs[..n];
    } else {
      HeldUpdate(cs[..n], c, x);
      assert cs[c := x][..n] == cs[..n][c := x];
    }
  }

  lemma {:induction false} HeldCovers(cs: seq<Caller>, c: nat)
    requires c < |cs|
    ensures Holds(cs[c]).0 <= Held(cs).0
  {
    if c == |cs| - 1 {
    } else {
      HeldCovers(cs[..|cs| - 1], c);
    }
  }

  /** active is the streams in the map and the slots reserved for streams about to be opened; it never exceeds the
      largest limit ever in force, nor the cap of 2^20 on it. */
  ghost predicate SlotsOk(conn: Conn, callers: seq<Caller>, topLimit: int) {
    && conn.active == |conn.streams| + Held(callers).0
    && conn.active <= topLimit
    && 0 <= conn.peerMaxStreams <= topLimit
    && 100 <= topLimit <= STREAM_CAP
  }

  predicate OpenedId(id: nat, nextID: nat) {
    id % 2 == 1 && id < nextID
  }

  /** The streams ever opened are exactly the odd numbers below nextID, which never wraps. */
  ghost predicate IdsOk(conn: Conn, book: map<nat, Entry>) {
    && conn.nextID % 2 == 1 && conn.nextID <= MAX_STREAM_ID + 2
    && (forall id :: id in book ==> OpenedId(id, conn.nextID))
    && (forall id: nat :: OpenedId(id, conn.nextID) ==> id in book)
    && (forall id :: id in conn.streams ==> id in book)
  }

  // ----- how each section changes the map -----

  lemma MapAdd(streams: map<nat, Stream>, id: nat, st: Stream)
    requires id !in streams
    ensures |streams[id := st]| == |streams| + 1
  {
    assert streams[id := st].Keys == streams.Keys + {id};
  }

  lemma MapSame(a: map<nat, Stream>, b: map<nat, Stream>)
    requires a.Keys == b.Keys
    ensures |a| == |b|
  {
    assert |a.Keys| == |a| && |b.Keys| == |b|;
  }

  lemma MapRemove(streams: map<nat, Stream>, gone: set<nat>)
    requires gone <= streams.Keys
    ensures |streams - gone| == |streams| - |gone|
  {
    assert (streams - gone).Keys == streams.Keys - gone;
  }

  predicate InBatch(id: nat, first: nat, n: nat) {
    first <= id < first + 2 * n && id % 2 == 1
  }

  lemma BatchSnoc(id: nat, first: nat, n: nat)
    requires n > 0 && first % 2 == 1
    ensures InBatch(id, first, n) <==> InBatch(id, first, n - 1) || id == first + 2 * (n - 1)
    ensures !InBatch(first + 2 * (n - 1), first, n - 1)
  {
  }

  lemma {:induction false} AddStreamsMap(streams: map<nat, Stream>, first: nat, n: nat, st: Stream)
    requires first % 2 == 1 && first + 2 * n <= MAX_STREAM_ID + 2
    requires forall id :: id in streams ==> id < first
    ensures var t := AddStreams(streams, first, n, st);
            && (forall id :: id in t <==> id in streams || InBatch(id, first, n))
            && (forall id :: id in t ==> t[id] == if id in streams then streams[id] else st)
  {
    if n == 0 {
    } else {
      AddStreamsMap(streams, first, n - 1, st);
    }
  }

  lemma {:induction false} AddStreamsSize(streams: map<nat, Stream>, first: nat, n: nat, st: Stream)
    requires first % 2 == 1 && first + 2 * n <= MAX_STREAM_ID + 2
    requires forall id :: id in streams ==> id < first
    ensures |AddStreams(streams, first, n, st)| == |streams| + n
  {
    if n == 0 {
    } else {
      AddStreamsSize(streams, first, n - 1, st);
      var before, id := AddStreams(streams, first, n - 1, st), first + 2 * (n - 1);
      assert id !in before by {
        AddStreamsMap(streams, first, n - 1, st);
        assert !InBatch(id, first, n - 1);
      }
      MapAdd(before, id, st);
      assert Wrap(id) == id;
    }
  }

  lemma {:induction false} AddEntriesMap(book: map<nat, Entry>, first: nat, n: nat, e: Entry)
    requires first % 2 == 1 && first + 2 * n <= MAX_STREAM_ID + 2
    requires forall id :: id in book ==> id < first
    ensures var t := AddEntries(book, first, n, e);
            && (forall id :: id in t <==> id in book || InBatch(id, first, n))
            && (forall id :: id in t ==> t[id] == if id in book then book[id] else e)
  {
    if n == 0 {
    } else {
      AddEntriesMap(book, first, n - 1, e);
    }
  }

  /** No wrap: n is bounded by the cap, so a batch opens exactly when its last identifier is within 2^31 - 1. */
  lemma BatchFitsExactly(conn: Conn, n: nat)
    requires conn.nextID <= MAX_STREAM_ID + 2 && 1 <= n <= STREAM_CAP
    ensures Opens(conn, n) <==> conn.err.None? && conn.nextID + 2 * (n - 1) <= MAX_STREAM_ID
    ensures Opens(conn, n) ==> Wrap(conn.nextID + 2 * n) == conn.nextID + 2 * n <= MAX_STREAM_ID + 2
  {
  }

  /** A batch that opens adds streams above all others. */
  lemma OpensAbove(conn: Conn, book: map<nat, Entry>, n: nat, bodyLen: nat, keep: bool)
    requires IdsOk(conn, book) && n <= STREAM_CAP && Opens(conn, n)
    ensures conn.nextID + 2 * n <= MAX_STREAM_ID + 2
    ensures forall j :: j in book && j in OpenBatch(conn, n, bodyLen, keep).streams ==> j in conn.streams
  {
    if n > 0 {
      BatchFitsExactly(conn, n);
    }
    AddStreamsMap(conn.streams, conn.nextID, n, Stream(ByBatch, keep, conn.peerInitialWindow - bodyLen, FRESH));
  }

  lemma BookGrows(book: map<nat, Entry>, first: nat, n: nat, e: Entry)
    requires first % 2 == 1 && first + 2 * n <= MAX_STREAM_ID + 2 && forall id :: id in book ==> id < first
    ensures book.Keys <= AddEntries(book, first, n, e).Keys
  {
    AddEntriesMap(book, first, n, e);
  }

  /** An empty batch is the exception: it fails a connection that has opened no stream yet, and only such a one. */
  lemma EmptyBatchWraps(conn: Conn)
    requires conn.nextID % 2 == 1 && conn.nextID <= MAX_STREAM_ID + 2 && conn.err.None?
    ensures Opens(conn, 0) <==> conn.nextID != 1
    ensures OpenBatch(conn, 0, 0, false).err == (if conn.nextID == 1 then Some(StreamsExhausted) else None)
  {
  }

  /** A SETTINGS frame moves every window by the change in the initial one, and raises the limit no further than its
      top. */
  lemma {:induction false} SettingsFrame(c: Conn, ss: seq<Setting>, top: int)
    requires 0 <= c.peerMaxStreams <= top && 100 <= top <= STREAM_CAP
    ensures var d := ApplySettings(c, ss);
            && d.active == c.active && d.nextID == c.nextID && d.connSendWindow == c.connSendWindow
            && d.err == c.err && d.wakes == c.wakes && d.streams.Keys == c.streams.Keys
            && 0 <= d.peerMaxStreams <= TopLimit(top, ss) && top <= TopLimit(top, ss) <= STREAM_CAP
    ensures var d := ApplySettings(c, ss);
            forall id :: id in c.streams ==>
              d.streams[id]
              == c.streams[id].(sendWindow := c.streams[id].sendWindow + d.peerInitialWindow - c.peerInitialWindow)
  {
    if ss == [] {
    } else {
      SettingsFrame(c, ss[..|ss| - 1], top);
    }
  }

  // ----- keeping SlotsOk -----

  /** A section that moves caller c to x keeps the count when active changes by what the map and c's reservation do. */
  lemma SlotsMove(conn: Conn, callers: seq<Caller>, top: int, conn': Conn, c: nat, x: Caller)
    requires SlotsOk(conn, callers, top) && c < |callers|
    requires conn'.peerMaxStreams == conn.peerMaxStreams && conn'.active <= top
    requires conn'.active - |conn'.streams| - Holds(x).0 == conn.active - |conn.streams| - Holds(callers[c]).0
    ensures SlotsOk(conn', callers[c := x], top)
  {
    HeldUpdate(callers, c, x);
  }

  lemma SlotsJoin(conn: Conn, callers: seq<Caller>, top: int, conn': Conn, x: Caller)
    requires SlotsOk(conn, callers, top)
    requires conn'.peerMaxStreams == conn.peerMaxStreams && conn'.active <= top && conn'.streams == conn.streams
    requires conn'.active - Holds(x).0 == conn.active
    ensures SlotsOk(conn', callers + [x], top)
  {
    HeldAppend(callers, x);
  }

  lemma NumberSize(conn: Conn, book: map<nat, Entry>, owner: Owner, keep: bool, n: nat)
    requires IdsOk(conn, book)
    ensures var d := Number(conn, owner, keep, n);
            && d.peerMaxStreams == conn.peerMaxStreams
            && if conn.err.None? && conn.nextID <= MAX_STREAM_ID
               then d.active == conn.active && |d.streams| == |conn.streams| + 1 && d.nextID == conn.nextID + 2
                    && d.streams.Keys == conn.streams.Keys + {conn.nextID}
               else d.active == conn.active - 1 && d.streams == conn.streams && d.nextID == conn.nextID
  {
    if conn.err.None? && conn.nextID <= MAX_STREAM_ID {
      var d := Number(conn, owner, keep, n);
      assert !OpenedId(conn.nextID, conn.nextID);
      assert d.streams.Keys == conn.streams.Keys + {conn.nextID};
      MapAdd(conn.streams, conn.nextID, d.streams[conn.nextID]);
      MapSame(conn.streams[conn.nextID := d.streams[conn.nextID]], d.streams);
    }
  }

  lemma SlotsNumber(conn: Conn, callers: seq<Caller>, top: int, book: map<nat, Entry>, c: nat, keep: bool, n: nat,
                    x: Caller)
    requires SlotsOk(conn, callers, top) && IdsOk(conn, book)
    requires c < |callers| && callers[c].SlotHeld? && Holds(x).0 == 0
    ensures SlotsOk(Number(conn, ByDo(c), keep, n), callers[c := x], top)
  {
    NumberSize(conn, book, ByDo(c), keep, n);
    SlotsMove(conn, callers, top, Number(conn, ByDo(c), keep, n), c, x);
  }

  lemma BatchBound(conn: Conn, callers: seq<Caller>, top: int, c: nat)
    requires SlotsOk(conn, callers, top) && c < |callers| && callers[c].BatchHeld?
    ensures callers[c].n <= STREAM_CAP
  {
    HeldCovers(callers, c);
  }

  lemma OpenBatchSize(conn: Conn, book: map<nat, Entry>, n: nat, bodyLen: nat, keep: bool)
    requires IdsOk(conn, book) && n <= STREAM_CAP
    ensures var d := OpenBatch(conn, n, bodyLen, keep);
            && d.peerMaxStreams == conn.peerMaxStreams
            && if Opens(conn, n) then d.active == conn.active && |d.streams| == |conn.streams| + n
               else d.active == conn.active - n && d.streams == conn.streams
  {
    if Opens(conn, n) && n > 0 {
      BatchFitsExactly(conn, n);
      AddStreamsSize(conn.streams, conn.nextID, n, Stream(ByBatch, keep, conn.peerInitialWindow - bodyLen, FRESH));
    }
  }

  lemma SlotsOpenBatch(conn: Conn, callers: seq<Caller>, top: int, book: map<nat, Entry>, c: nat, bodyLen: nat,
                       keep: bool, x: Caller)
    requires SlotsOk(conn, callers, top) && IdsOk(conn, book)
    requires c < |callers| && callers[c].BatchHeld? && Holds(x).0 == 0
    ensures SlotsOk(OpenBatch(conn, callers[c].n, bodyLen, keep), callers[c := x], top)
  {
    BatchBound(conn, callers, top, c);
    OpenBatchSize(conn, book, callers[c].n, bodyLen, keep);
    SlotsMove(conn, callers, top, OpenBatch(conn, callers[c].n, bodyLen, keep), c, x);
  }

  lemma SlotsShrink(conn: Conn, callers: seq<Caller>, top: int, conn': Conn, gone: set<nat>)
    requires SlotsOk(conn, callers, top) && gone <= conn.streams.Keys
    requires conn'.streams.Keys == conn.streams.Keys - gone && conn'.active == conn.active - |gone|
    requires conn'.peerMaxStreams == conn.peerMaxStreams
    ensures SlotsOk(conn', callers, top)
  {
    MapRemove(conn.streams, gone);
    MapSame(conn.streams - gone, conn'.streams);
  }

  lemma SlotsSettings(conn: Conn, callers: seq<Caller>, top: int, ss: seq<Setting>)
    requires SlotsOk(conn, callers, top)
    ensures SlotsOk(Settings(conn, ss), callers, TopLimit(top, ss))
  {
    SettingsFrame(conn, ss, top);
    MapSame(conn.streams, ApplySettings(conn, ss).streams);
  }

  // ----- keeping IdsOk -----

  lemma IdsShrink(conn: Conn, book: map<nat, Entry>, conn': Conn, book': map<nat, Entry>)
    requires IdsOk(conn, book)
    requires conn'.nextID == conn.nextID && conn'.streams.Keys <= conn.streams.Keys && book'.Keys == book.Keys
    ensures IdsOk(conn', book')
  {
    forall id | id in book' ensures OpenedId(id, conn'.nextID) { assert id in book; }
    forall id: nat | OpenedId(id, conn'.nextID) ensures id in book' { assert id in book; }
    forall id | id in conn'.streams ensures id in book' { assert id in conn.streams; }
  }

  lemma IdsNumber(conn: Conn, book: map<nat, Entry>, conn': Conn, e: Entry)
    requires IdsOk(conn, book) && conn.nextID <= MAX_STREAM_ID
    requires conn'.nextID == conn.nextID + 2 && conn'.streams.Keys == conn.streams.Keys + {conn.nextID}
    ensures IdsOk(conn', book[conn.nextID := e])
  {
    forall id: nat {:trigger OpenedId(id, conn'.nextID)} | OpenedId(id, conn'.nextID)
      ensures id in book[conn.nextID := e]
    {
      assert OpenedId(id, conn.nextID) || id == conn.nextID;
    }
  }

  lemma IdsOpenBatch(conn: Conn, book: map<nat, Entry>, n: nat, bodyLen: nat, keep: bool, e: Entry)
    requires IdsOk(conn, book) && n <= STREAM_CAP && Opens(conn, n)
    ensures IdsOk(OpenBatch(conn, n, bodyLen, keep), AddEntries(book, conn.nextID, n, e))
  {
    if n > 0 {
      BatchFitsExactly(conn, n);
      AddStreamsMap(conn.streams, conn.nextID, n, Stream(ByBatch, keep, conn.peerInitialWindow - bodyLen, FRESH));
      AddEntriesMap(book, conn.nextID, n, e);
      forall id: nat {:trigger OpenedId(id, conn.nextID + 2 * n)} | OpenedId(id, conn.nextID + 2 * n)
        ensures id in AddEntries(book, conn.nextID, n, e)
      {
        assert OpenedId(id, conn.nextID) || InBatch(id, conn.nextID, n);
      }
    }
  }
}
