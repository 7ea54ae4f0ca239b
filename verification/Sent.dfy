/** What each caller has sent: the octets taken on a stream are those on the wire, those held, and those a write
    lost. */
module Sent {
  import opened Bytes
  import opened Frames
  import opened Segments
  import opened ConnState
  import opened Protocol
  import opened Slots
  import opened Results

  datatype View = View(conn: Conn, wire: seq<Frame>, book: map<nat, Entry>, failed: set<nat>)

  function ViewOf(s: System, failed: set<nat>): View {
    View(s.conn, s.wire, s.book, failed)
  }

  function Carried(wire: seq<Frame>, id: nat): nat {
    |Payload(On(wire, id))|
  }

  /** The stream's whole request is on the wire. */
  ghost predicate Whole(wire: seq<Frame>, book: map<nat, Entry>, id: nat) {
    id in book && On(wire, id) != [] && Payload(On(wire, id)) == book[id].req.body
  }

  /** A Do past its send loop: unless a write on it failed, everything it took is on the wire, and it stopped because
      that was everything, the connection had failed, or the stream had ended. */
  ghost predicate Settled(v: View, id: nat) {
    && id in v.book && Carried(v.wire, id) <= v.book[id].taken
    && (id !in v.failed ==>
          && Carried(v.wire, id) == v.book[id].taken
          && (Whole(v.wire, v.book, id) || v.conn.err.Some? || id !in v.conn.streams))
  }

  ghost predicate Account(v: View, x: Caller) {
    match x
    case Numbered(id, _, take) => id in v.book && id !in v.failed && v.book[id].taken == take
    case Sending(id, _, sent, _) => id in v.book && id !in v.failed && v.book[id].taken == sent
    case Taken(id, _, sent, take) => id in v.book && id !in v.failed && v.book[id].taken == sent + take
    case AwaitDone(id) => Settled(v, id)
    case Returned(stream, _) => stream.Some? ==> Settled(v, stream.value)
    case BatchNumbered(first, _, n) => forall id :: InBatch(id, first, n) ==> id in v.book && id !in v.failed
    case _ => true
  }

  ghost predicate AccountsOk(v: View, callers: seq<Caller>) {
    forall c :: 0 <= c < |callers| ==> Account(v, callers[c])
  }

  /** The lock holder is about to write the batch that id is in. */
  predicate Waits(callers: seq<Caller>, wmu: Option<nat>, id: nat) {
    && wmu.Some? && wmu.value < |callers| && callers[wmu.value].BatchNumbered?
    && InBatch(id, callers[wmu.value].first, callers[wmu.value].n)
  }

  /** A batch stream takes its body whole, and it is on the wire whole, about to be written, or lost. */
  ghost predicate BatchStream(v: View, callers: seq<Caller>, wmu: Option<nat>, id: nat)
    requires id in v.book
  {
    && v.book[id].taken == |v.book[id].req.body|
    && (On(v.wire, id) != [] ==> id !in v.failed && Payload(On(v.wire, id)) == v.book[id].req.body)
    && (On(v.wire, id) == [] ==> id in v.failed || Waits(callers, wmu, id))
  }

  ghost predicate BatchesOk(v: View, callers: seq<Caller>, wmu: Option<nat>) {
    forall id :: id in v.book && v.book[id].owner.ByBatch? ==> BatchStream(v, callers, wmu, id)
  }

  predicate Control(f: Frame) {
    f.typ != HEADERS && f.typ != DATA
  }

  /** Control frames are small: no payload, four octets or eight. */
  predicate ControlsOk(wire: seq<Frame>) {
    forall f :: f in wire && Control(f) ==> |f.payload| <= 8
  }

  ghost predicate SentOk(s: System, failed: set<nat>) {
    && AccountsOk(ViewOf(s, failed), s.callers)
    && BatchesOk(ViewOf(s, failed), s.callers, s.wmu)
    && failed <= s.book.Keys
    && ControlsOk(s.wire)
  }

  // ----- what leaves a stream's account alone -----

  ghost predicate Same(v: View, v': View, id: nat) {
    && id in v.book && id in v'.book
    && v'.book[id].taken == v.book[id].taken && v'.book[id].req == v.book[id].req
    && v'.book[id].owner == v.book[id].owner
    && On(v'.wire, id) == On(v.wire, id)
    && (id in v'.failed <==> id in v.failed)
    && (id in v'.conn.streams ==> id in v.conn.streams)
  }

  predicate ErrStays(c: Conn, c': Conn) {
    c.err.Some? ==> c'.err.Some?
  }

  predicate OnStream(x: Caller, id: nat) {
    StreamOf(x) == Some(id) || (x.BatchNumbered? && InBatch(id, x.first, x.n))
  }

  lemma AccountSame(v: View, v': View, x: Caller)
    requires Account(v, x) && ErrStays(v.conn, v'.conn) && forall id :: OnStream(x, id) ==> Same(v, v', id)
    ensures Account(v', x)
  {
    if StreamOf(x).Some? {
      assert OnStream(x, StreamOf(x).value);
    }
    if x.BatchNumbered? {
      forall id | InBatch(id, x.first, x.n) ensures id in v'.book && id !in v'.failed {
        assert OnStream(x, id);
      }
    }
  }

  lemma AccountsMove(v: View, callers: seq<Caller>, v': View, c: nat, x: Caller)
    requires AccountsOk(v, callers) && c < |callers| && Account(v', x) && ErrStays(v.conn, v'.conn)
    requires forall k, id :: 0 <= k < |callers| && k != c && OnStream(callers[k], id) ==> Same(v, v', id)
    ensures AccountsOk(v', callers[c := x])
  {
    var callers' := callers[c := x];
    forall k | 0 <= k < |callers'| ensures Account(v', callers'[k]) {
      if k != c {
        AccountSame(v, v', callers[k]);
      }
    }
  }

  lemma AccountsSame(v: View, callers: seq<Caller>, v': View)
    requires AccountsOk(v, callers) && ErrStays(v.conn, v'.conn)
    requires forall k, id :: 0 <= k < |callers| && OnStream(callers[k], id) ==> Same(v, v', id)
    ensures AccountsOk(v', callers)
  {
    forall k | 0 <= k < |callers| ensures Account(v', callers[k]) {
      AccountSame(v, v', callers[k]);
    }
  }

  lemma BatchesSame(v: View, callers: seq<Caller>, wmu: Option<nat>, v': View, callers': seq<Caller>, wmu': Option<nat>)
    requires BatchesOk(v, callers, wmu)
    requires forall id :: id in v'.book && v'.book[id].owner.ByBatch? ==> Same(v, v', id)
    requires forall id :: Waits(callers, wmu, id) ==> Waits(callers', wmu', id)
    ensures BatchesOk(v', callers', wmu')
  {
    forall id | id in v'.book && v'.book[id].owner.ByBatch? ensures BatchStream(v', callers', wmu', id) {
      assert Same(v, v', id);
      assert BatchStream(v, callers, wmu, id);
    }
  }

  /** Every stream a caller is on was opened. */
  lemma OnStreamOpened(v: View, callers: seq<Caller>, k: nat, id: nat)
    requires AccountsOk(v, callers) && k < |callers| && OnStream(callers[k], id)
    ensures id in v.book
  {
    assert Account(v, callers[k]);
  }

  lemma ControlsMore(wire: seq<Frame>, fs: seq<Frame>)
    requires ControlsOk(wire) && forall f :: f in fs ==> !Control(f) || |f.payload| <= 8
    ensures ControlsOk(wire + fs)
  {
  }
}
