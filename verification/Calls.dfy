/**
 Each caller traced to the step that made the call: what was asked for, what the connection was like then, which streams
 were numbered for it, and how its write came out. Callers are numbered in the order they arrive.
 */
module Calls {
  import opened Bytes
  import opened Frames
  import opened Segments
  import opened ConnState
  import opened Protocol
  import opened Slots
  import opened Wire
  import opened Results
  import opened Invariant
  import opened Runs
  import opened History
  import opened Sent
  import opened SentSteps

  datatype Call = DoCall(req: Req, keep: bool) | BatchCall(req: Req, keep: bool, n: nat)

  /** err and room are the connection's error, and whether there was room for the batch, when the call arrived; first
      the first identifier numbered for it; written how the write of its batch came out. */
  datatype Story = Story(call: Call, err: Option<Error>, room: bool, first: Option<nat>, written: Option<bool>)

  /** n streams under the limit, their bodies within the connection's window, and each within a new stream's. */
  predicate Room(conn: Conn, n: nat, length: nat) {
    conn.active + n <= conn.peerMaxStreams && n * length <= conn.connSendWindow && length <= conn.peerInitialWindow
  }

  function Retold(xs: seq<Story>, s: System, t: System, st: Step): seq<Story> {
    match st
    case DoArrives(req, keep) => xs + [Story(DoCall(req, keep), s.conn.err, true, None, None)]
    case BatchArrives(req, n, keep) =>
      xs + [Story(BatchCall(req, keep, n), s.conn.err, Room(s.conn, n, |req.body|), None, None)]
    case DoNumbers(c) => if c < |xs| && t.wmu == Some(c) then xs[c := xs[c].(first := Some(s.conn.nextID))] else xs
    case BatchNumbers(c) => if c < |xs| && t.wmu == Some(c) then xs[c := xs[c].(first := Some(s.conn.nextID))] else xs
    case BatchWrites(c, ok) => if c < |xs| then xs[c := xs[c].(written := Some(ok))] else xs
    case _ => xs
  }

  function Stories(steps: seq<Step>): seq<Story>
    requires Run(steps).Some?
  {
    if steps == [] then [] else
    var before := steps[..|steps| - 1];
    Retold(Stories(before), Run(before).value, Run(steps).value, steps[|steps| - 1])
  }

  /** Stream id was numbered for the call. */
  predicate Owns(x: Story, id: nat) {
    && x.first.Some?
    && match x.call
       case DoCall(_, _) => id == x.first.value
       case BatchCall(_, _, n) => InBatch(id, x.first.value, n)
  }

  predicate OnWire(wire: seq<Frame>, id: nat) {
    On(wire, id) != []
  }

  /** What WriteBatch returns. */
  ghost predicate Answer(v: View, x: Story, count: nat, err: Option<Error>)
    requires x.call.BatchCall?
  {
    match x.written
    case Some(true) =>
      && count == x.call.n && err.None? && x.first.Some? && x.err.None? && x.room
      && forall id :: Owns(x, id) ==> OnWire(v.wire, id)
    case Some(false) =>
      && count == 0 && err == Some(WriteFailed) && x.first.Some? && x.err.None? && x.room
      && forall id :: Owns(x, id) ==> id in v.failed
    case None =>
      count == 0 && x.first.None? && (err.None? <==> x.err.None? && !x.room) && (err.Some? ==> err == v.conn.err)
  }

  ghost predicate Matches(v: View, x: Story, y: Caller) {
    match y
    case SlotWait(req, keep, _) => x.call == DoCall(req, keep) && x.first.None?
    case SlotHeld(req, keep) => x.call == DoCall(req, keep) && x.first.None?
    case Numbered(id, _, _) => x.call.DoCall? && x.first == Some(id)
    case Sending(id, _, _, _) => x.call.DoCall? && x.first == Some(id)
    case Taken(id, _, _, _) => x.call.DoCall? && x.first == Some(id)
    case AwaitDone(id) => x.call.DoCall? && x.first == Some(id)
    case Returned(stream, r) =>
      x.call.DoCall? && x.first == stream && (stream.None? ==> v.conn.err.Some? && r == Response(0, [], 0, v.conn.err))
    case BatchHeld(req, n, keep) =>
      x.call == BatchCall(req, keep, n) && x.err.None? && x.room && x.first.None? && x.written.None?
    case BatchNumbered(first, req, n) =>
      && x.call.BatchCall? && x.call.req == req && x.call.n == n
      && x.err.None? && x.room && x.first == Some(first) && x.written.None?
    case BatchReturned(count, err) => x.call.BatchCall? && Answer(v, x, count, err)
  }

  ghost predicate AllMatch(v: View, xs: seq<Story>, callers: seq<Caller>) {
    |xs| == |callers| && forall c :: 0 <= c < |xs| ==> Matches(v, xs[c], callers[c])
  }

  /** The record kept of a stream is that of the call it was numbered for. */
  predicate Entered(book: map<nat, Entry>, x: Story, c: nat, id: nat) {
    && id in book && book[id].req == x.call.req && book[id].keep == x.call.keep
    && book[id].owner == if x.call.DoCall? then ByDo(c) else ByBatch
  }

  /** Every stream was numbered for exactly one call. */
  ghost predicate Booked(book: map<nat, Entry>, xs: seq<Story>) {
    && (forall c, id :: 0 <= c < |xs| && Owns(xs[c], id) ==> Entered(book, xs[c], c, id))
    && (forall id :: id in book ==> exists c :: 0 <= c < |xs| && Owns(xs[c], id))
    && (forall c, d, id :: 0 <= c < |xs| && 0 <= d < |xs| && Owns(xs[c], id) && Owns(xs[d], id) ==> c == d)
  }

  ghost predicate StoriesOk(s: System, failed: set<nat>, xs: seq<Story>) {
    AllMatch(ViewOf(s, failed), xs, s.callers) && Booked(s.book, xs)
  }

  // ----- what stays -----

  /** The error stays, what is on the wire stays, and failed writes stay failed. */
  ghost predicate Evolves(v: View, v': View) {
    && (v.conn.err.Some? ==> v'.conn.err == v.conn.err)
    && v.failed <= v'.failed
    && forall id :: OnWire(v.wire, id) ==> OnWire(v'.wire, id)
  }

  lemma MatchStays(v: View, v': View, x: Story, y: Caller)
    requires Matches(v, x, y) && Evolves(v, v')
    ensures Matches(v', x, y)
  {
  }

  lemma MatchesMove(v: View, v': View, xs: seq<Story>, callers: seq<Caller>, c: nat, x: Story, y: Caller)
    requires AllMatch(v, xs, callers) && Evolves(v, v') && c < |xs| && Matches(v', x, y)
    ensures AllMatch(v', xs[c := x], callers[c := y])
  {
    var xs', callers' := xs[c := x], callers[c := y];
    forall k | 0 <= k < |xs'| ensures Matches(v', xs'[k], callers'[k]) {
      if k != c {
        MatchStays(v, v', xs[k], callers[k]);
      }
    }
  }

  lemma MatchesJoin(v: View, v': View, xs: seq<Story>, callers: seq<Caller>, x: Story, y: Caller)
    requires AllMatch(v, xs, callers) && Evolves(v, v') && Matches(v', x, y)
    ensures AllMatch(v', xs + [x], callers + [y])
  {
    var xs', callers' := xs + [x], callers + [y];
    forall k | 0 <= k < |xs'| ensures Matches(v', xs'[k], callers'[k]) {
      if k < |xs| {
        MatchStays(v, v', xs[k], callers[k]);
      }
    }
  }

  lemma MatchesStay(v: View, v': View, xs: seq<Story>, callers: seq<Caller>)
    requires AllMatch(v, xs, callers) && Evolves(v, v')
    ensures AllMatch(v', xs, callers)
  {
    forall k | 0 <= k < |xs| ensures Matches(v', xs[k], callers[k]) {
      MatchStays(v, v', xs[k], callers[k]);
    }
  }

  lemma BookedSame(book: map<nat, Entry>, xs: seq<Story>, book': map<nat, Entry>, xs': seq<Story>)
    requires Booked(book, xs) && book'.Keys == book.Keys && |xs'| == |xs|
    requires forall id :: id in book ==>
               book'[id].req == book[id].req && book'[id].keep == book[id].keep && book'[id].owner == book[id].owner
    requires forall c :: 0 <= c < |xs| ==> xs'[c].call == xs[c].call && xs'[c].first == xs[c].first
    ensures Booked(book', xs')
  {
    forall c, id | 0 <= c < |xs'| && Owns(xs'[c], id) ensures Entered(book', xs'[c], c, id) {
      assert Owns(xs[c], id);
      assert Entered(book, xs[c], c, id);
    }
    forall id | id in book' ensures exists c :: 0 <= c < |xs'| && Owns(xs'[c], id) {
      assert id in book.Keys;
      var c :| 0 <= c < |xs| && Owns(xs[c], id);
      assert Owns(xs'[c], id);
    }
    forall c, d, id | 0 <= c < |xs'| && 0 <= d < |xs'| && Owns(xs'[c], id) && Owns(xs'[d], id) ensures c == d {
      assert Owns(xs[c], id) && Owns(xs[d], id);
    }
  }

  lemma BookedJoin(book: map<nat, Entry>, xs: seq<Story>, x: Story)
    requires Booked(book, xs) && x.first.None?
    ensures Booked(book, xs + [x])
  {
    var all := xs + [x];
    forall id | id in book ensures exists c :: 0 <= c < |all| && Owns(all[c], id) {
      var c :| 0 <= c < |xs| && Owns(xs[c], id);
      assert Owns(all[c], id);
    }
    forall c, id | 0 <= c < |all| && Owns(all[c], id) ensures c < |xs| && Owns(xs[c], id) {
    }
  }

  /** Streams numbered for call c, none of which was in the book. */
  lemma BookedOpen(book: map<nat, Entry>, xs: seq<Story>, book': map<nat, Entry>, c: nat, x: Story)
    requires Booked(book, xs) && c < |xs| && xs[c].first.None? && x.call == xs[c].call
    requires forall id :: id in book ==> id in book' && book'[id] == book[id]
    requires forall id :: id in book' ==> id in book || Owns(x, id)
    requires forall id :: Owns(x, id) ==> id !in book && Entered(book', x, c, id)
    ensures Booked(book', xs[c := x])
  {
    var xs' := xs[c := x];
    forall d, id | 0 <= d < |xs'| && Owns(xs'[d], id) ensures Entered(book', xs'[d], d, id) {
      if d != c {
        assert Entered(book, xs[d], d, id);
      }
    }
    forall id | id in book' ensures exists d :: 0 <= d < |xs'| && Owns(xs'[d], id) {
      if id in book {
        var d :| 0 <= d < |xs| && Owns(xs[d], id);
        assert d != c && Owns(xs'[d], id);
      } else {
        assert Owns(xs'[c], id);
      }
    }
    forall d, e, id | 0 <= d < |xs'| && 0 <= e < |xs'| && Owns(xs'[d], id) && Owns(xs'[e], id) ensures d == e {
      if d != c {
        assert Entered(book, xs[d], d, id);
      }
      if e != c {
        assert Entered(book, xs[e], e, id);
      }
    }
  }

  // ----- every step -----

  lemma WireStays(wire: seq<Frame>, wire': seq<Frame>)
    requires wire <= wire'
    ensures forall id :: OnWire(wire, id) ==> OnWire(wire', id)
  {
    forall id | OnWire(wire, id) ensures OnWire(wire', id) {
      assert wire' == wire + wire'[|wire|..];
      OnConcat(wire, wire'[|wire|..], id);
    }
  }

  lemma CallersWrite(s: System, st: Step)
    requires Enabled(s, st) && CallerStep(st)
    ensures s.wire <= Next(s, st).wire
  {
  }

  lemma StepEvolves(s: System, failed: set<nat>, st: Step)
    requires Inv(s) && Enabled(s, st)
    ensures Evolves(ViewOf(s, failed), ViewOf(Next(s, st), failed + FailedBy(s, st)))
  {
    if s.conn.err.Some? {
      FailureSticks(s, st);
    }
    if CallerStep(st) {
      CallersWrite(s, st);
    } else {
      ReaderWire(s, st);
    }
    WireStays(s.wire, Next(s, st).wire);
  }

  lemma ReaderStory(s: System, failed: set<nat>, xs: seq<Story>, st: Step)
    requires Inv(s) && StoriesOk(s, failed, xs) && Enabled(s, st) && !CallerStep(st)
    ensures StoriesOk(Next(s, st), failed + FailedBy(s, st), xs)
  {
    StepEvolves(s, failed, st);
    ReaderSteady(s, st);
    var t := Next(s, st);
    MatchesStay(ViewOf(s, failed), ViewOf(t, failed + FailedBy(s, st)), xs, s.callers);
    forall id | id in s.book
      ensures t.book[id].req == s.book[id].req && t.book[id].keep == s.book[id].keep
              && t.book[id].owner == s.book[id].owner
    {
      assert TakenAlike(s.book[id], t.book[id]);
    }
    BookedSame(s.book, xs, t.book, xs);
  }

  /** A step that leaves the book's requests as they are and moves caller c. */
  lemma MoveStory(s: System, failed: set<nat>, xs: seq<Story>, t: System, failed': set<nat>, c: nat, x: Story)
    requires StoriesOk(s, failed, xs) && Evolves(ViewOf(s, failed), ViewOf(t, failed')) && c < |xs|
    requires |t.callers| == |s.callers| && t.callers == s.callers[c := t.callers[c]]
    requires t.book.Keys == s.book.Keys && forall id :: id in s.book ==>
               && t.book[id].req == s.book[id].req && t.book[id].keep == s.book[id].keep
               && t.book[id].owner == s.book[id].owner
    requires x.call == xs[c].call && x.first == xs[c].first && Matches(ViewOf(t, failed'), x, t.callers[c])
    ensures StoriesOk(t, failed', xs[c := x])
  {
    MatchesMove(ViewOf(s, failed), ViewOf(t, failed'), xs, s.callers, c, x, t.callers[c]);
    BookedSame(s.book, xs, t.book, xs[c := x]);
  }

  /** A step in which streams are numbered for caller c. */
  lemma OpenStory(s: System, failed: set<nat>, xs: seq<Story>, t: System, c: nat, x: Story)
    requires StoriesOk(s, failed, xs) && Evolves(ViewOf(s, failed), ViewOf(t, failed)) && c < |xs|
    requires |t.callers| == |s.callers| && t.callers == s.callers[c := t.callers[c]]
    requires xs[c].first.None? && x.call == xs[c].call && Matches(ViewOf(t, failed), x, t.callers[c])
    requires forall id :: id in s.book ==> id in t.book && t.book[id] == s.book[id]
    requires forall id :: id in t.book ==> id in s.book || Owns(x, id)
    requires forall id :: Owns(x, id) ==> id !in s.book && Entered(t.book, x, c, id)
    ensures StoriesOk(t, failed, xs[c := x])
  {
    MatchesMove(ViewOf(s, failed), ViewOf(t, failed), xs, s.callers, c, x, t.callers[c]);
    BookedOpen(s.book, xs, t.book, c, x);
  }

  lemma JoinStory(s: System, failed: set<nat>, xs: seq<Story>, t: System, x: Story, y: Caller)
    requires StoriesOk(s, failed, xs) && Evolves(ViewOf(s, failed), ViewOf(t, failed))
    requires t.callers == s.callers + [y] && t.book == s.book && x.first.None? && Matches(ViewOf(t, failed), x, y)
    ensures StoriesOk(t, failed, xs + [x])
  {
    MatchesJoin(ViewOf(s, failed), ViewOf(t, failed), xs, s.callers, x, y);
    BookedJoin(s.book, xs, x);
  }

  // ----- the callers' steps, one at a time -----

  lemma SlotStory(s: System, failed: set<nat>, xs: seq<Story>, c: nat)
    requires StoriesOk(s, failed, xs) && Enabled(s, DoChecksSlot(c))
    requires Evolves(ViewOf(s, failed), ViewOf(ChecksSlot(s, c), failed))
    ensures StoriesOk(ChecksSlot(s, c), failed, xs)
  {
    assert Matches(ViewOf(s, failed), xs[c], s.callers[c]);
    MoveStory(s, failed, xs, ChecksSlot(s, c), failed, c, xs[c]);
    assert xs[c := xs[c]] == xs;
  }

  lemma NumberStory(s: System, failed: set<nat>, xs: seq<Story>, c: nat)
    requires StoriesOk(s, failed, xs) && Enabled(s, DoNumbers(c)) && IdsOk(s.conn, s.book)
    requires Evolves(ViewOf(s, failed), ViewOf(Numbers(s, c), failed))
    ensures StoriesOk(Numbers(s, c), failed, Retold(xs, s, Numbers(s, c), DoNumbers(c)))
  {
    var t := Numbers(s, c);
    assert Matches(ViewOf(s, failed), xs[c], s.callers[c]);
    if t.wmu == Some(c) {
      ZeroNeverOpened(s.conn, s.book);
      OpenStory(s, failed, xs, t, c, xs[c].(first := Some(s.conn.nextID)));
    } else {
      MoveStory(s, failed, xs, t, failed, c, xs[c]);
      assert xs[c := xs[c]] == xs;
    }
  }

  lemma SendStory(s: System, failed: set<nat>, xs: seq<Story>, t: System, failed': set<nat>, c: nat)
    requires StoriesOk(s, failed, xs) && Evolves(ViewOf(s, failed), ViewOf(t, failed')) && c < |s.callers|
    requires |t.callers| == |s.callers| && t.callers == s.callers[c := t.callers[c]]
    requires t.book.Keys == s.book.Keys && forall id :: id in s.book ==>
               && t.book[id].req == s.book[id].req && t.book[id].keep == s.book[id].keep
               && t.book[id].owner == s.book[id].owner
    requires StreamOf(s.callers[c]).Some? && StreamOf(t.callers[c]) == StreamOf(s.callers[c])
    ensures StoriesOk(t, failed', xs)
  {
    assert Matches(ViewOf(s, failed), xs[c], s.callers[c]);
    MoveStory(s, failed, xs, t, failed', c, xs[c]);
    assert xs[c := xs[c]] == xs;
  }

  lemma SendFrame(s: System, st: Step, c: nat)
    requires Enabled(s, st) && (st.DoWrites? || st.DoChecksWindow? || st.DoWritesData? || st.DoReceives?) && st.c == c
    ensures var t := Next(s, st);
            && |t.callers| == |s.callers| && t.callers == s.callers[c := t.callers[c]]
            && StreamOf(s.callers[c]).Some? && StreamOf(t.callers[c]) == StreamOf(s.callers[c])
            && t.book.Keys == s.book.Keys
            && forall id :: id in s.book ==> TakenApart(s.book[id], t.book[id])
  {
  }

  /** The same but for the octets taken. */
  predicate TakenApart(e: Entry, e': Entry) {
    e'.req == e.req && e'.keep == e.keep && e'.owner == e.owner
  }

  lemma SendStep(s: System, failed: set<nat>, xs: seq<Story>, st: Step)
    requires StoriesOk(s, failed, xs) && Enabled(s, st)
    requires st.DoWrites? || st.DoChecksWindow? || st.DoWritesData? || st.DoReceives?
    requires Evolves(ViewOf(s, failed), ViewOf(Next(s, st), failed + FailedBy(s, st)))
    ensures StoriesOk(Next(s, st), failed + FailedBy(s, st), xs)
  {
    SendFrame(s, st, st.c);
    var t := Next(s, st);
    assert forall id :: id in s.book ==> TakenApart(s.book[id], t.book[id]);
    SendStory(s, failed, xs, t, failed + FailedBy(s, st), st.c);
  }

  lemma BatchArrivalStory(s: System, failed: set<nat>, xs: seq<Story>, req: Req, n: nat, keep: bool, t: System)
    requires StoriesOk(s, failed, xs) && t == BatchStarts(s, req, n, keep)
    requires Evolves(ViewOf(s, failed), ViewOf(t, failed))
    ensures StoriesOk(t, failed, Retold(xs, s, t, BatchArrives(req, n, keep)))
  {
    var x := Story(BatchCall(req, keep, n), s.conn.err, Room(s.conn, n, |req.body|), None, None);
    JoinStory(s, failed, xs, t, x, t.callers[|s.callers|]);
  }

  lemma OpenedBatchBook(s: System, c: nat, n: nat, e: Entry, x: Story)
    requires IdsOk(s.conn, s.book) && n <= STREAM_CAP && Opens(s.conn, n)
    requires x.call == BatchCall(e.req, e.keep, n) && x.first == Some(s.conn.nextID) && e.owner == ByBatch
    ensures var book := AddEntries(s.book, s.conn.nextID, n, e);
            && (forall id :: id in s.book ==> id in book && book[id] == s.book[id])
            && (forall id :: id in book ==> id in s.book || Owns(x, id))
            && (forall id :: Owns(x, id) ==> id !in s.book && Entered(book, x, c, id))
  {
    OpensAbove(s.conn, s.book, n, 0, false);
    AddEntriesMap(s.book, s.conn.nextID, n, e);
  }

  lemma BatchNumberStory(s: System, failed: set<nat>, xs: seq<Story>, c: nat, t: System)
    requires StoriesOk(s, failed, xs) && Enabled(s, BatchNumbers(c)) && t == BatchOpens(s, c) && Counts(s)
    requires Evolves(ViewOf(s, failed), ViewOf(t, failed))
    ensures StoriesOk(t, failed, Retold(xs, s, t, BatchNumbers(c)))
  {
    var w := s.callers[c];
    assert Matches(ViewOf(s, failed), xs[c], w);
    BatchBound(s.conn, s.callers, s.topLimit, c);
    if Opens(s.conn, w.n) {
      var x := xs[c].(first := Some(s.conn.nextID));
      OpenedBatchBook(s, c, w.n, Entry(ByBatch, w.req, w.keep, |w.req.body|, 0), x);
      OpenStory(s, failed, xs, t, c, x);
    } else {
      MoveStory(s, failed, xs, t, failed, c, xs[c]);
      assert xs[c := xs[c]] == xs;
    }
  }

  lemma BatchAnswered(s: System, c: nat, ok: bool, x: Story, v: View)
    requires Enabled(s, BatchWrites(c, ok)) && Progress(s.wire, s.book, c, s.callers[c])
    requires x.call.BatchCall? && x.call.n == s.callers[c].n && x.first == Some(s.callers[c].first)
    requires x.written == Some(ok)
    requires v.wire == BatchWritten(s, c, ok).wire && FailedBy(s, BatchWrites(c, ok)) <= v.failed && x.err.None?
    requires x.room
    ensures Matches(v, x, BatchWritten(s, c, ok).callers[c])
  {
    var w := s.callers[c];
    if ok {
      forall id | Owns(x, id) ensures OnWire(v.wire, id) {
        RepeatWhole(s.wire, w.req.block, w.req.body, w.first, w.n, id);
      }
    } else {
      forall id | Owns(x, id) ensures id in v.failed {
        assert id in BatchIds(w.first, w.n);
      }
    }
  }

  lemma BatchWriteStory(s: System, failed: set<nat>, xs: seq<Story>, c: nat, ok: bool, t: System, failed': set<nat>)
    requires StoriesOk(s, failed, xs) && Enabled(s, BatchWrites(c, ok)) && t == BatchWritten(s, c, ok)
    requires failed' == failed + FailedBy(s, BatchWrites(c, ok)) && ProgressOk(s.wire, s.book, s.callers)
    requires Evolves(ViewOf(s, failed), ViewOf(t, failed'))
    ensures StoriesOk(t, failed', Retold(xs, s, t, BatchWrites(c, ok)))
  {
    assert Matches(ViewOf(s, failed), xs[c], s.callers[c]);
    assert Progress(s.wire, s.book, c, s.callers[c]);
    var x := xs[c].(written := Some(ok));
    BatchAnswered(s, c, ok, x, ViewOf(t, failed'));
    MoveStory(s, failed, xs, t, failed', c, x);
  }

  lemma CallerStory(s: System, failed: set<nat>, xs: seq<Story>, st: Step)
    requires Inv(s) && StoriesOk(s, failed, xs) && Enabled(s, st) && CallerStep(st)
    ensures StoriesOk(Next(s, st), failed + FailedBy(s, st), Retold(xs, s, Next(s, st), st))
  {
    StepEvolves(s, failed, st);
    var t := Next(s, st);
    assert failed + {} == failed;
    if st.DoArrives? {
      JoinStory(s, failed, xs, t, Story(DoCall(st.req, st.keep), s.conn.err, true, None, None),
                SlotWait(st.req, st.keep, None));
    } else if st.BatchArrives? {
      BatchArrivalStory(s, failed, xs, st.req, st.n, st.keep, t);
    } else if st.DoChecksSlot? {
      SlotStory(s, failed, xs, st.c);
    } else if st.DoNumbers? {
      NumberStory(s, failed, xs, st.c);
    } else if st.BatchNumbers? {
      BatchNumberStory(s, failed, xs, st.c, t);
    } else if st.BatchWrites? {
      BatchWriteStory(s, failed, xs, st.c, st.ok, t, failed + FailedBy(s, st));
    } else {
      SendStep(s, failed, xs, st);
    }
  }

  /** Over every run. */
  lemma {:induction false} RunStories(steps: seq<Step>)
    requires Run(steps).Some?
    ensures StoriesOk(Run(steps).value, Log(steps).failed, Stories(steps))
    decreases |steps|
  {
    if steps == [] {
    } else {
      var before, st := steps[..|steps| - 1], steps[|steps| - 1];
      RunStories(before);
      Reachable(before);
      StoryStep(Run(before).value, Log(before).failed, Stories(before), st);
    }
  }

  lemma StoryStep(s: System, failed: set<nat>, xs: seq<Story>, st: Step)
    requires Inv(s) && StoriesOk(s, failed, xs) && Enabled(s, st)
    ensures StoriesOk(Next(s, st), failed + FailedBy(s, st), Retold(xs, s, Next(s, st), st))
  {
    if CallerStep(st) {
      CallerStory(s, failed, xs, st);
    } else {
      ReaderStory(s, failed, xs, st);
    }
  }

  // ----- from the steps alone -----

  /** The calls made, in the order they were made. */
  function Arrivals(steps: seq<Step>): seq<Call> {
    if steps == [] then [] else
    var before := Arrivals(steps[..|steps| - 1]);
    match steps[|steps| - 1]
    case DoArrives(req, keep) => before + [DoCall(req, keep)]
    case BatchArrives(req, n, keep) => before + [BatchCall(req, keep, n)]
    case _ => before
  }

  lemma {:induction false} StoriesTellCalls(steps: seq<Step>)
    requires Run(steps).Some?
    ensures |Stories(steps)| == |Arrivals(steps)|
    ensures forall c :: 0 <= c < |Stories(steps)| ==> Stories(steps)[c].call == Arrivals(steps)[c]
    decreases |steps|
  {
    if steps == [] {
    } else {
      StoriesTellCalls(steps[..|steps| - 1]);
    }
  }

  /** Stream id was numbered for the c-th call, and for no other. */
  ghost predicate ServesCall(steps: seq<Step>, id: nat, c: nat)
    requires Run(steps).Some?
  {
    && c < |Stories(steps)| && |Stories(steps)| == |Arrivals(steps)| && Owns(Stories(steps)[c], id)
    && forall d :: 0 <= d < |Stories(steps)| && Owns(Stories(steps)[d], id) ==> d == c
  }

  /** Every stream ever opened serves one call, and its record is that call's request and keep flag. */
  lemma CallOf(steps: seq<Step>, id: nat) returns (c: nat)
    requires Run(steps).Some? && id in Run(steps).value.book
    ensures ServesCall(steps, id, c)
    ensures var e, call := Run(steps).value.book[id], Arrivals(steps)[c];
            e.req == call.req && e.keep == call.keep && e.owner == if call.DoCall? then ByDo(c) else ByBatch
  {
    RunStories(steps);
    StoriesTellCalls(steps);
    var xs := Stories(steps);
    c :| 0 <= c < |xs| && Owns(xs[c], id);
    assert Entered(Run(steps).value.book, xs[c], c, id);
  }

  // ----- what WriteBatch returns -----

  lemma {:induction false} BatchIdsSize(first: nat, n: nat)
    ensures |BatchIds(first, n)| == n
  {
    if n == 0 {
      assert BatchIds(first, 0) == {};
    } else {
      BatchIdsSize(first, n - 1);
      var last := first + 2 * (n - 1) + if first % 2 == 1 then 0 else 1;
      assert BatchIds(first, n) == BatchIds(first, n - 1) + {last};
    }
  }

  /** The streams of a call that have reached the wire. */
  ghost function Reached(s: System, x: Story): set<nat> {
    set id | id in s.book && Owns(x, id) && OnWire(s.wire, id)
  }

  lemma ReachedCount(s: System, failed: set<nat>, x: Story, c: nat, count: nat, err: Option<Error>)
    requires x.call.BatchCall? && Answer(ViewOf(s, failed), x, count, err)
    requires BatchesOk(ViewOf(s, failed), s.callers, s.wmu)
    requires forall id :: Owns(x, id) ==> Entered(s.book, x, c, id)
    ensures |Reached(s, x)| == count
  {
    if x.written == Some(true) {
      assert Reached(s, x) == BatchIds(x.first.value, x.call.n) by {
        forall id | id in BatchIds(x.first.value, x.call.n) ensures id in Reached(s, x) {
          assert Owns(x, id);
          assert Entered(s.book, x, c, id);
        }
      }
      BatchIdsSize(x.first.value, x.call.n);
    } else {
      forall id | id in s.book && Owns(x, id) ensures !OnWire(s.wire, id) {
        assert Entered(s.book, x, c, id);
        assert BatchStream(ViewOf(s, failed), s.callers, s.wmu, id);
      }
      assert Reached(s, x) == {};
    }
  }

  /** What WriteBatch returns, for a batch of n: how many of its streams reached the wire, which is all of them or none;
      0 and no error exactly when it found no room on a connection without an error, or wrote an empty batch; and an
      error is that of its failed write, or the connection's. */
  ghost predicate Returns(s: System, x: Story, n: nat, count: nat, err: Option<Error>) {
    && count == |Reached(s, x)| && (count == 0 || count == n)
    && (x.written == Some(true) ==> count == n && err.None?)
    && (x.written == Some(false) ==> count == 0 && err == Some(WriteFailed))
    && (x.written.None? ==> count == 0 && (err.Some? ==> err == s.conn.err))
    && (count == 0 && err.None? <==> (x.err.None? && !x.room) || (x.written == Some(true) && n == 0))
  }

  lemma AnswerReturns(s: System, failed: set<nat>, x: Story, c: nat, count: nat, err: Option<Error>)
    requires x.call.BatchCall? && Answer(ViewOf(s, failed), x, count, err)
    requires BatchesOk(ViewOf(s, failed), s.callers, s.wmu)
    requires forall id :: Owns(x, id) ==> Entered(s.book, x, c, id)
    ensures Returns(s, x, x.call.n, count, err)
  {
    ReachedCount(s, failed, x, c, count, err);
  }

  /** Over every run. */
  lemma WriteBatchReturns(steps: seq<Step>, c: nat)
    requires Run(steps).Some? && c < |Run(steps).value.callers| && Run(steps).value.callers[c].BatchReturned?
    ensures c < |Stories(steps)| && c < |Arrivals(steps)| && Arrivals(steps)[c].BatchCall?
    ensures var s := Run(steps).value;
            Returns(s, Stories(steps)[c], Arrivals(steps)[c].n, s.callers[c].count, s.callers[c].err)
  {
    RunStories(steps);
    RunSent(steps);
    StoriesTellCalls(steps);
    var s, xs := Run(steps).value, Stories(steps);
    assert Matches(ViewOf(s, Log(steps).failed), xs[c], s.callers[c]);
    AnswerReturns(s, Log(steps).failed, xs[c], c, s.callers[c].count, s.callers[c].err);
  }

  /** A Do refused before it had a stream returns the connection's error, and nothing else. */
  lemma RefusedDo(steps: seq<Step>, c: nat)
    requires Run(steps).Some? && c < |Run(steps).value.callers|
    requires Run(steps).value.callers[c].Returned? && Run(steps).value.callers[c].stream.None?
    ensures var s := Run(steps).value;
            s.conn.err.Some? && s.callers[c].result == Response(0, [], 0, s.conn.err)
  {
    RunStories(steps);
    var s := Run(steps).value;
    assert Matches(ViewOf(s, Log(steps).failed), Stories(steps)[c], s.callers[c]);
  }
}
