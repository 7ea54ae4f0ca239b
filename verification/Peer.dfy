/**
 The client's map against the server's side of each stream, section 5.1 of RFC 9113: which streams are open by the
 standard, and which of those the client still counts.
 */
module Peer {
  import opened Bytes
  import opened Frames
  import opened Segments
  import opened ConnState
  import opened Protocol
  import opened Slots
  import opened Wire
  import opened Results
  import opened Invariant
  import opened Runs
  import opened History

  /** The server ended, reset or refused the stream. */
  predicate Done(r: Record, id: nat) {
    id in r.peerEnded || id in r.peerReset || id in r.peerRefused
  }

  /** A stream left the map for the reason the server gave. */
  predicate EndedRightly(r: Record, exited: bool, e: Ended) {
    match e.cause
    case Answered => e.id in r.peerEnded
    case Reset(_) => e.id in r.peerReset
    case Refused(_) => e.id in r.peerRefused
    case ConnectionLost(_) => exited
  }

  ghost predicate EndsOk(r: Record, exited: bool, ended: seq<Ended>) {
    forall i :: 0 <= i < |ended| ==> EndedRightly(r, exited, ended[i])
  }

  /** Only opened streams are recorded, and none that is still in the map is done. */
  ghost predicate LivesOk(r: Record, conn: Conn, book: map<nat, Entry>) {
    && r.peerEnded <= book.Keys && r.peerReset <= book.Keys && r.peerRefused <= book.Keys
    && (r.block.Some? ==> r.block.value in book)
    && forall id :: id in conn.streams ==> !Done(r, id)
  }

  /** The header block being read is for the stream recorded, which the reader knows if it is in the map. */
  ghost predicate BlockOk(r: Record, reader: Reader, conn: Conn) {
    reader.phase.InBlock? ==>
      && (reader.hdrStream.Some? ==> r.block == reader.hdrStream)
      && (reader.hdrStream.None? && r.block.Some? ==> r.block.value !in conn.streams)
  }

  ghost predicate PeerOk(s: System, r: Record) {
    && EndsOk(r, s.reader.phase.Exited?, s.ended)
    && LivesOk(r, s.conn, s.book)
    && BlockOk(r, s.reader, s.conn)
  }

  // ----- callers -----

  /** A caller opens new streams at most. */
  ghost predicate OnlyOpens(s: System, t: System) {
    && t.reader == s.reader && t.ended == s.ended && s.book.Keys <= t.book.Keys
    && forall id :: id in t.conn.streams ==> id in s.conn.streams || id !in s.book
  }

  lemma CallerOpens(s: System, st: Step)
    requires Counts(s) && Enabled(s, st) && CallerStep(st)
    ensures OnlyOpens(s, Next(s, st))
  {
    if st.BatchNumbers? {
      BatchOnlyOpens(s, st.c);
    } else {
      ZeroNeverOpened(s.conn, s.book);
      DoOnlyOpens(s, st);
    }
  }

  lemma BatchOnlyOpens(s: System, c: nat)
    requires Counts(s) && Enabled(s, BatchNumbers(c))
    ensures OnlyOpens(s, BatchOpens(s, c))
  {
    var w := s.callers[c];
    BatchBound(s.conn, s.callers, s.topLimit, c);
    if Opens(s.conn, w.n) {
      OpensAbove(s.conn, s.book, w.n, |w.req.body|, w.keep);
      BookGrows(s.book, s.conn.nextID, w.n, Entry(ByBatch, w.req, w.keep, |w.req.body|, 0));
    }
  }

  lemma DoOnlyOpens(s: System, st: Step)
    requires Enabled(s, st) && CallerStep(st) && !st.BatchNumbers? && s.conn.nextID !in s.book
    ensures OnlyOpens(s, Next(s, st))
  {
  }

  lemma SameRecord(r: Record, s: System, st: Step)
    requires Enabled(s, st) && CallerStep(st)
    ensures Note(r, s, st) == r.(failed := r.failed + FailedBy(s, st))
  {
    assert r.peerEnded + {} == r.peerEnded && r.peerReset + {} == r.peerReset && r.peerRefused + {} == r.peerRefused;
  }

  lemma CallerPeer(s: System, r: Record, st: Step)
    requires Counts(s) && PeerOk(s, r) && Enabled(s, st) && CallerStep(st)
    ensures PeerOk(Next(s, st), Note(r, s, st))
  {
    CallerOpens(s, st);
    SameRecord(r, s, st);
    OpenedPeer(s, r, Next(s, st), r.failed + FailedBy(s, st));
  }

  lemma OpenedPeer(s: System, r: Record, t: System, failed: set<nat>)
    requires PeerOk(s, r) && OnlyOpens(s, t)
    ensures PeerOk(t, r.(failed := failed))
  {
    var r' := r.(failed := failed);
    forall i | 0 <= i < |t.ended| ensures EndedRightly(r', t.reader.phase.Exited?, t.ended[i]) {
      assert EndedRightly(r, s.reader.phase.Exited?, s.ended[i]);
    }
    forall id | id in t.conn.streams ensures !Done(r', id) {
      assert id in s.conn.streams ==> !Done(r, id);
    }
  }

  // ----- the reader -----

  /** The record grows. */
  predicate Grows(r: Record, r': Record) {
    r.peerEnded <= r'.peerEnded && r.peerReset <= r'.peerReset && r.peerRefused <= r'.peerRefused
  }

  lemma EndsMore(r: Record, r': Record, exited: bool, exited': bool, ended: seq<Ended>, es: seq<Ended>)
    requires EndsOk(r, exited, ended) && Grows(r, r') && (exited ==> exited')
    requires forall i :: 0 <= i < |es| ==> EndedRightly(r', exited', es[i])
    ensures EndsOk(r', exited', ended + es)
  {
    var all := ended + es;
    forall i | 0 <= i < |all| ensures EndedRightly(r', exited', all[i]) {
      if i < |ended| {
        assert EndedRightly(r, exited, ended[i]);
      } else {
        assert all[i] == es[i - |ended|];
      }
    }
  }

  /** A step that ends nothing: the map keeps its streams. */
  lemma QuietPeer(s: System, r: Record, t: System, r': Record)
    requires PeerOk(s, r) && s.reader.phase.Exited? == t.reader.phase.Exited? && BlockOk(r', t.reader, t.conn)
    requires t.book.Keys == s.book.Keys && t.ended == s.ended
    requires r'.peerEnded == r.peerEnded && r'.peerReset == r.peerReset && r'.peerRefused == r.peerRefused
    requires r'.block.Some? ==> r'.block.value in s.book
    requires forall j :: j in t.conn.streams ==> j in s.conn.streams
    ensures PeerOk(t, r')
  {
    EndsMore(r, r', s.reader.phase.Exited?, t.reader.phase.Exited?, s.ended, []);
    assert t.ended == s.ended + [];
    forall j | j in t.conn.streams ensures !Done(r', j) {
      assert !Done(r, j);
    }
  }

  predicate QuietStep(st: Step) {
    || st.ReadData? || st.ReadHeaders? || st.ReadFragment? || st.ReadSettings? || st.AckSettings?
    || st.ReadWindowUpdate? || st.ReadPing? || st.ReadFails? || st.ReaderTells?
  }

  lemma QuietFrame(s: System, st: Step)
    requires Enabled(s, st) && QuietStep(st) && SlotsOk(s.conn, s.callers, s.topLimit)
    ensures var t := Next(s, st);
            && t.ended == s.ended && t.book.Keys == s.book.Keys && s.reader.phase.Exited? == t.reader.phase.Exited?
            && (forall j :: j in t.conn.streams ==> j in s.conn.streams)
            && (t.reader.phase.InBlock? && !st.ReadHeaders? ==>
                  s.reader.phase.InBlock? && t.reader.hdrStream == s.reader.hdrStream)
  {
    if st.ReadSettings? {
      SettingsFrame(s.conn, st.ss, s.topLimit);
      assert forall id :: id in Next(s, st).conn.streams ==> id in ApplySettings(s.conn, st.ss).streams.Keys;
    }
  }

  lemma QuietNote(r: Record, s: System, st: Step)
    requires Enabled(s, st) && QuietStep(st)
    ensures var r' := Note(r, s, st);
            && r'.peerEnded == r.peerEnded && r'.peerReset == r.peerReset && r'.peerRefused == r.peerRefused
            && r'.block == if !st.ReadHeaders? then r.block else if st.id in s.book then Some(st.id) else None
  {
  }

  lemma QuietStepPeer(s: System, r: Record, st: Step)
    requires Counts(s) && PeerOk(s, r) && Enabled(s, st) && QuietStep(st)
    ensures PeerOk(Next(s, st), Note(r, s, st))
  {
    QuietFrame(s, st);
    QuietNote(r, s, st);
    QuietPeer(s, r, Next(s, st), Note(r, s, st));
  }

  // ----- steps that end streams -----

  /** A step that may take stream id out of the map, and nothing else. */
  ghost predicate TakesOut(s: System, t: System, id: nat, gone: bool, cause: Cause) {
    && t.book == s.book && !s.reader.phase.Exited? && !t.reader.phase.Exited? && !t.reader.phase.InBlock?
    && (forall j :: j in t.conn.streams ==> j in s.conn.streams && !(gone && j == id))
    && |s.ended| <= |t.ended| && t.ended[..|s.ended|] == s.ended
    && forall i :: |s.ended| <= i < |t.ended| ==> gone && t.ended[i].id == id && t.ended[i].cause == cause
  }

  lemma EndsOneMore(r: Record, r': Record, s: System, t: System, id: nat, cause: Cause)
    requires EndsOk(r, false, s.ended) && Grows(r, r') && TakesOut(s, t, id, true, cause)
    requires (cause == Answered && id in r'.peerEnded) || (cause.Reset? && id in r'.peerReset)
    ensures EndsOk(r', false, t.ended)
  {
    var es := t.ended[|s.ended|..];
    EndsMore(r, r', false, false, s.ended, es);
    assert t.ended == s.ended + es;
  }

  lemma LivesLess(r: Record, r': Record, s: System, t: System, id: nat, cause: Cause)
    requires LivesOk(r, s.conn, s.book) && TakesOut(s, t, id, true, cause) && id in s.book
    requires r'.peerRefused == r.peerRefused && r'.block == r.block
    requires r'.peerEnded == r.peerEnded || r'.peerEnded == r.peerEnded + {id}
    requires r'.peerReset == r.peerReset || r'.peerReset == r.peerReset + {id}
    ensures LivesOk(r', t.conn, t.book)
  {
    forall j | j in t.conn.streams ensures !Done(r', j) {
      assert !Done(r, j);
    }
  }

  lemma HandlesDataFrame(s: System, id: nat)
    requires Enabled(s, HandleData) && id == s.reader.phase.id
    ensures TakesOut(s, HandlesData(s), id, s.reader.phase.ends, Answered)
    ensures !s.reader.phase.ends ==> HandlesData(s).ended == s.ended
  {
  }

  lemma HandlesDataPeer(s: System, r: Record, r': Record, id: nat)
    requires PeerOk(s, r) && Enabled(s, HandleData) && id == s.reader.phase.id && r' == Note(r, s, HandleData)
    requires forall j :: j in s.conn.streams ==> j in s.book
    ensures PeerOk(HandlesData(s), r')
  {
    var t := HandlesData(s);
    HandlesDataFrame(s, id);
    if s.reader.phase.ends && id in s.book {
      EndsOneMore(r, r', s, t, id, Answered);
      LivesLess(r, r', s, t, id, Answered);
    } else {
      assert t.ended == s.ended;
      QuietPeer(s, r, t, r');
    }
  }

  lemma EndsBlockFrame(s: System, id: nat)
    requires Enabled(s, EndBlock) && (s.reader.hdrStream.Some? ==> s.reader.hdrStream.value == id)
    ensures TakesOut(s, EndsBlock(s), id, s.reader.hdrEnd && s.reader.hdrStream.Some?, Answered)
  {
  }

  lemma EndsBlockPeer(s: System, r: Record, r': Record)
    requires PeerOk(s, r) && ReaderOk(s.conn, s.reader) && Enabled(s, EndBlock) && r' == Note(r, s, EndBlock)
    ensures PeerOk(EndsBlock(s), r')
  {
    var t := EndsBlock(s);
    if s.reader.hdrEnd && r.block.Some? {
      var id := r.block.value;
      EndsBlockFrame(s, id);
      assert TakesOut(s, t, id, true, Answered);
      EndsOneMore(r, r', s, t, id, Answered);
      LivesLess(r, r', s, t, id, Answered);
    } else {
      EndsBlockFrame(s, if s.reader.hdrStream.Some? then s.reader.hdrStream.value else 0);
      assert t.ended == s.ended;
      QuietPeer(s, r, t, r');
    }
  }

  lemma ResetFrame(s: System, id: nat, code: nat)
    requires Enabled(s, ReadReset(id, code))
    ensures TakesOut(s, Ends(s, id, Reset(code)), id, true, Reset(code))
  {
  }

  lemma ResetPeer(s: System, r: Record, r': Record, id: nat, code: nat)
    requires PeerOk(s, r) && Enabled(s, ReadReset(id, code)) && r' == Note(r, s, ReadReset(id, code))
    requires forall j :: j in s.conn.streams ==> j in s.book
    ensures PeerOk(Ends(s, id, Reset(code)), r')
  {
    var t := Ends(s, id, Reset(code));
    ResetFrame(s, id, code);
    if id in s.book {
      EndsOneMore(r, r', s, t, id, Reset(code));
      LivesLess(r, r', s, t, id, Reset(code));
    } else {
      QuietPeer(s, r, t, r');
    }
  }

  lemma GoesAwayPeer(s: System, r: Record, r': Record, last: nat, code: nat, order: seq<nat>)
    requires PeerOk(s, r) && Enabled(s, ReadGoAway(last, code, order))
    requires r' == Note(r, s, ReadGoAway(last, code, order))
    requires forall j :: j in s.conn.streams ==> j in s.book
    ensures PeerOk(GoesAway(s, last, code, order), r')
  {
    var t := GoesAway(s, last, code, order);
    var es := EndingsOf(s.conn.streams, order, Refused(t.conn.err.value), |s.trace|);
    assert t.ended == s.ended + es;
    forall i | 0 <= i < |es| ensures EndedRightly(r', false, es[i]) {
      assert order[i] in Above(s.conn.streams, last);
    }
    EndsMore(r, r', false, false, s.ended, es);
    AwayLives(r, r', s.conn, t.conn, s.book, last);
  }

  lemma AwayLives(r: Record, r': Record, conn: Conn, conn': Conn, book: map<nat, Entry>, last: nat)
    requires LivesOk(r, conn, book) && conn'.streams == conn.streams - Above(conn.streams, last)
    requires r'.peerEnded == r.peerEnded && r'.peerReset == r.peerReset && r'.block == r.block
    requires r'.peerRefused == r.peerRefused + set id | id in book && id > last
    ensures LivesOk(r', conn', book)
  {
    forall j | j in conn'.streams ensures !Done(r', j) {
      assert !Done(r, j);
      assert j !in Above(conn.streams, last);
    }
  }

  lemma ExitsPeer(s: System, r: Record, r': Record, order: seq<nat>)
    requires PeerOk(s, r) && Enabled(s, ReaderExits(order)) && r' == Note(r, s, ReaderExits(order))
    ensures PeerOk(Exits(s, order), r')
  {
    var t := Exits(s, order);
    var es := EndingsOf(s.conn.streams, order, ConnectionLost(t.conn.err.value), |s.trace|);
    assert t.ended == s.ended + es;
    EndsMore(r, r', false, true, s.ended, es);
    assert r'.peerEnded == r.peerEnded && r'.peerReset == r.peerReset && r'.peerRefused == r.peerRefused;
  }

  // ----- all of them -----

  lemma EndingPeer(s: System, r: Record, st: Step)
    requires Inv(s) && PeerOk(s, r) && Enabled(s, st) && (st.HandleData? || st.EndBlock? || st.ReadReset?)
    ensures PeerOk(Next(s, st), Note(r, s, st))
  {
    match st
    case HandleData => HandlesDataPeer(s, r, Note(r, s, st), s.reader.phase.id);
    case EndBlock => EndsBlockPeer(s, r, Note(r, s, st));
    case ReadReset(id, code) => ResetPeer(s, r, Note(r, s, st), id, code);
  }

  lemma ReaderPeer(s: System, r: Record, st: Step)
    requires Inv(s) && PeerOk(s, r) && Enabled(s, st) && !CallerStep(st)
    ensures PeerOk(Next(s, st), Note(r, s, st))
  {
    if QuietStep(st) {
      QuietStepPeer(s, r, st);
    } else if st.ReadGoAway? {
      GoesAwayPeer(s, r, Note(r, s, st), st.last, st.code, st.order);
    } else if st.ReaderExits? {
      ExitsPeer(s, r, Note(r, s, st), st.order);
    } else {
      EndingPeer(s, r, st);
    }
  }

  /** Over every run. */
  lemma {:induction false} RunPeer(steps: seq<Step>)
    requires Run(steps).Some?
    ensures PeerOk(Run(steps).value, Log(steps))
    decreases |steps|
  {
    if steps == [] {
    } else {
      var before, st := steps[..|steps| - 1], steps[|steps| - 1];
      RunPeer(before);
      Reachable(before);
      if CallerStep(st) {
        CallerPeer(Run(before).value, Log(before), st);
      } else {
        ReaderPeer(Run(before).value, Log(before), st);
      }
    }
  }

  // ----- open by the standard -----

  /** The client's last frame on the stream ended its side. */
  predicate ClientEnded(wire: seq<Frame>, id: nat) {
    var fs := On(wire, id);
    fs != [] && EndsStream(fs[|fs| - 1])
  }

  /** Open or half-closed, as section 5.1.2 of RFC 9113 counts: HEADERS have been sent, the stream was neither reset nor
      refused, one side at least has not ended it, and the connection is there. */
  predicate OpenByRfc(s: System, r: Record, id: nat) {
    && id != 0 && On(s.wire, id) != [] && !s.reader.phase.Exited?
    && id !in r.peerReset && id !in r.peerRefused
    && !(id in r.peerEnded && ClientEnded(s.wire, id))
  }

  ghost predicate WasAnswered(ended: seq<Ended>, id: nat) {
    exists i :: 0 <= i < |ended| && ended[i].id == id && ended[i].cause == Answered
  }

  /** Answered in full before the request was sent in full, and not reset or refused since. */
  ghost predicate AnsweredEarly(s: System, r: Record, id: nat) {
    && id != 0 && On(s.wire, id) != [] && !s.reader.phase.Exited?
    && WasAnswered(s.ended, id) && !ClientEnded(s.wire, id)
    && id !in r.peerReset && id !in r.peerRefused
  }

  lemma OnTheWireIsOpened(wire: seq<Frame>, book: map<nat, Entry>, id: nat)
    requires CarryOk(wire, book) && id != 0 && On(wire, id) != []
    ensures id in book
  {
    if id !in book {
      NothingYet(wire, book, id);
    }
  }

  lemma LeftByAnswer(s: System, r: Record, id: nat)
    requires PlaceOk(s.conn.streams, s.book, s.ended) && EndsOk(r, s.reader.phase.Exited?, s.ended) && id in s.book
    requires !s.reader.phase.Exited? && id !in r.peerReset && id !in r.peerRefused
    ensures id !in s.conn.streams <==> WasAnswered(s.ended, id)
    ensures WasAnswered(s.ended, id) ==> id in r.peerEnded
  {
    if id !in s.conn.streams {
      assert HasEnded(s.ended, id);
      var i :| 0 <= i < |s.ended| && s.ended[i].id == id;
      assert EndedRightly(r, false, s.ended[i]);
    }
    if WasAnswered(s.ended, id) {
      var i :| 0 <= i < |s.ended| && s.ended[i].id == id && s.ended[i].cause == Answered;
      assert EndedRightly(r, false, s.ended[i]);
    }
  }

  lemma OpenAndGone(s: System, r: Record, id: nat)
    requires CarryOk(s.wire, s.book) && PlaceOk(s.conn.streams, s.book, s.ended)
    requires EndsOk(r, s.reader.phase.Exited?, s.ended)
    ensures OpenByRfc(s, r, id) && id !in s.conn.streams <==> AnsweredEarly(s, r, id)
  {
    if id != 0 && On(s.wire, id) != [] && !s.reader.phase.Exited? && id !in r.peerReset && id !in r.peerRefused {
      OnTheWireIsOpened(s.wire, s.book, id);
      LeftByAnswer(s, r, id);
    }
  }

  ghost function OpenIds(s: System, r: Record): set<nat> {
    set id | id in s.book && OpenByRfc(s, r, id)
  }

  /** When no stream was answered early, the streams in the map are the open ones and more. */
  lemma OpenIdsWithin(s: System, r: Record)
    requires CarryOk(s.wire, s.book) && PlaceOk(s.conn.streams, s.book, s.ended)
    requires EndsOk(r, s.reader.phase.Exited?, s.ended) && SlotsOk(s.conn, s.callers, s.topLimit)
    ensures OpenIds(s, r) <= s.conn.streams.Keys <==> forall id :: !AnsweredEarly(s, r, id)
    ensures OpenIds(s, r) <= s.conn.streams.Keys ==> |OpenIds(s, r)| <= s.conn.active
  {
    forall id: nat ensures id in OpenIds(s, r) && id !in s.conn.streams <==> AnsweredEarly(s, r, id) {
      OpenAndGone(s, r, id);
      if AnsweredEarly(s, r, id) {
        OnTheWireIsOpened(s.wire, s.book, id);
      }
    }
    if OpenIds(s, r) <= s.conn.streams.Keys {
      Smaller(OpenIds(s, r), s.conn.streams.Keys);
    }
  }

  lemma {:induction false} Smaller(a: set<nat>, b: set<nat>)
    requires a <= b
    ensures |a| <= |b|
  {
    if a == {} {
    } else {
      var x :| x in a;
      Smaller(a - {x}, b - {x});
    }
  }
}
