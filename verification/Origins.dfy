/**
 Where the rest of a run's state comes from, told by its steps: the frames the reader writes, what the server granted
 and sent, the limits and windows it set, and the error the connection failed with.
 */
module Origins {
  import opened Bytes
  import opened Frames
  import opened Requests
  import opened Segments
  import opened ConnState
  import opened Protocol
  import opened Slots
  import opened Wire
  import opened Invariant
  import opened Runs
  import opened SentSteps

  // ----- the shape of every frame -----

  /** DATA of at most 16384 octets, flag 1 or none; HEADERS with END_HEADERS, flag 4, and flag 1 or not; and, on stream
      0, acknowledgements of SETTINGS and PING, flag 1, and WINDOW_UPDATE. */
  predicate Shape(f: Frame) {
    || (f.typ == 0 && (f.flags == 0 || f.flags == 1) && |f.payload| <= 16384 && f.id != 0)
    || (f.typ == 1 && (f.flags == 4 || f.flags == 5) && f.id != 0)
    || f == Frame(4, 1, 0, [])
    || (f.typ == 6 && f.flags == 1 && f.id == 0 && |f.payload| == 8)
    || (f.typ == 8 && f.flags == 0 && f.id == 0 && |f.payload| == 4)
  }

  /** HEADERS and DATA, of one of the two shapes they have. */
  predicate RequestShape(f: Frame) {
    f.typ <= 1 && Shape(f)
  }

  lemma {:induction false} DataShapes(id: nat, data: seq<Byte>, endStream: bool)
    requires id != 0
    ensures forall f :: f in DataFrames(id, data, endStream) ==> RequestShape(f)
    decreases |data|
  {
    if |data| <= MAX_FRAME {
    } else {
      DataShapes(id, data[MAX_FRAME..], endStream);
    }
  }

  lemma RequestShapes(block: seq<Byte>, body: seq<Byte>, id: nat)
    requires id != 0
    ensures forall f :: f in RequestFrames(block, body, id) ==> RequestShape(f)
  {
    DataShapes(id, body[0..], true);
  }

  lemma FirstShapes(id: nat, block: seq<Byte>, body: seq<Byte>, take: nat)
    requires id != 0 && take <= |body|
    ensures forall f :: f in FirstFrames(id, block, body, take) ==> RequestShape(f)
  {
    RequestShapes(block, body, id);
    DataShapes(id, body[..take], false);
  }

  lemma {:induction false} RepeatShapes(block: seq<Byte>, body: seq<Byte>, first: nat, n: nat)
    requires first % 2 == 1 && first + 2 * n <= MAX_STREAM_ID + 2
    ensures forall f :: f in RepeatFrames(block, body, first, n) ==> RequestShape(f)
  {
    if n == 0 {
    } else {
      RepeatShapes(block, body, first, n - 1);
      RequestShapes(block, body, first + 2 * (n - 1));
      RepeatUnroll(block, body, first, n);
    }
  }

  /** What a caller writes in a step. */
  function CallerWrites(s: System, st: Step): seq<Frame>
    requires Enabled(s, st)
  {
    match st
    case DoWrites(c, true) =>
      FirstFrames(s.callers[c].id, s.callers[c].req.block, s.callers[c].req.body, s.callers[c].take)
    case DoWritesData(c, true) =>
      MoreFrames(s.callers[c].id, s.callers[c].req.body, s.callers[c].sent, s.callers[c].take)
    case BatchWrites(c, true) =>
      RepeatFrames(s.callers[c].req.block, s.callers[c].req.body, s.callers[c].first, s.callers[c].n)
    case _ => []
  }

  lemma CallerWire(s: System, st: Step)
    requires Enabled(s, st) && CallerStep(st)
    ensures Next(s, st).wire == s.wire + CallerWrites(s, st)
  {
    assert s.wire + [] == s.wire;
  }

  lemma CallerShapes(s: System, st: Step)
    requires Enabled(s, st) && CallerStep(st) && ProgressOk(s.wire, s.book, s.callers) && 0 !in s.book
    ensures forall f :: f in CallerWrites(s, st) ==> RequestShape(f)
  {
    if !st.DoArrives? && !st.BatchArrives? {
      assert Progress(s.wire, s.book, st.c, s.callers[st.c]);
    }
    match st
    case DoWrites(c, true) =>
      FirstShapes(s.callers[c].id, s.callers[c].req.block, s.callers[c].req.body, s.callers[c].take);
    case DoWritesData(c, true) =>
      var w := s.callers[c];
      DataShapes(w.id, w.req.body[w.sent..w.sent + w.take], w.sent + w.take == |w.req.body|);
    case BatchWrites(c, true) =>
      RepeatShapes(s.callers[c].req.block, s.callers[c].req.body, s.callers[c].first, s.callers[c].n);
    case _ =>
  }

  lemma ReaderShapes(s: System, st: Step)
    requires Enabled(s, st) && !CallerStep(st)
    ensures forall f :: f in ReaderWrites(s, st) ==> Shape(f) && f.typ >= 4
  {
  }

  // ----- acknowledgements -----

  /** The frames of one type, in order. */
  function OfType(wire: seq<Frame>, typ: int): seq<Frame> {
    if wire == [] then [] else
    OfType(wire[..|wire| - 1], typ) + if wire[|wire| - 1].typ == typ then [wire[|wire| - 1]] else []
  }

  lemma {:induction false} OfTypeConcat(a: seq<Frame>, b: seq<Frame>, typ: int)
    ensures OfType(a + b, typ) == OfType(a, typ) + OfType(b, typ)
    decreases |b|
  {
    if b == [] {
      assert a + b == a;
    } else {
      var n := |b| - 1;
      OfTypeConcat(a, b[..n], typ);
      assert (a + b)[..|a + b| - 1] == a + b[..n];
      Assoc(OfType(a, typ), OfType(b[..n], typ), if b[n].typ == typ then [b[n]] else []);
    }
  }

  lemma {:induction false} NoneOfType(fs: seq<Frame>, typ: int)
    requires forall f :: f in fs ==> f.typ != typ
    ensures OfType(fs, typ) == []
  {
    if fs == [] {
    } else {
      NoneOfType(fs[..|fs| - 1], typ);
    }
  }

  /** The acknowledgements a run owes: one SETTINGS frame, type 4 with flag 1 and empty, for each it acknowledged; one
      PING frame, type 6 with flag 1, with the octets of each PING it answered. */
  function Acks(steps: seq<Step>): seq<Frame> {
    if steps == [] then [] else
    Acks(steps[..|steps| - 1]) + if steps[|steps| - 1] == AckSettings(true) then [Frame(4, 1, 0, [])] else []
  }

  function Pongs(steps: seq<Step>): seq<Frame> {
    if steps == [] then [] else
    Pongs(steps[..|steps| - 1])
    + match steps[|steps| - 1] case ReadPing(data, true) => [Frame(6, 1, 0, data)] case _ => []
  }

  lemma ReaderTypes(s: System, st: Step)
    requires Enabled(s, st) && !CallerStep(st)
    ensures OfType(ReaderWrites(s, st), 4) == if st == AckSettings(true) then [Frame(4, 1, 0, [])] else []
    ensures OfType(ReaderWrites(s, st), 6) == match st case ReadPing(data, true) => [Frame(6, 1, 0, data)] case _ => []
  {
    var fs := ReaderWrites(s, st);
    if fs != [] {
      assert fs[..0] == [];
    }
  }

  /** What the reader and the callers add to the wire in a step. */
  lemma StepWrites(s: System, st: Step) returns (fs: seq<Frame>)
    requires Inv(s) && Enabled(s, st)
    ensures Next(s, st).wire == s.wire + fs && (forall f :: f in fs ==> Shape(f))
    ensures OfType(fs, 4) == if st == AckSettings(true) then [Frame(4, 1, 0, [])] else []
    ensures OfType(fs, 6) == match st case ReadPing(data, true) => [Frame(6, 1, 0, data)] case _ => []
  {
    if CallerStep(st) {
      fs := CallerWrites(s, st);
      CallerWire(s, st);
      ZeroNeverOpened(s.conn, s.book);
      CallerShapes(s, st);
      NoneOfType(fs, 4);
      NoneOfType(fs, 6);
    } else {
      fs := ReaderWrites(s, st);
      ReaderWire(s, st);
      ReaderShapes(s, st);
      ReaderTypes(s, st);
    }
  }

  /** Over every run: every frame has its shape, and the SETTINGS and PING frames on the wire are exactly the
      acknowledgements owed, in order. */
  lemma {:induction false} FramesWritten(steps: seq<Step>)
    requires Run(steps).Some?
    ensures var w := Run(steps).value.wire;
            (forall f :: f in w ==> Shape(f)) && OfType(w, 4) == Acks(steps) && OfType(w, 6) == Pongs(steps)
    decreases |steps|
  {
    if steps == [] {
    } else {
      var before, st := steps[..|steps| - 1], steps[|steps| - 1];
      FramesWritten(before);
      Reachable(before);
      var s := Run(before).value;
      var fs := StepWrites(s, st);
      OfTypeConcat(s.wire, fs, 4);
      OfTypeConcat(s.wire, fs, 6);
    }
  }

  function Count(steps: seq<Step>, settings: bool): nat {
    if steps == [] then 0 else
    Count(steps[..|steps| - 1], settings)
    + if (if settings then steps[|steps| - 1].ReadSettings? else steps[|steps| - 1].AckSettings?) then 1 else 0
  }

  lemma OwesStep(s: System, st: Step)
    requires Enabled(s, st)
    ensures var t := Next(s, st);
            && (st.ReadSettings? ==> !s.reader.phase.OwesAck? && t.reader.phase.OwesAck?)
            && (st.AckSettings? ==> s.reader.phase.OwesAck? && !t.reader.phase.OwesAck?)
            && (!st.ReadSettings? && !st.AckSettings? ==> t.reader.phase.OwesAck? == s.reader.phase.OwesAck?)
  {
  }

  /** Each SETTINGS frame read is acknowledged once, before anything else is read. */
  lemma {:induction false} EverySettingsAcknowledged(steps: seq<Step>)
    requires Run(steps).Some?
    ensures Count(steps, true) == Count(steps, false) + if Run(steps).value.reader.phase.OwesAck? then 1 else 0
    decreases |steps|
  {
    if steps == [] {
    } else {
      EverySettingsAcknowledged(steps[..|steps| - 1]);
      OwesStep(Run(steps[..|steps| - 1]).value, steps[|steps| - 1]);
    }
  }

  // ----- grants, limits and windows -----

  /** The increments of a run's WINDOW_UPDATEs for the connection. */
  function Granted(steps: seq<Step>): nat {
    if steps == [] then 0 else
    Granted(steps[..|steps| - 1])
    + match steps[|steps| - 1] case ReadWindowUpdate(0, increment) => increment case _ => 0
  }

  /** And for a stream, while it is in the map. */
  function GrantedTo(steps: seq<Step>, id: nat): nat
    requires Run(steps).Some?
  {
    if steps == [] then 0 else
    var before, st := steps[..|steps| - 1], steps[|steps| - 1];
    GrantedTo(before, id)
    + if st.ReadWindowUpdate? && st.id == id && id in Run(before).value.conn.streams then st.increment else 0
  }

  /** The octets of the DATA frames of a run, padding included. */
  function DataRead(steps: seq<Step>): nat {
    if steps == [] then 0 else
    DataRead(steps[..|steps| - 1]) + match steps[|steps| - 1] case ReadData(_, length, _, _, _) => length case _ => 0
  }

  /** The initial window and the limit that SETTINGS frames leave, and the largest limit among them. */
  function InitialAfter(before: int, ss: seq<Setting>): int {
    if ss == [] then before
    else match ss[|ss| - 1] case InitialWindowSize(v) => v case _ => InitialAfter(before, ss[..|ss| - 1])
  }

  function LimitAfter(before: int, ss: seq<Setting>): int {
    if ss == [] then before
    else match ss[|ss| - 1]
      case MaxConcurrentStreams(v) => if v < 1048576 then v else 1048576
      case _ => LimitAfter(before, ss[..|ss| - 1])
  }

  function TopAfter(top: int, ss: seq<Setting>): int {
    if ss == [] then top else
    var before := TopAfter(top, ss[..|ss| - 1]);
    match ss[|ss| - 1]
    case MaxConcurrentStreams(v) => Max(before, if v < 1048576 then v else 1048576)
    case _ => before
  }

  function Initial(steps: seq<Step>): int {
    if steps == [] then 65535 else
    var before := Initial(steps[..|steps| - 1]);
    match steps[|steps| - 1] case ReadSettings(ss) => InitialAfter(before, ss) case _ => before
  }

  function Limit(steps: seq<Step>): int {
    if steps == [] then 100 else
    var before := Limit(steps[..|steps| - 1]);
    match steps[|steps| - 1] case ReadSettings(ss) => LimitAfter(before, ss) case _ => before
  }

  function Top(steps: seq<Step>): int {
    if steps == [] then 100 else
    var before := Top(steps[..|steps| - 1]);
    match steps[|steps| - 1] case ReadSettings(ss) => TopAfter(before, ss) case _ => before
  }

  lemma {:induction false} SettingsAre(c: Conn, ss: seq<Setting>, top: int)
    ensures ApplySettings(c, ss).peerInitialWindow == InitialAfter(c.peerInitialWindow, ss)
    ensures ApplySettings(c, ss).peerMaxStreams == LimitAfter(c.peerMaxStreams, ss)
    ensures TopLimit(top, ss) == TopAfter(top, ss)
    decreases |ss|
  {
    if ss == [] {
    } else {
      SettingsAre(c, ss[..|ss| - 1], top);
    }
  }

  /** What a step leaves of the server's grants and settings. */
  ghost predicate Untouched(s: System, t: System) {
    && t.granted == s.granted && t.received == s.received && t.topLimit == s.topLimit
    && t.conn.peerInitialWindow == s.conn.peerInitialWindow && t.conn.peerMaxStreams == s.conn.peerMaxStreams
  }

  lemma CallersSettle(s: System, st: Step)
    requires Enabled(s, st) && CallerStep(st)
    ensures Untouched(s, Next(s, st))
  {
  }

  lemma ReaderSettles(s: System, st: Step)
    requires Enabled(s, st) && !CallerStep(st) && !st.ReadSettings?
    ensures var t := Next(s, st);
            && t.granted == s.granted + (if st.ReadWindowUpdate? && st.id == 0 then st.increment else 0)
            && t.received == s.received + (if st.ReadData? then st.length else 0)
            && t.topLimit == s.topLimit && t.conn.peerInitialWindow == s.conn.peerInitialWindow
            && t.conn.peerMaxStreams == s.conn.peerMaxStreams
  {
  }

  /** Over every run: what the connection has been granted and sent, and the window and limit in force, are what the
      steps say. */
  lemma {:induction false} ServerSaid(steps: seq<Step>)
    requires Run(steps).Some?
    ensures var s := Run(steps).value;
            && s.granted == Granted(steps) && s.received == DataRead(steps) && s.topLimit == Top(steps)
            && s.conn.peerInitialWindow == Initial(steps) && s.conn.peerMaxStreams == Limit(steps)
    decreases |steps|
  {
    if steps == [] {
    } else {
      var before, st := steps[..|steps| - 1], steps[|steps| - 1];
      ServerSaid(before);
      var s := Run(before).value;
      if CallerStep(st) {
        CallersSettle(s, st);
      } else if st.ReadSettings? {
        SettingsAre(s.conn, st.ss, s.topLimit);
      } else {
        ReaderSettles(s, st);
      }
    }
  }

  // ----- a stream's grants -----

  lemma EntryStays(s: System, st: Step, id: nat)
    requires Counts(s) && Enabled(s, st) && id in s.book && !st.ReadWindowUpdate?
    ensures id in Next(s, st).book && Next(s, st).book[id].granted == s.book[id].granted
  {
    if st.BatchNumbers? {
      BatchEntryStays(s, st.c, id);
    } else {
      ZeroNeverOpened(s.conn, s.book);
      OtherEntryStays(s, st, id);
    }
  }

  lemma BatchEntryStays(s: System, c: nat, id: nat)
    requires Counts(s) && Enabled(s, BatchNumbers(c)) && id in s.book
    ensures id in BatchOpens(s, c).book && BatchOpens(s, c).book[id] == s.book[id]
  {
    var w := s.callers[c];
    BatchBound(s.conn, s.callers, s.topLimit, c);
    if Opens(s.conn, w.n) {
      OpensAbove(s.conn, s.book, w.n, |w.req.body|, w.keep);
      AddEntriesMap(s.book, s.conn.nextID, w.n, Entry(ByBatch, w.req, w.keep, |w.req.body|, 0));
    }
  }

  lemma OtherEntryStays(s: System, st: Step, id: nat)
    requires Enabled(s, st) && id in s.book && !st.ReadWindowUpdate? && !st.BatchNumbers? && s.conn.nextID !in s.book
    ensures id in Next(s, st).book && Next(s, st).book[id].granted == s.book[id].granted
  {
  }

  lemma NewEntry(s: System, st: Step, id: nat)
    requires Counts(s) && Enabled(s, st) && id !in s.book && id in Next(s, st).book
    ensures Next(s, st).book[id].granted == 0
  {
    if st.BatchNumbers? {
      NewBatchEntry(s, st.c, id);
    } else {
      NewDoEntry(s, st, id);
    }
  }

  lemma NewBatchEntry(s: System, c: nat, id: nat)
    requires Counts(s) && Enabled(s, BatchNumbers(c)) && id !in s.book && id in BatchOpens(s, c).book
    ensures BatchOpens(s, c).book[id].granted == 0
  {
    var w := s.callers[c];
    BatchBound(s.conn, s.callers, s.topLimit, c);
    if Opens(s.conn, w.n) {
      OpensAbove(s.conn, s.book, w.n, |w.req.body|, w.keep);
      AddEntriesMap(s.book, s.conn.nextID, w.n, Entry(ByBatch, w.req, w.keep, |w.req.body|, 0));
    }
  }

  lemma NewDoEntry(s: System, st: Step, id: nat)
    requires Enabled(s, st) && !st.BatchNumbers? && id !in s.book && id in Next(s, st).book
    ensures Next(s, st).book[id].granted == 0
  {
  }

  lemma {:induction false} NeverGranted(steps: seq<Step>, id: nat)
    requires Run(steps).Some? && id !in Run(steps).value.book
    ensures GrantedTo(steps, id) == 0
    decreases |steps|
  {
    if steps == [] {
    } else {
      var before, st := steps[..|steps| - 1], steps[|steps| - 1];
      Reachable(before);
      if id in Run(before).value.book {
        StillEntered(Run(before).value, st, id);
      }
      NeverGranted(before, id);
    }
  }

  lemma StillEntered(s: System, st: Step, id: nat)
    requires Counts(s) && Enabled(s, st) && id in s.book
    ensures id in Next(s, st).book
  {
    if !st.ReadWindowUpdate? {
      EntryStays(s, st, id);
    }
  }

  /** Over every run: a stream's record of its WINDOW_UPDATEs is that of the steps. */
  lemma {:induction false} StreamGranted(steps: seq<Step>, id: nat)
    requires Run(steps).Some? && id in Run(steps).value.book
    ensures Run(steps).value.book[id].granted == GrantedTo(steps, id)
    decreases |steps|
  {
    if steps == [] {
    } else {
      var before, st := steps[..|steps| - 1], steps[|steps| - 1];
      var s := Run(before).value;
      Reachable(before);
      if id !in s.book {
        NewEntry(s, st, id);
        NeverGranted(before, id);
      } else {
        StreamGranted(before, id);
        if !st.ReadWindowUpdate? {
          EntryStays(s, st, id);
        } else if st.id == 0 {
          ZeroNeverOpened(s.conn, s.book);
        }
      }
    }
  }

  // ----- the error a connection fails with -----

  /** Why the reader is giving up. */
  function ReaderError(steps: seq<Step>): Option<Error>
    requires Run(steps).Some?
  {
    if steps == [] then None else
    var before, st := steps[..|steps| - 1], steps[|steps| - 1];
    match st
    case ReadFails(e) => Some(e)
    case AckSettings(false) => Some(WriteFailed)
    case ReadPing(_, false) => Some(WriteFailed)
    case ReadData(_, length, _, _, false) =>
      if Run(before).value.reader.recvConsumed + length >= 536870912 then Some(WriteFailed) else ReaderError(before)
    case _ => ReaderError(before)
  }

  /** Identifiers have run out for n streams: the last would be over 2^31 - 1, or none was ever used and n is 0. */
  predicate RunsOut(nextID: nat, n: nat) {
    if n == 0 then nextID == 1 else nextID + 2 * (n - 1) > 2147483647
  }

  /** The first thing that went wrong: GOAWAY, the reader's exit, or a call that found no identifier left. */
  function FirstFailure(steps: seq<Step>): Option<Error>
    requires Run(steps).Some?
  {
    if steps == [] then None else
    var before, st := steps[..|steps| - 1], steps[|steps| - 1];
    if FirstFailure(before).Some? then FirstFailure(before) else
    var s := Run(before).value;
    match st
    case ReadGoAway(_, code, _) => Some(GoAway(code))
    case ReaderExits(_) => ReaderError(before)
    case DoNumbers(_) => if RunsOut(s.conn.nextID, 1) then Some(StreamsExhausted) else None
    case BatchNumbers(c) =>
      if c < |s.callers| && s.callers[c].BatchHeld? && RunsOut(s.conn.nextID, s.callers[c].n)
      then Some(StreamsExhausted) else None
    case _ => None
  }

  lemma GivesUp(s: System, st: Step)
    requires Enabled(s, st)
    ensures var t := Next(s, st);
            t.reader.phase.Failing? ==>
              match st
              case ReadFails(e) => t.reader.phase.err == e
              case AckSettings(false) => t.reader.phase.err == WriteFailed
              case ReadPing(_, false) => t.reader.phase.err == WriteFailed
              case ReadData(_, length, _, _, false) =>
                s.reader.recvConsumed + length >= 536870912 && t.reader.phase.err == WriteFailed
              case _ => t.reader.phase == s.reader.phase
  {
  }

  lemma {:induction false} GivesUpFor(steps: seq<Step>)
    requires Run(steps).Some?
    ensures var r := Run(steps).value.reader; r.phase.Failing? ==> ReaderError(steps) == Some(r.phase.err)
    decreases |steps|
  {
    if steps == [] {
    } else {
      GivesUpFor(steps[..|steps| - 1]);
      GivesUp(Run(steps[..|steps| - 1]).value, steps[|steps| - 1]);
    }
  }

  lemma BatchFails(s: System, c: nat)
    requires Counts(s) && Enabled(s, BatchNumbers(c)) && s.conn.err.None?
    ensures BatchOpens(s, c).conn.err
            == if RunsOut(s.conn.nextID, s.callers[c].n) then Some(StreamsExhausted) else None
  {
    BatchBound(s.conn, s.callers, s.topLimit, c);
    if s.callers[c].n == 0 {
      EmptyBatchWraps(s.conn);
    } else {
      BatchFitsExactly(s.conn, s.callers[c].n);
    }
  }

  lemma OthersFailNothing(s: System, st: Step)
    requires Enabled(s, st) && s.conn.err.None? && !st.ReadGoAway? && !st.ReaderExits? && !st.BatchNumbers?
    requires !st.ReadSettings?
    ensures Next(s, st).conn.err ==
            if st.DoNumbers? && RunsOut(s.conn.nextID, 1) then Some(StreamsExhausted) else None
  {
  }

  lemma {:induction false} SettingsFailNothing(c: Conn, ss: seq<Setting>)
    ensures ApplySettings(c, ss).err == c.err
    decreases |ss|
  {
    if ss == [] {
    } else {
      SettingsFailNothing(c, ss[..|ss| - 1]);
    }
  }

  /** Over every run: the connection's error is the first thing that went wrong, and there is none before that. */
  lemma {:induction false} FailedBecause(steps: seq<Step>)
    requires Run(steps).Some?
    ensures Run(steps).value.conn.err == FirstFailure(steps)
    decreases |steps|
  {
    if steps == [] {
    } else {
      var before, st := steps[..|steps| - 1], steps[|steps| - 1];
      FailedBecause(before);
      Reachable(before);
      var s := Run(before).value;
      if s.conn.err.Some? {
        FailureSticks(s, st);
      } else if st.BatchNumbers? {
        BatchFails(s, st.c);
      } else if st.ReadSettings? {
        SettingsFailNothing(s.conn, st.ss);
      } else if st.ReaderExits? {
        GivesUpFor(before);
      } else if !st.ReadGoAway? {
        OthersFailNothing(s, st);
      }
    }
  }
}
