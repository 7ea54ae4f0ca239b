/**
 The frames the server sends on each stream, taken from the steps of a run themselves, and that what a stream hears is
 those frames and nothing else.
 */
module Spoken {
  import opened Bytes
  import opened Frames
  import opened ConnState
  import opened Protocol
  import opened Slots
  import opened Results
  import opened Demux
  import opened Invariant
  import opened Runs
  import opened History
  import opened Peer

  /** The DATA frame read last. */
  function LastData(steps: seq<Step>): Option<Event> {
    if steps == [] then None else
    match steps[|steps| - 1]
    case ReadData(id, _, data, _, _) => Some(Event.Data(id, data))
    case _ => LastData(steps[..|steps| - 1])
  }

  /** The :status fields read since the last HEADERS frame, over its CONTINUATIONs. */
  function Fields(steps: seq<Step>): seq<int> {
    if steps == [] then [] else
    match steps[|steps| - 1]
    case ReadHeaders(_, _) => []
    case ReadFragment(statuses) => Fields(steps[..|steps| - 1]) + statuses
    case _ => Fields(steps[..|steps| - 1])
  }

  /** What the step after a run brings stream id: a DATA frame handed on, or a header block complete. */
  function Brought(steps: seq<Step>, st: Step, id: nat): seq<Event>
    requires Run(steps).Some?
  {
    if st.HandleData? && LastData(steps).Some? && LastData(steps).value.id == id then [LastData(steps).value]
    else if st.EndBlock? && Log(steps).block == Some(id) then [Block(id, Fields(steps))]
    else []
  }

  /** The frames of stream id in a run, from its opening to its end. */
  function FramesOf(steps: seq<Step>, id: nat): seq<Event>
    requires Run(steps).Some?
  {
    if steps == [] then [] else
    var before, st := steps[..|steps| - 1], steps[|steps| - 1];
    var s := Run(before).value;
    if id !in s.book then []
    else if id !in s.conn.streams then FramesOf(before, id)
    else FramesOf(before, id) + Brought(before, st, id)
  }

  // ----- the reader's state is that of the steps -----

  ghost predicate Linked(reader: Reader, steps: seq<Step>) {
    && (reader.phase.GotData? ==> LastData(steps) == Some(Event.Data(reader.phase.id, reader.phase.data)))
    && (reader.phase.InBlock? ==> reader.fields == Fields(steps))
  }

  lemma LastDataMore(steps: seq<Step>, st: Step)
    ensures LastData(steps + [st]) == if st.ReadData? then Some(Event.Data(st.id, st.data)) else LastData(steps)
  {
    assert (steps + [st])[..|steps|] == steps;
  }

  lemma FieldsMore(steps: seq<Step>, st: Step)
    ensures Fields(steps + [st]) ==
            if st.ReadHeaders? then [] else if st.ReadFragment? then Fields(steps) + st.statuses else Fields(steps)
  {
    assert (steps + [st])[..|steps|] == steps;
  }

  lemma ReaderMoves(s: System, st: Step)
    requires Enabled(s, st) && !CallerStep(st)
    ensures var r := Next(s, st).reader;
            && (r.phase.GotData? ==>
                  if st.ReadData? then r.phase.id == st.id && r.phase.data == st.data else r.phase == s.reader.phase)
            && (r.phase.InBlock? ==>
                  if st.ReadHeaders? then r.fields == []
                  else s.reader.phase.InBlock?
                       && r.fields == s.reader.fields + if st.ReadFragment? then st.statuses else [])
  {
  }

  lemma CallersLeaveReader(s: System, st: Step)
    requires Enabled(s, st) && CallerStep(st)
    ensures Next(s, st).reader == s.reader
  {
  }

  lemma LinkedNext(s: System, steps: seq<Step>, st: Step)
    requires Linked(s.reader, steps) && Enabled(s, st)
    ensures Linked(Next(s, st).reader, steps + [st])
  {
    LastDataMore(steps, st);
    FieldsMore(steps, st);
    if CallerStep(st) {
      CallersLeaveReader(s, st);
    } else {
      ReaderMoves(s, st);
    }
  }

  lemma {:induction false} RunLinked(steps: seq<Step>)
    requires Run(steps).Some?
    ensures Linked(Run(steps).value.reader, steps)
    decreases |steps|
  {
    if steps == [] {
    } else {
      var before, st := steps[..|steps| - 1], steps[|steps| - 1];
      RunLinked(before);
      LinkedNext(Run(before).value, before, st);
      assert before + [st] == steps;
    }
  }

  // ----- what a step adds to the trace -----

  lemma OpeningsElsewhere(s: System, c: nat, id: nat)
    requires Counts(s) && Enabled(s, BatchNumbers(c)) && id in s.conn.streams
    ensures Heard(BatchOpens(s, c).trace, id) == Heard(s.trace, id)
  {
    var w := s.callers[c];
    BatchBound(s.conn, s.callers, s.topLimit, c);
    if Opens(s.conn, w.n) {
      OpensAbove(s.conn, s.book, w.n, |w.req.body|, w.keep);
      assert OpenedId(id, s.conn.nextID);
      HeardOpenings(s.trace, s.conn.nextID, w.n, id);
    }
  }

  lemma NumbersElsewhere(s: System, c: nat, id: nat)
    requires Counts(s) && Enabled(s, DoNumbers(c)) && id in s.conn.streams
    ensures Heard(Numbers(s, c).trace, id) == Heard(s.trace, id)
  {
    ZeroNeverOpened(s.conn, s.book);
    HeardSnoc(s.trace, Opened(s.conn.nextID), id);
  }

  predicate Quiet(st: Step) {
    !st.DoNumbers? && !st.BatchNumbers? && !st.HandleData? && !st.EndBlock?
  }

  lemma QuietTrace(s: System, st: Step)
    requires Enabled(s, st) && Quiet(st)
    ensures Next(s, st).trace == s.trace
  {
  }

  lemma DataTrace(s: System, steps: seq<Step>, id: nat)
    requires Run(steps) == Some(s) && Linked(s.reader, steps) && Enabled(s, HandleData)
    ensures Heard(HandlesData(s).trace, id) == Heard(s.trace, id) + Brought(steps, HandleData, id)
  {
    HeardSnoc(s.trace, Event.Data(s.reader.phase.id, s.reader.phase.data), id);
    assert HandlesData(s).trace == s.trace + [Event.Data(s.reader.phase.id, s.reader.phase.data)];
  }

  lemma BlockTrace(s: System, steps: seq<Step>, id: nat)
    requires Run(steps) == Some(s) && Linked(s.reader, steps) && Enabled(s, EndBlock) && id in s.conn.streams
    requires BlockOk(Log(steps), s.reader, s.conn) && ReaderOk(s.conn, s.reader)
    ensures Heard(EndsBlock(s).trace, id) == Heard(s.trace, id) + Brought(steps, EndBlock, id)
  {
    var r := s.reader;
    if r.hdrStream.Some? {
      assert EndsBlock(s).trace == s.trace + [Block(r.hdrStream.value, r.fields)];
      HeardSnoc(s.trace, Block(r.hdrStream.value, r.fields), id);
    }
  }

  /** A stream in the map hears what the step brings it. */
  lemma HearsBrought(steps: seq<Step>, s: System, st: Step, id: nat)
    requires Run(steps) == Some(s) && Inv(s) && PeerOk(s, Log(steps)) && Linked(s.reader, steps)
    requires Enabled(s, st) && id in s.conn.streams
    ensures Heard(Next(s, st).trace, id) == Heard(s.trace, id) + Brought(steps, st, id)
  {
    if st.HandleData? {
      DataTrace(s, steps, id);
    } else if st.EndBlock? {
      BlockTrace(s, steps, id);
    } else {
      assert Brought(steps, st, id) == [];
      HearsNothing(s, st, id);
    }
  }

  lemma HearsNothing(s: System, st: Step, id: nat)
    requires Counts(s) && Enabled(s, st) && !st.HandleData? && !st.EndBlock? && id in s.conn.streams
    ensures Heard(Next(s, st).trace, id) == Heard(s.trace, id)
  {
    if st.DoNumbers? {
      NumbersElsewhere(s, st.c, id);
    } else if st.BatchNumbers? {
      OpeningsElsewhere(s, st.c, id);
    } else {
      QuietTrace(s, st);
    }
  }

  // ----- streams that open and streams that end -----

  lemma NewInBatch(conn: Conn, book: map<nat, Entry>, n: nat, bodyLen: nat, keep: bool, id: nat)
    requires IdsOk(conn, book) && n <= STREAM_CAP && Opens(conn, n) && id !in book
    requires id in OpenBatch(conn, n, bodyLen, keep).streams
    ensures InBatch(id, conn.nextID, n) && conn.nextID + 2 * n <= MAX_STREAM_ID + 2
  {
    OpensAbove(conn, book, n, bodyLen, keep);
    AddStreamsMap(conn.streams, conn.nextID, n, Stream(ByBatch, keep, conn.peerInitialWindow - bodyLen, FRESH));
  }

  lemma NewBatchStream(s: System, c: nat, id: nat)
    requires Counts(s) && Enabled(s, BatchNumbers(c)) && id !in s.book && id in BatchOpens(s, c).conn.streams
    ensures Heard(BatchOpens(s, c).trace, id) == []
  {
    var w := s.callers[c];
    BatchBound(s.conn, s.callers, s.topLimit, c);
    if Opens(s.conn, w.n) {
      NewInBatch(s.conn, s.book, w.n, |w.req.body|, w.keep, id);
      HeardOpenings(s.trace, s.conn.nextID, w.n, id);
    }
  }

  lemma NewDoStream(s: System, c: nat, id: nat)
    requires Counts(s) && Enabled(s, DoNumbers(c)) && id !in s.book && id in Numbers(s, c).conn.streams
    ensures Heard(Numbers(s, c).trace, id) == []
  {
    HeardSnoc(s.trace, Opened(s.conn.nextID), id);
  }

  lemma OthersOpenNothing(s: System, st: Step)
    requires Enabled(s, st) && !st.DoNumbers? && !st.BatchNumbers? && !st.ReadSettings?
    ensures forall id :: id in Next(s, st).conn.streams ==> id in s.conn.streams
  {
  }

  lemma SettingsOpenNothing(s: System, ss: seq<Setting>)
    requires SlotsOk(s.conn, s.callers, s.topLimit)
    ensures forall id :: id in TakesSettings(s, ss).conn.streams ==> id in s.conn.streams
  {
    SettingsFrame(s.conn, ss, s.topLimit);
    assert forall id :: id in TakesSettings(s, ss).conn.streams ==> id in ApplySettings(s.conn, ss).streams.Keys;
  }

  /** A stream just opened has heard nothing, whatever was sent on its identifier before. */
  lemma NewHearsNothing(s: System, st: Step, id: nat)
    requires Counts(s) && Enabled(s, st) && id !in s.book && id in Next(s, st).conn.streams
    ensures Heard(Next(s, st).trace, id) == []
  {
    if st.DoNumbers? {
      NewDoStream(s, st.c, id);
    } else if st.BatchNumbers? {
      NewBatchStream(s, st.c, id);
    } else if st.ReadSettings? {
      SettingsOpenNothing(s, st.ss);
    } else {
      OthersOpenNothing(s, st);
    }
  }

  /** A stream that ends was in the map, and everything it heard is in the trace. */
  ghost predicate EndsHere(s: System, t: System) {
    && |s.ended| <= |t.ended| && t.ended[..|s.ended|] == s.ended
    && |s.trace| <= |t.trace| && t.trace[..|s.trace|] == s.trace
    && forall i :: |s.ended| <= i < |t.ended| ==> t.ended[i].id in s.conn.streams && t.ended[i].at == |t.trace|
  }

  lemma CallersEndNone(s: System, st: Step)
    requires Enabled(s, st) && CallerStep(st)
    ensures EndsHere(s, Next(s, st))
  {
  }

  lemma ReaderEndsHere(s: System, st: Step)
    requires Enabled(s, st) && !CallerStep(st) && !st.ReadGoAway? && !st.ReaderExits?
    ensures EndsHere(s, Next(s, st))
  {
  }

  lemma GoAwayEndsHere(s: System, last: nat, code: nat, order: seq<nat>)
    requires Enabled(s, ReadGoAway(last, code, order))
    ensures EndsHere(s, GoesAway(s, last, code, order))
  {
    assert forall k :: 0 <= k < |order| ==> order[k] in Above(s.conn.streams, last);
  }

  lemma ExitEndsHere(s: System, order: seq<nat>)
    requires Enabled(s, ReaderExits(order))
    ensures EndsHere(s, Exits(s, order))
  {
    assert forall k :: 0 <= k < |order| ==> order[k] in s.conn.streams.Keys;
  }

  lemma StepEndsHere(s: System, st: Step)
    requires Enabled(s, st)
    ensures EndsHere(s, Next(s, st))
  {
    if CallerStep(st) {
      CallersEndNone(s, st);
    } else if st.ReadGoAway? {
      GoAwayEndsHere(s, st.last, st.code, st.order);
    } else if st.ReaderExits? {
      ExitEndsHere(s, st.order);
    } else {
      ReaderEndsHere(s, st);
    }
  }

  // ----- over every run -----

  /** A stream in the map has heard exactly the frames of it in the run. */
  lemma {:induction false} LiveFrames(steps: seq<Step>, id: nat)
    requires Run(steps).Some? && id in Run(steps).value.conn.streams
    ensures Heard(Run(steps).value.trace, id) == FramesOf(steps, id)
    decreases |steps|
  {
    if steps == [] {
    } else {
      var before, st := steps[..|steps| - 1], steps[|steps| - 1];
      Reachable(before);
      if id !in Run(before).value.book {
        NewHearsNothing(Run(before).value, st, id);
      } else {
        StillOpen(Run(before).value, st, id);
        LiveFrames(before, id);
        RunPeer(before);
        RunLinked(before);
        HearsBrought(before, Run(before).value, st, id);
      }
    }
  }

  lemma StillOpen(s: System, st: Step, id: nat)
    requires Counts(s) && Enabled(s, st) && id in s.book && id in Next(s, st).conn.streams
    ensures id in s.conn.streams
  {
    if CallerStep(st) {
      CallerOpens(s, st);
    } else if st.ReadSettings? {
      SettingsOpenNothing(s, st.ss);
    } else {
      OthersOpenNothing(s, st);
    }
  }

  /** A stream that ended had heard exactly the frames of it in the run, and hears no more. */
  lemma {:induction false} EndedFrames(steps: seq<Step>, i: nat)
    requires Run(steps).Some? && i < |Run(steps).value.ended|
    ensures var s := Run(steps).value;
            var e := s.ended[i];
            e.at <= |s.trace| && Heard(s.trace[..e.at], e.id) == FramesOf(steps, e.id)
    decreases |steps|
  {
    if steps == [] {
    } else {
      var before, st := steps[..|steps| - 1], steps[|steps| - 1];
      var s, t := Run(before).value, Run(steps).value;
      Reachable(before);
      StepEndsHere(s, st);
      if i < |s.ended| {
        EndedFrames(before, i);
        assert t.ended[i] == t.ended[..|s.ended|][i];
        assert t.trace[..t.ended[i].at] == t.trace[..|s.trace|][..t.ended[i].at];
      } else {
        var id := t.ended[i].id;
        LiveFrames(before, id);
        RunPeer(before);
        RunLinked(before);
        HearsBrought(before, s, st, id);
        assert t.trace[..|t.trace|] == t.trace;
      }
    }
  }
}
