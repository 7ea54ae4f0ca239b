/** Runs a connection can take, from the first request on: what the exceptions in Gaps are shown by. */
module Examples {
  import opened Bytes
  import opened Frames
  import opened Segments
  import opened ConnState
  import opened Protocol
  import opened History

  const IDLE := Reader(Idle, None, 0, false, [], 0)

  /** Nobody but one Do, at x, on a connection with the given state. */
  function Alone(conn: Conn, x: Caller, wmu: Option<nat>, wire: seq<Frame>, book: map<nat, Entry>,
                 trace: seq<Event>): System {
    System(conn, [x], wmu, IDLE, wire, [], 0, book, trace, 0, 0, 0, 100)
  }

  /** What the first window lets through. */
  function Part(req: Req): (take: nat)
    ensures take <= |req.body| && take <= DEFAULT_WINDOW
  {
    Min(|req.body|, DEFAULT_WINDOW)
  }

  function OneSlot(): Conn {
    INITIAL.(active := 1)
  }

  function OneStream(req: Req, keep: bool): Conn {
    Conn(map[1 := Stream(ByDo(0), keep, DEFAULT_WINDOW - Part(req), FRESH)], 1, 3, DEFAULT_WINDOW - Part(req),
         DEFAULT_WINDOW, 100, None, 0)
  }

  function OneEntry(req: Req, keep: bool): map<nat, Entry> {
    map[1 := Entry(ByDo(0), req, keep, Part(req), 0)]
  }

  /** A Do has written what it may of its request. */
  function Begun(req: Req, keep: bool): System {
    Alone(OneStream(req, keep),
          if Part(req) == |req.body| then AwaitDone(1) else Sending(1, req, Part(req), None),
          None, FirstFrames(1, req.block, req.body, Part(req)), OneEntry(req, keep), [Opened(1)])
  }

  lemma Arrives(req: Req, keep: bool)
    ensures Enabled(START, DoArrives(req, keep))
    ensures Next(START, DoArrives(req, keep)) == Alone(INITIAL, SlotWait(req, keep, None), None, [], map[], [])
  {
  }

  lemma GetsSlot(req: Req, keep: bool, s: System)
    requires s == Alone(INITIAL, SlotWait(req, keep, None), None, [], map[], [])
    ensures Enabled(s, DoChecksSlot(0))
    ensures Next(s, DoChecksSlot(0)) == Alone(OneSlot(), SlotHeld(req, keep), None, [], map[], [])
  {
    assert Next(s, DoChecksSlot(0)).callers == [SlotHeld(req, keep)];
  }

  lemma IsNumbered(req: Req, keep: bool, s: System)
    requires s == Alone(OneSlot(), SlotHeld(req, keep), None, [], map[], [])
    ensures Enabled(s, DoNumbers(0))
    ensures Next(s, DoNumbers(0))
         == Alone(OneStream(req, keep), Numbered(1, req, Part(req)), Some(0), [], OneEntry(req, keep), [Opened(1)])
  {
    var t := Next(s, DoNumbers(0));
    assert t.callers == [Numbered(1, req, Part(req))];
    assert t.conn.streams == OneStream(req, keep).streams;
    assert t.book == OneEntry(req, keep);
  }

  lemma IsWritten(req: Req, keep: bool, s: System)
    requires s
             == Alone(OneStream(req, keep), Numbered(1, req, Part(req)), Some(0), [], OneEntry(req, keep), [Opened(1)])
    ensures Enabled(s, DoWrites(0, true)) && Next(s, DoWrites(0, true)) == Begun(req, keep)
  {
    var fs := FirstFrames(1, req.block, req.body, Part(req));
    assert [] + fs == fs;
    assert Next(s, DoWrites(0, true)).callers == Begun(req, keep).callers;
  }

  lemma NothingToNote(s: System, st: Step)
    requires Enabled(s, st) && (st.DoArrives? || st.DoChecksSlot? || st.DoNumbers? || (st.DoWrites? && st.ok))
    ensures Note(NOTHING, s, st) == NOTHING
  {
  }

  /** Every request can get this far. */
  lemma BegunRun(req: Req, keep: bool) returns (steps: seq<Step>)
    ensures Reaches(steps, Begun(req, keep), NOTHING)
  {
    var s1 := Alone(INITIAL, SlotWait(req, keep, None), None, [], map[], []);
    var s2 := Alone(OneSlot(), SlotHeld(req, keep), None, [], map[], []);
    var s3 := Alone(OneStream(req, keep), Numbered(1, req, Part(req)), Some(0), [], OneEntry(req, keep), [Opened(1)]);
    steps := FirstStep(req, keep, s1);
    steps := OneStep(steps, s1, DoChecksSlot(0), s2) by { GetsSlot(req, keep, s1); }
    steps := OneStep(steps, s2, DoNumbers(0), s3) by { IsNumbered(req, keep, s2); }
    steps := OneStep(steps, s3, DoWrites(0, true), Begun(req, keep)) by { IsWritten(req, keep, s3); }
  }

  lemma FirstStep(req: Req, keep: bool, s1: System) returns (steps: seq<Step>)
    requires s1 == Alone(INITIAL, SlotWait(req, keep, None), None, [], map[], [])
    ensures Reaches(steps, s1, NOTHING)
  {
    ReachesStart();
    Arrives(req, keep);
    steps := OneStep([], START, DoArrives(req, keep), s1);
  }

  lemma OneStep(steps: seq<Step>, s: System, st: Step, t: System) returns (more: seq<Step>)
    requires Reaches(steps, s, NOTHING) && Enabled(s, st) && Next(s, st) == t
    requires st.DoArrives? || st.DoChecksSlot? || st.DoNumbers? || (st.DoWrites? && st.ok)
    ensures Reaches(more, t, NOTHING)
  {
    NothingToNote(s, st);
    ReachesNext(steps, s, NOTHING, st, t);
    more := steps + [st];
  }

  // ----- the server answers with DATA alone -----

  function DataRead(req: Req, keep: bool, data: seq<Byte>): System {
    Begun(req, keep).(received := |data|, reader := IDLE.(recvConsumed := |data|, phase := GotData(1, data, true)))
  }

  /** The stream has ended with response resp, and its slot is free. */
  ghost predicate AnsweredWith(req: Req, t: System, r: Record, resp: Response) {
    && t.wire == FirstFrames(1, req.block, req.body, Part(req)) && t.book.Keys == {1}
    && t.conn.streams == map[] && t.conn.active == 0 && t.conn.err.None? && t.reader.phase.Idle?
    && |t.ended| == 1 && t.ended[0].id == 1 && t.ended[0].cause == Answered && t.ended[0].result == resp
    && r == NOTHING.(block := r.block, peerEnded := {1})
  }

  lemma ReadsData(req: Req, keep: bool, data: seq<Byte>, s: System)
    requires s == Begun(req, keep) && |data| < MAX_LENGTH
    ensures var st := ReadData(1, |data|, data, true, true);
            Enabled(s, st) && Next(s, st) == DataRead(req, keep, data) && Note(NOTHING, s, st) == NOTHING
  {
  }

  lemma HandlesIt(req: Req, keep: bool, data: seq<Byte>, s: System)
    requires s == DataRead(req, keep, data)
    ensures Enabled(s, HandleData)
    ensures AnsweredWith(req, Next(s, HandleData), Note(NOTHING, s, HandleData), OnData(keep, FRESH, data))
  {
    assert Next(s, HandleData).conn.streams == map[];
  }

  /** DATA with END_STREAM and no header block, for every request and every payload. */
  lemma DataAloneRun(req: Req, keep: bool, data: seq<Byte>) returns (steps: seq<Step>, t: System, r: Record)
    requires |data| < MAX_LENGTH
    ensures Reaches(steps, t, r) && AnsweredWith(req, t, r, OnData(keep, FRESH, data))
  {
    steps := BegunRun(req, keep);
    var s1, s2 := Begun(req, keep), DataRead(req, keep, data);
    var st := ReadData(1, |data|, data, true, true);
    ReadsData(req, keep, data, s1);
    ReachesNext(steps, s1, NOTHING, st, s2);
    HandlesIt(req, keep, data, s2);
    t, r := Next(s2, HandleData), Note(NOTHING, s2, HandleData);
    ReachesNext(steps + [st], s2, NOTHING, HandleData, t);
    steps := steps + [st] + [HandleData];
  }

  // ----- the server answers with one header block -----

  const NOTED := NOTHING.(block := Some(1))

  function MidBlock(req: Req, keep: bool, statuses: seq<int>): System {
    Begun(req, keep).(reader := Reader(Phase.InBlock, Some(1), LastStatus(0, statuses), true, statuses, 0))
  }

  lemma StartsIt(req: Req, keep: bool, s: System)
    requires s == Begun(req, keep)
    ensures var st := ReadHeaders(1, true);
            Enabled(s, st) && Next(s, st) == MidBlock(req, keep, []) && Note(NOTHING, s, st) == NOTED
  {
  }

  lemma ReadsFragment(req: Req, keep: bool, status: int, s: System)
    requires s == MidBlock(req, keep, [])
    ensures var st := ReadFragment([status]);
            Enabled(s, st) && Next(s, st) == MidBlock(req, keep, [status]) && Note(NOTED, s, st) == NOTED
  {
    assert [] + [status] == [status];
  }

  lemma EndsIt(req: Req, keep: bool, status: int, s: System)
    requires s == MidBlock(req, keep, [status])
    ensures Enabled(s, EndBlock)
    ensures AnsweredWith(req, Next(s, EndBlock), Note(NOTED, s, EndBlock), OnBlock(FRESH, status))
  {
    assert Next(s, EndBlock).conn.streams == map[];
  }

  /** HEADERS with END_STREAM and the given status, for every request. */
  lemma BlockAloneRun(req: Req, keep: bool, status: int) returns (steps: seq<Step>, t: System, r: Record)
    ensures Reaches(steps, t, r) && AnsweredWith(req, t, r, OnBlock(FRESH, status))
  {
    steps := BegunRun(req, keep);
    var s1, s2, s3 := Begun(req, keep), MidBlock(req, keep, []), MidBlock(req, keep, [status]);
    StartsIt(req, keep, s1);
    ReachesNext(steps, s1, NOTHING, ReadHeaders(1, true), s2);
    steps := steps + [ReadHeaders(1, true)];
    ReadsFragment(req, keep, status, s2);
    ReachesNext(steps, s2, NOTED, ReadFragment([status]), s3);
    steps := steps + [ReadFragment([status])];
    EndsIt(req, keep, status, s3);
    t, r := Next(s3, EndBlock), Note(NOTED, s3, EndBlock);
    ReachesNext(steps, s3, NOTED, EndBlock, t);
    steps := steps + [EndBlock];
  }

  // ----- the server goes away, sparing the stream -----

  function Spared(req: Req, keep: bool, code: nat): System {
    Begun(req, keep).(conn := OneStream(req, keep).(err := Some(GoAway(code)), wakes := 1))
  }

  function Stranded(req: Req, keep: bool, code: nat): System {
    Spared(req, keep, code).(callers := [AwaitDone(1)])
  }

  lemma IsSpared(req: Req, keep: bool, last: nat, code: nat, s: System)
    requires s == Begun(req, keep) && last >= 1
    ensures var st := ReadGoAway(last, code, []);
            Enabled(s, st) && Next(s, st) == Spared(req, keep, code) && Note(NOTHING, s, st) == NOTHING
  {
    assert Above(s.conn.streams, last) == {};
    var t := Next(s, ReadGoAway(last, code, []));
    assert t.ended == [] && t.conn.streams == s.conn.streams;
  }

  lemma StopsSending(req: Req, keep: bool, code: nat, s: System)
    requires s == Spared(req, keep, code) && |req.body| > DEFAULT_WINDOW
    ensures var st := DoChecksWindow(0);
            Enabled(s, st) && Next(s, st) == Stranded(req, keep, code) && Note(NOTHING, s, st) == NOTHING
  {
    assert Next(s, DoChecksWindow(0)).callers == [AwaitDone(1)];
  }

  lemma StrandedRun(req: Req, keep: bool, last: nat, code: nat) returns (steps: seq<Step>)
    requires |req.body| > DEFAULT_WINDOW && last >= 1
    ensures Reaches(steps, Stranded(req, keep, code), NOTHING)
  {
    steps := BegunRun(req, keep);
    IsSpared(req, keep, last, code, Begun(req, keep));
    ReachesNext(steps, Begun(req, keep), NOTHING, ReadGoAway(last, code, []), Spared(req, keep, code));
    steps := steps + [ReadGoAway(last, code, [])];
    StopsSending(req, keep, code, Spared(req, keep, code));
    ReachesNext(steps, Spared(req, keep, code), NOTHING, DoChecksWindow(0), Stranded(req, keep, code));
    steps := steps + [DoChecksWindow(0)];
  }
}
