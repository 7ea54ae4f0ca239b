/** What holds over every run of the connection, whatever the callers, the server and the scheduler do. */
module Runs {
  import opened Bytes
  import opened Frames
  import opened ConnState
  import opened Protocol
  import opened Slots
  import opened Invariant

  predicate CallerStep(st: Step) {
    || st.DoArrives? || st.DoChecksSlot? || st.DoNumbers? || st.DoWrites? || st.DoChecksWindow? || st.DoWritesData?
    || st.DoReceives? || st.BatchArrives? || st.BatchNumbers? || st.BatchWrites?
  }

  lemma CallersKeep(s: System, st: Step)
    requires Inv(s) && Enabled(s, st) && CallerStep(st)
    ensures Inv(Next(s, st))
  {
    match st
    case DoArrives(req, keep) => JoinKeeps(s, SlotWait(req, keep, None));
    case DoChecksSlot(c) => ChecksSlotKeeps(s, c);
    case DoNumbers(c) => NumbersKeeps(s, c);
    case DoWrites(c, ok) => WritesKeeps(s, c, ok);
    case DoChecksWindow(c) => ChecksWindowKeeps(s, c);
    case DoWritesData(c, ok) => WritesDataKeeps(s, c, ok);
    case DoReceives(c, i) => ReceivesKeeps(s, c, i);
    case BatchArrives(req, n, keep) => BatchStartsKeeps(s, req, n, keep);
    case BatchNumbers(c) => BatchOpensKeeps(s, c);
    case BatchWrites(c, ok) => BatchWrittenKeeps(s, c, ok);
  }

  predicate ReadsResponse(st: Step) {
    st.ReadData? || st.HandleData? || st.ReadHeaders? || st.ReadFragment? || st.EndBlock? || st.ReadReset?
  }

  lemma ResponseKeeps(s: System, st: Step)
    requires Inv(s) && Enabled(s, st) && ReadsResponse(st)
    ensures Inv(Next(s, st))
  {
    match st
    case ReadData(id, length, data, ends, ok) => AccountsKeeps(s, id, length, data, ends, ok);
    case HandleData => HandlesDataKeeps(s);
    case ReadHeaders(id, endStream) => PhaseKeeps(s, StartsBlock(s, id, endStream).reader);
    case ReadFragment(statuses) => FragmentKeeps(s, statuses);
    case EndBlock => EndsBlockKeeps(s);
    case ReadReset(id, code) => EndsKeeps(s, id, Reset(code));
  }

  lemma ReaderKeeps(s: System, st: Step)
    requires Inv(s) && Enabled(s, st) && !CallerStep(st) && !ReadsResponse(st)
    ensures Inv(Next(s, st))
  {
    match st
    case ReadSettings(ss) => SettingsKeeps(s, ss);
    case AckSettings(ok) =>
      if ok {
        ControlKeeps(s, Frame(SETTINGS, 1, 0, []));
      } else {
        PhaseKeeps(s, s.reader.(phase := Failing(WriteFailed)));
      }
    case ReadWindowUpdate(id, increment) => WindowUpdateKeeps(s, id, increment);
    case ReadPing(data, ok) =>
      if ok {
        ControlKeeps(s, Frame(PING, 1, 0, data));
      } else {
        PhaseKeeps(s, s.reader.(phase := Failing(WriteFailed)));
      }
    case ReadGoAway(last, code, order) => GoesAwayKeeps(s, last, code, order);
    case ReadFails(e) => PhaseKeeps(s, s.reader.(phase := Failing(e)));
    case ReaderExits(order) => ExitsKeeps(s, order);
    case ReaderTells => TellsKeeps(s);
  }

  /** Every step keeps everything. */
  lemma StepKeeps(s: System, st: Step)
    requires Inv(s) && Enabled(s, st)
    ensures Inv(Next(s, st))
  {
    if CallerStep(st) {
      CallersKeep(s, st);
    } else if ReadsResponse(st) {
      ResponseKeeps(s, st);
    } else {
      ReaderKeeps(s, st);
    }
  }

  lemma {:induction false} Reachable(steps: seq<Step>)
    requires Run(steps).Some?
    ensures Inv(Run(steps).value)
    decreases |steps|
  {
    if steps == [] {
      InvStart();
    } else {
      Reachable(steps[..|steps| - 1]);
      StepKeeps(Run(steps[..|steps| - 1]).value, steps[|steps| - 1]);
    }
  }

  /** Once the connection has failed, its error stays and no stream enters the map. */
  lemma FailureSticks(s: System, st: Step)
    requires Inv(s) && Enabled(s, st) && s.conn.err.Some?
    ensures Next(s, st).conn.err == s.conn.err
    ensures Next(s, st).conn.streams.Keys <= s.conn.streams.Keys
  {
    if st.ReadSettings? {
      SettingsFrame(s.conn, st.ss, s.topLimit);
    } else if CallerStep(st) {
      FailureSticksCaller(s, st);
    } else {
      FailureSticksReader(s, st);
    }
  }

  lemma FailureSticksCaller(s: System, st: Step)
    requires Enabled(s, st) && s.conn.err.Some? && CallerStep(st)
    ensures Next(s, st).conn.err == s.conn.err && Next(s, st).conn.streams == s.conn.streams
  {
  }

  lemma FailureSticksReader(s: System, st: Step)
    requires Enabled(s, st) && s.conn.err.Some? && !CallerStep(st) && !st.ReadSettings?
    ensures Next(s, st).conn.err == s.conn.err && Next(s, st).conn.streams.Keys <= s.conn.streams.Keys
  {
  }
}
