/**
 Where the connection does less than one might read into it. For each there is a run that shows it, and the exact
 condition, over every run, under which the stronger reading holds.
 */
module Gaps {
  import opened Bytes
  import opened Frames
  import opened Segments
  import opened ConnState
  import opened Protocol
  import opened Slots
  import opened Wire
  import opened Invariant
  import opened Runs
  import opened Demux
  import opened Theorems
  import opened History
  import opened Sent
  import opened SentSteps
  import opened Peer
  import opened Spoken
  import Examples
  import Wakeups

  // ----- a batch opened after SETTINGS -----

  lemma TwoSteps(a: Step, b: Step, s1: System, s2: System)
    requires Enabled(START, a) && Next(START, a) == s1 && Enabled(s1, b) && Next(s1, b) == s2
    ensures Run([a, b]) == Some(s2)
  {
    assert [a, b][..1] == [a] && [a][..0] == [];
    assert Run([a]) == Some(s1);
  }

  lemma ArriveThenSettings(req: Req, n: nat, ss: seq<Setting>)
    ensures Run([BatchArrives(req, n, false), ReadSettings(ss)])
            == Some(TakesSettings(BatchStarts(START, req, n, false), ss))
  {
    var s1 := BatchStarts(START, req, n, false);
    TwoSteps(BatchArrives(req, n, false), ReadSettings(ss), s1, TakesSettings(s1, ss));
  }

  lemma ArriveThenNumber(req: Req, n: nat)
    requires BatchStarts(START, req, n, false).callers == [BatchHeld(req, n, false)]
    ensures Run([BatchArrives(req, n, false), BatchNumbers(0)])
            == Some(BatchOpens(BatchStarts(START, req, n, false), 0))
  {
    var s1 := BatchStarts(START, req, n, false);
    TwoSteps(BatchArrives(req, n, false), BatchNumbers(0), s1, BatchOpens(s1, 0));
  }

  /** A batch stream is opened with the window left after its body: negative exactly when SETTINGS lowered the initial
      window below the body's length after the batch was admitted. */
  lemma BatchStreamWindow(s: System, c: nat, id: nat)
    requires IdsOk(s.conn, s.book) && Enabled(s, BatchNumbers(c)) && Opens(s.conn, s.callers[c].n)
    requires s.callers[c].n <= STREAM_CAP
    requires InBatch(id, s.conn.nextID, s.callers[c].n)
    ensures var t, len := Next(s, BatchNumbers(c)), |s.callers[c].req.body|;
            && id in t.conn.streams
            && (t.conn.streams[id].sendWindow < 0 <==> s.conn.peerInitialWindow < len)
  {
    var w := s.callers[c];
    if w.n > 0 {
      BatchFitsExactly(s.conn, w.n);
    }
    AddStreamsMap(s.conn.streams, s.conn.nextID, w.n,
                  Stream(ByBatch, w.keep, s.conn.peerInitialWindow - |w.req.body|, FRESH));
    assert id !in s.conn.streams by {
      assert !OpenedId(id, s.conn.nextID);
    }
  }

  /** So a batch admitted before the change overruns its streams' windows, in whatever run it was admitted. */
  lemma LoweredWindowIsOverrun(steps: seq<Step>, c: nat, v: nat, id: nat)
    requires Run(steps).Some? && Enabled(Run(steps).value, ReadSettings([InitialWindowSize(v)]))
    requires Enabled(Run(steps).value, BatchNumbers(c)) && Opens(Run(steps).value.conn, Run(steps).value.callers[c].n)
    requires v < |Run(steps).value.callers[c].req.body|
    requires InBatch(id, Run(steps).value.conn.nextID, Run(steps).value.callers[c].n)
    ensures var t := Next(Run(steps).value, ReadSettings([InitialWindowSize(v)]));
            && Enabled(t, BatchNumbers(c))
            && id in Next(t, BatchNumbers(c)).conn.streams && Next(t, BatchNumbers(c)).conn.streams[id].sendWindow < 0
  {
    Reachable(steps);
    var s := Run(steps).value;
    BatchBound(s.conn, s.callers, s.topLimit, c);
    LoweredInState(s, c, v, id);
  }

  lemma LoweredInState(s: System, c: nat, v: nat, id: nat)
    requires Counts(s) && Enabled(s, ReadSettings([InitialWindowSize(v)])) && Enabled(s, BatchNumbers(c))
    requires s.callers[c].n <= STREAM_CAP && v < |s.callers[c].req.body| && Opens(s.conn, s.callers[c].n)
    requires InBatch(id, s.conn.nextID, s.callers[c].n)
    ensures var t := Next(s, ReadSettings([InitialWindowSize(v)]));
            && Enabled(t, BatchNumbers(c))
            && id in Next(t, BatchNumbers(c)).conn.streams && Next(t, BatchNumbers(c)).conn.streams[id].sendWindow < 0
  {
    var t := TakesSettings(s, [InitialWindowSize(v)]);
    SettingsFrame(s.conn, [InitialWindowSize(v)], s.topLimit);
    assert ApplySettings(s.conn, [InitialWindowSize(v)]).peerInitialWindow == v;
    SettingsCounts(s, [InitialWindowSize(v)]);
    BatchStreamWindow(t, c, id);
  }

  lemma RunNext(steps: seq<Step>, s: System, st: Step, t: System)
    requires Run(steps) == Some(s) && Enabled(s, st) && t == Next(s, st)
    ensures Run(steps + [st]) == Some(t)
  {
    assert (steps + [st])[..|steps|] == steps;
  }

  lemma Lowers(c: Conn, v: nat)
    ensures var d := Settings(c, [InitialWindowSize(v)]);
            d.peerInitialWindow == v && d.err == c.err && d.nextID == c.nextID
  {
    assert ApplySettings(c, [InitialWindowSize(v)][..0]) == c;
  }

  lemma LoweredBatch(s0: System, req: Req, n: nat, v: nat, s: System)
    requires s0.callers == [] && s0.wmu.None? && s0.conn.nextID == 1 && s0.conn.active == 0
    requires s0.conn.peerMaxStreams == 100 && Admit(s0.conn, n, |req.body|).BatchAdmitted?
    requires s == TakesSettings(BatchStarts(s0, req, n, false), [InitialWindowSize(v)])
    ensures s.callers == [BatchHeld(req, n, false)] && s.wmu.None? && s.conn.err.None? && s.conn.nextID == 1
    ensures s.conn.peerInitialWindow == v && n <= 100
  {
    Lowers(BatchStarts(s0, req, n, false).conn, v);
  }

  lemma LoweredStream(s: System, req: Req, n: nat, id: nat)
    requires IdsOk(s.conn, s.book) && s.callers == [BatchHeld(req, n, false)] && s.wmu.None? && s.conn.err.None?
    requires s.conn.nextID == 1 && s.conn.peerInitialWindow < |req.body| && n <= 100 && InBatch(id, 1, n)
    ensures id in BatchOpens(s, 0).conn.streams && BatchOpens(s, 0).conn.streams[id].sendWindow < 0
  {
    BatchFitsExactly(s.conn, n);
    BatchStreamWindow(s, 0, id);
  }

  lemma LoweredThenOpened(two: seq<Step>, s: System, req: Req, n: nat)
    requires Run(two) == Some(s) && s.callers == [BatchHeld(req, n, false)] && s.wmu.None?
    ensures Run(two + [BatchNumbers(0)]) == Some(BatchOpens(s, 0))
  {
    RunNext(two, s, BatchNumbers(0), BatchOpens(s, 0));
  }

  /** And the run, for every first batch that is admitted and every window below its bodies. */
  lemma LoweredWindowRun(req: Req, n: nat, v: nat) returns (steps: seq<Step>)
    requires Admit(START.conn, n, |req.body|).BatchAdmitted? && v < |req.body|
    ensures steps == [BatchArrives(req, n, false), ReadSettings([InitialWindowSize(v)])] + [BatchNumbers(0)]
    ensures Run(steps).Some?
    ensures forall id :: InBatch(id, 1, n) ==>
              id in Run(steps).value.conn.streams && Run(steps).value.conn.streams[id].sendWindow < 0
  {
    var two := [BatchArrives(req, n, false), ReadSettings([InitialWindowSize(v)])];
    var s := TakesSettings(BatchStarts(START, req, n, false), [InitialWindowSize(v)]);
    ArriveThenSettings(req, n, [InitialWindowSize(v)]);
    LoweredBatch(START, req, n, v, s);
    steps := LoweredRun(two, s, req, n);
  }

  lemma IdsOfRun(steps: seq<Step>)
    requires Run(steps).Some?
    ensures IdsOk(Run(steps).value.conn, Run(steps).value.book)
  {
    Reachable(steps);
  }

  lemma LoweredRun(two: seq<Step>, s: System, req: Req, n: nat) returns (steps: seq<Step>)
    requires Run(two) == Some(s) && s.callers == [BatchHeld(req, n, false)] && s.wmu.None? && s.conn.err.None?
    requires s.conn.nextID == 1 && s.conn.peerInitialWindow < |req.body| && n <= 100
    ensures steps == two + [BatchNumbers(0)] && Run(steps).Some?
    ensures forall id :: InBatch(id, 1, n) ==>
              id in Run(steps).value.conn.streams && Run(steps).value.conn.streams[id].sendWindow < 0
  {
    IdsOfRun(two);
    LoweredThenOpened(two, s, req, n);
    steps := two + [BatchNumbers(0)];
    forall id | InBatch(id, 1, n)
      ensures id in BatchOpens(s, 0).conn.streams && BatchOpens(s, 0).conn.streams[id].sendWindow < 0
    {
      LoweredStream(s, req, n, id);
    }
  }

  // ----- over the limit now in force -----

  predicate Within(conn: Conn) {
    conn.active <= conn.peerMaxStreams
  }

  /** The limit a SETTINGS frame leaves: the last it names, clamped, or the one before. */
  function LastLimit(limit: int, ss: seq<Setting>): int {
    if ss == [] then limit
    else if ss[|ss| - 1].MaxConcurrentStreams? then Min(ss[|ss| - 1].v, STREAM_CAP)
    else LastLimit(limit, ss[..|ss| - 1])
  }

  lemma {:induction false} SettingsLimit(c: Conn, ss: seq<Setting>)
    ensures ApplySettings(c, ss).peerMaxStreams == LastLimit(c.peerMaxStreams, ss)
    ensures ApplySettings(c, ss).active == c.active
    decreases |ss|
  {
    if ss == [] {
    } else {
      SettingsLimit(c, ss[..|ss| - 1]);
    }
  }

  /** SETTINGS can put the limit below what is open: active is within the new limit exactly when it does not. */
  lemma LimitCanBeLowered(s: System, ss: seq<Setting>)
    requires Enabled(s, ReadSettings(ss))
    ensures Within(Next(s, ReadSettings(ss)).conn) <==> s.conn.active <= LastLimit(s.conn.peerMaxStreams, ss)
  {
    SettingsLimit(s.conn, ss);
  }

  lemma LimitStays(s: System, st: Step)
    requires Enabled(s, st) && !st.ReadSettings?
    ensures Next(s, st).conn.peerMaxStreams == s.conn.peerMaxStreams
  {
    if CallerStep(st) {
      CallersLeaveLimit(s, st);
    } else {
      ReaderLeavesLimit(s, st);
    }
  }

  lemma CallersLeaveLimit(s: System, st: Step)
    requires Enabled(s, st) && CallerStep(st)
    ensures Next(s, st).conn.peerMaxStreams == s.conn.peerMaxStreams
  {
  }

  lemma ReaderLeavesLimit(s: System, st: Step)
    requires Enabled(s, st) && !CallerStep(st) && !st.ReadSettings?
    ensures Next(s, st).conn.peerMaxStreams == s.conn.peerMaxStreams
  {
  }

  /** No other step takes a connection over its limit. */
  lemma OtherStepsStayWithin(steps: seq<Step>, st: Step)
    requires Run(steps).Some? && Enabled(Run(steps).value, st) && !st.ReadSettings?
    requires Within(Run(steps).value.conn)
    ensures Within(Next(Run(steps).value, st).conn)
  {
    LimitStays(Run(steps).value, st);
    if Next(Run(steps).value, st).conn.active > Run(steps).value.conn.active {
      AdmissionWithinLimit(steps, st);
    }
  }

  /** Within the limit at every moment of a run. */
  ghost predicate AlwaysWithin(steps: seq<Step>)
    requires Run(steps).Some?
  {
    Within(Run(steps).value.conn) && (steps != [] ==> AlwaysWithin(steps[..|steps| - 1]))
  }

  /** No SETTINGS frame of a run asks for fewer streams than are active when it comes. */
  ghost predicate NeverBelow(steps: seq<Step>)
    requires Run(steps).Some?
  {
    steps != [] ==>
      && NeverBelow(steps[..|steps| - 1])
      && var conn, st := Run(steps[..|steps| - 1]).value.conn, steps[|steps| - 1];
         st.ReadSettings? ==> conn.active <= LastLimit(conn.peerMaxStreams, st.ss)
  }

  /** A run is never over the limit in force exactly when no SETTINGS frame puts it below what is active. */
  lemma {:induction false} WithinLimitExactly(steps: seq<Step>)
    requires Run(steps).Some?
    ensures AlwaysWithin(steps) <==> NeverBelow(steps)
    decreases |steps|
  {
    if steps == [] {
    } else {
      var before, st := steps[..|steps| - 1], steps[|steps| - 1];
      WithinLimitExactly(before);
      if st.ReadSettings? {
        LimitCanBeLowered(Run(before).value, st.ss);
      } else if Within(Run(before).value.conn) {
        OtherStepsStayWithin(before, st);
      }
    }
  }

  /** Reachable in two steps: a first batch is admitted, then SETTINGS allows fewer streams than it has. */
  lemma OverLimitIsReachable(req: Req, n: nat, v: nat)
    requires Admit(START.conn, n, |req.body|).BatchAdmitted? && v < n
    ensures var r := Run([BatchArrives(req, n, false), ReadSettings([MaxConcurrentStreams(v)])]);
            r.Some? && r.value.conn.active > r.value.conn.peerMaxStreams
  {
    var ss := [MaxConcurrentStreams(v)];
    var s1 := BatchStarts(START, req, n, false);
    assert s1.conn.active == n;
    ArriveThenSettings(req, n, ss);
    SettingsLimit(s1.conn, ss);
  }

  // ----- bodies left unsent -----

  /** Over every run: a Do past its send loop, with its stream still open and its request not whole on the wire, has a
      failed connection or a failed write of its own behind it. */
  lemma EarlyStop(steps: seq<Step>, c: nat)
    requires Run(steps).Some? && c < |Run(steps).value.callers| && Run(steps).value.callers[c].AwaitDone?
    ensures var s := Run(steps).value;
            var id := s.callers[c].id;
            id in s.conn.streams && !Whole(s.wire, s.book, id) ==> s.conn.err.Some? || id in Log(steps).failed
  {
    RunSent(steps);
    var s := Run(steps).value;
    assert Account(ViewOf(s, Log(steps).failed), s.callers[c]);
  }

  /** Conversely, a Do found sending on a stream that is still open gives up exactly when the connection has failed, for
      whatever reason, and then its body is cut short on the wire. */
  lemma StrandedExactly(steps: seq<Step>, c: nat)
    requires Run(steps).Some? && c < |Run(steps).value.callers| && Run(steps).value.callers[c].Sending?
    requires Run(steps).value.callers[c].id in Run(steps).value.conn.streams
    ensures var s := Run(steps).value;
            && (Enabled(s, DoChecksWindow(c)) && ChecksWindow(s, c).callers[c].AwaitDone? <==> s.conn.err.Some?)
            && (s.conn.err.Some? ==> s.callers[c].id in ChecksWindow(s, c).conn.streams)
            && Payload(On(s.wire, s.callers[c].id)) < s.callers[c].req.body
  {
    Reachable(steps);
    var s := Run(steps).value;
    assert Progress(s.wire, s.book, c, s.callers[c]);
    assert Wakeups.WaitsRightly(s.conn, s.callers[c]);
    StrandedInState(s, c);
  }

  lemma StrandedInState(s: System, c: nat)
    requires c < |s.callers| && s.callers[c].Sending? && s.callers[c].id in s.conn.streams
    requires Progress(s.wire, s.book, c, s.callers[c]) && Wakeups.WaitsRightly(s.conn, s.callers[c])
    ensures Enabled(s, DoChecksWindow(c)) && ChecksWindow(s, c).callers[c].AwaitDone? <==> s.conn.err.Some?
    ensures s.conn.err.Some? ==> s.callers[c].id in ChecksWindow(s, c).conn.streams
    ensures Payload(On(s.wire, s.callers[c].id)) < s.callers[c].req.body
  {
  }

  lemma Spares(s: System, last: nat, code: nat, order: seq<nat>, id: nat)
    requires Enabled(s, ReadGoAway(last, code, order)) && id in s.conn.streams && id <= last
    ensures var t := GoesAway(s, last, code, order);
            t.callers == s.callers && t.wire == s.wire && t.conn.err.Some? && id in t.conn.streams
  {
  }

  /** So GOAWAY strands every Do it finds sending on a stream it spares: the stream is still open, unended on the wire,
      until the server ends it or the reader exits. */
  lemma GoAwayStrandsBodies(steps: seq<Step>, c: nat, last: nat, code: nat, order: seq<nat>)
    requires Run(steps).Some? && Enabled(Run(steps).value, ReadGoAway(last, code, order))
    requires c < |Run(steps).value.callers| && Run(steps).value.callers[c].Sending?
    requires Run(steps).value.callers[c].id in Run(steps).value.conn.streams
    requires Run(steps).value.callers[c].id <= last
    ensures var s := Run(steps).value;
            var t, id := GoesAway(s, last, code, order), s.callers[c].id;
            && Run(steps + [ReadGoAway(last, code, order)]) == Some(t)
            && Enabled(t, DoChecksWindow(c)) && ChecksWindow(t, c).callers[c].AwaitDone?
            && id in ChecksWindow(t, c).conn.streams && Payload(On(t.wire, id)) < s.callers[c].req.body
  {
    var s := Run(steps).value;
    Spares(s, last, code, order, s.callers[c].id);
    RunNext(steps, s, ReadGoAway(last, code, order), GoesAway(s, last, code, order));
    StrandedExactly(steps + [ReadGoAway(last, code, order)], c);
  }

  lemma PartOnWire(req: Req)
    ensures var fs := FirstFrames(1, req.block, req.body, Examples.Part(req));
            && On(fs, 1) == fs && fs != [] && Payload(fs) == req.body[..Examples.Part(req)]
            && (ClientEnded(fs, 1) <==> |req.body| <= DEFAULT_WINDOW)
  {
    var fs := FirstFrames(1, req.block, req.body, Examples.Part(req));
    FirstFramesCarry(1, req.block, req.body, Examples.Part(req));
    OnAll(fs, 1);
    assert |req.body| <= DEFAULT_WINDOW ==> req.body[..Examples.Part(req)] == req.body;
  }

  /** And a run in which it does, for every body over the first window: no write failed, the stream is open, and its Do
      waits with the body cut short. */
  lemma GoAwayStrandsARun(req: Req, keep: bool, last: nat, code: nat) returns (steps: seq<Step>)
    requires |req.body| > DEFAULT_WINDOW && last >= 1
    ensures Run(steps).Some? && Log(steps).failed == {}
    ensures var s := Run(steps).value;
            && s.callers == [AwaitDone(1)] && 1 in s.conn.streams && s.conn.err == Some(GoAway(code))
            && Payload(On(s.wire, 1)) == req.body[..DEFAULT_WINDOW]
  {
    steps := Examples.StrandedRun(req, keep, last, code);
    PartOnWire(req);
  }

  // ----- answers without a status -----

  /** DATA alone ends a stream with neither an error nor a status, for every request and every payload. */
  lemma DataAloneHasNoStatus(req: Req, keep: bool, data: seq<Byte>) returns (steps: seq<Step>)
    requires |data| < MAX_LENGTH
    ensures Run(steps).Some?
    ensures var s := Run(steps).value;
            && |s.ended| == 1 && s.ended[0].id == 1 && s.ended[0].result.status == 0 && s.ended[0].result.err.None?
            && s.ended[0].result.n == |data|
  {
    var t, r;
    steps, t, r := Examples.DataAloneRun(req, keep, data);
  }

  /** So does an informational header block with END_STREAM, for every such status. */
  lemma InformationalHasNoStatus(req: Req, keep: bool, status: int) returns (steps: seq<Step>)
    requires 100 <= status < 200
    ensures Run(steps).Some?
    ensures var s := Run(steps).value;
            |s.ended| == 1 && s.ended[0].id == 1 && s.ended[0].result.status == 0 && s.ended[0].result.err.None?
  {
    var t, r;
    steps, t, r := Examples.BlockAloneRun(req, keep, status);
  }

  /** A result without an error has none exactly when no header block of its stream has a status of 200 or more. */
  lemma StatusZeroExactly(steps: seq<Step>, i: nat)
    requires Run(steps).Some? && i < |Run(steps).value.ended| && Run(steps).value.ended[i].result.err.None?
    ensures var e := Run(steps).value.ended[i];
            var ss := Statuses(FramesOf(steps, e.id));
            e.result.status == 0 <==> forall k :: 0 <= k < |ss| ==> ss[k] < 200
  {
    var c := CleanAnswer(steps, i);
    FinalIsZero(Statuses(FramesOf(steps, Run(steps).value.ended[i].id)));
  }

  // ----- streams open and not counted -----

  /** Over every run: a stream is open by the standard and out of the map exactly when it was answered in full before
      its request was sent in full, and was neither reset nor refused since. */
  lemma OpenUncountedExactly(steps: seq<Step>, id: nat)
    requires Run(steps).Some?
    ensures var s, r := Run(steps).value, Log(steps);
            OpenByRfc(s, r, id) && id !in s.conn.streams <==> AnsweredEarly(s, r, id)
  {
    Reachable(steps);
    RunPeer(steps);
    OpenAndGone(Run(steps).value, Log(steps), id);
  }

  /** So the map holds every open stream exactly when no stream was answered early, and then active covers them. */
  lemma ActiveCoversOpenExactly(steps: seq<Step>)
    requires Run(steps).Some?
    ensures var s, r := Run(steps).value, Log(steps);
            && (OpenIds(s, r) <= s.conn.streams.Keys <==> forall id :: !AnsweredEarly(s, r, id))
            && (OpenIds(s, r) <= s.conn.streams.Keys ==> |OpenIds(s, r)| <= s.conn.active)
  {
    Reachable(steps);
    RunPeer(steps);
    OpenIdsWithin(Run(steps).value, Log(steps));
  }

  /** A server that ends its answer early frees the slot: for every body over the first window, a run in which HEADERS
      are on the wire without END_STREAM, one stream is open by the standard, and active is 0. */
  lemma EarlyAnswerFreesSlot(req: Req, keep: bool, data: seq<Byte>) returns (steps: seq<Step>)
    requires |req.body| > DEFAULT_WINDOW && |data| < MAX_LENGTH
    ensures Run(steps).Some?
    ensures var s, r := Run(steps).value, Log(steps);
            && s.conn.active == 0 && s.conn.streams == map[]
            && On(s.wire, 1) != [] && !ClientEnded(s.wire, 1)
            && OpenIds(s, r) == {1}
  {
    var t, r;
    steps, t, r := Examples.DataAloneRun(req, keep, data);
    PartOnWire(req);
    assert OpenByRfc(t, r, 1);
    assert forall id :: id in t.book ==> id in t.book.Keys;
  }

  // ----- the empty batch -----

  /** The first batch on a connection fails it exactly when the batch is empty. */
  lemma FirstBatchFailsWhenEmpty(req: Req, n: nat)
    requires Admit(START.conn, n, |req.body|).BatchAdmitted?
    ensures var r := Run([BatchArrives(req, n, false), BatchNumbers(0)]);
            r.Some? && (r.value.conn.err.Some? <==> n == 0)
  {
    var s1 := BatchStarts(START, req, n, false);
    assert s1.callers == [BatchHeld(req, n, false)];
    ArriveThenNumber(req, n);
    if n == 0 {
      EmptyBatchWraps(s1.conn);
    } else {
      BatchFitsExactly(s1.conn, n);
    }
  }
}
