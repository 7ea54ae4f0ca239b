/** The promises of the connection, each over every run. */
module Theorems {
  import opened Bytes
  import opened Frames
  import opened Requests
  import opened Segments
  import opened ConnState
  import opened Protocol
  import opened Slots
  import opened Wakeups
  import opened Ledgers
  import opened Wire
  import opened Results
  import opened Demux
  import opened Runs
  import opened History
  import opened Sent
  import opened SentSteps
  import opened Spoken
  import opened Calls
  import opened Origins

  // ----- no lost wakeup -----

  function Asleep(x: Caller): Option<nat> {
    match x
    case SlotWait(_, _, asleep) => asleep
    case Sending(_, _, _, asleep) => asleep
    case _ => None
  }

  /** A caller that sleeps, and that nobody has broadcast to since, is waiting for something that is still missing. */
  lemma NoLostWakeup(steps: seq<Step>, c: nat)
    requires Run(steps).Some? && c < |Run(steps).value.callers|
    ensures var s := Run(steps).value;
            var x := s.callers[c];
            !Runnable(s.conn, Asleep(x)) ==>
              if x.SlotWait? then NoSlot(s.conn) else x.Sending? && NoWindow(s.conn, x.id)
  {
    Reachable(steps);
    var s := Run(steps).value;
    assert WaitsRightly(s.conn, s.callers[c]);
  }

  // ----- exactly one result -----

  function EndedIds(ended: seq<Ended>): set<nat> {
    set i | 0 <= i < |ended| :: ended[i].id
  }

  lemma {:induction false} EndedIdsSize(ended: seq<Ended>)
    requires forall i, j :: 0 <= i < j < |ended| ==> ended[i].id != ended[j].id
    ensures |EndedIds(ended)| == |ended|
    decreases |ended|
  {
    if ended == [] {
    } else {
      var init := ended[..|ended| - 1];
      EndedIdsSize(init);
      assert EndedIds(ended) == EndedIds(init) + {ended[|ended| - 1].id};
    }
  }

  function Odds(n: nat): set<nat> {
    set id: nat | id < n && OpenedId(id, n)
  }

  lemma {:induction false} OddsSize(n: nat)
    requires n % 2 == 1
    ensures |Odds(n)| == n / 2
  {
    if n == 1 {
      assert Odds(1) == {};
    } else {
      OddsSize(n - 2);
      assert Odds(n) == Odds(n - 2) + {n - 2};
    }
  }

  lemma PlacesPartition(conn: Conn, book: map<nat, Entry>, ended: seq<Ended>)
    requires PlaceOk(conn.streams, book, ended) && forall id :: id in conn.streams ==> id in book
    ensures book.Keys == conn.streams.Keys + EndedIds(ended) && conn.streams.Keys !! EndedIds(ended)
  {
    forall id | id in book.Keys ensures id in conn.streams.Keys + EndedIds(ended) {
      assert id in conn.streams || HasEnded(ended, id);
    }
  }

  lemma AllOdds(conn: Conn, book: map<nat, Entry>)
    requires IdsOk(conn, book)
    ensures |book.Keys| == conn.nextID / 2
  {
    assert book.Keys == Odds(conn.nextID);
    OddsSize(conn.nextID);
  }

  lemma Conserved(conn: Conn, book: map<nat, Entry>, ended: seq<Ended>)
    requires IdsOk(conn, book) && PlaceOk(conn.streams, book, ended)
    ensures conn.nextID / 2 == |conn.streams| + |ended|
  {
    PlacesPartition(conn, book, ended);
    EndedIdsSize(ended);
    AllOdds(conn, book);
    assert |conn.streams.Keys| == |conn.streams|;
  }

  /** Streams opened are results told, results about to be told, and streams in the map; each stream is in one of the
      three places and in it once. */
  lemma ExactlyOneResult(steps: seq<Step>, id: nat)
    requires Run(steps).Some?
    ensures var s := Run(steps).value;
            && s.told <= |s.ended|
            && s.conn.nextID / 2 == |s.conn.streams| + |s.ended[s.told..]| + |s.ended[..s.told]|
            && (id in s.conn.streams ==> !HasEnded(s.ended, id))
            && (forall i, j :: 0 <= i < |s.ended| && 0 <= j < |s.ended| && s.ended[i].id == s.ended[j].id ==> i == j)
            && (id in s.conn.streams || HasEnded(s.ended, id) <==> OpenedId(id, s.conn.nextID))
  {
    Reachable(steps);
    var s := Run(steps).value;
    Conserved(s.conn, s.book, s.ended);
    PlacesExact(s.conn, s.book, s.ended, id);
  }

  lemma PlacesExact(conn: Conn, book: map<nat, Entry>, ended: seq<Ended>, id: nat)
    requires IdsOk(conn, book) && PlaceOk(conn.streams, book, ended)
    ensures id in conn.streams ==> !HasEnded(ended, id)
    ensures forall i, j :: 0 <= i < |ended| && 0 <= j < |ended| && ended[i].id == ended[j].id ==> i == j
    ensures id in conn.streams || HasEnded(ended, id) <==> OpenedId(id, conn.nextID)
  {
  }

  predicate ToldTo(e: Ended, c: nat) {
    e.owner == ByDo(c)
  }

  /** Caller c is told of one stream's end at most, returns that result, and is told of none when it was refused. */
  ghost predicate OneResult(callers: seq<Caller>, ended: seq<Ended>, told: nat, c: nat)
    requires c < |callers|
  {
    && (forall i, j :: 0 <= i < |ended| && 0 <= j < |ended| && ToldTo(ended[i], c) && ToldTo(ended[j], c) ==> i == j)
    && (callers[c].Returned? && callers[c].stream.Some? ==>
          exists i :: 0 <= i < told && i < |ended| && ToldTo(ended[i], c) && ended[i].result == callers[c].result)
    && (callers[c].Returned? && callers[c].stream.None? ==>
          callers[c].result.err.Some? && forall i :: 0 <= i < |ended| ==> !ToldTo(ended[i], c))
  }

  lemma OneResultPerDo(steps: seq<Step>, c: nat)
    requires Run(steps).Some? && c < |Run(steps).value.callers|
    ensures var s := Run(steps).value; OneResult(s.callers, s.ended, s.told, c)
  {
    Reachable(steps);
    var s := Run(steps).value;
    OneResultHolds(s.conn.streams, s.book, s.callers, s.ended, s.told, c);
  }

  lemma OneOwner(streams: map<nat, Stream>, book: map<nat, Entry>, callers: seq<Caller>, ended: seq<Ended>, c: nat)
    requires PlaceOk(streams, book, ended) && OwnersOk(book, callers) && c < |callers|
    ensures forall i :: 0 <= i < |ended| && ToldTo(ended[i], c) ==> StreamOf(callers[c]) == Some(ended[i].id)
    ensures forall i, j :: 0 <= i < |ended| && 0 <= j < |ended| && ToldTo(ended[i], c) && ToldTo(ended[j], c) ==> i == j
  {
  }

  lemma OneResultHolds(streams: map<nat, Stream>, book: map<nat, Entry>, callers: seq<Caller>, ended: seq<Ended>,
                       told: nat, c: nat)
    requires PlaceOk(streams, book, ended) && OwnersOk(book, callers) && ReturnsOk(callers, ended, told)
    requires c < |callers|
    ensures OneResult(callers, ended, told, c)
  {
    OneOwner(streams, book, callers, ended, c);
    if callers[c].Returned? && callers[c].stream.Some? {
      var id := callers[c].stream.value;
      assert Told(ended, told, id, callers[c].result);
      var i :| 0 <= i < told && i < |ended| && ended[i].id == id && ended[i].result == callers[c].result;
      assert StreamOf(callers[c]) == Some(id);
      assert ToldTo(ended[i], c);
    }
  }

  // ----- failure is final -----

  lemma RunPrefix(steps: seq<Step>, more: seq<Step>)
    requires more != []
    ensures (steps + more)[..|steps + more| - 1] == steps + more[..|more| - 1]
    ensures (steps + more)[|steps + more| - 1] == more[|more| - 1]
  {
  }

  /** Over the rest of any run: the error is the same one, and the map only shrinks. */
  lemma {:induction false} FailureIsFinal(steps: seq<Step>, more: seq<Step>)
    requires Run(steps).Some? && Run(steps).value.conn.err.Some? && Run(steps + more).Some?
    ensures Run(steps + more).value.conn.err == Run(steps).value.conn.err
    ensures Run(steps + more).value.conn.streams.Keys <= Run(steps).value.conn.streams.Keys
    decreases |more|
  {
    if more == [] {
      assert steps + more == steps;
    } else {
      RunPrefix(steps, more);
      FailureIsFinal(steps, more[..|more| - 1]);
      Reachable(steps + more[..|more| - 1]);
      FailureSticks(Run(steps + more[..|more| - 1]).value, more[|more| - 1]);
    }
  }

  /** Once the reader has exited the map is empty, and stays so. */
  lemma EmptyAfterExit(steps: seq<Step>, more: seq<Step>)
    requires Run(steps).Some? && Run(steps).value.reader.phase.Exited? && Run(steps + more).Some?
    ensures Run(steps + more).value.conn.streams == map[]
  {
    Reachable(steps);
    FailureIsFinal(steps, more);
    var m := Run(steps + more).value.conn.streams;
    assert m.Keys == {};
  }

  predicate StepOf(st: Step, c: nat) {
    (CallerStep(st) && !st.DoArrives? && !st.BatchArrives?) && st.c == c
  }

  /** A caller can go on, or waits for wmu and its holder can. */
  ghost predicate CanGoOn(s: System, c: nat) {
    || (exists st :: StepOf(st, c) && Enabled(s, st))
    || (s.wmu.Some? && exists st :: StepOf(st, s.wmu.value) && Enabled(s, st))
  }

  predicate Over(x: Caller) {
    x.Returned? || x.BatchReturned?
  }

  lemma LockHolderCanWrite(s: System)
    requires LockOk(s.callers, s.wmu) && ProgressOk(s.wire, s.book, s.callers) && s.wmu.Some?
    ensures exists st :: StepOf(st, s.wmu.value) && Enabled(s, st)
  {
    var k := s.wmu.value;
    assert Progress(s.wire, s.book, k, s.callers[k]);
    var st := if s.callers[k].Numbered? then DoWrites(k, true) else BatchWrites(k, true);
    assert StepOf(st, k) && Enabled(s, st);
  }

  /** Nobody is left behind: once the reader has exited and told every end, each caller that has not returned can. */
  lemma NobodyStuckAfterExit(steps: seq<Step>, c: nat)
    requires Run(steps).Some? && c < |Run(steps).value.callers| && !Over(Run(steps).value.callers[c])
    requires Run(steps).value.reader.phase.Exited? && Run(steps).value.told == |Run(steps).value.ended|
    ensures CanGoOn(Run(steps).value, c)
  {
    Reachable(steps);
    var s := Run(steps).value;
    var x := s.callers[c];
    assert WaitsRightly(s.conn, x);
    assert Progress(s.wire, s.book, c, x);
    if s.wmu.Some? {
      LockHolderCanWrite(s);
    } else if x.AwaitDone? {
      DoneIsTold(s, c);
    } else {
      var st := match x
        case SlotWait(_, _, _) => DoChecksSlot(c)
        case SlotHeld(_, _) => DoNumbers(c)
        case Sending(_, _, _, _) => DoChecksWindow(c)
        case Taken(_, _, _, _) => DoWritesData(c, true)
        case BatchHeld(_, _, _) => BatchNumbers(c)
        case Numbered(_, _, _) => DoWrites(c, true)
        case _ => BatchWrites(c, true);
      assert StepOf(st, c) && Enabled(s, st);
    }
  }

  lemma DoneIsTold(s: System, c: nat)
    requires PlaceOk(s.conn.streams, s.book, s.ended) && OwnersOk(s.book, s.callers)
    requires c < |s.callers| && s.callers[c].AwaitDone? && s.conn.streams == map[] && s.told == |s.ended|
    ensures exists st :: StepOf(st, c) && Enabled(s, st)
  {
    var id := s.callers[c].id;
    assert StreamOf(s.callers[c]) == Some(id);
    assert HasEnded(s.ended, id);
    var i :| 0 <= i < |s.ended| && s.ended[i].id == id;
    assert StepOf(DoReceives(c, i), c) && Enabled(s, DoReceives(c, i));
  }

  // ----- everybody returns -----

  /** How many more steps a caller can take once the reader has exited. */
  function Left(x: Caller): nat {
    match x
    case Returned(_, _) => 0
    case BatchReturned(_, _) => 0
    case Sending(_, _, _, _) => 2
    case Taken(_, _, _, _) => 3
    case Numbered(_, _, _) => 3
    case _ => 1
  }

  function AllLeft(callers: seq<Caller>): nat {
    if callers == [] then 0 else AllLeft(callers[..|callers| - 1]) + Left(callers[|callers| - 1])
  }

  lemma {:induction false} AllLeftUpdate(callers: seq<Caller>, c: nat, x: Caller)
    requires c < |callers|
    ensures AllLeft(callers[c := x]) == AllLeft(callers) - Left(callers[c]) + Left(x)
  {
    var n := |callers| - 1;
    if c == n {
      assert callers[c := x][..n] == callers[..n];
    } else {
      AllLeftUpdate(callers[..n], c, x);
      assert callers[c := x][..n] == callers[..n][c := x];
    }
  }

  predicate Arrival(st: Step) {
    st.DoArrives? || st.BatchArrives?
  }

  /** The steps callers and the reader have left, once the reader has exited. */
  function Remaining(s: System): int {
    AllLeft(s.callers) + |s.ended| - s.told
  }

  /** A caller's step moves that caller alone, and closer to its return. */
  lemma CallerGetsCloser(s: System, st: Step)
    requires Enabled(s, st) && CallerStep(st) && !Arrival(st) && s.conn.err.Some?
    ensures var t := Next(s, st);
            && t.callers == s.callers[st.c := t.callers[st.c]] && Left(t.callers[st.c]) < Left(s.callers[st.c])
            && t.ended == s.ended && t.told == s.told && t.reader == s.reader
  {
  }

  lemma OnlyTellsAfterExit(s: System, st: Step)
    requires Enabled(s, st) && !CallerStep(st) && s.reader.phase.Exited?
    ensures st.ReaderTells?
  {
  }

  lemma StepTowardReturn(s: System, st: Step)
    requires Enabled(s, st) && !Arrival(st) && s.reader.phase.Exited? && s.conn.err.Some?
    ensures Remaining(Next(s, st)) < Remaining(s) && Next(s, st).reader.phase.Exited?
  {
    if CallerStep(st) {
      CallerGetsCloser(s, st);
      AllLeftUpdate(s.callers, st.c, Next(s, st).callers[st.c]);
    } else {
      OnlyTellsAfterExit(s, st);
    }
  }

  /** Once the reader has exited, the callers there are take no more steps than they have left, whatever the
      schedule. */
  lemma {:induction false} EverybodyReturns(steps: seq<Step>, more: seq<Step>)
    requires Run(steps).Some? && Run(steps).value.reader.phase.Exited? && Run(steps + more).Some?
    requires forall st :: st in more ==> !Arrival(st)
    ensures Run(steps + more).value.reader.phase.Exited?
    ensures |more| + Remaining(Run(steps + more).value) <= Remaining(Run(steps).value)
    decreases |more|
  {
    if more == [] {
      assert steps + more == steps;
    } else {
      var init := more[..|more| - 1];
      RunPrefix(steps, more);
      EverybodyReturns(steps, init);
      Reachable(steps + init);
      StepTowardReturn(Run(steps + init).value, more[|more| - 1]);
    }
  }

  /** Nothing can happen but a new call. */
  ghost predicate AtRest(s: System) {
    forall st :: Enabled(s, st) ==> Arrival(st)
  }

  lemma NoStepAtRest(s: System, c: nat)
    requires AtRest(s)
    ensures !exists st :: StepOf(st, c) && Enabled(s, st)
  {
    forall st | StepOf(st, c) ensures !Enabled(s, st) {
      assert !Arrival(st);
    }
  }

  lemma ToldAtRest(s: System)
    requires AtRest(s)
    ensures s.told >= |s.ended|
  {
    assert !Arrival(ReaderTells);
    assert !Enabled(s, ReaderTells);
  }

  lemma StuckAtRest(s: System, c: nat)
    requires AtRest(s)
    ensures !CanGoOn(s, c)
  {
    NoStepAtRest(s, c);
    if s.wmu.Some? {
      NoStepAtRest(s, s.wmu.value);
    }
  }

  /** And the schedule only comes to an end with every caller returned. */
  lemma EndsReturned(steps: seq<Step>, c: nat)
    requires Run(steps).Some? && Run(steps).value.reader.phase.Exited? && c < |Run(steps).value.callers|
    requires AtRest(Run(steps).value)
    ensures Over(Run(steps).value.callers[c])
  {
    Reachable(steps);
    ToldAtRest(Run(steps).value);
    StuckAtRest(Run(steps).value, c);
    if !Over(Run(steps).value.callers[c]) {
      NobodyStuckAfterExit(steps, c);
    }
  }

  /** GOAWAY ends every stream above the last one the server took, with the connection's error, and no other. */
  lemma GoAwayRefusesAbove(s: System, last: nat, code: nat, order: seq<nat>, id: nat)
    requires Enabled(s, ReadGoAway(last, code, order)) && id in s.conn.streams
    ensures var t := Next(s, ReadGoAway(last, code, order));
            && t.conn.err == (if s.conn.err.Some? then s.conn.err else Some(GoAway(code)))
            && (id <= last ==> id in t.conn.streams && t.conn.streams[id] == s.conn.streams[id])
            && (id > last ==>
                  exists i :: |s.ended| <= i < |t.ended| && t.ended[i].id == id && t.ended[i].result.err == t.conn.err)
  {
    var t := Next(s, ReadGoAway(last, code, order));
    if id > last {
      assert id in Above(s.conn.streams, last);
      var k :| 0 <= k < |order| && order[k] == id;
      assert t.ended[|s.ended| + k].id == id;
    }
  }

  /** The reader's exit ends every stream still open, with the connection's error. */
  lemma ExitEndsTheRest(s: System, order: seq<nat>, id: nat)
    requires s.reader.phase.Failing? && Enumerates(order, s.conn.streams.Keys) && id in s.conn.streams
    ensures var t := Exits(s, order);
            && t.conn.err == (if s.conn.err.Some? then s.conn.err else Some(s.reader.phase.err))
            && |t.ended| == |s.ended| + |order|
            && exists i :: && |s.ended| <= i < |t.ended| && t.ended[i].id == id
                           && t.ended[i].result.err == Some(Closed(t.conn.err.value))
  {
    var t := Exits(s, order);
    assert id in order;
    var k :| 0 <= k < |order| && order[k] == id;
    assert t.ended[|s.ended| + k].id == id;
  }

  /** RST_STREAM ends its stream, if that is open, with the code, and no other. */
  lemma ResetEndsOne(s: System, id: nat, code: nat)
    requires Enabled(s, ReadReset(id, code))
    ensures var t := Next(s, ReadReset(id, code));
            && t.conn.streams == s.conn.streams - {id}
            && (id !in s.conn.streams ==> t == s)
            && (id in s.conn.streams ==>
                  && |t.ended| == |s.ended| + 1 && t.ended[..|s.ended|] == s.ended
                  && t.ended[|s.ended|].id == id && t.ended[|s.ended|].owner == s.conn.streams[id].owner
                  && t.ended[|s.ended|].result.err == Some(StreamReset(code)))
  {
  }

  // ----- an end reaches its Do -----

  ghost predicate EndedKept(s: System, t: System) {
    |s.ended| <= |t.ended| && t.ended[..|s.ended|] == s.ended
  }

  lemma EndedGrows(s: System, st: Step)
    requires Enabled(s, st)
    ensures EndedKept(s, Next(s, st))
  {
    if CallerStep(st) {
      CallersEndNothing(s, st);
    } else {
      ReaderEndsMore(s, st);
    }
  }

  lemma CallersEndNothing(s: System, st: Step)
    requires Enabled(s, st) && CallerStep(st)
    ensures Next(s, st).ended == s.ended
  {
  }

  lemma ReaderEndsMore(s: System, st: Step)
    requires Enabled(s, st) && !CallerStep(st)
    ensures EndedKept(s, Next(s, st))
  {
  }

  lemma {:induction false} EndsStay(steps: seq<Step>, more: seq<Step>)
    requires Run(steps).Some? && Run(steps + more).Some?
    ensures EndedKept(Run(steps).value, Run(steps + more).value)
    decreases |more|
  {
    if more == [] {
      assert steps + more == steps;
    } else {
      RunPrefix(steps, more);
      EndsStay(steps, more[..|more| - 1]);
      EndedGrows(Run(steps + more[..|more| - 1]).value, more[|more| - 1]);
    }
  }

  lemma ReturnsItsEnd(streams: map<nat, Stream>, book: map<nat, Entry>, callers: seq<Caller>, ended: seq<Ended>,
                      told: nat, i: nat, c: nat)
    requires PlaceOk(streams, book, ended) && OwnersOk(book, callers) && ReturnsOk(callers, ended, told)
    requires i < |ended| && ended[i].owner == ByDo(c) && c < |callers| && callers[c].Returned?
    ensures callers[c].result == ended[i].result
  {
    var id := ended[i].id;
    assert book[id].owner == ByDo(c);
    assert StreamOf(callers[c]) == Some(id);
    assert Told(ended, told, id, callers[c].result);
  }

  /** Whatever ended a Do's stream, every run that goes on to the Do's return gives it that end's result. */
  lemma EndIsReturned(steps: seq<Step>, more: seq<Step>, i: nat, c: nat)
    requires Run(steps).Some? && i < |Run(steps).value.ended| && Run(steps).value.ended[i].owner == ByDo(c)
    requires Run(steps + more).Some? && c < |Run(steps + more).value.callers|
    requires Run(steps + more).value.callers[c].Returned?
    ensures Run(steps + more).value.callers[c].result == Run(steps).value.ended[i].result
  {
    EndsStay(steps, more);
    Reachable(steps + more);
    var s, t := Run(steps).value, Run(steps + more).value;
    assert t.ended[i] == t.ended[..|s.ended|][i];
    ReturnsItsEnd(t.conn.streams, t.book, t.callers, t.ended, t.told, i, c);
  }

  /** Once RST_STREAM has ended a Do's stream, the Do returns with its code, whatever else happens before it does. */
  lemma ResetIsReturned(steps: seq<Step>, id: nat, code: nat, more: seq<Step>, c: nat)
    requires Run(steps).Some? && Enabled(Run(steps).value, ReadReset(id, code))
    requires id in Run(steps).value.conn.streams && Run(steps).value.conn.streams[id].owner == ByDo(c)
    requires Run(steps + [ReadReset(id, code)] + more).Some?
    requires c < |Run(steps + [ReadReset(id, code)] + more).value.callers|
    requires Run(steps + [ReadReset(id, code)] + more).value.callers[c].Returned?
    ensures Run(steps + [ReadReset(id, code)] + more).value.callers[c].result.err == Some(StreamReset(code))
  {
    var s := Run(steps).value;
    var reset := steps + [ReadReset(id, code)];
    assert reset[..|steps|] == steps;
    ResetEndsOne(s, id, code);
    assert Run(reset) == Some(Next(s, ReadReset(id, code)));
    EndIsReturned(reset, more, |s.ended|, c);
  }

  // ----- windows -----

  /** Section 6.9.2 of RFC 9113: on every open stream, however SETTINGS and WINDOW_UPDATE interleave. */
  lemma StreamLedger(steps: seq<Step>, id: nat)
    requires Run(steps).Some? && id in Run(steps).value.conn.streams
    ensures var s := Run(steps).value;
            && id in s.book
            && s.conn.peerInitialWindow == Initial(steps)
            && s.conn.streams[id].sendWindow + s.book[id].taken == Initial(steps) + GrantedTo(steps, id)
  {
    Reachable(steps);
    ServerSaid(steps);
    StreamGranted(steps, id);
  }

  /** Octets of a stream's window its caller has taken and is about to write. */
  function HeldOn(s: System, id: nat): nat
    requires id in s.book
  {
    match s.book[id].owner
    case ByBatch => if Waits(s.callers, s.wmu, id) then |s.book[id].req.body| else 0
    case ByDo(c) => if c < |s.callers| && (s.callers[c].Numbered? || s.callers[c].Taken?) then s.callers[c].take else 0
  }

  /** What was taken of a stream's window is on the wire or about to be, except what a failed write of its lost. */
  lemma TakenIsSent(steps: seq<Step>, id: nat)
    requires Run(steps).Some? && id in Run(steps).value.book
    ensures var s := Run(steps).value;
            && Carried(s.wire, id) + HeldOn(s, id) <= s.book[id].taken
            && (id !in Log(steps).failed ==> Carried(s.wire, id) + HeldOn(s, id) == s.book[id].taken)
  {
    Reachable(steps);
    RunSent(steps);
    var s := Run(steps).value;
    if s.book[id].owner.ByBatch? {
      BatchTaken(s, Log(steps).failed, id);
    } else {
      DoTaken(s, Log(steps).failed, id, s.book[id].owner.caller);
    }
  }

  lemma BatchTaken(s: System, failed: set<nat>, id: nat)
    requires SentOk(s, failed) && id in s.book && s.book[id].owner.ByBatch?
    requires ProgressOk(s.wire, s.book, s.callers)
    ensures Carried(s.wire, id) + HeldOn(s, id) <= s.book[id].taken
    ensures id !in failed ==> Carried(s.wire, id) + HeldOn(s, id) == s.book[id].taken
  {
    assert BatchStream(ViewOf(s, failed), s.callers, s.wmu, id);
    if Waits(s.callers, s.wmu, id) {
      assert Progress(s.wire, s.book, s.wmu.value, s.callers[s.wmu.value]);
    }
  }

  lemma DoTaken(s: System, failed: set<nat>, id: nat, c: nat)
    requires SentOk(s, failed) && id in s.book && s.book[id].owner == ByDo(c)
    requires OwnersOk(s.book, s.callers) && ProgressOk(s.wire, s.book, s.callers)
    ensures Carried(s.wire, id) + HeldOn(s, id) <= s.book[id].taken
    ensures id !in failed ==> Carried(s.wire, id) + HeldOn(s, id) == s.book[id].taken
  {
    assert StreamOf(s.callers[c]) == Some(id);
    assert Account(ViewOf(s, failed), s.callers[c]) && Progress(s.wire, s.book, c, s.callers[c]);
  }

  /** The server never sees more DATA than the connection window it gave. */
  lemma ConnectionLedger(steps: seq<Step>)
    requires Run(steps).Some?
    ensures var s := Run(steps).value;
            && 0 <= s.conn.connSendWindow
            && s.conn.connSendWindow + DataBytes(s.wire) + Held(s.callers).1 + s.lost == 65535 + Granted(steps)
            && DataBytes(s.wire) <= 65535 + Granted(steps)
  {
    LedgersOfRun(steps);
    ServerSaid(steps);
  }

  /** Section 6.9.1 of RFC 9113, the receive side: the server's window is 2^30 less what was consumed since the last
      WINDOW_UPDATE, stays above 2^29 while the connection is read, and every update is nonzero and fits in 31 bits. */
  lemma ReceiveWindow(steps: seq<Step>)
    requires Run(steps).Some?
    ensures var s := Run(steps).value;
            && CONN_WINDOW - DataRead(steps) + Updates(s.wire) == CONN_WINDOW - s.reader.recvConsumed
            && (!s.reader.phase.Failing? && !s.reader.phase.Exited? ==>
                  CONN_WINDOW - s.reader.recvConsumed > CONN_WINDOW / 2)
            && forall f :: f in s.wire && f.typ == WINDOW_UPDATE ==> UpdateOk(f)
  {
    Reachable(steps);
    ServerSaid(steps);
  }

  // ----- slots -----

  lemma SlotAccounting(steps: seq<Step>)
    requires Run(steps).Some?
    ensures var s := Run(steps).value;
            && s.conn.active == |s.conn.streams| + Held(s.callers).0
            && s.topLimit == Top(steps) && s.conn.active <= Top(steps) <= STREAM_CAP
  {
    LedgersOfRun(steps);
    ServerSaid(steps);
  }

  /** The streams opened whose results are not told yet are at most the largest limit ever in force, and those that have
      left the map on the way to being told. */
  lemma UntoldWithinLimit(steps: seq<Step>)
    requires Run(steps).Some?
    ensures var s := Run(steps).value;
            s.conn.nextID / 2 - s.told <= s.topLimit + (|s.ended| - s.told) <= STREAM_CAP + (|s.ended| - s.told)
  {
    ExactlyOneResult(steps, 1);
    SlotAccounting(steps);
  }

  /** A step that raises active leaves it within the limit then in force. */
  lemma AdmissionWithinLimit(steps: seq<Step>, st: Step)
    requires Run(steps).Some? && Enabled(Run(steps).value, st)
    requires Next(Run(steps).value, st).conn.active > Run(steps).value.conn.active
    ensures Next(Run(steps).value, st).conn.active <= Next(Run(steps).value, st).conn.peerMaxStreams
  {
    Reachable(steps);
    var s := Run(steps).value;
    if st.ReadSettings? {
      SettingsFrame(s.conn, st.ss, s.topLimit);
    } else if !CallerStep(st) {
      ReaderNeverAdmits(s, st);
    } else {
      CallerAdmits(s, st);
    }
  }

  lemma ReaderNeverAdmits(s: System, st: Step)
    requires Enabled(s, st) && !CallerStep(st) && !st.ReadSettings?
    ensures Next(s, st).conn.active <= s.conn.active
  {
  }

  lemma CallerAdmits(s: System, st: Step)
    requires Enabled(s, st) && CallerStep(st)
    ensures Next(s, st).conn.active <= s.conn.active || Next(s, st).conn.active <= Next(s, st).conn.peerMaxStreams
  {
  }

  // ----- the wire -----

  /** Section 5.1.1 of RFC 9113: HEADERS reach the wire on strictly increasing odd identifiers, none above 2^31 - 1. */
  lemma StreamIds(steps: seq<Step>)
    requires Run(steps).Some?
    ensures var w := Run(steps).value.wire;
            && (forall i, j :: 0 <= i < j < |w| && w[i].typ == HEADERS && w[j].typ == HEADERS ==> w[i].id < w[j].id)
            && (forall i :: 0 <= i < |w| && w[i].typ == HEADERS ==> w[i].id % 2 == 1 && w[i].id <= MAX_STREAM_ID)
  {
    Reachable(steps);
    var s := Run(steps).value;
    WireIds(s.wire, s.book, s.conn);
  }

  lemma WireIds(wire: seq<Frame>, book: map<nat, Entry>, conn: Conn)
    requires CarryOk(wire, book) && IdsOk(conn, book)
    ensures forall i :: 0 <= i < |wire| && wire[i].typ == HEADERS ==> wire[i].id % 2 == 1 && wire[i].id <= MAX_STREAM_ID
  {
    forall i | 0 <= i < |wire| && wire[i].typ == HEADERS
      ensures wire[i].id % 2 == 1 && wire[i].id <= MAX_STREAM_ID
    {
      assert wire[i] in wire;
      IdFits(conn, book, wire[i].id);
    }
  }

  /** The octets the connection has written read back as its frames exactly when no header block is 2^24 octets or
      more. */
  lemma WireReadsBack(steps: seq<Step>)
    requires Run(steps).Some?
    ensures var w := Run(steps).value.wire;
            ParseAll(EncodeAll(w)) == Some(w) <==> forall f :: f in w && f.typ == HEADERS ==> |f.payload| < MAX_LENGTH
  {
    Reachable(steps);
    RunSent(steps);
    var s := Run(steps).value;
    ReadBackExactly(s.wire);
    forall f | f in s.wire ensures Fits(f) <==> (f.typ == HEADERS ==> |f.payload| < MAX_LENGTH) {
      FrameFits(s.wire, s.book, s.conn, f);
    }
  }

  lemma IdFits(conn: Conn, book: map<nat, Entry>, id: nat)
    requires IdsOk(conn, book) && id in book
    ensures id % 2 == 1 && id <= MAX_STREAM_ID
  {
    assert OpenedId(id, conn.nextID);
  }

  lemma FrameFits(wire: seq<Frame>, book: map<nat, Entry>, conn: Conn, f: Frame)
    requires CarryOk(wire, book) && IdsOk(conn, book) && ControlsOk(wire) && f in wire
    ensures Fits(f) <==> (f.typ == HEADERS ==> |f.payload| < MAX_LENGTH)
  {
    if f.typ == HEADERS {
      IdFits(conn, book, f.id);
    } else if f.typ == DATA {
      IdFits(conn, book, f.id);
      DataIsSmall(wire, book, f);
    } else {
      assert Control(f);
    }
  }

  lemma DataIsSmall(wire: seq<Frame>, book: map<nat, Entry>, f: Frame)
    requires CarryOk(wire, book) && f in wire && f.typ == DATA
    ensures |f.payload| <= MAX_FRAME
  {
    OnHas(wire, f);
    var fs := On(wire, f.id);
    var i :| 0 <= i < |fs| && fs[i] == f;
    assert Carries(fs, f.id, book[f.id].req.block, book[f.id].req.body);
  }

  lemma {:induction false} OnHas(wire: seq<Frame>, f: Frame)
    requires f in wire
    ensures f in On(wire, f.id)
  {
    var n := |wire| - 1;
    if wire[n] == f {
    } else {
      assert wire == wire[..n] + [wire[n]];
      OnHas(wire[..n], f);
    }
  }

  /** For every sequence of grants: what is on the wire for a stream is nothing, or, of the request of the one call it
      was opened for, the HEADERS and a prefix of the body in DATA frames of at most 16384 octets, END_STREAM on the
      last frame exactly when the body is complete, and then it is what AppendTo writes in one go. */
  lemma StreamCarriesRequest(steps: seq<Step>, id: nat) returns (c: nat)
    requires Run(steps).Some? && id in Run(steps).value.book
    ensures ServesCall(steps, id, c)
    ensures var fs, req := On(Run(steps).value.wire, id), Arrivals(steps)[c].req;
            && (fs == [] || Carries(fs, id, req.block, req.body))
            && (fs != [] && EndsStream(fs[|fs| - 1]) ==>
                  && fs[0] == RequestFrames(req.block, req.body, id)[0]
                  && Payload(fs) == Payload(RequestFrames(req.block, req.body, id)))
  {
    c := CallOf(steps, id);
    Reachable(steps);
    var s := Run(steps).value;
    var fs, req := On(s.wire, id), s.book[id].req;
    if fs != [] && EndsStream(fs[|fs| - 1]) {
      SegmentationIndependence(fs, id, req.block, req.body);
    }
  }

  /** Each round of the send loop that gets window sends at least one octet, so what is left of the body goes down. */
  lemma SendLoopProgress(steps: seq<Step>, c: nat)
    requires Run(steps).Some? && Enabled(Run(steps).value, DoChecksWindow(c))
    requires ChecksWindow(Run(steps).value, c).callers[c].Taken?
    ensures var x := ChecksWindow(Run(steps).value, c).callers[c]; 0 < x.take <= |x.req.body| - x.sent
  {
    Reachable(steps);
    var s := Run(steps).value;
    assert Progress(s.wire, s.book, c, s.callers[c]);
  }

  // ----- demultiplexing -----

  lemma {:induction false} OwnFrames(steps: seq<Step>, id: nat)
    requires Run(steps).Some?
    ensures forall e :: e in FramesOf(steps, id) ==> !e.Opened? && e.id == id
    decreases |steps|
  {
    if steps == [] {
    } else {
      var before := steps[..|steps| - 1];
      OwnFrames(before, id);
      LastDataIsData(before);
    }
  }

  lemma {:induction false} LastDataIsData(steps: seq<Step>)
    ensures LastData(steps).Some? ==> LastData(steps).value.Data?
  {
    if steps == [] {
    } else {
      LastDataIsData(steps[..|steps| - 1]);
    }
  }

  /** The result a stream ends with is a function of the frames the server sent on it, of why it ended, and of whether
      the call it was opened for keeps bodies: its status, length, body and error are those its own frames describe. */
  lemma Demultiplexing(steps: seq<Step>, i: nat) returns (c: nat)
    requires Run(steps).Some? && i < |Run(steps).value.ended|
    ensures var e := Run(steps).value.ended[i];
            && ServesCall(steps, e.id, c)
            && var own, keep := FramesOf(steps, e.id), Arrivals(steps)[c].keep;
               e.result == Conclude(Replay(keep, own), e.cause) && Described(keep, own, Replay(keep, own))
  {
    Reachable(steps);
    var s := Run(steps).value;
    c := CallOf(steps, s.ended[i].id);
    EndedFrames(steps, i);
    OwnFrames(steps, s.ended[i].id);
    ResponseOf(s.book[s.ended[i].id].keep, FramesOf(steps, s.ended[i].id));
  }

  /** So whatever else two runs do, streams that were sent the same frames, ended alike and serve calls that keep bodies
      alike have the same result. */
  lemma SameFramesSameResult(a: seq<Step>, i: nat, b: seq<Step>, j: nat, c: nat, d: nat)
    requires Run(a).Some? && i < |Run(a).value.ended| && Run(b).Some? && j < |Run(b).value.ended|
    requires ServesCall(a, Run(a).value.ended[i].id, c) && ServesCall(b, Run(b).value.ended[j].id, d)
    requires Arrivals(a)[c].keep == Arrivals(b)[d].keep && Run(a).value.ended[i].cause == Run(b).value.ended[j].cause
    requires SameFrames(FramesOf(a, Run(a).value.ended[i].id), FramesOf(b, Run(b).value.ended[j].id))
    ensures Run(a).value.ended[i].result == Run(b).value.ended[j].result
  {
    var e, f := Run(a).value.ended[i], Run(b).value.ended[j];
    var c' := Demultiplexing(a, i);
    var d' := Demultiplexing(b, j);
    ReplayAlike(Arrivals(a)[c].keep, FramesOf(a, e.id), FramesOf(b, f.id));
  }

  predicate SameFrame(x: Event, y: Event) {
    || (x.Data? && y.Data? && x.data == y.data)
    || (x.Block? && y.Block? && x.fields == y.fields)
  }

  /** The same frames in the same order, on whatever stream. */
  predicate SameFrames(x: seq<Event>, y: seq<Event>) {
    |x| == |y| && forall k :: 0 <= k < |x| ==> SameFrame(x[k], y[k])
  }

  lemma {:induction false} ReplayAlike(keep: bool, x: seq<Event>, y: seq<Event>)
    requires SameFrames(x, y)
    ensures Replay(keep, x) == Replay(keep, y)
    decreases |x|
  {
    if x == [] {
    } else {
      var n := |x| - 1;
      ReplayAlike(keep, x[..n], y[..n]);
      assert SameFrame(x[n], y[n]);
    }
  }

  /** An answer without an error: its body, when its call keeps it, is exactly the DATA of its stream, at most 64 MiB.
      */
  lemma CleanAnswer(steps: seq<Step>, i: nat) returns (c: nat)
    requires Run(steps).Some? && i < |Run(steps).value.ended| && Run(steps).value.ended[i].result.err.None?
    ensures var e := Run(steps).value.ended[i];
            && ServesCall(steps, e.id, c)
            && var own := FramesOf(steps, e.id);
               && e.result.status == FirstFinal(Statuses(own)) && e.result.n == |AllData(own)|
               && (Arrivals(steps)[c].keep ==> e.result.body == AllData(own) && |e.result.body| <= MAX_BODY)
               && (!Arrivals(steps)[c].keep ==> e.result.body == [])
  {
    c := Demultiplexing(steps, i);
    CleanReplay(Arrivals(steps)[c].keep, FramesOf(steps, Run(steps).value.ended[i].id), Run(steps).value.ended[i]);
  }

  lemma CleanReplay(keep: bool, own: seq<Event>, e: Ended)
    requires e.result == Conclude(Replay(keep, own), e.cause) && Described(keep, own, Replay(keep, own))
    requires e.result.err.None?
    ensures e.result.status == FirstFinal(Statuses(own)) && e.result.n == |AllData(own)|
    ensures keep ==> e.result.body == AllData(own) && |e.result.body| <= MAX_BODY
    ensures !keep ==> e.result.body == []
  {
  }

  // ----- admission -----

  predicate HasRoom(held: (nat, nat), open: nat, sent: nat, n: nat, length: nat, limit: int, given: int, initial: int) {
    open + held.0 + n <= limit && sent + held.1 + n * length <= given && length <= initial
  }

  lemma AdmitsExactly(conn: Conn, callers: seq<Caller>, wire: seq<Frame>, granted: nat, lost: nat, top: int,
                      n: nat, length: nat)
    requires SlotsOk(conn, callers, top) && ConnLedgerOk(conn, callers, wire, granted, lost)
    ensures Admit(conn, n, length).BatchAdmitted? <==>
              && conn.err.None?
              && HasRoom(Held(callers), |conn.streams|, DataBytes(wire) + lost, n, length, conn.peerMaxStreams,
                      65535 + granted, conn.peerInitialWindow)
  {
  }

  lemma AdmittedIsHeld(s: System, req: Req, n: nat, keep: bool)
    ensures var t := BatchStarts(s, req, n, keep);
            && |t.callers| == |s.callers| + 1
            && (t.callers[|s.callers|].BatchHeld? <==> Admit(s.conn, n, |req.body|).BatchAdmitted?)
  {
  }

  /** A batch that arrives is admitted exactly when the connection has no error, its streams fit under the limit beside
      those in the map and those reserved, its bodies fit in what the server has given and nobody has taken, and a body
      fits in a new stream's window. */
  ghost predicate AdmittedWhenFits(s: System, req: Req, n: nat, keep: bool, limit: int, given: int, initial: int) {
    var t := BatchStarts(s, req, n, keep);
    && |t.callers| == |s.callers| + 1
    && (t.callers[|s.callers|].BatchHeld? <==>
          && s.conn.err.None?
          && HasRoom(Held(s.callers), |s.conn.streams|, DataBytes(s.wire) + s.lost, n, |req.body|,
                     limit, given, initial))
  }

  lemma AdmittedInState(s: System, req: Req, n: nat, keep: bool, limit: int, given: int, initial: int)
    requires SlotsOk(s.conn, s.callers, s.topLimit) && ConnLedgerOk(s.conn, s.callers, s.wire, s.granted, s.lost)
    requires s.conn.peerMaxStreams == limit && 65535 + s.granted == given && s.conn.peerInitialWindow == initial
    ensures AdmittedWhenFits(s, req, n, keep, limit, given, initial)
  {
    AdmittedIsHeld(s, req, n, keep);
    AdmitsExactly(s.conn, s.callers, s.wire, s.granted, s.lost, s.topLimit, n, |req.body|);
  }

  /** Over every run, the limit, the grants and the initial window being those of its steps. */
  lemma AdmittedExactly(steps: seq<Step>, req: Req, n: nat, keep: bool)
    requires Run(steps).Some?
    ensures AdmittedWhenFits(Run(steps).value, req, n, keep, Limit(steps), 65535 + Granted(steps), Initial(steps))
  {
    LedgersOfRun(steps);
    ServerSaid(steps);
    AdmittedInState(Run(steps).value, req, n, keep, Limit(steps), 65535 + Granted(steps), Initial(steps));
  }

  lemma LedgersOfRun(steps: seq<Step>)
    requires Run(steps).Some?
    ensures var s := Run(steps).value;
            SlotsOk(s.conn, s.callers, s.topLimit) && ConnLedgerOk(s.conn, s.callers, s.wire, s.granted, s.lost)
  {
    Reachable(steps);
  }
}
