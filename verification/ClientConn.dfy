/**
 The connection as the program keeps it: fields updated in place, one method for each critical section, every loop of
 the source a loop here. Each method is proved to run the function of the same section in ConnState.
 */
module ClientConn {
  import opened Bytes
  import opened ConnState
  import Frames
  import Protocol

  class ClientConn {
    var streams: map<nat, Stream>
    var active: int
    var nextID: nat
    var connSendWindow: int
    var peerInitialWindow: int
    var peerMaxStreams: int
    var err: Option<Error>
    var wakes: nat
    var hdrStream: Option<nat>
    var hdrStatus: int
    var hdrEnd: bool
    var recvConsumed: nat

    ghost function State(): Conn
      reads this
    {
      Conn(streams, active, nextID, connSendWindow, peerInitialWindow, peerMaxStreams, err, wakes)
    }

    constructor ()
      ensures State() == INITIAL && hdrStream.None? && recvConsumed == 0
    {
      streams := map[];
      active, nextID := 0, 1;
      connSendWindow, peerInitialWindow, peerMaxStreams := DEFAULT_WINDOW, DEFAULT_WINDOW, 100;
      err, wakes := None, 0;
      hdrStream, hdrStatus, hdrEnd := None, 0, false;
      recvConsumed := 0;
    }

    method FailLocked(e: Error)
      modifies this`err, this`wakes
      ensures State() == Fail(old(State()), e)
    {
      if err == None {
        err := Some(e);
      }
      wakes := wakes + 1;
    }

    /** Do's first section, once round its loop. */
    method AcquireSlot() returns (outcome: SlotOutcome)
      modifies this`active
      ensures outcome == Slot(old(State())) && State() == TakeSlot(old(State()))
    {
      if err.None? && active >= peerMaxStreams {
        return SlotSleep;
      }
      if err.Some? {
        return SlotRefused(err.value);
      }
      active := active + 1;
      return SlotGranted;
    }

    method TakeWindowLocked(id: nat, n: nat) returns (take: nat)
      requires id in streams
      modifies this`connSendWindow, this`streams
      ensures take == Grant(old(State()), old(streams[id].sendWindow), n)
      ensures State() == TakeWindow(old(State()), id, n)
    {
      var s := streams[id];
      take := n;
      take := Min(take, Min(Max(connSendWindow, 0), Max(s.sendWindow, 0)));
      connSendWindow := connSendWindow - take;
      streams := streams[id := s.(sendWindow := s.sendWindow - take)];
    }

    /** writeStream's first section. */
    method NumberStream(owner: Owner, keep: bool, n: nat) returns (id: Option<nat>, take: nat)
      modifies this
      ensures State() == Number(old(State()), owner, keep, n)
      ensures id.Some? <==> old(err).None? && old(nextID) <= Frames.MAX_STREAM_ID
      ensures id.Some? ==> id.value == old(nextID) && take == Grant(old(State()), old(peerInitialWindow), n)
    {
      id, take := None, 0;
      if err.Some? {
        active := active - 1;
        return;
      }
      if nextID > Frames.MAX_STREAM_ID {
        active := active - 1;
        FailLocked(StreamsExhausted);
        return;
      }
      id := Some(nextID);
      nextID := Frames.Wrap(nextID + 2);
      streams := streams[id.value := Stream(owner, keep, peerInitialWindow, FRESH)];
      take := TakeWindowLocked(id.value, n);
    }

    /** The section inside writeStream's loop. */
    method MoreWindow(id: nat, n: nat) returns (outcome: WindowOutcome)
      modifies this`connSendWindow, this`streams
      ensures outcome == Window(old(State()), id, n) && State() == TakeMore(old(State()), id, n)
    {
      if err.None? && id in streams && Min(connSendWindow, streams[id].sendWindow) <= 0 {
        return WindowSleep;
      }
      if err.Some? || id !in streams {
        return WindowGone;
      }
      var take := TakeWindowLocked(id, n);
      return WindowTaken(take);
    }

    /** WriteBatch's first section. */
    method ReserveBatch(n: nat, bodyLen: nat) returns (outcome: BatchOutcome)
      modifies this`active, this`connSendWindow
      ensures outcome == Admit(old(State()), n, bodyLen) && State() == Reserve(old(State()), n, bodyLen)
    {
      if err.Some? {
        return BatchRefused(err.value);
      }
      if active + n > peerMaxStreams || connSendWindow < n * bodyLen || peerInitialWindow < bodyLen {
        return BatchFull;
      }
      active := active + n;
      connSendWindow := connSendWindow - n * bodyLen;
      return BatchAdmitted;
    }

    /** WriteBatch's second section: number and open the streams, one round of the loop each. */
    method OpenStreams(n: nat, bodyLen: nat, keep: bool) returns (first: Option<nat>)
      modifies this
      ensures State() == OpenBatch(old(State()), n, bodyLen, keep)
      ensures first == if Opens(old(State()), n) then Some(old(nextID)) else None
    {
      if err.Some? || Frames.Wrap(nextID + 2 * (n - 1)) > Frames.MAX_STREAM_ID {
        if err.None? {
          FailLocked(StreamsExhausted);
        }
        active := active - n;
        return None;
      }
      var start := nextID;
      nextID := Frames.Wrap(nextID + 2 * n);
      var i := 0;
      while i < n
        invariant 0 <= i <= n
        invariant State() == old(State()).(nextID := Frames.Wrap(start + 2 * n),
            streams := AddStreams(old(streams), start, i,
                                  Stream(ByBatch, keep, old(peerInitialWindow) - bodyLen, FRESH)))
      {
        var id := Frames.Wrap(start + 2 * i);
        streams := streams[id := Stream(ByBatch, keep, peerInitialWindow - bodyLen, FRESH)];
        i := i + 1;
      }
      return Some(start);
    }

    /** take: the stream removed, or None when it is gone already. */
    method TakeStream(id: nat) returns (s: Option<Stream>)
      modifies this`streams, this`active, this`wakes
      ensures State() == Remove(old(State()), id)
      ensures s == if id in old(streams) then Some(old(streams)[id]) else None
    {
      s := None;
      if id in streams {
        s := Some(streams[id]);
        streams := streams - {id};
        active := active - 1;
        wakes := wakes + 1;
      }
    }

    /** The loop over the open streams when the initial window changes. */
    method ShiftStreams(delta: int)
      modifies this`streams
      ensures streams == Shift(old(streams), delta)
    {
      var todo := streams.Keys;
      while todo != {}
        invariant todo <= streams.Keys == old(streams).Keys
        invariant forall id :: id in todo ==> streams[id] == old(streams)[id]
        invariant forall id :: id in streams && id !in todo ==>
            streams[id] == old(streams)[id].(sendWindow := old(streams)[id].sendWindow + delta)
        decreases todo
      {
        var id :| id in todo;
        streams := streams[id := streams[id].(sendWindow := streams[id].sendWindow + delta)];
        todo := todo - {id};
      }
    }

    method OnSettings(ss: seq<Setting>)
      modifies this
      ensures State() == Settings(old(State()), ss)
    {
      var i := 0;
      while i < |ss|
        invariant 0 <= i <= |ss|
        invariant State() == ApplySettings(old(State()), ss[..i])
      {
        assert ss[..i + 1][..i] == ss[..i];
        match ss[i] {
          case InitialWindowSize(v) =>
            var delta := v - peerInitialWindow;
            peerInitialWindow := v;
            ShiftStreams(delta);
          case MaxConcurrentStreams(v) =>
            peerMaxStreams := Min(v, STREAM_CAP);
          case OtherSetting =>
        }
        i := i + 1;
      }
      assert ss[..i] == ss;
      wakes := wakes + 1;
    }

    method OnWindowUpdate(id: nat, increment: nat)
      modifies this`connSendWindow, this`streams, this`wakes
      ensures State() == AddWindow(old(State()), id, increment)
    {
      if id == 0 {
        connSendWindow := connSendWindow + increment;
      } else if id in streams {
        streams := streams[id := streams[id].(sendWindow := streams[id].sendWindow + increment)];
      }
      wakes := wakes + 1;
    }

    /** GOAWAY: every stream above last leaves the map, whichever order the map is walked in, and is handed back
        once. */
    method OnGoAway(last: nat, code: nat) returns (refused: seq<nat>)
      modifies this
      ensures State() == Away(old(State()), last, code)
      ensures (forall i, j :: 0 <= i < j < |refused| ==> refused[i] != refused[j])
      ensures forall id :: id in refused <==> id in Above(old(streams), last)
    {
      FailLocked(GoAway(code));
      refused := [];
      ghost var gone := {};
      var todo := streams.Keys;
      while todo != {}
        invariant todo !! gone && todo <= old(streams).Keys
        invariant |refused| == |gone| && forall id :: id in refused <==> id in gone
        invariant gone <= Above(old(streams), last)
        invariant forall id :: id in old(streams) ==> id in todo || id in gone || id <= last
        invariant forall i, j :: 0 <= i < j < |refused| ==> refused[i] != refused[j]
        invariant State() == Fail(old(State()), GoAway(code)).(streams := old(streams) - gone)
        decreases todo
      {
        var id :| id in todo;
        todo := todo - {id};
        if id > last {
          refused := refused + [id];
          streams := streams - {id};
          gone := gone + {id};
        }
      }
      assert gone == Above(old(streams), last);
      active := active - |refused|;
    }

    /** readLoop's last section: whatever is still open leaves the map. */
    method ExitReader(e: Error) returns (left: map<nat, Stream>)
      modifies this
      ensures State() == Exit(old(State()), e) && left == old(streams)
    {
      FailLocked(e);
      left := streams;
      streams := map[];
      active := active - |left|;
    }

    /** onData's window accounting: the increment of the WINDOW_UPDATE it writes, if any. A write that fails, ok being
        false, leaves the count as it was. */
    method CountReceived(length: nat, ok: bool) returns (increment: Option<nat>)
      modifies this`recvConsumed
      ensures increment ==
              if old(recvConsumed) + length < CONN_WINDOW / 2 then None else Some(old(recvConsumed) + length)
      ensures increment.Some? && ok ==> recvConsumed == 0
      ensures increment.None? || !ok ==> recvConsumed == old(recvConsumed) + length
      ensures forall s: Protocol.System, id, data, ends :: s.reader.recvConsumed == old(recvConsumed) ==>
                recvConsumed == Protocol.AccountsData(s, id, length, data, ends, ok).reader.recvConsumed
    {
      recvConsumed := recvConsumed + length;
      increment := None;
      if recvConsumed >= CONN_WINDOW / 2 {
        increment := Some(recvConsumed);
        if !ok {
          return;
        }
        recvConsumed := 0;
      }
    }

    /** onData past the window accounting: the octets go to the stream, which ends when the frame says so. */
    method DeliverData(id: nat, data: seq<Byte>, ends: bool) returns (ended: Option<Stream>)
      modifies this`streams, this`active, this`wakes
      ensures id !in old(streams) ==> State() == old(State()) && ended.None?
      ensures id in old(streams) ==>
          var c := SetResponse(old(State()), id, ConnState.OnData(old(streams)[id].keep, old(streams)[id].resp, data));
          && State() == (if ends then Remove(c, id) else c)
          && ended == (if ends then Some(c.streams[id]) else None)
    {
      ended := None;
      if id !in streams {
        return;
      }
      var s := streams[id];
      var r := s.resp.(n := s.resp.n + |data|);
      if s.keep {
        if r.n > MAX_BODY {
          if r.err.None? {
            r := r.(err := Some(BodyTooLarge));
          }
        } else {
          r := r.(body := r.body + data);
        }
      }
      streams := streams[id := s.(resp := r)];
      if ends {
        ended := TakeStream(id);
      }
    }

    method StartHeaders(id: nat, endStream: bool)
      modifies this`hdrStream, this`hdrStatus, this`hdrEnd
      ensures forall s: Protocol.System :: s.conn == State() ==>
                var r := Protocol.StartsBlock(s, id, endStream).reader;
                hdrStream == r.hdrStream && hdrStatus == r.hdrStatus && hdrEnd == r.hdrEnd
    {
      hdrStream := if id in streams then Some(id) else None;
      hdrStatus := 0;
      hdrEnd := endStream;
    }

    /** One fragment of a header block: statuses are the :status values the decoder reports in it. */
    method OnHeaderBlock(statuses: seq<int>, ended: bool) returns (over: Option<Stream>)
      requires hdrStream.Some? ==> hdrStream.value in streams
      modifies this
      ensures hdrStatus == LastStatus(old(hdrStatus), statuses)
      ensures hdrEnd == old(hdrEnd)
      ensures !ended ==> State() == old(State()) && hdrStream == old(hdrStream) && over.None?
      ensures ended ==> hdrStream.None?
      ensures ended && old(hdrStream).None? ==> State() == old(State()) && over.None?
      ensures ended && old(hdrStream).Some? ==>
          var id := old(hdrStream).value;
          var c := SetResponse(old(State()), id, OnBlock(old(streams)[id].resp, LastStatus(old(hdrStatus), statuses)));
          && State() == (if old(hdrEnd) then Remove(c, id) else c)
          && over == (if old(hdrEnd) then Some(c.streams[id]) else None)
    {
      over := None;
      var i := 0;
      while i < |statuses|
        invariant 0 <= i <= |statuses|
        invariant hdrStatus == LastStatus(old(hdrStatus), statuses[..i])
        invariant State() == old(State()) && hdrEnd == old(hdrEnd) && hdrStream == old(hdrStream)
      {
        hdrStatus := statuses[i];
        i := i + 1;
      }
      assert statuses[..i] == statuses;
      if !ended {
        return;
      }
      var s := hdrStream;
      hdrStream := None;
      if s.None? {
        return;
      }
      var id := s.value;
      var r := streams[id].resp;
      if hdrStatus >= 200 && r.status == 0 {
        r := r.(status := hdrStatus);
      } else if 100 <= hdrStatus < 200 {
      } else if hdrStatus == 0 && r.status == 0 && r.err.None? {
        r := r.(err := Some(NoStatus));
      }
      streams := streams[id := streams[id].(resp := r)];
      if hdrEnd {
        over := TakeStream(id);
      }
    }
  }
}
