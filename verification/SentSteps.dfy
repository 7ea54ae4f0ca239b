/** Every step keeps the account of what each caller has sent. */
module SentSteps {
  import opened Bytes
  import opened Frames
  import opened Requests
  import opened Segments
  import opened ConnState
  import opened Protocol
  import opened Slots
  import opened Wire
  import opened Results
  import opened Invariant
  import opened Runs
  import opened History
  import opened Sent

  // ----- steps that write nothing and take nothing -----

  /** Caller c moves to x, and the map opens nothing. */
  lemma QuietMove(v: View, callers: seq<Caller>, wmu: Option<nat>, conn': Conn, c: nat, x: Caller)
    requires AccountsOk(v, callers) && BatchesOk(v, callers, wmu) && c < |callers| && !callers[c].BatchNumbered?
    requires ErrStays(v.conn, conn') && (forall id :: id in v.book && id in conn'.streams ==> id in v.conn.streams)
    requires Account(v.(conn := conn'), x)
    ensures AccountsOk(v.(conn := conn'), callers[c := x]) && BatchesOk(v.(conn := conn'), callers[c := x], wmu)
  {
    var v' := v.(conn := conn');
    forall k, id | 0 <= k < |callers| && OnStream(callers[k], id) ensures Same(v, v', id) {
      OnStreamOpened(v, callers, k, id);
    }
    AccountsMove(v, callers, v', c, x);
    BatchesSame(v, callers, wmu, v', callers[c := x], wmu);
  }

  lemma QuietJoin(v: View, callers: seq<Caller>, wmu: Option<nat>, conn': Conn, x: Caller)
    requires AccountsOk(v, callers) && BatchesOk(v, callers, wmu) && Account(v.(conn := conn'), x)
    requires ErrStays(v.conn, conn') && conn'.streams == v.conn.streams
    ensures AccountsOk(v.(conn := conn'), callers + [x]) && BatchesOk(v.(conn := conn'), callers + [x], wmu)
  {
    var v', callers' := v.(conn := conn'), callers + [x];
    forall k | 0 <= k < |callers'| ensures Account(v', callers'[k]) {
      if k < |callers| {
        forall id | OnStream(callers[k], id) ensures Same(v, v', id) {
          OnStreamOpened(v, callers, k, id);
        }
        AccountSame(v, v', callers[k]);
      }
    }
    BatchesSame(v, callers, wmu, v', callers', wmu);
  }

  /** The reader: the map shrinks, entries keep what was taken, and at most a control frame goes out. */
  lemma ReaderMove(v: View, callers: seq<Caller>, wmu: Option<nat>, v': View, fs: seq<Frame>)
    requires AccountsOk(v, callers) && BatchesOk(v, callers, wmu) && 0 !in v.book
    requires ErrStays(v.conn, v'.conn) && (forall id :: id in v'.conn.streams ==> id in v.conn.streams)
    requires v'.failed == v.failed && v'.wire == v.wire + fs && forall f :: f in fs ==> f.id == 0
    requires v'.book.Keys == v.book.Keys && forall id :: id in v.book ==> TakenAlike(v.book[id], v'.book[id])
    ensures AccountsOk(v', callers) && BatchesOk(v', callers, wmu)
  {
    forall id | id in v.book ensures Same(v, v', id) {
      OnSnoc(v.wire, fs, 0, id);
    }
    forall k, id | 0 <= k < |callers| && OnStream(callers[k], id) ensures Same(v, v', id) {
      OnStreamOpened(v, callers, k, id);
    }
    AccountsSame(v, callers, v');
    BatchesSame(v, callers, wmu, v', callers, wmu);
  }

  predicate TakenAlike(e: Entry, e': Entry) {
    e'.taken == e.taken && e'.req == e.req && e'.owner == e.owner && e'.keep == e.keep
  }

  // ----- a Do on its own stream -----

  /** Nobody else is on the stream of caller c. */
  lemma OthersElsewhere(book: map<nat, Entry>, callers: seq<Caller>, wire: seq<Frame>, c: nat, id: nat)
    requires OwnersOk(book, callers) && ProgressOk(wire, book, callers) && id in book && book[id].owner == ByDo(c)
    ensures forall k, j :: 0 <= k < |callers| && k != c && OnStream(callers[k], j) ==> j != id
  {
    forall k, j | 0 <= k < |callers| && k != c && OnStream(callers[k], j) ensures j != id {
      assert Progress(wire, book, k, callers[k]);
    }
  }

  /** Caller c moves to x, and only its own stream changes. */
  lemma OwnMove(v: View, callers: seq<Caller>, wmu: Option<nat>, v': View, c: nat, x: Caller, id: nat,
                wmu': Option<nat>)
    requires AccountsOk(v, callers) && BatchesOk(v, callers, wmu) && c < |callers| && !callers[c].BatchNumbered?
    requires OwnersOk(v.book, callers) && ProgressOk(v.wire, v.book, callers)
    requires id in v.book && v.book[id].owner == ByDo(c) && (wmu' == wmu || wmu == Some(c))
    requires ErrStays(v.conn, v'.conn) && v'.book.Keys == v.book.Keys && v'.book[id].owner == v.book[id].owner
    requires forall j :: j in v.book && j != id ==> Same(v, v', j)
    requires Account(v', x)
    ensures AccountsOk(v', callers[c := x]) && BatchesOk(v', callers[c := x], wmu')
  {
    OthersElsewhere(v.book, callers, v.wire, c, id);
    forall k, j | 0 <= k < |callers| && k != c && OnStream(callers[k], j) ensures Same(v, v', j) {
      OnStreamOpened(v, callers, k, j);
    }
    AccountsMove(v, callers, v', c, x);
    forall j | j in v'.book && v'.book[j].owner.ByBatch? ensures Same(v, v', j) {
      assert j in v.book.Keys;
    }
    BatchesSame(v, callers, wmu, v', callers[c := x], wmu');
  }

  lemma SameGrown(v: View, wire': seq<Frame>, failed': set<nat>, id: nat, fs: seq<Frame>)
    requires wire' == v.wire + fs && (forall f :: f in fs ==> f.id == id)
    requires failed' == v.failed || failed' == v.failed + {id}
    ensures forall j :: j in v.book && j != id ==> Same(v, v.(wire := wire', failed := failed'), j)
  {
    Grows(v.wire, id, fs);
  }

  /** A write on its own stream, or the failure of one. */
  lemma OwnWrite(v: View, callers: seq<Caller>, wmu: Option<nat>, c: nat, x: Caller, id: nat, wmu': Option<nat>,
                 fs: seq<Frame>, failed': set<nat>)
    requires AccountsOk(v, callers) && BatchesOk(v, callers, wmu) && c < |callers| && !callers[c].BatchNumbered?
    requires OwnersOk(v.book, callers) && ProgressOk(v.wire, v.book, callers)
    requires id in v.book && v.book[id].owner == ByDo(c) && (wmu' == wmu || wmu == Some(c))
    requires (forall f :: f in fs ==> f.id == id) && (failed' == v.failed || failed' == v.failed + {id})
    requires Account(v.(wire := v.wire + fs, failed := failed'), x)
    ensures var v' := v.(wire := v.wire + fs, failed := failed');
            AccountsOk(v', callers[c := x]) && BatchesOk(v', callers[c := x], wmu')
  {
    SameGrown(v, v.wire + fs, failed', id, fs);
    OwnMove(v, callers, wmu, v.(wire := v.wire + fs, failed := failed'), c, x, id, wmu');
  }

  lemma FirstWritten(wire: seq<Frame>, id: nat, block: seq<Byte>, body: seq<Byte>, take: nat)
    requires On(wire, id) == [] && take <= |body|
    ensures var fs := FirstFrames(id, block, body, take);
            && (forall f :: f in fs ==> f.id == id)
            && On(wire + fs, id) == fs != [] && Payload(fs) == body[..take]
  {
    var fs := FirstFrames(id, block, body, take);
    FirstFramesCarry(id, block, body, take);
    OnSnoc(wire, fs, id, id);
    assert [] + fs == fs;
  }

  lemma FirstNotControl(id: nat, block: seq<Byte>, body: seq<Byte>, take: nat)
    requires take <= |body|
    ensures forall f :: f in FirstFrames(id, block, body, take) ==> !Control(f)
  {
  }

  lemma FirstWriteAccount(v: View, c: nat, w: Caller, x: Caller, wire': seq<Frame>)
    requires w.Numbered? && Progress(v.wire, v.book, c, w) && Account(v, w)
    requires x == if w.take == |w.req.body| then AwaitDone(w.id) else Sending(w.id, w.req, w.take, None)
    requires On(wire', w.id) != [] && Payload(On(wire', w.id)) == w.req.body[..w.take]
    ensures Account(v.(wire := wire'), x)
  {
    assert w.take == |w.req.body| ==> w.req.body[..w.take] == w.req.body;
  }

  lemma FailedWriteAccount(v: View, c: nat, w: Caller)
    requires w.Numbered? || w.Taken?
    requires Progress(v.wire, v.book, c, w) && Account(v, w)
    ensures Account(v.(wire := v.wire + [], failed := v.failed + {w.id}), AwaitDone(w.id))
  {
    assert v.wire + [] == v.wire;
  }

  lemma MoreWriteAccount(v: View, c: nat, w: Caller, x: Caller)
    requires w.Taken? && Progress(v.wire, v.book, c, w) && Account(v, w)
    requires x == if w.sent + w.take == |w.req.body| then AwaitDone(w.id)
                  else Sending(w.id, w.req, w.sent + w.take, None)
    ensures Account(v.(wire := v.wire + MoreFrames(w.id, w.req.body, w.sent, w.take)), x)
  {
    var fs := MoreFrames(w.id, w.req.body, w.sent, w.take);
    CarriesMore(On(v.wire, w.id), w.id, w.req.block, w.req.body, w.sent, w.take);
    OnSnoc(v.wire, fs, w.id, w.id);
    assert w.sent + w.take == |w.req.body| ==> w.req.body[..w.sent + w.take] == w.req.body;
  }

  // ----- Do's steps -----

  lemma ChecksSlotSent(s: System, failed: set<nat>, c: nat)
    requires SentOk(s, failed) && Enabled(s, DoChecksSlot(c))
    ensures SentOk(ChecksSlot(s, c), failed)
  {
    var t := ChecksSlot(s, c);
    QuietMove(ViewOf(s, failed), s.callers, s.wmu, t.conn, c, t.callers[c]);
  }

  lemma NumberedSame(v: View, callers: seq<Caller>, c: nat, id: nat, e: Entry, conn': Conn, x: Caller)
    requires AccountsOk(v, callers) && BatchesOk(v, callers, None) && c < |callers| && ErrStays(v.conn, conn')
    requires id !in v.book && e.owner.ByDo? && v.failed <= v.book.Keys && x == Numbered(id, e.req, e.taken)
    requires forall j :: j in v.book && j in conn'.streams ==> j in v.conn.streams
    ensures var v' := v.(conn := conn', book := v.book[id := e]);
            AccountsOk(v', callers[c := x]) && BatchesOk(v', callers[c := x], Some(c))
  {
    var v' := v.(conn := conn', book := v.book[id := e]);
    forall k, j | 0 <= k < |callers| && OnStream(callers[k], j) ensures Same(v, v', j) {
      OnStreamOpened(v, callers, k, j);
    }
    assert id !in v.failed;
    AccountsMove(v, callers, v', c, x);
    BatchesSame(v, callers, None, v', callers[c := x], Some(c));
  }

  lemma NumbersSent(s: System, failed: set<nat>, c: nat)
    requires SentOk(s, failed) && IdsOk(s.conn, s.book) && Enabled(s, DoNumbers(c))
    ensures SentOk(Numbers(s, c), failed)
  {
    var t, id := Numbers(s, c), s.conn.nextID;
    ZeroNeverOpened(s.conn, s.book);
    if s.conn.err.Some? || id > MAX_STREAM_ID {
      QuietMove(ViewOf(s, failed), s.callers, s.wmu, t.conn, c, t.callers[c]);
    } else {
      NumberedSame(ViewOf(s, failed), s.callers, c, id, t.book[id], t.conn, t.callers[c]);
    }
  }

  lemma WritesSent(s: System, failed: set<nat>, c: nat, ok: bool)
    requires SentOk(s, failed) && Enabled(s, DoWrites(c, ok))
    requires OwnersOk(s.book, s.callers) && ProgressOk(s.wire, s.book, s.callers) && LockOk(s.callers, s.wmu)
    ensures SentOk(Writes(s, c, ok), failed + FailedBy(s, DoWrites(c, ok)))
  {
    var t, w, v := Writes(s, c, ok), s.callers[c], ViewOf(s, failed);
    assert Account(v, w) && Progress(s.wire, s.book, c, w);
    if ok {
      var fs := FirstFrames(w.id, w.req.block, w.req.body, w.take);
      FirstWritten(s.wire, w.id, w.req.block, w.req.body, w.take);
      FirstNotControl(w.id, w.req.block, w.req.body, w.take);
      FirstWriteAccount(v, c, w, t.callers[c], t.wire);
      OwnWrite(v, s.callers, s.wmu, c, t.callers[c], w.id, None, fs, failed);
      ControlsMore(s.wire, fs);
      assert failed + {} == failed;
    } else {
      FailedWriteAccount(v, c, w);
      OwnWrite(v, s.callers, s.wmu, c, t.callers[c], w.id, None, [], failed + {w.id});
      assert s.wire + [] == s.wire;
    }
  }

  lemma TakenAccount(v: View, callers: seq<Caller>, wmu: Option<nat>, c: nat, v': View, take: nat, x: Caller)
    requires AccountsOk(v, callers) && BatchesOk(v, callers, wmu) && c < |callers| && callers[c].Sending?
    requires OwnersOk(v.book, callers) && ProgressOk(v.wire, v.book, callers)
    requires ErrStays(v.conn, v'.conn) && (forall j :: j in v'.conn.streams ==> j in v.conn.streams)
    requires x == Taken(callers[c].id, callers[c].req, callers[c].sent, take) && callers[c].id in v.book
    requires v'.wire == v.wire && v'.failed == v.failed
    requires var e := v.book[callers[c].id]; v'.book == v.book[callers[c].id := e.(taken := e.taken + take)]
    ensures AccountsOk(v', callers[c := x]) && BatchesOk(v', callers[c := x], wmu)
  {
    assert Account(v, callers[c]) && Progress(v.wire, v.book, c, callers[c]);
    OwnMove(v, callers, wmu, v', c, x, callers[c].id, wmu);
  }

  /** The send loop waits, or gives up: everything taken is on the wire. */
  lemma WaitingAccount(v: View, c: nat, w: Caller, x: Caller)
    requires w.Sending? && Progress(v.wire, v.book, c, w) && Account(v, w)
    requires x.Sending? ==> x.id == w.id && x.sent == w.sent
    requires x == AwaitDone(w.id) || x.Sending?
    requires x.AwaitDone? ==> v.conn.err.Some? || w.id !in v.conn.streams
    ensures Account(v, x)
  {
  }

  lemma TakesSent(s: System, failed: set<nat>, c: nat, t: System)
    requires SentOk(s, failed) && Enabled(s, DoChecksWindow(c)) && t == ChecksWindow(s, c) && t.callers[c].Taken?
    requires OwnersOk(s.book, s.callers) && ProgressOk(s.wire, s.book, s.callers)
    ensures SentOk(t, failed)
  {
    assert Account(ViewOf(s, failed), s.callers[c]);
    TakenAccount(ViewOf(s, failed), s.callers, s.wmu, c, ViewOf(t, failed), t.callers[c].take, t.callers[c]);
  }

  lemma ChecksWindowSent(s: System, failed: set<nat>, c: nat)
    requires SentOk(s, failed) && Enabled(s, DoChecksWindow(c))
    requires OwnersOk(s.book, s.callers) && ProgressOk(s.wire, s.book, s.callers)
    ensures SentOk(ChecksWindow(s, c), failed)
  {
    var t, v := ChecksWindow(s, c), ViewOf(s, failed);
    if t.callers[c].Taken? {
      TakesSent(s, failed, c, t);
    } else {
      assert Account(v, s.callers[c]) && Progress(s.wire, s.book, c, s.callers[c]);
      WaitingAccount(v, c, s.callers[c], t.callers[c]);
      QuietMove(v, s.callers, s.wmu, s.conn, c, t.callers[c]);
    }
  }

  lemma WritesDataSent(s: System, failed: set<nat>, c: nat, ok: bool)
    requires SentOk(s, failed) && Enabled(s, DoWritesData(c, ok))
    requires OwnersOk(s.book, s.callers) && ProgressOk(s.wire, s.book, s.callers)
    ensures SentOk(WritesData(s, c, ok), failed + FailedBy(s, DoWritesData(c, ok)))
  {
    var t, w, v := WritesData(s, c, ok), s.callers[c], ViewOf(s, failed);
    assert Account(v, w) && Progress(s.wire, s.book, c, w);
    if ok {
      var fs := MoreFrames(w.id, w.req.body, w.sent, w.take);
      MoreWriteAccount(v, c, w, t.callers[c]);
      OwnWrite(v, s.callers, s.wmu, c, t.callers[c], w.id, s.wmu, fs, failed);
      ControlsMore(s.wire, fs);
      assert failed + {} == failed;
    } else {
      FailedWriteAccount(v, c, w);
      OwnWrite(v, s.callers, s.wmu, c, t.callers[c], w.id, s.wmu, [], failed + {w.id});
      assert s.wire + [] == s.wire;
    }
  }

  lemma ReceivesSent(s: System, failed: set<nat>, c: nat, i: nat)
    requires SentOk(s, failed) && Enabled(s, DoReceives(c, i))
    ensures SentOk(Next(s, DoReceives(c, i)), failed)
  {
    var x := Returned(Some(s.callers[c].id), s.ended[i].result);
    assert Account(ViewOf(s, failed), s.callers[c]);
    QuietMove(ViewOf(s, failed), s.callers, s.wmu, s.conn, c, x);
  }

  // ----- WriteBatch's steps -----

  lemma BatchOpened(v: View, callers: seq<Caller>, c: nat, first: nat, n: nat, e: Entry, conn': Conn, x: Caller)
    requires AccountsOk(v, callers) && BatchesOk(v, callers, None) && c < |callers| && ErrStays(v.conn, conn')
    requires CarryOk(v.wire, v.book) && v.failed <= v.book.Keys
    requires first % 2 == 1 && first + 2 * n <= MAX_STREAM_ID + 2 && forall id :: id in v.book ==> id < first
    requires e.owner.ByBatch? && e.taken == |e.req.body| && x == BatchNumbered(first, e.req, n)
    requires forall j :: j in v.book && j in conn'.streams ==> j in v.conn.streams
    ensures var v' := v.(conn := conn', book := AddEntries(v.book, first, n, e));
            AccountsOk(v', callers[c := x]) && BatchesOk(v', callers[c := x], Some(c))
  {
    AddEntriesMap(v.book, first, n, e);
    var v', callers' := v.(conn := conn', book := AddEntries(v.book, first, n, e)), callers[c := x];
    forall k, j | 0 <= k < |callers| && OnStream(callers[k], j) ensures Same(v, v', j) {
      OnStreamOpened(v, callers, k, j);
    }
    assert Account(v', x) by {
      forall id | InBatch(id, first, n) ensures id in v'.book && id !in v'.failed {
        assert id !in v.book;
      }
    }
    AccountsMove(v, callers, v', c, x);
    forall id | id in v'.book && v'.book[id].owner.ByBatch? ensures BatchStream(v', callers', Some(c), id) {
      if id in v.book {
        assert BatchStream(v, callers, None, id);
      } else {
        NothingYet(v.wire, v.book, id);
      }
    }
  }

  lemma BatchOpensSent(s: System, failed: set<nat>, c: nat)
    requires SentOk(s, failed) && Counts(s) && CarryOk(s.wire, s.book) && Enabled(s, BatchNumbers(c))
    ensures SentOk(BatchOpens(s, c), failed)
  {
    var t, w, v := BatchOpens(s, c), s.callers[c], ViewOf(s, failed);
    BatchBound(s.conn, s.callers, s.topLimit, c);
    if Opens(s.conn, w.n) {
      var e := Entry(ByBatch, w.req, w.keep, |w.req.body|, 0);
      OpensAbove(s.conn, s.book, w.n, |w.req.body|, w.keep);
      BookGrows(s.book, s.conn.nextID, w.n, e);
      BatchOpened(v, s.callers, c, s.conn.nextID, w.n, e, t.conn, t.callers[c]);
    } else {
      QuietMove(v, s.callers, s.wmu, t.conn, c, t.callers[c]);
    }
  }

  lemma RepeatWhole(wire: seq<Frame>, block: seq<Byte>, body: seq<Byte>, first: nat, n: nat, id: nat)
    requires first % 2 == 1 && first + 2 * n <= MAX_STREAM_ID + 2 && InBatch(id, first, n) && On(wire, id) == []
    ensures var fs := On(wire + RepeatFrames(block, body, first, n), id); fs != [] && Payload(fs) == body
  {
    var fs := RequestFrames(block, body, id);
    RepeatGrows(wire, block, body, first, n, id);
    assert [] + fs == fs;
    FirstFramesCarry(id, block, body, |body|);
    assert body[..|body|] == body;
  }

  lemma BatchWroteStream(v: View, callers: seq<Caller>, c: nat, w: Caller, callers': seq<Caller>, id: nat)
    requires BatchesOk(v, callers, Some(c)) && c < |callers| && w == callers[c] && w.BatchNumbered?
    requires Progress(v.wire, v.book, c, w) && Account(v, w) && id in v.book && v.book[id].owner.ByBatch?
    ensures BatchStream(v.(wire := v.wire + RepeatFrames(w.req.block, w.req.body, w.first, w.n)), callers', None, id)
  {
    assert BatchStream(v, callers, Some(c), id);
    if InBatch(id, w.first, w.n) {
      assert Wire.Opened(v.book, id, ByBatch, w.req);
      RepeatWhole(v.wire, w.req.block, w.req.body, w.first, w.n, id);
    } else {
      RepeatGrows(v.wire, w.req.block, w.req.body, w.first, w.n, id);
    }
  }

  lemma BatchLostStream(v: View, callers: seq<Caller>, c: nat, w: Caller, callers': seq<Caller>, id: nat)
    requires BatchesOk(v, callers, Some(c)) && c < |callers| && w == callers[c] && w.BatchNumbered?
    requires Progress(v.wire, v.book, c, w) && id in v.book && v.book[id].owner.ByBatch?
    ensures BatchStream(v.(failed := v.failed + BatchIds(w.first, w.n)), callers', None, id)
  {
    assert BatchStream(v, callers, Some(c), id);
  }

  /** The lock holder's batch is written, or lost: its streams are nobody else's. */
  lemma BatchOthers(v: View, callers: seq<Caller>, c: nat, w: Caller, v': View)
    requires AccountsOk(v, callers) && c < |callers| && w == callers[c] && w.BatchNumbered?
    requires ProgressOk(v.wire, v.book, callers) && OwnersOk(v.book, callers) && LockOk(callers, Some(c))
    requires v'.conn == v.conn && v'.book == v.book
    requires forall id :: id in v.book && !InBatch(id, w.first, w.n) ==> Same(v, v', id)
    ensures forall k, id :: 0 <= k < |callers| && k != c && OnStream(callers[k], id) ==> Same(v, v', id)
  {
    assert Progress(v.wire, v.book, c, w);
    forall k, id | 0 <= k < |callers| && k != c && OnStream(callers[k], id) ensures Same(v, v', id) {
      OnStreamOpened(v, callers, k, id);
      assert !Locks(callers[k]);
      assert InBatch(id, w.first, w.n) ==> Wire.Opened(v.book, id, ByBatch, w.req);
    }
  }

  lemma BatchWrittenView(v: View, callers: seq<Caller>, c: nat, w: Caller, ok: bool, x: Caller, v': View)
    requires AccountsOk(v, callers) && BatchesOk(v, callers, Some(c)) && c < |callers|
    requires w == callers[c] && w.BatchNumbered? && x.BatchReturned?
    requires ProgressOk(v.wire, v.book, callers) && OwnersOk(v.book, callers) && LockOk(callers, Some(c))
    requires v' == if ok then v.(wire := v.wire + RepeatFrames(w.req.block, w.req.body, w.first, w.n))
                   else v.(failed := v.failed + BatchIds(w.first, w.n))
    ensures AccountsOk(v', callers[c := x]) && BatchesOk(v', callers[c := x], None)
  {
    assert Progress(v.wire, v.book, c, w) && Account(v, w);
    forall id | id in v.book && !InBatch(id, w.first, w.n) ensures Same(v, v', id) {
      RepeatGrows(v.wire, w.req.block, w.req.body, w.first, w.n, id);
    }
    BatchOthers(v, callers, c, w, v');
    AccountsMove(v, callers, v', c, x);
    forall id | id in v'.book && v'.book[id].owner.ByBatch? ensures BatchStream(v', callers[c := x], None, id) {
      if ok {
        BatchWroteStream(v, callers, c, w, callers[c := x], id);
      } else {
        BatchLostStream(v, callers, c, w, callers[c := x], id);
      }
    }
  }

  lemma BatchWrittenSent(s: System, failed: set<nat>, c: nat, ok: bool)
    requires SentOk(s, failed) && Enabled(s, BatchWrites(c, ok)) && Writing(s) && OwnersOk(s.book, s.callers)
    ensures SentOk(BatchWritten(s, c, ok), failed + FailedBy(s, BatchWrites(c, ok)))
  {
    var t, w, v := BatchWritten(s, c, ok), s.callers[c], ViewOf(s, failed);
    assert Progress(s.wire, s.book, c, w);
    BatchWrittenView(v, s.callers, c, w, ok, t.callers[c], ViewOf(t, failed + FailedBy(s, BatchWrites(c, ok))));
    if ok {
      RepeatTracked(w.req.block, w.req.body, w.first, w.n);
      ControlsMore(s.wire, RepeatFrames(w.req.block, w.req.body, w.first, w.n));
    } else {
      forall id | id in BatchIds(w.first, w.n) ensures id in s.book {
        assert Wire.Opened(s.book, id, ByBatch, w.req);
      }
    }
  }

  // ----- the reader's steps -----

  ghost predicate Steady(s: System, t: System) {
    && t.callers == s.callers && t.wmu == s.wmu && ErrStays(s.conn, t.conn)
    && (forall id :: id in t.conn.streams ==> id in s.conn.streams)
    && t.book.Keys == s.book.Keys && forall id :: id in s.book ==> TakenAlike(s.book[id], t.book[id])
  }

  lemma ReaderSteady(s: System, st: Step)
    requires Enabled(s, st) && !CallerStep(st) && SlotsOk(s.conn, s.callers, s.topLimit)
    ensures Steady(s, Next(s, st))
  {
    if st.ReadSettings? {
      SettingsFrame(s.conn, st.ss, s.topLimit);
      assert forall id :: id in Next(s, st).conn.streams ==> id in ApplySettings(s.conn, st.ss).streams.Keys;
    } else {
      OtherSteady(s, st);
    }
  }

  lemma OtherSteady(s: System, st: Step)
    requires Enabled(s, st) && !CallerStep(st) && !st.ReadSettings?
    ensures Steady(s, Next(s, st))
  {
  }

  /** What the reader writes itself. */
  function ReaderWrites(s: System, st: Step): seq<Frame> {
    match st
    case ReadData(_, length, _, _, true) =>
      if s.reader.recvConsumed + length < CONN_WINDOW / 2 then [] else [WindowUpdate(0, s.reader.recvConsumed + length)]
    case AckSettings(true) => [Frame(SETTINGS, 1, 0, [])]
    case ReadPing(data, true) => [Frame(PING, 1, 0, data)]
    case _ => []
  }

  lemma ReaderWire(s: System, st: Step)
    requires Enabled(s, st) && !CallerStep(st)
    ensures Next(s, st).wire == s.wire + ReaderWrites(s, st)
    ensures forall f :: f in ReaderWrites(s, st) ==> f.id == 0 && |f.payload| <= 8
  {
  }

  lemma ReaderSent(s: System, failed: set<nat>, st: Step)
    requires SentOk(s, failed) && Counts(s) && Enabled(s, st) && !CallerStep(st)
    ensures SentOk(Next(s, st), failed)
  {
    ReaderSteady(s, st);
    ReaderWire(s, st);
    ZeroNeverOpened(s.conn, s.book);
    SteadySent(s, failed, Next(s, st), ReaderWrites(s, st));
  }

  lemma SteadySent(s: System, failed: set<nat>, t: System, fs: seq<Frame>)
    requires SentOk(s, failed) && Steady(s, t) && 0 !in s.book
    requires t.wire == s.wire + fs && forall f :: f in fs ==> f.id == 0 && |f.payload| <= 8
    ensures SentOk(t, failed)
  {
    ReaderMove(ViewOf(s, failed), s.callers, s.wmu, ViewOf(t, failed), fs);
    ControlsMore(s.wire, fs);
  }

  // ----- all of them -----

  lemma CallerSent(s: System, failed: set<nat>, st: Step)
    requires Inv(s) && SentOk(s, failed) && Enabled(s, st) && CallerStep(st)
    ensures SentOk(Next(s, st), failed + FailedBy(s, st))
  {
    assert failed + {} == failed;
    match st
    case DoArrives(req, keep) => QuietJoin(ViewOf(s, failed), s.callers, s.wmu, s.conn, SlotWait(req, keep, None));
    case DoChecksSlot(c) => ChecksSlotSent(s, failed, c);
    case DoNumbers(c) => NumbersSent(s, failed, c);
    case DoWrites(c, ok) => WritesSent(s, failed, c, ok);
    case DoChecksWindow(c) => ChecksWindowSent(s, failed, c);
    case DoWritesData(c, ok) => WritesDataSent(s, failed, c, ok);
    case DoReceives(c, i) => ReceivesSent(s, failed, c, i);
    case BatchArrives(req, n, keep) => BatchStartsSent(s, failed, req, n, keep);
    case BatchNumbers(c) => BatchOpensSent(s, failed, c);
    case BatchWrites(c, ok) => BatchWrittenSent(s, failed, c, ok);
  }

  lemma BatchStartsSent(s: System, failed: set<nat>, req: Req, n: nat, keep: bool)
    requires SentOk(s, failed)
    ensures SentOk(BatchStarts(s, req, n, keep), failed)
  {
    var t := BatchStarts(s, req, n, keep);
    QuietJoin(ViewOf(s, failed), s.callers, s.wmu, t.conn, t.callers[|s.callers|]);
  }

  lemma StepSent(s: System, failed: set<nat>, st: Step)
    requires Inv(s) && SentOk(s, failed) && Enabled(s, st)
    ensures SentOk(Next(s, st), failed + FailedBy(s, st))
  {
    if CallerStep(st) {
      CallerSent(s, failed, st);
    } else {
      ReaderSent(s, failed, st);
      assert failed + {} == failed;
    }
  }

  /** Over every run. */
  lemma {:induction false} RunSent(steps: seq<Step>)
    requires Run(steps).Some?
    ensures SentOk(Run(steps).value, Log(steps).failed)
    decreases |steps|
  {
    if steps == [] {
    } else {
      var before := steps[..|steps| - 1];
      RunSent(before);
      Reachable(before);
      StepSent(Run(before).value, Log(before).failed, steps[|steps| - 1]);
    }
  }
}
