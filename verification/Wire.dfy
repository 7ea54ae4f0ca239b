/** What reaches the wire: streams in the order they are numbered, and on each the request it was opened for. */
module Wire {
  import opened Bytes
  import opened Frames
  import opened Requests
  import opened Segments
  import opened ConnState
  import opened Protocol
  import opened Slots

  // ----- the write lock -----

  predicate Locks(x: Caller) {
    x.Numbered? || x.BatchNumbered?
  }

  /** wmu is held by the one caller that has numbered streams and not written them yet. */
  ghost predicate LockOk(callers: seq<Caller>, wmu: Option<nat>) {
    && (wmu.Some? ==> wmu.value < |callers| && Locks(callers[wmu.value]))
    && (forall c :: 0 <= c < |callers| && Locks(callers[c]) ==> wmu == Some(c))
  }

  lemma LockMove(callers: seq<Caller>, wmu: Option<nat>, c: nat, x: Caller, wmu': Option<nat>)
    requires LockOk(callers, wmu) && c < |callers|
    requires if Locks(x) then wmu'.Some? && wmu'.value == c && (wmu.None? || wmu == Some(c))
             else wmu' == if Locks(callers[c]) then None else wmu
    ensures LockOk(callers[c := x], wmu')
  {
  }

  lemma LockJoin(callers: seq<Caller>, wmu: Option<nat>, x: Caller)
    requires LockOk(callers, wmu) && !Locks(x)
    ensures LockOk(callers + [x], wmu)
  {
    forall c | 0 <= c < |callers + [x]| && Locks((callers + [x])[c]) ensures wmu == Some(c) {
      assert (callers + [x])[c] == callers[c];
    }
  }

  // ----- HEADERS in numbering order -----

  predicate HeadersOrdered(wire: seq<Frame>) {
    forall i, j :: 0 <= i < j < |wire| && wire[i].typ == HEADERS && wire[j].typ == HEADERS ==> wire[i].id < wire[j].id
  }

  predicate HeadersIn(wire: seq<Frame>, low: nat, high: nat) {
    forall i :: 0 <= i < |wire| && wire[i].typ == HEADERS ==> low <= wire[i].id < high
  }

  /** The first identifier whose HEADERS are not on the wire: the lock holder's, or the next one. */
  function Unwritten(callers: seq<Caller>, wmu: Option<nat>, nextID: nat): nat {
    if wmu.None? || wmu.value >= |callers| then nextID else
    match callers[wmu.value]
    case Numbered(id, _, _) => id
    case BatchNumbered(first, _, _) => first
    case _ => nextID
  }

  ghost predicate OrderOk(wire: seq<Frame>, callers: seq<Caller>, wmu: Option<nat>, nextID: nat) {
    && HeadersOrdered(wire)
    && HeadersIn(wire, 0, Unwritten(callers, wmu, nextID))
    && (forall c :: 0 <= c < |callers| ==>
          && (callers[c].Numbered? ==> nextID == callers[c].id + 2)
          && (callers[c].BatchNumbered? ==> nextID == callers[c].first + 2 * callers[c].n))
  }

  lemma OrderedConcat(a: seq<Frame>, b: seq<Frame>, low: nat, mid: nat, high: nat)
    requires HeadersOrdered(a) && HeadersOrdered(b) && HeadersIn(a, low, mid) && HeadersIn(b, mid, high)
    requires low <= mid <= high
    ensures HeadersOrdered(a + b) && HeadersIn(a + b, low, high)
  {
    var w := a + b;
    forall i, j | 0 <= i < j < |w| && w[i].typ == HEADERS && w[j].typ == HEADERS
      ensures w[i].id < w[j].id
    {
      assert i < |a| ==> w[i] == a[i];
      assert j >= |a| ==> w[j] == b[j - |a|];
    }
  }

  lemma OrderedSnoc(a: seq<Frame>, fs: seq<Frame>, low: nat, id: nat)
    requires HeadersOrdered(a) && HeadersIn(a, low, id) && low <= id
    requires (forall f :: f in fs ==> f.id == id) && forall i :: 1 <= i < |fs| ==> fs[i].typ == DATA
    ensures HeadersOrdered(a + fs) && HeadersIn(a + fs, low, id + 1)
  {
    OrderedConcat(a, fs, low, id, id + 1);
  }

  /** One more request of a batch, without the arithmetic on 32 bits that cannot wrap. */
  lemma RepeatUnroll(block: seq<Byte>, body: seq<Byte>, first: nat, n: nat)
    requires n > 0 && first + 2 * n <= MAX_STREAM_ID + 2
    ensures RepeatFrames(block, body, first, n)
         == RepeatFrames(block, body, first, n - 1) + RequestFrames(block, body, first + 2 * (n - 1))
  {
  }

  lemma {:induction false} RepeatOrdered(block: seq<Byte>, body: seq<Byte>, first: nat, n: nat)
    requires first + 2 * n <= MAX_STREAM_ID + 2
    ensures HeadersOrdered(RepeatFrames(block, body, first, n))
    ensures HeadersIn(RepeatFrames(block, body, first, n), first, first + 2 * n)
  {
    if n == 0 {
    } else {
      var id := first + 2 * (n - 1);
      RepeatOrdered(block, body, first, n - 1);
      RequestFramesIds(id, block, body);
      RepeatUnroll(block, body, first, n);
      OrderedSnoc(RepeatFrames(block, body, first, n - 1), RequestFrames(block, body, id), first, id);
    }
  }

  lemma OrderMove(wire: seq<Frame>, callers: seq<Caller>, wmu: Option<nat>, nextID: nat, c: nat, x: Caller)
    requires OrderOk(wire, callers, wmu, nextID) && LockOk(callers, wmu) && c < |callers| && !Locks(callers[c])
    requires !Locks(x)
    ensures OrderOk(wire, callers[c := x], wmu, nextID)
  {
  }

  lemma OrderJoin(wire: seq<Frame>, callers: seq<Caller>, wmu: Option<nat>, nextID: nat, x: Caller)
    requires OrderOk(wire, callers, wmu, nextID) && LockOk(callers, wmu) && !Locks(x)
    ensures OrderOk(wire, callers + [x], wmu, nextID)
  {
    assert wmu.Some? ==> (callers + [x])[wmu.value] == callers[wmu.value];
  }

  /** Numbering happens with wmu free, so everything numbered before is written. */
  lemma OrderNumber(wire: seq<Frame>, callers: seq<Caller>, nextID: nat, c: nat, x: Caller, nextID': nat)
    requires OrderOk(wire, callers, None, nextID) && LockOk(callers, None) && c < |callers|
    requires (x.Numbered? && x.id == nextID && nextID' == nextID + 2)
          || (x.BatchNumbered? && x.first == nextID && nextID' == nextID + 2 * x.n)
    ensures OrderOk(wire, callers[c := x], Some(c), nextID')
  {
  }

  /** The lock holder's write, or its failure to write, moves the mark past its identifiers. */
  lemma OrderWrite(wire: seq<Frame>, callers: seq<Caller>, nextID: nat, c: nat, x: Caller, fs: seq<Frame>)
    requires OrderOk(wire, callers, Some(c), nextID) && LockOk(callers, Some(c)) && !Locks(x)
    requires var low := Unwritten(callers, Some(c), nextID);
             low <= nextID && HeadersOrdered(fs) && HeadersIn(fs, low, nextID)
    ensures OrderOk(wire + fs, callers[c := x], None, nextID)
  {
    OrderedConcat(wire, fs, 0, Unwritten(callers, Some(c), nextID), nextID);
  }

  /** Frames other than HEADERS do not disturb the order. */
  lemma OrderOther(wire: seq<Frame>, callers: seq<Caller>, wmu: Option<nat>, nextID: nat, fs: seq<Frame>)
    requires OrderOk(wire, callers, wmu, nextID) && forall f :: f in fs ==> f.typ != HEADERS
    ensures OrderOk(wire + fs, callers, wmu, nextID)
  {
    OrderedConcat(wire, fs, 0, Unwritten(callers, wmu, nextID), Unwritten(callers, wmu, nextID));
  }

  // ----- each stream carries its request -----

  ghost predicate CarryOk(wire: seq<Frame>, book: map<nat, Entry>) {
    && (forall f :: f in wire ==> if f.typ == HEADERS || f.typ == DATA then f.id in book else f.id == 0)
    && (forall id :: id in book ==>
          On(wire, id) == [] || Carries(On(wire, id), id, book[id].req.block, book[id].req.body))
  }

  predicate Opened(book: map<nat, Entry>, id: nat, owner: Owner, req: Req) {
    id in book && book[id].owner == owner && book[id].req == req
  }

  /** How far a caller is with its stream, in terms of the wire. */
  ghost predicate Progress(wire: seq<Frame>, book: map<nat, Entry>, c: nat, x: Caller) {
    match x
    case Numbered(id, req, take) =>
      Opened(book, id, ByDo(c), req) && On(wire, id) == [] && take <= |req.body|
    case Sending(id, req, sent, _) =>
      && Opened(book, id, ByDo(c), req) && Carries(On(wire, id), id, req.block, req.body)
      && |Payload(On(wire, id))| == sent < |req.body|
    case Taken(id, req, sent, take) =>
      && Opened(book, id, ByDo(c), req) && Carries(On(wire, id), id, req.block, req.body)
      && |Payload(On(wire, id))| == sent && 0 < take && sent + take <= |req.body|
    case BatchNumbered(first, req, n) =>
      && first % 2 == 1 && first + 2 * n <= MAX_STREAM_ID + 2
      && forall id :: InBatch(id, first, n) ==> Opened(book, id, ByBatch, req) && On(wire, id) == []
    case _ => true
  }

  ghost predicate ProgressOk(wire: seq<Frame>, book: map<nat, Entry>, callers: seq<Caller>) {
    forall c :: 0 <= c < |callers| ==> Progress(wire, book, c, callers[c])
  }

  /** The log grew on stream id only. */
  ghost predicate GrewOn(wire: seq<Frame>, wire': seq<Frame>, id: nat, fs: seq<Frame>) {
    && On(wire', id) == On(wire, id) + fs
    && forall other :: other != id ==> On(wire', other) == On(wire, other)
  }

  lemma Grows(wire: seq<Frame>, id: nat, fs: seq<Frame>)
    requires forall f :: f in fs ==> f.id == id
    ensures GrewOn(wire, wire + fs, id, fs)
  {
    OnConcat(wire, fs, id);
    OnAll(fs, id);
    forall other | other != id ensures On(wire + fs, other) == On(wire, other) {
      OnConcat(wire, fs, other);
      OnNone(fs, other);
    }
  }

  lemma CarryGrows(wire: seq<Frame>, book: map<nat, Entry>, id: nat, fs: seq<Frame>)
    requires CarryOk(wire, book) && id in book
    requires forall f :: f in fs ==> f.id == id && (f.typ == HEADERS || f.typ == DATA)
    requires Carries(On(wire, id) + fs, id, book[id].req.block, book[id].req.body)
    ensures CarryOk(wire + fs, book)
  {
    Grows(wire, id, fs);
  }

  /** Other callers are on other streams, so a write on one stream leaves their progress as it was. */
  lemma ProgressGrows(wire: seq<Frame>, book: map<nat, Entry>, callers: seq<Caller>, c: nat, x: Caller, id: nat,
                      fs: seq<Frame>)
    requires ProgressOk(wire, book, callers) && c < |callers| && id in book && book[id].owner == ByDo(c)
    requires forall f :: f in fs ==> f.id == id
    requires Progress(wire + fs, book, c, x)
    ensures ProgressOk(wire + fs, book, callers[c := x])
  {
    Grows(wire, id, fs);
    var callers' := callers[c := x];
    forall k | 0 <= k < |callers'| ensures Progress(wire + fs, book, k, callers'[k]) {
      assert Progress(wire, book, k, callers[k]);
    }
  }

  lemma ProgressMove(wire: seq<Frame>, book: map<nat, Entry>, callers: seq<Caller>, c: nat, x: Caller)
    requires ProgressOk(wire, book, callers) && c < |callers| && Progress(wire, book, c, x)
    ensures ProgressOk(wire, book, callers[c := x])
  {
  }

  /** Control frames are on stream 0, which is never opened. */
  lemma ControlGrows(wire: seq<Frame>, book: map<nat, Entry>, callers: seq<Caller>, f: Frame)
    requires CarryOk(wire, book) && ProgressOk(wire, book, callers)
    requires f.id == 0 && f.typ != HEADERS && f.typ != DATA && 0 !in book
    ensures CarryOk(wire + [f], book) && ProgressOk(wire + [f], book, callers)
  {
    Grows(wire, 0, [f]);
    forall k | 0 <= k < |callers| ensures Progress(wire + [f], book, k, callers[k]) {
      assert Progress(wire, book, k, callers[k]);
    }
  }

  // ----- batches -----

  lemma OnMore(a: seq<Frame>, fs: seq<Frame>, g: seq<Frame>, first: nat, n: nat, last: nat, id: nat)
    requires n > 0 && first % 2 == 1 && last == first + 2 * (n - 1) && (forall f :: f in fs ==> f.id == last)
    requires On(a, id) == (if InBatch(id, first, n - 1) then g else []) && (id == last ==> g == fs)
    ensures On(a + fs, id) == if InBatch(id, first, n) then g else []
  {
    OnSnoc(a, fs, last, id);
    BatchSnoc(id, first, n);
    assert [] + fs == fs;
  }

  /** The frames of a batch that are on one stream. */
  ghost predicate OnlyItsOwn(fs: seq<Frame>, block: seq<Byte>, body: seq<Byte>, first: nat, n: nat, id: nat) {
    On(fs, id) == if InBatch(id, first, n) then RequestFrames(block, body, id) else []
  }

  lemma RepeatOnMore(fs: seq<Frame>, block: seq<Byte>, body: seq<Byte>, first: nat, n: nat, last: nat, id: nat)
    requires n > 0 && first % 2 == 1 && last == first + 2 * (n - 1)
    requires OnlyItsOwn(fs, block, body, first, n - 1, id)
    ensures OnlyItsOwn(fs + RequestFrames(block, body, last), block, body, first, n, id)
  {
    RequestFramesIds(last, block, body);
    OnMore(fs, RequestFrames(block, body, last), RequestFrames(block, body, id), first, n, last, id);
  }

  lemma {:induction false} RepeatOn(block: seq<Byte>, body: seq<Byte>, first: nat, n: nat, id: nat)
    requires first % 2 == 1 && first + 2 * n <= MAX_STREAM_ID + 2
    ensures OnlyItsOwn(RepeatFrames(block, body, first, n), block, body, first, n, id)
  {
    if n == 0 {
      assert !InBatch(id, first, 0);
    } else {
      RepeatOn(block, body, first, n - 1, id);
      RepeatUnroll(block, body, first, n);
      RepeatOnMore(RepeatFrames(block, body, first, n - 1), block, body, first, n, first + 2 * (n - 1), id);
    }
  }

  lemma RepeatGrows(wire: seq<Frame>, block: seq<Byte>, body: seq<Byte>, first: nat, n: nat, id: nat)
    requires first % 2 == 1 && first + 2 * n <= MAX_STREAM_ID + 2
    ensures On(wire + RepeatFrames(block, body, first, n), id)
         == if InBatch(id, first, n) then On(wire, id) + RequestFrames(block, body, id) else On(wire, id)
  {
    OnConcat(wire, RepeatFrames(block, body, first, n), id);
    RepeatOn(block, body, first, n, id);
  }

  lemma TrackedSnoc(a: seq<Frame>, fs: seq<Frame>, first: nat, n: nat)
    requires n > 0 && first % 2 == 1
    requires forall f :: f in a ==> InBatch(f.id, first, n - 1) && (f.typ == HEADERS || f.typ == DATA)
    requires forall f :: f in fs ==> f.id == first + 2 * (n - 1) && (f.typ == HEADERS || f.typ == DATA)
    ensures forall f :: f in a + fs ==> InBatch(f.id, first, n) && (f.typ == HEADERS || f.typ == DATA)
  {
    forall f | f in a + fs ensures InBatch(f.id, first, n) && (f.typ == HEADERS || f.typ == DATA) {
      BatchSnoc(f.id, first, n);
    }
  }

  lemma {:induction false} RepeatTracked(block: seq<Byte>, body: seq<Byte>, first: nat, n: nat)
    requires first % 2 == 1 && first + 2 * n <= MAX_STREAM_ID + 2
    ensures forall f :: f in RepeatFrames(block, body, first, n) ==>
              InBatch(f.id, first, n) && (f.typ == HEADERS || f.typ == DATA)
  {
    if n == 0 {
    } else {
      var id := first + 2 * (n - 1);
      RepeatTracked(block, body, first, n - 1);
      RequestFramesIds(id, block, body);
      RepeatUnroll(block, body, first, n);
      TrackedSnoc(RepeatFrames(block, body, first, n - 1), RequestFrames(block, body, id), first, n);
    }
  }

  lemma CarryBatchOne(wire: seq<Frame>, book: map<nat, Entry>, c: nat, first: nat, req: Req, n: nat, id: nat)
    requires CarryOk(wire, book) && Progress(wire, book, c, BatchNumbered(first, req, n)) && id in book
    ensures var wire' := wire + RepeatFrames(req.block, req.body, first, n);
            On(wire', id) == [] || Carries(On(wire', id), id, book[id].req.block, book[id].req.body)
  {
    RepeatGrows(wire, req.block, req.body, first, n, id);
    if InBatch(id, first, n) {
      assert Opened(book, id, ByBatch, req);
      RequestFramesCarry(id, req.block, req.body);
      assert [] + RequestFrames(req.block, req.body, id) == RequestFrames(req.block, req.body, id);
    }
  }

  lemma CarryBatch(wire: seq<Frame>, book: map<nat, Entry>, c: nat, first: nat, req: Req, n: nat)
    requires CarryOk(wire, book) && Progress(wire, book, c, BatchNumbered(first, req, n))
    ensures CarryOk(wire + RepeatFrames(req.block, req.body, first, n), book)
  {
    var fs := RepeatFrames(req.block, req.body, first, n);
    RepeatTracked(req.block, req.body, first, n);
    forall id | id in book
      ensures On(wire + fs, id) == [] || Carries(On(wire + fs, id), id, book[id].req.block, book[id].req.body)
    {
      CarryBatchOne(wire, book, c, first, req, n, id);
    }
    forall f | f in wire + fs ensures if f.typ == HEADERS || f.typ == DATA then f.id in book else f.id == 0 {
      if f in fs {
        assert Opened(book, f.id, ByBatch, req);
      }
    }
  }

  lemma ProgressBatchOne(wire: seq<Frame>, book: map<nat, Entry>, first: nat, req: Req, n: nat, c: nat, k: nat,
                         x: Caller)
    requires Progress(wire, book, c, BatchNumbered(first, req, n)) && Progress(wire, book, k, x) && !Locks(x)
    ensures Progress(wire + RepeatFrames(req.block, req.body, first, n), book, k, x)
  {
    if x.Sending? || x.Taken? {
      var id := x.id;
      assert Opened(book, id, ByDo(k), x.req);
      assert InBatch(id, first, n) ==> Opened(book, id, ByBatch, req);
      RepeatGrows(wire, req.block, req.body, first, n, id);
    }
  }

  lemma ProgressBatch(wire: seq<Frame>, book: map<nat, Entry>, callers: seq<Caller>, wmu: Option<nat>, c: nat,
                      x: Caller)
    requires ProgressOk(wire, book, callers) && LockOk(callers, wmu)
    requires c < |callers| && callers[c].BatchNumbered? && x.BatchReturned?
    ensures var w := callers[c];
            ProgressOk(wire + RepeatFrames(w.req.block, w.req.body, w.first, w.n), book, callers[c := x])
  {
    var w := callers[c];
    var wire' := wire + RepeatFrames(w.req.block, w.req.body, w.first, w.n);
    assert Progress(wire, book, c, w);
    var callers' := callers[c := x];
    forall k | 0 <= k < |callers'| ensures Progress(wire', book, k, callers'[k]) {
      if k != c {
        assert Progress(wire, book, k, callers[k]);
        ProgressBatchOne(wire, book, w.first, w.req, w.n, c, k, callers[k]);
      }
    }
  }

  // ----- new streams -----

  /** Streams opened after everything on the wire have nothing on the wire yet. */
  lemma NothingYet(wire: seq<Frame>, book: map<nat, Entry>, id: nat)
    requires CarryOk(wire, book) && id !in book && id != 0
    ensures On(wire, id) == []
  {
    OnNone(wire, id);
  }

  ghost predicate Extends(book: map<nat, Entry>, book': map<nat, Entry>) {
    forall id :: id in book ==> id in book' && book'[id].owner == book[id].owner && book'[id].req == book[id].req
  }

  lemma CarryExtends(wire: seq<Frame>, book: map<nat, Entry>, book': map<nat, Entry>)
    requires CarryOk(wire, book) && Extends(book, book')
    requires 0 !in book'
    ensures CarryOk(wire, book')
  {
    forall id | id in book'
      ensures On(wire, id) == [] || Carries(On(wire, id), id, book'[id].req.block, book'[id].req.body)
    {
      if id !in book {
        NothingYet(wire, book, id);
      }
    }
  }

  lemma ProgressExtends(wire: seq<Frame>, book: map<nat, Entry>, book': map<nat, Entry>, callers: seq<Caller>)
    requires ProgressOk(wire, book, callers) && Extends(book, book')
    ensures ProgressOk(wire, book', callers)
  {
    forall k | 0 <= k < |callers| ensures Progress(wire, book', k, callers[k]) {
      assert Progress(wire, book, k, callers[k]);
      if callers[k].BatchNumbered? {
        forall id | InBatch(id, callers[k].first, callers[k].n)
          ensures Opened(book', id, ByBatch, callers[k].req) && On(wire, id) == []
        {
          assert Opened(book, id, ByBatch, callers[k].req);
        }
      }
    }
  }
}
