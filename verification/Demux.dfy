/** Demultiplexing: a stream's response is a function of the frames read for it since it was opened. */
module Demux {
  import opened Bytes
  import opened Frames
  import opened ConnState
  import opened Protocol
  import opened Slots

  /** The events of one stream since it was opened. */
  function Heard(trace: seq<Event>, id: nat): seq<Event> {
    if trace == [] then [] else
    var before, e := Heard(trace[..|trace| - 1], id), trace[|trace| - 1];
    if e.id != id then before else if e.Opened? then [] else before + [e]
  }

  function Apply(keep: bool, r: Response, e: Event): Response {
    match e
    case Opened(_) => r
    case Data(_, data) => OnData(keep, r, data)
    case Block(_, fields) => OnBlock(r, LastStatus(0, fields))
  }

  /** The response those events build, one at a time. */
  function Replay(keep: bool, hs: seq<Event>): Response {
    if hs == [] then FRESH else Apply(keep, Replay(keep, hs[..|hs| - 1]), hs[|hs| - 1])
  }

  ghost predicate LiveOk(streams: map<nat, Stream>, trace: seq<Event>) {
    forall id :: id in streams ==> streams[id].resp == Replay(streams[id].keep, Heard(trace, id))
  }

  ghost predicate EndedOk(ended: seq<Ended>, book: map<nat, Entry>, trace: seq<Event>) {
    forall i :: 0 <= i < |ended| ==>
      && ended[i].at <= |trace| && ended[i].id in book
      && ended[i].result
         == Conclude(Replay(book[ended[i].id].keep, Heard(trace[..ended[i].at], ended[i].id)), ended[i].cause)
  }

  lemma HeardSnoc(trace: seq<Event>, e: Event, id: nat)
    ensures Heard(trace + [e], id) ==
            if e.id != id then Heard(trace, id) else if e.Opened? then [] else Heard(trace, id) + [e]
  {
    assert (trace + [e])[..|trace|] == trace;
  }

  lemma ReplaySnoc(keep: bool, hs: seq<Event>, e: Event)
    ensures Replay(keep, hs + [e]) == Apply(keep, Replay(keep, hs), e)
  {
    assert (hs + [e])[..|hs|] == hs;
  }

  lemma OpeningsUnroll(first: nat, n: nat)
    requires n > 0 && first + 2 * n <= MAX_STREAM_ID + 2
    ensures Openings(first, n) == Openings(first, n - 1) + [Opened(first + 2 * (n - 1))]
  {
  }

  lemma {:induction false} HeardOpenings(trace: seq<Event>, first: nat, n: nat, id: nat)
    requires first % 2 == 1 && first + 2 * n <= MAX_STREAM_ID + 2
    ensures Heard(trace + Openings(first, n), id) == if InBatch(id, first, n) then [] else Heard(trace, id)
  {
    if n == 0 {
      assert trace + Openings(first, n) == trace;
    } else {
      var last := first + 2 * (n - 1);
      HeardOpenings(trace, first, n - 1, id);
      OpeningsUnroll(first, n);
      Assoc(trace, Openings(first, n - 1), [Opened(last)]);
      HeardSnoc(trace + Openings(first, n - 1), Opened(last), id);
      BatchSnoc(id, first, n);
    }
  }

  /** An event on stream id reaches that stream alone. */
  lemma LiveEvent(streams: map<nat, Stream>, trace: seq<Event>, id: nat, e: Event, r: Response)
    requires LiveOk(streams, trace) && id in streams && e.id == id && !e.Opened?
    requires r == Apply(streams[id].keep, streams[id].resp, e)
    ensures LiveOk(streams[id := streams[id].(resp := r)], trace + [e])
  {
    forall other | other in streams
      ensures Heard(trace + [e], other) == if other == id then Heard(trace, id) + [e] else Heard(trace, other)
    {
      HeardSnoc(trace, e, other);
    }
    ReplaySnoc(streams[id].keep, Heard(trace, id), e);
  }

  lemma LiveElsewhere(streams: map<nat, Stream>, trace: seq<Event>, e: Event)
    requires LiveOk(streams, trace) && e.id !in streams
    ensures LiveOk(streams, trace + [e])
  {
    forall other | other in streams ensures Heard(trace + [e], other) == Heard(trace, other) {
      HeardSnoc(trace, e, other);
    }
  }

  /** Opening a stream starts its response afresh and leaves the others'. */
  lemma LiveOpen(streams: map<nat, Stream>, trace: seq<Event>, id: nat, streams': map<nat, Stream>)
    requires LiveOk(streams, trace) && id !in streams
    requires streams'.Keys == streams.Keys + {id} && streams'[id].resp == FRESH
    requires forall other :: other in streams ==>
               streams'[other].resp == streams[other].resp && streams'[other].keep == streams[other].keep
    ensures LiveOk(streams', trace + [Opened(id)])
  {
    forall other | other in streams'
      ensures streams'[other].resp == Replay(streams'[other].keep, Heard(trace + [Opened(id)], other))
    {
      HeardSnoc(trace, Opened(id), other);
      assert other in streams'.Keys;
    }
  }

  lemma LiveBatch(streams: map<nat, Stream>, trace: seq<Event>, first: nat, n: nat, st: Stream)
    requires LiveOk(streams, trace) && st.resp == FRESH
    requires first % 2 == 1 && first + 2 * n <= MAX_STREAM_ID + 2 && forall id :: id in streams ==> id < first
    ensures LiveOk(AddStreams(streams, first, n, st), trace + Openings(first, n))
  {
    AddStreamsMap(streams, first, n, st);
    forall id | id in AddStreams(streams, first, n, st)
      ensures Heard(trace + Openings(first, n), id) == if id in streams then Heard(trace, id) else []
    {
      HeardOpenings(trace, first, n, id);
    }
  }

  lemma LiveSame(streams: map<nat, Stream>, trace: seq<Event>, streams': map<nat, Stream>)
    requires LiveOk(streams, trace)
    requires forall id :: id in streams' ==>
               id in streams && streams'[id].resp == streams[id].resp && streams'[id].keep == streams[id].keep
    ensures LiveOk(streams', trace)
  {
  }

  lemma EndedLater(ended: seq<Ended>, book: map<nat, Entry>, trace: seq<Event>, book': map<nat, Entry>,
                   more: seq<Event>)
    requires EndedOk(ended, book, trace)
    requires forall id :: id in book ==> id in book' && book'[id].keep == book[id].keep
    ensures EndedOk(ended, book', trace + more)
  {
    forall i | 0 <= i < |ended| ensures (trace + more)[..ended[i].at] == trace[..ended[i].at] {
    }
  }

  lemma EndedNow(ended: seq<Ended>, book: map<nat, Entry>, trace: seq<Event>, es: seq<Ended>, streams: map<nat, Stream>)
    requires EndedOk(ended, book, trace) && LiveOk(streams, trace)
    requires forall i :: 0 <= i < |es| ==>
               && es[i].id in streams && es[i].id in book && book[es[i].id].keep == streams[es[i].id].keep
               && es[i].at == |trace| && es[i].result == Conclude(streams[es[i].id].resp, es[i].cause)
    ensures EndedOk(ended + es, book, trace)
  {
    var all := ended + es;
    forall i | 0 <= i < |all|
      ensures && all[i].at <= |trace| && all[i].id in book
              && all[i].result
                 == Conclude(Replay(book[all[i].id].keep, Heard(trace[..all[i].at], all[i].id)), all[i].cause)
    {
      if i >= |ended| {
        assert all[i] == es[i - |ended|];
        assert trace[..|trace|] == trace;
      }
    }
  }

  // ----- what the response is -----

  /** Each header block's :status. */
  function Statuses(hs: seq<Event>): seq<int> {
    if hs == [] then [] else
    Statuses(hs[..|hs| - 1]) + if hs[|hs| - 1].Block? then [LastStatus(0, hs[|hs| - 1].fields)] else []
  }

  /** The first status of 200 or more, or 0. */
  function FirstFinal(ss: seq<int>): int {
    if ss == [] then 0
    else if FirstFinal(ss[..|ss| - 1]) != 0 then FirstFinal(ss[..|ss| - 1])
    else if ss[|ss| - 1] >= 200 then ss[|ss| - 1] else 0
  }

  /** A block without a status came before the first final one. */
  predicate MissesStatus(ss: seq<int>) {
    exists k :: 0 <= k < |ss| && ss[k] == 0 && FirstFinal(ss[..k]) == 0
  }

  function AllData(hs: seq<Event>): seq<Byte> {
    if hs == [] then [] else AllData(hs[..|hs| - 1]) + if hs[|hs| - 1].Data? then hs[|hs| - 1].data else []
  }

  lemma MissesSnoc(ss: seq<int>, x: int)
    ensures MissesStatus(ss + [x]) <==> MissesStatus(ss) || (x == 0 && FirstFinal(ss) == 0)
  {
    var t := ss + [x];
    assert t[..|ss|] == ss;
    if MissesStatus(ss) {
      var k :| 0 <= k < |ss| && ss[k] == 0 && FirstFinal(ss[..k]) == 0;
      assert t[k] == 0 && t[..k] == ss[..k];
    }
    if x == 0 && FirstFinal(ss) == 0 {
      assert t[|ss|] == 0;
    }
    if MissesStatus(t) {
      var k :| 0 <= k < |t| && t[k] == 0 && FirstFinal(t[..k]) == 0;
      if k < |ss| {
        assert ss[k] == 0 && t[..k] == ss[..k];
      }
    }
  }

  lemma FinalSnoc(ss: seq<int>, x: int)
    ensures FirstFinal(ss + [x]) == if FirstFinal(ss) != 0 then FirstFinal(ss) else if x >= 200 then x else 0
  {
    assert (ss + [x])[..|ss|] == ss;
  }

  lemma {:induction false} FinalIsZero(ss: seq<int>)
    ensures FirstFinal(ss) == 0 <==> forall k :: 0 <= k < |ss| ==> ss[k] < 200
    decreases |ss|
  {
    if ss == [] {
    } else {
      FinalIsZero(ss[..|ss| - 1]);
      assert ss[|ss| - 1] >= 200 ==> FirstFinal(ss) != 0;
    }
  }

  /** The error of a response is its first: a block without a status before any final one, or a kept body that passes
      64 MiB, whichever comes first. */
  function FirstError(keep: bool, hs: seq<Event>): Option<Error> {
    if hs == [] then None else
    var init, e := hs[..|hs| - 1], hs[|hs| - 1];
    if FirstError(keep, init).Some? then FirstError(keep, init)
    else if e.Block? && LastStatus(0, e.fields) == 0 && FirstFinal(Statuses(init)) == 0 then Some(NoStatus)
    else if e.Data? && keep && |AllData(hs)| > 0x400_0000 then Some(BodyTooLarge)
    else None
  }

  /** The closed form: status, length, body and error of a response, from its frames alone. */
  ghost predicate Described(keep: bool, hs: seq<Event>, r: Response) {
    && r.status == FirstFinal(Statuses(hs))
    && r.n == |AllData(hs)|
    && (!keep ==> r.body == [])
    && (keep && r.n <= MAX_BODY ==> r.body == AllData(hs))
    && |r.body| <= MAX_BODY
    && (r.err.Some? <==> MissesStatus(Statuses(hs)) || (keep && r.n > MAX_BODY))
    && r.err == FirstError(keep, hs)
  }

  lemma DescribedData(keep: bool, hs: seq<Event>, r: Response, e: Event)
    requires Described(keep, hs, r) && e.Data?
    ensures Described(keep, hs + [e], OnData(keep, r, e.data))
  {
    assert (hs + [e])[..|hs|] == hs;
    assert Statuses(hs + [e]) == Statuses(hs);
  }

  lemma DescribedBlock(keep: bool, hs: seq<Event>, r: Response, e: Event)
    requires Described(keep, hs, r) && e.Block?
    ensures Described(keep, hs + [e], OnBlock(r, LastStatus(0, e.fields)))
  {
    assert (hs + [e])[..|hs|] == hs;
    var x := LastStatus(0, e.fields);
    assert Statuses(hs + [e]) == Statuses(hs) + [x];
    assert AllData(hs + [e]) == AllData(hs);
    FinalSnoc(Statuses(hs), x);
    MissesSnoc(Statuses(hs), x);
  }

  /** For every sequence of frames on a stream: status is the first of 200 or more, N the sum of the DATA lengths, a
      kept body within 64 MiB their concatenation, and an error comes from a missing status or an oversized body
      alone. */
  lemma {:induction false} ResponseOf(keep: bool, hs: seq<Event>)
    requires forall e :: e in hs ==> !e.Opened?
    ensures Described(keep, hs, Replay(keep, hs))
    decreases |hs|
  {
    if hs == [] {
    } else {
      var init, e := hs[..|hs| - 1], hs[|hs| - 1];
      assert hs == init + [e];
      ResponseOf(keep, init);
      if e.Data? {
        DescribedData(keep, init, Replay(keep, init), e);
      } else {
        DescribedBlock(keep, init, Replay(keep, init), e);
      }
    }
  }

  /** The events of one stream, out of a trace. */
  function Only(trace: seq<Event>, id: nat): seq<Event> {
    if trace == [] then [] else
    Only(trace[..|trace| - 1], id) + if trace[|trace| - 1].id == id then [trace[|trace| - 1]] else []
  }

  /** What a stream hears does not depend on what other streams are sent. */
  lemma {:induction false} HeardIgnoresOthers(trace: seq<Event>, id: nat)
    ensures Heard(Only(trace, id), id) == Heard(trace, id)
  {
    if trace == [] {
    } else {
      var init, e := trace[..|trace| - 1], trace[|trace| - 1];
      HeardIgnoresOthers(init, id);
      if e.id == id {
        HeardSnoc(Only(init, id), e, id);
      } else {
        assert Only(init, id) + [] == Only(init, id);
      }
    }
  }

  /** A block read in pieces leaves the status it would leave read whole. */
  lemma FragmentsJoin(a: seq<int>, b: seq<int>)
    ensures LastStatus(LastStatus(0, a), b) == LastStatus(0, a + b)
  {
    if b != [] {
      assert (a + b)[|a + b| - 1] == b[|b| - 1];
    } else {
      assert a + b == a;
    }
  }
}
