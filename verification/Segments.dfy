/** The frames of one stream, and what it means for them to carry a request's header block and body. */
module Segments {
  import opened Bytes
  import opened Frames
  import opened Requests

  /** The frames of a log that are on one stream. */
  function On(wire: seq<Frame>, id: nat): seq<Frame> {
    if wire == [] then []
    else On(wire[..|wire| - 1], id) + if wire[|wire| - 1].id == id then [wire[|wire| - 1]] else []
  }

  lemma {:induction false} OnConcat(a: seq<Frame>, b: seq<Frame>, id: nat)
    ensures On(a + b, id) == On(a, id) + On(b, id)
    decreases |b|
  {
    if b == [] {
      assert a + b == a;
    } else {
      var last := b[|b| - 1];
      OnConcat(a, b[..|b| - 1], id);
      assert (a + b)[..|a + b| - 1] == a + b[..|b| - 1];
      Assoc(On(a, id), On(b[..|b| - 1], id), if last.id == id then [last] else []);
    }
  }

  lemma {:induction false} OnAll(fs: seq<Frame>, id: nat)
    requires forall f :: f in fs ==> f.id == id
    ensures On(fs, id) == fs
  {
    if fs == [] {
    } else {
      OnAll(fs[..|fs| - 1], id);
    }
  }

  lemma {:induction false} OnNone(fs: seq<Frame>, id: nat)
    requires forall f :: f in fs ==> f.id != id
    ensures On(fs, id) == []
  {
    if fs == [] {
    } else {
      OnNone(fs[..|fs| - 1], id);
    }
  }

  lemma OnSnoc(a: seq<Frame>, fs: seq<Frame>, last: nat, id: nat)
    requires forall f :: f in fs ==> f.id == last
    ensures On(a + fs, id) == if id == last then On(a, id) + fs else On(a, id)
  {
    OnConcat(a, fs, id);
    if id == last {
      OnAll(fs, id);
    } else {
      OnNone(fs, id);
    }
  }

  /** HEADERS with the block, then DATA of at most 16384 octets carrying a prefix of the body, and END_STREAM on the
      last frame alone, exactly when the whole body has been carried. */
  predicate Carries(fs: seq<Frame>, id: nat, block: seq<Byte>, body: seq<Byte>) {
    && |fs| > 0
    && fs[0] == Headers(id, block, |body| == 0)
    && (forall i :: 1 <= i < |fs| ==> fs[i].typ == DATA && fs[i].id == id && |fs[i].payload| <= MAX_FRAME)
    && Payload(fs) <= body
    && (forall i :: 0 <= i < |fs| ==> (EndsStream(fs[i]) <==> i == |fs| - 1 && Payload(fs) == body))
  }

  lemma CarriesStart(id: nat, block: seq<Byte>, body: seq<Byte>)
    ensures Payload([Headers(id, block, |body| == 0)]) == []
    ensures Carries([Headers(id, block, |body| == 0)], id, block, body)
  {
    assert Payload([Headers(id, block, |body| == 0)][1..]) == [];
  }

  lemma PrefixMore(p: seq<Byte>, body: seq<Byte>, sent: nat, take: nat)
    requires p <= body && |p| == sent && sent + take <= |body|
    ensures p + body[sent..sent + take] == body[..sent + take] <= body
    ensures sent + take == |body| <==> body[..sent + take] == body
  {
  }

  /** Any next piece of the body, of at least one octet, keeps the stream carrying its request. */
  lemma CarriesMore(fs: seq<Frame>, id: nat, block: seq<Byte>, body: seq<Byte>, sent: nat, take: nat)
    requires Carries(fs, id, block, body) && |Payload(fs)| == sent
    requires 0 < take && sent + take <= |body|
    ensures var gs := fs + MoreFrames(id, body, sent, take);
            Carries(gs, id, block, body) && Payload(gs) == body[..sent + take]
  {
    var data, last := body[sent..sent + take], sent + take == |body|;
    var ds := DataFrames(id, data, last);
    DataFramesCarry(id, data, last);
    PayloadConcat(fs, ds);
    PrefixMore(Payload(fs), body, sent, take);
    CarriesAppend(fs, ds, id, block, body, last);
  }

  lemma CarriesAppend(fs: seq<Frame>, ds: seq<Frame>, id: nat, block: seq<Byte>, body: seq<Byte>, last: bool)
    requires Carries(fs, id, block, body) && Payload(fs) < body && |ds| > 0
    requires Payload(fs + ds) <= body && (last <==> Payload(fs + ds) == body)
    requires forall f :: f in ds ==> f.typ == DATA && f.id == id && |f.payload| <= MAX_FRAME
    requires forall i :: 0 <= i < |ds| ==> (EndsStream(ds[i]) <==> last && i == |ds| - 1)
    ensures Carries(fs + ds, id, block, body)
  {
    var gs := fs + ds;
    forall i | 0 <= i < |gs|
      ensures EndsStream(gs[i]) <==> i == |gs| - 1 && Payload(gs) == body
      ensures i >= 1 ==> gs[i].typ == DATA && gs[i].id == id && |gs[i].payload| <= MAX_FRAME
    {
      assert gs[i] == if i < |fs| then fs[i] else ds[i - |fs|];
    }
  }

  /** What writeStream writes first: the whole request, or its HEADERS and the part of the body it got window for. */
  function FirstFrames(id: nat, block: seq<Byte>, body: seq<Byte>, take: nat): seq<Frame>
    requires take <= |body|
  {
    if take == |body| then RequestFrames(block, body, id)
    else [Headers(id, block, false)] + if take > 0 then DataFrames(id, body[..take], false) else []
  }

  /** What one round of writeStream's loop writes: the next take octets, ending the stream when they are the last. */
  function MoreFrames(id: nat, body: seq<Byte>, sent: nat, take: nat): (fs: seq<Frame>)
    requires sent + take <= |body|
    ensures forall f :: f in fs ==> f.id == id && f.typ == DATA
  {
    DataFrames(id, body[sent..sent + take], sent + take == |body|)
  }

  lemma MoreFramesBytes(id: nat, body: seq<Byte>, sent: nat, take: nat)
    requires sent + take <= |body|
    ensures DataBytes(MoreFrames(id, body, sent, take)) == take
  {
    DataFramesCarry(id, body[sent..sent + take], sent + take == |body|);
    DataBytesPayload(MoreFrames(id, body, sent, take));
  }

  lemma FirstFramesCarry(id: nat, block: seq<Byte>, body: seq<Byte>, take: nat)
    requires take <= |body|
    ensures var fs := FirstFrames(id, block, body, take);
            && Carries(fs, id, block, body) && Payload(fs) == body[..take]
            && (forall f :: f in fs ==> f.id == id)
            && (forall i :: 1 <= i < |fs| ==> fs[i].typ == DATA)
  {
    CarriesStart(id, block, body);
    if take > 0 {
      CarriesMore([Headers(id, block, |body| == 0)], id, block, body, 0, take);
      assert body[0..take] == body[..take];
      if take == |body| {
        assert body[0..] == body[0..take];
      }
    } else {
      assert body[..0] == [];
      assert [Headers(id, block, |body| == 0)] + [] == [Headers(id, block, |body| == 0)];
    }
  }

  lemma RequestFramesIds(id: nat, block: seq<Byte>, body: seq<Byte>)
    ensures var fs := RequestFrames(block, body, id);
            && |fs| > 0 && (forall f :: f in fs ==> f.id == id && (f.typ == HEADERS || f.typ == DATA))
            && fs[0].typ == HEADERS && (forall i :: 1 <= i < |fs| ==> fs[i].typ == DATA)
  {
  }

  lemma RequestFramesCarry(id: nat, block: seq<Byte>, body: seq<Byte>)
    ensures Carries(RequestFrames(block, body, id), id, block, body)
  {
    FirstFramesCarry(id, block, body, |body|);
  }

  /** However a body was cut up, a stream that ended carries what AppendTo writes in one go: same block, same body. */
  lemma SegmentationIndependence(fs: seq<Frame>, id: nat, block: seq<Byte>, body: seq<Byte>)
    requires Carries(fs, id, block, body) && EndsStream(fs[|fs| - 1])
    ensures fs[0] == RequestFrames(block, body, id)[0]
    ensures Payload(fs) == Payload(RequestFrames(block, body, id)) == body
  {
    FirstFramesCarry(id, block, body, |body|);
    assert body[..|body|] == body;
  }

  // ----- octets on the wire -----

  function DataBytes(fs: seq<Frame>): nat {
    if fs == [] then 0
    else DataBytes(fs[..|fs| - 1]) + if fs[|fs| - 1].typ == DATA then |fs[|fs| - 1].payload| else 0
  }

  lemma {:induction false} DataBytesConcat(a: seq<Frame>, b: seq<Frame>)
    ensures DataBytes(a + b) == DataBytes(a) + DataBytes(b)
    decreases |b|
  {
    if b == [] {
      assert a + b == a;
    } else {
      DataBytesConcat(a, b[..|b| - 1]);
      assert (a + b)[..|a + b| - 1] == a + b[..|b| - 1];
    }
  }

  lemma {:induction false} DataBytesPayload(fs: seq<Frame>)
    ensures DataBytes(fs) == |Payload(fs)|
    decreases |fs|
  {
    if fs == [] {
    } else {
      var init, last := fs[..|fs| - 1], fs[|fs| - 1];
      assert fs == init + [last];
      PayloadConcat(init, [last]);
      assert Payload([last][1..]) == [];
      DataBytesPayload(init);
    }
  }

  lemma DataBytesRequest(block: seq<Byte>, body: seq<Byte>, id: nat)
    ensures DataBytes(RequestFrames(block, body, id)) == |body|
  {
    DataBytesPayload(RequestFrames(block, body, id));
    FirstFramesCarry(id, block, body, |body|);
  }

  lemma {:induction false} DataBytesRepeat(block: seq<Byte>, body: seq<Byte>, first: nat, n: nat)
    ensures DataBytes(RepeatFrames(block, body, first, n)) == n * |body|
  {
    if n == 0 {
    } else {
      var id := Wrap(first + 2 * (n - 1));
      DataBytesRepeat(block, body, first, n - 1);
      DataBytesConcat(RepeatFrames(block, body, first, n - 1), RequestFrames(block, body, id));
      DataBytesRequest(block, body, id);
      assert n * |body| == (n - 1) * |body| + |body|;
    }
  }
}
