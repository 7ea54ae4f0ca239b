/**
 Requests encoded once on stream 0 and written by patching stream identifiers
 into the bytes, and what it means for the frames of a stream to carry a request.
 */
module Requests {
  import opened Bytes
  import opened Frames
  import Hpack

  datatype Request = Request(block: seq<Byte>, body: seq<Byte>, encoded: seq<Byte>, idOffsets: seq<nat>)

  /** The DATA frames of what is left of a body from off on. */
  function RestFrames(body: seq<Byte>, off: nat, id: nat): seq<Frame> {
    if off < |body| then DataFrames(id, body[off..], true) else []
  }

  /** A request written on a stream from scratch: HEADERS, then the body's DATA. */
  function RequestFrames(block: seq<Byte>, body: seq<Byte>, id: nat): seq<Frame> {
    [Headers(id, block, |body| == 0)] + RestFrames(body, 0, id)
  }

  /** Where in the encoding of fs, starting at octet at, each frame keeps its stream identifier. */
  function Offsets(fs: seq<Frame>, at: nat): seq<nat> {
    if fs == [] then [] else [at + 5] + Offsets(fs[1..], at + |Encode(fs[0])|)
  }

  /** The template a Request holds: itself on stream 0, with the place of every identifier. */
  predicate Template(r: Request) {
    var fs := RequestFrames(r.block, r.body, 0);
    r.encoded == EncodeAll(fs) && r.idOffsets == Offsets(fs, 0)
  }

  lemma RestStep(body: seq<Byte>, off: nat, id: nat)
    requires off < |body|
    ensures var end := Min(off + MAX_FRAME, |body|);
            && DataFrames(id, body[off..end], end == |body|) == [Data(id, body[off..end], end == |body|)]
            && RestFrames(body, off, id)
               == [Data(id, body[off..end], end == |body|)] + RestFrames(body, off + MAX_FRAME, id)
  {
    var end := Min(off + MAX_FRAME, |body|);
    if end == |body| {
      assert body[off..end] == body[off..];
    } else {
      assert body[off..][..MAX_FRAME] == body[off..end];
      assert body[off..][MAX_FRAME..] == body[off + MAX_FRAME..];
    }
  }

  lemma OneMore(encoded: seq<Byte>, idOffsets: seq<nat>, f: Frame, rest: seq<Frame>)
    ensures encoded + EncodeAll([f] + rest) == (encoded + EncodeAll([f])) + EncodeAll(rest)
    ensures idOffsets + Offsets([f] + rest, |encoded|)
         == (idOffsets + [|encoded| + 5]) + Offsets(rest, |encoded + EncodeAll([f])|)
  {
    assert ([f] + rest)[1..] == rest;
    assert EncodeAll([f]) == Encode(f);
    Assoc(encoded, Encode(f), EncodeAll(rest));
    Assoc(idOffsets, [|encoded| + 5], Offsets(rest, |encoded| + |Encode(f)|));
  }

  method NewRequest(m: seq<Byte>, authority: seq<Byte>, path: seq<Byte>, body: Option<seq<Byte>>) returns (r: Request)
    ensures r.block == Hpack.EncodeHeaderBlock(m, authority, path, body)
    ensures r.body == if body.Some? then body.value else []
    ensures Template(r)
  {
    var block := Hpack.EncodeHeaderBlock(m, authority, path, body);
    var data := if body.Some? then body.value else [];
    r := EncodeRequest(block, data);
  }

  /** The encoding loop of NewRequest. */
  method EncodeRequest(block: seq<Byte>, body: seq<Byte>) returns (r: Request)
    ensures r.block == block && r.body == body && Template(r)
  {
    var idOffsets: seq<nat> := [5];
    var encoded := Encode(Headers(0, block, |body| == 0));
    ghost var fs := RequestFrames(block, body, 0);
    OneMore([], [], Headers(0, block, |body| == 0), RestFrames(body, 0, 0));
    assert EncodeAll(fs) == [] + EncodeAll(fs) && Offsets(fs, 0) == [] + Offsets(fs, 0);
    var off := 0;
    while off < |body|
      invariant EncodeAll(fs) == encoded + EncodeAll(RestFrames(body, off, 0))
      invariant Offsets(fs, 0) == idOffsets + Offsets(RestFrames(body, off, 0), |encoded|)
    {
      var end := Min(off + MAX_FRAME, |body|);
      RestStep(body, off, 0);
      OneMore(encoded, idOffsets, Data(0, body[off..end], end == |body|), RestFrames(body, off + MAX_FRAME, 0));
      idOffsets := idOffsets + [|encoded| + 5];
      encoded := AppendData(encoded, 0, body[off..end], end == |body|);
      off := off + MAX_FRAME;
    }
    r := Request(block, body, encoded, idOffsets);
  }

  // ----- patching -----

  function Patch(b: seq<Byte>, at: nat, v: nat): seq<Byte>
    requires at + 4 <= |b| && v < UINT32
  {
    b[..at] + U32(v) + b[at + 4..]
  }

  lemma IdBits(id: nat)
    requires id < UINT32
    ensures var x := id % 0x8000_0000;
            && x / 0x100_0000 == id / 0x100_0000 % 0x80
            && x / 0x1_0000 % 0x100 == id / 0x1_0000 % 0x100
            && x / 0x100 % 0x100 == id / 0x100 % 0x100
            && x % 0x100 == id % 0x100
  {
    var x := id % 0x8000_0000;
    if id != x {
      assert id == x + 0x8000_0000;
      assert id / 0x100_0000 == x / 0x100_0000 + 0x80;
      assert id / 0x1_0000 == x / 0x1_0000 + 0x8000;
      assert id / 0x100 == x / 0x100 + 0x80_0000;
    }
  }

  lemma HeaderIdBytes(length: nat, typ: Byte, flags: Byte, id: nat)
    requires id < UINT32
    ensures FrameHeader(length, typ, flags, 0)[..5] + U32(id % 0x8000_0000) == FrameHeader(length, typ, flags, id)
  {
    IdBits(id);
    var h := FrameHeader(length, typ, flags, id);
    assert FrameHeader(length, typ, flags, 0)[..5] == h[..5];
    assert U32(id % 0x8000_0000) == h[5..];
  }

  lemma PatchHeader(f: Frame, id: nat)
    requires f.id == 0 && id < UINT32
    ensures Patch(Encode(f), 5, id % 0x8000_0000) == Encode(f.(id := id))
  {
    var h := FrameHeader(|f.payload|, f.typ, f.flags, 0);
    HeaderIdBytes(|f.payload|, f.typ, f.flags, id);
    assert (h + f.payload)[..5] == h[..5];
    assert (h + f.payload)[9..] == f.payload;
  }

  lemma PatchInside(pre: seq<Byte>, mid: seq<Byte>, post: seq<Byte>, at: nat, v: nat)
    requires at + 4 <= |mid| && v < UINT32
    ensures Patch(pre + mid + post, |pre| + at, v) == pre + Patch(mid, at, v) + post
  {
    var b := pre + mid + post;
    assert b[..|pre| + at] == pre + mid[..at];
    assert b[|pre| + at + 4..] == mid[at + 4..] + post;
  }

  lemma {:induction false} OffsetsAt(fs: seq<Frame>, at: nat, k: nat)
    requires k < |fs|
    ensures |Offsets(fs, at)| == |fs|
    ensures Offsets(fs, at)[k] == at + |EncodeAll(fs[..k])| + 5
  {
    if k == 0 {
      OffsetsLength(fs, at);
    } else {
      OffsetsAt(fs[1..], at + |Encode(fs[0])|, k - 1);
      assert fs[..k][1..] == fs[1..][..k - 1];
    }
  }

  lemma {:induction false} OffsetsLength(fs: seq<Frame>, at: nat)
    ensures |Offsets(fs, at)| == |fs|
  {
    if fs == [] {
    } else {
      OffsetsLength(fs[1..], at + |Encode(fs[0])|);
    }
  }

  /** The frames fs are on stream 0, and gs are the same on stream id. */
  predicate Retagged(fs: seq<Frame>, gs: seq<Frame>, id: nat) {
    |fs| == |gs| && forall k :: 0 <= k < |fs| ==> fs[k].id == 0 && gs[k] == fs[k].(id := id)
  }

  lemma RetagOneMore(f: Frame, g: Frame, fs: seq<Frame>, gs: seq<Frame>, id: nat)
    requires f.id == 0 && g == f.(id := id) && Retagged(fs, gs, id)
    ensures Retagged([f] + fs, [g] + gs, id)
  {
  }

  lemma {:induction false} DataFramesRetag(data: seq<Byte>, endStream: bool, id: nat)
    ensures Retagged(DataFrames(0, data, endStream), DataFrames(id, data, endStream), id)
    decreases |data|
  {
    if |data| <= MAX_FRAME {
    } else {
      var rest := data[MAX_FRAME..];
      DataFramesRetag(rest, endStream, id);
      RetagOneMore(Data(0, data[..MAX_FRAME], false), Data(id, data[..MAX_FRAME], false),
                   DataFrames(0, rest, endStream), DataFrames(id, rest, endStream), id);
    }
  }

  lemma Retag(block: seq<Byte>, body: seq<Byte>, id: nat)
    ensures Retagged(RequestFrames(block, body, 0), RequestFrames(block, body, id), id)
  {
    if |body| > 0 {
      DataFramesRetag(body[0..], true, id);
    }
    RetagOneMore(Headers(0, block, |body| == 0), Headers(id, block, |body| == 0),
                 RestFrames(body, 0, 0), RestFrames(body, 0, id), id);
  }

  lemma {:induction false} SameLengths(fs: seq<Frame>, gs: seq<Frame>)
    requires |fs| == |gs| && forall k :: 0 <= k < |fs| ==> |fs[k].payload| == |gs[k].payload|
    ensures |EncodeAll(fs)| == |EncodeAll(gs)|
  {
    if fs == [] {
    } else {
      SameLengths(fs[1..], gs[1..]);
    }
  }

  lemma EncodeSnoc(fs: seq<Frame>, k: nat)
    requires k < |fs|
    ensures EncodeAll(fs[..k + 1]) == EncodeAll(fs[..k]) + Encode(fs[k])
  {
    assert fs[..k + 1] == fs[..k] + [fs[k]];
    EncodeAllConcat(fs[..k], [fs[k]]);
    assert EncodeAll([fs[k]]) == Encode(fs[k]);
  }

  /** The buffer after k rounds of the patching loop: the first k frames are on the stream, the rest are not. */
  function Mixed(pre: seq<Byte>, fs: seq<Frame>, gs: seq<Frame>, k: nat): seq<Byte>
    requires k <= |fs| == |gs|
  {
    pre + EncodeAll(gs[..k]) + EncodeAll(fs[k..])
  }

  /** The k-th identifier is where frame k starts, and five octets in. */
  lemma OffsetLands(pre: seq<Byte>, fs: seq<Frame>, gs: seq<Frame>, k: nat)
    requires |fs| == |gs| && k < |fs|
    requires forall j :: 0 <= j < |fs| ==> |fs[j].payload| == |gs[j].payload|
    ensures |Offsets(fs, 0)| == |fs| && |pre| + Offsets(fs, 0)[k] == |pre + EncodeAll(gs[..k])| + 5
  {
    OffsetsAt(fs, 0, k);
    SameLengths(fs[..k], gs[..k]);
  }

  lemma MixedNext(pre: seq<Byte>, fs: seq<Frame>, gs: seq<Frame>, k: nat)
    requires |fs| == |gs| && k < |fs|
    ensures Mixed(pre, fs, gs, k) == (pre + EncodeAll(gs[..k])) + EncodeAll([fs[k]] + fs[k + 1..])
    ensures Mixed(pre, fs, gs, k + 1) == (pre + EncodeAll(gs[..k])) + Encode(gs[k]) + EncodeAll(fs[k + 1..])
  {
    assert fs[k..] == [fs[k]] + fs[k + 1..];
    EncodeSnoc(gs, k);
    Assoc(pre, EncodeAll(gs[..k]), Encode(gs[k]));
  }

  /** One round of the patching loop: frame k of the template moves to the stream. */
  lemma PatchStep(pre: seq<Byte>, fs: seq<Frame>, gs: seq<Frame>, k: nat, id: nat, at: nat)
    requires |fs| == |gs| && k < |fs| && id < UINT32
    requires fs[k].id == 0 && gs[k] == fs[k].(id := id) && at == |pre + EncodeAll(gs[..k])| + 5
    ensures at + 4 <= |Mixed(pre, fs, gs, k)|
    ensures Patch(Mixed(pre, fs, gs, k), at, id % 0x8000_0000) == Mixed(pre, fs, gs, k + 1)
  {
    MixedNext(pre, fs, gs, k);
    PatchNext(pre + EncodeAll(gs[..k]), fs[k], fs[k + 1..], id);
  }

  lemma PatchNext(done: seq<Byte>, f: Frame, rest: seq<Frame>, id: nat)
    requires f.id == 0 && id < UINT32
    ensures |done| + 9 <= |done + EncodeAll([f] + rest)|
    ensures Patch(done + EncodeAll([f] + rest), |done| + 5, id % 0x8000_0000)
         == done + Encode(f.(id := id)) + EncodeAll(rest)
  {
    assert ([f] + rest)[1..] == rest;
    Assoc(done, Encode(f), EncodeAll(rest));
    PatchInside(done, Encode(f), EncodeAll(rest), 5, id % 0x8000_0000);
    PatchHeader(f, id);
  }

  /** AppendTo: the patched template is the direct encoding, for every request and every 32-bit identifier. */
  method AppendTo(r: Request, dst: seq<Byte>, id: nat) returns (out: seq<Byte>)
    requires Template(r) && id < UINT32
    ensures out == dst + EncodeAll(RequestFrames(r.block, r.body, id))
  {
    ghost var fs, gs := RequestFrames(r.block, r.body, 0), RequestFrames(r.block, r.body, id);
    Retag(r.block, r.body, id);
    out := PatchAll(dst, r.encoded, r.idOffsets, id, fs, gs);
  }

  /** The patching loop. */
  method PatchAll(dst: seq<Byte>, encoded: seq<Byte>, idOffsets: seq<nat>, id: nat, ghost fs: seq<Frame>,
                  ghost gs: seq<Frame>)
    returns (out: seq<Byte>)
    requires id < UINT32 && Retagged(fs, gs, id)
    requires encoded == EncodeAll(fs) && idOffsets == Offsets(fs, 0)
    ensures out == dst + EncodeAll(gs)
  {
    var start := |dst|;
    out := dst + encoded;
    OffsetsLength(fs, 0);
    assert gs[..0] == [] && fs[0..] == fs && dst + [] == dst;
    var k := 0;
    while k < |idOffsets|
      invariant 0 <= k <= |fs|
      invariant out == Mixed(dst, fs, gs, k)
    {
      OffsetLands(dst, fs, gs, k);
      PatchStep(dst, fs, gs, k, id, start + idOffsets[k]);
      out := Patch(out, start + idOffsets[k], id % 0x8000_0000);
      k := k + 1;
    }
    assert gs[..k] == gs && fs[k..] == [];
  }

  /** The frames of r on n streams from first, stepping by two in 32 bits. */
  function RepeatFrames(block: seq<Byte>, body: seq<Byte>, first: nat, n: nat): seq<Frame> {
    if n == 0 then []
    else RepeatFrames(block, body, first, n - 1) + RequestFrames(block, body, Wrap(first + 2 * (n - 1)))
  }

  lemma RepeatStep(dst: seq<Byte>, block: seq<Byte>, body: seq<Byte>, first: nat, i: nat)
    ensures dst + EncodeAll(RepeatFrames(block, body, first, i))
            + EncodeAll(RequestFrames(block, body, Wrap(first + 2 * i)))
         == dst + EncodeAll(RepeatFrames(block, body, first, i + 1))
  {
    var done, next := RepeatFrames(block, body, first, i), RequestFrames(block, body, Wrap(first + 2 * i));
    EncodeAllConcat(done, next);
    Assoc(dst, EncodeAll(done), EncodeAll(next));
  }

  method Repeat(r: Request, dst: seq<Byte>, first: nat, n: nat) returns (out: seq<Byte>)
    requires Template(r) && first < UINT32
    ensures out == dst + EncodeAll(RepeatFrames(r.block, r.body, first, n))
  {
    out := dst;
    var i := 0;
    while i < n
      invariant 0 <= i <= n
      invariant out == dst + EncodeAll(RepeatFrames(r.block, r.body, first, i))
    {
      RepeatStep(dst, r.block, r.body, first, i);
      out := AppendTo(r, out, Wrap(first + 2 * i));
      i := i + 1;
    }
  }

  // ----- octet for octet -----

  /** Piece k of a body cut at every 16384 octets. */
  function Piece(data: seq<Byte>, k: nat): seq<Byte> {
    if 16384 * k > |data| then []
    else if 16384 * (k + 1) > |data| then data[16384 * k..]
    else data[16384 * k..16384 * (k + 1)]
  }

  function Pieces(data: seq<Byte>): nat {
    if |data| <= 16384 then 1 else 1 + Pieces(data[16384..])
  }

  lemma {:induction false} PiecesAre(data: seq<Byte>)
    ensures |data| > 0 ==> 16384 * (Pieces(data) - 1) < |data| <= 16384 * Pieces(data)
    decreases |data|
  {
    if |data| <= 16384 {
    } else {
      PiecesAre(data[16384..]);
    }
  }

  lemma PieceOfRest(data: seq<Byte>, k: nat)
    requires |data| > 16384 && k > 0
    ensures Piece(data[16384..], k - 1) == Piece(data, k)
  {
    var rest := data[16384..];
    if 16384 * k <= |data| {
      assert rest[16384 * (k - 1)..] == data[16384 * k..];
      if 16384 * (k + 1) <= |data| {
        assert rest[16384 * (k - 1)..16384 * k] == data[16384 * k..16384 * (k + 1)];
      }
    }
  }

  /** The DATA frames of a body are its pieces, of type 0, the last with flag 1 when the stream ends. */
  lemma {:induction false} DataFrameIs(id: nat, data: seq<Byte>, endStream: bool, k: nat)
    requires k < Pieces(data)
    ensures var fs := DataFrames(id, data, endStream);
            && |fs| == Pieces(data)
            && fs[k] == Frame(0, if endStream && k == |fs| - 1 then 1 else 0, id, Piece(data, k))
    decreases |data|
  {
    if |data| <= 16384 {
    } else {
      var rest := data[16384..];
      DataFrameIs(id, rest, endStream, if k == 0 then 0 else k - 1);
      if k > 0 {
        PieceOfRest(data, k);
      }
    }
  }

  /** Every request, frame for frame: one HEADERS frame, of type 1, with END_HEADERS, flag 4, and, without a body,
      END_STREAM, flag 1; then the body in pieces of 16384 octets in DATA frames, of type 0, flag 1 on the last. */
  lemma RequestFrameIs(block: seq<Byte>, body: seq<Byte>, id: nat, k: nat)
    requires k < if |body| == 0 then 1 else 1 + Pieces(body)
    ensures var fs := RequestFrames(block, body, id);
            && |fs| == (if |body| == 0 then 1 else 1 + Pieces(body))
            && 16384 * (|fs| - 2) < |body| <= 16384 * (|fs| - 1)
            && fs[k] == if k == 0 then Frame(1, if |body| == 0 then 5 else 4, id, block)
                        else Frame(0, if k == |fs| - 1 then 1 else 0, id, Piece(body, k - 1))
  {
    if |body| > 0 {
      assert body[0..] == body;
      PiecesAre(body);
      DataFrameIs(id, body, true, if k == 0 then 0 else k - 1);
    }
  }

  lemma FrameAt(fs: seq<Frame>, k: nat)
    requires k < |fs|
    ensures var at := |EncodeAll(fs[..k])|;
            && at + |Encode(fs[k])| <= |EncodeAll(fs)|
            && EncodeAll(fs)[at..at + |Encode(fs[k])|] == Encode(fs[k])
  {
    var before, rest := EncodeAll(fs[..k]), EncodeAll(fs[k + 1..]);
    EncodeSnoc(fs, k);
    EncodeAllConcat(fs[..k + 1], fs[k + 1..]);
    assert fs[..k + 1] + fs[k + 1..] == fs;
    assert (before + Encode(fs[k]) + rest)[|before|..|before| + |Encode(fs[k])|] == Encode(fs[k]);
  }

  lemma HeaderOctets(out: seq<Byte>, at: nat, f: Frame)
    requires at + |Encode(f)| <= |out| && out[at..at + |Encode(f)|] == Encode(f)
    ensures out[at + 3] == f.typ && out[at + 4] == f.flags
  {
    assert out[at + 3] == out[at..at + |Encode(f)|][3];
    assert out[at + 4] == out[at..at + |Encode(f)|][4];
  }

  lemma FrameOctets(fs: seq<Frame>, k: nat)
    requires k < |fs|
    ensures var out, at := EncodeAll(fs), |EncodeAll(fs[..k])|;
            at + 9 <= |out| && out[at + 3] == fs[k].typ && out[at + 4] == fs[k].flags
  {
    FrameAt(fs, k);
    HeaderOctets(EncodeAll(fs), |EncodeAll(fs[..k])|, fs[k]);
  }

  /** Octets 3 and 4 of frame k of a request, as AppendTo writes it: 1 and 5 or 4 for the first, 0 and 0 for the others,
      0 and 1 for the last of them. */
  lemma RequestOctets(block: seq<Byte>, body: seq<Byte>, id: nat, k: nat)
    requires k < |RequestFrames(block, body, id)|
    ensures var fs := RequestFrames(block, body, id);
            var out, at := EncodeAll(fs), |EncodeAll(fs[..k])|;
            && at + 9 <= |out|
            && out[at + 3] == (if k == 0 then 1 else 0)
            && out[at + 4] == (if k > 0 then (if k == |fs| - 1 then 1 else 0) else if |body| == 0 then 5 else 4)
  {
    var fs := RequestFrames(block, body, id);
    RequestFrameIs(block, body, id, 0);
    RequestFrameIs(block, body, id, k);
    FrameOctets(fs, k);
  }

  // ----- reading them back -----

  lemma RequestFitsExactly(block: seq<Byte>, body: seq<Byte>, id: nat)
    ensures (forall f :: f in RequestFrames(block, body, id) ==> Fits(f))
       <==> |block| < MAX_LENGTH && id <= MAX_STREAM_ID
  {
    var fs := RequestFrames(block, body, id);
    assert fs[0] == Headers(id, block, |body| == 0) && fs[0] in fs;
  }

  /** A request is read back as itself exactly when its block's length fits in 24 bits and its identifier in 31. */
  lemma RequestReadBack(block: seq<Byte>, body: seq<Byte>, id: nat)
    ensures ParseAll(EncodeAll(RequestFrames(block, body, id))) == Some(RequestFrames(block, body, id))
       <==> |block| < MAX_LENGTH && id <= MAX_STREAM_ID
  {
    ReadBackExactly(RequestFrames(block, body, id));
    RequestFitsExactly(block, body, id);
  }

  /** The i-th identifier of a batch. */
  function NthId(first: nat, i: nat): nat {
    Wrap(first + 2 * i)
  }

  lemma FitBoth(a: seq<Frame>, b: seq<Frame>)
    ensures (forall f :: f in a + b ==> Fits(f))
       <==> (forall f :: f in a ==> Fits(f)) && (forall f :: f in b ==> Fits(f))
  {
    if forall f :: f in a + b ==> Fits(f) {
      forall f | f in a || f in b ensures Fits(f) {
        assert f in a + b;
      }
    }
  }

  lemma {:induction false} RepeatFitsExactly(block: seq<Byte>, body: seq<Byte>, first: nat, n: nat)
    ensures (forall f :: f in RepeatFrames(block, body, first, n) ==> Fits(f))
       <==> (n > 0 ==> |block| < MAX_LENGTH) && forall i :: 0 <= i < n ==> NthId(first, i) <= MAX_STREAM_ID
  {
    if n == 0 {
    } else {
      var id := NthId(first, n - 1);
      RepeatFitsExactly(block, body, first, n - 1);
      RequestFitsExactly(block, body, id);
      FitBoth(RepeatFrames(block, body, first, n - 1), RequestFrames(block, body, id));
    }
  }

  /** A whole batch is read back as its requests exactly when the block fits and every identifier, counted by two in 32
      bits, does. */
  lemma RepeatReadBack(block: seq<Byte>, body: seq<Byte>, first: nat, n: nat)
    ensures ParseAll(EncodeAll(RepeatFrames(block, body, first, n))) == Some(RepeatFrames(block, body, first, n))
       <==> (n > 0 ==> |block| < MAX_LENGTH) && forall i :: 0 <= i < n ==> NthId(first, i) <= MAX_STREAM_ID
  {
    ReadBackExactly(RepeatFrames(block, body, first, n));
    RepeatFitsExactly(block, body, first, n);
  }
}
