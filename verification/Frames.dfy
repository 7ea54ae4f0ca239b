/**
 Frames on the wire, sections 4.1, 6.1, 6.2 and 6.9 of RFC 9113: how the client
 writes them, and a reference parser that reads them back.
 */
module Frames {
  import opened Bytes

  const DATA: Byte := 0
  const HEADERS: Byte := 1
  const SETTINGS: Byte := 4
  const PING: Byte := 6
  const WINDOW_UPDATE: Byte := 8
  const MAX_FRAME := 16384
  const MAX_LENGTH := 0x100_0000
  const MAX_STREAM_ID := 0x7FFF_FFFF
  const UINT32 := 0x1_0000_0000

  /** uint32 arithmetic: x modulo 2^32. */
  function Wrap(x: int): (r: nat)
    ensures r < UINT32
  {
    if 0 <= x < UINT32 then x else x % UINT32
  }

  datatype Frame = Frame(typ: Byte, flags: Byte, id: nat, payload: seq<Byte>)

  /** One HEADERS frame carrying a whole block: END_HEADERS, and END_STREAM when asked. */
  function Headers(id: nat, block: seq<Byte>, endStream: bool): Frame {
    Frame(HEADERS, if endStream then 5 else 4, id, block)
  }

  function Data(id: nat, payload: seq<Byte>, endStream: bool): Frame {
    Frame(DATA, if endStream then 1 else 0, id, payload)
  }

  function WindowUpdate(id: nat, increment: nat): Frame {
    Frame(WINDOW_UPDATE, 0, id, U32(increment % 0x8000_0000))
  }

  predicate EndsStream(f: Frame) {
    (f.typ == HEADERS || f.typ == DATA) && f.flags % 2 == 1
  }

  function U32(v: nat): (b: seq<Byte>)
    requires v < UINT32
    ensures |b| == 4
  {
    [v / 0x100_0000, v / 0x1_0000 % 0x100, v / 0x100 % 0x100, v % 0x100]
  }

  lemma U32RoundTrip(v: nat)
    requires v < UINT32
    ensures FromU32(U32(v)) == v
  {
    var hi, lo := v / 0x1_0000, v % 0x1_0000;
    assert v == hi * 0x1_0000 + lo;
    assert v / 0x100_0000 == hi / 0x100;
    assert v / 0x100 % 0x100 == lo / 0x100;
  }

  function FromU32(b: seq<Byte>): nat
    requires |b| == 4
  {
    b[0] as int * 0x100_0000 + b[1] as int * 0x1_0000 + b[2] as int * 0x100 + b[3]
  }

  /** The 9-octet header: a 24-bit length, type, flags, and a 31-bit stream identifier; Go's byte() truncates each. */
  function FrameHeader(length: nat, typ: Byte, flags: Byte, id: nat): (h: seq<Byte>)
    ensures |h| == 9
  {
    [length / 0x1_0000 % 0x100, length / 0x100 % 0x100, length % 0x100, typ, flags,
     id / 0x100_0000 % 0x80, id / 0x1_0000 % 0x100, id / 0x100 % 0x100, id % 0x100]
  }

  function Encode(f: Frame): (b: seq<Byte>)
    ensures |b| == 9 + |f.payload|
  {
    FrameHeader(|f.payload|, f.typ, f.flags, f.id) + f.payload
  }

  function EncodeAll(fs: seq<Frame>): seq<Byte> {
    if fs == [] then [] else Encode(fs[0]) + EncodeAll(fs[1..])
  }

  lemma {:induction false} EncodeAllConcat(a: seq<Frame>, b: seq<Frame>)
    ensures EncodeAll(a + b) == EncodeAll(a) + EncodeAll(b)
  {
    if a == [] {
      assert a + b == b;
    } else {
      EncodeAllConcat(a[1..], b);
      TailOfConcat(a, b);
      Assoc(Encode(a[0]), EncodeAll(a[1..]), EncodeAll(b));
    }
  }

  // ----- the reference parser -----

  function ParseFrame(b: seq<Byte>): (r: Option<(Frame, seq<Byte>)>)
    ensures r.Some? ==> |r.value.1| + 9 <= |b|
  {
    if |b| < 9 then None else
    var length := b[0] as int * 0x1_0000 + b[1] as int * 0x100 + b[2] as int;
    if |b| < 9 + length then None else
    var id := (b[5] % 0x80) as int * 0x100_0000 + b[6] as int * 0x1_0000 + b[7] as int * 0x100 + b[8] as int;
    Some((Frame(b[3], b[4], id, b[9..9 + length]), b[9 + length..]))
  }

  function ParseAll(b: seq<Byte>): Option<seq<Frame>>
    decreases |b|
  {
    if b == [] then Some([]) else
    match ParseFrame(b)
    case None => None
    case Some((f, rest)) =>
      match ParseAll(rest)
      case None => None
      case Some(fs) => Some([f] + fs)
  }

  /** What a frame reads back as: the length and identifier fields hold 24 and 31 bits. */
  predicate Fits(f: Frame) {
    |f.payload| < MAX_LENGTH && f.id <= MAX_STREAM_ID
  }

  lemma HeaderBits(length: nat, id: nat)
    ensures length < MAX_LENGTH ==>
              length / 0x1_0000 % 0x100 * 0x1_0000 + length / 0x100 % 0x100 * 0x100 + length % 0x100 == length
    ensures id <= MAX_STREAM_ID ==>
              id / 0x100_0000 % 0x80 * 0x100_0000 + id / 0x1_0000 % 0x100 * 0x1_0000
              + id / 0x100 % 0x100 * 0x100 + id % 0x100 == id
  {
  }

  lemma ParseEncode(f: Frame, rest: seq<Byte>)
    requires Fits(f)
    ensures ParseFrame(Encode(f) + rest) == Some((f, rest))
  {
    var b := Encode(f) + rest;
    HeaderBits(|f.payload|, f.id);
    assert b[9..9 + |f.payload|] == f.payload;
    assert b[9 + |f.payload|..] == rest;
    assert b[..9] == FrameHeader(|f.payload|, f.typ, f.flags, f.id);
    assert forall i :: 0 <= i < 9 ==> b[i] == b[..9][i];
  }

  lemma {:induction false} ParseEncodeAll(fs: seq<Frame>)
    requires forall f :: f in fs ==> Fits(f)
    ensures ParseAll(EncodeAll(fs)) == Some(fs)
  {
    if fs == [] {
    } else {
      ParseEncode(fs[0], EncodeAll(fs[1..]));
      ParseEncodeAll(fs[1..]);
      assert [fs[0]] + fs[1..] == fs;
    }
  }

  /** A frame whose length or identifier does not fit is never read back as itself. */
  lemma UnfitIsNotReadBack(f: Frame, rest: seq<Byte>)
    requires !Fits(f)
    ensures ParseFrame(Encode(f) + rest).Some? ==> ParseFrame(Encode(f) + rest).value.0 != f
  {
    var b := Encode(f) + rest;
    var length := b[0] as int * 0x1_0000 + b[1] as int * 0x100 + b[2] as int;
    assert length < MAX_LENGTH;
    if |b| >= 9 + length {
      assert |b[9..9 + length]| == length;
      assert (b[5] % 0x80) as int * 0x100_0000 + b[6] as int * 0x1_0000 + b[7] as int * 0x100 + b[8] as int
             <= MAX_STREAM_ID;
    }
  }

  /** A sequence of frames is read back as itself exactly when each of them fits. */
  lemma {:induction false} ReadBackExactly(fs: seq<Frame>)
    ensures ParseAll(EncodeAll(fs)) == Some(fs) <==> forall f :: f in fs ==> Fits(f)
  {
    if forall f :: f in fs ==> Fits(f) {
      ParseEncodeAll(fs);
    } else if Fits(fs[0]) {
      ParseEncode(fs[0], EncodeAll(fs[1..]));
      ReadBackExactly(fs[1..]);
      assert fs == [fs[0]] + fs[1..];
    } else {
      UnfitIsNotReadBack(fs[0], EncodeAll(fs[1..]));
    }
  }

  // ----- splitting a body into DATA frames (appendData) -----

  function DataFrames(id: nat, data: seq<Byte>, endStream: bool): (fs: seq<Frame>)
    ensures |fs| > 0
    ensures forall f :: f in fs ==> f.typ == DATA && f.id == id && |f.payload| <= MAX_FRAME
    decreases |data|
  {
    if |data| <= MAX_FRAME then [Data(id, data, endStream)]
    else [Data(id, data[..MAX_FRAME], false)] + DataFrames(id, data[MAX_FRAME..], endStream)
  }

  /** The octets the DATA frames of a sequence carry, in order. */
  function Payload(fs: seq<Frame>): seq<Byte> {
    if fs == [] then [] else (if fs[0].typ == DATA then fs[0].payload else []) + Payload(fs[1..])
  }

  lemma {:induction false} PayloadConcat(a: seq<Frame>, b: seq<Frame>)
    ensures Payload(a + b) == Payload(a) + Payload(b)
  {
    if a == [] {
      assert a + b == b;
    } else {
      PayloadConcat(a[1..], b);
      TailOfConcat(a, b);
      Assoc(if a[0].typ == DATA then a[0].payload else [], Payload(a[1..]), Payload(b));
    }
  }

  /** Splitting loses nothing, and only the last piece can end the stream. */
  lemma {:induction false} DataFramesCarry(id: nat, data: seq<Byte>, endStream: bool)
    ensures var fs := DataFrames(id, data, endStream);
            && Payload(fs) == data
            && forall i :: 0 <= i < |fs| ==> (EndsStream(fs[i]) <==> endStream && i == |fs| - 1)
    decreases |data|
  {
    if |data| <= MAX_FRAME {
    } else {
      DataFramesCarry(id, data[MAX_FRAME..], endStream);
      var fs := DataFrames(id, data, endStream);
      assert fs[1..] == DataFrames(id, data[MAX_FRAME..], endStream);
      assert forall i :: 1 <= i < |fs| ==> fs[i] == fs[1..][i - 1];
      assert data[..MAX_FRAME] + data[MAX_FRAME..] == data;
    }
  }

  lemma DataFramesStep(out: seq<Byte>, id: nat, data: seq<Byte>, endStream: bool)
    ensures var n := Min(|data|, MAX_FRAME);
            out + EncodeAll(DataFrames(id, data, endStream))
            == (out + (FrameHeader(n, DATA, if endStream && n == |data| then 1 else 0, id) + data[..n]))
               + if n == |data| then [] else EncodeAll(DataFrames(id, data[n..], endStream))
  {
    var fs := DataFrames(id, data, endStream);
    if |data| <= MAX_FRAME {
      assert data[..|data|] == data && fs[1..] == [];
      Assoc(out, Encode(fs[0]), []);
    } else {
      assert fs[1..] == DataFrames(id, data[MAX_FRAME..], endStream);
      Assoc(out, Encode(fs[0]), EncodeAll(fs[1..]));
    }
  }

  /** appendData: the loop that writes them one at a time. */
  method AppendData(dst: seq<Byte>, id: nat, data: seq<Byte>, endStream: bool) returns (out: seq<Byte>)
    ensures out == dst + EncodeAll(DataFrames(id, data, endStream))
  {
    out := dst;
    var rest := data;
    while true
      invariant dst + EncodeAll(DataFrames(id, data, endStream)) == out + EncodeAll(DataFrames(id, rest, endStream))
      decreases |rest|
    {
      var n := Min(|rest|, MAX_FRAME);
      var flags: Byte := if endStream && n == |rest| then 1 else 0;
      DataFramesStep(out, id, rest, endStream);
      out := out + (FrameHeader(n, DATA, flags, id) + rest[..n]);
      rest := rest[n..];
      if |rest| == 0 {
        return;
      }
    }
  }
}
