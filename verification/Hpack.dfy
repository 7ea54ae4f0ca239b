/**
 HPACK as the client writes it (RFC 7541): prefixed integers, literals that are
 never indexed, and a request's header block; and a reference decoder with a
 dynamic table, against which the encoding is proved.
 */
module Hpack {
  import opened Bytes

  // ----- integers, section 5.1 -----

  function Pow2(n: nat): (p: nat)
    ensures p >= 1
  {
    if n == 0 then 1 else 2 * Pow2(n - 1)
  }

  /** x modulo 2^n: what an octet holds in its n-bit prefix. */
  function LowBits(n: nat, x: nat): (r: nat)
    ensures r < Pow2(n)
  {
    if n == 0 then 0 else x % 2 + 2 * LowBits(n - 1, x / 2)
  }

  /** An n-bit prefix, and the bits above it that the first octet also carries. */
  predicate Prefix(n: nat, first: int) {
    1 <= n <= 8 && 0 <= first && LowBits(n, first) == 0 && first + Pow2(n) <= 256
  }

  function Varint(v: nat): seq<Byte> {
    if v < 128 then [v] else [128 + v % 128] + Varint(v / 128)
  }

  function Int(n: nat, first: int, v: nat): (b: seq<Byte>)
    requires Prefix(n, first)
    ensures |b| > 0 && first <= b[0] < first + Pow2(n)
  {
    var limit := Pow2(n) - 1;
    if v < limit then [first + v] else [first + limit] + Varint(v - limit)
  }

  function DecodeVarint(b: seq<Byte>): (r: Option<(nat, seq<Byte>)>)
    ensures r.Some? ==> |r.value.1| < |b|
  {
    if b == [] then None
    else if b[0] < 128 then Some((b[0], b[1..]))
    else match DecodeVarint(b[1..])
      case None => None
      case Some((v, rest)) => Some((b[0] - 128 + 128 * v, rest))
  }

  function DecodeInt(n: nat, b: seq<Byte>): (r: Option<(nat, seq<Byte>)>)
    requires 1 <= n <= 8
    ensures r.Some? ==> |r.value.1| < |b|
  {
    if b == [] then None else
    var limit := Pow2(n) - 1;
    var low := LowBits(n, b[0]);
    if low < limit then Some((low, b[1..]))
    else match DecodeVarint(b[1..])
      case None => None
      case Some((v, rest)) => Some((v + limit, rest))
  }

  lemma {:induction false} VarintRoundTrip(v: nat, rest: seq<Byte>)
    ensures DecodeVarint(Varint(v) + rest) == Some((v, rest))
  {
    TailOfConcat(Varint(v), rest);
    if v < 128 {
      assert [] + rest == rest;
    } else {
      VarintRoundTrip(v / 128, rest);
      assert Varint(v)[1..] == Varint(v / 128);
    }
  }

  /** A first octet is a multiple of 2^n plus the prefix. */
  lemma {:induction false} PrefixMod(n: nat, first: nat, v: nat)
    requires LowBits(n, first) == 0 && v < Pow2(n)
    ensures LowBits(n, first + v) == v
  {
    if n == 0 {
    } else {
      assert first % 2 == 0;
      PrefixMod(n - 1, first / 2, v / 2);
      assert (first + v) / 2 == first / 2 + v / 2;
    }
  }

  /** The integer code is self-delimiting and invertible for every prefix size, first octet and value. */
  lemma IntRoundTrip(n: nat, first: int, v: nat, rest: seq<Byte>)
    requires Prefix(n, first)
    ensures DecodeInt(n, Int(n, first, v) + rest) == Some((v, rest))
  {
    var limit := Pow2(n) - 1;
    PrefixMod(n, first, Min(v, limit));
    TailOfConcat(Int(n, first, v), rest);
    if v < limit {
      assert [] + rest == rest;
    } else {
      VarintRoundTrip(v - limit, rest);
      assert Int(n, first, v)[1..] == Varint(v - limit);
    }
  }

  lemma VarintStep(out: seq<Byte>, v: nat)
    requires v >= 128
    ensures (out + [v % 128 + 128]) + Varint(v / 128) == out + Varint(v)
  {
    Assoc(out, [v % 128 + 128], Varint(v / 128));
  }

  method AppendVarint(dst: seq<Byte>, v0: nat) returns (out: seq<Byte>)
    ensures out == dst + Varint(v0)
  {
    var v := v0;
    out := dst;
    while v >= 128
      invariant v >= 0
      invariant out + Varint(v) == dst + Varint(v0)
    {
      VarintStep(out, v);
      out := out + [v % 128 + 128];
      v := v / 128;
    }
    out := out + [v];
  }

  /** appendHpackInt: the prefix, then the loop that writes seven bits at a time. */
  method AppendInt(dst: seq<Byte>, n: nat, first: int, v0: nat) returns (out: seq<Byte>)
    requires Prefix(n, first)
    ensures out == dst + Int(n, first, v0)
  {
    var limit := Pow2(n) - 1;
    if v0 < limit {
      return dst + [first + v0];
    }
    out := dst + [first + limit];
    Assoc(dst, [first + limit], Varint(v0 - limit));
    out := AppendVarint(out, v0 - limit);
  }

  // ----- fields and the tables, sections 2.3 and 4 and appendix A -----

  datatype Field = Field(name: seq<Byte>, value: seq<Byte>)

  /** The two tables: the static one, and the connection's dynamic one, newest entry first. */
  datatype Table = Table(fixed: seq<Field>, entries: seq<Field>, maxSize: nat)

  function Lookup(t: Table, i: nat): Option<Field> {
    if i == 0 then None
    else if i <= |t.fixed| then Some(t.fixed[i - 1])
    else if i - 1 - |t.fixed| < |t.entries| then Some(t.entries[i - 1 - |t.fixed|])
    else None
  }

  function Size(fs: seq<Field>): nat {
    if fs == [] then 0 else |fs[0].name| + |fs[0].value| + 32 + Size(fs[1..])
  }

  function Evict(fs: seq<Field>, maxSize: nat): seq<Field> {
    if Size(fs) <= maxSize then fs else if fs == [] then [] else Evict(fs[..|fs| - 1], maxSize)
  }

  // ----- the reference decoder, sections 5.2 and 6 -----

  /** A string literal; one that is Huffman-coded is not read here. */
  function DecodeString(b: seq<Byte>): (r: Option<(seq<Byte>, seq<Byte>)>)
    ensures r.Some? ==> |r.value.1| < |b|
  {
    if b == [] || b[0] >= 128 then None else
    match DecodeInt(7, b)
    case None => None
    case Some((n, rest)) => if |rest| < n then None else Some((rest[..n], rest[n..]))
  }

  function DecodeLiteral(t: Table, n: nat, b: seq<Byte>): (r: Option<(Field, seq<Byte>)>)
    requires 1 <= n <= 8
    ensures r.Some? ==> |r.value.1| < |b|
  {
    match DecodeInt(n, b)
    case None => None
    case Some((i, rest)) =>
      var name := if i == 0 then DecodeString(rest)
                  else match Lookup(t, i) case None => None case Some(f) => Some((f.name, rest));
      match name
      case None => None
      case Some((name, rest)) =>
        match DecodeString(rest)
        case None => None
        case Some((value, rest)) => Some((Field(name, value), rest))
  }

  /** The fields of a header block, and the dynamic table it leaves. */
  function DecodeBlock(t: Table, b: seq<Byte>): Option<(seq<Field>, Table)>
    decreases |b|
  {
    if b == [] then Some(([], t))
    else if b[0] >= 128 then // indexed
      match DecodeInt(7, b)
      case None => None
      case Some((i, rest)) =>
        match Lookup(t, i)
        case None => None
        case Some(f) => Cons(f, DecodeBlock(t, rest))
    else if b[0] >= 64 then // literal, added to the table
      match DecodeLiteral(t, 6, b)
      case None => None
      case Some((f, rest)) => Cons(f, DecodeBlock(t.(entries := Evict([f] + t.entries, t.maxSize)), rest))
    else if b[0] >= 32 then // table size update
      match DecodeInt(5, b)
      case None => None
      case Some((n, rest)) => DecodeBlock(t.(entries := Evict(t.entries, n), maxSize := n), rest)
    else // literal, not added
      match DecodeLiteral(t, 4, b)
      case None => None
      case Some((f, rest)) => Cons(f, DecodeBlock(t, rest))
  }

  function Cons(f: Field, r: Option<(seq<Field>, Table)>): Option<(seq<Field>, Table)> {
    match r case None => None case Some((fs, t)) => Some(([f] + fs, t))
  }

  // ----- the encoder -----

  /** appendLiteral: a literal without indexing whose name is a static entry. */
  function Literal(nameIndex: nat, value: seq<Byte>): seq<Byte>
    requires 1 <= nameIndex <= 61
  {
    Int(4, 0, nameIndex) + Int(7, 0, |value|) + value
  }

  function MethodBytes(m: seq<Byte>): seq<Byte> {
    if m == Ascii("GET") then [0x82] else if m == Ascii("POST") then [0x83] else Literal(2, m)
  }

  predicate CarriesBody(m: seq<Byte>, body: Option<seq<Byte>>) {
    body.Some? || m == Ascii("POST") || m == Ascii("PUT")
  }

  function BodyLength(body: Option<seq<Byte>>): nat {
    if body.Some? then |body.value| else 0
  }

  function OctetStream(): seq<Byte> {
    Ascii("application/octet-stream")
  }

  function Content(body: Option<seq<Byte>>): seq<Byte> {
    Literal(31, OctetStream()) + Literal(28, Ascii(Decimal(BodyLength(body))))
  }

  /** A nil body is None: it has length 0 and, on a method other than POST and PUT, no content fields. */
  function EncodeHeaderBlock(m: seq<Byte>, authority: seq<Byte>, path: seq<Byte>, body: Option<seq<Byte>>): seq<Byte> {
    MethodBytes(m) + [0x86] + Literal(4, path) + Literal(1, authority)
    + if CarriesBody(m, body) then Content(body) else []
  }

  /** The content fields, or none. */
  function ContentFields(m: seq<Byte>, body: Option<seq<Byte>>): seq<Field> {
    if CarriesBody(m, body)
    then [Field(Ascii("content-type"), OctetStream()), Field(Ascii("content-length"), Ascii(Decimal(BodyLength(body))))]
    else []
  }

  /** The fields the block is meant to say. */
  function RequestFields(m: seq<Byte>, authority: seq<Byte>, path: seq<Byte>, body: Option<seq<Byte>>): seq<Field> {
    [Field(Ascii(":method"), m), Field(Ascii(":scheme"), Ascii("http")),
     Field(Ascii(":path"), path), Field(Ascii(":authority"), authority)]
    + ContentFields(m, body)
  }

  /** The static entries the client uses. */
  predicate KnownEntries(st: seq<Field>) {
    && |st| == 61
    && st[0].name == Ascii(":authority")
    && st[1] == Field(Ascii(":method"), Ascii("GET"))
    && st[2] == Field(Ascii(":method"), Ascii("POST"))
    && st[3].name == Ascii(":path")
    && st[5] == Field(Ascii(":scheme"), Ascii("http"))
    && st[27].name == Ascii("content-length")
    && st[30].name == Ascii("content-type")
  }

  lemma PrefixesHold()
    ensures Prefix(4, 0) && Prefix(7, 0) && Prefix(7, 128)
    ensures Pow2(4) == 16 && Pow2(7) == 128
  {
  }

  lemma DecodeIndexed(t: Table, i: nat, rest: seq<Byte>)
    requires 1 <= i <= |t.fixed| < 126
    ensures DecodeBlock(t, [128 + i] + rest) == Cons(t.fixed[i - 1], DecodeBlock(t, rest))
  {
    PrefixesHold();
    assert Int(7, 128, i) == [128 + i];
    IntRoundTrip(7, 128, i, rest);
  }

  lemma DecodeOneLiteral(t: Table, nameIndex: nat, value: seq<Byte>, rest: seq<Byte>)
    requires 1 <= nameIndex <= 61 == |t.fixed|
    ensures DecodeBlock(t, Literal(nameIndex, value) + rest)
         == Cons(Field(t.fixed[nameIndex - 1].name, value), DecodeBlock(t, rest))
  {
    PrefixesHold();
    var tail := Int(7, 0, |value|) + (value + rest);
    var b := Literal(nameIndex, value) + rest;
    assert b == Int(4, 0, nameIndex) + tail;
    IntRoundTrip(4, 0, nameIndex, tail);
    assert DecodeString(tail) == Some((value, rest)) by {
      IntRoundTrip(7, 0, |value|, value + rest);
      assert (value + rest)[..|value|] == value && (value + rest)[|value|..] == rest;
    }
    assert DecodeLiteral(t, 4, b) == Some((Field(t.fixed[nameIndex - 1].name, value), rest));
  }

  lemma DecodeMethod(t: Table, m: seq<Byte>, rest: seq<Byte>)
    requires KnownEntries(t.fixed)
    ensures DecodeBlock(t, MethodBytes(m) + rest) == Cons(Field(Ascii(":method"), m), DecodeBlock(t, rest))
  {
    if m == Ascii("GET") {
      DecodeIndexed(t, 2, rest);
    } else if m == Ascii("POST") {
      DecodeIndexed(t, 3, rest);
    } else {
      DecodeOneLiteral(t, 2, m, rest);
    }
  }

  lemma ConsTwo(a: Field, b: Field, t: Table)
    ensures Cons(a, Cons(b, Some(([], t)))) == Some(([a, b], t))
  {
    assert [a] + ([b] + []) == [a, b];
  }

  lemma DecodeContent(t: Table, kind: seq<Byte>, length: seq<Byte>, nameOfKind: seq<Byte>, nameOfLength: seq<Byte>)
    requires |t.fixed| == 61 && t.fixed[30].name == nameOfKind && t.fixed[27].name == nameOfLength
    ensures DecodeBlock(t, Literal(31, kind) + Literal(28, length))
         == Some(([Field(nameOfKind, kind), Field(nameOfLength, length)], t))
  {
    assert Literal(28, length) + [] == Literal(28, length);
    DecodeOneLiteral(t, 28, length, []);
    DecodeOneLiteral(t, 31, kind, Literal(28, length));
    ConsTwo(Field(nameOfKind, kind), Field(nameOfLength, length), t);
  }

  lemma DecodeTarget(t: Table, authority: seq<Byte>, path: seq<Byte>, extra: seq<Byte>)
    requires KnownEntries(t.fixed)
    ensures DecodeBlock(t, [0x86] + (Literal(4, path) + (Literal(1, authority) + extra)))
         == Cons(Field(Ascii(":scheme"), Ascii("http")),
              Cons(Field(Ascii(":path"), path),
                Cons(Field(Ascii(":authority"), authority), DecodeBlock(t, extra))))
  {
    DecodeOneLiteral(t, 1, authority, extra);
    DecodeOneLiteral(t, 4, path, Literal(1, authority) + extra);
    DecodeIndexed(t, 6, Literal(4, path) + (Literal(1, authority) + extra));
  }

  lemma ConcatRight(a: seq<Byte>, b: seq<Byte>, c: seq<Byte>, d: seq<Byte>, e: seq<Byte>)
    ensures a + b + c + d + e == a + (b + (c + (d + e)))
  {
  }

  lemma BlockLayout(m: seq<Byte>, authority: seq<Byte>, path: seq<Byte>, body: Option<seq<Byte>>, extra: seq<Byte>)
    requires extra == if CarriesBody(m, body) then Content(body) else []
    ensures EncodeHeaderBlock(m, authority, path, body)
         == MethodBytes(m) + ([0x86] + (Literal(4, path) + (Literal(1, authority) + extra)))
  {
    ConcatRight(MethodBytes(m), [0x86], Literal(4, path), Literal(1, authority), extra);
  }

  lemma FourAndMore(a: Field, b: Field, c: Field, d: Field, fs: seq<Field>)
    ensures [a] + ([b] + ([c] + ([d] + fs))) == [a, b, c, d] + fs
  {
  }

  lemma ConsFour(a: Field, b: Field, c: Field, d: Field, fs: seq<Field>, t: Table)
    ensures Cons(a, Cons(b, Cons(c, Cons(d, Some((fs, t)))))) == Some(([a, b, c, d] + fs, t))
  {
    FourAndMore(a, b, c, d, fs);
  }

  lemma DecodeExtra(t: Table, m: seq<Byte>, body: Option<seq<Byte>>)
    requires KnownEntries(t.fixed)
    ensures DecodeBlock(t, if CarriesBody(m, body) then Content(body) else []) == Some((ContentFields(m, body), t))
  {
    DecodeContent(t, OctetStream(), Ascii(Decimal(BodyLength(body))), Ascii("content-type"), Ascii("content-length"));
  }

  lemma DecodeAll(t: Table, m: seq<Byte>, authority: seq<Byte>, path: seq<Byte>, extra: seq<Byte>, fs: seq<Field>)
    requires KnownEntries(t.fixed)
    requires DecodeBlock(t, extra) == Some((fs, t))
    ensures DecodeBlock(t, MethodBytes(m) + ([0x86] + (Literal(4, path) + (Literal(1, authority) + extra))))
         == Some(([Field(Ascii(":method"), m), Field(Ascii(":scheme"), Ascii("http")),
                   Field(Ascii(":path"), path), Field(Ascii(":authority"), authority)] + fs, t))
  {
    var target := [0x86] + (Literal(4, path) + (Literal(1, authority) + extra));
    DecodeTarget(t, authority, path, extra);
    DecodeMethod(t, m, target);
    ConsFour(Field(Ascii(":method"), m), Field(Ascii(":scheme"), Ascii("http")),
             Field(Ascii(":path"), path), Field(Ascii(":authority"), authority), fs, t);
  }

  /** Decoding gives back exactly the intended fields, from any dynamic table, and leaves it as it was. */
  lemma BlockDecodes(t: Table, m: seq<Byte>, authority: seq<Byte>, path: seq<Byte>, body: Option<seq<Byte>>)
    requires KnownEntries(t.fixed)
    ensures DecodeBlock(t, EncodeHeaderBlock(m, authority, path, body))
            == Some((RequestFields(m, authority, path, body), t))
  {
    var extra := if CarriesBody(m, body) then Content(body) else [];
    BlockLayout(m, authority, path, body, extra);
    DecodeExtra(t, m, body);
    DecodeAll(t, m, authority, path, extra, ContentFields(m, body));
  }
}

/** The static table, appendix A of RFC 7541. */
module StaticTable {
  import opened Bytes
  import opened Hpack

  function Name(i: int): string {
    match i
    case 1 => ":authority"
    case 2 => ":method" case 3 => ":method"
    case 4 => ":path" case 5 => ":path"
    case 6 => ":scheme" case 7 => ":scheme"
    case 8 => ":status" case 9 => ":status" case 10 => ":status" case 11 => ":status"
    case 12 => ":status" case 13 => ":status" case 14 => ":status"
    case 15 => "accept-charset" case 16 => "accept-encoding" case 17 => "accept-language"
    case 18 => "accept-ranges" case 19 => "accept" case 20 => "access-control-allow-origin"
    case 21 => "age" case 22 => "allow" case 23 => "authorization" case 24 => "cache-control"
    case 25 => "content-disposition" case 26 => "content-encoding" case 27 => "content-language"
    case 28 => "content-length" case 29 => "content-location" case 30 => "content-range"
    case 31 => "content-type" case 32 => "cookie" case 33 => "date" case 34 => "etag"
    case 35 => "expect" case 36 => "expires" case 37 => "from" case 38 => "host"
    case 39 => "if-match" case 40 => "if-modified-since" case 41 => "if-none-match"
    case 42 => "if-range" case 43 => "if-unmodified-since" case 44 => "last-modified"
    case 45 => "link" case 46 => "location" case 47 => "max-forwards"
    case 48 => "proxy-authenticate" case 49 => "proxy-authorization" case 50 => "range"
    case 51 => "referer" case 52 => "refresh" case 53 => "retry-after" case 54 => "server"
    case 55 => "set-cookie" case 56 => "strict-transport-security" case 57 => "transfer-encoding"
    case 58 => "user-agent" case 59 => "vary" case 60 => "via" case _ => "www-authenticate"
  }

  function Value(i: int): string {
    match i
    case 2 => "GET" case 3 => "POST" case 4 => "/" case 5 => "/index.html"
    case 6 => "http" case 7 => "https" case 8 => "200" case 9 => "204" case 10 => "206"
    case 11 => "304" case 12 => "400" case 13 => "404" case 14 => "500"
    case 16 => "gzip, deflate"
    case _ => ""
  }

  function Entries(): seq<Field> {
    seq(61, i requires 0 <= i < 61 => Field(Ascii(Name(i + 1)), Ascii(Value(i + 1))))
  }

  /** What a header block says, octet for octet: the method, the scheme http, the path and the authority; and, when
      there is a body or the method is POST or PUT, the content type and the length of the body in digits. */
  predicate Says(fs: seq<Field>, m: seq<Byte>, authority: seq<Byte>, path: seq<Byte>, body: Option<seq<Byte>>) {
    && |fs| == (if body.Some? || m == [80, 79, 83, 84] || m == [80, 85, 84] then 6 else 4)
    && fs[0] == Field([58, 109, 101, 116, 104, 111, 100], m)
    && fs[1] == Field([58, 115, 99, 104, 101, 109, 101], [104, 116, 116, 112])
    && fs[2] == Field([58, 112, 97, 116, 104], path)
    && fs[3] == Field([58, 97, 117, 116, 104, 111, 114, 105, 116, 121], authority)
    && (|fs| == 6 ==>
          && fs[4] == Field([99, 111, 110, 116, 101, 110, 116, 45, 116, 121, 112, 101],
                            [97, 112, 112, 108, 105, 99, 97, 116, 105, 111, 110, 47,
                             111, 99, 116, 101, 116, 45, 115, 116, 114, 101, 97, 109])
          && fs[5].name == [99, 111, 110, 116, 101, 110, 116, 45, 108, 101, 110, 103, 116, 104]
          && |fs[5].value| > 0
          && Numeral(fs[5].value) == Some(match body case None => 0 case Some(data) => |data|))
  }

  lemma PseudoNames()
    ensures Ascii(":method") == [58, 109, 101, 116, 104, 111, 100]
    ensures Ascii(":scheme") == [58, 115, 99, 104, 101, 109, 101] && Ascii("http") == [104, 116, 116, 112]
    ensures Ascii(":path") == [58, 112, 97, 116, 104]
    ensures Ascii(":authority") == [58, 97, 117, 116, 104, 111, 114, 105, 116, 121]
  {
  }

  lemma MethodNames()
    ensures Ascii("POST") == [80, 79, 83, 84] && Ascii("PUT") == [80, 85, 84]
  {
  }

  lemma ContentNames()
    ensures Ascii("content-type") == [99, 111, 110, 116, 101, 110, 116, 45, 116, 121, 112, 101]
    ensures Ascii("content-length") == [99, 111, 110, 116, 101, 110, 116, 45, 108, 101, 110, 103, 116, 104]
    ensures Ascii("application/octet-stream")
            == [97, 112, 112, 108, 105, 99, 97, 116, 105, 111, 110, 47,
                111, 99, 116, 101, 116, 45, 115, 116, 114, 101, 97, 109]
  {
  }

  lemma FieldsSay(m: seq<Byte>, authority: seq<Byte>, path: seq<Byte>, body: Option<seq<Byte>>)
    ensures Says(RequestFields(m, authority, path, body), m, authority, path, body)
  {
    PseudoNames();
    MethodNames();
    ContentNames();
    var n := match body case None => 0 case Some(data) => |data|;
    DigitsOfDecimal(n);
    NumeralOfDigits(Decimal(n));
  }

  /** So a server reads from a request's header block what the request was made with. */
  lemma BlockSays(t: Table, m: seq<Byte>, authority: seq<Byte>, path: seq<Byte>, body: Option<seq<Byte>>)
    requires t.fixed == Entries()
    ensures var r := DecodeBlock(t, EncodeHeaderBlock(m, authority, path, body));
            r.Some? && r.value.1 == t && Says(r.value.0, m, authority, path, body)
  {
    BlockRoundTrip(t, m, authority, path, body);
    FieldsSay(m, authority, path, body);
  }

  /** The header block round trip against the tables of the standard. */
  lemma BlockRoundTrip(t: Table, m: seq<Byte>, authority: seq<Byte>, path: seq<Byte>, body: Option<seq<Byte>>)
    requires t.fixed == Entries()
    ensures DecodeBlock(t, EncodeHeaderBlock(m, authority, path, body))
            == Some((RequestFields(m, authority, path, body), t))
  {
    assert KnownEntries(t.fixed) by {
      assert Name(1) == ":authority" && Name(2) == ":method" && Name(3) == ":method" && Name(4) == ":path";
      assert Name(6) == ":scheme" && Name(28) == "content-length" && Name(31) == "content-type";
      assert Value(2) == "GET" && Value(3) == "POST" && Value(6) == "http";
    }
    BlockDecodes(t, m, authority, path, body);
  }

  /** Blocks decoded one after another on one connection all read alike, however many there are. */
  function DecodeRepeatedly(t: Table, block: seq<Byte>, n: nat): Option<seq<seq<Field>>>
    decreases n
  {
    if n == 0 then Some([]) else
    match DecodeBlock(t, block)
    case None => None
    case Some((fs, t')) =>
      match DecodeRepeatedly(t', block, n - 1)
      case None => None
      case Some(rest) => Some([fs] + rest)
  }

  lemma {:induction false} RepeatsDecodeAlike(t: Table, m: seq<Byte>, authority: seq<Byte>, path: seq<Byte>,
                                              body: Option<seq<Byte>>, n: nat)
    requires t.fixed == Entries()
    ensures var r := DecodeRepeatedly(t, EncodeHeaderBlock(m, authority, path, body), n);
            && r.Some? && |r.value| == n
            && forall i :: 0 <= i < n ==> r.value[i] == RequestFields(m, authority, path, body)
    decreases n
  {
    if n == 0 {
    } else {
      BlockRoundTrip(t, m, authority, path, body);
      RepeatsDecodeAlike(t, m, authority, path, body, n - 1);
    }
  }
}
