/** Octets, byte strings, decimal numerals and the Option type every other module uses. */
module Bytes {

  datatype Option<+T> = None | Some(value: T)

  type Byte = x: int | 0 <= x < 256

  /** The octets of a text whose characters are all ASCII; others become '?'. */
  function Ascii(s: string): (b: seq<Byte>)
    ensures |b| == |s| && forall i :: 0 <= i < |s| && s[i] as int < 128 ==> b[i] == s[i] as int
  {
    seq(|s|, i requires 0 <= i < |s| => if s[i] as int < 128 then s[i] as int else 63)
  }

  function Min(a: int, b: int): int {
    if a <= b then a else b
  }

  function Max(a: int, b: int): int {
    if a >= b then a else b
  }

  lemma Assoc<T>(a: seq<T>, b: seq<T>, c: seq<T>)
    ensures a + (b + c) == (a + b) + c
  {
  }

  lemma TailOfConcat<T>(a: seq<T>, b: seq<T>)
    requires a != []
    ensures (a + b)[0] == a[0] && (a + b)[1..] == a[1..] + b
  {
  }

  // ----- decimal numerals (strconv.Itoa, awk's print) -----

  function Decimal(n: nat): (s: string)
    ensures |s| > 0 && forall i :: 0 <= i < |s| ==> '0' <= s[i] <= '9'
    ensures if n < 10 then |s| == 1 else s[0] != '0'
  {
    if n < 10 then ['0' + n as char] else Decimal(n / 10) + ['0' + (n % 10) as char]
  }

  predicate IsDigits(s: string) {
    forall i :: 0 <= i < |s| ==> '0' <= s[i] <= '9'
  }

  function Digits(s: string): nat
    requires IsDigits(s)
  {
    if s == [] then 0 else 10 * Digits(s[..|s| - 1]) + (s[|s| - 1] - '0') as int
  }

  lemma {:induction false} DigitsOfDecimal(n: nat)
    ensures Digits(Decimal(n)) == n
  {
    if n < 10 {
    } else {
      DigitsOfDecimal(n / 10);
      assert Decimal(n)[..|Decimal(n)| - 1] == Decimal(n / 10);
    }
  }

  /** The number a string of ASCII digits says, or None when some octet is not a digit. */
  function Numeral(b: seq<Byte>): Option<nat> {
    if b == [] then Some(0) else
    var n := |b| - 1;
    match Numeral(b[..n])
    case None => None
    case Some(v) => if 48 <= b[n] <= 57 then Some(10 * v + (b[n] - 48)) else None
  }

  lemma {:induction false} NumeralOfDigits(s: string)
    requires IsDigits(s)
    ensures Numeral(Ascii(s)) == Some(Digits(s))
  {
    if s == [] {
    } else {
      var n := |s| - 1;
      NumeralOfDigits(s[..n]);
      assert Ascii(s)[..n] == Ascii(s[..n]);
    }
  }

  lemma {:induction false} MulMono(m: nat, a: nat, b: nat)
    requires a < b
    ensures m * a + m <= m * b
    decreases b - a
  {
    assert m * b == m * (b - 1) + m;
    if b == a + 1 {
    } else {
      MulMono(m, a, b - 1);
    }
  }

  lemma DivUnique(m: nat, q: nat, r: nat)
    requires r < m
    ensures (m * q + r) / m == q && (m * q + r) % m == r
  {
    var p := (m * q + r) / m;
    if p < q {
      MulMono(m, p, q);
    } else if p > q {
      MulMono(m, q, p);
    }
  }
}
