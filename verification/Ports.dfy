/**
 Lists of ports and port ranges, "a,b-c,...": the merge that prints one sorted with ranges that overlap or touch joined,
 and the test that compares two merged lists as strings.
 */
module Ports {
  import opened Bytes

  datatype Range = Range(lo: nat, hi: nat)

  ghost predicate Covers(rs: seq<Range>, p: nat) {
    exists i :: 0 <= i < |rs| && rs[i].lo <= p <= rs[i].hi
  }

  predicate Proper(rs: seq<Range>) {
    forall i :: 0 <= i < |rs| ==> rs[i].lo <= rs[i].hi
  }

  /** Sorted, and a gap of at least one port between any two ranges. */
  predicate Canonical(rs: seq<Range>) {
    Proper(rs) && forall i, j :: 0 <= i < j < |rs| ==> rs[i].hi + 1 < rs[j].lo
  }

  // ----- there is one canonical form of a set of ports -----

  lemma CoversTail(rs: seq<Range>, p: nat)
    requires rs != []
    ensures Covers(rs, p) <==> rs[0].lo <= p <= rs[0].hi || Covers(rs[1..], p)
  {
    if Covers(rs[1..], p) {
      var i :| 0 <= i < |rs[1..]| && rs[1..][i].lo <= p <= rs[1..][i].hi;
      assert rs[i + 1].lo <= p <= rs[i + 1].hi;
    }
    if Covers(rs, p) && !(rs[0].lo <= p <= rs[0].hi) {
      var i :| 0 <= i < |rs| && rs[i].lo <= p <= rs[i].hi;
      assert rs[1..][i - 1].lo <= p <= rs[1..][i - 1].hi;
    }
  }

  lemma CanonicalTail(rs: seq<Range>, p: nat)
    requires Canonical(rs) && rs != []
    ensures Canonical(rs[1..]) && (Covers(rs[1..], p) ==> rs[0].hi + 1 < p)
  {
  }

  lemma FirstRange(a: seq<Range>, b: seq<Range>)
    requires Canonical(a) && Canonical(b) && a != [] && b != []
    requires forall p :: Covers(a, p) <==> Covers(b, p)
    ensures a[0].lo >= b[0].lo && a[0].hi <= b[0].hi
  {
    var p := a[0].lo;
    CoversTail(a, p);
    CoversTail(b, p);
    CanonicalTail(b, p);
    CoversTail(b, b[0].lo);
    CoversTail(a, b[0].lo);
    CanonicalTail(a, b[0].lo);
    if a[0].hi > b[0].hi {
      var q := b[0].hi + 1;
      CoversTail(a, q);
      CoversTail(b, q);
      CanonicalTail(b, q);
    }
  }

  lemma {:induction false} CanonicalUnique(a: seq<Range>, b: seq<Range>)
    requires Canonical(a) && Canonical(b)
    requires forall p :: Covers(a, p) <==> Covers(b, p)
    ensures a == b
    decreases |a|
  {
    if a == [] {
      if b != [] {
        CoversTail(b, b[0].lo);
      }
    } else if b == [] {
      CoversTail(a, a[0].lo);
    } else {
      FirstRange(a, b);
      FirstRange(b, a);
      forall p ensures Covers(a[1..], p) <==> Covers(b[1..], p) {
        CoversTail(a, p);
        CoversTail(b, p);
        CanonicalTail(a, p);
        CanonicalTail(b, p);
      }
      CanonicalTail(a, 0);
      CanonicalTail(b, 0);
      CanonicalUnique(a[1..], b[1..]);
      assert a == [a[0]] + a[1..] && b == [b[0]] + b[1..];
    }
  }

  // ----- sort -n -k1,1 -k2,2 -----

  predicate Before(x: Range, y: Range) {
    x.lo < y.lo || (x.lo == y.lo && x.hi <= y.hi)
  }

  predicate Sorted(rs: seq<Range>) {
    forall i, j :: 0 <= i < j < |rs| ==> Before(rs[i], rs[j])
  }

  function Insert(x: Range, rs: seq<Range>): (r: seq<Range>)
    ensures multiset(r) == multiset(rs) + multiset{x}
  {
    if rs == [] then [x]
    else if Before(x, rs[0]) then [x] + rs
    else
      assert rs == [rs[0]] + rs[1..];
      [rs[0]] + Insert(x, rs[1..])
  }

  lemma {:induction false} InsertSorted(x: Range, rs: seq<Range>)
    requires Sorted(rs)
    ensures Sorted(Insert(x, rs))
    decreases |rs|
  {
    if rs != [] && !Before(x, rs[0]) {
      InsertSorted(x, rs[1..]);
      var t := Insert(x, rs[1..]);
      forall j | 0 <= j < |t| ensures Before(rs[0], t[j]) {
        assert t[j] in multiset(t);
        assert t[j] == x || t[j] in rs[1..];
      }
    }
  }

  /** What sort prints: the same ranges, in order. */
  function Sort(rs: seq<Range>): (r: seq<Range>)
    ensures multiset(r) == multiset(rs) && Sorted(r)
  {
    if rs == [] then [] else
    assert rs == [rs[0]] + rs[1..];
    InsertSorted(rs[0], Sort(rs[1..]));
    Insert(rs[0], Sort(rs[1..]))
  }

  lemma SortMembers(rs: seq<Range>, x: Range)
    ensures x in Sort(rs) <==> x in rs
  {
    assert x in Sort(rs) <==> x in multiset(Sort(rs));
    assert x in rs <==> x in multiset(rs);
  }

  lemma CoversSort(rs: seq<Range>, p: nat)
    ensures Covers(Sort(rs), p) <==> Covers(rs, p)
    ensures Proper(rs) ==> Proper(Sort(rs))
  {
    forall x ensures x in Sort(rs) <==> x in rs {
      SortMembers(rs, x);
    }
    CoversMembers(rs, Sort(rs), p);
    CoversMembers(Sort(rs), rs, p);
  }

  lemma CoversMembers(a: seq<Range>, b: seq<Range>, p: nat)
    requires forall x :: x in a ==> x in b
    ensures Covers(a, p) ==> Covers(b, p)
    ensures Proper(b) ==> Proper(a)
  {
    forall i | 0 <= i < |a| ensures a[i] in b {
      assert a[i] in a;
    }
    if Covers(a, p) {
      var i :| 0 <= i < |a| && a[i].lo <= p <= a[i].hi;
      var j :| 0 <= j < |b| && b[j] == a[i];
      assert b[j].lo <= p <= b[j].hi;
    }
  }

  // ----- the merge -----

  /** The merge of done ++ [cur] with the ranges still to come. */
  function MergeOnto(done: seq<Range>, cur: Range, rest: seq<Range>): seq<Range>
    decreases |rest|
  {
    if rest == [] then done + [cur]
    else if rest[0].lo <= cur.hi + 1 then MergeOnto(done, Range(cur.lo, Max(cur.hi, rest[0].hi)), rest[1..])
    else MergeOnto(done + [cur], rest[0], rest[1..])
  }

  function Merged(rs: seq<Range>): seq<Range> {
    if rs == [] then [] else MergeOnto([], rs[0], rs[1..])
  }

  lemma CoversConcat(a: seq<Range>, b: seq<Range>, p: nat)
    ensures Covers(a + b, p) <==> Covers(a, p) || Covers(b, p)
  {
    if Covers(a, p) {
      var i :| 0 <= i < |a| && a[i].lo <= p <= a[i].hi;
      assert (a + b)[i].lo <= p <= (a + b)[i].hi;
    }
    if Covers(b, p) {
      var i :| 0 <= i < |b| && b[i].lo <= p <= b[i].hi;
      assert (a + b)[|a| + i].lo <= p <= (a + b)[|a| + i].hi;
    }
  }

  lemma CoversOne(x: Range, p: nat)
    ensures Covers([x], p) <==> x.lo <= p <= x.hi
  {
    CoversTail([x], p);
  }

  /** The ranges to come start no lower than lo, in order. */
  predicate Ascending(lo: nat, rest: seq<Range>) {
    && (forall i :: 0 <= i < |rest| ==> lo <= rest[i].lo)
    && (forall i, j :: 0 <= i < j < |rest| ==> rest[i].lo <= rest[j].lo)
  }

  lemma {:induction false} MergeCovers(done: seq<Range>, cur: Range, rest: seq<Range>, p: nat)
    requires cur.lo <= cur.hi && Ascending(cur.lo, rest) && Proper(rest)
    ensures Covers(MergeOnto(done, cur, rest), p) <==> Covers(done, p) || cur.lo <= p <= cur.hi || Covers(rest, p)
    decreases |rest|
  {
    CoversConcat(done, [cur], p);
    CoversOne(cur, p);
    if rest == [] {
    } else {
      CoversTail(rest, p);
      if rest[0].lo <= cur.hi + 1 {
        MergeCovers(done, Range(cur.lo, Max(cur.hi, rest[0].hi)), rest[1..], p);
      } else {
        MergeCovers(done + [cur], rest[0], rest[1..], p);
      }
    }
  }

  lemma {:induction false} MergeCanonical(done: seq<Range>, cur: Range, rest: seq<Range>)
    requires Canonical(done + [cur]) && Ascending(cur.lo, rest) && Proper(rest)
    ensures Canonical(MergeOnto(done, cur, rest))
    decreases |rest|
  {
    assert (done + [cur])[|done|] == cur;
    if rest == [] {
    } else {
      var x := rest[0];
      if x.lo <= cur.hi + 1 {
        var wider := Range(cur.lo, Max(cur.hi, x.hi));
        forall i | 0 <= i < |done| ensures done[i].lo <= done[i].hi && done[i].hi + 1 < wider.lo {
          assert (done + [cur])[i] == done[i];
        }
        Append(done, cur, wider);
        MergeCanonical(done, wider, rest[1..]);
      } else {
        AppendNext(done, cur, x);
        MergeCanonical(done + [cur], x, rest[1..]);
      }
    }
  }

  lemma Append(done: seq<Range>, cur: Range, wider: Range)
    requires Canonical(done + [cur]) && wider.lo == cur.lo <= wider.hi
    ensures Canonical(done + [wider])
  {
    var a, b := done + [cur], done + [wider];
    forall i, j | 0 <= i < j < |b| ensures b[i].hi + 1 < b[j].lo {
      assert a[i].hi + 1 < a[j].lo;
    }
    assert forall i :: 0 <= i < |done| ==> b[i] == a[i];
  }

  lemma AppendNext(done: seq<Range>, cur: Range, x: Range)
    requires Canonical(done + [cur]) && cur.hi + 1 < x.lo <= x.hi
    ensures Canonical(done + [cur] + [x])
  {
    var a := done + [cur];
    assert a[|done|] == cur;
    assert forall i :: 0 <= i < |done| ==> a[i].hi + 1 < a[|done|].lo <= cur.hi;
  }

  /** The merge of sorted ranges: the same ports, in canonical form. */
  lemma MergedIs(rs: seq<Range>)
    requires Sorted(rs) && Proper(rs)
    ensures Canonical(Merged(rs)) && forall p :: Covers(Merged(rs), p) <==> Covers(rs, p)
  {
    if rs != [] {
      assert Ascending(rs[0].lo, rs[1..]);
      MergeCanonical([], rs[0], rs[1..]);
      forall p ensures Covers(Merged(rs), p) <==> Covers(rs, p) {
        MergeCovers([], rs[0], rs[1..], p);
        CoversTail(rs, p);
      }
    }
  }

  // ----- text -----

  function Item(r: Range): string {
    if r.lo == r.hi then Decimal(r.lo) else Decimal(r.lo) + "-" + Decimal(r.hi)
  }

  function Print(rs: seq<Range>): string {
    if rs == [] then "" else
    var n := |rs| - 1;
    if n == 0 then Item(rs[0]) else Print(rs[..n]) + "," + Item(rs[n])
  }

  /** One more character: a separator starts a field, another is added to the last. */
  function Extend(f: seq<string>, c: char, sep: char): seq<string>
    requires |f| > 0
  {
    if c == sep then f + [[]] else f[..|f| - 1] + [f[|f| - 1] + [c]]
  }

  /** The fields of a text between separators. */
  function Fields(s: string, sep: char): (f: seq<string>)
    ensures |f| > 0
  {
    if s == [] then [[]] else Extend(Fields(s[..|s| - 1], sep), s[|s| - 1], sep)
  }

  lemma ExtendConcat(f: seq<string>, g: seq<string>, c: char, sep: char)
    requires |g| > 0
    ensures Extend(f + g, c, sep) == f + Extend(g, c, sep)
  {
    assert c != sep ==> (f + g)[..|f + g| - 1] == f + g[..|g| - 1];
  }

  lemma FieldsMore(s: string, c: char, sep: char)
    ensures Fields(s + [c], sep) == Extend(Fields(s, sep), c, sep)
  {
    assert (s + [c])[..|s|] == s;
  }

  lemma JoinMore(a: string, b: string, c: char, sep: char)
    requires Fields(a + [sep] + b, sep) == Fields(a, sep) + Fields(b, sep)
    ensures Fields(a + [sep] + (b + [c]), sep) == Fields(a, sep) + Fields(b + [c], sep)
  {
    Assoc(a + [sep], b, [c]);
    FieldsMore(a + [sep] + b, c, sep);
    FieldsMore(b, c, sep);
    ExtendConcat(Fields(a, sep), Fields(b, sep), c, sep);
  }

  lemma {:induction false} FieldsJoin(a: string, b: string, sep: char)
    ensures Fields(a + [sep] + b, sep) == Fields(a, sep) + Fields(b, sep)
    decreases |b|
  {
    if b == [] {
      FieldsMore(a, sep, sep);
      assert a + [sep] + [] == a + [sep];
    } else {
      var m := |b| - 1;
      FieldsJoin(a, b[..m], sep);
      JoinMore(a, b[..m], b[m], sep);
      assert b == b[..m] + [b[m]];
    }
  }

  lemma {:induction false} FieldsPlain(s: string, sep: char)
    requires sep !in s
    ensures Fields(s, sep) == [s]
  {
    if s == [] {
    } else {
      var n := |s| - 1;
      FieldsPlain(s[..n], sep);
      assert s == s[..n] + [s[n]];
    }
  }

  /** A number as it is printed, without leading zeros. */
  predicate IsNumeral(s: string) {
    IsDigits(s) && s == Decimal(Digits(s))
  }

  /** A field of the list: empty, a port, or two ports in order. */
  predicate WellFormedField(s: string) {
    var f := Fields(s, '-');
    || s == ""
    || (|f| == 1 && IsNumeral(f[0]))
    || (|f| == 2 && IsNumeral(f[0]) && IsNumeral(f[1]) && Digits(f[0]) <= Digits(f[1]))
  }

  /** The range awk prints for a well-formed field; none for an empty one. */
  function FieldRanges(s: string): seq<Range> {
    var f := Fields(s, '-');
    if s == "" || !WellFormedField(s) then [] else [Range(Digits(f[0]), if |f| > 1 then Digits(f[1]) else Digits(f[0]))]
  }

  predicate WellFormed(fs: seq<string>) {
    forall i :: 0 <= i < |fs| ==> WellFormedField(fs[i])
  }

  function Flat<A, B>(f: A -> seq<B>, xs: seq<A>): seq<B> {
    if xs == [] then [] else Flat(f, xs[..|xs| - 1]) + f(xs[|xs| - 1])
  }

  lemma {:induction false} FlatConcat<A, B>(f: A -> seq<B>, a: seq<A>, b: seq<A>)
    ensures Flat(f, a + b) == Flat(f, a) + Flat(f, b)
    decreases |b|
  {
    if b == [] {
      assert a + b == a;
    } else {
      var n := |b| - 1;
      FlatConcat(f, a, b[..n]);
      assert (a + b)[..|a + b| - 1] == a + b[..n];
      Assoc(Flat(f, a), Flat(f, b[..n]), f(b[n]));
    }
  }

  /** The lines awk prints. */
  function Ranges(fs: seq<string>): seq<Range> {
    Flat(FieldRanges, fs)
  }

  /** A comma-separated list of ports and port ranges. */
  predicate IsList(s: string) {
    WellFormed(Fields(s, ','))
  }

  function RangesOf(s: string): seq<Range> {
    Ranges(Fields(s, ','))
  }

  lemma {:induction false} RangesProper(fs: seq<string>)
    ensures Proper(Ranges(fs))
    decreases |fs|
  {
    if fs == [] {
    } else {
      RangesProper(fs[..|fs| - 1]);
    }
  }

  lemma NumeralOfDecimal(n: nat)
    ensures IsNumeral(Decimal(n)) && Digits(Decimal(n)) == n && '-' !in Decimal(n) && ',' !in Decimal(n)
  {
    DigitsOfDecimal(n);
  }

  /** An item is read back. */
  lemma ItemReadBack(r: Range)
    requires r.lo <= r.hi
    ensures ',' !in Item(r) && WellFormedField(Item(r)) && FieldRanges(Item(r)) == [r]
  {
    NumeralOfDecimal(r.lo);
    NumeralOfDecimal(r.hi);
    FieldsPlain(Decimal(r.lo), '-');
    FieldsPlain(Decimal(r.hi), '-');
    FieldsJoin(Decimal(r.lo), Decimal(r.hi), '-');
  }

  lemma OneField(s: string)
    requires WellFormedField(s)
    ensures WellFormed([s]) && Ranges([s]) == FieldRanges(s)
  {
    assert Flat(FieldRanges, [s]) == Flat(FieldRanges, [s][..0]) + FieldRanges(s);
  }

  lemma ListMore(s: string, item: string)
    requires IsList(s) && ',' !in item && WellFormedField(item)
    ensures IsList(s + "," + item) && RangesOf(s + "," + item) == RangesOf(s) + FieldRanges(item)
  {
    FieldsPlain(item, ',');
    OneField(item);
    FieldsJoin(s, item, ',');
    FlatConcat(FieldRanges, Fields(s, ','), [item]);
  }

  /** Printing and reading back gives the ranges that were printed. */
  lemma {:induction false} PrintReadBack(rs: seq<Range>)
    requires Proper(rs)
    ensures IsList(Print(rs)) && RangesOf(Print(rs)) == rs
    decreases |rs|
  {
    if rs == [] {
      OneField("");
    } else {
      var n := |rs| - 1;
      ItemReadBack(rs[n]);
      assert rs == rs[..n] + [rs[n]];
      if n > 0 {
        PrintReadBack(rs[..n]);
        ListMore(Print(rs[..n]), Item(rs[n]));
      } else {
        FieldsPlain(Item(rs[n]), ',');
        OneField(Item(rs[n]));
      }
    }
  }

  // ----- the merge of a text -----

  function MergedText(s: string): string {
    Print(Merged(Sort(RangesOf(s))))
  }

  lemma MergedTextIs(s: string)
    requires IsList(s)
    ensures var c := Merged(Sort(RangesOf(s)));
            Canonical(c) && forall p :: Covers(c, p) <==> Covers(RangesOf(s), p)
  {
    RangesProper(Fields(s, ','));
    CoversSort(RangesOf(s), 0);
    MergedIs(Sort(RangesOf(s)));
    forall p ensures Covers(Merged(Sort(RangesOf(s))), p) <==> Covers(RangesOf(s), p) {
      CoversSort(RangesOf(s), p);
    }
  }

  /** After i ranges: those done are printed, cur is being grown, and the rest are to come. */
  ghost predicate Merging(rs: seq<Range>, i: nat, done: seq<Range>, cur: Range, out: string, sep: string) {
    && i <= |rs| && Merged(rs) == MergeOnto(done, cur, rs[i..])
    && out == Print(done) && sep == if done == [] then "" else ","
  }

  lemma MergeBegins(rs: seq<Range>)
    requires rs != []
    ensures Merging(rs, 1, [], rs[0], "", "")
  {
  }

  lemma MergeGrows(rs: seq<Range>, i: nat, done: seq<Range>, cur: Range, out: string, sep: string)
    requires Merging(rs, i, done, cur, out, sep) && i < |rs| && rs[i].lo <= cur.hi + 1
    ensures Merging(rs, i + 1, done, Range(cur.lo, Max(cur.hi, rs[i].hi)), out, sep)
  {
    assert rs[i..][1..] == rs[i + 1..];
  }

  lemma MergeMoves(rs: seq<Range>, i: nat, done: seq<Range>, cur: Range, out: string, sep: string)
    requires Merging(rs, i, done, cur, out, sep) && i < |rs| && rs[i].lo > cur.hi + 1
    ensures Merging(rs, i + 1, done + [cur], rs[i], out + sep + Item(cur), ",")
  {
    assert rs[i..][1..] == rs[i + 1..];
    PrintMore(done, cur);
  }

  lemma MergeEnds(rs: seq<Range>, done: seq<Range>, cur: Range, out: string, sep: string)
    requires Merging(rs, |rs|, done, cur, out, sep)
    ensures out + sep + Item(cur) == Print(Merged(rs))
  {
    PrintMore(done, cur);
  }

  /** One record after the first: the range being grown takes it in, or is printed and makes way for it. */
  method MergeRecord(rs: seq<Range>, i: nat, lo0: nat, hi0: nat, out0: string, sep0: string, ghost done0: seq<Range>)
    returns (lo: nat, hi: nat, out: string, sep: string, ghost done: seq<Range>)
    requires i < |rs| && Merging(rs, i, done0, Range(lo0, hi0), out0, sep0)
    ensures Merging(rs, i + 1, done, Range(lo, hi), out, sep)
  {
    lo, hi, out, sep, done := lo0, hi0, out0, sep0, done0;
    if rs[i].lo <= hi + 1 {
      MergeGrows(rs, i, done, Range(lo, hi), out, sep);
      if rs[i].hi > hi {
        hi := rs[i].hi;
      }
    } else {
      MergeMoves(rs, i, done, Range(lo, hi), out, sep);
      out := out + sep + Item(Range(lo, hi));
      sep := ",";
      done := done + [Range(lo, hi)];
      lo, hi := rs[i].lo, rs[i].hi;
    }
  }

  /** The awk program over sorted ranges: lo and hi are the range being grown, out and sep the text so far. */
  method MergeLoop(rs: seq<Range>) returns (text: string)
    ensures text == Print(Merged(rs))
  {
    if |rs| == 0 {
      return "";
    }
    MergeBegins(rs);
    var out, sep := "", "";
    var lo, hi := rs[0].lo, rs[0].hi;
    ghost var done := [];
    var i := 1;
    while i < |rs|
      invariant 1 <= i <= |rs| && Merging(rs, i, done, Range(lo, hi), out, sep)
    {
      lo, hi, out, sep, done := MergeRecord(rs, i, lo, hi, out, sep, done);
      i := i + 1;
    }
    MergeEnds(rs, done, Range(lo, hi), out, sep);
    text := out + sep + Item(Range(lo, hi));
  }

  lemma PrintMore(done: seq<Range>, r: Range)
    ensures Print(done + [r]) == Print(done) + (if done == [] then "" else ",") + Item(r)
  {
    assert (done + [r])[..|done|] == done;
  }

  /** bench_merge_port_ranges: split, sort, merge and print. */
  method MergePortRanges(s: string) returns (text: string)
    requires IsList(s)
    ensures text == MergedText(s)
    ensures IsList(text) && Canonical(RangesOf(text))
    ensures forall p :: Covers(RangesOf(text), p) <==> Covers(RangesOf(s), p)
  {
    MergedTextIs(s);
    PrintReadBack(Merged(Sort(RangesOf(s))));
    text := MergeLoop(Sort(RangesOf(s)));
  }

  /** Two lists of the same ports merge to the same text, and no others do. */
  lemma SameTextIffSamePorts(s: string, t: string)
    requires IsList(s) && IsList(t)
    ensures MergedText(s) == MergedText(t) <==> forall p :: Covers(RangesOf(s), p) <==> Covers(RangesOf(t), p)
  {
    var c, d := Merged(Sort(RangesOf(s))), Merged(Sort(RangesOf(t)));
    MergedTextIs(s);
    MergedTextIs(t);
    PrintReadBack(c);
    PrintReadBack(d);
    if forall p :: Covers(RangesOf(s), p) <==> Covers(RangesOf(t), p) {
      CanonicalUnique(c, d);
    }
  }

  /** Merging a merged list changes nothing. */
  lemma MergeIdempotent(s: string)
    requires IsList(s)
    ensures IsList(MergedText(s)) && MergedText(MergedText(s)) == MergedText(s)
  {
    MergedTextIs(s);
    PrintReadBack(Merged(Sort(RangesOf(s))));
    SameTextIffSamePorts(MergedText(s), s);
  }

  /** printf '%s,%s' of two lists, either of which may be empty, is a list of the ports of both. */
  lemma JoinedList(s: string, t: string)
    requires IsList(s) && IsList(t)
    ensures IsList(s + "," + t)
    ensures forall p :: Covers(RangesOf(s + "," + t), p) <==> Covers(RangesOf(s), p) || Covers(RangesOf(t), p)
  {
    FieldsJoin(s, t, ',');
    FlatConcat(FieldRanges, Fields(s, ','), Fields(t, ','));
    forall p ensures Covers(RangesOf(s + "," + t), p) <==> Covers(RangesOf(s), p) || Covers(RangesOf(t), p) {
      CoversConcat(RangesOf(s), RangesOf(t), p);
    }
  }

  /** The already-reserved test: the two merged texts are equal exactly when every wanted port is reserved already. */
  lemma ReservedTest(current: string, want: string)
    requires IsList(current) && IsList(want)
    ensures IsList(current + "," + want)
    ensures MergedText(current + "," + want) == MergedText(current)
            <==> forall p :: Covers(RangesOf(want), p) ==> Covers(RangesOf(current), p)
  {
    JoinedList(current, want);
    SameTextIffSamePorts(current + "," + want, current);
  }
}
