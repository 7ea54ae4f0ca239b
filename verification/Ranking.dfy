/** The order of the rows of a result table, and the percentages in its ranked columns. */
module Ranking {
  import opened Bytes

  type Keys = seq<real>

  /** a is bigger than b on the first key they differ on. */
  ghost predicate Above(a: Keys, b: Keys) {
    exists k :: 0 <= k < |a| && k < |b| && a[..k] == b[..k] && a[k] > b[k]
  }

  method RankedBefore(a: Keys, b: Keys) returns (before: bool)
    ensures before <==> Above(a, b)
  {
    var i := 0;
    while i < |a| && i < |b|
      invariant 0 <= i <= |a| && i <= |b| && a[..i] == b[..i]
    {
      if a[i] != b[i] {
        if a[i] > b[i] {
          assert Above(a, b);
        } else if Above(a, b) {
          NotBoth(a, b, i);
        }
        return a[i] > b[i];
      }
      i := i + 1;
    }
    return false;
  }

  lemma InPrefix(a: Keys, b: Keys, l: nat, k: nat)
    requires k < l <= |a| && l <= |b| && a[..l] == b[..l]
    ensures a[k] == b[k]
  {
    assert a[..l][k] == b[..l][k];
  }

  lemma NotBoth(a: Keys, b: Keys, k: nat)
    requires k < |a| && k < |b| && a[..k] == b[..k] && b[k] > a[k]
    ensures !Above(a, b)
  {
    forall l | 0 <= l < |a| && l < |b| && a[..l] == b[..l] ensures a[l] <= b[l] {
      if l < k {
        InPrefix(a, b, k, l);
      } else if l > k {
        InPrefix(a, b, l, k);
      }
    }
  }

  lemma AboveAsymmetric(a: Keys, b: Keys)
    requires Above(a, b)
    ensures !Above(b, a)
  {
    var k :| 0 <= k < |a| && k < |b| && a[..k] == b[..k] && a[k] > b[k];
    NotBoth(b, a, k);
  }

  lemma AboveTransitive(a: Keys, b: Keys, c: Keys)
    requires Above(a, b) && Above(b, c)
    ensures Above(a, c)
  {
    var k :| 0 <= k < |a| && k < |b| && a[..k] == b[..k] && a[k] > b[k];
    var l :| 0 <= l < |b| && l < |c| && b[..l] == c[..l] && b[l] > c[l];
    var m := if k < l then k else l;
    assert a[..m] == a[..k][..m] == b[..m] == b[..l][..m] == c[..m];
    if k < l {
      assert b[k] == b[..l][k] == c[..l][k] == c[k];
    } else if l < k {
      assert a[l] == a[..k][l] == b[..k][l] == b[l];
    }
    assert a[m] > c[m];
  }

  lemma {:induction false} TiesAgree(a: Keys, b: Keys, k: nat)
    requires |a| == |b| && !Above(a, b) && !Above(b, a) && k <= |a|
    ensures a[..k] == b[..k]
  {
    if k == 0 {
    } else {
      TiesAgree(a, b, k - 1);
      assert !(a[k - 1] > b[k - 1]) && !(b[k - 1] > a[k - 1]);
      assert a[..k] == a[..k - 1] + [a[k - 1]];
      assert b[..k] == b[..k - 1] + [b[k - 1]];
    }
  }

  /** Of equally many keys, those that do not outrank each other either way are the same. */
  lemma TiesAreEqual(a: Keys, b: Keys)
    requires |a| == |b|
    ensures !Above(a, b) && !Above(b, a) <==> a == b
  {
    if !Above(a, b) && !Above(b, a) {
      TiesAgree(a, b, |a|);
      assert a == a[..|a|] && b == b[..|a|];
    }
  }

  // ----- the stable order -----

  predicate EqualLengths(keys: seq<Keys>) {
    forall i, j :: 0 <= i < |keys| && 0 <= j < |keys| ==> |keys[i]| == |keys[j]|
  }

  /** Row i goes before row j: it ranks above it, or they tie and it came first. */
  ghost predicate Goes(keys: seq<Keys>, i: nat, j: nat)
    requires i < |keys| && j < |keys|
  {
    Above(keys[i], keys[j]) || (!Above(keys[j], keys[i]) && i < j)
  }

  lemma GoesAsymmetric(keys: seq<Keys>, i: nat, j: nat)
    requires i < |keys| && j < |keys| && Goes(keys, i, j)
    ensures !Goes(keys, j, i)
  {
    if Above(keys[i], keys[j]) {
      AboveAsymmetric(keys[i], keys[j]);
    }
  }

  /** order lists every row once. */
  ghost predicate IsOrder(order: seq<nat>, n: nat) {
    && |order| == n
    && (forall p :: 0 <= p < n ==> order[p] < n)
    && (forall i :: 0 <= i < n ==> i in order)
    && (forall p, q :: 0 <= p < q < n ==> order[p] != order[q])
  }

  /** Highest first, and rows that tie in the order they came in. */
  ghost predicate IsRanking(keys: seq<Keys>, order: seq<nat>) {
    IsOrder(order, |keys|) && forall p, q :: 0 <= p < q < |keys| ==> Goes(keys, order[p], order[q])
  }

  lemma Behind(keys: seq<Keys>, x: seq<nat>, y: seq<nat>, p: nat)
    requires IsRanking(keys, x) && IsRanking(keys, y) && p < |keys| && x[..p] == y[..p] && x[p] != y[p]
    ensures Goes(keys, y[p], x[p])
  {
    assert x[p] in y;
    var q :| 0 <= q < |y| && y[q] == x[p];
    assert forall r :: 0 <= r < p ==> x[..p][r] == y[..p][r];
  }

  lemma {:induction false} SamePrefix(keys: seq<Keys>, x: seq<nat>, y: seq<nat>, p: nat)
    requires IsRanking(keys, x) && IsRanking(keys, y) && p <= |keys|
    ensures x[..p] == y[..p]
  {
    if p == 0 {
    } else {
      SamePrefix(keys, x, y, p - 1);
      if x[p - 1] != y[p - 1] {
        Behind(keys, x, y, p - 1);
        Behind(keys, y, x, p - 1);
        GoesAsymmetric(keys, x[p - 1], y[p - 1]);
      }
      assert x[..p] == x[..p - 1] + [x[p - 1]] && y[..p] == y[..p - 1] + [y[p - 1]];
    }
  }

  /** A table has at most one ranking. */
  lemma RankingUnique(keys: seq<Keys>, x: seq<nat>, y: seq<nat>)
    requires IsRanking(keys, x) && IsRanking(keys, y)
    ensures x == y
  {
    SamePrefix(keys, x, y, |keys|);
    assert x[..|keys|] == x && y[..|keys|] == y;
  }

  // ----- when there is one -----

  ghost predicate Tied(a: Keys, b: Keys) {
    !Above(a, b) && !Above(b, a)
  }

  /** A row that ties with one before it and with one after it, though the later outranks the earlier. */
  ghost predicate Tangle(keys: seq<Keys>, i: nat, j: nat, k: nat) {
    i < j < k < |keys| && Tied(keys[i], keys[j]) && Tied(keys[j], keys[k]) && Above(keys[k], keys[i])
  }

  ghost predicate Tangled(keys: seq<Keys>) {
    exists i: nat, j: nat, k: nat :: Tangle(keys, i, j, k)
  }

  lemma TangleIsACycle(keys: seq<Keys>, i: nat, j: nat, k: nat)
    requires Tangle(keys, i, j, k)
    ensures Goes(keys, i, j) && Goes(keys, j, k) && Goes(keys, k, i)
  {
  }

  lemma NotTwoAbove(keys: seq<Keys>, i: nat, j: nat, k: nat)
    requires i < |keys| && j < |keys| && k < |keys|
    requires Above(keys[i], keys[j]) && Above(keys[j], keys[k])
    ensures !Goes(keys, k, i)
  {
    AboveTransitive(keys[i], keys[j], keys[k]);
    AboveAsymmetric(keys[i], keys[k]);
  }

  /** Rows that go round in a circle are a tangle. */
  lemma CycleIsATangle(keys: seq<Keys>, i: nat, j: nat, k: nat)
    requires i < |keys| && j < |keys| && k < |keys|
    requires Goes(keys, i, j) && Goes(keys, j, k) && Goes(keys, k, i)
    ensures Tangled(keys)
  {
    if Above(keys[i], keys[j]) {
      if Above(keys[j], keys[k]) {
        NotTwoAbove(keys, i, j, k);
      } else if Above(keys[k], keys[i]) {
        NotTwoAbove(keys, k, i, j);
      } else {
        assert Tangle(keys, j, k, i);
      }
    } else if Above(keys[j], keys[k]) {
      if Above(keys[k], keys[i]) {
        NotTwoAbove(keys, j, k, i);
      } else {
        assert Tangle(keys, k, i, j);
      }
    } else {
      assert Tangle(keys, i, j, k);
    }
  }

  lemma GoesTransitive(keys: seq<Keys>, i: nat, j: nat, k: nat)
    requires !Tangled(keys) && i < |keys| && j < |keys| && k < |keys|
    requires Goes(keys, i, j) && Goes(keys, j, k)
    ensures Goes(keys, i, k)
  {
    if i == k {
      GoesAsymmetric(keys, i, j);
    } else if !Goes(keys, i, k) {
      CycleIsATangle(keys, i, j, k);
    }
  }

  lemma Position(order: seq<nat>, n: nat, i: nat) returns (p: nat)
    requires IsOrder(order, n) && i < n
    ensures p < n && order[p] == i
  {
    assert i in order;
    p :| p < n && order[p] == i;
  }

  lemma NoRankingIfTangled(keys: seq<Keys>, order: seq<nat>)
    requires IsRanking(keys, order)
    ensures !Tangled(keys)
  {
    if Tangled(keys) {
      var i: nat, j: nat, k: nat :| Tangle(keys, i, j, k);
      TangleIsACycle(keys, i, j, k);
      var p := Position(order, |keys|, i);
      var q := Position(order, |keys|, j);
      var r := Position(order, |keys|, k);
      GoesAsymmetric(keys, i, j);
      GoesAsymmetric(keys, j, k);
      GoesAsymmetric(keys, k, i);
    }
  }

  /** Rows with equally many keys are never tangled. */
  lemma EqualLengthsUntangled(keys: seq<Keys>)
    requires EqualLengths(keys)
    ensures !Tangled(keys)
  {
    forall i: nat, j: nat, k: nat ensures !Tangle(keys, i, j, k) {
      if Tangle(keys, i, j, k) {
        var a, b, c := keys[i], keys[j], keys[k];
        TiesAreEqual(a, b);
        TiesAreEqual(b, c);
        AboveAsymmetric(c, a);
      }
    }
  }

  // ----- SortReports -----

  datatype Report = Report(name: string, keys: Keys)

  function KeysOf(rs: seq<Report>): (ks: seq<Keys>)
    ensures |ks| == |rs|
  {
    seq(|rs|, i requires 0 <= i < |rs| => rs[i].keys)
  }

  /** The rows of rs in the given order. */
  ghost predicate Arranged(rs: seq<Report>, order: seq<nat>, now: seq<Report>) {
    IsOrder(order, |rs|) && |now| == |rs| && forall p :: 0 <= p < |rs| ==> now[p] == rs[order[p]]
  }

  /** The first n rows are ranked. */
  ghost predicate RankedUpTo(keys: seq<Keys>, order: seq<nat>, n: nat) {
    && |order| == |keys| && n <= |keys| && (forall p :: 0 <= p < |keys| ==> order[p] < |keys|)
    && forall p, q :: 0 <= p < q < n ==> Goes(keys, order[p], order[q])
  }

  /** Row i, which came after the first i rows, has moved up to position j: the others are ranked, and it goes before
      those it has passed. */
  ghost predicate Sinking(keys: seq<Keys>, order: seq<nat>, i: nat, j: nat) {
    && |order| == |keys| && j <= i < |keys| && order[j] == i
    && (forall p :: 0 <= p < |keys| ==> order[p] < |keys|)
    && (forall p :: 0 <= p <= i && p != j ==> order[p] < i)
    && (forall p :: i < p < |keys| ==> order[p] == p)
    && (forall p, q :: 0 <= p < q <= i && p != j && q != j ==> Goes(keys, order[p], order[q]))
    && (forall q :: j < q <= i ==> Goes(keys, i, order[q]))
  }

  lemma MoveUp(keys: seq<Keys>, order: seq<nat>, i: nat, j: nat)
    requires Sinking(keys, order, i, j) && j > 0 && Above(keys[i], keys[order[j - 1]])
    ensures Sinking(keys, order[j := order[j - 1]][j - 1 := i], i, j - 1)
  {
  }

  lemma Settle(keys: seq<Keys>, order: seq<nat>, i: nat, j: nat)
    requires !Tangled(keys) && Sinking(keys, order, i, j)
    requires j > 0 ==> !Above(keys[i], keys[order[j - 1]])
    ensures RankedUpTo(keys, order, i + 1)
  {
    forall p | 0 <= p < j ensures Goes(keys, order[p], i) {
      assert Goes(keys, order[j - 1], i);
      if p < j - 1 {
        GoesTransitive(keys, order[p], order[j - 1], i);
      }
    }
  }

  /** Row i, not yet moved. */
  lemma Enter(keys: seq<Keys>, order: seq<nat>, i: nat)
    requires i < |keys| && (!Tangled(keys) ==> RankedUpTo(keys, order, i))
    requires IsOrder(order, |keys|) && (forall p :: i <= p < |keys| ==> order[p] == p)
    requires (forall p :: 0 <= p < i ==> order[p] < i)
    ensures !Tangled(keys) ==> Sinking(keys, order, i, i)
  {
  }

  lemma SwapIsOrder(order: seq<nat>, n: nat, j: nat)
    requires IsOrder(order, n) && 0 < j < n
    ensures IsOrder(order[j := order[j - 1]][j - 1 := order[j]], n)
  {
    var after := order[j := order[j - 1]][j - 1 := order[j]];
    forall i | 0 <= i < n ensures i in after {
      var p := Position(order, n, i);
      assert after[if p == j then j - 1 else if p == j - 1 then j else p] == i;
    }
  }

  lemma Unmoved(n: nat)
    ensures IsOrder(seq(n, i => i), n)
  {
    var order := seq(n, i => i);
    forall i | 0 <= i < n ensures i in order {
      assert order[i] == i;
    }
  }

  /** SortReports: by result, a stable insertion in which each row moves up past those it ranks above; by anything else,
      nothing. */
  method SortReports(reports: array<Report>, byResult: bool) returns (ghost order: seq<nat>)
    modifies reports
    ensures Arranged(old(reports[..]), order, reports[..])
    ensures byResult && !Tangled(KeysOf(old(reports[..]))) ==> IsRanking(KeysOf(old(reports[..])), order)
    ensures !byResult ==> reports[..] == old(reports[..])
  {
    var n := reports.Length;
    ghost var rs := reports[..];
    ghost var keys := KeysOf(rs);
    order := seq(n, i => i);
    Unmoved(n);
    if !byResult {
      return;
    }
    var i := 0;
    while i < n
      invariant 0 <= i <= n && Arranged(rs, order, reports[..])
      invariant (forall p :: i <= p < n ==> order[p] == p) && (forall p :: 0 <= p < i ==> order[p] < i)
      invariant !Tangled(keys) ==> RankedUpTo(keys, order, i)
    {
      order := MoveRow(reports, rs, order, i);
      i := i + 1;
    }
  }

  method MoveRow(reports: array<Report>, ghost rs: seq<Report>, ghost before: seq<nat>, i: nat)
    returns (ghost order: seq<nat>)
    requires i < reports.Length == |rs| && Arranged(rs, before, reports[..])
    requires (forall p :: i <= p < |rs| ==> before[p] == p) && (forall p :: 0 <= p < i ==> before[p] < i)
    requires !Tangled(KeysOf(rs)) ==> RankedUpTo(KeysOf(rs), before, i)
    modifies reports
    ensures Arranged(rs, order, reports[..])
    ensures (forall p :: i < p < |rs| ==> order[p] == p) && (forall p :: 0 <= p <= i ==> order[p] <= i)
    ensures !Tangled(KeysOf(rs)) ==> RankedUpTo(KeysOf(rs), order, i + 1)
  {
    ghost var keys := KeysOf(rs);
    order := before;
    var j := i;
    Enter(keys, order, i);
    while j > 0
      invariant 0 <= j <= i && Arranged(rs, order, reports[..]) && order[j] == i
      invariant (forall p :: i < p < |rs| ==> order[p] == p) && (forall p :: 0 <= p <= i ==> order[p] <= i)
      invariant !Tangled(keys) ==> Sinking(keys, order, i, j)
    {
      var before := RankedBefore(reports[j].keys, reports[j - 1].keys);
      if !before {
        break;
      }
      SwapIsOrder(order, |rs|, j);
      if !Tangled(keys) {
        MoveUp(keys, order, i, j);
      }
      order := order[j := order[j - 1]][j - 1 := order[j]];
      reports[j], reports[j - 1] := reports[j - 1], reports[j];
      j := j - 1;
    }
    if !Tangled(keys) {
      Settle(keys, order, i, j);
    }
  }

  // ----- a ranking exists exactly for rows that are not tangled -----

  lemma {:induction false} Sink(keys: seq<Keys>, order: seq<nat>, i: nat, j: nat) returns (after: seq<nat>)
    requires !Tangled(keys) && IsOrder(order, |keys|) && Sinking(keys, order, i, j)
    ensures IsOrder(after, |keys|) && RankedUpTo(keys, after, i + 1)
    ensures (forall p :: i < p < |keys| ==> after[p] == p) && (forall p :: 0 <= p <= i ==> after[p] <= i)
    decreases j
  {
    if j > 0 && Above(keys[i], keys[order[j - 1]]) {
      SwapIsOrder(order, |keys|, j);
      MoveUp(keys, order, i, j);
      after := Sink(keys, order[j := order[j - 1]][j - 1 := i], i, j - 1);
    } else {
      Settle(keys, order, i, j);
      after := order;
    }
  }

  lemma {:induction false} RankFirst(keys: seq<Keys>, n: nat) returns (order: seq<nat>)
    requires !Tangled(keys) && n <= |keys|
    ensures IsOrder(order, |keys|) && RankedUpTo(keys, order, n)
    ensures (forall p :: n <= p < |keys| ==> order[p] == p) && (forall p :: 0 <= p < n ==> order[p] < n)
  {
    if n == 0 {
      Unmoved(|keys|);
      order := seq(|keys|, i => i);
    } else {
      var before := RankFirst(keys, n - 1);
      Enter(keys, before, n - 1);
      order := Sink(keys, before, n - 1, n - 1);
    }
  }

  lemma RankingExists(keys: seq<Keys>)
    ensures (exists order :: IsRanking(keys, order)) <==> !Tangled(keys)
  {
    if !Tangled(keys) {
      var order := RankFirst(keys, |keys|);
      assert IsRanking(keys, order);
    } else {
      forall order ensures !IsRanking(keys, order) {
        if IsRanking(keys, order) {
          NoRankingIfTangled(keys, order);
        }
      }
    }
  }

  /** Rows of unequal lengths can be tangled: a row with one key between two that share it and have a second. */
  lemma UnequalLengthsTangle(x: real, y: real, z: real)
    requires y < z
    ensures Tangled([[x, y], [x], [x, z]])
  {
    var a, b, c := [x, y], [x], [x, z];
    assert c[..1] == a[..1] && c[1] > a[1];
    assert Tangle([a, b, c], 0, 1, 2);
  }

  // ----- percentages -----

  const SLACK := 0.000000001

  /** Percent, as a number. */
  function PercentOf(value: real, best: real): (p: int) {
    if best <= 0.0 || value <= 0.0 then 0
    else if value >= best then 100
    else Min((value * 100.0 / best + SLACK).Floor, 99)
  }

  function Percent(value: real, best: real): string {
    PercentRange(value, best);
    Decimal(PercentOf(value, best)) + "%"
  }

  /** It is printed in digits, and a percent sign follows. */
  lemma PercentText(value: real, best: real)
    ensures var s := Percent(value, best);
            && |s| > 1 && s[|s| - 1] == '%'
            && IsDigits(s[..|s| - 1]) && Digits(s[..|s| - 1]) == PercentOf(value, best)
  {
    PercentRange(value, best);
    var d := Decimal(PercentOf(value, best));
    DigitsOfDecimal(PercentOf(value, best));
    assert (d + "%")[..|d|] == d;
  }

  lemma RatioMonotone(v: real, w: real, best: real)
    requires best > 0.0 && v <= w
    ensures v * 100.0 / best <= w * 100.0 / best
  {
    var x, y := v * 100.0 / best, w * 100.0 / best;
    assert x * best == v * 100.0 && y * best == w * 100.0;
  }

  /** Between 0 and 100, and 100 for the best alone. */
  lemma PercentRange(value: real, best: real)
    ensures 0 <= PercentOf(value, best) <= 100
    ensures PercentOf(value, best) == 100 <==> value >= best > 0.0
  {
    if best > 0.0 && 0.0 < value < best {
      RatioMonotone(0.0, value, best);
      assert 0.0 * 100.0 / best == 0.0;
    }
  }

  /** A bigger value never reads less. */
  lemma PercentMonotone(v: real, w: real, best: real)
    requires v <= w
    ensures PercentOf(v, best) <= PercentOf(w, best)
  {
    PercentRange(v, best);
    PercentRange(w, best);
    if best > 0.0 {
      RatioMonotone(v, w, best);
    }
  }

  lemma Positive(x: real, y: real)
    requires x > 0.0 && y > 0.0
    ensures x * y > 0.0
  {
  }

  /** The value that is x percent of the best lies strictly between 0 and it, and divides back to x. */
  lemma Fraction(value: real, best: real, x: real)
    requires best > 0.0 && 0.0 < x < 100.0 && value * 100.0 == best * x
    ensures 0.0 < value < best && value * 100.0 / best == x
  {
    Positive(best, x);
    Positive(best, 100.0 - x);
    assert best * (100.0 - x) == best * 100.0 - best * x;
    assert value * 100.0 < best * 100.0;
  }

  /** A whole percentage of the best reads as that percentage. */
  lemma PercentExact(value: real, best: real, k: int)
    requires best > 0.0 && 0 < k < 100 && value * 100.0 == best * k as real
    ensures PercentOf(value, best) == k
  {
    Fraction(value, best, k as real);
  }

  /** Otherwise a percentage is floored: k, when the value is at least k percent of the best and short of k + 1 percent
      by more than a billionth of a percent. */
  lemma PercentFloors(value: real, best: real, k: int)
    requires 0.0 < value < best && k as real * best <= value * 100.0
    requires value * 100.0 + 0.000000001 * best < (k + 1) as real * best
    ensures PercentOf(value, best) == k
  {
    var x := value * 100.0 / best;
    assert x * best == value * 100.0;
    Compare(best, k as real, x);
    CompareStrictly(best, x + 0.000000001, (k + 1) as real);
    assert x < 100.0 by {
      CompareStrictly(best, x, 100.0);
    }
  }

  lemma Compare(best: real, a: real, b: real)
    requires best > 0.0 && a * best <= b * best
    ensures a <= b
  {
    if a > b {
      Positive(a - b, best);
    }
  }

  lemma CompareStrictly(best: real, a: real, b: real)
    requires best > 0.0 && a * best < b * best
    ensures a < b
  {
    if a >= b && a != b {
      Positive(a - b, best);
    }
  }

  // ----- a column's cells -----

  function Spaces(n: nat): (s: string)
    ensures |s| == n
  {
    seq(n, _ => ' ')
  }

  /** s, right-aligned. */
  function Pad(s: string, width: nat): (r: string)
    ensures |r| == Max(width, |s|)
  {
    Spaces(if |s| < width then width - |s| else 0) + s
  }

  function Best(values: seq<real>): (b: real)
    ensures b >= 0.0 && forall i :: 0 <= i < |values| ==> values[i] <= b
    ensures b == 0.0 || b in values
  {
    if values == [] then 0.0 else
    var n := |values| - 1;
    var b := Best(values[..n]);
    if values[n] > b then values[n] else b
  }

  function Widest(ss: seq<string>): (w: nat)
    ensures forall i :: 0 <= i < |ss| ==> |ss[i]| <= w
    ensures w == 0 || exists i :: 0 <= i < |ss| && |ss[i]| == w
  {
    if ss == [] then 0 else
    var n := |ss| - 1;
    Max(Widest(ss[..n]), |ss[n]|)
  }

  function Column(rows: seq<seq<string>>, col: nat): (ss: seq<string>)
    requires forall i :: 0 <= i < |rows| ==> col < |rows[i]|
    ensures |ss| == |rows| && forall i :: 0 <= i < |rows| ==> ss[i] == rows[i][col]
  {
    seq(|rows|, i requires 0 <= i < |rows| => rows[i][col])
  }

  function Percents(values: seq<real>, n: nat): (ss: seq<string>)
    requires n <= |values|
    ensures |ss| == n
  {
    seq(n, i requires 0 <= i < n => Percent(values[i], Best(values)))
  }

  method FindBest(values: seq<real>) returns (best: real)
    ensures best == Best(values)
  {
    best := 0.0;
    var k := 0;
    while k < |values|
      invariant 0 <= k <= |values| && best == Best(values[..k])
    {
      assert values[..k + 1][..k] == values[..k];
      best := if values[k] > best then values[k] else best;
      k := k + 1;
    }
    assert values[..k] == values;
  }

  /** The first loop over the rows: the percentages, and the widest of the cells and of them. */
  method Measure(cells: seq<string>, values: seq<real>, best: real)
    returns (percents: seq<string>, valueLen: nat, percentLen: nat)
    requires |cells| <= |values| && best == Best(values)
    ensures percents == Percents(values, |cells|) && valueLen == Widest(cells) && percentLen == Widest(percents)
  {
    percents, valueLen, percentLen := [], 0, 0;
    var i := 0;
    while i < |cells|
      invariant 0 <= i <= |cells| && percents == Percents(values, i)
      invariant valueLen == Widest(cells[..i]) && percentLen == Widest(percents)
    {
      var percent := Percent(values[i], best);
      assert Percents(values, i + 1) == percents + [percent];
      assert (percents + [percent])[..i] == percents && cells[..i + 1][..i] == cells[..i];
      percents := percents + [percent];
      valueLen := Max(valueLen, |cells[i]|);
      percentLen := Max(percentLen, |percent|);
      i := i + 1;
    }
    assert cells[..i] == cells;
  }

  function Cell(text: string, percent: string, valueLen: nat, percentLen: nat): (s: string)
    requires |text| <= valueLen && |percent| <= percentLen
    ensures |s| == valueLen + 1 + percentLen
    ensures s[valueLen - |text|..valueLen] == text && s[|s| - |percent|..] == percent
    ensures forall i :: 0 <= i < valueLen - |text| || valueLen <= i < |s| - |percent| ==> s[i] == ' '
  {
    Pad(text, valueLen) + " " + Pad(percent, percentLen)
  }

  /** A cell's text: what was there, right-aligned within width, then blanks, then the percentage with its sign. */
  ghost predicate Shows(text: string, was: string, value: real, best: real, width: nat) {
    var p := Percent(value, best);
    && |was| <= width && width + |p| < |text|
    && text[width - |was|..width] == was && text[|text| - |p|..] == p
    && forall i :: 0 <= i < width - |was| || width <= i < |text| - |p| ==> text[i] == ' '
  }

  /** The last loop: a new text in each row's cell. */
  method SetColumn(rows: array<seq<string>>, col: nat, texts: seq<string>)
    requires rows.Length == |texts| && forall i :: 0 <= i < rows.Length ==> col < |rows[i]|
    modifies rows
    ensures forall i :: 0 <= i < rows.Length ==> rows[i] == old(rows[i])[col := texts[i]]
  {
    var i := 0;
    while i < rows.Length
      invariant 0 <= i <= rows.Length
      invariant forall j :: i <= j < rows.Length ==> rows[j] == old(rows[j])
      invariant forall j :: 0 <= j < i ==> rows[j] == old(rows[j])[col := texts[j]]
    {
      rows[i] := rows[i][col := texts[i]];
      i := i + 1;
    }
  }

  /** The texts withPercent gives a column's cells: the value and its percentage of the best, each right-aligned. */
  function Cells(cells: seq<string>, values: seq<real>): (texts: seq<string>)
    requires |cells| <= |values|
    ensures |texts| == |cells|
    ensures forall i :: 0 <= i < |texts| ==> |texts[i]| == Widest(cells) + 1 + Widest(Percents(values, |cells|))
  {
    var percents := Percents(values, |cells|);
    seq(|cells|, i requires 0 <= i < |cells| => Cell(cells[i], percents[i], Widest(cells), Widest(percents)))
  }

  lemma CellShows(was: string, value: real, best: real, width: nat, percentLen: nat)
    requires |was| <= width && |Percent(value, best)| <= percentLen
    ensures Shows(Cell(was, Percent(value, best), width, percentLen), was, value, best, width)
  {
  }

  lemma CellsShow(cells: seq<string>, values: seq<real>, i: nat)
    requires i < |cells| <= |values|
    ensures Shows(Cells(cells, values)[i], cells[i], values[i], Best(values), Widest(cells))
  {
    var percents := Percents(values, |cells|);
    assert percents[i] == Percent(values[i], Best(values));
    CellShows(cells[i], values[i], Best(values), Widest(cells), Widest(percents));
  }

  method NewTexts(cells: seq<string>, values: seq<real>) returns (texts: seq<string>)
    requires |cells| <= |values|
    ensures texts == Cells(cells, values)
  {
    var best := FindBest(values);
    var percents, valueLen, percentLen := Measure(cells, values, best);
    texts := seq(|cells|, i requires 0 <= i < |cells| => Cell(cells[i], percents[i], valueLen, percentLen));
  }

  /** withPercent: only the column changes, and all its cells come out as wide as each other. */
  method WithPercent(rows: array<seq<string>>, col: nat, values: seq<real>)
    requires rows.Length <= |values|
    requires forall i :: 0 <= i < rows.Length ==> col < |rows[i]|
    modifies rows
    ensures PercentsShown(old(rows[..]), rows[..], col, values)
  {
    ghost var was := rows[..];
    var texts := NewTexts(Column(rows[..], col), values);
    SetColumn(rows, col, texts);
    assert forall i :: 0 <= i < |was| ==> rows[..][i] == was[i][col := texts[i]];
    RowsShow(was, rows[..], col, values);
  }

  lemma RowShows(was: seq<string>, text: string, col: nat, value: real, best: real, width: nat)
    requires col < |was| && Shows(text, was[col], value, best, width)
    ensures OnlyCell(was, was[col := text], col, value, best, width, |text|)
  {
  }

  lemma RowsShow(was: seq<seq<string>>, rows: seq<seq<string>>, col: nat, values: seq<real>)
    requires |rows| == |was| <= |values| && forall i :: 0 <= i < |was| ==> col < |was[i]|
    requires forall i :: 0 <= i < |was| ==> rows[i] == was[i][col := Cells(Column(was, col), values)[i]]
    ensures PercentsShown(was, rows, col, values)
  {
    var cells, width := Column(was, col), Widest(Column(was, col));
    var total := width + 1 + Widest(Percents(values, |was|));
    forall i | 0 <= i < |was| ensures OnlyCell(was[i], rows[i], col, values[i], Best(values), width, total)
    {
      CellsShow(cells, values, i);
      RowShows(was[i], Cells(cells, values)[i], col, values[i], Best(values), width);
    }
  }

  /** The row is as it was, but for the cell in one column, which shows its percentage and is total wide. */
  ghost predicate OnlyCell(was: seq<string>, row: seq<string>, col: nat, value: real, best: real, width: nat,
                           total: nat) {
    && col < |was| == |row|
    && (forall c :: 0 <= c < |row| && c != col ==> row[c] == was[c])
    && Shows(row[col], was[col], value, best, width) && |row[col]| == total
  }

  /** Every row is as it was, but for the cell in the column, which shows the row's own percentage of the best; and all
      those cells are equally wide. */
  ghost predicate PercentsShown(was: seq<seq<string>>, rows: seq<seq<string>>, col: nat, values: seq<real>)
    requires |was| <= |values| && forall i :: 0 <= i < |was| ==> col < |was[i]|
  {
    && |rows| == |was|
    && var width, percentLen := Widest(Column(was, col)), Widest(Percents(values, |was|));
       forall i :: 0 <= i < |was| ==>
         OnlyCell(was[i], rows[i], col, values[i], Best(values), width, width + 1 + percentLen)
  }

  /** In a column with a positive value, a row reads 100% exactly when no row's value is bigger. */
  lemma BestReads100(values: seq<real>, i: nat)
    requires i < |values|
    ensures PercentOf(values[i], Best(values)) == 100
            <==> values[i] > 0.0 && forall j :: 0 <= j < |values| ==> values[j] <= values[i]
  {
    PercentRange(values[i], Best(values));
  }
}
