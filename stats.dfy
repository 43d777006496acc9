/**
 * The robust-statistics helpers of backend/ml/anomalyDetection.js:
 * population z-scores, trimmed median-absolute-deviation scores and the
 * `Math.percentile` helper, together with the ascending sort they rely on
 * (`sort((a, b) => a - b)`).
 *
 * `Math.sqrt` is a parameter: every member that needs it takes `sqrt` and
 * requires `IsSqrt(sqrt)`, the law of the non-negative square root.
 */
module Stats {
  import opened Wrappers
  import opened Values

  // ---------------------------------------------------------------------------
  // Math.abs, Math.max, Math.min
  // ---------------------------------------------------------------------------

  function Abs(x: real): (r: real)
    ensures r >= 0.0 && (r == x || r == -x)
  {
    if x < 0.0 then -x else x
  }

  function Max(a: real, b: real): (r: real)
    ensures r >= a && r >= b && (r == a || r == b)
  {
    if a >= b then a else b
  }

  function Min(a: real, b: real): (r: real)
    ensures r <= a && r <= b && (r == a || r == b)
  {
    if a <= b then a else b
  }

  // ---------------------------------------------------------------------------
  // Sums
  // ---------------------------------------------------------------------------

  /** `data.reduce((sum, v) => sum + v, 0)`, a left fold. */
  function Sum(s: seq<real>): real
    decreases |s|
  {
    if |s| == 0 then 0.0 else Sum(s[..|s| - 1]) + s[|s| - 1]
  }

  /** Shifting every element by `c` shifts the sum by `n·c`. */
  lemma {:induction false} SumShift(a: seq<real>, b: seq<real>, c: real)
    requires |a| == |b|
    requires forall i :: 0 <= i < |a| ==> b[i] == a[i] - c
    ensures Sum(b) == Sum(a) - (|a| as real) * c
    decreases |a|
  {
    if |a| > 0 {
      SumShift(a[..|a| - 1], b[..|b| - 1], c);
    }
  }

  /** Dividing every element by `c` divides the sum by `c`. */
  lemma {:induction false} SumScale(a: seq<real>, b: seq<real>, c: real)
    requires c != 0.0 && |a| == |b|
    requires forall i :: 0 <= i < |a| ==> b[i] == a[i] / c
    ensures Sum(b) == Sum(a) / c
    decreases |a|
  {
    if |a| > 0 {
      SumScale(a[..|a| - 1], b[..|b| - 1], c);
      assert Sum(b) == Sum(a[..|a| - 1]) / c + a[|a| - 1] / c;
    }
  }

  /** A sum of non-negative terms is non-negative, and zero only if every term is. */
  lemma {:induction false} SumNonNegative(a: seq<real>)
    requires forall i :: 0 <= i < |a| ==> a[i] >= 0.0
    ensures Sum(a) >= 0.0
    ensures Sum(a) == 0.0 ==> forall i :: 0 <= i < |a| ==> a[i] == 0.0
    decreases |a|
  {
    if |a| > 0 {
      SumNonNegative(a[..|a| - 1]);
      assert forall i :: 0 <= i < |a| - 1 ==> a[..|a| - 1][i] == a[i];
    }
  }

  /** The sum of `n` copies of `c`. */
  lemma {:induction false} SumConstant(a: seq<real>, c: real)
    requires forall i :: 0 <= i < |a| ==> a[i] == c
    ensures Sum(a) == (|a| as real) * c
    decreases |a|
  {
    if |a| > 0 {
      SumConstant(a[..|a| - 1], c);
    }
  }

  function Mean(s: seq<real>): real
    requires |s| > 0
  {
    Sum(s) / (|s| as real)
  }

  // ---------------------------------------------------------------------------
  // Population z-scores (calculateZScores)
  // ---------------------------------------------------------------------------

  /** The law of `Math.sqrt`: a non-negative root. */
  ghost predicate IsSqrt(sqrt: real -> real) {
    && sqrt(0.0) == 0.0
    && forall x: real {:trigger sqrt(x)} :: 0.0 <= x ==> 0.0 <= sqrt(x) && sqrt(x) * sqrt(x) == x
  }

  /** `(v - m)` for every element. */
  function Deviations(s: seq<real>, m: real): (d: seq<real>)
    ensures |d| == |s| && forall i :: 0 <= i < |s| ==> d[i] == s[i] - m
  {
    seq(|s|, i requires 0 <= i < |s| => s[i] - m)
  }

  /** Every element squared. */
  function Squares(s: seq<real>): (q: seq<real>)
    ensures |q| == |s| && forall i :: 0 <= i < |s| ==> q[i] == s[i] * s[i]
  {
    seq(|s|, i requires 0 <= i < |s| => s[i] * s[i])
  }

  /** The population variance: the mean squared deviation, dividing by n. */
  function PopulationVariance(s: seq<real>): (v: real)
    requires |s| > 0
    ensures v >= 0.0
  {
    var q := Squares(Deviations(s, Mean(s)));
    SumNonNegative(q);
    Sum(q) / (|s| as real)
  }

  function PopulationStdDev(s: seq<real>, sqrt: real -> real): (sd: real)
    requires |s| > 0 && IsSqrt(sqrt)
    ensures sd >= 0.0 && sd * sd == PopulationVariance(s)
    ensures PopulationVariance(s) == 0.0 ==> sd == 0.0
  {
    sqrt(PopulationVariance(s))
  }

  /**
   * `calculateZScores(data)`: all zeros when the population standard
   * deviation is 0, otherwise `(v - mean) / stdDev` for every value.
   */
  function CalculateZScores(data: seq<real>, sqrt: real -> real): (r: seq<real>)
    requires IsSqrt(sqrt)
    ensures |r| == |data|
  {
    if |data| == 0 then []
    else
      var m := Mean(data);
      var sd := PopulationStdDev(data, sqrt);
      if sd == 0.0 then seq(|data|, i => 0.0)
      else seq(|data|, i requires 0 <= i < |data| => (data[i] - m) / sd)
  }

  /** The deviations from the mean sum to zero. */
  lemma DeviationsSumToZero(s: seq<real>)
    requires |s| > 0
    ensures Sum(Deviations(s, Mean(s))) == 0.0
  {
    SumShift(s, Deviations(s, Mean(s)), Mean(s));
  }

  /** Z-scores always sum to zero: their mean is 0. */
  lemma ZScoresSumToZero(data: seq<real>, sqrt: real -> real)
    requires IsSqrt(sqrt)
    ensures Sum(CalculateZScores(data, sqrt)) == 0.0
  {
    var z := CalculateZScores(data, sqrt);
    if |data| > 0 {
      var sd := PopulationStdDev(data, sqrt);
      if sd == 0.0 {
        SumConstant(z, 0.0);
      } else {
        DeviationsSumToZero(data);
        SumScale(Deviations(data, Mean(data)), z, sd);
      }
    }
  }

  /** The only non-negative square root of 1 is 1. */
  lemma SqrtOne(sqrt: real -> real)
    requires IsSqrt(sqrt)
    ensures sqrt(1.0) == 1.0
  {
    var y := sqrt(1.0);
    assert (y - 1.0) * (y + 1.0) == y * y - 1.0 == 0.0;
    DivUnique(y - 1.0, 0.0, y + 1.0);
  }

  /**
   * A sample with non-zero standard deviation has z-scores of standard
   * deviation 1: standardising divides the variance by itself.
   */
  lemma ZScoresUnitStdDev(data: seq<real>, sqrt: real -> real)
    requires IsSqrt(sqrt) && |data| > 0 && PopulationStdDev(data, sqrt) != 0.0
    ensures PopulationStdDev(CalculateZScores(data, sqrt), sqrt) == 1.0
  {
    ZScoresUnitVariance(data, sqrt);
    SqrtOne(sqrt);
  }

  /** The z-scores of a sample with non-zero deviation have population variance 1. */
  lemma ZScoresUnitVariance(data: seq<real>, sqrt: real -> real)
    requires IsSqrt(sqrt) && |data| > 0 && PopulationStdDev(data, sqrt) != 0.0
    ensures PopulationVariance(CalculateZScores(data, sqrt)) == 1.0
  {
    var n := |data| as real;
    var v := PopulationVariance(data);
    var z := CalculateZScores(data, sqrt);
    var q, qz := Squares(Deviations(data, Mean(data))), Squares(Deviations(z, Mean(z)));
    ZScoreSquares(data, sqrt);
    SumScale(q, qz, v);
    assert v == Sum(q) / n;
    assert PopulationVariance(z) == Sum(qz) / n == (Sum(q) / v) / n;
    QuotientOfQuotient(Sum(q), v, n);
  }

  /** Each squared deviation of the z-scores is the sample's, over its variance. */
  lemma ZScoreSquares(data: seq<real>, sqrt: real -> real)
    requires IsSqrt(sqrt) && |data| > 0 && PopulationStdDev(data, sqrt) != 0.0
    ensures var z := CalculateZScores(data, sqrt);
            var q, qz := Squares(Deviations(data, Mean(data))), Squares(Deviations(z, Mean(z)));
            PopulationVariance(data) != 0.0 && |qz| == |q| &&
            forall i :: 0 <= i < |q| ==> qz[i] == q[i] / PopulationVariance(data)
  {
    var sd := PopulationStdDev(data, sqrt);
    var z := CalculateZScores(data, sqrt);
    var dev := Deviations(data, Mean(data));
    assert forall i :: 0 <= i < |z| ==> z[i] == dev[i] / sd;
    ZScoresSumToZero(data, sqrt);
    ScaledSquares(dev, z, sd, PopulationVariance(data));
  }

  /** Dividing every term by `sd` divides every squared deviation from 0 by `sd * sd`. */
  lemma ScaledSquares(dev: seq<real>, z: seq<real>, sd: real, v: real)
    requires |z| == |dev| > 0 && v != 0.0 && sd * sd == v
    requires forall i :: 0 <= i < |z| ==> z[i] == dev[i] / sd
    requires Sum(z) == 0.0
    ensures var qz := Squares(Deviations(z, Mean(z)));
            |qz| == |dev| && forall i :: 0 <= i < |dev| ==> qz[i] == Squares(dev)[i] / v
  {
    assert Mean(z) == 0.0;
    var zdev := Deviations(z, Mean(z));
    forall i | 0 <= i < |dev| ensures Squares(zdev)[i] == Squares(dev)[i] / v {
      assert zdev[i] == z[i];
      QuotientSquare(dev[i], sd, v);
    }
  }

  /** Squaring a quotient by `b` divides the square by `b * b`. */
  lemma QuotientSquare(a: real, b: real, v: real)
    requires v != 0.0 && b * b == v
    ensures (a / b) * (a / b) == (a * a) / v
  {
    assert b != 0.0;
    var c := a / b;
    assert c * b == a;
    assert (c * c) * v == (c * b) * (c * b);
    DivUnique(c * c, a * a, v);
  }

  /** The quotient is the only solution of `x * q == p`. */
  lemma DivUnique(x: real, p: real, q: real)
    requires q != 0.0 && x * q == p
    ensures x == p / q
  {
  }

  lemma QuotientOfQuotient(a: real, v: real, n: real)
    requires n > 0.0 && v == a / n && v != 0.0
    ensures (a / v) / n == 1.0
  {
    assert a == v * n;
  }

  /** The mean of an all-equal sample is that value. */
  lemma ConstantMean(data: seq<real>)
    requires |data| > 0
    requires forall i :: 0 <= i < |data| ==> data[i] == data[0]
    ensures Mean(data) == data[0]
  {
    SumConstant(data, data[0]);
  }

  /** An all-equal sample has standard deviation 0. */
  lemma ConstantStdDevZero(data: seq<real>, sqrt: real -> real)
    requires IsSqrt(sqrt) && |data| > 0
    requires forall i :: 0 <= i < |data| ==> data[i] == data[0]
    ensures PopulationStdDev(data, sqrt) == 0.0
  {
    ConstantMean(data);
    var q := Squares(Deviations(data, Mean(data)));
    SumConstant(q, 0.0);
  }

  /** All-equal samples give all-zero z-scores. */
  lemma ConstantSampleZeroScores(data: seq<real>, sqrt: real -> real)
    requires IsSqrt(sqrt)
    requires forall i :: 0 <= i < |data| ==> data[i] == data[0]
    ensures forall i :: 0 <= i < |data| ==> CalculateZScores(data, sqrt)[i] == 0.0
  {
    if |data| > 0 {
      ConstantStdDevZero(data, sqrt);
    }
  }

  // ---------------------------------------------------------------------------
  // Ascending sort
  // ---------------------------------------------------------------------------

  predicate Sorted(s: seq<real>) {
    forall i, j :: 0 <= i < j < |s| ==> s[i] <= s[j]
  }

  /** `x` placed before the first element not smaller than it. */
  function Insert(x: real, s: seq<real>): (r: seq<real>)
    ensures |r| == |s| + 1
    decreases |s|
  {
    if |s| == 0 then [x]
    else if x <= s[0] then [x] + s
    else [s[0]] + Insert(x, s[1..])
  }

  /** Inserting adds exactly `x` to the elements. */
  lemma {:induction false} InsertPermutation(x: real, s: seq<real>)
    ensures multiset(Insert(x, s)) == multiset(s) + multiset{x}
    decreases |s|
  {
    if |s| > 0 && x > s[0] {
      InsertPermutation(x, s[1..]);
      assert s == [s[0]] + s[1..];
    }
  }

  /** Inserting adds `x` to the members. */
  lemma InsertMembers(x: real, s: seq<real>)
    ensures forall y :: y in Insert(x, s) <==> y == x || y in s
  {
    InsertPermutation(x, s);
    assert forall y :: y in Insert(x, s) <==> y in multiset(Insert(x, s));
    assert forall y :: y in s <==> y in multiset(s);
  }

  /** A sorted sequence stays sorted under a head no larger than its members. */
  lemma SortedCons(h: real, t: seq<real>)
    requires Sorted(t) && forall y :: y in t ==> h <= y
    ensures Sorted([h] + t)
  {
    var r := [h] + t;
    forall i, j | 0 <= i < j < |r| ensures r[i] <= r[j] {
      assert r[j] == t[j - 1] && t[j - 1] in t;
      if i > 0 {
        assert r[i] == t[i - 1];
      }
    }
  }

  /** Inserting into a sorted sequence keeps it sorted. */
  lemma {:induction false} InsertSorted(x: real, s: seq<real>)
    requires Sorted(s)
    ensures Sorted(Insert(x, s))
    decreases |s|
  {
    if |s| == 0 {
    } else if x <= s[0] {
      SortedCons(x, s);
    } else {
      SortedTail(s);
      InsertSorted(x, s[1..]);
      InsertMembers(x, s[1..]);
      forall y | y in s[1..] ensures s[0] <= y {
        SortedHead(s, y);
      }
      SortedCons(s[0], Insert(x, s[1..]));
    }
  }

  /** The ascending sort `[...data].sort((a, b) => a - b)`, by insertion. */
  function Sort(s: seq<real>): (r: seq<real>)
    ensures Sorted(r) && |r| == |s|
    decreases |s|
  {
    if |s| == 0 then []
    else
      var rest := Sort(s[1..]);
      InsertSorted(s[0], rest);
      Insert(s[0], rest)
  }

  /** Sorting rearranges the elements: the multiset is unchanged. */
  lemma {:induction false} SortPermutation(s: seq<real>)
    ensures multiset(Sort(s)) == multiset(s)
    decreases |s|
  {
    if |s| > 0 {
      var rest := Sort(s[1..]);
      SortPermutation(s[1..]);
      InsertPermutation(s[0], rest);
      assert Sort(s) == Insert(s[0], rest);
      assert multiset(s) == multiset{s[0]} + multiset(s[1..]) by {
        assert s == [s[0]] + s[1..];
      }
    }
  }

  /** Sorting keeps exactly the elements. */
  lemma SortMembers(s: seq<real>)
    ensures forall x :: x in Sort(s) <==> x in s
  {
    SortPermutation(s);
    assert forall x :: x in Sort(s) <==> x in multiset(Sort(s));
    assert forall x :: x in s <==> x in multiset(s);
  }

  /** The head of a sorted sequence is its least element. */
  lemma SortedHead(s: seq<real>, x: real)
    requires Sorted(s) && x in s
    ensures s[0] <= x
  {
    var k :| 0 <= k < |s| && s[k] == x;
    if k > 0 {
      assert s[0] <= s[k];
    }
  }

  lemma SortedTail(s: seq<real>)
    requires Sorted(s) && |s| > 0
    ensures Sorted(s[1..])
  {
    forall i, j | 0 <= i < j < |s| - 1 ensures s[1..][i] <= s[1..][j] {
      assert s[1..][i] == s[i + 1] && s[1..][j] == s[j + 1];
    }
  }

  lemma MultisetCancel(x: real, m1: multiset<real>, m2: multiset<real>)
    requires multiset{x} + m1 == multiset{x} + m2
    ensures m1 == m2
  {
    forall y ensures m1[y] == m2[y] {
      assert (multiset{x} + m1)[y] == (multiset{x} + m2)[y];
    }
  }

  /** Two sorted arrangements of the same multiset are the same sequence. */
  lemma {:induction false} SortedUnique(a: seq<real>, b: seq<real>)
    requires Sorted(a) && Sorted(b) && multiset(a) == multiset(b)
    ensures a == b
    decreases |a|
  {
    assert |a| == |multiset(a)| == |multiset(b)| == |b|;
    if |a| > 0 {
      SameHead(a, b);
      SplitHead(a);
      SplitHead(b);
      MultisetCancel(a[0], multiset(a[1..]), multiset(b[1..]));
      SortedTail(a);
      SortedTail(b);
      SortedUnique(a[1..], b[1..]);
      assert a == [a[0]] + a[1..] && b == [b[0]] + b[1..];
    }
  }

  /** Sorted arrangements of the same multiset start with the same element. */
  lemma SameHead(a: seq<real>, b: seq<real>)
    requires Sorted(a) && Sorted(b) && multiset(a) == multiset(b) && |a| > 0 && |b| > 0
    ensures a[0] == b[0]
  {
    assert a[0] in multiset(a) && b[0] in multiset(b);
    SortedHead(b, a[0]);
    SortedHead(a, b[0]);
  }

  lemma SplitHead(a: seq<real>)
    requires |a| > 0
    ensures multiset(a) == multiset{a[0]} + multiset(a[1..])
  {
    assert a == [a[0]] + a[1..];
  }

  /** Every element increased by `c`. */
  function Shifted(s: seq<real>, c: real): (r: seq<real>)
    ensures |r| == |s| && forall i :: 0 <= i < |s| ==> r[i] == s[i] + c
    decreases |s|
  {
    if |s| == 0 then [] else [s[0] + c] + Shifted(s[1..], c)
  }

  lemma ShiftedTail(s: seq<real>, c: real)
    requires |s| > 0
    ensures Shifted(s, c) == [s[0] + c] + Shifted(s[1..], c)
  {
  }

  /** Adding a constant commutes with inserting. */
  lemma {:induction false} InsertShifted(x: real, s: seq<real>, c: real)
    ensures Insert(x + c, Shifted(s, c)) == Shifted(Insert(x, s), c)
    decreases |s|
  {
    if |s| > 0 {
      ShiftedTail(s, c);
      assert Shifted(s, c)[1..] == Shifted(s[1..], c);
      if x <= s[0] {
        ShiftedTail([x] + s, c);
        assert ([x] + s)[1..] == s;
      } else {
        InsertShifted(x, s[1..], c);
        var t := [s[0]] + Insert(x, s[1..]);
        ShiftedTail(t, c);
        assert t[1..] == Insert(x, s[1..]);
      }
    }
  }

  lemma SortCons(s: seq<real>)
    requires |s| > 0
    ensures Sort(s) == Insert(s[0], Sort(s[1..]))
  {
  }

  /** Adding a constant commutes with sorting. */
  lemma {:induction false} SortShifted(s: seq<real>, c: real)
    ensures Sort(Shifted(s, c)) == Shifted(Sort(s), c)
    decreases |s|
  {
    if |s| > 0 {
      var ss := Shifted(s, c);
      var x, t, u := ss[0], ss[1..], Shifted(s[1..], c);
      ShiftedTail(s, c);
      assert x == s[0] + c && t == u;
      SortShifted(s[1..], c);
      InsertShifted(s[0], Sort(s[1..]), c);
      SortCons(ss);
      SortCons(s);
      var rest := Sort(s[1..]);
      assert Sort(ss) == Insert(x, Sort(t));
      assert Sort(t) == Shifted(rest, c);
      assert Insert(x, Sort(t)) == Insert(x, Shifted(rest, c));
      assert Insert(s[0] + c, Shifted(rest, c)) == Shifted(Insert(s[0], rest), c);
      assert Insert(x, Shifted(rest, c)) == Insert(s[0] + c, Shifted(rest, c));
      assert Shifted(Insert(s[0], rest), c) == Shifted(Sort(s), c);
    }
  }

  // ---------------------------------------------------------------------------
  // Trimmed MAD scores (calculateMAD)
  // ---------------------------------------------------------------------------

  /** The upper median `sorted[floor(n / 2)]`. */
  function Median(s: seq<real>): real
    requires |s| > 0
  {
    Sort(s)[|s| / 2]
  }

  /** `|v - m|` for every element. */
  function AbsDeviations(s: seq<real>, m: real): (d: seq<real>)
    ensures |d| == |s|
    ensures forall i :: 0 <= i < |s| ==> d[i] == (if s[i] >= m then s[i] - m else m - s[i]) && d[i] >= 0.0
  {
    seq(|s|, i requires 0 <= i < |s| => if s[i] >= m then s[i] - m else m - s[i])
  }

  /** `floor(n * 0.05)`: deviations dropped from each end of the sorted list. */
  function TrimCount(n: nat): nat {
    n / 20
  }

  /**
   * The middle of the sorted deviations after trimming `TrimCount(n)` from
   * each end, or, when that is 0 (`||`), the untrimmed middle deviation.
   */
  function TrimmedMiddle(sortedDev: seq<real>): (mad: real)
    requires |sortedDev| > 0
    requires forall i :: 0 <= i < |sortedDev| ==> sortedDev[i] >= 0.0
    ensures mad >= 0.0
  {
    var n := |sortedDev|;
    var trimmed := sortedDev[TrimCount(n)..n - TrimCount(n)];
    assert trimmed[|trimmed| / 2] == sortedDev[TrimCount(n) + |trimmed| / 2];
    if trimmed[|trimmed| / 2] != 0.0 then trimmed[|trimmed| / 2] else sortedDev[n / 2]
  }

  /** Sorting non-negative values gives non-negative values. */
  lemma SortNonNegative(s: seq<real>)
    requires forall i :: 0 <= i < |s| ==> s[i] >= 0.0
    ensures forall i :: 0 <= i < |Sort(s)| ==> Sort(s)[i] >= 0.0
  {
    SortMembers(s);
    forall i | 0 <= i < |Sort(s)| ensures Sort(s)[i] >= 0.0 {
      assert Sort(s)[i] in s;
    }
  }

  /** The scale of the MAD score, from the absolute deviations. */
  function TrimmedMad(dev: seq<real>): (mad: real)
    requires |dev| > 0
    requires forall i :: 0 <= i < |dev| ==> dev[i] >= 0.0
    ensures mad >= 0.0
  {
    SortNonNegative(dev);
    TrimmedMiddle(Sort(dev))
  }

  function Mad(data: seq<real>): (mad: real)
    requires |data| > 0
    ensures mad >= 0.0
  {
    TrimmedMad(AbsDeviations(data, Median(data)))
  }

  /** The consistency constant that scales a MAD to a normal standard deviation. */
  const Consistency: real := 1.4826

  /** One MAD score: the deviation over `mad * 1.4826`, or 0 when the MAD is 0. */
  function MadScore(deviation: real, mad: real): (score: real)
    requires deviation >= 0.0 && mad >= 0.0
    ensures score >= 0.0
    ensures deviation == 0.0 || mad == 0.0 ==> score == 0.0
  {
    if mad == 0.0 then 0.0
    else
      assert mad * Consistency > 0.0;
      deviation / (mad * Consistency)
  }

  /**
   * `calculateMAD(data)`: for each value, its absolute deviation from the
   * median divided by `mad * 1.4826`, or 0 when the MAD is 0.
   */
  function CalculateMAD(data: seq<real>): (r: seq<real>)
    ensures |r| == |data|
    ensures forall i :: 0 <= i < |r| ==> r[i] >= 0.0
  {
    if |data| == 0 then []
    else
      var mad := Mad(data);
      var dev := AbsDeviations(data, Median(data));
      seq(|data|, i requires 0 <= i < |data| => MadScore(dev[i], mad))
  }

  /** A zero MAD makes every score zero. */
  lemma MadZeroScoresZero(data: seq<real>)
    requires |data| > 0 && Mad(data) == 0.0
    ensures forall i :: 0 <= i < |data| ==> CalculateMAD(data)[i] == 0.0
  {
  }

  /** The value equal to the median scores zero; every score is the deviation over the scaled MAD. */
  lemma MedianScoresZero(data: seq<real>, i: nat)
    requires i < |data| && data[i] == Median(data)
    ensures CalculateMAD(data)[i] == 0.0
  {
  }

  /** In a constant sample the last value has z-score 0 and MAD score 0. */
  lemma ConstantSampleLastScores(all: seq<real>, x: real, sqrt: real -> real)
    requires IsSqrt(sqrt) && |all| > 0
    requires forall i :: 0 <= i < |all| ==> all[i] == x
    ensures CalculateZScores(all, sqrt)[|all| - 1] == 0.0
    ensures CalculateMAD(all)[|all| - 1] == 0.0
  {
    ConstantSampleZeroScores(all, sqrt);
    var n := |all| - 1;
    MedianIsMember(all);
    assert Median(all) == x;
    var dev := AbsDeviations(all, Median(all));
    assert dev[n] == 0.0;
    assert CalculateMAD(all)[n] == MadScore(dev[n], Mad(all));
  }

  /** The median is one of the values. */
  lemma MedianIsMember(data: seq<real>)
    requires |data| > 0
    ensures Median(data) in data
  {
    SortMembers(data);
    assert Sort(data)[|data| / 2] in Sort(data);
  }

  lemma MedianShifted(data: seq<real>, c: real)
    requires |data| > 0
    ensures Median(Shifted(data, c)) == Median(data) + c
  {
    SortShifted(data, c);
  }

  lemma AbsDeviationsShifted(data: seq<real>, m: real, c: real)
    ensures AbsDeviations(Shifted(data, c), m + c) == AbsDeviations(data, m)
  {
  }

  /** Shifting the data shifts the median with it, so the deviations do not change. */
  lemma DeviationsFromMedianShifted(data: seq<real>, c: real)
    requires |data| > 0
    ensures AbsDeviations(Shifted(data, c), Median(Shifted(data, c))) == AbsDeviations(data, Median(data))
  {
    var m := Median(data);
    MedianShifted(data, c);
    AbsDeviationsShifted(data, m, c);
  }

  /** MAD scores are shift-invariant: adding `c` to every value leaves them unchanged. */
  lemma MadShiftInvariant(data: seq<real>, c: real)
    ensures CalculateMAD(Shifted(data, c)) == CalculateMAD(data)
  {
    if |data| > 0 {
      var sdata := Shifted(data, c);
      DeviationsFromMedianShifted(data, c);
      assert Mad(sdata) == Mad(data);
      forall i | 0 <= i < |data| ensures CalculateMAD(sdata)[i] == CalculateMAD(data)[i] {
      }
    }
  }

  /** `f` applied to every element. */
  function Mapped(s: seq<real>, f: real -> real): (r: seq<real>)
    ensures |r| == |s| && forall i :: 0 <= i < |s| ==> r[i] == f(s[i])
  {
    seq(|s|, i requires 0 <= i < |s| => f(s[i]))
  }

  lemma MappedCons(s: seq<real>, f: real -> real)
    requires |s| > 0
    ensures Mapped(s, f) == [f(s[0])] + Mapped(s[1..], f)
  {
  }

  /** `f` keeps the order both ways. */
  ghost predicate OrderPreserving(f: real -> real) {
    forall x, y :: x <= y <==> f(x) <= f(y)
  }

  /** An order-preserving map commutes with inserting. */
  lemma {:induction false} InsertMapped(x: real, s: seq<real>, f: real -> real)
    requires OrderPreserving(f)
    ensures Insert(f(x), Mapped(s, f)) == Mapped(Insert(x, s), f)
    decreases |s|
  {
    if |s| > 0 {
      MappedCons(s, f);
      assert Mapped(s, f)[1..] == Mapped(s[1..], f);
      if x <= s[0] {
        MappedCons([x] + s, f);
        assert ([x] + s)[1..] == s;
      } else {
        InsertMapped(x, s[1..], f);
        var t := [s[0]] + Insert(x, s[1..]);
        MappedCons(t, f);
        assert t[1..] == Insert(x, s[1..]);
      }
    } else {
      assert Mapped([x], f) == [f(x)];
    }
  }

  /** An order-preserving map commutes with sorting. */
  lemma {:induction false} SortMapped(s: seq<real>, f: real -> real)
    requires OrderPreserving(f)
    ensures Sort(Mapped(s, f)) == Mapped(Sort(s), f)
    decreases |s|
  {
    if |s| > 0 {
      var ss := Mapped(s, f);
      MappedCons(s, f);
      assert ss[0] == f(s[0]) && ss[1..] == Mapped(s[1..], f);
      SortMapped(s[1..], f);
      InsertMapped(s[0], Sort(s[1..]), f);
      SortCons(ss);
      SortCons(s);
    }
  }

  /** Multiplication by `c`, as a function. */
  function Times(c: real): real -> real {
    x => x * c
  }

  lemma TimesAt(c: real, x: real)
    ensures Times(c)(x) == x * c
  {
  }

  /** Every element multiplied by `c`. */
  function Scaled(s: seq<real>, c: real): (r: seq<real>)
    ensures |r| == |s| && forall i :: 0 <= i < |s| ==> r[i] == s[i] * c
  {
    Mapped(s, Times(c))
  }

  /** A positive factor keeps the order. */
  lemma ScaleMonotone(x: real, y: real, c: real)
    requires c > 0.0
    ensures x <= y <==> x * c <= y * c
  {
    if x <= y {
      MulNonNegative(y - x, c);
      assert (y - x) * c == y * c - x * c;
    } else {
      MulPositive(x - y, c);
      assert (x - y) * c == x * c - y * c;
    }
  }

  lemma MulNonNegative(x: real, y: real)
    requires x >= 0.0 && y >= 0.0
    ensures x * y >= 0.0
  {
  }

  lemma MulPositive(x: real, y: real)
    requires x > 0.0 && y > 0.0
    ensures x * y > 0.0
  {
  }

  lemma TimesOrderPreserving(c: real)
    requires c > 0.0
    ensures OrderPreserving(Times(c))
  {
    forall x, y ensures x <= y <==> Times(c)(x) <= Times(c)(y) {
      ScaleMonotone(x, y, c);
    }
  }

  /** Multiplying by a positive constant commutes with sorting. */
  lemma SortScaled(s: seq<real>, c: real)
    requires c > 0.0
    ensures Sort(Scaled(s, c)) == Scaled(Sort(s), c)
  {
    TimesOrderPreserving(c);
    SortMapped(s, Times(c));
  }

  lemma MedianMapped(data: seq<real>, f: real -> real)
    requires |data| > 0 && OrderPreserving(f)
    ensures Median(Mapped(data, f)) == f(Median(data))
  {
    SortMapped(data, f);
  }

  lemma MedianScaled(data: seq<real>, c: real)
    requires |data| > 0 && c > 0.0
    ensures Median(Scaled(data, c)) == Median(data) * c
  {
    var f := Times(c);
    TimesOrderPreserving(c);
    assert Scaled(data, c) == Mapped(data, f);
    MedianMapped(data, f);
    assert f(Median(data)) == Median(data) * c;
  }

  /** The distance `|x - m|` scales with a positive factor. */
  lemma AbsDifferenceScaled(x: real, m: real, c: real)
    requires c > 0.0
    ensures (if x * c >= m * c then x * c - m * c else m * c - x * c) == (if x >= m then x - m else m - x) * c
  {
    ScaleMonotone(m, x, c);
  }

  /** A positive factor never turns a non-zero value into zero. */
  lemma ScaledZero(x: real, c: real)
    requires c > 0.0
    ensures x * c == 0.0 <==> x == 0.0
  {
    if x > 0.0 { MulPositive(x, c); }
    if x < 0.0 { MulPositive(-x, c); assert (-x) * c == -(x * c); }
  }

  /**
   * A map that keeps zero, and only zero, at zero and keeps non-negative
   * values non-negative commutes with taking the trimmed middle.
   */
  lemma TrimmedMiddleMapped(sortedDev: seq<real>, f: real -> real)
    requires |sortedDev| > 0 && forall i :: 0 <= i < |sortedDev| ==> sortedDev[i] >= 0.0
    requires forall x :: f(x) == 0.0 <==> x == 0.0
    requires forall x :: x >= 0.0 ==> f(x) >= 0.0
    ensures forall i :: 0 <= i < |sortedDev| ==> Mapped(sortedDev, f)[i] >= 0.0
    ensures TrimmedMiddle(Mapped(sortedDev, f)) == f(TrimmedMiddle(sortedDev))
  {
    var n, t := |sortedDev|, TrimCount(|sortedDev|);
    var m := (n - 2 * t) / 2;
    var msorted := Mapped(sortedDev, f);
    assert sortedDev[t..n - t][m] == sortedDev[t + m];
    assert msorted[t..n - t][m] == msorted[t + m] == f(sortedDev[t + m]);
  }

  /**
   * A map that commutes with sorting, keeps zero, and only zero, at zero and
   * keeps non-negative values non-negative commutes with the trimmed MAD.
   */
  lemma TrimmedMadMapped(dev: seq<real>, f: real -> real)
    requires |dev| > 0 && forall i :: 0 <= i < |dev| ==> dev[i] >= 0.0
    requires Sort(Mapped(dev, f)) == Mapped(Sort(dev), f)
    requires forall x :: f(x) == 0.0 <==> x == 0.0
    requires forall x :: x >= 0.0 ==> f(x) >= 0.0
    ensures forall i :: 0 <= i < |dev| ==> Mapped(dev, f)[i] >= 0.0
    ensures TrimmedMad(Mapped(dev, f)) == f(TrimmedMad(dev))
  {
    SortNonNegative(dev);
    TrimmedMiddleMapped(Sort(dev), f);
  }

  /** A positive factor keeps zero, and only zero, at zero, and non-negative values non-negative. */
  lemma TimesZero(c: real)
    requires c > 0.0
    ensures forall x :: Times(c)(x) == 0.0 <==> x == 0.0
    ensures forall x :: x >= 0.0 ==> Times(c)(x) >= 0.0
  {
    forall x ensures Times(c)(x) == 0.0 <==> x == 0.0 {
      ScaledZero(x, c);
    }
    forall x | x >= 0.0 ensures Times(c)(x) >= 0.0 {
      MulNonNegative(x, c);
    }
  }

  /** One MAD score is unchanged when the deviation and the MAD are scaled alike. */
  lemma MadScoreScaled(deviation: real, mad: real, c: real)
    requires deviation >= 0.0 && mad >= 0.0 && c > 0.0
    ensures deviation * c >= 0.0 && mad * c >= 0.0
    ensures MadScore(deviation * c, mad * c) == MadScore(deviation, mad)
  {
    MulNonNegative(deviation, c);
    MulNonNegative(mad, c);
    ScaledZero(mad, c);
    if mad != 0.0 {
      var k := mad * Consistency;
      MulPositive(mad, Consistency);
      assert (mad * c) * Consistency == k * c;
      QuotientScaled(deviation, k, c);
    }
  }

  lemma QuotientScaled(a: real, b: real, c: real)
    requires b != 0.0 && c > 0.0
    ensures b * c != 0.0 && (a * c) / (b * c) == a / b
  {
    ScaledZero(b, c);
    var x := a / b;
    assert x * b == a;
    assert x * (b * c) == a * c;
    DivUnique(x, a * c, b * c);
  }

  /**
   * `f` acts on the quantities the MAD score uses as multiplication by a
   * positive constant does: it keeps the order, keeps zero, and only zero,
   * at zero, keeps non-negative values non-negative, commutes with the
   * distance `|x - y|`, and leaves a MAD score unchanged when applied to
   * both the deviation and the MAD.
   */
  ghost predicate Rescaling(f: real -> real) {
    && OrderPreserving(f)
    && (forall x :: f(x) == 0.0 <==> x == 0.0)
    && (forall x :: x >= 0.0 ==> f(x) >= 0.0)
    && (forall x, y :: (if f(x) >= f(y) then f(x) - f(y) else f(y) - f(x)) == f(if x >= y then x - y else y - x))
    && (forall d, mad :: d >= 0.0 && mad >= 0.0 ==> MadScore(f(d), f(mad)) == MadScore(d, mad))
  }

  /** Multiplication by a positive constant is a rescaling. */
  lemma TimesRescaling(c: real)
    requires c > 0.0
    ensures Rescaling(Times(c))
  {
    TimesOrderPreserving(c);
    TimesZero(c);
    TimesDistance(c);
    TimesMadScore(c);
  }

  lemma TimesDistance(c: real)
    requires c > 0.0
    ensures var f := Times(c);
      forall x, y :: (if f(x) >= f(y) then f(x) - f(y) else f(y) - f(x)) == f(if x >= y then x - y else y - x)
  {
    var f := Times(c);
    forall x, y ensures (if f(x) >= f(y) then f(x) - f(y) else f(y) - f(x)) == f(if x >= y then x - y else y - x) {
      TimesAt(c, x);
      TimesAt(c, y);
      TimesAt(c, if x >= y then x - y else y - x);
      AbsDifferenceScaled(x, y, c);
    }
  }

  lemma TimesMadScore(c: real)
    requires c > 0.0
    ensures forall x :: x >= 0.0 ==> Times(c)(x) >= 0.0
    ensures forall d, mad :: d >= 0.0 && mad >= 0.0 ==> MadScore(Times(c)(d), Times(c)(mad)) == MadScore(d, mad)
  {
    TimesZero(c);
    forall d, mad | d >= 0.0 && mad >= 0.0 ensures MadScore(d * c, mad * c) == MadScore(d, mad) {
      MadScoreScaled(d, mad, c);
    }
  }

  /** A rescaling of the data and of the centre rescales every deviation. */
  lemma AbsDeviationsMapped(data: seq<real>, m: real, f: real -> real)
    requires Rescaling(f)
    ensures AbsDeviations(Mapped(data, f), f(m)) == Mapped(AbsDeviations(data, m), f)
  {
  }

  /** Rescaling the data rescales the median with it, and so every deviation from it. */
  lemma DeviationsFromMedianMapped(data: seq<real>, f: real -> real)
    requires |data| > 0 && Rescaling(f)
    ensures AbsDeviations(Mapped(data, f), Median(Mapped(data, f))) == Mapped(AbsDeviations(data, Median(data)), f)
  {
    MedianMapped(data, f);
    AbsDeviationsMapped(data, Median(data), f);
  }

  /** Rescaling the data rescales the MAD. */
  lemma MadMapped(data: seq<real>, f: real -> real)
    requires |data| > 0 && Rescaling(f)
    ensures Mad(Mapped(data, f)) == f(Mad(data))
  {
    var dev := AbsDeviations(data, Median(data));
    DeviationsFromMedianMapped(data, f);
    SortMapped(dev, f);
    TrimmedMadMapped(dev, f);
  }

  /** A rescaling of the data leaves every MAD score unchanged. */
  lemma CalculateMadMapped(data: seq<real>, f: real -> real)
    requires Rescaling(f)
    ensures CalculateMAD(Mapped(data, f)) == CalculateMAD(data)
  {
    if |data| > 0 {
      var mdata := Mapped(data, f);
      var dev := AbsDeviations(data, Median(data));
      DeviationsFromMedianMapped(data, f);
      MadMapped(data, f);
      forall i | 0 <= i < |data| ensures CalculateMAD(mdata)[i] == CalculateMAD(data)[i] {
        CalculateMadAt(mdata, i);
        CalculateMadAt(data, i);
        assert Mapped(dev, f)[i] == f(dev[i]);
      }
    }
  }

  /** One MAD score, read off the deviations and the MAD. */
  lemma CalculateMadAt(data: seq<real>, i: nat)
    requires i < |data|
    ensures CalculateMAD(data)[i] == MadScore(AbsDeviations(data, Median(data))[i], Mad(data))
  {
  }

  /**
   * MAD scores are scale-invariant: multiplying every value by a positive
   * constant leaves them unchanged.
   */
  lemma MadScaleInvariant(data: seq<real>, c: real)
    requires c > 0.0
    ensures CalculateMAD(Scaled(data, c)) == CalculateMAD(data)
  {
    TimesRescaling(c);
    CalculateMadMapped(data, Times(c));
  }

  // ---------------------------------------------------------------------------
  // Math.percentile
  // ---------------------------------------------------------------------------

  /** `Math.ceil` on a real. */
  function Ceil(x: real): (c: int)
    ensures (c as real) - 1.0 < x <= c as real
  {
    -((-x).Floor)
  }

  /** The nearest-rank position `ceil(p / 100 * n) - 1`. */
  function RankIndex(p: real, n: nat): int {
    Ceil(p / 100.0 * (n as real)) - 1
  }

  /**
   * `Math.percentile(arr, p)`: 0 for a non-array, an empty array or one with
   * no numbers; otherwise the element at `ceil(p / 100 * n) - 1` of the
   * ascending-sorted numbers, falling back (`||`) to the largest number when
   * that index is out of range or the element there is 0.
   */
  function PercentileOf(arr: Value, p: real): real {
    if !arr.Arr? || |arr.elems| == 0 then 0.0
    else
      var valid := Numbers(arr.elems);
      if |valid| == 0 then 0.0
      else
        var sorted := Sort(valid);
        var index := RankIndex(p, |valid|);
        if 0 <= index < |sorted| && sorted[index] != 0.0 then sorted[index] else sorted[|sorted| - 1]
  }

  /** The percentile is 0 without numbers, and otherwise one of the numbers. */
  lemma PercentileIsSampleMember(arr: Value, p: real)
    ensures arr.Arr? && Numbers(arr.elems) != [] ==> Num(PercentileOf(arr, p)) in arr.elems
    ensures !arr.Arr? || Numbers(arr.elems) == [] ==> PercentileOf(arr, p) == 0.0
  {
    if arr.Arr? && Numbers(arr.elems) != [] {
      var valid := Numbers(arr.elems);
      SortMembers(valid);
      var sorted := Sort(valid);
      assert sorted[|sorted| - 1] in sorted;
      var index := RankIndex(p, |valid|);
      if 0 <= index < |sorted| {
        assert sorted[index] in sorted;
      }
    } else if arr.Arr? && |arr.elems| > 0 {
      assert Numbers(arr.elems) == [];
    }
  }

  /** The last element of a sorted sequence is its greatest. */
  lemma SortedLast(s: seq<real>, x: real)
    requires Sorted(s) && x in s
    ensures x <= s[|s| - 1]
  {
    var k :| 0 <= k < |s| && s[k] == x;
    if k < |s| - 1 {
      assert s[k] <= s[|s| - 1];
    }
  }

  /** When the fallback is taken, the percentile is the largest number. */
  lemma PercentileFallbackIsMax(arr: Value, p: real)
    requires arr.Arr? && Numbers(arr.elems) != []
    requires var n := |Numbers(arr.elems)|; var index := RankIndex(p, n);
             !(0 <= index < n) || Sort(Numbers(arr.elems))[index] == 0.0
    ensures forall x :: Num(x) in arr.elems ==> x <= PercentileOf(arr, p)
  {
    var valid := Numbers(arr.elems);
    var sorted := Sort(valid);
    SortMembers(valid);
    forall x | Num(x) in arr.elems ensures x <= sorted[|sorted| - 1] {
      assert x in sorted;
      SortedLast(sorted, x);
    }
  }

  /** Exchanges two elements of an array. */
  method Swap(a: array<real>, i: nat, j: nat)
    requires i < j < a.Length
    modifies a
    ensures a[..] == old(a[..])[i := old(a[j])][j := old(a[i])]
    ensures multiset(a[..]) == multiset(old(a[..]))
  {
    a[i], a[j] := a[j], a[i];
  }

  /** Insertion sort of an array in place, by adjacent swaps. */
  method SortInPlace(a: array<real>)
    modifies a
    ensures Sorted(a[..])
    ensures multiset(a[..]) == multiset(old(a[..]))
  {
    if a.Length == 0 {
      return;
    }
    var i := 1;
    while i < a.Length
      invariant 1 <= i <= a.Length
      invariant forall k, l :: 0 <= k < l < i ==> a[k] <= a[l]
      invariant multiset(a[..]) == multiset(old(a[..]))
    {
      var j := i;
      while j > 0 && a[j - 1] > a[j]
        invariant 0 <= j <= i
        invariant forall k, l :: 0 <= k < l <= i && k != j && l != j ==> a[k] <= a[l]
        invariant forall l :: j < l <= i ==> a[j] < a[l]
        invariant multiset(a[..]) == multiset(old(a[..]))
      {
        Swap(a, j - 1, j);
        j := j - 1;
      }
      i := i + 1;
    }
  }

  /** `Math.percentile(arr, p)`, sorting its private copy of the numbers in place. */
  method Percentile(arr: Value, p: real) returns (r: real)
    ensures r == PercentileOf(arr, p)
  {
    if !arr.Arr? || |arr.elems| == 0 {
      return 0.0;
    }
    var valid := Numbers(arr.elems);
    if |valid| == 0 {
      return 0.0;
    }
    var a := new real[|valid|](i requires 0 <= i < |valid| => valid[i]);
    assert a[..] == valid;
    SortInPlace(a);
    SortPermutation(valid);
    SortedUnique(a[..], Sort(valid));
    var index := RankIndex(p, a.Length);
    if 0 <= index < a.Length && a[index] != 0.0 {
      r := a[index];
    } else {
      r := a[a.Length - 1];
    }
  }

  /** `Math.round`: the nearest integer, halves rounding up. */
  function Round(x: real): (r: int)
    ensures x - 0.5 < r as real <= x + 0.5
  {
    (x + 0.5).Floor
  }

  /** Rounding keeps a value between two integers between them. */
  lemma RoundBounds(x: real, lo: int, hi: int)
    requires lo as real <= x <= hi as real
    ensures lo <= Round(x) <= hi
  {
  }

  /** Rounding never reverses an order. */
  lemma RoundMonotone(x: real, y: real)
    requires x <= y
    ensures Round(x) <= Round(y)
  {
  }
}
