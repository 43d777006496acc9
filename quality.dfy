/**
 * The quality scorer of backend/ml/qualityScoring.js: a deviation-from-target
 * score per parameter, Cp/Cpk process capability over the history window,
 * their combination into a 0..100 quality score, and the batch driver.
 *
 * A number that JavaScript would make NaN is `None` here.
 */
module Quality {
  import opened Wrappers
  import opened Values
  import opened Access
  import opened Stats
  import opened History
  import Anomaly

  // ---------------------------------------------------------------------------
  // calculateDeviationScore
  // ---------------------------------------------------------------------------

  /** A tolerance range `{ min, max }` around the target. */
  datatype Tolerance = Tolerance(min: real, max: real)

  function Width(t: Tolerance): real {
    t.max - t.min
  }

  /** Both values present and not NaN. */
  predicate Numeric(actual: Value, target: Value) {
    actual != Undef && target != Undef && ToNumber(actual).Some? && ToNumber(target).Some?
  }

  /**
   * `calculateDeviationScore(actual, target, tolerance)`: 1 within half the
   * tolerance width of the target, falling linearly to 0 at the full width.
   */
  function DeviationScore(actual: Value, target: Value, t: Tolerance): (r: real)
    ensures !Numeric(actual, target) || Width(t) == 0.0 ==> r == 0.0
    ensures Width(t) > 0.0 ==> 0.0 <= r <= 1.0
    ensures Numeric(actual, target) && Width(t) > 0.0 ==>
              var d := Abs(ToNumber(actual).value - ToNumber(target).value);
              && (d <= Width(t) / 2.0 ==> r == 1.0)
              && (Width(t) / 2.0 < d < Width(t) ==> r == 2.0 - 2.0 * d / Width(t))
              && (d >= Width(t) ==> r == 0.0)
  {
    if !Numeric(actual, target) then 0.0
    else
      var deviation := Abs(ToNumber(actual).value - ToNumber(target).value);
      var range := Width(t);
      if range == 0.0 then 0.0
      else if deviation <= range / 2.0 then 1.0
      else
        var excess := deviation - range / 2.0;
        var r := Max(0.0, 1.0 - excess / (range / 2.0));
        if range > 0.0 then (BandValue(deviation, range); r) else r
  }

  /** The linear band in closed form. */
  lemma BandValue(d: real, w: real)
    requires w > 0.0 && d > w / 2.0
    ensures var r := Max(0.0, 1.0 - (d - w / 2.0) / (w / 2.0));
            && 0.0 <= r < 1.0
            && (d < w ==> r == 2.0 - 2.0 * d / w)
            && (d >= w ==> r == 0.0)
  {
    var h := w / 2.0;
    var x := 2.0 * d / w;
    var y := (d - h) / h;
    assert y * h == d - h;
    assert y * w == y * (2.0 * h);
    assert y * (2.0 * h) == 2.0 * (y * h);
    assert y * w == 2.0 * d - w;
    assert x * w == 2.0 * d;
    assert (y - x + 1.0) * w == y * w - x * w + w;
    ProductSign(y - x + 1.0, w);
    ProductSign(y, h);
    assert (x - 2.0) * w == x * w - 2.0 * w;
    ProductSign(x - 2.0, w);
  }

  /** The sign of a product with a positive factor is the sign of the other. */
  lemma ProductSign(a: real, b: real)
    requires b > 0.0
    ensures a * b > 0.0 ==> a > 0.0
    ensures a * b == 0.0 ==> a == 0.0
    ensures a * b < 0.0 ==> a < 0.0
  {
    if a < 0.0 {
      assert a * b < 0.0;
    } else if a > 0.0 {
      assert a * b > 0.0;
    }
  }

  /** The score never rises as the reading moves away from the target. */
  lemma DeviationMonotone(a1: Value, a2: Value, target: Value, t: Tolerance)
    requires Width(t) > 0.0 && Numeric(a1, target) && Numeric(a2, target)
    requires Abs(ToNumber(a1).value - ToNumber(target).value) <= Abs(ToNumber(a2).value - ToNumber(target).value)
    ensures DeviationScore(a1, target, t) >= DeviationScore(a2, target, t)
  {
    var w := Width(t);
    var d1 := Abs(ToNumber(a1).value - ToNumber(target).value);
    var d2 := Abs(ToNumber(a2).value - ToNumber(target).value);
    if w / 2.0 < d1 < w && d2 < w {
      assert 2.0 * d1 / w <= 2.0 * d2 / w by {
        DivMonotone(2.0 * d1, 2.0 * d2, w);
      }
    }
  }

  lemma DivMonotone(a: real, b: real, c: real)
    requires a <= b && c > 0.0
    ensures a / c <= b / c
  {
    assert b / c - a / c == (b - a) / c;
  }

  // ---------------------------------------------------------------------------
  // calculateProcessCapability
  // ---------------------------------------------------------------------------

  /** Specification limits `{ LSL, USL }`. */
  datatype Limits = Limits(lsl: real, usl: real)

  /** `{ Cp, Cpk }`; `None` is NaN. */
  datatype Indices = Indices(cp: Option<real>, cpk: Option<real>)

  const ZeroIndices: Indices := Indices(Some(0.0), Some(0.0))

  /** The sample variance: squared deviations from the mean divided by n - 1. */
  function SampleVariance(s: seq<real>): (v: real)
    requires |s| > 1
    ensures v >= 0.0
  {
    var q := Squares(Deviations(s, Mean(s)));
    SumNonNegative(q);
    Sum(q) / ((|s| - 1) as real)
  }

  /** The least sample size with a capability other than zero. */
  const MinCapabilitySample: nat := 10

  /**
   * `calculateProcessCapability(data, specLimits)`. The limits are `None`
   * when they are NaN (no numeric target); then only a zero standard
   * deviation still gives numbers.
   */
  function Capability(data: seq<real>, limits: Option<Limits>, sqrt: real -> real): (c: Indices)
    requires IsSqrt(sqrt)
    ensures |data| < MinCapabilitySample ==> c == ZeroIndices
    ensures limits.Some? && limits.value.usl <= limits.value.lsl ==> c == ZeroIndices
    ensures c.cpk.Some? ==> c.cpk.value >= 0.0
    ensures c.cp.Some? <==> c.cpk.Some?
    ensures c.cp.None? <==> |data| >= MinCapabilitySample && limits.None? && SampleVariance(data) != 0.0
    ensures limits.Some? && limits.value.usl > limits.value.lsl && c.cp.Some? ==> 0.0 <= c.cpk.value <= c.cp.value
  {
    if |data| < MinCapabilitySample || (limits.Some? && limits.value.usl <= limits.value.lsl) then ZeroIndices
    else
      var mean := Mean(data);
      var stdDev := sqrt(SampleVariance(data));
      if stdDev == 0.0 then ZeroIndices
      else
        match limits
        case None => Indices(None, None)
        case Some(l) =>
          var cp := (l.usl - l.lsl) / (6.0 * stdDev);
          var cpu := (l.usl - mean) / (3.0 * stdDev);
          var cpl := (mean - l.lsl) / (3.0 * stdDev);
          CpkAtMostCp(l.usl, l.lsl, mean, stdDev);
          Indices(Some(cp), Some(Max(Min(cpu, cpl), 0.0)))
  }

  /** `min(Cpu, Cpl)` is at most their mean, which is Cp; and Cp > 0. */
  lemma CpkAtMostCp(usl: real, lsl: real, mean: real, sd: real)
    requires usl > lsl && sd > 0.0
    ensures var cp := (usl - lsl) / (6.0 * sd);
            cp > 0.0 && Max(Min((usl - mean) / (3.0 * sd), (mean - lsl) / (3.0 * sd)), 0.0) <= cp
  {
    var k := 3.0 * sd;
    var cpu := (usl - mean) / k;
    var cpl := (mean - lsl) / k;
    assert cpu + cpl == (usl - lsl) / k;
    assert (usl - lsl) / (6.0 * sd) == (cpu + cpl) / 2.0;
    assert (usl - lsl) / k > 0.0;
  }

  /** A constant sample has no spread, so both indices are zero. */
  lemma ConstantCapability(data: seq<real>, limits: Option<Limits>, sqrt: real -> real)
    requires IsSqrt(sqrt) && |data| > 1
    requires forall i :: 0 <= i < |data| ==> data[i] == data[0]
    ensures Capability(data, limits, sqrt) == ZeroIndices
  {
    SumConstant(data, data[0]);
    var m := Mean(data);
    assert m == data[0];
    var q := Squares(Deviations(data, m));
    SumConstant(q, 0.0);
    assert SampleVariance(data) == 0.0;
  }

  // ---------------------------------------------------------------------------
  // cpkToScore and the combined score
  // ---------------------------------------------------------------------------

  /** `cpkToScore`: Cpk 0.67 maps to 0 and Cpk 1.33 to 50, linearly, clamped. */
  function CpkToScore(cpk: real): (r: real)
    ensures 0.0 <= r <= 50.0
    ensures cpk <= 0.67 ==> r == 0.0
    ensures cpk >= 1.33 ==> r == 50.0
  {
    var x := (cpk - 0.67) / (1.33 - 0.67) * 50.0;
    Min(Max(x, 0.0), 50.0)
  }

  lemma CpkToScoreMonotone(a: real, b: real)
    requires a <= b
    ensures CpkToScore(a) <= CpkToScore(b)
  {
    DivMonotone(a - 0.67, b - 0.67, 1.33 - 0.67);
  }

  /** `cpkToScore` on a possibly NaN Cpk. */
  function CpkScore(cpk: Option<real>): (r: Option<real>)
    ensures r.Some? <==> cpk.Some?
    ensures r.Some? ==> 0.0 <= r.value <= 50.0
  {
    match cpk
    case None => None
    case Some(x) => Some(CpkToScore(x))
  }

  /** The mean of the two capability scores. */
  function CapabilityScore(thickness: Indices, throughput: Indices): (r: Option<real>)
    ensures r.Some? <==> thickness.cpk.Some? && throughput.cpk.Some?
    ensures r.Some? ==> 0.0 <= r.value <= 50.0
  {
    match (CpkScore(thickness.cpk), CpkScore(throughput.cpk))
    case (Some(a), Some(b)) => Some((a + b) / 2.0)
    case _ => None
  }

  // ---------------------------------------------------------------------------
  // The parameter loop of calculateQualityScore
  // ---------------------------------------------------------------------------

  const ActualThickness: string := "actual_thickness"
  const TargetThickness: string := "target_thickness"
  const TargetOutput: string := "target_output"

  /** A scored parameter, the path of its target, and its default tolerance. */
  datatype Check = Check(param: string, target: string, tolerance: Tolerance)

  const RatioTolerance: Tolerance := Tolerance(-0.2, 0.2)

  /** The critical parameters, their targets and default tolerances, in order. */
  const Checks: seq<Check> := [
    Check(ActualThickness, TargetThickness, Tolerance(-0.5, 0.5)),
    Check(TotalOutput, TargetOutput, Tolerance(-20.0, 20.0)),
    Check("materials.extruder_A[0].actual_ratio", "materials.extruder_A[0].target_ratio", RatioTolerance),
    Check("materials.extruder_A[1].actual_ratio", "materials.extruder_A[1].target_ratio", RatioTolerance),
    Check("materials.extruder_A[2].actual_ratio", "materials.extruder_A[2].target_ratio", RatioTolerance),
    Check("materials.extruder_A[3].actual_ratio", "materials.extruder_A[3].target_ratio", RatioTolerance),
    Check("materials.extruder_B[0].actual_ratio", "materials.extruder_B[0].target_ratio", RatioTolerance),
    Check("materials.extruder_B[1].actual_ratio", "materials.extruder_B[1].target_ratio", RatioTolerance),
    Check("materials.extruder_B[2].actual_ratio", "materials.extruder_B[2].target_ratio", RatioTolerance),
    Check("materials.extruder_B[3].actual_ratio", "materials.extruder_B[3].target_ratio", RatioTolerance),
    Check("materials.extruder_C[0].actual_ratio", "materials.extruder_C[0].target_ratio", RatioTolerance),
    Check("materials.extruder_C[1].actual_ratio", "materials.extruder_C[1].target_ratio", RatioTolerance),
    Check("materials.extruder_C[2].actual_ratio", "materials.extruder_C[2].target_ratio", RatioTolerance),
    Check("materials.extruder_C[3].actual_ratio", "materials.extruder_C[3].target_ratio", RatioTolerance)
  ]

  /** `{ ...defaultTolerances, ...tolerances }[param]`: the caller's entry wins. */
  function Effective(tolerances: map<string, Tolerance>, c: Check): (t: Tolerance)
    ensures c.param in tolerances ==> t == tolerances[c.param]
    ensures c.param !in tolerances ==> t == c.tolerance
  {
    if c.param in tolerances then tolerances[c.param] else c.tolerance
  }

  /** Every default tolerance has positive width. */
  lemma DefaultWidths()
    ensures forall c :: c in Checks ==> Width(c.tolerance) > 0.0
  {
  }

  /** `details[param] = { actual, target, score }`. */
  datatype Detail = Detail(actual: Value, target: Value, score: real)

  /** The entry of one parameter, when actual and target are both numeric. */
  function ParamDetail(reading: Value, c: Check, tolerances: map<string, Tolerance>): (r: Option<Detail>)
    ensures r.Some? <==> Numeric(GetNestedValue(reading, c.param), GetNestedValue(reading, c.target))
    ensures r.Some? && Width(Effective(tolerances, c)) > 0.0 ==> 0.0 <= r.value.score <= 1.0
  {
    var actual := GetNestedValue(reading, c.param);
    var target := GetNestedValue(reading, c.target);
    if Numeric(actual, target) then Some(Detail(actual, target, DeviationScore(actual, target, Effective(tolerances, c))))
    else None
  }

  /** `ParamDetail` for one reading and one set of tolerances. */
  function Detailer(reading: Value, tolerances: map<string, Tolerance>): Check -> Option<Detail> {
    c => ParamDetail(reading, c, tolerances)
  }

  /** Scores of parameters with positive tolerance width lie in [0, 1]. */
  lemma DetailerScores(reading: Value, tolerances: map<string, Tolerance>, cs: seq<Check>)
    requires forall c :: c in cs ==> Width(Effective(tolerances, c)) > 0.0
    ensures forall c :: c in cs && Detailer(reading, tolerances)(c).Some? ==>
              0.0 <= Detailer(reading, tolerances)(c).value.score <= 1.0
  {
  }

  /** The loop state: `totalScore`, `paramCount`, `details`. */
  datatype Tally = Tally(total: real, count: nat, details: map<string, Detail>)

  /** The loop state after the checks `cs`, in order, each scored by `detail`. */
  function TallyOf(cs: seq<Check>, detail: Check -> Option<Detail>): (t: Tally)
    ensures t.count <= |cs|
    decreases |cs|
  {
    if |cs| == 0 then Tally(0.0, 0, map[])
    else
      var n := |cs| - 1;
      var t := TallyOf(cs[..n], detail);
      match detail(cs[n])
      case None => t
      case Some(d) => Tally(t.total + d.score, t.count + 1, t.details[cs[n].param := d])
  }

  /** One more check extends the fold by that check's entry. */
  lemma TallyStep(cs: seq<Check>, detail: Check -> Option<Detail>, t: Tally)
    requires |cs| > 0 && t == TallyOf(cs[..|cs| - 1], detail)
    ensures TallyOf(cs, detail) == match detail(cs[|cs| - 1])
                                   case None => t
                                   case Some(d) => Tally(t.total + d.score, t.count + 1, t.details[cs[|cs| - 1].param := d])
  {
  }

  /** With scores in [0, 1], the total lies between 0 and the count. */
  lemma {:induction false} TallyBounds(cs: seq<Check>, detail: Check -> Option<Detail>)
    requires forall c :: c in cs && detail(c).Some? ==> 0.0 <= detail(c).value.score <= 1.0
    ensures var t := TallyOf(cs, detail);
            0.0 <= t.total <= t.count as real
    decreases |cs|
  {
    if |cs| > 0 {
      var n := |cs| - 1;
      assert forall c :: c in cs[..n] ==> c in cs;
      TallyBounds(cs[..n], detail);
      assert cs[n] in cs;
    }
  }

  /** `details` holds exactly the parameters that have an entry. */
  lemma {:induction false} TallyKeys(cs: seq<Check>, detail: Check -> Option<Detail>)
    ensures forall p :: p in TallyOf(cs, detail).details <==> exists i :: 0 <= i < |cs| && cs[i].param == p && detail(cs[i]).Some?
    decreases |cs|
  {
    if |cs| > 0 {
      var n := |cs| - 1;
      var pre := cs[..n];
      TallyKeys(pre, detail);
      var t0 := TallyOf(pre, detail);
      var t := TallyOf(cs, detail);
      assert t.details == if detail(cs[n]).Some? then t0.details[cs[n].param := detail(cs[n]).value] else t0.details;
      forall p ensures p in t.details <==> exists i :: 0 <= i < |cs| && cs[i].param == p && detail(cs[i]).Some? {
        if p in t0.details {
          assert exists i :: 0 <= i < |pre| && pre[i].param == p && detail(pre[i]).Some?;
          var i :| 0 <= i < |pre| && pre[i].param == p && detail(pre[i]).Some?;
          assert cs[i] == pre[i];
        }
        if p in t.details && p !in t0.details {
          assert cs[n].param == p && detail(cs[n]).Some?;
        }
        if exists i :: 0 <= i < |cs| && cs[i].param == p && detail(cs[i]).Some? {
          var i :| 0 <= i < |cs| && cs[i].param == p && detail(cs[i]).Some?;
          if i < n {
            assert pre[i] == cs[i];
          }
        }
      }
    }
  }

  /** With distinct parameters, the last check's key is new to the fold before it. */
  lemma LastKeyFresh(cs: seq<Check>, detail: Check -> Option<Detail>)
    requires |cs| > 0
    requires forall i, j :: 0 <= i < j < |cs| ==> cs[i].param != cs[j].param
    ensures cs[|cs| - 1].param !in TallyOf(cs[..|cs| - 1], detail).details
  {
    var n := |cs| - 1;
    TallyKeys(cs[..n], detail);
    assert forall i :: 0 <= i < n ==> cs[..n][i] == cs[i];
  }

  /** With distinct parameters, each parameter's entry is the one `detail` gives. */
  lemma {:induction false} TallyEntries(cs: seq<Check>, detail: Check -> Option<Detail>)
    requires forall i, j :: 0 <= i < j < |cs| ==> cs[i].param != cs[j].param
    ensures forall i :: 0 <= i < |cs| && detail(cs[i]).Some? ==>
              cs[i].param in TallyOf(cs, detail).details && TallyOf(cs, detail).details[cs[i].param] == detail(cs[i]).value
    decreases |cs|
  {
    if |cs| > 0 {
      var n := |cs| - 1;
      var pre := cs[..n];
      TallyEntries(pre, detail);
      TallyKeys(cs, detail);
      var t := TallyOf(cs, detail);
      forall i | 0 <= i < |cs| && detail(cs[i]).Some?
        ensures cs[i].param in t.details && t.details[cs[i].param] == detail(cs[i]).value
      {
        if i < n {
          assert pre[i] == cs[i] && cs[i].param != cs[n].param;
        }
      }
    }
  }

  /** With distinct parameters, `paramCount` is the number of entries. */
  lemma {:induction false} TallyCount(cs: seq<Check>, detail: Check -> Option<Detail>)
    requires forall i, j :: 0 <= i < j < |cs| ==> cs[i].param != cs[j].param
    ensures var t := TallyOf(cs, detail);
            t.count == |t.details|
    decreases |cs|
  {
    if |cs| > 0 {
      var n := |cs| - 1;
      TallyCount(cs[..n], detail);
      LastKeyFresh(cs, detail);
    }
  }

  /** `paramCount > 0 ? (totalScore / paramCount) * 50 : 0`. */
  function DeviationPart(t: Tally): real {
    if t.count > 0 then t.total / (t.count as real) * 50.0 else 0.0
  }

  /** The deviation contribution is 50 times a mean of scores in [0, 1]. */
  lemma DeviationPartBounds(t: Tally)
    requires 0.0 <= t.total <= t.count as real
    ensures 0.0 <= DeviationPart(t) <= 50.0
  {
    if t.count > 0 {
      var c := t.count as real;
      assert t.total / c <= 1.0 by {
        DivMonotone(t.total, c, c);
      }
    }
  }

  // ---------------------------------------------------------------------------
  // calculateQualityScore
  // ---------------------------------------------------------------------------

  /** `{ LSL: target - delta, USL: target + delta }`; NaN without a numeric target. */
  function LimitsAround(reading: Value, target: string, delta: real): (r: Option<Limits>)
    ensures r.Some? <==> ToNumber(GetNestedValue(reading, target)).Some?
    ensures r.Some? ==> r.value.usl - r.value.lsl == 2.0 * delta
    ensures r.Some? ==> var t := ToNumber(GetNestedValue(reading, target)).value;
                        r.value.lsl == t - delta && r.value.usl == t + delta
  {
    match ToNumber(GetNestedValue(reading, target))
    case None => None
    case Some(t) => Some(Limits(t - delta, t + delta))
  }

  /** Throughputs in (0, 1000]. */
  function InThroughputRange(xs: seq<real>): (r: seq<real>)
    ensures |r| <= |xs|
    ensures forall x :: x in r <==> x in xs && 0.0 < x <= 1000.0
    ensures |xs| == 1 ==> r == if 0.0 < xs[0] <= 1000.0 then xs else []
  {
    if |xs| == 0 then []
    else
      var rest := InThroughputRange(xs[1..]);
      assert forall x :: x in xs <==> x == xs[0] || x in xs[1..] by {
        assert xs == [xs[0]] + xs[1..];
      }
      if 0.0 < xs[0] <= 1000.0 then [xs[0]] + rest else rest
  }

  /**
   * The throughputs in range of a concatenation are those of each part, in
   * order: with the one-value case, this fixes the sample the throughput
   * Cpk is computed from, multiplicities included.
   */
  lemma {:induction false} InThroughputRangeAppend(a: seq<real>, b: seq<real>)
    ensures InThroughputRange(a + b) == InThroughputRange(a) + InThroughputRange(b)
    decreases |a|
  {
    if |a| == 0 {
      assert a + b == b;
    } else {
      assert (a + b)[0] == a[0] && (a + b)[1..] == a[1..] + b;
      InThroughputRangeAppend(a[1..], b);
    }
  }

  datatype QualityResult = QualityResult(
    qualityScore: Option<int>,
    deviationScore: real,
    capabilityScore: Option<real>,
    details: map<string, Detail>,
    thickness: Indices,
    throughput: Indices)

  /**
   * The quality result given the parameter loop's state and the history
   * window: capability of thickness (limits target ± 0.5) and of throughput
   * (limits target ± 20) over the window, and the rounded sum.
   */
  function Combine(reading: Value, t: Tally, hist: seq<Value>, sqrt: real -> real): (r: QualityResult)
    requires IsSqrt(sqrt)
    ensures r.deviationScore == DeviationPart(t) && r.details == t.details
    ensures r.qualityScore.Some? <==> r.capabilityScore.Some?
    ensures r.capabilityScore.Some? ==> r.qualityScore.value == Round(r.deviationScore + r.capabilityScore.value)
  {
    var thickness := Capability(Anomaly.HistoryValues(hist, ActualThickness), LimitsAround(reading, TargetThickness, 0.5), sqrt);
    var throughput := Capability(InThroughputRange(Anomaly.HistoryValues(hist, TotalOutput)), LimitsAround(reading, TargetOutput, 20.0), sqrt);
    CombineIndices(t, thickness, throughput)
  }

  /** The quality result of the parameter loop's state and the two capability indices. */
  function CombineIndices(t: Tally, thickness: Indices, throughput: Indices): (r: QualityResult)
    ensures r.deviationScore == DeviationPart(t) && r.details == t.details
    ensures r.thickness == thickness && r.throughput == throughput
    ensures r.capabilityScore == CapabilityScore(thickness, throughput)
    ensures r.qualityScore.Some? <==> r.capabilityScore.Some?
    ensures r.capabilityScore.Some? ==> r.qualityScore.value == Round(r.deviationScore + r.capabilityScore.value)
  {
    var dev := DeviationPart(t);
    var cap := CapabilityScore(thickness, throughput);
    var q := if cap.Some? then Some(Round(dev + cap.value)) else None;
    QualityResult(q, dev, cap, t.details, thickness, throughput)
  }

  /**
   * `calculateQualityScore(reading, tolerances, processed)` with the
   * database records `db`: `Err` when a timestamp key of the history merge
   * throws.
   */
  function QualitySpec(cs: seq<Check>, reading: Value, tolerances: map<string, Tolerance>, db: seq<Value>, processed: seq<Value>, sqrt: real -> real): (r: Result<QualityResult>)
    requires IsSqrt(sqrt)
    ensures r.Err? <==> MergeHistory(db, processed).Err?
  {
    var t := TallyOf(cs, Detailer(reading, tolerances));
    match MergeHistory(db, processed)
    case Err(e) => Err(e)
    case Ok(hist) => Ok(Combine(reading, t, hist, sqrt))
  }

  /**
   * With tolerances of positive width the deviation part lies in [0, 50],
   * the capability part in [0, 50] and the quality score in [0, 100]; the
   * score is NaN exactly when a capability index is.
   */
  lemma QualityBounds(cs: seq<Check>, reading: Value, tolerances: map<string, Tolerance>, db: seq<Value>, processed: seq<Value>, sqrt: real -> real)
    requires IsSqrt(sqrt)
    requires forall c :: c in cs ==> Width(Effective(tolerances, c)) > 0.0
    ensures var r := QualitySpec(cs, reading, tolerances, db, processed, sqrt);
            r.Ok? ==>
              && 0.0 <= r.value.deviationScore <= 50.0
              && (r.value.capabilityScore.Some? ==> 0.0 <= r.value.capabilityScore.value <= 50.0)
              && (r.value.qualityScore.Some? ==> 0 <= r.value.qualityScore.value <= 100)
              && (r.value.qualityScore.None? <==> r.value.thickness.cpk.None? || r.value.throughput.cpk.None?)
  {
    var t := TallyOf(cs, Detailer(reading, tolerances));
    DetailerScores(reading, tolerances, cs);
    TallyBounds(cs, Detailer(reading, tolerances));
    DeviationPartBounds(t);
    var r := QualitySpec(cs, reading, tolerances, db, processed, sqrt);
    if r.Ok? && r.value.qualityScore.Some? {
      RoundBounds(r.value.deviationScore + r.value.capabilityScore.value, 0, 100);
    }
  }

  /** Numeric targets give a numeric quality score. */
  lemma QualityDefined(cs: seq<Check>, reading: Value, tolerances: map<string, Tolerance>, db: seq<Value>, processed: seq<Value>, sqrt: real -> real)
    requires IsSqrt(sqrt)
    requires ToNumber(GetNestedValue(reading, TargetThickness)).Some?
    requires ToNumber(GetNestedValue(reading, TargetOutput)).Some?
    ensures var r := QualitySpec(cs, reading, tolerances, db, processed, sqrt);
            r.Ok? ==> r.value.qualityScore.Some?
  {
  }

  /** The body of the `forEach`: the entry of one parameter, if it has one. */
  method ParamEntry(reading: Value, c: Check, tolerances: map<string, Tolerance>) returns (entry: Option<Detail>)
    ensures entry == ParamDetail(reading, c, tolerances)
  {
    var actual := GetNestedValue(reading, c.param);
    var target := GetNestedValue(reading, c.target);
    if actual != Undef && target != Undef && ToNumber(actual).Some? && ToNumber(target).Some? {
      var score := DeviationScore(actual, target, Effective(tolerances, c));
      entry := Some(Detail(actual, target, score));
    } else {
      entry := None;
    }
  }

  /** The `forEach` over the critical parameters `cs`. */
  method TallyLoop(reading: Value, cs: seq<Check>, tolerances: map<string, Tolerance>) returns (t: Tally)
    ensures t == TallyOf(cs, Detailer(reading, tolerances))
  {
    ghost var detail := Detailer(reading, tolerances);
    var totalScore := 0.0;
    var paramCount := 0;
    var details: map<string, Detail> := map[];
    var i := 0;
    while i < |cs|
      invariant 0 <= i <= |cs|
      invariant Tally(totalScore, paramCount, details) == TallyOf(cs[..i], detail)
    {
      var c := cs[i];
      var entry := ParamEntry(reading, c, tolerances);
      ghost var prefix := cs[..i + 1];
      assert prefix[..i] == cs[..i] && prefix[i] == c;
      TallyStep(prefix, detail, Tally(totalScore, paramCount, details));
      assert detail(c) == entry;
      if entry.Some? {
        totalScore := totalScore + entry.value.score;
        paramCount := paramCount + 1;
        details := details[c.param := entry.value];
      }
      i := i + 1;
    }
    assert cs[..i] == cs;
    t := Tally(totalScore, paramCount, details);
  }

  /**
   * `calculateQualityScore` over the parameter table `cs` (the source
   * always uses `Checks`): the parameter loop, the history window, then
   * capability.
   */
  method CalculateQualityScore(cs: seq<Check>, reading: Value, tolerances: map<string, Tolerance>, db: seq<Value>, processed: seq<Value>, sqrt: real -> real)
    returns (r: Result<QualityResult>)
    requires IsSqrt(sqrt)
    ensures r == QualitySpec(cs, reading, tolerances, db, processed, sqrt)
  {
    var t := TallyLoop(reading, cs, tolerances);
    var merged := MergeHistory(db, processed);
    if merged.Err? {
      return Err(merged.message);
    }
    r := Ok(Combine(reading, t, merged.value, sqrt));
  }

  // ---------------------------------------------------------------------------
  // processQualityBatch
  // ---------------------------------------------------------------------------

  /** A possibly NaN number as a value. */
  function NumberValue(x: Option<real>): Value {
    if x.Some? then Num(x.value) else NaN
  }

  /** `{ Cp, Cpk }` as a value. */
  function IndicesValue(c: Indices): Value {
    Obj(map["Cp" := NumberValue(c.cp), "Cpk" := NumberValue(c.cpk)])
  }

  /** `{ thickness, throughput }` as a value. */
  function CapabilityValue(thickness: Indices, throughput: Indices): Value {
    Obj(map["thickness" := IndicesValue(thickness), "throughput" := IndicesValue(throughput)])
  }

  /** The `details` object. */
  function DetailsValue(details: map<string, Detail>): Value {
    Obj(map p | p in details :: Obj(map["actual" := details[p].actual, "target" := details[p].target, "score" := Num(details[p].score)]))
  }

  const QualityScoreKey: string := "quality_score"
  const QualityDetailsKey: string := "quality_details"
  const ProcessCapabilityKey: string := "process_capability"

  /** The fields the batch writes on each record. */
  function QualityKeys(): set<string> {
    {QualityScoreKey, QualityDetailsKey, ProcessCapabilityKey}
  }

  lemma QualityKeysDistinct()
    ensures QualityScoreKey != QualityDetailsKey && QualityScoreKey != ProcessCapabilityKey
    ensures QualityDetailsKey != ProcessCapabilityKey
  {
    assert QualityScoreKey[8] != QualityDetailsKey[8];
    assert QualityScoreKey[0] != ProcessCapabilityKey[0];
    assert QualityDetailsKey[0] != ProcessCapabilityKey[0];
  }

  /** `{ ...base, quality_score, quality_details, process_capability }`. */
  function WithQuality(base: map<string, Value>, score: Value, details: Value, capability: Value): (r: Value)
    ensures r.Obj? && r.fields.Keys == base.Keys + QualityKeys()
    ensures forall k :: k in base && k !in QualityKeys() ==> r.fields[k] == base[k]
    ensures r.fields[QualityScoreKey] == score && r.fields[QualityDetailsKey] == details
    ensures r.fields[ProcessCapabilityKey] == capability
  {
    QualityKeysDistinct();
    Obj(base[QualityScoreKey := score][QualityDetailsKey := details][ProcessCapabilityKey := capability])
  }

  /** The record given score 0, no details and all-zero capability. */
  function ZeroQuality(d: Value): Value {
    WithQuality(Spread(d), Num(0.0), Obj(map[]), CapabilityValue(ZeroIndices, ZeroIndices))
  }

  /** The record with a quality result written on it. */
  function Scored(d: Value, q: QualityResult): Value {
    var score := if q.qualityScore.Some? then Num(q.qualityScore.value as real) else NaN;
    WithQuality(Spread(d), score, DetailsValue(q.details), CapabilityValue(q.thickness, q.throughput))
  }

  /**
   * One iteration of the batch loop: the plausibility gate, then the
   * quality result with the default tolerances; a thrown error gives the
   * zero record.
   */
  function QualityRecord(cs: seq<Check>, d: Value, db: seq<Value>, processed: seq<Value>, sqrt: real -> real): Value
    requires IsSqrt(sqrt)
  {
    if !Plausible(d) then ZeroQuality(d)
    else
      match QualitySpec(cs, d, map[], db, processed, sqrt)
      case Err(_) => ZeroQuality(d)
      case Ok(q) => Scored(d, q)
  }

  /** `processQualityBatch(batch, processed)`: `[]` for a non-array, else one record per input. */
  function QualityBatchSpec(cs: seq<Check>, batch: Value, db: seq<Value>, processed: seq<Value>, sqrt: real -> real): (r: seq<Value>)
    requires IsSqrt(sqrt)
    ensures !batch.Arr? ==> r == []
    ensures batch.Arr? ==> |r| == |batch.elems|
  {
    if !batch.Arr? then []
    else
      var es := batch.elems;
      seq(|es|, i requires 0 <= i < |es| => QualityRecord(cs, es[i], db, processed, sqrt))
  }

  /** `o` is an object holding every field of `d` the batch does not write. */
  predicate KeepsFields(d: Value, o: Value) {
    o.Obj? && forall k :: k in Spread(d) && k !in QualityKeys() ==> k in o.fields && o.fields[k] == Spread(d)[k]
  }

  /** `o` carries a `quality_score` that is NaN or an integer in [0, 100]. */
  predicate ScoreField(o: Value) {
    o.Obj? && QualityScoreKey in o.fields && (o.fields[QualityScoreKey] == NaN || Percent(o.fields[QualityScoreKey]))
  }

  lemma WithQualityKeeps(d: Value, score: Value, details: Value, capability: Value)
    requires score == NaN || Percent(score)
    ensures var o := WithQuality(Spread(d), score, details, capability);
            KeepsFields(d, o) && ScoreField(o)
  {
  }

  /**
   * Every output record keeps its input's other fields and carries a
   * `quality_score` that is NaN or an integer in [0, 100]; an implausible
   * record, or one whose history merge throws, gets the zero record.
   */
  lemma QualityRecordShape(cs: seq<Check>, d: Value, db: seq<Value>, processed: seq<Value>, sqrt: real -> real)
    requires IsSqrt(sqrt)
    requires forall c :: c in cs ==> Width(c.tolerance) > 0.0
    ensures var o := QualityRecord(cs, d, db, processed, sqrt);
            && KeepsFields(d, o) && ScoreField(o)
            && (!Plausible(d) || MergeHistory(db, processed).Err? ==> o == ZeroQuality(d))
  {
    if Plausible(d) && MergeHistory(db, processed).Ok? {
      QualityBounds(cs, d, map[], db, processed, sqrt);
      ScoredShape(d, QualitySpec(cs, d, map[], db, processed, sqrt).value);
    } else {
      WithQualityKeeps(d, Num(0.0), Obj(map[]), CapabilityValue(ZeroIndices, ZeroIndices));
    }
  }

  /** A result whose score is NaN or in [0, 100] gives a well-shaped record. */
  lemma ScoredShape(d: Value, q: QualityResult)
    requires q.qualityScore.Some? ==> 0 <= q.qualityScore.value <= 100
    ensures KeepsFields(d, Scored(d, q)) && ScoreField(Scored(d, q))
  {
    var score := if q.qualityScore.Some? then Num(q.qualityScore.value as real) else NaN;
    assert q.qualityScore.Some? ==> (q.qualityScore.value as real).Floor == q.qualityScore.value;
    WithQualityKeeps(d, score, DetailsValue(q.details), CapabilityValue(q.thickness, q.throughput));
  }

  /** An integer from 0 to 100. */
  predicate Percent(v: Value) {
    v.Num? && v.n == v.n.Floor as real && 0.0 <= v.n <= 100.0
  }

  /** The body of the batch loop for one record. */
  method ScoreRecord(cs: seq<Check>, data: Value, db: seq<Value>, processed: seq<Value>, sqrt: real -> real) returns (out: Value)
    requires IsSqrt(sqrt)
    ensures out == QualityRecord(cs, data, db, processed, sqrt)
  {
    if !Plausible(data) {
      return ZeroQuality(data);
    }
    var q := CalculateQualityScore(cs, data, map[], db, processed, sqrt);
    if q.Err? {
      out := ZeroQuality(data);
    } else {
      out := Scored(data, q.value);
    }
  }

  /** The loop of `processQualityBatch` over the records `es`. */
  method QualityLoop(cs: seq<Check>, es: seq<Value>, db: seq<Value>, processed: seq<Value>, sqrt: real -> real)
    returns (results: seq<Value>)
    requires IsSqrt(sqrt)
    ensures results == QualityBatchSpec(cs, Arr(es), db, processed, sqrt)
  {
    results := [];
    var i := 0;
    while i < |es|
      invariant 0 <= i <= |es|
      invariant |results| == i
      invariant forall k :: 0 <= k < i ==> results[k] == QualityRecord(cs, es[k], db, processed, sqrt)
    {
      var out := ScoreRecord(cs, es[i], db, processed, sqrt);
      results := results + [out];
      i := i + 1;
    }
  }

  /** `processQualityBatch(batch, processed)` with the database records `db`. */
  method ProcessQualityBatch(batch: Value, db: seq<Value>, processed: seq<Value>, sqrt: real -> real)
    returns (results: seq<Value>)
    requires IsSqrt(sqrt)
    ensures results == QualityBatchSpec(Checks, batch, db, processed, sqrt)
  {
    if !batch.Arr? {
      return [];
    }
    results := QualityLoop(Checks, batch.elems, db, processed, sqrt);
  }

  /**
   * Every record `processQualityBatch` returns keeps its input's other
   * fields and has a `quality_score` that is NaN or an integer in [0, 100].
   */
  lemma QualityBatchShape(batch: Value, db: seq<Value>, processed: seq<Value>, sqrt: real -> real)
    requires IsSqrt(sqrt) && batch.Arr?
    ensures forall i :: 0 <= i < |batch.elems| ==>
              && KeepsFields(batch.elems[i], QualityBatchSpec(Checks, batch, db, processed, sqrt)[i])
              && ScoreField(QualityBatchSpec(Checks, batch, db, processed, sqrt)[i])
  {
    DefaultWidths();
    forall i | 0 <= i < |batch.elems|
      ensures && KeepsFields(batch.elems[i], QualityBatchSpec(Checks, batch, db, processed, sqrt)[i])
              && ScoreField(QualityBatchSpec(Checks, batch, db, processed, sqrt)[i])
    {
      QualityRecordShape(Checks, batch.elems[i], db, processed, sqrt);
    }
  }
}
