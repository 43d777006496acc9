/**
 * The anomaly detector of backend/ml/anomalyDetection.js: the per-reading
 * detector `detectAnomalies` (a cold-start branch with fixed or
 * target-relative ranges, a warm branch with z-scores and MAD scores over
 * the history) and the batch driver `processBatch` (plausibility gate,
 * history window, adaptive thresholds, pass-through of annotated records).
 *
 * The database fetch is the parameter `db`: the records it returned, or the
 * empty sequence when it failed. `Math.sqrt` is the parameter `sqrt`.
 */
module Anomaly {
  import opened Wrappers
  import opened Strings
  import opened Values
  import opened Access
  import opened Stats
  import opened History

  /** The parameters scored when the caller names none, and by the batch driver. */
  const CriticalParameters: seq<string> := [
    "total_output",
    "extruder_A_pressure",
    "extruder_B_pressure",
    "extruder_C_pressure",
    "extruder_A_temperature",
    "extruder_B_temperature",
    "extruder_C_temperature",
    "blower_load_1",
    "blower_load_2",
    "blower_exhaust_actual",
    "actual_thickness",
    "heating_zones.extruder_A.zone_1.actual",
    "heating_zones.extruder_A.zone_3.actual",
    "heating_zones.extruder_A.zone_5.actual",
    "heating_zones.extruder_A.zone_7.actual",
    "heating_zones.extruder_B.zone_1.actual",
    "heating_zones.extruder_B.zone_3.actual",
    "heating_zones.extruder_B.zone_5.actual",
    "heating_zones.extruder_B.zone_7.actual",
    "heating_zones.extruder_C.zone_1.actual",
    "heating_zones.extruder_C.zone_3.actual",
    "heating_zones.extruder_C.zone_5.actual",
    "heating_zones.extruder_C.zone_7.actual",
    "materials.extruder_A[0].actual_ratio",
    "materials.extruder_A[1].actual_ratio",
    "materials.extruder_A[2].actual_ratio",
    "materials.extruder_A[3].actual_ratio",
    "materials.extruder_B[0].actual_ratio",
    "materials.extruder_B[1].actual_ratio",
    "materials.extruder_B[2].actual_ratio",
    "materials.extruder_B[3].actual_ratio",
    "materials.extruder_C[0].actual_ratio",
    "materials.extruder_C[1].actual_ratio",
    "materials.extruder_C[2].actual_ratio",
    "materials.extruder_C[3].actual_ratio"
  ]

  /** Fewer numeric history values than this selects the cold-start branch. */
  const ColdStartLimit: nat := 10

  // ---------------------------------------------------------------------------
  // History values of one parameter
  // ---------------------------------------------------------------------------

  /** The numeric values of `param` across the history records, in order. */
  function HistoryValues(hist: seq<Value>, param: string): (r: seq<real>)
    ensures |r| <= |hist|
    ensures forall x :: x in r <==> exists d :: d in hist && ToNumber(GetNestedValue(d, param)) == Some(x)
    ensures |hist| == 1 ==> r == match ToNumber(GetNestedValue(hist[0], param)) case None => [] case Some(x) => [x]
  {
    if |hist| == 0 then []
    else
      assert forall d :: d in hist <==> d == hist[0] || d in hist[1..] by {
        assert hist == [hist[0]] + hist[1..];
      }
      var rest := HistoryValues(hist[1..], param);
      match ToNumber(GetNestedValue(hist[0], param))
      case None => rest
      case Some(x) => [x] + rest
  }

  /**
   * The values of a concatenation of histories are the values of each, in
   * order: with the one-record case, this fixes the count that selects the
   * cold or warm branch and the multiplicities the warm scores see.
   */
  lemma {:induction false} HistoryValuesAppend(a: seq<Value>, b: seq<Value>, param: string)
    ensures HistoryValues(a + b, param) == HistoryValues(a, param) + HistoryValues(b, param)
    decreases |a|
  {
    if |a| == 0 {
      assert a + b == b;
    } else {
      assert (a + b)[0] == a[0] && (a + b)[1..] == a[1..] + b;
      HistoryValuesAppend(a[1..], b, param);
    }
  }

  // ---------------------------------------------------------------------------
  // Cold start: ranges and pseudo-scores
  // ---------------------------------------------------------------------------

  datatype Range = Range(min: real, max: real)

  function Centre(r: Range): real {
    (r.max + r.min) / 2.0
  }

  /**
   * `(v || d)` used as a number: a falsy field (absent, `null`, 0, NaN)
   * gives the default.
   */
  function NumberOr(v: Value, d: real): (r: real)
    ensures !Truthy(v) ==> r == d
    ensures v.Num? && v.n != 0.0 ==> r == v.n
  {
    if Truthy(v) && ToNumber(v).Some? then ToNumber(v).value else d
  }

  /** `param` is none of the named families and gets the value-relative range. */
  predicate ValueRelative(param: string) {
    && !Includes(param, "pressure")
    && !Includes(param, "temperature")
    && !Includes(param, "blower_load")
    && param != "total_output"
    && param != "actual_thickness"
    && !Includes(param, "actual_ratio")
    && !Includes(param, "blower_exhaust_actual")
    && !Includes(param, "heating_zones")
  }

  /**
   * The normal range of the cold-start branch for reading value `x`: fixed
   * ranges for pressures, temperatures, blower loads and throughput, ranges
   * around the reading's own target or setpoint for thickness, material
   * ratios, blower exhaust and heating zones, and 70%..130% of the value
   * otherwise.
   */
  function ColdRange(reading: Value, param: string, x: real): (r: Range)
    ensures !ValueRelative(param) ==> r.min < r.max
    ensures ValueRelative(param) ==> (r.min <= r.max <==> x >= 0.0)
  {
    if Includes(param, "pressure") then Range(300.0, 600.0)
    else if Includes(param, "temperature") then Range(180.0, 220.0)
    else if Includes(param, "blower_load") then Range(0.0, 150.0)
    else if param == "total_output" then Range(310.0, 330.0)
    else if param == "actual_thickness" then
      var t := NumberOr(GetNestedValue(reading, "target_thickness"), 25.0);
      Range(t - 2.0, t + 2.0)
    else if Includes(param, "actual_ratio") then
      var t := NumberOr(GetNestedValue(reading, ReplaceFirst(param, "actual_ratio", "target_ratio")), 0.0);
      Range(t - 0.5, t + 0.5)
    else if Includes(param, "blower_exhaust_actual") then
      var t := NumberOr(GetNestedValue(reading, "blower_exhaust_setpoint"), 30.0);
      Range(t - 10.0, t + 10.0)
    else if Includes(param, "heating_zones") then
      var t := NumberOr(GetNestedValue(reading, ReplaceFirst(param, "actual", "setpoint")), 0.0);
      Range(t - 30.0, t + 30.0)
    else Range(x * 0.7, x * 1.3)
  }

  /**
   * The pseudo z-score: the distance from the centre of the range over a
   * sixth of its width, or 0 for an empty-width range.
   */
  function ColdZScore(x: real, r: Range): (z: real)
    ensures r.max == r.min || x == Centre(r) ==> z == 0.0
    ensures r.max > r.min ==> z >= 0.0
    ensures r.max > r.min && r.min <= x <= r.max ==> z <= 3.0
  {
    var width := r.max - r.min;
    var distance := Abs(x - Centre(r));
    if width == 0.0 then 0.0
    else
      DivAtMost(distance, width / 6.0, 3.0);
      distance / (width / 6.0)
  }

  lemma DivAtMost(a: real, b: real, c: real)
    ensures b > 0.0 && a <= c * b ==> a / b <= c
  {
  }

  /** `y || 1` for a number. */
  function OrOne(y: real): (r: real)
    ensures r != 0.0
    ensures y != 0.0 ==> r == y
  {
    if y != 0.0 then y else 1.0
  }

  /**
   * The pseudo MAD score: how far below the minimum relative to half the
   * minimum, or how far above the maximum relative to half the maximum;
   * 0 inside the range.
   */
  function ColdMadScore(x: real, r: Range): (m: real)
    ensures r.min <= x <= r.max ==> m == 0.0
    ensures 0.0 <= r.min <= r.max ==> m >= 0.0
    ensures 0.0 <= r.min <= r.max && (x < r.min || x > r.max) ==> m > 0.0
  {
    if x < r.min then (r.min - x) / OrOne(r.min - r.min * 0.5)
    else if x > r.max then (x - r.max) / OrOne(r.max * 1.5 - r.max)
    else 0.0
  }

  // ---------------------------------------------------------------------------
  // One parameter
  // ---------------------------------------------------------------------------

  /** The entry `paramScores[param]`; `normalRange` is present only on cold start. */
  datatype ParamScore = ParamScore(value: Value, normalRange: Option<Range>, zScore: real, madScore: real, isOutlier: bool)

  /**
   * The score of one parameter of a reading, or `None` when the reading's
   * value is undefined or NaN and the parameter is skipped.
   */
  function ScoreParam(reading: Value, param: string, hist: seq<Value>, zT: real, madT: real, sqrt: real -> real): (r: Option<ParamScore>)
    requires IsSqrt(sqrt)
    ensures r.None? <==> ToNumber(GetNestedValue(reading, param)).None?
    ensures r.Some? ==> r.value.value == GetNestedValue(reading, param)
    ensures r.Some? ==> (r.value.normalRange.Some? <==> |HistoryValues(hist, param)| < ColdStartLimit)
    ensures r.Some? && r.value.normalRange.None? ==> r.value.madScore >= 0.0
    ensures r.Some? && r.value.normalRange.Some? ==>
      var x := ToNumber(GetNestedValue(reading, param)).value;
      var range := ColdRange(reading, param, x);
      && r.value.normalRange == Some(range)
      && r.value.zScore == ColdZScore(x, range)
      && r.value.madScore == ColdMadScore(x, range)
      && (r.value.isOutlier <==> r.value.zScore > zT || r.value.madScore > madT)
    ensures r.Some? && r.value.normalRange.None? ==>
      var x := ToNumber(GetNestedValue(reading, param)).value;
      && r.value == WarmScore(GetNestedValue(reading, param), HistoryValues(hist, param) + [x], zT, madT, sqrt)
      && (r.value.isOutlier <==> Abs(r.value.zScore) > zT || r.value.madScore > madT)
  {
    var value := GetNestedValue(reading, param);
    match ToNumber(value)
    case None => None
    case Some(x) =>
      var hv := HistoryValues(hist, param);
      if |hv| < ColdStartLimit then
        var range := ColdRange(reading, param, x);
        var z := ColdZScore(x, range);
        var m := ColdMadScore(x, range);
        Some(ParamScore(value, Some(range), z, m, z > zT || m > madT))
      else
        Some(WarmScore(value, hv + [x], zT, madT, sqrt))
  }

  /**
   * The warm-branch entry: the z-score and the MAD score of the reading,
   * the last value of the sample, and the outlier verdict on them.
   */
  function WarmScore(value: Value, all: seq<real>, zT: real, madT: real, sqrt: real -> real): (r: ParamScore)
    requires IsSqrt(sqrt) && |all| > 0
    ensures r.value == value && r.normalRange.None? && r.madScore >= 0.0
    ensures r.zScore == CalculateZScores(all, sqrt)[|all| - 1] && r.madScore == CalculateMAD(all)[|all| - 1]
    ensures r.isOutlier <==> Abs(r.zScore) > zT || r.madScore > madT
  {
    var zs := CalculateZScores(all, sqrt);
    var ms := CalculateMAD(all);
    var z := zs[|zs| - 1];
    var m := ms[|zs| - 1];
    ParamScore(value, None, z, m, Abs(z) > zT || m > madT)
  }

  /**
   * On cold start a reading inside its range has MAD score 0 and z-score at
   * most 3, and is an outlier only when that z-score exceeds the threshold.
   */
  lemma ColdInRange(reading: Value, param: string, hist: seq<Value>, zT: real, madT: real, sqrt: real -> real)
    requires IsSqrt(sqrt) && madT >= 0.0
    requires ToNumber(GetNestedValue(reading, param)).Some?
    requires |HistoryValues(hist, param)| < ColdStartLimit
    requires var x := ToNumber(GetNestedValue(reading, param)).value;
             var r := ColdRange(reading, param, x);
             r.min < r.max && r.min <= x <= r.max
    ensures var s := ScoreParam(reading, param, hist, zT, madT, sqrt).value;
            s.madScore == 0.0 && s.zScore <= 3.0 && (s.isOutlier <==> s.zScore > zT)
  {
  }

  /** On cold start a reading at the centre of its range scores 0 on both and is no outlier. */
  lemma ColdAtCentre(reading: Value, param: string, hist: seq<Value>, zT: real, madT: real, sqrt: real -> real)
    requires IsSqrt(sqrt) && zT >= 0.0 && madT >= 0.0
    requires ToNumber(GetNestedValue(reading, param)).Some?
    requires |HistoryValues(hist, param)| < ColdStartLimit
    requires var x := ToNumber(GetNestedValue(reading, param)).value;
             var r := ColdRange(reading, param, x);
             x == Centre(r) && r.min <= r.max
    ensures var s := ScoreParam(reading, param, hist, zT, madT, sqrt).value;
            s.zScore == 0.0 && s.madScore == 0.0 && !s.isOutlier
  {
  }

  /**
   * On the warm branch a reading equal to every history value scores 0 on
   * both and is no outlier.
   */
  lemma WarmSteadyReading(reading: Value, param: string, hist: seq<Value>, zT: real, madT: real, sqrt: real -> real)
    requires IsSqrt(sqrt) && zT >= 0.0 && madT >= 0.0
    requires ToNumber(GetNestedValue(reading, param)).Some?
    requires var hv := HistoryValues(hist, param);
             |hv| >= ColdStartLimit &&
             forall i :: 0 <= i < |hv| ==> hv[i] == ToNumber(GetNestedValue(reading, param)).value
    ensures var s := ScoreParam(reading, param, hist, zT, madT, sqrt).value;
            s.zScore == 0.0 && s.madScore == 0.0 && !s.isOutlier
  {
    var x := ToNumber(GetNestedValue(reading, param)).value;
    var all := HistoryValues(hist, param) + [x];
    assert forall i :: 0 <= i < |all| ==> all[i] == x;
    WarmConstant(GetNestedValue(reading, param), all, x, zT, madT, sqrt);
    assert ScoreParam(reading, param, hist, zT, madT, sqrt).value == WarmScore(GetNestedValue(reading, param), all, zT, madT, sqrt);
  }

  /** The warm-branch entry of a constant sample scores 0 on both and is no outlier. */
  lemma WarmConstant(value: Value, all: seq<real>, x: real, zT: real, madT: real, sqrt: real -> real)
    requires IsSqrt(sqrt) && |all| > 0 && zT >= 0.0 && madT >= 0.0
    requires forall i :: 0 <= i < |all| ==> all[i] == x
    ensures var w := WarmScore(value, all, zT, madT, sqrt);
            w.zScore == 0.0 && w.madScore == 0.0 && !w.isOutlier
  {
    ConstantSampleLastScores(all, x, sqrt);
  }

  // ---------------------------------------------------------------------------
  // The scan over the parameters
  // ---------------------------------------------------------------------------

  /**
   * `paramScores`, a JavaScript object: its keys in insertion order and the
   * entry of each key. Assigning an existing key keeps its position.
   */
  datatype Details = Details(order: seq<string>, scores: map<string, ParamScore>)

  ghost predicate WellFormed(d: Details) {
    && (forall k :: k in d.order <==> k in d.scores)
    && (forall i, j :: 0 <= i < j < |d.order| ==> d.order[i] != d.order[j])
  }

  /** `paramScores[k] = v`. */
  function Put(d: Details, k: string, v: ParamScore): (r: Details)
    requires WellFormed(d)
    ensures WellFormed(r)
  {
    if k in d.scores then Details(d.order, d.scores[k := v])
    else Details(d.order + [k], d.scores[k := v])
  }

  /** The loop state: `paramScores`, `maxZScore`, `maxMADScore`, `outlierCount`. */
  datatype Scan = Scan(details: Details, maxZ: real, maxMad: real, outliers: nat)

  const Initial: Scan := Scan(Details([], map[]), 0.0, 0.0, 0)

  /** One iteration of the loop, for a parameter scored as `score`. */
  function Step(s: Scan, param: string, score: Option<ParamScore>): (r: Scan)
    requires WellFormed(s.details)
    ensures WellFormed(r.details)
  {
    match score
    case None => s
    case Some(ps) =>
      Scan(Put(s.details, param, ps),
           Max(s.maxZ, Abs(ps.zScore)),
           Max(s.maxMad, ps.madScore),
           if ps.isOutlier then s.outliers + 1 else s.outliers)
  }

  /** The score of each parameter of one reading, as the loop computes it. */
  function Scorer(reading: Value, hist: seq<Value>, zT: real, madT: real, sqrt: real -> real): string -> Option<ParamScore>
    requires IsSqrt(sqrt)
  {
    p => ScoreParam(reading, p, hist, zT, madT, sqrt)
  }

  /** The loop state after the parameters `params`, in order. */
  function ScanParams(params: seq<string>, score: string -> Option<ParamScore>): (s: Scan)
    ensures WellFormed(s.details)
    ensures s.maxZ >= 0.0 && s.maxMad >= 0.0
    decreases |params|
  {
    if |params| == 0 then Initial
    else
      var p := params[|params| - 1];
      Step(ScanParams(params[..|params| - 1], score), p, score(p))
  }

  /** Every scored parameter has an entry, and the entry is its score. */
  lemma {:induction false} ScanEntries(params: seq<string>, score: string -> Option<ParamScore>)
    ensures var d := ScanParams(params, score).details;
            forall p :: p in d.scores <==> p in params && score(p).Some?
    ensures var d := ScanParams(params, score).details;
            forall p :: p in d.scores ==> Some(d.scores[p]) == score(p)
    decreases |params|
  {
    if |params| > 0 {
      var n := |params| - 1;
      var pre, last := params[..n], params[n];
      ScanEntries(pre, score);
      assert forall p :: p in params <==> p in pre || p == last by {
        assert params == pre + [last];
      }
      assert ScanParams(params, score) == Step(ScanParams(pre, score), last, score(last));
    }
  }

  /** A parameter of `params` that is scored, not skipped. */
  predicate Scored(p: string, params: seq<string>, score: string -> Option<ParamScore>) {
    p in params && score(p).Some?
  }

  /**
   * `maxZScore` is the largest `|z|` of a scored parameter and `maxMADScore`
   * the largest MAD score, each starting from 0.
   */
  lemma {:induction false} ScanMaxima(params: seq<string>, score: string -> Option<ParamScore>)
    ensures var s := ScanParams(params, score);
            forall p :: Scored(p, params, score) ==>
              Abs(score(p).value.zScore) <= s.maxZ && score(p).value.madScore <= s.maxMad
    ensures var s := ScanParams(params, score);
            s.maxZ == 0.0 || (exists p :: Scored(p, params, score) && Abs(score(p).value.zScore) == s.maxZ)
    ensures var s := ScanParams(params, score);
            s.maxMad == 0.0 || (exists p :: Scored(p, params, score) && score(p).value.madScore == s.maxMad)
    decreases |params|
  {
    if |params| > 0 {
      var n := |params| - 1;
      ScanMaxima(params[..n], score);
      assert forall p :: p in params <==> p in params[..n] || p == params[n] by {
        assert params == params[..n] + [params[n]];
      }
    }
  }

  // ---------------------------------------------------------------------------
  // The flagged parameters
  // ---------------------------------------------------------------------------

  /** `Object.keys(paramScores).filter(param => paramScores[param].isOutlier)`. */
  function FlaggedKeys(order: seq<string>, scores: map<string, ParamScore>): seq<string>
    decreases |order|
  {
    if |order| == 0 then []
    else
      var p := order[|order| - 1];
      var prev := FlaggedKeys(order[..|order| - 1], scores);
      if p in scores && scores[p].isOutlier then prev + [p] else prev
  }

  predicate IsFlagged(p: string, score: string -> Option<ParamScore>) {
    score(p).Some? && score(p).value.isOutlier
  }

  /**
   * The reference list of flagged parameters: each parameter whose score
   * flags it, once, at its first position in `params`.
   */
  function FlaggedRef(params: seq<string>, score: string -> Option<ParamScore>): (r: seq<string>)
    ensures forall p :: p in r <==> p in params && IsFlagged(p, score)
    ensures forall i, j :: 0 <= i < j < |r| ==> r[i] != r[j]
    decreases |params|
  {
    if |params| == 0 then []
    else
      var n := |params| - 1;
      var p := params[n];
      var prev := FlaggedRef(params[..n], score);
      assert forall q :: q in params <==> q in params[..n] || q == p by {
        assert params == params[..n] + [p];
      }
      if IsFlagged(p, score) && p !in prev then prev + [p] else prev
  }

  lemma {:induction false} FlaggedKeysFrame(order: seq<string>, s1: map<string, ParamScore>, s2: map<string, ParamScore>)
    requires forall k :: k in order ==> k in s1 && k in s2 && s1[k] == s2[k]
    ensures FlaggedKeys(order, s1) == FlaggedKeys(order, s2)
    decreases |order|
  {
    if |order| > 0 {
      FlaggedKeysFrame(order[..|order| - 1], s1, s2);
    }
  }

  lemma {:induction false} FlaggedKeysMembers(order: seq<string>, scores: map<string, ParamScore>)
    requires forall k :: k in order ==> k in scores
    ensures forall p :: p in FlaggedKeys(order, scores) <==> p in order && p in scores && scores[p].isOutlier
    decreases |order|
  {
    if |order| > 0 {
      var n := |order| - 1;
      FlaggedKeysMembers(order[..n], scores);
      assert forall q :: q in order <==> q in order[..n] || q == order[n] by {
        assert order == order[..n] + [order[n]];
      }
    }
  }

  /**
   * Filtering the keys of `paramScores` gives the reference list: the
   * overwrite of a repeated parameter changes neither its position nor its
   * entry.
   */
  lemma {:induction false} ScanFlagged(params: seq<string>, score: string -> Option<ParamScore>)
    ensures var d := ScanParams(params, score).details;
            FlaggedKeys(d.order, d.scores) == FlaggedRef(params, score)
    decreases |params|
  {
    if |params| > 0 {
      var n := |params| - 1;
      var p := params[n];
      var pre := params[..n];
      var s := ScanParams(pre, score);
      var prev := FlaggedRef(pre, score);
      var d := Step(s, p, score(p)).details;
      assert FlaggedKeys(d.order, d.scores) == if IsFlagged(p, score) && p !in prev then prev + [p] else prev by {
        ScanFlagged(pre, score);
        ScanEntries(pre, score);
        FlaggedStep(s, p, score, prev);
      }
    }
  }

  /** One iteration extends the filtered keys as the reference list is extended. */
  lemma FlaggedStep(s: Scan, p: string, score: string -> Option<ParamScore>, prev: seq<string>)
    requires WellFormed(s.details)
    requires forall q :: q in s.details.scores ==> Some(s.details.scores[q]) == score(q)
    requires FlaggedKeys(s.details.order, s.details.scores) == prev
    ensures var d := Step(s, p, score(p)).details;
            FlaggedKeys(d.order, d.scores) == if IsFlagged(p, score) && p !in prev then prev + [p] else prev
  {
    var d := s.details;
    FlaggedKeysMembers(d.order, d.scores);
    match score(p) {
      case None =>
      case Some(v) =>
        if p in d.scores {
          PutSame(d, p, v);
        } else {
          PutNewKey(d, p, v);
        }
    }
  }

  /** Re-assigning a key its own entry changes nothing. */
  lemma PutSame(d: Details, p: string, v: ParamScore)
    requires WellFormed(d) && p in d.scores && d.scores[p] == v
    ensures Put(d, p, v) == d
  {
    UpdateSame(d.scores, p, v);
  }

  lemma UpdateSame<K, V>(m: map<K, V>, k: K, v: V)
    requires k in m && m[k] == v
    ensures m[k := v] == m
  {
  }

  /** A new key goes last, and is listed when its entry flags it. */
  lemma PutNewKey(d: Details, p: string, v: ParamScore)
    requires WellFormed(d) && p !in d.scores
    ensures var d2 := Put(d, p, v);
            FlaggedKeys(d2.order, d2.scores) == FlaggedKeys(d.order, d.scores) + (if v.isOutlier then [p] else [])
  {
    var d2 := Put(d, p, v);
    FlaggedKeysFrame(d.order, d.scores, d2.scores);
    assert d2.order[..|d2.order| - 1] == d.order;
  }

  /** With distinct parameters, `outlierCount` is the number of flagged parameters. */
  lemma {:induction false} OutlierCount(params: seq<string>, score: string -> Option<ParamScore>)
    requires forall i, j :: 0 <= i < j < |params| ==> params[i] != params[j]
    ensures ScanParams(params, score).outliers == |FlaggedRef(params, score)|
    decreases |params|
  {
    if |params| > 0 {
      var n := |params| - 1;
      OutlierCount(params[..n], score);
      assert params[n] !in params[..n];
    }
  }
  // ---------------------------------------------------------------------------
  // The verdict
  // ---------------------------------------------------------------------------

  datatype AnomalyResult = AnomalyResult(
    isAnomaly: bool,
    anomalyScore: real,
    anomalyParameters: seq<string>,
    methodName: string,
    details: Details)

  /** The result returned for a missing, non-object or empty reading. */
  const DefaultResult: AnomalyResult := AnomalyResult(false, 0.0, [], "", Details([], map[]))

  /** At least this many flagged parameters make an anomaly. */
  const MinAnomalousParameters: nat := 3

  function Verdict(s: Scan, zT: real, madT: real): AnomalyResult
    requires WellFormed(s.details) && zT != 0.0 && madT != 0.0
  {
    var anomalous := FlaggedKeys(s.details.order, s.details.scores);
    var zNormalized := Min(s.maxZ / (zT * 4.0), 1.0);
    var madNormalized := Min(s.maxMad / (madT * 4.0), 1.0);
    AnomalyResult(
      |anomalous| >= MinAnomalousParameters,
      (zNormalized + madNormalized) / 2.0,
      anomalous,
      if s.maxZ > s.maxMad then "Z-Score" else "MAD",
      s.details)
  }

  /** `typeof v === 'object'`. */
  predicate IsObjectType(v: Value) {
    v.Obj? || v.Arr? || v.Null? || v.Time?
  }

  /** A reading the detector examines: an object or array with at least one key. */
  predicate Examined(reading: Value) {
    Truthy(reading) && IsObjectType(reading) && KeyCount(reading) > 0
  }

  /** The caller's parameters, or the default list when there are none. */
  function ParametersOf(sensitive: seq<string>): seq<string> {
    if |sensitive| > 0 then sensitive else CriticalParameters
  }

  /** `detectAnomalies(reading, sensitive, hist, zT, madT)`. */
  function Detect(reading: Value, sensitive: seq<string>, hist: seq<Value>, zT: real, madT: real, sqrt: real -> real): AnomalyResult
    requires IsSqrt(sqrt) && zT != 0.0 && madT != 0.0
  {
    if !Examined(reading) then DefaultResult
    else Verdict(ScanParams(ParametersOf(sensitive), Scorer(reading, hist, zT, madT, sqrt)), zT, madT)
  }

  /**
   * The default result comes back exactly for a reading that is not an
   * object or array with at least one key.
   */
  lemma DefaultExactlyForEmpty(reading: Value, sensitive: seq<string>, hist: seq<Value>, zT: real, madT: real, sqrt: real -> real)
    requires IsSqrt(sqrt) && zT != 0.0 && madT != 0.0
    ensures Detect(reading, sensitive, hist, zT, madT, sqrt) == DefaultResult <==>
            !((reading.Obj? && |reading.fields| > 0) || (reading.Arr? && |reading.elems| > 0))
  {
  }

  /**
   * `anomalyParameters` lists each flagged parameter once, in parameter
   * order, and nothing else; `isAnomaly` holds iff at least three are
   * flagged.
   */
  lemma DetectFlagged(reading: Value, sensitive: seq<string>, hist: seq<Value>, zT: real, madT: real, sqrt: real -> real)
    requires IsSqrt(sqrt) && zT != 0.0 && madT != 0.0
    ensures var r := Detect(reading, sensitive, hist, zT, madT, sqrt);
            var flagged := if Examined(reading) then FlaggedRef(ParametersOf(sensitive), Scorer(reading, hist, zT, madT, sqrt)) else [];
            r.anomalyParameters == flagged && (r.isAnomaly <==> |flagged| >= 3)
  {
    if Examined(reading) {
      ScanFlagged(ParametersOf(sensitive), Scorer(reading, hist, zT, madT, sqrt));
    }
  }

  /**
   * For an examined reading the method is 'Z-Score' exactly when some
   * scored parameter has a non-zero `|z|` above every MAD score, and 'MAD'
   * otherwise.
   */
  lemma DetectMethod(reading: Value, sensitive: seq<string>, hist: seq<Value>, zT: real, madT: real, sqrt: real -> real)
    requires IsSqrt(sqrt) && zT != 0.0 && madT != 0.0 && Examined(reading)
    ensures var r := Detect(reading, sensitive, hist, zT, madT, sqrt);
            var params := ParametersOf(sensitive);
            var score := Scorer(reading, hist, zT, madT, sqrt);
            (r.methodName == "Z-Score" <==>
              exists p :: Scored(p, params, score) && Abs(score(p).value.zScore) > 0.0 &&
                forall q :: Scored(q, params, score) ==> Abs(score(p).value.zScore) > score(q).value.madScore)
            && (r.methodName != "Z-Score" ==> r.methodName == "MAD")
  {
    ScanMaxima(ParametersOf(sensitive), Scorer(reading, hist, zT, madT, sqrt));
  }

  /** With positive thresholds the anomaly score lies in [0, 1]. */
  lemma DetectScoreBounds(reading: Value, sensitive: seq<string>, hist: seq<Value>, zT: real, madT: real, sqrt: real -> real)
    requires IsSqrt(sqrt) && zT > 0.0 && madT > 0.0
    ensures 0.0 <= Detect(reading, sensitive, hist, zT, madT, sqrt).anomalyScore <= 1.0
  {
    if Examined(reading) {
      var s := ScanParams(ParametersOf(sensitive), Scorer(reading, hist, zT, madT, sqrt));
      NormalizedBounds(s.maxZ, zT);
      NormalizedBounds(s.maxMad, madT);
    }
  }

  /** `Math.min(m / (t * 4), 1)` lies in [0, 1] for `m >= 0` and `t > 0`. */
  lemma NormalizedBounds(m: real, t: real)
    requires m >= 0.0 && t > 0.0
    ensures 0.0 <= Min(m / (t * 4.0), 1.0) <= 1.0
  {
    var b := t * 4.0;
    assert b > 0.0;
    assert m / b >= 0.0;
  }

  /**
   * The loop of `detectAnomalies` over the parameters: each scored parameter
   * updates `paramScores`, the outlier count and the running maxima.
   */
  method ScanLoop(parameters: seq<string>, score: string -> Option<ParamScore>) returns (s: Scan)
    ensures s == ScanParams(parameters, score)
  {
    var paramScores := Details([], map[]);
    var maxZScore := 0.0;
    var maxMADScore := 0.0;
    var outlierCount := 0;
    var i := 0;
    while i < |parameters|
      invariant 0 <= i <= |parameters|
      invariant Scan(paramScores, maxZScore, maxMADScore, outlierCount) == ScanParams(parameters[..i], score)
    {
      var param := parameters[i];
      assert parameters[..i + 1][..i] == parameters[..i];
      var result := score(param);
      if result.Some? {
        var entry := result.value;
        paramScores := Put(paramScores, param, entry);
        if entry.isOutlier {
          outlierCount := outlierCount + 1;
        }
        maxZScore := Max(maxZScore, Abs(entry.zScore));
        maxMADScore := Max(maxMADScore, entry.madScore);
      }
      i := i + 1;
    }
    assert parameters[..i] == parameters;
    s := Scan(paramScores, maxZScore, maxMADScore, outlierCount);
  }

  /** `detectAnomalies`: the guard, the parameter loop, then the verdict. */
  method DetectAnomalies(reading: Value, sensitive: seq<string>, hist: seq<Value>, zT: real, madT: real, sqrt: real -> real)
    returns (results: AnomalyResult)
    requires IsSqrt(sqrt) && zT != 0.0 && madT != 0.0
    ensures results == Detect(reading, sensitive, hist, zT, madT, sqrt)
  {
    if !Truthy(reading) || !IsObjectType(reading) || KeyCount(reading) == 0 {
      return DefaultResult;
    }
    var parameters := ParametersOf(sensitive);
    var s := ScanLoop(parameters, Scorer(reading, hist, zT, madT, sqrt));
    results := Verdict(s, zT, madT);
  }

  // ---------------------------------------------------------------------------
  // The batch driver
  // ---------------------------------------------------------------------------

  /** The fields the batch driver writes on every record. */
  const AnnotationKeys: set<string> := {"anomaly_score", "is_anomaly", "anomaly_parameters", "anomaly_method"}

  /** `{...base, anomaly_score, is_anomaly, anomaly_parameters, anomaly_method}`. */
  function WithAnnotation(base: map<string, Value>, score: real, isAnomaly: bool, params: seq<string>, tag: string): (r: Value)
    ensures r.Obj? && r.fields.Keys == base.Keys + AnnotationKeys
    ensures forall k :: k in base && k !in AnnotationKeys ==> r.fields[k] == base[k]
    ensures r.fields["anomaly_score"] == Num(score) && r.fields["is_anomaly"] == Bool(isAnomaly)
    ensures r.fields["anomaly_parameters"] == StrArray(params) && r.fields["anomaly_method"] == Str(tag)
  {
    Obj(base["anomaly_score" := Num(score)]["is_anomaly" := Bool(isAnomaly)]
            ["anomaly_parameters" := StrArray(params)]["anomaly_method" := Str(tag)])
  }

  /** The zero annotation: score 0, not an anomaly, no parameters, method 'none'. */
  function ZeroAnnotated(d: Value): Value {
    WithAnnotation(Spread(d), 0.0, false, [], "none")
  }

  /** A record annotated with a detector result (`method || 'none'`). */
  function Annotated(d: Value, r: AnomalyResult): Value {
    WithAnnotation(Spread(d), r.anomalyScore, r.isAnomaly, r.anomalyParameters, if r.methodName != "" then r.methodName else "none")
  }

  /** The validation map: an implausible record gets the zero annotation. */
  function Validate(d: Value): Value {
    if Plausible(d) then d else ZeroAnnotated(d)
  }

  /** The detector the result loop calls, with window and thresholds fixed. */
  function Detector(hist: seq<Value>, zT: real, madT: real, sqrt: real -> real): Value -> AnomalyResult
    requires IsSqrt(sqrt) && zT != 0.0 && madT != 0.0
  {
    d => Detect(d, CriticalParameters, hist, zT, madT, sqrt)
  }

  /** Every output record carries an `anomaly_score` other than undefined. */
  predicate Annotation(o: Value) {
    Get(o, "anomaly_score").Some? && Get(o, "anomaly_score").value != Undef
  }

  /**
   * One iteration of the result loop on a validated record: a record with
   * an `anomaly_score` goes through unchanged; reading a property of
   * `undefined`/`null` or a non-object record throws, and the catch gives
   * the zero annotation; otherwise the detector's result is written on it.
   */
  function Annotate(data: Value, detect: Value -> AnomalyResult): (o: Value)
    ensures Annotation(o)
    ensures Annotation(data) ==> o == data
  {
    match Get(data, "anomaly_score")
    case None => ZeroAnnotated(data)
    case Some(s) =>
      if s != Undef then data
      else if !Truthy(data) || !IsObjectType(data) then ZeroAnnotated(data)
      else Annotated(data, detect(data))
  }

  /** The validation map followed by the result loop. */
  function AnnotateAll(es: seq<Value>, detect: Value -> AnomalyResult): (r: seq<Value>)
    ensures |r| == |es| && forall i :: 0 <= i < |r| ==> Annotation(r[i])
  {
    seq(|es|, i requires 0 <= i < |es| => Annotate(Validate(es[i]), detect))
  }

  /** Default thresholds, kept unless the history is long enough. */
  const DefaultZThreshold: real := 3.0
  const DefaultMadThreshold: real := 3.5
  const MaxMadThreshold: real := 10.0
  const AdaptiveMinimum: nat := 20

  /**
   * The adaptive thresholds: with at least 20 history records, the 95th
   * percentiles of the z-scores and MAD scores of their throughputs, raised
   * to the defaults, the MAD threshold capped at 10.
   */
  function Thresholds(hist: seq<Value>, sqrt: real -> real): (t: (real, real))
    requires IsSqrt(sqrt)
    ensures t.0 >= DefaultZThreshold && DefaultMadThreshold <= t.1 <= MaxMadThreshold
    ensures |hist| < AdaptiveMinimum ==> t == (DefaultZThreshold, DefaultMadThreshold)
  {
    if |hist| < AdaptiveMinimum then (DefaultZThreshold, DefaultMadThreshold)
    else
      var sample := HistoryValues(hist, CriticalParameters[0]);
      if |sample| == 0 then (DefaultZThreshold, DefaultMadThreshold)
      else
        var validZ := Numbers(NumArray(CalculateZScores(sample, sqrt)).elems);
        var validMad := Numbers(NumArray(CalculateMAD(sample)).elems);
        if |validZ| > 0 && |validMad| > 0 then
          (Max(DefaultZThreshold, PercentileOf(NumArray(validZ), 95.0)),
           Min(Max(DefaultMadThreshold, PercentileOf(NumArray(validMad), 95.0)), MaxMadThreshold))
        else (DefaultZThreshold, DefaultMadThreshold)
  }

  /**
   * An adaptive threshold is its default or a score of the throughput
   * sample (the MAD threshold may also be its cap).
   */
  lemma ThresholdsFromSample(hist: seq<Value>, sqrt: real -> real)
    requires IsSqrt(sqrt)
    ensures var t := Thresholds(hist, sqrt);
            var sample := HistoryValues(hist, TotalOutput);
            (t.0 == DefaultZThreshold || t.0 in CalculateZScores(sample, sqrt)) &&
            (t.1 == DefaultMadThreshold || t.1 == MaxMadThreshold || t.1 in CalculateMAD(sample))
  {
    var sample := HistoryValues(hist, TotalOutput);
    if |hist| >= AdaptiveMinimum && |sample| > 0 {
      var zs := CalculateZScores(sample, sqrt);
      var ms := CalculateMAD(sample);
      NumbersOfNumArray(zs);
      NumbersOfNumArray(ms);
      PercentileIsSampleMember(NumArray(zs), 95.0);
      PercentileIsSampleMember(NumArray(ms), 95.0);
      assert forall x :: Num(x) in NumArray(zs).elems ==> x in zs;
      assert forall x :: Num(x) in NumArray(ms).elems ==> x in ms;
    }
  }

  /** `Math.percentile(validZScores, 95)` and the threshold adjustments. */
  method AdaptiveThresholds(hist: seq<Value>, sqrt: real -> real) returns (zThreshold: real, madThreshold: real)
    requires IsSqrt(sqrt)
    ensures (zThreshold, madThreshold) == Thresholds(hist, sqrt)
  {
    zThreshold := DefaultZThreshold;
    madThreshold := DefaultMadThreshold;
    if |hist| >= AdaptiveMinimum {
      var sample := HistoryValues(hist, CriticalParameters[0]);
      if |sample| > 0 {
        var validZ := Numbers(NumArray(CalculateZScores(sample, sqrt)).elems);
        var validMad := Numbers(NumArray(CalculateMAD(sample)).elems);
        if |validZ| > 0 && |validMad| > 0 {
          var pz := Percentile(NumArray(validZ), 95.0);
          var pm := Percentile(NumArray(validMad), 95.0);
          zThreshold := Max(DefaultZThreshold, pz);
          madThreshold := Max(DefaultMadThreshold, pm);
          madThreshold := Min(madThreshold, MaxMadThreshold);
        }
      }
    }
  }

  /**
   * `processBatch(batch, processed)` with the database records `db`: `[]`
   * for a non-array; `Err` when a timestamp key throws; otherwise one
   * record per input, in order.
   */
  function ProcessBatchSpec(batch: Value, db: seq<Value>, processed: seq<Value>, sqrt: real -> real): (r: Result<seq<Value>>)
    requires IsSqrt(sqrt)
    ensures !batch.Arr? ==> r == Ok([])
    ensures batch.Arr? && r.Ok? ==> |r.value| == |batch.elems| && forall i :: 0 <= i < |r.value| ==> Annotation(r.value[i])
    ensures batch.Arr? ==> (r.Err? <==> MergeHistory(db, processed).Err?)
  {
    if !batch.Arr? then Ok([])
    else
      match MergeHistory(db, processed)
      case Err(e) => Err(e)
      case Ok(hist) =>
        var t := Thresholds(hist, sqrt);
        Ok(AnnotateAll(batch.elems, Detector(hist, t.0, t.1, sqrt)))
  }

  // ---------------------------------------------------------------------------
  // Properties of the result loop
  // ---------------------------------------------------------------------------

  /** A plausible record is an object with at least one key, so it is examined. */
  lemma PlausibleExamined(d: Value)
    requires Plausible(d)
    ensures Examined(d)
  {
    PlausibleIsObject(d);
  }

  /** An examined reading is judged by 'Z-Score' or by 'MAD'. */
  lemma DetectNamesMethod(reading: Value, sensitive: seq<string>, hist: seq<Value>, zT: real, madT: real, sqrt: real -> real)
    requires IsSqrt(sqrt) && zT != 0.0 && madT != 0.0 && Examined(reading)
    ensures var m := Detect(reading, sensitive, hist, zT, madT, sqrt).methodName;
            m == "Z-Score" || m == "MAD"
  {
  }

  /**
   * The three outcomes for one record: the zero annotation for an
   * implausible one, the record itself when it is already annotated, and
   * the detector's verdict written on it otherwise.
   */
  lemma AnnotateCases(d: Value, detect: Value -> AnomalyResult)
    ensures var o := Annotate(Validate(d), detect);
            && (!Plausible(d) ==> o == ZeroAnnotated(d))
            && (Plausible(d) && Annotation(d) ==> o == d)
            && (Plausible(d) && !Annotation(d) ==> o == Annotated(d, detect(d)))
  {
    if Plausible(d) {
      PlausibleExamined(d);
    }
  }

  /** Writing a verdict on an object keeps its other fields. */
  lemma AnnotatedKeepsFields(d: Value, r: AnomalyResult, k: string)
    requires d.Obj? && k in d.fields && k !in AnnotationKeys
    ensures var o := Annotated(d, r);
            o.Obj? && k in o.fields && o.fields[k] == d.fields[k]
  {
  }

  lemma ThroughputNotAnnotation()
    ensures TotalOutput !in AnnotationKeys
  {
    assert TotalOutput[0] == 't';
  }

  /** A verdict written on a plausible record leaves `total_output` alone. */
  lemma AnnotatedPlausible(d: Value, r: AnomalyResult)
    requires Plausible(d)
    ensures Plausible(Annotated(d, r))
  {
    PlausibleIsObject(d);
    ThroughputNotAnnotation();
    AnnotatedKeepsFields(d, r, TotalOutput);
    PlausibleByField(d, Annotated(d, r));
  }

  /** The result loop keeps a plausible record plausible. */
  lemma AnnotateKeepsPlausible(d: Value, detect: Value -> AnomalyResult)
    requires Plausible(d)
    ensures Plausible(Annotate(d, detect))
  {
    if !Annotation(d) {
      PlausibleExamined(d);
      AnnotatedPlausible(d, detect(d));
    }
  }

  /** The zero annotation of a zero-annotated record is that record. */
  lemma ZeroTwice(d: Value)
    ensures ZeroAnnotated(ZeroAnnotated(d)) == ZeroAnnotated(d)
  {
    var z := ZeroAnnotated(d);
    assert ZeroAnnotated(z).fields == z.fields;
  }

  /** The zero annotation is a fixed point of validation and the result loop. */
  lemma ZeroStable(d: Value, detect: Value -> AnomalyResult)
    ensures var z := ZeroAnnotated(d);
            Annotate(Validate(z), detect) == z
  {
    var z := ZeroAnnotated(d);
    ZeroTwice(d);
    assert Validate(z) == z;
    assert Annotation(z);
  }

  /** Annotating an already annotated record changes nothing. */
  lemma AnnotateIdempotent(d: Value, detect: Value -> AnomalyResult, detect2: Value -> AnomalyResult)
    ensures var o := Annotate(Validate(d), detect);
            Annotate(Validate(o), detect2) == o
  {
    if Plausible(d) {
      AnnotateKeepsPlausible(d, detect);
    } else {
      ZeroStable(d, detect2);
    }
  }

  /**
   * What happens to each record: an implausible one gets the zero
   * annotation; a plausible one that already has an `anomaly_score` goes
   * through unchanged; any other plausible one keeps its fields and gains
   * the detector's verdict, with method 'Z-Score' or 'MAD', computed with
   * the critical parameters, the history window and the thresholds.
   */
  lemma ProcessBatchRecord(batch: Value, db: seq<Value>, processed: seq<Value>, sqrt: real -> real, i: nat)
    requires IsSqrt(sqrt) && batch.Arr? && i < |batch.elems|
    requires ProcessBatchSpec(batch, db, processed, sqrt).Ok?
    ensures var d := batch.elems[i];
            var o := ProcessBatchSpec(batch, db, processed, sqrt).value[i];
            var hist := MergeHistory(db, processed).value;
            var t := Thresholds(hist, sqrt);
            && (!Plausible(d) ==> o == ZeroAnnotated(d))
            && (Plausible(d) && Annotation(d) ==> o == d)
            && (Plausible(d) && !Annotation(d) ==>
                  var r := Detect(d, CriticalParameters, hist, t.0, t.1, sqrt);
                  o == Annotated(d, r) && (r.methodName == "Z-Score" || r.methodName == "MAD"))
  {
    var d := batch.elems[i];
    var hist := MergeHistory(db, processed).value;
    var t := Thresholds(hist, sqrt);
    AnnotateCases(d, Detector(hist, t.0, t.1, sqrt));
    if Plausible(d) {
      PlausibleExamined(d);
      DetectNamesMethod(d, CriticalParameters, hist, t.0, t.1, sqrt);
    }
  }

  /** Running the batch driver on its own output gives that output back. */
  lemma ProcessBatchIdempotent(batch: Value, db: seq<Value>, processed: seq<Value>, db2: seq<Value>, processed2: seq<Value>, sqrt: real -> real)
    requires IsSqrt(sqrt) && batch.Arr?
    requires ProcessBatchSpec(batch, db, processed, sqrt).Ok?
    requires MergeHistory(db2, processed2).Ok?
    ensures var out := ProcessBatchSpec(batch, db, processed, sqrt).value;
            ProcessBatchSpec(Arr(out), db2, processed2, sqrt) == Ok(out)
  {
    var hist := MergeHistory(db, processed).value;
    var t := Thresholds(hist, sqrt);
    var hist2 := MergeHistory(db2, processed2).value;
    var t2 := Thresholds(hist2, sqrt);
    AnnotateAllIdempotent(batch.elems, Detector(hist, t.0, t.1, sqrt), Detector(hist2, t2.0, t2.1, sqrt));
  }

  lemma AnnotateAllIdempotent(es: seq<Value>, detect: Value -> AnomalyResult, detect2: Value -> AnomalyResult)
    ensures AnnotateAll(AnnotateAll(es, detect), detect2) == AnnotateAll(es, detect)
  {
    var out := AnnotateAll(es, detect);
    forall i | 0 <= i < |out| ensures AnnotateAll(out, detect2)[i] == out[i] {
      AnnotateIdempotent(es[i], detect, detect2);
    }
  }

  /**
   * The result loop of `processBatch` over the validated records, with the
   * window and thresholds fixed.
   */
  method ResultLoop(validated: seq<Value>, hist: seq<Value>, zThreshold: real, madThreshold: real, sqrt: real -> real)
    returns (results: seq<Value>)
    requires IsSqrt(sqrt) && zThreshold != 0.0 && madThreshold != 0.0
    ensures |results| == |validated|
    ensures forall k :: 0 <= k < |validated| ==>
              results[k] == Annotate(validated[k], Detector(hist, zThreshold, madThreshold, sqrt))
  {
    ghost var detect := Detector(hist, zThreshold, madThreshold, sqrt);
    results := [];
    var i := 0;
    while i < |validated|
      invariant 0 <= i <= |validated|
      invariant |results| == i
      invariant forall k :: 0 <= k < i ==> results[k] == Annotate(validated[k], detect)
    {
      var data := validated[i];
      var out: Value;
      match Get(data, "anomaly_score") {
        case None =>
          out := ZeroAnnotated(data);
        case Some(s) =>
          if s != Undef {
            out := data;
          } else if !Truthy(data) || !IsObjectType(data) {
            out := ZeroAnnotated(data);
          } else {
            var res := DetectAnomalies(data, CriticalParameters, hist, zThreshold, madThreshold, sqrt);
            out := Annotated(data, res);
          }
      }
      assert out == Annotate(data, detect);
      results := results + [out];
      i := i + 1;
    }
  }

  /**
   * `processBatch`: the validation map, the history window, the adaptive
   * thresholds, then the result loop.
   */
  method ProcessBatch(batch: Value, db: seq<Value>, processed: seq<Value>, sqrt: real -> real)
    returns (r: Result<seq<Value>>)
    requires IsSqrt(sqrt)
    ensures r == ProcessBatchSpec(batch, db, processed, sqrt)
  {
    if !batch.Arr? {
      return Ok([]);
    }
    var es := batch.elems;
    var validated := seq(|es|, i requires 0 <= i < |es| => Validate(es[i]));
    var merged := MergeHistory(db, processed);
    if merged.Err? {
      return Err(merged.message);
    }
    var hist := merged.value;
    var zThreshold, madThreshold := AdaptiveThresholds(hist, sqrt);
    var results := ResultLoop(validated, hist, zThreshold, madThreshold, sqrt);
    assert results == AnnotateAll(es, Detector(hist, zThreshold, madThreshold, sqrt));
    r := Ok(results);
  }
}
