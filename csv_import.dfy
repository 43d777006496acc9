/**
 * The CSV importer: the reformatting of the line's "D.M.YYYY H:MM" dates,
 * the mapping of a CSV row onto a sensor-data document (with its derived
 * efficiency and its demo quality, anomaly and maintenance fields), and the
 * import loop that maps the rows in slices of 100 and drops the documents
 * without a timestamp.
 *
 * `parseFloat`, the validity of a constructed ISO date, `Math.random` and
 * the clock are parameters (`Env`).
 */
module CsvImport {
  import opened Wrappers
  import opened Strings
  import opened Values
  import opened Stats

  /** The row's two random draws: the anomaly noise and the maintenance days, each in [0, 1). */
  datatype Draws = Draws(anomaly: real, maintenance: real)

  /**
   * The environment of a row: `parseFloat` on a string (`None` is NaN), the
   * instant `new Date(iso)` names (`None` when it is invalid), the draws of
   * the row at a position in the file, and `new Date()`.
   */
  datatype Env = Env(parseFloat: string -> Option<real>, dateOf: string -> Option<int>, random: nat -> Draws, now: int)

  // ---------------------------------------------------------------------------
  // parseCustomDate
  // ---------------------------------------------------------------------------

  /** `H:MM` with a one-digit hour gains a leading zero; any other time is kept. */
  function FormatTime(t: string): (r: string)
    ensures r == t || r == "0" + t
    ensures r == "0" + t <==> |Split(t, ':')| == 2 && |Split(t, ':')[0]| == 1
  {
    var hm := Split(t, ':');
    if |hm| == 2 && |hm[0]| == 1 then
      SplitJoin(t, ':');
      assert Join(hm, ':') == hm[0] + [':'] + hm[1];
      "0" + hm[0] + ":" + hm[1]
    else t
  }

  /** The first `n` pieces are present and non-empty (`!a || !b || ...` fails). */
  predicate Pieces(parts: seq<string>, n: nat) {
    |parts| >= n && forall i :: 0 <= i < n ==> parts[i] != ""
  }

  /**
   * The ISO string `parseCustomDate` builds, `YYYY-MM-DDT<time>:00`, from
   * `"D.M.YYYY H:MM"`; `None` is the early `null` (falsy input, a missing
   * date or time part, a missing day, month or year) and the `null` the
   * `catch` returns when the input is not a string.
   */
  function IsoDateString(dateStr: Value): (r: Option<string>)
    ensures !dateStr.Str? || dateStr.s == "" ==> r.None?
    ensures dateStr.Str? && Free(dateStr.s, {' '}) ==> r.None?
    ensures dateStr.Str? && Free(dateStr.s, {'.'}) ==> r.None?
    ensures dateStr.Str? ==>
      (r.Some? <==> Pieces(Split(dateStr.s, ' '), 2) && Pieces(Split(Split(dateStr.s, ' ')[0], '.'), 3))
  {
    if !dateStr.Str? then None
    else
      var parts := Split(dateStr.s, ' ');
      assert Free(dateStr.s, {' '}) ==> parts == [dateStr.s] by {
        if Free(dateStr.s, {' '}) { SplitOnFree(dateStr.s, {' '}); }
      }
      assert Free(dateStr.s, {'.'}) && |parts| >= 1 ==> Split(parts[0], '.') == [parts[0]] by {
        if Free(dateStr.s, {'.'}) && |parts| >= 1 {
          SplitOnKeepsFree(dateStr.s, {' '}, {'.'});
          SplitOnFree(parts[0], {'.'});
        }
      }
      if !Pieces(parts, 2) then None
      else
        var dmy := Split(parts[0], '.');
        if !Pieces(dmy, 3) then None
        else
          var day, month, year := dmy[0], dmy[1], dmy[2];
          Some(year + "-" + PadStart2(month) + "-" + PadStart2(day) + "T" + FormatTime(parts[1]) + ":00")
  }

  /** `parseCustomDate`: the instant of the ISO string, `None` for `null`. */
  function ParseCustomDate(dateStr: Value, dateOf: string -> Option<int>): (r: Option<int>)
    ensures IsoDateString(dateStr).None? ==> r.None?
    ensures IsoDateString(dateStr).Some? ==> r == dateOf(IsoDateString(dateStr).value)
  {
    match IsoDateString(dateStr)
    case None => None
    case Some(iso) => dateOf(iso)
  }

  lemma FreeAppend(a: string, b: string, seps: set<char>)
    requires Free(a, seps) && Free(b, seps)
    ensures Free(a + b, seps)
  {
    assert forall i :: 0 <= i < |a + b| ==> (a + b)[i] == if i < |a| then a[i] else b[i - |a|];
  }

  /** Three separator-free pieces joined by dots split back into those pieces. */
  lemma DottedSplit(day: string, month: string, year: string)
    requires Free(day, {'.'}) && Free(month, {'.'}) && Free(year, {'.'})
    ensures Split(day + "." + month + "." + year, '.') == [day, month, year]
  {
    SplitOnFree(year, {'.'});
    SplitOnFirst(month, '.', year, {'.'});
    assert day + "." + month + "." + year == day + ['.'] + (month + ['.'] + year);
    SplitOnFirst(day, '.', month + ['.'] + year, {'.'});
  }

  /** Two space-free pieces joined by a space split back into those pieces. */
  lemma SpacedSplit(date: string, time: string)
    requires Free(date, {' '}) && Free(time, {' '})
    ensures Split(date + " " + time, ' ') == [date, time]
  {
    SplitOnFree(time, {' '});
    SplitOnFirst(date, ' ', time, {' '});
  }

  /** The ISO string of a value whose pieces are known. */
  lemma IsoDateOfSplit(s: string, date: string, time: string, day: string, month: string, year: string)
    requires Split(s, ' ') == [date, time] && Split(date, '.') == [day, month, year]
    requires date != "" && time != "" && day != "" && month != "" && year != ""
    ensures IsoDateString(Str(s)) == Some(year + "-" + PadStart2(month) + "-" + PadStart2(day) + "T" + FormatTime(time) + ":00")
  {
  }

  /**
   * A day, a month and a year joined by dots, a space and a time: the ISO
   * string is the year, the padded month, the padded day and the time.
   */
  lemma IsoDateOfParts(day: string, month: string, year: string, time: string)
    requires day != "" && month != "" && year != "" && time != ""
    requires Free(day, {'.', ' '}) && Free(month, {'.', ' '}) && Free(year, {'.', ' '})
    requires Free(time, {' '})
    ensures IsoDateString(Str(day + "." + month + "." + year + " " + time)) ==
            Some(year + "-" + PadStart2(month) + "-" + PadStart2(day) + "T" + FormatTime(time) + ":00")
  {
    var date := day + "." + month + "." + year;
    assert Free(day, {'.'}) && Free(month, {'.'}) && Free(year, {'.'});
    DottedSplit(day, month, year);
    assert Free(day, {' '}) && Free(month, {' '}) && Free(year, {' '}) && Free(".", {' '});
    FreeAppend(day, ".", {' '});
    FreeAppend(day + ".", month, {' '});
    FreeAppend(day + "." + month, ".", {' '});
    FreeAppend(day + "." + month + ".", year, {' '});
    SpacedSplit(date, time);
    IsoDateOfSplit(date + " " + time, date, time, day, month, year);
  }

  /** The line's own example: "25.06.2018 4:42" becomes "2018-06-25T04:42:00". */
  lemma IsoDateExample()
    ensures IsoDateString(Str("25.06.2018 4:42")) == Some("2018-06-25T04:42:00")
  {
    assert "25" + "." + "06" + "." + "2018" + " " + "4:42" == "25.06.2018 4:42";
    IsoDateOfParts("25", "06", "2018", "4:42");
    ExampleTime();
    ExampleIso();
  }

  lemma ExampleTime()
    ensures FormatTime("4:42") == "04:42"
  {
    SplitOnFree("42", {':'});
    SplitOnFirst("4", ':', "42", {':'});
    assert "4:42" == "4" + [':'] + "42";
    assert Split("4:42", ':') == ["4", "42"];
    assert "0" + "4:42" == "04:42";
  }

  lemma ExampleIso()
    ensures "2018" + "-" + PadStart2("06") + "-" + PadStart2("25") + "T" + "04:42" + ":00" == "2018-06-25T04:42:00"
  {
    assert PadStart2("06") == "06" && PadStart2("25") == "25";
  }

  // ---------------------------------------------------------------------------
  // Numbers from CSV cells
  // ---------------------------------------------------------------------------

  /** `parseFloat(v)`: a string is parsed, a number is itself, anything else is NaN. */
  function ParseFloat(pf: string -> Option<real>, v: Value): Option<real> {
    match v
    case Str(s) => pf(s)
    case Num(x) => Some(x)
    case _ => None
  }

  /** `x || 0` on a number: NaN and 0 both become 0. */
  function OrZero(x: Option<real>): (r: real)
    ensures r == 0.0 <==> x.None? || x.value == 0.0
    ensures x.Some? && x.value != 0.0 ==> r == x.value
  {
    if x.Some? && x.value != 0.0 then x.value else 0.0
  }

  /** `parseFloat(row[column]) || 0`, the mapping of every numeric field. */
  function Column(row: Value, pf: string -> Option<real>, column: string): real {
    OrZero(ParseFloat(pf, Field(row, column)))
  }

  /** `row[column] || 0` before parsing, as the demo heuristics read their inputs. */
  function CellOrZero(row: Value, column: string): (v: Value)
    ensures v == Field(row, column) || v == Num(0.0)
  {
    var c := Field(row, column);
    if Truthy(c) then c else Num(0.0)
  }

  /**
   * `parseFloat(x.toFixed(2))`: the magnitude rounded to hundredths, halves
   * up, with the sign put back.
   */
  function ToFixed2(x: real): (r: real)
    ensures x >= 0.0 ==> r >= 0.0
    ensures x <= 0.0 ==> r <= 0.0
    ensures -0.005 <= r - x <= 0.005
  {
    if x >= 0.0 then Round(x * 100.0) as real / 100.0
    else -(Round(-x * 100.0) as real / 100.0)
  }

  /** Rounding to hundredths never reverses an order. */
  lemma ToFixed2Monotone(x: real, y: real)
    requires x <= y
    ensures ToFixed2(x) <= ToFixed2(y)
  {
    if x >= 0.0 {
      RoundMonotone(x * 100.0, y * 100.0);
    } else if y < 0.0 {
      RoundMonotone(-y * 100.0, -x * 100.0);
    }
  }

  /** A whole number of hundredths is left as it is. */
  lemma ToFixed2Hundredths(n: int)
    ensures ToFixed2(n as real / 100.0) == n as real / 100.0
  {
    var x := n as real / 100.0;
    if x >= 0.0 {
      assert x * 100.0 == n as real;
      assert Round(x * 100.0) == n;
    } else {
      assert -x * 100.0 == -n as real;
      assert Round(-x * 100.0) == -n;
    }
  }

  // ---------------------------------------------------------------------------
  // Derived and demo fields
  // ---------------------------------------------------------------------------

  const TotalOutputColumn: string := "ST110_VAREx_0_GesamtDS"
  const TargetOutputColumn: string := "ST110_VAREx_0_SollDS"
  const ActualThicknessColumn: string := "ST110_VAREx_0_SDickeIst"
  const TargetThicknessColumn: string := "ST110_VAREx_0_SDickeSoll"
  const PressureColumn: string := "ST110_VARExtr_1_druck_1_IstP"
  const TemperatureColumn: string := "ST110_VARExtr_1_Massetemperatur"

  /** `parseFloat(x) || 1`: the divisor of the efficiency, which is never zero. */
  function OrOne(x: Option<real>): (r: real)
    ensures r != 0.0
    ensures x.None? || x.value == 0.0 ==> r == 1.0
  {
    if x.Some? && x.value != 0.0 then x.value else 1.0
  }

  /** `calculateEfficiency`: the output as a percentage of the target, capped at 100. */
  function Efficiency(row: Value, pf: string -> Option<real>): (r: real)
    ensures r <= 100.0
  {
    var total := Column(row, pf, TotalOutputColumn);
    var target := OrOne(ParseFloat(pf, Field(row, TargetOutputColumn)));
    var efficiency := total / target * 100.0;
    var capped := if efficiency > 100.0 then 100.0 else efficiency;
    ToFixed2Monotone(capped, 100.0);
    ToFixed2Hundredths(10000);
    ToFixed2(capped)
  }

  /** A missing or zero target divides by one. */
  lemma EfficiencyWithoutTarget(row: Value, pf: string -> Option<real>)
    requires ParseFloat(pf, Field(row, TargetOutputColumn)).None? || ParseFloat(pf, Field(row, TargetOutputColumn)).value == 0.0
    ensures Efficiency(row, pf) == ToFixed2(Min(Column(row, pf, TotalOutputColumn) * 100.0, 100.0))
  {
  }

  /** A non-negative output against a positive target is a non-negative efficiency. */
  lemma EfficiencyNonNegative(row: Value, pf: string -> Option<real>)
    requires Column(row, pf, TotalOutputColumn) >= 0.0
    requires ParseFloat(pf, Field(row, TargetOutputColumn)).Some? && ParseFloat(pf, Field(row, TargetOutputColumn)).value > 0.0
    ensures Efficiency(row, pf) >= 0.0
  {
    var total := Column(row, pf, TotalOutputColumn);
    var target := OrOne(ParseFloat(pf, Field(row, TargetOutputColumn)));
    assert total / target >= 0.0 by { NonNegativeQuotient(total, target); }
  }

  lemma NonNegativeQuotient(a: real, b: real)
    requires a >= 0.0 && b > 0.0
    ensures a / b >= 0.0
  {
    assert a / b * b == a;
  }

  /** The demo quality score of a thickness difference: 100 less ten per unit, within [0, 100]. */
  function QualityOfDifference(d: real): (q: real)
    ensures 0.0 <= q <= 100.0
  {
    var q := 100.0 - d * 10.0;
    var q := if q < 0.0 then 0.0 else q;
    var q := if q > 100.0 then 100.0 else q;
    ToFixed2Monotone(q, 100.0);
    ToFixed2Hundredths(10000);
    ToFixed2(q)
  }

  /** A larger difference never scores higher; no difference scores 100. */
  lemma QualityOfDifferenceMonotone(d: real, e: real)
    requires 0.0 <= d <= e
    ensures QualityOfDifference(e) <= QualityOfDifference(d)
    ensures QualityOfDifference(0.0) == 100.0
  {
    var qd := 100.0 - d * 10.0;
    var qe := 100.0 - e * 10.0;
    var cd := if qd < 0.0 then 0.0 else if qd > 100.0 then 100.0 else qd;
    var ce := if qe < 0.0 then 0.0 else if qe > 100.0 then 100.0 else qe;
    ToFixed2Monotone(ce, cd);
    ToFixed2Hundredths(10000);
  }

  /**
   * `mockQualityScore`: `None` is the NaN an unparsable thickness gives,
   * which passes both clamps.
   */
  function MockQualityScore(row: Value, pf: string -> Option<real>): (r: Option<real>)
    ensures r.Some? <==> ParseFloat(pf, CellOrZero(row, ActualThicknessColumn)).Some? && ParseFloat(pf, CellOrZero(row, TargetThicknessColumn)).Some?
    ensures r.Some? ==> 0.0 <= r.value <= 100.0
  {
    var actual := ParseFloat(pf, CellOrZero(row, ActualThicknessColumn));
    var target := ParseFloat(pf, CellOrZero(row, TargetThicknessColumn));
    if actual.Some? && target.Some? then Some(QualityOfDifference(Abs(actual.value - target.value)))
    else None
  }

  /** Equal thicknesses score 100. */
  lemma MockQualityOnTarget(row: Value, pf: string -> Option<real>)
    requires ParseFloat(pf, CellOrZero(row, ActualThicknessColumn)).Some?
    requires ParseFloat(pf, CellOrZero(row, ActualThicknessColumn)) == ParseFloat(pf, CellOrZero(row, TargetThicknessColumn))
    ensures MockQualityScore(row, pf) == Some(100.0)
  {
    QualityOfDifferenceMonotone(0.0, 0.0);
  }

  /** `mockAnomalyScore`: noise up to 0.3, and 0.5 more above 85 bar. */
  function MockAnomalyScore(row: Value, pf: string -> Option<real>, r: real): (s: real)
    ensures 0.0 <= r < 1.0 ==> 0.0 <= s <= 0.8
  {
    var pressure := ParseFloat(pf, CellOrZero(row, PressureColumn));
    var score := r * 0.3 + (if pressure.Some? && pressure.value > 85.0 then 0.5 else 0.0);
    assert 0.0 <= r < 1.0 ==> 0.0 <= ToFixed2(score) <= 0.8 by {
      if 0.0 <= r < 1.0 {
        ToFixed2Monotone(0.0, score);
        ToFixed2Monotone(score, 0.8);
      }
    }
    ToFixed2Hundredths(0);
    ToFixed2Hundredths(80);
    ToFixed2(score)
  }

  /** The demo maintenance field. */
  datatype MockPrediction = MockPrediction(risk: string, days: int)

  /** A comparison `x > c` on a parsed number; NaN compares false. */
  predicate Above(x: Option<real>, c: real) {
    x.Some? && x.value > c
  }

  /**
   * `mockMaintenancePrediction`: the tier ladder on temperature and
   * pressure, with a random number of days in each of the upper three.
   */
  function MockMaintenance(row: Value, pf: string -> Option<real>, r: real): (m: MockPrediction)
    ensures m.risk == "critical" <==> Above(ParseFloat(pf, CellOrZero(row, TemperatureColumn)), 200.0) && Above(ParseFloat(pf, CellOrZero(row, PressureColumn)), 80.0)
    ensures m.risk == "high" <==> m.risk != "critical" && Above(ParseFloat(pf, CellOrZero(row, TemperatureColumn)), 180.0) && Above(ParseFloat(pf, CellOrZero(row, PressureColumn)), 70.0)
    ensures m.risk == "low" <==> !Above(ParseFloat(pf, CellOrZero(row, TemperatureColumn)), 160.0) || !Above(ParseFloat(pf, CellOrZero(row, PressureColumn)), 60.0)
    ensures m.risk == "low" ==> m.days == 30
  {
    var temperature := ParseFloat(pf, CellOrZero(row, TemperatureColumn));
    var pressure := ParseFloat(pf, CellOrZero(row, PressureColumn));
    if Above(temperature, 200.0) && Above(pressure, 80.0) then MockPrediction("critical", (r * 3.0).Floor + 1)
    else if Above(temperature, 180.0) && Above(pressure, 70.0) then MockPrediction("high", (r * 7.0).Floor + 3)
    else if Above(temperature, 160.0) && Above(pressure, 60.0) then MockPrediction("medium", (r * 10.0).Floor + 10)
    else MockPrediction("low", 30)
  }

  /** With a draw in [0, 1) the days fall in [1, 3], [3, 9], [10, 19] or are 30. */
  lemma MockMaintenanceDays(row: Value, pf: string -> Option<real>, r: real)
    requires 0.0 <= r < 1.0
    ensures var m := MockMaintenance(row, pf, r);
            (m.risk == "critical" && 1 <= m.days <= 3) || (m.risk == "high" && 3 <= m.days <= 9) ||
            (m.risk == "medium" && 10 <= m.days <= 19) || (m.risk == "low" && m.days == 30)
  {
  }

  // ---------------------------------------------------------------------------
  // mapCsvToSchema
  // ---------------------------------------------------------------------------

  datatype Zone = Zone(setpoint: real, actual: real, power: real)
  datatype Material = Material(component: nat, actualRatio: real, targetRatio: real, density: real)

  /**
   * A sensor-data document. `Mapped` is a mapped row: per-extruder values
   * are in the order A, B, C, heating zones in the order 1, 3, 5, 7,
   * material components 2 to 5, blowers and winders 1 and 2. `Minimal` is
   * the record the `catch` returns.
   */
  datatype Document =
    | Mapped(
        timestamp: Option<int>,
        extruderPressure: seq<real>,
        extruderTemperature: seq<real>,
        heatingZones: seq<seq<Zone>>,
        materials: seq<seq<Material>>,
        totalOutput: real,
        targetOutput: real,
        actualThickness: real,
        targetThickness: real,
        blowerLoad: seq<real>,
        blowerExhaustActual: real,
        blowerExhaustSetpoint: real,
        winderLength: seq<real>,
        winderRemainingTime: seq<real>,
        efficiency: real,
        qualityScore: Option<real>,
        anomalyScore: real,
        maintenance: MockPrediction)
    | Minimal(
        timestamp: Option<int>,
        efficiency: real,
        qualityScore: Option<real>,
        anomalyScore: real,
        maintenance: MockPrediction)

  /** Heating zone `z` of extruder `n`. */
  function HeatingZone(row: Value, pf: string -> Option<real>, n: string, z: string): Zone {
    var prefix := "ST110_VARExtr_" + n + "_HeizungZone_" + z;
    Zone(Column(row, pf, prefix + "_Regler_X"), Column(row, pf, prefix + "_Regler_Y"), Column(row, pf, prefix + "_ActEffectPower"))
  }

  function HeatingZones(row: Value, pf: string -> Option<real>, n: string): (zs: seq<Zone>)
    ensures |zs| == 4
  {
    [HeatingZone(row, pf, n, "1"), HeatingZone(row, pf, n, "3"), HeatingZone(row, pf, n, "5"), HeatingZone(row, pf, n, "7")]
  }

  /** Dosing component `c` of extruder `n`. */
  function Component(row: Value, pf: string -> Option<real>, n: string, c: nat, cs: string): Material {
    var prefix := "ST110_VAREx_" + n + "_Dos_" + cs;
    Material(c, Column(row, pf, prefix + "_IstAnteil"), Column(row, pf, prefix + "_SollAnteil"), Column(row, pf, prefix + "_SollDichte"))
  }

  function Components(row: Value, pf: string -> Option<real>, n: string): (ms: seq<Material>)
    ensures |ms| == 4
    ensures forall k :: 0 <= k < 4 ==> ms[k].component == k + 2
  {
    [Component(row, pf, n, 2, "2"), Component(row, pf, n, 3, "3"), Component(row, pf, n, 4, "4"), Component(row, pf, n, 5, "5")]
  }

  /** The record of the `catch`: stamped now, scored zero, low risk in 30 days. */
  function Fallback(now: int): Document {
    Minimal(Some(now), 0.0, Some(0.0), 0.0, MockPrediction("low", 30))
  }

  /** The mapped document of a row that is an object or another non-null value. */
  function MapFields(row: Value, env: Env, draws: Draws): Document {
    var pf := env.parseFloat;
    Mapped(
      ParseCustomDate(Field(row, "Datum"), env.dateOf),
      [Column(row, pf, PressureColumn), Column(row, pf, "ST110_VARExtr_2_druck_1_IstP"), Column(row, pf, "ST110_VARExtr_3_druck_1_IstP")],
      [Column(row, pf, TemperatureColumn), Column(row, pf, "ST110_VARExtr_2_Massetemperatur"), Column(row, pf, "ST110_VARExtr_3_Massetemperatur")],
      [HeatingZones(row, pf, "1"), HeatingZones(row, pf, "2"), HeatingZones(row, pf, "3")],
      [Components(row, pf, "1"), Components(row, pf, "2"), Components(row, pf, "3")],
      Column(row, pf, TotalOutputColumn),
      Column(row, pf, TargetOutputColumn),
      Column(row, pf, ActualThicknessColumn),
      Column(row, pf, TargetThicknessColumn),
      [Column(row, pf, "ST110_VARGeblaese_1_Auslastung"), Column(row, pf, "ST110_VARGeblaese_2_Auslastung")],
      Column(row, pf, "ST110_VARIBC_1_Ist_n_Calc"),
      Column(row, pf, "ST110_VARIBC_1_Soll_n_Visu"),
      [Column(row, pf, "ST113_VARActLen"), Column(row, pf, "ST114_VARActLen")],
      [Column(row, pf, "ST113_VARRemainingTimeVis"), Column(row, pf, "ST114_VARRemainingTimeVis")],
      Efficiency(row, pf),
      MockQualityScore(row, pf),
      MockAnomalyScore(row, pf, draws.anomaly),
      MockMaintenance(row, pf, draws.maintenance))
  }

  /**
   * `mapCsvToSchema`: reading `row.Datum` of `undefined` or `null` raises,
   * and the `catch` returns the fallback record; every other row is mapped.
   */
  function MapCsvToSchema(row: Value, env: Env, draws: Draws): (d: Document)
    ensures d.Minimal? <==> row.Undef? || row.Null?
    ensures d.efficiency <= 100.0
    ensures d.qualityScore.Some? ==> 0.0 <= d.qualityScore.value <= 100.0
    ensures 0.0 <= draws.anomaly < 1.0 ==> 0.0 <= d.anomalyScore <= 0.8
    ensures d.Mapped? ==> d.timestamp == ParseCustomDate(Field(row, "Datum"), env.dateOf)
    ensures d.Mapped? ==> d.totalOutput == Column(row, env.parseFloat, TotalOutputColumn)
  {
    if row.Undef? || row.Null? then Fallback(env.now) else MapFields(row, env, draws)
  }

  /** The fallback record carries zero scores, the low tier and 30 days. */
  lemma FallbackRecord(row: Value, env: Env, draws: Draws)
    requires row.Undef? || row.Null?
    ensures var d := MapCsvToSchema(row, env, draws);
            d.timestamp == Some(env.now) && d.efficiency == 0.0 && d.qualityScore == Some(0.0) &&
            d.anomalyScore == 0.0 && d.maintenance == MockPrediction("low", 30)
  {
  }

  // ---------------------------------------------------------------------------
  // The import loop
  // ---------------------------------------------------------------------------

  const BatchSize: nat := 100

  /** Each row mapped with its position: `f(rows[i], i)`. */
  function MapRows<R, D>(rows: seq<R>, f: (R, nat) -> D): (ds: seq<D>)
    ensures |ds| == |rows|
    ensures forall i :: 0 <= i < |rows| ==> ds[i] == f(rows[i], i)
  {
    seq(|rows|, i requires 0 <= i < |rows| => f(rows[i], i))
  }

  /** The elements that satisfy `keep`, in order. */
  function Filter<D>(ds: seq<D>, keep: D -> bool): (r: seq<D>)
    ensures |r| <= |ds|
    ensures forall k :: 0 <= k < |r| ==> r[k] in ds && keep(r[k])
    ensures forall k :: 0 <= k < |ds| && keep(ds[k]) ==> ds[k] in r
    decreases |ds|
  {
    if |ds| == 0 then []
    else
      var init := ds[..|ds| - 1];
      var last := ds[|ds| - 1];
      assert ds == init + [last];
      Filter(init, keep) + (if keep(last) then [last] else [])
  }

  /** Filtering a concatenation filters each part. */
  lemma {:induction false} FilterAppend<D>(a: seq<D>, b: seq<D>, keep: D -> bool)
    ensures Filter(a + b, keep) == Filter(a, keep) + Filter(b, keep)
    decreases |b|
  {
    if |b| == 0 {
      assert a + b == a;
    } else {
      var b' := b[..|b| - 1];
      assert (a + b)[..|a + b| - 1] == a + b';
      assert (a + b)[|a + b| - 1] == b[|b| - 1];
      FilterAppend(a, b', keep);
    }
  }

  /** Nothing is dropped when every element is kept. */
  lemma {:induction false} FilterAll<D>(ds: seq<D>, keep: D -> bool)
    requires forall k :: 0 <= k < |ds| ==> keep(ds[k])
    ensures Filter(ds, keep) == ds
    decreases |ds|
  {
    if |ds| > 0 {
      FilterAll(ds[..|ds| - 1], keep);
    }
  }

  /** The filter of one slice, counting what it drops. */
  method FilterSlice<D>(documents: seq<D>, keep: D -> bool) returns (kept: seq<D>, dropped: nat)
    ensures kept == Filter(documents, keep)
    ensures dropped == |documents| - |kept|
  {
    kept, dropped := [], 0;
    var j := 0;
    while j < |documents|
      invariant 0 <= j <= |documents|
      invariant kept == Filter(documents[..j], keep)
      invariant dropped == j - |kept|
    {
      assert documents[..j + 1][..j] == documents[..j];
      if keep(documents[j]) {
        kept := kept + [documents[j]];
      } else {
        dropped := dropped + 1;
      }
      j := j + 1;
    }
    assert documents[..j] == documents;
  }

  /** `results.slice(lo, hi).map(f)`, each row with its position in the file. */
  method MapSlice<R, D>(rows: seq<R>, f: (R, nat) -> D, lo: nat, hi: nat) returns (documents: seq<D>)
    requires lo <= hi <= |rows|
    ensures documents == MapRows(rows, f)[lo..hi]
  {
    var batch := rows[lo..hi];
    documents := seq(|batch|, k requires 0 <= k < |batch| => f(batch[k], lo + k));
    assert forall k :: 0 <= k < |documents| ==> documents[k] == MapRows(rows, f)[lo..hi][k];
  }

  /**
   * The loop of the `end` handler: slices of 100 rows are mapped and
   * filtered, the kept documents of each slice are inserted, and the
   * dropped ones are counted as failed.
   */
  method InsertInSlices<R, D>(rows: seq<R>, f: (R, nat) -> D, keep: D -> bool) returns (inserted: seq<D>, failed: nat)
    ensures inserted == Filter(MapRows(rows, f), keep)
    ensures failed == |rows| - |inserted|
  {
    ghost var all := MapRows(rows, f);
    inserted, failed := [], 0;
    var processed := 0;
    var i := 0;
    while i < |rows|
      invariant 0 <= i
      invariant processed == if i < |rows| then i else |rows|
      invariant inserted == Filter(all[..processed], keep)
      invariant failed == processed - |inserted|
    {
      var hi := if i + BatchSize < |rows| then i + BatchSize else |rows|;
      var documents := MapSlice(rows, f, i, hi);
      var kept, dropped := FilterSlice(documents, keep);
      assert all[..hi] == all[..i] + all[i..hi];
      FilterAppend(all[..i], all[i..hi], keep);
      if |kept| > 0 {
        inserted := inserted + kept;       // insertMany
      }
      failed := failed + dropped;
      processed := processed + (hi - i);
      i := i + BatchSize;
    }
    assert all[..processed] == all;
  }

  /** `mapCsvToSchema` of the row at position `i`, with the draws of that position. */
  function RowMapper(env: Env): (Value, nat) -> Document {
    (row: Value, i: nat) => MapCsvToSchema(row, env, env.random(i))
  }

  /** The documents of the rows, in order. */
  function Documents(rows: seq<Value>, env: Env): (ds: seq<Document>)
    ensures |ds| == |rows|
    ensures forall i :: 0 <= i < |rows| ==> ds[i] == MapCsvToSchema(rows[i], env, env.random(i))
  {
    MapRows(rows, RowMapper(env))
  }

  /** `!doc.timestamp || isNaN(doc.timestamp.getTime())` fails: a stamped document. */
  predicate Stamped(d: Document) {
    d.timestamp.Some?
  }

  /** The documents that are inserted: the stamped ones, in order. */
  function Kept(ds: seq<Document>): (r: seq<Document>)
    ensures |r| <= |ds|
    ensures forall k :: 0 <= k < |r| ==> r[k] in ds && r[k].timestamp.Some?
    ensures forall k :: 0 <= k < |ds| && ds[k].timestamp.Some? ==> ds[k] in r
  {
    Filter(ds, Stamped)
  }

  /**
   * The `end` handler of `importCsvToMongo`: the stamped documents are
   * inserted in file order, and the reply counts the rows less the failed
   * ones.
   */
  method ImportRows(rows: seq<Value>, env: Env) returns (inserted: seq<Document>, count: int, failed: nat)
    ensures inserted == Kept(Documents(rows, env))
    ensures failed == |rows| - |inserted|
    ensures count == |rows| - failed && count == |inserted|
  {
    inserted, failed := InsertInSlices(rows, RowMapper(env), Stamped);
    count := |rows| - failed;
  }

  /** When every row yields a timestamp, every document is inserted and none fails. */
  lemma ImportWithoutFailures(rows: seq<Value>, env: Env)
    requires forall i :: 0 <= i < |rows| ==> MapCsvToSchema(rows[i], env, env.random(i)).timestamp.Some?
    ensures Kept(Documents(rows, env)) == Documents(rows, env)
  {
    FilterAll(Documents(rows, env), Stamped);
  }

  /** A row the mapping cannot read still yields a stamped document, so it is never a failure. */
  lemma UnreadableRowKept(rows: seq<Value>, env: Env, i: nat)
    requires i < |rows| && (rows[i].Undef? || rows[i].Null?)
    ensures Documents(rows, env)[i] in Kept(Documents(rows, env))
  {
  }
}
