/**
 * The maintenance predictor: a health score out of 100 built from four
 * penalties (time since the last service, age, the severity of the last
 * year's interventions, sensor readings outside their normal ranges), and
 * the prediction derived from it (a 0-10 score, the days to the next
 * service, a risk tier, the date of the next service and a confidence).
 *
 * Dates are milliseconds since the epoch. The clock is a parameter: `now`
 * is `new Date()` and `yearAgo` is the same instant with its year lowered
 * by one (`setFullYear(getFullYear() - 1)`).
 */
module Maintenance {
  import opened Wrappers
  import opened Values
  import opened Stats
  import opened History

  // ---------------------------------------------------------------------------
  // The equipment document
  // ---------------------------------------------------------------------------

  /** One entry of `maintenanceHistory`; `date` is `None` when it is not a valid date. */
  datatype Event = Event(date: Option<int>, kind: string)

  /** A sensor's `normalRange`. */
  datatype Range = Range(min: real, max: real)

  /** One entry of `sensors`. */
  datatype Sensor = Sensor(kind: string, normalRange: Option<Range>)

  /**
   * An equipment document. `powerRating` is `specifications?.powerRating`
   * (`Undef` when either is missing); the two dates are `None` when the
   * field is absent; `history` and `sensors` are `None` when the array is
   * absent.
   */
  datatype Equipment = Equipment(
    id: string,
    kind: string,
    powerRating: Value,
    lastMaintenance: Option<int>,
    installation: Option<int>,
    history: Option<seq<Event>>,
    sensors: Option<seq<Sensor>>)

  datatype Clock = Clock(now: int, yearAgo: int)

  const MsPerDay: int := 86400000

  /** `Math.floor((now - since) / MsPerDay)`: whole days elapsed. */
  function ElapsedDays(now: int, since: int): (d: int)
    ensures d * MsPerDay <= now - since < (d + 1) * MsPerDay
  {
    (now - since) / MsPerDay
  }

  /** A longer span never counts fewer whole days. */
  lemma ElapsedDaysMonotone(now: int, since: int, now': int, since': int)
    requires now - since <= now' - since'
    ensures ElapsedDays(now, since) <= ElapsedDays(now', since')
  {
  }

  // ---------------------------------------------------------------------------
  // Factor 1: time since the last service
  // ---------------------------------------------------------------------------

  /** Low-power equipment (rating below 100) is serviced yearly, the rest every 180 days. */
  function Interval(powerRating: Value): (days: real)
    ensures days == 365.0 || days == 180.0
    ensures days == 365.0 <==> ToNumber(powerRating).Some? && ToNumber(powerRating).value < 100.0
  {
    var p := ToNumber(powerRating);
    if p.Some? && p.value < 100.0 then 365.0 else 180.0
  }

  /** The recency penalty: a quarter of the overdue fraction, softened by half. */
  function RecencyPenalty(e: Equipment, now: int): (p: real)
    ensures p <= 12.5
    ensures e.lastMaintenance.None? ==> p == 0.0
    ensures e.lastMaintenance.Some? && now >= e.lastMaintenance.value ==> p >= 0.0
    ensures e.lastMaintenance.Some? && ElapsedDays(now, e.lastMaintenance.value) as real >= Interval(e.powerRating) ==> p == 12.5
  {
    match e.lastMaintenance
    case None => 0.0
    case Some(t) =>
      var factor := Min(ElapsedDays(now, t) as real / Interval(e.powerRating), 1.0) * 0.5;
      factor * 25.0
  }

  /**
   * A later clock or an earlier last service never lowers the recency
   * penalty.
   */
  lemma RecencyMonotone(e: Equipment, t: int, t': int, now: int, now': int)
    requires t' <= t && now <= now'
    ensures RecencyPenalty(e.(lastMaintenance := Some(t)), now) <= RecencyPenalty(e.(lastMaintenance := Some(t')), now')
  {
    ElapsedDaysMonotone(now, t, now', t');
    DivMonotone(ElapsedDays(now, t) as real, ElapsedDays(now', t') as real, Interval(e.powerRating));
  }

  // ---------------------------------------------------------------------------
  // Factor 2: age, over a ten-year lifespan
  // ---------------------------------------------------------------------------

  function AgePenalty(e: Equipment, now: int): (p: real)
    ensures p <= 15.0
    ensures e.installation.None? ==> p == 0.0
    ensures e.installation.Some? && now >= e.installation.value ==> p >= 0.0
    ensures e.installation.Some? && ElapsedDays(now, e.installation.value) >= 3650 ==> p == 15.0
  {
    match e.installation
    case None => 0.0
    case Some(t) =>
      var years := ElapsedDays(now, t) as real / 365.0;
      Min(years / 10.0, 1.0) * 15.0
  }

  /** A later clock or an earlier installation never lowers the age penalty. */
  lemma AgeMonotone(e: Equipment, t: int, t': int, now: int, now': int)
    requires t' <= t && now <= now'
    ensures AgePenalty(e.(installation := Some(t)), now) <= AgePenalty(e.(installation := Some(t')), now')
  {
    ElapsedDaysMonotone(now, t, now', t');
    DivMonotone(ElapsedDays(now, t) as real, ElapsedDays(now', t') as real, 365.0);
    DivMonotone(ElapsedDays(now, t) as real / 365.0, ElapsedDays(now', t') as real / 365.0, 10.0);
  }

  // ---------------------------------------------------------------------------
  // Factor 3: severity of the last year's interventions
  // ---------------------------------------------------------------------------

  const Emergency: string := "emergency"
  const Corrective: string := "corrective"

  /** `new Date(record.date) >= pastYear`; an invalid date compares false. */
  predicate Recent(ev: Event, yearAgo: int) {
    ev.date.Some? && ev.date.value >= yearAgo
  }

  /** `history.filter(Recent)`. */
  function RecentEvents(evs: seq<Event>, yearAgo: int): (r: seq<Event>)
    ensures |r| <= |evs|
    ensures forall x :: x in r <==> x in evs && Recent(x, yearAgo)
    ensures |evs| == 1 ==> r == if Recent(evs[0], yearAgo) then evs else []
  {
    if |evs| == 0 then []
    else
      var rest := RecentEvents(evs[1..], yearAgo);
      assert forall x :: x in evs <==> x == evs[0] || x in evs[1..] by {
        assert evs == [evs[0]] + evs[1..];
      }
      if Recent(evs[0], yearAgo) then [evs[0]] + rest else rest
  }

  /**
   * The recent events of a concatenation are those of each part, in order:
   * with the one-event case, this fixes the number of recent events the
   * severity divides by.
   */
  lemma {:induction false} RecentEventsAppend(a: seq<Event>, b: seq<Event>, yearAgo: int)
    ensures RecentEvents(a + b, yearAgo) == RecentEvents(a, yearAgo) + RecentEvents(b, yearAgo)
    decreases |a|
  {
    if |a| == 0 {
      assert a + b == b;
    } else {
      assert (a + b)[0] == a[0] && (a + b)[1..] == a[1..] + b;
      RecentEventsAppend(a[1..], b, yearAgo);
    }
  }

  /** `evs.filter(r => r.type === kind).length`. */
  function CountKind(evs: seq<Event>, kind: string): (n: nat)
    ensures n <= |evs|
    ensures n == 0 <==> forall x :: x in evs ==> x.kind != kind
  {
    if |evs| == 0 then 0
    else
      assert forall x :: x in evs <==> x == evs[0] || x in evs[1..] by {
        assert evs == [evs[0]] + evs[1..];
      }
      (if evs[0].kind == kind then 1 else 0) + CountKind(evs[1..], kind)
  }

  /** Two different kinds are never counted for the same event. */
  lemma {:induction false} TwoKinds(evs: seq<Event>, a: string, b: string)
    requires a != b
    ensures CountKind(evs, a) + CountKind(evs, b) <= |evs|
    decreases |evs|
  {
    if |evs| > 0 {
      TwoKinds(evs[1..], a, b);
    }
  }

  /** The weighted count of interventions: an emergency weighs three, a corrective one. */
  function Weight(evs: seq<Event>): (w: nat)
    ensures w <= 3 * |evs|
  {
    TwoKinds(evs, Emergency, Corrective);
    3 * CountKind(evs, Emergency) + CountKind(evs, Corrective)
  }

  /** The severity: the weighted count per recent intervention, each weighing at most three. */
  function Severity(evs: seq<Event>, yearAgo: int): (s: real)
    ensures 0.0 <= s <= 3.0
    ensures (forall x :: x in evs && Recent(x, yearAgo) ==> x.kind != Emergency && x.kind != Corrective) ==> s == 0.0
  {
    var recent := RecentEvents(evs, yearAgo);
    // `recent.length || 1`: an empty filter divides by one
    var n := if |recent| == 0 then 1 else |recent|;
    var w := Weight(recent);
    assert w <= 3 * n;
    AtLeastZero(w as real, n as real);
    DivMonotone(w as real, (3 * n) as real, n as real);
    MulDiv(3.0, n as real);
    assert (3 * n) as real == 3.0 * n as real;
    w as real / n as real
  }

  /** The history penalty, capped at 20; it applies only to a non-empty history. */
  function HistoryPenalty(e: Equipment, yearAgo: int): (p: real)
    ensures 0.0 <= p <= 20.0
    ensures e.history.None? || |e.history.value| == 0 ==> p == 0.0
  {
    match e.history
    case None => 0.0
    case Some(evs) => if |evs| > 0 then Min(Severity(evs, yearAgo) * 10.0, 20.0) else 0.0
  }

  /** Every recent intervention an emergency: the penalty is the full twenty. */
  lemma AllEmergencies(e: Equipment, yearAgo: int)
    requires e.history.Some?
    requires exists x :: x in e.history.value && Recent(x, yearAgo)
    requires forall x :: x in e.history.value && Recent(x, yearAgo) ==> x.kind == Emergency
    ensures HistoryPenalty(e, yearAgo) == 20.0
  {
    var recent := RecentEvents(e.history.value, yearAgo);
    var x :| x in e.history.value && Recent(x, yearAgo);
    assert x in recent;
    AllOfKind(recent, Emergency);
    assert CountKind(recent, Corrective) == 0;
    assert Weight(recent) as real == 3.0 * |recent| as real;
    MulDiv(3.0, |recent| as real);
  }

  lemma {:induction false} AllOfKind(evs: seq<Event>, kind: string)
    requires forall x :: x in evs ==> x.kind == kind
    ensures CountKind(evs, kind) == |evs|
    decreases |evs|
  {
    if |evs| > 0 {
      assert evs[0] in evs;
      assert forall x :: x in evs[1..] ==> x in evs;
      AllOfKind(evs[1..], kind);
    }
  }

  /**
   * Relabelling one intervention as an emergency keeps the recent events in
   * number and never lowers their weighted count.
   */
  lemma {:induction false} EscalateWeight(evs: seq<Event>, i: nat, yearAgo: int)
    requires i < |evs| && evs[i].kind != Emergency
    ensures var evs' := evs[i := evs[i].(kind := Emergency)];
            |RecentEvents(evs', yearAgo)| == |RecentEvents(evs, yearAgo)| &&
            Weight(RecentEvents(evs', yearAgo)) >= Weight(RecentEvents(evs, yearAgo))
    decreases |evs|
  {
    var evs' := evs[i := evs[i].(kind := Emergency)];
    var r := RecentEvents(evs[1..], yearAgo);
    if i == 0 {
      assert evs'[1..] == evs[1..];
      assert Recent(evs'[0], yearAgo) == Recent(evs[0], yearAgo);
      if Recent(evs[0], yearAgo) {
        assert ([evs'[0]] + r)[1..] == r;
        assert ([evs[0]] + r)[1..] == r;
      }
    } else {
      assert evs'[1..] == evs[1..][i - 1 := evs[i].(kind := Emergency)];
      EscalateWeight(evs[1..], i - 1, yearAgo);
      var r' := RecentEvents(evs'[1..], yearAgo);
      assert evs'[0] == evs[0];
      if Recent(evs[0], yearAgo) {
        assert ([evs[0]] + r')[1..] == r';
        assert ([evs[0]] + r)[1..] == r;
      }
    }
  }

  /** An emergency in place of a lesser intervention never lowers the history penalty. */
  lemma EscalatePenalty(e: Equipment, i: nat, yearAgo: int)
    requires e.history.Some? && i < |e.history.value| && e.history.value[i].kind != Emergency
    ensures var evs := e.history.value;
            HistoryPenalty(e.(history := Some(evs[i := evs[i].(kind := Emergency)])), yearAgo) >= HistoryPenalty(e, yearAgo)
  {
    var evs := e.history.value;
    var evs' := evs[i := evs[i].(kind := Emergency)];
    EscalateWeight(evs, i, yearAgo);
    var n := |RecentEvents(evs, yearAgo)|;
    var d := if n == 0 then 1 else n;
    var w := Weight(RecentEvents(evs, yearAgo));
    var w' := Weight(RecentEvents(evs', yearAgo));
    assert w' as real / d as real >= w as real / d as real by {
      DivMonotone(w as real, w' as real, d as real);
    }
  }

  lemma MulDiv(k: real, b: real)
    requires b > 0.0
    ensures k * b / b == k
  {
  }

  lemma DivMonotone(a: real, b: real, d: real)
    requires a <= b && d > 0.0
    ensures a / d <= b / d
  {
    assert b / d - a / d == (b - a) / d;
  }

  // ---------------------------------------------------------------------------
  // Factor 4: sensor readings outside their normal ranges
  // ---------------------------------------------------------------------------

  const BlowerLoad: string := "blower_load_1"
  const ExtruderPressure: string := "extruder_A_pressure"
  const ExtruderTemperature: string := "extruder_A_temperature"

  /** The three reading fields the sensors use are plain names. */
  lemma SensorFieldsAreGets(reading: Value)
    requires Truthy(reading)
    ensures Get(reading, BlowerLoad) == Some(Field(reading, BlowerLoad))
    ensures Get(reading, ExtruderPressure) == Some(Field(reading, ExtruderPressure))
    ensures Get(reading, ExtruderTemperature) == Some(Field(reading, ExtruderTemperature))
    ensures Get(reading, TotalOutput) == Some(Field(reading, TotalOutput))
  {
    FieldIsGet(reading, BlowerLoad);
    FieldIsGet(reading, ExtruderPressure);
    FieldIsGet(reading, ExtruderTemperature);
    FieldIsGet(reading, TotalOutput);
  }

  /**
   * The reading a sensor is compared against: pressure is the blower load on
   * a blower and the extruder A pressure on an extruder, temperature is the
   * extruder A temperature, flow is five times a truthy `total_output`;
   * vibration and every other sensor type have no reading (`null`).
   */
  function SensorValue(equipmentKind: string, s: Sensor, reading: Value): (v: Value)
    ensures s.kind !in {"pressure", "temperature", "flow"} ==> v == Null
  {
    if s.kind == "pressure" then
      if equipmentKind == "blower" then Field(reading, BlowerLoad)
      else if equipmentKind == "extruder" then Field(reading, ExtruderPressure)
      else Null
    else if s.kind == "temperature" then Field(reading, ExtruderTemperature)
    else if s.kind == "flow" then
      var t := Field(reading, TotalOutput);
      if Truthy(t) then
        match ToNumber(t)
        case Some(x) => Num(x * 5.0)
        case None => NaN
      else Null
    else Null
  }

  /** `sensorValue !== null && sensor.normalRange`: the sensor is counted. */
  predicate Checked(s: Sensor, v: Value) {
    v != Null && s.normalRange.Some?
  }

  /** A reading Dafny can compare with a range: a comparison with NaN is false. */
  predicate InRange(v: Value, range: Range) {
    ToNumber(v).None? || range.min <= ToNumber(v).value <= range.max
  }

  /**
   * The deviation of an out-of-range reading as half the overshoot per unit
   * of range width, capped at 1. A zero-width range divides a positive
   * overshoot by zero, which is `Infinity` and so capped to 1.
   */
  function Deviation(v: Value, range: Range): (d: real)
    ensures d <= 1.0
    ensures InRange(v, range) ==> d == 0.0
    ensures range.min <= range.max ==> d >= 0.0
    ensures range.min == range.max && !InRange(v, range) ==> d == 1.0
  {
    match ToNumber(v)
    case None => 0.0
    case Some(x) =>
      if x < range.min || x > range.max then
        var width := range.max - range.min;
        if width == 0.0 then 1.0
        else
          var dev := if x < range.min then (range.min - x) / width * 0.5 else (x - range.max) / width * 0.5;
          assert width > 0.0 ==> dev > 0.0 by {
            if width > 0.0 {
              if x < range.min { PositiveQuotient(range.min - x, width); }
              else { PositiveQuotient(x - range.max, width); }
            }
          }
          Min(dev, 1.0)
      else 0.0
  }

  /** How far `x` lies outside the range: 0 inside it. */
  function Overshoot(x: real, range: Range): (o: real)
    ensures o >= 0.0 || range.min > range.max
    ensures o > 0.0 <==> x < range.min || x > range.max
    ensures range.min <= range.max ==> (o == 0.0 <==> range.min <= x <= range.max)
  {
    if x < range.min then range.min - x else if x > range.max then x - range.max else 0.0
  }

  /**
   * With a range of positive width, a number deviates by half its overshoot
   * per unit of width, capped at 1: `(distance / width) * 0.5` below and
   * above the range alike.
   */
  lemma DeviationOfOvershoot(x: real, range: Range)
    requires range.min < range.max
    ensures Deviation(Num(x), range) == Min(Overshoot(x, range) / (range.max - range.min) * 0.5, 1.0)
  {
    if range.min <= x <= range.max {
      assert Overshoot(x, range) == 0.0;
      DivUnique(0.0, 0.0, range.max - range.min);
    }
  }

  /** With an ordered range, a larger overshoot never gives a smaller deviation. */
  lemma DeviationMonotone(x: real, y: real, range: Range)
    requires range.min <= range.max
    requires Overshoot(x, range) <= Overshoot(y, range)
    ensures Deviation(Num(x), range) <= Deviation(Num(y), range)
  {
    if range.min < range.max {
      DeviationOfOvershoot(x, range);
      DeviationOfOvershoot(y, range);
      DivMonotone(Overshoot(x, range), Overshoot(y, range), range.max - range.min);
    }
  }

  lemma PositiveQuotient(a: real, b: real)
    requires a > 0.0 && b > 0.0
    ensures a / b > 0.0
  {
  }

  /** The running sum of deviations and the number of sensors counted. */
  datatype SensorTally = SensorTally(score: real, checked: nat)

  /** The sensor fold over `sensors` in order. */
  function Tally(equipmentKind: string, sensors: seq<Sensor>, reading: Value): SensorTally
    decreases |sensors|
  {
    if |sensors| == 0 then SensorTally(0.0, 0)
    else
      var t := Tally(equipmentKind, sensors[..|sensors| - 1], reading);
      var s := sensors[|sensors| - 1];
      var v := SensorValue(equipmentKind, s, reading);
      if Checked(s, v) then SensorTally(t.score + Deviation(v, s.normalRange.value), t.checked + 1)
      else t
  }

  /** Every sensor contributes at most 1; with ordered ranges, at least 0. */
  lemma {:induction false} TallyBounds(equipmentKind: string, sensors: seq<Sensor>, reading: Value)
    ensures Tally(equipmentKind, sensors, reading).score <= Tally(equipmentKind, sensors, reading).checked as real
    ensures Tally(equipmentKind, sensors, reading).checked <= |sensors|
    ensures (forall s :: s in sensors && s.normalRange.Some? ==> s.normalRange.value.min <= s.normalRange.value.max) ==>
      Tally(equipmentKind, sensors, reading).score >= 0.0
    decreases |sensors|
  {
    if |sensors| > 0 {
      var init := sensors[..|sensors| - 1];
      assert forall s :: s in init ==> s in sensors;
      TallyBounds(equipmentKind, init, reading);
    }
  }

  /** Readings all inside their ranges: no deviation at all. */
  lemma {:induction false} TallyInRange(equipmentKind: string, sensors: seq<Sensor>, reading: Value)
    requires forall s :: s in sensors && s.normalRange.Some? ==>
      SensorValue(equipmentKind, s, reading) == Null || InRange(SensorValue(equipmentKind, s, reading), s.normalRange.value)
    ensures Tally(equipmentKind, sensors, reading).score == 0.0
    decreases |sensors|
  {
    if |sensors| > 0 {
      var init := sensors[..|sensors| - 1];
      assert forall s :: s in init ==> s in sensors;
      assert sensors[|sensors| - 1] in sensors;
      TallyInRange(equipmentKind, init, reading);
    }
  }

  /**
   * `s` is counted for both readings or for neither, and deviates under
   * `reading'` at least as much as under `reading`.
   */
  predicate DeviatesMore(equipmentKind: string, s: Sensor, reading: Value, reading': Value) {
    var v, v' := SensorValue(equipmentKind, s, reading), SensorValue(equipmentKind, s, reading');
    Checked(s, v) == Checked(s, v') && (Checked(s, v) ==> Deviation(v, s.normalRange.value) <= Deviation(v', s.normalRange.value))
  }

  /** Larger deviations on every sensor give a larger sum over the same count. */
  lemma {:induction false} TallyMonotone(equipmentKind: string, sensors: seq<Sensor>, reading: Value, reading': Value)
    requires forall s :: s in sensors ==> DeviatesMore(equipmentKind, s, reading, reading')
    ensures Tally(equipmentKind, sensors, reading').checked == Tally(equipmentKind, sensors, reading).checked
    ensures Tally(equipmentKind, sensors, reading).score <= Tally(equipmentKind, sensors, reading').score
    decreases |sensors|
  {
    if |sensors| > 0 {
      var init := sensors[..|sensors| - 1];
      assert forall s :: s in init ==> s in sensors;
      assert sensors[|sensors| - 1] in sensors;
      TallyMonotone(equipmentKind, init, reading, reading');
    }
  }

  /** The sensor penalty: the mean deviation of the counted sensors, weighted by 40. */
  function SensorPenalty(e: Equipment, reading: Value): (p: real)
    ensures p <= 40.0
    ensures !Truthy(reading) || e.sensors.None? ==> p == 0.0
  {
    if Truthy(reading) && e.sensors.Some? then
      var t := Tally(e.kind, e.sensors.value, reading);
      if t.checked > 0 then
        TallyBounds(e.kind, e.sensors.value, reading);
        AtMostOne(t.score, t.checked as real);
        t.score / t.checked as real * 40.0
      else 0.0
    else 0.0
  }

  /** A reading that deviates more on every sensor never lowers the sensor penalty. */
  lemma SensorPenaltyMonotone(e: Equipment, reading: Value, reading': Value)
    requires Truthy(reading) && Truthy(reading')
    requires e.sensors.Some? ==> forall s :: s in e.sensors.value ==> DeviatesMore(e.kind, s, reading, reading')
    ensures SensorPenalty(e, reading) <= SensorPenalty(e, reading')
  {
    if e.sensors.Some? {
      var t, t' := Tally(e.kind, e.sensors.value, reading), Tally(e.kind, e.sensors.value, reading');
      TallyMonotone(e.kind, e.sensors.value, reading, reading');
      if t.checked > 0 {
        DivMonotone(t.score, t'.score, t.checked as real);
      }
    }
  }

  lemma AtMostOne(a: real, b: real)
    requires a <= b && b > 0.0
    ensures a / b <= 1.0
  {
    DivMonotone(a, b, b);
  }

  lemma AtLeastZero(a: real, b: real)
    requires 0.0 <= a && b > 0.0
    ensures a / b >= 0.0
  {
    DivMonotone(0.0, a, b);
  }

  /** With ordered ranges, the sensor penalty is never negative. */
  lemma SensorPenaltyNonNegative(e: Equipment, reading: Value)
    requires e.sensors.Some? ==> forall s :: s in e.sensors.value && s.normalRange.Some? ==> s.normalRange.value.min <= s.normalRange.value.max
    ensures SensorPenalty(e, reading) >= 0.0
  {
    if Truthy(reading) && e.sensors.Some? {
      var t := Tally(e.kind, e.sensors.value, reading);
      TallyBounds(e.kind, e.sensors.value, reading);
      if t.checked > 0 {
        AtLeastZero(t.score, t.checked as real);
      }
    }
  }

  /** Readings all inside their ranges cost nothing. */
  lemma SensorPenaltyInRange(e: Equipment, reading: Value)
    requires e.sensors.Some? ==> forall s :: s in e.sensors.value && s.normalRange.Some? ==>
      SensorValue(e.kind, s, reading) == Null || InRange(SensorValue(e.kind, s, reading), s.normalRange.value)
    ensures SensorPenalty(e, reading) == 0.0
  {
    if Truthy(reading) && e.sensors.Some? {
      TallyInRange(e.kind, e.sensors.value, reading);
    }
  }

  /**
   * The empty reading `{}` that stands in for a missing one: pressure and
   * temperature sensors read `undefined`, which is counted but compares
   * false, and flow sensors read `null`; no penalty results.
   */
  lemma EmptyReadingNoPenalty(e: Equipment)
    ensures SensorPenalty(e, Obj(map[])) == 0.0
  {
    if e.sensors.Some? {
      forall s | s in e.sensors.value && s.normalRange.Some?
        ensures SensorValue(e.kind, s, Obj(map[])) == Null || InRange(SensorValue(e.kind, s, Obj(map[])), s.normalRange.value)
      {
        var v := SensorValue(e.kind, s, Obj(map[]));
        assert v == Undef || v == Null;
      }
      SensorPenaltyInRange(e, Obj(map[]));
    }
  }

  // ---------------------------------------------------------------------------
  // The health score
  // ---------------------------------------------------------------------------

  /** The score before clamping; the four caps leave at least 12.5 of 100. */
  function RawHealth(e: Equipment, reading: Value, clock: Clock): (h: real)
    ensures h >= 12.5
  {
    100.0 - RecencyPenalty(e, clock.now) - AgePenalty(e, clock.now)
      - HistoryPenalty(e, clock.yearAgo) - SensorPenalty(e, reading)
  }

  /** Dates in the past and ordered ranges: nothing raises the score above 100. */
  lemma RawHealthAtMost100(e: Equipment, reading: Value, clock: Clock)
    requires e.lastMaintenance.Some? ==> e.lastMaintenance.value <= clock.now
    requires e.installation.Some? ==> e.installation.value <= clock.now
    requires e.sensors.Some? ==> forall s :: s in e.sensors.value && s.normalRange.Some? ==> s.normalRange.value.min <= s.normalRange.value.max
    ensures RawHealth(e, reading, clock) <= 100.0
  {
    SensorPenaltyNonNegative(e, reading);
  }

  /** `Math.max(0, Math.min(100, h))`. */
  function Clamp(h: real): (r: real)
    ensures 0.0 <= r <= 100.0
    ensures 0.0 <= h <= 100.0 ==> r == h
  {
    Max(0.0, Min(100.0, h))
  }

  /** The clamped health score. */
  function Health(e: Equipment, reading: Value, clock: Clock): (h: real)
    ensures 12.5 <= h <= 100.0
  {
    Clamp(RawHealth(e, reading, clock))
  }

  lemma ClampMonotone(g: real, h: real)
    requires g <= h
    ensures Clamp(g) <= Clamp(h)
  {
  }

  /** An earlier last service, all else equal, never raises the health score. */
  lemma HealthOverdue(e: Equipment, reading: Value, clock: Clock, t: int, t': int)
    requires t' <= t
    ensures Health(e.(lastMaintenance := Some(t')), reading, clock) <= Health(e.(lastMaintenance := Some(t)), reading, clock)
  {
    RecencyMonotone(e, t, t', clock.now, clock.now);
    ClampMonotone(RawHealth(e.(lastMaintenance := Some(t')), reading, clock), RawHealth(e.(lastMaintenance := Some(t)), reading, clock));
  }

  /** An earlier installation, all else equal, never raises the health score. */
  lemma HealthOlder(e: Equipment, reading: Value, clock: Clock, t: int, t': int)
    requires t' <= t
    ensures Health(e.(installation := Some(t')), reading, clock) <= Health(e.(installation := Some(t)), reading, clock)
  {
    AgeMonotone(e, t, t', clock.now, clock.now);
    ClampMonotone(RawHealth(e.(installation := Some(t')), reading, clock), RawHealth(e.(installation := Some(t)), reading, clock));
  }

  /** A later clock, with the same year-ago cut-off, never raises the health score. */
  lemma HealthLater(e: Equipment, reading: Value, now: int, now': int, yearAgo: int)
    requires now <= now'
    ensures Health(e, reading, Clock(now', yearAgo)) <= Health(e, reading, Clock(now, yearAgo))
  {
    if e.lastMaintenance.Some? {
      var t := e.lastMaintenance.value;
      assert e.(lastMaintenance := Some(t)) == e;
      RecencyMonotone(e, t, t, now, now');
    }
    if e.installation.Some? {
      var t := e.installation.value;
      assert e.(installation := Some(t)) == e;
      AgeMonotone(e, t, t, now, now');
    }
    ClampMonotone(RawHealth(e, reading, Clock(now', yearAgo)), RawHealth(e, reading, Clock(now, yearAgo)));
  }

  /** A reading that deviates more on every sensor, all else equal, never raises the health score. */
  lemma HealthDeviates(e: Equipment, reading: Value, reading': Value, clock: Clock)
    requires Truthy(reading) && Truthy(reading')
    requires e.sensors.Some? ==> forall s :: s in e.sensors.value ==> DeviatesMore(e.kind, s, reading, reading')
    ensures Health(e, reading', clock) <= Health(e, reading, clock)
  {
    SensorPenaltyMonotone(e, reading, reading');
    ClampMonotone(RawHealth(e, reading', clock), RawHealth(e, reading, clock));
  }

  /** An emergency in place of a lesser intervention never raises the health score. */
  lemma EscalateHealth(e: Equipment, reading: Value, clock: Clock, i: nat)
    requires e.history.Some? && i < |e.history.value| && e.history.value[i].kind != Emergency
    ensures var evs := e.history.value;
            Health(e.(history := Some(evs[i := evs[i].(kind := Emergency)])), reading, clock) <= Health(e, reading, clock)
  {
    EscalatePenalty(e, i, clock.yearAgo);
  }

  // ---------------------------------------------------------------------------
  // The prediction
  // ---------------------------------------------------------------------------

  datatype Risk = Low | Moderate | High | Critical

  /** The tier of a health score: 80, 60 and 40 are the lower bounds of the upper three. */
  function RiskLevel(h: real): (r: Risk)
    ensures r == Low <==> h >= 80.0
    ensures r == Moderate <==> 60.0 <= h < 80.0
    ensures r == High <==> 40.0 <= h < 60.0
    ensures r == Critical <==> h < 40.0
  {
    if h >= 80.0 then Low
    else if h >= 60.0 then Moderate
    else if h >= 40.0 then High
    else Critical
  }

  /** The `risk_level` string. */
  function RiskName(r: Risk): (s: string)
    ensures r == Moderate ==> s == "moderate"
  {
    match r
    case Low => "low"
    case Moderate => "moderate"
    case High => "high"
    case Critical => "critical"
  }

  /** The four names are distinct, so the tier can be read back from its name. */
  lemma RiskNameInjective(a: Risk, b: Risk)
    requires RiskName(a) == RiskName(b)
    ensures a == b
  {
  }

  /** `maintenance_prediction`. */
  datatype Prediction = Prediction(daysToMaintenance: int, risk: Risk, nextMaintenance: int, confidence: real)

  /** What `calculateHealthScore` returns. */
  datatype Assessment = Assessment(healthScore: real, prediction: Prediction)

  /** The health score on a 0-10 scale, in steps of 2/3. */
  function Normalized(h: real): real {
    Round(h / 100.0 * 10.0 * 1.5) as real / 1.5
  }

  /** 180 days at full health, rounded to whole days. */
  function DaysToMaintenance(h: real): int {
    Round(h / 100.0 * 180.0)
  }

  /** The confidence of a prediction: 0.7 and up to 0.1 for each source of evidence. */
  function Confidence(e: Equipment, reading: Value, now: int): (c: real)
    ensures c <= 1.0
    ensures (e.installation.Some? ==> e.installation.value <= now) ==> c >= 0.7
  {
    Min(0.7 + HistoryConfidence(e) + SensorConfidence(e, reading) + AgeConfidence(e, now), 1.0)
  }

  /** Two hundredths per history entry, up to 0.1. */
  function HistoryConfidence(e: Equipment): (c: real)
    ensures 0.0 <= c <= 0.1
    ensures e.history.Some? && |e.history.value| >= 5 ==> c == 0.1
  {
    if e.history.Some? && |e.history.value| > 0 then Min(|e.history.value| as real * 0.02, 0.1) else 0.0
  }

  /** Half a hundredth per field of the reading, up to 0.1, when the equipment has sensors. */
  function SensorConfidence(e: Equipment, reading: Value): (c: real)
    ensures 0.0 <= c <= 0.1
    ensures e.sensors.Some? && Truthy(reading) && KeyCount(reading) >= 20 ==> c == 0.1
  {
    if e.sensors.Some? && Truthy(reading) then Min(KeyCount(reading) as real * 0.005, 0.1) else 0.0
  }

  /** A hundredth per year of 365 days since installation, up to 0.1. */
  function AgeConfidence(e: Equipment, now: int): (c: real)
    ensures c <= 0.1
    ensures e.installation.Some? && e.installation.value <= now ==> c >= 0.0
    ensures e.installation.None? ==> c == 0.0
  {
    match e.installation
    case None => 0.0
    case Some(t) =>
      var years := (now - t) as real / (MsPerDay * 365) as real;
      assert t <= now ==> years >= 0.0 by {
        if t <= now { AtLeastZero((now - t) as real, (MsPerDay * 365) as real); }
      }
      Min(years * 0.01, 0.1)
  }

  /** Five history entries, twenty reading fields and ten years of age give full confidence. */
  lemma FullConfidence(e: Equipment, reading: Value, now: int)
    requires e.history.Some? && |e.history.value| >= 5
    requires e.sensors.Some? && Truthy(reading) && KeyCount(reading) >= 20
    requires e.installation.Some? && now - e.installation.value >= MsPerDay * 3650
    ensures Confidence(e, reading, now) == 1.0
  {
    var q := (now - e.installation.value) as real / (MsPerDay * 365) as real;
    assert q >= 10.0 by {
      DivMonotone((MsPerDay * 3650) as real, (now - e.installation.value) as real, (MsPerDay * 365) as real);
      MulDiv(10.0, (MsPerDay * 365) as real);
      assert (MsPerDay * 3650) as real == 10.0 * (MsPerDay * 365) as real;
    }
  }

  /**
   * The assessment: the clamped health score, on a 0-10 scale, the days to
   * the next service, the tier, the date of the next service and the
   * confidence.
   */
  function AssessmentOf(e: Equipment, reading: Value, clock: Clock): (a: Assessment)
    ensures 4.0 / 3.0 <= a.healthScore <= 10.0
    ensures 23 <= a.prediction.daysToMaintenance <= 180
    ensures a.prediction.nextMaintenance == clock.now + a.prediction.daysToMaintenance * MsPerDay
    ensures a.prediction.risk == RiskLevel(Health(e, reading, clock))
    ensures a.prediction.confidence == Confidence(e, reading, clock.now)
  {
    var h := Health(e, reading, clock);
    ScaleBounds(h);
    Assemble(h, clock.now, Confidence(e, reading, clock.now))
  }

  /** The assessment of a clamped health score `h` made at `now`. */
  function Assemble(h: real, now: int, confidence: real): Assessment {
    var days := DaysToMaintenance(h);
    Assessment(Normalized(h), Prediction(days, RiskLevel(h), now + days * MsPerDay, confidence))
  }

  /** A health score of at least 12.5 keeps 23 days and a 4/3 score at the least. */
  lemma ScaleBounds(h: real)
    requires 12.5 <= h <= 100.0
    ensures 23 <= DaysToMaintenance(h) <= 180
    ensures 4.0 / 3.0 <= Normalized(h) <= 10.0
  {
    var x := h / 100.0 * 180.0;
    assert 22.5 <= x <= 180.0;
    RoundBounds(x, 22, 180);
    assert Round(x) as real > 22.0;
    var y := h / 100.0 * 10.0 * 1.5;
    assert 1.875 <= y <= 15.0;
    RoundBounds(y, 1, 15);
    assert Round(y) as real > 1.0;
    var k := Round(y);
    assert 2 <= k <= 15;
    assert k as real / 1.5 >= 2.0 / 1.5;
  }

  /** A lower health score never leaves more days to the next service. */
  lemma DaysMonotone(g: real, h: real)
    requires g <= h
    ensures DaysToMaintenance(g) <= DaysToMaintenance(h)
    ensures Normalized(g) <= Normalized(h)
  {
    RoundMonotone(g / 100.0 * 180.0, h / 100.0 * 180.0);
    RoundMonotone(g / 100.0 * 10.0 * 1.5, h / 100.0 * 10.0 * 1.5);
  }

  /**
   * A worked case: installed five years ago, serviced 90 days ago on a
   * 180-day interval, two corrective interventions out of two in the last
   * year, and one pressure sensor reading 20% above the top of its range.
   * The penalties are 6.25, 7.5, 10 and 4, so the score is 72.25: a
   * moderate risk with 130 days to the next service.
   */
  lemma WorkedCase(now: int, yearAgo: int)
    requires yearAgo <= now - 20 * MsPerDay
    ensures var e := Equipment("E1", "extruder", Num(200.0), Some(now - 90 * MsPerDay), Some(now - 1825 * MsPerDay),
                               Some([Event(Some(now - 10 * MsPerDay), Corrective), Event(Some(now - 20 * MsPerDay), Corrective)]),
                               Some([Sensor("pressure", Some(Range(0.0, 100.0)))]));
            var reading := Obj(map[ExtruderPressure := Num(120.0)]);
            var clock := Clock(now, yearAgo);
            Health(e, reading, clock) == 72.25 &&
            AssessmentOf(e, reading, clock).prediction.risk == Moderate &&
            AssessmentOf(e, reading, clock).prediction.daysToMaintenance == 130
  {
    var evs := [Event(Some(now - 10 * MsPerDay), Corrective), Event(Some(now - 20 * MsPerDay), Corrective)];
    var sensors := [Sensor("pressure", Some(Range(0.0, 100.0)))];
    var e := Equipment("E1", "extruder", Num(200.0), Some(now - 90 * MsPerDay), Some(now - 1825 * MsPerDay), Some(evs), Some(sensors));
    var reading := Obj(map[ExtruderPressure := Num(120.0)]);
    var clock := Clock(now, yearAgo);
    assert ElapsedDays(now, now - 90 * MsPerDay) == 90;
    assert ElapsedDays(now, now - 1825 * MsPerDay) == 1825;
    assert RecencyPenalty(e, now) == 6.25;
    assert AgePenalty(e, now) == 7.5;
    assert RecentEvents(evs[1..], yearAgo) == evs[1..];
    assert RecentEvents(evs, yearAgo) == evs;
    assert CountKind(evs[1..], Emergency) == 0 && CountKind(evs[1..], Corrective) == 1;
    assert Weight(evs) == 2;
    assert HistoryPenalty(e, yearAgo) == 10.0;
    assert SensorValue(e.kind, sensors[0], reading) == Num(120.0);
    assert Deviation(Num(120.0), Range(0.0, 100.0)) == 0.1;
    assert sensors[..0] == [];
    assert Tally(e.kind, sensors, reading) == SensorTally(0.1, 1);
    assert SensorPenalty(e, reading) == 4.0;
    assert Health(e, reading, clock) == 72.25;
    assert Round(72.25 / 100.0 * 180.0) == 130;
  }

  // ---------------------------------------------------------------------------
  // The imperative scorer
  // ---------------------------------------------------------------------------

  /** The `forEach` over the sensors. */
  method SensorLoop(equipmentKind: string, sensors: seq<Sensor>, reading: Value) returns (sensorScore: real, sensorsChecked: nat)
    ensures SensorTally(sensorScore, sensorsChecked) == Tally(equipmentKind, sensors, reading)
  {
    sensorScore, sensorsChecked := 0.0, 0;
    var i := 0;
    while i < |sensors|
      invariant 0 <= i <= |sensors|
      invariant SensorTally(sensorScore, sensorsChecked) == Tally(equipmentKind, sensors[..i], reading)
    {
      var sensor := sensors[i];
      var value := SensorValue(equipmentKind, sensor, reading);
      if value != Null && sensor.normalRange.Some? {
        sensorsChecked := sensorsChecked + 1;
        sensorScore := sensorScore + Deviation(value, sensor.normalRange.value);
      }
      assert sensors[..i + 1][..i] == sensors[..i];
      i := i + 1;
    }
    assert sensors[..i] == sensors;
  }

  /** `calculateConfidenceScore`. */
  method CalculateConfidenceScore(e: Equipment, reading: Value, now: int) returns (c: real)
    ensures c == Confidence(e, reading, now)
  {
    c := 0.7;
    if e.history.Some? && |e.history.value| > 0 {
      c := c + Min(|e.history.value| as real * 0.02, 0.1);
    }
    assert c == 0.7 + HistoryConfidence(e);
    if e.sensors.Some? && Truthy(reading) {
      c := c + Min(KeyCount(reading) as real * 0.005, 0.1);
    }
    assert c == 0.7 + HistoryConfidence(e) + SensorConfidence(e, reading);
    if e.installation.Some? {
      var ageInYears := (now - e.installation.value) as real / (MsPerDay * 365) as real;
      c := c + Min(ageInYears * 0.01, 0.1);
    }
    assert c == 0.7 + HistoryConfidence(e) + SensorConfidence(e, reading) + AgeConfidence(e, now);
    c := Min(c, 1.0);
  }

  /** Factor 1 of `calculateHealthScore`. */
  method RecencyFactor(e: Equipment, now: int) returns (penalty: real)
    ensures penalty == RecencyPenalty(e, now)
  {
    penalty := 0.0;
    if e.lastMaintenance.Some? {
      var days := (now - e.lastMaintenance.value) / MsPerDay;
      var interval := Interval(e.powerRating);
      var factor := Min(days as real / interval, 1.0) * 0.5;
      penalty := factor * 25.0;
    }
  }

  /** Factor 2 of `calculateHealthScore`. */
  method AgeFactor(e: Equipment, now: int) returns (penalty: real)
    ensures penalty == AgePenalty(e, now)
  {
    penalty := 0.0;
    if e.installation.Some? {
      var ageInDays := (now - e.installation.value) / MsPerDay;
      var ageInYears := ageInDays as real / 365.0;
      penalty := Min(ageInYears / 10.0, 1.0) * 15.0;
    }
  }

  /** Factor 3 of `calculateHealthScore`. */
  method HistoryFactor(e: Equipment, yearAgo: int) returns (penalty: real)
    ensures penalty == HistoryPenalty(e, yearAgo)
  {
    penalty := 0.0;
    if e.history.Some? && |e.history.value| > 0 {
      var recent := RecentEvents(e.history.value, yearAgo);
      var emergencies := CountKind(recent, Emergency);
      var correctives := CountKind(recent, Corrective);
      var n := if |recent| == 0 then 1 else |recent|;
      var severity := (emergencies * 3 + correctives) as real / n as real;
      assert severity == Severity(e.history.value, yearAgo);
      penalty := Min(severity * 10.0, 20.0);
    }
  }

  /** Factor 4 of `calculateHealthScore`. */
  method SensorFactor(e: Equipment, reading: Value) returns (penalty: real)
    ensures penalty == SensorPenalty(e, reading)
  {
    penalty := 0.0;
    if Truthy(reading) && e.sensors.Some? {
      var sensorScore, sensorsChecked := SensorLoop(e.kind, e.sensors.value, reading);
      if sensorsChecked > 0 {
        var avgDeviation := sensorScore / sensorsChecked as real;
        penalty := avgDeviation * 40.0;
      }
    }
  }

  /** `calculateHealthScore`: the four penalties taken in turn from 100. */
  method CalculateHealthScore(e: Equipment, reading: Value, clock: Clock) returns (a: Assessment)
    ensures a == AssessmentOf(e, reading, clock)
  {
    var healthScore := 100.0;
    var penalty := RecencyFactor(e, clock.now);
    healthScore := healthScore - penalty;
    penalty := AgeFactor(e, clock.now);
    healthScore := healthScore - penalty;
    penalty := HistoryFactor(e, clock.yearAgo);
    healthScore := healthScore - penalty;
    penalty := SensorFactor(e, reading);
    healthScore := healthScore - penalty;
    assert healthScore == RawHealth(e, reading, clock);
    healthScore := Max(0.0, Min(100.0, healthScore));
    var days := DaysToMaintenance(healthScore);
    var confidence := CalculateConfidenceScore(e, reading, clock.now);
    a := Assessment(Normalized(healthScore), Prediction(days, RiskLevel(healthScore), clock.now + days * MsPerDay, confidence));
  }

  // ---------------------------------------------------------------------------
  // predictMaintenance and processBatch
  // ---------------------------------------------------------------------------

  /** The equipment document spread into the result, with its assessment alongside. */
  datatype Predicted = Predicted(equipment: Equipment, healthScore: real, prediction: Prediction)

  /** The prediction for a document that is present. */
  function Predict(eq: Equipment, reading: Value, clock: Clock): (r: Predicted)
    ensures r.equipment == eq
    ensures 4.0 / 3.0 <= r.healthScore <= 10.0
    ensures 23 <= r.prediction.daysToMaintenance <= 180
    ensures r.prediction.nextMaintenance == clock.now + r.prediction.daysToMaintenance * MsPerDay
    ensures r.prediction.risk == RiskLevel(Health(eq, reading, clock))
  {
    var a := AssessmentOf(eq, reading, clock);
    Predicted(eq, a.healthScore, a.prediction)
  }

  /** `predictMaintenance`: `null` for a missing document. */
  function PredictMaintenance(e: Option<Equipment>, reading: Value, clock: Clock): (r: Option<Predicted>)
    ensures r.None? <==> e.None?
    ensures r.Some? ==> r.value.equipment == e.value
  {
    match e
    case None => None
    case Some(eq) => Some(Predict(eq, reading, clock))
  }

  /** `sensorDataMap[id] || {}`. */
  function ReadingFor(sensorMap: map<string, Value>, id: string): (v: Value)
    ensures Truthy(v)
    ensures id !in sensorMap ==> v == Obj(map[])
    ensures id in sensorMap && Truthy(sensorMap[id]) ==> v == sensorMap[id]
  {
    var v := if id in sensorMap then sensorMap[id] else Undef;
    if Truthy(v) then v else Obj(map[])
  }

  /**
   * `batch.map(f)` over documents that may be missing: reading a property of
   * a missing document raises a TypeError, which ends the whole map.
   */
  function MapPresent<E, P>(batch: seq<Option<E>>, f: E -> P): (r: Result<seq<P>>)
    ensures r.Err? <==> exists i :: 0 <= i < |batch| && batch[i].None?
    ensures r.Ok? ==> |r.value| == |batch|
    ensures r.Ok? ==> forall i :: 0 <= i < |batch| ==> r.value[i] == f(batch[i].value)
    decreases |batch|
  {
    if |batch| == 0 then Ok([])
    else
      match batch[0]
      case None => Err("TypeError: cannot read property '_id'")
      case Some(x) =>
        match MapPresent(batch[1..], f)
        case Err(m) =>
          assert exists i :: 0 <= i < |batch| && batch[i].None? by {
            var j :| 0 <= j < |batch| - 1 && batch[1..][j].None?;
            assert batch[j + 1].None?;
          }
          Err(m)
        case Ok(rest) =>
          var r := [f(x)] + rest;
          assert forall i :: 1 <= i < |batch| ==> r[i] == rest[i - 1] && batch[i] == batch[1..][i - 1];
          Ok(r)
  }

  /**
   * `processBatch`: `predictMaintenance` on every document, in order, each
   * with its own reading or `{}`.
   */
  function ProcessBatch(batch: seq<Option<Equipment>>, sensorMap: map<string, Value>, clock: Clock): (r: Result<seq<Predicted>>)
    ensures r.Err? <==> exists i :: 0 <= i < |batch| && batch[i].None?
    ensures r.Ok? ==> |r.value| == |batch|
    ensures r.Ok? ==> forall i :: 0 <= i < |batch| ==>
      Some(r.value[i]) == PredictMaintenance(batch[i], ReadingFor(sensorMap, batch[i].value.id), clock)
  {
    MapPresent(batch, (eq: Equipment) => Predict(eq, ReadingFor(sensorMap, eq.id), clock))
  }
}
