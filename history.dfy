/**
 * The history window of the anomaly batch driver: the plausibility gate on
 * `total_output`, the timestamp key used to drop in-run records that the
 * database already holds, and the merge that keeps the last 100 records.
 */
module History {
  import opened Wrappers
  import opened Strings
  import opened Values
  import opened Access

  /** The throughput field every gate reads. */
  const TotalOutput: string := "total_output"

  /** A throughput that is present, not NaN, above 0 and at most 1000. */
  predicate PlausibleOutput(v: Value) {
    var t := ToNumber(v);
    t.Some? && 0.0 < t.value <= 1000.0
  }

  /**
   * The plausibility gate on a record's `total_output` (read as its own
   * field: see `PlausibleIsGate` for the path read the gate performs).
   */
  predicate Plausible(d: Value) {
    PlausibleOutput(Field(d, TotalOutput))
  }

  /** `total_output` is neither an array index nor `length`, and holds no path separator. */
  lemma TotalOutputIsPlain()
    ensures Free(TotalOutput, {'.', '['})
    ensures CanonicalIndex(TotalOutput).None? && TotalOutput != "length"
  {
    assert !IsDigit(TotalOutput[0]);
  }

  /** Reading `total_output` of a record is reading its own field. */
  lemma TotalOutputIsField(d: Value)
    ensures GetNestedValue(d, TotalOutput) == Field(d, TotalOutput)
  {
    TotalOutputIsPlain();
    PlainKey(d, TotalOutput);
    FieldIsPlainGet(d, TotalOutput);
  }

  /** The gate as the source states it: `getNestedValue(d, 'total_output')` is plausible. */
  lemma PlausibleIsGate(d: Value)
    ensures Plausible(d) <==> PlausibleOutput(GetNestedValue(d, TotalOutput))
  {
    TotalOutputIsField(d);
  }

  /** Only an object holding a `total_output` field passes the gate. */
  lemma PlausibleIsObject(d: Value)
    requires Plausible(d)
    ensures d.Obj? && TotalOutput in d.fields
  {
    TotalOutputIsField(d);
  }

  /** The gate depends on the `total_output` field alone. */
  lemma PlausibleByField(d: Value, e: Value)
    requires d.Obj? && e.Obj? && TotalOutput in d.fields && TotalOutput in e.fields
    requires d.fields[TotalOutput] == e.fields[TotalOutput]
    ensures Plausible(d) <==> Plausible(e)
  {
    TotalOutputIsField(d);
    TotalOutputIsField(e);
  }

  /**
   * `d.timestamp?.toISOString()`, keyed by the instant it names. `Ok(None)`
   * is `undefined` (no timestamp); `Err` is the TypeError raised when `d`
   * itself is `undefined` or `null`, or when the timestamp is not a Date.
   */
  function TimestampKey(d: Value): (r: Result<Option<int>>)
    ensures r.Err? <==> Get(d, "timestamp").None? || !(Get(d, "timestamp").value in {Undef, Null} || Get(d, "timestamp").value.Time?)
    ensures d.Obj? && "timestamp" in d.fields && d.fields["timestamp"].Time? ==> r == Ok(Some(d.fields["timestamp"].ms))
  {
    match Get(d, "timestamp")
    case None => Err("TypeError: cannot read property 'timestamp'")
    case Some(t) =>
      if t == Undef || t == Null then Ok(None)
      else if t.Time? then Ok(Some(t.ms))
      else Err("TypeError: toISOString is not a function")
  }

  /** `ds.filter(Plausible)`. */
  function PlausibleOnly(ds: seq<Value>): (r: seq<Value>)
    ensures |r| <= |ds|
    ensures forall x :: x in r <==> x in ds && Plausible(x)
    ensures |ds| == 1 ==> r == if Plausible(ds[0]) then ds else []
  {
    if |ds| == 0 then []
    else
      var rest := PlausibleOnly(ds[1..]);
      assert forall x :: x in ds <==> x == ds[0] || x in ds[1..] by {
        assert ds == [ds[0]] + ds[1..];
      }
      if Plausible(ds[0]) then [ds[0]] + rest else rest
  }

  /**
   * Filtering a concatenation filters each part: with the one-record case,
   * this makes `PlausibleOnly` the order-preserving filter, so the count and
   * the order of the database records in the window are fixed.
   */
  lemma {:induction false} PlausibleOnlyAppend(a: seq<Value>, b: seq<Value>)
    ensures PlausibleOnly(a + b) == PlausibleOnly(a) + PlausibleOnly(b)
    decreases |a|
  {
    if |a| == 0 {
      assert a + b == b;
    } else {
      assert (a + b)[0] == a[0] && (a + b)[1..] == a[1..] + b;
      PlausibleOnlyAppend(a[1..], b);
    }
  }

  /** `new Set(ds.map(TimestampKey))`: fails when any key fails. */
  function TimestampKeys(ds: seq<Value>): (r: Result<set<Option<int>>>)
    ensures r.Err? <==> exists x :: x in ds && TimestampKey(x).Err?
    ensures r.Ok? ==> forall k :: k in r.value <==> exists x :: x in ds && TimestampKey(x) == Ok(k)
  {
    if |ds| == 0 then Ok({})
    else
      assert forall x :: x in ds <==> x == ds[0] || x in ds[1..] by {
        assert ds == [ds[0]] + ds[1..];
      }
      match TimestampKey(ds[0])
      case Err(e) => Err(e)
      case Ok(k) =>
        match TimestampKeys(ds[1..])
        case Err(e) => Err(e)
        case Ok(ks) => Ok({k} + ks)
  }

  /**
   * `processed.filter(d => !keys.has(TimestampKey(d)) && Plausible(d))`;
   * the key is computed first, so a record whose key fails makes the
   * whole call fail.
   */
  function UniqueProcessed(processed: seq<Value>, keys: set<Option<int>>): (r: Result<seq<Value>>)
    ensures r.Err? <==> exists x :: x in processed && TimestampKey(x).Err?
    ensures r.Ok? ==> |r.value| <= |processed|
    ensures r.Ok? ==> forall x :: x in r.value <==>
      x in processed && Plausible(x) && TimestampKey(x).Ok? && TimestampKey(x).value !in keys
    ensures |processed| == 1 ==> var k := TimestampKey(processed[0]);
      r == if k.Err? then Err(k.message) else Ok(if k.value !in keys && Plausible(processed[0]) then processed else [])
  {
    if |processed| == 0 then Ok([])
    else
      var d := processed[0];
      assert forall x :: x in processed <==> x == d || x in processed[1..] by {
        assert processed == [d] + processed[1..];
      }
      match TimestampKey(d)
      case Err(e) => Err(e)
      case Ok(k) =>
        match UniqueProcessed(processed[1..], keys)
        case Err(e) => Err(e)
        case Ok(rest) => Ok(if k !in keys && Plausible(d) then [d] + rest else rest)
  }

  /**
   * The filter of a concatenation: the first failing key fails it, otherwise
   * it keeps the records of each part in order. With the one-record case,
   * this fixes the count and order of the in-run records in the window.
   */
  lemma {:induction false} UniqueProcessedAppend(a: seq<Value>, b: seq<Value>, keys: set<Option<int>>)
    ensures var ra, rb := UniqueProcessed(a, keys), UniqueProcessed(b, keys);
            UniqueProcessed(a + b, keys) == if ra.Err? then ra else if rb.Err? then rb else Ok(ra.value + rb.value)
  {
    UniqueIsKeyFilter(a + b, keys);
    UniqueIsKeyFilter(a, keys);
    UniqueIsKeyFilter(b, keys);
    KeyFilterAppend(a, b, TimestampKey, Fresh(keys));
  }

  /** The keep-test of the in-run filter, given a record and its key. */
  function Fresh(keys: set<Option<int>>): (Value, Option<int>) -> bool {
    (d, k) => k !in keys && Plausible(d)
  }

  /**
   * The filter by a key that can fail: `Err` from the first record whose key
   * fails, otherwise the records that `keep` accepts with their keys, in order.
   */
  function KeyFilter<T, K>(ds: seq<T>, key: T -> Result<K>, keep: (T, K) -> bool): Result<seq<T>>
    decreases |ds|
  {
    if |ds| == 0 then Ok([])
    else
      match key(ds[0])
      case Err(e) => Err(e)
      case Ok(k) =>
        match KeyFilter(ds[1..], key, keep)
        case Err(e) => Err(e)
        case Ok(rest) => Ok(if keep(ds[0], k) then [ds[0]] + rest else rest)
  }

  /** The key filter of a concatenation: the first failure, or the two parts kept in order. */
  lemma {:induction false} KeyFilterAppend<T, K>(a: seq<T>, b: seq<T>, key: T -> Result<K>, keep: (T, K) -> bool)
    ensures var ra, rb := KeyFilter(a, key, keep), KeyFilter(b, key, keep);
            KeyFilter(a + b, key, keep) == if ra.Err? then ra else if rb.Err? then rb else Ok(ra.value + rb.value)
    decreases |a|
  {
    if |a| == 0 {
      assert a + b == b;
      var rb := KeyFilter(b, key, keep);
      if rb.Ok? {
        assert [] + rb.value == rb.value;
      }
    } else {
      var ab := a + b;
      assert ab[0] == a[0] && ab[1..] == a[1..] + b;
      KeyFilterAppend(a[1..], b, key, keep);
      var tail, rb := KeyFilter(a[1..], key, keep), KeyFilter(b, key, keep);
      if key(a[0]).Ok? && tail.Ok? && rb.Ok? && keep(a[0], key(a[0]).value) {
        assert [a[0]] + (tail.value + rb.value) == ([a[0]] + tail.value) + rb.value;
      }
    }
  }

  /** The in-run filter is the key filter by timestamp key with the `Fresh` test. */
  lemma {:induction false} UniqueIsKeyFilter(ds: seq<Value>, keys: set<Option<int>>)
    ensures UniqueProcessed(ds, keys) == KeyFilter(ds, TimestampKey, Fresh(keys))
    decreases |ds|
  {
    if |ds| > 0 {
      UniqueIsKeyFilter(ds[1..], keys);
      UniqueProcessedCons(ds, keys);
    }
  }

  /** One step of the filter, as the recursion takes it. */
  lemma UniqueProcessedCons(ds: seq<Value>, keys: set<Option<int>>)
    requires |ds| > 0
    ensures var k, rest := TimestampKey(ds[0]), UniqueProcessed(ds[1..], keys);
            UniqueProcessed(ds, keys) ==
              if k.Err? then Err(k.message)
              else if rest.Err? then rest
              else Ok(if k.value !in keys && Plausible(ds[0]) then [ds[0]] + rest.value else rest.value)
  {
  }

  /** `s.slice(-n)`: the last `n` elements, or all of them. */
  function LastN<T>(s: seq<T>, n: nat): (r: seq<T>)
    ensures |r| == if |s| <= n then |s| else n
    ensures r == s[|s| - |r|..]
  {
    if |s| <= n then s else s[|s| - n..]
  }

  /** Two sequences of plausible records make one. */
  lemma AppendPlausible(a: seq<Value>, b: seq<Value>)
    requires forall x :: x in a ==> Plausible(x)
    requires forall x :: x in b ==> Plausible(x)
    ensures forall x :: x in a + b ==> Plausible(x)
  {
  }

  /** A tail of plausible records is plausible. */
  lemma LastNPlausible(s: seq<Value>, n: nat)
    requires forall x :: x in s ==> Plausible(x)
    ensures forall x :: x in LastN(s, n) ==> Plausible(x)
  {
    var w := LastN(s, n);
    forall x | x in w ensures Plausible(x) {
      var k :| 0 <= k < |w| && w[k] == x;
      assert s[|s| - |w| + k] == x;
    }
  }

  /** The length of the history window. */
  const Window: nat := 100

  /**
   * The history window: the plausible database records followed by the
   * in-run records the database does not already hold (by timestamp) and
   * that pass the gate, of which the last 100 are kept.
   */
  function MergeHistory(db: seq<Value>, processed: seq<Value>): (r: Result<seq<Value>>)
    ensures r.Ok? ==> |r.value| <= Window
    ensures r.Ok? ==> forall x :: x in r.value ==> Plausible(x)
  {
    var hist := PlausibleOnly(db);
    match TimestampKeys(hist)
    case Err(e) => Err(e)
    case Ok(keys) =>
      match UniqueProcessed(processed, keys)
      case Err(e) => Err(e)
      case Ok(unique) =>
        AppendPlausible(hist, unique);
        LastNPlausible(hist + unique, Window);
        Ok(LastN(hist + unique, Window))
  }

  /**
   * The window is the tail of the plausible database records followed by
   * the in-run records whose timestamp the database part lacks.
   */
  lemma MergeHistoryParts(db: seq<Value>, processed: seq<Value>)
    requires MergeHistory(db, processed).Ok?
    ensures var keys := TimestampKeys(PlausibleOnly(db));
            var unique := UniqueProcessed(processed, keys.value);
            keys.Ok? && unique.Ok? &&
            MergeHistory(db, processed).value == LastN(PlausibleOnly(db) + unique.value, Window)
  {
  }

  /**
   * An in-run record in the window is plausible and its timestamp is not
   * the timestamp of any plausible database record.
   */
  lemma InRunPartExcludesDatabase(db: seq<Value>, processed: seq<Value>, x: Value)
    requires MergeHistory(db, processed).Ok?
    requires x in MergeHistory(db, processed).value && x !in db
    ensures x in processed && Plausible(x)
    ensures TimestampKey(x).Ok?
    ensures forall y :: y in db && Plausible(y) ==> TimestampKey(y) != TimestampKey(x)
  {
    var hist := PlausibleOnly(db);
    var keys := TimestampKeys(hist).value;
    var unique := UniqueProcessed(processed, keys).value;
    InTail(hist, unique, x);
    KeysExclude(db, keys, x);
  }

  /** A member of the window that is not a database record is an in-run record. */
  lemma InTail(hist: seq<Value>, unique: seq<Value>, x: Value)
    requires x in LastN(hist + unique, Window) && x !in hist
    ensures x in unique
  {
    var merged := hist + unique;
    var w := LastN(merged, Window);
    var k :| 0 <= k < |w| && w[k] == x;
    assert merged[|merged| - |w| + k] == x;
  }

  /** A key outside the database keys differs from every plausible database record's key. */
  lemma KeysExclude(db: seq<Value>, keys: set<Option<int>>, x: Value)
    requires TimestampKeys(PlausibleOnly(db)) == Ok(keys)
    requires TimestampKey(x).Ok? && TimestampKey(x).value !in keys
    ensures forall y :: y in db && Plausible(y) ==> TimestampKey(y) != TimestampKey(x)
  {
    forall y | y in db && Plausible(y) ensures TimestampKey(y) != TimestampKey(x) {
      assert y in PlausibleOnly(db);
    }
  }

  /** The merge fails exactly when some record's timestamp key fails. */
  lemma MergeHistoryFails(db: seq<Value>, processed: seq<Value>)
    ensures MergeHistory(db, processed).Err? <==>
      (exists x :: x in db && Plausible(x) && TimestampKey(x).Err?) ||
      (exists x :: x in processed && TimestampKey(x).Err?)
  {
  }
}
