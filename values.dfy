/**
 * JavaScript values as the analytics code sees them: the plain records that
 * come out of the database or the CSV mapper, with nested objects and arrays,
 * plus the Date objects held in `timestamp` fields.
 */
module Values {
  import opened Wrappers
  import opened Strings

  datatype Value =
    | Undef
    | Null
    | NaN
    | Bool(b: bool)
    | Num(n: real)
    | Str(s: string)
    | Time(ms: int)                    // a valid Date, in milliseconds since the epoch
    | Arr(elems: seq<Value>)
    | Obj(fields: map<string, Value>)

  /** JavaScript truthiness (`if (v)`, `v || d`, `!v`). */
  predicate Truthy(v: Value) {
    match v
    case Undef => false
    case Null => false
    case NaN => false
    case Bool(b) => b
    case Num(x) => x != 0.0
    case Str(s) => s != ""
    case _ => true
  }

  /** The number a value holds; `None` for NaN and for every non-number. */
  function NumberOf(v: Value): (r: Option<real>)
    ensures r.Some? <==> v.Num?
  {
    if v.Num? then Some(v.n) else None
  }

  /**
   * `Number(v)` as `isNaN` and arithmetic apply it to the fields the analytics
   * read: `null` is 0 and a boolean is 0 or 1. `None` is NaN, which the model
   * also uses for strings, Dates, arrays and objects.
   */
  function ToNumber(v: Value): (r: Option<real>)
    ensures v.Num? ==> r == Some(v.n)
    ensures v.Null? ==> r == Some(0.0)
    ensures v.Bool? ==> r == Some(if v.b then 1.0 else 0.0)
    ensures v.Undef? || v.NaN? || v.Obj? ==> r.None?
  {
    match v
    case Num(x) => Some(x)
    case Null => Some(0.0)
    case Bool(b) => Some(if b then 1.0 else 0.0)
    case _ => None
  }

  /**
   * `v[k]` for a string key. `None` is the TypeError that reading a property
   * of `undefined` or `null` raises; primitives other than strings have no
   * own properties.
   */
  function Get(v: Value, k: string): (r: Option<Value>)
    ensures r.None? <==> v.Undef? || v.Null?
    ensures v.Obj? ==> r == Some(if k in v.fields then v.fields[k] else Undef)
  {
    match v
    case Undef => None
    case Null => None
    case Obj(m) => Some(if k in m then m[k] else Undef)
    case Arr(es) =>
      if k == "length" then Some(Num(|es| as real))
      else
        var i := CanonicalIndex(k);
        Some(if i.Some? && i.value < |es| then es[i.value] else Undef)
    case Str(s) =>
      if k == "length" then Some(Num(|s| as real))
      else
        var i := CanonicalIndex(k);
        Some(if i.Some? && i.value < |s| then Str([s[i.value]]) else Undef)
    case _ => Some(Undef)
  }

  /**
   * `v[k]` for a named property: only an object has one; every other
   * value yields `undefined`.
   */
  function Field(v: Value, k: string): (r: Value)
    ensures !v.Obj? || k !in v.fields ==> r == Undef
  {
    if v.Obj? && k in v.fields then v.fields[k] else Undef
  }

  /** For a key that is neither an index nor `length`, `Field` is the property read, `undefined` included. */
  lemma FieldIsPlainGet(v: Value, k: string)
    requires CanonicalIndex(k).None? && k != "length"
    ensures (match Get(v, k) case None => Undef case Some(x) => x) == Field(v, k)
  {
  }

  /** For a key that is neither an index nor `length`, `Field` is the property read. */
  lemma FieldIsGet(v: Value, k: string)
    requires Truthy(v)
    requires k != "length" && (|k| == 0 || !('0' <= k[0] <= '9'))
    ensures Get(v, k) == Some(Field(v, k))
  {
    if v.Arr? || v.Str? {
      assert CanonicalIndex(k).None?;
    }
  }

  /** The property key a number becomes: `String(i)`, or "NaN". */
  function NumberKey(i: Option<int>): string {
    if i.Some? then IntToString(i.value) else "NaN"
  }

  /** `v[i]` for a number index (`parseInt`'s result; `None` is NaN). */
  function GetIndex(v: Value, i: Option<int>): Option<Value> {
    Get(v, NumberKey(i))
  }

  /** A numeric index selects that element of an array. */
  lemma GetIndexOfArray(es: seq<Value>, i: nat)
    requires i < |es|
    ensures GetIndex(Arr(es), Some(i)) == Some(es[i])
  {
    IndexKeyRoundTrip(i);
  }

  /** `Object.keys(v).length` for a value that is not `undefined` or `null`. */
  function KeyCount(v: Value): nat {
    match v
    case Obj(m) => |m|
    case Arr(es) => |es|
    case Str(s) => |s|
    case _ => 0
  }

  /** `{...v}`: the own enumerable properties of `v` copied into a fresh object. */
  function Spread(v: Value): (r: map<string, Value>)
    ensures v.Obj? ==> r == v.fields
    ensures v.Arr? ==> forall i :: 0 <= i < |v.elems| ==> NatToString(i) in r && r[NatToString(i)] == v.elems[i]
  {
    match v
    case Obj(m) => m
    case Arr(es) => map i | 0 <= i < |es| :: NatToString(i) := es[i]
    case Str(s) => map i | 0 <= i < |s| :: NatToString(i) := Str([s[i]])
    case _ => map[]
  }

  /** The numbers among `vs`, in order (`filter(v => typeof v === 'number' && !isNaN(v))`). */
  function Numbers(vs: seq<Value>): (r: seq<real>)
    ensures |r| <= |vs|
    ensures forall x :: x in r <==> Num(x) in vs
    ensures |vs| == 1 ==> r == if vs[0].Num? then [vs[0].n] else []
  {
    if |vs| == 0 then []
    else
      var rest := Numbers(vs[1..]);
      assert forall x :: Num(x) in vs <==> vs[0] == Num(x) || Num(x) in vs[1..] by {
        assert vs == [vs[0]] + vs[1..];
      }
      if vs[0].Num? then [vs[0].n] + rest else rest
  }

  /**
   * The numbers of a concatenation are the numbers of each part, in order:
   * with the one-element case, this pins `Numbers` down, count and order
   * included.
   */
  lemma {:induction false} NumbersAppend(a: seq<Value>, b: seq<Value>)
    ensures Numbers(a + b) == Numbers(a) + Numbers(b)
    decreases |a|
  {
    if |a| == 0 {
      assert a + b == b;
    } else {
      assert (a + b)[0] == a[0] && (a + b)[1..] == a[1..] + b;
      NumbersAppend(a[1..], b);
    }
  }

  /** An array of numbers as a JavaScript array value. */
  function NumArray(xs: seq<real>): (r: Value)
    ensures r.Arr? && |r.elems| == |xs|
    ensures forall i :: 0 <= i < |xs| ==> r.elems[i] == Num(xs[i])
  {
    Arr(seq(|xs|, i requires 0 <= i < |xs| => Num(xs[i])))
  }

  /** A sequence of number values passes the number filter whole. */
  lemma {:induction false} NumbersOfNums(vs: seq<Value>, xs: seq<real>)
    requires |vs| == |xs|
    requires forall i :: 0 <= i < |vs| ==> vs[i] == Num(xs[i])
    ensures Numbers(vs) == xs
    decreases |vs|
  {
    if |vs| > 0 {
      NumbersOfNums(vs[1..], xs[1..]);
      assert Numbers(vs) == [xs[0]] + Numbers(vs[1..]);
      assert [xs[0]] + xs[1..] == xs;
    }
  }

  /** Every element of an array of numbers passes the number filter. */
  lemma NumbersOfNumArray(xs: seq<real>)
    ensures Numbers(NumArray(xs).elems) == xs
  {
    NumbersOfNums(NumArray(xs).elems, xs);
  }

  /** An array of strings as a JavaScript array value. */
  function StrArray(ss: seq<string>): (r: Value)
    ensures r.Arr? && |r.elems| == |ss|
    ensures forall i :: 0 <= i < |ss| ==> r.elems[i] == Str(ss[i])
  {
    Arr(seq(|ss|, i requires 0 <= i < |ss| => Str(ss[i])))
  }
}
