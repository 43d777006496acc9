/**
 * The structured value accessor `getNestedValue` (backend/ml/anomalyDetection.js
 * and backend/ml/qualityScoring.js hold identical copies): a path such as
 * `materials.extruder_A[2].actual_ratio` is split at `.`, and each segment is
 * either a property name or `name[index]`.
 */
module Access {
  import opened Wrappers
  import opened Strings
  import opened Values

  /**
   * One segment of the reduce. With a `[` in it, the segment is split at `[`
   * and `]`, empty pieces dropped, and the first two pieces are the array key
   * (absent: the key "undefined") and the index given to `parseInt` (absent:
   * NaN). `None` is the TypeError of reading through `undefined` or `null`.
   */
  function Step(current: Value, key: string): Option<Value> {
    if '[' in key then
      var pieces := DropEmpty(SplitOn(key, {'[', ']'}));
      var arrayKey := if |pieces| >= 1 then pieces[0] else "undefined";
      var index := if |pieces| >= 2 then ParseInt(pieces[1]) else None;
      match Get(current, arrayKey)
      case None => None
      case Some(inner) => GetIndex(inner, index)
    else
      Get(current, key)
  }

  /** The reduce over the segments, left to right; `None` once a step has thrown. */
  function Walk(current: Value, keys: seq<string>): Option<Value>
    decreases |keys|
  {
    if |keys| == 0 then Some(current)
    else
      match Step(current, keys[0])
      case None => None
      case Some(next) => Walk(next, keys[1..])
  }

  /** `getNestedValue(obj, path)`: the thrown error is caught and becomes `undefined`. */
  function GetNestedValue(obj: Value, path: string): Value {
    match Walk(obj, Split(path, '.'))
    case None => Undef
    case Some(v) => v
  }

  /** Walking two lists of segments is walking the first, then the second. */
  lemma {:induction false} WalkAppend(v: Value, ks1: seq<string>, ks2: seq<string>)
    ensures Walk(v, ks1 + ks2) == match Walk(v, ks1) case None => None case Some(w) => Walk(w, ks2)
    decreases |ks1|
  {
    if |ks1| > 0 {
      assert (ks1 + ks2)[0] == ks1[0];
      assert (ks1 + ks2)[1..] == ks1[1..] + ks2;
      match Step(v, ks1[0])
      case None =>
      case Some(next) => WalkAppend(next, ks1[1..], ks2);
    } else {
      assert ks1 + ks2 == ks2;
    }
  }

  /** Reading any segment of `undefined` throws. */
  lemma WalkFromUndefined(keys: seq<string>)
    requires |keys| >= 1
    ensures Walk(Undef, keys) == None
  {
  }

  /**
   * A missing intermediate segment: once the first `j` segments resolve to
   * `undefined` and segments remain, the whole path reads as `undefined`.
   */
  lemma MissingSegment(obj: Value, path: string, j: nat)
    requires 0 < j < |Split(path, '.')|
    requires Walk(obj, Split(path, '.')[..j]) == Some(Undef)
    ensures GetNestedValue(obj, path) == Undef
  {
    MissingKey(obj, Split(path, '.'), j);
  }

  /** Once the first `j` of the segments resolve to `undefined`, the next one throws. */
  lemma MissingKey(obj: Value, keys: seq<string>, j: nat)
    requires 0 < j < |keys|
    requires Walk(obj, keys[..j]) == Some(Undef)
    ensures Walk(obj, keys) == None
  {
    var done, rest := keys[..j], keys[j..];
    assert keys == done + rest;
    WalkAppend(obj, done, rest);
    WalkFromUndefined(rest);
  }


  /** A path of plain property names reads them one after the other. */
  lemma PlainPath(obj: Value, names: seq<string>)
    requires |names| >= 1
    requires forall i :: 0 <= i < |names| ==> Free(names[i], {'.', '['})
    ensures GetNestedValue(obj, Join(names, '.')) ==
            match Walk(obj, names) case None => Undef case Some(v) => v
  {
    forall i | 0 <= i < |names| ensures Free(names[i], {'.'}) { }
    JoinSplit(names, '.');
  }

  /** A one-segment plain key is a property read, `undefined` under `undefined`/`null`. */
  lemma PlainKey(obj: Value, key: string)
    requires Free(key, {'.', '['})
    ensures GetNestedValue(obj, key) == match Get(obj, key) case None => Undef case Some(v) => v
  {
    assert Free(key, {'.'});
    SplitOnFree(key, {'.'});
    assert forall i :: 0 <= i < |key| ==> key[i] != '[';
    assert '[' !in key;
    assert Step(obj, key) == Get(obj, key);
    assert Walk(obj, [key]) == match Step(obj, key) case None => None case Some(n) => Walk(n, [key][1..]);
    assert [key][1..] == [];
  }

  /** The pieces of `name[digits]` once split at brackets and emptied of blanks. */
  lemma SegmentPieces(name: string, digits: string)
    requires name != "" && Free(name, {'[', ']'})
    requires digits != "" && Free(digits, {'[', ']'})
    ensures DropEmpty(SplitOn(name + "[" + digits + "]", {'[', ']'})) == [name, digits]
  {
    var key := name + "[" + digits + "]";
    assert key == name + ['['] + (digits + "]");
    SplitOnFirst(name, '[', digits + "]", {'[', ']'});
    assert digits + "]" == digits + [']'] + "";
    SplitOnFirst(digits, ']', "", {'[', ']'});
    assert SplitOn(key, {'[', ']'}) == [name, digits, ""];
    assert [name, digits, ""][1..] == [digits, ""];
    assert [digits, ""][1..] == [""];
    assert [""][1..] == [];
    assert DropEmpty([""]) == [];
    assert DropEmpty([digits, ""]) == [digits] + DropEmpty([""]);
    assert DropEmpty([name, digits, ""]) == [name] + DropEmpty([digits, ""]);
  }

  /** A segment `name[i]` selects element `i` of the array stored at `name`. */
  lemma IndexedSegment(current: Value, name: string, i: nat, es: seq<Value>)
    requires name != "" && Free(name, {'[', ']'})
    requires Get(current, name) == Some(Arr(es)) && i < |es|
    ensures Step(current, name + "[" + NatToString(i) + "]") == Some(es[i])
  {
    var digits := NatToString(i);
    var key := name + "[" + digits + "]";
    assert key[|name|] == '[';
    assert Free(digits, {'[', ']'}) by {
      forall j | 0 <= j < |digits| ensures digits[j] !in {'[', ']'} {
        assert IsDigit(digits[j]);
      }
    }
    SegmentPieces(name, digits);
    ParseIntNumeral(i);
    GetIndexOfArray(es, i);
  }
}
