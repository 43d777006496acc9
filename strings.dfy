/**
 * The JavaScript string operations the analytics code relies on:
 * `split`, `filter(Boolean)`, `includes`, `replace` with a string pattern,
 * `padStart`, `parseInt` and the conversion of integers to property keys.
 */
module Strings {
  import opened Wrappers

  // ---------------------------------------------------------------------------
  // split
  // ---------------------------------------------------------------------------

  /** `s.split(r)` where `r` matches any one character of `seps`. */
  function SplitOn(s: string, seps: set<char>): (r: seq<string>)
    ensures |r| >= 1
    ensures forall i, j :: 0 <= i < |r| && 0 <= j < |r[i]| ==> r[i][j] !in seps
    decreases |s|
  {
    if |s| == 0 then [""]
    else
      var rest := SplitOn(s[1..], seps);
      if s[0] in seps then [""] + rest
      else [[s[0]] + rest[0]] + rest[1..]
  }

  /** `s.split(c)` for a one-character separator. */
  function Split(s: string, c: char): seq<string> {
    SplitOn(s, {c})
  }

  /** The inverse of `Split`: the pieces glued back with the separator. */
  function Join(parts: seq<string>, c: char): string
    requires |parts| >= 1
    decreases |parts|
  {
    if |parts| == 1 then parts[0] else parts[0] + [c] + Join(parts[1..], c)
  }

  lemma {:induction false} SplitJoin(s: string, c: char)
    ensures Join(Split(s, c), c) == s
    decreases |s|
  {
    if |s| > 0 {
      SplitJoin(s[1..], c);
      var rest := Split(s[1..], c);
      assert Split(s, c) == if s[0] == c then [""] + rest else [[s[0]] + rest[0]] + rest[1..];
      if s[0] != c && |rest| > 1 {
        assert ([[s[0]] + rest[0]] + rest[1..])[1..] == rest[1..];
      }
    }
  }

  /** No separator in `s`. */
  predicate Free(s: string, seps: set<char>) {
    forall i :: 0 <= i < |s| ==> s[i] !in seps
  }

  /** A string without a separator is one piece. */
  lemma {:induction false} SplitOnFree(s: string, seps: set<char>)
    requires Free(s, seps)
    ensures SplitOn(s, seps) == [s]
    decreases |s|
  {
    if |s| > 0 {
      SplitOnFree(s[1..], seps);
      assert [s[0]] + s[1..] == s;
    }
  }

  /** Splitting never brings in a character the string lacks. */
  lemma {:induction false} SplitOnKeepsFree(s: string, seps: set<char>, other: set<char>)
    requires Free(s, other)
    ensures forall i :: 0 <= i < |SplitOn(s, seps)| ==> Free(SplitOn(s, seps)[i], other)
    decreases |s|
  {
    if |s| > 0 {
      SplitOnKeepsFree(s[1..], seps, other);
    }
  }

  /** The first separator ends the first piece. */
  lemma {:induction false} SplitOnFirst(a: string, c: char, b: string, seps: set<char>)
    requires Free(a, seps) && c in seps
    ensures SplitOn(a + [c] + b, seps) == [a] + SplitOn(b, seps)
    decreases |a|
  {
    if |a| == 0 {
      assert a + [c] + b == [c] + b;
      assert ([c] + b)[1..] == b;
    } else {
      var s := a + [c] + b;
      assert s[1..] == a[1..] + [c] + b;
      SplitOnFirst(a[1..], c, b, seps);
      assert [a[0]] + a[1..] == a;
    }
  }

  /** Joining pieces that hold no separator, then splitting, gives the pieces back. */
  lemma {:induction false} JoinSplit(parts: seq<string>, c: char)
    requires |parts| >= 1
    requires forall i :: 0 <= i < |parts| ==> Free(parts[i], {c})
    ensures Split(Join(parts, c), c) == parts
    decreases |parts|
  {
    if |parts| == 1 {
      SplitOnFree(parts[0], {c});
    } else {
      JoinSplit(parts[1..], c);
      SplitOnFirst(parts[0], c, Join(parts[1..], c), {c});
      assert [parts[0]] + parts[1..] == parts;
    }
  }

  // ---------------------------------------------------------------------------
  // filter(Boolean) on an array of strings
  // ---------------------------------------------------------------------------

  /** `parts.filter(Boolean)`: the empty strings removed, order kept. */
  function DropEmpty(parts: seq<string>): (r: seq<string>)
    ensures |r| <= |parts|
    ensures forall i :: 0 <= i < |r| ==> r[i] != "" && r[i] in parts
    ensures forall p :: p in parts && p != "" ==> p in r
    ensures |parts| == 1 ==> r == if parts[0] == "" then [] else parts
  {
    if |parts| == 0 then []
    else if parts[0] == "" then DropEmpty(parts[1..])
    else [parts[0]] + DropEmpty(parts[1..])
  }

  /**
   * Dropping the empty pieces of a concatenation drops them from each part:
   * with the one-piece case, this makes `DropEmpty` the order-preserving
   * filter, multiplicities included.
   */
  lemma {:induction false} DropEmptyAppend(a: seq<string>, b: seq<string>)
    ensures DropEmpty(a + b) == DropEmpty(a) + DropEmpty(b)
    decreases |a|
  {
    if |a| == 0 {
      assert a + b == b;
    } else {
      assert (a + b)[0] == a[0] && (a + b)[1..] == a[1..] + b;
      DropEmptyAppend(a[1..], b);
    }
  }

  // ---------------------------------------------------------------------------
  // includes, replace, padStart
  // ---------------------------------------------------------------------------

  /** `s.includes(sub)`. */
  function Includes(s: string, sub: string): bool
    decreases |s|
  {
    if |sub| > |s| then false
    else if s[..|sub|] == sub then true
    else Includes(s[1..], sub)
  }

  /** A string that lacks some character of `sub` does not include `sub`. */
  lemma {:induction false} IncludesChar(s: string, sub: string, c: char)
    requires c in sub && c !in s
    ensures !Includes(s, sub)
    decreases |s|
  {
    if |sub| <= |s| && s[..|sub|] != sub {
      IncludesChar(s[1..], sub, c);
    }
  }

  /** `s.replace(pat, rep)` with a string pattern: the first occurrence only. */
  function ReplaceFirst(s: string, pat: string, rep: string): (r: string)
    ensures !Includes(s, pat) ==> r == s
    decreases |s|
  {
    if |pat| > |s| then s
    else if s[..|pat|] == pat then rep + s[|pat|..]
    else [s[0]] + ReplaceFirst(s[1..], pat, rep)
  }

  /** `pat` occurs in `s` at position `i`. */
  predicate OccursAt(s: string, pat: string, i: nat) {
    i + |pat| <= |s| && s[i..i + |pat|] == pat
  }

  /** An occurrence in the tail is an occurrence one place further in the string. */
  lemma OccursInTail(s: string, pat: string, j: nat)
    requires |s| > 0
    ensures OccursAt(s[1..], pat, j) <==> OccursAt(s, pat, j + 1)
  {
    if j + |pat| <= |s| - 1 {
      assert s[1..][j..j + |pat|] == s[j + 1..j + 1 + |pat|];
    }
  }

  /** Putting the first character back in front of a split tail. */
  lemma ConsSplit(s: string, rep: string, i: nat, k: nat)
    requires 0 < i && i + k <= |s|
    ensures [s[0]] + (s[1..][..i - 1] + rep + s[1..][i - 1 + k..]) == s[..i] + rep + s[i + k..]
  {
    assert [s[0]] + s[1..][..i - 1] == s[..i];
    assert s[1..][i - 1 + k..] == s[i + k..];
  }

  /** The first occurrence of the pattern, at `i`, is the one replaced. */
  lemma {:induction false} ReplaceFirstAt(s: string, pat: string, rep: string, i: nat)
    requires OccursAt(s, pat, i)
    requires forall j: nat :: j < i ==> !OccursAt(s, pat, j)
    ensures ReplaceFirst(s, pat, rep) == s[..i] + rep + s[i + |pat|..]
    decreases i
  {
    assert s[..|pat|] == s[0..0 + |pat|];
    if i > 0 {
      assert !OccursAt(s, pat, 0);
      var t := s[1..];
      forall j: nat | j < i - 1 ensures !OccursAt(t, pat, j) {
        assert !OccursAt(s, pat, j + 1);
        OccursInTail(s, pat, j);
      }
      OccursInTail(s, pat, i - 1);
      ReplaceFirstAt(t, pat, rep, i - 1);
      assert ReplaceFirst(s, pat, rep) == [s[0]] + ReplaceFirst(t, pat, rep);
      ConsSplit(s, rep, i, |pat|);
    }
  }

  /** `s.padStart(2, '0')`. */
  function PadStart2(s: string): (r: string)
    ensures |r| == if |s| >= 2 then |s| else 2
    ensures r[|r| - |s|..] == s
    ensures forall i :: 0 <= i < |r| - |s| ==> r[i] == '0'
  {
    if |s| >= 2 then s else if |s| == 1 then "0" + s else "00"
  }

  // ---------------------------------------------------------------------------
  // Decimal digits, integers as property keys, parseInt
  // ---------------------------------------------------------------------------

  predicate IsDigit(c: char) {
    '0' <= c <= '9'
  }

  function DigitChar(d: nat): (c: char)
    requires d < 10
    ensures IsDigit(c)
  {
    ['0', '1', '2', '3', '4', '5', '6', '7', '8', '9'][d]
  }

  function DigitValue(c: char): (d: nat)
    requires IsDigit(c)
    ensures d < 10
  {
    (c as int - '0' as int)
  }

  predicate AllDigits(s: string) {
    forall i :: 0 <= i < |s| ==> IsDigit(s[i])
  }

  /** The value of a string of decimal digits. */
  function DigitsValue(s: string): nat
    requires AllDigits(s)
    decreases |s|
  {
    if |s| == 0 then 0 else DigitsValue(s[..|s| - 1]) * 10 + DigitValue(s[|s| - 1])
  }

  /** `String(n)` for a natural number (below the exponent-notation range). */
  function NatToString(n: nat): (r: string)
    ensures |r| >= 1 && AllDigits(r)
    ensures DigitsValue(r) == n
    ensures |r| > 1 ==> r[0] != '0'
    decreases n
  {
    if n < 10 then
      var r := [DigitChar(n)];
      assert r[..0] == [];
      r
    else
      var p := NatToString(n / 10);
      var r := p + [DigitChar(n % 10)];
      assert r[..|r| - 1] == p;
      r
  }

  /** `String(i)` for an integer. */
  function IntToString(i: int): string {
    if i < 0 then "-" + NatToString(-i) else NatToString(i)
  }

  /** The array index named by a property key: a canonical decimal numeral. */
  function CanonicalIndex(k: string): (r: Option<nat>)
    ensures r.Some? ==> k == NatToString(r.value)
  {
    if |k| >= 1 && AllDigits(k) && (|k| == 1 || k[0] != '0') then
      CanonicalNumeral(k);
      Some(DigitsValue(k))
    else None
  }

  lemma {:induction false} CanonicalNumeral(k: string)
    requires |k| >= 1 && AllDigits(k) && (|k| == 1 || k[0] != '0')
    ensures NatToString(DigitsValue(k)) == k
    decreases |k|
  {
    var n := DigitsValue(k);
    if |k| == 1 {
      assert k[..0] == [];
      assert DigitsValue(k[..0]) == 0;
      assert n == DigitValue(k[0]);
      assert [DigitChar(n)] == k;
    } else {
      var p := k[..|k| - 1];
      assert p[0] == k[0];
      assert n == DigitsValue(p) * 10 + DigitValue(k[|k| - 1]);
      CanonicalNumeral(p);
      if |p| > 1 {
        assert DigitsValue(p) >= 10 by { LeadingDigitBound(p); }
      } else {
        assert DigitsValue(p) >= 1 by {
          assert p[..0] == [];
          assert DigitsValue(p) == DigitValue(p[0]);
        }
      }
      assert n / 10 == DigitsValue(p) && n % 10 == DigitValue(k[|k| - 1]);
      assert NatToString(n) == NatToString(n / 10) + [DigitChar(n % 10)];
      assert p + [k[|k| - 1]] == k;
    }
  }

  lemma {:induction false} LeadingDigitBound(p: string)
    requires |p| >= 2 && AllDigits(p) && p[0] != '0'
    ensures DigitsValue(p) >= 10
    decreases |p|
  {
    var q := p[..|p| - 1];
    assert q[0] == p[0];
    if |q| == 1 {
      assert q[..0] == [];
      assert DigitsValue(q) == DigitValue(q[0]) >= 1;
    } else {
      LeadingDigitBound(q);
    }
  }

  /** Printing then reading back an index gives the index. */
  lemma IndexKeyRoundTrip(n: nat)
    ensures CanonicalIndex(NatToString(n)) == Some(n)
  {
  }

  predicate IsJsWhitespace(c: char) {
    c == ' ' || c == '\t' || c == '\n' || c == '\r'
  }

  function TrimStart(s: string): (r: string)
    ensures |r| <= |s|
    decreases |s|
  {
    if |s| > 0 && IsJsWhitespace(s[0]) then TrimStart(s[1..]) else s
  }

  /** The longest prefix of decimal digits. */
  function DigitPrefix(s: string): (r: string)
    ensures AllDigits(r) && |r| <= |s| && r == s[..|r|]
    ensures |r| < |s| ==> !IsDigit(s[|r|])
    decreases |s|
  {
    if |s| > 0 && IsDigit(s[0]) then [s[0]] + DigitPrefix(s[1..]) else ""
  }

  /** `parseInt(s)` in base 10; `None` is NaN. */
  function ParseInt(s: string): Option<int> {
    var t := TrimStart(s);
    var neg := |t| > 0 && t[0] == '-';
    var body := if |t| > 0 && (t[0] == '-' || t[0] == '+') then t[1..] else t;
    var digits := DigitPrefix(body);
    var v: int := DigitsValue(digits);
    if |digits| == 0 then None
    else if neg then Some(-v)
    else Some(v)
  }

  /** A plain numeral is read back as its value. */
  lemma ParseIntNumeral(n: nat)
    ensures ParseInt(NatToString(n)) == Some(n)
  {
    var s := NatToString(n);
    assert TrimStart(s) == s;
    DigitPrefixAll(s);
  }

  lemma {:induction false} DigitPrefixAll(s: string)
    requires AllDigits(s)
    ensures DigitPrefix(s) == s
    decreases |s|
  {
    if |s| > 0 {
      DigitPrefixAll(s[1..]);
      assert [s[0]] + s[1..] == s;
    }
  }
}
