/**
 * The handful of JavaScript built-ins the leaderboard code relies on, with their
 * JavaScript meaning written out: `Array.prototype.slice` / `String.prototype.slice`
 * with negative indices, `toLowerCase`, `includes`, `Array.prototype.filter`, the
 * `||` default on possibly-undefined numbers and strings, integer-to-string
 * conversion, and property lookup on an object literal (which also finds the
 * members every object inherits from `Object.prototype`).
 */
module JsSemantics {
  import opened Wrappers

  function Min(a: int, b: int): int { if a <= b then a else b }
  function Max(a: int, b: int): int { if a >= b then a else b }

  // ---------------------------------------------------------------------------
  // slice

  /** How `slice` turns an argument into a position: negative counts from the end, then clamp to [0, len]. */
  function RelativeIndex(i: int, len: nat): (r: nat)
    ensures r <= len
    ensures 0 <= i ==> r == Min(i, len)
    ensures i < 0 ==> r == Max(len + i, 0)
  {
    if i < 0 then (if len + i < 0 then 0 else len + i)
    else if i < len then i
    else len
  }

  /** `s.slice(start, end)`. */
  function Slice<T>(s: seq<T>, start: int, end: int): (r: seq<T>)
    ensures |r| <= |s|
    ensures 0 <= start <= end ==> r == s[Min(start, |s|)..Min(end, |s|)]
    ensures 0 <= end <= start ==> r == []
  {
    var from := RelativeIndex(start, |s|);
    var to := RelativeIndex(end, |s|);
    if from < to then s[from..to] else []
  }

  /** `s.slice(start)`: the end defaults to the length. */
  function SliceFrom<T>(s: seq<T>, start: int): (r: seq<T>)
    ensures 0 <= start ==> r == s[Min(start, |s|)..]
    ensures start < 0 ==> r == s[Max(|s| + start, 0)..]
  {
    Slice(s, start, |s|)
  }

  // ---------------------------------------------------------------------------
  // strings

  /** `toLowerCase` on one character; only the ASCII letters A-Z are mapped. */
  function LowerChar(c: char): (r: char)
    ensures !('A' <= r <= 'Z')
    ensures 'A' <= c <= 'Z' ==> r as int == c as int + 32
    ensures !('A' <= c <= 'Z') ==> r == c
  {
    if 'A' <= c <= 'Z' then (c as int - 'A' as int + 'a' as int) as char else c
  }

  function ToLower(s: string): (r: string)
    ensures |r| == |s|
    ensures forall i :: 0 <= i < |s| ==> r[i] == LowerChar(s[i])
  {
    seq(|s|, i requires 0 <= i < |s| => LowerChar(s[i]))
  }

  lemma ToLowerIdempotent(s: string)
    ensures ToLower(ToLower(s)) == ToLower(s)
  {
  }

  predicate IsPrefix(p: string, s: string) {
    |p| <= |s| && s[..|p|] == p
  }

  /** `s.includes(sub)`: does `sub` occur in `s` as a contiguous substring? */
  predicate Includes(s: string, sub: string)
    decreases |s|
  {
    IsPrefix(sub, s) || (|s| > 0 && Includes(s[1..], sub))
  }

  /** `sub` occurs in `s` starting at position `i`. */
  predicate OccursAt(s: string, sub: string, i: int) {
    0 <= i && i + |sub| <= |s| && s[i..i + |sub|] == sub
  }

  lemma {:induction false} IncludesHasPosition(s: string, sub: string)
    requires Includes(s, sub)
    ensures exists i :: OccursAt(s, sub, i)
    decreases |s|
  {
    if IsPrefix(sub, s) {
      assert OccursAt(s, sub, 0);
    } else {
      IncludesHasPosition(s[1..], sub);
      var i :| OccursAt(s[1..], sub, i);
      assert s[1..][i..i + |sub|] == s[i + 1..i + 1 + |sub|];
      assert OccursAt(s, sub, i + 1);
    }
  }

  lemma {:induction false} PositionGivesIncludes(s: string, sub: string, i: int)
    requires OccursAt(s, sub, i)
    ensures Includes(s, sub)
    decreases i
  {
    if i == 0 {
      assert IsPrefix(sub, s);
    } else {
      assert s[1..][i - 1..i - 1 + |sub|] == s[i..i + |sub|];
      assert OccursAt(s[1..], sub, i - 1);
      PositionGivesIncludes(s[1..], sub, i - 1);
    }
  }

  /** `Includes` agrees with the position-based definition of a substring. */
  lemma IncludesAt(s: string, sub: string)
    ensures Includes(s, sub) <==> exists i :: OccursAt(s, sub, i)
  {
    if Includes(s, sub) {
      IncludesHasPosition(s, sub);
    }
    forall i | OccursAt(s, sub, i)
      ensures Includes(s, sub)
    {
      PositionGivesIncludes(s, sub, i);
    }
  }

  /** Every string includes the empty string. */
  lemma IncludesEmpty(s: string)
    ensures Includes(s, "")
  {
    assert IsPrefix("", s);
  }

  // ---------------------------------------------------------------------------
  // Array.prototype.filter

  /** `s.filter(keep)`: the elements that satisfy `keep`, in their original order. */
  function Filter<T(!new)>(s: seq<T>, keep: T -> bool): (r: seq<T>)
    ensures |r| <= |s|
  {
    if s == [] then []
    else (if keep(s[0]) then [s[0]] else []) + Filter(s[1..], keep)
  }

  /** The filter keeps every occurrence of an element that satisfies `keep`, and nothing else. */
  lemma {:induction false} FilterCounts<T(!new)>(s: seq<T>, keep: T -> bool)
    ensures forall x :: multiset(Filter(s, keep))[x] == if keep(x) then multiset(s)[x] else 0
  {
    if s != [] {
      FilterCounts(s[1..], keep);
      assert s == [s[0]] + s[1..];
    }
  }

  /** A filter whose predicate fails everywhere on `s` gives the empty sequence. */
  lemma {:induction false} FilterNone<T(!new)>(s: seq<T>, keep: T -> bool)
    requires forall i :: 0 <= i < |s| ==> !keep(s[i])
    ensures Filter(s, keep) == []
  {
    if s != [] {
      var rest := s[1..];
      forall i | 0 <= i < |rest|
        ensures !keep(rest[i])
      {
        assert rest[i] == s[i + 1];
      }
      FilterNone(rest, keep);
      assert Filter(s, keep) == Filter(rest, keep);
    }
  }

  /**
   * When the predicate holds on the first `k` elements and fails on the rest,
   * the filter keeps exactly those `k`, in order.
   */
  lemma {:induction false} FilterPrefix<T(!new)>(s: seq<T>, keep: T -> bool, k: nat)
    requires k <= |s|
    requires forall i :: 0 <= i < k ==> keep(s[i])
    requires forall i :: k <= i < |s| ==> !keep(s[i])
    ensures Filter(s, keep) == s[..k]
  {
    if k == 0 {
      FilterNone(s, keep);
    } else {
      var rest := s[1..];
      forall i | 0 <= i < |rest|
        ensures keep(rest[i]) <==> i < k - 1
      {
        assert rest[i] == s[i + 1];
      }
      FilterPrefix(rest, keep, k - 1);
      assert Filter(s, keep) == [s[0]] + Filter(rest, keep);
      assert [s[0]] + rest[..k - 1] == s[..k];
    }
  }

  // ---------------------------------------------------------------------------
  // `x || default`

  /** A number read from JSON is truthy when present and non-zero. */
  predicate TruthyNumber(x: Option<int>) {
    x.Some? && x.value != 0
  }

  /** `x || default` for a number that may be undefined. */
  function NumberOr(x: Option<int>, default: int): (r: int)
    ensures TruthyNumber(x) ==> r == x.value
    ensures !TruthyNumber(x) ==> r == default
  {
    if TruthyNumber(x) then x.value else default
  }

  /** A string read from JSON is truthy when present and non-empty. */
  predicate TruthyString(x: Option<string>) {
    x.Some? && x.value != ""
  }

  /** `x || default` for a string that may be undefined. */
  function StringOr(x: Option<string>, default: string): (r: string)
    ensures TruthyString(x) ==> r == x.value
    ensures !TruthyString(x) ==> r == default
  {
    if TruthyString(x) then x.value else default
  }

  // ---------------------------------------------------------------------------
  // number to string

  predicate IsDigit(c: char) {
    '0' <= c <= '9'
  }

  predicate AllDigits(s: string) {
    forall i :: 0 <= i < |s| ==> IsDigit(s[i])
  }

  function DigitChar(d: nat): (c: char)
    requires d < 10
    ensures IsDigit(c)
  {
    (d + '0' as int) as char
  }

  function DigitValue(c: char): (d: nat)
    requires IsDigit(c)
    ensures d < 10
  {
    c as int - '0' as int
  }

  /** The decimal digits of `n`, most significant first, without leading zeros. */
  function NatToString(n: nat): (r: string)
    ensures |r| >= 1 && AllDigits(r)
    ensures r[0] == '0' ==> n == 0 && r == "0"
    decreases n
  {
    if n < 10 then [DigitChar(n)] else NatToString(n / 10) + [DigitChar(n % 10)]
  }

  /** `String(n)` for an integral number: an optional minus sign followed by the digits. */
  function NumberToString(n: int): (r: string)
    ensures |r| >= 1
    ensures n < 0 <==> r[0] == '-'
  {
    if n < 0 then "-" + NatToString(-n) else NatToString(n)
  }

  /** Reads back a digit string: the inverse of `NatToString`. */
  function ParseNat(s: string): nat
    requires AllDigits(s)
  {
    if s == [] then 0 else ParseNat(s[..|s| - 1]) * 10 + DigitValue(s[|s| - 1])
  }

  /** Reads back an optionally signed digit string: the inverse of `NumberToString`. */
  function ParseNumber(s: string): int
    requires |s| >= 1
    requires if s[0] == '-' then AllDigits(s[1..]) else AllDigits(s)
  {
    if s[0] == '-' then -(ParseNat(s[1..]) as int) else ParseNat(s)
  }

  lemma {:induction false} NatToStringRoundTrip(n: nat)
    ensures ParseNat(NatToString(n)) == n
    decreases n
  {
    if n >= 10 {
      var r := NatToString(n);
      NatToStringRoundTrip(n / 10);
      assert r[..|r| - 1] == NatToString(n / 10);
    }
  }

  /** Converting an integer to text and reading it back gives the integer. */
  lemma NumberToStringRoundTrip(n: int)
    ensures ParseNumber(NumberToString(n)) == n
  {
    if n < 0 {
      NatToStringRoundTrip(-n);
      assert NumberToString(n)[1..] == NatToString(-n);
    } else {
      NatToStringRoundTrip(n);
    }
  }

  /** A digit string in the form `NatToString` writes: non-empty, with no leading zero. */
  predicate CanonicalDigits(s: string) {
    |s| >= 1 && AllDigits(s) && (s[0] == '0' ==> s == "0")
  }

  /** Every digit string without leading zeros is the one `NatToString` writes for its value. */
  lemma {:induction false} CanonicalIsNatToString(s: string)
    requires CanonicalDigits(s)
    ensures s == NatToString(ParseNat(s))
    ensures s[0] != '0' ==> ParseNat(s) >= 1
    decreases |s|
  {
    if |s| >= 2 {
      var p := s[..|s| - 1];
      assert p[0] == s[0];
      CanonicalIsNatToString(p);
      var n := ParseNat(s);
      assert n / 10 == ParseNat(p) && n % 10 == DigitValue(s[|s| - 1]);
      assert s == p + [s[|s| - 1]];
    }
  }

  /** Two digit strings without leading zeros that read back as the same number are equal. */
  lemma CanonicalDigitsUnique(a: string, b: string)
    requires CanonicalDigits(a) && CanonicalDigits(b)
    requires ParseNat(a) == ParseNat(b)
    ensures a == b
  {
    CanonicalIsNatToString(a);
    CanonicalIsNatToString(b);
  }

  // ---------------------------------------------------------------------------
  // property lookup on an object literal

  /** What `record[key]` yields: an own property, a member inherited from `Object.prototype`, or `undefined`. */
  datatype Property<V> = Own(value: V) | Inherited(name: string) | Undefined

  /** The names every plain object inherits from `Object.prototype`; all of them hold truthy values. */
  const ObjectPrototypeKeys: set<string> := {
    "constructor", "hasOwnProperty", "isPrototypeOf", "propertyIsEnumerable",
    "toLocaleString", "toString", "valueOf", "__proto__",
    "__defineGetter__", "__defineSetter__", "__lookupGetter__", "__lookupSetter__"
  }

  /** `record[key]` on an object literal whose own properties are `record`. */
  function RecordGet<V>(record: map<string, V>, key: string): (p: Property<V>)
    ensures p.Own? <==> key in record
    ensures p.Own? ==> p.value == record[key]
    ensures p.Undefined? <==> key !in record && key !in ObjectPrototypeKeys
  {
    if key in record then Own(record[key])
    else if key in ObjectPrototypeKeys then Inherited(key)
    else Undefined
  }
}
