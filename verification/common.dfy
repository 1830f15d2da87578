/** Option and the success/error envelope that the server actions return. */
module Wrappers {

  datatype Option<+T> = None | Some(value: T) {
    /** `value ?? default` */
    function GetOr(default: T): T {
      match this
      case Some(v) => v
      case None => default
    }
  }

  /** `{ success: true, data }` or `{ success: false, error }` */
  datatype ActionResponse<+T> = Success(data: T) | Failure(error: string)

  /** `{ success: true }` or `{ success: false, error }` for actions without data */
  datatype Outcome = Pass | Fail(error: string)
}

/** Exact-arithmetic stand-ins for the JavaScript Math functions the core uses. */
module Numerics {

  /** Math.round: the nearest integer, halves rounded towards +infinity. */
  function Round(x: real): int {
    (x + 0.5).Floor
  }

  /** Math.ceil */
  function Ceil(x: real): int {
    -((-x).Floor)
  }

  function MinR(a: real, b: real): real { if a <= b then a else b }

  function MaxR(a: real, b: real): real { if a >= b then a else b }

  /** Math.pow with a non-negative integer exponent. */
  function Pow(b: real, n: nat): real
    decreases n
  {
    if n == 0 then 1.0 else b * Pow(b, n - 1)
  }

  /** Math.pow with an integer exponent of either sign. */
  function PowInt(b: real, e: int): real
    requires b != 0.0
  {
    if e >= 0 then Pow(b, e) else PowNonZero(b, -e); 1.0 / Pow(b, -e)
  }

  lemma {:induction false} PowNonZero(b: real, n: nat)
    requires b != 0.0
    ensures Pow(b, n) != 0.0
  {
    if n > 0 {
      PowNonZero(b, n - 1);
    }
  }

  lemma RoundIsNearest(x: real)
    ensures x - 0.5 < Round(x) as real <= x + 0.5
  {
  }

  lemma RoundOfInt(n: int)
    ensures Round(n as real) == n
  {
  }

  lemma RoundMonotone(x: real, y: real)
    requires x <= y
    ensures Round(x) <= Round(y)
  {
  }

  lemma RoundBounds(x: real, lo: int, hi: int)
    requires lo as real <= x <= hi as real
    ensures lo <= Round(x) <= hi
  {
    RoundMonotone(lo as real, x);
    RoundMonotone(x, hi as real);
    RoundOfInt(lo);
    RoundOfInt(hi);
  }

  lemma CeilIsLeastAbove(x: real)
    ensures x <= Ceil(x) as real < x + 1.0
  {
  }

  /** A positive base other than 1 never reaches 1 at a positive power. */
  lemma {:induction false} PowAwayFromOne(b: real, n: nat)
    requires b > 0.0 && n >= 1
    ensures Pow(b, n) > 0.0
    ensures b > 1.0 ==> Pow(b, n) > 1.0
    ensures b < 1.0 ==> Pow(b, n) < 1.0
  {
    if n > 1 {
      PowAwayFromOne(b, n - 1);
      var p := Pow(b, n - 1);
      assert Pow(b, n) == b * p;
      if b > 1.0 {
        assert b * p > 1.0 * p;
      } else if b < 1.0 {
        assert b * p < 1.0 * p;
      }
    }
  }

  /** Any positive base has a positive power. */
  lemma {:induction false} PowPositive(b: real, n: nat)
    requires b > 0.0
    ensures Pow(b, n) > 0.0
  {
    if n > 0 {
      PowPositive(b, n - 1);
      assert Pow(b, n) == b * Pow(b, n - 1);
    }
  }
}

/** The string operations of JavaScript that the core relies on. */
module Text {

  /** JavaScript's WhiteSpace and LineTerminator characters (`\s`, and what `trim` strips). */
  predicate IsWhitespace(c: char) {
    c == ' ' || c == '\t' || c == '\n' || c == '\r' || c == '\U{000B}' || c == '\U{000C}'
    || c == '\U{00A0}' || c == '\U{1680}' || ('\U{2000}' <= c <= '\U{200A}')
    || c == '\U{2028}' || c == '\U{2029}' || c == '\U{202F}' || c == '\U{205F}'
    || c == '\U{3000}' || c == '\U{FEFF}'
  }

  /** `String.prototype.trimStart` */
  function TrimStart(s: string): (r: string)
    ensures |r| <= |s| && r == s[|s| - |r|..]
    ensures forall k :: 0 <= k < |s| - |r| ==> IsWhitespace(s[k])
    ensures r != [] ==> !IsWhitespace(r[0])
  {
    if s != [] && IsWhitespace(s[0]) then TrimStart(s[1..]) else s
  }

  /** `String.prototype.trimEnd` */
  function TrimEnd(s: string): (r: string)
    ensures |r| <= |s| && r == s[..|r|]
    ensures forall k :: |r| <= k < |s| ==> IsWhitespace(s[k])
    ensures r != [] ==> !IsWhitespace(r[|r| - 1])
  {
    if s != [] && IsWhitespace(s[|s| - 1]) then TrimEnd(s[..|s| - 1]) else s
  }

  /** r is s[i..i + |r|] and everything of s outside that slice is whitespace. */
  ghost predicate WhitespaceAround(s: string, r: string, i: int) {
    && 0 <= i <= |s| - |r|
    && r == s[i..i + |r|]
    && (forall k :: 0 <= k < i ==> IsWhitespace(s[k]))
    && (forall k :: i + |r| <= k < |s| ==> IsWhitespace(s[k]))
  }

  /** `String.prototype.trim`: strips whitespace at both ends. */
  function Trim(s: string): (r: string)
    ensures |r| <= |s|
    ensures exists i :: WhitespaceAround(s, r, i)
    ensures r != [] ==> !IsWhitespace(r[0]) && !IsWhitespace(r[|r| - 1])
    ensures forall k :: 0 <= k < |r| ==> r[k] in s
  {
    var t := TrimStart(s);
    var r := TrimEnd(t);
    TrimmedSlice(s, t, r);
    r
  }

  /** Trimming the end of a trimmed start leaves a slice of s with whitespace on either side. */
  lemma TrimmedSlice(s: string, t: string, r: string)
    requires |t| <= |s| && t == s[|s| - |t|..] && forall k :: 0 <= k < |s| - |t| ==> IsWhitespace(s[k])
    requires |r| <= |t| && r == t[..|r|] && forall k :: |r| <= k < |t| ==> IsWhitespace(t[k])
    ensures WhitespaceAround(s, r, |s| - |t|)
    ensures forall k :: 0 <= k < |r| ==> r[k] in s
  {
    var i := |s| - |t|;
    assert r == s[i..i + |r|];
    forall k | i + |r| <= k < |s|
      ensures IsWhitespace(s[k])
    {
      assert s[k] == t[k - i];
    }
    forall k | 0 <= k < |r|
      ensures r[k] in s
    {
      assert r[k] == s[i + k];
    }
  }

  /** A string with no whitespace is left alone by `trim`. */
  lemma {:induction false} TrimNoWhitespace(s: string)
    requires forall k :: 0 <= k < |s| ==> !IsWhitespace(s[k])
    ensures Trim(s) == s
  {
  }

  /** The UTF-16 code units of one character: two beyond the Basic Multilingual Plane. */
  function CodeUnits(c: char): nat {
    if c >= '\U{10000}' then 2 else 1
  }

  /** `s.length`, which counts UTF-16 code units rather than characters. */
  function Utf16Length(s: string): (n: nat)
    ensures |s| <= n <= 2 * |s|
    ensures n == |s| <==> forall k :: 0 <= k < |s| ==> s[k] < '\U{10000}'
  {
    if s == [] then 0
    else
      var n := CodeUnits(s[0]) + Utf16Length(s[1..]);
      assert forall k :: 1 <= k < |s| ==> s[k] == s[1..][k - 1];
      n
  }

  /** The code units of a concatenation add up. */
  lemma {:induction false} Utf16LengthAppend(a: string, b: string)
    ensures Utf16Length(a + b) == Utf16Length(a) + Utf16Length(b)
  {
    if a == [] {
      assert a + b == b;
    } else {
      assert (a + b)[0] == a[0] && (a + b)[1..] == a[1..] + b;
      Utf16LengthAppend(a[1..], b);
    }
  }

  /** `toLowerCase` on one character, for the ASCII letters. */
  function LowerChar(c: char): char {
    if 'A' <= c <= 'Z' then (c as int - 'A' as int + 'a' as int) as char else c
  }

  /** `String.prototype.toLowerCase`, ASCII letters only. */
  function ToLower(s: string): (r: string)
    ensures |r| == |s|
    ensures forall k :: 0 <= k < |s| ==> r[k] == LowerChar(s[k])
  {
    seq(|s|, k requires 0 <= k < |s| => LowerChar(s[k]))
  }

  lemma ToLowerIdempotent(s: string)
    ensures ToLower(ToLower(s)) == ToLower(s)
  {
  }

  lemma ToLowerAppend(s: string, t: string)
    ensures ToLower(s + t) == ToLower(s) + ToLower(t)
  {
  }

  /** `s.includes(p)`: p occurs in s as a contiguous block. */
  ghost predicate Occurs(p: string, s: string) {
    exists i :: OccursAt(p, s, i)
  }

  ghost predicate OccursAt(p: string, s: string, i: int) {
    0 <= i <= |s| - |p| && s[i..i + |p|] == p
  }

  /** `s.includes(p)`, computed by scanning every start position. */
  function Includes(s: string, p: string): (b: bool)
    ensures b <==> Occurs(p, s)
    decreases |s|
  {
    if p <= s then
      assert OccursAt(p, s, 0);
      true
    else if |s| <= |p| then
      false
    else
      var b := Includes(s[1..], p);
      assert b ==> Occurs(p, s) by {
        if b {
          var i :| OccursAt(p, s[1..], i);
          assert s[i + 1..i + 1 + |p|] == s[1..][i..i + |p|];
          assert OccursAt(p, s, i + 1);
        }
      }
      assert Occurs(p, s) ==> b by {
        if Occurs(p, s) {
          var i :| OccursAt(p, s, i);
          if i > 0 {
            assert s[1..][i - 1..i - 1 + |p|] == s[i..i + |p|];
            assert OccursAt(p, s[1..], i - 1);
          }
        }
      }
      b
  }

  /** Whatever occurs in s occurs in any text that contains s. */
  lemma OccursInLarger(p: string, a: string, s: string, b: string)
    requires Occurs(p, s)
    ensures Occurs(p, a + s + b)
  {
    var i :| OccursAt(p, s, i);
    assert (a + s + b)[|a| + i..|a| + i + |p|] == s[i..i + |p|];
    assert OccursAt(p, a + s + b, |a| + i);
  }

  /** The text before the first comma: `s.split(',')[0]`. */
  function FirstField(s: string): (r: string)
    ensures r <= s && ',' !in r
    ensures |r| < |s| ==> s[|r|] == ','
  {
    if s == [] || s[0] == ',' then [] else [s[0]] + FirstField(s[1..])
  }
}
