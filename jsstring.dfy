/**
 * The JavaScript string operations the application relies on, over
 * `seq<char>`: `trim`, `lastIndexOf`, `includes`, `replace(/c/g, '')`,
 * `toUpperCase` and the decimal rendering of a non-negative integer inside a
 * template literal. Whitespace and upper-casing are modelled for ASCII (plus
 * the no-break space and the byte-order mark for whitespace).
 */
module JsString {

  /** The characters `String.prototype.trim` removes that this model knows of. */
  predicate IsWhitespace(c: char) {
    c == ' ' || c == '\t' || c == '\n' || c == '\r' || c == '\U{000B}' || c == '\U{000C}'
    || c == '\U{00A0}' || c == '\U{FEFF}'
  }

  /** `s` starts and ends with a non-whitespace character (or is empty). */
  predicate IsTrimmed(s: string) {
    s == [] || (!IsWhitespace(s[0]) && !IsWhitespace(s[|s| - 1]))
  }

  function TrimStart(s: string): (r: string)
    ensures |r| <= |s| && r == s[|s| - |r|..]
    ensures r == [] || !IsWhitespace(r[0])
    ensures forall i :: 0 <= i < |s| - |r| ==> IsWhitespace(s[i])
  {
    if s != [] && IsWhitespace(s[0]) then TrimStart(s[1..]) else s
  }

  function TrimEnd(s: string): (r: string)
    ensures |r| <= |s| && r == s[..|r|]
    ensures r == [] || !IsWhitespace(r[|r| - 1])
    ensures forall i :: |r| <= i < |s| ==> IsWhitespace(s[i])
  {
    if s != [] && IsWhitespace(s[|s| - 1]) then TrimEnd(s[..|s| - 1]) else s
  }

  /** Nothing but whitespace. */
  predicate IsBlank(s: string) {
    forall i :: 0 <= i < |s| ==> IsWhitespace(s[i])
  }

  /** `String.prototype.trim`: `!s.trim()` holds exactly for the blank strings. */
  function Trim(s: string): (r: string)
    ensures IsTrimmed(r)
    ensures |r| <= |s|
    ensures r == [] <==> IsBlank(s)
  {
    var t := TrimStart(s);
    var r := TrimEnd(t);
    r
  }

  /** What trim removes is whitespace at either end: the result is a slice of the input. */
  lemma TrimSlice(s: string) returns (lo: nat, hi: nat)
    ensures lo <= hi <= |s| && Trim(s) == s[lo..hi]
    ensures forall i :: 0 <= i < lo || hi <= i < |s| ==> IsWhitespace(s[i])
  {
    var t := TrimStart(s);
    var r := TrimEnd(t);
    assert Trim(s) == r;
    lo, hi := |s| - |t|, |s| - |t| + |r|;
    assert s[lo..hi] == r by {
      assert t == s[lo..];
      assert r == t[..|r|];
    }
    forall i | 0 <= i < lo || hi <= i < |s| ensures IsWhitespace(s[i]) {
      if hi <= i {
        assert s[i] == t[i - lo];
      }
    }
  }

  /** Trimming a string that has no whitespace at either end changes nothing. */
  lemma TrimTrimmed(s: string)
    requires IsTrimmed(s)
    ensures Trim(s) == s
  {
  }

  /** `p` occurs in `s` starting at index `i`. */
  predicate OccursAt(s: string, p: string, i: int) {
    0 <= i && i + |p| <= |s| && s[i..i + |p|] == p
  }

  /** `String.prototype.includes`. */
  predicate Includes(s: string, p: string) {
    exists i | 0 <= i <= |s| - |p| :: OccursAt(s, p, i)
  }

  /** The last occurrence of `p` at or before index `k`, or -1. */
  function LastIndexFrom(s: string, p: string, k: int): (r: int)
    ensures r == -1 || 0 <= r <= k
    ensures r >= 0 ==> OccursAt(s, p, r)
    ensures forall j :: r < j <= k ==> !OccursAt(s, p, j)
    decreases k + 1
  {
    if k < 0 then -1
    else if OccursAt(s, p, k) then k
    else LastIndexFrom(s, p, k - 1)
  }

  /** `String.prototype.lastIndexOf`: the greatest index where `p` occurs, or -1 when it does not occur. */
  function LastIndexOf(s: string, p: string): (r: int)
    ensures r == -1 || OccursAt(s, p, r)
    ensures forall j :: OccursAt(s, p, j) ==> j <= r
  {
    LastIndexFrom(s, p, |s| - |p|)
  }

  /** `lastIndexOf` answers -1 exactly when `includes` answers false. */
  lemma LastIndexOfAbsent(s: string, p: string)
    ensures LastIndexOf(s, p) == -1 <==> !Includes(s, p)
  {
    var r := LastIndexOf(s, p);
    if r != -1 {
      assert OccursAt(s, p, r);
    }
  }

  /**
   * A Dafny `char` is a Unicode scalar value, while a JavaScript string is
   * a sequence of UTF-16 code units: a character above U+FFFF takes two of
   * them (a surrogate pair), every other character one.
   */
  function CodeUnits(c: char): (n: nat)
    ensures 1 <= n <= 2
    ensures n == 2 <==> c as int > 0xFFFF
  {
    if c as int > 0xFFFF then 2 else 1
  }

  /**
   * `s.length` in JavaScript. An index `i` into `s` here is the code-unit
   * index `Utf16Length(s[..i])` there; a search for an ASCII pattern finds
   * the same occurrences in both, since no surrogate is ASCII.
   */
  function Utf16Length(s: string): (n: nat)
    ensures |s| <= n <= 2 * |s|
  {
    if s == [] then 0 else CodeUnits(s[0]) + Utf16Length(s[1..])
  }

  /** Code-unit lengths add up over concatenation. */
  lemma {:induction false} Utf16LengthConcat(a: string, b: string)
    ensures Utf16Length(a + b) == Utf16Length(a) + Utf16Length(b)
  {
    if a == [] {
      assert a + b == b;
    } else {
      assert (a + b)[0] == a[0] && (a + b)[1..] == a[1..] + b;
      Utf16LengthConcat(a[1..], b);
    }
  }

  /** A longer prefix is at least as long in code units. */
  lemma Utf16PrefixMonotone(s: string, j: nat, i: nat)
    requires j <= i <= |s|
    ensures Utf16Length(s[..j]) <= Utf16Length(s[..i])
  {
    assert s[..i] == s[..j] + s[j..i];
    Utf16LengthConcat(s[..j], s[j..i]);
  }

  /** Without characters above U+FFFF the two lengths agree. */
  lemma {:induction false} Utf16LengthBmp(s: string)
    requires forall i :: 0 <= i < |s| ==> s[i] as int <= 0xFFFF
    ensures Utf16Length(s) == |s|
  {
    if s != [] {
      Utf16LengthBmp(s[1..]);
    }
  }

  /** An occurrence inside a slice is an occurrence in the whole string. */
  lemma IncludesInSlice(s: string, lo: nat, hi: nat, p: string)
    requires lo <= hi <= |s| && Includes(s[lo..hi], p)
    ensures exists j :: lo <= j && j + |p| <= hi && OccursAt(s, p, j)
  {
    var i :| 0 <= i <= hi - lo - |p| && OccursAt(s[lo..hi], p, i);
    forall k | 0 <= k < |p| ensures s[lo + i + k] == p[k] {
      assert s[lo..hi][i..i + |p|][k] == p[k];
    }
    assert s[lo + i..lo + i + |p|] == p;
    assert OccursAt(s, p, lo + i);
  }

  /** Trimming cannot create an occurrence of a pattern. */
  lemma TrimKeepsExcluded(s: string, p: string)
    requires !Includes(s, p)
    ensures !Includes(Trim(s), p)
  {
    var lo, hi := TrimSlice(s);
    if Includes(s[lo..hi], p) {
      IncludesInSlice(s, lo, hi, p);
    }
  }

  /** `s.replace(/c/g, '')`: every occurrence of `c` removed, everything else kept in order. */
  function RemoveAll(s: string, c: char): (r: string)
    ensures c !in r
    ensures forall x :: x != c ==> (x in r <==> x in s)
    ensures |r| <= |s|
  {
    if s == [] then []
    else if s[0] == c then RemoveAll(s[1..], c)
    else [s[0]] + RemoveAll(s[1..], c)
  }

  /** Removing a character that does not occur changes nothing. */
  lemma {:induction false} RemoveAbsent(s: string, c: char)
    requires c !in s
    ensures RemoveAll(s, c) == s
  {
    if s != [] {
      RemoveAbsent(s[1..], c);
    }
  }

  /** ASCII upper-casing of one character. */
  function UpperChar(c: char): (u: char)
    ensures ('a' <= c <= 'z') ==> u as int == c as int - 32
    ensures !('a' <= c <= 'z') ==> u == c
  {
    if 'a' <= c <= 'z' then (c as int - 32) as char else c
  }

  /** `String.prototype.toUpperCase`, for ASCII letters. */
  function ToUpperCase(s: string): (r: string)
    ensures |r| == |s|
    ensures forall i :: 0 <= i < |s| ==> r[i] == UpperChar(s[i])
  {
    seq(|s|, i requires 0 <= i < |s| => UpperChar(s[i]))
  }

  /** Upper-casing keeps every occurrence: it works character by character. */
  lemma IncludesUpperCase(s: string, p: string)
    requires Includes(s, p)
    ensures Includes(ToUpperCase(s), ToUpperCase(p))
  {
    var i :| 0 <= i <= |s| - |p| && OccursAt(s, p, i);
    assert ToUpperCase(s)[i..i + |p|] == ToUpperCase(s[i..i + |p|]);
    assert OccursAt(ToUpperCase(s), ToUpperCase(p), i);
  }

  predicate IsDigit(c: char) {
    '0' <= c <= '9'
  }

  function DigitValue(c: char): (d: nat)
    requires IsDigit(c)
    ensures d < 10
  {
    c as int - '0' as int
  }

  function DigitChar(d: nat): (c: char)
    requires d < 10
    ensures IsDigit(c) && DigitValue(c) == d
  {
    ('0' as int + d) as char
  }

  /** The value of a string of decimal digits. */
  function DecimalValue(s: string): nat
    requires forall i :: 0 <= i < |s| ==> IsDigit(s[i])
  {
    if s == [] then 0
    else 10 * DecimalValue(s[..|s| - 1]) + DigitValue(s[|s| - 1])
  }

  /**
   * The decimal rendering of a non-negative integer, as `${n}` produces it:
   * digits only, no leading zero, and it reads back as `n`.
   */
  function NumberToString(n: nat): (r: string)
    ensures |r| > 0
    ensures forall i :: 0 <= i < |r| ==> IsDigit(r[i])
    ensures r[0] == '0' ==> n == 0 && r == "0"
    ensures DecimalValue(r) == n
  {
    if n < 10 then [DigitChar(n)]
    else
      var r := NumberToString(n / 10) + [DigitChar(n % 10)];
      assert r[..|r| - 1] == NumberToString(n / 10);
      r
  }

  /** Different numbers are rendered differently. */
  lemma NumberToStringInjective(a: nat, b: nat)
    requires NumberToString(a) == NumberToString(b)
    ensures a == b
  {
    assert DecimalValue(NumberToString(a)) == a;
  }
}
