/** JavaScript strings and the few built-in string operations the extension relies on.

    A JavaScript string is a sequence of UTF-16 code units; `String.fromCharCode` can produce
    lone surrogates, which Dafny's `char` excludes, so strings are modelled as `seq<CodeUnit>`.
 */
module JsText {

  datatype Option<+T> = None | Some(value: T)

  /** One UTF-16 code unit. */
  type CodeUnit = x: int | 0 <= x < 0x1_0000

  type JsString = seq<CodeUnit>

  /** The code unit of a Basic Multilingual Plane character (U+FFFD for any other). */
  function Unit(c: char): CodeUnit {
    if c as int < 0x1_0000 then c as int else 0xFFFD
  }

  /** A string literal of the program. Every literal written with `Lit` is in the Basic
      Multilingual Plane, where UTF-16 spends exactly one code unit per character. */
  function Lit(s: string): JsString {
    seq(|s|, i requires 0 <= i < |s| => Unit(s[i]))
  }

  lemma LitConcat(a: string, b: string)
    ensures Lit(a + b) == Lit(a) + Lit(b)
  {
    assert |Lit(a + b)| == |Lit(a) + Lit(b)|;
    forall i | 0 <= i < |a| + |b|
      ensures Lit(a + b)[i] == (Lit(a) + Lit(b))[i]
    {
      if i < |a| {
        assert (a + b)[i] == a[i];
      } else {
        assert (a + b)[i] == b[i - |a|];
      }
    }
  }

  // ---------------------------------------------------------------------------------------
  // White space, as `String.prototype.trim`, `\s` and `parseInt` understand it
  // (ECMAScript WhiteSpace and LineTerminator code points).

  predicate IsSpace(u: CodeUnit) {
    || u == 0x09 || u == 0x0A || u == 0x0B || u == 0x0C || u == 0x0D || u == 0x20
    || u == 0xA0 || u == 0x1680 || (0x2000 <= u <= 0x200A) || u == 0x2028 || u == 0x2029
    || u == 0x202F || u == 0x205F || u == 0x3000 || u == 0xFEFF
  }

  predicate AllSpace(s: JsString) {
    forall k :: 0 <= k < |s| ==> IsSpace(s[k])
  }

  /** The number of white-space units at the front of `s`. */
  function LeadingSpaces(s: JsString): (n: nat)
    ensures n <= |s|
    ensures forall k :: 0 <= k < n ==> IsSpace(s[k])
    ensures n < |s| ==> !IsSpace(s[n])
  {
    if s == [] || !IsSpace(s[0]) then 0 else 1 + LeadingSpaces(s[1..])
  }

  /** The number of white-space units at the back of `s`. */
  function TrailingSpaces(s: JsString): (n: nat)
    ensures n <= |s|
    ensures forall k :: |s| - n <= k < |s| ==> IsSpace(s[k])
    ensures n < |s| ==> !IsSpace(s[|s| - 1 - n])
  {
    if s == [] || !IsSpace(s[|s| - 1]) then 0 else 1 + TrailingSpaces(s[..|s| - 1])
  }

  /** `String.prototype.trim`: the part of `s` left once the white space at both ends is cut
      off. */
  function Trim(s: JsString): (r: JsString)
    ensures |r| <= |s|
    ensures r == [] <==> AllSpace(s)
    ensures r != [] ==> !IsSpace(r[0]) && !IsSpace(r[|r| - 1])
    ensures exists i, j :: 0 <= i <= j <= |s| && r == s[i..j] && AllSpace(s[..i]) && AllSpace(s[j..])
  {
    var i := LeadingSpaces(s);
    var t := s[i..];
    var j := i + |t| - TrailingSpaces(t);
    assert t[..|t| - TrailingSpaces(t)] == s[i..j];
    assert AllSpace(s[j..]) by {
      assert s[j..] == t[|t| - TrailingSpaces(t)..];
    }
    t[..|t| - TrailingSpaces(t)]
  }

  /** Trimming a string that neither starts nor ends with white space leaves it as it is. */
  lemma TrimUnpadded(s: JsString)
    requires s != [] ==> !IsSpace(s[0]) && !IsSpace(s[|s| - 1])
    ensures Trim(s) == s
  {
  }

  lemma TrimIdempotent(s: JsString)
    ensures Trim(Trim(s)) == Trim(s)
  {
    TrimUnpadded(Trim(s));
  }

  /** `s.substring(0, n)`. */
  function Prefix(s: JsString, n: nat): (r: JsString)
    ensures |r| == if |s| <= n then |s| else n
    ensures r <= s
  {
    if |s| <= n then s else s[..n]
  }

  // ---------------------------------------------------------------------------------------
  // Searching

  predicate OccursAt(s: JsString, p: JsString, i: nat) {
    i + |p| <= |s| && s[i..i + |p|] == p
  }

  /** The first index at which `p` occurs in `s` (`s.indexOf(p)`, with -1 as None). */
  function IndexOf(s: JsString, p: JsString): (r: Option<nat>)
    ensures r.Some? ==> OccursAt(s, p, r.value)
    ensures r.Some? ==> forall j :: 0 <= j < r.value ==> !OccursAt(s, p, j)
    ensures r.None? ==> forall j :: 0 <= j ==> !OccursAt(s, p, j)
    decreases |s|
  {
    if |s| < |p| then None
    else if s[..|p|] == p then Some(0)
    else
      assert forall j: nat :: 1 <= j ==> (OccursAt(s, p, j) <==> OccursAt(s[1..], p, j - 1)) by {
        forall j: nat | 1 <= j
          ensures OccursAt(s, p, j) <==> OccursAt(s[1..], p, j - 1)
        {
          OccursShift(s, p, j);
        }
      }
      match IndexOf(s[1..], p)
      case None => None
      case Some(k) => Some(k + 1)
  }

  /** An occurrence past the front of `s` is an occurrence in its tail, one place earlier. */
  lemma OccursShift(s: JsString, p: JsString, j: nat)
    requires 1 <= j && s != []
    ensures OccursAt(s, p, j) <==> OccursAt(s[1..], p, j - 1)
  {
    if j + |p| <= |s| {
      assert s[j..j + |p|] == s[1..][j - 1..j - 1 + |p|];
    }
  }

  predicate Contains(s: JsString, p: JsString) {
    IndexOf(s, p).Some?
  }

  /** `s.replace(p, q)` with a string pattern: only the first occurrence is replaced
      (`q` is assumed to hold no `$` replacement patterns). */
  function ReplaceFirst(s: JsString, p: JsString, q: JsString): (r: JsString)
    ensures !Contains(s, p) ==> r == s
    ensures Contains(s, p) ==>
              exists i: nat :: && OccursAt(s, p, i)
                               && (forall j :: 0 <= j < i ==> !OccursAt(s, p, j))
                               && r == s[..i] + q + s[i + |p|..]
  {
    match IndexOf(s, p)
    case None => s
    case Some(i) => s[..i] + q + s[i + |p|..]
  }

  // ---------------------------------------------------------------------------------------
  // Digits

  predicate IsDigit(u: CodeUnit) { 0x30 <= u <= 0x39 }

  predicate IsHexDigit(u: CodeUnit) {
    IsDigit(u) || (0x41 <= u <= 0x46) || (0x61 <= u <= 0x66)
  }

  function HexDigitValue(u: CodeUnit): (v: nat)
    requires IsHexDigit(u)
    ensures v < 16
  {
    if IsDigit(u) then u - 0x30 else if u <= 0x46 then u - 0x41 + 10 else u - 0x61 + 10
  }

  function Pow(b: nat, n: nat): (r: nat)
    requires b >= 1
    ensures r >= 1
  {
    if n == 0 then 1 else b * Pow(b, n - 1)
  }

  predicate AllDigits(s: JsString) {
    forall k :: 0 <= k < |s| ==> IsDigit(s[k])
  }

  predicate AllHexDigits(s: JsString) {
    forall k :: 0 <= k < |s| ==> IsHexDigit(s[k])
  }

  /** The value of a string of decimal digits, most significant first. */
  function DigitsValue(s: JsString): (v: nat)
    requires AllDigits(s)
    ensures v < Pow(10, |s|)
  {
    if s == [] then 0 else DigitsValue(s[..|s| - 1]) * 10 + (s[|s| - 1] - 0x30)
  }

  /** The value of a string of hexadecimal digits, most significant first. */
  function HexValue(s: JsString): (v: nat)
    requires AllHexDigits(s)
    ensures v < Pow(16, |s|)
  {
    if s == [] then 0 else HexValue(s[..|s| - 1]) * 16 + HexDigitValue(s[|s| - 1])
  }

  /** The number of decimal digits at the front of `s`. */
  function LeadingDigits(s: JsString): (n: nat)
    ensures n <= |s|
    ensures AllDigits(s[..n])
    ensures n < |s| ==> !IsDigit(s[n])
  {
    if s == [] || !IsDigit(s[0]) then 0 else 1 + LeadingDigits(s[1..])
  }

  /** The number of hexadecimal digits at the front of `s`. */
  function LeadingHexDigits(s: JsString): (n: nat)
    ensures n <= |s|
    ensures AllHexDigits(s[..n])
    ensures n < |s| ==> !IsHexDigit(s[n])
  {
    if s == [] || !IsHexDigit(s[0]) then 0 else 1 + LeadingHexDigits(s[1..])
  }

  /** `String(n)` for a natural number: its decimal digits without leading zeros. */
  function DecimalString(n: nat): (r: JsString)
    ensures r != [] && AllDigits(r)
    decreases n
  {
    if n < 10 then [0x30 + n] else DecimalString(n / 10) + [0x30 + n % 10]
  }

  /** Reading back the digits of `DecimalString(n)` gives `n`. */
  lemma {:induction false} DecimalStringValue(n: nat)
    ensures DigitsValue(DecimalString(n)) == n
    decreases n
  {
    if n >= 10 {
      var d := DecimalString(n / 10);
      var r := DecimalString(n);
      assert r == d + [0x30 + n % 10];
      assert r[..|r| - 1] == d;
      DecimalStringValue(n / 10);
    }
  }

  /** `parseInt(s)` without a radix: leading white space and one sign are skipped, then the
      digits are read as `ParseMagnitude` reads them; NaN (None) when there are none. */
  function ParseInt(s: JsString): (r: Option<int>)
    ensures r.Some? ==> exists k :: 0 <= k < |s| && IsDigit(s[k])
  {
    var n := LeadingSpaces(s);
    var t := s[n..];
    if |t| > 0 && (t[0] == 0x2D || t[0] == 0x2B) then
      match ParseMagnitude(t[1..])
      case None => None
      case Some(v) =>
        assert s[n + 1] == t[1..][0];
        var signed: int := if t[0] == 0x2D then -(v as int) else v;
        Some(signed)
    else
      match ParseMagnitude(t)
      case None => None
      case Some(v) =>
        assert s[n] == t[0];
        Some(v)
  }

  /** The unsigned part: a `0x` or `0X` prefix selects base 16, and the longest run of digits
      is read. */
  function ParseMagnitude(u: JsString): (r: Option<nat>)
    ensures r.Some? ==> u != [] && IsDigit(u[0])
  {
    if |u| >= 2 && u[0] == 0x30 && (u[1] == 0x78 || u[1] == 0x58) then
      var h := u[2..];
      var n := LeadingHexDigits(h);
      if n == 0 then None else Some(HexValue(h[..n]))
    else
      var n := LeadingDigits(u);
      if n == 0 then None else Some(DigitsValue(u[..n]))
  }

  /** `parseInt` reads back what `String` wrote. */
  lemma ParseIntDecimal(n: nat)
    ensures ParseInt(DecimalString(n)) == Some(n)
  {
    var s := DecimalString(n);
    ParseIntDigits(s);
    DecimalStringValue(n);
  }

  /** A string of decimal digits parses as its value. */
  lemma ParseIntDigits(s: JsString)
    requires s != [] && AllDigits(s)
    ensures ParseInt(s) == Some(DigitsValue(s))
  {
    assert LeadingSpaces(s) == 0;
    assert s[0..] == s;
    assert ParseMagnitude(s) == Some(DigitsValue(s)) by {
      LeadingDigitsAll(s);
      assert s[..|s|] == s;
      if |s| >= 2 {
        assert s[1] != 0x78 && s[1] != 0x58;
      }
    }
  }

  lemma {:induction false} LeadingDigitsAll(s: JsString)
    requires AllDigits(s)
    ensures LeadingDigits(s) == |s|
  {
    if s != [] {
      LeadingDigitsAll(s[1..]);
    }
  }
}
