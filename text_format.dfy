/** The popup's string helpers: `decodeUnicode`, `normalizeNumber` and `formatCapital`. */
module TextFormat {
  import opened JsText

  const Backslash: CodeUnit := 0x5C
  const LowerU: CodeUnit := 0x75

  // ---------------------------------------------------------------------------------------
  // decodeUnicode

  /** `s` starts with a `\uXXXX` escape. */
  predicate EscapeAtFront(s: JsString) {
    |s| >= 6 && s[0] == Backslash && s[1] == LowerU && AllHexDigits(s[2..6])
  }

  lemma Pow16Four()
    ensures Pow(16, 4) == 0x1_0000
  {
    assert Pow(16, 2) == 256;
  }

  function EscapedUnit(s: JsString): CodeUnit
    requires EscapeAtFront(s)
  {
    Pow16Four();
    HexValue(s[2..6])
  }

  /** `decodeUnicode`: every `\uXXXX`, scanned left to right without overlap, becomes the code
      unit XXXX; everything else is copied. `String.fromCharCode` of four hex digits cannot
      throw, so the inner `catch` is never taken, and '' is returned for ''. */
  function DecodeUnicode(s: JsString): (r: JsString)
    ensures |r| <= |s|
    ensures s == [] ==> r == []
    ensures s != [] ==> r != []
    decreases |s|
  {
    if s == [] then []
    else if EscapeAtFront(s) then [EscapedUnit(s)] + DecodeUnicode(s[6..])
    else [s[0]] + DecodeUnicode(s[1..])
  }

  /** A string without a backslash comes back unchanged. */
  lemma {:induction false} DecodeWithoutBackslash(s: JsString)
    requires forall k :: 0 <= k < |s| ==> s[k] != Backslash
    ensures DecodeUnicode(s) == s
    decreases |s|
  {
    if s != [] {
      DecodeWithoutBackslash(s[1..]);
    }
  }

  /** The lower-case hexadecimal digit for 0..15. */
  function HexDigit(v: nat): (u: CodeUnit)
    requires v < 16
    ensures IsHexDigit(u) && HexDigitValue(u) == v
  {
    if v < 10 then 0x30 + v else 0x61 + (v - 10)
  }

  /** The value of four hexadecimal digits. */
  lemma HexValueFour(h: JsString)
    requires |h| == 4 && AllHexDigits(h)
    ensures HexValue(h) ==
              ((HexDigitValue(h[0]) * 16 + HexDigitValue(h[1])) * 16 + HexDigitValue(h[2])) * 16 + HexDigitValue(h[3])
  {
    assert h[..3][..2][..1][..0] == [];
    assert h[..3][..2][..1] == [h[0]];
    assert h[..3][..2] == [h[0], h[1]];
    assert h[..3] == [h[0], h[1], h[2]];
    assert HexValue(h[..3][..2][..1]) == HexDigitValue(h[0]);
    assert HexValue(h[..3][..2]) == HexDigitValue(h[0]) * 16 + HexDigitValue(h[1]);
    assert HexValue(h[..3]) == (HexDigitValue(h[0]) * 16 + HexDigitValue(h[1])) * 16 + HexDigitValue(h[2]);
  }

  /** `\uXXXX` for one code unit: the reference the decoder inverts. */
  function Escape(u: CodeUnit): (r: JsString)
    ensures EscapeAtFront(r) && |r| == 6 && EscapedUnit(r) == u
  {
    var q1 := u / 16;
    var q2 := q1 / 16;
    var r := [Backslash, LowerU, HexDigit(q2 / 16), HexDigit(q2 % 16), HexDigit(q1 % 16), HexDigit(u % 16)];
    HexValueFour(r[2..6]);
    r
  }

  /** Decoding an escape in front of any text. */
  lemma DecodeEscapeFront(u: CodeUnit, t: JsString)
    ensures DecodeUnicode(Escape(u) + t) == [u] + DecodeUnicode(t)
  {
    var e := Escape(u) + t;
    assert e[2..6] == Escape(u)[2..6];
    assert e[6..] == t;
  }

  /** Decoding an escape with any four hex digits, upper or lower case, in front of any text. */
  lemma DecodeHexEscape(h: JsString, t: JsString)
    requires |h| == 4 && AllHexDigits(h)
    ensures HexValue(h) < 0x1_0000
    ensures DecodeUnicode([Backslash, LowerU] + h + t) == [HexValue(h) as CodeUnit] + DecodeUnicode(t)
  {
    Pow16Four();
    var e := [Backslash, LowerU] + h + t;
    assert e[2..6] == h;
    assert e[6..] == t;
  }

  /** Upper-case hex digits are read too: `«` is the unit 0xAB. */
  lemma DecodeUpperCaseEscape(t: JsString)
    ensures DecodeUnicode([Backslash, LowerU, 0x30, 0x30, 0x41, 0x42] + t) == [0xAB] + DecodeUnicode(t)
  {
    var h: JsString := [0x30, 0x30, 0x41, 0x42];
    HexValueFour(h);
    DecodeHexEscape(h, t);
    assert [Backslash, LowerU] + h + t == [Backslash, LowerU, 0x30, 0x30, 0x41, 0x42] + t;
  }

  /** Every code unit of `s` written as a `\uXXXX` escape. */
  function EscapeAll(s: JsString): (r: JsString)
    ensures |r| == 6 * |s|
  {
    if s == [] then [] else Escape(s[0]) + EscapeAll(s[1..])
  }

  /** Decoding inverts escaping, lone surrogates included. */
  lemma {:induction false} DecodeEscapeAll(s: JsString)
    ensures DecodeUnicode(EscapeAll(s)) == s
  {
    if s != [] {
      DecodeEscapeFront(s[0], EscapeAll(s[1..]));
      DecodeEscapeAll(s[1..]);
    }
  }

  // ---------------------------------------------------------------------------------------
  // normalizeNumber

  /** A JavaScript number: NaN or a finite value, represented exactly (floating-point
      rounding is not modelled). */
  datatype JsNumber = NaN | Finite(value: real)

  /** The argument of `normalizeNumber`: a number, a string, or a falsy non-string value. */
  datatype NumArg = NumberArg(n: JsNumber) | StringArg(s: JsString) | Falsy

  const Comma: CodeUnit := 0x2C
  const Minus: CodeUnit := 0x2D
  const Dot: CodeUnit := 0x2E

  /** A comma or white space: what `/[,\s]/g` removes. */
  predicate IsSeparator(u: CodeUnit) {
    u == Comma || IsSpace(u)
  }

  /** `s.replace(/[,\s]/g, '')`: the units of `s` that are not separators, in order
      (`StripConcat`, `StripNone` and `StripAll` say so unit by unit). */
  function StripSeparators(s: JsString): (r: JsString)
    ensures |r| <= |s|
    ensures forall k :: 0 <= k < |r| ==> !IsSeparator(r[k])
  {
    if s == [] then []
    else if IsSeparator(s[0]) then StripSeparators(s[1..])
    else [s[0]] + StripSeparators(s[1..])
  }

  /** Stripping works unit by unit: the input can be split anywhere. */
  lemma {:induction false} StripConcat(a: JsString, b: JsString)
    ensures StripSeparators(a + b) == StripSeparators(a) + StripSeparators(b)
  {
    if a == [] {
      assert a + b == b;
    } else {
      assert (a + b)[0] == a[0];
      assert (a + b)[1..] == a[1..] + b;
      StripConcat(a[1..], b);
    }
  }

  /** Text without separators is kept whole. */
  lemma {:induction false} StripNone(s: JsString)
    requires forall k :: 0 <= k < |s| ==> !IsSeparator(s[k])
    ensures StripSeparators(s) == s
  {
    if s != [] {
      assert forall k :: 0 <= k < |s[1..]| ==> s[1..][k] == s[k + 1];
      StripNone(s[1..]);
    }
  }

  /** Text made only of separators disappears. */
  lemma {:induction false} StripAll(s: JsString)
    requires forall k :: 0 <= k < |s| ==> IsSeparator(s[k])
    ensures StripSeparators(s) == []
  {
    if s != [] {
      assert forall k :: 0 <= k < |s[1..]| ==> s[1..][k] == s[k + 1];
      StripAll(s[1..]);
    }
  }

  /** The parts of the match of `^-?\d*(?:\.\d+)?` at the front of `s`. */
  datatype NumberPrefix = NumberPrefix(negative: bool, whole: JsString, fraction: JsString)

  function ScanNumber(s: JsString): (p: NumberPrefix)
    ensures AllDigits(p.whole) && AllDigits(p.fraction)
  {
    var neg := s != [] && s[0] == Minus;
    var t := if neg then s[1..] else s;
    var n := LeadingDigits(t);
    NumberPrefix(neg, t[..n], FractionAt(t[n..]))
  }

  /** `(?:\.\d+)?` at the front of `rest`: the digits after a point, when there is one. */
  function FractionAt(rest: JsString): (f: JsString)
    ensures AllDigits(f)
  {
    if |rest| >= 2 && rest[0] == Dot && IsDigit(rest[1]) then rest[1..][..LeadingDigits(rest[1..])] else []
  }

  /** The match is greedy: an optional minus sign, the longest run of digits, and a point with
      the longest run of digits after it, but only when at least one digit follows the point. */
  lemma ScanNumberGreedy(s: JsString)
    ensures var p := ScanNumber(s);
            && (p.negative <==> s != [] && s[0] == Minus)
            && var m := if p.negative then 1 else 0;
               && m + |p.whole| <= |s| && s[m..m + |p.whole|] == p.whole
               && (m + |p.whole| < |s| ==> !IsDigit(s[m + |p.whole|]))
    ensures var p := ScanNumber(s);
            var e := (if p.negative then 1 else 0) + |p.whole|;
            && (p.fraction != [] <==> e + 1 < |s| && s[e] == Dot && IsDigit(s[e + 1]))
            && (p.fraction != [] ==>
                  && e + 1 + |p.fraction| <= |s| && s[e + 1..e + 1 + |p.fraction|] == p.fraction
                  && (e + 1 + |p.fraction| < |s| ==> !IsDigit(s[e + 1 + |p.fraction|])))
  {
  }

  /** `parseFloat` of the matched prefix, exactly. */
  function PrefixValue(p: NumberPrefix): real
    requires AllDigits(p.whole) && AllDigits(p.fraction)
  {
    var v := DigitsValue(p.whole) as real + DigitsValue(p.fraction) as real / Pow(10, |p.fraction|) as real;
    if p.negative then -v else v
  }

  /** `normalizeNumber`. */
  function NormalizeNumber(a: NumArg): (r: JsNumber)
    ensures a.NumberArg? ==> r == a.n
    ensures a.Falsy? || a == StringArg([]) ==> r == NaN
    ensures a.StringArg? ==>
              var p := ScanNumber(StripSeparators(a.s));
              (r.Finite? <==> p.whole != [] || p.fraction != [])
  {
    match a
    case NumberArg(n) => n
    case Falsy => NaN
    case StringArg(s) =>
      if s == [] then NaN
      else
        var p := ScanNumber(StripSeparators(s));
        // `m[0]` is '' or '-' exactly when neither part has a digit, and `parseFloat` gives NaN
        if p.whole == [] && p.fraction == [] then NaN else Finite(PrefixValue(p))
  }

  /** The value is the whole part plus a fraction below one, negated after a minus sign. */
  lemma PrefixValueBounds(p: NumberPrefix)
    requires AllDigits(p.whole) && AllDigits(p.fraction)
    ensures var w := DigitsValue(p.whole) as real;
            if p.negative then -(w + 1.0) < PrefixValue(p) <= -w else w <= PrefixValue(p) < w + 1.0
  {
    FractionBelowOne(DigitsValue(p.fraction) as real, Pow(10, |p.fraction|) as real);
  }

  lemma FractionBelowOne(a: real, d: real)
    requires 0.0 <= a < d
    ensures 0.0 <= a / d < 1.0
  {
    assert a / d * d == a;
  }

  /** The digit string of a whole and a fraction, read as one number and scaled down by the
      fraction's length, is the value `parseFloat` gives. */
  lemma PrefixValueScaled(p: NumberPrefix)
    requires AllDigits(p.whole) && AllDigits(p.fraction)
    ensures var v := DigitsValue(p.whole + p.fraction) as real / Pow(10, |p.fraction|) as real;
            PrefixValue(p) == if p.negative then -v else v
  {
    DigitsConcat(p.whole, p.fraction);
    ScaledQuotient(DigitsValue(p.whole), DigitsValue(p.fraction), Pow(10, |p.fraction|),
                   DigitsValue(p.whole + p.fraction));
  }

  lemma ShiftTen(x: nat, p: nat)
    ensures x * p * 10 == x * (10 * p)
  {
  }

  lemma ScaledQuotient(w: nat, f: nat, d: nat, v: nat)
    requires d >= 1 && v == w * d + f
    ensures v as real / d as real == w as real + f as real / d as real
  {
    assert v as real == w as real * d as real + f as real;
  }

  /** Digits written after other digits shift them up by a power of ten. */
  lemma {:induction false} DigitsConcat(a: JsString, b: JsString)
    requires AllDigits(a) && AllDigits(b)
    ensures AllDigits(a + b)
    ensures DigitsValue(a + b) == DigitsValue(a) * Pow(10, |b|) + DigitsValue(b)
  {
    if b == [] {
      assert a + b == a;
    } else {
      var e := a + b;
      var b' := b[..|b| - 1];
      assert e[..|e| - 1] == a + b';
      assert e[|e| - 1] == b[|b| - 1];
      assert AllDigits(b');
      DigitsConcat(a, b');
      var x, p, c := DigitsValue(a), Pow(10, |b'|), b[|b| - 1] - 0x30;
      assert DigitsValue(e) == DigitsValue(a + b') * 10 + c;
      assert DigitsValue(b) == DigitsValue(b') * 10 + c;
      assert Pow(10, |b|) == 10 * p;
      ShiftTen(x, p);
    }
  }

  /** The text of a number: an optional minus sign, digits, and a point with digits when the
      fraction is not empty. */
  function Numeral(negative: bool, whole: JsString, fraction: JsString): JsString {
    (if negative then [Minus] else []) + whole + (if fraction == [] then [] else [Dot] + fraction)
  }

  /** The scan recovers the parts of a written number from the number followed by any text
      that cannot continue it. */
  lemma ScanNumeral(negative: bool, whole: JsString, fraction: JsString, tail: JsString)
    requires AllDigits(whole) && AllDigits(fraction) && (whole != [] || fraction != [])
    requires tail == [] || (!IsDigit(tail[0]) && (fraction != [] || tail[0] != Dot))
    ensures ScanNumber(Numeral(negative, whole, fraction) + tail) == NumberPrefix(negative, whole, fraction)
  {
    var d: JsString := if fraction == [] then [] else [Dot] + fraction;
    var t := whole + (d + tail);
    var s := Numeral(negative, whole, fraction) + tail;
    assert s == (if negative then [Minus] else []) + t;
    UnsignedNumeral(whole, fraction, tail);
    if negative {
      assert s[0] == Minus && s[1..] == t;
    } else {
      assert s == t;
    }
  }

  /** After the sign: the digits of the whole part, then the text the fraction is read from. */
  lemma UnsignedNumeral(whole: JsString, fraction: JsString, tail: JsString)
    requires AllDigits(whole) && AllDigits(fraction) && (whole != [] || fraction != [])
    requires tail == [] || (!IsDigit(tail[0]) && (fraction != [] || tail[0] != Dot))
    ensures var t := whole + ((if fraction == [] then [] else [Dot] + fraction) + tail);
            && t != [] && t[0] != Minus
            && LeadingDigits(t) == |whole| && t[..|whole|] == whole
            && FractionAt(t[|whole|..]) == fraction
  {
    var d: JsString := if fraction == [] then [] else [Dot] + fraction;
    var rest := d + tail;
    var t := whole + rest;
    assert rest == [] || !IsDigit(rest[0]) by {
      if fraction != [] {
        assert rest[0] == Dot;
      } else {
        assert rest == tail;
      }
    }
    LeadingDigitsPrefix(whole, rest);
    assert t[..|whole|] == whole && t[|whole|..] == rest;
    if whole != [] {
      assert t[0] == whole[0];
    } else {
      assert t[0] == rest[0] == Dot;
    }
    FractionNumeral(fraction, tail);
  }

  /** The fraction is read back from a point and its digits, followed by a non-digit. */
  lemma FractionNumeral(fraction: JsString, tail: JsString)
    requires AllDigits(fraction)
    requires tail == [] || (!IsDigit(tail[0]) && (fraction != [] || tail[0] != Dot))
    ensures FractionAt((if fraction == [] then [] else [Dot] + fraction) + tail) == fraction
  {
    if fraction != [] {
      var rest := [Dot] + fraction + tail;
      assert rest[0] == Dot && rest[1] == fraction[0];
      assert rest[1..] == fraction + tail;
      LeadingDigitsPrefix(fraction, tail);
      assert (fraction + tail)[..|fraction|] == fraction;
    } else {
      assert [] + tail == tail;
    }
  }

  /** Reading a written number back: text that, once its separators are removed, is a sign,
      a whole part and a fraction followed by a unit such as 万元, gives their exact value. */
  lemma NormalizeNumeral(s: JsString, negative: bool, whole: JsString, fraction: JsString, tail: JsString)
    requires AllDigits(whole) && AllDigits(fraction) && (whole != [] || fraction != [])
    requires tail == [] || (!IsDigit(tail[0]) && (fraction != [] || tail[0] != Dot))
    requires StripSeparators(s) == Numeral(negative, whole, fraction) + tail
    ensures var v := DigitsValue(whole) as real + DigitsValue(fraction) as real / Pow(10, |fraction|) as real;
            NormalizeNumber(StringArg(s)) == Finite(if negative then -v else v)
  {
    NormalizeNumeralPrefix(s, negative, whole, fraction, tail);
    PrefixValueParts(negative, whole, fraction);
  }

  lemma NormalizeNumeralPrefix(s: JsString, negative: bool, whole: JsString, fraction: JsString, tail: JsString)
    requires AllDigits(whole) && AllDigits(fraction) && (whole != [] || fraction != [])
    requires tail == [] || (!IsDigit(tail[0]) && (fraction != [] || tail[0] != Dot))
    requires StripSeparators(s) == Numeral(negative, whole, fraction) + tail
    ensures NormalizeNumber(StringArg(s)) == Finite(PrefixValue(NumberPrefix(negative, whole, fraction)))
  {
    ScanNumeral(negative, whole, fraction, tail);
    NormalizeScanned(s, NumberPrefix(negative, whole, fraction));
  }

  lemma PrefixValueParts(negative: bool, whole: JsString, fraction: JsString)
    requires AllDigits(whole) && AllDigits(fraction)
    ensures var v := DigitsValue(whole) as real + DigitsValue(fraction) as real / Pow(10, |fraction|) as real;
            PrefixValue(NumberPrefix(negative, whole, fraction)) == if negative then -v else v
  {
  }

  /** A string whose scan finds a digit is the value of the scanned prefix. */
  lemma NormalizeScanned(s: JsString, p: NumberPrefix)
    requires AllDigits(p.whole) && AllDigits(p.fraction) && (p.whole != [] || p.fraction != [])
    requires ScanNumber(StripSeparators(s)) == p
    ensures NormalizeNumber(StringArg(s)) == Finite(PrefixValue(p))
  {
    assert s != [];
  }

  /** Separators are ignored wherever they stand: '1,000.5' reads as '1000.5'. */
  lemma NormalizeIgnoresSeparators(s: JsString)
    ensures NormalizeNumber(StringArg(s)) == NormalizeNumber(StringArg(StripSeparators(s)))
  {
    StripNone(StripSeparators(s));
  }

  lemma {:induction false} StripDigits(d: JsString, t: JsString)
    requires AllDigits(d)
    ensures StripSeparators(d + t) == d + StripSeparators(t)
  {
    if d != [] {
      var e := d + t;
      assert e[0] == d[0] && IsDigit(d[0]);
      assert !IsSpace(e[0]) && e[0] != Comma;
      assert StripSeparators(e) == [e[0]] + StripSeparators(e[1..]);
      assert e[1..] == d[1..] + t;
      assert AllDigits(d[1..]);
      StripDigits(d[1..], t);
      assert d == [d[0]] + d[1..];
    } else {
      assert d + t == t;
    }
  }

  lemma {:induction false} LeadingDigitsPrefix(d: JsString, t: JsString)
    requires AllDigits(d)
    requires t == [] || !IsDigit(t[0])
    ensures LeadingDigits(d + t) == |d|
  {
    if d != [] {
      assert (d + t)[1..] == d[1..] + t;
      assert AllDigits(d[1..]);
      LeadingDigitsPrefix(d[1..], t);
    } else {
      assert d + t == t;
    }
  }

  /** Digits followed by anything but a digit or a point scan as a whole number. */
  lemma ScanDigitsThen(d: JsString, t: JsString)
    requires d != [] && AllDigits(d)
    requires t == [] || (!IsDigit(t[0]) && t[0] != Dot)
    ensures ScanNumber(d + t) == NumberPrefix(false, d, [])
  {
    var e := d + t;
    assert e[0] == d[0];
    LeadingDigitsPrefix(d, t);
    assert e[..|d|] == d;
    assert e[|d|..] == t;
  }

  /** Reading a written-out natural number back: digits followed by a unit such as 万元 give the
      number. */
  lemma NormalizeDecimal(n: nat, suffix: JsString)
    requires suffix == [] || (!IsDigit(suffix[0]) && suffix[0] != Dot && suffix[0] != Comma && !IsSpace(suffix[0]))
    ensures NormalizeNumber(StringArg(DecimalString(n) + suffix)) == Finite(n as real)
  {
    var d := DecimalString(n);
    StripDigits(d, suffix);
    var t := StripSeparators(suffix);
    if suffix != [] {
      assert t == [suffix[0]] + StripSeparators(suffix[1..]);
    }
    ScanDigitsThen(d, t);
    DecimalStringValue(n);
    assert PrefixValue(NumberPrefix(false, d, [])) == n as real;
  }

  /** A string whose first non-separator unit is neither a digit, a sign nor a point is NaN. */
  lemma LeadingNonDigitIsNaN(s: JsString)
    requires s != [] && !IsDigit(s[0]) && s[0] != Minus && s[0] != Dot && s[0] != Comma && !IsSpace(s[0])
    ensures NormalizeNumber(StringArg(s)) == NaN
  {
  }

  // ---------------------------------------------------------------------------------------
  // formatCapital

  /** The unit a capital string is read in, by precedence. */
  datatype CapitalUnit = Yi | Wan | Yuan | NoUnit

  const YiMark := Lit("亿")
  const WanMark := Lit("万")
  const YuanMark := Lit("元")
  const RmbMark := Lit("人民币")
  const WanYuan := Lit("万元")
  const WanYuanSuffix := Lit(" 万元")
  const WanYuanNote := Lit(" (万元)")

  /** ASCII upper-casing, the canonical form `/…/i` compares under. */
  function Upper(u: CodeUnit): CodeUnit {
    if 0x61 <= u <= 0x7A then u - 0x20 else u
  }

  /** `/CNY/i.test(s)`. */
  predicate ContainsCny(s: JsString) {
    exists i :: 0 <= i && i + 3 <= |s| && Upper(s[i]) == 0x43 && Upper(s[i + 1]) == 0x4E && Upper(s[i + 2]) == 0x59
  }

  /** 亿 before 万, 万 before 元/人民币/CNY. */
  function UnitOf(s: JsString): (u: CapitalUnit)
    ensures u == Yi <==> Contains(s, YiMark)
    ensures u == Wan <==> !Contains(s, YiMark) && Contains(s, WanMark)
    ensures u == Yuan <==>
              !Contains(s, YiMark) && !Contains(s, WanMark) &&
              (Contains(s, YuanMark) || Contains(s, RmbMark) || ContainsCny(s))
  {
    if Contains(s, YiMark) then Yi
    else if Contains(s, WanMark) then Wan
    else if Contains(s, YuanMark) || Contains(s, RmbMark) || ContainsCny(s) then Yuan
    else NoUnit
  }

  /** The factor that turns an amount in unit `u` into 万 (ten thousand yuan). */
  function ToWan(u: CapitalUnit): real {
    match u
    case Yi => 10000.0
    case Wan => 1.0
    case Yuan => 1.0 / 10000.0
    case NoUnit => 1.0
  }

  /** `toLocaleString('zh-CN', { maximumFractionDigits })`: rendering is left abstract. */
  type Renderer = (real, nat) -> JsString

  /** The `maximumFractionDigits` each branch renders with: 2 for yuan, else the default 3. */
  function FractionDigits(u: CapitalUnit): nat {
    if u == Yuan then 2 else 3
  }

  /** `formatCapital`: decode and trim, then scale a non-empty amount to 万. */
  function FormatCapital(raw: JsString, render: Renderer): (r: JsString)
    ensures Trim(DecodeUnicode(raw)) == [] <==> r == []
  {
    var s := Trim(DecodeUnicode(raw));
    if s == [] then [] else FormatAmount(s, render)
  }

  /** The unit tests of `formatCapital` on the trimmed, non-empty text `s`, taken in the
      precedence order of `UnitOf`. */
  function FormatAmount(s: JsString, render: Renderer): (r: JsString)
    requires s != []
    ensures r != []
  {
    FormatIn(UnitOf(s), s, NormalizeNumber(StringArg(s)), render)
  }

  /** The branch of unit `u`, for the text `s` and its amount. */
  function FormatIn(u: CapitalUnit, s: JsString, amount: JsNumber, render: Renderer): (r: JsString)
    requires s != []
    ensures r != []
    // a numeric amount is scaled to 万 and rendered with the unit's fraction digits
    ensures amount.Finite? ==> r == render(amount.value * ToWan(u), FractionDigits(u)) + WanYuanSuffix
    // otherwise the text is kept, extended only by the unit
    ensures amount.NaN? && u != Wan ==> s <= r
    ensures amount.NaN? && u == Wan ==> r == ReplaceFirst(s, WanMark, WanYuan)
  {
    match u
    case Yi => if amount.Finite? then render(amount.value * 10000.0, 3) + WanYuanSuffix else s
    case Wan =>
      if amount.Finite? then
        assert amount.value * ToWan(u) == amount.value;
        render(amount.value, 3) + WanYuanSuffix
      else ReplaceFirst(s, WanMark, WanYuan)
    case Yuan =>
      if amount.Finite? then
        assert amount.value / 10000.0 == amount.value * (1.0 / 10000.0);
        render(amount.value / 10000.0, 2) + WanYuanSuffix
      else s + WanYuanNote
    case NoUnit =>
      if amount.Finite? then
        assert amount.value * ToWan(u) == amount.value;
        render(amount.value, 3) + WanYuanSuffix
      else s
  }

  /** A numeric amount is scaled to 万 by the factor of its unit and rendered with that unit's
      fraction digits, followed by ' 万元'. */
  lemma FormatAmountNumeric(s: JsString, render: Renderer)
    requires s != [] && NormalizeNumber(StringArg(s)).Finite?
    ensures var u := UnitOf(s);
            FormatAmount(s, render) ==
              render(NormalizeNumber(StringArg(s)).value * ToWan(u), FractionDigits(u)) + WanYuanSuffix
  {
    var amount := NormalizeNumber(StringArg(s));
    assert FormatAmount(s, render) == FormatIn(UnitOf(s), s, amount, render);
  }

  /** Without a numeric amount: 亿 and bare text come back as they are, 万 gets only its first
      occurrence replaced by 万元, and yuan gets ' (万元)' appended. */
  lemma FormatAmountNonNumeric(s: JsString, render: Renderer)
    requires s != [] && NormalizeNumber(StringArg(s)).NaN?
    ensures var r := FormatAmount(s, render);
            && (UnitOf(s) == Yi ==> r == s)
            && (UnitOf(s) == Wan ==> r == ReplaceFirst(s, WanMark, WanYuan) && |r| == |s| + 1)
            && (UnitOf(s) == Yuan ==> r == s + WanYuanNote)
            && (UnitOf(s) == NoUnit ==> r == s)
  {
    if UnitOf(s) == Wan {
      var i: nat :| OccursAt(s, WanMark, i) && ReplaceFirst(s, WanMark, WanYuan) == s[..i] + WanYuan + s[i + |WanMark|..];
    }
  }

  /** A one-unit mark that does not appear in `s` is not contained in it. */
  lemma MarkAbsent(s: JsString, c: CodeUnit)
    requires forall k :: 0 <= k < |s| ==> s[k] != c
    ensures !Contains(s, [c])
  {
    forall j: nat | j + 1 <= |s|
      ensures !OccursAt(s, [c], j)
    {
      assert s[j..j + 1][0] == s[j];
    }
  }

  lemma LitHundred()
    ensures Lit("100万元") == [0x31, 0x30, 0x30, 0x4E07, 0x5143]
  {
  }

  /** The 万 in '100万元' is at position 3, with no 亿 before it. */
  lemma HundredUnit(s: JsString)
    requires s == [0x31, 0x30, 0x30, 0x4E07, 0x5143]
    ensures UnitOf(s) == Wan
  {
    MarkAbsent(s, 0x4EBF);
    assert YiMark == [0x4EBF] && WanMark == [0x4E07];
    assert OccursAt(s, WanMark, 3);
  }

  lemma HundredWan(s: JsString, render: Renderer)
    requires s == [0x31, 0x30, 0x30, 0x4E07, 0x5143]
    ensures FormatAmount(s, render) == render(100.0, 3) + WanYuanSuffix
  {
    HundredUnit(s);
    assert DecimalString(100) == [0x31, 0x30, 0x30];
    assert s == DecimalString(100) + [0x4E07, 0x5143];
    NormalizeDecimal(100, [0x4E07, 0x5143]);
  }

  /** '100万元' mentions both 万 and 元 and takes the 万 branch: 100 万元. */
  lemma WanBeforeYuan(render: Renderer)
    ensures UnitOf(Lit("100万元")) == Wan
    ensures FormatCapital(Lit("100万元"), render) == render(100.0, 3) + WanYuanSuffix
  {
    LitHundred();
    var s: JsString := Lit("100万元");
    DecodeWithoutBackslash(s);
    TrimUnpadded(s);
    HundredWan(s, render);
    HundredUnit(s);
  }

  lemma LitAbout()
    ensures Lit("约100万元") == [0x7EA6, 0x31, 0x30, 0x30, 0x4E07, 0x5143]
    ensures Lit("约100万元元") == [0x7EA6, 0x31, 0x30, 0x30, 0x4E07, 0x5143, 0x5143]
  {
  }

  /** In '约100万元' the first 万 is at position 4, with no 亿 before it. */
  lemma AboutUnit(s: JsString)
    requires s == [0x7EA6, 0x31, 0x30, 0x30, 0x4E07, 0x5143]
    ensures UnitOf(s) == Wan && IndexOf(s, WanMark) == Some(4)
  {
    MarkAbsent(s, 0x4EBF);
    assert YiMark == [0x4EBF] && WanMark == [0x4E07];
    assert OccursAt(s, WanMark, 4);
    forall j | 0 <= j < 4 ensures !OccursAt(s, WanMark, j) {
      assert s[j..j + 1][0] == s[j];
    }
  }

  lemma ReplaceAt(s: JsString, p: JsString, q: JsString, i: nat)
    requires IndexOf(s, p) == Some(i)
    ensures ReplaceFirst(s, p, q) == s[..i] + q + s[i + |p|..]
  {
  }

  lemma AboutWan(s: JsString, render: Renderer)
    requires s == [0x7EA6, 0x31, 0x30, 0x30, 0x4E07, 0x5143]
    ensures FormatAmount(s, render) == s + [0x5143]
  {
    AboutUnit(s);
    LeadingNonDigitIsNaN(s);
    FormatAmountNonNumeric(s, render);
    ReplaceAt(s, WanMark, WanYuan, 4);
    assert WanMark == [0x4E07] && WanYuan == [0x4E07, 0x5143];
    assert s[..4] + WanYuan + s[5..] == s + [0x5143];
  }

  lemma AboutCapital(s: JsString, render: Renderer)
    requires s == [0x7EA6, 0x31, 0x30, 0x30, 0x4E07, 0x5143]
    ensures FormatCapital(s, render) == s + [0x5143]
  {
    DecodeWithoutBackslash(s);
    TrimUnpadded(s);
    AboutWan(s, render);
  }

  /** Text that already says 万元 but has no leading number gets 元 a second time:
      '约100万元' becomes '约100万元元'. */
  lemma WanYuanDoubled(render: Renderer)
    ensures FormatCapital(Lit("约100万元"), render) == Lit("约100万元元")
  {
    LitAbout();
    AboutCapital(Lit("约100万元"), render);
  }
}
