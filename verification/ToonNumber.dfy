/** Canonical number text. What `strconv` reads from a lexeme and how it prints the float is carried
    as data (`FloatReading`); everything the encoder itself decides about the lexeme is modelled. */
module ToonNumber {
  import opened Options
  import opened ToonText

  predicate IsFraction(s: string) { s == "" || (s[0] == '.' && s[1..] != "" && AllDigits(s[1..])) }

  /** `-?\d+(\.\d+)?`, the form in which strconv prints a finite float without an exponent. */
  predicate IsDecimal(s: string) {
    var u := AfterMinus(s);
    DigitRun(u) > 0 && IsFraction(u[DigitRun(u)..])
  }

  type Decimal = s: string | IsDecimal(s) witness "0"

  type DigitText = s: string | s != "" && AllDigits(s) witness "0"

  /** The outcome of parsing a lexeme as a float64, and the standard library's text for it. */
  datatype FloatReading =
    | Unreadable
    | Infinite
    | Zero
    | Plain(text: Decimal)
    | Scientific(mantissa: Decimal, negative: bool, exponent: DigitText)

  function AfterMinus(s: string): string {
    if s != "" && s[0] == '-' then s[1..] else s
  }

  predicate HasFloatChar(s: string) { exists i | 0 <= i < |s| :: s[i] == '.' || s[i] == 'e' || s[i] == 'E' }

  function TrimZeros(s: string): (r: string)
    ensures r == "" || r[0] != '0'
    ensures AllDigits(s) ==> AllDigits(r)
  {
    if s != "" && s[0] == '0' then TrimZeros(s[1..]) else s
  }

  function CanonicalInteger(lexeme: string): Option<string> {
    var digits := AfterMinus(lexeme);
    if digits == "" || !AllDigits(digits) then None
    else
      var trimmed := TrimZeros(digits);
      if trimmed == "" then Some("0")
      else if lexeme[0] == '-' then Some("-" + trimmed)
      else Some(trimmed)
  }

  /** `-?(0|[1-9]\d*)(\.\d+)?([eE][+-]?\d+)?` (section 6 of RFC 8259). */
  predicate JsonNumber(s: string) {
    var u := AfterMinus(s);
    var n := DigitRun(u);
    n > 0 && (u[0] == '0' ==> n == 1) && FractionThenExponent(u[n..])
  }

  predicate HasNonZeroMantissa(s: string) {
    s != "" && s[0] != 'e' && s[0] != 'E' && ('1' <= s[0] <= '9' || HasNonZeroMantissa(s[1..]))
  }

  function Lower(s: string): string { seq(|s|, i requires 0 <= i < |s| => if s[i] == 'E' then 'e' else s[i]) }

  function ExponentAt(s: string): (n: nat)
    ensures n <= |s|
    ensures n < |s| ==> s[n] == 'e'
  {
    if s == "" || s[0] == 'e' then 0 else 1 + ExponentAt(s[1..])
  }

  /** Lower-case `e` and an explicit exponent sign; on JSON numbers lower-casing changes only `E`. */
  function NormalizeOutOfRange(lexeme: string): string {
    var lower := Lower(lexeme);
    var n := ExponentAt(lower);
    if n == |lower| then lower
    else
      var exponent := lower[n + 1..];
      lower[..n] + "e" + if AfterSign(exponent) == exponent then "+" + exponent else exponent
  }

  function CanonicalExponent(mantissa: string, negative: bool, exponent: string): string {
    var digits := TrimZeros(exponent);
    mantissa + "e" + (if negative then "-" else "+") + if digits == "" then "0" else digits
  }

  function CanonicalFloat(lexeme: string, reading: FloatReading): Option<string> {
    if !JsonNumber(lexeme) then None
    else
      match reading
      case Unreadable => None
      case Infinite => Some(NormalizeOutOfRange(lexeme))
      case Zero => if HasNonZeroMantissa(lexeme) then Some(NormalizeOutOfRange(lexeme)) else Some("0")
      case Plain(text) => Some(text)
      case Scientific(mantissa, negative, exponent) => Some(CanonicalExponent(mantissa, negative, exponent))
  }

  function CanonicalNumber(lexeme: string, reading: FloatReading): Option<string> {
    if HasFloatChar(lexeme) then CanonicalFloat(lexeme, reading) else CanonicalInteger(lexeme)
  }

  // ---- Every canonical number is recognised as a number when it is read back. ----

  lemma AllDigitsNumeric(s: string)
    requires s != "" && AllDigits(s)
    ensures NumericLike(s) && NumericLike("-" + s) && DigitRun(s) == |s|
  {
    DigitRunOf(s, "");
    assert s + "" == s;
    assert AfterSign("-" + s) == s;
  }

  lemma FractionForm(fraction: string, exponent: string)
    requires IsFraction(fraction) && ExponentPart(exponent)
    ensures FractionThenExponent(fraction + exponent)
    ensures fraction + exponent == "" || !IsDigit((fraction + exponent)[0])
  {
    if fraction == "" {
      assert fraction + exponent == exponent;
    } else {
      var digits := fraction[1..];
      assert (fraction + exponent)[1..] == digits + exponent;
      DigitRunOf(digits, exponent);
      assert (digits + exponent)[|digits|..] == exponent;
    }
  }

  lemma NumericForm(sign: string, digits: string, tail: string)
    requires sign == "" || sign == "-"
    requires digits != "" && AllDigits(digits)
    requires FractionThenExponent(tail) && (tail == "" || !IsDigit(tail[0]))
    ensures NumericLike(sign + (digits + tail))
  {
    var u := digits + tail;
    assert IsDigit(u[0]);
    assert AfterSign(sign + u) == u;
    DigitRunOf(digits, tail);
    assert u[|digits|..] == tail;
  }

  lemma Reassociate(sign: string, digits: string, fraction: string, exponent: string)
    ensures sign + (digits + fraction) + exponent == sign + (digits + (fraction + exponent))
  {
  }

  /** A signed run of digits and what follows it. */
  lemma RunSplits(s: string) returns (sign: string, digits: string, tail: string)
    requires DigitRun(AfterMinus(s)) > 0
    ensures s == sign + (digits + tail)
    ensures sign == "" || sign == "-"
    ensures digits != "" && AllDigits(digits)
    ensures digits == AfterMinus(s)[..DigitRun(AfterMinus(s))] && tail == AfterMinus(s)[DigitRun(AfterMinus(s))..]
  {
    var u := AfterMinus(s);
    sign, digits, tail := if u == s then "" else "-", u[..DigitRun(u)], u[DigitRun(u)..];
    assert u == digits + tail;
  }

  lemma DecimalIsNumeric(s: string, exponent: string)
    requires IsDecimal(s)
    requires ExponentPart(exponent)
    ensures NumericLike(s + exponent)
  {
    var sign, digits, fraction := RunSplits(s);
    FractionForm(fraction, exponent);
    NumericForm(sign, digits, fraction + exponent);
    Reassociate(sign, digits, fraction, exponent);
  }

  lemma CanonicalExponentIsNumeric(mantissa: Decimal, negative: bool, exponent: DigitText)
    ensures NumericLike(CanonicalExponent(mantissa, negative, exponent))
  {
    var digits := TrimZeros(exponent);
    var shown := if digits == "" then "0" else digits;
    var part := "e" + (if negative then "-" else "+") + shown;
    assert CanonicalExponent(mantissa, negative, exponent) == mantissa + part;
    hide CanonicalExponent, NumericLike;
    assert part[1..] == (if negative then "-" else "+") + shown;
    assert AfterSign(part[1..]) == shown;
    DecimalIsNumeric(mantissa, part);
  }

  /** The exponent of a JSON number starts where its first `e` or `E` is. */
  lemma {:induction false} ExponentAtSkips(s: string, rest: string)
    requires forall c | c in s :: c != 'e'
    requires rest == "" || rest[0] == 'e'
    ensures ExponentAt(s + rest) == |s|
  {
    if s == "" {
      assert s + rest == rest;
    } else {
      assert s[0] in s && forall c | c in s[1..] :: c in s;
      assert (s + rest)[1..] == s[1..] + rest;
      ExponentAtSkips(s[1..], rest);
    }
  }

  lemma FractionSplits(s: string) returns (fraction: string, exponent: string)
    requires FractionThenExponent(s)
    ensures s == fraction + exponent && ExponentPart(exponent) && IsFraction(fraction)
  {
    if s != "" && s[0] == '.' {
      var n := DigitRun(s[1..]);
      fraction, exponent := s[..n + 1], s[1..][n..];
      assert fraction[1..] == s[1..][..n];
    } else {
      fraction, exponent := "", s;
    }
  }

  lemma DecimalForm(sign: string, digits: string, fraction: string)
    requires sign == "" || sign == "-"
    requires digits != "" && AllDigits(digits) && IsFraction(fraction)
    ensures IsDecimal(sign + (digits + fraction))
  {
    var u := digits + fraction;
    assert IsDigit(u[0]);
    assert AfterMinus(sign + u) == u;
    DigitRunOf(digits, fraction);
    assert u[|digits|..] == fraction;
  }

  lemma NoExponentIn(sign: string, digits: string, fraction: string)
    requires sign == "" || sign == "-"
    requires AllDigits(digits) && IsFraction(fraction)
    ensures forall c | c in sign + (digits + fraction) :: c != 'e' && c != 'E'
  {
    assert fraction == "" || fraction == ['.'] + fraction[1..];
  }

  lemma JsonNumberSplits(s: string) returns (decimal: string, exponent: string)
    requires JsonNumber(s)
    ensures s == decimal + exponent && IsDecimal(decimal) && ExponentPart(exponent)
    ensures forall c | c in decimal :: c != 'e' && c != 'E'
  {
    var sign, digits, tail := RunSplits(s);
    var fraction, e := FractionSplits(tail);
    DecimalForm(sign, digits, fraction);
    NoExponentIn(sign, digits, fraction);
    Reassociate(sign, digits, fraction, e);
    decimal, exponent := sign + (digits + fraction), e;
  }

  lemma LowerConcat(a: string, b: string)
    ensures Lower(a + b) == Lower(a) + Lower(b)
  {
  }

  lemma LowerUnchanged(s: string)
    requires forall c | c in s :: c != 'E'
    ensures Lower(s) == s
  {
    forall i | 0 <= i < |s| ensures Lower(s)[i] == s[i] {
      assert s[i] in s;
    }
  }

  /** What normalising does, on a lexeme split before its exponent. */
  lemma NormalizeSplit(decimal: string, exponent: string)
    requires forall c | c in decimal :: c != 'e' && c != 'E'
    requires ExponentPart(exponent)
    ensures NormalizeOutOfRange(decimal + exponent) ==
            if exponent == "" then decimal
            else decimal + ("e" + if AfterSign(exponent[1..]) == exponent[1..] then "+" + exponent[1..] else exponent[1..])
  {
    LowerConcat(decimal, exponent);
    LowerUnchanged(decimal);
    var lowered := Lower(exponent);
    ExponentAtSkips(decimal, lowered);
    var lower := decimal + lowered;
    assert lower[..|decimal|] == decimal;
    if exponent != "" {
      LowerExponentUnchanged(exponent);
      assert lower[|decimal| + 1..] == lowered[1..];
    }
  }

  lemma NormalizedIsNumeric(lexeme: string)
    requires JsonNumber(lexeme)
    ensures NumericLike(NormalizeOutOfRange(lexeme))
  {
    var decimal, exponent := JsonNumberSplits(lexeme);
    NormalizeSplit(decimal, exponent);
    if exponent == "" {
      DecimalIsNumeric(decimal, "");
      assert decimal + "" == decimal;
    } else {
      var tail := exponent[1..];
      SignedExponent(tail);
      DecimalIsNumeric(decimal, "e" + if AfterSign(tail) == tail then "+" + tail else tail);
    }
  }

  lemma SignedExponent(tail: string)
    requires AfterSign(tail) != "" && AllDigits(AfterSign(tail))
    ensures ExponentPart("e" + if AfterSign(tail) == tail then "+" + tail else tail)
  {
    var signed := if AfterSign(tail) == tail then "+" + tail else tail;
    assert ("e" + signed)[1..] == signed;
    assert AfterSign("+" + tail) == tail;
  }

  lemma LowerExponentUnchanged(exponent: string)
    requires ExponentPart(exponent) && exponent != ""
    ensures Lower(exponent)[1..] == exponent[1..]
  {
    var tail := exponent[1..];
    var digits := AfterSign(tail);
    assert forall i | 0 <= i < |digits| :: IsDigit(digits[i]);
    assert forall i | 0 <= i < |tail| :: tail[i] != 'E' by {
      assert digits == tail || digits == tail[1..];
      forall i | 0 <= i < |tail| ensures tail[i] != 'E' {
        if digits != tail && i > 0 {
          assert tail[i] == digits[i - 1];
        }
      }
    }
    forall i | 0 <= i < |tail| ensures Lower(exponent)[1..][i] == tail[i] {
      assert Lower(exponent)[i + 1] == if exponent[i + 1] == 'E' then 'e' else exponent[i + 1];
    }
  }

  lemma CanonicalIsNumeric(lexeme: string, reading: FloatReading)
    requires CanonicalNumber(lexeme, reading).Some?
    ensures NumericLike(CanonicalNumber(lexeme, reading).value)
  {
    if HasFloatChar(lexeme) {
      match reading
      case Plain(text) =>
        DecimalIsNumeric(text, "");
        assert text + "" == text;
      case Scientific(mantissa, negative, exponent) => CanonicalExponentIsNumeric(mantissa, negative, exponent);
      case Zero => NormalizedIsNumeric(lexeme); AllDigitsNumeric("0");
      case Infinite => NormalizedIsNumeric(lexeme);
    } else {
      var digits := TrimZeros(AfterMinus(lexeme));
      AllDigitsNumeric(if digits == "" then "0" else digits);
    }
  }

  /** Canonical text has a lower-case `e` and a sign before its exponent, if it has one. */
  predicate CanonicalShape(s: string) {
    exists n: nat | n <= |s| :: IsDecimal(s[..n]) && SignedTail(s[n..])
  }

  predicate SignedTail(s: string) {
    s == "" || (|s| > 2 && s[0] == 'e' && (s[1] == '+' || s[1] == '-') && AllDigits(s[2..]))
  }

  lemma ShapeOf(decimal: string, tail: string)
    requires IsDecimal(decimal) && SignedTail(tail)
    ensures CanonicalShape(decimal + tail)
  {
    var s := decimal + tail;
    assert s[..|decimal|] == decimal && s[|decimal|..] == tail;
  }

  lemma CanonicalIsShaped(lexeme: string, reading: FloatReading)
    requires CanonicalNumber(lexeme, reading).Some?
    ensures CanonicalShape(CanonicalNumber(lexeme, reading).value)
  {
    hide CanonicalShape, IsDecimal, NormalizeOutOfRange, CanonicalExponent, CanonicalInteger, JsonNumber, HasNonZeroMantissa, HasFloatChar;
    if HasFloatChar(lexeme) {
      match reading
      case Plain(text) => PlainShape(text);
      case Scientific(mantissa, negative, exponent) => ExponentShape(mantissa, negative, exponent);
      case Zero => NormalizedShape(lexeme); ZeroShape();
      case Infinite => NormalizedShape(lexeme);
    } else {
      IntegerShape(lexeme);
    }
  }

  lemma PlainShape(text: Decimal)
    ensures CanonicalShape(text)
  {
    hide CanonicalShape, IsDecimal;
    ShapeOf(text, "") by { NoTail(); }
    assert text + "" == text;
  }

  lemma ExponentShape(mantissa: Decimal, negative: bool, exponent: DigitText)
    ensures CanonicalShape(CanonicalExponent(mantissa, negative, exponent))
  {
    hide CanonicalShape, SignedTail, IsDecimal, TrimZeros;
    var digits := TrimZeros(exponent);
    var shown := if digits == "" then "0" else digits;
    var sign := if negative then "-" else "+";
    TailOf(sign, shown);
    ShapeOf(mantissa, "e" + (sign + shown));
    assert CanonicalExponent(mantissa, negative, exponent) == mantissa + ("e" + (sign + shown));
  }

  lemma NoTail()
    ensures SignedTail("")
  {
  }

  lemma TailOf(sign: string, digits: string)
    requires (sign == "+" || sign == "-") && digits != "" && AllDigits(digits)
    ensures SignedTail("e" + (sign + digits))
  {
    assert ("e" + (sign + digits))[2..] == digits;
  }

  lemma ZeroShape()
    ensures CanonicalShape("0")
  {
    DecimalForm("", "0", "");
    assert "" + ("0" + "") == "0" && "0" + "" == "0";
    ShapeOf("0", "");
  }

  lemma IntegerShape(lexeme: string)
    requires CanonicalInteger(lexeme).Some?
    ensures CanonicalShape(CanonicalInteger(lexeme).value)
  {
    hide CanonicalShape, IsDecimal;
    var trimmed := TrimZeros(AfterMinus(lexeme));
    if trimmed == "" {
      ZeroShape();
    } else {
      var sign := if lexeme[0] == '-' then "-" else "";
      DecimalForm(sign, trimmed, "");
      assert sign + (trimmed + "") == sign + trimmed && "" + trimmed == trimmed;
      ShapeOf(sign + trimmed, "") by { NoTail(); }
      assert sign + trimmed + "" == sign + trimmed;
    }
  }

  lemma NormalizedShape(lexeme: string)
    requires JsonNumber(lexeme)
    ensures CanonicalShape(NormalizeOutOfRange(lexeme))
  {
    hide CanonicalShape, IsDecimal, NormalizeOutOfRange;
    var decimal, exponent := JsonNumberSplits(lexeme);
    NormalizeSplit(decimal, exponent);
    if exponent == "" {
      ShapeOf(decimal, "") by { NoTail(); }
      assert decimal + "" == decimal;
    } else {
      var tail := exponent[1..];
      var digits := AfterSign(tail);
      var signed := if digits == tail then "+" + tail else tail;
      assert signed == "+" + digits || signed == "-" + digits by { assert digits != tail ==> tail == [tail[0]] + digits; }
      TailOf(signed[..1], digits);
      assert "e" + (signed[..1] + digits) == "e" + signed;
      ShapeOf(decimal, "e" + signed);
    }
  }

  predicate IsNumericChar(c: char) { IsDigit(c) || c == '+' || c == '-' || c == '.' || c == 'e' || c == 'E' }

  lemma NumericChars(s: string)
    requires NumericLike(s)
    ensures s != "" && forall i | 0 <= i < |s| :: IsNumericChar(s[i])
  {
    var u := AfterSign(s);
    var n := DigitRun(u);
    var fraction, exponent := FractionSplits(u[n..]);
    assert u == u[..n] + fraction + exponent;
    NumericExponentChars(exponent);
    assert forall i | 0 <= i < |fraction| :: i == 0 || fraction[i] == fraction[1..][i - 1];
    assert forall i | 0 <= i < |u| :: IsNumericChar(u[i]);
    assert s == u || s == [s[0]] + u;
  }

  lemma NumericExponentChars(s: string)
    requires ExponentPart(s)
    ensures forall i | 0 <= i < |s| :: IsNumericChar(s[i])
  {
    if s != "" {
      var digits := AfterSign(s[1..]);
      assert s[1..] == digits || s[1..] == [s[1]] + digits;
      assert s == [s[0]] + s[1..];
    }
  }

  // ---- Integers keep their value digit for digit, and one value has one canonical text. ----

  function SignedValue(lexeme: string): int
    requires AllDigits(AfterMinus(lexeme))
  {
    if AfterMinus(lexeme) == lexeme then DigitsValue(lexeme) else -(DigitsValue(AfterMinus(lexeme)) as int)
  }

  lemma {:induction false} LeadingZero(s: string)
    requires AllDigits(s) && s != "" && s[0] == '0'
    ensures DigitsValue(s[1..]) == DigitsValue(s)
  {
    if |s| > 1 {
      var init := s[..|s| - 1];
      LeadingZero(init);
      assert s[1..][..|s[1..]| - 1] == init[1..];
    }
  }

  lemma {:induction false} TrimKeepsValue(s: string)
    requires AllDigits(s)
    ensures DigitsValue(TrimZeros(s)) == DigitsValue(s)
  {
    if s != "" && s[0] == '0' {
      LeadingZero(s);
      TrimKeepsValue(s[1..]);
    }
  }

  lemma {:induction false} TrimmedIsShown(s: string)
    requires AllDigits(s) && s != "" && s[0] != '0'
    ensures DigitsValue(s) > 0 && Digits(DigitsValue(s)) == s
  {
    var init, last := s[..|s| - 1], s[|s| - 1];
    assert DigitChar(last as nat - '0' as nat) == last;
    if |s| == 1 {
      assert DigitsValue(init) == 0;
      assert s == [last];
    } else {
      TrimmedIsShown(init);
      assert s == init + [last];
    }
  }

  /** The canonical text of an integer lexeme is the decimal form of its value. */
  lemma CanonicalIntegerText(lexeme: string)
    requires CanonicalInteger(lexeme).Some?
    ensures AllDigits(AfterMinus(lexeme))
    ensures CanonicalInteger(lexeme).value == DecimalText(SignedValue(lexeme))
  {
    var digits := AfterMinus(lexeme);
    TrimKeepsValue(digits);
    if TrimZeros(digits) != "" {
      TrimmedIsShown(TrimZeros(digits));
    }
  }

  /** An integer in decimal, without leading zeros. */
  function DecimalText(v: int): string { if v < 0 then "-" + Digits(-v) else Digits(v) }

  lemma DecimalTextInjective(v: int, w: int)
    requires DecimalText(v) == DecimalText(w)
    ensures v == w
  {
    DigitsInvert(if v < 0 then -v else v);
    DigitsInvert(if w < 0 then -w else w);
    assert (v < 0) == (DecimalText(v)[0] == '-') == (w < 0);
    if v < 0 {
      assert DecimalText(v)[1..] == Digits(-v) && DecimalText(w)[1..] == Digits(-w);
    }
  }

  /** Two integer lexemes are printed alike exactly when they denote the same integer, of any size. */
  lemma CanonicalIntegersAgree(a: string, b: string)
    requires CanonicalInteger(a).Some? && CanonicalInteger(b).Some?
    ensures AllDigits(AfterMinus(a)) && AllDigits(AfterMinus(b))
    ensures CanonicalInteger(a) == CanonicalInteger(b) <==> SignedValue(a) == SignedValue(b)
  {
    CanonicalIntegerText(a);
    CanonicalIntegerText(b);
    if CanonicalInteger(a) == CanonicalInteger(b) {
      DecimalTextInjective(SignedValue(a), SignedValue(b));
    }
  }

  // ---- What a numeral is worth, read off its text alone ----

  /** A coefficient times a power of ten. */
  datatype Quantity = Quantity(coefficient: int, power: int)

  function PowerOfTen(e: int): real
    decreases if e < 0 then -e else e
  {
    if e == 0 then 1.0 else if e > 0 then 10.0 * PowerOfTen(e - 1) else PowerOfTen(e + 1) / 10.0
  }

  function Worth(q: Quantity): real { q.coefficient as real * PowerOfTen(q.power) }

  function FractionDigits(tail: string): string {
    if tail != "" && tail[0] == '.' then tail[1..][..DigitRun(tail[1..])] else ""
  }

  function AfterFraction(tail: string): string {
    if tail != "" && tail[0] == '.' then tail[1..][DigitRun(tail[1..])..] else tail
  }

  function ExponentValue(exponent: string): int
    requires ExponentPart(exponent)
  {
    if exponent == "" then 0
    else
      var digits := DigitsValue(AfterSign(exponent[1..]));
      if exponent[1] == '-' then -(digits as int) else digits
  }

  function Signed(sign: string, n: nat): int { if sign == "-" then -(n as int) else n }

  function NumeralOf(s: string): Quantity
    requires NumericLike(s)
  {
    var u := AfterSign(s);
    var n := DigitRun(u);
    var tail := u[n..];
    var fraction := FractionDigits(tail);
    ConcatDigits(u[..n], fraction);
    Quantity(Signed(s[..1], DigitsValue(u[..n] + fraction)), ExponentValue(AfterFraction(tail)) - |fraction|)
  }

  lemma ConcatDigits(a: string, b: string)
    ensures AllDigits(a) && AllDigits(b) ==> AllDigits(a + b)
  {
  }

  lemma NumeralAt(sign: string, digits: string, tail: string)
    requires sign == "" || sign == "-"
    requires digits != "" && AllDigits(digits) && FractionThenExponent(tail) && (tail == "" || !IsDigit(tail[0]))
    requires AllDigits(digits + FractionDigits(tail)) && ExponentPart(AfterFraction(tail))
    ensures NumericLike(sign + (digits + tail))
    ensures NumeralOf(sign + (digits + tail))
            == Quantity(Signed(sign, DigitsValue(digits + FractionDigits(tail))), ExponentValue(AfterFraction(tail)) - |FractionDigits(tail)|)
  {
    hide DigitsValue, ExponentValue, ExponentPart, FractionThenExponent, FractionDigits, AfterFraction, NumericLike;
    var s, u := sign + (digits + tail), digits + tail;
    NumericForm(sign, digits, tail);
    assert u[0] == digits[0] && IsDigit(digits[0]);
    assert AfterSign(s) == u;
    DigitRunOf(digits, tail);
    assert u[|digits|..] == tail && u[..|digits|] == digits;
    assert s[..1] == "-" <==> sign == "-" by { assert s[..1] == [s[0]]; }
  }

  /** The numeral of a text put together from its parts. */
  lemma NumeralForm(sign: string, digits: string, fraction: string, exponent: string)
    requires sign == "" || sign == "-"
    requires digits != "" && AllDigits(digits) && IsFraction(fraction) && ExponentPart(exponent)
    ensures NumericLike(sign + (digits + (fraction + exponent)))
    ensures FractionDigits(fraction) == (if fraction == "" then "" else fraction[1..]) && AllDigits(digits + FractionDigits(fraction))
    ensures NumeralOf(sign + (digits + (fraction + exponent)))
            == Quantity(Signed(sign, DigitsValue(digits + FractionDigits(fraction))), ExponentValue(exponent) - |FractionDigits(fraction)|)
  {
    hide DigitsValue, ExponentValue, ExponentPart, FractionThenExponent, FractionDigits, AfterFraction, NumericLike, NumeralOf, IsFraction;
    FractionForm(fraction, exponent);
    TailForm(fraction, exponent);
    ConcatDigits(digits, FractionDigits(fraction));
    NumeralAt(sign, digits, fraction + exponent);
  }

  lemma TailForm(fraction: string, exponent: string)
    requires IsFraction(fraction) && ExponentPart(exponent)
    ensures FractionDigits(fraction + exponent) == FractionDigits(fraction) && AfterFraction(fraction + exponent) == exponent
    ensures FractionDigits(fraction) == (if fraction == "" then "" else fraction[1..]) && AllDigits(FractionDigits(fraction))
  {
    if fraction == "" {
      assert fraction + exponent == exponent;
    } else {
      var digits := fraction[1..];
      assert (fraction + exponent)[1..] == digits + exponent;
      DigitRunOf(digits, exponent);
      assert (digits + exponent)[|digits|..] == exponent && (digits + exponent)[..|digits|] == digits;
      DigitRunOf(digits, "");
      assert digits + "" == digits;
    }
  }

  /** A JSON number or decimal in its parts. */
  lemma DecimalSplits(s: string) returns (sign: string, digits: string, fraction: string)
    requires IsDecimal(s)
    ensures s == sign + (digits + fraction) && (sign == "" || sign == "-")
    ensures digits != "" && AllDigits(digits) && IsFraction(fraction)
  {
    var tail;
    sign, digits, tail := RunSplits(s);
    fraction := tail;
  }

  /** A decimal with an exponent behind it is worth the decimal times the power of ten. */
  lemma WithExponent(decimal: string, exponent: string)
    requires IsDecimal(decimal) && ExponentPart(exponent)
    ensures NumericLike(decimal) && NumericLike(decimal + exponent)
    ensures NumeralOf(decimal + exponent)
            == Quantity(NumeralOf(decimal).coefficient, NumeralOf(decimal).power + ExponentValue(exponent))
  {
    hide NumericLike, NumeralOf, ExponentValue, IsDecimal, IsFraction, FractionDigits;
    var sign, digits, fraction := DecimalSplits(decimal);
    assert ExponentPart("") && ExponentValue("") == 0 by { NoExponent(); }
    NumeralForm(sign, digits, fraction, "");
    NumeralForm(sign, digits, fraction, exponent);
    assert fraction + "" == fraction;
    Reassociate(sign, digits, fraction, exponent);
  }

  lemma NoExponent()
    ensures ExponentPart("") && ExponentValue("") == 0
  {
  }

  lemma ExponentOf(negative: bool, digits: string)
    requires digits != "" && AllDigits(digits)
    ensures var part := "e" + ((if negative then "-" else "+") + digits);
            ExponentPart(part) && ExponentValue(part) == if negative then -(DigitsValue(digits) as int) else DigitsValue(digits)
  {
    var signed := (if negative then "-" else "+") + digits;
    var part := "e" + signed;
    assert part[1..] == signed && part[1] == signed[0];
    assert AfterSign(signed) == digits;
  }

  /** What a lexeme and its reading denote: an integer, and a number beyond the range of floats, is worth
      what its text says; otherwise the number is the float that was read. */
  predicate Readable(lexeme: string, reading: FloatReading) {
    if HasFloatChar(lexeme) then JsonNumber(lexeme) && !reading.Unreadable?
    else AfterMinus(lexeme) != "" && AllDigits(AfterMinus(lexeme))
  }

  lemma ReadableIsNumeric(lexeme: string, reading: FloatReading)
    requires Readable(lexeme, reading)
    ensures NumericLike(lexeme)
  {
    if HasFloatChar(lexeme) {
      var decimal, exponent := JsonNumberSplits(lexeme);
      DecimalIsNumeric(decimal, exponent);
    } else {
      AllDigitsNumeric(AfterMinus(lexeme));
      assert lexeme == AfterMinus(lexeme) || lexeme == "-" + AfterMinus(lexeme);
    }
  }

  function Denoted(lexeme: string, reading: FloatReading): Quantity
    requires Readable(lexeme, reading)
  {
    ReadableIsNumeric(lexeme, reading);
    if !HasFloatChar(lexeme) || reading.Infinite? || reading.Zero? then NumeralOf(lexeme)
    else match reading
         case Plain(text) => DecimalNumeral(text)
         case Scientific(mantissa, negative, exponent) =>
           var q, e := DecimalNumeral(mantissa), DigitsValue(exponent);
           Quantity(q.coefficient, q.power + if negative then -(e as int) else e)
  }

  function DecimalNumeral(text: Decimal): Quantity {
    WithExponent(text, "");
    NumeralOf(text)
  }

  /** A number has canonical text exactly when it can be read. */
  lemma CanonicalIffReadable(lexeme: string, reading: FloatReading)
    ensures CanonicalNumber(lexeme, reading).Some? <==> Readable(lexeme, reading)
  {
    hide JsonNumber;
  }

  lemma ExponentKeepsValue(mantissa: Decimal, negative: bool, exponent: DigitText)
    ensures var s, e := CanonicalExponent(mantissa, negative, exponent), DigitsValue(exponent);
            && NumericLike(s)
            && NumeralOf(s) == Quantity(DecimalNumeral(mantissa).coefficient,
                                        DecimalNumeral(mantissa).power + if negative then -(e as int) else e)
  {
    hide NumericLike, NumeralOf, ExponentValue, ExponentPart, TrimZeros, DigitsValue, IsDecimal;
    var digits := TrimZeros(exponent);
    var shown := if digits == "" then "0" else digits;
    TrimKeepsValue(exponent);
    ZeroValue();
    ExponentOf(negative, shown);
    var part := "e" + ((if negative then "-" else "+") + shown);
    assert CanonicalExponent(mantissa, negative, exponent) == mantissa + part;
    WithExponent(mantissa, part);
  }

  lemma ZeroValue()
    ensures DigitsValue("0") == 0 && DigitsValue("") == 0
  {
    assert DigitsValue("0") == DigitsValue("0"[..0]) * 10 + 0;
  }

  /** And its exponent is written without leading zeros. */
  lemma ExponentIsShort(mantissa: Decimal, negative: bool, exponent: DigitText)
    ensures CanonicalExponent(mantissa, negative, exponent)
            == mantissa + "e" + (if negative then "-" else "+") + Digits(DigitsValue(exponent))
  {
    var digits := TrimZeros(exponent);
    TrimKeepsValue(exponent);
    if digits != "" { TrimmedIsShown(digits); }
    hide TrimZeros, DigitsValue;
    assert digits == "" ==> DigitsValue(exponent) == 0 && Digits(0) == "0" by { ZeroValue(); }
  }

  lemma ExponentPartOf(e: char, tail: string)
    requires (e == 'e' || e == 'E') && AfterSign(tail) != "" && AllDigits(AfterSign(tail))
    ensures ExponentPart([e] + tail)
    ensures ExponentValue([e] + tail) == if tail[0] == '-' then -(DigitsValue(AfterSign(tail)) as int) else DigitsValue(AfterSign(tail))
  {
    assert ([e] + tail)[1..] == tail && ([e] + tail)[1] == tail[0];
  }

  lemma NormalizeKeepsValue(lexeme: string)
    requires JsonNumber(lexeme)
    ensures NumericLike(lexeme) && NumericLike(NormalizeOutOfRange(lexeme)) && NumeralOf(NormalizeOutOfRange(lexeme)) == NumeralOf(lexeme)
  {
    hide NumericLike, NumeralOf, ExponentValue, NormalizeOutOfRange, IsDecimal, DigitsValue;
    var decimal, exponent := JsonNumberSplits(lexeme);
    NormalizeSplit(decimal, exponent);
    WithExponent(decimal, exponent);
    if exponent == "" {
      assert decimal + "" == decimal;
    } else {
      var tail := exponent[1..];
      var signed := if AfterSign(tail) == tail then "+" + tail else tail;
      assert exponent == [exponent[0]] + tail;
      ExponentPartOf(exponent[0], tail);
      assert AfterSign(signed) == AfterSign(tail) && (signed[0] == '-' <==> tail[0] == '-') by { SignAdded(tail); }
      ExponentPartOf('e', signed);
      assert "e" + signed == ['e'] + signed;
      WithExponent(decimal, "e" + signed);
    }
  }

  lemma SignAdded(tail: string)
    requires tail != "" && AfterSign(tail) != "" && AllDigits(AfterSign(tail))
    ensures var signed := if AfterSign(tail) == tail then "+" + tail else tail;
            AfterSign(signed) == AfterSign(tail) && (signed[0] == '-' <==> tail[0] == '-')
  {
    assert AfterSign("+" + tail) == tail;
    assert AfterSign(tail) != tail ==> tail[0] == '+' || tail[0] == '-';
    if tail[0] == '-' { assert |AfterSign(tail)| < |tail|; }
  }

  lemma {:induction false} NoNonZeroDigit(s: string, rest: string)
    requires forall c | c in s :: c != 'e' && c != 'E'
    requires !HasNonZeroMantissa(s + rest)
    ensures forall c | c in s :: !('1' <= c <= '9')
  {
    if s != "" {
      assert s[0] in s && forall c | c in s[1..] :: c in s;
      assert (s + rest)[1..] == s[1..] + rest;
      NoNonZeroDigit(s[1..], rest);
      assert s == [s[0]] + s[1..];
    }
  }

  lemma {:induction false} AllZeros(s: string)
    requires forall i | 0 <= i < |s| :: s[i] == '0'
    ensures AllDigits(s) && DigitsValue(s) == 0
  {
    if s != "" { AllZeros(s[..|s| - 1]); }
  }

  /** Only a zero is printed as "0". */
  lemma ZeroMantissa(lexeme: string)
    requires JsonNumber(lexeme) && !HasNonZeroMantissa(lexeme)
    ensures NumericLike(lexeme) && NumeralOf(lexeme).coefficient == 0
  {
    hide NumericLike, NumeralOf, ExponentValue, HasNonZeroMantissa, DigitsValue, JsonNumber, ExponentPart, IsDecimal, IsFraction,
         FractionDigits;
    var decimal, exponent := JsonNumberSplits(lexeme);
    NoNonZeroDigit(decimal, exponent);
    var sign, digits, fraction := DecimalSplits(decimal);
    NumeralForm(sign, digits, fraction, exponent);
    Reassociate(sign, digits, fraction, exponent);
    var all := digits + FractionDigits(fraction);
    forall i | 0 <= i < |all| ensures all[i] == '0' {
      assert all[i] in decimal && IsDigit(all[i]);
    }
    AllZeros(all);
  }

  lemma FloatKeepsValue(lexeme: string, reading: FloatReading)
    requires HasFloatChar(lexeme) && CanonicalFloat(lexeme, reading).Some? && Readable(lexeme, reading)
    ensures NumericLike(CanonicalFloat(lexeme, reading).value)
    ensures var q, denoted := NumeralOf(CanonicalFloat(lexeme, reading).value), Denoted(lexeme, reading);
            q == denoted || (q.coefficient == 0 && denoted.coefficient == 0)
  {
    hide NumericLike, NumeralOf, JsonNumber, HasNonZeroMantissa, NormalizeOutOfRange, CanonicalExponent, HasFloatChar, IsDecimal, AllDigits;
    match reading
    case Infinite => NormalizeKeepsValue(lexeme);
    case Zero =>
      if HasNonZeroMantissa(lexeme) {
        NormalizeKeepsValue(lexeme);
      } else {
        ZeroMantissa(lexeme);
        ZeroNumeral();
      }
    case Plain(text) => WithExponent(text, "") by { NoExponent(); }
    case Scientific(mantissa, negative, exponent) => ExponentKeepsValue(mantissa, negative, exponent);
  }

  lemma ZeroIsWorthless(q: Quantity)
    ensures q.coefficient == 0 ==> Worth(q) == 0.0
  {
    hide PowerOfTen;
  }

  /** The canonical text of a number is worth what the number denotes. */
  lemma CanonicalKeepsValue(lexeme: string, reading: FloatReading)
    requires CanonicalNumber(lexeme, reading).Some?
    ensures Readable(lexeme, reading) && NumericLike(CanonicalNumber(lexeme, reading).value)
    ensures Worth(NumeralOf(CanonicalNumber(lexeme, reading).value)) == Worth(Denoted(lexeme, reading))
  {
    CanonicalIffReadable(lexeme, reading);
    hide NumericLike, NumeralOf, Worth, HasFloatChar, CanonicalInteger, CanonicalFloat, Readable;
    if HasFloatChar(lexeme) {
      FloatKeepsValue(lexeme, reading);
      ZeroIsWorthless(NumeralOf(CanonicalFloat(lexeme, reading).value));
      ZeroIsWorthless(Denoted(lexeme, reading));
    } else {
      IntegerKeepsValue(lexeme);
    }
  }

  lemma ZeroNumeral()
    ensures NumericLike("0") && NumeralOf("0") == Quantity(0, 0)
  {
    IntegerNumeral("", "0");
    ZeroValue();
  }

  lemma IntegerNumeral(sign: string, digits: string)
    requires (sign == "" || sign == "-") && digits != "" && AllDigits(digits)
    ensures NumericLike(sign + digits) && NumeralOf(sign + digits) == Quantity(Signed(sign, DigitsValue(digits)), 0)
  {
    hide NumericLike, NumeralOf, DigitsValue;
    NoExponent();
    NumeralForm(sign, digits, "", "");
    assert digits + ("" + "") == digits && digits + FractionDigits("") == digits;
  }

  lemma IntegerKeepsValue(lexeme: string)
    requires CanonicalInteger(lexeme).Some?
    ensures NumericLike(lexeme) && NumericLike(CanonicalInteger(lexeme).value)
    ensures NumeralOf(CanonicalInteger(lexeme).value) == NumeralOf(lexeme)
  {
    hide NumericLike, NumeralOf, TrimZeros, DigitsValue;
    var digits := AfterMinus(lexeme);
    var sign := if digits == lexeme then "" else "-";
    assert lexeme == sign + digits;
    var trimmed := TrimZeros(digits);
    TrimKeepsValue(digits);
    IntegerNumeral(sign, digits);
    ZeroNumeral();
    ZeroValue();
    if trimmed != "" {
      IntegerNumeral(sign, trimmed);
      assert lexeme[0] == '-' <==> sign == "-" by { assert lexeme == "-" + digits || lexeme == digits; }
      assert "" + trimmed == trimmed;
    }
  }

  // ---- The recogniser of the source: an index advanced over the lexeme. ----

  lemma RunBetween(s: string, start: nat, end: nat)
    requires start <= end <= |s|
    requires forall k | start <= k < end :: IsDigit(s[k])
    requires end == |s| || !IsDigit(s[end])
    ensures DigitRun(s[start..]) == end - start
  {
    assert s[start..] == s[start..end] + s[end..];
    DigitRunOf(s[start..end], s[end..]);
  }

  method ConsumeDigitRun(s: string, pos: nat) returns (end: int)
    requires pos <= |s|
    ensures end == if DigitRun(s[pos..]) == 0 then -1 else pos + DigitRun(s[pos..])
  {
    if pos >= |s| || s[pos] < '0' || s[pos] > '9' {
      return -1;
    }
    var i := pos;
    while i < |s| && '0' <= s[i] <= '9'
      invariant pos <= i <= |s|
      invariant forall k | pos <= k < i :: IsDigit(s[k])
    {
      i := i + 1;
    }
    RunBetween(s, pos, i);
    return i;
  }

  /** Where the integer part of a JSON number ends: a leading zero stands alone. */
  function JsonIntegerEnd(s: string): int {
    var u := AfterMinus(s);
    var run := DigitRun(u);
    if run == 0 then -1 else |s| - |u| + if u[0] == '0' then 1 else run
  }

  method ConsumeJsonInteger(s: string) returns (end: int)
    ensures end == JsonIntegerEnd(s)
  {
    var i := 0;
    if i < |s| && s[i] == '-' {
      i := i + 1;
    }
    assert s[i..] == AfterMinus(s);
    if i >= |s| {
      return -1;
    }
    if s[i] == '0' {
      return i + 1;
    }
    if s[i] < '1' || s[i] > '9' {
      return -1;
    }
    ghost var start := i;
    while i < |s| && '0' <= s[i] <= '9'
      invariant start <= i <= |s|
      invariant forall k | start <= k < i :: IsDigit(s[k])
    {
      i := i + 1;
    }
    RunBetween(s, start, i);
    return i;
  }

  /** JSON numbers are what the three consuming steps accept, taken one after another. */
  lemma JsonNumberStepwise(s: string)
    ensures JsonIntegerEnd(s) <= |s|
    ensures JsonNumber(s) <==> JsonIntegerEnd(s) >= 0 && FractionThenExponent(s[JsonIntegerEnd(s)..])
  {
    var u := AfterMinus(s);
    var run := DigitRun(u);
    if run > 0 {
      var sign := |s| - |u|;
      assert u == s[sign..];
      if u[0] == '0' && run > 1 {
        assert u[..run][1] == u[1] == s[sign + 1..][0];
      } else {
        assert s[JsonIntegerEnd(s)..] == u[run..];
      }
    }
  }

  lemma AllDigitsIffRun(s: string)
    ensures AllDigits(s) <==> DigitRun(s) == |s|
  {
    if AllDigits(s) {
      DigitRunOf(s, "");
      assert s + "" == s;
    }
    assert s[..|s|] == s;
  }

  method ConsumeFraction(s: string, pos: nat) returns (end: int)
    requires pos <= |s|
    ensures end >= 0 ==> end <= |s|
    ensures FractionThenExponent(s[pos..]) <==> end >= 0 && ExponentPart(s[end..])
  {
    end := pos;
    if pos < |s| && s[pos] == '.' {
      assert s[pos..][1..] == s[pos + 1..];
      end := ConsumeDigitRun(s, pos + 1);
      if end >= 0 {
        assert s[pos + 1..][end - (pos + 1)..] == s[end..];
      }
    }
  }

  method ConsumeExponent(s: string, pos: nat) returns (end: int)
    requires pos <= |s|
    ensures ExponentPart(s[pos..]) <==> end == |s|
  {
    end := pos;
    if pos < |s| && (s[pos] == 'e' || s[pos] == 'E') {
      var i := pos + 1;
      if i < |s| && (s[i] == '+' || s[i] == '-') {
        i := i + 1;
      }
      assert s[pos..][1..] == s[pos + 1..];
      assert s[i..] == AfterSign(s[pos + 1..]);
      AllDigitsIffRun(s[i..]);
      end := ConsumeDigitRun(s, i);
    }
  }

  method IsValidJsonNumberLexeme(s: string) returns (valid: bool)
    ensures valid == JsonNumber(s)
  {
    JsonNumberStepwise(s);
    var i := ConsumeJsonInteger(s);
    if i < 0 {
      return false;
    }
    i := ConsumeFraction(s, i);
    if i < 0 {
      return false;
    }
    i := ConsumeExponent(s, i);
    return i == |s|;
  }
}
