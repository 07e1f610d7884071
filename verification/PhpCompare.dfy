/**
 How PHP compares strings when it searches an array or sorts one by its keys: two strings that both
 read as decimal numbers by their values, so that "10", "010" and "1e1" are the same, and all others
 byte by byte.
 */
module PhpCompare {
  import opened Text

  /** mantissa * 10^exponent */
  datatype Number = Number(mantissa: int, exponent: int)

  predicate Digit(c: char) {
    '0' <= c <= '9'
  }

  /** White space around a number; unlike trimming it spares the zero byte and strips the form feed. */
  predicate NumericBlank(c: char) {
    c == ' ' || c == '\t' || c == '\n' || c == '\r' || c == '\U{0B}' || c == '\U{0C}'
  }

  /** The leading digits. */
  function Digits(s: string): (r: string)
    ensures r <= s && forall c | c in r :: Digit(c)
  {
    if s == "" || !Digit(s[0]) then "" else [s[0]] + Digits(s[1..])
  }

  function DigitsValue(digits: string): int
    requires forall c | c in digits :: Digit(c)
  {
    if digits == "" then 0
    else DigitsValue(digits[..|digits| - 1]) * 10 + (digits[|digits| - 1] as int - '0' as int)
  }

  function Sign(s: string): int {
    if s != "" && s[0] == '-' then -1 else 1
  }

  function Unsigned(s: string): string {
    if s != "" && (s[0] == '-' || s[0] == '+') then s[1..] else s
  }

  /** The digits after a decimal point, if there is one. */
  function Fraction(s: string): (r: string)
    ensures forall c | c in r :: Digit(c)
  {
    if s != "" && s[0] == '.' then Digits(s[1..]) else ""
  }

  function AfterFraction(s: string): string {
    if s != "" && s[0] == '.' then s[1 + |Digits(s[1..])|..] else s
  }

  /** The exponent that must make up the rest; no rest is exponent zero. */
  function Exponent(s: string): Option<int> {
    if s == "" then Some(0)
    else if s[0] != 'e' && s[0] != 'E' then None
    else
      var rest := Unsigned(s[1..]);
      if rest != "" && Digits(rest) == rest then Some(Sign(s[1..]) * DigitsValue(rest)) else None
  }

  /** A number from its leading digits and what follows them. */
  function Assemble(whole: string, rest: string): Option<Number>
    requires forall c | c in whole :: Digit(c)
  {
    var fraction, exponent := Fraction(rest), Exponent(AfterFraction(rest));
    if whole + fraction == "" || exponent.None? then None
    else Some(Number(DigitsValue(whole + fraction), exponent.value - |fraction|))
  }

  function UnsignedNumber(s: string): Option<Number> {
    Assemble(Digits(s), s[|Digits(s)|..])
  }

  function NumberOf(s: string): Option<Number> {
    var t := Trim(NumericBlank, s);
    match UnsignedNumber(Unsigned(t))
    case None => None
    case Some(n) => Some(Number(Sign(t) * n.mantissa, n.exponent))
  }

  function Power(n: nat): int {
    if n == 0 then 1 else 10 * Power(n - 1)
  }

  predicate SameNumber(m: Number, n: Number) {
    if m.exponent <= n.exponent then m.mantissa == n.mantissa * Power(n.exponent - m.exponent)
    else m.mantissa * Power(m.exponent - n.exponent) == n.mantissa
  }

  predicate Numeric(s: string) {
    NumberOf(s).Some?
  }

  /** Only two numeric strings can be equal without being the same string. */
  predicate LooselyEqual(a: string, b: string) {
    a == b || (Numeric(a) && Numeric(b) && SameNumber(NumberOf(a).value, NumberOf(b).value))
  }

  predicate NumberLess(m: Number, n: Number) {
    if m.exponent <= n.exponent then m.mantissa < n.mantissa * Power(n.exponent - m.exponent)
    else m.mantissa * Power(m.exponent - n.exponent) < n.mantissa
  }

  /** Byte order of strings, a proper prefix first. */
  predicate ByteBefore(a: string, b: string) {
    b != "" && (a == "" || a[0] < b[0] || (a[0] == b[0] && ByteBefore(a[1..], b[1..])))
  }

  /** The order that sorting by keys goes by. */
  predicate KeyLess(a: string, b: string) {
    if Numeric(a) && Numeric(b) then NumberLess(NumberOf(a).value, NumberOf(b).value) else ByteBefore(a, b)
  }

  // ------------------------------------------------------------------ the order of keys

  lemma {:induction false} ByteOrder(a: string, b: string)
    ensures a == b || ByteBefore(a, b) || ByteBefore(b, a)
    ensures !(ByteBefore(a, b) && ByteBefore(b, a))
  {
    if a != "" && b != "" {
      ByteOrder(a[1..], b[1..]);
      assert a == [a[0]] + a[1..] && b == [b[0]] + b[1..];
    }
  }

  /** The first difference decides; without one the shorter string comes first. */
  lemma {:induction false} ByteBeforeExactly(a: string, b: string)
    ensures ByteBefore(a, b) <==>
              || (a <= b && |a| < |b|)
              || exists k | 0 <= k < |a| && k < |b| :: a[..k] == b[..k] && a[k] < b[k]
  {
    if a != "" && b != "" && a[0] == b[0] {
      ByteBeforeExactly(a[1..], b[1..]);
      assert a == [a[0]] + a[1..] && b == [b[0]] + b[1..];
      assert a <= b <==> a[1..] <= b[1..];
      SameTail(a, b);
    } else if a != "" && b != "" {
      assert a[..0] == b[..0];
      assert forall k | 0 < k < |a| && k < |b| :: a[..k][0] != b[..k][0];
    }
  }

  lemma SameTail(a: string, b: string)
    requires a != "" && b != "" && a[0] == b[0]
    ensures (exists k | 0 <= k < |a| && k < |b| :: a[..k] == b[..k] && a[k] < b[k]) <==>
              exists k | 0 <= k < |a[1..]| && k < |b[1..]| :: a[1..][..k] == b[1..][..k] && a[1..][k] < b[1..][k]
  {
    forall k | 0 < k < |a| && k < |b|
      ensures a[..k] == b[..k] <==> a[1..][..k - 1] == b[1..][..k - 1]
    {
      assert a[..k] == [a[0]] + a[1..][..k - 1] && b[..k] == [b[0]] + b[1..][..k - 1];
    }
    if k :| 0 <= k < |a| && k < |b| && a[..k] == b[..k] && a[k] < b[k] {
      assert k > 0 && a[1..][k - 1] == a[k] && b[1..][k - 1] == b[k];
    }
    if k :| 0 <= k < |a[1..]| && k < |b[1..]| && a[1..][..k] == b[1..][..k] && a[1..][k] < b[1..][k] {
      assert a[..k + 1] == b[..k + 1] && a[k + 1] < b[k + 1];
    }
  }

  lemma {:induction false} ByteTransitive(a: string, b: string, c: string)
    requires ByteBefore(a, b) && ByteBefore(b, c)
    ensures ByteBefore(a, c)
  {
    if a != "" && a[0] == b[0] == c[0] {
      ByteTransitive(a[1..], b[1..], c[1..]);
    }
  }

  lemma NumberOrder(m: Number, n: Number)
    ensures SameNumber(m, n) || NumberLess(m, n) || NumberLess(n, m)
    ensures !(NumberLess(m, n) && NumberLess(n, m))
    ensures SameNumber(m, n) ==> !NumberLess(m, n) && !NumberLess(n, m)
  {
    assert Power(0) == 1;
  }

  /** Of two strings one is less, never both, unless loose equality takes them for the same. */
  lemma KeyOrder(a: string, b: string)
    ensures LooselyEqual(a, b) <==> !KeyLess(a, b) && !KeyLess(b, a)
    ensures !(KeyLess(a, b) && KeyLess(b, a))
  {
    hide NumberOf;
    hide NumberLess;
    hide SameNumber;
    ByteOrder(a, b);
    if Numeric(a) && Numeric(b) {
      NumberOrder(NumberOf(a).value, NumberOf(b).value);
      NumberOrder(NumberOf(a).value, NumberOf(a).value);
      SameAsItself(NumberOf(a).value);
    }
  }

  lemma SameAsItself(n: Number)
    ensures SameNumber(n, n)
  {
    assert Power(0) == 1;
  }

  /** The order goes round in a circle only among strings of which at least two are numeric. */
  lemma CircleHasNumbers(a: string, b: string, c: string)
    requires KeyLess(a, b) && KeyLess(b, c) && KeyLess(c, a)
    ensures (Numeric(a) && Numeric(b)) || (Numeric(b) && Numeric(c)) || (Numeric(c) && Numeric(a))
  {
    hide Numeric;
    hide ByteBefore;
    if ByteBefore(a, b) && ByteBefore(b, c) && ByteBefore(c, a) {
      ByteTransitive(a, b, c);
      ByteOrder(a, c);
    }
  }

  // ------------------------------------------------------------------ what numeric strings look like

  predicate NumberChar(c: char) {
    Digit(c) || c == '.' || c == 'e' || c == 'E' || c == '-' || c == '+' || NumericBlank(c)
  }

  predicate NumberChars(s: string) {
    forall c | c in s :: NumberChar(c)
  }

  lemma {:induction false} TrimmedNumberChars(s: string)
    requires NumberChars(Trim(NumericBlank, s))
    ensures NumberChars(s)
  {
    TrimEndNumberChars(TrimStart(NumericBlank, s));
    TrimStartNumberChars(s);
  }

  lemma {:induction false} TrimEndNumberChars(s: string)
    requires NumberChars(TrimEnd(NumericBlank, s))
    ensures NumberChars(s)
  {
    if s != "" && NumericBlank(s[|s| - 1]) {
      TrimEndNumberChars(s[..|s| - 1]);
    }
  }

  lemma {:induction false} TrimStartNumberChars(s: string)
    requires NumberChars(TrimStart(NumericBlank, s))
    ensures NumberChars(s)
  {
    if s != "" && NumericBlank(s[0]) {
      TrimStartNumberChars(s[1..]);
    }
  }

  lemma NumberCharsConcat(a: string, b: string)
    requires NumberChars(a) && NumberChars(b)
    ensures NumberChars(a + b)
  {
    hide NumberChar;
  }

  lemma DigitsAreNumberChars(s: string)
    ensures NumberChars(Digits(s))
  {
  }

  lemma ExponentChars(s: string)
    requires Exponent(s).Some?
    ensures NumberChars(s)
  {
  }

  lemma FractionChars(s: string)
    requires NumberChars(AfterFraction(s))
    ensures NumberChars(s)
  {
    hide NumberChars;
    hide Digits;
    if s != "" && s[0] == '.' {
      assert s == "." + Digits(s[1..]) + AfterFraction(s);
      DigitsAreNumberChars(s[1..]);
      PointIsNumberChar();
      NumberCharsConcat(".", Digits(s[1..]));
      NumberCharsConcat("." + Digits(s[1..]), AfterFraction(s));
    }
  }

  lemma PointIsNumberChar()
    ensures NumberChars(".")
  {
  }

  lemma AssembledChars(whole: string, rest: string)
    requires forall c | c in whole :: Digit(c)
    requires Assemble(whole, rest).Some?
    ensures NumberChars(rest)
  {
    hide Exponent;
    hide Fraction;
    hide AfterFraction;
    hide DigitsValue;
    hide NumberChars;
    ExponentChars(AfterFraction(rest));
    FractionChars(rest);
  }

  lemma UnsignedNumberChars(s: string)
    requires UnsignedNumber(s).Some?
    ensures NumberChars(s)
  {
    hide Assemble;
    hide Digits;
    hide NumberChars;
    var whole, rest := Digits(s), s[|Digits(s)|..];
    assert s == whole + rest;
    AssembledChars(whole, rest);
    DigitsAreNumberChars(s);
    NumberCharsConcat(whole, rest);
  }

  /** A numeric string consists of digits, signs, points, exponent letters and white space. */
  lemma NumericChars(s: string)
    requires Numeric(s)
    ensures NumberChars(s)
  {
    UnsignedNumberChars(Unsigned(Trim(NumericBlank, s)));
    TrimmedNumberChars(s);
  }

  // ------------------------------------------------------------------ another spelling of a number

  lemma {:induction false} LeadingZeroValue(digits: string)
    requires forall c | c in digits :: Digit(c)
    ensures forall c | c in "0" + digits :: Digit(c)
    ensures DigitsValue("0" + digits) == DigitsValue(digits)
  {
    if digits == "" {
      assert "0" + digits == "0";
      assert DigitsValue("0"[..0]) == 0;
    } else {
      var n := |digits| - 1;
      LeadingZeroValue(digits[..n]);
      assert ("0" + digits)[..n + 1] == "0" + digits[..n];
    }
  }

  lemma LeadingZeroAssembled(whole: string, rest: string)
    requires forall c | c in whole :: Digit(c)
    requires Assemble(whole, rest).Some?
    ensures forall c | c in "0" + whole :: Digit(c)
    ensures Assemble("0" + whole, rest) == Assemble(whole, rest)
  {
    hide Exponent;
    hide Digits;
    hide DigitsValue;
    var fraction := Fraction(rest);
    assert ("0" + whole) + fraction == "0" + (whole + fraction);
    LeadingZeroValue(whole + fraction);
  }

  lemma LeadingZeroDigits(s: string)
    ensures Digits("0" + s) == "0" + Digits(s)
    ensures ("0" + s)[|Digits("0" + s)|..] == s[|Digits(s)|..]
  {
    assert ("0" + s)[1..] == s;
  }

  lemma LeadingZeroUnsigned(s: string)
    requires UnsignedNumber(s).Some?
    ensures UnsignedNumber("0" + s) == UnsignedNumber(s)
  {
    hide Assemble;
    LeadingZeroDigits(s);
    LeadingZeroAssembled(Digits(s), s[|Digits(s)|..]);
  }

  /** The same number with a leading zero after its sign. */
  function WithZero(s: string): string {
    if s != "" && (s[0] == '-' || s[0] == '+') then [s[0]] + "0" + s[1..] else "0" + s
  }

  lemma WithZeroParts(s: string)
    ensures Unsigned(WithZero(s)) == "0" + Unsigned(s) && Sign(WithZero(s)) == Sign(s)
    ensures |WithZero(s)| == |s| + 1 && !NumericBlank('0')
    ensures WithZero(s)[|s|] == '0' || (s != "" && WithZero(s)[|s|] == s[|s| - 1])
    ensures !NumericBlank(WithZero(s)[0]) || (s != "" && WithZero(s)[0] == s[0])
  {
  }

  /** Every number has another spelling that loose equality takes for the same. */
  lemma AnotherSpelling(s: string)
    requires Numeric(s) && s != "" && !NumericBlank(s[0]) && !NumericBlank(s[|s| - 1])
    ensures WithZero(s) != s && LooselyEqual(WithZero(s), s)
  {
    hide UnsignedNumber;
    hide Unsigned;
    hide Sign;
    hide NumericBlank;
    WithZeroParts(s);
    hide WithZero;
    TrimIdentity(NumericBlank, s);
    TrimIdentity(NumericBlank, WithZero(s));
    LeadingZeroUnsigned(Unsigned(s));
  }

  // ------------------------------------------------------------------ a circle

  lemma {:induction false} AllDigits(s: string)
    requires forall c | c in s :: Digit(c)
    ensures Digits(s) == s
  {
    if s != "" {
      AllDigits(s[1..]);
    }
  }

  lemma DigitIsSolid(c: char)
    requires Digit(c)
    ensures !NumericBlank(c) && c != '-' && c != '+'
  {
  }

  lemma AssembleDigits(s: string)
    requires s != "" && forall c | c in s :: Digit(c)
    ensures Assemble(s, "") == Some(Number(DigitsValue(s), 0))
  {
    assert s + "" == s;
  }

  lemma DigitsAreANumber(s: string)
    requires s != "" && forall c | c in s :: Digit(c)
    ensures NumberOf(s) == Some(Number(DigitsValue(s), 0))
  {
    hide Digit;
    hide Digits;
    hide DigitsValue;
    hide NumericBlank;
    hide Assemble;
    hide Trim;
    AllDigits(s);
    DigitIsSolid(s[0]);
    DigitIsSolid(s[|s| - 1]);
    TrimIdentity(NumericBlank, s);
    assert s[|s|..] == "";
    AssembleDigits(s);
  }

  predicate AllDigit(s: string) {
    forall c | c in s :: Digit(c)
  }

  lemma {:induction false} DigitsThen(digits: string, rest: string)
    requires AllDigit(digits) && (rest == "" || !Digit(rest[0]))
    ensures Digits(digits + rest) == digits
  {
    if digits == "" {
      assert digits + rest == rest;
    } else {
      assert (digits + rest)[1..] == digits[1..] + rest;
      DigitsThen(digits[1..], rest);
    }
  }

  /** The exponent letter is followed by digits, with or without a sign. */
  lemma ExponentOf(exponent: string)
    requires AllDigit(exponent) && exponent != ""
    ensures Exponent("e" + exponent) == Some(DigitsValue(exponent))
    ensures Exponent("e-" + exponent) == Some(-DigitsValue(exponent))
  {
    hide DigitsValue;
    AllDigits(exponent);
    DigitIsSolid(exponent[0]);
    assert ("e" + exponent)[1..] == exponent && ("e-" + exponent)[1..] == "-" + exponent;
    assert ("-" + exponent)[1..] == exponent;
  }

  /** What follows the leading digits is neither a digit nor a blank at its end. */
  lemma NumberFromParts(whole: string, rest: string)
    requires AllDigit(whole) && whole != "" && rest != "" && !Digit(rest[0]) && Digit(rest[|rest| - 1])
    ensures NumberOf(whole + rest) == Assemble(whole, rest)
  {
    hide Digit;
    hide DigitsValue;
    hide NumericBlank;
    hide Assemble;
    hide Trim;
    var s := whole + rest;
    DigitIsSolid(whole[0]);
    DigitIsSolid(rest[|rest| - 1]);
    TrimIdentity(NumericBlank, s);
    DigitsThen(whole, rest);
    assert s[|whole|..] == rest;
    SameSign(Assemble(whole, rest));
  }

  lemma SameSign(n: Option<Number>)
    ensures n.Some? ==> Number(1 * n.value.mantissa, n.value.exponent) == n.value
  {
  }

  lemma AssembleExponent(whole: string, exponent: string)
    requires AllDigit(whole) && whole != "" && AllDigit(exponent) && exponent != ""
    ensures Assemble(whole, "e" + exponent) == Some(Number(DigitsValue(whole), DigitsValue(exponent)))
  {
    hide Digit;
    hide DigitsValue;
    hide Exponent;
    ExponentOf(exponent);
    assert ("e" + exponent)[0] == 'e' && whole + "" == whole;
  }

  lemma AssembleFraction(whole: string, fraction: string)
    requires AllDigit(whole) && whole != "" && AllDigit(fraction) && fraction != ""
    ensures Assemble(whole, "." + fraction) == Some(Number(DigitsValue(whole + fraction), -|fraction|))
  {
    hide Digit;
    hide Digits;
    hide DigitsValue;
    AllDigits(fraction);
    var rest := "." + fraction;
    assert rest[0] == '.' && rest[1..] == fraction && rest[1 + |fraction|..] == "";
  }

  lemma LastOfRest(c: char, digits: string)
    requires AllDigit(digits) && digits != "" && !Digit(c)
    ensures var rest := [c] + digits; rest != "" && !Digit(rest[0]) && Digit(rest[|rest| - 1])
  {
    hide Digit;
    var rest := [c] + digits;
    assert rest[|rest| - 1] == digits[|digits| - 1];
  }

  lemma NoDigits()
    ensures !Digit('e') && !Digit('.')
  {
  }

  /** Digits with an exponent. */
  lemma WithExponent(whole: string, exponent: string)
    requires AllDigit(whole) && whole != "" && AllDigit(exponent) && exponent != ""
    ensures NumberOf(whole + "e" + exponent) == Some(Number(DigitsValue(whole), DigitsValue(exponent)))
  {
    hide *;
    NoDigits();
    LastOfRest('e', exponent);
    assert whole + "e" + exponent == whole + ("e" + exponent);
    NumberFromParts(whole, "e" + exponent);
    AssembleExponent(whole, exponent);
  }

  /** Digits with a fraction. */
  lemma WithFraction(whole: string, fraction: string)
    requires AllDigit(whole) && whole != "" && AllDigit(fraction) && fraction != ""
    ensures NumberOf(whole + "." + fraction) == Some(Number(DigitsValue(whole + fraction), -|fraction|))
  {
    hide *;
    NoDigits();
    LastOfRest('.', fraction);
    assert whole + "." + fraction == whole + ("." + fraction);
    NumberFromParts(whole, "." + fraction);
    AssembleFraction(whole, fraction);
  }

  lemma TenByPowers()
    ensures SameNumber(Number(10, 0), Number(1, 1)) && SameNumber(Number(10, 0), Number(100, -1))
  {
    assert Power(1) == 10 * Power(0) && Power(0) == 1;
  }

  lemma TenDigits()
    ensures DigitsValue("1") == 1 && DigitsValue("100") == 100
  {
    NineAndTen();
    assert "100"[..2] == "10" && "1"[..0] == "";
  }

  /** Ten, written in four ways, is one key to the search among declared keys. */
  lemma SpellingsOfTen()
    ensures LooselyEqual("10", "010") && LooselyEqual("10", "1e1") && LooselyEqual("10", "10.0")
  {
    hide *;
    TenByPowers();
    TenDigits();
    NineAndTen();
    TenChars();
    DigitsAreANumber("10");
    LeadingZeroTen();
    WithExponent("1", "1");
    WithFraction("10", "0");
    assert "1" + "e" + "1" == "1e1" && "10" + "." + "0" == "10.0" && "10" + "0" == "100";
    EqualByValue("10", "1e1");
    EqualByValue("10", "10.0");
  }

  lemma TenChars()
    ensures AllDigit("1") && AllDigit("10") && AllDigit("0") && forall c | c in "10" :: Digit(c)
  {
  }

  lemma LeadingZeroTen()
    ensures LooselyEqual("10", "010")
  {
    hide *;
    TenChars();
    LeadingZeroValue("10");
    assert "0" + "10" == "010";
    DigitsAreANumber("10");
    DigitsAreANumber("010");
    SameAsItself(Number(DigitsValue("10"), 0));
    EqualByValue("10", "010");
  }

  lemma EqualByValue(a: string, b: string)
    requires NumberOf(a).Some? && NumberOf(b).Some? && SameNumber(NumberOf(a).value, NumberOf(b).value)
    ensures LooselyEqual(a, b)
  {
  }

  lemma NotANumber(s: string, c: char)
    requires c in s && !NumberChar(c)
    ensures !Numeric(s)
  {
    hide NumberChar;
    hide NumberOf;
    if Numeric(s) {
      NumericChars(s);
    }
  }

  lemma LessByFirst(a: string, b: string)
    requires a != "" && b != "" && a[0] < b[0]
    requires !Numeric(a) || !Numeric(b)
    ensures KeyLess(a, b)
  {
    hide Numeric;
  }

  lemma LessByValue(a: string, b: string, m: int, n: int)
    requires NumberOf(a) == Some(Number(m, 0)) && NumberOf(b) == Some(Number(n, 0)) && m < n
    ensures KeyLess(a, b)
  {
    hide NumberOf;
    assert Power(0) == 1;
  }

  lemma NineAndTen()
    ensures DigitsValue("9") == 9 && DigitsValue("10") == 10
  {
    assert "9"[..0] == "" && "10"[..1] == "1" && "1"[..0] == "";
  }

  lemma CircleChars()
    ensures (forall c | c in "9" :: Digit(c)) && (forall c | c in "10" :: Digit(c))
    ensures 'x' in "5x" && !NumberChar('x')
  {
    assert "5x"[1] == 'x';
  }

  /** Nine is less than ten by value, "10" less than "5x" and "5x" less than "9" by bytes. */
  lemma CircleOfThree()
    ensures KeyLess("9", "10") && KeyLess("10", "5x") && KeyLess("5x", "9")
  {
    hide *;
    CircleChars();
    NineAndTen();
    DigitsAreANumber("9");
    DigitsAreANumber("10");
    LessByValue("9", "10", 9, 10);
    NotANumber("5x", 'x');
    LessByFirst("10", "5x");
    LessByFirst("5x", "9");
  }
}
