/** The grammar of RFC 8259, spelled out: what the reader takes for space, a number and a letter, and nothing else. */
module JsonGrammar {
  import opened Types
  import opened Json

  // ---------- numbers (section 6) ----------

  predicate Digits(s: string) {
    s != "" && forall i :: 0 <= i < |s| ==> '0' <= s[i] <= '9'
  }

  predicate Whole(s: string) {
    s == "0" || (Digits(s) && s[0] != '0')
  }

  predicate Fraction(s: string) {
    s == "" || (s[0] == '.' && Digits(s[1..]))
  }

  predicate Exponent(s: string) {
    s == "" ||
    ((s[0] == 'e' || s[0] == 'E') &&
     (Digits(s[1..]) || (|s| > 1 && (s[1] == '+' || s[1] == '-') && Digits(s[2..]))))
  }

  predicate Parts(s: string, minus: string, whole: string, fraction: string, exponent: string) {
    && s == minus + (whole + (fraction + exponent))
    && (minus == "" || minus == "-") && Whole(whole) && Fraction(fraction) && Exponent(exponent)
  }

  /** A number is a minus sign or none, a whole part without leading zeros, a fraction or none, an exponent or none. */
  lemma NumbersExactly(s: string)
    ensures ValidNumber(s) <==> exists minus, whole, fraction, exponent :: Parts(s, minus, whole, fraction, exponent)
  {
    if ValidNumber(s) {
      NumberSplits(s);
    }
    if minus, whole, fraction, exponent :| Parts(s, minus, whole, fraction, exponent) {
      PartsRead(s, minus, whole, fraction, exponent);
    }
  }

  predicate NoDigitFirst(s: string) {
    s == "" || !('0' <= s[0] <= '9')
  }

  lemma {:induction false} DigitsDropped(digits: string, rest: string)
    requires (forall i :: 0 <= i < |digits| ==> '0' <= digits[i] <= '9') && NoDigitFirst(rest)
    ensures DropDigits(digits + rest) == rest
  {
    if digits == "" {
      assert digits + rest == rest;
    } else {
      assert (digits + rest)[1..] == digits[1..] + rest;
      DigitsDropped(digits[1..], rest);
    }
  }

  lemma {:induction false} DigitsSplit(s: string) returns (digits: string)
    ensures s == digits + DropDigits(s) && NoDigitFirst(DropDigits(s))
    ensures forall i :: 0 <= i < |digits| ==> '0' <= digits[i] <= '9'
    ensures s != "" && Digit(s[0]) ==> digits != "" && digits[0] == s[0]
  {
    digits := "";
    if s != "" && Digit(s[0]) {
      var tail := DigitsSplit(s[1..]);
      digits := [s[0]] + tail;
      Led(s, tail, DropDigits(s));
    }
  }

  lemma Led(s: string, tail: string, rest: string)
    requires s != "" && s[1..] == tail + rest
    ensures s == [s[0]] + tail + rest
  {
    assert s == [s[0]] + s[1..];
  }

  lemma WholeSplits(s: string) returns (minus: string, whole: string)
    requires AfterWhole(s).Some?
    ensures s == minus + (whole + AfterWhole(s).value) && (minus == "" || minus == "-") && Whole(whole)
  {
    minus := if s != "" && s[0] == '-' then "-" else "";
    var t := if s != "" && s[0] == '-' then s[1..] else s;
    assert s == minus + t;
    if t[0] == '0' {
      whole := "0";
    } else {
      whole := DigitsSplit(t);
    }
  }

  lemma FractionSplits(s: string) returns (fraction: string)
    requires AfterFraction(s).Some?
    ensures s == fraction + AfterFraction(s).value && Fraction(fraction)
  {
    if s == "" || s[0] != '.' {
      fraction := "";
    } else {
      var digits := DigitsSplit(s[1..]);
      fraction := "." + digits;
      assert fraction[1..] == digits;
    }
  }

  lemma ExponentSplits(s: string)
    requires AfterExponent(s) == Some("")
    ensures Exponent(s)
  {
    if s != "" {
      var t := if |s| > 1 && (s[1] == '+' || s[1] == '-') then s[2..] else s[1..];
      var digits := DigitsSplit(t);
      assert t == digits;
    }
  }

  lemma NumberSplits(s: string)
    requires ValidNumber(s)
    ensures exists minus, whole, fraction, exponent :: Parts(s, minus, whole, fraction, exponent)
  {
    var minus, whole := WholeSplits(s);
    var t := AfterWhole(s).value;
    var fraction := FractionSplits(t);
    var exponent := AfterFraction(t).value;
    ExponentSplits(exponent);
    assert Parts(s, minus, whole, fraction, exponent);
  }

  lemma WholeRead(minus: string, whole: string, rest: string)
    requires (minus == "" || minus == "-") && Whole(whole) && NoDigitFirst(rest)
    ensures AfterWhole(minus + (whole + rest)) == Some(rest)
  {
    var s, t := minus + (whole + rest), whole + rest;
    assert (if s != "" && s[0] == '-' then s[1..] else s) == t;
    if whole == "0" {
      assert t[1..] == rest;
    } else {
      DigitsDropped(whole, rest);
    }
  }

  lemma FractionRead(fraction: string, exponent: string)
    requires Fraction(fraction) && Exponent(exponent)
    ensures AfterFraction(fraction + exponent) == Some(exponent) && NoDigitFirst(fraction + exponent)
  {
    if fraction == "" {
      assert fraction + exponent == exponent;
    } else {
      assert (fraction + exponent)[1..] == fraction[1..] + exponent;
      DigitsDropped(fraction[1..], exponent);
    }
  }

  lemma ExponentRead(exponent: string)
    requires Exponent(exponent)
    ensures AfterExponent(exponent) == Some("")
  {
    if exponent != "" {
      var t := if |exponent| > 1 && (exponent[1] == '+' || exponent[1] == '-') then exponent[2..] else exponent[1..];
      assert Digits(t);
      assert t + "" == t;
      DigitsDropped(t, "");
    }
  }

  lemma PartsRead(s: string, minus: string, whole: string, fraction: string, exponent: string)
    requires Parts(s, minus, whole, fraction, exponent)
    ensures ValidNumber(s)
  {
    FractionRead(fraction, exponent);
    WholeRead(minus, whole, fraction + exponent);
    ExponentRead(exponent);
    NumberChars(minus);
    NumberChars(whole);
    NumberChars(fraction);
    NumberChars(exponent);
  }

  lemma NumberChars(s: string)
    requires s == "-" || Whole(s) || Fraction(s) || Exponent(s)
    ensures forall i :: 0 <= i < |s| ==> NumberChar(s[i])
  {
    forall i | 0 <= i < |s| ensures NumberChar(s[i]) {
      if i > 0 { assert s[i] == s[1..][i - 1]; }
      if i > 1 { assert s[i] == s[2..][i - 2]; }
    }
  }

  // ---------- space and letters (sections 2 and 7) ----------

  const HEX_DIGITS := "0123456789abcdef"
  const HEX_CAPITALS := "0123456789ABCDEF"

  predicate IsHex(c: char, n: nat) {
    n < 16 && (HEX_DIGITS[n] == c || HEX_CAPITALS[n] == c)
  }

  lemma HexExactly(c: char, n: nat)
    ensures HexDigit(c) == Some(n) <==> IsHex(c, n)
  {
  }

  /** Four hexadecimal digits, of either case, name the code unit they are in base sixteen, and nothing else does. */
  lemma UnitsExactly(s: string, unit: nat)
    requires |s| == 4
    ensures CodeUnit(s) == Some(unit) <==>
      exists a: nat, b: nat, c: nat, d: nat :: Spells(s, a, b, c, d) && unit == ((a * 16 + b) * 16 + c) * 16 + d
  {
    var a, b, c, d := HexDigit(s[0]), HexDigit(s[1]), HexDigit(s[2]), HexDigit(s[3]);
    hide IsHex, HexDigit;
    if CodeUnit(s).Some? {
      HexExactly(s[0], a.value);
      HexExactly(s[1], b.value);
      HexExactly(s[2], c.value);
      HexExactly(s[3], d.value);
      assert Spells(s, a.value, b.value, c.value, d.value);
    }
    forall x: nat, y: nat, z: nat, w: nat | Spells(s, x, y, z, w)
      ensures CodeUnit(s) == Some(((x * 16 + y) * 16 + z) * 16 + w)
    {
      HexExactly(s[0], x);
      HexExactly(s[1], y);
      HexExactly(s[2], z);
      HexExactly(s[3], w);
    }
  }

  predicate Spells(s: string, a: nat, b: nat, c: nat, d: nat)
    requires |s| == 4
  {
    IsHex(s[0], a) && IsHex(s[1], b) && IsHex(s[2], c) && IsHex(s[3], d)
  }

  const SIGNS := "\"\\/bfnrt"
  const MEANT := "\"\\/\U{8}\U{C}\n\r\t"

  /** Which letters may be written how, and what they stand for: as they are but for quotes, backslashes and control
    * characters; by one of eight signs; by a code unit that is no surrogate; or by the surrogate pair of a character
    * beyond the first plane. */
  lemma LettersExactly(l: Letter)
    ensures l.Raw? ==> (LetterOk(l) <==> l.c as int >= 0x20 && l.c as int != 0x22 && l.c as int != 0x5C)
    ensures l.Raw? && LetterOk(l) ==> LetterOf(l) == l.c
    ensures l.Short? ==> (LetterOk(l) <==> exists i :: 0 <= i < 8 && SIGNS[i] == l.sign)
    ensures l.Short? && LetterOk(l) ==> exists i :: 0 <= i < 8 && SIGNS[i] == l.sign && LetterOf(l) == MEANT[i]
    ensures l.Coded? ==>
      (LetterOk(l) <==> |l.hex| == 4 && CodeUnit(l.hex).Some? && !(0xD800 <= CodeUnit(l.hex).value <= 0xDFFF))
    ensures l.Coded? && LetterOk(l) ==> CodeUnit(l.hex) == Some(LetterOf(l) as nat)
    ensures l.Paired? && LetterOk(l) ==> PairOf(LetterOf(l) as nat, CodeUnit(l.high), CodeUnit(l.low))
    ensures l.Paired? && |l.high| == 4 && |l.low| == 4 && !LetterOk(l) ==>
      forall n: nat :: !PairOf(n, CodeUnit(l.high), CodeUnit(l.low))
  {
    if l.Short? {
      ShortExactly(l.sign);
    }
  }

  lemma ShortExactly(sign: char)
    ensures Unescape(sign).Some? <==> exists i :: 0 <= i < 8 && SIGNS[i] == sign
    ensures Unescape(sign).Some? ==> exists i :: 0 <= i < 8 && SIGNS[i] == sign && Unescape(sign).value == MEANT[i]
  {
    if Unescape(sign).Some? {
      var i := if sign == '"' then 0 else if sign == '\\' then 1 else if sign == '/' then 2 else if sign == 'b' then 3
               else if sign == 'f' then 4 else if sign == 'n' then 5 else if sign == 'r' then 6 else 7;
      assert SIGNS[i] == sign && Unescape(sign).value == MEANT[i];
    }
  }

  /** UTF-16 of a character beyond the first plane. */
  predicate PairOf(n: nat, high: Option<nat>, low: Option<nat>) {
    && 0x10000 <= n <= 0x10FFFF
    && high == Some(0xD800 + (n - 0x10000) / 0x400)
    && low == Some(0xDC00 + (n - 0x10000) % 0x400)
  }

  /** Space is passed over before a value, and it is made of four characters only. */
  lemma SpaceExactly(c: char, s: string)
    ensures SkipSpace([c] + s) == if c in "\t\n\r " then SkipSpace(s) else [c] + s
    ensures c in "\t\n\r " ==> ReadValue([c] + s) == ReadValue(s)
  {
    assert ([c] + s)[1..] == s;
  }
}
