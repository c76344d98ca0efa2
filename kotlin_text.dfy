/**
 * The few pieces of the Kotlin standard library that the screens lean on:
 * `String.isBlank`, `String.ifBlank { null }`, `Int.toString()` and
 * `String.toIntOrNull()`, all on the JVM's 32-bit `Int` and 64-bit `Long`.
 */
module KotlinText {
  import opened Wrappers

  const IntMin: int := -0x8000_0000
  const IntMax: int := 0x7fff_ffff
  const LongMin: int := -0x8000_0000_0000_0000
  const LongMax: int := 0x7fff_ffff_ffff_ffff

  /** The values of Kotlin's `Int`. */
  predicate IsInt(n: int) {
    IntMin <= n <= IntMax
  }

  /** The values of Kotlin's `Long`. */
  predicate IsLong(n: int) {
    LongMin <= n <= LongMax
  }

  /** Two's-complement wrap-around of `Long` arithmetic. */
  function LongWrap(n: int): (r: int)
    ensures IsLong(r)
    ensures (r - n) % 0x1_0000_0000_0000_0000 == 0
    ensures IsLong(n) ==> r == n
  {
    (n - LongMin) % 0x1_0000_0000_0000_0000 + LongMin
  }

  /**
   * Kotlin's `Char.isWhitespace()` on the JVM: `Character.isWhitespace`
   * (tab, line feed, vertical tab, form feed, carriage return, the
   * separators U+001C..U+001F and the breaking space separators) or
   * `Character.isSpaceChar` (every Unicode space, line or paragraph
   * separator, including the non-breaking ones).
   */
  predicate IsWhitespace(c: char) {
    var k := c as int;
    || (0x09 <= k <= 0x0D)
    || (0x1C <= k <= 0x20)
    || k == 0xA0 || k == 0x1680
    || (0x2000 <= k <= 0x200A)
    || k == 0x2028 || k == 0x2029 || k == 0x202F || k == 0x205F || k == 0x3000
  }

  /** `String.isBlank()`: empty, or whitespace only. */
  predicate IsBlank(s: string) {
    forall i :: 0 <= i < |s| ==> IsWhitespace(s[i])
  }

  /** `s.ifBlank { null }`: absent when blank, otherwise the text verbatim. */
  function BlankToNull(s: string): (r: Option<string>)
    ensures r == None <==> IsBlank(s)
    ensures r.Some? ==> r.value == s && !IsBlank(r.value)
  {
    if IsBlank(s) then None else Some(s)
  }

  // ---------------------------------------------------------------------
  // Decimal digits

  predicate IsDigit(c: char) {
    '0' <= c <= '9'
  }

  predicate AllDigits(s: string) {
    forall i :: 0 <= i < |s| ==> IsDigit(s[i])
  }

  function DigitValue(c: char): (d: nat)
    requires IsDigit(c)
    ensures d < 10
  {
    c as int - '0' as int
  }

  function DigitChar(d: nat): (c: char)
    requires d < 10
    ensures IsDigit(c) && DigitValue(c) == d
  {
    ('0' as int + d) as char
  }

  /** The number a string of decimal digits denotes, most significant first. */
  function DigitsValue(s: string): nat
    requires AllDigits(s)
  {
    if s == [] then 0 else DigitsValue(s[..|s| - 1]) * 10 + DigitValue(s[|s| - 1])
  }

  /** The decimal text of a natural number, without leading zeros. */
  function NatText(n: nat): (s: string)
    ensures |s| > 0 && AllDigits(s)
    ensures |s| > 1 ==> s[0] != '0'
    decreases n
  {
    if n < 10 then [DigitChar(n)] else NatText(n / 10) + [DigitChar(n % 10)]
  }

  /** `Int.toString()` (and string templates `"$n"`): a minus sign for negatives. */
  function IntText(n: int): (s: string)
    ensures |s| > 0
    ensures n < 0 <==> s[0] == '-'
    ensures n >= 0 ==> AllDigits(s)
    ensures n < 0 ==> AllDigits(s[1..])
  {
    if n < 0 then "-" + NatText(-n) else NatText(n)
  }

  /**
   * `String.toIntOrNull()` in radix 10: an optional leading '-' or '+',
   * then at least one digit, and the value must fit in an `Int`;
   * anything else gives null.
   */
  function ParseInt(s: string): (r: Option<int>)
    ensures r.Some? ==> IsInt(r.value)
    ensures s == [] ==> r == None
    ensures r.Some? && s[0] != '-' && s[0] != '+' ==> AllDigits(s) && r.value == DigitsValue(s)
    ensures s != [] && AllDigits(s) && IsInt(DigitsValue(s)) ==> r == Some(DigitsValue(s))
    ensures r.Some? && s[0] == '-' ==> AllDigits(s[1..]) && r.value == -(DigitsValue(s[1..]) as int)
    ensures |s| > 1 && s[0] == '-' && AllDigits(s[1..]) && IsInt(-(DigitsValue(s[1..]) as int)) ==>
              r == Some(-(DigitsValue(s[1..]) as int))
  {
    if s == [] then None
    else if s[0] == '-' || s[0] == '+' then
      var body := s[1..];
      if body == [] || !AllDigits(body) then None
      else
        var v: int := if s[0] == '-' then -(DigitsValue(body) as int) else DigitsValue(body);
        if IsInt(v) then Some(v) else None
    else if !AllDigits(s) then None
    else if IsInt(DigitsValue(s)) then Some(DigitsValue(s)) else None
  }

  lemma {:induction false} NatTextValue(n: nat)
    ensures DigitsValue(NatText(n)) == n
    decreases n
  {
    if n >= 10 {
      var s := NatText(n);
      var prefix := NatText(n / 10);
      assert s == prefix + [DigitChar(n % 10)];
      assert s[..|s| - 1] == prefix;
      NatTextValue(n / 10);
    }
  }

  /** Parsing any number's text gives the number back exactly when it is an `Int`. */
  lemma {:induction false} ParseIntTextValue(n: int)
    ensures ParseInt(IntText(n)) == if IsInt(n) then Some(n) else None
  {
    var s := IntText(n);
    if n < 0 {
      var body := s[1..];
      assert body == NatText(-n);
      NatTextValue(-n);
      assert s[0] == '-' && body != [] && AllDigits(body);
      var v: int := -(DigitsValue(body) as int);
      assert v == n;
    } else {
      assert s == NatText(n);
      NatTextValue(n);
      assert IsDigit(s[0]);
      assert AllDigits(s) && DigitsValue(s) == n;
    }
  }

  /** The round trip behind `maxMembers.toString()` and `"$base/$id"` routes. */
  lemma ParseIntText(n: int)
    requires IsInt(n)
    ensures ParseInt(IntText(n)) == Some(n)
  {
    ParseIntTextValue(n);
  }

  /** A number outside `Int` has no `Int` parse, so `toIntOrNull` gives null. */
  lemma ParseIntTextOutOfRange(n: int)
    requires !IsInt(n)
    ensures ParseInt(IntText(n)) == None
  {
    ParseIntTextValue(n);
  }

  /** Distinct numbers have distinct texts: the text identifies the number. */
  lemma IntTextInjective(m: int, n: int)
    requires IsInt(m) && IsInt(n) && IntText(m) == IntText(n)
    ensures m == n
  {
    ParseIntText(m);
    ParseIntText(n);
  }

  /** A string with a character that is neither a digit nor a leading sign is rejected. */
  lemma ParseIntRejectsNonDigit(s: string, i: nat)
    requires i < |s| && !IsDigit(s[i]) && (i > 0 || (s[i] != '-' && s[i] != '+'))
    ensures ParseInt(s) == None
  {
  }

  /** A leading '+' changes nothing: "+7" parses as "7". */
  lemma ParseIntPlusSign(s: string)
    requires AllDigits(s)
    ensures ParseInt("+" + s) == ParseInt(s)
  {
    assert ("+" + s)[1..] == s;
  }

  lemma {:induction false} DigitsValueLeadingZero(s: string)
    requires AllDigits(s)
    ensures AllDigits("0" + s) && DigitsValue("0" + s) == DigitsValue(s)
    decreases |s|
  {
    var z := "0" + s;
    assert forall i :: 0 < i < |z| ==> z[i] == s[i - 1];
    if s != [] {
      DigitsValueLeadingZero(s[..|s| - 1]);
      assert z[..|z| - 1] == "0" + s[..|s| - 1];
    } else {
      assert z[..|z| - 1] == [];
    }
  }

  /** Leading zeros change nothing: "020" parses as "20". */
  lemma ParseIntLeadingZero(s: string)
    requires s != [] && AllDigits(s)
    ensures ParseInt("0" + s) == ParseInt(s)
  {
    DigitsValueLeadingZero(s);
  }

  /** A lone sign carries no digits and is rejected. */
  lemma ParseIntRejectsLoneSign()
    ensures ParseInt("-") == None && ParseInt("+") == None
  {
  }
}
