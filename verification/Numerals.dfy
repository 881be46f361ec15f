/** Decimal and hexadecimal numerals, as `{}`, `{:x}` and `str::parse` treat them. */
module Numerals {
  import opened Wrappers
  import opened Json
  import opened JsonGrammar

  const U64_MAX: nat := 0xFFFF_FFFF_FFFF_FFFF
  const U128_MAX: nat := 0xFFFF_FFFF_FFFF_FFFF_FFFF_FFFF_FFFF_FFFF

  /** `{}` of an unsigned integer. */
  function Decimal(n: nat): (s: string)
    ensures s != "" && AllDigits(s) && (n > 0 ==> s[0] != '0')
  {
    var d := ('0' as int + n % 10) as char;
    if n < 10 then [d] else Decimal(n / 10) + [d]
  }

  function DigitsValue(s: string): nat
    requires AllDigits(s)
  {
    if s == "" then 0 else DigitsValue(s[..|s| - 1]) * 10 + (s[|s| - 1] as int - '0' as int)
  }

  /** `parse::<u64>()`/`parse::<u128>()` of a lexeme without `.`, `e` or `E`. */
  function ParseUnsigned(s: string, max: nat): Option<nat> {
    if s == "" || !AllDigits(s) || DigitsValue(s) > max then None else Some(DigitsValue(s))
  }

  lemma {:induction false} DigitsOfDecimal(n: nat)
    ensures DigitsValue(Decimal(n)) == n
  {
    if n >= 10 {
      DigitsOfDecimal(n / 10);
      assert Decimal(n)[..|Decimal(n)| - 1] == Decimal(n / 10);
    }
  }

  lemma ParseDecimal(n: nat, max: nat)
    requires n <= max
    ensures ParseUnsigned(Decimal(n), max) == Some(n)
  {
    DigitsOfDecimal(n);
  }

  /** A decimal numeral is a legal JSON number without fraction or exponent. */
  lemma DecimalIsLexeme(n: nat)
    ensures IsLexeme(Decimal(n))
  {
    var s := Decimal(n);
    var parts := NumberParts(false, s, None, None);
    assert WholeOk(s);
    assert "" + (s + "") == s;
    assert NumberOk(parts) && ShowNumber(parts, "") == s;
  }

  /** `{:x}` of an unsigned integer. */
  function Hex(n: nat): (s: string)
    ensures s != ""
  {
    if n < 16 then [HexDigit(n)] else Hex(n / 16) + [HexDigit(n % 16)]
  }

  lemma {:induction false} HexInjective(m: nat, n: nat)
    requires Hex(m) == Hex(n)
    ensures m == n
  {
    var s, t := Hex(m), Hex(n);
    assert s[|s| - 1] == HexDigit(m % 16) && t[|t| - 1] == HexDigit(n % 16);
    assert m % 16 == n % 16;
    if m >= 16 && n >= 16 {
      assert s[..|s| - 1] == Hex(m / 16) && t[..|t| - 1] == Hex(n / 16);
      HexInjective(m / 16, n / 16);
    }
  }
}
