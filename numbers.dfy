/** The two text conversions the core applies to attribute values: Rust's
    `str::parse::<u32>()` (src/parser.rs) and `Display` of u32 and bool
    (src/stitcher.rs), plus the lower-casing used for `conditionalAd`. */
module Numbers {
  import opened Models

  predicate IsDigit(c: char) {
    '0' <= c <= '9'
  }

  predicate AllDigits(s: string) {
    forall i :: 0 <= i < |s| ==> IsDigit(s[i])
  }

  function DigitValue(c: char): nat
    requires IsDigit(c)
  {
    (c as int) - ('0' as int)
  }

  function DigitChar(d: nat): (c: char)
    requires d < 10
    ensures IsDigit(c) && DigitValue(c) == d
  {
    ('0' as int + d) as char
  }

  /** The value of a string of decimal digits, most significant first. */
  function DecimalValue(s: string): nat
    requires AllDigits(s)
  {
    if s == [] then 0 else DecimalValue(s[..|s| - 1]) * 10 + DigitValue(s[|s| - 1])
  }

  /** `s.parse::<u32>()`: an optional leading '+', then at least one ASCII digit,
      and a value that fits in 32 bits; anything else is an error (None). */
  function ParseU32(s: string): (r: Option<u32>)
    ensures r.Some? ==> |s| > 0
  {
    var digits := if |s| > 0 && s[0] == '+' then s[1..] else s;
    if digits != [] && AllDigits(digits) && DecimalValue(digits) < U32Limit then
      Some(DecimalValue(digits))
    else
      None
  }

  /** `format!("{}", n)` for an unsigned integer: shortest decimal form. */
  function ShowNat(n: nat): (s: string)
    ensures |s| > 0 && AllDigits(s)
  {
    if n < 10 then [DigitChar(n)] else ShowNat(n / 10) + [DigitChar(n % 10)]
  }

  /** `format!("{}", b)` for a bool. */
  function ShowBool(b: bool): string {
    if b then "true" else "false"
  }

  /** ASCII lower-casing of one character. */
  function LowerChar(c: char): char {
    if 'A' <= c <= 'Z' then (c as int + 32) as char else c
  }

  /** Lower-casing of ASCII letters only. Rust's `str::to_lowercase` follows the
      full Unicode case mapping (it may change a non-ASCII character, or expand it
      into two); no non-ASCII character maps onto one of the letters of "true",
      so the one comparison made with the result, in IsTrueText, comes out the
      same. */
  function Lower(s: string): (r: string)
    ensures |r| == |s|
    ensures forall i :: 0 <= i < |s| ==> r[i] == LowerChar(s[i])
  {
    if s == [] then [] else [LowerChar(s[0])] + Lower(s[1..])
  }

  /** `value.to_lowercase() == "true"`, the reading of `conditionalAd`. */
  predicate IsTrueText(v: string) {
    Lower(v) == "true"
  }

  /** The rendered form of every u32 is read back by the attribute parser as the
      same number. */
  lemma {:induction false} ShowNatDecimal(n: nat)
    ensures DecimalValue(ShowNat(n)) == n
  {
    if n >= 10 {
      ShowNatDecimal(n / 10);
      var s := ShowNat(n);
      assert s[..|s| - 1] == ShowNat(n / 10);
    }
  }

  lemma ParseShowU32(n: u32)
    ensures ParseU32(ShowNat(n)) == Some(n)
  {
    ShowNatDecimal(n);
    assert ShowNat(n)[0] != '+';
  }

  /** A decimal value that does not fit in 32 bits is rejected, so a parsed value
      always lies in 0 .. 4294967295. */
  lemma ParseU32Overflow(n: nat)
    requires n >= U32Limit
    ensures ParseU32(ShowNat(n)) == None
  {
    ShowNatDecimal(n);
    assert ShowNat(n)[0] != '+';
  }

  /** An optional '+' is accepted; a lone sign, a '-' or an empty value is not. */
  lemma ParseU32Signs()
    ensures ParseU32("+7") == Some(7)
    ensures ParseU32("+") == None && ParseU32("-1") == None && ParseU32("") == None
  {
    assert AllDigits("7");
    assert !IsDigit("-1"[0]);
  }

  /** A rendered bool is read back as the same flag. */
  lemma ReadShowBool(b: bool)
    ensures IsTrueText(ShowBool(b)) == b
  {
    if !b {
      assert Lower("false")[0] == 'f';
    }
  }

  /** Case is ignored when reading `conditionalAd`. */
  lemma IsTrueTextIgnoresCase()
    ensures IsTrueText("TRUE") && IsTrueText("True") && !IsTrueText("yes") && !IsTrueText("1")
  {
    assert Lower("TRUE") == "true";
    assert Lower("True") == "true";
    assert Lower("yes")[0] == 'y';
    assert |Lower("1")| == 1;
  }
}
