/**
 * The .NET unsigned integer types the bot stores and the two conversions it
 * relies on between them and text: `ulong.ToString()` (used to build config
 * file names) and `ulong.Parse` (used to read ids back from file names and
 * from the restart marker).
 */
module Numbers {
  import opened Wrappers

  /** .NET `uint`. */
  newtype UInt32 = x: int | 0 <= x < 0x1_0000_0000

  /** .NET `ulong`. */
  newtype UInt64 = x: int | 0 <= x < 0x1_0000_0000_0000_0000

  const UInt64Limit: int := 0x1_0000_0000_0000_0000

  /** No id occurs twice. */
  predicate DistinctIds(ids: seq<UInt64>) {
    forall i, j | 0 <= i < j < |ids| :: ids[i] != ids[j]
  }

  predicate IsDigit(c: char) {
    '0' <= c <= '9'
  }

  predicate AllDigits(s: string) {
    forall i | 0 <= i < |s| :: IsDigit(s[i])
  }

  function DigitChar(d: nat): (c: char)
    requires d < 10
    ensures IsDigit(c) && c as int - '0' as int == d
  {
    ('0' as int + d) as char
  }

  /** The number a string of decimal digits denotes, most significant digit first. */
  function DigitsValue(s: string): nat
    requires AllDigits(s)
  {
    if s == [] then 0 else 10 * DigitsValue(s[..|s| - 1]) + (s[|s| - 1] as int - '0' as int)
  }

  /**
   * `ulong.ToString()`: the decimal digits of `n` without leading zeros.
   * The string denotes `n`, so that reading it back gives `n`.
   */
  function Decimal(n: nat): (s: string)
    ensures |s| >= 1 && AllDigits(s)
    ensures |s| == 1 <==> n < 10
    ensures |s| > 1 ==> s[0] != '0'
    ensures DigitsValue(s) == n
  {
    if n < 10 then [DigitChar(n)]
    else
      var s := Decimal(n / 10) + [DigitChar(n % 10)];
      assert s[..|s| - 1] == Decimal(n / 10);
      s
  }

  /** Two numbers print alike only when they are equal. */
  lemma DecimalInjective(a: nat, b: nat)
    requires Decimal(a) == Decimal(b)
    ensures a == b
  {
  }

  /** The characters `UInt64.Parse` skips around a number: U+0009 to U+000D and U+0020. */
  predicate IsWhite(c: char) {
    c == ' ' || '\t' <= c <= '\r'
  }

  function TrimStart(s: string): (r: string)
    ensures r == [] || !IsWhite(r[0])
    ensures |r| <= |s| && r == s[|s| - |r|..]
    ensures forall i | 0 <= i < |s| - |r| :: IsWhite(s[i])
  {
    if s != [] && IsWhite(s[0]) then TrimStart(s[1..]) else s
  }

  function TrimEnd(s: string): (r: string)
    ensures r == [] || !IsWhite(r[|r| - 1])
    ensures |r| <= |s| && r == s[..|r|]
    ensures forall i | |r| <= i < |s| :: IsWhite(s[i])
  {
    if s != [] && IsWhite(s[|s| - 1]) then TrimEnd(s[..|s| - 1]) else s
  }

  /**
   * `ulong.Parse(s)` with its default number style: optional white space, an
   * optional sign, one or more decimal digits, optional white space. A value
   * of 2^64 or more, or a negative value other than zero, is an overflow.
   * `None` stands for the exception the parse throws.
   */
  function ParseULong(s: string): Option<UInt64> {
    var t := TrimEnd(TrimStart(s));
    var signed := |t| > 0 && (t[0] == '+' || t[0] == '-');
    var digits := if signed then t[1..] else t;
    if digits == [] || !AllDigits(digits) then None
    else if signed && t[0] == '-' && DigitsValue(digits) != 0 then None
    else if DigitsValue(digits) >= UInt64Limit then None
    else Some(DigitsValue(digits) as UInt64)
  }

  /** A bare string of digits parses as the number it denotes, unless that overflows. */
  lemma ParseDigits(s: string)
    requires |s| > 0 && AllDigits(s)
    ensures ParseULong(s) == if DigitsValue(s) < UInt64Limit then Some(DigitsValue(s) as UInt64) else None
  {
    assert !IsWhite(s[0]) && !IsWhite(s[|s| - 1]);
    assert TrimStart(s) == s;
    assert TrimEnd(s) == s;
  }

  /** Nothing, or nothing but white space, is not a number. */
  lemma ParseBlank(s: string)
    requires forall i | 0 <= i < |s| :: IsWhite(s[i])
    ensures ParseULong(s) == None
  {
    assert TrimStart(s) == [];
  }

  /** What `ToString` prints, `Parse` reads back. */
  lemma ParseDecimal(n: UInt64)
    ensures ParseULong(Decimal(n as nat)) == Some(n)
  {
    ParseDigits(Decimal(n as nat));
  }
}
