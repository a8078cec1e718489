/** Numeric literals as the tokenizer cuts them (a run of digits and dots)
    and as `double.TryParse` with the invariant culture reads them back.
    The value is the exact decimal the lexeme denotes; rounding to the
    nearest double is not modelled. */
module Numbers {
  import opened Syntax

  predicate IsDigit(c: char) {
    '0' <= c <= '9'
  }

  /** A character that starts or continues a numeric literal. */
  predicate IsNumberChar(c: char) {
    IsDigit(c) || c == '.'
  }

  function Pow10(k: nat): (r: nat)
    ensures r >= 1
  {
    if k == 0 then 1 else 10 * Pow10(k - 1)
  }

  predicate AllDigits(s: string) {
    forall k :: 0 <= k < |s| ==> IsDigit(s[k])
  }

  /** The natural number a string of decimal digits denotes ("" denotes 0). */
  function DigitsValue(s: string): (n: nat)
    requires AllDigits(s)
    ensures n < Pow10(|s|)
  {
    if s == [] then 0
    else 10 * DigitsValue(s[..|s| - 1]) + (s[|s| - 1] as int - '0' as int)
  }

  /** A lexeme `TryParse` accepts: digits and dots only, at least one digit,
      at most one dot. */
  predicate ValidLiteral(s: string) {
    && (forall k :: 0 <= k < |s| ==> IsNumberChar(s[k]))
    && (exists k :: 0 <= k < |s| && IsDigit(s[k]))
    && (forall j, k :: 0 <= j < k < |s| && s[j] == '.' ==> s[k] != '.')
  }

  /** Index of the first '.' in `s`, if any. */
  function DotIndex(s: string): (r: Option<nat>)
    ensures r.Some? ==> r.value < |s| && s[r.value] == '.'
    ensures r.Some? ==> forall k :: 0 <= k < r.value ==> s[k] != '.'
    ensures r.None? ==> forall k :: 0 <= k < |s| ==> s[k] != '.'
  {
    if s == [] then None
    else if s[0] == '.' then Some(0)
    else match DotIndex(s[1..])
      case None => None
      case Some(k) => Some(k + 1)
  }

  /** `double.TryParse(lexeme, NumberStyles.Float, InvariantCulture)` on a
      digit-and-dot lexeme: the whole part plus the fraction. */
  function ParseLiteral(s: string): (r: Option<real>)
    ensures r.Some? <==> ValidLiteral(s)
    ensures r.Some? ==> r.value >= 0.0
  {
    if !ValidLiteral(s) then None
    else match DotIndex(s)
      case None =>
        NoDotDigits(s);
        Some(DigitsValue(s) as real)
      case Some(k) =>
        DotSplitsDigits(s, k);
        var whole, fraction, scale := DigitsValue(s[..k]) as real, DigitsValue(s[k + 1..]) as real, Pow10(|s| - k - 1) as real;
        FractionNonNegative(fraction, scale);
        Some(whole + fraction / scale)
  }

  /** A literal without a dot is all digits. */
  lemma NoDotDigits(s: string)
    requires ValidLiteral(s) && DotIndex(s).None?
    ensures AllDigits(s)
  {
    forall i | 0 <= i < |s|
      ensures IsDigit(s[i])
    {
      assert IsNumberChar(s[i]) && s[i] != '.';
    }
  }

  /** The dot of a literal separates two runs of digits. */
  lemma DotSplitsDigits(s: string, k: nat)
    requires ValidLiteral(s) && DotIndex(s) == Some(k)
    ensures AllDigits(s[..k]) && AllDigits(s[k + 1..])
  {
    forall i | 0 <= i < k
      ensures IsDigit(s[..k][i])
    {
      assert s[..k][i] == s[i] && IsNumberChar(s[i]) && s[i] != '.';
    }
    var t := s[k + 1..];
    forall i | 0 <= i < |t|
      ensures IsDigit(t[i])
    {
      assert t[i] == s[k + 1 + i] && IsNumberChar(s[k + 1 + i]) && s[k + 1 + i] != '.';
    }
  }

  lemma FractionNonNegative(fraction: real, scale: real)
    requires fraction >= 0.0 && scale > 0.0
    ensures fraction / scale >= 0.0
  {
  }

  /** The decimal digits of `n`, most significant first: a reference
      printer against which `ParseLiteral` is checked. */
  function Decimal(n: nat): (s: string)
    ensures |s| >= 1 && AllDigits(s)
  {
    (if n < 10 then "" else Decimal(n / 10)) + [('0' as int + n % 10) as char]
  }

  lemma {:induction false} DecimalValue(n: nat)
    ensures DigitsValue(Decimal(n)) == n
  {
    var s := Decimal(n);
    var init := if n < 10 then "" else Decimal(n / 10);
    assert s == init + [('0' as int + n % 10) as char];
    assert s[..|s| - 1] == init;
    assert s[|s| - 1] as int - '0' as int == n % 10;
    if n >= 10 {
      DecimalValue(n / 10);
      assert DigitsValue(init) == n / 10;
    }
    assert n == 10 * (n / 10) + n % 10;
  }

  /** `ParseLiteral` reads every natural number's decimal digits back as
      that number. */
  lemma DecimalRoundTrip(n: nat)
    ensures ParseLiteral(Decimal(n)) == Some(n as real)
  {
    var s := Decimal(n);
    assert IsDigit(s[|s| - 1]);
    assert DotIndex(s).None?;
    DecimalValue(n);
  }

  /** A lexeme of digits only reads as the number its digits denote. */
  lemma DigitsLiteral(s: string)
    requires |s| >= 1 && AllDigits(s)
    ensures ParseLiteral(s) == Some(DigitsValue(s) as real)
  {
    assert IsDigit(s[0]);
    assert DotIndex(s).None?;
  }
}
