/**
 * Petition identifiers: `"PET-"` followed by the petition's sequence number
 * written in decimal and left-padded with zeros to at least four digits,
 * which is what Python's format specification `:04d` produces for a
 * non-negative integer.
 */
module PetitionId {
  import opened Wrappers

  const IdPrefix: string := "PET-"
  const MinWidth: nat := 4

  predicate IsDigit(c: char) {
    '0' <= c <= '9'
  }

  predicate AllDigits(s: string) {
    forall i :: 0 <= i < |s| ==> IsDigit(s[i])
  }

  function Pow10(k: nat): (p: nat)
    ensures p >= 1
  {
    if k == 0 then 1 else 10 * Pow10(k - 1)
  }

  /** The character of the decimal digit `d`. */
  function DigitChar(d: nat): (c: char)
    requires d < 10
    ensures IsDigit(c) && c as int - '0' as int == d
  {
    ('0' as int + d) as char
  }

  /** The number a string of decimal digits denotes; leading zeros are allowed. */
  function DigitsValue(s: string): nat
    requires AllDigits(s)
  {
    if s == [] then 0
    else DigitsValue(s[..|s| - 1]) * 10 + (s[|s| - 1] as int - '0' as int)
  }

  /** `k` zero characters. */
  function Zeros(k: nat): (z: string)
    ensures |z| == k && AllDigits(z)
  {
    seq(k, _ => '0')
  }

  /**
   * Python's `str(n)` for a non-negative integer: the digits of `n`, most
   * significant first, with no leading zero.
   */
  function Decimal(n: nat): (s: string)
    ensures |s| >= 1 && AllDigits(s) && DigitsValue(s) == n
    ensures |s| > 1 ==> s[0] != '0'
  {
    if n < 10 then
      [DigitChar(n)]
    else
      var high := Decimal(n / 10);
      var s := high + [DigitChar(n % 10)];
      assert s[..|s| - 1] == high;
      assert |high| == 1 ==> DigitsValue(high) == high[0] as int - '0' as int by {
        if |high| == 1 { assert high[..0] == []; }
      }
      s
  }

  /** Zeros in front of a digit string do not change the number it denotes. */
  lemma {:induction false} ZerosValue(k: nat)
    ensures DigitsValue(Zeros(k)) == 0
  {
    if k > 0 {
      assert Zeros(k)[..k - 1] == Zeros(k - 1);
      ZerosValue(k - 1);
    }
  }

  lemma {:induction false} PaddedValue(k: nat, s: string)
    requires AllDigits(s)
    ensures AllDigits(Zeros(k) + s) && DigitsValue(Zeros(k) + s) == DigitsValue(s)
    decreases |s|
  {
    var t := Zeros(k) + s;
    assert AllDigits(t) by {
      forall i | 0 <= i < |t| ensures IsDigit(t[i]) {
        if i >= k { assert t[i] == s[i - k]; }
      }
    }
    if s == [] {
      assert t == Zeros(k);
      ZerosValue(k);
    } else {
      assert t[..|t| - 1] == Zeros(k) + s[..|s| - 1];
      PaddedValue(k, s[..|s| - 1]);
    }
  }

  /** A digit string of length `|s|` denotes less than `10^|s|`. */
  lemma {:induction false} ValueBelowPow10(s: string)
    requires AllDigits(s)
    ensures DigitsValue(s) < Pow10(|s|)
    decreases |s|
  {
    if s != [] {
      var init := s[..|s| - 1];
      ValueBelowPow10(init);
      assert DigitsValue(init) <= Pow10(|init|) - 1;
      assert DigitsValue(init) * 10 <= Pow10(|s|) - 10;
    }
  }

  /** A digit string that does not start with `'0'` denotes at least `10^(|s|-1)`. */
  lemma {:induction false} LeadingDigitBound(s: string)
    requires AllDigits(s) && |s| >= 1 && s[0] != '0'
    ensures DigitsValue(s) >= Pow10(|s| - 1)
    decreases |s|
  {
    var init := s[..|s| - 1];
    if |s| == 1 {
      assert init == [];
    } else {
      assert init[0] == s[0];
      LeadingDigitBound(init);
      assert DigitsValue(init) * 10 >= Pow10(|init| - 1) * 10;
    }
  }

  /**
   * Python's `format(n, '04d')`: the digits of `n`, zero-padded on the left to
   * four characters; a number of five or more digits is written in full.
   * The result denotes `n`, has at least four digits, and carries a leading
   * zero only when padding was needed to reach four.
   */
  function ZeroPad4(n: nat): (s: string)
    ensures |s| >= MinWidth && AllDigits(s) && DigitsValue(s) == n
    ensures |s| > MinWidth ==> s[0] != '0'
    ensures |s| == MinWidth <==> n < Pow10(MinWidth)
  {
    var digits := Decimal(n);
    var s :=
      if |digits| < MinWidth then
        PaddedValue(MinWidth - |digits|, digits);
        Zeros(MinWidth - |digits|) + digits
      else
        digits;
    WidthBound(s);
    s
  }

  /** A digit string of four or more digits, with no leading zero beyond the
      fourth, has exactly four digits iff it denotes less than 10000. */
  lemma WidthBound(s: string)
    requires |s| >= MinWidth && AllDigits(s)
    requires |s| > MinWidth ==> s[0] != '0'
    ensures |s| == MinWidth <==> DigitsValue(s) < Pow10(MinWidth)
  {
    if |s| == MinWidth {
      ValueBelowPow10(s);
    } else {
      LeadingDigitBound(s);
      Pow10Monotone(MinWidth, |s| - 1);
    }
  }

  lemma {:induction false} Pow10Monotone(i: nat, j: nat)
    requires i <= j
    ensures Pow10(i) <= Pow10(j)
    decreases j
  {
    if i < j { Pow10Monotone(i, j - 1); }
  }

  /** The identifier of the `n`-th submitted petition (Python: `f"PET-{n:04d}"`). */
  function FormatPetitionId(n: nat): (id: string)
    ensures |id| >= |IdPrefix| + MinWidth && id[..|IdPrefix|] == IdPrefix
    ensures IdNumber(id) == Some(n)
    ensures |id| == |IdPrefix| + MinWidth <==> n < 10000
    ensures |id| > |IdPrefix| + MinWidth ==> id[|IdPrefix|] != '0'
  {
    var id := IdPrefix + ZeroPad4(n);
    assert id[..|IdPrefix|] == IdPrefix;
    assert id[|IdPrefix|..] == ZeroPad4(n);
    id
  }

  /**
   * Reads the sequence number back out of an identifier of the form
   * `PET-<digits>`; `None` for anything else.
   */
  function IdNumber(id: string): Option<nat> {
    if |id| > |IdPrefix| && id[..|IdPrefix|] == IdPrefix && AllDigits(id[|IdPrefix|..])
    then Some(DigitsValue(id[|IdPrefix|..]))
    else None
  }

  /** Two petitions with different sequence numbers get different identifiers. */
  lemma FormatPetitionIdInjective(a: nat, b: nat)
    requires a != b
    ensures FormatPetitionId(a) != FormatPetitionId(b)
  {
  }

  /** A few identifiers spelled out, padded and unpadded. */
  lemma FormatPetitionIdExamples()
    ensures FormatPetitionId(1) == "PET-0001"
    ensures FormatPetitionId(2) == "PET-0002"
    ensures FormatPetitionId(42) == "PET-0042"
    ensures FormatPetitionId(12345) == "PET-12345"
  {
    FirstId();
    SecondId();
    TwoDigitId();
    FiveDigitId();
  }

  lemma FirstId()
    ensures FormatPetitionId(1) == "PET-0001"
  {
    assert Decimal(1) == "1";
  }

  lemma SecondId()
    ensures FormatPetitionId(2) == "PET-0002"
  {
    assert Decimal(2) == "2";
  }

  lemma TwoDigitId()
    ensures FormatPetitionId(42) == "PET-0042"
  {
    assert Decimal(4) == "4";
    assert Decimal(42) == "42";
  }

  lemma FiveDigitId()
    ensures FormatPetitionId(12345) == "PET-12345"
  {
    assert Decimal(1) == "1";
    assert Decimal(12) == "12";
    assert Decimal(123) == "123";
    assert Decimal(1234) == "1234";
    assert Decimal(12345) == "12345";
  }
}
