/** Decimal integer parsing as done by Go's `strconv.Atoi` (64-bit `int`)
    and `strconv.ParseInt(s, 10, 32)`: an optional `+` or `-` sign followed
    by at least one ASCII digit, with no spaces, no underscores and no other
    characters, whose value lies in the signed range of the requested width.
    Leading zeros are allowed. Every failure (syntax or range) is `None`. */
module GoStrconv {
  import opened Wrappers

  const MinInt64: int := -0x8000_0000_0000_0000
  const MaxInt64: int := 0x7FFF_FFFF_FFFF_FFFF
  const MinInt32: int := -0x8000_0000
  const MaxInt32: int := 0x7FFF_FFFF

  predicate IsDigit(c: char)
  {
    '0' <= c <= '9'
  }

  predicate AllDigits(s: string)
  {
    forall i :: 0 <= i < |s| ==> IsDigit(s[i])
  }

  /** Value of a digit string read most significant digit first. */
  function DigitsValue(s: string): nat
    requires AllDigits(s)
  {
    if |s| == 0 then 0
    else DigitsValue(s[..|s| - 1]) * 10 + (s[|s| - 1] as int - '0' as int)
  }

  /** The digits after an optional leading sign. */
  function Unsigned(s: string): string
  {
    if |s| > 0 && (s[0] == '+' || s[0] == '-') then s[1..] else s
  }

  /** The text is syntactically a decimal integer. */
  predicate WellFormed(s: string)
  {
    |Unsigned(s)| > 0 && AllDigits(Unsigned(s))
  }

  /** The mathematical value of a well-formed decimal integer. */
  function SignedValue(s: string): int
    requires WellFormed(s)
  {
    if s[0] == '-' then -(DigitsValue(Unsigned(s)) as int) else DigitsValue(Unsigned(s))
  }

  /** Parse with a range check on [lo, hi]. */
  function ParseInRange(s: string, lo: int, hi: int): (r: Option<int>)
    ensures r.Some? <==> WellFormed(s) && lo <= SignedValue(s) <= hi
    ensures r.Some? ==> r.value == SignedValue(s)
  {
    if WellFormed(s) && lo <= SignedValue(s) <= hi then Some(SignedValue(s)) else None
  }

  /** `strconv.Atoi` on a 64-bit platform. */
  function Atoi(s: string): (r: Option<int>)
    ensures r.Some? ==> MinInt64 <= r.value <= MaxInt64
    ensures r.Some? <==> WellFormed(s) && MinInt64 <= SignedValue(s) <= MaxInt64
    ensures r.Some? ==> WellFormed(s) && r.value == SignedValue(s)
  {
    ParseInRange(s, MinInt64, MaxInt64)
  }

  /** `strconv.ParseInt(s, 10, 32)`. */
  function ParseInt32(s: string): (r: Option<int>)
    ensures r.Some? ==> MinInt32 <= r.value <= MaxInt32
    ensures r.Some? <==> WellFormed(s) && MinInt32 <= SignedValue(s) <= MaxInt32
    ensures r.Some? ==> WellFormed(s) && r.value == SignedValue(s)
  {
    ParseInRange(s, MinInt32, MaxInt32)
  }

  function DigitChar(d: nat): char
    requires d < 10
  {
    ('0' as int + d) as char
  }

  /** Canonical decimal digits of `n` (Go's `strconv.Itoa` for n >= 0). */
  function FormatNat(n: nat): (s: string)
    ensures |s| > 0 && AllDigits(s)
  {
    if n < 10 then [DigitChar(n)] else FormatNat(n / 10) + [DigitChar(n % 10)]
  }

  /** Canonical decimal text of `n` (Go's `strconv.Itoa`). */
  function FormatInt(n: int): (s: string)
    ensures WellFormed(s)
  {
    if n < 0 then "-" + FormatNat(-n) else FormatNat(n)
  }

  lemma {:induction false} DigitsValueFormatNat(n: nat)
    ensures DigitsValue(FormatNat(n)) == n
  {
    var s := FormatNat(n);
    if n >= 10 {
      DigitsValueFormatNat(n / 10);
      assert s[..|s| - 1] == FormatNat(n / 10);
    }
  }

  /** Formatting then parsing is the identity on any accepted range. */
  lemma ParseFormatInt(n: int, lo: int, hi: int)
    requires lo <= n <= hi
    ensures ParseInRange(FormatInt(n), lo, hi) == Some(n)
  {
    var s := FormatInt(n);
    if n < 0 {
      assert Unsigned(s) == FormatNat(-n);
      DigitsValueFormatNat(-n);
    } else {
      assert Unsigned(s) == FormatNat(n);
      DigitsValueFormatNat(n);
    }
  }

  /** Every integer of the platform `int` range has a text that `Atoi`
      reads back exactly. */
  lemma AtoiFormatInt(n: int)
    requires MinInt64 <= n <= MaxInt64
    ensures Atoi(FormatInt(n)) == Some(n)
  {
    ParseFormatInt(n, MinInt64, MaxInt64);
  }

  /** Every `int32` has a text that `ParseInt(s, 10, 32)` reads back exactly. */
  lemma ParseInt32FormatInt(n: int)
    requires MinInt32 <= n <= MaxInt32
    ensures ParseInt32(FormatInt(n)) == Some(n)
  {
    ParseFormatInt(n, MinInt32, MaxInt32);
  }

  /** A space is not accepted, neither before nor after the digits. */
  lemma AtoiRejectsSpace(s: string)
    requires ' ' in s
    ensures Atoi(s) == None
  {
    var i :| 0 <= i < |s| && s[i] == ' ';
    if |s| > 0 && (s[0] == '+' || s[0] == '-') {
      assert Unsigned(s)[i - 1] == ' ';
    } else {
      assert Unsigned(s)[i] == ' ';
    }
  }
}
