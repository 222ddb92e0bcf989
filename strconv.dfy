/**
 * Go's `strconv.Atoi` on a 64-bit platform: the coercion that
 * `Validator.ToInt` applies to the selected field value.
 *
 * `AtoiSpec` is the reference definition (the result of `ParseInt(s, 10, 0)`,
 * which is what Go's slow path computes), `Atoi` is the parser with Go's
 * fast path for short strings and its digit-by-digit slow path, and the
 * lemmas say what the reference definition means: which strings are
 * accepted, what value they denote, what is returned on failure, and that
 * it inverts decimal formatting.
 */
module Strconv {
  import opened Wrappers

  const MaxInt64: int := 0x7FFF_FFFF_FFFF_FFFF
  const MinInt64: int := -0x8000_0000_0000_0000
  const MaxUint64: int := 0xFFFF_FFFF_FFFF_FFFF

  /** The two ways `strconv` reports failure (`ErrSyntax`, `ErrRange`). */
  datatype NumError = ErrSyntax | ErrRange

  /** The pair `(int, error)` that `strconv.Atoi` returns. */
  datatype AtoiResult = AtoiResult(value: int, err: Option<NumError>)

  predicate InInt64(x: int) {
    MinInt64 <= x <= MaxInt64
  }

  predicate IsDigit(c: char) {
    '0' <= c <= '9'
  }

  function DigitVal(c: char): nat
    requires IsDigit(c)
  {
    c as int - '0' as int
  }

  function DigitChar(d: nat): (c: char)
    requires d < 10
    ensures IsDigit(c) && DigitVal(c) == d
  {
    ('0' as int + d) as char
  }

  predicate AllDigits(s: string) {
    forall i :: 0 <= i < |s| ==> IsDigit(s[i])
  }

  function Pow10(n: nat): nat {
    if n == 0 then 1 else 10 * Pow10(n - 1)
  }

  /** The number a string of decimal digits denotes, read left to right. */
  function DigitsValue(s: string): nat
    requires AllDigits(s)
  {
    if s == [] then 0 else DigitsValue(s[..|s| - 1]) * 10 + DigitVal(s[|s| - 1])
  }

  /** The longest prefix of `s` made of decimal digits. */
  function LeadingDigits(s: string): (run: string)
    ensures run <= s && AllDigits(run)
    ensures |run| < |s| ==> !IsDigit(s[|run|])
  {
    if s == [] || !IsDigit(s[0]) then [] else [s[0]] + LeadingDigits(s[1..])
  }

  /**
   * `ParseUint(s, 10, 64)`: the digits are consumed left to right; the first
   * character that is not a digit is a syntax error, unless the digits before
   * it already overflowed 64 bits, which is reported first as a range error
   * with the maximum value.
   */
  function ParseUintSpec(s: string): AtoiResult {
    if s == [] then AtoiResult(0, Some(ErrSyntax))
    else
      var run := LeadingDigits(s);
      if DigitsValue(run) > MaxUint64 then AtoiResult(MaxUint64, Some(ErrRange))
      else if |run| < |s| then AtoiResult(0, Some(ErrSyntax))
      else AtoiResult(DigitsValue(run), None)
  }

  /** The string without its leading '+' or '-', if it has one. */
  function Unsigned(s: string): string {
    if |s| > 0 && (s[0] == '+' || s[0] == '-') then s[1..] else s
  }

  predicate IsNegative(s: string) {
    |s| > 0 && s[0] == '-'
  }

  /** `Atoi(s)`, defined as `ParseInt(s, 10, 0)` with a 64-bit `int`. */
  function AtoiSpec(s: string): AtoiResult {
    if s == [] then AtoiResult(0, Some(ErrSyntax))
    else
      var neg := IsNegative(s);
      var u := ParseUintSpec(Unsigned(s));
      if u.err == Some(ErrSyntax) then AtoiResult(0, Some(ErrSyntax))
      else if !neg && u.value > MaxInt64 then AtoiResult(MaxInt64, Some(ErrRange))
      else if neg && u.value > -MinInt64 then AtoiResult(MinInt64, Some(ErrRange))
      else AtoiResult(if neg then -u.value else u.value, None)
  }

  /** An optionally signed, non-empty run of decimal digits and nothing else. */
  predicate IsDecimal(s: string) {
    |Unsigned(s)| > 0 && AllDigits(Unsigned(s))
  }

  /** The integer a decimal string denotes. */
  function DecimalValue(s: string): int
    requires IsDecimal(s)
  {
    if IsNegative(s) then -(DigitsValue(Unsigned(s)) as int) else DigitsValue(Unsigned(s))
  }

  // ---------------------------------------------------------------------
  // Facts about digit strings
  // ---------------------------------------------------------------------

  lemma {:induction false} DigitsValueBelow(s: string)
    requires AllDigits(s)
    ensures DigitsValue(s) < Pow10(|s|)
  {
    if s != [] {
      DigitsValueBelow(s[..|s| - 1]);
    }
  }

  lemma {:induction false} Pow10Monotone(m: nat, n: nat)
    requires m <= n
    ensures Pow10(m) <= Pow10(n)
  {
    if m < n {
      Pow10Monotone(m, n - 1);
    }
  }

  /** At most 18 digits always fit in an `int64`: Go's fast path cannot overflow. */
  lemma ShortDigitsFit(s: string)
    requires AllDigits(s) && |s| <= 18
    ensures DigitsValue(s) <= MaxInt64
  {
    DigitsValueBelow(s);
    Pow10Monotone(|s|, 18);
    Pow10Eighteen();
  }

  lemma Pow10Eighteen()
    ensures Pow10(18) == 1_000_000_000_000_000_000
  {
    assert Pow10(1) == 10;
    assert Pow10(2) == 100;
    assert Pow10(3) == 1_000;
    assert Pow10(4) == 10_000;
    assert Pow10(5) == 100_000;
    assert Pow10(6) == 1_000_000;
    assert Pow10(7) == 10_000_000;
    assert Pow10(8) == 100_000_000;
    assert Pow10(9) == 1_000_000_000;
    assert Pow10(10) == 10_000_000_000;
    assert Pow10(11) == 100_000_000_000;
    assert Pow10(12) == 1_000_000_000_000;
    assert Pow10(13) == 10_000_000_000_000;
    assert Pow10(14) == 100_000_000_000_000;
    assert Pow10(15) == 1_000_000_000_000_000;
    assert Pow10(16) == 10_000_000_000_000_000;
    assert Pow10(17) == 100_000_000_000_000_000;
  }

  /** Reading more digits never makes the value smaller. */
  lemma {:induction false} DigitsValuePrefix(s: string, j: nat)
    requires AllDigits(s) && j <= |s|
    ensures AllDigits(s[..j]) && DigitsValue(s[..j]) <= DigitsValue(s)
  {
    if j < |s| {
      var t := s[..|s| - 1];
      assert t[..j] == s[..j];
      assert DigitsValue(s) == DigitsValue(t) * 10 + DigitVal(s[|s| - 1]);
      DigitsValuePrefix(t, j);
    } else {
      assert s[..j] == s;
    }
  }

  /** Where a digit prefix stops at a non-digit (or at the end), that prefix is the leading run. */
  lemma {:induction false} LeadingDigitsAt(s: string, i: nat)
    requires i <= |s| && AllDigits(s[..i])
    requires i == |s| || !IsDigit(s[i])
    ensures LeadingDigits(s) == s[..i]
  {
    if i > 0 {
      assert s[1..][..i - 1] == s[1..i];
      LeadingDigitsAt(s[1..], i - 1);
    }
  }

  /** A digit prefix of `s` is a prefix of its leading run. */
  lemma {:induction false} LeadingDigitsCovers(s: string, j: nat)
    requires j <= |s| && AllDigits(s[..j])
    ensures j <= |LeadingDigits(s)| && LeadingDigits(s)[..j] == s[..j]
  {
    if j > 0 {
      assert s[1..][..j - 1] == s[1..j];
      LeadingDigitsCovers(s[1..], j - 1);
    }
  }

  // ---------------------------------------------------------------------
  // What the reference definition means
  // ---------------------------------------------------------------------

  /**
   * `Atoi` succeeds exactly on optionally signed decimal strings whose value
   * fits in an `int64`, and then returns that value; a syntax error returns 0
   * and a range error returns the bound on the side of the sign.
   */
  lemma AtoiAccepts(s: string)
    ensures AtoiSpec(s).err.None? <==> IsDecimal(s) && InInt64(DecimalValue(s))
    ensures AtoiSpec(s).err.None? ==> AtoiSpec(s).value == DecimalValue(s)
    ensures AtoiSpec(s).err == Some(ErrSyntax) ==> AtoiSpec(s).value == 0
    ensures AtoiSpec(s).err == Some(ErrRange) ==>
              AtoiSpec(s).value == if IsNegative(s) then MinInt64 else MaxInt64
  {
    var body := Unsigned(s);
    if IsDecimal(s) {
      LeadingDigitsAt(body, |body|);
      assert body[..|body|] == body;
    }
  }

  /** A decimal string outside the `int64` range is a range error, never a syntax error. */
  lemma OutOfRangeIsRangeError(s: string)
    requires IsDecimal(s) && !InInt64(DecimalValue(s))
    ensures AtoiSpec(s) == AtoiResult(if IsNegative(s) then MinInt64 else MaxInt64, Some(ErrRange))
  {
    AtoiAccepts(s);
    var body := Unsigned(s);
    LeadingDigitsAt(body, |body|);
    assert body[..|body|] == body;
  }

  // ---------------------------------------------------------------------
  // Decimal formatting, the inverse partner (`strconv.Itoa`)
  // ---------------------------------------------------------------------

  function NatDigits(n: nat): (s: string)
    ensures |s| > 0 && AllDigits(s)
  {
    if n < 10 then [DigitChar(n)] else NatDigits(n / 10) + [DigitChar(n % 10)]
  }

  function Itoa(n: int): string {
    if n < 0 then "-" + NatDigits(-n) else NatDigits(n)
  }

  lemma {:induction false} NatDigitsValue(n: nat)
    ensures DigitsValue(NatDigits(n)) == n
  {
    if n >= 10 {
      var s := NatDigits(n);
      assert s[..|s| - 1] == NatDigits(n / 10);
      NatDigitsValue(n / 10);
    }
  }

  /** Parsing a formatted `int64` gives the number back. */
  lemma ItoaRoundTrip(n: int)
    requires InInt64(n)
    ensures AtoiSpec(Itoa(n)) == AtoiResult(n, None)
  {
    var s := Itoa(n);
    var m := if n < 0 then -n else n;
    assert Unsigned(s) == NatDigits(m);
    NatDigitsValue(m);
    assert IsDecimal(s) && DecimalValue(s) == n;
    AtoiAccepts(s);
  }

  /** Go's fast path stops at the first non-digit with a syntax error, as `ParseInt` would. */
  lemma ShortSyntaxError(s: string, i: nat)
    requires i < |Unsigned(s)| <= 18 && AllDigits(Unsigned(s)[..i]) && !IsDigit(Unsigned(s)[i])
    ensures AtoiSpec(s) == AtoiResult(0, Some(ErrSyntax))
  {
    var body := Unsigned(s);
    LeadingDigitsAt(body, i);
    ShortDigitsFit(body[..i]);
  }

  /** Go's fast path accepts every short decimal string, as `ParseInt` would. */
  lemma ShortAccepted(s: string)
    requires IsDecimal(s) && |Unsigned(s)| <= 18
    ensures AtoiSpec(s) == AtoiResult(DecimalValue(s), None)
  {
    var body := Unsigned(s);
    LeadingDigitsAt(body, |body|);
    assert body[..|body|] == body;
    ShortDigitsFit(body);
  }

  // ---------------------------------------------------------------------
  // The parser
  // ---------------------------------------------------------------------

  /** `strconv.ParseUint(s, 10, 64)`. */
  method ParseUint(s: string) returns (n: int, err: Option<NumError>)
    ensures AtoiResult(n, err) == ParseUintSpec(s)
  {
    if |s| == 0 {
      return 0, Some(ErrSyntax);
    }
    var cutoff := MaxUint64 / 10 + 1;
    n := 0;
    var i := 0;
    while i < |s|
      invariant 0 <= i <= |s|
      invariant AllDigits(s[..i])
      invariant n == DigitsValue(s[..i]) <= MaxUint64
    {
      if !IsDigit(s[i]) {
        LeadingDigitsAt(s, i);
        return 0, Some(ErrSyntax);
      }
      assert s[..i + 1][..i] == s[..i];
      var d := DigitVal(s[i]);
      if n >= cutoff {
        // n * 10 would overflow 64 bits
        LeadingDigitsCovers(s, i + 1);
        DigitsValuePrefix(LeadingDigits(s), i + 1);
        return MaxUint64, Some(ErrRange);
      }
      n := n * 10;
      var n1 := n + d;
      if n1 > MaxUint64 {
        // n + d would wrap around
        LeadingDigitsCovers(s, i + 1);
        DigitsValuePrefix(LeadingDigits(s), i + 1);
        return MaxUint64, Some(ErrRange);
      }
      n := n1;
      i := i + 1;
    }
    assert s[..i] == s;
    LeadingDigitsAt(s, |s|);
    err := None;
  }

  /**
   * `strconv.Atoi`: strings of 1 to 18 characters take the fast path, which
   * cannot overflow; everything else goes through `ParseInt`.
   */
  method Atoi(s: string) returns (n: int, err: Option<NumError>)
    ensures AtoiResult(n, err) == AtoiSpec(s)
  {
    if 0 < |s| < 19 {
      var body := s;
      if s[0] == '-' || s[0] == '+' {
        body := s[1..];
        if |body| < 1 {
          assert AtoiSpec(s) == AtoiResult(0, Some(ErrSyntax));
          return 0, Some(ErrSyntax);
        }
      }
      assert body == Unsigned(s);
      n := 0;
      var i := 0;
      while i < |body|
        invariant 0 <= i <= |body|
        invariant AllDigits(body[..i])
        invariant n == DigitsValue(body[..i])
      {
        if !IsDigit(body[i]) {
          ShortSyntaxError(s, i);
          return 0, Some(ErrSyntax);
        }
        assert body[..i + 1][..i] == body[..i];
        n := n * 10 + DigitVal(body[i]);
        i := i + 1;
      }
      assert body[..i] == body;
      ShortAccepted(s);
      if s[0] == '-' {
        n := -n;
      }
      return n, None;
    }
    // slow path
    n, err := ParseInt(s);
  }

  /** `strconv.ParseInt(s, 10, 0)` with a 64-bit `int`. */
  method ParseInt(s: string) returns (n: int, err: Option<NumError>)
    ensures AtoiResult(n, err) == AtoiSpec(s)
  {
    if |s| == 0 {
      return 0, Some(ErrSyntax);
    }
    var neg := false;
    var body := s;
    if s[0] == '+' {
      body := s[1..];
    } else if s[0] == '-' {
      neg := true;
      body := s[1..];
    }
    var un, uerr := ParseUint(body);
    if uerr == Some(ErrSyntax) {
      return 0, Some(ErrSyntax);
    }
    var cutoff := 0x8000_0000_0000_0000;
    if !neg && un >= cutoff {
      return cutoff - 1, Some(ErrRange);
    }
    if neg && un > cutoff {
      return -cutoff, Some(ErrRange);
    }
    n := if neg then -un else un;
    return n, None;
  }
}
