/** Go's `strconv.Atoi` on a 64-bit platform, which decides how a caller's
    identifier is routed, and the decimal rendering `fmt.Sprint` gives an `int`. */
module Strconv {
  import opened Outcomes

  const MaxUint64: int := 0xFFFF_FFFF_FFFF_FFFF
  const MaxInt64: int := 0x7FFF_FFFF_FFFF_FFFF
  const MinInt64: int := -0x8000_0000_0000_0000

  /** Go's `int` where the functions run (amd64 or arm64). */
  type Int64 = x: int | MinInt64 <= x <= MaxInt64

  datatype NumError = ErrSyntax | ErrRange

  predicate IsDigit(c: char) { '0' <= c <= '9' }

  predicate AllDigits(s: string) { forall i :: 0 <= i < |s| ==> IsDigit(s[i]) }

  function DigitValue(c: char): (d: nat)
    requires IsDigit(c)
    ensures d <= 9
  {
    c as int - '0' as int
  }

  /** The (unbounded) number a string of decimal digits denotes, read left to right. */
  function DigitsValue(s: string): nat
    requires AllDigits(s)
  {
    if s == "" then 0 else 10 * DigitsValue(s[..|s| - 1]) + DigitValue(s[|s| - 1])
  }

  /** `s` without one leading sign character. */
  function Unsigned(s: string): string
  {
    if s != "" && (s[0] == '+' || s[0] == '-') then s[1..] else s
  }

  /** The syntax Atoi accepts: an optional `+` or `-`, then one or more ASCII digits. */
  predicate IsDecimal(s: string)
  {
    Unsigned(s) != "" && AllDigits(Unsigned(s))
  }

  /** The integer a decimal literal denotes, without any range limit. */
  function Denotation(s: string): int
    requires IsDecimal(s)
  {
    if s[0] == '-' then -(DigitsValue(Unsigned(s)) as int) else DigitsValue(Unsigned(s))
  }

  /** Reference definition of what Atoi accepts: a decimal literal whose value fits an `int`. */
  predicate Accepts(s: string)
  {
    IsDecimal(s) && MinInt64 <= Denotation(s) <= MaxInt64
  }

  /** `ParseUint(s, 10, 0)` (bitSize 0 means 64 on the platforms modelled) stops with a range error as soon as its accumulator would exceed this. */
  const Cutoff: int := MaxUint64 / 10 + 1

  /** The digit loop of `strconv.ParseUint(s, 10, 0)` from position `i` with accumulator `n`:
      a non-digit is a syntax error, an overflow is reported as soon as it happens. */
  function Accumulate(s: string, i: nat, n: nat): Result<nat, NumError>
    requires i <= |s|
    decreases |s| - i
  {
    if i == |s| then Ok(n)
    else if !IsDigit(s[i]) then Err(ErrSyntax)
    else if n >= Cutoff then Err(ErrRange)
    else
      var n1 := n * 10 + DigitValue(s[i]);
      if n1 > MaxUint64 then Err(ErrRange) else Accumulate(s, i + 1, n1)
  }

  /** `strconv.ParseUint(s, 10, 0)`; bitSize 0 means 64 on the platforms modelled. */
  function ParseUint(s: string): Result<nat, NumError>
  {
    if s == "" then Err(ErrSyntax) else Accumulate(s, 0, 0)
  }

  /** `strconv.Atoi(s)`, i.e. `strconv.ParseInt(s, 10, 0)` with bitSize 0 meaning 64 here: strip one sign, parse the
      magnitude, then check it against the bounds of a signed 64-bit integer. (Atoi's fast
      path for strings shorter than 19 bytes accepts the same strings with the same values.) */
  function Atoi(s: string): Result<Int64, NumError>
  {
    if s == "" then Err(ErrSyntax)
    else
      var neg := s[0] == '-';
      var magnitude := if s[0] == '+' || s[0] == '-' then s[1..] else s;
      match ParseUint(magnitude)
      case Err(e) => Err(e)
      case Ok(un) =>
        if !neg && un >= MaxInt64 + 1 then Err(ErrRange)
        else if neg && un > MaxInt64 + 1 then Err(ErrRange)
        else Ok(if neg then -(un as int) else un)
  }

  lemma {:induction false} DigitsValuePrefix(s: string, j: nat)
    requires AllDigits(s) && j <= |s|
    ensures AllDigits(s[..j]) && DigitsValue(s[..j]) <= DigitsValue(s)
  {
    if j < |s| {
      var init := s[..|s| - 1];
      DigitsValuePrefix(init, j);
      assert init[..j] == s[..j];
    } else {
      assert s[..j] == s;
    }
  }

  lemma DigitsValueSnoc(s: string, i: nat)
    requires i < |s| && AllDigits(s[..i + 1])
    ensures AllDigits(s[..i]) && DigitsValue(s[..i + 1]) == 10 * DigitsValue(s[..i]) + DigitValue(s[i])
  {
    assert s[..i + 1][..i] == s[..i];
  }

  /** The digit loop succeeds exactly on digit strings whose value fits 64 unsigned bits,
      and then yields that value. */
  lemma {:induction false} AccumulateCorrect(s: string, i: nat, n: nat)
    requires i <= |s| && AllDigits(s[..i]) && n == DigitsValue(s[..i]) && n <= MaxUint64
    ensures Accumulate(s, i, n).Ok? <==> AllDigits(s) && DigitsValue(s) <= MaxUint64
    ensures Accumulate(s, i, n).Ok? ==> AllDigits(s) && Accumulate(s, i, n).value == DigitsValue(s)
    decreases |s| - i
  {
    if i == |s| {
      assert s[..i] == s;
    } else if !IsDigit(s[i]) {
      assert !AllDigits(s);
    } else {
      assert AllDigits(s[..i + 1]);
      DigitsValueSnoc(s, i);
      if AllDigits(s) {
        DigitsValuePrefix(s, i + 1);
      }
      if n < Cutoff && n * 10 + DigitValue(s[i]) <= MaxUint64 {
        AccumulateCorrect(s, i + 1, n * 10 + DigitValue(s[i]));
      }
    }
  }

  /** Atoi agrees with the reference definition: it succeeds exactly on the decimal
      literals in `int` range, with the value they denote. */
  lemma AtoiAccepts(s: string)
    ensures Atoi(s).Ok? <==> Accepts(s)
    ensures Atoi(s).Ok? ==> IsDecimal(s) && Atoi(s).value == Denotation(s)
  {
    if s != "" {
      var magnitude := if s[0] == '+' || s[0] == '-' then s[1..] else s;
      assert magnitude == Unsigned(s);
      if magnitude != "" {
        assert magnitude[..0] == "";
        AccumulateCorrect(magnitude, 0, 0);
      }
    }
  }

  function DigitChar(d: nat): (c: char)
    requires d <= 9
    ensures IsDigit(c) && DigitValue(c) == d
  {
    ('0' as int + d) as char
  }

  /** Decimal digits of a natural number, most significant first, no leading zeros. */
  function FormatNat(n: nat): string
  {
    if n < 10 then [DigitChar(n)] else FormatNat(n / 10) + [DigitChar(n % 10)]
  }

  /** `fmt.Sprint` of an `int` (equally `strconv.Itoa`). */
  function Itoa(n: int): string
  {
    if n < 0 then "-" + FormatNat(-n) else FormatNat(n)
  }

  lemma {:induction false} FormatNatDigits(n: nat)
    ensures FormatNat(n) != "" && AllDigits(FormatNat(n)) && DigitsValue(FormatNat(n)) == n
  {
    var s := FormatNat(n);
    if n >= 10 {
      FormatNatDigits(n / 10);
      assert s[..|s| - 1] == FormatNat(n / 10);
    }
  }

  /** Every `int` rendered by `fmt.Sprint` is read back by Atoi as the same number:
      a stored id of the form `fmt.Sprint(n)` always takes the primary-key route. */
  lemma AtoiItoa(n: Int64)
    ensures Itoa(n) != "" && Accepts(Itoa(n))
    ensures Atoi(Itoa(n)) == Ok(n)
  {
    ItoaDenotes(n);
    AtoiAccepts(Itoa(n));
  }

  lemma ItoaDenotes(n: int)
    ensures Itoa(n) != "" && IsDecimal(Itoa(n)) && Denotation(Itoa(n)) == n
  {
    var s := Itoa(n);
    var m: nat := if n < 0 then -n else n;
    FormatNatDigits(m);
    assert Unsigned(s) == FormatNat(m);
  }
}
