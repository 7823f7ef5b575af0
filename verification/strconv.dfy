/**
 * The part of Go's `strconv` the configuration loader relies on: `Atoi` on a
 * 64-bit platform, with the errors it reports, and `Itoa`, its inverse on the
 * `int` range.
 */
module Strconv {
  import opened Results

  const MaxUint64: nat := 0xFFFF_FFFF_FFFF_FFFF
  const MaxInt64: int := 0x7FFF_FFFF_FFFF_FFFF
  const MinInt64: int := -0x8000_0000_0000_0000

  /** `strconv.ErrSyntax` and `strconv.ErrRange`. */
  datatype NumErrorKind = ErrSyntax | ErrRange

  /** `*strconv.NumError`: the failing function, its input, and the reason. */
  datatype NumError = NumError(func: string, num: string, err: NumErrorKind)

  predicate IsDigit(c: char)
  {
    '0' <= c <= '9'
  }

  predicate AllDigits(ds: string)
  {
    forall i :: 0 <= i < |ds| ==> IsDigit(ds[i])
  }

  function DigitValue(c: char): nat
    requires IsDigit(c)
  {
    c as int - '0' as int
  }

  function DigitChar(d: nat): char
    requires d < 10
  {
    ('0' as int + d) as char
  }

  /**
   * The unsigned decimal scan of `ParseUint`, continuing from the value
   * `acc` of the digits already read: a character that is not a digit is a
   * syntax error, and a value past `MaxUint64` is a range error raised at
   * the digit that causes it, before the characters after it are looked at.
   */
  function ScanDigits(ds: string, acc: nat): (r: Result<nat, NumErrorKind>)
    requires acc <= MaxUint64
    ensures r.Ok? ==> AllDigits(ds) && acc <= r.value <= MaxUint64
    decreases |ds|
  {
    if ds == [] then Ok(acc)
    else if !IsDigit(ds[0]) then Err(ErrSyntax)
    else
      var n := acc * 10 + DigitValue(ds[0]);
      if n > MaxUint64 then Err(ErrRange) else ScanDigits(ds[1..], n)
  }

  /** The part of a number after its optional leading `+` or `-` sign. */
  function Unsigned(s: string): string
  {
    if s != [] && (s[0] == '+' || s[0] == '-') then s[1..] else s
  }

  /**
   * `strconv.Atoi`: an optional `+` or `-` sign followed by decimal digits,
   * within the 64-bit `int` range. Every error names `Atoi` and the whole
   * input, with `ErrSyntax` for a malformed string and `ErrRange` for a
   * well-formed one out of range.
   */
  function Atoi(s: string): (r: Result<int, NumError>)
    ensures r.Err? ==> r.error.func == "Atoi" && r.error.num == s
    ensures r.Ok? ==> MinInt64 <= r.value <= MaxInt64
    ensures r.Ok? ==> |Unsigned(s)| > 0 && AllDigits(Unsigned(s))
    ensures s == [] ==> r == Err(NumError("Atoi", s, ErrSyntax))
    ensures s != [] && s[0] != '+' && s[0] != '-' && !IsDigit(s[0]) ==> r == Err(NumError("Atoi", s, ErrSyntax))
  {
    if s == [] then Err(NumError("Atoi", s, ErrSyntax))
    else
      var neg := s[0] == '-';
      var ds := Unsigned(s);
      if ds == [] then Err(NumError("Atoi", s, ErrSyntax))
      else
        match ScanDigits(ds, 0)
        case Err(kind) => Err(NumError("Atoi", s, kind))
        case Ok(u) =>
          if !neg && u > MaxInt64 then Err(NumError("Atoi", s, ErrRange))
          else if neg && u > -MinInt64 then Err(NumError("Atoi", s, ErrRange))
          else
            var v: int := u;
            Ok(if neg then -v else v)
  }

  /** The decimal digits of `n`, most significant first, without leading zeros. */
  function Decimal(n: nat): (ds: string)
    ensures |ds| > 0 && AllDigits(ds)
  {
    if n < 10 then [DigitChar(n)] else Decimal(n / 10) + [DigitChar(n % 10)]
  }

  /** `strconv.Itoa`: the decimal form of `n`, with a `-` sign when it is negative. */
  function Itoa(n: int): (s: string)
    ensures |s| > 0 && (s[0] == '-' <==> n < 0)
    ensures |Unsigned(s)| > 0 && AllDigits(Unsigned(s))
  {
    if n < 0 then "-" + Decimal(-n) else Decimal(n)
  }

  /** Scanning one more digit continues from the value of the digits before it. */
  lemma {:induction false} ScanDigitsSnoc(ds: string, c: char, acc: nat, v: nat)
    requires acc <= MaxUint64 && IsDigit(c)
    requires ScanDigits(ds, acc) == Ok(v) && v * 10 + DigitValue(c) <= MaxUint64
    ensures ScanDigits(ds + [c], acc) == Ok(v * 10 + DigitValue(c))
    decreases |ds|
  {
    if ds == [] {
      assert ds + [c] == [c];
    } else {
      assert (ds + [c])[1..] == ds[1..] + [c];
      ScanDigitsSnoc(ds[1..], c, acc * 10 + DigitValue(ds[0]), v);
    }
  }

  /** Scanning the decimal form of an unsigned 64-bit value gives that value back. */
  lemma {:induction false} ScanDecimal(n: nat)
    requires n <= MaxUint64
    ensures ScanDigits(Decimal(n), 0) == Ok(n)
  {
    if n >= 10 {
      ScanDecimal(n / 10);
      ScanDigitsSnoc(Decimal(n / 10), DigitChar(n % 10), 0, n / 10);
    }
  }

  /** Round trip: `Atoi` reads back what `Itoa` writes, for every 64-bit `int`. */
  lemma AtoiItoa(n: int)
    requires MinInt64 <= n <= MaxInt64
    ensures Atoi(Itoa(n)) == Ok(n)
  {
    if n < 0 {
      ScanDecimal(-n);
      assert ("-" + Decimal(-n))[1..] == Decimal(-n);
    } else {
      ScanDecimal(n);
    }
  }

  /** A digit that takes the value past `MaxUint64` is a range error. */
  lemma {:induction false} ScanDigitsSnocOverflow(ds: string, c: char, acc: nat, v: nat)
    requires acc <= MaxUint64 && IsDigit(c)
    requires ScanDigits(ds, acc) == Ok(v) && v * 10 + DigitValue(c) > MaxUint64
    ensures ScanDigits(ds + [c], acc) == Err(ErrRange)
    decreases |ds|
  {
    if ds == [] {
      assert ds + [c] == [c];
    } else {
      assert (ds + [c])[1..] == ds[1..] + [c];
      ScanDigitsSnocOverflow(ds[1..], c, acc * 10 + DigitValue(ds[0]), v);
    }
  }

  /** Once the scan has failed, the characters after the failure do not change the error. */
  lemma {:induction false} ScanDigitsErrAppend(ds: string, t: string, acc: nat)
    requires acc <= MaxUint64 && ScanDigits(ds, acc).Err?
    ensures ScanDigits(ds + t, acc) == ScanDigits(ds, acc)
    decreases |ds|
  {
    assert ds != [];
    assert (ds + t)[0] == ds[0] && (ds + t)[1..] == ds[1..] + t;
    if IsDigit(ds[0]) && acc * 10 + DigitValue(ds[0]) <= MaxUint64 {
      ScanDigitsErrAppend(ds[1..], t, acc * 10 + DigitValue(ds[0]));
    }
  }

  /** Scanning the decimal form of a value above `MaxUint64` is a range error. */
  lemma {:induction false} ScanDecimalOverflow(n: nat)
    requires n > MaxUint64
    ensures ScanDigits(Decimal(n), 0) == Err(ErrRange)
  {
    var c := DigitChar(n % 10);
    assert Decimal(n) == Decimal(n / 10) + [c];
    if n / 10 > MaxUint64 {
      ScanDecimalOverflow(n / 10);
      ScanDigitsErrAppend(Decimal(n / 10), [c], 0);
    } else {
      ScanDecimal(n / 10);
      ScanDigitsSnocOverflow(Decimal(n / 10), c, 0, n / 10);
    }
  }

  /**
   * A well-formed decimal above the `int` range is a range error, not a
   * syntax error, whether `ParseUint`'s scan overflowed or the value only
   * exceeds the signed range.
   */
  lemma AtoiOutOfRange(n: nat)
    requires MaxInt64 < n
    ensures Atoi(Decimal(n)) == Err(NumError("Atoi", Decimal(n), ErrRange))
    ensures Atoi("-" + Decimal(n)) == if n == -MinInt64 then Ok(MinInt64)
                                     else Err(NumError("Atoi", "-" + Decimal(n), ErrRange))
  {
    if n <= MaxUint64 {
      ScanDecimal(n);
    } else {
      ScanDecimalOverflow(n);
    }
    assert ("-" + Decimal(n))[1..] == Decimal(n);
  }
}
