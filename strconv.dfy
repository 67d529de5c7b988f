/**
 * The two number parsers the handlers use: `strconv.ParseUint(s, 10, 64)` for
 * identifiers and `strconv.Atoi` for page, size and stock values.
 *
 * ParseUint reads decimal digits from the left. The first digit that takes the
 * value past 2^64-1 gives a range error; before that, any character that is not
 * a digit, or an empty string, gives a syntax error. Atoi takes one optional
 * sign first; on a syntax error it returns 0, on a range error the nearest
 * 64-bit bound.
 */
module Strconv {
  import opened GoInt

  datatype NumResult = Num(value: int) | SyntaxError | RangeError(clamped: int)

  predicate IsDigit(c: char)
  {
    '0' <= c <= '9'
  }

  predicate AllDigits(s: string)
  {
    forall i :: 0 <= i < |s| ==> IsDigit(s[i])
  }

  /** The length of the run of digits that starts s. */
  function DigitRun(s: string): (n: nat)
    ensures n <= |s|
  {
    if |s| == 0 || !IsDigit(s[0]) then 0 else 1 + DigitRun(s[1..])
  }

  /** The value of a digit string, most significant digit first. */
  function DecimalValue(s: string): nat
    requires AllDigits(s)
  {
    if |s| == 0 then 0 else DecimalValue(s[..|s| - 1]) * 10 + (s[|s| - 1] as int - '0' as int)
  }

  function ParseUint64(s: string): (r: NumResult)
    ensures r.Num? ==> 0 <= r.value <= MaxUint64
    ensures r.RangeError? ==> r.clamped == MaxUint64
    ensures r.Num? ==> s != "" && AllDigits(s)
  {
    var k := DigitRun(s);
    DigitRunIsDigits(s);
    if s == "" then SyntaxError
    else if DecimalValue(s[..k]) > MaxUint64 then RangeError(MaxUint64)
    else if k < |s| then SyntaxError
    else assert s[..k] == s; Num(DecimalValue(s))
  }

  /** s without its one optional leading sign. */
  function Unsigned(s: string): (d: string)
    requires s != ""
    ensures |d| == |s| || |d| == |s| - 1
  {
    if s[0] == '-' || s[0] == '+' then s[1..] else s
  }

  /** The magnitude limit of Atoi: 2^63 after a minus sign, 2^63-1 otherwise. */
  function MagnitudeBound(s: string): int
    requires s != ""
  {
    if s[0] == '-' then TwoTo63 else MaxInt64
  }

  function Atoi(s: string): (r: NumResult)
    ensures r.Num? ==> IsInt64(r.value)
    ensures r.RangeError? ==> r.clamped == MinInt64 || r.clamped == MaxInt64
    ensures r.RangeError? ==> s != "" && r.clamped == (if s[0] == '-' then MinInt64 else MaxInt64)
    ensures s == "" ==> r.SyntaxError?
  {
    if s == "" then SyntaxError
    else
      var negative := s[0] == '-';
      var digits := Unsigned(s);
      match ParseUint64(digits)
      case SyntaxError => SyntaxError
      case RangeError(_) => RangeError(if negative then MinInt64 else MaxInt64)
      case Num(u) =>
        if !negative && u > MaxInt64 then RangeError(MaxInt64)
        else if negative && u > TwoTo63 then RangeError(MinInt64)
        else Num(if negative then -u else u)
  }

  /** The number Atoi returns beside its error, which the product handlers ignore. */
  function AtoiValue(s: string): (v: int)
    ensures IsInt64(v)
    ensures Atoi(s).SyntaxError? ==> v == 0
  {
    match Atoi(s)
    case Num(v) => v
    case SyntaxError => 0
    case RangeError(c) => c
  }

  // ---- Facts about the parsers ----

  lemma {:induction false} DigitRunIsDigits(s: string)
    ensures AllDigits(s[..DigitRun(s)])
    ensures DigitRun(s) == |s| <==> AllDigits(s)
  {
    if |s| > 0 && IsDigit(s[0]) {
      DigitRunIsDigits(s[1..]);
      assert s[..DigitRun(s)] == [s[0]] + s[1..][..DigitRun(s[1..])];
      if AllDigits(s) {
        assert AllDigits(s[1..]) by {
          forall i | 0 <= i < |s[1..]| ensures IsDigit(s[1..][i]) { assert s[1..][i] == s[i + 1]; }
        }
      }
      if DigitRun(s[1..]) == |s[1..]| {
        forall i | 0 <= i < |s| ensures IsDigit(s[i]) {
          if i > 0 { assert s[i] == s[1..][i - 1]; }
        }
      }
    }
  }

  /** ParseUint succeeds exactly on non-empty digit strings whose value fits 64 bits. */
  lemma ParseUintAcceptsExactlyDecimals(s: string)
    ensures ParseUint64(s).Num? <==> s != "" && AllDigits(s) && DecimalValue(s) <= MaxUint64
    ensures ParseUint64(s).Num? ==> ParseUint64(s).value == DecimalValue(s)
  {
    DigitRunIsDigits(s);
    if AllDigits(s) {
      assert s[..DigitRun(s)] == s;
    }
  }

  function DigitChar(d: nat): char
    requires d < 10
  {
    ('0' as int + d) as char
  }

  /** The decimal text of n, without leading zeros. */
  function Decimal(n: nat): (s: string)
    ensures |s| >= 1 && AllDigits(s)
  {
    if n < 10 then [DigitChar(n)] else Decimal(n / 10) + [DigitChar(n % 10)]
  }

  lemma {:induction false} DecimalValueOfDecimal(n: nat)
    ensures DecimalValue(Decimal(n)) == n
  {
    var s := Decimal(n);
    if n >= 10 {
      DecimalValueOfDecimal(n / 10);
      assert s[..|s| - 1] == Decimal(n / 10);
    }
  }

  /** Printing an unsigned 64-bit number and parsing it back gives the number. */
  lemma ParseUintOfDecimal(n: nat)
    requires n <= MaxUint64
    ensures ParseUint64(Decimal(n)) == Num(n)
  {
    DecimalValueOfDecimal(n);
    ParseUintAcceptsExactlyDecimals(Decimal(n));
  }

  /** Atoi reads back the decimal text of every 64-bit integer. */
  lemma AtoiOfDecimal(x: int)
    requires IsInt64(x)
    ensures x >= 0 ==> Atoi(Decimal(x)) == Num(x)
    ensures x < 0 ==> Atoi("-" + Decimal(-x)) == Num(x)
  {
    if x >= 0 {
      ParseUintOfDecimal(x);
    } else {
      ParseUintOfDecimal(-x);
      assert ("-" + Decimal(-x))[1..] == Decimal(-x);
    }
  }

  /**
   * Atoi succeeds exactly on one optional sign followed by a non-empty digit
   * string whose value is within the signed 64-bit range, and then yields
   * that value with the sign applied; an all-digit magnitude beyond the range
   * is a range error.
   */
  lemma AtoiAcceptsExactlyDecimals(s: string)
    ensures Atoi(s).Num? <==>
      s != "" && Unsigned(s) != "" && AllDigits(Unsigned(s)) && DecimalValue(Unsigned(s)) <= MagnitudeBound(s)
    ensures Atoi(s).Num? ==>
      Atoi(s).value == (if s[0] == '-' then -(DecimalValue(Unsigned(s)) as int) else DecimalValue(Unsigned(s)))
    ensures s != "" && Unsigned(s) != "" && AllDigits(Unsigned(s)) && DecimalValue(Unsigned(s)) > MagnitudeBound(s) ==>
      Atoi(s).RangeError?
  {
    if s != "" {
      ParseUintAcceptsExactlyDecimals(Unsigned(s));
      DigitRunIsDigits(Unsigned(s));
      if AllDigits(Unsigned(s)) {
        assert Unsigned(s)[..DigitRun(Unsigned(s))] == Unsigned(s);
      }
    }
  }

  /** An absent query value ("") parses as 0, so the product handler's defaults apply. */
  lemma EmptyParsesAsZero()
    ensures Atoi("") == SyntaxError && AtoiValue("") == 0
    ensures ParseUint64("") == SyntaxError
  {
  }
}
