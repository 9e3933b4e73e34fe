/** Go's `strconv.Atoi` and `strconv.Itoa` on a 64-bit platform, as the file backend uses
    them to read its integer settings. */
module Strconv {
  import opened MError

  const MaxInt64: int := 0x7fff_ffff_ffff_ffff
  const MinInt64: int := -0x8000_0000_0000_0000
  const MaxUint64: int := 0xffff_ffff_ffff_ffff

  /** Go's `int` on a 64-bit platform. */
  type Int64 = x: int | MinInt64 <= x <= MaxInt64

  /** What `Atoi` hands back: the value and the error (nil or a `*NumError`). */
  datatype Parsed = Parsed(value: int, err: Option<Error>)

  /** How the unsigned digit scan ends. */
  datatype Scan = Digits(n: nat) | BadSyntax | OutOfRange

  predicate IsDigit(c: char) {
    '0' <= c <= '9'
  }

  function SyntaxError(s: string): Error {
    Leaf("strconv.Atoi: parsing \"" + s + "\": invalid syntax")
  }

  function RangeError(s: string): Error {
    Leaf("strconv.Atoi: parsing \"" + s + "\": value out of range")
  }

  /** The base-10 digit loop of `strconv.ParseUint`, left to right from the running
      value `acc`: a non-digit is a syntax error, and the scan stops with a range error
      as soon as the running value passes the largest `uint64`, without looking at
      the characters after it. */
  function ScanDigits(s: string, acc: nat): Scan
    decreases |s|
  {
    if |s| == 0 then Digits(acc)
    else if !IsDigit(s[0]) then BadSyntax
    else if acc * 10 + (s[0] as int - '0' as int) > MaxUint64 then OutOfRange
    else ScanDigits(s[1..], acc * 10 + (s[0] as int - '0' as int))
  }

  /** `strconv.Atoi(s)`: an optional sign and at least one decimal digit, nothing else;
      a syntax error gives 0, a value outside the 64-bit range gives the nearest bound
      together with a range error. */
  function Atoi(s: string): (r: Parsed)
    ensures MinInt64 <= r.value <= MaxInt64
    ensures r.err.None? ==> |s| > 0
    ensures r.err == Some(SyntaxError(s)) ==> r.value == 0
    ensures r.err.Some? ==> r.err == Some(SyntaxError(s)) || r.err == Some(RangeError(s))
  {
    assert |SyntaxError(s).text| != |RangeError(s).text|;
    if |s| == 0 then Parsed(0, Some(SyntaxError(s)))
    else
      var neg := s[0] == '-';
      var body := if s[0] == '-' || s[0] == '+' then s[1..] else s;
      if |body| == 0 then Parsed(0, Some(SyntaxError(s)))
      else
        match ScanDigits(body, 0)
        case BadSyntax => Parsed(0, Some(SyntaxError(s)))
        case OutOfRange => Parsed(if neg then MinInt64 else MaxInt64, Some(RangeError(s)))
        case Digits(u) =>
          if !neg && u > MaxInt64 then Parsed(MaxInt64, Some(RangeError(s)))
          else if neg && u > -MinInt64 then Parsed(MinInt64, Some(RangeError(s)))
          else Parsed(if neg then -(u as int) else u, None)
  }

  function DigitChar(d: nat): char
    requires d < 10
  {
    ('0' as int + d) as char
  }

  /** The decimal digits of a natural number, most significant first, without leading zeros. */
  function NatString(n: nat): (s: string)
    ensures |s| > 0
    ensures forall i :: 0 <= i < |s| ==> IsDigit(s[i])
  {
    if n < 10 then [DigitChar(n)] else NatString(n / 10) + [DigitChar(n % 10)]
  }

  /** `strconv.Itoa(n)`. */
  function Itoa(n: int): string {
    if n < 0 then "-" + NatString(-n) else NatString(n)
  }

  function Pow10(k: nat): (r: nat)
    ensures r >= 1
  {
    if k == 0 then 1 else 10 * Pow10(k - 1)
  }

  /** Scanning a concatenation is scanning the second part from where the first ended. */
  lemma {:induction false} ScanConcat(xs: string, ys: string, acc: nat, v: nat)
    requires ScanDigits(xs, acc) == Digits(v)
    ensures ScanDigits(xs + ys, acc) == ScanDigits(ys, v)
    decreases |xs|
  {
    if |xs| > 0 {
      var next := acc * 10 + (xs[0] as int - '0' as int);
      assert IsDigit(xs[0]) && next <= MaxUint64 && ScanDigits(xs[1..], next) == Digits(v);
      assert (xs + ys)[0] == xs[0];
      assert (xs + ys)[1..] == xs[1..] + ys;
      ScanConcat(xs[1..], ys, next, v);
    } else {
      assert xs + ys == ys;
    }
  }

  /** Scanning the digits of `n` after a running value `acc` appends `n` in base 10. */
  lemma {:induction false} ScanNatString(n: nat, acc: nat)
    requires acc * Pow10(|NatString(n)|) + n <= MaxUint64
    ensures ScanDigits(NatString(n), acc) == Digits(acc * Pow10(|NatString(n)|) + n)
    decreases n
  {
    var s := NatString(n);
    if n < 10 {
      assert s == [DigitChar(n)];
      assert s[1..] == [];
    } else {
      var hi := NatString(n / 10);
      var k := |hi|;
      var d := DigitChar(n % 10);
      assert s == hi + [d];
      var pre := acc * Pow10(k) + n / 10;
      calc {
        acc * Pow10(k + 1) + n;
        acc * Pow10(k) * 10 + (n / 10) * 10 + n % 10;
        pre * 10 + n % 10;
      }
      assert pre <= MaxUint64;
      ScanNatString(n / 10, acc);
      ScanConcat(hi, [d], acc, pre);
      assert [d][1..] == [];
    }
  }

  /** `Itoa` and `Atoi` are inverse on every 64-bit integer. */
  lemma AtoiItoa(n: Int64)
    ensures Atoi(Itoa(n)) == Parsed(n, None)
  {
    var m: nat := if n < 0 then -(n as int) else n;
    var s := Itoa(n);
    var digits := NatString(m);
    assert digits[0] != '-' && digits[0] != '+' by { assert IsDigit(digits[0]); }
    assert Pow10(|digits|) * 0 == 0;
    ScanNatString(m, 0);
    if n < 0 {
      assert s[0] == '-' && s[1..] == digits;
    } else {
      assert s == digits;
    }
  }
}
