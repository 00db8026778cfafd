/** utils/file.go: sizes such as "20GB" read as a number of bytes. */
module Sizes {
  import opened Prelude
  import opened Text

  /**
    strconv.ParseFloat; None is its error. Special values are not part of this model. The product with a unit is
    exact, because units are powers of two.
   */
  type Parser = string -> Option<real>

  /** Bytes is a result without error; a string below two characters makes the slice expression panic. */
  datatype Size = Bytes(n: int) | BadNumber | BadUnit | Panic

  function Multiplier(unit: string): Option<int> {
    if unit == "KB" then Some(0x400)
    else if unit == "MB" then Some(0x10_0000)
    else if unit == "GB" then Some(0x4000_0000)
    else if unit == "TB" then Some(0x100_0000_0000)
    else None
  }

  /** Go's conversion drops the fraction; out of range, 64-bit x86 yields the smallest integer. */
  function ToInt64(x: real): (r: int)
    ensures -MAX_INT - 1 <= r <= MAX_INT
  {
    var n := if x >= 0.0 then x.Floor else -(-x).Floor;
    if -MAX_INT - 1 <= n <= MAX_INT then n else -MAX_INT - 1
  }

  function ToBytes(parse: Parser, origin: string): (r: Size)
    ensures r.Bytes? ==> |origin| >= 2 && Multiplier(origin[|origin| - 2..]).Some?
  {
    if |origin| < 2 then Panic
    else
      match parse(origin[..|origin| - 2])
      case None => BadNumber
      case Some(size) =>
        match Multiplier(origin[|origin| - 2..])
        case None => BadUnit
        case Some(multiplier) => Bytes(ToInt64(size * (multiplier as real)))
  }

  /** The variable that a caller is left with when it ignores the error. */
  function OrZero(s: Size): int {
    if s.Bytes? then s.n else 0
  }

  /** An integer in decimal. */
  function Decimal(n: int): string {
    if n >= 0 then Itoa(n) else "-" + Itoa(-n)
  }

  /** How RollbackContainer prints a number of bytes: divided, rounding towards zero, by a megabyte only. */
  function Gigabytes(bytes: int): string {
    Decimal(if bytes >= 0 then bytes / 0x10_0000 else -(-bytes / 0x10_0000)) + "GB"
  }

  // Reading whole numbers ---------------------------------------------------------------------------------

  const TWO_53 := 0x20_0000_0000_0000

  function Pow2(n: nat): (r: nat)
    ensures r >= 1
  {
    if n == 0 then 1 else 2 * Pow2(n - 1)
  }

  /** x is m times two to the e, with a significand of 53 bits and an exponent that float64 has. */
  ghost predicate Scaled(x: real, m: int, e: int) {
    && -TWO_53 < m < TWO_53 && -1074 <= e <= 971
    && if e >= 0 then x == (m * Pow2(e)) as real else x * (Pow2(-e) as real) == m as real
  }

  ghost predicate Float64(x: real) {
    exists m, e :: Scaled(x, m, e)
  }

  function LargestFloat64(): nat {
    (TWO_53 - 1) * Pow2(971)
  }

  function Distance(x: real, y: real): real {
    if x <= y then y - x else x - y
  }

  ghost predicate Nearest(x: real, v: real) {
    Float64(x) && forall y :: Float64(y) ==> Distance(x, v) <= Distance(y, v)
  }

  /** What strconv.ParseFloat promises for digits alone: a nearest float64, unless the number is too large for one. */
  ghost predicate ReadsDigits(parse: Parser) {
    forall s: string :: s != "" && AllDigits(s) && Value(s) <= LargestFloat64() ==>
      parse(s).Some? && Nearest(parse(s).value, Value(s) as real)
  }

  /** Below 2^53 there is nothing to round. */
  lemma ReadsExactly(parse: Parser, n: nat)
    requires ReadsDigits(parse) && n < TWO_53
    ensures parse(Itoa(n)) == Some(n as real)
  {
    var x := n as real;
    assert Scaled(x, n, 0);
    WithinFloat64(n);
    assert Nearest(parse(Itoa(n)).value, x);
    assert Distance(parse(Itoa(n)).value, x) <= Distance(x, x);
  }

  lemma WithinFloat64(n: nat)
    requires n < TWO_53
    ensures n <= LargestFloat64()
  {
    var p := Pow2(971);
    assert (TWO_53 - 1) * p >= TWO_53 - 1;
  }

  lemma ToInt64Exact(n: nat, m: nat)
    requires n * m <= MAX_INT
    ensures ToInt64((n as real) * (m as real)) == n * m
  {
    assert (n as real) * (m as real) == (n * m) as real;
  }

  /** A whole number below 2^53 with a unit is read exactly, as long as the bytes fit into 64 bits. */
  lemma ToBytesExact(parse: Parser, n: nat, unit: string)
    requires ReadsDigits(parse) && n < TWO_53
    requires Multiplier(unit).Some? && n * Multiplier(unit).value <= MAX_INT
    ensures ToBytes(parse, Itoa(n) + unit) == Bytes(n * Multiplier(unit).value)
  {
    ReadsExactly(parse, n);
    ReadAs(parse, Itoa(n), unit, n);
  }

  lemma ReadAs(parse: Parser, number: string, unit: string, n: nat)
    requires parse(number) == Some(n as real) && Multiplier(unit).Some? && n * Multiplier(unit).value <= MAX_INT
    ensures ToBytes(parse, number + unit) == Bytes(n * Multiplier(unit).value)
  {
    var origin := number + unit;
    assert |unit| == 2 && origin[..|origin| - 2] == number && origin[|origin| - 2..] == unit;
    ToInt64Exact(n, Multiplier(unit).value);
  }

  /** So comparing two results compares the true sizes. */
  lemma ComparesTrueSizes(parse: Parser, n: nat, u: string, m: nat, w: string)
    requires ReadsDigits(parse) && n < TWO_53 && m < TWO_53
    requires Multiplier(u).Some? && n * Multiplier(u).value <= MAX_INT
    requires Multiplier(w).Some? && m * Multiplier(w).value <= MAX_INT
    ensures OrZero(ToBytes(parse, Itoa(n) + u)) < OrZero(ToBytes(parse, Itoa(m) + w)) <==>
      n * Multiplier(u).value < m * Multiplier(w).value
  {
    ToBytesExact(parse, n, u);
    ToBytesExact(parse, m, w);
  }
}
