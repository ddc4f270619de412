/**
 * Java-level building blocks shared by the models: null as Option, thrown
 * exceptions as values, the fixed-width integer types with their two's
 * complement wrap-around, and decimal rendering and parsing of integers
 * (Integer.toString / Long.toString / Integer.parseInt).
 */
module Java {

  datatype Option<+T> = None | Some(value: T)

  /** The exceptions the modelled code throws or lets escape. */
  datatype JavaException =
    | IllegalArgument(message: string)
    | IllegalState(message: string)
    | NullPointer
    | IndexOutOfBounds(index: int)
    | NumberFormat
    | ClassCast
    | InvalidKey(key: string)
    | TransactionFailure(message: string)

  /** The result of a value-returning Java method: a value or a thrown exception. */
  datatype Result<+T> = Ok(value: T) | Err(error: JavaException)

  /** The result of a void Java method: normal completion or a thrown exception. */
  datatype Outcome = Normal | Thrown(error: JavaException)

  const TWO_32: int := 0x1_0000_0000
  const TWO_64: int := 0x1_0000_0000_0000_0000

  /** Java `int`. */
  type Int32 = x: int | -0x8000_0000 <= x < 0x8000_0000

  /** Java `long`. */
  type Int64 = x: int | -0x8000_0000_0000_0000 <= x < 0x8000_0000_0000_0000

  predicate InInt32(x: int) { -0x8000_0000 <= x < 0x8000_0000 }

  predicate InInt64(x: int) { -0x8000_0000_0000_0000 <= x < 0x8000_0000_0000_0000 }

  /** The `int` that 32-bit arithmetic yields for the mathematical value x. */
  function WrapInt32(x: int): (r: Int32)
    ensures (r - x) % TWO_32 == 0
    ensures InInt32(x) ==> r == x
  {
    var m := x % TWO_32;
    if m >= 0x8000_0000 then m - TWO_32 else m
  }

  /** The `long` that 64-bit arithmetic yields for the mathematical value x. */
  function WrapInt64(x: int): (r: Int64)
    ensures (r - x) % TWO_64 == 0
    ensures InInt64(x) ==> r == x
  {
    var m := x % TWO_64;
    if m >= 0x8000_0000_0000_0000 then m - TWO_64 else m
  }

  /**
   * `order` lists each element of `s` exactly once: an iteration order of a
   * HashSet or of a HashMap's key set, which the model leaves unspecified.
   */
  ghost predicate Enumerates<T(!new)>(order: seq<T>, s: set<T>)
  {
    && (forall i, j :: 0 <= i < j < |order| ==> order[i] != order[j])
    && (forall x :: x in s <==> x in order)
  }

  // ---------------------------------------------------------------------------
  // Decimal rendering and parsing

  predicate IsDigit(c: char) { '0' <= c <= '9' }

  predicate AllDigits(s: string) { forall i :: 0 <= i < |s| ==> IsDigit(s[i]) }

  function DigitChar(d: nat): (c: char)
    requires d < 10
    ensures IsDigit(c) && c as int - '0' as int == d
  {
    ('0' as int + d) as char
  }

  function DigitValue(c: char): nat
    requires IsDigit(c)
  {
    c as int - '0' as int
  }

  /** Decimal digits of n, most significant first, without leading zeros. */
  function NatToDecimal(n: nat): (s: string)
    ensures |s| >= 1 && AllDigits(s)
  {
    if n < 10 then [DigitChar(n)] else NatToDecimal(n / 10) + [DigitChar(n % 10)]
  }

  /** Integer.toString / Long.toString: a minus sign for negative values, then the digits. */
  function IntToDecimal(n: int): string
  {
    if n < 0 then "-" + NatToDecimal(-n) else NatToDecimal(n)
  }

  /** The number a non-empty run of decimal digits denotes. */
  function DigitsValue(s: string): nat
    requires AllDigits(s)
  {
    if s == [] then 0 else DigitsValue(s[..|s| - 1]) * 10 + DigitValue(s[|s| - 1])
  }

  /** The grammar Integer.parseInt accepts: an optional sign, then at least one digit. */
  function ParseDecimal(s: string): Option<int>
  {
    if |s| == 0 then None
    else if s[0] == '-' || s[0] == '+' then
      if |s| >= 2 && AllDigits(s[1..]) then
        Some(if s[0] == '-' then 0 - DigitsValue(s[1..]) as int else DigitsValue(s[1..]))
      else None
    else if AllDigits(s) then Some(DigitsValue(s))
    else None
  }

  /**
   * Integer.parseInt: null, a malformed string and a value outside the `int`
   * range all throw NumberFormatException.
   */
  function ParseInt(s: Option<string>): (r: Result<Int32>)
    ensures r.Ok? <==> s.Some? && ParseDecimal(s.value).Some? && InInt32(ParseDecimal(s.value).value)
    ensures r.Ok? ==> r.value == ParseDecimal(s.value).value
    ensures r.Err? ==> r.error == NumberFormat
  {
    if s.None? then Err(NumberFormat)
    else
      match ParseDecimal(s.value)
      case None => Err(NumberFormat)
      case Some(v) => if InInt32(v) then Ok(v) else Err(NumberFormat)
  }

  lemma {:induction false} DigitsOfNatToDecimal(n: nat)
    ensures DigitsValue(NatToDecimal(n)) == n
    decreases n
  {
    var s := NatToDecimal(n);
    if n < 10 {
      assert s[..|s| - 1] == [];
    } else {
      DigitsOfNatToDecimal(n / 10);
      assert s[..|s| - 1] == NatToDecimal(n / 10);
    }
  }

  /** Parsing what Integer.toString/Long.toString print gives the number back. */
  lemma ParseIntToDecimal(n: int)
    ensures ParseDecimal(IntToDecimal(n)) == Some(n)
  {
    var s := IntToDecimal(n);
    if n < 0 {
      assert s[1..] == NatToDecimal(-n);
      DigitsOfNatToDecimal(-n);
    } else {
      assert IsDigit(s[0]);
      DigitsOfNatToDecimal(n);
    }
  }

  /** Distinct numbers print as distinct strings. */
  lemma IntToDecimalInjective(a: int, b: int)
    ensures IntToDecimal(a) == IntToDecimal(b) <==> a == b
  {
    ParseIntToDecimal(a);
    ParseIntToDecimal(b);
  }
}
