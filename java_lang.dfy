/**
 * The few pieces of the Java language and library the ORM layer relies on:
 * nullable references, the 64- and 32-bit integer types, `double` as an
 * opaque value, the exceptions the facade can let escape, and the decimal
 * rendering `String.valueOf(long)` used to build selection arguments and
 * `toString` texts, together with its inverse.
 */
module JavaLang {

  /** A nullable reference: `None` stands for Java's `null`. */
  datatype Option<+T> = None | Some(value: T)

  /** The exceptions that can escape from the modelled code. */
  datatype Exception =
    | NullPointerException   // a method called on a null reference
    | IllegalStateException  // a cursor read from a column the row does not have

  /** A call that either returns a value or lets an exception escape. */
  datatype Result<+T> = Success(value: T) | Failure(error: Exception)

  const MIN_LONG: int := -0x8000_0000_0000_0000
  const MAX_LONG: int := 0x7FFF_FFFF_FFFF_FFFF

  /** Java's `long`. The layer only copies these values, so no wrap-around arises. */
  type Long = x: int | MIN_LONG <= x <= MAX_LONG

  /** Java's `int`, as returned for row counts. */
  type Int = x: int | -0x8000_0000 <= x < 0x8000_0000

  /** Java's `double`, kept as its IEEE 754 bit pattern: the layer never computes with it. */
  datatype Double = Double(bits: bv64)

  /** Java's `String`, which may be null. */
  type JString = Option<string>

  /** How string concatenation renders a possibly-null `String`. */
  function StringOf(s: JString): (r: string)
    ensures s.Some? ==> r == s.value
    ensures s.None? ==> r == "null"
  {
    match s
    case None => "null"
    case Some(t) => t
  }

  predicate IsDigit(c: char) {
    '0' <= c <= '9'
  }

  predicate AllDigits(s: string) {
    forall i :: 0 <= i < |s| ==> IsDigit(s[i])
  }

  function DigitChar(d: int): (c: char)
    requires 0 <= d < 10
    ensures IsDigit(c) && c as int - '0' as int == d
  {
    ('0' as int + d) as char
  }

  /** The decimal digits of `n`, most significant first, without leading zeros. */
  function Digits(n: nat): (s: string)
    ensures |s| >= 1 && AllDigits(s)
    ensures s[0] == '0' ==> n == 0
    decreases n
  {
    if n < 10 then [DigitChar(n)] else Digits(n / 10) + [DigitChar(n % 10)]
  }

  /** The number a string of decimal digits denotes. */
  function DigitsValue(s: string): nat
    requires AllDigits(s)
    decreases |s|
  {
    if s == [] then 0
    else DigitsValue(s[..|s| - 1]) * 10 + (s[|s| - 1] as int - '0' as int)
  }

  lemma {:induction false} DigitsValueOfDigits(n: nat)
    ensures DigitsValue(Digits(n)) == n
    decreases n
  {
    if n >= 10 {
      var s := Digits(n);
      assert s[..|s| - 1] == Digits(n / 10);
      DigitsValueOfDigits(n / 10);
    }
  }

  /**
   * `String.valueOf(long)` (equivalently `Long.toString`): an optional minus
   * sign followed by the decimal digits of the magnitude.
   */
  function LongToString(n: Long): (s: string)
    ensures |s| >= 1
    ensures s[0] == '-' <==> n < 0
    ensures n < 0 ==> |s| >= 2 && AllDigits(s[1..])
    ensures n >= 0 ==> AllDigits(s)
    ensures forall i :: 0 <= i < |s| ==> s[i] != ' '
  {
    if n < 0 then "-" + Digits(-(n as int)) else Digits(n)
  }

  /**
   * `Long.parseLong` on the strings `LongToString` produces: the inverse used
   * by whoever reads a selection argument back as a row id.
   */
  function ParseLong(s: string): int
    requires (|s| >= 2 && s[0] == '-' && AllDigits(s[1..])) || AllDigits(s)
  {
    if |s| >= 1 && s[0] == '-' then -(DigitsValue(s[1..]) as int) else DigitsValue(s)
  }

  lemma ParseLongToString(n: Long)
    ensures ParseLong(LongToString(n)) == n
  {
    if n < 0 {
      assert LongToString(n)[1..] == Digits(-(n as int));
      DigitsValueOfDigits(-(n as int));
    } else {
      DigitsValueOfDigits(n);
    }
  }

  /**
   * Distinct ids render as distinct strings, so an argument
   * `String.valueOf(rowID)` identifies exactly one row id.
   */
  lemma LongToStringInjective(a: Long, b: Long)
    ensures LongToString(a) == LongToString(b) <==> a == b
  {
    if LongToString(a) == LongToString(b) {
      ParseLongToString(a);
      ParseLongToString(b);
    }
  }

  /** A common prefix cancels. */
  lemma CancelPrefix(p: string, x: string, y: string)
    requires p + x == p + y
    ensures x == y
  {
    assert x == (p + x)[|p|..] && y == (p + y)[|p|..];
  }

  /**
   * If `a + x == b + y` where `a` and `b` contain no space and `x` and `y`
   * start with one, then the two splits agree.
   */
  lemma SplitAtSpace(a: string, x: string, b: string, y: string)
    requires forall i :: 0 <= i < |a| ==> a[i] != ' '
    requires forall i :: 0 <= i < |b| ==> b[i] != ' '
    requires |x| >= 1 && x[0] == ' ' && |y| >= 1 && y[0] == ' '
    requires a + x == b + y
    ensures a == b && x == y
  {
    assert a == (a + x)[..|a|] && b == (b + y)[..|b|];
    assert x == (a + x)[|a|..] && y == (b + y)[|b|..];
  }
}
