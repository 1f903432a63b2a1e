/**
 * JSON values as a worker sees them after decoding a client frame, and the
 * two validator checks the frame dispatcher applies to them: "is null" and
 * "is an integer", plus the `start || now` coercion of a subscribe frame.
 */
module Values {

  datatype Option<T> = None | Some(value: T)

  /**
   * A decoded JSON value. `Absent` is a property that is not there
   * (JavaScript `undefined`); `Other` is every value that is neither null,
   * an integral number nor a string (booleans, fractional numbers, objects,
   * arrays).
   */
  datatype Value = Absent | Null | Int(i: int) | Str(s: string) | Other

  /** The validator's "is null" test: the value's string form is empty. */
  predicate IsNull(v: Value)
    ensures IsNull(v) ==> !IsInt(v)
  {
    v == Absent || v == Null || v == Str("")
  }

  /** The same test on a field that can only be a string or missing. */
  predicate IsNullText(t: Option<string>) {
    t == None || t == Some("")
  }

  predicate IsDigit(c: char) {
    '0' <= c <= '9'
  }

  predicate AllDigits(d: string) {
    forall i :: 0 <= i < |d| ==> IsDigit(d[i])
  }

  /** The text after an optional leading sign. */
  function Unsigned(s: string): (d: string)
    ensures |d| <= |s|
  {
    if |s| > 0 && (s[0] == '-' || s[0] == '+') then s[1..] else s
  }

  /** The validator's integer syntax: an optional sign, then `0` or digits without a leading zero. */
  predicate IsIntLiteral(s: string) {
    var d := Unsigned(s);
    |d| > 0 && AllDigits(d) && (d == "0" || d[0] != '0')
  }

  /** The validator's "is an integer" test, applied to the value's string form. */
  predicate IsInt(v: Value)
    ensures IsInt(v) && v.Str? ==> |v.s| > 0 && IsDigit(v.s[|v.s| - 1])
  {
    v.Int? || (v.Str? && IsIntLiteral(v.s))
  }

  function DigitValue(c: char): nat
    requires IsDigit(c)
  {
    (c - '0') as nat
  }

  /** The number a string of decimal digits denotes. */
  function DigitsValue(d: string): nat
    requires AllDigits(d)
  {
    if d == [] then 0 else 10 * DigitsValue(d[..|d| - 1]) + DigitValue(d[|d| - 1])
  }

  /** The number an integer literal denotes (JavaScript's numeric conversion of the string). */
  function ParseInt(s: string): int
    requires IsIntLiteral(s)
  {
    if s[0] == '-' then -(DigitsValue(Unsigned(s)) as int) else DigitsValue(Unsigned(s))
  }

  function DigitChar(n: nat): (c: char)
    requires n < 10
    ensures IsDigit(c) && DigitValue(c) == n
  {
    ('0' as int + n) as char
  }

  /** Decimal text of a natural number, without leading zeros. */
  function DigitsText(n: nat): (d: string)
    ensures |d| > 0 && AllDigits(d)
    ensures d[0] == '0' ==> n == 0
  {
    if n < 10 then [DigitChar(n)] else DigitsText(n / 10) + [DigitChar(n % 10)]
  }

  /** Decimal text of an integer, as JSON would print it. */
  function IntText(i: int): string {
    if i < 0 then "-" + DigitsText(-i) else DigitsText(i)
  }

  lemma {:induction false} DigitsRoundTrip(n: nat)
    ensures DigitsValue(DigitsText(n)) == n
  {
    if n >= 10 {
      var d := DigitsText(n);
      assert d[..|d| - 1] == DigitsText(n / 10);
      DigitsRoundTrip(n / 10);
    }
  }

  /** Every integer's text is an integer literal that parses back to it. */
  lemma IntTextRoundTrip(i: int)
    ensures IsIntLiteral(IntText(i))
    ensures ParseInt(IntText(i)) == i
  {
    var t := IntText(i);
    if i < 0 {
      assert Unsigned(t) == DigitsText(-i);
      DigitsRoundTrip(-i);
    } else {
      assert Unsigned(t) == DigitsText(i);
      DigitsRoundTrip(i);
    }
  }

  /**
   * The effective replay bound of a subscribe frame: `start || now`. Among
   * values that pass the integer check only the number 0 is falsy; a string
   * is never empty here, so "0" is kept.
   */
  function StartTime(start: Value, now: nat): (t: int)
    requires IsInt(start)
    ensures start == Int(0) ==> t == now
    ensures start.Int? && start.i != 0 ==> t == start.i
    ensures start.Str? ==> t == ParseInt(start.s)
  {
    match start
    case Int(i) => if i == 0 then now else i
    case Str(s) => ParseInt(s)
  }

  /** A start written as a string is used as given, even "0" (no fallback to the clock). */
  lemma TextStartIsKept(i: int, now: nat)
    ensures IsInt(Str(IntText(i)))
    ensures StartTime(Str(IntText(i)), now) == i
  {
    IntTextRoundTrip(i);
  }
}
