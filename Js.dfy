/**
 * The few JavaScript value semantics the tab components rely on: optional
 * values, truthiness fallbacks (`x || ''`, `x || undefined`, `x || false`),
 * and the `Number(...)` / `toString()` conversions, restricted to integers.
 */
module Js {

  /** `T | undefined` */
  datatype Option<T> = None | Some(value: T)

  /** An optional string is falsy in JavaScript when it is `undefined` or `''`. */
  predicate Falsy(s: Option<string>) {
    s == None || s == Some("")
  }

  /** `s || fallback` */
  function OrElse(s: Option<string>, fallback: string): string {
    if Falsy(s) then fallback else s.value
  }

  /** `b || false` for an optional boolean */
  function OrFalse(b: Option<bool>): bool {
    if b.Some? then b.value else false
  }

  /** `s || undefined` for a form field */
  function UndefinedIfEmpty(s: string): Option<string> {
    if s == "" then None else Some(s)
  }

  /**
   * An optional record field copied into a form with `|| ''` and sent back
   * with `|| undefined` is unchanged, except that `''` comes back as
   * `undefined`.
   */
  lemma OptionalFieldRoundTrip(o: Option<string>)
    ensures UndefinedIfEmpty(OrElse(o, "")) == (if Falsy(o) then None else o)
  {
  }

  /**
   * The result of `Number(s)`, restricted to integers written in plain
   * decimal. `NonInteger` stands for every result the model does not
   * compute: fractions, NaN and infinities, but also the integers that
   * JavaScript reads from other spellings (`"1e3"`, `" 5"`, `"0x1A"`,
   * `"1.0"`). Values are unbounded, where JavaScript rounds integers beyond
   * 2^53 to the nearest double.
   */
  datatype Num = Int(value: int) | NonInteger

  predicate IsDigit(c: char) {
    '0' <= c <= '9'
  }

  predicate AllDigits(s: string) {
    forall i :: 0 <= i < |s| ==> IsDigit(s[i])
  }

  function DigitValue(c: char): nat
    requires IsDigit(c)
  {
    c as int - '0' as int
  }

  function DigitChar(d: nat): (c: char)
    requires d < 10
    ensures IsDigit(c) && DigitValue(c) == d
  {
    ('0' as int + d) as char
  }

  /** The value of a string of decimal digits, most significant first. */
  function DigitsValue(s: string): nat
    requires AllDigits(s)
  {
    if s == [] then 0 else 10 * DigitsValue(s[..|s| - 1]) + DigitValue(s[|s| - 1])
  }

  /**
   * `Number(s)` on the strings a number input produces: `''` is 0, an
   * optionally signed run of decimal digits is its integer value, anything
   * else is not an integer.
   */
  function Number(s: string): Num {
    if s == "" then Int(0)
    else if AllDigits(s) then Int(DigitsValue(s))
    else if |s| > 1 && s[0] == '-' && AllDigits(s[1..]) then Int(-(DigitsValue(s[1..]) as int))
    else if |s| > 1 && s[0] == '+' && AllDigits(s[1..]) then Int(DigitsValue(s[1..]))
    else NonInteger
  }

  /** Decimal rendering of a natural number, without leading zeros. */
  function NatToString(n: nat): (s: string)
    ensures s != "" && AllDigits(s)
    ensures |s| > 1 ==> s[0] != '0'
  {
    if n < 10 then [DigitChar(n)] else NatToString(n / 10) + [DigitChar(n % 10)]
  }

  /** `n.toString()` for an integer `n`. */
  function IntToString(n: int): (s: string)
    ensures s != ""
    ensures n < 0 <==> s[0] == '-'
  {
    if n < 0 then "-" + NatToString(-n) else NatToString(n)
  }

  lemma {:induction false} DigitsValueOfNatToString(n: nat)
    ensures DigitsValue(NatToString(n)) == n
  {
    var s := NatToString(n);
    if n >= 10 {
      var prefix := NatToString(n / 10);
      assert s[..|s| - 1] == prefix;
      DigitsValueOfNatToString(n / 10);
    }
  }

  /**
   * `Number(n.toString()) === n` for every integer `n` of the model; in
   * JavaScript this holds for the safe integers, below 2^53 in magnitude.
   */
  lemma NumberOfIntToString(n: int)
    ensures Number(IntToString(n)) == Int(n)
  {
    var s := IntToString(n);
    if n < 0 {
      assert s[1..] == NatToString(-n);
      assert !IsDigit(s[0]);
      DigitsValueOfNatToString(-n);
    } else {
      DigitsValueOfNatToString(n);
    }
  }
}
