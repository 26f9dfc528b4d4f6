/**
 * The display name of a game object, `format!("GameObject#{}", id)`
 * (src/game_object.rs:36): the prefix followed by the id in decimal,
 * without leading zeros.
 */
module Naming {
  const OBJECT_PREFIX: string := "GameObject#"

  predicate IsDigit(c: char)
  {
    '0' <= c <= '9'
  }

  function DigitChar(d: nat): (c: char)
    requires d < 10
    ensures IsDigit(c)
  {
    (d + '0' as int) as char
  }

  function DigitValue(c: char): (d: nat)
    requires IsDigit(c)
    ensures d < 10 && DigitChar(d) == c
  {
    c as int - '0' as int
  }

  /** `n` in decimal, as Rust's `{}` formats an unsigned integer. */
  function DecimalString(n: nat): (s: string)
    ensures |s| > 0
    ensures forall i :: 0 <= i < |s| ==> IsDigit(s[i])
    ensures s[0] == '0' <==> n == 0
    ensures n == 0 ==> s == "0"
    decreases n
  {
    if n < 10 then [DigitChar(n)] else DecimalString(n / 10) + [DigitChar(n % 10)]
  }

  /** The number a string of decimal digits denotes (the inverse of `DecimalString`). */
  function DecimalValue(s: string): nat
    requires forall i :: 0 <= i < |s| ==> IsDigit(s[i])
    decreases |s|
  {
    if s == [] then 0 else DecimalValue(s[..|s| - 1]) * 10 + DigitValue(s[|s| - 1])
  }

  /** Reading back the decimal text of `n` gives `n`. */
  lemma {:induction false} DecimalRoundTrip(n: nat)
    ensures DecimalValue(DecimalString(n)) == n
    decreases n
  {
    var s := DecimalString(n);
    if n >= 10 {
      DecimalRoundTrip(n / 10);
      assert s[..|s| - 1] == DecimalString(n / 10);
    }
  }

  /** The name `GameObject::new` gives the object with id `id`. */
  function ObjectName(id: nat): (name: string)
    ensures |name| > |OBJECT_PREFIX| && name[..|OBJECT_PREFIX|] == OBJECT_PREFIX
  {
    OBJECT_PREFIX + DecimalString(id)
  }

  /** Distinct ids give distinct names: the name determines the id. */
  lemma ObjectNameInjective(a: nat, b: nat)
    requires ObjectName(a) == ObjectName(b)
    ensures a == b
  {
    assert DecimalString(a) == ObjectName(a)[|OBJECT_PREFIX|..];
    assert DecimalString(b) == ObjectName(b)[|OBJECT_PREFIX|..];
    DecimalRoundTrip(a);
    DecimalRoundTrip(b);
  }
}
