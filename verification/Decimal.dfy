/** The `%d` conversion of section 7.21.6.2 of ISO C11, in both directions. */
module Decimal {

  /** '0' to '9' for 0 to 9. */
  function Digit(n: nat): (c: char)
    requires n < 10
    ensures IsDigit(c) && Value(c) == n
  {
    '0' + n as char
  }

  predicate IsDigit(c: char) {
    '0' <= c <= '9'
  }

  function Value(c: char): nat
    requires IsDigit(c)
  {
    c as int - '0' as int
  }

  /** The decimal digits of a non-negative number, most significant first. */
  function Digits(n: nat): (s: string)
    ensures s != [] && forall c | c in s :: IsDigit(c)
  {
    if n < 10 then [Digit(n)] else Digits(n / 10) + [Digit(n % 10)]
  }

  /** What `%d` prints. */
  function Print(n: int): string {
    if n < 0 then "-" + Digits(-n) else Digits(n)
  }

  /** The number a digit string denotes. */
  function Number(s: string): (n: nat)
    requires forall c | c in s :: IsDigit(c)
  {
    if s == [] then 0 else 10 * Number(s[..|s| - 1]) + Value(s[|s| - 1])
  }

  /** Number undoes Digits. */
  lemma {:induction false} NumberOfDigits(n: nat)
    ensures Number(Digits(n)) == n
  {
    var s := Digits(n);
    if n < 10 {
      assert s[..0] == [];
    } else {
      NumberOfDigits(n / 10);
      assert s[..|s| - 1] == Digits(n / 10);
    }
  }

  /** A number below 10^k has at most k digits. */
  lemma {:induction false} DigitsBound(n: nat, k: nat)
    requires k > 0 && n < Power10(k)
    ensures |Digits(n)| <= k
  {
    if n >= 10 {
      assert Power10(1) == 10;
      DigitsBound(n / 10, k - 1);
    }
  }

  function Power10(k: nat): nat {
    if k == 0 then 1 else 10 * Power10(k - 1)
  }

  /** Digits cannot reach past the first character that is none. */
  lemma DigitsNotLonger(x: string, s: string, y: string, t: string)
    requires s != [] && !IsDigit(s[0]) && x + s == y + t
    requires forall c | c in y :: IsDigit(c)
    ensures |y| <= |x|
  {
    assert (x + s)[|x|] == s[0];
    assert forall j | 0 <= j < |y| :: (y + t)[j] == y[j] && y[j] in y;
  }

  /** Where digits are followed by something else, both parts can be told. */
  lemma DigitsEnd(m: nat, s: string, n: nat, t: string)
    requires s != [] && !IsDigit(s[0]) && t != [] && !IsDigit(t[0])
    requires Digits(m) + s == Digits(n) + t
    ensures m == n && s == t
  {
    var x, y := Digits(m), Digits(n);
    DigitsNotLonger(x, s, y, t);
    DigitsNotLonger(y, t, x, s);
    assert x == (x + s)[..|x|] == (y + t)[..|y|] == y;
    assert s == (x + s)[|x|..] == (y + t)[|y|..] == t;
    NumberOfDigits(m);
    NumberOfDigits(n);
  }

  /** The first printed character is a digit or the minus sign. */
  lemma PrintStart(n: int)
    ensures Print(n) != [] && (IsDigit(Print(n)[0]) || Print(n)[0] == '-')
  {
    var s := Digits(if n < 0 then -n else n);
    assert s[0] in s;
  }
}
