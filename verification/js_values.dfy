/**
 * The few JavaScript value conversions the storefront relies on: the
 * truthiness tests in its `if (x)` guards, `Number(text)` on form input,
 * and `n.toString()` when a number is put into a query or a form.
 * Numbers are integers here; NaN is kept because `Number` can produce it.
 */
module JsValues {

  /** A JavaScript number restricted to integers, plus NaN. */
  datatype JsNumber = Num(n: int) | NaN

  /** `if (x)` on a number: 0 and NaN are falsy. */
  predicate Truthy(x: JsNumber) {
    x.Num? && x.n != 0
  }

  /** `if (s)` on a string: only the empty string is falsy. */
  predicate TruthyText(s: string) {
    |s| > 0
  }

  predicate IsDigit(c: char) {
    '0' <= c <= '9'
  }

  predicate AllDigits(s: string) {
    forall i :: 0 <= i < |s| ==> IsDigit(s[i])
  }

  function DigitChar(d: int): (c: char)
    requires 0 <= d < 10
    ensures IsDigit(c)
  {
    ('0' as int + d) as char
  }

  function DigitValue(c: char): (d: int)
    requires IsDigit(c)
    ensures 0 <= d < 10
  {
    c as int - '0' as int
  }

  /** Decimal text of a natural number, most significant digit first, no leading zeros. */
  function NatToString(n: nat): (s: string)
    ensures |s| > 0 && AllDigits(s)
    ensures n < 10 <==> |s| == 1
  {
    if n < 10 then [DigitChar(n)] else NatToString(n / 10) + [DigitChar(n % 10)]
  }

  /** Value of a run of decimal digits (most significant first). */
  function ParseDigits(s: string): nat
    requires AllDigits(s)
  {
    if |s| == 0 then 0 else ParseDigits(s[..|s| - 1]) * 10 + DigitValue(s[|s| - 1])
  }

  /** `Number.prototype.toString()` on an integer. */
  function IntToString(i: int): string {
    if i < 0 then "-" + NatToString(-i) else NatToString(i)
  }

  /**
   * `Number(s)` on the texts the model considers: the empty string is 0,
   * an optional sign followed by at least one digit is that integer, and
   * every other text is NaN.
   */
  function NumberOf(s: string): JsNumber {
    if |s| == 0 then Num(0)
    else if (s[0] == '-' || s[0] == '+') && |s| > 1 && AllDigits(s[1..]) then
      var v: int := ParseDigits(s[1..]);
      if s[0] == '-' then Num(-v) else Num(v)
    else if AllDigits(s) then Num(ParseDigits(s))
    else NaN
  }

  lemma {:induction false} ParseNatToString(n: nat)
    ensures ParseDigits(NatToString(n)) == n
  {
    if n >= 10 {
      var s := NatToString(n / 10);
      var t := s + [DigitChar(n % 10)];
      assert t[..|t| - 1] == s;
      ParseNatToString(n / 10);
    }
  }

  /** Reading back the text `toString` produced gives the same number. */
  lemma NumberOfIntToString(i: int)
    ensures NumberOf(IntToString(i)) == Num(i)
  {
    var s := IntToString(i);
    if i < 0 {
      var d := NatToString(-i);
      assert s == "-" + d;
      assert s[1..] == d;
      ParseNatToString(-i);
      assert NumberOf(s) == Num(i);
    } else {
      assert s == NatToString(i);
      assert IsDigit(s[0]);
      ParseNatToString(i);
      assert NumberOf(s) == Num(ParseDigits(s));
    }
  }

  /** The decimal text of a positive number never starts with `0`. */
  lemma {:induction false} NatToStringLeading(n: nat)
    requires n >= 1
    ensures NatToString(n)[0] != '0'
    decreases n
  {
    if n >= 10 {
      NatToStringLeading(n / 10);
      assert NatToString(n)[0] == NatToString(n / 10)[0];
    }
  }
}
