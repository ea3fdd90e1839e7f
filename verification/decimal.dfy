/**
 Decimal rendering of a list size, as Java's string concatenation of an `int`
 produces it, together with the parser that reads it back.
 */
module Decimal {
  import opened Wrappers

  predicate IsDigit(c: char) {
    '0' <= c <= '9'
  }

  predicate AllDigits(s: string) {
    forall i :: 0 <= i < |s| ==> IsDigit(s[i])
  }

  function DigitValue(c: char): nat
    requires IsDigit(c)
  {
    c as int - '0' as int
  }

  function DigitChar(d: nat): (c: char)
    requires d < 10
    ensures IsDigit(c) && DigitValue(c) == d
  {
    ('0' as int + d) as char
  }

  /** A decimal numeral as Java prints one: non-empty, digits only, and no leading zero. */
  predicate Canonical(s: string) {
    0 < |s| && AllDigits(s) && (s[0] == '0' ==> |s| == 1)
  }

  /** The decimal text of `n`; it starts with '0' only when it is exactly "0". */
  function Show(n: nat): (s: string)
    ensures Canonical(s)
    ensures s[0] == '0' <==> n == 0
    decreases n
  {
    if n < 10 then [DigitChar(n)] else Show(n / 10) + [DigitChar(n % 10)]
  }

  /** The value of a canonical numeral, `None` for any other string (leading zeros included). */
  function Parse(s: string): (r: Option<nat>)
    ensures r.Some? <==> Canonical(s)
    decreases |s|
  {
    if |s| == 0 || !IsDigit(s[|s| - 1]) || (1 < |s| && s[0] == '0') then None
    else if |s| == 1 then Some(DigitValue(s[0]))
    else
      match Parse(s[..|s| - 1])
      case None => None
      case Some(v) => Some(10 * v + DigitValue(s[|s| - 1]))
  }

  /** Reading back the rendered text gives the number that was rendered. */
  lemma {:induction false} ParseShow(n: nat)
    ensures Parse(Show(n)) == Some(n)
    decreases n
  {
    if n >= 10 {
      ParseShow(n / 10);
      var s := Show(n);
      assert s[..|s| - 1] == Show(n / 10);
    }
  }

  /** Rendering a parsed numeral gives back the very text: each number has exactly one numeral. */
  lemma {:induction false} ShowParse(s: string)
    requires Canonical(s)
    ensures Show(Parse(s).value) == s
    decreases |s|
  {
    var last := s[|s| - 1];
    assert DigitChar(DigitValue(last)) == last;
    if |s| > 1 {
      var p := s[..|s| - 1];
      assert p[0] == s[0];
      assert Canonical(p);
      ShowParse(p);
      var v := Parse(p).value;
      assert v != 0;
      var n := 10 * v + DigitValue(last);
      assert n / 10 == v && n % 10 == DigitValue(last);
      assert s == p + [last];
    }
  }
}
