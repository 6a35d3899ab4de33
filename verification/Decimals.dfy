/** Decimal notation of natural numbers. */
module Decimals {
  import opened Options

  predicate IsDigit(c: char) {
    '0' <= c <= '9'
  }

  function DigitChar(d: nat): char
    requires d < 10
  {
    ('0' as int + d) as char
  }

  /** The number a string of digits stands for; the empty string counts as zero. */
  function Digits(s: string): Option<nat> {
    if s == "" then Some(0)
    else
      var d := Digits(s[..|s| - 1]);
      if d.Some? && IsDigit(s[|s| - 1]) then Some(10 * d.value + (s[|s| - 1] as int - '0' as int)) else None
  }

  function Print(n: nat): string {
    (if n < 10 then "" else Print(n / 10)) + [DigitChar(n % 10)]
  }

  lemma {:induction false} PrintRoundTrip(n: nat)
    ensures Digits(Print(n)) == Some(n)
  {
    var s := Print(n);
    if n >= 10 {
      PrintRoundTrip(n / 10);
      assert s[..|s| - 1] == Print(n / 10);
    } else {
      assert s[..|s| - 1] == "";
    }
  }

  lemma {:induction false} PrintIsDigits(n: nat)
    ensures forall i :: 0 <= i < |Print(n)| ==> IsDigit(Print(n)[i])
  {
    if n >= 10 { PrintIsDigits(n / 10); }
  }

  /** How many digits a text starts with. */
  function DigitRun(s: string): nat {
    if s == "" || !IsDigit(s[0]) then 0 else 1 + DigitRun(s[1..])
  }

  lemma {:induction false} DigitRunStops(p: string, x: string)
    requires (forall i :: 0 <= i < |p| ==> IsDigit(p[i])) && (x == "" || !IsDigit(x[0]))
    ensures DigitRun(p + x) == |p|
  {
    if p == "" {
      assert p + x == x;
    } else {
      assert (p + x)[1..] == p[1..] + x;
      DigitRunStops(p[1..], x);
    }
  }

  /** A printed number ends where the first other character stands, so it can be read back from the middle of a text. */
  lemma PrintPrefix(a: nat, x: string, b: nat, y: string)
    requires Print(a) + x == Print(b) + y
    requires (x == "" || !IsDigit(x[0])) && (y == "" || !IsDigit(y[0]))
    ensures a == b && x == y
  {
    var p, q := Print(a), Print(b);
    PrintIsDigits(a);
    PrintIsDigits(b);
    DigitRunStops(p, x);
    DigitRunStops(q, y);
    assert (p + x)[..|p|] == p && (q + y)[..|q|] == q;
    assert (p + x)[|p|..] == x && (q + y)[|q|..] == y;
    PrintRoundTrip(a);
    PrintRoundTrip(b);
  }
}
