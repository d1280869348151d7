/** The text of journal keys: decimal numbers, and names joined by a separator. */
module Keys {
  function Digit(n: nat): char
    requires n < 10
  {
    '0' + n as char
  }

  function Decimal(n: nat): (s: string)
    ensures s != [] && forall i :: 0 <= i < |s| ==> '0' <= s[i] <= '9'
  {
    if n < 10 then [Digit(n)] else Decimal(n / 10) + [Digit(n % 10)]
  }

  lemma {:induction false} DecimalInjective(m: nat, n: nat)
    requires Decimal(m) == Decimal(n)
    ensures m == n
  {
    var s := Decimal(m);
    assert s[|s| - 1] == Digit(m % 10) == Digit(n % 10);
    if m >= 10 && n >= 10 {
      assert s[..|s| - 1] == Decimal(m / 10) && s[..|s| - 1] == Decimal(n / 10);
      DecimalInjective(m / 10, n / 10);
    }
  }

  lemma LastMark(s: string, a: string, b: string, mark: char)
    requires s == a + [mark] + b && mark !in b
    ensures |a| < |s| && s[|a|] == mark && forall i :: |a| < i < |s| ==> s[i] != mark
  {
    forall i | |a| < i < |s| ensures s[i] != mark { assert s[i] == b[i - |a| - 1]; }
  }

  /** Nothing behind the last separator contains it, so the text comes apart in one way only. */
  lemma SplitAtLast(a: string, b: string, c: string, d: string, mark: char)
    requires a + [mark] + b == c + [mark] + d && mark !in b && mark !in d
    ensures a == c && b == d
  {
    var s := a + [mark] + b;
    LastMark(s, a, b, mark);
    LastMark(s, c, d, mark);
    assert |a| == |c|;
    assert a == s[..|a|] && c == s[..|a|] && b == s[|a| + 1..] && d == s[|a| + 1..];
  }

  lemma SplitAtNumber(a: string, m: nat, c: string, n: nat, mark: char)
    requires a + [mark] + Decimal(m) == c + [mark] + Decimal(n) && !('0' <= mark <= '9')
    ensures a == c && m == n
  {
    SplitAtLast(a, Decimal(m), c, Decimal(n), mark);
    DecimalInjective(m, n);
  }

  lemma SameHead(head: string, a: string, b: string)
    requires head + a == head + b
    ensures a == b
  {
    assert a == (head + a)[|head|..];
  }

  lemma SameNumber(head: string, m: nat, n: nat)
    requires head + Decimal(m) == head + Decimal(n)
    ensures m == n
  {
    SameHead(head, Decimal(m), Decimal(n));
    DecimalInjective(m, n);
  }
}
