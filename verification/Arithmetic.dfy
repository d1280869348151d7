/** Division with remainder, and powers of two. */
module Arithmetic {
  lemma AtLeastOneMultiple(m: nat, d: int)
    ensures d >= 1 ==> m * d >= m
    ensures d <= -1 ==> m * d <= -(m as int)
  {
    if d >= 1 { assert m * d == m * (d - 1) + m; }
    if d <= -1 { assert m * d == -(m * (-d - 1)) - m; }
  }

  lemma DivisionUnique(x: int, m: nat, q: int, r: nat)
    requires m > 0 && x == m * q + r && r < m
    ensures x % m == r && x / m == q
  {
    var d := q - x / m;
    assert m * d == x % m - r;
    AtLeastOneMultiple(m, d);
  }

  lemma Wrapped(x: int, m: nat)
    requires -(m as int) <= x < m
    ensures x % m == if x < 0 then x + m else x
  {
    DivisionUnique(x, m, if x < 0 then -1 else 0, if x < 0 then x + m else x);
  }

  function Pow2(k: nat): (r: nat)
    ensures r >= 1
  {
    if k == 0 then 1 else 2 * Pow2(k - 1)
  }

  lemma {:induction false} Pow2Adds(a: nat, b: nat)
    ensures Pow2(a + b) == Pow2(a) * Pow2(b)
  {
    if b > 0 { Pow2Adds(a, b - 1); }
  }

  lemma Pow2Mono(a: nat, b: nat)
    requires a <= b
    ensures Pow2(a) <= Pow2(b)
  {
    Pow2Adds(a, b - a);
    AtLeastOneMultiple(Pow2(a), Pow2(b - a));
  }

  lemma WordIsPow2()
    ensures Pow2(8) == 0x100 && Pow2(16) == 0x1_0000 && Pow2(24) == 0x100_0000 && Pow2(32) == 0x1_0000_0000
  {
    Pow2Adds(8, 8);
    Pow2Adds(16, 8);
    Pow2Adds(16, 16);
  }
}
