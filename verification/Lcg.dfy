/** The 32-bit generator of every differential test, and the cases one of them draws from it. */
module Lcg {
  import opened Arithmetic

  const MULTIPLIER := 1664525
  const INCREMENT := 1013904223
  const WORD := 0x1_0000_0000

  // ---- JavaScript's integer conversions

  /** ECMA-262, section 7.1.7. */
  function ToUint32(x: int): nat { x % WORD }

  /** ECMA-262, section 21.3.2.19: the low 32 bits of the product, as a signed number. */
  function Imul(x: int, y: int): int {
    var product := (ToUint32(x) * ToUint32(y)) % WORD;
    if product >= 0x8000_0000 then product - WORD else product
  }

  /** The generator without the wrap-around. */
  function Iterate(x: int, n: nat): int {
    if n == 0 then x else MULTIPLIER * Iterate(x, n - 1) + INCREMENT
  }

  predicate Congruent(a: int, b: int, m: nat)
    requires m > 0
  {
    (a - b) % m == 0
  }

  lemma Multiple(q: int, m: nat)
    requires m > 0
    ensures (q * m) % m == 0
  {
    assert q * m == m * q + 0;
    DivisionUnique(q * m, m, q, 0);
  }

  /** Congruent numbers have the same remainder, and the other way round. */
  lemma CongruentIff(a: int, b: int, m: nat)
    requires m > 0
    ensures Congruent(a, b, m) <==> a % m == b % m
  {
    if Congruent(a, b, m) {
      var q := (a - b) / m;
      assert a == m * (b / m + q) + b % m by { assert m * (b / m + q) == m * (b / m) + m * q; }
      DivisionUnique(a, m, b / m + q, b % m);
    }
    if a % m == b % m {
      assert a - b == (a / m - b / m) * m;
      Multiple(a / m - b / m, m);
    }
  }

  lemma ByMultiple(a: int, b: int, m: nat, q: int)
    requires m > 0 && a == b + q * m
    ensures Congruent(a, b, m)
  {
    Multiple(q, m);
  }

  lemma CongruentLike(w: int, y: int, z: int, m: nat)
    requires m > 0 && Congruent(y, z, m)
    ensures Congruent(w, y, m) <==> Congruent(w, z, m)
    ensures Congruent(y, w, m) <==> Congruent(z, w, m)
  {
    CongruentIff(y, z, m);
    CongruentIff(w, y, m);
    CongruentIff(w, z, m);
    CongruentIff(y, w, m);
    CongruentIff(z, w, m);
  }

  lemma CongruentHalf(y: int, z: int, p: nat)
    requires p > 0 && Congruent(y, z, 2 * p)
    ensures Congruent(y, z, p)
  {
    var q := (y - z) / (2 * p);
    assert y == z + (2 * q) * p by { assert q * (2 * p) == (2 * q) * p; }
    ByMultiple(y, z, p, 2 * q);
  }

  lemma LinearStep(x: int, y: int, m: nat)
    requires m > 0 && Congruent(x, y, m)
    ensures Congruent(MULTIPLIER * x + INCREMENT, MULTIPLIER * y + INCREMENT, m)
  {
    var q := (x - y) / m;
    assert MULTIPLIER * x + INCREMENT == MULTIPLIER * y + INCREMENT + (MULTIPLIER * q) * m;
    ByMultiple(MULTIPLIER * x + INCREMENT, MULTIPLIER * y + INCREMENT, m, MULTIPLIER * q);
  }

  /** The expression of the source is the linear congruence. */
  lemma ImulIsLinear(s: nat)
    requires s < WORD
    ensures ToUint32(Imul(s, MULTIPLIER) + INCREMENT) == (MULTIPLIER * s + INCREMENT) % WORD
  {
    var p := s * MULTIPLIER;
    assert ToUint32(s) == s && ToUint32(MULTIPLIER) == MULTIPLIER;
    var i := Imul(s, MULTIPLIER);
    assert i == p - WORD * (p / WORD) || i == p - WORD * (p / WORD + 1);
    var q := if i == p - WORD * (p / WORD) then p / WORD else p / WORD + 1;
    ByMultiple(p + INCREMENT, i + INCREMENT, WORD, q);
    CongruentIff(p + INCREMENT, i + INCREMENT, WORD);
  }

  function Step(s: nat): nat { (MULTIPLIER * s + INCREMENT) % WORD }

  /** The state after `n` draws. */
  function Nth(s: nat, n: nat): nat {
    if n == 0 then s else Step(Nth(s, n - 1))
  }

  // ---- the structure of 2^k steps

  lemma {:induction false} IterateAdds(x: int, m: nat, n: nat)
    ensures Iterate(x, m + n) == Iterate(Iterate(x, m), n)
  {
    if n > 0 { IterateAdds(x, m, n - 1); }
  }

  /** The map x -> (1 + 4 p m) x + p (2 o + 1). */
  function Affine(p: nat, m: int, o: int, x: int): int {
    (1 + 4 * p * m) * x + p * (2 * o + 1)
  }

  /** Applied twice it has the same shape for 2 p. */
  function NextSlope(p: nat, m: int): int { m + 2 * p * m * m }

  function NextOffset(p: nat, m: int, o: int): int { o + p * m * (2 * o + 1) }

  function Slope(k: nat): int {
    if k == 0 then 416131 else NextSlope(Pow2(k - 1), Slope(k - 1))
  }

  function Offset(k: nat): int {
    if k == 0 then 506952111 else NextOffset(Pow2(k - 1), Slope(k - 1), Offset(k - 1))
  }

  lemma DoubleAffine(p: nat, m: int, o: int, x: int)
    ensures Affine(p, m, o, Affine(p, m, o, x)) == Affine(2 * p, NextSlope(p, m), NextOffset(p, m, o), x)
  {
    var e := p * m;
    var a := 1 + 4 * e; var u := 2 * o + 1; var c := p * u;
    calc {
      a * (a * x + c) + c;
      (a * a) * x + (a + 1) * c;
      { assert a * a == 1 + 8 * e + 16 * (e * e); }
      (1 + 8 * e + 16 * (e * e)) * x + (2 + 4 * e) * (p * u);
      { assert (2 + 4 * e) * (p * u) == (2 * p) * (u + 2 * (e * u)); }
      (1 + 8 * e + 16 * (e * e)) * x + (2 * p) * (2 * (o + e * u) + 1);
      { assert 8 * e + 16 * (e * e) == 4 * (2 * p) * (m + 2 * p * m * m); }
      (1 + 4 * (2 * p) * (m + 2 * p * m * m)) * x + (2 * p) * (2 * (o + e * u) + 1);
    }
  }

  /** `p` steps are this affine map. */
  ghost predicate StepsAre(p: nat, m: int, o: int) {
    forall x :: Iterate(x, p) == Affine(p, m, o, x)
  }

  lemma OneStep()
    ensures StepsAre(1, 416131, 506952111)
  {
    forall x ensures Iterate(x, 1) == Affine(1, 416131, 506952111, x) {
      assert Iterate(x, 1) == MULTIPLIER * Iterate(x, 0) + INCREMENT;
    }
  }

  lemma Twice(p: nat, m: int, o: int)
    requires StepsAre(p, m, o)
    ensures StepsAre(2 * p, NextSlope(p, m), NextOffset(p, m, o))
  {
    forall x ensures Iterate(x, 2 * p) == Affine(2 * p, NextSlope(p, m), NextOffset(p, m, o), x) {
      IterateAdds(x, p, p);
      DoubleAffine(p, m, o, x);
    }
  }

  lemma {:induction false} TwoPowerSteps(k: nat)
    ensures StepsAre(Pow2(k), Slope(k), Offset(k))
  {
    if k == 0 {
      OneStep();
    } else {
      TwoPowerSteps(k - 1);
      Twice(Pow2(k - 1), Slope(k - 1), Offset(k - 1));
    }
  }

  lemma AffineFlips(p: nat, m: int, o: int, x: int)
    ensures Affine(p, m, o, x) == x + p + (2 * (m * x) + o) * (2 * p)
  {
    var y := m * x;
    assert (1 + 4 * p * m) * x == x + 4 * (p * y) by { assert (4 * p * m) * x == 4 * (p * y); }
    assert (2 * y + o) * (2 * p) == 4 * (p * y) + 2 * (p * o);
    assert p * (2 * o + 1) == 2 * (p * o) + p;
  }

  /** 2^k steps flip bit k and leave the bits below it. */
  lemma FlipsBit(x: int, k: nat)
    ensures Congruent(Iterate(x, Pow2(k)), x + Pow2(k), Pow2(k + 1))
    ensures Congruent(Iterate(x, Pow2(k)), x, Pow2(k))
  {
    TwoPowerSteps(k);
    AffineFlips(Pow2(k), Slope(k), Offset(k), x);
    ByMultipleAndHalf(Iterate(x, Pow2(k)), x, Pow2(k), 2 * (Slope(k) * x) + Offset(k));
  }

  lemma ByMultipleAndHalf(a: int, b: int, p: nat, q: int)
    requires p > 0 && a == b + p + q * (2 * p)
    ensures Congruent(a, b + p, 2 * p) && Congruent(a, b, p)
  {
    ByMultiple(a, b + p, 2 * p, q);
    assert q * (2 * p) + p == (1 + 2 * q) * p;
    ByMultiple(a, b, p, 1 + 2 * q);
  }

  // ---- the full period

  /** Two numbers that agree modulo 2^k agree modulo 2^(k+1), or differ there by 2^k. */
  lemma Halves(a: int, b: int, p: nat)
    requires p > 0 && Congruent(a, b, p)
    ensures Congruent(a, b, 2 * p) <==> !Congruent(a + p, b, 2 * p)
  {
    var q := (a - b) / p;
    assert a - b == q * p;
    var h := q / 2;
    if q % 2 == 0 {
      assert a == b + h * (2 * p) by { assert q * p == h * (2 * p); }
      ByMultiple(a, b, 2 * p, h);
      DivisionUnique(a + p - b, 2 * p, h, p);
    } else {
      assert a - b == h * (2 * p) + p by { assert q * p == (2 * h + 1) * p; }
      ByMultiple(a + p, b, 2 * p, h + 1);
      DivisionUnique(a - b, 2 * p, h, p);
    }
  }

  /** The draw among the first 2^k whose low k bits are those of `y`. */
  function Find(x: int, y: int, k: nat): (n: nat)
    ensures n < Pow2(k)
  {
    if k == 0 then 0
    else
      var n := Find(x, y, k - 1);
      if Congruent(Iterate(x, n), y, Pow2(k)) then n else n + Pow2(k - 1)
  }

  lemma {:induction false} FindHits(x: int, y: int, k: nat)
    ensures Congruent(Iterate(x, Find(x, y, k)), y, Pow2(k))
  {
    if k > 0 {
      var n := Find(x, y, k - 1);
      var p := Pow2(k - 1);
      FindHits(x, y, k - 1);
      var z := Iterate(x, n);
      if !Congruent(z, y, 2 * p) {
        Halves(z, y, p);
        IterateAdds(x, n, p);
        FlipsBit(z, k - 1);
        CongruentLike(y, Iterate(z, p), z + p, 2 * p);
      }
    }
  }

  /** Two of the first 2^k draws never agree on their low k bits. */
  lemma {:induction false} FindOnly(x: int, n: nat, k: nat)
    requires n < Pow2(k)
    ensures Find(x, Iterate(x, n), k) == n
  {
    if k > 0 {
      var p := Pow2(k - 1);
      var r := if n < p then n else n - p;
      var (y, z) := (Iterate(x, n), Iterate(x, r));
      if n >= p {
        IterateAdds(x, r, p);
        FlipsBit(z, k - 1);
      }
      assert Congruent(y, z, p);
      FindOnly(x, r, k - 1);
      FindDepends(x, y, z, k - 1);
      CongruentIff(y, z, p);
      CongruentIff(z, y, p);
      Halves(z, y, p);
      if n >= p {
        CongruentIff(y, z + p, 2 * p);
        CongruentIff(z + p, y, 2 * p);
      }
    }
  }

  /** `Find` looks at the low k bits only. */
  lemma {:induction false} FindDepends(x: int, y: int, z: int, k: nat)
    requires Congruent(y, z, Pow2(k))
    ensures Find(x, y, k) == Find(x, z, k)
  {
    if k > 0 {
      var p := Pow2(k - 1);
      CongruentHalf(y, z, p);
      FindDepends(x, y, z, k - 1);
      CongruentLike(Iterate(x, Find(x, y, k - 1)), y, z, 2 * p);
    }
  }

  /** Full period, for every k and every start: among the first 2^k draws each residue modulo
      2^k comes up exactly once, and then the sequence repeats. */
  lemma FullPeriod(x: int, y: int, k: nat)
    ensures exists n: nat :: n < Pow2(k) && Congruent(Iterate(x, n), y, Pow2(k))
    ensures forall m: nat, n: nat ::
      m < Pow2(k) && n < Pow2(k) && Congruent(Iterate(x, m), Iterate(x, n), Pow2(k)) ==> m == n
    ensures Congruent(Iterate(x, Pow2(k)), x, Pow2(k))
  {
    FindHits(x, y, k);
    forall m: nat, n: nat | m < Pow2(k) && n < Pow2(k) && Congruent(Iterate(x, m), Iterate(x, n), Pow2(k))
      ensures m == n
    {
      FindOnly(x, m, k);
      FindOnly(x, n, k);
      FindDepends(x, Iterate(x, m), Iterate(x, n), k);
    }
    FlipsBit(x, k);
  }

  // ---- the generator as it runs, on 32 bits

  lemma {:induction false} NthIsIterate(s: nat, n: nat)
    requires s < WORD
    ensures Nth(s, n) < WORD && Nth(s, n) == Iterate(s, n) % WORD
  {
    if n > 0 {
      NthIsIterate(s, n - 1);
      var (a, b) := (Nth(s, n - 1), Iterate(s, n - 1));
      CongruentIff(a, b, WORD);
      LinearStep(a, b, WORD);
      CongruentIff(MULTIPLIER * a + INCREMENT, MULTIPLIER * b + INCREMENT, WORD);
    }
  }

  /** 2^32 consecutive draws are the 2^32 numbers of 32 bits, each once. */
  lemma DrawsAreDistinct(s: nat, m: nat, n: nat)
    requires s < WORD && m < n < m + WORD
    ensures Nth(s, m) != Nth(s, n)
  {
    NthIsIterate(s, m);
    NthIsIterate(s, n);
    var x := Iterate(s, m);
    IterateAdds(s, m, n - m);
    WordIsPow2();
    FindOnly(x, 0, 32);
    FindOnly(x, n - m, 32);
    if Nth(s, m) == Nth(s, n) {
      CongruentIff(Iterate(x, n - m), x, WORD);
      FindDepends(x, Iterate(x, n - m), x, 32);
    }
  }

  lemma Mod4(x: int, y: int, t: int)
    requires x == y + 4 * t
    ensures x % 4 == y % 4
  {
    DivisionUnique(x, 4, y / 4 + t, y % 4);
  }

  lemma StepLow(a: nat)
    ensures Step(a) % 4 == (a + 3) % 4
  {
    var b := MULTIPLIER * a + INCREMENT;
    var q := b / WORD;
    assert b == WORD * q + Step(a);
    Mod4(Step(a), a + 3, 416131 * a + 253476055 - 0x4000_0000 * q);
  }

  /** The last two bits of the state only count draws. */
  lemma {:induction false} LowBits(s: nat, n: nat)
    ensures Nth(s, n) % 4 == (s + 3 * n) % 4
  {
    if n > 0 {
      var a := Nth(s, n - 1);
      var b := s + 3 * (n - 1);
      LowBits(s, n - 1);
      StepLow(a);
      Mod4(a + 3, b + 3, a / 4 - b / 4);
    }
  }

  // ---- the case generator

  /** What one case draws, in the order of the draws; the physics that use it are elsewhere. */
  datatype Case = Case(entropy: nat, before: (int, int), lead: nat, after: (int, int), ahead: nat, limit: nat)

  const LIMITS: seq<nat> := [1, 2, 32, 128]

  /** What a case makes of its eight draws. */
  function MakeCase(d1: nat, d2: nat, d3: nat, d4: nat, d5: nat, d6: nat, d7: nat, d8: nat): Case {
    Case(d1, (d2 % 3 - 1, d3 % 3 - 1), d4 % 60_000_000, (d5 % 3 - 1, d6 % 3 - 1), d7 % 600_000_000, LIMITS[d8 % 4])
  }

  /** Case `i` of a run that starts from `s`. */
  function CaseAt(s: nat, i: nat): Case {
    var n := 8 * i;
    MakeCase(Nth(s, n + 1), Nth(s, n + 2), Nth(s, n + 3), Nth(s, n + 4),
             Nth(s, n + 5), Nth(s, n + 6), Nth(s, n + 7), Nth(s, n + 8))
  }

  /** The field is the draw's residue: in the range, and congruent to it. */
  predicate Residue(x: int, draw: nat, m: nat)
    requires m > 0
  {
    0 <= x < m && (draw - x) % m == 0
  }

  /** The case is what the draws after the first `n` say: an entropy, two directions of -1, 0 or 1 and a
      time below a minute, again two directions and a time below ten minutes, and a step limit. */
  ghost predicate Draws(c: Case, s: nat, n: nat) {
    && c.entropy == Nth(s, n + 1)
    && Residue(c.before.0 + 1, Nth(s, n + 2), 3) && Residue(c.before.1 + 1, Nth(s, n + 3), 3)
    && Residue(c.lead, Nth(s, n + 4), 60_000_000)
    && Residue(c.after.0 + 1, Nth(s, n + 5), 3) && Residue(c.after.1 + 1, Nth(s, n + 6), 3)
    && Residue(c.ahead, Nth(s, n + 7), 600_000_000)
    && c.limit == match Nth(s, n + 8) % 4 case 0 => 1 case 1 => 2 case 2 => 32 case _ => 128
  }

  lemma RemainderIsResidue(d: nat, m: nat)
    requires m > 0
    ensures Residue(d % m, d, m)
  {
    assert d - d % m == m * (d / m);
    DivisionUnique(d - d % m, m, d / m, 0);
  }

  /** The residue a draw has is the only one. */
  lemma ResidueUnique(x: int, y: int, draw: nat, m: nat)
    requires m > 0 && Residue(x, draw, m) && Residue(y, draw, m)
    ensures x == y
  {
    DivisionUnique(draw, m, (draw - x) / m, x);
    DivisionUnique(draw, m, (draw - y) / m, y);
  }

  lemma CaseDraws(s: nat, i: nat)
    ensures Draws(CaseAt(s, i), s, 8 * i)
  {
    var n := 8 * i;
    RemainderIsResidue(Nth(s, n + 2), 3);
    RemainderIsResidue(Nth(s, n + 3), 3);
    RemainderIsResidue(Nth(s, n + 4), 60_000_000);
    RemainderIsResidue(Nth(s, n + 5), 3);
    RemainderIsResidue(Nth(s, n + 6), 3);
    RemainderIsResidue(Nth(s, n + 7), 600_000_000);
  }

  class Generator {
    var seed: nat

    constructor (s: nat)
      ensures seed == s
    {
      seed := s;
    }

    /** Draw `n + 1` of a run that starts from `s`. */
    method Random(ghost s: nat, ghost n: nat) returns (r: nat)
      requires seed == Nth(s, n) < WORD
      modifies this
      ensures r == seed == Nth(s, n + 1) < WORD
    {
      ImulIsLinear(seed);
      seed := ToUint32(Imul(seed, MULTIPLIER) + INCREMENT);
      r := seed;
    }

    method DrawCase(ghost s: nat, ghost i: nat) returns (c: Case)
      requires seed == Nth(s, 8 * i) < WORD
      modifies this
      ensures c == CaseAt(s, i) && seed == Nth(s, 8 * i + 8) < WORD
    {
      ghost var n := 8 * i;
      var entropy := Random(s, n);
      var b0 := Random(s, n + 1);
      var b1 := Random(s, n + 2);
      var lead := Random(s, n + 3);
      var a0 := Random(s, n + 4);
      var a1 := Random(s, n + 5);
      var ahead := Random(s, n + 6);
      var pick := Random(s, n + 7);
      c := MakeCase(entropy, b0, b1, lead, a0, a1, ahead, pick);
    }

    method Cases(count: nat) returns (cases: seq<Case>)
      requires seed < WORD
      modifies this
      ensures |cases| == count && seed == Nth(old(seed), 8 * count)
      ensures forall i :: 0 <= i < count ==> cases[i] == CaseAt(old(seed), i) && Draws(cases[i], old(seed), 8 * i)
    {
      cases := [];
      ghost var s := seed;
      for i := 0 to count
        invariant |cases| == i && seed == Nth(s, 8 * i) < WORD
        invariant forall k :: 0 <= k < i ==> cases[k] == CaseAt(s, k) && Draws(cases[k], s, 8 * k)
      {
        var c := DrawCase(s, i);
        CaseDraws(s, i);
        cases := cases + [c];
      }
    }
  }

  const SEED := 0xc0ffee

  /** Eight draws a case keep the last two bits of the eighth constant: of the four step limits
      only 32 is ever exercised. */
  lemma OnlyLimit32(i: nat)
    ensures CaseAt(SEED, i).limit == 32
  {
    LowBits(SEED, 8 * i + 8);
    Mod4(SEED + 3 * (8 * i + 8), 2, 6 * i + SEED / 4 + 6);
  }

  /** Cases repeat no entropy before 2^29 of them have been drawn. */
  lemma EntropyIsFresh(i: nat, j: nat)
    requires i < j < i + WORD / 8
    ensures CaseAt(SEED, i).entropy != CaseAt(SEED, j).entropy
  {
    DrawsAreDistinct(SEED, 8 * i + 1, 8 * j + 1);
  }
}
