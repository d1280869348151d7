/** Packing bit fields into one natural number, as BigInt expressions do it. */
module Packing {
  import opened Arithmetic

  /** ECMA-262, section 6.1.6.2.19, for operands that are not negative. */
  function BitOr(a: nat, b: nat): nat {
    if a == 0 then b
    else if b == 0 then a
    else 2 * BitOr(a / 2, b / 2) + if a % 2 == 1 || b % 2 == 1 then 1 else 0
  }

  /** `w | v << at`, one bit at a time: below `at` only `w` has bits. */
  function OrShifted(w: nat, v: nat, at: nat): nat
    decreases w, at, v
  {
    if at == 0 then BitOr(w, v) else w % 2 + 2 * OrShifted(w / 2, v, at - 1)
  }

  /** The decoder's `bits`: drop the lowest `at` bits, then keep `size` of them. */
  function Bits(n: nat, at: nat, size: nat): nat
    decreases n, at, size
  {
    if n == 0 || size == 0 then 0
    else if at > 0 then Bits(n / 2, at - 1, size)
    else n % 2 + 2 * Bits(n / 2, 0, size - 1)
  }

  function Abs(v: int): nat { if v < 0 then -v else v }

  /** The low `size` bits of an integer in two's complement. */
  function AsUintN(size: nat, v: int): nat
    decreases Abs(v), size
  {
    if size == 0 then 0 else v % 2 + 2 * AsUintN(size - 1, v / 2)
  }

  /** How many bits a number takes. */
  function Width(n: nat): nat {
    if n == 0 then 0 else 1 + Width(n / 2)
  }

  /** The signed reading of a number of at most `size` bits. */
  function AsIntN(size: nat, u: nat): int
    requires size > 0
  {
    if u >= Pow2(size - 1) then u - Pow2(size) else u
  }

  lemma {:induction false} WidthIff(n: nat, k: nat)
    ensures Width(n) <= k <==> n < Pow2(k)
  {
    if n > 0 && k > 0 { WidthIff(n / 2, k - 1); }
  }

  /** That is the disjunction with the shifted value. */
  lemma {:induction false} OrShiftedIsOr(w: nat, v: nat, at: nat)
    ensures OrShifted(w, v, at) == BitOr(w, v * Pow2(at))
    decreases at
  {
    if at > 0 {
      OrShiftedIsOr(w / 2, v, at - 1);
      OrDoubled(w, v, Pow2(at - 1));
    }
  }

  lemma OrDoubled(w: nat, v: nat, p: nat)
    ensures BitOr(w, v * (2 * p)) == w % 2 + 2 * BitOr(w / 2, v * p)
  {
    assert v * (2 * p) == 2 * (v * p);
    OrEven(w, v * p);
  }

  lemma OrEven(w: nat, u: nat)
    ensures BitOr(w, 2 * u) == w % 2 + 2 * BitOr(w / 2, u)
  {
    if w > 0 && u > 0 { assert 2 * u / 2 == u && 2 * u % 2 == 0; }
  }

  lemma {:induction false} WidthAfter(w: nat, v: nat, at: nat)
    requires Width(w) <= at
    ensures Width(OrShifted(w, v, at)) <= at + Width(v)
    decreases at
  {
    if at > 0 { WidthAfter(w / 2, v, at - 1); }
  }

  lemma {:induction false} BitsAbove(w: nat, v: nat, at: nat, size: nat)
    requires Width(w) <= at
    ensures Bits(OrShifted(w, v, at), at, size) == Bits(v, 0, size)
    decreases at
  {
    if at > 0 { BitsAbove(w / 2, v, at - 1, size); }
  }

  lemma {:induction false} BitsBelow(w: nat, v: nat, at: nat, a: nat, size: nat)
    requires a + size <= at
    ensures Bits(OrShifted(w, v, at), a, size) == Bits(w, a, size)
    decreases at
  {
    if size > 0 {
      if a > 0 { BitsBelow(w / 2, v, at - 1, a - 1, size); } else { BitsBelow(w / 2, v, at - 1, 0, size - 1); }
    }
  }

  lemma {:induction false} BitsBeyond(n: nat, at: nat, size: nat)
    requires Width(n) <= at
    ensures Bits(n, at, size) == 0
  {
    if n > 0 { BitsBeyond(n / 2, at - 1, size); }
  }

  lemma {:induction false} BitsOfSmall(v: nat, size: nat)
    requires Width(v) <= size
    ensures Bits(v, 0, size) == v
  {
    if v > 0 { BitsOfSmall(v / 2, size - 1); }
  }

  /** An expression `v0 | v1 << a1 | v2 << a2 ...`, and its value. */
  datatype Expr = Num(low: nat) | OrShl(rest: Expr, v: nat, at: nat)

  function Value(e: Expr): nat {
    match e
    case Num(low) => low
    case OrShl(rest, v, at) => OrShifted(Value(rest), v, at)
  }

  /** A field put above all the others reads back as it was, disturbs none of them, and leaves
      zeros above itself. */
  lemma Put(e: Expr, at: nat, size: nat, v: nat)
    requires Width(Value(e)) <= at && Width(v) <= size
    ensures var r := Value(OrShl(e, v, at));
      && Width(r) <= at + size
      && Bits(r, at, size) == v
      && (forall a: nat, s: nat {:trigger Bits(r, a, s)} :: a + s <= at ==> Bits(r, a, s) == Bits(Value(e), a, s))
      && (forall a: nat, s: nat {:trigger Bits(r, a, s)} :: a >= at + size ==> Bits(r, a, s) == 0)
  {
    var w := Value(e);
    WidthAfter(w, v, at);
    BitsAbove(w, v, at, size);
    BitsOfSmall(v, size);
    var r := OrShifted(w, v, at);
    forall a: nat, s: nat | a + s <= at ensures Bits(r, a, s) == Bits(w, a, s) { BitsBelow(w, v, at, a, s); }
    forall a: nat, s: nat | a >= at + size ensures Bits(r, a, s) == 0 { BitsBeyond(r, a, s); }
  }

  /** The lowest field. */
  lemma Lowest(v: nat, size: nat)
    requires Width(v) <= size
    ensures Bits(v, 0, size) == v
    ensures forall a: nat, s: nat {:trigger Bits(v, a, s)} :: a >= size ==> Bits(v, a, s) == 0
  {
    BitsOfSmall(v, size);
    forall a: nat, s: nat | a >= size ensures Bits(v, a, s) == 0 { BitsBeyond(v, a, s); }
  }

  lemma {:induction false} OrWidth(a: nat, b: nat, k: nat)
    requires Width(a) <= k && Width(b) <= k
    ensures Width(BitOr(a, b)) <= k
  {
    if a > 0 && b > 0 { OrWidth(a / 2, b / 2, k - 1); }
  }

  /** That is the remainder modulo 2^size of section 21.2.2.2. */
  lemma {:induction false} UintIsModulo(size: nat, v: int)
    ensures AsUintN(size, v) == v % Pow2(size)
    decreases size
  {
    if size > 0 {
      var (p, h) := (Pow2(size - 1), v / 2);
      UintIsModulo(size - 1, h);
      HalfModulo(v, p);
    }
  }

  lemma HalfModulo(v: int, p: nat)
    requires p > 0
    ensures v % (2 * p) == v % 2 + 2 * (v / 2 % p)
  {
    var h := v / 2;
    assert v == (2 * p) * (h / p) + (v % 2 + 2 * (h % p)) by { assert h == p * (h / p) + h % p; }
    DivisionUnique(v, 2 * p, h / p, v % 2 + 2 * (h % p));
  }

  predicate Signed(size: nat, v: int)
    requires size > 0
  {
    -(Pow2(size - 1) as int) <= v < Pow2(size - 1)
  }

  /** Two's complement there and back. */
  lemma SignedRoundTrip(size: nat, v: int)
    requires size > 0 && Signed(size, v)
    ensures AsIntN(size, AsUintN(size, v)) == v && Width(AsUintN(size, v)) <= size
  {
    var p := Pow2(size);
    Wrapped(v, p);
    UintIsModulo(size, v);
    WidthIff(v % p, size);
  }
}
