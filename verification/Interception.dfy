/** Where the live qualification sends a paddle: the height at which the ball will cross the
    paddle's plane, after any number of bounces off the top and bottom walls. */
module Interception {
  import opened Arithmetic

  const LOW := 6000000
  const HIGH := 570000000
  const SPAN := 564000000
  const PERIOD := 1128000000
  const MILLION := 1000000

  // ---- BigInt arithmetic

  /** ECMA-262, section 6.1.6.2.5: division rounds towards zero. */
  function TruncDiv(a: int, b: int): int
    requires b != 0
  {
    if a >= 0 then a / b else -(-a / b)
  }

  /** ECMA-262, section 6.1.6.2.6: the remainder has the sign of the dividend. */
  function TruncMod(a: int, b: int): int
    requires b != 0
  {
    a - b * TruncDiv(a, b)
  }

  /** The closed form: normalise twice, then reflect. */
  function Fold(offset: int): int {
    var y := TruncMod(TruncMod(offset, PERIOD) + PERIOD, PERIOD);
    LOW + if y > SPAN then PERIOD - y else y
  }

  /** Time to the plane, in millionths, and zero for a ball without horizontal speed. */
  function Arrival(plane: int, x: int, vx: int): int {
    if vx == 0 then 0 else TruncDiv((plane - x) * MILLION, vx)
  }

  function Target(plane: int, x: int, y: int, vx: int, vy: int): int {
    var dt := Arrival(plane, x, vx);
    Fold(y + (if dt > 0 then TruncDiv(vy * dt, MILLION) else 0) - LOW)
  }

  // ---- the ball itself, on the reals

  function Abs(x: real): real { if x < 0.0 then -x else x }

  /** How many whole crossings fit into a displacement. */
  function Crossings(d: real): int { (Abs(d) / SPAN as real).Floor }

  predicate AtWallInward(y: real, d: real) {
    (y == HIGH as real && d <= 0.0) || (y == LOW as real && d >= 0.0)
  }

  /** Moves from `y` by `d`, turning round at either wall with what is left of the way. */
  function Bounce(y: real, d: real): (r: real)
    requires LOW as real <= y <= HIGH as real
    ensures LOW as real <= r <= HIGH as real
    decreases Crossings(d), !AtWallInward(y, d)
  {
    if d >= 0.0 then
      var room := HIGH as real - y;
      if d <= room then y + d
      else
        CrossingsFall(d, room, y == LOW as real);
        Bounce(HIGH as real, room - d)
    else
      var room := y - LOW as real;
      if -d <= room then y + d
      else
        CrossingsFall(-d, room, y == HIGH as real);
        Bounce(LOW as real, -d - room)
  }

  /** A leg leaves no more crossings than before, and one less when it is a whole crossing. */
  lemma CrossingsFall(d: real, room: real, whole: bool)
    requires 0.0 <= room < d && (whole ==> room == SPAN as real)
    ensures 0 <= Crossings(d - room) <= Crossings(d) && Crossings(room - d) == Crossings(d - room)
    ensures whole ==> Crossings(d - room) < Crossings(d)
  {
    assert (d - room) / SPAN as real <= d / SPAN as real;
    if whole { assert (d - room) / SPAN as real == d / SPAN as real - 1.0; }
  }

  /** The triangle wave. */
  function Wave(u: real): real {
    var m := u - PERIOD as real * (u / PERIOD as real).Floor as real;
    LOW as real + if m > SPAN as real then PERIOD as real - m else m
  }

  /** `Wave` from any whole number of periods. */
  lemma WaveAt(u: real, q: int)
    requires 0.0 <= u - PERIOD as real * q as real < PERIOD as real
    ensures Wave(u) == LOW as real + Reflect(u - PERIOD as real * q as real)
  {
    assert (u / PERIOD as real).Floor == q;
  }

  function Reflect(m: real): real { if m > SPAN as real then PERIOD as real - m else m }

  function Periods(u: real): (q: int)
    ensures 0.0 <= u - PERIOD as real * q as real < PERIOD as real
  {
    (u / PERIOD as real).Floor
  }

  lemma WaveEven(u: real)
    ensures Wave(-u) == Wave(u)
  {
    var q := Periods(u);
    WaveAt(u, q);
    WaveAt(-u, if u == PERIOD as real * q as real then -q else -q - 1);
  }

  lemma WavePeriodic(u: real)
    ensures Wave(u + PERIOD as real) == Wave(u)
  {
    var q := Periods(u);
    WaveAt(u, q);
    WaveAt(u + PERIOD as real, q + 1);
  }

  /** Over less than one crossing the wave is two straight pieces at most. */
  lemma WaveSlow(a: real, e: real)
    requires 0.0 <= e
    ensures Abs(Wave(a) - Wave(a + e)) <= e
  {
    var p := Periods(a);
    var m := a - PERIOD as real * p as real;
    WaveAt(a, p);
    if e >= SPAN as real {
      WaveAt(a + e, Periods(a + e));
    } else if m + e < PERIOD as real {
      WaveAt(a + e, p);
    } else {
      WaveAt(a + e, p + 1);
    }
  }

  lemma WaveLipschitz(a: real, b: real)
    ensures Abs(Wave(a) - Wave(b)) <= Abs(a - b)
  {
    if a <= b { WaveSlow(a, b - a); } else { WaveSlow(b, a - b); }
  }

  /** The closed form on the reals is the bouncing ball. */
  lemma {:induction false} WaveIsBounce(y: real, d: real)
    requires LOW as real <= y <= HIGH as real
    ensures Bounce(y, d) == Wave(y + d - LOW as real)
    decreases Crossings(d), !AtWallInward(y, d)
  {
    var u := y + d - LOW as real;
    if d >= 0.0 {
      var room := HIGH as real - y;
      if d <= room {
        WaveAt(u, 0);
      } else {
        CrossingsFall(d, room, y == LOW as real);
        WaveIsBounce(HIGH as real, room - d);
        WaveEven(u);
        WavePeriodic(-u);
      }
    } else {
      var room := y - LOW as real;
      if -d <= room {
        WaveAt(u, 0);
      } else {
        CrossingsFall(-d, room, y == HIGH as real);
        WaveIsBounce(LOW as real, -d - room);
        WaveEven(u);
      }
    }
  }

  lemma TruncModIsMod(a: int, b: int)
    requires b > 0
    ensures TruncMod(TruncMod(a, b) + b, b) == a % b
  {
    var q := TruncDiv(a, b);
    var r := TruncMod(a, b);
    if a >= 0 {
      assert r == a % b;
      DivisionUnique(r + b, b, 1, r);
    } else {
      assert -r == -a % b;
      if r == 0 {
        DivisionUnique(b, b, 1, 0);
        assert a == b * q;
        DivisionUnique(a, b, q, 0);
      } else {
        DivisionUnique(r + b, b, 0, r + b);
        assert a == b * (q - 1) + (r + b) by { assert b * (q - 1) == b * q - b; }
        DivisionUnique(a, b, q - 1, r + b);
      }
    }
  }

  /** The source's double normalisation is the triangle wave at every integer. */
  lemma FoldIsWave(offset: int)
    ensures Fold(offset) as real == Wave(offset as real)
  {
    TruncModIsMod(offset, PERIOD);
    var q := offset / PERIOD;
    assert offset == PERIOD * q + offset % PERIOD;
    WaveAt(offset as real, q);
  }

  /** Folding equals bouncing, for every start between the walls and every displacement. */
  lemma FoldIsBounce(y: int, d: int)
    requires LOW <= y <= HIGH
    ensures Fold(y + d - LOW) as real == Bounce(y as real, d as real)
  {
    WaveIsBounce(y as real, d as real);
    FoldIsWave(y + d - LOW);
  }

  // ---- how far the target is from the ball

  lemma DivideSum(b: real, q: real, r: real)
    requires b != 0.0 && Abs(r) < Abs(b)
    ensures (b * q + r) / b == q + r / b && Abs(r / b) < 1.0
  {
    var f := r / b;
    assert f * b == r;
    assert (q + f) * b == b * q + r;
    assert Abs(f) * Abs(b) == Abs(r);
    if Abs(f) >= 1.0 {
      Product(Abs(f) - 1.0, Abs(b));
      assert false;
    }
  }

  lemma RealProduct(a: int, b: int)
    ensures (a * b) as real == a as real * b as real
  {
  }

  lemma TruncRemainder(a: int, b: int)
    requires b != 0
    ensures var r := a - b * TruncDiv(a, b); -(if b < 0 then -b else b) < r < if b < 0 then -b else b
  {
    var c := if a >= 0 then a else -a;
    assert c == b * (c / b) + c % b;
    assert b * -(c / b) == -(b * (c / b));
  }

  lemma CloseQuotient(a: real, b: real, q: real)
    requires b != 0.0 && Abs(a - b * q) < Abs(b)
    ensures Abs(q - a / b) < 1.0
  {
    DivideSum(b, q, a - b * q);
  }

  /** `q` is less than one away from the exact quotient. */
  ghost predicate Near(q: int, a: int, b: int)
    requires b != 0
  {
    Abs(q as real - a as real / b as real) < 1.0
  }

  lemma TruncDivClose(a: int, b: int)
    requires b != 0
    ensures Near(TruncDiv(a, b), a, b)
  {
    var q := TruncDiv(a, b);
    TruncRemainder(a, b);
    RealProduct(b, q);
    CloseQuotient(a as real, b as real, q as real);
  }

  lemma Scale(v: real, t: real, s: real)
    requires Abs(t - s) < 1.0
    ensures Abs(v * t - v * s) <= Abs(v)
  {
    var e := t - s;
    assert v * t - v * s == v * e;
    Product(Abs(v), 1.0 - e);
    Product(Abs(v), 1.0 + e);
  }

  lemma Product(a: real, b: real)
    requires a >= 0.0 && b >= 0.0
    ensures a * b >= 0.0
  {
  }

  /** For a ball on its way to the plane, or within a time unit of it, the target misses the exact
      crossing by less than |vy| / 10^6 + 1, whatever the number of bounces. */
  lemma TargetIsClose(plane: int, x: int, y: int, vx: int, vy: int)
    requires LOW <= y <= HIGH && vx != 0 && Arrival(plane, x, vx) >= 0
    ensures var exact := vy as real * ((plane - x) as real / vx as real);
      Abs(Target(plane, x, y, vx, vy) as real - Bounce(y as real, exact)) < Abs(vy as real) / MILLION as real + 1.0
  {
    DriftIsClose(plane, x, vx, vy);
    FoldNearBounce(y, TruncDiv(vy * Arrival(plane, x, vx), MILLION), vy as real * ((plane - x) as real / vx as real));
  }

  /** Folding adds no error to that of the displacement. */
  lemma FoldNearBounce(y: int, drift: int, exact: real)
    requires LOW <= y <= HIGH
    ensures Abs(Fold(y + drift - LOW) as real - Bounce(y as real, exact)) <= Abs(drift as real - exact)
  {
    WaveIsBounce(y as real, exact);
    FoldIsWave(y + drift - LOW);
    WaveLipschitz((y + drift - LOW) as real, y as real + exact - LOW as real);
  }

  lemma Rescale(way: real, million: real, v: real, w: real)
    requires w != 0.0
    ensures v * ((way * million) / w) == million * (v * (way / w))
  {
    var f := way / w;
    assert f * w == way;
    assert (million * f) * w == way * million;
    assert (way * million) / w == million * f;
  }

  ghost predicate DriftClose(drift: int, way: int, vx: int, vy: int)
    requires vx != 0
  {
    Abs(drift as real - vy as real * (way as real / vx as real)) < Abs(vy as real) / MILLION as real + 1.0
  }

  lemma DriftIsClose(plane: int, x: int, vx: int, vy: int)
    requires vx != 0
    ensures DriftClose(TruncDiv(vy * Arrival(plane, x, vx), MILLION), plane - x, vx, vy)
  {
    var dt := Arrival(plane, x, vx);
    TruncDivClose((plane - x) * MILLION, vx);
    TruncDivClose(vy * dt, MILLION);
    RoundedTwice(TruncDiv(vy * dt, MILLION), dt, plane - x, vx, vy);
  }

  lemma RoundedTwice(drift: int, dt: int, way: int, vx: int, vy: int)
    requires vx != 0 && Near(dt, way * MILLION, vx) && Near(drift, vy * dt, MILLION)
    ensures DriftClose(drift, way, vx, vy)
  {
    RealProduct(way, MILLION);
    RealProduct(vy, dt);
    CombineErrors(drift as real, dt as real, way as real, vx as real, vy as real);
  }

  /** The two roundings together: of the time `dt`, then of the drift. */
  lemma CombineErrors(drift: real, dt: real, way: real, vx: real, v: real)
    requires vx != 0.0
    requires Abs(dt - (way * MILLION as real) / vx) < 1.0
    requires Abs(drift - (v * dt) / MILLION as real) < 1.0
    ensures Abs(drift - v * (way / vx)) < Abs(v) / MILLION as real + 1.0
  {
    var t := (way * MILLION as real) / vx;
    Scale(v, dt, t);
    Rescale(way, MILLION as real, v, vx);
    AddErrors(drift, v * dt, v * t, v * (way / vx), Abs(v));
  }

  lemma AddErrors(drift: real, rounded: real, scaled: real, exact: real, v: real)
    requires Abs(drift - rounded / MILLION as real) < 1.0
    requires Abs(rounded - scaled) <= v && scaled == MILLION as real * exact
    ensures Abs(drift - exact) < v / MILLION as real + 1.0
  {
  }

  /** The target is always between the walls. */
  lemma TargetInRange(plane: int, x: int, y: int, vx: int, vy: int)
    ensures LOW <= Target(plane, x, y, vx, vy) <= HIGH
  {
    var dt := Arrival(plane, x, vx);
    var offset := y + (if dt > 0 then TruncDiv(vy * dt, MILLION) else 0) - LOW;
    FoldIsWave(offset);
    WaveAt(offset as real, Periods(offset as real));
  }

  /** A ball that moves away, does not move across, or is less than a time unit away: the paddle
      waits at the ball's own height. */
  lemma AwayBallKeepsHeight(plane: int, x: int, y: int, vx: int, vy: int)
    requires LOW <= y <= HIGH && Arrival(plane, x, vx) <= 0
    ensures Target(plane, x, y, vx, vy) == y
  {
    FoldIsBounce(y, 0);
  }

  // ---- the dead band

  const BAND := 8000000

  function Direction(position: int, target: int): int {
    if position < target - BAND then 1 else if position > target + BAND then -1 else 0
  }

  /** The paddle after rounds of control. In each it moves the way it was told, as far as it gets
      before the next round. */
  function Steer(position: int, target: int, moves: seq<nat>): int {
    if moves == [] then position
    else var p := Steer(position, target, moves[..|moves| - 1]); p + Direction(p, target) * moves[|moves| - 1]
  }

  function Sum(moves: seq<nat>): nat {
    if moves == [] then 0 else Sum(moves[..|moves| - 1]) + moves[|moves| - 1]
  }

  function Distance(a: int, b: int): nat { if a < b then b - a else a - b }

  /** If it never gets farther than twice the dead band in one round, the paddle does not overshoot
      the band: the distance falls by all that it moves until it is inside, and there it stays. */
  lemma {:induction false} SteersHome(position: int, target: int, moves: seq<nat>)
    requires forall i :: 0 <= i < |moves| ==> moves[i] <= 2 * BAND
    ensures var p := Steer(position, target, moves);
      if Distance(position, target) > BAND + Sum(moves)
      then Distance(p, target) == Distance(position, target) - Sum(moves)
      else Distance(p, target) <= BAND
  {
    if moves != [] {
      var rest := moves[..|moves| - 1];
      SteersHome(position, target, rest);
      var p := Steer(position, target, rest);
      assert Direction(p, target) in {-1, 0, 1};
    }
  }
}
