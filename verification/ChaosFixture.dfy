/** The fixture's payload: what it packs for a court and up to two effects, and what the
    client's decoder makes of it. */
module ChaosFixture {
  import opened Options
  import opened Arithmetic
  import opened Packing

  /** The match header's state, in whole arena units. */
  datatype Court = Court(x: int, y: int, vx: int, vy: int, left: int, right: int, t: nat,
                         scoreA: nat, scoreB: nat, finished: bool, leftDir: int, rightDir: int)

  datatype Ball = Ball(x: int, y: int, vx: int, vy: int, powerN: nat, powerD: nat, curveSteps: nat, curveSign: int,
                       lastHitter: nat, fade: nat, portalLock: bool, warp: bool, gravity: bool, alive: bool,
                       gravityUsed: nat, trailRevision: nat)

  datatype Effect = Effect(id: nat, target: nat, remaining: nat, serial: nat, startsAt: nat, expiresAt: nat, variant: nat)

  datatype Score = Score(a: nat, b: nat, rally: nat, finished: bool, winner: nat)

  datatype Clock = Clock(left: nat, right: nat, t: nat, nextForce: nat)

  datatype Meta = Meta(score: Score, lastLeft: int, lastRight: int, activeMask: nat, collisionSequence: nat,
                       bettingA: nat, bettingB: nat, cancelled: bool, cancelReason: nat, stalled: nat)

  const UNIT := 1000000
  const FULL := 96000000
  const EVENTS := 24

  /** Durations of the 24 events of the catalogue, in milliseconds. */
  const DURATIONS: seq<nat> :=
    [6000, 5000, 12000, 8000, 8000, 8000, 6000, 5000, 8000, 7000, 6000, 6000,
     10000, 10000, 8000, 8000, 8000, 10000, 12000, 8000, 12000, 12000, 8000, 12000]

  // ---- packing

  function PlaceWord(x: nat, y: nat, powerN: nat, powerD: nat, lastHitter: nat, alive: nat): Expr {
    OrShl(OrShl(OrShl(OrShl(OrShl(Num(x), y, 56), powerN, 112), powerD, 128), lastHitter, 168), alive, 195)
  }

  function SpeedWord(vx: nat, vy: nat): Expr { OrShl(Num(vx), vy, 80) }

  function BallWords(x: int, y: int, vx: int, vy: int): (nat, nat) {
    (Value(PlaceWord(AsUintN(56, x), AsUintN(56, y), 1, 1, 2, 1)), Value(SpeedWord(AsUintN(80, vx), AsUintN(80, vy))))
  }

  function Target(n: nat): nat { if n >= 12 then 2 else 0 }

  function Charges(n: nat): nat { if n == 19 then 7 else if n in {3, 4, 5} then 1 else 0 }

  function EffectWord(n: nat): nat
    requires n <= EVENTS
  {
    if n == 0 then 0 else Value(EffectBits(n, Target(n), Charges(n), n, 1000, 1000 + DURATIONS[n - 1]))
  }

  function EffectBits(n: nat, target: nat, charges: nat, serial: nat, starts: nat, ends: nat): Expr {
    OrShl(OrShl(OrShl(OrShl(OrShl(Num(n), target, 8), charges, 16), serial, 24), starts, 56), ends, 88)
  }

  function PaddleWord(left: nat, right: nat, t: nat): Expr {
    OrShl(OrShl(OrShl(Num(left), right, 56), t, 112), t + 10000, 176)
  }

  function Mask(id: nat, other: nat): nat {
    BitOr(if id > 0 then Pow2(id - 1) else 0, if other > 0 then Pow2(other - 1) else 0)
  }

  function MetaLow(score: (nat, nat), rally: nat, finished: nat, dirs: (nat, nat)): Expr {
    OrShl(OrShl(OrShl(OrShl(OrShl(Num(score.0), score.1, 3), rally, 6), finished, 38), dirs.0, 41), dirs.1, 43)
  }

  function MetaWord(low: Expr, mask: nat, betting: (nat, nat)): Expr {
    OrShl(OrShl(OrShl(low, mask, 45), betting.0, 101), betting.1, 133)
  }

  const MULTIBALL := 21

  function SecondBallWords(s: Court, id: nat, other: nat): (nat, nat) {
    if IsMultiball(id, other) then BallWords(s.x * UNIT, s.y * UNIT, s.vx, -s.vy) else (0, 0)
  }

  function ScoreWord(s: Court, mask: nat): nat {
    Value(MetaWord(MetaLow((s.scoreA, s.scoreB), 1, if s.finished then 1 else 0, (1, 1)), mask, (FULL, FULL)))
  }

  function ClockWord(s: Court): nat
    requires s.left >= 0 && s.right >= 0
  {
    Value(PaddleWord(s.left * UNIT, s.right * UNIT, s.t))
  }

  /** The eight words of the payload, with up to two active events. */
  function Words(s: Court, id: nat, other: nat): seq<nat>
    requires s.left >= 0 && s.right >= 0 && id <= EVENTS && other <= EVENTS
  {
    var (a, b) := (BallWords(s.x * UNIT, s.y * UNIT, s.vx, s.vy), SecondBallWords(s, id, other));
    [a.0, a.1, b.0, b.1, EffectWord(id), EffectWord(other), ClockWord(s), ScoreWord(s, Mask(id, other))]
  }

  /** Directions travel in the header: two bits each. */
  function Control(leftDir: int, rightDir: int): nat
    requires leftDir >= -1 && rightDir >= -1
  {
    Value(OrShl(Num(leftDir + 1), rightDir + 1, 2))
  }

  // ---- unpacking

  function Flag(n: nat, at: nat): bool { Bits(n, at, 1) != 0 }

  function SignedBits(n: nat, at: nat, size: nat): int
    requires size > 0
  {
    AsIntN(size, Bits(n, at, size))
  }

  function DecodeBall(w: (nat, nat)): Ball {
    var (a, b) := w;
    Ball(SignedBits(a, 0, 56), SignedBits(a, 56, 56), SignedBits(b, 0, 80), SignedBits(b, 80, 80),
         Bits(a, 112, 16), Bits(a, 128, 16), Bits(a, 144, 16), SignedBits(a, 160, 8), Bits(a, 168, 8), Bits(a, 176, 16),
         Flag(a, 192), Flag(a, 193), Flag(a, 194), Flag(a, 195), Bits(b, 160, 64), Bits(b, 224, 32))
  }

  function DecodeEffect(e: nat): Effect {
    Effect(Bits(e, 0, 8), Bits(e, 8, 8), Bits(e, 16, 8), Bits(e, 24, 32), Bits(e, 56, 32), Bits(e, 88, 32), Bits(e, 120, 32))
  }

  function DecodeScore(m: nat): Score {
    Score(Bits(m, 0, 3), Bits(m, 3, 3), Bits(m, 6, 32), Flag(m, 38), Bits(m, 39, 2))
  }

  function DecodeClock(g: nat): Clock {
    Clock(Bits(g, 0, 56), Bits(g, 56, 56), Bits(g, 112, 64), Bits(g, 176, 64))
  }

  function DecodeMeta(m: nat): Meta {
    Meta(DecodeScore(m), Bits(m, 41, 2) - 1, Bits(m, 43, 2) - 1, Bits(m, 45, 24), Bits(m, 69, 32),
         Bits(m, 101, 32), Bits(m, 133, 32), Flag(m, 165), Bits(m, 166, 8), Bits(m, 174, 8))
  }

  datatype Physics = Physics(first: Ball, second: Ball, effect: Effect, other: Effect, clock: Clock, meta: Meta,
                             leftDir: int, rightDir: int)

  /** What the client accepts of a decoded state. */
  predicate RulesOk(p: Physics) {
    && p.meta.score.rally != 0
    && 72000000 <= p.meta.bettingA <= 96000000 && 72000000 <= p.meta.bettingB <= 96000000
    && p.effect.id <= 24 && p.effect.target <= 2 && p.other.id <= 24 && p.other.target <= 2
    && p.leftDir <= 1 && p.rightDir <= 1
  }

  predicate Narrow(w: seq<nat>) { forall k :: 0 <= k < |w| ==> w[k] < Pow2(256) }

  /** `unpackChaos`: `None` where it throws. */
  function Unpack(w: seq<nat>, control: nat): Option<Physics> {
    if |w| != 8 || !Narrow(w) then None else
    var p := Physics(DecodeBall((w[0], w[1])), DecodeBall((w[2], w[3])), DecodeEffect(w[4]), DecodeEffect(w[5]),
                     DecodeClock(w[6]), DecodeMeta(w[7]), Bits(control, 0, 2) - 1, Bits(control, 2, 2) - 1);
    if RulesOk(p) then Some(p) else None
  }

  // ---- what comes back

  const NO_BALL := Ball(0, 0, 0, 0, 0, 0, 0, 0, 0, 0, false, false, false, false, 0, 0)
  const NO_EFFECT := Effect(0, 0, 0, 0, 0, 0, 0)

  function LiveBall(x: int, y: int, vx: int, vy: int): Ball {
    Ball(x, y, vx, vy, 1, 1, 0, 0, 2, 0, false, false, false, true, 0, 0)
  }

  function LiveEffect(n: nat): Effect
    requires n <= EVENTS
  {
    if n == 0 then NO_EFFECT else Effect(n, Target(n), Charges(n), n, 1000, 1000 + DURATIONS[n - 1], 0)
  }

  function SecondBall(s: Court, id: nat, other: nat): Ball {
    if IsMultiball(id, other) then LiveBall(s.x * UNIT, s.y * UNIT, s.vx, -s.vy) else NO_BALL
  }

  function LiveMeta(s: Court, mask: nat): Meta
  {
    Meta(Score(s.scoreA, s.scoreB, 1, s.finished, 0), 0, 0, mask, 0, FULL, FULL, false, 0, 0)
  }

  ghost predicate InRange(s: Court) {
    && Signed(56, s.x * UNIT) && Signed(56, s.y * UNIT)
    && Signed(80, s.vx) && Signed(80, s.vy) && Signed(80, -s.vy)
    && 0 <= s.left * UNIT < Pow2(56) && 0 <= s.right * UNIT < Pow2(56) && s.t + 10000 < Pow2(64)
    && s.scoreA < 8 && s.scoreB < 8 && -1 <= s.leftDir <= 1 && -1 <= s.rightDir <= 1
  }

  // ---- word by word

  lemma PlaceReads(x: nat, y: nat, powerN: nat, powerD: nat, lastHitter: nat, alive: nat)
    requires Width(x) <= 56 && Width(y) <= 56 && Width(powerN) <= 16 && Width(powerD) <= 16
    requires Width(lastHitter) <= 8 && Width(alive) <= 1
    ensures var a := Value(PlaceWord(x, y, powerN, powerD, lastHitter, alive));
      && Width(a) <= 256
      && Bits(a, 0, 56) == x && Bits(a, 56, 56) == y && Bits(a, 112, 16) == powerN && Bits(a, 128, 16) == powerD
      && Bits(a, 144, 16) == 0 && Bits(a, 160, 8) == 0 && Bits(a, 168, 8) == lastHitter && Bits(a, 176, 16) == 0
      && Bits(a, 192, 1) == 0 && Bits(a, 193, 1) == 0 && Bits(a, 194, 1) == 0 && Bits(a, 195, 1) == alive
  {
    Lowest(x, 56);
    Put(Num(x), 56, 56, y);
    var w1 := OrShl(Num(x), y, 56);
    Put(w1, 112, 16, powerN);
    var w2 := OrShl(w1, powerN, 112);
    Put(w2, 128, 16, powerD);
    var w3 := OrShl(w2, powerD, 128);
    Put(w3, 168, 8, lastHitter);
    var w4 := OrShl(w3, lastHitter, 168);
    Put(w4, 195, 1, alive);
  }

  lemma SpeedReads(vx: nat, vy: nat)
    requires Width(vx) <= 80 && Width(vy) <= 80
    ensures Width(Value(SpeedWord(vx, vy))) <= 256
    ensures var b := Value(SpeedWord(vx, vy));
      Bits(b, 0, 80) == vx && Bits(b, 80, 80) == vy && Bits(b, 160, 64) == 0 && Bits(b, 224, 32) == 0
  {
    Lowest(vx, 80);
    Put(Num(vx), 80, 80, vy);
  }

  lemma BallComesBack(x: int, y: int, vx: int, vy: int, w: (nat, nat))
    requires Signed(56, x) && Signed(56, y) && Signed(80, vx) && Signed(80, vy) && w == BallWords(x, y, vx, vy)
    ensures DecodeBall(w) == LiveBall(x, y, vx, vy) && Width(w.0) <= 256 && Width(w.1) <= 256
  {
    SignedRoundTrip(56, x);
    SignedRoundTrip(56, y);
    SignedRoundTrip(80, vx);
    SignedRoundTrip(80, vy);
    PlaceReads(AsUintN(56, x), AsUintN(56, y), 1, 1, 2, 1);
    SpeedReads(AsUintN(80, vx), AsUintN(80, vy));
  }

  lemma NoEffectComesBack(e: nat)
    requires e == 0
    ensures DecodeEffect(e) == NO_EFFECT && Width(e) == 0
  {
  }

  lemma NoBallComesBack(w: (nat, nat))
    requires w == (0, 0)
    ensures DecodeBall(w) == NO_BALL && Width(w.0) == Width(w.1) == 0
  {
  }

  lemma EffectReads(n: nat, target: nat, charges: nat, serial: nat, starts: nat, ends: nat)
    requires Width(n) <= 8 && Width(target) <= 8 && Width(charges) <= 8
    requires Width(serial) <= 32 && Width(starts) <= 32 && Width(ends) <= 32
    ensures var e := Value(EffectBits(n, target, charges, serial, starts, ends));
      DecodeEffect(e) == Effect(n, target, charges, serial, starts, ends, 0) && Width(e) <= 256
  {
    Lowest(n, 8);
    Put(Num(n), 8, 8, target);
    var w1 := OrShl(Num(n), target, 8);
    Put(w1, 16, 8, charges);
    var w2 := OrShl(w1, charges, 16);
    Put(w2, 24, 32, serial);
    var w3 := OrShl(w2, serial, 24);
    Put(w3, 56, 32, starts);
    var w4 := OrShl(w3, starts, 56);
    Put(w4, 88, 32, ends);
  }

  lemma Fits(n: nat, k: nat)
    requires k in {8, 32} && (k == 8 ==> n < 256) && (k == 32 ==> n < 0x1_0000_0000)
    ensures Width(n) <= k
  {
    WordIsPow2();
    WidthIff(n, k);
  }

  lemma LiveEffectComesBack(n: nat)
    requires 1 <= n <= EVENTS
    ensures var e := Value(EffectBits(n, Target(n), Charges(n), n, 1000, 1000 + DURATIONS[n - 1]));
      DecodeEffect(e) == LiveEffect(n) && Width(e) <= 256
  {
    var ends := 1000 + DURATIONS[n - 1];
    Fits(n, 8);
    Fits(Target(n), 8);
    Fits(Charges(n), 8);
    Fits(n, 32);
    Fits(1000, 32);
    Fits(ends, 32);
    EffectReads(n, Target(n), Charges(n), n, 1000, ends);
  }

  lemma EffectComesBack(n: nat, e: nat)
    requires n <= EVENTS && e == EffectWord(n)
    ensures DecodeEffect(e) == LiveEffect(n) && Width(e) <= 256
  {
    if n == 0 { NoEffectComesBack(e); } else { LiveEffectComesBack(n); }
  }

  lemma PaddlesComeBack(left: nat, right: nat, t: nat, w: nat)
    requires Width(left) <= 56 && Width(right) <= 56 && Width(t) <= 64 && Width(t + 10000) <= 64
    requires w == Value(PaddleWord(left, right, t))
    ensures DecodeClock(w) == Clock(left, right, t, t + 10000) && Width(w) <= 256
  {
    Lowest(left, 56);
    Put(Num(left), 56, 56, right);
    var w1 := OrShl(Num(left), right, 56);
    Put(w1, 112, 64, t);
    var w2 := OrShl(w1, t, 112);
    Put(w2, 176, 64, t + 10000);
  }

  lemma MetaLowReads(score: (nat, nat), rally: nat, finished: nat, dirs: (nat, nat))
    requires Width(score.0) <= 3 && Width(score.1) <= 3 && Width(rally) <= 32 && Width(finished) <= 1
    requires Width(dirs.0) <= 2 && Width(dirs.1) <= 2
    ensures var m := Value(MetaLow(score, rally, finished, dirs));
      && Width(m) <= 45
      && Bits(m, 0, 3) == score.0 && Bits(m, 3, 3) == score.1 && Bits(m, 6, 32) == rally && Bits(m, 38, 1) == finished
      && Bits(m, 39, 2) == 0 && Bits(m, 41, 2) == dirs.0 && Bits(m, 43, 2) == dirs.1
  {
    Lowest(score.0, 3);
    Put(Num(score.0), 3, 3, score.1);
    var w1 := OrShl(Num(score.0), score.1, 3);
    Put(w1, 6, 32, rally);
    var w2 := OrShl(w1, rally, 6);
    Put(w2, 38, 1, finished);
    var w3 := OrShl(w2, finished, 38);
    Put(w3, 41, 2, dirs.0);
    var w4 := OrShl(w3, dirs.0, 41);
    Put(w4, 43, 2, dirs.1);
  }

  /** The three fields above, on any lower part `w`. */
  lemma MetaHighReads(w: Expr, mask: nat, betting: (nat, nat))
    requires Width(Value(w)) <= 45 && Width(mask) <= 24 && Width(betting.0) <= 32 && Width(betting.1) <= 32
    ensures var m := Value(MetaWord(w, mask, betting));
      && Width(m) <= 256
      && (forall a: nat, s: nat {:trigger Bits(m, a, s)} :: a + s <= 45 ==> Bits(m, a, s) == Bits(Value(w), a, s))
      && Bits(m, 45, 24) == mask && Bits(m, 69, 32) == 0 && Bits(m, 101, 32) == betting.0 && Bits(m, 133, 32) == betting.1
      && Bits(m, 165, 1) == 0 && Bits(m, 166, 8) == 0 && Bits(m, 174, 8) == 0
  {
    Put(w, 45, 24, mask);
    var w6 := OrShl(w, mask, 45);
    Put(w6, 101, 32, betting.0);
    var w7 := OrShl(w6, betting.0, 101);
    Put(w7, 133, 32, betting.1);
  }

  lemma MetaComesBack(low: Expr, score: (nat, nat), rally: nat, finished: nat, dirs: (nat, nat), mask: nat,
                      betting: (nat, nat), m: nat)
    requires Width(Value(low)) <= 45 && Width(mask) <= 24 && Width(betting.0) <= 32 && Width(betting.1) <= 32
    requires var n := Value(low);
      && Bits(n, 0, 3) == score.0 && Bits(n, 3, 3) == score.1 && Bits(n, 6, 32) == rally && Bits(n, 38, 1) == finished
      && Bits(n, 39, 2) == 0 && Bits(n, 41, 2) == dirs.0 && Bits(n, 43, 2) == dirs.1
    requires m == Value(MetaWord(low, mask, betting))
    ensures DecodeMeta(m) == Meta(Score(score.0, score.1, rally, finished != 0, 0), dirs.0 - 1, dirs.1 - 1, mask, 0,
                                  betting.0, betting.1, false, 0, 0)
    ensures Width(m) <= 256
  {
    MetaHighReads(low, mask, betting);
  }

  lemma ControlComesBack(leftDir: int, rightDir: int)
    requires -1 <= leftDir <= 1 && -1 <= rightDir <= 1
    ensures Bits(Control(leftDir, rightDir), 0, 2) == leftDir + 1
    ensures Bits(Control(leftDir, rightDir), 2, 2) == rightDir + 1
  {
    Lowest(leftDir + 1, 2);
    Put(Num(leftDir + 1), 2, 2, rightDir + 1);
  }

  lemma MaskWidth(id: nat, other: nat)
    requires id <= EVENTS && other <= EVENTS
    ensures Width(Mask(id, other)) <= 24
  {
    var a := if id > 0 then Pow2(id - 1) else 0;
    var b := if other > 0 then Pow2(other - 1) else 0;
    if id > 0 { Pow2Mono(id, 24); }
    if other > 0 { Pow2Mono(other, 24); }
    WidthIff(a, 24);
    WidthIff(b, 24);
    OrWidth(a, b, 24);
  }

  // ---- the whole payload

  lemma PaddlesFit(left: nat, right: nat)
    requires left < Pow2(56) && right < Pow2(56)
    ensures Width(left) <= 56 && Width(right) <= 56
  {
    WidthIff(left, 56);
    WidthIff(right, 56);
  }

  lemma ClockFits(t: nat)
    requires t + 10000 < Pow2(64)
    ensures Width(t) <= 64 && Width(t + 10000) <= 64
  {
    WidthIff(t, 64);
    WidthIff(t + 10000, 64);
  }

  lemma ClockReads(left: nat, right: nat, t: nat, w: nat)
    requires left < Pow2(56) && right < Pow2(56) && t + 10000 < Pow2(64) && w == Value(PaddleWord(left, right, t))
    ensures DecodeClock(w) == Clock(left, right, t, t + 10000) && Width(w) <= 256
  {
    PaddlesFit(left, right);
    ClockFits(t);
    PaddlesComeBack(left, right, t, w);
  }

  lemma ScoreComesBack(s: Court, mask: nat, m: nat)
    requires s.scoreA < 8 && s.scoreB < 8 && Width(mask) <= 24 && m == ScoreWord(s, mask)
    ensures DecodeMeta(m) == LiveMeta(s, mask)
    ensures Width(m) <= 256
  {
    WidthIff(s.scoreA, 3);
    WidthIff(s.scoreB, 3);
    Fits(FULL, 32);
    var (score, finished) := ((s.scoreA, s.scoreB), if s.finished then 1 else 0);
    MetaLowReads(score, 1, finished, (1, 1));
    MetaComesBack(MetaLow(score, 1, finished, (1, 1)), score, 1, finished, (1, 1), mask, (FULL, FULL), m);
  }

  // ---- the payload of a court: every field comes back, from words below 2^256

  /** Position and speed of the first ball, signs included. */
  lemma BallRoundTrip(s: Court)
    requires InRange(s)
    ensures var w := BallWords(s.x * UNIT, s.y * UNIT, s.vx, s.vy);
      DecodeBall(w) == LiveBall(s.x * UNIT, s.y * UNIT, s.vx, s.vy) && Width(w.0) <= 256 && Width(w.1) <= 256
  {
    BallComesBack(s.x * UNIT, s.y * UNIT, s.vx, s.vy, BallWords(s.x * UNIT, s.y * UNIT, s.vx, s.vy));
  }

  predicate NarrowPair(w: (nat, nat)) { Width(w.0) <= 256 && Width(w.1) <= 256 }

  lemma ZeroIsNarrow(n: nat)
    requires n == 0
    ensures Width(n) == 0
  {
  }

  /** Words of a ball, or zeros in their place. */
  lemma EitherIsNarrow(both: bool, ball: (nat, nat), w: (nat, nat))
    requires NarrowPair(ball) && w == if both then ball else (0, 0)
    ensures NarrowPair(w)
  {
    if !both {
      ZeroIsNarrow(w.0);
      ZeroIsNarrow(w.1);
    }
  }

  lemma BallReads(x: int, y: int, vx: int, vy: int, w: (nat, nat), live: Ball)
    requires Signed(56, x) && Signed(56, y) && Signed(80, vx) && Signed(80, vy)
    requires w == BallWords(x, y, vx, vy) && live == LiveBall(x, y, vx, vy)
    ensures DecodeBall(w) == live
  {
    BallComesBack(x, y, vx, vy, w);
  }

  lemma SecondReads(x: int, y: int, vx: int, vy: int, both: bool, w: (nat, nat), live: Ball)
    requires Signed(56, x) && Signed(56, y) && Signed(80, vx) && Signed(80, vy)
    requires w == if both then BallWords(x, y, vx, vy) else (0, 0)
    requires live == if both then LiveBall(x, y, vx, vy) else NO_BALL
    ensures DecodeBall(w) == live
  {
    if both { BallReads(x, y, vx, vy, w, live); } else { NoBallComesBack(w); }
  }

  predicate IsMultiball(id: nat, other: nat) { id == MULTIBALL || other == MULTIBALL }

  /** The second ball, moving the other way vertically, is there when one of the events is multiball. */
  lemma SecondBallRoundTrip(s: Court, id: nat, other: nat)
    requires InRange(s)
    ensures DecodeBall(SecondBallWords(s, id, other)) == SecondBall(s, id, other)
  {
    var both := IsMultiball(id, other);
    SecondReads(s.x * UNIT, s.y * UNIT, s.vx, -s.vy, both, SecondBallWords(s, id, other), SecondBall(s, id, other));
  }

  /** Its words, or the zeros in their place, are below 2^256. */
  lemma SecondBallFits(s: Court, id: nat, other: nat)
    requires InRange(s)
    ensures NarrowPair(SecondBallWords(s, id, other))
  {
    var ball := BallWords(s.x * UNIT, s.y * UNIT, s.vx, -s.vy);
    assert NarrowPair(ball) by { BallComesBack(s.x * UNIT, s.y * UNIT, s.vx, -s.vy, ball); }
    EitherIsNarrow(IsMultiball(id, other), ball, SecondBallWords(s, id, other));
  }

  lemma EffectRoundTrip(n: nat)
    requires n <= EVENTS
    ensures DecodeEffect(EffectWord(n)) == LiveEffect(n) && Width(EffectWord(n)) <= 256
  {
    EffectComesBack(n, EffectWord(n));
  }

  /** Paddles, clock, and the next force ten seconds of the clock later. */
  lemma ClockRoundTrip(s: Court)
    requires InRange(s)
    ensures DecodeClock(ClockWord(s)) == Clock(s.left * UNIT, s.right * UNIT, s.t, s.t + 10000)
    ensures Width(ClockWord(s)) <= 256
  {
    ClockReads(s.left * UNIT, s.right * UNIT, s.t, ClockWord(s));
  }

  /** Score, directions, the mask of the active events and the betting heights. */
  lemma ScoreRoundTrip(s: Court, id: nat, other: nat)
    requires InRange(s) && id <= EVENTS && other <= EVENTS
    ensures var m := ScoreWord(s, Mask(id, other));
      && DecodeMeta(m) == LiveMeta(s, Mask(id, other))
      && Width(m) <= 256
  {
    MaskWidth(id, other);
    ScoreComesBack(s, Mask(id, other), ScoreWord(s, Mask(id, other)));
  }

  lemma NarrowWords(w: seq<nat>)
    requires forall k :: 0 <= k < |w| ==> Width(w[k]) <= 256
    ensures Narrow(w)
  {
    forall k | 0 <= k < |w| ensures w[k] < Pow2(256) { WidthIff(w[k], 256); }
  }

  /** Eight words that read as the parts of an acceptable state unpack to it. */
  lemma UnpackReads(w: seq<nat>, control: nat, a: (nat, nat), b: (nat, nat), p: Physics)
    requires |w| == 8 && Narrow(w) && RulesOk(p) && (w[0], w[1]) == a && (w[2], w[3]) == b
    requires DecodeBall(a) == p.first && DecodeBall(b) == p.second
    requires DecodeEffect(w[4]) == p.effect && DecodeEffect(w[5]) == p.other
    requires DecodeClock(w[6]) == p.clock && DecodeMeta(w[7]) == p.meta
    requires Bits(control, 0, 2) - 1 == p.leftDir && Bits(control, 2, 2) - 1 == p.rightDir
    ensures Unpack(w, control) == Some(p)
  {
  }

  /** What the payload of a court says. */
  function Played(s: Court, id: nat, other: nat): Physics
    requires s.left >= 0 && s.right >= 0 && id <= EVENTS && other <= EVENTS
  {
    Physics(LiveBall(s.x * UNIT, s.y * UNIT, s.vx, s.vy), SecondBall(s, id, other), LiveEffect(id), LiveEffect(other),
            Clock(s.left * UNIT, s.right * UNIT, s.t, s.t + 10000), LiveMeta(s, Mask(id, other)), s.leftDir, s.rightDir)
  }

  lemma PlayedIsAccepted(s: Court, id: nat, other: nat)
    requires InRange(s) && id <= EVENTS && other <= EVENTS
    ensures RulesOk(Played(s, id, other))
  {
  }

  /** The whole payload: the client accepts it, and reads every word for what it was packed as. */
  lemma PayloadRoundTrip(s: Court, id: nat, other: nat)
    requires InRange(s) && id <= EVENTS && other <= EVENTS
    ensures Unpack(Words(s, id, other), Control(s.leftDir, s.rightDir)) == Some(Played(s, id, other))
  {
    BallRoundTrip(s);
    SecondBallRoundTrip(s, id, other);
    SecondBallFits(s, id, other);
    EffectRoundTrip(id);
    EffectRoundTrip(other);
    ClockRoundTrip(s);
    ScoreRoundTrip(s, id, other);
    ControlComesBack(s.leftDir, s.rightDir);
    PlayedIsAccepted(s, id, other);
    PayloadReads(Played(s, id, other), BallWords(s.x * UNIT, s.y * UNIT, s.vx, s.vy), SecondBallWords(s, id, other),
                 EffectWord(id), EffectWord(other), ClockWord(s), ScoreWord(s, Mask(id, other)), Control(s.leftDir, s.rightDir));
  }

  lemma PayloadReads(p: Physics, a: (nat, nat), b: (nat, nat), e: nat, f: nat, g: nat, m: nat, control: nat)
    requires RulesOk(p)
    requires NarrowPair(a) && NarrowPair(b)
    requires Width(e) <= 256 && Width(f) <= 256 && Width(g) <= 256 && Width(m) <= 256
    requires DecodeBall(a) == p.first && DecodeBall(b) == p.second && DecodeEffect(e) == p.effect && DecodeEffect(f) == p.other
    requires DecodeClock(g) == p.clock && DecodeMeta(m) == p.meta
    requires Bits(control, 0, 2) - 1 == p.leftDir && Bits(control, 2, 2) - 1 == p.rightDir
    ensures Unpack([a.0, a.1, b.0, b.1, e, f, g, m], control) == Some(p)
  {
    EightNarrow(a, b, e, f, g, m);
    UnpackReads([a.0, a.1, b.0, b.1, e, f, g, m], control, a, b, p);
  }

  lemma EightNarrow(a: (nat, nat), b: (nat, nat), e: nat, f: nat, g: nat, m: nat)
    requires NarrowPair(a) && NarrowPair(b)
    requires Width(e) <= 256 && Width(f) <= 256 && Width(g) <= 256 && Width(m) <= 256
    ensures Narrow([a.0, a.1, b.0, b.1, e, f, g, m])
  {
    NarrowWords([a.0, a.1, b.0, b.1, e, f, g, m]);
  }

  /** Bit n - 1 of the mask is set exactly when event n is active. */
  lemma MaskRoundTrip(id: nat, other: nat, n: nat)
    requires id <= EVENTS && other <= EVENTS && 1 <= n <= EVENTS
    ensures Flag(Mask(id, other), n - 1) <==> n == id || n == other
  {
    var a := if id > 0 then Pow2(id - 1) else 0;
    var b := if other > 0 then Pow2(other - 1) else 0;
    OrFlag(a, b, n - 1);
    if id > 0 { PowerFlag(id - 1, n - 1); }
    if other > 0 { PowerFlag(other - 1, n - 1); }
  }

  lemma FlagStep(n: nat, k: nat)
    ensures Flag(n, k) <==> if k == 0 then n % 2 == 1 else Flag(n / 2, k - 1)
  {
    assert Bits(n / 2, 0, 0) == 0;
  }

  lemma {:induction false} OrFlag(a: nat, b: nat, k: nat)
    ensures Flag(BitOr(a, b), k) <==> Flag(a, k) || Flag(b, k)
    decreases k
  {
    FlagStep(a, k);
    FlagStep(b, k);
    FlagStep(BitOr(a, b), k);
    if k > 0 && a > 0 && b > 0 { OrFlag(a / 2, b / 2, k - 1); }
  }

  lemma {:induction false} PowerFlag(j: nat, k: nat)
    ensures Flag(Pow2(j), k) <==> j == k
    decreases k
  {
    FlagStep(Pow2(j), k);
    if k > 0 && j > 0 { PowerFlag(j - 1, k - 1); }
    if k > 0 && j == 0 { FlagStep(0, k - 1); }
  }
}
