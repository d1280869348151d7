/** The simulated engine node of the countdown browser test: it answers a known hash with
    the stored receipt, refuses or loses one reply on demand, and otherwise executes. */
module SimulatedNode {

  datatype Call =
    | RegisterControls(until: nat)
    | RevokeControls
    | AcceptMatch
    | Input(direction: int, serial: nat)
    | OtherCall(name: string)

  /** Signed bytes. Hashing is injective, so the bytes stand for their hash. */
  datatype Signed = Signed(nonce: nat, call: Call)

  datatype Reply = Receipt(bytes: Signed) | RefusedBefore | LostAfter | Failed

  /** What both players' contexts share, and each player's own nonce and binding. */
  datatype Game = Game(
    phase: nat, revision: nat, accepted: set<nat>, serials: seq<nat>, directions: seq<int>,
    nonces: seq<nat>, bindings: seq<nat>)

  /** `receipts` holds each player's executed commands, oldest first. */
  datatype Node = Node(game: Game, receipts: seq<seq<Signed>>, armed: bool)

  /** One request of player `at`, `now` being the server clock, or the test arming the next injection. */
  datatype Event = Request(at: nat, bytes: Signed, now: nat) | Arm

  /** The fixture of one scenario: its mode, and when the countdown ends. */
  datatype Scenario = Scenario(mode: nat, launchAt: nat)

  predicate Shaped(n: Node) {
    && |n.receipts| == |n.game.nonces| == |n.game.bindings| == |n.game.serials| == |n.game.directions| == 2
  }

  const INITIAL := Node(Game(0, 0, {}, [0, 0], [0, 0], [0, 0], [0, 0]), [[], []], false)

  /** Every assertion the node makes before it executes. */
  predicate Accepts(sc: Scenario, g: Game, at: nat, b: Signed, now: nat)
    requires at < |g.nonces| && at < |g.serials|
  {
    && b.nonce == g.nonces[at]
    && (b.call.AcceptMatch? ==> now >= sc.launchAt && at !in g.accepted)
    && (b.call.Input? ==> b.call.serial == g.serials[at] + 1)
  }

  function Execute(g: Game, at: nat, call: Call): Game
    requires |g.nonces| == |g.bindings| == |g.serials| == |g.directions| == 2 && at < 2
  {
    var h := match call
      case RegisterControls(until) => g.(bindings := g.bindings[at := until])
      case RevokeControls => g.(bindings := g.bindings[at := 0])
      case AcceptMatch =>
        var accepted := g.accepted + {at};
        g.(accepted := accepted, phase := if |accepted| == 2 then 2 else 1)
      case Input(direction, serial) =>
        g.(serials := g.serials[at := g.serials[at] + 1], directions := g.directions[at := direction])
      case OtherCall(_) => g;
    h.(nonces := h.nonces[at := h.nonces[at] + 1], revision := h.revision + 1)
  }

  /** The request handler as a function of the state. */
  function Serve(sc: Scenario, n: Node, at: nat, b: Signed, now: nat): (Node, Reply)
    requires Shaped(n) && at < 2
  {
    if b in n.receipts[at] then (n, Receipt(b)) else
    var inject := n.armed && b.call.Input?;
    var m := if inject then n.(armed := false) else n;
    if inject && sc.mode == 0 then (m, RefusedBefore)
    else if !Accepts(sc, n.game, at, b, now) then (m, Failed)
    else (m.(game := Execute(n.game, at, b.call), receipts := n.receipts[at := n.receipts[at] + [b]]),
          if inject then LostAfter else Receipt(b))
  }

  /** A request is executed, and stored, exactly when it is new, has the next nonce, and as an acceptance is
      the player's first and not before the launch, as an input the player's next. An armed injection meets
      the next new input: in mode 0 that is refused and nothing executes; in the others it executes, if it
      may, and its reply is lost. */
  lemma ServeAnswers(sc: Scenario, n: Node, at: nat, b: Signed, now: nat)
    requires Shaped(n) && at < 2
    ensures var (m, reply) := Serve(sc, n, at, b, now);
      var unseen := b !in n.receipts[at];
      var hit := unseen && n.armed && b.call.Input?;
      var fits := b.nonce == n.game.nonces[at]
        && (b.call.AcceptMatch? ==> sc.launchAt <= now && at !in n.game.accepted)
        && (b.call.Input? ==> b.call.serial == n.game.serials[at] + 1);
      && m.armed == (n.armed && !hit)
      && reply == (if !unseen then Receipt(b) else if hit && sc.mode == 0 then RefusedBefore
                   else if !fits then Failed else if hit then LostAfter else Receipt(b))
      && (if reply.LostAfter? || (unseen && reply.Receipt?) then m.receipts == n.receipts[at := n.receipts[at] + [b]]
          else m.game == n.game && m.receipts == n.receipts)
  {
  }

  /** The fixture's variables, changed in place by the handler. */
  class Fixture {
    const scenario: Scenario
    var phase: nat
    var revision: nat
    var accepted: set<nat>
    var serials: seq<nat>
    var directions: seq<int>
    var nonces: seq<nat>
    var bindings: seq<nat>
    var receipts: seq<seq<Signed>>
    var injectNext: bool

    ghost function State(): Node
      reads this
    {
      Node(Game(phase, revision, accepted, serials, directions, nonces, bindings), receipts, injectNext)
    }

    constructor (scenario: Scenario)
      ensures State() == INITIAL && this.scenario == scenario
    {
      this.scenario := scenario;
      phase, revision, accepted, injectNext := 0, 0, {}, false;
      serials, directions, nonces, bindings, receipts := [0, 0], [0, 0], [0, 0], [0, 0], [[], []];
    }

    /** `interlude_sendTransaction`. */
    method SendTransaction(at: nat, bytes: Signed, now: nat) returns (reply: Reply)
      requires Shaped(State()) && at < 2
      modifies this
      ensures (State(), reply) == Serve(scenario, old(State()), at, bytes, now)
      ensures Shaped(State())
    {
      if bytes in receipts[at] { return Receipt(bytes); }
      var inject := injectNext && bytes.call.Input?;
      if inject {
        injectNext := false;
        if scenario.mode == 0 { return RefusedBefore; }
      }
      if bytes.nonce != nonces[at] { return Failed; }
      match bytes.call {
        case RegisterControls(until) => bindings := bindings[at := until];
        case RevokeControls => bindings := bindings[at := 0];
        case AcceptMatch =>
          if now < scenario.launchAt || at in accepted { return Failed; }
          accepted := accepted + {at};
          phase := if |accepted| == 2 then 2 else 1;
        case Input(direction, serial) =>
          if serial != serials[at] + 1 { return Failed; }
          serials := serials[at := serials[at] + 1];
          directions := directions[at := direction];
        case OtherCall(_) =>
      }
      nonces := nonces[at := nonces[at] + 1];
      revision := revision + 1;
      receipts := receipts[at := receipts[at] + [bytes]];
      if inject { return LostAfter; }
      return Receipt(bytes);
    }
  }

  // ---- schedules

  ghost predicate Fits(e: Event) {
    e.Request? ==> e.at < 2
  }

  function StepNode(sc: Scenario, n: Node, e: Event): Node
    requires Shaped(n) && Fits(e)
  {
    match e
    case Arm => n.(armed := true)
    case Request(at, b, now) => Serve(sc, n, at, b, now).0
  }

  /** The request executes: it is new, not refused, and passes the assertions. */
  predicate Executes(sc: Scenario, n: Node, e: Event)
    requires Shaped(n) && Fits(e)
  {
    && e.Request? && e.bytes !in n.receipts[e.at]
    && !(n.armed && e.bytes.call.Input? && sc.mode == 0)
    && Accepts(sc, n.game, e.at, e.bytes, e.now)
  }

  function RunNode(sc: Scenario, n: Node, events: seq<Event>): (m: Node)
    requires Shaped(n) && forall e :: e in events ==> Fits(e)
    ensures Shaped(m)
    decreases |events|
  {
    if events == [] then n else RunNode(sc, StepNode(sc, n, events[0]), events[1..])
  }

  /** The requests that execute, in order: the schedule without refusals, failures, resends and arming. */
  function Executed(sc: Scenario, n: Node, events: seq<Event>): (log: seq<Event>)
    requires Shaped(n) && forall e :: e in events ==> Fits(e)
    ensures forall e :: e in log ==> e.Request? && e in events
    decreases |events|
  {
    if events == [] then []
    else (if Executes(sc, n, events[0]) then [events[0]] else [])
         + Executed(sc, StepNode(sc, n, events[0]), events[1..])
  }

  ghost predicate SameButArmed(m: Node, n: Node) {
    m.game == n.game && m.receipts == n.receipts
  }

  lemma StepIgnoresArming(sc: Scenario, m: Node, n: Node, e: Event)
    requires Shaped(m) && Shaped(n) && Fits(e) && SameButArmed(m, n) && !m.armed
    ensures Executes(sc, n, e) ==> Executes(sc, m, e) && SameButArmed(StepNode(sc, m, e), StepNode(sc, n, e)) && !StepNode(sc, m, e).armed
    ensures !Executes(sc, n, e) ==> SameButArmed(m, StepNode(sc, n, e))
  {
  }

  /** The lossy link changes nothing: whatever is refused before execution, lost after it or
      sent again, the node ends where a perfect link takes it when each executed command is
      sent once, in order. On that link every one of them executes. */
  lemma {:induction false} LossyLinkRefines(sc: Scenario, m: Node, n: Node, events: seq<Event>)
    requires Shaped(m) && Shaped(n) && SameButArmed(m, n) && !m.armed
    requires forall e :: e in events ==> Fits(e)
    ensures var log := Executed(sc, n, events);
      && SameButArmed(RunNode(sc, m, log), RunNode(sc, n, events))
      && Executed(sc, m, log) == log
    decreases |events|
  {
    if events != [] {
      var e, rest := events[0], events[1..];
      StepIgnoresArming(sc, m, n, e);
      var log := Executed(sc, StepNode(sc, n, e), rest);
      if Executes(sc, n, e) {
        LossyLinkRefines(sc, StepNode(sc, m, e), StepNode(sc, n, e), rest);
        assert ([e] + log)[1..] == log;
      } else {
        LossyLinkRefines(sc, m, StepNode(sc, n, e), rest);
        assert [] + log == log;
      }
    }
  }

  /** A resend of executed bytes is answered with the stored receipt and changes nothing. */
  lemma ResendIsHarmless(sc: Scenario, n: Node, at: nat, b: Signed, now: nat, later: seq<Event>, again: nat)
    requires Shaped(n) && at < 2 && Executes(sc, n, Request(at, b, now))
    requires forall e :: e in later ==> Fits(e)
    ensures var m := RunNode(sc, StepNode(sc, n, Request(at, b, now)), later); Serve(sc, m, at, b, again) == (m, Receipt(b))
  {
    ReceiptsStay(sc, StepNode(sc, n, Request(at, b, now)), later, at, b);
  }

  lemma {:induction false} ReceiptsStay(sc: Scenario, n: Node, events: seq<Event>, at: nat, b: Signed)
    requires Shaped(n) && at < 2 && b in n.receipts[at] && forall e :: e in events ==> Fits(e)
    ensures b in RunNode(sc, n, events).receipts[at]
    decreases |events|
  {
    if events != [] { ReceiptsStay(sc, StepNode(sc, n, events[0]), events[1..], at, b); }
  }

  // ---- what the state counts

  function InputsIn(s: seq<Signed>): nat {
    if s == [] then 0 else InputsIn(s[..|s| - 1]) + (if s[|s| - 1].call.Input? then 1 else 0)
  }

  function AcceptsIn(s: seq<Signed>): nat {
    if s == [] then 0 else AcceptsIn(s[..|s| - 1]) + (if s[|s| - 1].call.AcceptMatch? then 1 else 0)
  }

  /** One player: the nonce equals the stored receipts, which carry nonces 0, 1, 2, ...; the
      input counter equals executed inputs; `accepted` says whether the player accepted, at most once. */
  ghost predicate CountedFor(g: Game, r: seq<Signed>, at: nat)
    requires at < |g.nonces| && at < |g.serials|
  {
    && g.nonces[at] == |r|
    && (forall i :: 0 <= i < |r| ==> r[i].nonce == i)
    && g.serials[at] == InputsIn(r)
    && (forall i :: 0 <= i < |r| && r[i].call.Input? ==> r[i].call.serial == InputsIn(r[..i]) + 1)
    && AcceptsIn(r) == if at in g.accepted then 1 else 0
  }

  /** The direction of the last input, and how long the last grant holds; 0 without one. */
  function Steered(s: seq<Signed>): int {
    if s == [] then 0 else
    match s[|s| - 1].call
    case Input(direction, _) => direction
    case _ => Steered(s[..|s| - 1])
  }

  function Granted(s: seq<Signed>): nat {
    if s == [] then 0 else
    match s[|s| - 1].call
    case RegisterControls(until) => until
    case RevokeControls => 0
    case _ => Granted(s[..|s| - 1])
  }

  /** Each player steers the own paddle, under the own grant: as the last of the own commands say. */
  ghost predicate Controlled(n: Node) {
    && Shaped(n)
    && forall at :: 0 <= at < 2 ==>
         n.game.directions[at] == Steered(n.receipts[at]) && n.game.bindings[at] == Granted(n.receipts[at])
  }

  /** Every receipt comes from a request of its player; an acceptance from one at or after the launch. */
  ghost predicate Requested(sc: Scenario, n: Node, events: seq<Event>) {
    && Shaped(n)
    && forall at, b :: 0 <= at < 2 && b in n.receipts[at] ==> Asked(sc, events, at, b)
  }

  ghost predicate Asked(sc: Scenario, events: seq<Event>, at: nat, b: Signed) {
    exists now :: Request(at, b, now) in events && (b.call.AcceptMatch? ==> sc.launchAt <= now)
  }

  ghost predicate Counted(n: Node) {
    && Shaped(n)
    && n.game.revision == |n.receipts[0]| + |n.receipts[1]|
    && n.game.accepted <= {0, 1}
    && n.game.phase == |n.game.accepted|
    && CountedFor(n.game, n.receipts[0], 0) && CountedFor(n.game, n.receipts[1], 1)
  }

  lemma ExecuteCountsOwn(sc: Scenario, g: Game, r: seq<Signed>, at: nat, b: Signed, now: nat)
    requires |g.nonces| == |g.bindings| == |g.serials| == |g.directions| == 2 && at < 2
    requires CountedFor(g, r, at) && Accepts(sc, g, at, b, now)
    ensures CountedFor(Execute(g, at, b.call), r + [b], at)
  {
    assert (r + [b])[..|r + [b]| - 1] == r;
    forall i | 0 <= i < |r + [b]| ensures (r + [b])[..i] == r[..i] {}
  }

  lemma ExecuteCountsOther(g: Game, r: seq<Signed>, at: nat, b: Signed)
    requires |g.nonces| == |g.bindings| == |g.serials| == |g.directions| == 2 && at < 2
    requires CountedFor(g, r, 1 - at)
    ensures CountedFor(Execute(g, at, b.call), r, 1 - at)
  {
  }

  lemma ExecuteKeepsPhase(sc: Scenario, g: Game, at: nat, b: Signed, now: nat)
    requires |g.nonces| == |g.bindings| == |g.serials| == |g.directions| == 2 && at < 2
    requires g.accepted <= {0, 1} && g.phase == |g.accepted| && Accepts(sc, g, at, b, now)
    ensures var h := Execute(g, at, b.call);
      h.accepted <= {0, 1} && h.phase == |h.accepted| && h.revision == g.revision + 1
  {
    if b.call.AcceptMatch? { AtMostTwo(g.accepted, at); }
  }

  lemma ExecuteKeepsCounted(sc: Scenario, n: Node, at: nat, b: Signed, now: nat)
    requires Counted(n) && at < 2 && Accepts(sc, n.game, at, b, now)
    ensures Counted(n.(game := Execute(n.game, at, b.call), receipts := n.receipts[at := n.receipts[at] + [b]]))
  {
    ExecuteCountsOwn(sc, n.game, n.receipts[at], at, b, now);
    ExecuteCountsOther(n.game, n.receipts[1 - at], at, b);
    ExecuteKeepsPhase(sc, n.game, at, b, now);
  }

  lemma AtMostTwo(a: set<nat>, at: nat)
    requires a <= {0, 1} && at < 2 && at !in a
    ensures |a + {at}| == 1 || |a + {at}| == 2
  {
    assert a <= {1 - at};
    if 1 - at in a { assert a == {1 - at}; } else { assert a == {}; }
  }

  lemma ControlsNext(r: seq<Signed>, b: Signed)
    ensures Steered(r + [b]) == if b.call.Input? then b.call.direction else Steered(r)
    ensures Granted(r + [b]) ==
      if b.call.RegisterControls? then b.call.until else if b.call.RevokeControls? then 0 else Granted(r)
  {
    assert (r + [b])[..|r|] == r;
  }

  lemma ExecuteKeepsControlled(n: Node, at: nat, b: Signed)
    requires Controlled(n) && at < 2
    ensures Controlled(n.(game := Execute(n.game, at, b.call), receipts := n.receipts[at := n.receipts[at] + [b]]))
  {
    ControlsNext(n.receipts[at], b);
    var g, r := Execute(n.game, at, b.call), n.receipts[at := n.receipts[at] + [b]];
    forall k | 0 <= k < 2 ensures g.directions[k] == Steered(r[k]) && g.bindings[k] == Granted(r[k]) {}
  }

  lemma ExecuteKeepsRequested(sc: Scenario, n: Node, before: seq<Event>, e: Event)
    requires Requested(sc, n, before) && Fits(e) && Executes(sc, n, e)
    ensures Requested(sc, StepNode(sc, n, e), before + [e])
  {
    var m := StepNode(sc, n, e);
    assert m.receipts == n.receipts[e.at := n.receipts[e.at] + [e.bytes]];
    forall at, b | 0 <= at < 2 && b in m.receipts[at] ensures Asked(sc, before + [e], at, b) {
      if b in n.receipts[at] {
        assert Asked(sc, before, at, b);
      } else {
        assert Request(at, b, e.now) == e && e in before + [e];
      }
    }
  }

  lemma SilentKeepsRequested(sc: Scenario, n: Node, before: seq<Event>, e: Event)
    requires Requested(sc, n, before) && Fits(e) && !Executes(sc, n, e)
    ensures Requested(sc, StepNode(sc, n, e), before + [e])
  {
    forall at, b | 0 <= at < 2 && b in n.receipts[at] ensures Asked(sc, before + [e], at, b) {
      assert Asked(sc, before, at, b);
    }
  }

  lemma {:induction false} RunKeepsRequested(sc: Scenario, n: Node, before: seq<Event>, events: seq<Event>)
    requires Requested(sc, n, before) && forall e :: e in events ==> Fits(e)
    ensures Requested(sc, RunNode(sc, n, events), before + events)
    decreases |events|
  {
    if events == [] {
      assert before + events == before;
    } else {
      var e := events[0];
      if Executes(sc, n, e) { ExecuteKeepsRequested(sc, n, before, e); } else { SilentKeepsRequested(sc, n, before, e); }
      assert before + events == before + [e] + events[1..];
      RunKeepsRequested(sc, StepNode(sc, n, e), before + [e], events[1..]);
    }
  }

  lemma {:induction false} RunKeepsControlled(sc: Scenario, n: Node, events: seq<Event>)
    requires Controlled(n) && forall e :: e in events ==> Fits(e)
    ensures Controlled(RunNode(sc, n, events))
    decreases |events|
  {
    if events != [] {
      var e := events[0];
      if Executes(sc, n, e) { ExecuteKeepsControlled(n, e.at, e.bytes); }
      RunKeepsControlled(sc, StepNode(sc, n, e), events[1..]);
    }
  }

  lemma {:induction false} RunKeepsCounted(sc: Scenario, n: Node, events: seq<Event>)
    requires Counted(n) && forall e :: e in events ==> Fits(e)
    ensures Counted(RunNode(sc, n, events))
    decreases |events|
  {
    if events != [] {
      var e := events[0];
      if Executes(sc, n, e) { ExecuteKeepsCounted(sc, n, e.at, e.bytes, e.now); }
      RunKeepsCounted(sc, StepNode(sc, n, e), events[1..]);
    }
  }

  lemma StartsCounted()
    ensures Counted(INITIAL)
  {
  }

  /** In every state any schedule reaches, the counters agree with the receipts, the controls are those of
      each player's own last commands, and nothing was executed that was not requested, or accepted early. */
  lemma CountersAgree(sc: Scenario, events: seq<Event>)
    requires forall e :: e in events ==> Fits(e)
    ensures Counted(RunNode(sc, INITIAL, events)) && Controlled(RunNode(sc, INITIAL, events))
    ensures Requested(sc, RunNode(sc, INITIAL, events), events)
  {
    StartsCounted();
    RunKeepsCounted(sc, INITIAL, events);
    RunKeepsControlled(sc, INITIAL, events);
    RunKeepsRequested(sc, INITIAL, [], events);
    assert [] + events == events;
  }
}
