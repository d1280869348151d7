/** An interrupted deployment can be completed: from every state that runs and crashes reach,
    unless an operation reverted, one more run can go through every operation. */
module DeployCompletes {
  import opened Options
  import opened Wire
  import opened Chain
  import opened Journal
  import opened Writers
  import opened WriterSafety
  import opened WriterResults
  import opened WriterRecovery
  import opened DeployScript
  import opened DeployRuns

  /** No operation of the deployment has reverted. */
  ghost predicate NoRevert(g: Ground, c: Chain) {
    forall i :: |g.c| <= i < |c.included| ==> c.included[i].ok
  }

  /** The run neither dies nor gives up. */
  predicate Unbroken(actions: seq<Action>) {
    forall a :: a in actions ==> !a.Die? && !a.Abort?
  }

  function Acts(steps: seq<Step>): (actions: seq<Action>)
    ensures Unbroken(actions)
  {
    if steps == [] then []
    else [match steps[0] case Tick(_, c) => Await(c) case Network(n) => Mine(n) case _ => Save] + Acts(steps[1..])
  }

  /** The awaits of a call are actions of the run. */
  lemma {:induction false} Lifts(su: Setup, s: System, more: seq<Step>)
    requires s.run.On? && Calling(s) && CanRun(s.w, more) && AllFair(more, s.pid)
    ensures CanAct(su, s, Acts(more)) && After(su, s, Acts(more)) == s.(w := Run(s.w, more))
    decreases |more|
  {
    if more != [] {
      assert Fair(more[0], s.pid);
      var v := s.(w := Do(s.w, more[0]));
      assert Allowed(su, s, Acts(more)[0]) && Act(su, s, Acts(more)[0]) == v;
      StaysCalled(s.w, more[0], s.pid);
      Lifts(su, v, more[1..]);
      assert Acts(more)[1..] == Acts(more[1..]);
    }
  }

  lemma StaysCalled(w: World, s: Step, pid: nat)
    requires pid in w.procs && Can(w, s) && Fair(s, pid)
    ensures pid in Do(w, s).procs
  {
    if s.Tick? {
      match w.procs[pid].pc
      case Guard => GuardKeepsProgram(w, pid);
      case Working(req, phase) => WorkKeepsProgram(w, pid, req, phase, s.choice);
      case _ =>
    }
  }

  lemma TickIncludesNone(w: World, pid: nat, c: Choice)
    requires pid in w.procs
    ensures TickProc(w, pid, c).chain.included == w.chain.included
  {
    match w.procs[pid].pc
    case Working(req, phase) => WorkWrites(w, pid, req, phase, c);
    case _ =>
  }

  lemma {:induction false} FairKeepsOk(g: Ground, w: World, more: seq<Step>, pid: nat)
    requires pid in w.procs && CanRun(w, more) && AllFair(more, pid) && NoRevert(g, w.chain)
    ensures NoRevert(g, Run(w, more).chain)
    decreases |more|
  {
    if more != [] {
      assert Fair(more[0], pid);
      StaysCalled(w, more[0], pid);
      if more[0].Tick? { TickIncludesNone(w, pid, more[0].choice); }
      FairKeepsOk(g, Do(w, more[0]), more[1..], pid);
    }
  }

  lemma {:induction false} JoinActions(su: Setup, s: System, first: seq<Action>, last: seq<Action>)
    requires CanAct(su, s, first) && CanAct(su, After(su, s, first), last)
    ensures CanAct(su, s, first + last) && After(su, s, first + last) == After(su, After(su, s, first), last)
    decreases |first|
  {
    if first == [] {
      assert first + last == last;
    } else {
      assert (first + last)[1..] == first[1..] + last;
      JoinActions(su, Act(su, s, first[0]), first[1..], last);
    }
  }

  // ---- one operation

  /** The run stands between two operations, with more to come. */
  ghost predicate Between(su: Setup, g: Ground, s: System) {
    && SystemInv(su, g, s) && NoRevert(g, s.w.chain)
    && s.run.On? && s.run.saved && !Calling(s)
  }

  function NextRequest(su: Setup, s: System): Request
    requires s.run.On? && |s.run.results| < |su.plan(s.run.m)|
  {
    RequestOf(su, su.plan(s.run.m)[|s.run.results|], s.run.results)
  }

  /** Without a revert no row has failed. */
  lemma RowNotFailed(su: Setup, g: Ground, s: System, k: nat)
    requires SystemInv(su, g, s) && NoRevert(g, s.w.chain) && |g.t| + k < |s.w.table|
    ensures RowAt(g, s.w.table, k).status != Failed
  {
    var (t, c) := (s.w.table, s.w.chain);
    var r := RowAt(g, t, k);
    assert RowIs(su, g, t, su.plan(s.disk.value), k);
    assert RowOk(t[|g.t| + k]);
    forall x | 0 <= x < |c.included| && c.included[x].raw == r.raw ensures c.included[x].ok {
      assert k < |c.included| - |g.c| ==> BlockAt(g, c.included, k).raw == RowAt(g, t, k).raw;
    }
    assert Find(c.included, r.raw) != Some(false);
  }

  lemma LockIsFree(su: Setup, g: Ground, s: System)
    requires SystemInv(su, g, s) && !Calling(s)
    ensures s.w.lock.None?
  {
  }

  /** The row of the next operation carries its request. */
  lemma RowMatches(su: Setup, g: Ground, s: System)
    requires Between(su, g, s) && |s.run.results| < |su.plan(s.run.m)| && |g.t| + |s.run.results| < |s.w.table|
    ensures RowOf(s.w.table, NextRequest(su, s).id) == Some(RowAt(g, s.w.table, |s.run.results|))
    ensures Matches(NextRequest(su, s), RowAt(g, s.w.table, |s.run.results|).raw)
    ensures RowAt(g, s.w.table, |s.run.results|).raw.from == su.owner
  {
    var (plan, k) := (su.plan(s.run.m), |s.run.results|);
    KeyOf(su, g, s.w.table, plan, k);
    assert RowIs(su, g, s.w.table, plan, k);
  }

  /** The call of an operation that has a row already. */
  lemma OldRowCompletes(su: Setup, g: Ground, s: System) returns (more: seq<Step>, raw: Raw)
    requires Between(su, g, s) && |s.run.results| < |su.plan(s.run.m)| && |g.t| + |s.run.results| < |s.w.table|
    ensures var u := Do(s.w, Spawn(s.pid, Submit(NextRequest(su, s))));
      Completes(u, more, s.pid) && Recovering(Run(u, more), s.pid, NextRequest(su, s), raw)
  {
    var req := NextRequest(su, s);
    RowMatches(su, g, s);
    LockIsFree(su, g, s);
    raw := RowAt(g, s.w.table, |s.run.results|).raw;
    StepKeepsInv(s.w, Spawn(s.pid, Submit(req)));
    StepKeepsLive(s.w, Spawn(s.pid, Submit(req)), su.owner);
    more := CanComplete(Do(s.w, Spawn(s.pid, Submit(req))), s.pid, req, raw);
  }

  lemma NothingPending(su: Setup, g: Ground, s: System)
    requires Between(su, g, s) && |g.t| + |s.run.results| == |s.w.table|
    ensures !HasPending(s.w.table, su.owner)
  {
    var t := s.w.table;
    forall i: nat | i < |t| ensures !(t[i].owner == su.owner && t[i].status == Pending) {
      assert i < |g.t| ==> t[i] == t[..|g.t|][i];
      assert i >= |g.t| ==> t[i] == RowAt(g, t, i - |g.t|);
    }
  }

  /** The call of an operation that nobody has submitted yet. */
  lemma NewRowCompletes(su: Setup, g: Ground, s: System) returns (more: seq<Step>, raw: Raw)
    requires Between(su, g, s) && |s.run.results| < |su.plan(s.run.m)| && |g.t| + |s.run.results| == |s.w.table|
    ensures var u := Do(s.w, Spawn(s.pid, Submit(NextRequest(su, s))));
      Completes(u, more, s.pid) && Recovering(Run(u, more), s.pid, NextRequest(su, s), raw)
  {
    NothingPending(su, g, s);
    LockIsFree(su, g, s);
    SettledUnblocks(s.w, su.owner);
    NoKeyOf(su, g, s.w.table, su.plan(s.run.m), |s.run.results|);
    more, raw := NewIdCompletes(s.w, s.pid, NextRequest(su, s));
  }

  /** The call returns: its row can only be confirmed. */
  lemma CallReturns(su: Setup, g: Ground, e: System, raw: Raw)
    requires SystemInv(su, g, e) && NoRevert(g, e.w.chain) && e.run.On? && e.run.saved && Calling(e)
    requires |e.run.results| < |su.plan(e.run.m)|
    requires Recovering(e.w, e.pid, NextRequest(su, e), raw) && e.w.procs[e.pid].pc.Ended?
    ensures Allowed(su, e, Take)
  {
    var k := |e.run.results|;
    if |g.t| + k >= |e.w.table| { NoKeyOf(su, g, e.w.table, su.plan(e.run.m), k); }
    KeyOf(su, g, e.w.table, su.plan(e.run.m), k);
    RowNotFailed(su, g, e, k);
  }

  lemma CallCompletes(su: Setup, g: Ground, s: System) returns (more: seq<Step>, raw: Raw)
    requires Between(su, g, s) && |s.run.results| < |su.plan(s.run.m)|
    ensures var u := Act(su, s, DeployRuns.Call).w;
      Completes(u, more, s.pid) && Recovering(Run(u, more), s.pid, NextRequest(su, s), raw)
  {
    if |g.t| + |s.run.results| < |s.w.table| {
      more, raw := OldRowCompletes(su, g, s);
    } else {
      more, raw := NewRowCompletes(su, g, s);
    }
  }

  /** The run after the call's awaits. */
  lemma CallEnds(su: Setup, g: Ground, s: System, steps: seq<Step>, raw: Raw)
    requires SystemInv(su, g, s) && NoRevert(g, s.w.chain) && s.run.On? && s.run.saved && Calling(s)
    requires |s.run.results| < |su.plan(s.run.m)| && Completes(s.w, steps, s.pid)
    requires Recovering(Run(s.w, steps), s.pid, NextRequest(su, s), raw)
    ensures CanAct(su, s, Acts(steps))
    ensures var e := After(su, s, Acts(steps));
      e == s.(w := Run(s.w, steps)) && SystemInv(su, g, e) && NoRevert(g, e.w.chain) && Allowed(su, e, Take)
  {
    Lifts(su, s, steps);
    RunKeeps(su, g, s, Acts(steps));
    FairKeepsOk(g, s.w, steps, s.pid);
    CallReturns(su, g, s.(w := Run(s.w, steps)), raw);
  }

  lemma TakeLeaves(su: Setup, g: Ground, e: System)
    requires SystemInv(su, g, e) && NoRevert(g, e.w.chain) && e.run.On? && e.run.saved && Allowed(su, e, Take)
    ensures var v := Act(su, e, Take); Between(su, g, v) && v.run.m == e.run.m && |v.run.results| == |e.run.results| + 1
  {
    TakeKeeps(su, g, e);
    assert e.pid + 1 !in e.w.procs;
  }

  lemma CallStarts(su: Setup, g: Ground, s: System)
    requires Between(su, g, s) && |s.run.results| < |su.plan(s.run.m)|
    ensures Allowed(su, s, DeployRuns.Call)
    ensures var v := Act(su, s, DeployRuns.Call); SystemInv(su, g, v) && NoRevert(g, v.w.chain)
  {
    ActKeeps(su, g, s, DeployRuns.Call);
  }

  /** The run is one operation further. */
  ghost predicate Further(su: Setup, g: Ground, s: System, e: System) {
    Between(su, g, e) && s.run.On? && e.run.m == s.run.m && |e.run.results| == |s.run.results| + 1
  }

  lemma CallToTake(su: Setup, g: Ground, s: System) returns (steps: seq<Step>)
    requires Between(su, g, s) && |s.run.results| < |su.plan(s.run.m)|
    ensures Allowed(su, s, DeployRuns.Call) && CanAct(su, Act(su, s, DeployRuns.Call), Acts(steps))
    ensures var e := After(su, Act(su, s, DeployRuns.Call), Acts(steps));
      Allowed(su, e, Take) && Further(su, g, s, Act(su, e, Take))
  {
    CallStarts(su, g, s);
    var raw;
    steps, raw := CallCompletes(su, g, s);
    CallEnds(su, g, Act(su, s, DeployRuns.Call), steps, raw);
    TakeLeaves(su, g, After(su, Act(su, s, DeployRuns.Call), Acts(steps)));
  }

  lemma TakesTurn(su: Setup, s: System, acts: seq<Action>)
    requires Allowed(su, s, DeployRuns.Call) && CanAct(su, Act(su, s, DeployRuns.Call), acts)
    requires Allowed(su, After(su, Act(su, s, DeployRuns.Call), acts), Take)
    ensures CanAct(su, s, [DeployRuns.Call] + acts + [Take])
    ensures After(su, s, [DeployRuns.Call] + acts + [Take]) == Act(su, After(su, Act(su, s, DeployRuns.Call), acts), Take)
  {
    var e := After(su, Act(su, s, DeployRuns.Call), acts);
    var one, last := [DeployRuns.Call], [Take];
    assert one[1..] == [] && last[1..] == [];
    assert CanAct(su, Act(su, s, DeployRuns.Call), []) && CanAct(su, Act(su, e, Take), []);
    assert CanAct(su, s, one) && After(su, s, one) == Act(su, s, DeployRuns.Call);
    assert CanAct(su, e, last) && After(su, e, last) == Act(su, e, Take);
    JoinActions(su, s, one, acts);
    JoinActions(su, s, one + acts, last);
  }

  /** One operation more, from call to receipt. */
  lemma OneMore(su: Setup, g: Ground, s: System) returns (more: seq<Action>)
    requires Between(su, g, s) && |s.run.results| < |su.plan(s.run.m)|
    ensures CanAct(su, s, more) && Unbroken(more) && Further(su, g, s, After(su, s, more))
  {
    var steps := CallToTake(su, g, s);
    TakesTurn(su, s, Acts(steps));
    more := [DeployRuns.Call] + Acts(steps) + [Take];
  }

  lemma {:induction false} AllTheRest(su: Setup, g: Ground, s: System) returns (more: seq<Action>)
    requires Between(su, g, s) && |s.run.results| <= |su.plan(s.run.m)|
    ensures CanAct(su, s, more) && Unbroken(more) && Complete(su, After(su, s, more))
    decreases |su.plan(s.run.m)| - |s.run.results|
  {
    if |s.run.results| == |su.plan(s.run.m)| {
      more := [];
    } else {
      var first := OneMore(su, g, s);
      var rest := AllTheRest(su, g, After(su, s, first));
      JoinActions(su, s, first, rest);
      more := first + rest;
    }
  }

  /** From every state that runs and crashes reach, with no operation reverted, one run that is
      given the saved migration source can complete. */
  lemma CompletionReachable(su: Setup, g: Ground, s: System, actions: seq<Action>, source: Option<Snapshot>, now: nat)
    returns (more: seq<Action>)
    requires Fresh(su, g, s) && CanAct(su, s, actions)
    requires var e := After(su, s, actions);
      && e.run.Off? && NoRevert(g, e.w.chain) && (e.disk.Some? ==> e.disk.value.source == source)
    ensures CanAct(su, After(su, s, actions), more) && Unbroken(more)
    ensures Complete(su, After(su, After(su, s, actions), more))
  {
    FreshOk(su, g, s);
    RunKeeps(su, g, s, actions);
    var e := After(su, s, actions);
    Opens(su, g, e, source, now);
    var rest := AllTheRest(su, g, Act(su, Act(su, e, Begin(source, now)), DeployRuns.Save));
    more := [Begin(source, now), DeployRuns.Save] + rest;
    assert more[1..] == [DeployRuns.Save] + rest && more[1..][1..] == rest;
  }

  lemma Opens(su: Setup, g: Ground, e: System, source: Option<Snapshot>, now: nat)
    requires SystemInv(su, g, e) && e.run.Off? && NoRevert(g, e.w.chain)
    requires e.disk.Some? ==> e.disk.value.source == source
    ensures Allowed(su, e, Begin(source, now)) && Allowed(su, Act(su, e, Begin(source, now)), DeployRuns.Save)
    ensures var v := Act(su, Act(su, e, Begin(source, now)), DeployRuns.Save); Between(su, g, v) && v.run.results == []
  {
    ActKeeps(su, g, e, Begin(source, now));
    ActKeeps(su, g, Act(su, e, Begin(source, now)), DeployRuns.Save);
  }
}
