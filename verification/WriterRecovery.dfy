/** Recovery: a pending row blocks its owner until some run resolves it. A rerun of `submit`
    does, whenever it gets to its end, and a call for a new id then gets through. */
module WriterRecovery {
  import opened Options
  import opened Wire
  import opened Chain
  import opened Journal
  import opened Writers
  import opened WriterSafety
  import opened WriterResults

  // ---- a pending transaction can still be included

  ghost predicate NoForeign(w: World, owner: Account) {
    forall raw :: raw in w.foreign ==> raw.from != owner
  }

  ghost predicate ProcLive(p: Proc, c: Chain, owner: Account) {
    p.pc.Working? && p.pc.req.owner == owner ==>
      && (p.pc.phase.Prepare? ==> p.pc.phase.nonce == Latest(c, owner))
      && (p.pc.phase.Insert? ==> p.pc.phase.raw.nonce == Latest(c, owner))
  }

  /** A pending row's transaction is included already, or is the next one the account may send. */
  ghost predicate RowLive(r: Row, c: Chain) {
    r.status == Pending ==> Receipt(c, r.hash).Some? || r.nonce == Latest(c, r.owner)
  }

  ghost predicate Live(w: World, owner: Account) {
    && NoForeign(w, owner)
    && (forall i :: 0 <= i < |w.table| && w.table[i].owner == owner ==> RowLive(w.table[i], w.chain))
    && (forall pid :: pid in w.procs ==> ProcLive(w.procs[pid], w.chain, owner))
  }

  lemma LiveFrame(w: World, v: World, pid: nat, p: Proc, owner: Account)
    requires Live(w, owner)
    requires v.procs == w.procs[pid := p] && v.foreign == w.foreign
    requires v.chain.nonces == w.chain.nonces && v.chain.included == w.chain.included
    requires ProcLive(p, v.chain, owner)
    requires forall i :: 0 <= i < |v.table| && v.table[i].owner == owner ==> RowLive(v.table[i], w.chain)
    ensures Live(v, owner)
  {
    forall q | q in v.procs ensures ProcLive(v.procs[q], v.chain, owner) {
      if q != pid { assert ProcLive(w.procs[q], w.chain, owner); }
    }
    forall i | 0 <= i < |v.table| && v.table[i].owner == owner ensures RowLive(v.table[i], v.chain) {
      assert RowLive(v.table[i], w.chain);
    }
  }

  lemma InsertKeepsLive(w: World, pid: nat, req: Request, raw: Raw, c: Choice, owner: Account)
    requires Inv(w) && Live(w, owner) && pid in w.procs && w.procs[pid].pc == Working(req, Insert(raw))
    ensures Live(TickWork(w, pid, req, Insert(raw), c), owner)
  {
    var v := TickWork(w, pid, req, Insert(raw), c);
    assert ProcLive(w.procs[pid], w.chain, owner);
    WorkInserts(w, pid, req, raw, c);
    LiveFrame(w, v, pid, v.procs[pid], owner);
  }

  lemma UpdateKeepsLive(w: World, pid: nat, req: Request, raw: Raw, ok: bool, c: Choice, owner: Account)
    requires Live(w, owner) && pid in w.procs && w.procs[pid].pc == Working(req, Update(raw, ok))
    ensures Live(TickWork(w, pid, req, Update(raw, ok), c), owner)
  {
    var v := TickWork(w, pid, req, Update(raw, ok), c);
    LiveFrame(w, v, pid, v.procs[pid], owner);
  }

  /** An await that reads the nonce is followed by one that uses it. */
  lemma NextLive(w: World, pid: nat, req: Request, phase: Phase, c: Choice, owner: Account)
    requires pid in w.procs && w.procs[pid].pc == Working(req, phase) && ProcLive(w.procs[pid], w.chain, owner)
    requires !phase.Insert? && !phase.Update?
    ensures pid in TickWork(w, pid, req, phase, c).procs
    ensures ProcLive(TickWork(w, pid, req, phase, c).procs[pid], w.chain, owner)
  {
  }

  /** The awaits that leave the table alone. */
  lemma OtherKeepsLive(w: World, pid: nat, req: Request, phase: Phase, c: Choice, owner: Account)
    requires Inv(w) && Live(w, owner) && pid in w.procs && w.procs[pid].pc == Working(req, phase)
    requires !phase.Insert? && !phase.Update?
    ensures Live(TickWork(w, pid, req, phase, c), owner)
  {
    var v := TickWork(w, pid, req, phase, c);
    WorkMoves(w, pid, req, phase, c);
    WorkWrites(w, pid, req, phase, c);
    NextLive(w, pid, req, phase, c, owner);
    LiveFrame(w, v, pid, v.procs[pid], owner);
  }

  lemma WorkKeepsLive(w: World, pid: nat, req: Request, phase: Phase, c: Choice, owner: Account)
    requires Inv(w) && Live(w, owner) && pid in w.procs && w.procs[pid].pc == Working(req, phase)
    ensures Live(TickWork(w, pid, req, phase, c), owner)
  {
    match phase
    case Insert(raw) => InsertKeepsLive(w, pid, req, raw, c, owner);
    case Update(raw, ok) => UpdateKeepsLive(w, pid, req, raw, ok, c, owner);
    case _ => OtherKeepsLive(w, pid, req, phase, c, owner);
  }

  lemma TickKeepsLive(w: World, pid: nat, c: Choice, owner: Account)
    requires Inv(w) && Live(w, owner) && pid in w.procs
    ensures Live(TickProc(w, pid, c), owner)
  {
    match w.procs[pid].pc
    case Start =>
      LiveFrame(w, TickProc(w, pid, c), pid, TickProc(w, pid, c).procs[pid], owner);
    case Guard =>
      GuardMoves(w, pid);
      LiveFrame(w, TickGuard(w, pid), pid, TickGuard(w, pid).procs[pid], owner);
    case Working(req, phase) => WorkKeepsLive(w, pid, req, phase, c, owner);
    case Ended(_) =>
  }

  lemma PendingIfUnused(t: Table, c: Chain, k: nat)
    requires TableOk(t) && ChainOk(c) && Settled(t, c) && k < |t| && t[k].nonce >= Latest(c, t[k].owner)
    ensures t[k].status == Pending
  {
    assert RowOk(t[k]);
    assert forall x :: 0 <= x < |c.included| ==> c.included[x].raw != t[k].raw;
  }

  /** Only the owner's one pending transaction can be the next one included. */
  lemma IncludeKeepsLive(w: World, raw: Raw, ok: bool, owner: Account)
    requires Inv(w) && Live(w, owner) && CanNet(w.chain, Include(raw, ok))
    ensures Live(w.(chain := Net(w.chain, Include(raw, ok))), owner)
  {
    var d := Net(w.chain, Include(raw, ok));
    NetKeepsChainOk(w.chain, Include(raw, ok));
    if raw.from == owner {
      var k :| 0 <= k < |w.table| && w.table[k].raw == raw;
      assert RowOk(w.table[k]);
      PendingIfUnused(w.table, w.chain, k);
      FindAppend(w.chain.included, Inclusion(raw, ok), raw);
      assert HasPending(w.table, owner);
      forall pid | pid in w.procs ensures ProcLive(w.procs[pid], d, owner) {
        assert ProcOk(w.procs[pid], w.table, w.chain);
      }
      forall i | 0 <= i < |w.table| && w.table[i].owner == owner ensures RowLive(w.table[i], d) {
        if w.table[i].status == Pending { assert i == k; }
      }
    } else {
      forall pid | pid in w.procs ensures ProcLive(w.procs[pid], d, owner) {
        assert ProcLive(w.procs[pid], w.chain, owner);
      }
      forall i | 0 <= i < |w.table| && w.table[i].owner == owner ensures RowLive(w.table[i], d) {
        assert RowLive(w.table[i], w.chain);
        assert Find(w.chain.included, w.table[i].hash.raw).Some? ==> Find(d.included, w.table[i].hash.raw).Some?;
      }
    }
  }

  lemma ForeignKeepsLive(w: World, raw: Raw, owner: Account)
    requires Live(w, owner) && raw.from != owner
    ensures Live(w.(chain := Broadcast(w.chain, raw), foreign := w.foreign + {raw}), owner)
  {
    var d := Broadcast(w.chain, raw);
    assert Latest(d, owner) == Latest(w.chain, owner) && d.included == w.chain.included;
  }

  lemma ObserveKeepsLive(w: World, id: Id, owner: Account)
    requires Inv(w) && Live(w, owner)
    ensures Live(w.(table := Reconcile(w.table, w.chain, id)), owner)
  {
    ObserveKeepsInv(w, id);
    assert |Reconcile(w.table, w.chain, id)| == |w.table|;
  }

  lemma StepKeepsLive(w: World, s: Step, owner: Account)
    requires Inv(w) && Live(w, owner) && Can(w, s) && NoForeign(Do(w, s), owner)
    ensures Live(Do(w, s), owner)
  {
    match s
    case Tick(pid, c) => TickKeepsLive(w, pid, c, owner);
    case Network(n) =>
      if n.Include? { IncludeKeepsLive(w, n.raw, n.ok, owner); }
    case Foreign(raw) =>
      assert raw in Do(w, s).foreign;
      ForeignKeepsLive(w, raw, owner);
    case Observe(id) => ObserveKeepsLive(w, id, owner);
    case _ =>
  }

  lemma {:induction false} ForeignGrows(w: World, steps: seq<Step>)
    requires CanRun(w, steps)
    ensures w.foreign <= Run(w, steps).foreign
    decreases |steps|
  {
    if steps != [] { ForeignGrows(Do(w, steps[0]), steps[1..]); }
  }

  lemma {:induction false} RunKeepsLive(w: World, steps: seq<Step>, owner: Account)
    requires Inv(w) && Live(w, owner) && CanRun(w, steps) && NoForeign(Run(w, steps), owner)
    ensures Live(Run(w, steps), owner)
    decreases |steps|
  {
    if steps != [] {
      var v := Do(w, steps[0]);
      ForeignGrows(v, steps[1..]);
      StepKeepsInv(w, steps[0]);
      StepKeepsLive(w, steps[0], owner);
      RunKeepsLive(v, steps[1..], owner);
    }
  }

  // ---- an undisturbed rerun

  const SMOOTH := Choice(0, 0, true, true)

  /** Only process `pid` runs, and nothing kills it. The network, the hub, the receipt watcher,
      arriving calls and other signers go on as they like. */
  predicate Quiet(s: Step, pid: nat) {
    match s
    case Tick(p, _) => p == pid
    case Crash(p) => p != pid
    case _ => true
  }

  predicate AllQuiet(steps: seq<Step>, pid: nat) {
    forall s :: s in steps ==> Quiet(s, pid)
  }

  ghost predicate OnlyPending(t: Table, owner: Account, id: Id) {
    forall i :: 0 <= i < |t| && t[i].owner == owner && t[i].status == Pending ==> t[i].id == id
  }

  /** How the call ends when its row has been settled. */
  function EndOf(req: Request, r: Row): Ending {
    if r.status == Confirmed then Returned(req, r.hash) else Refused
  }

  predicate Resolving(phase: Phase) {
    phase.Lookup? || phase.FetchReceipt? || phase.Send? || phase.Wait? || phase.Update? || phase.Finish?
  }

  /** A call of `submit` for an existing row: it has the lock or can take it, or is over with the row settled. */
  ghost predicate OnCourse(w: World, pc: Pc, req: Request, r: Row) {
    match pc
    case Start => w.lock.None?
    case Guard => true
    case Working(q, phase) => q == req && Resolving(phase)
    case Ended(e) => w.lock.None? && r.status != Pending && e == EndOf(req, r)
  }

  /** Process `pid` is such a call. */
  ghost predicate Recovering(w: World, pid: nat, req: Request, raw: Raw) {
    && Inv(w)
    && pid in w.procs && w.procs[pid].program == Submit(req)
    && RowOf(w.table, req.id).Some? && RowOf(w.table, req.id).value.raw == raw && Matches(req, raw)
    && OnCourse(w, w.procs[pid].pc, req, RowOf(w.table, req.id).value)
  }

  lemma OnlyPendingKept(t: Table, u: Table, owner: Account, id: Id)
    requires |t| == |u| && Grows(t, u) && OnlyPending(t, owner, id)
    ensures OnlyPending(u, owner, id)
  {
    forall i | 0 <= i < |t|
      ensures u[i].id == t[i].id && u[i].owner == t[i].owner && (t[i].status != Pending ==> u[i] == t[i]) {}
  }

  lemma PendingIsOnly(t: Table, id: Id, owner: Account)
    requires TableOk(t) && RowOf(t, id).Some? && RowOf(t, id).value.status == Pending && RowOf(t, id).value.owner == owner
    ensures OnlyPending(t, owner, id)
  {
    var k :| 0 <= k < |t| && t[k] == RowOf(t, id).value;
    forall i | 0 <= i < |t| && t[i].owner == owner && t[i].status == Pending ensures t[i].id == id {
      assert i == k;
    }
  }

  /** Two states alike in all that `Recovering` reads. */
  lemma RecoveringFrame(w: World, v: World, pid: nat, req: Request, raw: Raw)
    requires Recovering(w, pid, req, raw) && Inv(v)
    requires v.table == w.table && v.lock == w.lock && pid in v.procs && v.procs[pid] == w.procs[pid]
    ensures Recovering(v, pid, req, raw)
  {
  }

  lemma TickRecovers(w: World, pid: nat, req: Request, raw: Raw, c: Choice)
    requires Recovering(w, pid, req, raw)
    ensures Recovering(TickProc(w, pid, c), pid, req, raw) && |TickProc(w, pid, c).table| == |w.table|
  {
    TickKeepsInv(w, pid, c);
    RowFoundIsOk(w.table, req.id);
    assert ProcOk(w.procs[pid], w.table, w.chain);
    match w.procs[pid].pc
    case Working(q, phase) =>
      if phase.Update? {
        UpdateRecovers(w, pid, req, raw, phase.ok, c);
      } else {
        ReadRecovers(w, pid, req, raw, phase, c);
      }
    case _ =>
  }

  /** The awaits that leave the row as it is. */
  lemma ReadRecovers(w: World, pid: nat, req: Request, raw: Raw, phase: Phase, c: Choice)
    requires Recovering(w, pid, req, raw) && w.procs[pid].pc == Working(req, phase) && !phase.Update?
    requires RowOk(RowOf(w.table, req.id).value) && ProcOk(w.procs[pid], w.table, w.chain)
    ensures var v := TickWork(w, pid, req, phase, c);
      && v.table == w.table && pid in v.procs && v.procs[pid].program == Submit(req)
      && OnCourse(v, v.procs[pid].pc, req, RowOf(w.table, req.id).value)
  {
  }

  lemma UpdateRecovers(w: World, pid: nat, req: Request, raw: Raw, ok: bool, c: Choice)
    requires Recovering(w, pid, req, raw) && w.procs[pid].pc == Working(req, Update(raw, ok))
    requires Inv(TickProc(w, pid, c))
    ensures Recovering(TickProc(w, pid, c), pid, req, raw) && |TickProc(w, pid, c).table| == |w.table|
  {
    assert TickProc(w, pid, c) ==
      Go(w, pid, Working(req, Finish(raw, ok))).(table := SetStatus(w.table, req.id, Outcome(ok)));
    RowOfSetStatus(w.table, req.id, Outcome(ok), req.id);
  }

  /** The receipt watcher may settle the row at any time. */
  lemma ObserveRecovers(w: World, pid: nat, req: Request, raw: Raw, id: Id)
    requires Recovering(w, pid, req, raw)
    ensures Recovering(w.(table := Reconcile(w.table, w.chain, id)), pid, req, raw)
    ensures |Reconcile(w.table, w.chain, id)| == |w.table|
  {
    ObserveKeepsInv(w, id);
    var r := RowOf(w.table, id);
    if r.Some? && r.value.status == Pending && Receipt(w.chain, r.value.hash).Some? {
      var s := Outcome(Receipt(w.chain, r.value.hash).value);
      RowOfSetStatus(w.table, id, s, req.id);
    }
  }

  lemma QuietStepRecovers(w: World, s: Step, pid: nat, req: Request, raw: Raw)
    requires Recovering(w, pid, req, raw) && Can(w, s) && Quiet(s, pid)
    ensures Recovering(Do(w, s), pid, req, raw) && |Do(w, s).table| == |w.table|
  {
    match s
    case Tick(_, c) => TickRecovers(w, pid, req, raw, c);
    case Observe(id) => ObserveRecovers(w, pid, req, raw, id);
    case _ =>
      StepKeepsInv(w, s);
      RecoveringFrame(w, Do(w, s), pid, req, raw);
  }

  lemma {:induction false} QuietRunRecovers(w: World, more: seq<Step>, pid: nat, req: Request, raw: Raw)
    requires Recovering(w, pid, req, raw) && CanRun(w, more) && AllQuiet(more, pid)
    ensures Recovering(Run(w, more), pid, req, raw) && |Run(w, more).table| == |w.table|
    decreases |more|
  {
    if more != [] {
      QuietStepRecovers(w, more[0], pid, req, raw);
      QuietRunRecovers(Do(w, more[0]), more[1..], pid, req, raw);
    }
  }

  /** Nothing makes a call for a new id refuse: no row is pending, and the answer to the pending
      count is the account nonce. */
  ghost predicate Unblocked(w: World, owner: Account) {
    && w.lock.None? && !HasPending(w.table, owner)
    && forall n: nat :: IsPendingCount(w.chain, owner, n) <==> n == Latest(w.chain, owner)
  }

  /** The row has the outcome of its transaction, and the call has returned or thrown by it. */
  ghost predicate Resolved(w: World, pid: nat, req: Request, raw: Raw) {
    && RowOf(w.table, req.id).Some? && RowOf(w.table, req.id).value.raw == raw
    && Receipt(w.chain, Keccak(raw)).Some?
    && var ok := Receipt(w.chain, Keccak(raw)).value;
      && RowOf(w.table, req.id).value.status == Outcome(ok)
      && pid in w.procs && w.procs[pid].pc == Ended(if ok then Returned(req, Keccak(raw)) else Refused)
  }

  lemma SettledUnblocks(w: World, owner: Account)
    requires Inv(w) && NoForeign(w, owner) && w.lock.None? && !HasPending(w.table, owner)
    ensures Unblocked(w, owner)
  {
    SettledBelow(w.table, w.chain, owner);
    forall raw | raw in w.chain.mempool && raw.from == owner ensures raw.nonce < Latest(w.chain, owner) {
      var i :| 0 <= i < |w.table| && w.table[i].raw == raw;
      assert RowOk(w.table[i]);
    }
    assert !Queued(w.chain, owner, Latest(w.chain, owner));
  }

  lemma EndedIsResolved(w: World, pid: nat, req: Request, raw: Raw)
    requires Recovering(w, pid, req, raw) && OnlyPending(w.table, raw.from, req.id)
    requires w.procs[pid].pc.Ended?
    ensures Resolved(w, pid, req, raw) && w.lock.None? && !HasPending(w.table, raw.from)
    ensures NoForeign(w, raw.from) ==> Unblocked(w, raw.from)
  {
    RowFoundIsOk(w.table, req.id);
    var r := RowOf(w.table, req.id).value;
    var k :| 0 <= k < |w.table| && w.table[k] == r;
    forall i | 0 <= i < |w.table| && w.table[i].owner == raw.from ensures w.table[i].status != Pending {
      if w.table[i].status == Pending { RowOfAt(w.table, i); }
    }
    if NoForeign(w, raw.from) { SettledUnblocks(w, raw.from); }
  }

  /** After any run of the system: the row of `req` is pending and the lock is free. */
  ghost predicate Interrupted(w: World, steps: seq<Step>, req: Request) {
    && Init(w) && CanRun(w, steps)
    && var v := Run(w, steps);
      && v.lock.None? && RowOf(v.table, req.id).Some?
      && RowOf(v.table, req.id).value.status == Pending && Matches(req, RowOf(v.table, req.id).value.raw)
  }

  /** There `pid` calls `submit`, and `more` happens. */
  ghost predicate Rerun(w: World, steps: seq<Step>, pid: nat, req: Request, more: seq<Step>) {
    && Interrupted(w, steps, req) && pid !in Run(w, steps).procs
    && AllQuiet(more, pid) && CanRun(Do(Run(w, steps), Spawn(pid, Submit(req))), more)
  }

  ghost function RerunEnd(w: World, steps: seq<Step>, pid: nat, req: Request, more: seq<Step>): World
    requires Rerun(w, steps, pid, req, more)
  {
    Run(Do(Run(w, steps), Spawn(pid, Submit(req))), more)
  }

  /** The bytes that the pending row holds. */
  ghost function Journaled(w: World, steps: seq<Step>, req: Request): Raw
    requires Interrupted(w, steps, req)
  {
    RowOf(Run(w, steps).table, req.id).value.raw
  }

  lemma CallRecovers(w: World, steps: seq<Step>, pid: nat, req: Request)
    requires Interrupted(w, steps, req) && pid !in Run(w, steps).procs
    ensures Recovering(Do(Run(w, steps), Spawn(pid, Submit(req))), pid, req, Journaled(w, steps, req))
    ensures OnlyPending(Run(w, steps).table, Journaled(w, steps, req).from, req.id)
  {
    var v := Run(w, steps);
    InitOk(w);
    RunKeepsInv(w, steps);
    RowFoundIsOk(v.table, req.id);
    PendingIsOnly(v.table, req.id, RowOf(v.table, req.id).value.raw.from);
    StepKeepsInv(v, Spawn(pid, Submit(req)));
  }

  lemma RerunRecovers(w: World, steps: seq<Step>, pid: nat, req: Request, more: seq<Step>)
    requires Rerun(w, steps, pid, req, more)
    ensures var u := RerunEnd(w, steps, pid, req, more); var raw := Journaled(w, steps, req);
      Recovering(u, pid, req, raw) && OnlyPending(u.table, raw.from, req.id)
  {
    var start := Do(Run(w, steps), Spawn(pid, Submit(req)));
    var raw := Journaled(w, steps, req);
    CallRecovers(w, steps, pid, req);
    QuietRunRecovers(start, more, pid, req, raw);
    RunKeepsInv(start, more);
    OnlyPendingKept(start.table, Run(start, more).table, raw.from, req.id);
  }

  /** Recovery: whatever run led to a pending row, and whatever the network, the hub, the watcher
      and other signers do meanwhile, an undisturbed `submit` with the same id and arguments that
      gets to its end has resolved the row with the outcome of its transaction, and nothing of
      its owner is pending in the journal. If only these programs use the account, nothing is
      queued at a node either, and the owner is free for every other id. */
  lemma RecoveryProgress(w: World, steps: seq<Step>, pid: nat, req: Request, more: seq<Step>)
    requires Rerun(w, steps, pid, req, more)
    requires var u := RerunEnd(w, steps, pid, req, more); pid in u.procs && u.procs[pid].pc.Ended?
    ensures var u := RerunEnd(w, steps, pid, req, more); var raw := Journaled(w, steps, req);
      && Resolved(u, pid, req, raw) && u.lock.None? && !HasPending(u.table, raw.from)
      && (NoForeign(u, raw.from) ==> Unblocked(u, raw.from))
  {
    RerunRecovers(w, steps, pid, req, more);
    EndedIsResolved(RerunEnd(w, steps, pid, req, more), pid, req, Journaled(w, steps, req));
  }

  // ---- and it can get to its end

  /** The call waits for a transaction that no node holds: its broadcast failed, or was dropped. */
  ghost predicate Lost(w: World, pid: nat, req: Request, raw: Raw) {
    && pid in w.procs && w.procs[pid].pc == Working(req, Wait(raw))
    && raw !in w.chain.mempool && Receipt(w.chain, Keccak(raw)).None?
  }

  /** The call runs, and the network includes what it has, successfully. */
  predicate Fair(s: Step, pid: nat) {
    match s
    case Tick(p, _) => p == pid
    case Network(n) => n.Include? && n.ok
    case _ => false
  }

  predicate AllFair(steps: seq<Step>, pid: nat) {
    forall s :: s in steps ==> Fair(s, pid)
  }

  /** `more` takes the call to its end. */
  ghost predicate Completes(w: World, more: seq<Step>, pid: nat) {
    && CanRun(w, more) && AllFair(more, pid)
    && pid in Run(w, more).procs && Run(w, more).procs[pid].pc.Ended?
  }

  function StepsLeft(pc: Pc): nat {
    match pc
    case Start => 8
    case Guard => 7
    case Working(_, phase) =>
      (match phase
       case Lookup => 6 case FetchReceipt(_) => 5 case Send(_) => 4 case Wait(_) => 3
       case Update(_, _) => 2 case Finish(_, _) => 1 case _ => 0)
    case Ended(_) => 0
  }

  /** The transaction of the row is included, or is the next one of its account. */
  lemma IncludedOrNext(w: World, pid: nat, req: Request, raw: Raw)
    requires Recovering(w, pid, req, raw) && Live(w, raw.from)
    ensures Receipt(w.chain, Keccak(raw)).Some? || raw.nonce == Latest(w.chain, raw.from)
  {
    RowFoundIsOk(w.table, req.id);
    var r := RowOf(w.table, req.id).value;
    var k :| 0 <= k < |w.table| && w.table[k] == r;
    assert RowLive(w.table[k], w.chain);
  }

  lemma PhaseHolds(w: World, pid: nat, req: Request, raw: Raw)
    requires Recovering(w, pid, req, raw) && w.procs[pid].pc.Working?
    ensures match w.procs[pid].pc.phase
      case Lookup => true
      case FetchReceipt(r) => r == raw
      case Send(r) => r == raw
      case Wait(r) => r == raw
      case Update(r, _) => r == raw
      case Finish(r, _) => r == raw
      case _ => false
  {
    assert ProcOk(w.procs[pid], w.table, w.chain);
  }

  lemma SmoothRead(w: World, pid: nat, req: Request, phase: Phase, raw: Raw)
    requires pid in w.procs && w.procs[pid] == Proc(Submit(req), Working(req, phase))
    requires phase.Lookup? || ((phase.FetchReceipt? || phase.Wait?) && phase.raw == raw)
    requires RowOf(w.table, req.id).Some?
    requires Receipt(w.chain, Keccak(raw)).Some? || (!phase.Wait? && raw.nonce == Latest(w.chain, raw.from))
    ensures var v := TickWork(w, pid, req, phase, SMOOTH);
      && pid in v.procs && StepsLeft(v.procs[pid].pc) < StepsLeft(w.procs[pid].pc)
      && (v.procs[pid].pc == Working(req, Wait(raw)) ==> raw in v.chain.mempool || Receipt(v.chain, Keccak(raw)).Some?)
  {
  }

  lemma SmoothSend(w: World, pid: nat, req: Request, phase: Phase, raw: Raw)
    requires pid in w.procs && w.procs[pid] == Proc(Submit(req), Working(req, phase))
    requires phase == Send(raw)
    requires Receipt(w.chain, Keccak(raw)).Some? || raw.nonce == Latest(w.chain, raw.from)
    ensures var v := TickWork(w, pid, req, phase, SMOOTH);
      && pid in v.procs && StepsLeft(v.procs[pid].pc) < StepsLeft(w.procs[pid].pc)
      && (v.procs[pid].pc == Working(req, Wait(raw)) ==> raw in v.chain.mempool || Receipt(v.chain, Keccak(raw)).Some?)
  {
  }

  lemma SmoothSettle(w: World, pid: nat, req: Request, phase: Phase, raw: Raw)
    requires pid in w.procs && w.procs[pid] == Proc(Submit(req), Working(req, phase))
    requires (phase.Update? || phase.Finish?) && phase.raw == raw
    requires Receipt(w.chain, Keccak(raw)).Some? || raw.nonce == Latest(w.chain, raw.from)
    ensures var v := TickWork(w, pid, req, phase, SMOOTH);
      && pid in v.procs && StepsLeft(v.procs[pid].pc) < StepsLeft(w.procs[pid].pc)
      && (v.procs[pid].pc == Working(req, Wait(raw)) ==> raw in v.chain.mempool || Receipt(v.chain, Keccak(raw)).Some?)
  {
  }

  lemma SmoothTick(w: World, pid: nat, req: Request, raw: Raw)
    requires Recovering(w, pid, req, raw) && !w.procs[pid].pc.Ended?
    requires Receipt(w.chain, Keccak(raw)).Some? || raw.nonce == Latest(w.chain, raw.from)
    requires w.procs[pid].pc == Working(req, Wait(raw)) ==> Receipt(w.chain, Keccak(raw)).Some?
    ensures var v := TickProc(w, pid, SMOOTH);
      && pid in v.procs && StepsLeft(v.procs[pid].pc) < StepsLeft(w.procs[pid].pc) && !Lost(v, pid, req, raw)
  {
    if w.procs[pid].pc.Working? {
      PhaseHolds(w, pid, req, raw);
      var phase := w.procs[pid].pc.phase;
      if phase.Lookup? || phase.FetchReceipt? || phase.Wait? {
        SmoothRead(w, pid, req, phase, raw);
      } else if phase.Send? {
        SmoothSend(w, pid, req, phase, raw);
      } else {
        SmoothSettle(w, pid, req, phase, raw);
      }
    }
  }

  lemma Prepend(w: World, s: Step, more: seq<Step>, pid: nat)
    requires Can(w, s) && Fair(s, pid) && CanRun(Do(w, s), more) && AllFair(more, pid)
    ensures CanRun(w, [s] + more) && AllFair([s] + more, pid) && Run(w, [s] + more) == Run(Do(w, s), more)
  {
    assert ([s] + more)[1..] == more;
  }

  /** A step that brings the call closer to its end. */
  lemma Onward(w: World, pid: nat, req: Request, raw: Raw) returns (s: Step)
    requires Recovering(w, pid, req, raw) && Live(w, raw.from) && !Lost(w, pid, req, raw) && !w.procs[pid].pc.Ended?
    ensures Can(w, s) && Fair(s, pid) && pid in Do(w, s).procs && !Lost(Do(w, s), pid, req, raw)
    ensures Left(Do(w, s), pid, raw) < Left(w, pid, raw) && NoForeign(Do(w, s), raw.from)
  {
    IncludedOrNext(w, pid, req, raw);
    if w.procs[pid].pc == Working(req, Wait(raw)) && Receipt(w.chain, Keccak(raw)).None? {
      s := Network(Include(raw, true));
      FindAppend(w.chain.included, Inclusion(raw, true), raw);
    } else {
      s := Tick(pid, SMOOTH);
      TickKeepsLive(w, pid, SMOOTH, raw.from);
      SmoothTick(w, pid, req, raw);
    }
  }

  function Left(w: World, pid: nat, raw: Raw): nat
    requires pid in w.procs
  {
    2 * StepsLeft(w.procs[pid].pc) + if Receipt(w.chain, Keccak(raw)).None? then 1 else 0
  }

  /** Unless its transaction is lost, an undisturbed call can get to its end from wherever it stands. */
  lemma {:induction false} CanComplete(w: World, pid: nat, req: Request, raw: Raw) returns (more: seq<Step>)
    requires Recovering(w, pid, req, raw) && Live(w, raw.from) && !Lost(w, pid, req, raw)
    ensures Completes(w, more, pid) && Recovering(Run(w, more), pid, req, raw)
    decreases Left(w, pid, raw)
  {
    if w.procs[pid].pc.Ended? {
      more := [];
      assert CanRun(w, []) && Run(w, []) == w;
    } else {
      var s := Onward(w, pid, req, raw);
      QuietStepRecovers(w, s, pid, req, raw);
      StepKeepsLive(w, s, raw.from);
      more := CanComplete(Do(w, s), pid, req, raw);
      Prepend(w, s, more, pid);
      more := [s] + more;
    }
  }

  lemma LostStays(w: World, s: Step, pid: nat, req: Request, raw: Raw)
    requires Recovering(w, pid, req, raw) && Lost(w, pid, req, raw) && Can(w, s) && Fair(s, pid)
    ensures Lost(Do(w, s), pid, req, raw)
  {
    if s.Network? { FindAppend(w.chain.included, Inclusion(s.net.raw, s.net.ok), raw); }
  }

  lemma {:induction false} LostForGood(w: World, more: seq<Step>, pid: nat, req: Request, raw: Raw)
    requires Recovering(w, pid, req, raw) && Lost(w, pid, req, raw)
    requires CanRun(w, more) && AllFair(more, pid)
    ensures Lost(Run(w, more), pid, req, raw)
    decreases |more|
  {
    if more != [] {
      assert Fair(more[0], pid);
      LostStays(w, more[0], pid, req, raw);
      QuietStepRecovers(w, more[0], pid, req, raw);
      LostForGood(Do(w, more[0]), more[1..], pid, req, raw);
    }
  }

  lemma RerunIsLive(w: World, steps: seq<Step>, pid: nat, req: Request, more: seq<Step>)
    requires Rerun(w, steps, pid, req, more) && NoForeign(RerunEnd(w, steps, pid, req, more), Journaled(w, steps, req).from)
    ensures Live(RerunEnd(w, steps, pid, req, more), Journaled(w, steps, req).from)
  {
    var v, raw := Run(w, steps), Journaled(w, steps, req);
    var start := Do(v, Spawn(pid, Submit(req)));
    InitOk(w);
    RunKeepsInv(w, steps);
    ForeignGrows(start, more);
    assert v.foreign <= RerunEnd(w, steps, pid, req, more).foreign;
    RunKeepsLive(w, steps, raw.from);
    StepKeepsInv(v, Spawn(pid, Submit(req)));
    StepKeepsLive(v, Spawn(pid, Submit(req)), raw.from);
    RunKeepsLive(start, more, raw.from);
  }

  /** At every moment of an undisturbed rerun, on an account that only these programs use, its end
      can still be reached, except exactly while it waits for a transaction that is neither
      included nor in the mempool. There only its timeout helps, and the next rerun is back at
      the start. */
  lemma CompletesIff(w: World, steps: seq<Step>, pid: nat, req: Request, more: seq<Step>)
    requires Rerun(w, steps, pid, req, more) && NoForeign(RerunEnd(w, steps, pid, req, more), Journaled(w, steps, req).from)
    ensures var u := RerunEnd(w, steps, pid, req, more);
      !Lost(u, pid, req, Journaled(w, steps, req)) <==> exists last :: Completes(u, last, pid)
  {
    var u, raw := RerunEnd(w, steps, pid, req, more), Journaled(w, steps, req);
    RerunRecovers(w, steps, pid, req, more);
    RerunIsLive(w, steps, pid, req, more);
    if !Lost(u, pid, req, raw) {
      var last := CanComplete(u, pid, req, raw);
    } else {
      forall last ensures !Completes(u, last, pid) {
        if CanRun(u, last) && AllFair(last, pid) { LostForGood(u, last, pid, req, raw); }
      }
    }
  }

  // ---- a call for a new id

  /** What the call has read so far, and that nothing stands in its way. */
  ghost predicate Creating(w: World, pid: nat, req: Request, pc: Pc) {
    && Inv(w) && Live(w, req.owner) && pid in w.procs && w.procs[pid] == Proc(Submit(req), pc)
    && RowOf(w.table, req.id).None? && !HasPending(w.table, req.owner)
    && IsPendingCount(w.chain, req.owner, Latest(w.chain, req.owner))
  }

  function Answer(w: World, owner: Account): Choice { Choice(Latest(w.chain, owner), 0, true, true) }

  lemma CreateStep(w: World, pid: nat, req: Request, pc: Pc, next: Pc)
    requires Creating(w, pid, req, pc)
    requires var n := Latest(w.chain, req.owner);
      match pc
      case Start => w.lock.None? && next == Guard
      case Guard => next == Working(req, Lookup)
      case Working(q, Lookup) => q == req && next == Working(req, CheckPending)
      case Working(q, CheckPending) => q == req && next == Working(req, ReadPending)
      case Working(q, ReadPending) => q == req && next == Working(req, ReadLatest(n))
      case Working(q, ReadLatest(m)) => q == req && m == n && next == Working(req, Prepare(n))
      case Working(q, Prepare(m)) => q == req && m == n && next == Working(req, Insert(FirstRaw(req, n)))
      case _ => false
    ensures Can(w, Tick(pid, Answer(w, req.owner)))
    ensures Creating(TickProc(w, pid, Answer(w, req.owner)), pid, req, next)
    ensures TickProc(w, pid, Answer(w, req.owner)).chain == w.chain
  {
    TickKeepsInv(w, pid, Answer(w, req.owner));
    TickKeepsLive(w, pid, Answer(w, req.owner), req.owner);
  }

  function FirstRaw(req: Request, n: nat): Raw { Raw(req.owner, n, req.to, req.data, req.value, 0) }

  /** The awaits from the start of the call to the insertion. */
  function Course(req: Request, n: nat): seq<Pc> {
    [Start, Guard, Working(req, Lookup), Working(req, CheckPending), Working(req, ReadPending),
     Working(req, ReadLatest(n)), Working(req, Prepare(n)), Working(req, Insert(FirstRaw(req, n)))]
  }

  lemma {:induction false} ReachInsert(w: World, pid: nat, req: Request, i: nat) returns (more: seq<Step>)
    requires i < 8 && Creating(w, pid, req, Course(req, Latest(w.chain, req.owner))[i]) && (i == 0 ==> w.lock.None?)
    ensures CanRun(w, more) && AllFair(more, pid)
    ensures Creating(Run(w, more), pid, req, Working(req, Insert(FirstRaw(req, Latest(w.chain, req.owner)))))
    ensures Run(w, more).chain == w.chain
    decreases 8 - i
  {
    var course := Course(req, Latest(w.chain, req.owner));
    if i == 7 {
      more := [];
    } else {
      CreateStep(w, pid, req, course[i], course[i + 1]);
      var s := Tick(pid, Answer(w, req.owner));
      more := ReachInsert(Do(w, s), pid, req, i + 1);
      Prepend(w, s, more, pid);
      more := [s] + more;
    }
  }

  lemma InsertRecovers(w: World, pid: nat, req: Request, raw: Raw)
    requires Creating(w, pid, req, Working(req, Insert(raw))) && raw == FirstRaw(req, raw.nonce)
    ensures var v := TickProc(w, pid, SMOOTH); Recovering(v, pid, req, raw) && Live(v, raw.from) && !Lost(v, pid, req, raw)
  {
    TickKeepsInv(w, pid, SMOOTH);
    TickKeepsLive(w, pid, SMOOTH, req.owner);
    InsertLeaves(w, pid, req, raw);
  }

  lemma InsertLeaves(w: World, pid: nat, req: Request, raw: Raw)
    requires Inv(w) && pid in w.procs && w.procs[pid] == Proc(Submit(req), Working(req, Insert(raw)))
    requires RowOf(w.table, req.id).None?
    ensures var v := TickProc(w, pid, SMOOTH);
      && pid in v.procs && v.procs[pid] == Proc(Submit(req), Working(req, FetchReceipt(raw)))
      && RowOf(v.table, req.id) == Some(RowFor(req, raw))
  {
    WorkInserts(w, pid, req, raw, SMOOTH);
    RowOfAppend(w.table, RowFor(req, raw), req.id);
  }

  lemma {:induction false} JoinRuns(w: World, first: seq<Step>, last: seq<Step>)
    requires CanRun(w, first) && CanRun(Run(w, first), last)
    ensures CanRun(w, first + last) && Run(w, first + last) == Run(Run(w, first), last)
    decreases |first|
  {
    if first == [] {
      assert first + last == last;
    } else {
      assert (first + last)[1..] == first[1..] + last;
      JoinRuns(Do(w, first[0]), first[1..], last);
    }
  }

  /** Where an account is unblocked, a call for a new id can journal its transaction and get to its end. */
  lemma NewIdCompletes(w: World, pid: nat, req: Request) returns (more: seq<Step>, raw: Raw)
    requires Inv(w) && Live(w, req.owner) && Unblocked(w, req.owner) && RowOf(w.table, req.id).None? && pid !in w.procs
    ensures var u := Do(w, Spawn(pid, Submit(req))); Completes(u, more, pid) && Recovering(Run(u, more), pid, req, raw)
  {
    StepKeepsInv(w, Spawn(pid, Submit(req)));
    StepKeepsLive(w, Spawn(pid, Submit(req)), req.owner);
    raw := FirstRaw(req, Latest(w.chain, req.owner));
    var u := Do(w, Spawn(pid, Submit(req)));
    var first := ReachInsert(u, pid, req, 0);
    more := FromInsert(u, pid, req, raw, first);
  }

  lemma FromInsert(w: World, pid: nat, req: Request, raw: Raw, first: seq<Step>) returns (more: seq<Step>)
    requires CanRun(w, first) && AllFair(first, pid) && raw == FirstRaw(req, raw.nonce)
    requires Creating(Run(w, first), pid, req, Working(req, Insert(raw)))
    ensures Completes(w, more, pid) && Recovering(Run(w, more), pid, req, raw)
  {
    var u := Run(w, first);
    InsertRecovers(u, pid, req, raw);
    var last := CanComplete(TickProc(u, pid, SMOOTH), pid, req, raw);
    Prepend(u, Tick(pid, SMOOTH), last, pid);
    JoinRuns(w, first, [Tick(pid, SMOOTH)] + last);
    more := first + ([Tick(pid, SMOOTH)] + last);
  }
}
