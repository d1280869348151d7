/** What every step of every program keeps, and what follows for whole runs. */
module WriterSafety {
  import opened Options
  import opened Wire
  import opened Chain
  import opened Journal
  import opened Writers

  /** No row of this id, nothing pending for this owner: what the two queries saw. */
  ghost predicate Clear(t: Table, req: Request) {
    RowOf(t, req.id).None? && !HasPending(t, req.owner)
  }

  /** The journaled bytes a process is about to send are those of its row. */
  ghost predicate Holds(program: Program, req: Request, raw: Raw, t: Table) {
    && RowOf(t, req.id).Some? && RowOf(t, req.id).value.raw == raw
    && (program.Submit? ==> Matches(req, raw))
  }

  /** What the lock holder may rely on, await by await. */
  ghost predicate Facts(program: Program, req: Request, phase: Phase, t: Table, c: Chain) {
    match phase
    case Lookup => true
    case CheckPending => RowOf(t, req.id).None?
    case ReadPending => Clear(t, req)
    case ReadLatest(_) => Clear(t, req)
    case Prepare(n) => Clear(t, req) && Below(t, req.owner, n) && n <= Latest(c, req.owner)
    case Insert(raw) =>
      && Clear(t, req) && raw.from == req.owner && Matches(req, raw)
      && Below(t, req.owner, raw.nonce) && raw.nonce <= Latest(c, req.owner)
    case FetchReceipt(raw) => Holds(program, req, raw, t)
    case Send(raw) => Holds(program, req, raw, t)
    case Wait(raw) => Holds(program, req, raw, t)
    case Update(raw, ok) => Holds(program, req, raw, t) && Receipt(c, Keccak(raw)) == Some(ok)
    case Finish(raw, ok) =>
      && Holds(program, req, raw, t) && Receipt(c, Keccak(raw)) == Some(ok)
      && RowOf(t, req.id).value.status == Outcome(ok)
  }

  /** A call that returned left a confirmed row with exactly its payload. */
  ghost predicate Delivered(program: Program, req: Request, hash: Hash, t: Table) {
    && RowOf(t, req.id).Some? && RowOf(t, req.id).value.hash == hash
    && RowOf(t, req.id).value.status == Confirmed
    && (program.Submit? ==> Matches(req, hash.raw))
  }

  ghost predicate ProcOk(p: Proc, t: Table, c: Chain) {
    match p.pc
    case Start => true
    case Guard => true
    case Working(req, phase) =>
      (p.program.Submit? ==> req == p.program.req) && Facts(p.program, req, phase, t, c)
    case Ended(e) =>
      e.Returned? ==> (p.program.Submit? ==> e.req == p.program.req) && Delivered(p.program, e.req, e.hash, t)
  }

  ghost predicate DataOk(t: Table, c: Chain, foreign: set<Raw>) {
    TableOk(t) && ChainOk(c) && Settled(t, c) && Traced(t, c, foreign)
  }

  ghost predicate LockOk(w: World) {
    && (w.lock.Some? ==> w.lock.value in w.procs && InSection(w.procs[w.lock.value].pc))
    && (forall pid :: pid in w.procs && InSection(w.procs[pid].pc) ==> w.lock == Some(pid))
  }

  ghost predicate ProcsOk(w: World) {
    forall pid :: pid in w.procs ==> ProcOk(w.procs[pid], w.table, w.chain)
  }

  ghost predicate Inv(w: World) {
    DataOk(w.table, w.chain, w.foreign) && LockOk(w) && ProcsOk(w)
  }

  // ---- facts survive what others do

  /** Rows settled by the watching service leave the lock holder's facts intact. */
  lemma ResolvedKeepsPending(t: Table, u: Table, owner: Account)
    requires |t| == |u| && Grows(t, u) && !HasPending(t, owner)
    ensures !HasPending(u, owner)
  {
    forall i | 0 <= i < |u| ensures !(u[i].owner == owner && u[i].status == Pending) {
      assert u[i] == t[i] || (t[i].status == Pending && u[i] == t[i].(status := u[i].status));
    }
  }

  lemma SettledFactsStable(p: Proc, t: Table, u: Table, c: Chain)
    requires TableOk(t) && TableOk(u) && |t| == |u| && Grows(t, u) && ProcOk(p, t, c)
    ensures ProcOk(p, u, c)
  {
    match p.pc
    case Start =>
    case Guard =>
    case Working(req, phase) =>
      if RowOf(t, req.id).Some? {
        GrowsKeepsRow(t, u, req.id);
      } else {
        forall i | 0 <= i < |u| ensures u[i].id != req.id { assert u[i].id == t[i].id; }
        if !HasPending(t, req.owner) { ResolvedKeepsPending(t, u, req.owner); }
        forall i | 0 <= i < |u| ensures u[i].owner == t[i].owner && u[i].nonce == t[i].nonce {}
      }
    case Ended(e) =>
      if e.Returned? { GrowsKeepsRow(t, u, e.req.id); }
  }

  lemma ChainFactsStable(p: Proc, t: Table, c: Chain, d: Chain)
    requires ProcOk(p, t, c) && Extends(c, d)
    ensures ProcOk(p, t, d)
  {
    if p.pc.Working? {
      assert Latest(c, p.pc.req.owner) <= Latest(d, p.pc.req.owner);
      match p.pc.phase
      case Update(raw, _) => assert Find(c.included, raw).Some?;
      case Finish(raw, _) => assert Find(c.included, raw).Some?;
      case _ =>
    }
  }

  /** A process outside the section has facts no table write can disturb. */
  lemma OutsideFactsStable(p: Proc, t: Table, u: Table, c: Chain)
    requires TableOk(t) && TableOk(u) && Grows(t, u) && ProcOk(p, t, c) && !InSection(p.pc)
    ensures ProcOk(p, u, c)
  {
    if p.pc.Ended? && p.pc.ending.Returned? { GrowsKeepsRow(t, u, p.pc.ending.req.id); }
  }

  // ---- one step of the lock holder

  /** The frame of a holder's step: only its own process, the table, the chain and the lock move. */
  lemma HolderStep(w: World, v: World, pid: nat, p: Proc)
    requires Inv(w) && w.lock == Some(pid)
    requires v.procs == w.procs[pid := p] && v.foreign == w.foreign
    requires v.lock == if InSection(p.pc) then Some(pid) else None
    requires Grows(w.table, v.table) && Extends(w.chain, v.chain)
    requires DataOk(v.table, v.chain, v.foreign)
    requires ProcOk(p, v.table, v.chain)
    ensures Inv(v)
  {
    forall q | q in v.procs ensures ProcOk(v.procs[q], v.table, v.chain) {
      if q != pid {
        OutsideFactsStable(w.procs[q], w.table, v.table, w.chain);
        ChainFactsStable(w.procs[q], v.table, w.chain, v.chain);
      }
    }
  }

  lemma BroadcastOk(t: Table, c: Chain, foreign: set<Raw>, raw: Raw)
    requires DataOk(t, c, foreign) && (raw in RawsOf(t) || raw in foreign)
    ensures DataOk(t, Broadcast(c, raw), foreign) && Extends(c, Broadcast(c, raw))
  {
  }

  lemma RowInRaws(t: Table, id: Id)
    requires RowOf(t, id).Some?
    ensures RowOf(t, id).value.raw in RawsOf(t)
  {
    var i :| 0 <= i < |t| && t[i] == RowOf(t, id).value;
  }

  /** Every settled row of an owner lies below the owner's account nonce. */
  lemma SettledBelow(t: Table, c: Chain, owner: Account)
    requires TableOk(t) && ChainOk(c) && Settled(t, c) && !HasPending(t, owner)
    ensures Below(t, owner, Latest(c, owner))
  {
    forall i | 0 <= i < |t| && t[i].owner == owner ensures t[i].nonce < Latest(c, owner) {
      assert t[i].status != Pending;
      assert Find(c.included, t[i].raw).Some?;
      var x :| 0 <= x < |c.included| && c.included[x].raw == t[i].raw;
    }
  }

  /** Only process `pid` has moved, and the lock goes with its section. */
  ghost predicate OwnStep(w: World, v: World, pid: nat) {
    && pid in v.procs && v.procs == w.procs[pid := v.procs[pid]] && v.foreign == w.foreign
    && v.lock == (if InSection(v.procs[pid].pc) then Some(pid) else None)
  }

  predicate Reading(phase: Phase) {
    phase.Lookup? || phase.CheckPending? || phase.ReadPending? || phase.ReadLatest? || phase.Prepare?
  }

  lemma ReadMoves(w: World, pid: nat, req: Request, phase: Phase, c: Choice)
    requires pid in w.procs && w.lock == Some(pid) && w.procs[pid].pc == Working(req, phase) && Reading(phase)
    ensures OwnStep(w, TickWork(w, pid, req, phase, c), pid)
  {
  }

  lemma WriteMoves(w: World, pid: nat, req: Request, phase: Phase, c: Choice)
    requires pid in w.procs && w.lock == Some(pid) && w.procs[pid].pc == Working(req, phase) && !Reading(phase)
    ensures OwnStep(w, TickWork(w, pid, req, phase, c), pid)
  {
  }

  /** An await of the holder moves only its own process, and drops the lock with the section. */
  lemma WorkMoves(w: World, pid: nat, req: Request, phase: Phase, c: Choice)
    requires pid in w.procs && w.lock == Some(pid) && w.procs[pid].pc == Working(req, phase)
    ensures OwnStep(w, TickWork(w, pid, req, phase, c), pid)
  {
    if Reading(phase) { ReadMoves(w, pid, req, phase, c); } else { WriteMoves(w, pid, req, phase, c); }
  }

  /** Only the insertion and the update write the table; no await of a process includes anything. */
  lemma WorkWrites(w: World, pid: nat, req: Request, phase: Phase, c: Choice)
    requires pid in w.procs
    ensures var v := TickWork(w, pid, req, phase, c);
      && (!phase.Insert? && !phase.Update? ==> v.table == w.table)
      && v.chain.included == w.chain.included && v.chain.nonces == w.chain.nonces
  {
  }

  lemma LookupFacts(w: World, pid: nat, req: Request, c: Choice)
    requires pid in w.procs && (w.procs[pid].program.Submit? ==> req == w.procs[pid].program.req)
    ensures var v := TickWork(w, pid, req, Lookup, c);
      pid in v.procs && v.table == w.table && v.chain == w.chain && ProcOk(v.procs[pid], w.table, w.chain)
  {
  }

  lemma WorkLooksUp(w: World, pid: nat, req: Request, c: Choice)
    requires Inv(w) && pid in w.procs && w.procs[pid].pc == Working(req, Lookup)
    ensures Inv(TickWork(w, pid, req, Lookup, c))
  {
    assert ProcOk(w.procs[pid], w.table, w.chain);
    WorkMoves(w, pid, req, Lookup, c);
    LookupFacts(w, pid, req, c);
    var v := TickWork(w, pid, req, Lookup, c);
    HolderStep(w, v, pid, v.procs[pid]);
  }

  /** The awaits between the lookup and the insertion only read. */
  lemma WorkReads(w: World, pid: nat, req: Request, phase: Phase, c: Choice)
    requires Inv(w) && pid in w.procs && w.procs[pid].pc == Working(req, phase)
    requires phase.CheckPending? || phase.ReadPending? || phase.ReadLatest? || phase.Prepare?
    ensures Inv(TickWork(w, pid, req, phase, c))
  {
    var v := TickWork(w, pid, req, phase, c);
    assert w.lock == Some(pid);
    assert ProcOk(w.procs[pid], w.table, w.chain);
    if phase.ReadLatest? { SettledBelow(w.table, w.chain, req.owner); }
    HolderStep(w, v, pid, v.procs[pid]);
  }

  lemma WorkInserts(w: World, pid: nat, req: Request, raw: Raw, c: Choice)
    requires Inv(w) && pid in w.procs && w.procs[pid].pc == Working(req, Insert(raw))
    ensures CanInsert(w.table, RowFor(req, raw))
    ensures Inv(TickWork(w, pid, req, Insert(raw), c))
    ensures Grows(w.table, TickWork(w, pid, req, Insert(raw), c).table)
  {
    assert w.lock == Some(pid);
    assert ProcOk(w.procs[pid], w.table, w.chain);
    InsertOk(w.table, w.chain, w.foreign, RowFor(req, raw));
    RowOfAppend(w.table, RowFor(req, raw), req.id);
    var v := TickWork(w, pid, req, Insert(raw), c);
    HolderStep(w, v, pid, v.procs[pid]);
  }

  lemma SendFacts(w: World, pid: nat, req: Request, phase: Phase, c: Choice)
    requires pid in w.procs && w.procs[pid].pc == Working(req, phase)
    requires phase.FetchReceipt? || phase.Send? || phase.Wait?
    requires ProcOk(w.procs[pid], w.table, w.chain)
    ensures var v := TickWork(w, pid, req, phase, c);
      && v.table == w.table && (v.chain == w.chain || v.chain == Broadcast(w.chain, phase.raw))
      && pid in v.procs && ProcOk(v.procs[pid], w.table, w.chain) && !v.procs[pid].pc.Ended?
  {
  }

  lemma WorkSends(w: World, pid: nat, req: Request, phase: Phase, c: Choice)
    requires Inv(w) && pid in w.procs && w.procs[pid].pc == Working(req, phase)
    requires phase.FetchReceipt? || phase.Send? || phase.Wait?
    ensures Inv(TickWork(w, pid, req, phase, c))
  {
    var v := TickWork(w, pid, req, phase, c);
    WorkMoves(w, pid, req, phase, c);
    SendFacts(w, pid, req, phase, c);
    RowInRaws(w.table, req.id);
    BroadcastOk(w.table, w.chain, w.foreign, phase.raw);
    ChainFactsStable(v.procs[pid], w.table, w.chain, v.chain);
    HolderStep(w, v, pid, v.procs[pid]);
  }

  lemma WorkUpdates(w: World, pid: nat, req: Request, raw: Raw, ok: bool, c: Choice)
    requires Inv(w) && pid in w.procs && w.procs[pid].pc == Working(req, Update(raw, ok))
    ensures Inv(TickWork(w, pid, req, Update(raw, ok), c))
    ensures Grows(w.table, TickWork(w, pid, req, Update(raw, ok), c).table)
  {
    var v := TickWork(w, pid, req, Update(raw, ok), c);
    assert w.lock == Some(pid);
    assert ProcOk(w.procs[pid], w.table, w.chain);
    RowFoundIsOk(w.table, req.id);
    ResolveOk(w.table, w.chain, w.foreign, req.id, ok);
    RowOfSetStatus(w.table, req.id, Outcome(ok), req.id);
    HolderStep(w, v, pid, v.procs[pid]);
  }

  lemma WorkFinishes(w: World, pid: nat, req: Request, raw: Raw, ok: bool, c: Choice)
    requires Inv(w) && pid in w.procs && w.procs[pid].pc == Working(req, Finish(raw, ok))
    ensures Inv(TickWork(w, pid, req, Finish(raw, ok), c))
  {
    var v := TickWork(w, pid, req, Finish(raw, ok), c);
    WorkMoves(w, pid, req, Finish(raw, ok), c);
    assert ProcOk(w.procs[pid], w.table, w.chain);
    assert ProcOk(v.procs[pid], w.table, w.chain) by { RowFoundIsOk(w.table, req.id); }
    HolderStep(w, v, pid, v.procs[pid]);
  }

  lemma RowFoundIsOk(t: Table, id: Id)
    requires TableOk(t) && RowOf(t, id).Some?
    ensures RowOk(RowOf(t, id).value)
  {
    var i :| 0 <= i < |t| && t[i] == RowOf(t, id).value;
  }

  /** The guard only decides where its own process goes next. */
  lemma GuardMoves(w: World, pid: nat)
    requires pid in w.procs && w.lock == Some(pid)
    ensures var v := TickGuard(w, pid);
      && pid in v.procs && v.procs == w.procs[pid := v.procs[pid]] && v.foreign == w.foreign
      && v.table == w.table && v.chain == w.chain
      && v.lock == (if InSection(v.procs[pid].pc) then Some(pid) else None)
      && match v.procs[pid].pc
         case Start => false
         case Guard => true
         case Working(req, phase) => phase == Lookup && (v.procs[pid].program.Submit? ==> req == v.procs[pid].program.req)
         case Ended(e) => !e.Returned?
  {
  }

  lemma GuardKeepsInv(w: World, pid: nat)
    requires Inv(w) && pid in w.procs && w.procs[pid].pc.Guard?
    ensures Inv(TickGuard(w, pid))
  {
    GuardMoves(w, pid);
    HolderStep(w, TickGuard(w, pid), pid, TickGuard(w, pid).procs[pid]);
  }

  // ---- any step of the system

  lemma WorkKeepsInv(w: World, pid: nat, req: Request, phase: Phase, c: Choice)
    requires Inv(w) && pid in w.procs && w.procs[pid].pc == Working(req, phase)
    ensures Inv(TickWork(w, pid, req, phase, c))
  {
    match phase
    case Lookup => WorkLooksUp(w, pid, req, c);
    case Insert(raw) => WorkInserts(w, pid, req, raw, c);
    case FetchReceipt(_) => WorkSends(w, pid, req, phase, c);
    case Send(_) => WorkSends(w, pid, req, phase, c);
    case Wait(_) => WorkSends(w, pid, req, phase, c);
    case Update(raw, ok) => WorkUpdates(w, pid, req, raw, ok, c);
    case Finish(raw, ok) => WorkFinishes(w, pid, req, raw, ok, c);
    case _ => WorkReads(w, pid, req, phase, c);
  }

  lemma TickKeepsInv(w: World, pid: nat, c: Choice)
    requires Inv(w) && pid in w.procs
    ensures Inv(TickProc(w, pid, c))
  {
    match w.procs[pid].pc
    case Start =>
    case Guard => GuardKeepsInv(w, pid);
    case Working(req, phase) => WorkKeepsInv(w, pid, req, phase, c);
    case Ended(_) =>
  }

  lemma WorkGrows(w: World, pid: nat, req: Request, phase: Phase, c: Choice)
    requires Inv(w) && pid in w.procs && w.procs[pid].pc == Working(req, phase)
    ensures Grows(w.table, TickWork(w, pid, req, phase, c).table)
  {
    match phase
    case Insert(raw) => WorkInserts(w, pid, req, raw, c);
    case Update(raw, ok) => WorkUpdates(w, pid, req, raw, ok, c);
    case _ => WorkWrites(w, pid, req, phase, c);
  }

  lemma NetKeepsInv(w: World, n: NetStep)
    requires Inv(w) && CanNet(w.chain, n)
    ensures Inv(w.(chain := Net(w.chain, n)))
  {
    var d := Net(w.chain, n);
    NetKeepsChainOk(w.chain, n);
    forall i | 0 <= i < |w.table| && w.table[i].status != Pending
      ensures Receipt(d, w.table[i].hash) == Some(w.table[i].status == Confirmed) {
      assert Find(w.chain.included, w.table[i].hash.raw).Some?;
    }
    forall q | q in w.procs ensures ProcOk(w.procs[q], w.table, d) {
      ChainFactsStable(w.procs[q], w.table, w.chain, d);
    }
  }

  lemma ForeignKeepsInv(w: World, raw: Raw)
    requires Inv(w)
    ensures Inv(w.(chain := Broadcast(w.chain, raw), foreign := w.foreign + {raw}))
  {
    var f := w.foreign + {raw};
    var d := Broadcast(w.chain, raw);
    assert DataOk(w.table, w.chain, f);
    BroadcastOk(w.table, w.chain, f, raw);
    forall q | q in w.procs ensures ProcOk(w.procs[q], w.table, d) {
      ChainFactsStable(w.procs[q], w.table, w.chain, d);
    }
  }

  lemma ObserveKeepsInv(w: World, id: Id)
    requires Inv(w)
    ensures Inv(w.(table := Reconcile(w.table, w.chain, id)))
    ensures Grows(w.table, Reconcile(w.table, w.chain, id))
  {
    var u := Reconcile(w.table, w.chain, id);
    var r := RowOf(w.table, id);
    if r.Some? && r.value.status == Pending && Receipt(w.chain, r.value.hash).Some? {
      ResolveOk(w.table, w.chain, w.foreign, id, Receipt(w.chain, r.value.hash).value);
    }
    forall q | q in w.procs ensures ProcOk(w.procs[q], u, w.chain) {
      SettledFactsStable(w.procs[q], w.table, u, w.chain);
    }
  }

  lemma CrashKeepsInv(w: World, pid: nat)
    requires Inv(w) && pid in w.procs
    ensures Inv(Kill(w, pid)) && Kill(w, pid).table == w.table
  {
    if InSection(w.procs[pid].pc) { HolderStep(w, Kill(w, pid), pid, Kill(w, pid).procs[pid]); }
  }

  lemma SpawnKeepsInv(w: World, pid: nat, program: Program)
    requires Inv(w) && pid !in w.procs
    ensures Inv(w.(procs := w.procs[pid := Proc(program, Start)]))
  {
  }

  lemma TickGrows(w: World, pid: nat, c: Choice)
    requires Inv(w) && pid in w.procs
    ensures Grows(w.table, TickProc(w, pid, c).table)
  {
    match w.procs[pid].pc
    case Start =>
    case Guard => GuardMoves(w, pid);
    case Working(req, phase) => WorkGrows(w, pid, req, phase, c);
    case Ended(_) =>
  }

  lemma StepKeepsInv(w: World, s: Step)
    requires Inv(w) && Can(w, s)
    ensures Inv(Do(w, s)) && Grows(w.table, Do(w, s).table)
  {
    match s
    case Spawn(pid, program) => SpawnKeepsInv(w, pid, program);
    case Tick(pid, c) =>
      TickKeepsInv(w, pid, c);
      TickGrows(w, pid, c);
    case Crash(pid) => CrashKeepsInv(w, pid);
    case Network(n) => NetKeepsInv(w, n);
    case Foreign(raw) => ForeignKeepsInv(w, raw);
    case HubMoves(_, _) =>
    case Observe(id) => ObserveKeepsInv(w, id);
  }

  lemma {:induction false} RunKeepsInv(w: World, steps: seq<Step>)
    requires Inv(w) && CanRun(w, steps)
    ensures Inv(Run(w, steps)) && Grows(w.table, Run(w, steps).table)
    decreases |steps|
  {
    if steps != [] {
      var v := Do(w, steps[0]);
      StepKeepsInv(w, steps[0]);
      RunKeepsInv(v, steps[1..]);
      GrowsTransitive(w.table, v.table, Run(v, steps[1..]).table);
    }
  }
}
