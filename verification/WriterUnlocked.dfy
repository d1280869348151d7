/** What remains when the database drops the session of a process that lives on, and with it the
    lock. The unique indexes and the resend of the same bytes still keep nonces apart and execute
    every operation at most once. That only one row of an account is pending is lost. */
module WriterUnlocked {
  import opened Options
  import opened Wire
  import opened Chain
  import opened Journal
  import opened Writers
  import opened WriterSafety
  import opened WriterResults
  import opened WriterRecovery
  import opened WriterBlocked

  /** Besides the steps of the system, whoever holds the lock may lose it and go on. */
  datatype LooseStep = Usual(step: Step) | LoseLock

  ghost predicate CanLoose(w: World, s: LooseStep) {
    s.Usual? ==> Can(w, s.step)
  }

  ghost function DoLoose(w: World, s: LooseStep): World
    requires CanLoose(w, s)
  {
    match s
    case Usual(step) => Do(w, step)
    case LoseLock => w.(lock := None)
  }

  ghost predicate CanRunLoose(w: World, steps: seq<LooseStep>)
    decreases |steps|
  {
    steps == [] || (CanLoose(w, steps[0]) && CanRunLoose(DoLoose(w, steps[0]), steps[1..]))
  }

  ghost function RunLoose(w: World, steps: seq<LooseStep>): World
    requires CanRunLoose(w, steps)
    decreases |steps|
  {
    if steps == [] then w else RunLoose(DoLoose(w, steps[0]), steps[1..])
  }

  // ---- what no step disturbs, lock or no lock

  ghost predicate NoncesApart(t: Table) {
    forall i, j :: 0 <= i < j < |t| && t[i].owner == t[j].owner ==> t[i].nonce != t[j].nonce
  }

  ghost predicate LooseData(t: Table, c: Chain, foreign: set<Raw>) {
    KeysOk(t) && NoncesApart(t) && ChainOk(c) && Settled(t, c) && Traced(t, c, foreign)
  }

  /** What a process knows of its own row. */
  ghost predicate OwnFacts(program: Program, req: Request, phase: Phase, t: Table, c: Chain) {
    match phase
    case Insert(raw) => raw.from == req.owner && Matches(req, raw)
    case FetchReceipt(raw) => Holds(program, req, raw, t)
    case Send(raw) => Holds(program, req, raw, t)
    case Wait(raw) => Holds(program, req, raw, t)
    case Update(raw, ok) => Holds(program, req, raw, t) && Receipt(c, Keccak(raw)) == Some(ok)
    case Finish(raw, ok) =>
      && Holds(program, req, raw, t) && Receipt(c, Keccak(raw)) == Some(ok)
      && RowOf(t, req.id).value.status == Outcome(ok)
    case _ => true
  }

  ghost predicate ProcLoose(p: Proc, t: Table, c: Chain) {
    match p.pc
    case Working(req, phase) => (p.program.Submit? ==> req == p.program.req) && OwnFacts(p.program, req, phase, t, c)
    case Ended(e) =>
      e.Returned? ==> (p.program.Submit? ==> e.req == p.program.req) && Delivered(p.program, e.req, e.hash, t)
    case _ => true
  }

  ghost predicate Loose(w: World) {
    LooseData(w.table, w.chain, w.foreign) && forall pid :: pid in w.procs ==> ProcLoose(w.procs[pid], w.table, w.chain)
  }

  lemma FactsStay(p: Proc, t: Table, u: Table, c: Chain, d: Chain)
    requires KeysOk(t) && KeysOk(u) && Grows(t, u) && Extends(c, d) && ProcLoose(p, t, c)
    ensures ProcLoose(p, u, d)
  {
    match p.pc
    case Working(req, phase) =>
      if RowOf(t, req.id).Some? { GrowsKeepsRow(t, u, req.id); }
      if phase.Update? || phase.Finish? { assert Find(c.included, phase.raw).Some?; }
    case Ended(e) =>
      if e.Returned? { GrowsKeepsRow(t, u, e.req.id); }
    case _ =>
  }

  /** A step that moves at most one process, and the data from one good state to another. */
  lemma LooseFrame(w: World, v: World, pid: nat)
    requires Loose(w) && LooseData(v.table, v.chain, v.foreign)
    requires Grows(w.table, v.table) && Extends(w.chain, v.chain)
    requires pid in v.procs && v.procs == w.procs[pid := v.procs[pid]]
    requires ProcLoose(v.procs[pid], v.table, v.chain)
    ensures Loose(v)
  {
    forall q | q in v.procs ensures ProcLoose(v.procs[q], v.table, v.chain) {
      if q != pid { FactsStay(w.procs[q], w.table, v.table, w.chain, v.chain); }
    }
  }

  /** A step outside the processes. */
  lemma LooseEnvironment(w: World, v: World)
    requires Loose(w) && LooseData(v.table, v.chain, v.foreign) && v.procs == w.procs
    requires Grows(w.table, v.table) && Extends(w.chain, v.chain)
    ensures Loose(v)
  {
    forall q | q in v.procs ensures ProcLoose(v.procs[q], v.table, v.chain) {
      FactsStay(w.procs[q], w.table, v.table, w.chain, v.chain);
    }
  }

  // ---- the table writes

  lemma LooseInsert(t: Table, c: Chain, foreign: set<Raw>, r: Row)
    requires LooseData(t, c, foreign) && CanInsert(t, r) && RowOk(r) && r.status == Pending
    ensures LooseData(t + [r], c, foreign) && Grows(t, t + [r])
  {
    var u := t + [r];
    forall raw | raw in RawsOf(t) ensures raw in RawsOf(u) {
      var i :| 0 <= i < |t| && t[i].raw == raw;
      assert u[i].raw == raw;
    }
  }

  lemma LooseResolve(t: Table, c: Chain, foreign: set<Raw>, id: Id, ok: bool)
    requires LooseData(t, c, foreign)
    requires RowOf(t, id).Some? && Receipt(c, RowOf(t, id).value.hash) == Some(ok)
    ensures var u := SetStatus(t, id, Outcome(ok)); LooseData(u, c, foreign) && Grows(t, u)
  {
    var u := SetStatus(t, id, Outcome(ok));
    forall i | 0 <= i < |t|
      ensures t[i].id == id ==> Receipt(c, t[i].hash) == Some(ok)
      ensures u[i] == t[i] || (t[i].status == Pending && u[i] == t[i].(status := Outcome(ok))) {
      if t[i].id == id { RowOfAt(t, i); }
    }
    SameRaws(t, u);
  }

  lemma RowIsOk(t: Table, id: Id)
    requires KeysOk(t) && RowOf(t, id).Some?
    ensures RowOk(RowOf(t, id).value) && RowOf(t, id).value.raw in RawsOf(t)
  {
    var i :| 0 <= i < |t| && t[i] == RowOf(t, id).value;
  }

  // ---- one await

  /** Only `pid` moves; nothing is included, and only the insertion and the update write. */
  lemma LooseMoves(w: World, pid: nat, req: Request, phase: Phase, c: Choice)
    requires pid in w.procs
    ensures var v := TickWork(w, pid, req, phase, c);
      pid in v.procs && v.procs == w.procs[pid := v.procs[pid]] && v.foreign == w.foreign
  {
    if Reading(phase) { LooseReadMoves(w, pid, req, phase, c); } else { LooseWriteMoves(w, pid, req, phase, c); }
  }

  lemma LooseReadMoves(w: World, pid: nat, req: Request, phase: Phase, c: Choice)
    requires pid in w.procs && Reading(phase)
    ensures var v := TickWork(w, pid, req, phase, c);
      pid in v.procs && v.procs == w.procs[pid := v.procs[pid]] && v.foreign == w.foreign
  {
  }

  lemma LooseWriteMoves(w: World, pid: nat, req: Request, phase: Phase, c: Choice)
    requires pid in w.procs && !Reading(phase)
    ensures var v := TickWork(w, pid, req, phase, c);
      pid in v.procs && v.procs == w.procs[pid := v.procs[pid]] && v.foreign == w.foreign
  {
  }

  lemma LooseLookup(w: World, pid: nat, req: Request, phase: Phase, c: Choice)
    requires Loose(w) && pid in w.procs && w.procs[pid].pc == Working(req, phase) && Reading(phase)
    ensures Loose(TickWork(w, pid, req, phase, c))
    ensures Grows(w.table, TickWork(w, pid, req, phase, c).table)
  {
    var v := TickWork(w, pid, req, phase, c);
    LooseMoves(w, pid, req, phase, c);
    assert ProcLoose(w.procs[pid], w.table, w.chain);
    if RowOf(w.table, req.id).Some? { RowIsOk(w.table, req.id); }
    ReadsOnly(w, pid, req, phase, c);
    LooseFrame(w, v, pid);
  }

  lemma ReadsOnly(w: World, pid: nat, req: Request, phase: Phase, c: Choice)
    requires pid in w.procs && w.procs[pid].pc == Working(req, phase) && Reading(phase)
    requires w.procs[pid].program.Submit? ==> req == w.procs[pid].program.req
    ensures var v := TickWork(w, pid, req, phase, c);
      v.table == w.table && v.chain == w.chain && pid in v.procs && ProcLoose(v.procs[pid], w.table, w.chain)
  {
  }

  lemma LooseInserts(w: World, pid: nat, req: Request, raw: Raw, c: Choice)
    requires Loose(w) && pid in w.procs && w.procs[pid].pc == Working(req, Insert(raw))
    ensures Loose(TickWork(w, pid, req, Insert(raw), c))
    ensures Grows(w.table, TickWork(w, pid, req, Insert(raw), c).table)
  {
    var v := TickWork(w, pid, req, Insert(raw), c);
    assert ProcLoose(w.procs[pid], w.table, w.chain);
    if CanInsert(w.table, RowFor(req, raw)) {
      LooseInsert(w.table, w.chain, w.foreign, RowFor(req, raw));
      RowOfAppend(w.table, RowFor(req, raw), req.id);
    }
    LooseFrame(w, v, pid);
  }

  lemma LooseSends(w: World, pid: nat, req: Request, phase: Phase, c: Choice)
    requires Loose(w) && pid in w.procs && w.procs[pid].pc == Working(req, phase)
    requires phase.FetchReceipt? || phase.Send? || phase.Wait?
    ensures Loose(TickWork(w, pid, req, phase, c))
    ensures Grows(w.table, TickWork(w, pid, req, phase, c).table)
  {
    var v := TickWork(w, pid, req, phase, c);
    assert ProcLoose(w.procs[pid], w.table, w.chain);
    RowIsOk(w.table, req.id);
    LooseMoves(w, pid, req, phase, c);
    SendsOwn(w, pid, req, phase, c);
    LooseBroadcast(w.table, w.chain, w.foreign, phase.raw);
    FactsStay(v.procs[pid], w.table, w.table, w.chain, v.chain);
    LooseFrame(w, v, pid);
  }

  lemma SendsOwn(w: World, pid: nat, req: Request, phase: Phase, c: Choice)
    requires pid in w.procs && w.procs[pid].pc == Working(req, phase)
    requires phase.FetchReceipt? || phase.Send? || phase.Wait?
    requires ProcLoose(w.procs[pid], w.table, w.chain)
    ensures var v := TickWork(w, pid, req, phase, c);
      && v.table == w.table && (v.chain == w.chain || v.chain == Broadcast(w.chain, phase.raw))
      && pid in v.procs && ProcLoose(v.procs[pid], w.table, w.chain)
  {
  }

  lemma LooseBroadcast(t: Table, c: Chain, foreign: set<Raw>, raw: Raw)
    requires LooseData(t, c, foreign) && (raw in RawsOf(t) || raw in foreign)
    ensures LooseData(t, Broadcast(c, raw), foreign) && Extends(c, Broadcast(c, raw))
  {
  }

  lemma LooseUpdates(w: World, pid: nat, req: Request, raw: Raw, ok: bool, c: Choice)
    requires Loose(w) && pid in w.procs && w.procs[pid].pc == Working(req, Update(raw, ok))
    ensures Loose(TickWork(w, pid, req, Update(raw, ok), c))
    ensures Grows(w.table, TickWork(w, pid, req, Update(raw, ok), c).table)
  {
    var v := TickWork(w, pid, req, Update(raw, ok), c);
    assert v == Go(w, pid, Working(req, Finish(raw, ok))).(table := SetStatus(w.table, req.id, Outcome(ok)));
    assert ProcLoose(w.procs[pid], w.table, w.chain);
    RowIsOk(w.table, req.id);
    LooseResolve(w.table, w.chain, w.foreign, req.id, ok);
    RowOfSetStatus(w.table, req.id, Outcome(ok), req.id);
    LooseFrame(w, v, pid);
  }

  lemma LooseFinishes(w: World, pid: nat, req: Request, raw: Raw, ok: bool, c: Choice)
    requires Loose(w) && pid in w.procs && w.procs[pid].pc == Working(req, Finish(raw, ok))
    ensures Loose(TickWork(w, pid, req, Finish(raw, ok), c))
    ensures Grows(w.table, TickWork(w, pid, req, Finish(raw, ok), c).table)
  {
    var v := TickWork(w, pid, req, Finish(raw, ok), c);
    assert ProcLoose(w.procs[pid], w.table, w.chain);
    RowIsOk(w.table, req.id);
    LooseMoves(w, pid, req, Finish(raw, ok), c);
    LooseFrame(w, v, pid);
  }

  lemma LooseWorks(w: World, pid: nat, req: Request, phase: Phase, c: Choice)
    requires Loose(w) && pid in w.procs && w.procs[pid].pc == Working(req, phase)
    ensures Loose(TickWork(w, pid, req, phase, c)) && Grows(w.table, TickWork(w, pid, req, phase, c).table)
  {
    match phase
    case Insert(raw) => LooseInserts(w, pid, req, raw, c);
    case FetchReceipt(_) => LooseSends(w, pid, req, phase, c);
    case Send(_) => LooseSends(w, pid, req, phase, c);
    case Wait(_) => LooseSends(w, pid, req, phase, c);
    case Update(raw, ok) => LooseUpdates(w, pid, req, raw, ok, c);
    case Finish(raw, ok) => LooseFinishes(w, pid, req, raw, ok, c);
    case _ => LooseLookup(w, pid, req, phase, c);
  }

  lemma LooseGuards(w: World, pid: nat)
    requires Loose(w) && pid in w.procs && w.procs[pid].pc.Guard?
    ensures Loose(TickGuard(w, pid)) && Grows(w.table, TickGuard(w, pid).table)
  {
    GuardAnyhow(w, pid);
    LooseFrame(w, TickGuard(w, pid), pid);
  }

  lemma GuardAnyhow(w: World, pid: nat)
    requires pid in w.procs
    ensures var v := TickGuard(w, pid);
      && pid in v.procs && v.procs == w.procs[pid := v.procs[pid]] && v.foreign == w.foreign
      && v.table == w.table && v.chain == w.chain && ProcLoose(v.procs[pid], w.table, w.chain)
  {
  }

  // ---- any step

  lemma LooseTick(w: World, pid: nat, c: Choice)
    requires Loose(w) && pid in w.procs
    ensures Loose(TickProc(w, pid, c)) && Grows(w.table, TickProc(w, pid, c).table)
  {
    match w.procs[pid].pc
    case Start => LooseFrame(w, TickProc(w, pid, c), pid);
    case Guard => LooseGuards(w, pid);
    case Working(req, phase) => LooseWorks(w, pid, req, phase, c);
    case Ended(_) =>
  }

  lemma LooseNet(w: World, n: NetStep)
    requires Loose(w) && CanNet(w.chain, n)
    ensures Loose(w.(chain := Net(w.chain, n)))
  {
    var d := Net(w.chain, n);
    NetKeepsChainOk(w.chain, n);
    forall i | 0 <= i < |w.table| && w.table[i].status != Pending
      ensures Receipt(d, w.table[i].hash) == Some(w.table[i].status == Confirmed) {
      assert Find(w.chain.included, w.table[i].hash.raw).Some?;
    }
    LooseEnvironment(w, w.(chain := d));
  }

  lemma LooseObserve(w: World, id: Id)
    requires Loose(w)
    ensures Loose(w.(table := Reconcile(w.table, w.chain, id))) && Grows(w.table, Reconcile(w.table, w.chain, id))
  {
    var u := Reconcile(w.table, w.chain, id);
    var r := RowOf(w.table, id);
    if r.Some? && r.value.status == Pending && Receipt(w.chain, r.value.hash).Some? {
      LooseResolve(w.table, w.chain, w.foreign, id, Receipt(w.chain, r.value.hash).value);
    }
    LooseEnvironment(w, w.(table := u));
  }

  lemma LooseForeign(w: World, raw: Raw)
    requires Loose(w)
    ensures Loose(w.(chain := Broadcast(w.chain, raw), foreign := w.foreign + {raw}))
  {
    var f := w.foreign + {raw};
    assert LooseData(w.table, w.chain, f);
    LooseBroadcast(w.table, w.chain, f, raw);
    LooseEnvironment(w, w.(chain := Broadcast(w.chain, raw), foreign := f));
  }

  lemma LooseStepKeeps(w: World, s: LooseStep)
    requires Loose(w) && CanLoose(w, s)
    ensures Loose(DoLoose(w, s)) && Grows(w.table, DoLoose(w, s).table)
  {
    match s
    case LoseLock =>
    case Usual(step) =>
      match step {
        case Tick(pid, c) => LooseTick(w, pid, c);
        case Crash(pid) => LooseFrame(w, Kill(w, pid), pid);
        case Network(n) => LooseNet(w, n);
        case Foreign(raw) => LooseForeign(w, raw);
        case Observe(id) => LooseObserve(w, id);
        case Spawn(_, _) =>
        case HubMoves(_, _) =>
      }
  }

  lemma {:induction false} LooseRunKeeps(w: World, steps: seq<LooseStep>)
    requires Loose(w) && CanRunLoose(w, steps)
    ensures Loose(RunLoose(w, steps))
    decreases |steps|
  {
    if steps != [] {
      LooseStepKeeps(w, steps[0]);
      LooseRunKeeps(DoLoose(w, steps[0]), steps[1..]);
    }
  }

  // ---- what remains, and what does not

  /** Of the transactions signed for `id` the chain holds at most one. */
  ghost predicate AtMostOnce(t: Table, c: Chain, id: Id) {
    forall j, k :: 0 <= j < |c.included| && 0 <= k < |c.included| ==>
      SignedFor(t, id, c.included[j].raw) && SignedFor(t, id, c.included[k].raw) ==> j == k
  }

  lemma KeyedOnce(t: Table, c: Chain, id: Id)
    requires KeysOk(t) && ChainOk(c)
    ensures AtMostOnce(t, c, id)
  {
    forall j, k | 0 <= j < |c.included| && 0 <= k < |c.included|
      && SignedFor(t, id, c.included[j].raw) && SignedFor(t, id, c.included[k].raw)
      ensures j == k {
      var x :| 0 <= x < |t| && t[x].id == id && t[x].raw == c.included[j].raw;
      var y :| 0 <= y < |t| && t[y].id == id && t[y].raw == c.included[k].raw;
      assert x == y;
    }
  }

  /** However often the lock is lost: rows have distinct ids, and distinct nonces for one owner;
      nothing the programs signed is known to the chain without its row; and every id is executed
      at most once. */
  lemma SafeWithoutLock(w: World, steps: seq<LooseStep>, id: Id)
    requires Init(w) && CanRunLoose(w, steps)
    ensures var v := RunLoose(w, steps);
      && (forall i, j :: 0 <= i < j < |v.table| ==> v.table[i].id != v.table[j].id)
      && NoncesApart(v.table) && Traced(v.table, v.chain, v.foreign) && AtMostOnce(v.table, v.chain, id)
  {
    assert Loose(w);
    LooseRunKeeps(w, steps);
    KeyedOnce(RunLoose(w, steps).table, RunLoose(w, steps).chain, id);
  }

  /** A call that returned has been executed exactly once, with the hash it returned. */
  lemma OnceWithoutLock(w: World, steps: seq<LooseStep>, pid: nat, req: Request, hash: Hash)
    requires Init(w) && CanRunLoose(w, steps)
    requires pid in RunLoose(w, steps).procs && RunLoose(w, steps).procs[pid].pc == Ended(Returned(req, hash))
    ensures var v := RunLoose(w, steps);
      Inclusion(hash.raw, true) in v.chain.included && AtMostOnce(v.table, v.chain, req.id)
    ensures SignedFor(RunLoose(w, steps).table, req.id, hash.raw)
  {
    assert Loose(w);
    LooseRunKeeps(w, steps);
    var v := RunLoose(w, steps);
    assert ProcLoose(v.procs[pid], v.table, v.chain);
    RowIsOk(v.table, req.id);
    var i :| 0 <= i < |v.table| && v.table[i] == RowOf(v.table, req.id).value;
    assert Find(v.chain.included, hash.raw) == Some(true);
    KeyedOnce(v.table, v.chain, req.id);
  }

  // ---- two rows of one account may be pending

  /** The first call has passed its checks when it loses the lock. */
  lemma FirstChecks(a: Request) returns (w: World, u: World)
    ensures Init(w) && Reaches(w, u)
    ensures u == World([], Some(0), map[0 := Proc(Submit(a), Working(a, ReadPending))], Chain(map[], {}, []), map[], {})
  {
    w := World([], None, map[], Chain(map[], {}, []), map[], {});
    Takes(w, Submit(a), a);
    var w1 := w.(lock := Some(0), procs := map[0 := Proc(Submit(a), Working(a, Lookup))]);
    Checks(w, w1, 0, a);
    u := Go(w1, 0, Working(a, ReadPending));
  }

  lemma SecondTakes(u: World, b: Request)
    requires u.lock.None? && 1 !in u.procs
    ensures Reaches(u, u.(lock := Some(1), procs := u.procs[1 := Proc(Submit(b), Working(b, Lookup))]))
  {
    ReachesSelf(u);
    ReachesNext(u, Spawn(1, Submit(b)), u);
    var u1 := u.(procs := u.procs[1 := Proc(Submit(b), Start)]);
    ReachesNext(u, Tick(1, SMOOTH), u1);
    var u2 := u.(lock := Some(1), procs := u.procs[1 := Proc(Submit(b), Guard)]);
    assert TickProc(u1, 1, SMOOTH) == u2;
    ReachesNext(u, Tick(1, SMOOTH), u2);
    assert TickGuard(u2, 1) == u.(lock := Some(1), procs := u.procs[1 := Proc(Submit(b), Working(b, Lookup))]);
  }

  /** The second call journals, and its transaction is included while its row is still pending. */
  lemma SecondLands(u: World, b: Request) returns (v: World)
    requires u.table == [] && u.lock.None? && 1 !in u.procs && u.chain == Chain(map[], {}, [])
    ensures var raw := FirstRaw(b, 0);
      && Reaches(u, v) && v.table == [RowFor(b, raw)] && v.chain == Chain(map[b.owner := 1], {}, [Inclusion(raw, true)])
      && v.procs == u.procs[1 := Proc(Submit(b), Working(b, Wait(raw)))]
  {
    var raw := FirstRaw(b, 0);
    SecondTakes(u, b);
    var u1 := u.(lock := Some(1), procs := u.procs[1 := Proc(Submit(b), Working(b, Lookup))]);
    SecondSigns(u, u1, b);
    var u2 := Go(u1, 1, Working(b, Send(raw))).(table := [RowFor(b, raw)]);
    Lands(u, u2, 1, b, raw);
    v := Go(u2, 1, Working(b, Wait(raw))).(chain := Chain(map[b.owner := 1], {}, [Inclusion(raw, true)]));
  }

  lemma SecondSigns(u: World, v: World, b: Request)
    requires Reaches(u, v) && v.table == [] && v.chain == Chain(map[], {}, [])
    requires 1 in v.procs && v.procs[1].pc == Working(b, Lookup)
    ensures Reaches(u, Go(v, 1, Working(b, Send(FirstRaw(b, 0)))).(table := [RowFor(b, FirstRaw(b, 0))]))
  {
    Checks(u, v, 1, b);
    var v1 := Go(v, 1, Working(b, ReadPending));
    Counts(u, v1, 1, b);
    assert Go(v1, 1, Working(b, Prepare(0))) == Go(v, 1, Working(b, Prepare(0)));
    var v2 := Go(v, 1, Working(b, Prepare(0)));
    Signs(u, v2, 1, b);
    assert Go(v2, 1, Working(b, Send(FirstRaw(b, 0)))) == Go(v, 1, Working(b, Send(FirstRaw(b, 0))));
  }

  /** The first call goes on where it stood, and finds the next nonce free. */
  lemma FirstInserts(u: World, v: World, a: Request, r: Row) returns (x: World)
    requires Reaches(u, v) && 0 in v.procs && v.procs[0] == Proc(Submit(a), Working(a, ReadPending))
    requires v.table == [r] && r.id != a.id && r.nonce == 0 && v.chain.mempool == {} && Latest(v.chain, a.owner) == 1
    ensures Reaches(u, x) && x.table == [r, RowFor(a, FirstRaw(a, 1))]
  {
    var raw := FirstRaw(a, 1);
    var c := Choice(1, 0, true, true);
    assert IsPendingCount(v.chain, a.owner, 1);
    ReachesNext(u, Tick(0, c), v);
    var v1 := Go(v, 0, Working(a, ReadLatest(1)));
    assert TickProc(v, 0, c) == v1;
    Moves(u, v1, 0, a, ReadLatest(1));
    var v2 := Go(v1, 0, Working(a, Prepare(1)));
    Moves(u, v2, 0, a, Prepare(1));
    var v3 := Go(v2, 0, Working(a, Insert(raw)));
    Moves(u, v3, 0, a, Insert(raw));
    x := TickWork(v3, 0, a, Insert(raw), SMOOTH);
    assert [r] + [RowFor(a, raw)] == [r, RowFor(a, raw)];
  }

  /** A call that loses the lock between its checks and its nonce lets another one in, and in the
      end both have a pending row. */
  lemma LostLockDoublesPending(a: Request, b: Request) returns (w: World, u: World, x: World)
    requires a.owner == b.owner && a.id != b.id
    ensures Init(w) && Reaches(w, u) && CanLoose(u, LoseLock) && Reaches(DoLoose(u, LoseLock), x)
    ensures |x.table| == 2 && x.table[0].owner == x.table[1].owner == a.owner
    ensures x.table[0].status == x.table[1].status == Pending
  {
    w, u := FirstChecks(a);
    var v := SecondLands(DoLoose(u, LoseLock), b);
    x := FirstInserts(DoLoose(u, LoseLock), v, a, RowFor(b, FirstRaw(b, 0)));
  }
}
