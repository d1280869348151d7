/** Runs of a deployment script over the shared journal: each operation is one `submit`
    of the writers' system, any step may be the last one of its process, and the receipt
    watcher of the account may settle a row at any time. */
module DeployRuns {
  import opened Options
  import opened Wire
  import opened Chain
  import opened Journal
  import opened Writers
  import opened WriterSafety
  import opened WriterRecovery
  import opened DeployScript
  import opened Keys

  /** One deployment: its account, its key prefix, the operations a manifest stands for, and
      the names they go by. */
  datatype Setup = Setup(prefix: string, owner: Account, plan: Manifest -> seq<Template>, naming: OpName -> string)

  /** A run holds the manifest in memory and the receipts' addresses so far. */
  datatype Runner = Off | On(m: Manifest, saved: bool, results: seq<Address>)

  /** `disk` is the manifest file; `pid` names the current submission. */
  datatype System = System(w: World, disk: Option<Manifest>, run: Runner, pid: nat)

  datatype Action =
    | Begin(source: Option<Snapshot>, now: nat)
    | Save
    | Call
    | Await(choice: Choice)
    | Take
    | Abort
    | Die
    | Mine(net: NetStep)
    | Watch(id: Id)

  function Resolve(r: Ref, results: seq<Address>): Word {
    match r
    case Here(word) => word
    case Result(op) => if op < |results| then At(results[op]) else Number(0)
  }

  function Head(su: Setup): string { su.prefix + ":" }

  function IdOf(su: Setup, t: Template): Id {
    Head(su) + su.naming(t.name)
  }

  function RequestOf(su: Setup, t: Template, results: seq<Address>): Request {
    Request(IdOf(su, t), su.owner,
            if t.to.Some? && t.to.value < |results| then Some(results[t.to.value]) else None,
            Data(t.head, seq(|t.args|, i requires 0 <= i < |t.args| => Resolve(t.args[i], results))), 0)
  }

  predicate Calling(s: System) {
    s.pid in s.w.procs
  }

  ghost predicate Allowed(su: Setup, s: System, a: Action) {
    match a
    case Begin(_, _) => s.run.Off?
    case Save => s.run.On? && !s.run.saved
    case Call => s.run.On? && s.run.saved && !Calling(s) && |s.run.results| < |su.plan(s.run.m)|
    case Await(c) => s.run.On? && Calling(s) && Can(s.w, Tick(s.pid, c))
    case Take => s.run.On? && Calling(s) && s.w.procs[s.pid].pc.Ended? && s.w.procs[s.pid].pc.ending.Returned?
    case Abort => s.run.On? && Calling(s) && s.w.procs[s.pid].pc.Ended? && !s.w.procs[s.pid].pc.ending.Returned?
    case Die => s.run.On?
    case Mine(n) => CanNet(s.w.chain, n)
    case Watch(id) => RowOf(s.w.table, id).Some? ==> RowOf(s.w.table, id).value.owner == su.owner
  }

  /** A fresh manifest takes its genesis from the snapshot, or from the clock. An existing
      one is kept, and the run stops unless its migration source is the given one. */
  function Opened(disk: Option<Manifest>, source: Option<Snapshot>, now: nat): Runner {
    match disk
    case None => On(Manifest(if source.Some? then source.value.genesis else now, source), false, [])
    case Some(m) => if m.source == source then On(m, false, []) else Off
  }

  ghost function Act(su: Setup, s: System, a: Action): System
    requires Allowed(su, s, a)
  {
    match a
    case Begin(source, now) => s.(run := Opened(s.disk, source, now))
    case Save => s.(disk := Some(s.run.m), run := s.run.(saved := true))
    case Call =>
      s.(w := Do(s.w, Spawn(s.pid, Submit(RequestOf(su, su.plan(s.run.m)[|s.run.results|], s.run.results)))))
    case Await(c) => s.(w := TickProc(s.w, s.pid, c))
    case Take =>
      var raw := s.w.procs[s.pid].pc.ending.hash.raw;
      s.(run := s.run.(results := s.run.results + [Created(raw.from, raw.nonce)]), pid := s.pid + 1)
    case Abort => s.(run := Off, pid := s.pid + 1)
    case Die =>
      s.(run := Off, pid := s.pid + 1,
         w := if Calling(s) && !s.w.procs[s.pid].pc.Ended? then Kill(s.w, s.pid) else s.w)
    case Mine(n) => s.(w := Do(s.w, Network(n)))
    case Watch(id) => s.(w := Do(s.w, Observe(id)))
  }

  ghost predicate CanAct(su: Setup, s: System, actions: seq<Action>)
    decreases |actions|
  {
    actions == [] || (Allowed(su, s, actions[0]) && CanAct(su, Act(su, s, actions[0]), actions[1..]))
  }

  ghost function After(su: Setup, s: System, actions: seq<Action>): System
    requires CanAct(su, s, actions)
    decreases |actions|
  {
    if actions == [] then s else After(su, Act(su, s, actions[0]), actions[1..])
  }

  // ---- what stands on the chain

  /** `raw` is operation `k` of the plan, signed at its own nonce with the addresses of the operations before it. */
  ghost predicate IsOp(su: Setup, plan: seq<Template>, base: nat, k: nat, raw: Raw)
    requires k < |plan|
  {
    && raw.from == su.owner && raw.nonce == base + k
    && Matches(RequestOf(su, plan[k], Addresses(su.owner, base, k)), raw)
  }

  /** The state before the deployment: earlier rows `t` and blocks `c`, no traffic of this account. */
  datatype Ground = Ground(t: Table, c: seq<Inclusion>, base: nat)

  /** Row `k` of this deployment. */
  function RowAt(g: Ground, t: Table, k: nat): Row
    requires |g.t| + k < |t|
  {
    t[|g.t| + k]
  }

  function BlockAt(g: Ground, c: seq<Inclusion>, k: nat): Inclusion
    requires |g.c| + k < |c|
  {
    c[|g.c| + k]
  }

  ghost predicate GroundOk(su: Setup, g: Ground) {
    && (forall m :: DistinctKeys(su, su.plan(m)))
    && OtherKeys(su, g.t)
    && !HasPending(g.t, su.owner)
  }

  ghost predicate DistinctKeys(su: Setup, plan: seq<Template>) {
    forall i, j :: 0 <= i < j < |plan| ==> su.naming(plan[i].name) != su.naming(plan[j].name)
  }

  ghost predicate OtherKeys(su: Setup, t: Table) {
    forall i :: 0 <= i < |t| ==> !(Head(su) <= t[i].id)
  }

  ghost predicate Fresh(su: Setup, g: Ground, s: System) {
    && GroundOk(su, g)
    && Inv(s.w) && NoForeign(s.w, su.owner) && s.w.procs == map[]
    && s.w.table == g.t && s.w.chain.included == g.c && s.w.chain.mempool == {}
    && Latest(s.w.chain, su.owner) == g.base
    && s.disk.None? && s.run.Off?
  }

  /** The rows of this deployment are the first operations of the saved manifest's plan, in order. */
  ghost predicate RowsOk(su: Setup, g: Ground, t: Table, disk: Option<Manifest>) {
    && |g.t| <= |t| && t[..|g.t|] == g.t
    && (|t| > |g.t| ==> disk.Some?)
    && (disk.Some? ==> PlanRows(su, g, t, su.plan(disk.value)))
  }

  ghost predicate PlanRows(su: Setup, g: Ground, t: Table, plan: seq<Template>)
    requires |g.t| <= |t|
  {
    && |t| - |g.t| <= |plan|
    && (forall k: nat :: k < |t| - |g.t| ==> RowIs(su, g, t, plan, k))
  }

  ghost predicate RowIs(su: Setup, g: Ground, t: Table, plan: seq<Template>, k: nat)
    requires |g.t| + k < |t|
  {
    && k < |plan|
    && RowAt(g, t, k).id == IdOf(su, plan[k])
    && IsOp(su, plan, g.base, k, RowAt(g, t, k).raw)
    && (|g.t| + k + 1 < |t| ==> RowAt(g, t, k).status == Confirmed)
  }

  /** The chain holds them in the same order, possibly short of the last one. */
  ghost predicate ChainIs(su: Setup, g: Ground, t: Table, c: Chain) {
    && |g.c| <= |c.included| && c.included[..|g.c|] == g.c
    && |g.t| + (|c.included| - |g.c|) <= |t| <= |g.t| + (|c.included| - |g.c|) + 1
    && (forall k: nat :: k < |c.included| - |g.c| ==> BlockAt(g, c.included, k).raw == RowAt(g, t, k).raw)
    && Latest(c, su.owner) == g.base + (|c.included| - |g.c|)
    && (forall raw :: raw in c.mempool ==> exists k: nat :: k < |t| - |g.t| && RowAt(g, t, k).raw == raw)
  }

  /** The run knows the addresses of confirmed operations only, and its current call is the next one. */
  ghost predicate RunnerOk(su: Setup, g: Ground, s: System) {
    && (forall pid :: pid in s.w.procs && !s.w.procs[pid].pc.Ended? ==> pid == s.pid && s.run.On?)
    && (forall pid :: pid in s.w.procs ==> pid <= s.pid)
    && (Calling(s) ==> s.run.On?)
    && (s.run.On? ==>
        && (s.run.saved ==> s.disk == Some(s.run.m))
        && (s.disk.Some? ==> s.disk == Some(s.run.m))
        && ResultsOk(su, g, s.w.table, s.run.results)
        && (Calling(s) ==>
              && s.run.saved && |s.run.results| < |su.plan(s.run.m)|
              && s.w.procs[s.pid].program == Submit(RequestOf(su, su.plan(s.run.m)[|s.run.results|], s.run.results))))
  }

  ghost predicate SystemInv(su: Setup, g: Ground, s: System) {
    && GroundOk(su, g) && Inv(s.w) && Live(s.w, su.owner)
    && RowsOk(su, g, s.w.table, s.disk) && ChainIs(su, g, s.w.table, s.w.chain) && RunnerOk(su, g, s)
  }

  // ---- reading the invariant

  lemma IdsDiffer(su: Setup, plan: seq<Template>, i: nat, j: nat)
    requires DistinctKeys(su, plan) && i < |plan| && j < |plan| && IdOf(su, plan[i]) == IdOf(su, plan[j])
    ensures i == j
  {
    SameHead(Head(su), su.naming(plan[i].name), su.naming(plan[j].name));
  }

  lemma RowHasKey(su: Setup, g: Ground, t: Table, plan: seq<Template>, k: nat)
    requires |g.t| <= |t| && PlanRows(su, g, t, plan) && k < |plan| && |g.t| + k < |t|
    ensures RowAt(g, t, k).id == IdOf(su, plan[k])
  {
    assert RowIs(su, g, t, plan, k);
  }

  lemma RowByKey(g: Ground, t: Table, k: nat, id: Id)
    requires TableOk(t) && |g.t| + k < |t| && RowAt(g, t, k).id == id
    ensures RowOf(t, id) == Some(RowAt(g, t, k))
  {
    RowOfAt(t, |g.t| + k);
  }

  /** The key of operation `k` finds row `k`, or nothing. */
  lemma KeyOf(su: Setup, g: Ground, t: Table, plan: seq<Template>, k: nat)
    requires TableOk(t) && |g.t| <= |t| && PlanRows(su, g, t, plan) && k < |plan|
    requires |g.t| + k < |t|
    ensures RowOf(t, IdOf(su, plan[k])) == Some(RowAt(g, t, k))
  {
    RowHasKey(su, g, t, plan, k);
    RowByKey(g, t, k, IdOf(su, plan[k]));
  }

  lemma NoKeyOf(su: Setup, g: Ground, t: Table, plan: seq<Template>, k: nat)
    requires OtherKeys(su, g.t) && DistinctKeys(su, plan)
    requires |g.t| <= |t| && t[..|g.t|] == g.t && PlanRows(su, g, t, plan) && k < |plan|
    requires |g.t| + k >= |t|
    ensures RowOf(t, IdOf(su, plan[k])).None?
  {
    var id := IdOf(su, plan[k]);
    forall i: nat | i < |t| ensures t[i].id != id {
      if i < |g.t| { NotGround(su, g, t, plan[k], i); } else { NotRow(su, g, t, plan, k, i - |g.t|); }
    }
  }

  lemma NotGround(su: Setup, g: Ground, t: Table, op: Template, i: nat)
    requires OtherKeys(su, g.t) && i < |g.t| <= |t| && t[..|g.t|] == g.t
    ensures t[i].id != IdOf(su, op)
  {
    assert t[i] == t[..|g.t|][i] == g.t[i];
    assert Head(su) <= IdOf(su, op);
  }

  lemma NotRow(su: Setup, g: Ground, t: Table, plan: seq<Template>, k: nat, j: nat)
    requires DistinctKeys(su, plan) && |g.t| <= |t| && PlanRows(su, g, t, plan) && k < |plan|
    requires |g.t| + j < |t| && j < k
    ensures t[|g.t| + j].id != IdOf(su, plan[k])
  {
    assert RowIs(su, g, t, plan, j);
    if IdOf(su, plan[j]) == IdOf(su, plan[k]) { IdsDiffer(su, plan, j, k); }
  }

  lemma LastIsPending(su: Setup, g: Ground, s: System)
    requires SystemInv(su, g, s) && |s.w.table| - |g.t| == |s.w.chain.included| - |g.c| + 1
    ensures HasPending(s.w.table, su.owner)
  {
    var n := |s.w.chain.included| - |g.c|;
    assert RowIs(su, g, s.w.table, su.plan(s.disk.value), n);
    assert RowOk(s.w.table[|g.t| + n]);
    PendingIfUnused(s.w.table, s.w.chain, |g.t| + n);
  }

  /** If nothing of the owner is pending, the chain has caught up with the rows. */
  lemma CaughtUp(su: Setup, g: Ground, s: System)
    requires SystemInv(su, g, s) && !HasPending(s.w.table, su.owner)
    ensures |s.w.table| - |g.t| == |s.w.chain.included| - |g.c|
  {
    if |s.w.table| - |g.t| == |s.w.chain.included| - |g.c| + 1 { LastIsPending(su, g, s); }
  }

  // ---- a submission's awaits

  /** What the insertion relies on: it is the next operation, at the next nonce. */
  lemma InsertsNext(su: Setup, g: Ground, s: System, req: Request, raw: Raw)
    requires SystemInv(su, g, s) && s.run.On? && Calling(s) && s.w.procs[s.pid].pc == Working(req, Insert(raw))
    ensures var k := |s.run.results|; var plan := su.plan(s.run.m);
      && |s.w.table| == |g.t| + k && |s.w.chain.included| == |g.c| + k && k < |plan|
      && s.disk == Some(s.run.m) && req.id == IdOf(su, plan[k]) && IsOp(su, plan, g.base, k, raw)
  {
    var plan, k := su.plan(s.run.m), |s.run.results|;
    assert ProcOk(s.w.procs[s.pid], s.w.table, s.w.chain);
    assert ProcLive(s.w.procs[s.pid], s.w.chain, su.owner);
    if |g.t| + k < |s.w.table| { KeyOf(su, g, s.w.table, plan, k); }
    CaughtUp(su, g, s);
  }

  lemma AppendKeepsRows(su: Setup, g: Ground, t: Table, plan: seq<Template>, r: Row)
    requires |g.t| <= |t| && PlanRows(su, g, t, plan) && |t| - |g.t| < |plan|
    requires forall k: nat :: k < |t| - |g.t| ==> RowAt(g, t, k).status == Confirmed
    requires r.id == IdOf(su, plan[|t| - |g.t|]) && IsOp(su, plan, g.base, |t| - |g.t|, r.raw)
    ensures PlanRows(su, g, t + [r], plan)
  {
    forall i: nat | i < |t + [r]| - |g.t| ensures RowIs(su, g, t + [r], plan, i) {
      if i < |t| - |g.t| {
        assert RowIs(su, g, t, plan, i);
        assert RowAt(g, t + [r], i) == RowAt(g, t, i);
      }
    }
  }

  lemma AppendKeepsChain(su: Setup, g: Ground, t: Table, c: Chain, r: Row)
    requires |g.t| <= |t| && ChainIs(su, g, t, c) && |c.included| - |g.c| == |t| - |g.t|
    ensures ChainIs(su, g, t + [r], c)
  {
    var u := t + [r];
    forall k: nat | k < |c.included| - |g.c| ensures BlockAt(g, c.included, k).raw == RowAt(g, u, k).raw {
      assert RowAt(g, u, k) == RowAt(g, t, k);
    }
    forall raw | raw in c.mempool ensures exists k: nat :: k < |u| - |g.t| && RowAt(g, u, k).raw == raw {
      var k: nat :| k < |t| - |g.t| && RowAt(g, t, k).raw == raw;
      assert RowAt(g, u, k).raw == raw;
    }
  }

  // ---- every action keeps the invariant

  /** The rows of operations the run has results for stay confirmed. */
  ghost predicate ResultsOk(su: Setup, g: Ground, t: Table, results: seq<Address>) {
    && |g.t| + |results| <= |t|
    && results == Addresses(su.owner, g.base, |results|)
    && forall k: nat :: k < |results| ==> RowAt(g, t, k).status == Confirmed
  }

  /** The three table facts of a deployment, for the given table and chain. */
  ghost predicate Stands(su: Setup, g: Ground, t: Table, c: Chain, s: System)
    requires s.run.On?
  {
    RowsOk(su, g, t, s.disk) && ChainIs(su, g, t, c) && ResultsOk(su, g, t, s.run.results)
  }

  ghost predicate Busy(su: Setup, g: Ground, s: System, req: Request, phase: Phase) {
    && SystemInv(su, g, s) && s.run.On? && Calling(s) && s.w.procs[s.pid].pc == Working(req, phase)
  }

  /** The current call is for the operation after the results. */
  lemma CallsNext(su: Setup, g: Ground, s: System, req: Request, phase: Phase)
    requires Busy(su, g, s, req, phase)
    ensures var plan := su.plan(s.run.m);
      && s.disk == Some(s.run.m) && |s.run.results| < |plan|
      && req == RequestOf(su, plan[|s.run.results|], s.run.results)
      && req.id == IdOf(su, plan[|s.run.results|])
      && PlanRows(su, g, s.w.table, plan)
  {
    assert ProcOk(s.w.procs[s.pid], s.w.table, s.w.chain);
  }

  /** A call that holds a row holds row `|results|`. */
  lemma HoldsNext(su: Setup, g: Ground, s: System, req: Request, phase: Phase)
    requires Busy(su, g, s, req, phase) && RowOf(s.w.table, req.id).Some?
    ensures |g.t| + |s.run.results| < |s.w.table|
    ensures RowOf(s.w.table, req.id) == Some(RowAt(g, s.w.table, |s.run.results|))
  {
    CallsNext(su, g, s, req, phase);
    var plan, k := su.plan(s.run.m), |s.run.results|;
    if |g.t| + k >= |s.w.table| { NoKeyOf(su, g, s.w.table, plan, k); }
    KeyOf(su, g, s.w.table, plan, k);
  }

  lemma InsertStands(su: Setup, g: Ground, s: System, req: Request, raw: Raw, c: Choice)
    requires Busy(su, g, s, req, Insert(raw))
    ensures var v := TickWork(s.w, s.pid, req, Insert(raw), c); Stands(su, g, v.table, v.chain, s)
  {
    InsertsNext(su, g, s, req, raw);
    CallsNext(su, g, s, req, Insert(raw));
    WorkInserts(s.w, s.pid, req, raw, c);
    var t, r := s.w.table, RowFor(req, raw);
    AppendKeepsRows(su, g, t, su.plan(s.run.m), r);
    AppendKeepsChain(su, g, t, s.w.chain, r);
    forall k: nat | k < |s.run.results| ensures RowAt(g, t + [r], k).status == Confirmed {
      assert RowAt(g, t + [r], k) == RowAt(g, t, k);
    }
  }

  lemma SetOne(t: Table, i: nat, st: Status)
    requires TableOk(t) && i < |t|
    ensures SetStatus(t, t[i].id, st) == t[i := t[i].(status := st)]
  {
    forall j | 0 <= j < |t| ensures t[j].id == t[i].id ==> j == i {}
  }

  lemma StatusStands(su: Setup, g: Ground, s: System, k: nat, st: Status)
    requires s.run.On? && |g.t| <= |s.w.table| && Stands(su, g, s.w.table, s.w.chain, s)
    requires |s.run.results| <= k && |g.t| + k < |s.w.table|
    requires |g.t| + k + 1 < |s.w.table| ==> st == Confirmed
    ensures var t := s.w.table; var i := |g.t| + k; Stands(su, g, t[i := t[i].(status := st)], s.w.chain, s)
  {
    var t, i := s.w.table, |g.t| + k;
    var u := t[i := t[i].(status := st)];
    StatusKeepsRows(su, g, t, k, st, s.disk);
    StatusKeepsChain(su, g, t, k, st, s.w.chain);
    assert forall j: nat :: j < |s.run.results| ==> RowAt(g, u, j) == RowAt(g, t, j);
  }

  lemma StatusKeepsRows(su: Setup, g: Ground, t: Table, k: nat, st: Status, disk: Option<Manifest>)
    requires |g.t| + k < |t| && RowsOk(su, g, t, disk) && (|g.t| + k + 1 < |t| ==> st == Confirmed)
    ensures RowsOk(su, g, t[|g.t| + k := t[|g.t| + k].(status := st)], disk)
  {
    var u := t[|g.t| + k := t[|g.t| + k].(status := st)];
    assert u[..|g.t|] == t[..|g.t|];
    forall j: nat | j < |u| - |g.t| ensures RowIs(su, g, u, su.plan(disk.value), j) {
      assert RowIs(su, g, t, su.plan(disk.value), j);
    }
  }

  lemma StatusKeepsChain(su: Setup, g: Ground, t: Table, k: nat, st: Status, c: Chain)
    requires |g.t| + k < |t| && ChainIs(su, g, t, c)
    ensures ChainIs(su, g, t[|g.t| + k := t[|g.t| + k].(status := st)], c)
  {
    var u := t[|g.t| + k := t[|g.t| + k].(status := st)];
    assert forall j: nat :: |g.t| + j < |u| ==> RowAt(g, u, j).raw == RowAt(g, t, j).raw;
    forall raw | raw in c.mempool ensures exists j: nat :: j < |u| - |g.t| && RowAt(g, u, j).raw == raw {
      var j: nat :| j < |t| - |g.t| && RowAt(g, t, j).raw == raw;
      assert RowAt(g, u, j).raw == raw;
    }
  }

  /** Settling a row that is not the last one only confirms it again. */
  lemma SettlesAgain(su: Setup, g: Ground, w: World, disk: Option<Manifest>, pid: nat, k: nat, req: Request, raw: Raw, ok: bool)
    requires Inv(w) && pid in w.procs && w.procs[pid].pc == Working(req, Update(raw, ok))
    requires RowsOk(su, g, w.table, disk) && |g.t| + k + 1 < |w.table|
    requires RowOf(w.table, req.id) == Some(RowAt(g, w.table, k))
    ensures ok
  {
    SettlingRow(w, pid, req, raw, ok);
    NotLastIsConfirmed(su, g, w.table, disk, k);
    ConfirmedSucceeded(w.table, w.chain, |g.t| + k, ok);
  }

  lemma SettlingRow(w: World, pid: nat, req: Request, raw: Raw, ok: bool)
    requires Inv(w) && pid in w.procs && w.procs[pid].pc == Working(req, Update(raw, ok))
    ensures RowOf(w.table, req.id).Some? && RowOf(w.table, req.id).value.raw == raw
    ensures Receipt(w.chain, Keccak(raw)) == Some(ok)
  {
    assert ProcOk(w.procs[pid], w.table, w.chain);
  }

  lemma NotLastIsConfirmed(su: Setup, g: Ground, t: Table, disk: Option<Manifest>, k: nat)
    requires RowsOk(su, g, t, disk) && |g.t| + k + 1 < |t|
    ensures RowAt(g, t, k).status == Confirmed
  {
    assert RowIs(su, g, t, su.plan(disk.value), k);
  }

  lemma ConfirmedSucceeded(t: Table, c: Chain, i: nat, ok: bool)
    requires TableOk(t) && Settled(t, c) && i < |t| && t[i].status == Confirmed
    requires Receipt(c, Keccak(t[i].raw)) == Some(ok)
    ensures ok
  {
    assert RowOk(t[i]);
  }

  lemma BusyStands(su: Setup, g: Ground, s: System, req: Request, phase: Phase)
    requires Busy(su, g, s, req, phase)
    ensures TableOk(s.w.table) && Stands(su, g, s.w.table, s.w.chain, s)
  {
  }

  lemma UpdateHolds(su: Setup, g: Ground, s: System, req: Request, raw: Raw, ok: bool)
    requires Busy(su, g, s, req, Update(raw, ok))
    ensures |g.t| + |s.run.results| < |s.w.table|
    ensures RowOf(s.w.table, req.id) == Some(RowAt(g, s.w.table, |s.run.results|))
  {
    assert RowOf(s.w.table, req.id).Some? by { assert ProcOk(s.w.procs[s.pid], s.w.table, s.w.chain); }
    HoldsNext(su, g, s, req, Update(raw, ok));
  }

  lemma UpdateStands(su: Setup, g: Ground, s: System, req: Request, raw: Raw, ok: bool, c: Choice)
    requires Busy(su, g, s, req, Update(raw, ok))
    ensures var v := TickWork(s.w, s.pid, req, Update(raw, ok), c); Stands(su, g, v.table, v.chain, s)
  {
    UpdateHolds(su, g, s, req, raw, ok);
    BusyStands(su, g, s, req, Update(raw, ok));
    UpdateSettles(su, g, s, req, raw, ok, c);
  }

  lemma UpdateSettles(su: Setup, g: Ground, s: System, req: Request, raw: Raw, ok: bool, c: Choice)
    requires Inv(s.w) && s.run.On? && Calling(s) && s.w.procs[s.pid].pc == Working(req, Update(raw, ok))
    requires Stands(su, g, s.w.table, s.w.chain, s) && |g.t| + |s.run.results| < |s.w.table|
    requires RowOf(s.w.table, req.id) == Some(RowAt(g, s.w.table, |s.run.results|))
    ensures var v := TickWork(s.w, s.pid, req, Update(raw, ok), c); Stands(su, g, v.table, v.chain, s)
  {
    OnlyLastFails(su, g, s.w, s.disk, s.pid, |s.run.results|, req, raw, ok);
    UpdateStandsAt(su, g, s, req, raw, ok, c);
  }

  lemma OnlyLastFails(su: Setup, g: Ground, w: World, disk: Option<Manifest>, pid: nat, k: nat, req: Request, raw: Raw, ok: bool)
    requires Inv(w) && pid in w.procs && w.procs[pid].pc == Working(req, Update(raw, ok))
    requires RowsOk(su, g, w.table, disk) && |g.t| + k < |w.table| && RowOf(w.table, req.id) == Some(RowAt(g, w.table, k))
    ensures |g.t| + k + 1 < |w.table| ==> ok
  {
    if |g.t| + k + 1 < |w.table| { SettlesAgain(su, g, w, disk, pid, k, req, raw, ok); }
  }

  lemma UpdateStandsAt(su: Setup, g: Ground, s: System, req: Request, raw: Raw, ok: bool, c: Choice)
    requires s.run.On? && Calling(s) && TableOk(s.w.table) && |g.t| + |s.run.results| < |s.w.table|
    requires s.w.table[|g.t| + |s.run.results|].id == req.id
    requires Stands(su, g, s.w.table, s.w.chain, s) && (|g.t| + |s.run.results| + 1 < |s.w.table| ==> ok)
    ensures var v := TickWork(s.w, s.pid, req, Update(raw, ok), c); Stands(su, g, v.table, v.chain, s)
  {
    StatusStands(su, g, s, |s.run.results|, Outcome(ok));
    UpdateWrites(s.w, s.pid, req, raw, ok, c, |g.t| + |s.run.results|);
  }

  lemma UpdateWrites(w: World, pid: nat, req: Request, raw: Raw, ok: bool, c: Choice, i: nat)
    requires pid in w.procs && TableOk(w.table) && i < |w.table| && w.table[i].id == req.id
    ensures var v := TickWork(w, pid, req, Update(raw, ok), c);
      v.table == w.table[i := w.table[i].(status := Outcome(ok))] && v.chain == w.chain
  {
    SetOne(w.table, i, Outcome(ok));
  }

  lemma SendStands(su: Setup, g: Ground, s: System, req: Request, raw: Raw)
    requires Busy(su, g, s, req, Send(raw))
    ensures Stands(su, g, s.w.table, Broadcast(s.w.chain, raw), s)
  {
    assert ProcOk(s.w.procs[s.pid], s.w.table, s.w.chain);
    HoldsNext(su, g, s, req, Send(raw));
    assert RowAt(g, s.w.table, |s.run.results|).raw == raw;
  }

  lemma QuietStands(su: Setup, g: Ground, s: System, req: Request, phase: Phase, c: Choice)
    requires Busy(su, g, s, req, phase) && !phase.Insert? && !phase.Update? && !phase.Send?
    ensures var v := TickWork(s.w, s.pid, req, phase, c); v.table == s.w.table && v.chain == s.w.chain
  {
    WorkWrites(s.w, s.pid, req, phase, c);
  }

  lemma WorkStands(su: Setup, g: Ground, s: System, req: Request, phase: Phase, c: Choice)
    requires Busy(su, g, s, req, phase)
    ensures var v := TickWork(s.w, s.pid, req, phase, c); Stands(su, g, v.table, v.chain, s)
  {
    match phase
    case Insert(raw) => InsertStands(su, g, s, req, raw, c);
    case Update(raw, ok) => UpdateStands(su, g, s, req, raw, ok, c);
    case Send(raw) =>
      SendStands(su, g, s, req, raw);
      WorkWrites(s.w, s.pid, req, phase, c);
    case _ => QuietStands(su, g, s, req, phase, c);
  }

  /** What an await may do to the processes of the run. */
  ghost predicate OwnMove(w: World, v: World, pid: nat) {
    pid in w.procs && pid in v.procs && v.procs == w.procs[pid := v.procs[pid]] && v.procs[pid].program == w.procs[pid].program
  }

  lemma WorkOwnMove(w: World, pid: nat, req: Request, phase: Phase, c: Choice)
    requires pid in w.procs && w.lock == Some(pid) && w.procs[pid].pc == Working(req, phase)
    requires w.procs[pid].program.Submit?
    ensures OwnMove(w, TickWork(w, pid, req, phase, c), pid)
  {
    WorkMoves(w, pid, req, phase, c);
    SameProgram(w, pid, req, phase, c);
  }

  lemma SameProgram(w: World, pid: nat, req: Request, phase: Phase, c: Choice)
    requires pid in w.procs && w.procs[pid].program.Submit?
    ensures pid in TickWork(w, pid, req, phase, c).procs
    ensures TickWork(w, pid, req, phase, c).procs[pid].program == w.procs[pid].program
  {
  }

  lemma AwaitStands(su: Setup, g: Ground, s: System, c: Choice)
    requires SystemInv(su, g, s) && s.run.On? && Calling(s)
    ensures var v := TickProc(s.w, s.pid, c); Stands(su, g, v.table, v.chain, s) && OwnMove(s.w, v, s.pid)
  {
    match s.w.procs[s.pid].pc
    case Working(req, phase) =>
      WorkStands(su, g, s, req, phase, c);
      WorkOwnMove(s.w, s.pid, req, phase, c);
    case _ =>
  }

  lemma AwaitKeeps(su: Setup, g: Ground, s: System, c: Choice)
    requires SystemInv(su, g, s) && Allowed(su, s, Await(c))
    ensures SystemInv(su, g, Act(su, s, Await(c)))
  {
    TickKeepsInv(s.w, s.pid, c);
    TickKeepsLive(s.w, s.pid, c, su.owner);
    AwaitStands(su, g, s, c);
    RunnerAfterAwait(su, g, s, TickProc(s.w, s.pid, c));
  }

  lemma RunnerAfterAwait(su: Setup, g: Ground, s: System, v: World)
    requires RunnerOk(su, g, s) && s.run.On? && Calling(s) && OwnMove(s.w, v, s.pid)
    requires ResultsOk(su, g, v.table, s.run.results)
    ensures RunnerOk(su, g, s.(w := v))
  {
  }

  // ---- the other actions

  /** What the network works on is a row of this deployment. */
  lemma MinedRow(su: Setup, g: Ground, s: System, raw: Raw) returns (k: nat)
    requires SystemInv(su, g, s) && raw in s.w.chain.mempool
    ensures k < |s.w.table| - |g.t| && RowAt(g, s.w.table, k).raw == raw
    ensures raw.from == su.owner && raw.nonce == g.base + k
  {
    k :| k < |s.w.table| - |g.t| && RowAt(g, s.w.table, k).raw == raw;
    assert RowIs(su, g, s.w.table, su.plan(s.disk.value), k);
  }

  lemma NetStands(su: Setup, g: Ground, s: System, n: NetStep)
    requires SystemInv(su, g, s) && CanNet(s.w.chain, n)
    ensures ChainIs(su, g, s.w.table, Net(s.w.chain, n))
  {
    var k := MinedRow(su, g, s, n.raw);
    NextBlock(su, g, s.w.table, s.w.chain, n, k);
  }

  lemma NextBlock(su: Setup, g: Ground, t: Table, c: Chain, n: NetStep, k: nat)
    requires ChainIs(su, g, t, c) && CanNet(c, n)
    requires |g.t| + k < |t| && RowAt(g, t, k).raw == n.raw && n.raw.from == su.owner && n.raw.nonce == g.base + k
    ensures ChainIs(su, g, t, Net(c, n))
  {
    var d := Net(c, n);
    var m := |c.included| - |g.c|;
    if n.Include? {
      assert k == m;
      assert forall j: nat :: j < m ==> BlockAt(g, d.included, j) == BlockAt(g, c.included, j);
      assert BlockAt(g, d.included, m).raw == n.raw;
      assert d.included[..|g.c|] == c.included[..|g.c|];
    }
  }

  lemma NetKeeps(su: Setup, g: Ground, s: System, n: NetStep)
    requires SystemInv(su, g, s) && CanNet(s.w.chain, n)
    ensures SystemInv(su, g, Act(su, s, Mine(n)))
  {
    StepKeepsInv(s.w, Network(n));
    StepKeepsLive(s.w, Network(n), su.owner);
    NetStands(su, g, s, n);
    RunnerFrame(su, g, s, Net(s.w.chain, n));
    assert Act(su, s, Mine(n)) == s.(w := s.w.(chain := Net(s.w.chain, n)));
  }

  lemma RunnerFrame(su: Setup, g: Ground, s: System, d: Chain)
    requires RunnerOk(su, g, s)
    ensures RunnerOk(su, g, s.(w := s.w.(chain := d)))
  {
  }

  lemma BeginKeeps(su: Setup, g: Ground, s: System, source: Option<Snapshot>, now: nat)
    requires SystemInv(su, g, s) && s.run.Off?
    ensures SystemInv(su, g, Act(su, s, Begin(source, now)))
  {
  }

  lemma SaveKeeps(su: Setup, g: Ground, s: System)
    requires SystemInv(su, g, s) && Allowed(su, s, Save)
    ensures SystemInv(su, g, Act(su, s, Save))
  {
  }

  lemma CallKeeps(su: Setup, g: Ground, s: System)
    requires SystemInv(su, g, s) && Allowed(su, s, Call)
    ensures SystemInv(su, g, Act(su, s, Call))
  {
    var p := Spawn(s.pid, Submit(RequestOf(su, su.plan(s.run.m)[|s.run.results|], s.run.results)));
    StepKeepsInv(s.w, p);
    StepKeepsLive(s.w, p, su.owner);
  }

  /** A call that returned settled row `|results|` at nonce `base + |results|`. */
  lemma TakesRow(su: Setup, g: Ground, s: System)
    requires SystemInv(su, g, s) && Allowed(su, s, Take)
    ensures var k := |s.run.results|; var raw := s.w.procs[s.pid].pc.ending.hash.raw;
      && |g.t| + k < |s.w.table| && RowAt(g, s.w.table, k).status == Confirmed
      && raw.from == su.owner && raw.nonce == g.base + k
  {
    var plan, k, t := su.plan(s.run.m), |s.run.results|, s.w.table;
    assert Delivered(s.w.procs[s.pid].program, s.w.procs[s.pid].pc.ending.req, s.w.procs[s.pid].pc.ending.hash, t) by {
      assert ProcOk(s.w.procs[s.pid], t, s.w.chain);
    }
    if |g.t| + k >= |t| { NoKeyOf(su, g, t, plan, k); }
    KeyOf(su, g, t, plan, k);
    assert RowIs(su, g, t, plan, k);
    assert RowOk(t[|g.t| + k]);
  }

  lemma TakeKeeps(su: Setup, g: Ground, s: System)
    requires SystemInv(su, g, s) && Allowed(su, s, Take)
    ensures SystemInv(su, g, Act(su, s, Take))
  {
    TakesRow(su, g, s);
    RunnerAfterTake(su, g, s);
  }

  lemma RunnerAfterTake(su: Setup, g: Ground, s: System)
    requires RunnerOk(su, g, s) && Allowed(su, s, Take)
    requires var k := |s.run.results|; var raw := s.w.procs[s.pid].pc.ending.hash.raw;
      && |g.t| + k < |s.w.table| && RowAt(g, s.w.table, k).status == Confirmed
      && raw.from == su.owner && raw.nonce == g.base + k
    ensures RunnerOk(su, g, Act(su, s, Take))
  {
    var k := |s.run.results|;
    assert Addresses(su.owner, g.base, k) + [Created(su.owner, g.base + k)] == Addresses(su.owner, g.base, k + 1);
  }

  lemma StopKeeps(su: Setup, g: Ground, s: System, a: Action)
    requires SystemInv(su, g, s) && Allowed(su, s, a) && (a.Die? || a.Abort?)
    ensures SystemInv(su, g, Act(su, s, a))
  {
    if a.Die? && Calling(s) && !s.w.procs[s.pid].pc.Ended? {
      StepKeepsInv(s.w, Crash(s.pid));
      StepKeepsLive(s.w, Crash(s.pid), su.owner);
      RunnerStops(su, g, s, Kill(s.w, s.pid));
    } else {
      RunnerStops(su, g, s, s.w);
    }
  }

  /** The run is gone, and no process of it goes on. */
  lemma RunnerStops(su: Setup, g: Ground, s: System, v: World)
    requires RunnerOk(su, g, s) && s.run.On?
    requires v == s.w || (Calling(s) && v == Kill(s.w, s.pid))
    requires s.pid in v.procs ==> v.procs[s.pid].pc.Ended?
    ensures RunnerOk(su, g, s.(w := v, run := Off, pid := s.pid + 1))
  {
  }

  /** A pending row of the account is the last one, and the run has no result of it yet. */
  lemma WatchedRow(su: Setup, g: Ground, t: Table, disk: Option<Manifest>, id: Id) returns (k: nat)
    requires RowsOk(su, g, t, disk) && !HasPending(g.t, su.owner) && RowOf(t, id).Some?
    requires RowOf(t, id).value.status == Pending && RowOf(t, id).value.owner == su.owner
    ensures |g.t| + k + 1 == |t| && t[|g.t| + k].id == id && t[|g.t| + k].status == Pending
  {
    var i :| 0 <= i < |t| && t[i] == RowOf(t, id).value;
    forall j | 0 <= j < |g.t| ensures t[j] == g.t[j] { assert t[..|g.t|][j] == t[j]; }
    k := i - |g.t|;
    assert RowIs(su, g, t, su.plan(disk.value), k);
  }

  lemma WatchKeeps(su: Setup, g: Ground, s: System, id: Id)
    requires SystemInv(su, g, s) && Allowed(su, s, Watch(id))
    ensures SystemInv(su, g, Act(su, s, Watch(id)))
  {
    var u := Reconcile(s.w.table, s.w.chain, id);
    ObserveKeepsInv(s.w, id);
    ObserveKeepsLive(s.w, id, su.owner);
    ReconcileStands(su, g, s, id, u);
    assert Act(su, s, Watch(id)) == s.(w := s.w.(table := u));
  }

  lemma ReconcileStands(su: Setup, g: Ground, s: System, id: Id, u: Table)
    requires SystemInv(su, g, s) && Allowed(su, s, Watch(id)) && u == Reconcile(s.w.table, s.w.chain, id)
    ensures RowsOk(su, g, u, s.disk) && ChainIs(su, g, u, s.w.chain) && RunnerOk(su, g, s.(w := s.w.(table := u)))
  {
    var r := RowOf(s.w.table, id);
    if r.Some? && r.value.status == Pending && Receipt(s.w.chain, r.value.hash).Some? {
      var k := WatchedRow(su, g, s.w.table, s.disk, id);
      WatchStands(su, g, s, k, Outcome(Receipt(s.w.chain, r.value.hash).value));
    } else {
      assert s.(w := s.w.(table := u)) == s;
    }
  }

  lemma WatchStands(su: Setup, g: Ground, s: System, k: nat, st: Status)
    requires TableOk(s.w.table) && RowsOk(su, g, s.w.table, s.disk) && ChainIs(su, g, s.w.table, s.w.chain)
    requires RunnerOk(su, g, s) && |g.t| + k + 1 == |s.w.table| && s.w.table[|g.t| + k].status == Pending
    ensures var t := s.w.table; var u := SetStatus(t, t[|g.t| + k].id, st);
      RowsOk(su, g, u, s.disk) && ChainIs(su, g, u, s.w.chain) && RunnerOk(su, g, s.(w := s.w.(table := u)))
  {
    var t := s.w.table;
    SetOne(t, |g.t| + k, st);
    StatusKeepsRows(su, g, t, k, st, s.disk);
    StatusKeepsChain(su, g, t, k, st, s.w.chain);
    RunnerWatched(su, g, s, k, st);
  }

  lemma RunnerWatched(su: Setup, g: Ground, s: System, k: nat, st: Status)
    requires RunnerOk(su, g, s) && |g.t| + k < |s.w.table| && s.w.table[|g.t| + k].status == Pending
    ensures var t := s.w.table; RunnerOk(su, g, s.(w := s.w.(table := t[|g.t| + k := t[|g.t| + k].(status := st)])))
  {
    var t := s.w.table;
    if s.run.On? {
      var u := t[|g.t| + k := t[|g.t| + k].(status := st)];
      forall j: nat | j < |s.run.results| ensures RowAt(g, u, j).status == Confirmed {
        assert RowAt(g, t, j).status == Confirmed;
      }
    }
  }

  lemma ActKeeps(su: Setup, g: Ground, s: System, a: Action)
    requires SystemInv(su, g, s) && Allowed(su, s, a)
    ensures SystemInv(su, g, Act(su, s, a))
  {
    match a
    case Begin(source, now) => BeginKeeps(su, g, s, source, now);
    case Save => SaveKeeps(su, g, s);
    case Call => CallKeeps(su, g, s);
    case Await(c) => AwaitKeeps(su, g, s, c);
    case Take => TakeKeeps(su, g, s);
    case Abort => StopKeeps(su, g, s, a);
    case Die => StopKeeps(su, g, s, a);
    case Mine(n) => NetKeeps(su, g, s, n);
    case Watch(id) => WatchKeeps(su, g, s, id);
  }

  lemma {:induction false} RunKeeps(su: Setup, g: Ground, s: System, actions: seq<Action>)
    requires SystemInv(su, g, s) && CanAct(su, s, actions)
    ensures SystemInv(su, g, After(su, s, actions))
    decreases |actions|
  {
    if actions != [] {
      ActKeeps(su, g, s, actions[0]);
      RunKeeps(su, g, Act(su, s, actions[0]), actions[1..]);
    }
  }

  // ---- the promise

  /** The run went through every operation. */
  predicate Complete(su: Setup, s: System) {
    s.run.On? && s.run.saved && |s.run.results| == |su.plan(s.run.m)|
  }

  /** Chain `c` holds the whole plan of `m`, each operation once, successful, in plan order,
      at consecutive nonces, with the addresses of the operations before it; and nothing more. */
  ghost predicate Footprint(su: Setup, g: Ground, m: Manifest, c: Chain) {
    && |c.included| == |g.c| + |su.plan(m)| && c.included[..|g.c|] == g.c
    && forall k: nat :: k < |su.plan(m)| ==>
         BlockAt(g, c.included, k).ok && IsOp(su, su.plan(m), g.base, k, BlockAt(g, c.included, k).raw)
  }

  lemma FreshOk(su: Setup, g: Ground, s: System)
    requires Fresh(su, g, s)
    ensures SystemInv(su, g, s)
  {
    assert s.w.table[..|g.t|] == g.t;
    forall i | 0 <= i < |s.w.table| && s.w.table[i].owner == su.owner ensures RowLive(s.w.table[i], s.w.chain) {
      assert s.w.table[i].status != Pending;
    }
  }

  /** What a complete run leaves, whatever crashes and reruns came before it. */
  lemma CompleteRunFootprint(su: Setup, g: Ground, s: System, actions: seq<Action>)
    requires Fresh(su, g, s) && CanAct(su, s, actions) && Complete(su, After(su, s, actions))
    ensures var e := After(su, s, actions);
      && Footprint(su, g, e.run.m, e.w.chain) && e.disk == Some(e.run.m)
      && |e.w.table| == |g.t| + |su.plan(e.run.m)|
      && e.run.results == Addresses(su.owner, g.base, |su.plan(e.run.m)|)
  {
    FreshOk(su, g, s);
    RunKeeps(su, g, s, actions);
    CompleteFootprint(su, g, After(su, s, actions));
  }

  lemma CompleteFootprint(su: Setup, g: Ground, e: System)
    requires SystemInv(su, g, e) && Complete(su, e)
    ensures Footprint(su, g, e.run.m, e.w.chain) && |e.w.table| == |g.t| + |su.plan(e.run.m)|
  {
    var plan, t, c := su.plan(e.run.m), e.w.table, e.w.chain;
    forall i: nat | i < |t| ensures !(t[i].owner == su.owner && t[i].status == Pending) {
      assert i < |g.t| ==> t[i] == t[..|g.t|][i];
      assert i >= |g.t| ==> t[i] == RowAt(g, t, i - |g.t|);
    }
    CaughtUp(su, g, e);
    forall k: nat | k < |plan|
      ensures BlockAt(g, c.included, k).ok && IsOp(su, plan, g.base, k, BlockAt(g, c.included, k).raw) {
      BlockIsOp(su, g, e, k);
    }
  }

  lemma BlockIsOp(su: Setup, g: Ground, e: System, k: nat)
    requires SystemInv(su, g, e) && e.disk.Some? && k < |e.w.table| - |g.t| && k < |e.w.chain.included| - |g.c|
    requires RowAt(g, e.w.table, k).status == Confirmed
    ensures k < |su.plan(e.disk.value)| && BlockAt(g, e.w.chain.included, k).ok
    ensures IsOp(su, su.plan(e.disk.value), g.base, k, BlockAt(g, e.w.chain.included, k).raw)
  {
    var t, c := e.w.table, e.w.chain;
    assert RowIs(su, g, t, su.plan(e.disk.value), k);
    assert BlockAt(g, c.included, k).raw == RowAt(g, t, k).raw;
    SettledBlock(t, c, |g.t| + k, |g.c| + k);
  }

  /** The block that holds a confirmed row's transaction is a success. */
  lemma SettledBlock(t: Table, c: Chain, i: nat, j: nat)
    requires TableOk(t) && ChainOk(c) && Settled(t, c) && i < |t| && j < |c.included|
    requires t[i].status == Confirmed && c.included[j].raw == t[i].raw
    ensures c.included[j].ok
  {
    assert RowOk(t[i]);
    assert Inclusion(t[i].raw, true) in c.included;
    var x :| 0 <= x < |c.included| && c.included[x] == Inclusion(t[i].raw, true);
    assert x == j;
  }

  /** Crash and rerun equivalence: any two histories of runs and crashes that end in a
      complete run with the same manifest have put the same operations on the chain, in
      the same order, at the same nonces, with the same payloads and so at the same
      addresses. One of the two may be a single uninterrupted run. */
  lemma RerunEquivalence(su: Setup, g: Ground, s: System, r: System, once: seq<Action>, again: seq<Action>, k: nat)
    requires Fresh(su, g, s) && Fresh(su, g, r)
    requires CanAct(su, s, once) && CanAct(su, r, again)
    requires Complete(su, After(su, s, once)) && Complete(su, After(su, r, again))
    requires After(su, s, once).run.m == After(su, r, again).run.m
    requires k < |su.plan(After(su, s, once).run.m)|
    ensures var a := After(su, s, once).w.chain.included; var b := After(su, r, again).w.chain.included;
      && |a| == |b| && |g.c| + k < |a|
      && BlockAt(g, a, k).ok && BlockAt(g, b, k).ok
      && BlockAt(g, a, k).raw.(fees := 0) == BlockAt(g, b, k).raw.(fees := 0)
    ensures After(su, s, once).run.results == After(su, r, again).run.results
  {
    CompleteRunFootprint(su, g, s, once);
    CompleteRunFootprint(su, g, r, again);
    var a, b := After(su, s, once).w.chain.included, After(su, r, again).w.chain.included;
    assert IsOp(su, su.plan(After(su, s, once).run.m), g.base, k, BlockAt(g, a, k).raw);
    assert IsOp(su, su.plan(After(su, s, once).run.m), g.base, k, BlockAt(g, b, k).raw);
  }

  /** The manifest is saved before anything is journaled, and once saved it is never replaced. */
  lemma {:induction false} ManifestIsKept(su: Setup, g: Ground, s: System, actions: seq<Action>)
    requires SystemInv(su, g, s) && CanAct(su, s, actions)
    ensures s.disk.Some? ==> After(su, s, actions).disk == s.disk
    ensures |After(su, s, actions).w.table| > |g.t| ==> After(su, s, actions).disk.Some?
    decreases |actions|
  {
    if actions != [] {
      ActKeeps(su, g, s, actions[0]);
      ManifestIsKept(su, g, Act(su, s, actions[0]), actions[1..]);
    }
  }

  /** The deployment script of the repository is such a plan. */
  function Candidate(cfg: Config): Setup {
    Setup(cfg.prefix, cfg.owner, m => Plan(cfg, m), Label)
  }

  lemma CandidateGround(cfg: Config, g: Ground)
    requires CaseApart(cfg) && OtherKeys(Candidate(cfg), g.t) && !HasPending(g.t, cfg.owner)
    ensures GroundOk(Candidate(cfg), g)
  {
    forall m ensures DistinctKeys(Candidate(cfg), Candidate(cfg).plan(m)) { PlanLabelsDiffer(cfg, m); }
  }

  /** What an operation asks for: its own call, with no value, to the contract the operation behind its
      target created; and an argument that refers to an earlier operation is the address that one created. */
  lemma ArgumentsResolve(su: Setup, plan: seq<Template>, base: nat, k: nat)
    requires RefsBack(plan) && k < |plan|
    ensures var req := RequestOf(su, plan[k], Addresses(su.owner, base, k));
      && req.id == su.prefix + ":" + su.naming(plan[k].name) && req.owner == su.owner && req.value == 0
      && req.to == (match plan[k].to case None => None case Some(op) => Some(Created(su.owner, base + op)))
      && req.data.head == plan[k].head && |req.data.words| == |plan[k].args|
    ensures forall i :: 0 <= i < |plan[k].args| ==>
      RequestOf(su, plan[k], Addresses(su.owner, base, k)).data.words[i] ==
        (match plan[k].args[i] case Here(word) => word case Result(op) => At(Created(su.owner, base + op)))
  {
    assert RefsBelow(plan[k], k);
    forall i | 0 <= i < |plan[k].args| && plan[k].args[i].Result? ensures plan[k].args[i].op < k {
      assert plan[k].args[i] in plan[k].args;
    }
  }
}
