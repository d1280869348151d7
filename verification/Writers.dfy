/** The four programs that sign as the operator, as processes which any step may
    interleave or kill: `submit`, `release`, the retirement loop and `close`. Every
    await of the source is one step. */
module Writers {
  import opened Options
  import opened Wire
  import opened Chain
  import opened Journal
  import opened Keys

  datatype Request = Request(id: Id, owner: Account, to: Option<Address>, data: Data, value: nat)

  datatype Program =
    | Submit(req: Request)
    | Release(app: string, owner: Account, hub: Address)
    | Retire(apps: seq<string>, owner: Account, hub: Address)
    | Close(app: string, owner: Account)

  /** The await a lock holder is about to perform. */
  datatype Phase =
    | Lookup
    | CheckPending
    | ReadPending
    | ReadLatest(count: nat)
    | Prepare(nonce: nat)
    | Insert(raw: Raw)
    | FetchReceipt(raw: Raw)
    | Send(raw: Raw)
    | Wait(raw: Raw)
    | Update(raw: Raw, ok: bool)
    | Finish(raw: Raw, ok: bool)

  datatype Ending = Returned(req: Request, hash: Hash) | Nothing | Refused

  datatype Pc = Start | Guard | Working(req: Request, phase: Phase) | Ended(ending: Ending)

  datatype Proc = Proc(program: Program, pc: Pc)

  /** What the chain shows of an application. `due` says that the time its status waits for has
      come: the expiry of an active delegation, or the unlocking of a stake. `idle` says that it has
      no active game, and `bare` that its activity is within its diagnostic record. */
  datatype Delegation = Delegation(status: nat, epoch: nat, due: bool, idle: bool, bare: bool)

  const UNKNOWN := Delegation(0, 0, false, false, false)

  /** `lock` is the session that holds advisory lock 701340. `foreign` records the
      transactions of the same accounts that none of the four programs signed. */
  datatype World = World(
    table: Table, lock: Option<nat>, procs: map<nat, Proc>,
    chain: Chain, hub: map<string, Delegation>, foreign: set<Raw>)

  /** What the outside decides during one step of a process: the answer to the pending
      count, the fees, whether a read succeeds, whether a broadcast arrives. */
  datatype Choice = Choice(count: nat, fees: nat, seen: bool, delivered: bool)

  datatype Step =
    | Spawn(pid: nat, program: Program)
    | Tick(pid: nat, choice: Choice)
    | Crash(pid: nat)
    | Network(net: NetStep)
    | Foreign(raw: Raw)
    | HubMoves(app: string, delegation: Delegation)
    | Observe(id: Id)

  // ---- the journal keys and calldata of the lifecycle programs

  function LifecycleKey(head: string, app: string, epoch: nat, action: string): Id {
    head + ":" + app + ":" + Decimal(epoch) + ":" + action
  }

  function ReleaseId(app: string, epoch: nat): Id { LifecycleKey("independent-rehearsal", app, epoch, "releaseStake") }

  function CloseId(app: string, epoch: nat): Id { LifecycleKey("independent-rehearsal", app, epoch, "close") }

  function RetireId(app: string, epoch: nat, action: string): Id { LifecycleKey("retire-probe", app, epoch, action) }

  function HubCall(action: string, app: string): Data {
    Data(action, [Text(app), Number(0)])
  }

  function ReleaseRequest(app: string, owner: Account, hub: Address, epoch: nat): Request {
    Request(ReleaseId(app, epoch), owner, Some(hub), HubCall("releaseStake", app), 0)
  }

  function CloseRequest(app: string, owner: Account, epoch: nat): Request {
    Request(CloseId(app, epoch), owner, Some(Known(app)), Data("closeEngine", []), 0)
  }

  /** The action that retires an application of this status. */
  function ActionFor(status: nat): string { if status == 1 then "forceClose" else "releaseStake" }

  function RetireRequest(app: string, owner: Account, hub: Address, d: Delegation): Request {
    Request(RetireId(app, d.epoch, ActionFor(d.status)), owner, Some(hub), HubCall(ActionFor(d.status), app), 0)
  }

  function HubOf(w: World, app: string): Delegation {
    if app in w.hub then w.hub[app] else UNKNOWN
  }

  // ---- one step of one process

  function Go(w: World, pid: nat, pc: Pc): World
    requires pid in w.procs
  {
    w.(procs := w.procs[pid := w.procs[pid].(pc := pc)])
  }

  /** The `finally` block: the lock goes with the ending. */
  function Stop(w: World, pid: nat, e: Ending): World
    requires pid in w.procs
  {
    Go(w, pid, Ended(e)).(lock := None)
  }

  /** An existing row is reused only by a caller whose operation it is. */
  predicate Accepts(program: Program, req: Request, r: Row) {
    && r.status != Failed
    && (program.Submit? ==> Matches(req, r.raw) && Keccak(r.raw) == r.hash)
  }

  predicate Matches(req: Request, raw: Raw) {
    raw.data == req.data && raw.to == req.to && raw.value == req.value
  }

  function RowFor(req: Request, raw: Raw): Row {
    Row(req.id, req.owner, raw.nonce, raw, Keccak(raw), Pending)
  }

  function TickGuard(w: World, pid: nat): World
    requires pid in w.procs
  {
    match w.procs[pid].program
    case Submit(req) => Go(w, pid, Working(req, Lookup))
    case Release(app, owner, hub) =>
      var d := HubOf(w, app);
      if d.status == 0 then Stop(w, pid, Nothing)
      else if d.status != 2 then Stop(w, pid, Refused)
      else if !d.due then Stop(w, pid, Nothing)
      else if !d.idle then Stop(w, pid, Refused)
      else Go(w, pid, Working(ReleaseRequest(app, owner, hub, d.epoch), Lookup))
    case Retire(apps, owner, hub) =>
      if apps == [] then Stop(w, pid, Nothing) else
      var d := HubOf(w, apps[0]);
      if d.status == 0 || (d.status == 2 && !d.due) then
        w.(procs := w.procs[pid := Proc(Retire(apps[1..], owner, hub), Guard)])
      else if (d.status != 1 && d.status != 2) || !d.due || !d.bare then Stop(w, pid, Refused)
      else Go(w, pid, Working(RetireRequest(apps[0], owner, hub, d), Lookup))
    case Close(app, owner) =>
      var d := HubOf(w, app);
      if d.status != 1 || !d.idle then Stop(w, pid, Refused)
      else Go(w, pid, Working(CloseRequest(app, owner, d.epoch), Lookup))
  }

  ghost function TickWork(w: World, pid: nat, req: Request, phase: Phase, c: Choice): World
    requires pid in w.procs
  {
    var program := w.procs[pid].program;
    match phase
    case Lookup =>
      (match RowOf(w.table, req.id)
       case None =>
         if !program.Close? then Go(w, pid, Working(req, CheckPending))
         else if HasPending(w.table, req.owner) then Stop(w, pid, Refused)
         else Go(w, pid, Working(req, ReadPending))
       case Some(r) =>
         if program.Close? || !Accepts(program, req, r) then Stop(w, pid, Refused)
         else Go(w, pid, Working(req, FetchReceipt(r.raw))))
    case CheckPending =>
      if HasPending(w.table, req.owner) then Stop(w, pid, Refused)
      else Go(w, pid, Working(req, ReadPending))
    case ReadPending => Go(w, pid, Working(req, ReadLatest(c.count)))
    case ReadLatest(count) =>
      if Latest(w.chain, req.owner) != count then Stop(w, pid, Refused)
      else Go(w, pid, Working(req, Prepare(count)))
    case Prepare(nonce) =>
      Go(w, pid, Working(req, Insert(Raw(req.owner, nonce, req.to, req.data, req.value, c.fees))))
    case Insert(raw) =>
      if !CanInsert(w.table, RowFor(req, raw)) then Stop(w, pid, Refused)
      else Go(w, pid, Working(req, if program.Close? then Send(raw) else FetchReceipt(raw)))
             .(table := w.table + [RowFor(req, raw)])
    case FetchReceipt(raw) =>
      var r := Receipt(w.chain, Keccak(raw));
      Go(w, pid, Working(req, if c.seen && r.Some? then Update(raw, r.value) else Send(raw)))
    case Send(raw) =>
      Go(w, pid, Working(req, Wait(raw))).(chain := if c.delivered then Broadcast(w.chain, raw) else w.chain)
    case Wait(raw) =>
      var r := Receipt(w.chain, Keccak(raw));
      if r.None? then w else Go(w, pid, Working(req, Update(raw, r.value)))
    case Update(raw, ok) =>
      Go(w, pid, Working(req, Finish(raw, ok))).(table := SetStatus(w.table, req.id, Outcome(ok)))
    case Finish(raw, ok) =>
      if !ok then Stop(w, pid, Refused)
      else if program.Retire? then
        w.(procs := w.procs[pid := Proc(if program.apps == [] then program else program.(apps := program.apps[1..]), Guard)])
      else Stop(w, pid, Returned(req, Keccak(raw)))
  }

  ghost function TickProc(w: World, pid: nat, c: Choice): World
    requires pid in w.procs
  {
    match w.procs[pid].pc
    case Start =>
      if w.lock.None? then Go(w, pid, Guard).(lock := Some(pid))
      else if c.seen && (w.procs[pid].program.Submit? || w.procs[pid].program.Close?) then w
      else Go(w, pid, Ended(Refused))
    case Guard => TickGuard(w, pid)
    case Working(req, phase) => TickWork(w, pid, req, phase, c)
    case Ended(_) => w
  }

  // ---- the whole system

  predicate InSection(pc: Pc) {
    pc.Guard? || pc.Working?
  }

  ghost predicate Can(w: World, s: Step) {
    match s
    case Spawn(pid, _) => pid !in w.procs
    case Tick(pid, c) =>
      && pid in w.procs
      && (w.procs[pid].pc.Working? && w.procs[pid].pc.phase.ReadPending? ==>
            IsPendingCount(w.chain, w.procs[pid].pc.req.owner, c.count))
    case Crash(pid) => pid in w.procs && !w.procs[pid].pc.Ended?
    case Network(n) => CanNet(w.chain, n)
    case Foreign(_) => true
    case HubMoves(_, _) => true
    case Observe(_) => true
  }

  /** A death, an uncaught error and a timeout look alike: the process is gone, and with its session the lock. */
  function Kill(w: World, pid: nat): World
    requires pid in w.procs
  {
    if InSection(w.procs[pid].pc) then Stop(w, pid, Refused) else Go(w, pid, Ended(Refused))
  }

  /** The service that watches receipts settles pending rows without taking the lock. */
  function Reconcile(t: Table, c: Chain, id: Id): Table {
    match RowOf(t, id)
    case None => t
    case Some(r) =>
      if r.status == Pending && Receipt(c, r.hash).Some?
      then SetStatus(t, id, Outcome(Receipt(c, r.hash).value)) else t
  }

  ghost function Do(w: World, s: Step): World
    requires Can(w, s)
  {
    match s
    case Spawn(pid, program) => w.(procs := w.procs[pid := Proc(program, Start)])
    case Tick(pid, c) => TickProc(w, pid, c)
    case Crash(pid) => Kill(w, pid)
    case Network(n) => w.(chain := Net(w.chain, n))
    case Foreign(raw) => w.(chain := Broadcast(w.chain, raw), foreign := w.foreign + {raw})
    case HubMoves(app, d) => w.(hub := w.hub[app := d])
    case Observe(id) => w.(table := Reconcile(w.table, w.chain, id))
  }

  ghost predicate CanRun(w: World, steps: seq<Step>)
    decreases |steps|
  {
    steps == [] || (Can(w, steps[0]) && CanRun(Do(w, steps[0]), steps[1..]))
  }

  ghost function Run(w: World, steps: seq<Step>): World
    requires CanRun(w, steps)
    decreases |steps|
  {
    if steps == [] then w else Run(Do(w, steps[0]), steps[1..])
  }

  /** No run has begun: the table is empty, and so is the chain as far as these accounts go. */
  ghost predicate Init(w: World) {
    w.table == [] && w.lock.None? && w.procs == map[] && w.foreign == {} && w.chain.mempool == {} && w.chain.included == []
  }

  /** Some run of the system leads from `w` to `v`. */
  ghost predicate Reaches(w: World, v: World) {
    exists steps :: CanRun(w, steps) && Run(w, steps) == v
  }

  lemma ReachesSelf(w: World)
    ensures Reaches(w, w)
  {
    assert CanRun(w, []) && Run(w, []) == w;
  }

  lemma {:induction false} RunAppend(w: World, steps: seq<Step>, s: Step)
    requires CanRun(w, steps) && Can(Run(w, steps), s)
    ensures CanRun(w, steps + [s]) && Run(w, steps + [s]) == Do(Run(w, steps), s)
    decreases |steps|
  {
    if steps == [] {
      assert CanRun(Do(w, s), [s][1..]);
      assert steps + [s] == [s];
    } else {
      assert (steps + [s])[1..] == steps[1..] + [s];
      RunAppend(Do(w, steps[0]), steps[1..], s);
    }
  }

  lemma ReachesNext(w: World, s: Step, u: World)
    requires Reaches(w, u) && Can(u, s)
    ensures Reaches(w, Do(u, s))
  {
    var steps :| CanRun(w, steps) && Run(w, steps) == u;
    RunAppend(w, steps, s);
  }
}
