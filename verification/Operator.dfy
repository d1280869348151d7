/** The four writers as the programs they are: each call takes the lock, reads and writes the
    journal and talks to the chain. Every statement is a step of the process model, so what
    holds for all runs of the processes holds for every call. */
module Operator {
  import opened Options
  import opened Wire
  import opened Chain
  import opened Journal
  import opened Keys
  import opened Writers
  import opened WriterSafety

  lemma TakeStep(v: World, w: World, s: Step)
    requires Inv(w) && Reaches(v, w) && Can(w, s)
    ensures Reaches(v, Do(w, s)) && Inv(Do(w, s)) && Grows(w.table, Do(w, s).table)
  {
    ReachesNext(v, s, w);
    StepKeepsInv(w, s);
  }

  /** The answers a call gets: the fees, whether the first receipt query and the broadcast succeed,
      and what is included while it waits. */
  datatype Answers = Answers(fees: nat, seen: bool, delivered: bool, mined: Option<bool>)

  /** How a call ends: without the lock, with nothing to do, with a hash, or by throwing. */
  datatype Result = Busy | Idle | Done(hash: Hash) | Thrown

  const QUIET := Choice(0, 0, false, false)

  class Database {
    var table: Table
    var lock: Option<nat>
    var chain: Chain
    var hub: map<string, Delegation>
    ghost var w: World

    ghost predicate Synced()
      reads this
    {
      Inv(w) && w.table == table && w.lock == lock && w.chain == chain && w.hub == hub
    }

    /** Process `pid` holds the lock and stands at `p`, in a run from `start`. */
    ghost predicate Holding(start: World, pid: nat, p: Proc)
      reads this
    {
      Synced() && Reaches(start, w) && lock == Some(pid) && pid in w.procs && w.procs[pid] == p
    }

    ghost predicate Before(start: World, pid: nat, program: Program, req: Request, phase: Phase)
      reads this
    {
      Holding(start, pid, Proc(program, Working(req, phase)))
    }

    ghost predicate Over(start: World, pid: nat, program: Program, e: Ending)
      reads this
    {
      Synced() && Reaches(start, w) && lock.None? && pid in w.procs && w.procs[pid] == Proc(program, Ended(e))
    }

    /** One try at the lock. */
    method Acquire(pid: nat, program: Program) returns (locked: bool)
      requires Synced() && pid !in w.procs
      modifies this
      ensures locked == old(lock).None?
      ensures table == old(table) && chain == old(chain) && hub == old(hub)
      ensures locked ==> Holding(old(w), pid, Proc(program, Guard))
      ensures !locked ==> Synced() && Reaches(old(w), w) && lock == old(lock)
    {
      ghost var start := w;
      ReachesSelf(start);
      TakeStep(start, w, Spawn(pid, program));
      w := Do(w, Spawn(pid, program));
      TakeStep(start, w, Tick(pid, QUIET));
      w := Do(w, Tick(pid, QUIET));
      locked := lock.None?;
      if locked { lock := Some(pid); }
    }

    // ---- reading and signing

    /** The guard let the call through with this request. */
    ghost method Enter(start: World, pid: nat, program: Program, req: Request)
      requires Holding(start, pid, Proc(program, Guard))
      requires TickGuard(w, pid) == Go(w, pid, Working(req, Lookup))
      modifies this`w
      ensures Before(start, pid, program, req, Lookup)
    {
      TakeStep(start, w, Tick(pid, QUIET));
      w := Do(w, Tick(pid, QUIET));
    }

    /** The guard ended the call. */
    method Turn(pid: nat, program: Program, e: Ending, ghost start: World)
      requires Holding(start, pid, Proc(program, Guard)) && TickGuard(w, pid) == Stop(w, pid, e)
      modifies this
      ensures table == old(table) && chain == old(chain) && hub == old(hub) && Over(start, pid, program, e)
    {
      TakeStep(start, w, Tick(pid, QUIET));
      w := Do(w, Tick(pid, QUIET));
      lock := None;
    }

    /** An existing row is reused only by a call it belongs to; `submit` also compares payloads. */
    method Reuse(pid: nat, program: Program, req: Request, job: Row, ghost start: World) returns (r: Option<Raw>)
      requires Before(start, pid, program, req, Lookup) && RowOf(table, req.id) == Some(job) && !program.Close?
      modifies this
      ensures table == old(table) && chain == old(chain) && hub == old(hub)
      ensures r == Claimed(table, chain, program, req, 0)
      ensures r.Some? ==> Before(start, pid, program, req, FetchReceipt(job.raw))
      ensures r.None? ==> Over(start, pid, program, Refused)
    {
      RowFoundIsOk(table, req.id);
      var fits := job.status != Failed;
      if program.Submit? { fits := fits && Matches(req, job.raw) && Keccak(job.raw) == job.hash; }
      if fits {
        Accept(start, pid, program, req, job);
        return Some(job.raw);
      }
      Decline(pid, program, req, job, start);
      r := None;
    }

    ghost method Accept(start: World, pid: nat, program: Program, req: Request, job: Row)
      requires Before(start, pid, program, req, Lookup) && RowOf(table, req.id) == Some(job) && !program.Close?
      requires Accepts(program, req, job)
      modifies this`w
      ensures Before(start, pid, program, req, FetchReceipt(job.raw))
    {
      LookupNext(w, pid, program, req, job);
      TakeStep(start, w, Tick(pid, QUIET));
      w := Do(w, Tick(pid, QUIET));
    }

    method Decline(pid: nat, program: Program, req: Request, job: Row, ghost start: World)
      requires Before(start, pid, program, req, Lookup) && RowOf(table, req.id) == Some(job) && !program.Close?
      requires !Accepts(program, req, job)
      modifies this
      ensures table == old(table) && chain == old(chain) && hub == old(hub) && Over(start, pid, program, Refused)
    {
      LookupNext(w, pid, program, req, job);
      TakeStep(start, w, Tick(pid, QUIET));
      w := Do(w, Tick(pid, QUIET));
      lock := None;
    }

    /** An await that only reads. */
    ghost method Move(start: World, pid: nat, program: Program, req: Request, phase: Phase, next: Phase, c: Choice)
      requires Before(start, pid, program, req, phase)
      requires match phase
        case Lookup => RowOf(table, req.id).None? && next == (if program.Close? then ReadPending else CheckPending)
          && (program.Close? ==> !HasPending(table, req.owner))
        case CheckPending => !HasPending(table, req.owner) && next == ReadPending
        case ReadPending => IsPendingCount(chain, req.owner, c.count) && next == ReadLatest(c.count)
        case ReadLatest(n) => n == Latest(chain, req.owner) && next == Prepare(n)
        case Prepare(n) => next == Insert(Raw(req.owner, n, req.to, req.data, req.value, c.fees))
        case _ => false
      modifies this`w
      ensures Before(start, pid, program, req, next)
    {
      TakeStep(start, w, Tick(pid, c));
      w := Do(w, Tick(pid, c));
    }

    /** A failed check throws, and the lock is released. */
    method Refuse(pid: nat, program: Program, req: Request, ghost phase: Phase, ghost start: World)
      requires Before(start, pid, program, req, phase)
      requires match phase
        case Lookup => program.Close? && (RowOf(table, req.id).Some? || HasPending(table, req.owner))
        case CheckPending => HasPending(table, req.owner)
        case ReadLatest(n) => n != Latest(chain, req.owner)
        case _ => false
      modifies this
      ensures table == old(table) && chain == old(chain) && hub == old(hub) && Over(start, pid, program, Refused)
    {
      TakeStep(start, w, Tick(pid, QUIET));
      w := Do(w, Tick(pid, QUIET));
      lock := None;
    }

    /** Neither index of the table can object. */
    method InsertRow(pid: nat, program: Program, req: Request, raw: Raw, ghost start: World)
      requires Before(start, pid, program, req, Insert(raw))
      modifies this
      ensures CanInsert(old(table), RowFor(req, raw))
      ensures chain == old(chain) && hub == old(hub) && table == old(table) + [RowFor(req, raw)]
      ensures Before(start, pid, program, req, if program.Close? then Send(raw) else FetchReceipt(raw))
    {
      WorkInserts(w, pid, req, raw, QUIET);
      TakeStep(start, w, Tick(pid, QUIET));
      w := Do(w, Tick(pid, QUIET));
      table := table + [RowFor(req, raw)];
    }

    /** Both counts must agree; then the signed bytes are journaled, before anything is sent. */
    method SignAndInsert(pid: nat, program: Program, req: Request, fees: nat, ghost start: World) returns (r: Option<Raw>)
      requires Before(start, pid, program, req, ReadPending)
      modifies this
      ensures chain == old(chain) && hub == old(hub)
      ensures r.Some? ==> r.value == Raw(req.owner, Latest(chain, req.owner), req.to, req.data, req.value, fees)
      ensures r.Some? ==> table == old(table) + [RowFor(req, r.value)]
      ensures r.Some? ==> Before(start, pid, program, req, if program.Close? then Send(r.value) else FetchReceipt(r.value))
      ensures r.None? <==> Queued(chain, req.owner, Latest(chain, req.owner))
      ensures r.None? ==> table == old(table) && Over(start, pid, program, Refused)
    {
      var nonce := PendingCount(chain, req.owner);
      ghost var c := Choice(nonce, fees, false, false);
      Move(start, pid, program, req, ReadPending, ReadLatest(nonce), c);
      if nonce != Latest(chain, req.owner) {
        Refuse(pid, program, req, ReadLatest(nonce), start);
        return None;
      }
      Move(start, pid, program, req, ReadLatest(nonce), Prepare(nonce), c);
      var raw := Raw(req.owner, nonce, req.to, req.data, req.value, fees);
      Move(start, pid, program, req, Prepare(nonce), Insert(raw), c);
      InsertRow(pid, program, req, raw, start);
      r := Some(raw);
    }

    /** A new row, only if nothing of the owner is pending. */
    method Create(pid: nat, program: Program, req: Request, fees: nat, ghost start: World) returns (r: Option<Raw>)
      requires Before(start, pid, program, req, Lookup) && RowOf(table, req.id).None? && !program.Close?
      modifies this
      ensures chain == old(chain) && hub == old(hub)
      ensures r.Some? ==> !HasPending(old(table), req.owner) && table == old(table) + [RowFor(req, r.value)]
      ensures r == Claimed(old(table), chain, program, req, fees)
      ensures r.Some? ==> Before(start, pid, program, req, FetchReceipt(r.value))
      ensures r.None? ==> table == old(table) && Over(start, pid, program, Refused)
    {
      Move(start, pid, program, req, Lookup, CheckPending, QUIET);
      if HasPending(table, req.owner) {
        Refuse(pid, program, req, CheckPending, start);
        return None;
      }
      Move(start, pid, program, req, CheckPending, ReadPending, QUIET);
      r := SignAndInsert(pid, program, req, fees, start);
    }

    // ---- sending and settling

    method BroadcastRaw(pid: nat, program: Program, req: Request, raw: Raw, delivered: bool, ghost start: World)
      requires Before(start, pid, program, req, Send(raw))
      modifies this
      ensures table == old(table) && hub == old(hub) && Before(start, pid, program, req, Wait(raw))
      ensures chain == if delivered then Broadcast(old(chain), raw) else old(chain)
    {
      ghost var c := Choice(0, 0, false, delivered);
      TakeStep(start, w, Tick(pid, c));
      w := Do(w, Tick(pid, c));
      if delivered { chain := Broadcast(chain, raw); }
    }

    /** While a call waits the network may include its transaction. */
    method Mine(pid: nat, program: Program, req: Request, raw: Raw, mined: Option<bool>, ghost start: World)
      requires Before(start, pid, program, req, Wait(raw))
      modifies this
      ensures table == old(table) && hub == old(hub) && chain == Mined(old(chain), raw, mined)
      ensures Before(start, pid, program, req, Wait(raw))
    {
      if mined.Some? && raw in chain.mempool && raw.nonce == Latest(chain, raw.from) {
        ghost var n := Network(Include(raw, mined.value));
        TakeStep(start, w, n);
        w := Do(w, n);
        chain := Net(chain, Include(raw, mined.value));
      }
    }

    /** A call that sees no receipt in time throws, and the row stays pending. */
    method AwaitReceipt(pid: nat, program: Program, req: Request, raw: Raw, mined: Option<bool>, ghost start: World)
      returns (r: Option<bool>)
      requires Before(start, pid, program, req, Wait(raw))
      modifies this
      ensures table == old(table) && hub == old(hub) && chain == Mined(old(chain), raw, mined)
      ensures r == Receipt(chain, Keccak(raw))
      ensures r.Some? ==> Before(start, pid, program, req, Update(raw, r.value))
      ensures r.None? ==> Over(start, pid, program, Refused)
    {
      Mine(pid, program, req, raw, mined, start);
      r := Receipt(chain, Keccak(raw));
      if r.Some? {
        Receive(start, pid, program, req, raw, r.value);
      } else {
        TimeOut(pid, program, req, raw, start);
      }
    }

    ghost method Receive(start: World, pid: nat, program: Program, req: Request, raw: Raw, ok: bool)
      requires Before(start, pid, program, req, Wait(raw)) && Receipt(chain, Keccak(raw)) == Some(ok)
      modifies this`w
      ensures Before(start, pid, program, req, Update(raw, ok))
    {
      TakeStep(start, w, Tick(pid, QUIET));
      w := Do(w, Tick(pid, QUIET));
    }

    method TimeOut(pid: nat, program: Program, req: Request, raw: Raw, ghost start: World)
      requires Before(start, pid, program, req, Wait(raw))
      modifies this
      ensures table == old(table) && chain == old(chain) && hub == old(hub) && Over(start, pid, program, Refused)
    {
      TakeStep(start, w, Crash(pid));
      w := Do(w, Crash(pid));
      lock := None;
    }

    /** The receipt, from a query, or after one broadcast of these very bytes and a wait. */
    method Resolve(pid: nat, program: Program, req: Request, raw: Raw, a: Answers, ghost start: World)
      returns (r: Option<bool>)
      requires Before(start, pid, program, req, FetchReceipt(raw))
      modifies this
      ensures table == old(table) && hub == old(hub)
      ensures r == Fate(old(chain), raw, a.delivered, a.mined) && Attempted(old(chain), chain, raw, a.delivered, a.mined)
      ensures r.Some? ==> Receipt(chain, Keccak(raw)) == r && Before(start, pid, program, req, Update(raw, r.value))
      ensures r.None? ==> Over(start, pid, program, Refused)
    {
      FateFollows(chain, raw, a.delivered, a.mined);
      r := if a.seen then Receipt(chain, Keccak(raw)) else None;
      ghost var c := Choice(0, 0, a.seen, a.delivered);
      TakeStep(start, w, Tick(pid, c));
      w := Do(w, Tick(pid, c));
      if r.None? {
        BroadcastRaw(pid, program, req, raw, a.delivered, start);
        r := AwaitReceipt(pid, program, req, raw, a.mined, start);
      }
    }

    method UpdateRow(pid: nat, program: Program, req: Request, raw: Raw, ok: bool, ghost start: World)
      requires Before(start, pid, program, req, Update(raw, ok))
      modifies this
      ensures chain == old(chain) && hub == old(hub) && table == SetStatus(old(table), req.id, Outcome(ok))
      ensures Grows(old(table), table)
      ensures Before(start, pid, program, req, Finish(raw, ok))
    {
      UpdateNext(w, pid, req, raw, ok);
      TakeStep(start, w, Tick(pid, QUIET));
      w := Do(w, Tick(pid, QUIET));
      table := SetStatus(table, req.id, Outcome(ok));
    }

    /** A reverted transaction throws; otherwise its hash is returned. Either way the lock goes. */
    method Leave(pid: nat, program: Program, req: Request, raw: Raw, ok: bool, ghost start: World) returns (r: Option<Hash>)
      requires Before(start, pid, program, req, Finish(raw, ok)) && (ok ==> !program.Retire?)
      modifies this
      ensures chain == old(chain) && table == old(table) && hub == old(hub)
      ensures r == if ok then Some(Keccak(raw)) else None
      ensures Over(start, pid, program, if ok then Returned(req, Keccak(raw)) else Refused)
      ensures r.Some? ==> Delivered(program, req, r.value, table)
    {
      TakeStep(start, w, Tick(pid, QUIET));
      w := Do(w, Tick(pid, QUIET));
      lock := None;
      r := if ok then Some(Keccak(raw)) else None;
      if ok { OverDelivers(w, pid, program, req, Keccak(raw)); }
    }

    /** The call's row, existing or new. */
    method Claim(pid: nat, program: Program, req: Request, fees: nat, ghost start: World) returns (raw: Option<Raw>)
      requires Before(start, pid, program, req, Lookup) && !program.Close?
      modifies this
      ensures hub == old(hub) && chain == old(chain) && OneRow(old(table), chain, table, req, fees) && Grows(old(table), table)
      ensures raw == Claimed(old(table), chain, program, req, fees)
      ensures raw.Some? ==> table == Claiming(old(table), req, raw.value)
      ensures raw.Some? ==> Before(start, pid, program, req, FetchReceipt(raw.value))
      ensures raw.None? ==> table == old(table) && Over(start, pid, program, Refused)
    {
      var job := RowOf(table, req.id);
      if job.Some? {
        raw := Reuse(pid, program, req, job.value, start);
      } else {
        raw := Create(pid, program, req, fees, start);
      }
    }

    /** From the lookup to the outcome, for every program but `close`. */
    method Settle(pid: nat, program: Program, req: Request, a: Answers, ghost start: World)
      returns (raw: Option<Raw>, outcome: Option<bool>)
      requires Before(start, pid, program, req, Lookup) && !program.Close?
      modifies this
      ensures hub == old(hub) && OneRow(old(table), old(chain), table, req, a.fees) && Grows(old(table), table)
      ensures raw == Claimed(old(table), old(chain), program, req, a.fees)
      ensures outcome == if raw.Some? then Fate(old(chain), raw.value, a.delivered, a.mined) else None
      ensures Settles(old(table), old(chain), table, chain, program, req, a)
      ensures outcome.Some? ==> raw.Some? && Before(start, pid, program, req, Finish(raw.value, outcome.value))
      ensures outcome.None? ==> Over(start, pid, program, Refused)
    {
      outcome := None;
      raw := Claim(pid, program, req, a.fees, start);
      if raw.None? { return; }
      outcome := Resolve(pid, program, req, raw.value, a, start);
      if outcome.Some? {
        ghost var before := table;
        UpdateRow(pid, program, req, raw.value, outcome.value, start);
        OneRowKept(old(table), old(chain), before, table, req, a.fees);
      }
    }

    /** `close` sends what it has just journaled, without a query first. */
    method Deliver(pid: nat, program: Program, req: Request, raw: Raw, a: Answers, ghost start: World)
      returns (outcome: Option<bool>)
      requires Before(start, pid, program, req, Send(raw))
      modifies this
      ensures hub == old(hub) && |table| == |old(table)| && Grows(old(table), table)
      ensures outcome == Fate(old(chain), raw, a.delivered, a.mined) && Attempted(old(chain), chain, raw, a.delivered, a.mined)
      ensures outcome.None? ==> table == old(table) && Over(start, pid, program, Refused)
      ensures outcome.Some? ==> table == SetStatus(old(table), req.id, if outcome.value then Confirmed else Failed)
      ensures outcome.Some? ==> Before(start, pid, program, req, Finish(raw, outcome.value))
    {
      FateFollows(chain, raw, a.delivered, a.mined);
      BroadcastRaw(pid, program, req, raw, a.delivered, start);
      outcome := AwaitReceipt(pid, program, req, raw, a.mined, start);
      if outcome.Some? { UpdateRow(pid, program, req, raw, outcome.value, start); }
    }

    /** The rest of a call of `submit` or `release`, once its guard is passed. */
    method Perform(pid: nat, program: Program, req: Request, a: Answers, ghost start: World) returns (r: Result)
      requires Before(start, pid, program, req, Lookup) && !program.Close? && !program.Retire?
      modifies this
      ensures lock.None? && Synced() && Reaches(start, w) && OneRow(old(table), old(chain), table, req, a.fees)
      ensures Ends(old(table), old(chain), table, chain, program, req, a, r)
    {
      var raw, outcome := Settle(pid, program, req, a, start);
      if outcome.None? { return Thrown; }
      var hash := Leave(pid, program, req, raw.value, outcome.value, start);
      r := if hash.Some? then Done(hash.value) else Thrown;
    }

    /** The rest of a call of `close`. */
    method CloseBy(pid: nat, program: Program, req: Request, a: Answers, ghost start: World) returns (r: Result)
      requires Before(start, pid, program, req, Lookup) && program.Close?
      modifies this
      ensures lock.None? && Synced() && Reaches(start, w) && OneRow(old(table), old(chain), table, req, a.fees)
      ensures Ends(old(table), old(chain), table, chain, program, req, a, r)
    {
      if RowOf(table, req.id).Some? || HasPending(table, req.owner) {
        Refuse(pid, program, req, Lookup, start);
        return Thrown;
      }
      Move(start, pid, program, req, Lookup, ReadPending, QUIET);
      var raw := SignAndInsert(pid, program, req, a.fees, start);
      if raw.None? { return Thrown; }
      ghost var before := table;
      var outcome := Deliver(pid, program, req, raw.value, a, start);
      if outcome.None? { return Thrown; }
      OneRowKept(old(table), old(chain), before, table, req, a.fees);
      var hash := Leave(pid, program, req, raw.value, outcome.value, start);
      r := if hash.Some? then Done(hash.value) else Thrown;
    }

    // ---- the four programs

    /** One call of `submit`. It ends where some run of the process model ends, so all that is
        proved of runs holds here; it journals at most one row, only if its id had none, and a
        hash it returns is that of its confirmed row. */
    method Submit(pid: nat, req: Request, a: Answers) returns (r: Result)
      requires Synced() && pid !in w.procs
      modifies this
      ensures Synced() && Reaches(old(w), w) && lock == old(lock)
      ensures OneRow(old(table), old(chain), table, req, a.fees)
      ensures r.Busy? <==> old(lock).Some?
      ensures if r.Busy? then table == old(table) && chain == old(chain)
              else Ends(old(table), old(chain), table, chain, Program.Submit(req), req, a, r)
    {
      ghost var start := w;
      var program := Program.Submit(req);
      var locked := Acquire(pid, program);
      if !locked { return Busy; }
      Enter(start, pid, program, req);
      r := Perform(pid, program, req, a, start);
    }

    function Delegated(app: string): Delegation
      reads this
    {
      Shown(hub, app)
    }

    /** One call of `release`. Unless the stake is waiting and due and the application idle it touches
        nothing, whatever its own row says. */
    method Release(pid: nat, app: string, owner: Account, at: Address, a: Answers) returns (r: Result)
      requires Synced() && pid !in w.procs
      modifies this
      ensures Synced() && Reaches(old(w), w) && lock == old(lock)
      ensures r.Busy? <==> old(lock).Some?
      ensures r.Idle? <==> old(lock).None? && Passed(old(Delegated(app)))
      ensures var id := "independent-rehearsal" + ":" + app + ":" + Decimal(old(Delegated(app)).epoch) + ":" + "releaseStake";
        var req := Request(id, owner, Some(at), Data("releaseStake", [Text(app), Number(0)]), 0);
        if r.Busy? || !Waiting(old(Delegated(app))) then !r.Done? && table == old(table) && chain == old(chain)
        else
          && OneRow(old(table), old(chain), table, req, a.fees)
          && Ends(old(table), old(chain), table, chain, Program.Release(app, owner, at), req, a, r)
    {
      ghost var start := w;
      var program := Program.Release(app, owner, at);
      var locked := Acquire(pid, program);
      if !locked { return Busy; }
      var d := Delegated(app);
      if d.status == 0 || (d.status == 2 && !d.due) {
        Turn(pid, program, Nothing, start);
        return Idle;
      }
      if d.status != 2 || !d.idle {
        Turn(pid, program, Refused, start);
        return Thrown;
      }
      var req := ReleaseRequest(app, owner, at, d.epoch);
      Enter(start, pid, program, req);
      r := Perform(pid, program, req, a, start);
    }

    /** One call of `close`. A row of its id, whatever its state, makes it throw. */
    method Close(pid: nat, app: string, owner: Account, a: Answers) returns (r: Result)
      requires Synced() && pid !in w.procs
      modifies this
      ensures Synced() && Reaches(old(w), w) && lock == old(lock)
      ensures r.Busy? <==> old(lock).Some?
      ensures RowOf(old(table), CloseId(app, old(Delegated(app)).epoch)).Some? || HasPending(old(table), owner) ==>
        !r.Done? && table == old(table) && chain == old(chain)
      ensures var d := old(Delegated(app));
        var req := Request("independent-rehearsal" + ":" + app + ":" + Decimal(d.epoch) + ":" + "close",
                           owner, Some(Known(app)), Data("closeEngine", []), 0);
        if r.Busy? || d.status != 1 || !d.idle then !r.Done? && table == old(table) && chain == old(chain)
        else
          && OneRow(old(table), old(chain), table, req, a.fees)
          && Ends(old(table), old(chain), table, chain, Program.Close(app, owner), req, a, r)
    {
      ghost var start := w;
      var program := Program.Close(app, owner);
      var locked := Acquire(pid, program);
      if !locked { return Busy; }
      var d := Delegated(app);
      if d.status != 1 || !d.idle {
        Turn(pid, program, Refused, start);
        return Thrown;
      }
      var req := CloseRequest(app, owner, d.epoch);
      Enter(start, pid, program, req);
      r := CloseBy(pid, program, req, a, start);
    }

    /** The loop over the retired probes, all under one lock. Once it is through, every probe was
        released or not due yet, or its row has the action confirmed. */
    method Retire(pid: nat, apps: seq<string>, owner: Account, at: Address, a: seq<Answers>) returns (r: Result)
      requires Synced() && pid !in w.procs && |a| == |apps|
      modifies this
      ensures Synced() && Reaches(old(w), w) && lock == old(lock) && hub == old(hub)
      ensures r.Busy? <==> old(lock).Some?
      ensures r.Busy? ==> table == old(table) && chain == old(chain)
      ensures r.Idle? ==> AllHandled(table, apps, hub)
      ensures old(lock).None? && AllHandled(old(table), apps, hub) ==> r.Idle? && table == old(table) && chain == old(chain)
    {
      ghost var start := w;
      var locked := Acquire(pid, Program.Retire(apps, owner, at));
      if !locked { return Busy; }
      var goes := RetireEach(pid, apps, owner, at, a, start);
      if !goes { return Thrown; }
      Turn(pid, Program.Retire([], owner, at), Nothing, start);
      r := Idle;
    }

    /** The loop itself, with the lock held. */
    method RetireEach(pid: nat, apps: seq<string>, owner: Account, at: Address, a: seq<Answers>, ghost start: World)
      returns (goes: bool)
      requires Holding(start, pid, Proc(Program.Retire(apps, owner, at), Guard)) && |a| == |apps|
      modifies this
      ensures hub == old(hub)
      ensures goes ==> Holding(start, pid, Proc(Program.Retire([], owner, at), Guard)) && AllHandled(table, apps, hub)
      ensures !goes ==> Synced() && Reaches(start, w) && lock.None?
      ensures AllHandled(old(table), apps, hub) ==> goes && table == old(table) && chain == old(chain)
    {
      for i := 0 to |apps|
        invariant hub == old(hub) && Holding(start, pid, Proc(Program.Retire(apps[i..], owner, at), Guard))
        invariant AllHandled(table, apps[..i], hub)
        invariant AllHandled(old(table), apps, hub) ==> table == old(table) && chain == old(chain)
      {
        ghost var before := table;
        goes := RetireOne(pid, apps[i..], owner, at, a[i], start);
        if !goes { return; }
        AllHandledNext(before, table, apps, i, hub);
      }
      assert apps[..|apps|] == apps && apps[|apps|..] == [];
      goes := true;
    }

    /** One probe: skipped untouched while released or not due, refused untouched while active,
        challenged or used beyond its record, and otherwise closed or released as its status asks, or thrown at. */
    method RetireOne(pid: nat, apps: seq<string>, owner: Account, at: Address, a: Answers, ghost start: World)
      returns (goes: bool)
      requires apps != [] && Holding(start, pid, Proc(Program.Retire(apps, owner, at), Guard))
      modifies this
      ensures goes ==> Holding(start, pid, Proc(Program.Retire(apps[1..], owner, at), Guard))
      ensures !goes ==> Synced() && Reaches(start, w) && lock.None?
      ensures hub == old(hub) && Grows(old(table), table)
      ensures Passed(Delegated(apps[0])) ==> goes && table == old(table) && chain == old(chain)
      ensures !Passed(Delegated(apps[0])) && !Asks(Delegated(apps[0])) ==>
        !goes && table == old(table) && chain == old(chain)
      ensures goes ==> Handled(table, apps[0], Delegated(apps[0]))
      ensures Handled(old(table), apps[0], Delegated(apps[0])) ==> goes && table == old(table) && chain == old(chain)
      ensures var program, d := Program.Retire(apps, owner, at), Delegated(apps[0]);
        var action := if d.status == 1 then "forceClose" else "releaseStake";
        var id := "retire-probe" + ":" + apps[0] + ":" + Decimal(d.epoch) + ":" + action;
        var req := Request(id, owner, Some(at), Data(action, [Text(apps[0]), Number(0)]), 0);
        && OneRow(old(table), old(chain), table, req, a.fees)
        && (goes <==> Passed(d) || (Asks(d) && Succeeds(old(table), old(chain), program, req, a)))
        && (!Passed(d) && Asks(d) ==> Settles(old(table), old(chain), table, chain, program, req, a))
    {
      var program := Program.Retire(apps, owner, at);
      var d := Delegated(apps[0]);
      if d.status == 0 || (d.status == 2 && !d.due) {
        Skip(start, pid, apps, owner, at);
        return true;
      }
      if (d.status != 1 && d.status != 2) || !d.due || !d.bare {
        Turn(pid, program, Refused, start);
        return false;
      }
      var req := RetireRequest(apps[0], owner, at, d);
      Enter(start, pid, program, req);
      ghost var before, c := table, chain;
      goes := RetireBy(pid, apps, owner, at, req, a, start);
      if Handled(before, apps[0], d) { ConfirmedGoesThrough(before, c, table, chain, program, req, a); }
    }

    /** The action itself; a confirmed row lets the loop go on. */
    method RetireBy(pid: nat, apps: seq<string>, owner: Account, at: Address, req: Request, a: Answers, ghost start: World)
      returns (goes: bool)
      requires apps != [] && Before(start, pid, Program.Retire(apps, owner, at), req, Lookup)
      modifies this
      ensures goes ==> Holding(start, pid, Proc(Program.Retire(apps[1..], owner, at), Guard))
      ensures goes ==> RowOf(table, req.id).Some? && RowOf(table, req.id).value.status == Confirmed
      ensures !goes ==> Synced() && Reaches(start, w) && lock.None?
      ensures hub == old(hub) && Grows(old(table), table) && OneRow(old(table), old(chain), table, req, a.fees)
      ensures goes <==> Succeeds(old(table), old(chain), Program.Retire(apps, owner, at), req, a)
      ensures Settles(old(table), old(chain), table, chain, Program.Retire(apps, owner, at), req, a)
    {
      var program := Program.Retire(apps, owner, at);
      var raw, outcome := Settle(pid, program, req, a, start);
      if outcome.None? { return false; }
      if !outcome.value {
        var hash := Leave(pid, program, req, raw.value, false, start);
        return false;
      }
      FinishConfirms(w, pid, program, req, raw.value);
      Retired(start, pid, apps, owner, at, req, raw.value);
      goes := true;
    }

    /** `continue` past a probe that is released, or not due yet. */
    ghost method Skip(start: World, pid: nat, apps: seq<string>, owner: Account, at: Address)
      requires apps != [] && Holding(start, pid, Proc(Program.Retire(apps, owner, at), Guard))
      requires Passed(Delegated(apps[0]))
      modifies this`w
      ensures Holding(start, pid, Proc(Program.Retire(apps[1..], owner, at), Guard))
    {
      TakeStep(start, w, Tick(pid, QUIET));
      w := Do(w, Tick(pid, QUIET));
    }

    /** The end of the loop's body. */
    ghost method Retired(start: World, pid: nat, apps: seq<string>, owner: Account, at: Address, req: Request, raw: Raw)
      requires apps != [] && Before(start, pid, Program.Retire(apps, owner, at), req, Finish(raw, true))
      modifies this`w
      ensures Holding(start, pid, Proc(Program.Retire(apps[1..], owner, at), Guard))
    {
      TakeStep(start, w, Tick(pid, QUIET));
      w := Do(w, Tick(pid, QUIET));
    }
  }

  /** The loop goes on past this probe: it is released, or its stake is still locked. */
  predicate Passed(d: Delegation) { d.status == 0 || (d.status == 2 && !d.due) }

  /** The stake can be released now. */
  predicate Waiting(d: Delegation) { d.status == 2 && d.due && d.idle }

  /** The probe is due for the action of its status, and its activity is within its record. */
  predicate Asks(d: Delegation) { (d.status == 1 || d.status == 2) && d.due && d.bare }

  /** The loop is done with this probe: nothing to do, or its action is confirmed. */
  predicate Handled(t: Table, app: string, d: Delegation) {
    var r := RowOf(t, RetireId(app, d.epoch, ActionFor(d.status)));
    Passed(d) || (Asks(d) && r.Some? && r.value.status == Confirmed)
  }

  function Shown(hub: map<string, Delegation>, app: string): Delegation {
    if app in hub then hub[app] else UNKNOWN
  }

  ghost predicate AllHandled(t: Table, apps: seq<string>, hub: map<string, Delegation>) {
    forall app :: app in apps ==> Handled(t, app, Shown(hub, app))
  }

  lemma AllHandledNext(t: Table, u: Table, apps: seq<string>, i: nat, hub: map<string, Delegation>)
    requires TableOk(t) && TableOk(u) && Grows(t, u) && i < |apps|
    requires AllHandled(t, apps[..i], hub) && Handled(u, apps[i], Shown(hub, apps[i]))
    ensures AllHandled(u, apps[..i + 1], hub)
  {
    forall app | app in apps[..i + 1] ensures Handled(u, app, Shown(hub, app)) {
      if app in apps[..i] { HandledStays(t, u, app, Shown(hub, app)); }
    }
  }

  lemma HandledStays(t: Table, u: Table, app: string, d: Delegation)
    requires TableOk(t) && TableOk(u) && Grows(t, u) && Handled(t, app, d)
    ensures Handled(u, app, d)
  {
    if !Passed(d) { GrowsKeepsRow(t, u, RetireId(app, d.epoch, ActionFor(d.status))); }
  }

  /** The bytes a call settles: those of its row, which may not have failed and in `submit` must carry
      its payload; or new ones at the owner's account nonce, if nothing is pending or queued there. */
  ghost function Claimed(t: Table, c: Chain, program: Program, req: Request, fees: nat): Option<Raw> {
    match RowOf(t, req.id)
    case Some(job) =>
      var fits := program.Submit? ==> job.raw.to == req.to && job.raw.data == req.data && job.raw.value == req.value;
      if !program.Close? && fits && job.status != Failed then Some(job.raw) else None
    case None =>
      var n := Latest(c, req.owner);
      if HasPending(t, req.owner) || Queued(c, req.owner, n) then None
      else Some(Raw(req.owner, n, req.to, req.data, req.value, fees))
  }

  /** The table once the bytes are claimed: as it was, or with their new pending row. */
  function Claiming(t: Table, req: Request, raw: Raw): Table {
    if RowOf(t, req.id).Some? then t else t + [Row(req.id, req.owner, raw.nonce, raw, Keccak(raw), Pending)]
  }

  /** The call gets its transaction through. */
  ghost predicate Succeeds(t: Table, c: Chain, program: Program, req: Request, a: Answers) {
    var raw := Claimed(t, c, program, req, a.fees);
    raw.Some? && Fate(c, raw.value, a.delivered, a.mined) == Some(true)
  }

  /** From `(t, c)` to `(u, d)`: nothing without a claim; else the row gets the outcome of the claimed
      bytes, if there is one, and the node has what it was sent. */
  ghost predicate Settles(t: Table, c: Chain, u: Table, d: Chain, program: Program, req: Request, a: Answers) {
    match Claimed(t, c, program, req, a.fees)
    case None => u == t && d == c
    case Some(raw) =>
      var v, fate := Claiming(t, req, raw), Fate(c, raw, a.delivered, a.mined);
      && Attempted(c, d, raw, a.delivered, a.mined)
      && u == if fate.None? then v else SetStatus(v, req.id, if fate.value then Confirmed else Failed)
  }

  /** A confirmed row gets through again, and nothing changes. */
  lemma ConfirmedGoesThrough(t: Table, c: Chain, u: Table, d: Chain, program: Program, req: Request, a: Answers)
    requires KeysOk(t) && Settled(t, c) && program.Retire? && Settles(t, c, u, d, program, req, a)
    requires RowOf(t, req.id).Some? && RowOf(t, req.id).value.status == Confirmed
    ensures Succeeds(t, c, program, req, a) && u == t && d == c
  {
    var i :| 0 <= i < |t| && t[i] == RowOf(t, req.id).value;
    assert Receipt(c, t[i].hash) == Some(true) && t[i].hash == Keccak(t[i].raw);
    assert u == t by {
      forall k | 0 <= k < |t| ensures u[k] == t[k] { if t[k].id == req.id { RowOfAt(t, k); } }
    }
  }

  /** A call that held the lock: it returns a hash exactly when its transaction gets through, and it is
      that transaction's, in a confirmed row; otherwise it throws. */
  ghost predicate Ends(t: Table, c: Chain, u: Table, d: Chain, program: Program, req: Request, a: Answers, r: Result) {
    && Settles(t, c, u, d, program, req, a)
    && (if Succeeds(t, c, program, req, a) then r.Done? else r.Thrown?)
    && (r.Done? ==> Claimed(t, c, program, req, a.fees) == Some(r.hash.raw) && Delivered(program, req, r.hash, u))
  }

  /** A call adds at most one row, with its own id and payload at the account nonce, if there was none
      and nothing pending. */
  ghost predicate OneRow(t: Table, c: Chain, u: Table, req: Request, fees: nat) {
    && (RowOf(t, req.id).Some? ==> |u| == |t|)
    && (|u| == |t| ||
        (&& |u| == |t| + 1 && !HasPending(t, req.owner) && u[|t|].id == req.id && u[|t|].owner == req.owner
         && u[|t|].raw == Raw(req.owner, Latest(c, req.owner), req.to, req.data, req.value, fees)))
  }

  lemma OneRowKept(t: Table, c: Chain, u: Table, v: Table, req: Request, fees: nat)
    requires OneRow(t, c, u, req, fees) && Grows(t, u) && |v| == |u| && Grows(u, v)
    ensures OneRow(t, c, v, req, fees) && Grows(t, v)
  {
    GrowsTransitive(t, u, v);
  }

  lemma LookupNext(w: World, pid: nat, program: Program, req: Request, job: Row)
    requires pid in w.procs && w.procs[pid] == Proc(program, Working(req, Lookup)) && !program.Close?
    requires RowOf(w.table, req.id) == Some(job)
    ensures Do(w, Tick(pid, QUIET)) ==
      if Accepts(program, req, job) then Go(w, pid, Working(req, FetchReceipt(job.raw))) else Stop(w, pid, Refused)
  {
  }

  lemma UpdateNext(w: World, pid: nat, req: Request, raw: Raw, ok: bool)
    requires pid in w.procs && w.procs[pid].pc == Working(req, Update(raw, ok))
    ensures Do(w, Tick(pid, QUIET)) ==
      Go(w, pid, Working(req, Finish(raw, ok))).(table := SetStatus(w.table, req.id, Outcome(ok)))
  {
  }

  lemma FinishConfirms(w: World, pid: nat, program: Program, req: Request, raw: Raw)
    requires Inv(w) && pid in w.procs && w.procs[pid] == Proc(program, Working(req, Finish(raw, true)))
    ensures RowOf(w.table, req.id).Some? && RowOf(w.table, req.id).value.status == Confirmed
  {
    assert ProcOk(w.procs[pid], w.table, w.chain);
  }

  lemma OverDelivers(w: World, pid: nat, program: Program, req: Request, hash: Hash)
    requires Inv(w) && pid in w.procs && w.procs[pid] == Proc(program, Ended(Returned(req, hash)))
    ensures Delivered(program, req, hash, w.table)
  {
    assert ProcOk(w.procs[pid], w.table, w.chain);
  }
}
