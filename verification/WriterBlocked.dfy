/** A pending row that no run looks up by its own id stays pending, and closes the
    journal to its owner. `release`, the retirement loop and `close` do leave such rows. */
module WriterBlocked {
  import opened Options
  import opened Wire
  import opened Chain
  import opened Journal
  import opened Keys
  import opened Writers
  import opened WriterSafety
  import opened WriterResults
  import opened WriterRecovery

  /** The row the retirement loop would go on to reconcile, at the turn of `app`. */
  function RetireTarget(app: string, d: Delegation): Option<Id> {
    if (d.status == 1 || d.status == 2) && d.due && d.bare then Some(RetireId(app, d.epoch, ActionFor(d.status))) else None
  }

  /** The existing row a process at its guard would go on to reconcile. `close` never
      does: it stops when its row exists. */
  function Target(w: World, program: Program): Option<Id> {
    match program
    case Submit(req) => Some(req.id)
    case Release(app, _, _) =>
      var d := HubOf(w, app);
      if d.status == 2 && d.due && d.idle then Some(ReleaseId(app, d.epoch)) else None
    case Retire(apps, _, _) => if apps == [] then None else RetireTarget(apps[0], HubOf(w, apps[0]))
    case Close(_, _) => None
  }

  /** Nobody is reconciling row `id`, or about to. */
  predicate Aside(p: Proc, id: Id) {
    p.pc.Working? && p.pc.req.id == id ==> p.pc.phase.Lookup? && p.program.Close?
  }

  /** The row `id` of `owner` is pending and every process leaves it aside. */
  ghost predicate Stranded(w: World, id: Id, owner: Account) {
    && RowOf(w.table, id).Some?
    && RowOf(w.table, id).value.status == Pending && RowOf(w.table, id).value.owner == owner
    && forall pid :: pid in w.procs ==> Aside(w.procs[pid], id)
  }

  /** The step neither watches the receipt of `id` nor starts to reconcile it. */
  ghost predicate Avoids(w: World, s: Step, id: Id) {
    && s != Observe(id)
    && (s.Tick? && s.pid in w.procs && w.procs[s.pid].pc.Guard? ==> Target(w, w.procs[s.pid].program) != Some(id))
  }

  /** Every step of the run passes the test, in the state where it is taken. */
  ghost predicate AllSteps(w: World, steps: seq<Step>, test: (World, Step) -> bool)
    requires CanRun(w, steps)
    decreases |steps|
  {
    steps == [] || (test(w, steps[0]) && AllSteps(Do(w, steps[0]), steps[1..], test))
  }

  lemma {:induction false} Weaken(w: World, steps: seq<Step>, p: (World, Step) -> bool, q: (World, Step) -> bool)
    requires CanRun(w, steps) && AllSteps(w, steps, p)
    requires forall u, s :: p(u, s) ==> q(u, s)
    ensures AllSteps(w, steps, q)
    decreases |steps|
  {
    if steps != [] {
      assert p(w, steps[0]);
      Weaken(Do(w, steps[0]), steps[1..], p, q);
    }
  }

  ghost predicate AllAvoid(w: World, steps: seq<Step>, id: Id)
    requires CanRun(w, steps)
  {
    AllSteps(w, steps, (u, s) => Avoids(u, s, id))
  }

  /** No row of `owner` was added between `t` and `u`. */
  ghost predicate NoNewRow(t: Table, u: Table, owner: Account) {
    |t| <= |u| && forall i :: |t| <= i < |u| ==> u[i].owner != owner
  }

  /** What a step of `pid` leaves of the stranded row. */
  ghost predicate LeavesRow(w: World, v: World, pid: nat, id: Id, owner: Account) {
    && RowOf(v.table, id) == RowOf(w.table, id) && NoNewRow(w.table, v.table, owner)
    && pid in v.procs && Aside(v.procs[pid], id)
  }

  /** Nobody can insert for an owner with a pending row. */
  lemma InsertLeavesRow(w: World, pid: nat, req: Request, raw: Raw, c: Choice, id: Id, owner: Account)
    requires Inv(w) && Stranded(w, id, owner) && pid in w.procs && w.procs[pid].pc == Working(req, Insert(raw))
    ensures LeavesRow(w, TickWork(w, pid, req, Insert(raw), c), pid, id, owner)
  {
    assert Aside(w.procs[pid], id);
    assert HasPending(w.table, owner);
    assert Clear(w.table, req) by { assert ProcOk(w.procs[pid], w.table, w.chain); }
    RowOfAppend(w.table, RowFor(req, raw), id);
  }

  lemma UpdateLeavesRow(w: World, pid: nat, req: Request, raw: Raw, ok: bool, c: Choice, id: Id, owner: Account)
    requires pid in w.procs && w.procs[pid].pc == Working(req, Update(raw, ok))
    requires RowOf(w.table, id).Some? && Aside(w.procs[pid], id)
    ensures LeavesRow(w, TickWork(w, pid, req, Update(raw, ok), c), pid, id, owner)
  {
    assert TickWork(w, pid, req, Update(raw, ok), c) ==
      Go(w, pid, Working(req, Finish(raw, ok))).(table := SetStatus(w.table, req.id, Outcome(ok)));
    RowOfSetStatus(w.table, req.id, Outcome(ok), id);
  }

  lemma StaysAside(w: World, pid: nat, req: Request, phase: Phase, c: Choice, id: Id)
    requires pid in w.procs && w.procs[pid].pc == Working(req, phase) && Aside(w.procs[pid], id)
    requires phase.Lookup? ==> RowOf(w.table, id).Some?
    ensures pid in TickWork(w, pid, req, phase, c).procs && Aside(TickWork(w, pid, req, phase, c).procs[pid], id)
  {
  }

  lemma WorkLeavesRow(w: World, pid: nat, req: Request, phase: Phase, c: Choice, id: Id, owner: Account)
    requires Inv(w) && Stranded(w, id, owner) && pid in w.procs && w.procs[pid].pc == Working(req, phase)
    ensures LeavesRow(w, TickWork(w, pid, req, phase, c), pid, id, owner)
  {
    assert Aside(w.procs[pid], id);
    match phase
    case Insert(raw) => InsertLeavesRow(w, pid, req, raw, c, id, owner);
    case Update(raw, ok) => UpdateLeavesRow(w, pid, req, raw, ok, c, id, owner);
    case _ =>
      StaysAside(w, pid, req, phase, c, id);
      WorkWrites(w, pid, req, phase, c);
  }

  lemma GuardLeavesRow(w: World, pid: nat, id: Id, owner: Account)
    requires pid in w.procs && w.procs[pid].pc.Guard? && Target(w, w.procs[pid].program) != Some(id)
    ensures LeavesRow(w, TickGuard(w, pid), pid, id, owner)
  {
    var p := TickGuard(w, pid).procs[pid];
    if p.pc.Working? && !p.program.Close? {
      assert Target(w, w.procs[pid].program) == Some(p.pc.req.id);
    }
  }

  lemma TickLeavesRow(w: World, pid: nat, c: Choice, id: Id, owner: Account)
    requires Inv(w) && Stranded(w, id, owner) && pid in w.procs
    requires w.procs[pid].pc.Guard? ==> Target(w, w.procs[pid].program) != Some(id)
    ensures LeavesRow(w, TickProc(w, pid, c), pid, id, owner)
  {
    match w.procs[pid].pc
    case Guard => GuardLeavesRow(w, pid, id, owner);
    case Working(req, phase) =>
      WorkLeavesRow(w, pid, req, phase, c, id, owner);
    case _ =>
  }

  lemma TickStrands(w: World, pid: nat, c: Choice, id: Id, owner: Account)
    requires Stranded(w, id, owner) && pid in w.procs
    requires LeavesRow(w, TickProc(w, pid, c), pid, id, owner)
    ensures Stranded(TickProc(w, pid, c), id, owner)
  {
    var v := TickProc(w, pid, c);
    forall q | q in v.procs ensures Aside(v.procs[q], id) {
      if q != pid { TickOfAnother(w, pid, c, q); assert Aside(w.procs[q], id); }
    }
  }

  lemma ObserveLeavesRow(t: Table, c: Chain, key: Id, id: Id)
    requires key != id
    ensures RowOf(Reconcile(t, c, key), id) == RowOf(t, id) && |Reconcile(t, c, key)| == |t|
  {
    var r := RowOf(t, key);
    if r.Some? && Receipt(c, r.value.hash).Some? {
      RowOfSetStatus(t, key, Outcome(Receipt(c, r.value.hash).value), id);
    }
  }

  lemma StepStrands(w: World, s: Step, id: Id, owner: Account)
    requires Inv(w) && Can(w, s) && Stranded(w, id, owner) && Avoids(w, s, id)
    ensures Stranded(Do(w, s), id, owner) && NoNewRow(w.table, Do(w, s).table, owner)
  {
    match s
    case Tick(pid, c) =>
      TickLeavesRow(w, pid, c, id, owner);
      TickStrands(w, pid, c, id, owner);
    case Observe(key) => ObserveLeavesRow(w.table, w.chain, key, id);
    case Spawn(pid, _) =>
    case Crash(pid) =>
    case Network(_) =>
    case Foreign(_) =>
    case HubMoves(_, _) =>
  }

  /** Blocked for good: while no run targets the row and nobody watches its receipt, it
      stays pending and its owner gets no new row, whatever else happens. */
  lemma {:induction false} BlockedForever(w: World, steps: seq<Step>, id: Id, owner: Account)
    requires Inv(w) && Stranded(w, id, owner) && CanRun(w, steps) && AllAvoid(w, steps, id)
    ensures Stranded(Run(w, steps), id, owner) && NoNewRow(w.table, Run(w, steps).table, owner)
    decreases |steps|
  {
    if steps != [] {
      var v := Do(w, steps[0]);
      StepStrands(w, steps[0], id, owner);
      StepKeepsInv(w, steps[0]);
      BlockedForever(v, steps[1..], id, owner);
      var u := Run(v, steps[1..]).table;
      RunKeepsInv(v, steps[1..]);
      forall i | |w.table| <= i < |u| ensures u[i].owner != owner {
        if i < |v.table| { assert v.table[i].owner != owner && (u[i] == v.table[i] || u[i] == v.table[i].(status := u[i].status)); }
      }
    }
  }

  // ---- the keys of the lifecycle programs

  predicate IsAction(action: string) { action == "forceClose" || action == "releaseStake" }

  lemma ActionHasNoMark(action: string)
    requires IsAction(action) || action == "close"
    ensures ':' !in action
  {
    assert forall i :: 0 <= i < |action| ==> 'A' <= action[i] <= 'z';
  }

  /** A key comes apart into its application, epoch and action, whatever the application is called. */
  lemma KeyParts(head: string, app: string, epoch: nat, action: string, other: string, at: nat, deed: string)
    requires LifecycleKey(head, app, epoch, action) == LifecycleKey(head, other, at, deed)
    requires (IsAction(action) || action == "close") && (IsAction(deed) || deed == "close")
    ensures app == other && epoch == at && action == deed
  {
    ActionHasNoMark(action);
    ActionHasNoMark(deed);
    SplitAtLast(head + ":" + app + ":" + Decimal(epoch), action, head + ":" + other + ":" + Decimal(at), deed, ':');
    SplitAtNumber(head + ":" + app, epoch, head + ":" + other, at, ':');
    SameHead(head + ":", app, other);
  }

  /** Two lifecycle programs form the same key only for the same application, epoch and action;
      the loop's keys never meet those of the other two, nor theirs each other's. */
  lemma LifecycleIdsDiffer(app: string, epoch: nat, action: string, other: string, at: nat, deed: string)
    requires IsAction(action) && IsAction(deed)
    ensures RetireId(other, at, deed) == RetireId(app, epoch, action) ==> other == app && at == epoch && deed == action
    ensures ReleaseId(other, at) == ReleaseId(app, epoch) ==> other == app && at == epoch
    ensures RetireId(other, at, deed) != ReleaseId(app, epoch)
    ensures RetireId(other, at, deed) != CloseId(app, epoch)
    ensures ReleaseId(other, at) != CloseId(app, epoch)
  {
    if RetireId(other, at, deed) == RetireId(app, epoch, action) {
      KeyParts("retire-probe", other, at, deed, app, epoch, action);
    }
    if ReleaseId(other, at) == ReleaseId(app, epoch) {
      KeyParts("independent-rehearsal", other, at, "releaseStake", app, epoch, "releaseStake");
    }
    if ReleaseId(other, at) == CloseId(app, epoch) {
      KeyParts("independent-rehearsal", other, at, "releaseStake", app, epoch, "close");
    }
    assert RetireId(other, at, deed)[0] == 'r';
    assert ReleaseId(app, epoch)[0] == CloseId(app, epoch)[0] == 'i';
  }

  // ---- rows that no rerun reconciles

  /** No receipt watcher settles row `id`, and nobody submits under its id. */
  ghost predicate Unwatched(w: World, s: Step, id: Id) {
    && s != Observe(id)
    && (s.Tick? && s.pid in w.procs && w.procs[s.pid].pc.Guard? && w.procs[s.pid].program.Submit? ==>
          w.procs[s.pid].program.req.id != id)
  }

  /** In addition, the hub does not show `app` at this epoch and status. */
  ghost predicate Past(w: World, s: Step, app: string, epoch: nat, status: nat, id: Id) {
    Unwatched(w, s, id) && !(HubOf(w, app).epoch == epoch && HubOf(w, app).status == status)
  }

  function StatusFor(action: string): nat { if action == "forceClose" then 1 else 2 }

  lemma ReleaseAims(w: World, program: Program, app: string, epoch: nat)
    requires !program.Submit? && Target(w, program) == Some(ReleaseId(app, epoch))
    ensures program.Release? && program.app == app && HubOf(w, app).status == 2 && HubOf(w, app).epoch == epoch
  {
    if program.Retire? {
      var d := HubOf(w, program.apps[0]);
      LifecycleIdsDiffer(app, epoch, ActionFor(d.status), program.apps[0], d.epoch, ActionFor(d.status));
    } else {
      LifecycleIdsDiffer(app, epoch, "forceClose", program.app, HubOf(w, program.app).epoch, "forceClose");
    }
  }

  lemma RetireAims(w: World, program: Program, app: string, epoch: nat, action: string)
    requires IsAction(action) && !program.Submit? && Target(w, program) == Some(RetireId(app, epoch, action))
    ensures program.Retire? && program.apps != [] && program.apps[0] == app
    ensures HubOf(w, app).status == StatusFor(action) && HubOf(w, app).epoch == epoch
  {
    if program.Retire? {
      var d := HubOf(w, program.apps[0]);
      LifecycleIdsDiffer(app, epoch, action, program.apps[0], d.epoch, ActionFor(d.status));
    } else {
      LifecycleIdsDiffer(program.app, HubOf(w, program.app).epoch, action, app, epoch, action);
    }
  }

  lemma NobodyAimsAtClose(w: World, program: Program, app: string, epoch: nat)
    requires !program.Submit?
    ensures Target(w, program) != Some(CloseId(app, epoch))
  {
    if program.Retire? && program.apps != [] {
      var d := HubOf(w, program.apps[0]);
      LifecycleIdsDiffer(app, epoch, ActionFor(d.status), program.apps[0], d.epoch, ActionFor(d.status));
    }
    if program.Release? {
      LifecycleIdsDiffer(app, epoch, "forceClose", program.app, HubOf(w, program.app).epoch, "forceClose");
    }
  }

  /** Once the hub has moved on from the waiting stake, no number of later runs of the four
      programs ever reconciles the row of that release, and the owner gets no new row. */
  lemma ReleaseNeverRecovers(w: World, steps: seq<Step>, app: string, epoch: nat, owner: Account)
    requires Inv(w) && CanRun(w, steps) && Stranded(w, ReleaseId(app, epoch), owner)
    requires AllSteps(w, steps, (u, s) => Past(u, s, app, epoch, 2, ReleaseId(app, epoch)))
    ensures Stranded(Run(w, steps), ReleaseId(app, epoch), owner)
    ensures NoNewRow(w.table, Run(w, steps).table, owner)
  {
    var id := ReleaseId(app, epoch);
    forall u, s | Past(u, s, app, epoch, 2, id) ensures Avoids(u, s, id) {
      if s.Tick? && s.pid in u.procs && u.procs[s.pid].pc.Guard? && Target(u, u.procs[s.pid].program) == Some(id) {
        if !u.procs[s.pid].program.Submit? { ReleaseAims(u, u.procs[s.pid].program, app, epoch); }
      }
    }
    Weaken(w, steps, (u, s) => Past(u, s, app, epoch, 2, id), (u, s) => Avoids(u, s, id));
    BlockedForever(w, steps, id, owner);
  }

  /** The same for either action of the retirement loop. */
  lemma RetireNeverRecovers(w: World, steps: seq<Step>, app: string, epoch: nat, action: string, owner: Account)
    requires IsAction(action) && Inv(w) && CanRun(w, steps) && Stranded(w, RetireId(app, epoch, action), owner)
    requires AllSteps(w, steps, (u, s) => Past(u, s, app, epoch, StatusFor(action), RetireId(app, epoch, action)))
    ensures Stranded(Run(w, steps), RetireId(app, epoch, action), owner)
    ensures NoNewRow(w.table, Run(w, steps).table, owner)
  {
    var id, status := RetireId(app, epoch, action), StatusFor(action);
    forall u, s | Past(u, s, app, epoch, status, id) ensures Avoids(u, s, id) {
      if s.Tick? && s.pid in u.procs && u.procs[s.pid].pc.Guard? && Target(u, u.procs[s.pid].program) == Some(id) {
        if !u.procs[s.pid].program.Submit? { RetireAims(u, u.procs[s.pid].program, app, epoch, action); }
      }
    }
    Weaken(w, steps, (u, s) => Past(u, s, app, epoch, status, id), (u, s) => Avoids(u, s, id));
    BlockedForever(w, steps, id, owner);
  }

  /** `close` refuses to run while its row exists, so an interrupted close is never
      reconciled by rerunning any of the lifecycle programs, wherever the hub stands. */
  lemma CloseNeverRecovers(w: World, steps: seq<Step>, app: string, epoch: nat, owner: Account)
    requires Inv(w) && CanRun(w, steps) && Stranded(w, CloseId(app, epoch), owner)
    requires AllSteps(w, steps, (u, s) => Unwatched(u, s, CloseId(app, epoch)))
    ensures Stranded(Run(w, steps), CloseId(app, epoch), owner)
    ensures NoNewRow(w.table, Run(w, steps).table, owner)
  {
    var id := CloseId(app, epoch);
    forall u, s | Unwatched(u, s, id) ensures Avoids(u, s, id) {
      if s.Tick? && s.pid in u.procs && !u.procs[s.pid].program.Submit? {
        NobodyAimsAtClose(u, u.procs[s.pid].program, app, epoch);
      }
    }
    Weaken(w, steps, (u, s) => Unwatched(u, s, id), (u, s) => Avoids(u, s, id));
    BlockedForever(w, steps, id, owner);
  }

  // ---- exactly when one pass reconciles its row

  /** Nothing happens but process `pid` running, and the network at work. */
  predicate Alone(s: Step, pid: nat) {
    match s
    case Tick(p, _) => p == pid
    case Network(_) => true
    case _ => false
  }

  /** Running `pid` alone, in some way, settles row `id`. */
  ghost predicate Settles(w: World, more: seq<Step>, pid: nat, id: Id) {
    && (forall s :: s in more ==> Alone(s, pid)) && CanRun(w, more)
    && RowOf(Run(w, more).table, id).Some? && RowOf(Run(w, more).table, id).value.status != Pending
  }

  /** The lock holder runs `program` and stands at its guard; row `id` is pending and the chain holds its transaction. */
  ghost predicate AtGuard(w: World, pid: nat, program: Program, id: Id) {
    && Inv(w) && pid in w.procs && w.procs[pid] == Proc(program, Guard)
    && RowOf(w.table, id).Some? && RowOf(w.table, id).value.status == Pending
    && Receipt(w.chain, RowOf(w.table, id).value.hash).Some?
  }

  lemma LookupFinds(w: World, pid: nat, req: Request)
    requires Inv(w) && pid in w.procs && w.procs[pid].pc == Working(req, Lookup)
    requires w.procs[pid].program.Release? || w.procs[pid].program.Retire?
    requires RowOf(w.table, req.id).Some? && RowOf(w.table, req.id).value.status == Pending
    ensures TickProc(w, pid, SMOOTH) == Go(w, pid, Working(req, FetchReceipt(RowOf(w.table, req.id).value.raw)))
  {
  }

  lemma FetchSees(w: World, pid: nat, req: Request, raw: Raw)
    requires pid in w.procs && w.procs[pid].pc == Working(req, FetchReceipt(raw)) && Receipt(w.chain, Keccak(raw)).Some?
    ensures TickProc(w, pid, SMOOTH) == Go(w, pid, Working(req, Update(raw, Receipt(w.chain, Keccak(raw)).value)))
  {
  }

  lemma UpdateSettles(w: World, pid: nat, req: Request, raw: Raw, ok: bool)
    requires pid in w.procs && w.procs[pid].pc == Working(req, Update(raw, ok)) && RowOf(w.table, req.id).Some?
    ensures Settles(w, [Tick(pid, SMOOTH)], pid, req.id)
  {
    var t := Tick(pid, SMOOTH);
    var v := Go(w, pid, Working(req, Finish(raw, ok))).(table := SetStatus(w.table, req.id, Outcome(ok)));
    assert Do(w, t) == v;
    RowOfSetStatus(w.table, req.id, Outcome(ok), req.id);
    assert [t][1..] == [] && CanRun(v, []) && Run(v, []) == v;
  }

  lemma FetchSettles(w: World, pid: nat, req: Request, raw: Raw)
    requires pid in w.procs && w.procs[pid].pc == Working(req, FetchReceipt(raw))
    requires RowOf(w.table, req.id).Some? && Receipt(w.chain, Keccak(raw)).Some?
    ensures Settles(w, [Tick(pid, SMOOTH), Tick(pid, SMOOTH)], pid, req.id)
  {
    var ok := Receipt(w.chain, Keccak(raw)).value;
    FetchSees(w, pid, req, raw);
    UpdateSettles(Go(w, pid, Working(req, Update(raw, ok))), pid, req, raw, ok);
    SettlesLater(w, pid, req.id, [Tick(pid, SMOOTH)]);
    assert [Tick(pid, SMOOTH)] + [Tick(pid, SMOOTH)] == [Tick(pid, SMOOTH), Tick(pid, SMOOTH)];
  }

  lemma SettlesLater(w: World, pid: nat, id: Id, rest: seq<Step>)
    requires pid in w.procs && Can(w, Tick(pid, SMOOTH)) && Settles(TickProc(w, pid, SMOOTH), rest, pid, id)
    ensures Settles(w, [Tick(pid, SMOOTH)] + rest, pid, id)
  {
    assert ([Tick(pid, SMOOTH)] + rest)[1..] == rest;
  }

  lemma GuardAims(w: World, pid: nat, program: Program, id: Id) returns (req: Request)
    requires pid in w.procs && w.procs[pid] == Proc(program, Guard) && Target(w, program) == Some(id)
    ensures req.id == id && TickGuard(w, pid) == Go(w, pid, Working(req, Lookup))
  {
    req := TickGuard(w, pid).procs[pid].pc.req;
  }

  lemma TargetSettles(w: World, pid: nat, program: Program, id: Id)
    requires AtGuard(w, pid, program, id) && (program.Release? || program.Retire?) && Target(w, program) == Some(id)
    ensures exists more :: Settles(w, more, pid, id)
  {
    var req := GuardAims(w, pid, program, id);
    GuardSettles(w, pid, req);
  }

  lemma GuardSettles(w: World, pid: nat, req: Request)
    requires Inv(w) && pid in w.procs && w.procs[pid].pc == Guard
    requires w.procs[pid].program.Release? || w.procs[pid].program.Retire?
    requires TickGuard(w, pid) == Go(w, pid, Working(req, Lookup))
    requires RowOf(w.table, req.id).Some? && RowOf(w.table, req.id).value.status == Pending
    requires Receipt(w.chain, RowOf(w.table, req.id).value.hash).Some?
    ensures Settles(w, [Tick(pid, SMOOTH)] + SettlingTicks(pid), pid, req.id)
  {
    var v := Go(w, pid, Working(req, Lookup));
    assert TickProc(w, pid, SMOOTH) == v && Inv(v) by { TickKeepsInv(w, pid, SMOOTH); }
    LookupSettles(v, pid, req);
    SettlesLater(w, pid, req.id, SettlingTicks(pid));
  }

  /** The awaits from the lookup of an included row to its update. */
  function SettlingTicks(pid: nat): seq<Step> {
    [Tick(pid, SMOOTH)] + [Tick(pid, SMOOTH), Tick(pid, SMOOTH)]
  }

  lemma LookupSettles(w: World, pid: nat, req: Request)
    requires Inv(w) && pid in w.procs && w.procs[pid].pc == Working(req, Lookup)
    requires w.procs[pid].program.Release? || w.procs[pid].program.Retire?
    requires RowOf(w.table, req.id).Some? && RowOf(w.table, req.id).value.status == Pending
    requires Receipt(w.chain, RowOf(w.table, req.id).value.hash).Some?
    ensures Settles(w, SettlingTicks(pid), pid, req.id)
  {
    var t, raw := Tick(pid, SMOOTH), RowOf(w.table, req.id).value.raw;
    LookupFinds(w, pid, req);
    RowFoundIsOk(w.table, req.id);
    FetchSettles(Go(w, pid, Working(req, FetchReceipt(raw))), pid, req, raw);
    SettlesLater(w, pid, req.id, [t, t]);
  }

  /** As the hub stands, no turn of the program aims at row `id`. */
  predicate NeverAims(w: World, program: Program, id: Id) {
    match program
    case Retire(apps, _, _) => forall app :: app in apps ==> RetireTarget(app, HubOf(w, app)) != Some(id)
    case _ => Target(w, program) != Some(id)
  }

  lemma AimShrinks(w: World, v: World, p: Program, q: Program, id: Id)
    requires v.hub == w.hub && SameOrShorter(p, q) && NeverAims(w, p, id)
    ensures NeverAims(v, q, id)
  {
    if p.Retire? {
      forall app | app in q.apps ensures RetireTarget(app, HubOf(v, app)) != Some(id) { assert app in p.apps; }
    }
  }

  lemma AloneKeepsAim(w: World, s: Step, pid: nat, id: Id)
    requires Can(w, s) && Alone(s, pid) && pid in w.procs && NeverAims(w, w.procs[pid].program, id)
    ensures pid in Do(w, s).procs && NeverAims(Do(w, s), Do(w, s).procs[pid].program, id)
  {
    if s.Tick? {
      match w.procs[pid].pc {
        case Guard => GuardKeepsProgram(w, pid);
        case Working(req, phase) => WorkKeepsProgram(w, pid, req, phase, s.choice);
        case _ =>
      }
      AimShrinks(w, Do(w, s), w.procs[pid].program, Do(w, s).procs[pid].program, id);
    }
  }

  lemma {:induction false} AloneAvoids(w: World, more: seq<Step>, pid: nat, id: Id)
    requires CanRun(w, more) && (forall s :: s in more ==> Alone(s, pid))
    requires pid in w.procs && NeverAims(w, w.procs[pid].program, id)
    ensures AllAvoid(w, more, id)
    decreases |more|
  {
    if more != [] {
      AloneKeepsAim(w, more[0], pid, id);
      AloneAvoids(Do(w, more[0]), more[1..], pid, id);
    }
  }

  lemma PassesBy(w: World, pid: nat, program: Program, id: Id, more: seq<Step>)
    requires AtGuard(w, pid, program, id) && NeverAims(w, program, id)
    ensures !Settles(w, more, pid, id)
  {
    if (forall s :: s in more ==> Alone(s, pid)) && CanRun(w, more) {
      forall q | q in w.procs ensures Aside(w.procs[q], id) {}
      AloneAvoids(w, more, pid, id);
      BlockedForever(w, more, id, RowOf(w.table, id).value.owner);
    }
  }

  /** One pass of `release` over its pending row, whose transaction the chain holds: with
      nothing else running, the row can be reconciled exactly when the hub still shows the stake
      of its epoch as waiting (status 2) and due at the guard, and the application has no active
      game. */
  lemma ReleaseReconcilesIff(w: World, pid: nat, program: Program, epoch: nat)
    requires program.Release? && AtGuard(w, pid, program, ReleaseId(program.app, epoch))
    ensures var d := HubOf(w, program.app);
      d.epoch == epoch && d.status == 2 && d.due && d.idle <==>
      exists more :: Settles(w, more, pid, ReleaseId(program.app, epoch))
  {
    var app := program.app;
    var (d, id) := (HubOf(w, app), ReleaseId(app, epoch));
    if d.epoch == epoch && d.status == 2 && d.due && d.idle {
      TargetSettles(w, pid, program, id);
    } else {
      LifecycleIdsDiffer(app, epoch, "forceClose", app, d.epoch, "forceClose");
      forall more ensures !Settles(w, more, pid, id) { PassesBy(w, pid, program, id, more); }
    }
  }

  /** The retirement loop at the turn of an application: it can reconcile its row for this epoch
      and action exactly when the hub shows that epoch, due, at status 1 for `forceClose` and
      at status 2 for `releaseStake`, and the application's activity is within its record. */
  lemma RetireReconcilesIff(w: World, pid: nat, program: Program, epoch: nat, action: string)
    requires program.Retire? && program.apps != [] && IsAction(action)
    requires AtGuard(w, pid, program, RetireId(program.apps[0], epoch, action))
    ensures var d := HubOf(w, program.apps[0]);
      d.epoch == epoch && d.status == StatusFor(action) && d.due && d.bare <==>
      exists more :: Settles(w, more, pid, RetireId(program.apps[0], epoch, action))
  {
    var app := program.apps[0];
    var (d, id) := (HubOf(w, app), RetireId(app, epoch, action));
    if d.epoch == epoch && d.status == StatusFor(action) && d.due && d.bare {
      TargetSettles(w, pid, program, id);
    } else {
      forall other | other in program.apps ensures RetireTarget(other, HubOf(w, other)) != Some(id) {
        var e := HubOf(w, other);
        LifecycleIdsDiffer(app, epoch, action, other, e.epoch, ActionFor(e.status));
      }
      forall more ensures !Settles(w, more, pid, id) { PassesBy(w, pid, program, id, more); }
    }
  }

  /** A pass of `close` never reconciles a row, its own included. */
  lemma CloseReconcilesNone(w: World, pid: nat, program: Program, id: Id)
    requires program.Close? && AtGuard(w, pid, program, id)
    ensures forall more :: !Settles(w, more, pid, id)
  {
    forall more ensures !Settles(w, more, pid, id) { PassesBy(w, pid, program, id, more); }
  }

  /** With its `forceClose` still pending, the loop does not pass by a stake that has become due:
      it turns to `releaseStake`, whose check finds its own row pending, and throws, unless it
      already throws at the activity of the application. */
  lemma OwnRowStopsTheLoop(w: World, pid: nat, program: Program, epoch: nat, a: Choice, b: Choice, c: Choice)
    requires program.Retire? && program.apps != [] && pid in w.procs && w.procs[pid] == Proc(program, Guard)
    requires var d := HubOf(w, program.apps[0]); d.status == 2 && d.epoch == epoch && d.due
    requires RowOf(w.table, RetireId(program.apps[0], epoch, "forceClose")).Some?
    requires var r := RowOf(w.table, RetireId(program.apps[0], epoch, "forceClose")).value;
      r.status == Pending && r.owner == program.owner
    requires RowOf(w.table, RetireId(program.apps[0], epoch, "releaseStake")).None?
    ensures var w1 := TickProc(w, pid, a); var w2 := TickProc(w1, pid, b); var w3 := TickProc(w2, pid, c);
      w3.procs[pid].pc == Ended(Refused) && w3.table == w.table && w3.chain == w.chain
  {
    var req := RetireRequest(program.apps[0], program.owner, program.hub, HubOf(w, program.apps[0]));
    if HubOf(w, program.apps[0]).bare {
      var w1 := Go(w, pid, Working(req, Lookup));
      assert TickProc(w, pid, a) == w1;
      var w2 := Go(w1, pid, Working(req, CheckPending));
      assert TickProc(w1, pid, b) == w2;
      assert HasPending(w2.table, req.owner);
    } else {
      assert TickProc(w, pid, a) == Stop(w, pid, Refused);
    }
  }

  // ---- runs that get there

  /** A process whose lock is held moves on by one await. */
  lemma Moves(w: World, u: World, pid: nat, req: Request, phase: Phase)
    requires Reaches(w, u) && pid in u.procs && u.procs[pid].pc == Working(req, phase)
    requires phase.ReadPending? ==> IsPendingCount(u.chain, req.owner, 0)
    ensures Reaches(w, TickWork(u, pid, req, phase, SMOOTH))
  {
    ReachesNext(w, Tick(pid, SMOOTH), u);
  }

  /** An empty journal: the queries pass. */
  lemma Checks(w: World, u: World, pid: nat, req: Request)
    requires Reaches(w, u) && pid in u.procs && u.procs[pid].pc == Working(req, Lookup) && u.table == []
    ensures Reaches(w, Go(u, pid, Working(req, ReadPending)))
  {
    Moves(w, u, pid, req, Lookup);
    if !u.procs[pid].program.Close? {
      var u1 := Go(u, pid, Working(req, CheckPending));
      Moves(w, u1, pid, req, CheckPending);
      assert Go(u1, pid, Working(req, ReadPending)) == Go(u, pid, Working(req, ReadPending));
    }
  }

  /** An unused account: the nonce is 0. */
  lemma Counts(w: World, u: World, pid: nat, req: Request)
    requires Reaches(w, u) && pid in u.procs && u.procs[pid].pc == Working(req, ReadPending)
    requires u.chain == Chain(map[], {}, [])
    ensures Reaches(w, Go(u, pid, Working(req, Prepare(0))))
  {
    assert IsPendingCount(u.chain, req.owner, 0);
    Moves(w, u, pid, req, ReadPending);
    var u1 := Go(u, pid, Working(req, ReadLatest(0)));
    Moves(w, u1, pid, req, ReadLatest(0));
    assert Go(u1, pid, Working(req, Prepare(0))) == Go(u, pid, Working(req, Prepare(0)));
  }

  /** The lock holder signs at nonce 0, journals what it signed, and turns to the broadcast. */
  lemma Signs(w: World, u: World, pid: nat, req: Request)
    requires Reaches(w, u) && pid in u.procs && u.procs[pid].pc == Working(req, Prepare(0)) && u.table == []
    requires u.chain.included == []
    ensures Reaches(w, Go(u, pid, Working(req, Send(FirstRaw(req, 0)))).(table := [RowFor(req, FirstRaw(req, 0))]))
  {
    var raw := FirstRaw(req, 0);
    Moves(w, u, pid, req, Prepare(0));
    var u1 := Go(u, pid, Working(req, Insert(raw)));
    Journals(w, u1, pid, req, raw);
    assert Go(u1, pid, Working(req, Send(raw))) == Go(u, pid, Working(req, Send(raw)));
  }

  lemma Journals(w: World, u: World, pid: nat, req: Request, raw: Raw)
    requires Reaches(w, u) && pid in u.procs && u.procs[pid].pc == Working(req, Insert(raw)) && u.table == []
    requires u.chain.included == []
    ensures Reaches(w, Go(u, pid, Working(req, Send(raw))).(table := [RowFor(req, raw)]))
  {
    Moves(w, u, pid, req, Insert(raw));
    assert [] + [RowFor(req, raw)] == [RowFor(req, raw)];
    if !u.procs[pid].program.Close? {
      var v := Go(u, pid, Working(req, FetchReceipt(raw))).(table := [RowFor(req, raw)]);
      assert TickWork(u, pid, req, Insert(raw), SMOOTH) == v;
      Moves(w, v, pid, req, FetchReceipt(raw));
      assert TickWork(v, pid, req, FetchReceipt(raw), SMOOTH) == Go(v, pid, Working(req, Send(raw)));
      assert Go(v, pid, Working(req, Send(raw))) == Go(u, pid, Working(req, Send(raw))).(table := [RowFor(req, raw)]);
    }
  }

  /** The journaled bytes reach the chain and succeed. */
  lemma Lands(w: World, u: World, pid: nat, req: Request, raw: Raw)
    requires Reaches(w, u) && pid in u.procs && u.procs[pid].pc == Working(req, Send(raw))
    requires u.chain == Chain(map[], {}, []) && raw.nonce == 0
    ensures Reaches(w, Go(u, pid, Working(req, Wait(raw))).(chain := Chain(map[raw.from := 1], {}, [Inclusion(raw, true)])))
  {
    Moves(w, u, pid, req, Send(raw));
    var waiting := Go(u, pid, Working(req, Wait(raw))).(chain := Chain(map[], {raw}, []));
    assert TickWork(u, pid, req, Send(raw), SMOOTH) == waiting;
    ReachesNext(w, Network(Include(raw, true)), waiting);
  }

  lemma Takes(w: World, program: Program, req: Request)
    requires Init(w)
    requires var u := w.(lock := Some(0), procs := map[0 := Proc(program, Guard)]);
      TickGuard(u, 0) == Go(u, 0, Working(req, Lookup))
    ensures Reaches(w, w.(lock := Some(0), procs := map[0 := Proc(program, Working(req, Lookup))]))
  {
    ReachesSelf(w);
    ReachesNext(w, Spawn(0, program), w);
    var w1 := w.(procs := map[0 := Proc(program, Start)]);
    ReachesNext(w, Tick(0, SMOOTH), w1);
    var w2 := w.(lock := Some(0), procs := map[0 := Proc(program, Guard)]);
    assert TickProc(w1, 0, SMOOTH) == w2;
    ReachesNext(w, Tick(0, SMOOTH), w2);
    assert TickGuard(w2, 0) == w.(lock := Some(0), procs := map[0 := Proc(program, Working(req, Lookup))]);
  }

  lemma Dies(w: World, u: World, app: string, d: Delegation) returns (v: World)
    requires Reaches(w, u) && 0 in u.procs && InSection(u.procs[0].pc)
    ensures Reaches(w, v) && v == Stop(u.(hub := u.hub[app := d]), 0, Refused)
  {
    ReachesNext(w, HubMoves(app, d), u);
    var u1 := u.(hub := u.hub[app := d]);
    ReachesNext(w, Crash(0), u1);
    v := Kill(u1, 0);
  }

  /** The row of `req` is stranded in a state that a run from an empty journal reaches, its
      transaction included and successful, the lock free, and the hub at `d`. */
  ghost predicate StrandedBy(w: World, v: World, req: Request, app: string, d: Delegation) {
    && Init(w) && Reaches(w, v) && Inv(v) && v.lock.None? && HubOf(v, app) == d
    && Stranded(v, req.id, req.owner)
    && Receipt(v.chain, RowOf(v.table, req.id).value.hash) == Some(true)
  }

  function FreshWorld(app: string, d: Delegation): World {
    World([], None, map[], Chain(map[], {}, []), map[app := d], {})
  }

  /** The operator signs and broadcasts, the chain includes it, the hub moves on, and the
      process dies before it writes the outcome. */
  lemma DyingStrands(program: Program, req: Request, app: string, before: Delegation, after: Delegation)
    returns (w: World, v: World)
    requires var u := FreshWorld(app, before).(lock := Some(0), procs := map[0 := Proc(program, Guard)]);
      TickGuard(u, 0) == Go(u, 0, Working(req, Lookup))
    ensures StrandedBy(w, v, req, app, after)
  {
    var raw := FirstRaw(req, 0);
    w := FreshWorld(app, before);
    Takes(w, program, req);
    var w1 := w.(lock := Some(0), procs := map[0 := Proc(program, Working(req, Lookup))]);
    Checks(w, w1, 0, req);
    var w2 := Go(w1, 0, Working(req, ReadPending));
    Counts(w, w2, 0, req);
    var w3 := Go(w2, 0, Working(req, Prepare(0)));
    Signs(w, w3, 0, req);
    var w4 := Go(w3, 0, Working(req, Send(raw))).(table := [RowFor(req, raw)]);
    Lands(w, w4, 0, req, raw);
    var w5 := Go(w4, 0, Working(req, Wait(raw))).(chain := Chain(map[req.owner := 1], {}, [Inclusion(raw, true)]));
    v := Dies(w, w5, app, after);
    ReachedInv(w, v);
    DeadLeaves(v, req, raw);
  }

  lemma DeadLeaves(v: World, req: Request, raw: Raw)
    requires v.table == [RowFor(req, raw)] && (forall pid :: pid in v.procs ==> v.procs[pid].pc.Ended?)
    ensures Stranded(v, req.id, req.owner) && RowOf(v.table, req.id).value.hash == Keccak(raw)
  {
    assert RowOf(v.table, req.id) == Some(v.table[0]);
  }

  lemma ReachedInv(w: World, v: World)
    requires Init(w) && Reaches(w, v)
    ensures Inv(v)
  {
    var steps :| CanRun(w, steps) && Run(w, steps) == v;
    InitOk(w);
    RunKeepsInv(w, steps);
  }

  /** A release that dies after its transaction, whatever the hub shows then. */
  lemma ReleaseStrandsItsRow(app: string, epoch: nat, owner: Account, hub: Address, after: Delegation)
    returns (w: World, v: World)
    ensures StrandedBy(w, v, ReleaseRequest(app, owner, hub, epoch), app, after)
  {
    var before := Delegation(2, epoch, true, true, true);
    w, v := DyingStrands(Release(app, owner, hub), ReleaseRequest(app, owner, hub, epoch), app, before, after);
  }

  /** What the loop sees of an application that this action is for. */
  function Asked(action: string, epoch: nat): Delegation { Delegation(StatusFor(action), epoch, true, true, true) }

  /** A retirement loop that dies after either of its transactions. */
  lemma RetireStrandsItsRow(app: string, epoch: nat, action: string, owner: Account, hub: Address, after: Delegation)
    returns (w: World, v: World)
    requires IsAction(action)
    ensures StrandedBy(w, v, RetireRequest(app, owner, hub, Asked(action, epoch)), app, after)
    ensures RetireRequest(app, owner, hub, Asked(action, epoch)).id == RetireId(app, epoch, action)
  {
    var before := Asked(action, epoch);
    w, v := DyingStrands(Retire([app], owner, hub), RetireRequest(app, owner, hub, before), app, before, after);
  }

  /** A close that dies after its transaction. */
  lemma CloseStrandsItsRow(app: string, epoch: nat, owner: Account, after: Delegation) returns (w: World, v: World)
    ensures StrandedBy(w, v, CloseRequest(app, owner, epoch), app, after)
  {
    w, v := DyingStrands(Close(app, owner), CloseRequest(app, owner, epoch), app, Delegation(1, epoch, false, true, true), after);
  }
}
