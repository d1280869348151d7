/** The promises of the shared journal, for every run of any mix of the four
    programs, however they interleave and wherever they die. */
module WriterResults {
  import opened Options
  import opened Wire
  import opened Chain
  import opened Journal
  import opened Writers
  import opened WriterSafety

  lemma InitOk(w: World)
    requires Init(w)
    ensures Inv(w)
  {
  }

  /** Nonce safety: in every reachable state at most one process is in the section, an
      owner has at most one pending row, its nonces rise with insertion, and nothing
      the programs signed is known to the chain without a row. */
  lemma NonceSafety(w: World, steps: seq<Step>)
    requires Init(w) && CanRun(w, steps)
    ensures var v := Run(w, steps);
      && (forall p, q :: p in v.procs && q in v.procs && InSection(v.procs[p].pc) && InSection(v.procs[q].pc) ==> p == q)
      && (forall i, j :: 0 <= i < j < |v.table| && v.table[i].owner == v.table[j].owner ==>
            v.table[i].nonce < v.table[j].nonce && !(v.table[i].status == Pending && v.table[j].status == Pending))
      && (forall i :: 0 <= i < |v.table| ==> v.table[i].raw.nonce == v.table[i].nonce && v.table[i].raw.from == v.table[i].owner)
      && (forall raw :: raw in v.chain.mempool && raw !in v.foreign ==> exists i :: 0 <= i < |v.table| && v.table[i].raw == raw)
      && (forall k :: 0 <= k < |v.chain.included| && v.chain.included[k].raw !in v.foreign ==>
            exists i :: 0 <= i < |v.table| && v.table[i].raw == v.chain.included[k].raw)
  {
    InitOk(w);
    RunKeepsInv(w, steps);
  }

  /** The insertion never trips over the primary key or the unique `(owner, nonce)` index. */
  lemma InsertNeverConflicts(w: World, steps: seq<Step>, pid: nat)
    requires Init(w) && CanRun(w, steps)
    requires pid in Run(w, steps).procs
    requires Run(w, steps).procs[pid].pc.Working? && Run(w, steps).procs[pid].pc.phase.Insert?
    ensures var v := Run(w, steps); var pc := v.procs[pid].pc; CanInsert(v.table, RowFor(pc.req, pc.phase.raw))
  {
    InitOk(w);
    RunKeepsInv(w, steps);
    var v := Run(w, steps);
    WorkInserts(v, pid, v.procs[pid].pc.req, v.procs[pid].pc.phase.raw, Choice(0, 0, true, true));
  }

  /** Rows are never removed, reordered or rewritten, and a status moves at most once, away from Pending. */
  lemma JournalOnlyGrows(w: World, steps: seq<Step>, more: seq<Step>)
    requires Init(w) && CanRun(w, steps) && CanRun(Run(w, steps), more)
    ensures Grows(Run(w, steps).table, Run(Run(w, steps), more).table)
  {
    InitOk(w);
    RunKeepsInv(w, steps);
    RunKeepsInv(Run(w, steps), more);
  }

  // ---- exactly once

  /** `raw` was signed for operation `id`. */
  ghost predicate SignedFor(t: Table, id: Id, raw: Raw) {
    exists i :: 0 <= i < |t| && t[i].id == id && t[i].raw == raw
  }

  /** Of all transactions signed for `id` the chain holds one, a success with these bytes. */
  ghost predicate ExecutedOnce(t: Table, c: Chain, id: Id, raw: Raw) {
    exists k :: 0 <= k < |c.included| && c.included[k] == Inclusion(raw, true)
      && forall j :: 0 <= j < |c.included| && SignedFor(t, id, c.included[j].raw) ==> j == k
  }

  lemma DeliveredOnce(program: Program, t: Table, c: Chain, req: Request, hash: Hash)
    requires TableOk(t) && ChainOk(c) && Settled(t, c) && Delivered(program, req, hash, t)
    ensures ExecutedOnce(t, c, req.id, hash.raw)
  {
    var i :| 0 <= i < |t| && t[i] == RowOf(t, req.id).value;
    assert RowOk(t[i]) && Find(c.included, hash.raw) == Some(true);
    var k :| 0 <= k < |c.included| && c.included[k] == Inclusion(hash.raw, true);
    forall j | 0 <= j < |c.included| && SignedFor(t, req.id, c.included[j].raw) ensures j == k {
      var x :| 0 <= x < |t| && t[x].id == req.id && t[x].raw == c.included[j].raw;
      assert x == i;
    }
  }

  /** Once a call has returned, the chain holds exactly one transaction signed for its id:
      it succeeded, it is the one whose hash was returned, and for `submit` it carries
      the caller's data, target and value. */
  lemma ExactlyOnce(w: World, steps: seq<Step>, pid: nat, req: Request, hash: Hash)
    requires Init(w) && CanRun(w, steps)
    requires pid in Run(w, steps).procs && Run(w, steps).procs[pid].pc == Ended(Returned(req, hash))
    ensures ExecutedOnce(Run(w, steps).table, Run(w, steps).chain, req.id, hash.raw)
    ensures Run(w, steps).procs[pid].program.Submit? ==>
      req == Run(w, steps).procs[pid].program.req && Matches(req, hash.raw)
  {
    InitOk(w);
    RunKeepsInv(w, steps);
    var v := Run(w, steps);
    assert ProcOk(v.procs[pid], v.table, v.chain);
    DeliveredOnce(v.procs[pid].program, v.table, v.chain, req, hash);
  }

  /** Calls with one id return one hash, in whatever order and by whichever process. */
  lemma SameHash(w: World, steps: seq<Step>, more: seq<Step>, p: nat, q: nat, a: Request, b: Request, g: Hash, h: Hash)
    requires Init(w) && CanRun(w, steps) && CanRun(Run(w, steps), more)
    requires p in Run(w, steps).procs && Run(w, steps).procs[p].pc == Ended(Returned(a, g))
    requires q in Run(Run(w, steps), more).procs && Run(Run(w, steps), more).procs[q].pc == Ended(Returned(b, h))
    requires a.id == b.id
    ensures g == h
  {
    InitOk(w);
    RunKeepsInv(w, steps);
    var u := Run(w, steps);
    RunKeepsInv(u, more);
    var v := Run(u, more);
    assert ProcOk(u.procs[p], u.table, u.chain);
    assert ProcOk(v.procs[q], v.table, v.chain);
    GrowsKeepsRow(u.table, v.table, a.id);
  }

  // ---- refusals

  /** The id is taken by another payload, or its transaction reverted. */
  ghost predicate Taken(t: Table, req: Request) {
    && RowOf(t, req.id).Some?
    && (RowOf(t, req.id).value.status == Failed || !Matches(req, RowOf(t, req.id).value.raw))
  }

  predicate BeforeLookup(pc: Pc, req: Request) {
    pc == Start || pc == Guard || pc == Working(req, Lookup) || pc == Ended(Refused)
  }

  lemma TakenStaysTaken(t: Table, u: Table, req: Request)
    requires TableOk(t) && TableOk(u) && Grows(t, u) && Taken(t, req)
    ensures Taken(u, req)
  {
    GrowsKeepsRow(t, u, req.id);
  }

  lemma RefusedAtLookup(w: World, pid: nat, req: Request, c: Choice)
    requires pid in w.procs && w.procs[pid] == Proc(Submit(req), Working(req, Lookup)) && Taken(w.table, req)
    ensures TickProc(w, pid, c).procs[pid] == Proc(Submit(req), Ended(Refused))
  {
  }

  lemma RefusalStep(w: World, s: Step, pid: nat, req: Request)
    requires Can(w, s) && pid in w.procs && w.procs[pid].program == Submit(req)
    requires Taken(w.table, req) && BeforeLookup(w.procs[pid].pc, req)
    ensures pid in Do(w, s).procs && Do(w, s).procs[pid].program == Submit(req)
    ensures BeforeLookup(Do(w, s).procs[pid].pc, req)
  {
    if s.Tick? {
      if s.pid != pid { TickOfAnother(w, s.pid, s.choice, pid); }
      else if w.procs[pid].pc.Working? { RefusedAtLookup(w, pid, req, s.choice); }
    }
  }

  /** A program stays what it is, but for the applications the loop is done with. */
  predicate SameOrShorter(p: Program, q: Program) {
    q == p || (p.Retire? && p.apps != [] && q == p.(apps := p.apps[1..]))
  }

  lemma GuardKeepsProgram(w: World, pid: nat)
    requires pid in w.procs
    ensures var v := TickGuard(w, pid);
      pid in v.procs && v.hub == w.hub && SameOrShorter(w.procs[pid].program, v.procs[pid].program)
  {
  }

  lemma WorkKeepsProgram(w: World, pid: nat, req: Request, phase: Phase, c: Choice)
    requires pid in w.procs
    ensures var v := TickWork(w, pid, req, phase, c);
      pid in v.procs && v.hub == w.hub && SameOrShorter(w.procs[pid].program, v.procs[pid].program)
  {
  }

  lemma GuardOfAnother(w: World, pid: nat, q: nat)
    requires pid in w.procs && q != pid
    ensures q in TickGuard(w, pid).procs <==> q in w.procs
    ensures q in w.procs ==> TickGuard(w, pid).procs[q] == w.procs[q]
  {
  }

  lemma WorkOfAnother(w: World, pid: nat, req: Request, phase: Phase, c: Choice, q: nat)
    requires pid in w.procs && q != pid
    ensures q in TickWork(w, pid, req, phase, c).procs <==> q in w.procs
    ensures q in w.procs ==> TickWork(w, pid, req, phase, c).procs[q] == w.procs[q]
  {
  }

  lemma TickOfAnother(w: World, pid: nat, c: Choice, q: nat)
    requires pid in w.procs && q != pid
    ensures q in TickProc(w, pid, c).procs <==> q in w.procs
    ensures q in w.procs ==> TickProc(w, pid, c).procs[q] == w.procs[q]
  {
    match w.procs[pid].pc
    case Guard => GuardOfAnother(w, pid, q);
    case Working(req, phase) => WorkOfAnother(w, pid, req, phase, c, q);
    case _ =>
  }

  /** A call with a changed payload, or for a reverted operation, never gets past the
      lookup in any continuation: it sends nothing and can only end refused. */
  lemma {:induction false} ChangedCallIsRefused(w: World, steps: seq<Step>, pid: nat, req: Request)
    requires Inv(w) && CanRun(w, steps) && pid in w.procs && w.procs[pid].program == Submit(req)
    requires Taken(w.table, req) && BeforeLookup(w.procs[pid].pc, req)
    ensures pid in Run(w, steps).procs && BeforeLookup(Run(w, steps).procs[pid].pc, req)
    decreases |steps|
  {
    if steps != [] {
      RefusalStep(w, steps[0], pid, req);
      StepKeepsInv(w, steps[0]);
      TakenStaysTaken(w.table, Do(w, steps[0]).table, req);
      ChangedCallIsRefused(Do(w, steps[0]), steps[1..], pid, req);
    }
  }
}
