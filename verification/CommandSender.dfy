/** `send` of the chaos qualification as it is written: the book in memory is changed, saved, and
    only then acted on. Every statement is a step of the command journal's model. */
module CommandSender {
  import opened Options
  import opened Wire
  import opened Chain
  import opened ChaosCommands

  ghost predicate Reaches(v: System, s: System) {
    exists steps :: CanRun(v, steps) && Run(v, steps) == s
  }

  lemma {:induction false} RunAppend(v: System, steps: seq<Step>, st: Step)
    requires CanRun(v, steps) && Can(Run(v, steps), st)
    ensures CanRun(v, steps + [st]) && Run(v, steps + [st]) == Do(Run(v, steps), st)
    decreases |steps|
  {
    if steps == [] {
      assert steps + [st] == [st];
      assert CanRun(Do(v, st), []) && [st][1..] == [];
    } else {
      assert (steps + [st])[1..] == steps[1..] + [st];
      RunAppend(Do(v, steps[0]), steps[1..], st);
    }
  }

  lemma ReachesNext(v: System, s: System, st: Step)
    requires Inv(s) && Reaches(v, s) && Can(s, st)
    ensures Reaches(v, Do(s, st)) && Inv(Do(s, st)) && Keeps(s.disk, Do(s, st).disk)
  {
    var steps :| CanRun(v, steps) && Run(v, steps) == s;
    RunAppend(v, steps, st);
    StepKeeps(s, st);
    StepKeepsBytes(s, st);
  }

  /** What a call is told: whether the receipt query, the request and its reply get through, and
      how the node executes it, if it does. */
  datatype Answers = Answers(seen: bool, delivered: bool, mined: Option<bool>, replied: bool)

  /** The bytes a call sends: those of its command, or new ones at the signer's account nonce, unless a
      command of the signer is open or one is queued there. */
  ghost function Chosen(mem: Book, c: Chain, op: string, signer: Account, data: Data): Option<Raw> {
    if op in mem then Some(mem[op].raw)
    else if (exists x :: x in mem && mem[x].raw.from == signer && mem[x].state != Done(true))
         || Queued(c, signer, Latest(c, signer)) then None
    else Some(Raw(signer, Latest(c, signer), None, data, 0, 0))
  }

  /** The outcome a call learns: what becomes of its bytes, if the query shows it or the reply comes. */
  ghost function Learned(c: Chain, raw: Raw, a: Answers): Option<bool> {
    if a.replied || (a.seen && Receipt(c, Keccak(raw)).Some?) then Fate(c, raw, a.delivered, a.mined) else None
  }

  class Sender {
    var disk: Book
    var mem: Book
    var node: Chain
    ghost var s: System

    ghost predicate Synced(start: System)
      reads this
    {
      Inv(s) && Reaches(start, s) && s.disk == disk && s.node == node
    }

    ghost predicate At(start: System, pc: Pc)
      reads this
    {
      Synced(start) && s.run == On(mem, pc)
    }

    /** The call threw, and the program with it. */
    ghost predicate Thrown(start: System)
      reads this
    {
      Synced(start) && s.run.Off?
    }

    ghost method Note(start: System, st: Step)
      requires Synced(start) && Can(s, st)
      modifies this`s
      ensures s == Do(old(s), st) && Inv(s) && Reaches(start, s) && Keeps(old(s.disk), s.disk)
    {
      ReachesNext(start, s, st);
      s := Do(s, st);
    }

    /** Both counts must agree; then the signed bytes are saved, before anything is sent. */
    method Prepare(op: string, signer: Account, data: Data, ghost start: System) returns (ok: bool)
      requires At(start, AskPending(op, signer, data))
      modifies this
      ensures node == old(node) && Keeps(old(disk), disk)
      ensures ok ==> At(start, AskReceipt(op)) && op in mem && disk == mem
      ensures ok ==> mem == old(mem)[op := Tx(Raw(signer, Latest(node, signer), None, data, 0, 0), Prepared)]
      ensures !ok ==> Thrown(start) && disk == old(disk) && Queued(node, signer, Latest(node, signer))
      ensures ok ==> !Queued(node, signer, Latest(node, signer))
    {
      var nonce := PendingCount(node, signer);
      ghost var l := Await(Luck(nonce, false, false));
      Note(start, l);
      Note(start, l);
      ok := nonce == Latest(node, signer);
      if !ok { return; }
      mem := mem[op := Tx(Raw(signer, nonce, None, data, 0, 0), Prepared)];
      Note(start, l);
      disk := mem;
    }

    /** The request leaves, the node may execute it, and a reply may come back. */
    method Ask(op: string, a: Answers, ghost start: System) returns (r: Option<bool>)
      requires At(start, Request(op)) && op in mem
      modifies this
      ensures disk == old(disk) && mem == old(mem) && At(start, AwaitReply(op))
      ensures node == Tried(old(node), mem[op].raw, a.delivered, a.mined)
      ensures r == if a.replied then Receipt(node, Keccak(mem[op].raw)) else None
    {
      var raw := mem[op].raw;
      Note(start, Await(Luck(0, false, a.delivered)));
      if a.delivered { node := Broadcast(node, raw); }
      if a.mined.Some? && raw in node.mempool && raw.nonce == Latest(node, raw.from) {
        Note(start, Engine(Include(raw, a.mined.value)));
        node := Net(node, Include(raw, a.mined.value));
      }
      r := if a.replied then Receipt(node, Keccak(raw)) else None;
    }

    /** An outcome in memory, then in the file; anything but success throws. */
    method Record(op: string, st: TxState, ghost start: System) returns (ok: bool)
      requires At(start, SaveOutcome(op)) && op in mem && mem[op].state == st
      modifies this
      ensures node == old(node) && mem == old(mem) && disk == mem && Keeps(old(disk), disk)
      ensures ok == (st == Done(true))
      ensures if ok then At(start, Idle) else Thrown(start)
    {
      OutcomeNext(s, mem, op);
      Note(start, Await(Luck(0, false, false)));
      disk := mem;
      ok := st == Done(true);
    }

    /** The receipt query, and what it makes of the command in memory. */
    method Query(op: string, seen: bool, ghost start: System) returns (r: Option<bool>)
      requires At(start, AskReceipt(op)) && op in mem
      modifies this
      ensures disk == old(disk) && node == old(node) && op in mem
      ensures r == if seen then Receipt(node, Keccak(old(mem)[op].raw)) else None
      ensures mem == Put(old(mem), op, if r.Some? then Done(r.value) else Sending)
      ensures r.Some? ==> mem[op].state == Done(r.value) && At(start, SaveOutcome(op))
      ensures r.None? ==> At(start, SaveSending(op))
    {
      r := if seen then Receipt(node, Keccak(mem[op].raw)) else None;
      Note(start, Await(Luck(0, seen, false)));
      mem := Put(mem, op, if r.Some? then Done(r.value) else Sending);
    }

    /** The reply, or the error instead of it. */
    method Judge(op: string, r: Option<bool>, ghost replied: bool, ghost start: System)
      requires At(start, AwaitReply(op)) && op in mem && r == if replied then Receipt(node, Keccak(mem[op].raw)) else None
      modifies this
      ensures disk == old(disk) && node == old(node) && op in mem && At(start, SaveOutcome(op))
      ensures mem == Put(old(mem), op, if r.Some? then Done(r.value) else Uncertain)
    {
      Note(start, Await(Luck(0, replied, false)));
      mem := Put(mem, op, if r.Some? then Done(r.value) else Uncertain);
    }

    /** A known receipt, or one request, announced in the file first. */
    method Learn(op: string, a: Answers, ghost start: System) returns (r: Option<bool>)
      requires At(start, AskReceipt(op)) && op in mem
      modifies this
      ensures Keeps(old(disk), disk) && At(start, SaveOutcome(op))
      ensures r == Learned(old(node), old(mem)[op].raw, a)
      ensures Attempted(old(node), node, old(mem)[op].raw, a.delivered, a.mined)
      ensures mem == Put(old(mem), op, if r.Some? then Done(r.value) else Uncertain)
    {
      FateFollows(node, mem[op].raw, a.delivered, a.mined);
      r := Query(op, a.seen, start);
      if r.None? {
        PutTwice(old(mem), op, Sending);
        r := Exchange(op, a, start);
      }
    }

    /** One request and its reply. */
    method Exchange(op: string, a: Answers, ghost start: System) returns (r: Option<bool>)
      requires At(start, SaveSending(op)) && op in mem
      modifies this
      ensures Keeps(old(disk), disk) && At(start, SaveOutcome(op)) && node == Tried(old(node), old(mem)[op].raw, a.delivered, a.mined)
      ensures r == if a.replied then Receipt(node, Keccak(old(mem)[op].raw)) else None
      ensures mem == Put(old(mem), op, if r.Some? then Done(r.value) else Uncertain)
    {
      r := Announce(op, a, start);
      Judge(op, r, a.replied, start);
    }

    method Deliver(op: string, a: Answers, ghost start: System) returns (ok: bool)
      requires At(start, AskReceipt(op)) && op in mem
      modifies this
      ensures Keeps(old(disk), disk) && Ends(old(mem), old(node), disk, node, op, old(mem)[op].raw, a, ok)
      ensures if ok then At(start, Idle) else Thrown(start)
    {
      var receipt := Learn(op, a, start);
      ok := Record(op, mem[op].state, start);
    }

    method Announce(op: string, a: Answers, ghost start: System) returns (r: Option<bool>)
      requires At(start, SaveSending(op)) && op in mem
      modifies this
      ensures mem == old(mem) && disk == mem && Keeps(old(disk), disk) && At(start, AwaitReply(op))
      ensures node == Tried(old(node), mem[op].raw, a.delivered, a.mined)
      ensures r == if a.replied then Receipt(node, Keccak(mem[op].raw)) else None
    {
      Note(start, Await(Luck(0, false, false)));
      disk := mem;
      r := Ask(op, a, start);
    }

    /** One call. It either throws, or leaves its command confirmed in the file and executed; it
        never changes bytes that are in the file, and adds a command, with the data asked for, only for a
        signer without an open one. It returns exactly when it learns of a success. */
    method Send(op: string, signer: Account, data: Data, a: Answers, ghost start: System) returns (ok: bool)
      requires At(start, Idle)
      modifies this
      ensures Keeps(old(disk), disk)
      ensures if ok then At(start, Idle) && op in disk && Confirmed(disk[op]) else Thrown(start)
      ensures op in disk && op !in old(mem) ==>
        !Unresolved(old(mem), signer) && disk[op].raw.from == signer && disk[op].raw.data == data
      ensures if op in old(mem) && Confirmed(old(mem)[op]) then ok && disk == old(disk) && node == old(node)
              else match Chosen(old(mem), old(node), op, signer, data)
                   case None => !ok && disk == old(disk) && node == old(node)
                   case Some(raw) => Ends(old(mem), old(node), disk, node, op, raw, a, ok)
    {
      Note(start, ChaosCommands.Step.Send(op, signer, data));
      if op !in mem {
        if Unresolved(mem, signer) { return false; }
        ok := SendNew(op, signer, data, a, start);
        return;
      }
      if Confirmed(mem[op]) { return true; }
      ok := Deliver(op, a, start);
    }

    /** A new command of a signer without an open one. */
    method SendNew(op: string, signer: Account, data: Data, a: Answers, ghost start: System) returns (ok: bool)
      requires At(start, AskPending(op, signer, data))
      modifies this
      ensures Keeps(old(disk), disk)
      ensures if ok then At(start, Idle) else Thrown(start)
      ensures if Queued(old(node), signer, Latest(old(node), signer)) then !ok && disk == old(disk) && node == old(node)
              else Ends(old(mem), old(node), disk, node, op, Raw(signer, Latest(old(node), signer), None, data, 0, 0), a, ok)
    {
      ok := Prepare(op, signer, data, start);
      if !ok { return; }
      ghost var raw := mem[op].raw;
      ok := Deliver(op, a, start);
      EndsNew(old(mem), old(node), disk, node, op, raw, a, ok);
    }
  }

  /** From a book and a node: the file gets the bytes with what the call learned of them, or their
      uncertainty, and the call returns exactly when it learned of their success. */
  ghost predicate Ends(mem: Book, c: Chain, disk: Book, d: Chain, op: string, raw: Raw, a: Answers, ok: bool) {
    var r := Learned(c, raw, a);
    && disk == mem[op := Tx(raw, if r.Some? then Done(r.value) else Uncertain)]
    && ok == (r == Some(true)) && Attempted(c, d, raw, a.delivered, a.mined)
  }

  lemma EndsNew(mem: Book, c: Chain, disk: Book, d: Chain, op: string, raw: Raw, a: Answers, ok: bool)
    requires Ends(mem[op := Tx(raw, Prepared)], c, disk, d, op, raw, a, ok)
    ensures Ends(mem, c, disk, d, op, raw, a, ok)
  {
  }

  lemma PutTwice(b: Book, op: string, first: TxState)
    requires op in b
    ensures forall st :: Put(Put(b, op, first), op, st) == Put(b, op, st)
  {
  }

  lemma OutcomeNext(s: System, mem: Book, op: string)
    requires s.run == On(mem, SaveOutcome(op)) && op in mem
    ensures var st := Await(Luck(0, false, false));
      Can(s, st) && Do(s, st) == s.(disk := mem, run := if mem[op].state == Done(true) then On(mem, Idle) else Off)
  {
  }
}
