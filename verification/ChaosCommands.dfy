/** The command journal of the chaos qualification: one file, written before every send,
    and an engine node behind a link that may lose requests and replies. The node is a
    `Chain`: requests in flight are its mempool, execution is inclusion. */
module ChaosCommands {
  import opened Options
  import opened Wire
  import opened Chain

  datatype TxState = Prepared | Sending | Uncertain | Done(ok: bool)

  datatype Tx = Tx(raw: Raw, state: TxState)

  type Book = map<string, Tx>

  /** Where a run stands inside `send`; `Idle` is between calls. */
  datatype Pc =
    | Idle
    | AskPending(op: string, signer: Account, data: Data)
    | AskLatest(op: string, signer: Account, data: Data, count: nat)
    | SavePrepared(op: string)
    | AskReceipt(op: string)
    | SaveSending(op: string)
    | Request(op: string)
    | AwaitReply(op: string)
    | SaveOutcome(op: string)

  datatype Runner = Off | On(mem: Book, pc: Pc)

  datatype System = System(disk: Book, run: Runner, node: Chain)

  /** `seen`: the read or the reply arrives. `delivered`: the request arrives. `count`: the pending count. */
  datatype Luck = Luck(count: nat, seen: bool, delivered: bool)

  datatype Step =
    | Begin
    | Send(op: string, signer: Account, data: Data)
    | Await(luck: Luck)
    | Crash
    | Engine(net: NetStep)

  predicate Confirmed(tx: Tx) {
    tx.state == Done(true)
  }

  predicate Unresolved(b: Book, signer: Account) {
    exists op :: op in b && b[op].raw.from == signer && !Confirmed(b[op])
  }

  function Put(b: Book, op: string, st: TxState): Book
    requires op in b
  {
    b[op := b[op].(state := st)]
  }

  /** `send` up to its first await. */
  ghost function Enter(s: System, op: string, signer: Account, data: Data): Runner
    requires s.run.On?
  {
    var mem := s.run.mem;
    if op in mem then On(mem, if Confirmed(mem[op]) then Idle else AskReceipt(op))
    else if Unresolved(mem, signer) then Off
    else On(mem, AskPending(op, signer, data))
  }

  ghost predicate Can(s: System, st: Step) {
    match st
    case Begin => s.run.Off?
    case Send(_, _, _) => s.run.On? && s.run.pc.Idle?
    case Await(l) =>
      && s.run.On? && !s.run.pc.Idle?
      && (s.run.pc.AskPending? ==> IsPendingCount(s.node, s.run.pc.signer, l.count))
      && (!s.run.pc.AskPending? && !s.run.pc.AskLatest? ==> s.run.pc.op in s.run.mem)
    case Crash => s.run.On?
    case Engine(n) => CanNet(s.node, n)
  }

  ghost function Wake(s: System, l: Luck): System
    requires Can(s, Await(l))
  {
    var mem := s.run.mem;
    match s.run.pc
    case AskPending(op, signer, data) => s.(run := On(mem, AskLatest(op, signer, data, l.count)))
    case AskLatest(op, signer, data, count) =>
      if Latest(s.node, signer) != count then s.(run := Off)
      else s.(run := On(mem[op := Tx(Raw(signer, count, None, data, 0, 0), Prepared)], SavePrepared(op)))
    case SavePrepared(op) => s.(disk := mem, run := On(mem, AskReceipt(op)))
    case AskReceipt(op) =>
      var r := Receipt(s.node, Keccak(mem[op].raw));
      if l.seen && r.Some? then s.(run := On(Put(mem, op, Done(r.value)), SaveOutcome(op)))
      else s.(run := On(Put(mem, op, Sending), SaveSending(op)))
    case SaveSending(op) => s.(disk := mem, run := On(mem, Request(op)))
    case Request(op) =>
      s.(node := if l.delivered then Broadcast(s.node, mem[op].raw) else s.node, run := On(mem, AwaitReply(op)))
    case AwaitReply(op) =>
      var r := Receipt(s.node, Keccak(mem[op].raw));
      s.(run := On(Put(mem, op, if l.seen && r.Some? then Done(r.value) else Uncertain), SaveOutcome(op)))
    case SaveOutcome(op) => s.(disk := mem, run := if Confirmed(mem[op]) then On(mem, Idle) else Off)
  }

  ghost function Do(s: System, st: Step): System
    requires Can(s, st)
  {
    match st
    case Begin => s.(run := On(s.disk, Idle))
    case Send(op, signer, data) => s.(run := Enter(s, op, signer, data))
    case Await(l) => Wake(s, l)
    case Crash => s.(run := Off)
    case Engine(n) => s.(node := Net(s.node, n))
  }

  ghost predicate CanRun(s: System, steps: seq<Step>)
    decreases |steps|
  {
    steps == [] || (Can(s, steps[0]) && CanRun(Do(s, steps[0]), steps[1..]))
  }

  ghost function Run(s: System, steps: seq<Step>): System
    requires CanRun(s, steps)
    decreases |steps|
  {
    if steps == [] then s else Run(Do(s, steps[0]), steps[1..])
  }

  // ---- what a book says is true of the node

  ghost predicate TxOk(tx: Tx, node: Chain) {
    && (tx.state.Done? ==> Receipt(node, Keccak(tx.raw)) == Some(tx.state.ok))
    && (Receipt(node, Keccak(tx.raw)).Some? || tx.raw.nonce == Latest(node, tx.raw.from))
  }

  /** No two commands of a signer share a nonce, and at most one of them is unconfirmed. */
  ghost predicate Apart(x: Tx, y: Tx) {
    x.raw.from == y.raw.from ==> x.raw.nonce != y.raw.nonce && (Confirmed(x) || Confirmed(y))
  }

  ghost predicate BookOk(b: Book, node: Chain) {
    && (forall op :: op in b ==> TxOk(b[op], node))
    && (forall x, y :: x in b && y in b && x != y ==> Apart(b[x], b[y]))
  }

  ghost predicate Written(disk: Book, raw: Raw) {
    exists op :: op in disk && disk[op].raw == raw
  }

  /** Whatever the node has been sent is in the file. */
  ghost predicate Durable(disk: Book, node: Chain) {
    && (forall raw :: raw in node.mempool ==> Written(disk, raw))
    && (forall i :: 0 <= i < |node.included| ==> Written(disk, node.included[i].raw))
  }

  /** Memory differs from the file in the current command only, and not at all outside a save. */
  ghost predicate Synced(disk: Book, mem: Book, pc: Pc) {
    match pc
    case SavePrepared(op) => op in mem && op !in disk && mem == disk[op := mem[op]] && mem[op].state == Prepared
    case SaveSending(op) => op in mem && op in disk && mem == Put(disk, op, Sending)
    case SaveOutcome(op) => op in mem && op in disk && mem == Put(disk, op, mem[op].state)
    case Idle => mem == disk
    case AskPending(op, _, _) => mem == disk && op !in mem
    case AskLatest(op, _, _, _) => mem == disk && op !in mem
    case AskReceipt(op) => mem == disk && op in mem && !Confirmed(mem[op])
    case Request(op) => mem == disk && op in mem && !Confirmed(mem[op])
    case AwaitReply(op) => mem == disk && op in mem && !Confirmed(mem[op])
  }

  ghost predicate RunOk(s: System) {
    s.run.On? ==>
      && BookOk(s.run.mem, s.node) && Synced(s.disk, s.run.mem, s.run.pc)
      && (s.run.pc.AskPending? || s.run.pc.AskLatest? ==> !Unresolved(s.run.mem, s.run.pc.signer))
      && (s.run.pc.SaveSending? ==> !Confirmed(s.disk[s.run.pc.op]))
      && (s.run.pc.SaveOutcome? ==> !Confirmed(s.disk[s.run.pc.op]))
  }

  ghost predicate Inv(s: System) {
    ChainOk(s.node) && BookOk(s.disk, s.node) && Durable(s.disk, s.node) && RunOk(s)
  }

  ghost predicate Init(s: System) {
    s.disk == map[] && s.run.Off? && s.node.mempool == {} && s.node.included == []
  }

  // ---- every step keeps it

  lemma ExecutedOnce(c: Chain, n: NetStep)
    requires ChainOk(c) && CanNet(c, n)
    ensures ChainOk(Net(c, n)) && Extends(c, Net(c, n))
    ensures n.Include? ==> Find(Net(c, n).included, n.raw) == Some(n.ok)
  {
    NetKeepsChainOk(c, n);
    if n.Include? {
      FindAppend(c.included, Inclusion(n.raw, n.ok), n.raw);
      forall i | 0 <= i < |c.included| ensures c.included[i].raw != n.raw {}
    }
  }

  /** The node can only execute the one command a signer still has open. */
  lemma EngineKeepsBook(b: Book, c: Chain, n: NetStep)
    requires ChainOk(c) && CanNet(c, n) && BookOk(b, c) && Written(b, n.raw)
    ensures BookOk(b, Net(c, n))
  {
    ExecutedOnce(c, n);
    var key :| key in b && b[key].raw == n.raw;
    forall op | op in b ensures TxOk(b[op], Net(c, n)) {
      assert TxOk(b[op], c);
      assert Find(c.included, b[op].raw).Some? ==> Find(Net(c, n).included, b[op].raw) == Find(c.included, b[op].raw);
      if n.Include? && op != key && b[op].raw.from == n.raw.from { assert Apart(b[op], b[key]); }
    }
  }

  lemma EngineKeepsDurable(disk: Book, c: Chain, n: NetStep)
    requires CanNet(c, n) && Durable(disk, c)
    ensures Durable(disk, Net(c, n))
  {
    var d := Net(c, n);
    forall i | 0 <= i < |d.included| ensures Written(disk, d.included[i].raw) {
      if i < |c.included| { assert d.included[i] == c.included[i]; }
    }
  }

  lemma MemoryHasFile(disk: Book, mem: Book, pc: Pc, raw: Raw)
    requires Synced(disk, mem, pc) && Written(disk, raw)
    ensures Written(mem, raw)
  {
    var op :| op in disk && disk[op].raw == raw;
    assert op in mem && mem[op].raw == raw;
  }

  lemma EngineKeeps(s: System, n: NetStep)
    requires Inv(s) && CanNet(s.node, n)
    ensures Inv(Do(s, Engine(n)))
  {
    assert Written(s.disk, n.raw);
    assert ChainOk(Net(s.node, n)) by { ExecutedOnce(s.node, n); }
    EngineKeepsBook(s.disk, s.node, n);
    EngineKeepsDurable(s.disk, s.node, n);
    if s.run.On? {
      MemoryHasFile(s.disk, s.run.mem, s.run.pc, n.raw);
      EngineKeepsBook(s.run.mem, s.node, n);
    }
  }

  /** Sending more requests changes neither receipts nor nonces. */
  lemma BroadcastKeepsBook(b: Book, c: Chain, raw: Raw)
    requires BookOk(b, c)
    ensures BookOk(b, Broadcast(c, raw))
  {
    forall op | op in b ensures TxOk(b[op], Broadcast(c, raw)) { assert TxOk(b[op], c); }
  }

  lemma PutKeepsBook(b: Book, op: string, st: TxState, c: Chain)
    requires BookOk(b, c) && op in b && !Confirmed(b[op])
    requires st.Done? ==> Receipt(c, Keccak(b[op].raw)) == Some(st.ok)
    ensures BookOk(Put(b, op, st), c)
  {
    var u := Put(b, op, st);
    assert TxOk(b[op], c);
    forall x, y | x in u && y in u && x != y ensures Apart(u[x], u[y]) { assert Apart(b[x], b[y]); }
  }

  /** A fresh signature is taken at the next nonce, when all earlier ones are spent. */
  lemma SignKeepsBook(b: Book, op: string, tx: Tx, c: Chain)
    requires BookOk(b, c) && ChainOk(c) && op !in b && !Unresolved(b, tx.raw.from)
    requires tx.state == Prepared && tx.raw.nonce == Latest(c, tx.raw.from)
    ensures BookOk(b[op := tx], c)
  {
    var u := b[op := tx];
    forall x | x in b && b[x].raw.from == tx.raw.from ensures b[x].raw.nonce < tx.raw.nonce && Confirmed(b[x]) {
      assert TxOk(b[x], c);
      var i :| 0 <= i < |c.included| && c.included[i].raw == b[x].raw;
    }
    forall x, y | x in u && y in u && x != y ensures Apart(u[x], u[y]) {
      if x != op && y != op { assert Apart(b[x], b[y]); }
    }
  }

  lemma SaveKeepsDurable(disk: Book, mem: Book, c: Chain)
    requires Durable(disk, c)
    requires forall op :: op in disk ==> op in mem && mem[op].raw == disk[op].raw
    ensures Durable(mem, c)
  {
    forall raw | Written(disk, raw) ensures Written(mem, raw) {
      var op :| op in disk && disk[op].raw == raw;
      assert mem[op].raw == raw;
    }
  }

  lemma SaveKeeps(s: System, l: Luck)
    requires Inv(s) && Can(s, Await(l))
    requires s.run.pc.SavePrepared? || s.run.pc.SaveSending? || s.run.pc.SaveOutcome?
    ensures Inv(Wake(s, l))
  {
    SyncedBytes(s.disk, s.run.mem, s.run.pc);
    SaveKeepsDurable(s.disk, s.run.mem, s.node);
    SavedRunOk(s, l);
  }

  lemma SyncedBytes(disk: Book, mem: Book, pc: Pc)
    requires Synced(disk, mem, pc)
    ensures forall op :: op in disk ==> op in mem && mem[op].raw == disk[op].raw
  {
  }

  lemma SavedRunOk(s: System, l: Luck)
    requires RunOk(s) && Can(s, Await(l))
    requires s.run.pc.SavePrepared? || s.run.pc.SaveSending? || s.run.pc.SaveOutcome?
    ensures RunOk(Wake(s, l))
  {
  }

  lemma SignKeeps(s: System, l: Luck)
    requires Inv(s) && Can(s, Await(l)) && s.run.pc.AskLatest?
    ensures Inv(Wake(s, l))
  {
    var pc := s.run.pc;
    if Latest(s.node, pc.signer) == pc.count {
      SignKeepsBook(s.run.mem, pc.op, Tx(Raw(pc.signer, pc.count, None, pc.data, 0, 0), Prepared), s.node);
    }
  }

  lemma AskReceiptKeeps(s: System, l: Luck)
    requires Inv(s) && Can(s, Await(l)) && s.run.pc.AskReceipt?
    ensures Inv(Wake(s, l))
  {
    var op := s.run.pc.op;
    var r := Receipt(s.node, Keccak(s.run.mem[op].raw));
    PutKeepsBook(s.run.mem, op, if l.seen && r.Some? then Done(r.value) else Sending, s.node);
  }

  lemma RequestKeeps(s: System, l: Luck)
    requires Inv(s) && Can(s, Await(l)) && s.run.pc.Request?
    ensures Inv(Wake(s, l))
  {
    var raw := s.run.mem[s.run.pc.op].raw;
    BroadcastKeepsBook(s.run.mem, s.node, raw);
    assert Written(s.disk, raw);
  }

  lemma ReplyKeeps(s: System, l: Luck)
    requires Inv(s) && Can(s, Await(l)) && s.run.pc.AwaitReply?
    ensures Inv(Wake(s, l))
  {
    var op := s.run.pc.op;
    var r := Receipt(s.node, Keccak(s.run.mem[op].raw));
    PutKeepsBook(s.run.mem, op, if l.seen && r.Some? then Done(r.value) else Uncertain, s.node);
  }

  lemma StepKeeps(s: System, st: Step)
    requires Inv(s) && Can(s, st)
    ensures Inv(Do(s, st))
  {
    match st
    case Begin =>
    case Send(_, _, _) =>
    case Crash =>
    case Engine(n) => EngineKeeps(s, n);
    case Await(l) =>
      match s.run.pc {
        case AskPending(_, _, _) =>
        case AskLatest(_, _, _, _) => SignKeeps(s, l);
        case AskReceipt(_) => AskReceiptKeeps(s, l);
        case Request(_) => RequestKeeps(s, l);
        case AwaitReply(_) => ReplyKeeps(s, l);
        case _ => SaveKeeps(s, l);
      }
  }

  lemma {:induction false} RunKeeps(s: System, steps: seq<Step>)
    requires Inv(s) && CanRun(s, steps)
    ensures Inv(Run(s, steps))
    decreases |steps|
  {
    if steps != [] {
      StepKeeps(s, steps[0]);
      RunKeeps(Do(s, steps[0]), steps[1..]);
    }
  }

  // ---- the promises

  /** Per signer: at most one command is open, and distinct commands have distinct nonces;
      nothing reaches the node before it is in the file; confirmed means executed,
      successfully, exactly once. */
  lemma SignerJournal(s: System, steps: seq<Step>)
    requires Init(s) && CanRun(s, steps)
    ensures var v := Run(s, steps);
      && (forall x, y :: x in v.disk && y in v.disk && x != y && v.disk[x].raw.from == v.disk[y].raw.from ==>
            v.disk[x].raw.nonce != v.disk[y].raw.nonce && (Confirmed(v.disk[x]) || Confirmed(v.disk[y])))
      && (forall raw :: raw in v.node.mempool ==> Written(v.disk, raw))
      && (forall op :: op in v.disk && Confirmed(v.disk[op]) ==> ExecutedExactlyOnce(v.node, v.disk[op].raw))
  {
    RunKeeps(s, steps);
    var v := Run(s, steps);
    forall x, y | x in v.disk && y in v.disk && x != y && v.disk[x].raw.from == v.disk[y].raw.from
      ensures v.disk[x].raw.nonce != v.disk[y].raw.nonce && (Confirmed(v.disk[x]) || Confirmed(v.disk[y])) {
      assert Apart(v.disk[x], v.disk[y]);
    }
    forall op | op in v.disk && Confirmed(v.disk[op]) ensures ExecutedExactlyOnce(v.node, v.disk[op].raw) {
      assert TxOk(v.disk[op], v.node);
      assert Inclusion(v.disk[op].raw, true) in v.node.included;
      var i :| 0 <= i < |v.node.included| && v.node.included[i] == Inclusion(v.disk[op].raw, true);
      forall j | 0 <= j < |v.node.included| && v.node.included[j].raw == v.disk[op].raw ensures j == i {}
    }
  }

  ghost predicate ExecutedExactlyOnce(c: Chain, raw: Raw) {
    exists i :: 0 <= i < |c.included| && c.included[i] == Inclusion(raw, true)
      && forall j :: 0 <= j < |c.included| && c.included[j].raw == raw ==> j == i
  }

  /** The bytes of every command in the file stay as first written, and confirmed stays confirmed. */
  ghost predicate Keeps(b: Book, d: Book) {
    forall op :: op in b ==> op in d && d[op].raw == b[op].raw && (Confirmed(b[op]) ==> d[op] == b[op])
  }

  /** Only a save writes the file. */
  lemma WakeWrites(s: System, l: Luck)
    requires Can(s, Await(l))
    ensures var save := s.run.pc.SavePrepared? || s.run.pc.SaveSending? || s.run.pc.SaveOutcome?;
      Wake(s, l).disk == if save then s.run.mem else s.disk
  {
  }

  lemma SavedKeeps(disk: Book, mem: Book, pc: Pc)
    requires Synced(disk, mem, pc) && (pc.SaveSending? || pc.SaveOutcome? ==> !Confirmed(disk[pc.op]))
    ensures Keeps(disk, mem)
  {
  }

  lemma StepKeepsBytes(s: System, st: Step)
    requires Inv(s) && Can(s, st)
    ensures Keeps(s.disk, Do(s, st).disk)
  {
    if st.Await? {
      WakeWrites(s, st.luck);
      SavedKeeps(s.disk, s.run.mem, s.run.pc);
    }
  }

  lemma {:induction false} BytesNeverChange(s: System, steps: seq<Step>)
    requires Inv(s) && CanRun(s, steps)
    ensures Keeps(s.disk, Run(s, steps).disk)
    decreases |steps|
  {
    if steps != [] {
      StepKeepsBytes(s, steps[0]);
      StepKeeps(s, steps[0]);
      BytesNeverChange(Do(s, steps[0]), steps[1..]);
    }
  }

  // ---- a revert is final

  /** The command's transaction was executed and failed. */
  ghost predicate RevertedOp(b: Book, node: Chain, op: string, signer: Account) {
    op in b && b[op].raw.from == signer && Receipt(node, Keccak(b[op].raw)) == Some(false)
  }

  /** The run is not about to add a command of `signer`. */
  ghost predicate AddsNone(run: Runner, signer: Account) {
    run.On? ==>
      && (run.pc.AskPending? || run.pc.AskLatest? ==> run.pc.signer != signer)
      && (run.pc.SavePrepared? ==> run.pc.op in run.mem && run.mem[run.pc.op].raw.from != signer)
  }

  ghost predicate Halted(s: System, op: string, signer: Account) {
    Inv(s) && RevertedOp(s.disk, s.node, op, signer) && AddsNone(s.run, signer)
  }

  ghost function CommandsOf(b: Book, signer: Account): set<string> {
    set op | op in b && b[op].raw.from == signer
  }

  lemma NodeOnlyGrows(s: System, st: Step, raw: Raw, ok: bool)
    requires ChainOk(s.node) && Can(s, st) && Find(s.node.included, raw) == Some(ok)
    ensures Find(Do(s, st).node.included, raw) == Some(ok)
  {
    match st
    case Engine(n) => NetKeepsChainOk(s.node, n);
    case Await(l) => assert Wake(s, l).node.included == s.node.included;
    case _ =>
  }

  /** An open command makes `send` refuse the next one of its signer. */
  lemma SendAddsNone(s: System, op: string, signer: Account, name: string, sender: Account, data: Data)
    requires Halted(s, op, signer) && Can(s, Send(name, sender, data))
    ensures AddsNone(Enter(s, name, sender, data), signer)
  {
    assert TxOk(s.disk[op], s.node);
    if sender == signer { assert op in s.run.mem && !Confirmed(s.run.mem[op]) && s.run.mem[op].raw.from == signer; }
  }

  lemma WakeAddsNone(s: System, signer: Account, l: Luck)
    requires AddsNone(s.run, signer) && Can(s, Await(l))
    ensures AddsNone(Wake(s, l).run, signer)
  {
  }

  lemma WritesNone(disk: Book, run: Runner, signer: Account)
    requires run.On? && Synced(disk, run.mem, run.pc) && AddsNone(run, signer)
    ensures CommandsOf(run.mem, signer) == CommandsOf(disk, signer)
  {
    forall x ensures x in CommandsOf(run.mem, signer) <==> x in CommandsOf(disk, signer) {}
  }

  lemma HaltedStep(s: System, op: string, signer: Account, st: Step)
    requires Halted(s, op, signer) && Can(s, st)
    ensures Halted(Do(s, st), op, signer)
    ensures CommandsOf(Do(s, st).disk, signer) == CommandsOf(s.disk, signer)
  {
    StepKeeps(s, st);
    StepKeepsBytes(s, st);
    NodeOnlyGrows(s, st, s.disk[op].raw, false);
    match st
    case Send(name, sender, data) => SendAddsNone(s, op, signer, name, sender, data);
    case Await(l) =>
      WakeAddsNone(s, signer, l);
      WakeWrites(s, l);
      WritesNone(s.disk, s.run, signer);
    case _ =>
  }

  /** Wherever a run stands when its signer has a reverted command, it is not about to add another. */
  lemma RevertHalts(s: System, op: string, signer: Account)
    requires Inv(s) && RevertedOp(s.disk, s.node, op, signer)
    ensures Halted(s, op, signer)
  {
    assert TxOk(s.disk[op], s.node);
    if s.run.On? {
      var mem, pc := s.run.mem, s.run.pc;
      assert op in mem && mem[op].raw == s.disk[op].raw && TxOk(mem[op], s.node);
      if pc.SavePrepared? { assert Apart(mem[op], mem[pc.op]); }
    }
  }

  lemma {:induction false} HaltedForGood(s: System, op: string, signer: Account, steps: seq<Step>)
    requires Halted(s, op, signer) && CanRun(s, steps)
    ensures Halted(Run(s, steps), op, signer) && !Confirmed(Run(s, steps).disk[op])
    ensures CommandsOf(Run(s, steps).disk, signer) == CommandsOf(s.disk, signer)
    decreases |steps|
  {
    if steps != [] {
      HaltedStep(s, op, signer, steps[0]);
      HaltedForGood(Do(s, steps[0]), op, signer, steps[1..]);
    } else {
      assert TxOk(s.disk[op], s.node);
    }
  }

  /** After any run that has seen a command revert, its signer is stopped for good: whatever runs
      and crashes follow, it gets no new command, and the reverted one is never confirmed. */
  lemma RevertStopsSigner(s: System, steps: seq<Step>, op: string, signer: Account, more: seq<Step>)
    requires Init(s) && CanRun(s, steps)
    requires RevertedOp(Run(s, steps).disk, Run(s, steps).node, op, signer) && CanRun(Run(s, steps), more)
    ensures var v := Run(s, steps); var u := Run(v, more);
      && RevertedOp(u.disk, u.node, op, signer) && !Confirmed(u.disk[op])
      && CommandsOf(u.disk, signer) == CommandsOf(v.disk, signer)
  {
    RunKeeps(s, steps);
    RevertHalts(Run(s, steps), op, signer);
    HaltedForGood(Run(s, steps), op, signer, more);
  }
}
