/** The early deployment as it is written: a lock file, a loop over the steps, and a save on
    either side of every send. Every statement is a step of the file journal's model. */
module StepSender {
  import opened Options
  import opened Wire
  import opened Chain
  import opened FileJournal

  ghost predicate Reaches(p: Plan, v: System, s: System) {
    exists steps :: CanRun(p, v, steps) && Run(p, v, steps) == s
  }

  lemma {:induction false} RunAppend(p: Plan, v: System, steps: seq<Step>, st: Step)
    requires CanRun(p, v, steps) && Can(p, Run(p, v, steps), st)
    ensures CanRun(p, v, steps + [st]) && Run(p, v, steps + [st]) == Do(p, Run(p, v, steps), st)
    decreases |steps|
  {
    if steps == [] {
      assert steps + [st] == [st];
      assert CanRun(p, Do(p, v, st), []) && [st][1..] == [];
    } else {
      assert (steps + [st])[1..] == steps[1..] + [st];
      RunAppend(p, Do(p, v, steps[0]), steps[1..], st);
    }
  }

  lemma ReachesNext(p: Plan, base: nat, v: System, s: System, n: nat, st: Step)
    requires Inv(p, base, s, n) && Reaches(p, v, s) && Can(p, s, st)
    ensures Reaches(p, v, Do(p, s, st)) && Inv(p, base, Do(p, s, st), Grown(s, st, n))
  {
    var steps :| CanRun(p, v, steps) && Run(p, v, steps) == s;
    RunAppend(p, v, steps, st);
    StepKeeps(p, base, s, n, st);
  }

  /** What one step is told. */
  datatype Answers = Answers(fees: nat, seen: bool, delivered: bool, mined: Option<bool>)

  /** The bytes a step sends: those of its entry, if they carry its payload, or new ones at the account
      nonce, if nothing is queued there. */
  ghost function Chosen(owner: Account, spec: StepSpec, f: File, c: Chain, results: seq<Address>, fees: nat): Option<Raw> {
    var want := spec.payload(results);
    if spec.name in f then
      (if f[spec.name].raw.to == want.to && f[spec.name].raw.data == want.data then Some(f[spec.name].raw) else None)
    else if Queued(c, owner, Latest(c, owner)) then None
    else Some(Raw(owner, Latest(c, owner), want.to, want.data, 0, fees))
  }

  /** The file with the step's bytes, marked done if they went through. */
  function Recorded(f: File, name: string, raw: Raw, ok: bool): File {
    if name in f && !ok then f else f[name := Entry(raw, ok)]
  }

  lemma RecordedAgain(f: File, name: string, raw: Raw, ok: bool)
    ensures ok ==> f[name := Entry(raw, false)][name := Entry(raw, true)] == f[name := Entry(raw, true)]
  {
  }

  class Deployment {
    const p: Plan
    const base: nat
    var lock: bool
    var file: File
    var mem: File
    var results: seq<Address>
    var chain: Chain
    ghost var s: System
    ghost var n: nat

    ghost predicate Synced(start: System)
      reads this
    {
      Inv(p, base, s, n) && Reaches(p, start, s) && s.lock == lock && s.file == file && s.chain == chain
    }

    ghost predicate At(start: System, pc: Pc)
      reads this
    {
      Synced(start) && s.run == On(mem, results, pc)
    }

    /** The error has run through `finally`: the run is over and the lock file gone. */
    ghost predicate Thrown(start: System)
      reads this
    {
      Synced(start) && s.run.Off? && !lock
    }

    ghost method Note(start: System, st: Step)
      requires Synced(start) && Can(p, s, st)
      modifies this`s, this`n
      ensures s == Do(p, old(s), st) && Inv(p, base, s, n) && Reaches(p, start, s)
    {
      ReachesNext(p, base, start, s, n, st);
      n := Grown(s, st, n);
      s := Do(p, s, st);
    }

    ghost predicate Named(name: string)
      reads this
    {
      |results| < |p.specs| && name == p.specs[|results|].name
    }

    method Throw(ghost pc: Pc, ghost start: System)
      requires At(start, pc)
      modifies this
      ensures Thrown(start) && file == old(file) && chain == old(chain) && mem == old(mem) && results == old(results)
    {
      Note(start, Step.Throw);
      lock := false;
    }

    /** No entry yet: both counts must agree, and the signed bytes are saved first. */
    method Sign(name: string, want: Payload, fees: nat, ghost start: System) returns (ok: bool)
      requires At(start, Next) && Named(name) && name !in mem && want == p.specs[|results|].payload(results)
      modifies this
      ensures chain == old(chain) && results == old(results)
      ensures ok ==> At(start, AskReceipt) && name in mem && file == mem
      ensures ok ==> mem == old(mem)[name := Entry(Raw(p.owner, Latest(chain, p.owner), want.to, want.data, 0, fees), false)]
      ensures !ok ==> Thrown(start) && file == old(file)
      ensures !ok <==> Queued(chain, p.owner, Latest(chain, p.owner))
    {
      var latest := Latest(chain, p.owner);
      var pending := PendingCount(chain, p.owner);
      ghost var l := Await(Luck(pending, fees, false, false, true));
      Note(start, l);
      Note(start, l);
      Note(start, l);
      ok := latest == pending;
      if !ok {
        lock := false;
        return;
      }
      mem := mem[name := Entry(Raw(p.owner, latest, want.to, want.data, 0, fees), false)];
      Note(start, l);
      file := mem;
    }

    /** An entry from an earlier run: it must be for the same payload. */
    method Recall(name: string, want: Payload, ghost start: System) returns (ok: bool)
      requires At(start, Next) && Named(name) && name in mem && want == p.specs[|results|].payload(results)
      modifies this
      ensures chain == old(chain) && results == old(results) && mem == old(mem) && file == old(file)
      ensures ok == (Payload(mem[name].raw.to, mem[name].raw.data) == want)
      ensures if ok then At(start, AskReceipt) else Thrown(start)
    {
      ok := Payload(mem[name].raw.to, mem[name].raw.data) == want;
      Note(start, Await(Luck(0, 0, false, false, true)));
      if !ok { lock := false; }
    }

    /** The receipt, from a query, or after a send of the saved bytes and a wait that may end in an
        error. */
    method Receive(name: string, a: Answers, ghost start: System) returns (r: Option<bool>)
      requires At(start, AskReceipt) && Named(name) && name in mem
      modifies this
      ensures mem == old(mem) && file == old(file) && results == old(results)
      ensures r == Fate(old(chain), mem[name].raw, a.delivered, a.mined)
      ensures Attempted(old(chain), chain, mem[name].raw, a.delivered, a.mined)
      ensures r.Some? ==> At(start, FileJournal.Judge(r.value))
      ensures r.None? ==> Thrown(start)
    {
      var raw := mem[name].raw;
      FateFollows(chain, raw, a.delivered, a.mined);
      r := if a.seen then Receipt(chain, Keccak(raw)) else None;
      Note(start, Await(Luck(0, 0, a.seen, false, true)));
      if r.None? {
        Transmit(name, a.delivered, start);
        r := Listen(name, a.mined, start);
      }
    }

    method Transmit(name: string, delivered: bool, ghost start: System)
      requires At(start, SendRaw) && Named(name) && name in mem
      modifies this
      ensures mem == old(mem) && file == old(file) && results == old(results) && At(start, WaitReceipt)
      ensures chain == if delivered then Broadcast(old(chain), mem[name].raw) else old(chain)
    {
      Note(start, Await(Luck(0, 0, false, delivered, true)));
      if delivered { chain := Broadcast(chain, mem[name].raw); }
    }

    method Listen(name: string, mined: Option<bool>, ghost start: System) returns (r: Option<bool>)
      requires At(start, WaitReceipt) && Named(name) && name in mem
      modifies this
      ensures mem == old(mem) && file == old(file) && results == old(results)
      ensures chain == Mined(old(chain), mem[name].raw, mined) && r == Receipt(chain, Keccak(mem[name].raw))
      ensures r.Some? ==> At(start, FileJournal.Judge(r.value))
      ensures r.None? ==> Thrown(start)
    {
      Include(name, mined, start);
      r := Receipt(chain, Keccak(mem[name].raw));
      if r.None? {
        Throw(WaitReceipt, start);
      } else {
        Hear(name, r.value, start);
      }
    }

    ghost method Hear(name: string, ok: bool, start: System)
      requires At(start, WaitReceipt) && Named(name) && name in mem && Receipt(chain, Keccak(mem[name].raw)) == Some(ok)
      modifies this`s, this`n
      ensures At(start, FileJournal.Judge(ok))
    {
      Note(start, Await(Luck(0, 0, false, false, true)));
    }

    method Include(name: string, mined: Option<bool>, ghost start: System)
      requires At(start, WaitReceipt) && Named(name) && name in mem
      modifies this
      ensures mem == old(mem) && file == old(file) && results == old(results) && At(start, WaitReceipt)
      ensures chain == Mined(old(chain), mem[name].raw, mined)
    {
      var raw := mem[name].raw;
      if mined.Some? && raw in chain.mempool && raw.nonce == Latest(chain, raw.from) {
        Note(start, FileJournal.Step.Mine(NetStep.Include(raw, mined.value)));
        chain := Net(chain, NetStep.Include(raw, mined.value));
      }
    }

    /** A reverted step throws; a successful one is saved with its receipt. */
    method Conclude(name: string, ok: bool, ghost start: System)
      requires At(start, FileJournal.Judge(ok)) && Named(name) && name in mem
      modifies this
      ensures chain == old(chain)
      ensures if ok then At(start, Next) && file == mem else Thrown(start) && file == old(file)
      ensures ok ==> mem == old(mem)[name := Entry(old(mem)[name].raw, true)]
      ensures results == old(results) + (if ok then [Created(old(mem)[name].raw.from, old(mem)[name].raw.nonce)] else [])
    {
      ghost var l := Await(Luck(0, 0, false, false, true));
      Note(start, l);
      if !ok {
        lock := false;
        return;
      }
      mem := mem[name := mem[name].(done := true)];
      Done(name, start);
    }

    method Done(name: string, ghost start: System)
      requires At(start, SaveDone) && Named(name) && name in mem
      modifies this
      ensures chain == old(chain) && mem == old(mem) && file == mem && At(start, Next)
      ensures results == old(results) + [Created(mem[name].raw.from, mem[name].raw.nonce)]
    {
      Note(start, Await(Luck(0, 0, false, false, true)));
      file := mem;
      results := results + [Created(mem[name].raw.from, mem[name].raw.nonce)];
    }

    /** One `send`: it goes on exactly when the step's transaction gets through, and otherwise throws. */
    method Send(a: Answers, ghost start: System) returns (ok: bool)
      requires At(start, Next) && |results| < |p.specs|
      modifies this
      ensures if ok then At(start, Next) && file == mem else Thrown(start)
      ensures var spec, c := p.specs[|old(results)|], old(chain);
        match Chosen(p.owner, spec, old(mem), c, old(results), a.fees)
        case None => !ok && file == old(file) && chain == c
        case Some(raw) =>
          && ok == (Fate(c, raw, a.delivered, a.mined) == Some(true)) && Attempted(c, chain, raw, a.delivered, a.mined)
          && file == Recorded(old(mem), spec.name, raw, ok)
          && (ok ==> results == old(results) + [Created(raw.from, raw.nonce)])
    {
      var name := p.specs[|results|].name;
      var want := p.specs[|results|].payload(results);
      if name in mem { ok := Recall(name, want, start); } else { ok := Sign(name, want, a.fees, start); }
      if !ok { return; }
      ghost var raw := mem[name].raw;
      ok := Finish(name, a, start);
      RecordedAgain(old(mem), name, raw, ok);
    }

    /** From the receipt query to the end of the step. */
    method Finish(name: string, a: Answers, ghost start: System) returns (ok: bool)
      requires At(start, AskReceipt) && Named(name) && name in mem && file == mem
      modifies this
      ensures if ok then At(start, Next) && file == mem else Thrown(start)
      ensures var raw, c := old(mem)[name].raw, old(chain);
        && ok == (Fate(c, raw, a.delivered, a.mined) == Some(true)) && Attempted(c, chain, raw, a.delivered, a.mined)
        && file == (if ok then old(mem)[name := Entry(raw, true)] else old(mem))
        && results == old(results) + (if ok then [Created(raw.from, raw.nonce)] else [])
    {
      var receipt := Receive(name, a, start);
      if receipt.None? { return false; }
      Conclude(name, receipt.value, start);
      ok := receipt.value;
    }

    /** The whole run. Unless the lock file stops it, it throws or goes through every step; when all were
        done before, it goes through and changes nothing. */
    method Deploy(a: seq<Answers>) returns (ok: bool)
      requires Inv(p, base, s, n) && s.lock == lock && s.file == file && s.chain == chain && s.run.Off?
      requires |a| == |p.specs|
      modifies this
      ensures Inv(p, base, s, n) && Reaches(p, old(s), s)
      ensures old(lock) ==> !ok && file == old(file) && chain == old(chain)
      ensures ok ==> s.run.On? && |s.run.results| == |p.specs|
      ensures !old(lock) && !ok ==> !lock && s.run.Off?
      ensures !old(lock) && AllDone(p, old(file)) ==> ok && file == old(file) && chain == old(chain)
    {
      ghost var start := s;
      assert CanRun(p, s, []) && Run(p, s, []) == s;
      if lock { return false; }
      lock, mem, results := true, file, [];
      ghost var st := Begin;
      ReachesNext(p, base, start, s, n, st);
      n := Grown(s, st, n);
      s := Do(p, s, st);
      ok := Steps(a, start);
    }

    /** The steps, with the lock file held. */
    method Steps(a: seq<Answers>, ghost start: System) returns (ok: bool)
      requires At(start, Next) && results == [] && file == mem && |a| == |p.specs|
      modifies this
      ensures if ok then At(start, Next) && |results| == |p.specs| else Thrown(start)
      ensures AllDone(p, old(file)) ==> ok && file == old(file) && chain == old(chain)
    {
      for k := 0 to |p.specs|
        invariant At(start, Next) && |results| == k
        invariant AllDone(p, old(file)) ==> file == mem == old(file) && chain == old(chain)
      {
        if AllDone(p, old(file)) { DoneGoesThrough(p, base, s, n, a[k]); }
        ok := Send(a[k], start);
        if !ok { return; }
      }
      ok := true;
    }
  }

  ghost predicate AllDone(p: Plan, f: File) {
    forall k: nat :: k < |p.specs| ==> Has(p, f, k) && EntryOf(p, f, k).done
  }

  /** A step that is done is recalled, with its receipt. */
  lemma DoneGoesThrough(p: Plan, base: nat, s: System, n: nat, a: Answers)
    requires Inv(p, base, s, n) && s.run.On? && s.run.pc.Next? && |s.run.results| < |p.specs| && AllDone(p, s.file)
    ensures var name := p.specs[|s.run.results|].name;
      && name in s.file && s.file[name].done
      && Chosen(p.owner, p.specs[|s.run.results|], s.run.mem, s.chain, s.run.results, a.fees) == Some(s.file[name].raw)
      && Receipt(s.chain, Keccak(s.file[name].raw)) == Some(true)
  {
    var k := |s.run.results|;
    assert Has(p, s.file, k) && EntryOf(p, s.file, k).done;
    assert IsStep(p, base, k, EntryOf(p, s.file, k).raw) && Succeeded(s.chain, k);
    ReceiptAt(p, base, s.file, s.chain, n, k);
  }

  /** A run that went through has left exactly the plan, whatever happened in the runs before it. */
  lemma DeployedExactly(p: Plan, base: nat, v: System, s: System)
    requires Init(p, base, v) && Reaches(p, v, s) && s.run.On? && |s.run.results| == |p.specs|
    ensures |s.chain.included| == |p.specs|
    ensures forall k: nat :: k < |p.specs| ==> s.chain.included[k].ok && IsStep(p, base, k, s.chain.included[k].raw)
  {
    var steps :| CanRun(p, v, steps) && Run(p, v, steps) == s;
    CompleteRunFootprint(p, base, v, steps);
  }
}
