/** The deployment of the early-settlement contracts: a straight line of steps, a journal
    file saved before each send, and an exclusive lock file. There is no table of
    pending transactions; the order of the steps does its work. */
module FileJournal {
  import opened Options
  import opened Wire
  import opened Chain

  datatype Payload = Payload(to: Option<Address>, data: Data)

  /** One step: its name, and its payload given the addresses created by the steps before it. */
  datatype StepSpec = StepSpec(name: string, payload: seq<Address> -> Payload)

  datatype Plan = Plan(owner: Account, specs: seq<StepSpec>)

  datatype Entry = Entry(raw: Raw, done: bool)

  type File = map<string, Entry>

  datatype Pc =
    | Next
    | FirstCount(latestFirst: bool)
    | SecondCount(latestFirst: bool, count: nat)
    | SaveSigned
    | AskReceipt
    | SendRaw
    | WaitReceipt
    | Judge(ok: bool)
    | SaveDone

  datatype Runner = Off | On(mem: File, results: seq<Address>, pc: Pc)

  /** `lock` is the lock file: a thrown error removes it, a killed process leaves it behind. */
  datatype System = System(lock: bool, file: File, run: Runner, chain: Chain)

  datatype Luck = Luck(count: nat, fees: nat, seen: bool, delivered: bool, latestFirst: bool)

  datatype Step = Begin | Await(luck: Luck) | Kill | Throw | Unlock | Mine(net: NetStep)

  function Current(p: Plan, s: System): StepSpec
    requires s.run.On? && |s.run.results| < |p.specs|
  {
    p.specs[|s.run.results|]
  }

  function Wanted(p: Plan, s: System): Payload
    requires s.run.On? && |s.run.results| < |p.specs|
  {
    Current(p, s).payload(s.run.results)
  }

  ghost predicate Can(p: Plan, s: System, st: Step) {
    match st
    case Begin => !s.lock && s.run.Off?
    case Await(l) =>
      && s.run.On? && |s.run.results| < |p.specs|
      && (!s.run.pc.Next? && !s.run.pc.FirstCount? && !s.run.pc.SecondCount? ==> Current(p, s).name in s.run.mem)
      && (s.run.pc == FirstCount(false) ==> IsPendingCount(s.chain, p.owner, l.count))
      && (s.run.pc.SecondCount? && s.run.pc.latestFirst ==> IsPendingCount(s.chain, p.owner, l.count))
    case Kill => s.run.On?
    case Throw => s.run.On?
    case Unlock => s.run.Off?
    case Mine(n) => CanNet(s.chain, n)
  }

  function Stop(s: System): System {
    s.(lock := false, run := Off)
  }

  function At(s: System, pc: Pc): System
    requires s.run.On?
  {
    s.(run := s.run.(pc := pc))
  }

  /** One await of `send`. The two nonce counts are asked for together and may be answered in either order. */
  ghost function Wake(p: Plan, s: System, l: Luck): System
    requires Can(p, s, Await(l))
  {
    var mem, name := s.run.mem, Current(p, s).name;
    match s.run.pc
    case Next =>
      if name !in mem then At(s, FirstCount(l.latestFirst))
      else if Payload(mem[name].raw.to, mem[name].raw.data) != Wanted(p, s) then Stop(s)
      else At(s, AskReceipt)
    case FirstCount(latestFirst) => At(s, SecondCount(latestFirst, if latestFirst then Latest(s.chain, p.owner) else l.count))
    case SecondCount(latestFirst, count) =>
      var latest := if latestFirst then count else Latest(s.chain, p.owner);
      var pending := if latestFirst then l.count else count;
      if latest != pending then Stop(s)
      else
        var raw := Raw(p.owner, latest, Wanted(p, s).to, Wanted(p, s).data, 0, l.fees);
        s.(run := s.run.(mem := mem[name := Entry(raw, false)], pc := SaveSigned))
    case SaveSigned => At(s, AskReceipt).(file := mem)
    case AskReceipt =>
      var r := Receipt(s.chain, Keccak(mem[name].raw));
      At(s, if l.seen && r.Some? then Judge(r.value) else SendRaw)
    case SendRaw =>
      At(s, WaitReceipt).(chain := if l.delivered then Broadcast(s.chain, mem[name].raw) else s.chain)
    case WaitReceipt =>
      var r := Receipt(s.chain, Keccak(mem[name].raw));
      if r.None? then s else At(s, Judge(r.value))
    case Judge(ok) =>
      if !ok then Stop(s)
      else s.(run := s.run.(mem := mem[name := mem[name].(done := true)], pc := SaveDone))
    case SaveDone =>
      var raw := mem[name].raw;
      s.(file := mem, run := On(mem, s.run.results + [Created(raw.from, raw.nonce)], Next))
  }

  ghost function Do(p: Plan, s: System, st: Step): System
    requires Can(p, s, st)
  {
    match st
    case Begin => s.(lock := true, run := On(s.file, [], Next))
    case Await(l) => Wake(p, s, l)
    case Kill => s.(run := Off)
    case Throw => Stop(s)
    case Unlock => s.(lock := false)
    case Mine(n) => s.(chain := Net(s.chain, n))
  }

  ghost predicate CanRun(p: Plan, s: System, steps: seq<Step>)
    decreases |steps|
  {
    steps == [] || (Can(p, s, steps[0]) && CanRun(p, Do(p, s, steps[0]), steps[1..]))
  }

  ghost function Run(p: Plan, s: System, steps: seq<Step>): System
    requires CanRun(p, s, steps)
    decreases |steps|
  {
    if steps == [] then s else Run(p, Do(p, s, steps[0]), steps[1..])
  }

  // ---- what the file says is true

  ghost predicate PlanOk(p: Plan) {
    forall i, j :: 0 <= i < j < |p.specs| ==> p.specs[i].name != p.specs[j].name
  }

  /** `raw` is step `k` at its own nonce, built on the addresses of the steps before it. */
  ghost predicate IsStep(p: Plan, base: nat, k: nat, raw: Raw)
    requires k < |p.specs|
  {
    && raw.from == p.owner && raw.nonce == base + k
    && Payload(raw.to, raw.data) == p.specs[k].payload(Addresses(p.owner, base, k))
  }

  predicate Has(p: Plan, f: File, k: nat) {
    k < |p.specs| && p.specs[k].name in f
  }

  function EntryOf(p: Plan, f: File, k: nat): Entry
    requires Has(p, f, k)
  {
    f[p.specs[k].name]
  }

  /** The file holds exactly the first `n` steps, each with its own bytes. */
  ghost predicate Holds(p: Plan, base: nat, f: File, n: nat) {
    && n <= |p.specs|
    && (forall k: nat :: k < |p.specs| ==> (Has(p, f, k) <==> k < n))
    && (forall k: nat :: k < n ==> Has(p, f, k) && IsStep(p, base, k, EntryOf(p, f, k).raw))
  }

  /** Step `k` of the file has succeeded. */
  ghost predicate Succeeded(c: Chain, k: nat) {
    k < |c.included| && c.included[k].ok
  }

  /** The account's transactions on the chain are the file's, in step order, all but the
      last of the file; every step that has a successor, or is marked done, succeeded. */
  ghost predicate Matches(p: Plan, base: nat, f: File, c: Chain, n: nat)
    requires Holds(p, base, f, n)
  {
    && |c.included| <= n <= |c.included| + 1
    && Latest(c, p.owner) == base + |c.included|
    && (forall k: nat :: k < |c.included| ==> Has(p, f, k) && c.included[k].raw == EntryOf(p, f, k).raw)
    && (forall k: nat :: k < n && (k + 1 < n || (Has(p, f, k) && EntryOf(p, f, k).done)) ==> Succeeded(c, k))
    && (forall raw :: raw in c.mempool ==> exists k: nat :: k < n && Has(p, f, k) && EntryOf(p, f, k).raw == raw)
  }

  ghost predicate FileOk(p: Plan, base: nat, f: File, c: Chain, n: nat) {
    Holds(p, base, f, n) && Matches(p, base, f, c, n)
  }

  ghost predicate PcOk(p: Plan, base: nat, s: System, n: nat)
    requires s.run.On? && Holds(p, base, s.file, n)
  {
    var k, mem := |s.run.results|, s.run.mem;
    match s.run.pc
    case Next => mem == s.file
    case FirstCount(_) => mem == s.file && k == n
    case SecondCount(latestFirst, count) => mem == s.file && k == n && (latestFirst ==> count == base + n)
    case SaveSigned =>
      && k == n && n < |p.specs| && p.specs[k].name in mem && mem == s.file[p.specs[k].name := EntryOf(p, mem, k)]
      && IsStep(p, base, k, EntryOf(p, mem, k).raw) && !EntryOf(p, mem, k).done
    case AskReceipt => mem == s.file && k < n
    case SendRaw => mem == s.file && k < n
    case WaitReceipt => mem == s.file && k < n
    case Judge(ok) => mem == s.file && k < |s.chain.included| && s.chain.included[k].ok == ok
    case SaveDone =>
      && k < n && Has(p, s.file, k) && Succeeded(s.chain, k)
      && mem == s.file[p.specs[k].name := EntryOf(p, s.file, k).(done := true)]
  }

  ghost predicate RunOk(p: Plan, base: nat, s: System, n: nat)
    requires Holds(p, base, s.file, n)
  {
    s.run.On? ==>
      && s.lock && |s.run.results| <= n
      && s.run.results == Addresses(p.owner, base, |s.run.results|)
      && (forall k: nat :: k < |s.run.results| ==> Succeeded(s.chain, k))
      && PcOk(p, base, s, n)
  }

  ghost predicate Inv(p: Plan, base: nat, s: System, n: nat) {
    && PlanOk(p) && ChainOk(s.chain) && FileOk(p, base, s.file, s.chain, n) && RunOk(p, base, s, n)
  }

  ghost predicate Init(p: Plan, base: nat, s: System) {
    && PlanOk(p) && s.file == map[] && s.run.Off?
    && s.chain.included == [] && s.chain.mempool == {} && Latest(s.chain, p.owner) == base
  }

  // ---- every step keeps it

  lemma ReceiptAt(p: Plan, base: nat, f: File, c: Chain, n: nat, k: nat)
    requires ChainOk(c) && FileOk(p, base, f, c, n) && k < n && Has(p, f, k)
    ensures Find(c.included, EntryOf(p, f, k).raw) == if k < |c.included| then Some(c.included[k].ok) else None
  {
    var raw := EntryOf(p, f, k).raw;
    forall i: nat | i < |c.included| ensures c.included[i].raw == raw <==> i == k {
      assert Has(p, f, i) && IsStep(p, base, i, EntryOf(p, f, i).raw);
    }
    if Find(c.included, raw).Some? {
      var i: nat :| i < |c.included| && c.included[i] == Inclusion(raw, Find(c.included, raw).value);
    }
  }

  lemma SuccessStays(c: Chain, net: NetStep)
    requires ChainOk(c) && CanNet(c, net)
    ensures |c.included| <= |Net(c, net).included|
    ensures forall k: nat :: k < |c.included| ==> Net(c, net).included[k] == c.included[k]
    ensures forall k: nat :: Succeeded(c, k) ==> Succeeded(Net(c, net), k)
  {
  }

  /** Only the step the chain still lacks can be mined next. */
  lemma MineKeepsFile(p: Plan, base: nat, f: File, c: Chain, n: nat, net: NetStep)
    requires ChainOk(c) && FileOk(p, base, f, c, n) && CanNet(c, net)
    ensures ChainOk(Net(c, net)) && FileOk(p, base, f, Net(c, net), n)
  {
    NetKeepsChainOk(c, net);
    SuccessStays(c, net);
    var k: nat :| k < n && Has(p, f, k) && EntryOf(p, f, k).raw == net.raw;
    assert IsStep(p, base, k, EntryOf(p, f, k).raw);
  }

  lemma MineKeeps(p: Plan, base: nat, s: System, n: nat, net: NetStep)
    requires Inv(p, base, s, n) && CanNet(s.chain, net)
    ensures Inv(p, base, Do(p, s, Mine(net)), n)
  {
    SuccessStays(s.chain, net);
    MineKeepsFile(p, base, s.file, s.chain, n, net);
  }

  /** A run that has a result for every step of the file finds the account at rest. */
  lemma AtRest(p: Plan, base: nat, s: System, n: nat)
    requires Inv(p, base, s, n) && s.run.On? && |s.run.results| == n
    ensures |s.chain.included| == n && Latest(s.chain, p.owner) == base + n
  {
    if n > 0 { assert Succeeded(s.chain, n - 1); }
  }

  lemma CountKeeps(p: Plan, base: nat, s: System, n: nat, l: Luck)
    requires Inv(p, base, s, n) && Can(p, s, Await(l)) && (s.run.pc.FirstCount? || s.run.pc.SecondCount?)
    ensures Inv(p, base, Wake(p, s, l), n)
  {
    AtRest(p, base, s, n);
  }

  lemma SaveSignedKeeps(p: Plan, base: nat, s: System, n: nat, l: Luck)
    requires Inv(p, base, s, n) && Can(p, s, Await(l)) && s.run.pc.SaveSigned?
    ensures Inv(p, base, Wake(p, s, l), n + 1)
  {
    AtRest(p, base, s, n);
    var mem := s.run.mem;
    forall k: nat | k < |p.specs| ensures Has(p, mem, k) <==> k < n + 1 {
      if k != n { assert Has(p, s.file, k) <==> k < n; }
    }
    forall k: nat | k < n ensures Has(p, mem, k) && EntryOf(p, mem, k) == EntryOf(p, s.file, k) {
      assert Has(p, s.file, k);
    }
    assert !EntryOf(p, mem, n).done;
    forall raw | raw in s.chain.mempool ensures exists k: nat :: k < n + 1 && Has(p, mem, k) && EntryOf(p, mem, k).raw == raw {
      var k: nat :| k < n && Has(p, s.file, k) && EntryOf(p, s.file, k).raw == raw;
      assert EntryOf(p, mem, k).raw == raw;
    }
  }

  lemma MarkDone(p: Plan, base: nat, f: File, c: Chain, n: nat, r: nat)
    requires PlanOk(p) && FileOk(p, base, f, c, n) && r < n && Has(p, f, r) && Succeeded(c, r)
    ensures FileOk(p, base, f[p.specs[r].name := EntryOf(p, f, r).(done := true)], c, n)
  {
    var mem := f[p.specs[r].name := EntryOf(p, f, r).(done := true)];
    forall k: nat | k < |p.specs| ensures Has(p, mem, k) <==> Has(p, f, k) {}
    forall k: nat | k < n
      ensures Has(p, mem, k) && EntryOf(p, mem, k) == if k == r then EntryOf(p, f, k).(done := true) else EntryOf(p, f, k) {
      assert Has(p, f, k);
    }
    forall raw | raw in c.mempool ensures exists k: nat :: k < n && Has(p, mem, k) && EntryOf(p, mem, k).raw == raw {
      var k: nat :| k < n && Has(p, f, k) && EntryOf(p, f, k).raw == raw;
      assert EntryOf(p, mem, k).raw == raw;
    }
  }

  lemma SaveDoneKeeps(p: Plan, base: nat, s: System, n: nat, l: Luck)
    requires Inv(p, base, s, n) && Can(p, s, Await(l)) && s.run.pc.SaveDone?
    ensures Inv(p, base, Wake(p, s, l), n)
  {
    var r := |s.run.results|;
    MarkDone(p, base, s.file, s.chain, n, r);
    assert IsStep(p, base, r, EntryOf(p, s.file, r).raw);
    assert Addresses(p.owner, base, r) + [Created(p.owner, base + r)] == Addresses(p.owner, base, r + 1);
  }

  lemma SendKeeps(p: Plan, base: nat, s: System, n: nat, l: Luck)
    requires Inv(p, base, s, n) && Can(p, s, Await(l)) && s.run.pc.SendRaw?
    ensures Inv(p, base, Wake(p, s, l), n)
  {
    assert Has(p, s.file, |s.run.results|);
    assert EntryOf(p, s.file, |s.run.results|).raw == s.run.mem[Current(p, s).name].raw;
  }

  lemma NextKeeps(p: Plan, base: nat, s: System, n: nat, l: Luck)
    requires Inv(p, base, s, n) && Can(p, s, Await(l)) && s.run.pc.Next?
    ensures Inv(p, base, Wake(p, s, l), n)
  {
    assert Has(p, s.file, |s.run.results|) <==> |s.run.results| < n;
  }

  lemma ReadKeeps(p: Plan, base: nat, s: System, n: nat, l: Luck)
    requires Inv(p, base, s, n) && Can(p, s, Await(l))
    requires s.run.pc.AskReceipt? || s.run.pc.WaitReceipt? || s.run.pc.Judge?
    ensures Inv(p, base, Wake(p, s, l), n)
  {
    assert Has(p, s.file, |s.run.results|);
    ReceiptAt(p, base, s.file, s.chain, n, |s.run.results|);
  }

  /** How many steps the file holds after a step of the system. */
  ghost function Grown(s: System, st: Step, n: nat): nat {
    if st.Await? && s.run.On? && s.run.pc.SaveSigned? then n + 1 else n
  }

  lemma StepKeeps(p: Plan, base: nat, s: System, n: nat, st: Step)
    requires Inv(p, base, s, n) && Can(p, s, st)
    ensures Inv(p, base, Do(p, s, st), Grown(s, st, n))
  {
    match st
    case Mine(net) => MineKeeps(p, base, s, n, net);
    case Await(l) =>
      match s.run.pc {
        case FirstCount(_) => CountKeeps(p, base, s, n, l);
        case SecondCount(_, _) => CountKeeps(p, base, s, n, l);
        case SaveSigned => SaveSignedKeeps(p, base, s, n, l);
        case SaveDone => SaveDoneKeeps(p, base, s, n, l);
        case Next => NextKeeps(p, base, s, n, l);
        case SendRaw => SendKeeps(p, base, s, n, l);
        case _ => ReadKeeps(p, base, s, n, l);
      }
    case _ =>
  }

  lemma {:induction false} RunKeeps(p: Plan, base: nat, s: System, n: nat, steps: seq<Step>) returns (m: nat)
    requires Inv(p, base, s, n) && CanRun(p, s, steps)
    ensures Inv(p, base, Run(p, s, steps), m)
    decreases |steps|
  {
    if steps == [] { return n; }
    StepKeeps(p, base, s, n, steps[0]);
    m := RunKeeps(p, base, Do(p, s, steps[0]), Grown(s, steps[0], n), steps[1..]);
  }

  // ---- the promises

  /** Over every trace of runs, kills, errors and lock removals: the file holds a prefix of
      the steps, their nonces are consecutive in step order, all of them but the last have
      succeeded, and the chain holds each at most once, in step order, and nothing else. */
  lemma StepsExactlyOnce(p: Plan, base: nat, s: System, steps: seq<Step>) returns (n: nat)
    requires Init(p, base, s) && CanRun(p, s, steps)
    ensures var v := Run(p, s, steps);
      && n <= |p.specs| && (forall k: nat :: k < |p.specs| ==> (Has(p, v.file, k) <==> k < n))
      && (forall k: nat :: k < n ==> Has(p, v.file, k) && IsStep(p, base, k, EntryOf(p, v.file, k).raw))
      && (forall k: nat :: k + 1 < n ==> Succeeded(v.chain, k))
      && |v.chain.included| <= n <= |v.chain.included| + 1
      && (forall k: nat :: k < |v.chain.included| ==> Has(p, v.file, k) && v.chain.included[k].raw == EntryOf(p, v.file, k).raw)
      && (forall raw :: raw in v.chain.mempool ==> exists k: nat :: k < n && Has(p, v.file, k) && EntryOf(p, v.file, k).raw == raw)
      && (v.run.On? ==> v.lock)
  {
    assert forall k: nat :: k < |p.specs| ==> !Has(p, s.file, k);
    n := RunKeeps(p, base, s, 0, steps);
  }

  /** A run that got through every step left exactly the plan: each step once, successful, in
      order, built on the addresses of the steps before it, whatever happened earlier. */
  lemma CompleteRunFootprint(p: Plan, base: nat, s: System, steps: seq<Step>)
    requires Init(p, base, s) && CanRun(p, s, steps)
    requires Run(p, s, steps).run.On? && |Run(p, s, steps).run.results| == |p.specs|
    ensures var v := Run(p, s, steps);
      && |v.chain.included| == |p.specs|
      && forall k: nat :: k < |p.specs| ==> v.chain.included[k].ok && IsStep(p, base, k, v.chain.included[k].raw)
  {
    assert forall k: nat :: k < |p.specs| ==> !Has(p, s.file, k);
    var n := RunKeeps(p, base, s, 0, steps);
    var v := Run(p, s, steps);
    AtRest(p, base, v, n);
    forall k: nat | k < |p.specs| ensures v.chain.included[k].ok { assert Succeeded(v.chain, k); }
  }

  /** The five steps of the repository's deployment. */
  function EarlyPlan(owner: Account, game: Address, treasury: Address, maker: Address): Plan {
    Plan(owner, [
      StepSpec("RoomsEarlySettlement", (r: seq<Address>) => Payload(None, Data("RoomsEarlySettlement", [Word.At(game)]))),
      StepSpec("RoomsVault", (r: seq<Address>) => Payload(None, Data("RoomsVault", [Text(owner)]))),
      StepSpec("MarketV4", (r: seq<Address>) => Payload(None, Data("MarketV4",
        [Text(owner), Word.At(treasury)] + Result(r, 0) + [Word.At(maker)] + Result(r, 1)))),
      StepSpec("register-market", (r: seq<Address>) => Payload(Target(r, 1), Data("registerModule", Result(r, 2)))),
      StepSpec("seal-vault", (r: seq<Address>) => Payload(Target(r, 1), Data("seal", [])))])
  }

  function Result(r: seq<Address>, i: nat): seq<Word> {
    if i < |r| then [Word.At(r[i])] else []
  }

  function Target(r: seq<Address>, i: nat): Option<Address> {
    if i < |r| then Some(r[i]) else None
  }

  /** The step names differ; the market is built on the settlement and the vault, and the vault is where it is
      registered and what is sealed. */
  lemma EarlyPlanOk(owner: Account, game: Address, treasury: Address, maker: Address, base: nat)
    ensures PlanOk(EarlyPlan(owner, game, treasury, maker)) && |EarlyPlan(owner, game, treasury, maker).specs| == 5
    ensures var specs := EarlyPlan(owner, game, treasury, maker).specs;
      var settlement, vault, market := Created(owner, base), Created(owner, base + 1), Created(owner, base + 2);
      && specs[0].payload(Addresses(owner, base, 0)) == Payload(None, Data("RoomsEarlySettlement", [Word.At(game)]))
      && specs[1].payload(Addresses(owner, base, 1)) == Payload(None, Data("RoomsVault", [Text(owner)]))
      && specs[2].payload(Addresses(owner, base, 2)) == Payload(None, Data("MarketV4",
           [Text(owner), Word.At(treasury), Word.At(settlement), Word.At(maker), Word.At(vault)]))
      && specs[3].payload(Addresses(owner, base, 3)) == Payload(Some(vault), Data("registerModule", [Word.At(market)]))
      && specs[4].payload(Addresses(owner, base, 4)) == Payload(Some(vault), Data("seal", []))
  {
    EarlyNames(owner, game, treasury, maker);
  }

  lemma EarlyNames(owner: Account, game: Address, treasury: Address, maker: Address)
    ensures PlanOk(EarlyPlan(owner, game, treasury, maker))
  {
    var specs := EarlyPlan(owner, game, treasury, maker).specs;
    assert |specs[0].name| == 20 && |specs[1].name| == 10 && |specs[2].name| == 8 && |specs[3].name| == 15 && |specs[4].name| == 10;
    assert specs[1].name[0] == 'R' && specs[4].name[0] == 's';
    forall i, j | 0 <= i < j < |specs| ensures specs[i].name != specs[j].name {
      assert i == 1 && j == 4 ==> specs[i].name[0] != specs[j].name[0];
    }
  }
}
