/** The deployment script as data: which operations it submits, in which order, and
    which earlier results each one uses. It is computed from the saved manifest alone. */
module DeployScript {
  import opened Options
  import opened Wire
  import opened Keys
  import opened Patching

  datatype Rating = Rating(player: string, mode: nat, elo: nat, played: nat, wins: nat, season: nat)

  datatype PairSeed = PairSeed(pair: string, count: nat)

  datatype Profile = Profile(handle: string, player: string)

  /** The exported migration source: its text, and what parsing it yields. */
  datatype Snapshot = Snapshot(text: string, genesis: nat, ratings: seq<Rating>, pairSeeds: seq<PairSeed>, profiles: seq<Profile>)

  /** What every run shares. `links` gives the libraries each contract links, dependencies first. */
  datatype Config = Config(
    prefix: string, owner: Account, hub: Address, pressure: Address, links: map<string, seq<string>>)

  /** The fields of the manifest that operations depend on. */
  datatype Manifest = Manifest(genesis: nat, source: Option<Snapshot>)

  datatype OpName =
    | DeployOp(instance: string)
    | BindRatings
    | SeedMode(mode: nat, at: nat)
    | SeedRepeat(at: nat)
    | SealMigration
    | RegisterArena(index: nat)
    | RegisterMarket
    | SealVault
    | ReserveProfiles(at: nat)
    | SealProfiles
    | SealLobby

  /** A constant, or the address that an earlier operation created. */
  datatype Ref = Here(word: Word) | Result(op: nat)

  datatype Template = Template(name: OpName, to: Option<nat>, head: string, args: seq<Ref>)

  /** The operations so far, and the `deployed` memo from instance to operation. */
  datatype Script = Script(ops: seq<Template>, at: map<string, nat>)

  /** The name an operation is journaled under, behind the prefix of the run. */
  function Label(op: OpName): string {
    match op
    case DeployOp(instance) => "deploy-" + Lower(instance)
    case BindRatings => "bind-ratings"
    case SeedMode(mode, at) => "seed-mode-" + Decimal(mode) + "-" + Decimal(at)
    case SeedRepeat(at) => "seed-repeat-" + Decimal(at)
    case SealMigration => "seal-verified-migration"
    case RegisterArena(index) => "register-arena-" + Decimal(index)
    case RegisterMarket => "register-market"
    case SealVault => "seal-vault"
    case ReserveProfiles(at) => "reserve-profiles-" + Decimal(at)
    case SealProfiles => "seal-profile-migration"
    case SealLobby => "seal-lobby"
  }

  /** The first letters that tell the kinds of operations apart. */
  function Kind(op: OpName): string {
    match op
    case DeployOp(_) => "d"
    case BindRatings => "b"
    case SeedMode(_, _) => "seed-m"
    case SeedRepeat(_) => "seed-r"
    case SealMigration => "seal-ve"
    case RegisterArena(_) => "register-a"
    case RegisterMarket => "register-m"
    case SealVault => "seal-va"
    case ReserveProfiles(_) => "res"
    case SealProfiles => "seal-p"
    case SealLobby => "seal-l"
  }

  lemma KindFirst(op: OpName)
    ensures Kind(op) <= Label(op)
  {
  }

  /** The letters at which the kinds part ways. */
  lemma SameLetters(s: string, t: string)
    requires s <= t && s != []
    ensures s[0] == t[0]
    ensures |s| >= 3 ==> s[2] == t[2]
    ensures |s| >= 6 ==> s[5] == t[5]
    ensures |s| >= 7 ==> s[6] == t[6]
    ensures |s| >= 10 ==> s[9] == t[9]
  {
  }

  lemma KindsDiffer(a: OpName, b: OpName)
    requires Kind(a) <= Kind(b)
    ensures Kind(a) == Kind(b)
  {
    SameLetters(Kind(a), Kind(b));
  }

  lemma SameKind(a: OpName, b: OpName)
    requires Label(a) == Label(b)
    ensures Kind(a) == Kind(b)
  {
    KindFirst(a);
    KindFirst(b);
    if |Kind(a)| <= |Kind(b)| {
      PrefixesNest(Kind(a), Kind(b), Label(a));
      KindsDiffer(a, b);
    } else {
      PrefixesNest(Kind(b), Kind(a), Label(a));
      KindsDiffer(b, a);
    }
  }

  lemma PrefixesNest(s: string, t: string, whole: string)
    requires s <= whole && t <= whole && |s| <= |t|
    ensures s <= t
  {
  }

  predicate SameUpToCase(a: OpName, b: OpName) {
    a == b || (a.DeployOp? && b.DeployOp? && Lower(a.instance) == Lower(b.instance))
  }

  /** Two operations are journaled under one name exactly when they are the same one, or create
      instances whose names differ in case only. */
  lemma LabelIff(a: OpName, b: OpName)
    ensures Label(a) == Label(b) <==> SameUpToCase(a, b)
  {
    if Label(a) == Label(b) {
      SameKind(a, b);
      KindIsConstructor(a, b);
      SameNumbers(a, b);
    }
  }

  lemma KindIsConstructor(a: OpName, b: OpName)
    requires Kind(a) == Kind(b)
    ensures a.DeployOp? == b.DeployOp? && a.SeedMode? == b.SeedMode? && a.SeedRepeat? == b.SeedRepeat?
    ensures a.RegisterArena? == b.RegisterArena? && a.ReserveProfiles? == b.ReserveProfiles?
    ensures !a.DeployOp? && !a.SeedMode? && !a.SeedRepeat? && !a.RegisterArena? && !a.ReserveProfiles? ==> a == b
  {
    SameLetters(Kind(a), Kind(b));
  }

  lemma SameNumbers(a: OpName, b: OpName)
    requires Label(a) == Label(b)
    requires a.DeployOp? == b.DeployOp? && a.SeedMode? == b.SeedMode? && a.SeedRepeat? == b.SeedRepeat?
    requires a.RegisterArena? == b.RegisterArena? && a.ReserveProfiles? == b.ReserveProfiles?
    requires !a.DeployOp? && !a.SeedMode? && !a.SeedRepeat? && !a.RegisterArena? && !a.ReserveProfiles? ==> a == b
    ensures SameUpToCase(a, b)
  {
    match a
    case DeployOp(instance) => SameHead("deploy-", Lower(instance), Lower(b.instance));
    case SeedMode(mode, at) =>
      SplitAtNumber("seed-mode-" + Decimal(mode), at, "seed-mode-" + Decimal(b.mode), b.at, '-');
      SameNumber("seed-mode-", mode, b.mode);
    case SeedRepeat(at) => SameNumber("seed-repeat-", at, b.at);
    case RegisterArena(index) => SameNumber("register-arena-", index, b.index);
    case ReserveProfiles(at) => SameNumber("reserve-profiles-", at, b.at);
    case _ =>
  }

  // ---- building the script

  function Write(s: Script, name: OpName, receiver: string, call: string, args: seq<Ref>): Script {
    s.(ops := s.ops + [Template(name, if receiver in s.at then Some(s.at[receiver]) else None, call, args)])
  }

  function Of(s: Script, instance: string): Ref {
    if instance in s.at then Result(s.at[instance]) else Here(Number(0))
  }

  function OfAll(s: Script, instances: seq<string>): seq<Ref> {
    seq(|instances|, i requires 0 <= i < |instances| => Of(s, instances[i]))
  }

  /** A constructor argument: the address of an instance, or a constant. */
  datatype Use = New(instance: string) | Const(word: Word)

  function Args(s: Script, uses: seq<Use>): seq<Ref> {
    seq(|uses|, i requires 0 <= i < |uses| => if uses[i].New? then Of(s, uses[i].instance) else Here(uses[i].word))
  }

  function LinksOf(cfg: Config, name: string): seq<string> {
    if name in cfg.links then cfg.links[name] else []
  }

  /** One creation: its code carries the addresses of the libraries it links. */
  function Create(cfg: Config, s: Script, name: string, instance: string, args: seq<Ref>): Script {
    if instance in s.at then s else
    Script(s.ops + [Template(DeployOp(instance), None, name, OfAll(s, LinksOf(cfg, name)) + args)],
           s.at[instance := |s.ops|])
  }

  function CreateAll(cfg: Config, s: Script, libs: seq<string>): Script
    decreases |libs|
  {
    if libs == [] then s else CreateAll(cfg, Create(cfg, s, libs[0], libs[0], []), libs[1..])
  }

  /** `deploy`: the memo answers first, then libraries, then the contract. */
  function Deploy(cfg: Config, s: Script, name: string, instance: string, uses: seq<Use>): Script {
    if instance in s.at then s else
    var l := CreateAll(cfg, s, LinksOf(cfg, name));
    Create(cfg, l, name, instance, Args(l, uses))
  }

  function Slice<T>(xs: seq<T>, i: nat, size: nat): seq<T> {
    if i >= |xs| then [] else if |xs| < i + size then xs[i..] else xs[i..i + size]
  }

  function Flatten(rows: seq<seq<Word>>): (refs: seq<Ref>)
    ensures forall r :: r in refs ==> r.Here?
  {
    if rows == [] then []
    else seq(|rows[0]|, i requires 0 <= i < |rows[0]| => Here(rows[0][i])) + Flatten(rows[1..])
  }

  function SeedArgs(chunk: seq<Rating>, mode: nat): (refs: seq<Ref>)
    ensures forall r :: r in refs ==> r.Here?
  {
    Flatten([[Number(mode)]] + seq(|chunk|, i requires 0 <= i < |chunk| =>
      [Text(chunk[i].player), Number(chunk[i].elo), Number(chunk[i].played), Number(chunk[i].wins), Number(chunk[i].season)]))
  }

  function PairArgs(chunk: seq<PairSeed>): (refs: seq<Ref>)
    ensures forall r :: r in refs ==> r.Here?
  {
    Flatten(seq(|chunk|, i requires 0 <= i < |chunk| => [Text(chunk[i].pair), Number(chunk[i].count)]))
  }

  function ProfileArgs(chunk: seq<Profile>): (refs: seq<Ref>)
    ensures forall r :: r in refs ==> r.Here?
  {
    Flatten(seq(|chunk|, i requires 0 <= i < |chunk| => [Text(chunk[i].handle), Text(chunk[i].player)]))
  }

  function OfMode(rows: seq<Rating>, mode: nat): seq<Rating> {
    if rows == [] then [] else (if rows[0].mode == mode then [rows[0]] else []) + OfMode(rows[1..], mode)
  }

  /** `for(let i=0;i<rows.length;i+=100)` over one mode's ratings. */
  function SeedLoop(s: Script, rows: seq<Rating>, mode: nat, i: nat): Script
    decreases |rows| - i
  {
    if i >= |rows| then s
    else SeedLoop(Write(s, SeedMode(mode, i), "PublishedRatings", "seed", SeedArgs(Slice(rows, i, 100), mode)), rows, mode, i + 100)
  }

  function RepeatLoop(s: Script, rows: seq<PairSeed>, i: nat): Script
    decreases |rows| - i
  {
    if i >= |rows| then s
    else RepeatLoop(Write(s, SeedRepeat(i), "PublishedRatings", "seedPairCounts", PairArgs(Slice(rows, i, 100))), rows, i + 100)
  }

  function ProfileLoop(s: Script, rows: seq<Profile>, i: nat): Script
    decreases |rows| - i
  {
    if i >= |rows| then s
    else ProfileLoop(Write(s, ReserveProfiles(i), "ProfileRegistry", "reserve", ProfileArgs(Slice(rows, i, 32))), rows, i + 32)
  }

  function ArenaName(i: nat): string {
    if i == 0 then "arena-0" else if i == 1 then "arena-1" else "arena-2"
  }

  function Arena(cfg: Config, s: Script, i: nat): Script {
    var d := Deploy(cfg, s, "IndependentArena", ArenaName(i), [Const(At(cfg.hub)), New("IndependentLobby"), Const(At(cfg.pressure))]);
    Write(d, RegisterArena(i), "IndependentLobby", "addArena", [Of(d, ArenaName(i))])
  }

  function SeedAll(s: Script, source: Option<Snapshot>): Script {
    match source
    case None => s
    case Some(snap) =>
      RepeatLoop(SeedLoop(SeedLoop(s, OfMode(snap.ratings, 0), 0, 0), OfMode(snap.ratings, 1), 1, 0), snap.pairSeeds, 0)
  }

  function Me(cfg: Config): Use {
    Const(Text(cfg.owner))
  }

  function Core(cfg: Config, m: Manifest): Script {
    var s1 := Deploy(cfg, Script([], map[]), "ArcadeFamily", "ArcadeFamily", []);
    var s2 := Deploy(cfg, s1, "IndependentLobby", "IndependentLobby",
                     [New("ArcadeFamily"), Const(At(cfg.hub)), Me(cfg), Const(At(cfg.pressure))]);
    var s3 := Deploy(cfg, s2, "PublishedRatings", "PublishedRatings",
                     [New("IndependentLobby"), Me(cfg), Const(Number(m.genesis))]);
    Write(s3, BindRatings, "IndependentLobby", "bindRatings", [Of(s3, "PublishedRatings")])
  }

  /** The migration hash: of the snapshot text, or of the prefix when there is none. */
  function MigrationHash(cfg: Config, source: Option<Snapshot>): Word {
    Digest(if source.Some? then source.value.text else cfg.prefix)
  }

  function Arenas(cfg: Config, seeded: Script, source: Option<Snapshot>): Script {
    var s := Write(seeded, SealMigration, "PublishedRatings", "sealMigration", [Here(MigrationHash(cfg, source))]);
    Arena(cfg, Arena(cfg, Arena(cfg, s, 0), 1), 2)
  }

  function Markets(cfg: Config, s: Script): Script {
    var s1 := Deploy(cfg, s, "IndependentSettlement", "IndependentSettlement", [New("IndependentLobby")]);
    var s2 := Deploy(cfg, s1, "RoomsVault", "RoomsVault", [Me(cfg)]);
    var s3 := Deploy(cfg, s2, "LMSRV2", "LMSRV2", []);
    var s4 := Deploy(cfg, s3, "MarketV4", "MarketV4",
                     [Me(cfg), Me(cfg), New("IndependentSettlement"), New("LMSRV2"), New("RoomsVault")]);
    var s5 := Write(s4, RegisterMarket, "RoomsVault", "registerModule", [Of(s4, "MarketV4")]);
    Write(s5, SealVault, "RoomsVault", "seal", [])
  }

  function Closing(cfg: Config, s: Script, source: Option<Snapshot>): Script {
    var s1 := Deploy(cfg, s, "ProfileRegistry", "ProfileRegistry", [Me(cfg)]);
    var s2 := if source.Some? then ProfileLoop(s1, source.value.profiles, 0) else s1;
    var s3 := Write(s2, SealProfiles, "ProfileRegistry", "seal", []);
    var s4 := Deploy(cfg, s3, "PrivateDataStore", "PrivateDataStore", []);
    Write(s4, SealLobby, "IndependentLobby", "seal", [])
  }

  /** The whole run, in source order. */
  function PlanScript(cfg: Config, m: Manifest): Script {
    Closing(cfg, Markets(cfg, Arenas(cfg, SeedAll(Core(cfg, m), m.source), m.source)), m.source)
  }

  function Plan(cfg: Config, m: Manifest): seq<Template> { PlanScript(cfg, m).ops }

  // ---- names never repeat, and an operation uses only earlier results

  /** The place of a write in the script. Creations are told apart by their instance instead. */
  function Rank(op: OpName): nat {
    match op
    case DeployOp(_) => 0
    case BindRatings => 1
    case SeedMode(mode, _) => if mode == 0 then 2 else 3
    case SeedRepeat(_) => 4
    case SealMigration => 5
    case RegisterArena(index) => 6 + index
    case RegisterMarket => 9
    case SealVault => 10
    case ReserveProfiles(_) => 11
    case SealProfiles => 12
    case SealLobby => 13
  }

  /** Where a write of a chunked loop starts; the other writes stand once in the script. */
  function Place(op: OpName): nat {
    match op
    case SeedMode(_, at) => at
    case SeedRepeat(at) => at
    case ReserveProfiles(at) => at
    case _ => 0
  }

  /** The op comes before everything of rank `stage` that starts at `place` or later. */
  predicate Earlier(op: OpName, stage: nat, place: nat) {
    Rank(op) < stage || (Rank(op) == stage && Place(op) < place)
  }

  ghost predicate RefsBelow(t: Template, n: nat) {
    && (t.to.Some? ==> t.to.value < n)
    && forall r :: r in t.args && r.Result? ==> r.op < n
  }

  ghost predicate DistinctNames(ops: seq<Template>) {
    forall i, j :: 0 <= i < j < |ops| ==> ops[i].name != ops[j].name
  }

  ghost predicate RefsBack(ops: seq<Template>) {
    forall i :: 0 <= i < |ops| ==> RefsBelow(ops[i], i)
  }

  /** The writes come in the order of their places. */
  ghost predicate InOrder(ops: seq<Template>) {
    forall i, j :: 0 <= i < j < |ops| && !ops[i].name.DeployOp? && !ops[j].name.DeployOp? ==>
      Earlier(ops[i].name, Rank(ops[j].name), Place(ops[j].name))
  }

  /** The script so far is sound, and all its writes come before `(stage, place)`. */
  ghost predicate Sound(s: Script, stage: nat, place: nat) {
    && DistinctNames(s.ops) && RefsBack(s.ops) && InOrder(s.ops)
    && (forall i :: 0 <= i < |s.ops| ==>
          if s.ops[i].name.DeployOp? then s.ops[i].name.instance in s.at else Earlier(s.ops[i].name, stage, place))
    && (forall x :: x in s.at ==> s.at[x] < |s.ops|)
  }

  lemma WriteSound(s: Script, name: OpName, receiver: string, call: string, args: seq<Ref>, stage: nat, place: nat)
    requires Sound(s, stage, place) && !name.DeployOp? && Rank(name) >= 1
    requires Rank(name) > stage || (Rank(name) == stage && Place(name) >= place)
    requires forall r :: r in args && r.Result? ==> r.op < |s.ops|
    ensures Sound(Write(s, name, receiver, call, args), Rank(name), Place(name) + 1)
  {
  }

  lemma CreateSound(cfg: Config, s: Script, name: string, instance: string, args: seq<Ref>, stage: nat, place: nat)
    requires Sound(s, stage, place)
    requires forall r :: r in args && r.Result? ==> r.op < |s.ops|
    ensures Sound(Create(cfg, s, name, instance, args), stage, place)
  {
    if instance !in s.at {
      var t := Template(DeployOp(instance), None, name, OfAll(s, LinksOf(cfg, name)) + args);
      assert RefsBelow(t, |s.ops|);
    }
  }

  lemma {:induction false} CreateAllSound(cfg: Config, s: Script, libs: seq<string>, stage: nat, place: nat)
    requires Sound(s, stage, place)
    ensures Sound(CreateAll(cfg, s, libs), stage, place)
    decreases |libs|
  {
    if libs != [] {
      CreateSound(cfg, s, libs[0], libs[0], [], stage, place);
      CreateAllSound(cfg, Create(cfg, s, libs[0], libs[0], []), libs[1..], stage, place);
    }
  }

  lemma DeploySound(cfg: Config, s: Script, name: string, instance: string, uses: seq<Use>, stage: nat, place: nat)
    requires Sound(s, stage, place)
    ensures Sound(Deploy(cfg, s, name, instance, uses), stage, place)
  {
    if instance !in s.at {
      CreateAllSound(cfg, s, LinksOf(cfg, name), stage, place);
      CreateSound(cfg, CreateAll(cfg, s, LinksOf(cfg, name)), name, instance,
                  Args(CreateAll(cfg, s, LinksOf(cfg, name)), uses), stage, place);
    }
  }

  lemma Later(s: Script, stage: nat, place: nat, stage': nat, place': nat)
    requires Sound(s, stage, place) && (stage < stage' || (stage == stage' && place <= place'))
    ensures Sound(s, stage', place')
  {
  }

  lemma {:induction false} SeedLoopSound(s: Script, rows: seq<Rating>, mode: nat, i: nat)
    requires mode < 2 && Sound(s, 2 + mode, i)
    ensures Sound(SeedLoop(s, rows, mode, i), 3 + mode, 0)
    decreases |rows| - i
  {
    if i >= |rows| {
      Later(s, 2 + mode, i, 3 + mode, 0);
    } else {
      var t := Write(s, SeedMode(mode, i), "PublishedRatings", "seed", SeedArgs(Slice(rows, i, 100), mode));
      WriteSound(s, SeedMode(mode, i), "PublishedRatings", "seed", SeedArgs(Slice(rows, i, 100), mode), 2 + mode, i);
      Later(t, 2 + mode, i + 1, 2 + mode, i + 100);
      SeedLoopSound(t, rows, mode, i + 100);
    }
  }

  lemma {:induction false} RepeatLoopSound(s: Script, rows: seq<PairSeed>, i: nat)
    requires Sound(s, 4, i)
    ensures Sound(RepeatLoop(s, rows, i), 5, 0)
    decreases |rows| - i
  {
    if i >= |rows| {
      Later(s, 4, i, 5, 0);
    } else {
      var t := Write(s, SeedRepeat(i), "PublishedRatings", "seedPairCounts", PairArgs(Slice(rows, i, 100)));
      WriteSound(s, SeedRepeat(i), "PublishedRatings", "seedPairCounts", PairArgs(Slice(rows, i, 100)), 4, i);
      Later(t, 4, i + 1, 4, i + 100);
      RepeatLoopSound(t, rows, i + 100);
    }
  }

  lemma {:induction false} ProfileLoopSound(s: Script, rows: seq<Profile>, i: nat)
    requires Sound(s, 11, i)
    ensures Sound(ProfileLoop(s, rows, i), 12, 0)
    decreases |rows| - i
  {
    if i >= |rows| {
      Later(s, 11, i, 12, 0);
    } else {
      var t := Write(s, ReserveProfiles(i), "ProfileRegistry", "reserve", ProfileArgs(Slice(rows, i, 32)));
      WriteSound(s, ReserveProfiles(i), "ProfileRegistry", "reserve", ProfileArgs(Slice(rows, i, 32)), 11, i);
      Later(t, 11, i + 1, 11, i + 32);
      ProfileLoopSound(t, rows, i + 32);
    }
  }

  lemma CoreSound(cfg: Config, m: Manifest)
    ensures Sound(Core(cfg, m), 2, 0)
  {
    var s1 := Deploy(cfg, Script([], map[]), "ArcadeFamily", "ArcadeFamily", []);
    DeploySound(cfg, Script([], map[]), "ArcadeFamily", "ArcadeFamily", [], 0, 0);
    var u2 := [New("ArcadeFamily"), Const(At(cfg.hub)), Me(cfg), Const(At(cfg.pressure))];
    var s2 := Deploy(cfg, s1, "IndependentLobby", "IndependentLobby", u2);
    DeploySound(cfg, s1, "IndependentLobby", "IndependentLobby", u2, 0, 0);
    var u3 := [New("IndependentLobby"), Me(cfg), Const(Number(m.genesis))];
    var s3 := Deploy(cfg, s2, "PublishedRatings", "PublishedRatings", u3);
    DeploySound(cfg, s2, "PublishedRatings", "PublishedRatings", u3, 0, 0);
    WriteSound(s3, BindRatings, "IndependentLobby", "bindRatings", [Of(s3, "PublishedRatings")], 0, 0);
    Later(Core(cfg, m), 1, 1, 2, 0);
  }

  lemma SeedAllSound(s: Script, source: Option<Snapshot>)
    requires Sound(s, 2, 0)
    ensures Sound(SeedAll(s, source), 5, 0)
  {
    match source
    case None => Later(s, 2, 0, 5, 0);
    case Some(snap) =>
      var rows0, rows1 := OfMode(snap.ratings, 0), OfMode(snap.ratings, 1);
      SeedLoopSound(s, rows0, 0, 0);
      SeedLoopSound(SeedLoop(s, rows0, 0, 0), rows1, 1, 0);
      RepeatLoopSound(SeedLoop(SeedLoop(s, rows0, 0, 0), rows1, 1, 0), snap.pairSeeds, 0);
  }

  lemma ArenaSound(cfg: Config, s: Script, i: nat)
    requires i < 3 && Sound(s, 6 + i, 0)
    ensures Sound(Arena(cfg, s, i), 7 + i, 0)
  {
    var uses := [Const(At(cfg.hub)), New("IndependentLobby"), Const(At(cfg.pressure))];
    DeploySound(cfg, s, "IndependentArena", ArenaName(i), uses, 6 + i, 0);
    var d := Deploy(cfg, s, "IndependentArena", ArenaName(i), uses);
    WriteSound(d, RegisterArena(i), "IndependentLobby", "addArena", [Of(d, ArenaName(i))], 6 + i, 0);
    Later(Arena(cfg, s, i), 6 + i, 1, 7 + i, 0);
  }

  lemma ArenasSound(cfg: Config, seeded: Script, source: Option<Snapshot>)
    requires Sound(seeded, 5, 0)
    ensures Sound(Arenas(cfg, seeded, source), 9, 0)
  {
    var args := [Here(MigrationHash(cfg, source))];
    WriteSound(seeded, SealMigration, "PublishedRatings", "sealMigration", args, 5, 0);
    var s := Write(seeded, SealMigration, "PublishedRatings", "sealMigration", args);
    Later(s, 5, 1, 6, 0);
    ArenaSound(cfg, s, 0);
    ArenaSound(cfg, Arena(cfg, s, 0), 1);
    ArenaSound(cfg, Arena(cfg, Arena(cfg, s, 0), 1), 2);
  }

  lemma MarketsSound(cfg: Config, s: Script)
    requires Sound(s, 9, 0)
    ensures Sound(Markets(cfg, s), 11, 0)
  {
    var s1 := Deploy(cfg, s, "IndependentSettlement", "IndependentSettlement", [New("IndependentLobby")]);
    DeploySound(cfg, s, "IndependentSettlement", "IndependentSettlement", [New("IndependentLobby")], 9, 0);
    var s2 := Deploy(cfg, s1, "RoomsVault", "RoomsVault", [Me(cfg)]);
    DeploySound(cfg, s1, "RoomsVault", "RoomsVault", [Me(cfg)], 9, 0);
    var s3 := Deploy(cfg, s2, "LMSRV2", "LMSRV2", []);
    DeploySound(cfg, s2, "LMSRV2", "LMSRV2", [], 9, 0);
    var uses := [Me(cfg), Me(cfg), New("IndependentSettlement"), New("LMSRV2"), New("RoomsVault")];
    var s4 := Deploy(cfg, s3, "MarketV4", "MarketV4", uses);
    DeploySound(cfg, s3, "MarketV4", "MarketV4", uses, 9, 0);
    var s5 := Write(s4, RegisterMarket, "RoomsVault", "registerModule", [Of(s4, "MarketV4")]);
    WriteSound(s4, RegisterMarket, "RoomsVault", "registerModule", [Of(s4, "MarketV4")], 9, 0);
    WriteSound(s5, SealVault, "RoomsVault", "seal", [], 9, 1);
    Later(Markets(cfg, s), 10, 1, 11, 0);
  }

  lemma ClosingSound(cfg: Config, s: Script, source: Option<Snapshot>)
    requires Sound(s, 11, 0)
    ensures Sound(Closing(cfg, s, source), 13, 1)
  {
    var s1 := Deploy(cfg, s, "ProfileRegistry", "ProfileRegistry", [Me(cfg)]);
    DeploySound(cfg, s, "ProfileRegistry", "ProfileRegistry", [Me(cfg)], 11, 0);
    var s2 := if source.Some? then ProfileLoop(s1, source.value.profiles, 0) else s1;
    if source.Some? { ProfileLoopSound(s1, source.value.profiles, 0); } else { Later(s1, 11, 0, 12, 0); }
    var s3 := Write(s2, SealProfiles, "ProfileRegistry", "seal", []);
    WriteSound(s2, SealProfiles, "ProfileRegistry", "seal", [], 12, 0);
    var s4 := Deploy(cfg, s3, "PrivateDataStore", "PrivateDataStore", []);
    DeploySound(cfg, s3, "PrivateDataStore", "PrivateDataStore", [], 12, 1);
    WriteSound(s4, SealLobby, "IndependentLobby", "seal", [], 12, 1);
  }

  lemma PlanScriptSound(cfg: Config, m: Manifest)
    ensures Sound(PlanScript(cfg, m), 13, 1)
  {
    CoreSound(cfg, m);
    SeedAllSound(Core(cfg, m), m.source);
    var seeded := SeedAll(Core(cfg, m), m.source);
    ArenasSound(cfg, seeded, m.source);
    MarketsSound(cfg, Arenas(cfg, seeded, m.source));
    ClosingSound(cfg, Markets(cfg, Arenas(cfg, seeded, m.source)), m.source);
  }

  /** The script is sound for every manifest: no operation comes twice, and arguments refer to
      earlier results only. */
  lemma PlanSound(cfg: Config, m: Manifest)
    ensures DistinctNames(Plan(cfg, m)) && RefsBack(Plan(cfg, m))
  {
    PlanScriptSound(cfg, m);
  }

  // ---- which instances there can be

  const OWN_INSTANCES := {
    "ArcadeFamily", "IndependentLobby", "PublishedRatings", "arena-0", "arena-1", "arena-2", "IndependentSettlement",
    "RoomsVault", "LMSRV2", "MarketV4", "ProfileRegistry", "PrivateDataStore"}

  /** One of the script's own contracts, or a library that some contract links. */
  ghost predicate CanCreate(cfg: Config, instance: string) {
    instance in OWN_INSTANCES || exists name :: name in cfg.links && instance in cfg.links[name]
  }

  ghost predicate OnlyKnown(cfg: Config, s: Script) {
    forall x :: x in s.at ==> CanCreate(cfg, x)
  }

  lemma {:induction false} CreateAllKnown(cfg: Config, s: Script, libs: seq<string>)
    requires OnlyKnown(cfg, s) && forall lib :: lib in libs ==> CanCreate(cfg, lib)
    ensures OnlyKnown(cfg, CreateAll(cfg, s, libs))
    decreases |libs|
  {
    if libs != [] { CreateAllKnown(cfg, Create(cfg, s, libs[0], libs[0], []), libs[1..]); }
  }

  lemma DeployKnown(cfg: Config, s: Script, name: string, instance: string, uses: seq<Use>)
    requires OnlyKnown(cfg, s) && instance in OWN_INSTANCES
    ensures OnlyKnown(cfg, Deploy(cfg, s, name, instance, uses))
  {
    CreateAllKnown(cfg, s, LinksOf(cfg, name));
  }

  lemma {:induction false} SeedLoopKnown(s: Script, rows: seq<Rating>, mode: nat, i: nat)
    ensures SeedLoop(s, rows, mode, i).at == s.at
    decreases |rows| - i
  {
    if i < |rows| {
      var t := Write(s, SeedMode(mode, i), "PublishedRatings", "seed", SeedArgs(Slice(rows, i, 100), mode));
      SeedLoopKnown(t, rows, mode, i + 100);
    }
  }

  lemma {:induction false} RepeatLoopKnown(s: Script, rows: seq<PairSeed>, i: nat)
    ensures RepeatLoop(s, rows, i).at == s.at
    decreases |rows| - i
  {
    if i < |rows| {
      RepeatLoopKnown(Write(s, SeedRepeat(i), "PublishedRatings", "seedPairCounts", PairArgs(Slice(rows, i, 100))), rows, i + 100);
    }
  }

  lemma {:induction false} ProfileLoopKnown(s: Script, rows: seq<Profile>, i: nat)
    ensures ProfileLoop(s, rows, i).at == s.at
    decreases |rows| - i
  {
    if i < |rows| {
      ProfileLoopKnown(Write(s, ReserveProfiles(i), "ProfileRegistry", "reserve", ProfileArgs(Slice(rows, i, 32))), rows, i + 32);
    }
  }

  lemma CoreKnown(cfg: Config, m: Manifest)
    ensures OnlyKnown(cfg, Core(cfg, m))
  {
    var s1 := Deploy(cfg, Script([], map[]), "ArcadeFamily", "ArcadeFamily", []);
    DeployKnown(cfg, Script([], map[]), "ArcadeFamily", "ArcadeFamily", []);
    var u2 := [New("ArcadeFamily"), Const(At(cfg.hub)), Me(cfg), Const(At(cfg.pressure))];
    DeployKnown(cfg, s1, "IndependentLobby", "IndependentLobby", u2);
    var s2 := Deploy(cfg, s1, "IndependentLobby", "IndependentLobby", u2);
    DeployKnown(cfg, s2, "PublishedRatings", "PublishedRatings", [New("IndependentLobby"), Me(cfg), Const(Number(m.genesis))]);
  }

  lemma SeedAllKnown(s: Script, source: Option<Snapshot>)
    ensures SeedAll(s, source).at == s.at
  {
    if source.Some? {
      var snap := source.value;
      var s0 := SeedLoop(s, OfMode(snap.ratings, 0), 0, 0);
      SeedLoopKnown(s, OfMode(snap.ratings, 0), 0, 0);
      SeedLoopKnown(s0, OfMode(snap.ratings, 1), 1, 0);
      RepeatLoopKnown(SeedLoop(s0, OfMode(snap.ratings, 1), 1, 0), snap.pairSeeds, 0);
    }
  }

  lemma ArenaKnown(cfg: Config, s: Script, i: nat)
    requires OnlyKnown(cfg, s)
    ensures OnlyKnown(cfg, Arena(cfg, s, i))
  {
    DeployKnown(cfg, s, "IndependentArena", ArenaName(i), [Const(At(cfg.hub)), New("IndependentLobby"), Const(At(cfg.pressure))]);
  }

  lemma ArenasKnown(cfg: Config, seeded: Script, source: Option<Snapshot>)
    requires OnlyKnown(cfg, seeded)
    ensures OnlyKnown(cfg, Arenas(cfg, seeded, source))
  {
    var s := Write(seeded, SealMigration, "PublishedRatings", "sealMigration", [Here(MigrationHash(cfg, source))]);
    ArenaKnown(cfg, s, 0);
    ArenaKnown(cfg, Arena(cfg, s, 0), 1);
    ArenaKnown(cfg, Arena(cfg, Arena(cfg, s, 0), 1), 2);
  }

  lemma MarketsKnown(cfg: Config, s: Script)
    requires OnlyKnown(cfg, s)
    ensures OnlyKnown(cfg, Markets(cfg, s))
  {
    var s1 := Deploy(cfg, s, "IndependentSettlement", "IndependentSettlement", [New("IndependentLobby")]);
    DeployKnown(cfg, s, "IndependentSettlement", "IndependentSettlement", [New("IndependentLobby")]);
    var s2 := Deploy(cfg, s1, "RoomsVault", "RoomsVault", [Me(cfg)]);
    DeployKnown(cfg, s1, "RoomsVault", "RoomsVault", [Me(cfg)]);
    var s3 := Deploy(cfg, s2, "LMSRV2", "LMSRV2", []);
    DeployKnown(cfg, s2, "LMSRV2", "LMSRV2", []);
    DeployKnown(cfg, s3, "MarketV4", "MarketV4",
                [Me(cfg), Me(cfg), New("IndependentSettlement"), New("LMSRV2"), New("RoomsVault")]);
  }

  lemma ClosingKnown(cfg: Config, s: Script, source: Option<Snapshot>)
    requires OnlyKnown(cfg, s)
    ensures OnlyKnown(cfg, Closing(cfg, s, source))
  {
    var s1 := Deploy(cfg, s, "ProfileRegistry", "ProfileRegistry", [Me(cfg)]);
    DeployKnown(cfg, s, "ProfileRegistry", "ProfileRegistry", [Me(cfg)]);
    if source.Some? { ProfileLoopKnown(s1, source.value.profiles, 0); }
    var s2 := if source.Some? then ProfileLoop(s1, source.value.profiles, 0) else s1;
    DeployKnown(cfg, Write(s2, SealProfiles, "ProfileRegistry", "seal", []), "PrivateDataStore", "PrivateDataStore", []);
  }

  /** Instances whose names differ in case only would share a journal key; here there are none. */
  ghost predicate CaseApart(cfg: Config) {
    forall a, b :: CanCreate(cfg, a) && CanCreate(cfg, b) && Lower(a) == Lower(b) ==> a == b
  }

  ghost predicate DistinctLabels(ops: seq<Template>) {
    forall i, j :: 0 <= i < j < |ops| ==> Label(ops[i].name) != Label(ops[j].name)
  }

  /** Every operation of the script has a journal name of its own, for every manifest. */
  lemma PlanLabelsDiffer(cfg: Config, m: Manifest)
    requires CaseApart(cfg)
    ensures DistinctLabels(Plan(cfg, m))
  {
    var s := PlanScript(cfg, m);
    PlanScriptSound(cfg, m);
    PlanScriptKnown(cfg, m);
    forall i, j | 0 <= i < j < |s.ops| ensures Label(s.ops[i].name) != Label(s.ops[j].name) {
      LabelIff(s.ops[i].name, s.ops[j].name);
    }
  }

  lemma PlanScriptKnown(cfg: Config, m: Manifest)
    ensures OnlyKnown(cfg, PlanScript(cfg, m))
  {
    CoreKnown(cfg, m);
    SeedAllKnown(Core(cfg, m), m.source);
    var seeded := SeedAll(Core(cfg, m), m.source);
    ArenasKnown(cfg, seeded, m.source);
    MarketsKnown(cfg, Arenas(cfg, seeded, m.source));
    ClosingKnown(cfg, Markets(cfg, Arenas(cfg, seeded, m.source)), m.source);
  }
}
