/** What the operations of the deployment script mean, name by name: which contract each one
    calls or creates, and which earlier creations its arguments are. */
module DeployMeaning {
  import opened Options
  import opened Wire
  import opened DeployScript

  // ---- the contracts and calls, in the words of the source

  /** The contract a write goes to. */
  function Receiver(op: OpName): string {
    match op
    case SeedMode(_, _) => "PublishedRatings"
    case SeedRepeat(_) => "PublishedRatings"
    case SealMigration => "PublishedRatings"
    case RegisterMarket => "RoomsVault"
    case SealVault => "RoomsVault"
    case ReserveProfiles(_) => "ProfileRegistry"
    case SealProfiles => "ProfileRegistry"
    case _ => "IndependentLobby"
  }

  function Method(op: OpName): string {
    match op
    case BindRatings => "bindRatings"
    case SeedMode(_, _) => "seed"
    case SeedRepeat(_) => "seedPairCounts"
    case SealMigration => "sealMigration"
    case RegisterArena(_) => "addArena"
    case RegisterMarket => "registerModule"
    case ReserveProfiles(_) => "reserve"
    case _ => "seal"
  }

  predicate CarriesRows(op: OpName) { op.SeedMode? || op.SeedRepeat? || op.ReserveProfiles? }

  /** What a write passes, if that is not migrated rows. */
  function Passed(cfg: Config, m: Manifest, op: OpName): seq<Use> {
    match op
    case BindRatings => [New("PublishedRatings")]
    case SealMigration => [Const(Digest(if m.source.Some? then m.source.value.text else cfg.prefix))]
    case RegisterArena(i) => [New(if i == 0 then "arena-0" else if i == 1 then "arena-1" else "arena-2")]
    case RegisterMarket => [New("MarketV4")]
    case _ => []
  }

  function Contract(instance: string): string {
    if instance == "arena-0" || instance == "arena-1" || instance == "arena-2" then "IndependentArena" else instance
  }

  /** What the constructor of an instance gets. */
  function Built(cfg: Config, m: Manifest, instance: string): seq<Use> {
    var owner := Const(Text(cfg.owner));
    if instance == "IndependentLobby" then [New("ArcadeFamily"), Const(At(cfg.hub)), owner, Const(At(cfg.pressure))]
    else if instance == "PublishedRatings" then [New("IndependentLobby"), owner, Const(Number(m.genesis))]
    else if Contract(instance) == "IndependentArena" && instance != "IndependentArena" then
      [Const(At(cfg.hub)), New("IndependentLobby"), Const(At(cfg.pressure))]
    else if instance == "IndependentSettlement" then [New("IndependentLobby")]
    else if instance == "RoomsVault" || instance == "ProfileRegistry" then [owner]
    else if instance == "MarketV4" then
      [owner, owner, New("IndependentSettlement"), New("LMSRV2"), New("RoomsVault")]
    else []
  }

  function AsNew(instances: seq<string>): seq<Use> {
    seq(|instances|, i requires 0 <= i < |instances| => New(instances[i]))
  }

  // ---- the operations mean that

  ghost predicate Is(ops: seq<Template>, ref: Ref, use: Use) {
    match use
    case New(instance) => ref.Result? && ref.op < |ops| && ops[ref.op].name == DeployOp(instance)
    case Const(word) => ref == Here(word)
  }

  ghost predicate Are(ops: seq<Template>, refs: seq<Ref>, uses: seq<Use>) {
    |refs| == |uses| && forall i :: 0 <= i < |refs| ==> Is(ops, refs[i], uses[i])
  }

  /** A creation carries its libraries and gets its constructor's arguments; a write goes to its
      contract, calls its method and passes what it should. */
  ghost predicate Meant(cfg: Config, m: Manifest, ops: seq<Template>, t: Template) {
    match t.name
    case DeployOp(instance) =>
      t.to.None? && t.head == Contract(instance)
      && Are(ops, t.args, AsNew(LinksOf(cfg, Contract(instance))) + Built(cfg, m, instance))
    case op =>
      t.to.Some? && Is(ops, Result(t.to.value), New(Receiver(op))) && t.head == Method(op)
      && (!CarriesRows(op) ==> Are(ops, t.args, Passed(cfg, m, op)))
  }

  /** No library bears the name of one of the script's own instances, and lists have dependencies first. */
  ghost predicate LinksOk(cfg: Config) {
    forall name, i :: name in cfg.links && 0 <= i < |cfg.links[name]| ==>
      && cfg.links[name][i] !in OWN_INSTANCES
      && forall lib :: lib in LinksOf(cfg, cfg.links[name][i]) ==> lib in cfg.links[name][..i]
  }

  /** The writes that carry no rows, in order. */
  function Calls(ops: seq<Template>): seq<OpName> {
    if ops == [] then [] else
    var op := ops[|ops| - 1].name;
    Calls(ops[..|ops| - 1]) + (if op.DeployOp? || CarriesRows(op) then [] else [op])
  }

  ghost predicate Placed(cfg: Config, m: Manifest, s: Script, calls: seq<OpName>) {
    && Calls(s.ops) == calls
    && (forall x :: x in s.at ==> s.at[x] < |s.ops| && s.ops[s.at[x]].name == DeployOp(x))
    && (forall j :: 0 <= j < |s.ops| ==> Meant(cfg, m, s.ops, s.ops[j]))
  }

  lemma MeantStays(cfg: Config, m: Manifest, ops: seq<Template>, more: seq<Template>, t: Template)
    requires Meant(cfg, m, ops, t) && ops <= more
    ensures Meant(cfg, m, more, t)
  {
  }

  lemma AddPlaced(cfg: Config, m: Manifest, s: Script, calls: seq<OpName>, t: Template, at: map<string, nat>)
    requires Placed(cfg, m, s, calls) && Meant(cfg, m, s.ops, t)
    requires at == if t.name.DeployOp? then s.at[t.name.instance := |s.ops|] else s.at
    ensures Placed(cfg, m, Script(s.ops + [t], at),
                   if t.name.DeployOp? || CarriesRows(t.name) then calls else calls + [t.name])
  {
    var more := s.ops + [t];
    assert more[..|more| - 1] == s.ops;
    forall j | 0 <= j < |more| ensures Meant(cfg, m, more, more[j]) {
      MeantStays(cfg, m, s.ops, more, if j < |s.ops| then s.ops[j] else t);
    }
  }

  lemma WritePlaced(cfg: Config, m: Manifest, s: Script, calls: seq<OpName>, op: OpName, args: seq<Ref>)
    requires Placed(cfg, m, s, calls) && !op.DeployOp? && Receiver(op) in s.at
    requires !CarriesRows(op) ==> Are(s.ops, args, Passed(cfg, m, op))
    ensures Placed(cfg, m, Write(s, op, Receiver(op), Method(op), args), if CarriesRows(op) then calls else calls + [op])
    ensures Write(s, op, Receiver(op), Method(op), args).at == s.at
  {
    AddPlaced(cfg, m, s, calls, Template(op, Some(s.at[Receiver(op)]), Method(op), args), s.at);
  }

  lemma UsesAre(cfg: Config, m: Manifest, s: Script, calls: seq<OpName>, uses: seq<Use>)
    requires Placed(cfg, m, s, calls) && forall i :: 0 <= i < |uses| && uses[i].New? ==> uses[i].instance in s.at
    ensures Are(s.ops, Args(s, uses), uses)
  {
  }

  /** A creation of what is not out yet, with its libraries out. */
  lemma CreatePlaced(cfg: Config, m: Manifest, s: Script, calls: seq<OpName>, instance: string, uses: seq<Use>)
    requires Placed(cfg, m, s, calls) && uses == Built(cfg, m, instance)
    requires forall lib :: lib in LinksOf(cfg, Contract(instance)) ==> lib in s.at
    requires forall i :: 0 <= i < |uses| && uses[i].New? ==> uses[i].instance in s.at
    ensures var t := Create(cfg, s, Contract(instance), instance, Args(s, uses));
      Placed(cfg, m, t, calls) && t.at.Keys == s.at.Keys + {instance}
  {
    if instance !in s.at {
      var libs := AsNew(LinksOf(cfg, Contract(instance)));
      UsesAre(cfg, m, s, calls, uses);
      UsesAre(cfg, m, s, calls, libs);
      assert Args(s, libs) == OfAll(s, LinksOf(cfg, Contract(instance)));
      AddPlaced(cfg, m, s, calls, Template(DeployOp(instance), None, Contract(instance), Args(s, libs) + Args(s, uses)),
                s.at[instance := |s.ops|]);
    }
  }

  /** Libraries are no own instances, so their constructors get nothing. */
  lemma LibraryBuilt(cfg: Config, m: Manifest, lib: string)
    requires lib !in OWN_INSTANCES
    ensures Built(cfg, m, lib) == [] && Contract(lib) == lib
  {
  }

  lemma {:induction false} CreateAllPlaced(cfg: Config, m: Manifest, s: Script, calls: seq<OpName>, name: string, i: nat)
    requires LinksOk(cfg) && Placed(cfg, m, s, calls) && i <= |LinksOf(cfg, name)|
    requires forall lib :: lib in LinksOf(cfg, name)[..i] ==> lib in s.at
    ensures var t := CreateAll(cfg, s, LinksOf(cfg, name)[i..]);
      Placed(cfg, m, t, calls) && s.at.Keys <= t.at.Keys && forall lib :: lib in LinksOf(cfg, name) ==> lib in t.at
    decreases |LinksOf(cfg, name)| - i
  {
    var links := LinksOf(cfg, name);
    if i < |links| {
      assert links[i..][1..] == links[i + 1..];
      LibraryBuilt(cfg, m, links[i]);
      assert Args(s, []) == [];
      CreatePlaced(cfg, m, s, calls, links[i], []);
      CreateAllPlaced(cfg, m, Create(cfg, s, links[i], links[i], []), calls, name, i + 1);
    } else {
      assert links[..i] == links;
    }
  }

  lemma DeployPlaced(cfg: Config, m: Manifest, s: Script, calls: seq<OpName>, instance: string, uses: seq<Use>)
    requires LinksOk(cfg) && Placed(cfg, m, s, calls) && uses == Built(cfg, m, instance)
    requires forall i :: 0 <= i < |uses| && uses[i].New? ==> uses[i].instance in s.at
    ensures var t := Deploy(cfg, s, Contract(instance), instance, uses);
      Placed(cfg, m, t, calls) && s.at.Keys <= t.at.Keys && instance in t.at
  {
    if instance !in s.at {
      var name := Contract(instance);
      CreateAllPlaced(cfg, m, s, calls, name, 0);
      CreatePlaced(cfg, m, CreateAll(cfg, s, LinksOf(cfg, name)), calls, instance, uses);
    }
  }

  // ---- its operations, one by one

  lemma FamilyPlaced(cfg: Config, m: Manifest, s: Script, calls: seq<OpName>)
    requires LinksOk(cfg) && Placed(cfg, m, s, calls)
    ensures var t := Deploy(cfg, s, "ArcadeFamily", "ArcadeFamily", []);
      Placed(cfg, m, t, calls) && s.at.Keys <= t.at.Keys && "ArcadeFamily" in t.at
  {
    DeployPlaced(cfg, m, s, calls, "ArcadeFamily", []);
  }

  lemma LobbyPlaced(cfg: Config, m: Manifest, s: Script, calls: seq<OpName>)
    requires LinksOk(cfg) && Placed(cfg, m, s, calls) && "ArcadeFamily" in s.at
    ensures var t := Deploy(cfg, s, "IndependentLobby", "IndependentLobby", [New("ArcadeFamily"), Const(At(cfg.hub)), Me(cfg), Const(At(cfg.pressure))]);
      Placed(cfg, m, t, calls) && s.at.Keys <= t.at.Keys && "IndependentLobby" in t.at
  {
    DeployPlaced(cfg, m, s, calls, "IndependentLobby", [New("ArcadeFamily"), Const(At(cfg.hub)), Me(cfg), Const(At(cfg.pressure))]);
  }

  lemma RatingsPlaced(cfg: Config, m: Manifest, s: Script, calls: seq<OpName>)
    requires LinksOk(cfg) && Placed(cfg, m, s, calls) && "IndependentLobby" in s.at
    ensures var t := Deploy(cfg, s, "PublishedRatings", "PublishedRatings", [New("IndependentLobby"), Me(cfg), Const(Number(m.genesis))]);
      Placed(cfg, m, t, calls) && s.at.Keys <= t.at.Keys && "PublishedRatings" in t.at
  {
    DeployPlaced(cfg, m, s, calls, "PublishedRatings", [New("IndependentLobby"), Me(cfg), Const(Number(m.genesis))]);
  }

  lemma BindPlaced(cfg: Config, m: Manifest, s: Script, calls: seq<OpName>)
    requires Placed(cfg, m, s, calls) && "IndependentLobby" in s.at && "PublishedRatings" in s.at
    ensures var t := Write(s, BindRatings, "IndependentLobby", "bindRatings", [Of(s, "PublishedRatings")]);
      Placed(cfg, m, t, calls + [BindRatings]) && t.at == s.at
  {
    WritePlaced(cfg, m, s, calls, BindRatings, [Of(s, "PublishedRatings")]);
  }

  lemma SealedPlaced(cfg: Config, m: Manifest, s: Script, calls: seq<OpName>)
    requires Placed(cfg, m, s, calls) && "PublishedRatings" in s.at
    ensures var t := Write(s, SealMigration, "PublishedRatings", "sealMigration", [Here(MigrationHash(cfg, m.source))]);
      Placed(cfg, m, t, calls + [SealMigration]) && t.at == s.at
  {
    WritePlaced(cfg, m, s, calls, SealMigration, [Here(MigrationHash(cfg, m.source))]);
  }

  lemma SettlementPlaced(cfg: Config, m: Manifest, s: Script, calls: seq<OpName>)
    requires LinksOk(cfg) && Placed(cfg, m, s, calls) && "IndependentLobby" in s.at
    ensures var t := Deploy(cfg, s, "IndependentSettlement", "IndependentSettlement", [New("IndependentLobby")]);
      Placed(cfg, m, t, calls) && s.at.Keys <= t.at.Keys && "IndependentSettlement" in t.at
  {
    DeployPlaced(cfg, m, s, calls, "IndependentSettlement", [New("IndependentLobby")]);
  }

  lemma VaultPlaced(cfg: Config, m: Manifest, s: Script, calls: seq<OpName>)
    requires LinksOk(cfg) && Placed(cfg, m, s, calls)
    ensures var t := Deploy(cfg, s, "RoomsVault", "RoomsVault", [Me(cfg)]);
      Placed(cfg, m, t, calls) && s.at.Keys <= t.at.Keys && "RoomsVault" in t.at
  {
    DeployPlaced(cfg, m, s, calls, "RoomsVault", [Me(cfg)]);
  }

  lemma LmsrPlaced(cfg: Config, m: Manifest, s: Script, calls: seq<OpName>)
    requires LinksOk(cfg) && Placed(cfg, m, s, calls)
    ensures var t := Deploy(cfg, s, "LMSRV2", "LMSRV2", []);
      Placed(cfg, m, t, calls) && s.at.Keys <= t.at.Keys && "LMSRV2" in t.at
  {
    DeployPlaced(cfg, m, s, calls, "LMSRV2", []);
  }

  lemma MarketPlaced(cfg: Config, m: Manifest, s: Script, calls: seq<OpName>)
    requires LinksOk(cfg) && Placed(cfg, m, s, calls) && "IndependentSettlement" in s.at && "LMSRV2" in s.at && "RoomsVault" in s.at
    ensures var t := Deploy(cfg, s, "MarketV4", "MarketV4", [Me(cfg), Me(cfg), New("IndependentSettlement"), New("LMSRV2"), New("RoomsVault")]);
      Placed(cfg, m, t, calls) && s.at.Keys <= t.at.Keys && "MarketV4" in t.at
  {
    DeployPlaced(cfg, m, s, calls, "MarketV4", [Me(cfg), Me(cfg), New("IndependentSettlement"), New("LMSRV2"), New("RoomsVault")]);
  }

  lemma RegisterPlaced(cfg: Config, m: Manifest, s: Script, calls: seq<OpName>)
    requires Placed(cfg, m, s, calls) && "RoomsVault" in s.at && "MarketV4" in s.at
    ensures var t := Write(s, RegisterMarket, "RoomsVault", "registerModule", [Of(s, "MarketV4")]);
      Placed(cfg, m, t, calls + [RegisterMarket]) && t.at == s.at
  {
    WritePlaced(cfg, m, s, calls, RegisterMarket, [Of(s, "MarketV4")]);
  }

  lemma SealVaultPlaced(cfg: Config, m: Manifest, s: Script, calls: seq<OpName>)
    requires Placed(cfg, m, s, calls) && "RoomsVault" in s.at
    ensures var t := Write(s, SealVault, "RoomsVault", "seal", []);
      Placed(cfg, m, t, calls + [SealVault]) && t.at == s.at
  {
    WritePlaced(cfg, m, s, calls, SealVault, []);
  }

  lemma RegistryPlaced(cfg: Config, m: Manifest, s: Script, calls: seq<OpName>)
    requires LinksOk(cfg) && Placed(cfg, m, s, calls)
    ensures var t := Deploy(cfg, s, "ProfileRegistry", "ProfileRegistry", [Me(cfg)]);
      Placed(cfg, m, t, calls) && s.at.Keys <= t.at.Keys && "ProfileRegistry" in t.at
  {
    DeployPlaced(cfg, m, s, calls, "ProfileRegistry", [Me(cfg)]);
  }

  lemma SealProfilesPlaced(cfg: Config, m: Manifest, s: Script, calls: seq<OpName>)
    requires Placed(cfg, m, s, calls) && "ProfileRegistry" in s.at
    ensures var t := Write(s, SealProfiles, "ProfileRegistry", "seal", []);
      Placed(cfg, m, t, calls + [SealProfiles]) && t.at == s.at
  {
    WritePlaced(cfg, m, s, calls, SealProfiles, []);
  }

  lemma StorePlaced(cfg: Config, m: Manifest, s: Script, calls: seq<OpName>)
    requires LinksOk(cfg) && Placed(cfg, m, s, calls)
    ensures var t := Deploy(cfg, s, "PrivateDataStore", "PrivateDataStore", []);
      Placed(cfg, m, t, calls) && s.at.Keys <= t.at.Keys && "PrivateDataStore" in t.at
  {
    DeployPlaced(cfg, m, s, calls, "PrivateDataStore", []);
  }

  lemma SealLobbyPlaced(cfg: Config, m: Manifest, s: Script, calls: seq<OpName>)
    requires Placed(cfg, m, s, calls) && "IndependentLobby" in s.at
    ensures var t := Write(s, SealLobby, "IndependentLobby", "seal", []);
      Placed(cfg, m, t, calls + [SealLobby]) && t.at == s.at
  {
    WritePlaced(cfg, m, s, calls, SealLobby, []);
  }

  lemma CourtPlaced(cfg: Config, m: Manifest, s: Script, calls: seq<OpName>, i: nat)
    requires LinksOk(cfg) && Placed(cfg, m, s, calls) && "IndependentLobby" in s.at && i < 3
    ensures var t := Deploy(cfg, s, "IndependentArena", ArenaName(i), [Const(At(cfg.hub)), New("IndependentLobby"), Const(At(cfg.pressure))]);
      Placed(cfg, m, t, calls) && s.at.Keys <= t.at.Keys && ArenaName(i) in t.at
  {
    DeployPlaced(cfg, m, s, calls, ArenaName(i), [Const(At(cfg.hub)), New("IndependentLobby"), Const(At(cfg.pressure))]);
  }

  lemma AddArenaPlaced(cfg: Config, m: Manifest, s: Script, calls: seq<OpName>, i: nat)
    requires Placed(cfg, m, s, calls) && "IndependentLobby" in s.at && ArenaName(i) in s.at && i < 3
    ensures var t := Write(s, RegisterArena(i), "IndependentLobby", "addArena", [Of(s, ArenaName(i))]);
      Placed(cfg, m, t, calls + [RegisterArena(i)]) && t.at == s.at
  {
    WritePlaced(cfg, m, s, calls, RegisterArena(i), [Of(s, ArenaName(i))]);
  }

  // ---- the whole script

  lemma CorePlaced(cfg: Config, m: Manifest)
    requires LinksOk(cfg)
    ensures Placed(cfg, m, Core(cfg, m), [BindRatings])
    ensures var at := Core(cfg, m).at; "ArcadeFamily" in at && "IndependentLobby" in at && "PublishedRatings" in at
  {
    var s0 := Script([], map[]);
    var s1 := Deploy(cfg, s0, "ArcadeFamily", "ArcadeFamily", []);
    FamilyPlaced(cfg, m, s0, []);
    var u2 := [New("ArcadeFamily"), Const(At(cfg.hub)), Me(cfg), Const(At(cfg.pressure))];
    var s2 := Deploy(cfg, s1, "IndependentLobby", "IndependentLobby", u2);
    LobbyPlaced(cfg, m, s1, []);
    var u3 := [New("IndependentLobby"), Me(cfg), Const(Number(m.genesis))];
    var s3 := Deploy(cfg, s2, "PublishedRatings", "PublishedRatings", u3);
    RatingsPlaced(cfg, m, s2, []);
    BindPlaced(cfg, m, s3, []);
  }

  lemma {:induction false} SeedLoopPlaced(cfg: Config, m: Manifest, s: Script, calls: seq<OpName>, rows: seq<Rating>, mode: nat, i: nat)
    requires Placed(cfg, m, s, calls) && "PublishedRatings" in s.at
    ensures Placed(cfg, m, SeedLoop(s, rows, mode, i), calls) && SeedLoop(s, rows, mode, i).at == s.at
    decreases |rows| - i
  {
    if i < |rows| {
      var args := SeedArgs(Slice(rows, i, 100), mode);
      WritePlaced(cfg, m, s, calls, SeedMode(mode, i), args);
      SeedLoopPlaced(cfg, m, Write(s, SeedMode(mode, i), "PublishedRatings", "seed", args), calls, rows, mode, i + 100);
    }
  }

  lemma {:induction false} RepeatLoopPlaced(cfg: Config, m: Manifest, s: Script, calls: seq<OpName>, rows: seq<PairSeed>, i: nat)
    requires Placed(cfg, m, s, calls) && "PublishedRatings" in s.at
    ensures Placed(cfg, m, RepeatLoop(s, rows, i), calls) && RepeatLoop(s, rows, i).at == s.at
    decreases |rows| - i
  {
    if i < |rows| {
      var args := PairArgs(Slice(rows, i, 100));
      WritePlaced(cfg, m, s, calls, SeedRepeat(i), args);
      RepeatLoopPlaced(cfg, m, Write(s, SeedRepeat(i), "PublishedRatings", "seedPairCounts", args), calls, rows, i + 100);
    }
  }

  lemma {:induction false} ProfileLoopPlaced(cfg: Config, m: Manifest, s: Script, calls: seq<OpName>, rows: seq<Profile>, i: nat)
    requires Placed(cfg, m, s, calls) && "ProfileRegistry" in s.at
    ensures Placed(cfg, m, ProfileLoop(s, rows, i), calls) && ProfileLoop(s, rows, i).at == s.at
    decreases |rows| - i
  {
    if i < |rows| {
      var args := ProfileArgs(Slice(rows, i, 32));
      WritePlaced(cfg, m, s, calls, ReserveProfiles(i), args);
      ProfileLoopPlaced(cfg, m, Write(s, ReserveProfiles(i), "ProfileRegistry", "reserve", args), calls, rows, i + 32);
    }
  }

  lemma SeedAllPlaced(cfg: Config, m: Manifest, s: Script, calls: seq<OpName>)
    requires Placed(cfg, m, s, calls) && "PublishedRatings" in s.at
    ensures Placed(cfg, m, SeedAll(s, m.source), calls) && SeedAll(s, m.source).at == s.at
  {
    if m.source.Some? {
      var snap := m.source.value;
      var rows0, rows1 := OfMode(snap.ratings, 0), OfMode(snap.ratings, 1);
      SeedLoopPlaced(cfg, m, s, calls, rows0, 0, 0);
      SeedLoopPlaced(cfg, m, SeedLoop(s, rows0, 0, 0), calls, rows1, 1, 0);
      RepeatLoopPlaced(cfg, m, SeedLoop(SeedLoop(s, rows0, 0, 0), rows1, 1, 0), calls, snap.pairSeeds, 0);
    }
  }

  lemma ArenaPlaced(cfg: Config, m: Manifest, s: Script, calls: seq<OpName>, i: nat)
    requires LinksOk(cfg) && Placed(cfg, m, s, calls) && "IndependentLobby" in s.at && i < 3
    ensures Placed(cfg, m, Arena(cfg, s, i), calls + [RegisterArena(i)])
    ensures s.at.Keys <= Arena(cfg, s, i).at.Keys && ArenaName(i) in Arena(cfg, s, i).at
  {
    var uses := [Const(At(cfg.hub)), New("IndependentLobby"), Const(At(cfg.pressure))];
    var d := Deploy(cfg, s, "IndependentArena", ArenaName(i), uses);
    CourtPlaced(cfg, m, s, calls, i);
    AddArenaPlaced(cfg, m, d, calls, i);
  }

  lemma ArenasPlaced(cfg: Config, m: Manifest, seeded: Script, calls: seq<OpName>)
    requires LinksOk(cfg) && Placed(cfg, m, seeded, calls) && "IndependentLobby" in seeded.at && "PublishedRatings" in seeded.at
    ensures Placed(cfg, m, Arenas(cfg, seeded, m.source),
                   calls + [SealMigration] + [RegisterArena(0)] + [RegisterArena(1)] + [RegisterArena(2)])
    ensures seeded.at.Keys <= Arenas(cfg, seeded, m.source).at.Keys
    ensures "arena-0" in Arenas(cfg, seeded, m.source).at && "arena-1" in Arenas(cfg, seeded, m.source).at && "arena-2" in Arenas(cfg, seeded, m.source).at
  {
    var args := [Here(MigrationHash(cfg, m.source))];
    var s := Write(seeded, SealMigration, "PublishedRatings", "sealMigration", args);
    SealedPlaced(cfg, m, seeded, calls);
    var c := calls + [SealMigration];
    ArenaPlaced(cfg, m, s, c, 0);
    ArenaPlaced(cfg, m, Arena(cfg, s, 0), c + [RegisterArena(0)], 1);
    ArenaPlaced(cfg, m, Arena(cfg, Arena(cfg, s, 0), 1), c + [RegisterArena(0)] + [RegisterArena(1)], 2);
  }

  lemma MarketsPlaced(cfg: Config, m: Manifest, s: Script, calls: seq<OpName>)
    requires LinksOk(cfg) && Placed(cfg, m, s, calls) && "IndependentLobby" in s.at
    ensures Placed(cfg, m, Markets(cfg, s), calls + [RegisterMarket] + [SealVault])
    ensures s.at.Keys <= Markets(cfg, s).at.Keys
    ensures "IndependentSettlement" in Markets(cfg, s).at
    ensures "RoomsVault" in Markets(cfg, s).at
    ensures "LMSRV2" in Markets(cfg, s).at
    ensures "MarketV4" in Markets(cfg, s).at
  {
    var s1 := Deploy(cfg, s, "IndependentSettlement", "IndependentSettlement", [New("IndependentLobby")]);
    SettlementPlaced(cfg, m, s, calls);
    var s2 := Deploy(cfg, s1, "RoomsVault", "RoomsVault", [Me(cfg)]);
    VaultPlaced(cfg, m, s1, calls);
    var s3 := Deploy(cfg, s2, "LMSRV2", "LMSRV2", []);
    LmsrPlaced(cfg, m, s2, calls);
    var uses := [Me(cfg), Me(cfg), New("IndependentSettlement"), New("LMSRV2"), New("RoomsVault")];
    var s4 := Deploy(cfg, s3, "MarketV4", "MarketV4", uses);
    MarketPlaced(cfg, m, s3, calls);
    RegisterPlaced(cfg, m, s4, calls);
    var s5 := Write(s4, RegisterMarket, "RoomsVault", "registerModule", [Of(s4, "MarketV4")]);
    SealVaultPlaced(cfg, m, s5, calls + [RegisterMarket]);
  }

  lemma ClosingPlaced(cfg: Config, m: Manifest, s: Script, calls: seq<OpName>)
    requires LinksOk(cfg) && Placed(cfg, m, s, calls) && "IndependentLobby" in s.at
    ensures Placed(cfg, m, Closing(cfg, s, m.source), calls + [SealProfiles] + [SealLobby])
    ensures s.at.Keys <= Closing(cfg, s, m.source).at.Keys
    ensures "ProfileRegistry" in Closing(cfg, s, m.source).at
    ensures "PrivateDataStore" in Closing(cfg, s, m.source).at
  {
    var s1 := Deploy(cfg, s, "ProfileRegistry", "ProfileRegistry", [Me(cfg)]);
    RegistryPlaced(cfg, m, s, calls);
    var s2 := if m.source.Some? then ProfileLoop(s1, m.source.value.profiles, 0) else s1;
    if m.source.Some? { ProfileLoopPlaced(cfg, m, s1, calls, m.source.value.profiles, 0); }
    var s3 := Write(s2, SealProfiles, "ProfileRegistry", "seal", []);
    SealProfilesPlaced(cfg, m, s2, calls);
    var s4 := Deploy(cfg, s3, "PrivateDataStore", "PrivateDataStore", []);
    StorePlaced(cfg, m, s3, calls + [SealProfiles]);
    SealLobbyPlaced(cfg, m, s4, calls + [SealProfiles]);
  }

  const FIRST_CALLS := [BindRatings] + [SealMigration] + [RegisterArena(0)] + [RegisterArena(1)] + [RegisterArena(2)]

  const CALLS := FIRST_CALLS + [RegisterMarket] + [SealVault] + [SealProfiles] + [SealLobby]

  lemma PlanPlaced(cfg: Config, m: Manifest)
    requires LinksOk(cfg)
    ensures Placed(cfg, m, PlanScript(cfg, m), CALLS)
    ensures forall x :: x in OWN_INSTANCES ==> x in PlanScript(cfg, m).at
  {
    CorePlaced(cfg, m);
    SeedAllPlaced(cfg, m, Core(cfg, m), [BindRatings]);
    var seeded := SeedAll(Core(cfg, m), m.source);
    ArenasPlaced(cfg, m, seeded, [BindRatings]);
    var arenas := Arenas(cfg, seeded, m.source);
    MarketsPlaced(cfg, m, arenas, FIRST_CALLS);
    var markets := Markets(cfg, arenas);
    ClosingPlaced(cfg, m, markets, FIRST_CALLS + [RegisterMarket] + [SealVault]);
    OwnOut(seeded.at.Keys, arenas.at.Keys, markets.at.Keys, Closing(cfg, markets, m.source).at.Keys);
  }

  lemma OwnOut(a: set<string>, b: set<string>, c: set<string>, d: set<string>)
    requires a <= b <= c <= d && "ArcadeFamily" in a && "IndependentLobby" in a && "PublishedRatings" in a
    requires "arena-0" in b && "arena-1" in b && "arena-2" in b
    requires "IndependentSettlement" in c && "RoomsVault" in c && "LMSRV2" in c && "MarketV4" in c
    requires "ProfileRegistry" in d && "PrivateDataStore" in d
    ensures forall x :: x in OWN_INSTANCES ==> x in d
  {
  }

  predicate Seals(op: OpName) { op.SealMigration? || op.SealVault? || op.SealProfiles? || op.SealLobby? }

  /** Every own instance is created. */
  ghost predicate CreatesAll(ops: seq<Template>) {
    forall x :: x in OWN_INSTANCES ==> exists t :: t in ops && t.name == DeployOp(x)
  }

  ghost predicate AllMeant(cfg: Config, m: Manifest, ops: seq<Template>) {
    forall j :: 0 <= j < |ops| ==> Meant(cfg, m, ops, ops[j])
  }

  /** Nothing is written to a contract once it is sealed. */
  ghost predicate SealedLast(ops: seq<Template>) {
    forall i, j :: 0 <= i < j < |ops| && Seals(ops[i].name) && !ops[j].name.DeployOp? ==>
      Receiver(ops[j].name) != Receiver(ops[i].name)
  }

  lemma {:induction false} InCalls(ops: seq<Template>, j: nat)
    requires j < |ops| && !ops[j].name.DeployOp? && !CarriesRows(ops[j].name)
    ensures ops[j].name in Calls(ops)
  {
    if j < |ops| - 1 { InCalls(ops[..|ops| - 1], j); }
  }

  lemma SealsLast(a: OpName, b: OpName)
    requires Seals(a) && !b.DeployOp? && Earlier(a, Rank(b), Place(b)) && (b.RegisterArena? ==> b.index < 3)
    ensures Receiver(b) != Receiver(a)
  {
  }

  lemma PlanSeals(ops: seq<Template>)
    requires InOrder(ops) && Calls(ops) == CALLS
    ensures SealedLast(ops)
  {
    forall i, j | 0 <= i < j < |ops| && Seals(ops[i].name) && !ops[j].name.DeployOp?
      ensures Receiver(ops[j].name) != Receiver(ops[i].name) {
      if !CarriesRows(ops[j].name) {
        InCalls(ops, j);
        CallsAre(ops[j].name);
      }
      SealsLast(ops[i].name, ops[j].name);
    }
  }

  lemma CallsAre(op: OpName)
    requires op in CALLS
    ensures op.RegisterArena? ==> op.index < 3
  {
  }

  lemma PlanCreates(s: Script)
    requires forall x :: x in s.at ==> s.at[x] < |s.ops| && s.ops[s.at[x]].name == DeployOp(x)
    requires forall x :: x in OWN_INSTANCES ==> x in s.at
    ensures CreatesAll(s.ops)
  {
    forall x | x in OWN_INSTANCES ensures exists t :: t in s.ops && t.name == DeployOp(x) {
      assert s.ops[s.at[x]].name == DeployOp(x);
    }
  }

  const NINE := [BindRatings, SealMigration, RegisterArena(0), RegisterArena(1), RegisterArena(2),
                 RegisterMarket, SealVault, SealProfiles, SealLobby]

  ghost predicate Deploys(cfg: Config, m: Manifest, ops: seq<Template>) {
    CreatesAll(ops) && AllMeant(cfg, m, ops) && SealedLast(ops) && Calls(ops) == NINE
  }

  lemma NineCalls()
    ensures CALLS == NINE
  {
  }

  lemma PlacedMeant(cfg: Config, m: Manifest, s: Script)
    requires Placed(cfg, m, s, CALLS)
    ensures AllMeant(cfg, m, s.ops) && Calls(s.ops) == NINE
    ensures forall x :: x in s.at ==> s.at[x] < |s.ops| && s.ops[s.at[x]].name == DeployOp(x)
  {
    NineCalls();
  }

  lemma PlacedDeploys(cfg: Config, m: Manifest, s: Script)
    requires Placed(cfg, m, s, CALLS) && InOrder(s.ops) && forall x :: x in OWN_INSTANCES ==> x in s.at
    ensures Deploys(cfg, m, s.ops)
  {
    PlacedMeant(cfg, m, s);
    PlanCreates(s);
    NineCalls();
    PlanSeals(s.ops);
  }

  lemma PlanInOrder(cfg: Config, m: Manifest)
    ensures InOrder(PlanScript(cfg, m).ops)
  {
    PlanScriptSound(cfg, m);
  }

  /** For every manifest, the script creates what the source lists and makes its nine calls without rows in
      its order, each operation means what its name says, and what is sealed is written to no more. */
  lemma PlanDeploys(cfg: Config, m: Manifest)
    requires LinksOk(cfg)
    ensures Deploys(cfg, m, Plan(cfg, m))
  {
    PlanPlaced(cfg, m);
    PlanInOrder(cfg, m);
    PlacedDeploys(cfg, m, PlanScript(cfg, m));
  }
}
