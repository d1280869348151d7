/** What the deployment script migrates: read back from the operations themselves, whatever built
    them, the chunks are the snapshot's rows. */
module DeployContent {
  import opened Options
  import opened Wire
  import opened DeployScript

  /** The kinds of writes that carry migrated rows. */
  datatype Lane = Ratings(mode: nat) | Pairs | Profiles

  predicate In(lane: Lane, name: OpName) {
    match lane
    case Ratings(mode) => name.SeedMode? && name.mode == mode
    case Pairs => name.SeedRepeat?
    case Profiles => name.ReserveProfiles?
  }

  /** How many words `n` rows take, and how many rows one write takes at most. */
  function Words(lane: Lane, n: nat): nat { if lane.Ratings? then 5 * n else 2 * n }

  function Most(lane: Lane): nat { if lane.Profiles? then 32 else 100 }

  /** The words of a write's rows. A write of ratings begins with their mode. */
  function Rows(lane: Lane, args: seq<Ref>): seq<Ref> {
    if lane.Ratings? && args != [] then args[1..] else args
  }

  /** All that the writes of one kind carry, in order. */
  function Carried(ops: seq<Template>, lane: Lane): seq<Ref> {
    if ops == [] then [] else
    var last := ops[|ops| - 1];
    Carried(ops[..|ops| - 1], lane) + (if In(lane, last.name) then Rows(lane, last.args) else [])
  }

  /** A write is named after the first row it carries, counted from 0, and that is a multiple of what one
      write takes; it carries at least a row, and for ratings says their mode. */
  ghost predicate Cut(ops: seq<Template>, lane: Lane) {
    forall j :: 0 <= j < |ops| && In(lane, ops[j].name) ==>
      && Words(lane, Place(ops[j].name)) == |Carried(ops[..j], lane)| && Place(ops[j].name) % Most(lane) == 0
      && 0 < |Rows(lane, ops[j].args)| <= Words(lane, Most(lane))
      && (lane.Ratings? ==> ops[j].args != [] && ops[j].args[0] == Here(Number(lane.mode)))
  }

  /** The places of the rows of one mode, in order. */
  ghost predicate Places(all: seq<Rating>, mode: nat, at: seq<nat>) {
    && (forall j, k :: 0 <= j < k < |at| ==> at[j] < at[k])
    && (forall k :: 0 <= k < |at| ==> at[k] < |all| && all[at[k]].mode == mode)
    && (forall i: nat :: i < |all| && all[i].mode == mode ==> i in at)
  }

  ghost predicate AreRatings(refs: seq<Ref>, all: seq<Rating>, mode: nat, at: seq<nat>) {
    && Places(all, mode, at) && |refs| == 5 * |at|
    && forall k :: 0 <= k < |at| ==>
      && refs[5 * k] == Here(Text(all[at[k]].player)) && refs[5 * k + 1] == Here(Number(all[at[k]].elo))
      && refs[5 * k + 2] == Here(Number(all[at[k]].played)) && refs[5 * k + 3] == Here(Number(all[at[k]].wins))
      && refs[5 * k + 4] == Here(Number(all[at[k]].season))
  }

  ghost predicate ArePairs(refs: seq<Ref>, all: seq<PairSeed>) {
    && |refs| == 2 * |all|
    && forall k :: 0 <= k < |all| ==> refs[2 * k] == Here(Text(all[k].pair)) && refs[2 * k + 1] == Here(Number(all[k].count))
  }

  ghost predicate AreProfiles(refs: seq<Ref>, all: seq<Profile>) {
    && |refs| == 2 * |all|
    && forall k :: 0 <= k < |all| ==> refs[2 * k] == Here(Text(all[k].handle)) && refs[2 * k + 1] == Here(Text(all[k].player))
  }

  /** The writes carry each snapshot row of their kind as often as the snapshot has it, in its order,
      and nothing else. */
  ghost predicate Migrates(ops: seq<Template>, source: Option<Snapshot>) {
    && (forall lane: Lane :: Cut(ops, lane))
    && (forall mode: nat :: mode >= 2 || source.None? ==> Carried(ops, Ratings(mode)) == [])
    && (source.None? ==> Carried(ops, Pairs) == [] && Carried(ops, Profiles) == [])
    && (source.Some? ==>
          && (exists at :: AreRatings(Carried(ops, Ratings(0)), source.value.ratings, 0, at))
          && (exists at :: AreRatings(Carried(ops, Ratings(1)), source.value.ratings, 1, at))
          && ArePairs(Carried(ops, Pairs), source.value.pairSeeds)
          && AreProfiles(Carried(ops, Profiles), source.value.profiles))
  }

  // ---- operations of other kinds

  /** The script carries exactly these words so far. */
  ghost predicate Holds(s: Script, lane: Lane, words: seq<Ref>) {
    Carried(s.ops, lane) == words && Cut(s.ops, lane)
  }

  lemma AddedHolds(s: Script, t: Script, lane: Lane, words: seq<Ref>)
    requires Holds(s, lane, words) && |t.ops| == |s.ops| + 1 && t.ops[..|s.ops|] == s.ops
    requires In(lane, t.ops[|s.ops|].name) ==>
      && Words(lane, Place(t.ops[|s.ops|].name)) == |words| && Place(t.ops[|s.ops|].name) % Most(lane) == 0
      && 0 < |Rows(lane, t.ops[|s.ops|].args)| <= Words(lane, Most(lane))
      && (lane.Ratings? ==> t.ops[|s.ops|].args != [] && t.ops[|s.ops|].args[0] == Here(Number(lane.mode)))
    ensures Holds(t, lane, words + if In(lane, t.ops[|s.ops|].name) then Rows(lane, t.ops[|s.ops|].args) else [])
  {
    forall j | 0 <= j < |t.ops| ensures t.ops[..j] == s.ops[..j] {}
  }

  lemma WriteHolds(s: Script, name: OpName, receiver: string, call: string, args: seq<Ref>, lane: Lane, words: seq<Ref>)
    requires Holds(s, lane, words) && !In(lane, name)
    ensures Holds(Write(s, name, receiver, call, args), lane, words)
  {
    AddedHolds(s, Write(s, name, receiver, call, args), lane, words);
  }

  lemma CreateHolds(cfg: Config, s: Script, name: string, instance: string, args: seq<Ref>, lane: Lane, words: seq<Ref>)
    requires Holds(s, lane, words)
    ensures Holds(Create(cfg, s, name, instance, args), lane, words)
  {
    if instance !in s.at { AddedHolds(s, Create(cfg, s, name, instance, args), lane, words); }
  }

  lemma {:induction false} CreateAllHolds(cfg: Config, s: Script, libs: seq<string>, lane: Lane, words: seq<Ref>)
    requires Holds(s, lane, words)
    ensures Holds(CreateAll(cfg, s, libs), lane, words)
    decreases |libs|
  {
    if libs != [] {
      CreateHolds(cfg, s, libs[0], libs[0], [], lane, words);
      CreateAllHolds(cfg, Create(cfg, s, libs[0], libs[0], []), libs[1..], lane, words);
    }
  }

  lemma DeployHolds(cfg: Config, s: Script, name: string, instance: string, uses: seq<Use>, lane: Lane, words: seq<Ref>)
    requires Holds(s, lane, words)
    ensures Holds(Deploy(cfg, s, name, instance, uses), lane, words)
  {
    if instance !in s.at {
      var l := CreateAll(cfg, s, LinksOf(cfg, name));
      CreateAllHolds(cfg, s, LinksOf(cfg, name), lane, words);
      CreateHolds(cfg, l, name, instance, Args(l, uses), lane, words);
    }
  }

  // ---- the three loops

  lemma {:induction false} FlattenAppend(a: seq<seq<Word>>, b: seq<seq<Word>>)
    ensures Flatten(a + b) == Flatten(a) + Flatten(b)
  {
    if a == [] {
      assert a + b == b;
    } else {
      assert (a + b)[1..] == a[1..] + b;
      FlattenAppend(a[1..], b);
    }
  }

  function RatingTable(rows: seq<Rating>): (t: seq<seq<Word>>)
    ensures |t| == |rows| && forall k :: 0 <= k < |t| ==> |t[k]| == 5
  {
    seq(|rows|, i requires 0 <= i < |rows| =>
      [Text(rows[i].player), Number(rows[i].elo), Number(rows[i].played), Number(rows[i].wins), Number(rows[i].season)])
  }

  function PairTable(rows: seq<PairSeed>): (t: seq<seq<Word>>)
    ensures |t| == |rows| && forall k :: 0 <= k < |t| ==> |t[k]| == 2
  {
    seq(|rows|, i requires 0 <= i < |rows| => [Text(rows[i].pair), Number(rows[i].count)])
  }

  function ProfileTable(rows: seq<Profile>): (t: seq<seq<Word>>)
    ensures |t| == |rows| && forall k :: 0 <= k < |t| ==> |t[k]| == 2
  {
    seq(|rows|, i requires 0 <= i < |rows| => [Text(rows[i].handle), Text(rows[i].player)])
  }

  lemma SliceIs<T>(rows: seq<T>, i: nat, size: nat)
    requires i < |rows| && size > 0
    ensures Upto(rows, i) + Slice(rows, i, size) == Upto(rows, i + size) && 0 < |Slice(rows, i, size)| <= size
  {
  }

  function Upto<T>(rows: seq<T>, i: nat): seq<T> { if i <= |rows| then rows[..i] else rows }

  lemma FiveOn(s: seq<Ref>, t: seq<Ref>, k: nat)
    requires k > 0 && |s| >= 5 && s[5..] == t && 5 * k + 4 < |s|
    ensures s[5 * k] == t[5 * (k - 1)] && s[5 * k + 1] == t[5 * (k - 1) + 1] && s[5 * k + 2] == t[5 * (k - 1) + 2]
    ensures s[5 * k + 3] == t[5 * (k - 1) + 3] && s[5 * k + 4] == t[5 * (k - 1) + 4]
  {
  }

  /** Rows of five words, flattened. */
  lemma {:induction false} FlattenFives(rows: seq<seq<Word>>)
    requires forall k :: 0 <= k < |rows| ==> |rows[k]| == 5
    ensures |Flatten(rows)| == 5 * |rows|
    ensures forall k :: 0 <= k < |rows| ==>
      && Flatten(rows)[5 * k] == Here(rows[k][0]) && Flatten(rows)[5 * k + 1] == Here(rows[k][1])
      && Flatten(rows)[5 * k + 2] == Here(rows[k][2]) && Flatten(rows)[5 * k + 3] == Here(rows[k][3])
      && Flatten(rows)[5 * k + 4] == Here(rows[k][4])
  {
    if rows != [] {
      FlattenFives(rows[1..]);
      forall k | 0 < k < |rows|
        ensures Flatten(rows)[5 * k] == Here(rows[k][0]) && Flatten(rows)[5 * k + 1] == Here(rows[k][1])
        ensures Flatten(rows)[5 * k + 2] == Here(rows[k][2]) && Flatten(rows)[5 * k + 3] == Here(rows[k][3])
        ensures Flatten(rows)[5 * k + 4] == Here(rows[k][4]) {
        assert rows[k] == rows[1..][k - 1];
        FiveOn(Flatten(rows), Flatten(rows[1..]), k);
      }
    }
  }

  lemma {:induction false} FlattenTwos(rows: seq<seq<Word>>)
    requires forall k :: 0 <= k < |rows| ==> |rows[k]| == 2
    ensures |Flatten(rows)| == 2 * |rows|
    ensures forall k :: 0 <= k < |rows| ==>
      Flatten(rows)[2 * k] == Here(rows[k][0]) && Flatten(rows)[2 * k + 1] == Here(rows[k][1])
  {
    if rows != [] {
      FlattenTwos(rows[1..]);
      forall k | 0 < k < |rows|
        ensures Flatten(rows)[2 * k] == Here(rows[k][0]) && Flatten(rows)[2 * k + 1] == Here(rows[k][1]) {
        assert rows[k] == rows[1..][k - 1];
        assert Flatten(rows)[2 * k] == Flatten(rows[1..])[2 * (k - 1)];
      }
    }
  }

  lemma RatingsJoin(a: seq<Rating>, b: seq<Rating>)
    ensures Flatten(RatingTable(a + b)) == Flatten(RatingTable(a)) + Flatten(RatingTable(b))
  {
    FlattenAppend(RatingTable(a), RatingTable(b));
    assert RatingTable(a) + RatingTable(b) == RatingTable(a + b);
  }

  lemma PairsJoin(a: seq<PairSeed>, b: seq<PairSeed>)
    ensures Flatten(PairTable(a + b)) == Flatten(PairTable(a)) + Flatten(PairTable(b))
  {
    FlattenAppend(PairTable(a), PairTable(b));
    assert PairTable(a) + PairTable(b) == PairTable(a + b);
  }

  lemma ProfilesJoin(a: seq<Profile>, b: seq<Profile>)
    ensures Flatten(ProfileTable(a + b)) == Flatten(ProfileTable(a)) + Flatten(ProfileTable(b))
  {
    FlattenAppend(ProfileTable(a), ProfileTable(b));
    assert ProfileTable(a) + ProfileTable(b) == ProfileTable(a + b);
  }

  lemma SeedArgsAre(chunk: seq<Rating>, mode: nat)
    ensures SeedArgs(chunk, mode) == [Here(Number(mode))] + Flatten(RatingTable(chunk))
  {
    FlattenAppend([[Number(mode)]], RatingTable(chunk));
    assert Flatten([[Number(mode)]]) == [Here(Number(mode))];
  }

  lemma PairArgsAre(chunk: seq<PairSeed>)
    ensures PairArgs(chunk) == Flatten(PairTable(chunk))
  {
  }

  lemma ProfileArgsAre(chunk: seq<Profile>)
    ensures ProfileArgs(chunk) == Flatten(ProfileTable(chunk))
  {
  }

  lemma SeedLoopStep(s: Script, rows: seq<Rating>, mode: nat, i: nat)
    requires Holds(s, Ratings(mode), Flatten(RatingTable(Upto(rows, i)))) && i % 100 == 0 && i < |rows|
    ensures var chunk := Slice(rows, i, 100);
      Holds(Write(s, SeedMode(mode, i), "PublishedRatings", "seed", SeedArgs(chunk, mode)), Ratings(mode), Flatten(RatingTable(Upto(rows, i + 100))))
  {
    var chunk := Slice(rows, i, 100);
    SliceIs(rows, i, 100);
    RatingsJoin(Upto(rows, i), chunk);
    FlattenFives(RatingTable(chunk));
    FlattenFives(RatingTable(Upto(rows, i)));
    SeedArgsAre(chunk, mode);
    AddedHolds(s, Write(s, SeedMode(mode, i), "PublishedRatings", "seed", SeedArgs(chunk, mode)), Ratings(mode), Flatten(RatingTable(Upto(rows, i))));
  }

  lemma {:induction false} SeedLoopHolds(s: Script, rows: seq<Rating>, mode: nat, i: nat)
    requires Holds(s, Ratings(mode), Flatten(RatingTable(Upto(rows, i)))) && i % 100 == 0
    ensures Holds(SeedLoop(s, rows, mode, i), Ratings(mode), Flatten(RatingTable(rows)))
    decreases |rows| - i
  {
    if i < |rows| {
      SeedLoopStep(s, rows, mode, i);
      SeedLoopHolds(Write(s, SeedMode(mode, i), "PublishedRatings", "seed", SeedArgs(Slice(rows, i, 100), mode)), rows, mode, i + 100);
    } else {
      assert Upto(rows, i) == rows;
    }
  }

  lemma RepeatLoopStep(s: Script, rows: seq<PairSeed>, i: nat)
    requires Holds(s, Pairs, Flatten(PairTable(Upto(rows, i)))) && i % 100 == 0 && i < |rows|
    ensures var chunk := Slice(rows, i, 100);
      Holds(Write(s, SeedRepeat(i), "PublishedRatings", "seedPairCounts", PairArgs(chunk)), Pairs, Flatten(PairTable(Upto(rows, i + 100))))
  {
    var chunk := Slice(rows, i, 100);
    SliceIs(rows, i, 100);
    PairsJoin(Upto(rows, i), chunk);
    FlattenTwos(PairTable(chunk));
    FlattenTwos(PairTable(Upto(rows, i)));
    PairArgsAre(chunk);
    AddedHolds(s, Write(s, SeedRepeat(i), "PublishedRatings", "seedPairCounts", PairArgs(chunk)), Pairs, Flatten(PairTable(Upto(rows, i))));
  }

  lemma {:induction false} RepeatLoopHolds(s: Script, rows: seq<PairSeed>, i: nat)
    requires Holds(s, Pairs, Flatten(PairTable(Upto(rows, i)))) && i % 100 == 0
    ensures Holds(RepeatLoop(s, rows, i), Pairs, Flatten(PairTable(rows)))
    decreases |rows| - i
  {
    if i < |rows| {
      RepeatLoopStep(s, rows, i);
      RepeatLoopHolds(Write(s, SeedRepeat(i), "PublishedRatings", "seedPairCounts", PairArgs(Slice(rows, i, 100))), rows, i + 100);
    } else {
      assert Upto(rows, i) == rows;
    }
  }

  lemma ProfileLoopStep(s: Script, rows: seq<Profile>, i: nat)
    requires Holds(s, Profiles, Flatten(ProfileTable(Upto(rows, i)))) && i % 32 == 0 && i < |rows|
    ensures var chunk := Slice(rows, i, 32);
      Holds(Write(s, ReserveProfiles(i), "ProfileRegistry", "reserve", ProfileArgs(chunk)), Profiles, Flatten(ProfileTable(Upto(rows, i + 32))))
  {
    var chunk := Slice(rows, i, 32);
    SliceIs(rows, i, 32);
    ProfilesJoin(Upto(rows, i), chunk);
    FlattenTwos(ProfileTable(chunk));
    FlattenTwos(ProfileTable(Upto(rows, i)));
    ProfileArgsAre(chunk);
    AddedHolds(s, Write(s, ReserveProfiles(i), "ProfileRegistry", "reserve", ProfileArgs(chunk)), Profiles, Flatten(ProfileTable(Upto(rows, i))));
  }

  lemma {:induction false} ProfileLoopHolds(s: Script, rows: seq<Profile>, i: nat)
    requires Holds(s, Profiles, Flatten(ProfileTable(Upto(rows, i)))) && i % 32 == 0
    ensures Holds(ProfileLoop(s, rows, i), Profiles, Flatten(ProfileTable(rows)))
    decreases |rows| - i
  {
    if i < |rows| {
      ProfileLoopStep(s, rows, i);
      ProfileLoopHolds(Write(s, ReserveProfiles(i), "ProfileRegistry", "reserve", ProfileArgs(Slice(rows, i, 32))), rows, i + 32);
    } else {
      assert Upto(rows, i) == rows;
    }
  }

  // ---- the loops of the other kinds

  lemma {:induction false} SeedLoopSilent(s: Script, rows: seq<Rating>, mode: nat, i: nat, lane: Lane, words: seq<Ref>)
    requires Holds(s, lane, words) && lane != Ratings(mode)
    ensures Holds(SeedLoop(s, rows, mode, i), lane, words)
    decreases |rows| - i
  {
    if i < |rows| {
      var args := SeedArgs(Slice(rows, i, 100), mode);
      WriteHolds(s, SeedMode(mode, i), "PublishedRatings", "seed", args, lane, words);
      SeedLoopSilent(Write(s, SeedMode(mode, i), "PublishedRatings", "seed", args), rows, mode, i + 100, lane, words);
    }
  }

  lemma {:induction false} RepeatLoopSilent(s: Script, rows: seq<PairSeed>, i: nat, lane: Lane, words: seq<Ref>)
    requires Holds(s, lane, words) && lane != Pairs
    ensures Holds(RepeatLoop(s, rows, i), lane, words)
    decreases |rows| - i
  {
    if i < |rows| {
      var args := PairArgs(Slice(rows, i, 100));
      WriteHolds(s, SeedRepeat(i), "PublishedRatings", "seedPairCounts", args, lane, words);
      RepeatLoopSilent(Write(s, SeedRepeat(i), "PublishedRatings", "seedPairCounts", args), rows, i + 100, lane, words);
    }
  }

  lemma {:induction false} ProfileLoopSilent(s: Script, rows: seq<Profile>, i: nat, lane: Lane, words: seq<Ref>)
    requires Holds(s, lane, words) && lane != Profiles
    ensures Holds(ProfileLoop(s, rows, i), lane, words)
    decreases |rows| - i
  {
    if i < |rows| {
      var args := ProfileArgs(Slice(rows, i, 32));
      WriteHolds(s, ReserveProfiles(i), "ProfileRegistry", "reserve", args, lane, words);
      ProfileLoopSilent(Write(s, ReserveProfiles(i), "ProfileRegistry", "reserve", args), rows, i + 32, lane, words);
    }
  }

  // ---- the whole script

  lemma CoreHolds(cfg: Config, m: Manifest, lane: Lane)
    ensures Holds(Core(cfg, m), lane, [])
  {
    var s0 := Script([], map[]);
    var s1 := Deploy(cfg, s0, "ArcadeFamily", "ArcadeFamily", []);
    DeployHolds(cfg, s0, "ArcadeFamily", "ArcadeFamily", [], lane, []);
    var u2 := [New("ArcadeFamily"), Const(At(cfg.hub)), Me(cfg), Const(At(cfg.pressure))];
    var s2 := Deploy(cfg, s1, "IndependentLobby", "IndependentLobby", u2);
    DeployHolds(cfg, s1, "IndependentLobby", "IndependentLobby", u2, lane, []);
    var u3 := [New("IndependentLobby"), Me(cfg), Const(Number(m.genesis))];
    DeployHolds(cfg, s2, "PublishedRatings", "PublishedRatings", u3, lane, []);
    var s3 := Deploy(cfg, s2, "PublishedRatings", "PublishedRatings", u3);
    WriteHolds(s3, BindRatings, "IndependentLobby", "bindRatings", [Of(s3, "PublishedRatings")], lane, []);
  }

  /** What the first three loops should carry. */
  function Seeded(source: Option<Snapshot>, lane: Lane): seq<Ref> {
    if source.None? then [] else
    match lane
    case Ratings(mode) => if mode < 2 then Flatten(RatingTable(OfMode(source.value.ratings, mode))) else []
    case Pairs => Flatten(PairTable(source.value.pairSeeds))
    case Profiles => []
  }

  lemma SeedAllHolds(s: Script, source: Option<Snapshot>, lane: Lane)
    requires Holds(s, lane, [])
    ensures Holds(SeedAll(s, source), lane, Seeded(source, lane))
  {
    if source.Some? {
      var snap := source.value;
      var rows0, rows1 := OfMode(snap.ratings, 0), OfMode(snap.ratings, 1);
      var s0 := SeedLoop(s, rows0, 0, 0);
      var s1 := SeedLoop(s0, rows1, 1, 0);
      match lane
      case Pairs =>
        SeedLoopSilent(s, rows0, 0, 0, lane, []);
        SeedLoopSilent(s0, rows1, 1, 0, lane, []);
        RepeatLoopHolds(s1, snap.pairSeeds, 0);
      case _ =>
        RatingsHold(s, rows0, rows1, lane);
        RepeatLoopSilent(s1, snap.pairSeeds, 0, lane, Seeded(source, lane));
    }
  }

  lemma RatingsHold(s: Script, rows0: seq<Rating>, rows1: seq<Rating>, lane: Lane)
    requires Holds(s, lane, []) && lane != Pairs
    ensures Holds(SeedLoop(SeedLoop(s, rows0, 0, 0), rows1, 1, 0), lane,
                  if lane == Ratings(0) then Flatten(RatingTable(rows0))
                  else if lane == Ratings(1) then Flatten(RatingTable(rows1)) else [])
  {
    var s0 := SeedLoop(s, rows0, 0, 0);
    if lane == Ratings(0) {
      SeedLoopHolds(s, rows0, 0, 0);
      SeedLoopSilent(s0, rows1, 1, 0, lane, Flatten(RatingTable(rows0)));
    } else {
      SeedLoopSilent(s, rows0, 0, 0, lane, []);
      if lane == Ratings(1) { SeedLoopHolds(s0, rows1, 1, 0); } else { SeedLoopSilent(s0, rows1, 1, 0, lane, []); }
    }
  }

  lemma ArenaHolds(cfg: Config, s: Script, i: nat, lane: Lane, words: seq<Ref>)
    requires Holds(s, lane, words)
    ensures Holds(Arena(cfg, s, i), lane, words)
  {
    var uses := [Const(At(cfg.hub)), New("IndependentLobby"), Const(At(cfg.pressure))];
    var d := Deploy(cfg, s, "IndependentArena", ArenaName(i), uses);
    DeployHolds(cfg, s, "IndependentArena", ArenaName(i), uses, lane, words);
    WriteHolds(d, RegisterArena(i), "IndependentLobby", "addArena", [Of(d, ArenaName(i))], lane, words);
  }

  lemma ArenasHold(cfg: Config, seeded: Script, source: Option<Snapshot>, lane: Lane, words: seq<Ref>)
    requires Holds(seeded, lane, words)
    ensures Holds(Arenas(cfg, seeded, source), lane, words)
  {
    var args := [Here(MigrationHash(cfg, source))];
    var s := Write(seeded, SealMigration, "PublishedRatings", "sealMigration", args);
    WriteHolds(seeded, SealMigration, "PublishedRatings", "sealMigration", args, lane, words);
    ArenaHolds(cfg, s, 0, lane, words);
    ArenaHolds(cfg, Arena(cfg, s, 0), 1, lane, words);
    ArenaHolds(cfg, Arena(cfg, Arena(cfg, s, 0), 1), 2, lane, words);
  }

  lemma MarketsHold(cfg: Config, s: Script, lane: Lane, words: seq<Ref>)
    requires Holds(s, lane, words)
    ensures Holds(Markets(cfg, s), lane, words)
  {
    var s1 := Deploy(cfg, s, "IndependentSettlement", "IndependentSettlement", [New("IndependentLobby")]);
    DeployHolds(cfg, s, "IndependentSettlement", "IndependentSettlement", [New("IndependentLobby")], lane, words);
    var s2 := Deploy(cfg, s1, "RoomsVault", "RoomsVault", [Me(cfg)]);
    DeployHolds(cfg, s1, "RoomsVault", "RoomsVault", [Me(cfg)], lane, words);
    var s3 := Deploy(cfg, s2, "LMSRV2", "LMSRV2", []);
    DeployHolds(cfg, s2, "LMSRV2", "LMSRV2", [], lane, words);
    var uses := [Me(cfg), Me(cfg), New("IndependentSettlement"), New("LMSRV2"), New("RoomsVault")];
    var s4 := Deploy(cfg, s3, "MarketV4", "MarketV4", uses);
    DeployHolds(cfg, s3, "MarketV4", "MarketV4", uses, lane, words);
    WriteHolds(s4, RegisterMarket, "RoomsVault", "registerModule", [Of(s4, "MarketV4")], lane, words);
    var s5 := Write(s4, RegisterMarket, "RoomsVault", "registerModule", [Of(s4, "MarketV4")]);
    WriteHolds(s5, SealVault, "RoomsVault", "seal", [], lane, words);
  }

  function All(source: Option<Snapshot>, lane: Lane): seq<Ref> {
    if lane.Profiles? && source.Some? then Flatten(ProfileTable(source.value.profiles)) else Seeded(source, lane)
  }

  lemma ClosingHolds(cfg: Config, s: Script, source: Option<Snapshot>, lane: Lane)
    requires Holds(s, lane, Seeded(source, lane))
    ensures Holds(Closing(cfg, s, source), lane, All(source, lane))
  {
    var words := All(source, lane);
    var s1 := Deploy(cfg, s, "ProfileRegistry", "ProfileRegistry", [Me(cfg)]);
    DeployHolds(cfg, s, "ProfileRegistry", "ProfileRegistry", [Me(cfg)], lane, Seeded(source, lane));
    var s2 := if source.Some? then ProfileLoop(s1, source.value.profiles, 0) else s1;
    if source.Some? {
      if lane.Profiles? { ProfileLoopHolds(s1, source.value.profiles, 0); }
      else { ProfileLoopSilent(s1, source.value.profiles, 0, lane, words); }
    }
    var s3 := Write(s2, SealProfiles, "ProfileRegistry", "seal", []);
    WriteHolds(s2, SealProfiles, "ProfileRegistry", "seal", [], lane, words);
    DeployHolds(cfg, s3, "PrivateDataStore", "PrivateDataStore", [], lane, words);
    var s4 := Deploy(cfg, s3, "PrivateDataStore", "PrivateDataStore", []);
    WriteHolds(s4, SealLobby, "IndependentLobby", "seal", [], lane, words);
  }

  lemma PlanHolds(cfg: Config, m: Manifest, lane: Lane)
    ensures Holds(PlanScript(cfg, m), lane, All(m.source, lane))
  {
    CoreHolds(cfg, m, lane);
    SeedAllHolds(Core(cfg, m), m.source, lane);
    var seeded, words := SeedAll(Core(cfg, m), m.source), Seeded(m.source, lane);
    ArenasHold(cfg, seeded, m.source, lane, words);
    MarketsHold(cfg, Arenas(cfg, seeded, m.source), lane, words);
    ClosingHolds(cfg, Markets(cfg, Arenas(cfg, seeded, m.source)), m.source, lane);
  }

  // ---- the rows of one mode in the snapshot

  lemma {:induction false} OfModeNext(r: Rating, rest: seq<Rating>, mode: nat)
    ensures OfMode([r] + rest, mode) == (if r.mode == mode then [r] else []) + OfMode(rest, mode)
  {
    assert ([r] + rest)[1..] == rest;
  }

  lemma {:induction false} OfModeAppend(a: seq<Rating>, b: seq<Rating>, mode: nat)
    ensures OfMode(a + b, mode) == OfMode(a, mode) + OfMode(b, mode)
  {
    if a == [] {
      assert a + b == b;
    } else {
      var r, rest := a[0], a[1..];
      OfModeAppend(rest, b, mode);
      OfModeNext(r, rest, mode);
      OfModeNext(r, rest + b, mode);
      assert a == [r] + rest && a + b == [r] + (rest + b);
    }
  }

  function Found(all: seq<Rating>, mode: nat): (at: seq<nat>)
    ensures forall k :: 0 <= k < |at| ==> at[k] < |all| && all[at[k]].mode == mode
  {
    if all == [] then [] else
    var n := |all| - 1;
    Found(all[..n], mode) + (if all[n].mode == mode then [n] else [])
  }

  /** They are all its places, in order, */
  lemma {:induction false} FoundPlaces(all: seq<Rating>, mode: nat)
    ensures Places(all, mode, Found(all, mode))
  {
    if all != [] {
      var n := |all| - 1;
      FoundPlaces(all[..n], mode);
      forall i: nat | i < |all| && all[i].mode == mode ensures i in Found(all, mode) {
        if i < n { assert all[..n][i].mode == mode; }
      }
    }
  }

  /** and what stands there are its rows. */
  lemma {:induction false} OfModeFound(all: seq<Rating>, mode: nat)
    ensures |OfMode(all, mode)| == |Found(all, mode)|
    ensures forall k :: 0 <= k < |Found(all, mode)| ==> OfMode(all, mode)[k] == all[Found(all, mode)[k]]
  {
    if all != [] {
      var n := |all| - 1;
      OfModeFound(all[..n], mode);
      OfModeAppend(all[..n], [all[n]], mode);
      assert all[..n] + [all[n]] == all;
      assert OfMode([all[n]], mode) == if all[n].mode == mode then [all[n]] else [];
    }
  }

  lemma RatingsAre(all: seq<Rating>, mode: nat)
    ensures exists at :: AreRatings(Flatten(RatingTable(OfMode(all, mode))), all, mode, at)
  {
    var at := Found(all, mode);
    FoundPlaces(all, mode);
    OfModeFound(all, mode);
    FlattenFives(RatingTable(OfMode(all, mode)));
    assert AreRatings(Flatten(RatingTable(OfMode(all, mode))), all, mode, at);
  }

  lemma RowsAre(ops: seq<Template>, snap: Snapshot)
    requires Carried(ops, Ratings(0)) == All(Some(snap), Ratings(0)) && Carried(ops, Ratings(1)) == All(Some(snap), Ratings(1))
    requires Carried(ops, Pairs) == All(Some(snap), Pairs) && Carried(ops, Profiles) == All(Some(snap), Profiles)
    ensures exists at :: AreRatings(Carried(ops, Ratings(0)), snap.ratings, 0, at)
    ensures exists at :: AreRatings(Carried(ops, Ratings(1)), snap.ratings, 1, at)
    ensures ArePairs(Carried(ops, Pairs), snap.pairSeeds) && AreProfiles(Carried(ops, Profiles), snap.profiles)
  {
    RatingsAre(snap.ratings, 0);
    RatingsAre(snap.ratings, 1);
    FlattenTwos(PairTable(snap.pairSeeds));
    FlattenTwos(ProfileTable(snap.profiles));
  }

  lemma NothingElse(cfg: Config, m: Manifest)
    ensures forall mode: nat :: mode >= 2 || m.source.None? ==> Carried(Plan(cfg, m), Ratings(mode)) == []
  {
    forall mode: nat | mode >= 2 || m.source.None? ensures Carried(Plan(cfg, m), Ratings(mode)) == [] {
      PlanHolds(cfg, m, Ratings(mode));
    }
  }

  lemma AllCut(cfg: Config, m: Manifest)
    ensures forall lane: Lane :: Cut(Plan(cfg, m), lane)
  {
    forall lane: Lane ensures Cut(Plan(cfg, m), lane) { PlanHolds(cfg, m, lane); }
  }

  lemma SourceCarried(cfg: Config, m: Manifest)
    ensures m.source.None? ==> Carried(Plan(cfg, m), Pairs) == [] && Carried(Plan(cfg, m), Profiles) == []
    ensures m.source.Some? ==>
      && (exists at :: AreRatings(Carried(Plan(cfg, m), Ratings(0)), m.source.value.ratings, 0, at))
      && (exists at :: AreRatings(Carried(Plan(cfg, m), Ratings(1)), m.source.value.ratings, 1, at))
      && ArePairs(Carried(Plan(cfg, m), Pairs), m.source.value.pairSeeds)
      && AreProfiles(Carried(Plan(cfg, m), Profiles), m.source.value.profiles)
  {
    PlanHolds(cfg, m, Ratings(0));
    PlanHolds(cfg, m, Ratings(1));
    PlanHolds(cfg, m, Pairs);
    PlanHolds(cfg, m, Profiles);
    if m.source.Some? { RowsAre(Plan(cfg, m), m.source.value); }
  }

  /** For every manifest, the script migrates its snapshot. */
  lemma PlanMigrates(cfg: Config, m: Manifest)
    ensures Migrates(Plan(cfg, m), m.source)
  {
    AllCut(cfg, m);
    NothingElse(cfg, m);
    SourceCarried(cfg, m);
  }
}
