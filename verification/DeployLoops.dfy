/** The deployment script as it is written: one pass, with loops over the chunks of the migrated
    data. It issues the operations of the plan, and the chunks leave nothing out. */
module DeployLoops {
  import opened DeployScript
  import opened DeployContent
  import opened DeployMeaning

  method SeedRatings(s: Script, rows: seq<Rating>, mode: nat) returns (t: Script)
    ensures t == SeedLoop(s, rows, mode, 0)
  {
    t := s;
    var i := 0;
    while i < |rows|
      invariant SeedLoop(t, rows, mode, i) == SeedLoop(s, rows, mode, 0)
    {
      t := Write(t, SeedMode(mode, i), "PublishedRatings", "seed", SeedArgs(Slice(rows, i, 100), mode));
      i := i + 100;
    }
  }

  method SeedRepeats(s: Script, rows: seq<PairSeed>) returns (t: Script)
    ensures t == RepeatLoop(s, rows, 0)
  {
    t := s;
    var i := 0;
    while i < |rows|
      invariant RepeatLoop(t, rows, i) == RepeatLoop(s, rows, 0)
    {
      t := Write(t, SeedRepeat(i), "PublishedRatings", "seedPairCounts", PairArgs(Slice(rows, i, 100)));
      i := i + 100;
    }
  }

  method ReserveAll(s: Script, rows: seq<Profile>) returns (t: Script)
    ensures t == ProfileLoop(s, rows, 0)
  {
    t := s;
    var i := 0;
    while i < |rows|
      invariant ProfileLoop(t, rows, i) == ProfileLoop(s, rows, 0)
    {
      t := Write(t, ReserveProfiles(i), "ProfileRegistry", "reserve", ProfileArgs(Slice(rows, i, 32)));
      i := i + 32;
    }
  }

  method OpenArenas(cfg: Config, s: Script) returns (t: Script)
    ensures t == Arena(cfg, Arena(cfg, Arena(cfg, s, 0), 1), 2)
  {
    t := s;
    for i := 0 to 3
      invariant i == 0 ==> t == s
      invariant i == 1 ==> t == Arena(cfg, s, 0)
      invariant i == 2 ==> t == Arena(cfg, Arena(cfg, s, 0), 1)
      invariant i == 3 ==> t == Arena(cfg, Arena(cfg, Arena(cfg, s, 0), 1), 2)
    {
      t := Arena(cfg, t, i);
    }
  }

  /** The whole pass. What it issues carries each row of the snapshot, under its own mode, and creates,
      connects, registers and seals what the source does. */
  method Issue(cfg: Config, m: Manifest) returns (ops: seq<Template>)
    ensures ops == Plan(cfg, m)
    ensures Migrates(ops, m.source)
    ensures LinksOk(cfg) ==> Deploys(cfg, m, ops)
  {
    PlanMigrates(cfg, m);
    if LinksOk(cfg) { PlanDeploys(cfg, m); }
    var s := Core(cfg, m);
    if m.source.Some? {
      for mode := 0 to 2
        invariant mode == 0 ==> s == Core(cfg, m)
        invariant mode == 1 ==> s == SeedLoop(Core(cfg, m), OfMode(m.source.value.ratings, 0), 0, 0)
        invariant mode == 2 ==> RepeatLoop(s, m.source.value.pairSeeds, 0) == SeedAll(Core(cfg, m), m.source)
      {
        s := SeedRatings(s, OfMode(m.source.value.ratings, mode), mode);
      }
      s := SeedRepeats(s, m.source.value.pairSeeds);
    }
    s := Write(s, SealMigration, "PublishedRatings", "sealMigration", [Here(MigrationHash(cfg, m.source))]);
    s := OpenArenas(cfg, s);
    s := Markets(cfg, s);
    s := Deploy(cfg, s, "ProfileRegistry", "ProfileRegistry", [Me(cfg)]);
    if m.source.Some? { s := ReserveAll(s, m.source.value.profiles); }
    s := Write(s, SealProfiles, "ProfileRegistry", "seal", []);
    s := Deploy(cfg, s, "PrivateDataStore", "PrivateDataStore", []);
    s := Write(s, SealLobby, "IndependentLobby", "seal", []);
    ops := s.ops;
  }

  // ---- the chunks

  function Chunks<T>(rows: seq<T>, i: nat, size: nat): seq<seq<T>>
    requires size > 0
    decreases |rows| - i
  {
    if i >= |rows| then [] else [Slice(rows, i, size)] + Chunks(rows, i + size, size)
  }

  function Join<T>(chunks: seq<seq<T>>): seq<T> {
    if chunks == [] then [] else chunks[0] + Join(chunks[1..])
  }

  /** The chunks are the rows: every row is in one of them, once, and in order. */
  lemma {:induction false} ChunksPartition<T>(rows: seq<T>, i: nat, size: nat)
    requires size > 0 && i <= |rows|
    ensures Join(Chunks(rows, i, size)) == rows[i..]
    decreases |rows| - i
  {
    if i < |rows| {
      if i + size <= |rows| { ChunksPartition(rows, i + size, size); }
      assert Slice(rows, i, size) + (if i + size <= |rows| then rows[i + size..] else []) == rows[i..];
    }
  }

  /** Behind `start` operations, `ops` has one for every chunk, which carries it. */
  ghost predicate Carries<T>(ops: seq<Template>, start: nat, chunks: seq<seq<T>>, args: seq<T> -> seq<Ref>) {
    |ops| == start + |chunks| && forall c :: 0 <= c < |chunks| ==> ops[start + c].args == args(chunks[c])
  }

  lemma CarriesNext<T>(ops: seq<Template>, start: nat, first: seq<T>, rest: seq<seq<T>>, args: seq<T> -> seq<Ref>)
    requires start < |ops| && ops[start].args == args(first) && Carries(ops, start + 1, rest, args)
    ensures Carries(ops, start, [first] + rest, args)
  {
    forall c | 0 <= c < |[first] + rest| ensures ops[start + c].args == args(([first] + rest)[c]) {
      if c > 0 { assert ops[start + c].args == ops[start + 1 + (c - 1)].args; }
    }
  }

  /** The loop over one mode's ratings adds the operations that carry them, and no others. */
  lemma {:induction false} SeedLoopCarries(s: Script, rows: seq<Rating>, mode: nat, i: nat)
    ensures s.ops <= SeedLoop(s, rows, mode, i).ops
    ensures Carries(SeedLoop(s, rows, mode, i).ops, |s.ops|, Chunks(rows, i, 100), chunk => SeedArgs(chunk, mode))
    decreases |rows| - i
  {
    if i < |rows| {
      var t := Write(s, SeedMode(mode, i), "PublishedRatings", "seed", SeedArgs(Slice(rows, i, 100), mode));
      SeedLoopCarries(t, rows, mode, i + 100);
      assert t.ops[|s.ops|] == SeedLoop(t, rows, mode, i + 100).ops[|s.ops|];
      CarriesNext(SeedLoop(t, rows, mode, i + 100).ops, |s.ops|, Slice(rows, i, 100), Chunks(rows, i + 100, 100),
                  chunk => SeedArgs(chunk, mode));
    }
  }

  /** The same for the pair counts, */
  lemma {:induction false} RepeatLoopCarries(s: Script, rows: seq<PairSeed>, i: nat)
    ensures s.ops <= RepeatLoop(s, rows, i).ops
    ensures Carries(RepeatLoop(s, rows, i).ops, |s.ops|, Chunks(rows, i, 100), PairArgs)
    decreases |rows| - i
  {
    if i < |rows| {
      var t := Write(s, SeedRepeat(i), "PublishedRatings", "seedPairCounts", PairArgs(Slice(rows, i, 100)));
      RepeatLoopCarries(t, rows, i + 100);
      assert t.ops[|s.ops|] == RepeatLoop(t, rows, i + 100).ops[|s.ops|];
      CarriesNext(RepeatLoop(t, rows, i + 100).ops, |s.ops|, Slice(rows, i, 100), Chunks(rows, i + 100, 100), PairArgs);
    }
  }

  /** and for the profiles, 32 at a time. */
  lemma {:induction false} ProfileLoopCarries(s: Script, rows: seq<Profile>, i: nat)
    ensures s.ops <= ProfileLoop(s, rows, i).ops
    ensures Carries(ProfileLoop(s, rows, i).ops, |s.ops|, Chunks(rows, i, 32), ProfileArgs)
    decreases |rows| - i
  {
    if i < |rows| {
      var t := Write(s, ReserveProfiles(i), "ProfileRegistry", "reserve", ProfileArgs(Slice(rows, i, 32)));
      ProfileLoopCarries(t, rows, i + 32);
      assert t.ops[|s.ops|] == ProfileLoop(t, rows, i + 32).ops[|s.ops|];
      CarriesNext(ProfileLoop(t, rows, i + 32).ops, |s.ops|, Slice(rows, i, 32), Chunks(rows, i + 32, 32), ProfileArgs);
    }
  }
}
