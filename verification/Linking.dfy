/** Deploying a contract with its libraries: each library goes out first, and its address is
    written over the placeholders in the bytecode. */
module Linking {
  import opened Options
  import opened Patching

  datatype Library = Library(name: string, refs: seq<Reference>)

  datatype Artifact = Artifact(code: string, runtime: string, libs: seq<Library>)

  datatype Entry = Entry(instance: string, name: string, args: seq<string>, code: string)

  const LIMIT := 24576

  /** The address in lower case, without 0x. */
  function Bare(address: string): string
    requires |address| == 42
  {
    Lower(address[2..])
  }

  /** `lands` says at which address the deployment of an instance ends. */
  ghost predicate AreAddresses(lands: string -> string) {
    forall x :: |lands(x)| == 42 && forall i :: 2 <= i < 42 ==> HexDigit(lands(x)[i])
  }

  ghost function LibPatches(lib: Library, lands: string -> string): (r: seq<Patch>)
    requires AreAddresses(lands)
    ensures |r| == |lib.refs|
    ensures forall k :: 0 <= k < |r| ==> r[k] == Patch(2 + lib.refs[k].start * 2, Bare(lands(lib.name)))
  {
    seq(|lib.refs|, k requires 0 <= k < |lib.refs| => Patch(2 + lib.refs[k].start * 2, Bare(lands(lib.name))))
  }

  ghost function Patches(libs: seq<Library>, lands: string -> string): seq<Patch>
    requires AreAddresses(lands)
  {
    if libs == [] then [] else Patches(libs[..|libs| - 1], lands) + LibPatches(libs[|libs| - 1], lands)
  }

  /** Placeholders inside the code that do not overlap, as the compiler writes them. */
  ghost predicate WellFormed(a: Artifact) {
    && (forall i, k :: 0 <= i < |a.libs| && 0 <= k < |a.libs[i].refs| ==> 42 + a.libs[i].refs[k].start * 2 <= |a.code|)
    && (forall i, j, k, m ::
          0 <= i < |a.libs| && 0 <= j < |a.libs| && 0 <= k < |a.libs[i].refs| && 0 <= m < |a.libs[j].refs| && (i != j || k != m) ==>
          Apart(a.libs[i].refs[k], a.libs[j].refs[m]))
  }

  predicate Apart(r: Reference, s: Reference) { r.start + 20 <= s.start || s.start + 20 <= r.start }

  /** The library graph has no cycles: `rank` falls along every edge. */
  ghost predicate Acyclic(arts: map<string, Artifact>, rank: string -> nat) {
    forall name, i :: name in arts && 0 <= i < |arts[name].libs| ==> rank(arts[name].libs[i].name) < rank(name)
  }

  predicate IsHex(code: string) {
    |code| > 2 && code[0] == '0' && code[1] in "xX" && forall i :: 2 <= i < |code| ==> HexDigit(code[i])
  }

  ghost function Linked(a: Artifact, lands: string -> string): (r: string)
    requires AreAddresses(lands) && WellFormed(a)
    ensures |r| == |a.code|
  {
    PatchesInRange(a, |a.libs|, lands);
    assert a.libs[..|a.libs|] == a.libs;
    Apply(a.code, Patches(a.libs, lands))
  }

  lemma {:induction false} PatchesInRange(a: Artifact, n: nat, lands: string -> string)
    requires AreAddresses(lands) && WellFormed(a) && n <= |a.libs|
    ensures InRange(Patches(a.libs[..n], lands), |a.code|)
  {
    if n > 0 {
      PatchesInRange(a, n - 1, lands);
      assert a.libs[..n][..n - 1] == a.libs[..n - 1];
    }
  }

  // ---- the operator's deployments

  ghost predicate Out(log: seq<Entry>, x: string) {
    exists i :: 0 <= i < |log| && log[i].instance == x
  }

  /** Entry `k` is linked and checked, and its libraries went out before it. */
  ghost predicate EntryOk(arts: map<string, Artifact>, lands: string -> string, log: seq<Entry>, k: nat)
    requires k < |log| && AreAddresses(lands)
  {
    var e := log[k];
    && e.name in arts && WellFormed(arts[e.name]) && e.code == Linked(arts[e.name], lands) && IsHex(e.code)
    && forall i :: 0 <= i < |arts[e.name].libs| ==> Out(log[..k], arts[e.name].libs[i].name)
  }

  /** Every instance went out once, linked to its libraries, all of which went out before it. */
  ghost predicate Ok(arts: map<string, Artifact>, lands: string -> string, deployed: map<string, string>, log: seq<Entry>) {
    && AreAddresses(lands) && (forall name :: name in arts ==> WellFormed(arts[name]))
    && (forall i, j :: 0 <= i < j < |log| ==> log[i].instance != log[j].instance)
    && (forall x :: x in deployed <==> Out(log, x))
    && (forall x :: x in deployed ==> deployed[x] == lands(x))
    && (forall k: nat :: k < |log| ==> EntryOk(arts, lands, log, k))
  }

  lemma OutAppend(log: seq<Entry>, e: Entry, x: string)
    ensures Out(log + [e], x) <==> Out(log, x) || x == e.instance
  {
    if Out(log, x) {
      var i :| 0 <= i < |log| && log[i].instance == x;
      assert (log + [e])[i].instance == x;
    }
    if x == e.instance { assert (log + [e])[|log|].instance == x; }
  }

  lemma AppendOk(arts: map<string, Artifact>, lands: string -> string, deployed: map<string, string>, log: seq<Entry>, e: Entry)
    requires Ok(arts, lands, deployed, log) && e.instance !in deployed
    requires e.name in arts && e.code == Linked(arts[e.name], lands) && IsHex(e.code)
    requires forall i :: 0 <= i < |arts[e.name].libs| ==> arts[e.name].libs[i].name in deployed
    ensures Ok(arts, lands, deployed[e.instance := lands(e.instance)], log + [e])
  {
    var next := log + [e];
    forall x ensures Out(next, x) <==> Out(log, x) || x == e.instance { OutAppend(log, e, x); }
    forall k: nat | k < |next| ensures EntryOk(arts, lands, next, k) {
      if k < |log| {
        assert EntryOk(arts, lands, log, k) && next[..k] == log[..k];
      } else {
        assert next[..k] == log;
      }
    }
    forall i, j | 0 <= i < j < |next| ensures next[i].instance != next[j].instance {
      if j == |log| { assert Out(log, log[i].instance); }
    }
  }

  // ---- when a deployment gets through

  /** Every placeholder of the library has the length of an address. */
  predicate AllTwenty(lib: Library) { forall k :: 0 <= k < |lib.refs| ==> lib.refs[k].length == 20 }

  predicate WithinLimit(a: Artifact) { (|a.runtime| - 2) / 2 <= 24576 }

  /** The artifacts, the address at which each submission ends, and the instances whose submission throws. */
  datatype Site = Site(arts: map<string, Artifact>, lands: string -> string, failing: set<string>)

  ghost predicate Settled(s: Site, rank: string -> nat) {
    AreAddresses(s.lands) && (forall name :: name in s.arts ==> WellFormed(s.arts[name])) && Acyclic(s.arts, rank)
  }

  /** With `out` deployed already, all that a deployment of library `name` needs is in order: its
      artifact is known and not too large, its own libraries are out or can go out, all placeholders
      have the right length, the linked code is hexadecimal, and the submission does not throw. */
  ghost predicate Builds(s: Site, rank: string -> nat, out: set<string>, name: string)
    requires Settled(s, rank)
    decreases rank(name)
  {
    && name in s.arts && WithinLimit(s.arts[name])
    && (forall i :: 0 <= i < |s.arts[name].libs| ==>
          AllTwenty(s.arts[name].libs[i]) && var lib := s.arts[name].libs[i].name; lib in out || Builds(s, rank, out, lib))
    && IsHex(Linked(s.arts[name], s.lands)) && name !in s.failing
  }

  ghost predicate Available(s: Site, rank: string -> nat, out: set<string>, lib: string)
    requires Settled(s, rank)
  {
    lib in out || Builds(s, rank, out, lib)
  }

  /** The libraries can be deployed and linked. */
  ghost predicate LibrariesBuild(s: Site, rank: string -> nat, out: set<string>, libs: seq<Library>)
    requires Settled(s, rank)
  {
    forall i :: 0 <= i < |libs| ==> AllTwenty(libs[i]) && Available(s, rank, out, libs[i].name)
  }

  /** `more` has nothing beyond `out` that could not be deployed from there. */
  ghost predicate Earned(s: Site, rank: string -> nat, out: set<string>, more: set<string>)
    requires Settled(s, rank)
  {
    out <= more && forall x :: x in more && x !in out ==> Builds(s, rank, out, x)
  }

  /** Deploying what can be deployed makes nothing else possible, nor impossible. */
  lemma {:induction false} SameBuilds(s: Site, rank: string -> nat, out: set<string>, more: set<string>, name: string)
    requires Settled(s, rank) && Earned(s, rank, out, more)
    ensures Builds(s, rank, more, name) <==> Builds(s, rank, out, name)
    decreases rank(name)
  {
    if name in s.arts {
      forall i | 0 <= i < |s.arts[name].libs|
        ensures var lib := s.arts[name].libs[i].name; Available(s, rank, more, lib) <==> Available(s, rank, out, lib) {
        SameBuilds(s, rank, out, more, s.arts[name].libs[i].name);
      }
    }
  }

  lemma EarnedMore(s: Site, rank: string -> nat, out: set<string>, more: set<string>, most: set<string>)
    requires Settled(s, rank) && Earned(s, rank, out, more) && Earned(s, rank, more, most)
    ensures Earned(s, rank, out, most)
  {
    forall x | x in most && x !in out ensures Builds(s, rank, out, x) { SameBuilds(s, rank, out, more, x); }
  }

  // ---- in which order

  ghost predicate RanksBelow(rank: string -> nat, libs: seq<Library>, bound: nat) {
    forall i :: 0 <= i < |libs| ==> rank(libs[i].name) < bound
  }

  ghost function Names(xs: seq<string>): set<string> { set x | x in xs }

  /** The instances that a deployment adds to those that are out: depth first, each library once,
      the instance itself last. */
  ghost function Order(s: Site, rank: string -> nat, out: set<string>, name: string, instance: string): seq<string>
    requires Settled(s, rank)
    decreases rank(name), 1, 0
  {
    if instance in out || name !in s.arts then [] else
    var libs := OrderAll(s, rank, out, rank(name), s.arts[name].libs);
    if instance in libs then libs else libs + [instance]
  }

  ghost function OrderAll(s: Site, rank: string -> nat, out: set<string>, bound: nat, libs: seq<Library>): seq<string>
    requires Settled(s, rank) && RanksBelow(rank, libs, bound)
    decreases bound, 0, |libs|
  {
    if libs == [] then [] else
    var before := OrderAll(s, rank, out, bound, libs[..|libs| - 1]);
    var lib := libs[|libs| - 1].name;
    before + Order(s, rank, out + Names(before), lib, lib)
  }

  /** The libraries that a deployment of `name` brings out first. */
  ghost function Brought(s: Site, rank: string -> nat, out: set<string>, name: string): seq<string>
    requires Settled(s, rank) && name in s.arts
  {
    OrderAll(s, rank, out, rank(name), s.arts[name].libs)
  }

  lemma {:induction false} OrderRanks(s: Site, rank: string -> nat, out: set<string>, bound: nat, libs: seq<Library>)
    requires Settled(s, rank) && RanksBelow(rank, libs, bound)
    ensures forall x :: x in OrderAll(s, rank, out, bound, libs) ==> rank(x) < bound
    decreases bound, |libs|
  {
    if libs != [] {
      var (rest, lib) := (libs[..|libs| - 1], libs[|libs| - 1].name);
      OrderRanks(s, rank, out, bound, rest);
      var more := out + Names(OrderAll(s, rank, out, bound, rest));
      if lib in s.arts { OrderRanks(s, rank, more, rank(lib), s.arts[lib].libs); }
    }
  }

  /** A library is none of its own libraries. */
  lemma NotBrought(s: Site, rank: string -> nat, out: set<string>, name: string)
    requires Settled(s, rank) && name in s.arts
    ensures name !in Brought(s, rank, out, name)
  {
    OrderRanks(s, rank, out, rank(name), s.arts[name].libs);
  }

  /** A deployment of `instance` from artifact `name` gets through. If the instance has just gone
      out as one of the artifact's own libraries, its journal key is taken, and the call gets
      through only with the same payload. */
  ghost predicate GetsThrough(s: Site, rank: string -> nat, out: set<string>, name: string, instance: string, args: seq<string>)
    requires Settled(s, rank)
  {
    && name in s.arts && WithinLimit(s.arts[name]) && LibrariesBuild(s, rank, out, s.arts[name].libs)
    && IsHex(Linked(s.arts[name], s.lands))
    && if instance in Brought(s, rank, out, name)
       then args == [] && instance in s.arts && Linked(s.arts[instance], s.lands) == Linked(s.arts[name], s.lands)
       else instance !in s.failing
  }

  /** For a library that is simply `Builds`. */
  lemma LibraryGetsThrough(s: Site, rank: string -> nat, out: set<string>, name: string)
    requires Settled(s, rank)
    ensures GetsThrough(s, rank, out, name, name, []) <==> Builds(s, rank, out, name)
  {
    if name in s.arts { NotBrought(s, rank, out, name); }
  }

  function Instances(log: seq<Entry>): (r: seq<string>)
    ensures |r| == |log| && forall i :: 0 <= i < |log| ==> r[i] == log[i].instance
  {
    seq(|log|, i requires 0 <= i < |log| => log[i].instance)
  }

  /** The memo knows exactly the logged instances. */
  lemma KeysFollow(arts: map<string, Artifact>, lands: string -> string, d0: map<string, string>, l0: seq<Entry>,
                   d: map<string, string>, l: seq<Entry>, added: seq<string>)
    requires Ok(arts, lands, d0, l0) && Ok(arts, lands, d, l) && Instances(l) == Instances(l0) + added
    ensures d.Keys == d0.Keys + Names(added)
  {
    forall x ensures x in d <==> x in d0 || x in Names(added) {
      assert Out(l, x) <==> x in Instances(l) by { OutInstances(l, x); }
      assert Out(l0, x) <==> x in Instances(l0) by { OutInstances(l0, x); }
    }
  }

  lemma OutInstances(l: seq<Entry>, x: string)
    ensures Out(l, x) <==> x in Instances(l)
  {
    if Out(l, x) {
      var i :| 0 <= i < |l| && l[i].instance == x;
      assert Instances(l)[i] == x;
    }
  }

  /** What libraries add to the log: entries under their own names, without arguments. */
  ghost predicate Plain(l: seq<Entry>, l': seq<Entry>) {
    l <= l' && forall k :: |l| <= k < |l'| ==> l'[k].name == l'[k].instance && l'[k].args == []
  }

  class Deployer {
    const arts: map<string, Artifact>
    const lands: string -> string
    const failing: set<string>
    var deployed: map<string, string>
    var log: seq<Entry>

    constructor (arts: map<string, Artifact>, lands: string -> string, failing: set<string>)
      requires AreAddresses(lands) && forall name :: name in arts ==> WellFormed(arts[name])
      ensures Valid() && log == [] && deployed == map[] && Here() == Site(arts, lands, failing)
    {
      this.arts, this.lands, this.failing := arts, lands, failing;
      deployed, log := map[], [];
    }

    ghost predicate Valid()
      reads this
    {
      Ok(arts, lands, deployed, log)
    }

    function Here(): Site { Site(arts, lands, failing) }

    /** The journaled submission. Under a key that is taken it gets through only with the same
        payload; under a new one it throws, or ends at the instance's address. */
    method Submit(e: Entry) returns (r: Option<string>)
      requires Valid() && e.name in arts && e.code == Linked(arts[e.name], lands) && IsHex(e.code)
      requires AllOut(arts[e.name].libs, |arts[e.name].libs|, deployed)
      modifies this
      ensures Valid()
      ensures e.instance in old(deployed) ==>
        && log == old(log) && deployed == old(deployed)
        && (r.Some? <==> SamePayload(log, e)) && (r.Some? ==> r.value == deployed[e.instance])
      ensures e.instance !in old(deployed) ==> (r.None? <==> e.instance in failing)
      ensures e.instance !in old(deployed) && r.None? ==> log == old(log) && deployed == old(deployed)
      ensures e.instance !in old(deployed) && r.Some? ==>
        log == old(log) + [e] && deployed == old(deployed)[e.instance := r.value]
    {
      if e.instance in deployed {
        for k := 0 to |log|
          invariant forall j :: 0 <= j < k ==>
            !(log[j].instance == e.instance && log[j].code == e.code && log[j].args == e.args)
        {
          if log[k].instance == e.instance && log[k].code == e.code && log[k].args == e.args {
            return Some(deployed[e.instance]);
          }
        }
        return None;
      }
      if e.instance in failing { return None; }
      AppendOk(arts, lands, deployed, log, e);
      log := log + [e];
      deployed := deployed[e.instance := lands(e.instance)];
      r := Some(lands(e.instance));
    }

    /** Writes the address over every placeholder of one library, unless one has another length. */
    method LinkLibrary(code: string, lib: Library, address: string, ghost a: Artifact, ghost done: seq<Patch>)
      returns (r: Option<string>)
      requires AreAddresses(lands) && WellFormed(a) && lib in a.libs && address == lands(lib.name)
      requires InRange(done, |a.code|) && code == Apply(a.code, done)
      ensures r.Some? <==> AllTwenty(lib)
      ensures r.Some? ==>
        InRange(done + LibPatches(lib, lands), |a.code|) && r.value == Apply(a.code, done + LibPatches(lib, lands))
    {
      var next := code;
      ghost var ps := LibPatches(lib, lands);
      assert done + ps[..0] == done;
      for k := 0 to |lib.refs|
        invariant InRange(done + ps[..k], |a.code|) && next == Apply(a.code, done + ps[..k])
        invariant forall j :: 0 <= j < k ==> lib.refs[j].length == 20
      {
        if lib.refs[k].length != 20 { return None; }
        var at := 2 + lib.refs[k].start * 2;
        LibNext(a, done, lib, lands, k);
        next := next[..at] + Bare(address) + next[at + 40..];
      }
      assert ps[..|lib.refs|] == ps;
      r := Some(next);
    }

    /** One library: deployed if it is not yet, then linked. */
    method DeployAndLink(name: string, i: nat, code: string, ghost rank: string -> nat) returns (r: Option<string>)
      requires Valid() && Acyclic(arts, rank) && name in arts && i < |arts[name].libs|
      requires PartlyLinked(arts[name], i, lands, code)
      modifies this
      ensures Valid()
      ensures OneMore(Here(), rank, arts[name].libs[i].name, old(deployed), old(log), deployed, log, r.Some?)
      ensures r.Some? <==> AllTwenty(arts[name].libs[i]) && Available(Here(), rank, old(deployed).Keys, arts[name].libs[i].name)
      ensures r.Some? ==> arts[name].libs[i].name in deployed && PartlyLinked(arts[name], i + 1, lands, r.value)
      decreases rank(name), 0
    {
      var a := arts[name];
      LibraryGetsThrough(Here(), rank, deployed.Keys, a.libs[i].name);
      var address := Deploy(a.libs[i].name, [], a.libs[i].name, rank);
      if address.None? { return None; }
      r := LinkLibrary(code, a.libs[i], address.value, a, Patches(a.libs[..i], lands));
      PatchesNext(a.libs, i, lands);
    }

    /** The loop over the libraries. */
    method DeployLibraries(name: string, ghost rank: string -> nat) returns (r: Option<string>)
      requires Valid() && Acyclic(arts, rank) && name in arts
      modifies this
      ensures Valid() && Plain(old(log), log) && Earned(Here(), rank, old(deployed).Keys, deployed.Keys)
      ensures r.Some? <==> LibrariesBuild(Here(), rank, old(deployed).Keys, arts[name].libs)
      ensures r.Some? ==> r.value == Linked(arts[name], lands) && AllOut(arts[name].libs, |arts[name].libs|, deployed)
      ensures r.Some? ==> Instances(log) == Instances(old(log)) + Brought(Here(), rank, old(deployed).Keys, name)
      decreases rank(name), 1
    {
      ghost var (d0, l0) := (deployed, log);
      var code := arts[name].code;
      for i := 0 to |arts[name].libs|
        invariant Valid() && Midway(Here(), rank, name, i, code, d0, l0, deployed, log)
      {
        ghost var (d, l) := (deployed, log);
        var linked := DeployAndLink(name, i, code, rank);
        if linked.None? {
          MidwayStops(Here(), rank, name, i, code, d0, l0, d, l, deployed, log);
          return None;
        }
        MidwayNext(Here(), rank, name, i, code, d0, l0, d, l, deployed, log, linked.value);
        code := linked.value;
      }
      assert arts[name].libs[..|arts[name].libs|] == arts[name].libs;
      FullyLinked(arts[name], lands, code);
      r := Some(code);
    }

    /** Gets through exactly when everything it needs is in order, and then has added the
        libraries that were missing, depth first, and the instance last. */
    method Deploy(name: string, args: seq<string>, instance: string, ghost rank: string -> nat) returns (r: Option<string>)
      requires Valid() && Acyclic(arts, rank)
      modifies this
      ensures Valid() && old(log) <= log
      ensures name == instance ==> Earned(Here(), rank, old(deployed).Keys, deployed.Keys)
      ensures name == instance && args == [] ==> Plain(old(log), log)
      ensures r.Some? <==> instance in old(deployed) || GetsThrough(Here(), rank, old(deployed).Keys, name, instance, args)
      ensures r.Some? ==> instance in deployed && r.value == deployed[instance]
      ensures r.Some? ==> Instances(log) == Instances(old(log)) + Order(Here(), rank, old(deployed).Keys, name, instance)
      ensures r.Some? && instance !in old(deployed) && instance !in Brought(Here(), rank, old(deployed).Keys, name) ==>
        log != [] && log[|log| - 1] == Entry(instance, name, args, Linked(arts[name], lands))
      decreases rank(name), 2
    {
      if instance in deployed { return Some(deployed[instance]); }
      if name !in arts { return None; }
      if (|arts[name].runtime| - 2) / 2 > LIMIT { return None; }
      ghost var (d0, l0) := (deployed, log);
      var code := DeployLibraries(name, rank);
      if code.None? || !IsHex(code.value) { return None; }
      ghost var (d, l) := (deployed, log);
      r := DeployLinked(name, args, instance, code.value, rank, d0, l0);
      if name == instance { LibraryEarned(Here(), rank, d0.Keys, d.Keys, deployed.Keys, name, args, l0, l, log, r.Some?); }
    }

    /** The submission, once the libraries are out. */
    method DeployLinked(name: string, args: seq<string>, instance: string, code: string, ghost rank: string -> nat,
                        ghost d0: map<string, string>, ghost l0: seq<Entry>)
      returns (r: Option<string>)
      requires Valid() && Acyclic(arts, rank) && name in arts && code == Linked(arts[name], lands) && IsHex(code)
      requires Ok(arts, lands, d0, l0) && Plain(l0, log) && instance !in d0
      requires AllOut(arts[name].libs, |arts[name].libs|, deployed)
      requires Instances(log) == Instances(l0) + Brought(Here(), rank, d0.Keys, name)
      modifies this
      ensures Valid() && old(log) <= log && old(deployed).Keys <= deployed.Keys <= old(deployed).Keys + {instance}
      ensures instance in deployed ==> instance in old(deployed) || r.Some?
      ensures var taken := instance in Brought(Here(), rank, d0.Keys, name);
        && (r.Some? <==> if taken
             then args == [] && instance in arts && Linked(arts[instance], lands) == code
             else instance !in failing)
        && (r.Some? && !taken ==> log == old(log) + [Entry(instance, name, args, code)])
        && (r.None? || taken ==> log == old(log))
      ensures r.Some? ==> instance in deployed && r.value == deployed[instance]
      ensures r.Some? ==> Instances(log) == Instances(l0) + Order(Here(), rank, d0.Keys, name, instance)
    {
      ghost var (d, l) := (deployed, log);
      KeysFollow(arts, lands, d0, l0, d, l, Brought(Here(), rank, d0.Keys, name));
      r := Submit(Entry(instance, name, args, code));
      if instance in d { TakenKey(Here(), rank, d0, l0, d, l, Entry(instance, name, args, code)); }
      SubmitAdds(l0, l, log, Brought(Here(), rank, d0.Keys, name), instance, r.Some? && instance !in d);
    }
  }

  /** A deployment under the artifact's own name leaves only what could be deployed. */
  lemma LibraryEarned(s: Site, rank: string -> nat, out: set<string>, more: set<string>, most: set<string>, name: string,
                      args: seq<string>, l0: seq<Entry>, l: seq<Entry>, l': seq<Entry>, through: bool)
    requires Settled(s, rank) && Earned(s, rank, out, more) && more <= most <= more + {name}
    requires name in s.arts && WithinLimit(s.arts[name]) && LibrariesBuild(s, rank, out, s.arts[name].libs)
    requires IsHex(Linked(s.arts[name], s.lands))
    requires name in most ==> name in more || through
    requires through && name !in Brought(s, rank, out, name) ==> name !in s.failing
    requires Plain(l0, l) && (l' == l || l' == l + [Entry(name, name, args, Linked(s.arts[name], s.lands))])
    ensures Earned(s, rank, out, most) && (args == [] ==> Plain(l0, l'))
  {
    NotBrought(s, rank, out, name);
  }

  ghost predicate SamePayload(log: seq<Entry>, e: Entry) {
    exists k :: 0 <= k < |log| && log[k].instance == e.instance && log[k].code == e.code && log[k].args == e.args
  }

  lemma SubmitAdds(l0: seq<Entry>, l: seq<Entry>, l': seq<Entry>, libs: seq<string>, instance: string, adds: bool)
    requires Instances(l) == Instances(l0) + libs
    requires if adds then |l'| == |l| + 1 && l'[..|l|] == l && l'[|l|].instance == instance else l' == l
    ensures Instances(l') == Instances(l0) + (if adds then libs + [instance] else libs)
  {
    if adds { assert Instances(l') == Instances(l) + [instance]; }
  }

  /** The key was taken by a library of this very deployment. */
  lemma TakenKey(s: Site, rank: string -> nat, d0: map<string, string>, l0: seq<Entry>, d: map<string, string>, l: seq<Entry>,
                 e: Entry)
    requires Settled(s, rank) && Ok(s.arts, s.lands, d0, l0) && Ok(s.arts, s.lands, d, l) && Plain(l0, l)
    requires e.instance in d && e.instance !in d0
    ensures SamePayload(l, e) <==> e.args == [] && e.instance in s.arts && Linked(s.arts[e.instance], s.lands) == e.code
  {
    var k :| 0 <= k < |l| && l[k].instance == e.instance;
    forall j | 0 <= j < |l0| ensures l[j].instance != e.instance { assert l0[j] == l[j] && Out(l0, l0[j].instance); }
    assert EntryOk(s.arts, s.lands, l, k);
    assert forall j :: 0 <= j < |l| && l[j].instance == e.instance ==> j == k;
  }

  /** The code once the first `i` libraries have been linked. */
  ghost predicate PartlyLinked(a: Artifact, i: nat, lands: string -> string, code: string)
    requires AreAddresses(lands) && i <= |a.libs|
  {
    InRange(Patches(a.libs[..i], lands), |a.code|) && code == Apply(a.code, Patches(a.libs[..i], lands))
  }

  lemma FullyLinked(a: Artifact, lands: string -> string, code: string)
    requires AreAddresses(lands) && WellFormed(a) && PartlyLinked(a, |a.libs|, lands, code)
    ensures code == Linked(a, lands)
  {
    assert a.libs[..|a.libs|] == a.libs;
  }

  ghost predicate AllOut(libs: seq<Library>, n: nat, deployed: map<string, string>) {
    n <= |libs| && forall j :: 0 <= j < n ==> libs[j].name in deployed
  }

  lemma PatchesNext(libs: seq<Library>, i: nat, lands: string -> string)
    requires AreAddresses(lands) && i < |libs|
    ensures Patches(libs[..i + 1], lands) == Patches(libs[..i], lands) + LibPatches(libs[i], lands)
  {
    assert libs[..i + 1][..i] == libs[..i];
  }

  /** What a call for one library does, whether it gets through or not. */
  ghost predicate OneMore(s: Site, rank: string -> nat, lib: string, d: map<string, string>, l: seq<Entry>,
                          d': map<string, string>, l': seq<Entry>, through: bool)
    requires Settled(s, rank)
  {
    && Plain(l, l') && Earned(s, rank, d.Keys, d'.Keys)
    && (through ==> Instances(l') == Instances(l) + Order(s, rank, d.Keys, lib, lib))
  }

  /** The loop over the libraries of `name`, with `i` of them deployed and linked. */
  ghost predicate Midway(s: Site, rank: string -> nat, name: string, i: nat, code: string,
                         d0: map<string, string>, l0: seq<Entry>, d: map<string, string>, l: seq<Entry>)
  {
    && Settled(s, rank) && name in s.arts && i <= |s.arts[name].libs|
    && AllOut(s.arts[name].libs, i, d) && PartlyLinked(s.arts[name], i, s.lands, code)
    && Ok(s.arts, s.lands, d0, l0) && Plain(l0, l)
    && Earned(s, rank, d0.Keys, d.Keys) && LibrariesBuild(s, rank, d0.Keys, s.arts[name].libs[..i])
    && Instances(l) == Instances(l0) + OrderAll(s, rank, d0.Keys, rank(name), s.arts[name].libs[..i])
  }

  lemma MidwayNext(s: Site, rank: string -> nat, name: string, i: nat, code: string,
                   d0: map<string, string>, l0: seq<Entry>, d: map<string, string>, l: seq<Entry>,
                   d': map<string, string>, l': seq<Entry>, next: string)
    requires Midway(s, rank, name, i, code, d0, l0, d, l) && Ok(s.arts, s.lands, d, l)
    requires i < |s.arts[name].libs| && OneMore(s, rank, s.arts[name].libs[i].name, d, l, d', l', true)
    requires AllTwenty(s.arts[name].libs[i]) && Available(s, rank, d.Keys, s.arts[name].libs[i].name)
    requires s.arts[name].libs[i].name in d' && PartlyLinked(s.arts[name], i + 1, s.lands, next)
    ensures Midway(s, rank, name, i + 1, next, d0, l0, d', l')
  {
    var (libs, lib) := (s.arts[name].libs, s.arts[name].libs[i].name);
    EarnedMore(s, rank, d0.Keys, d.Keys, d'.Keys);
    LibrariesNext(s, rank, d0.Keys, d.Keys, libs, i);
    MidwayKeys(s, rank, name, i, d0, l0, d, l);
    OrderNext(s, rank, d0.Keys, d.Keys, rank(name), libs, i, l0, l, l');
  }

  lemma MidwayKeys(s: Site, rank: string -> nat, name: string, i: nat,
                   d0: map<string, string>, l0: seq<Entry>, d: map<string, string>, l: seq<Entry>)
    requires Settled(s, rank) && name in s.arts && i <= |s.arts[name].libs|
    requires Ok(s.arts, s.lands, d0, l0) && Ok(s.arts, s.lands, d, l)
    requires Instances(l) == Instances(l0) + OrderAll(s, rank, d0.Keys, rank(name), s.arts[name].libs[..i])
    ensures d.Keys == d0.Keys + Names(OrderAll(s, rank, d0.Keys, rank(name), s.arts[name].libs[..i]))
  {
    KeysFollow(s.arts, s.lands, d0, l0, d, l, OrderAll(s, rank, d0.Keys, rank(name), s.arts[name].libs[..i]));
  }

  lemma OrderNext(s: Site, rank: string -> nat, out: set<string>, more: set<string>, bound: nat, libs: seq<Library>, i: nat,
                  l0: seq<Entry>, l: seq<Entry>, l': seq<Entry>)
    requires Settled(s, rank) && RanksBelow(rank, libs, bound) && i < |libs|
    requires more == out + Names(OrderAll(s, rank, out, bound, libs[..i]))
    requires Instances(l) == Instances(l0) + OrderAll(s, rank, out, bound, libs[..i])
    requires Instances(l') == Instances(l) + Order(s, rank, more, libs[i].name, libs[i].name)
    ensures Instances(l') == Instances(l0) + OrderAll(s, rank, out, bound, libs[..i + 1])
  {
    assert libs[..i + 1][..i] == libs[..i] && libs[..i + 1][i] == libs[i];
  }

  lemma LibrariesNext(s: Site, rank: string -> nat, out: set<string>, more: set<string>, libs: seq<Library>, i: nat)
    requires Settled(s, rank) && i < |libs| && Earned(s, rank, out, more) && LibrariesBuild(s, rank, out, libs[..i])
    requires AllTwenty(libs[i]) && Available(s, rank, more, libs[i].name)
    ensures LibrariesBuild(s, rank, out, libs[..i + 1])
  {
    SameBuilds(s, rank, out, more, libs[i].name);
    forall j | 0 <= j < |libs[..i + 1]| ensures AllTwenty(libs[j]) && Available(s, rank, out, libs[j].name) {
      if j < i { assert libs[..i][j] == libs[j]; }
    }
  }

  lemma MidwayStops(s: Site, rank: string -> nat, name: string, i: nat, code: string,
                    d0: map<string, string>, l0: seq<Entry>, d: map<string, string>, l: seq<Entry>,
                    d': map<string, string>, l': seq<Entry>)
    requires Midway(s, rank, name, i, code, d0, l0, d, l)
    requires i < |s.arts[name].libs| && OneMore(s, rank, s.arts[name].libs[i].name, d, l, d', l', false)
    requires !(AllTwenty(s.arts[name].libs[i]) && Available(s, rank, d.Keys, s.arts[name].libs[i].name))
    ensures Plain(l0, l') && Earned(s, rank, d0.Keys, d'.Keys)
    ensures !LibrariesBuild(s, rank, d0.Keys, s.arts[name].libs)
  {
    EarnedMore(s, rank, d0.Keys, d.Keys, d'.Keys);
    SameBuilds(s, rank, d0.Keys, d.Keys, s.arts[name].libs[i].name);
  }

  lemma LibNext(a: Artifact, done: seq<Patch>, lib: Library, lands: string -> string, k: nat)
    requires AreAddresses(lands) && WellFormed(a) && lib in a.libs && k < |lib.refs|
    requires InRange(done + LibPatches(lib, lands)[..k], |a.code|)
    ensures var p := LibPatches(lib, lands)[k];
      && p.at + |p.text| <= |a.code|
      && InRange(done + LibPatches(lib, lands)[..k + 1], |a.code|)
      && Apply(a.code, done + LibPatches(lib, lands)[..k + 1]) == Splice(Apply(a.code, done + LibPatches(lib, lands)[..k]), p)
  {
    var ps := LibPatches(lib, lands);
    assert done + ps[..k + 1] == (done + ps[..k]) + [ps[k]];
    ApplyAppend(a.code, done + ps[..k], ps[k]);
  }

  // ---- what linking does to the code

  /** Placeholder `r` is for library `name`. */
  ghost predicate Refers(a: Artifact, name: string, r: Reference) {
    exists i, k :: 0 <= i < |a.libs| && 0 <= k < |a.libs[i].refs| && a.libs[i].name == name && a.libs[i].refs[k] == r
  }

  predicate Inside(r: Reference, i: int) { 2 + r.start * 2 <= i < 42 + r.start * 2 }

  ghost predicate Placeholder(a: Artifact, i: int) {
    exists name, r :: Refers(a, name, r) && Inside(r, i)
  }

  ghost function PatchOf(lib: Library, k: nat, lands: string -> string): Patch
    requires AreAddresses(lands) && k < |lib.refs|
  {
    Patch(2 + lib.refs[k].start * 2, Bare(lands(lib.name)))
  }

  lemma {:induction false} PatchHas(libs: seq<Library>, i: nat, k: nat, lands: string -> string)
    requires AreAddresses(lands) && i < |libs| && k < |libs[i].refs|
    ensures PatchOf(libs[i], k, lands) in Patches(libs, lands)
  {
    var (rest, lib) := (libs[..|libs| - 1], libs[|libs| - 1]);
    if i < |rest| { PatchHas(rest, i, k, lands); } else { assert LibPatches(lib, lands)[k] == PatchOf(lib, k, lands); }
  }

  lemma {:induction false} PatchFrom(libs: seq<Library>, p: Patch, lands: string -> string) returns (i: nat, k: nat)
    requires AreAddresses(lands) && p in Patches(libs, lands)
    ensures i < |libs| && k < |libs[i].refs| && p == PatchOf(libs[i], k, lands)
  {
    var (rest, lib) := (libs[..|libs| - 1], libs[|libs| - 1]);
    if p in Patches(rest, lands) {
      i, k := PatchFrom(rest, p, lands);
    } else {
      i := |rest|;
      k :| k < |lib.refs| && LibPatches(lib, lands)[k] == p;
    }
  }

  lemma InsideOne(a: Artifact, j: nat, k: nat, m: nat, n: nat, i: nat)
    requires WellFormed(a) && j < |a.libs| && k < |a.libs[j].refs| && m < |a.libs| && n < |a.libs[m].refs|
    requires Inside(a.libs[j].refs[k], i) && Inside(a.libs[m].refs[n], i)
    ensures j == m && k == n
  {
  }

  /** Placeholders do not overlap, so the patches agree. */
  lemma PatchesAgree(a: Artifact, lands: string -> string)
    requires AreAddresses(lands) && WellFormed(a)
    ensures Agree(Patches(a.libs, lands))
  {
    var ps := Patches(a.libs, lands);
    forall p, q, i | p in ps && q in ps && Covers(p, i) && Covers(q, i) ensures p.text[i - p.at] == q.text[i - q.at] {
      var j, k := PatchFrom(a.libs, p, lands);
      var m, n := PatchFrom(a.libs, q, lands);
      InsideOne(a, j, k, m, n, i);
    }
  }

  /** Every placeholder of a library holds the library's address. */
  lemma LinkedInside(a: Artifact, lands: string -> string, name: string, r: Reference, i: nat)
    requires AreAddresses(lands) && WellFormed(a) && Refers(a, name, r) && Inside(r, i) && i < |a.code|
    ensures Linked(a, lands)[i] == LowerChar(lands(name)[i - r.start * 2])
  {
    var j, k :| 0 <= j < |a.libs| && 0 <= k < |a.libs[j].refs| && a.libs[j].name == name && a.libs[j].refs[k] == r;
    var p := PatchOf(a.libs[j], k, lands);
    PatchHas(a.libs, j, k, lands);
    assert Covers(p, i);
    LinkedAt(a, lands, i);
  }

  lemma LinkedAt(a: Artifact, lands: string -> string, i: nat)
    requires AreAddresses(lands) && WellFormed(a) && i < |a.code|
    ensures forall p :: p in Patches(a.libs, lands) && Covers(p, i) ==> Linked(a, lands)[i] == p.text[i - p.at]
    ensures !Covered(Patches(a.libs, lands), i) ==> Linked(a, lands)[i] == a.code[i]
  {
    LinkedInRange(a, lands);
    PatchesAgree(a, lands);
    ApplyAt(a.code, Patches(a.libs, lands), i);
  }

  lemma LinkedInRange(a: Artifact, lands: string -> string)
    requires AreAddresses(lands) && WellFormed(a)
    ensures InRange(Patches(a.libs, lands), |a.code|)
  {
    PatchesInRange(a, |a.libs|, lands);
    assert a.libs[..|a.libs|] == a.libs;
  }

  /** And nothing else changes. */
  lemma LinkedOutside(a: Artifact, lands: string -> string, i: nat)
    requires AreAddresses(lands) && WellFormed(a) && i < |a.code| && !Placeholder(a, i)
    ensures Linked(a, lands)[i] == a.code[i]
  {
    LinkedAt(a, lands, i);
    CoveredIsPlaceholder(a, lands, i);
  }

  lemma CoveredIsPlaceholder(a: Artifact, lands: string -> string, i: nat)
    requires AreAddresses(lands) && WellFormed(a)
    ensures Covered(Patches(a.libs, lands), i) ==> Placeholder(a, i)
  {
    var ps := Patches(a.libs, lands);
    if Covered(ps, i) {
      var k :| 0 <= k < |ps| && Covers(ps[k], i);
      var j, m := PatchFrom(a.libs, ps[k], lands);
      assert Refers(a, a.libs[j].name, a.libs[j].refs[m]) && Inside(a.libs[j].refs[m], i);
    }
  }

  /** Two ways of visiting the same libraries and placeholders link the same code exactly when
      every library that has a placeholder ended at the same address. The order itself does not
      matter; it matters only through the nonces, and so the addresses, of libraries that are
      deployed on the way. */
  lemma LinksEqualIff(a: Artifact, b: Artifact, lands: string -> string, others: string -> string)
    requires AreAddresses(lands) && AreAddresses(others) && WellFormed(a) && WellFormed(b) && a.code == b.code
    requires forall name, r :: Refers(a, name, r) <==> Refers(b, name, r)
    ensures Linked(a, lands) == Linked(b, others) <==>
      forall name, r :: Refers(a, name, r) ==> Bare(lands(name)) == Bare(others(name))
  {
    if forall name, r :: Refers(a, name, r) ==> Bare(lands(name)) == Bare(others(name)) {
      forall i: nat | i < |a.code| ensures Linked(a, lands)[i] == Linked(b, others)[i] { SameAt(a, b, lands, others, i); }
    }
    if Linked(a, lands) == Linked(b, others) {
      forall name, r | Refers(a, name, r) ensures Bare(lands(name)) == Bare(others(name)) {
        SameAddress(a, b, lands, others, name, r);
      }
    }
  }

  lemma SameAt(a: Artifact, b: Artifact, lands: string -> string, others: string -> string, i: nat)
    requires AreAddresses(lands) && AreAddresses(others) && WellFormed(a) && WellFormed(b) && a.code == b.code && i < |a.code|
    requires forall name, r :: Refers(a, name, r) <==> Refers(b, name, r)
    requires forall name, r :: Refers(a, name, r) ==> Bare(lands(name)) == Bare(others(name))
    ensures Linked(a, lands)[i] == Linked(b, others)[i]
  {
    if Placeholder(a, i) {
      var name, r :| Refers(a, name, r) && Inside(r, i);
      LinkedInside(a, lands, name, r, i);
      LinkedInside(b, others, name, r, i);
      assert Bare(lands(name))[i - r.start * 2 - 2] == Bare(others(name))[i - r.start * 2 - 2];
    } else {
      LinkedOutside(a, lands, i);
      LinkedOutside(b, others, i);
    }
  }

  lemma SameAddress(a: Artifact, b: Artifact, lands: string -> string, others: string -> string, name: string, r: Reference)
    requires AreAddresses(lands) && AreAddresses(others) && WellFormed(a) && WellFormed(b) && a.code == b.code
    requires Refers(a, name, r) && Refers(b, name, r) && Linked(a, lands) == Linked(b, others)
    ensures Bare(lands(name)) == Bare(others(name))
  {
    forall j: nat | j < 40 ensures Bare(lands(name))[j] == Bare(others(name))[j] {
      LinkedInside(a, lands, name, r, 2 + r.start * 2 + j);
      LinkedInside(b, others, name, r, 2 + r.start * 2 + j);
    }
  }

  /** The final check passes exactly when the code is hexadecimal outside its placeholders. */
  lemma HexIff(a: Artifact, lands: string -> string)
    requires AreAddresses(lands) && WellFormed(a)
    ensures IsHex(Linked(a, lands)) <==>
      |a.code| > 2 && a.code[0] == '0' && a.code[1] in "xX"
      && forall i :: 2 <= i < |a.code| && !Placeholder(a, i) ==> HexDigit(a.code[i])
  {
    var code := Linked(a, lands);
    forall i: nat | i < |a.code| && !Placeholder(a, i) ensures code[i] == a.code[i] { LinkedOutside(a, lands, i); }
    assert !Placeholder(a, 0) && !Placeholder(a, 1);
    forall i: nat | 2 <= i < |a.code| && Placeholder(a, i) ensures HexDigit(code[i]) {
      var name, r :| Refers(a, name, r) && Inside(r, i);
      LinkedInside(a, lands, name, r, i);
    }
  }
}
