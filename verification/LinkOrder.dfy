/** The deployment script lists a contract's libraries flat, dependencies first; the deployer
    recurses. Both bring the same instances out in the same order. */
module LinkOrder {
  import opened Linking
  import DeployScript

  /** All libraries of an artifact, each behind its own ones. */
  ghost function Links(s: Site, rank: string -> nat, name: string): seq<string>
    requires Settled(s, rank)
    decreases rank(name), 1, 0
  {
    if name in s.arts then LinksAll(s, rank, rank(name), s.arts[name].libs) else []
  }

  ghost function LinksAll(s: Site, rank: string -> nat, bound: nat, libs: seq<Library>): seq<string>
    requires Settled(s, rank) && RanksBelow(rank, libs, bound)
    decreases bound, 0, |libs|
  {
    if libs == [] then [] else
    var lib := libs[|libs| - 1].name;
    LinksAll(s, rank, bound, libs[..|libs| - 1]) + (Links(s, rank, lib) + [lib])
  }

  /** Every library has an artifact. */
  ghost predicate AllKnown(s: Site) {
    forall name, i :: name in s.arts && 0 <= i < |s.arts[name].libs| ==> s.arts[name].libs[i].name in s.arts
  }

  /** What is out has its libraries out. */
  ghost predicate Closed(s: Site, rank: string -> nat, out: set<string>)
    requires Settled(s, rank)
  {
    forall x, y :: x in out && y in Links(s, rank, x) ==> y in out
  }

  // ---- going through a list with a memo

  /** The members of the list that are not out yet, at their first occurrence. */
  ghost function NewOf(out: set<string>, xs: seq<string>): seq<string>
    decreases |xs|
  {
    if xs == [] then []
    else if xs[0] in out then NewOf(out, xs[1..])
    else [xs[0]] + NewOf(out + {xs[0]}, xs[1..])
  }

  lemma {:induction false} NewOfNames(out: set<string>, xs: seq<string>)
    ensures out + Names(NewOf(out, xs)) == out + Names(xs)
    ensures forall x :: x in NewOf(out, xs) ==> x in xs && x !in out
    decreases |xs|
  {
    if xs != [] {
      var more := if xs[0] in out then out else out + {xs[0]};
      NewOfNames(more, xs[1..]);
      assert Names(xs) == {xs[0]} + Names(xs[1..]);
    }
  }

  lemma {:induction false} NewOfAppend(out: set<string>, xs: seq<string>, ys: seq<string>)
    ensures NewOf(out, xs + ys) == NewOf(out, xs) + NewOf(out + Names(xs), ys)
    decreases |xs|
  {
    if xs == [] {
      assert xs + ys == ys && out + Names(xs) == out;
    } else {
      var more := if xs[0] in out then out else out + {xs[0]};
      assert (xs + ys)[1..] == xs[1..] + ys;
      NewOfAppend(more, xs[1..], ys);
      assert more + Names(xs[1..]) == out + Names(xs) by { assert Names(xs) == {xs[0]} + Names(xs[1..]); }
    }
  }

  lemma {:induction false} NothingNew(out: set<string>, xs: seq<string>)
    requires forall x :: x in xs ==> x in out
    ensures NewOf(out, xs) == []
    decreases |xs|
  {
    if xs != [] { NothingNew(out, xs[1..]); }
  }

  // ---- the recursive order is the flat one

  /** One library, from a memo that is closed. */
  lemma OneIsNew(s: Site, rank: string -> nat, out: set<string>, lib: string)
    requires Settled(s, rank) && Closed(s, rank, out) && lib in s.arts
    requires lib !in out ==> Brought(s, rank, out, lib) == NewOf(out, Links(s, rank, lib))
    ensures Order(s, rank, out, lib, lib) == NewOf(out, Links(s, rank, lib) + [lib])
  {
    NewOfAppend(out, Links(s, rank, lib), [lib]);
    if lib in out {
      NothingNew(out, Links(s, rank, lib) + [lib]);
    } else {
      NotBrought(s, rank, out, lib);
      NewOfNames(out, Links(s, rank, lib));
      assert lib !in out + Names(Links(s, rank, lib));
      assert [lib][1..] == [];
      assert NewOf(out + Names(Links(s, rank, lib)), [lib]) == [lib];
    }
  }

  lemma ClosedGrows(s: Site, rank: string -> nat, out: set<string>, lib: string)
    requires Settled(s, rank) && Closed(s, rank, out + Names(Links(s, rank, lib)))
    ensures Closed(s, rank, out + Names(Links(s, rank, lib) + [lib]))
  {
    var links := Links(s, rank, lib);
    assert Names(links + [lib]) == Names(links) + {lib};
    var inner := out + Names(links);
    assert out + Names(links + [lib]) == inner + {lib};
    forall x, y | x in inner + {lib} && y in Links(s, rank, x) ensures y in inner {
      if x !in inner {
        assert x == lib && y in links;
      }
    }
  }

  lemma {:induction false} AllAreNew(s: Site, rank: string -> nat, out: set<string>, bound: nat, libs: seq<Library>)
    requires Settled(s, rank) && RanksBelow(rank, libs, bound) && AllKnown(s) && Closed(s, rank, out)
    requires forall i :: 0 <= i < |libs| ==> libs[i].name in s.arts
    ensures OrderAll(s, rank, out, bound, libs) == NewOf(out, LinksAll(s, rank, bound, libs))
    ensures Closed(s, rank, out + Names(LinksAll(s, rank, bound, libs)))
    decreases bound, |libs|
  {
    if libs == [] {
      assert out + Names([]) == out;
    } else {
      var (rest, lib) := (libs[..|libs| - 1], libs[|libs| - 1].name);
      var first := LinksAll(s, rank, bound, rest);
      AllAreNew(s, rank, out, bound, rest);
      NewOfNames(out, first);
      AllAreNew(s, rank, out + Names(first), rank(lib), s.arts[lib].libs);
      OneIsNew(s, rank, out + Names(first), lib);
      ClosedGrows(s, rank, out + Names(first), lib);
      NewOfAppend(out, first, Links(s, rank, lib) + [lib]);
      NamesAdd(out, first, Links(s, rank, lib) + [lib]);
    }
  }

  lemma NamesAdd(out: set<string>, xs: seq<string>, ys: seq<string>)
    ensures out + Names(xs + ys) == out + Names(xs) + Names(ys)
  {
  }

  // ---- the script's side

  function OpNames(ops: seq<DeployScript.Template>): seq<DeployScript.OpName> {
    seq(|ops|, i requires 0 <= i < |ops| => ops[i].name)
  }

  function Creations(xs: seq<string>): seq<DeployScript.OpName> {
    seq(|xs|, i requires 0 <= i < |xs| => DeployScript.DeployOp(xs[i]))
  }

  lemma CreateAdds(cfg: DeployScript.Config, t: DeployScript.Script, name: string, instance: string, args: seq<DeployScript.Ref>)
    ensures var u := DeployScript.Create(cfg, t, name, instance, args);
      && OpNames(u.ops) == OpNames(t.ops) + Creations(if instance in t.at then [] else [instance])
      && u.at.Keys == t.at.Keys + {instance}
  {
  }

  lemma {:induction false} CreateAllAdds(cfg: DeployScript.Config, t: DeployScript.Script, libs: seq<string>)
    ensures var u := DeployScript.CreateAll(cfg, t, libs);
      && OpNames(u.ops) == OpNames(t.ops) + Creations(NewOf(t.at.Keys, libs))
      && u.at.Keys == t.at.Keys + Names(libs)
    decreases |libs|
  {
    if libs == [] {
      assert t.at.Keys + Names(libs) == t.at.Keys;
    } else {
      CreateAdds(cfg, t, libs[0], libs[0], []);
      var v := DeployScript.Create(cfg, t, libs[0], libs[0], []);
      CreateAllAdds(cfg, v, libs[1..]);
      NewOfHead(t.at.Keys, libs);
    }
  }

  lemma NewOfHead(out: set<string>, xs: seq<string>)
    requires xs != []
    ensures Creations(NewOf(out, xs)) ==
      Creations(if xs[0] in out then [] else [xs[0]]) + Creations(NewOf(out + {xs[0]}, xs[1..]))
    ensures out + Names(xs) == out + {xs[0]} + Names(xs[1..])
  {
    assert Names(xs) == {xs[0]} + Names(xs[1..]);
    assert xs[0] in out ==> out + {xs[0]} == out;
  }

  /** With the flat list of its artifact's libraries, a deployment of the script adds exactly the
      operations that the recursion does, in the same order, and leaves the memo closed. */
  lemma ScriptFollowsDeployer(cfg: DeployScript.Config, s: Site, rank: string -> nat, t: DeployScript.Script,
                              name: string, instance: string, uses: seq<DeployScript.Use>)
    requires Settled(s, rank) && AllKnown(s) && name in s.arts && DeployScript.LinksOf(cfg, name) == Links(s, rank, name)
    requires Closed(s, rank, t.at.Keys) && instance !in t.at
    ensures var u := DeployScript.Deploy(cfg, t, name, instance, uses);
      && OpNames(u.ops) == OpNames(t.ops) + Creations(Order(s, rank, t.at.Keys, name, instance))
      && u.at.Keys == t.at.Keys + Names(Order(s, rank, t.at.Keys, name, instance))
      && (instance == name || instance !in s.arts ==> Closed(s, rank, u.at.Keys))
  {
    var (out, libs) := (t.at.Keys, Links(s, rank, name));
    AllAreNew(s, rank, out, rank(name), s.arts[name].libs);
    NewOfNames(out, libs);
    ScriptAdds(cfg, t, name, instance, uses, libs, Brought(s, rank, out, name));
    ClosedLast(s, rank, out, name, instance);
  }

  lemma ScriptAdds(cfg: DeployScript.Config, t: DeployScript.Script, name: string, instance: string,
                   uses: seq<DeployScript.Use>, libs: seq<string>, brought: seq<string>)
    requires DeployScript.LinksOf(cfg, name) == libs && instance !in t.at
    requires brought == NewOf(t.at.Keys, libs) && t.at.Keys + Names(brought) == t.at.Keys + Names(libs)
    ensures var u := DeployScript.Deploy(cfg, t, name, instance, uses);
      && OpNames(u.ops) == OpNames(t.ops) + Creations(if instance in brought then brought else brought + [instance])
      && u.at.Keys == t.at.Keys + Names(if instance in brought then brought else brought + [instance])
      && u.at.Keys == t.at.Keys + Names(libs) + {instance}
  {
    CreateAllAdds(cfg, t, libs);
    var v := DeployScript.CreateAll(cfg, t, libs);
    CreateAdds(cfg, v, name, instance, DeployScript.Args(v, uses));
    LastAdds(t.at.Keys, brought, libs, instance);
  }

  lemma LastAdds(out: set<string>, brought: seq<string>, libs: seq<string>, instance: string)
    requires out + Names(brought) == out + Names(libs) && instance !in out
    ensures instance in brought <==> instance in out + Names(libs)
    ensures instance !in brought ==> Creations(brought) + Creations([instance]) == Creations(brought + [instance])
    ensures out + Names(libs) + {instance} == out + Names(if instance in brought then brought else brought + [instance])
  {
    assert instance in out + Names(brought) <==> instance in brought;
    assert Names(brought + [instance]) == Names(brought) + {instance};
  }

  lemma ClosedLast(s: Site, rank: string -> nat, out: set<string>, name: string, instance: string)
    requires Settled(s, rank) && Closed(s, rank, out + Names(Links(s, rank, name)))
    ensures instance == name || instance !in s.arts ==> Closed(s, rank, out + Names(Links(s, rank, name)) + {instance})
  {
  }
}
