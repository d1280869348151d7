/** Creating a hosted application is an HTTP POST that cannot be repeated. Four programs write
    their intent to a file before it, by a write that is atomic through rename, and read the
    file back when they start again. */
module Creation {
  datatype Stage = Waiting | Sending | Answered | Inspection | Uncertain

  /** `app` says that the answer named an application, or a node for a match. */
  datatype Record = Record(stage: Stage, app: bool)

  type File = map<nat, Record>

  datatype Program = Rehearsal | Realtime | Drand | Match

  /** Where a run stands: before each save, before the request, and before its answer. */
  datatype Pc = SaveWaiting | Probe | SaveSending | Post | Await | Lookup | SaveReply | SaveUncertain

  /** A run holds the whole file as it read it, changed at its own index. */
  datatype Run = Run(index: nat, memory: File, pc: Pc)

  /** What an awaited call brings: success, an exception, or an HTTP answer. */
  datatype Input = Good | Fail | Reply(ok: bool, app: bool)

  /** `posts` logs the creation requests by index, in the order they left. */
  datatype World = World(file: File, runs: map<nat, Run>, posts: seq<nat>)

  datatype Act = Begin(pid: nat, index: nat) | Step(pid: nat, input: Input) | Crash(pid: nat)

  const EMPTY := World(map[], map[], [])

  function Put(m: File, i: nat, stage: Stage, app: bool): File { m[i := Record(stage, app)] }

  /** What a program does with the record it finds; `None` is a run that ends at once. */
  function Load(p: Program, i: nat, file: File): seq<Run> {
    match p
    case Rehearsal =>
      if i in file && (file[i].app || file[i].stage != Waiting) then []
      else [Run(i, Put(file, i, Waiting, false), SaveWaiting)]
    case Match =>
      if i !in file then [Run(i, Put(file, i, Sending, false), SaveSending)]
      else if file[i].app then []
      else [Run(i, file, Lookup)]
    case _ =>
      if i in file then [] else [Run(i, Put(file, i, Sending, false), SaveSending)]
  }

  /** The run after the answer to its POST. A match without a good answer throws unsaved. */
  function Answer(p: Program, r: Run, input: Input): seq<Run> {
    match p
    case Rehearsal =>
      if input.Reply? && input.app then
        [r.(memory := Put(r.memory, r.index, if input.ok then Answered else Inspection, true), pc := SaveReply)]
      else [r.(memory := Put(r.memory, r.index, Uncertain, false), pc := SaveReply)]
    case Match =>
      if input == Reply(true, true) then [r.(memory := Put(r.memory, r.index, Answered, true), pc := SaveReply)] else []
    case _ =>
      if input.Reply? then
        [r.(memory := Put(r.memory, r.index, if input.ok && input.app then Answered else Inspection, input.app),
            pc := SaveReply)]
      else [r.(memory := Put(r.memory, r.index, Uncertain, false),
               pc := if p == Drand then SaveUncertain else SaveReply)]
  }

  /** One step of a run: the run as it continues, if it does, and the file it leaves. */
  function Advance(p: Program, r: Run, input: Input, file: File): (seq<Run>, File) {
    match r.pc
    case SaveWaiting => if input.Good? then ([r.(pc := Probe)], r.memory) else ([], file)
    case Probe =>
      if input.Good? then ([r.(memory := Put(r.memory, r.index, Sending, false), pc := SaveSending)], file)
      else ([], r.memory)
    case SaveSending => if input.Good? then ([r.(pc := Post)], r.memory) else ([], file)
    case Post => ([r.(pc := Await)], file)
    case Await => (Answer(p, r, input), file)
    case Lookup =>
      (if input == Reply(true, true)
       then [r.(memory := Put(r.memory, r.index, Answered, true), pc := SaveReply)] else [], file)
    case SaveReply =>
      if input.Good? then ([], r.memory)
      else if p == Drand && r.index in r.memory then
        ([r.(memory := Put(r.memory, r.index, Uncertain, r.memory[r.index].app), pc := SaveUncertain)], file)
      else ([], file)
    case SaveUncertain => ([], if input.Good? then r.memory else file)
  }

  function SetRun(runs: map<nat, Run>, pid: nat, next: seq<Run>): map<nat, Run> {
    if next == [] then runs - {pid} else runs[pid := next[0]]
  }

  /** At most `limit` runs are alive at a time. */
  predicate Can(w: World, a: Act, limit: nat) {
    match a
    case Begin(pid, _) => pid !in w.runs && |w.runs| < limit
    case Step(pid, _) => pid in w.runs
    case Crash(pid) => pid in w.runs
  }

  function Do(p: Program, w: World, a: Act, limit: nat): World
    requires Can(w, a, limit)
  {
    match a
    case Begin(pid, i) => w.(runs := SetRun(w.runs, pid, Load(p, i, w.file)))
    case Step(pid, input) =>
      var r := w.runs[pid];
      var (next, file) := Advance(p, r, input, w.file);
      World(file, SetRun(w.runs, pid, next), if r.pc == Post then w.posts + [r.index] else w.posts)
    case Crash(pid) => w.(runs := w.runs - {pid})
  }

  ghost predicate Runs(p: Program, w: World, acts: seq<Act>, limit: nat)
    decreases |acts|
  {
    acts == [] || (Can(w, acts[0], limit) && Runs(p, Do(p, w, acts[0], limit), acts[1..], limit))
  }

  ghost function After(p: Program, w: World, acts: seq<Act>, limit: nat): World
    requires Runs(p, w, acts, limit)
    decreases |acts|
  {
    if acts == [] then w else After(p, Do(p, w, acts[0], limit), acts[1..], limit)
  }

  /** No index is posted twice. */
  ghost predicate AtMostOnce(posts: seq<nat>) {
    forall i, j :: 0 <= i < j < |posts| ==> posts[i] != posts[j]
  }

  function Rank(file: File, i: nat): nat {
    if i !in file then 0
    else match file[i].stage
      case Waiting => 1
      case Sending => 2
      case _ => 3
  }

  /** Records only move forward: absent, waiting, sending, settled. */
  ghost predicate Forward(f: File, g: File) {
    forall i: nat :: Rank(f, i) <= Rank(g, i)
  }

  // ---- one runner at a time

  /** A run has the file's other records, and its own stage fits where it stands. */
  ghost predicate RunOk(file: File, posts: seq<nat>, r: Run) {
    var i := r.index;
    && i in r.memory
    && (forall k :: k != i ==> (k in r.memory <==> k in file) && (k in file ==> r.memory[k] == file[k]))
    && match r.pc
       case SaveWaiting => Rank(r.memory, i) == 1 && Rank(file, i) <= 1
       case Probe => Rank(r.memory, i) == 1 && Rank(file, i) == 1
       case SaveSending => Rank(r.memory, i) == 2 && Rank(file, i) <= 1
       case Post => Rank(r.memory, i) == 2 && Rank(file, i) == 2 && i !in posts
       case Await => Rank(r.memory, i) == 2 && Rank(file, i) == 2
       case Lookup => i in file && !file[i].app && Rank(r.memory, i) == Rank(file, i)
       case SaveReply => Rank(r.memory, i) == 3
       case SaveUncertain => Rank(r.memory, i) == 3
  }

  ghost predicate Inv(w: World) {
    && (forall p, q :: p in w.runs && q in w.runs ==> p == q)
    && AtMostOnce(w.posts)
    && (forall i :: i in w.posts ==> Rank(w.file, i) >= 2)
    && (forall p :: p in w.runs ==> RunOk(w.file, w.posts, w.runs[p]))
  }

  /** What one step of a run does to the file and to itself. */
  lemma AdvanceOk(p: Program, r: Run, input: Input, file: File, posts: seq<nat>)
    requires RunOk(file, posts, r) && forall i :: i in posts ==> Rank(file, i) >= 2
    ensures var (next, file') := Advance(p, r, input, file);
      var posts' := if r.pc == Post then posts + [r.index] else posts;
      && Forward(file, file')
      && (next != [] ==> RunOk(file', posts', next[0]))
      && (r.pc == Post ==> r.index !in posts && Rank(file, r.index) == 2)
  {
  }

  lemma LoadOk(p: Program, i: nat, file: File, posts: seq<nat>)
    requires forall k :: k in posts ==> Rank(file, k) >= 2
    ensures Load(p, i, file) != [] ==> RunOk(file, posts, Load(p, i, file)[0])
  {
  }

  lemma DoKeepsInv(p: Program, w: World, a: Act, limit: nat)
    requires Inv(w) && Can(w, a, limit) && limit <= 1
    ensures Inv(Do(p, w, a, limit)) && Forward(w.file, Do(p, w, a, limit).file)
  {
    match a
    case Begin(pid, i) =>
      assert w.runs.Keys == {};
      LoadOk(p, i, w.file, w.posts);
    case Step(pid, input) => AdvanceOk(p, w.runs[pid], input, w.file, w.posts);
    case Crash(pid) =>
  }

  lemma {:induction false} RunKeepsInv(p: Program, w: World, acts: seq<Act>, limit: nat)
    requires Inv(w) && Runs(p, w, acts, limit) && limit <= 1
    ensures Inv(After(p, w, acts, limit)) && Forward(w.file, After(p, w, acts, limit).file)
    decreases |acts|
  {
    if acts != [] {
      DoKeepsInv(p, w, acts[0], limit);
      RunKeepsInv(p, Do(p, w, acts[0], limit), acts[1..], limit);
    }
  }

  /** A POST of index `i` was or may have been made, and no live run is on its way to one. */
  ghost predicate Quiet(w: World, i: nat) {
    && Rank(w.file, i) >= 2
    && forall p :: p in w.runs && w.runs[p].index == i ==> !(w.runs[p].pc in {SaveWaiting, Probe, SaveSending, Post})
  }

  /** The log grew by requests for other indices. */
  ghost predicate Others(before: seq<nat>, after: seq<nat>, i: nat) {
    before <= after && forall k :: |before| <= k < |after| ==> after[k] != i
  }

  lemma DoKeepsQuiet(p: Program, w: World, a: Act, limit: nat, i: nat)
    requires Inv(w) && Can(w, a, limit) && limit <= 1 && Quiet(w, i)
    ensures Quiet(Do(p, w, a, limit), i) && Others(w.posts, Do(p, w, a, limit).posts, i)
  {
    DoKeepsInv(p, w, a, limit);
    if a.Step? { AdvanceOk(p, w.runs[a.pid], a.input, w.file, w.posts); }
  }

  lemma OthersTransitive(a: seq<nat>, b: seq<nat>, c: seq<nat>, i: nat)
    requires Others(a, b, i) && Others(b, c, i)
    ensures Others(a, c, i)
  {
  }

  /** Once its file says sending, uncertain or inspection and its run is over, no later run
      leaves that state by another POST. */
  lemma {:induction false} NoSecondAttempt(p: Program, w: World, acts: seq<Act>, limit: nat, i: nat)
    requires Inv(w) && Quiet(w, i) && Runs(p, w, acts, limit) && limit <= 1
    ensures Others(w.posts, After(p, w, acts, limit).posts, i) && Rank(After(p, w, acts, limit).file, i) >= 2
    decreases |acts|
  {
    if acts != [] {
      var v := Do(p, w, acts[0], limit);
      DoKeepsInv(p, w, acts[0], limit);
      DoKeepsQuiet(p, w, acts[0], limit, i);
      NoSecondAttempt(p, v, acts[1..], limit, i);
      OthersTransitive(w.posts, v.posts, After(p, v, acts[1..], limit).posts, i);
    }
  }

  // ---- two runners at a time

  /** A run that is about to post posts. */
  function Drive(pid: nat, p: Program): seq<Act> {
    if p == Rehearsal then [Step(pid, Good), Step(pid, Good), Step(pid, Good), Step(pid, Good)]
    else [Step(pid, Good), Step(pid, Good)]
  }

  function Overlap(p: Program): seq<Act> {
    [Begin(0, 0), Begin(1, 0)] + Drive(0, p) + Drive(1, p)
  }

  ghost predicate Leads(p: Program, w: World, acts: seq<Act>, limit: nat, v: World) {
    Runs(p, w, acts, limit) && After(p, w, acts, limit) == v
  }

  lemma {:induction false} Snoc(p: Program, w: World, acts: seq<Act>, a: Act, limit: nat)
    requires Runs(p, w, acts, limit) && Can(After(p, w, acts, limit), a, limit)
    ensures Runs(p, w, acts + [a], limit)
    ensures After(p, w, acts + [a], limit) == Do(p, After(p, w, acts, limit), a, limit)
    decreases |acts|
  {
    if acts == [] {
      assert acts + [a] == [a];
      assert Runs(p, Do(p, w, a, limit), [], limit);
      assert [a][1..] == [];
    } else {
      assert (acts + [a])[1..] == acts[1..] + [a];
      Snoc(p, Do(p, w, acts[0], limit), acts[1..], a, limit);
    }
  }

  lemma Next(p: Program, w: World, acts: seq<Act>, a: Act, limit: nat, v: World, u: World)
    requires Leads(p, w, acts, limit, v) && Can(v, a, limit) && Do(p, v, a, limit) == u
    ensures Leads(p, w, acts + [a], limit, u)
  {
    Snoc(p, w, acts, a, limit);
  }

  /** A run from its start to its POST, whatever the file is by then: the file becomes the one
      the run had read, with its own record. */
  lemma DrivePosts(p: Program, start: World, acts: seq<Act>, w: World, pid: nat, i: nat, base: File, limit: nat)
    returns (v: World)
    requires Leads(p, start, acts, limit, w)
    requires i !in base && pid in w.runs && w.runs[pid] == Load(p, i, base)[0]
    ensures Leads(p, start, acts + Drive(pid, p), limit, v)
    ensures pid in v.runs
    ensures v == World(Put(base, i, Sending, false), w.runs[pid := v.runs[pid]], w.posts + [i])
  {
    var m := Put(base, i, Sending, false);
    var s := Step(pid, Good);
    v := World(m, w.runs[pid := Run(i, m, Await)], w.posts + [i]);
    var u := World(m, w.runs[pid := Run(i, m, Post)], w.posts);
    if p == Rehearsal {
      Admitted(start, acts, w, pid, i, base, limit, u);
      Next(p, start, acts + [s] + [s] + [s], s, limit, u, v);
      assert acts + [s] + [s] + [s] + [s] == acts + Drive(pid, p);
    } else {
      Next(p, start, acts, s, limit, w, u);
      Next(p, start, acts + [s], s, limit, u, v);
      assert acts + [s] + [s] == acts + Drive(pid, p);
    }
  }

  /** A rehearsal saves that it waits, is admitted, and saves that it sends. */
  lemma Admitted(start: World, acts: seq<Act>, w: World, pid: nat, i: nat, base: File, limit: nat, u: World)
    requires Leads(Rehearsal, start, acts, limit, w)
    requires i !in base && pid in w.runs && w.runs[pid] == Load(Rehearsal, i, base)[0]
    requires var m := Put(base, i, Sending, false); u == World(m, w.runs[pid := Run(i, m, Post)], w.posts)
    ensures var s := Step(pid, Good); Leads(Rehearsal, start, acts + [s] + [s] + [s], limit, u)
  {
    var m1, m2 := Put(base, i, Waiting, false), Put(base, i, Sending, false);
    assert Put(m1, i, Sending, false) == m2;
    var w1 := World(m1, w.runs[pid := Run(i, m1, Probe)], w.posts);
    var w2 := World(m1, w.runs[pid := Run(i, m2, SaveSending)], w.posts);
    var s := Step(pid, Good);
    Next(Rehearsal, start, acts, s, limit, w, w1);
    Next(Rehearsal, start, acts + [s], s, limit, w1, w2);
    Next(Rehearsal, start, acts + [s] + [s], s, limit, w2, u);
  }

  /** Two runs begin on an empty file. */
  lemma BeginBoth(p: Program, j: nat, limit: nat) returns (w: World)
    requires limit >= 2
    ensures Leads(p, EMPTY, [Begin(0, 0), Begin(1, j)], limit, w)
    ensures w == World(map[], map[0 := Load(p, 0, map[])[0], 1 := Load(p, j, map[])[0]], [])
  {
    var w1 := World(map[], map[0 := Load(p, 0, map[])[0]], []);
    w := World(map[], map[0 := Load(p, 0, map[])[0], 1 := Load(p, j, map[])[0]], []);
    Next(p, EMPTY, [], Begin(0, 0), limit, EMPTY, w1);
    assert [] + [Begin(0, 0)] == [Begin(0, 0)];
    Next(p, EMPTY, [Begin(0, 0)], Begin(1, j), limit, w1, w);
    assert [Begin(0, 0)] + [Begin(1, j)] == [Begin(0, 0), Begin(1, j)];
  }

  /** Two runners that both found no record both post. */
  lemma OverlapPostsTwice(p: Program, limit: nat)
    requires limit >= 2
    ensures Runs(p, EMPTY, Overlap(p), limit) && After(p, EMPTY, Overlap(p), limit).posts == [0, 0]
  {
    var w := BeginBoth(p, 0, limit);
    var v := DrivePosts(p, EMPTY, [Begin(0, 0), Begin(1, 0)], w, 0, 0, map[], limit);
    var u := DrivePosts(p, EMPTY, [Begin(0, 0), Begin(1, 0)] + Drive(0, p), v, 1, 0, map[], limit);
  }

  /** Every trace posts each index at most once exactly when runs never overlap. */
  lemma AtMostOnceIffAlone(p: Program, limit: nat)
    ensures limit <= 1 <==>
      forall acts :: Runs(p, EMPTY, acts, limit) ==> AtMostOnce(After(p, EMPTY, acts, limit).posts)
  {
    if limit <= 1 {
      forall acts | Runs(p, EMPTY, acts, limit) ensures AtMostOnce(After(p, EMPTY, acts, limit).posts) {
        RunKeepsInv(p, EMPTY, acts, limit);
      }
    } else {
      OverlapPostsTwice(p, limit);
      var posts := After(p, EMPTY, Overlap(p), limit).posts;
      assert posts[0] == posts[1];
    }
  }

  /** Different indices are no help: the second runner's save drops the first one's record, and
      the next run of that index finds none and posts again. */
  function LostRecord(): seq<Act> {
    [Begin(0, 0), Begin(1, 1)] + Drive(0, Rehearsal) + [Step(1, Good), Crash(1), Crash(0), Begin(0, 0)] + Drive(0, Rehearsal)
  }

  /** The second runner saves, both die, and index 0 is started again. */
  lemma Overwrite(acts: seq<Act>, v: World, m: File, limit: nat) returns (u: World)
    requires limit >= 2 && Leads(Rehearsal, EMPTY, acts, limit, v)
    requires v.runs.Keys == {0, 1} && v.runs[1].pc == SaveWaiting && v.runs[1].memory == m && 0 !in m
    ensures Leads(Rehearsal, EMPTY, acts + [Step(1, Good), Crash(1), Crash(0), Begin(0, 0)], limit, u)
    ensures u == World(m, map[0 := Load(Rehearsal, 0, m)[0]], v.posts)
  {
    var p := Rehearsal;
    var v1 := Do(p, v, Step(1, Good), limit);
    var v2 := World(m, map[0 := v.runs[0]], v.posts);
    var v3 := World(m, map[], v.posts);
    u := World(m, map[0 := Load(p, 0, m)[0]], v.posts);
    Next(p, EMPTY, acts, Step(1, Good), limit, v, v1);
    Next(p, EMPTY, acts + [Step(1, Good)], Crash(1), limit, v1, v2);
    Next(p, EMPTY, acts + [Step(1, Good)] + [Crash(1)], Crash(0), limit, v2, v3);
    Next(p, EMPTY, acts + [Step(1, Good)] + [Crash(1)] + [Crash(0)], Begin(0, 0), limit, v3, u);
    assert acts + [Step(1, Good)] + [Crash(1)] + [Crash(0)] + [Begin(0, 0)]
        == acts + [Step(1, Good), Crash(1), Crash(0), Begin(0, 0)];
  }

  lemma LostRecordPostsTwice(limit: nat)
    requires limit >= 2
    ensures Runs(Rehearsal, EMPTY, LostRecord(), limit)
    ensures After(Rehearsal, EMPTY, LostRecord(), limit).posts == [0, 0]
  {
    var p := Rehearsal;
    var m := Put(map[], 1, Waiting, false);
    var first := [Begin(0, 0), Begin(1, 1)];
    var w := BeginBoth(p, 1, limit);
    var v := DrivePosts(p, EMPTY, first, w, 0, 0, map[], limit);
    var u := Overwrite(first + Drive(0, p), v, m, limit);
    var t := DrivePosts(p, EMPTY, first + Drive(0, p) + [Step(1, Good), Crash(1), Crash(0), Begin(0, 0)], u, 0, 0, m, limit);
  }
}
