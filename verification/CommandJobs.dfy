/** The job journals of two qualification programs: every command is pushed to a list of
    jobs, the list is saved through the chained saver, and only then are the bytes sent. */
module CommandJobs {
  import opened Options
  import opened Saver

  datatype JobState = Uncertain | Received

  /** Hashing is injective, so a job's bytes stand for its hash. */
  datatype Job = Job(app: string, raw: string, state: JobState)

  /** `tickets[k]` is the save call made when job `k` was pushed; `sent` lists what went out, as
      indices into `jobs`. */
  datatype State = State(jobs: seq<Job>, saves: Chain<seq<Job>>, tickets: seq<nat>, sent: set<nat>)

  const EMPTY := State([], Chain([], 0, false, false, None, None), [], {})

  /** The first uncertain job of the app. */
  function Open(jobs: seq<Job>, app: string): (r: Option<nat>)
    ensures r.Some? ==> r.value < |jobs| && jobs[r.value].app == app && jobs[r.value].state == Uncertain
    ensures r.None? ==> forall k :: 0 <= k < |jobs| ==> !(jobs[k].app == app && jobs[k].state == Uncertain)
  {
    if jobs == [] then None
    else if jobs[0].app == app && jobs[0].state == Uncertain then Some(0)
    else match Open(jobs[1..], app)
      case None => None
      case Some(k) => Some(k + 1)
  }

  function Save(s: State): State {
    s.(saves := Apply(s.saves, Call(s.jobs)))
  }

  function Push(s: State, app: string, raw: string): State {
    Save(s.(jobs := s.jobs + [Job(app, raw, Uncertain)], tickets := s.tickets + [|s.saves.calls|]))
  }

  datatype Act =
    | BeforeSend(app: string, raw: string)
    | Transmit(job: nat)
    | Reply(raw: string)
    | SessionSave
    | Disk(op: Op<seq<Job>>)
    | Restart

  datatype Program = Hosted | Candidate

  function MarkReceived(jobs: seq<Job>, raw: string): seq<Job> {
    if jobs == [] then []
    else if jobs[0].raw == raw then [jobs[0].(state := Received)] + jobs[1..]
    else [jobs[0]] + MarkReceived(jobs[1..], raw)
  }

  predicate Known(jobs: seq<Job>, raw: string) {
    exists k :: 0 <= k < |jobs| && jobs[k].raw == raw
  }

  /** The transport sends job `k` once the save it awaited has resolved. The hosted arenas do not
      start again over an existing file. */
  predicate Can(p: Program, s: State, a: Act) {
    match a
    case Restart => p.Candidate? || s.saves.file.None?
    case Transmit(k) => k < |s.tickets| && Resolved(s.saves, s.tickets[k])
    case Disk(op) => !op.Call? && Enabled(s.saves, op)
    case _ => true
  }

  /** What a process that starts again knows: the jobs in the file. Having been read from there
      they count as its first save. */
  function Reloaded(s: State): State {
    match s.saves.file
    case None => EMPTY
    case Some(jobs) => ReadBack(jobs, set k | k in s.sent && k < |jobs|)
  }

  function ReadBack(jobs: seq<Job>, sent: set<nat>): State {
    State(jobs, Chain([jobs], 1, false, false, None, Some(jobs)), seq(|jobs|, _ => 0), sent)
  }

  /** The hosted arenas throw when the app has an uncertain job. The candidate sends such a job
      at once if it has these very bytes, and throws only if it has others. */
  function Do(p: Program, s: State, a: Act): State
    requires Can(p, s, a)
  {
    match a
    case BeforeSend(app, raw) =>
      (match Open(s.jobs, app)
       case None => Push(s, app, raw)
       case Some(k) => if p.Candidate? && s.jobs[k].raw == raw then s.(sent := s.sent + {k}) else s)
    case Transmit(k) => s.(sent := s.sent + {k})
    case Reply(raw) => if Known(s.jobs, raw) then Save(s.(jobs := MarkReceived(s.jobs, raw))) else s
    case SessionSave => Save(s)
    case Disk(op) => s.(saves := Apply(s.saves, op))
    case Restart => Reloaded(s)
  }

  /** The bytes of a list of jobs, in order. */
  function Bytes(jobs: seq<Job>): seq<string> {
    seq(|jobs|, k requires 0 <= k < |jobs| => jobs[k].raw)
  }

  ghost predicate OneOpen(jobs: seq<Job>) {
    forall i, j :: 0 <= i < j < |jobs| && jobs[i].app == jobs[j].app ==> !(jobs[i].state == jobs[j].state == Uncertain)
  }

  /** Snapshots only ever add bytes. */
  ghost predicate Growing(jobs: seq<Job>, calls: seq<seq<Job>>) {
    && (forall i :: 0 <= i < |calls| ==> Bytes(calls[i]) <= Bytes(jobs))
    && (forall i, j :: 0 <= i < j < |calls| ==> |calls[i]| <= |calls[j]|)
  }

  /** The snapshot of job `k`'s own save is the first that holds job `k`. */
  ghost predicate Ticketed(tickets: seq<nat>, calls: seq<seq<Job>>) {
    && (forall k :: 0 <= k < |tickets| ==> tickets[k] < |calls| && k < |calls[tickets[k]]|)
    && (forall i, k :: 0 <= i < |calls| && 0 <= k < |calls[i]| && k < |tickets| ==> tickets[k] <= i)
  }

  ghost predicate Valid(s: State) {
    && Ordered(s.saves, None)
    && |s.tickets| == |s.jobs| && Growing(s.jobs, s.saves.calls) && Ticketed(s.tickets, s.saves.calls)
    && (forall k :: k in s.sent ==> k < |s.jobs|)
  }

  /** Everything was sent after its own save had resolved. */
  ghost predicate Awaited(s: State)
    requires Valid(s)
  {
    forall k :: k in s.sent ==> Resolved(s.saves, s.tickets[k])
  }

  /** Job `k` is in the file, with its bytes. */
  ghost predicate Durable(s: State, k: nat)
    requires k < |s.jobs|
  {
    s.saves.file.Some? && k < |s.saves.file.value| && s.saves.file.value[k].raw == s.jobs[k].raw
  }

  /** A job is durable exactly when the save that first carried it has resolved. */
  lemma DurableIffResolved(s: State, k: nat)
    requires Valid(s) && k < |s.jobs|
    ensures Durable(s, k) <==> Resolved(s.saves, s.tickets[k])
  {
    var d := s.saves.done;
    if d > 0 {
      assert Bytes(s.saves.calls[d - 1]) <= Bytes(s.jobs);
      if k < |s.saves.calls[d - 1]| {
        assert Bytes(s.saves.calls[d - 1])[k] == Bytes(s.jobs)[k];
      }
      assert Resolved(s.saves, s.tickets[k]) ==> |s.saves.calls[s.tickets[k]]| <= |s.saves.calls[d - 1]|;
    }
  }

  // ---- every act keeps it

  /** Saving the list once it has grown to `next`. */
  lemma SaveGrows(jobs: seq<Job>, next: seq<Job>, calls: seq<seq<Job>>)
    requires Growing(jobs, calls) && Bytes(jobs) <= Bytes(next)
    ensures Growing(next, calls + [next])
    ensures forall i :: 0 <= i < |calls| ==> |calls[i]| <= |jobs|
  {
    assert |Bytes(jobs)| <= |Bytes(next)|;
    forall i | 0 <= i < |calls| ensures |calls[i]| <= |jobs| && Bytes(calls[i]) <= Bytes(next) {
      assert |Bytes(calls[i])| <= |Bytes(jobs)|;
    }
  }

  lemma PushTickets(tickets: seq<nat>, calls: seq<seq<Job>>, next: seq<Job>)
    requires Ticketed(tickets, calls) && |next| == |tickets| + 1
    requires forall i :: 0 <= i < |calls| ==> |calls[i]| <= |tickets|
    ensures Ticketed(tickets + [|calls|], calls + [next])
  {
  }

  lemma SaveTickets(tickets: seq<nat>, calls: seq<seq<Job>>, next: seq<Job>)
    requires Ticketed(tickets, calls) && |next| == |tickets|
    ensures Ticketed(tickets, calls + [next])
  {
  }

  lemma PushKeeps(s: State, app: string, raw: string)
    requires Valid(s)
    ensures Valid(Push(s, app, raw))
  {
    var t := Push(s, app, raw);
    assert Bytes(t.jobs) == Bytes(s.jobs) + [raw];
    SaveGrows(s.jobs, t.jobs, s.saves.calls);
    PushTickets(s.tickets, s.saves.calls, t.jobs);
  }

  lemma {:induction false} MarkKeepsBytes(jobs: seq<Job>, raw: string)
    ensures |MarkReceived(jobs, raw)| == |jobs|
    ensures forall k :: 0 <= k < |jobs| ==>
      MarkReceived(jobs, raw)[k] == jobs[k] || MarkReceived(jobs, raw)[k] == jobs[k].(state := Received)
  {
    if jobs != [] && jobs[0].raw != raw { MarkKeepsBytes(jobs[1..], raw); }
  }

  /** A further save of a list with the same bytes: a reply, or a new session. */
  lemma SaveKeeps(s: State, jobs: seq<Job>)
    requires Valid(s) && |jobs| == |s.jobs| && Bytes(jobs) == Bytes(s.jobs)
    ensures Valid(Save(s.(jobs := jobs)))
  {
    SaveGrows(s.jobs, jobs, s.saves.calls);
    SaveTickets(s.tickets, s.saves.calls, jobs);
  }

  lemma ReplyKeeps(s: State, raw: string)
    requires Valid(s)
    ensures Valid(Save(s.(jobs := MarkReceived(s.jobs, raw))))
  {
    MarkKeepsBytes(s.jobs, raw);
    assert Bytes(MarkReceived(s.jobs, raw)) == Bytes(s.jobs);
    SaveKeeps(s, MarkReceived(s.jobs, raw));
  }

  lemma DiskKeeps(s: State, op: Op<seq<Job>>)
    requires Valid(s) && !op.Call? && Enabled(s.saves, op)
    ensures Valid(s.(saves := Apply(s.saves, op)))
  {
    ApplyOrdered(s.saves, op, None);
  }

  lemma DoKeepsValid(p: Program, s: State, a: Act)
    requires Valid(s) && Can(p, s, a)
    ensures Valid(Do(p, s, a))
  {
    match a
    case BeforeSend(app, raw) => PushKeeps(s, app, raw);
    case Reply(raw) => ReplyKeeps(s, raw);
    case Transmit(k) =>
    case SessionSave => SaveKeeps(s, s.jobs);
    case Disk(op) => DiskKeeps(s, op);
    case Restart => ReloadedValid(s);
  }

  lemma ReloadedValid(s: State)
    requires Valid(s)
    ensures Valid(Reloaded(s))
  {
    if s.saves.file.Some? {
      ReadBackValid(s.saves.file.value, set k | k in s.sent && k < |s.saves.file.value|);
    } else {
      StartsValid();
    }
  }

  lemma ReadBackValid(jobs: seq<Job>, sent: set<nat>)
    requires forall k :: k in sent ==> k < |jobs|
    ensures Valid(ReadBack(jobs, sent))
  {
  }

  /** Tickets and resolved saves stay as they are. */
  lemma DoKeepsAwaited(s: State, a: Act)
    requires Valid(s) && Can(Hosted, s, a) && Awaited(s)
    requires Valid(Do(Hosted, s, a))
    ensures Awaited(Do(Hosted, s, a))
  {
  }

  /** The list and all its snapshots have at most one uncertain job an app. */
  ghost predicate Tidy(s: State) {
    OneOpen(s.jobs) && forall i :: 0 <= i < |s.saves.calls| ==> OneOpen(s.saves.calls[i])
  }

  lemma DoKeepsTidy(p: Program, s: State, a: Act)
    requires Valid(s) && Tidy(s) && Can(p, s, a)
    ensures Tidy(Do(p, s, a))
  {
    match a
    case BeforeSend(app, raw) => assert Push(s, app, raw).jobs == s.jobs + [Job(app, raw, Uncertain)];
    case Reply(raw) => MarkKeepsBytes(s.jobs, raw);
    case Disk(op) => assert Apply(s.saves, op).calls == s.saves.calls;
    case _ =>
  }

  ghost predicate CanRun(p: Program, s: State, acts: seq<Act>)
    decreases |acts|
  {
    acts == [] || (Can(p, s, acts[0]) && CanRun(p, Do(p, s, acts[0]), acts[1..]))
  }

  ghost function Run(p: Program, s: State, acts: seq<Act>): State
    requires CanRun(p, s, acts)
    decreases |acts|
  {
    if acts == [] then s else Run(p, Do(p, s, acts[0]), acts[1..])
  }

  lemma {:induction false} RunKeeps(p: Program, s: State, acts: seq<Act>)
    requires Valid(s) && Tidy(s) && CanRun(p, s, acts)
    ensures Valid(Run(p, s, acts)) && Tidy(Run(p, s, acts))
    ensures p.Hosted? && Awaited(s) ==> Awaited(Run(p, s, acts))
    decreases |acts|
  {
    if acts != [] {
      DoKeepsValid(p, s, acts[0]);
      DoKeepsTidy(p, s, acts[0]);
      if p.Hosted? && Awaited(s) { DoKeepsAwaited(s, acts[0]); }
      RunKeeps(p, Do(p, s, acts[0]), acts[1..]);
    }
  }

  ghost predicate SentIsDurable(s: State) {
    forall k :: k in s.sent ==> k < |s.jobs| && Durable(s, k)
  }

  lemma StartsValid()
    ensures Valid(EMPTY) && Tidy(EMPTY) && Awaited(EMPTY)
  {
  }

  lemma SentDurableIff(s: State)
    requires Valid(s)
    ensures forall k :: k in s.sent ==> (Durable(s, k) <==> Resolved(s.saves, s.tickets[k]))
  {
    forall k | k in s.sent ensures Durable(s, k) <==> Resolved(s.saves, s.tickets[k]) { DurableIffResolved(s, k); }
  }

  lemma HostedReaches(s: State, acts: seq<Act>)
    requires Valid(s) && Tidy(s) && Awaited(s) && CanRun(Hosted, s, acts)
    ensures OneOpen(Run(Hosted, s, acts).jobs) && SentIsDurable(Run(Hosted, s, acts))
  {
    RunKeeps(Hosted, s, acts);
    SentDurableIff(Run(Hosted, s, acts));
  }

  /** What was sent is in the file exactly when the save of its first attempt has resolved. */
  ghost predicate DurableIffSaved(s: State) {
    |s.tickets| == |s.jobs| && forall k :: k in s.sent ==> k < |s.jobs| && (Durable(s, k) <==> Resolved(s.saves, s.tickets[k]))
  }

  lemma CandidateReaches(s: State, acts: seq<Act>)
    requires Valid(s) && Tidy(s) && CanRun(Candidate, s, acts)
    ensures OneOpen(Run(Candidate, s, acts).jobs) && DurableIffSaved(Run(Candidate, s, acts))
  {
    RunKeeps(Candidate, s, acts);
    SentDurableIff(Run(Candidate, s, acts));
  }

  /** The hosted arenas, whatever the interleaving of commands, replies and disk writes: an app
      has at most one uncertain command, and everything that was sent is in the file. */
  lemma OneOpenAndDurable(acts: seq<Act>)
    requires CanRun(Hosted, EMPTY, acts)
    ensures OneOpen(Run(Hosted, EMPTY, acts).jobs) && SentIsDurable(Run(Hosted, EMPTY, acts))
  {
    StartsValid();
    HostedReaches(EMPTY, acts);
  }

  /** The candidate, in every state it reaches, also by starting again: an app has at most one
      uncertain command, and what was sent is in the file exactly when the save of its first
      attempt has resolved. What was read back from the file is such a case. */
  lemma ResendIsDurableIff(acts: seq<Act>)
    requires CanRun(Candidate, EMPTY, acts)
    ensures OneOpen(Run(Candidate, EMPTY, acts).jobs) && DurableIffSaved(Run(Candidate, EMPTY, acts))
  {
    StartsValid();
    CandidateReaches(EMPTY, acts);
  }

  lemma DoKeepsDurable(p: Program, s: State, a: Act, k: nat)
    requires Valid(s) && Can(p, s, a) && k < |s.jobs| && Durable(s, k)
    ensures k < |Do(p, s, a).jobs| && Durable(Do(p, s, a), k) && Do(p, s, a).jobs[k].raw == s.jobs[k].raw
  {
    DurableIffResolved(s, k);
    DoKeepsValid(p, s, a);
    match a
    case Restart =>
    case Reply(raw) => MarkKeepsBytes(s.jobs, raw);
      DurableIffResolved(Do(p, s, a), k);
    case _ => DurableIffResolved(Do(p, s, a), k);
  }

  lemma {:induction false} RunKeepsDurable(p: Program, s: State, acts: seq<Act>, k: nat)
    requires Valid(s) && CanRun(p, s, acts) && k < |s.jobs| && Durable(s, k)
    ensures var t := Run(p, s, acts); k < |t.jobs| && Durable(t, k) && t.jobs[k].raw == s.jobs[k].raw
    decreases |acts|
  {
    if acts != [] {
      DoKeepsDurable(p, s, acts[0], k);
      DoKeepsValid(p, s, acts[0]);
      RunKeepsDurable(p, Do(p, s, acts[0]), acts[1..], k);
    }
  }

  /** What is in the file stays there, at its place, over everything that follows, so that whatever
      a process finds when it starts again it may resend at any later time. */
  lemma DurableForGood(p: Program, acts: seq<Act>, more: seq<Act>, k: nat)
    requires CanRun(p, EMPTY, acts) && CanRun(p, Run(p, EMPTY, acts), more)
    requires k < |Run(p, EMPTY, acts).jobs| && Durable(Run(p, EMPTY, acts), k)
    ensures var t := Run(p, Run(p, EMPTY, acts), more);
      k < |t.jobs| && Durable(t, k) && t.jobs[k].raw == Run(p, EMPTY, acts).jobs[k].raw
  {
    StartsValid();
    RunKeeps(p, EMPTY, acts);
    RunKeepsDurable(p, Run(p, EMPTY, acts), more, k);
  }

  /** All that a process finds when it starts again is in the file. */
  lemma ReloadedIsDurable(s: State, k: nat)
    requires Valid(s) && k < |Reloaded(s).jobs|
    ensures k < |s.jobs| && Durable(Reloaded(s), k) && Reloaded(s).jobs[k].raw == s.jobs[k].raw
  {
    var d := s.saves.done;
    assert Bytes(s.saves.calls[d - 1]) <= Bytes(s.jobs);
    assert Bytes(s.saves.calls[d - 1])[k] == Bytes(s.jobs)[k];
  }

  /** A failed save, then a retry of the same command: the bytes go out and no file holds them. */
  lemma ResendMayBeUndurable(app: string, raw: string)
    ensures var acts := [BeforeSend(app, raw), Disk(Write(false)), BeforeSend(app, raw)];
      CanRun(Candidate, EMPTY, acts) && !SentIsDurable(Run(Candidate, EMPTY, acts))
  {
    var acts := [BeforeSend(app, raw), Disk(Write(false)), BeforeSend(app, raw)];
    var s := Do(Candidate, EMPTY, acts[0]);
    assert s.jobs == [Job(app, raw, Uncertain)];
    var t := Do(Candidate, s, acts[1]);
    assert Open(t.jobs, app) == Some(0);
    var u := Do(Candidate, t, acts[2]);
    assert 0 in u.sent && u.saves.file.None?;
    assert acts[1..] == [acts[1], acts[2]] && acts[1..][1..] == [acts[2]] && acts[1..][1..][1..] == [];
    assert CanRun(Candidate, u, []) && Run(Candidate, u, []) == u;
    assert CanRun(Candidate, t, [acts[2]]) && Run(Candidate, t, [acts[2]]) == u;
    assert CanRun(Candidate, s, acts[1..]) && Run(Candidate, s, acts[1..]) == u;
  }

  // ---- the program

  /** The journal as the hosted arenas keep it: a list that is pushed to and marked, saved through
      the chained saver after every change. */
  class Session {
    var jobs: seq<Job>
    var saves: Chain<seq<Job>>
    var tickets: seq<nat>
    var sent: set<nat>

    function Contents(): State
      reads this
    {
      State(jobs, saves, tickets, sent)
    }

    /** `save`: the snapshot is taken now, the write waits its turn. */
    method SaveNow() returns (ticket: nat)
      modifies this`saves
      ensures ticket == |old(saves).calls| && Contents() == Save(old(Contents()))
    {
      ticket := |saves.calls|;
      saves := Apply(saves, Call(jobs));
    }

    /** A process that starts again reads the list back. */
    method Reload()
      modifies this
      ensures Contents() == Do(Candidate, old(Contents()), Restart)
    {
      if saves.file.None? {
        jobs, saves, tickets, sent := [], EMPTY.saves, [], {};
      } else {
        jobs := saves.file.value;
        saves := Chain([jobs], 1, false, false, None, Some(jobs));
        tickets := seq(|jobs|, _ => 0);
        sent := set k | k in sent && k < |jobs|;
      }
    }

    method BeforeSend(app: string, raw: string) returns (thrown: bool)
      modifies this
      ensures Contents() == Do(Hosted, old(Contents()), Act.BeforeSend(app, raw))
      ensures thrown <==> exists k :: 0 <= k < |old(jobs)| && old(jobs)[k].app == app && old(jobs)[k].state == Uncertain
      ensures thrown ==> Contents() == old(Contents())
      ensures !thrown ==> jobs == old(jobs) + [Job(app, raw, Uncertain)] && Saved(old(saves), saves, jobs)
      ensures !thrown ==> tickets == old(tickets) + [|old(saves).calls|] && sent == old(sent)
    {
      for k := 0 to |jobs|
        invariant jobs == old(jobs) && Contents() == old(Contents())
        invariant forall j :: 0 <= j < k ==> !(jobs[j].app == app && jobs[j].state == Uncertain)
      {
        if jobs[k].app == app && jobs[k].state == Uncertain { return true; }
      }
      jobs := jobs + [Job(app, raw, Uncertain)];
      var ticket := SaveNow();
      tickets := tickets + [ticket];
      thrown := false;
    }

    /** The candidate's version: the first uncertain job of the app decides. */
    method BeforeSendAgain(app: string, raw: string) returns (thrown: bool)
      modifies this
      ensures Contents() == Do(Candidate, old(Contents()), Act.BeforeSend(app, raw))
      ensures thrown <==> Open(old(jobs), app).Some? && old(jobs)[Open(old(jobs), app).value].raw != raw
      ensures Open(old(jobs), app).Some? ==> jobs == old(jobs) && saves == old(saves) && tickets == old(tickets)
      ensures Open(old(jobs), app).Some? ==> sent == old(sent) + (if thrown then {} else {Open(old(jobs), app).value})
      ensures Open(old(jobs), app).None? ==> jobs == old(jobs) + [Job(app, raw, Uncertain)] && Saved(old(saves), saves, jobs)
      ensures Open(old(jobs), app).None? ==> tickets == old(tickets) + [|old(saves).calls|] && sent == old(sent)
    {
      for k := 0 to |jobs|
        invariant jobs == old(jobs) && Contents() == old(Contents())
        invariant forall j :: 0 <= j < k ==> !(jobs[j].app == app && jobs[j].state == Uncertain)
      {
        if jobs[k].app == app && jobs[k].state == Uncertain {
          OpenAt(jobs, app, k);
          if jobs[k].raw == raw { sent := sent + {k}; }
          return jobs[k].raw != raw;
        }
      }
      jobs := jobs + [Job(app, raw, Uncertain)];
      var ticket := SaveNow();
      tickets := tickets + [ticket];
      thrown := false;
    }

    /** Only the first job with these bytes is marked, and only then is the list saved. */
    method Received(raw: string)
      modifies this
      ensures Contents() == Do(Hosted, old(Contents()), Reply(raw)) == Do(Candidate, old(Contents()), Reply(raw))
      ensures forall k :: 0 <= k < |old(jobs)| && old(jobs)[k].raw == raw && (forall j :: 0 <= j < k ==> old(jobs)[j].raw != raw) ==>
        jobs == old(jobs)[k := Job(old(jobs)[k].app, raw, JobState.Received)] && Saved(old(saves), saves, jobs)
      ensures (forall k :: 0 <= k < |old(jobs)| ==> old(jobs)[k].raw != raw) ==> Contents() == old(Contents())
    {
      for k := 0 to |jobs|
        invariant jobs == old(jobs) && Contents() == old(Contents())
        invariant forall j :: 0 <= j < k ==> jobs[j].raw != raw
      {
        if jobs[k].raw == raw {
          MarkAt(jobs, raw, k);
          jobs := jobs[k := jobs[k].(state := JobState.Received)];
          var ticket := SaveNow();
          return;
        }
      }
    }
  }

  /** One more save has been called, with this list. */
  ghost predicate Saved(before: Chain<seq<Job>>, after: Chain<seq<Job>>, jobs: seq<Job>) {
    after == before.(calls := before.calls + [jobs])
  }

  lemma {:induction false} OpenAt(jobs: seq<Job>, app: string, k: nat)
    requires k < |jobs| && jobs[k].app == app && jobs[k].state == Uncertain
    requires forall j :: 0 <= j < k ==> !(jobs[j].app == app && jobs[j].state == Uncertain)
    ensures Open(jobs, app) == Some(k)
  {
    if k > 0 { OpenAt(jobs[1..], app, k - 1); }
  }

  lemma {:induction false} MarkAt(jobs: seq<Job>, raw: string, k: nat)
    requires k < |jobs| && jobs[k].raw == raw && forall j :: 0 <= j < k ==> jobs[j].raw != raw
    ensures MarkReceived(jobs, raw) == jobs[k := jobs[k].(state := JobState.Received)]
  {
    if k > 0 {
      MarkAt(jobs[1..], raw, k - 1);
      assert jobs == [jobs[0]] + jobs[1..];
    }
  }
}
