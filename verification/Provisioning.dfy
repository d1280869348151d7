/** The four creation programs as they are written: one record, assigned through its stages
    with a save after each. Every statement is a step of the process model, so what holds of
    all traces without overlap holds of every call. */
module Provisioning {
  import opened Creation

  /** Some trace in which runs do not overlap leads from `v` to `w`. */
  ghost predicate Reaches(p: Program, v: World, w: World) {
    exists acts :: Leads(p, v, acts, 1, w)
  }

  lemma ReachesSelf(p: Program, v: World)
    ensures Reaches(p, v, v)
  {
    assert Leads(p, v, [], 1, v);
  }

  lemma ReachesNext(p: Program, v: World, w: World, a: Act)
    requires Inv(w) && Reaches(p, v, w) && Can(w, a, 1)
    ensures Reaches(p, v, Do(p, w, a, 1)) && Inv(Do(p, w, a, 1)) && Forward(w.file, Do(p, w, a, 1).file)
  {
    var acts :| Leads(p, v, acts, 1, w);
    Next(p, v, acts, a, 1, w, Do(p, w, a, 1));
    DoKeepsInv(p, w, a, 1);
  }

  /** What a call is told: whether each save succeeds, whether the hub admits it, and the answer
      to its request, if one arrives. */
  datatype Answers = Answers(waiting: bool, admitted: bool, sending: bool, reply: Input, saved: bool, again: bool)

  class Journal {
    const program: Program
    var file: File
    var posts: seq<nat>
    ghost var w: World

    constructor (program: Program)
      ensures this.program == program && file == map[] && posts == [] && Idle(EMPTY)
    {
      this.program, file, posts, w := program, map[], [], EMPTY;
      new;
      ReachesSelf(program, EMPTY);
    }

    ghost predicate Synced(start: World)
      reads this
    {
      Inv(w) && Reaches(program, start, w) && w.file == file && w.posts == posts
    }

    /** No run is alive. */
    ghost predicate Idle(start: World)
      reads this
    {
      Synced(start) && w.runs == map[]
    }

    /** The run stands before `pc` with `memory`. */
    ghost predicate At(start: World, i: nat, memory: File, pc: Pc)
      reads this
    {
      Synced(start) && w.runs == map[0 := Run(i, memory, pc)]
    }

    ghost method Note(start: World, a: Act)
      requires Synced(start) && Can(w, a, 1)
      modifies this`w
      ensures w == Do(program, old(w), a, 1) && Inv(w) && Reaches(program, start, w)
      ensures Forward(old(w.file), w.file)
    {
      ReachesNext(program, start, w, a);
      w := Do(program, w, a, 1);
    }

    /** The file has been read, and the record asks for nothing. */
    ghost method Pass(start: World, i: nat)
      requires Idle(start) && Load(program, i, file) == []
      modifies this`w
      ensures Idle(start)
    {
      Note(start, Begin(0, i));
    }

    /** The file has been read, and the run goes on with this memory. */
    ghost method Start(start: World, i: nat, memory: File, pc: Pc)
      requires Idle(start) && Load(program, i, file) == [Run(i, memory, pc)]
      modifies this`w
      ensures At(start, i, memory, pc)
    {
      Note(start, Begin(0, i));
    }

    /** `writeFile`, then `rename`; a failure of either ends the call. */
    method Save(i: nat, memory: File, ok: bool, ghost pc: Pc, ghost start: World)
      requires At(start, i, memory, pc) && (pc == SaveWaiting || pc == SaveSending)
      modifies this
      ensures posts == old(posts) && file == (if ok then memory else old(file)) && Forward(old(file), file)
      ensures if ok then At(start, i, memory, if pc == SaveWaiting then Probe else Post) else Idle(start)
    {
      Note(start, Step(0, if ok then Good else Fail));
      if ok { file := memory; }
    }

    /** The hub admits the rehearsal, or its refusal is saved and the call ends. */
    method Admit(i: nat, memory: File, ok: bool, ghost start: World) returns (next: File)
      requires At(start, i, memory, Probe)
      modifies this
      ensures posts == old(posts) && Forward(old(file), file) && next == Put(memory, i, Sending, false)
      ensures if ok then At(start, i, next, SaveSending) && file == old(file) else Idle(start) && file == memory
    {
      Note(start, Step(0, if ok then Good else Fail));
      if !ok { file := memory; }
      next := Put(memory, i, Sending, false);
    }

    /** The intent is saved, and then the request leaves. */
    method Send(i: nat, memory: File, ok: bool, ghost start: World)
      requires At(start, i, memory, SaveSending)
      modifies this
      ensures Forward(old(file), file)
      ensures file == if ok then memory else old(file)
      ensures !ok ==> Idle(start) && posts == old(posts)
      ensures ok ==> At(start, i, memory, Await) && posts == old(posts) + [i] && i !in old(posts) && Rank(file, i) >= 2
    {
      Save(i, memory, ok, SaveSending, start);
      if ok {
        Note(start, Step(0, Good));
        posts := posts + [i];
      }
    }

    /** An answer, or its failure to come, changes the record in memory only. */
    ghost method Receive(start: World, i: nat, memory: File, reply: Input, next: File, pc: Pc)
      requires At(start, i, memory, Await) && Answer(program, Run(i, memory, Await), reply) == [Run(i, next, pc)]
      modifies this`w
      ensures At(start, i, next, pc)
    {
      ReceiveNext(program, w, i, memory, reply, next, pc);
      Note(start, Step(0, reply));
    }

    /** A final save, after which the call is over. */
    method Close(i: nat, memory: File, ok: bool, ghost pc: Pc, ghost start: World)
      requires At(start, i, memory, pc) && (pc == SaveUncertain || (pc == SaveReply && (ok || program != Drand)))
      modifies this
      ensures posts == old(posts) && file == (if ok then memory else old(file)) && Idle(start)
      ensures Forward(old(file), file)
    {
      Note(start, Step(0, if ok then Good else Fail));
      if ok { file := memory; }
    }

    /** The rehearsal: it waits, is admitted, sends, and then holds an answer, an application to
        inspect, or an uncertain attempt. */
    method Rehearse(i: nat, a: Answers)
      requires program == Rehearsal && Idle(w)
      modifies this
      ensures Idle(old(w)) && Once(old(file), file, old(posts), posts, i)
      ensures var asks := i in old(file) ==> !old(file)[i].app && old(file)[i].stage == Waiting;
        var goes := asks && a.waiting && a.admitted && a.sending;
        && posts == old(posts) + (if goes then [i] else [])
        && file == (if goes then old(file)[i := Rehearsed(a)]
                    else if asks && a.waiting then old(file)[i := Record(Waiting, false)] else old(file))
    {
      ghost var start := w;
      if i in file && (file[i].app || file[i].stage != Waiting) {
        Pass(start, i);
        return;
      }
      var memory := Put(file, i, Waiting, false);
      Start(start, i, memory, SaveWaiting);
      Save(i, memory, a.waiting, SaveWaiting, start);
      if !a.waiting { return; }
      memory := Admit(i, memory, a.admitted, start);
      if !a.admitted { return; }
      PutTwice(old(file), i, Waiting, Sending);
      Send(i, memory, a.sending, start);
      if !a.sending { return; }
      Hear(i, memory, a, start);
      PutAgain(old(file), i, Record(Sending, false), Rehearsed(a));
    }

    /** The rehearsal's answer, or its failure to come, in the file if it can be saved. */
    method Hear(i: nat, memory: File, a: Answers, ghost start: World)
      requires At(start, i, memory, Await) && program == Rehearsal && file == memory && i in memory && memory[i] == Record(Sending, false)
      modifies this
      ensures posts == old(posts) && Idle(start) && Forward(old(file), file) && file == memory[i := Rehearsed(a)]
    {
      var next := Put(memory, i, Uncertain, false);
      if a.reply.Reply? && a.reply.app { next := Put(memory, i, if a.reply.ok then Answered else Inspection, true); }
      Receive(start, i, memory, a.reply, next, SaveReply);
      Close(i, next, a.saved, SaveReply, start);
      if !a.saved { assert memory == memory[i := memory[i]]; }
    }

    /** The one-record programs. A drand qualification whose save of the answer fails saves once
        more that it is uncertain. */
    method Provision(i: nat, a: Answers)
      requires (program == Realtime || program == Drand) && Idle(w)
      modifies this
      ensures Idle(old(w)) && Once(old(file), file, old(posts), posts, i)
      ensures if i in old(file) || !a.sending then file == old(file) && posts == old(posts)
              else posts == old(posts) + [i] && file == old(file)[i := Kept(program, a)]
    {
      ghost var start := w;
      if i in file {
        Pass(start, i);
        return;
      }
      var memory := Put(file, i, Sending, false);
      Start(start, i, memory, SaveSending);
      Send(i, memory, a.sending, start);
      if !a.sending { return; }
      Learn(i, memory, a, start);
      PutAgain(old(file), i, Record(Sending, false), Kept(program, a));
    }

    /** Their answer, or the doubt without one. */
    method Learn(i: nat, memory: File, a: Answers, ghost start: World)
      requires At(start, i, memory, Await) && (program == Realtime || program == Drand)
      requires file == memory && i in memory && memory[i] == Record(Sending, false)
      modifies this
      ensures posts == old(posts) && Idle(start) && Forward(old(file), file) && file == memory[i := Kept(program, a)]
    {
      if a.reply.Reply? { Hold(i, memory, a, start); } else { Miss(i, memory, a, start); }
      if file == memory { assert memory == memory[i := memory[i]]; }
    }

    method Hold(i: nat, memory: File, a: Answers, ghost start: World)
      requires At(start, i, memory, Await) && (program == Realtime || program == Drand) && a.reply.Reply?
      requires file == memory && i in memory && memory[i] == Record(Sending, false)
      modifies this
      ensures posts == old(posts) && Idle(start) && Forward(old(file), file)
      ensures if a.saved || (program == Drand && a.again) then file == memory[i := Kept(program, a)] else file == memory
    {
      var next := Put(memory, i, if a.reply.ok && a.reply.app then Answered else Inspection, a.reply.app);
      Receive(start, i, memory, a.reply, next, SaveReply);
      Settle(i, next, a, start);
      PutAgain(memory, i, next[i], Kept(program, a));
    }

    method Miss(i: nat, memory: File, a: Answers, ghost start: World)
      requires At(start, i, memory, Await) && (program == Realtime || program == Drand) && !a.reply.Reply?
      requires file == memory
      modifies this
      ensures posts == old(posts) && Idle(start) && Forward(old(file), file)
      ensures file == if a.saved then memory[i := Record(Uncertain, false)] else memory
    {
      var next := Put(memory, i, Uncertain, false);
      Receive(start, i, memory, a.reply, next, if program == Drand then SaveUncertain else SaveReply);
      Close(i, next, a.saved, if program == Drand then SaveUncertain else SaveReply, start);
    }

    /** The save of the answer, and what the drand qualification does when it fails. */
    method Settle(i: nat, memory: File, a: Answers, ghost start: World)
      requires At(start, i, memory, SaveReply) && i in memory
      modifies this
      ensures posts == old(posts) && Idle(start) && Forward(old(file), file)
      ensures file == if a.saved then memory
                      else if program == Drand && a.again then memory[i := Record(Uncertain, memory[i].app)] else old(file)
    {
      if program == Drand && !a.saved {
        var next := Put(memory, i, Uncertain, memory[i].app);
        Doubt(start, i, memory);
        Close(i, next, a.again, SaveUncertain, start);
      } else {
        Close(i, memory, a.saved, SaveReply, start);
      }
    }

    ghost method Doubt(start: World, i: nat, memory: File)
      requires At(start, i, memory, SaveReply) && i in memory && program == Drand
      modifies this`w
      ensures At(start, i, Put(memory, i, Uncertain, memory[i].app), SaveUncertain)
    {
      DoubtNext(w, i, memory);
      Note(start, Step(0, Fail));
    }

    /** The match: with its intent on file it only looks up. */
    method Host(i: nat, a: Answers)
      requires program == Match && Idle(w)
      modifies this
      ensures Idle(old(w)) && Once(old(file), file, old(posts), posts, i)
      ensures posts == old(posts) + (if i !in old(file) && a.sending then [i] else [])
      ensures var found := a.reply == Reply(true, true) && a.saved;
        file == if i in old(file) then (if !old(file)[i].app && found then old(file)[i := Record(Answered, true)] else old(file))
                else if !a.sending then old(file)
                else old(file)[i := if found then Record(Answered, true) else Record(Sending, false)]
    {
      ghost var start := w;
      if i in file && file[i].app {
        Pass(start, i);
        return;
      }
      if i in file {
        Find(i, a, start);
        return;
      }
      var memory := Put(file, i, Sending, false);
      Start(start, i, memory, SaveSending);
      Send(i, memory, a.sending, start);
      if !a.sending { return; }
      Hosted(i, memory, a, start);
      PutAgain(old(file), i, Record(Sending, false), Record(Answered, true));
    }

    method Hosted(i: nat, memory: File, a: Answers, ghost start: World)
      requires At(start, i, memory, Await) && program == Match && file == memory && i in memory
      modifies this
      ensures posts == old(posts) && Idle(start) && Forward(old(file), file)
      ensures file == if a.reply == Reply(true, true) && a.saved then memory[i := Record(Answered, true)] else memory
    {
      if a.reply != Reply(true, true) {
        Note(start, Step(0, a.reply));
        return;
      }
      var next := Put(memory, i, Answered, true);
      Receive(start, i, memory, a.reply, next, SaveReply);
      Close(i, next, a.saved, SaveReply, start);
    }

    /** The lookup that an earlier intent still permits. */
    method Find(i: nat, a: Answers, ghost start: World)
      requires program == Match && Idle(start) && i in file && !file[i].app
      modifies this
      ensures Idle(start) && posts == old(posts) && Forward(old(file), file)
      ensures file == if a.reply == Reply(true, true) && a.saved then old(file)[i := Record(Answered, true)] else old(file)
    {
      var memory := file;
      Start(start, i, memory, Lookup);
      Note(start, Step(0, a.reply));
      if a.reply == Reply(true, true) {
        memory := Put(memory, i, Answered, true);
        Close(i, memory, a.saved, SaveReply, start);
      }
    }
  }

  /** The record of a rehearsal that was posted: its answer, an application to inspect, or doubt; and
      the intent, if that could not be saved. */
  function Rehearsed(a: Answers): Record {
    if !a.saved then Record(Sending, false)
    else if !a.reply.Reply? || !a.reply.app then Record(Uncertain, false)
    else Record(if a.reply.ok then Answered else Inspection, true)
  }

  lemma PutTwice(f: File, i: nat, first: Stage, last: Stage)
    ensures Put(Put(f, i, first, false), i, last, false) == Put(f, i, last, false)
  {
  }

  lemma PutAgain(f: File, i: nat, first: Record, last: Record)
    ensures f[i := first][i := last] == f[i := last]
  {
  }

  /** The record a one-record program leaves behind a request: what the answer said, or that there was
      none; the intent, if that could not be saved; and from the drand qualification, if it then can be, doubt. */
  function Kept(p: Program, a: Answers): Record {
    match a.reply
    case Reply(ok, app) =>
      if a.saved then Record(if ok && app then Answered else Inspection, app)
      else if p == Drand && a.again then Record(Uncertain, app) else Record(Sending, false)
    case _ => Record(if a.saved then Uncertain else Sending, false)
  }

  lemma DoubtNext(w: World, i: nat, memory: File)
    requires w.runs == map[0 := Run(i, memory, SaveReply)] && i in memory
    ensures Do(Drand, w, Step(0, Fail), 1) ==
      w.(runs := map[0 := Run(i, Put(memory, i, Uncertain, memory[i].app), SaveUncertain)])
  {
    assert w.runs[0] == Run(i, memory, SaveReply);
  }

  lemma ReceiveNext(p: Program, w: World, i: nat, memory: File, reply: Input, next: File, pc: Pc)
    requires w.runs == map[0 := Run(i, memory, Await)] && Answer(p, Run(i, memory, Await), reply) == [Run(i, next, pc)]
    ensures Do(p, w, Step(0, reply), 1) == w.(runs := map[0 := Run(i, next, pc)])
  {
    assert w.runs[0] == Run(i, memory, Await);
  }

  /** A call posts at most once, never again for an index it or an earlier call may have posted,
      leaves the record of every post behind, and moves records forward only. */
  ghost predicate Once(f: File, g: File, posts: seq<nat>, after: seq<nat>, i: nat) {
    && (after == posts || (after == posts + [i] && i !in posts && Rank(f, i) <= 1 && Rank(g, i) >= 2))
    && Forward(f, g)
  }
}
