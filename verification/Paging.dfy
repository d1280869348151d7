/** Collecting a match's snapshots twice over: from the chain in windows of 100 blocks, and from
    the indexer page by page behind a version cursor. */
module Paging {
  // ---- block windows

  datatype Log = Log(block: nat, data: string)

  /** A node's logs, in block order. */
  ghost predicate InOrder(logs: seq<Log>) {
    forall i, j :: 0 <= i < j < |logs| ==> logs[i].block <= logs[j].block
  }

  /** What `getLogs` returns: the logs of the blocks from `from` to `upto`, both included. */
  function Between(logs: seq<Log>, from: int, upto: int): seq<Log> {
    if logs == [] then []
    else (if from <= logs[0].block <= upto then [logs[0]] else []) + Between(logs[1..], from, upto)
  }

  /** Each log of those blocks, as often as the chain has it, and no other. */
  lemma {:induction false} BetweenExact(logs: seq<Log>, from: int, upto: int, l: Log)
    ensures multiset(Between(logs, from, upto))[l] == if from <= l.block <= upto then multiset(logs)[l] else 0
  {
    if logs != [] {
      BetweenExact(logs[1..], from, upto, l);
      assert logs == [logs[0]] + logs[1..];
    }
  }

  lemma {:induction false} BetweenEmpty(logs: seq<Log>, from: int, upto: int)
    requires upto < from
    ensures Between(logs, from, upto) == []
  {
    if logs != [] { BetweenEmpty(logs[1..], from, upto); }
  }

  lemma {:induction false} BetweenAbove(logs: seq<Log>, from: int, mid: int)
    requires InOrder(logs) && (logs != [] ==> logs[0].block > mid)
    ensures Between(logs, from, mid) == []
  {
    if logs != [] {
      InOrderRest(logs);
      BetweenAbove(logs[1..], from, mid);
    }
  }

  lemma InOrderRest(logs: seq<Log>)
    requires InOrder(logs) && logs != []
    ensures InOrder(logs[1..]) && forall i :: 0 <= i < |logs[1..]| ==> logs[0].block <= logs[1..][i].block
  {
  }

  /** Two adjoining windows return what one window over both would. */
  lemma {:induction false} BetweenSplits(logs: seq<Log>, from: int, mid: int, upto: int)
    requires InOrder(logs) && from <= mid + 1 && mid <= upto
    ensures Between(logs, from, mid) + Between(logs, mid + 1, upto) == Between(logs, from, upto)
  {
    if logs != [] {
      InOrderRest(logs);
      BetweenSplits(logs[1..], from, mid, upto);
      if logs[0].block > mid {
        BetweenAbove(logs, from, mid);
        BetweenAbove(logs[1..], from, mid);
      }
    }
  }

  datatype Window = Window(from: nat, upto: nat)

  ghost predicate InSome(ws: seq<Window>, b: nat) {
    exists i :: 0 <= i < |ws| && ws[i].from <= b <= ws[i].upto
  }

  /** The windows asked for: 100 blocks each, the last one cut at the head. */
  ghost predicate Partition(ws: seq<Window>, start: nat, head: int) {
    && (forall i :: 0 <= i < |ws| ==> start <= ws[i].from <= ws[i].upto <= head && ws[i].upto < ws[i].from + 100)
    && (forall b: nat :: start <= b <= head ==> InSome(ws, b))
    && (forall i, j :: 0 <= i < j < |ws| ==> ws[i].upto < ws[j].from)
  }

  ghost predicate Collected(chain: seq<Log>, start: nat, upto: int, logs: seq<Log>, ws: seq<Window>) {
    logs == Between(chain, start, upto) && Partition(ws, start, upto)
  }

  method CollectLogs(chain: seq<Log>, start: nat, head: int) returns (logs: seq<Log>, ghost windows: seq<Window>)
    requires InOrder(chain)
    ensures logs == Between(chain, start, head)
    ensures Partition(windows, start, head)
  {
    logs, windows := [], [];
    var from := start;
    ghost var done := if start <= head then start - 1 else head;
    BetweenEmpty(chain, start, done);
    while from <= head
      invariant start <= from && done == if from <= head then from - 1 else head
      invariant Collected(chain, start, done, logs, windows)
      decreases head - from
    {
      var upto := if from + 99 < head then from + 99 else head;
      CollectedNext(chain, start, from, upto, logs, windows);
      logs := logs + Between(chain, from, upto);
      windows, done := windows + [Window(from, upto)], upto;
      from := from + 100;
    }
  }

  lemma CollectedNext(chain: seq<Log>, start: nat, from: nat, upto: nat, logs: seq<Log>, ws: seq<Window>)
    requires InOrder(chain) && start <= from <= upto < from + 100 && Collected(chain, start, from - 1, logs, ws)
    ensures Collected(chain, start, upto, logs + Between(chain, from, upto), ws + [Window(from, upto)])
  {
    BetweenSplits(chain, start, from - 1, upto);
    WindowNext(ws, start, from, upto);
  }

  lemma WindowNext(ws: seq<Window>, start: nat, from: nat, upto: nat)
    requires Partition(ws, start, from - 1) && start <= from <= upto < from + 100
    ensures Partition(ws + [Window(from, upto)], start, upto)
  {
    var next := ws + [Window(from, upto)];
    forall b: nat | start <= b <= upto ensures InSome(next, b) {
      if b < from {
        assert InSome(ws, b);
        var i :| 0 <= i < |ws| && ws[i].from <= b <= ws[i].upto;
        assert next[i] == ws[i];
      } else {
        assert next[|ws|] == Window(from, upto);
      }
    }
  }

  // ---- the version cursor

  datatype Frame = Frame(version: nat, state: string)

  const PAGE := 1000

  /** Versions rise from frame to frame, as the indexer orders them. */
  ghost predicate Rising(frames: seq<Frame>) {
    forall i, j :: 0 <= i < j < |frames| ==> frames[i].version < frames[j].version
  }

  /** The frames behind the cursor. */
  function Above(frames: seq<Frame>, after: nat): seq<Frame> {
    if frames == [] then []
    else if frames[0].version > after then frames
    else Above(frames[1..], after)
  }

  /** One answer of the indexer: the first thousand of them. */
  function Page(frames: seq<Frame>, after: nat): seq<Frame> {
    var rest := Above(frames, after);
    if |rest| < PAGE then rest else rest[..PAGE]
  }

  /** `Above` is exactly the frames of a higher version, in order. */
  lemma {:induction false} AboveIsSuffix(frames: seq<Frame>, after: nat)
    requires Rising(frames)
    ensures |Above(frames, after)| <= |frames| && Above(frames, after) == frames[|frames| - |Above(frames, after)|..]
    ensures forall i :: 0 <= i < |frames| ==> (frames[i].version > after <==> i >= |frames| - |Above(frames, after)|)
  {
    if frames != [] && frames[0].version <= after { AboveIsSuffix(frames[1..], after); }
  }

  /** Behind the last frame of a full page comes the rest. */
  lemma AboveNext(frames: seq<Frame>, after: nat)
    requires Rising(frames) && |Above(frames, after)| >= PAGE
    ensures var rest := Above(frames, after); Above(frames, rest[PAGE - 1].version) == rest[PAGE..]
  {
    var rest := Above(frames, after);
    var last := rest[PAGE - 1].version;
    AboveIsSuffix(frames, after);
    AboveIsSuffix(frames, last);
    var k := |frames| - |rest|;
    assert rest[PAGE - 1] == frames[k + PAGE - 1];
    var m := |frames| - |Above(frames, last)|;
    assert m == k + PAGE by {
      assert frames[k + PAGE - 1].version == last;
      if k + PAGE < |frames| { assert frames[k + PAGE].version > last; }
    }
    assert rest[PAGE..] == frames[k + PAGE..];
  }

  /** The loop ends, and has every frame above version zero once, in order. */
  method CollectFrames(frames: seq<Frame>) returns (all: seq<Frame>)
    requires Rising(frames)
    ensures all == Above(frames, 0)
  {
    all := [];
    var after := 0;
    while true
      invariant all + Above(frames, after) == Above(frames, 0)
      decreases |Above(frames, after)|
    {
      var page := Page(frames, after);
      if |page| < PAGE {
        all := all + page;
        break;
      }
      AboveNext(frames, after);
      PageJoins(all, Above(frames, after));
      all := all + page;
      after := page[|page| - 1].version;
    }
  }

  lemma PageJoins(all: seq<Frame>, rest: seq<Frame>)
    requires |rest| >= PAGE
    ensures (all + rest[..PAGE]) + rest[PAGE..] == all + rest
  {
  }
}
