/** The promise-chained saver: every call captures its snapshot, and writes run one after
    another, each to a side file that is then renamed over the real one. */
module Saver {
  import opened Options

  /** `calls` are the snapshots in call order; the first `done` of them have been renamed into
      place. `written` says the side file holds the current one. `broken` is a rejected chain. */
  datatype Chain<T> = Chain(calls: seq<T>, done: nat, written: bool, broken: bool, next: Option<T>, file: Option<T>)

  datatype Op<T> = Call(snapshot: T) | Write(ok: bool) | Rename(ok: bool)

  predicate Waiting<T>(c: Chain<T>) {
    !c.broken && c.done < |c.calls|
  }

  predicate Enabled<T>(c: Chain<T>, op: Op<T>) {
    match op
    case Call(_) => true
    case Write(_) => Waiting(c) && !c.written
    case Rename(_) => Waiting(c) && c.written
  }

  function Apply<T>(c: Chain<T>, op: Op<T>): Chain<T>
    requires Enabled(c, op)
  {
    match op
    case Call(snapshot) => c.(calls := c.calls + [snapshot])
    case Write(ok) => if ok then c.(next := Some(c.calls[c.done]), written := true) else c.(broken := true)
    case Rename(ok) => if ok then c.(file := c.next, done := c.done + 1, written := false) else c.(broken := true)
  }

  ghost predicate Runs<T>(c: Chain<T>, ops: seq<Op<T>>)
    decreases |ops|
  {
    ops == [] || (Enabled(c, ops[0]) && Runs(Apply(c, ops[0]), ops[1..]))
  }

  ghost function After<T>(c: Chain<T>, ops: seq<Op<T>>): Chain<T>
    requires Runs(c, ops)
    decreases |ops|
  {
    if ops == [] then c else After(Apply(c, ops[0]), ops[1..])
  }

  /** The promise that call `i` returned has resolved, or has been rejected. */
  predicate Resolved<T>(c: Chain<T>, i: nat) { i < c.done }

  predicate Rejected<T>(c: Chain<T>, i: nat) { c.broken && i >= c.done }

  /** The file holds the last snapshot that was renamed into place, or what was there before. */
  ghost predicate Ordered<T>(c: Chain<T>, before: Option<T>) {
    && c.done <= |c.calls|
    && (c.written ==> c.done < |c.calls| && c.next == Some(c.calls[c.done]))
    && c.file == if c.done == 0 then before else Some(c.calls[c.done - 1])
  }

  lemma ApplyOrdered<T>(c: Chain<T>, op: Op<T>, before: Option<T>)
    requires Ordered(c, before) && Enabled(c, op)
    ensures Ordered(Apply(c, op), before)
    ensures c.done <= Apply(c, op).done && c.calls <= Apply(c, op).calls
    ensures c.broken ==> Apply(c, op).broken && Apply(c, op).done == c.done && Apply(c, op).file == c.file
  {
  }

  /** Under any interleaving the file moves forward through the snapshots in call order; a
      resolved call means the file holds that snapshot or a later one; and after one failed
      write the file stands still and every later call is rejected. */
  lemma {:induction false} ForwardOnly<T>(c: Chain<T>, ops: seq<Op<T>>, before: Option<T>)
    requires Ordered(c, before) && Runs(c, ops)
    ensures var d := After(c, ops);
      && Ordered(d, before) && c.done <= d.done && c.calls <= d.calls
      && (forall i: nat :: Resolved(d, i) ==> exists j :: i <= j < |d.calls| && d.file == Some(d.calls[j]))
      && (c.broken ==> d.file == c.file && forall i: nat :: i >= c.done ==> Rejected(d, i))
    decreases |ops|
  {
    if ops != [] {
      ApplyOrdered(c, ops[0], before);
      ForwardOnly(Apply(c, ops[0]), ops[1..], before);
    }
    var d := After(c, ops);
    assert forall i: nat :: Resolved(d, i) ==> i <= d.done - 1 < |d.calls| && d.file == Some(d.calls[d.done - 1]);
  }
}
