/** The shared table `il_lifecycle_jobs`, kept in insertion order. */
module Journal {
  import opened Options
  import opened Wire
  import opened Chain

  datatype Status = Pending | Confirmed | Failed

  datatype Row = Row(id: Id, owner: Account, nonce: nat, raw: Raw, hash: Hash, status: Status)

  type Table = seq<Row>

  /** `SELECT * ... WHERE id=$1`. */
  function RowOf(t: Table, id: Id): (r: Option<Row>)
    ensures r.None? <==> forall i :: 0 <= i < |t| ==> t[i].id != id
    ensures r.Some? ==> r.value in t && r.value.id == id
  {
    if t == [] then None
    else if t[0].id == id then Some(t[0])
    else RowOf(t[1..], id)
  }

  /** `SELECT ... WHERE owner=$1 AND status='pending'` returns at least one row. */
  predicate HasPending(t: Table, owner: Account) {
    exists i :: 0 <= i < |t| && t[i].owner == owner && t[i].status == Pending
  }

  /** What the primary key on `id` and the unique index on `(owner, nonce)` let in. */
  ghost predicate CanInsert(t: Table, r: Row) {
    forall i :: 0 <= i < |t| ==> t[i].id != r.id && !(t[i].owner == r.owner && t[i].nonce == r.nonce)
  }

  /** `UPDATE ... SET status=$2 WHERE id=$1`. */
  function SetStatus(t: Table, id: Id, s: Status): (u: Table)
    ensures |u| == |t|
    ensures forall i :: 0 <= i < |t| ==> u[i] == if t[i].id == id then t[i].(status := s) else t[i]
  {
    seq(|t|, i requires 0 <= i < |t| => if t[i].id == id then t[i].(status := s) else t[i])
  }

  ghost predicate RowOk(r: Row) {
    r.hash == Keccak(r.raw) && r.raw.from == r.owner && r.raw.nonce == r.nonce
  }

  /** Ids are keys. */
  ghost predicate KeysOk(t: Table) {
    && (forall i :: 0 <= i < |t| ==> RowOk(t[i]))
    && (forall i, j :: 0 <= i < j < |t| ==> t[i].id != t[j].id)
  }

  /** Along one owner's rows the nonce rises, and only its newest row may be pending. */
  ghost predicate TableOk(t: Table) {
    && KeysOk(t)
    && (forall i, j :: 0 <= i < j < |t| && t[i].owner == t[j].owner ==>
          t[i].nonce < t[j].nonce && t[i].status != Pending)
  }

  /** The receipt behind every row that is no longer pending. */
  ghost predicate Settled(t: Table, c: Chain) {
    forall i :: 0 <= i < |t| && t[i].status != Pending ==>
      Receipt(c, t[i].hash) == Some(t[i].status == Confirmed)
  }

  ghost function RawsOf(t: Table): set<Raw> {
    set i | 0 <= i < |t| :: t[i].raw
  }

  /** Everything the chain has seen was journaled first, or came from elsewhere. */
  ghost predicate Traced(t: Table, c: Chain, foreign: set<Raw>) {
    && (forall raw :: raw in c.mempool ==> raw in foreign || raw in RawsOf(t))
    && (forall i :: 0 <= i < |c.included| ==> c.included[i].raw in foreign || c.included[i].raw in RawsOf(t))
  }

  /** The nonces of an owner's rows are all below `n`. */
  ghost predicate Below(t: Table, owner: Account, n: nat) {
    forall i :: 0 <= i < |t| && t[i].owner == owner ==> t[i].nonce < n
  }

  /** `u` keeps every row of `t` in place; a status may only have left Pending. */
  ghost predicate Grows(t: Table, u: Table) {
    && |t| <= |u|
    && forall i :: 0 <= i < |t| ==> u[i] == t[i] || (t[i].status == Pending && u[i] == t[i].(status := u[i].status))
  }

  lemma {:induction false} RowOfAppend(t: Table, r: Row, id: Id)
    ensures RowOf(t + [r], id) ==
            if RowOf(t, id).Some? then RowOf(t, id) else if r.id == id then Some(r) else None
  {
    if t == [] {
      assert t + [r] == [r];
      assert RowOf([r], id) == if r.id == id then Some(r) else RowOf([r][1..], id);
    } else {
      assert (t + [r])[1..] == t[1..] + [r];
      RowOfAppend(t[1..], r, id);
    }
  }

  lemma {:induction false} RowOfSetStatus(t: Table, key: Id, s: Status, id: Id)
    ensures RowOf(SetStatus(t, key, s), id) ==
            match RowOf(t, id)
            case None => None
            case Some(r) => Some(if id == key then r.(status := s) else r)
  {
    if t != [] {
      assert SetStatus(t, key, s)[1..] == SetStatus(t[1..], key, s);
      RowOfSetStatus(t[1..], key, s, id);
    }
  }

  /** With ids as keys, a row found at any place is the row the query returns. */
  lemma {:induction false} RowOfAt(t: Table, i: nat)
    requires KeysOk(t) && i < |t|
    ensures RowOf(t, t[i].id) == Some(t[i])
  {
    var r := RowOf(t, t[i].id).value;
    var j :| 0 <= j < |t| && t[j] == r;
    assert i == j;
  }

  lemma {:induction false} GrowsTransitive(t: Table, u: Table, v: Table)
    requires Grows(t, u) && Grows(u, v)
    ensures Grows(t, v)
  {
    forall i | 0 <= i < |t|
      ensures v[i] == t[i] || (t[i].status == Pending && v[i] == t[i].(status := v[i].status)) {
      assert u[i] == t[i] || (t[i].status == Pending && u[i] == t[i].(status := u[i].status));
      assert v[i] == u[i] || (u[i].status == Pending && v[i] == u[i].(status := v[i].status));
    }
  }

  /** A row of an older table is found in a newer one with the same signed bytes, and unchanged once settled. */
  lemma GrowsKeepsRow(t: Table, u: Table, id: Id)
    requires KeysOk(t) && KeysOk(u) && Grows(t, u) && RowOf(t, id).Some?
    ensures RowOf(u, id).Some?
    ensures RowOf(u, id).value == RowOf(t, id).value.(status := RowOf(u, id).value.status)
    ensures RowOf(t, id).value.status != Pending ==> RowOf(u, id) == RowOf(t, id)
  {
    var i :| 0 <= i < |t| && t[i] == RowOf(t, id).value;
    RowOfAt(u, i);
  }

  // ---- the two writes

  lemma InsertOk(t: Table, c: Chain, foreign: set<Raw>, r: Row)
    requires TableOk(t) && Settled(t, c) && Traced(t, c, foreign)
    requires RowOk(r) && r.status == Pending
    requires RowOf(t, r.id).None? && !HasPending(t, r.owner) && Below(t, r.owner, r.nonce)
    ensures CanInsert(t, r)
    ensures TableOk(t + [r]) && Settled(t + [r], c) && Traced(t + [r], c, foreign) && Grows(t, t + [r])
    ensures RawsOf(t) <= RawsOf(t + [r]) && r.raw in RawsOf(t + [r])
  {
    var u := t + [r];
    forall raw | raw in RawsOf(t) ensures raw in RawsOf(u) {
      var i :| 0 <= i < |t| && t[i].raw == raw;
      assert u[i].raw == raw;
    }
    assert u[|t|].raw == r.raw;
  }

  lemma ResolveOk(t: Table, c: Chain, foreign: set<Raw>, id: Id, ok: bool)
    requires TableOk(t) && Settled(t, c) && Traced(t, c, foreign)
    requires RowOf(t, id).Some? && Receipt(c, RowOf(t, id).value.hash) == Some(ok)
    ensures TableOk(SetStatus(t, id, Outcome(ok))) && Settled(SetStatus(t, id, Outcome(ok)), c)
    ensures Traced(SetStatus(t, id, Outcome(ok)), c, foreign) && Grows(t, SetStatus(t, id, Outcome(ok)))
    ensures RawsOf(SetStatus(t, id, Outcome(ok))) == RawsOf(t)
  {
    var s := Outcome(ok);
    var u := SetStatus(t, id, s);
    forall i | 0 <= i < |t|
      ensures t[i].id == id ==> Receipt(c, t[i].hash) == Some(ok)
      ensures u[i] == t[i] || (t[i].status == Pending && u[i] == t[i].(status := s)) {
      if t[i].id == id { RowOfAt(t, i); }
    }
    SameRaws(t, u);
  }

  /** Receipt status to journal status, as every writer computes it. */
  function Outcome(ok: bool): Status {
    if ok then Confirmed else Failed
  }

  lemma SameRaws(t: Table, u: Table)
    requires |t| == |u| && forall i :: 0 <= i < |t| ==> u[i].raw == t[i].raw
    ensures RawsOf(u) == RawsOf(t)
  {
    forall raw ensures raw in RawsOf(t) <==> raw in RawsOf(u) {
      if raw in RawsOf(t) { var i :| 0 <= i < |t| && t[i].raw == raw; assert u[i].raw == raw; }
      if raw in RawsOf(u) { var i :| 0 <= i < |t| && u[i].raw == raw; assert t[i].raw == raw; }
    }
  }
}
