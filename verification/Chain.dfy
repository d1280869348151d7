/** The base chain as the programs see it over RPC: an account nonce, a mempool
    that may lose transactions, and the transactions included so far. */
module Chain {
  import opened Options
  import opened Wire

  datatype Inclusion = Inclusion(raw: Raw, ok: bool)

  datatype Chain = Chain(nonces: map<Account, nat>, mempool: set<Raw>, included: seq<Inclusion>)

  /** `eth_getTransactionCount` with the block tag "latest". */
  function Latest(c: Chain, a: Account): nat {
    if a in c.nonces then c.nonces[a] else 0
  }

  ghost predicate Queued(c: Chain, a: Account, n: nat) {
    exists raw :: raw in c.mempool && raw.from == a && raw.nonce == n
  }

  /** `eth_getTransactionCount` with the block tag "pending" may answer `n`. */
  ghost predicate IsPendingCount(c: Chain, a: Account, n: nat) {
    && Latest(c, a) <= n
    && (forall m: nat :: Latest(c, a) <= m < n ==> Queued(c, a, m))
    && !Queued(c, a, n)
  }

  function Find(s: seq<Inclusion>, raw: Raw): (r: Option<bool>)
    ensures r.None? <==> forall i :: 0 <= i < |s| ==> s[i].raw != raw
    ensures r.Some? ==> Inclusion(raw, r.value) in s
  {
    if s == [] then None
    else if s[0].raw == raw then Some(s[0].ok)
    else Find(s[1..], raw)
  }

  /** `eth_getTransactionReceipt`: the outcome of an included transaction. */
  function Receipt(c: Chain, h: Hash): (r: Option<bool>) {
    Find(c.included, h.raw)
  }

  /** A node keeps a transaction only while its nonce can still be used. */
  function Broadcast(c: Chain, raw: Raw): Chain {
    if raw.nonce < Latest(c, raw.from) then c else c.(mempool := c.mempool + {raw})
  }

  datatype NetStep = Include(raw: Raw, ok: bool) | Drop(raw: Raw)

  predicate CanNet(c: Chain, s: NetStep) {
    s.raw in c.mempool && (s.Include? ==> s.raw.nonce == Latest(c, s.raw.from))
  }

  function Net(c: Chain, s: NetStep): Chain
    requires CanNet(c, s)
  {
    match s
    case Include(raw, ok) =>
      Chain(c.nonces[raw.from := raw.nonce + 1], c.mempool - {raw}, c.included + [Inclusion(raw, ok)])
    case Drop(raw) => c.(mempool := c.mempool - {raw})
  }

  /** Included nonces of one account rise, and all lie below its account nonce. */
  ghost predicate ChainOk(c: Chain) {
    && (forall i :: 0 <= i < |c.included| ==> c.included[i].raw.nonce < Latest(c, c.included[i].raw.from))
    && (forall i, j :: 0 <= i < j < |c.included| ==>
          c.included[i].raw.from == c.included[j].raw.from ==>
          c.included[i].raw.nonce < c.included[j].raw.nonce)
  }

  /** `d` is a later state of `c`: nothing included is lost and no account nonce falls. */
  ghost predicate Extends(c: Chain, d: Chain) {
    && (forall a: Account :: Latest(c, a) <= Latest(d, a))
    && (forall raw: Raw :: Find(c.included, raw).Some? ==> Find(d.included, raw) == Find(c.included, raw))
  }

  lemma {:induction false} FindAppend(s: seq<Inclusion>, x: Inclusion, raw: Raw)
    ensures Find(s + [x], raw) ==
            if Find(s, raw).Some? then Find(s, raw) else if x.raw == raw then Some(x.ok) else None
  {
    if s == [] {
      assert s + [x] == [x];
      assert Find([x], raw) == if x.raw == raw then Some(x.ok) else Find([x][1..], raw);
    } else {
      assert (s + [x])[1..] == s[1..] + [x];
      FindAppend(s[1..], x, raw);
    }
  }

  lemma NetKeepsChainOk(c: Chain, s: NetStep)
    requires ChainOk(c) && CanNet(c, s)
    ensures ChainOk(Net(c, s)) && Extends(c, Net(c, s))
  {
    if s.Include? {
      forall raw: Raw ensures Find(c.included, raw).Some? ==>
          Find(Net(c, s).included, raw) == Find(c.included, raw) {
        FindAppend(c.included, Inclusion(s.raw, s.ok), raw);
      }
    }
  }

  // ---- one attempt to get a transaction through

  function Mined(c: Chain, raw: Raw, mined: Option<bool>): Chain {
    if mined.Some? && raw in c.mempool && raw.nonce == Latest(c, raw.from) then Net(c, Include(raw, mined.value)) else c
  }

  /** The chain after an attempt: the bytes may be delivered, and then may be included. */
  function Tried(c: Chain, raw: Raw, delivered: bool, mined: Option<bool>): Chain {
    Mined(if delivered then Broadcast(c, raw) else c, raw, mined)
  }

  /** What becomes of the bytes: the outcome they have, or get if they are next, are at the node, and are
      included. */
  ghost function Fate(c: Chain, raw: Raw, delivered: bool, mined: Option<bool>): Option<bool> {
    if Receipt(c, Keccak(raw)).Some? then Receipt(c, Keccak(raw))
    else if raw.nonce == Latest(c, raw.from) && (delivered || raw in c.mempool) then mined
    else None
  }

  /** What an attempt leaves at the node: a receipt for its fate; nothing new is queued but its bytes, which
      are if they were delivered, can still be used and were not included; and nothing changes if they had a
      receipt already. */
  ghost predicate Attempted(c: Chain, d: Chain, raw: Raw, delivered: bool, mined: Option<bool>) {
    && Receipt(d, Keccak(raw)) == Fate(c, raw, delivered, mined)
    && (forall x :: x in d.mempool && x !in c.mempool ==> x == raw)
    && (Fate(c, raw, delivered, mined).None? && delivered && raw.nonce >= Latest(c, raw.from) ==> raw in d.mempool)
    && (Receipt(c, Keccak(raw)).Some? ==> d == c)
  }

  lemma FateFollows(c: Chain, raw: Raw, delivered: bool, mined: Option<bool>)
    requires ChainOk(c)
    ensures Attempted(c, Tried(c, raw, delivered, mined), raw, delivered, mined)
  {
    if mined.Some? { FindAppend(c.included, Inclusion(raw, mined.value), raw); }
  }

  /** One answer to the pending count: the account nonce, past everything the mempool queues
      behind it. */
  method PendingCount(c: Chain, owner: Account) returns (n: nat)
    ensures IsPendingCount(c, owner, n)
  {
    n := Latest(c, owner);
    while exists raw :: raw in c.mempool && raw.from == owner && raw.nonce == n
      invariant Latest(c, owner) <= n
      invariant forall m: nat :: Latest(c, owner) <= m < n ==> Queued(c, owner, m)
      decreases |set raw | raw in c.mempool && raw.from == owner && raw.nonce >= n|
    {
      QueueShrinks(c, owner, n);
      n := n + 1;
    }
  }

  lemma QueueShrinks(c: Chain, owner: Account, n: nat)
    requires Queued(c, owner, n)
    ensures |set raw | raw in c.mempool && raw.from == owner && raw.nonce >= n + 1|
          < |set raw | raw in c.mempool && raw.from == owner && raw.nonce >= n|
  {
    var more := set raw | raw in c.mempool && raw.from == owner && raw.nonce >= n;
    var less := set raw | raw in c.mempool && raw.from == owner && raw.nonce >= n + 1;
    var raw :| raw in c.mempool && raw.from == owner && raw.nonce == n;
    assert less <= more - {raw};
    SubsetSize(less, more - {raw});
  }

  lemma {:induction false} SubsetSize<T>(a: set<T>, b: set<T>)
    requires a <= b
    ensures |a| <= |b|
    decreases a
  {
    if a != {} {
      var x :| x in a;
      SubsetSize(a - {x}, b - {x});
    }
  }
}
