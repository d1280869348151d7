/** Overwriting ranges of a hex string, one after another. */
module Patching {
  /** A place in bytecode, in bytes, as the compiler lists it. */
  datatype Reference = Reference(start: nat, length: nat)

  datatype Patch = Patch(at: nat, text: string)

  predicate Covers(p: Patch, i: int) { p.at <= i < p.at + |p.text| }

  predicate InRange(ps: seq<Patch>, n: nat) {
    forall k :: 0 <= k < |ps| ==> ps[k].at + |ps[k].text| <= n
  }

  /** Where two patches overlap they write the same. */
  ghost predicate Agree(ps: seq<Patch>) {
    forall p, q, i :: p in ps && q in ps && Covers(p, i) && Covers(q, i) ==> p.text[i - p.at] == q.text[i - q.at]
  }

  ghost predicate Covered(ps: seq<Patch>, i: int) {
    exists k :: 0 <= k < |ps| && Covers(ps[k], i)
  }

  function Splice(code: string, p: Patch): (r: string)
    requires p.at + |p.text| <= |code|
    ensures |r| == |code|
  {
    code[..p.at] + p.text + code[p.at + |p.text|..]
  }

  /** All patches, from the left. */
  function Apply(code: string, ps: seq<Patch>): (r: string)
    requires InRange(ps, |code|)
    ensures |r| == |code|
  {
    if ps == [] then code else Splice(Apply(code, ps[..|ps| - 1]), ps[|ps| - 1])
  }

  lemma SpliceAt(code: string, p: Patch, i: nat)
    requires p.at + |p.text| <= |code| && i < |code|
    ensures Splice(code, p)[i] == if Covers(p, i) then p.text[i - p.at] else code[i]
  {
  }

  /** Every patch is in the result, and nothing else has changed. */
  lemma {:induction false} ApplyAt(code: string, ps: seq<Patch>, i: nat)
    requires InRange(ps, |code|) && Agree(ps) && i < |code|
    ensures forall p :: p in ps && Covers(p, i) ==> Apply(code, ps)[i] == p.text[i - p.at]
    ensures !Covered(ps, i) ==> Apply(code, ps)[i] == code[i]
  {
    if ps != [] {
      var (rest, p) := (ps[..|ps| - 1], ps[|ps| - 1]);
      assert forall q :: q in ps ==> q in rest || q == p;
      assert forall k :: 0 <= k < |rest| ==> rest[k] == ps[k];
      ApplyAt(code, rest, i);
      SpliceAt(Apply(code, rest), p, i);
    }
  }

  lemma ApplyAppend(code: string, ps: seq<Patch>, p: Patch)
    requires InRange(ps, |code|) && p.at + |p.text| <= |code|
    ensures InRange(ps + [p], |code|) && Apply(code, ps + [p]) == Splice(Apply(code, ps), p)
  {
    assert (ps + [p])[..|ps|] == ps;
  }

  // ---- letters

  function LowerChar(c: char): char {
    if 'A' <= c <= 'Z' then c - 'A' + 'a' else c
  }

  function Lower(s: string): (r: string)
    ensures |r| == |s| && forall i :: 0 <= i < |s| ==> r[i] == LowerChar(s[i])
  {
    seq(|s|, i requires 0 <= i < |s| => LowerChar(s[i]))
  }

  predicate HexDigit(c: char) {
    '0' <= c <= '9' || 'a' <= c <= 'f' || 'A' <= c <= 'F'
  }
}
