/** Comparing deployed bytecode with an audited build: immutables and the metadata trailer are
    left out of the comparison. */
module Masking {
  import opened Options
  import opened Patching

  function Zeros(n: nat): (r: string)
    ensures |r| == n && forall i :: 0 <= i < n ==> r[i] == '0'
  {
    seq(n, _ => '0')
  }

  function Blank(r: Reference): Patch { Patch(2 + r.start * 2, Zeros(r.length * 2)) }

  function Blanks(refs: seq<Reference>): (r: seq<Patch>)
    ensures |r| == |refs| && forall k :: 0 <= k < |refs| ==> r[k] == Blank(refs[k])
  {
    seq(|refs|, k requires 0 <= k < |refs| => Blank(refs[k]))
  }

  predicate Fits(refs: seq<Reference>, n: nat) {
    forall k :: 0 <= k < |refs| ==> 2 + (refs[k].start + refs[k].length) * 2 <= n
  }

  /** Character `i` belongs to an immutable. */
  ghost predicate Hidden(refs: seq<Reference>, i: int) {
    exists k :: 0 <= k < |refs| && 2 + refs[k].start * 2 <= i < 2 + (refs[k].start + refs[k].length) * 2
  }

  lemma BlankNext(text: string, refs: seq<Reference>, k: nat)
    requires Fits(refs, |text|) && k < |refs|
    ensures InRange(Blanks(refs[..k]), |text|) && InRange(Blanks(refs[..k + 1]), |text|)
    ensures Apply(text, Blanks(refs[..k + 1])) == Splice(Apply(text, Blanks(refs[..k])), Blank(refs[k]))
  {
    assert Blanks(refs[..k + 1]) == Blanks(refs[..k]) + [Blank(refs[k])];
    ApplyAppend(text, Blanks(refs[..k]), Blank(refs[k]));
  }

  /** The loop over the references, then lower case. */
  method Mask(text: string, refs: seq<Reference>) returns (masked: string)
    requires Fits(refs, |text|)
    ensures masked == Masked(text, refs)
  {
    var t := text;
    for k := 0 to |refs|
      invariant InRange(Blanks(refs[..k]), |text|) && t == Apply(text, Blanks(refs[..k]))
    {
      BlankNext(text, refs, k);
      var r := refs[k];
      t := t[..2 + r.start * 2] + Zeros(r.length * 2) + t[2 + (r.start + r.length) * 2..];
    }
    assert refs[..|refs|] == refs;
    masked := Lower(t);
  }

  function Masked(text: string, refs: seq<Reference>): (r: string)
    requires Fits(refs, |text|)
    ensures |r| == |text|
  {
    Lower(Apply(text, Blanks(refs)))
  }

  lemma BlanksAgree(refs: seq<Reference>)
    ensures Agree(Blanks(refs))
  {
  }

  lemma HiddenIffCovered(refs: seq<Reference>, i: int)
    ensures Hidden(refs, i) <==> Covered(Blanks(refs), i)
  {
    if Hidden(refs, i) {
      var k :| 0 <= k < |refs| && 2 + refs[k].start * 2 <= i < 2 + (refs[k].start + refs[k].length) * 2;
      assert Covers(Blanks(refs)[k], i);
    }
    if Covered(Blanks(refs), i) {
      var k :| 0 <= k < |refs| && Covers(Blanks(refs)[k], i);
      assert 2 + refs[k].start * 2 <= i < 2 + (refs[k].start + refs[k].length) * 2;
    }
  }

  /** Zeros inside the references, the text in lower case outside. */
  lemma MaskedAt(text: string, refs: seq<Reference>, i: nat)
    requires Fits(refs, |text|) && i < |text|
    ensures Masked(text, refs)[i] == if Hidden(refs, i) then '0' else LowerChar(text[i])
  {
    BlanksAgree(refs);
    ApplyAt(text, Blanks(refs), i);
    HiddenIffCovered(refs, i);
    if Hidden(refs, i) {
      var k :| 0 <= k < |Blanks(refs)| && Covers(Blanks(refs)[k], i);
      assert Blanks(refs)[k] in Blanks(refs);
    }
  }

  /** Masking again changes nothing, and the order of the references does not matter. */
  lemma MaskIdempotent(text: string, refs: seq<Reference>)
    requires Fits(refs, |text|)
    ensures Masked(Masked(text, refs), refs) == Masked(text, refs)
  {
    forall i: nat | i < |text| ensures Masked(Masked(text, refs), refs)[i] == Masked(text, refs)[i] {
      MaskedAt(text, refs, i);
      MaskedAt(Masked(text, refs), refs, i);
    }
  }

  lemma MaskOrderIrrelevant(text: string, refs: seq<Reference>, others: seq<Reference>)
    requires Fits(refs, |text|) && forall r :: r in refs <==> r in others
    ensures Fits(others, |text|) && Masked(text, refs) == Masked(text, others)
  {
    forall k | 0 <= k < |others| ensures 2 + (others[k].start + others[k].length) * 2 <= |text| {
      assert others[k] in refs;
    }
    forall i: nat | i < |text| ensures Masked(text, refs)[i] == Masked(text, others)[i] {
      MaskedAt(text, refs, i);
      MaskedAt(text, others, i);
      SameHidden(refs, others, i);
      SameHidden(others, refs, i);
    }
  }

  lemma SameHidden(refs: seq<Reference>, others: seq<Reference>, i: int)
    requires forall r :: r in refs ==> r in others
    ensures Hidden(refs, i) ==> Hidden(others, i)
  {
    if Hidden(refs, i) {
      var k :| 0 <= k < |refs| && 2 + refs[k].start * 2 <= i < 2 + (refs[k].start + refs[k].length) * 2;
      assert refs[k] in others;
      var m :| 0 <= m < |others| && others[m] == refs[k];
    }
  }

  /** The same character up to case. */
  predicate SameLetter(c: char, d: char) { LowerChar(c) == LowerChar(d) }

  /** `x` and `y` agree, up to case, on the first `n` characters outside the immutables. */
  ghost predicate AgreeOutside(x: string, y: string, refs: seq<Reference>, n: nat)
    requires n <= |x| && n <= |y|
  {
    forall i :: 0 <= i < n && !Hidden(refs, i) ==> SameLetter(x[i], y[i])
  }

  lemma PrefixesEqualIff(x: string, y: string, refs: seq<Reference>, n: nat)
    requires Fits(refs, |x|) && Fits(refs, |y|) && n <= |x| && n <= |y|
    ensures Masked(x, refs)[..n] == Masked(y, refs)[..n] <==> AgreeOutside(x, y, refs, n)
  {
    var (a, b) := (Masked(x, refs), Masked(y, refs));
    forall i: nat | i < n ensures a[i] == b[i] <==> Hidden(refs, i) || SameLetter(x[i], y[i]) {
      MaskedAt(x, refs, i);
      MaskedAt(y, refs, i);
    }
    if a[..n] == b[..n] {
      forall i | 0 <= i < n && !Hidden(refs, i) ensures SameLetter(x[i], y[i]) {
        assert a[..n][i] == b[..n][i];
      }
    }
    if AgreeOutside(x, y, refs, n) {
      assert forall i :: 0 <= i < n ==> a[i] == b[i];
    }
  }

  /** Masks are equal exactly when the texts have equal length and agree up to case outside the
      references. */
  lemma MasksEqualIff(x: string, y: string, refs: seq<Reference>)
    requires Fits(refs, |x|) && Fits(refs, |y|)
    ensures Masked(x, refs) == Masked(y, refs) <==> |x| == |y| && AgreeOutside(x, y, refs, |x|)
  {
    if |x| == |y| {
      PrefixesEqualIff(x, y, refs, |x|);
      assert Masked(x, refs)[..|x|] == Masked(x, refs) && Masked(y, refs)[..|x|] == Masked(y, refs);
    }
  }

  // ---- without the metadata trailer

  function Digit(c: char): nat
    requires HexDigit(c)
  {
    if c <= '9' then (c - '0') as int else if 'a' <= c then (c - 'a') as int + 10 else (c - 'A') as int + 10
  }

  /** `parseInt(s, 16)`: an optional 0x, then the longest run of hex digits; `None` is NaN. Blanks
      and a sign, which it would take in front, do not occur in hexadecimal code. */
  function ParseHex(s: string): Option<nat> {
    var t := if |s| >= 2 && s[0] == '0' && s[1] in "xX" then s[2..] else s;
    if t == [] || !HexDigit(t[0]) then None else Some(Digits(t, 0))
  }

  function Digits(t: string, acc: nat): nat
    decreases |t|
  {
    if t == [] || !HexDigit(t[0]) then acc else Digits(t[1..], acc * 16 + Digit(t[0]))
  }

  function LastFour(text: string): string {
    if |text| < 4 then text else text[|text| - 4..]
  }

  /** How many characters come before the metadata; `None` is the assertion on the trailer. */
  function BeforeTrailer(text: string): (r: Option<nat>)
    ensures r.Some? ==> 0 < r.value < |text|
  {
    match ParseHex(LastFour(text))
    case None => None
    case Some(bytes) =>
      if 0 < bytes < 500 && |text| > (bytes + 2) * 2 then Some(|text| - (bytes + 2) * 2) else None
  }

  function Runtime(text: string, refs: seq<Reference>): (r: Option<string>)
    requires Fits(refs, |text|)
    ensures r.Some? <==> BeforeTrailer(text).Some?
  {
    match BeforeTrailer(text)
    case None => None
    case Some(n) => Some(Masked(text, refs)[..n])
  }

  /** The check passes exactly when both codes carry a trailer, the codes before it have equal
      length, and they agree there up to case outside the immutables. */
  lemma RuntimesEqualIff(x: string, y: string, refs: seq<Reference>)
    requires Fits(refs, |x|) && Fits(refs, |y|)
    ensures (Runtime(x, refs).Some? && Runtime(x, refs) == Runtime(y, refs)) <==>
      var (m, n) := (BeforeTrailer(x), BeforeTrailer(y));
      m.Some? && m == n && AgreeOutside(x, y, refs, m.value)
  {
    var (m, n) := (BeforeTrailer(x), BeforeTrailer(y));
    if m.Some? && n.Some? {
      assert |Masked(x, refs)[..m.value]| == m.value && |Masked(y, refs)[..n.value]| == n.value;
      if m == n { PrefixesEqualIff(x, y, refs, m.value); }
    }
  }
}
