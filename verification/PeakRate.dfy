/** The busiest window of a request trace, by two pointers. */
module PeakRate {
  ghost predicate Sorted(times: seq<real>) {
    forall i, j :: 0 <= i <= j < |times| ==> times[i] <= times[j]
  }

  predicate InWindow(t: real, start: real, length: real) { start <= t < start + length }

  /** How many of the first `n` times lie in the half-open window. */
  function Count(times: seq<real>, n: nat, start: real, length: real): nat
    requires n <= |times|
  {
    if n == 0 then 0 else Count(times, n - 1, start, length) + if InWindow(times[n - 1], start, length) then 1 else 0
  }

  /** `l` and `r` fit into one window. */
  ghost predicate Close(times: seq<real>, l: int, r: int, length: real) {
    0 <= l <= r < |times| && times[r] - times[l] < length
  }

  /** `peak` is the longest stretch that fits into one window and ends before `n`. */
  ghost predicate Best(times: seq<real>, n: nat, length: real, peak: nat) {
    && (forall l, r :: Close(times, l, r, length) && r < n ==> r - l + 1 <= peak)
    && (peak > 0 ==> exists l, r :: Close(times, l, r, length) && r < n && r - l + 1 == peak)
  }

  method Peak(times: seq<real>, length: real) returns (peak: nat)
    requires Sorted(times) && length > 0.0
    ensures Best(times, |times|, length, peak)
  {
    var left := 0;
    peak := 0;
    for right := 0 to |times|
      invariant 0 <= left <= right
      invariant Best(times, right, length, peak)
      invariant forall l :: 0 <= l < left && right < |times| ==> times[right] - times[l] >= length
    {
      while times[right] - times[left] >= length
        invariant 0 <= left <= right
        invariant forall l :: 0 <= l < left ==> times[right] - times[l] >= length
        decreases right - left
      {
        left := left + 1;
      }
      Extend(times, right, left, length, peak);
      peak := if peak < right - left + 1 then right - left + 1 else peak;
    }
  }

  lemma Extend(times: seq<real>, right: nat, left: nat, length: real, peak: nat)
    requires Sorted(times) && left <= right < |times| && times[right] - times[left] < length
    requires forall l :: 0 <= l < left ==> times[right] - times[l] >= length
    requires Best(times, right, length, peak)
    ensures Best(times, right + 1, length, if peak < right - left + 1 then right - left + 1 else peak)
  {
    assert Close(times, left, right, length);
    if peak > 0 {
      var l, r :| Close(times, l, r, length) && r < right && r - l + 1 == peak;
      assert Close(times, l, r, length) && r < right + 1;
    }
  }

  /** A window that holds times holds a first and a last one, and no more than lie between. */
  lemma {:induction false} CountSpan(times: seq<real>, n: nat, start: real, length: real) returns (l: nat, r: nat)
    requires n <= |times| && Count(times, n, start, length) > 0
    ensures l <= r < n && InWindow(times[l], start, length) && InWindow(times[r], start, length)
    ensures Count(times, n, start, length) <= r - l + 1
  {
    if Count(times, n - 1, start, length) > 0 {
      l, r := CountSpan(times, n - 1, start, length);
      if InWindow(times[n - 1], start, length) { r := n - 1; }
    } else {
      l, r := n - 1, n - 1;
    }
  }

  /** The window that starts at `l` holds everything up to `r`. */
  lemma {:induction false} CountAtLeast(times: seq<real>, l: nat, r: nat, n: nat, length: real)
    requires Sorted(times) && l <= r < n <= |times| && times[r] - times[l] < length
    ensures Count(times, n, times[l], length) >= r - l + 1
  {
    if n - 1 > r {
      CountAtLeast(times, l, r, n - 1, length);
    } else if l < r {
      CountAtLeast(times, l, r - 1, n - 1, length);
    }
  }

  /** The peak is the maximum over all windows, anywhere on the time axis: none holds more, and
      one holds exactly that many. */
  lemma PeakIsMaximum(times: seq<real>, length: real, peak: nat)
    requires Sorted(times) && length > 0.0 && Best(times, |times|, length, peak)
    ensures forall start :: Count(times, |times|, start, length) <= peak
    ensures exists start :: Count(times, |times|, start, length) == peak
  {
    forall start ensures Count(times, |times|, start, length) <= peak {
      if Count(times, |times|, start, length) > 0 {
        var l, r := CountSpan(times, |times|, start, length);
        assert times[l] <= times[r];
        assert Close(times, l, r, length);
      }
    }
    if peak > 0 {
      var l, r :| Close(times, l, r, length) && r < |times| && r - l + 1 == peak;
      CountAtLeast(times, l, r, |times|, length);
      assert Count(times, |times|, times[l], length) == peak;
    } else {
      assert Count(times, |times|, 0.0, length) == peak;
    }
  }
}
