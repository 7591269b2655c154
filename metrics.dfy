/** Per-message timing metrics and the sums the batch averages are built from.
    Timestamps are seconds as reals; Python's rounding to three decimals is not modelled. */
module Metrics {

  /** Seconds between the previous arrival `last` and this one, `now`.
      A previous timestamp of 0.0 is falsy in Python and counts as "unset": the elapsed time is then 0. */
  function Elapsed(now: real, last: real): (r: real)
    ensures last == 0.0 ==> r == 0.0
    ensures last != 0.0 ==> last + r == now
  {
    if last != 0.0 then now - last else 0.0
  }

  /** Throughput in kilobits per second of a message of `sizeBytes` bytes that took `elapsed` seconds.
      A zero or negative elapsed time gives 0 instead of a division by zero. */
  function Bandwidth(sizeBytes: nat, elapsed: real): (r: real)
    ensures 0.0 <= r
    ensures elapsed <= 0.0 ==> r == 0.0
    // at r kilobits per second, the elapsed time carries exactly the message's bits
    ensures elapsed > 0.0 ==> r * elapsed * 1000.0 == (sizeBytes * 8) as real
  {
    if elapsed > 0.0 then ((sizeBytes * 8) as real / 1000.0) / elapsed else 0.0
  }

  /** Python's `sum(...)`: a left fold from 0 over the values in order. */
  function Sum(xs: seq<real>): (r: real)
  {
    if xs == [] then 0.0 else Sum(xs[..|xs| - 1]) + xs[|xs| - 1]
  }

  /** A sum of values that are all at least `lo` is at least `|xs| * lo`. */
  lemma {:induction false} SumAtLeast(xs: seq<real>, lo: real)
    requires forall i | 0 <= i < |xs| :: lo <= xs[i]
    ensures |xs| as real * lo <= Sum(xs)
  {
    if xs != [] {
      var init := xs[..|xs| - 1];
      SumAtLeast(init, lo);
      assert Sum(xs) == Sum(init) + xs[|xs| - 1];
      assert |xs| as real * lo == |init| as real * lo + lo;
    }
  }

  /** A sum of values that are all at most `hi` is at most `|xs| * hi`. */
  lemma {:induction false} SumAtMost(xs: seq<real>, hi: real)
    requires forall i | 0 <= i < |xs| :: xs[i] <= hi
    ensures Sum(xs) <= |xs| as real * hi
  {
    if xs != [] {
      var init := xs[..|xs| - 1];
      SumAtMost(init, hi);
      assert Sum(xs) == Sum(init) + xs[|xs| - 1];
      assert |xs| as real * hi == |init| as real * hi + hi;
    }
  }

  /** The arithmetic mean of a non-empty sequence lies between any lower and upper bound of its values. */
  lemma {:induction false} MeanWithin(xs: seq<real>, lo: real, hi: real)
    requires |xs| >= 1
    requires forall i | 0 <= i < |xs| :: lo <= xs[i] <= hi
    ensures lo <= Sum(xs) / |xs| as real <= hi
  {
    SumAtLeast(xs, lo);
    SumAtMost(xs, hi);
    var total, n := Sum(xs), |xs| as real;
    QuotientWithin(total, n, lo, hi);
  }

  /** Dividing a total that lies between n * lo and n * hi by a positive n gives a value between lo and hi. */
  lemma QuotientWithin(total: real, n: real, lo: real, hi: real)
    requires n > 0.0 && n * lo <= total <= n * hi
    ensures lo <= total / n <= hi
  {
  }
}
