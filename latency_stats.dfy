/**
 * The latency history of the video stream component: samples in arrival order and their
 * arithmetic mean, taken over the whole history every time.
 */
module LatencyStats {

  /** The left fold `samples.reduce((a, b) => a + b, 0)`: the last sample is added last. */
  function Sum(samples: seq<real>): (r: real)
    ensures samples == [] ==> r == 0.0
    ensures |samples| == 1 ==> r == samples[0]
  {
    if samples == [] then 0.0 else Sum(samples[..|samples| - 1]) + samples[|samples| - 1]
  }

  /** The mean `sum / length`; the component never takes it over an empty history. */
  function Mean(samples: seq<real>): (m: real)
    requires samples != []
    ensures m * |samples| as real == Sum(samples)
  {
    Sum(samples) / |samples| as real
  }

  lemma {:induction false} SumConcat(a: seq<real>, b: seq<real>)
    ensures Sum(a + b) == Sum(a) + Sum(b)
    decreases |b|
  {
    if b == [] {
      assert a + b == a;
    } else {
      var b' := b[..|b| - 1];
      assert (a + b)[..|a + b| - 1] == a + b';
      SumConcat(a, b');
    }
  }

  /** Pushing one sample adds exactly that sample to the sum. */
  lemma SumPush(samples: seq<real>, x: real)
    ensures Sum(samples + [x]) == Sum(samples) + x
  {
    assert (samples + [x])[..|samples|] == samples;
  }

  /** A sequence is the part before index `j`, the element at `j` and the part after it. */
  lemma SplitAt(t: seq<real>, j: nat)
    requires j < |t|
    ensures t == (t[..j] + [t[j]]) + t[j + 1..]
  {
  }

  /** Taking one sample out of the history takes exactly its value out of the sum. */
  lemma SumRemoveAt(t: seq<real>, j: nat)
    requires j < |t|
    ensures Sum(t) == Sum(t[..j] + t[j + 1..]) + t[j]
  {
    var front, x, back := t[..j], t[j], t[j + 1..];
    SplitAt(t, j);
    calc {
      Sum(t);
    == { SumConcat(front + [x], back); }
      Sum(front + [x]) + Sum(back);
    == { SumPush(front, x); }
      Sum(front) + x + Sum(back);
    == { SumConcat(front, back); }
      Sum(front + back) + x;
    }
  }

  lemma MultisetRemoveAt(t: seq<real>, j: nat)
    requires j < |t|
    ensures multiset(t[..j] + t[j + 1..]) == multiset(t) - multiset{t[j]}
  {
    SplitAt(t, j);
  }

  /** The sum does not depend on the order in which the samples arrived. */
  lemma {:induction false} SumPermutation(s: seq<real>, t: seq<real>)
    requires multiset(s) == multiset(t)
    ensures Sum(s) == Sum(t)
    decreases |s|
  {
    if s == [] {
      assert |t| == |multiset(t)| == 0;
    } else {
      var n := |s| - 1;
      var x := s[n];
      assert x in multiset(t);
      var j :| 0 <= j < |t| && t[j] == x;
      MultisetRemoveAt(s, n);
      MultisetRemoveAt(t, j);
      assert s[..n] + s[n + 1..] == s[..n];
      SumPermutation(s[..n], t[..j] + t[j + 1..]);
      SumRemoveAt(t, j);
    }
  }

  /** The mean the component reports is order-independent. */
  lemma MeanPermutation(s: seq<real>, t: seq<real>)
    requires s != [] && multiset(s) == multiset(t)
    ensures t != [] && Mean(s) == Mean(t)
  {
    assert |t| == |multiset(t)| == |multiset(s)| == |s|;
    SumPermutation(s, t);
  }

  lemma {:induction false} SumAtLeast(samples: seq<real>, lo: real)
    requires forall i :: 0 <= i < |samples| ==> lo <= samples[i]
    ensures |samples| as real * lo <= Sum(samples)
    decreases |samples|
  {
    if samples != [] {
      SumAtLeast(samples[..|samples| - 1], lo);
    }
  }

  lemma {:induction false} SumAtMost(samples: seq<real>, hi: real)
    requires forall i :: 0 <= i < |samples| ==> samples[i] <= hi
    ensures Sum(samples) <= |samples| as real * hi
    decreases |samples|
  {
    if samples != [] {
      SumAtMost(samples[..|samples| - 1], hi);
    }
  }

  /** A product with a positive factor is non-negative only when the other factor is. */
  lemma NonNegativeFactor(x: real, n: real)
    requires n > 0.0 && x * n >= 0.0
    ensures x >= 0.0
  {
  }

  /** When no sample exceeds a bound, neither does the mean. */
  lemma MeanAtMost(samples: seq<real>, hi: real)
    requires samples != []
    requires forall i :: 0 <= i < |samples| ==> samples[i] <= hi
    ensures Mean(samples) <= hi
  {
    SumAtMost(samples, hi);
    var n := |samples| as real;
    var m := Mean(samples);
    assert (hi - m) * n == hi * n - m * n;
    NonNegativeFactor(hi - m, n);
  }

  /** The mean lies between the smallest and the largest sample bound. */
  lemma MeanWithin(samples: seq<real>, lo: real, hi: real)
    requires samples != []
    requires forall i :: 0 <= i < |samples| ==> lo <= samples[i] <= hi
    ensures lo <= Mean(samples) <= hi
  {
    SumAtLeast(samples, lo);
    MeanAtMost(samples, hi);
    var n := |samples| as real;
    var m := Mean(samples);
    assert (m - lo) * n == m * n - lo * n;
    NonNegativeFactor(m - lo, n);
  }

  lemma {:induction false} SumAbove(samples: seq<real>, lo: real)
    requires samples != []
    requires forall i :: 0 <= i < |samples| ==> samples[i] > lo
    ensures Sum(samples) > |samples| as real * lo
    decreases |samples|
  {
    if |samples| > 1 {
      SumAbove(samples[..|samples| - 1], lo);
    } else {
      assert samples[..0] == [];
    }
  }

  /** When every sample exceeds a bound, so does the mean. */
  lemma MeanAbove(samples: seq<real>, lo: real)
    requires samples != []
    requires forall i :: 0 <= i < |samples| ==> samples[i] > lo
    ensures Mean(samples) > lo
  {
    SumAbove(samples, lo);
    var n := |samples| as real;
    var m := Mean(samples);
    assert (m - lo) * n > 0.0;
  }

  /** The mean after one more sample, from the mean before it. */
  lemma MeanPush(samples: seq<real>, x: real)
    requires samples != []
    ensures Mean(samples + [x]) == (Mean(samples) * |samples| as real + x) / (|samples| + 1) as real
  {
    SumPush(samples, x);
  }
}
