/** Whole runs of a whole-factor upsampler, by induction on the number of groups of R
    calls, and the resulting promise from a flush. */
module UpsamplingRuns {
  import opened ChannelState
  import opened ResamplerOne
  import opened Upsampling

  /** In the steady state the run r of m groups of R calls has m * R samples. */
  lemma {:induction false} UpsampleRunLength(c: Channel, src: seq<real>, q: nat, n: nat, u: real, m: nat, r: seq<real>)
    requires n >= 2 && u == 1.0 / n as real
    requires UpsampleSteady(c, src, q, u) && q + m <= |src|
    requires r == Run(c, src, q, Groups(n, m))
    ensures |r| == Groups(n, m)
    decreases m
  {
    if m == 0 {
      NoGroups(c, src, q, n, m, r);
    } else {
      var d, blk, rest := UpsampleSplit(c, src, q, n, u, m, r);
      UpsampleRunLength(d, src, q + 1, n, u, m - 1, rest);
    }
  }

  /** In the steady state, the last call of each group of R in the run r returns the next
      input exactly: src[q - 2], src[q - 1], ... */
  lemma {:induction false} UpsampleRun(c: Channel, src: seq<real>, q: nat, n: nat, u: real, m: nat, r: seq<real>)
    requires n >= 2 && u == 1.0 / n as real
    requires UpsampleSteady(c, src, q, u) && q + m <= |src|
    requires r == Run(c, src, q, Groups(n, m))
    ensures GroupLasts(r, n) == src[q - 2..q - 2 + m]
    decreases m
  {
    if m == 0 {
      NoGroups(c, src, q, n, m, r);
    } else {
      var d, blk, rest := UpsampleSplit(c, src, q, n, u, m, r);
      UpsampleRun(d, src, q + 1, n, u, m - 1, rest);
      GroupLastsCons(r, blk, rest, n, src, q - 2, q + 1 - 2, m);
    }
  }

  /** Upsampling by a whole factor R from a freshly flushed channel: every R-th output,
      starting with the first, is the next input sample exactly. */
  lemma UpsampleFromFlush(c: Channel, src: seq<real>, k: nat, n: nat, m: nat)
    requires n >= 2 && c.ratio == 1.0 / n as real && c.flush && c.fracPos >= 0.0
    requires k + 3 + m <= |src|
    ensures |Run(c, src, k, 1 + n * m)| == 1 + n * m
    ensures EveryNth(Run(c, src, k, 1 + n * m), n) == src[k..k + 1 + m]
  {
    Reciprocal(n);
    GroupsIsProduct(n, m);
    PrimingReadsThree(c, src, k);
    var p := PullStep(c, src, k);
    RunCons(c, src, k, 1 + Groups(n, m));
    var rest := Run(p.chan, src, k + 3, Groups(n, m));
    UpsampleRunLength(p.chan, src, k + 3, n, 1.0 / n as real, m, rest);
    UpsampleRun(p.chan, src, k + 3, n, 1.0 / n as real, m, rest);
    assert ([src[k]] + rest)[1..] == rest;
    SliceCons(src, k, 1 + m);
  }

  lemma MulMono(n: nat, j: nat, m: nat)
    requires j <= m
    ensures n * j <= n * m
  {
    assert n * m == n * j + n * (m - j);
  }

  /** From a flush at ratio 1/R, output R * j is input sample k + j exactly. */
  lemma UpsampleFromFlushAt(c: Channel, src: seq<real>, k: nat, n: nat, m: nat, j: nat)
    requires n >= 2 && c.ratio == 1.0 / n as real && c.flush && c.fracPos >= 0.0
    requires k + 3 + m <= |src| && j <= m
    ensures n * j < |Run(c, src, k, 1 + n * m)| && Run(c, src, k, 1 + n * m)[n * j] == src[k + j]
  {
    UpsampleFromFlush(c, src, k, n, m);
    var r := Run(c, src, k, 1 + n * m);
    MulMono(n, j, m);
    EveryNthAt(r, n, j);
    assert EveryNth(r, n)[j] == src[k..k + 1 + m][j];
  }
}
