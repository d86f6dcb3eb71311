/** Whole-factor upsampling in the pull form (ratio 1/R for a whole R >= 2): between two
    reads the phase climbs by 1/R per call, and the call at phase exactly 1 returns the
    sample in x1 unchanged, so from a flush every R-th output is an input sample. */
module Upsampling {
  import opened ChannelState
  import opened ResamplerOne

  /** m groups of n, counted without multiplying. */
  function Groups(n: nat, m: nat): nat
    decreases m
  {
    if m == 0 then 0 else n + Groups(n, m - 1)
  }

  lemma {:induction false} GroupsIsProduct(n: nat, m: nat)
    ensures Groups(n, m) == n * m
    decreases m
  {
    if m > 0 {
      GroupsIsProduct(n, m - 1);
      assert n * m == n + n * (m - 1);
    }
  }

  /** The last element of every complete group of n in r: r[n - 1], r[2 * n - 1], ... */
  function GroupLasts(r: seq<real>, n: nat): seq<real>
    requires n >= 1
    decreases |r|
  {
    if |r| < n then [] else [r[n - 1]] + GroupLasts(r[n..], n)
  }

  /** Element j of GroupLasts(r, n) is the last of group j, r[Groups(n, j) + n - 1]. */
  lemma {:induction false} GroupLastsAt(r: seq<real>, n: nat, j: nat)
    requires n >= 1 && Groups(n, j) + n <= |r|
    ensures j < |GroupLasts(r, n)| && GroupLasts(r, n)[j] == r[Groups(n, j) + n - 1]
    decreases j
  {
    if j > 0 {
      assert Groups(n, j) == n + Groups(n, j - 1);
      assert GroupLasts(r, n) == [r[n - 1]] + GroupLasts(r[n..], n);
      GroupLastsAt(r[n..], n, j - 1);
    }
  }

  /** Every n-th element of r, starting with the first: r[0], r[n], r[2 * n], ... */
  function EveryNth(r: seq<real>, n: nat): seq<real>
    requires n >= 1
  {
    if |r| == 0 then [] else [r[0]] + GroupLasts(r[1..], n)
  }

  /** Past its first element, EveryNth(r, n) is GroupLasts of the rest of r. */
  lemma EveryNthTail(r: seq<real>, n: nat, j: nat)
    requires n >= 1 && 0 < j && 0 < |r| && j - 1 < |GroupLasts(r[1..], n)|
    ensures j < |EveryNth(r, n)| && EveryNth(r, n)[j] == GroupLasts(r[1..], n)[j - 1]
  {
  }

  /** Element j of EveryNth(r, n) is r[Groups(n, j)]. */
  lemma {:induction false} EveryNthAtGroup(r: seq<real>, n: nat, j: nat)
    requires n >= 1 && Groups(n, j) < |r|
    ensures j < |EveryNth(r, n)| && EveryNth(r, n)[j] == r[Groups(n, j)]
  {
    if j > 0 {
      var g := Groups(n, j - 1);
      assert Groups(n, j) == n + g;
      var t := r[1..];
      assert g + n <= |t|;
      GroupLastsAt(t, n, j - 1);
      EveryNthTail(r, n, j);
      assert t[g + n - 1] == r[g + n];
    }
  }

  /** Element j of EveryNth(r, n) is r[n * j]. */
  lemma EveryNthAt(r: seq<real>, n: nat, j: nat)
    requires n >= 1 && n * j < |r|
    ensures j < |EveryNth(r, n)| && EveryNth(r, n)[j] == r[n * j]
  {
    GroupsIsProduct(n, j);
    EveryNthAtGroup(r, n, j);
  }

  /** Phases of a whole-factor upsampler: i/R stays below 1 for i < R and steps to (i + 1)/R. */
  lemma PhaseSteps(i: nat, n: nat)
    requires 1 <= i < n
    ensures i as real / n as real < 1.0
    ensures i as real / n as real + 1.0 / n as real == (i + 1) as real / n as real
  {
    assert (i as real / n as real) * n as real == i as real;
  }

  /** A call at a phase below 1 reads nothing and only advances the phase by the ratio. */
  lemma QuietCall(c: Channel, src: seq<real>, q: nat)
    requires Wf(c) && c.ratio != 1.0 && !c.flush && c.fracPos < 1.0 && q <= |src|
    ensures ReadsNeeded(c) == 0
    ensures PullStep(c, src, q).chan == c.(fracPos := c.fracPos + c.ratio)
    ensures PullStep(c, src, q).next == q
  {
  }

  /** A call at phase exactly 1 reads one sample, slides the window by one and returns the
      old x1 exactly. */
  lemma ShiftingCall(c: Channel, src: seq<real>, q: nat)
    requires Wf(c) && c.ratio != 1.0 && !c.flush && c.fracPos == 1.0
    requires WindowEndsAt(c, src, q) && q + 1 <= |src|
    ensures ReadsNeeded(c) == 1
    ensures var p := PullStep(c, src, q);
            && p.next == q + 1 && p.out == src[q - 2] && WindowEndsAt(p.chan, src, q + 1)
            && p.chan == c.(fracPos := c.ratio, xm1 := c.x0, x0 := c.x1, x1 := c.x2, x2 := src[q])
  {
    assert ShiftPass(c, src, q).0 == Shift1(c, src[q]);
  }

  /** Upsampling by a whole factor R (ratio 1/R) between two reads: from phase i/R, with
      the window ending at cursor q, the next R - i calls read nothing until the last,
      which reads one sample, returns the old x1 exactly and leaves phase 1/R again. */
  lemma {:induction false} UpsampleStretch(c: Channel, src: seq<real>, q: nat, n: nat, i: nat)
    requires n >= 2 && 1 <= i <= n && c.ratio == 1.0 / n as real && !c.flush
    requires c.fracPos == i as real / n as real
    requires WindowEndsAt(c, src, q) && q + 1 <= |src|
    ensures var r := Run(c, src, q, n - i + 1);
            var a := After(c, src, q, n - i + 1);
            && |r| == n - i + 1 && r[n - i] == src[q - 2]
            && a.1 == q + 1 && WindowEndsAt(a.0, src, q + 1)
            && a.0.ratio == c.ratio && !a.0.flush && a.0.fracPos == 1.0 / n as real
    decreases n - i
  {
    if i == n {
      ShiftingCall(c, src, q);
      RunCons(c, src, q, 1);
    } else {
      PhaseSteps(i, n);
      QuietCall(c, src, q);
      var p := PullStep(c, src, q);
      UpsampleStretch(p.chan, src, q, n, i + 1);
      RunCons(c, src, q, n - i + 1);
      AfterCons(c, src, q, n - i + 1);
    }
  }

  /** One group of R calls of a whole-factor upsampler in its steady state. */
  lemma UpsampleGroup(c: Channel, src: seq<real>, q: nat, n: nat)
    requires n >= 2 && c.ratio == 1.0 / n as real && !c.flush
    requires c.fracPos == 1.0 / n as real
    requires WindowEndsAt(c, src, q) && q + 1 <= |src|
    ensures |Run(c, src, q, n)| == n && Run(c, src, q, n)[n - 1] == src[q - 2]
    ensures After(c, src, q, n).1 == q + 1 && WindowEndsAt(After(c, src, q, n).0, src, q + 1)
    ensures After(c, src, q, n).0.ratio == c.ratio && !After(c, src, q, n).0.flush
    ensures After(c, src, q, n).0.fracPos == 1.0 / n as real
  {
    UpsampleStretch(c, src, q, n, 1);
    assert n - 1 + 1 == n;
  }

  /** The ratio of a whole-factor upsampler is positive and below 1. */
  lemma Reciprocal(n: nat)
    requires n >= 2
    ensures 0.0 < 1.0 / n as real < 1.0
  {
  }

  /** A group of n elements ending in s[i], followed by a rest whose groups end in
      s[i + 1], ..., s[i + m - 1], gives groups ending in s[i], ..., s[i + m - 1]. */
  lemma GroupLastsCons(all: seq<real>, blk: seq<real>, rest: seq<real>, n: nat, s: seq<real>, i: nat, j: nat, m: nat)
    requires n >= 1 && m >= 1 && i + m <= |s| && j == i + 1
    requires all == blk + rest && |blk| == n && blk[n - 1] == s[i]
    requires GroupLasts(rest, n) == s[j..j + (m - 1)]
    ensures GroupLasts(all, n) == s[i..i + m]
  {
    assert all[n..] == rest;
    assert s[i..i + m] == [s[i]] + s[j..j + (m - 1)];
  }

  lemma SliceCons(s: seq<real>, i: nat, m: nat)
    requires m >= 1 && i + m <= |s|
    ensures s[i..i + m] == [s[i]] + s[i + 1..i + m]
  {
  }

  /** A run of m groups of n calls is one group followed by m - 1 groups from where it ends. */
  lemma RunGroupsSplit(c: Channel, src: seq<real>, q: nat, n: nat, m: nat)
    requires Wf(c) && m >= 1
    ensures Run(c, src, q, Groups(n, m))
         == Run(c, src, q, n) + Run(After(c, src, q, n).0, src, After(c, src, q, n).1, Groups(n, m - 1))
  {
    RunAppend(c, src, q, n, Groups(n, m - 1));
  }

  /** The steady state of an upsampler between two reads: ratio and phase both u, with
      0 < u < 1, no flush pending and the window ending at cursor q. */
  predicate UpsampleSteady(c: Channel, src: seq<real>, q: nat, u: real) {
    0.0 < u < 1.0 && c.ratio == u && c.fracPos == u && !c.flush && WindowEndsAt(c, src, q)
  }

  /** In the steady state at ratio u = 1/R, the run all of m >= 1 groups of R calls is one
      group ending in src[q - 2] followed by the run of m - 1 groups from the steady state
      one sample on. */
  lemma UpsampleSplit(c: Channel, src: seq<real>, q: nat, n: nat, u: real, m: nat, all: seq<real>)
    returns (d: Channel, blk: seq<real>, rest: seq<real>)
    requires n >= 2 && u == 1.0 / n as real
    requires UpsampleSteady(c, src, q, u) && q + m <= |src| && m >= 1
    requires all == Run(c, src, q, Groups(n, m))
    ensures Wf(d) && UpsampleSteady(d, src, q + 1, u)
    ensures |blk| == n && blk[n - 1] == src[q - 2]
    ensures rest == Run(d, src, q + 1, Groups(n, m - 1))
    ensures all == blk + rest
  {
    UpsampleGroup(c, src, q, n);
    RunGroupsSplit(c, src, q, n, m);
    d := After(c, src, q, n).0;
    blk := Run(c, src, q, n);
    rest := Run(d, src, q + 1, Groups(n, m - 1));
  }

  /** No groups of calls return nothing. */
  lemma NoGroups(c: Channel, src: seq<real>, q: nat, n: nat, m: nat, r: seq<real>)
    requires Wf(c) && n >= 1 && m == 0 && 2 <= q <= |src| && r == Run(c, src, q, Groups(n, m))
    ensures r == [] && |r| == Groups(n, m) && GroupLasts(r, n) == src[q - 2..q - 2 + m]
  {
  }
}
