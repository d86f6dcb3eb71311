/** The pull form of the resampler: one output sample per call, input fetched on
    demand through get_input. The callback is modelled as the sequence src of the
    samples it will return, read from a cursor that each call advances. */
module ResamplerOne {
  import opened ChannelState

  /** How many times one call of process invokes get_input: once at unity ratio,
      three times when priming, and otherwise once per whole unit of phase. */
  function ReadsNeeded(c: Channel): (r: nat)
    requires Wf(c)
    ensures c.ratio == 1.0 ==> r == 1
    ensures c.ratio != 1.0 && c.flush ==> r == 3
    ensures c.ratio != 1.0 && !c.flush ==> r as real <= c.fracPos < r as real + 1.0
  {
    if c.ratio == 1.0 then 1 else if c.flush then 3 else c.fracPos.Floor
  }

  /** Taking a whole number n off a phase of at least n takes n off its floor. */
  lemma FloorMinus(f: real, n: nat)
    requires f >= n as real
    ensures f.Floor >= n
    ensures (f - n as real).Floor == f.Floor - n
  {
  }

  /** One branch of the shift loop's body: when the phase is at least n (1, 2 or 3) the
      window slides as that branch does and n samples are read. */
  function Branch(n: nat, c: Channel, src: seq<real>, k: nat): (r: (Channel, nat))
    requires 1 <= n <= 3
    requires c.fracPos >= n as real ==> k + n <= |src|
    ensures r.0.ratio == c.ratio && r.0.flush == c.flush
    ensures r.1 == k || r.1 == k + n
  {
    if c.fracPos < n as real then (c, k)
    else if n == 3 then (Shift3(c, src[k], src[k + 1], src[k + 2]), k + 3)
    else if n == 2 then (Shift2(c, src[k], src[k + 1]), k + 2)
    else (Shift1(c, src[k]), k + 1)
  }

  /** Each branch reads as many samples as it takes off the phase, and only when the
      phase is at least that much. */
  lemma BranchAccounting(n: nat, c: Channel, src: seq<real>, k: nat)
    requires 1 <= n <= 3
    requires c.fracPos >= 0.0
    requires k + c.fracPos.Floor <= |src|
    ensures c.fracPos >= n as real ==> k + n <= |src|
    ensures var r := Branch(n, c, src, k);
      && r.0.fracPos >= 0.0
      && r.0.fracPos == c.fracPos - (r.1 - k) as real
      && r.1 + r.0.fracPos.Floor == k + c.fracPos.Floor
      && r.0.ratio == c.ratio && r.0.flush == c.flush
      && (c.fracPos >= n as real ==> r.1 == k + n && r.0.x2 == src[r.1 - 1])
      && (c.fracPos < n as real ==> r == (c, k))
  {
    if c.fracPos >= n as real {
      FloorMinus(c.fracPos, n);
    }
  }

  /** One pass of the shift loop's body: the >= 3, >= 2 and >= 1 branches in turn. */
  function ShiftPass(c: Channel, src: seq<real>, k: nat): (r: (Channel, nat))
    requires c.fracPos >= 1.0
    requires k + c.fracPos.Floor <= |src|
    ensures k < r.1
    ensures r.0.fracPos >= 0.0
    ensures r.1 + r.0.fracPos.Floor == k + c.fracPos.Floor
    ensures r.0.fracPos == c.fracPos - (r.1 - k) as real
    ensures r.0.ratio == c.ratio && r.0.flush == c.flush
    ensures r.0.x2 == src[r.1 - 1]
  {
    BranchAccounting(3, c, src, k);
    var p3 := Branch(3, c, src, k);
    BranchAccounting(2, p3.0, src, p3.1);
    var p2 := Branch(2, p3.0, src, p3.1);
    BranchAccounting(1, p2.0, src, p2.1);
    Branch(1, p2.0, src, p2.1)
  }

  /** The shift loop of process: passes are repeated while the phase is at least 1.
      Returns the settled channel and the advanced cursor. */
  function Settle(c: Channel, src: seq<real>, k: nat): (r: (Channel, nat))
    requires c.fracPos >= 0.0
    requires k + c.fracPos.Floor <= |src|
    ensures r.1 == k + c.fracPos.Floor
    ensures 0.0 <= r.0.fracPos < 1.0
    ensures r.0.fracPos == c.fracPos - c.fracPos.Floor as real
    ensures r.0.ratio == c.ratio && r.0.flush == c.flush
    ensures c.fracPos < 1.0 ==> r.0 == c
    ensures c.fracPos >= 1.0 ==> r.0.x2 == src[r.1 - 1]
    decreases c.fracPos.Floor
  {
    if c.fracPos < 1.0 then (c, k)
    else
      var p := ShiftPass(c, src, k);
      Settle(p.0, src, p.1)
  }

  /** The outcome of one call: the sample returned, the new channel state and the cursor. */
  datatype Pulled = Pulled(out: real, chan: Channel, next: nat)

  /** One call of process on a channel, as a function of the samples get_input supplies. */
  function PullStep(c: Channel, src: seq<real>, k: nat): (r: Pulled)
    requires Wf(c)
    requires k + ReadsNeeded(c) <= |src|
    ensures Wf(r.chan)
    ensures r.next == k + ReadsNeeded(c)
    ensures r.chan.ratio == c.ratio
    ensures c.ratio != 1.0 ==> !r.chan.flush && c.ratio <= r.chan.fracPos < c.ratio + 1.0
    ensures c.ratio == 1.0 ==> r.out == src[k] && r.chan == c
    ensures c.ratio != 1.0 ==>
      r.chan.fracPos == (if c.flush then 0.0 else c.fracPos - c.fracPos.Floor as real) + c.ratio
    ensures c.ratio != 1.0 ==> r.out == Output(r.chan.(fracPos := r.chan.fracPos - c.ratio))
  {
    if c.ratio == 1.0 then Pulled(src[k], c, k + 1)
    else
      var (p, k1) := if c.flush then (Prime(c, src[k], src[k + 1], src[k + 2]), k + 3) else (c, k);
      var (s, k2) := Settle(p, src, k1);
      Pulled(Output(s), s.(fracPos := s.fracPos + s.ratio), k2)
  }

  /** The body of the while (frac_pos >= 1) loop: the three branches in turn, each
      sliding the window and calling get_input as many times as it takes off the phase. */
  method ShiftBranches(c: Channel, src: seq<real>, cursor: nat) returns (chan: Channel, next: nat)
    requires c.fracPos >= 1.0
    requires cursor + c.fracPos.Floor <= |src|
    ensures (chan, next) == ShiftPass(c, src, cursor)
  {
    chan, next := c, cursor;
    BranchAccounting(3, c, src, cursor);
    if chan.fracPos >= 3.0 {
      chan := chan.(fracPos := chan.fracPos - 3.0, xm1 := chan.x1);
      chan := chan.(x0 := src[next]);
      chan := chan.(x1 := src[next + 1]);
      chan := chan.(x2 := src[next + 2]);
      next := next + 3;
    }
    assert (chan, next) == Branch(3, c, src, cursor);
    ghost var (c3, k3) := (chan, next);
    BranchAccounting(2, c3, src, k3);
    if chan.fracPos >= 2.0 {
      chan := chan.(fracPos := chan.fracPos - 2.0, xm1 := chan.x1, x0 := chan.x2);
      chan := chan.(x1 := src[next]);
      chan := chan.(x2 := src[next + 1]);
      next := next + 2;
    }
    assert (chan, next) == Branch(2, c3, src, k3);
    ghost var (c2, k2) := (chan, next);
    BranchAccounting(1, c2, src, k2);
    if chan.fracPos >= 1.0 {
      chan := chan.(fracPos := chan.fracPos - 1.0, xm1 := chan.x0, x0 := chan.x1, x1 := chan.x2);
      chan := chan.(x2 := src[next]);
      next := next + 1;
    }
  }

  /** The while (frac_pos >= 1) loop of process, on the channel being updated. */
  method ShiftLoop(c: Channel, src: seq<real>, cursor: nat) returns (chan: Channel, next: nat)
    requires c.fracPos >= 0.0
    requires cursor + c.fracPos.Floor <= |src|
    ensures (chan, next) == Settle(c, src, cursor)
  {
    chan, next := c, cursor;
    while chan.fracPos >= 1.0
      invariant chan.fracPos >= 0.0
      invariant next + chan.fracPos.Floor <= |src|
      invariant Settle(chan, src, next) == Settle(c, src, cursor)
      decreases chan.fracPos.Floor
    {
      chan, next := ShiftBranches(chan, src, next);
    }
  }

  /** The samples returned by n successive calls starting from channel c at cursor k;
      the run stops early if src cannot supply the next call. */
  function Run(c: Channel, src: seq<real>, k: nat, n: nat): (r: seq<real>)
    requires Wf(c)
    ensures |r| <= n
    decreases n, 1
  {
    if n == 0 || k + ReadsNeeded(c) > |src| then [] else RunStep(c, src, k, n)
  }

  /** A run that can make its first call: that call's sample, then the rest of the run. */
  function RunStep(c: Channel, src: seq<real>, k: nat, n: nat): (r: seq<real>)
    requires Wf(c) && n > 0 && k + ReadsNeeded(c) <= |src|
    ensures |r| <= n
    decreases n, 0
  {
    var p := PullStep(c, src, k);
    [p.out] + Run(p.chan, src, p.next, n - 1)
  }

  /** The channel and cursor after the calls that Run makes. */
  function After(c: Channel, src: seq<real>, k: nat, n: nat): (r: (Channel, nat))
    requires Wf(c)
    ensures Wf(r.0)
    decreases n
  {
    if n == 0 || k + ReadsNeeded(c) > |src| then (c, k)
    else
      var p := PullStep(c, src, k);
      After(p.chan, src, p.next, n - 1)
  }

  /** A run of a + b calls is a run of a calls followed by a run of b calls
      from where the first one left off. */
  lemma {:induction false} RunAppend(c: Channel, src: seq<real>, k: nat, a: nat, b: nat)
    requires Wf(c)
    ensures Run(c, src, k, a + b) == Run(c, src, k, a) + Run(After(c, src, k, a).0, src, After(c, src, k, a).1, b)
    decreases a, 1
  {
    if a == 0 {
      assert Run(c, src, k, a) == [];
    } else if k + ReadsNeeded(c) > |src| {
      assert Run(c, src, k, a) == [];
      assert b != 0 ==> Run(c, src, k, b) == [];
    } else {
      RunAppendStep(c, src, k, a, b);
    }
  }

  lemma {:induction false} RunAppendStep(c: Channel, src: seq<real>, k: nat, a: nat, b: nat)
    requires Wf(c) && a > 0 && k + ReadsNeeded(c) <= |src|
    ensures Run(c, src, k, a + b) == Run(c, src, k, a) + Run(After(c, src, k, a).0, src, After(c, src, k, a).1, b)
    decreases a, 0
  {
    var p := PullStep(c, src, k);
    RunAppend(p.chan, src, p.next, a - 1, b);
    var x := Run(p.chan, src, p.next, a - 1);
    var q := After(p.chan, src, p.next, a - 1);
    var y := Run(q.0, src, q.1, b);
    RunCons(c, src, k, a + b);
    RunCons(c, src, k, a);
    AfterCons(c, src, k, a);
    ConsAppend(p.out, x, y, Run(c, src, k, a + b), Run(c, src, k, a));
  }

  /** Consing onto a concatenation is consing onto its first part. */
  lemma ConsAppend(h: real, x: seq<real>, y: seq<real>, all: seq<real>, first: seq<real>)
    requires all == [h] + (x + y) && first == [h] + x
    ensures all == first + y
  {
    assert [h] + (x + y) == ([h] + x) + y;
  }

  /** At unity ratio a call returns the next input unchanged and leaves the channel
      untouched, a pending flush included. */
  lemma UnityPassesThrough(c: Channel, src: seq<real>, k: nat)
    requires Wf(c) && c.ratio == 1.0 && k < |src|
    ensures PullStep(c, src, k) == Pulled(src[k], c, k + 1)
  {
  }

  /** A resampler at unity ratio reproduces its input: n calls return the next n samples. */
  lemma {:induction false} UnityRunIsIdentity(c: Channel, src: seq<real>, k: nat, n: nat)
    requires Wf(c) && c.ratio == 1.0 && k + n <= |src|
    ensures Run(c, src, k, n) == src[k..k + n]
    decreases n
  {
    if n > 0 {
      UnityRunIsIdentity(c, src, k + 1, n - 1);
      assert src[k..k + n] == [src[k]] + src[k + 1..k + n];
    }
  }

  /** A pending flush makes the call read exactly three samples, in order, into x0, x1, x2,
      with xm1 and the phase zeroed; the sample returned is the first of them and the
      phase then advances by the ratio. */
  lemma PrimingReadsThree(c: Channel, src: seq<real>, k: nat)
    requires Wf(c) && c.ratio != 1.0 && c.flush && k + 3 <= |src|
    ensures PullStep(c, src, k)
         == Pulled(src[k], Channel(c.ratio, false, c.ratio, 0.0, src[k], src[k + 1], src[k + 2]), k + 3)
  {
  }

  /** x0, x1, x2 hold the three samples that precede cursor q. */
  predicate WindowEndsAt(c: Channel, src: seq<real>, q: nat) {
    3 <= q <= |src| && c.x0 == src[q - 3] && c.x1 == src[q - 2] && c.x2 == src[q - 1]
  }

  /** xm1, x0, x1, x2 hold the four samples that precede cursor q. */
  predicate HistoryEndsAt(c: Channel, src: seq<real>, q: nat) {
    4 <= q && WindowEndsAt(c, src, q) && c.xm1 == src[q - 4]
  }

  lemma BranchKeepsWindow(n: nat, c: Channel, src: seq<real>, k: nat)
    requires 1 <= n <= 3
    requires c.fracPos >= 0.0 && k + c.fracPos.Floor <= |src|
    requires WindowEndsAt(c, src, k)
    ensures c.fracPos >= n as real ==> k + n <= |src|
    ensures WindowEndsAt(Branch(n, c, src, k).0, src, Branch(n, c, src, k).1)
    ensures n < 3 && HistoryEndsAt(c, src, k) ==> HistoryEndsAt(Branch(n, c, src, k).0, src, Branch(n, c, src, k).1)
  {
    BranchAccounting(n, c, src, k);
  }

  /** Every pass of the loop leaves in x0, x1, x2 the last three samples read; when the
      >= 3 branch does not fire (phase below 3) xm1 is the sample before them. */
  lemma ShiftPassKeepsWindow(c: Channel, src: seq<real>, k: nat)
    requires c.fracPos >= 1.0 && k + c.fracPos.Floor <= |src|
    requires WindowEndsAt(c, src, k)
    ensures WindowEndsAt(ShiftPass(c, src, k).0, src, ShiftPass(c, src, k).1)
    ensures c.fracPos < 3.0 && HistoryEndsAt(c, src, k) ==> HistoryEndsAt(ShiftPass(c, src, k).0, src, ShiftPass(c, src, k).1)
  {
    BranchAccounting(3, c, src, k);
    BranchKeepsWindow(3, c, src, k);
    var p3 := Branch(3, c, src, k);
    BranchAccounting(2, p3.0, src, p3.1);
    BranchKeepsWindow(2, p3.0, src, p3.1);
    var p2 := Branch(2, p3.0, src, p3.1);
    BranchAccounting(1, p2.0, src, p2.1);
    BranchKeepsWindow(1, p2.0, src, p2.1);
  }

  /** After the shift loop x0, x1, x2 are the last three samples read. */
  lemma {:induction false} SettleKeepsWindow(c: Channel, src: seq<real>, k: nat)
    requires c.fracPos >= 0.0 && k + c.fracPos.Floor <= |src|
    requires WindowEndsAt(c, src, k)
    ensures WindowEndsAt(Settle(c, src, k).0, src, Settle(c, src, k).1)
    decreases c.fracPos.Floor
  {
    if c.fracPos >= 1.0 {
      ShiftPassKeepsWindow(c, src, k);
      var p := ShiftPass(c, src, k);
      SettleKeepsWindow(p.0, src, p.1);
    }
  }

  /** With the phase below 3 the shift loop keeps the whole four-sample history. */
  lemma SettleKeepsHistory(c: Channel, src: seq<real>, k: nat)
    requires 0.0 <= c.fracPos < 3.0 && k + c.fracPos.Floor <= |src|
    requires HistoryEndsAt(c, src, k)
    ensures HistoryEndsAt(Settle(c, src, k).0, src, Settle(c, src, k).1)
  {
    if c.fracPos >= 1.0 {
      ShiftPassKeepsWindow(c, src, k);
    }
  }

  /** After every non-unity call, primed or not, x0, x1, x2 hold the last three samples read. */
  lemma PullStepKeepsWindow(c: Channel, src: seq<real>, k: nat)
    requires Wf(c) && c.ratio != 1.0 && k + ReadsNeeded(c) <= |src|
    requires c.flush || WindowEndsAt(c, src, k)
    ensures WindowEndsAt(PullStep(c, src, k).chan, src, PullStep(c, src, k).next)
  {
    if c.flush {
      PrimingReadsThree(c, src, k);
    } else {
      SettleKeepsWindow(c, src, k);
    }
  }

  /** A primed call with phase below 3 whose history is the four samples before the cursor
      returns the Catmull-Rom cubic of the four samples before the new cursor, evaluated at
      the fractional part of the phase; the new phase is that fraction plus the ratio. */
  lemma PullStepInterpolates(c: Channel, src: seq<real>, k: nat)
    requires Wf(c) && c.ratio != 1.0 && !c.flush && c.fracPos < 3.0
    requires k + ReadsNeeded(c) <= |src|
    requires HistoryEndsAt(c, src, k)
    ensures var r := PullStep(c, src, k);
            var q := r.next;
            var t := c.fracPos - c.fracPos.Floor as real;
            && HistoryEndsAt(r.chan, src, q)
            && r.out == Cubic(src[q - 4], src[q - 3], src[q - 2], src[q - 1], t)
            && r.chan.fracPos == t + c.ratio
  {
    SettleKeepsHistory(c, src, k);
  }

  /** Downsampling by a whole factor n: a primed call at phase n whose window ends at the
      cursor reads n samples and returns exactly the input sample now in x0. */
  lemma DecimateStep(c: Channel, src: seq<real>, k: nat, n: nat)
    requires n >= 2 && c.ratio == n as real && !c.flush && c.fracPos == n as real
    requires WindowEndsAt(c, src, k) && k + n <= |src|
    ensures var r := PullStep(c, src, k);
            && r.next == k + n
            && r.out == src[k + n - 3]
            && r.chan.ratio == c.ratio && !r.chan.flush && r.chan.fracPos == n as real
            && WindowEndsAt(r.chan, src, k + n)
  {
    assert (n as real).Floor == n;
    SettleKeepsWindow(c, src, k);
  }

  /** One call of a run, taken off its front. */
  lemma RunCons(c: Channel, src: seq<real>, k: nat, n: nat)
    requires Wf(c) && n > 0 && k + ReadsNeeded(c) <= |src|
    ensures Run(c, src, k, n)
         == [PullStep(c, src, k).out] + Run(PullStep(c, src, k).chan, src, PullStep(c, src, k).next, n - 1)
  {
  }

  /** The state after a run, taken off its front. */
  lemma AfterCons(c: Channel, src: seq<real>, k: nat, n: nat)
    requires Wf(c) && n > 0 && k + ReadsNeeded(c) <= |src|
    ensures After(c, src, k, n) == After(PullStep(c, src, k).chan, src, PullStep(c, src, k).next, n - 1)
  {
  }

  /** r is every n-th sample of src, starting at index base. */
  predicate StridedFrom(r: seq<real>, src: seq<real>, base: nat, n: nat) {
    forall j :: 0 <= j < |r| ==> base + n * j < |src| && r[j] == src[base + n * j]
  }

  lemma StridedCons(r: seq<real>, src: seq<real>, base: nat, n: nat)
    requires base < |src| && StridedFrom(r, src, base + n, n)
    ensures StridedFrom([src[base]] + r, src, base, n)
  {
    var s := [src[base]] + r;
    forall j | 0 <= j < |s|
      ensures base + n * j < |src| && s[j] == src[base + n * j]
    {
      if j > 0 {
        assert n * j == n + n * (j - 1);
        assert s[j] == r[j - 1];
      }
    }
  }

  /** m groups of n are one group and m - 1 more. */
  lemma MulPred(n: nat, m: nat)
    requires m > 0
    ensures n * m == n + n * (m - 1)
  {
  }

  /** In the steady state of a whole-factor downsampler every n-th input is returned:
      call j returns src[k + n - 3 + n * j]. */
  lemma {:induction false} DecimateRun(c: Channel, src: seq<real>, k: nat, n: nat, m: nat)
    requires n >= 2 && c.ratio == n as real && !c.flush && c.fracPos == n as real
    requires WindowEndsAt(c, src, k) && k + n * m <= |src|
    ensures |Run(c, src, k, m)| == m
    ensures StridedFrom(Run(c, src, k, m), src, k + n - 3, n)
    decreases m
  {
    if m > 0 {
      MulPred(n, m);
      DecimateStep(c, src, k, n);
      var p := PullStep(c, src, k);
      DecimateRun(p.chan, src, k + n, n, m - 1);
      RunCons(c, src, k, m);
      StridedCons(Run(p.chan, src, k + n, m - 1), src, k + n - 3, n);
    }
  }

  /** Downsampling by a whole factor n from a freshly flushed channel: call j returns
      input sample k + n * j exactly. */
  lemma DecimateFromFlush(c: Channel, src: seq<real>, k: nat, n: nat, m: nat)
    requires n >= 2 && c.ratio == n as real && c.flush && c.fracPos >= 0.0
    requires m >= 1 && k + 3 + n * (m - 1) <= |src|
    ensures |Run(c, src, k, m)| == m
    ensures StridedFrom(Run(c, src, k, m), src, k, n)
  {
    PrimingReadsThree(c, src, k);
    var p := PullStep(c, src, k);
    DecimateRun(p.chan, src, k + 3, n, m - 1);
    RunCons(c, src, k, m);
    StridedCons(Run(p.chan, src, k + 3, m - 1), src, k, n);
  }

  /** The phase >= 3 branch is reached below a ratio of 3: at ratio 5/2 the third call
      after a flush starts with phase exactly 3. */
  lemma ThreeBranchAtFiveHalves(c: Channel, src: seq<real>, k: nat)
    requires c.ratio == 2.5 && c.flush && c.fracPos >= 0.0 && k + 5 <= |src|
    ensures After(c, src, k, 2).0.fracPos == 3.0
    ensures After(c, src, k, 2).1 == k + 5
  {
    var p := PullStep(c, src, k);
    assert p.chan.fracPos == 2.5 && p.next == k + 3;
    var q := PullStep(p.chan, src, p.next);
    assert q.chan.fracPos == 3.0 && q.next == k + 5;
  }

  /** The loop body of process, shared by ResamplerMono and Resampler: the channel is
      updated step by step and get_input is a read of src at the cursor. */
  method ProcessChannel(c: Channel, src: seq<real>, cursor: nat) returns (out: real, chan: Channel, next: nat)
    requires Wf(c)
    requires cursor + ReadsNeeded(c) <= |src|
    ensures Pulled(out, chan, next) == PullStep(c, src, cursor)
  {
    chan, next := c, cursor;
    if chan.ratio == 1.0 {
      out := src[next];
      next := next + 1;
      return;
    }
    if chan.flush {
      chan := chan.(flush := false, xm1 := 0.0);
      chan := chan.(x0 := src[next]);
      chan := chan.(x1 := src[next + 1]);
      chan := chan.(x2 := src[next + 2]);
      next := next + 3;
      chan := chan.(fracPos := 0.0);
    }
    chan, next := ShiftLoop(chan, src, next);
    var a := (3.0 * (chan.x0 - chan.x1) - chan.xm1 + chan.x2) / 2.0;
    var b := 2.0 * chan.x1 + chan.xm1 - (5.0 * chan.x0 + chan.x2) / 2.0;
    var cc := (chan.x1 - chan.xm1) / 2.0;
    out := ((a * chan.fracPos + b) * chan.fracPos + cc) * chan.fracPos + chan.x0;
    chan := chan.(fracPos := chan.fracPos + chan.ratio);
  }

  /** The single-channel pull resampler. */
  class ResamplerMono {
    var chan: Channel

    ghost predicate Valid()
      reads this
    {
      Wf(chan)
    }

    constructor ()
      ensures Valid() && chan == Initial
    {
      chan := Initial;
    }

    /** One output sample; get_input supplies src[cursor], src[cursor + 1], ... */
    method Process(src: seq<real>, cursor: nat) returns (out: real, next: nat)
      requires Valid()
      requires cursor + ReadsNeeded(chan) <= |src|
      modifies this
      ensures Valid()
      ensures Pulled(out, chan, next) == PullStep(old(chan), src, cursor)
    {
      out, chan, next := ProcessChannel(chan, src, cursor);
    }

    method SetSampleRateInOut(inRate: nat, outRate: nat)
      requires Valid() && outRate > 0
      modifies this
      ensures Valid()
      ensures chan == Retune(old(chan), inRate, outRate)
    {
      var curRatio := RateRatio(inRate, outRate);
      if chan.ratio != curRatio {
        chan := chan.(ratio := curRatio, flush := true);
      }
    }

    /** The ratio, never negative in a valid resampler. */
    function Ratio(): (r: real)
      reads this
      ensures Valid() ==> r >= 0.0
    {
      chan.ratio
    }

    method Flush()
      requires Valid()
      modifies this
      ensures Valid()
      ensures chan == old(chan).(flush := true)
    {
      chan := chan.(flush := true);
    }
  }

  /** The multi-channel pull resampler: up to MaxChannels independent channels. */
  class Resampler {
    const numChans: nat
    const chans: array<Channel>
    var inputStride: nat
    var outputStride: nat

    ghost predicate Valid()
      reads this, chans
    {
      && 1 <= numChans <= MaxChannels
      && chans.Length == numChans
      && forall i :: 0 <= i < chans.Length ==> Wf(chans[i])
    }

    constructor (numChannels: nat)
      ensures Valid() && fresh(chans)
      ensures numChans == Clamp(numChannels, 1, MaxChannels)
      ensures inputStride == numChans && outputStride == numChans
      ensures forall i :: 0 <= i < chans.Length ==> chans[i] == Initial
    {
      numChans := Clamp(numChannels, 1, MaxChannels);
      chans := new Channel[Clamp(numChannels, 1, MaxChannels)](_ => Initial);
      inputStride := Clamp(numChannels, 1, MaxChannels);
      outputStride := Clamp(numChannels, 1, MaxChannels);
    }

    /** One output sample of channel channelIndex; an index out of range gives 0,
        reads nothing and changes nothing. */
    method Process(channelIndex: nat, src: seq<real>, cursor: nat) returns (out: real, next: nat)
      requires Valid()
      requires channelIndex < numChans ==> cursor + ReadsNeeded(chans[channelIndex]) <= |src|
      modifies chans
      ensures Valid()
      ensures channelIndex >= numChans ==> out == 0.0 && next == cursor && chans[..] == old(chans[..])
      ensures channelIndex < numChans ==>
        && Pulled(out, chans[channelIndex], next) == PullStep(old(chans[channelIndex]), src, cursor)
        && forall i :: 0 <= i < chans.Length && i != channelIndex ==> chans[i] == old(chans[i])
    {
      if channelIndex >= numChans {
        return 0.0, cursor;
      }
      var c;
      out, c, next := ProcessChannel(chans[channelIndex], src, cursor);
      chans[channelIndex] := c;
    }

    /** Every channel takes the new ratio; a channel whose ratio changes is flushed. */
    method SetSampleRateInOut(inRate: nat, outRate: nat)
      requires Valid() && outRate > 0
      modifies chans
      ensures Valid()
      ensures forall i :: 0 <= i < chans.Length ==> chans[i] == Retune(old(chans[i]), inRate, outRate)
    {
      for i := 0 to chans.Length
        invariant forall j :: 0 <= j < i ==> chans[j] == Retune(old(chans[j]), inRate, outRate)
        invariant forall j :: i <= j < chans.Length ==> chans[j] == old(chans[j])
      {
        var curRatio := RateRatio(inRate, outRate);
        if chans[i].ratio != curRatio {
          chans[i] := chans[i].(ratio := curRatio, flush := true);
        }
      }
    }

    method SetInputStride(stride: nat)
      requires Valid()
      modifies this
      ensures Valid()
      ensures inputStride == stride && outputStride == old(outputStride)
    {
      inputStride := stride;
    }

    method SetOutputStride(stride: nat)
      requires Valid()
      modifies this
      ensures Valid()
      ensures outputStride == stride && inputStride == old(inputStride)
    {
      outputStride := stride;
    }

    /** The ratio of one channel, never negative in a valid resampler; the index must be
        in range. */
    function Ratio(chan: nat): (r: real)
      requires chan < chans.Length
      reads this, chans
      ensures Valid() ==> r >= 0.0
    {
      chans[chan].ratio
    }

    /** Every channel is flushed; nothing else changes. */
    method Flush()
      requires Valid()
      modifies chans
      ensures Valid()
      ensures forall i :: 0 <= i < chans.Length ==> chans[i] == old(chans[i]).(flush := true)
    {
      for i := 0 to chans.Length
        invariant forall j :: 0 <= j < i ==> chans[j] == old(chans[j]).(flush := true)
        invariant forall j :: i <= j < chans.Length ==> chans[j] == old(chans[j])
      {
        chans[i] := chans[i].(flush := true);
      }
    }
  }
}
