/** The per-channel state of the cubic-interpolation resampler and the pieces of
    its transition rule that the pull form (ResamplerMono, Resampler) and the
    block form (AudioResampler) share. Samples, ratio and phase are exact reals. */
module ChannelState {

  /** The hard capacity of the multi-channel resamplers. */
  const MaxChannels: nat := 16

  /** One channel: the conversion ratio (input rate / output rate), the pending-flush
      flag, the phase accumulator and the four-sample window xm1, x0, x1, x2. */
  datatype Channel = Channel(ratio: real, flush: bool, fracPos: real,
                             xm1: real, x0: real, x1: real, x2: real)

  /** A freshly constructed channel: unity ratio, flush pending, phase and window zero. */
  const Initial: Channel := Channel(1.0, true, 0.0, 0.0, 0.0, 0.0, 0.0)

  /** What every channel keeps: rates are unsigned, so the ratio is never negative,
      and the phase is only decreased while it is at least the amount taken off. */
  predicate Wf(c: Channel) {
    c.ratio >= 0.0 && c.fracPos >= 0.0
  }

  /** std::clamp on channel counts. */
  function Clamp(n: nat, lo: nat, hi: nat): (r: nat)
    requires lo <= hi
    ensures lo <= r <= hi
    ensures lo <= n <= hi ==> r == n
    ensures n < lo ==> r == lo
    ensures hi < n ==> r == hi
  {
    if n < lo then lo else if hi < n then hi else n
  }

  /** The ratio input_rate / output_rate that the rate setters store. */
  function RateRatio(inRate: nat, outRate: nat): (r: real)
    requires outRate > 0
    ensures r >= 0.0
    ensures r * outRate as real == inRate as real
    ensures r == 1.0 <==> inRate == outRate
  {
    var r := inRate as real / outRate as real;
    assert r * outRate as real == inRate as real;
    r
  }

  /** The Catmull-Rom cubic through x0 (at t = 0) and x1 (at t = 1), its
      coefficients computed from the window as the resamplers do. */
  function Cubic(xm1: real, x0: real, x1: real, x2: real, t: real): (r: real)
    ensures t == 0.0 ==> r == x0
    ensures t == 1.0 ==> r == x1
  {
    var a := (3.0 * (x0 - x1) - xm1 + x2) / 2.0;
    var b := 2.0 * x1 + xm1 - (5.0 * x0 + x2) / 2.0;
    var c := (x1 - xm1) / 2.0;
    ((a * t + b) * t + c) * t + x0
  }

  /** The textbook cubic Hermite segment from p0 to p1 with end tangents m0 and m1. */
  function Hermite(p0: real, p1: real, m0: real, m1: real, t: real): real {
    var t2 := t * t;
    var t3 := t2 * t;
    (2.0 * t3 - 3.0 * t2 + 1.0) * p0 + (t3 - 2.0 * t2 + t) * m0
      + (3.0 * t2 - 2.0 * t3) * p1 + (t3 - t2) * m1
  }

  /** The resamplers' coefficient formula is the Catmull-Rom spline: the cubic Hermite
      segment from x0 to x1 whose tangents are the central differences of the window. */
  lemma CubicIsCatmullRom(xm1: real, x0: real, x1: real, x2: real, t: real)
    ensures Cubic(xm1, x0, x1, x2, t) == Hermite(x0, x1, (x1 - xm1) / 2.0, (x2 - x0) / 2.0, t)
  {
    var t2 := t * t;
    var t3 := t2 * t;
    var m0 := (x1 - xm1) / 2.0;
    var m1 := (x2 - x0) / 2.0;
    var a := (3.0 * (x0 - x1) - xm1 + x2) / 2.0;
    var b := 2.0 * x1 + xm1 - (5.0 * x0 + x2) / 2.0;
    assert ((a * t + b) * t + m0) * t + x0 == a * t3 + b * t2 + m0 * t + x0;
    assert a == 2.0 * x0 - 2.0 * x1 + m0 + m1;
    assert b == 3.0 * x1 - 3.0 * x0 - 2.0 * m0 - m1;
  }

  /** Samples on a straight line are reproduced exactly: the interpolant between
      x0 and x0 + d at phase t is x0 + d * t. */
  lemma CubicReproducesLines(x0: real, d: real, t: real)
    ensures Cubic(x0 - d, x0, x0 + d, x0 + 2.0 * d, t) == x0 + d * t
  {
    var a := (3.0 * (x0 - (x0 + d)) - (x0 - d) + (x0 + 2.0 * d)) / 2.0;
    var b := 2.0 * (x0 + d) + (x0 - d) - (5.0 * x0 + (x0 + 2.0 * d)) / 2.0;
    assert a == 0.0;
    assert b == 0.0;
  }

  /** The output of a channel: the cubic of its window at its phase. */
  function Output(c: Channel): (r: real)
    ensures c.fracPos == 0.0 ==> r == c.x0
    ensures c.fracPos == 1.0 ==> r == c.x1
  {
    Cubic(c.xm1, c.x0, c.x1, c.x2, c.fracPos)
  }

  /** Priming in the pull form: three reads into x0, x1, x2, xm1 and phase zeroed,
      flush cleared. */
  function Prime(c: Channel, s0: real, s1: real, s2: real): (r: Channel)
    ensures r.ratio == c.ratio && !r.flush
    ensures Output(r) == s0
  {
    c.(flush := false, xm1 := 0.0, x0 := s0, x1 := s1, x2 := s2, fracPos := 0.0)
  }

  /** The single-sample shift: the window slides by one, s enters as x2, the phase drops by 1. */
  function Shift1(c: Channel, s: real): (r: Channel)
    ensures r.ratio == c.ratio && r.flush == c.flush && r.fracPos == c.fracPos - 1.0
  {
    c.(fracPos := c.fracPos - 1.0, xm1 := c.x0, x0 := c.x1, x1 := c.x2, x2 := s)
  }

  /** The phase >= 2 branch: the window slides by two, s1 and s2 enter, the phase drops by 2. */
  function Shift2(c: Channel, s1: real, s2: real): (r: Channel)
    ensures r.ratio == c.ratio && r.flush == c.flush && r.fracPos == c.fracPos - 2.0
  {
    c.(fracPos := c.fracPos - 2.0, xm1 := c.x1, x0 := c.x2, x1 := s1, x2 := s2)
  }

  /** The phase >= 3 branch of the pull form as written: three reads enter as x0, x1, x2,
      the phase drops by 3 and xm1 takes the old x1. */
  function Shift3(c: Channel, s1: real, s2: real, s3: real): (r: Channel)
    ensures r.ratio == c.ratio && r.flush == c.flush && r.fracPos == c.fracPos - 3.0
  {
    c.(fracPos := c.fracPos - 3.0, xm1 := c.x1, x0 := s1, x1 := s2, x2 := s3)
  }

  /** The phase >= 2 branch leaves the same channel as two single steps reading the same samples. */
  lemma Shift2IsTwoSteps(c: Channel, s1: real, s2: real)
    ensures Shift2(c, s1, s2) == Shift1(Shift1(c, s1), s2)
  {
  }

  /** The phase >= 3 branch agrees with three single steps exactly when the old x1 and x2
      coincide: three steps would leave the old x2 in xm1, the branch leaves the old x1. */
  lemma Shift3IsThreeStepsIff(c: Channel, s1: real, s2: real, s3: real)
    ensures Shift3(c, s1, s2, s3) == Shift1(Shift1(Shift1(c, s1), s2), s3) <==> c.x1 == c.x2
  {
    if Shift3(c, s1, s2, s3) == Shift1(Shift1(Shift1(c, s1), s2), s3) {
      assert Shift3(c, s1, s2, s3).xm1 == Shift1(Shift1(Shift1(c, s1), s2), s3).xm1;
    }
  }

  /** The rate setter of the pull form: store the new ratio and request a flush, but only
      when the ratio actually changes. */
  function Retune(c: Channel, inRate: nat, outRate: nat): (r: Channel)
    requires outRate > 0
    ensures r.ratio == RateRatio(inRate, outRate)
    ensures r.flush <==> c.flush || c.ratio != RateRatio(inRate, outRate)
    ensures r.(ratio := c.ratio, flush := c.flush) == c
  {
    var cur := RateRatio(inRate, outRate);
    if c.ratio != cur then c.(ratio := cur, flush := true) else c
  }

  /** Re-applying the same rates changes nothing. */
  lemma RetuneIdempotent(c: Channel, inRate: nat, outRate: nat)
    requires outRate > 0
    ensures Retune(Retune(c, inRate, outRate), inRate, outRate) == Retune(c, inRate, outRate)
  {
  }

  /** Retuning keeps the channel well formed. */
  lemma RetuneWf(c: Channel, inRate: nat, outRate: nat)
    requires outRate > 0 && Wf(c)
    ensures Wf(Retune(c, inRate, outRate))
  {
  }
}
