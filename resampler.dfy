/** The block form of the resampler (AudioResampler): one call reads a stride-spaced
    input span, writes a stride-spaced output span and reports how far into each it got.
    The loop is specified by the functions BlockPrime, TakeTwo, TakeOne, Emit and Outer on
    values; the methods below run the same loops on arrays and are proved equal to them. */
module AudioResampling {
  import opened ChannelState

  /** What is left of a span of length n from position p on (0 once p is past the end). */
  function Gap(n: nat, p: nat): nat {
    if p < n then n - p else 0
  }

  /** The working state of one block call: the channel, the read position, the write
      position and the contents of the output span. */
  datatype Block = Block(chan: Channel, inpos: nat, outpos: nat, out: seq<real>)

  /** get_next_in: take inp[inpos] and advance by the stride, or keep prev and stay put
      once the input is used up. */
  function GetNextIn(prev: real, inp: seq<real>, inpos: nat, inStride: nat): (r: (real, nat))
    ensures inpos < |inp| ==> r.0 == inp[inpos] && r.1 == inpos + inStride
    ensures inpos >= |inp| ==> r == (prev, inpos)
  {
    if inpos < |inp| then (inp[inpos], inpos + inStride) else (prev, inpos)
  }

  /** Priming: only with a pending flush and at least three input elements; xm1 and the
      phase are zeroed and up to three stride-spaced inputs are loaded. Returns the
      channel and the read position. */
  function BlockPrime(c: Channel, inp: seq<real>, inStride: nat): (r: (Channel, nat))
    ensures r.0.ratio == c.ratio
    ensures r.0.flush <==> c.flush && |inp| < 3
    ensures r.1 <= 3 * inStride
  {
    if c.flush && |inp| >= 3 then
      var (v0, p0) := GetNextIn(c.x0, inp, 0, inStride);
      var (v1, p1) := GetNextIn(c.x1, inp, p0, inStride);
      var (v2, p2) := GetNextIn(c.x2, inp, p1, inStride);
      (c.(flush := false, fracPos := 0.0, xm1 := 0.0, x0 := v0, x1 := v1, x2 := v2), p2)
    else
      (c, 0)
  }

  /** The phase >= 2 branch, taken only while two more elements fit before the end. */
  function TakeTwo(b: Block, inp: seq<real>, inStride: nat): (r: Block)
    requires inStride >= 1
    ensures r.outpos == b.outpos && r.out == b.out && r.inpos >= b.inpos
    ensures r.chan.ratio == b.chan.ratio && r.chan.flush == b.chan.flush
    ensures r.inpos == b.inpos ==> r == b
  {
    var c := b.chan;
    if c.fracPos >= 2.0 && b.inpos + 2 <= |inp| then
      var (v1, p1) := GetNextIn(c.x1, inp, b.inpos, inStride);
      var (v2, p2) := GetNextIn(c.x2, inp, p1, inStride);
      b.(chan := c.(fracPos := c.fracPos - 2.0, xm1 := c.x1, x0 := c.x2, x1 := v1, x2 := v2), inpos := p2)
    else
      b
  }

  /** The phase >= 1 branch, taken only while one more element fits before the end. */
  function TakeOne(b: Block, inp: seq<real>, inStride: nat): (r: Block)
    requires inStride >= 1
    ensures r.outpos == b.outpos && r.out == b.out && r.inpos >= b.inpos
    ensures r.chan.ratio == b.chan.ratio && r.chan.flush == b.chan.flush
    ensures r.inpos == b.inpos ==> r == b
    ensures b.chan.fracPos >= 1.0 && b.inpos < |inp| ==> r.inpos > b.inpos
  {
    var c := b.chan;
    if c.fracPos >= 1.0 && b.inpos + 1 <= |inp| then
      var (v, p) := GetNextIn(c.x2, inp, b.inpos, inStride);
      b.(chan := c.(fracPos := c.fracPos - 1.0, xm1 := c.x0, x0 := c.x1, x1 := c.x2, x2 := v), inpos := p)
    else
      b
  }

  /** The inner loop: while the phase is below 1 and the output has room, write the cubic
      of the window at the phase, step the write position by the stride and advance the
      phase by the ratio. On return the output is full or the phase has reached 1. */
  function Emit(b: Block, outStride: nat): (r: Block)
    requires outStride >= 1
    ensures r.inpos == b.inpos && |r.out| == |b.out| && r.outpos >= b.outpos
    ensures r.chan.(fracPos := b.chan.fracPos) == b.chan
    ensures b.chan.fracPos < 1.0 && b.outpos < |b.out| ==> r.outpos > b.outpos
    ensures r.outpos >= |r.out| || r.chan.fracPos >= 1.0
    decreases Gap(|b.out|, b.outpos)
  {
    if b.chan.fracPos < 1.0 && b.outpos < |b.out| then
      var c := b.chan;
      Emit(b.(out := b.out[b.outpos := Output(c)], outpos := b.outpos + outStride,
              chan := c.(fracPos := c.fracPos + c.ratio)), outStride)
    else
      b
  }

  /** The outer loop. Every pass advances the read or the write position (with strides of
      at least 1), which is what makes it terminate; it stops once either span is used up. */
  function Outer(b: Block, inp: seq<real>, inStride: nat, outStride: nat): (r: Block)
    requires inStride >= 1 && outStride >= 1
    ensures |r.out| == |b.out| && r.inpos >= b.inpos && r.outpos >= b.outpos
    ensures r.outpos >= |r.out| || r.inpos >= |inp|
    ensures r.chan.ratio == b.chan.ratio && r.chan.flush == b.chan.flush
    decreases Gap(|inp|, b.inpos) + Gap(|b.out|, b.outpos)
  {
    if b.outpos < |b.out| && b.inpos < |inp| then
      var e := Emit(TakeOne(TakeTwo(b, inp, inStride), inp, inStride), outStride);
      Outer(e, inp, inStride, outStride)
    else
      b
  }

  /** One pass of the outer loop strictly shrinks what is left of the two spans. */
  lemma OuterProgress(b: Block, inp: seq<real>, inStride: nat, outStride: nat)
    requires inStride >= 1 && outStride >= 1 && b.outpos < |b.out| && b.inpos < |inp|
    ensures var e := Emit(TakeOne(TakeTwo(b, inp, inStride), inp, inStride), outStride);
            Gap(|inp|, e.inpos) + Gap(|e.out|, e.outpos) < Gap(|inp|, b.inpos) + Gap(|b.out|, b.outpos)
            && Outer(e, inp, inStride, outStride) == Outer(b, inp, inStride, outStride)
  {
  }

  /** One non-unity block call: priming, then the outer loop from write position 0. */
  function BlockProcess(c: Channel, inp: seq<real>, out: seq<real>, inStride: nat, outStride: nat): (r: Block)
    requires inStride >= 1 && outStride >= 1
    ensures r.chan.ratio == c.ratio && |r.out| == |out|
    ensures r.outpos >= |out| || r.inpos >= |inp|
  {
    var (pc, p) := BlockPrime(c, inp, inStride);
    Outer(Block(pc, p, 0, out), inp, inStride, outStride)
  }

  /** The unity-ratio copy: out[k * os] = inp[k * is] for every k with both indices in
      range, every other output element as it was. */
  function StridedCopy(out: seq<real>, inp: seq<real>, inStride: nat, outStride: nat): (r: seq<real>)
    requires outStride >= 1
    ensures |r| == |out|
  {
    seq(|out|, j requires 0 <= j < |out| =>
      if j % outStride == 0 && (j / outStride) * inStride < |inp| then inp[(j / outStride) * inStride] else out[j])
  }

  // ---------------------------------------------------------------------------------
  // Arithmetic on strides

  /** The multiples of s are exactly the k * s. */
  lemma DivModOfMultiple(k: nat, s: nat, j: nat)
    requires s >= 1 && k * s <= j < k * s + s
    ensures j / s == k
    ensures j % s == 0 <==> j == k * s
  {
    var q := j / s;
    assert j == q * s + j % s;
    if q < k {
      MulLe(q + 1, k, s);
      assert false;
    } else if q > k {
      MulLe(k + 1, q, s);
      assert false;
    }
  }

  lemma MulLe(a: nat, b: nat, s: nat)
    requires a <= b
    ensures a * s <= b * s
  {
  }

  lemma MulCancel(a: nat, b: nat, s: nat)
    requires s >= 1 && a * s <= b * s
    ensures a <= b
  {
    if b < a {
      MulLe(b + 1, a, s);
    }
  }

  /** A multiple of s below a multiple-of-s length n is at least s short of it. */
  lemma StrideStep(p: nat, n: nat, s: nat)
    requires s >= 1 && p % s == 0 && n % s == 0 && p < n
    ensures p + s <= n
  {
    var a := p / s;
    var b := n / s;
    assert p == a * s;
    assert n == b * s;
    if b < a + 1 {
      MulLe(b, a, s);
      assert false;
    }
    MulLe(a + 1, b, s);
  }

  /** Strictly between two consecutive multiples of s there is no multiple of s. */
  lemma OffStride(p: nat, j: nat, s: nat)
    requires s >= 1 && p % s == 0 && p < j < p + s
    ensures j % s != 0
  {
    var k := p / s;
    assert p == k * s;
    DivModOfMultiple(k, s, j);
  }

  lemma ModStep(p: nat, s: nat)
    requires s >= 1 && p % s == 0
    ensures (p + s) % s == 0
  {
    var a := p / s;
    assert p == a * s;
    assert p + s == (a + 1) * s;
    DivModOfMultiple(a + 1, s, p + s);
  }

  // ---------------------------------------------------------------------------------
  // Properties of the block call

  /** The positions of a block call are multiples of their strides and inside their spans. */
  predicate Aligned(b: Block, n: nat, inStride: nat, outStride: nat) {
    inStride >= 1 && outStride >= 1
    && b.inpos % inStride == 0 && b.inpos <= n
    && b.outpos % outStride == 0 && b.outpos <= |b.out|
  }

  lemma GetNextInAligned(prev: real, inp: seq<real>, p: nat, inStride: nat)
    requires inStride >= 1 && |inp| % inStride == 0 && p % inStride == 0 && p <= |inp|
    ensures GetNextIn(prev, inp, p, inStride).1 % inStride == 0
    ensures GetNextIn(prev, inp, p, inStride).1 <= |inp|
  {
    if p < |inp| {
      StrideStep(p, |inp|, inStride);
      ModStep(p, inStride);
    }
  }

  lemma PrimeAligned(c: Channel, inp: seq<real>, inStride: nat)
    requires inStride >= 1 && |inp| % inStride == 0
    ensures BlockPrime(c, inp, inStride).1 % inStride == 0 && BlockPrime(c, inp, inStride).1 <= |inp|
  {
    if c.flush && |inp| >= 3 {
      GetNextInAligned(c.x0, inp, 0, inStride);
      var p0 := GetNextIn(c.x0, inp, 0, inStride).1;
      GetNextInAligned(c.x1, inp, p0, inStride);
      var p1 := GetNextIn(c.x1, inp, p0, inStride).1;
      GetNextInAligned(c.x2, inp, p1, inStride);
    }
  }

  lemma TakeTwoAligned(b: Block, inp: seq<real>, inStride: nat, outStride: nat)
    requires inStride >= 1 && |inp| % inStride == 0 && Aligned(b, |inp|, inStride, outStride)
    ensures Aligned(TakeTwo(b, inp, inStride), |inp|, inStride, outStride)
  {
    var c := b.chan;
    if c.fracPos >= 2.0 && b.inpos + 2 <= |inp| {
      GetNextInAligned(c.x1, inp, b.inpos, inStride);
      var p1 := GetNextIn(c.x1, inp, b.inpos, inStride).1;
      GetNextInAligned(c.x2, inp, p1, inStride);
    }
  }

  lemma TakeOneAligned(b: Block, inp: seq<real>, inStride: nat, outStride: nat)
    requires inStride >= 1 && |inp| % inStride == 0 && Aligned(b, |inp|, inStride, outStride)
    ensures Aligned(TakeOne(b, inp, inStride), |inp|, inStride, outStride)
  {
    if b.chan.fracPos >= 1.0 && b.inpos + 1 <= |inp| {
      GetNextInAligned(b.chan.x2, inp, b.inpos, inStride);
    }
  }

  lemma {:induction false} EmitAligned(b: Block, n: nat, inStride: nat, outStride: nat)
    requires outStride >= 1 && |b.out| % outStride == 0 && Aligned(b, n, inStride, outStride)
    ensures Aligned(Emit(b, outStride), n, inStride, outStride)
    decreases Gap(|b.out|, b.outpos)
  {
    if b.chan.fracPos < 1.0 && b.outpos < |b.out| {
      var c := b.chan;
      StrideStep(b.outpos, |b.out|, outStride);
      ModStep(b.outpos, outStride);
      EmitAligned(b.(out := b.out[b.outpos := Output(c)], outpos := b.outpos + outStride,
                     chan := c.(fracPos := c.fracPos + c.ratio)), n, inStride, outStride);
    }
  }

  lemma {:induction false} OuterAligned(b: Block, inp: seq<real>, inStride: nat, outStride: nat)
    requires inStride >= 1 && outStride >= 1 && |inp| % inStride == 0 && |b.out| % outStride == 0 && Aligned(b, |inp|, inStride, outStride)
    ensures Aligned(Outer(b, inp, inStride, outStride), |inp|, inStride, outStride)
    decreases Gap(|inp|, b.inpos) + Gap(|b.out|, b.outpos)
  {
    if b.outpos < |b.out| && b.inpos < |inp| {
      TakeTwoAligned(b, inp, inStride, outStride);
      var t := TakeTwo(b, inp, inStride);
      TakeOneAligned(t, inp, inStride, outStride);
      var s := TakeOne(t, inp, inStride);
      EmitAligned(s, |inp|, inStride, outStride);
      OuterAligned(Emit(s, outStride), inp, inStride, outStride);
    }
  }

  /** Without any alignment assumption a position only steps by its stride from inside
      its span, so it ends less than one stride past the end. */
  predicate WithinOneStride(b: Block, n: nat, inStride: nat, outStride: nat) {
    b.inpos < n + inStride && b.outpos < |b.out| + outStride
  }

  lemma GetNextInWithin(prev: real, inp: seq<real>, p: nat, inStride: nat)
    requires p < |inp| + inStride
    ensures GetNextIn(prev, inp, p, inStride).1 < |inp| + inStride
  {
  }

  lemma {:induction false} EmitWithin(b: Block, n: nat, inStride: nat, outStride: nat)
    requires outStride >= 1 && WithinOneStride(b, n, inStride, outStride)
    ensures WithinOneStride(Emit(b, outStride), n, inStride, outStride)
    decreases Gap(|b.out|, b.outpos)
  {
    if b.chan.fracPos < 1.0 && b.outpos < |b.out| {
      var c := b.chan;
      EmitWithin(b.(out := b.out[b.outpos := Output(c)], outpos := b.outpos + outStride,
                    chan := c.(fracPos := c.fracPos + c.ratio)), n, inStride, outStride);
    }
  }

  lemma {:induction false} OuterWithin(b: Block, inp: seq<real>, inStride: nat, outStride: nat)
    requires inStride >= 1 && outStride >= 1 && WithinOneStride(b, |inp|, inStride, outStride)
    ensures WithinOneStride(Outer(b, inp, inStride, outStride), |inp|, inStride, outStride)
    decreases Gap(|inp|, b.inpos) + Gap(|b.out|, b.outpos)
  {
    if b.outpos < |b.out| && b.inpos < |inp| {
      var c := b.chan;
      var t := TakeTwo(b, inp, inStride);
      if c.fracPos >= 2.0 && b.inpos + 2 <= |inp| {
        GetNextInWithin(c.x1, inp, b.inpos, inStride);
        GetNextInWithin(c.x2, inp, GetNextIn(c.x1, inp, b.inpos, inStride).1, inStride);
      }
      var s := TakeOne(t, inp, inStride);
      if t.chan.fracPos >= 1.0 && t.inpos + 1 <= |inp| {
        GetNextInWithin(t.chan.x2, inp, t.inpos, inStride);
      }
      EmitWithin(s, |inp|, inStride, outStride);
      OuterWithin(Emit(s, outStride), inp, inStride, outStride);
    }
  }

  /** Whatever the span sizes, the read position a block call ends at is less than one
      input stride past the end of the input, and the write position less than one output
      stride past the end of the output. */
  lemma BlockOverrunBound(c: Channel, inp: seq<real>, out: seq<real>, inStride: nat, outStride: nat)
    requires inStride >= 1 && outStride >= 1
    ensures var r := BlockProcess(c, inp, out, inStride, outStride);
            r.inpos < |inp| + inStride && r.outpos < |out| + outStride
  {
    if c.flush && |inp| >= 3 {
      GetNextInWithin(c.x0, inp, 0, inStride);
      var p0 := GetNextIn(c.x0, inp, 0, inStride).1;
      GetNextInWithin(c.x1, inp, p0, inStride);
      GetNextInWithin(c.x2, inp, GetNextIn(c.x1, inp, p0, inStride).1, inStride);
    }
    var (pc, p) := BlockPrime(c, inp, inStride);
    OuterWithin(Block(pc, p, 0, out), inp, inStride, outStride);
  }

  /** With an input size that is not a multiple of the stride the read position can end
      past the input: ratio 2, a pending flush, four inputs at stride 3 end at position 6,
      so the span truncated to that length would be longer than the span itself. */
  lemma BlockReadsPastUnalignedInput()
    ensures BlockProcess(Channel(2.0, true, 0.0, 0.0, 0.0, 0.0, 0.0), [0.0, 1.0, 2.0, 3.0], [0.0, 0.0], 3, 1).inpos == 6
  {
    var c := Channel(2.0, true, 0.0, 0.0, 0.0, 0.0, 0.0);
    var inp := [0.0, 1.0, 2.0, 3.0];
    var (pc, p) := BlockPrime(c, inp, 3);
    assert p == 6;
  }

  /** When each span's size is a multiple of its stride, the positions a block call ends
      at (the lengths it truncates the spans to) are multiples of the strides, within the
      spans, and at least one span is used up. */
  lemma BlockBounds(c: Channel, inp: seq<real>, out: seq<real>, inStride: nat, outStride: nat)
    requires inStride >= 1 && outStride >= 1 && |inp| % inStride == 0 && |out| % outStride == 0
    ensures var r := BlockProcess(c, inp, out, inStride, outStride);
            && r.inpos <= |inp| && r.inpos % inStride == 0
            && r.outpos <= |out| && r.outpos % outStride == 0
            && |r.out| == |out|
            && (r.inpos == |inp| || r.outpos == |out|)
  {
    PrimeAligned(c, inp, inStride);
    var (pc, p) := BlockPrime(c, inp, inStride);
    OuterAligned(Block(pc, p, 0, out), inp, inStride, outStride);
  }

  /** out1 agrees with out0 everywhere except possibly at the multiples of os in [lo, hi). */
  predicate WrittenOnlyIn(out0: seq<real>, out1: seq<real>, lo: nat, hi: nat, outStride: nat)
    requires outStride >= 1
  {
    |out1| == |out0|
    && forall j :: 0 <= j < |out0| && !(lo <= j < hi && j % outStride == 0) ==> out1[j] == out0[j]
  }

  lemma {:induction false} EmitWrites(b: Block, outStride: nat)
    requires outStride >= 1 && b.outpos % outStride == 0
    ensures WrittenOnlyIn(b.out, Emit(b, outStride).out, b.outpos, Emit(b, outStride).outpos, outStride)
    decreases Gap(|b.out|, b.outpos)
  {
    if b.chan.fracPos < 1.0 && b.outpos < |b.out| {
      var c := b.chan;
      var b1 := b.(out := b.out[b.outpos := Output(c)], outpos := b.outpos + outStride,
                   chan := c.(fracPos := c.fracPos + c.ratio));
      ModStep(b.outpos, outStride);
      EmitWrites(b1, outStride);
      var r := Emit(b, outStride);
      forall j | 0 <= j < |b.out| && !(b.outpos <= j < r.outpos && j % outStride == 0)
        ensures r.out[j] == b.out[j]
      {
        if b.outpos < j < b.outpos + outStride {
          OffStride(b.outpos, j, outStride);
        }
      }
    }
  }

  lemma WrittenOnlyInTrans(o0: seq<real>, o1: seq<real>, o2: seq<real>, lo: nat, mid: nat, hi: nat, s: nat)
    requires s >= 1 && lo <= mid <= hi
    requires WrittenOnlyIn(o0, o1, lo, mid, s) && WrittenOnlyIn(o1, o2, mid, hi, s)
    ensures WrittenOnlyIn(o0, o2, lo, hi, s)
  {
  }

  /** The number of samples the inner loop writes. */
  function EmitCount(b: Block, outStride: nat): nat
    requires outStride >= 1
    decreases Gap(|b.out|, b.outpos)
  {
    if b.chan.fracPos < 1.0 && b.outpos < |b.out| then
      var c := b.chan;
      1 + EmitCount(b.(out := b.out[b.outpos := Output(c)], outpos := b.outpos + outStride,
                       chan := c.(fracPos := c.fracPos + c.ratio)), outStride)
    else
      0
  }

  /** The phase after n advances by the ratio r from f; AdvancedIsProduct shows it is f + n * r.
      Contracts about the inner loop use this form: with the cubic in scope, the product
      f + n * r makes the solver's nonlinear arithmetic diverge. */
  function Advanced(f: real, r: real, n: nat): real
    decreases n
  {
    if n == 0 then f else Advanced(f + r, r, n - 1)
  }

  /** n advances by r add n * r. */
  lemma {:induction false} AdvancedIsProduct(f: real, r: real, n: nat)
    ensures Advanced(f, r, n) == f + n as real * r
    decreases n
  {
    if n > 0 {
      AdvancedIsProduct(f + r, r, n - 1);
      assert (n - 1) as real * r + r == n as real * r;
    }
  }

  /** One more stride s after n strides. */
  lemma OneMore(n: nat, s: nat)
    ensures (n + 1) * s == s + n * s
  {
  }

  /** The inner loop leaves every output element below its start position as it was. */
  lemma {:induction false} EmitKeepsBelow(b: Block, outStride: nat, i: nat)
    requires outStride >= 1 && i < b.outpos && i < |b.out|
    ensures Emit(b, outStride).out[i] == b.out[i]
    decreases Gap(|b.out|, b.outpos)
  {
    if b.chan.fracPos < 1.0 && b.outpos < |b.out| {
      var c := b.chan;
      EmitKeepsBelow(b.(out := b.out[b.outpos := Output(c)], outpos := b.outpos + outStride,
                        chan := c.(fracPos := c.fracPos + c.ratio)), outStride, i);
    }
  }

  /** After its n writes the inner loop has moved n strides on and advanced the phase n times
      by the ratio, i.e. to fracPos + n * ratio (AdvancedIsProduct). */
  lemma {:induction false} EmitEnd(b: Block, outStride: nat)
    requires outStride >= 1
    ensures var n := EmitCount(b, outStride);
            && Emit(b, outStride).outpos == b.outpos + n * outStride
            && Emit(b, outStride).chan.fracPos == Advanced(b.chan.fracPos, b.chan.ratio, n)
    decreases Gap(|b.out|, b.outpos)
  {
    if b.chan.fracPos < 1.0 && b.outpos < |b.out| {
      var c := b.chan;
      var b1 := b.(out := b.out[b.outpos := Output(c)], outpos := b.outpos + outStride,
                   chan := c.(fracPos := c.fracPos + c.ratio));
      var n1 := EmitCount(b1, outStride);
      assert Emit(b, outStride) == Emit(b1, outStride);
      assert EmitCount(b, outStride) == n1 + 1;
      EmitEnd(b1, outStride);
      assert Advanced(b.chan.fracPos, b.chan.ratio, n1 + 1) == Advanced(b1.chan.fracPos, c.ratio, n1);
      OneMore(n1, outStride);
    }
  }

  /** Write j of the inner loop lands at outpos + j * outStride, inside the output, and holds
      the cubic of the window at the phase advanced j times by the ratio, i.e. at
      fracPos + j * ratio (AdvancedIsProduct). */
  lemma {:induction false} EmitValues(b: Block, outStride: nat, j: nat)
    requires outStride >= 1 && j < EmitCount(b, outStride)
    ensures b.outpos + j * outStride < |b.out|
    ensures Emit(b, outStride).out[b.outpos + j * outStride]
         == Output(b.chan.(fracPos := Advanced(b.chan.fracPos, b.chan.ratio, j)))
    decreases Gap(|b.out|, b.outpos)
  {
    var c := b.chan;
    var b1 := b.(out := b.out[b.outpos := Output(c)], outpos := b.outpos + outStride,
                 chan := c.(fracPos := c.fracPos + c.ratio));
    if j == 0 {
      EmitKeepsBelow(b1, outStride, b.outpos);
    } else {
      EmitValues(b1, outStride, j - 1);
      OneMore(j - 1, outStride);
    }
  }

  lemma {:induction false} EmitKeepsStride(b: Block, outStride: nat)
    requires outStride >= 1 && b.outpos % outStride == 0
    ensures Emit(b, outStride).outpos % outStride == 0
    decreases Gap(|b.out|, b.outpos)
  {
    if b.chan.fracPos < 1.0 && b.outpos < |b.out| {
      var c := b.chan;
      ModStep(b.outpos, outStride);
      EmitKeepsStride(b.(out := b.out[b.outpos := Output(c)], outpos := b.outpos + outStride,
                         chan := c.(fracPos := c.fracPos + c.ratio)), outStride);
    }
  }

  lemma {:induction false} OuterWrites(b: Block, inp: seq<real>, inStride: nat, outStride: nat)
    requires inStride >= 1 && outStride >= 1 && b.outpos % outStride == 0
    ensures WrittenOnlyIn(b.out, Outer(b, inp, inStride, outStride).out, b.outpos, Outer(b, inp, inStride, outStride).outpos, outStride)
    decreases Gap(|inp|, b.inpos) + Gap(|b.out|, b.outpos)
  {
    if b.outpos < |b.out| && b.inpos < |inp| {
      var s := TakeOne(TakeTwo(b, inp, inStride), inp, inStride);
      EmitWrites(s, outStride);
      EmitKeepsStride(s, outStride);
      var e := Emit(s, outStride);
      OuterWrites(e, inp, inStride, outStride);
      var r := Outer(e, inp, inStride, outStride);
      assert r == Outer(b, inp, inStride, outStride);
      WrittenOnlyInTrans(b.out, e.out, r.out, b.outpos, e.outpos, r.outpos, outStride);
    }
  }

  /** A block call writes only at multiples of the output stride below the position it
      reports; every other output element keeps its value. */
  lemma BlockWritesOnlyBelowOutpos(c: Channel, inp: seq<real>, out: seq<real>, inStride: nat, outStride: nat)
    requires inStride >= 1 && outStride >= 1
    ensures var r := BlockProcess(c, inp, out, inStride, outStride);
            |r.out| == |out|
            && forall j :: 0 <= j < |out| && (j % outStride != 0 || j >= r.outpos) ==> r.out[j] == out[j]
  {
    var (pc, p) := BlockPrime(c, inp, inStride);
    OuterWrites(Block(pc, p, 0, out), inp, inStride, outStride);
  }

  /** The flush flag survives a block call exactly when it was set and the input had fewer
      than three elements; the ratio never changes. */
  lemma BlockFlushAndRatio(c: Channel, inp: seq<real>, out: seq<real>, inStride: nat, outStride: nat)
    requires inStride >= 1 && outStride >= 1
    ensures BlockProcess(c, inp, out, inStride, outStride).chan.flush == (c.flush && |inp| < 3)
    ensures BlockProcess(c, inp, out, inStride, outStride).chan.ratio == c.ratio
  {
  }

  lemma {:induction false} EmitWf(b: Block, outStride: nat)
    requires outStride >= 1 && Wf(b.chan)
    ensures Wf(Emit(b, outStride).chan)
    decreases Gap(|b.out|, b.outpos)
  {
    if b.chan.fracPos < 1.0 && b.outpos < |b.out| {
      var c := b.chan;
      EmitWf(b.(out := b.out[b.outpos := Output(c)], outpos := b.outpos + outStride,
                chan := c.(fracPos := c.fracPos + c.ratio)), outStride);
    }
  }

  lemma {:induction false} OuterWf(b: Block, inp: seq<real>, inStride: nat, outStride: nat)
    requires inStride >= 1 && outStride >= 1 && Wf(b.chan)
    ensures Wf(Outer(b, inp, inStride, outStride).chan)
    decreases Gap(|inp|, b.inpos) + Gap(|b.out|, b.outpos)
  {
    if b.outpos < |b.out| && b.inpos < |inp| {
      var s := TakeOne(TakeTwo(b, inp, inStride), inp, inStride);
      EmitWf(s, outStride);
      OuterWf(Emit(s, outStride), inp, inStride, outStride);
    }
  }

  /** A block call keeps the channel well formed: the phase is only ever reduced by an
      amount it is at least. */
  lemma BlockKeepsWf(c: Channel, inp: seq<real>, out: seq<real>, inStride: nat, outStride: nat)
    requires inStride >= 1 && outStride >= 1 && Wf(c)
    ensures Wf(BlockProcess(c, inp, out, inStride, outStride).chan)
  {
    var (pc, p) := BlockPrime(c, inp, inStride);
    OuterWf(Block(pc, p, 0, out), inp, inStride, outStride);
  }

  /** Priming reads inp[0], inp[is], inp[2 * is] into x0, x1, x2 as far as they exist;
      when the stride-spaced input runs out first, the remaining window samples keep the
      values they had before the call. Without a pending flush, or with fewer than three
      input elements, nothing is read. */
  lemma BlockPriming(c: Channel, inp: seq<real>, inStride: nat)
    requires inStride >= 1
    ensures !(c.flush && |inp| >= 3) ==> BlockPrime(c, inp, inStride) == (c, 0)
    ensures c.flush && |inp| >= 3 && 2 * inStride < |inp| ==>
      BlockPrime(c, inp, inStride) == (c.(flush := false, fracPos := 0.0, xm1 := 0.0,
                                    x0 := inp[0], x1 := inp[inStride], x2 := inp[2 * inStride]), 3 * inStride)
    ensures c.flush && |inp| >= 3 && inStride < |inp| <= 2 * inStride ==>
      BlockPrime(c, inp, inStride) == (c.(flush := false, fracPos := 0.0, xm1 := 0.0,
                                    x0 := inp[0], x1 := inp[inStride]), 2 * inStride)
    ensures c.flush && |inp| >= 3 && |inp| <= inStride ==>
      BlockPrime(c, inp, inStride) == (c.(flush := false, fracPos := 0.0, xm1 := 0.0, x0 := inp[0]), inStride)
  {
  }

  /** An empty output span takes no outputs but still consumes the priming reads. */
  lemma BlockEmptyOutput(c: Channel, inp: seq<real>, inStride: nat, outStride: nat)
    requires inStride >= 1 && outStride >= 1
    ensures BlockProcess(c, inp, [], inStride, outStride)
         == Block(BlockPrime(c, inp, inStride).0, BlockPrime(c, inp, inStride).1, 0, [])
  {
  }

  /** With the input used up by priming (or empty), the loop does not run. */
  lemma BlockExhaustedInput(c: Channel, inp: seq<real>, out: seq<real>, inStride: nat, outStride: nat)
    requires inStride >= 1 && outStride >= 1 && BlockPrime(c, inp, inStride).1 >= |inp|
    ensures BlockProcess(c, inp, out, inStride, outStride)
         == Block(BlockPrime(c, inp, inStride).0, BlockPrime(c, inp, inStride).1, 0, out)
  {
  }

  /** The unity copy pairs out[k * os] with inp[k * is] for every k that keeps both indices
      in range, and leaves every output element off the output stride untouched. */
  lemma StridedCopyPairs(out: seq<real>, inp: seq<real>, inStride: nat, outStride: nat)
    requires outStride >= 1
    ensures forall k: nat :: k * outStride < |out| && k * inStride < |inp| ==>
              StridedCopy(out, inp, inStride, outStride)[k * outStride] == inp[k * inStride]
    ensures forall j :: 0 <= j < |out| && j % outStride != 0 ==> StridedCopy(out, inp, inStride, outStride)[j] == out[j]
  {
    forall k: nat | k * outStride < |out| && k * inStride < |inp|
      ensures StridedCopy(out, inp, inStride, outStride)[k * outStride] == inp[k * inStride]
    {
      DivModOfMultiple(k, outStride, k * outStride);
    }
  }

  /** The phase >= 2 branch reads two stride-spaced samples when both exist. Its guard
      counts two elements, not two strides: with a stride of 2 or more and the second
      sample past the end, only one sample is read, x2 keeps the value just moved into
      x0, and the phase still drops by 2. */
  lemma TakeTwoReads(b: Block, inp: seq<real>, inStride: nat)
    requires inStride >= 1 && b.chan.fracPos >= 2.0 && b.inpos + 2 <= |inp|
    ensures var r := TakeTwo(b, inp, inStride);
            && r.chan.fracPos == b.chan.fracPos - 2.0
            && r.chan.xm1 == b.chan.x1 && r.chan.x0 == b.chan.x2 && r.chan.x1 == inp[b.inpos]
            && (b.inpos + inStride < |inp| ==> r.chan.x2 == inp[b.inpos + inStride] && r.inpos == b.inpos + 2 * inStride)
            && (b.inpos + inStride >= |inp| ==> r.chan.x2 == r.chan.x0 && r.inpos == b.inpos + inStride)
  {
  }

  /** Concretely: stride 2, four input elements, read position 2, phase 2. */
  lemma TakeTwoAtStrideEnd()
    ensures TakeTwo(Block(Channel(2.0, false, 2.0, 10.0, 11.0, 12.0, 13.0), 2, 0, []), [0.0, 1.0, 2.0, 3.0], 2)
         == Block(Channel(2.0, false, 0.0, 12.0, 13.0, 2.0, 13.0), 4, 0, [])
  {
  }

  /** The phase >= 1 branch reads one sample whenever it fires, whatever the stride. */
  lemma TakeOneReads(b: Block, inp: seq<real>, inStride: nat)
    requires inStride >= 1 && b.chan.fracPos >= 1.0 && b.inpos < |inp|
    ensures TakeOne(b, inp, inStride)
         == b.(chan := Shift1(b.chan, inp[b.inpos]), inpos := b.inpos + inStride)
  {
  }

  /** A worked block call: halving the rate of 0, 1, ..., 7 into a three-element output
      primes on 0, 1, 2 and then returns every second input sample exactly. */
  lemma BlockDownsampleByTwo()
    ensures BlockProcess(Channel(2.0, true, 0.0, 0.0, 0.0, 0.0, 0.0),
                         [0.0, 1.0, 2.0, 3.0, 4.0, 5.0, 6.0, 7.0], [0.0, 0.0, 0.0], 1, 1)
         == Block(Channel(2.0, false, 2.0, 3.0, 4.0, 5.0, 6.0), 7, 3, [0.0, 2.0, 4.0])
  {
    var inp := [0.0, 1.0, 2.0, 3.0, 4.0, 5.0, 6.0, 7.0];
    var b0 := Block(Channel(2.0, false, 0.0, 0.0, 0.0, 1.0, 2.0), 3, 0, [0.0, 0.0, 0.0]);
    var b1 := Block(Channel(2.0, false, 2.0, 0.0, 0.0, 1.0, 2.0), 3, 1, [0.0, 0.0, 0.0]);
    var b2 := Block(Channel(2.0, false, 2.0, 1.0, 2.0, 3.0, 4.0), 5, 2, [0.0, 2.0, 0.0]);
    var b3 := Block(Channel(2.0, false, 2.0, 3.0, 4.0, 5.0, 6.0), 7, 3, [0.0, 2.0, 4.0]);
    DownByTwoPass(inp, b0, b1);
    DownByTwoPass(inp, b1, b2);
    DownByTwoPass(inp, b2, b3);
    OuterProgress(b0, inp, 1, 1);
    OuterProgress(b1, inp, 1, 1);
    OuterProgress(b2, inp, 1, 1);
  }

  /** One pass of the outer loop of BlockDownsampleByTwo, from b to e. */
  lemma DownByTwoPass(inp: seq<real>, b: Block, e: Block)
    requires inp == [0.0, 1.0, 2.0, 3.0, 4.0, 5.0, 6.0, 7.0] && |b.out| == 3 && b.chan.ratio == 2.0
    requires (b.chan.fracPos == 0.0 && b.inpos == 3) || (b.chan.fracPos == 2.0 && b.inpos + 2 <= 8)
    requires b.outpos < 3 && !b.chan.flush
    requires b.chan.fracPos == 2.0 ==>
      e == Block(Channel(2.0, false, 2.0, b.chan.x1, b.chan.x2, inp[b.inpos], inp[b.inpos + 1]), b.inpos + 2,
                 b.outpos + 1, b.out[b.outpos := b.chan.x2])
    requires b.chan.fracPos == 0.0 ==>
      e == Block(b.chan.(fracPos := 2.0), b.inpos, b.outpos + 1, b.out[b.outpos := b.chan.x0])
    ensures Emit(TakeOne(TakeTwo(b, inp, 1), inp, 1), 1) == e
  {
    var t := TakeOne(TakeTwo(b, inp, 1), inp, 1);
    assert t.chan.fracPos == 0.0;
    assert Output(t.chan) == t.chan.x0;
  }

  // ---------------------------------------------------------------------------------
  // The loops on arrays

  /** The unity copy after the first o output positions have been dealt with. */
  function CopiedBefore(out: seq<real>, inp: seq<real>, inStride: nat, outStride: nat, o: nat): (r: seq<real>)
    requires outStride >= 1
    ensures |r| == |out|
  {
    seq(|out|, j requires 0 <= j < |out| =>
      if j < o && j % outStride == 0 && (j / outStride) * inStride < |inp| then inp[(j / outStride) * inStride] else out[j])
  }

  lemma CopyStep(out: seq<real>, inp: seq<real>, inStride: nat, outStride: nat, k: nat)
    requires outStride >= 1 && k * inStride < |inp| && k * outStride < |out|
    ensures CopiedBefore(out, inp, inStride, outStride, k * outStride + outStride)
         == CopiedBefore(out, inp, inStride, outStride, k * outStride)[k * outStride := inp[k * inStride]]
  {
    var o := k * outStride;
    forall j | 0 <= j < |out| && o <= j < o + outStride {
      DivModOfMultiple(k, outStride, j);
    }
  }

  lemma CopyDone(out: seq<real>, inp: seq<real>, inStride: nat, outStride: nat, k: nat)
    requires outStride >= 1 && (k * inStride >= |inp| || k * outStride >= |out|)
    ensures CopiedBefore(out, inp, inStride, outStride, k * outStride) == StridedCopy(out, inp, inStride, outStride)
  {
    forall j | 0 <= j < |out| && k * outStride <= j && j % outStride == 0
      ensures (j / outStride) * inStride >= |inp|
    {
      var q := j / outStride;
      assert j == q * outStride;
      MulCancel(k, q, outStride);
      MulLe(k, q, inStride);
    }
  }

  /** The lambda get_next_in on an array. */
  method NextIn(prev: real, inp: array<real>, inpos: nat, inStride: nat) returns (v: real, p: nat)
    ensures (v, p) == GetNextIn(prev, inp[..], inpos, inStride)
  {
    v, p := prev, inpos;
    if inpos < inp.Length {
      v := inp[inpos];
      p := inpos + inStride;
    }
  }

  /** The unity-ratio copy loop of process. */
  method CopyStrided(inp: array<real>, out: array<real>, inStride: nat, outStride: nat)
    requires inp != out && inStride >= 1 && outStride >= 1
    modifies out
    ensures out[..] == StridedCopy(old(out[..]), inp[..], inStride, outStride)
  {
    ghost var out0 := out[..];
    var i, o := 0, 0;
    ghost var k: nat := 0;
    while i < inp.Length && o < out.Length
      invariant i == k * inStride && o == k * outStride
      invariant out[..] == CopiedBefore(out0, inp[..], inStride, outStride, o)
      decreases out.Length - o
    {
      CopyStep(out0, inp[..], inStride, outStride, k);
      out[o] := inp[i];
      i, o, k := i + inStride, o + outStride, k + 1;
    }
    CopyDone(out0, inp[..], inStride, outStride, k);
  }

  /** The phase >= 2 branch on the channel and the read position. */
  method ShiftTwo(c: Channel, inp: array<real>, inpos: nat, inStride: nat) returns (chan: Channel, p: nat)
    requires inStride >= 1
    ensures Block(chan, p, 0, []) == TakeTwo(Block(c, inpos, 0, []), inp[..], inStride)
  {
    chan, p := c, inpos;
    if chan.fracPos >= 2.0 && p + 2 <= inp.Length {
      chan := chan.(fracPos := chan.fracPos - 2.0);
      chan := chan.(xm1 := chan.x1, x0 := chan.x2);
      var v: real;
      v, p := NextIn(chan.x1, inp, p, inStride);
      chan := chan.(x1 := v);
      v, p := NextIn(chan.x2, inp, p, inStride);
      chan := chan.(x2 := v);
    }
  }

  /** The phase >= 1 branch on the channel and the read position. */
  method ShiftOne(c: Channel, inp: array<real>, inpos: nat, inStride: nat) returns (chan: Channel, p: nat)
    requires inStride >= 1
    ensures Block(chan, p, 0, []) == TakeOne(Block(c, inpos, 0, []), inp[..], inStride)
  {
    chan, p := c, inpos;
    if chan.fracPos >= 1.0 && p + 1 <= inp.Length {
      chan := chan.(fracPos := chan.fracPos - 1.0);
      chan := chan.(xm1 := chan.x0, x0 := chan.x1, x1 := chan.x2);
      var v: real;
      v, p := NextIn(chan.x2, inp, p, inStride);
      chan := chan.(x2 := v);
    }
  }

  /** The cubic evaluated from coefficients computed once per window, as process does. */
  lemma OutputByCoefficients(c: Channel, a: real, b: real, cc: real)
    requires a == (3.0 * (c.x0 - c.x1) - c.xm1 + c.x2) / 2.0
    requires b == 2.0 * c.x1 + c.xm1 - (5.0 * c.x0 + c.x2) / 2.0
    requires cc == (c.x1 - c.xm1) / 2.0
    ensures ((a * c.fracPos + b) * c.fracPos + cc) * c.fracPos + c.x0 == Output(c)
  {
  }

  /** The coefficients and the inner loop of process, writing into out. */
  method EmitLoop(c: Channel, out: array<real>, outpos: nat, outStride: nat, ghost inpos: nat)
    returns (chan: Channel, o: nat)
    requires outStride >= 1
    modifies out
    ensures Block(chan, inpos, o, out[..]) == Emit(Block(c, inpos, outpos, old(out[..])), outStride)
  {
    chan, o := c, outpos;
    var a := (3.0 * (chan.x0 - chan.x1) - chan.xm1 + chan.x2) / 2.0;
    var b := 2.0 * chan.x1 + chan.xm1 - (5.0 * chan.x0 + chan.x2) / 2.0;
    var cc := (chan.x1 - chan.xm1) / 2.0;
    while chan.fracPos < 1.0 && o < out.Length
      invariant chan.(fracPos := c.fracPos) == c
      invariant Emit(Block(chan, inpos, o, out[..]), outStride) == Emit(Block(c, inpos, outpos, old(out[..])), outStride)
      decreases Gap(out.Length, o)
    {
      ghost var before := Block(chan, inpos, o, out[..]);
      var v := ((a * chan.fracPos + b) * chan.fracPos + cc) * chan.fracPos + chan.x0;
      OutputByCoefficients(chan, a, b, cc);
      out[o] := v;
      assert out[..] == before.out[o := Output(before.chan)];
      o := o + outStride;
      chan := chan.(fracPos := chan.fracPos + chan.ratio);
    }
  }

  /** The outer loop of process. */
  method OuterLoop(c: Channel, inp: array<real>, out: array<real>, inpos: nat, inStride: nat, outStride: nat)
    returns (chan: Channel, ip: nat, op: nat)
    requires inp != out && inStride >= 1 && outStride >= 1
    modifies out
    ensures Block(chan, ip, op, out[..]) == Outer(Block(c, inpos, 0, old(out[..])), inp[..], inStride, outStride)
  {
    chan, ip, op := c, inpos, 0;
    while op < out.Length && ip < inp.Length
      invariant Outer(Block(chan, ip, op, out[..]), inp[..], inStride, outStride)
             == Outer(Block(c, inpos, 0, old(out[..])), inp[..], inStride, outStride)
      decreases Gap(inp.Length, ip) + Gap(out.Length, op)
    {
      ghost var before := Block(chan, ip, op, out[..]);
      chan, ip := ShiftTwo(chan, inp, ip, inStride);
      assert Block(chan, ip, op, out[..]) == TakeTwo(before, inp[..], inStride);
      ghost var mid := Block(chan, ip, op, out[..]);
      chan, ip := ShiftOne(chan, inp, ip, inStride);
      assert Block(chan, ip, op, out[..]) == TakeOne(mid, inp[..], inStride);
      chan, op := EmitLoop(chan, out, op, outStride, ip);
      OuterProgress(before, inp[..], inStride, outStride);
    }
  }

  /** The whole non-unity path of process on a channel value: prime, then run the loop. */
  method RunBlock(c: Channel, inp: array<real>, out: array<real>, inStride: nat, outStride: nat)
    returns (chan: Channel, inpos: nat, outpos: nat)
    requires inp != out && inStride >= 1 && outStride >= 1
    modifies out
    ensures Block(chan, inpos, outpos, out[..]) == BlockProcess(c, inp[..], old(out[..]), inStride, outStride)
  {
    chan, inpos := c, 0;
    if chan.flush && inp.Length >= 3 {
      chan := chan.(flush := false, xm1 := 0.0);
      var v: real;
      v, inpos := NextIn(chan.x0, inp, inpos, inStride);
      chan := chan.(x0 := v);
      v, inpos := NextIn(chan.x1, inp, inpos, inStride);
      chan := chan.(x1 := v);
      v, inpos := NextIn(chan.x2, inp, inpos, inStride);
      chan := chan.(x2 := v);
      chan := chan.(fracPos := 0.0);
    }
    assert (chan, inpos) == BlockPrime(c, inp[..], inStride);
    chan, inpos, outpos := OuterLoop(chan, inp, out, inpos, inStride, outStride);
  }

  // ---------------------------------------------------------------------------------
  // The object

  /** AudioResampler: up to 16 channel states and the two strides shared by all channels. */
  class AudioResampler {
    const numChans: nat
    const chans: array<Channel>
    var inputStride: nat
    var outputStride: nat

    ghost predicate Valid()
      reads this, chans
    {
      1 <= numChans <= MaxChannels && chans.Length == numChans
      && inputStride >= 1 && outputStride >= 1
      && forall i :: 0 <= i < chans.Length ==> Wf(chans[i])
    }

    /** The channel count is clamped into [1, 16], both strides default to it and every
        channel starts at unity ratio with a flush pending. */
    constructor (numChannels: nat)
      ensures Valid() && fresh(chans)
      ensures numChans == Clamp(numChannels, 1, MaxChannels)
      ensures inputStride == numChans && outputStride == numChans
      ensures forall i :: 0 <= i < chans.Length ==> chans[i] == Initial
    {
      var n := Clamp(numChannels, 1, MaxChannels);
      numChans := n;
      chans := new Channel[n](_ => Initial);
      inputStride := n;
      outputStride := n;
    }

    /** process: -1 for an out-of-range channel with nothing changed; at unity ratio the
        strided copy with both spans kept whole and the channel untouched; otherwise the
        block call, returning the lengths the spans are truncated to. */
    method Process(channelIndex: nat, inp: array<real>, out: array<real>)
      returns (status: int, inLen: nat, outLen: nat)
      requires Valid() && inp != out
      modifies chans, out
      ensures Valid()
      ensures channelIndex >= numChans ==>
        status == -1 && inLen == inp.Length && outLen == out.Length
        && chans[..] == old(chans[..]) && out[..] == old(out[..])
      ensures channelIndex < numChans && old(chans[channelIndex]).ratio == 1.0 ==>
        status == 0 && inLen == inp.Length && outLen == out.Length
        && chans[..] == old(chans[..])
        && out[..] == StridedCopy(old(out[..]), inp[..], inputStride, outputStride)
      ensures channelIndex < numChans && old(chans[channelIndex]).ratio != 1.0 ==>
        var r := BlockProcess(old(chans[channelIndex]), inp[..], old(out[..]), inputStride, outputStride);
        && status == 0 && inLen == r.inpos && outLen == r.outpos && out[..] == r.out
        && chans[..] == old(chans[..])[channelIndex := r.chan]
      ensures channelIndex < numChans && old(chans[channelIndex]).ratio != 1.0 ==>
        inLen < inp.Length + inputStride && outLen < out.Length + outputStride
      ensures channelIndex < numChans && old(chans[channelIndex]).ratio != 1.0
              && inp.Length % inputStride == 0 && out.Length % outputStride == 0 ==>
        inLen <= inp.Length && outLen <= out.Length && (inLen == inp.Length || outLen == out.Length)
    {
      if channelIndex >= numChans {
        return -1, inp.Length, out.Length;
      }
      var c := chans[channelIndex];
      if c.ratio == 1.0 {
        CopyStrided(inp, out, inputStride, outputStride);
        return 0, inp.Length, out.Length;
      }
      var chan, inpos, outpos := RunBlock(c, inp, out, inputStride, outputStride);
      BlockKeepsWf(c, inp[..], old(out[..]), inputStride, outputStride);
      BlockOverrunBound(c, inp[..], old(out[..]), inputStride, outputStride);
      if inp.Length % inputStride == 0 && out.Length % outputStride == 0 {
        BlockBounds(c, inp[..], old(out[..]), inputStride, outputStride);
      }
      chans[channelIndex] := chan;
      status, inLen, outLen := 0, inpos, outpos;
    }

    /** Every channel gets ratio inRate / outRate; flush and history are left alone. */
    method SetSampleRateInOut(inRate: nat, outRate: nat)
      requires Valid() && outRate > 0
      modifies chans
      ensures Valid()
      ensures forall i :: 0 <= i < chans.Length ==>
        chans[i] == old(chans[i]).(ratio := RateRatio(inRate, outRate))
    {
      var i := 0;
      while i < numChans
        invariant 0 <= i <= numChans
        invariant forall j :: 0 <= j < i ==> chans[j] == old(chans[j]).(ratio := RateRatio(inRate, outRate))
        invariant forall j :: i <= j < chans.Length ==> chans[j] == old(chans[j])
      {
        chans[i] := chans[i].(ratio := RateRatio(inRate, outRate));
        i := i + 1;
      }
    }

    method SetInputStride(stride: nat)
      requires Valid() && stride >= 1
      modifies this
      ensures Valid() && inputStride == stride && outputStride == old(outputStride)
    {
      inputStride := stride;
    }

    method SetOutputStride(stride: nat)
      requires Valid() && stride >= 1
      modifies this
      ensures Valid() && outputStride == stride && inputStride == old(inputStride)
    {
      outputStride := stride;
    }

    /** The ratio of one channel; the index must be in range. */
    function Ratio(chan: nat): (r: real)
      requires Valid() && chan < numChans
      reads this, chans
      ensures r >= 0.0
    {
      chans[chan].ratio
    }
  }
}
