/** The sawtooth vectors of the resampler's unit tests, stated on the pull form: the
    input repeats 0, 1, ..., 7 and every expected output holds exactly over the reals
    (the two that the tests compare with a tolerance, 93/128 and 196/27, included).
    Each lemma below is one mechanical step of evaluation: a single PullStep on a known
    state, chained into the whole run. They check the recurrence on concrete inputs; the
    general properties are proved in ResamplerOne and AudioResampling. */
module ResamplerVectors {
  import opened ChannelState
  import opened ResamplerOne

  /** The test input: n samples of the sawtooth 0, 1, ..., 7, 0, 1, ... */
  function Saw(n: nat): (r: seq<real>)
    ensures |r| == n
    ensures forall i :: 0 <= i < n ==> r[i] == (i % 8) as real
  {
    seq(n, i => (i % 8) as real)
  }

  lemma UnityVectorPull00(s: seq<real>)
    requires s == Saw(9)
    ensures PullStep(Channel(1.0, true, 0.0, 0.0, 0.0, 0.0, 0.0), s, 0) == Pulled(0.0, Channel(1.0, true, 0.0, 0.0, 0.0, 0.0, 0.0), 1)
  {
  }

  lemma UnityVectorStep00(s: seq<real>)
    requires s == Saw(9)
    ensures Run(Channel(1.0, true, 0.0, 0.0, 0.0, 0.0, 0.0), s, 0, 9) == [0.0] + ([1.0] + ([2.0] + ([3.0] + ([4.0] + ([5.0] + ([6.0] + ([7.0] + [0.0])))))))
  {
    UnityVectorPull00(s);
    RunCons(Channel(1.0, true, 0.0, 0.0, 0.0, 0.0, 0.0), s, 0, 9);
    UnityVectorStep01(s);
  }

  lemma UnityVectorPull01(s: seq<real>)
    requires s == Saw(9)
    ensures PullStep(Channel(1.0, true, 0.0, 0.0, 0.0, 0.0, 0.0), s, 1) == Pulled(1.0, Channel(1.0, true, 0.0, 0.0, 0.0, 0.0, 0.0), 2)
  {
  }

  lemma UnityVectorStep01(s: seq<real>)
    requires s == Saw(9)
    ensures Run(Channel(1.0, true, 0.0, 0.0, 0.0, 0.0, 0.0), s, 1, 8) == [1.0] + ([2.0] + ([3.0] + ([4.0] + ([5.0] + ([6.0] + ([7.0] + [0.0]))))))
  {
    UnityVectorPull01(s);
    RunCons(Channel(1.0, true, 0.0, 0.0, 0.0, 0.0, 0.0), s, 1, 8);
    UnityVectorStep02(s);
  }

  lemma UnityVectorPull02(s: seq<real>)
    requires s == Saw(9)
    ensures PullStep(Channel(1.0, true, 0.0, 0.0, 0.0, 0.0, 0.0), s, 2) == Pulled(2.0, Channel(1.0, true, 0.0, 0.0, 0.0, 0.0, 0.0), 3)
  {
  }

  lemma UnityVectorStep02(s: seq<real>)
    requires s == Saw(9)
    ensures Run(Channel(1.0, true, 0.0, 0.0, 0.0, 0.0, 0.0), s, 2, 7) == [2.0] + ([3.0] + ([4.0] + ([5.0] + ([6.0] + ([7.0] + [0.0])))))
  {
    UnityVectorPull02(s);
    RunCons(Channel(1.0, true, 0.0, 0.0, 0.0, 0.0, 0.0), s, 2, 7);
    UnityVectorStep03(s);
  }

  lemma UnityVectorPull03(s: seq<real>)
    requires s == Saw(9)
    ensures PullStep(Channel(1.0, true, 0.0, 0.0, 0.0, 0.0, 0.0), s, 3) == Pulled(3.0, Channel(1.0, true, 0.0, 0.0, 0.0, 0.0, 0.0), 4)
  {
  }

  lemma UnityVectorStep03(s: seq<real>)
    requires s == Saw(9)
    ensures Run(Channel(1.0, true, 0.0, 0.0, 0.0, 0.0, 0.0), s, 3, 6) == [3.0] + ([4.0] + ([5.0] + ([6.0] + ([7.0] + [0.0]))))
  {
    UnityVectorPull03(s);
    RunCons(Channel(1.0, true, 0.0, 0.0, 0.0, 0.0, 0.0), s, 3, 6);
    UnityVectorStep04(s);
  }

  lemma UnityVectorPull04(s: seq<real>)
    requires s == Saw(9)
    ensures PullStep(Channel(1.0, true, 0.0, 0.0, 0.0, 0.0, 0.0), s, 4) == Pulled(4.0, Channel(1.0, true, 0.0, 0.0, 0.0, 0.0, 0.0), 5)
  {
  }

  lemma UnityVectorStep04(s: seq<real>)
    requires s == Saw(9)
    ensures Run(Channel(1.0, true, 0.0, 0.0, 0.0, 0.0, 0.0), s, 4, 5) == [4.0] + ([5.0] + ([6.0] + ([7.0] + [0.0])))
  {
    UnityVectorPull04(s);
    RunCons(Channel(1.0, true, 0.0, 0.0, 0.0, 0.0, 0.0), s, 4, 5);
    UnityVectorStep05(s);
  }

  lemma UnityVectorPull05(s: seq<real>)
    requires s == Saw(9)
    ensures PullStep(Channel(1.0, true, 0.0, 0.0, 0.0, 0.0, 0.0), s, 5) == Pulled(5.0, Channel(1.0, true, 0.0, 0.0, 0.0, 0.0, 0.0), 6)
  {
  }

  lemma UnityVectorStep05(s: seq<real>)
    requires s == Saw(9)
    ensures Run(Channel(1.0, true, 0.0, 0.0, 0.0, 0.0, 0.0), s, 5, 4) == [5.0] + ([6.0] + ([7.0] + [0.0]))
  {
    UnityVectorPull05(s);
    RunCons(Channel(1.0, true, 0.0, 0.0, 0.0, 0.0, 0.0), s, 5, 4);
    UnityVectorStep06(s);
  }

  lemma UnityVectorPull06(s: seq<real>)
    requires s == Saw(9)
    ensures PullStep(Channel(1.0, true, 0.0, 0.0, 0.0, 0.0, 0.0), s, 6) == Pulled(6.0, Channel(1.0, true, 0.0, 0.0, 0.0, 0.0, 0.0), 7)
  {
  }

  lemma UnityVectorStep06(s: seq<real>)
    requires s == Saw(9)
    ensures Run(Channel(1.0, true, 0.0, 0.0, 0.0, 0.0, 0.0), s, 6, 3) == [6.0] + ([7.0] + [0.0])
  {
    UnityVectorPull06(s);
    RunCons(Channel(1.0, true, 0.0, 0.0, 0.0, 0.0, 0.0), s, 6, 3);
    UnityVectorStep07(s);
  }

  lemma UnityVectorPull07(s: seq<real>)
    requires s == Saw(9)
    ensures PullStep(Channel(1.0, true, 0.0, 0.0, 0.0, 0.0, 0.0), s, 7) == Pulled(7.0, Channel(1.0, true, 0.0, 0.0, 0.0, 0.0, 0.0), 8)
  {
  }

  lemma UnityVectorStep07(s: seq<real>)
    requires s == Saw(9)
    ensures Run(Channel(1.0, true, 0.0, 0.0, 0.0, 0.0, 0.0), s, 7, 2) == [7.0] + [0.0]
  {
    UnityVectorPull07(s);
    RunCons(Channel(1.0, true, 0.0, 0.0, 0.0, 0.0, 0.0), s, 7, 2);
    UnityVectorStep08(s);
  }

  lemma UnityVectorPull08(s: seq<real>)
    requires s == Saw(9)
    ensures PullStep(Channel(1.0, true, 0.0, 0.0, 0.0, 0.0, 0.0), s, 8) == Pulled(0.0, Channel(1.0, true, 0.0, 0.0, 0.0, 0.0, 0.0), 9)
  {
  }

  lemma UnityVectorStep08(s: seq<real>)
    requires s == Saw(9)
    ensures Run(Channel(1.0, true, 0.0, 0.0, 0.0, 0.0, 0.0), s, 8, 1) == [0.0]
  {
    UnityVectorPull08(s);
    RunCons(Channel(1.0, true, 0.0, 0.0, 0.0, 0.0, 0.0), s, 8, 1);
  }

  lemma UnityVectorFlatten()
    ensures [0.0] + ([1.0] + ([2.0] + ([3.0] + ([4.0] + ([5.0] + ([6.0] + ([7.0] + [0.0])))))))
         == [0.0, 1.0, 2.0, 3.0, 4.0, 5.0, 6.0, 7.0, 0.0]
  {
  }

  lemma UnityVectorStart()
    ensures Initial == Channel(1.0, true, 0.0, 0.0, 0.0, 0.0, 0.0)
  {
  }

  /** At unity ratio the resampler returns the sawtooth unchanged, wrapping back to 0 (the first subcase of the sawtooth test). */
  lemma UnityVector()
    ensures Run(Initial, Saw(9), 0, 9)
         == [0.0, 1.0, 2.0, 3.0, 4.0, 5.0, 6.0, 7.0, 0.0]
  {
    UnityVectorStart();
    var s := Saw(9);
    UnityVectorStep00(s);
    UnityVectorFlatten();
  }

  lemma UpsampleByTwoPull00(s: seq<real>)
    requires s == Saw(13)
    ensures PullStep(Channel(0.5, true, 0.0, 0.0, 0.0, 0.0, 0.0), s, 0) == Pulled(0.0, Channel(0.5, false, 0.5, 0.0, 0.0, 1.0, 2.0), 3)
  {
    assert Settle(Channel(0.5, false, 0.0, 0.0, 0.0, 1.0, 2.0), s, 3) == (Channel(0.5, false, 0.0, 0.0, 0.0, 1.0, 2.0), 3);
    assert Output(Channel(0.5, false, 0.0, 0.0, 0.0, 1.0, 2.0)) == 0.0;
  }

  lemma UpsampleByTwoStep00(s: seq<real>)
    requires s == Saw(13)
    ensures Run(Channel(0.5, true, 0.0, 0.0, 0.0, 0.0, 0.0), s, 0, 21) == [0.0] + ([0.4375] + ([1.0] + ([1.5] + ([2.0] + ([2.5] + ([3.0] + ([3.5] + ([4.0] + ([4.5] + ([5.0] + ([5.5] + ([6.0] + ([7.0] + ([7.0] + ([3.5] + ([0.0] + ([0.0] + ([1.0] + ([1.5] + [2.0])))))))))))))))))))
  {
    UpsampleByTwoPull00(s);
    RunCons(Channel(0.5, true, 0.0, 0.0, 0.0, 0.0, 0.0), s, 0, 21);
    UpsampleByTwoStep01(s);
  }

  lemma UpsampleByTwoPull01(s: seq<real>)
    requires s == Saw(13)
    ensures PullStep(Channel(0.5, false, 0.5, 0.0, 0.0, 1.0, 2.0), s, 3) == Pulled(0.4375, Channel(0.5, false, 1.0, 0.0, 0.0, 1.0, 2.0), 3)
  {
    assert Settle(Channel(0.5, false, 0.5, 0.0, 0.0, 1.0, 2.0), s, 3) == (Channel(0.5, false, 0.5, 0.0, 0.0, 1.0, 2.0), 3);
    assert Output(Channel(0.5, false, 0.5, 0.0, 0.0, 1.0, 2.0)) == 0.4375;
  }

  lemma UpsampleByTwoStep01(s: seq<real>)
    requires s == Saw(13)
    ensures Run(Channel(0.5, false, 0.5, 0.0, 0.0, 1.0, 2.0), s, 3, 20) == [0.4375] + ([1.0] + ([1.5] + ([2.0] + ([2.5] + ([3.0] + ([3.5] + ([4.0] + ([4.5] + ([5.0] + ([5.5] + ([6.0] + ([7.0] + ([7.0] + ([3.5] + ([0.0] + ([0.0] + ([1.0] + ([1.5] + [2.0]))))))))))))))))))
  {
    UpsampleByTwoPull01(s);
    RunCons(Channel(0.5, false, 0.5, 0.0, 0.0, 1.0, 2.0), s, 3, 20);
    UpsampleByTwoStep02(s);
  }

  lemma UpsampleByTwoPull02(s: seq<real>)
    requires s == Saw(13)
    ensures PullStep(Channel(0.5, false, 1.0, 0.0, 0.0, 1.0, 2.0), s, 3) == Pulled(1.0, Channel(0.5, false, 0.5, 0.0, 1.0, 2.0, 3.0), 4)
  {
    assert Settle(Channel(0.5, false, 1.0, 0.0, 0.0, 1.0, 2.0), s, 3) == (Channel(0.5, false, 0.0, 0.0, 1.0, 2.0, 3.0), 4);
    assert Output(Channel(0.5, false, 0.0, 0.0, 1.0, 2.0, 3.0)) == 1.0;
  }

  lemma UpsampleByTwoStep02(s: seq<real>)
    requires s == Saw(13)
    ensures Run(Channel(0.5, false, 1.0, 0.0, 0.0, 1.0, 2.0), s, 3, 19) == [1.0] + ([1.5] + ([2.0] + ([2.5] + ([3.0] + ([3.5] + ([4.0] + ([4.5] + ([5.0] + ([5.5] + ([6.0] + ([7.0] + ([7.0] + ([3.5] + ([0.0] + ([0.0] + ([1.0] + ([1.5] + [2.0])))))))))))))))))
  {
    UpsampleByTwoPull02(s);
    RunCons(Channel(0.5, false, 1.0, 0.0, 0.0, 1.0, 2.0), s, 3, 19);
    UpsampleByTwoStep03(s);
  }

  lemma UpsampleByTwoPull03(s: seq<real>)
    requires s == Saw(13)
    ensures PullStep(Channel(0.5, false, 0.5, 0.0, 1.0, 2.0, 3.0), s, 4) == Pulled(1.5, Channel(0.5, false, 1.0, 0.0, 1.0, 2.0, 3.0), 4)
  {
    assert Settle(Channel(0.5, false, 0.5, 0.0, 1.0, 2.0, 3.0), s, 4) == (Channel(0.5, false, 0.5, 0.0, 1.0, 2.0, 3.0), 4);
    assert Output(Channel(0.5, false, 0.5, 0.0, 1.0, 2.0, 3.0)) == 1.5;
  }

  lemma UpsampleByTwoStep03(s: seq<real>)
    requires s == Saw(13)
    ensures Run(Channel(0.5, false, 0.5, 0.0, 1.0, 2.0, 3.0), s, 4, 18) == [1.5] + ([2.0] + ([2.5] + ([3.0] + ([3.5] + ([4.0] + ([4.5] + ([5.0] + ([5.5] + ([6.0] + ([7.0] + ([7.0] + ([3.5] + ([0.0] + ([0.0] + ([1.0] + ([1.5] + [2.0]))))))))))))))))
  {
    UpsampleByTwoPull03(s);
    RunCons(Channel(0.5, false, 0.5, 0.0, 1.0, 2.0, 3.0), s, 4, 18);
    UpsampleByTwoStep04(s);
  }

  lemma UpsampleByTwoPull04(s: seq<real>)
    requires s == Saw(13)
    ensures PullStep(Channel(0.5, false, 1.0, 0.0, 1.0, 2.0, 3.0), s, 4) == Pulled(2.0, Channel(0.5, false, 0.5, 1.0, 2.0, 3.0, 4.0), 5)
  {
    assert Settle(Channel(0.5, false, 1.0, 0.0, 1.0, 2.0, 3.0), s, 4) == (Channel(0.5, false, 0.0, 1.0, 2.0, 3.0, 4.0), 5);
    assert Output(Channel(0.5, false, 0.0, 1.0, 2.0, 3.0, 4.0)) == 2.0;
  }

  lemma UpsampleByTwoStep04(s: seq<real>)
    requires s == Saw(13)
    ensures Run(Channel(0.5, false, 1.0, 0.0, 1.0, 2.0, 3.0), s, 4, 17) == [2.0] + ([2.5] + ([3.0] + ([3.5] + ([4.0] + ([4.5] + ([5.0] + ([5.5] + ([6.0] + ([7.0] + ([7.0] + ([3.5] + ([0.0] + ([0.0] + ([1.0] + ([1.5] + [2.0])))))))))))))))
  {
    UpsampleByTwoPull04(s);
    RunCons(Channel(0.5, false, 1.0, 0.0, 1.0, 2.0, 3.0), s, 4, 17);
    UpsampleByTwoStep05(s);
  }

  lemma UpsampleByTwoPull05(s: seq<real>)
    requires s == Saw(13)
    ensures PullStep(Channel(0.5, false, 0.5, 1.0, 2.0, 3.0, 4.0), s, 5) == Pulled(2.5, Channel(0.5, false, 1.0, 1.0, 2.0, 3.0, 4.0), 5)
  {
    assert Settle(Channel(0.5, false, 0.5, 1.0, 2.0, 3.0, 4.0), s, 5) == (Channel(0.5, false, 0.5, 1.0, 2.0, 3.0, 4.0), 5);
    assert Output(Channel(0.5, false, 0.5, 1.0, 2.0, 3.0, 4.0)) == 2.5;
  }

  lemma UpsampleByTwoStep05(s: seq<real>)
    requires s == Saw(13)
    ensures Run(Channel(0.5, false, 0.5, 1.0, 2.0, 3.0, 4.0), s, 5, 16) == [2.5] + ([3.0] + ([3.5] + ([4.0] + ([4.5] + ([5.0] + ([5.5] + ([6.0] + ([7.0] + ([7.0] + ([3.5] + ([0.0] + ([0.0] + ([1.0] + ([1.5] + [2.0]))))))))))))))
  {
    UpsampleByTwoPull05(s);
    RunCons(Channel(0.5, false, 0.5, 1.0, 2.0, 3.0, 4.0), s, 5, 16);
    UpsampleByTwoStep06(s);
  }

  lemma UpsampleByTwoPull06(s: seq<real>)
    requires s == Saw(13)
    ensures PullStep(Channel(0.5, false, 1.0, 1.0, 2.0, 3.0, 4.0), s, 5) == Pulled(3.0, Channel(0.5, false, 0.5, 2.0, 3.0, 4.0, 5.0), 6)
  {
    assert Settle(Channel(0.5, false, 1.0, 1.0, 2.0, 3.0, 4.0), s, 5) == (Channel(0.5, false, 0.0, 2.0, 3.0, 4.0, 5.0), 6);
    assert Output(Channel(0.5, false, 0.0, 2.0, 3.0, 4.0, 5.0)) == 3.0;
  }

  lemma UpsampleByTwoStep06(s: seq<real>)
    requires s == Saw(13)
    ensures Run(Channel(0.5, false, 1.0, 1.0, 2.0, 3.0, 4.0), s, 5, 15) == [3.0] + ([3.5] + ([4.0] + ([4.5] + ([5.0] + ([5.5] + ([6.0] + ([7.0] + ([7.0] + ([3.5] + ([0.0] + ([0.0] + ([1.0] + ([1.5] + [2.0])))))))))))))
  {
    UpsampleByTwoPull06(s);
    RunCons(Channel(0.5, false, 1.0, 1.0, 2.0, 3.0, 4.0), s, 5, 15);
    UpsampleByTwoStep07(s);
  }

  lemma UpsampleByTwoPull07(s: seq<real>)
    requires s == Saw(13)
    ensures PullStep(Channel(0.5, false, 0.5, 2.0, 3.0, 4.0, 5.0), s, 6) == Pulled(3.5, Channel(0.5, false, 1.0, 2.0, 3.0, 4.0, 5.0), 6)
  {
    assert Settle(Channel(0.5, false, 0.5, 2.0, 3.0, 4.0, 5.0), s, 6) == (Channel(0.5, false, 0.5, 2.0, 3.0, 4.0, 5.0), 6);
    assert Output(Channel(0.5, false, 0.5, 2.0, 3.0, 4.0, 5.0)) == 3.5;
  }

  lemma UpsampleByTwoStep07(s: seq<real>)
    requires s == Saw(13)
    ensures Run(Channel(0.5, false, 0.5, 2.0, 3.0, 4.0, 5.0), s, 6, 14) == [3.5] + ([4.0] + ([4.5] + ([5.0] + ([5.5] + ([6.0] + ([7.0] + ([7.0] + ([3.5] + ([0.0] + ([0.0] + ([1.0] + ([1.5] + [2.0]))))))))))))
  {
    UpsampleByTwoPull07(s);
    RunCons(Channel(0.5, false, 0.5, 2.0, 3.0, 4.0, 5.0), s, 6, 14);
    UpsampleByTwoStep08(s);
  }

  lemma UpsampleByTwoPull08(s: seq<real>)
    requires s == Saw(13)
    ensures PullStep(Channel(0.5, false, 1.0, 2.0, 3.0, 4.0, 5.0), s, 6) == Pulled(4.0, Channel(0.5, false, 0.5, 3.0, 4.0, 5.0, 6.0), 7)
  {
    assert Settle(Channel(0.5, false, 1.0, 2.0, 3.0, 4.0, 5.0), s, 6) == (Channel(0.5, false, 0.0, 3.0, 4.0, 5.0, 6.0), 7);
    assert Output(Channel(0.5, false, 0.0, 3.0, 4.0, 5.0, 6.0)) == 4.0;
  }

  lemma UpsampleByTwoStep08(s: seq<real>)
    requires s == Saw(13)
    ensures Run(Channel(0.5, false, 1.0, 2.0, 3.0, 4.0, 5.0), s, 6, 13) == [4.0] + ([4.5] + ([5.0] + ([5.5] + ([6.0] + ([7.0] + ([7.0] + ([3.5] + ([0.0] + ([0.0] + ([1.0] + ([1.5] + [2.0])))))))))))
  {
    UpsampleByTwoPull08(s);
    RunCons(Channel(0.5, false, 1.0, 2.0, 3.0, 4.0, 5.0), s, 6, 13);
    UpsampleByTwoStep09(s);
  }

  lemma UpsampleByTwoPull09(s: seq<real>)
    requires s == Saw(13)
    ensures PullStep(Channel(0.5, false, 0.5, 3.0, 4.0, 5.0, 6.0), s, 7) == Pulled(4.5, Channel(0.5, false, 1.0, 3.0, 4.0, 5.0, 6.0), 7)
  {
    assert Settle(Channel(0.5, false, 0.5, 3.0, 4.0, 5.0, 6.0), s, 7) == (Channel(0.5, false, 0.5, 3.0, 4.0, 5.0, 6.0), 7);
    assert Output(Channel(0.5, false, 0.5, 3.0, 4.0, 5.0, 6.0)) == 4.5;
  }

  lemma UpsampleByTwoStep09(s: seq<real>)
    requires s == Saw(13)
    ensures Run(Channel(0.5, false, 0.5, 3.0, 4.0, 5.0, 6.0), s, 7, 12) == [4.5] + ([5.0] + ([5.5] + ([6.0] + ([7.0] + ([7.0] + ([3.5] + ([0.0] + ([0.0] + ([1.0] + ([1.5] + [2.0]))))))))))
  {
    UpsampleByTwoPull09(s);
    RunCons(Channel(0.5, false, 0.5, 3.0, 4.0, 5.0, 6.0), s, 7, 12);
    UpsampleByTwoStep10(s);
  }

  lemma UpsampleByTwoPull10(s: seq<real>)
    requires s == Saw(13)
    ensures PullStep(Channel(0.5, false, 1.0, 3.0, 4.0, 5.0, 6.0), s, 7) == Pulled(5.0, Channel(0.5, false, 0.5, 4.0, 5.0, 6.0, 7.0), 8)
  {
    assert Settle(Channel(0.5, false, 1.0, 3.0, 4.0, 5.0, 6.0), s, 7) == (Channel(0.5, false, 0.0, 4.0, 5.0, 6.0, 7.0), 8);
    assert Output(Channel(0.5, false, 0.0, 4.0, 5.0, 6.0, 7.0)) == 5.0;
  }

  lemma UpsampleByTwoStep10(s: seq<real>)
    requires s == Saw(13)
    ensures Run(Channel(0.5, false, 1.0, 3.0, 4.0, 5.0, 6.0), s, 7, 11) == [5.0] + ([5.5] + ([6.0] + ([7.0] + ([7.0] + ([3.5] + ([0.0] + ([0.0] + ([1.0] + ([1.5] + [2.0])))))))))
  {
    UpsampleByTwoPull10(s);
    RunCons(Channel(0.5, false, 1.0, 3.0, 4.0, 5.0, 6.0), s, 7, 11);
    UpsampleByTwoStep11(s);
  }

  lemma UpsampleByTwoPull11(s: seq<real>)
    requires s == Saw(13)
    ensures PullStep(Channel(0.5, false, 0.5, 4.0, 5.0, 6.0, 7.0), s, 8) == Pulled(5.5, Channel(0.5, false, 1.0, 4.0, 5.0, 6.0, 7.0), 8)
  {
    assert Settle(Channel(0.5, false, 0.5, 4.0, 5.0, 6.0, 7.0), s, 8) == (Channel(0.5, false, 0.5, 4.0, 5.0, 6.0, 7.0), 8);
    assert Output(Channel(0.5, false, 0.5, 4.0, 5.0, 6.0, 7.0)) == 5.5;
  }

  lemma UpsampleByTwoStep11(s: seq<real>)
    requires s == Saw(13)
    ensures Run(Channel(0.5, false, 0.5, 4.0, 5.0, 6.0, 7.0), s, 8, 10) == [5.5] + ([6.0] + ([7.0] + ([7.0] + ([3.5] + ([0.0] + ([0.0] + ([1.0] + ([1.5] + [2.0]))))))))
  {
    UpsampleByTwoPull11(s);
    RunCons(Channel(0.5, false, 0.5, 4.0, 5.0, 6.0, 7.0), s, 8, 10);
    UpsampleByTwoStep12(s);
  }

  lemma UpsampleByTwoPull12(s: seq<real>)
    requires s == Saw(13)
    ensures PullStep(Channel(0.5, false, 1.0, 4.0, 5.0, 6.0, 7.0), s, 8) == Pulled(6.0, Channel(0.5, false, 0.5, 5.0, 6.0, 7.0, 0.0), 9)
  {
    assert Settle(Channel(0.5, false, 1.0, 4.0, 5.0, 6.0, 7.0), s, 8) == (Channel(0.5, false, 0.0, 5.0, 6.0, 7.0, 0.0), 9);
    assert Output(Channel(0.5, false, 0.0, 5.0, 6.0, 7.0, 0.0)) == 6.0;
  }

  lemma UpsampleByTwoStep12(s: seq<real>)
    requires s == Saw(13)
    ensures Run(Channel(0.5, false, 1.0, 4.0, 5.0, 6.0, 7.0), s, 8, 9) == [6.0] + ([7.0] + ([7.0] + ([3.5] + ([0.0] + ([0.0] + ([1.0] + ([1.5] + [2.0])))))))
  {
    UpsampleByTwoPull12(s);
    RunCons(Channel(0.5, false, 1.0, 4.0, 5.0, 6.0, 7.0), s, 8, 9);
    UpsampleByTwoStep13(s);
  }

  lemma UpsampleByTwoPull13(s: seq<real>)
    requires s == Saw(13)
    ensures PullStep(Channel(0.5, false, 0.5, 5.0, 6.0, 7.0, 0.0), s, 9) == Pulled(7.0, Channel(0.5, false, 1.0, 5.0, 6.0, 7.0, 0.0), 9)
  {
    assert Settle(Channel(0.5, false, 0.5, 5.0, 6.0, 7.0, 0.0), s, 9) == (Channel(0.5, false, 0.5, 5.0, 6.0, 7.0, 0.0), 9);
    assert Output(Channel(0.5, false, 0.5, 5.0, 6.0, 7.0, 0.0)) == 7.0;
  }

  lemma UpsampleByTwoStep13(s: seq<real>)
    requires s == Saw(13)
    ensures Run(Channel(0.5, false, 0.5, 5.0, 6.0, 7.0, 0.0), s, 9, 8) == [7.0] + ([7.0] + ([3.5] + ([0.0] + ([0.0] + ([1.0] + ([1.5] + [2.0]))))))
  {
    UpsampleByTwoPull13(s);
    RunCons(Channel(0.5, false, 0.5, 5.0, 6.0, 7.0, 0.0), s, 9, 8);
    UpsampleByTwoStep14(s);
  }

  lemma UpsampleByTwoPull14(s: seq<real>)
    requires s == Saw(13)
    ensures PullStep(Channel(0.5, false, 1.0, 5.0, 6.0, 7.0, 0.0), s, 9) == Pulled(7.0, Channel(0.5, false, 0.5, 6.0, 7.0, 0.0, 1.0), 10)
  {
    assert Settle(Channel(0.5, false, 1.0, 5.0, 6.0, 7.0, 0.0), s, 9) == (Channel(0.5, false, 0.0, 6.0, 7.0, 0.0, 1.0), 10);
    assert Output(Channel(0.5, false, 0.0, 6.0, 7.0, 0.0, 1.0)) == 7.0;
  }

  lemma UpsampleByTwoStep14(s: seq<real>)
    requires s == Saw(13)
    ensures Run(Channel(0.5, false, 1.0, 5.0, 6.0, 7.0, 0.0), s, 9, 7) == [7.0] + ([3.5] + ([0.0] + ([0.0] + ([1.0] + ([1.5] + [2.0])))))
  {
    UpsampleByTwoPull14(s);
    RunCons(Channel(0.5, false, 1.0, 5.0, 6.0, 7.0, 0.0), s, 9, 7);
    UpsampleByTwoStep15(s);
  }

  lemma UpsampleByTwoPull15(s: seq<real>)
    requires s == Saw(13)
    ensures PullStep(Channel(0.5, false, 0.5, 6.0, 7.0, 0.0, 1.0), s, 10) == Pulled(3.5, Channel(0.5, false, 1.0, 6.0, 7.0, 0.0, 1.0), 10)
  {
    assert Settle(Channel(0.5, false, 0.5, 6.0, 7.0, 0.0, 1.0), s, 10) == (Channel(0.5, false, 0.5, 6.0, 7.0, 0.0, 1.0), 10);
    assert Output(Channel(0.5, false, 0.5, 6.0, 7.0, 0.0, 1.0)) == 3.5;
  }

  lemma UpsampleByTwoStep15(s: seq<real>)
    requires s == Saw(13)
    ensures Run(Channel(0.5, false, 0.5, 6.0, 7.0, 0.0, 1.0), s, 10, 6) == [3.5] + ([0.0] + ([0.0] + ([1.0] + ([1.5] + [2.0]))))
  {
    UpsampleByTwoPull15(s);
    RunCons(Channel(0.5, false, 0.5, 6.0, 7.0, 0.0, 1.0), s, 10, 6);
    UpsampleByTwoStep16(s);
  }

  lemma UpsampleByTwoPull16(s: seq<real>)
    requires s == Saw(13)
    ensures PullStep(Channel(0.5, false, 1.0, 6.0, 7.0, 0.0, 1.0), s, 10) == Pulled(0.0, Channel(0.5, false, 0.5, 7.0, 0.0, 1.0, 2.0), 11)
  {
    assert Settle(Channel(0.5, false, 1.0, 6.0, 7.0, 0.0, 1.0), s, 10) == (Channel(0.5, false, 0.0, 7.0, 0.0, 1.0, 2.0), 11);
    assert Output(Channel(0.5, false, 0.0, 7.0, 0.0, 1.0, 2.0)) == 0.0;
  }

  lemma UpsampleByTwoStep16(s: seq<real>)
    requires s == Saw(13)
    ensures Run(Channel(0.5, false, 1.0, 6.0, 7.0, 0.0, 1.0), s, 10, 5) == [0.0] + ([0.0] + ([1.0] + ([1.5] + [2.0])))
  {
    UpsampleByTwoPull16(s);
    RunCons(Channel(0.5, false, 1.0, 6.0, 7.0, 0.0, 1.0), s, 10, 5);
    UpsampleByTwoStep17(s);
  }

  lemma UpsampleByTwoPull17(s: seq<real>)
    requires s == Saw(13)
    ensures PullStep(Channel(0.5, false, 0.5, 7.0, 0.0, 1.0, 2.0), s, 11) == Pulled(0.0, Channel(0.5, false, 1.0, 7.0, 0.0, 1.0, 2.0), 11)
  {
    assert Settle(Channel(0.5, false, 0.5, 7.0, 0.0, 1.0, 2.0), s, 11) == (Channel(0.5, false, 0.5, 7.0, 0.0, 1.0, 2.0), 11);
    assert Output(Channel(0.5, false, 0.5, 7.0, 0.0, 1.0, 2.0)) == 0.0;
  }

  lemma UpsampleByTwoStep17(s: seq<real>)
    requires s == Saw(13)
    ensures Run(Channel(0.5, false, 0.5, 7.0, 0.0, 1.0, 2.0), s, 11, 4) == [0.0] + ([1.0] + ([1.5] + [2.0]))
  {
    UpsampleByTwoPull17(s);
    RunCons(Channel(0.5, false, 0.5, 7.0, 0.0, 1.0, 2.0), s, 11, 4);
    UpsampleByTwoStep18(s);
  }

  lemma UpsampleByTwoPull18(s: seq<real>)
    requires s == Saw(13)
    ensures PullStep(Channel(0.5, false, 1.0, 7.0, 0.0, 1.0, 2.0), s, 11) == Pulled(1.0, Channel(0.5, false, 0.5, 0.0, 1.0, 2.0, 3.0), 12)
  {
    assert Settle(Channel(0.5, false, 1.0, 7.0, 0.0, 1.0, 2.0), s, 11) == (Channel(0.5, false, 0.0, 0.0, 1.0, 2.0, 3.0), 12);
    assert Output(Channel(0.5, false, 0.0, 0.0, 1.0, 2.0, 3.0)) == 1.0;
  }

  lemma UpsampleByTwoStep18(s: seq<real>)
    requires s == Saw(13)
    ensures Run(Channel(0.5, false, 1.0, 7.0, 0.0, 1.0, 2.0), s, 11, 3) == [1.0] + ([1.5] + [2.0])
  {
    UpsampleByTwoPull18(s);
    RunCons(Channel(0.5, false, 1.0, 7.0, 0.0, 1.0, 2.0), s, 11, 3);
    UpsampleByTwoStep19(s);
  }

  lemma UpsampleByTwoPull19(s: seq<real>)
    requires s == Saw(13)
    ensures PullStep(Channel(0.5, false, 0.5, 0.0, 1.0, 2.0, 3.0), s, 12) == Pulled(1.5, Channel(0.5, false, 1.0, 0.0, 1.0, 2.0, 3.0), 12)
  {
    assert Settle(Channel(0.5, false, 0.5, 0.0, 1.0, 2.0, 3.0), s, 12) == (Channel(0.5, false, 0.5, 0.0, 1.0, 2.0, 3.0), 12);
    assert Output(Channel(0.5, false, 0.5, 0.0, 1.0, 2.0, 3.0)) == 1.5;
  }

  lemma UpsampleByTwoStep19(s: seq<real>)
    requires s == Saw(13)
    ensures Run(Channel(0.5, false, 0.5, 0.0, 1.0, 2.0, 3.0), s, 12, 2) == [1.5] + [2.0]
  {
    UpsampleByTwoPull19(s);
    RunCons(Channel(0.5, false, 0.5, 0.0, 1.0, 2.0, 3.0), s, 12, 2);
    UpsampleByTwoStep20(s);
  }

  lemma UpsampleByTwoPull20(s: seq<real>)
    requires s == Saw(13)
    ensures PullStep(Channel(0.5, false, 1.0, 0.0, 1.0, 2.0, 3.0), s, 12) == Pulled(2.0, Channel(0.5, false, 0.5, 1.0, 2.0, 3.0, 4.0), 13)
  {
    assert Settle(Channel(0.5, false, 1.0, 0.0, 1.0, 2.0, 3.0), s, 12) == (Channel(0.5, false, 0.0, 1.0, 2.0, 3.0, 4.0), 13);
    assert Output(Channel(0.5, false, 0.0, 1.0, 2.0, 3.0, 4.0)) == 2.0;
  }

  lemma UpsampleByTwoStep20(s: seq<real>)
    requires s == Saw(13)
    ensures Run(Channel(0.5, false, 1.0, 0.0, 1.0, 2.0, 3.0), s, 12, 1) == [2.0]
  {
    UpsampleByTwoPull20(s);
    RunCons(Channel(0.5, false, 1.0, 0.0, 1.0, 2.0, 3.0), s, 12, 1);
  }

  lemma UpsampleByTwoFlatten()
    ensures [0.0] + ([0.4375] + ([1.0] + ([1.5] + ([2.0] + ([2.5] + ([3.0] + ([3.5] + ([4.0] + ([4.5] + ([5.0] + ([5.5] + ([6.0] + ([7.0] + ([7.0] + ([3.5] + ([0.0] + ([0.0] + ([1.0] + ([1.5] + [2.0])))))))))))))))))))
         == [0.0, 0.4375, 1.0, 1.5, 2.0, 2.5, 3.0, 3.5, 4.0, 4.5, 5.0, 5.5, 6.0, 7.0, 7.0, 3.5, 0.0, 0.0, 1.0, 1.5, 2.0]
  {
  }

  lemma UpsampleByTwoStart()
    ensures Retune(Initial, 24000, 48000) == Channel(0.5, true, 0.0, 0.0, 0.0, 0.0, 0.0)
  {
  }

  /** 24000 Hz to 48000 Hz. The second output is 0.4375 rather than 0.5: the window 0, 0, 1, 2 is not on one line, so the start tangent (x1 - xm1) / 2 is 1/2 rather than 1. */
  lemma UpsampleByTwo()
    ensures Run(Retune(Initial, 24000, 48000), Saw(13), 0, 21)
         == [0.0, 0.4375, 1.0, 1.5, 2.0, 2.5, 3.0, 3.5, 4.0, 4.5, 5.0, 5.5, 6.0, 7.0, 7.0, 3.5, 0.0, 0.0, 1.0, 1.5, 2.0]
  {
    UpsampleByTwoStart();
    var s := Saw(13);
    UpsampleByTwoStep00(s);
    UpsampleByTwoFlatten();
  }

  lemma UpsampleByFourThirdsPull00(s: seq<real>)
    requires s == Saw(14)
    ensures PullStep(Channel(0.75, true, 0.0, 0.0, 0.0, 0.0, 0.0), s, 0) == Pulled(0.0, Channel(0.75, false, 0.75, 0.0, 0.0, 1.0, 2.0), 3)
  {
    assert Settle(Channel(0.75, false, 0.0, 0.0, 0.0, 1.0, 2.0), s, 3) == (Channel(0.75, false, 0.0, 0.0, 0.0, 1.0, 2.0), 3);
    assert Output(Channel(0.75, false, 0.0, 0.0, 0.0, 1.0, 2.0)) == 0.0;
  }

  lemma UpsampleByFourThirdsStep00(s: seq<real>)
    requires s == Saw(14)
    ensures Run(Channel(0.75, true, 0.0, 0.0, 0.0, 0.0, 0.0), s, 0, 16) == [0.0] + ([0.7265625] + ([1.5] + ([2.25] + ([3.0] + ([3.75] + ([4.5] + ([5.25] + ([6.0] + ([7.3125] + ([3.5] + ([(-0.3125)] + ([1.0] + ([1.75] + ([2.5] + [3.25]))))))))))))))
  {
    UpsampleByFourThirdsPull00(s);
    RunCons(Channel(0.75, true, 0.0, 0.0, 0.0, 0.0, 0.0), s, 0, 16);
    UpsampleByFourThirdsStep01(s);
  }

  lemma UpsampleByFourThirdsPull01(s: seq<real>)
    requires s == Saw(14)
    ensures PullStep(Channel(0.75, false, 0.75, 0.0, 0.0, 1.0, 2.0), s, 3) == Pulled(0.7265625, Channel(0.75, false, 1.5, 0.0, 0.0, 1.0, 2.0), 3)
  {
    assert Settle(Channel(0.75, false, 0.75, 0.0, 0.0, 1.0, 2.0), s, 3) == (Channel(0.75, false, 0.75, 0.0, 0.0, 1.0, 2.0), 3);
    assert Output(Channel(0.75, false, 0.75, 0.0, 0.0, 1.0, 2.0)) == 0.7265625;
  }

  lemma UpsampleByFourThirdsStep01(s: seq<real>)
    requires s == Saw(14)
    ensures Run(Channel(0.75, false, 0.75, 0.0, 0.0, 1.0, 2.0), s, 3, 15) == [0.7265625] + ([1.5] + ([2.25] + ([3.0] + ([3.75] + ([4.5] + ([5.25] + ([6.0] + ([7.3125] + ([3.5] + ([(-0.3125)] + ([1.0] + ([1.75] + ([2.5] + [3.25])))))))))))))
  {
    UpsampleByFourThirdsPull01(s);
    RunCons(Channel(0.75, false, 0.75, 0.0, 0.0, 1.0, 2.0), s, 3, 15);
    UpsampleByFourThirdsStep02(s);
  }

  lemma UpsampleByFourThirdsPull02(s: seq<real>)
    requires s == Saw(14)
    ensures PullStep(Channel(0.75, false, 1.5, 0.0, 0.0, 1.0, 2.0), s, 3) == Pulled(1.5, Channel(0.75, false, 1.25, 0.0, 1.0, 2.0, 3.0), 4)
  {
    assert Settle(Channel(0.75, false, 1.5, 0.0, 0.0, 1.0, 2.0), s, 3) == (Channel(0.75, false, 0.5, 0.0, 1.0, 2.0, 3.0), 4);
    assert Output(Channel(0.75, false, 0.5, 0.0, 1.0, 2.0, 3.0)) == 1.5;
  }

  lemma UpsampleByFourThirdsStep02(s: seq<real>)
    requires s == Saw(14)
    ensures Run(Channel(0.75, false, 1.5, 0.0, 0.0, 1.0, 2.0), s, 3, 14) == [1.5] + ([2.25] + ([3.0] + ([3.75] + ([4.5] + ([5.25] + ([6.0] + ([7.3125] + ([3.5] + ([(-0.3125)] + ([1.0] + ([1.75] + ([2.5] + [3.25]))))))))))))
  {
    UpsampleByFourThirdsPull02(s);
    RunCons(Channel(0.75, false, 1.5, 0.0, 0.0, 1.0, 2.0), s, 3, 14);
    UpsampleByFourThirdsStep03(s);
  }

  lemma UpsampleByFourThirdsPull03(s: seq<real>)
    requires s == Saw(14)
    ensures PullStep(Channel(0.75, false, 1.25, 0.0, 1.0, 2.0, 3.0), s, 4) == Pulled(2.25, Channel(0.75, false, 1.0, 1.0, 2.0, 3.0, 4.0), 5)
  {
    assert Settle(Channel(0.75, false, 1.25, 0.0, 1.0, 2.0, 3.0), s, 4) == (Channel(0.75, false, 0.25, 1.0, 2.0, 3.0, 4.0), 5);
    assert Output(Channel(0.75, false, 0.25, 1.0, 2.0, 3.0, 4.0)) == 2.25;
  }

  lemma UpsampleByFourThirdsStep03(s: seq<real>)
    requires s == Saw(14)
    ensures Run(Channel(0.75, false, 1.25, 0.0, 1.0, 2.0, 3.0), s, 4, 13) == [2.25] + ([3.0] + ([3.75] + ([4.5] + ([5.25] + ([6.0] + ([7.3125] + ([3.5] + ([(-0.3125)] + ([1.0] + ([1.75] + ([2.5] + [3.25])))))))))))
  {
    UpsampleByFourThirdsPull03(s);
    RunCons(Channel(0.75, false, 1.25, 0.0, 1.0, 2.0, 3.0), s, 4, 13);
    UpsampleByFourThirdsStep04(s);
  }

  lemma UpsampleByFourThirdsPull04(s: seq<real>)
    requires s == Saw(14)
    ensures PullStep(Channel(0.75, false, 1.0, 1.0, 2.0, 3.0, 4.0), s, 5) == Pulled(3.0, Channel(0.75, false, 0.75, 2.0, 3.0, 4.0, 5.0), 6)
  {
    assert Settle(Channel(0.75, false, 1.0, 1.0, 2.0, 3.0, 4.0), s, 5) == (Channel(0.75, false, 0.0, 2.0, 3.0, 4.0, 5.0), 6);
    assert Output(Channel(0.75, false, 0.0, 2.0, 3.0, 4.0, 5.0)) == 3.0;
  }

  lemma UpsampleByFourThirdsStep04(s: seq<real>)
    requires s == Saw(14)
    ensures Run(Channel(0.75, false, 1.0, 1.0, 2.0, 3.0, 4.0), s, 5, 12) == [3.0] + ([3.75] + ([4.5] + ([5.25] + ([6.0] + ([7.3125] + ([3.5] + ([(-0.3125)] + ([1.0] + ([1.75] + ([2.5] + [3.25]))))))))))
  {
    UpsampleByFourThirdsPull04(s);
    RunCons(Channel(0.75, false, 1.0, 1.0, 2.0, 3.0, 4.0), s, 5, 12);
    UpsampleByFourThirdsStep05(s);
  }

  lemma UpsampleByFourThirdsPull05(s: seq<real>)
    requires s == Saw(14)
    ensures PullStep(Channel(0.75, false, 0.75, 2.0, 3.0, 4.0, 5.0), s, 6) == Pulled(3.75, Channel(0.75, false, 1.5, 2.0, 3.0, 4.0, 5.0), 6)
  {
    assert Settle(Channel(0.75, false, 0.75, 2.0, 3.0, 4.0, 5.0), s, 6) == (Channel(0.75, false, 0.75, 2.0, 3.0, 4.0, 5.0), 6);
    assert Output(Channel(0.75, false, 0.75, 2.0, 3.0, 4.0, 5.0)) == 3.75;
  }

  lemma UpsampleByFourThirdsStep05(s: seq<real>)
    requires s == Saw(14)
    ensures Run(Channel(0.75, false, 0.75, 2.0, 3.0, 4.0, 5.0), s, 6, 11) == [3.75] + ([4.5] + ([5.25] + ([6.0] + ([7.3125] + ([3.5] + ([(-0.3125)] + ([1.0] + ([1.75] + ([2.5] + [3.25])))))))))
  {
    UpsampleByFourThirdsPull05(s);
    RunCons(Channel(0.75, false, 0.75, 2.0, 3.0, 4.0, 5.0), s, 6, 11);
    UpsampleByFourThirdsStep06(s);
  }

  lemma UpsampleByFourThirdsPull06(s: seq<real>)
    requires s == Saw(14)
    ensures PullStep(Channel(0.75, false, 1.5, 2.0, 3.0, 4.0, 5.0), s, 6) == Pulled(4.5, Channel(0.75, false, 1.25, 3.0, 4.0, 5.0, 6.0), 7)
  {
    assert Settle(Channel(0.75, false, 1.5, 2.0, 3.0, 4.0, 5.0), s, 6) == (Channel(0.75, false, 0.5, 3.0, 4.0, 5.0, 6.0), 7);
    assert Output(Channel(0.75, false, 0.5, 3.0, 4.0, 5.0, 6.0)) == 4.5;
  }

  lemma UpsampleByFourThirdsStep06(s: seq<real>)
    requires s == Saw(14)
    ensures Run(Channel(0.75, false, 1.5, 2.0, 3.0, 4.0, 5.0), s, 6, 10) == [4.5] + ([5.25] + ([6.0] + ([7.3125] + ([3.5] + ([(-0.3125)] + ([1.0] + ([1.75] + ([2.5] + [3.25]))))))))
  {
    UpsampleByFourThirdsPull06(s);
    RunCons(Channel(0.75, false, 1.5, 2.0, 3.0, 4.0, 5.0), s, 6, 10);
    UpsampleByFourThirdsStep07(s);
  }

  lemma UpsampleByFourThirdsPull07(s: seq<real>)
    requires s == Saw(14)
    ensures PullStep(Channel(0.75, false, 1.25, 3.0, 4.0, 5.0, 6.0), s, 7) == Pulled(5.25, Channel(0.75, false, 1.0, 4.0, 5.0, 6.0, 7.0), 8)
  {
    assert Settle(Channel(0.75, false, 1.25, 3.0, 4.0, 5.0, 6.0), s, 7) == (Channel(0.75, false, 0.25, 4.0, 5.0, 6.0, 7.0), 8);
    assert Output(Channel(0.75, false, 0.25, 4.0, 5.0, 6.0, 7.0)) == 5.25;
  }

  lemma UpsampleByFourThirdsStep07(s: seq<real>)
    requires s == Saw(14)
    ensures Run(Channel(0.75, false, 1.25, 3.0, 4.0, 5.0, 6.0), s, 7, 9) == [5.25] + ([6.0] + ([7.3125] + ([3.5] + ([(-0.3125)] + ([1.0] + ([1.75] + ([2.5] + [3.25])))))))
  {
    UpsampleByFourThirdsPull07(s);
    RunCons(Channel(0.75, false, 1.25, 3.0, 4.0, 5.0, 6.0), s, 7, 9);
    UpsampleByFourThirdsStep08(s);
  }

  lemma UpsampleByFourThirdsPull08(s: seq<real>)
    requires s == Saw(14)
    ensures PullStep(Channel(0.75, false, 1.0, 4.0, 5.0, 6.0, 7.0), s, 8) == Pulled(6.0, Channel(0.75, false, 0.75, 5.0, 6.0, 7.0, 0.0), 9)
  {
    assert Settle(Channel(0.75, false, 1.0, 4.0, 5.0, 6.0, 7.0), s, 8) == (Channel(0.75, false, 0.0, 5.0, 6.0, 7.0, 0.0), 9);
    assert Output(Channel(0.75, false, 0.0, 5.0, 6.0, 7.0, 0.0)) == 6.0;
  }

  lemma UpsampleByFourThirdsStep08(s: seq<real>)
    requires s == Saw(14)
    ensures Run(Channel(0.75, false, 1.0, 4.0, 5.0, 6.0, 7.0), s, 8, 8) == [6.0] + ([7.3125] + ([3.5] + ([(-0.3125)] + ([1.0] + ([1.75] + ([2.5] + [3.25]))))))
  {
    UpsampleByFourThirdsPull08(s);
    RunCons(Channel(0.75, false, 1.0, 4.0, 5.0, 6.0, 7.0), s, 8, 8);
    UpsampleByFourThirdsStep09(s);
  }

  lemma UpsampleByFourThirdsPull09(s: seq<real>)
    requires s == Saw(14)
    ensures PullStep(Channel(0.75, false, 0.75, 5.0, 6.0, 7.0, 0.0), s, 9) == Pulled(7.3125, Channel(0.75, false, 1.5, 5.0, 6.0, 7.0, 0.0), 9)
  {
    assert Settle(Channel(0.75, false, 0.75, 5.0, 6.0, 7.0, 0.0), s, 9) == (Channel(0.75, false, 0.75, 5.0, 6.0, 7.0, 0.0), 9);
    assert Output(Channel(0.75, false, 0.75, 5.0, 6.0, 7.0, 0.0)) == 7.3125;
  }

  lemma UpsampleByFourThirdsStep09(s: seq<real>)
    requires s == Saw(14)
    ensures Run(Channel(0.75, false, 0.75, 5.0, 6.0, 7.0, 0.0), s, 9, 7) == [7.3125] + ([3.5] + ([(-0.3125)] + ([1.0] + ([1.75] + ([2.5] + [3.25])))))
  {
    UpsampleByFourThirdsPull09(s);
    RunCons(Channel(0.75, false, 0.75, 5.0, 6.0, 7.0, 0.0), s, 9, 7);
    UpsampleByFourThirdsStep10(s);
  }

  lemma UpsampleByFourThirdsPull10(s: seq<real>)
    requires s == Saw(14)
    ensures PullStep(Channel(0.75, false, 1.5, 5.0, 6.0, 7.0, 0.0), s, 9) == Pulled(3.5, Channel(0.75, false, 1.25, 6.0, 7.0, 0.0, 1.0), 10)
  {
    assert Settle(Channel(0.75, false, 1.5, 5.0, 6.0, 7.0, 0.0), s, 9) == (Channel(0.75, false, 0.5, 6.0, 7.0, 0.0, 1.0), 10);
    assert Output(Channel(0.75, false, 0.5, 6.0, 7.0, 0.0, 1.0)) == 3.5;
  }

  lemma UpsampleByFourThirdsStep10(s: seq<real>)
    requires s == Saw(14)
    ensures Run(Channel(0.75, false, 1.5, 5.0, 6.0, 7.0, 0.0), s, 9, 6) == [3.5] + ([(-0.3125)] + ([1.0] + ([1.75] + ([2.5] + [3.25]))))
  {
    UpsampleByFourThirdsPull10(s);
    RunCons(Channel(0.75, false, 1.5, 5.0, 6.0, 7.0, 0.0), s, 9, 6);
    UpsampleByFourThirdsStep11(s);
  }

  lemma UpsampleByFourThirdsPull11(s: seq<real>)
    requires s == Saw(14)
    ensures PullStep(Channel(0.75, false, 1.25, 6.0, 7.0, 0.0, 1.0), s, 10) == Pulled((-0.3125), Channel(0.75, false, 1.0, 7.0, 0.0, 1.0, 2.0), 11)
  {
    assert Settle(Channel(0.75, false, 1.25, 6.0, 7.0, 0.0, 1.0), s, 10) == (Channel(0.75, false, 0.25, 7.0, 0.0, 1.0, 2.0), 11);
    assert Output(Channel(0.75, false, 0.25, 7.0, 0.0, 1.0, 2.0)) == (-0.3125);
  }

  lemma UpsampleByFourThirdsStep11(s: seq<real>)
    requires s == Saw(14)
    ensures Run(Channel(0.75, false, 1.25, 6.0, 7.0, 0.0, 1.0), s, 10, 5) == [(-0.3125)] + ([1.0] + ([1.75] + ([2.5] + [3.25])))
  {
    UpsampleByFourThirdsPull11(s);
    RunCons(Channel(0.75, false, 1.25, 6.0, 7.0, 0.0, 1.0), s, 10, 5);
    UpsampleByFourThirdsStep12(s);
  }

  lemma UpsampleByFourThirdsPull12(s: seq<real>)
    requires s == Saw(14)
    ensures PullStep(Channel(0.75, false, 1.0, 7.0, 0.0, 1.0, 2.0), s, 11) == Pulled(1.0, Channel(0.75, false, 0.75, 0.0, 1.0, 2.0, 3.0), 12)
  {
    assert Settle(Channel(0.75, false, 1.0, 7.0, 0.0, 1.0, 2.0), s, 11) == (Channel(0.75, false, 0.0, 0.0, 1.0, 2.0, 3.0), 12);
    assert Output(Channel(0.75, false, 0.0, 0.0, 1.0, 2.0, 3.0)) == 1.0;
  }

  lemma UpsampleByFourThirdsStep12(s: seq<real>)
    requires s == Saw(14)
    ensures Run(Channel(0.75, false, 1.0, 7.0, 0.0, 1.0, 2.0), s, 11, 4) == [1.0] + ([1.75] + ([2.5] + [3.25]))
  {
    UpsampleByFourThirdsPull12(s);
    RunCons(Channel(0.75, false, 1.0, 7.0, 0.0, 1.0, 2.0), s, 11, 4);
    UpsampleByFourThirdsStep13(s);
  }

  lemma UpsampleByFourThirdsPull13(s: seq<real>)
    requires s == Saw(14)
    ensures PullStep(Channel(0.75, false, 0.75, 0.0, 1.0, 2.0, 3.0), s, 12) == Pulled(1.75, Channel(0.75, false, 1.5, 0.0, 1.0, 2.0, 3.0), 12)
  {
    assert Settle(Channel(0.75, false, 0.75, 0.0, 1.0, 2.0, 3.0), s, 12) == (Channel(0.75, false, 0.75, 0.0, 1.0, 2.0, 3.0), 12);
    assert Output(Channel(0.75, false, 0.75, 0.0, 1.0, 2.0, 3.0)) == 1.75;
  }

  lemma UpsampleByFourThirdsStep13(s: seq<real>)
    requires s == Saw(14)
    ensures Run(Channel(0.75, false, 0.75, 0.0, 1.0, 2.0, 3.0), s, 12, 3) == [1.75] + ([2.5] + [3.25])
  {
    UpsampleByFourThirdsPull13(s);
    RunCons(Channel(0.75, false, 0.75, 0.0, 1.0, 2.0, 3.0), s, 12, 3);
    UpsampleByFourThirdsStep14(s);
  }

  lemma UpsampleByFourThirdsPull14(s: seq<real>)
    requires s == Saw(14)
    ensures PullStep(Channel(0.75, false, 1.5, 0.0, 1.0, 2.0, 3.0), s, 12) == Pulled(2.5, Channel(0.75, false, 1.25, 1.0, 2.0, 3.0, 4.0), 13)
  {
    assert Settle(Channel(0.75, false, 1.5, 0.0, 1.0, 2.0, 3.0), s, 12) == (Channel(0.75, false, 0.5, 1.0, 2.0, 3.0, 4.0), 13);
    assert Output(Channel(0.75, false, 0.5, 1.0, 2.0, 3.0, 4.0)) == 2.5;
  }

  lemma UpsampleByFourThirdsStep14(s: seq<real>)
    requires s == Saw(14)
    ensures Run(Channel(0.75, false, 1.5, 0.0, 1.0, 2.0, 3.0), s, 12, 2) == [2.5] + [3.25]
  {
    UpsampleByFourThirdsPull14(s);
    RunCons(Channel(0.75, false, 1.5, 0.0, 1.0, 2.0, 3.0), s, 12, 2);
    UpsampleByFourThirdsStep15(s);
  }

  lemma UpsampleByFourThirdsPull15(s: seq<real>)
    requires s == Saw(14)
    ensures PullStep(Channel(0.75, false, 1.25, 1.0, 2.0, 3.0, 4.0), s, 13) == Pulled(3.25, Channel(0.75, false, 1.0, 2.0, 3.0, 4.0, 5.0), 14)
  {
    assert Settle(Channel(0.75, false, 1.25, 1.0, 2.0, 3.0, 4.0), s, 13) == (Channel(0.75, false, 0.25, 2.0, 3.0, 4.0, 5.0), 14);
    assert Output(Channel(0.75, false, 0.25, 2.0, 3.0, 4.0, 5.0)) == 3.25;
  }

  lemma UpsampleByFourThirdsStep15(s: seq<real>)
    requires s == Saw(14)
    ensures Run(Channel(0.75, false, 1.25, 1.0, 2.0, 3.0, 4.0), s, 13, 1) == [3.25]
  {
    UpsampleByFourThirdsPull15(s);
    RunCons(Channel(0.75, false, 1.25, 1.0, 2.0, 3.0, 4.0), s, 13, 1);
  }

  lemma UpsampleByFourThirdsFlatten()
    ensures [0.0] + ([0.7265625] + ([1.5] + ([2.25] + ([3.0] + ([3.75] + ([4.5] + ([5.25] + ([6.0] + ([7.3125] + ([3.5] + ([(-0.3125)] + ([1.0] + ([1.75] + ([2.5] + [3.25]))))))))))))))
         == [0.0, 0.7265625, 1.5, 2.25, 3.0, 3.75, 4.5, 5.25, 6.0, 7.3125, 3.5, (-0.3125), 1.0, 1.75, 2.5, 3.25]
  {
  }

  lemma UpsampleByFourThirdsStart()
    ensures Retune(Initial, 36000, 48000) == Channel(0.75, true, 0.0, 0.0, 0.0, 0.0, 0.0)
  {
  }

  /** 36000 Hz to 48000 Hz; the second output, compared with a 1% tolerance by the test, is exactly 93/128. */
  lemma UpsampleByFourThirds()
    ensures Run(Retune(Initial, 36000, 48000), Saw(14), 0, 16)
         == [0.0, 0.7265625, 1.5, 2.25, 3.0, 3.75, 4.5, 5.25, 6.0, 7.3125, 3.5, (-0.3125), 1.0, 1.75, 2.5, 3.25]
  {
    UpsampleByFourThirdsStart();
    var s := Saw(14);
    UpsampleByFourThirdsStep00(s);
    UpsampleByFourThirdsFlatten();
  }

  lemma DownsampleByTwoPull00(s: seq<real>)
    requires s == Saw(25)
    ensures PullStep(Channel(2.0, true, 0.0, 0.0, 0.0, 0.0, 0.0), s, 0) == Pulled(0.0, Channel(2.0, false, 2.0, 0.0, 0.0, 1.0, 2.0), 3)
  {
    assert Settle(Channel(2.0, false, 0.0, 0.0, 0.0, 1.0, 2.0), s, 3) == (Channel(2.0, false, 0.0, 0.0, 0.0, 1.0, 2.0), 3);
    assert Output(Channel(2.0, false, 0.0, 0.0, 0.0, 1.0, 2.0)) == 0.0;
  }

  lemma DownsampleByTwoStep00(s: seq<real>)
    requires s == Saw(25)
    ensures Run(Channel(2.0, true, 0.0, 0.0, 0.0, 0.0, 0.0), s, 0, 12) == [0.0] + ([2.0] + ([4.0] + ([6.0] + ([0.0] + ([2.0] + ([4.0] + ([6.0] + ([0.0] + ([2.0] + ([4.0] + [6.0]))))))))))
  {
    DownsampleByTwoPull00(s);
    RunCons(Channel(2.0, true, 0.0, 0.0, 0.0, 0.0, 0.0), s, 0, 12);
    DownsampleByTwoStep01(s);
  }

  lemma DownsampleByTwoPull01(s: seq<real>)
    requires s == Saw(25)
    ensures PullStep(Channel(2.0, false, 2.0, 0.0, 0.0, 1.0, 2.0), s, 3) == Pulled(2.0, Channel(2.0, false, 2.0, 1.0, 2.0, 3.0, 4.0), 5)
  {
    assert Settle(Channel(2.0, false, 2.0, 0.0, 0.0, 1.0, 2.0), s, 3) == (Channel(2.0, false, 0.0, 1.0, 2.0, 3.0, 4.0), 5);
    assert Output(Channel(2.0, false, 0.0, 1.0, 2.0, 3.0, 4.0)) == 2.0;
  }

  lemma DownsampleByTwoStep01(s: seq<real>)
    requires s == Saw(25)
    ensures Run(Channel(2.0, false, 2.0, 0.0, 0.0, 1.0, 2.0), s, 3, 11) == [2.0] + ([4.0] + ([6.0] + ([0.0] + ([2.0] + ([4.0] + ([6.0] + ([0.0] + ([2.0] + ([4.0] + [6.0])))))))))
  {
    DownsampleByTwoPull01(s);
    RunCons(Channel(2.0, false, 2.0, 0.0, 0.0, 1.0, 2.0), s, 3, 11);
    DownsampleByTwoStep02(s);
  }

  lemma DownsampleByTwoPull02(s: seq<real>)
    requires s == Saw(25)
    ensures PullStep(Channel(2.0, false, 2.0, 1.0, 2.0, 3.0, 4.0), s, 5) == Pulled(4.0, Channel(2.0, false, 2.0, 3.0, 4.0, 5.0, 6.0), 7)
  {
    assert Settle(Channel(2.0, false, 2.0, 1.0, 2.0, 3.0, 4.0), s, 5) == (Channel(2.0, false, 0.0, 3.0, 4.0, 5.0, 6.0), 7);
    assert Output(Channel(2.0, false, 0.0, 3.0, 4.0, 5.0, 6.0)) == 4.0;
  }

  lemma DownsampleByTwoStep02(s: seq<real>)
    requires s == Saw(25)
    ensures Run(Channel(2.0, false, 2.0, 1.0, 2.0, 3.0, 4.0), s, 5, 10) == [4.0] + ([6.0] + ([0.0] + ([2.0] + ([4.0] + ([6.0] + ([0.0] + ([2.0] + ([4.0] + [6.0]))))))))
  {
    DownsampleByTwoPull02(s);
    RunCons(Channel(2.0, false, 2.0, 1.0, 2.0, 3.0, 4.0), s, 5, 10);
    DownsampleByTwoStep03(s);
  }

  lemma DownsampleByTwoPull03(s: seq<real>)
    requires s == Saw(25)
    ensures PullStep(Channel(2.0, false, 2.0, 3.0, 4.0, 5.0, 6.0), s, 7) == Pulled(6.0, Channel(2.0, false, 2.0, 5.0, 6.0, 7.0, 0.0), 9)
  {
    assert Settle(Channel(2.0, false, 2.0, 3.0, 4.0, 5.0, 6.0), s, 7) == (Channel(2.0, false, 0.0, 5.0, 6.0, 7.0, 0.0), 9);
    assert Output(Channel(2.0, false, 0.0, 5.0, 6.0, 7.0, 0.0)) == 6.0;
  }

  lemma DownsampleByTwoStep03(s: seq<real>)
    requires s == Saw(25)
    ensures Run(Channel(2.0, false, 2.0, 3.0, 4.0, 5.0, 6.0), s, 7, 9) == [6.0] + ([0.0] + ([2.0] + ([4.0] + ([6.0] + ([0.0] + ([2.0] + ([4.0] + [6.0])))))))
  {
    DownsampleByTwoPull03(s);
    RunCons(Channel(2.0, false, 2.0, 3.0, 4.0, 5.0, 6.0), s, 7, 9);
    DownsampleByTwoStep04(s);
  }

  lemma DownsampleByTwoPull04(s: seq<real>)
    requires s == Saw(25)
    ensures PullStep(Channel(2.0, false, 2.0, 5.0, 6.0, 7.0, 0.0), s, 9) == Pulled(0.0, Channel(2.0, false, 2.0, 7.0, 0.0, 1.0, 2.0), 11)
  {
    assert Settle(Channel(2.0, false, 2.0, 5.0, 6.0, 7.0, 0.0), s, 9) == (Channel(2.0, false, 0.0, 7.0, 0.0, 1.0, 2.0), 11);
    assert Output(Channel(2.0, false, 0.0, 7.0, 0.0, 1.0, 2.0)) == 0.0;
  }

  lemma DownsampleByTwoStep04(s: seq<real>)
    requires s == Saw(25)
    ensures Run(Channel(2.0, false, 2.0, 5.0, 6.0, 7.0, 0.0), s, 9, 8) == [0.0] + ([2.0] + ([4.0] + ([6.0] + ([0.0] + ([2.0] + ([4.0] + [6.0]))))))
  {
    DownsampleByTwoPull04(s);
    RunCons(Channel(2.0, false, 2.0, 5.0, 6.0, 7.0, 0.0), s, 9, 8);
    DownsampleByTwoStep05(s);
  }

  lemma DownsampleByTwoPull05(s: seq<real>)
    requires s == Saw(25)
    ensures PullStep(Channel(2.0, false, 2.0, 7.0, 0.0, 1.0, 2.0), s, 11) == Pulled(2.0, Channel(2.0, false, 2.0, 1.0, 2.0, 3.0, 4.0), 13)
  {
    assert Settle(Channel(2.0, false, 2.0, 7.0, 0.0, 1.0, 2.0), s, 11) == (Channel(2.0, false, 0.0, 1.0, 2.0, 3.0, 4.0), 13);
    assert Output(Channel(2.0, false, 0.0, 1.0, 2.0, 3.0, 4.0)) == 2.0;
  }

  lemma DownsampleByTwoStep05(s: seq<real>)
    requires s == Saw(25)
    ensures Run(Channel(2.0, false, 2.0, 7.0, 0.0, 1.0, 2.0), s, 11, 7) == [2.0] + ([4.0] + ([6.0] + ([0.0] + ([2.0] + ([4.0] + [6.0])))))
  {
    DownsampleByTwoPull05(s);
    RunCons(Channel(2.0, false, 2.0, 7.0, 0.0, 1.0, 2.0), s, 11, 7);
    DownsampleByTwoStep06(s);
  }

  lemma DownsampleByTwoPull06(s: seq<real>)
    requires s == Saw(25)
    ensures PullStep(Channel(2.0, false, 2.0, 1.0, 2.0, 3.0, 4.0), s, 13) == Pulled(4.0, Channel(2.0, false, 2.0, 3.0, 4.0, 5.0, 6.0), 15)
  {
    assert Settle(Channel(2.0, false, 2.0, 1.0, 2.0, 3.0, 4.0), s, 13) == (Channel(2.0, false, 0.0, 3.0, 4.0, 5.0, 6.0), 15);
    assert Output(Channel(2.0, false, 0.0, 3.0, 4.0, 5.0, 6.0)) == 4.0;
  }

  lemma DownsampleByTwoStep06(s: seq<real>)
    requires s == Saw(25)
    ensures Run(Channel(2.0, false, 2.0, 1.0, 2.0, 3.0, 4.0), s, 13, 6) == [4.0] + ([6.0] + ([0.0] + ([2.0] + ([4.0] + [6.0]))))
  {
    DownsampleByTwoPull06(s);
    RunCons(Channel(2.0, false, 2.0, 1.0, 2.0, 3.0, 4.0), s, 13, 6);
    DownsampleByTwoStep07(s);
  }

  lemma DownsampleByTwoPull07(s: seq<real>)
    requires s == Saw(25)
    ensures PullStep(Channel(2.0, false, 2.0, 3.0, 4.0, 5.0, 6.0), s, 15) == Pulled(6.0, Channel(2.0, false, 2.0, 5.0, 6.0, 7.0, 0.0), 17)
  {
    assert Settle(Channel(2.0, false, 2.0, 3.0, 4.0, 5.0, 6.0), s, 15) == (Channel(2.0, false, 0.0, 5.0, 6.0, 7.0, 0.0), 17);
    assert Output(Channel(2.0, false, 0.0, 5.0, 6.0, 7.0, 0.0)) == 6.0;
  }

  lemma DownsampleByTwoStep07(s: seq<real>)
    requires s == Saw(25)
    ensures Run(Channel(2.0, false, 2.0, 3.0, 4.0, 5.0, 6.0), s, 15, 5) == [6.0] + ([0.0] + ([2.0] + ([4.0] + [6.0])))
  {
    DownsampleByTwoPull07(s);
    RunCons(Channel(2.0, false, 2.0, 3.0, 4.0, 5.0, 6.0), s, 15, 5);
    DownsampleByTwoStep08(s);
  }

  lemma DownsampleByTwoPull08(s: seq<real>)
    requires s == Saw(25)
    ensures PullStep(Channel(2.0, false, 2.0, 5.0, 6.0, 7.0, 0.0), s, 17) == Pulled(0.0, Channel(2.0, false, 2.0, 7.0, 0.0, 1.0, 2.0), 19)
  {
    assert Settle(Channel(2.0, false, 2.0, 5.0, 6.0, 7.0, 0.0), s, 17) == (Channel(2.0, false, 0.0, 7.0, 0.0, 1.0, 2.0), 19);
    assert Output(Channel(2.0, false, 0.0, 7.0, 0.0, 1.0, 2.0)) == 0.0;
  }

  lemma DownsampleByTwoStep08(s: seq<real>)
    requires s == Saw(25)
    ensures Run(Channel(2.0, false, 2.0, 5.0, 6.0, 7.0, 0.0), s, 17, 4) == [0.0] + ([2.0] + ([4.0] + [6.0]))
  {
    DownsampleByTwoPull08(s);
    RunCons(Channel(2.0, false, 2.0, 5.0, 6.0, 7.0, 0.0), s, 17, 4);
    DownsampleByTwoStep09(s);
  }

  lemma DownsampleByTwoPull09(s: seq<real>)
    requires s == Saw(25)
    ensures PullStep(Channel(2.0, false, 2.0, 7.0, 0.0, 1.0, 2.0), s, 19) == Pulled(2.0, Channel(2.0, false, 2.0, 1.0, 2.0, 3.0, 4.0), 21)
  {
    assert Settle(Channel(2.0, false, 2.0, 7.0, 0.0, 1.0, 2.0), s, 19) == (Channel(2.0, false, 0.0, 1.0, 2.0, 3.0, 4.0), 21);
    assert Output(Channel(2.0, false, 0.0, 1.0, 2.0, 3.0, 4.0)) == 2.0;
  }

  lemma DownsampleByTwoStep09(s: seq<real>)
    requires s == Saw(25)
    ensures Run(Channel(2.0, false, 2.0, 7.0, 0.0, 1.0, 2.0), s, 19, 3) == [2.0] + ([4.0] + [6.0])
  {
    DownsampleByTwoPull09(s);
    RunCons(Channel(2.0, false, 2.0, 7.0, 0.0, 1.0, 2.0), s, 19, 3);
    DownsampleByTwoStep10(s);
  }

  lemma DownsampleByTwoPull10(s: seq<real>)
    requires s == Saw(25)
    ensures PullStep(Channel(2.0, false, 2.0, 1.0, 2.0, 3.0, 4.0), s, 21) == Pulled(4.0, Channel(2.0, false, 2.0, 3.0, 4.0, 5.0, 6.0), 23)
  {
    assert Settle(Channel(2.0, false, 2.0, 1.0, 2.0, 3.0, 4.0), s, 21) == (Channel(2.0, false, 0.0, 3.0, 4.0, 5.0, 6.0), 23);
    assert Output(Channel(2.0, false, 0.0, 3.0, 4.0, 5.0, 6.0)) == 4.0;
  }

  lemma DownsampleByTwoStep10(s: seq<real>)
    requires s == Saw(25)
    ensures Run(Channel(2.0, false, 2.0, 1.0, 2.0, 3.0, 4.0), s, 21, 2) == [4.0] + [6.0]
  {
    DownsampleByTwoPull10(s);
    RunCons(Channel(2.0, false, 2.0, 1.0, 2.0, 3.0, 4.0), s, 21, 2);
    DownsampleByTwoStep11(s);
  }

  lemma DownsampleByTwoPull11(s: seq<real>)
    requires s == Saw(25)
    ensures PullStep(Channel(2.0, false, 2.0, 3.0, 4.0, 5.0, 6.0), s, 23) == Pulled(6.0, Channel(2.0, false, 2.0, 5.0, 6.0, 7.0, 0.0), 25)
  {
    assert Settle(Channel(2.0, false, 2.0, 3.0, 4.0, 5.0, 6.0), s, 23) == (Channel(2.0, false, 0.0, 5.0, 6.0, 7.0, 0.0), 25);
    assert Output(Channel(2.0, false, 0.0, 5.0, 6.0, 7.0, 0.0)) == 6.0;
  }

  lemma DownsampleByTwoStep11(s: seq<real>)
    requires s == Saw(25)
    ensures Run(Channel(2.0, false, 2.0, 3.0, 4.0, 5.0, 6.0), s, 23, 1) == [6.0]
  {
    DownsampleByTwoPull11(s);
    RunCons(Channel(2.0, false, 2.0, 3.0, 4.0, 5.0, 6.0), s, 23, 1);
  }

  lemma DownsampleByTwoFlatten()
    ensures [0.0] + ([2.0] + ([4.0] + ([6.0] + ([0.0] + ([2.0] + ([4.0] + ([6.0] + ([0.0] + ([2.0] + ([4.0] + [6.0]))))))))))
         == [0.0, 2.0, 4.0, 6.0, 0.0, 2.0, 4.0, 6.0, 0.0, 2.0, 4.0, 6.0]
  {
  }

  lemma DownsampleByTwoStart()
    ensures Retune(Initial, 48000, 24000) == Channel(2.0, true, 0.0, 0.0, 0.0, 0.0, 0.0)
  {
  }

  /** 48000 Hz to 24000 Hz: every second input sample, as DecimateFromFlush predicts. */
  lemma DownsampleByTwo()
    ensures Run(Retune(Initial, 48000, 24000), Saw(25), 0, 12)
         == [0.0, 2.0, 4.0, 6.0, 0.0, 2.0, 4.0, 6.0, 0.0, 2.0, 4.0, 6.0]
  {
    DownsampleByTwoStart();
    var s := Saw(25);
    DownsampleByTwoStep00(s);
    DownsampleByTwoFlatten();
  }

  lemma DownsampleByFourThirdsPull00(s: seq<real>)
    requires s == Saw(17)
    ensures PullStep(Channel((4.0 / 3.0), true, 0.0, 0.0, 0.0, 0.0, 0.0), s, 0) == Pulled(0.0, Channel((4.0 / 3.0), false, (4.0 / 3.0), 0.0, 0.0, 1.0, 2.0), 3)
  {
    assert Settle(Channel((4.0 / 3.0), false, 0.0, 0.0, 0.0, 1.0, 2.0), s, 3) == (Channel((4.0 / 3.0), false, 0.0, 0.0, 0.0, 1.0, 2.0), 3);
    assert Output(Channel((4.0 / 3.0), false, 0.0, 0.0, 0.0, 1.0, 2.0)) == 0.0;
  }

  lemma DownsampleByFourThirdsStep00(s: seq<real>)
    requires s == Saw(17)
    ensures Run(Channel((4.0 / 3.0), true, 0.0, 0.0, 0.0, 0.0, 0.0), s, 0, 12) == [0.0] + ([(4.0 / 3.0)] + ([(8.0 / 3.0)] + ([4.0] + ([(16.0 / 3.0)] + ([(196.0 / 27.0)] + ([0.0] + ([(4.0 / 3.0)] + ([(8.0 / 3.0)] + ([4.0] + ([(16.0 / 3.0)] + [(196.0 / 27.0)]))))))))))
  {
    DownsampleByFourThirdsPull00(s);
    RunCons(Channel((4.0 / 3.0), true, 0.0, 0.0, 0.0, 0.0, 0.0), s, 0, 12);
    DownsampleByFourThirdsStep01(s);
  }

  lemma DownsampleByFourThirdsPull01(s: seq<real>)
    requires s == Saw(17)
    ensures PullStep(Channel((4.0 / 3.0), false, (4.0 / 3.0), 0.0, 0.0, 1.0, 2.0), s, 3) == Pulled((4.0 / 3.0), Channel((4.0 / 3.0), false, (5.0 / 3.0), 0.0, 1.0, 2.0, 3.0), 4)
  {
    assert Settle(Channel((4.0 / 3.0), false, (4.0 / 3.0), 0.0, 0.0, 1.0, 2.0), s, 3) == (Channel((4.0 / 3.0), false, (1.0 / 3.0), 0.0, 1.0, 2.0, 3.0), 4);
    assert Output(Channel((4.0 / 3.0), false, (1.0 / 3.0), 0.0, 1.0, 2.0, 3.0)) == (4.0 / 3.0);
  }

  lemma DownsampleByFourThirdsStep01(s: seq<real>)
    requires s == Saw(17)
    ensures Run(Channel((4.0 / 3.0), false, (4.0 / 3.0), 0.0, 0.0, 1.0, 2.0), s, 3, 11) == [(4.0 / 3.0)] + ([(8.0 / 3.0)] + ([4.0] + ([(16.0 / 3.0)] + ([(196.0 / 27.0)] + ([0.0] + ([(4.0 / 3.0)] + ([(8.0 / 3.0)] + ([4.0] + ([(16.0 / 3.0)] + [(196.0 / 27.0)])))))))))
  {
    DownsampleByFourThirdsPull01(s);
    RunCons(Channel((4.0 / 3.0), false, (4.0 / 3.0), 0.0, 0.0, 1.0, 2.0), s, 3, 11);
    DownsampleByFourThirdsStep02(s);
  }

  lemma DownsampleByFourThirdsPull02(s: seq<real>)
    requires s == Saw(17)
    ensures PullStep(Channel((4.0 / 3.0), false, (5.0 / 3.0), 0.0, 1.0, 2.0, 3.0), s, 4) == Pulled((8.0 / 3.0), Channel((4.0 / 3.0), false, 2.0, 1.0, 2.0, 3.0, 4.0), 5)
  {
    assert Settle(Channel((4.0 / 3.0), false, (5.0 / 3.0), 0.0, 1.0, 2.0, 3.0), s, 4) == (Channel((4.0 / 3.0), false, (2.0 / 3.0), 1.0, 2.0, 3.0, 4.0), 5);
    assert Output(Channel((4.0 / 3.0), false, (2.0 / 3.0), 1.0, 2.0, 3.0, 4.0)) == (8.0 / 3.0);
  }

  lemma DownsampleByFourThirdsStep02(s: seq<real>)
    requires s == Saw(17)
    ensures Run(Channel((4.0 / 3.0), false, (5.0 / 3.0), 0.0, 1.0, 2.0, 3.0), s, 4, 10) == [(8.0 / 3.0)] + ([4.0] + ([(16.0 / 3.0)] + ([(196.0 / 27.0)] + ([0.0] + ([(4.0 / 3.0)] + ([(8.0 / 3.0)] + ([4.0] + ([(16.0 / 3.0)] + [(196.0 / 27.0)]))))))))
  {
    DownsampleByFourThirdsPull02(s);
    RunCons(Channel((4.0 / 3.0), false, (5.0 / 3.0), 0.0, 1.0, 2.0, 3.0), s, 4, 10);
    DownsampleByFourThirdsStep03(s);
  }

  lemma DownsampleByFourThirdsPull03(s: seq<real>)
    requires s == Saw(17)
    ensures PullStep(Channel((4.0 / 3.0), false, 2.0, 1.0, 2.0, 3.0, 4.0), s, 5) == Pulled(4.0, Channel((4.0 / 3.0), false, (4.0 / 3.0), 3.0, 4.0, 5.0, 6.0), 7)
  {
    assert Settle(Channel((4.0 / 3.0), false, 2.0, 1.0, 2.0, 3.0, 4.0), s, 5) == (Channel((4.0 / 3.0), false, 0.0, 3.0, 4.0, 5.0, 6.0), 7);
    assert Output(Channel((4.0 / 3.0), false, 0.0, 3.0, 4.0, 5.0, 6.0)) == 4.0;
  }

  lemma DownsampleByFourThirdsStep03(s: seq<real>)
    requires s == Saw(17)
    ensures Run(Channel((4.0 / 3.0), false, 2.0, 1.0, 2.0, 3.0, 4.0), s, 5, 9) == [4.0] + ([(16.0 / 3.0)] + ([(196.0 / 27.0)] + ([0.0] + ([(4.0 / 3.0)] + ([(8.0 / 3.0)] + ([4.0] + ([(16.0 / 3.0)] + [(196.0 / 27.0)])))))))
  {
    DownsampleByFourThirdsPull03(s);
    RunCons(Channel((4.0 / 3.0), false, 2.0, 1.0, 2.0, 3.0, 4.0), s, 5, 9);
    DownsampleByFourThirdsStep04(s);
  }

  lemma DownsampleByFourThirdsPull04(s: seq<real>)
    requires s == Saw(17)
    ensures PullStep(Channel((4.0 / 3.0), false, (4.0 / 3.0), 3.0, 4.0, 5.0, 6.0), s, 7) == Pulled((16.0 / 3.0), Channel((4.0 / 3.0), false, (5.0 / 3.0), 4.0, 5.0, 6.0, 7.0), 8)
  {
    assert Settle(Channel((4.0 / 3.0), false, (4.0 / 3.0), 3.0, 4.0, 5.0, 6.0), s, 7) == (Channel((4.0 / 3.0), false, (1.0 / 3.0), 4.0, 5.0, 6.0, 7.0), 8);
    assert Output(Channel((4.0 / 3.0), false, (1.0 / 3.0), 4.0, 5.0, 6.0, 7.0)) == (16.0 / 3.0);
  }

  lemma DownsampleByFourThirdsStep04(s: seq<real>)
    requires s == Saw(17)
    ensures Run(Channel((4.0 / 3.0), false, (4.0 / 3.0), 3.0, 4.0, 5.0, 6.0), s, 7, 8) == [(16.0 / 3.0)] + ([(196.0 / 27.0)] + ([0.0] + ([(4.0 / 3.0)] + ([(8.0 / 3.0)] + ([4.0] + ([(16.0 / 3.0)] + [(196.0 / 27.0)]))))))
  {
    DownsampleByFourThirdsPull04(s);
    RunCons(Channel((4.0 / 3.0), false, (4.0 / 3.0), 3.0, 4.0, 5.0, 6.0), s, 7, 8);
    DownsampleByFourThirdsStep05(s);
  }

  lemma DownsampleByFourThirdsPull05(s: seq<real>)
    requires s == Saw(17)
    ensures PullStep(Channel((4.0 / 3.0), false, (5.0 / 3.0), 4.0, 5.0, 6.0, 7.0), s, 8) == Pulled((196.0 / 27.0), Channel((4.0 / 3.0), false, 2.0, 5.0, 6.0, 7.0, 0.0), 9)
  {
    assert Settle(Channel((4.0 / 3.0), false, (5.0 / 3.0), 4.0, 5.0, 6.0, 7.0), s, 8) == (Channel((4.0 / 3.0), false, (2.0 / 3.0), 5.0, 6.0, 7.0, 0.0), 9);
    assert Output(Channel((4.0 / 3.0), false, (2.0 / 3.0), 5.0, 6.0, 7.0, 0.0)) == (196.0 / 27.0);
  }

  lemma DownsampleByFourThirdsStep05(s: seq<real>)
    requires s == Saw(17)
    ensures Run(Channel((4.0 / 3.0), false, (5.0 / 3.0), 4.0, 5.0, 6.0, 7.0), s, 8, 7) == [(196.0 / 27.0)] + ([0.0] + ([(4.0 / 3.0)] + ([(8.0 / 3.0)] + ([4.0] + ([(16.0 / 3.0)] + [(196.0 / 27.0)])))))
  {
    DownsampleByFourThirdsPull05(s);
    RunCons(Channel((4.0 / 3.0), false, (5.0 / 3.0), 4.0, 5.0, 6.0, 7.0), s, 8, 7);
    DownsampleByFourThirdsStep06(s);
  }

  lemma DownsampleByFourThirdsPull06(s: seq<real>)
    requires s == Saw(17)
    ensures PullStep(Channel((4.0 / 3.0), false, 2.0, 5.0, 6.0, 7.0, 0.0), s, 9) == Pulled(0.0, Channel((4.0 / 3.0), false, (4.0 / 3.0), 7.0, 0.0, 1.0, 2.0), 11)
  {
    assert Settle(Channel((4.0 / 3.0), false, 2.0, 5.0, 6.0, 7.0, 0.0), s, 9) == (Channel((4.0 / 3.0), false, 0.0, 7.0, 0.0, 1.0, 2.0), 11);
    assert Output(Channel((4.0 / 3.0), false, 0.0, 7.0, 0.0, 1.0, 2.0)) == 0.0;
  }

  lemma DownsampleByFourThirdsStep06(s: seq<real>)
    requires s == Saw(17)
    ensures Run(Channel((4.0 / 3.0), false, 2.0, 5.0, 6.0, 7.0, 0.0), s, 9, 6) == [0.0] + ([(4.0 / 3.0)] + ([(8.0 / 3.0)] + ([4.0] + ([(16.0 / 3.0)] + [(196.0 / 27.0)]))))
  {
    DownsampleByFourThirdsPull06(s);
    RunCons(Channel((4.0 / 3.0), false, 2.0, 5.0, 6.0, 7.0, 0.0), s, 9, 6);
    DownsampleByFourThirdsStep07(s);
  }

  lemma DownsampleByFourThirdsPull07(s: seq<real>)
    requires s == Saw(17)
    ensures PullStep(Channel((4.0 / 3.0), false, (4.0 / 3.0), 7.0, 0.0, 1.0, 2.0), s, 11) == Pulled((4.0 / 3.0), Channel((4.0 / 3.0), false, (5.0 / 3.0), 0.0, 1.0, 2.0, 3.0), 12)
  {
    assert Settle(Channel((4.0 / 3.0), false, (4.0 / 3.0), 7.0, 0.0, 1.0, 2.0), s, 11) == (Channel((4.0 / 3.0), false, (1.0 / 3.0), 0.0, 1.0, 2.0, 3.0), 12);
    assert Output(Channel((4.0 / 3.0), false, (1.0 / 3.0), 0.0, 1.0, 2.0, 3.0)) == (4.0 / 3.0);
  }

  lemma DownsampleByFourThirdsStep07(s: seq<real>)
    requires s == Saw(17)
    ensures Run(Channel((4.0 / 3.0), false, (4.0 / 3.0), 7.0, 0.0, 1.0, 2.0), s, 11, 5) == [(4.0 / 3.0)] + ([(8.0 / 3.0)] + ([4.0] + ([(16.0 / 3.0)] + [(196.0 / 27.0)])))
  {
    DownsampleByFourThirdsPull07(s);
    RunCons(Channel((4.0 / 3.0), false, (4.0 / 3.0), 7.0, 0.0, 1.0, 2.0), s, 11, 5);
    DownsampleByFourThirdsStep08(s);
  }

  lemma DownsampleByFourThirdsPull08(s: seq<real>)
    requires s == Saw(17)
    ensures PullStep(Channel((4.0 / 3.0), false, (5.0 / 3.0), 0.0, 1.0, 2.0, 3.0), s, 12) == Pulled((8.0 / 3.0), Channel((4.0 / 3.0), false, 2.0, 1.0, 2.0, 3.0, 4.0), 13)
  {
    assert Settle(Channel((4.0 / 3.0), false, (5.0 / 3.0), 0.0, 1.0, 2.0, 3.0), s, 12) == (Channel((4.0 / 3.0), false, (2.0 / 3.0), 1.0, 2.0, 3.0, 4.0), 13);
    assert Output(Channel((4.0 / 3.0), false, (2.0 / 3.0), 1.0, 2.0, 3.0, 4.0)) == (8.0 / 3.0);
  }

  lemma DownsampleByFourThirdsStep08(s: seq<real>)
    requires s == Saw(17)
    ensures Run(Channel((4.0 / 3.0), false, (5.0 / 3.0), 0.0, 1.0, 2.0, 3.0), s, 12, 4) == [(8.0 / 3.0)] + ([4.0] + ([(16.0 / 3.0)] + [(196.0 / 27.0)]))
  {
    DownsampleByFourThirdsPull08(s);
    RunCons(Channel((4.0 / 3.0), false, (5.0 / 3.0), 0.0, 1.0, 2.0, 3.0), s, 12, 4);
    DownsampleByFourThirdsStep09(s);
  }

  lemma DownsampleByFourThirdsPull09(s: seq<real>)
    requires s == Saw(17)
    ensures PullStep(Channel((4.0 / 3.0), false, 2.0, 1.0, 2.0, 3.0, 4.0), s, 13) == Pulled(4.0, Channel((4.0 / 3.0), false, (4.0 / 3.0), 3.0, 4.0, 5.0, 6.0), 15)
  {
    assert Settle(Channel((4.0 / 3.0), false, 2.0, 1.0, 2.0, 3.0, 4.0), s, 13) == (Channel((4.0 / 3.0), false, 0.0, 3.0, 4.0, 5.0, 6.0), 15);
    assert Output(Channel((4.0 / 3.0), false, 0.0, 3.0, 4.0, 5.0, 6.0)) == 4.0;
  }

  lemma DownsampleByFourThirdsStep09(s: seq<real>)
    requires s == Saw(17)
    ensures Run(Channel((4.0 / 3.0), false, 2.0, 1.0, 2.0, 3.0, 4.0), s, 13, 3) == [4.0] + ([(16.0 / 3.0)] + [(196.0 / 27.0)])
  {
    DownsampleByFourThirdsPull09(s);
    RunCons(Channel((4.0 / 3.0), false, 2.0, 1.0, 2.0, 3.0, 4.0), s, 13, 3);
    DownsampleByFourThirdsStep10(s);
  }

  lemma DownsampleByFourThirdsPull10(s: seq<real>)
    requires s == Saw(17)
    ensures PullStep(Channel((4.0 / 3.0), false, (4.0 / 3.0), 3.0, 4.0, 5.0, 6.0), s, 15) == Pulled((16.0 / 3.0), Channel((4.0 / 3.0), false, (5.0 / 3.0), 4.0, 5.0, 6.0, 7.0), 16)
  {
    assert Settle(Channel((4.0 / 3.0), false, (4.0 / 3.0), 3.0, 4.0, 5.0, 6.0), s, 15) == (Channel((4.0 / 3.0), false, (1.0 / 3.0), 4.0, 5.0, 6.0, 7.0), 16);
    assert Output(Channel((4.0 / 3.0), false, (1.0 / 3.0), 4.0, 5.0, 6.0, 7.0)) == (16.0 / 3.0);
  }

  lemma DownsampleByFourThirdsStep10(s: seq<real>)
    requires s == Saw(17)
    ensures Run(Channel((4.0 / 3.0), false, (4.0 / 3.0), 3.0, 4.0, 5.0, 6.0), s, 15, 2) == [(16.0 / 3.0)] + [(196.0 / 27.0)]
  {
    DownsampleByFourThirdsPull10(s);
    RunCons(Channel((4.0 / 3.0), false, (4.0 / 3.0), 3.0, 4.0, 5.0, 6.0), s, 15, 2);
    DownsampleByFourThirdsStep11(s);
  }

  lemma DownsampleByFourThirdsPull11(s: seq<real>)
    requires s == Saw(17)
    ensures PullStep(Channel((4.0 / 3.0), false, (5.0 / 3.0), 4.0, 5.0, 6.0, 7.0), s, 16) == Pulled((196.0 / 27.0), Channel((4.0 / 3.0), false, 2.0, 5.0, 6.0, 7.0, 0.0), 17)
  {
    assert Settle(Channel((4.0 / 3.0), false, (5.0 / 3.0), 4.0, 5.0, 6.0, 7.0), s, 16) == (Channel((4.0 / 3.0), false, (2.0 / 3.0), 5.0, 6.0, 7.0, 0.0), 17);
    assert Output(Channel((4.0 / 3.0), false, (2.0 / 3.0), 5.0, 6.0, 7.0, 0.0)) == (196.0 / 27.0);
  }

  lemma DownsampleByFourThirdsStep11(s: seq<real>)
    requires s == Saw(17)
    ensures Run(Channel((4.0 / 3.0), false, (5.0 / 3.0), 4.0, 5.0, 6.0, 7.0), s, 16, 1) == [(196.0 / 27.0)]
  {
    DownsampleByFourThirdsPull11(s);
    RunCons(Channel((4.0 / 3.0), false, (5.0 / 3.0), 4.0, 5.0, 6.0, 7.0), s, 16, 1);
  }

  lemma DownsampleByFourThirdsFlatten()
    ensures [0.0] + ([(4.0 / 3.0)] + ([(8.0 / 3.0)] + ([4.0] + ([(16.0 / 3.0)] + ([(196.0 / 27.0)] + ([0.0] + ([(4.0 / 3.0)] + ([(8.0 / 3.0)] + ([4.0] + ([(16.0 / 3.0)] + [(196.0 / 27.0)]))))))))))
         == [0.0, (4.0 / 3.0), (8.0 / 3.0), 4.0, (16.0 / 3.0), (196.0 / 27.0), 0.0, (4.0 / 3.0), (8.0 / 3.0), 4.0, (16.0 / 3.0), (196.0 / 27.0)]
  {
  }

  lemma DownsampleByFourThirdsStart()
    ensures Retune(Initial, 48000, 36000) == Channel((4.0 / 3.0), true, 0.0, 0.0, 0.0, 0.0, 0.0)
  {
  }

  /** 48000 Hz to 36000 Hz; the sixth output, compared with a 1% tolerance by the test, is exactly 196/27. */
  lemma DownsampleByFourThirds()
    ensures Run(Retune(Initial, 48000, 36000), Saw(17), 0, 12)
         == [0.0, (4.0 / 3.0), (8.0 / 3.0), 4.0, (16.0 / 3.0), (196.0 / 27.0), 0.0, (4.0 / 3.0), (8.0 / 3.0), 4.0, (16.0 / 3.0), (196.0 / 27.0)]
  {
    DownsampleByFourThirdsStart();
    var s := Saw(17);
    DownsampleByFourThirdsStep00(s);
    DownsampleByFourThirdsFlatten();
  }
}
