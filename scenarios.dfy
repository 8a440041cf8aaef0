/**
 Worked calls on concrete series: the boundary cases of validation and of the
 sanity gate, an upward and a downward cross, and cases that fall through to HOLD.
 */
module MovingAvgApiScenarios {
  import opened PyList
  import opened MovingAvgApi
  import opened MovingAvgApiProperties

  /** Nine 1s then a 2: the last price lifts the short average above the long one. */
  const RisingTail: seq<real> := [1.0, 1.0, 1.0, 1.0, 1.0, 1.0, 1.0, 1.0, 1.0, 2.0]

  /** Nine 2s then a 1: the mirror image, the short average falls below the long one. */
  const FallingTail: seq<real> := [2.0, 2.0, 2.0, 2.0, 2.0, 2.0, 2.0, 2.0, 2.0, 1.0]

  /** A 2 followed by nine 1s: the 2 lies outside every window of size 3 or less. */
  const EarlySpike: seq<real> := [2.0, 1.0, 1.0, 1.0, 1.0, 1.0, 1.0, 1.0, 1.0, 1.0]

  /** The four windows of a short window of 1 and a long window of 3, and the signal they give. */
  lemma {:induction false} SmallWindows(xs: seq<real>, minValidPrice: real, maxValidPrice: real)
    requires |xs| >= 4
    requires InBounds(xs[|xs| - 1], minValidPrice, maxValidPrice)
    ensures var n := |xs|;
      MovingAverageCrossoverSignal(PriceList(Nums(xs)), 1, 3, minValidPrice, maxValidPrice)
      == Ok(Decide(Averages(xs[n - 1], xs[n - 2], (xs[n - 3] + xs[n - 2] + xs[n - 1]) / 3.0,
                            (xs[n - 4] + xs[n - 3] + xs[n - 2]) / 3.0)))
  {
    var n := |xs|;
    ValidCallOnNumbers(xs, 1, 3, minValidPrice, maxValidPrice);
    assert Sum(xs[n - 1..]) == xs[n - 1] by { SumOfThree(xs[n - 1..]); }
    assert Sum(xs[n - 2..n - 1]) == xs[n - 2] by { SumOfThree(xs[n - 2..n - 1]); }
    assert Sum(xs[n - 3..]) == xs[n - 3] + xs[n - 2] + xs[n - 1] by { SumOfThree(xs[n - 3..]); }
    assert Sum(xs[n - 4..n - 1]) == xs[n - 4] + xs[n - 3] + xs[n - 2] by { SumOfThree(xs[n - 4..n - 1]); }
  }

  /** `sum` written out for lists of at most three elements. */
  lemma SumOfThree(xs: seq<real>)
    requires 1 <= |xs| <= 3
    ensures |xs| == 1 ==> Sum(xs) == xs[0]
    ensures |xs| == 3 ==> Sum(xs) == xs[0] + xs[1] + xs[2]
  {
    if |xs| == 3 {
      assert xs[..2][..1] == xs[..1];
      assert xs[..1][..0] == [];
    } else if |xs| == 1 {
      assert xs[..0] == [];
    }
  }

  /** With the default bounds the rising series is refused by the sanity gate: its latest
      price, 2, is below 1000. */
  lemma RisingTailHoldsUnderDefaultBounds()
    ensures MovingAverageCrossoverSignal(PriceList(Nums(RisingTail)), 1, 3) == Ok(Hold)
  {
    ValidCallOnNumbers(RisingTail, 1, 3, DefaultMinValidPrice, DefaultMaxValidPrice);
  }

  /** With bounds that admit it, the rising series is an upward cross: BUY. */
  lemma RisingTailBuys()
    ensures MovingAverageCrossoverSignal(PriceList(Nums(RisingTail)), 1, 3, 1.0, 10.0) == Ok(Buy)
  {
    SmallWindows(RisingTail, 1.0, 10.0);
  }

  /** The mirrored series is a downward cross: SELL. */
  lemma FallingTailSells()
    ensures MovingAverageCrossoverSignal(PriceList(Nums(FallingTail)), 1, 3, 1.0, 10.0) == Ok(Sell)
  {
    SmallWindows(FallingTail, 1.0, 10.0);
  }

  /** A spike that has left every window is no cross at all: HOLD, not SELL. */
  lemma EarlySpikeHolds()
    ensures MovingAverageCrossoverSignal(PriceList(Nums(EarlySpike)), 1, 3, 1.0, 10.0) == Ok(Hold)
  {
    SmallWindows(EarlySpike, 1.0, 10.0);
  }

  /** The lower bound is inclusive: a latest price of exactly 1000 reaches the crossover
      rule and buys, while 999 is held. */
  lemma LowerBoundIsInclusive()
    ensures MovingAverageCrossoverSignal(PriceList(Nums([900.0, 900.0, 900.0, 1000.0])), 1, 3) == Ok(Buy)
    ensures MovingAverageCrossoverSignal(PriceList(Nums([900.0, 900.0, 900.0, 999.0])), 1, 3) == Ok(Hold)
  {
    SmallWindows([900.0, 900.0, 900.0, 1000.0], DefaultMinValidPrice, DefaultMaxValidPrice);
    ValidCallOnNumbers([900.0, 900.0, 900.0, 999.0], 1, 3, DefaultMinValidPrice, DefaultMaxValidPrice);
  }

  /** The upper bound is inclusive too: a latest price of exactly 200000 reaches the rule,
      while 200001 is held. */
  lemma UpperBoundIsInclusive()
    ensures MovingAverageCrossoverSignal(PriceList(Nums([300000.0, 300000.0, 300000.0, 200000.0])), 1, 3)
         == Ok(Sell)
    ensures MovingAverageCrossoverSignal(PriceList(Nums([300000.0, 300000.0, 300000.0, 200001.0])), 1, 3)
         == Ok(Hold)
  {
    SmallWindows([300000.0, 300000.0, 300000.0, 200000.0], DefaultMinValidPrice, DefaultMaxValidPrice);
    ValidCallOnNumbers([300000.0, 300000.0, 300000.0, 200001.0], 1, 3, DefaultMinValidPrice, DefaultMaxValidPrice);
  }

  /** Ten prices of 5.0 with windows 2 and 4: every average is 5.0, so HOLD. */
  lemma TenFivesHold()
    ensures MovingAverageCrossoverSignal(PriceList(Nums(seq(10, _ => 5.0))), 2, 4, 1.0, 10.0) == Ok(Hold)
  {
    FlatSeriesHolds(seq(10, _ => 5.0), 5.0, 2, 4, 1.0, 10.0);
  }

  /** Exactly `long_window` prices is one too few. */
  lemma OneShortOfEnoughData()
    ensures MovingAverageCrossoverSignal(PriceList(Nums([1.0, 2.0, 3.0])), 1, 3) == Err(InsufficientData(4))
  {
  }

  /** A short window of 0 or 51 is refused; a long window not above the short one is refused. */
  lemma WindowBoundaries()
    ensures MovingAverageCrossoverSignal(PriceList(Nums(RisingTail)), 0, 3) == Err(ShortWindowOutOfRange)
    ensures MovingAverageCrossoverSignal(PriceList(Nums(RisingTail)), 51, 3) == Err(ShortWindowOutOfRange)
    ensures MovingAverageCrossoverSignal(PriceList(Nums(RisingTail)), 3, 3) == Err(LongWindowOutOfRange)
    ensures MovingAverageCrossoverSignal(PriceList(Nums(RisingTail)), 4, 3) == Err(LongWindowOutOfRange)
  {
  }

  /** A long window of 201 with ten prices reports too little data, not a bad window. */
  lemma OversizedLongWindowReportsData()
    ensures MovingAverageCrossoverSignal(PriceList(Nums(RisingTail)), 1, 201) == Err(InsufficientData(202))
  {
  }
}
