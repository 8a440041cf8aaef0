/**
 Properties of the crossover signal that relate several calls or hold for whole
 families of inputs: which error wins when several are present, the inclusive
 sanity gate, the shape of the four windows, the decision in terms of the means,
 flat series, mirrored series, and the fact that only the most recent
 `long_window + 1` prices matter.
 */
module MovingAvgApiProperties {
  import opened PyList
  import opened MovingAvgApi

  /** A list of `int`/`float` prices given as numbers. */
  function Nums(xs: seq<real>): (elems: seq<Elem>)
    ensures |elems| == |xs|
    ensures AllNumeric(elems)
    ensures Values(elems) == xs
  {
    var elems := seq(|xs|, k requires 0 <= k < |xs| => Num(xs[k]));
    assert Values(elems) == xs by {
      assert forall k :: 0 <= k < |xs| ==> Values(elems)[k] == xs[k];
    }
    elems
  }

  /** The call on a list of numbers that passes validation: HOLD outside the bounds,
      the crossover rule on the averages of the numbers inside them. */
  lemma ValidCallOnNumbers(xs: seq<real>, shortWindow: int, longWindow: int,
                           minValidPrice: real, maxValidPrice: real)
    requires ValidArguments(PriceList(Nums(xs)), shortWindow, longWindow)
    ensures MovingAverageCrossoverSignal(PriceList(Nums(xs)), shortWindow, longWindow, minValidPrice, maxValidPrice)
         == if InBounds(xs[|xs| - 1], minValidPrice, maxValidPrice)
            then Ok(Decide(MovingAverages(xs, shortWindow, longWindow)))
            else Ok(Hold)
  {
    assert Validate(PriceList(Nums(xs)), shortWindow, longWindow) == Valid(xs);
  }

  // ---------------------------------------------------------------------------
  // Validation order

  /** An argument that is not a list or tuple is refused first, whatever the windows. */
  lemma NotListOrTupleFirst(shortWindow: int, longWindow: int, minValidPrice: real, maxValidPrice: real)
    ensures MovingAverageCrossoverSignal(NotListOrTuple, shortWindow, longWindow, minValidPrice, maxValidPrice)
         == Err(NotAListOrTuple)
  {
  }

  /** A non-numeric element anywhere is reported before the length and the windows are looked at. */
  lemma NonNumericBeforeLength(elems: seq<Elem>, k: nat, shortWindow: int, longWindow: int,
                               minValidPrice: real, maxValidPrice: real)
    requires k < |elems| && elems[k] == NonNum
    ensures MovingAverageCrossoverSignal(PriceList(elems), shortWindow, longWindow, minValidPrice, maxValidPrice)
         == Err(NonNumericElement)
  {
  }

  /** Too few prices is reported, with `long_window + 1` as the required minimum, before the
      windows are checked: even an out-of-range `long_window` gives this error. */
  lemma InsufficientBeforeWindows(xs: seq<real>, shortWindow: int, longWindow: int,
                                  minValidPrice: real, maxValidPrice: real)
    requires |xs| < longWindow + 1
    ensures MovingAverageCrossoverSignal(PriceList(Nums(xs)), shortWindow, longWindow, minValidPrice, maxValidPrice)
         == Err(InsufficientData(longWindow + 1))
  {
  }

  /** With enough numeric data, a `short_window` outside `[1, 50]` is reported before `long_window` is looked at. */
  lemma ShortWindowBeforeLongWindow(xs: seq<real>, shortWindow: int, longWindow: int,
                                    minValidPrice: real, maxValidPrice: real)
    requires |xs| >= longWindow + 1
    requires !(1 <= shortWindow <= 50)
    ensures MovingAverageCrossoverSignal(PriceList(Nums(xs)), shortWindow, longWindow, minValidPrice, maxValidPrice)
         == Err(ShortWindowOutOfRange)
  {
  }

  /** With enough numeric data and a good `short_window`, a `long_window` outside
      `(short_window, 200]` is the error. */
  lemma LongWindowChecked(xs: seq<real>, shortWindow: int, longWindow: int,
                          minValidPrice: real, maxValidPrice: real)
    requires |xs| >= longWindow + 1
    requires 1 <= shortWindow <= 50
    requires !(shortWindow < longWindow <= 200)
    ensures MovingAverageCrossoverSignal(PriceList(Nums(xs)), shortWindow, longWindow, minValidPrice, maxValidPrice)
         == Err(LongWindowOutOfRange)
  {
  }

  // ---------------------------------------------------------------------------
  // The four windows

  /** Once validation has passed, every slice bound is inside the list (no clamping
      happens) and each of the four slices holds exactly its window's number of prices:
      the last `w`, and the `w` before the last price. */
  lemma SlicesHoldTheirWindows(prices: Prices, shortWindow: int, longWindow: int)
    requires ValidArguments(prices, shortWindow, longWindow)
    ensures var p := Values(prices.elems);
      && -|p| <= -longWindow - 1 < -shortWindow - 1 < -1
      && -|p| <= -longWindow < -shortWindow < 0
      && Slice(p, At(-shortWindow), Omitted) == p[|p| - shortWindow..]
      && Slice(p, At(-shortWindow - 1), At(-1)) == p[|p| - shortWindow - 1..|p| - 1]
      && Slice(p, At(-longWindow), Omitted) == p[|p| - longWindow..]
      && Slice(p, At(-longWindow - 1), At(-1)) == p[|p| - longWindow - 1..|p| - 1]
      && |Slice(p, At(-shortWindow), Omitted)| == shortWindow
      && |Slice(p, At(-shortWindow - 1), At(-1))| == shortWindow
      && |Slice(p, At(-longWindow), Omitted)| == longWindow
      && |Slice(p, At(-longWindow - 1), At(-1))| == longWindow
  {
    var p := Values(prices.elems);
    SuffixSlice(p, shortWindow);
    ShiftedSlice(p, shortWindow);
    SuffixSlice(p, longWindow);
    ShiftedSlice(p, longWindow);
  }

  /** Today's average of a window differs from yesterday's by the price that entered
      minus the price that left, divided by the window size. */
  lemma CurrentFromPrevious(p: seq<real>, w: int)
    requires 1 <= w < |p|
    ensures Mean(p[|p| - w..]) == Mean(p[|p| - w - 1..|p| - 1]) + (p[|p| - 1] - p[|p| - w - 1]) / w as real
  {
    var i := |p| - w - 1;
    SumWindowShift(p, i, w);
    assert p[i + 1..i + w + 1] == p[|p| - w..];
  }

  // ---------------------------------------------------------------------------
  // Sanity gate and decision

  /** The gate is inclusive: a latest price inside the bounds, including one exactly equal
      to either bound, goes on to the crossover rule. */
  lemma InBoundsReachesDecision(prices: Prices, shortWindow: int, longWindow: int,
                                minValidPrice: real, maxValidPrice: real)
    requires ValidArguments(prices, shortWindow, longWindow)
    requires InBounds(prices.elems[|prices.elems| - 1].value, minValidPrice, maxValidPrice)
    ensures MovingAverageCrossoverSignal(prices, shortWindow, longWindow, minValidPrice, maxValidPrice)
         == Ok(Decide(MovingAverages(Values(prices.elems), shortWindow, longWindow)))
  {
    var p := Values(prices.elems);
    assert Validate(prices, shortWindow, longWindow) == Valid(p);
    assert prices.elems[|p| - 1] == Num(p[|p| - 1]);
  }

  /** A latest price strictly below the lower bound or strictly above the upper one
      gives HOLD, whatever the averages are. */
  lemma OutOfBoundsHolds(prices: Prices, shortWindow: int, longWindow: int,
                         minValidPrice: real, maxValidPrice: real)
    requires ValidArguments(prices, shortWindow, longWindow)
    requires prices.elems[|prices.elems| - 1].value < minValidPrice
          || prices.elems[|prices.elems| - 1].value > maxValidPrice
    ensures MovingAverageCrossoverSignal(prices, shortWindow, longWindow, minValidPrice, maxValidPrice) == Ok(Hold)
  {
    var p := Values(prices.elems);
    assert Validate(prices, shortWindow, longWindow) == Valid(p);
    assert prices.elems[|p| - 1] == Num(p[|p| - 1]);
  }

  /** The signal in terms of the means of the named windows: BUY exactly on an upward
      cross, SELL exactly on a downward cross, HOLD otherwise, and never both. */
  lemma DecisionFromMeans(xs: seq<real>, shortWindow: int, longWindow: int,
                          minValidPrice: real, maxValidPrice: real)
    requires ValidArguments(PriceList(Nums(xs)), shortWindow, longWindow)
    requires InBounds(xs[|xs| - 1], minValidPrice, maxValidPrice)
    ensures var n := |xs|;
      var shortCur := Mean(xs[n - shortWindow..]);
      var shortPrev := Mean(xs[n - shortWindow - 1..n - 1]);
      var longCur := Mean(xs[n - longWindow..]);
      var longPrev := Mean(xs[n - longWindow - 1..n - 1]);
      var r := MovingAverageCrossoverSignal(PriceList(Nums(xs)), shortWindow, longWindow, minValidPrice, maxValidPrice);
      && (r == Ok(Buy) <==> shortPrev <= longPrev && shortCur > longCur)
      && (r == Ok(Sell) <==> shortPrev >= longPrev && shortCur < longCur)
      && (r == Ok(Hold) <==>
            !(shortPrev <= longPrev && shortCur > longCur) && !(shortPrev >= longPrev && shortCur < longCur))
  {
    ValidCallOnNumbers(xs, shortWindow, longWindow, minValidPrice, maxValidPrice);
    var a := MovingAverages(xs, shortWindow, longWindow);
    assert Decide(a) == Buy <==> UpwardCross(a);
    assert Decide(a) == Sell <==> DownwardCross(a);
  }

  /** A flat series gives HOLD, whatever the bounds: every average equals the common
      price, so no strict comparison holds. */
  lemma {:induction false} FlatSeriesHolds(xs: seq<real>, c: real, shortWindow: int, longWindow: int,
                                           minValidPrice: real, maxValidPrice: real)
    requires forall k :: 0 <= k < |xs| ==> xs[k] == c
    requires ValidArguments(PriceList(Nums(xs)), shortWindow, longWindow)
    ensures MovingAverageCrossoverSignal(PriceList(Nums(xs)), shortWindow, longWindow, minValidPrice, maxValidPrice)
         == Ok(Hold)
  {
    ValidCallOnNumbers(xs, shortWindow, longWindow, minValidPrice, maxValidPrice);
    FlatCurrentAverage(xs, c, shortWindow);
    FlatPreviousAverage(xs, c, shortWindow);
    FlatCurrentAverage(xs, c, longWindow);
    FlatPreviousAverage(xs, c, longWindow);
    assert MovingAverages(xs, shortWindow, longWindow) == Averages(c, c, c, c);
  }

  lemma FlatCurrentAverage(xs: seq<real>, c: real, w: int)
    requires forall k :: 0 <= k < |xs| ==> xs[k] == c
    requires 1 <= w <= |xs|
    ensures CurrentAverage(xs, w) == c
  {
    FlatWindowMean(xs, c, |xs| - w, |xs|);
    assert xs[|xs| - w..|xs|] == xs[|xs| - w..];
  }

  lemma FlatPreviousAverage(xs: seq<real>, c: real, w: int)
    requires forall k :: 0 <= k < |xs| ==> xs[k] == c
    requires 1 <= w < |xs|
    ensures PreviousAverage(xs, w) == c
  {
    FlatWindowMean(xs, c, |xs| - w - 1, |xs| - 1);
  }

  lemma FlatWindowMean(xs: seq<real>, c: real, i: int, j: int)
    requires forall k :: 0 <= k < |xs| ==> xs[k] == c
    requires 0 <= i < j <= |xs|
    ensures Mean(xs[i..j]) == c
  {
    SumConstant(xs[i..j], c);
  }

  // ---------------------------------------------------------------------------
  // Mirrored series

  function Opposite(sig: Signal): (o: Signal)
    ensures (sig == Buy <==> o == Sell) && (sig == Sell <==> o == Buy) && (sig == Hold <==> o == Hold)
  {
    match sig
    case Buy => Sell
    case Sell => Buy
    case Hold => Hold
  }

  /** Negating every price (and mirroring the bounds) turns every upward cross into a
      downward one and back: BUY and SELL swap, HOLD and every error stay. */
  lemma MirroredSeriesSwapsSignal(xs: seq<real>, shortWindow: int, longWindow: int,
                                  minValidPrice: real, maxValidPrice: real)
    ensures var r := MovingAverageCrossoverSignal(PriceList(Nums(xs)), shortWindow, longWindow,
                                                  minValidPrice, maxValidPrice);
      var m := MovingAverageCrossoverSignal(PriceList(Nums(Negated(xs))), shortWindow, longWindow,
                                            -maxValidPrice, -minValidPrice);
      && (r.Err? ==> m == r)
      && (r.Ok? ==> m == Ok(Opposite(r.signal)))
  {
    var ys := Negated(xs);
    if ValidArguments(PriceList(Nums(xs)), shortWindow, longWindow) {
      assert ValidArguments(PriceList(Nums(ys)), shortWindow, longWindow);
      ValidCallOnNumbers(xs, shortWindow, longWindow, minValidPrice, maxValidPrice);
      ValidCallOnNumbers(ys, shortWindow, longWindow, -maxValidPrice, -minValidPrice);
      var latest := xs[|xs| - 1];
      assert ys[|ys| - 1] == -latest;
      if InBounds(latest, minValidPrice, maxValidPrice) {
        assert InBounds(-latest, -maxValidPrice, -minValidPrice);
        MirroredAverages(xs, shortWindow, longWindow);
      } else {
        assert !InBounds(-latest, -maxValidPrice, -minValidPrice);
      }
    } else {
      InvalidCallIgnoresValues(xs, ys, shortWindow, longWindow,
                               minValidPrice, maxValidPrice, -maxValidPrice, -minValidPrice);
    }
  }

  /** A call on numbers that fails validation fails on the length and the windows alone:
      the values and the bounds play no part. */
  lemma InvalidCallIgnoresValues(xs: seq<real>, ys: seq<real>, shortWindow: int, longWindow: int,
                                 min1: real, max1: real, min2: real, max2: real)
    requires |xs| == |ys|
    requires !ValidArguments(PriceList(Nums(xs)), shortWindow, longWindow)
    ensures MovingAverageCrossoverSignal(PriceList(Nums(xs)), shortWindow, longWindow, min1, max1)
         == MovingAverageCrossoverSignal(PriceList(Nums(ys)), shortWindow, longWindow, min2, max2)
  {
  }

  /** The averages of the negated series are the negated averages, so the crossings swap. */
  lemma MirroredAverages(xs: seq<real>, shortWindow: int, longWindow: int)
    requires 1 <= shortWindow < longWindow < |xs|
    ensures Decide(MovingAverages(Negated(xs), shortWindow, longWindow))
         == Opposite(Decide(MovingAverages(xs, shortWindow, longWindow)))
  {
    CurrentAverageNegated(xs, shortWindow);
    PreviousAverageNegated(xs, shortWindow);
    CurrentAverageNegated(xs, longWindow);
    PreviousAverageNegated(xs, longWindow);
    var a := MovingAverages(xs, shortWindow, longWindow);
    assert MovingAverages(Negated(xs), shortWindow, longWindow) == NegatedAverages(a);
    DecideNegated(a);
  }

  lemma CurrentAverageNegated(xs: seq<real>, w: int)
    requires 1 <= w <= |xs|
    ensures CurrentAverage(Negated(xs), w) == -CurrentAverage(xs, w)
  {
    var n := |xs|;
    MeanNegated(xs, n - w, n);
    assert xs[n - w..n] == xs[n - w..];
    assert Negated(xs)[n - w..n] == Negated(xs)[n - w..];
  }

  lemma PreviousAverageNegated(xs: seq<real>, w: int)
    requires 1 <= w < |xs|
    ensures PreviousAverage(Negated(xs), w) == -PreviousAverage(xs, w)
  {
    MeanNegated(xs, |xs| - w - 1, |xs| - 1);
  }

  function NegatedAverages(a: Averages): Averages
  {
    Averages(-a.shortCur, -a.shortPrev, -a.longCur, -a.longPrev)
  }

  /** Negating all four averages swaps the upward and the downward cross. */
  lemma DecideNegated(a: Averages)
    ensures Decide(NegatedAverages(a)) == Opposite(Decide(a))
  {
  }

  lemma MeanNegated(xs: seq<real>, i: int, j: int)
    requires 0 <= i < j <= |xs|
    ensures Mean(Negated(xs)[i..j]) == -Mean(xs[i..j])
  {
    assert Negated(xs)[i..j] == Negated(xs[i..j]);
    SumNegated(xs[i..j]);
    NegateQuotient(Sum(xs[i..j]), (j - i) as real);
  }

  lemma NegateQuotient(t: real, w: real)
    requires w > 0.0
    ensures (-t) / w == -(t / w)
  {
  }

  // ---------------------------------------------------------------------------
  // Locality

  /** Only the most recent prices matter: putting any numeric history in front of a
      series that already passes validation changes nothing. */
  lemma OlderPricesDoNotMatter(older: seq<real>, recent: seq<real>, shortWindow: int, longWindow: int,
                               minValidPrice: real, maxValidPrice: real)
    requires ValidArguments(PriceList(Nums(recent)), shortWindow, longWindow)
    ensures MovingAverageCrossoverSignal(PriceList(Nums(older + recent)), shortWindow, longWindow,
                                         minValidPrice, maxValidPrice)
         == MovingAverageCrossoverSignal(PriceList(Nums(recent)), shortWindow, longWindow,
                                         minValidPrice, maxValidPrice)
  {
    var all := older + recent;
    assert ValidArguments(PriceList(Nums(all)), shortWindow, longWindow);
    ValidCallOnNumbers(all, shortWindow, longWindow, minValidPrice, maxValidPrice);
    ValidCallOnNumbers(recent, shortWindow, longWindow, minValidPrice, maxValidPrice);
    assert all[|all| - 1] == recent[|recent| - 1];
    CurrentAverageOfSuffix(older, recent, shortWindow);
    PreviousAverageOfSuffix(older, recent, shortWindow);
    CurrentAverageOfSuffix(older, recent, longWindow);
    PreviousAverageOfSuffix(older, recent, longWindow);
    assert MovingAverages(all, shortWindow, longWindow) == MovingAverages(recent, shortWindow, longWindow);
  }

  lemma CurrentAverageOfSuffix(older: seq<real>, recent: seq<real>, w: int)
    requires 1 <= w <= |recent|
    ensures CurrentAverage(older + recent, w) == CurrentAverage(recent, w)
  {
    var all := older + recent;
    var window := all[|all| - w..];
    assert window == recent[|recent| - w..] by {
      assert forall k :: 0 <= k < w ==> window[k] == recent[|recent| - w + k];
    }
  }

  lemma PreviousAverageOfSuffix(older: seq<real>, recent: seq<real>, w: int)
    requires 1 <= w < |recent|
    ensures PreviousAverage(older + recent, w) == PreviousAverage(recent, w)
  {
    var all := older + recent;
    var window := all[|all| - w - 1..|all| - 1];
    assert window == recent[|recent| - w - 1..|recent| - 1] by {
      assert forall k :: 0 <= k < w ==> window[k] == recent[|recent| - w - 1 + k];
    }
  }
}
