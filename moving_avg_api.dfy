/**
 The moving-average crossover signal: validate a chronological price series and
 two window sizes, short-circuit to HOLD when the latest price is implausible,
 take four simple moving averages (short and long window, ending at the latest
 price and ending one price earlier) and compare them to decide BUY, SELL or HOLD.
 */
module MovingAvgApi {
  import opened PyList

  /** Default sanity bounds on the latest price (a BTC/USD assumption). */
  const DefaultMinValidPrice: real := 1000.0
  const DefaultMaxValidPrice: real := 200000.0

  /** Fixed limits on the window sizes. */
  const MaxShortWindow: int := 50
  const MaxLongWindow: int := 200

  /** One element of the caller's `prices`: an `int` or a `float`, or anything else. */
  datatype Elem = Num(value: real) | NonNum

  /** The caller's `prices` argument: a list or tuple, or some other object. */
  datatype Prices = PriceList(elems: seq<Elem>) | NotListOrTuple

  /** The distinct reasons the call raises `ValueError`. */
  datatype Error =
    | NotAListOrTuple
    | NonNumericElement
    | InsufficientData(required: int)
    | ShortWindowOutOfRange
    | LongWindowOutOfRange

  datatype Signal = Buy | Sell | Hold

  /** What the call does: raise an error, or return a signal. */
  datatype Result = Err(error: Error) | Ok(signal: Signal)

  /** The outcome of validation: the first error found, or the prices as numbers. */
  datatype Checked = Invalid(error: Error) | Valid(values: seq<real>)

  /** The four averages the decision compares. */
  datatype Averages = Averages(shortCur: real, shortPrev: real, longCur: real, longPrev: real)

  predicate AllNumeric(elems: seq<Elem>)
  {
    forall k :: 0 <= k < |elems| ==> elems[k].Num?
  }

  /** The numbers held by an all-numeric list, in order. */
  function Values(elems: seq<Elem>): (r: seq<real>)
    requires AllNumeric(elems)
    ensures |r| == |elems|
    ensures forall k :: 0 <= k < |elems| ==> elems[k] == Num(r[k])
  {
    if elems == [] then [] else Values(elems[..|elems| - 1]) + [elems[|elems| - 1].value]
  }

  /** Everything a successful validation requires of the arguments. */
  predicate ValidArguments(prices: Prices, shortWindow: int, longWindow: int)
  {
    && prices.PriceList?
    && AllNumeric(prices.elems)
    && |prices.elems| >= longWindow + 1
    && 1 <= shortWindow <= MaxShortWindow
    && shortWindow < longWindow <= MaxLongWindow
  }

  /** The checks, in the order the function performs them: container type, element
      types, data sufficiency, short window, long window. */
  function Validate(prices: Prices, shortWindow: int, longWindow: int): (c: Checked)
    ensures c.Valid? <==> ValidArguments(prices, shortWindow, longWindow)
    ensures c.Valid? ==> |c.values| == |prices.elems|
    ensures c.Valid? ==> forall k :: 0 <= k < |c.values| ==> prices.elems[k] == Num(c.values[k])
    ensures c.Invalid? && c.error.InsufficientData? ==>
      prices.PriceList? && c.error.required == longWindow + 1 && c.error.required > |prices.elems|
  {
    if prices.NotListOrTuple? then Invalid(NotAListOrTuple)
    else if !AllNumeric(prices.elems) then Invalid(NonNumericElement)
    else if |prices.elems| < longWindow + 1 then Invalid(InsufficientData(longWindow + 1))
    else if !(1 <= shortWindow <= MaxShortWindow) then Invalid(ShortWindowOutOfRange)
    else if !(shortWindow < longWindow <= MaxLongWindow) then Invalid(LongWindowOutOfRange)
    else Valid(Values(prices.elems))
  }

  /** The arithmetic mean of a non-empty list. */
  function Mean(xs: seq<real>): real
    requires |xs| > 0
  {
    Sum(xs) / |xs| as real
  }

  /** `sum(prices[-w:]) / w`: the window of `w` prices ending at the latest one. The
      slice holds exactly `w` prices, so this is their mean. */
  function CurrentAverage(p: seq<real>, w: int): (m: real)
    requires 1 <= w <= |p|
    ensures m == Mean(p[|p| - w..])
  {
    SuffixSlice(p, w);
    Sum(Slice(p, At(-w), Omitted)) / w as real
  }

  /** `sum(prices[-w-1:-1]) / w`: the same window shifted back by one, leaving out the
      latest price. The slice holds exactly `w` prices, so this is their mean. */
  function PreviousAverage(p: seq<real>, w: int): (m: real)
    requires 1 <= w < |p|
    ensures m == Mean(p[|p| - w - 1..|p| - 1])
  {
    ShiftedSlice(p, w);
    Sum(Slice(p, At(-w - 1), At(-1))) / w as real
  }

  /** The four averages the decision compares. */
  function MovingAverages(p: seq<real>, shortWindow: int, longWindow: int): (a: Averages)
    requires 1 <= shortWindow < longWindow < |p|
    ensures a.shortCur == Mean(p[|p| - shortWindow..])
    ensures a.shortPrev == Mean(p[|p| - shortWindow - 1..|p| - 1])
    ensures a.longCur == Mean(p[|p| - longWindow..])
    ensures a.longPrev == Mean(p[|p| - longWindow - 1..|p| - 1])
  {
    Averages(CurrentAverage(p, shortWindow), PreviousAverage(p, shortWindow),
             CurrentAverage(p, longWindow), PreviousAverage(p, longWindow))
  }

  /** The short average was at or below the long one and is now strictly above it. */
  predicate UpwardCross(a: Averages)
  {
    a.shortPrev <= a.longPrev && a.shortCur > a.longCur
  }

  /** The short average was at or above the long one and is now strictly below it. */
  predicate DownwardCross(a: Averages)
  {
    a.shortPrev >= a.longPrev && a.shortCur < a.longCur
  }

  /** The decision rule, first match wins. The two crossings exclude each other,
      so the order of the tests does not matter: each signal is returned exactly
      when its own condition holds. */
  function Decide(a: Averages): (sig: Signal)
    ensures sig == Buy <==> UpwardCross(a)
    ensures sig == Sell <==> DownwardCross(a)
    ensures sig == Hold <==> !UpwardCross(a) && !DownwardCross(a)
  {
    if UpwardCross(a) then Buy
    else if DownwardCross(a) then Sell
    else Hold
  }

  /** The latest price passes the sanity gate when it lies within the inclusive bounds. */
  predicate InBounds(latest: real, minValidPrice: real, maxValidPrice: real)
  {
    minValidPrice <= latest <= maxValidPrice
  }

  /** `moving_average_crossover_signal(prices, short_window, long_window, min_valid_price, max_valid_price)`. */
  function MovingAverageCrossoverSignal(prices: Prices, shortWindow: int, longWindow: int,
                                        minValidPrice: real := DefaultMinValidPrice,
                                        maxValidPrice: real := DefaultMaxValidPrice): (r: Result)
    ensures r.Ok? <==> ValidArguments(prices, shortWindow, longWindow)
    ensures r.Ok? && !InBounds(prices.elems[|prices.elems| - 1].value, minValidPrice, maxValidPrice) ==>
      r.signal == Hold
    ensures r.Err? && r.error.InsufficientData? ==> r.error.required == longWindow + 1
  {
    match Validate(prices, shortWindow, longWindow)
    case Invalid(e) => Err(e)
    case Valid(p) =>
      var latest := p[|p| - 1];
      if latest < minValidPrice || latest > maxValidPrice then Ok(Hold)
      else Ok(Decide(MovingAverages(p, shortWindow, longWindow)))
  }
}
