# Moving-average crossover signal

A Dafny model of `moving_average_crossover_signal`, a pure function that turns a
chronological series of asset prices (oldest first) and two window sizes into a
trading signal, BUY, SELL or HOLD. The call proceeds in four steps:

1. **Validation**, in a fixed order. First the argument must be a list or tuple. Then every
   element must be an `int` or a `float`. Then there must be at least `long_window + 1`
   prices. Then `short_window` must lie in `[1, 50]`. Last, `long_window` must lie in
   `(short_window, 200]`. Every failure raises `ValueError`; the model keeps the five
   causes apart (`MovingAvgApi.Error`), and the data-sufficiency error carries the
   required minimum `long_window + 1`.
2. **Sanity gate**: a latest price strictly below `min_valid_price` (default 1000) or
   strictly above `max_valid_price` (default 200000) returns HOLD. It is not an error.
3. **Four simple moving averages**: `sum(prices[-w:]) / w` and `sum(prices[-w-1:-1]) / w`,
   for `w` = `short_window` and `w` = `long_window`.
4. **Decision**: BUY when the short average was at or below the long one and is now
   strictly above it. SELL on the mirror condition. HOLD otherwise.

Files:

- `pylist.dfy`, module `PyList`: the Python list semantics the function relies on.
  This covers slice bounds, which count from the end when negative and are clamped,
  and the builtin `sum`, a left fold from 0. It also proves lemmas about both.
- `moving_avg_api.dfy`, module `MovingAvgApi`: the data model, the validation, the
  averages, the decision rule and the function itself. The defaults 1000 and 200000 are
  Dafny default parameter values.
- `properties.dfy`, module `MovingAvgApiProperties`: properties that hold whole families
  of calls together. These cover which error wins, the inclusive gate, the windows,
  flat and mirrored series, and locality.
- `scenarios.dfy`, module `MovingAvgApiScenarios`: concrete calls.

Two behaviours of the code are easy to misread, and the model follows the code:

- `[1, 1, 1, 1, 1, 1, 1, 1, 1, 2]` with windows 1 and 3 is an upward cross. Called with the
  default bounds it still returns HOLD, because its latest price 2 is below 1000
  (`RisingTailHoldsUnderDefaultBounds`). It buys only under bounds that admit the
  price (`RisingTailBuys`).
- `[2, 1, 1, 1, 1, 1, 1, 1, 1, 1]` with windows 1 and 3 is not a downward cross: the 2
  lies outside all four windows, so every average is 1 and the result is HOLD
  (`EarlySpikeHolds`). The true mirror image of the rising series, nine 2s then a 1,
  does sell (`FallingTailSells`).

Prices are exact `real`s, so the model has no floating-point rounding. Being a Dafny
function, the model is deterministic: two calls with the same arguments give the same result.

## Model

| member | source | states |
|---|---|---|
| `PyList.SuffixSlice` | moving_avg_api.py:50 | for `1 <= w <= len`, the bound `-w` is in range and `s[-w:]` is exactly the last `w` elements |
| `PyList.ShiftedSlice` | moving_avg_api.py:51 | for `1 <= w < len`, both bounds of `s[-w-1:-1]` are in range and the slice is exactly the `w` elements before the last one |
| `PyList.ZeroWindowSliceIsWhole` | moving_avg_api.py:38-39 | `s[-0:]` is the whole list, which is why a window of 0 must be refused before slicing |
| `PyList.SumConcat` | moving_avg_api.py:50-54 | `sum` of a concatenation is the sum of the two sums |
| `PyList.SumConstant` | moving_avg_api.py:50-54 | `sum` of `k` copies of `c` is `k * c` |
| `PyList.SumNegated` | moving_avg_api.py:50-54 | `sum` of the negated list is the negated sum |
| `PyList.SumWindowShift` | moving_avg_api.py:50-54 | sliding a window one place adds the entering element and subtracts the leaving one |
| `MovingAvgApi.Values` | moving_avg_api.py:33 | an all-numeric list read as numbers keeps its length and each element's value |
| `MovingAvgApi.Validate` | moving_avg_api.py:31-41 | validation succeeds exactly when all five checks pass; on success the values are the list's numbers; the data error carries `long_window + 1`, which exceeds the length |
| `MovingAvgApi.CurrentAverage` | moving_avg_api.py:50 | `sum(prices[-w:]) / w` is the mean of the last `w` prices |
| `MovingAvgApi.PreviousAverage` | moving_avg_api.py:51 | `sum(prices[-w-1:-1]) / w` is the mean of the `w` prices before the latest one |
| `MovingAvgApi.MovingAverages` | moving_avg_api.py:50-54 | the four averages are the means of the four named windows |
| `MovingAvgApi.Decide` | moving_avg_api.py:57-62 | BUY exactly on an upward cross, SELL exactly on a downward cross, HOLD exactly when neither; so the two crosses never both hold |
| `MovingAvgApi.MovingAverageCrossoverSignal` | moving_avg_api.py:1-62 | the call returns a signal exactly when the arguments pass validation; a latest price outside the bounds gives HOLD; the data error carries `long_window + 1` |
| `MovingAvgApiProperties.ValidCallOnNumbers` | moving_avg_api.py:43-62 | a valid call on numbers is HOLD outside the bounds and the decision on the four averages inside them |
| `MovingAvgApiProperties.NotListOrTupleFirst` | moving_avg_api.py:31-32 | an argument that is not a list or tuple is refused first, whatever the windows and bounds |
| `MovingAvgApiProperties.NonNumericBeforeLength` | moving_avg_api.py:33-34 | one non-numeric element anywhere gives the non-numeric error, whatever the length and windows |
| `MovingAvgApiProperties.InsufficientBeforeWindows` | moving_avg_api.py:35-41 | fewer than `long_window + 1` numbers gives the data error with that minimum, even when the windows are also out of range |
| `MovingAvgApiProperties.ShortWindowBeforeLongWindow` | moving_avg_api.py:38-41 | with enough data, a `short_window` outside `[1, 50]` is reported whatever `long_window` is |
| `MovingAvgApiProperties.LongWindowChecked` | moving_avg_api.py:40-41 | with enough data and a good `short_window`, a `long_window` outside `(short_window, 200]` is reported |
| `MovingAvgApiProperties.InvalidCallIgnoresValues` | moving_avg_api.py:31-41 | a call on numbers that fails validation fails the same way for any values of the same length and any bounds |
| `MovingAvgApiProperties.SlicesHoldTheirWindows` | moving_avg_api.py:35-54 | once validation passes, no slice bound is clamped and each of the four slices holds exactly its window's number of prices |
| `MovingAvgApiProperties.CurrentFromPrevious` | moving_avg_api.py:50-54 | today's average is yesterday's plus (entering price minus leaving price) / `w` |
| `MovingAvgApiProperties.InBoundsReachesDecision` | moving_avg_api.py:44-62 | a latest price inside the inclusive bounds, either bound included, reaches the decision rule |
| `MovingAvgApiProperties.OutOfBoundsHolds` | moving_avg_api.py:44-47 | after validation, a latest price strictly outside the bounds gives HOLD |
| `MovingAvgApiProperties.DecisionFromMeans` | moving_avg_api.py:50-62 | for a valid, in-bounds call, BUY iff short-previous ≤ long-previous and short-current > long-current, SELL iff the mirror holds, HOLD iff neither, each in terms of the means of the windows |
| `MovingAvgApiProperties.FlatSeriesHolds` | moving_avg_api.py:50-62 | a valid call on a constant series gives HOLD, whatever the bounds |
| `MovingAvgApiProperties.DecideNegated` | moving_avg_api.py:57-62 | negating all four averages swaps BUY and SELL and keeps HOLD |
| `MovingAvgApiProperties.MirroredAverages` | moving_avg_api.py:50-62 | the decision on the negated series is the opposite of the decision on the series |
| `MovingAvgApiProperties.MirroredSeriesSwapsSignal` | moving_avg_api.py:31-62 | negating the series and mirroring the bounds swaps BUY and SELL and keeps HOLD and every error |
| `MovingAvgApiProperties.OlderPricesDoNotMatter` | moving_avg_api.py:44-54 | putting older prices in front of a series that passes validation leaves the result unchanged |
| `MovingAvgApiScenarios.SmallWindows` | moving_avg_api.py:50-62 | with windows 1 and 3, the four averages are the last price, the one before it, and the two three-price means |
| `MovingAvgApiScenarios.RisingTailHoldsUnderDefaultBounds` | moving_avg_api.py:44-47 | nine 1s then a 2 gives HOLD under the default bounds |
| `MovingAvgApiScenarios.RisingTailBuys` | moving_avg_api.py:57-58 | nine 1s then a 2 gives BUY with windows 1 and 3 when the bounds admit it |
| `MovingAvgApiScenarios.FallingTailSells` | moving_avg_api.py:59-60 | nine 2s then a 1 gives SELL with windows 1 and 3 |
| `MovingAvgApiScenarios.EarlySpikeHolds` | moving_avg_api.py:61-62 | a 2 followed by nine 1s gives HOLD with windows 1 and 3 |
| `MovingAvgApiScenarios.LowerBoundIsInclusive` | moving_avg_api.py:45 | a latest price of exactly 1000 reaches the rule and buys; 999 is held |
| `MovingAvgApiScenarios.UpperBoundIsInclusive` | moving_avg_api.py:45 | a latest price of exactly 200000 reaches the rule and sells; 200001 is held |
| `MovingAvgApiScenarios.TenFivesHold` | moving_avg_api.py:57-62 | ten prices of 5.0 with windows 2 and 4 give HOLD |
| `MovingAvgApiScenarios.OneShortOfEnoughData` | moving_avg_api.py:35-36 | exactly `long_window` prices is one too few |
| `MovingAvgApiScenarios.WindowBoundaries` | moving_avg_api.py:38-41 | `short_window` 0 or 51 is refused; `long_window` equal to or below `short_window` is refused |
| `MovingAvgApiScenarios.OversizedLongWindowReportsData` | moving_avg_api.py:35-41 | `long_window` 201 with ten prices reports too little data, not a bad window |

## Left out

- Floating point: `sum(...) / w` is modelled with exact real arithmetic, so rounding, NaN and infinities are not modelled.
- Python's dynamic types are reduced to the model's datatypes. `bool` counts as an `int` in Python; the model does not show this. A list and a tuple are the same case. Any other object is `NotListOrTuple`.
- Window arguments are modelled as integers. A `float` window, which Python would compare and then fail to slice with, is not modelled.
- The `ValueError` message strings are left out; the model keeps only the error kind and the required minimum.
- Bounds are modelled as real numbers. Non-numeric bounds, which would make Python's comparison raise `TypeError`, are not modelled.
- There is no I/O, state or concurrency in the source, so there is nothing of that kind to leave out.
