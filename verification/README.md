# SuperTrend indicator and strategy — a Dafny model

This project models the core of `algo.py`: the SuperTrend indicator and the
small trading state machine driven by it.

- **Band engine** (`SuperTrendBand`, module `Bands`): raw bands at the bar
  midpoint plus and minus multiplier × ATR, and the ratcheted final bands,
  a first-order recurrence that starts at bar `period` and afterwards keeps
  either the new raw band or the previous final band depending on that band
  and on the previous close.
- **SuperTrend line** (`SuperTrend`, module `Trend`): starts on the final
  upper band at bar `period`; on every later bar two guarded updates run in
  order, selected by comparing the previous line value with the previous
  final bands, and each keeps or flips the band depending on the current
  close. A bar on which neither guard fires would be left unset (NaN in the
  framework); it is modelled as `None` and proved never to happen.
  An explicitly tagged line (`TaggedLine`) serves as the reference
  definition the equality-based rule is compared with.
- **Strategy** (`SuperTrendStrategy`, module `Strategy`): a status
  (`Flat`/`Short`/`Long` for the source's 0/1/2), an order gate
  `orderId`, a per-bar `Next` that sells when the close is above the line and
  buys when it is below, sized at 0.2 × broker value, and `NotifyOrder`,
  which clears the gate on any report other than Submitted or Accepted.
  `Next` never sets the gate, and the model keeps that literally.
- **Forward pass** (module `Backtest`): the indicator computed in one pass
  that keeps only the previous bar's values, proved equal to the recursive
  definitions, followed by one strategy step per bar. Order reports are not
  fed into this run: with the gate always open they change neither the
  state nor the orders (`NotificationsInvisible`).

Prices are `real`. The ATR series and the broker value at each bar are
inputs (`Feed.atr`, `values`), as they come from the framework. Indices are
bar positions; the indicator and the strategy are first called at bar
`period`.

## Model

| member | source | states |
|---|---|---|
| Bands.BasicBands | algo.py:56-57 | the raw bands sum to high + low and differ by 2 × multiplier × ATR; the upper is not below the lower when ATR and multiplier are non-negative |
| Bands.FinalUpperStep | algo.py:65-68 | the new final upper band is the raw band or the previous final band, never above the raw band; after a close above the previous band it is the raw band, otherwise the minimum of the two; it rises only after such a breakout |
| Bands.FinalLowerStep | algo.py:71-74 | mirror image: the raw band or the previous final band, never below the raw band; the raw band after a close below the previous band, otherwise the maximum of the two; it falls only after such a breakdown |
| Bands.FinalBands | algo.py:59-74 | on every bar from `period` on, the final upper band is at most the raw upper band and the final lower band at least the raw lower band |
| Bands.Bootstrap | algo.py:60-62 | at bar `period` the final bands equal the raw bands, so upper ≥ lower there when ATR and multiplier are non-negative |
| Bands.UpperRatchet | algo.py:65-68 | after `period`, the final upper band is the raw band or the previous final band, and does not rise unless the previous close was above the previous final upper band |
| Bands.LowerRatchet | algo.py:71-74 | after `period`, the final lower band is the raw band or the previous final band, and does not fall unless the previous close was below the previous final lower band |
| Bands.RunningMinUpper | algo.py:65-68 | reference value for the upper band between breakouts: at most the final upper band at the start of the stretch and at most every raw upper band after it |
| Bands.UpperRunningMin | algo.py:65-68 | over a stretch with no close above the final upper band, the final upper band equals the running minimum of its start value and the raw upper bands since |
| Bands.RunningMaxLower | algo.py:71-74 | reference value for the lower band between breakdowns: at least the final lower band at the start of the stretch and at least every raw lower band after it |
| Bands.LowerRunningMax | algo.py:71-74 | over a stretch with no close below the final lower band, the final lower band equals the running maximum of its start value and the raw lower bands since |
| Trend.TaggedStep | algo.py:92-102 | flip rule with an explicit tag: on the upper band it stays iff close ≤ upper, on the lower band it stays iff close ≥ lower; the value is always the band the tag names |
| Trend.Step | algo.py:92-102 | a later bar is defined iff the previous value equals one of the previous bands; its value is then one of the current bands; it follows the lower-band rule whenever the previous value equals the previous lower band (also when it equals both) and the upper-band rule otherwise |
| Trend.Line | algo.py:87-102 | the line is defined on every bar from `period` on, is always exactly the final upper or final lower band of its bar, and starts on the final upper band |
| Trend.TaggedLine | algo.py:88-102 | the tagged reference line always carries the value of the band its tag names |
| Trend.LineMatchesTagged | algo.py:92-102 | the equality-based line equals the tagged reference line on every bar, provided the two final bands never coincided on an earlier bar |
| Trend.TieFollowsLower | algo.py:92-102 | when the previous final bands coincide, the line takes the lower-band rule's result: the second guarded update overwrites the first |
| Trend.FlipFromUpper | algo.py:92-96 | when the previous final bands differ, a line on the upper band stays on it when the close is at or below it and moves to the lower band when the close is above it (a tie follows the lower-band rule, see TieFollowsLower) |
| Trend.FlipFromLower | algo.py:98-102 | a line on the lower band stays on the lower band when the close is at or above it and moves to the upper band when the close is below it |
| Strategy.NotifyOrder | algo.py:20-24 | a Submitted or Accepted report keeps the gate, every other report clears it; the status never changes |
| Strategy.Next | algo.py:26-36 | with a pending order nothing happens; otherwise a sell is issued iff close > line and the status is not Short, a buy iff close < line and the status is not Long; at most one order, sized 0.2 × broker value; the status becomes the side of the order, and a close equal to the line changes nothing |
| Strategy.GateStaysOpen | algo.py:13-36 | from a state with no pending order (the initial state among them) the order gate stays open after any sequence of bars and order reports |
| Strategy.NotificationsInvisible | algo.py:20-24 | with the gate open, a run over bars interleaved with any order reports has the same final state and the same orders as the run over the bars alone |
| Strategy.OrdersAlternate | algo.py:26-36 | from the initial state no two consecutive orders have the same side, and the status always names the side of the most recent order (Flat when there is none) |
| Strategy.RunGrowth | algo.py:26-36 | one more event keeps every earlier order and adds at most one; a new order comes from a bar event and has size 0.2 × that bar's broker value |
| Strategy.OrderSizes | algo.py:30-36 | each order has its own issuing event: issuing indices strictly increase (at most one order per event), each names a bar event, and the order's size is 0.2 × that bar's broker value |
| Backtest.Indicator | algo.py:59-102 | the one-pass computation with only previous-bar state yields exactly the recursive final bands and line for every bar from `period` on, and empty series when no bar lies past `period` |
| Backtest.RunBacktest | algo.py:26-36 | the full run issues exactly the strategy's orders over the bar events, with no orders when no bar lies past `period`; `issuedAt[n]` is exactly the bar that issued order n (`period` plus its issuing event's index), those bars strictly increase, and each order is 0.2 × the broker value at its own bar; consecutive orders alternate sides; the gate is open at the end |
| Backtest.EventSizes | algo.py:31-35 | in the run over the bar events, order n is issued by bar `period` + its issuing event's index; those bars strictly increase and lie within the feed; each order is 0.2 × the broker value at that bar |

## Left out

- `main` (algo.py:104-115): data download, framework wiring and plotting are I/O.
- `stop` (algo.py:39-44): it only prints the start value, the end value and the return rate (end value divided by starting cash).
- The ATR indicator (algo.py:55) is the framework's `AverageTrueRange`, not part of this model; the ATR series is an input.
- `broker.getvalue()` and order execution (algo.py:31, 35) are broker calls; the value at each bar is an input and an order is an emitted `Order(side, size)`.
- Floating point: prices are exact reals, so the equality tests of algo.py:92 and 98 are exact; NaN inputs and rounding are not modelled.
- The framework's minimum-period machinery: the model assumes `next` is first called at bar `period` and says nothing about earlier bars.
- `portfolio_value` (algo.py:16) is assigned but never read, so it has no counterpart.
- Order reference numbers: a pending order is an opaque `nat`, and `Some` stands for a truthy order handle (the source tests `if self.order_id:`, so a falsy handle would not block); no run reaches a pending order, since nothing sets it.
