/** One forward pass over the bars, as the framework drives it: the band and
    SuperTrend recurrences keep only the previous bar's values, and the
    strategy sees one bar event per bar from `period` on. */
module Backtest {
  import opened Options
  import opened Bands
  import opened Trend
  import opened Strategy

  /** Number of bars on which the indicators are defined. */
  function DefinedBars(f: Feed, p: Params): nat
  {
    if |f.bars| > p.period then |f.bars| - p.period else 0
  }

  /** The bar events the strategy receives: for each bar from `period` on,
      its close, the SuperTrend value and the broker's value at that bar. */
  function BarEvents(f: Feed, p: Params, values: seq<real>): (r: seq<Event>)
    requires f.Valid() && |values| == |f.bars|
    ensures |r| == DefinedBars(f, p)
    ensures forall k :: 0 <= k < |r| ==> r[k].BarEvent? && r[k].value == values[p.period + k]
  {
    seq(DefinedBars(f, p), k requires 0 <= k < DefinedBars(f, p) =>
      BarEvent(f.bars[p.period + k].close, Line(f, p, p.period + k).value, values[p.period + k]))
  }

  /** The k-th bar event carries bar `period + k`'s close, SuperTrend value
      and broker value. */
  lemma BarEventAt(f: Feed, p: Params, values: seq<real>, k: nat)
    requires f.Valid() && |values| == |f.bars| && k < DefinedBars(f, p)
    ensures BarEvents(f, p, values)[k] ==
              BarEvent(f.bars[p.period + k].close, Line(f, p, p.period + k).value, values[p.period + k])
  {
  }

  /** The final bands and the SuperTrend line of every bar from `period` on,
      computed in one forward pass that keeps only the previous bar's values.
      A feed with no bar past `period` yields empty series. */
  method Indicator(f: Feed, p: Params) returns (bands: seq<BandPair>, line: seq<real>)
    requires f.Valid()
    ensures |bands| == DefinedBars(f, p) && |line| == DefinedBars(f, p)
    ensures forall k :: 0 <= k < |bands| ==> bands[k] == FinalBands(f, p, p.period + k)
    ensures forall k :: 0 <= k < |line| ==> Some(line[k]) == Line(f, p, p.period + k)
    ensures forall k :: 0 <= k < |line| ==> line[k] == bands[k].upper || line[k] == bands[k].lower
  {
    if |f.bars| <= p.period {
      return [], [];
    }
    var prevBands := BasicBands(f.bars[p.period], f.atr[p.period], p.multiplier);
    var prevLine := prevBands.upper;
    bands, line := [prevBands], [prevLine];
    var i := p.period + 1;
    while i < |f.bars|
      invariant p.period < i <= |f.bars|
      invariant |bands| == i - p.period && |line| == i - p.period
      invariant prevBands == FinalBands(f, p, i - 1)
      invariant Some(prevLine) == Line(f, p, i - 1)
      invariant forall k :: 0 <= k < |bands| ==> bands[k] == FinalBands(f, p, p.period + k)
      invariant forall k :: 0 <= k < |line| ==> Some(line[k]) == Line(f, p, p.period + k)
      decreases |f.bars| - i
    {
      var basic := BasicBands(f.bars[i], f.atr[i], p.multiplier);
      var prevClose := f.bars[i - 1].close;
      var cur := BandPair(FinalUpperStep(basic.upper, prevBands.upper, prevClose),
                          FinalLowerStep(basic.lower, prevBands.lower, prevClose));
      var next := Step(prevLine, prevBands, cur, f.bars[i].close);
      prevBands, prevLine := cur, next.value;
      bands, line := bands + [cur], line + [prevLine];
      i := i + 1;
    }
  }

  /** `issuedAt[n]` names the bar, within lo..hi-1, that issued order n:
      the bars strictly increase, and order n has size OrderSize of the
      broker value at its bar. */
  predicate IssuedBy(orders: seq<Order>, issuedAt: seq<nat>, values: seq<real>, lo: nat, hi: nat)
  {
    && |issuedAt| == |orders|
    && (forall n :: 0 <= n < |issuedAt| ==> lo <= issuedAt[n] < hi && issuedAt[n] < |values|)
    && (forall n, m :: 0 <= n < m < |issuedAt| ==> issuedAt[n] < issuedAt[m])
    && (forall n :: 0 <= n < |orders| ==> orders[n].size == OrderSize(values[issuedAt[n]]))
  }

  /** The whole run: the indicator pass followed by one strategy step per bar
      from `period` on. It issues exactly the orders of the strategy applied
      to BarEvents. `issuedAt[n]` is the bar that issued order n (bar
      `period` plus the index of the event Issuers names for it): bars issue
      orders in order and at most one each, and every order is a fifth of the
      broker value at its own bar. No two consecutive orders share a side and
      the gate stays open. */
  method RunBacktest(f: Feed, p: Params, values: seq<real>)
      returns (orders: seq<Order>, issuedAt: seq<nat>, state: State)
    requires f.Valid() && |values| == |f.bars|
    ensures StepResult(state, orders) == Run(Init, BarEvents(f, p, values))
    ensures |f.bars| <= p.period ==> orders == [] && state == Init
    ensures IssuedBy(orders, issuedAt, values, p.period, |f.bars|)
    ensures |issuedAt| == |Issuers(Init, BarEvents(f, p, values))|
    ensures forall n :: 0 <= n < |issuedAt| ==> issuedAt[n] == p.period + Issuers(Init, BarEvents(f, p, values))[n]
    ensures Alternating(orders) && StatusMatches(state, orders)
    ensures state.orderId.None?
  {
    var bands, line := Indicator(f, p);
    orders, issuedAt, state := Trade(f, p, values, line);
    IssuersAreIssuedBy(f, p, values, issuedAt);
    OrdersAlternate(BarEvents(f, p, values));
    GateStaysOpen(Init, BarEvents(f, p, values));
  }

  /** The strategy steps of RunBacktest, given the SuperTrend value of every
      bar from `period` on. */
  method Trade(f: Feed, p: Params, values: seq<real>, line: seq<real>)
      returns (orders: seq<Order>, issuedAt: seq<nat>, state: State)
    requires f.Valid() && |values| == |f.bars|
    requires |line| == DefinedBars(f, p)
    requires forall k :: 0 <= k < |line| ==> Some(line[k]) == Line(f, p, p.period + k)
    ensures StepResult(state, orders) == Run(Init, BarEvents(f, p, values))
    ensures ShiftedIssuers(issuedAt, BarEvents(f, p, values), p.period)
  {
    ghost var events := BarEvents(f, p, values);
    state, orders, issuedAt := Init, [], [];
    var k := 0;
    while k < |line|
      invariant 0 <= k <= |line|
      invariant |events| == |line|
      invariant StepResult(state, orders) == Run(Init, events[..k])
      invariant ShiftedIssuers(issuedAt, events[..k], p.period)
      decreases |line| - k
    {
      var i := p.period + k;
      var close, st, value := f.bars[i].close, line[k], values[i];
      var step, issued := TradeBar(state, issuedAt, i, close, st, value);
      BarEventAt(f, p, values, k);
      assert events[k] == BarEvent(close, st, value);
      TradeStep(events, k, p.period, state, orders, issuedAt, close, st, value, step, issued);
      state, orders, issuedAt := step.state, orders + step.orders, issued;
      k := k + 1;
    }
    assert events[..k] == events;
  }

  /** `issuedAt` is the issuer indices of the run over `events` from Init,
      each shifted by `lo`. */
  predicate ShiftedIssuers(issuedAt: seq<nat>, events: seq<Event>, lo: nat)
  {
    && |issuedAt| == |Issuers(Init, events)|
    && forall n :: 0 <= n < |issuedAt| ==> issuedAt[n] == lo + Issuers(Init, events)[n]
  }

  /** Shifting the issuer indices of a run by `lo` follows one more event:
      the event's own shifted index is appended exactly when it issues an
      order. */
  lemma ShiftedIssuersStep(events: seq<Event>, k: nat, lo: nat, issuedAt: seq<nat>, issued: seq<nat>)
    requires k < |events|
    requires ShiftedIssuers(issuedAt, events[..k], lo)
    requires issued == if |Apply(Run(Init, events[..k]).state, events[k]).orders| == 1
                       then issuedAt + [lo + k] else issuedAt
    ensures ShiftedIssuers(issued, events[..k + 1], lo)
  {
    IssuersStep(Init, events, k);
  }

  /** One loop step of Trade: applying event k to the run over the first k
      events extends both the run and the shifted issuer indices. */
  lemma TradeStep(events: seq<Event>, k: nat, lo: nat, state: State, orders: seq<Order>,
                  issuedAt: seq<nat>, close: real, st: real, value: real, step: StepResult, issued: seq<nat>)
    requires k < |events| && events[k] == BarEvent(close, st, value)
    requires StepResult(state, orders) == Run(Init, events[..k])
    requires ShiftedIssuers(issuedAt, events[..k], lo)
    requires step == Next(state, close, st, value)
    requires issued == if |step.orders| == 1 then issuedAt + [lo + k] else issuedAt
    ensures Run(Init, events[..k + 1]) == StepResult(step.state, orders + step.orders)
    ensures ShiftedIssuers(issued, events[..k + 1], lo)
  {
    RunPrefixStep(Init, events, k);
    ShiftedIssuersStep(events, k, lo, issuedAt, issued);
  }

  /** One strategy step at bar `i` with broker value `value`, recording bar
      `i` as the issuer of the order it places, if any. Its contract only
      names the step; it exists to keep the body of the `Trade` loop small
      for the verifier, and the properties about it are in TradeStep. */
  method TradeBar(s: State, issuedAt: seq<nat>, i: nat, close: real, st: real, value: real)
      returns (step: StepResult, issued: seq<nat>)
    ensures step == Next(s, close, st, value)
    ensures |step.orders| == 1 ==> issued == issuedAt + [i]
    ensures |step.orders| != 1 ==> issued == issuedAt
  {
    step := Next(s, close, st, value);
    issued := if |step.orders| == 1 then issuedAt + [i] else issuedAt;
  }

  /** Bars recorded as issuers of the run over BarEvents satisfy IssuedBy. */
  lemma IssuersAreIssuedBy(f: Feed, p: Params, values: seq<real>, issuedAt: seq<nat>)
    requires f.Valid() && |values| == |f.bars|
    requires ShiftedIssuers(issuedAt, BarEvents(f, p, values), p.period)
    ensures IssuedBy(Run(Init, BarEvents(f, p, values)).orders, issuedAt, values, p.period, |f.bars|)
  {
    EventSizes(f, p, values);
  }

  /** In the run over BarEvents, order n is issued by bar `period` plus its
      issuing event's index; those bars strictly increase, and each order is
      a fifth of the broker value at its own bar. */
  lemma EventSizes(f: Feed, p: Params, values: seq<real>)
    requires f.Valid() && |values| == |f.bars|
    ensures |Issuers(Init, BarEvents(f, p, values))| == |Run(Init, BarEvents(f, p, values)).orders|
    ensures forall n :: 0 <= n < |Issuers(Init, BarEvents(f, p, values))| ==>
              p.period + Issuers(Init, BarEvents(f, p, values))[n] < |values|
    ensures forall n, m :: 0 <= n < m < |Issuers(Init, BarEvents(f, p, values))| ==>
              Issuers(Init, BarEvents(f, p, values))[n] < Issuers(Init, BarEvents(f, p, values))[m]
    ensures forall n :: 0 <= n < |Run(Init, BarEvents(f, p, values)).orders| ==>
              Run(Init, BarEvents(f, p, values)).orders[n].size ==
                OrderSize(values[p.period + Issuers(Init, BarEvents(f, p, values))[n]])
  {
    var events := BarEvents(f, p, values);
    OrderSizes(Init, events);
  }
}
