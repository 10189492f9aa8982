/** SuperTrendStrategy of algo.py: a three-valued status, an order gate, and
    one step per bar that sells above the SuperTrend line and buys below it. */
module Strategy {
  import opened Options

  /** The source's `status`: 0 before any order, 1 after a sell, 2 after a buy. */
  datatype Status = Flat | Short | Long

  /** The states an order reports back to notify_order. */
  datatype OrderStatus =
    Created | Submitted | Accepted | Partial | Completed | Canceled | Expired | Margin | Rejected

  datatype Side = Buy | Sell

  /** An order request handed to the broker. */
  datatype Order = Order(side: Side, size: real)

  /** The strategy's own state: its status and the pending-order handle,
      an opaque reference number when present. */
  datatype State = State(status: Status, orderId: Option<nat>)

  /** The state after a step and the orders the step issued, oldest first. */
  datatype StepResult = StepResult(state: State, orders: seq<Order>)

  /** Fraction of the broker's value put into each order. */
  const ExchangeAmount: real := 0.2

  /** The size of an order placed when the broker's value is `value`. */
  function OrderSize(value: real): real
  {
    value * ExchangeAmount
  }

  /** The state the strategy starts in: flat, with no pending order. */
  const Init: State := State(Flat, None)

  /** The status an order of side `side` leaves behind. */
  function StatusAfter(side: Side): Status
  {
    match side
    case Sell => Short
    case Buy => Long
  }

  /** notify_order: a Submitted or Accepted report leaves the gate alone;
      every other report clears it. The status is never touched. */
  function NotifyOrder(s: State, o: OrderStatus): (r: State)
    ensures r.status == s.status
    ensures o == Submitted || o == Accepted ==> r.orderId == s.orderId
    ensures o != Submitted && o != Accepted ==> r.orderId.None?
  {
    if o == Submitted || o == Accepted then s else s.(orderId := None)
  }

  /** next, for a bar with close `close`, SuperTrend value `st` and broker
      value `value`. While an order is pending nothing happens. Otherwise a
      close above the line sells unless the last order was a sell, and a close
      below the line buys unless the last order was a buy; each order is sized
      at ExchangeAmount of the broker's value. The order handle is never set. */
  function Next(s: State, close: real, st: real, value: real): (r: StepResult)
    ensures s.orderId.Some? ==> r == StepResult(s, [])
    ensures r.state.orderId == s.orderId
    ensures |r.orders| <= 1
    ensures forall k :: 0 <= k < |r.orders| ==> r.orders[k].size == OrderSize(value)
    ensures (|r.orders| == 1 && r.orders[0].side == Sell) <==>
              (s.orderId.None? && close > st && s.status != Short)
    ensures (|r.orders| == 1 && r.orders[0].side == Buy) <==>
              (s.orderId.None? && close < st && s.status != Long)
    ensures |r.orders| == 0 ==> r.state == s
    ensures |r.orders| == 1 ==> r.state.status == StatusAfter(r.orders[0].side)
    ensures close == st ==> r == StepResult(s, [])
  {
    if s.orderId.Some? then StepResult(s, [])
    else
      var size := OrderSize(value);
      var afterSell :=
        if close > st && s.status != Short then StepResult(s.(status := Short), [Order(Sell, size)])
        else StepResult(s, []);
      if close < st && afterSell.state.status != Long then
        StepResult(afterSell.state.(status := Long), afterSell.orders + [Order(Buy, size)])
      else afterSell
  }

  /** What the framework delivers to the strategy: a bar (close, SuperTrend
      value and broker value) or an order report. */
  datatype Event = BarEvent(close: real, st: real, value: real) | Notification(report: OrderStatus)

  /** One event applied to a state. */
  function Apply(s: State, e: Event): StepResult
  {
    match e
    case BarEvent(close, st, value) => Next(s, close, st, value)
    case Notification(report) => StepResult(NotifyOrder(s, report), [])
  }

  /** The events applied in order from `s`, with every order issued on the way. */
  function Run(s: State, events: seq<Event>): StepResult
    decreases |events|
  {
    if |events| == 0 then StepResult(s, [])
    else
      var before := Run(s, events[..|events| - 1]);
      var last := Apply(before.state, events[|events| - 1]);
      StepResult(last.state, before.orders + last.orders)
  }

  /** Running one more event of a sequence extends the run of its prefix by
      one Apply. */
  lemma RunPrefixStep(s: State, events: seq<Event>, k: nat)
    requires k < |events|
    ensures Run(s, events[..k + 1]) ==
              var before := Run(s, events[..k]);
              var last := Apply(before.state, events[k]);
              StepResult(last.state, before.orders + last.orders)
  {
    assert events[..k + 1][..k] == events[..k];
  }

  /** Consecutive orders are on opposite sides. */
  predicate Alternating(orders: seq<Order>)
  {
    forall k :: 0 < k < |orders| ==> orders[k - 1].side != orders[k].side
  }

  /** The status records the side of the most recent order, and is Flat
      exactly when no order was issued. */
  predicate StatusMatches(s: State, orders: seq<Order>)
  {
    if |orders| == 0 then s.status == Flat
    else s.status == StatusAfter(orders[|orders| - 1].side)
  }

  /** Nothing in the strategy ever sets the order handle, so from a state
      with no pending order (the initial state among them) the gate stays
      open whatever bars and reports arrive. */
  lemma {:induction false} GateStaysOpen(s: State, events: seq<Event>)
    requires s.orderId.None?
    ensures Run(s, events).state.orderId.None?
    decreases |events|
  {
    if |events| > 0 {
      GateStaysOpen(s, events[..|events| - 1]);
    }
  }

  /** The bar events of `events`, in order, with the order reports dropped. */
  function BarsOnly(events: seq<Event>): (r: seq<Event>)
    ensures |r| <= |events|
    ensures forall k :: 0 <= k < |r| ==> r[k].BarEvent?
    decreases |events|
  {
    if |events| == 0 then []
    else
      var prefix := BarsOnly(events[..|events| - 1]);
      if events[|events| - 1].BarEvent? then prefix + [events[|events| - 1]] else prefix
  }

  /** With the gate open, order reports change neither the state nor the
      orders: a run over bars interleaved with any reports is the run over
      the bars alone. */
  lemma {:induction false} NotificationsInvisible(s: State, events: seq<Event>)
    requires s.orderId.None?
    ensures Run(s, events) == Run(s, BarsOnly(events))
    decreases |events|
  {
    if |events| > 0 {
      var prefix := events[..|events| - 1];
      var e := events[|events| - 1];
      NotificationsInvisible(s, prefix);
      GateStaysOpen(s, prefix);
      var bars := BarsOnly(prefix);
      if e.BarEvent? {
        assert (bars + [e])[..|bars|] == bars;
      }
    }
  }

  /** From the initial state the strategy never issues two orders of the same
      side in a row, and its status always names the side of the last order. */
  lemma {:induction false} OrdersAlternate(events: seq<Event>)
    ensures Alternating(Run(Init, events).orders)
    ensures StatusMatches(Run(Init, events).state, Run(Init, events).orders)
    decreases |events|
  {
    if |events| > 0 {
      var prefix := events[..|events| - 1];
      OrdersAlternate(prefix);
      var before := Run(Init, prefix);
      var last := Apply(before.state, events[|events| - 1]);
      var all := before.orders + last.orders;
      if |last.orders| == 1 && |before.orders| > 0 {
        assert all[|all| - 2] == before.orders[|before.orders| - 1];
        assert before.state.status != StatusAfter(last.orders[0].side);
      }
      assert Alternating(all) by {
        forall k | 0 < k < |all|
          ensures all[k - 1].side != all[k].side
        {
          if k < |before.orders| {
            assert all[k - 1] == before.orders[k - 1] && all[k] == before.orders[k];
          }
        }
      }
    }
  }

  /** Running one more event keeps every order issued so far and adds at
      most one; a new order comes from a bar event and has size
      ExchangeAmount times that bar's broker value. */
  lemma RunGrowth(s: State, events: seq<Event>, k: nat)
    requires k < |events|
    ensures |Run(s, events[..k]).orders| <= |Run(s, events[..k + 1]).orders|
              <= |Run(s, events[..k]).orders| + 1
    ensures Run(s, events[..k + 1]).orders[..|Run(s, events[..k]).orders|] == Run(s, events[..k]).orders
    ensures |Run(s, events[..k + 1]).orders| > |Run(s, events[..k]).orders| ==>
              events[k].BarEvent? &&
              Run(s, events[..k + 1]).orders[|Run(s, events[..k]).orders|].size ==
                OrderSize(events[k].value)
  {
    RunPrefixStep(s, events, k);
    var before := Run(s, events[..k]);
    var last := Apply(before.state, events[k]);
    assert (before.orders + last.orders)[..|before.orders|] == before.orders;
  }

  /** For each order of a run, the index of the event that issued it. */
  function Issuers(s: State, events: seq<Event>): seq<nat>
    decreases |events|
  {
    if |events| == 0 then []
    else
      var n := |events| - 1;
      var before := Run(s, events[..n]);
      if |Apply(before.state, events[n]).orders| == 1 then Issuers(s, events[..n]) + [n]
      else Issuers(s, events[..n])
  }

  /** One more event adds its own index to the issuers exactly when it
      issues an order. */
  lemma IssuersStep(s: State, events: seq<Event>, k: nat)
    requires k < |events|
    ensures Issuers(s, events[..k + 1]) ==
              if |Apply(Run(s, events[..k]).state, events[k]).orders| == 1
              then Issuers(s, events[..k]) + [k] else Issuers(s, events[..k])
  {
    assert events[..k + 1][..k] == events[..k];
  }

  /** Every order is issued by its own bar event, events issue orders in
      order and at most one each, and each order has size ExchangeAmount
      times the broker value of the bar that issued it. */
  lemma {:induction false} OrderSizes(s: State, events: seq<Event>)
    ensures |Issuers(s, events)| == |Run(s, events).orders|
    ensures forall n :: 0 <= n < |Issuers(s, events)| ==> Issuers(s, events)[n] < |events|
    ensures forall n, m :: 0 <= n < m < |Issuers(s, events)| ==> Issuers(s, events)[n] < Issuers(s, events)[m]
    ensures forall n :: 0 <= n < |Issuers(s, events)| ==>
              events[Issuers(s, events)[n]].BarEvent? &&
              Run(s, events).orders[n].size == OrderSize(events[Issuers(s, events)[n]].value)
    decreases |events|
  {
    if |events| > 0 {
      var n := |events| - 1;
      var prefix := events[..n];
      OrderSizes(s, prefix);
      var before := Run(s, prefix);
      var last := Apply(before.state, events[n]);
      var all := before.orders + last.orders;
      var ids := Issuers(s, prefix);
      assert Run(s, events) == StepResult(last.state, all);
      forall j | 0 <= j < |ids|
        ensures events[ids[j]] == prefix[ids[j]]
      {
      }
      if |last.orders| == 1 {
        var ids' := ids + [n];
        assert Issuers(s, events) == ids';
        assert all[|before.orders|] == last.orders[0];
        forall j | 0 <= j < |ids'|
          ensures all[j].size == OrderSize(events[ids'[j]].value)
        {
          if j < |ids| {
            assert all[j] == before.orders[j];
          }
        }
      } else {
        assert |last.orders| == 0;
        assert all == before.orders;
      }
    }
  }
}
