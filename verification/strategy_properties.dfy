/** Consequences of the description of the strategy's outcome: the order of
    the reported bars, the balance of buys and sells, the meaning of each
    terminal status, and small scenarios: an empty series, a series with no
    200-bar average, a buy on the last bar, one round trip. */
module StrategyProperties {
  import opened Wrappers
  import opened Series
  import opened Signals
  import opened Returns
  import opened Search
  import opened Strategy
  import opened StrategySpec

  /** The first event is at or after `i` and each event is after the one
      before it. */
  ghost predicate StepsUp(i: nat, ev: seq<Event>) {
    && (|ev| > 0 ==> i <= ev[0].index)
    && forall j, k :: 0 <= j < k < |ev| && k == j + 1 ==> ev[j].index < ev[k].index
  }

  lemma {:induction false} StepsUpOrdered(i: nat, ev: seq<Event>, j: nat, k: nat)
    requires StepsUp(i, ev)
    requires j < k < |ev|
    ensures i <= ev[j].index < ev[k].index
    decreases k
  {
    if j < k - 1 {
      StepsUpOrdered(i, ev, j, k - 1);
    } else if j > 0 {
      StepsUpOrdered(i, ev, 0, j);
    }
    assert ev[k - 1].index < ev[k].index;
  }

  /** Reported bars strictly increase: buy 1 < sell 1 < buy 2 < sell 2 < …,
      all at or after the start index and inside the series. */
  lemma IndicesIncrease(s: seq<Bar>, i: nat, c: nat, o: Outcome)
    requires Explains(s, i, c, o)
    ensures forall k :: 0 <= k < |o.events| ==> i <= o.events[k].index < |s|
    ensures forall j, k :: 0 <= j < k < |o.events| ==> o.events[j].index < o.events[k].index
  {
    var ev := o.events;
    assert StepsUp(i, ev) by {
      forall j, k | 0 <= j < k < |ev| && k == j + 1 ensures ev[j].index < ev[k].index {
        assert IsFirstFrom(s, ev[j].index + 1, ev[k].index, SignalOf(ev[k]));
      }
    }
    forall k | 0 <= k < |ev| ensures i <= ev[k].index {
      if k > 0 { StepsUpOrdered(i, ev, 0, k); }
    }
    forall j, k | 0 <= j < k < |ev| ensures ev[j].index < ev[k].index {
      StepsUpOrdered(i, ev, j, k);
    }
  }

  /** On a chronological series the reported signals are in strictly
      increasing time order. */
  lemma EventTimesIncrease(s: seq<Bar>, o: Outcome)
    requires Chronological(s)
    requires o == EmaStrategy(s)
    ensures forall j, k :: 0 <= j < k < |o.events| ==>
      o.events[j].index < o.events[k].index < |s| && s[o.events[j].index].time < s[o.events[k].index].time
  {
    EmaStrategyCharacterised(s, o);
    IndicesIncrease(s, 0, 1, o);
  }

  /** Number of buy events. */
  function Buys(ev: seq<Event>): nat {
    if |ev| == 0 then 0
    else Buys(ev[..|ev| - 1]) + (if ev[|ev| - 1].BuyEvent? then 1 else 0)
  }

  /** Number of sell events. */
  function Sells(ev: seq<Event>): nat {
    if |ev| == 0 then 0
    else Sells(ev[..|ev| - 1]) + (if ev[|ev| - 1].SellEvent? then 1 else 0)
  }

  lemma {:induction false} AlternatingCounts(ev: seq<Event>)
    requires Alternates(ev)
    ensures Buys(ev) == (|ev| + 1) / 2 && Sells(ev) == |ev| / 2
  {
    if |ev| > 0 {
      var init := ev[..|ev| - 1];
      assert Alternates(init) by {
        forall k | 0 <= k < |init| ensures init[k].BuyEvent? <==> k % 2 == 0 {
          assert init[k] == ev[k];
        }
      }
      AlternatingCounts(init);
    }
  }

  /** There are as many sells as buys, or one fewer, and one fewer exactly
      when the scan is waiting for a sell. */
  lemma BuySellBalance(s: seq<Bar>, i: nat, c: nat, o: Outcome)
    requires Explains(s, i, c, o)
    ensures Buys(o.events) == Sells(o.events) || Buys(o.events) == Sells(o.events) + 1
    ensures o.status == AwaitingSell <==> Buys(o.events) == Sells(o.events) + 1
  {
    AlternatingCounts(o.events);
  }

  /** Round trip `t` (from 0) is the buy at position 2t and the sell at
      2t + 1, both numbered c + t; the sell comes later and carries the
      return on the buy's price. */
  lemma RoundTrips(s: seq<Bar>, i: nat, c: nat, o: Outcome, t: nat)
    requires Explains(s, i, c, o)
    requires 2 * t + 1 < |o.events|
    ensures var buy, sell := o.events[2 * t], o.events[2 * t + 1];
      && buy.BuyEvent? && sell.SellEvent?
      && buy.count == sell.count == c + t
      && buy.index < sell.index
      && IsBuy(s[buy.index]) && IsSell(s[sell.index])
      && sell.roi == Roi(s[buy.index].close, s[sell.index].close)
  {
    var ev := o.events;
    assert IsFirstFrom(s, ev[2 * t].index + 1, ev[2 * t + 1].index, SignalOf(ev[2 * t + 1]));
    if t > 0 {
      assert IsFirstFrom(s, ev[2 * t - 1].index + 1, ev[2 * t].index, SignalOf(ev[2 * t]));
    } else {
      assert IsFirstFrom(s, i, ev[0].index, SignalOf(ev[0]));
    }
  }

  /** EndOfSeries is reached exactly when the series is empty or the last
      round trip sold on the last bar. */
  lemma EndOfSeriesMeans(s: seq<Bar>)
    ensures var o := EmaStrategy(s);
      o.status == EndOfSeries <==>
        || (|s| == 0 && o.events == [])
        || (|o.events| > 0 && o.events[|o.events| - 1].SellEvent?
            && o.events[|o.events| - 1].index == |s| - 1)
  {
    var o := EmaStrategy(s);
    EmaStrategyCharacterised(s, o);
    AlternatingCounts(o.events);
    if |o.events| > 0 {
      IndicesIncrease(s, 0, 1, o);
    }
  }

  /** An empty series reports nothing and stops without a message. */
  lemma EmptySeries()
    ensures EmaStrategy([]) == Outcome([], EndOfSeries)
  {
  }

  /** A non-empty series whose 200-bar average never fills (fewer than 200
      bars) reports no buy signal. */
  lemma ShortSeriesNoBuy(s: seq<Bar>)
    requires |s| > 0
    requires forall k :: 0 <= k < |s| ==> s[k].sma200.None?
    ensures EmaStrategy(s) == Outcome([], NoBuySignal)
  {
  }

  /** A buy that first appears on the last bar is reported alone, waiting
      for a sell. */
  lemma BuyOnLastBar(s: seq<Bar>)
    requires |s| > 0 && IsBuy(s[|s| - 1])
    requires forall k :: 0 <= k < |s| - 1 ==> !IsBuy(s[k])
    ensures EmaStrategy(s) == Outcome([BuyEvent(1, |s| - 1, s[|s| - 1].close)], AwaitingSell)
  {
  }

  /** A bar at time `time` with neither rule holding (all averages undefined). */
  function Quiet(time: int, close: real): Bar {
    Bar(time, close, close, close, close, 0, None, None, None, None)
  }

  /** Three bars: a bearish-stacked buy at 100, a quiet bar, a
      bullish-stacked sell at 120 on the last bar. */
  function ExampleSeries(): seq<Bar> {
    [ Bar(0, 100.0, 100.0, 100.0, 100.0, 10, Some(110.0), Some(120.0), Some(130.0), None),
      Quiet(1, 110.0),
      Bar(2, 120.0, 120.0, 120.0, 120.0, 10, Some(115.0), Some(110.0), Some(105.0), None) ]
  }

  /** On the example the strategy buys at bar 0, sells at bar 2 for a 20
      percent return, and stops at the end of the series; the example's bar
      times are in order. */
  lemma ExampleRoundTrip()
    ensures Chronological(ExampleSeries())
    ensures EmaStrategy(ExampleSeries()) ==
      Outcome([BuyEvent(1, 0, 100.0), SellEvent(1, 2, 120.0, Some(20.0))], EndOfSeries)
  {
  }
}
