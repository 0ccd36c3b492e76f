/** The two entry/exit rules of the dashboard's moving-average strategy.
    Each rule is a conjunction of five strict comparisons at one bar. A
    comparison that involves an undefined average is false, as a comparison
    with NaN is, so a bar whose averages have not all filled matches neither
    rule. */
module Signals {
  import opened Wrappers
  import opened Series

  /** `x < y` where `y` may be undefined. */
  predicate Below(x: real, y: Option<real>) {
    y.Some? && x < y.value
  }

  /** `x > y` where `y` may be undefined. */
  predicate Above(x: real, y: Option<real>) {
    y.Some? && x > y.value
  }

  /** `x > y` where both may be undefined. */
  predicate Exceeds(x: Option<real>, y: Option<real>) {
    x.Some? && y.Some? && x.value > y.value
  }

  /** All three simple moving averages of the bar are defined. */
  predicate AveragesDefined(b: Bar) {
    b.sma20.Some? && b.sma50.Some? && b.sma200.Some?
  }

  /** The buy rule: close below every average and the averages stacked
      bearishly, 200 above 50 above 20. Equivalently, the close and the
      three averages form the strict chain close < 20 < 50 < 200. */
  function IsBuy(b: Bar): (r: bool)
    ensures r <==> AveragesDefined(b)
                   && b.close < b.sma20.value < b.sma50.value < b.sma200.value
  {
    && Below(b.close, b.sma200)
    && Below(b.close, b.sma50)
    && Below(b.close, b.sma20)
    && Exceeds(b.sma200, b.sma50)
    && Exceeds(b.sma50, b.sma20)
  }

  /** The sell rule, the mirror image: close above every average and the
      averages stacked bullishly, i.e. close > 20 > 50 > 200. */
  function IsSell(b: Bar): (r: bool)
    ensures r <==> AveragesDefined(b)
                   && b.close > b.sma20.value > b.sma50.value > b.sma200.value
  {
    && Above(b.close, b.sma200)
    && Above(b.close, b.sma50)
    && Above(b.close, b.sma20)
    && Exceeds(b.sma20, b.sma50)
    && Exceeds(b.sma50, b.sma200)
  }

  /** Which of the two rules a search is looking for. */
  datatype Signal = BuySignal | SellSignal

  predicate Holds(sig: Signal, b: Bar) {
    match sig
    case BuySignal => IsBuy(b)
    case SellSignal => IsSell(b)
  }

  /** No bar satisfies both rules: buying needs the close below the 20-bar
      average, selling needs it above. */
  lemma BuySellExclusive(b: Bar)
    ensures !(IsBuy(b) && IsSell(b))
  {
  }

  /** A bar with any undefined simple moving average matches neither rule. */
  lemma UndefinedAverageMatchesNeither(b: Bar)
    requires !AveragesDefined(b)
    ensures !IsBuy(b) && !IsSell(b)
  {
  }

  /** The comparisons are strict: a close equal to any of the averages
      triggers neither rule. */
  lemma TieMatchesNeither(b: Bar)
    requires b.sma20 == Some(b.close) || b.sma50 == Some(b.close) || b.sma200 == Some(b.close)
    ensures !IsBuy(b) && !IsSell(b)
  {
  }
}
