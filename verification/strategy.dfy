/** The strategy scan: alternately search for the first bar satisfying the
    buy rule and then for the first later bar satisfying the sell rule,
    report each signal with its round-trip number, and restart the buy search
    just after each sell. Messages the dashboard would display become events
    and a terminal status. */
module Strategy {
  import opened Wrappers
  import opened Series
  import opened Signals
  import opened Returns
  import opened Search

  /** A reported signal. A buy and the sell that closes it share `count`,
      the 1-based number of the round trip. */
  datatype Event =
    | BuyEvent(count: nat, index: nat, price: real)
    | SellEvent(count: nat, index: nat, price: real, roi: Option<real>)

  /** Why the scan stopped. */
  datatype Status =
    | NoBuySignal   // a buy search from inside the series found nothing
    | AwaitingSell  // a buy was found but no sell follows it
    | EndOfSeries   // the series is empty or the last sell is on its last bar

  datatype Outcome = Outcome(events: seq<Event>, status: Status)

  function SignalOf(e: Event): Signal {
    if e.BuyEvent? then BuySignal else SellSignal
  }

  /** `o` preceded by `ev`. */
  function Prepend(ev: seq<Event>, o: Outcome): Outcome {
    Outcome(ev + o.events, o.status)
  }

  /** A round trip: the buy at `a` and the sell at `b` that closes it, both
      numbered `c`, the sell carrying the return on the buy. */
  function Trip(s: seq<Bar>, c: nat, a: nat, b: nat): seq<Event>
    requires a < b < |s|
  {
    [BuyEvent(c, a, s[a].close), SellEvent(c, b, s[b].close, Roi(s[a].close, s[b].close))]
  }

  /** The scan from start index `i` with the next round trip numbered
      `count`: the outer loop of the strategy as a recursive function. */
  function Scan(s: seq<Bar>, i: nat, count: nat): (o: Outcome)
    requires i <= |s|
    decreases |s| - i
  {
    if i == |s| then Outcome([], EndOfSeries)
    else match FirstMatch(s, i, BuySignal)
      case None => Outcome([], NoBuySignal)
      case Some(a) =>
        match FirstMatch(s, a + 1, SellSignal)
        case None => Outcome([BuyEvent(count, a, s[a].close)], AwaitingSell)
        case Some(b) => Prepend(Trip(s, count, a, b), Scan(s, b + 1, count + 1))
  }

  /** The strategy over a whole series: scan from the first bar, numbering
      round trips from 1. */
  function EmaStrategy(s: seq<Bar>): (o: Outcome)
    ensures |o.events| <= |s|
    ensures |s| == 0 ==> o == Outcome([], EndOfSeries)
  {
    ScanBound(s, 0, 1);
    Scan(s, 0, 1)
  }

  /** A scan from `i` reports at most one event per remaining bar, and a
      scan with no bars left reports nothing and ends the series. */
  lemma {:induction false} ScanBound(s: seq<Bar>, i: nat, count: nat)
    requires i <= |s|
    ensures |Scan(s, i, count).events| <= |s| - i
    ensures i == |s| ==> Scan(s, i, count) == Outcome([], EndOfSeries)
    decreases |s| - i
  {
    if i < |s| {
      match FirstMatch(s, i, BuySignal)
      case None =>
      case Some(a) =>
        match FirstMatch(s, a + 1, SellSignal)
        case None =>
        case Some(b) =>
          ScanBound(s, b + 1, count + 1);
    }
  }

  /** One pass of the scan's outer loop from `i`, by how its two searches
      end. */
  lemma ScanStep(s: seq<Bar>, i: nat, count: nat)
    requires i < |s|
    ensures FirstMatch(s, i, BuySignal).None? ==> Scan(s, i, count) == Outcome([], NoBuySignal)
    ensures FirstMatch(s, i, BuySignal).Some? ==>
      var a := FirstMatch(s, i, BuySignal).value;
      && a < |s|
      && (FirstMatch(s, a + 1, SellSignal).None? ==>
            Scan(s, i, count) == Outcome([BuyEvent(count, a, s[a].close)], AwaitingSell))
      && (FirstMatch(s, a + 1, SellSignal).Some? ==>
            var b := FirstMatch(s, a + 1, SellSignal).value;
            a < b < |s| && Scan(s, i, count) == Prepend(Trip(s, count, a, b), Scan(s, b + 1, count + 1)))
  {
  }

  /** Prepending in two steps is prepending the concatenation. */
  lemma PrependTwice(first: seq<Event>, second: seq<Event>, o: Outcome)
    ensures Prepend(first, Prepend(second, o)) == Prepend(first + second, o)
  {
    assert first + (second + o.events) == (first + second) + o.events;
  }

  /** The strategy as the dashboard writes it: an outer loop over the start
      index with two inner searches, leaving the loop when a search fails. */
  method RunStrategy(s: seq<Bar>) returns (o: Outcome)
    ensures o == EmaStrategy(s)
  {
    var events: seq<Event> := [];
    var count: nat := 1;
    var i: nat := 0;
    while i < |s|
      invariant i <= |s|
      invariant Scan(s, 0, 1) == Prepend(events, Scan(s, i, count))
      decreases |s| - i
    {
      ScanStep(s, i, count);
      var buyAt := FindFirst(s, i, BuySignal);
      if buyAt.None? {
        return Outcome(events, NoBuySignal);
      }
      var a := buyAt.value;
      var sellAt := FindFirst(s, a + 1, SellSignal);
      if sellAt.None? {
        return Outcome(events + [BuyEvent(count, a, s[a].close)], AwaitingSell);
      }
      var b := sellAt.value;
      PrependTwice(events, Trip(s, count, a, b), Scan(s, b + 1, count + 1));
      events := events + Trip(s, count, a, b);
      count := count + 1;
      i := b + 1;
    }
    return Outcome(events, EndOfSeries);
  }
}
