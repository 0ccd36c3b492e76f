/** A declarative description of what the strategy scan reports, independent
    of how the scan is computed, and the proof that the scan's outcome is the
    one and only outcome meeting it. */
module StrategySpec {
  import opened Wrappers
  import opened Series
  import opened Signals
  import opened Returns
  import opened Search
  import opened Strategy

  /** Where the search after the last event begins: the start index when
      there is no event, else just after the last one. */
  function Resume(i: nat, ev: seq<Event>): int {
    if |ev| == 0 then i else ev[|ev| - 1].index + 1
  }

  /** Buys and sells alternate, starting with a buy. */
  ghost predicate Alternates(ev: seq<Event>) {
    forall k :: 0 <= k < |ev| ==> (ev[k].BuyEvent? <==> k % 2 == 0)
  }

  /** The k-th buy and the k-th sell carry round-trip number c + k - 1. */
  ghost predicate Numbered(ev: seq<Event>, c: nat) {
    forall k :: 0 <= k < |ev| ==> ev[k].count == c + k / 2
  }

  /** Every event is at the first bar, from where its search began, that
      satisfies its rule: the first from `i`, each later one the first after
      the event before it. */
  ghost predicate Located(s: seq<Bar>, i: nat, ev: seq<Event>) {
    && (|ev| > 0 ==> IsFirstFrom(s, i, ev[0].index, SignalOf(ev[0])))
    && forall j, k :: 0 <= j < k < |ev| && k == j + 1 ==>
         IsFirstFrom(s, ev[j].index + 1, ev[k].index, SignalOf(ev[k]))
  }

  /** Every event reports the closing price of its bar. */
  ghost predicate Priced(s: seq<Bar>, ev: seq<Event>) {
    forall k :: 0 <= k < |ev| ==> ev[k].index < |s| && ev[k].price == s[ev[k].index].close
  }

  /** Every sell reports the return on the buy just before it. */
  ghost predicate Returned(ev: seq<Event>) {
    forall j, k :: 0 <= j < k < |ev| && k == j + 1 && ev[k].SellEvent? ==>
      ev[k].roi == Roi(ev[j].price, ev[k].price)
  }

  /** The status matches the way the last search ended. */
  ghost predicate Stopped(s: seq<Bar>, i: nat, ev: seq<Event>, st: Status) {
    var lo := Resume(i, ev);
    match st
    case NoBuySignal => |ev| % 2 == 0 && lo < |s| && NoneIn(s, lo, |s|, BuySignal)
    case AwaitingSell => |ev| % 2 == 1 && NoneIn(s, lo, |s|, SellSignal)
    case EndOfSeries => |ev| % 2 == 0 && lo == |s|
  }

  /** `o` is what a scan of `s` from index `i`, numbering from `c`, reports. */
  ghost predicate Explains(s: seq<Bar>, i: nat, c: nat, o: Outcome) {
    && i <= |s|
    && Alternates(o.events)
    && Numbered(o.events, c)
    && Located(s, i, o.events)
    && Priced(s, o.events)
    && Returned(o.events)
    && Stopped(s, i, o.events, o.status)
  }

  /** Shifting by one round trip preserves alternation. */
  lemma AlternatesStep(ev: seq<Event>)
    requires |ev| >= 2 && ev[0].BuyEvent? && ev[1].SellEvent?
    ensures Alternates(ev) <==> Alternates(ev[2..])
  {
  }

  /** Shifting by one round trip raises the numbering by one. */
  lemma NumberedStep(ev: seq<Event>, c: nat)
    requires |ev| >= 2 && ev[0].count == c && ev[1].count == c
    ensures Numbered(ev, c) <==> Numbered(ev[2..], c + 1)
  {
  }

  /** Shifting by one round trip moves the start index past its sell. */
  lemma LocatedStep(s: seq<Bar>, i: nat, ev: seq<Event>)
    requires |ev| >= 2
    requires IsFirstFrom(s, i, ev[0].index, SignalOf(ev[0]))
    requires IsFirstFrom(s, ev[0].index + 1, ev[1].index, SignalOf(ev[1]))
    ensures Located(s, i, ev) <==> Located(s, ev[1].index + 1, ev[2..])
  {
  }

  /** Shifting by one round trip keeps every price at its bar's close. */
  lemma PricedStep(s: seq<Bar>, ev: seq<Event>)
    requires |ev| >= 2
    requires ev[0].index < |s| && ev[0].price == s[ev[0].index].close
    requires ev[1].index < |s| && ev[1].price == s[ev[1].index].close
    ensures Priced(s, ev) <==> Priced(s, ev[2..])
  {
  }

  /** Shifting by one round trip keeps every return tied to its buy. */
  lemma ReturnedStep(ev: seq<Event>)
    requires |ev| >= 2 && ev[1].SellEvent? && ev[1].roi == Roi(ev[0].price, ev[1].price)
    requires |ev| > 2 ==> ev[2].BuyEvent?
    ensures Returned(ev) <==> Returned(ev[2..])
  {
  }

  /** Shifting by one round trip leaves the final search's start in place. */
  lemma StoppedStep(s: seq<Bar>, i: nat, ev: seq<Event>, st: Status)
    requires |ev| >= 2
    ensures Stopped(s, i, ev, st) <==> Stopped(s, ev[1].index + 1, ev[2..], st)
  {
  }

  /** Peeling off a first round trip: an outcome that begins with the trip
      found from `i` is explained from `i` exactly when the rest is explained
      from just after the sell, with numbering one higher. */
  lemma ExplainsStep(s: seq<Bar>, i: nat, c: nat, a: nat, b: nat, rest: Outcome, o: Outcome)
    requires i <= |s|
    requires IsFirstFrom(s, i, a, BuySignal)
    requires IsFirstFrom(s, a + 1, b, SellSignal)
    requires o == Prepend(Trip(s, c, a, b), rest)
    ensures Explains(s, i, c, o) <==> Explains(s, b + 1, c + 1, rest)
  {
    var ev := o.events;
    assert ev[2..] == rest.events;
    AlternatesStep(ev);
    NumberedStep(ev, c);
    LocatedStep(s, i, ev);
    PricedStep(s, ev);
    if Alternates(ev) || Alternates(ev[2..]) {
      ReturnedStep(ev);
    }
    StoppedStep(s, i, ev, rest.status);
  }

  /** The outcome of a scan from the end of the series is explained. */
  lemma ExplainsEnd(s: seq<Bar>, c: nat)
    ensures Explains(s, |s|, c, Outcome([], EndOfSeries))
  {
  }

  /** The outcome of a scan that finds no buy is explained. */
  lemma ExplainsNoBuy(s: seq<Bar>, i: nat, c: nat)
    requires i < |s| && NoneIn(s, i, |s|, BuySignal)
    ensures Explains(s, i, c, Outcome([], NoBuySignal))
  {
  }

  /** The outcome of a scan that finds a buy but no sell after it is
      explained. */
  lemma ExplainsAwaiting(s: seq<Bar>, i: nat, c: nat, a: nat)
    requires i <= |s|
    requires IsFirstFrom(s, i, a, BuySignal) && NoneIn(s, a + 1, |s|, SellSignal)
    ensures Explains(s, i, c, Outcome([BuyEvent(c, a, s[a].close)], AwaitingSell))
  {
  }

  /** The scan's outcome meets the description. */
  lemma {:induction false} ScanExplains(s: seq<Bar>, i: nat, c: nat)
    requires i <= |s|
    ensures Explains(s, i, c, Scan(s, i, c))
    decreases |s| - i
  {
    if i == |s| {
      ExplainsEnd(s, c);
    } else {
      var buyAt := FirstMatch(s, i, BuySignal);
      if buyAt.None? {
        ExplainsNoBuy(s, i, c);
      } else {
        var a := buyAt.value;
        var sellAt := FirstMatch(s, a + 1, SellSignal);
        if sellAt.None? {
          ExplainsAwaiting(s, i, c, a);
        } else {
          var b := sellAt.value;
          ScanTrip(s, i, c, a, b);
          ScanExplains(s, b + 1, c + 1);
          ExplainsStep(s, i, c, a, b, Scan(s, b + 1, c + 1), Scan(s, i, c));
        }
      }
    }
  }

  /** A scan whose first search pair finds the trip `a`, `b` reports that
      trip ahead of the scan from just after the sell. */
  lemma ScanTrip(s: seq<Bar>, i: nat, c: nat, a: nat, b: nat)
    requires i < |s|
    requires FirstMatch(s, i, BuySignal) == Some(a)
    requires FirstMatch(s, a + 1, SellSignal) == Some(b)
    ensures IsFirstFrom(s, i, a, BuySignal) && IsFirstFrom(s, a + 1, b, SellSignal)
    ensures Scan(s, i, c) == Prepend(Trip(s, c, a, b), Scan(s, b + 1, c + 1))
  {
  }

  /** An explained outcome of a scan that starts at the end of the series
      is empty and ends the series. */
  lemma ExplainsAtEnd(s: seq<Bar>, c: nat, o: Outcome)
    requires Explains(s, |s|, c, o)
    ensures o == Outcome([], EndOfSeries)
  {
  }

  /** An explained outcome begins with the first buy from `i`, or is empty
      with NoBuySignal when there is none. */
  lemma ExplainsFirstBuy(s: seq<Bar>, i: nat, c: nat, o: Outcome)
    requires Explains(s, i, c, o) && i < |s|
    ensures FirstMatch(s, i, BuySignal).None? ==> o == Outcome([], NoBuySignal)
    ensures FirstMatch(s, i, BuySignal).Some? ==>
      var a := FirstMatch(s, i, BuySignal).value;
      |o.events| > 0 && o.events[0] == BuyEvent(c, a, s[a].close)
  {
  }

  /** After a buy at `a`, an explained outcome continues with the first sell
      after `a`, or stops there with AwaitingSell when there is none. */
  lemma ExplainsFirstSell(s: seq<Bar>, i: nat, c: nat, o: Outcome, a: nat)
    requires Explains(s, i, c, o)
    requires |o.events| > 0 && o.events[0].BuyEvent? && o.events[0].index == a
    ensures a < |s|
    ensures FirstMatch(s, a + 1, SellSignal).None? ==> o == Outcome([o.events[0]], AwaitingSell)
    ensures FirstMatch(s, a + 1, SellSignal).Some? ==>
      var b := FirstMatch(s, a + 1, SellSignal).value;
      |o.events| > 1 && o.events[1] == SellEvent(c, b, s[b].close, Roi(s[a].close, s[b].close))
  {
    var ev := o.events;
    assert IsFirstFrom(s, i, a, BuySignal);
    if |ev| > 1 {
      assert IsFirstFrom(s, a + 1, ev[1].index, SellSignal);
      FirstMatchUnique(s, a + 1, ev[1].index, SellSignal);
    } else {
      assert ev == [ev[0]];
    }
  }

  /** An outcome whose first two events are the trip `a`, `b` is that trip
      followed by the rest. */
  lemma SplitTrip(s: seq<Bar>, c: nat, a: nat, b: nat, o: Outcome)
    requires a < b < |s| && |o.events| >= 2
    requires o.events[0] == BuyEvent(c, a, s[a].close)
    requires o.events[1] == SellEvent(c, b, s[b].close, Roi(s[a].close, s[b].close))
    ensures o == Prepend(Trip(s, c, a, b), Outcome(o.events[2..], o.status))
  {
  }

  /** No other outcome meets the description. */
  lemma {:induction false} ExplainsOnlyScan(s: seq<Bar>, i: nat, c: nat, o: Outcome)
    requires Explains(s, i, c, o)
    ensures o == Scan(s, i, c)
    decreases |s| - i, 1
  {
    if i == |s| {
      ExplainsAtEnd(s, c, o);
    } else {
      ExplainsFirstBuy(s, i, c, o);
      var buyAt := FirstMatch(s, i, BuySignal);
      if buyAt.Some? {
        var a := buyAt.value;
        ExplainsFirstSell(s, i, c, o, a);
        var sellAt := FirstMatch(s, a + 1, SellSignal);
        if sellAt.Some? {
          ExplainsAfterTrip(s, i, c, o, a, sellAt.value);
        }
      }
    }
  }

  /** An explained outcome that opens with the trip `a`, `b` continues with
      the scan from just after `b`. */
  lemma {:induction false} ExplainsAfterTrip(s: seq<Bar>, i: nat, c: nat, o: Outcome, a: nat, b: nat)
    requires Explains(s, i, c, o)
    requires IsFirstFrom(s, i, a, BuySignal) && IsFirstFrom(s, a + 1, b, SellSignal)
    requires |o.events| > 1
    requires o.events[0] == BuyEvent(c, a, s[a].close)
    requires o.events[1] == SellEvent(c, b, s[b].close, Roi(s[a].close, s[b].close))
    ensures o == Prepend(Trip(s, c, a, b), Scan(s, b + 1, c + 1))
    decreases |s| - i, 0
  {
    var rest := Outcome(o.events[2..], o.status);
    SplitTrip(s, c, a, b, o);
    ExplainsStep(s, i, c, a, b, rest, o);
    ExplainsOnlyScan(s, b + 1, c + 1, rest);
  }

  /** The strategy's outcome is exactly the outcome the description admits. */
  lemma EmaStrategyCharacterised(s: seq<Bar>, o: Outcome)
    ensures Explains(s, 0, 1, o) <==> o == EmaStrategy(s)
  {
    ScanExplains(s, 0, 1);
    if Explains(s, 0, 1, o) {
      ExplainsOnlyScan(s, 0, 1, o);
    }
  }
}
