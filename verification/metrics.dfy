/** The summary the dashboard shows above its chart: last price, change and
    percent change against the first bar of the range, highest high, lowest
    low and total volume. The percent change is the same percentage formula
    as a round trip's return, so a zero first close leaves the reals. */
module Metrics {
  import opened Wrappers
  import opened Series
  import opened Returns

  datatype Summary = Summary(
    lastClose: real,
    change: real,
    pctChange: Option<real>,
    high: real,
    low: real,
    volume: nat
  )

  /** The highest `high` of a non-empty series. */
  function MaxHigh(s: seq<Bar>): (r: real)
    requires |s| > 0
    ensures forall k :: 0 <= k < |s| ==> s[k].high <= r
    ensures exists k :: 0 <= k < |s| && s[k].high == r
  {
    if |s| == 1 then s[0].high
    else
      var rest := MaxHigh(s[1..]);
      assert forall k :: 1 <= k < |s| ==> s[k] == s[1..][k - 1];
      if s[0].high >= rest then s[0].high else rest
  }

  /** The lowest `low` of a non-empty series. */
  function MinLow(s: seq<Bar>): (r: real)
    requires |s| > 0
    ensures forall k :: 0 <= k < |s| ==> r <= s[k].low
    ensures exists k :: 0 <= k < |s| && s[k].low == r
  {
    if |s| == 1 then s[0].low
    else
      var rest := MinLow(s[1..]);
      assert forall k :: 1 <= k < |s| ==> s[k] == s[1..][k - 1];
      if s[0].low <= rest then s[0].low else rest
  }

  /** The sum of the `volume` column. */
  function TotalVolume(s: seq<Bar>): (r: nat)
    ensures r == 0 <==> forall k :: 0 <= k < |s| ==> s[k].volume == 0
  {
    if |s| == 0 then 0 else s[0].volume + TotalVolume(s[1..])
  }

  /** Volume adds up across any split of the series. */
  lemma {:induction false} TotalVolumeSplit(a: seq<Bar>, b: seq<Bar>)
    ensures TotalVolume(a + b) == TotalVolume(a) + TotalVolume(b)
  {
    if |a| == 0 {
      assert a + b == b;
    } else {
      assert (a + b)[1..] == a[1..] + b;
      TotalVolumeSplit(a[1..], b);
    }
  }

  /** Total volume is at least the volume of any single bar. */
  lemma {:induction false} TotalVolumeBound(s: seq<Bar>, k: nat)
    requires k < |s|
    ensures s[k].volume <= TotalVolume(s)
  {
    if k > 0 {
      TotalVolumeBound(s[1..], k - 1);
    }
  }

  /** The summary of a series; `None` on an empty series, where taking the
      last close raises an index error. */
  function CalculateMetrics(s: seq<Bar>): (r: Option<Summary>)
    ensures r.None? <==> |s| == 0
    ensures r.Some? ==> r.value.lastClose == s[|s| - 1].close
    ensures r.Some? ==> r.value.change + s[0].close == r.value.lastClose
    ensures r.Some? ==> (r.value.pctChange.Some? <==> s[0].close != 0.0)
    ensures r.Some? && r.value.pctChange.Some? ==>
      r.value.pctChange.value * s[0].close == r.value.change * 100.0
    ensures r.Some? ==> forall k :: 0 <= k < |s| ==> s[k].high <= r.value.high
    ensures r.Some? ==> exists k :: 0 <= k < |s| && s[k].high == r.value.high
    ensures r.Some? ==> forall k :: 0 <= k < |s| ==> r.value.low <= s[k].low
    ensures r.Some? ==> exists k :: 0 <= k < |s| && s[k].low == r.value.low
    ensures r.Some? ==> r.value.volume == TotalVolume(s)
  {
    if |s| == 0 then None
    else
      var lastClose := s[|s| - 1].close;
      var firstClose := s[0].close;
      Some(Summary(lastClose, lastClose - firstClose, Roi(firstClose, lastClose),
                   MaxHigh(s), MinLow(s), TotalVolume(s)))
  }

  /** On a series that only rose, change and percent change are positive. */
  lemma RisingSeriesGains(s: seq<Bar>)
    requires |s| > 0 && 0.0 < s[0].close < s[|s| - 1].close
    ensures CalculateMetrics(s).Some?
    ensures CalculateMetrics(s).value.change > 0.0
    ensures CalculateMetrics(s).value.pctChange.Some? && CalculateMetrics(s).value.pctChange.value > 0.0
  {
  }
}
