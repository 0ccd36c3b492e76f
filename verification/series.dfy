/** One row of the indicator-augmented price table that the dashboard builds
    before it evaluates its strategy: the OHLCV fields of a bar plus the
    moving-average columns, where `None` stands for the NaN a trailing average
    holds until its window has filled. `open` and `ema20` are not read by the
    strategy or the summary metrics; they are kept only to mirror the table's
    columns. */
module Series {
  import opened Wrappers

  datatype Bar = Bar(
    time: int,             // the bar's timestamp, as an ordinal
    open: real,
    high: real,
    low: real,
    close: real,
    volume: nat,
    sma20: Option<real>,
    sma50: Option<real>,
    sma200: Option<real>,
    ema20: Option<real>
  )

  /** Index order is time order: timestamps strictly increase along the table. */
  ghost predicate Chronological(s: seq<Bar>) {
    forall j, k :: 0 <= j < k < |s| ==> s[j].time < s[k].time
  }
}
