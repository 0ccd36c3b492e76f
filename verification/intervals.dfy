/** The dashboard's fixed choice of bar size for each selectable time
    period. */
module Intervals {

  /** The selectable periods, in the order the period picker lists them. */
  datatype Period = Day1 | Week1 | Month1 | Year1 | Year2 | Year3 | Year5 | Year10 | Max

  /** Bar sizes the data provider is asked for. */
  datatype Interval = Minute1 | Minute30 | Day

  /** Position of a period in the picker: longer periods come later. */
  function Rank(p: Period): nat {
    match p
    case Day1 => 0
    case Week1 => 1
    case Month1 => 2
    case Year1 => 3
    case Year2 => 4
    case Year3 => 5
    case Year5 => 6
    case Year10 => 7
    case Max => 8
  }

  /** Length of one bar in minutes. */
  function Minutes(iv: Interval): nat {
    match iv
    case Minute1 => 1
    case Minute30 => 30
    case Day => 1440
  }

  /** The bar size requested for a period: one-minute bars for a day,
      half-hour bars for a week, daily bars for a month or longer. */
  function IntervalFor(p: Period): (r: Interval)
    ensures r == Minute1 <==> p == Day1
    ensures r == Minute30 <==> p == Week1
    ensures r == Day <==> Rank(p) >= Rank(Month1)
  {
    match p
    case Day1 => Minute1
    case Week1 => Minute30
    case _ => Day
  }

  /** A longer period is never sampled at a finer bar size. */
  lemma CoarserForLonger(p: Period, q: Period)
    requires Rank(p) <= Rank(q)
    ensures Minutes(IntervalFor(p)) <= Minutes(IntervalFor(q))
  {
  }
}
