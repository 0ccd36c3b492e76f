/** Return on investment of one completed round trip, in percent of the
    buying price. The dashboard divides numpy floats, so a zero buying price
    yields an infinity or NaN rather than a number; `None` stands for that. */
module Returns {
  import opened Wrappers

  /** The percentage return of buying at `buy` and selling at `sell`. */
  function Roi(buy: real, sell: real): (r: Option<real>)
    ensures r.Some? <==> buy != 0.0
    ensures r.Some? ==> r.value * buy == (sell - buy) * 100.0
  {
    if buy == 0.0 then None else Some((sell - buy) / buy * 100.0)
  }

  /** The selling price that a return of `roi` percent on `buy` reaches. */
  function SellAt(buy: real, roi: real): real {
    buy + buy * roi / 100.0
  }

  /** Roi and SellAt are inverse: the return recovers the selling price. */
  lemma RoiRoundTrip(buy: real, sell: real)
    requires buy != 0.0
    ensures Roi(buy, sell).Some? && SellAt(buy, Roi(buy, sell).value) == sell
  {
  }

  /** For a positive buying price the return has the sign of the price move:
      a gain is positive, a loss negative, an unchanged price zero. */
  lemma RoiSign(buy: real, sell: real)
    requires buy > 0.0
    ensures Roi(buy, sell).Some?
    ensures Roi(buy, sell).value > 0.0 <==> sell > buy
    ensures Roi(buy, sell).value < 0.0 <==> sell < buy
    ensures Roi(buy, sell).value == 0.0 <==> sell == buy
  {
  }

  /** Buying at 100 and selling at 120 returns 20 percent; selling at 80
      returns -20 percent. */
  lemma RoiExamples()
    ensures Roi(100.0, 120.0) == Some(20.0)
    ensures Roi(100.0, 80.0) == Some(-20.0)
  {
  }
}
