/**
  Ratio metrics and the global overview. The source divides without a guard,
  so a zero denominator yields inf or NaN there; here it yields `None`.
 */
module Metrics {
  import opened Wrappers
  import opened Records

  /** Return on investment in percent: profit / spend * 100. */
  function Roi(profit: real, spend: real): (q: Option<real>)
    ensures q.None? <==> spend == 0.0
    ensures q.Some? ==> q.value * spend == profit * 100.0
  {
    if spend == 0.0 then None else Some(profit / spend * 100.0)
  }

  /** Return on ad spend: revenue / spend. */
  function Roas(revenue: real, spend: real): (q: Option<real>)
    ensures q.None? <==> spend == 0.0
    ensures q.Some? ==> q.value * spend == revenue
  {
    if spend == 0.0 then None else Some(revenue / spend)
  }

  /** Cost per lead: spend / conversions. */
  function Cpl(spend: real, conversions: int): (q: Option<real>)
    ensures q.None? <==> conversions == 0
    ensures q.Some? ==> q.value * conversions as real == spend
  {
    if conversions == 0 then None else Some(spend / conversions as real)
  }

  /** ROI and ROAS describe the same ratio: ROI = (ROAS - 1) * 100 whenever spend is non-zero. */
  lemma RoiFromRoas(revenue: real, spend: real)
    requires spend != 0.0
    ensures Roi(revenue - spend, spend).value == (Roas(revenue, spend).value - 1.0) * 100.0
  {
    var roas := revenue / spend;
    calc {
      (revenue - spend) / spend * 100.0;
      { assert (revenue - spend) / spend == revenue / spend - spend / spend; }
      (roas - 1.0) * 100.0;
    }
  }

  /** ROI is positive exactly when profit and spend have the same sign. */
  lemma RoiSign(profit: real, spend: real)
    requires spend != 0.0
    ensures Roi(profit, spend).value > 0.0 <==> (profit > 0.0 && spend > 0.0) || (profit < 0.0 && spend < 0.0)
  {
    var q := Roi(profit, spend).value;
    assert q * spend == profit * 100.0;
    if q > 0.0 && spend > 0.0 { assert q * spend > 0.0; }
    if q > 0.0 && spend < 0.0 { assert q * spend < 0.0; }
    if q <= 0.0 && spend > 0.0 { assert q * spend <= 0.0; }
    if q <= 0.0 && spend < 0.0 { assert q * spend >= 0.0; }
  }

  /** The global metrics over all rows. */
  datatype Overview = Overview(sums: Sums, profit: real, roi: Option<real>, cpl: Option<real>)

  /** Totals of every measure, profit, and the global ROI and CPL. */
  function Overall(rows: seq<Record>): (o: Overview)
    ensures o.sums == Total(rows)
    ensures o.profit == o.sums.revenue - o.sums.spend
    ensures o.roi.None? <==> o.sums.spend == 0.0
    ensures o.roi.Some? ==> o.roi.value * o.sums.spend == o.profit * 100.0
    ensures o.cpl.None? <==> o.sums.conversions == 0
    ensures o.cpl.Some? ==> o.cpl.value * o.sums.conversions as real == o.sums.spend
  {
    var s := Total(rows);
    Overview(s, s.Profit(), Roi(s.Profit(), s.spend), Cpl(s.spend, s.conversions))
  }

  /** An empty table is a valid degenerate input: all sums are zero and both ratios are undefined. */
  lemma EmptyOverview()
    ensures Overall([]) == Overview(Zero, 0.0, None, None)
  {
  }
}
