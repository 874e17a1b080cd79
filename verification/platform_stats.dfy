/**
  The per-platform stats table: the group-by sums of each platform plus the
  derived columns profit, ROI, ROAS and CPL. The module-level script derives
  ROI and ROAS, the dashboard class derives ROI and CPL; one row here carries all three.
 */
module PlatformStats {
  import opened Wrappers
  import opened Records
  import opened Metrics
  import opened Grouping

  /** One row of the stats table. */
  datatype Stats = Stats(
    platform: string,
    spend: real,
    revenue: real,
    clicks: int,
    conversions: int,
    profit: real,
    roi: Option<real>,
    roas: Option<real>,
    cpl: Option<real>)
  {
    /** The four summed measures of this row. */
    function Measures(): Sums {
      Sums(spend, revenue, clicks, conversions)
    }
  }

  /** The derived columns of a row agree with its summed columns. */
  predicate WellDerived(s: Stats) {
    && s.profit == s.revenue - s.spend
    && s.roi == Roi(s.profit, s.spend)
    && s.roas == Roas(s.revenue, s.spend)
    && s.cpl == Cpl(s.spend, s.conversions)
  }

  /** The stats row of one bucket. */
  function Derive(b: Bucket): (s: Stats)
    ensures s.platform == b.platform && s.Measures() == b.sums
    ensures WellDerived(s)
    ensures s.roi.None? <==> b.sums.spend == 0.0
    ensures s.roas.None? <==> b.sums.spend == 0.0
    ensures s.cpl.None? <==> b.sums.conversions == 0
  {
    var profit := b.sums.revenue - b.sums.spend;
    Stats(b.platform, b.sums.spend, b.sums.revenue, b.sums.clicks, b.sums.conversions,
          profit, Roi(profit, b.sums.spend), Roas(b.sums.revenue, b.sums.spend),
          Cpl(b.sums.spend, b.sums.conversions))
  }

  /** The stats rows of all buckets, in bucket order. */
  function DeriveAll(gs: seq<Bucket>): (ss: seq<Stats>)
    ensures |ss| == |gs|
    ensures forall i :: 0 <= i < |gs| ==> ss[i] == Derive(gs[i])
  {
    if gs == [] then [] else [Derive(gs[0])] + DeriveAll(gs[1..])
  }

  /** Field-by-field sum of the measures over stats rows. */
  function Totals(ss: seq<Stats>): Sums {
    if ss == [] then Zero else ss[0].Measures().Plus(Totals(ss[1..]))
  }

  /** Sum of the profit column. */
  function ProfitSum(ss: seq<Stats>): real {
    if ss == [] then 0.0 else ss[0].profit + ProfitSum(ss[1..])
  }

  /** The platforms that have a stats row. */
  function PlatformsOf(ss: seq<Stats>): (ps: set<string>)
    ensures forall p :: p in ps <==> exists i :: 0 <= i < |ss| && ss[i].platform == p
  {
    set i | 0 <= i < |ss| :: ss[i].platform
  }

  /** No platform has two stats rows. */
  predicate DistinctPlatforms(ss: seq<Stats>) {
    forall i, j :: 0 <= i < |ss| && 0 <= j < |ss| && i != j ==> ss[i].platform != ss[j].platform
  }

  /** Deriving keeps the sums: the stats rows add up to the bucket totals. */
  lemma {:induction false} DeriveAllTotals(gs: seq<Bucket>)
    ensures Totals(DeriveAll(gs)) == SumBuckets(gs)
  {
    if gs != [] {
      assert DeriveAll(gs)[1..] == DeriveAll(gs[1..]);
      DeriveAllTotals(gs[1..]);
    }
  }

  /** When every row is well derived, the profits add up to total revenue minus total spend. */
  lemma {:induction false} ProfitSumIsTotalProfit(ss: seq<Stats>)
    requires forall i :: 0 <= i < |ss| ==> WellDerived(ss[i])
    ensures ProfitSum(ss) == Totals(ss).revenue - Totals(ss).spend
  {
    if ss != [] {
      assert WellDerived(ss[0]);
      ProfitSumIsTotalProfit(ss[1..]);
    }
  }

  /** Deriving keeps the platforms and their distinctness. */
  lemma DeriveAllPlatforms(gs: seq<Bucket>)
    requires Ascending(gs)
    ensures PlatformsOf(DeriveAll(gs)) == Keys(gs)
    ensures DistinctPlatforms(DeriveAll(gs))
  {
    AscendingDistinct(gs);
    var ss := DeriveAll(gs);
    forall p | p in Keys(gs) ensures p in PlatformsOf(ss) {
      var k :| 0 <= k < |gs| && gs[k].platform == p;
      assert ss[k].platform == p;
    }
  }
}
