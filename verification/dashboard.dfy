/**
  The dashboard: the panels that read the ranked stats table, and the whole
  pipeline from a raw header and rows to the global overview, the ranked
  stats and the panels.
 */
module Dashboard {
  import opened Wrappers
  import opened Columns
  import opened Records
  import opened Metrics
  import opened Grouping
  import opened PlatformStats
  import opened Ranking

  /** The numeric KPI cards: total spend and total revenue over the stats rows. */
  datatype Kpis = Kpis(totalSpend: real, totalRevenue: real)

  /** A profit label drawn beside bar number `position` of the profit chart. */
  datatype Annotation = Annotation(position: nat, platform: string, profit: real)

  /** One wedge of the spend donut: its name and its value. */
  datatype Slice = Slice(name: string, spend: real)

  /** One line of the CPL table. */
  datatype TableLine = TableLine(platform: string, conversions: int, cpl: Option<real>)

  datatype Panels = Panels(kpis: Kpis, bars: seq<Annotation>, donut: seq<Slice>, table: seq<TableLine>)

  /** Profit labels for the rows, numbered from `from` on in row order. */
  function Annotate(ss: seq<Stats>, from: nat): (bs: seq<Annotation>)
    ensures |bs| == |ss|
    ensures forall i :: 0 <= i < |ss| ==> bs[i] == Annotation(from + i, ss[i].platform, ss[i].profit)
  {
    if ss == [] then [] else [Annotation(from, ss[0].platform, ss[0].profit)] + Annotate(ss[1..], from + 1)
  }

  /** Donut wedges: spend values labelled by platform, in row order. */
  function Slices(ss: seq<Stats>): (ws: seq<Slice>)
    ensures |ws| == |ss|
    ensures forall i :: 0 <= i < |ss| ==> ws[i] == Slice(ss[i].platform, ss[i].spend)
  {
    if ss == [] then [] else [Slice(ss[0].platform, ss[0].spend)] + Slices(ss[1..])
  }

  /** The CPL table: platform, conversions and CPL columns, in row order. */
  function Lines(ss: seq<Stats>): (ls: seq<TableLine>)
    ensures |ls| == |ss|
    ensures forall i :: 0 <= i < |ss| ==> ls[i] == TableLine(ss[i].platform, ss[i].conversions, ss[i].cpl)
  {
    if ss == [] then [] else [TableLine(ss[0].platform, ss[0].conversions, ss[0].cpl)] + Lines(ss[1..])
  }

  /** All panels read the same stats rows in the same order; the KPI cards sum their spend and revenue columns. */
  function Compose(ss: seq<Stats>): (p: Panels)
    ensures |p.bars| == |ss| && |p.donut| == |ss| && |p.table| == |ss|
    ensures forall i :: 0 <= i < |ss| ==>
      && p.bars[i].position == i
      && p.bars[i].platform == p.table[i].platform == p.donut[i].name == ss[i].platform
      && p.bars[i].profit == ss[i].profit
      && p.donut[i].spend == ss[i].spend
      && p.table[i].conversions == ss[i].conversions
      && p.table[i].cpl == ss[i].cpl
    ensures p.kpis.totalSpend == Totals(ss).spend && p.kpis.totalRevenue == Totals(ss).revenue
  {
    Panels(Kpis(Totals(ss).spend, Totals(ss).revenue), Annotate(ss, 0), Slices(ss), Lines(ss))
  }

  /** Everything the analysis produces from one table. */
  datatype Report = Report(overview: Overview, stats: seq<Stats>, panels: Panels)

  /** The stats table: group by platform, derive the ratio columns, rank by profit. */
  function StatsTable(rows: seq<Record>): (ss: seq<Stats>)
    ensures ProfitDescending(ss)
    ensures |ss| <= |rows|
    ensures ss == [] <==> rows == []
  {
    var ds := DeriveAll(Group(rows));
    RankLength(ds);
    Rank(ds)
  }

  /** The pipeline: normalise the header, require each column it reads exactly once, then aggregate, rank and compose. */
  function Analyse(header: seq<string>, rows: seq<Record>): (res: Result<Report, SchemaError>)
    ensures res.Failure? <==> exists n :: n in Required && multiset(NormaliseColumns(header))[n] != 1
    ensures res.Failure? ==> forall n :: n in res.error.missing <==> n in Required && n !in NormaliseColumns(header)
    ensures res.Failure? ==> forall n :: n in res.error.duplicated <==> n in Required && multiset(NormaliseColumns(header))[n] > 1
    ensures res.Success? ==> res.value.overview == Overall(rows) && ProfitDescending(res.value.stats)
    ensures res.Success? ==> multiset(res.value.stats) == multiset(DeriveAll(Group(rows)))
  {
    match CheckSchema(header)
    case Some(e) => Failure(e)
    case None =>
      var stats := StatsTable(rows);
      Success(Report(Overall(rows), stats, Compose(stats)))
  }

  /** The per-platform columns add up to the global totals, and so do the per-platform profits. */
  lemma StatsSumToTotals(rows: seq<Record>)
    ensures Totals(StatsTable(rows)) == Overall(rows).sums
    ensures ProfitSum(StatsTable(rows)) == Overall(rows).profit
  {
    var gs := Group(rows);
    GroupSum(rows);
    DeriveAllTotals(gs);
    RankTotals(DeriveAll(gs));
    ProfitSumIsTotalProfit(DeriveAll(gs));
  }

  /** The stats table has exactly one row per distinct platform of the input. */
  lemma StatsPlatforms(rows: seq<Record>)
    ensures PlatformsOf(StatsTable(rows)) == Platforms(rows)
    ensures DistinctPlatforms(StatsTable(rows))
    ensures |StatsTable(rows)| == |Platforms(rows)|
  {
    var gs := Group(rows);
    GroupShape(rows);
    DeriveAllPlatforms(gs);
    RankPlatforms(DeriveAll(gs));
    DistinctCard(StatsTable(rows));
  }

  /** A sequence with distinct platforms has as many rows as platforms. */
  lemma {:induction false} DistinctCard(ss: seq<Stats>)
    requires DistinctPlatforms(ss)
    ensures |PlatformsOf(ss)| == |ss|
  {
    if ss != [] {
      DistinctTail(ss);
      DistinctCard(ss[1..]);
      PlatformsCons(ss[0], ss[1..]);
      assert ss == [ss[0]] + ss[1..];
    }
  }

  /** Every stats row holds the sums of the input rows of its platform and correctly derived ratios. */
  lemma StatsRowsMatchInput(rows: seq<Record>)
    ensures forall s :: s in StatsTable(rows) ==>
      s.Measures() == Total(Filter(rows, s.platform)) && WellDerived(s)
  {
    var gs := Group(rows);
    var ds := DeriveAll(gs);
    GroupBucketSums(rows);
    RankMembers(ds);
    forall s | s in StatsTable(rows) ensures s.Measures() == Total(Filter(rows, s.platform)) && WellDerived(s) {
      var k :| 0 <= k < |ds| && ds[k] == s;
      assert s == Derive(gs[k]);
    }
  }

  /** The KPI cards show the global total spend and total revenue. */
  lemma KpisShowGlobalTotals(header: seq<string>, rows: seq<Record>)
    ensures Analyse(header, rows).Success? ==>
      Analyse(header, rows).value.panels.kpis.totalSpend == Overall(rows).sums.spend
    ensures Analyse(header, rows).Success? ==>
      Analyse(header, rows).value.panels.kpis.totalRevenue == Overall(rows).sums.revenue
  {
    StatsSumToTotals(rows);
  }

  /** Bar labels and CPL table of a ranked table with distinct platforms name each platform once, in profit order. */
  lemma ComposeRanked(ss: seq<Stats>)
    requires ProfitDescending(ss) && DistinctPlatforms(ss)
    ensures var p := Compose(ss);
      && |p.bars| == |p.table| == |ss|
      && (forall pl :: pl in PlatformsOf(ss) <==> exists i :: 0 <= i < |p.bars| && p.bars[i].platform == pl)
      && (forall i, j :: 0 <= i < j < |p.bars| ==> p.bars[i].profit >= p.bars[j].profit && p.bars[i].platform != p.bars[j].platform)
      && (forall i :: 0 <= i < |p.table| ==> p.table[i].platform == p.bars[i].platform)
  {
    var p := Compose(ss);
    forall pl | pl in PlatformsOf(ss)
      ensures exists i :: 0 <= i < |p.bars| && p.bars[i].platform == pl
    {
      var i :| 0 <= i < |ss| && ss[i].platform == pl;
      assert p.bars[i].platform == pl;
    }
  }

  /** Bar labels and CPL table list every input platform exactly once, in the same profit order. */
  lemma PanelsCoverPlatforms(header: seq<string>, rows: seq<Record>)
    ensures Analyse(header, rows).Success? ==> var p := Analyse(header, rows).value.panels;
      && |p.bars| == |p.table| == |Platforms(rows)|
      && (forall pl :: pl in Platforms(rows) <==> exists i :: 0 <= i < |p.bars| && p.bars[i].platform == pl)
      && (forall i, j :: 0 <= i < j < |p.bars| ==> p.bars[i].profit >= p.bars[j].profit && p.bars[i].platform != p.bars[j].platform)
      && (forall i :: 0 <= i < |p.table| ==> p.table[i].platform == p.bars[i].platform)
  {
    if Analyse(header, rows).Success? {
      var stats := StatsTable(rows);
      StatsPlatforms(rows);
      ComposeRanked(stats);
    }
  }
}
