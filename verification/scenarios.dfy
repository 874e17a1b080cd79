/** A header that already carries the normalised names. */
module HeaderExample {
  import opened Records
  import opened Columns
  import opened Dashboard

  const Header: seq<string> := ["platform", "spend", "revenue", "clicks", "conversions"]

  /** Each of its names is normal. */
  lemma HeaderIsNormal()
    ensures forall i :: 0 <= i < |Header| ==> IsNormal(Header[i])
  {
    assert IsNormal("platform");
    assert IsNormal("spend");
    assert IsNormal("revenue");
    assert IsNormal("clicks");
    assert IsNormal("conversions");
  }

  /** Normalisation leaves it unchanged, and it holds every required column exactly once. */
  lemma HeaderComplete()
    ensures NormaliseColumns(Header) == Header
    ensures CheckSchema(Header).None?
  {
    HeaderIsNormal();
    NormalColumnsFixed(Header);
    HeaderCounts();
  }

  /** Each required name occurs once in the header. */
  lemma HeaderCounts()
    ensures forall n :: n in Required ==> multiset(Header)[n] == 1
  {
    assert Header == Required;
    var m := multiset(Header);
    assert m == multiset{"platform", "spend", "revenue", "clicks", "conversions"};
  }

  /** A header that repeats `platform`. */
  const RepeatedHeader: seq<string> := ["platform", "platform", "spend", "revenue", "clicks", "conversions"]

  /** Its names are normal, so normalisation keeps both copies of `platform`. */
  lemma RepeatedHeaderNormal()
    ensures NormaliseColumns(RepeatedHeader) == RepeatedHeader
  {
    assert IsNormal("platform") && IsNormal("spend") && IsNormal("revenue");
    assert IsNormal("clicks") && IsNormal("conversions");
    assert forall i :: 0 <= i < |RepeatedHeader| ==> IsNormal(RepeatedHeader[i]);
    NormalColumnsFixed(RepeatedHeader);
  }

  /** The analysis rejects that header and names `platform` as duplicated. */
  lemma RepeatedPlatformRejected(rows: seq<Record>)
    ensures Analyse(RepeatedHeader, rows).Failure?
    ensures "platform" in Analyse(RepeatedHeader, rows).error.duplicated
  {
    RepeatedHeaderNormal();
    RepeatedCount();
    assert Required[0] == "platform";
    assert multiset(NormaliseColumns(RepeatedHeader))["platform"] > 1;
  }

  lemma RepeatedCount()
    ensures multiset(RepeatedHeader)["platform"] >= 2
  {
    var rest := RepeatedHeader[2..];
    assert RepeatedHeader == ["platform"] + ["platform"] + rest;
    assert multiset(RepeatedHeader) == multiset{"platform", "platform"} + multiset(rest);
  }
}

/** Worked examples of the pipeline on small tables. */
module Scenarios {
  import opened Wrappers
  import opened Records
  import opened Metrics
  import opened Grouping
  import opened PlatformStats
  import opened Ranking
  import opened Dashboard
  import opened HeaderExample

  /** Two platforms: totals, global ratios and the profit order of the stats table. */
  lemma TwoPlatforms()
    ensures var rows := [Record("Google", 100.0, 300.0, 50, 10), Record("Meta", 200.0, 250.0, 80, 5)];
      && Overall(rows).sums == Sums(300.0, 550.0, 130, 15)
      && Overall(rows).profit == 250.0
      && Overall(rows).cpl == Some(20.0)
      && |StatsTable(rows)| == 2
      && StatsTable(rows)[0].platform == "Google" && StatsTable(rows)[0].profit == 200.0
      && StatsTable(rows)[1].platform == "Meta" && StatsTable(rows)[1].profit == 50.0
  {
    var rows := [Record("Google", 100.0, 300.0, 50, 10), Record("Meta", 200.0, 250.0, 80, 5)];
    assert rows[1..] == [rows[1]];
    assert Below("Google", "Meta");
    var gs := Group(rows);
    assert gs == [Bucket("Google", Sums(100.0, 300.0, 50, 10)), Bucket("Meta", Sums(200.0, 250.0, 80, 5))];
  }

  const ZeroSpendRows: seq<Record> := [Record("Organic", 0.0, 50.0, 10, 2)]

  /** A platform with zero spend has undefined ROI and ROAS but a defined profit and CPL. */
  lemma ZeroSpendStats()
    ensures StatsTable(ZeroSpendRows) == [Stats("Organic", 0.0, 50.0, 10, 2, 50.0, None, None, Some(0.0))]
  {
    var b := Bucket("Organic", Sums(0.0, 50.0, 10, 2));
    assert ZeroSpendRows[1..] == [];
    assert Group(ZeroSpendRows) == AddRow([], ZeroSpendRows[0]) == [b];
    var d := Derive(b);
    assert d.roi == None && d.roas == None && d.cpl == Some(0.0);
    assert DeriveAll([b]) == [d];
    assert [d][1..] == [];
    assert Rank([d]) == Place([], d) == [d];
  }

  /** With every required column present, the analysis returns the overview, the stats table and its panels. */
  lemma AnalyseSucceeds(header: seq<string>, rows: seq<Record>)
    ensures Columns.CheckSchema(header).None? ==>
      Analyse(header, rows) == Success(Report(Overall(rows), StatsTable(rows), Compose(StatsTable(rows))))
  {
  }

  /** A one-row stats table gives one donut wedge and one table line. */
  lemma ComposeOne(x: Stats)
    ensures Compose([x]).donut == [Slice(x.platform, x.spend)]
    ensures Compose([x]).table == [TableLine(x.platform, x.conversions, x.cpl)]
  {
  }

  /** That platform keeps its place in the donut and in the CPL table. */
  lemma ZeroSpendPanels()
    ensures Analyse(Header, ZeroSpendRows).Success?
    ensures Analyse(Header, ZeroSpendRows).value.panels.donut == [Slice("Organic", 0.0)]
    ensures Analyse(Header, ZeroSpendRows).value.panels.table == [TableLine("Organic", 2, Some(0.0))]
  {
    HeaderComplete();
    AnalyseSucceeds(Header, ZeroSpendRows);
    ZeroSpendStats();
    ComposeOne(Stats("Organic", 0.0, 50.0, 10, 2, 50.0, None, None, Some(0.0)));
  }

  /** An empty table is not an error: every total is zero, both global ratios are undefined, and the stats table is empty. */
  lemma EmptyTable()
    ensures Analyse(Header, []).Success?
    ensures Analyse(Header, []).value.overview == Overview(Zero, 0.0, None, None)
    ensures Analyse(Header, []).value.stats == []
    ensures Analyse(Header, []).value.panels.kpis == Kpis(0.0, 0.0)
  {
    HeaderComplete();
  }
}
