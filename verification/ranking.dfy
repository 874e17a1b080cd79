/**
  `sort_values("profit", ascending=False)`: the stats rows ordered by profit,
  largest first. pandas' default sort is not stable and the source names no
  tie-break, so the model promises only a permutation with non-increasing profit.
 */
module Ranking {
  import opened Records
  import opened PlatformStats

  /** Profit never increases along the sequence. */
  predicate ProfitDescending(ss: seq<Stats>) {
    forall i, j :: 0 <= i < j < |ss| ==> ss[i].profit >= ss[j].profit
  }

  /** Inserts one row into a profit-descending sequence before the first row with smaller or equal profit. */
  function Place(ss: seq<Stats>, x: Stats): (r: seq<Stats>)
    requires ProfitDescending(ss)
    ensures ProfitDescending(r)
    ensures multiset(r) == multiset(ss) + multiset{x}
    ensures r != [] && (r[0] == x || (ss != [] && r[0] == ss[0]))
  {
    if ss == [] || x.profit >= ss[0].profit then [x] + ss
    else
      var rest := Place(ss[1..], x);
      assert ss == [ss[0]] + ss[1..];
      [ss[0]] + rest
  }

  /** The stats rows ranked by profit, largest first. */
  function Rank(ss: seq<Stats>): (r: seq<Stats>)
    ensures ProfitDescending(r)
    ensures multiset(r) == multiset(ss)
  {
    if ss == [] then []
    else
      assert ss == [ss[0]] + ss[1..];
      Place(Rank(ss[1..]), ss[0])
  }

  /** Ranking keeps the length. */
  lemma RankLength(ss: seq<Stats>)
    ensures |Rank(ss)| == |ss|
  {
    assert |multiset(Rank(ss))| == |multiset(ss)|;
  }

  /** Ranking keeps exactly the same rows, so every row property of the input holds of the output. */
  lemma RankMembers(ss: seq<Stats>)
    ensures forall x :: x in Rank(ss) <==> x in ss
  {
    forall x ensures x in Rank(ss) <==> x in ss {
      assert x in Rank(ss) <==> x in multiset(Rank(ss));
      assert x in ss <==> x in multiset(ss);
    }
  }

  /** Inserting a row adds its measures to the column sums. */
  lemma {:induction false} PlaceTotals(ss: seq<Stats>, x: Stats)
    requires ProfitDescending(ss)
    ensures Totals(Place(ss, x)) == x.Measures().Plus(Totals(ss))
  {
    var r := Place(ss, x);
    if ss == [] || x.profit >= ss[0].profit {
      assert r[0] == x && r[1..] == ss;
    } else {
      assert r[0] == ss[0] && r[1..] == Place(ss[1..], x);
      PlaceTotals(ss[1..], x);
      PlusSwap(ss[0].Measures(), x.Measures(), Totals(ss[1..]));
    }
  }

  /** Inserting a row adds its profit to the profit sum. */
  lemma {:induction false} PlaceProfitSum(ss: seq<Stats>, x: Stats)
    requires ProfitDescending(ss)
    ensures ProfitSum(Place(ss, x)) == x.profit + ProfitSum(ss)
  {
    var r := Place(ss, x);
    if ss == [] || x.profit >= ss[0].profit {
      assert r[0] == x && r[1..] == ss;
    } else {
      assert r[0] == ss[0] && r[1..] == Place(ss[1..], x);
      PlaceProfitSum(ss[1..], x);
    }
  }

  /** Ranking keeps the column sums and the profit sum. */
  lemma {:induction false} RankTotals(ss: seq<Stats>)
    ensures Totals(Rank(ss)) == Totals(ss)
    ensures ProfitSum(Rank(ss)) == ProfitSum(ss)
  {
    if ss != [] {
      RankTotals(ss[1..]);
      PlaceTotals(Rank(ss[1..]), ss[0]);
      PlaceProfitSum(Rank(ss[1..]), ss[0]);
    }
  }

  lemma PlatformsCons(x: Stats, ss: seq<Stats>)
    ensures PlatformsOf([x] + ss) == {x.platform} + PlatformsOf(ss)
  {
    var r := [x] + ss;
    assert r[0] == x;
    forall p | p in PlatformsOf(ss) ensures p in PlatformsOf(r) {
      var k :| 0 <= k < |ss| && ss[k].platform == p;
      assert r[k + 1].platform == p;
    }
    forall p | p in PlatformsOf(r) ensures p in {x.platform} + PlatformsOf(ss) {
      var k :| 0 <= k < |r| && r[k].platform == p;
      if k > 0 { assert ss[k - 1].platform == p; }
    }
  }

  lemma DistinctCons(x: Stats, ss: seq<Stats>)
    requires DistinctPlatforms(ss) && x.platform !in PlatformsOf(ss)
    ensures DistinctPlatforms([x] + ss)
  {
    var r := [x] + ss;
    forall i, j | 0 <= i < |r| && 0 <= j < |r| && i != j ensures r[i].platform != r[j].platform {
      if i > 0 { assert r[i] == ss[i - 1]; }
      if j > 0 { assert r[j] == ss[j - 1]; }
    }
  }

  /** Dropping the first row of distinct rows leaves distinct rows without its platform. */
  lemma DistinctTail(ss: seq<Stats>)
    requires DistinctPlatforms(ss) && ss != []
    ensures DistinctPlatforms(ss[1..])
    ensures ss[0].platform !in PlatformsOf(ss[1..])
  {
    forall i, j | 0 <= i < |ss[1..]| && 0 <= j < |ss[1..]| && i != j
      ensures ss[1..][i].platform != ss[1..][j].platform
    {
      assert ss[1..][i] == ss[i + 1] && ss[1..][j] == ss[j + 1];
    }
    forall k | 0 <= k < |ss[1..]| ensures ss[1..][k].platform != ss[0].platform {
      assert ss[1..][k] == ss[k + 1];
    }
  }

  /** Inserting a row adds its platform, and a new platform keeps the platforms distinct. */
  lemma {:induction false} PlacePlatforms(ss: seq<Stats>, x: Stats)
    requires ProfitDescending(ss)
    ensures PlatformsOf(Place(ss, x)) == PlatformsOf(ss) + {x.platform}
    ensures DistinctPlatforms(ss) && x.platform !in PlatformsOf(ss) ==> DistinctPlatforms(Place(ss, x))
  {
    if ss == [] || x.profit >= ss[0].profit {
      PlatformsCons(x, ss);
      if DistinctPlatforms(ss) && x.platform !in PlatformsOf(ss) { DistinctCons(x, ss); }
    } else {
      var rest := Place(ss[1..], x);
      assert Place(ss, x) == [ss[0]] + rest;
      assert ss == [ss[0]] + ss[1..];
      PlacePlatforms(ss[1..], x);
      PlatformsCons(ss[0], rest);
      PlatformsCons(ss[0], ss[1..]);
      if DistinctPlatforms(ss) && x.platform !in PlatformsOf(ss) {
        DistinctTail(ss);
        DistinctCons(ss[0], rest);
      }
    }
  }

  /** Ranking keeps the set of platforms and their distinctness. */
  lemma {:induction false} RankPlatforms(ss: seq<Stats>)
    ensures PlatformsOf(Rank(ss)) == PlatformsOf(ss)
    ensures DistinctPlatforms(ss) ==> DistinctPlatforms(Rank(ss))
  {
    if ss != [] {
      RankPlatforms(ss[1..]);
      PlacePlatforms(Rank(ss[1..]), ss[0]);
      PlatformsCons(ss[0], ss[1..]);
      assert ss == [ss[0]] + ss[1..];
      if DistinctPlatforms(ss) {
        DistinctTail(ss);
      }
    }
  }
}
