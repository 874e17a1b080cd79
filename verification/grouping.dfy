/**
  `groupby("platform").agg(sum)`: one bucket per distinct platform holding the
  sums of its rows. pandas sorts group keys by default, so the buckets come out
  in ascending platform order (code-point lexicographic, as Python compares strings).
 */
module Grouping {
  import opened Records

  /** Strict lexicographic order on strings by code point. */
  predicate Below(a: string, b: string) {
    if |a| == 0 then |b| > 0
    else if |b| == 0 then false
    else if a[0] != b[0] then a[0] < b[0]
    else Below(a[1..], b[1..])
  }

  lemma {:induction false} BelowIrreflexive(a: string)
    ensures !Below(a, a)
  {
    if |a| > 0 { BelowIrreflexive(a[1..]); }
  }

  lemma {:induction false} BelowTransitive(a: string, b: string, c: string)
    requires Below(a, b) && Below(b, c)
    ensures Below(a, c)
  {
    if |a| > 0 && |b| > 0 && |c| > 0 && a[0] == b[0] && b[0] == c[0] {
      BelowTransitive(a[1..], b[1..], c[1..]);
    }
  }

  lemma {:induction false} BelowTotal(a: string, b: string)
    ensures a == b || Below(a, b) || Below(b, a)
  {
    if |a| > 0 && |b| > 0 && a[0] == b[0] {
      BelowTotal(a[1..], b[1..]);
      if a[1..] == b[1..] {
        assert a == [a[0]] + a[1..] && b == [b[0]] + b[1..];
      }
    }
  }

  /** One output row of the group-by: a platform and the sums of its rows. */
  datatype Bucket = Bucket(platform: string, sums: Sums)

  /** Buckets strictly ascending by platform; in particular no platform occurs twice. */
  predicate Ascending(gs: seq<Bucket>) {
    forall i, j :: 0 <= i < j < |gs| ==> Below(gs[i].platform, gs[j].platform)
  }

  /** The platforms that have a bucket. */
  function Keys(gs: seq<Bucket>): (ks: set<string>)
    ensures forall p :: p in ks <==> exists i :: 0 <= i < |gs| && gs[i].platform == p
  {
    set i | 0 <= i < |gs| :: gs[i].platform
  }

  /** The sums recorded for platform `p`, or zero when `p` has no bucket. */
  function Lookup(gs: seq<Bucket>, p: string): Sums {
    if gs == [] then Zero
    else if gs[0].platform == p then gs[0].sums
    else Lookup(gs[1..], p)
  }

  /** Field-by-field sum over all buckets. */
  function SumBuckets(gs: seq<Bucket>): Sums {
    if gs == [] then Zero else gs[0].sums.Plus(SumBuckets(gs[1..]))
  }

  lemma AscendingTail(gs: seq<Bucket>)
    requires Ascending(gs) && gs != []
    ensures Ascending(gs[1..])
    ensures forall k :: 0 <= k < |gs[1..]| ==> Below(gs[0].platform, gs[1..][k].platform)
  {
  }

  /** In ascending buckets, a platform below the first one has no bucket. */
  lemma {:induction false} LookupBelowFirst(gs: seq<Bucket>, p: string)
    requires Ascending(gs) && gs != [] && Below(p, gs[0].platform)
    ensures p !in Keys(gs)
  {
    forall k | 0 <= k < |gs| ensures gs[k].platform != p {
      if k == 0 {
        BelowIrreflexive(p);
      } else {
        if gs[k].platform == p {
          BelowTransitive(p, gs[0].platform, p);
          BelowIrreflexive(p);
        }
      }
    }
  }

  /** A platform with no bucket looks up as zero. */
  lemma {:induction false} LookupAbsent(gs: seq<Bucket>, p: string)
    requires p !in Keys(gs)
    ensures Lookup(gs, p) == Zero
  {
    if gs != [] {
      assert gs[0].platform != p;
      assert p !in Keys(gs[1..]) by {
        forall k | 0 <= k < |gs[1..]| ensures gs[1..][k].platform != p {
          assert gs[1..][k] == gs[k + 1];
        }
      }
      LookupAbsent(gs[1..], p);
    }
  }

  /** Adds one row into the buckets: into its platform's bucket, or as a new bucket in key order. */
  function AddRow(gs: seq<Bucket>, r: Record): (out: seq<Bucket>)
    ensures |gs| <= |out| <= |gs| + 1
    ensures out != []
  {
    if gs == [] then [Bucket(r.platform, Of(r))]
    else if gs[0].platform == r.platform then [Bucket(r.platform, Of(r).Plus(gs[0].sums))] + gs[1..]
    else if Below(r.platform, gs[0].platform) then [Bucket(r.platform, Of(r))] + gs
    else [gs[0]] + AddRow(gs[1..], r)
  }

  /** Adding a row adds its platform to the keys and no other. */
  lemma {:induction false} AddRowKeys(gs: seq<Bucket>, r: Record)
    ensures Keys(AddRow(gs, r)) == Keys(gs) + {r.platform}
  {
    var out := AddRow(gs, r);
    if gs == [] {
      assert out[0].platform == r.platform;
    } else if gs[0].platform == r.platform {
      assert out[1..] == gs[1..];
      forall p | p in Keys(gs) ensures p in Keys(out) {
        var k :| 0 <= k < |gs| && gs[k].platform == p;
        assert out[k].platform == p;
      }
    } else if Below(r.platform, gs[0].platform) {
      KeysCons(Bucket(r.platform, Of(r)), gs);
    } else {
      AddRowKeys(gs[1..], r);
      KeysCons(gs[0], AddRow(gs[1..], r));
      KeysCons(gs[0], gs[1..]);
      assert gs == [gs[0]] + gs[1..];
    }
  }

  lemma KeysCons(b: Bucket, gs: seq<Bucket>)
    ensures Keys([b] + gs) == {b.platform} + Keys(gs)
  {
    var out := [b] + gs;
    assert out[0] == b;
    forall p | p in Keys(gs) ensures p in Keys(out) {
      var k :| 0 <= k < |gs| && gs[k].platform == p;
      assert out[k + 1].platform == p;
    }
    forall p | p in Keys(out) ensures p in {b.platform} + Keys(gs) {
      var k :| 0 <= k < |out| && out[k].platform == p;
      if k > 0 { assert gs[k - 1].platform == p; }
    }
  }

  /** Prepending a bucket below every existing key keeps the buckets ascending. */
  lemma AscendingCons(b: Bucket, gs: seq<Bucket>)
    requires Ascending(gs)
    requires forall p :: p in Keys(gs) ==> Below(b.platform, p)
    ensures Ascending([b] + gs)
  {
    var out := [b] + gs;
    forall i, j | 0 <= i < j < |out| ensures Below(out[i].platform, out[j].platform) {
      assert out[j] == gs[j - 1];
      if i > 0 { assert out[i] == gs[i - 1]; }
    }
  }

  /** Adding a row keeps the buckets ascending. */
  lemma {:induction false} AddRowAscending(gs: seq<Bucket>, r: Record)
    requires Ascending(gs)
    ensures Ascending(AddRow(gs, r))
  {
    if gs == [] {
    } else if gs[0].platform == r.platform {
      AscendingTail(gs);
      AscendingCons(Bucket(r.platform, Of(r).Plus(gs[0].sums)), gs[1..]);
    } else if Below(r.platform, gs[0].platform) {
      forall p | p in Keys(gs) ensures Below(r.platform, p) {
        var k :| 0 <= k < |gs| && gs[k].platform == p;
        if k > 0 { BelowTransitive(r.platform, gs[0].platform, p); }
      }
      AscendingCons(Bucket(r.platform, Of(r)), gs);
    } else {
      AscendingTail(gs);
      BelowTotal(r.platform, gs[0].platform);
      AddRowAscending(gs[1..], r);
      AddRowKeys(gs[1..], r);
      forall p | p in Keys(AddRow(gs[1..], r)) ensures Below(gs[0].platform, p) {
        if p != r.platform {
          var k :| 0 <= k < |gs[1..]| && gs[1..][k].platform == p;
        }
      }
      AscendingCons(gs[0], AddRow(gs[1..], r));
    }
  }

  /** Adding a row adds its measures to its platform's sums and leaves every other platform alone. */
  lemma {:induction false} AddRowLookup(gs: seq<Bucket>, r: Record, p: string)
    requires Ascending(gs)
    ensures Lookup(AddRow(gs, r), p) == (if p == r.platform then Of(r).Plus(Lookup(gs, p)) else Lookup(gs, p))
  {
    if gs == [] {
    } else if gs[0].platform == r.platform {
      assert AddRow(gs, r)[1..] == gs[1..];
    } else if Below(r.platform, gs[0].platform) {
      assert AddRow(gs, r)[1..] == gs;
      if p == r.platform {
        LookupBelowFirst(gs, r.platform);
        LookupAbsent(gs, r.platform);
      }
    } else {
      AscendingTail(gs);
      assert AddRow(gs, r)[1..] == AddRow(gs[1..], r);
      AddRowLookup(gs[1..], r, p);
    }
  }

  /** Adding a row adds its measures to the sum over all buckets. */
  lemma {:induction false} AddRowSum(gs: seq<Bucket>, r: Record)
    ensures SumBuckets(AddRow(gs, r)) == Of(r).Plus(SumBuckets(gs))
  {
    if gs == [] {
    } else if gs[0].platform == r.platform {
      assert AddRow(gs, r)[1..] == gs[1..];
    } else if Below(r.platform, gs[0].platform) {
      assert AddRow(gs, r)[1..] == gs;
    } else {
      assert AddRow(gs, r)[1..] == AddRow(gs[1..], r);
      AddRowSum(gs[1..], r);
    }
  }

  /** The group-by over all rows: never more buckets than rows, and none exactly when there are no rows. */
  function Group(rows: seq<Record>): (bs: seq<Bucket>)
    ensures |bs| <= |rows|
    ensures bs == [] <==> rows == []
  {
    if rows == [] then [] else AddRow(Group(rows[1..]), rows[0])
  }

  /** The group-by yields ascending, hence distinct, platforms, exactly those of the input. */
  lemma {:induction false} GroupShape(rows: seq<Record>)
    ensures Ascending(Group(rows))
    ensures Keys(Group(rows)) == Platforms(rows)
  {
    if rows != [] {
      GroupShape(rows[1..]);
      AddRowAscending(Group(rows[1..]), rows[0]);
      AddRowKeys(Group(rows[1..]), rows[0]);
      forall p | p in Platforms(rows) ensures p in Platforms(rows[1..]) + {rows[0].platform} {
        var i :| 0 <= i < |rows| && rows[i].platform == p;
        if i > 0 { assert rows[1..][i - 1].platform == p; }
      }
    }
  }

  /** Every platform's sums in the group-by are the sums over the rows with that platform. */
  lemma {:induction false} GroupLookup(rows: seq<Record>, p: string)
    ensures Lookup(Group(rows), p) == Total(Filter(rows, p))
  {
    if rows != [] {
      GroupShape(rows[1..]);
      GroupLookup(rows[1..], p);
      AddRowLookup(Group(rows[1..]), rows[0], p);
      if p == rows[0].platform {
        var f := Filter(rows, p);
        assert f == [rows[0]] + Filter(rows[1..], p);
        assert f[1..] == Filter(rows[1..], p);
      } else {
        assert Filter(rows, p) == Filter(rows[1..], p);
      }
    }
  }

  /** Summed over all buckets, each measure equals its global total. */
  lemma {:induction false} GroupSum(rows: seq<Record>)
    ensures SumBuckets(Group(rows)) == Total(rows)
  {
    if rows != [] {
      GroupSum(rows[1..]);
      AddRowSum(Group(rows[1..]), rows[0]);
    }
  }

  /** Each platform appears in exactly one bucket. */
  lemma AscendingDistinct(gs: seq<Bucket>)
    requires Ascending(gs)
    ensures forall i, j :: 0 <= i < |gs| && 0 <= j < |gs| && i != j ==> gs[i].platform != gs[j].platform
  {
    forall i, j | 0 <= i < |gs| && 0 <= j < |gs| && i != j
      ensures gs[i].platform != gs[j].platform
    {
      if i < j { BelowIrreflexive(gs[i].platform); } else { BelowIrreflexive(gs[j].platform); }
    }
  }

  /** In distinct buckets, lookup of a bucket's platform returns that bucket's sums. */
  lemma {:induction false} LookupAt(gs: seq<Bucket>, k: int)
    requires Ascending(gs) && 0 <= k < |gs|
    ensures Lookup(gs, gs[k].platform) == gs[k].sums
  {
    if k > 0 {
      AscendingTail(gs);
      BelowIrreflexive(gs[k].platform);
      assert gs[0].platform != gs[k].platform;
      assert gs[1..][k - 1] == gs[k];
      LookupAt(gs[1..], k - 1);
    }
  }

  /** Every bucket of the group-by holds exactly the sums of the rows with its platform. */
  lemma GroupBucketSums(rows: seq<Record>)
    ensures forall k :: 0 <= k < |Group(rows)| ==> Group(rows)[k].sums == Total(Filter(rows, Group(rows)[k].platform))
  {
    var gs := Group(rows);
    GroupShape(rows);
    forall k | 0 <= k < |gs| ensures gs[k].sums == Total(Filter(rows, gs[k].platform)) {
      LookupAt(gs, k);
      GroupLookup(rows, gs[k].platform);
    }
  }
}
