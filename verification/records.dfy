/** Input rows and the four summed measures of the analysis. */
module Records {

  /** One input row, reduced to the columns the analysis reads. */
  datatype Record = Record(platform: string, spend: real, revenue: real, clicks: int, conversions: int)

  /** The four measures that are summed: spend, revenue, clicks and conversions. */
  datatype Sums = Sums(spend: real, revenue: real, clicks: int, conversions: int) {

    /** Field-by-field addition. */
    function Plus(o: Sums): Sums {
      Sums(spend + o.spend, revenue + o.revenue, clicks + o.clicks, conversions + o.conversions)
    }

    /** Revenue minus spend. */
    function Profit(): real {
      revenue - spend
    }
  }

  /** The sums of an empty selection. */
  const Zero := Sums(0.0, 0.0, 0, 0)

  /** The measures of one row. */
  function Of(r: Record): Sums {
    Sums(r.spend, r.revenue, r.clicks, r.conversions)
  }

  /** Column sums over a sequence of rows (pandas sums an empty column to 0). */
  function Total(rows: seq<Record>): Sums {
    if rows == [] then Zero else Of(rows[0]).Plus(Total(rows[1..]))
  }

  /** The rows whose platform is `p`, in input order. */
  function Filter(rows: seq<Record>, p: string): (r: seq<Record>)
    ensures |r| <= |rows|
    ensures forall x :: x in r <==> x in rows && x.platform == p
  {
    if rows == [] then []
    else (if rows[0].platform == p then [rows[0]] else []) + Filter(rows[1..], p)
  }

  /** The distinct platform values of the input. */
  function Platforms(rows: seq<Record>): (ps: set<string>)
    ensures forall p :: p in ps <==> exists i :: 0 <= i < |rows| && rows[i].platform == p
  {
    set i | 0 <= i < |rows| :: rows[i].platform
  }

  /** Adding one set of measures commutes with adding another. */
  lemma PlusSwap(a: Sums, b: Sums, c: Sums)
    ensures a.Plus(b.Plus(c)) == b.Plus(a.Plus(c))
  {
  }
}
