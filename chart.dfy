/** The summary screen: per-category totals of the stored list, the pie
    slices built from the positive ones, and the percentage breakdown. */
module Chart {
  import opened Expenses
  import opened Lists

  /** The slice colours, handed out by position among the surviving slices. */
  const ColorsList: seq<string> := ["#FF6384", "#36A2EB", "#FFCD56", "#4BC0C0"]

  /** The sum of the amounts of the records whose category is `name`. */
  function CategoryTotal(expenses: seq<Expense>, name: string): (r: real)
    ensures (forall i :: 0 <= i < |expenses| ==> expenses[i].amount >= 0.0) ==> r >= 0.0
  {
    if expenses == [] then 0.0
    else (if expenses[0].category == name then expenses[0].amount else 0.0)
         + CategoryTotal(expenses[1..], name)
  }

  lemma {:induction false} CategoryTotalAppend(a: seq<Expense>, b: seq<Expense>, name: string)
    ensures CategoryTotal(a + b, name) == CategoryTotal(a, name) + CategoryTotal(b, name)
  {
    if a == [] {
      assert a + b == b;
    } else {
      CategoryTotalAppend(a[1..], b, name);
      assert (a + b)[1..] == a[1..] + b;
    }
  }

  /** The `totals` object once every record has been visited: exactly the
      four category names as keys, each holding its category's sum. */
  function Buckets(expenses: seq<Expense>): map<string, real>
  {
    map n | n in BucketNames :: CategoryTotal(expenses, n)
  }

  predicate HasBuckets(totals: map<string, real>)
  {
    forall n :: n in BucketNames ==> n in totals
  }

  /** The forEach of loadData: four buckets start at zero, and a record adds
      its amount to its own category's bucket when that bucket exists. */
  method AccumulateTotals(expenses: seq<Expense>) returns (totals: map<string, real>)
    ensures totals == Buckets(expenses)
  {
    totals := map["Food" := 0.0, "Travel" := 0.0, "Shopping" := 0.0, "Other" := 0.0];
    BucketsStartAtZero();
    for i := 0 to |expenses|
      invariant totals == Buckets(expenses[..i])
    {
      var exp := expenses[i];
      if exp.category in totals {
        totals := totals[exp.category := totals[exp.category] + exp.amount];
      }
      assert expenses[..i] + [exp] + [] == expenses[..i + 1];
      assert expenses[..i] + [] == expenses[..i];
      if exp.category in BucketNames {
        KnownCategoryAddsToItsBucket(expenses[..i], exp, []);
      } else {
        UnknownCategoryIgnored(expenses[..i], exp, []);
      }
    }
    assert expenses[..|expenses|] == expenses;
  }

  /** Before any record is visited every bucket holds zero. */
  lemma BucketsStartAtZero()
    ensures Buckets([]) == map["Food" := 0.0, "Travel" := 0.0, "Shopping" := 0.0, "Other" := 0.0]
  {
  }

  /** A record whose category is not one of the four changes no bucket,
      wherever it sits in the list. */
  lemma {:induction false} UnknownCategoryIgnored(before: seq<Expense>, e: Expense, after: seq<Expense>)
    requires e.category !in BucketNames
    ensures Buckets(before + [e] + after) == Buckets(before + after)
  {
    forall n | n in BucketNames
      ensures CategoryTotal(before + [e] + after, n) == CategoryTotal(before + after, n)
    {
      CategoryTotalAppend(before + [e], after, n);
      CategoryTotalAppend(before, [e], n);
      CategoryTotalAppend(before, after, n);
    }
  }

  /** A record of a known category adds its amount to exactly that bucket. */
  lemma {:induction false} KnownCategoryAddsToItsBucket(before: seq<Expense>, e: Expense, after: seq<Expense>)
    requires e.category in BucketNames
    ensures Buckets(before + [e] + after)
         == Buckets(before + after)[e.category := Buckets(before + after)[e.category] + e.amount]
  {
    forall n | n in BucketNames
      ensures CategoryTotal(before + [e] + after, n)
           == CategoryTotal(before + after, n) + (if e.category == n then e.amount else 0.0)
    {
      CategoryTotalAppend(before + [e], after, n);
      CategoryTotalAppend(before, [e], n);
      CategoryTotalAppend(before, after, n);
    }
  }

  /** When every record has one of the four categories, the buckets together
      hold the whole list's total. */
  lemma {:induction false} BucketsHoldGrandTotal(expenses: seq<Expense>)
    requires forall i :: 0 <= i < |expenses| ==> expenses[i].category in BucketNames
    ensures CategoryTotal(expenses, "Food") + CategoryTotal(expenses, "Travel")
          + CategoryTotal(expenses, "Shopping") + CategoryTotal(expenses, "Other")
         == Total(expenses)
  {
    if expenses != [] {
      BucketsHoldGrandTotal(expenses[1..]);
    }
  }

  /** One chart entry: a category name, its total and its colour. */
  datatype Slice = Slice(name: string, amount: real, color: string)

  /** `Object.entries(totals)`: the four buckets in declaration order. */
  function Entries(totals: map<string, real>): (es: seq<(string, real)>)
    requires HasBuckets(totals)
  {
    [("Food", totals["Food"]), ("Travel", totals["Travel"]),
     ("Shopping", totals["Shopping"]), ("Other", totals["Other"])]
  }

  /** The `val > 0` test of the pieData filter. */
  predicate Survives(entry: (string, real))
  {
    entry.1 > 0.0
  }

  /** The position of a category in the declaration order. */
  function Rank(name: string): nat
  {
    if name == "Food" then 0
    else if name == "Travel" then 1
    else if name == "Shopping" then 2
    else 3
  }

  function Names(slices: seq<Slice>): seq<string>
  {
    seq(|slices|, i requires 0 <= i < |slices| => slices[i].name)
  }

  /** pieData: the positive buckets, in declaration order, the i-th of them
      coloured with the i-th palette entry (always within the palette). */
  function PieData(totals: map<string, real>): (r: seq<Slice>)
    requires HasBuckets(totals)
    ensures |r| <= |ColorsList|
    ensures forall i :: 0 <= i < |r| ==> r[i].amount > 0.0
    ensures forall i :: 0 <= i < |r| ==> r[i].color == ColorsList[i]
  {
    var kept := Filter(Survives, Entries(totals));
    seq(|kept|, i requires 0 <= i < |kept| => Slice(kept[i].0, kept[i].1, ColorsList[i]))
  }

  /** A category has a slice exactly when its bucket is positive (so a zero
      and a negative total are both left out), and each slice carries its
      bucket's total. */
  lemma {:induction false} PieDataHasPositiveBuckets(totals: map<string, real>)
    requires HasBuckets(totals)
    ensures forall i :: 0 <= i < |PieData(totals)| ==>
      PieData(totals)[i].name in BucketNames &&
      PieData(totals)[i].amount == totals[PieData(totals)[i].name]
    ensures forall n :: n in BucketNames ==> (n in Names(PieData(totals)) <==> totals[n] > 0.0)
  {
    var es := Entries(totals);
    var kept := Filter(Survives, es);
    var r := PieData(totals);
    forall i | 0 <= i < |r|
      ensures r[i].name in BucketNames && r[i].amount == totals[r[i].name]
    {
      FilterMembership(Survives, es, kept[i]);
    }
    forall n | n in BucketNames
      ensures n in Names(r) <==> totals[n] > 0.0
    {
      FilterMembership(Survives, es, (n, totals[n]));
      if totals[n] > 0.0 {
        var i :| 0 <= i < |kept| && kept[i] == (n, totals[n]);
        assert Names(r)[i] == n;
      }
      if n in Names(r) {
        var i :| 0 <= i < |r| && Names(r)[i] == n;
        FilterMembership(Survives, es, kept[i]);
      }
    }
  }

  /** Slices follow the order Food, Travel, Shopping, Other, so no name
      appears twice. */
  lemma {:induction false} PieDataInDeclarationOrder(totals: map<string, real>)
    requires HasBuckets(totals)
    ensures forall i, j :: 0 <= i < j < |PieData(totals)| ==>
      Rank(PieData(totals)[i].name) < Rank(PieData(totals)[j].name)
    ensures forall i, j :: 0 <= i < j < |PieData(totals)| ==>
      PieData(totals)[i].name != PieData(totals)[j].name
  {
    var key := (e: (string, real)) => Rank(e.0);
    FilterKeepsIncreasing(Survives, key, Entries(totals));
  }

  /** getTotal: the sum of the slice amounts. */
  function GetTotal(chartData: seq<Slice>): (r: real)
    ensures (forall i :: 0 <= i < |chartData| ==> chartData[i].amount > 0.0) ==>
      (r > 0.0 <==> chartData != [])
  {
    if chartData == [] then 0.0 else chartData[0].amount + GetTotal(chartData[1..])
  }

  function PositivePart(x: real): real
  {
    if x > 0.0 then x else 0.0
  }

  function SurvivingSum(es: seq<(string, real)>): real
  {
    if es == [] then 0.0 else PositivePart(es[0].1) + SurvivingSum(es[1..])
  }

  function EntrySum(es: seq<(string, real)>): real
  {
    if es == [] then 0.0 else es[0].1 + EntrySum(es[1..])
  }

  lemma {:induction false} FilterSurvivorsSum(es: seq<(string, real)>)
    ensures EntrySum(Filter(Survives, es)) == SurvivingSum(es)
  {
    if es != [] {
      FilterSurvivorsSum(es[1..]);
    }
  }

  lemma {:induction false} GetTotalByAmounts(r: seq<Slice>, es: seq<(string, real)>)
    requires |r| == |es|
    requires forall i :: 0 <= i < |r| ==> r[i].amount == es[i].1
    ensures GetTotal(r) == EntrySum(es)
  {
    if r != [] {
      GetTotalByAmounts(r[1..], es[1..]);
    }
  }

  /** The chart's total is the sum of the positive buckets. */
  lemma {:induction false} ChartTotalIsPositiveBuckets(totals: map<string, real>)
    requires HasBuckets(totals)
    ensures GetTotal(PieData(totals))
         == PositivePart(totals["Food"]) + PositivePart(totals["Travel"])
          + PositivePart(totals["Shopping"]) + PositivePart(totals["Other"])
  {
    var es := Entries(totals);
    var kept := Filter(Survives, es);
    GetTotalByAmounts(PieData(totals), kept);
    FilterSurvivorsSum(es);
    assert SurvivingSum(es[3..]) == PositivePart(totals["Other"]);
    assert SurvivingSum(es[2..]) == PositivePart(totals["Shopping"]) + SurvivingSum(es[3..]);
    assert SurvivingSum(es[1..]) == PositivePart(totals["Travel"]) + SurvivingSum(es[2..]);
  }

  /** When every record has a known category and a non-negative amount, the
      chart's total is the total of the whole list. */
  lemma {:induction false} ChartTotalIsGrandTotal(expenses: seq<Expense>)
    requires forall i :: 0 <= i < |expenses| ==>
      expenses[i].category in BucketNames && expenses[i].amount >= 0.0
    ensures GetTotal(PieData(Buckets(expenses))) == Total(expenses)
  {
    ChartTotalIsPositiveBuckets(Buckets(expenses));
    BucketsHoldGrandTotal(expenses);
  }

  /** A category's colour depends on which categories before it survive:
      Travel takes the first colour when Food has no slice, the second when
      it has one. */
  lemma ColourFollowsSurvivingPosition()
    ensures PieData(map["Food" := 0.0, "Travel" := 5.0, "Shopping" := 0.0, "Other" := 0.0])
         == [Slice("Travel", 5.0, "#FF6384")]
    ensures PieData(map["Food" := 1.0, "Travel" := 5.0, "Shopping" := 0.0, "Other" := 0.0])
         == [Slice("Food", 1.0, "#FF6384"), Slice("Travel", 5.0, "#36A2EB")]
  {
  }

  /** A negative amount (which the add screen accepts) can make a bucket
      negative, and then the category has no slice at all. */
  lemma NegativeBucketHasNoSlice()
    ensures PieData(Buckets([Expense("1", "Refund", -5.0, "Food", 0, None)])) == []
  {
  }

  /** One line of the breakdown under the chart. */
  datatype Row = Row(name: string, amount: real, color: string, percentage: real)

  /** What the summary screen shows below its title. */
  datatype Breakdown = NoData | Rows(rows: seq<Row>)

  function RowsOf(chartData: seq<Slice>, total: real): (rows: seq<Row>)
    requires total != 0.0
    ensures |rows| == |chartData|
    ensures forall i :: 0 <= i < |rows| ==>
      rows[i] == Row(chartData[i].name, chartData[i].amount, chartData[i].color,
                     (chartData[i].amount / total) * 100.0)
  {
    if chartData == [] then []
    else [Row(chartData[0].name, chartData[0].amount, chartData[0].color,
              (chartData[0].amount / total) * 100.0)]
         + RowsOf(chartData[1..], total)
  }

  function PercentSum(rows: seq<Row>): real
  {
    if rows == [] then 0.0 else rows[0].percentage + PercentSum(rows[1..])
  }

  lemma {:induction false} PercentSumScales(chartData: seq<Slice>, total: real)
    requires total != 0.0
    ensures PercentSum(RowsOf(chartData, total)) == (GetTotal(chartData) / total) * 100.0
  {
    if chartData != [] {
      PercentSumScales(chartData[1..], total);
      SharesAdd(chartData[0].amount, GetTotal(chartData[1..]), total);
    }
  }

  lemma SharesAdd(a: real, b: real, total: real)
    requires total != 0.0
    ensures (a / total) * 100.0 + (b / total) * 100.0 == ((a + b) / total) * 100.0
  {
  }

  lemma WholeIsHundred(total: real)
    requires total != 0.0
    ensures (total / total) * 100.0 == 100.0
  {
  }

  /** The shares of a chart's slices in the chart's own total add up to 100. */
  lemma SharesAddToHundred(chartData: seq<Slice>)
    requires GetTotal(chartData) != 0.0
    ensures PercentSum(RowsOf(chartData, GetTotal(chartData))) == 100.0
  {
    PercentSumScales(chartData, GetTotal(chartData));
    WholeIsHundred(GetTotal(chartData));
  }

  lemma ShareBounds(a: real, total: real)
    requires 0.0 < a <= total
    ensures 0.0 < (a / total) * 100.0 <= 100.0
  {
  }

  lemma {:induction false} SliceWithinTotal(chartData: seq<Slice>, i: nat)
    requires i < |chartData|
    requires forall k :: 0 <= k < |chartData| ==> chartData[k].amount > 0.0
    ensures chartData[i].amount <= GetTotal(chartData)
  {
    if i > 0 {
      SliceWithinTotal(chartData[1..], i - 1);
    }
  }

  lemma SharesWithinHundred(chartData: seq<Slice>)
    requires chartData != []
    requires forall k :: 0 <= k < |chartData| ==> chartData[k].amount > 0.0
    ensures forall i :: 0 <= i < |chartData| ==>
      0.0 < (chartData[i].amount / GetTotal(chartData)) * 100.0 <= 100.0
  {
    forall i | 0 <= i < |chartData|
      ensures 0.0 < (chartData[i].amount / GetTotal(chartData)) * 100.0 <= 100.0
    {
      SliceWithinTotal(chartData, i);
      ShareBounds(chartData[i].amount, GetTotal(chartData));
    }
  }

  /** The breakdown: "No data available" for an empty chart, where the
      percentage division is never reached; otherwise one row per slice with
      its share of the chart's total, the shares adding up to 100 before the
      one-decimal rounding. */
  function Summarize(chartData: seq<Slice>): (b: Breakdown)
    requires forall i :: 0 <= i < |chartData| ==> chartData[i].amount > 0.0
    ensures b.NoData? <==> chartData == []
    ensures b.Rows? ==> |b.rows| == |chartData|
    ensures b.Rows? ==> forall i :: 0 <= i < |b.rows| ==>
      b.rows[i].name == chartData[i].name && b.rows[i].amount == chartData[i].amount &&
      b.rows[i].color == chartData[i].color &&
      0.0 < b.rows[i].percentage <= 100.0
    ensures b.Rows? ==> PercentSum(b.rows) == 100.0
  {
    if chartData == [] then NoData
    else
      var total := GetTotal(chartData);
      SharesAddToHundred(chartData);
      SharesWithinHundred(chartData);
      var rows := RowsOf(chartData, total);
      Rows(rows)
  }

  /** The state of the summary screen; every slice it holds is positive. */
  class ChartScreen {
    var chartData: seq<Slice>

    ghost predicate Valid()
      reads this
    {
      |chartData| <= |ColorsList| &&
      forall i :: 0 <= i < |chartData| ==> chartData[i].amount > 0.0
    }

    constructor ()
      ensures Valid() && chartData == []
    {
      chartData := [];
    }

    /** loadData: read the list (absent means empty; a corrupt entry makes
        the read throw and leaves the chart as it was), total it per
        category and keep the positive buckets as slices. */
    method LoadData(storage: Storage) returns (completed: bool)
      requires Valid()
      modifies this
      ensures Valid()
      ensures completed <==> !storage.blob.Corrupt?
      ensures completed ==> chartData == PieData(Buckets(Load(storage.blob).value))
      ensures !completed ==> chartData == old(chartData)
    {
      var stored := Load(storage.blob);
      if stored.None? {
        return false;
      }
      var totals := AccumulateTotals(stored.value);
      chartData := PieData(totals);
      completed := true;
    }
  }
}
