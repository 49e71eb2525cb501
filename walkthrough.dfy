/** The three screens working on one storage entry: two expenses are saved
    into empty storage, the history screen is narrowed to Food, and the
    summary screen shows the split between the two categories. */
module Walkthrough {
  import opened Expenses
  import opened AddExpense
  import opened ExpenseList
  import opened Chart

  /** Midnight UTC on 5 and 6 January 2024, in milliseconds. */
  const January5: int := 1704412800000
  const January6: int := 1704499200000

  const Lunch := Expense("1", "Lunch", 500.0, "Food", January5, None)
  const Taxi := Expense("2", "Taxi", 300.0, "Travel", January6, None)

  /** Lunch (500, Food) is saved and then Taxi (300, Travel), into storage
      that holds nothing yet. `isNaN` and `parseFloat` are the coercions of
      the amount text, here only assumed to read "500" and "300" as numbers. */
  method SaveLunchThenTaxi(isNaN: string -> bool, parseFloat: string -> real)
    returns (storage: Storage)
    requires !isNaN("500") && parseFloat("500") == 500.0
    requires !isNaN("300") && parseFloat("300") == 300.0
    ensures fresh(storage) && storage.blob == Stored([Lunch, Taxi])
  {
    storage := new Storage(Absent);
    var form := new AddExpenseForm(January5);
    form.title, form.amount := "Lunch", "500";
    assert Acceptable("Lunch", "500", isNaN);
    var outcome := form.SaveExpense(storage, "1", isNaN, parseFloat, true);
    assert storage.blob == Stored([Lunch]);
    form.title, form.amount, form.category, form.date := "Taxi", "300", Travel, January6;
    assert Acceptable("Taxi", "300", isNaN);
    outcome := form.SaveExpense(storage, "2", isNaN, parseFloat, true);
  }

  /** The history screen narrowed to Food shows only Lunch; the summary
      screen splits 800 into Food 500 (62.5%) and Travel 300 (37.5%). */
  method BrowseLunchAndTaxi(storage: Storage) returns (foodOnly: seq<Expense>, summary: Breakdown)
    requires storage.blob == Stored([Lunch, Taxi])
    ensures foodOnly == [Lunch]
    ensures summary == Rows([Row("Food", 500.0, "#FF6384", 62.5),
                             Row("Travel", 300.0, "#36A2EB", 37.5)])
  {
    FoodFilterKeepsLunch(Lunch, Taxi);
    SplitBetweenFoodAndTravel(Lunch, Taxi);

    var history := new ExpenseListScreen();
    var loaded := history.FetchExpenses(storage);
    history.criteria := Criteria(Only(Food), None, None);
    history.ApplyFilters();
    foodOnly := history.filtered;

    var chart := new ChartScreen();
    loaded := chart.LoadData(storage);
    summary := Summarize(chart.chartData);
  }

  lemma FoodFilterKeepsLunch(lunch: Expense, taxi: Expense)
    requires lunch.category == "Food" && taxi.category == "Travel"
    ensures Filtered([lunch, taxi], Criteria(Only(Food), None, None)) == [lunch]
  {
    var c := Criteria(Only(Food), None, None);
    assert [lunch, taxi][1..] == [taxi] && [taxi][1..] == [];
    assert !Matches(c, taxi);
    assert Filtered([taxi], c) == Filtered([], c) == [];
  }

  lemma SplitBetweenFoodAndTravel(lunch: Expense, taxi: Expense)
    requires lunch.category == "Food" && lunch.amount == 500.0
    requires taxi.category == "Travel" && taxi.amount == 300.0
    ensures Summarize(PieData(Buckets([lunch, taxi])))
         == Rows([Row("Food", 500.0, "#FF6384", 62.5), Row("Travel", 300.0, "#36A2EB", 37.5)])
  {
    LunchAndTaxiBuckets(lunch, taxi);
    LunchAndTaxiSlices();
    LunchAndTaxiShares();
  }

  lemma LunchAndTaxiBuckets(lunch: Expense, taxi: Expense)
    requires lunch.category == "Food" && lunch.amount == 500.0
    requires taxi.category == "Travel" && taxi.amount == 300.0
    ensures Buckets([lunch, taxi])
         == map["Food" := 500.0, "Travel" := 300.0, "Shopping" := 0.0, "Other" := 0.0]
  {
    var both := [lunch, taxi];
    var totals := map["Food" := 500.0, "Travel" := 300.0, "Shopping" := 0.0, "Other" := 0.0];
    assert both[1..] == [taxi] && [taxi][1..] == [];
    assert "Food" != "Travel" && "Food" != "Shopping" && "Food" != "Other";
    assert "Travel" != "Shopping" && "Travel" != "Other";
    forall n | n in BucketNames
      ensures CategoryTotal(both, n) == totals[n]
    {
      assert CategoryTotal([taxi], n) == if n == "Travel" then 300.0 else 0.0;
    }
    assert Buckets(both).Keys == totals.Keys;
  }

  lemma LunchAndTaxiSlices()
    ensures PieData(map["Food" := 500.0, "Travel" := 300.0, "Shopping" := 0.0, "Other" := 0.0])
         == [Slice("Food", 500.0, "#FF6384"), Slice("Travel", 300.0, "#36A2EB")]
  {
  }

  lemma LunchAndTaxiShares()
    ensures Summarize([Slice("Food", 500.0, "#FF6384"), Slice("Travel", 300.0, "#36A2EB")])
         == Rows([Row("Food", 500.0, "#FF6384", 62.5), Row("Travel", 300.0, "#36A2EB", 37.5)])
  {
  }
}
