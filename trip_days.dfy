/**
 * `useTripDays`: fetches the days of one trip and maps each backend row to a
 * `TripDay` view record with an activity count and an expense total.
 */
module TripDays {
  import opened Wrappers
  import opened Backend

  /** One entry of the `expenses(amount)` aggregate: null, or an expense whose amount may be absent. */
  datatype ExpenseEntry = NullExpense | ExpenseRow(amount: Option<int>)

  /** The `expenses` field of a row: an array of entries, or something that is not an array. */
  datatype ExpensesField = NotAnArray | Entries(entries: seq<ExpenseEntry>)

  /** A row of `trip_days` as selected. */
  datatype TripDayRow = TripDayRow(
    id: string, title: string, trip_id: string, day_index: int, date: string,
    activities: CountAggregate, expenses: ExpensesField)

  /** The view record. */
  datatype TripDay = TripDay(
    id: string, title: string, trip_id: string, day_index: int, date: string,
    activity_count: int, expense_total: int)

  /** `Number(expense?.amount ?? 0)`: a null expense or a missing amount counts as 0. */
  function AmountOf(e: ExpenseEntry): (r: int)
    ensures e.NullExpense? || e.amount.None? ==> r == 0
    ensures e.ExpenseRow? && e.amount.Some? ==> r == e.amount.value
  {
    if e.ExpenseRow? && e.amount.Some? then e.amount.value else 0
  }

  /** `expenses.reduce((total, e) => total + amount(e), 0)`, left to right. */
  function ReduceAmounts(entries: seq<ExpenseEntry>): (r: int)
    ensures (forall k :: 0 <= k < |entries| ==> AmountOf(entries[k]) >= 0) ==> r >= 0
    ensures (forall k :: 0 <= k < |entries| ==> AmountOf(entries[k]) == 0) ==> r == 0
    decreases |entries|
  {
    if entries == [] then 0 else ReduceAmounts(entries[..|entries| - 1]) + AmountOf(entries[|entries| - 1])
  }

  /** The amounts of the real expenses, summed head first. */
  function SumOfAmounts(entries: seq<ExpenseEntry>): int {
    if entries == [] then 0
    else if entries[0].NullExpense? then SumOfAmounts(entries[1..])
    else AmountOf(entries[0]) + SumOfAmounts(entries[1..])
  }

  lemma {:induction false} SumOfAmountsAppend(a: seq<ExpenseEntry>, b: seq<ExpenseEntry>)
    ensures SumOfAmounts(a + b) == SumOfAmounts(a) + SumOfAmounts(b)
  {
    if a == [] {
      assert a + b == b;
    } else {
      SumOfAmountsAppend(a[1..], b);
      assert (a + b)[1..] == a[1..] + b;
    }
  }

  /** The reduce is the sum of the real expenses' amounts; null entries add nothing. */
  lemma {:induction false} ReduceIsSumOfExpenses(entries: seq<ExpenseEntry>)
    ensures ReduceAmounts(entries) == SumOfAmounts(entries)
    decreases |entries|
  {
    if entries != [] {
      var init, last := entries[..|entries| - 1], entries[|entries| - 1];
      ReduceIsSumOfExpenses(init);
      SumOfAmountsAppend(init, [last]);
      assert init + [last] == entries;
    }
  }

  /** `Array.isArray(expenses) ? reduce : 0`. */
  function ExpenseTotal(expenses: ExpensesField): (t: int)
    ensures expenses.NotAnArray? ==> t == 0
    ensures expenses.Entries? ==> t == SumOfAmounts(expenses.entries)
  {
    match expenses
    case NotAnArray => 0
    case Entries(es) => ReduceIsSumOfExpenses(es); ReduceAmounts(es)
  }

  /** The mapping of one row: five fields copied, a count defaulting to 0, and the expense total. */
  function ToTripDay(row: TripDayRow): (d: TripDay)
    ensures d.id == row.id && d.title == row.title && d.trip_id == row.trip_id
    ensures d.day_index == row.day_index && d.date == row.date
    ensures d.activity_count == FirstCount(row.activities)
    ensures d.expense_total == ExpenseTotal(row.expenses)
  {
    TripDay(row.id, row.title, row.trip_id, row.day_index, row.date, FirstCount(row.activities), ExpenseTotal(row.expenses))
  }

  /** `rows.map(...)`: one record per row, in the same order. */
  function MapDays(rows: seq<TripDayRow>): (r: seq<TripDay>)
    ensures |r| == |rows|
    ensures forall i :: 0 <= i < |rows| ==> r[i] == ToTripDay(rows[i])
  {
    if rows == [] then [] else [ToTripDay(rows[0])] + MapDays(rows[1..])
  }

  /** `getTripDays`: a backend error is rethrown before anything is mapped; null data is
      read as no rows. */
  function GetTripDays(response: QueryResponse<TripDayRow>): (r: Result<seq<TripDay>, BackendError>)
    ensures response.error.Some? ==> r == Err(response.error.value)
    ensures response.error.None? && response.data.None? ==> r == Ok([])
    ensures response.error.None? && response.data.Some? ==> r.Ok? && |r.value| == |response.data.value|
    ensures response.error.None? && response.data.Some? ==>
      forall i :: 0 <= i < |response.data.value| ==> r.value[i] == ToTripDay(response.data.value[i])
  {
    if response.error.Some? then Err(response.error.value)
    else Ok(MapDays(if response.data.Some? then response.data.value else []))
  }

  /** `['trip-days', tripId, limit]`. */
  function TripDaysKey(tripId: string, limit: int): QueryKey {
    [KStr("trip-days"), KStr(tripId), KNum(limit)]
  }

  /** Two day queries share a cache entry exactly when trip and limit agree. */
  lemma TripDaysKeyInjective(a: string, la: int, b: string, lb: int)
    ensures TripDaysKey(a, la) == TripDaysKey(b, lb) <==> a == b && la == lb
  {
    if TripDaysKey(a, la) == TripDaysKey(b, lb) {
      assert TripDaysKey(a, la)[1] == TripDaysKey(b, lb)[1];
      assert TripDaysKey(a, la)[2] == TripDaysKey(b, lb)[2];
    }
  }

  /** `enabled: !!tripId`: the query runs only for a non-empty trip id. */
  function TripDaysEnabled(tripId: string): (b: bool)
    ensures b <==> |tripId| > 0
  {
    tripId != ""
  }
}
