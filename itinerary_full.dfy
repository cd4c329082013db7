/**
 * The helpers of the full-itinerary screen: the totals over the trip's days,
 * the summary line, each day's title, chip and activity label, and the
 * add-activity link.
 */
module ItineraryFull {
  import opened Wrappers
  import opened Text
  import opened Routing
  import opened Display
  import opened TripDays

  /** `tripDays ?? []`. */
  function DaysOrEmpty(tripDays: Option<seq<TripDay>>): (days: seq<TripDay>)
    ensures tripDays.None? ==> days == []
    ensures tripDays.Some? ==> days == tripDays.value
  {
    if tripDays.Some? then tripDays.value else []
  }

  /** `days.reduce((sum, day) => sum + (day.activity_count ?? 0), 0)`, left to right. */
  function TotalActivities(days: seq<TripDay>): (r: int)
    ensures (forall k :: 0 <= k < |days| ==> days[k].activity_count >= 0) ==>
      r >= 0 && forall k :: 0 <= k < |days| ==> days[k].activity_count <= r
    ensures |days| == 1 ==> r == days[0].activity_count
    decreases |days|
  {
    if days == [] then 0 else TotalActivities(days[..|days| - 1]) + days[|days| - 1].activity_count
  }

  /** `days.reduce((sum, day) => sum + (day.expense_total ?? 0), 0)`, left to right. */
  function TotalSpend(days: seq<TripDay>): (r: int)
    ensures (forall k :: 0 <= k < |days| ==> days[k].expense_total >= 0) ==>
      r >= 0 && forall k :: 0 <= k < |days| ==> days[k].expense_total <= r
    ensures |days| == 1 ==> r == days[0].expense_total
    decreases |days|
  {
    if days == [] then 0 else TotalSpend(days[..|days| - 1]) + days[|days| - 1].expense_total
  }

  /** The activity total adds up the days: it distributes over concatenation. */
  lemma {:induction false} TotalActivitiesAppend(a: seq<TripDay>, b: seq<TripDay>)
    ensures TotalActivities(a + b) == TotalActivities(a) + TotalActivities(b)
    decreases |b|
  {
    if b == [] {
      assert a + b == a;
    } else {
      TotalActivitiesAppend(a, b[..|b| - 1]);
      assert (a + b)[..|a + b| - 1] == a + b[..|b| - 1];
    }
  }

  /** The spend total adds up the days: it distributes over concatenation. */
  lemma {:induction false} TotalSpendAppend(a: seq<TripDay>, b: seq<TripDay>)
    ensures TotalSpend(a + b) == TotalSpend(a) + TotalSpend(b)
    decreases |b|
  {
    if b == [] {
      assert a + b == a;
    } else {
      TotalSpendAppend(a, b[..|b| - 1]);
      assert (a + b)[..|a + b| - 1] == a + b[..|b| - 1];
    }
  }

  /** With no days, or days without activities or spend, the totals are 0. */
  lemma {:induction false} TotalsOfIdleDays(days: seq<TripDay>)
    requires forall i :: 0 <= i < |days| ==> days[i].activity_count == 0 && days[i].expense_total == 0
    ensures TotalActivities(days) == 0 && TotalSpend(days) == 0
    decreases |days|
  {
    if days != [] {
      TotalsOfIdleDays(days[..|days| - 1]);
    }
  }

  /** The summary line: "N day(s) · M activit(y|ies)", then " · <amount> total" only when
      something was spent. */
  datatype Summary = Summary(totalDays: nat, daysText: string, activitiesText: string, spend: Option<Money>)

  function ItinerarySummary(tripDays: Option<seq<TripDay>>, currencyCode: Option<string>): (s: Summary)
    ensures s.totalDays == |DaysOrEmpty(tripDays)|
    ensures s.daysText == CountLabel(s.totalDays, "day", "days")
    ensures s.activitiesText == CountLabel(TotalActivities(DaysOrEmpty(tripDays)), "activity", "activities")
    ensures s.spend.Some? <==> TotalSpend(DaysOrEmpty(tripDays)) > 0
    ensures s.spend.Some? ==> s.spend.value == Money(TotalSpend(DaysOrEmpty(tripDays)), CurrencyCode(currencyCode))
  {
    var days := DaysOrEmpty(tripDays);
    var spend := TotalSpend(days);
    Summary(|days|, CountLabel(|days|, "day", "days"),
            CountLabel(TotalActivities(days), "activity", "activities"),
            if spend > 0 then Some(Money(spend, CurrencyCode(currencyCode))) else None)
  }

  /** `day.title || "Untitled day " + (day_index + 1)`: a day always shows a title. */
  function DayTitle(day: TripDay): (t: string)
    ensures t != ""
    ensures day.title != "" ==> t == day.title
    ensures day.title == "" ==> t == "Untitled day " + IntToString(day.day_index + 1)
  {
    if day.title != "" then day.title else "Untitled day " + IntToString(day.day_index + 1)
  }

  /** Two untitled days get different fallback titles whenever their indices differ. */
  lemma UntitledDaysDistinct(a: TripDay, b: TripDay)
    requires a.title == "" && b.title == ""
    ensures DayTitle(a) == DayTitle(b) <==> a.day_index == b.day_index
  {
    PrefixCancel("Untitled day ", IntToString(a.day_index + 1), IntToString(b.day_index + 1));
    IntToStringInjective(a.day_index + 1, b.day_index + 1);
  }

  /** One entry of the day-by-day list: the chip, the title with its fallback, the activity
      line ("No activities added" for none) and the expense line ("No expenses recorded"). */
  function ItineraryDayLine(day: TripDay, currencyCode: Option<string>): (l: DayLine)
    ensures l.chip == DayChip(day.day_index) && l.title == DayTitle(day)
    ensures l.activities == "No activities added" <==> day.activity_count == 0
    ensures day.activity_count != 0 ==> l.activities == CountLabel(day.activity_count, "activity", "activities")
    ensures l.expense.Amount? <==> day.expense_total > 0
    ensures l.expense.Amount? ==> l.expense.money == Money(day.expense_total, CurrencyCode(currencyCode))
    ensures l.expense.Placeholder? ==> l.expense.text == "No expenses recorded"
  {
    DayLine(DayChip(day.day_index), DayTitle(day), ActivityLabel(day.activity_count, "No activities added"),
            ExpenseDisplay(day.expense_total, currencyCode, "No expenses recorded"))
  }

  /** The query the add-activity link appends to the trip's path. */
  const AddActivityQuery: string := "?add=activity"

  /** `/trip/{tripId}?add=activity`, followed by `&day={dayId}` only for a non-empty day id,
      navigated with history replace. */
  function AddActivityTarget(tripId: string, dayId: Option<string>): (n: Navigation)
    ensures n.replace
    ensures |n.path| >= |TripPath(tripId) + AddActivityQuery|
    ensures n.path[..|TripPath(tripId) + AddActivityQuery|] == TripPath(tripId) + AddActivityQuery
    ensures dayId.Some? && dayId.value != "" ==> n.path[|TripPath(tripId) + AddActivityQuery|..] == "&day=" + dayId.value
    ensures dayId.None? || dayId.value == "" ==> n.path == TripPath(tripId) + AddActivityQuery
  {
    var base := TripPath(tripId) + AddActivityQuery;
    var path := if dayId.Some? && dayId.value != "" then base + "&day=" + dayId.value else base;
    assert path[..|base|] == base;
    Navigation(path, true)
  }

  /** Within one trip, the link names the day: different non-empty day ids give different
      targets, and a day-less link differs from every day link. */
  lemma AddActivityTargetsDistinguishDays(tripId: string, a: Option<string>, b: Option<string>)
    ensures AddActivityTarget(tripId, a) == AddActivityTarget(tripId, b) <==>
      ((a.None? || a.value == "") && (b.None? || b.value == "")) ||
      (a.Some? && b.Some? && a.value != "" && a.value == b.value)
  {
    var base := TripPath(tripId) + AddActivityQuery;
    var ta, tb := AddActivityTarget(tripId, a).path, AddActivityTarget(tripId, b).path;
    if ta == tb && a.Some? && a.value != "" && b.Some? && b.value != "" {
      assert ta[|base|..] == "&day=" + a.value;
      assert tb[|base|..] == "&day=" + b.value;
      assert ("&day=" + a.value)[5..] == a.value;
      assert ("&day=" + b.value)[5..] == b.value;
    }
  }
}
