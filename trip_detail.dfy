/**
 * The helpers of the trip-detail screen: the budget progress, the header chips,
 * the per-day labels of the itinerary snapshot, and the share and "View all" links.
 */
module TripDetail {
  import opened Wrappers
  import opened Text
  import opened Routing
  import opened Display
  import opened TripDays

  /** `Math.min(100, Math.round(spent / total * 100))` for a positive total, otherwise 0, where
      `total` is the budget when positive and 0 otherwise. Rounding is half up, computed
      exactly: round(100 * spent / total) == floor((200 * spent + total) / (2 * total)). */
  function BudgetProgress(budget: int, spent: int): (p: int)
    ensures budget <= 0 ==> p == 0
    ensures p <= 100
    ensures spent >= 0 ==> p >= 0
    ensures budget > 0 && spent >= budget ==> p == 100
    ensures budget > 0 && 200 * spent + budget >= 200 * budget ==> p == 100
    ensures budget > 0 && 200 * spent + budget < 200 * budget ==>
      2 * budget * p <= 200 * spent + budget < 2 * budget * (p + 1)
  {
    var total := if budget > 0 then budget else 0;
    if total > 0 then
      var q := (200 * spent + total) / (2 * total);
      RoundedQuotient(200 * spent + total, 2 * total);
      assert spent >= 0 ==> q >= 0 by {
        if spent >= 0 { NonNegativeQuotient(200 * spent + total, 2 * total); }
      }
      assert 200 * spent + total >= 200 * total ==> q >= 100 by {
        if 200 * spent + total >= 200 * total { QuotientAtLeast(200 * spent + total, 2 * total, 100); }
      }
      assert 200 * spent + total < 200 * total ==> q < 100 by {
        if 200 * spent + total < 200 * total { QuotientBelow(200 * spent + total, 2 * total, 100); }
      }
      if q < 100 then q else 100
    else 0
  }

  lemma RoundedQuotient(n: int, d: int)
    requires d > 0
    ensures d * (n / d) <= n < d * (n / d + 1)
  {
  }

  lemma NonNegativeQuotient(n: int, d: int)
    requires n >= 0 && d > 0
    ensures n / d >= 0
  {
  }

  lemma QuotientAtLeast(n: int, d: int, k: int)
    requires d > 0 && n >= k * d
    ensures n / d >= k
  {
    RoundedQuotient(n, d);
  }

  lemma QuotientBelow(n: int, d: int, k: int)
    requires d > 0 && n < k * d
    ensures n / d < k
  {
    RoundedQuotient(n, d);
  }

  /** The screen passes fixed figures to the budget card. */
  const ScreenBudget: int := 500000
  const ScreenSpent: int := 100000

  /** With those figures the card always shows 20% used. */
  lemma ScreenProgressIsTwenty()
    ensures BudgetProgress(ScreenBudget, ScreenSpent) == 20
  {
  }

  /** A start or end date as shown: the formatted date, or "-" when the trip has none. */
  function DateText(raw: Option<string>, format: string -> string): (t: string)
    ensures raw.None? || raw.value == "" ==> t == "-"
    ensures raw.Some? && raw.value != "" ==> t == format(raw.value)
  {
    if raw.Some? && raw.value != "" then format(raw.value) else "-"
  }

  /** `startDate !== "-" && endDate !== "-"`. */
  predicate HasDates(startText: string, endText: string) {
    startText != "-" && endText != "-"
  }

  /** For a formatter that never prints "-", the date chip shows exactly when the trip has
      both dates. */
  lemma DateChipIffBothDates(start: Option<string>, end: Option<string>, format: string -> string)
    requires forall s :: format(s) != "-"
    ensures HasDates(DateText(start, format), DateText(end, format)) <==>
      start.Some? && start.value != "" && end.Some? && end.value != ""
  {
  }

  /** `Boolean(destination?.trim())`: a destination that is not all whitespace. */
  function HasDestination(destination: Option<string>): (b: bool)
    ensures b <==> destination.Some? && exists k :: 0 <= k < |destination.value| && !IsSpace(destination.value[k])
  {
    destination.Some? && Trim(destination.value) != ""
  }

  /** The chips under the trip title. */
  datatype HeaderChips = HeaderChips(destination: Option<string>, dates: Option<(string, string)>)

  /** The chip row appears when it has at least one chip. */
  predicate ChipRowShown(c: HeaderChips) {
    c.destination.Some? || c.dates.Some?
  }

  function Chips(destination: Option<string>, startText: string, endText: string): (c: HeaderChips)
    ensures ChipRowShown(c) <==> HasDestination(destination) || HasDates(startText, endText)
    ensures c.destination.Some? <==> HasDestination(destination)
    ensures c.destination.Some? ==> c.destination == destination
    ensures c.dates.Some? <==> HasDates(startText, endText)
    ensures c.dates.Some? ==> c.dates.value == (startText, endText)
  {
    HeaderChips(if HasDestination(destination) then destination else None,
                if HasDates(startText, endText) then Some((startText, endText)) else None)
  }

  /** One entry of the itinerary snapshot: the chip, the title as stored (no fallback), the
      activity line ("No plans yet" for none) and the expense line ("No expenses"). */
  function SnapshotDayLine(day: TripDay, currencyCode: Option<string>): (l: DayLine)
    ensures l.chip == DayChip(day.day_index) && l.title == day.title
    ensures l.activities == "No plans yet" <==> day.activity_count == 0
    ensures day.activity_count != 0 ==> l.activities == CountLabel(day.activity_count, "activity", "activities")
    ensures l.expense.Amount? <==> day.expense_total > 0
    ensures l.expense.Amount? ==> l.expense.money == Money(day.expense_total, CurrencyCode(currencyCode))
    ensures l.expense.Placeholder? ==> l.expense.text == "No expenses"
  {
    DayLine(DayChip(day.day_index), day.title, ActivityLabel(day.activity_count, "No plans yet"),
            ExpenseDisplay(day.expense_total, currencyCode, "No expenses"))
  }

  /** `${origin}/trip/${tripId}`: the page's origin followed by the trip's own path. */
  function ShareUrl(origin: string, tripId: string): (u: string)
    ensures |u| >= |origin| && u[..|origin|] == origin && u[|origin|..] == TripPath(tripId)
  {
    origin + TripPath(tripId)
  }

  /** Different trips are shared under different URLs. */
  lemma ShareUrlInjective(origin: string, a: string, b: string)
    ensures ShareUrl(origin, a) == ShareUrl(origin, b) <==> a == b
  {
    PrefixCancel(origin, TripPath(a), TripPath(b));
    PrefixCancel("/trip/", a, b);
  }

  /** The "View all" link is `ItineraryPath(tripId)`; different trips link to different
      itineraries. */
  lemma ItineraryLinksDistinct(a: string, b: string)
    ensures ItineraryPath(a) == ItineraryPath(b) <==> a == b
  {
    PrefixCancel("/trip/itinerary/", a, b);
  }
}
