/** Text pieces both trip screens build the same way: counts with a noun, day chips, currency. */
module Display {
  import opened Wrappers
  import opened Text

  /** What `formatCurrency(amount, currencyCode)` formats: the amount and the currency code. */
  datatype Money = Money(amount: int, currency: string)

  /** `currencyCode || "THB"`: the trip's currency, or Thai baht when it has none. */
  function CurrencyCode(code: Option<string>): (c: string)
    ensures c != ""
    ensures code.Some? && code.value != "" ==> c == code.value
    ensures code.None? || code.value == "" ==> c == "THB"
  {
    if code.Some? && code.value != "" then code.value else "THB"
  }

  /** `${n} ${n === 1 ? singular : plural}`. */
  function CountLabel(n: int, singular: string, plural: string): (t: string)
    ensures |t| > 0 && (IsDigit(t[0]) || t[0] == '-')
  {
    IntToString(n) + " " + (if n == 1 then singular else plural)
  }

  /** The position of the first space in `s`, or `|s|` if it has none. */
  function IndexOfSpace(s: string): (i: nat)
    ensures i <= |s|
    ensures forall k :: 0 <= k < i ==> s[k] != ' '
    ensures i < |s| ==> s[i] == ' '
  {
    if s == [] || s[0] == ' ' then 0 else 1 + IndexOfSpace(s[1..])
  }

  lemma {:induction false} IndexOfSpaceAfterWord(a: string, x: string)
    requires forall k :: 0 <= k < |a| ==> a[k] != ' '
    ensures IndexOfSpace(a + " " + x) == |a|
  {
    if a != [] {
      IndexOfSpaceAfterWord(a[1..], x);
      assert (a + " " + x)[1..] == a[1..] + " " + x;
    }
  }

  /** Two strings that each start with a rendered number followed by a space agree on the number. */
  lemma LeadingNumberDetermined(n: int, m: int, x: string, y: string)
    requires IntToString(n) + " " + x == IntToString(m) + " " + y
    ensures n == m
  {
    var a, b := IntToString(n), IntToString(m);
    var s := a + " " + x;
    IndexOfSpaceAfterWord(a, x);
    IndexOfSpaceAfterWord(b, y);
    assert a == s[..|a|];
    assert b == (b + " " + y)[..|b|];
    IntToStringInjective(n, m);
  }

  /** A count label names its count: different counts never read the same. */
  lemma CountLabelDeterminesCount(n: int, m: int, singular: string, plural: string)
    ensures CountLabel(n, singular, plural) == CountLabel(m, singular, plural) <==> n == m
  {
    if CountLabel(n, singular, plural) == CountLabel(m, singular, plural) {
      LeadingNumberDetermined(n, m, if n == 1 then singular else plural, if m == 1 then singular else plural);
    }
  }

  /** A count label reads back as its count, a space, and the singular noun exactly for 1. */
  lemma CountLabelReadsBack(n: int, singular: string, plural: string)
    ensures var t := CountLabel(n, singular, plural);
      var i := IndexOfSpace(t);
      i < |t| && ParseInt(t[..i]) == n && t[i + 1..] == (if n == 1 then singular else plural)
  {
    var a, w := IntToString(n), if n == 1 then singular else plural;
    var t := a + " " + w;
    IndexOfSpaceAfterWord(a, w);
    assert t[..|a|] == a;
    assert t[|a| + 1..] == w;
    IntToStringRoundTrip(n);
  }

  /** `Day ${day_index + 1}`: the one-based number of a zero-based day index; the chip reads
      back as "Day " and that number. */
  function DayChip(dayIndex: int): (c: string)
    ensures |c| > 4 && c[..4] == "Day "
    ensures ParseInt(c[4..]) == dayIndex + 1
  {
    var c := "Day " + IntToString(dayIndex + 1);
    assert c[4..] == IntToString(dayIndex + 1);
    IntToStringRoundTrip(dayIndex + 1);
    c
  }

  /** Distinct days carry distinct chips. */
  lemma DayChipsDistinct(a: int, b: int)
    ensures DayChip(a) == DayChip(b) <==> a == b
  {
    PrefixCancel("Day ", IntToString(a + 1), IntToString(b + 1));
    IntToStringInjective(a + 1, b + 1);
  }

  /** `count === 0 ? none : CountLabel(count)`: the activity line of a day. The empty-day text
      must not itself look like a count label. */
  function ActivityLabel(count: int, none: string): (t: string)
    requires none == [] || !(IsDigit(none[0]) || none[0] == '-')
    ensures t == none <==> count == 0
    ensures count != 0 ==> t == CountLabel(count, "activity", "activities")
  {
    if count == 0 then none else CountLabel(count, "activity", "activities")
  }

  /** A day's expense line: the formatted amount, or a placeholder text. */
  datatype ExpenseText = Amount(money: Money) | Placeholder(text: string)

  /** `expense_total > 0 ? formatCurrency(expense_total, currencyCode) : placeholder`. */
  function ExpenseDisplay(total: int, code: Option<string>, placeholder: string): (r: ExpenseText)
    ensures r.Amount? <==> total > 0
    ensures r.Amount? ==> r.money.amount == total && r.money.currency == CurrencyCode(code)
    ensures r.Placeholder? ==> r.text == placeholder
  {
    if total > 0 then Amount(Money(total, CurrencyCode(code))) else Placeholder(placeholder)
  }

  /** What a screen shows for one day: the chip, the title, the activity line, the expense line. */
  datatype DayLine = DayLine(chip: string, title: string, activities: string, expense: ExpenseText)
}
