# nomad-app core, modelled in Dafny

nomad-app is a Preact travel planner. Most of it is markup and calls into Supabase, react-query,
date-fns and Intl. This project models the parts that have behaviour of their own:

- the **route guard** (`RouteGuard`, `ProtectedRoute`, `GuestRoute`): spinner while the session
  is loading, children once allowed, a history-replacing redirect otherwise;
- the **session store** (`AuthProvider`): `{session, user, loading}` overwritten by the
  initial-session callback and by every auth-change event, plus the sign-in and sign-out calls
  that rethrow the provider's error;
- the **OAuth callback screen**, which sends the user to `/` or `/auth` once per mount;
- the **local trip store** (`useTripStore`): selection, the trimmed case-insensitive search, the
  stats folds, and add / update / delete, all on top of
- the **persistence cell** (`useLocalStorage`): an in-memory value kept in step with one key of
  a storage map, read back with a fall-back to the initial value;
- the **row mappings** of the two backend queries (`useTripDays`, `useTrips`): a default count of
  0, a sum of expense amounts, and the query keys;
- the **view helpers** of the itinerary and trip-detail screens: totals, count labels, "Day N"
  chips, the "Untitled day N" fallback, the add-activity link, header chip rules, budget
  progress, and the share and "View all" links.

Files: `wrappers.dfy` (Option, Result, Outcome), `text.dfy` (ASCII `trim`/`toLowerCase`,
`includes`, decimal rendering of integers), `routing.dfy` (navigations and fixed paths),
`backend.dfy` (backend errors, query keys, count aggregates), then one file per source file:
`guards.dfy`, `auth_provider.dfy`, `auth_callback.dfy`, `local_storage.dfy`, `trip_store.dfy`,
`trip_days.dfy`, `home_trips.dfy`, `display.dfy` (helpers both trip screens share),
`itinerary_full.dfy`, `trip_detail.dfy`.

Modelling choices:

- Effects that change component state are class methods (`Guards.RouteGuard.Commit`,
  `AuthProvider.AuthStore.OnAuthStateChange`, `LocalStorage.PersistedCell.Set`,
  `TripStore.TripStore.AddTrip`, ...). Each is tied by its postcondition to a pure transition
  function, and the properties are proved about the functions.
- `route(path, true)` is recorded by appending a `Navigation(path, replace)` to a log.
- A stored trip is a JavaScript object, modelled as `map<string, Value>`. Object spread is
  map union: the right operand wins.
- `.toLowerCase()` on a field that is not a string throws. The search therefore returns
  `Option`, and `None` stands for the exception.
- The stats use `s + t[field] || 0`, which the code parses as `(s + t[field]) || 0`. A trip
  without the field makes the sum `NaN`, and `NaN || 0` resets the running total to 0. The
  model keeps that reading: `TripStore.FieldTotalRestartsAfterGap`.
- The remote calls are inputs: a Supabase response is a `QueryResponse` (data and error), a
  provider call's error is an `Option<AuthError>`, the generated id and the clock are
  parameters, and a storage read, write or removal that throws is a `readFails`, `writeFails`
  or `removeFails` flag. The server-side branch of the read (no `window`) also returns the
  initial value, so it is covered by `readFails`.
- Preact compares effect dependencies with `!==`. A `Session` therefore carries a
  `handle` standing for the identity of the object the client library delivered: two sessions
  with the same token and user from different events are different dependencies
  (`Guards.RefreshedSessionRedirectsAgain`).
- JSON is an abstract codec pair `encode`/`decode`, assumed `Lawful`: decoding an encoding
  gives the value back, and an encoding is never the empty string.

## Model

| member | source | states |
|---|---|---|
| Guards.ShouldRedirect | src/app/guards.tsx:19-20 | a redirect is due exactly when `requireAuth` differs from having a session |
| Guards.Decide | src/app/guards.tsx:16-28 | while loading the verdict is pending; otherwise allowed iff `requireAuth` equals having a session, and a redirect targets `redirectTo` |
| Guards.Effect | src/app/guards.tsx:17-27 | a loading run changes nothing; a settled run sets `shouldRender` iff allowed and logs one replace-navigation to `redirectTo` iff redirecting |
| Guards.Step | src/app/guards.tsx:16-28 | the effect runs only when one of session, loading, requireAuth, redirectTo changed (a session compared by object identity); the dependencies are remembered |
| Guards.StepAll | src/app/guards.tsx:16-28 | after a history of commits the guard remembers the last commit's dependencies and has only appended to its navigation log |
| Guards.RefreshedSessionRedirectsAgain | src/app/guards.tsx:28 | a session object with the same content but a new identity re-runs the effect, so a guest route that already redirected redirects again |
| Guards.LastSettled | src/app/guards.tsx:17 | the last commit made while not loading (every later commit was loading), or none exactly when every commit was loading |
| Guards.Render | src/app/guards.tsx:30-38 | the spinner exactly while loading; children exactly when not loading and `shouldRender` |
| Guards.ShownOnlyAfterAllow | src/app/guards.tsx:14-38 | once a commit's effect has run, children are shown iff the last settled evaluation allowed them; the initial state shows nothing |
| Guards.CommitRendersPreviousVerdict | src/app/guards.tsx:16-38 | a commit's own render, made before its effect runs, shows the children iff it is not loading and the last settled commit before it allowed them |
| Guards.StaleChildrenAfterSignOut | src/app/guards.tsx:16-38 | after a sign-out on a protected page, the commit without a session renders the children once, then its effect redirects to `/auth` and hides them |
| Guards.RedirectsReplaceHistory | src/app/guards.tsx:22-24 | every navigation the guard issues replaces history and goes to a `redirectTo` it was given |
| Guards.NoRedirectWhileLoading | src/app/guards.tsx:14-17 | while every commit is loading, no navigation happens and `shouldRender` stays false |
| Guards.RouteGuard.constructor | src/app/guards.tsx:14 | a mounted guard starts with `shouldRender` false, no remembered dependencies and no navigations |
| Guards.RouteGuard.Commit | src/app/guards.tsx:16-28 | the guard's new state is `Step` of its old state and the committed dependencies |
| Guards.RouteGuard.Rendered | src/app/guards.tsx:30-38 | the guard renders `Render` of its state |
| Guards.ProtectedRouteVerdicts | src/app/guards.tsx:41-45 | a protected route waits, allows a session, or redirects to `/auth` |
| Guards.GuestRouteVerdicts | src/app/guards.tsx:47-51 | a guest route waits, redirects a session to `/`, or allows |
| Guards.GuardOf | src/app/router.tsx:29-30 | the landing page is behind the protected guard, the sign-in page behind the guest guard, every other page unguarded |
| AuthProvider.Apply | src/app/provider.tsx:22-35 | an event replaces the session wholesale, sets the user from it (null exactly when the session is) and clears loading |
| AuthProvider.UserOf | src/app/provider.tsx:24 | the session's user, or null exactly when there is no session |
| AuthProvider.Replay | src/app/provider.tsx:22-35 | no event leaves the state unchanged; after any non-empty sequence of events the state is determined by the last event alone, user from its session and loading cleared |
| AuthProvider.ReplayKeepsConsistent | src/app/provider.tsx:22-35 | the user stays the session's user (null exactly when the session is null) across every event |
| AuthProvider.LoadingUntilFirstEvent | src/app/provider.tsx:18-35 | from the initial state, loading stays true exactly until some event arrives, and never becomes true again |
| AuthProvider.AuthStore.constructor | src/app/provider.tsx:16-18 | the store starts with no session, no user, loading |
| AuthProvider.AuthStore.OnInitialSession | src/app/provider.tsx:22-26 | the `getSession` callback applies `Apply` to the store's state |
| AuthProvider.AuthStore.OnAuthStateChange | src/app/provider.tsx:31-35 | every auth-change event applies the same `Apply`, whatever its kind |
| AuthProvider.RaiseOnError | src/app/provider.tsx:52-56 | the call fails exactly when the provider returned an error, with that error |
| AuthProvider.SignInWithGoogle | src/app/provider.tsx:45-53 | asks for the `google` provider with redirect `origin + "/auth/callback"`, and fails exactly on a provider error |
| AuthProvider.SignOut | src/app/provider.tsx:54-57 | asks for sign-out and fails exactly on a provider error |
| AuthCallback.CallbackTarget | src/features/auth/AuthCallback.tsx:9-15 | a session lands on `/`, no session on `/auth`, both replacing history |
| AuthCallback.CallbackLandsAdmitted | src/features/auth/AuthCallback.tsx:9-15 | the page the callback lands on is guarded, and its guard admits the session the callback read, so no second redirect follows |
| AuthCallback.CallbackScreen.constructor | src/features/auth/AuthCallback.tsx:5-6 | a mounted screen has not checked and has navigated nowhere |
| AuthCallback.CallbackScreen.Commit | src/features/auth/AuthCallback.tsx:6-17 | the first commit issues exactly one navigation to `CallbackTarget`; later commits issue none |
| AuthCallback.CallbackScreen.Rendered | src/features/auth/AuthCallback.tsx:19-23 | the screen always renders the spinner |
| LocalStorage.Storage.constructor | src/hooks/useLocalStorage.tsx:7 | the storage map starts with the given entries |
| LocalStorage.Read | src/hooks/useLocalStorage.tsx:6-11 | the initial value when `getItem` throws or the entry is absent, empty or does not decode; the decoded value otherwise |
| LocalStorage.ReadAfterWrite | src/hooks/useLocalStorage.tsx:8-23 | reading after storing a value's encoding gives that value back |
| LocalStorage.ReadAfterRemove | src/hooks/useLocalStorage.tsx:28-30 | reading after removing the key gives the initial value |
| LocalStorage.ReadIsLocal | src/hooks/useLocalStorage.tsx:7 | a read depends on no entry but its own key |
| LocalStorage.PersistedCell.constructor | src/hooks/useLocalStorage.tsx:14 | the cell starts with `Read` of the storage, in step with it |
| LocalStorage.PersistedCell.Reload | src/hooks/useLocalStorage.tsx:16-18 | the mount effect re-reads the value from storage, falling back to the initial value when the read throws |
| LocalStorage.PersistedCell.Set | src/hooks/useLocalStorage.tsx:20-26 | the value becomes the given value or the updater applied to the old value; only the key's entry changes, to its encoding, unless the write throws |
| LocalStorage.PersistedCell.Remove | src/hooks/useLocalStorage.tsx:28-31 | the value resets to the initial value and only the key's entry is deleted, unless the removal throws |
| LocalStorage.LiteralInitialNeverSettles | src/hooks/useTripStore.tsx:6 | with a `[]` literal as the initial value, every render after the first (every render when trips are stored) runs the read effect and asks for another render |
| LocalStorage.HoistedInitialSettles | src/hooks/useLocalStorage.tsx:12-18 | with one constant initial value, the read effect runs on mount only and asks for at most one further render, exactly when trips are stored |
| TripStore.FindIndex | src/hooks/useTripStore.tsx:11 | the first index whose `id` is strictly equal to the value, or none exactly when no trip has it |
| TripStore.SelectedTrip | src/hooks/useTripStore.tsx:10-13 | a trip exactly when some trip's `id` is strictly equal to the selection (a null selection matches a trip whose id is null), and then the first such trip |
| TripStore.Matches | src/hooks/useTripStore.tsx:18-21 | throws (none) when the title is not a string, or when the title misses and the destination is not a string; otherwise true exactly when the lower-cased title or destination contains the query |
| TripStore.FilterTrips | src/hooks/useTripStore.tsx:18-21 | succeeds exactly when the predicate is defined on every trip, and keeps at most all of them |
| TripStore.FilterTripsMembers | src/hooks/useTripStore.tsx:18-21 | a successful filter keeps exactly the trips whose title or destination contains the query |
| TripStore.FilterPreservesOrder | src/hooks/useTripStore.tsx:18-21 | filtering a concatenation concatenates the filtered parts, so the original order is kept |
| TripStore.FilteredTrips | src/hooks/useTripStore.tsx:15-22 | an all-whitespace query gives the whole list; otherwise the filter by the trimmed, lower-cased query |
| TripStore.SumOfAppend | src/hooks/useTripStore.tsx:26-27 | the reference sum of a field is additive over concatenation |
| TripStore.FieldTotal | src/hooks/useTripStore.tsx:26-27 | a last trip without a numeric or null field leaves 0; when every trip has one, the fold is the plain sum of the field |
| TripStore.FieldTotalRestartsAfterGap | src/hooks/useTripStore.tsx:26-27 | a trip without the field resets the total, so only the trips after the last such trip are summed |
| TripStore.ComputeStats | src/hooks/useTripStore.tsx:24-29 | the count is the list length, and each total is the field sum when every trip has the field |
| TripStore.NewTrip | src/hooks/useTripStore.tsx:33-42 | the new trip keeps every payload field except id, timestamps, `spent` and the three lists, which the store sets |
| TripStore.Merge | src/hooks/useTripStore.tsx:49 | the updates win over the trip's fields and `updatedAt` is the current time whatever the updates say |
| TripStore.Updated | src/hooks/useTripStore.tsx:49 | same length and order; trips with another id untouched, every trip with this id merged |
| TripStore.Deleted | src/hooks/useTripStore.tsx:53 | the result is never longer than the list |
| TripStore.DeletedMembers | src/hooks/useTripStore.tsx:53 | deleting keeps exactly the trips without that id |
| TripStore.DeletedPreservesOrder | src/hooks/useTripStore.tsx:53 | deleting from a concatenation concatenates the results, so the others keep their order |
| TripStore.DeletedAbsentIsIdentity | src/hooks/useTripStore.tsx:53 | deleting an id no trip has changes nothing |
| TripStore.ClearSelection | src/hooks/useTripStore.tsx:54 | the selection is cleared exactly when it pointed at the deleted id |
| TripStore.AddedTripIsSelected | src/hooks/useTripStore.tsx:43-44 | with a fresh id, the selected trip after adding is the added trip |
| TripStore.DeletedTripIsNotSelectable | src/hooks/useTripStore.tsx:53-54 | after deleting an id, no trip with that id can be selected |
| TripStore.TripStore.Selected | src/hooks/useTripStore.tsx:10-13 | the store's selected trip is `SelectedTrip` of its trips and selected id |
| TripStore.TripStore.Filtered | src/hooks/useTripStore.tsx:15-22 | the store's filtered list is `FilteredTrips` of its trips and query |
| TripStore.TripStore.CurrentStats | src/hooks/useTripStore.tsx:24-29 | the store's stats are `ComputeStats` of its trips |
| TripStore.TripStore.constructor | src/hooks/useTripStore.tsx:6-8 | the store reads `trips` with an empty default, selects nothing, and has an empty query |
| TripStore.TripStore.AddTrip | src/hooks/useTripStore.tsx:31-46 | appends exactly the new trip, selects it, returns it, and persists the list unless the write throws |
| TripStore.TripStore.UpdateTrip | src/hooks/useTripStore.tsx:48-50 | the trips become `Updated` of the old trips, persisted unless the write throws |
| TripStore.TripStore.DeleteTrip | src/hooks/useTripStore.tsx:52-55 | the trips become `Deleted` of the old trips and the selection is cleared only if it was the deleted id |
| TripStore.TripStore.SetSelectedTripId | src/hooks/useTripStore.tsx:7 | sets the selected id and nothing else |
| TripStore.TripStore.SetSearchQuery | src/hooks/useTripStore.tsx:8 | sets the query and nothing else |
| Backend.FirstCount | src/features/trips/detail/hooks/useTripDays.ts:32 | the count of the first aggregate entry, or 0 when the aggregate, its first entry or its count is absent |
| TripDays.SumOfAmountsAppend | src/features/trips/detail/hooks/useTripDays.ts:34-38 | the reference sum of expense amounts is additive over concatenation |
| TripDays.ReduceIsSumOfExpenses | src/features/trips/detail/hooks/useTripDays.ts:34-38 | the left fold equals the sum of amounts, a null expense or missing amount counting 0 |
| TripDays.AmountOf | src/features/trips/detail/hooks/useTripDays.ts:36 | a null expense or a missing amount counts 0, otherwise the amount |
| TripDays.ReduceAmounts | src/features/trips/detail/hooks/useTripDays.ts:34-38 | the fold is non-negative when every amount is, and 0 when every amount is |
| TripDays.ExpenseTotal | src/features/trips/detail/hooks/useTripDays.ts:33-39 | 0 for a non-array `expenses`, the sum of amounts otherwise |
| TripDays.ToTripDay | src/features/trips/detail/hooks/useTripDays.ts:41-49 | copies id, title, trip_id, day_index and date; the count and the expense total are derived |
| TripDays.MapDays | src/features/trips/detail/hooks/useTripDays.ts:31-50 | one record per row, in order, each the row's mapping |
| TripDays.GetTripDays | src/features/trips/detail/hooks/useTripDays.ts:30-50 | a backend error is rethrown; null data gives an empty list; otherwise the mapped rows |
| TripDays.TripDaysKeyInjective | src/features/trips/detail/hooks/useTripDays.ts:55 | distinct (trip, limit) pairs get distinct query keys |
| TripDays.TripDaysEnabled | src/features/trips/detail/hooks/useTripDays.ts:57 | the query runs exactly for a non-empty trip id |
| HomeTrips.ToHomeTrip | src/features/home/hooks/useTrips.ts:33-36 | the row is carried over and `activity_count` is the first aggregated count or 0 |
| HomeTrips.MapTrips | src/features/home/hooks/useTrips.ts:33-36 | one trip per row, in order |
| HomeTrips.FetchTrips | src/features/home/hooks/useTrips.ts:31-36 | a backend error is rethrown; null data is an error (`data.map` throws); otherwise the mapped rows |
| HomeTrips.TripsKeyIsNotADaysKey | src/features/home/hooks/useTrips.ts:16 | the trips key never collides with a trip-days key |
| Display.CurrencyCode | src/features/itinerary/ItineraryFull.tsx:164-165 | the trip's currency code when non-empty, else "THB" |
| Display.CountLabel | src/features/itinerary/ItineraryFull.tsx:79 | a count label starts with the rendered number |
| Display.CountLabelReadsBack | src/features/itinerary/ItineraryFull.tsx:79 | the label reads back as its count, then the singular noun exactly for 1 and the plural otherwise |
| Display.CountLabelDeterminesCount | src/features/itinerary/ItineraryFull.tsx:79 | different counts never give the same label |
| Display.DayChip | src/features/itinerary/ItineraryFull.tsx:123 | a day chip reads "Day " followed by the one-based day number |
| Display.DayChipsDistinct | src/features/itinerary/ItineraryFull.tsx:123 | different day indices give different chips |
| Display.ActivityLabel | src/features/itinerary/ItineraryFull.tsx:137-139 | the empty-day text exactly for 0 activities, a count label otherwise |
| Display.ExpenseDisplay | src/features/itinerary/ItineraryFull.tsx:143-145 | the amount in the trip's currency exactly when positive, else the placeholder |
| ItineraryFull.DaysOrEmpty | src/features/itinerary/ItineraryFull.tsx:32 | missing days are an empty list |
| ItineraryFull.TotalActivities | src/features/itinerary/ItineraryFull.tsx:33 | with non-negative counts, the total is non-negative and at least every day's count; a single day totals to its own value |
| ItineraryFull.TotalSpend | src/features/itinerary/ItineraryFull.tsx:34 | with non-negative totals, the spend is non-negative and at least every day's total; a single day totals to its own value |
| ItineraryFull.TotalActivitiesAppend | src/features/itinerary/ItineraryFull.tsx:33 | the activity total is additive over concatenated days |
| ItineraryFull.TotalSpendAppend | src/features/itinerary/ItineraryFull.tsx:34 | the spend total is additive over concatenated days |
| ItineraryFull.TotalsOfIdleDays | src/features/itinerary/ItineraryFull.tsx:33-34 | days without activities or expenses total 0 |
| ItineraryFull.ItinerarySummary | src/features/itinerary/ItineraryFull.tsx:41-80 | the day count and both labels come from the day list, and a total appears exactly when the spend is positive |
| ItineraryFull.DayTitle | src/features/itinerary/ItineraryFull.tsx:130 | the title when non-empty, else "Untitled day N" with N the one-based index; never empty |
| ItineraryFull.UntitledDaysDistinct | src/features/itinerary/ItineraryFull.tsx:130 | untitled days get equal titles exactly when their indices are equal |
| ItineraryFull.ItineraryDayLine | src/features/itinerary/ItineraryFull.tsx:117-147 | a day entry shows its chip, its title with the fallback, "No activities added" exactly for 0 activities, and the amount exactly when positive, else "No expenses recorded" |
| ItineraryFull.AddActivityTarget | src/features/itinerary/ItineraryFull.tsx:222-226 | `/trip/{id}?add=activity`, then `&day={dayId}` only for a non-empty day id, replacing history |
| ItineraryFull.AddActivityTargetsDistinguishDays | src/features/itinerary/ItineraryFull.tsx:224 | two targets of one trip are equal exactly when both lack a day or both name the same day |
| TripDetail.BudgetProgress | src/features/trips/detail/TripDetail.tsx:223-225 | 0 without a positive budget; at most 100; 100 once spending reaches the budget or the rounded percentage reaches 100; otherwise exactly the percentage rounded half up |
| TripDetail.ScreenProgressIsTwenty | src/features/trips/detail/TripDetail.tsx:56 | with the figures the screen passes, the card shows 20% |
| TripDetail.DateText | src/features/trips/detail/TripDetail.tsx:28-34 | "-" for a missing or empty date, the formatted date otherwise |
| TripDetail.DateChipIffBothDates | src/features/trips/detail/TripDetail.tsx:28-76 | for a formatter that never prints "-", the date chip shows exactly when both dates are present |
| TripDetail.HasDestination | src/features/trips/detail/TripDetail.tsx:75 | true exactly when the destination has a non-whitespace character |
| TripDetail.Chips | src/features/trips/detail/TripDetail.tsx:88-101 | the destination chip exactly when it has content, the date chip exactly when both dates show, and the row exactly when it has a chip |
| TripDetail.SnapshotDayLine | src/features/trips/detail/TripDetail.tsx:177-207 | a snapshot entry shows its chip, the stored title, "No plans yet" exactly for 0 activities, and the amount exactly when positive, else "No expenses" |
| TripDetail.ShareUrl | src/features/trips/detail/TripDetail.tsx:286 | the origin followed by the trip's path |
| TripDetail.ShareUrlInjective | src/features/trips/detail/TripDetail.tsx:286 | different trips get different share URLs |
| TripDetail.ItineraryLinksDistinct | src/features/trips/detail/TripDetail.tsx:162-163 | the "View all" links of different trips are different |
| Text.ToLower | src/hooks/useTripStore.tsx:16 | same length, each letter the lower-case of the input's letter at that position, no upper-case letter left |
| Text.ToLowerIdempotent | src/hooks/useTripStore.tsx:16 | lower-casing twice is lower-casing once |
| Text.Trim | src/hooks/useTripStore.tsx:16 | the input with its leading and trailing whitespace removed: a piece of it, preceded and followed only by whitespace, neither starting nor ending with whitespace, and empty exactly for an all-whitespace input |
| Text.Contains | src/hooks/useTripStore.tsx:19-20 | `includes` holds exactly when the query occurs at some position |
| Text.IntToString | src/features/itinerary/ItineraryFull.tsx:79 | a rendered integer is non-empty, has no space and starts with a digit or a minus sign |
| Text.IntToStringRoundTrip | src/features/itinerary/ItineraryFull.tsx:79 | a rendered integer reads back as itself |
| Text.IntToStringInjective | src/features/itinerary/ItineraryFull.tsx:79 | different integers render differently |

## Left out

- Supabase queries, the OAuth calls and the `create_trip_with_days` RPC are remote I/O. Their
  results are inputs; `.order` and `.limit` are the backend's business.
- The react-query layer is not modelled: caching, the 5-minute stale time, deduplication,
  retry, loading flags and invalidation. `TripDays.TripDaysKey` and `HomeTrips.TripsKey` are
  kept only to show that the two queries never share a cache entry.
- Dates: `new Date` and date-fns `format` are a `format` parameter of `TripDetail.DateText`;
  `formatTripDayDate` and the day-date line are not modelled.
- `Intl.NumberFormat` is not modelled: `Display.Money` keeps the amount and the currency code only.
- JavaScript numbers are modelled as unbounded integers; fractional amounts, `NaN` arithmetic
  other than the stats reset, and floating-point rounding are not modelled.
- TripDetail.BudgetProgress: rounds the exact quotient half up; the floating-point error of
  `spent / total * 100` is not modelled.
- TripDays.AmountOf: an amount is a number or absent; `Number()` of a string amount is not modelled.
- TripStore.FoldStep: only a missing field (`undefined`, so `NaN`) resets the total in JavaScript.
  A string, array or object field is concatenated instead (`0 + []` is `"0"`, which is truthy),
  turning the total into a string, and `true` counts as 1. The model resets the total to 0 for
  every value that is neither a number nor null; string totals are not modelled.
- `toLowerCase` and `trim` are ASCII only: no Unicode case mapping or Unicode whitespace.
- JSON is the abstract `encode`/`decode` pair; its text format is not modelled.
- LocalStorage.Read: `decode` yields a value of the cell's type or nothing, so a stored text
  that parses to a value of another type (`"null"`, `"{}"`, `"5"` under `"trips"`) is not
  modelled. `JSON.parse` returns such a value as is; under `"trips"` it makes `trips.find` and
  `trips.reduce` in the trip store throw, while the model's store reads the initial list.
- `crypto.randomUUID()` and `new Date().toISOString()` are parameters, and the id is assumed fresh.
- The class members model the cell with its initial value hoisted to one constant, so the read
  effect runs on mount only (`PersistedCell.Reload`). As written, `useTripStore` passes a new
  `[]` at every render and the effect re-reads the storage after every render (see Findings);
  the class model does not interleave those re-reads with the updates below.
- TripStore.TripStore.AddTrip: when the write throws, the model keeps the new trip in memory;
  as written, the next render's re-read replaces it with the stored list, so the trip is lost.
- TripStore.TripStore.UpdateTrip: when the write throws, the model keeps the change in memory;
  as written, the next render's re-read undoes it.
- TripStore.TripStore.DeleteTrip: when the write throws, the model keeps the trip deleted in
  memory; as written, the next render's re-read brings it back.
- LocalStorage.PersistedCell.Set: a swallowed write failure keeps the new value only until the
  next re-read of the storage, which as written follows the next render.
- LocalStorage.PersistedCell.Remove: a swallowed removal failure resets the value only until
  the next re-read of the storage, which brings the stored value back.
- Preact batches state updates; the model applies them one at a time, in program order.
- The auth subscription's teardown, the `useMemo` identity of the context value, and the
  `console.log` lines of the callback screen are not modelled.
- `ShareButton`'s `navigator.share`, clipboard and timeout, the `AuthScreen` flags, all markup
  and styling, the router wiring other than which guard each page has (`Guards.GuardOf`), `useTripDetail`, `useCreateTrip` and the mock data are not
  part of this model.

## Findings

| source | as written | input that shows it | evidently intended | confidence | as-written member | corrected member |
|---|---|---|---|---|---|---|
| src/hooks/useTripStore.tsx:6 | `useLocalStorage('trips', [])` passes a new array each render; `read` depends on it and the mount effect on `read`, so every render re-reads storage and `setValue` gets a new object | any second render, e.g. typing in the search box; with trips stored, the first render: the component re-renders for ever | the initial value is one constant, so the effect runs on mount only and the cell settles | not executed; medium | LocalStorage.LiteralInitialNeverSettles | LocalStorage.HoistedInitialSettles |
