/**
 * `useTrips`: fetches the signed-in user's trips, newest update first, and
 * adds an activity count to each row.
 */
module HomeTrips {
  import opened Wrappers
  import opened Backend
  import TripDays

  /** A row of `trips` as selected. */
  datatype TripRow = TripRow(
    id: string, title: string, start_date: string, end_date: string,
    updated_at: string, owner_id: string, activities: CountAggregate)

  /** `{ ...row, activity_count }`: every selected field of the row, plus the count. */
  datatype HomeTrip = HomeTrip(row: TripRow, activity_count: int)

  /** Why the query function rejects. */
  datatype FetchError =
    | Backend(error: BackendError)
    /** `data.map` on null data throws a TypeError. */
    | NullData

  function ToHomeTrip(row: TripRow): (t: HomeTrip)
    ensures t.row == row
    ensures t.activity_count == FirstCount(row.activities)
  {
    HomeTrip(row, FirstCount(row.activities))
  }

  /** `data.map(...)`: one trip per row, in the order the backend returned. */
  function MapTrips(rows: seq<TripRow>): (r: seq<HomeTrip>)
    ensures |r| == |rows|
    ensures forall i :: 0 <= i < |rows| ==> r[i].row == rows[i] && r[i].activity_count == FirstCount(rows[i].activities)
  {
    if rows == [] then [] else [ToHomeTrip(rows[0])] + MapTrips(rows[1..])
  }

  /** The query function: a backend error is rethrown; otherwise the rows are mapped. */
  function FetchTrips(response: QueryResponse<TripRow>): (r: Result<seq<HomeTrip>, FetchError>)
    ensures response.error.Some? ==> r == Err(Backend(response.error.value))
    ensures response.error.None? && response.data.None? ==> r == Err(NullData)
    ensures response.error.None? && response.data.Some? ==> r == Ok(MapTrips(response.data.value))
  {
    if response.error.Some? then Err(Backend(response.error.value))
    else if response.data.None? then Err(NullData)
    else Ok(MapTrips(response.data.value))
  }

  /** `['trips']`. */
  const TripsKey: QueryKey := [KStr("trips")]

  /** The trip list and the day lists never share a cache entry. */
  lemma TripsKeyIsNotADaysKey(tripId: string, limit: int)
    ensures TripsKey != TripDays.TripDaysKey(tripId, limit)
  {
    assert |TripsKey| != |TripDays.TripDaysKey(tripId, limit)|;
  }
}
