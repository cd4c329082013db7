/**
 * `useTripStore`: a locally persisted list of trips with add / update /
 * delete-by-id, a selected-trip pointer, a search filter and summary stats.
 * Stored trips are JSON objects, so a trip is a map from field names to JSON
 * values and object spread `{...a, ...b}` is map union `a + b` (right side wins).
 */
module TripStore {
  import opened Wrappers
  import opened Text
  import opened LocalStorage

  /** A JSON value inside a stored trip; `Opaque` stands for booleans and objects. */
  datatype Value = Null | Num(n: int) | Str(s: string) | List(items: seq<Value>) | Opaque

  /** A stored trip object. */
  type TripRecord = map<string, Value>

  /** `t.id === v`: the trip has an `id` field holding `v`. */
  predicate IdIs(t: TripRecord, v: Value) {
    "id" in t && t["id"] == v
  }

  /** `t.id === id` for a string id. */
  predicate HasId(t: TripRecord, id: string) {
    IdIs(t, Str(id))
  }

  /** The value `selectedTripId` holds: a string, or `null` when nothing is selected. */
  function SelectionValue(selectedId: Option<string>): Value {
    if selectedId.Some? then Str(selectedId.value) else Null
  }

  /** The position of the first trip whose id is `v`. */
  function FindIndex(trips: seq<TripRecord>, v: Value): (r: Option<nat>)
    ensures r.Some? ==> r.value < |trips| && IdIs(trips[r.value], v)
    ensures r.Some? ==> forall j :: 0 <= j < r.value ==> !IdIs(trips[j], v)
    ensures r.None? <==> forall j :: 0 <= j < |trips| ==> !IdIs(trips[j], v)
  {
    if trips == [] then None
    else if IdIs(trips[0], v) then Some(0)
    else match FindIndex(trips[1..], v)
      case None => None
      case Some(i) => Some(i + 1)
  }

  /** `trips.find(t => t.id === selectedTripId) ?? null`. With nothing selected the search is
      for `null`, so a trip whose id is `null` is found. */
  function SelectedTrip(trips: seq<TripRecord>, selectedId: Option<string>): (r: Option<TripRecord>)
    ensures r.Some? <==> exists j :: 0 <= j < |trips| && IdIs(trips[j], SelectionValue(selectedId))
    ensures r.Some? ==> exists i :: 0 <= i < |trips| && r.value == trips[i] && IdIs(trips[i], SelectionValue(selectedId)) &&
                                    forall j :: 0 <= j < i ==> !IdIs(trips[j], SelectionValue(selectedId))
  {
    match FindIndex(trips, SelectionValue(selectedId))
    case None => None
    case Some(i) => Some(trips[i])
  }

  /** A field that holds a string. */
  predicate StrField(t: TripRecord, name: string) {
    name in t && t[name].Str?
  }

  /** The search predicate `t.title.toLowerCase().includes(q) || t.destination.toLowerCase().includes(q)`.
      None where `toLowerCase` is called on a field that is not a string, which throws;
      the destination is read only when the title does not match. */
  function Matches(t: TripRecord, q: string): (r: Option<bool>)
    ensures r.None? <==>
      (!StrField(t, "title") || (!Occurs(ToLower(t["title"].s), q) && !StrField(t, "destination")))
    ensures r.Some? ==>
      (r.value <==> (Occurs(ToLower(t["title"].s), q) ||
                     (StrField(t, "destination") && Occurs(ToLower(t["destination"].s), q))))
  {
    if !StrField(t, "title") then None
    else if Contains(ToLower(t["title"].s), q) then Some(true)
    else if !StrField(t, "destination") then None
    else Some(Contains(ToLower(t["destination"].s), q))
  }

  /** `trips.filter(...)`: the trips that match, or None if the predicate throws on any trip. */
  function FilterTrips(trips: seq<TripRecord>, q: string): (r: Option<seq<TripRecord>>)
    ensures r.Some? <==> forall i :: 0 <= i < |trips| ==> Matches(trips[i], q).Some?
    ensures r.Some? ==> |r.value| <= |trips|
  {
    if trips == [] then Some([])
    else match Matches(trips[0], q)
      case None => None
      case Some(keep) =>
        match FilterTrips(trips[1..], q)
        case None => None
        case Some(rest) => Some(if keep then [trips[0]] + rest else rest)
  }

  /** When the filter succeeds it keeps exactly the matching trips. */
  lemma {:induction false} FilterTripsMembers(trips: seq<TripRecord>, q: string, t: TripRecord)
    requires FilterTrips(trips, q).Some?
    ensures t in FilterTrips(trips, q).value <==> t in trips && Matches(t, q) == Some(true)
  {
    if trips != [] {
      FilterTripsMembers(trips[1..], q, t);
      assert trips == [trips[0]] + trips[1..];
    }
  }

  function Join(a: Option<seq<TripRecord>>, b: Option<seq<TripRecord>>): Option<seq<TripRecord>> {
    if a.Some? && b.Some? then Some(a.value + b.value) else None
  }

  /** Filtering keeps the original order: filtering a concatenation is the concatenation of
      the filtered parts. */
  lemma {:induction false} FilterPreservesOrder(a: seq<TripRecord>, b: seq<TripRecord>, q: string)
    ensures FilterTrips(a + b, q) == Join(FilterTrips(a, q), FilterTrips(b, q))
  {
    if a == [] {
      assert a + b == b;
      if FilterTrips(b, q).Some? {
        assert [] + FilterTrips(b, q).value == FilterTrips(b, q).value;
      }
    } else {
      FilterPreservesOrder(a[1..], b, q);
      FilterCons(a[0], a[1..], q);
      FilterCons(a[0], a[1..] + b, q);
      assert a == [a[0]] + a[1..];
      assert a + b == [a[0]] + (a[1..] + b);
      var m, ra, rb := Matches(a[0], q), FilterTrips(a[1..], q), FilterTrips(b, q);
      if m.Some? && ra.Some? && rb.Some? {
        var h := if m.value then [a[0]] else [];
        assert h + (ra.value + rb.value) == (h + ra.value) + rb.value;
      }
    }
  }

  /** Unfolds `FilterTrips` once, on a list written as head and tail. */
  lemma FilterCons(t: TripRecord, rest: seq<TripRecord>, q: string)
    ensures FilterTrips([t] + rest, q) ==
      if Matches(t, q).None? then None
      else Join(Some(if Matches(t, q).value then [t] else []), FilterTrips(rest, q))
  {
    assert ([t] + rest)[1..] == rest;
    if Matches(t, q).Some? && !Matches(t, q).value && FilterTrips(rest, q).Some? {
      assert [] + FilterTrips(rest, q).value == FilterTrips(rest, q).value;
    }
  }

  /** `filteredTrips`: the whole list when the trimmed query is empty, otherwise the trips
      matching the trimmed, lower-cased query. */
  function FilteredTrips(trips: seq<TripRecord>, searchQuery: string): (r: Option<seq<TripRecord>>)
    ensures (forall k :: 0 <= k < |searchQuery| ==> IsSpace(searchQuery[k])) ==> r == Some(trips)
    ensures (exists k :: 0 <= k < |searchQuery| && !IsSpace(searchQuery[k])) ==>
      r == FilterTrips(trips, ToLower(Trim(searchQuery)))
  {
    var q := ToLower(Trim(searchQuery));
    if q == [] then Some(trips) else FilterTrips(trips, q)
  }

  /** One step of `trips.reduce((s, t) => s + t[field] || 0, 0)`: a number is added, `null`
      adds nothing, and a missing or non-numeric field makes the sum NaN, which `|| 0`
      resets to 0. */
  function FoldStep(total: int, v: Option<Value>): int {
    match v
    case Some(Num(n)) => total + n
    case Some(Null) => total
    case _ => 0
  }

  function Field(t: TripRecord, name: string): Option<Value> {
    if name in t then Some(t[name]) else None
  }

  /** The running total of the fold, left to right: a last trip without a numeric or null
      field leaves 0, and when every trip has one the total is the plain sum. */
  function FieldTotal(trips: seq<TripRecord>, name: string): (total: int)
    ensures trips != [] && !Summable(trips[|trips| - 1], name) ==> total == 0
    ensures (forall i :: 0 <= i < |trips| ==> Summable(trips[i], name)) ==> total == SumOf(trips, name)
    decreases |trips|
  {
    if trips == [] then 0
    else
      var init, last := trips[..|trips| - 1], trips[|trips| - 1];
      SumOfAppend(init, [last], name);
      assert init + [last] == trips;
      FoldStep(FieldTotal(init, name), Field(last, name))
  }

  /** A trip whose field the fold adds rather than resets on. */
  predicate Summable(t: TripRecord, name: string) {
    name in t && (t[name].Num? || t[name].Null?)
  }

  function Amount(t: TripRecord, name: string): int {
    if name in t && t[name].Num? then t[name].n else 0
  }

  /** The plain sum of the numeric fields. */
  function SumOf(trips: seq<TripRecord>, name: string): int {
    if trips == [] then 0 else Amount(trips[0], name) + SumOf(trips[1..], name)
  }

  lemma {:induction false} SumOfAppend(a: seq<TripRecord>, b: seq<TripRecord>, name: string)
    ensures SumOf(a + b, name) == SumOf(a, name) + SumOf(b, name)
  {
    if a == [] {
      assert a + b == b;
    } else {
      SumOfAppend(a[1..], b, name);
      assert (a + b)[1..] == a[1..] + b;
    }
  }

  /** A trip without the field does not get skipped: the total restarts from 0 after it,
      so only the trips after the last such trip are summed. */
  lemma {:induction false} FieldTotalRestartsAfterGap(trips: seq<TripRecord>, name: string, i: nat)
    requires i < |trips| && !Summable(trips[i], name)
    requires forall j :: i < j < |trips| ==> Summable(trips[j], name)
    ensures FieldTotal(trips, name) == SumOf(trips[i + 1..], name)
    decreases |trips|
  {
    if i < |trips| - 1 {
      var init, last := trips[..|trips| - 1], trips[|trips| - 1];
      FieldTotalRestartsAfterGap(init, name, i);
      SumOfAppend(init[i + 1..], [last], name);
      assert init[i + 1..] == trips[i + 1..|trips| - 1];
      assert trips[i + 1..] == trips[i + 1..|trips| - 1] + [last];
    }
  }

  datatype Stats = Stats(totalTrips: nat, totalBudget: int, totalSpent: int)

  /** `stats`: the number of trips and the two folds over `budgetTotal` and `spent`. */
  function ComputeStats(trips: seq<TripRecord>): (r: Stats)
    ensures r.totalTrips == |trips|
    ensures (forall i :: 0 <= i < |trips| ==> Summable(trips[i], "budgetTotal")) ==> r.totalBudget == SumOf(trips, "budgetTotal")
    ensures (forall i :: 0 <= i < |trips| ==> Summable(trips[i], "spent")) ==> r.totalSpent == SumOf(trips, "spent")
  {
    Stats(|trips|, FieldTotal(trips, "budgetTotal"), FieldTotal(trips, "spent"))
  }

  /** The fields `addTrip` sets after spreading the payload. */
  const AddedKeys: set<string> := {"id", "createdAt", "updatedAt", "spent", "activities", "expenses", "checklist"}

  /** The trip `addTrip` builds: every payload field is kept, except that id, timestamps,
      `spent` and the three empty lists are set by the store and win over the payload. */
  function NewTrip(payload: TripRecord, id: string, now: string): (r: TripRecord)
    ensures r.Keys == payload.Keys + AddedKeys
    ensures HasId(r, id)
    ensures r["createdAt"] == Str(now) && r["updatedAt"] == Str(now) && r["spent"] == Num(0)
    ensures r["activities"] == List([]) && r["expenses"] == List([]) && r["checklist"] == List([])
    ensures forall k :: k in payload && k !in AddedKeys ==> r[k] == payload[k]
  {
    payload + map["id" := Str(id), "createdAt" := Str(now), "updatedAt" := Str(now), "spent" := Num(0),
                  "activities" := List([]), "expenses" := List([]), "checklist" := List([])]
  }

  /** `{ ...t, ...updates, updatedAt: now }`: the updates win over the trip's fields, and the
      timestamp wins over both. */
  function Merge(t: TripRecord, updates: TripRecord, now: string): (r: TripRecord)
    ensures r.Keys == t.Keys + updates.Keys + {"updatedAt"}
    ensures r["updatedAt"] == Str(now)
    ensures forall k :: k in updates && k != "updatedAt" ==> r[k] == updates[k]
    ensures forall k :: k in t && k !in updates && k != "updatedAt" ==> r[k] == t[k]
  {
    (t + updates)["updatedAt" := Str(now)]
  }

  /** `prev.map(t => t.id === id ? merged : t)`: same length and order; trips with another id
      are untouched and every trip with this id is merged. */
  function Updated(trips: seq<TripRecord>, id: string, updates: TripRecord, now: string): (r: seq<TripRecord>)
    ensures |r| == |trips|
    ensures forall i :: 0 <= i < |trips| && !HasId(trips[i], id) ==> r[i] == trips[i]
    ensures forall i :: 0 <= i < |trips| && HasId(trips[i], id) ==> r[i] == Merge(trips[i], updates, now)
  {
    if trips == [] then []
    else [if HasId(trips[0], id) then Merge(trips[0], updates, now) else trips[0]] + Updated(trips[1..], id, updates, now)
  }

  /** `prev.filter(t => t.id !== id)`: every trip with this id is removed and the others stay. */
  function Deleted(trips: seq<TripRecord>, id: string): (r: seq<TripRecord>)
    ensures |r| <= |trips|
  {
    if trips == [] then []
    else if HasId(trips[0], id) then Deleted(trips[1..], id)
    else [trips[0]] + Deleted(trips[1..], id)
  }

  /** Deleting keeps exactly the trips without that id. */
  lemma {:induction false} DeletedMembers(trips: seq<TripRecord>, id: string, t: TripRecord)
    ensures t in Deleted(trips, id) <==> t in trips && !HasId(t, id)
  {
    if trips != [] {
      DeletedMembers(trips[1..], id, t);
      assert trips == [trips[0]] + trips[1..];
    }
  }

  /** Deleting keeps the order of the remaining trips. */
  lemma {:induction false} DeletedPreservesOrder(a: seq<TripRecord>, b: seq<TripRecord>, id: string)
    ensures Deleted(a + b, id) == Deleted(a, id) + Deleted(b, id)
  {
    if a == [] {
      assert a + b == b;
    } else {
      DeletedPreservesOrder(a[1..], b, id);
      DeletedCons(a[0], a[1..], id);
      DeletedCons(a[0], a[1..] + b, id);
      assert a + b == [a[0]] + (a[1..] + b);
      assert a == [a[0]] + a[1..];
    }
  }

  /** Unfolds `Deleted` once, on a list written as head and tail. */
  lemma DeletedCons(t: TripRecord, rest: seq<TripRecord>, id: string)
    ensures Deleted([t] + rest, id) == (if HasId(t, id) then [] else [t]) + Deleted(rest, id)
  {
    assert ([t] + rest)[1..] == rest;
  }

  /** Deleting an id no trip has changes nothing. */
  lemma {:induction false} DeletedAbsentIsIdentity(trips: seq<TripRecord>, id: string)
    requires forall i :: 0 <= i < |trips| ==> !HasId(trips[i], id)
    ensures Deleted(trips, id) == trips
  {
    if trips != [] {
      DeletedAbsentIsIdentity(trips[1..], id);
    }
  }

  /** `cur === id ? null : cur`. */
  function ClearSelection(current: Option<string>, id: string): (r: Option<string>)
    ensures current == Some(id) ==> r == None
    ensures current != Some(id) ==> r == current
  {
    if current == Some(id) then None else current
  }

  /** With a fresh id, the trip just added is the one selected. */
  lemma AddedTripIsSelected(trips: seq<TripRecord>, payload: TripRecord, id: string, now: string)
    requires forall i :: 0 <= i < |trips| ==> !HasId(trips[i], id)
    ensures SelectedTrip(trips + [NewTrip(payload, id, now)], Some(id)) == Some(NewTrip(payload, id, now))
  {
    var all := trips + [NewTrip(payload, id, now)];
    assert HasId(all[|trips|], id);
  }

  /** After a delete, no trip with that id can be selected. */
  lemma DeletedTripIsNotSelectable(trips: seq<TripRecord>, id: string)
    ensures SelectedTrip(Deleted(trips, id), Some(id)) == None
  {
    var r := Deleted(trips, id);
    forall j | 0 <= j < |r| ensures !HasId(r[j], id) {
      DeletedMembers(trips, id, r[j]);
    }
  }

  /** The store returned by `useTripStore`. */
  class TripStore {
    /** The `useLocalStorage<Trip[]>('trips', [])` cell. */
    const cell: PersistedCell<seq<TripRecord>>
    var selectedTripId: Option<string>
    var searchQuery: string

    ghost predicate Valid()
      reads this
    {
      cell.key == "trips" && cell.initialValue == [] && cell.Valid()
    }

    function Trips(): seq<TripRecord>
      reads this, cell
    {
      cell.value
    }

    function Selected(): (r: Option<TripRecord>)
      reads this, cell
      ensures r == SelectedTrip(Trips(), selectedTripId)
    {
      SelectedTrip(cell.value, selectedTripId)
    }

    function Filtered(): (r: Option<seq<TripRecord>>)
      reads this, cell
      ensures r == FilteredTrips(Trips(), searchQuery)
    {
      FilteredTrips(cell.value, searchQuery)
    }

    function CurrentStats(): (r: Stats)
      reads this, cell
      ensures r == ComputeStats(Trips())
    {
      ComputeStats(cell.value)
    }

    constructor (storage: Storage, encode: seq<TripRecord> -> string, decode: string -> Option<seq<TripRecord>>,
                 readFails: bool)
      requires Lawful(encode, decode)
      ensures Valid() && fresh(cell) && cell.storage == storage
      ensures Trips() == Read(storage.entries, "trips", [], decode, readFails)
      ensures selectedTripId == None && searchQuery == ""
    {
      cell := new PersistedCell(storage, "trips", [], encode, decode, readFails);
      selectedTripId := None;
      searchQuery := "";
    }

    /** `addTrip(payload)` with the generated id and the current time passed in: appends
        exactly one trip, selects it and returns it. */
    method AddTrip(payload: TripRecord, id: string, now: string, writeFails: bool) returns (newTrip: TripRecord)
      requires Valid()
      modifies this, cell, cell.storage
      ensures Valid()
      ensures newTrip == NewTrip(payload, id, now)
      ensures Trips() == old(Trips()) + [newTrip]
      ensures selectedTripId == Some(id) && searchQuery == old(searchQuery)
      ensures cell.storage.entries ==
        if writeFails then old(cell.storage.entries) else old(cell.storage.entries)["trips" := cell.encode(Trips())]
    {
      newTrip := NewTrip(payload, id, now);
      var added := newTrip;
      cell.Set(Updater(prev => prev + [added]), writeFails);
      selectedTripId := Some(id);
    }

    /** `updateTrip(id, updates)`: merges the updates into every trip with this id. */
    method UpdateTrip(id: string, updates: TripRecord, now: string, writeFails: bool)
      requires Valid()
      modifies cell, cell.storage
      ensures Valid()
      ensures Trips() == Updated(old(Trips()), id, updates, now)
      ensures cell.storage.entries ==
        if writeFails then old(cell.storage.entries) else old(cell.storage.entries)["trips" := cell.encode(Trips())]
    {
      cell.Set(Updater(prev => Updated(prev, id, updates, now)), writeFails);
    }

    /** `deleteTrip(id)`: removes every trip with this id and clears the selection only if it
        pointed at this id. */
    method DeleteTrip(id: string, writeFails: bool)
      requires Valid()
      modifies this, cell, cell.storage
      ensures Valid()
      ensures Trips() == Deleted(old(Trips()), id)
      ensures selectedTripId == ClearSelection(old(selectedTripId), id) && searchQuery == old(searchQuery)
      ensures cell.storage.entries ==
        if writeFails then old(cell.storage.entries) else old(cell.storage.entries)["trips" := cell.encode(Trips())]
    {
      cell.Set(Updater(prev => Deleted(prev, id)), writeFails);
      selectedTripId := if selectedTripId == Some(id) then None else selectedTripId;
    }

    method SetSelectedTripId(id: Option<string>)
      modifies this
      ensures selectedTripId == id && searchQuery == old(searchQuery)
    {
      selectedTripId := id;
    }

    method SetSearchQuery(query: string)
      modifies this
      ensures searchQuery == query && selectedTripId == old(selectedTripId)
    {
      searchQuery := query;
    }
  }
}
