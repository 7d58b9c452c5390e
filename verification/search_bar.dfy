/** The search bar's state and the form data it writes into. One search bar is
    bound to one form property: the collection property
    `secondaryActivityCities` accumulates distinct locations, any other
    property holds a single location that each selection overwrites.
 */
module SearchBar {
  import opened JsValues
  import opened Geo
  import opened Http

  /** The form property whose value is a list of locations. */
  const CollectionProperty := "secondaryActivityCities"
  /** Shorter queries are not looked up. */
  const MinQueryLength := 3
  /** The notice raised when a location is already in the list. */
  const AlreadyPresentNotice := "Cette ville est déjà présente"

  /** A form field as the search bar sees it: one location, a list of
      locations, or the text of another input that the search bar never
      writes. */
  datatype FieldValue = Place(location: Location) | Places(locations: seq<Location>) | Scalar(text: string)

  /** The form data, keyed by property name. */
  type FormData = map<string, FieldValue>

  /** The search bar's own state: the query text, the last results and
      whether the dropdown is open. */
  datatype Session = Session(query: string, results: seq<Location>, showResults: bool)

  const InitialSession := Session("", [], false)

  /** The outcome of a user action: the new session, the new form data and
      the notice raised, if any. */
  datatype Step = Step(session: Session, data: FormData, notice: Option<string>)

  /** The dropdown is rendered when it is open and has results. */
  predicate DropdownVisible(s: Session) {
    s.showResults && |s.results| > 0
  }

  /** The collection property, when present, holds a list: the form data the
      search bar is used with keeps locations there. */
  predicate CollectionIsList(data: FormData) {
    CollectionProperty in data ==> data[CollectionProperty].Places?
  }

  /** `prevData[property] || []` for the collection property. */
  function CurrentList(data: FormData): seq<Location>
    requires CollectionIsList(data)
  {
    if CollectionProperty in data then data[CollectionProperty].locations else []
  }

  /** `list.some(x => x.uniqueId === id)`. */
  function HasId(list: seq<Location>, id: string): (b: bool)
    ensures b <==> exists i :: 0 <= i < |list| && list[i].uniqueId == id
  {
    if list == [] then false else list[0].uniqueId == id || HasId(list[1..], id)
  }

  /** How many elements of `list` carry `id`. */
  function CountId(list: seq<Location>, id: string): nat {
    if list == [] then 0 else (if list[0].uniqueId == id then 1 else 0) + CountId(list[1..], id)
  }

  /** No two elements share a `uniqueId`. */
  ghost predicate UniqueIds(list: seq<Location>) {
    forall i, j :: 0 <= i < j < |list| ==> list[i].uniqueId != list[j].uniqueId
  }

  /** The list after `updateArray`, and whether the location was a duplicate. */
  datatype ListUpdate = ListUpdate(list: seq<Location>, duplicate: bool)

  /** `updateArray(list, location)`: append unless an element already has the
      location's id. */
  function UpdateArray(list: seq<Location>, location: Location): (u: ListUpdate)
    ensures u.duplicate <==> exists i :: 0 <= i < |list| && list[i].uniqueId == location.uniqueId
    // a fresh location grows the list by one, at the end, keeping the rest in order
    ensures !u.duplicate ==> |u.list| == |list| + 1 && u.list[..|list|] == list && u.list[|list|] == location
    // a duplicate leaves the list as it was
    ensures u.duplicate ==> u.list == list
  {
    if HasId(list, location.uniqueId) then ListUpdate(list, true) else ListUpdate(list + [location], false)
  }

  /** `handleResultClick(result)` on a search bar bound to `property`. */
  function ResultClick(s: Session, data: FormData, property: string, result: Location): (st: Step)
    requires property == CollectionProperty ==> CollectionIsList(data)
    // every click empties the results and closes the dropdown
    ensures st.session.results == [] && !st.session.showResults && !DropdownVisible(st.session)
    // only the bound property changes
    ensures st.data.Keys == data.Keys + {property}
    ensures forall k :: k in data && k != property ==> st.data[k] == data[k]
    // a single-location property is overwritten and the query shows the choice
    ensures property != CollectionProperty ==>
              st.data[property] == Place(result) && st.session.query == result.name && st.notice.None?
    // the collection gains the result unless its id is present, which raises the notice
    ensures property == CollectionProperty ==>
              && st.session.query == ""
              && st.data[property].Places?
              && (st.notice.Some? <==> exists i :: 0 <= i < |CurrentList(data)| && CurrentList(data)[i].uniqueId == result.uniqueId)
              && (st.notice.Some? ==> st.notice.value == AlreadyPresentNotice && st.data[property].locations == CurrentList(data))
              && (st.notice.None? ==> st.data[property].locations == CurrentList(data) + [result])
  {
    if property == CollectionProperty then
      var u := UpdateArray(CurrentList(data), result);
      Step(Session("", [], false), data[property := Places(u.list)], if u.duplicate then Some(AlreadyPresentNotice) else None)
    else
      Step(Session(result.name, [], false), data[property := Place(result)], None)
  }

  /** `clearSearch()` on a search bar bound to `property`. */
  function ClearSearch(s: Session, data: FormData, property: string): (st: Step)
    ensures st.session == InitialSession && st.notice.None?
    ensures st.data.Keys == data.Keys + {property}
    ensures forall k :: k in data && k != property ==> st.data[k] == data[k]
    ensures property == CollectionProperty ==> st.data[property] == Places([])
    ensures property != CollectionProperty ==> st.data[property] == Place(EmptyLocation)
  {
    var cleared := if property == CollectionProperty then Places([]) else Place(EmptyLocation);
    Step(InitialSession, data[property := cleared], None)
  }

  /** `handleChange`: the typed text becomes the query and the dropdown opens. */
  function Edit(s: Session, text: string): (e: Session)
    ensures e.query == text && e.showResults
    // typing alone neither looks up nor clears the results
    ensures e.results == s.results
    ensures DropdownVisible(e) <==> |s.results| > 0
  {
    Session(text, s.results, true)
  }

  /** What a debounced `fetchResults` does: nothing is looked up for a short
      query, whose results are cleared. */
  datatype Lookup = NoLookup | LookupQuery(query: string)
  datatype FetchStep = FetchStep(session: Session, lookup: Lookup)

  function FetchResults(s: Session): (f: FetchStep)
    ensures |s.query| < MinQueryLength ==> f.lookup.NoLookup? && f.session.results == [] && !DropdownVisible(f.session)
    ensures |s.query| >= MinQueryLength ==> f.lookup == LookupQuery(s.query) && f.session == s
    ensures f.session.query == s.query && f.session.showResults == s.showResults
  {
    if |s.query| < MinQueryLength then FetchStep(s.(results := []), NoLookup)
    else FetchStep(s, LookupQuery(s.query))
  }

  /** Applying the lookup route's answer: a JSON answer replaces the results;
      an error status or an unhandled failure is only logged. The answer is
      not matched against the query it was issued for. */
  function ApplyResponse(s: Session, response: Response): (a: Session)
    ensures response.Json? ==> a.results == response.locations
    ensures !response.Json? ==> a == s
    // the answer never touches the query or the dropdown flag
    ensures a.query == s.query && a.showResults == s.showResults
  {
    if response.Json? then s.(results := response.locations) else s
  }

  lemma {:induction false} CountAppend(list: seq<Location>, location: Location, id: string)
    ensures CountId(list + [location], id) == CountId(list, id) + (if location.uniqueId == id then 1 else 0)
  {
    if list != [] {
      assert (list + [location])[1..] == list[1..] + [location];
      CountAppend(list[1..], location, id);
    }
  }

  lemma {:induction false} CountZeroIffAbsent(list: seq<Location>, id: string)
    ensures CountId(list, id) == 0 <==> !HasId(list, id)
  {
    if list != [] {
      CountZeroIffAbsent(list[1..], id);
    }
  }

  /** After `updateArray` exactly one element carries the location's id when
      at most one did before; in general the count becomes at least one and
      grows by at most one. */
  lemma UpdateArrayCount(list: seq<Location>, location: Location)
    ensures var after := CountId(UpdateArray(list, location).list, location.uniqueId);
            after == (if CountId(list, location.uniqueId) == 0 then 1 else CountId(list, location.uniqueId))
  {
    CountZeroIffAbsent(list, location.uniqueId);
    CountAppend(list, location, location.uniqueId);
  }

  /** `updateArray` keeps a list free of repeated ids. */
  lemma UpdateArrayKeepsIdsUnique(list: seq<Location>, location: Location)
    requires UniqueIds(list)
    ensures UniqueIds(UpdateArray(list, location).list)
  {
  }

  /** Deduplicating by `uniqueId` is deduplicating by position, provided every
      location carries the id of its coordinates and the number rendering
      tells apart the coordinates that occur here: then `updateArray` rejects
      exactly a location at coordinates already in the list. */
  lemma DuplicateIffSameCoordinates(host: Host, list: seq<Location>, location: Location)
    requires forall i :: 0 <= i < |list| ==> IdOfCoordinates(host, list[i])
    requires IdOfCoordinates(host, location)
    requires forall i :: 0 <= i < |list| ==>
               LocationId(host, list[i].lat, list[i].lng) == LocationId(host, location.lat, location.lng) ==>
                 list[i].lat == location.lat && list[i].lng == location.lng
    ensures UpdateArray(list, location).duplicate <==>
              exists i :: 0 <= i < |list| && list[i].lat == location.lat && list[i].lng == location.lng
  {
  }

  /** Selecting the same result twice into the collection leaves exactly one
      element with its id, and the second selection only raises the notice. */
  lemma SelectTwiceKeepsOne(s: Session, data: FormData, result: Location)
    requires CollectionIsList(data)
    requires CountId(CurrentList(data), result.uniqueId) <= 1
    ensures var first := ResultClick(s, data, CollectionProperty, result);
            var second := ResultClick(first.session, first.data, CollectionProperty, result);
            && second.data == first.data
            && second.notice == Some(AlreadyPresentNotice)
            && CountId(second.data[CollectionProperty].locations, result.uniqueId) == 1
  {
    var first := ResultClick(s, data, CollectionProperty, result);
    UpdateArrayCount(CurrentList(data), result);
    assert first.data[CollectionProperty].locations == UpdateArray(CurrentList(data), result).list;
    assert CurrentList(first.data) == first.data[CollectionProperty].locations;
    CountZeroIffAbsent(CurrentList(first.data), result.uniqueId);
  }

  /** The form invariant the search bar maintains: the collection is a list
      with no repeated ids. */
  ghost predicate FormInvariant(data: FormData) {
    CollectionIsList(data) && UniqueIds(CurrentList(data))
  }

  /** A list free of repeated ids holds at most one element with any id, so
      `SelectTwiceKeepsOne` applies to every form that keeps the invariant. */
  lemma {:induction false} UniqueIdsCountAtMostOne(list: seq<Location>, id: string)
    requires UniqueIds(list)
    ensures CountId(list, id) <= 1
  {
    if list != [] {
      assert UniqueIds(list[1..]) by {
        forall i, j | 0 <= i < j < |list[1..]|
          ensures list[1..][i].uniqueId != list[1..][j].uniqueId
        {
          assert list[1..][i] == list[i + 1] && list[1..][j] == list[j + 1];
        }
      }
      UniqueIdsCountAtMostOne(list[1..], id);
      if list[0].uniqueId == id {
        assert !HasId(list[1..], id) by {
          forall k | 0 <= k < |list[1..]|
            ensures list[1..][k].uniqueId != id
          {
            assert list[1..][k] == list[k + 1];
          }
        }
        CountZeroIffAbsent(list[1..], id);
      }
    }
  }

  /** Every selection and every clear, on a search bar bound to any property,
      preserves the form invariant. */
  lemma ActionsPreserveFormInvariant(s: Session, data: FormData, property: string, result: Location)
    requires FormInvariant(data)
    ensures FormInvariant(ResultClick(s, data, property, result).data)
    ensures FormInvariant(ClearSearch(s, data, property).data)
  {
    if property == CollectionProperty {
      UpdateArrayKeepsIdsUnique(CurrentList(data), result);
    } else {
      assert CurrentList(ResultClick(s, data, property, result).data) == CurrentList(data);
      assert CurrentList(ClearSearch(s, data, property).data) == CurrentList(data);
    }
  }

  /** Clearing twice is clearing once. */
  lemma ClearIdempotent(s: Session, data: FormData, property: string)
    ensures var once := ClearSearch(s, data, property);
            ClearSearch(once.session, once.data, property) == once
  {
  }

  /** After a clear, selecting into the collection yields exactly that result. */
  lemma SelectAfterClear(s: Session, data: FormData, result: Location)
    ensures var cleared := ClearSearch(s, data, CollectionProperty);
            var st := ResultClick(cleared.session, cleared.data, CollectionProperty, result);
            st.data[CollectionProperty] == Places([result]) && st.notice.None?
  {
  }

  /** A query shorter than three characters hides the dropdown without a
      lookup, whatever the results were. */
  lemma ShortQueryHidesResults(s: Session, text: string)
    requires |text| < MinQueryLength
    ensures var f := FetchResults(Edit(s, text));
            f.lookup == NoLookup && f.session.results == [] && !DropdownVisible(f.session)
  {
  }

  /** Answers are not sequenced: an answer to an earlier long query that
      arrives after the query was shortened below three characters reopens
      the dropdown with results for a query that is no longer typed. */
  lemma LateAnswerShowsStaleResults(s: Session, long: string, short: string, stale: seq<Location>)
    requires |long| >= MinQueryLength && |short| < MinQueryLength && |stale| > 0
    ensures var issued := FetchResults(Edit(s, long));
            var shortened := FetchResults(Edit(issued.session, short));
            var late := ApplyResponse(shortened.session, Json(stale));
            && issued.lookup == LookupQuery(long)
            && shortened.lookup == NoLookup
            && late.query == short
            && late.results == stale
            && DropdownVisible(late)
  {
  }

  /** A failed lookup does not empty the list: after a successful lookup, a
      further edit whose lookup fails (with an error status or an unhandled
      failure) still shows the earlier results. */
  lemma FailedAnswerKeepsEarlierResults(s: Session, first: string, second: string, found: seq<Location>, failure: Response)
    requires |first| >= MinQueryLength && |second| >= MinQueryLength && |found| > 0 && !failure.Json?
    ensures var shown := ApplyResponse(FetchResults(Edit(s, first)).session, Json(found));
            var retried := FetchResults(Edit(shown, second));
            var after := ApplyResponse(retried.session, failure);
            && retried.lookup == LookupQuery(second)
            && after.query == second
            && after.results == found
            && DropdownVisible(after)
  {
  }
}
