/**
 * The flights page: the free-text search effect, the search-form filter and the
 * sort effect over the fetched flights. Each effect and handler is one method of
 * the page state; the filters and comparators are the functions they use.
 */
module FlightsPage {
  import opened Wrappers
  import opened Strings
  import opened Types
  import Seqs
  import FlightSearchForm

  /** `field.toLowerCase().includes(lowerTerm)`. */
  predicate FieldMatches(field: string, lowerTerm: string) {
    Contains(ToLower(field), lowerTerm)
  }

  /** The free-text match: flight id, either location's name or IATA code, or the aircraft model.
      Expanded data that is absent contributes nothing. */
  predicate FlightMatches(f: Flight, lowerTerm: string) {
    || FieldMatches(f.flightId, lowerTerm)
    || (f.departureData.Some? &&
        (FieldMatches(f.departureData.value.name, lowerTerm) || FieldMatches(f.departureData.value.iataCode, lowerTerm)))
    || (f.arrivalData.Some? &&
        (FieldMatches(f.arrivalData.value.name, lowerTerm) || FieldMatches(f.arrivalData.value.iataCode, lowerTerm)))
    || (f.aircraft.Some? && FieldMatches(f.aircraft.value.model, lowerTerm))
  }

  /** A flight without expanded data can only match on its id. */
  lemma {:induction false} BareFlightMatchesOnId(f: Flight, lowerTerm: string)
    requires f.departureData.None? && f.arrivalData.None? && f.aircraft.None?
    ensures FlightMatches(f, lowerTerm) <==> Contains(ToLower(f.flightId), lowerTerm)
  {
  }

  /** The text-search effect's result: every flight for a blank term; otherwise the flights that
      match the lower-cased, untrimmed term, in their original order. */
  function TextSearch(all: seq<Flight>, term: string): (r: seq<Flight>)
    ensures IsBlank(term) ==> r == all
    ensures Seqs.IsSubseq(r, all)
    ensures !IsBlank(term) ==> forall i :: 0 <= i < |r| ==> FlightMatches(r[i], ToLower(term))
    ensures !IsBlank(term) ==> forall i :: 0 <= i < |all| && FlightMatches(all[i], ToLower(term)) ==> all[i] in r
    ensures !IsBlank(term) ==> |r| == Seqs.Count(all, f => FlightMatches(f, ToLower(term)))
  {
    if IsBlank(term) then
      Seqs.SubseqRefl(all);
      all
    else
      var lowerTerm := ToLower(term);
      Seqs.Filter(all, f => FlightMatches(f, lowerTerm))
  }

  /** The search form's condition for one flight: each of `from`, `to` and the departure date
      either is unset or agrees with the flight. `dayOf` gives a timestamp's local
      (year, month, day). */
  predicate FormMatches(f: Flight, p: FlightSearchForm.SearchParams, dayOf: int -> (int, int, int)) {
    && (p.from == "" || f.departureLocation == p.from)
    && (p.to == "" || f.arrivalLocation == p.to)
    && (p.departureDate.None? || dayOf(f.departureTime) == dayOf(p.departureDate.value))
  }

  /** The form leaves every search field unset. */
  predicate NoCriteria(p: FlightSearchForm.SearchParams) {
    p.from == "" && p.to == "" && p.departureDate.None?
  }

  /** The flight list `handleSearch` produces. */
  function FormSearch(all: seq<Flight>, p: FlightSearchForm.SearchParams, dayOf: int -> (int, int, int)): (r: seq<Flight>)
    ensures NoCriteria(p) ==> r == all
    ensures Seqs.IsSubseq(r, all)
    ensures forall i :: 0 <= i < |r| ==> FormMatches(r[i], p, dayOf)
    ensures forall i :: 0 <= i < |all| && FormMatches(all[i], p, dayOf) ==> all[i] in r
  {
    if NoCriteria(p) then
      Seqs.SubseqRefl(all);
      all
    else
      Seqs.Filter(all, f => FormMatches(f, p, dayOf))
  }

  /** The early reset for an empty form returns what the filter would have: `handleSearch` is
      the form's filter in every case. */
  lemma {:induction false} FormSearchIsFilter(all: seq<Flight>, p: FlightSearchForm.SearchParams, dayOf: int -> (int, int, int))
    ensures FormSearch(all, p, dayOf) == Seqs.Filter(all, f => FormMatches(f, p, dayOf))
  {
    if NoCriteria(p) {
      FilterAllFormMatches(all, p, dayOf);
      Seqs.FilterAllPass(all, f => FormMatches(f, p, dayOf));
    }
  }

  /** With no criteria set, every flight satisfies the form's condition, so the early reset
      returns what the filter would. */
  lemma {:induction false} FilterAllFormMatches(all: seq<Flight>, p: FlightSearchForm.SearchParams, dayOf: int -> (int, int, int))
    requires NoCriteria(p)
    ensures forall i :: 0 <= i < |all| ==> FormMatches(all[i], p, dayOf)
  {
  }

  /** The sort comparators' keys. */
  function DepartureKey(f: Flight): int { f.departureTime }
  function ArrivalKey(f: Flight): int { f.arrivalTime }
  function DurationKey(f: Flight): int { f.arrivalTime - f.departureTime }

  /** The sort keys the page knows. */
  predicate KnownSortKey(sortBy: string) {
    sortBy == "departureTime" || sortBy == "arrivalTime" || sortBy == "duration"
  }

  /** The sort effect's result on a copy of the list: a permutation in non-decreasing order of
      the chosen key; an unknown key keeps the order. */
  function SortFlights(s: seq<Flight>, sortBy: string): (r: seq<Flight>)
    ensures multiset(r) == multiset(s) && |r| == |s|
    ensures sortBy == "departureTime" ==> Seqs.SortedBy(r, DepartureKey)
    ensures sortBy == "arrivalTime" ==> Seqs.SortedBy(r, ArrivalKey)
    ensures sortBy == "duration" ==> Seqs.SortedBy(r, DurationKey)
    ensures !KnownSortKey(sortBy) ==> r == s
  {
    if sortBy == "departureTime" then Seqs.SortBy(s, DepartureKey)
    else if sortBy == "arrivalTime" then Seqs.SortBy(s, ArrivalKey)
    else if sortBy == "duration" then Seqs.SortBy(s, DurationKey)
    else s
  }

  /** Sorting a sorted list changes nothing, so the effect's update guard stops after one round. */
  lemma {:induction false} SortFlightsIdempotent(s: seq<Flight>, sortBy: string)
    ensures SortFlights(SortFlights(s, sortBy), sortBy) == SortFlights(s, sortBy)
  {
    if sortBy == "departureTime" {
      Seqs.SortByIdempotent(s, DepartureKey);
    } else if sortBy == "arrivalTime" {
      Seqs.SortByIdempotent(s, ArrivalKey);
    } else if sortBy == "duration" {
      Seqs.SortByIdempotent(s, DurationKey);
    }
  }

  /** The state of the flights page. */
  class FlightsPageState {
    var allFlights: seq<Flight>
    var filteredFlights: seq<Flight>
    var searchTerm: string
    var sortBy: string

    constructor ()
      ensures allFlights == [] && filteredFlights == [] && searchTerm == "" && sortBy == "departureTime"
    {
      allFlights := [];
      filteredFlights := [];
      searchTerm := "";
      sortBy := "departureTime";
    }

    /** The fetched flights arrive; the first effect shows all of them. */
    method ReceiveFlights(flights: seq<Flight>)
      modifies this
      ensures allFlights == flights && filteredFlights == flights
      ensures searchTerm == old(searchTerm) && sortBy == old(sortBy)
    {
      allFlights := flights;
      filteredFlights := flights;
    }

    method SetSearchTerm(term: string)
      modifies this
      ensures searchTerm == term
      ensures allFlights == old(allFlights) && filteredFlights == old(filteredFlights) && sortBy == old(sortBy)
    {
      searchTerm := term;
    }

    method SetSortBy(key: string)
      modifies this
      ensures sortBy == key
      ensures allFlights == old(allFlights) && filteredFlights == old(filteredFlights) && searchTerm == old(searchTerm)
    {
      sortBy := key;
    }

    /** The text-search effect. */
    method TextSearchEffect()
      modifies this
      ensures filteredFlights == TextSearch(allFlights, searchTerm)
      ensures allFlights == old(allFlights) && searchTerm == old(searchTerm) && sortBy == old(sortBy)
    {
      if IsBlank(searchTerm) {
        filteredFlights := allFlights;
        return;
      }
      var lowerCaseTerm := ToLower(searchTerm);
      var filtered := Seqs.Filter(allFlights, f => FlightMatches(f, lowerCaseTerm));
      filteredFlights := filtered;
    }

    /** The sort effect: sorts a copy and stores it only when it differs from the current list. */
    method SortEffect() returns (updated: bool)
      modifies this
      ensures updated <==> SortFlights(old(filteredFlights), sortBy) != old(filteredFlights)
      ensures filteredFlights == SortFlights(old(filteredFlights), sortBy)
      ensures allFlights == old(allFlights) && searchTerm == old(searchTerm) && sortBy == old(sortBy)
    {
      var sorted := SortFlights(filteredFlights, sortBy);
      updated := sorted != filteredFlights;
      if updated {
        filteredFlights := sorted;
      }
    }

    /** `handleSearch`: the form's filter over all flights, and the text term cleared. */
    method HandleSearch(params: FlightSearchForm.SearchParams, dayOf: int -> (int, int, int))
      modifies this
      ensures filteredFlights == FormSearch(allFlights, params, dayOf)
      ensures searchTerm == ""
      ensures allFlights == old(allFlights) && sortBy == old(sortBy)
    {
      if NoCriteria(params) {
        filteredFlights := allFlights;
        searchTerm := "";
        return;
      }
      var filtered := Seqs.Filter(allFlights, f => FormMatches(f, params, dayOf));
      filteredFlights := filtered;
      searchTerm := "";
    }
  }

  /** `handleSearch` clears the text term. When the term was not empty the text-search effect
      runs next and resets the shown list to all flights, so the form's result is discarded. */
  method SearchThenTextEffect(page: FlightsPageState, params: FlightSearchForm.SearchParams,
                              dayOf: int -> (int, int, int)) returns (effectRan: bool)
    modifies page
    ensures effectRan <==> old(page.searchTerm) != ""
    ensures effectRan ==> page.filteredFlights == page.allFlights
    ensures !effectRan ==> page.filteredFlights == FormSearch(page.allFlights, params, dayOf)
    ensures page.searchTerm == "" && page.allFlights == old(page.allFlights)
  {
    effectRan := page.searchTerm != "";
    page.HandleSearch(params, dayOf);
    if effectRan {
      page.TextSearchEffect();
    }
  }

  /** Running the sort effect a second time finds nothing to update. */
  method SortEffectSettles(page: FlightsPageState) returns (first: bool, second: bool)
    modifies page
    ensures !second
    ensures page.filteredFlights == SortFlights(old(page.filteredFlights), old(page.sortBy))
  {
    first := page.SortEffect();
    SortFlightsIdempotent(old(page.filteredFlights), page.sortBy);
    second := page.SortEffect();
  }
}
