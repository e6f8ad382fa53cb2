/**
 * The flight search form: its parameter record, field-by-field edits, submission,
 * and the calendar's date-disable rules. Dates are millisecond timestamps; "today
 * at midnight" is supplied by the caller.
 */
module FlightSearchForm {
  import opened Wrappers

  /** `SearchParams`; an absent date is `None`. */
  datatype SearchParams = SearchParams(
    from: string,
    to: string,
    departureDate: Option<int>,
    returnDate: Option<int>,
    passengers: int,
    tripType: string)

  /** The parameters the form starts with. */
  function InitialParams(): (p: SearchParams)
    ensures p.from == "" && p.to == ""
    ensures p.departureDate.None? && p.returnDate.None?
    ensures p.passengers == 1 && p.tripType == "oneWay"
  {
    SearchParams("", "", None, None, 1, "oneWay")
  }

  /** One call of `handleChange`: the field it names and the new value. */
  datatype Change =
    | SetFrom(from: string)
    | SetTo(to: string)
    | SetDepartureDate(departureDate: Option<int>)
    | SetReturnDate(returnDate: Option<int>)
    | SetPassengers(passengers: int)
    | SetTripType(tripType: string)

  /** `isDateDisabled`: strictly before today's midnight. */
  predicate IsDateDisabled(date: int, todayMidnight: int) {
    date < todayMidnight
  }

  /** The return-date picker's rule: disabled by `isDateDisabled`, or before a chosen departure date. */
  function ReturnDateDisabled(date: int, todayMidnight: int, departureDate: Option<int>): (r: bool)
    ensures r <==> IsDateDisabled(date, todayMidnight) || (departureDate.Some? && date < departureDate.value)
  {
    IsDateDisabled(date, todayMidnight) || (if departureDate.Some? then date < departureDate.value else false)
  }

  /** Whatever was picked for departure, a return date the picker allows is neither in the past nor first. */
  lemma {:induction false} AllowedReturnDate(date: int, todayMidnight: int, departureDate: Option<int>)
    requires !ReturnDateDisabled(date, todayMidnight, departureDate)
    ensures todayMidnight <= date
    ensures departureDate.Some? ==> departureDate.value <= date
  {
  }

  /** The return-date picker is rendered only for a round trip. */
  function ShowReturnDate(p: SearchParams): (r: bool)
    ensures r <==> p.tripType == "roundTrip"
  {
    p.tripType == "roundTrip"
  }

  /** The passenger counts the select offers. */
  function PassengerOptions(): (r: seq<int>)
    ensures |r| == 6
    ensures forall i :: 0 <= i < |r| ==> r[i] == i + 1
  {
    [1, 2, 3, 4, 5, 6]
  }

  /** The state of one `FlightSearchForm`. */
  class SearchFormState {
    var searchParams: SearchParams

    constructor ()
      ensures searchParams == InitialParams()
    {
      searchParams := InitialParams();
    }

    /** `handleChange`: replaces the named field; every other field keeps its value. */
    method HandleChange(c: Change)
      modifies this
      ensures c.SetFrom? ==> searchParams == old(searchParams).(from := c.from)
      ensures c.SetTo? ==> searchParams == old(searchParams).(to := c.to)
      ensures c.SetDepartureDate? ==> searchParams == old(searchParams).(departureDate := c.departureDate)
      ensures c.SetReturnDate? ==> searchParams == old(searchParams).(returnDate := c.returnDate)
      ensures c.SetPassengers? ==> searchParams == old(searchParams).(passengers := c.passengers)
      ensures c.SetTripType? ==> searchParams == old(searchParams).(tripType := c.tripType)
    {
      match c {
        case SetFrom(v) => searchParams := searchParams.(from := v);
        case SetTo(v) => searchParams := searchParams.(to := v);
        case SetDepartureDate(v) => searchParams := searchParams.(departureDate := v);
        case SetReturnDate(v) => searchParams := searchParams.(returnDate := v);
        case SetPassengers(v) => searchParams := searchParams.(passengers := v);
        case SetTripType(v) => searchParams := searchParams.(tripType := v);
      }
    }

    /** `handleSubmit`: hands the current parameters to `onSearch` as they are. */
    method HandleSubmit() returns (submitted: SearchParams)
      ensures submitted == searchParams
    {
      submitted := searchParams;
    }
  }
}
