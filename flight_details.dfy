/**
 * The flight details page: whether the viewer has already booked the flight, the
 * `customerId` the page books for, the booking payload, the Book button, and the
 * dialog and result flags its handlers set.
 */
module FlightDetails {
  import opened Wrappers
  import opened Types
  import opened BookingsApi
  import FlightCard

  /** The signed-in user, as far as this page reads it: the type and, for customers, the id. */
  datatype Viewer = Viewer(userType: string, customerIdField: Option<string>)

  /** `customerId`: the viewer's customer id when the viewer is a Customer, else undefined. */
  function CustomerIdOf(currentUser: Option<Viewer>): (r: Option<string>)
    ensures r.Some? ==> currentUser.Some? && currentUser.value.userType == "Customer"
    ensures currentUser.Some? && currentUser.value.userType == "Customer" ==> r == currentUser.value.customerIdField
  {
    if currentUser.Some? && currentUser.value.userType == "Customer" then currentUser.value.customerIdField
    else None
  }

  /** A JavaScript truthiness test on an optional string: present and non-empty. */
  predicate Truthy(s: Option<string>) {
    s.Some? && s.value != ""
  }

  /** The bookings the page fetches: the customer's bookings when there is a customer id and the
      viewer is authenticated, otherwise the empty default. */
  function UserBookings(table: seq<Booking>, customerId: Option<string>, isAuthenticated: bool): (r: seq<Booking>)
    ensures !(Truthy(customerId) && isAuthenticated) ==> r == []
    ensures Truthy(customerId) && isAuthenticated ==>
      forall i :: 0 <= i < |r| ==> r[i].customerId == customerId.value
    ensures Truthy(customerId) && isAuthenticated ==>
      forall i :: 0 <= i < |table| && table[i].customerId == customerId.value ==> table[i] in r
    ensures Truthy(customerId) && isAuthenticated ==> r == CustomerBookings(table, customerId.value)
  {
    if Truthy(customerId) && isAuthenticated then CustomerBookings(table, customerId.value) else []
  }

  /** `isAlreadyBooked`: some booking is for this flight and is not cancelled. Without a flight
      no booking matches. */
  function IsAlreadyBooked(userBookings: seq<Booking>, flight: Option<Flight>): (r: bool)
    ensures r <==> flight.Some? && exists i :: 0 <= i < |userBookings| && BooksFlight(userBookings[i], flight.value)
  {
    exists i :: 0 <= i < |userBookings| && flight.Some? && BooksFlight(userBookings[i], flight.value)
  }

  /** A booking that holds a place on the flight. */
  predicate BooksFlight(b: Booking, f: Flight) {
    b.flightId == f.flightId && b.status != Cancelled
  }

  /** Cancelling a booking can never make the flight count as booked. */
  lemma {:induction false} CancelNeverBooks(table: seq<Booking>, bookingId: string, flight: Option<Flight>)
    requires !IsAlreadyBooked(table, flight)
    ensures !IsAlreadyBooked(CancelledTable(table, bookingId), flight)
  {
  }

  /** `confirmBookingAction`'s payload, sent only with a customer id and a flight id. */
  function ConfirmBookingAction(customerId: Option<string>, flightId: string): (r: Option<BookingInput>)
    ensures r.None? <==> !Truthy(customerId) || flightId == ""
    ensures r.Some? ==> r.value == BookingInput(customerId.value, flightId, Pending, None)
  {
    if !Truthy(customerId) || flightId == "" then None
    else Some(BookingInput(customerId.value, flightId, Pending, None))
  }

  /** The Book button: disabled while a request is pending or once booked, with its label. */
  function BookButton(isAlreadyBooked: bool, isPending: bool): (r: (bool, string))
    ensures r.0 <==> isAlreadyBooked || isPending
    ensures r.1 == (if isPending then "Processing..." else if isAlreadyBooked then "Already Booked" else "Book Now")
  {
    (isAlreadyBooked || isPending,
     if isPending then "Processing..." else if isAlreadyBooked then "Already Booked" else "Book Now")
  }

  /** The duration text, the same expression as on the flight card. */
  function FormattedDuration(f: Flight): (r: string)
    ensures f.departureTime <= f.arrivalTime ==>
      var ms := f.arrivalTime - f.departureTime;
      r == Strings.NatToString(FlightCard.DurationHours(ms)) + "h " +
           Strings.NatToString(FlightCard.DurationMinutes(ms)) + "m"
  {
    FlightCard.FormatDuration(f.arrivalTime - f.departureTime)
  }

  /** The page's dialog and result flags. */
  class FlightDetailsState {
    var isBookingDialogOpen: bool
    var isBookingConfirmed: bool
    var bookingError: Option<string>

    constructor ()
      ensures !isBookingDialogOpen && !isBookingConfirmed && bookingError.None?
    {
      isBookingDialogOpen := false;
      isBookingConfirmed := false;
      bookingError := None;
    }

    /** `handleBookFlight`: without authentication or a customer id, a redirect to the login page
        that remembers this flight, with the dialog left as it was; otherwise the dialog opens. */
    method HandleBookFlight(isAuthenticated: bool, customerId: Option<string>, flightId: string)
      returns (navigateToLogin: Option<string>)
      modifies this
      ensures !isAuthenticated || !Truthy(customerId) ==>
        navigateToLogin == Some("/flights/" + flightId) && isBookingDialogOpen == old(isBookingDialogOpen)
      ensures isAuthenticated && Truthy(customerId) ==> navigateToLogin.None? && isBookingDialogOpen
      ensures isBookingConfirmed == old(isBookingConfirmed) && bookingError == old(bookingError)
    {
      if !isAuthenticated || !Truthy(customerId) {
        return Some("/flights/" + flightId);
      }
      isBookingDialogOpen := true;
      navigateToLogin := None;
    }

    /** The mutation's success handler. */
    method OnBookingSuccess()
      modifies this
      ensures isBookingConfirmed && bookingError.None? && isBookingDialogOpen == old(isBookingDialogOpen)
    {
      isBookingConfirmed := true;
      bookingError := None;
    }

    /** The mutation's error handler. */
    method OnBookingError(message: string)
      modifies this
      ensures bookingError == Some("Booking failed: " + message + ". Please try again.")
      ensures isBookingConfirmed == old(isBookingConfirmed) && isBookingDialogOpen == old(isBookingDialogOpen)
    {
      bookingError := Some("Booking failed: " + message + ". Please try again.");
    }

    /** The effect on `isBookingDialogOpen`: it schedules the reset timer exactly when the
        dialog is closed, and changes nothing itself. */
    method DialogEffect() returns (schedulesReset: bool)
      ensures schedulesReset <==> !isBookingDialogOpen
    {
      schedulesReset := !isBookingDialogOpen;
    }

    /** The reset timer's callback: the result flags are cleared whatever the dialog state is
        when it runs, since the dialog may have been reopened in the meantime. */
    method ResetAfterClose()
      modifies this
      ensures isBookingDialogOpen == old(isBookingDialogOpen)
      ensures !isBookingConfirmed && bookingError.None?
    {
      isBookingConfirmed := false;
      bookingError := None;
    }

    /** `goToBookings`: closes the dialog and goes to the bookings page. */
    method GoToBookings() returns (path: string)
      modifies this
      ensures !isBookingDialogOpen && path == "/bookings"
      ensures isBookingConfirmed == old(isBookingConfirmed) && bookingError == old(bookingError)
    {
      isBookingDialogOpen := false;
      path := "/bookings";
    }
  }
}
