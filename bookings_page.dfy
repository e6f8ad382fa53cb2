/**
 * The bookings page: which bookings the signed-in user sees, and the status and
 * free-text filters over them. The page works on the mock booking list, whose
 * records carry an id, a customer id, a status and optional expanded flight and
 * customer data.
 */
module BookingsPage {
  import opened Wrappers
  import opened Strings
  import Seqs
  import opened AuthContext

  datatype FlightRef = FlightRef(id: string)
  datatype CustomerName = CustomerName(firstName: string, lastName: string)

  /** A booking of the mock list, as far as this page reads it. */
  datatype PageBooking = PageBooking(
    id: string,
    customerId: string,
    status: string,
    flight: Option<FlightRef>,
    customer: Option<CustomerName>)

  /** The bookings a user sees: a Customer only their own, anyone else all of them. */
  function VisibleBookings(user: SessionUser, all: seq<PageBooking>): (r: seq<PageBooking>)
    ensures user.userType != "Customer" ==> r == all
    ensures Seqs.IsSubseq(r, all)
    ensures user.userType == "Customer" ==> forall i :: 0 <= i < |r| ==> r[i].customerId == user.id
    ensures user.userType == "Customer" ==>
      forall i :: 0 <= i < |all| && all[i].customerId == user.id ==> all[i] in r
    ensures user.userType == "Customer" ==> |r| == Seqs.Count(all, (b: PageBooking) => b.customerId == user.id)
  {
    if user.userType == "Customer" then Seqs.Filter(all, (b: PageBooking) => b.customerId == user.id)
    else
      Seqs.SubseqRefl(all);
      all
  }

  /** The status filter: `'all'` keeps everything, any other value only that status. */
  predicate StatusPasses(b: PageBooking, statusFilter: string) {
    statusFilter == "all" || b.status == statusFilter
  }

  /** The free-text match on the booking id, the flight id, or the customer's first or last name. */
  predicate BookingMatches(b: PageBooking, lowerTerm: string) {
    || Contains(ToLower(b.id), lowerTerm)
    || (b.flight.Some? && Contains(ToLower(b.flight.value.id), lowerTerm))
    || (b.customer.Some? && Contains(ToLower(b.customer.value.firstName), lowerTerm))
    || (b.customer.Some? && Contains(ToLower(b.customer.value.lastName), lowerTerm))
  }

  /** The text filter: a blank term keeps everything, otherwise the lower-cased, untrimmed term must match. */
  predicate TextPasses(b: PageBooking, term: string) {
    IsBlank(term) || BookingMatches(b, ToLower(term))
  }

  /** Both filters at once. */
  predicate Shown(b: PageBooking, statusFilter: string, term: string) {
    StatusPasses(b, statusFilter) && TextPasses(b, term)
  }

  /** The list the page shows: the user's bookings that pass both filters, in order. */
  function FilteredBookings(userBookings: seq<PageBooking>, statusFilter: string, term: string)
    : (r: seq<PageBooking>)
    ensures Seqs.IsSubseq(r, userBookings)
    ensures forall i :: 0 <= i < |r| ==> Shown(r[i], statusFilter, term)
    ensures forall i :: 0 <= i < |userBookings| && Shown(userBookings[i], statusFilter, term) ==>
      userBookings[i] in r
    ensures |r| == Seqs.Count(userBookings, b => Shown(b, statusFilter, term))
  {
    Seqs.Filter(userBookings, b => Shown(b, statusFilter, term))
  }

  /** With no user signed in, or not authenticated, the page renders nothing. */
  predicate RendersNothing(isAuthenticated: bool, currentUser: Option<SessionUser>) {
    !isAuthenticated || currentUser.None?
  }

  /** The redirect effect: an unauthenticated visitor is sent to the login page. */
  function RedirectEffect(isAuthenticated: bool): (target: Option<string>)
    ensures target.Some? <==> !isAuthenticated
    ensures target.Some? ==> target.value == "/login"
  {
    if !isAuthenticated then Some("/login") else None
  }

  /** What the page renders: nothing, or the filtered list. */
  function Rendered(isAuthenticated: bool, currentUser: Option<SessionUser>, filteredBookings: seq<PageBooking>)
    : (r: Option<seq<PageBooking>>)
    ensures r.None? <==> RendersNothing(isAuthenticated, currentUser)
    ensures r.Some? ==> r.value == filteredBookings && currentUser.Some?
  {
    if !isAuthenticated || currentUser.None? then None else Some(filteredBookings)
  }

  /** Over the session `AuthProvider` keeps, the page renders nothing exactly when it
      redirects to the login page. */
  lemma {:induction false} BlankExactlyWhenRedirected(p: AuthProvider, filteredBookings: seq<PageBooking>)
    ensures Rendered(p.IsAuthenticated(), p.currentUser, filteredBookings).None? <==>
      RedirectEffect(p.IsAuthenticated()).Some?
  {
  }

  /** The state of the bookings page over the mock list `bookings`. */
  class BookingsPageState {
    const bookings: seq<PageBooking>
    var userBookings: seq<PageBooking>
    var filteredBookings: seq<PageBooking>
    var searchTerm: string
    var statusFilter: string

    constructor (all: seq<PageBooking>)
      ensures bookings == all && userBookings == [] && filteredBookings == []
      ensures searchTerm == "" && statusFilter == "all"
    {
      bookings := all;
      userBookings := [];
      filteredBookings := [];
      searchTerm := "";
      statusFilter := "all";
    }

    /** The effect on `currentUser`: nothing without a user, otherwise the user's visible bookings. */
    method UserEffect(currentUser: Option<SessionUser>)
      modifies this
      ensures currentUser.None? ==> userBookings == old(userBookings) && filteredBookings == old(filteredBookings)
      ensures currentUser.Some? ==>
        userBookings == VisibleBookings(currentUser.value, bookings) && filteredBookings == userBookings
      ensures searchTerm == old(searchTerm) && statusFilter == old(statusFilter)
    {
      if currentUser.None? {
        return;
      }
      var user := currentUser.value;
      var userSpecificBookings: seq<PageBooking>;
      if user.userType == "Customer" {
        userSpecificBookings := Seqs.Filter(bookings, (b: PageBooking) => b.customerId == user.id);
      } else {
        userSpecificBookings := bookings;
      }
      userBookings := userSpecificBookings;
      filteredBookings := userSpecificBookings;
    }

    method SetSearchTerm(term: string)
      modifies this
      ensures searchTerm == term
      ensures userBookings == old(userBookings) && filteredBookings == old(filteredBookings)
      ensures statusFilter == old(statusFilter)
    {
      searchTerm := term;
    }

    method SetStatusFilter(value: string)
      modifies this
      ensures statusFilter == value
      ensures userBookings == old(userBookings) && filteredBookings == old(filteredBookings)
      ensures searchTerm == old(searchTerm)
    {
      statusFilter := value;
    }

    /** The filter effect: the status filter, then the text filter, each skipped when inactive. */
    method FilterEffect()
      modifies this
      ensures filteredBookings == FilteredBookings(userBookings, statusFilter, searchTerm)
      ensures userBookings == old(userBookings) && searchTerm == old(searchTerm) && statusFilter == old(statusFilter)
    {
      var s := userBookings;
      var sf := statusFilter;
      var term := searchTerm;
      var byStatus := b => StatusPasses(b, sf);
      var byText := b => TextPasses(b, term);
      var filtered := s;
      if sf != "all" {
        filtered := Seqs.Filter(filtered, (b: PageBooking) => b.status == sf);
        Seqs.FilterCongruent(s, (b: PageBooking) => b.status == sf, byStatus);
      } else {
        Seqs.FilterAllPass(s, byStatus);
      }
      assert filtered == Seqs.Filter(s, byStatus);
      if !IsBlank(term) {
        var lowerCaseTerm := ToLower(term);
        var matches := (b: PageBooking) => BookingMatches(b, lowerCaseTerm);
        filtered := Seqs.Filter(filtered, matches);
        Seqs.FilterCongruent(Seqs.Filter(s, byStatus), matches, byText);
      } else {
        Seqs.FilterAllPass(filtered, byText);
      }
      assert filtered == Seqs.Filter(Seqs.Filter(s, byStatus), byText);
      Seqs.FilterFilter(s, byStatus, byText, b => Shown(b, sf, term));
      filteredBookings := filtered;
    }
  }
}
