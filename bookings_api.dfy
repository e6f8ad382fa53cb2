/**
 * The booking table behind the placeholder API. The table is appended to by
 * `createBooking`, has one record's status overwritten by `cancelBooking`, and is
 * read by `getBookingsByCustomerId`. There is no seat accounting, no status check
 * and no uniqueness check on identifiers.
 */
module BookingsApi {
  import opened Wrappers
  import opened Types
  import Strings
  import Seqs
  import FlightsApi

  /** `placeholderCustomers` of the booking module. */
  const PlaceholderCustomers: seq<Customer> := [
    Customer(User("U001", "John", "Doe", "john.doe@example.com", "Customer"),
      CustomerDetails("U001", "U001", Some("+250788123456"), Some("P12345678"), 150)),
    Customer(User("U002", "Jane", "Smith", "jane.smith@example.com", "Customer"),
      CustomerDetails("U002", "U002", Some("+250788234567"), Some("P23456789"), 75))
  ]

  /** `placeholderEmployees` of the booking module. */
  const PlaceholderEmployees: seq<Employee> := [
    Employee(User("U006", "Sarah", "Jones", "sarah.j@example.com", "Employee"),
      EmployeeDetails("EMP001", "U006", Some("Booking Agent"), Some("Sales"), Some("2022-01-15")))
  ]

  /** The seed rows of `placeholderBookings`. */
  const SeedBookings: seq<Booking> := [
    Booking("B001", "U001", "WB101", "2025-05-20 10:30:00", Confirmed, Some("EMP001")),
    Booking("B002", "U002", "WB101", "2025-05-21 11:45:00", Confirmed, Some("EMP001")),
    Booking("B006", "U001", "WB104", "2025-05-25 13:10:00", Pending, None)
  ]

  /** What `createBooking` receives: a booking without identifier, date and expansions. */
  datatype BookingInput = BookingInput(
    customerId: string,
    flightId: string,
    status: BookingStatus,
    agentId: Option<string>)

  /** A booking with its expanded `Customer`, `Agent` and `Flight` properties. */
  datatype PopulatedBooking = PopulatedBooking(
    booking: Booking,
    customer: Option<Customer>,
    agent: Option<Employee>,
    flight: Option<Flight>)

  /** `populateBookingDetails`: the booking with its customer, agent and flight found in the given tables. */
  function PopulateBookingDetails(
    b: Booking, customers: seq<Customer>, employees: seq<Employee>, flights: seq<Flight>): (r: PopulatedBooking)
    ensures r.booking == b
    ensures r.customer.None? <==> forall i :: 0 <= i < |customers| ==> customers[i].details.customerId != b.customerId
    ensures r.customer.Some? ==> r.customer.value in customers && r.customer.value.details.customerId == b.customerId
    ensures r.agent.None? <==>
      (b.agentId.None? || forall i :: 0 <= i < |employees| ==> employees[i].details.employeeId != b.agentId.value)
    ensures r.agent.Some? ==> r.agent.value in employees && b.agentId == Some(r.agent.value.details.employeeId)
    ensures r.customer.Some? ==>
      exists i :: 0 <= i < |customers| && customers[i] == r.customer.value &&
        forall j :: 0 <= j < i ==> customers[j].details.customerId != b.customerId
    ensures r.agent.Some? ==>
      exists i :: 0 <= i < |employees| && employees[i] == r.agent.value &&
        forall j :: 0 <= j < i ==> b.agentId != Some(employees[j].details.employeeId)
    ensures r.flight == FlightsApi.GetFlightById(flights, b.flightId)
  {
    var customer := Seqs.Find(customers, (c: Customer) => c.details.customerId == b.customerId);
    var agent := Seqs.Find(employees, (e: Employee) => b.agentId == Some(e.details.employeeId));
    PopulatedBooking(b, customer, agent, FlightsApi.GetFlightById(flights, b.flightId))
  }

  /** `populateBookingDetails` against the module's own tables. */
  function Populate(b: Booking): PopulatedBooking {
    PopulateBookingDetails(b, PlaceholderCustomers, PlaceholderEmployees, FlightsApi.PlaceholderFlights)
  }

  /** The bookings of one customer, in table order. */
  function CustomerBookings(table: seq<Booking>, customerId: string): (r: seq<Booking>)
    ensures Seqs.IsSubseq(r, table)
    ensures forall i :: 0 <= i < |r| ==> r[i] in table && r[i].customerId == customerId
    ensures forall i :: 0 <= i < |table| && table[i].customerId == customerId ==> table[i] in r
    ensures |r| == Seqs.Count(table, (b: Booking) => b.customerId == customerId)
  {
    Seqs.Filter(table, (b: Booking) => b.customerId == customerId)
  }

  /** Position of the first booking with the identifier, or -1 (`findIndex`). */
  function IndexOfBooking(table: seq<Booking>, bookingId: string): (r: int)
    ensures -1 <= r < |table|
    ensures r == -1 <==> forall i :: 0 <= i < |table| ==> table[i].bookingId != bookingId
    ensures r >= 0 ==>
      && table[r].bookingId == bookingId
      && forall i :: 0 <= i < r ==> table[i].bookingId != bookingId
  {
    Seqs.FindIndex(table, (b: Booking) => b.bookingId == bookingId)
  }

  /** The table after `cancelBooking`: the first booking with the identifier is marked
      cancelled, whatever its status was; no other booking and no other field changes. */
  function CancelledTable(table: seq<Booking>, bookingId: string): (r: seq<Booking>)
    ensures |r| == |table|
    ensures forall i :: 0 <= i < |table| ==> r[i].bookingId == table[i].bookingId
    ensures IndexOfBooking(table, bookingId) == -1 ==> r == table
    ensures var k := IndexOfBooking(table, bookingId);
      k >= 0 ==>
        && r[k] == table[k].(status := Cancelled)
        && forall i :: 0 <= i < |table| && i != k ==> r[i] == table[i]
  {
    var k := IndexOfBooking(table, bookingId);
    if k < 0 then table else table[k := table[k].(status := Cancelled)]
  }

  /** Cancelling the same booking twice leaves the table as cancelling it once. */
  lemma {:induction false} CancelIdempotent(table: seq<Booking>, bookingId: string)
    ensures CancelledTable(CancelledTable(table, bookingId), bookingId) == CancelledTable(table, bookingId)
  {
    var once := CancelledTable(table, bookingId);
    var k := IndexOfBooking(table, bookingId);
    assert IndexOfBooking(once, bookingId) == k by {
      if k >= 0 {
        assert once[k].bookingId == bookingId;
      }
    }
  }

  /** Cancelling identifiers in either order gives the same table. */
  lemma {:induction false} CancelCommutes(table: seq<Booking>, id1: string, id2: string)
    ensures CancelledTable(CancelledTable(table, id1), id2) == CancelledTable(CancelledTable(table, id2), id1)
  {
    var k1 := IndexOfBooking(table, id1);
    var k2 := IndexOfBooking(table, id2);
    var a := CancelledTable(table, id1);
    var b := CancelledTable(table, id2);
    assert IndexOfBooking(a, id2) == k2 by {
      if k2 >= 0 { assert a[k2].bookingId == id2; }
    }
    assert IndexOfBooking(b, id1) == k1 by {
      if k1 >= 0 { assert b[k1].bookingId == id1; }
    }
  }

  /** The booking `createBooking` appends to a table of the given length. */
  function NewBooking(data: BookingInput, length: nat, now: string): (b: Booking)
    ensures b.bookingId == Strings.GeneratedId("B", length)
    ensures b.status == Pending
    ensures b.customerId == data.customerId && b.flightId == data.flightId && b.agentId == data.agentId
    ensures b.bookingDate == now
  {
    Booking(Strings.GeneratedId("B", length), data.customerId, data.flightId, now, Pending, data.agentId)
  }

  /** The third identifier generated from the seed table repeats the seed row `B006`. */
  lemma {:induction false} SeedIdCollision()
    ensures Strings.GeneratedId("B", |SeedBookings| + 2) == SeedBookings[2].bookingId == "B006"
  {
    assert Strings.NatToString(6) == "6";
    assert Strings.Zeros(2) == "00";
    assert Strings.Pad3(6) == "006";
  }

  /** The module-level `placeholderBookings` array. */
  class BookingTable {
    var bookings: seq<Booking>

    constructor ()
      ensures bookings == SeedBookings
    {
      bookings := SeedBookings;
    }

    /** `getBookingsByCustomerId`: the customer's bookings in table order, each populated. */
    function GetBookingsByCustomerId(customerId: string): (r: seq<PopulatedBooking>)
      reads this
      ensures |r| == Seqs.Count(bookings, (b: Booking) => b.customerId == customerId)
      ensures forall i :: 0 <= i < |r| ==>
        && r[i].booking == CustomerBookings(bookings, customerId)[i]
        && r[i].booking.customerId == customerId
        && r[i] == Populate(r[i].booking)
    {
      var mine := CustomerBookings(bookings, customerId);
      seq(|mine|, i requires 0 <= i < |mine| => Populate(mine[i]))
    }

    /** `createBooking`: appends one pending booking and returns it populated. */
    method CreateBooking(data: BookingInput, now: string) returns (r: PopulatedBooking)
      modifies this
      ensures bookings == old(bookings) + [NewBooking(data, |old(bookings)|, now)]
      ensures r == Populate(NewBooking(data, |old(bookings)|, now))
    {
      var b := NewBooking(data, |bookings|, now);
      bookings := bookings + [b];
      r := Populate(b);
    }

    /** `cancelBooking`: marks the first booking with the identifier cancelled and returns it
        populated, or returns null and changes nothing when no booking has it. */
    method CancelBooking(bookingId: string) returns (r: Option<PopulatedBooking>)
      modifies this
      ensures bookings == CancelledTable(old(bookings), bookingId)
      ensures r.None? <==> forall i :: 0 <= i < |old(bookings)| ==> old(bookings)[i].bookingId != bookingId
      ensures r.Some? ==> var k := IndexOfBooking(old(bookings), bookingId);
        0 <= k < |bookings| && r.value == Populate(bookings[k]) && bookings[k].status == Cancelled
    {
      var k := IndexOfBooking(bookings, bookingId);
      if k != -1 {
        bookings := bookings[k := bookings[k].(status := Cancelled)];
        r := Some(Populate(bookings[k]));
      } else {
        r := None;
      }
    }
  }

  /** Three bookings created on the seed table: the third reuses the seed identifier `B006`. */
  method ThreeBookingsOnSeed(data: BookingInput, now: string) returns (seedId: string, thirdId: string)
    ensures seedId == thirdId == "B006"
  {
    SeedIdCollision();
    var t := new BookingTable();
    seedId := t.bookings[2].bookingId;
    var _ := t.CreateBooking(data, now);
    var _ := t.CreateBooking(data, now);
    var _ := t.CreateBooking(data, now);
    ThirdAppend(data, now);
    thirdId := t.bookings[5].bookingId;
  }

  /** The table after three `createBooking` calls on the seed table. */
  lemma {:induction false} ThirdAppend(data: BookingInput, now: string)
    ensures var t1 := SeedBookings + [NewBooking(data, 3, now)];
      var t2 := t1 + [NewBooking(data, |t1|, now)];
      var t3 := t2 + [NewBooking(data, |t2|, now)];
      |t3| == 6 && t3[5].bookingId == Strings.GeneratedId("B", |SeedBookings| + 2)
  {
  }
}
