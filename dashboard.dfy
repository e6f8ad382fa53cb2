/**
 * The employee dashboard: who may see it, and the figures it derives from the mock
 * bookings, flights and customers: totals, revenue, bookings per status, and the
 * five most recent bookings. Booking dates are millisecond timestamps and prices
 * whole amounts.
 */
module Dashboard {
  import opened Wrappers
  import Seqs
  import opened AuthContext

  /** A booking of the mock list, as far as the dashboard reads it. */
  datatype DashBooking = DashBooking(id: string, flightId: string, status: string, bookingDate: int)

  /** A flight of the mock list, as far as the dashboard reads it. */
  datatype DashFlight = DashFlight(id: string, price: Option<int>)

  /** The dashboard is shown only to an authenticated Employee. */
  predicate ShowsDashboard(isAuthenticated: bool, currentUser: Option<SessionUser>) {
    isAuthenticated && currentUser.Some? && currentUser.value.userType == "Employee"
  }

  /** `flights.find(f => f.id === b.flightId)?.price || 0`. */
  function PriceOf(b: DashBooking, flights: seq<DashFlight>): int {
    var f := Seqs.Find(flights, (f: DashFlight) => f.id == b.flightId);
    if f.Some? && f.value.price.Some? then f.value.price.value else 0
  }

  /** The price a booking adds is that of the first flight with its flight id, and 0 when no
      flight has that id or the flight has no price. */
  lemma {:induction false} PriceOfFirstMatch(b: DashBooking, flights: seq<DashFlight>)
    ensures (forall i :: 0 <= i < |flights| ==> flights[i].id != b.flightId) ==> PriceOf(b, flights) == 0
    ensures forall i :: FirstFlightWith(flights, b.flightId, i) ==>
      PriceOf(b, flights) == (if flights[i].price.Some? then flights[i].price.value else 0)
  {
  }

  /** Position `i` holds the first flight with the id. */
  predicate FirstFlightWith(flights: seq<DashFlight>, id: string, i: int) {
    0 <= i < |flights| && flights[i].id == id && forall j :: 0 <= j < i ==> flights[j].id != id
  }

  /** The `reduce` that adds up the prices, left to right from `sum`. */
  function RevenueFold(bs: seq<DashBooking>, flights: seq<DashFlight>, sum: int): int
    decreases |bs|
  {
    if bs == [] then sum else RevenueFold(bs[1..], flights, sum + PriceOf(bs[0], flights))
  }

  /** The revenue written as a plain sum over the bookings. */
  function RevenueSum(bs: seq<DashBooking>, flights: seq<DashFlight>): int {
    if bs == [] then 0 else PriceOf(bs[0], flights) + RevenueSum(bs[1..], flights)
  }

  /** The fold computes the sum. */
  lemma {:induction false} RevenueFoldIsSum(bs: seq<DashBooking>, flights: seq<DashFlight>, sum: int)
    ensures RevenueFold(bs, flights, sum) == sum + RevenueSum(bs, flights)
    decreases |bs|
  {
    if bs != [] {
      RevenueFoldIsSum(bs[1..], flights, sum + PriceOf(bs[0], flights));
    }
  }

  /** A booking whose flight is missing adds nothing; with no negative price, revenue is never negative. */
  lemma {:induction false} RevenueNonNegative(bs: seq<DashBooking>, flights: seq<DashFlight>)
    requires forall i :: 0 <= i < |flights| && flights[i].price.Some? ==> flights[i].price.value >= 0
    ensures RevenueSum(bs, flights) >= 0
  {
    if bs != [] {
      RevenueNonNegative(bs[1..], flights);
    }
  }

  /** The number of bookings with the given status. */
  function CountStatus(bs: seq<DashBooking>, status: string): nat {
    if bs == [] then 0 else (if bs[0].status == status then 1 else 0) + CountStatus(bs[1..], status)
  }

  /** The `reduce` that tallies statuses: `acc[status] = (acc[status] || 0) + 1`. */
  function StatusFold(bs: seq<DashBooking>, acc: map<string, int>): map<string, int>
    decreases |bs|
  {
    if bs == [] then acc
    else
      var s := bs[0].status;
      StatusFold(bs[1..], acc[s := (if s in acc then acc[s] else 0) + 1])
  }

  /** Some key of a non-empty tally; the same one every time. */
  ghost function PickKey(m: map<string, int>): (k: string)
    requires |m| > 0
    ensures k in m
  {
    var k :| k in m; k
  }

  lemma {:induction false} RemoveKeyCard(m: map<string, int>, k: string)
    requires k in m
    ensures |m - {k}| == |m| - 1
  {
    assert (m - {k}).Keys == m.Keys - {k};
  }

  /** The sum of the values of a tally. */
  ghost function MapTotal(m: map<string, int>): int
    decreases |m|
  {
    if |m| == 0 then 0
    else
      var k := PickKey(m);
      RemoveKeyCard(m, k);
      m[k] + MapTotal(m - {k})
  }

  /** Any entry can be taken out first. */
  lemma {:induction false} MapTotalRemove(m: map<string, int>, k: string)
    requires k in m
    ensures MapTotal(m) == m[k] + MapTotal(m - {k})
    decreases |m|
  {
    var j := PickKey(m);
    if j != k {
      RemoveKeyCard(m, j);
      RemoveKeyCard(m, k);
      MapTotalRemove(m - {j}, k);
      MapTotalRemove(m - {k}, j);
      assert m - {j} - {k} == m - {k} - {j};
    }
  }

  /** Setting one entry changes the total by the difference. */
  lemma {:induction false} MapTotalUpdate(m: map<string, int>, k: string, v: int)
    ensures MapTotal(m[k := v]) == MapTotal(m) - (if k in m then m[k] else 0) + v
  {
    MapTotalRemove(m[k := v], k);
    if k in m {
      MapTotalRemove(m, k);
      assert m[k := v] - {k} == m - {k};
    } else {
      assert m[k := v] - {k} == m;
    }
  }

  /** The keys of the tally: the statuses already in `acc` and those seen. */
  lemma {:induction false} StatusFoldKeys(bs: seq<DashBooking>, acc: map<string, int>, s: string)
    ensures s in StatusFold(bs, acc) <==> s in acc || CountStatus(bs, s) > 0
    decreases |bs|
  {
    if bs != [] {
      var t := bs[0].status;
      StatusFoldKeys(bs[1..], acc[t := (if t in acc then acc[t] else 0) + 1], s);
    }
  }

  /** The values of the tally: what `acc` held plus the count of the status. */
  lemma {:induction false} StatusFoldValues(bs: seq<DashBooking>, acc: map<string, int>, s: string)
    requires s in StatusFold(bs, acc)
    ensures StatusFold(bs, acc)[s] == (if s in acc then acc[s] else 0) + CountStatus(bs, s)
    decreases |bs|
  {
    if bs != [] {
      var t := bs[0].status;
      StatusFoldValues(bs[1..], acc[t := (if t in acc then acc[t] else 0) + 1], s);
    }
  }

  /** Each booking adds one to the tally's total. */
  lemma {:induction false} StatusFoldTotal(bs: seq<DashBooking>, acc: map<string, int>)
    ensures MapTotal(StatusFold(bs, acc)) == MapTotal(acc) + |bs|
    decreases |bs|
  {
    if bs != [] {
      var t := bs[0].status;
      var v := (if t in acc then acc[t] else 0) + 1;
      var acc' := acc[t := v];
      assert StatusFold(bs, acc) == StatusFold(bs[1..], acc');
      StatusFoldTotal(bs[1..], acc');
      MapTotalUpdate(acc, t, v);
      assert MapTotal(acc') == MapTotal(acc) + 1;
    }
  }

  /** `statusCounts`: exactly the statuses that occur, each with its number of bookings; the
      counts add up to the number of bookings. */
  function StatusCounts(bs: seq<DashBooking>): (r: map<string, int>)
    ensures forall s :: s in r <==> CountStatus(bs, s) > 0
    ensures forall s :: s in r ==> r[s] == CountStatus(bs, s)
    ensures MapTotal(r) == |bs|
  {
    var r := StatusFold(bs, map[]);
    forall s
      ensures s in r <==> CountStatus(bs, s) > 0
      ensures s in r ==> r[s] == CountStatus(bs, s)
    {
      StatusFoldKeys(bs, map[], s);
      if s in r {
        StatusFoldValues(bs, map[], s);
      }
    }
    StatusFoldTotal(bs, map[]);
    r
  }

  /** `totalRevenue`: the sum over the bookings of their flight's price, 0 where none. */
  function TotalRevenue(bs: seq<DashBooking>, flights: seq<DashFlight>): (r: int)
    ensures r == RevenueSum(bs, flights)
  {
    RevenueFoldIsSum(bs, flights, 0);
    RevenueFold(bs, flights, 0)
  }

  /** The key that puts the newest booking first. */
  function NewestFirst(b: DashBooking): int {
    -b.bookingDate
  }

  function Min(a: int, b: int): int {
    if a < b then a else b
  }

  /** `recentBookings`: the first five of the bookings sorted newest first, on a copy. */
  function RecentBookings(bs: seq<DashBooking>): (recent: seq<DashBooking>)
    ensures |recent| == Min(5, |bs|)
    ensures multiset(recent) <= multiset(bs)
    ensures forall i, j :: 0 <= i < j < |recent| ==> recent[i].bookingDate >= recent[j].bookingDate
    ensures forall x, y :: x in recent && y in multiset(bs) - multiset(recent) ==> y.bookingDate <= x.bookingDate
  {
    var n := Min(5, |bs|);
    var sorted := Seqs.SortBy(bs, NewestFirst);
    var recent := sorted[..n];
    Seqs.SortedPrefixIsSmallest(bs, NewestFirst, n);
    Seqs.PrefixSorted(sorted, NewestFirst, n);
    assert Seqs.SortedBy(recent, NewestFirst);
    recent
  }

  /** Everything the dashboard shows. */
  datatype Metrics = Metrics(
    totalBookings: int,
    totalFlights: int,
    totalCustomers: int,
    totalRevenue: int,
    statusCounts: map<string, int>,
    recentBookings: seq<DashBooking>)

  /** The dashboard's figures, or nothing for anyone but an authenticated Employee. */
  function DashboardMetrics(
    isAuthenticated: bool,
    currentUser: Option<SessionUser>,
    bookings: seq<DashBooking>,
    flights: seq<DashFlight>,
    customers: seq<SessionUser>): (r: Option<Metrics>)
    ensures r.None? <==> !ShowsDashboard(isAuthenticated, currentUser)
    ensures r.Some? ==>
      && r.value.totalBookings == |bookings|
      && r.value.totalFlights == |flights|
      && r.value.totalCustomers == |customers|
      && r.value.totalRevenue == RevenueSum(bookings, flights)
    ensures r.Some? ==>
      && (forall s :: s in r.value.statusCounts <==> CountStatus(bookings, s) > 0)
      && (forall s :: s in r.value.statusCounts ==> r.value.statusCounts[s] == CountStatus(bookings, s))
      && MapTotal(r.value.statusCounts) == |bookings|
    ensures r.Some? ==>
      var recent := r.value.recentBookings;
      && |recent| == Min(5, |bookings|)
      && multiset(recent) <= multiset(bookings)
      && (forall i, j :: 0 <= i < j < |recent| ==> recent[i].bookingDate >= recent[j].bookingDate)
      && (forall x, y :: x in recent && y in multiset(bookings) - multiset(recent) ==>
            y.bookingDate <= x.bookingDate)
  {
    if !ShowsDashboard(isAuthenticated, currentUser) then None
    else
      Some(Metrics(|bookings|, |flights|, |customers|, TotalRevenue(bookings, flights),
                   StatusCounts(bookings), RecentBookings(bookings)))
  }
}
