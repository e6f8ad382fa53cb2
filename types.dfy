/** The record shapes of the API layer (src/types), as immutable values. */
module Types {
  import opened Wrappers

  /** `Booking.Status`. */
  datatype BookingStatus = Confirmed | Pending | Cancelled

  function StatusName(s: BookingStatus): string {
    match s
    case Confirmed => "Confirmed"
    case Pending => "Pending"
    case Cancelled => "Cancelled"
  }

  /** `Booking` without its optional expanded properties; timestamps are the strings the tables hold. */
  datatype Booking = Booking(
    bookingId: string,
    customerId: string,
    flightId: string,
    bookingDate: string,
    status: BookingStatus,
    agentId: Option<string>)

  datatype AircraftInfo = AircraftInfo(model: string, seatCapacity: int, manufacturer: string)

  datatype LocationData = LocationData(name: string, iataCode: string, country: string)

  /** `Flight`; departure and arrival times are the millisecond timestamps their strings denote. */
  datatype Flight = Flight(
    flightId: string,
    aircraftId: string,
    departureLocation: string,
    arrivalLocation: string,
    departureTime: int,
    arrivalTime: int,
    availableSeats: int,
    aircraft: Option<AircraftInfo>,
    departureData: Option<LocationData>,
    arrivalData: Option<LocationData>)

  /** `User`; the user type is an open string, as `getFullUser` also handles other values. */
  datatype User = User(userId: string, firstName: string, lastName: string, email: string, userType: string)

  /** The customer-specific part of a `Customer` (`Omit<Customer, keyof User>`). */
  datatype CustomerDetails = CustomerDetails(
    customerId: string,
    userId: string,
    phone: Option<string>,
    passportNumber: Option<string>,
    loyaltyPoints: int)

  /** The employee-specific part of an `Employee` (`Omit<Employee, keyof User>`). */
  datatype EmployeeDetails = EmployeeDetails(
    employeeId: string,
    userId: string,
    position: Option<string>,
    department: Option<string>,
    hireDate: Option<string>)

  /** A full `Customer` record (its `UserType` is always `'Customer'`). */
  datatype Customer = Customer(user: User, details: CustomerDetails)

  /** A full `Employee` record (its `UserType` is always `'Employee'`). */
  datatype Employee = Employee(user: User, details: EmployeeDetails)

  /** `Ticket`. */
  datatype Ticket = Ticket(
    ticketId: string,
    customerId: string,
    bookingId: string,
    seatNumber: string,
    ticketStatus: string,
    issueDate: string)
}
