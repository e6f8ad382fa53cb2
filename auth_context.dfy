/**
 * The session state of the application: the current user, a loading flag, and the
 * user stored in local storage. `login`, `logout`, `register` and the mount-time
 * restore move it between states. Accounts are looked up in the mock `customers`
 * and `employees` lists; no password is ever checked and nothing is added to them.
 */
module AuthContext {
  import opened Wrappers
  import Strings
  import Seqs

  /** The mock user record the session holds; `loyaltyPoints` is present for customers only. */
  datatype SessionUser = SessionUser(
    id: string,
    firstName: string,
    lastName: string,
    email: string,
    userType: string,
    loyaltyPoints: Option<int>)

  /** The local-storage entry: absent, a record that parses, or text that does not. */
  datatype StoredEntry = NoEntry | Parseable(user: SessionUser) | Unparseable

  datatype RegisterData = RegisterData(
    firstName: string, lastName: string, email: string, password: string, userType: string)

  /** The account `login` finds: the first customer with the email for `'Customer'`, the
      first employee with it for `'Employee'`, and nothing for any other user type. */
  function FindAccount(customers: seq<SessionUser>, employees: seq<SessionUser>, email: string, userType: string)
    : (r: Option<SessionUser>)
    ensures r.Some? <==>
      || (userType == "Customer" && exists i :: 0 <= i < |customers| && customers[i].email == email)
      || (userType == "Employee" && exists i :: 0 <= i < |employees| && employees[i].email == email)
    ensures r.Some? ==> r.value.email == email
    ensures r.Some? && userType == "Customer" ==> r.value in customers
    ensures r.Some? && userType == "Employee" ==> r.value in employees
    ensures r.Some? && userType == "Customer" ==>
      exists i :: 0 <= i < |customers| && customers[i] == r.value &&
        forall j :: 0 <= j < i ==> customers[j].email != email
    ensures r.Some? && userType == "Employee" ==>
      exists i :: 0 <= i < |employees| && employees[i] == r.value &&
        forall j :: 0 <= j < i ==> employees[j].email != email
  {
    if userType == "Customer" then Seqs.Find(customers, (u: SessionUser) => u.email == email)
    else if userType == "Employee" then Seqs.Find(employees, (u: SessionUser) => u.email == email)
    else None
  }

  /** The email belongs to a customer or an employee. */
  predicate EmailInUse(customers: seq<SessionUser>, employees: seq<SessionUser>, email: string) {
    Seqs.Any(customers + employees, (u: SessionUser) => u.email == email)
  }

  /** The identifier `register` gives a new account: `"USR"` and a random number below 10000,
      padded to three digits. */
  function RandomUserId(random: nat): (id: string)
    requires random < 10000
    ensures |id| >= 6 && id[..3] == "USR"
    ensures forall i :: 3 <= i < |id| ==> Strings.IsDigit(id[i])
    ensures Strings.ParseDecimal(id[3..]) == random
  {
    var digits := Strings.Pad3(random);
    Strings.Pad3RoundTrip(random);
    assert ("USR" + digits)[3..] == digits;
    "USR" + digits
  }

  /** The record `register` signs in: the given names, email and user type, plus zero loyalty
      points when the type is `'Customer'`. */
  function NewSessionUser(data: RegisterData, id: string): (u: SessionUser)
    ensures u.id == id && u.firstName == data.firstName && u.lastName == data.lastName
    ensures u.email == data.email && u.userType == data.userType
    ensures u.loyaltyPoints == (if data.userType == "Customer" then Some(0) else None)
  {
    SessionUser(id, data.firstName, data.lastName, data.email, data.userType,
      if data.userType == "Customer" then Some(0) else None)
  }

  /** `AuthProvider`. */
  class AuthProvider {
    const customers: seq<SessionUser>
    const employees: seq<SessionUser>
    var currentUser: Option<SessionUser>
    var isLoading: bool
    var stored: StoredEntry

    /** The provider before its mount effect runs: nobody signed in, still loading. */
    constructor (customers: seq<SessionUser>, employees: seq<SessionUser>, stored: StoredEntry)
      ensures this.customers == customers && this.employees == employees
      ensures currentUser == None && isLoading && this.stored == stored
    {
      this.customers := customers;
      this.employees := employees;
      currentUser := None;
      isLoading := true;
      this.stored := stored;
    }

    /** `isAuthenticated`: someone is signed in. */
    predicate IsAuthenticated()
      reads this
    {
      currentUser.Some?
    }

    /** The mount effect: a stored record that parses becomes the current user; one that does
        not is removed and the current user stays as it was; loading ends either way. */
    method RestoreOnMount()
      modifies this
      ensures old(stored).Parseable? ==> currentUser == Some(old(stored).user) && stored == old(stored)
      ensures old(stored).Unparseable? ==> currentUser == old(currentUser) && stored == NoEntry
      ensures old(stored).NoEntry? ==> currentUser == old(currentUser) && stored == NoEntry
      ensures !isLoading
    {
      match stored {
        case NoEntry =>
        case Parseable(u) =>
          currentUser := Some(u);
        case Unparseable =>
          stored := NoEntry;
      }
      isLoading := false;
    }

    /** `login`: signs in the account `FindAccount` finds, whatever the password; a failed
        attempt changes neither the current user nor the stored one. Loading ends either way. */
    method Login(email: string, password: string, userType: string) returns (ok: bool)
      modifies this
      ensures ok <==> FindAccount(customers, employees, email, userType).Some?
      ensures ok ==> currentUser == FindAccount(customers, employees, email, userType) &&
                     stored == Parseable(currentUser.value)
      ensures !ok ==> currentUser == old(currentUser) && stored == old(stored)
      ensures ok ==> IsAuthenticated()
      ensures !isLoading
    {
      isLoading := true;
      var user := FindAccount(customers, employees, email, userType);
      if user.Some? {
        currentUser := user;
        stored := Parseable(user.value);
        ok := true;
      } else {
        ok := false;
      }
      isLoading := false;
    }

    /** `logout`: nobody is signed in and nothing is stored. */
    method Logout()
      modifies this
      ensures currentUser == None && stored == NoEntry && isLoading == old(isLoading)
      ensures !IsAuthenticated()
    {
      currentUser := None;
      stored := NoEntry;
    }

    /** `register`: refuses an email already used by a customer or an employee and changes
        nothing; otherwise signs in a new record built from the data. The account lists are
        never extended. Loading ends either way. */
    method Register(data: RegisterData, random: nat) returns (ok: bool)
      requires random < 10000
      modifies this
      ensures ok <==> !EmailInUse(customers, employees, data.email)
      ensures ok ==> currentUser == Some(NewSessionUser(data, RandomUserId(random))) &&
                     stored == Parseable(currentUser.value)
      ensures !ok ==> currentUser == old(currentUser) && stored == old(stored)
      ensures !isLoading
    {
      isLoading := true;
      if EmailInUse(customers, employees, data.email) {
        isLoading := false;
        return false;
      }
      var user := NewSessionUser(data, RandomUserId(random));
      currentUser := Some(user);
      stored := Parseable(user);
      isLoading := false;
      ok := true;
    }
  }

  /** Login, logout and the same login again: both attempts end the same way, and the
      session afterwards is signed in exactly when they succeeded. */
  method LoginLogoutLogin(p: AuthProvider, email: string, password: string, userType: string)
    returns (first: bool, second: bool)
    modifies p
    ensures first == second
    ensures second <==> p.IsAuthenticated()
  {
    first := p.Login(email, password, userType);
    p.Logout();
    second := p.Login(email, password, userType);
  }
}
