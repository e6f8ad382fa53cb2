/**
 * The user tables behind the placeholder API: lookups that combine a `User` with its
 * customer or employee details, a login that accepts one fixed password, and a
 * registration that appends a user and a customer.
 */
module AuthApi {
  import opened Wrappers
  import opened Types
  import Strings
  import Seqs

  const SeedUsers: seq<User> := [
    User("U001", "John", "Doe", "john.doe@example.com", "Customer"),
    User("U002", "Jane", "Smith", "jane.smith@example.com", "Customer"),
    User("U006", "Sarah", "Jones", "sarah.j@example.com", "Employee")
  ]

  const SeedCustomers: seq<CustomerDetails> := [
    CustomerDetails("U001", "U001", Some("+250788123456"), Some("P12345678"), 150),
    CustomerDetails("U002", "U002", Some("+250788234567"), Some("P23456789"), 75)
  ]

  const SeedEmployees: seq<EmployeeDetails> := [
    EmployeeDetails("EMP001", "U006", Some("Booking Agent"), Some("Sales"), Some("2022-01-15"))
  ]

  /** The password every placeholder account accepts. */
  const DemoPassword := "password123"

  /** What `getFullUser` returns: a `Customer`, an `Employee`, or the plain `User`. */
  datatype Account =
    | CustomerAccount(user: User, customer: Option<CustomerDetails>, customerId: string)
    | EmployeeAccount(user: User, employee: Option<EmployeeDetails>, employeeId: string)
    | PlainAccount(user: User)

  /** `getFullUser`: merges the user with its details. A customer always gets a customer id
      (its details' one when non-empty, else the user id), an employee always gets an
      employee id (its details' one when non-empty, else `"EMP-"` and the user id). */
  function GetFullUser(user: User, customers: seq<CustomerDetails>, employees: seq<EmployeeDetails>): (r: Account)
    ensures r.user == user
    ensures user.userType == "Customer" <==> r.CustomerAccount?
    ensures user.userType == "Employee" <==> r.EmployeeAccount?
    ensures user.userType != "Customer" && user.userType != "Employee" ==> r == PlainAccount(user)
    ensures r.CustomerAccount? ==>
      && (r.customer.None? <==> forall i :: 0 <= i < |customers| ==> customers[i].userId != user.userId)
      && (r.customer.Some? ==> r.customer.value in customers && r.customer.value.userId == user.userId)
      && (r.customer.Some? ==>
            exists i :: 0 <= i < |customers| && customers[i] == r.customer.value &&
              forall j :: 0 <= j < i ==> customers[j].userId != user.userId)
      && r.customerId == (if r.customer.Some? && r.customer.value.customerId != ""
                          then r.customer.value.customerId else user.userId)
    ensures r.EmployeeAccount? ==>
      && (r.employee.None? <==> forall i :: 0 <= i < |employees| ==> employees[i].userId != user.userId)
      && (r.employee.Some? ==> r.employee.value in employees && r.employee.value.userId == user.userId)
      && (r.employee.Some? ==>
            exists i :: 0 <= i < |employees| && employees[i] == r.employee.value &&
              forall j :: 0 <= j < i ==> employees[j].userId != user.userId)
      && r.employeeId == (if r.employee.Some? && r.employee.value.employeeId != ""
                          then r.employee.value.employeeId else "EMP-" + user.userId)
  {
    if user.userType == "Customer" then
      var details := Seqs.Find(customers, (c: CustomerDetails) => c.userId == user.userId);
      CustomerAccount(user, details,
        if details.Some? && details.value.customerId != "" then details.value.customerId else user.userId)
    else if user.userType == "Employee" then
      var details := Seqs.Find(employees, (e: EmployeeDetails) => e.userId == user.userId);
      EmployeeAccount(user, details,
        if details.Some? && details.value.employeeId != "" then details.value.employeeId else "EMP-" + user.userId)
    else PlainAccount(user)
  }

  /** Some user has the email. */
  predicate EmailTaken(users: seq<User>, email: string) {
    exists i :: 0 <= i < |users| && users[i].email == email
  }

  /** `loginUser`: the full record of the first user with the email, when the password is the demo one. */
  function LoginUser(
    users: seq<User>, customers: seq<CustomerDetails>, employees: seq<EmployeeDetails>,
    email: string, password: string): (r: Option<Account>)
    ensures r.Some? <==> EmailTaken(users, email) && password == DemoPassword
    ensures r.Some? ==>
      exists i :: 0 <= i < |users| && users[i].email == email &&
        (forall j :: 0 <= j < i ==> users[j].email != email) &&
        r.value == GetFullUser(users[i], customers, employees)
  {
    var user := Seqs.Find(users, (u: User) => u.email == email);
    if user.Some? && password == DemoPassword then Some(GetFullUser(user.value, customers, employees)) else None
  }

  /** `getCurrentUser`: the simulated session always belongs to user `U001`. */
  function GetCurrentUser(users: seq<User>, customers: seq<CustomerDetails>, employees: seq<EmployeeDetails>)
    : (r: Option<Account>)
    ensures r.None? <==> forall i :: 0 <= i < |users| ==> users[i].userId != "U001"
    ensures r.Some? ==>
      exists i :: 0 <= i < |users| && users[i].userId == "U001" &&
        (forall j :: 0 <= j < i ==> users[j].userId != "U001") &&
        r.value == GetFullUser(users[i], customers, employees)
  {
    var user := Seqs.Find(users, (u: User) => u.userId == "U001");
    if user.Some? then Some(GetFullUser(user.value, customers, employees)) else None
  }

  /** What `registerUser` receives; the requested user type is ignored. */
  datatype Registration = Registration(
    firstName: string, lastName: string, email: string, userType: string, password: string)

  /** The module-level `placeholderUsers`, `placeholderCustomers` and `placeholderEmployees` arrays. */
  class UserDirectory {
    var users: seq<User>
    var customers: seq<CustomerDetails>
    const employees: seq<EmployeeDetails>

    constructor ()
      ensures users == SeedUsers && customers == SeedCustomers && employees == SeedEmployees
    {
      users, customers, employees := SeedUsers, SeedCustomers, SeedEmployees;
    }

    /** `registerUser`: fails on a known email and changes nothing; otherwise appends a
        customer user and its customer details, both under the next user id. */
    method RegisterUser(data: Registration) returns (r: Result<Account, string>)
      modifies this
      ensures EmailTaken(old(users), data.email) ==>
        r == Err("Email already exists") && users == old(users) && customers == old(customers)
      ensures !EmailTaken(old(users), data.email) ==>
        var id := Strings.GeneratedId("U", |old(users)|);
        var user := User(id, data.firstName, data.lastName, data.email, "Customer");
        var details := CustomerDetails(id, id, None, None, 0);
        && users == old(users) + [user]
        && customers == old(customers) + [details]
        && r == Ok(CustomerAccount(user, Some(details), id))
      ensures r.Ok? ==> EmailTaken(users, data.email)
    {
      if Seqs.Any(users, (u: User) => u.email == data.email) {
        return Err("Email already exists");
      }
      var id := Strings.GeneratedId("U", |users|);
      var user := User(id, data.firstName, data.lastName, data.email, "Customer");
      users := users + [user];
      var details := CustomerDetails(id, id, None, None, 0);
      customers := customers + [details];
      r := Ok(CustomerAccount(user, Some(details), id));
      assert users[|users| - 1].email == data.email;
    }
  }

  /** Registering the same email twice: the second attempt fails and leaves both tables as the first left them. */
  method RegisterTwice(dir: UserDirectory, data: Registration)
    returns (first: Result<Account, string>, second: Result<Account, string>)
    modifies dir
    ensures second == Err("Email already exists")
    ensures first.Ok? ==> |dir.users| == |old(dir.users)| + 1 && |dir.customers| == |old(dir.customers)| + 1
    ensures first.Err? ==> dir.users == old(dir.users) && dir.customers == old(dir.customers)
    ensures first.Ok? ==>
      && first.value.CustomerAccount? && first.value.customer.Some?
      && dir.users == old(dir.users) + [first.value.user]
      && dir.customers == old(dir.customers) + [first.value.customer.value]
  {
    first := dir.RegisterUser(data);
    second := dir.RegisterUser(data);
  }

  /** The third user registered on the seed tables gets the seed id `U006` again. */
  lemma {:induction false} SeedUserIdCollision()
    ensures Strings.GeneratedId("U", |SeedUsers| + 2) == SeedUsers[2].userId == "U006"
  {
    assert Strings.NatToString(6) == "6";
    assert Strings.Zeros(2) == "00";
    assert Strings.Pad3(6) == "006";
  }
}
