# FlyAway Agency — a Dafny model of its booking logic

FlyAway Agency is a React front end for a travel agency. Customers search flights, book them
and look at their bookings. Employees see a dashboard. There is no server: the "API" is a
set of module-level arrays in `src/api`, changed in place by `createBooking`, `cancelBooking`,
`issueTicket` and `registerUser`. The session lives in an `AuthProvider` context. The rest of
the logic sits inside components: form validation, search filters, sort comparators, the
dashboard tallies and a few string and duration helpers.

This project models that logic and proves what it does:

- **Tables** (`bookings_api.dfy`, `tickets_api.dfy`, `flights_api.dfy`, `auth_api.dfy`).
  - The mutable arrays are classes with `seq` fields: `BookingTable`, `TicketTable` and
    `UserDirectory`. Their methods state the whole new table.
  - The flight table is never mutated, so it is a constant with pure lookups.
  - New identifiers are a prefix followed by `String(length + 1).padStart(3, '0')`. The model
    proves that the padded number reads back as `length + 1`.
  - Identifiers are not unique. The model proves that the third booking created on the seed
    table gets `B006` and that the third registered user gets `U006`; both already exist.
- **Session** (`auth_context.dfy`). `AuthProvider` is a class with `currentUser`, `isLoading`
  and the stored entry. `login`, `logout`, `register` and the mount-time restore are its methods.
- **Components.**
  - `auth_form.dfy`: the validation rules and the form state.
  - `flights_page.dfy` and `bookings_page.dfy`: the filters and the sort.
  - `flight_details.dfy`: the already-booked rule, the booking payload and the dialog flags.
  - `dashboard.dfy`: the access gate, revenue, per-status counts and recent bookings.
  - `flight_card.dfy`: the duration text and the first-two-words location name.
  - `flight_search_form.dfy`: the search form and its date-disable rules.
  - `profile.dfy`: the profile view and the initials.
- **Shared modules.**
  - `seqs.dfy`: `filter`/`find`/`findIndex`/`some` as functions.
  - `seqs.dfy` also holds JavaScript's stable `sort`, modelled as insertion sort and proved stable.
  - `strings.dfy`: `trim`, ASCII case mapping, `includes`, `String(n)` and `padStart`.
  - `types.dfy`: the record shapes.
  - `wrappers.dfy`: `Option` and `Result`.

The tables check nothing beyond what the code states, and the model follows the code:
- `createBooking` never touches a flight's `AvailableSeats` (`src/api/bookings.ts:66-78`).
- `cancelBooking` overwrites whatever status the booking had (`src/api/bookings.ts:86-88`).
- The booking check in `issueTicket` is commented out (`src/api/tickets.ts:51-53`), so two
  tickets may hold the same seat (`TicketsApi.SameSeatTwice`).
- Generated ids can repeat seed ids (`BookingsApi.ThreeBookingsOnSeed`).

Components read the records under their own field names. `AuthContext` reads `email` on the
mock `customers` list, while the shipped mock records carry `Email`; the dashboard reads
`flightId`. Each component is modelled against the record shape it
reads: `SessionUser`, `PageBooking`, `DashBooking`, `DashFlight` and `Viewer`.
The login form calls `login` with one object holding the email and the password
(`src/components/auth/AuthForm.tsx:108-111`), while `AuthContext`'s `login` takes the email,
the password and the user type as three arguments (`src/contexts/AuthContext.tsx:52`). The
form's `RequestLogin(email, password)` action stands for the intended call with those two values.

## Model

| member | source | states |
|---|---|---|
| BookingsApi.PopulateBookingDetails | src/api/bookings.ts:39-48 | keeps the booking. Attaches the first customer whose `CustomerID` matches, or none exactly when no customer matches. Attaches the first employee whose `EmployeeID` equals `AgentID`, or none when there is no agent or no match. Attaches the flight `getFlightById` finds. |
| BookingsApi.CustomerBookings | src/api/bookings.ts:57 | an order-preserving subsequence of the table holding exactly the bookings with the customer id, as many as match |
| BookingsApi.BookingTable.GetBookingsByCustomerId | src/api/bookings.ts:54-61 | one populated record per booking of the customer, in table order; each has that customer id; the table is only read |
| BookingsApi.NewBooking | src/api/bookings.ts:69-74 | the new booking has id `"B"` + padded `length + 1`. Its status is `Pending` whatever the input says. Customer, flight and agent are copied from the input. The date is the given timestamp. |
| BookingsApi.BookingTable.CreateBooking | src/api/bookings.ts:66-78 | the table becomes the old table plus exactly one new booking at the end. It returns that booking populated. No flight or seat count is touched. |
| BookingsApi.IndexOfBooking | src/api/bookings.ts:86 | the position of the first booking with the id, or -1 exactly when none has it |
| BookingsApi.CancelledTable | src/api/bookings.ts:86-88 | same length and ids. With the id present, only the first match changes, only its status, to `Cancelled`, whatever it was. With the id absent, the table is unchanged. |
| BookingsApi.BookingTable.CancelBooking | src/api/bookings.ts:83-92 | the table becomes `CancelledTable`. It returns null exactly when no booking has the id; otherwise it returns the cancelled booking, populated. |
| BookingsApi.CancelIdempotent | src/api/bookings.ts:86-89 | cancelling the same id twice gives the table cancelling it once gives |
| BookingsApi.CancelCommutes | src/api/bookings.ts:86-89 | cancelling two ids in either order gives the same table |
| BookingsApi.SeedIdCollision | src/api/bookings.ts:71 | the id generated for a table of five rows is `B006`, the id of the third seed row |
| BookingsApi.ThreeBookingsOnSeed | src/api/bookings.ts:20-78 | three `createBooking` calls on the seed table: the third new booking's id equals the seed booking id `B006` |
| TicketsApi.NewTicket | src/api/tickets.ts:55-62 | id `"T"` + padded `length + 1`. Booking, customer and seat are copied from the arguments. Status is `Issued`. |
| TicketsApi.TicketTable.GetTicketsByBookingId | src/api/tickets.ts:25-31 | an order-preserving subsequence holding exactly the tickets of the booking; the table is only read |
| TicketsApi.TicketTable.GetTicketById | src/api/tickets.ts:36-41 | the first ticket with the id, or null exactly when none has it |
| TicketsApi.TicketTable.IssueTicket | src/api/tickets.ts:47-66 | the table becomes the old table plus exactly one new ticket. It returns that ticket, never null, and checks neither the booking nor the seat. |
| TicketsApi.SameSeatTwice | src/api/tickets.ts:51-63 | issuing the same seat twice stores two tickets with that seat and different ids |
| FlightsApi.GetFlights | src/api/flights.ts:50-57 | the whole table, element by element, in order |
| FlightsApi.GetFlightById | src/api/flights.ts:62-67 | null exactly when no flight has the id; otherwise the first flight with it |
| AuthApi.GetFullUser | src/api/auth.ts:25-34 | keeps the user. A Customer has the first customer details of the same user id, if any. Its customer id is theirs when non-empty, else the user id. An Employee has the first employee details of the same user id, with `"EMP-"` + user id as the id fallback. Any other user type is returned unchanged. |
| AuthApi.LoginUser | src/api/auth.ts:39-55 | non-null exactly when some user has the email and the password is `"password123"`. It is then the full record of the first user with that email. |
| AuthApi.GetCurrentUser | src/api/auth.ts:99-111 | null exactly when no user has id `U001`; otherwise the full record of the first such user |
| AuthApi.UserDirectory.RegisterUser | src/api/auth.ts:60-94 | a known email returns the error and leaves both tables unchanged. Otherwise it appends one user and one customer under the generated `U` id, as a Customer with zero points and no phone or passport, and returns the merged record. Afterwards the email is taken. |
| AuthApi.RegisterTwice | src/api/auth.ts:66-80 | the second registration of the same email always fails; a successful first one grew each table by one |
| AuthApi.SeedUserIdCollision | src/api/auth.ts:72 | the id generated for five users is `U006`, the id of the third seed user |
| Strings.GeneratedIdRoundTrip | src/api/bookings.ts:71 | the digits after the prefix are `Pad3(length + 1)` and read back as `length + 1` |
| Strings.GeneratedIdInjective | src/api/tickets.ts:56 | two tables of different lengths generate different ids |
| Strings.Pad3RoundTrip | src/api/auth.ts:72 | `String(n).padStart(3, '0')` reads back as `n` |
| Strings.TrimEmptyIffBlank | src/components/auth/AuthForm.tsx:74 | `trim()` gives the empty string exactly for strings made only of white space |
| AuthContext.FindAccount | src/contexts/AuthContext.tsx:58-63 | an account is found exactly for `'Customer'` with a customer of that email, or `'Employee'` with an employee of that email. It is the first record of that list with that email. |
| AuthContext.NewSessionUser | src/contexts/AuthContext.tsx:124-144 | the given names, email and user type under the new id, plus zero loyalty points exactly for a Customer |
| AuthContext.RandomUserId | src/contexts/AuthContext.tsx:125 | `"USR"` followed by at least three digits, which read back as the random number |
| AuthContext.AuthProvider.IsAuthenticated | src/contexts/AuthContext.tsx:169 | someone is signed in exactly when there is a current user |
| AuthContext.AuthProvider.constructor | src/contexts/AuthContext.tsx:33-35 | nobody signed in, loading |
| AuthContext.AuthProvider.RestoreOnMount | src/contexts/AuthContext.tsx:38-50 | a stored record that parses becomes the current user. An unparseable entry is removed and the user is unchanged. Loading ends false either way. |
| AuthContext.AuthProvider.Login | src/contexts/AuthContext.tsx:52-94 | succeeds exactly when `FindAccount` finds the account; the password is ignored. On success it signs in and stores that account. On failure nothing changes. Loading ends false. |
| AuthContext.AuthProvider.Logout | src/contexts/AuthContext.tsx:96-103 | nobody signed in, nothing stored, not authenticated |
| AuthContext.AuthProvider.Register | src/contexts/AuthContext.tsx:105-162 | fails, with the user unchanged, exactly when a customer or an employee has the email. Otherwise it signs in and stores `NewSessionUser`. The lists are not modified. Loading ends false. |
| AuthContext.LoginLogoutLogin | src/contexts/AuthContext.tsx:52-103 | a login repeated after a logout ends as the first did, and authentication equals its success |
| AuthForm.InitialFormData | src/components/auth/AuthForm.tsx:20-28 | exactly the seven fields, every text field empty, user type `'Customer'` |
| AuthForm.EmailPatternExamples | src/components/auth/AuthForm.tsx:87 | the `\S+@\S+\.\S+` test accepts an ordinary address and rejects one without a dot and one with a space after `@` |
| AuthForm.EmailError | src/components/auth/AuthForm.tsx:85-89 | "required" exactly when blank after trim; "invalid" exactly when not blank and the untrimmed text has no match; otherwise no error |
| AuthForm.PasswordError | src/components/auth/AuthForm.tsx:91-95 | "required" exactly when empty; too short exactly for lengths 1 to 5; no error from length 6 |
| AuthForm.FormErrors | src/components/auth/AuthForm.tsx:70-96 | only the five error fields can appear, and every message is non-empty |
| AuthForm.FormErrorsByField | src/components/auth/AuthForm.tsx:73-95 | each field's error is present exactly when its rule fails and carries that rule's message. Login mode has only email and password errors. |
| AuthForm.BuildErrors | src/components/auth/AuthForm.tsx:71-95 | the record built by successive assignments is `FormErrors` |
| AuthForm.NoErrorsIffRulesPass | src/components/auth/AuthForm.tsx:97-98 | the error record is empty exactly when every rule passes |
| AuthForm.AuthFormState.constructor | src/components/auth/AuthForm.tsx:20-31 | initial form data and no errors |
| AuthForm.AuthFormState.HandleChange | src/components/auth/AuthForm.tsx:33-45 | only the named field changes; only that field's error is removed |
| AuthForm.AuthFormState.HandleSelectChange | src/components/auth/AuthForm.tsx:47-49 | only `userType` changes; errors are kept |
| AuthForm.AuthFormState.ValidateForm | src/components/auth/AuthForm.tsx:70-99 | stores `FormErrors` of the current data and returns true exactly when every rule passes |
| AuthForm.AuthFormState.HandleSubmit | src/components/auth/AuthForm.tsx:101-131 | stops exactly when validation fails. Otherwise it requests a login with email and password, or a registration with names, email, password and user type. |
| FlightsPage.BareFlightMatchesOnId | src/pages/Flights.tsx:41-48 | without location or aircraft data a flight matches only on its id |
| FlightsPage.TextSearch | src/pages/Flights.tsx:34-51 | a blank term gives all flights. Otherwise an order-preserving subsequence holding exactly the flights matching the lower-cased, untrimmed term in id, location name or IATA code, or aircraft model, as many as match (repeated records are kept). |
| FlightsPage.FormSearch | src/pages/Flights.tsx:95-126 | no criteria gives all flights. Otherwise an order-preserving subsequence holding exactly the flights that pass `from`, `to` and the same-day test. |
| FlightsPage.FormSearchIsFilter | src/pages/Flights.tsx:95-101 | the early reset agrees with the filter: `FormSearch` always equals filtering by the condition |
| FlightsPage.SortFlights | src/pages/Flights.tsx:56-82 | a permutation, in non-decreasing departure time, arrival time or duration for the three keys, and unchanged for any other key |
| FlightsPage.SortFlightsIdempotent | src/pages/Flights.tsx:84-87 | sorting a sorted list changes nothing |
| FlightsPage.FlightsPageState.ReceiveFlights | src/pages/Flights.tsx:29-31 | all flights and the shown list become the fetched flights |
| FlightsPage.FlightsPageState.SetSearchTerm | src/pages/Flights.tsx:25 | only the term changes |
| FlightsPage.FlightsPageState.SetSortBy | src/pages/Flights.tsx:26 | only the sort key changes |
| FlightsPage.FlightsPageState.TextSearchEffect | src/pages/Flights.tsx:34-51 | the shown list becomes `TextSearch` of all flights and the term |
| FlightsPage.FlightsPageState.SortEffect | src/pages/Flights.tsx:54-88 | the shown list becomes its sorted copy. It reports an update exactly when the copy differs. |
| FlightsPage.SortEffectSettles | src/pages/Flights.tsx:84-88 | a second run of the sort effect finds nothing to update, so the effect loop stops |
| FlightsPage.FlightsPageState.HandleSearch | src/pages/Flights.tsx:90-130 | the shown list becomes `FormSearch` of all flights; the term is cleared |
| FlightsPage.SearchThenTextEffect | src/pages/Flights.tsx:34-130 | after `handleSearch` the text-search effect runs exactly when the old term was not empty, and it then resets the shown list to all flights, discarding the form's result; otherwise the form's result stays |
| BookingsPage.VisibleBookings | src/pages/Bookings.tsx:39-45 | a Customer sees exactly their own bookings, in order and as many as there are; anyone else sees all bookings |
| BookingsPage.FilteredBookings | src/pages/Bookings.tsx:53-71 | an order-preserving subsequence holding exactly the bookings that pass the status filter and the text filter, as many as pass |
| BookingsPage.RendersNothing | src/pages/Bookings.tsx:74-76 | the page is blank without authentication or without a user |
| BookingsPage.RedirectEffect | src/pages/Bookings.tsx:26-30 | a redirect to `/login` exactly for an unauthenticated visitor |
| BookingsPage.Rendered | src/pages/Bookings.tsx:74-76 | nothing exactly when `RendersNothing`; otherwise the filtered list, and only with a user present |
| BookingsPage.BlankExactlyWhenRedirected | src/pages/Bookings.tsx:26-76 | with the session's `isAuthenticated`, the page is blank exactly when it redirects to `/login` |
| BookingsPage.BookingsPageState.constructor | src/pages/Bookings.tsx:20-23 | no bookings shown, empty term, status filter `'all'` |
| BookingsPage.BookingsPageState.UserEffect | src/pages/Bookings.tsx:34-49 | without a user nothing changes; otherwise both lists become the user's visible bookings |
| BookingsPage.BookingsPageState.SetSearchTerm | src/pages/Bookings.tsx:22 | only the term changes |
| BookingsPage.BookingsPageState.SetStatusFilter | src/pages/Bookings.tsx:23 | only the status filter changes |
| BookingsPage.BookingsPageState.FilterEffect | src/pages/Bookings.tsx:52-72 | the two successive filters, each skipped when inactive, store `FilteredBookings` |
| FlightDetails.CustomerIdOf | src/pages/FlightDetails.tsx:51 | defined only for a Customer viewer, and then the viewer's customer id |
| FlightDetails.UserBookings | src/pages/FlightDetails.tsx:52-56 | no bookings unless there is a non-empty customer id and the viewer is authenticated; then exactly the customer's bookings, in table order, as `CustomerBookings` gives them |
| FlightDetails.IsAlreadyBooked | src/pages/FlightDetails.tsx:58-60 | true exactly when some booking is for this flight and not cancelled |
| FlightDetails.CancelNeverBooks | src/pages/FlightDetails.tsx:58-60 | cancelling a booking never makes a flight count as booked when it did not before |
| FlightDetails.ConfirmBookingAction | src/pages/FlightDetails.tsx:184-194 | nothing is sent exactly without a customer id or flight id. Otherwise it sends that customer and flight, `Pending`, no agent. |
| FlightDetails.BookButton | src/pages/FlightDetails.tsx:346-358 | disabled exactly when already booked or pending. The label is "Processing..." while pending, "Already Booked" once booked, else "Book Now". |
| FlightDetails.FormattedDuration | src/pages/FlightDetails.tsx:171-174 | for a non-negative duration, the hours, `h `, the minutes 0..59 and `m` |
| FlightDetails.FlightDetailsState.constructor | src/pages/FlightDetails.tsx:39-41 | dialog closed, not confirmed, no error |
| FlightDetails.FlightDetailsState.HandleBookFlight | src/pages/FlightDetails.tsx:176-182 | without authentication or customer id, a redirect to `/login` from this flight and the dialog unchanged; otherwise the dialog opens |
| FlightDetails.FlightDetailsState.OnBookingSuccess | src/pages/FlightDetails.tsx:65-67 | confirmed and no error |
| FlightDetails.FlightDetailsState.OnBookingError | src/pages/FlightDetails.tsx:76-77 | the error message built from the failure |
| FlightDetails.FlightDetailsState.DialogEffect | src/pages/FlightDetails.tsx:86-93 | the reset timer is scheduled exactly when the dialog is closed; nothing changes |
| FlightDetails.FlightDetailsState.ResetAfterClose | src/pages/FlightDetails.tsx:88-91 | whatever the dialog state when the timer fires, confirmation and error are reset and the dialog is left as it is |
| FlightDetails.FlightDetailsState.GoToBookings | src/pages/FlightDetails.tsx:196-199 | closes the dialog and goes to `/bookings` |
| Dashboard.ShowsDashboard | src/pages/Dashboard.tsx:35-37 | the dashboard is shown only to an authenticated Employee |
| Dashboard.PriceOf | src/pages/Dashboard.tsx:44-45 | the price one booking adds to the revenue; what it is, is stated by `PriceOfFirstMatch` |
| Dashboard.PriceOfFirstMatch | src/pages/Dashboard.tsx:44-45 | the price of the first flight with the booking's flight id, and 0 when no flight has it or that flight has no price |
| Dashboard.RevenueFoldIsSum | src/pages/Dashboard.tsx:43-46 | the `reduce` from any start adds the plain sum of the prices of the bookings' flights |
| Dashboard.RevenueNonNegative | src/pages/Dashboard.tsx:43-46 | with no negative price the revenue is never negative |
| Dashboard.TotalRevenue | src/pages/Dashboard.tsx:43-46 | the sum over the bookings of their flight's price, 0 where no flight matches |
| Dashboard.StatusFoldKeys | src/pages/Dashboard.tsx:49-52 | a status is a key of the tally exactly when it was already there or occurs in the bookings |
| Dashboard.StatusFoldValues | src/pages/Dashboard.tsx:49-52 | each tally value is what it started with plus the number of bookings with that status |
| Dashboard.StatusFoldTotal | src/pages/Dashboard.tsx:49-52 | each booking adds exactly one to the tally's total |
| Dashboard.StatusCounts | src/pages/Dashboard.tsx:40-52 | exactly the statuses that occur, each with its number of bookings; the counts sum to `totalBookings` |
| Dashboard.RecentBookings | src/pages/Dashboard.tsx:55-57 | `min(5, n)` bookings drawn from the list, newest first. None left out is newer than one kept. |
| Dashboard.DashboardMetrics | src/pages/Dashboard.tsx:29-57 | nothing exactly for someone other than an authenticated Employee. Otherwise the booking, flight and customer totals are the list lengths, plus the revenue, status counts and recent bookings above. |
| FlightCard.TruncRem | src/components/flights/FlightCard.tsx:29 | the `%` remainder has the sign of the dividend, is smaller than the divisor in size, and differs from the dividend by a multiple of the divisor |
| FlightCard.DurationSplit | src/components/flights/FlightCard.tsx:27-29 | for a non-negative duration the minutes are 0..59 and `hours * 60 + minutes` is the whole minutes |
| FlightCard.NegativeDurationMinutes | src/components/flights/FlightCard.tsx:29 | for a negative duration the minutes lie in -60..0 |
| FlightCard.FormatDuration | src/components/flights/FlightCard.tsx:30 | for a non-negative duration, the hours' digits, `h `, the minutes' digits and `m` |
| FlightCard.FormatDurationRoundTrip | src/components/flights/FlightCard.tsx:27-30 | the text reads back as the hours and minutes it was built from |
| FlightCard.FirstTwoWords | src/components/flights/FlightCard.tsx:64 | the first two pieces of `split(' ')`, joined by a space; what that is as a prefix of the name is proved by `FirstTwoWordsCut` |
| FlightCard.SplitPieces | src/components/flights/FlightCard.tsx:64 | no piece of `split(' ')` holds a space |
| FlightCard.JoinSplit | src/components/flights/FlightCard.tsx:64 | joining the pieces of a split gives back the text |
| FlightCard.FirstTwoWordsCut | src/components/flights/FlightCard.tsx:64 | the displayed name is all of `Name` with fewer than two spaces, else its prefix before the second space |
| FlightCard.SecondSpaceCounts | src/components/flights/FlightCard.tsx:64 | there is a second space exactly when the name has two or more spaces, and the text before it holds exactly one |
| FlightCard.FirstTwoWordsIsPrefix | src/components/flights/FlightCard.tsx:64 | the displayed name is a prefix of `Name` with at most one space. It is all of `Name` exactly when `Name` has fewer than two spaces. |
| FlightSearchForm.InitialParams | src/components/flights/FlightSearchForm.tsx:28-35 | empty `from` and `to`, no dates, one passenger, one way |
| FlightSearchForm.IsDateDisabled | src/components/flights/FlightSearchForm.tsx:46-48 | a date is disabled exactly when it lies strictly before today's midnight, supplied in place of the clock |
| FlightSearchForm.ReturnDateDisabled | src/components/flights/FlightSearchForm.tsx:188-191 | disabled exactly when before today's midnight or before a chosen departure date |
| FlightSearchForm.AllowedReturnDate | src/components/flights/FlightSearchForm.tsx:188-191 | an allowed return date is not in the past and not before the departure date |
| FlightSearchForm.ShowReturnDate | src/components/flights/FlightSearchForm.tsx:162 | the return-date picker appears exactly for a round trip |
| FlightSearchForm.PassengerOptions | src/components/flights/FlightSearchForm.tsx:79 | the counts 1 to 6, in order |
| FlightSearchForm.SearchFormState.constructor | src/components/flights/FlightSearchForm.tsx:28-35 | the initial parameters |
| FlightSearchForm.SearchFormState.HandleChange | src/components/flights/FlightSearchForm.tsx:37-39 | only the named field takes the new value |
| FlightSearchForm.SearchFormState.HandleSubmit | src/components/flights/FlightSearchForm.tsx:41-44 | hands the current parameters over unchanged |
| Profile.FirstChar | src/pages/Profile.tsx:24 | at most one character. Empty exactly for an absent or empty name. Otherwise the name's first character. |
| Profile.GetInitials | src/pages/Profile.tsx:23-25 | at most two characters: the upper-cased first character of each present, non-empty name, first name first |
| Profile.View | src/pages/Profile.tsx:12-59 | loading exactly while loading. A redirect to `/login` exactly once loaded without an authenticated user. Otherwise the profile with the initials, email, type, and loyalty points exactly for a Customer record that has them. |
| Seqs.Filter | src/pages/Bookings.tsx:57 | an order-preserving subsequence holding exactly the elements that pass, as many as pass |
| Seqs.FilterFilter | src/pages/Bookings.tsx:53-69 | filtering twice is filtering once by the conjunction |
| Seqs.Find | src/api/flights.ts:65 | the first element that passes, or nothing exactly when none passes |
| Seqs.FindIndex | src/api/bookings.ts:86 | the position of the first element that passes, or -1 exactly when none passes |
| Seqs.SortBy | src/pages/Dashboard.tsx:55-56 | a permutation in non-decreasing key order |
| Seqs.SortByStable | src/pages/Flights.tsx:56-82 | the sort is stable: for every key, the elements with that key appear in the sorted list in their input order |
| Seqs.SortBySorted | src/pages/Flights.tsx:84-87 | a list already in key order is returned unchanged |
| Seqs.SortedPrefixIsSmallest | src/pages/Dashboard.tsx:55-57 | the first `k` of the sorted list come from the list, and none left out has a smaller key |

## Left out

- Simulated latency, `console.log`, promises and `async` plumbing, React Query caching and invalidation, and toasts: none of them changes the modelled state.
- React's effect scheduling: each effect is a method that the caller runs when its dependencies change, and the order in which React would run them is not modelled.
- Clocks: `new Date()` for booking and issue dates and "today at midnight" are parameters, and `toISOString` slicing is not modelled.
- The random number in the registered user id is a parameter below 10000; the id is `"USR"` and its padded digits.
- `localStorage` and `JSON.parse`/`JSON.stringify`: the stored user is a field that is absent, parseable or not parseable.
- `FlightsPage.FlightsPageState.SortEffect`: the `JSON.stringify` comparison is modelled as structural equality of the lists.
- The `FileReader` image preview and the `photoURL` update of `handleImageChange`: browser file I/O.
- date-fns formatting, `parseISO`, `formatDistanceToNow` and local time zones: times are integer milliseconds, and the calendar day of a timestamp (`getFullYear`/`getMonth`/`getDate`) is a function passed to `handleSearch`.
- Invalid dates (`NaN` timestamps) are not modelled.
- Floating point: `toFixed` on the revenue and the rounded percentages on the dashboard; prices are whole numbers.
- `Strings.ToUpper`, `Strings.ToLower`: case mapping covers ASCII letters only, so `Profile.GetInitials` has at most two characters for every input, where JavaScript can lengthen some non-ASCII letters.
- `AuthForm.PasswordError`, `Profile.FirstChar`, `Profile.GetInitials`: strings are sequences of Unicode code points, while JavaScript's `.length` and `[0]` count UTF-16 code units. A password of three emoji has length 6 in the source and 3 here, so the model reports it too short. A name starting with a character outside the Basic Multilingual Plane gives a lone surrogate as its initial in the source and the whole character here.
- `FlightDetails.FlightDetailsState.ResetAfterClose`: the 300 ms `setTimeout` delay is not modelled. The callback is a method the caller runs later; it may run after the dialog has been reopened, and its contract covers that state.
- `Seqs.SortBy`: the in-place sort of a copy is modelled on values, as a stable insertion sort; aliasing does not arise because the source sorts a copy.
- The `Duration` column of `Flight`: nothing in the modelled code reads it.
- `src/types/User.ts` and `src/types/Ticket.ts` are not part of this model; user types and ticket statuses are strings.
- `src/mockData.ts` contents are not modelled; its lists are parameters of the pages.
- Navigation targets other than those stated, and rendering in general (`Navbar.tsx`, `Footer.tsx`, `Index.tsx`, `App.tsx`, `BookingCard.tsx`): presentation only.
- There is no concurrency in the source.
