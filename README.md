# Event_Horizon, modelled in Dafny

Event_Horizon is an event-ticketing application. Organizers publish events with a price and a seat count, and users book seats. The backend is Express and Mongoose; the client is React and Redux. This project models its core and proves properties of that model. It covers:

- **The three document schemas**: events, bookings and users. Each is a datatype with a validity predicate and a creation function that applies Mongoose's `required`, `min`, `enum`, `trim` and `default`.
- **The collections**: a `Database` class whose sequences hold the documents in insertion order. It keeps an invariant that every stored document satisfies its schema, identifiers are unique, and e-mail addresses are unique.
- **The controllers**:
  - booking an event, and listing one's bookings;
  - the organizer dashboard;
  - publishing an event and the three event queries;
  - sign-up and sign-in.
- **The two access gates**:
  - on the server, the bearer-token check and the role check;
  - in the client, the route guard.
- **The key-value cache**: the cache itself, its GET middleware and its key builders.
- **The error-response builders.**
- **Two client pieces**:
  - the authentication reducer, as a class whose methods update its fields;
  - the organizer's event form: its validator, its change handler and its submit gate.

Imperative code is modelled as methods with `modifies` clauses:
- the controllers that insert a document;
- `protect`, which sets `req.user`;
- the cache operations and middleware;
- the reducers;
- the form's handlers.

Each such method is proved against a pure function that decides the outcome, and the properties of that function are proved as lemmas. Lookups, filters and response builders are functions.

The JavaScript semantics the code relies on are written out:
- `String.prototype.trim`, `split` and `join`;
- `Number(s)` on decimal numerals, and `parseInt`;
- truthiness;
- `obj.key` on JSON, where the last duplicate member wins.

A JavaScript Number is a `real`, and NaN is `None`.

Foreign calls are parameters:
- bcrypt's `hash` and `compare`;
- jsonwebtoken's `sign` and `verify`;
- the clock (`now`);
- `NODE_ENV`;
- whether Redis answers;
- the outcome of the client's POST.

Where the code and its documentation differ, the model follows the code:
- `bookEvent` neither checks nor decrements `availableSeats`, and it saves bookings as `pending`.
- The catch-alls of `getBookByStatusbyUserId` and `getEventByUserId` answer with `res.json`, so they answer with status 200.
- `getEventById` answers 200 with `null` for an unknown identifier.
- `protect` tests `startsWith('Bearer')`, with no space, so a header such as `BearerX tok` passes the prefix test and `tok` goes to token verification.

## Model

| member | source | states |
|---|---|---|
| Schema.RequiredString | models/Event.js:5-8 | a required string path passes exactly when the value is present and non-empty |
| Schema.RequiredNumberAtLeast | models/Event.js:9-12 | a required number with a `min` passes exactly when it is present and at least the minimum |
| Schema.RequiredPresent | models/Event.js:7 | a required path with no other validator passes exactly when the value is present |
| JsStrings.TrimUnpadded | models/Event.js:5-6 | what the `trim: true` setter stores has no white space at either end |
| JsStrings.TrimIsTrimmedSlice | models/Event.js:5-6 | a trimmed string is a contiguous slice of the original, and everything dropped on either side is white space |
| JsStrings.TrimFixes | models/Event.js:5-6 | trimming leaves a string unchanged exactly when neither end is white space |
| JsStrings.TrimIdempotent | models/Event.js:5-6 | trimming twice is trimming once |
| JsStrings.JoinSplit | middlewares/authMiddleware.js:8 | `split(' ')` loses nothing: joining the pieces gives the header back |
| JsStrings.SplitPiecesFree | middlewares/authMiddleware.js:8 | no piece of a split contains the separator |
| JsStrings.SplitInTwo | middlewares/authMiddleware.js:8 | a header splits into two or more pieces exactly when it contains a space, so `[1]` is defined exactly then |
| JsNumbers.ParseIntTruncatesNumber | frontend/src/pages/organizer/CreateEvent.jsx:28-31 | on a decimal numeral with digits before the point, `Number` reads its value and `parseInt` reads that value truncated toward zero |
| EventModel.CreateEventSpec | models/Event.js:3-17 | `Event.create` succeeds exactly on fields that meet every `required` and `min`; the stored event satisfies the schema, keeps every value, trims title and description, and defaults `dynamicPrice` to false |
| EventModel.CreateFromFieldsRoundTrip | models/Event.js:3-17 | re-creating an event from its own fields gives it back exactly when it satisfies the schema |
| EventModel.AvailableSeatsUnbounded | models/Event.js:11-12 | the schema admits more available seats than total seats and stores them as given |
| BookingModel.ParseStatus | models/Booking.js:8 | the `enum` check accepts a string only when it names a status |
| BookingModel.StatusNameRoundTrip | models/Booking.js:8 | every status name reads back as its status |
| BookingModel.CreateBookingSpec | models/Booking.js:3-11 | saving succeeds exactly when seats ≥ 1, the amount is a number ≥ 0 and the status is one of the three names; the saved booking keeps every value and has no payment |
| UserModel.ParseRole | models/User.js:18-21 | the `enum` check accepts a string only when it names a role |
| UserModel.RoleNameRoundTrip | models/User.js:18-21 | every role name reads back as its role |
| UserModel.CreateUserSpec | models/User.js:4-23 | creation succeeds exactly when name, e-mail and password are non-empty and a given role is in the enum; an absent role defaults to `user` |
| Store.FindEvent | controllers/bookController.js:10 | `findById` returns a stored event with that id, or null exactly when there is none |
| Store.FindUserByEmail | controllers/authController.js:11 | `findOne({email})` returns the first stored user with that address, or null exactly when there is none |
| Store.FindUserById | middlewares/authMiddleware.js:10 | `findById` returns a stored user with that id, or null exactly when there is none |
| Store.Database.InsertEvent | controllers/eventController.js:19-30 | saving a valid event appends it and keeps the table invariant |
| Store.Database.InsertBooking | controllers/bookController.js:12 | saving a valid booking appends it and keeps the table invariant |
| Store.Database.InsertUser | models/User.js:9-13 | saving a user under a new address appends it and keeps addresses unique |
| BookController.BookingFor | controllers/bookController.js:5-19 | a booking is made exactly when there is a caller and a known event, and the seat count is ≥ 1 with a non-negative amount; it is `pending`, belongs to the caller and the path's event, and costs seats × the event's price |
| BookController.BookEvent | controllers/bookController.js:5-19 | 200 and exactly that booking appended, or 500 "Something went wrong" and nothing stored; users and events, including `availableSeats`, unchanged |
| BookController.BookingOnValidEvents | controllers/bookController.js:10-12 | over schema-valid events, booking fails only for want of a caller, a known event or a seat count ≥ 1 |
| BookController.BookingIgnoresAvailableSeats | controllers/bookController.js:10-12 | the outcome does not depend on the event's available seats |
| BookController.GetBookings | controllers/bookController.js:22-44 | status 200 always; the listing holds exactly the caller's bookings, narrowed to the status when one is given; without a caller, the "Something went wrong" message |
| BookController.ListingIsQuery | controllers/bookController.js:26-39 | the second in-memory filter removes nothing: the answer is the query's result, a subsequence of the store in store order |
| BookController.ListingAfterBooking | controllers/bookController.js:22-39 | a new pending booking appears at the end of its maker's listing, unfiltered or filtered by `pending` |
| OrganizerController.IdsOf | controllers/organizerController.js:11 | the ids of the events, position by position |
| OrganizerController.GetDashboardStats | controllers/organizerController.js:5-39 | with a caller: 200 and `success`, `totalEvents` = the number of the caller's events, and `upcomingEventsCount` = the length of `upcomingEvents` ≤ `totalEvents`; without: 500 "Failed to fetch dashboard stats" and `success: false` |
| OrganizerController.ReduceIsTotal | controllers/organizerController.js:21 | the left fold from 0 is the sum of the amounts |
| OrganizerController.ConsideredBookings | controllers/organizerController.js:10-17 | a booking is considered exactly when it is stored and made for one of the organizer's events |
| OrganizerController.RevenueIsTotal | controllers/organizerController.js:17-21 | `totalBookings` is the number of considered bookings and `totalRevenue` their total |
| OrganizerController.RevenueCountsCancelled | controllers/organizerController.js:21 | the revenue is the cancelled bookings' total plus the others': no status is excluded |
| OrganizerController.RevenueNonNegative | controllers/organizerController.js:21 | the revenue is ≥ 0 when every stored amount is |
| OrganizerController.UpcomingInOrder | controllers/organizerController.js:10-24 | the upcoming events are a subsequence of the organizer's events, in store order |
| OrganizerController.UpcomingSelection | controllers/organizerController.js:10-24 | the upcoming events are exactly the stored events owned by the organizer and dated after `now` |
| EventController.NewEvent | controllers/eventController.js:3-40 | an event is made exactly when there is a caller and the fields with the caller as owner are admissible; it is valid, owned by the caller, and keeps the price and both seat counts as supplied |
| EventController.OwnerFromCaller | controllers/eventController.js:17-29 | the `user` in the body has no effect on the outcome |
| EventController.CreateEvent | controllers/eventController.js:3-40 | 201 with the event, appended; or 500 with the reason, nothing stored; users and bookings unchanged |
| EventController.GetAllEvents | controllers/eventController.js:42-50 | 200 with every stored event, in store order |
| EventController.GetEventById | controllers/eventController.js:52-62 | 200 with the event with that id, or with null exactly when none has it (never 404); 500 for a malformed id |
| EventController.GetEventByUserId | controllers/eventController.js:64-73 | 200 with exactly the caller's events; without a caller, 200 with "Something went wrong" |
| EventController.CreatedEventIsFound | controllers/eventController.js:52-69 | after a creation, `getEventById` finds the new event and it ends its owner's list |
| AuthController.NewUser | controllers/authController.js:8-24 | "already exists" exactly when some stored user has the address; success exactly when the address is new and the schema accepts; the stored password is `hash(password)` and the role is the body's, defaulting to `user` |
| AuthController.SignUpKeepsEmailsUnique | controllers/authController.js:11-16 | a successful sign-up keeps addresses pairwise distinct |
| AuthController.SignUp | controllers/authController.js:8-24 | 201 with a message only and the user appended; 400 "User already exists" or 500, and the table unchanged |
| AuthController.SignIn | controllers/authController.js:26-44 | 404 exactly for an unknown address; otherwise, for the first user with that address: 500 "Something went wrong" when no password is sent, 400 "Invalid credentials" when `compare` rejects the password, and 200 with a token signed over that user's id and address when it accepts |
| AuthController.SignUpThenSignIn | controllers/authController.js:15-38 | a user who just signed up signs in with the same credentials and gets the token for the new id |
| AuthMiddleware.BearerToken | middlewares/authMiddleware.js:8 | the second space-separated field, which holds no space; undefined exactly when the header has no space |
| AuthMiddleware.BearerRoundTrip | middlewares/authMiddleware.js:6-8 | `Bearer <token>` passes the prefix test and yields the token back |
| AuthMiddleware.Authenticate | middlewares/authMiddleware.js:4-19 | "no token" exactly when the header is missing or lacks the prefix; "token failed" exactly when there is no second field, it is empty, or `verify` throws; otherwise the user with the verified id, without the password, or null exactly when there is none |
| AuthMiddleware.Protect | middlewares/authMiddleware.js:4-19 | on success `req.user` is set and `next` is called; otherwise a 401 with that message and the request unchanged |
| AuthMiddleware.SignedInUserPasses | middlewares/authMiddleware.js:6-11 | a header carrying a verified token of a stored user lets that user through |
| AuthMiddleware.EmptyBearerFails | middlewares/authMiddleware.js:6-14 | the header `Bearer ` carries an empty token and is refused with "token failed", whatever `verify` is |
| AuthMiddleware.RoleBasedAccess | middlewares/authMiddleware.js:21-29 | `next` exactly when the user's role is listed; a 403 otherwise; a throw when there is no user |
| AuthMiddleware.OrganizerRoutes | middlewares/authMiddleware.js:23 | `["organizer"]` admits exactly organizers |
| Cache.Lookup | utils/cache.js:20-36 | `get` returns the stored value when Redis answers and the key is set; otherwise null |
| Cache.CacheStore.Set | utils/cache.js:6-17 | afterwards `get(key)` gives the value and every other key is unchanged; nothing changes when Redis is down |
| Cache.CacheStore.Del | utils/cache.js:39-49 | afterwards `get(key)` gives null and every other key is unchanged |
| Cache.CacheStore.Clear | utils/cache.js:52-62 | afterwards every key gives null |
| Cache.Middleware | utils/cache.js:66-95 | non-GET requests pass to `next` with the cache untouched; a truthy cached value under "cache:" + URL is sent without `next`; otherwise `next` runs and its body is stored under that key |
| Cache.KeysInjective | utils/cache.js:98-104 | each key builder gives different identifiers different keys |
| Cache.KeysDisjoint | utils/cache.js:72-104 | keys from different builders never collide, and none is a middleware key |
| ErrorHandler.HandleError | utils/errorHandler.js:2-21 | the given status, or 500; `success: false`; the given message, or "Something went wrong" |
| ErrorHandler.DetailsOnlyInDevelopment | utils/errorHandler.js:9-12 | `error` and `stack` are in the body exactly when `NODE_ENV` is "development" |
| ErrorHandler.Messages | utils/errorHandler.js:25 | one message per validation entry, in entry order |
| ErrorHandler.HandleValidationError | utils/errorHandler.js:24-31 | 400 with "Validation failed", `success: false` and the entries' messages in order |
| ErrorHandler.HandleNotFoundError | utils/errorHandler.js:34-39 | 404 with "<resource> not found", where the resource defaults to "Resource" |
| ErrorHandler.HandleUnauthorizedError | utils/errorHandler.js:42-47 | 401 with the message, defaulting to "Unauthorized access" |
| AuthSlice.AuthState.constructor | frontend/src/store/authSlice.js:56-65 | authenticated exactly when a non-empty token is stored; no user, not loading, no error |
| AuthSlice.AuthState.Logout | frontend/src/store/authSlice.js:71-77 | user, token, stored token and error cleared; not authenticated; `loading` kept |
| AuthSlice.AuthState.ClearError | frontend/src/store/authSlice.js:78-80 | only the error changes, to null |
| AuthSlice.AuthState.CredentialsPending | frontend/src/store/authSlice.js:85-88 | loading, and the error cleared (signUp and signIn) |
| AuthSlice.PayloadUser | frontend/src/store/authSlice.js:91 | `payload.user` is a user exactly when present and not null, and is then the payload's value |
| AuthSlice.AuthState.CredentialsFulfilled | frontend/src/store/authSlice.js:89-94 | not loading; authenticated whatever the payload; user and token taken from the payload |
| AuthSlice.AuthState.CredentialsRejected | frontend/src/store/authSlice.js:95-98 | not loading; the error is the payload; user, token and authentication kept |
| AuthSlice.AuthState.LoadUserPending | frontend/src/store/authSlice.js:115-117 | loading, with the error kept |
| AuthSlice.AuthState.LoadUserFulfilled | frontend/src/store/authSlice.js:118-122 | not loading; authenticated; the user from the payload; the token kept |
| AuthSlice.AuthState.LoadUserRejected | frontend/src/store/authSlice.js:123-129 | signed out, and the stored token removed |
| AuthSlice.SignUpReplyHasNoToken | frontend/src/store/authSlice.js:89-93 | the body the server sends after sign-up yields no user and no token |
| ProtectedRoute.Guard | frontend/src/components/ProtectedRoute.jsx:5-24 | the spinner exactly while loading; the login redirect exactly when loaded and unauthenticated; the children exactly when authenticated and the role list is empty or holds the user's role |
| ProtectedRoute.NoUserOnlyPassesDefault | frontend/src/components/ProtectedRoute.jsx:20-22 | an authenticated state with no user passes only the default guard |
| ProtectedRoute.OrganizerPages | frontend/src/components/ProtectedRoute.jsx:20 | the organizer guard admits exactly users whose role is "organizer" |
| CreateEventPage.ChangedForm | frontend/src/pages/organizer/CreateEvent.jsx:59-62 | the named field takes `checked` or `value`; no other field changes |
| CreateEventPage.ChangedErrors | frontend/src/pages/organizer/CreateEvent.jsx:63-65 | the named field's message, if any, becomes ""; no other entry changes |
| CreateEventPage.NotedShows | frontend/src/pages/organizer/CreateEvent.jsx:24-33 | setting one more field's message keeps the errors equal to the messages found so far |
| CreateEventPage.TextErrorsShown | frontend/src/pages/organizer/CreateEvent.jsx:24-27 | after the four text checks, the errors are exactly their messages |
| CreateEventPage.PriceErrorsShown | frontend/src/pages/organizer/CreateEvent.jsx:28 | the same after the price check |
| CreateEventPage.TotalErrorsShown | frontend/src/pages/organizer/CreateEvent.jsx:29 | the same after the total seats check |
| CreateEventPage.CollectedShows | frontend/src/pages/organizer/CreateEvent.jsx:22-33 | the collected errors are exactly one message per failing field, and nothing else |
| CreateEventPage.Page.constructor | frontend/src/pages/organizer/CreateEvent.jsx:7-19 | the initial form, no errors, not loading |
| CreateEventPage.Page.ValidateForm | frontend/src/pages/organizer/CreateEvent.jsx:22-37 | the shown errors are exactly the failing fields' messages; the result is true exactly when the form is valid |
| CreateEventPage.Page.HandleSubmit | frontend/src/pages/organizer/CreateEvent.jsx:39-55 | posts exactly when validation passes; on a post, navigates exactly on success, shows a non-empty server message under `submit`, and ends not loading |
| CreateEventPage.Page.HandleChange | frontend/src/pages/organizer/CreateEvent.jsx:57-66 | the form and errors become `ChangedForm` and `ChangedErrors` of the old ones |
| CreateEventPage.ShownErrorsEmpty | frontend/src/pages/organizer/CreateEvent.jsx:35-36 | shown errors are empty exactly when the form is valid |
| CreateEventPage.ValidIff | frontend/src/pages/organizer/CreateEvent.jsx:24-33 | valid exactly when the text fields are filled, the price is given and not below 0, the total is given and not below 1, and the available seats are given, not below 0 and not above the total as integers |
| CreateEventPage.UncheckedFieldsNeverErr | frontend/src/pages/organizer/CreateEvent.jsx:22-37 | `image`, `dynamicPrice` and every other unchecked name never carry a message |
| CreateEventPage.ErrorsAreLocal | frontend/src/pages/organizer/CreateEvent.jsx:24-33 | changing one field leaves every other field's message as it was, except that the total also affects the available seats |
| CreateEventPage.NumeralReadings | frontend/src/pages/organizer/CreateEvent.jsx:28-31 | a numeral compares as its value and reads through `parseInt` as that value truncated |
| CreateEventPage.NumeralPriceAccepted | frontend/src/pages/organizer/CreateEvent.jsx:28 | every numeral price of value ≥ 0, "0" among them, is accepted |
| CreateEventPage.ExceedOverrides | frontend/src/pages/organizer/CreateEvent.jsx:30-33 | when the available seats exceed the total, their message is "cannot exceed", whatever else is wrong |
| CreateEventPage.ExceedsTruncated | frontend/src/pages/organizer/CreateEvent.jsx:31 | for numerals, the seat comparison is between the values truncated toward zero |
| CreateEventPage.InitialFormErrs | frontend/src/pages/organizer/CreateEvent.jsx:7-17 | the initial form fails every checked field |

## Left out

- Floating point: a JavaScript Number is a `real`, so rounding, overflow, Infinity and `-0` are not modelled. NaN is `None`.
- `Number(s)` reads decimal numerals only: a sign, digits, and an optional point and fraction. Exponents, hexadecimal, binary, octal and `Infinity` give NaN in the model, where JavaScript gives a number. `parseInt` reads the sign and the leading decimal digits, as JavaScript does, so "1e3" reads 1 and "12abc" reads 12. On hexadecimal "0x…" the model's `parseInt` reads only the leading "0", where JavaScript reads the hexadecimal value. White space is JavaScript's set without the Unicode space separators other than U+0020 and U+00A0.
- Mongoose and MongoDB plumbing is not modelled:
  - `populate`;
  - casting of request values;
  - the exact text of validation messages (a validation failure carries a list of issues);
  - the `timestamps` fields and `createdAt` on events.
  
  Identifiers come from one counter. A malformed id is a separate `None` argument.
- bcrypt, jsonwebtoken, the secret and the token expiry: `hash`, `compare`, `sign` and `verify` are function parameters. A throwing `hash` is not modelled, apart from a missing password.
- `signUp` with an e-mail already taken by a concurrent request is not modelled: the unique index's failure path is not modelled, because a single request checks the address before inserting.
- Redis:
  - TTL expiry (entries never expire);
  - the connection's readiness guard, which is always false as written and never short-circuits;
  - values that are not JSON. `JSON.stringify` followed by `JSON.parse` is the identity.
  
  Whether Redis answers is a boolean parameter.
- Cache.Middleware: the replaced `res.json` is modelled as storing the handler's body and then sending it. The response status is not cached, and the asynchronous `set` is taken to complete before the next request.
- The client's thunks are not modelled: their network calls, their `localStorage.setItem` and their error extraction. Only the reducers are modelled, with the payload a parameter.
- `console.log` and `console.error` output, rendering, navigation side effects other than a flag, and React's batching of `setState`.
- CreateEventPage.Page.ValidateForm applies each field's check in source order through `FieldError`. The two writes to `availableSeats` are one step whose "cannot exceed" message wins.
- CreateEventPage.Page.HandleSubmit: the POST's outcome is a parameter. Only a string `message` in the error body is modelled.
- Unexported functions (`orgazinerBooking`), the functions the routes import but the controllers do not export, `models/Payment.js` and `utils/createTicketPdf.js`: the first two are not reachable; the last two are not called by the core.
- Concurrency and the interleaving of asynchronous requests.
