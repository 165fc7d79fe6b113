# Event booking platform — a verified Dafny model

This project models the service core of an event-booking web application, written in Dafny.
In the application, users register, publish events with a fixed number of seats, and book
them. A booking is created PENDING. Confirming it takes the seats from the event, prices it
and attaches a QR code. Cancelling it marks it CANCELLED. An analytics service keeps its own
copy of events, bookings and users and builds a dashboard from them.

The model covers the following parts:

- **Events** (`events.dfy`): the event repository. It models creation with a date check, the
  null-guarded partial update, deletion guarded by the "admin, or owner while seats remain"
  rule, the expiry sweep, and the view and analytics mappings.
- **Security** (`security.dfy`): the `isOwner` and `canEditOrDelete` predicates that guard
  the edit and delete endpoints.
- **Bookings** (`bookings.dfy`): the booking service.
  - Each operation is a step function on a `Ledger`, which holds both repositories. The
    `BookingService` class performs the same change in place and is proved equal to the step.
  - The seat accounting invariant says that available seats plus the seats held by CONFIRMED
    bookings never exceed the capacity. It is stated with a ghost sum over the bookings and
    proved to be preserved by every operation.
  - The booking lifecycle is PENDING → CONFIRMED → CANCELLED, or PENDING → CANCELLED.
- **Users** (`users.dfy`): the user registry. Registration keeps usernames and e-mails
  unique and makes the first user ADMIN. The model also covers profile updates, blocking
  and the login lookup that refuses blocked accounts.
- **Event pages** (`event_web.dfy`): the `canBook` and `canEditDelete` flags of the list and
  details pages, the date check of the forms, and the add, edit and delete handlers.
- **Booking pages** (`booking_web.dfy`): the seat guard before creation, the message shown
  for each confirm or cancel outcome, and the analytics record sent on confirmation.
- **Analytics** (`analytics.dfy`, `analytics_api.dfy`, `analytics_plain.dfy`,
  `dashboard.dfy`):
  - the analytics repositories, whose `save` inserts or replaces a row by id;
  - the two copies of the REST handlers, one of which checks its input;
  - the dashboard: seats grouped per event and per user, the top 3 events and top 5 users,
    and the events with at most 5 free seats.
- **Calendar link** (`calendar_link.dfy`): the Google Calendar link of a booking, and how it
  reads back.

Conventions used throughout:

- A UUID is a `nat` (`Uuid`) and a `LocalDateTime` is an `int` (`Instant`).
- Money is an `int` amount of cents.
- A Java `null` is `Option.None`.
- A thrown exception is the `Err` case of a `Result`, with one error constructor per
  exception kind.
- Values the code gets from collaborators are parameters: generated ids, the clock, the QR
  code, the encoded password and the AI description.

Where the prose description of the system and the code disagree, the model follows the
code:

- Events are deleted physically, both by `delete` and by the expiry sweep. They are not
  archived.
- A CANCELLED booking can be confirmed (see Findings).
- Cancelling a CONFIRMED booking does not give its seats back. `Bookings.CancelReleasesNothing`
  states this.

## Model

| member | source | states |
|---|---|---|
| Dtos.UserView | main-app/src/main/java/main/services/UserService.java:75-85 | the user view copies id, username, e-mail, name, age and creation time, and shows the role by its name |
| Events.EventService.FindById | main-app/src/main/java/main/services/EventService.java:29-36 | the stored event for a known id, EventNotFound exactly when the id is absent |
| Events.EventService.Save | main-app/src/main/java/main/services/EventService.java:42-44 | the repository afterwards holds the event under its id and nothing else changes |
| Events.EventService.Create | main-app/src/main/java/main/services/EventService.java:46-72 | a start strictly after the end is refused with the dates message and nothing is stored (equal dates are accepted); otherwise the new event is stored with available seats equal to total seats, the user as creator and the form's fields |
| Events.Edited | main-app/src/main/java/main/services/EventService.java:91-97 | each of name, description, dates, venue, location and price is overwritten exactly when the form gives it; id, creator, total and available seats never change |
| Events.EditIdempotent | main-app/src/main/java/main/services/EventService.java:91-97 | applying the same edit twice equals applying it once |
| Events.EmptyEditIsIdentity | main-app/src/main/java/main/services/EventService.java:91-97 | an edit form with every field empty leaves the event unchanged |
| Events.EventService.Update | main-app/src/main/java/main/services/EventService.java:74-103 | EventNotFound for an unknown id; both dates given with the start after the end is refused; otherwise the stored event becomes its edited version; a refusal changes nothing |
| Events.DeleteVerdict | main-app/src/main/java/main/services/EventService.java:147-154 | for an event with a creator, deletion is allowed iff the user is ADMIN or is the creator while seats remain, else AccessDenied with the service's message; for an event without a creator the null dereference fails |
| Events.EventService.Delete | main-app/src/main/java/main/services/EventService.java:138-158 | EventNotFound for an unknown id; otherwise the verdict decides: an allowed delete removes exactly that event, a refused one changes nothing |
| Events.DeleteVerdictNullSafe | main-app/src/main/java/main/services/EventService.java:147-154 | corrected verdict: allowed iff ADMIN, or creator present and equal to the user while seats remain |
| Events.NullSafeVerdictAgrees | main-app/src/main/java/main/services/EventService.java:147-151 | on every event with a creator the corrected verdict equals the written one |
| Events.AdminDeleteOfOwnerlessEventFails | main-app/src/main/java/main/services/EventService.java:148 | an ADMIN deleting an event without creator fails as written and is allowed by the corrected verdict |
| Events.Unexpired | main-app/src/main/java/main/services/EventService.java:174 | exactly the events whose end is not strictly before now are kept, unchanged |
| Events.EventService.RemoveExpiredEvents | main-app/src/main/java/main/services/EventService.java:171-175 | the repository becomes its unexpired part |
| Events.SweepsCompose | main-app/src/main/java/main/services/EventService.java:171-175 | sweeping at a and then at b equals one sweep at the later of the two |
| Events.MapToDTO | main-app/src/main/java/main/services/EventService.java:109-136 | the view's creator is absent iff the event has none and is otherwise the creator's user view; the other fields are copied; both flags are false |
| Events.MapToAnalytics | main-app/src/main/java/main/services/EventService.java:177-184 | id, name, total seats and price are carried over |
| Security.IsOwner | main-app/src/main/java/main/security/EventSecurity.java:15-21 | EventNotFound for an unknown event; false when the event has no creator; otherwise true iff the creator's id is the user id |
| Security.CanEditOrDelete | main-app/src/main/java/main/security/EventSecurity.java:23-32 | for a known event the answer is ADMIN role, or ownership while seats remain |
| Security.CanEditOrDeleteIsPermits | main-app/src/main/java/main/security/EventSecurity.java:27-31 | the guard equals the rule stated on the event alone |
| Security.AdminAlwaysPermitted | main-app/src/main/java/main/security/EventSecurity.java:27-31 | the ADMIN role is permitted on every existing event, whatever its seats and owner |
| Security.SoldOutRefusesNonAdmin | main-app/src/main/java/main/security/EventSecurity.java:29-31 | a non-admin, owner or not, is refused on an event with no seats left |
| Security.GuardAgreesWithDelete | main-app/src/main/java/main/security/EventSecurity.java:27-31 | for events with a creator, the guard's answer is exactly whether the service's delete would proceed |
| Security.GuardAgreesWithNullSafeDelete | main-app/src/main/java/main/security/EventSecurity.java:17-19 | for every event, the guard agrees with the corrected delete verdict |
| Bookings.CreateStep | main-app/src/main/java/main/services/BookingService.java:33-54 | more seats than available fail with NoAvailableSeats and change nothing; otherwise a PENDING booking for that user, event and seat count, unpriced and without QR code, is added; with the stored event, event seats are untouched |
| Bookings.ConfirmStep | main-app/src/main/java/main/services/BookingService.java:57-97 | NotFoundBooking, then AlreadyConfirmed, then EventNotFound for a missing event, then the seat re-check with its message; once those pass, it succeeds iff a QR code was produced (QrGenerationFailed otherwise); a failure changes nothing; success takes exactly the booked seats from the event (never below 0) and makes the booking CONFIRMED with price × seats and the QR code |
| Bookings.CancelStep | main-app/src/main/java/main/services/BookingService.java:100-120 | NotFoundBooking, AlreadyCancelled for a cancelled booking, otherwise the booking becomes CANCELLED; events never change |
| Bookings.SoundMeansCapacityRespected | main-app/src/main/java/main/services/BookingService.java:73-78 | under the accounting invariants every event has 0 ≤ available ≤ total and 0 ≤ confirmed seats ≤ total |
| Bookings.CreateKeepsAccounting | main-app/src/main/java/main/services/BookingService.java:36-50 | creation with a new id keeps seats non-negative and accounted for any seat count, because it reserves nothing |
| Bookings.CreateKeepsSound | main-app/src/main/java/main/services/BookingService.java:36-50 | creation of at least one seat keeps all accounting invariants |
| Bookings.ConfirmKeepsTotals | main-app/src/main/java/main/services/BookingService.java:78-83 | confirmation moves seats from available to held: available plus confirmed seats is unchanged for every event |
| Bookings.ConfirmKeepsSound | main-app/src/main/java/main/services/BookingService.java:73-93 | confirmation keeps all accounting invariants |
| Bookings.CancelReleasesNothing | main-app/src/main/java/main/services/BookingService.java:114 | cancelling leaves events unchanged and drops the cancelled booking's held seats from the confirmed total |
| Bookings.CancelKeepsSound | main-app/src/main/java/main/services/BookingService.java:109-116 | cancellation keeps all accounting invariants |
| Bookings.ConfirmTwiceRefused | main-app/src/main/java/main/services/BookingService.java:66-69 | after a successful confirmation a second one fails with AlreadyConfirmed and changes nothing, so seats are taken once |
| Bookings.CreateRespectsLifecycle | main-app/src/main/java/main/services/BookingService.java:41-49 | creation under a new id keeps every booking and its status |
| Bookings.CancelRespectsLifecycle | main-app/src/main/java/main/services/BookingService.java:109-116 | cancellation only makes lifecycle moves |
| Bookings.CancelledBookingIsConfirmed | main-app/src/main/java/main/services/BookingService.java:66 | as written, a CANCELLED booking with enough seats is confirmed, leaving the lifecycle |
| Bookings.CreateCheckedStep | main-app/src/main/java/main/services/BookingService.java:36 | corrected creation: fewer than one seat is refused with InvalidSeats, otherwise as written |
| Bookings.CreateCheckedKeepsSound | main-app/src/main/java/main/services/BookingService.java:36 | the corrected creation keeps all accounting invariants for every seat count |
| Bookings.ConfirmCheckedStep | main-app/src/main/java/main/services/BookingService.java:66 | corrected confirmation: a CANCELLED booking is refused with AlreadyCancelled, otherwise as written |
| Bookings.ConfirmCheckedRespectsLifecycle | main-app/src/main/java/main/services/BookingService.java:66 | the corrected confirmation only makes lifecycle moves |
| Bookings.NegativeBookingOverfills | main-app/src/main/java/main/services/BookingService.java:36 | as written, a booking of -2 seats on a 10-seat event passes, breaks the invariants, and its confirmation leaves 12 seats available |
| Bookings.MapToDTO | main-app/src/main/java/main/services/BookingService.java:141-149 | the analytics record carries id, event id, user id, seats and the total price |
| Bookings.BookingService.GetBooking | main-app/src/main/java/main/services/BookingService.java:130-133 | the stored booking, NotFoundBooking exactly when absent |
| Bookings.BookingService.CreateBooking | main-app/src/main/java/main/services/BookingService.java:32-54 | result and new repositories are those of the creation step; the invariants are kept for a stored event and at least one seat |
| Bookings.BookingService.CreateBookingChecked | main-app/src/main/java/main/services/BookingService.java:36-39 | result and new repositories are those of the corrected step; the invariants are kept for any seat count |
| Bookings.BookingService.ConfirmBooking | main-app/src/main/java/main/services/BookingService.java:56-97 | result and new repositories are those of the confirmation step; the invariants are kept |
| Bookings.BookingService.ConfirmBookingChecked | main-app/src/main/java/main/services/BookingService.java:66-69 | result and new repositories are those of the corrected step; the invariants are kept |
| Bookings.BookingService.CancelBooking | main-app/src/main/java/main/services/BookingService.java:99-120 | result and new repositories are those of the cancellation step; the invariants are kept |
| Users.Find | main-app/src/main/java/main/services/UserService.java:43-49 | the first stored user matching id, username or e-mail; none iff no user matches |
| Users.FindById | main-app/src/main/java/main/services/UserService.java:33-36 | a stored user with that id, UserNotFound exactly when none exists |
| Users.FindByUsername | main-app/src/main/java/main/services/UserService.java:38-41 | a stored user with that username, UserNotFound exactly when none exists |
| Users.LoadUserByUsername | main-app/src/main/java/main/services/UserService.java:113-129 | unknown names fail, a blocked account fails, a success is an active stored user's data |
| Users.UserService.Register | main-app/src/main/java/main/services/UserService.java:55-73 | taken username refused first, then taken e-mail, nothing saved; otherwise an active user is appended, ADMIN iff the table was empty; uniqueness of usernames and e-mails is kept |
| Users.Updated | main-app/src/main/java/main/services/UserService.java:95-104 | only username, name and age of the matching user change; id, e-mail, password, role, active flag and creation time stay |
| Users.UserService.Update | main-app/src/main/java/main/services/UserService.java:95-104 | UserNotFound iff the id is unknown; the table becomes its updated version |
| Users.UpdateKeepsUniqueIds | main-app/src/main/java/main/services/UserService.java:100-102 | an update keeps user ids unique |
| Users.Toggled | main-app/src/main/java/main/services/UserService.java:106-110 | only the matching user's active flag flips |
| Users.UserService.ToggleBlockUser | main-app/src/main/java/main/services/UserService.java:106-110 | UserNotFound iff the id is unknown; the table becomes its toggled version |
| Users.ToggleTwiceRestores | main-app/src/main/java/main/services/UserService.java:106-110 | blocking twice restores the table |
| Users.BlockedUserCannotLogIn | main-app/src/main/java/main/services/UserService.java:123-125 | an active user can log in, and after being blocked the login fails with AccountBlocked |
| EventWeb.CanBook | main-app/src/main/java/main/web/EventController.java:74-76 | booking is offered iff seats are known and positive and the viewer is not the creator |
| EventWeb.ListEntry | main-app/src/main/java/main/web/EventController.java:67-88 | only the two flags differ from the service view; anonymous viewers keep both false; canBook iff seats remain and not the creator; canEditDelete iff the security rule permits |
| EventWeb.DetailsEntry | main-app/src/main/java/main/web/EventController.java:163-184 | only canBook is computed, for signed-in viewers; canEditDelete stays false |
| EventWeb.ListAndDetailsAgreeOnBooking | main-app/src/main/java/main/web/EventController.java:174-180 | list and details pages give every viewer the same canBook |
| EventWeb.ListFlagAgreesWithDelete | main-app/src/main/java/main/web/EventController.java:79-80 | for events with a creator, the list flag equals whether the service's delete would proceed |
| EventWeb.EditCheckAgreesWithService | main-app/src/main/java/main/web/EventController.java:223-228 | the form's end-before-start check refuses exactly what the service's update refuses |
| EventWeb.CreateFailureText | main-app/src/main/java/main/web/EventController.java:151-158 | an argument error shows its own text, any other failure the generic message |
| EventWeb.AddEvent | main-app/src/main/java/main/web/EventController.java:111-161 | the description action only returns the form, with the generated text if any; binding errors, a missing date or an end before the start show the form and create nothing; otherwise exactly one event is added under the new id, carrying the form's name, description, dates, venue, location and price, all seats available, owned by the user, and the page redirects with the success message |
| EventWeb.Guard | main-app/src/main/java/main/web/EventController.java:186 | EventNotFound for an unknown event; otherwise allowed iff the security rule permits the signed-in user, else AccessDenied |
| EventWeb.EditEvent | main-app/src/main/java/main/web/EventController.java:215-241 | a refused guard changes nothing; binding errors or inverted dates show the form; otherwise the event becomes its edited version and the page redirects |
| EventWeb.DeleteEvent | main-app/src/main/java/main/web/EventController.java:243-254 | a refused guard changes nothing; for an event with a creator a permitted delete removes it; an event without a creator still fails in the service |
| BookingWeb.CreateBooking | main-app/src/main/java/main/web/BookingController.java:63-90 | an unknown event propagates EventNotFound; binding errors or a seat count ≤ 0 or above the available seats show the form and book nothing; otherwise the booking is created with exactly the requested seats; the accounting invariants are always kept |
| BookingWeb.ConfirmMessage | main-app/src/main/java/main/web/BookingController.java:155-163 | not-found and already-confirmed get their messages, an illegal state shows its own message, any other failure the generic one, success the confirmation message |
| BookingWeb.NotEnoughSeatsIsExplained | main-app/src/main/java/main/web/BookingController.java:159-160 | a confirmation refused for lack of seats shows the service's explanation |
| BookingWeb.AnalyticsSummary | main-app/src/main/java/main/web/BookingController.java:139-144 | the record sent on confirmation equals the service's analytics mapping of the booking |
| BookingWeb.ConfirmBooking | main-app/src/main/java/main/web/BookingController.java:104-166 | the state is that of the confirmation step; the message is the mapped outcome; a record is sent iff the confirmation succeeded, and it is the booking's analytics record |
| BookingWeb.CancelMessage | main-app/src/main/java/main/web/BookingController.java:184-203 | success, not-found and already-cancelled get their messages, anything else the generic one |
| BookingWeb.CancelNeverShowsGenericMessage | main-app/src/main/java/main/web/BookingController.java:195-201 | every outcome the cancel service can produce has its specific message |
| BookingWeb.CancelBooking | main-app/src/main/java/main/web/BookingController.java:184-203 | the state is that of the cancellation step and the message the mapped outcome |
| Analytics.Saved | microservice/src/main/java/main/service/EventService.java:15-17 | save inserts or replaces by id: the row is stored, rows with other ids stay in place, the size grows by one iff the id was new |
| Analytics.SaveIdempotent | microservice/src/main/java/main/service/BookingService.java:15-17 | saving the same row twice stores it once |
| Analytics.AnalyticsStore.SaveEvent | microservice/src/main/java/main/service/EventService.java:15-17 | the events become their saved version; the other tables stay |
| Analytics.AnalyticsStore.SaveBooking | microservice/src/main/java/main/service/BookingService.java:15-17 | the bookings become their saved version; the other tables stay |
| Analytics.AnalyticsStore.SaveUser | microservice/src/main/java/main/service/UserService.java:15-17 | the users become their saved version; the other tables stay |
| AnalyticsApi.AddEvent | microservice/src/main/java/main/web/AnalyticsController.java:119-130 | negative total seats refused and nothing stored; zero and more accepted and stored as sent; stored data stays well formed |
| AnalyticsApi.ConfirmBooking | microservice/src/main/java/main/web/AnalyticsController.java:146-157 | a negative price refused and nothing stored; otherwise the fields stored unchanged; stored data stays well formed |
| AnalyticsApi.AddUser | microservice/src/main/java/main/web/AnalyticsController.java:170-176 | the user is saved; stored data stays well formed |
| AnalyticsPlain.AddEvent | microservice/src/main/java/main/controller/AnalyticsController.java:111-115 | any event, negative seats included, is stored as sent |
| AnalyticsPlain.ConfirmBooking | microservice/src/main/java/main/controller/AnalyticsController.java:130-134 | any booking, negative price included, is stored as sent |
| AnalyticsPlain.AddUser | microservice/src/main/java/main/controller/AnalyticsController.java:146-150 | the user is saved |
| Dashboard.GroupSums | microservice/src/main/java/main/web/AnalyticsController.java:63-67 | the grouped map has a key exactly for the keys some booking carries |
| Dashboard.GroupSumsAgree | microservice/src/main/java/main/web/AnalyticsController.java:82-90 | reading the grouped map with default 0 equals filtering the bookings by key and summing their seats |
| Dashboard.Insert | microservice/src/main/java/main/web/AnalyticsController.java:57 | inserting into a non-increasing list keeps it non-increasing and adds exactly that entry |
| Dashboard.SortDesc | microservice/src/main/java/main/web/AnalyticsController.java:57 | the sorted list is non-increasing and a permutation of its input |
| Dashboard.Top | microservice/src/main/java/main/web/AnalyticsController.java:57-58 | min(n, size) entries, non-increasing, drawn from the input, and none left out is larger than one kept |
| Dashboard.TopEvents | microservice/src/main/java/main/web/AnalyticsController.java:46-59 | min(3, events) entries, non-increasing, a sub-multiset of the per-event tallies (each an event's name with the sum of its bookings' seats, no event listed more often than it occurs); no tally left out is larger than one kept |
| Dashboard.TopUsers | microservice/src/main/java/main/web/AnalyticsController.java:63-78 | min(5, users) entries, non-increasing, a sub-multiset of the per-user tallies (each a username with the sum of that user's seats, 0 without bookings); no tally left out is larger than one kept |
| Dashboard.UnbookedUserCountsZero | microservice/src/main/java/main/web/AnalyticsController.java:73 | a user with no bookings is ranked with 0 |
| Dashboard.Warnings | microservice/src/main/java/main/web/AnalyticsController.java:88-98 | every row is some event's row with at most 5 free seats, every such event's row appears, and there are at most as many rows as events |
| Dashboard.WarningsOfOne | microservice/src/main/java/main/web/AnalyticsController.java:97 | a single event yields its row once when at or under the threshold and nothing otherwise; with WarningsKeepOrder this pins the warnings to the ordered filter of the event list |
| Dashboard.WarningsKeepOrder | microservice/src/main/java/main/web/AnalyticsController.java:97-98 | the warnings keep event-list order: warnings of a concatenation are the concatenated warnings |
| Dashboard.WarningRowsAgree | microservice/src/main/java/main/web/AnalyticsController.java:85-86 | free seats read through the grouped map equal capacity minus the seats summed directly |
| Dashboard.SeatWarnings | microservice/src/main/java/main/controller/AnalyticsController.java:77-93 | every warning has at most 5 free seats, computed as capacity minus all seats booked for the event, every such event appears, and there are at most as many warnings as events |
| Dashboard.GetDashboard | microservice/src/main/java/main/web/AnalyticsController.java:33-104 | counts are the table sizes; the top events and top users are the 3 and 5 largest tallies, ordered, drawn from the tallies, with nothing left out larger; every warning is an event's row with at most 5 free seats (capacity minus all seats booked), every such event appears, and there are at most as many warnings as events |
| CalendarLink.ReplaceSpaces | main-app/src/main/java/main/services/BookingReminderService.java:52-53 | every space becomes `+`, every other character stays, and no space remains |
| CalendarLink.GoogleCalendarLink | main-app/src/main/java/main/services/BookingReminderService.java:47-61 | the link starts with the fixed calendar address and `text=` |
| CalendarLink.LinkParts | main-app/src/main/java/main/services/BookingReminderService.java:57-60 | a link built from text, dates and details reads back as those three values in that order, when the first two hold no `&` |
| CalendarLink.GoogleCalendarLinkParts | main-app/src/main/java/main/services/BookingReminderService.java:57-60 | without `&` in the title and timestamps, the link reads back as the encoded title, `start/end`, and the encoded description |
| CalendarLink.ReplaceSpacesRoundTrip | main-app/src/main/java/main/services/BookingReminderService.java:52-53 | form decoding undoes the replacement for text without `+` and `%` |
| CalendarLink.AmpersandTitleBreaksLink | main-app/src/main/java/main/services/BookingReminderService.java:52 | as written, the title `R&B` produces a link that does not read back |
| CalendarLink.PlusInTitleReadsAsSpace | main-app/src/main/java/main/services/BookingReminderService.java:52 | as written, the title `C++` reads back as `C` followed by two spaces |
| CalendarLink.EncodeComponent | main-app/src/main/java/main/services/BookingReminderService.java:55-56 | the escaped value holds no `&` and no space |
| CalendarLink.EncodeComponentRoundTrip | main-app/src/main/java/main/services/BookingReminderService.java:55-56 | form decoding an escaped value gives back every string |
| CalendarLink.CorrectedLinkRoundTrip | main-app/src/main/java/main/services/BookingReminderService.java:55-60 | any title and description read back unchanged from the corrected link, with the dates as `start/end` |

## Left out

- Transactions and concurrency are not modelled. Every operation is one atomic, sequential
  call. QR generation failing mid-confirmation is modelled as "nothing is committed".
- Floating point is not modelled.
  - Prices and totals are integer cents.
  - The dashboard's `totalRevenue` sum of doubles is not modelled.
- Bookings.ConfirmStep: the total price is the exact product of price and seats. Double
  rounding is not modelled.
- Dashboard.SumFor: the sums are unbounded integers. The 32-bit wrap-around of Java's
  `summingInt` and `sum()` is not modelled.
- Dashboard.GroupSums: same as above; wrap-around is not modelled.
- Seat counts elsewhere are also unbounded. `available - seats` cannot wrap past the 32-bit
  range in the model.
- Dashboard.SortDesc: the proof covers order and permutation only. It is written as a
  stable insertion, like Java's stable sort, but stability itself is not proved.
- QR image generation is out: the QR code is a parameter, and `None` means the generator
  failed.
- PDF generation and file download are out, as are the AI description service (its text is
  a parameter) and Google OAuth.
- The Google Calendar event insertion is commented out in the source and not modelled.
- The notification templates are not modelled.
- CalendarLink.GoogleCalendarLink: the timestamps are opaque strings. The `java.time`
  formatter and the UTC conversion are not modelled.
- CalendarLink.EncodeComponent: escapes only space, `+`, `&`, `%` and `#`. Full
  `URLEncoder` behaviour (UTF-8 percent-encoding of every other reserved character) is not
  modelled.
- The Feign analytics client call is not modelled. `BookingWeb.ConfirmBooking` returns the
  record it would send. `EventWeb.AddEvent` does not send the analytics event.
- The admin-dashboard and analytics pass-through controllers are not modelled.
- The caching of upcoming events is not modelled: `getUpcomingEvents` discards its query.
- The scheduler is not modelled. `RemoveExpiredEvents` takes "now" as a parameter.
- `findUpcomingEvents` is a repository query whose body is not visible. The list page is
  modelled per event by `EventWeb.ListEntry`.
- Deletion is modelled as the code does it: physical removal from the repository. The
  application's tests expect events to be archived instead.
- JPA relations and cascades are not modelled. Bookings refer to their event and user by
  id. A booking whose event has since been deleted fails to confirm with EventNotFound and
  changes nothing.
- `createBooking` saves the event object it is given. The model stores that value under its
  id.
- Password encoding is a parameter: `Register` receives the encoded password.
- Spring Security authentication and the principal lookups are not modelled. Handlers
  receive the signed-in `User`.
- Bean validation annotations are reduced to a `bindingErrors` flag, plus the null-date
  check on the add form. `@Future`, `@Size` and `@Positive` are not evaluated.
- Bookings.CreateStep: entity-level validation is not modelled. The `@Min(1)` constraint on
  `Booking.seatsBooked` would probably make the repository save refuse a booking of fewer
  than one seat. `CreateStep` accepts such seat counts, as the service code itself does.
- Users.UserService.Update: like the source, it does not check that a new username is free.
  Username uniqueness is proved preserved by `Register` only.
- The following list and lookup pass-throughs are not modelled:
  - `findByUser`, `getAllBookings`, `findEventsByCreator` and `findAllUsers`;
  - `isUsernameTaken` and `isEmailTaken` (modelled through `Users.Find`);
  - `mapToAnalyticDTO`;
  - the analytics `getAllEvents`, `getAllBookings` and `getAllUsers`.
- The booking REST controller is not modelled. It calls `createBooking` directly, without
  the seat guard of the HTML controller.
- The GET cancel page and the booking form pages are not modelled. The GET cancel page
  cancels through the same service call as the POST one.
- After a successful confirmation, the confirm page also builds the PDF and the calendar
  link. A failure there shows the generic message although the booking stays confirmed.
  That path is not modelled.
- The microservice's repository `findAll` order is taken to be the order of the stored
  sequences.

## Findings

| source | as written | input that shows it | evidently intended | confidence | as-written member | corrected member |
|---|---|---|---|---|---|---|
| main-app/src/main/java/main/services/BookingService.java:36 | `createBooking` only refuses more seats than available, so zero or negative seat counts pass its own check; the REST controller calls it without a guard, but the `@Min(1)` constraint on `Booking.seatsBooked` (main-app/src/main/java/main copy/entities/Booking.java:34) would probably make the save at line 49 fail, so the stored -2 booking may not be reachable | event with 10 of 10 seats free; book -2 seats, then confirm: 12 seats free on a 10-seat event | refuse seat counts below 1 in the service, as the HTML controller does | low, not executed | Bookings.NegativeBookingOverfills | Bookings.CreateCheckedKeepsSound |
| main-app/src/main/java/main/services/BookingService.java:66 | `confirmBooking` refuses only CONFIRMED bookings, so a CANCELLED booking is confirmed and takes seats again | a CANCELLED booking whose event still has enough seats, with a QR code produced | refuse CANCELLED bookings too, keeping the PENDING → CONFIRMED → CANCELLED lifecycle | medium, not executed | Bookings.CancelledBookingIsConfirmed | Bookings.ConfirmCheckedRespectsLifecycle |
| main-app/src/main/java/main/services/EventService.java:148 | `delete` dereferences the creator before testing the role, so deleting an event without a creator fails even for an administrator | an event with no creator, deleted by an ADMIN | treat a missing creator as "not the owner", as `isOwner` does | medium, not executed | Events.AdminDeleteOfOwnerlessEventFails | Security.GuardAgreesWithNullSafeDelete |
| main-app/src/main/java/main/services/BookingReminderService.java:52-53 | only spaces are replaced, so `&`, `+` and `%` in the title or description reach the query unescaped | title `R&B`: the link no longer reads back; title `C++`: reads back as `C` and two spaces | URL-encode the values (the `URLEncoder` call left commented out next to it) | medium, not executed | CalendarLink.AmpersandTitleBreaksLink | CalendarLink.CorrectedLinkRoundTrip |
