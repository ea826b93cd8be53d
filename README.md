# Booking and offer logic of the livemybike shop backend, in Dafny

This project models the booking core of a bike-rental marketplace backend:

- **Bookings** (`bookings.dfy`): the booking entity. A booking is created for
  an offer, a requester and an interval of days. Creation validates its
  arguments and normalises `from` to the start of its day and `to` to the end
  of its day. A booking then moves REQUEST → APPROVED → CANCELED → REQUEST.
  Each transition is guarded by the actor: only the offer owner approves; the
  owner or the requester cancels; only the requester reopens. A refused
  transition fails with an invalid-state-transition error and leaves the
  state as it was. The class `Booking` keeps `state` as a mutable field;
  `Next` is the transition table the methods are proved against.
- **BookingService** (`booking_service.dfy`): the booking service over an
  in-memory repository (`BookingStore`: a `map<int, BookingRecord>` and the
  next id). `RequestBooking` refuses a booking whose inclusive interval
  overlaps an APPROVED booking of the same offer. Bookings still in REQUEST
  never conflict. An accepted booking is stored under a fresh positive id in
  state REQUEST. `ApproveBooking` and `CancelBooking` load a booking by id
  into a `Booking` object, run its transition for the given actor, and store
  it again. The lemmas show which operations keep "no two APPROVED bookings of
  one offer overlap". Requesting and canceling keep it. Approving does not
  re-check conflicts, so approving can break it, and `ApprovalCanBreakNoOverlap`
  exhibits how.
- **OffersService** (`offers_service.dfy`): helpers of the offer service.
  - `GetBookedDaysForInterval` lists the days an offer is booked within a
    window. Each approved booking is clamped to the window, and its days are
    appended one at a time by a loop. The method is proved equal to the
    specification `BookedDays`, and the lemmas about `DayRun` and `BookedDays`
    state what the list holds.
  - `ListOffers` says which of four repository queries an offer search
    issues, and `GetPage` gives the page request it uses.
  - `GenderFiltersList` splits a gender filter into one-character strings.
  - `CreateOffer` fills a new offer from its arguments and image files.
  - `GetOfferBookings` gives an offer's bookings to its owner only.
- **Dates** (`dates.dfy`) and **Results** (`results.dfy`): dates are integer
  milliseconds with a fixed 86 400 000 ms day. Null references become
  `Option`, and exceptions become the `Error` cases of `Result`/`Outcome`.

The current time ("today") and the current user (the "actor") are
parameters. The accounts and offers a booking refers to are compared by id.
The methods `Bookings.LifecycleScenario` and `BookingService.ServiceScenario`
walk through one booking lifecycle and one service scenario against these
contracts.

The `Booking` entity and `BookingService` are modelled from their tests
(`BookingTest.java`, `BookingServiceTest.java`). Creation also refuses a
`from` before the current day, the rule the test
`requestBookingFromInThePastNotAllowed` (BookingTest.java:48) is named for.
That test itself builds `to` before `from`, so it exercises the `to < from`
rejection.

## Model

| member | source | states |
|---|---|---|
| `Dates.BeginningOfDay` | src/test/java/com/livemybike/shop/offers/booking/BookingTest.java:31 | the result is a day start, at or before `t` and less than a day before it |
| `Dates.EndOfDay` | src/test/java/com/livemybike/shop/offers/booking/BookingTest.java:32 | the result is the last millisecond of a day, at or after `t` and less than a day after it |
| `Dates.Late` | src/main/java/com/livemybike/shop/offers/OffersServiceImpl.java:156 | the result is one of the two dates and not before either |
| `Dates.Early` | src/main/java/com/livemybike/shop/offers/OffersServiceImpl.java:157 | the result is one of the two dates and not after either |
| `Dates.NormalisedOrder` | src/test/java/com/livemybike/shop/offers/booking/BookingTest.java:21-36 | for `f <= t`, the start of `f`'s day lies strictly before the end of `t`'s day |
| `Bookings.CheckRequest` | src/test/java/com/livemybike/shop/offers/booking/BookingTest.java:21-91 | creation succeeds iff from, to, offer and requester are all given, `to` is not before `from`, and `from` is not before today; every failure is an illegal argument; on success the state is REQUEST, offer and requester are stored unchanged, `from` is the start of its own day, `to` is the end of its own day, and `from < to` (the normalised start of the first day lies before the end of the last) |
| `Bookings.Booking.constructor` | src/test/java/com/livemybike/shop/offers/booking/BookingTest.java:15-19 | the no-argument booking is in REQUEST |
| `Bookings.Booking.Create` | src/test/java/com/livemybike/shop/offers/booking/BookingTest.java:21-91 | a fresh booking whose row is the validated, normalised request, or an illegal-argument failure exactly when validation fails |
| `Bookings.ApproveGuard` | src/test/java/com/livemybike/shop/offers/booking/BookingTest.java:93-123 | approve is allowed iff the booking is in REQUEST and the actor is the owner, and leads to APPROVED |
| `Bookings.CancelGuard` | src/test/java/com/livemybike/shop/offers/booking/BookingTest.java:125-182 | cancel is allowed iff the booking is not CANCELED and the actor is the owner or the requester, and leads to CANCELED; canceling a CANCELED booking always fails |
| `Bookings.ReopenGuard` | src/test/java/com/livemybike/shop/offers/booking/BookingTest.java:184-220 | reopen is allowed iff the booking is CANCELED and the actor is the requester, and leads to REQUEST |
| `Bookings.TransitionsMove` | src/test/java/com/livemybike/shop/offers/booking/BookingTest.java:93-220 | an allowed transition always changes the state |
| `Bookings.Booking.Approve` | src/test/java/com/livemybike/shop/offers/booking/BookingTest.java:93-123 | passes iff the old state is REQUEST and the actor owns the offer; on success the state is APPROVED; on failure the error is an invalid state transition and the state is unchanged; agrees with `Next`; only `state` is modified |
| `Bookings.Booking.Cancel` | src/test/java/com/livemybike/shop/offers/booking/BookingTest.java:125-182 | passes iff the old state is not CANCELED and the actor is the owner or the requester; on success the state is CANCELED; otherwise an invalid state transition with the state unchanged; agrees with `Next` |
| `Bookings.Booking.Reopen` | src/test/java/com/livemybike/shop/offers/booking/BookingTest.java:184-220 | passes iff the old state is CANCELED and the actor is the requester; on success the state is REQUEST; otherwise an invalid state transition with the state unchanged; agrees with `Next` |
| `BookingService.OverlapsSymmetric` | src/test/java/com/livemybike/shop/offers/booking/BookingServiceTest.java:91-125 | overlap of two bookings is symmetric |
| `BookingService.OverlapsIffSharedInstant` | src/test/java/com/livemybike/shop/offers/booking/BookingServiceTest.java:91-161 | two well-formed intervals overlap iff some instant lies in both |
| `BookingService.DayBookingsOverlap` | src/test/java/com/livemybike/shop/offers/booking/BookingServiceTest.java:91-161 | two whole-day bookings overlap iff their day ranges intersect |
| `BookingService.ConflictCases` | src/test/java/com/livemybike/shop/offers/booking/BookingServiceTest.java:73-161 | an APPROVED 3..7 blocks 2..5 and 4..5; an APPROVED 2..5 or 4..5 blocks 3..7; a REQUEST 3..7 blocks nothing; an APPROVED 3..7 does not block 8..10 |
| `BookingService.StoreRequestKeepsNoOverlap` | src/test/java/com/livemybike/shop/offers/booking/BookingServiceTest.java:59-89 | storing a booking in REQUEST keeps "no two APPROVED bookings of one offer overlap" |
| `BookingService.CancelKeepsNoOverlap` | src/test/java/com/livemybike/shop/offers/booking/BookingServiceTest.java:180-213 | canceling a stored booking keeps the no-overlap invariant |
| `BookingService.ApproveUnblockedKeepsNoOverlap` | src/test/java/com/livemybike/shop/offers/booking/BookingServiceTest.java:163-178 | approving a REQUEST booking that no APPROVED booking blocks keeps the no-overlap invariant |
| `BookingService.ApprovalCanBreakNoOverlap` | src/test/java/com/livemybike/shop/offers/booking/BookingServiceTest.java:73-89 | two accepted REQUEST bookings for the same days satisfy the invariant, yet approving both breaks it, because approval does not re-check conflicts |
| `BookingService.BookingStore.constructor` | src/test/java/com/livemybike/shop/offers/booking/BookingServiceTest.java:59-71 | an empty repository whose first id is 1 |
| `BookingService.BookingStore.RequestBooking` | src/test/java/com/livemybike/shop/offers/booking/BookingServiceTest.java:59-161 | succeeds iff no APPROVED booking of the same offer overlaps the candidate; on success the candidate is stored under a fresh positive id in REQUEST and nothing else changes; on conflict an invalid-booking failure with the repository unchanged; keeps the no-overlap invariant |
| `BookingService.BookingStore.ApproveBooking` | src/test/java/com/livemybike/shop/offers/booking/BookingServiceTest.java:163-178 | an unknown id is not found; otherwise succeeds iff the booking is in REQUEST and the actor owns its offer, and then only that booking's stored state becomes APPROVED; a failure changes nothing |
| `BookingService.BookingStore.CancelBooking` | src/test/java/com/livemybike/shop/offers/booking/BookingServiceTest.java:180-213 | an unknown id is not found; otherwise succeeds iff the booking is not CANCELED and the actor is its owner or requester, and then only that booking's stored state becomes CANCELED; keeps the no-overlap invariant |
| `OffersService.ImageFieldsAsWritten` | src/main/java/com/livemybike/shop/offers/OffersServiceImpl.java:78-110 | as written, image fields are produced iff the array is present, has exactly 6 entries and a non-null first entry; a missing, empty or over-long array is an illegal argument; 1 to 6 entries with a null first one are a null-pointer failure; 1 to 5 entries with a first file fail out of bounds; on success slot k holds file k's name |
| `OffersService.ImageFields` | src/main/java/com/livemybike/shop/offers/OffersServiceImpl.java:78-110 | intended rule: succeeds iff 1 to 6 entries with a non-null first one; a missing, empty or over-long array is an illegal argument; slot k holds file k's name if that file exists, else stays unset; image0 is always set |
| `OffersService.SingleImageRejectedAsWritten` | src/main/java/com/livemybike/shop/offers/OffersServiceImpl.java:78-110 | a one-image offer fails out of bounds as written, and the intended rule sets image0 only |
| `OffersService.ImageFieldsExtendAsWritten` | src/main/java/com/livemybike/shop/offers/OffersServiceImpl.java:78-110 | wherever the code as written succeeds, the intended rule gives the same fields; they differ only where the code fails out of bounds on a short array; wherever the intended rule fails, the code as written fails with the same error |
| `OffersService.SetImageNames` | src/main/java/com/livemybike/shop/offers/OffersServiceImpl.java:94-110 | field k is set to the name of file k when that file is present, and is otherwise left as it was |
| `OffersService.CreateOffer` | src/main/java/com/livemybike/shop/offers/OffersServiceImpl.java:72-117 | fails exactly as the intended image rule does; on success a fresh offer owned by the current user, with every text field as given, the intended image fields, and no bookings |
| `OffersService.GetOfferBookings` | src/main/java/com/livemybike/shop/offers/OffersServiceImpl.java:126-137 | an unknown offer is an illegal argument; otherwise succeeds iff the current user owns the offer, else an authorization failure; success returns the offer's bookings |
| `OffersService.DayRunAt` | src/main/java/com/livemybike/shop/offers/OffersServiceImpl.java:158-163 | the k-th emitted date is `start + k` days and lies in `[start, end)` |
| `OffersService.DayRunSteps` | src/main/java/com/livemybike/shop/offers/OffersServiceImpl.java:156-163 | a run is non-empty iff start is before end; it begins at start; consecutive dates are exactly one day apart |
| `OffersService.DayRunMembers` | src/main/java/com/livemybike/shop/offers/OffersServiceImpl.java:156-163 | an instant is emitted iff it is a whole number of days after start and before end |
| `OffersService.ClampedRunInWindow` | src/main/java/com/livemybike/shop/offers/OffersServiceImpl.java:155-163 | every date a booking contributes is a day start, no earlier than the start of the later of (booking from, window start), and no later than the earlier of (booking to, window end) |
| `OffersService.EmptyClamp` | src/main/java/com/livemybike/shop/offers/OffersServiceImpl.java:156-158 | a booking whose clamped start is not before its clamped end contributes nothing |
| `OffersService.BookedDaysMembers` | src/main/java/com/livemybike/shop/offers/OffersServiceImpl.java:153-165 | a date is reported iff some booking's clamped run contains it |
| `OffersService.BookedDaysAppend` | src/main/java/com/livemybike/shop/offers/OffersServiceImpl.java:153-165 | the report for bookings plus one more is the earlier report followed by the new booking's whole run (duplicates kept, booking order kept) |
| `OffersService.GetBookedDaysForInterval` | src/main/java/com/livemybike/shop/offers/OffersServiceImpl.java:145-166 | fails with an illegal argument iff the offer is unknown or either window end is missing; otherwise returns exactly `BookedDays` of the approved bookings |
| `OffersService.GenderFiltersList` | src/main/java/com/livemybike/shop/offers/OffersServiceImpl.java:66-70 | one single-character string per input character, in order, same length |
| `OffersService.GenderFiltersJoin` | src/main/java/com/livemybike/shop/offers/OffersServiceImpl.java:66-70 | joining the split filter gives back the filter |
| `OffersService.GetPage` | src/main/java/com/livemybike/shop/offers/OffersServiceImpl.java:232-235 | succeeds iff the 32-bit index `pageNumber - 1` is not negative (pageNumber at least 1, or the wrapping minimum int); size 12, descending by id; page index `pageNumber - 1` |
| `OffersService.ListOffers` | src/main/java/com/livemybike/shop/offers/OffersServiceImpl.java:46-64 | exactly one of four queries, chosen by which of gender filter and location are empty (both directions); the gender queries get the split filter; the location query passes the location as both city and postcode; every query uses `GetPage(pageNumber)` |

## Findings

| source | as written | input that shows it | evidently intended | confidence | as-written member | corrected member |
|---|---|---|---|---|---|---|
| src/main/java/com/livemybike/shop/offers/OffersServiceImpl.java:78-110 | the image array is checked to hold 1 to 6 entries, then `images[1]` .. `images[5]` are indexed unconditionally | an array holding one non-null image passes the check at line 78 and then fails out of bounds at line 96 | offers with 1 to 6 images are accepted; missing slots leave their fields unset | high; not executed | `OffersService.ImageFieldsAsWritten` (shown by `OffersService.SingleImageRejectedAsWritten`) | `OffersService.ImageFields` (used by `OffersService.CreateOffer`) |

## Left out

- Image storage (`storeImages`, `resizeAndStoreToS3`) resizes files and uploads them to S3; this is I/O.
- `convertToDto`, `smallImageName` and `mediumImageName` depend on ModelMapper and on ImageUtil, and ImageUtil is not part of this model. `CreateOffer` returns the filled offer entity rather than a DTO.
- `offersRepo.save` in `createOffer` assigns the offer's id in the database. `CreateOffer` stops before saving.
- The price is kept as the given text. Parsing it into a BigDecimal, which can fail on malformed input, is not modelled.
- `listMyOffers` and `getOffer` are one repository lookup each, followed by DTO conversion; they are not modelled.
- `ListOffers` returns the query and page request it issues. The repository, the result page and its sorting are external.
- `GetPage` follows the page-index check of the paging library: a negative index fails with an illegal argument.
- The booking service's `findApprovedBookingByOfferInInterval` query is not modelled. Its result is the `approved` parameter of `GetBookedDaysForInterval`. A null offer id is not modelled.
- Calendar time zones and daylight-saving changes are not modelled: a day is a fixed 86 400 000 ms, and adding a calendar day adds that much.
- Authentication is not modelled: the current user or actor is a parameter, and offers and accounts are compared by id.
- Transactions and concurrent requests are not modelled. The conflict check and the insert are one step here.
- Reopening through the booking service is not exercised by the service tests, so the store has no reopen operation. The entity's `Reopen` is modelled.
- `ApproveBooking` and `CancelBooking` fail with "not found" for an unknown id. The service's own handling of a missing booking is not part of this model.
- `RequestBooking` stores a snapshot of the candidate. It does not write the new id back into the candidate object.
- The fields of a booking made by the no-argument constructor are null in the source and 0 here.
- An offer's `bookings` list is not kept in step with the booking store.
- `GenderFiltersList`: Java splits a string into UTF-16 code units, while Dafny characters are Unicode scalar values, so a character outside the Basic Multilingual Plane is one filter here and two in Java.
