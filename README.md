# SailingLoc mock service layer in Dafny

This project models the in-memory mock services of the SailingLoc boat-rental front end. Each service is a small store with its own state:

- **Availability** (`Availability.dfy`). The availability engine keeps a map from boat id to the periods its owner blocked by hand. For one boat it aggregates the bookings that are not cancelled and the blocked periods into one list ordered by start day, optionally restricted to a window of days. It decides whether a requested range of days is free, optionally ignoring one booking (a booking being rescheduled). Owners add and remove blocked periods, with a validation error and a not-found error.
- **Bookings** (`Bookings.dfy`). The booking ledger answers conjunctive filter queries. It supports create, merge-update and cancel. Creating a booking does not re-check availability.
- **Boats** (`Boats.dfy`). The boat catalogue answers a chain of optional search filters. It supports create (next id after the largest), merge-update and delete.
- **Users** (`Users.dfy`). The user directory derives an avatar from the initials of the name and owner counters from the role. It supports create, merge-update, delete and verify.
- **Reviews** (`Reviews.dfy`). The review store hands out ids from a counter and puts new reviews at the front. It answers the average rating and the most recent reviews.
- **Destinations** (`Destinations.dfy`). The destination catalogue is read-only: lookup, case-insensitive search, region and most popular.
- **Auth** (`Auth.dfy`). The session holds at most one signed-in user: login, register, logout.

`Common.dfy` holds the shared vocabulary:

- `Option` and `Result`;
- JavaScript truthiness of optional strings (`Given`, `OrDefault`);
- `filter`, `find` and `findIndex`, `splice(i, 1)` and `slice(0, n)`, including a negative `n`;
- a stable sort by key;
- `Math.max`;
- ASCII case folding and substring search;
- decimal writing of integers.

How the stores are modelled:

- A service whose methods update fields is a Dafny `class`. Its array is a `seq` field, and its map of blocked periods is a `map` field.
- Most queries are functions that read the object. `getUnavailableDates`, `getUnavailablePeriods` and `checkAvailability` build their answer with loops and are methods: each is proved equal to a function of its inputs. Updates are methods whose postconditions give the new state in terms of the old one.
- Dates are day numbers (`Day = int`).
- Values the code draws from the clock or from `Math.random` are parameters of the operation that uses them: booking ids, blocked-period ids, timestamps and the token stamp.
- Module-level data that a service reads directly is also a parameter: the bookings read by the availability engine, the boats read by `createBooking`, and the users read by the login.
- The date helpers `validateBookingDates` and `checkDateRangeOverlap` live in `utils/dateValidation`, which is not part of this model. They are passed in as functions, and their boundaries are left open.

## Model

| member | source | states |
|---|---|---|
| Availability.AvailabilityService.BlockedFor | services/mock/MockAvailabilityService.ts:95 | A boat's blocked list is its stored list, or empty when none is stored. |
| Availability.AvailabilityService.GetUnavailableDates | services/mock/MockAvailabilityService.ts:55-116 | The two gathering loops followed by the sort yield exactly `Aggregate` of the bookings and the boat's blocked list. |
| Availability.Aggregate | services/mock/MockAvailabilityService.ts:113-115 | The aggregated list is sorted ascending by start day and is a permutation (same multiset) of the kept booking entries followed by the kept blocked periods. |
| Availability.AggregateSound | services/mock/MockAvailabilityService.ts:66-111 | Every aggregated period is either the entry of a booking of that boat that is not cancelled and lies in the window, or one of the boat's blocked periods that lies in the window. |
| Availability.AggregateComplete | services/mock/MockAvailabilityService.ts:66-111 | Every booking of the boat that is not cancelled and lies in the window has its entry in the list, and so does every blocked period in the window. |
| Availability.BookingEntry | services/mock/MockAvailabilityService.ts:83-90 | A booking entry has type booking, the booking id as reference, the status as reason and the booking's own days, unclipped. |
| Availability.BookingPeriodsComeFromBookings | services/mock/MockAvailabilityService.ts:66-91 | Given the store's invariant, a booking-type period in the list belongs to a booking of that boat that is not cancelled: same id, same status, same days. |
| Availability.AvailabilityService.GetUnavailablePeriods | services/mock/MockAvailabilityService.ts:118-121 | Without a window, the list holds the entry of every booking of the boat that is not cancelled and every blocked period of the boat. |
| Availability.OverlapIffConflict | services/mock/MockAvailabilityService.ts:32-52 | After the exclusion, some period of the aggregated list overlaps the request exactly when some booking or blocked period of the boat, in the request's window and not excluded, overlaps it. |
| Availability.OverlapIsConflict | services/mock/MockAvailabilityService.ts:35-52 | An overlapping period left after the exclusion always comes from a conflicting booking or blocked period of the boat. |
| Availability.ConflictIsOverlap | services/mock/MockAvailabilityService.ts:35-52 | A conflicting booking or blocked period that is not excluded is always found overlapping in the checked list. |
| Availability.Remaining | services/mock/MockAvailabilityService.ts:35-37 | The exclusion drops exactly the periods whose reference is the excluded id; every other period is still checked. An absent or empty id excludes nothing. |
| Availability.AvailabilityService.CheckAvailability | services/mock/MockAvailabilityService.ts:13-53 | A range the validator rejects gets `isAvailable = false` with the validator's message, whatever the periods. A valid range is available exactly when there is no conflict, and the message says which case applies. |
| Availability.InvalidMessage | services/mock/MockAvailabilityService.ts:26 | The refusal message is the validator's error when it is a non-empty string, otherwise "Dates invalides". |
| Availability.AvailabilityService.AddUnavailablePeriod | services/mock/MockAvailabilityService.ts:123-148 | Invalid dates: an error, and the store is unchanged. Otherwise: exactly one blocked period, with reason defaulting to "Bloqué", is appended to that boat's list only. The store keeps holding blocked periods only. |
| Availability.AvailabilityService.BlockPeriod | services/mock/MockAvailabilityService.ts:166-191 | The same as adding a period for the boat the request names, answering true. |
| Availability.AvailabilityService.RemoveUnavailablePeriod | services/mock/MockAvailabilityService.ts:150-164 | When some blocked period of the boat starts on that day, every such period is removed from that boat's list only. Otherwise the answer is "Période non trouvée" and the store is unchanged. |
| Availability.WithoutStart | services/mock/MockAvailabilityService.ts:155-158 | Keeps every occurrence of each period that does not start on that day and none of the others, in their original order. It keeps them all exactly when none starts on that day. |
| Availability.AvailabilityService.UnblockPeriod | services/mock/MockAvailabilityService.ts:193-201 | Always answers true. |
| Bookings.BookingService.GetBookings | services/mock/MockBookingService.ts:12-41 | The filter chain keeps exactly the bookings that pass every supplied criterion at once. No filters returns the whole ledger. |
| Bookings.GetBookingsKeepsOrder | services/mock/MockBookingService.ts:16-40 | A ledger query is an order-preserving subsequence of the ledger. |
| Bookings.DateFiltersBound | services/mock/MockBookingService.ts:31-37 | A returned booking starts on or after the start filter and ends on or before the end filter. |
| Bookings.BookingService.GetBookingById | services/mock/MockBookingService.ts:43-49 | Null exactly when no booking has that id; otherwise the first booking with it. |
| Bookings.BookingService.CreateBooking | services/mock/MockBookingService.ts:51-79 | Unknown boat: "Boat not found" and the ledger is unchanged. Otherwise exactly one confirmed booking is appended, with the boat's name, image and owner copied and the request's days, prices and renter. No availability check. |
| Bookings.BookingService.UpdateBooking | services/mock/MockBookingService.ts:81-94 | Unknown id: "Booking not found" and nothing changes. Otherwise only that index is replaced by the merged record, and the length is unchanged. |
| Bookings.Merge | services/mock/MockBookingService.ts:90 | The merged record carries the patch's id. |
| Bookings.BookingService.CancelBooking | services/mock/MockBookingService.ts:96-107 | Unknown id: "Booking not found" and nothing changes. Otherwise only that booking's status becomes "cancelled". |
| Bookings.CancelAt | services/mock/MockBookingService.ts:105 | Cancelling sets the status at that index to cancelled and changes no other field of that booking; every other booking is left as it was. |
| Bookings.CancelIsIdempotent | services/mock/MockBookingService.ts:96-107 | Cancelling the same id twice finds the same booking and leaves the ledger as after the first cancellation. |
| Common.IndexOf | services/mock/MockBookingService.ts:100 | The first index whose key is the one sought, or -1 exactly when no element has it. It is the `findIndex` by id of the booking, boat and user services. |
| Bookings.BookingService.GetBookingsByRenter | services/mock/MockBookingService.ts:109-114 | Exactly the renter's bookings, each as often as it occurs in the ledger, in ledger order. |
| Bookings.BookingService.GetBookingsByOwner | services/mock/MockBookingService.ts:116-121 | Exactly the owner's bookings, each as often as it occurs in the ledger, in ledger order. |
| Boats.BoatService.GetBoats | services/mock/MockBoatService.ts:13-52 | The filter chain keeps exactly the boats that pass every supplied criterion at once. No filters returns the whole catalogue. |
| Boats.GetBoatsKeepsOrder | services/mock/MockBoatService.ts:19-51 | A catalogue query is an order-preserving subsequence of the catalogue. |
| Boats.LocationIgnoresCase | services/mock/MockBoatService.ts:22-26 | A location query selects the same boats whatever the case of its letters. |
| Boats.MatchesIgnoresLocationCase | services/mock/MockBoatService.ts:22-26 | One boat passes a query with a lower-cased location exactly when it passes the query as given. |
| Boats.DestinationNeedsDestination | services/mock/MockBoatService.ts:28-32 | A destination query never returns a boat without a destination. |
| Boats.TypeAllIsNoFilter | services/mock/MockBoatService.ts:34-36 | The type "all" selects the same boats as no type. |
| Boats.NumericBoundsInclusive | services/mock/MockBoatService.ts:38-48 | A returned boat satisfies `priceMin <= price <= priceMax` and `capacity >= capacityMin`, bounds included. |
| Boats.BoatService.GetBoatById | services/mock/MockBoatService.ts:54-60 | Null exactly when no boat has that id; otherwise the first boat with it. |
| Boats.BoatService.CreateBoat | services/mock/MockBoatService.ts:62-77 | The new boat is appended with id one past the largest, so its id exceeds every existing id. It has rating and review count 0, owner name "Nouveau Propriétaire" and the submitted fields. Distinct ids stay distinct. |
| Boats.OwnerAvatar | services/mock/MockBoatService.ts:71 | The owner avatar is the first one or two characters of the owner id written in decimal. |
| Boats.BoatService.UpdateBoat | services/mock/MockBoatService.ts:79-92 | Unknown id: "Boat not found" and nothing changes. Otherwise only that index is replaced by the merged boat, and the length is unchanged. |
| Boats.Merge | services/mock/MockBoatService.ts:88 | The merged boat carries the patch's id and keeps its rating, review count and owner name and avatar, which an update cannot carry. |
| Boats.MergeIdempotent | services/mock/MockBoatService.ts:88 | Applying the same update twice gives the same boat as applying it once. |
| Boats.BoatService.DeleteBoat | services/mock/MockBoatService.ts:94-105 | False with the catalogue unchanged when no boat has the id. Otherwise exactly the first such boat is removed, and the length drops by one. |
| Boats.BoatService.GetBoatsByOwner | services/mock/MockBoatService.ts:107-112 | Exactly the owner's boats, each as often as it occurs in the catalogue, in catalogue order. |
| Users.UserService.GetUsers | services/mock/MockUserService.ts:12-16 | A copy of the directory, element by element. |
| Users.UserService.GetUserById | services/mock/MockUserService.ts:18-24 | Null exactly when no account has that id; otherwise the first account with it. |
| Users.UserService.GetUserByEmail | services/mock/MockUserService.ts:26-32 | Null exactly when no account has that e-mail; otherwise the first account with it. |
| Users.UserService.CreateUser | services/mock/MockUserService.ts:34-54 | The new account is appended with id one past the largest. It is unverified, has no documents, carries the initials avatar and starts with owner counters. |
| Users.StartCounter | services/mock/MockUserService.ts:48-49 | The counters are 0 for an owner and absent for every other role. |
| Users.Avatar | services/mock/MockUserService.ts:43 | For every name, the avatar has one character per non-empty space-separated piece: the upper-cased first character of that piece, in order. Leading, trailing and doubled spaces contribute nothing. |
| Users.Initials | services/mock/MockUserService.ts:43 | The initials are the first characters of the non-empty pieces, one per piece, in order. When no piece is empty, that is one per piece. |
| Users.AvatarOfWords | services/mock/MockUserService.ts:43 | For words joined by single spaces, the avatar is the upper-cased first letter of each word, one per word. |
| Users.JoinSplit | services/mock/MockUserService.ts:43 | Joining the pieces of a split by the separator gives back the string. |
| Users.SplitJoin | services/mock/MockUserService.ts:43 | Splitting the join of pieces without the separator gives back the pieces. |
| Users.SplitPiecesHaveNoSeparator | services/mock/MockUserService.ts:43 | No piece of a split contains the separator. |
| Users.UserService.UpdateUser | services/mock/MockUserService.ts:56-69 | Unknown id: "User not found" and nothing changes. Otherwise only that index is replaced by the merged account, and the length is unchanged. |
| Users.Merge | services/mock/MockUserService.ts:65 | The merged account carries the patch's id. |
| Users.UserService.DeleteUser | services/mock/MockUserService.ts:71-82 | False with the directory unchanged when no account has the id. Otherwise exactly the first such account is removed. |
| Users.UserService.VerifyUser | services/mock/MockUserService.ts:84-95 | Unknown id: "User not found" and nothing changes. Otherwise only that account becomes verified. |
| Users.VerifyAt | services/mock/MockUserService.ts:93 | Verifying sets the flag at that index and leaves every other account and every id as it was. |
| Users.VerifyIsIdempotent | services/mock/MockUserService.ts:84-95 | Verifying the same id twice finds the same account and leaves the directory as after the first verification. |
| Reviews.ReviewService.constructor | services/mock/MockReviewService.ts:11-12 | The counter starts one past the largest initial id, so every stored id lies below it. |
| Reviews.ReviewService.GetAllReviews | services/mock/MockReviewService.ts:17-23 | A copy of the store, element by element. |
| Reviews.ReviewService.GetReviewsByBoatId | services/mock/MockReviewService.ts:28-34 | Exactly the boat's reviews, each as often as it occurs in the store, in store order. |
| Reviews.ReviewService.GetReviewById | services/mock/MockReviewService.ts:39-46 | Null exactly when no review has that id; otherwise the first review with it. |
| Reviews.ReviewService.CreateReview | services/mock/MockReviewService.ts:51-69 | The review takes the counter's id, which exceeds every stored id, and the counter moves on by one. The review is prepended. Name and avatar default to "Utilisateur" and "U". |
| Reviews.ReviewService.DeleteReview | services/mock/MockReviewService.ts:74-86 | False with the store unchanged when no review has the id. Otherwise exactly the first such review is removed. The counter is untouched. |
| Reviews.ReviewService.AverageRating | services/mock/MockReviewService.ts:91-104 | 0 for a boat without reviews. Otherwise the average times the number of reviews is the sum of their ratings. |
| Reviews.RatingSumBounds | services/mock/MockReviewService.ts:102 | A sum of ratings each between `lo` and `hi` lies between `lo` and `hi` times their number. |
| Reviews.AverageWithinRatings | services/mock/MockReviewService.ts:96-103 | The average lies between the lowest and highest rating the boat received. |
| Reviews.ReviewService.GetRecentReviews | services/mock/MockReviewService.ts:109-120 | With a limit of 0 or more (default 10), returns `min(limit, size)` reviews; a negative limit `n` returns `max(size + n, 0)`, dropping that many from the end as `slice` does. The reviews come newest date first. They are a prefix of a stably sorted copy and a sub-multiset of the store, which is not reordered. |
| Destinations.GetAllDestinations | services/mock/MockDestinationService.ts:14-21 | A copy of the catalogue, element by element. |
| Destinations.GetDestinationById | services/mock/MockDestinationService.ts:26-33 | Null exactly when no destination has that id; otherwise the first destination with it. |
| Destinations.SearchDestinations | services/mock/MockDestinationService.ts:38-53 | An empty query returns everything. Otherwise exactly the destinations whose name, country or description contains the query, ignoring case, each as often as it occurs in the catalogue. |
| Destinations.SearchKeepsOrder | services/mock/MockDestinationService.ts:47-52 | Search results keep catalogue order. |
| Destinations.SearchFindsByName | services/mock/MockDestinationService.ts:47-52 | Searching for a destination's own name finds it. |
| Destinations.SearchIgnoresCase | services/mock/MockDestinationService.ts:47-52 | Lower-casing the query does not change the result. |
| Destinations.GetDestinationsByRegion | services/mock/MockDestinationService.ts:58-67 | Exactly the destinations whose country equals the region, or whose name contains it, ignoring case. Each is kept as often as it occurs in the catalogue, and in catalogue order. |
| Destinations.EmptyRegionSelectsAll | services/mock/MockDestinationService.ts:63-66 | The empty region selects the whole catalogue. |
| Destinations.GetPopularDestinations | services/mock/MockDestinationService.ts:72-80 | With a limit of 0 or more (default 4), returns `min(limit, size)` destinations; a negative limit `n` returns `max(size + n, 0)`, dropping that many from the end as `slice` does. They come in descending boat count, taken from a stably sorted copy. |
| Destinations.PopularAreTheMostBooked | services/mock/MockDestinationService.ts:78-79 | No destination left out has more boats than one returned. |
| Auth.TestUser | services/mock/MockAuthService.ts:28-33 | The session user of a test account has id 999, 1 or 101 and name "Admin", "Jean Dupont" or "Thomas Petit" for admin, owner or renter. |
| Auth.DirectoryUser | services/mock/MockAuthService.ts:45-50 | The session user of a directory account has that account's id, name, e-mail and role. |
| Auth.LoginOutcome | services/mock/MockAuthService.ts:17-63 | A test account whose e-mail and password match signs in first. Otherwise the first directory account with that e-mail signs in, whatever the password. No one signs in exactly when neither exists. |
| Auth.TestAccountsLogIn | services/mock/MockAuthService.ts:17-39 | The three test accounts log in with their passwords as ids 999, 1 and 101. |
| Auth.PasswordIgnoredForDirectory | services/mock/MockAuthService.ts:43-56 | For a directory e-mail that no test account uses, every password gives the same successful login. |
| Auth.AuthService.Login | services/mock/MockAuthService.ts:13-64 | A successful login sets the session user and answers with a token. A failed one answers "Email ou mot de passe incorrect" and leaves the session as it was. |
| Auth.Token | services/mock/MockAuthService.ts:37 | The token is "mock-jwt-token-" followed by the decimal stamp. |
| Auth.RegisterOutcome | services/mock/MockAuthService.ts:66-88 | No account exactly when the e-mail is already in the directory. Otherwise the new account has the submitted name, e-mail and role (renter or owner only, as the sign-up form allows) and an id one past the largest, above every directory id. |
| Auth.AuthService.Register | services/mock/MockAuthService.ts:66-96 | A taken e-mail answers "Cet email est déjà utilisé" and leaves the session as it was. Otherwise the new account becomes the session user with a token and "Compte créé avec succès". The directory is not changed. |
| Auth.RegisteredEmailCannotLogIn | services/mock/MockAuthService.ts:81-95 | The directory is not extended, so a freshly registered e-mail does not log in afterwards, unless a test account uses it. |
| Auth.AuthService.Logout | services/mock/MockAuthService.ts:98-103 | Ends the session; afterwards no one is authenticated. |
| Auth.AuthService.IsAuthenticated | services/mock/MockAuthService.ts:105-108 | True exactly when a user is signed in. |
| Auth.AuthService.GetCurrentUser | services/mock/MockAuthService.ts:110-113 | Exactly the signed-in user, or null when no one is. |

## Left out

- Timing, logging and promises are not modelled: `delay`, `logApiOperation`, `console` output and `async`. Each operation is synchronous, and a thrown error is an `Err` result.
- Clock readings and random numbers are parameters of the operations that use them: the booking id and `createdAt`, the blocked-period id, `memberSince`, the review date and the token stamp. Their freshness and format are not modelled.
- `validateBookingDates` and `checkDateRangeOverlap` live in `utils/dateValidation`, which is not part of this model. They are function parameters. The contracts hold for any validator and any per-period overlap test, so nothing is said about where their boundaries lie.
- Availability.HasOverlap: the `hasOverlap` answer of `checkDateRangeOverlap` is taken to be true exactly when some single remaining period overlaps the request by the `overlaps` test. An answer that depends on several periods together is not modelled, and `OverlapIffConflict` and `CheckAvailability` rely on this shape.
- Dates are day numbers. Three places are affected:
  - The booking date filters compare ISO strings, which for `YYYY-MM-DD` orders the same way.
  - The window filter parses dates with `new Date`.
  - `removeUnavailablePeriod` compares the serialised start day; the model compares day numbers.
- Prices, ratings, sizes and counts are integers; floating-point values are not modelled.
- Reviews.ReviewService.AverageRating: is the exact mean of the ratings; the rounding to one decimal by `toFixed(1)` and `parseFloat` is floating-point and not modelled.
- Boats.BoatService.CreateBoat: requires a non-empty catalogue, because `Math.max` of no ids is `-Infinity` and the new id would be `-Infinity`, not a finite integer.
- Users.UserService.CreateUser: requires a non-empty directory, for the same `Math.max` reason.
- Reviews.ReviewService.constructor: requires a non-empty initial list, for the same `Math.max` reason.
- Auth.AuthService.Register: requires a non-empty directory, for the same `Math.max` reason.
- Auth.RegisterOutcome: requires a non-empty directory, for the same `Math.max` reason.
- Case folding and substring search are ASCII only. `toLowerCase`/`toUpperCase` on other letters (accents) are not modelled.
- Shared objects are not modelled. `cancelBooking` and `verifyUser` mutate records that the services' copies share with the module-level mock data; the model updates its own sequence only.
- The link between stores is not modelled. The availability engine reads the module-level bookings, not the booking service's private copy, so the bookings are a parameter and the two stores stay unlinked.
- The users read by login and registration are likewise a parameter, and are not the user service's copy.
- Records keep only the fields the operations read or write. The interface files other than `services/interfaces/IBoatService.ts` and `services/interfaces/IAuthService.ts` are not part of this model. Update objects are modelled as the record's fields, each optional, plus the id.
- The `startDate`/`endDate` fields of the boat filters are not modelled: `getBoats` ignores them.
- The stability of the sorts is built into the model's insertion sort, but it is not stated as a lemma of its own.
- The user role is a three-value type. The unchecked cast of a directory user's role in `login` is not modelled.
- `unblockPeriod` answers true and changes nothing, as the code does.
- Reserving, locking, rescheduling and conflict errors at booking creation are not modelled: no such operations exist in these services. `createBooking` does not consult availability, and the model follows the code.
