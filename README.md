# Booking platform core, modelled in Dafny

The system is a holiday-rental platform. Its two halves are modelled here.

**The FastAPI backend.** Guests book properties, owners manage them, and administrators manage users. Each booking gets an access code that opens the property's smart lock during the stay. Reports summarise bookings.

**The React client.** It keeps a login session in the browser's local storage and talks to the backend through an HTTP client with interceptors. It filters the property list, draws charts from a report, and lets guests cancel and pay for bookings.

**How the backend is modelled.**
- The database becomes in-memory tables (`seq`s of rows) in the class `Database.Db`.
- The column constraints declared in `app/models` are the class invariant `Db.Valid()`: primary keys, unique email, unique code and unique lock id, NOT NULL dates, and foreign keys. So is the rule that two stays of one property never share a night.
- Every CRUD operation is two members:
  - a function that decides the outcome, either the row or the HTTP error it raises (`Result`);
  - a method on `Db` that performs it. The method is proved to keep `Valid()`, to return that outcome, and to leave every other table untouched.
- The routers and dependencies are functions over those outcomes.

**How the client is modelled.**
- The browser tab is the class `UserApi.Browser`: its local storage, its location, and the requests it has sent.
- The backend's answers are parameters (`Reply<T>`).
- Each handler of the session provider and of the pages is specified by a function on a value of the state (`AuthContext.LoggedIn`, `PropertiesPage.Submitted`, ...). The class methods are proved to follow those functions.

**Units.**
- Backend money is integer cents.
- On the properties page, prices are compared in whole currency units, the unit of the price slider's bounds 0 to 1000.
- Calendar dates are integer day numbers.
- Datetimes are integer seconds. A date stored into a datetime column is its midnight, `day * 86400`.
- "now" and "today" are parameters.

**Facts of the code that the model follows:**
- The client revalidates a stored session at start-up only when both the token key and the user key hold a value (frontend/src/contexts/AuthContext.tsx:28-31). The token alone is not enough.
- `POST /token` returns only `access_token` and `token_type` (app/routers/login.py:20). The client therefore has to fetch the user with a second request.
- The string values of the role and booking-status enums are taken from the client's type declarations. The backend's enum modules are not part of this model.

## Model

| member | source | states |
|---|---|---|
| UserCrud.FindByEmail | app/crud/user.py:132-134 | the user found has that email; none is found exactly when no user has it |
| UserCrud.GetUser | app/crud/user.py:93-113 | the user with that id, or 404 exactly when no user has that id |
| UserCrud.NewUser | app/crud/user.py:10-26 | a new user gets the next id, the submitted names, email and role, the hash of the password, and is not blocked; an email already taken fails with 500 (the UNIQUE constraint) |
| UserCrud.CreatedPasswordIsHashed | app/crud/user.py:22 | a created user's stored password is a hash, and it verifies against the submitted password |
| UserCrud.CreateUser | app/crud/user.py:10-26 | the users table grows by exactly the new user, or stays unchanged on error; the database invariant is kept |
| UserCrud.SelfOrAdmin | app/crud/user.py:48-51 | permitted exactly when the caller is the target or an ADMIN; otherwise 403 |
| UserCrud.ApplyUserUpdate | app/crud/user.py:57-60 | only the fields given are changed and the others keep their values; the id and the blocked flag are never touched; a non-empty password is stored as its hash |
| UserCrud.EmptyUserUpdate | app/crud/user.py:59-60 | an update with no fields leaves the user unchanged |
| UserCrud.EmptyPasswordStoredUnhashed | app/crud/user.py:57-60 | an empty password skips the hash but is still written, so the stored password verifies against nothing |
| UserCrud.UpdateUserResult | app/crud/user.py:29-62 | 403 exactly when the caller is neither the target nor an ADMIN, checked before the lookup; then 404 for an unknown target; on success the stored user with the update applied, whose email no other user holds; once the caller is permitted and the target exists, success exactly when the updated email is held by no other user |
| UserCrud.UpdateUser | app/crud/user.py:29-62 | the target row is replaced by the result and nothing else changes; the invariant is kept |
| UserCrud.DeleteUserResult | app/crud/user.py:65-90 | 403 exactly when the caller is neither the target nor an ADMIN; 404 for an unknown target; success only when no property and no booking still references the user |
| UserCrud.DeleteUser | app/crud/user.py:65-90 | the target row is removed and nothing else changes; the invariant is kept |
| UserCrud.AuthenticateUser | app/crud/user.py:116-139 | 404 exactly when no user has the email; otherwise 401 for a wrong password; with unique emails, success exactly when that user's password verifies |
| UserCrud.SetBlocked | app/crud/user.py:160-164 | the flag of the user with that id is set and every other row is unchanged |
| UserCrud.BlockIdempotent | app/crud/user.py:167-189 | blocking or unblocking twice equals doing it once; unblocking an unblocked user after blocking restores the table |
| UserCrud.BlockKeepsTables | app/crud/user.py:160-164 | setting one user's blocked flag keeps the users' keys and unique emails, and every property's and booking's reference to a user |
| UserCrud.SetUserBlocked | app/crud/user.py:142-164 | 404 exactly for an unknown id, with the table unchanged; otherwise the returned user has the new flag and the table is `SetBlocked` of the old one |
| Dependencies.GetCurrentUser | app/dependencies.py:15-29 | a token with no subject gives 401; a subject that is not an optional minus sign followed by ASCII digits gives 500; otherwise it is the user lookup for that integer |
| Dependencies.TokenIdentifiesUser | app/dependencies.py:28-29 | a token whose subject was written from a user's id yields that user, or 404 once the user is gone |
| Dependencies.CheckNotBlocked | app/dependencies.py:32-42 | 403 exactly when the user is blocked; otherwise the same user |
| Dependencies.Join | app/dependencies.py:55 | no parts give the empty text, one part is itself, and each further part is appended after the separator, in list order |
| Dependencies.RoleValues | app/dependencies.py:55 | one value per required role, in order |
| Dependencies.RoleRequired | app/dependencies.py:45-58 | the same user exactly when the role is in the list; otherwise 403 whose detail is the fixed prefix followed by every required role value joined with ", " in list order |
| Dependencies.RoleGateIgnoresBlocking | app/dependencies.py:45-58 | the role gate's answer does not depend on the blocked flag |
| Dependencies.JoinAppend | app/dependencies.py:55 | joining one more value appends the separator and that value |
| Dependencies.OwnerOrAdminMessage | app/dependencies.py:52-57 | the `[OWNER, ADMIN]` gate refuses a USER with the prefix followed by "OWNER, ADMIN" |
| Dependencies.SingleRoleMessage | app/dependencies.py:52-57 | with a single required role, the detail is the prefix followed by that role's value |
| Decimal.ParseShowInt | app/dependencies.py:28 | the integer parsed from the token subject written by `str(user.id)` is that id |
| Decimal.ShowIntInjective | app/routers/login.py:19 | two ids that give the same subject are the same id |
| BookingCrud.OverlapsWith | app/crud/booking.py:33-39 | the conflict test: the same property, not the excluded id, existing start before the new end and existing end after the new start |
| BookingCrud.CheckAvailability | app/crud/booking.py:20-42 | 400 exactly when start is not before end; otherwise true exactly when no booking conflicts; status is ignored |
| BookingCrud.AvailableIsDisjoint | app/crud/booking.py:20-42 | availability is true exactly when the range is non-empty and shares no night with any other booking of the property |
| BookingCrud.GetBooking | app/crud/booking.py:137-156 | 404 exactly for an unknown id; a result is that booking and the caller may view it; a refusal with a known property is 403 |
| BookingCrud.GetBookingExact | app/crud/booking.py:146-156 | on a consistent table, the stored booking is returned exactly when the caller may view it (ADMIN always, USER the booker, OWNER the owner of the property) |
| BookingCrud.OwnerCannotViewOwnStay | app/crud/booking.py:152-155 | an OWNER cannot view their own stay at someone else's property |
| BookingCrud.GetBookings | app/crud/booking.py:159-168 | the intended query: exactly the caller's bookings, in table order |
| BookingCrud.OwnedBy | app/crud/booking.py:237-239 | a booking qualifies exactly when its property is owned by the owner |
| BookingCrud.GetOwnerBookings | app/crud/booking.py:234-244 | the intended query: exactly the bookings at the owner's properties, in table order |
| BookingCrud.EagerLoad | app/models/booking.py:19-20 | loading a list of relations succeeds exactly when each is a declared relationship of `Booking` (its property and its user); otherwise 500 with the missing-attribute message |
| BookingCrud.GetBookingsAsWritten | app/crud/booking.py:159-168 | the query as written fails exactly when its eager load of property and payment fails, with that error; when it succeeds it is the caller's bookings |
| BookingCrud.GetBookingsAlwaysFails | app/crud/booking.py:164 | for every caller and table, the query as written answers 500 because `Booking` has no `payment` relationship |
| BookingCrud.GetOwnerBookingsAsWritten | app/crud/booking.py:234-244 | the owner query as written fails exactly when its eager load fails, with that error; when it succeeds it is the bookings at the owner's properties |
| BookingCrud.GetOwnerBookingsAlwaysFails | app/crud/booking.py:240 | for every owner and table, the owner query as written answers 500 for the same missing relationship |
| BookingCrud.BookingInsert | app/crud/booking.py:45-70 | 400 for an empty range or a conflicting stay; otherwise the new row carries the submitted fields, shares no night with a stored stay, and its price is the property's price times the number of nights |
| BookingCrud.CreateBookingResult | app/crud/booking.py:45-85 | the insert's outcome, except that the automatic access code fails with 500 when its code is already taken |
| BookingCrud.CreateBooking | app/crud/booking.py:45-85 | the booking row and its access code, valid from now for one day, are appended, or nothing changes on error; the invariant is kept |
| BookingCrud.DatesAvailable | app/crud/booking.py:102-111 | no new date needs no check; with both dates, success means a non-empty range free of every other booking |
| BookingCrud.UpdateBookingResult | app/crud/booking.py:88-118 | the lookup's error passes through; success needs the caller to be the booker and both dates supplied; the result is the stored row with status and dates overwritten, free of every other booking |
| BookingCrud.PartialUpdateFails | app/crud/booking.py:113-114 | an update missing a date always fails; without dates, the booker's update fails with 500 because the NOT NULL dates are overwritten with None |
| BookingCrud.MergeBookingUpdate | app/crud/booking.py:113-114 | the corrected merge: each of status, start and end is replaced when given and kept when absent; the id, booker and property never change |
| BookingCrud.UpdateBookingMerged | app/crud/booking.py:88-118 | the corrected update: the lookup's errors pass through; success is the merge of the update into a stored booking of the caller's; when dates are given they form a non-empty range free of every other booking |
| BookingCrud.StatusOnlyUpdateKeepsDates | app/crud/booking.py:113-114 | with the corrected merge, the booker's update that carries no dates succeeds and keeps the stored dates, changing only the status when one is given |
| BookingCrud.UpdateBooking | app/crud/booking.py:88-118 | the row is replaced by the result, or the table is unchanged; the invariant is kept |
| BookingCrud.DeleteBookingResult | app/crud/booking.py:121-134 | the lookup's error passes through; 403 unless the caller is the booker; success only when no payment references the booking |
| BookingCrud.DeleteBooking | app/crud/booking.py:121-134 | the booking is removed and its access codes are removed with it (ON DELETE CASCADE), or nothing changes |
| PropertyCrud.GetProperty | app/crud/property.py:69-77 | the property with that id, or 404 exactly when there is none |
| PropertyCrud.ApplyPropertyUpdate | app/crud/property.py:41-42 | every field given is copied and every other field keeps its value; the id and owner never change |
| PropertyCrud.PropertyUpdateIdempotent | app/crud/property.py:41-42 | an empty update changes nothing, and applying an update twice equals applying it once |
| PropertyCrud.UpdatePropertyResult | app/crud/property.py:26-47 | 404 exactly for an unknown id; 403 exactly when the caller is not the owner; success is the stored row with the update applied, keeping lock ids distinct |
| PropertyCrud.UpdateProperty | app/crud/property.py:26-47 | the row is replaced, or the table is unchanged on every error; the invariant is kept |
| PropertyCrud.DeletePropertyResult | app/crud/property.py:50-66 | 404 for an unknown id; 403 for a non-owner; success exactly when the owner asks and no booking references the property |
| PropertyCrud.DeleteProperty | app/crud/property.py:50-66 | the row is removed, or the table is unchanged; the invariant is kept |
| PropertyCrud.SortByStart | app/crud/property.py:101 | a permutation of the bookings, sorted by start date |
| PropertyCrud.SortKeepsStays | app/crud/property.py:101 | sorting keeps the same bookings |
| PropertyCrud.Next | app/crud/property.py:115 | the sweep's next candidate day never goes back and lies after the booking's last day |
| PropertyCrud.GapBefore | app/crud/property.py:108-113 | a period is emitted exactly when the candidate day is before the booking's start, ending the day before that start |
| PropertyCrud.SweepTo | app/crud/property.py:104-115 | after a prefix of the sorted bookings, the candidate day is no earlier than today and lies after every swept booking |
| PropertyCrud.Tail | app/crud/property.py:118-122 | the tail period runs from the candidate day to the horizon (today plus 365), and exists only when the candidate day is not past the horizon |
| PropertyCrud.SweepPeriods | app/crud/property.py:104-122 | the loop computes exactly the free periods of the sweep |
| PropertyCrud.FreePeriodsSound | app/crud/property.py:104-122 | every free period starts no earlier than today and has start at most end; the periods are strictly increasing and disjoint; none contains a booked day; there are at most one more than the bookings |
| PropertyCrud.FreePeriodsComplete | app/crud/property.py:104-122 | every day from today to the horizon that no booking covers lies in some free period |
| PropertyCrud.PeriodPastHorizon | app/crud/property.py:108-113 | a gap before a booking past the horizon is emitted in full and runs beyond the horizon |
| PropertyCrud.BookingsAt | app/crud/property.py:99-101 | exactly the bookings of that property |
| PropertyCrud.Listing | app/crud/property.py:125-135 | the intended listing: every listed property has at least one free period |
| PropertyCrud.ListingFromProperties | app/crud/property.py:125-135 | each listed entry is a property of the table with its own free periods |
| PropertyCrud.ListingHasFree | app/crud/property.py:125-135 | every property with a free period is listed |
| PropertyCrud.FreeTableAt | app/crud/property.py:99-122 | the table's entry for each property is the sweep over that property's own bookings |
| PropertyCrud.AvailableListing | app/crud/property.py:125-135 | an entry is listed exactly when it is some property with a non-empty set of free periods, carrying those periods |
| PropertyCrud.GetAvailableProperties | app/crud/property.py:89-137 | the intended listing: the loop over the properties computes each property's free periods from its own bookings and lists the properties that have one, in table order |
| PropertyCrud.ListingNext | app/crud/property.py:99-135 | one turn of the loop: the listing of the first i+1 properties extends the first i by the i-th property exactly when its free periods are non-empty |
| PropertyCrud.SweepStep | app/crud/property.py:107-115 | one booking of the sorted sweep advances the free periods and the cursor exactly as the next gap and the later end of stay dictate |
| PropertyCrud.SweepEnd | app/crud/property.py:117-122 | after the last booking, the free periods are those found plus the tail up to the horizon when the cursor is within it |
| PropertyCrud.UnbookedIsFree | app/crud/property.py:99-122 | a property without bookings is free for the whole horizon, from today to today plus 365 days |
| PropertyCrud.ListingAsWritten | app/crud/property.py:125-135 | the listing as written succeeds exactly when no property has a free period, and then lists nothing; otherwise 500 because the entry is built without its required `lock_id` |
| PropertyCrud.GetAvailablePropertiesAsWritten | app/crud/property.py:89-137 | the query as written succeeds only with the empty list, and otherwise answers 500 for the missing `lock_id` |
| PropertyCrud.AsWrittenListsNothing | app/crud/property.py:125-135 | the query as written succeeds exactly when the intended listing is empty, and then agrees with it |
| PropertyCrud.UnbookedPropertyBreaksListing | app/crud/property.py:126 | as soon as one property has no bookings, the query as written answers 500 for the missing `lock_id` |
| AccessCodeCrud.CodesOf | app/crud/access_code.py:33-34 | exactly the codes of that booking |
| AccessCodeCrud.GetAccessCode | app/crud/access_code.py:31-36 | none exactly when the booking has no code; a single code is returned; two codes raise 500 |
| AccessCodeCrud.SecondCodeBreaksLookup | app/crud/access_code.py:31-36 | two codes for one booking make the lookup fail with 500 |
| AccessCodeCrud.SingleCodeLookup | app/crud/access_code.py:31-36 | a booking's only code is the one found |
| AccessCodeCrud.NewAccessCode | app/crud/access_code.py:17-28 | the row stores the booking id, code and window unchanged with the next id; it fails with 500 exactly for an unknown booking or a code already used |
| AccessCodeCrud.InsertAccessCode | app/crud/access_code.py:17-28 | the codes table grows by exactly the new row, or is unchanged; the invariant is kept |
| AccessCodeCrud.CreateAccessCode | app/crud/access_code.py:17-28 | the same insert with the random code passed in |
| AccessCodeCrud.DeleteAccessCodeResult | app/crud/access_code.py:39-53 | success exactly when the lookup finds one code, which is returned; 404 when the booking has none |
| AccessCodeCrud.DeleteAccessCode | app/crud/access_code.py:39-53 | the booking's code is removed, or nothing changes |
| AccessCodeCrud.DeleteThenGet | app/crud/access_code.py:39-53 | after a deletion the booking has no code, and other bookings' codes are untouched |
| AccessCodeCrud.IsAccessCodeValid | app/crud/access_code.py:56-66 | true exactly when a code of the booking equals the string and now lies in its window, both bounds inclusive; the lookup's error passes through |
| AccessCodeCrud.FirstColon | app/crud/access_code.py:79-80 | the position of the first colon, or none when there is no colon |
| AccessCodeCrud.DeviceId | app/crud/access_code.py:79-80 | the device id is the lock id's text before its first colon |
| AccessCodeCrud.SendLockCommand | app/crud/access_code.py:69-93 | a command is issued only for a stored booking with a code, to the device of its property's lock, carrying the requested command |
| AccessCodeCrud.SendLockCommandAsWritten | app/crud/access_code.py:69-93 | as written, given the booking object, the function always ends in a 500 |
| AccessCodeRouter.GenerateDecision | app/routers/access_code.py:19-42 | USER is refused with 403; success needs a viewable booking whose stay includes today; otherwise 400 |
| AccessCodeRouter.GenerateAccessCode | app/routers/access_code.py:19-42 | on success the random code is stored for the booking with the stay's window; on error nothing changes |
| AccessCodeRouter.CodeFor | app/routers/access_code.py:31-36 | the window runs from the midnight of the start date to the midnight of the end date |
| AccessCodeRouter.GeneratedWindow | app/routers/access_code.py:31-36 | the generated code is accepted exactly from the start's midnight to the end's midnight, and refused on the rest of the last day |
| AccessCodeRouter.GenerateTwiceBreaksLookup | app/routers/access_code.py:31-42 | generating a code for a booking that already has one (every booking gets one at creation) makes later lookups fail with 500 |
| AccessCodeRouter.DeleteRouteAsWritten | app/routers/access_code.py:45-57 | as written, the route never succeeds, and a permitted call fails with 500 |
| AccessCodeRouter.DeleteRouteNeverDeletes | app/routers/access_code.py:56 | an ADMIN deleting a stored booking's code gets a 500 |
| AccessCodeRouter.DeleteRouteResult | app/routers/access_code.py:45-57 | with the arguments in the right order: USER is refused with 403; a permitted call on a viewable booking is the code deletion |
| AccessCodeRouter.DeleteRoute | app/routers/access_code.py:45-57 | the booking's code is removed, or nothing changes |
| AccessCodeRouter.GetCodeRoute | app/routers/access_code.py:60-75 | the booking lookup's error passes through; a booking without a code gives 404; a result is a code of that booking |
| AccessCodeRouter.ValidateRoute | app/routers/access_code.py:78-91 | the booking lookup's error, or the validity check |
| AccessCodeRouter.DoorGate | app/routers/access_code.py:95-109 | passes exactly when the caller may view the booking and the code is valid now; an invalid code gives 403 |
| AccessCodeRouter.DoorRouteAsWritten | app/routers/access_code.py:95-133 | as written, opening and closing never succeed; past the gate they fail with 500 |
| AccessCodeRouter.ValidCodeStillFails | app/routers/access_code.py:111 | a guest with a valid code passes the gate but still gets 500 |
| AccessCodeRouter.DoorRoute | app/routers/access_code.py:95-133 | with the booking id passed: no command without passing the gate; past it, the lock command for the booking |
| AccessCodeRouter.ValidCodeOpens | app/routers/access_code.py:95-112 | a guest with a valid code sends the command to the device of the property's lock |
| AccessCodeRouter.TemperatureRoute | app/routers/access_code.py:138-155 | permitted exactly for ADMIN; otherwise 403 naming ADMIN |
| PaymentCrud.CreatePaymentResult | app/crud/payment.py:10-37 | 400 for a non-positive amount before any lookup; the booking lookup's error; 403 unless the caller booked; a result carries exactly the submitted booking, amount and status, with the amount at most the property's nightly price |
| PaymentCrud.CreatePaymentBounds | app/crud/payment.py:24-30 | for the guest's own booking, success exactly when 0 < amount and amount is at most the nightly price; an amount above the price gives 400 |
| PaymentCrud.CreatePayment | app/crud/payment.py:10-37 | the payments table grows by exactly the result, or is unchanged; the invariant is kept |
| PaymentCrud.CheckUserPayment | app/crud/payment.py:40-55 | 404 exactly for an unknown payment; a result belongs to a booking the caller may view and whose guest or owner is the caller |
| PaymentCrud.GuestOrOwnerGetsPayment | app/crud/payment.py:40-55 | on consistent tables, a caller who may view the stay and is its guest or its property's owner is given exactly that payment |
| PaymentCrud.OnlyGuestOrOwnerAccess | app/crud/payment.py:50-53 | anyone but the booker or the property's owner is refused with 403, ADMIN included |
| PaymentCrud.ApplyPaymentUpdate | app/crud/payment.py:71-72 | only the fields given change; the id and booking never change |
| PaymentCrud.PaymentUpdateIdempotent | app/crud/payment.py:71-72 | an empty update changes nothing, and applying an update twice equals applying it once |
| PaymentCrud.UpdatePaymentResult | app/crud/payment.py:64-77 | the access check's error passes through; once the check succeeds the update succeeds, with the stored payment and the update applied |
| PaymentCrud.UpdateSkipsAmountBounds | app/crud/payment.py:64-77 | an update may set the amount to 0, which creation refuses |
| PaymentCrud.UpdatePayment | app/crud/payment.py:64-77 | the row is replaced, or the table is unchanged; the invariant is kept |
| PaymentCrud.DeletePayment | app/crud/payment.py:80-88 | after the access check, the payment is removed and returned, or the table is unchanged |
| PaymentCrud.DeleteKeepsOthers | app/crud/payment.py:83-88 | exactly the payment with that id is removed; the rest keep their order |
| Reports.Max | app/reports.py:25 | the highest price is one of the prices and no price exceeds it |
| Reports.Min | app/reports.py:26 | the lowest price is one of the prices and no price is below it |
| Reports.RoundHalfEven | app/reports.py:24 | the quotient rounded to the nearest integer, ties to the even one |
| Reports.RoundHalfEvenUnique | app/reports.py:24 | that rounding is the only integer within half a unit that breaks ties to even |
| Reports.RoundWithin | app/reports.py:24 | rounding a quotient between two integers stays between them |
| Reports.SumBounds | app/reports.py:23 | the sum of prices lies between count times the lowest bound and count times the highest |
| Reports.ComputeMetrics | app/reports.py:23-26 | the count is the number of prices; the revenue is their sum; the highest and lowest are attained and bound every price; the average is within half a unit of sum over count, an exact tie goes to the even neighbour (so, by `RoundHalfEvenUnique`, it is the half-even rounding), and it lies between lowest and highest |
| Reports.SumAppend | app/reports.py:23 | the revenue of two lists is the sum of their revenues |
| Reports.Join | app/reports.py:23 | each booking paired with its property in order; a missing property raises 500 |
| Reports.Rows | app/reports.py:37-50 | one row per booking in order; a booking without a status raises 500 |
| Reports.BuildReport | app/reports.py:11-62 | 404 exactly for no bookings; otherwise the metrics over the properties' prices and one row per booking, in order |
| Reports.OwnerReportFacts | app/reports.py:11-62 | with the intended owner query, 404 exactly when no booking is at one of the owner's properties; otherwise the count and rows match those bookings in order, with their id, status value and the owner's property price |
| Reports.UserReportFacts | app/reports.py:107-155 | with the intended booking query, 404 exactly when the user has no bookings; otherwise the count and rows match them in order, with their id and status value; on a consistent database a user whose bookings all have a status always gets the report |
| Reports.OwnerReportAsWritten | app/reports.py:11-16 | the owner report over the owner query as written; whenever it succeeds it is the intended report |
| Reports.OwnerReportAlwaysFails | app/reports.py:11-16 | whatever is stored, the owner report as written is the 500 of the missing `payment` relationship, and never the 404 for an owner without bookings |
| Reports.UserActivityReportAsWritten | app/reports.py:107-112 | the activity report over the booking query as written; whenever it succeeds it is the intended report |
| Reports.UserReportAlwaysFails | app/reports.py:107-112 | whatever is stored, the activity report as written is the 500 of the missing `payment` relationship, and never the 404 for a user without bookings |
| UserApi.Get | frontend/src/api/userApi.ts:18 | `getItem`: the stored value, or null when the key is absent |
| UserApi.Evict | frontend/src/api/userApi.ts:34-35 | both session keys are removed and every other key keeps its value |
| UserApi.WithBearer | frontend/src/api/userApi.ts:17-22 | with a non-empty token the Authorization header is "Bearer " followed by the token; otherwise the headers are unchanged; other headers are kept |
| UserApi.Outgoing | frontend/src/api/userApi.ts:16-27 | the request leaves with its verb, url and body unchanged and the bearer header of the stored token |
| UserApi.Exchange | frontend/src/api/userApi.ts:30-40 | the request is sent; a 401 evicts both keys and moves to /login; any other outcome leaves storage and location unchanged |
| UserApi.UnauthorizedForgets | frontend/src/api/userApi.ts:33-37 | after a 401 neither key is stored and the next request carries no token |
| UserApi.RequestConfig.constructor | frontend/src/api/userApi.ts:8-13 | the config holds the request |
| UserApi.Browser.constructor | frontend/src/api/userApi.ts:8-13 | a tab with the given storage and location and nothing sent |
| UserApi.Browser.SetItem | frontend/src/contexts/AuthContext.tsx:36 | `localStorage.setItem` writes that key only |
| UserApi.Browser.RemoveItem | frontend/src/api/userApi.ts:34-35 | `localStorage.removeItem` removes that key only |
| UserApi.AttachToken | frontend/src/api/userApi.ts:16-27 | the request interceptor sets the bearer header from the stored token, in place |
| UserApi.OnResponseError | frontend/src/api/userApi.ts:30-40 | the error is rejected unchanged; a 401 evicts both keys and moves to /login; other errors change nothing |
| UserApi.Send | frontend/src/api/userApi.ts:16-40 | the reply passes through and the tab changes exactly as `Exchange` says |
| UserApi.LoginForm | frontend/src/api/userApi.ts:44-55 | login posts a form to /token with the email in the username field and the password in the password field |
| UserApi.UserPathNamesUser | frontend/src/api/userApi.ts:73-96 | a per-user path starts with /users/ and names the id |
| UserApi.UserPathInjective | frontend/src/api/userApi.ts:73-96 | different users get different paths |
| UserApi.PerUserPaths | frontend/src/api/userApi.ts:73-96 | the endpoints are /users/{id}, /users/{id}/block, /users/{id}/unblock and /users/{id}/activity_report |
| UserApi.Call | frontend/src/api/userApi.ts:44-96 | each call sends its request through the interceptors and returns the reply |
| AuthContext.Message | frontend/src/contexts/AuthContext.tsx:63 | the backend's detail when it is non-empty, otherwise the fallback |
| AuthContext.Initialized | frontend/src/contexts/AuthContext.tsx:27-45 | loading ends; without both keys nothing is sent and nothing changes; with both, GET /users/me decides: its user is adopted and stored, and a failure clears the user and both keys; the user changes only through that revalidation |
| AuthContext.LoggedIn | frontend/src/contexts/AuthContext.tsx:50-67 | no error exactly when both requests succeed, leaving the token and the user stored and adopted; on error the user is unchanged and the message is the detail or 'Login failed'; a failed identity fetch other than a 401 leaves the token stored; the second request carries the new token |
| AuthContext.Registered | frontend/src/contexts/AuthContext.tsx:69-81 | creation, then login with the same email and password; a failed creation gives its detail or 'Registration failed'; a failed login gives 'Registration failed' |
| AuthContext.LoggedOut | frontend/src/contexts/AuthContext.tsx:83-87 | not authenticated, both keys removed, nothing else changed |
| AuthContext.LogoutIdempotent | frontend/src/contexts/AuthContext.tsx:83-87 | logging out twice equals logging out once |
| AuthContext.UserUpdated | frontend/src/contexts/AuthContext.tsx:89-92 | the user is replaced in memory and in storage, and nothing is sent |
| AuthContext.LoginSurvivesReload | frontend/src/contexts/AuthContext.tsx:27-67 | after a login, start-up finds both keys, sends the new token and restores the user it gets back |
| AuthContext.LogoutSurvivesReload | frontend/src/contexts/AuthContext.tsx:27-87 | after a logout, start-up sends nothing and stays anonymous |
| AuthContext.AuthProvider.constructor | frontend/src/contexts/AuthContext.tsx:21-22 | no user, loading |
| AuthContext.AuthProvider.Initialize | frontend/src/contexts/AuthContext.tsx:27-45 | the provider and its tab change exactly as `Initialized` says |
| AuthContext.AuthProvider.Login | frontend/src/contexts/AuthContext.tsx:50-67 | the provider, its tab and the thrown message are exactly `LoggedIn` |
| AuthContext.AuthProvider.Register | frontend/src/contexts/AuthContext.tsx:69-81 | the provider, its tab and the thrown message are exactly `Registered` |
| AuthContext.AuthProvider.Logout | frontend/src/contexts/AuthContext.tsx:83-87 | the provider and its tab change exactly as `LoggedOut` says |
| AuthContext.AuthProvider.UpdateUser | frontend/src/contexts/AuthContext.tsx:89-92 | the provider and its tab change exactly as `UserUpdated` says |
| PropertiesPage.LowerChar | frontend/src/pages/PropertiesPage.tsx:75-77 | upper-case ASCII letters map to lower case and every other character is unchanged |
| PropertiesPage.Lower | frontend/src/pages/PropertiesPage.tsx:75-77 | `toLowerCase` character by character, keeping the length |
| PropertiesPage.LowerIdempotent | frontend/src/pages/PropertiesPage.tsx:73-77 | lowering twice equals lowering once |
| PropertiesPage.ContainsAt | frontend/src/pages/PropertiesPage.tsx:75-77 | `includes` holds exactly when the term occurs at some position |
| PropertiesPage.ContainsEmpty | frontend/src/pages/PropertiesPage.tsx:72 | every text contains the empty term |
| PropertiesPage.SearchIgnoresCase | frontend/src/pages/PropertiesPage.tsx:73-77 | the search gives the same answer for a term and its lower-case form |
| PropertiesPage.FilterProperties | frontend/src/pages/PropertiesPage.tsx:68-92 | a property is kept exactly when it was fetched, matches the term in name, description or location ignoring case, has a price within the inclusive range and has the selected room count (or any count) |
| PropertiesPage.FilterPropertiesInOrder | frontend/src/pages/PropertiesPage.tsx:68-92 | the filtered list is an order-preserving sub-list of the fetched one |
| PropertiesPage.InitialCriteriaKeepAll | frontend/src/pages/PropertiesPage.tsx:38-40 | the initial criteria keep every property priced within 0 to 1000 |
| PropertiesPage.DatePart | frontend/src/pages/PropertiesPage.tsx:113-114 | the prefix of the ISO string before its first 'T' |
| PropertiesPage.DatePartOfTimestamp | frontend/src/pages/PropertiesPage.tsx:113-114 | a date followed by 'T' and a time gives back the date |
| PropertiesPage.BookClicked | frontend/src/pages/PropertiesPage.tsx:94-101 | without a user the tab goes to /login and no dialog opens; with one, the dialog opens for that property; nothing is sent |
| PropertiesPage.Submitted | frontend/src/pages/PropertiesPage.tsx:103-124 | a missing property or date sets the "select both dates" error and sends nothing; otherwise the booking with both date parts is sent, success closes the dialog and failure shows the error |
| PropertiesPage.VisitorBooksNothing | frontend/src/pages/PropertiesPage.tsx:94-107 | a visitor who clicks Book and submits sends nothing and ends on /login |
| PropertiesPage.SignedInBooksClickedProperty | frontend/src/pages/PropertiesPage.tsx:94-124 | a signed-in user's submission books the clicked property for the picked dates |
| PropertiesPage.Page.constructor | frontend/src/pages/PropertiesPage.tsx:36-57 | the fetched list is shown unfiltered under the initial criteria, with the dialog closed |
| PropertiesPage.Page.SetCriteria | frontend/src/pages/PropertiesPage.tsx:68-92 | the filtered list is recomputed from the fetched one for the new criteria |
| PropertiesPage.Page.HandleBookClick | frontend/src/pages/PropertiesPage.tsx:94-101 | the dialog changes exactly as `BookClicked` says |
| PropertiesPage.Page.HandleBookingSubmit | frontend/src/pages/PropertiesPage.tsx:103-124 | the dialog changes exactly as `Submitted` says |
| AnalyticsCharts.RevenueByProperty | frontend/src/components/AnalyticsCharts.tsx:28-31 | one bar per booking, in order, named by its property with its price as revenue |
| AnalyticsCharts.Lookup | frontend/src/components/AnalyticsCharts.tsx:35 | `acc[k] \|\| 0`: 0 for an absent key and positive for a present one in a tally of positive counts |
| AnalyticsCharts.Bump | frontend/src/components/AnalyticsCharts.tsx:34-37 | one step of the fold: a present key keeps its place, a new key is appended with count 1, and the total grows by one |
| AnalyticsCharts.BumpLookup | frontend/src/components/AnalyticsCharts.tsx:35 | the count of the bumped status grows by one and every other count stays |
| AnalyticsCharts.BumpKeeps | frontend/src/components/AnalyticsCharts.tsx:34-37 | a step keeps the keys distinct and the counts positive |
| AnalyticsCharts.Distribution | frontend/src/components/AnalyticsCharts.tsx:34-37 | the counts sum to the number of bookings |
| AnalyticsCharts.DistributionFacts | frontend/src/components/AnalyticsCharts.tsx:34-37 | each key's count is the number of bookings with that status, the keys are exactly the statuses that occur, each once, and the counts are positive |
| AnalyticsCharts.DistributionLookup | frontend/src/components/AnalyticsCharts.tsx:34-37 | a status has a positive count exactly when some booking has it |
| AnalyticsCharts.DistributionOrder | frontend/src/components/AnalyticsCharts.tsx:34-37 | statuses keep the order of their first appearance |
| AnalyticsCharts.StatusData | frontend/src/components/AnalyticsCharts.tsx:39-42 | one slice per entry, named by the status with its count |
| AnalyticsCharts.StatusSlices | frontend/src/components/AnalyticsCharts.tsx:34-42 | the slices name exactly the statuses that occur, never one twice, each sized by its positive count |
| AnalyticsCharts.SliceColor | frontend/src/components/AnalyticsCharts.tsx:92-94 | each slice's colour is one of the five colours |
| AnalyticsCharts.Cells | frontend/src/components/AnalyticsCharts.tsx:92-94 | one cell per slice, coloured by its position |
| AnalyticsCharts.ColorCycle | frontend/src/components/AnalyticsCharts.tsx:92-94 | the colours repeat every five slices, and five consecutive slices all differ |
| BookingsPage.StatusColor | frontend/src/pages/BookingsPage.tsx:105-116 | confirmed is green, pending orange and cancelled red, each exactly; anything else, or no status, gets the default |
| BookingsPage.StatusLabel | frontend/src/pages/BookingsPage.tsx:186 | the chip shows the status, or 'Unknown' when it is missing or empty |
| BookingsPage.CancelEnabledWhenGreen | frontend/src/pages/BookingsPage.tsx:221-224 | cancel is offered exactly when the status is confirmed, which is when the chip is green |
| BookingsPage.PaymentColor | frontend/src/pages/BookingsPage.tsx:200-206 | green exactly for a successful payment, red exactly for a failed one, orange otherwise |
| BookingsPage.PayShownUnlessPaid | frontend/src/pages/BookingsPage.tsx:228 | Pay is shown exactly when the payment badge is not green |
| BookingsPage.UpperChar | frontend/src/pages/BookingsPage.tsx:212 | lower-case ASCII letters map to upper case and other characters stay |
| BookingsPage.Capitalize | frontend/src/pages/BookingsPage.tsx:212 | only the first character is upper-cased; the length is kept |
| BookingsPage.PaymentLabel | frontend/src/pages/BookingsPage.tsx:211-213 | 'Not paid' without a payment, otherwise 'Payment: ' followed by the capitalised status |
| BookingsPage.PaymentLabels | frontend/src/pages/BookingsPage.tsx:211-213 | the stored statuses read 'Payment: Pending', 'Payment: Success' and 'Payment: Failed' |
| BookingsPage.Prefill | frontend/src/pages/BookingsPage.tsx:82 | the booking's price, or 0 when it is absent or zero |
| BookingsPage.PayClicked | frontend/src/pages/BookingsPage.tsx:80-86 | the pay dialog opens for the booking with the prefilled amount and both payment messages cleared; nothing else changes |
| BookingsPage.CancelClicked | frontend/src/pages/BookingsPage.tsx:58-61 | the confirmation opens for the booking; nothing else changes |
| BookingsPage.CancelConfirmed | frontend/src/pages/BookingsPage.tsx:63-78 | without a selection nothing happens; otherwise an update with only the cancelled status is sent; success closes the dialog with a message, and failure shows the error |
| BookingsPage.CancelAlwaysRefused | frontend/src/pages/BookingsPage.tsx:68-70 | the backend refuses every such update, with 500 when the caller booked the stay |
| BookingsPage.CancelAcceptedWhenMerged | frontend/src/pages/BookingsPage.tsx:68-70 | with the corrected merge, the booker's cancellation succeeds and the stored booking only changes its status to CANCELLED |
| BookingsPage.CancelShowsError | frontend/src/pages/BookingsPage.tsx:63-78 | after a refused cancellation the dialog stays open with the error shown |
| BookingsPage.Page.constructor | frontend/src/pages/BookingsPage.tsx:58-86 | the fetched bookings, with every dialog closed and nothing sent |
| BookingsPage.Page.HandleCancelClick | frontend/src/pages/BookingsPage.tsx:58-61 | the view changes exactly as `CancelClicked` says |
| BookingsPage.Page.HandleCancelConfirm | frontend/src/pages/BookingsPage.tsx:63-78 | the view changes exactly as `CancelConfirmed` says |
| BookingsPage.Page.HandlePayClick | frontend/src/pages/BookingsPage.tsx:80-86 | the view changes exactly as `PayClicked` says |

## Left out

- Database sessions, commits, refreshes and eager loading. Each operation is one atomic update of the in-memory tables, so concurrent requests and rollbacks are not modelled.
- Password hashing and JWT signing are abstract: a stored password is a `Hashed` value that verifies only against its own text. app/core/security.py is not part of this model. Token expiry and signature checks are not modelled; a token is its subject.
- Randomness. The access code drawn by `random.choices` or `secrets` is a parameter.
- Personalised offers (app/crud/booking.py:171-231). They depend on clustering over floats.
- The smart-lock and IoT hub calls, their encryption and the access-log rows. `SendLockCommand` stops at the command chosen for the device; the temperature route stops at its role check.
- The Celery tasks, the e-mail sending, the PDF rendering and file paths of the reports, import and export, the seeding scripts, the configuration and the application wiring.
- The routers other than the access-code router only dispatch to the CRUD functions and are not modelled. The exception is the `/token` subject, `str(user.id)`, which the token round trip uses.
- Floating point. Prices and amounts are integer cents, and the price of a stay is an exact product.
- Reports.ComputeMetrics: the average is one half-even rounding of the exact quotient. Python's `Decimal` first divides to 28 significant digits, and this model does not capture that step. The two agree unless the quotient needs more than 28 digits.
- Reports.BuildReport: it models only the figures and rows; the dates, the report header and rendering are left out.
- Clocks. `now`, `today` and `utcnow` are parameters.
- JSON encoding of the stored user. `Json` writes the fields in the order the backend sends them; escaping of quotes inside a value is not modelled.
- PropertiesPage.Lower and BookingsPage.UpperChar map ASCII letters only; `toLowerCase` and `toUpperCase` handle all of Unicode.
- PropertiesPage.DatePart: the conversion from the date picker's local time to UTC in `toISOString` is not modelled. The date is the text before 'T' of whatever ISO string is given.
- The fetches that fill the pages (`fetchBookings`, `getProperties`) and the pay dialog's submission are left to the caller. Their results are constructor parameters.
- bookingApi's HTTP client is not part of this model. Only the user API's interceptors are modelled, and a booking request from the properties page is recorded as sent with its payload.
- The full page reload that follows `window.location.href = '/login'` is not modelled. The location changes and the tab's state otherwise stays.
- PropertyCrud.ListingHasFree, PropertyCrud.AvailableListing and PropertyCrud.GetAvailableProperties state the intended listing, with each entry built as the code builds it. As written, building an entry fails for want of `lock_id`, so the endpoint answers 500 whenever a property is free (see Findings); `PropertyCrud.ListingAsWritten` models that.
- PropertyCrud.AvailableProperty has no lock id: the intended entry carries the fields the code passes and the free periods.
- BookingCrud.GetBookings and BookingCrud.GetOwnerBookings are the intended queries. As written, both fail on the eager load of `Booking.payment` (see Findings); `BookingCrud.GetBookingsAsWritten` and `BookingCrud.GetOwnerBookingsAsWritten` model that.
- Reports.OwnerReportFacts and Reports.UserReportFacts are stated over the intended queries. The reports as written always answer 500 (see Findings).
- BookingCrud.UpdateBooking models the update as written, which overwrites absent dates with None. `BookingCrud.UpdateBookingMerged` is the corrected outcome, stated as a function; no method performs it.
- Dependencies.GetCurrentUser reads the subject as an optional minus sign followed by ASCII digits. Python's `int` also accepts a leading '+', surrounding whitespace, '_' between digits and non-ASCII digits; such subjects give 500 here but a lookup there. The backend only writes subjects with `str(user.id)`, which never contain them.
- UserCrud.NewUser takes the role as always given: the schema's default role USER and an explicit null role are not modelled.
- PropertiesPage: fractional prices are not modelled. The client price is a whole number of currency units.
- A 422 validation error, whose `detail` is a list, is treated like any other error without a string detail.
- Rendering: the MUI layout, dialogs and charts themselves, and every page this model does not name.

## Findings

| source | as written | input that shows it | evidently intended | confidence | as-written member | corrected member |
|---|---|---|---|---|---|---|
| app/routers/access_code.py:56 | `delete_access_code(booking_id, db)` passes the booking id where the session is expected | an ADMIN deleting the code of any stored booking: the call raises on the integer and answers 500 | `delete_access_code(db, booking_id)`, removing the booking's code | not executed | AccessCodeRouter.DeleteRouteNeverDeletes | AccessCodeRouter.DeleteRoute |
| app/crud/property.py:126 | each listed entry is built as `PropertyWithAvailabilityPeriods` without `lock_id`, which that schema requires (app/schemas/property.py:12) | any property with no bookings: its free period makes the entry, whose validation fails, so `GET` of the available properties answers 500 | the entry validates, and every free property is listed with its free periods (the corrected entry leaves the lock id out) | not executed | PropertyCrud.UnbookedPropertyBreaksListing | PropertyCrud.AvailableListing |
| app/crud/booking.py:164 | `get_bookings` eager-loads `Booking.payment`, a relationship `Booking` does not declare (app/models/booking.py:19-20) | any user asking for their bookings or their activity report: the attribute lookup raises and the answer is 500 | load only the property, and return the caller's bookings | not executed | Reports.UserReportAlwaysFails | Reports.UserReportFacts |
| app/crud/booking.py:240 | `get_owner_bookings` eager-loads the same missing `Booking.payment` | any owner asking for their bookings or their owner report: the answer is 500 | load only the property, and return the bookings at the owner's properties | not executed | Reports.OwnerReportAlwaysFails | Reports.OwnerReportFacts |
| app/crud/booking.py:113 | every field of the update is copied, so an absent date overwrites the stored date with None | the booker cancelling with `{status: CANCELLED}` from the bookings page: the NOT NULL dates become None and the update answers 500 | only the fields given are copied; the stored dates stay | not executed | BookingsPage.CancelAlwaysRefused | BookingCrud.StatusOnlyUpdateKeepsDates |
| app/routers/access_code.py:111 | `send_smart_lock_command(db, booking, ...)` passes the booking object where its id is expected, and the lock is read from a column the property does not have | a guest with the only code of their booking, inside its window, calling open_door: the gate passes but the answer is 500 | the booking id is passed, and the command goes to the device of the property's lock | not executed | AccessCodeRouter.ValidCodeStillFails | AccessCodeRouter.ValidCodeOpens |
