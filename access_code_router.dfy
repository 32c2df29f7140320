/** app/routers/access_code.py: the door-code endpoints. Each one first resolves the caller
    (a role gate where the route names roles), then reads the booking through `get_booking`,
    and only then looks at its code. The clock is a parameter: `today` is the UTC date, `now`
    the local instant, in seconds. */
module AccessCodeRouter {
  import opened Wrappers
  import opened Seqs
  import opened Models
  import opened Database
  import Dependencies
  import BookingCrud
  import AccessCodeCrud

  /** The roles of `generate_access_code` and `delete_access_code`. */
  const CodeRoles: seq<Role> := [OWNER, ADMIN]
  /** The role of `get_temperature`. */
  const TemperatureRoles: seq<Role> := [ADMIN]

  const NotActive := "Access code can only be generated for active"
  const CodeNotFound := "Access code not found"
  const CodeInvalid := "Access code is not valid"

  /** A booking is active on the days from its start to its end, both included. */
  predicate Active(b: Booking, today: int) {
    b.startDate <= today <= b.endDate
  }

  /** The decision of `generate_access_code`: the role gate, `get_booking`'s errors, then 400
      unless the stay is active today; the booking whose code is to be made otherwise. */
  function GenerateDecision(bookings: seq<Booking>, properties: seq<Property>, bookingId: int, caller: User, today: int)
    : (r: Result<Booking>)
    ensures caller.role == USER ==> r.Err? && r.error.status == 403
    ensures r.Ok? ==> caller.role in CodeRoles && r.value in bookings && r.value.id == bookingId
    ensures r.Ok? ==> Active(r.value, today) && BookingCrud.MayView(caller, r.value, properties)
    ensures caller.role in CodeRoles && BookingCrud.GetBooking(bookings, properties, bookingId, caller).Ok? ==>
              (r.Ok? <==> Active(BookingCrud.GetBooking(bookings, properties, bookingId, caller).value, today))
    ensures r.Err? && r.error.status == 400 ==> r.error.detail == NotActive
  {
    var u :- Dependencies.RoleRequired(CodeRoles, caller);
    var b :- BookingCrud.GetBooking(bookings, properties, bookingId, u);
    if Active(b, today) then Ok(b) else Fail(400, NotActive)
  }

  /** `generate_access_code`: a fresh code for an active stay, valid from the midnight that
      starts its first day to the midnight that starts its last. */
  method GenerateAccessCode(db: Db, bookingId: int, caller: User, today: int, random: string)
    returns (r: Result<string>)
    requires db.Valid()
    modifies db`accessCodes, db`nextAccessCodeId
    ensures db.Valid()
    ensures GenerateDecision(db.bookings, db.properties, bookingId, caller, today).Err? ==>
              r == Err(GenerateDecision(db.bookings, db.properties, bookingId, caller, today).error) &&
              db.accessCodes == old(db.accessCodes)
    ensures r.Ok? ==> (GenerateDecision(db.bookings, db.properties, bookingId, caller, today).Ok? &&
              r.value == random &&
              db.accessCodes == old(db.accessCodes) + [CodeFor(
                GenerateDecision(db.bookings, db.properties, bookingId, caller, today).value,
                old(db.nextAccessCodeId), random)])
    ensures r.Err? ==> db.accessCodes == old(db.accessCodes) && db.nextAccessCodeId == old(db.nextAccessCodeId)
  {
    var d := GenerateDecision(db.bookings, db.properties, bookingId, caller, today);
    if d.Err? {
      return Err(d.error);
    }
    var b := d.value;
    var created := AccessCodeCrud.CreateAccessCode(db, b.id, Midnight(b.startDate), Midnight(b.endDate), random);
    if created.Err? {
      return Err(created.error);
    }
    r := Ok(created.value.code);
  }

  /** The row `generate_access_code` stores for a booking. */
  function CodeFor(b: Booking, id: int, code: string): (c: AccessCode)
    ensures c.bookingId == b.id && c.code == code
    ensures c.validFrom == b.startDate * SecondsPerDay && c.validUntil == b.endDate * SecondsPerDay
  {
    AccessCode(id, b.id, code, Midnight(b.startDate), Midnight(b.endDate))
  }

  /** A generated code opens the door from the first midnight of the stay up to the first
      second of its last day, and no longer: on the morning of the last day it is refused. */
  lemma GeneratedWindow(codes: seq<AccessCode>, b: Booking, id: int, code: string, now: int)
    requires forall c :: c in codes ==> c.bookingId != b.id
    ensures AccessCodeCrud.IsAccessCodeValid(codes + [CodeFor(b, id, code)], b.id, code, now) ==
              Ok(Midnight(b.startDate) <= now <= Midnight(b.endDate))
    ensures now > Midnight(b.endDate) ==>
              AccessCodeCrud.IsAccessCodeValid(codes + [CodeFor(b, id, code)], b.id, code, now) == Ok(false)
  {
    var all := codes + [CodeFor(b, id, code)];
    forall j | 0 <= j < |all| && j != |codes| ensures all[j].bookingId != b.id {
      assert all[j] == codes[j] && codes[j] in codes;
    }
    AccessCodeCrud.SingleCodeLookup(all, b.id, |codes|);
  }

  /** Generating a second code for a booking leaves it with two, after which every lookup of
      its code raises: the route does not check for an existing code. */
  lemma GenerateTwiceBreaksLookup(codes: seq<AccessCode>, b: Booking, id: int, code: string)
    requires exists c :: c in codes && c.bookingId == b.id
    ensures AccessCodeCrud.GetAccessCode(codes + [CodeFor(b, id, code)], b.id) == Fail(500, MultipleRows)
  {
    var c :| c in codes && c.bookingId == b.id;
    var i :| 0 <= i < |codes| && codes[i] == c;
    var all := codes + [CodeFor(b, id, code)];
    assert all[i] == c && all[|codes|] == CodeFor(b, id, code);
    AccessCodeCrud.SecondCodeBreaksLookup(all, b.id, i, |codes|);
  }

  /** `delete_access_code` as written: after the role gate and `get_booking` it calls the CRUD
      function with its two arguments swapped, so the booking id is used as the session and
      the call raises before any row is read. */
  function DeleteRouteAsWritten(bookings: seq<Booking>, properties: seq<Property>, bookingId: int, caller: User)
    : (r: Result<string>)
    ensures r.Err?
    ensures Dependencies.RoleRequired(CodeRoles, caller).Ok? &&
            BookingCrud.GetBooking(bookings, properties, bookingId, caller).Ok? ==>
              r == Fail(500, "'int' object has no attribute 'execute'")
  {
    var u :- Dependencies.RoleRequired(CodeRoles, caller);
    var _ :- BookingCrud.GetBooking(bookings, properties, bookingId, u);
    Fail(500, "'int' object has no attribute 'execute'")
  }

  /** No caller ever deletes a code through the route as written, whatever the tables hold. */
  lemma DeleteRouteNeverDeletes(bookings: seq<Booking>, properties: seq<Property>, bookingId: int, caller: User, b: Booking)
    requires UniqueKeys(bookings, BookingKey) && UniqueKeys(properties, PropertyKey)
    requires caller.role == ADMIN && b in bookings && b.id == bookingId
    requires HasProperty(properties, b.propertyId)
    ensures DeleteRouteAsWritten(bookings, properties, bookingId, caller) == Fail(500, "'int' object has no attribute 'execute'")
  {
    BookingCrud.GetBookingExact(bookings, properties, bookingId, caller, b);
  }

  /** `delete_access_code` as evidently meant, with the arguments in order: the role gate,
      `get_booking`'s errors, then the CRUD delete's result. */
  function DeleteRouteResult(
    bookings: seq<Booking>, properties: seq<Property>, codes: seq<AccessCode>, bookingId: int, caller: User)
    : (r: Result<AccessCode>)
    ensures r.Ok? ==> caller.role in CodeRoles && HasBooking(bookings, bookingId)
    ensures r.Ok? ==> r.value in codes && r.value.bookingId == bookingId
    ensures caller.role in CodeRoles && BookingCrud.GetBooking(bookings, properties, bookingId, caller).Ok? ==>
              r == AccessCodeCrud.DeleteAccessCodeResult(codes, bookingId)
    ensures caller.role !in CodeRoles ==> r.Err? && r.error.status == 403
  {
    var u :- Dependencies.RoleRequired(CodeRoles, caller);
    var b :- BookingCrud.GetBooking(bookings, properties, bookingId, u);
    HasKeyMember(bookings, BookingKey, bookingId);
    AccessCodeCrud.DeleteAccessCodeResult(codes, bookingId)
  }

  method DeleteRoute(db: Db, bookingId: int, caller: User) returns (r: Result<AccessCode>)
    requires db.Valid()
    modifies db`accessCodes
    ensures db.Valid()
    ensures r == DeleteRouteResult(db.bookings, db.properties, old(db.accessCodes), bookingId, caller)
    ensures r.Ok? ==> db.accessCodes == RemoveKey(old(db.accessCodes), CodeBookingKey, bookingId)
    ensures r.Err? ==> db.accessCodes == old(db.accessCodes)
  {
    var u := Dependencies.RoleRequired(CodeRoles, caller);
    if u.Err? {
      return Err(u.error);
    }
    var b := BookingCrud.GetBooking(db.bookings, db.properties, bookingId, caller);
    if b.Err? {
      return Err(b.error);
    }
    r := AccessCodeCrud.DeleteAccessCode(db, bookingId);
  }

  /** `get_access_code` (the route): `get_booking`'s errors, the lookup's error, 404 without
      a code, else the code's text. */
  function GetCodeRoute(
    bookings: seq<Booking>, properties: seq<Property>, codes: seq<AccessCode>, bookingId: int, caller: User)
    : (r: Result<string>)
    ensures r.Ok? ==> BookingCrud.GetBooking(bookings, properties, bookingId, caller).Ok?
    ensures r.Ok? ==> exists c :: c in codes && c.bookingId == bookingId && c.code == r.value
    ensures BookingCrud.GetBooking(bookings, properties, bookingId, caller).Ok? &&
            (forall c :: c in codes ==> c.bookingId != bookingId) ==>
              r == Fail(404, CodeNotFound)
    ensures BookingCrud.GetBooking(bookings, properties, bookingId, caller).Err? ==>
              r == Err(BookingCrud.GetBooking(bookings, properties, bookingId, caller).error)
  {
    var _ :- BookingCrud.GetBooking(bookings, properties, bookingId, caller);
    var found :- AccessCodeCrud.GetAccessCode(codes, bookingId);
    if found.None? then Fail(404, CodeNotFound) else Ok(found.value.code)
  }

  /** `validate_access_code`: `get_booking`'s errors, then the validity check's answer. */
  function ValidateRoute(
    bookings: seq<Booking>, properties: seq<Property>, codes: seq<AccessCode>, bookingId: int,
    code: string, caller: User, now: int)
    : (r: Result<bool>)
    ensures BookingCrud.GetBooking(bookings, properties, bookingId, caller).Ok? ==>
              r == AccessCodeCrud.IsAccessCodeValid(codes, bookingId, code, now)
    ensures BookingCrud.GetBooking(bookings, properties, bookingId, caller).Err? ==>
              r == Err(BookingCrud.GetBooking(bookings, properties, bookingId, caller).error)
  {
    var _ :- BookingCrud.GetBooking(bookings, properties, bookingId, caller);
    AccessCodeCrud.IsAccessCodeValid(codes, bookingId, code, now)
  }

  const OpenLock := "open_lock"
  const CloseLock := "close_lock"

  /** The gate before a door command: `get_booking`'s errors, the validity check's error,
      403 for a code that is not valid now; the booking otherwise. */
  function DoorGate(
    bookings: seq<Booking>, properties: seq<Property>, codes: seq<AccessCode>, bookingId: int,
    code: string, caller: User, now: int)
    : (r: Result<Booking>)
    ensures r.Ok? <==> BookingCrud.GetBooking(bookings, properties, bookingId, caller).Ok? &&
                       AccessCodeCrud.IsAccessCodeValid(codes, bookingId, code, now) == Ok(true)
    ensures r.Ok? ==> r.value == BookingCrud.GetBooking(bookings, properties, bookingId, caller).value
    ensures r.Ok? ==> exists c :: c in codes && c.bookingId == bookingId && AccessCodeCrud.AdmitsAt(c, code, now)
    ensures BookingCrud.GetBooking(bookings, properties, bookingId, caller).Ok? &&
            AccessCodeCrud.IsAccessCodeValid(codes, bookingId, code, now) == Ok(false) ==>
              r == Fail(403, CodeInvalid)
  {
    var b :- BookingCrud.GetBooking(bookings, properties, bookingId, caller);
    var valid :- AccessCodeCrud.IsAccessCodeValid(codes, bookingId, code, now);
    if !valid then Fail(403, CodeInvalid) else Ok(b)
  }

  /** `open_door` and `close_door` as written: past the gate, the lock call always raises. */
  function DoorRouteAsWritten(
    bookings: seq<Booking>, properties: seq<Property>, codes: seq<AccessCode>, bookingId: int,
    code: string, caller: User, now: int, command: string)
    : (r: Result<AccessCodeCrud.LockCommand>)
    ensures r.Err?
    ensures DoorGate(bookings, properties, codes, bookingId, code, caller, now).Err? ==>
              r == Err(DoorGate(bookings, properties, codes, bookingId, code, caller, now).error)
    ensures DoorGate(bookings, properties, codes, bookingId, code, caller, now).Ok? ==> r.error.status == 500
  {
    var b :- DoorGate(bookings, properties, codes, bookingId, code, caller, now);
    AccessCodeCrud.SendLockCommandAsWritten(bookings, codes, b, command)
  }

  /** Even a guest holding the valid code for their own stay cannot open the door through the
      route as written. */
  lemma ValidCodeStillFails(
    bookings: seq<Booking>, properties: seq<Property>, codes: seq<AccessCode>, caller: User,
    b: Booking, i: int, now: int)
    requires UniqueKeys(bookings, BookingKey) && UniqueKeys(properties, PropertyKey)
    requires b in bookings && b.userId == caller.id && caller.role == USER && HasProperty(properties, b.propertyId)
    requires 0 <= i < |codes| && codes[i].bookingId == b.id && codes[i].validFrom <= now <= codes[i].validUntil
    requires forall j :: 0 <= j < |codes| && j != i ==> codes[j].bookingId != b.id
    ensures DoorGate(bookings, properties, codes, b.id, codes[i].code, caller, now) == Ok(b)
    ensures DoorRouteAsWritten(bookings, properties, codes, b.id, codes[i].code, caller, now, OpenLock).error.status == 500
  {
    BookingCrud.GetBookingExact(bookings, properties, b.id, caller, b);
    AccessCodeCrud.SingleCodeLookup(codes, b.id, i);
  }

  /** `open_door` and `close_door` as evidently meant: past the gate, the command is sent to
      the device of the booking's property. */
  function DoorRoute(
    bookings: seq<Booking>, properties: seq<Property>, codes: seq<AccessCode>, bookingId: int,
    code: string, caller: User, now: int, command: string)
    : (r: Result<AccessCodeCrud.LockCommand>)
    ensures r.Ok? ==> DoorGate(bookings, properties, codes, bookingId, code, caller, now).Ok?
    ensures r.Ok? ==> r.value.command == command
    ensures r.Ok? ==> exists c :: c in codes && c.bookingId == bookingId && AccessCodeCrud.AdmitsAt(c, code, now)
    ensures DoorGate(bookings, properties, codes, bookingId, code, caller, now).Err? ==>
              r == Err(DoorGate(bookings, properties, codes, bookingId, code, caller, now).error)
    ensures DoorGate(bookings, properties, codes, bookingId, code, caller, now).Ok? ==>
              r == AccessCodeCrud.SendLockCommand(bookings, properties, codes, bookingId, command)
  {
    var b :- DoorGate(bookings, properties, codes, bookingId, code, caller, now);
    AccessCodeCrud.SendLockCommand(bookings, properties, codes, b.id, command)
  }

  /** With a valid code the corrected routes reach the lock, with "open_lock" for `open_door`
      and "close_lock" for `close_door`, whenever the property's lock id names a device. */
  lemma ValidCodeOpens(
    bookings: seq<Booking>, properties: seq<Property>, codes: seq<AccessCode>, caller: User,
    b: Booking, p: Property, i: int, now: int, command: string)
    requires UniqueKeys(bookings, BookingKey) && UniqueKeys(properties, PropertyKey)
    requires b in bookings && b.userId == caller.id && caller.role == USER
    requires p in properties && p.id == b.propertyId && AccessCodeCrud.DeviceId(p.lockId).Ok?
    requires 0 <= i < |codes| && codes[i].bookingId == b.id && codes[i].validFrom <= now <= codes[i].validUntil
    requires forall j :: 0 <= j < |codes| && j != i ==> codes[j].bookingId != b.id
    ensures DoorRoute(bookings, properties, codes, b.id, codes[i].code, caller, now, command) ==
              Ok(AccessCodeCrud.LockCommand(AccessCodeCrud.DeviceId(p.lockId).value, command))
  {
    HasKeyMember(properties, PropertyKey, p.id);
    FindUnique(properties, PropertyKey, p);
    BookingCrud.GetBookingExact(bookings, properties, b.id, caller, b);
    FindUnique(bookings, BookingKey, b);
    AccessCodeCrud.SingleCodeLookup(codes, b.id, i);
  }

  /** `get_temperature`: only an admin passes; the Celery task it queues is outside this
      model. */
  function TemperatureRoute(caller: User): (r: Result<()>)
    ensures r.Ok? <==> caller.role == ADMIN
    ensures r.Err? ==> r.error == HttpError(403, Dependencies.RolePrefix + "ADMIN")
  {
    var _ :- Dependencies.RoleRequired(TemperatureRoles, caller);
    Ok(())
  }
}
