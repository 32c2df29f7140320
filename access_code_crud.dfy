/** app/crud/access_code.py: door codes attached to bookings. A booking's code is looked up
    by booking id with `scalar_one_or_none`, so a booking with two codes makes every lookup
    fail. The random generator (`secrets.token_hex`) and the clock are parameters. */
module AccessCodeCrud {
  import opened Wrappers
  import opened Seqs
  import opened Models
  import opened Database

  /** The codes of one booking, in table order. */
  function CodesOf(codes: seq<AccessCode>, bookingId: int): (r: seq<AccessCode>)
    ensures forall c :: c in r <==> c in codes && c.bookingId == bookingId
  {
    Filter(KeyIs(CodeBookingKey, bookingId), codes)
  }

  /** `get_access_code`: no code is `None`, one code is that code, two or more raise. */
  function GetAccessCode(codes: seq<AccessCode>, bookingId: int): (r: Result<Option<AccessCode>>)
    ensures r == Ok(None) <==> forall c :: c in codes ==> c.bookingId != bookingId
    ensures r.Ok? && r.value.Some? ==> r.value.value in codes && r.value.value.bookingId == bookingId
    ensures r.Ok? && r.value.Some? ==>
              forall c :: c in codes && c.bookingId == bookingId ==> c == r.value.value
    ensures r.Err? ==> r.error == HttpError(500, MultipleRows)
    ensures r.Err? ==> exists c :: c in codes && c.bookingId == bookingId
  {
    var found := CodesOf(codes, bookingId);
    if |found| == 0 then Ok(None)
    else if |found| == 1 then
      assert found[0] in found;
      Ok(Some(found[0]))
    else
      assert found[0] in found;
      Fail(500, MultipleRows)
  }

  /** A booking that holds two codes can no longer have its code read. */
  lemma SecondCodeBreaksLookup(codes: seq<AccessCode>, bookingId: int, i: int, j: int)
    requires 0 <= i < j < |codes|
    requires codes[i].bookingId == bookingId && codes[j].bookingId == bookingId
    ensures GetAccessCode(codes, bookingId) == Fail(500, MultipleRows)
  {
    FilterKeepsTwo(KeyIs(CodeBookingKey, bookingId), codes, i, j);
  }

  /** A booking that holds exactly one code has that code read back. */
  lemma SingleCodeLookup(codes: seq<AccessCode>, bookingId: int, i: int)
    requires 0 <= i < |codes| && codes[i].bookingId == bookingId
    requires forall j :: 0 <= j < |codes| && j != i ==> codes[j].bookingId != bookingId
    ensures GetAccessCode(codes, bookingId) == Ok(Some(codes[i]))
  {
    FilterSingle(KeyIs(CodeBookingKey, bookingId), codes, i);
  }

  /** The row an INSERT into `access_codes` stores, or the constraint it violates: the
      booking must exist and the code must be unused. */
  function NewAccessCode(
    codes: seq<AccessCode>, bookings: seq<Booking>, nextId: int,
    bookingId: int, code: string, validFrom: int, validUntil: int)
    : (r: Result<AccessCode>)
    ensures r.Ok? <==> HasBooking(bookings, bookingId) && forall c :: c in codes ==> c.code != code
    ensures r.Ok? ==> r.value == AccessCode(nextId, bookingId, code, validFrom, validUntil)
    ensures r.Err? ==> r.error.status == 500
  {
    if !HasBooking(bookings, bookingId) then Fail(500, MissingReference)
    else if exists c :: c in codes && c.code == code then Fail(500, DuplicateKey)
    else Ok(AccessCode(nextId, bookingId, code, validFrom, validUntil))
  }

  /** The INSERT itself; shared by `create_access_code` and `create_booking`. */
  method InsertAccessCode(db: Db, bookingId: int, code: string, validFrom: int, validUntil: int)
    returns (r: Result<AccessCode>)
    requires db.Valid()
    modifies db`accessCodes, db`nextAccessCodeId
    ensures db.Valid()
    ensures r == NewAccessCode(old(db.accessCodes), db.bookings, old(db.nextAccessCodeId),
                               bookingId, code, validFrom, validUntil)
    ensures r.Ok? ==> db.accessCodes == old(db.accessCodes) + [r.value] &&
                      db.nextAccessCodeId == old(db.nextAccessCodeId) + 1
    ensures r.Err? ==> db.accessCodes == old(db.accessCodes) && db.nextAccessCodeId == old(db.nextAccessCodeId)
  {
    r := NewAccessCode(db.accessCodes, db.bookings, db.nextAccessCodeId, bookingId, code, validFrom, validUntil);
    if r.Ok? {
      var row := r.value;
      var codes := db.accessCodes;
      AppendCode(db.bookings, codes, db.nextAccessCodeId, row);
      db.accessCodes := codes + [row];
      db.nextAccessCodeId := db.nextAccessCodeId + 1;
    }
  }

  /** `create_access_code`: a fresh random code for the booking, valid over the given span. */
  method CreateAccessCode(db: Db, bookingId: int, validFrom: int, validUntil: int, random: string)
    returns (r: Result<AccessCode>)
    requires db.Valid()
    modifies db`accessCodes, db`nextAccessCodeId
    ensures db.Valid()
    ensures r == NewAccessCode(old(db.accessCodes), db.bookings, old(db.nextAccessCodeId),
                               bookingId, random, validFrom, validUntil)
    ensures r.Ok? ==> db.accessCodes == old(db.accessCodes) + [r.value] &&
                      db.nextAccessCodeId == old(db.nextAccessCodeId) + 1
    ensures r.Err? ==> db.accessCodes == old(db.accessCodes) && db.nextAccessCodeId == old(db.nextAccessCodeId)
  {
    r := InsertAccessCode(db, bookingId, random, validFrom, validUntil);
  }

  /** `delete_access_code`: the lookup's error, 404 without a code, else the code, whose row
      is deleted. */
  function DeleteAccessCodeResult(codes: seq<AccessCode>, bookingId: int): (r: Result<AccessCode>)
    ensures r.Ok? <==> GetAccessCode(codes, bookingId).Ok? && GetAccessCode(codes, bookingId).value.Some?
    ensures r.Ok? ==> GetAccessCode(codes, bookingId) == Ok(Some(r.value))
    ensures (forall c :: c in codes ==> c.bookingId != bookingId) ==> r == Fail(404, "Access code not found")
  {
    var found :- GetAccessCode(codes, bookingId);
    if found.None? then Fail(404, "Access code not found") else Ok(found.value)
  }

  method DeleteAccessCode(db: Db, bookingId: int) returns (r: Result<AccessCode>)
    requires db.Valid()
    modifies db`accessCodes
    ensures db.Valid()
    ensures r == DeleteAccessCodeResult(old(db.accessCodes), bookingId)
    ensures r.Ok? ==> db.accessCodes == RemoveKey(old(db.accessCodes), CodeBookingKey, bookingId)
    ensures r.Err? ==> db.accessCodes == old(db.accessCodes)
  {
    r := DeleteAccessCodeResult(db.accessCodes, bookingId);
    if r.Ok? {
      var p := KeyIsNot(CodeBookingKey, bookingId);
      FilterKeepsKeys(p, db.accessCodes, AccessCodeKey, db.nextAccessCodeId);
      FilterPairwise(p, db.accessCodes, DistinctCodes);
      db.accessCodes := RemoveKey(db.accessCodes, CodeBookingKey, bookingId);
    }
  }

  /** Deleting a booking's code leaves it without one, and every other booking's lookup as
      it was. */
  lemma DeleteThenGet(codes: seq<AccessCode>, bookingId: int, other: int)
    requires DeleteAccessCodeResult(codes, bookingId).Ok?
    ensures GetAccessCode(RemoveKey(codes, CodeBookingKey, bookingId), bookingId) == Ok(None)
    ensures other != bookingId ==>
              CodesOf(RemoveKey(codes, CodeBookingKey, other), bookingId) == CodesOf(codes, bookingId)
  {
    if other != bookingId {
      FilterFilter(KeyIsNot(CodeBookingKey, other), KeyIs(CodeBookingKey, bookingId),
                   KeyIs(CodeBookingKey, bookingId), codes);
    }
  }

  /** The code admits `code` at the instant `now`. */
  predicate AdmitsAt(c: AccessCode, code: string, now: int) {
    c.code == code && c.validFrom <= now <= c.validUntil
  }

  /** `is_access_code_valid`: false without a code, for another code, or outside the window;
      the lookup's error otherwise propagates. */
  function IsAccessCodeValid(codes: seq<AccessCode>, bookingId: int, code: string, now: int): (r: Result<bool>)
    ensures r.Err? <==> GetAccessCode(codes, bookingId).Err?
    ensures r == Ok(true) ==> exists c :: c in codes && c.bookingId == bookingId && AdmitsAt(c, code, now)
    ensures r.Ok? && (exists c :: c in codes && c.bookingId == bookingId && AdmitsAt(c, code, now)) ==>
              r == Ok(true)
  {
    var found :- GetAccessCode(codes, bookingId);
    if found.None? then Ok(false)
    else if found.value.code != code then Ok(false)
    else if found.value.validFrom > now || found.value.validUntil < now then Ok(false)
    else Ok(true)
  }

  // -------------------------------------------------------------------------------------
  // Lock commands. The IoT hub call and the encryption of the command are outside this
  // model: a successful call is the command addressed to the lock's device.

  datatype LockCommand = LockCommand(deviceId: string, command: string)

  /** The position of the first ':' in `s`, if any. */
  function FirstColon(s: string): (r: Option<nat>)
    ensures r.Some? ==> r.value < |s| && s[r.value] == ':' && forall i :: 0 <= i < r.value ==> s[i] != ':'
    ensures r.None? ==> forall i :: 0 <= i < |s| ==> s[i] != ':'
  {
    if |s| == 0 then None
    else if s[0] == ':' then Some(0)
    else match FirstColon(s[1..])
      case None => None
      case Some(k) => Some(k + 1)
  }

  /** `lock_id.split(":")[0]`, which fails unless there is a ':' for the key half to follow. */
  function DeviceId(lockId: Option<string>): (r: Result<string>)
    ensures r.Ok? ==> lockId.Some? && r.value + [':'] <= lockId.value && ':' !in r.value
    ensures lockId.None? ==> r.Err?
  {
    if lockId.None? then Fail(500, "'NoneType' object has no attribute 'split'")
    else match FirstColon(lockId.value)
      case None => Fail(500, "list index out of range")
      case Some(k) =>
        assert lockId.value[..k] + [':'] == lockId.value[..k + 1];
        Ok(lockId.value[..k])
  }

  /** `send_smart_lock_command(db, booking_id, command)` as it is evidently meant: 404 for an
      unknown booking, the code lookup's error, 404 without a code, else the command sent to
      the device named by the property's lock id. */
  function SendLockCommand(
    bookings: seq<Booking>, properties: seq<Property>, codes: seq<AccessCode>,
    bookingId: int, command: string)
    : (r: Result<LockCommand>)
    ensures r.Ok? ==> r.value.command == command
    ensures r.Ok? ==> exists b, p :: (b in bookings && b.id == bookingId && p in properties &&
              p.id == b.propertyId && DeviceId(p.lockId) == Ok(r.value.deviceId))
    ensures r.Ok? ==> GetAccessCode(codes, bookingId).Ok? && GetAccessCode(codes, bookingId).value.Some?
    ensures (forall b :: b in bookings ==> b.id != bookingId) ==> r == Fail(404, "Booking not found")
  {
    match Find(bookings, BookingKey, bookingId)
    case None => Fail(404, "Booking not found")
    case Some(b) =>
      var found :- GetAccessCode(codes, bookingId);
      if found.None? then Fail(404, "Access code not found")
      else match Find(properties, PropertyKey, b.propertyId)
        case None => Fail(500, NoRow)
        case Some(p) =>
          var device :- DeviceId(p.lockId);
          Ok(LockCommand(device, command))
  }

  /** `send_smart_lock_command` as written and as the door routes call it: the routes pass the
      booking object where its id is expected, and the lock is read through an attribute the
      property does not have (`smart_lock_id`; the column is `lock_id`). Either fault makes
      the call raise, so it always answers 500. */
  function SendLockCommandAsWritten(
    bookings: seq<Booking>, codes: seq<AccessCode>, booking: Booking, command: string)
    : (r: Result<LockCommand>)
    ensures r.Err? && r.error.status == 500
  {
    Fail(500, "Internal Server Error")
  }
}
