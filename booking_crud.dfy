/** app/crud/booking.py: stays are created only on free nights, viewed according to the
    caller's role, changed or cancelled only by the guest who booked them. */
module BookingCrud {
  import opened Wrappers
  import opened Seqs
  import opened Models
  import opened Database
  import AccessCodeCrud

  const NotAvailable := "Property is not available for booking."
  const BadRange := "Start date must be before the end date."

  /** The filters of the overlap query of `check_availability`. With no booking to exclude,
      `Booking.id != None` is `id IS NOT NULL` and excludes nothing. */
  predicate Overlaps(b: Booking, propertyId: int, start: int, end: int, exclude: Option<int>) {
    b.propertyId == propertyId && b.startDate < end && b.endDate > start &&
    (exclude.None? || b.id != exclude.value)
  }

  function OverlapsWith(propertyId: int, start: int, end: int, exclude: Option<int>): (p: Booking -> bool)
    ensures forall b :: p(b) == Overlaps(b, propertyId, start, end, exclude)
  {
    (b: Booking) => Overlaps(b, propertyId, start, end, exclude)
  }

  /** `check_availability`: 400 for an empty or reversed stay, else whether no stored stay
      of the property (other than `exclude`) shares a night with it. */
  function CheckAvailability(
    bookings: seq<Booking>, propertyId: int, start: int, end: int, exclude: Option<int>)
    : (r: Result<bool>)
    ensures r.Err? <==> start >= end
    ensures r.Err? ==> r.error == HttpError(400, BadRange)
    ensures r.Ok? ==> (r.value <==> forall b :: b in bookings ==> !Overlaps(b, propertyId, start, end, exclude))
  {
    if start >= end then Fail(400, BadRange)
    else
      var overlapping := Filter(OverlapsWith(propertyId, start, end, exclude), bookings);
      assert |overlapping| > 0 ==> overlapping[0] in overlapping;
      Ok(|overlapping| == 0)
  }

  /** A stay that passed the check shares no night with any stored stay it was checked
      against: the check is exactly the invariant `Disjoint`. */
  lemma AvailableIsDisjoint(bookings: seq<Booking>, row: Booking, exclude: Option<int>)
    ensures CheckAvailability(bookings, row.propertyId, row.startDate, row.endDate, exclude) == Ok(true) <==>
              row.startDate < row.endDate &&
              forall b :: b in bookings && (exclude.None? || b.id != exclude.value) ==> Disjoint(b, row)
  {
  }

  /** Who may see a booking through `get_booking`: an admin always, a guest their own stays,
      an owner the stays at their properties. */
  predicate MayView(caller: User, b: Booking, properties: seq<Property>) {
    match caller.role
    case ADMIN => true
    case USER => b.userId == caller.id
    case OWNER => exists p :: p in properties && p.id == b.propertyId && p.ownerId == caller.id
  }

  /** `get_booking`: 404 for an unknown id, 403 when the caller may not see it. */
  function GetBooking(bookings: seq<Booking>, properties: seq<Property>, id: int, caller: User): (r: Result<Booking>)
    ensures r.Ok? ==> r.value in bookings && r.value.id == id && MayView(caller, r.value, properties)
    ensures (forall b :: b in bookings ==> b.id != id) <==> r == Fail(404, "Booking not found")
    ensures r.Err? && r.error.status != 404 && HasKey(properties, PropertyKey, Find(bookings, BookingKey, id).value.propertyId) ==>
              r == Fail(403, "You are not allowed to view this booking.")
  {
    match Find(bookings, BookingKey, id)
    case None => Fail(404, "Booking not found")
    case Some(b) =>
      if caller.role == USER && b.userId != caller.id then Fail(403, "You are not allowed to view this booking.")
      else if caller.role == OWNER then
        match Find(properties, PropertyKey, b.propertyId)
        case None =>
          HasKeyMember(properties, PropertyKey, b.propertyId);
          Fail(500, "'NoneType' object has no attribute 'owner_id'")
        case Some(p) =>
          if p.ownerId != caller.id then
            HasKeyMember(properties, PropertyKey, b.propertyId);
            Fail(403, "You are not allowed to view this booking.")
          else Ok(b)
      else Ok(b)
  }

  /** On a consistent database `get_booking` succeeds exactly for the one booking with that
      id, when the caller may see it. */
  lemma GetBookingExact(bookings: seq<Booking>, properties: seq<Property>, id: int, caller: User, b: Booking)
    requires UniqueKeys(bookings, BookingKey) && UniqueKeys(properties, PropertyKey)
    requires b in bookings && b.id == id && HasProperty(properties, b.propertyId)
    ensures GetBooking(bookings, properties, id, caller).Ok? <==> MayView(caller, b, properties)
    ensures GetBooking(bookings, properties, id, caller).Ok? ==> GetBooking(bookings, properties, id, caller).value == b
  {
    FindUnique(bookings, BookingKey, b);
    HasKeyMember(properties, PropertyKey, b.propertyId);
    if caller.role == OWNER {
      var q := Find(properties, PropertyKey, b.propertyId).value;
      forall p | p in properties && p.id == b.propertyId ensures p == q {
        FindUnique(properties, PropertyKey, p);
      }
    }
  }

  /** An owner who books a stay at someone else's property cannot see it: the owner rule
      replaces the guest rule instead of adding to it. */
  lemma OwnerCannotViewOwnStay(bookings: seq<Booking>, properties: seq<Property>, caller: User, b: Booking)
    requires UniqueKeys(bookings, BookingKey)
    requires caller.role == OWNER && b in bookings && b.userId == caller.id
    requires forall p :: p in properties && p.id == b.propertyId ==> p.ownerId != caller.id
    ensures GetBooking(bookings, properties, b.id, caller).Err?
  {
    FindUnique(bookings, BookingKey, b);
  }

  /** `get_bookings`: the caller's stays, in table order. */
  function GetBookings(bookings: seq<Booking>, caller: User): (r: seq<Booking>)
    ensures forall b :: b in r <==> b in bookings && b.userId == caller.id
    ensures IsSubsequence(r, bookings)
  {
    FilterIsSubsequence(KeyIs(BookingUserKey, caller.id), bookings);
    Filter(KeyIs(BookingUserKey, caller.id), bookings)
  }

  function OwnedBy(properties: seq<Property>, ownerId: int): (p: Booking -> bool)
    ensures forall b :: p(b) <==> exists q :: q in properties && q.id == b.propertyId && q.ownerId == ownerId
  {
    (b: Booking) => exists q :: q in properties && q.id == b.propertyId && q.ownerId == ownerId
  }

  /** `get_owner_bookings`: the stays at the owner's properties (the join on property id),
      in table order. */
  function GetOwnerBookings(bookings: seq<Booking>, properties: seq<Property>, ownerId: int): (r: seq<Booking>)
    ensures forall b :: b in r <==>
              b in bookings && exists q :: q in properties && q.id == b.propertyId && q.ownerId == ownerId
    ensures IsSubsequence(r, bookings)
  {
    FilterIsSubsequence(OwnedBy(properties, ownerId), bookings);
    Filter(OwnedBy(properties, ownerId), bookings)
  }

  /** The relationships the `Booking` model declares: its property and its user
      (app/models/booking.py:19-20). The one to its payment is commented out on both sides
      (app/models/payment.py:18), so `Booking.payment` does not exist. */
  datatype BookingRelation = PropertyOfBooking | UserOfBooking | PaymentOfBooking

  const DeclaredRelations: set<BookingRelation> := {PropertyOfBooking, UserOfBooking}
  const NoPaymentAttribute := "type object 'Booking' has no attribute 'payment'"

  /** Building the query's `selectinload` options: naming an attribute the model lacks raises
      before the query runs. */
  function EagerLoad(relations: seq<BookingRelation>): (r: Result<()>)
    ensures r.Ok? <==> forall x :: x in relations ==> x in DeclaredRelations
    ensures r.Err? ==> r == Fail(500, NoPaymentAttribute)
  {
    if PaymentOfBooking in relations then Fail(500, NoPaymentAttribute)
    else
      assert forall x :: x in relations ==> x in DeclaredRelations by {
        forall x | x in relations ensures x in DeclaredRelations {
          if x.PropertyOfBooking? {
            assert x == PropertyOfBooking;
          } else {
            assert x == UserOfBooking;
          }
        }
      }
      Ok(())
  }

  /** What `get_bookings` and `get_owner_bookings` ask to load with each booking. */
  const LoadedWithBookings := [PropertyOfBooking, PaymentOfBooking]

  /** `get_bookings` as written: the options are built before the caller's bookings are read,
      and they name `Booking.payment`. */
  function GetBookingsAsWritten(bookings: seq<Booking>, caller: User): (r: Result<seq<Booking>>)
    ensures r.Ok? ==> r.value == GetBookings(bookings, caller)
    ensures r.Err? <==> EagerLoad(LoadedWithBookings).Err?
    ensures r.Err? ==> r.error == EagerLoad(LoadedWithBookings).error
  {
    match EagerLoad(LoadedWithBookings)
    case Err(e) => Err(e)
    case Ok(_) => Ok(GetBookings(bookings, caller))
  }

  /** Every call of `get_bookings` as written ends in 500, whoever asks and whatever is stored. */
  lemma GetBookingsAlwaysFails(bookings: seq<Booking>, caller: User)
    ensures GetBookingsAsWritten(bookings, caller) == Fail(500, NoPaymentAttribute)
  {
    assert LoadedWithBookings[1] !in DeclaredRelations;
  }

  /** `get_owner_bookings` as written, with the same options. */
  function GetOwnerBookingsAsWritten(bookings: seq<Booking>, properties: seq<Property>, ownerId: int)
    : (r: Result<seq<Booking>>)
    ensures r.Ok? ==> r.value == GetOwnerBookings(bookings, properties, ownerId)
    ensures r.Err? <==> EagerLoad(LoadedWithBookings).Err?
    ensures r.Err? ==> r.error == EagerLoad(LoadedWithBookings).error
  {
    match EagerLoad(LoadedWithBookings)
    case Err(e) => Err(e)
    case Ok(_) => Ok(GetOwnerBookings(bookings, properties, ownerId))
  }

  /** Every call of `get_owner_bookings` as written ends in 500. */
  lemma GetOwnerBookingsAlwaysFails(bookings: seq<Booking>, properties: seq<Property>, ownerId: int)
    ensures GetOwnerBookingsAsWritten(bookings, properties, ownerId) == Fail(500, NoPaymentAttribute)
  {
    assert LoadedWithBookings[1] !in DeclaredRelations;
  }

  /** What `create_booking` returns: the new booking with the `booking_price` it computed. That
      price is set on the object, not stored: `bookings` has no such column. */
  datatype CreatedBooking = CreatedBooking(booking: Booking, price: int)

  /** The first part of `create_booking`, up to its first commit: the availability check, the
      property (`scalar_one`, which raises for a missing one), and the new row. */
  function BookingInsert(
    users: seq<User>, properties: seq<Property>, bookings: seq<Booking>, nextId: int,
    data: BookingCreate, caller: User)
    : (r: Result<CreatedBooking>)
    ensures data.startDate >= data.endDate ==> r == Fail(400, BadRange)
    ensures r.Ok? ==>
              r.value.booking == Booking(nextId, caller.id, data.propertyId, data.startDate, data.endDate, data.status)
    ensures r.Ok? ==> data.startDate < data.endDate && forall b :: b in bookings ==> Disjoint(b, r.value.booking)
    ensures r.Ok? ==> HasUser(users, caller.id) && HasProperty(properties, data.propertyId)
    ensures r.Ok? ==> exists p :: (p in properties && p.id == data.propertyId &&
              r.value.price == p.price * (data.endDate - data.startDate))
    ensures data.startDate < data.endDate && (exists b :: b in bookings && Overlaps(b, data.propertyId, data.startDate, data.endDate, None)) ==>
              r == Fail(400, NotAvailable)
  {
    var free :- CheckAvailability(bookings, data.propertyId, data.startDate, data.endDate, None);
    if !free then Fail(400, NotAvailable)
    else match Find(properties, PropertyKey, data.propertyId)
      case None => Fail(500, NoRow)
      case Some(p) =>
        HasKeyMember(properties, PropertyKey, data.propertyId);
        HasKeyMember(users, UserKey, caller.id);
        if !HasUser(users, caller.id) then Fail(500, MissingReference)
        else Ok(CreatedBooking(
          Booking(nextId, caller.id, data.propertyId, data.startDate, data.endDate, data.status),
          p.price * (data.endDate - data.startDate)))
  }

  /** The whole of `create_booking`: after the booking's commit a code valid for one day from
      `now` is stored for it; when that insert fails the error is returned, but the booking
      has already been committed. */
  function CreateBookingResult(
    users: seq<User>, properties: seq<Property>, bookings: seq<Booking>, codes: seq<AccessCode>,
    nextBooking: int, nextCode: int, data: BookingCreate, caller: User, code: string, now: int)
    : (r: Result<CreatedBooking>)
    ensures r.Ok? ==> BookingInsert(users, properties, bookings, nextBooking, data, caller) == r
    ensures BookingInsert(users, properties, bookings, nextBooking, data, caller).Err? ==>
              r == BookingInsert(users, properties, bookings, nextBooking, data, caller)
    ensures BookingInsert(users, properties, bookings, nextBooking, data, caller).Ok? ==>
              (r.Ok? <==> forall c :: c in codes ==> c.code != code)
  {
    var created :- BookingInsert(users, properties, bookings, nextBooking, data, caller);
    var bookings' := bookings + [created.booking];
    AppendPresence(bookings, BookingKey, created.booking, created.booking.id);
    var _ :- AccessCodeCrud.NewAccessCode(codes, bookings', nextCode, created.booking.id, code, now, now + SecondsPerDay);
    Ok(created)
  }

  method CreateBooking(db: Db, data: BookingCreate, caller: User, code: string, now: int)
    returns (r: Result<CreatedBooking>)
    requires db.Valid()
    modifies db`bookings, db`nextBookingId, db`accessCodes, db`nextAccessCodeId
    ensures db.Valid()
    ensures r == CreateBookingResult(db.users, db.properties, old(db.bookings), old(db.accessCodes),
                                     old(db.nextBookingId), old(db.nextAccessCodeId), data, caller, code, now)
    ensures BookingInsert(db.users, db.properties, old(db.bookings), old(db.nextBookingId), data, caller).Err? ==>
              db.bookings == old(db.bookings) && db.nextBookingId == old(db.nextBookingId) &&
              db.accessCodes == old(db.accessCodes) && db.nextAccessCodeId == old(db.nextAccessCodeId)
    ensures BookingInsert(db.users, db.properties, old(db.bookings), old(db.nextBookingId), data, caller).Ok? ==>
              db.bookings == old(db.bookings) +
                [BookingInsert(db.users, db.properties, old(db.bookings), old(db.nextBookingId), data, caller).value.booking] &&
              db.nextBookingId == old(db.nextBookingId) + 1
    ensures r.Ok? ==>
              db.accessCodes == old(db.accessCodes) + [AccessCode(old(db.nextAccessCodeId), r.value.booking.id, code, now, now + SecondsPerDay)]
    ensures r.Err? ==> db.accessCodes == old(db.accessCodes) && db.nextAccessCodeId == old(db.nextAccessCodeId)
  {
    var inserted := BookingInsert(db.users, db.properties, db.bookings, db.nextBookingId, data, caller);
    if inserted.Err? {
      return Err(inserted.error);
    }
    var row := inserted.value.booking;
    var old_bookings := db.bookings;
    AppendBooking(db.users, db.properties, old_bookings, db.nextBookingId, row);
    BookingsKept(old_bookings, old_bookings + [row], db.payments, db.accessCodes, db.nextPaymentId, db.nextAccessCodeId);
    db.bookings := old_bookings + [row];
    db.nextBookingId := db.nextBookingId + 1;
    var issued := AccessCodeCrud.InsertAccessCode(db, row.id, code, now, now + SecondsPerDay);
    if issued.Err? {
      r := Err(issued.error);
    } else {
      r := inserted;
    }
  }

  /** `update_booking`: `get_booking`'s errors, 403 unless the caller booked the stay, the
      availability check on the merged dates when a date is given, and then every field of
      the body is written, `None` included, so a missing date violates NOT NULL. */
  function UpdateBookingResult(
    bookings: seq<Booking>, properties: seq<Property>, id: int, upd: BookingUpdate, caller: User)
    : (r: Result<Booking>)
    ensures r.Ok? ==> upd.startDate.Some? && upd.endDate.Some?
    ensures r.Ok? ==> exists b :: (b in bookings && b.id == id && b.userId == caller.id &&
              MayView(caller, b, properties) &&
              r.value == b.(status := upd.status, startDate := upd.startDate.value, endDate := upd.endDate.value))
    ensures r.Ok? ==> r.value.startDate < r.value.endDate
    ensures r.Ok? ==> forall b :: b in bookings && b.id != id ==> Disjoint(b, r.value)
    ensures GetBooking(bookings, properties, id, caller).Err? ==> r == Err(GetBooking(bookings, properties, id, caller).error)
  {
    var stored :- GetBooking(bookings, properties, id, caller);
    if stored.userId != caller.id then Fail(403, "You are not allowed to update this booking.")
    else
      var _ :- DatesAvailable(bookings, stored, upd);
      if upd.startDate.None? || upd.endDate.None? then Fail(500, NotNull)
      else Ok(stored.(status := upd.status, startDate := upd.startDate.value, endDate := upd.endDate.value))
  }

  /** The date check of `update_booking`: only when a date is given, on the given dates with
      the stored ones filling in, excluding the booking itself. */
  function DatesAvailable(bookings: seq<Booking>, stored: Booking, upd: BookingUpdate): (r: Result<()>)
    ensures upd.startDate.None? && upd.endDate.None? ==> r.Ok?
    ensures r.Ok? && upd.startDate.Some? && upd.endDate.Some? ==>
              upd.startDate.value < upd.endDate.value &&
              forall b :: b in bookings && b.id != stored.id ==>
                Disjoint(b, stored.(startDate := upd.startDate.value, endDate := upd.endDate.value))
    ensures r.Ok? && (upd.startDate.Some? || upd.endDate.Some?) ==>
              Merge(upd.startDate, stored.startDate) < Merge(upd.endDate, stored.endDate) &&
              forall b :: b in bookings && b.id != stored.id ==>
                Disjoint(b, stored.(startDate := Merge(upd.startDate, stored.startDate),
                                    endDate := Merge(upd.endDate, stored.endDate)))
  {
    if upd.startDate.Some? || upd.endDate.Some? then
      var start := Merge(upd.startDate, stored.startDate);
      var end := Merge(upd.endDate, stored.endDate);
      var free :- CheckAvailability(bookings, stored.propertyId, start, end, Some(stored.id));
      if !free then Fail(400, NotAvailable) else Ok(())
    else Ok(())
  }

  /** Changing only the status, which is how the client cancels a stay, always fails: the
      two dates are written as NULL. The same holds when one date is left out. */
  lemma PartialUpdateFails(bookings: seq<Booking>, properties: seq<Property>, id: int, upd: BookingUpdate, caller: User)
    requires upd.startDate.None? || upd.endDate.None?
    ensures UpdateBookingResult(bookings, properties, id, upd, caller).Err?
    ensures GetBooking(bookings, properties, id, caller).Ok? &&
            GetBooking(bookings, properties, id, caller).value.userId == caller.id &&
            upd.startDate.None? && upd.endDate.None? ==>
              UpdateBookingResult(bookings, properties, id, upd, caller) == Fail(500, NotNull)
  {
  }

  /** The merge `update_booking` evidently intends (`model_dump(exclude_unset=True)`): a field
      the update leaves out keeps its stored value. */
  function MergeBookingUpdate(stored: Booking, upd: BookingUpdate): (r: Booking)
    ensures r.id == stored.id && r.userId == stored.userId && r.propertyId == stored.propertyId
    ensures upd.status.Some? ==> r.status == upd.status
    ensures upd.status.None? ==> r.status == stored.status
    ensures upd.startDate.Some? ==> r.startDate == upd.startDate.value
    ensures upd.startDate.None? ==> r.startDate == stored.startDate
    ensures upd.endDate.Some? ==> r.endDate == upd.endDate.value
    ensures upd.endDate.None? ==> r.endDate == stored.endDate
  {
    stored.(status := if upd.status.Some? then upd.status else stored.status,
            startDate := Merge(upd.startDate, stored.startDate),
            endDate := Merge(upd.endDate, stored.endDate))
  }

  /** `update_booking` with that merge: the same checks, then the stored booking with the given
      fields replaced. */
  function UpdateBookingMerged(
    bookings: seq<Booking>, properties: seq<Property>, id: int, upd: BookingUpdate, caller: User)
    : (r: Result<Booking>)
    ensures GetBooking(bookings, properties, id, caller).Err? ==> r == Err(GetBooking(bookings, properties, id, caller).error)
    ensures r.Ok? ==> exists b :: (b in bookings && b.id == id && b.userId == caller.id &&
              MayView(caller, b, properties) && r.value == MergeBookingUpdate(b, upd))
    ensures r.Ok? && (upd.startDate.Some? || upd.endDate.Some?) ==>
              r.value.startDate < r.value.endDate && forall b :: b in bookings && b.id != id ==> Disjoint(b, r.value)
  {
    var stored :- GetBooking(bookings, properties, id, caller);
    if stored.userId != caller.id then Fail(403, "You are not allowed to update this booking.")
    else
      var _ :- DatesAvailable(bookings, stored, upd);
      Ok(MergeBookingUpdate(stored, upd))
  }

  /** With the intended merge, the booker's status-only update succeeds: the status changes and
      the stored dates stay. */
  lemma StatusOnlyUpdateKeepsDates(
    bookings: seq<Booking>, properties: seq<Property>, id: int, status: Option<BookingStatus>, caller: User)
    requires GetBooking(bookings, properties, id, caller).Ok?
    requires GetBooking(bookings, properties, id, caller).value.userId == caller.id
    ensures var stored := GetBooking(bookings, properties, id, caller).value;
            UpdateBookingMerged(bookings, properties, id, BookingUpdate(status, None, None), caller) ==
              Ok(if status.Some? then stored.(status := status) else stored)
  {
  }

  method UpdateBooking(db: Db, id: int, upd: BookingUpdate, caller: User) returns (r: Result<Booking>)
    requires db.Valid()
    modifies db`bookings
    ensures db.Valid()
    ensures r == UpdateBookingResult(old(db.bookings), db.properties, id, upd, caller)
    ensures r.Ok? ==> db.bookings == Replace(old(db.bookings), BookingKey, id, r.value)
    ensures r.Err? ==> db.bookings == old(db.bookings)
  {
    r := UpdateBookingResult(db.bookings, db.properties, id, upd, caller);
    if r.Ok? {
      var row := r.value;
      var old_bookings := db.bookings;
      var b :| b in old_bookings && b.id == id && b.userId == caller.id &&
               row == b.(status := upd.status, startDate := upd.startDate.value, endDate := upd.endDate.value);
      assert HasUser(db.users, row.userId) && HasProperty(db.properties, row.propertyId);
      ReplaceBooking(db.users, db.properties, old_bookings, db.nextBookingId, row);
      BookingsKept(old_bookings, Replace(old_bookings, BookingKey, id, row), db.payments, db.accessCodes,
                   db.nextPaymentId, db.nextAccessCodeId);
      db.bookings := Replace(old_bookings, BookingKey, id, row);
    }
  }

  /** `delete_booking`: `get_booking`'s errors, 403 unless the caller booked the stay, the
      foreign-key violation while a payment refers to it, else the deleted booking. */
  function DeleteBookingResult(
    bookings: seq<Booking>, properties: seq<Property>, payments: seq<Payment>, id: int, caller: User)
    : (r: Result<Booking>)
    ensures r.Ok? ==> r.value in bookings && r.value.id == id && r.value.userId == caller.id
    ensures r.Ok? ==> forall p :: p in payments ==> p.bookingId != id
    ensures GetBooking(bookings, properties, id, caller).Err? ==> r == Err(GetBooking(bookings, properties, id, caller).error)
    ensures GetBooking(bookings, properties, id, caller).Ok? && GetBooking(bookings, properties, id, caller).value.userId != caller.id ==>
              r == Fail(403, "You are not allowed to delete this booking.")
  {
    var stored :- GetBooking(bookings, properties, id, caller);
    if stored.userId != caller.id then Fail(403, "You are not allowed to delete this booking.")
    else if exists p :: p in payments && p.bookingId == id then Fail(500, StillReferenced)
    else Ok(stored)
  }

  /** The delete removes the booking, and its door codes with it (`ON DELETE CASCADE`). */
  method DeleteBooking(db: Db, id: int, caller: User) returns (r: Result<Booking>)
    requires db.Valid()
    modifies db`bookings, db`accessCodes
    ensures db.Valid()
    ensures r == DeleteBookingResult(old(db.bookings), db.properties, db.payments, id, caller)
    ensures r.Ok? ==> db.bookings == RemoveKey(old(db.bookings), BookingKey, id) &&
                      db.accessCodes == RemoveKey(old(db.accessCodes), CodeBookingKey, id)
    ensures r.Err? ==> db.bookings == old(db.bookings) && db.accessCodes == old(db.accessCodes)
  {
    r := DeleteBookingResult(db.bookings, db.properties, db.payments, id, caller);
    if r.Ok? {
      RemoveBookingRows(db, id);
    }
  }

  /** The DELETE of a booking no payment refers to, cascading to its codes. */
  method RemoveBookingRows(db: Db, id: int)
    requires db.Valid()
    requires forall p :: p in db.payments ==> p.bookingId != id
    modifies db`bookings, db`accessCodes
    ensures db.Valid()
    ensures db.bookings == RemoveKey(old(db.bookings), BookingKey, id)
    ensures db.accessCodes == RemoveKey(old(db.accessCodes), CodeBookingKey, id)
  {
    var old_bookings, old_codes := db.bookings, db.accessCodes;
    RemoveBookingCascade(db.users, db.properties, old_bookings, db.payments, old_codes,
                         db.nextBookingId, db.nextPaymentId, db.nextAccessCodeId, id);
    db.bookings, db.accessCodes := RemoveKey(old_bookings, BookingKey, id), RemoveKey(old_codes, CodeBookingKey, id);
  }
}
