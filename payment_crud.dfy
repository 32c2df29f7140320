/** app/crud/payment.py: a guest pays for their own stay, at most the property's nightly
    price per payment; a payment is read, changed or removed by the guest or the property's
    owner. Amounts are integer cents. */
module PaymentCrud {
  import opened Wrappers
  import opened Seqs
  import opened Models
  import opened Database
  import BookingCrud

  const NotPositive := "Payment amount must be positive."
  const NotYourBooking := "You are not allowed to create a payment for this booking."
  const OverPrice := "Payment amount must be less than or equal to the total amount."
  const NotFound := "Payment not found."
  const NotAllowed := "You are not allowed to access this payment."

  /** `create_payment`: 400 for a non-positive amount before anything is read, then
      `get_booking`'s errors, 403 unless the caller booked the stay, 400 when the amount is
      above the property's nightly price, else the new row with the submitted columns. */
  function CreatePaymentResult(
    bookings: seq<Booking>, properties: seq<Property>, nextId: int, data: PaymentCreate, caller: User)
    : (r: Result<Payment>)
    ensures data.amount <= 0 ==> r == Fail(400, NotPositive)
    ensures data.amount > 0 && BookingCrud.GetBooking(bookings, properties, data.bookingId, caller).Err? ==>
              r == Err(BookingCrud.GetBooking(bookings, properties, data.bookingId, caller).error)
    ensures data.amount > 0 && BookingCrud.GetBooking(bookings, properties, data.bookingId, caller).Ok? &&
            BookingCrud.GetBooking(bookings, properties, data.bookingId, caller).value.userId != caller.id ==>
              r == Fail(403, NotYourBooking)
    ensures r.Ok? ==> r.value == Payment(nextId, data.bookingId, data.amount, data.status)
    ensures r.Ok? ==> HasBooking(bookings, data.bookingId)
    ensures r.Ok? ==> 0 < data.amount && exists b, p :: (b in bookings && b.id == data.bookingId &&
              b.userId == caller.id && p in properties && p.id == b.propertyId && data.amount <= p.price)
  {
    if data.amount <= 0 then Fail(400, NotPositive)
    else
      var booking :- BookingCrud.GetBooking(bookings, properties, data.bookingId, caller);
      if booking.userId != caller.id then Fail(403, NotYourBooking)
      else match Find(properties, PropertyKey, booking.propertyId)
        case None => Fail(500, "'NoneType' object has no attribute 'price'")
        case Some(p) =>
          if data.amount > p.price then Fail(400, OverPrice)
          else
            HasKeyMember(bookings, BookingKey, data.bookingId);
            Ok(Payment(nextId, data.bookingId, data.amount, data.status))
  }

  /** On a consistent database a guest's payment for their own stay is refused exactly when
      the amount is outside (0, nightly price]: the bound is the price of one night, not the
      booking's total. */
  lemma CreatePaymentBounds(
    bookings: seq<Booking>, properties: seq<Property>, nextId: int, data: PaymentCreate, caller: User,
    b: Booking, p: Property)
    requires UniqueKeys(bookings, BookingKey) && UniqueKeys(properties, PropertyKey)
    requires b in bookings && b.id == data.bookingId && b.userId == caller.id && caller.role != OWNER
    requires p in properties && p.id == b.propertyId
    ensures CreatePaymentResult(bookings, properties, nextId, data, caller).Ok? <==> 0 < data.amount <= p.price
    ensures 0 < data.amount && p.price < data.amount ==> CreatePaymentResult(bookings, properties, nextId, data, caller) == Fail(400, OverPrice)
  {
    HasKeyMember(properties, PropertyKey, b.propertyId);
    BookingCrud.GetBookingExact(bookings, properties, data.bookingId, caller, b);
    FindUnique(properties, PropertyKey, p);
  }

  method CreatePayment(db: Db, data: PaymentCreate, caller: User) returns (r: Result<Payment>)
    requires db.Valid()
    modifies db`payments, db`nextPaymentId
    ensures db.Valid()
    ensures r == CreatePaymentResult(db.bookings, db.properties, old(db.nextPaymentId), data, caller)
    ensures r.Ok? ==> db.payments == old(db.payments) + [r.value] && db.nextPaymentId == old(db.nextPaymentId) + 1
    ensures r.Err? ==> db.payments == old(db.payments) && db.nextPaymentId == old(db.nextPaymentId)
  {
    r := CreatePaymentResult(db.bookings, db.properties, db.nextPaymentId, data, caller);
    if r.Ok? {
      var row := r.value;
      AppendPayment(db.bookings, db.payments, db.nextPaymentId, row);
      db.payments := db.payments + [row];
      db.nextPaymentId := db.nextPaymentId + 1;
    }
  }

  /** Who may use a payment once `get_booking` has let the caller see its stay: the guest
      who booked it or the property's owner. */
  predicate MayAccess(caller: User, b: Booking, properties: seq<Property>) {
    b.userId == caller.id || exists p :: p in properties && p.id == b.propertyId && p.ownerId == caller.id
  }

  /** `check_user_payment` (and `get_payment`, which is the same call): 404 for an unknown
      payment, `get_booking`'s errors, 403 unless the caller is the guest or the owner. */
  function CheckUserPayment(
    payments: seq<Payment>, bookings: seq<Booking>, properties: seq<Property>, id: int, caller: User)
    : (r: Result<Payment>)
    ensures r == Fail(404, NotFound) <==> forall x :: x in payments ==> x.id != id
    ensures r.Ok? ==> r.value in payments && r.value.id == id
    ensures r.Ok? ==> exists b :: (b in bookings && b.id == r.value.bookingId &&
              BookingCrud.MayView(caller, b, properties) && MayAccess(caller, b, properties))
  {
    match Find(payments, PaymentKey, id)
    case None => Fail(404, NotFound)
    case Some(x) =>
      var booking :- BookingCrud.GetBooking(bookings, properties, x.bookingId, caller);
      if booking.userId != caller.id then
        match Find(properties, PropertyKey, booking.propertyId)
        case None => Fail(500, "'NoneType' object has no attribute 'owner_id'")
        case Some(p) =>
          if p.ownerId != caller.id then Fail(403, NotAllowed)
          else
            assert BookingCrud.MayView(caller, booking, properties);
            Ok(x)
      else Ok(x)
  }

  /** On consistent tables, the guest who booked the stay, or the owner of its property when
      they may view it, is given the payment. */
  lemma GuestOrOwnerGetsPayment(
    payments: seq<Payment>, bookings: seq<Booking>, properties: seq<Property>, caller: User,
    x: Payment, b: Booking)
    requires UniqueKeys(payments, PaymentKey) && UniqueKeys(bookings, BookingKey) && UniqueKeys(properties, PropertyKey)
    requires x in payments && b in bookings && b.id == x.bookingId && HasProperty(properties, b.propertyId)
    requires BookingCrud.MayView(caller, b, properties) && MayAccess(caller, b, properties)
    ensures CheckUserPayment(payments, bookings, properties, x.id, caller) == Ok(x)
  {
    FindUnique(payments, PaymentKey, x);
    BookingCrud.GetBookingExact(bookings, properties, b.id, caller, b);
    HasKeyMember(properties, PropertyKey, b.propertyId);
    if b.userId != caller.id {
      var q := Find(properties, PropertyKey, b.propertyId).value;
      forall p | p in properties && p.id == b.propertyId ensures p == q {
        FindUnique(properties, PropertyKey, p);
      }
    }
  }

  /** A caller who is neither the guest nor the owner is refused with 403 whatever their
      role: an admin, whom `get_booking` lets see every stay, is refused by the second
      check, with its own message. */
  lemma OnlyGuestOrOwnerAccess(
    payments: seq<Payment>, bookings: seq<Booking>, properties: seq<Property>, caller: User,
    x: Payment, b: Booking)
    requires UniqueKeys(payments, PaymentKey) && UniqueKeys(bookings, BookingKey) && UniqueKeys(properties, PropertyKey)
    requires x in payments && b in bookings && b.id == x.bookingId && HasProperty(properties, b.propertyId)
    requires !MayAccess(caller, b, properties)
    ensures CheckUserPayment(payments, bookings, properties, x.id, caller).Err?
    ensures CheckUserPayment(payments, bookings, properties, x.id, caller).error.status == 403
    ensures caller.role == ADMIN ==>
              CheckUserPayment(payments, bookings, properties, x.id, caller) == Fail(403, NotAllowed)
  {
    FindUnique(payments, PaymentKey, x);
    BookingCrud.GetBookingExact(bookings, properties, b.id, caller, b);
    HasKeyMember(properties, PropertyKey, b.propertyId);
  }

  /** The `setattr` loop over `model_dump(exclude_none=True)`: a given amount or status
      replaces the stored one; the id and the booking are never touched. No bound is checked
      on the new amount. */
  function ApplyPaymentUpdate(x: Payment, upd: PaymentUpdate): (r: Payment)
    ensures r.id == x.id && r.bookingId == x.bookingId
    ensures upd.amount.Some? ==> r.amount == upd.amount.value
    ensures upd.amount.None? ==> r.amount == x.amount
    ensures upd.status.Some? ==> r.status == upd.status.value
    ensures upd.status.None? ==> r.status == x.status
  {
    x.(amount := Merge(upd.amount, x.amount), status := Merge(upd.status, x.status))
  }

  /** An empty update changes nothing, and an update applied twice is applied once. */
  lemma PaymentUpdateIdempotent(x: Payment, upd: PaymentUpdate)
    ensures upd == PaymentUpdate(None, None) ==> ApplyPaymentUpdate(x, upd) == x
    ensures ApplyPaymentUpdate(ApplyPaymentUpdate(x, upd), upd) == ApplyPaymentUpdate(x, upd)
  {
  }

  /** `update_payment`: the access check, then the given fields copied in. */
  function UpdatePaymentResult(
    payments: seq<Payment>, bookings: seq<Booking>, properties: seq<Property>, id: int,
    upd: PaymentUpdate, caller: User)
    : (r: Result<Payment>)
    ensures CheckUserPayment(payments, bookings, properties, id, caller).Err? ==>
              r == Err(CheckUserPayment(payments, bookings, properties, id, caller).error)
    ensures CheckUserPayment(payments, bookings, properties, id, caller).Ok? ==> r.Ok?
    ensures r.Ok? ==> exists x :: (x in payments && x.id == id && r.value == ApplyPaymentUpdate(x, upd))
  {
    var x :- CheckUserPayment(payments, bookings, properties, id, caller);
    Ok(ApplyPaymentUpdate(x, upd))
  }

  /** The stored amount can leave the bounds `create_payment` enforces: an update to zero
      cents is accepted for any payment the caller may access. */
  lemma UpdateSkipsAmountBounds(
    payments: seq<Payment>, bookings: seq<Booking>, properties: seq<Property>, id: int, caller: User)
    requires CheckUserPayment(payments, bookings, properties, id, caller).Ok?
    ensures UpdatePaymentResult(payments, bookings, properties, id, PaymentUpdate(Some(0), None), caller).Ok?
    ensures UpdatePaymentResult(payments, bookings, properties, id, PaymentUpdate(Some(0), None), caller).value.amount == 0
  {
  }

  method UpdatePayment(db: Db, id: int, upd: PaymentUpdate, caller: User) returns (r: Result<Payment>)
    requires db.Valid()
    modifies db`payments
    ensures db.Valid()
    ensures r == UpdatePaymentResult(old(db.payments), db.bookings, db.properties, id, upd, caller)
    ensures r.Ok? ==> db.payments == Replace(old(db.payments), PaymentKey, id, r.value)
    ensures r.Err? ==> db.payments == old(db.payments)
  {
    r := UpdatePaymentResult(db.payments, db.bookings, db.properties, id, upd, caller);
    if r.Ok? {
      var row := r.value;
      var old_payments := db.payments;
      var x :| x in old_payments && x.id == id && row == ApplyPaymentUpdate(x, upd);
      assert HasBooking(db.bookings, row.bookingId);
      ReplacePayment(db.bookings, old_payments, db.nextPaymentId, row);
      db.payments := Replace(old_payments, PaymentKey, id, row);
    }
  }

  /** `delete_payment`: the access check, then the payment is removed and returned. */
  method DeletePayment(db: Db, id: int, caller: User) returns (r: Result<Payment>)
    requires db.Valid()
    modifies db`payments
    ensures db.Valid()
    ensures r == CheckUserPayment(old(db.payments), db.bookings, db.properties, id, caller)
    ensures r.Ok? ==> db.payments == RemoveKey(old(db.payments), PaymentKey, id)
    ensures r.Err? ==> db.payments == old(db.payments)
  {
    r := CheckUserPayment(db.payments, db.bookings, db.properties, id, caller);
    if r.Ok? {
      RemovePayment(db.bookings, db.payments, db.nextPaymentId, id);
      db.payments := RemoveKey(db.payments, PaymentKey, id);
    }
  }

  /** Deleting a payment removes that payment alone: every other payment stays, in order. */
  lemma DeleteKeepsOthers(payments: seq<Payment>, id: int)
    requires UniqueKeys(payments, PaymentKey)
    ensures forall x :: x in RemoveKey(payments, PaymentKey, id) <==> x in payments && x.id != id
    ensures IsSubsequence(RemoveKey(payments, PaymentKey, id), payments)
    ensures HasKey(payments, PaymentKey, id) ==> |RemoveKey(payments, PaymentKey, id)| == |payments| - 1
  {
    FilterIsSubsequence(KeyIsNot(PaymentKey, id), payments);
    RemoveKeyCount(payments, PaymentKey, id);
  }
}
