/** The backend's database as in-memory tables. Every CRUD operation reads and reassigns these
    tables; the constraints declared on the columns in app/models (primary keys, NOT NULL,
    UNIQUE, FOREIGN KEY) are the invariant `Valid` that every operation keeps. */
module Database {
  import opened Wrappers
  import opened Seqs
  import opened Models

  // The errors the database raises, which reach the client as a 500.
  const MultipleRows := "Multiple rows were found when one or none was required"
  const NoRow := "No row was found when one was required"
  const DuplicateKey := "duplicate key value violates unique constraint"
  const MissingReference := "insert or update violates foreign key constraint"
  const StillReferenced := "update or delete violates foreign key constraint"
  const NotNull := "null value in column violates not-null constraint"

  predicate DistinctEmails(a: User, b: User) {
    a.email != b.email
  }

  predicate DistinctCodes(a: AccessCode, b: AccessCode) {
    a.code != b.code
  }

  /** `lock_id` is UNIQUE; like every SQL unique column it may be NULL more than once. */
  predicate DistinctLockIds(a: Property, b: Property) {
    a.lockId.Some? ==> a.lockId != b.lockId
  }

  /** Two stays that do not share a night of the same property. */
  predicate Disjoint(a: Booking, b: Booking) {
    a.propertyId != b.propertyId || a.endDate <= b.startDate || b.endDate <= a.startDate
  }

  ghost predicate UniqueEmails(users: seq<User>) {
    Pairwise(users, DistinctEmails)
  }

  ghost predicate UniqueCodes(codes: seq<AccessCode>) {
    Pairwise(codes, DistinctCodes)
  }

  ghost predicate UniqueLockIds(properties: seq<Property>) {
    Pairwise(properties, DistinctLockIds)
  }

  /** No property is booked twice for the same night: the availability check of
      `create_booking` and `update_booking` admits no other table. */
  ghost predicate NoDoubleBooking(bookings: seq<Booking>) {
    Pairwise(bookings, Disjoint)
  }

  /** Every stored stay is non-empty: the availability check admits no other. */
  ghost predicate WellFormedStays(bookings: seq<Booking>) {
    forall b :: b in bookings ==> b.startDate < b.endDate
  }

  predicate HasUser(users: seq<User>, id: int) {
    HasKey(users, UserKey, id)
  }

  predicate HasProperty(properties: seq<Property>, id: int) {
    HasKey(properties, PropertyKey, id)
  }

  predicate HasBooking(bookings: seq<Booking>, id: int) {
    HasKey(bookings, BookingKey, id)
  }

  // The constraints of each table. A table's FOREIGN KEY columns point at existing rows of
  // the tables it references.

  ghost predicate UsersValid(users: seq<User>, next: int) {
    Keyed(users, UserKey, next) && UniqueEmails(users)
  }

  ghost predicate PropertiesValid(users: seq<User>, properties: seq<Property>, next: int) {
    Keyed(properties, PropertyKey, next) && UniqueLockIds(properties) &&
    forall p :: p in properties ==> HasUser(users, p.ownerId)
  }

  ghost predicate BookingsValid(users: seq<User>, properties: seq<Property>, bookings: seq<Booking>, next: int) {
    Keyed(bookings, BookingKey, next) && WellFormedStays(bookings) && NoDoubleBooking(bookings) &&
    forall b :: b in bookings ==> HasUser(users, b.userId) && HasProperty(properties, b.propertyId)
  }

  ghost predicate PaymentsValid(bookings: seq<Booking>, payments: seq<Payment>, next: int) {
    Keyed(payments, PaymentKey, next) && forall p :: p in payments ==> HasBooking(bookings, p.bookingId)
  }

  ghost predicate CodesValid(bookings: seq<Booking>, codes: seq<AccessCode>, next: int) {
    Keyed(codes, AccessCodeKey, next) && UniqueCodes(codes) &&
    forall c :: c in codes ==> HasBooking(bookings, c.bookingId)
  }

  // When a referenced table keeps every key it had, the tables that reference it stay valid.

  lemma UsersKept(users: seq<User>, users': seq<User>, properties: seq<Property>, bookings: seq<Booking>,
    nextProperty: int, nextBooking: int)
    requires PropertiesValid(users, properties, nextProperty)
    requires BookingsValid(users, properties, bookings, nextBooking)
    requires forall k :: HasUser(users, k) ==> HasUser(users', k)
    ensures PropertiesValid(users', properties, nextProperty)
    ensures BookingsValid(users', properties, bookings, nextBooking)
  {
  }

  lemma PropertiesKept(users: seq<User>, properties: seq<Property>, properties': seq<Property>,
    bookings: seq<Booking>, nextBooking: int)
    requires BookingsValid(users, properties, bookings, nextBooking)
    requires forall k :: HasProperty(properties, k) ==> HasProperty(properties', k)
    ensures BookingsValid(users, properties', bookings, nextBooking)
  {
  }

  lemma BookingsKept(bookings: seq<Booking>, bookings': seq<Booking>, payments: seq<Payment>,
    codes: seq<AccessCode>, nextPayment: int, nextCode: int)
    requires PaymentsValid(bookings, payments, nextPayment)
    requires CodesValid(bookings, codes, nextCode)
    requires forall k :: HasBooking(bookings, k) ==> HasBooking(bookings', k)
    ensures PaymentsValid(bookings', payments, nextPayment)
    ensures CodesValid(bookings', codes, nextCode)
  {
  }

  /** A new stay of an existing user at an existing property, with the next id, that is
      non-empty and shares no night with a stored stay. */
  lemma AppendBooking(users: seq<User>, properties: seq<Property>, bookings: seq<Booking>, next: int, row: Booking)
    requires BookingsValid(users, properties, bookings, next)
    requires row.id == next && row.startDate < row.endDate
    requires HasUser(users, row.userId) && HasProperty(properties, row.propertyId)
    requires forall b :: b in bookings ==> Disjoint(b, row)
    ensures BookingsValid(users, properties, bookings + [row], next + 1)
    ensures forall k :: HasBooking(bookings, k) ==> HasBooking(bookings + [row], k)
  {
    AppendKeepsKeys(bookings, BookingKey, next, row);
    AppendPairwise(bookings, Disjoint, row);
    forall k | HasBooking(bookings, k) ensures HasBooking(bookings + [row], k) {
      AppendPresence(bookings, BookingKey, row, k);
    }
  }

  /** A stored stay moved to new dates that share no night with any other stay. */
  lemma ReplaceBooking(users: seq<User>, properties: seq<Property>, bookings: seq<Booking>, next: int, row: Booking)
    requires BookingsValid(users, properties, bookings, next)
    requires row.startDate < row.endDate
    requires HasUser(users, row.userId) && HasProperty(properties, row.propertyId)
    requires forall b :: b in bookings && b.id != row.id ==> Disjoint(b, row)
    ensures BookingsValid(users, properties, Replace(bookings, BookingKey, row.id, row), next)
    ensures forall k :: HasBooking(bookings, k) <==> HasBooking(Replace(bookings, BookingKey, row.id, row), k)
  {
    var r := Replace(bookings, BookingKey, row.id, row);
    ReplaceKeepsKeys(bookings, BookingKey, next, row);
    ReplacePairwise(bookings, BookingKey, row, Disjoint);
    forall k ensures HasBooking(bookings, k) <==> HasBooking(r, k) {
      ReplaceKeepsPresence(bookings, BookingKey, row, k);
    }
    forall x | x in r ensures x.startDate < x.endDate && HasUser(users, x.userId) && HasProperty(properties, x.propertyId) {
      var i :| 0 <= i < |r| && r[i] == x;
      assert bookings[i] in bookings;
    }
  }

  /** A stay removed: what is left stays valid, and every other booking is still there. */
  lemma RemoveBooking(users: seq<User>, properties: seq<Property>, bookings: seq<Booking>, next: int, id: int)
    requires BookingsValid(users, properties, bookings, next)
    ensures BookingsValid(users, properties, RemoveKey(bookings, BookingKey, id), next)
    ensures forall k :: HasBooking(bookings, k) && k != id ==> HasBooking(RemoveKey(bookings, BookingKey, id), k)
  {
    var p := KeyIsNot(BookingKey, id);
    FilterKeepsKeys(p, bookings, BookingKey, next);
    FilterPairwise(p, bookings, Disjoint);
    forall k | HasBooking(bookings, k) && k != id ensures HasBooking(RemoveKey(bookings, BookingKey, id), k) {
      HasKeyMember(bookings, BookingKey, k);
      FilterPresence(p, bookings, BookingKey, k);
    }
  }

  /** A stay no payment refers to removed, with its codes: every table stays valid. */
  lemma RemoveBookingCascade(users: seq<User>, properties: seq<Property>, bookings: seq<Booking>,
    payments: seq<Payment>, codes: seq<AccessCode>, nextBooking: int, nextPayment: int, nextCode: int, id: int)
    requires BookingsValid(users, properties, bookings, nextBooking)
    requires PaymentsValid(bookings, payments, nextPayment) && CodesValid(bookings, codes, nextCode)
    requires forall p :: p in payments ==> p.bookingId != id
    ensures BookingsValid(users, properties, RemoveKey(bookings, BookingKey, id), nextBooking)
    ensures PaymentsValid(RemoveKey(bookings, BookingKey, id), payments, nextPayment)
    ensures CodesValid(RemoveKey(bookings, BookingKey, id), RemoveKey(codes, CodeBookingKey, id), nextCode)
  {
    RemoveBooking(users, properties, bookings, nextBooking, id);
    var p := KeyIsNot(CodeBookingKey, id);
    FilterKeepsKeys(p, codes, AccessCodeKey, nextCode);
    FilterPairwise(p, codes, DistinctCodes);
  }

  /** A new code for an existing booking, with the next id and an unused code. */
  lemma AppendCode(bookings: seq<Booking>, codes: seq<AccessCode>, next: int, row: AccessCode)
    requires CodesValid(bookings, codes, next)
    requires row.id == next && HasBooking(bookings, row.bookingId)
    requires forall c :: c in codes ==> c.code != row.code
    ensures CodesValid(bookings, codes + [row], next + 1)
  {
    AppendKeepsKeys(codes, AccessCodeKey, next, row);
    AppendPairwise(codes, DistinctCodes, row);
  }

  /** A stored property with changed columns: its owner still exists, its lock id is used by
      no other property, and the set of property ids is what it was. */
  lemma ReplaceProperty(users: seq<User>, properties: seq<Property>, bookings: seq<Booking>,
    nextProperty: int, nextBooking: int, row: Property)
    requires PropertiesValid(users, properties, nextProperty)
    requires BookingsValid(users, properties, bookings, nextBooking)
    requires HasUser(users, row.ownerId)
    requires forall q :: q in properties && q.id != row.id ==> DistinctLockIds(q, row) && DistinctLockIds(row, q)
    ensures PropertiesValid(users, Replace(properties, PropertyKey, row.id, row), nextProperty)
    ensures BookingsValid(users, Replace(properties, PropertyKey, row.id, row), bookings, nextBooking)
  {
    var r := Replace(properties, PropertyKey, row.id, row);
    ReplaceKeepsKeys(properties, PropertyKey, nextProperty, row);
    ReplacePairwise(properties, PropertyKey, row, DistinctLockIds);
    forall x | x in r ensures HasUser(users, x.ownerId) {
      var i :| 0 <= i < |r| && r[i] == x;
      assert properties[i] in properties;
    }
    forall k | HasProperty(properties, k) ensures HasProperty(r, k) {
      ReplaceKeepsPresence(properties, PropertyKey, row, k);
    }
    PropertiesKept(users, properties, r, bookings, nextBooking);
  }

  /** A property no booking refers to removed: every table stays valid. */
  lemma RemoveProperty(users: seq<User>, properties: seq<Property>, bookings: seq<Booking>,
    nextProperty: int, nextBooking: int, id: int)
    requires PropertiesValid(users, properties, nextProperty)
    requires BookingsValid(users, properties, bookings, nextBooking)
    requires forall b :: b in bookings ==> b.propertyId != id
    ensures PropertiesValid(users, RemoveKey(properties, PropertyKey, id), nextProperty)
    ensures BookingsValid(users, RemoveKey(properties, PropertyKey, id), bookings, nextBooking)
  {
    var p := KeyIsNot(PropertyKey, id);
    FilterKeepsKeys(p, properties, PropertyKey, nextProperty);
    FilterPairwise(p, properties, DistinctLockIds);
    forall b | b in bookings ensures HasProperty(RemoveKey(properties, PropertyKey, id), b.propertyId) {
      HasKeyMember(properties, PropertyKey, b.propertyId);
      FilterPresence(p, properties, PropertyKey, b.propertyId);
    }
  }

  /** A new payment for an existing booking, with the next id. */
  lemma AppendPayment(bookings: seq<Booking>, payments: seq<Payment>, next: int, row: Payment)
    requires PaymentsValid(bookings, payments, next)
    requires row.id == next && HasBooking(bookings, row.bookingId)
    ensures PaymentsValid(bookings, payments + [row], next + 1)
  {
    AppendKeepsKeys(payments, PaymentKey, next, row);
  }

  /** A stored payment with changed columns, still for an existing booking. */
  lemma ReplacePayment(bookings: seq<Booking>, payments: seq<Payment>, next: int, row: Payment)
    requires PaymentsValid(bookings, payments, next)
    requires HasBooking(bookings, row.bookingId)
    ensures PaymentsValid(bookings, Replace(payments, PaymentKey, row.id, row), next)
  {
    var r := Replace(payments, PaymentKey, row.id, row);
    ReplaceKeepsKeys(payments, PaymentKey, next, row);
    forall x | x in r ensures HasBooking(bookings, x.bookingId) {
      var i :| 0 <= i < |r| && r[i] == x;
      assert payments[i] in payments;
    }
  }

  lemma RemovePayment(bookings: seq<Booking>, payments: seq<Payment>, next: int, id: int)
    requires PaymentsValid(bookings, payments, next)
    ensures PaymentsValid(bookings, RemoveKey(payments, PaymentKey, id), next)
  {
    FilterKeepsKeys(KeyIsNot(PaymentKey, id), payments, PaymentKey, next);
  }

  class Db {
    var users: seq<User>
    var properties: seq<Property>
    var bookings: seq<Booking>
    var payments: seq<Payment>
    var accessCodes: seq<AccessCode>

    // The next value of each table's id sequence.
    var nextUserId: int
    var nextPropertyId: int
    var nextBookingId: int
    var nextPaymentId: int
    var nextAccessCodeId: int

    ghost predicate Valid()
      reads this
    {
      UsersValid(users, nextUserId) &&
      PropertiesValid(users, properties, nextPropertyId) &&
      BookingsValid(users, properties, bookings, nextBookingId) &&
      PaymentsValid(bookings, payments, nextPaymentId) &&
      CodesValid(bookings, accessCodes, nextAccessCodeId)
    }

    constructor ()
      ensures Valid()
      ensures users == [] && properties == [] && bookings == [] && payments == [] && accessCodes == []
      ensures nextUserId == 1 && nextPropertyId == 1 && nextBookingId == 1
      ensures nextPaymentId == 1 && nextAccessCodeId == 1
    {
      users, properties, bookings, payments, accessCodes := [], [], [], [], [];
      nextUserId, nextPropertyId, nextBookingId, nextPaymentId, nextAccessCodeId := 1, 1, 1, 1, 1;
    }
  }
}
