/** Rows of the backend's tables (app/models) and the request bodies of its endpoints
    (app/schemas). Money is in integer cents, dates are day numbers, datetimes are seconds. */
module Models {
  import opened Wrappers

  datatype Role = USER | ADMIN | OWNER

  /** The enum's `.value`, as the rejection message of `role_required` prints it. */
  function RoleValue(r: Role): string {
    match r
    case USER => "USER"
    case ADMIN => "ADMIN"
    case OWNER => "OWNER"
  }

  datatype BookingStatus = PENDING | CONFIRMED | CANCELLED

  function BookingStatusValue(s: BookingStatus): string {
    match s
    case PENDING => "pending"
    case CONFIRMED => "confirmed"
    case CANCELLED => "cancelled"
  }

  datatype PaymentStatus = PaymentPending | PaymentSuccess | PaymentFailed

  function PaymentStatusValue(s: PaymentStatus): string {
    match s
    case PaymentPending => "pending"
    case PaymentSuccess => "success"
    case PaymentFailed => "failed"
  }

  /** What the `password` column holds: normally a hash, but a value written without hashing
      is kept apart so that the model can tell the two apart. */
  datatype StoredPassword = Hashed(secret: string) | Plain(text: string)

  datatype User = User(
    id: int, firstName: string, lastName: string, email: string,
    password: StoredPassword, role: Role, isBlocked: bool)

  datatype Property = Property(
    id: int, ownerId: int, name: string, description: Option<string>, rooms: int,
    price: int, location: string, lockId: Option<string>)

  /** `status` is a nullable column, `start_date` and `end_date` are NOT NULL. */
  datatype Booking = Booking(
    id: int, userId: int, propertyId: int, startDate: int, endDate: int,
    status: Option<BookingStatus>)

  datatype Payment = Payment(id: int, bookingId: int, amount: int, status: PaymentStatus)

  datatype AccessCode = AccessCode(
    id: int, bookingId: int, code: string, validFrom: int, validUntil: int)

  function UserKey(u: User): int { u.id }
  function PropertyKey(p: Property): int { p.id }
  function BookingKey(b: Booking): int { b.id }
  function PaymentKey(p: Payment): int { p.id }
  function AccessCodeKey(c: AccessCode): int { c.id }
  function CodeBookingKey(c: AccessCode): int { c.bookingId }
  function BookingUserKey(b: Booking): int { b.userId }
  function BookingPropertyKey(b: Booking): int { b.propertyId }
  function PaymentBookingKey(p: Payment): int { p.bookingId }

  // Request bodies; `Option` fields are the schema's `Optional[...] = None`.

  datatype UserCreate = UserCreate(
    firstName: string, lastName: string, email: string, role: Role, password: string)

  datatype UserUpdate = UserUpdate(
    firstName: Option<string>, lastName: Option<string>, email: Option<string>,
    role: Option<Role>, password: Option<string>)

  datatype PropertyUpdate = PropertyUpdate(
    name: Option<string>, description: Option<string>, rooms: Option<int>,
    price: Option<int>, location: Option<string>, lockId: Option<string>)

  datatype BookingCreate = BookingCreate(
    propertyId: int, startDate: int, endDate: int, status: Option<BookingStatus>)

  datatype BookingUpdate = BookingUpdate(
    status: Option<BookingStatus>, startDate: Option<int>, endDate: Option<int>)

  datatype PaymentCreate = PaymentCreate(bookingId: int, amount: int, status: PaymentStatus)

  datatype PaymentUpdate = PaymentUpdate(amount: Option<int>, status: Option<PaymentStatus>)

  const SecondsPerDay := 86400

  /** A date stored into a DateTime column, or compared with one, is that day's midnight. */
  function Midnight(day: int): int {
    day * SecondsPerDay
  }

  /** `x if x is not None else old`: the effect of copying one field of a partial update. */
  function Merge<T>(update: Option<T>, current: T): T {
    if update.Some? then update.value else current
  }

  // Password hashing (app.core.security) is outside this model; it is stood in for by an
  // injective marking, so that "stored as a hash" and "verifies" keep their meaning.

  function HashPassword(plain: string): StoredPassword {
    Hashed(plain)
  }

  predicate VerifyPassword(plain: string, stored: StoredPassword) {
    stored == HashPassword(plain)
  }

  /** A password verifies against the hash of exactly itself, and never against a value that
      was stored without hashing. */
  lemma VerifyHash(plain: string, stored: StoredPassword)
    ensures VerifyPassword(plain, stored) <==> stored.Hashed? && stored.secret == plain
  {
  }
}
