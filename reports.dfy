/** app/reports.py: the figures of the owner report and of the user activity report. Both
    take the subject's bookings, refuse an empty list with 404, and compute over the nightly
    prices of the booked properties (integer cents here) the count, the total, the average
    rounded to the cent and the highest and lowest price, then list one row per booking.
    Rendering the rows to HTML and PDF is not part of this model. */
module Reports {
  import opened Wrappers
  import opened Seqs
  import opened Models
  import opened Database
  import BookingCrud

  // ---------------------------------------------------------------------------------------
  // The aggregation, over a list of prices.

  /** `sum(...)` over the prices, in cents. */
  function Sum(prices: seq<int>): int {
    if prices == [] then 0 else prices[0] + Sum(prices[1..])
  }

  /** `max(...)`: an element of the list that no element exceeds. */
  function Max(prices: seq<int>): (r: int)
    requires |prices| > 0
    ensures r in prices && forall x :: x in prices ==> x <= r
  {
    if |prices| == 1 then prices[0]
    else
      var rest := Max(prices[1..]);
      assert forall x :: x in prices ==> x == prices[0] || x in prices[1..];
      if prices[0] >= rest then prices[0] else rest
  }

  /** `min(...)`: an element of the list that exceeds no element. */
  function Min(prices: seq<int>): (r: int)
    requires |prices| > 0
    ensures r in prices && forall x :: x in prices ==> r <= x
  {
    if |prices| == 1 then prices[0]
    else
      var rest := Min(prices[1..]);
      assert forall x :: x in prices ==> x == prices[0] || x in prices[1..];
      if prices[0] <= rest then prices[0] else rest
  }

  /** `num / den` rounded to the nearest integer, a tie going to the even neighbour: the
      `quantize(Decimal('0.01'))` of the average, when both are counted in cents (the
      default decimal context rounds half to even). */
  function RoundHalfEven(num: int, den: int): (r: int)
    requires den > 0
    ensures -den <= 2 * (den * r - num) <= den
    ensures 2 * (den * r - num) == den || 2 * (den * r - num) == -den ==> r % 2 == 0
  {
    var q := num / den;
    var rem := num % den;
    assert num == den * q + rem && 0 <= rem < den;
    assert den * (q + 1) == den * q + den;
    if 2 * rem > den || (2 * rem == den && q % 2 == 1) then q + 1 else q
  }

  /** The two properties of `RoundHalfEven` fix its value: nearest, ties to even. */
  lemma RoundHalfEvenUnique(num: int, den: int, x: int)
    requires den > 0
    requires -den <= 2 * (den * x - num) <= den
    requires 2 * (den * x - num) == den || 2 * (den * x - num) == -den ==> x % 2 == 0
    ensures x == RoundHalfEven(num, den)
  {
    var r := RoundHalfEven(num, den);
    if x < r {
      NearestApart(num, den, x, r);
    } else if r < x {
      NearestApart(num, den, r, x);
    }
  }

  /** Two different integers both nearest to `num / den` are neighbours, one at each tie. */
  lemma NearestApart(num: int, den: int, x: int, y: int)
    requires den > 0 && x < y
    requires -den <= 2 * (den * x - num) <= den && -den <= 2 * (den * y - num) <= den
    ensures y == x + 1 && 2 * (den * x - num) == -den && 2 * (den * y - num) == den
  {
    MulApart(den, x, y);
    MulApart(den, x + 1, y);
    assert den * (x + 1) == den * x + den;
  }

  /** A positive factor keeps distinct integers at least `c` apart. */
  lemma MulApart(c: int, a: int, b: int)
    requires c > 0
    ensures a < b ==> c * b - c * a >= c
  {
    if a < b {
      var d := b - a - 1;
      assert c * b - c * a == c * d + c;
      assert c * d >= 0;
    }
  }

  /** Rounding a quotient that lies between two integers gives a value between them. */
  lemma RoundWithin(num: int, den: int, lo: int, hi: int)
    requires den > 0 && lo * den <= num <= hi * den
    ensures lo <= RoundHalfEven(num, den) <= hi
  {
    var r := RoundHalfEven(num, den);
    MulApart(den, hi, r);
    MulApart(den, r, lo);
  }

  /** The total of `n` prices lies between `n` times the lowest and `n` times the highest. */
  lemma {:induction false} SumBounds(prices: seq<int>, lo: int, hi: int)
    requires forall x :: x in prices ==> lo <= x <= hi
    ensures |prices| * lo <= Sum(prices) <= |prices| * hi
  {
    if prices != [] {
      var rest := prices[1..];
      assert lo <= prices[0] <= hi by {
        assert prices[0] in prices;
      }
      assert forall x :: x in rest ==> lo <= x <= hi by {
        forall x | x in rest ensures lo <= x <= hi {
          assert x in prices;
        }
      }
      SumBounds(rest, lo, hi);
      var n := |rest|;
      assert |prices| == n + 1;
      assert (n + 1) * lo == n * lo + lo;
      assert (n + 1) * hi == n * hi + hi;
    }
  }

  /** The summary figures of both reports. */
  datatype Metrics = Metrics(
    totalBookings: nat, totalRevenue: int, averagePrice: int, highestPrice: int, lowestPrice: int)

  /** The figures for a non-empty list of nightly prices: the count, the total, the average to
      the nearest cent (ties to even), and the extremes; the average lies between them. */
  function ComputeMetrics(prices: seq<int>): (m: Metrics)
    requires |prices| > 0
    ensures m.totalBookings == |prices| && m.totalRevenue == Sum(prices)
    ensures m.highestPrice in prices && m.lowestPrice in prices
    ensures forall x :: x in prices ==> m.lowestPrice <= x <= m.highestPrice
    ensures -|prices| <= 2 * (|prices| * m.averagePrice - m.totalRevenue) <= |prices|
    ensures (2 * (|prices| * m.averagePrice - m.totalRevenue) == |prices| ||
             2 * (|prices| * m.averagePrice - m.totalRevenue) == -|prices|) ==> m.averagePrice % 2 == 0
    ensures m.lowestPrice <= m.averagePrice <= m.highestPrice
  {
    var lo, hi := Min(prices), Max(prices);
    SumBounds(prices, lo, hi);
    RoundWithin(Sum(prices), |prices|, lo, hi);
    Metrics(|prices|, Sum(prices), RoundHalfEven(Sum(prices), |prices|), hi, lo)
  }

  /** The total does not depend on the order of the bookings. */
  lemma {:induction false} SumAppend(a: seq<int>, b: seq<int>)
    ensures Sum(a + b) == Sum(a) + Sum(b)
  {
    if a != [] {
      assert (a + b)[1..] == a[1..] + b;
      SumAppend(a[1..], b);
    } else {
      assert a + b == b;
    }
  }

  // ---------------------------------------------------------------------------------------
  // The bookings with their properties (`booking.property`, loaded with `selectinload`).

  /** Each booking paired with the property it refers to; a booking whose property is missing
      makes `booking.property.price` raise. */
  function Join(bookings: seq<Booking>, properties: seq<Property>): (r: Result<seq<(Booking, Property)>>)
    ensures r.Ok? <==> forall b :: b in bookings ==> HasProperty(properties, b.propertyId)
    ensures r.Err? ==> r.error.status == 500
    ensures r.Ok? ==> |r.value| == |bookings|
    ensures r.Ok? ==> forall i :: 0 <= i < |bookings| ==>
              r.value[i].0 == bookings[i] && r.value[i].1 in properties && r.value[i].1.id == bookings[i].propertyId
  {
    if bookings == [] then Ok([])
    else
      var first, later := bookings[0], bookings[1..];
      assert forall b :: b in bookings <==> b == first || b in later;
      HasKeyMember(properties, PropertyKey, first.propertyId);
      match Find(properties, PropertyKey, first.propertyId)
      case None => Fail(500, "'NoneType' object has no attribute 'price'")
      case Some(p) =>
        match Join(later, properties)
        case Err(e) => Err(e)
        case Ok(rest) => Ok([(first, p)] + rest)
  }

  /** The nightly price of each booking's property, in booking order. */
  function Prices(joined: seq<(Booking, Property)>): (r: seq<int>)
    ensures |r| == |joined| && forall i :: 0 <= i < |joined| ==> r[i] == joined[i].1.price
  {
    seq(|joined|, i requires 0 <= i < |joined| => joined[i].1.price)
  }

  /** The report rows, made by `row` from each booking, its property and its status; a
      booking whose status is NULL makes `booking.status.value` raise. */
  function Rows<R>(joined: seq<(Booking, Property)>, row: (Booking, Property, BookingStatus) -> R): (r: Result<seq<R>>)
    ensures r.Ok? <==> forall i :: 0 <= i < |joined| ==> joined[i].0.status.Some?
    ensures r.Err? ==> r.error.status == 500
    ensures r.Ok? ==> |r.value| == |joined|
    ensures r.Ok? ==> forall i :: 0 <= i < |joined| ==>
              r.value[i] == row(joined[i].0, joined[i].1, joined[i].0.status.value)
  {
    if joined == [] then Ok([])
    else if joined[0].0.status.None? then Fail(500, "'NoneType' object has no attribute 'value'")
    else
      var rest :- Rows(joined[1..], row);
      Ok([row(joined[0].0, joined[0].1, joined[0].0.status.value)] + rest)
  }

  // ---------------------------------------------------------------------------------------
  // The two reports.

  /** A row of the owner report. */
  datatype OwnerRow = OwnerRow(
    propertyName: string, propertyId: int, location: string, rooms: int, price: int,
    bookingId: int, startDate: int, endDate: int, status: string)

  function MakeOwnerRow(b: Booking, p: Property, s: BookingStatus): OwnerRow {
    OwnerRow(p.name, p.id, p.location, p.rooms, p.price, b.id, b.startDate, b.endDate, BookingStatusValue(s))
  }

  /** A row of the user activity report. */
  datatype UserRow = UserRow(
    bookingId: int, propertyName: string, startDate: int, endDate: int, price: int, status: string)

  function MakeUserRow(b: Booking, p: Property, s: BookingStatus): UserRow {
    UserRow(b.id, p.name, b.startDate, b.endDate, p.price, BookingStatusValue(s))
  }

  datatype Report<R> = Report(firstName: string, lastName: string, metrics: Metrics, rows: seq<R>)

  /** The figures and rows of a report on a list of bookings, or the error that building them
      raises: 404 for no bookings, else the metrics over the properties' prices and one row
      per booking, in order. */
  function BuildReport<R>(
    subject: User, bookings: seq<Booking>, properties: seq<Property>,
    row: (Booking, Property, BookingStatus) -> R, none: string)
    : (r: Result<Report<R>>)
    ensures bookings == [] <==> r == Fail(404, none)
    ensures r.Ok? ==> forall b :: b in bookings ==> HasProperty(properties, b.propertyId) && b.status.Some?
    ensures r.Ok? ==> Join(bookings, properties).Ok? && r.value.metrics == ComputeMetrics(Prices(Join(bookings, properties).value))
    ensures r.Ok? ==> |r.value.rows| == |bookings| && forall i :: 0 <= i < |bookings| ==>
              r.value.rows[i] == row(bookings[i], Join(bookings, properties).value[i].1, bookings[i].status.value)
    ensures (forall b :: b in bookings ==> HasProperty(properties, b.propertyId) && b.status.Some?) && bookings != [] ==>
              r.Ok?
  {
    if bookings == [] then Fail(404, none)
    else
      var joined :- Join(bookings, properties);
      var m := ComputeMetrics(Prices(joined));
      var rows :- Rows(joined, row);
      assert forall b :: b in bookings ==> b.status.Some? by {
        forall b | b in bookings ensures b.status.Some? {
          var i :| 0 <= i < |bookings| && bookings[i] == b;
          assert joined[i].0 == b;
        }
      }
      Ok(Report(subject.firstName, subject.lastName, m, rows))
  }

  const NoOwnerBookings := "No bookings found for the owner."
  const NoUserBookings := "No bookings found for the user."

  /** `generate_owner_report`: the report on the bookings at the owner's properties. */
  function OwnerReport(bookings: seq<Booking>, properties: seq<Property>, owner: User)
    : (r: Result<Report<OwnerRow>>)
  {
    BuildReport(owner, BookingCrud.GetOwnerBookings(bookings, properties, owner.id), properties,
                MakeOwnerRow, NoOwnerBookings)
  }

  /** The owner report is 404 exactly when no booking is at a property of the owner; otherwise
      it counts those bookings, and its rows name them in table order with their status and
      the property they are at, which the owner owns. */
  lemma OwnerReportFacts(bookings: seq<Booking>, properties: seq<Property>, owner: User)
    requires UniqueKeys(properties, PropertyKey)
    ensures var owned := BookingCrud.GetOwnerBookings(bookings, properties, owner.id);
            var r := OwnerReport(bookings, properties, owner);
            (r == Fail(404, NoOwnerBookings) <==>
               forall b :: b in bookings ==> forall p :: p in properties && p.id == b.propertyId ==> p.ownerId != owner.id) &&
            (r.Ok? ==> r.value.metrics.totalBookings == |owned| && |r.value.rows| == |owned|) &&
            (r.Ok? ==> forall i :: 0 <= i < |owned| ==>
               r.value.rows[i].bookingId == owned[i].id && r.value.rows[i].propertyId == owned[i].propertyId &&
               r.value.rows[i].status == BookingStatusValue(owned[i].status.value) &&
               exists p :: p in properties && p.id == owned[i].propertyId && p.ownerId == owner.id && r.value.rows[i].price == p.price)
  {
    var owned := BookingCrud.GetOwnerBookings(bookings, properties, owner.id);
    var r := OwnerReport(bookings, properties, owner);
    if owned != [] {
      assert owned[0] in owned;
    }
    if r.Ok? {
      var joined := Join(owned, properties).value;
      forall i | 0 <= i < |owned|
        ensures exists p :: p in properties && p.id == owned[i].propertyId && p.ownerId == owner.id && r.value.rows[i].price == p.price
      {
        assert owned[i] in owned;
        var q :| q in properties && q.id == owned[i].propertyId && q.ownerId == owner.id;
        var p := joined[i].1;
        assert p in properties && p.id == q.id;
        assert PropertyKey(p) == PropertyKey(q);
        var a :| 0 <= a < |properties| && properties[a] == p;
        var c :| 0 <= c < |properties| && properties[c] == q;
        assert a == c;
      }
    }
  }

  /** `generate_user_activity_report`: the report on the user's own bookings. */
  function UserActivityReport(bookings: seq<Booking>, properties: seq<Property>, user: User)
    : (r: Result<Report<UserRow>>)
  {
    BuildReport(user, BookingCrud.GetBookings(bookings, user), properties, MakeUserRow, NoUserBookings)
  }

  /** The activity report is 404 exactly when the user has no bookings; otherwise it counts
      them, and its rows name them in table order with their status. On a consistent database
      a user whose bookings all have a status always gets the report. */
  lemma UserReportFacts(users: seq<User>, properties: seq<Property>, bookings: seq<Booking>, next: int, user: User)
    requires BookingsValid(users, properties, bookings, next)
    ensures var mine := BookingCrud.GetBookings(bookings, user);
            var r := UserActivityReport(bookings, properties, user);
            (r == Fail(404, NoUserBookings) <==> forall b :: b in bookings ==> b.userId != user.id) &&
            (r.Ok? ==> r.value.metrics.totalBookings == |mine| && |r.value.rows| == |mine|) &&
            (r.Ok? ==> forall i :: 0 <= i < |mine| ==>
               r.value.rows[i].bookingId == mine[i].id &&
               r.value.rows[i].status == BookingStatusValue(mine[i].status.value)) &&
            (((exists b :: b in bookings && b.userId == user.id) &&
              (forall b :: b in bookings && b.userId == user.id ==> b.status.Some?)) ==> r.Ok?)
  {
    var mine := BookingCrud.GetBookings(bookings, user);
    if mine != [] {
      assert mine[0] in mine;
    }
    if exists b :: b in bookings && b.userId == user.id {
      var b :| b in bookings && b.userId == user.id;
      assert b in mine;
    }
  }

  /** `generate_owner_report` as written: `get_owner_bookings` fails before any booking is
      read, so the report is always 500 and its 404 is never reached. */
  function OwnerReportAsWritten(bookings: seq<Booking>, properties: seq<Property>, owner: User)
    : (r: Result<Report<OwnerRow>>)
    ensures r.Ok? ==> r == OwnerReport(bookings, properties, owner)
  {
    match BookingCrud.GetOwnerBookingsAsWritten(bookings, properties, owner.id)
    case Err(e) => Err(e)
    case Ok(owned) => BuildReport(owner, owned, properties, MakeOwnerRow, NoOwnerBookings)
  }

  /** Whatever is stored, the owner report as written is the 500 of the missing attribute:
      never the report and never the 404. */
  lemma OwnerReportAlwaysFails(bookings: seq<Booking>, properties: seq<Property>, owner: User)
    ensures OwnerReportAsWritten(bookings, properties, owner) == Fail(500, BookingCrud.NoPaymentAttribute)
    ensures OwnerReportAsWritten(bookings, properties, owner) != Fail(404, NoOwnerBookings)
  {
    BookingCrud.GetOwnerBookingsAlwaysFails(bookings, properties, owner.id);
  }

  /** `generate_user_activity_report` as written, over `get_bookings` as written. */
  function UserActivityReportAsWritten(bookings: seq<Booking>, properties: seq<Property>, user: User)
    : (r: Result<Report<UserRow>>)
    ensures r.Ok? ==> r == UserActivityReport(bookings, properties, user)
  {
    match BookingCrud.GetBookingsAsWritten(bookings, user)
    case Err(e) => Err(e)
    case Ok(mine) => BuildReport(user, mine, properties, MakeUserRow, NoUserBookings)
  }

  /** Whatever is stored, the activity report as written is the 500 of the missing attribute. */
  lemma UserReportAlwaysFails(bookings: seq<Booking>, properties: seq<Property>, user: User)
    ensures UserActivityReportAsWritten(bookings, properties, user) == Fail(500, BookingCrud.NoPaymentAttribute)
    ensures UserActivityReportAsWritten(bookings, properties, user) != Fail(404, NoUserBookings)
  {
    BookingCrud.GetBookingsAlwaysFails(bookings, user);
  }
}
