/** app/crud/property.py: properties are changed and removed only by their owner, and the
    listing of available properties sweeps each property's stays in start order to find the
    free days between today and a horizon one year ahead. Today is a parameter. */
module PropertyCrud {
  import opened Wrappers
  import opened Seqs
  import opened Models
  import opened Database

  const NotFound := "Property not found."
  const NotAllowedUpdate := "You are not allowed to update this property."
  const NotAllowedDelete := "You are not allowed to delete this property."

  /** `get_property`: the property with that id, or 404. */
  function GetProperty(properties: seq<Property>, id: int): (r: Result<Property>)
    ensures r.Ok? ==> r.value in properties && r.value.id == id
    ensures r.Err? <==> forall p :: p in properties ==> p.id != id
    ensures r.Err? ==> r.error == HttpError(404, NotFound)
  {
    match Find(properties, PropertyKey, id)
    case None => Fail(404, NotFound)
    case Some(p) => Ok(p)
  }

  /** The `setattr` loop over `model_dump(exclude_none=True)`: each given field replaces the
      stored one, and every other column keeps its value. */
  function ApplyPropertyUpdate(p: Property, upd: PropertyUpdate): (r: Property)
    ensures r.id == p.id && r.ownerId == p.ownerId
    ensures upd.name.Some? ==> r.name == upd.name.value
    ensures upd.name.None? ==> r.name == p.name
    ensures upd.description.Some? ==> r.description == upd.description
    ensures upd.description.None? ==> r.description == p.description
    ensures upd.rooms.Some? ==> r.rooms == upd.rooms.value
    ensures upd.rooms.None? ==> r.rooms == p.rooms
    ensures upd.price.Some? ==> r.price == upd.price.value
    ensures upd.price.None? ==> r.price == p.price
    ensures upd.location.Some? ==> r.location == upd.location.value
    ensures upd.location.None? ==> r.location == p.location
    ensures upd.lockId.Some? ==> r.lockId == upd.lockId
    ensures upd.lockId.None? ==> r.lockId == p.lockId
  {
    p.(name := Merge(upd.name, p.name),
       description := if upd.description.Some? then upd.description else p.description,
       rooms := Merge(upd.rooms, p.rooms),
       price := Merge(upd.price, p.price),
       location := Merge(upd.location, p.location),
       lockId := if upd.lockId.Some? then upd.lockId else p.lockId)
  }

  /** An update with no field given changes nothing, and sending the same update twice has
      the effect of sending it once. */
  lemma PropertyUpdateIdempotent(p: Property, upd: PropertyUpdate)
    ensures upd == PropertyUpdate(None, None, None, None, None, None) ==> ApplyPropertyUpdate(p, upd) == p
    ensures ApplyPropertyUpdate(ApplyPropertyUpdate(p, upd), upd) == ApplyPropertyUpdate(p, upd)
  {
  }

  /** `update_property`: 404 for an unknown id, 403 unless the caller owns the property, else
      the property with the given fields copied in; a lock id another property holds breaks
      the UNIQUE constraint. */
  function UpdatePropertyResult(properties: seq<Property>, id: int, upd: PropertyUpdate, caller: User)
    : (r: Result<Property>)
    ensures r == Fail(404, NotFound) <==> forall p :: p in properties ==> p.id != id
    ensures r == Fail(403, NotAllowedUpdate) <==>
              Find(properties, PropertyKey, id).Some? && Find(properties, PropertyKey, id).value.ownerId != caller.id
    ensures r.Ok? ==> exists p :: (p in properties && p.id == id && p.ownerId == caller.id &&
              r.value == ApplyPropertyUpdate(p, upd))
    ensures r.Ok? ==> forall q :: q in properties && q.id != id ==>
              DistinctLockIds(q, r.value) && DistinctLockIds(r.value, q)
  {
    match Find(properties, PropertyKey, id)
    case None => Fail(404, NotFound)
    case Some(p) =>
      if p.ownerId != caller.id then Fail(403, NotAllowedUpdate)
      else
        var row := ApplyPropertyUpdate(p, upd);
        if row.lockId.Some? && exists q :: q in properties && q.id != id && q.lockId == row.lockId then
          Fail(500, DuplicateKey)
        else Ok(row)
  }

  method UpdateProperty(db: Db, id: int, upd: PropertyUpdate, caller: User) returns (r: Result<Property>)
    requires db.Valid()
    modifies db`properties
    ensures db.Valid()
    ensures r == UpdatePropertyResult(old(db.properties), id, upd, caller)
    ensures r.Ok? ==> db.properties == Replace(old(db.properties), PropertyKey, id, r.value)
    ensures r.Err? ==> db.properties == old(db.properties)
  {
    r := UpdatePropertyResult(db.properties, id, upd, caller);
    if r.Ok? {
      var row := r.value;
      var old_properties := db.properties;
      var p :| p in old_properties && p.id == id && row == ApplyPropertyUpdate(p, upd);
      ReplaceProperty(db.users, old_properties, db.bookings, db.nextPropertyId, db.nextBookingId, row);
      db.properties := Replace(old_properties, PropertyKey, id, row);
    }
  }

  /** `delete_property`: 404 for an unknown id, 403 unless the caller owns it; a stay that
      refers to it makes the DELETE violate the foreign key of `bookings`. */
  function DeletePropertyResult(properties: seq<Property>, bookings: seq<Booking>, id: int, caller: User)
    : (r: Result<Property>)
    ensures r == Fail(404, NotFound) <==> forall p :: p in properties ==> p.id != id
    ensures r == Fail(403, NotAllowedDelete) <==>
              Find(properties, PropertyKey, id).Some? && Find(properties, PropertyKey, id).value.ownerId != caller.id
    ensures r.Ok? ==> r.value in properties && r.value.id == id && r.value.ownerId == caller.id
    ensures r.Ok? <==> (Find(properties, PropertyKey, id).Some? &&
              Find(properties, PropertyKey, id).value.ownerId == caller.id &&
              forall b :: b in bookings ==> b.propertyId != id)
  {
    match Find(properties, PropertyKey, id)
    case None => Fail(404, NotFound)
    case Some(p) =>
      if p.ownerId != caller.id then Fail(403, NotAllowedDelete)
      else if exists b :: b in bookings && b.propertyId == id then Fail(500, StillReferenced)
      else Ok(p)
  }

  method DeleteProperty(db: Db, id: int, caller: User) returns (r: Result<Property>)
    requires db.Valid()
    modifies db`properties
    ensures db.Valid()
    ensures r == DeletePropertyResult(old(db.properties), db.bookings, id, caller)
    ensures r.Ok? ==> db.properties == RemoveKey(old(db.properties), PropertyKey, id)
    ensures r.Err? ==> db.properties == old(db.properties)
  {
    r := DeletePropertyResult(db.properties, db.bookings, id, caller);
    if r.Ok? {
      RemoveProperty(db.users, db.properties, db.bookings, db.nextPropertyId, db.nextBookingId, id);
      db.properties := RemoveKey(db.properties, PropertyKey, id);
    }
  }

  // -------------------------------------------------------------------------------------
  // `get_available_properties`: free periods are closed ranges of day numbers.

  /** How far ahead the listing looks (`timedelta(days=365)`). */
  const HorizonDays := 365

  datatype Period = Period(start: int, end: int)

  /** `PropertyWithAvailabilityPeriods`: the property's columns and its free periods. */
  datatype AvailableProperty = AvailableProperty(
    id: int, ownerId: int, name: string, description: Option<string>, rooms: int,
    price: int, location: string, periods: seq<Period>)

  ghost predicate SortedByStart(s: seq<Booking>) {
    forall i, j :: 0 <= i < j < |s| ==> s[i].startDate <= s[j].startDate
  }

  /** `b` placed after every stay of `s` that starts no later than it. */
  function InsertByStart(b: Booking, s: seq<Booking>): (r: seq<Booking>)
    ensures multiset(r) == multiset(s) + multiset{b}
    ensures |r| > 0 && (r[0] == b || (|s| > 0 && r[0] == s[0]))
  {
    if |s| == 0 then [b]
    else if b.startDate < s[0].startDate then [b] + s
    else
      assert s == [s[0]] + s[1..];
      [s[0]] + InsertByStart(b, s[1..])
  }

  lemma {:induction false} InsertSorted(b: Booking, s: seq<Booking>)
    requires SortedByStart(s)
    ensures SortedByStart(InsertByStart(b, s))
  {
    if |s| > 0 && b.startDate >= s[0].startDate {
      var rest := s[1..];
      SortedTail(s);
      InsertSorted(b, rest);
      InsertKeepsLowerBound(b, rest, s[0].startDate);
      ConsSorted(s[0], InsertByStart(b, rest));
    }
  }

  lemma SortedTail(s: seq<Booking>)
    requires SortedByStart(s) && |s| > 0
    ensures SortedByStart(s[1..])
    ensures forall x :: x in s[1..] ==> s[0].startDate <= x.startDate
  {
    var rest := s[1..];
    forall i, j | 0 <= i < j < |rest| ensures rest[i].startDate <= rest[j].startDate {
      assert rest[i] == s[i + 1] && rest[j] == s[j + 1];
    }
    forall x | x in rest ensures s[0].startDate <= x.startDate {
      var k :| 0 <= k < |rest| && rest[k] == x;
      assert s[k + 1] == x;
    }
  }

  /** Inserting a stay that starts no earlier than `lo` keeps every start at least `lo`. */
  lemma InsertKeepsLowerBound(b: Booking, s: seq<Booking>, lo: int)
    requires lo <= b.startDate && forall x :: x in s ==> lo <= x.startDate
    ensures forall x :: x in InsertByStart(b, s) ==> lo <= x.startDate
  {
    var r := InsertByStart(b, s);
    forall x | x in r ensures lo <= x.startDate {
      assert x in multiset(r);
      assert x in multiset(s) + multiset{b};
      if x != b {
        assert x in multiset(s);
      }
    }
  }

  lemma ConsSorted(h: Booking, t: seq<Booking>)
    requires SortedByStart(t) && forall x :: x in t ==> h.startDate <= x.startDate
    ensures SortedByStart([h] + t)
  {
    var r := [h] + t;
    forall i, j | 0 <= i < j < |r| ensures r[i].startDate <= r[j].startDate {
      assert r[j] == t[j - 1];
      if i > 0 {
        assert r[i] == t[i - 1];
      } else {
        assert t[j - 1] in t;
      }
    }
  }

  /** `sorted(property.bookings, key=lambda b: b.start_date)`, a stable insertion sort. */
  function SortByStart(s: seq<Booking>): (r: seq<Booking>)
    ensures multiset(r) == multiset(s)
    ensures SortedByStart(r)
  {
    if |s| == 0 then []
    else
      assert s == s[..|s| - 1] + [s[|s| - 1]];
      var sorted := SortByStart(s[..|s| - 1]);
      InsertSorted(s[|s| - 1], sorted);
      InsertByStart(s[|s| - 1], sorted)
  }

  /** Sorting keeps exactly the stays it was given, as many as there were. */
  lemma SortKeepsStays(s: seq<Booking>)
    ensures |SortByStart(s)| == |s|
    ensures forall b :: b in SortByStart(s) <==> b in s
  {
    var r := SortByStart(s);
    assert |multiset(r)| == |multiset(s)|;
    forall b ensures b in r <==> b in s {
      assert b in r <==> b in multiset(r);
      assert b in s <==> b in multiset(s);
    }
  }

  /** The day a stay hands back to the sweep: the day after its end date (`max`). */
  function Next(cur: int, b: Booking): (r: int)
    ensures r >= cur && r > b.endDate
    ensures r == cur || r == b.endDate + 1
  {
    if cur < b.endDate + 1 then b.endDate + 1 else cur
  }

  /** The gap the sweep emits when it reaches stay `b` on the free day `cur`. */
  function GapBefore(b: Booking, cur: int): (r: seq<Period>)
    ensures |r| <= 1
    ensures forall p :: p in r <==> cur < b.startDate && p == Period(cur, b.startDate - 1)
  {
    if cur < b.startDate then [Period(cur, b.startDate - 1)] else []
  }

  /** The sweep's state: the periods emitted so far and the current free day. */
  datatype Sweep = Sweep(periods: seq<Period>, current: int)

  /** The state after the sweep, started on `today`, has passed the first `i` stays of `bs`. */
  function SweepTo(bs: seq<Booking>, i: nat, today: int): (r: Sweep)
    requires i <= |bs|
    ensures r.current >= today
    ensures forall j :: 0 <= j < i ==> r.current > bs[j].endDate
    ensures |r.periods| <= i
  {
    if i == 0 then Sweep([], today)
    else
      var s := SweepTo(bs, i - 1, today);
      Sweep(s.periods + GapBefore(bs[i - 1], s.current), Next(s.current, bs[i - 1]))
  }

  /** The tail period, up to the horizon, when there is room for one. */
  function Tail(last: int, today: int): (r: seq<Period>)
    ensures forall p :: p in r <==> last <= today + HorizonDays && p == Period(last, today + HorizonDays)
  {
    if last <= today + HorizonDays then [Period(last, today + HorizonDays)] else []
  }

  /** The free periods of one property: the gaps between its stays taken in start order, and
      the tail up to the horizon when the last stay leaves room for one. */
  function FreePeriods(bookings: seq<Booking>, today: int): seq<Period> {
    var bs := SortByStart(bookings);
    var s := SweepTo(bs, |bs|, today);
    s.periods + Tail(s.current, today)
  }

  /** The sweep over one property's stays. */
  method SweepPeriods(bookings: seq<Booking>, today: int) returns (periods: seq<Period>)
    ensures periods == FreePeriods(bookings, today)
  {
    var bs := SortByStart(bookings);
    var maxDate := today + HorizonDays;
    periods := [];
    var current := today;
    var i := 0;
    while i < |bs|
      invariant 0 <= i <= |bs|
      invariant Sweep(periods, current) == SweepTo(bs, i, today)
    {
      var b := bs[i];
      SweepStep(bs, i, today, periods, current);
      if current < b.startDate {
        periods := periods + [Period(current, b.startDate - 1)];
      }
      current := Next(current, b);
      i := i + 1;
    }
    SweepEnd(bookings, today, periods, current);
    if current <= maxDate {
      periods := periods + [Period(current, maxDate)];
    }
  }

  /** One step of the loop is one step of the sweep. */
  lemma SweepStep(bs: seq<Booking>, i: nat, today: int, periods: seq<Period>, current: int)
    requires i < |bs| && Sweep(periods, current) == SweepTo(bs, i, today)
    ensures SweepTo(bs, i + 1, today) ==
            Sweep(periods + (if current < bs[i].startDate then [Period(current, bs[i].startDate - 1)] else []),
                  Next(current, bs[i]))
  {
  }

  /** After the last stay, the tail completes the free periods. */
  lemma SweepEnd(bookings: seq<Booking>, today: int, periods: seq<Period>, current: int)
    requires Sweep(periods, current) == SweepTo(SortByStart(bookings), |SortByStart(bookings)|, today)
    ensures FreePeriods(bookings, today) ==
            periods + (if current <= today + HorizonDays then [Period(current, today + HorizonDays)] else [])
  {
  }

  /** The closed ranges of a period and a stay share no day. */
  predicate Avoids(p: Period, b: Booking) {
    p.end < b.startDate || b.endDate < p.start
  }

  /** Each period ends before the next one starts. */
  ghost predicate Increasing(ps: seq<Period>) {
    forall i, j :: 0 <= i < j < |ps| ==> ps[i].end < ps[j].start
  }

  lemma ConcatIncreasing(a: seq<Period>, b: seq<Period>)
    requires Increasing(a) && Increasing(b)
    requires forall p, q :: p in a && q in b ==> p.end < q.start
    ensures Increasing(a + b)
  {
    var r := a + b;
    forall i, j | 0 <= i < j < |r| ensures r[i].end < r[j].start {
      if j < |a| {
        assert r[i] == a[i] && r[j] == a[j];
      } else if i < |a| {
        assert r[i] == a[i] && a[i] in a && r[j] == b[j - |a|] && b[j - |a|] in b;
      } else {
        assert r[i] == b[i - |a|] && r[j] == b[j - |a|];
      }
    }
  }

  /** Every period emitted so far is a non-empty range from today on that ends before the
      current free day. */
  lemma {:induction false} SweepBounds(bs: seq<Booking>, i: nat, today: int)
    requires i <= |bs|
    requires forall b :: b in bs ==> b.startDate <= b.endDate
    ensures forall p :: p in SweepTo(bs, i, today).periods ==> today <= p.start <= p.end < SweepTo(bs, i, today).current
  {
    if i > 0 {
      SweepBounds(bs, i - 1, today);
      assert bs[i - 1] in bs;
    }
  }

  /** The periods come out in increasing order, each one ending before the next starts. */
  lemma {:induction false} SweepOrdered(bs: seq<Booking>, i: nat, today: int)
    requires i <= |bs|
    requires forall b :: b in bs ==> b.startDate <= b.endDate
    ensures Increasing(SweepTo(bs, i, today).periods)
  {
    if i > 0 {
      var s := SweepTo(bs, i - 1, today);
      SweepOrdered(bs, i - 1, today);
      SweepBounds(bs, i - 1, today);
      ConcatIncreasing(s.periods, GapBefore(bs[i - 1], s.current));
    }
  }

  /** Walking stays in start order, no period shares a day with any stay, end date included:
      the stays passed ended before it, the stays ahead start after it. */
  lemma {:induction false} SweepAvoids(bs: seq<Booking>, i: nat, today: int)
    requires i <= |bs|
    requires SortedByStart(bs)
    ensures forall p, j :: p in SweepTo(bs, i, today).periods && 0 <= j < |bs| ==> Avoids(p, bs[j])
    ensures i > 0 ==> forall p :: p in SweepTo(bs, i, today).periods ==> p.end < bs[i - 1].startDate
  {
    if i > 0 {
      SweepAvoids(bs, i - 1, today);
    }
  }

  /** Every day from today on, before the current free day, that none of the stays passed
      covers lies in a period emitted so far. */
  lemma {:induction false} SweepCovers(bs: seq<Booking>, i: nat, today: int, d: int)
    requires i <= |bs|
    requires today <= d < SweepTo(bs, i, today).current
    requires forall j :: 0 <= j < i ==> !(bs[j].startDate <= d <= bs[j].endDate)
    ensures exists p :: p in SweepTo(bs, i, today).periods && p.start <= d <= p.end
  {
    var s := SweepTo(bs, i - 1, today);
    if d < s.current {
      SweepCovers(bs, i - 1, today, d);
      var p :| p in s.periods && p.start <= d <= p.end;
      assert p in SweepTo(bs, i, today).periods;
    } else {
      assert Period(s.current, bs[i - 1].startDate - 1) in SweepTo(bs, i, today).periods;
    }
  }

  /** On stays that are non-empty ranges, the free periods are non-empty, start no earlier
      than today, come in increasing order without overlap, share no day with any stay, and
      number at most one more than the stays. */
  lemma FreePeriodsSound(bookings: seq<Booking>, today: int)
    requires forall b :: b in bookings ==> b.startDate <= b.endDate
    ensures forall p :: p in FreePeriods(bookings, today) ==> today <= p.start <= p.end
    ensures Increasing(FreePeriods(bookings, today))
    ensures forall p, b :: p in FreePeriods(bookings, today) && b in bookings ==> Avoids(p, b)
    ensures |FreePeriods(bookings, today)| <= |bookings| + 1
  {
    var bs := SortByStart(bookings);
    SortKeepsStays(bookings);
    var s := SweepTo(bs, |bs|, today);
    SweepBounds(bs, |bs|, today);
    SweepOrdered(bs, |bs|, today);
    SweepAvoids(bs, |bs|, today);
    ConcatIncreasing(s.periods, Tail(s.current, today));
    forall p, b | p in FreePeriods(bookings, today) && b in bookings ensures Avoids(p, b) {
      var j :| 0 <= j < |bs| && bs[j] == b;
    }
  }

  /** Every day from today to the horizon that no stay covers is in some free period. */
  lemma FreePeriodsComplete(bookings: seq<Booking>, today: int, d: int)
    requires today <= d <= today + HorizonDays
    requires forall b :: b in bookings ==> !(b.startDate <= d <= b.endDate)
    ensures exists p :: p in FreePeriods(bookings, today) && p.start <= d <= p.end
  {
    var bs := SortByStart(bookings);
    SortKeepsStays(bookings);
    assert forall j :: 0 <= j < |bs| ==> bs[j] in bookings;
    var s := SweepTo(bs, |bs|, today);
    if d < s.current {
      SweepCovers(bs, |bs|, today, d);
      var p :| p in s.periods && p.start <= d <= p.end;
      assert p in FreePeriods(bookings, today);
    } else {
      assert Period(s.current, today + HorizonDays) in FreePeriods(bookings, today);
    }
  }

  /** A stay that begins more than a year ahead still produces a period ending the day before
      it, past the horizon the tail period stops at. */
  lemma PeriodPastHorizon(today: int, b: Booking)
    requires b.startDate == today + HorizonDays + 10 && b.endDate == b.startDate + 1
    ensures FreePeriods([b], today) == [Period(today, today + HorizonDays + 9)]
  {
    assert SortByStart([b]) == [b];
    assert SweepTo([b], 0, today) == Sweep([], today);
    assert SweepTo([b], 1, today) == Sweep([Period(today, today + HorizonDays + 9)], b.endDate + 1);
  }

  /** The stays of one property, in table order (the `Property.bookings` relationship). */
  function BookingsAt(bookings: seq<Booking>, propertyId: int): (r: seq<Booking>)
    ensures forall b :: b in r <==> b in bookings && b.propertyId == propertyId
  {
    Filter(KeyIs(BookingPropertyKey, propertyId), bookings)
  }

  function Listed(p: Property, periods: seq<Period>): AvailableProperty {
    AvailableProperty(p.id, p.ownerId, p.name, p.description, p.rooms, p.price, p.location, periods)
  }

  /** The listing of the first `i` properties, `periods[k]` being the free periods of property
      `k`: each with its periods, skipping those with none, in table order. */
  function Listing(properties: seq<Property>, periods: seq<seq<Period>>, i: nat): (r: seq<AvailableProperty>)
    requires i <= |properties| && i <= |periods|
    ensures |r| <= i
    ensures forall e :: e in r ==> |e.periods| > 0
  {
    if i == 0 then []
    else
      Listing(properties, periods, i - 1) +
        (if |periods[i - 1]| > 0 then [Listed(properties[i - 1], periods[i - 1])] else [])
  }

  /** Every entry of the listing is one of the properties, with its free periods. */
  lemma {:induction false} ListingFromProperties(properties: seq<Property>, periods: seq<seq<Period>>,
    i: nat, e: AvailableProperty)
    requires i <= |properties| && i <= |periods|
    requires e in Listing(properties, periods, i)
    ensures exists k :: 0 <= k < i && e == Listed(properties[k], periods[k])
  {
    if e !in Listing(properties, periods, i - 1) {
      assert e == Listed(properties[i - 1], periods[i - 1]);
    } else {
      ListingFromProperties(properties, periods, i - 1, e);
    }
  }

  /** Every property with a free period is listed. */
  lemma {:induction false} ListingHasFree(properties: seq<Property>, periods: seq<seq<Period>>, i: nat, k: nat)
    requires k < i <= |properties| && i <= |periods|
    requires |periods[k]| > 0
    ensures Listed(properties[k], periods[k]) in Listing(properties, periods, i)
  {
    if k < i - 1 {
      ListingHasFree(properties, periods, i - 1, k);
    }
  }

  /** The free periods of each property, from its own stays, in table order. */
  function FreeTable(bookings: seq<Booking>, properties: seq<Property>, today: int): (t: seq<seq<Period>>)
    ensures |t| == |properties|
  {
    if properties == [] then []
    else
      var last := properties[|properties| - 1];
      FreeTable(bookings, properties[..|properties| - 1], today) + [FreePeriods(BookingsAt(bookings, last.id), today)]
  }

  /** Entry `k` of the table is the sweep over property `k`'s stays. */
  lemma {:induction false} FreeTableAt(bookings: seq<Booking>, properties: seq<Property>, today: int, k: int)
    requires 0 <= k < |properties|
    ensures FreeTable(bookings, properties, today)[k] == FreePeriods(BookingsAt(bookings, properties[k].id), today)
  {
    var init := properties[..|properties| - 1];
    var last := properties[|properties| - 1];
    var t, ti := FreeTable(bookings, properties, today), FreeTable(bookings, init, today);
    assert t == ti + [FreePeriods(BookingsAt(bookings, last.id), today)];
    if k < |init| {
      FreeTableAt(bookings, init, today, k);
      assert init[k] == properties[k] && t[k] == ti[k];
    } else {
      assert last == properties[k];
    }
  }

  /** The listing holds exactly the properties that have a free period, each with the free
      periods of its own stays. */
  lemma AvailableListing(bookings: seq<Booking>, properties: seq<Property>, today: int, e: AvailableProperty)
    ensures var free := FreeTable(bookings, properties, today);
            e in Listing(properties, free, |properties|) <==>
              exists k :: 0 <= k < |properties| && |free[k]| > 0 && e == Listed(properties[k], free[k])
  {
    var free := FreeTable(bookings, properties, today);
    if e in Listing(properties, free, |properties|) {
      ListingFromProperties(properties, free, |properties|, e);
      var k :| 0 <= k < |properties| && e == Listed(properties[k], free[k]);
      assert |e.periods| > 0;
    }
    if exists k :: 0 <= k < |properties| && |free[k]| > 0 && e == Listed(properties[k], free[k]) {
      var k :| 0 <= k < |properties| && |free[k]| > 0 && e == Listed(properties[k], free[k]);
      ListingHasFree(properties, free, |properties|, k);
    }
  }

  /** `get_available_properties`: the sweep for each property in turn, listing those with a
      free period in table order. */
  method GetAvailableProperties(db: Db, today: int) returns (r: seq<AvailableProperty>)
    ensures r == Listing(db.properties, FreeTable(db.bookings, db.properties, today), |db.properties|)
  {
    var properties, bookings := db.properties, db.bookings;
    r := [];
    var i := 0;
    while i < |properties|
      invariant 0 <= i <= |properties|
      invariant r == Listing(properties, FreeTable(bookings, properties, today), i)
    {
      var p := properties[i];
      var free := SweepPeriods(BookingsAt(bookings, p.id), today);
      ListingNext(bookings, properties, today, i, free);
      if |free| > 0 {
        r := r + [Listed(p, free)];
      }
      i := i + 1;
    }
  }

  /** The listing of one more property: that property, with the periods its own sweep found,
      is appended when it has any. */
  lemma ListingNext(bookings: seq<Booking>, properties: seq<Property>, today: int, i: int, free: seq<Period>)
    requires 0 <= i < |properties|
    requires free == FreePeriods(BookingsAt(bookings, properties[i].id), today)
    ensures Listing(properties, FreeTable(bookings, properties, today), i + 1) ==
            Listing(properties, FreeTable(bookings, properties, today), i) +
              (if |free| > 0 then [Listed(properties[i], free)] else [])
  {
    FreeTableAt(bookings, properties, today, i);
  }

  // ---------------------------------------------------------------------------------------
  // The listing as written.

  /** `PropertyBase.lock_id` is optional but has no default, so the schema requires it, and
      each entry of the listing is built without it: building one raises a validation error
      and the request ends in 500. */
  const MissingLockId := "1 validation error for PropertyWithAvailabilityPeriods: lock_id: Field required"

  /** The loop of `get_available_properties` as written over the first `i` properties: it
      succeeds, with nothing listed, exactly while no property so far has a free period. */
  function ListingAsWritten(properties: seq<Property>, periods: seq<seq<Period>>, i: nat)
    : (r: Result<seq<AvailableProperty>>)
    requires i <= |properties| && i <= |periods|
    ensures r.Ok? <==> forall k :: 0 <= k < i ==> |periods[k]| == 0
    ensures r.Ok? ==> r.value == [] && Listing(properties, periods, i) == []
    ensures r.Err? ==> r.error == HttpError(500, MissingLockId)
  {
    if i == 0 then Ok([])
    else
      match ListingAsWritten(properties, periods, i - 1)
      case Err(e) => Err(e)
      case Ok(listed) => if |periods[i - 1]| > 0 then Fail(500, MissingLockId) else Ok(listed)
  }

  /** `get_available_properties` as written. */
  function GetAvailablePropertiesAsWritten(bookings: seq<Booking>, properties: seq<Property>, today: int)
    : (r: Result<seq<AvailableProperty>>)
    ensures r.Ok? ==> r.value == []
    ensures r.Err? ==> r.error == HttpError(500, MissingLockId)
  {
    ListingAsWritten(properties, FreeTable(bookings, properties, today), |properties|)
  }

  /** As written, the request succeeds exactly when the intended listing would be empty, and
      then it returns that empty listing. */
  lemma AsWrittenListsNothing(bookings: seq<Booking>, properties: seq<Property>, today: int)
    ensures var free := FreeTable(bookings, properties, today);
            var r := GetAvailablePropertiesAsWritten(bookings, properties, today);
            (r.Ok? <==> Listing(properties, free, |properties|) == []) &&
            (r.Ok? ==> r.value == Listing(properties, free, |properties|))
  {
    var free := FreeTable(bookings, properties, today);
    forall k | 0 <= k < |properties| && |free[k]| > 0
      ensures Listed(properties[k], free[k]) in Listing(properties, free, |properties|)
    {
      ListingHasFree(properties, free, |properties|, k);
    }
  }

  /** A property without bookings is free from today to the horizon. */
  lemma {:induction false} UnbookedIsFree(bookings: seq<Booking>, id: int, today: int)
    requires forall b :: b in bookings ==> b.propertyId != id
    ensures FreePeriods(BookingsAt(bookings, id), today) == [Period(today, today + HorizonDays)]
  {
    assert SortByStart(BookingsAt(bookings, id)) == [];
  }

  /** So, as written, one property without bookings is enough for the listing to answer 500. */
  lemma UnbookedPropertyBreaksListing(bookings: seq<Booking>, properties: seq<Property>, today: int, k: int)
    requires 0 <= k < |properties|
    requires forall b :: b in bookings ==> b.propertyId != properties[k].id
    ensures GetAvailablePropertiesAsWritten(bookings, properties, today) == Fail(500, MissingLockId)
  {
    UnbookedIsFree(bookings, properties[k].id, today);
    FreeTableAt(bookings, properties, today, k);
  }
}
