/** frontend/src/pages/PropertiesPage.tsx: the list of available properties with its search,
    price and rooms filters, the "Book" button and the booking dialog. The filters are one
    function of the fetched list; the handlers change the page's state, specified by functions
    on a value of that state. */
module PropertiesPage {
  import opened Wrappers
  import opened Seqs
  import opened UserApi

  /** A property as the client receives it (frontend/src/types/api.ts). Its price is in whole
      currency units, the unit the price slider's bounds are in; fractional prices are not
      modelled on this page. */
  datatype ClientProperty = ClientProperty(
    id: int, name: string, description: Option<string>, rooms: int, price: int,
    location: Option<string>, lockId: Option<string>, ownerId: int)

  // ---------------------------------------------------------------------------------------
  // Search.

  /** `toLowerCase` on one character, for the ASCII letters. */
  function LowerChar(c: char): (r: char)
    ensures 'A' <= c <= 'Z' ==> r as int == c as int + 32
    ensures !('A' <= c <= 'Z') ==> r == c
    ensures !('A' <= r <= 'Z')
  {
    if 'A' <= c <= 'Z' then (c as int + 32) as char else c
  }

  function Lower(s: string): (r: string)
    ensures |r| == |s|
    ensures forall i :: 0 <= i < |s| ==> r[i] == LowerChar(s[i])
  {
    if s == [] then [] else [LowerChar(s[0])] + Lower(s[1..])
  }

  /** Lowering twice is lowering once. */
  lemma LowerIdempotent(s: string)
    ensures Lower(Lower(s)) == Lower(s)
  {
  }

  /** `s.includes(t)`, searching from the left. */
  predicate Contains(s: string, t: string)
    decreases |s|
  {
    |t| <= |s| && (s[..|t|] == t || Contains(s[1..], t))
  }

  /** `t` occurs in `s` at position `i`. */
  predicate OccursAt(s: string, t: string, i: int) {
    0 <= i && i + |t| <= |s| && s[i..i + |t|] == t
  }

  /** `Contains` holds exactly when `t` occurs at some position of `s`. */
  lemma {:induction false} ContainsAt(s: string, t: string)
    ensures Contains(s, t) <==> exists i :: OccursAt(s, t, i)
    decreases |s|
  {
    if |t| <= |s| {
      if s[..|t|] == t {
        assert OccursAt(s, t, 0);
      } else {
        ContainsAt(s[1..], t);
        forall i | OccursAt(s[1..], t, i) ensures OccursAt(s, t, i + 1) {
          assert s[i + 1..i + 1 + |t|] == s[1..][i..i + |t|];
        }
        forall i | OccursAt(s, t, i) ensures OccursAt(s[1..], t, i - 1) {
          assert s[1..][i - 1..i - 1 + |t|] == s[i..i + |t|];
        }
      }
    }
  }

  /** Every text contains the empty text. */
  lemma ContainsEmpty(s: string)
    ensures Contains(s, "")
  {
    ContainsAt(s, "");
    assert OccursAt(s, "", 0);
  }

  /** The search of lines 72-79: the lowered term occurs in the lowered name, description or
      location; a missing description or location matches nothing. */
  predicate SearchMatch(p: ClientProperty, term: string) {
    var t := Lower(term);
    Contains(Lower(p.name), t) ||
    (p.description.Some? && Contains(Lower(p.description.value), t)) ||
    (p.location.Some? && Contains(Lower(p.location.value), t))
  }

  /** The search is case-insensitive in the term. */
  lemma SearchIgnoresCase(p: ClientProperty, term: string)
    ensures SearchMatch(p, Lower(term)) == SearchMatch(p, term)
  {
    LowerIdempotent(term);
  }

  // ---------------------------------------------------------------------------------------
  // The filter effect.

  datatype RoomFilter = All | Rooms(count: int)

  /** The filter controls: search text, price range `[lo, hi]` and rooms. */
  datatype Criteria = Criteria(searchTerm: string, lo: int, hi: int, rooms: RoomFilter)

  /** `useState('')`, `useState([0, 1000])` and `useState('all')`. */
  const InitialCriteria := Criteria("", 0, 1000, All)

  /** What the filters keep: an empty term keeps everything, the price range is inclusive at
      both ends, and a room count must match exactly. */
  predicate Kept(p: ClientProperty, c: Criteria) {
    (c.searchTerm == "" || SearchMatch(p, c.searchTerm)) &&
    c.lo <= p.price <= c.hi &&
    (c.rooms.All? || p.rooms == c.rooms.count)
  }

  /** Lines 69-91: the search filter when the term is non-empty, then the price filter, then
      the rooms filter unless it is 'all'. */
  function FilterProperties(props: seq<ClientProperty>, c: Criteria): (r: seq<ClientProperty>)
    ensures |r| <= |props|
    ensures forall p :: p in r <==> p in props && Kept(p, c)
  {
    var searched := if c.searchTerm != "" then Filter((p: ClientProperty) => SearchMatch(p, c.searchTerm), props) else props;
    var priced := Filter((p: ClientProperty) => c.lo <= p.price <= c.hi, searched);
    if c.rooms.All? then priced else Filter((p: ClientProperty) => p.rooms == c.rooms.count, priced)
  }

  /** The three filters are one filter by `Kept`, so the result is the fetched list with the
      rejected properties left out and the rest in their order. */
  lemma FilterPropertiesInOrder(props: seq<ClientProperty>, c: Criteria)
    ensures FilterProperties(props, c) == Filter(p => Kept(p, c), props)
    ensures IsSubsequence(FilterProperties(props, c), props)
  {
    var search := p => SearchMatch(p, c.searchTerm);
    var price := (p: ClientProperty) => c.lo <= p.price <= c.hi;
    var kept := p => Kept(p, c);
    if c.searchTerm == "" {
      if c.rooms.All? {
        FilterFilter(p => true, price, kept, props);
        FilterAll(p => true, props);
      } else {
        var rooms := (p: ClientProperty) => p.rooms == c.rooms.count;
        FilterFilter(price, rooms, kept, props);
      }
    } else {
      if c.rooms.All? {
        FilterFilter(search, price, kept, props);
      } else {
        var rooms := (p: ClientProperty) => p.rooms == c.rooms.count;
        var searchPrice := p => search(p) && price(p);
        FilterFilter(search, price, searchPrice, props);
        FilterFilter(searchPrice, rooms, kept, props);
      }
    }
    FilterIsSubsequence(kept, props);
  }

  /** With the initial controls every property priced from 0 to 1000 is listed, in order. */
  lemma InitialCriteriaKeepAll(props: seq<ClientProperty>)
    requires forall p :: p in props ==> 0 <= p.price <= 1000
    ensures FilterProperties(props, InitialCriteria) == props
  {
    FilterAll((p: ClientProperty) => InitialCriteria.lo <= p.price <= InitialCriteria.hi, props);
  }

  // ---------------------------------------------------------------------------------------
  // The booking dialog.

  /** `date.toISOString().split('T')[0]`: the text before the first 'T', all of it when there
      is none. */
  function DatePart(iso: string): (r: string)
    ensures |r| <= |iso| && r == iso[..|r|]
    ensures 'T' !in r
    ensures |r| < |iso| ==> iso[|r|] == 'T'
  {
    if iso == [] || iso[0] == 'T' then [] else [iso[0]] + DatePart(iso[1..])
  }

  /** On an ISO timestamp the date part is the calendar date. */
  lemma {:induction false} DatePartOfTimestamp(date: string, time: string)
    requires 'T' !in date
    ensures DatePart(date + "T" + time) == date
  {
    if date != [] {
      assert (date + "T" + time)[1..] == date[1..] + "T" + time;
      DatePartOfTimestamp(date[1..], time);
    }
  }

  /** The payload of `bookingApi.createBooking`. */
  datatype NewBooking = NewBooking(propertyId: int, startDate: string, endDate: string)

  const SelectDates := "Please select both check-in and check-out dates"
  const BookingFailed := "Failed to create booking. Please try again later."
  const BookingCreated := "Booking created successfully!"

  /** The dialog's state, the page's location and the bookings it has submitted. Dates are the
      ISO texts of the picked dates. */
  datatype Dialog = Dialog(
    open: bool, selected: Option<ClientProperty>, startDate: Option<string>, endDate: Option<string>,
    error: Option<string>, success: Option<string>, location: string, sent: seq<NewBooking>)

  /** `handleBookClick`: a visitor is sent to the login page and no dialog opens; a signed-in
      user gets the dialog for that property. */
  function BookClicked(d: Dialog, user: Option<ClientUser>, p: ClientProperty): (r: Dialog)
    ensures user.None? ==> r == d.(location := LoginPage)
    ensures user.Some? ==> r == d.(open := true, selected := Some(p))
    ensures r.sent == d.sent
  {
    if user.None? then d.(location := LoginPage) else d.(selected := Some(p), open := true)
  }

  /** `handleBookingSubmit`: without a property and both dates only the error is set and
      nothing is sent; otherwise the booking is sent with the date parts of both dates, and
      success closes the dialog and clears it while failure keeps it open with an error. */
  function Submitted(d: Dialog, reply: Reply<()>): (r: Dialog)
    ensures d.selected.None? || d.startDate.None? || d.endDate.None? ==>
              r == d.(error := Some(SelectDates))
    ensures d.selected.Some? && d.startDate.Some? && d.endDate.Some? ==>
              r.sent == d.sent + [NewBooking(d.selected.value.id, DatePart(d.startDate.value), DatePart(d.endDate.value))] &&
              r.location == d.location
    ensures d.selected.Some? && d.startDate.Some? && d.endDate.Some? && reply.Success? ==>
              !r.open && r.selected.None? && r.startDate.None? && r.endDate.None? &&
              r.error.None? && r.success == Some(BookingCreated)
    ensures d.selected.Some? && d.startDate.Some? && d.endDate.Some? && reply.Failure? ==>
              r.error == Some(BookingFailed) && r.open == d.open && r.selected == d.selected &&
              r.startDate == d.startDate && r.endDate == d.endDate && r.success == d.success
  {
    if d.selected.None? || d.startDate.None? || d.endDate.None? then
      d.(error := Some(SelectDates))
    else
      var booking := NewBooking(d.selected.value.id, DatePart(d.startDate.value), DatePart(d.endDate.value));
      var sending := d.(error := None, sent := d.sent + [booking]);
      if reply.Success? then
        sending.(success := Some(BookingCreated), open := false, startDate := None, endDate := None, selected := None)
      else
        sending.(error := Some(BookingFailed))
  }

  /** A visitor who clicks "Book" on a fresh page and then submits sends nothing: the click
      selects no property, so the guard stops the submission. */
  lemma VisitorBooksNothing(d: Dialog, p: ClientProperty, reply: Reply<()>)
    requires d.selected.None?
    ensures Submitted(BookClicked(d, None, p), reply).sent == d.sent
    ensures Submitted(BookClicked(d, None, p), reply).location == LoginPage
  {
  }

  /** A signed-in user who picks two timestamps sends their calendar dates for the clicked
      property. */
  lemma SignedInBooksClickedProperty(
    d: Dialog, u: ClientUser, p: ClientProperty, start: string, end: string, time: string, reply: Reply<()>)
    requires 'T' !in start && 'T' !in end
    ensures var picked := BookClicked(d, Some(u), p).(startDate := Some(start + "T" + time), endDate := Some(end + "T" + time));
            Submitted(picked, reply).sent == d.sent + [NewBooking(p.id, start, end)]
  {
    DatePartOfTimestamp(start, time);
    DatePartOfTimestamp(end, time);
  }

  /** The page: the fetched list, the filter controls, the filtered list and the dialog. */
  class Page {
    var properties: seq<ClientProperty>
    var criteria: Criteria
    var filtered: seq<ClientProperty>
    var dialog: Dialog

    /** The page once `GET /properties/available` has answered with `fetched`. */
    constructor (fetched: seq<ClientProperty>, location: string)
      ensures properties == fetched && filtered == fetched && criteria == InitialCriteria
      ensures dialog == Dialog(false, None, None, None, None, None, location, [])
    {
      properties := fetched;
      filtered := fetched;
      criteria := InitialCriteria;
      dialog := Dialog(false, None, None, None, None, None, location, []);
    }

    /** A change of the controls, and the effect that recomputes the list. */
    method SetCriteria(c: Criteria)
      modifies this`criteria, this`filtered
      ensures criteria == c && filtered == FilterProperties(properties, c)
    {
      criteria := c;
      var result := properties;
      if c.searchTerm != "" {
        result := Filter((p: ClientProperty) => SearchMatch(p, c.searchTerm), result);
      }
      result := Filter((p: ClientProperty) => c.lo <= p.price <= c.hi, result);
      if !c.rooms.All? {
        result := Filter((p: ClientProperty) => p.rooms == c.rooms.count, result);
      }
      filtered := result;
    }

    method HandleBookClick(user: Option<ClientUser>, p: ClientProperty)
      modifies this`dialog
      ensures dialog == BookClicked(old(dialog), user, p)
    {
      if user.None? {
        dialog := dialog.(location := LoginPage);
        return;
      }
      dialog := dialog.(selected := Some(p));
      dialog := dialog.(open := true);
    }

    method HandleBookingSubmit(reply: Reply<()>)
      modifies this`dialog
      ensures dialog == Submitted(old(dialog), reply)
    {
      if dialog.selected.None? || dialog.startDate.None? || dialog.endDate.None? {
        dialog := dialog.(error := Some(SelectDates));
        return;
      }
      dialog := dialog.(error := None);
      var booking := NewBooking(dialog.selected.value.id, DatePart(dialog.startDate.value), DatePart(dialog.endDate.value));
      dialog := dialog.(sent := dialog.sent + [booking]);
      if reply.Success? {
        dialog := dialog.(success := Some(BookingCreated));
        dialog := dialog.(open := false);
        dialog := dialog.(startDate := None, endDate := None);
        dialog := dialog.(selected := None);
      } else {
        dialog := dialog.(error := Some(BookingFailed));
      }
    }
  }
}
