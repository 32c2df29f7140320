/** frontend/src/pages/BookingsPage.tsx: the guest's list of bookings. Each card shows a status
    chip, a payment badge, a "Cancel Booking" button and a "Pay" button, according to the rules
    below; the cancel and pay dialogs change the page's state, specified by functions on a
    value of that state. */
module BookingsPage {
  import opened Wrappers
  import Models
  import BookingCrud
  import opened UserApi

  /** A payment as the page reads it: only its status. */
  datatype ClientPayment = ClientPayment(status: string)

  /** A booking as the page reads it. The status is the enum's text or absent; the price and
      the payment are absent when the backend does not send them. */
  datatype ClientBooking = ClientBooking(
    id: int, status: Option<string>, bookingPrice: Option<int>, payment: Option<ClientPayment>)

  const Confirmed := Models.BookingStatusValue(Models.CONFIRMED)
  const Pending := Models.BookingStatusValue(Models.PENDING)
  const Cancelled := Models.BookingStatusValue(Models.CANCELLED)

  /** The MUI colours the page uses. */
  datatype Color = SuccessColor | WarningColor | ErrorColor | DefaultColor

  /** `getStatusColor`: confirmed, pending and cancelled each have their colour; any other
      text, and no status, get the default. */
  function StatusColor(status: Option<string>): (c: Color)
    ensures c == SuccessColor <==> status == Some(Confirmed)
    ensures c == WarningColor <==> status == Some(Pending)
    ensures c == ErrorColor <==> status == Some(Cancelled)
    ensures c == DefaultColor <==> status !in {Some(Confirmed), Some(Pending), Some(Cancelled)}
  {
    if status == Some(Confirmed) then SuccessColor
    else if status == Some(Pending) then WarningColor
    else if status == Some(Cancelled) then ErrorColor
    else DefaultColor
  }

  /** The chip's text: the status, or 'Unknown' when it is absent or empty. */
  function StatusLabel(status: Option<string>): (s: string)
    ensures Truthy(status) ==> s == status.value
    ensures !Truthy(status) ==> s == "Unknown"
  {
    OrElse(status, "Unknown")
  }

  /** "Cancel Booking" is enabled, and visible, exactly for a confirmed booking. */
  predicate CancelEnabled(b: ClientBooking) {
    b.status == Some(Confirmed)
  }

  /** A booking can be cancelled exactly when its chip is green. */
  lemma CancelEnabledWhenGreen(b: ClientBooking)
    ensures CancelEnabled(b) <==> StatusColor(b.status) == SuccessColor
  {
  }

  /** Line 228: "Pay" is shown unless a successful payment exists. */
  predicate PayShown(b: ClientBooking) {
    b.payment.None? || b.payment.value.status != "success"
  }

  /** Lines 200-206: the payment badge's colour. */
  function PaymentColor(b: ClientBooking): (c: Color)
    ensures c == SuccessColor <==> b.payment.Some? && b.payment.value.status == "success"
    ensures c == ErrorColor <==> b.payment.Some? && b.payment.value.status == "failed"
    ensures c in {SuccessColor, ErrorColor, WarningColor}
  {
    if b.payment.Some? && b.payment.value.status == "success" then SuccessColor
    else if b.payment.Some? && b.payment.value.status == "failed" then ErrorColor
    else WarningColor
  }

  /** "Pay" is offered exactly when the payment badge is not green. */
  lemma PayShownUnlessPaid(b: ClientBooking)
    ensures PayShown(b) <==> PaymentColor(b) != SuccessColor
  {
  }

  /** `toUpperCase` on one character, for the ASCII letters. */
  function UpperChar(c: char): (r: char)
    ensures 'a' <= c <= 'z' ==> r as int == c as int - 32
    ensures !('a' <= c <= 'z') ==> r == c
  {
    if 'a' <= c <= 'z' then (c as int - 32) as char else c
  }

  /** `s.charAt(0).toUpperCase() + s.slice(1)`. */
  function Capitalize(s: string): (r: string)
    ensures |r| == |s|
    ensures s != [] ==> r[0] == UpperChar(s[0]) && r[1..] == s[1..]
  {
    if s == [] then [] else [UpperChar(s[0])] + s[1..]
  }

  const PaymentPrefix := "Payment: "

  /** Lines 211-213: 'Not paid' without a payment, otherwise the prefix and the capitalised
      status. */
  function PaymentLabel(b: ClientBooking): (s: string)
    ensures b.payment.None? ==> s == "Not paid"
    ensures b.payment.Some? ==>
              |s| == |PaymentPrefix| + |b.payment.value.status| && s[..|PaymentPrefix|] == PaymentPrefix &&
              s[|PaymentPrefix|..] == Capitalize(b.payment.value.status)
  {
    if b.payment.None? then "Not paid" else PaymentPrefix + Capitalize(b.payment.value.status)
  }

  /** The three payment statuses the backend stores read as 'Payment: Pending',
      'Payment: Success' and 'Payment: Failed'. */
  lemma PaymentLabels(b: ClientBooking)
    ensures b.payment == Some(ClientPayment("pending")) ==> PaymentLabel(b) == "Payment: Pending"
    ensures b.payment == Some(ClientPayment("success")) ==> PaymentLabel(b) == "Payment: Success"
    ensures b.payment == Some(ClientPayment("failed")) ==> PaymentLabel(b) == "Payment: Failed"
  {
    if b.payment == Some(ClientPayment("pending")) {
      CapitalizePending();
    } else if b.payment == Some(ClientPayment("success")) {
      CapitalizeSuccess();
    } else if b.payment == Some(ClientPayment("failed")) {
      CapitalizeFailed();
    }
  }

  lemma CapitalizePending() ensures Capitalize("pending") == "Pending" {
    assert UpperChar('p') == 'P' && "pending"[1..] == "ending";
  }

  lemma CapitalizeSuccess() ensures Capitalize("success") == "Success" {
    assert UpperChar('s') == 'S' && "success"[1..] == "uccess";
  }

  lemma CapitalizeFailed() ensures Capitalize("failed") == "Failed" {
    assert UpperChar('f') == 'F' && "failed"[1..] == "ailed";
  }

  // ---------------------------------------------------------------------------------------
  // The dialogs.

  /** The page's state: the cancel dialog, the pay dialog, the two banners and the updates the
      page has sent. */
  datatype View = View(
    cancelOpen: bool, selected: Option<ClientBooking>,
    payOpen: bool, paySelected: Option<ClientBooking>, paymentAmount: int,
    paymentError: Option<string>, paymentSuccess: Option<string>,
    error: Option<string>, success: Option<string>,
    sent: seq<(int, Models.BookingUpdate)>)

  const CancelFailed := "Failed to cancel booking. Please try again later."
  const CancelDone := "Booking cancelled successfully"

  /** `booking.booking_price || 0`. */
  function Prefill(b: ClientBooking): (amount: int)
    ensures b.bookingPrice.None? ==> amount == 0
    ensures b.bookingPrice.Some? ==> amount == b.bookingPrice.value
  {
    if b.bookingPrice.Some? && b.bookingPrice.value != 0 then b.bookingPrice.value else 0
  }

  /** `handlePayClick`: the dialog opens for that booking with its price as the amount, and
      both payment messages are cleared; nothing is sent. */
  function PayClicked(v: View, b: ClientBooking): (r: View)
    ensures r.payOpen && r.paySelected == Some(b) && r.paymentAmount == Prefill(b)
    ensures r.paymentError.None? && r.paymentSuccess.None?
    ensures r == v.(payOpen := r.payOpen, paySelected := r.paySelected, paymentAmount := r.paymentAmount,
                    paymentError := None, paymentSuccess := None)
  {
    v.(paySelected := Some(b), paymentAmount := Prefill(b), payOpen := true, paymentError := None, paymentSuccess := None)
  }

  /** `handleCancelClick`: the confirmation dialog opens for that booking. */
  function CancelClicked(v: View, b: ClientBooking): (r: View)
    ensures r == v.(selected := Some(b), cancelOpen := true)
  {
    v.(selected := Some(b), cancelOpen := true)
  }

  /** The update the page sends to cancel: the status and nothing else. */
  const CancelUpdate := Models.BookingUpdate(Some(Models.CANCELLED), None, None)

  /** `handleCancelConfirm`: without a selected booking nothing happens; otherwise the update
      is sent, success closes the dialog with a message and failure shows the error. */
  function CancelConfirmed(v: View, reply: Reply<()>): (r: View)
    ensures v.selected.None? ==> r == v
    ensures v.selected.Some? ==> r.sent == v.sent + [(v.selected.value.id, CancelUpdate)]
    ensures v.selected.Some? && reply.Success? ==>
              !r.cancelOpen && r.success == Some(CancelDone) && r.error.None?
    ensures v.selected.Some? && reply.Failure? ==>
              r.cancelOpen == v.cancelOpen && r.success == v.success && r.error == Some(CancelFailed)
  {
    if v.selected.None? then v
    else
      var sending := v.(error := None, sent := v.sent + [(v.selected.value.id, CancelUpdate)]);
      if reply.Success? then sending.(success := Some(CancelDone), cancelOpen := false)
      else sending.(error := Some(CancelFailed))
  }

  /** The backend refuses every cancellation the page sends, whoever asks and whatever is
      stored: the update carries no dates, and `update_booking` writes them as NULL. When the
      guest owns the booking the answer is the 500 of the NOT NULL constraint. */
  lemma CancelAlwaysRefused(
    bookings: seq<Models.Booking>, properties: seq<Models.Property>, id: int, caller: Models.User)
    ensures BookingCrud.UpdateBookingResult(bookings, properties, id, CancelUpdate, caller).Err?
    ensures BookingCrud.GetBooking(bookings, properties, id, caller).Ok? &&
            BookingCrud.GetBooking(bookings, properties, id, caller).value.userId == caller.id ==>
              StatusOf(BookingCrud.UpdateBookingResult(bookings, properties, id, CancelUpdate, caller)) == 500
  {
    BookingCrud.PartialUpdateFails(bookings, properties, id, CancelUpdate, caller);
  }

  /** With the merge `update_booking` evidently intends, the guest's cancellation is accepted:
      the booking becomes cancelled and keeps its dates. */
  lemma CancelAcceptedWhenMerged(
    bookings: seq<Models.Booking>, properties: seq<Models.Property>, id: int, caller: Models.User)
    requires BookingCrud.GetBooking(bookings, properties, id, caller).Ok?
    requires BookingCrud.GetBooking(bookings, properties, id, caller).value.userId == caller.id
    ensures BookingCrud.UpdateBookingMerged(bookings, properties, id, CancelUpdate, caller) ==
            Ok(BookingCrud.GetBooking(bookings, properties, id, caller).value.(status := Some(Models.CANCELLED)))
  {
    BookingCrud.StatusOnlyUpdateKeepsDates(bookings, properties, id, Some(Models.CANCELLED), caller);
  }

  /** So the page, given the backend's answer, always ends with the cancel error shown and the
      dialog as it was. */
  lemma CancelShowsError(v: View, b: ClientBooking, detail: Option<string>, status: Option<int>)
    ensures var r := CancelConfirmed(CancelClicked(v, b), Failure(ApiError(status, detail)));
            r.error == Some(CancelFailed) && r.cancelOpen && r.sent == v.sent + [(b.id, CancelUpdate)]
  {
  }

  /** The page; `fetchBookings` is left to the caller. */
  class Page {
    var bookings: seq<ClientBooking>
    var view: View

    constructor (fetched: seq<ClientBooking>)
      ensures bookings == fetched
      ensures view == View(false, None, false, None, 0, None, None, None, None, [])
    {
      bookings := fetched;
      view := View(false, None, false, None, 0, None, None, None, None, []);
    }

    method HandleCancelClick(b: ClientBooking)
      modifies this`view
      ensures view == CancelClicked(old(view), b)
    {
      view := view.(selected := Some(b));
      view := view.(cancelOpen := true);
    }

    method HandleCancelConfirm(reply: Reply<()>)
      modifies this`view
      ensures view == CancelConfirmed(old(view), reply)
    {
      if view.selected.None? {
        return;
      }
      view := view.(error := None);
      view := view.(sent := view.sent + [(view.selected.value.id, CancelUpdate)]);
      if reply.Success? {
        view := view.(success := Some(CancelDone));
        view := view.(cancelOpen := false);
      } else {
        view := view.(error := Some(CancelFailed));
      }
    }

    method HandlePayClick(b: ClientBooking)
      modifies this`view
      ensures view == PayClicked(old(view), b)
    {
      view := view.(paySelected := Some(b));
      view := view.(paymentAmount := if b.bookingPrice.Some? && b.bookingPrice.value != 0 then b.bookingPrice.value else 0);
      view := view.(payOpen := true);
      view := view.(paymentError := None);
      view := view.(paymentSuccess := None);
    }
  }
}
