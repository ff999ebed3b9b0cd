/** static/script.js, booking section: the ticket being booked
    (currentBooking) and the modals it moves through, from choosing an offer
    to the receipt. Which modal is visible is kept as a flag; the page's
    markup, the timers of the processing steps and the request's network
    round trip are not modelled. */
module Booking {
  import opened Strings

  /** The traveller details confirmed for a booking. */
  datatype Traveler = Traveler(name: string, email: string, phone: string)

  /** currentBooking. The price is in paise; the details are absent until
      confirmed. */
  datatype Draft = Draft(site: string, transportId: string, price: int, count: int,
                         traveler: Option<Traveler>)

  datatype Alert = NoBookingSelected | FillAllDetails

  /** The payment summary: passenger name, travellers, contact, total. */
  datatype Summary = Summary(name: string, travelers: int, email: string, total: int)

  /** The processing overlay: the UPI scanner, or for any other method the
      values its simulated steps show (the method and amount of the first
      step, the name in the last). */
  datatype Overlay = UpiScanner | PaymentSteps(via: string, amount: int, payee: string)

  /** The filled ticket receipt. */
  datatype Receipt = Receipt(passenger: string, email: string, phone: string, transportId: string,
                             site: string, travelers: int, total: int)

  /** price * count, the amount shown everywhere (in paise). */
  function Total(d: Draft): int { d.price * d.count }

  datatype TravelerOutcome = Rejected(alert: Alert) | Accepted(draft: Draft)

  /** confirmTravelerDetails' decision on the trimmed fields and the count
      (1 when the field is empty): no booking selected, or an empty field or
      fewer than one traveller, is refused with its alert; otherwise the
      booking takes the details and the count. */
  function CheckTraveler(d: Option<Draft>, name: string, email: string, phone: string, count: int)
    : (r: TravelerOutcome)
    ensures r == Rejected(NoBookingSelected) <==> d.None?
    ensures r == Rejected(FillAllDetails) <==> d.Some? && (name == "" || email == "" || phone == "" || count < 1)
    ensures r.Accepted? ==>
      && r.draft == d.value.(count := count, traveler := Some(Traveler(name, email, phone)))
      && r.draft.count >= 1 && name != "" && email != "" && phone != ""
  {
    if d.None? then Rejected(NoBookingSelected)
    else if name == "" || email == "" || phone == "" || count < 1 then Rejected(FillAllDetails)
    else Accepted(d.value.(count := count, traveler := Some(Traveler(name, email, phone))))
  }

  function CountOf(countField: Option<int>): int { countField.GetOr(1) }

  /** The details an accepted booking keeps are non-empty and carry no
      surrounding whitespace, whatever was typed; a field of blanks is
      refused. */
  lemma AcceptedDetailsTrimmed(d: Option<Draft>, name: string, email: string, phone: string,
                               countField: Option<int>)
    ensures var r := CheckTraveler(d, JsTrim(name), JsTrim(email), JsTrim(phone), CountOf(countField));
      && (r.Accepted? <==>
            d.Some? && !AllSpace(name, JsIsSpace) && !AllSpace(email, JsIsSpace) && !AllSpace(phone, JsIsSpace)
            && CountOf(countField) >= 1)
      && (r.Accepted? ==>
            var t := r.draft.traveler.value;
            JsTrim(t.name) == t.name && JsTrim(t.email) == t.email && JsTrim(t.phone) == t.phone)
  {
    TrimmedField(name);
    TrimmedField(email);
    TrimmedField(phone);
    var n, e, p := JsTrim(name), JsTrim(email), JsTrim(phone);
    var r := CheckTraveler(d, n, e, p, CountOf(countField));
    if r.Accepted? {
      assert r.draft.traveler.value == Traveler(n, e, p);
    }
  }

  lemma TrimmedField(s: string)
    ensures JsTrim(JsTrim(s)) == JsTrim(s)
    ensures JsTrim(s) == "" <==> AllSpace(s, JsIsSpace)
  {
    StripIdempotent(s, JsIsSpace);
  }

  /** The receipt for a booking: missing details print as empty text, a
      falsy count as 1. */
  function ReceiptOf(d: Draft): Receipt {
    var t := d.traveler.GetOr(Traveler("", "", ""));
    Receipt(t.name, t.email, t.phone, d.transportId, d.site, if d.count == 0 then 1 else d.count, Total(d))
  }

  /** For a count of at least one, the receipt's travellers and total are
      those of the payment summary. */
  lemma ReceiptAgreesWithSummary(d: Draft, t: Traveler)
    requires d.count >= 1 && d.traveler == Some(t)
    ensures ReceiptOf(d).travelers == SummaryOf(d, t).travelers == d.count
    ensures ReceiptOf(d).total == SummaryOf(d, t).total == d.price * d.count
    ensures ReceiptOf(d).passenger == SummaryOf(d, t).name && ReceiptOf(d).email == SummaryOf(d, t).email
  {
  }

  function SummaryOf(d: Draft, t: Traveler): Summary {
    Summary(t.name, d.count, t.email, Total(d))
  }

  /** The overlay confirmPayment opens: the scanner for UPI, otherwise the
      steps, which name the transport id. */
  function OverlayFor(d: Draft, via: string): (o: Overlay)
    ensures o.UpiScanner? <==> via == "UPI"
    ensures o.PaymentSteps? ==> o.via == via && o.amount == d.price * d.count && o.payee == d.transportId
  {
    if via == "UPI" then UpiScanner else PaymentSteps(via, Total(d), d.transportId)
  }

  class BookingFlow {
    var booking: Option<Draft>
    var travelerOpen: bool
    var paymentOpen: bool
    var summary: Option<Summary>
    var overlay: Option<Overlay>
    var successOpen: bool
    var receipt: Option<Receipt>
    var receiptShown: bool
    /** The alerts shown, oldest first. */
    var alerts: seq<Alert>
    /** The transport ids posted to /book, oldest first. */
    var posted: seq<string>

    /** A booking always counts at least one traveller, so the receipt's
        count fallback never applies. */
    predicate Valid()
      reads this
    {
      booking.Some? ==> booking.value.count >= 1
    }

    constructor()
      ensures Valid()
      ensures booking.None? && !travelerOpen && !paymentOpen && summary.None? && overlay.None?
      ensures !successOpen && receipt.None? && !receiptShown && alerts == [] && posted == []
    {
      booking := None;
      travelerOpen := false;
      paymentOpen := false;
      summary := None;
      overlay := None;
      successOpen := false;
      receipt := None;
      receiptShown := false;
      alerts := [];
      posted := [];
    }

    /** fakeBook: start a booking for one traveller and ask for the details. */
    method FakeBook(site: string, transportId: string, price: int)
      modifies this
      ensures Valid()
      ensures booking == Some(Draft(site, transportId, price, 1, None)) && travelerOpen
      ensures paymentOpen == old(paymentOpen) && summary == old(summary) && overlay == old(overlay)
      ensures successOpen == old(successOpen) && receipt == old(receipt) && receiptShown == old(receiptShown)
      ensures alerts == old(alerts) && posted == old(posted)
    {
      booking := Some(Draft(site, transportId, price, 1, None));
      travelerOpen := true;
    }

    method CloseTravelerModal()
      modifies this
      ensures !travelerOpen
      ensures booking == old(booking) && paymentOpen == old(paymentOpen) && summary == old(summary)
      ensures overlay == old(overlay) && successOpen == old(successOpen) && receipt == old(receipt)
      ensures receiptShown == old(receiptShown) && alerts == old(alerts) && posted == old(posted)
    {
      travelerOpen := false;
    }

    /** confirmTravelerDetails: a refusal shows its alert and changes
      nothing else; an accepted booking closes the details, fills the
      summary and opens the payment modal. */
    method ConfirmTravelerDetails(name: string, email: string, phone: string, countField: Option<int>)
      requires Valid()
      modifies this
      ensures Valid()
      ensures Decided(CheckTraveler(old(booking), JsTrim(name), JsTrim(email), JsTrim(phone), CountOf(countField)),
                      old(booking), old(travelerOpen), old(paymentOpen), old(summary), old(alerts))
      ensures overlay == old(overlay) && successOpen == old(successOpen) && receipt == old(receipt)
      ensures receiptShown == old(receiptShown) && posted == old(posted)
    {
      var outcome := CheckTraveler(booking, JsTrim(name), JsTrim(email), JsTrim(phone), CountOf(countField));
      Submit(outcome);
    }

    /** The state after confirmTravelerDetails has decided r, from the state
        before: a refusal adds its alert and changes nothing else; an accepted
        booking replaces the current one, closes the details, fills the
        summary and opens the payment modal. */
    predicate Decided(r: TravelerOutcome, booking0: Option<Draft>, travelerOpen0: bool, paymentOpen0: bool,
                      summary0: Option<Summary>, alerts0: seq<Alert>)
      reads this
    {
      if r.Rejected? then
        && alerts == alerts0 + [r.alert]
        && booking == booking0 && travelerOpen == travelerOpen0
        && paymentOpen == paymentOpen0 && summary == summary0
      else
        && alerts == alerts0 && booking == Some(r.draft) && !travelerOpen && paymentOpen
        && r.draft.traveler.Some?
        && summary == Some(SummaryOf(r.draft, r.draft.traveler.value))
    }

    /** Applies a decision to the booking and the modals. */
    method Submit(r: TravelerOutcome)
      requires Valid()
      requires r.Accepted? ==> r.draft.count >= 1 && r.draft.traveler.Some?
      modifies this
      ensures Valid()
      ensures Decided(r, old(booking), old(travelerOpen), old(paymentOpen), old(summary), old(alerts))
      ensures overlay == old(overlay) && successOpen == old(successOpen) && receipt == old(receipt)
      ensures receiptShown == old(receiptShown) && posted == old(posted)
    {
      if r.Rejected? {
        alerts := alerts + [r.alert];
        return;
      }
      var d := r.draft;
      booking := Some(d);
      travelerOpen := false;
      summary := Some(SummaryOf(d, d.traveler.value));
      paymentOpen := true;
    }

    method ClosePaymentModal()
      modifies this
      ensures !paymentOpen
      ensures booking == old(booking) && travelerOpen == old(travelerOpen) && summary == old(summary)
      ensures overlay == old(overlay) && successOpen == old(successOpen) && receipt == old(receipt)
      ensures receiptShown == old(receiptShown) && alerts == old(alerts) && posted == old(posted)
    {
      paymentOpen := false;
    }

    /** confirmPayment: close the payment modal; with a booking, open the
      overlay for the chosen method (UPI when there is no selector) and post
      the transport id. */
    method ConfirmPayment(methodField: Option<string>)
      modifies this
      ensures !paymentOpen
      ensures old(booking).None? ==> overlay == old(overlay) && posted == old(posted)
      ensures old(booking).Some? ==>
        && overlay == Some(OverlayFor(old(booking).value, methodField.GetOr("UPI")))
        && posted == old(posted) + [old(booking).value.transportId]
      ensures booking == old(booking) && travelerOpen == old(travelerOpen) && summary == old(summary)
      ensures successOpen == old(successOpen) && receipt == old(receipt)
      ensures receiptShown == old(receiptShown) && alerts == old(alerts)
    {
      paymentOpen := false;
      if booking.None? {
        return;
      }
      var via := methodField.GetOr("UPI");
      var d := booking.value;
      if via == "UPI" {
        overlay := Some(UpiScanner);
      } else {
        overlay := Some(PaymentSteps(via, d.price * d.count, d.transportId));
      }
      posted := posted + [d.transportId];
    }

    /** closeProcessingOverlay: hide it; the success modal follows only
      while a booking is in progress. */
    method CloseProcessingOverlay()
      modifies this
      ensures overlay.None?
      ensures successOpen == (old(successOpen) || old(booking).Some?)
      ensures booking == old(booking) && travelerOpen == old(travelerOpen) && paymentOpen == old(paymentOpen)
      ensures summary == old(summary) && receipt == old(receipt) && receiptShown == old(receiptShown)
      ensures alerts == old(alerts) && posted == old(posted)
    {
      overlay := None;
      if booking.Some? {
        successOpen := true;
      }
    }

    /** closeSuccessModal: hide it; with a booking, fill and show the
      receipt, whose travellers and total are the booking's own. */
    method CloseSuccessModal()
      requires Valid()
      modifies this
      ensures !successOpen
      ensures old(booking).None? ==> receipt == old(receipt) && receiptShown == old(receiptShown)
      ensures old(booking).Some? ==>
        && receipt == Some(ReceiptOf(old(booking).value)) && receiptShown
        && receipt.value.travelers == old(booking).value.count
        && receipt.value.total == Total(old(booking).value)
      ensures booking == old(booking) && travelerOpen == old(travelerOpen) && paymentOpen == old(paymentOpen)
      ensures summary == old(summary) && overlay == old(overlay) && alerts == old(alerts) && posted == old(posted)
    {
      successOpen := false;
      if booking.None? {
        return;
      }
      receipt := Some(ReceiptOf(booking.value));
      receiptShown := true;
    }

    /** closeTicketReceipt: hide the receipt and forget the booking. */
    method CloseTicketReceipt()
      modifies this
      ensures Valid()
      ensures !receiptShown && booking.None?
      ensures travelerOpen == old(travelerOpen) && paymentOpen == old(paymentOpen) && summary == old(summary)
      ensures overlay == old(overlay) && successOpen == old(successOpen) && receipt == old(receipt)
      ensures alerts == old(alerts) && posted == old(posted)
    {
      receiptShown := false;
      booking := None;
    }
  }
}
