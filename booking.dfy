/** The booking page (src/pages/Booking.jsx): contact validation, the derived total,
    the schedule taken from the trip, the locally persisted draft, and the two ways
    a submission completes — a direct "pay on arrival" booking, or an online payment
    through the gateway's checkout widget followed by verification. */
module Booking {
  import opened JsValues

  // ---------------------------------------------------------------------------
  // Phone validation: the pattern /^[6-9]\d{9}$/
  // ---------------------------------------------------------------------------

  /** One element of an anchored pattern: a character range repeated exactly
      `count` times (`[6-9]` is Repeat('6', '9', 1); `\d{9}` is Repeat('0', '9', 9)). */
  datatype Piece = Repeat(lo: char, hi: char, count: nat)

  /** /^[6-9]\d{9}$/ */
  const PhonePattern: seq<Piece> := [Repeat('6', '9', 1), Repeat('0', '9', 9)]

  /** Whether the whole of `s` matches `pieces` (the pattern is anchored at both ends). */
  predicate Matches(pieces: seq<Piece>, s: string)
    decreases |pieces|, if pieces == [] then 0 else pieces[0].count
  {
    if pieces == [] then s == []
    else if pieces[0].count == 0 then Matches(pieces[1..], s)
    else
      && s != []
      && pieces[0].lo <= s[0] <= pieces[0].hi
      && Matches([pieces[0].(count := pieces[0].count - 1)] + pieces[1..], s[1..])
  }

  /** `validatePhone`: the regular-expression test of the phone number. It accepts
      exactly the ten-digit numbers whose first digit is 6, 7, 8 or 9. */
  function ValidatePhone(number: string): (r: bool)
    ensures r <==> |number| == 10 && number[0] in "6789" && forall i :: 1 <= i < 10 ==> Text.IsDigit(number[i])
  {
    PhoneAcceptedIff(number);
    Matches(PhonePattern, number)
  }

  /** A repeated range matches exactly `count` characters in that range followed by
      a match of the rest of the pattern. */
  lemma {:induction false} MatchesRepeat(lo: char, hi: char, n: nat, rest: seq<Piece>, s: string)
    ensures Matches([Repeat(lo, hi, n)] + rest, s)
        <==> n <= |s| && (forall i :: 0 <= i < n ==> lo <= s[i] <= hi) && Matches(rest, s[n..])
    decreases n
  {
    var ps := [Repeat(lo, hi, n)] + rest;
    assert ps[1..] == rest;
    if n == 0 {
      assert s[0..] == s;
    } else if s != [] {
      assert [ps[0].(count := n - 1)] + ps[1..] == [Repeat(lo, hi, n - 1)] + rest;
      MatchesRepeat(lo, hi, n - 1, rest, s[1..]);
      if n <= |s| {
        assert s[1..][n - 1..] == s[n..];
        assert (forall i :: 0 <= i < n - 1 ==> lo <= s[1..][i] <= hi)
           <==> (forall i :: 1 <= i < n ==> lo <= s[i] <= hi);
      }
    }
  }

  /** The phone is accepted exactly when it has ten characters, the first in '6'..'9'
      and the other nine decimal digits. */
  lemma PhoneAcceptedIff(s: string)
    ensures Matches(PhonePattern, s)
        <==> |s| == 10 && '6' <= s[0] <= '9' && forall i :: 1 <= i < 10 ==> '0' <= s[i] <= '9'
  {
    assert PhonePattern == [Repeat('6', '9', 1)] + [Repeat('0', '9', 9)];
    MatchesRepeat('6', '9', 1, [Repeat('0', '9', 9)], s);
    if 1 <= |s| {
      var t := s[1..];
      assert [Repeat('0', '9', 9)] + [] == [Repeat('0', '9', 9)];
      MatchesRepeat('0', '9', 9, [], t);
      if 9 <= |t| {
        assert (forall i :: 0 <= i < 9 ==> '0' <= t[i] <= '9')
           <==> (forall i :: 1 <= i < 10 ==> '0' <= s[i] <= '9');
      }
    }
  }

  /** "9876543210" is accepted; "1234567890" and "98765abcde" are rejected. */
  lemma PhoneExamples()
    ensures ValidatePhone("9876543210")
    ensures !ValidatePhone("1234567890")
    ensures !ValidatePhone("98765abcde")
  {
    PhoneAcceptedIff("9876543210");
    PhoneAcceptedIff("1234567890");
    PhoneAcceptedIff("98765abcde");
    assert "98765abcde"[5] == 'a';
  }

  // ---------------------------------------------------------------------------
  // Derived values: total amount and schedule
  // ---------------------------------------------------------------------------

  /** `trip?.price || 0`: a numeric price is the trip's own, a non-zero result is
      always the trip's price, and a trip without a price costs nothing. */
  function PricePerPerson(trip: Json): (r: int)
    ensures Field(trip, "price").Num? ==> r == Field(trip, "price").n
    ensures r != 0 ==> Field(trip, "price") == Num(r)
    ensures !Truthy(Field(trip, "price")) ==> r == 0
  {
    var p := Field(trip, "price");
    if p.Num? then p.n else 0
  }

  /** `pricePerPerson * guests + pricePerPerson * guests * 0.03`, in exact arithmetic. */
  function TotalAmount(price: int, guests: int): (r: real)
    ensures r * 100.0 == (price * guests * 103) as real
  {
    var base := (price * guests) as real;
    base + base * 0.03
  }

  /** The total is 103% of price times guests; with no trip loaded the price is 0. */
  lemma TotalIsBasePlusThreePercent(trip: Json, guests: int)
    ensures TotalAmount(PricePerPerson(trip), guests) == (PricePerPerson(trip) * guests * 103) as real / 100.0
    ensures trip == Null ==> TotalAmount(PricePerPerson(trip), guests) == 0.0
  {
  }

  /** A price of 10000 for 2 guests totals 20600. */
  lemma TotalExample()
    ensures TotalAmount(10000, 2) == 20600.0
  {
  }

  /** `fixedDate` if present, else `expectedMonth`, else "TBA": the schedule shown and
      sent with the booking. It is always a truthy value. */
  function ScheduleValue(trip: Json): (r: Json)
    ensures Truthy(r)
    ensures Truthy(Field(trip, "fixedDate")) ==> r == Field(trip, "fixedDate")
    ensures !Truthy(Field(trip, "fixedDate")) && Truthy(Field(trip, "expectedMonth")) ==> r == Field(trip, "expectedMonth")
    ensures !Truthy(Field(trip, "fixedDate")) && !Truthy(Field(trip, "expectedMonth")) ==> r == Str("TBA")
  {
    if Truthy(Field(trip, "fixedDate")) then Field(trip, "fixedDate")
    else if Truthy(Field(trip, "expectedMonth")) then Field(trip, "expectedMonth")
    else Str("TBA")
  }

  // ---------------------------------------------------------------------------
  // The submission flow
  // ---------------------------------------------------------------------------

  /** The payment options of the form; card and UPI both take the online path. */
  datatype PaymentMethod = PayOnArrival | Upi | Card

  function MethodName(m: PaymentMethod): string
  {
    match m
    case PayOnArrival => "pay_on_arrival"
    case Upi => "upi"
    case Card => "card"
  }

  /** The contact fields of the form (`userDetails`), by field name. */
  type Details = map<string, string>

  /** The signed-in user as the page reads it. */
  datatype User = User(uid: string, email: string, displayName: string)

  const DraftKey := "bookingDraft"
  const PhoneError := "A valid contact frequency (Phone) is required."
  const BookingFailed := "Booking failed."
  const InitiationFailed := "Payment initiation failed."
  const VerificationFailed := "Payment verification failed."

  /** The result of a backend request: its response, or an error carrying the
      server's message ("" when the response had none). */
  datatype Net<T> = Ok(value: T) | Err(message: string)

  /** The payment order returned by /payments/create-order. */
  datatype Order = Order(id: string, amount: real, currency: string)

  /** The signed triple the checkout widget hands to its success handler. */
  datatype Proof = Proof(orderId: string, paymentId: string, signature: string)

  /** The response of /payments/verify. */
  datatype VerifyReply = VerifyReply(success: bool, bookingId: string)

  /** The booking payload built by `finalizeBooking`. */
  datatype Payload = Payload(
    tripId: Json, userId: string, seats: int, tripTitle: Json, bookingDate: Json,
    totalAmount: real, userDetails: Details, isFixedDate: bool, paymentStatus: string)

  /** The outside effects of the flow, in the order they happen. */
  datatype Call =
    | PostBooking(payload: Payload)                                    // POST /bookings/book
    | LoadScript                                                       // inject the checkout script
    | CreateOrder(amount: real)                                        // POST /payments/create-order
    | OpenWidget(order: Order)                                         // open the checkout widget
    | PostVerify(proof: Proof, bookingDetails: Payload, userEmail: string) // POST /payments/verify
    | NavigateSuccess(bookingId: string)                               // go to /success

  /** An open checkout widget: its order, and the payload and contact fields its
      success handler captured when it was built. */
  datatype Widget = Widget(order: Order, payload: Payload, details: Details)

  /** `err.response?.data?.message || "Booking failed."` */
  function BookingErrorText(message: string): string
  {
    if message != "" then message else BookingFailed
  }

  /** The booking details sent for verification: the captured payload whose contact
      fields carry the user's e-mail instead of the payment method. */
  function VerifyDetails(w: Widget, email: string): Payload
  {
    w.payload.(userDetails := w.details["email" := email])
  }

  /** Every verification request comes right after the widget was opened, and that
      right after an order was created for the amount of the booking being verified. */
  predicate VerifyFollowsOrder(calls: seq<Call>)
  {
    forall i :: 0 <= i < |calls| && calls[i].PostVerify? ==>
      2 <= i && calls[i - 1].OpenWidget? && calls[i - 2] == CreateOrder(calls[i].bookingDetails.totalAmount)
  }

  /** Appending a call other than a verification keeps the ordering of the log. */
  lemma AppendKeepsOrder(calls: seq<Call>, c: Call)
    requires VerifyFollowsOrder(calls) && !c.PostVerify?
    ensures VerifyFollowsOrder(calls + [c])
  {
    var ext := calls + [c];
    forall i | 0 <= i < |ext| && ext[i].PostVerify?
      ensures 2 <= i && ext[i - 1].OpenWidget? && ext[i - 2] == CreateOrder(ext[i].bookingDetails.totalAmount)
    {
      assert i < |calls| && ext[i] == calls[i];
      assert ext[i - 1] == calls[i - 1] && ext[i - 2] == calls[i - 2];
    }
  }

  /** The field `key` of a profile record, "" when missing. */
  function Get(m: map<string, string>, key: string): string
  {
    if key in m then m[key] else ""
  }

  /** `a || b` on strings. */
  function OrElse(a: string, b: string): string
  {
    if a != "" then a else b
  }

  class BookingForm {
    const trip: Json
    const user: User
    var guests: int
    var scheduleValue: Json
    var paymentMethod: PaymentMethod
    var userDetails: Details
    var isPhoneValid: Option<bool>   // None is the initial `null`: never validated
    var submitting: bool
    var paymentProcessing: bool
    var showPaymentModal: bool
    var error: string
    var storage: map<string, Details> // the browser's local storage
    var calls: seq<Call>
    var widget: Option<Widget>
    var confirmed: Option<string>     // the booking id the page navigated to on success

    ghost predicate Valid()
      reads this
    {
      && (widget.Some? ==>
            && submitting && paymentProcessing && showPaymentModal && confirmed.None?
            && |calls| >= 2
            && calls[|calls| - 1] == OpenWidget(widget.value.order)
            && calls[|calls| - 2] == CreateOrder(widget.value.payload.totalAmount))
      && VerifyFollowsOrder(calls)
    }

    /** The total shown on the page, recomputed from the current guest count. */
    function Total(): real
      reads this
    {
      TotalAmount(PricePerPerson(trip), guests)
    }

    /** The payload `finalizeBooking` sends for the current form. */
    function BookingPayload(): (p: Payload)
      reads this
      ensures p.totalAmount == Total() && p.seats == guests && p.bookingDate == scheduleValue
      ensures p.userDetails == userDetails["paymentMethod" := MethodName(paymentMethod)]
      ensures p.isFixedDate == Truthy(Field(trip, "fixedDate")) && p.paymentStatus == "pending"
      ensures p.tripId == Or(Field(trip, "_id"), Field(trip, "id")) && p.userId == user.uid
      ensures p.tripTitle == Field(trip, "title")
    {
      Payload(Or(Field(trip, "_id"), Field(trip, "id")), user.uid, guests, Field(trip, "title"),
              scheduleValue, Total(), userDetails["paymentMethod" := MethodName(paymentMethod)],
              Truthy(Field(trip, "fixedDate")), "pending")
    }

    /** The page once its trip and the user's profile have been fetched: the schedule
        comes from the trip, and the contact fields from the saved draft if there is
        one, else from the profile; a phone found there is validated. */
    constructor Load(trip: Json, user: User, profile: map<string, string>, storage: map<string, Details>)
      ensures Valid()
      ensures this.trip == trip && this.user == user && this.storage == storage
      ensures guests == 1 && paymentMethod == PayOnArrival && scheduleValue == ScheduleValue(trip)
      ensures !submitting && !paymentProcessing && !showPaymentModal && error == ""
      ensures calls == [] && widget == None && confirmed == None
      ensures DraftKey in storage ==> userDetails == storage[DraftKey]
      ensures DraftKey !in storage ==> userDetails == map[
        "fullName" := OrElse(Get(profile, "fullName"), user.displayName),
        "phone" := Get(profile, "phone"),
        "address" := Get(profile, "address"),
        "aadharNo" := Get(profile, "aadharNo")]
      ensures Get(userDetails, "phone") != "" ==> isPhoneValid == Some(ValidatePhone(userDetails["phone"]))
      ensures Get(userDetails, "phone") == "" ==> isPhoneValid == None
    {
      this.trip := trip;
      this.user := user;
      this.storage := storage;
      guests := 1;
      paymentMethod := PayOnArrival;
      submitting, paymentProcessing, showPaymentModal := false, false, false;
      error := "";
      calls, widget, confirmed := [], None, None;
      scheduleValue := ScheduleValue(trip);
      var details: Details;
      if DraftKey in storage {
        details := storage[DraftKey];
      } else {
        details := map[
          "fullName" := OrElse(Get(profile, "fullName"), user.displayName),
          "phone" := Get(profile, "phone"),
          "address" := Get(profile, "address"),
          "aadharNo" := Get(profile, "aadharNo")];
      }
      userDetails := details;
      var phone := Get(details, "phone");
      isPhoneValid := if phone != "" then Some(ValidatePhone(phone)) else None;
    }

    /** The guest-count input. */
    method SetGuests(n: int)
      modifies this`guests
      ensures guests == n
    {
      guests := n;
    }

    /** The payment-method radio buttons. */
    method SetPaymentMethod(m: PaymentMethod)
      modifies this`paymentMethod
      ensures paymentMethod == m
    {
      paymentMethod := m;
    }

    /** `handleUserChange`: one contact field changes, the whole updated draft is
        saved under "bookingDraft", and only a phone edit re-validates. */
    method HandleUserChange(name: string, value: string)
      requires Valid()
      modifies this`userDetails, this`storage, this`isPhoneValid
      ensures Valid()
      ensures userDetails == old(userDetails)[name := value]
      ensures storage == old(storage)[DraftKey := userDetails]
      ensures isPhoneValid == if name == "phone" then Some(ValidatePhone(value)) else old(isPhoneValid)
    {
      var updated := userDetails[name := value];
      userDetails := updated;
      storage := storage[DraftKey := updated];
      if name == "phone" {
        isPhoneValid := Some(ValidatePhone(value));
      }
    }

    /** `handleInitialSubmit` followed by `finalizeBooking` up to the point where the
        flow waits on the user: the outcome of each request it makes is a parameter.
        The submit button is disabled while submitting, and the browser only submits
        a guest count in 1..12 with the required name, phone and address filled in. */
    method Submit(bookRes: Net<string>, scriptLoaded: bool, orderRes: Net<Order>)
      requires Valid() && !submitting && confirmed.None?
      requires 1 <= guests <= 12
      requires Get(userDetails, "fullName") != "" && Get(userDetails, "phone") != "" && Get(userDetails, "address") != ""
      modifies this`error, this`showPaymentModal, this`submitting, this`paymentProcessing
      modifies this`storage, this`calls, this`widget, this`confirmed
      ensures Valid()
      // a phone that is invalid, or was never validated, blocks every request
      ensures old(isPhoneValid) != Some(true) ==>
        && error == PhoneError && calls == old(calls) && storage == old(storage)
        && submitting == old(submitting) && paymentProcessing == old(paymentProcessing)
        && showPaymentModal == old(showPaymentModal) && widget == None && confirmed == None
      // pay on arrival: exactly one booking request, nothing of the payment path
      ensures old(isPhoneValid) == Some(true) && paymentMethod == PayOnArrival ==>
        && calls == old(calls) + [PostBooking(BookingPayload())]
                   + (if bookRes.Ok? then [NavigateSuccess(bookRes.value)] else [])
        && storage == (if bookRes.Ok? then old(storage) - {DraftKey} else old(storage))
        && error == (if bookRes.Ok? then "" else BookingErrorText(bookRes.message))
        && confirmed == (if bookRes.Ok? then Some(bookRes.value) else None)
        && !submitting && paymentProcessing == old(paymentProcessing)
        && showPaymentModal == old(showPaymentModal) && widget == None
      // online payment: script, then an order for the total, then the widget
      ensures old(isPhoneValid) == Some(true) && paymentMethod != PayOnArrival ==>
        && calls == old(calls) + [LoadScript]
                   + (if scriptLoaded then [CreateOrder(Total())] else [])
                   + (if scriptLoaded && orderRes.Ok? then [OpenWidget(orderRes.value)] else [])
        && storage == old(storage) && confirmed == None
        && (scriptLoaded && orderRes.Ok? ==>
              && widget == Some(Widget(orderRes.value, BookingPayload(), userDetails))
              && submitting && paymentProcessing && showPaymentModal && error == "")
        && (!(scriptLoaded && orderRes.Ok?) ==>
              && widget == None && error == InitiationFailed
              && !submitting && !paymentProcessing && !showPaymentModal)
    {
      error := "";
      if isPhoneValid != Some(true) {
        error := PhoneError;
        return;
      }
      if paymentMethod != PayOnArrival {
        showPaymentModal := true;
      }
      FinalizeBooking(bookRes, scriptLoaded, orderRes);
    }

    /** `finalizeBooking`: the booking request, or the start of the online payment. */
    method FinalizeBooking(bookRes: Net<string>, scriptLoaded: bool, orderRes: Net<Order>)
      requires Valid() && !submitting && confirmed.None?
      requires paymentMethod != PayOnArrival ==> showPaymentModal
      modifies this`error, this`submitting, this`paymentProcessing, this`showPaymentModal
      modifies this`storage, this`calls, this`widget, this`confirmed
      ensures Valid()
      ensures paymentMethod == PayOnArrival ==>
        && calls == old(calls) + [PostBooking(BookingPayload())]
                   + (if bookRes.Ok? then [NavigateSuccess(bookRes.value)] else [])
        && storage == (if bookRes.Ok? then old(storage) - {DraftKey} else old(storage))
        && error == (if bookRes.Ok? then old(error) else BookingErrorText(bookRes.message))
        && confirmed == (if bookRes.Ok? then Some(bookRes.value) else None)
        && !submitting && paymentProcessing == old(paymentProcessing)
        && showPaymentModal == old(showPaymentModal) && widget == None
      ensures paymentMethod != PayOnArrival ==>
        && calls == old(calls) + [LoadScript]
                   + (if scriptLoaded then [CreateOrder(Total())] else [])
                   + (if scriptLoaded && orderRes.Ok? then [OpenWidget(orderRes.value)] else [])
        && storage == old(storage) && confirmed == None
        && (scriptLoaded && orderRes.Ok? ==>
              && widget == Some(Widget(orderRes.value, BookingPayload(), userDetails))
              && submitting && paymentProcessing && showPaymentModal && error == old(error))
        && (!(scriptLoaded && orderRes.Ok?) ==>
              && widget == None && error == InitiationFailed
              && !submitting && !paymentProcessing && !showPaymentModal)
    {
      submitting := true;
      var payload := BookingPayload();
      if paymentMethod == PayOnArrival {
        BookOnArrival(payload, bookRes);
      } else {
        StartOnlinePayment(payload, scriptLoaded, orderRes);
      }
    }

    /** The pay-on-arrival branch of `finalizeBooking`: one booking request; on
        success the draft is dropped and the page moves to the confirmation, on
        failure the server's message (or a generic one) is shown. Submitting ends
        either way. */
    method BookOnArrival(payload: Payload, bookRes: Net<string>)
      requires Valid() && widget.None? && confirmed.None? && submitting
      modifies this`error, this`submitting, this`storage, this`calls, this`confirmed
      ensures Valid()
      ensures calls == old(calls) + [PostBooking(payload)]
                       + (if bookRes.Ok? then [NavigateSuccess(bookRes.value)] else [])
      ensures storage == (if bookRes.Ok? then old(storage) - {DraftKey} else old(storage))
      ensures error == (if bookRes.Ok? then old(error) else BookingErrorText(bookRes.message))
      ensures confirmed == (if bookRes.Ok? then Some(bookRes.value) else None)
      ensures !submitting && widget == None
    {
      AppendKeepsOrder(calls, PostBooking(payload));
      calls := calls + [PostBooking(payload)];
      match bookRes {
        case Ok(id) =>
          storage := storage - {DraftKey};
          AppendKeepsOrder(calls, NavigateSuccess(id));
          calls := calls + [NavigateSuccess(id)];
          confirmed := Some(id);
        case Err(message) =>
          error := BookingErrorText(message);
      }
      submitting := false;
    }

    /** The online branch of `finalizeBooking`: load the checkout script, create an
        order for the total, and open the widget on it; a failure of either request
        ends the attempt with the initiation error. */
    method StartOnlinePayment(payload: Payload, scriptLoaded: bool, orderRes: Net<Order>)
      requires Valid() && widget.None? && confirmed.None? && submitting && showPaymentModal
      requires payload == BookingPayload()
      modifies this`error, this`submitting, this`paymentProcessing, this`showPaymentModal
      modifies this`calls, this`widget
      ensures Valid()
      ensures calls == old(calls) + [LoadScript]
                       + (if scriptLoaded then [CreateOrder(payload.totalAmount)] else [])
                       + (if scriptLoaded && orderRes.Ok? then [OpenWidget(orderRes.value)] else [])
      ensures scriptLoaded && orderRes.Ok? ==>
        && widget == Some(Widget(orderRes.value, payload, userDetails))
        && submitting && paymentProcessing && showPaymentModal && error == old(error)
      ensures !(scriptLoaded && orderRes.Ok?) ==>
        && widget == None && error == InitiationFailed
        && !submitting && !paymentProcessing && !showPaymentModal
    {
      paymentProcessing := true;
      AppendKeepsOrder(calls, LoadScript);
      calls := calls + [LoadScript];
      if !scriptLoaded {
        error := InitiationFailed;
        submitting, paymentProcessing, showPaymentModal := false, false, false;
        return;
      }
      AppendKeepsOrder(calls, CreateOrder(payload.totalAmount));
      calls := calls + [CreateOrder(payload.totalAmount)];
      match orderRes {
        case Err(_) =>
          error := InitiationFailed;
          submitting, paymentProcessing, showPaymentModal := false, false, false;
        case Ok(order) =>
          AppendKeepsOrder(calls, OpenWidget(order));
          calls := calls + [OpenWidget(order)];
          widget := Some(Widget(order, payload, userDetails));
      }
    }

    /** The widget's success handler. It exists only while a widget is open; it
        forwards the proof for verification and finishes the booking only when the
        verification reports success. */
    method OnPaymentSuccess(proof: Proof, verifyRes: Net<VerifyReply>)
      requires Valid()
      modifies this`error, this`showPaymentModal, this`submitting, this`paymentProcessing
      modifies this`storage, this`calls, this`widget, this`confirmed
      ensures Valid()
      ensures old(widget).None? ==>
        && calls == old(calls) && storage == old(storage) && error == old(error)
        && submitting == old(submitting) && paymentProcessing == old(paymentProcessing)
        && showPaymentModal == old(showPaymentModal) && confirmed == old(confirmed) && widget == None
      ensures old(widget).Some? ==>
        var verified := verifyRes.Ok? && verifyRes.value.success;
        && widget == None
        && calls == old(calls) + [PostVerify(proof, VerifyDetails(old(widget).value, user.email), user.email)]
                   + (if verified then [NavigateSuccess(verifyRes.value.bookingId)] else [])
        && storage == (if verified then old(storage) - {DraftKey} else old(storage))
        && confirmed == (if verified then Some(verifyRes.value.bookingId) else None)
        && showPaymentModal == !verified
        && error == (if verifyRes.Err? then VerificationFailed else old(error))
        && submitting == !verifyRes.Err? && paymentProcessing == !verifyRes.Err?
    {
      if widget.None? {
        return;
      }
      var w := widget.value;
      widget := None;
      calls := calls + [PostVerify(proof, VerifyDetails(w, user.email), user.email)];
      match verifyRes {
        case Ok(reply) =>
          if reply.success {
            storage := storage - {DraftKey};
            showPaymentModal := false;
            calls := calls + [NavigateSuccess(reply.bookingId)];
            confirmed := Some(reply.bookingId);
          }
        case Err(_) =>
          error := VerificationFailed;
          paymentProcessing := false;
          submitting := false;
      }
    }

    /** The widget's `ondismiss` callback: the form becomes submittable again and
        nothing is requested or removed. */
    method OnDismiss()
      requires Valid()
      modifies this`showPaymentModal, this`submitting, this`paymentProcessing, this`widget
      ensures Valid()
      ensures old(widget).Some? ==> !submitting && !paymentProcessing && !showPaymentModal
      ensures old(widget).None? ==>
        submitting == old(submitting) && paymentProcessing == old(paymentProcessing)
        && showPaymentModal == old(showPaymentModal)
      ensures widget == None
    {
      if widget.Some? {
        paymentProcessing, submitting, showPaymentModal := false, false, false;
        widget := None;
      }
    }
  }

  /** A saved profile with the name and address the form requires, but no phone. */
  const Traveller := map["fullName" := "Asha Rao", "address" := "12 MG Road, Pune"]

  /** Submitting "98765abcde" is blocked with the phone error and no request. */
  method InvalidPhoneScenario(trip: Json, user: User) returns (calls: seq<Call>, error: string)
    ensures calls == [] && error == PhoneError
  {
    var form := new BookingForm.Load(trip, user, Traveller, map[]);
    form.HandleUserChange("phone", "98765abcde");
    PhoneExamples();
    form.Submit(Ok("b1"), true, Ok(Order("o1", 0.0, "INR")));
    calls, error := form.calls, form.error;
  }

  /** An online payment that is verified removes the draft and ends on the success
      page, after exactly one order for the total and one verification. */
  method OnlinePaymentScenario(trip: Json, user: User, proof: Proof, order: Order)
    returns (calls: seq<Call>, draftKept: bool)
    ensures |calls| == 5 && calls[0] == LoadScript && calls[1].CreateOrder? && calls[2] == OpenWidget(order)
    ensures calls[3].PostVerify? && calls[4] == NavigateSuccess("b7")
    ensures !draftKept
  {
    var form := new BookingForm.Load(trip, user, Traveller, map[]);
    PhoneExamples();
    form.HandleUserChange("phone", "9876543210");
    assert form.isPhoneValid == Some(true);
    form.SetPaymentMethod(Upi);
    form.Submit(Ok("unused"), true, Ok(order));
    assert form.calls == [LoadScript, CreateOrder(form.Total()), OpenWidget(order)];
    assert form.widget.Some? && DraftKey in form.storage;
    form.OnPaymentSuccess(proof, Ok(VerifyReply(true, "b7")));
    calls, draftKept := form.calls, DraftKey in form.storage;
  }
}
