/** The fields printed on the downloadable pass (src/utils/generateTicket.js):
    each is the first usable one of several field names of the booking record, and
    the file is named after a short reference taken from the booking's id. */
module Ticket {
  import opened JsValues
  import opened Text

  /** The travel date printed: "TBA", or the locale rendering of the raw value. */
  datatype TicketDate = Tba | Formatted(raw: Json)

  /** Everything the pass prints that is computed from the booking. */
  datatype Fields = Fields(name: Json, title: Json, date: TicketDate, seats: Json, reference: string)

  /** The traveller: `userDetails.fullName`, `name`, `userName`, `userEmail`,
      else "Guest Explorer". */
  function Name(booking: Json): (r: Json)
    ensures Truthy(r)
    ensures r == Str("Guest Explorer")
         || r in [Field(Field(booking, "userDetails"), "fullName"), Field(booking, "name"),
                  Field(booking, "userName"), Field(booking, "userEmail")]
  {
    FirstTruthyTruthy([Field(Field(booking, "userDetails"), "fullName"), Field(booking, "name"),
                       Field(booking, "userName"), Field(booking, "userEmail")], Str("Guest Explorer"));
    FirstTruthy([Field(Field(booking, "userDetails"), "fullName"), Field(booking, "name"),
                 Field(booking, "userName"), Field(booking, "userEmail")], Str("Guest Explorer"))
  }

  /** The trip: `tripTitle`, `title`, `trip.title`, else "Unknown Mission". */
  function Title(booking: Json): (r: Json)
    ensures Truthy(r)
    ensures r == Str("Unknown Mission")
         || r in [Field(booking, "tripTitle"), Field(booking, "title"), Field(Field(booking, "trip"), "title")]
  {
    FirstTruthyTruthy([Field(booking, "tripTitle"), Field(booking, "title"), Field(Field(booking, "trip"), "title")],
                      Str("Unknown Mission"));
    FirstTruthy([Field(booking, "tripTitle"), Field(booking, "title"), Field(Field(booking, "trip"), "title")],
                Str("Unknown Mission"))
  }

  /** The date: the first set of `bookingDate`, `date`, `startDate`, else "TBA". */
  function Date(booking: Json): (r: TicketDate)
    ensures r.Tba? <==>
      !Truthy(Field(booking, "bookingDate")) && !Truthy(Field(booking, "date")) && !Truthy(Field(booking, "startDate"))
    ensures r.Formatted? ==>
      Truthy(r.raw) && r.raw in [Field(booking, "bookingDate"), Field(booking, "date"), Field(booking, "startDate")]
    ensures Truthy(Field(booking, "bookingDate")) ==> r == Formatted(Field(booking, "bookingDate"))
  {
    FirstTruthyOfThree(Field(booking, "bookingDate"), Field(booking, "date"), Field(booking, "startDate"));
    var raw := FirstTruthy([Field(booking, "bookingDate"), Field(booking, "date")], Field(booking, "startDate"));
    if Truthy(raw) then Formatted(raw) else Tba
  }

  /** The seats: `seats`, `guests`, `passengers`, else "1". */
  function Seats(booking: Json): (r: Json)
    ensures Truthy(r)
    ensures r == Str("1") || r in [Field(booking, "seats"), Field(booking, "guests"), Field(booking, "passengers")]
  {
    FirstTruthyTruthy([Field(booking, "seats"), Field(booking, "guests"), Field(booking, "passengers")], Str("1"));
    FirstTruthy([Field(booking, "seats"), Field(booking, "guests"), Field(booking, "passengers")], Str("1"))
  }

  /** The reference: the last six characters of `id` or `paymentId` (else
      "000000"), upper-cased. A value without string methods throws. */
  function ReferenceId(booking: Json): (r: Eval<string>)
    ensures r.Value? ==> |r.value| <= 6 && forall i :: 0 <= i < |r.value| ==> !('a' <= r.value[i] <= 'z')
    ensures !Truthy(Field(booking, "id")) && !Truthy(Field(booking, "paymentId")) ==> r == Value("000000")
  {
    var source := FirstTruthy([Field(booking, "id")], Or(Field(booking, "paymentId"), Str("000000")));
    var fallback := Or(Field(booking, "paymentId"), Str("000000"));
    assert [Field(booking, "id")][1..] == [] && FirstTruthy([], fallback) == fallback;
    assert source == Or(Field(booking, "id"), fallback);
    assert TakeLast("000000", 6) == "000000" && Upper("000000") == "000000";
    if source.Str? then Value(Upper(TakeLast(source.s, 6))) else TypeError
  }

  /** The name of the saved file. */
  function FileName(reference: string): (r: string)
    ensures |r| == |reference| + 17
    ensures r[..13] == "Mission-Pass-" && r[|r| - 4..] == ".pdf"
  {
    "Mission-Pass-" + reference + ".pdf"
  }

  /** All the printed fields; reading a field of a missing booking throws, and so
      does a reference taken from a value that is not a string. */
  function Extract(booking: Json): (r: Eval<Fields>)
    ensures r.TypeError? <==> IsNullish(booking) || ReferenceId(booking).TypeError?
  {
    if IsNullish(booking) then TypeError
    else match ReferenceId(booking)
      case TypeError => TypeError
      case Value(reference) => Value(Fields(Name(booking), Title(booking), Date(booking), Seats(booking), reference))
  }

  /** Every field the pass prints is set, in the order of the field names: a
      later field, or the default, is printed only when every earlier one is unset. */
  lemma FieldsAlwaysSet(booking: Json)
    requires Extract(booking).Value?
    ensures var f := Extract(booking).value;
      Truthy(f.name) && Truthy(f.title) && Truthy(f.seats) && (f.date.Formatted? ==> Truthy(f.date.raw))
    ensures var titles := [Field(booking, "tripTitle"), Field(booking, "title"), Field(Field(booking, "trip"), "title")];
      && (forall k :: 0 <= k < 3 && Truthy(titles[k]) && (forall i :: 0 <= i < k ==> !Truthy(titles[i])) ==>
            Title(booking) == titles[k])
      && ((forall i :: 0 <= i < 3 ==> !Truthy(titles[i])) ==> Title(booking) == Str("Unknown Mission"))
    ensures var seats := [Field(booking, "seats"), Field(booking, "guests"), Field(booking, "passengers")];
      && (forall k :: 0 <= k < 3 && Truthy(seats[k]) && (forall i :: 0 <= i < k ==> !Truthy(seats[i])) ==>
            Seats(booking) == seats[k])
      && ((forall i :: 0 <= i < 3 ==> !Truthy(seats[i])) ==> Seats(booking) == Str("1"))
    ensures var names := [Field(Field(booking, "userDetails"), "fullName"), Field(booking, "name"),
                          Field(booking, "userName"), Field(booking, "userEmail")];
      forall k :: 0 <= k < 4 && Truthy(names[k]) && (forall i :: 0 <= i < k ==> !Truthy(names[i])) ==>
        Name(booking) == names[k]
  {
    FirstTruthyIsFirst([Field(Field(booking, "userDetails"), "fullName"), Field(booking, "name"),
                        Field(booking, "userName"), Field(booking, "userEmail")], Str("Guest Explorer"));
    FirstTruthyIsFirst([Field(booking, "tripTitle"), Field(booking, "title"), Field(Field(booking, "trip"), "title")],
                       Str("Unknown Mission"));
    FirstTruthyIsFirst([Field(booking, "seats"), Field(booking, "guests"), Field(booking, "passengers")], Str("1"));
  }

  /** The name prefers the profile's full name over every other field. */
  lemma FullNameWins(booking: Json)
    requires Truthy(Field(Field(booking, "userDetails"), "fullName"))
    ensures Name(booking) == Field(Field(booking, "userDetails"), "fullName")
  {
  }

  /** The reference has at most six characters, exactly six when the source has
      that many, holds no lower-case letter, and is the upper-cased tail of the id
      (or of the payment id); a booking with neither gets "000000". */
  lemma ReferenceIdSpec(booking: Json)
    requires ReferenceId(booking).Value?
    ensures var source := FirstTruthy([Field(booking, "id")], Or(Field(booking, "paymentId"), Str("000000")));
      && source.Str?
      && |ReferenceId(booking).value| == (if |source.s| < 6 then |source.s| else 6)
      && ReferenceId(booking).value == Upper(source.s[|source.s| - |ReferenceId(booking).value|..])
    ensures forall i :: 0 <= i < |ReferenceId(booking).value| ==> !('a' <= ReferenceId(booking).value[i] <= 'z')
    ensures !Truthy(Field(booking, "id")) && !Truthy(Field(booking, "paymentId")) ==>
      ReferenceId(booking).value == "000000"
  {
    var source := FirstTruthy([Field(booking, "id")], Or(Field(booking, "paymentId"), Str("000000")));
    UpperHasNoLowerLetter(TakeLast(source.s, 6));
  }

  /** A truthy id that is not a string (a number, say) makes the pass fail. */
  lemma NumericIdThrows(booking: Json, n: int)
    requires Field(booking, "id") == Num(n) && n != 0
    ensures ReferenceId(booking).TypeError? && Extract(booking).TypeError?
  {
  }

  /** The file name carries the reference between a fixed prefix and suffix, so
      different references give different file names. */
  lemma FileNameRecoversReference(reference: string)
    ensures |FileName(reference)| == |reference| + 17
    ensures FileName(reference)[13..|FileName(reference)| - 4] == reference
  {
    assert |"Mission-Pass-"| == 13;
  }
}
