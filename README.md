# DD Tours front end — a Dafny model

DD Tours and Travels is a single-page React site for booking guided
expeditions. This project models the parts of its front end that compute or
decide something:

- **Booking** (`booking.dfy`). The checkout form covers several steps:
  - loading the saved draft or the profile;
  - the Indian mobile-number check;
  - the price with a 3% tax;
  - the payload sent to the server;
  - the pay-on-arrival flow;
  - the online flow: script, order, payment widget, verification, dismissal.
- **Tour details** (`tour_details.dfy`). This covers:
  - the tolerant parsers for images, inclusions, places and itinerary, with their source priorities;
  - the "time left" text;
  - the closed-booking decision;
  - the carousel index.
- **All trips** (`all_trips.dfy`). This covers:
  - the card image;
  - the "days left" label;
  - the case-insensitive search filter;
  - the status badge precedence;
  - the first three place tags;
  - the five-star review row.
- **Countdown badge** (`booking_timer.dfy`): the interval that ticks until the deadline, and what the badge shows.
- **Ticket** (`ticket.dfy`): the fields printed on the PDF pass, with their fallback chains, the six-character reference and the file name.
- **Profile** (`profile.dfy`). This covers:
  - loading the profile and the bookings through `Promise.allSettled`;
  - editing the profile and saving it;
  - completeness;
  - the masked Aadhar number;
  - "Not Assigned" rows;
  - status badges;
  - shortened ids.
- **Rating dialog** (`rating_modal.dfy`): star choice and hover preview, and the submit flow with its toasts and callbacks.
- **Route guard** (`protected_route.dfy`) and **SEO head** (`seo.dfy`).

These rest on three support modules:

- `js_values.dfy` models JavaScript values (`Json`). It includes:
  - truthiness, `?.` reads, `||` chains and `String(v)`;
  - `Eval`, for an expression that may throw a `TypeError`.
- `text.dfy` models the string methods the pages use:
  - `trim`, `split` on one character, `join`, `includes`;
  - ASCII case mapping, `slice`, number rendering.
- `seqs.dfy` models `Array.prototype.filter` and subsequences.

Asynchronous handlers are split at their `await` points, and each request's
outcome is a parameter. The booking form logs its requests and navigation, the
profile page its update bodies and toasts, and the rating dialog its posts,
toasts and callbacks, each in a field of the page object. Clocks are parameters too: `now` is in milliseconds, and a
deadline is an optional millisecond timestamp. React state becomes the fields of
a class whose methods are the handlers.

## Model

| member | source | states |
|---|---|---|
| JsValues.FirstTruthyIsFirst | src/utils/generateTicket.js:15-20 | An `a \|\| b \|\| … \|\| d` chain yields the first truthy operand, after only falsy ones, or the last operand when none is truthy. |
| JsValues.FirstTruthyTruthy | src/utils/generateTicket.js:15-34 | A chain ending in a truthy default is always truthy, and is one of its operands. |
| JsValues.FirstTruthyOfThree | src/pages/TourDetails.jsx:60 | A three-operand chain equals the nested binary `\|\|`. |
| Text.TrimStartShape | src/pages/TourDetails.jsx:43 | `trimStart` removes a whitespace prefix, and what is left is empty or starts with non-whitespace. |
| Text.TrimEndShape | src/pages/TourDetails.jsx:43 | `trimEnd` removes a whitespace suffix, and what is left is empty or ends with non-whitespace. |
| Text.TrimShape | src/pages/TourDetails.jsx:43 | `trim` returns a contiguous slice of its input, with only whitespace cut on each side. |
| Text.TrimEmptyIffBlank | src/pages/TourDetails.jsx:87 | `line.trim().length > 0` holds exactly when the line has a non-whitespace character. |
| Text.TrimIdempotent | src/pages/TourDetails.jsx:66 | Trimming twice is trimming once. |
| Text.TrimKeepsAbsent | src/pages/TourDetails.jsx:64-66 | Trimming a piece never introduces a character it did not contain. |
| Text.Split | src/pages/TourDetails.jsx:65 | `split` on one character always yields at least one piece. |
| Text.SplitJoin | src/pages/TourDetails.jsx:65 | `split(c)` gives one more piece than there are `c`s, and no piece contains `c`. Joining with `c` restores the string. |
| Text.ContainsIffOccurs | src/pages/AllTrips.jsx:84 | `includes(t)` holds exactly when `t` occurs at some index. |
| Text.ContainsEmpty | src/pages/AllTrips.jsx:84 | Every string includes the empty string. |
| Text.LowerIdempotent | src/pages/AllTrips.jsx:79-82 | Lower-casing twice is lower-casing once, and the result has no letter `A`–`Z`. |
| Text.UpperHasNoLowerLetter | src/utils/generateTicket.js:39 | An upper-cased string contains no letter `a`–`z`. |
| Text.Take | src/pages/Profile.jsx:318 | `slice(0, n)` is the prefix of length `min(n, length)`. |
| Text.TakeLast | src/utils/generateTicket.js:38 | For n > 0, `slice(-n)` is the suffix of length `min(n, length)`. |
| Text.NatToString | src/pages/TourDetails.jsx:100-101 | A rendered number is never empty. |
| Text.NatToStringRoundTrip | src/pages/TourDetails.jsx:100-101 | A rendered number is all digits with no leading zero, and reading them back gives the number. |
| Seqs.Filter | src/pages/AllTrips.jsx:78 | `filter` never lengthens the array. |
| Seqs.FilterMembership | src/pages/AllTrips.jsx:78-86 | An element is in the filtered array exactly when it is in the input and satisfies the predicate. |
| Seqs.FilterAllSatisfy | src/pages/TourDetails.jsx:48 | Every element kept by `filter` satisfies the predicate. |
| Seqs.FilterIsSubsequence | src/pages/AllTrips.jsx:78-86 | `filter` keeps elements in their original order. |
| Seqs.FilterKeepsAll | src/pages/AllTrips.jsx:78-86 | When every element satisfies the predicate, `filter` returns the array unchanged. |
| Seqs.SubsequenceOfEmpty | src/pages/AllTrips.jsx:78 | The empty array is a subsequence of every array. |
| Seqs.SkipHead | src/pages/AllTrips.jsx:78 | A subsequence of an array's tail is a subsequence of the array. |
| Seqs.TailOfSubsequence | src/pages/AllTrips.jsx:78 | The tail of a subsequence is a subsequence. |
| Booking.MatchesRepeat | src/pages/Booking.jsx:117 | `\d{9}`-style repetition matches exactly when the first n characters lie in the class and the rest matches. |
| Booking.ValidatePhone | src/pages/Booking.jsx:116-119 | A phone number is valid exactly when it has ten characters, the first one of 6–9 and the other nine digits. |
| Booking.PricePerPerson | src/pages/Booking.jsx:129 | A numeric `price` is the price per person; a non-zero result is always the trip's price, and a missing or falsy price gives 0. |
| Booking.TotalAmount | src/pages/Booking.jsx:130-131 | The total is the base price times the guests plus 3% of it, i.e. `price × guests × 103 / 100`. |
| Booking.PhoneAcceptedIff | src/pages/Booking.jsx:116-119 | `/^[6-9]\d{9}$/` accepts a string exactly when it has ten characters, the first in 6–9 and the rest digits. |
| Booking.PhoneExamples | src/pages/Booking.jsx:117 | The pattern accepts "9876543210" and rejects "1234567890" and "98765abcde". |
| Booking.TotalIsBasePlusThreePercent | src/pages/Booking.jsx:129-131 | The total is price × guests × 1.03, and 0 without a trip. |
| Booking.TotalExample | src/pages/Booking.jsx:129-131 | 10000 per person for two guests totals 20600. |
| Booking.ScheduleValue | src/pages/Booking.jsx:82-88 | The schedule is the fixed date, else the expected month, else "TBA". It is never empty. |
| Booking.AppendKeepsOrder | src/pages/Booking.jsx:186-208 | Appending a request other than a verification keeps the rule: every verification follows an order for its amount and an open widget. |
| Booking.BookingForm.BookingPayload | src/pages/Booking.jsx:151-163 | The payload names the trip by `_id` (else `id`), its title and the signed-in user's uid, and carries the current total, the guests as seats, the schedule, the contact details with the payment method, the fixed-date flag and status "pending". |
| Booking.BookingForm.Load | src/pages/Booking.jsx:78-105 | A saved draft wins over the profile, and each profile field otherwise defaults to "". The phone is validated only when non-empty. The form starts with one guest and pay-on-arrival. |
| Booking.BookingForm.SetGuests | src/pages/Booking.jsx:348-355 | The guest input sets the guest count. |
| Booking.BookingForm.SetPaymentMethod | src/pages/Booking.jsx:427-455 | The radio buttons set the payment method. |
| Booking.BookingForm.HandleUserChange | src/pages/Booking.jsx:121-127 | One contact field changes and the whole draft is saved under "bookingDraft". Only a phone edit re-validates. |
| Booking.BookingForm.Submit | src/pages/Booking.jsx:133-145 | Submitting needs the name, phone and address filled in. A phone that is not valid blocks every request and sets the phone error. Otherwise the pay-on-arrival or online path runs, with its outcome stated for each request result. |
| Booking.BookingForm.FinalizeBooking | src/pages/Booking.jsx:147-178 | Submitting starts, and the payload is built once. Pay on arrival goes to the booking request, any other method to the online flow, with the outcome of each stated. |
| Booking.BookingForm.BookOnArrival | src/pages/Booking.jsx:165-177 | Pay on arrival posts the payload once. On success it removes the draft and navigates to the new booking. On failure it shows the server message or "Booking failed.". Submitting ends either way. |
| Booking.BookingForm.StartOnlinePayment | src/pages/Booking.jsx:180-196 | The script is loaded first, then an order for the total, then the widget opens. A failure at any step shows "Payment initiation failed." and resets the form. |
| Booking.BookingForm.OnPaymentSuccess | src/pages/Booking.jsx:197-221 | The proof is verified with the payload plus the user's email. Only `success: true` removes the draft and navigates. A request error sets "Payment verification failed." and clears submitting and processing; the payment overlay stays shown, as it does for `success: false`. |
| Booking.BookingForm.OnDismiss | src/pages/Booking.jsx:229-233 | Closing the widget makes the form submittable again and requests nothing. |
| Booking.InvalidPhoneScenario | src/pages/Booking.jsx:136-137 | With the name and address filled in from the profile, submitting "98765abcde" makes no request and shows the phone error. |
| Booking.OnlinePaymentScenario | src/pages/Booking.jsx:180-215 | With the name and address filled in from the profile and a valid phone, a successful online payment runs script, order, widget, verification and navigation, in that order, and removes the draft. |
| TourDetails.CleanImages | src/pages/TourDetails.jsx:41-48 | Every cleaned image entry is a non-empty string. |
| TourDetails.CleanImagesSpec | src/pages/TourDetails.jsx:41-48 | The cleaned list is the mapped entries that are non-empty strings, in their original order: an address is in it exactly when some raw entry maps to it. |
| TourDetails.ObjectEntryImage | src/pages/TourDetails.jsx:44-45 | An object entry gives its `url`, else its `secure_url`, else its `link`; with none of them set it gives nothing usable. |
| TourDetails.DefaultExactlyWhenNothingUsable | src/pages/TourDetails.jsx:50-54 | For a trip, the default image is shown exactly when no raw entry yields a usable address (or the only one is the default itself); otherwise the cleaned list is shown. |
| TourDetails.UsableStrings | src/pages/TourDetails.jsx:43-48 | For string entries, keeping the non-empty ones after wrapping equals wrapping after keeping the non-empty ones. |
| TourDetails.CommaImagesAreItems | src/pages/TourDetails.jsx:36-48 | A comma-separated image string gives its pieces trimmed, empty pieces dropped, in order. |
| TourDetails.ParseImages | src/pages/TourDetails.jsx:30-55 | The result is empty exactly for a falsy tour. Otherwise it is non-empty, and every entry is a non-empty string. |
| TourDetails.ImagesFieldWins | src/pages/TourDetails.jsx:33-34 | A non-empty `images` array decides the result, whatever other fields exist. |
| TourDetails.ImgFieldNext | src/pages/TourDetails.jsx:35 | Without a usable `images`, a non-empty `img` array decides. |
| TourDetails.StringSourceNext | src/pages/TourDetails.jsx:36-39 | Failing both arrays, the first string among `image`, `imageUrl` and `cover` is split on commas and decides: its trimmed non-empty pieces, or the default image when there are none. |
| TourDetails.NoImageSourceGivesDefault | src/pages/TourDetails.jsx:50-53 | A tour with none of the five image fields gets the single default image. |
| TourDetails.InclusionItemsSpec | src/pages/TourDetails.jsx:63-67 | A string of inclusions yields at most commas+1 items, in order. Each item is trimmed, non-empty and comma-free, and every non-blank part appears trimmed. |
| TourDetails.GetTourInclusions | src/pages/TourDetails.jsx:58-69 | For a trip, the chosen value is returned as is when it is an array, parsed into its trimmed non-empty comma pieces when it is a string, and gives none otherwise; a falsy trip gives none. |
| TourDetails.InclusionsSourcePriority | src/pages/TourDetails.jsx:58-68 | `includedItems` wins over `inclusions`, which wins over `features`. |
| TourDetails.GetPlacesCovered | src/pages/TourDetails.jsx:72-78 | An array of places is returned as is; a non-empty string gives one trimmed entry per comma piece, none dropped; any other value gives none. |
| TourDetails.PlacesFromString | src/pages/TourDetails.jsx:72-77 | A non-empty places string gives exactly commas+1 places, each the trimmed part. |
| TourDetails.GetItinerary | src/pages/TourDetails.jsx:81-91 | An array itinerary is returned as is; a string itinerary becomes one `{description}` day per non-blank line; a missing, falsy or other value gives none. |
| TourDetails.ItineraryLinesSpec | src/pages/TourDetails.jsx:85-88 | The kept lines are the non-blank lines, in order, with no newline inside. There are at most newlines+1 of them. |
| TourDetails.CalculateTimeLeft | src/pages/TourDetails.jsx:94-102 | There is a time-left text exactly when there is a deadline. |
| TourDetails.TimeLeftCases | src/pages/TourDetails.jsx:94-102 | No deadline gives null. A past deadline gives "EXPIRED" (if and only if). A day or more gives "N Days Left", with N whole days. Less than a day gives "H Hours Left". |
| TourDetails.BookingClosedIff | src/pages/TourDetails.jsx:173-177 | Booking is closed exactly when the deadline has passed or the status is "completed" or "ongoing". |
| TourDetails.NextSlide | src/pages/TourDetails.jsx:130-132 | With more than one image the next index stays in range, steps forward by one, and wraps to 0 after the last image. With one image or none the carousel does not move. |
| TourDetails.SlideAfterFirstRound | src/pages/TourDetails.jsx:129-136 | During the first round the t-th tick shows image t. |
| TourDetails.SlideAfterPeriodic | src/pages/TourDetails.jsx:129-136 | The carousel repeats every n ticks. |
| AllTrips.GetTourImage | src/pages/AllTrips.jsx:22-30 | The card image throws exactly when the tour is null or undefined. |
| AllTrips.TourImagePriority | src/pages/AllTrips.jsx:22-30 | The first entry of a non-empty `images` array gives its `url`; failing that, the first `img` entry gives its `url` or itself; then `image` gives its `url` or itself; then `imageUrl`. Each source is used only when the earlier ones are absent. |
| AllTrips.TourImageFallbacks | src/pages/AllTrips.jsx:22-30 | With no non-empty `images` or `img` array and no truthy `image` or `imageUrl`, the default URL is used. An `images` array whose first entry has no `url` yields `undefined`. |
| AllTrips.GetDaysLeft | src/pages/AllTrips.jsx:33-44 | There is a label exactly when there is a deadline; a passed deadline gives "Closed" and less than a day "Ends Today". |
| AllTrips.DaysLeftCases | src/pages/AllTrips.jsx:33-44 | No deadline gives null. A past deadline gives "Closed" (if and only if). Under a day gives "Ends Today" (if and only if). Otherwise the result is "N Days Left". |
| AllTrips.DaysLeftAgreesWithDetailPage | src/pages/AllTrips.jsx:33-44 | The card says "Closed" exactly when the detail page says "EXPIRED". With a day or more left both show the same "N Days Left". |
| AllTrips.FilterTours | src/pages/AllTrips.jsx:78-86 | The filter throws exactly when the callback throws on some tour, and otherwise never lengthens the list. |
| AllTrips.FilterToursSpec | src/pages/AllTrips.jsx:78-86 | The search keeps tours in order. It keeps exactly those whose lower-cased title, location or space-joined places include the lower-cased term. |
| AllTrips.EmptySearchKeepsAll | src/pages/AllTrips.jsx:78-86 | An empty search term keeps every tour. |
| AllTrips.MissingFieldsMatchOnlyEmpty | src/pages/AllTrips.jsx:80-84 | A tour without title, location and places matches only the empty term. |
| AllTrips.NullishTourThrows | src/pages/AllTrips.jsx:78-80 | A null or undefined entry in the list makes the whole filter throw. |
| AllTrips.StatusBadge | src/pages/AllTrips.jsx:237-253 | "Completed" shows exactly for status "completed" and "Ongoing" exactly for "ongoing"; a days-left badge carries the label, never "Closed" or empty; an ends-in badge carries a truthy `bookingEndsIn`, and no badge means it is falsy. |
| AllTrips.BadgePrecedence | src/pages/AllTrips.jsx:237-253 | "Completed" beats "Ongoing", which beats the days-left label (unless it is "Closed"), which beats `bookingEndsIn`. Otherwise no badge is shown. |
| AllTrips.PlaceTags | src/pages/AllTrips.jsx:288 | At most three place tags are shown. For an array they are its first `min(3, length)` places, a missing value gives none, and any other value (a string, say) throws. |
| AllTrips.StarRow | src/pages/AllTrips.jsx:369-379 | There are five stars, the lit ones first; with no rating none is lit. |
| AllTrips.FilledPrefix | src/pages/AllTrips.jsx:369-379 | The number of lit stars is the rating clamped to the row. |
| AllTrips.StarRowSpec | src/pages/AllTrips.jsx:369-379 | Five stars, where star i is lit exactly when i < rating. The lit stars form a prefix, and their count is the rating clamped to 0..5. |
| BookingTimer.Decompose | src/components/BookingTimer.jsx:19-23 | Hours are under 24 and minutes under 60. Days, hours and minutes bound the distance from below, to within a minute. |
| BookingTimer.RemainderOfHour | src/components/BookingTimer.jsx:23 | Any split of a distance into whole hours and a remainder under an hour gives the remainder that `distance % (1000 * 60 * 60)` computes. |
| BookingTimer.HourWithinDay | src/components/BookingTimer.jsx:21-23 | The remainder modulo an hour is the same taken from the distance or from its remainder modulo a day. |
| BookingTimer.Format | src/components/BookingTimer.jsx:25 | The countdown text has at least eight characters and ends in "m". |
| BookingTimer.FormatIsNotExpired | src/components/BookingTimer.jsx:25 | The "Nd Nh Nm" text ends in "m", so it is never the expiry marker. |
| BookingTimer.Timer.Mount | src/components/BookingTimer.jsx:5-10 | The time left starts unset, and the interval runs only when a deadline is given. |
| BookingTimer.Timer.Tick | src/components/BookingTimer.jsx:10-27 | A past deadline records "EXPIRED" and stops the interval. Otherwise the tick records the formatted countdown, and it records "EXPIRED" exactly when the detail page would. |
| BookingTimer.Timer.Unmount | src/components/BookingTimer.jsx:29 | Unmounting clears the interval. |
| BookingTimer.Timer.Render | src/components/BookingTimer.jsx:32-46 | Nothing without a deadline. "Booking Closed" exactly once expired. Otherwise "Closing in", only while the interval runs. |
| BookingTimer.ExpiryScenario | src/components/BookingTimer.jsx:10-46 | A tick before the deadline shows "1d 1h 1m". A tick after it shows "Booking Closed" and stops the interval. |
| Ticket.Name | src/utils/generateTicket.js:15-20 | The name printed is truthy: "Guest Explorer" or one of the fields consulted. |
| Ticket.Title | src/utils/generateTicket.js:23-27 | The title printed is truthy: "Unknown Mission" or one of the fields consulted. |
| Ticket.Date | src/utils/generateTicket.js:30-31 | The date is "TBA" exactly when `bookingDate`, `date` and `startDate` are all falsy; otherwise it formats a truthy one of them, `bookingDate` first. |
| Ticket.Seats | src/utils/generateTicket.js:34 | The seats printed are truthy: "1" or one of the fields consulted. |
| Ticket.ReferenceId | src/utils/generateTicket.js:37-39 | A reference has at most six characters and no lower-case letter; a booking with neither `id` nor `paymentId` gets "000000". |
| Ticket.FileName | src/utils/generateTicket.js:123 | The file name starts with "Mission-Pass-", ends with ".pdf", and is 17 characters longer than the reference. |
| Ticket.Extract | src/utils/generateTicket.js:15-39 | Producing the pass throws exactly when the booking is null or undefined, or when its reference source is not a string. |
| Ticket.FieldsAlwaysSet | src/utils/generateTicket.js:15-34 | Every printed field is set. Name, title and seats take the first truthy field in their order, and title and seats take their default only when every field is falsy. |
| Ticket.FullNameWins | src/utils/generateTicket.js:15-16 | The profile's full name takes precedence over every other name field. |
| Ticket.ReferenceIdSpec | src/utils/generateTicket.js:37-39 | The reference is the upper-cased last six characters of `id` (else `paymentId`, else "000000"). It has no lower-case letter. |
| Ticket.NumericIdThrows | src/utils/generateTicket.js:37-39 | A non-zero numeric id has no `slice`, so generating the pass throws. |
| Ticket.FileNameRecoversReference | src/utils/generateTicket.js:123 | The file name is "Mission-Pass-", the reference, then ".pdf". The reference can be read back from it. |
| Profile.IsProfileComplete | src/pages/Profile.jsx:129 | The profile is complete exactly when `phone` and `aadharNo` are both truthy. |
| Profile.AadharDisplay | src/pages/Profile.jsx:262-268 | The masked value throws exactly for a truthy number that is neither a string nor an array. |
| Profile.DetailRow | src/pages/Profile.jsx:471-487 | A row shows "Not Assigned" exactly for a falsy value, and the value itself otherwise. |
| Profile.AadharRowSpec | src/pages/Profile.jsx:262-268 | The Aadhar row is "Not Assigned" exactly without a number. Otherwise it shows "XXXX-XXXX-" and at most the last four characters. |
| Profile.CompleteIffBothRowsShown | src/pages/Profile.jsx:129 | The profile is complete exactly when both the phone row and the Aadhar row show a value. |
| Profile.StatusBadge | src/pages/Profile.jsx:501-521 | The confirmed style shows exactly for the key "confirmed" and the cancelled style exactly for "cancelled"; a missing status gets the pending style. |
| Profile.StatusBadgeFallback | src/pages/Profile.jsx:501-521 | "confirmed" and "cancelled" get their own badge. Every other string, and a missing status, gets the pending badge. |
| Profile.DownloadOnlyWhenConfirmed | src/pages/Profile.jsx:345 | The download button appears only beside a confirmed badge. |
| Profile.ShortId | src/pages/Profile.jsx:318 | A displayed booking id has at most eight characters. |
| Profile.UidDisplay | src/pages/Profile.jsx:189 | The header id throws only for a uid that is neither missing, a string nor an array; a shown string is "UNREGISTERED" or at most eight characters, and a missing or empty uid shows "UNREGISTERED". |
| Profile.DisplayedIdsTruncated | src/pages/Profile.jsx:189 | The header shows the first eight characters of the uid, or "UNREGISTERED" when it is missing or empty. |
| Profile.ProfilePage.Mount | src/pages/Profile.jsx:25-38 | The page starts loading, with no profile, no bookings and an empty five-field form. |
| Profile.ProfilePage.FetchUserData | src/pages/Profile.jsx:45-70 | A fulfilled, truthy profile replaces profile and form. A fulfilled array replaces the bookings. A rejection leaves each unchanged. Loading ends. |
| Profile.ProfilePage.SetEditing | src/pages/Profile.jsx:213 | The editor opens or closes. |
| Profile.ProfilePage.EditField | src/pages/Profile.jsx:407-443 | Typing sets one form field and keeps the others. |
| Profile.ProfilePage.HandleSubmit | src/pages/Profile.jsx:103-115 | The form is sent as the update body. A saved reply replaces the profile and closes the editor. A failure changes neither. A loading toast precedes the result toast. |
| Profile.LoadThenFailedSaveScenario | src/pages/Profile.jsx:45-115 | A complete profile loaded with rejected bookings shows no bookings. It stays complete after a failed save. |
| RatingModal.LitStarsArePrefix | src/components/RatingModal.jsx:79-94 | The lit stars form a prefix. With no hover and no rating, none is lit. |
| RatingModal.Dialog.Open | src/components/RatingModal.jsx:7-11 | The dialog opens with no rating, no hover, an empty comment and an enabled button. |
| RatingModal.Dialog.ClickStar | src/components/RatingModal.jsx:83 | Clicking a star chooses it. |
| RatingModal.Dialog.HoverStar | src/components/RatingModal.jsx:84 | Pointing at a star previews it. |
| RatingModal.Dialog.LeaveStar | src/components/RatingModal.jsx:85 | Leaving a star clears the preview. |
| RatingModal.Dialog.EditComment | src/components/RatingModal.jsx:102 | Typing sets the comment. |
| RatingModal.Dialog.BeginSubmit | src/components/RatingModal.jsx:13-22 | Without a rating only an error toast appears. Otherwise the dialog starts loading and posts trip, rating and comment. |
| RatingModal.Dialog.FinishSubmit | src/components/RatingModal.jsx:23-31 | Success toasts, calls `onSuccess` if given, then `onClose`. Failure toasts an error. Loading ends either way. |
| RatingModal.RenderDialog | src/components/RatingModal.jsx:34-111 | A closed dialog renders nothing. An open one shows five stars lit by the hover or rating rule, and the button is disabled exactly while loading. |
| RatingModal.SubmitScenario | src/components/RatingModal.jsx:13-31 | Submitting without a rating posts nothing. After choosing four stars the review is posted, then toasted and closed. |
| ProtectedRoute.Guard | src/components/ProtectedRoute.jsx:4-19 | The page is shown exactly when loading is done and a user is signed in; any redirect goes to "/login", replacing history, and only without a user. |
| ProtectedRoute.GuardDecision | src/components/ProtectedRoute.jsx:4-19 | The page shows exactly when loading is done and a user is signed in. A missing user redirects to "/login" with history replaced. While loading, the placeholder shows. |
| Seo.Render | src/components/SEO.jsx:4-41 | The head has twelve tags; the structured-data script is present exactly for a truthy schema; the title is the site title without a title prop and ends in " \| DD Tours and Travels" with one. |
| Seo.ContentAt | src/components/SEO.jsx:20-36 | A tag whose key is not repeated earlier is what a lookup of its key finds. |
| Seo.TagsFound | src/components/SEO.jsx:20-36 | The rendered tag keys are distinct: every tag is found by its own key. |
| Seo.ChannelsAgree | src/components/SEO.jsx:20-36 | The page title, Open Graph and Twitter tags carry the same title, description and image. The canonical link equals `og:url`. |
| Seo.Defaults | src/components/SEO.jsx:4-15 | Missing props fall back to the site title, description, image, current URL and type "website". A `null` type is passed through. A structured-data script appears exactly for a truthy schema. |

## Left out

- Network requests, `Promise` scheduling, `localStorage` serialisation (`JSON.stringify`/`parse`) and navigation. These are outside the model. Requests and navigation are logged as values, storage is a map, and each request's outcome is a parameter.
- The clock and date parsing. `new Date()` is a `now` parameter, and deadlines are millisecond timestamps (`None` for a missing one). `toLocaleDateString` on the ticket is kept as the raw value it would format.
- JSON numbers are modelled as integers (`Num(n: int)`). Fractional prices or ratings and NaN are not represented.
- Floating point. The 3% tax is computed with exact reals, not IEEE doubles, so rounding in the displayed total is not modelled.
- Unicode. Case mapping is ASCII only, and there is no normalisation.
- The Razorpay script loader, the widget's internals, and `new Razorpay` throwing. Each is modelled only through its outcome.
- jsPDF drawing. Only the computed fields and the file name of the pass are modelled.
- GSAP and framer-motion animations, the randomised viewer counts, and all styling.
- Booking page loading flags and the trip/profile fetch errors. The model starts from a loaded trip and profile, and the failed-trip message is not modelled.
- Booking.PricePerPerson: a price that is not a number is treated as 0. JavaScript's string coercion of a string price is not modelled.
- Booking.BookingForm.BookingPayload: the guest count is an integer. `parseInt` of the input's string value is not modelled.
- Booking.BookingForm.Submit: the requirements of 1 to 12 guests and of a non-empty name, phone and address stand for the browser's form validation (`min`/`max` at src/pages/Booking.jsx:350-351, `required` at src/pages/Booking.jsx:378, 391 and 404). A refused submit is not an operation of the model.
- BookingTimer.Timer: re-subscribing the interval when the `deadline` prop changes is not modelled. The deadline is fixed per mount.
- AllTrips.StarRow: the rating is an optional integer. Coercion of a string rating in `i < review.rating` is not modelled.
- Profile.StatusBadge: keys that name `Object.prototype` members (such as "toString") are treated like any other unknown status.
- Profile.ProfilePage.EditField: spreading a profile that is not an object (a string or an array) copies no fields in the model.
- Profile.ProfilePage.FetchUserData: the `catch` branch is unreachable under `Promise.allSettled` and is not modelled.
- RatingModal.Dialog.FinishSubmit: `onSuccess` or `onClose` throwing is not modelled.
- `getProfileImage` and the display-name fallbacks on the profile page are not part of this model.
- `AuthContext`, `api.js`, the layout, navigation and the static pages (Home, About, Blogs, Login, Success) are not part of this model.
