/** The trip-list page (src/pages/AllTrips.jsx): the card image, the days-left
    label, the search filter, the status badge, the place tags and the review
    stars. */
module AllTrips {
  import opened JsValues
  import opened Text
  import opened Seqs
  import TourDetails

  const CardDefaultImage := "https://images.unsplash.com/photo-1476514525535-07fb3b4ae5f1?q=80&w=2070&auto=format&fit=crop"

  // ---------------------------------------------------------------------------
  // Card image
  // ---------------------------------------------------------------------------

  /** `getTourImage`: the first entry of a non-empty `images` array (its `url`
      only), of a non-empty `img` array (its `url`, else the entry), then `image`
      (its `url`, else itself), then `imageUrl`, then the default picture. Reading
      a field of a missing trip throws. */
  function GetTourImage(tour: Json): (r: Eval<Json>)
    ensures r.TypeError? <==> IsNullish(tour)
  {
    if IsNullish(tour) then TypeError
    else
      var images, img := Field(tour, "images"), Field(tour, "img");
      if images.Arr? && |images.items| > 0 then Value(Field(images.items[0], "url"))
      else if img.Arr? && |img.items| > 0 then Value(Or(Field(img.items[0], "url"), img.items[0]))
      else if Truthy(Field(tour, "image")) then Value(Or(Field(Field(tour, "image"), "url"), Field(tour, "image")))
      else if Truthy(Field(tour, "imageUrl")) then Value(Field(tour, "imageUrl"))
      else Value(Str(CardDefaultImage))
  }

  /** Source priority: each source decides the image only when every earlier one
      is absent; a non-empty `images` array wins even when its first entry has no
      `url`, and an `img` entry or an `image` object stands for itself when it has
      none. */
  lemma TourImagePriority(f: map<string, Json>)
    ensures var t := Obj(f);
      var images, img := Field(t, "images"), Field(t, "img");
      var image, imageUrl := Field(t, "image"), Field(t, "imageUrl");
      var noImages, noImg := !(images.Arr? && |images.items| > 0), !(img.Arr? && |img.items| > 0);
      && (!noImages ==> GetTourImage(t) == Value(Field(images.items[0], "url")))
      && (noImages && !noImg ==>
            GetTourImage(t) == Value(if Truthy(Field(img.items[0], "url")) then Field(img.items[0], "url") else img.items[0]))
      && (noImages && noImg && Truthy(image) ==>
            GetTourImage(t) == Value(if Truthy(Field(image, "url")) then Field(image, "url") else image))
      && (noImages && noImg && !Truthy(image) && Truthy(imageUrl) ==> GetTourImage(t) == Value(imageUrl))
  {
  }

  /** With no source set the card shows the default picture; and unlike the detail
      page, an `images` array whose first entry has no `url` yields no address at
      all rather than falling through to the other sources. */
  lemma TourImageFallbacks(f: map<string, Json>)
    ensures !(Field(Obj(f), "images").Arr? && |Field(Obj(f), "images").items| > 0)
      && !(Field(Obj(f), "img").Arr? && |Field(Obj(f), "img").items| > 0)
      && !Truthy(Field(Obj(f), "image")) && !Truthy(Field(Obj(f), "imageUrl"))
      ==> GetTourImage(Obj(f)) == Value(Str(CardDefaultImage))
    ensures Field(Obj(f), "images") == Arr([Obj(map[])]) ==> GetTourImage(Obj(f)) == Value(Undefined)
  {
  }

  // ---------------------------------------------------------------------------
  // Days left
  // ---------------------------------------------------------------------------

  /** `getDaysLeft`, with the deadline and the current time as milliseconds (None:
      no deadline). */
  function GetDaysLeft(deadline: Option<int>, now: int): (r: Option<string>)
    ensures r.None? <==> deadline.None?
    ensures deadline.Some? && deadline.value < now ==> r == Some("Closed")
    ensures deadline.Some? && 0 <= deadline.value - now < TourDetails.DayMs ==> r == Some("Ends Today")
  {
    if deadline.None? then None
    else
      var diff := deadline.value - now;
      if diff < 0 then Some("Closed")
      else
        var days := diff / TourDetails.DayMs;
        if days == 0 then Some("Ends Today") else Some(NatToString(days) + " Days Left")
  }

  /** The label: nothing without a deadline; "Closed" exactly when the deadline has
      passed; "Ends Today" for less than a day; otherwise the whole days left. */
  lemma DaysLeftCases(deadline: Option<int>, now: int)
    ensures deadline.None? <==> GetDaysLeft(deadline, now).None?
    ensures GetDaysLeft(deadline, now) == Some("Closed") <==> deadline.Some? && deadline.value < now
    ensures GetDaysLeft(deadline, now) == Some("Ends Today") <==>
      deadline.Some? && 0 <= deadline.value - now < TourDetails.DayMs
    ensures deadline.Some? && deadline.value - now >= TourDetails.DayMs ==>
      exists n: nat :: n >= 1 && n * TourDetails.DayMs <= deadline.value - now < (n + 1) * TourDetails.DayMs
                    && GetDaysLeft(deadline, now) == Some(NatToString(n) + " Days Left")
  {
    if deadline.Some? {
      var diff := deadline.value - now;
      if diff >= TourDetails.DayMs {
        var n: nat := diff / TourDetails.DayMs;
        assert n * TourDetails.DayMs <= diff < (n + 1) * TourDetails.DayMs;
        var shown := NatToString(n) + " Days Left";
        assert shown[|shown| - 1] == 't';
        assert |shown| != |"Closed"|;
      }
    }
  }

  /** The list page and the detail page agree: the list says "Closed" exactly when
      the detail page says "EXPIRED", and with a day or more left both show the
      same label. */
  lemma DaysLeftAgreesWithDetailPage(deadline: Option<int>, now: int)
    ensures GetDaysLeft(deadline, now) == Some("Closed")
        <==> TourDetails.CalculateTimeLeft(deadline, now) == Some("EXPIRED")
    ensures deadline.Some? && deadline.value - now >= TourDetails.DayMs ==>
      GetDaysLeft(deadline, now) == TourDetails.CalculateTimeLeft(deadline, now)
  {
    DaysLeftCases(deadline, now);
    TourDetails.TimeLeftCases(deadline, now);
  }

  // ---------------------------------------------------------------------------
  // Search filter
  // ---------------------------------------------------------------------------

  /** `v?.toLowerCase() || ""`: a missing value reads as "", a non-string throws. */
  function LowerOrEmpty(v: Json): Eval<string>
  {
    if IsNullish(v) then Value("")
    else if v.Str? then Value(Lower(v.s))
    else TypeError
  }

  /** `tour.placesCovered?.join(" ").toLowerCase() || ""`. */
  function TagsText(places: Json): Eval<string>
  {
    if IsNullish(places) then Value("")
    else if places.Arr? then
      Value(Lower(Join(seq(|places.items|, i requires 0 <= i < |places.items| => JoinElement(places.items[i])), ' ')))
    else TypeError
  }

  /** The filter callback for one tour, with the lower-cased search term. */
  function TourMatches(tour: Json, term: string): Eval<bool>
  {
    if IsNullish(tour) then TypeError
    else
      var title := LowerOrEmpty(Field(tour, "title"));
      var location := LowerOrEmpty(Field(tour, "location"));
      var tags := TagsText(Field(tour, "placesCovered"));
      if title.TypeError? || location.TypeError? || tags.TypeError? then TypeError
      else Value(Contains(title.value, term) || Contains(location.value, term) || Contains(tags.value, term))
  }

  predicate Kept(tour: Json, term: string)
  {
    TourMatches(tour, term) == Value(true)
  }

  /** `filteredTours`: the tours matching the search, or a TypeError when the
      callback throws on any tour. */
  function FilterTours(tours: seq<Json>, searchTerm: string): (r: Eval<seq<Json>>)
    ensures r.TypeError? <==> exists i :: 0 <= i < |tours| && TourMatches(tours[i], Lower(searchTerm)).TypeError?
    ensures r.Value? ==> |r.value| <= |tours|
  {
    var term := Lower(searchTerm);
    if forall i :: 0 <= i < |tours| ==> TourMatches(tours[i], term).Value? then
      Value(Filter(tours, t => Kept(t, term)))
    else TypeError
  }

  /** The filtered list keeps the order of the tours, and holds exactly the tours
      whose lower-cased title, location or joined places contain the lower-cased
      search term. */
  lemma FilterToursSpec(tours: seq<Json>, searchTerm: string)
    requires FilterTours(tours, searchTerm).Value?
    ensures IsSubsequence(FilterTours(tours, searchTerm).value, tours)
    ensures forall t :: t in FilterTours(tours, searchTerm).value <==>
      t in tours
      && var term := Lower(searchTerm);
      (Contains(LowerOrEmpty(Field(t, "title")).value, term)
       || Contains(LowerOrEmpty(Field(t, "location")).value, term)
       || Contains(TagsText(Field(t, "placesCovered")).value, term))
  {
    var term := Lower(searchTerm);
    FilterIsSubsequence(tours, t => Kept(t, term));
    forall t | t in tours
      ensures Kept(t, term) <==>
        (Contains(LowerOrEmpty(Field(t, "title")).value, term)
         || Contains(LowerOrEmpty(Field(t, "location")).value, term)
         || Contains(TagsText(Field(t, "placesCovered")).value, term))
    {
      var i :| 0 <= i < |tours| && tours[i] == t;
      assert TourMatches(tours[i], term).Value?;
    }
    forall t ensures t in Filter(tours, t => Kept(t, term)) <==> t in tours && Kept(t, term) {
      FilterMembership(tours, t => Kept(t, term), t);
    }
  }

  /** The empty search term keeps every tour. */
  lemma EmptySearchKeepsAll(tours: seq<Json>)
    requires forall i :: 0 <= i < |tours| ==> TourMatches(tours[i], "").Value?
    ensures FilterTours(tours, "") == Value(tours)
  {
    forall i | 0 <= i < |tours| ensures Kept(tours[i], "") {
      ContainsEmpty(LowerOrEmpty(Field(tours[i], "title")).value);
    }
    FilterKeepsAll(tours, t => Kept(t, ""));
  }

  /** A tour without title, location or places counts each as "", so it survives
      only the empty search. */
  lemma MissingFieldsMatchOnlyEmpty(f: map<string, Json>, term: string)
    requires "title" !in f && "location" !in f && "placesCovered" !in f
    ensures TourMatches(Obj(f), term) == Value(term == "")
  {
    if term != "" {
      assert !(term <= "");
      assert !Contains("", term);
    }
  }

  /** The filter throws as soon as one entry is missing (null or undefined). */
  lemma NullishTourThrows(tours: seq<Json>, searchTerm: string, i: nat)
    requires i < |tours| && IsNullish(tours[i])
    ensures FilterTours(tours, searchTerm).TypeError?
  {
    assert !TourMatches(tours[i], Lower(searchTerm)).Value?;
  }

  // ---------------------------------------------------------------------------
  // Card badge, tags and review stars
  // ---------------------------------------------------------------------------

  /** The one status badge a card shows. */
  datatype Badge = Completed | Ongoing | DaysLeftBadge(days: string) | EndsInBadge(text: Json) | NoBadge

  /** The badge choice: completed, then ongoing, then a days-left label other than
      "Closed", then the trip's `bookingEndsIn` text, else none. */
  function StatusBadge(status: Json, daysLeft: Option<string>, bookingEndsIn: Json): (b: Badge)
    ensures b == Completed <==> status == Str("completed")
    ensures b == Ongoing <==> status == Str("ongoing")
    ensures b.DaysLeftBadge? ==> daysLeft == Some(b.days) && b.days != "" && b.days != "Closed"
    ensures b.EndsInBadge? ==> b.text == bookingEndsIn && Truthy(bookingEndsIn)
    ensures b == NoBadge ==> !Truthy(bookingEndsIn)
  {
    if status == Str("completed") then Completed
    else if status == Str("ongoing") then Ongoing
    else if daysLeft.Some? && daysLeft.value != "" && daysLeft.value != "Closed" then DaysLeftBadge(daysLeft.value)
    else if Truthy(bookingEndsIn) then EndsInBadge(bookingEndsIn)
    else NoBadge
  }

  /** Badge precedence for a trip: a completed or ongoing trip shows its status
      whatever its deadline; otherwise an open deadline shows the days left; a
      passed or missing deadline leaves the `bookingEndsIn` text, if any. */
  lemma BadgePrecedence(status: Json, deadline: Option<int>, now: int, bookingEndsIn: Json)
    ensures var b := StatusBadge(status, GetDaysLeft(deadline, now), bookingEndsIn);
      && (b == Completed <==> status == Str("completed"))
      && (b == Ongoing <==> status == Str("ongoing"))
      && (b.DaysLeftBadge? <==> status != Str("completed") && status != Str("ongoing")
                                && deadline.Some? && deadline.value >= now)
      && (b.EndsInBadge? <==> status != Str("completed") && status != Str("ongoing")
                              && (deadline.None? || deadline.value < now) && Truthy(bookingEndsIn))
  {
    DaysLeftCases(deadline, now);
  }

  /** `tour.placesCovered?.slice(0, 3)` as rendered: the first three places at most;
      a string or other non-array value throws when mapped. */
  function PlaceTags(places: Json): (r: Eval<seq<Json>>)
    ensures r.Value? ==> |r.value| <= 3
    ensures r.TypeError? <==> !IsNullish(places) && !places.Arr?
    ensures IsNullish(places) ==> r == Value([])
    ensures places.Arr? ==>
      (r.Value? && r.value <= places.items && |r.value| == (if |places.items| < 3 then |places.items| else 3))
  {
    if IsNullish(places) then Value([])
    else if places.Arr? then Value(if |places.items| < 3 then places.items else places.items[..3])
    else TypeError
  }

  /** The review stars: five of them, star `i` filled when `i < rating`; a missing
      rating fills none. */
  function StarRow(rating: Option<int>): (r: seq<bool>)
    ensures |r| == 5
    ensures forall i, j :: 0 <= i <= j < 5 && r[j] ==> r[i]
    ensures rating.None? ==> forall i :: 0 <= i < 5 ==> !r[i]
  {
    seq(5, i requires 0 <= i < 5 => rating.Some? && i < rating.value)
  }

  function CountFilled(stars: seq<bool>): nat
    decreases |stars|
  {
    if stars == [] then 0 else CountFilled(stars[..|stars| - 1]) + (if stars[|stars| - 1] then 1 else 0)
  }

  /** A prefix of `n` stars for the given rating has the rating, kept within 0 and
      `n`, filled. */
  lemma {:induction false} FilledPrefix(n: nat, rating: int)
    ensures CountFilled(seq(n, i requires 0 <= i < n => i < rating))
         == if rating < 0 then 0 else if rating > n then n else rating
  {
    if n > 0 {
      FilledPrefix(n - 1, rating);
      var s := seq(n, i requires 0 <= i < n => i < rating);
      assert s[..n - 1] == seq(n - 1, i requires 0 <= i < n - 1 => i < rating);
    }
  }

  /** Exactly five stars show, filled ones first, and as many are filled as the
      rating says, kept within 0 and 5. */
  lemma StarRowSpec(rating: Option<int>)
    ensures |StarRow(rating)| == 5
    ensures forall i :: 0 <= i < 5 ==> (StarRow(rating)[i] <==> rating.Some? && i < rating.value)
    ensures forall i, j :: 0 <= i <= j < 5 && StarRow(rating)[j] ==> StarRow(rating)[i]
    ensures CountFilled(StarRow(rating)) ==
      if rating.None? || rating.value < 0 then 0 else if rating.value > 5 then 5 else rating.value
  {
    if rating.Some? {
      FilledPrefix(5, rating.value);
      assert StarRow(rating) == seq(5, i requires 0 <= i < 5 => i < rating.value);
    } else {
      FilledPrefix(5, 0);
      assert StarRow(rating) == seq(5, i requires 0 <= i < 5 => i < 0);
    }
  }
}
