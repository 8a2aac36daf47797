/** The trip-detail page's normalisers (src/pages/TourDetails.jsx): images, inclusions,
    places and itinerary read from a loosely shaped trip record, the time left until
    the booking deadline, whether booking is closed, and the image carousel. */
module TourDetails {
  import opened JsValues
  import opened Text
  import opened Seqs

  const DefaultImage := "https://images.unsplash.com/photo-1476514525535-07fb3b4ae5f1?q=80&w=2070"

  /** Milliseconds in a day (1000 * 60 * 60 * 24) and in an hour. */
  const DayMs := 86400000
  const HourMs := 3600000

  // ---------------------------------------------------------------------------
  // Images
  // ---------------------------------------------------------------------------

  predicate IsNonEmptyArray(v: Json)
  {
    v.Arr? && |v.items| > 0
  }

  /** `s.split(",")` as a list of string values. */
  function CommaPieces(s: string): seq<Json>
  {
    var parts := Split(s, ',');
    seq(|parts|, i requires 0 <= i < |parts| => Str(parts[i]))
  }

  /** The raw image entries, from the first source present: a non-empty `images`
      array, a non-empty `img` array, then the comma-separated `image`, `imageUrl`
      or `cover` string. */
  function RawImages(tour: Json): seq<Json>
  {
    if IsNonEmptyArray(Field(tour, "images")) then Field(tour, "images").items
    else if IsNonEmptyArray(Field(tour, "img")) then Field(tour, "img").items
    else if Field(tour, "image").Str? then CommaPieces(Field(tour, "image").s)
    else if Field(tour, "imageUrl").Str? then CommaPieces(Field(tour, "imageUrl").s)
    else if Field(tour, "cover").Str? then CommaPieces(Field(tour, "cover").s)
    else []
  }

  /** The `map` step: a string is trimmed; an object (arrays included) gives its
      `url`, `secure_url` or `link`, else ""; anything else gives null. */
  function CleanImage(v: Json): Json
  {
    match v
    case Str(s) => Str(Trim(s))
    case Obj(_) => FirstTruthy([Field(v, "url"), Field(v, "secure_url")], Or(Field(v, "link"), Str("")))
    case Arr(_) => Str("")
    case _ => Null
  }

  /** The `filter` step: only non-empty strings survive. */
  predicate IsUsableImage(v: Json)
  {
    v.Str? && |v.s| > 0
  }

  /** The `map` step over all raw entries. */
  function MappedImages(raw: seq<Json>): seq<Json>
  {
    seq(|raw|, i requires 0 <= i < |raw| => CleanImage(raw[i]))
  }

  /** The `map` and `filter` steps together, as the list of addresses. */
  function CleanImages(raw: seq<Json>): (r: seq<string>)
    ensures forall i :: 0 <= i < |r| ==> |r[i]| > 0
  {
    var mapped := MappedImages(raw);
    var kept := Filter(mapped, IsUsableImage);
    FilterAllSatisfy(mapped, IsUsableImage);
    seq(|kept|, i requires 0 <= i < |kept| => kept[i].s)
  }

  /** `parseImages`: the empty list only for a missing trip; otherwise a non-empty
      list of non-empty image addresses, the default image standing in when no
      source yields one. */
  function ParseImages(tour: Json): (r: seq<string>)
    ensures r == [] <==> !Truthy(tour)
    ensures forall i :: 0 <= i < |r| ==> |r[i]| > 0
  {
    if !Truthy(tour) then []
    else
      var clean := CleanImages(RawImages(tour));
      if clean == [] then [DefaultImage] else clean
  }

  /** The cleaned addresses are exactly the mapped entries that are non-empty
      strings, in their original order. */
  lemma CleanImagesSpec(raw: seq<Json>)
    ensures AsStrings(CleanImages(raw)) == Filter(MappedImages(raw), IsUsableImage)
    ensures IsSubsequence(AsStrings(CleanImages(raw)), MappedImages(raw))
    ensures forall x :: x in CleanImages(raw) <==> x != "" && Str(x) in MappedImages(raw)
  {
    var mapped := MappedImages(raw);
    var kept := Filter(mapped, IsUsableImage);
    var r := CleanImages(raw);
    FilterAllSatisfy(mapped, IsUsableImage);
    assert AsStrings(r) == kept;
    FilterIsSubsequence(mapped, IsUsableImage);
    forall x ensures x in r <==> x != "" && Str(x) in mapped {
      FilterMembership(mapped, IsUsableImage, Str(x));
      if x in r {
        var i :| 0 <= i < |r| && r[i] == x;
        assert AsStrings(r)[i] == Str(x);
      }
      if Str(x) in kept {
        var i :| 0 <= i < |kept| && kept[i] == Str(x);
        assert r[i] == x;
      }
    }
  }

  /** An object entry gives its `url`, else its `secure_url`, else its `link`; with
      none of the three set it gives nothing usable. */
  lemma ObjectEntryImage(fields: map<string, Json>)
    ensures var v := Obj(fields);
      var url, secure, link := Field(v, "url"), Field(v, "secure_url"), Field(v, "link");
      && (Truthy(url) ==> CleanImage(v) == url)
      && (!Truthy(url) && Truthy(secure) ==> CleanImage(v) == secure)
      && (!Truthy(url) && !Truthy(secure) && Truthy(link) ==> CleanImage(v) == link)
      && (!Truthy(url) && !Truthy(secure) && !Truthy(link) ==> !IsUsableImage(CleanImage(v)))
  {
    var v := Obj(fields);
    FirstTruthyOfThree(Field(v, "url"), Field(v, "secure_url"), Or(Field(v, "link"), Str("")));
  }

  /** For a trip, the default image stands in exactly when the cleaned list is
      empty (or already is the default image); otherwise the cleaned list is shown. */
  lemma DefaultExactlyWhenNothingUsable(tour: Json)
    requires Truthy(tour)
    ensures CleanImages(RawImages(tour)) != [] ==> ParseImages(tour) == CleanImages(RawImages(tour))
    ensures ParseImages(tour) == [DefaultImage]
        <==> CleanImages(RawImages(tour)) == [] || CleanImages(RawImages(tour)) == [DefaultImage]
  {
  }

  /** Keeping the non-empty strings commutes with wrapping them as string values. */
  lemma {:induction false} UsableStrings(ps: seq<string>)
    ensures Filter(AsStrings(ps), IsUsableImage) == AsStrings(Filter(ps, NonEmpty))
    decreases |ps|
  {
    if ps != [] {
      UsableStrings(ps[1..]);
      assert AsStrings(ps)[1..] == AsStrings(ps[1..]);
      var head := if ps[0] != "" then [ps[0]] else [];
      assert AsStrings(head + Filter(ps[1..], NonEmpty)) == AsStrings(head) + AsStrings(Filter(ps[1..], NonEmpty));
    }
  }

  /** A comma-separated image string gives its pieces trimmed, with empty pieces
      dropped, in order: the same list as an inclusions string. */
  lemma CommaImagesAreItems(s: string)
    ensures CleanImages(CommaPieces(s)) == InclusionItems(s)
  {
    var mapped := MappedImages(CommaPieces(s));
    assert mapped == AsStrings(TrimmedPieces(s));
    CleanImagesSpec(CommaPieces(s));
    UsableStrings(TrimmedPieces(s));
    var a, b := CleanImages(CommaPieces(s)), InclusionItems(s);
    assert AsStrings(a) == AsStrings(b);
    assert |a| == |AsStrings(a)|;
    forall i | 0 <= i < |a| ensures a[i] == b[i] {
      assert AsStrings(a)[i] == Str(a[i]);
    }
  }

  /** Source priority, first step: a non-empty `images` array decides alone. */
  lemma ImagesFieldWins(f: map<string, Json>)
    requires IsNonEmptyArray(Field(Obj(f), "images"))
    ensures ParseImages(Obj(f)) == ParseImages(Obj(map["images" := f["images"]]))
  {
    assert RawImages(Obj(f)) == RawImages(Obj(map["images" := f["images"]]));
  }

  /** Failing that, a non-empty `img` array decides alone. */
  lemma ImgFieldNext(f: map<string, Json>)
    requires !IsNonEmptyArray(Field(Obj(f), "images")) && IsNonEmptyArray(Field(Obj(f), "img"))
    ensures ParseImages(Obj(f)) == ParseImages(Obj(map["img" := f["img"]]))
  {
    assert RawImages(Obj(f)) == RawImages(Obj(map["img" := f["img"]]));
  }

  /** Failing both arrays, the first of `image`, `imageUrl` and `cover` that holds a
      string decides alone. */
  lemma StringSourceNext(f: map<string, Json>, key: string)
    requires !IsNonEmptyArray(Field(Obj(f), "images")) && !IsNonEmptyArray(Field(Obj(f), "img"))
    requires key == "image" || key == "imageUrl" || key == "cover"
    requires Field(Obj(f), key).Str?
    requires key != "image" ==> !Field(Obj(f), "image").Str?
    requires key == "cover" ==> !Field(Obj(f), "imageUrl").Str?
    ensures ParseImages(Obj(f)) == ParseImages(Obj(map[key := f[key]]))
    ensures RawImages(Obj(f)) == CommaPieces(f[key].s)
    ensures var items := InclusionItems(f[key].s);
      ParseImages(Obj(f)) == if items == [] then [DefaultImage] else items
  {
    assert RawImages(Obj(f)) == RawImages(Obj(map[key := f[key]]));
    CommaImagesAreItems(f[key].s);
  }

  /** With no usable source at all, a trip shows exactly the default image. */
  lemma NoImageSourceGivesDefault(f: map<string, Json>)
    requires forall k :: k in f ==> k !in {"images", "img", "image", "imageUrl", "cover"}
    ensures ParseImages(Obj(f)) == [DefaultImage]
  {
  }

  // ---------------------------------------------------------------------------
  // Inclusions, places and itinerary
  // ---------------------------------------------------------------------------

  /** `s.split(",").map(p => p.trim())`. */
  function TrimmedPieces(s: string): (r: seq<string>)
    ensures |r| == |Split(s, ',')|
  {
    var parts := Split(s, ',');
    seq(|parts|, i requires 0 <= i < |parts| => Trim(parts[i]))
  }

  predicate NonEmpty(p: string)
  {
    p != ""
  }

  function AsStrings(ps: seq<string>): (r: seq<Json>)
    ensures |r| == |ps| && forall i :: 0 <= i < |ps| ==> r[i] == Str(ps[i])
  {
    seq(|ps|, i requires 0 <= i < |ps| => Str(ps[i]))
  }

  /** The items of a comma-separated inclusions string: each piece trimmed, empty
      pieces dropped. */
  function InclusionItems(s: string): seq<string>
  {
    Filter(TrimmedPieces(s), NonEmpty)
  }

  /** `getTourInclusions`: the first present of `includedItems`, `inclusions`,
      `features`; an array as it is, a string split on commas with each piece
      trimmed and empty pieces dropped, anything else nothing. */
  function GetTourInclusions(tour: Json): (r: seq<Json>)
    ensures !Truthy(tour) ==> r == []
    ensures Truthy(tour) ==>
      var raw := FirstTruthy([Field(tour, "includedItems"), Field(tour, "inclusions")], Field(tour, "features"));
      && (raw.Arr? ==> r == raw.items)
      && (raw.Str? ==> r == AsStrings(InclusionItems(raw.s)))
      && (!raw.Arr? && !raw.Str? ==> r == [])
  {
    if !Truthy(tour) then []
    else
      var raw := FirstTruthy([Field(tour, "includedItems"), Field(tour, "inclusions")], Field(tour, "features"));
      if !Truthy(raw) then []
      else if raw.Arr? then raw.items
      else if raw.Str? then AsStrings(InclusionItems(raw.s))
      else []
  }

  /** A string of inclusions gives trimmed, non-empty, comma-free items, in order,
      at most one per comma-separated piece, and the trimmed form of every non-blank
      piece is among them. */
  lemma InclusionItemsSpec(s: string)
    ensures |InclusionItems(s)| <= Count(s, ',') + 1
    ensures IsSubsequence(InclusionItems(s), TrimmedPieces(s))
    ensures forall i :: 0 <= i < |InclusionItems(s)| ==>
      InclusionItems(s)[i] != "" && Trim(InclusionItems(s)[i]) == InclusionItems(s)[i] && ',' !in InclusionItems(s)[i]
    ensures forall k :: 0 <= k < |Split(s, ',')| && !IsBlank(Split(s, ',')[k]) ==>
      Trim(Split(s, ',')[k]) in InclusionItems(s)
  {
    var parts := Split(s, ',');
    var pieces := TrimmedPieces(s);
    var kept := InclusionItems(s);
    SplitJoin(s, ',');
    FilterIsSubsequence(pieces, NonEmpty);
    forall i | 0 <= i < |kept|
      ensures kept[i] != "" && Trim(kept[i]) == kept[i] && ',' !in kept[i]
    {
      FilterMembership(pieces, NonEmpty, kept[i]);
      var k :| 0 <= k < |pieces| && pieces[k] == kept[i];
      TrimIdempotent(parts[k]);
      TrimKeepsAbsent(parts[k], ',');
    }
    forall k | 0 <= k < |parts| && !IsBlank(parts[k])
      ensures Trim(parts[k]) in kept
    {
      TrimEmptyIffBlank(parts[k]);
      assert pieces[k] == Trim(parts[k]);
      FilterMembership(pieces, NonEmpty, pieces[k]);
    }
  }

  /** The inclusions come from `includedItems` when it is set, whatever the other
      two fields hold; from `inclusions` when only it and `features` may be set; and
      from `features` only when both others are unset. */
  lemma InclusionsSourcePriority(f: map<string, Json>)
    ensures Truthy(Field(Obj(f), "includedItems")) ==>
      GetTourInclusions(Obj(f)) == GetTourInclusions(Obj(map["includedItems" := f["includedItems"]]))
    ensures !Truthy(Field(Obj(f), "includedItems")) && Truthy(Field(Obj(f), "inclusions")) ==>
      GetTourInclusions(Obj(f)) == GetTourInclusions(Obj(map["inclusions" := f["inclusions"]]))
    ensures !Truthy(Field(Obj(f), "includedItems")) && !Truthy(Field(Obj(f), "inclusions")) ==>
      GetTourInclusions(Obj(f)) == GetTourInclusions(Obj(if "features" in f then map["features" := f["features"]] else map[]))
  {
    var g := Obj(f);
    FirstTruthyOfThree(Field(g, "includedItems"), Field(g, "inclusions"), Field(g, "features"));
    if Truthy(Field(g, "includedItems")) {
      var h := Obj(map["includedItems" := f["includedItems"]]);
      assert FirstTruthy([Field(h, "includedItems"), Field(h, "inclusions")], Field(h, "features")) == f["includedItems"];
    } else if Truthy(Field(g, "inclusions")) {
      var h := Obj(map["inclusions" := f["inclusions"]]);
      assert Field(h, "includedItems") == Undefined;
      assert FirstTruthy([Field(g, "includedItems"), Field(g, "inclusions")], Field(g, "features")) == f["inclusions"];
      assert FirstTruthy([Field(h, "includedItems"), Field(h, "inclusions")], Field(h, "features")) == f["inclusions"];
    } else {
      var h := Obj(if "features" in f then map["features" := f["features"]] else map[]);
      assert Field(h, "includedItems") == Undefined && Field(h, "inclusions") == Undefined;
      assert Field(h, "features") == Field(g, "features");
      FirstTruthyOfThree(Undefined, Undefined, Field(g, "features"));
      assert FirstTruthy([Field(g, "includedItems"), Field(g, "inclusions")], Field(g, "features")) == Field(g, "features");
      assert FirstTruthy([Field(h, "includedItems"), Field(h, "inclusions")], Field(h, "features")) == Field(g, "features");
    }
  }

  /** `getPlacesCovered`: an array as it is; a string split on commas with each piece
      trimmed and none dropped. */
  function GetPlacesCovered(tour: Json): (r: seq<Json>)
    ensures Field(tour, "placesCovered").Arr? ==> r == Field(tour, "placesCovered").items
    ensures Field(tour, "placesCovered").Str? && Field(tour, "placesCovered").s != "" ==>
      var pieces := Split(Field(tour, "placesCovered").s, ',');
      |r| == |pieces| && forall i :: 0 <= i < |r| ==> r[i] == Str(Trim(pieces[i]))
    ensures !Field(tour, "placesCovered").Arr? && !Field(tour, "placesCovered").Str? ==> r == []
  {
    var raw := Field(tour, "placesCovered");
    if !Truthy(raw) then []
    else if raw.Arr? then raw.items
    else if raw.Str? then AsStrings(TrimmedPieces(raw.s))
    else []
  }

  /** A string of places yields one trimmed entry per comma-separated piece: the
      number of commas plus one, empty entries included. */
  lemma PlacesFromString(tour: Json, s: string)
    requires Field(tour, "placesCovered") == Str(s) && s != ""
    ensures |GetPlacesCovered(tour)| == Count(s, ',') + 1
    ensures forall i :: 0 <= i < |GetPlacesCovered(tour)| ==>
      GetPlacesCovered(tour)[i] == Str(Trim(Split(s, ',')[i]))
  {
    SplitJoin(s, ',');
  }

  /** One itinerary entry, `{ description: line }`. */
  function Day(line: string): Json
  {
    Obj(map["description" := Str(line)])
  }

  /** `line.trim().length > 0`. */
  predicate HasContent(line: string)
  {
    |Trim(line)| > 0
  }

  /** The lines of an itinerary string that survive the filter, untrimmed. */
  function ItineraryLines(s: string): seq<string>
  {
    Filter(Split(s, '\n'), HasContent)
  }

  /** `getItinerary`: an array as it is; a string gives one entry per line that has
      non-whitespace content, in order. */
  function GetItinerary(tour: Json): (r: seq<Json>)
    ensures Field(tour, "itinerary").Arr? ==> r == Field(tour, "itinerary").items
    ensures !Truthy(Field(tour, "itinerary")) ==> r == []
    ensures !Field(tour, "itinerary").Arr? && !Field(tour, "itinerary").Str? ==> r == []
    ensures Field(tour, "itinerary").Str? && Truthy(Field(tour, "itinerary")) ==>
      var lines := ItineraryLines(Field(tour, "itinerary").s);
      |r| == |lines| && forall i :: 0 <= i < |r| ==> r[i] == Day(lines[i])
  {
    var raw := Field(tour, "itinerary");
    if !Truthy(raw) then []
    else if raw.Arr? then raw.items
    else if raw.Str? then
      var lines := ItineraryLines(raw.s);
      seq(|lines|, i requires 0 <= i < |lines| => Day(lines[i]))
    else []
  }

  /** The kept itinerary lines are, in order, exactly the lines with a
      non-whitespace character; none contains a line break. */
  lemma ItineraryLinesSpec(s: string)
    ensures IsSubsequence(ItineraryLines(s), Split(s, '\n'))
    ensures forall line :: line in ItineraryLines(s) <==> line in Split(s, '\n') && !IsBlank(line)
    ensures forall line :: line in ItineraryLines(s) ==> '\n' !in line
    ensures |ItineraryLines(s)| <= Count(s, '\n') + 1
  {
    var lines := Split(s, '\n');
    FilterIsSubsequence(lines, HasContent);
    SplitJoin(s, '\n');
    forall line ensures line in ItineraryLines(s) <==> line in lines && !IsBlank(line) {
      FilterMembership(lines, HasContent, line);
      TrimEmptyIffBlank(line);
    }
  }

  // ---------------------------------------------------------------------------
  // Deadline
  // ---------------------------------------------------------------------------

  /** `calculateTimeLeft`, with the deadline and the current time as milliseconds
      (None: no deadline set). */
  function CalculateTimeLeft(deadline: Option<int>, now: int): (r: Option<string>)
    ensures r.None? <==> deadline.None?
  {
    if deadline.None? then None
    else
      var diff := deadline.value - now;
      if diff < 0 then Some("EXPIRED")
      else
        var days := diff / DayMs;
        var hours := (diff % DayMs) / HourMs;
        if days > 0 then Some(NatToString(days) + " Days Left")
        else Some(NatToString(hours) + " Hours Left")
  }

  /** The time left: nothing without a deadline; "EXPIRED" exactly when the deadline
      has passed (a deadline of exactly now is not expired); the whole number of days
      when at least one remains; otherwise the whole number of hours, below 24. */
  lemma TimeLeftCases(deadline: Option<int>, now: int)
    ensures deadline.None? ==> CalculateTimeLeft(deadline, now) == None
    ensures CalculateTimeLeft(deadline, now) == Some("EXPIRED") <==> deadline.Some? && deadline.value < now
    ensures deadline.Some? && deadline.value - now >= DayMs ==>
      exists n: nat :: n >= 1 && n * DayMs <= deadline.value - now < (n + 1) * DayMs
                    && CalculateTimeLeft(deadline, now) == Some(NatToString(n) + " Days Left")
    ensures deadline.Some? && 0 <= deadline.value - now < DayMs ==>
      exists h: nat :: h < 24 && h * HourMs <= deadline.value - now < (h + 1) * HourMs
                    && CalculateTimeLeft(deadline, now) == Some(NatToString(h) + " Hours Left")
  {
    if deadline.Some? {
      var diff := deadline.value - now;
      if diff >= DayMs {
        var n: nat := diff / DayMs;
        assert n * DayMs <= diff < (n + 1) * DayMs;
        assert |NatToString(n) + " Days Left"| > |"EXPIRED"|;
      } else if diff >= 0 {
        var h: nat := diff / HourMs;
        assert diff % DayMs == diff;
        assert h * HourMs <= diff < (h + 1) * HourMs;
        assert |NatToString(h) + " Hours Left"| > |"EXPIRED"|;
      }
    }
  }

  /** `isBookingClosed`: the deadline has passed, or the trip is completed or ongoing. */
  predicate IsBookingClosed(timeLeft: Option<string>, status: Json)
  {
    timeLeft == Some("EXPIRED") || status == Str("completed") || status == Str("ongoing")
  }

  /** Booking is closed exactly when the deadline lies in the past or the trip's
      status is "completed" or "ongoing". */
  lemma BookingClosedIff(deadline: Option<int>, now: int, status: Json)
    ensures IsBookingClosed(CalculateTimeLeft(deadline, now), status)
        <==> (deadline.Some? && deadline.value < now) || status == Str("completed") || status == Str("ongoing")
  {
    TimeLeftCases(deadline, now);
  }

  // ---------------------------------------------------------------------------
  // Carousel
  // ---------------------------------------------------------------------------

  /** One tick of the carousel interval over `n` images. With one image or none no
      interval runs, so the index does not move. */
  function NextSlide(prev: nat, n: nat): (r: nat)
    ensures n > 1 ==> r < n
    ensures n > 1 && prev + 1 < n ==> r == prev + 1
    ensures n > 1 && prev + 1 == n ==> r == 0
    ensures n <= 1 ==> r == prev
  {
    if n <= 1 then prev else (prev + 1) % n
  }

  /** The index after `ticks` ticks, starting from the first image. */
  function SlideAfter(ticks: nat, n: nat): nat
  {
    if ticks == 0 then 0 else NextSlide(SlideAfter(ticks - 1, n), n)
  }

  /** During the first round the carousel shows the images in order. */
  lemma {:induction false} SlideAfterFirstRound(ticks: nat, n: nat)
    requires n > 1 && ticks < n
    ensures SlideAfter(ticks, n) == ticks
  {
    if ticks > 0 {
      SlideAfterFirstRound(ticks - 1, n);
      assert SlideAfter(ticks, n) == NextSlide(ticks - 1, n);
    }
  }

  /** The carousel cycles: after `n` more ticks it shows the same image again. */
  lemma {:induction false} SlideAfterPeriodic(ticks: nat, n: nat)
    requires n > 1
    ensures SlideAfter(ticks + n, n) == SlideAfter(ticks, n)
  {
    if ticks == 0 {
      SlideAfterFirstRound(n - 1, n);
      assert SlideAfter(n, n) == NextSlide(n - 1, n);
    } else {
      SlideAfterPeriodic(ticks - 1, n);
      assert SlideAfter(ticks + n, n) == NextSlide(SlideAfter(ticks - 1 + n, n), n);
    }
  }
}
