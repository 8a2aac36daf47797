/** The traveller's dashboard (src/pages/Profile.jsx): loading the profile and the
    bookings, editing and saving the profile, and the values the page derives from
    them (completeness, the masked Aadhar number, row fallbacks, status badges,
    shortened ids). */
module Profile {
  import opened JsValues
  import opened Text

  // ---------------------------------------------------------------------------
  // Derived values
  // ---------------------------------------------------------------------------

  /** `isProfileComplete`: both the phone and the Aadhar number are set. */
  predicate IsProfileComplete(profile: Json)
    ensures IsProfileComplete(profile) <==>
      DetailRow(Field(profile, "phone")).Shown? && DetailRow(Field(profile, "aadharNo")).Shown?
  {
    Truthy(Field(profile, "phone")) && Truthy(Field(profile, "aadharNo"))
  }

  /** The Aadhar row's value: the last four characters behind a fixed mask, or null
      when there is no number. A number that is not a string or an array has no
      `slice` and throws. */
  function AadharDisplay(profile: Json): (r: Eval<Json>)
    ensures r.TypeError? <==> Truthy(Field(profile, "aadharNo"))
                              && !Field(profile, "aadharNo").Str? && !Field(profile, "aadharNo").Arr?
  {
    var aadhar := Field(profile, "aadharNo");
    if !Truthy(aadhar) then Value(Null)
    else if aadhar.Str? then Value(Str("XXXX-XXXX-" + TakeLast(aadhar.s, 4)))
    else if aadhar.Arr? then
      var tail := if |aadhar.items| < 4 then aadhar.items else aadhar.items[|aadhar.items| - 4..];
      Value(Str("XXXX-XXXX-" + ToString(Arr(tail))))
    else TypeError
  }

  /** What a detail row shows. */
  datatype Cell = Shown(value: Json) | NotAssigned

  /** `DetailRow`: the value when it is set, else the "Not Assigned" placeholder. */
  function DetailRow(value: Json): (c: Cell)
    ensures c.NotAssigned? <==> !Truthy(value)
    ensures c.Shown? ==> c.value == value
  {
    if Truthy(value) then Shown(value) else NotAssigned
  }

  /** The Aadhar row reveals at most the last four characters of the number, behind
      "XXXX-XXXX-", and shows "Not Assigned" exactly when there is no number. */
  lemma AadharRowSpec(profile: Json)
    requires AadharDisplay(profile).Value?
    ensures DetailRow(AadharDisplay(profile).value).NotAssigned? <==> !Truthy(Field(profile, "aadharNo"))
    ensures Field(profile, "aadharNo").Str? && Truthy(Field(profile, "aadharNo")) ==>
      var a := Field(profile, "aadharNo").s;
      var shown := AadharDisplay(profile).value.s;
      && shown[..10] == "XXXX-XXXX-"
      && shown[10..] == a[|a| - |shown[10..]|..]
      && |shown| == 10 + (if |a| < 4 then |a| else 4)
  {
    var aadhar := Field(profile, "aadharNo");
    if aadhar.Str? && Truthy(aadhar) {
      var shown := AadharDisplay(profile).value.s;
      assert shown == "XXXX-XXXX-" + TakeLast(aadhar.s, 4);
      assert shown[10..] == TakeLast(aadhar.s, 4);
    }
  }

  /** The header's "verified" badge appears exactly when both the phone row and the
      Aadhar row show a value rather than "Not Assigned". */
  lemma CompleteIffBothRowsShown(profile: Json)
    requires AadharDisplay(profile).Value?
    ensures IsProfileComplete(profile) <==>
      DetailRow(Field(profile, "phone")).Shown? && DetailRow(AadharDisplay(profile).value).Shown?
  {
    AadharRowSpec(profile);
  }

  /** The style and icon of a booking's status badge. */
  datatype StatusStyle = ConfirmedStyle | CancelledStyle | PendingStyle

  /** `StatusBadge`: the status, converted to a property key, picks its style; any
      other key falls back to the pending style and icon. */
  function StatusBadge(status: Json): (r: StatusStyle)
    ensures r == ConfirmedStyle <==> ToString(status) == "confirmed"
    ensures r == CancelledStyle <==> ToString(status) == "cancelled"
    ensures IsNullish(status) ==> r == PendingStyle
  {
    var key := ToString(status);
    if key == "confirmed" then ConfirmedStyle
    else if key == "cancelled" then CancelledStyle
    else PendingStyle
  }

  /** A confirmed or cancelled status shows its own badge; a missing status and
      every other string fall back to the pending badge. */
  lemma StatusBadgeFallback(status: Json)
    ensures status == Str("confirmed") ==> StatusBadge(status) == ConfirmedStyle
    ensures status == Str("cancelled") ==> StatusBadge(status) == CancelledStyle
    ensures status.Str? && status.s != "confirmed" && status.s != "cancelled" ==> StatusBadge(status) == PendingStyle
    ensures IsNullish(status) ==> StatusBadge(status) == PendingStyle
  {
  }

  /** The "Download Orders" button: only for a status that is exactly "confirmed". */
  predicate ShowsDownload(status: Json)
  {
    status == Str("confirmed")
  }

  /** The download button only ever appears beside a confirmed badge. */
  lemma DownloadOnlyWhenConfirmed(status: Json)
    requires ShowsDownload(status)
    ensures StatusBadge(status) == ConfirmedStyle
  {
  }

  /** A booking's displayed id, `booking.id.slice(0, 8)`; a missing or non-sliceable
      id throws. */
  function ShortId(id: Json): (r: Eval<Json>)
    ensures r.Value? ==> (r.value.Str? && |r.value.s| <= 8) || (r.value.Arr? && |r.value.items| <= 8)
  {
    if id.Str? then Value(Str(Take(id.s, 8)))
    else if id.Arr? then Value(Arr(if |id.items| < 8 then id.items else id.items[..8]))
    else TypeError
  }

  /** The header's id, `user?.uid?.slice(0, 8) || "UNREGISTERED"`. */
  function UidDisplay(user: Json): (r: Eval<Json>)
    ensures r.TypeError? <==> !IsNullish(Field(user, "uid")) && !Field(user, "uid").Str? && !Field(user, "uid").Arr?
    ensures r.Value? && r.value.Str? ==> r.value.s == "UNREGISTERED" || |r.value.s| <= 8
    ensures IsNullish(Field(user, "uid")) || Field(user, "uid") == Str("") ==> r == Value(Str("UNREGISTERED"))
  {
    var uid := Field(user, "uid");
    if IsNullish(uid) then Value(Str("UNREGISTERED"))
    else if uid.Str? then Value(Or(Str(Take(uid.s, 8)), Str("UNREGISTERED")))
    else if uid.Arr? then Value(Arr(if |uid.items| < 8 then uid.items else uid.items[..8]))
    else TypeError
  }

  /** Displayed ids are the first eight characters; a missing or empty uid shows
      "UNREGISTERED". */
  lemma DisplayedIdsTruncated(user: Json, id: string)
    ensures ShortId(Str(id)) == Value(Str(Take(id, 8))) && Take(id, 8) <= id
    ensures Field(user, "uid").Str? && Field(user, "uid").s != "" ==>
      UidDisplay(user) == Value(Str(Take(Field(user, "uid").s, 8)))
    ensures IsNullish(Field(user, "uid")) || Field(user, "uid") == Str("") ==>
      UidDisplay(user) == Value(Str("UNREGISTERED"))
  {
  }

  // ---------------------------------------------------------------------------
  // Page state
  // ---------------------------------------------------------------------------

  /** The outcome of one request under `Promise.allSettled`: the response's `data`,
      or a rejection. */
  datatype Settled = Fulfilled(data: Json) | Rejected

  /** The outcome of the update request. */
  datatype Reply = Saved(data: Json) | Failed

  datatype Toast = Loading(message: string) | Success(message: string) | Failure(message: string)

  const EmptyForm := Obj(map["phone" := Str(""), "address" := Str(""), "dob" := Str(""),
                             "aadharNo" := Str(""), "panNo" := Str("")])

  /** The own fields an object spread copies. */
  function Spread(v: Json): map<string, Json>
  {
    if v.Obj? then v.fields else map[]
  }

  class ProfilePage {
    const user: Json
    var loading: bool
    var profileData: Json
    var bookings: seq<Json>
    var isEditing: bool
    var formData: Json
    var toasts: seq<Toast>
    /** The bodies sent to the profile update endpoint, oldest first. */
    var puts: seq<Json>

    /** The first render: loading, no profile, no bookings, an empty form. */
    constructor Mount(user: Json)
      ensures this.user == user && loading && profileData == Null && bookings == []
      ensures !isEditing && formData == EmptyForm && toasts == [] && puts == []
    {
      this.user := user;
      loading := true;
      profileData := Null;
      bookings := [];
      isEditing := false;
      formData := EmptyForm;
      toasts := [];
      puts := [];
    }

    /** `fetchUserData`, resumed with both settled requests (it runs only once a
        user is signed in). The profile and the form take the profile response only
        when it was fulfilled with data; the bookings take the bookings response
        only when it was fulfilled with an array; loading ends either way. */
    method FetchUserData(profileRes: Settled, bookingsRes: Settled)
      requires Truthy(user)
      modifies this`loading, this`profileData, this`formData, this`bookings
      ensures !loading
      ensures profileRes.Fulfilled? && Truthy(profileRes.data) ==>
        profileData == profileRes.data && formData == profileRes.data
      ensures !(profileRes.Fulfilled? && Truthy(profileRes.data)) ==>
        profileData == old(profileData) && formData == old(formData)
      ensures bookingsRes.Fulfilled? && bookingsRes.data.Arr? ==> bookings == bookingsRes.data.items
      ensures !(bookingsRes.Fulfilled? && bookingsRes.data.Arr?) ==> bookings == old(bookings)
    {
      loading := true;
      if profileRes.Fulfilled? && Truthy(profileRes.data) {
        profileData := profileRes.data;
        formData := profileRes.data;
      }
      if bookingsRes.Fulfilled? && bookingsRes.data.Arr? {
        bookings := bookingsRes.data.items;
      }
      loading := false;
    }

    /** "Update Data" opens the editor; the backdrop, the close button and "Cancel"
        close it. */
    method SetEditing(open: bool)
      modifies this`isEditing
      ensures isEditing == open
    {
      isEditing := open;
    }

    /** Typing into one form input: the form keeps its other fields. */
    method EditField(name: string, value: string)
      modifies this`formData
      ensures formData == Obj(Spread(old(formData))[name := Str(value)])
      ensures Field(formData, name) == Str(value)
      ensures forall k :: k != name && k in Spread(old(formData)) ==> Field(formData, k) == Field(old(formData), k)
    {
      formData := Obj(Spread(formData)[name := Str(value)]);
    }

    /** `handleSubmit`: the form is sent as the update body; resumed with the
        reply, a saved reply replaces the profile and closes the editor, and a
        failure changes neither. A loading toast is followed by a success or
        failure one. */
    method HandleSubmit(reply: Reply)
      modifies this`profileData, this`isEditing, this`toasts, this`puts
      ensures puts == old(puts) + [formData]
      ensures reply.Saved? ==>
        (profileData == reply.data && !isEditing
         && toasts == old(toasts) + [Loading("Updating personnel file..."), Success("Data Updated Successfully!")])
      ensures reply.Failed? ==>
        (profileData == old(profileData) && isEditing == old(isEditing)
         && toasts == old(toasts) + [Loading("Updating personnel file..."), Failure("Update Failed")])
    {
      toasts := toasts + [Loading("Updating personnel file...")];
      puts := puts + [formData];
      match reply
      case Saved(data) =>
        profileData := data;
        isEditing := false;
        toasts := toasts + [Success("Data Updated Successfully!")];
      case Failed =>
        toasts := toasts + [Failure("Update Failed")];
    }

    /** The completeness badge as the header shows it. */
    predicate Complete()
      reads this
    {
      IsProfileComplete(profileData)
    }
  }

  /** Loading a profile that has a phone and an Aadhar number, with the bookings
      request rejected, shows a complete profile and no bookings; a failed save
      then leaves the profile complete. */
  method LoadThenFailedSaveScenario() returns (complete: bool, bookingCount: nat, stillComplete: bool)
    ensures complete && bookingCount == 0 && stillComplete
  {
    var page := new ProfilePage.Mount(Obj(map["uid" := Str("u1")]));
    var data := Obj(map["phone" := Str("9876543210"), "aadharNo" := Str("123412341234")]);
    page.FetchUserData(Fulfilled(data), Rejected);
    complete := page.Complete();
    bookingCount := |page.bookings|;
    page.SetEditing(true);
    page.EditField("phone", "");
    page.HandleSubmit(Failed);
    stillComplete := page.Complete();
  }
}
