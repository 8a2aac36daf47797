/** The review dialog (src/components/RatingModal.jsx): a five-star input with a
    hover preview, a comment box and a submit button that posts the review. */
module RatingModal {
  import opened JsValues

  /** Effects the dialog has on the outside world, in order. */
  datatype Effect =
    | ErrorToast(message: string)
    | PostReview(tripId: Json, rating: nat, comment: string)
    | SuccessToast(message: string)
    | CallOnSuccess
    | CallOnClose

  const NoRating := "Please select a star rating!"
  const Posted := "Review posted successfully!"
  const PostFailed := "Failed to submit review."

  /** Star `star` (1 to 5) is lit when it is at most the hovered star, or, with
      nothing hovered, at most the chosen rating. */
  predicate StarLit(star: nat, hover: nat, rating: nat)
  {
    star <= (if hover != 0 then hover else rating)
  }

  /** The lit stars form a prefix of the row: lighting a star lights every star to
      its left; with no preview and no rating none is lit. */
  lemma LitStarsArePrefix(hover: nat, rating: nat)
    ensures forall s, t :: 1 <= s <= t <= 5 && StarLit(t, hover, rating) ==> StarLit(s, hover, rating)
    ensures hover == 0 && rating == 0 ==> forall s :: 1 <= s <= 5 ==> !StarLit(s, hover, rating)
  {
  }

  class Dialog {
    const tripId: Json
    var rating: nat
    var hover: nat
    var comment: string
    var loading: bool
    var effects: seq<Effect>

    /** The star state stays within the five stars. */
    ghost predicate Valid()
      reads this
    {
      rating <= 5 && hover <= 5
    }

    constructor Open(tripId: Json)
      ensures Valid()
      ensures this.tripId == tripId && rating == 0 && hover == 0 && comment == ""
      ensures !loading && effects == []
    {
      this.tripId := tripId;
      rating := 0;
      hover := 0;
      comment := "";
      loading := false;
      effects := [];
    }

    /** Clicking star `star` chooses it as the rating. */
    method ClickStar(star: nat)
      requires Valid() && 1 <= star <= 5
      modifies this`rating
      ensures Valid() && rating == star
    {
      rating := star;
    }

    /** Pointing at star `star` previews it; leaving any star clears the preview. */
    method HoverStar(star: nat)
      requires Valid() && 1 <= star <= 5
      modifies this`hover
      ensures Valid() && hover == star
    {
      hover := star;
    }

    method LeaveStar()
      requires Valid()
      modifies this`hover
      ensures Valid() && hover == 0
    {
      hover := 0;
    }

    method EditComment(text: string)
      requires Valid()
      modifies this`comment
      ensures Valid() && comment == text
    {
      comment := text;
    }

    /** Pressing the (enabled) submit button, up to the post: without a rating only
        an error toast appears; otherwise the dialog starts loading and posts the
        trip, rating and comment. */
    method BeginSubmit()
      requires Valid() && !loading
      modifies this`loading, this`effects
      ensures Valid()
      ensures old(rating) == 0 ==> !loading && effects == old(effects) + [ErrorToast(NoRating)]
      ensures old(rating) != 0 ==>
        (loading && effects == old(effects) + [PostReview(tripId, rating, comment)])
    {
      if rating == 0 {
        effects := effects + [ErrorToast(NoRating)];
        return;
      }
      loading := true;
      effects := effects + [PostReview(tripId, rating, comment)];
    }

    /** The post settles: on success a toast, the parent's refresh when it gave
        one, and the close request; on failure an error toast. Loading ends either
        way. */
    method FinishSubmit(ok: bool, hasOnSuccess: bool)
      requires Valid() && loading
      modifies this`loading, this`effects
      ensures Valid() && !loading
      ensures ok && hasOnSuccess ==> effects == old(effects) + [SuccessToast(Posted), CallOnSuccess, CallOnClose]
      ensures ok && !hasOnSuccess ==> effects == old(effects) + [SuccessToast(Posted), CallOnClose]
      ensures !ok ==> effects == old(effects) + [ErrorToast(PostFailed)]
    {
      if ok {
        effects := effects + [SuccessToast(Posted)];
        if hasOnSuccess {
          effects := effects + [CallOnSuccess];
        }
        effects := effects + [CallOnClose];
      } else {
        effects := effects + [ErrorToast(PostFailed)];
      }
      loading := false;
    }
  }

  /** Whether the dialog renders at all. */
  datatype Render = Hidden | Shown(litStars: seq<bool>, buttonDisabled: bool)

  /** The rendered dialog: nothing when closed; otherwise the lit state of stars 1
      to 5 and whether the submit button is disabled. */
  function RenderDialog(isOpen: bool, hover: nat, rating: nat, loading: bool): (r: Render)
    ensures r.Hidden? <==> !isOpen
    ensures r.Shown? ==>
      (|r.litStars| == 5 && r.buttonDisabled == loading
       && forall i :: 0 <= i < 5 ==> (r.litStars[i] <==> StarLit(i + 1, hover, rating)))
  {
    if !isOpen then Hidden
    else Shown(seq(5, i requires 0 <= i < 5 => StarLit(i + 1, hover, rating)), loading)
  }

  /** A review is posted only with a rating between 1 and 5: submitting without a
      rating posts nothing, and a chosen star is what gets posted. */
  method SubmitScenario() returns (withoutRating: seq<Effect>, withRating: seq<Effect>)
    ensures withoutRating == [ErrorToast(NoRating)]
    ensures withRating == [ErrorToast(NoRating), PostReview(Str("t1"), 4, "great"),
                           SuccessToast(Posted), CallOnClose]
  {
    var d := new Dialog.Open(Str("t1"));
    d.BeginSubmit();
    withoutRating := d.effects;
    d.ClickStar(4);
    d.EditComment("great");
    d.BeginSubmit();
    d.FinishSubmit(true, false);
    withRating := d.effects;
  }
}
