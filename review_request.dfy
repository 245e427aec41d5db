/** The review-request panel of a project: which view it shows, the review
    types it offers and which one it starts on, the placeholder text, and the
    comment / submitting state the submit handler moves through. */
module ReviewRequest {
  import opened JsValues

  datatype ReviewType = ShippedApproval | ViralApproval | HoursApproval | Other

  /** What the panel renders: nothing, the missing-metadata warning, or the form. */
  datatype View = Hidden | MetadataWarning | RequestForm

  /** A field that holds at least one non-whitespace character. */
  predicate Filled(s: Option<string>)
  {
    s.Some? && exists i :: 0 <= i < |s.value| && !IsWhitespace(s.value[i])
  }

  /** The view for the given props: review mode and an in-review project hide the
      panel before the metadata is looked at. */
  function Gate(isReviewMode: bool, isInReview: bool,
                codeUrl: Option<string>, playableUrl: Option<string>, screenshot: Option<string>): (v: View)
    ensures v == Hidden <==> isReviewMode || isInReview
    ensures v == RequestForm <==>
              !isReviewMode && !isInReview && Filled(codeUrl) && Filled(playableUrl) && Filled(screenshot)
    ensures v == MetadataWarning <==>
              !isReviewMode && !isInReview && !(Filled(codeUrl) && Filled(playableUrl) && Filled(screenshot))
  {
    if isReviewMode || isInReview then Hidden
    else if !(HasText(codeUrl) && HasText(playableUrl) && HasText(screenshot)) then MetadataWarning
    else RequestForm
  }

  /** A project already in review never shows the metadata warning, however
      incomplete its metadata is. */
  lemma InReviewNeverWarns(isReviewMode: bool, playableUrl: Option<string>, screenshot: Option<string>)
    ensures Gate(isReviewMode, true, Some(""), playableUrl, screenshot) == Hidden
    ensures Gate(isReviewMode, true, None, playableUrl, screenshot) == Hidden
  {
  }

  /** A whitespace-only field counts as missing. */
  lemma BlankFieldWarns(codeUrl: string, playableUrl: Option<string>, screenshot: Option<string>)
    requires AllWhitespace(codeUrl)
    ensures Gate(false, false, Some(codeUrl), playableUrl, screenshot) == MetadataWarning
  {
  }

  /** The type the form starts on, and returns to whenever `isShipped` changes. */
  function DefaultReviewType(isShipped: bool): (t: ReviewType)
    ensures t == HoursApproval <==> isShipped
    ensures t == ShippedApproval <==> !isShipped
  {
    if isShipped then HoursApproval else ShippedApproval
  }

  /** The options of the type selector, in display order. */
  function Options(isShipped: bool, isViral: bool): (r: seq<ReviewType>)
    ensures ShippedApproval in r <==> !isShipped
    ensures ViralApproval in r <==> !isViral
    ensures HoursApproval in r <==> isShipped
    ensures Other in r && r[|r| - 1] == Other
  {
    (if !isShipped then [ShippedApproval] else [])
    + (if !isViral then [ViralApproval] else [])
    + (if isShipped then [HoursApproval] else [])
    + [Other]
  }

  /** The default type is always one the selector offers. */
  lemma DefaultIsOffered(isShipped: bool, isViral: bool)
    ensures DefaultReviewType(isShipped) in Options(isShipped, isViral)
  {
  }

  /** No type is offered twice. */
  lemma {:induction false} OptionsAreDistinct(isShipped: bool, isViral: bool)
    ensures forall i, j :: 0 <= i < j < |Options(isShipped, isViral)| ==>
              Options(isShipped, isViral)[i] != Options(isShipped, isViral)[j]
  {
  }

  /** The placeholder of the comment box for the selected type. (The strings are
      written in pieces so that proofs can index them.) */
  function Placeholder(t: ReviewType): (r: string)
    ensures r != ""
  {
    match t
    case ShippedApproval =>
      "Explain why this "
      + "project should be "
      + "approved as "
      + "'shipped'. Include "
      + "any relevant details "
      + "about deployment and "
      + "functionality."
    case ViralApproval =>
      "Explain why this "
      + "project should be "
      + "considered 'viral'. "
      + "Include links to "
      + "social media that "
      + "prove you have met "
      + "one of the "
      + "requirements on "
      + "shipwrecked.hackclub.com/info/go-viral "
      + "(if doing hacker "
      + "news, link "
      + "archive.org snapshot)"
    case HoursApproval =>
      "Provide details about "
      + "the updates you've "
      + "made to this project "
      + "since it was approved "
      + "as shipped. (ex. I "
      + "implemented feature "
      + "X, Y, & Z.) Please "
      + "keep it short & use "
      + "bullets for "
      + "readability."
    case Other =>
      "Specify what you need "
      + "reviewed about this "
      + "project."
  }

  /** Each review type has its own placeholder. */
  lemma PlaceholderInjective(t: ReviewType, u: ReviewType)
    requires t != u
    ensures Placeholder(t) != Placeholder(u)
  {
    assert Placeholder(ShippedApproval)[0] == 'E' && Placeholder(ViralApproval)[0] == 'E';
    assert Placeholder(HoursApproval)[0] == 'P' && Placeholder(Other)[0] == 'S';
    assert Placeholder(ShippedApproval)[35] == 'a' && Placeholder(ViralApproval)[35] == 'c';
  }

  /** The submit button is enabled iff nothing is being submitted and the comment
      has a non-whitespace character. */
  function SubmitEnabled(isSubmitting: bool, comment: string): (enabled: bool)
    ensures enabled <==> !isSubmitting && exists i :: 0 <= i < |comment| && !IsWhitespace(comment[i])
  {
    !isSubmitting && Trim(comment) != ""
  }

  /** The body POSTed to the review-request endpoint. */
  datatype RequestBody = RequestBody(projectID: string, comment: string, reviewType: ReviewType)

  /** The form's state. `sent` lists the requests made, `notified` counts the
      calls of the parent's `onRequestSubmitted`. */
  class ReviewForm {
    const projectID: string
    var isShipped: bool
    var comment: string
    var reviewType: ReviewType
    var isSubmitting: bool
    var sent: seq<RequestBody>
    var notified: nat

    constructor (projectID: string, isShipped: bool)
      ensures this.projectID == projectID && this.isShipped == isShipped
      ensures comment == "" && reviewType == DefaultReviewType(isShipped) && !isSubmitting
      ensures sent == [] && notified == 0
    {
      this.projectID := projectID;
      this.isShipped := isShipped;
      comment := "";
      reviewType := DefaultReviewType(isShipped);
      isSubmitting := false;
      sent := [];
      notified := 0;
    }

    /** A new `isShipped` prop; the effect resets the type only when it changed. */
    method ShippedChanged(shipped: bool)
      modifies this
      ensures isShipped == shipped
      ensures reviewType == if shipped != old(isShipped) then DefaultReviewType(shipped) else old(reviewType)
      ensures comment == old(comment) && isSubmitting == old(isSubmitting)
      ensures sent == old(sent) && notified == old(notified)
    {
      if shipped != isShipped {
        reviewType := DefaultReviewType(shipped);
      }
      isShipped := shipped;
    }

    method EditComment(text: string)
      modifies this`comment
      ensures comment == text
    {
      comment := text;
    }

    method SelectType(t: ReviewType)
      modifies this`reviewType
      ensures reviewType == t
    {
      reviewType := t;
    }

    /** `handleSubmit`. `succeeded` says whether the request, its response status
        and the parsing of its body all succeed. */
    method HandleSubmit(succeeded: bool)
      modifies this
      ensures isShipped == old(isShipped) && reviewType == old(reviewType)
      // a blank comment sends nothing and changes nothing
      ensures Trim(old(comment)) == "" ==>
                && sent == old(sent) && comment == old(comment)
                && notified == old(notified) && isSubmitting == old(isSubmitting)
      // otherwise exactly one request, with the trimmed comment
      ensures Trim(old(comment)) != "" ==>
                && sent == old(sent) + [RequestBody(projectID, Trim(old(comment)), old(reviewType))]
                && !isSubmitting
                && (succeeded ==> comment == "" && notified == old(notified) + 1)
                && (!succeeded ==> comment == old(comment) && notified == old(notified))
    {
      var trimmed := Trim(comment);
      if trimmed == "" {
        return;
      }
      isSubmitting := true;
      sent := sent + [RequestBody(projectID, trimmed, reviewType)];
      if succeeded {
        comment := "";
        notified := notified + 1;
      }
      isSubmitting := false;
    }
  }
}
