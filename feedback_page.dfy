/**
 * `src/pages/Feedback/FeedbackPage.tsx`: the normalisation of the feedback form before it is
 * posted, the reset after a successful post, and the star row of a rating.
 */
module Feedback {
  import opened Wrappers
  import opened JsStrings
  import opened Notices
  import opened Api
  import opened Lists

  /** The form as typed; `subscription` is the id string of the chosen `<option>`, or `''`. */
  datatype FeedbackForm = FeedbackForm(
    feedbackType: string, subject: string, message: string, rating: int,
    subscription: string, mealDate: string, mealType: string)

  /** The body of `POST /feedback/`. */
  datatype FeedbackSubmission = FeedbackSubmission(
    feedbackType: string, subject: string, message: string, rating: int,
    subscription: Option<JsInt>, mealDate: Option<string>, mealType: Option<string>)

  const EmptyFeedbackForm := FeedbackForm("general_feedback", "", "", 5, "", "", "")

  /** `submitData`: the empty choices become `null`, the subscription id is parsed, the rest is copied. */
  function SubmitData(f: FeedbackForm): (r: FeedbackSubmission)
    ensures r.feedbackType == f.feedbackType && r.subject == f.subject && r.message == f.message && r.rating == f.rating
    ensures r.subscription.None? <==> f.subscription == ""
    ensures r.subscription.Some? ==> r.subscription.value == ParseInt(f.subscription)
    ensures r.mealDate.None? <==> f.mealDate == ""
    ensures r.mealDate.Some? ==> r.mealDate.value == f.mealDate
    ensures r.mealType.None? <==> f.mealType == ""
    ensures r.mealType.Some? ==> r.mealType.value == f.mealType
  {
    FeedbackSubmission(
      f.feedbackType, f.subject, f.message, f.rating,
      if f.subscription != "" then Some(ParseInt(f.subscription)) else None,
      if f.mealDate != "" then Some(f.mealDate) else None,
      if f.mealType != "" then Some(f.mealType) else None)
  }

  /** Choosing the subscription with id `id` submits exactly that id. */
  lemma SubscriptionIdRoundTrip(f: FeedbackForm, id: nat)
    ensures SubmitData(f.(subscription := DecimalString(id))).subscription == Some(Int(id))
  {
    DecimalStringFacts(id);
    DecimalStringParses(id);
  }

  /** The filled flags of the `n` stars from position `from` on. */
  function Stars(n: nat, from: int, rating: int): (r: seq<bool>)
    ensures |r| == n
    ensures forall i :: 0 <= i < n ==> r[i] == (from + i < rating)
  {
    if n == 0 then [] else [from < rating] + Stars(n - 1, from + 1, rating)
  }

  /** `renderStars`: five stars, star `i` filled exactly when `i < rating`. */
  function RenderStars(rating: int): (r: seq<bool>)
    ensures |r| == 5
    ensures forall i :: 0 <= i < 5 ==> r[i] == (i < rating)
  {
    Stars(5, 0, rating)
  }

  function Clamp(x: int, lo: int, hi: int): int
    requires lo <= hi
  {
    if x < lo then lo else if x > hi then hi else x
  }

  predicate Filled(b: bool) { b }

  lemma {:induction false} StarsFilled(n: nat, from: int, rating: int)
    ensures |Filter(Stars(n, from, rating), Filled)| == Clamp(rating - from, 0, n)
  {
    if n > 0 {
      var s := Stars(n, from, rating);
      assert s[1..] == Stars(n - 1, from + 1, rating);
      StarsFilled(n - 1, from + 1, rating);
    }
  }

  /** The number of filled stars is the rating, clamped to `0..5`. */
  lemma FilledStars(rating: int)
    ensures |Filter(RenderStars(rating), Filled)| == Clamp(rating, 0, 5)
  {
    StarsFilled(5, 0, rating);
  }

  const SubmittedNotice := Notice(Success, "Feedback Submitted", "Your feedback has been submitted successfully!")

  function SubmitFailedNotice(e: HttpError): Notice {
    Notice(Error, "Submission Failed", Or(e.detail, "Failed to submit feedback"))
  }

  const FeedbackEndpoint := "/feedback/"

  class FeedbackPage {
    var showForm: bool
    var formData: FeedbackForm
    /** How many list reloads (`fetchData`) have been started. */
    var fetches: nat
    const notifier: Notifier
    const api: Client

    constructor (notifier: Notifier, api: Client)
      ensures !showForm && formData == EmptyFeedbackForm && fetches == 0
      ensures this.notifier == notifier && this.api == api
    {
      showForm := false;
      formData := EmptyFeedbackForm;
      fetches := 0;
      this.notifier := notifier;
      this.api := api;
    }

    /** `handleSubmit`; `outcome` is how the post settles. */
    method HandleSubmit(outcome: Response<()>) returns (sent: FeedbackSubmission)
      modifies this`showForm, this`formData, this`fetches, notifier, api
      ensures sent == SubmitData(old(formData))
      ensures api.State() == AfterCall(old(api.State()), outcome)
      ensures api.sent == old(api.sent) + [Request(FeedbackEndpoint, SentAuthorization(old(api.State())))]
      ensures outcome.Ok? ==>
                && !showForm && formData == EmptyFeedbackForm && fetches == old(fetches) + 1
                && notifier.log == old(notifier.log) + [SubmittedNotice]
      ensures outcome.Fail? ==>
                && showForm == old(showForm) && formData == old(formData) && fetches == old(fetches)
                && notifier.log == old(notifier.log) + [SubmitFailedNotice(outcome.error)]
    {
      sent := SubmitData(formData);
      var response := api.Call(FeedbackEndpoint, outcome);
      if response.Ok? {
        notifier.Add(SubmittedNotice);
        showForm := false;
        formData := EmptyFeedbackForm;
        fetches := fetches + 1;
      } else {
        notifier.Add(SubmitFailedNotice(response.error));
      }
    }
  }
}
