/**
 * `src/pages/Leaves/LeavesPage.tsx`: the day count of a leave, the conversion of the request
 * before it is posted, the reset afterwards, and when the request button is offered.
 */
module Leaves {
  import opened Wrappers
  import opened JsStrings
  import opened Notices
  import opened Api

  /** Milliseconds in a day: `1000 * 60 * 60 * 24`. */
  const DayMs := 86400000

  function Abs(x: int): nat {
    if x < 0 then -x else x
  }

  /** `Math.ceil(a / d)` for a non-negative `a`. */
  function CeilDiv(a: nat, d: nat): (c: nat)
    requires d > 0
    ensures c * d >= a
    ensures c > 0 ==> (c - 1) * d < a
  {
    (a + d - 1) / d
  }

  /**
   * `calculateDays` over the two dates as millisecond timestamps: the whole days the span
   * covers, rounded up, plus one for the first day.
   */
  function CalculateDays(start: int, end: int): (days: int)
    ensures days >= 1
    ensures (days - 1) * DayMs >= Abs(end - start)
    ensures days > 1 ==> (days - 2) * DayMs < Abs(end - start)
  {
    CeilDiv(Abs(end - start), DayMs) + 1
  }

  /** The count does not depend on which date is first. */
  lemma CalculateDaysSymmetric(start: int, end: int)
    ensures CalculateDays(start, end) == CalculateDays(end, start)
  {
  }

  /** A one-day leave: the same date twice counts one day. */
  lemma CalculateDaysSameDay(date: int)
    ensures CalculateDays(date, date) == 1
  {
  }

  /** Dates exactly `k` days apart count `k + 1` days. */
  lemma CalculateDaysWholeDays(start: int, k: nat)
    ensures CalculateDays(start, start + k * DayMs) == k + 1
  {
    var a := Abs(start + k * DayMs - start);
    assert a == k * DayMs;
    assert (a + DayMs - 1) / DayMs == k by {
      assert a + DayMs - 1 == k * DayMs + (DayMs - 1);
    }
  }

  /** Any span of a partial day counts as a whole one: `k` days and a bit more count `k + 2`. */
  lemma CalculateDaysPartialDay(start: int, k: nat, extra: int)
    requires 0 < extra < DayMs
    ensures CalculateDays(start, start + k * DayMs + extra) == k + 2
  {
    var a := Abs(start + k * DayMs + extra - start);
    assert a == k * DayMs + extra;
    assert (a + DayMs - 1) / DayMs == k + 1 by {
      assert a + DayMs - 1 == (k + 1) * DayMs + (extra - 1);
    }
  }

  datatype LeaveForm = LeaveForm(subscription: string, leaveStartDate: string, leaveEndDate: string, reason: string)

  /** The body of `POST /subscriptions/leaves/`. */
  datatype LeaveSubmission = LeaveSubmission(subscription: JsInt, leaveStartDate: string, leaveEndDate: string, reason: string)

  const EmptyLeaveForm := LeaveForm("", "", "", "")

  /** `submitData`: the form with the subscription id parsed as an integer. */
  function LeaveSubmitData(f: LeaveForm): (r: LeaveSubmission)
    ensures r.subscription == ParseInt(f.subscription)
    ensures r.leaveStartDate == f.leaveStartDate && r.leaveEndDate == f.leaveEndDate && r.reason == f.reason
  {
    LeaveSubmission(ParseInt(f.subscription), f.leaveStartDate, f.leaveEndDate, f.reason)
  }

  /** The chosen subscription's id is sent as that number. */
  lemma LeaveSubscriptionRoundTrip(f: LeaveForm, id: nat)
    ensures LeaveSubmitData(f.(subscription := DecimalString(id))).subscription == Int(id)
  {
    DecimalStringParses(id);
  }

  /** With no subscription chosen the id is `NaN`, which the request body carries as `null`. */
  lemma UnchosenSubscriptionIsNaN(f: LeaveForm)
    requires f.subscription == ""
    ensures LeaveSubmitData(f).subscription == NaN
  {
    var t := TrimStart(f.subscription);
    assert t == [];
    assert Unsigned(t) == [];
    assert !HexPrefixed([]);
    assert DigitRun([], false) == [];
  }

  const SubmittedNotice := Notice(Success, "Leave Request Submitted", "Your leave request has been submitted for approval")

  function SubmitFailedNotice(e: HttpError): Notice {
    Notice(Error, "Submission Failed", Or(e.detail, "Failed to submit leave request"))
  }

  const LeavesEndpoint := "/subscriptions/leaves/"

  class LeavesPage {
    var showForm: bool
    var formData: LeaveForm
    /** The ids of the subscriptions the last fetch returned. */
    var subscriptions: seq<int>
    /** How many reloads (`fetchData`) have been started. */
    var fetches: nat
    const notifier: Notifier
    const api: Client

    constructor (notifier: Notifier, api: Client)
      ensures !showForm && formData == EmptyLeaveForm && subscriptions == [] && fetches == 0
      ensures this.notifier == notifier && this.api == api
    {
      showForm := false;
      formData := EmptyLeaveForm;
      subscriptions := [];
      fetches := 0;
      this.notifier := notifier;
      this.api := api;
    }

    /** The header's "Request Leave" button is on screen. */
    predicate ShowRequestLeave()
      reads this
    {
      |subscriptions| > 0
    }

    /** A click on "Request Leave": possible, and so effective, only while the button is shown. */
    method RequestLeave()
      modifies this`showForm
      ensures showForm == (old(showForm) || |subscriptions| > 0)
    {
      if ShowRequestLeave() {
        showForm := true;
      }
    }

    /** `handleSubmit`; `outcome` is how the post settles. */
    method HandleSubmit(outcome: Response<()>) returns (sent: LeaveSubmission)
      modifies this`showForm, this`formData, this`fetches, notifier, api
      ensures sent == LeaveSubmitData(old(formData))
      ensures subscriptions == old(subscriptions)
      ensures api.State() == AfterCall(old(api.State()), outcome)
      ensures api.sent == old(api.sent) + [Request(LeavesEndpoint, SentAuthorization(old(api.State())))]
      ensures outcome.Ok? ==>
                && !showForm && formData == EmptyLeaveForm && fetches == old(fetches) + 1
                && notifier.log == old(notifier.log) + [SubmittedNotice]
      ensures outcome.Fail? ==>
                && showForm == old(showForm) && formData == old(formData) && fetches == old(fetches)
                && notifier.log == old(notifier.log) + [SubmitFailedNotice(outcome.error)]
    {
      sent := LeaveSubmitData(formData);
      var response := api.Call(LeavesEndpoint, outcome);
      if response.Ok? {
        notifier.Add(SubmittedNotice);
        showForm := false;
        formData := EmptyLeaveForm;
        fetches := fetches + 1;
      } else {
        notifier.Add(SubmitFailedNotice(response.error));
      }
    }
  }
}
