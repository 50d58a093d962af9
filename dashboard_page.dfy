/**
 * `src/pages/Dashboard/DashboardPage.tsx`: assembling the dashboard figures from the three
 * responses, the quick-stat cards, and which load failures are reported.
 */
module Dashboard {
  import opened Wrappers
  import opened JsStrings
  import opened Notices
  import opened Api
  import opened Lists
  import Payments

  datatype Subscription = Subscription(id: int, daysRemaining: Option<int>)
  datatype FeedbackStats = FeedbackStats(totalFeedback: Option<int>)

  datatype DashboardStats = DashboardStats(
    activeSubscription: Option<Subscription>,
    feedbackStats: FeedbackStats,
    recentPayments: seq<Payments.Payment>,
    upcomingRenewals: seq<Subscription>)

  function Min(a: int, b: int): int { if a < b then a else b }

  /** `setStats({...})` after the three loads: the first subscription, the feedback figures, the first five payments. */
  function AssembleStats(subs: seq<Subscription>, feedback: FeedbackStats, payments: seq<Payments.Payment>): (r: DashboardStats)
    ensures r.activeSubscription == (if subs == [] then None else Some(subs[0]))
    ensures r.feedbackStats == feedback
    ensures |r.recentPayments| == Min(5, |payments|)
    ensures r.recentPayments == payments[..|r.recentPayments|]
    ensures r.upcomingRenewals == []
  {
    DashboardStats(if subs == [] then None else Some(subs[0]), feedback, payments[..Min(5, |payments|)], [])
  }

  /** The "This Month Payments" card: the amounts of the recent payments, whatever their status. */
  function ThisMonthPayments(stats: DashboardStats): int {
    SumOf(stats.recentPayments, Payments.Amount)
  }

  /** Only the first five payments count towards the card, and a failed payment counts as much as a paid one. */
  lemma ThisMonthCountsRecentOnly(payments: seq<Payments.Payment>, later: seq<Payments.Payment>, subs: seq<Subscription>, feedback: FeedbackStats)
    requires |payments| == 5
    ensures ThisMonthPayments(AssembleStats(subs, feedback, payments + later)) == ThisMonthPayments(AssembleStats(subs, feedback, payments))
  {
    var r := AssembleStats(subs, feedback, payments + later);
    assert r.recentPayments == payments;
    assert payments[..5] == payments;
  }

  /**
   * The card is the paid total of the five most recent payments plus the amounts of those that
   * did not succeed: it exceeds the Payments page's total for the same five by those amounts.
   */
  lemma ThisMonthSplitsByStatus(subs: seq<Subscription>, feedback: FeedbackStats, ps: seq<Payments.Payment>)
    ensures var recent := ps[..Min(5, |ps|)];
            ThisMonthPayments(AssembleStats(subs, feedback, ps))
              == Payments.TotalAmount(recent) + SumOf(Filter(recent, Payments.NotSucceeded), Payments.Amount)
  {
    Payments.AllAmountsSplitByStatus(ps[..Min(5, |ps|)]);
  }

  /** A failed payment still counts: the card shows 100 where the paid total is 0. */
  lemma ThisMonthIncludesFailed()
    ensures var ps := [Payments.Payment(1, 100, Payments.FailedStatus)];
            && ThisMonthPayments(AssembleStats([], FeedbackStats(None), ps)) == 100
            && Payments.TotalAmount(ps) == 0
  {
    var ps := [Payments.Payment(1, 100, Payments.FailedStatus)];
    assert ps[..1] == ps;
    assert SumOf(ps, Payments.Amount) == SumOf(ps[..0], Payments.Amount) + 100;
    Payments.NoSuccessNoTotal(ps);
  }

  /** The "Active Subscription" card. */
  function ActiveLabel(stats: DashboardStats): (text: string)
    ensures text == "Active" <==> stats.activeSubscription.Some?
    ensures text == "None" <==> stats.activeSubscription.None?
  {
    if stats.activeSubscription.Some? then "Active" else "None"
  }

  /** The messages of a load failure that mean "nothing to show yet" rather than an error. */
  const KnownEmptyStates: seq<string> := [
    "No active subscription found",
    "No feedback stats found",
    "No payments found",
    "No recent payments found"
  ]

  /** `!msg || !knownEmptyStates.includes(msg)`. */
  predicate ShowLoadError(msg: Option<string>) {
    !Truthy(msg) || msg.value !in KnownEmptyStates
  }

  /** The error notice is suppressed exactly for the four known empty-state messages, and never when there is no message. */
  lemma ShowLoadErrorExactly(msg: Option<string>)
    ensures !ShowLoadError(msg) <==> msg.Some? && msg.value in KnownEmptyStates
    ensures msg.None? ==> ShowLoadError(msg)
  {
    if msg.Some? && msg.value in KnownEmptyStates {
      assert msg.value != "";
    }
  }

  const LoadErrorNotice := Notice(Error, "Error", "Failed to load dashboard data")

  const ActiveSubscriptionEndpoint := "/subscriptions/subscriptions/active/"
  const FeedbackStatsEndpoint := "/feedback/my_stats/"
  const PaymentsEndpoint := "/payments/payments/"

  /** The rejection `Promise.all` reports: the first failing load, in the order the loads are listed. */
  function FirstFailure(a: Response<seq<Subscription>>, b: Response<FeedbackStats>, c: Response<seq<Payments.Payment>>): (e: Option<HttpError>)
    ensures e.None? <==> a.Ok? && b.Ok? && c.Ok?
  {
    if a.Fail? then Some(a.error) else if b.Fail? then Some(b.error) else if c.Fail? then Some(c.error) else None
  }

  class DashboardPage {
    var stats: Option<DashboardStats>
    var loading: bool
    const notifier: Notifier
    const api: Client

    constructor (notifier: Notifier, api: Client)
      ensures stats == None && loading && this.notifier == notifier && this.api == api
    {
      stats := None;
      loading := true;
      this.notifier := notifier;
      this.api := api;
    }

    /**
     * `fetchDashboardData`: the three loads leave together and settle as `subs`, `feedback`
     * and `payments`; with all three in, the figures are set, otherwise a failure is reported
     * unless it is a known empty state.
     */
    method FetchDashboardData(subs: Response<seq<Subscription>>, feedback: Response<FeedbackStats>, payments: Response<seq<Payments.Payment>>)
      modifies this`stats, this`loading, notifier, api
      ensures !loading
      ensures api.sent == old(api.sent) + [
                Request(ActiveSubscriptionEndpoint, SentAuthorization(old(api.State()))),
                Request(FeedbackStatsEndpoint, SentAuthorization(old(api.State()))),
                Request(PaymentsEndpoint, SentAuthorization(old(api.State())))]
      ensures api.State() == AfterCall(AfterCall(AfterCall(old(api.State()), subs), feedback), payments)
      ensures var failure := FirstFailure(subs, feedback, payments);
              && (failure.None? ==>
                    stats == Some(AssembleStats(subs.data, feedback.data, payments.data)) && notifier.log == old(notifier.log))
              && (failure.Some? && ShowLoadError(failure.value.message) ==>
                    stats == old(stats) && notifier.log == old(notifier.log) + [LoadErrorNotice])
              && (failure.Some? && !ShowLoadError(failure.value.message) ==>
                    stats == old(stats) && notifier.log == old(notifier.log))
    {
      api.Issue(ActiveSubscriptionEndpoint);
      api.Issue(FeedbackStatsEndpoint);
      api.Issue(PaymentsEndpoint);
      var a := api.Settle(subs);
      var b := api.Settle(feedback);
      var c := api.Settle(payments);
      var failure := FirstFailure(a, b, c);
      if failure.None? {
        stats := Some(AssembleStats(a.data, b.data, c.data));
      } else if ShowLoadError(failure.value.message) {
        notifier.Add(LoadErrorNotice);
      }
      loading := false;
    }
  }
}
