/**
 * `src/pages/Subscriptions/PlansPage.tsx`: the plans subscribed in this visit, the breakfast
 * add-on choices, and the subscribe action with its button state.
 */
module Plans {
  import opened Wrappers
  import opened JsStrings
  import opened Notices
  import opened Api

  datatype SubscribedPlan = SubscribedPlan(planId: int, totalPaid: int)

  /** The fields of a plan the subscribe button reads. */
  datatype Plan = Plan(id: int, isActive: bool, canAddBreakfast: bool)

  /** The body of `POST /subscriptions/subscriptions/`. */
  datatype SubscriptionRequest = SubscriptionRequest(plan: int, breakfastIncluded: bool)

  /** `subscribedPlans.some(sp => sp.planId === planId)`. */
  predicate AnySubscribed(plans: seq<SubscribedPlan>, planId: int) {
    exists i :: 0 <= i < |plans| && plans[i].planId == planId
  }

  /** `subscribedPlans.find(sp => sp.planId === planId)?.totalPaid`: the first entry of the plan. */
  function FirstTotalPaid(plans: seq<SubscribedPlan>, planId: int): (r: Option<int>)
    ensures r.None? <==> !AnySubscribed(plans, planId)
    ensures r.Some? ==> exists i :: 0 <= i < |plans| && plans[i] == SubscribedPlan(planId, r.value)
                                   && forall j :: 0 <= j < i ==> plans[j].planId != planId
  {
    if plans == [] then None
    else if plans[0].planId == planId then
      assert plans[0] == SubscribedPlan(planId, plans[0].totalPaid);
      Some(plans[0].totalPaid)
    else
      var r := FirstTotalPaid(plans[1..], planId);
      assert AnySubscribed(plans[1..], planId) ==> AnySubscribed(plans, planId) by {
        if AnySubscribed(plans[1..], planId) {
          var i :| 0 <= i < |plans[1..]| && plans[1..][i].planId == planId;
          assert plans[i + 1].planId == planId;
        }
      }
      if r.Some? then
        var i :| 0 <= i < |plans[1..]| && plans[1..][i] == SubscribedPlan(planId, r.value)
                 && forall j :: 0 <= j < i ==> plans[1..][j].planId != planId;
        assert plans[i + 1] == SubscribedPlan(planId, r.value);
        assert forall j :: 0 <= j < i + 1 ==> plans[j].planId != planId by {
          forall j | 0 < j < i + 1 ensures plans[j].planId != planId {
            assert plans[j] == plans[1..][j - 1];
          }
        }
        r
      else r
  }

  /** Appending an entry keeps every plan's first entry, so the total shown for a plan never changes. */
  lemma {:induction false} FirstTotalPaidAppend(plans: seq<SubscribedPlan>, entry: SubscribedPlan, planId: int)
    ensures FirstTotalPaid(plans + [entry], planId) ==
              if AnySubscribed(plans, planId) then FirstTotalPaid(plans, planId)
              else if entry.planId == planId then Some(entry.totalPaid)
              else None
  {
    if plans != [] {
      assert (plans + [entry])[1..] == plans[1..] + [entry];
      FirstTotalPaidAppend(plans[1..], entry, planId);
    } else {
      assert plans + [entry] == [entry];
    }
  }

  const SubscribedNotice := Notice(Success, "Subscribed", "You have successfully subscribed to this plan.")

  function SubscribeFailedNotice(e: HttpError): Notice {
    Notice(Error, "Subscription Failed", Or(e.detail, "Could not subscribe to this plan."))
  }

  const SubscriptionsEndpoint := "/subscriptions/subscriptions/"

  class PlansPage {
    var subscribing: Option<int>
    var subscribedPlans: seq<SubscribedPlan>
    var breakfastSelections: map<int, bool>
    const notifier: Notifier
    const api: Client

    constructor (notifier: Notifier, api: Client)
      ensures subscribing == None && subscribedPlans == [] && breakfastSelections == map[]
      ensures this.notifier == notifier && this.api == api
    {
      subscribing := None;
      subscribedPlans := [];
      breakfastSelections := map[];
      this.notifier := notifier;
      this.api := api;
    }

    predicate IsPlanSubscribed(planId: int)
      reads this
    {
      AnySubscribed(subscribedPlans, planId)
    }

    function GetTotalPaid(planId: int): Option<int>
      reads this
    {
      FirstTotalPaid(subscribedPlans, planId)
    }

    /** `breakfastSelections[planId] || false`: an absent entry reads as no breakfast. */
    predicate BreakfastSelected(planId: int)
      reads this
    {
      planId in breakfastSelections && breakfastSelections[planId]
    }

    /** `disabled={subscribing === plan.id || subscribed || !plan.is_active}`. */
    predicate SubscribeDisabled(plan: Plan)
      reads this
    {
      subscribing == Some(plan.id) || IsPlanSubscribed(plan.id) || !plan.isActive
    }

    /** `handleBreakfastChange`: only this plan's choice changes. */
    method HandleBreakfastChange(planId: int, value: bool)
      modifies this`breakfastSelections
      ensures breakfastSelections == old(breakfastSelections)[planId := value]
      ensures BreakfastSelected(planId) == value
      ensures forall p :: p != planId ==> BreakfastSelected(p) == old(BreakfastSelected(p))
    {
      breakfastSelections := breakfastSelections[planId := value];
    }

    /**
     * `handleSubscribe`; `outcome` is how the request settles, carrying the `total_paid` of the
     * response when there is one.
     */
    method HandleSubscribe(planId: int, outcome: Response<Option<int>>) returns (sent: SubscriptionRequest)
      modifies this`subscribing, this`subscribedPlans, notifier, api
      ensures sent == SubscriptionRequest(planId, old(BreakfastSelected(planId)))
      ensures subscribing == None
      ensures api.State() == AfterCall(old(api.State()), outcome)
      ensures api.sent == old(api.sent) + [Request(SubscriptionsEndpoint, SentAuthorization(old(api.State())))]
      ensures outcome.Ok? ==>
                && subscribedPlans == old(subscribedPlans) + [SubscribedPlan(planId, outcome.data.GetOr(0))]
                && notifier.log == old(notifier.log) + [SubscribedNotice]
      ensures outcome.Fail? ==>
                subscribedPlans == old(subscribedPlans) && notifier.log == old(notifier.log) + [SubscribeFailedNotice(outcome.error)]
    {
      subscribing := Some(planId);
      sent := SubscriptionRequest(planId, BreakfastSelected(planId));
      var response := api.Call(SubscriptionsEndpoint, outcome);
      if response.Ok? {
        subscribedPlans := subscribedPlans + [SubscribedPlan(planId, response.data.GetOr(0))];
        notifier.Add(SubscribedNotice);
      } else {
        notifier.Add(SubscribeFailedNotice(response.error));
      }
      subscribing := None;
    }
  }

  /** After a successful subscribe the plan counts as subscribed and its button is disabled. */
  lemma SubscribedAfterAppend(plans: seq<SubscribedPlan>, planId: int, totalPaid: int)
    ensures AnySubscribed(plans + [SubscribedPlan(planId, totalPaid)], planId)
    ensures !AnySubscribed(plans, planId) ==>
              FirstTotalPaid(plans + [SubscribedPlan(planId, totalPaid)], planId) == Some(totalPaid)
  {
    var l := plans + [SubscribedPlan(planId, totalPaid)];
    assert l[|plans|].planId == planId;
    FirstTotalPaidAppend(plans, SubscribedPlan(planId, totalPaid), planId);
  }
}
