/** The subscription plans, the plan lookup and the plan-limit check. */
module Plans {
  import opened Wrappers

  datatype PlanConfig = PlanConfig(
    id: string,
    name: string,
    description: string,
    priceMonthly: int,
    stripePriceId: string,
    seats: int,
    successFee: int,
    leadLimit: Option<int>,
    automationLimit: Option<int>)

  /** PLANS, with each price id at its built-in default. */
  const Plans: seq<PlanConfig> := [
    PlanConfig("starter", "Starter", "Perfect for individual contractors.",
               198, "price_1SZlSu05lmCbSdUDPIHc0nJ9", 1, 88, Some(500), Some(5)),
    PlanConfig("pro", "Pro", "For growing teams with multiple reps.",
               498, "price_1SZlTR05lmCbSdUD5mXIwLWi", 5, 68, Some(2000), None),
    PlanConfig("agency", "Agency", "For scaling businesses & multi-location operations.",
               1198, "price_1SZlTy05lmCbSdUDsT2Pv4EX", 10, 48, None, None)
  ]

  /** The plan ids are distinct, so each id names one plan. */
  lemma PlanIdsDistinct()
    ensures |Plans| == 3
    ensures forall i, j :: 0 <= i < j < |Plans| ==> Plans[i].id != Plans[j].id
  {
  }

  /** Later plans cost more per month and charge a smaller fee per accepted proposal, and have more seats. */
  lemma PlansOrdered()
    ensures forall i, j :: 0 <= i < j < |Plans| ==>
      Plans[i].priceMonthly < Plans[j].priceMonthly && Plans[i].successFee > Plans[j].successFee
      && Plans[i].seats < Plans[j].seats
  {
  }

  /** `plans.find(p => p.id === id)` */
  function Find(plans: seq<PlanConfig>, id: Option<string>): (r: Option<PlanConfig>)
    ensures r.Some? ==> r.value in plans && id == Some(r.value.id)
    ensures r.Some? ==> exists i :: 0 <= i < |plans| && plans[i] == r.value
                                    && forall j :: 0 <= j < i ==> Some(plans[j].id) != id
    ensures r.None? <==> forall p :: p in plans ==> Some(p.id) != id
  {
    if plans == [] then None
    else if Some(plans[0].id) == id then
      assert plans[0] == plans[0];
      Some(plans[0])
    else
      var r := Find(plans[1..], id);
      assert forall p :: p in plans ==> p == plans[0] || p in plans[1..];
      if r.Some? then
        var i :| 0 <= i < |plans[1..]| && plans[1..][i] == r.value
                 && forall j :: 0 <= j < i ==> Some(plans[1..][j].id) != id;
        assert plans[i + 1] == r.value;
        assert forall j :: 1 <= j < i + 1 ==> plans[j] == plans[1..][j - 1];
        r
      else r
  }

  /** getPlanConfig: the plan with this id, or the starter plan for an unknown or missing id. */
  function GetPlanConfig(id: Option<string>): (p: PlanConfig)
    ensures p in Plans
    ensures (exists q :: q in Plans && Some(q.id) == id) ==> Some(p.id) == id
    ensures (forall q :: q in Plans ==> Some(q.id) != id) ==> p == Plans[0]
  {
    match Find(Plans, id)
    case Some(q) => q
    case None => Plans[0]
  }

  lemma GetPlanConfigExamples()
    ensures GetPlanConfig(Some("pro")).priceMonthly == 498
    ensures GetPlanConfig(Some("enterprise")).id == "starter"
    ensures GetPlanConfig(None).id == "starter"
  {
    assert Plans[1].id == "pro";
  }

  datatype Usage = Usage(leads: int, automations: int)

  datatype LimitCheck = LimitCheck(
    canAddLead: bool,
    canAddAutomation: bool,
    leadsRemaining: Option<int>,
    automationsRemaining: Option<int>)

  /** One limit: whether one more is allowed, and how many remain (no limit: always, and no count). */
  function CheckLimit(limit: Option<int>, current: int): (r: (bool, Option<int>))
    ensures limit.None? ==> r.0 && r.1.None?
    ensures limit.Some? ==> (r.0 <==> current < limit.value)
    ensures limit.Some? ==>
              (r.1.Some? && r.1.value >= 0
               && r.1.value == (if limit.value - current > 0 then limit.value - current else 0))
    ensures limit.Some? ==> (r.1.value > 0 <==> r.0)
  {
    if limit.None? then (true, None)
    else
      var remaining := if 0 >= limit.value - current then 0 else limit.value - current;
      (current < limit.value, Some(remaining))
  }

  /** checkLimits */
  function CheckLimits(plan: PlanConfig, current: Usage): (r: LimitCheck)
    ensures (r.canAddLead, r.leadsRemaining) == CheckLimit(plan.leadLimit, current.leads)
    ensures (r.canAddAutomation, r.automationsRemaining) == CheckLimit(plan.automationLimit, current.automations)
  {
    var lead := CheckLimit(plan.leadLimit, current.leads);
    var automation := CheckLimit(plan.automationLimit, current.automations);
    LimitCheck(lead.0, automation.0, lead.1, automation.1)
  }

  /** The lead figures do not depend on the automation count, nor the automation figures on the lead count. */
  lemma LimitsIndependent(plan: PlanConfig, u: Usage, v: Usage)
    ensures u.leads == v.leads ==>
      CheckLimits(plan, u).canAddLead == CheckLimits(plan, v).canAddLead
      && CheckLimits(plan, u).leadsRemaining == CheckLimits(plan, v).leadsRemaining
    ensures u.automations == v.automations ==>
      CheckLimits(plan, u).canAddAutomation == CheckLimits(plan, v).canAddAutomation
      && CheckLimits(plan, u).automationsRemaining == CheckLimits(plan, v).automationsRemaining
  {
  }

  /** The agency plan is never limited; a starter account at 500 leads cannot add one more. */
  lemma LimitExamples(u: Usage)
    ensures CheckLimits(GetPlanConfig(Some("agency")), u) == LimitCheck(true, true, None, None)
    ensures !CheckLimits(GetPlanConfig(Some("starter")), Usage(500, 0)).canAddLead
  {
    assert Plans[2].id == "agency";
  }
}
