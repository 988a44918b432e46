/**
 * The subscription plan table of the backend and the lookups built on it. A limit of -1
 * stands for "unlimited"; a feature missing from a plan counts as limit 0. Prices are exact
 * reals here, where the source uses binary floating point.
 */
module SubscriptionPlans {
  import opened Wrappers

  datatype BillingCycle = Monthly | Yearly

  datatype Plan = Plan(
    id: string,
    name: string,
    price: real,
    description: string,
    features: seq<string>,
    limits: map<string, int>,
    billingCycles: seq<BillingCycle>)

  /** The seven metered features every plan lists a limit for. */
  const PlanFeatureKeys: set<string> :=
    {"resume_analysis", "ai_chat", "job_matching", "resume_rewrite", "cover_letter", "image_generation", "voice_assistant"}

  /** A limit map giving every metered feature the limit -1. */
  const AllUnlimited: map<string, int> := map[
    "resume_analysis" := -1, "resume_rewrite" := -1, "cover_letter" := -1, "job_matching" := -1,
    "image_generation" := -1, "ai_chat" := -1, "voice_assistant" := -1]

  const FreePlan := Plan("free", "Free", 0.0, "Basic career tools to get started",
    ["3 Resume Analysis per month", "Basic AI chat (5 per month)", "Community support", "Basic job matching (3 per month)"],
    map["resume_analysis" := 3, "ai_chat" := 5, "job_matching" := 3, "resume_rewrite" := 0,
        "cover_letter" := 0, "image_generation" := 0, "voice_assistant" := 0],
    [Monthly])

  const PlusPlan := Plan("plus", "Plus", 599.0, "Advanced career optimization tools",
    ["Resume Analysis + Rewriting (45 times)", "Cover Letter Generation with Job Description (45 times)",
     "Job Matching (50 times per month)", "Image Generation", "Daily News Updates", "Voice Assistant",
     "Advanced AI chat (100 per month)", "Email support"],
    map["resume_analysis" := 45, "resume_rewrite" := 45, "cover_letter" := 45, "job_matching" := 50,
        "image_generation" := 20, "ai_chat" := 100, "voice_assistant" := 50],
    [Monthly])

  const ProPlan := Plan("pro", "Pro", 1399.0, "Complete career optimization suite",
    ["Everything in Plus", "Unlimited Resume Analysis", "Unlimited Resume Rewriting",
     "Unlimited Cover Letter Generation", "Unlimited Job Matching", "Unlimited Image Generation",
     "Unlimited AI Chats", "Advanced Voice Assistant", "Priority support", "All features unlocked"],
    AllUnlimited,
    [Monthly])

  const BusinessPlan := Plan("business", "Business", 1999.0, "Enterprise-grade career optimization for teams",
    ["Everything in Pro", "Team Management", "Advanced Security & Compliance", "Priority Support",
     "Custom Integrations", "Enterprise Analytics", "All features unlimited"],
    AllUnlimited,
    [Monthly])

  /** `SUBSCRIPTION_PLANS`, in the dictionary's order. */
  const SubscriptionPlans: seq<Plan> := [FreePlan, PlusPlan, ProPlan, BusinessPlan]

  /** The search of `get_plan`: the first plan in `plans` with the given id, if any. */
  function FindPlan(plans: seq<Plan>, planId: string): (r: Option<Plan>)
    ensures r.None? <==> forall i :: 0 <= i < |plans| ==> plans[i].id != planId
    ensures r.Some? ==> exists i :: 0 <= i < |plans| && plans[i] == r.value && r.value.id == planId
                                    && forall j :: 0 <= j < i ==> plans[j].id != planId
  {
    if |plans| == 0 then None
    else if plans[0].id == planId then Some(plans[0])
    else
      var r := FindPlan(plans[1..], planId);
      if r.Some? then
        var i :| 0 <= i < |plans| - 1 && plans[1..][i] == r.value && r.value.id == planId
                 && forall j :: 0 <= j < i ==> plans[1..][j].id != planId;
        assert plans[i + 1] == r.value && forall j :: 0 <= j < i + 1 ==> plans[j].id != planId;
        r
      else r
  }

  /** `get_plan` */
  function GetPlan(planId: string): (r: Option<Plan>)
    ensures r.Some? ==> r.value in SubscriptionPlans && r.value.id == planId
  {
    FindPlan(SubscriptionPlans, planId)
  }

  /** The plan ids are exactly the four table entries, each found under its own id. */
  lemma GetPlanTable(planId: string)
    ensures GetPlan(planId) ==
      if planId == "free" then Some(FreePlan)
      else if planId == "plus" then Some(PlusPlan)
      else if planId == "pro" then Some(ProPlan)
      else if planId == "business" then Some(BusinessPlan)
      else None
  {
    var p := SubscriptionPlans;
    assert p[1..] == [PlusPlan, ProPlan, BusinessPlan] && p[2..] == [ProPlan, BusinessPlan];
    assert p[3..] == [BusinessPlan] && p[4..] == [];
    assert FindPlan(p[4..], planId) == None;
    assert FindPlan(p[3..], planId) == if planId == "business" then Some(BusinessPlan) else None by {
      assert p[3..][1..] == p[4..];
    }
    assert FindPlan(p[2..], planId) == if planId == "pro" then Some(ProPlan) else FindPlan(p[3..], planId) by {
      assert p[2..][1..] == p[3..];
    }
    assert FindPlan(p[1..], planId) == if planId == "plus" then Some(PlusPlan) else FindPlan(p[2..], planId) by {
      assert p[1..][1..] == p[2..];
    }
  }

  /** `get_plan_price`: 0 for an unknown plan, the monthly price, or twelve months less 20% per year. */
  function GetPlanPrice(planId: string, cycle: BillingCycle): (price: real)
    ensures GetPlan(planId).None? ==> price == 0.0
    ensures GetPlan(planId).Some? && cycle == Monthly ==> price == GetPlan(planId).value.price
    ensures GetPlan(planId).Some? && cycle == Yearly ==> price == GetPlan(planId).value.price * 9.6
  {
    match GetPlan(planId)
    case None => 0.0
    case Some(plan) => if cycle == Yearly then plan.price * 12.0 * 0.8 else plan.price
  }

  /** A yearly subscription never costs more than twelve monthly ones. */
  lemma YearlyIsCheaper(planId: string)
    ensures GetPlanPrice(planId, Yearly) <= 12.0 * GetPlanPrice(planId, Monthly)
  {
    GetPlanTable(planId);
  }

  /** The limit a plan sets for a feature, 0 for a feature it does not list. */
  function LimitOf(plan: Plan, feature: string): int {
    if feature in plan.limits then plan.limits[feature] else 0
  }

  /** `get_plan_limit`: 0 for an unknown plan or an unlisted feature. */
  function GetPlanLimit(planId: string, feature: string): (limit: int)
    ensures GetPlan(planId).None? ==> limit == 0
    ensures GetPlan(planId).Some? ==> limit == LimitOf(GetPlan(planId).value, feature)
  {
    match GetPlan(planId)
    case None => 0
    case Some(plan) => LimitOf(plan, feature)
  }

  /** `is_feature_unlimited` */
  predicate IsFeatureUnlimited(planId: string, feature: string)
    ensures IsFeatureUnlimited(planId, feature) ==> GetPlan(planId).Some?
  {
    GetPlanLimit(planId, feature) == -1
  }

  /** Unlimited features are exactly the metered ones of "pro" and "business". */
  lemma UnlimitedTable(planId: string, feature: string)
    ensures IsFeatureUnlimited(planId, feature) <==> (planId == "pro" || planId == "business") && feature in PlanFeatureKeys
  {
    GetPlanTable(planId);
    var limit := GetPlanLimit(planId, feature);
    if planId == "free" {
      FreeLimitsNonNegative(feature);
    } else if planId == "plus" {
      PlusLimitsNonNegative(feature);
    } else if planId == "pro" || planId == "business" {
      assert limit == LimitOf(Plan(planId, "", 0.0, "", [], AllUnlimited, []), feature);
    }
  }

  lemma FreeLimitsNonNegative(feature: string)
    ensures LimitOf(FreePlan, feature) >= 0
  {
  }

  lemma PlusLimitsNonNegative(feature: string)
    ensures LimitOf(PlusPlan, feature) >= 0
  {
  }

  /** Every plan lists the same seven features, with limits of -1 or more. */
  lemma PlansShareFeatureKeys()
    ensures forall i :: 0 <= i < |SubscriptionPlans| ==> SubscriptionPlans[i].limits.Keys == PlanFeatureKeys
    ensures forall i, f :: 0 <= i < |SubscriptionPlans| && f in SubscriptionPlans[i].limits ==> SubscriptionPlans[i].limits[f] >= -1
  {
  }

  /** `get_plan_features`: the plan's feature blurbs, empty for an unknown plan. */
  function GetPlanFeatures(planId: string): (features: seq<string>)
    ensures GetPlan(planId).None? ==> features == []
    ensures GetPlan(planId).Some? ==> features == GetPlan(planId).value.features
  {
    match GetPlan(planId)
    case None => []
    case Some(plan) => plan.features
  }

  /** `get_plan_limits`: the plan's limit table, empty for an unknown plan. */
  function GetPlanLimits(planId: string): (limits: map<string, int>)
    ensures GetPlan(planId).None? ==> limits == map[]
    ensures GetPlan(planId).Some? ==> limits.Keys == PlanFeatureKeys
    ensures GetPlan(planId).Some? ==> limits == GetPlan(planId).value.limits
    ensures forall f :: f in limits ==> limits[f] == GetPlanLimit(planId, f)
  {
    match GetPlan(planId)
    case None => map[]
    case Some(plan) => plan.limits
  }

  /** `validate_plan_access`: false for an unknown plan, true when unlimited, else usage below the limit. */
  function ValidatePlanAccess(planId: string, feature: string, currentUsage: int): (ok: bool)
    ensures GetPlan(planId).None? ==> !ok
    ensures GetPlan(planId).Some? && GetPlanLimit(planId, feature) == -1 ==> ok
    ensures GetPlan(planId).Some? && GetPlanLimit(planId, feature) != -1 ==> (ok <==> currentUsage < GetPlanLimit(planId, feature))
  {
    match GetPlan(planId)
    case None => false
    case Some(plan) =>
      var limit := LimitOf(plan, feature);
      if limit == -1 then true else currentUsage < limit
  }

  /** `get_remaining_usage`: 0 for an unknown plan, -1 when unlimited, else the non-negative rest. */
  function GetRemainingUsage(planId: string, feature: string, currentUsage: int): (remaining: int)
    ensures remaining >= -1
    ensures remaining == -1 <==> IsFeatureUnlimited(planId, feature)
    ensures GetPlan(planId).None? ==> remaining == 0
    ensures GetPlan(planId).Some? && !IsFeatureUnlimited(planId, feature) ==>
      remaining == Max(0, GetPlanLimit(planId, feature) - currentUsage)
  {
    match GetPlan(planId)
    case None => 0
    case Some(plan) =>
      var limit := LimitOf(plan, feature);
      if limit == -1 then -1 else Max(0, limit - currentUsage)
  }

  /** For a known plan, access is granted exactly when the remaining usage is unlimited or positive. */
  lemma AccessAgreesWithRemaining(planId: string, feature: string, currentUsage: int)
    requires GetPlan(planId).Some?
    ensures ValidatePlanAccess(planId, feature, currentUsage) <==>
      (GetRemainingUsage(planId, feature, currentUsage) == -1 || GetRemainingUsage(planId, feature, currentUsage) > 0)
  {
  }

  /** An unknown plan grants nothing and has nothing left. */
  lemma UnknownPlanGrantsNothing(planId: string, feature: string, currentUsage: int)
    requires GetPlan(planId).None?
    ensures !ValidatePlanAccess(planId, feature, currentUsage) && GetRemainingUsage(planId, feature, currentUsage) == 0
  {
  }
}
