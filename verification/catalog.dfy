/** The service catalog and the plan lookups of broker/utils.go. */
module Catalog {
  import opened Outcomes
  import opened GoConv

  /**
   * The plan metadata entry `quotaMB`: a string, or anything the `.(string)` type
   * assertion rejects (no metadata, no such key, a value of another type).
   */
  datatype QuotaMeta = QuotaText(text: string) | NotAString

  datatype Plan = Plan(id: string, name: string, quotaMB: QuotaMeta)

  datatype Service = Service(id: string, name: string, plans: seq<Plan>)

  /**
   * Why a lookup gives no quota. `NoServices` and `QuotaNotString` are Go panics
   * (an index out of range, a failed type assertion); the others are returned errors.
   */
  datatype PlanError = NoServices | PlanNotFound(planId: string) | QuotaNotString(planId: string) | QuotaNotInteger(text: string) {
    predicate IsPanic() {
      NoServices? || QuotaNotString?
    }
  }

  /** The position of the first plan with the given id, or -1. */
  function PlanIndex(plans: seq<Plan>, planId: string): (i: int)
    ensures -1 <= i < |plans|
    ensures i >= 0 ==> plans[i].id == planId && forall j :: 0 <= j < i ==> plans[j].id != planId
    ensures i == -1 ==> forall j :: 0 <= j < |plans| ==> plans[j].id != planId
    decreases |plans|
  {
    if |plans| == 0 then -1
    else if plans[0].id == planId then 0
    else
      var k := PlanIndex(plans[1..], planId);
      if k < 0 then -1 else k + 1
  }

  /** `getPlan`: only the first service's plans are searched; the first match wins. */
  function GetPlan(catalog: seq<Service>, planId: string): (r: Result<Plan, PlanError>)
    ensures |catalog| == 0 <==> r == Err(NoServices)
    ensures r.Ok? ==> r.value in catalog[0].plans && r.value.id == planId
    ensures r.Ok? ==> exists i :: 0 <= i < |catalog[0].plans| && catalog[0].plans[i] == r.value
                                    && forall j :: 0 <= j < i ==> catalog[0].plans[j].id != planId
    ensures |catalog| > 0 ==> (r == Err(PlanNotFound(planId)) <==> forall p :: p in catalog[0].plans ==> p.id != planId)
  {
    if |catalog| == 0 then Err(NoServices)
    else
      var i := PlanIndex(catalog[0].plans, planId);
      if i < 0 then Err(PlanNotFound(planId)) else Ok(catalog[0].plans[i])
  }

  /** `getPlanQuota`: the plan's `quotaMB` parsed with `strconv.Atoi`. */
  function GetPlanQuota(catalog: seq<Service>, planId: string): (r: Result<int, PlanError>)
    ensures r.Ok? <==> GetPlan(catalog, planId).Ok? && GetPlan(catalog, planId).value.quotaMB.QuotaText?
                       && Atoi(GetPlan(catalog, planId).value.quotaMB.text).Some?
    ensures r.Ok? ==> r.value == Atoi(GetPlan(catalog, planId).value.quotaMB.text).value && IsInt64(r.value)
    ensures GetPlan(catalog, planId).Err? ==> r == Err(GetPlan(catalog, planId).error)
  {
    var p :- GetPlan(catalog, planId);
    match p.quotaMB
    case NotAString => Err(QuotaNotString(planId))
    case QuotaText(t) =>
      match Atoi(t)
      case None => Err(QuotaNotInteger(t))
      case Some(q) => Ok(q)
  }

  /** A plan whose `quotaMB` is the decimal text of a 64-bit integer yields that integer. */
  lemma PlanQuotaOfPrintedNumber(catalog: seq<Service>, planId: string, q: int)
    requires GetPlan(catalog, planId).Ok? && GetPlan(catalog, planId).value.quotaMB == QuotaText(Itoa(q))
    requires IsInt64(q)
    ensures GetPlanQuota(catalog, planId) == Ok(q)
  {
    AtoiItoa(q);
  }
}
