/** The three subscription tiers and the lookups from a Stripe product or
    price id to a plan, and from a plan to its monthly credits. */
module SubscriptionTiers {
  import opened Wrappers

  datatype Plan = Free | Pro | Creator

  datatype Tier = Tier(plan: Plan, name: string, priceId: Option<string>, productId: Option<string>,
                       credits: nat, price: nat)

  /** SUBSCRIPTION_TIERS, in its declaration order (the order Object.entries visits). */
  const Tiers: seq<Tier> := [
    Tier(Free, "Free", None, None, 15, 0),
    Tier(Pro, "Pro", Some("price_1SjEkV72P9RKFpwCL1IT8GKM"), Some("prod_TgbyCn0X5fiSUa"), 200, 9),
    Tier(Creator, "Creator Pack", Some("price_1SjEki72P9RKFpwC9qKVF2cb"), Some("prod_TgbyxWTWCj1dOv"), 800, 29)
  ]

  function TierOf(p: Plan): (t: Tier)
    ensures t in Tiers && t.plan == p
  {
    match p
    case Free => Tiers[0]
    case Pro => Tiers[1]
    case Creator => Tiers[2]
  }

  /** Which id a lookup compares. */
  datatype IdKind = ProductId | PriceId

  function IdOf(t: Tier, kind: IdKind): Option<string> {
    if kind == ProductId then t.productId else t.priceId
  }

  /** The plan of the first tier whose id of the given kind equals `id`. */
  function FirstMatch(tiers: seq<Tier>, kind: IdKind, id: string): (r: Option<Plan>)
    ensures r.Some? ==> exists t :: t in tiers && t.plan == r.value && IdOf(t, kind) == Some(id)
    ensures r.None? ==> forall t :: t in tiers ==> IdOf(t, kind) != Some(id)
  {
    if tiers == [] then None
    else if IdOf(tiers[0], kind) == Some(id) then Some(tiers[0].plan)
    else FirstMatch(tiers[1..], kind, id)
  }

  /** `if (!id) return 'free'`, then the first match, else 'free'. */
  function PlanById(id: Option<string>, kind: IdKind): (p: Plan)
    ensures id.None? || id == Some("") ==> p == Free
    ensures p != Free ==> id.Some? && IdOf(TierOf(p), kind) == id
    ensures id.Some? && (forall t :: t in Tiers ==> IdOf(t, kind) != id) ==> p == Free
  {
    if id.None? || id.value == "" then Free
    else
      var found := FirstMatch(Tiers, kind, id.value);
      if found.Some? then found.value else Free
  }

  function GetPlanByProductId(productId: Option<string>): (p: Plan)
    ensures productId.None? || productId == Some("") ==> p == Free
    ensures p != Free ==> TierOf(p).productId == productId
  {
    PlanById(productId, ProductId)
  }

  function GetPlanByPriceId(priceId: Option<string>): (p: Plan)
    ensures priceId.None? || priceId == Some("") ==> p == Free
    ensures p != Free ==> TierOf(p).priceId == priceId
  {
    PlanById(priceId, PriceId)
  }

  /** Every paid plan is found again from its own product id and price id. */
  lemma PlanLookupRoundTrip(p: Plan)
    requires p != Free
    ensures GetPlanByProductId(TierOf(p).productId) == p
    ensures GetPlanByPriceId(TierOf(p).priceId) == p
  {
    assert FirstMatch(Tiers, ProductId, TierOf(p).productId.value) == Some(p);
    assert FirstMatch(Tiers, PriceId, TierOf(p).priceId.value) == Some(p);
  }

  /** A product id of one plan is never mistaken for a price id. */
  lemma ProductIdIsNotAPriceId(p: Plan)
    requires p != Free
    ensures GetPlanByPriceId(TierOf(p).productId) == Free
  {
  }

  /** `SUBSCRIPTION_TIERS[plan]?.credits ?? 15`; the fallback never applies to a known plan. */
  function GetCreditsForPlan(plan: Plan): (credits: nat)
    ensures credits == TierOf(plan).credits
    ensures credits == 15 <==> plan == Free
  {
    TierOf(plan).credits
  }

  /** A dearer plan carries more credits. */
  lemma DearerPlansCarryMoreCredits(p: Plan, q: Plan)
    requires TierOf(p).price < TierOf(q).price
    ensures GetCreditsForPlan(p) < GetCreditsForPlan(q)
  {
  }
}
