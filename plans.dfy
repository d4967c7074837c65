/**
 * The pricing table of utils/constant.ts and the lookup `pricingPlans.find(...)`
 * that the upload limit uses to decide whether a subscriber is on the pro plan.
 */
module Plans {
  import opened Wrappers

  datatype Plan = Plan(
    id: string,
    name: string,
    description: string,
    price: nat,
    items: seq<string>,
    paymentLink: string,
    priceId: string)

  const BasicPriceId: string := "price_1RiXAAFKFEDTLG9rfn3BuE2W"
  const ProPriceId: string := "price_1RiXAAFKFEDTLG9rP09lWaVa"

  const Basic: Plan := Plan(
    "basic",
    "Basic",
    "Perfect for occasional use",
    9,
    ["5 summaries per month", "Standard Processing Speed", "Email Support"],
    "https://buy.stripe.com/test_9B628r0wt1eW8YVbHC97G00",
    BasicPriceId)

  const Pro: Plan := Plan(
    "pro",
    "Pro",
    "For professionals and teams",
    19,
    ["Unlimited PDF summaries", "Priority processing", "24/7 priority support", "Markdown Export"],
    "https://buy.stripe.com/test_8x27sLbb78Ho4IFbHC97G01",
    ProPriceId)

  /** `pricingPlans`, in table order. */
  const PricingPlans: seq<Plan> := [Basic, Pro]

  /**
   * `plans.find((plan) => plan.priceId === key)`: the first plan whose price id is `key`.
   * A null key (None) equals no plan's price id, which is always a string.
   */
  function Find(plans: seq<Plan>, key: Option<string>): (r: Option<Plan>)
    ensures r.Some? ==> r.value in plans && key == Some(r.value.priceId)
    ensures r.None? <==> forall i :: 0 <= i < |plans| ==> key != Some(plans[i].priceId)
    ensures r.Some? ==> exists i :: 0 <= i < |plans| && plans[i] == r.value
                          && forall j :: 0 <= j < i ==> key != Some(plans[j].priceId)
  {
    if plans == [] then None
    else if key == Some(plans[0].priceId) then Some(plans[0])
    else
      var rest := Find(plans[1..], key);
      assert rest.Some? ==> exists i :: 0 <= i < |plans| && plans[i] == rest.value
                              && forall j :: 0 <= j < i ==> key != Some(plans[j].priceId) by {
        if rest.Some? {
          var i :| 0 <= i < |plans[1..]| && plans[1..][i] == rest.value
                   && forall j :: 0 <= j < i ==> key != Some(plans[1..][j].priceId);
          assert plans[i + 1] == rest.value;
          forall j | 0 <= j < i + 1 ensures key != Some(plans[j].priceId) {
            if j > 0 {
              assert plans[j] == plans[1..][j - 1];
            }
          }
        }
      }
      rest
  }

  /**
   * `find(...)?.id === "pro"`: a price id is pro exactly when it is the pro plan's price
   * id; null and unknown ids are not.
   */
  predicate IsPro(priceId: Option<string>)
    ensures IsPro(priceId) <==> priceId == Some(ProPriceId)
  {
    FindInTable(priceId);
    assert Basic.id != "pro" by {
      assert Basic.id[0] != 'p';
    }
    match Find(PricingPlans, priceId)
    case Some(plan) => plan.id == "pro"
    case None => false
  }

  /** The two plans carry different price ids, so each price id finds its own plan. */
  lemma FindInTable(priceId: Option<string>)
    ensures priceId == Some(BasicPriceId) ==> Find(PricingPlans, priceId) == Some(Basic)
    ensures priceId == Some(ProPriceId) ==> Find(PricingPlans, priceId) == Some(Pro)
    ensures priceId != Some(BasicPriceId) && priceId != Some(ProPriceId) ==> Find(PricingPlans, priceId) == None
  {
    assert BasicPriceId[23] != ProPriceId[23];
    var rest := Find(PricingPlans[1..], priceId);
    assert PricingPlans[1..] == [Pro];
  }

}
