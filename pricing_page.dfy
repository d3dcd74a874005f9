/**
 * The pricing page: the constant plan table (prices in cents), the
 * monthly/yearly selectors, the savings badge, and the subscribe button's
 * handler.
 */
module PricingPage {
  import opened Common
  import Creem

  /** A value given for each billing period. */
  datatype PerPeriod<T> = PerPeriod(monthly: T, yearly: T)

  /** One plan card. Prices are in cents (19.5 dollars is 1950). */
  datatype PricingPlan = PricingPlan(
    id: string,
    name: string,
    description: string,
    monthlyPrice: nat,
    yearlyPrice: nat,
    originalMonthlyPrice: Option<nat>,
    originalYearlyPrice: Option<nat>,
    credits: PerPeriod<nat>,
    images: PerPeriod<nat>,
    popular: bool,
    creemPriceId: PerPeriod<string>)

  const Basic: PricingPlan := PricingPlan(
    "basic", "Basic", "Perfect for individuals and light users",
    1200, 14400, None, Some(18000),
    PerPeriod(200, 2400), PerPeriod(100, 1200), false,
    PerPeriod("price_basic_monthly", "price_basic_yearly"))

  const Pro: PricingPlan := PricingPlan(
    "pro", "Pro", "For professional creators and teams",
    1950, 23400, Some(3900), Some(46800),
    PerPeriod(800, 9600), PerPeriod(400, 4800), true,
    PerPeriod("price_pro_monthly", "price_pro_yearly"))

  const Max: PricingPlan := PricingPlan(
    "max", "Max", "Designed for large enterprises and professional studios",
    8000, 96000, Some(16000), Some(192000),
    PerPeriod(3600, 43200), PerPeriod(1800, 21600), false,
    PerPeriod("price_max_monthly", "price_max_yearly"))

  /** `pricingPlans`, in display order. */
  const PricingPlans: seq<PricingPlan> := [Basic, Pro, Max]

  function Choose<T>(values: PerPeriod<T>, isYearly: bool): T
  {
    if isYearly then values.yearly else values.monthly
  }

  /** `getCurrentPrice` */
  function CurrentPrice(plan: PricingPlan, isYearly: bool): (price: nat)
    ensures isYearly ==> price == plan.yearlyPrice
    ensures !isYearly ==> price == plan.monthlyPrice
  {
    Choose(PerPeriod(plan.monthlyPrice, plan.yearlyPrice), isYearly)
  }

  /** `getOriginalPrice`; the struck-through price shows only when this is truthy. */
  function OriginalPrice(plan: PricingPlan, isYearly: bool): (price: Option<nat>)
    ensures isYearly ==> price == plan.originalYearlyPrice
    ensures !isYearly ==> price == plan.originalMonthlyPrice
  {
    Choose(PerPeriod(plan.originalMonthlyPrice, plan.originalYearlyPrice), isYearly)
  }

  /** `getCredits` */
  function Credits(plan: PricingPlan, isYearly: bool): (credits: nat)
    ensures credits == if isYearly then plan.credits.yearly else plan.credits.monthly
  {
    Choose(plan.credits, isYearly)
  }

  /** `getImages` */
  function Images(plan: PricingPlan, isYearly: bool): (images: nat)
    ensures images == if isYearly then plan.images.yearly else plan.images.monthly
  {
    Choose(plan.images, isYearly)
  }

  /**
   * `Math.round(n / d)` for `d > 0`: the nearest integer, halves rounded
   * up (towards positive infinity, as `Math.round` does).
   */
  function RoundHalfUp(n: int, d: int): (r: int)
    requires d > 0
    ensures (2 * r - 1) * d <= 2 * n < (2 * r + 1) * d
  {
    var q := (2 * n + d) / (2 * d);
    assert 2 * n + d == 2 * d * q + (2 * n + d) % (2 * d);
    q
  }

  /**
   * `getSavingsPercentage`: 0 in monthly mode or without an original
   * yearly price; otherwise the rounded percentage the yearly price is
   * below the original one.
   */
  function SavingsPercentage(plan: PricingPlan, isYearly: bool): (pct: int)
    ensures !isYearly || plan.originalYearlyPrice.None? || plan.originalYearlyPrice == Some(0) ==> pct == 0
    ensures isYearly && plan.originalYearlyPrice.Some? && plan.originalYearlyPrice.value > 0 ==>
      var o := plan.originalYearlyPrice.value;
      (2 * pct - 1) * o <= 200 * (o - plan.yearlyPrice) < (2 * pct + 1) * o
  {
    if !isYearly || plan.originalYearlyPrice.None? || plan.originalYearlyPrice.value == 0 then 0
    else
      var o := plan.originalYearlyPrice.value;
      RoundHalfUp(100 * (o - plan.yearlyPrice), o)
  }

  /** With a positive factor, a product has the sign of the other factor. */
  lemma ProductSign(a: int, o: int)
    requires o > 0
    ensures a * o > 0 ==> a > 0
    ensures a * o <= 0 ==> a <= 0
  {
    if a > 0 {
      assert a * o >= o;
    }
  }

  /** A yearly price between 0 and the original gives a percentage between 0 and 100. */
  lemma SavingsInRange(plan: PricingPlan, isYearly: bool)
    requires plan.originalYearlyPrice.Some? ==> plan.yearlyPrice <= plan.originalYearlyPrice.value
    ensures 0 <= SavingsPercentage(plan, isYearly) <= 100
  {
    var pct := SavingsPercentage(plan, isYearly);
    if isYearly && plan.originalYearlyPrice.Some? && plan.originalYearlyPrice.value > 0 {
      var o := plan.originalYearlyPrice.value;
      var n := 200 * (o - plan.yearlyPrice);
      assert 0 <= n <= 200 * o;
      assert (2 * pct + 1) * o > 0;
      ProductSign(2 * pct + 1, o);
      assert (2 * pct - 201) * o == (2 * pct - 1) * o - 200 * o;
      ProductSign(2 * pct - 201, o);
    }
  }

  /** The badges the table shows: 20%, 50% and 50% off in yearly mode, nothing in monthly mode. */
  lemma SavingsTable()
    ensures SavingsPercentage(Basic, true) == 20
    ensures SavingsPercentage(Pro, true) == 50
    ensures SavingsPercentage(Max, true) == 50
    ensures forall p :: p in PricingPlans ==> SavingsPercentage(p, false) == 0
  {
    assert RoundHalfUp(100 * (18000 - 14400), 18000) == 20;
    assert RoundHalfUp(100 * (46800 - 23400), 46800) == 50;
    assert RoundHalfUp(100 * (192000 - 96000), 192000) == 50;
  }

  /**
   * For every plan: 2 credits per image in both periods (the FAQ's "2
   * credits generate 1 high-quality image"), and the yearly price, credits
   * and images are 12 times the monthly ones.
   */
  lemma PlanTableConsistent()
    ensures forall p, isYearly :: p in PricingPlans ==> Credits(p, isYearly) == 2 * Images(p, isYearly)
    ensures forall p :: p in PricingPlans ==>
      && CurrentPrice(p, true) == 12 * CurrentPrice(p, false)
      && Credits(p, true) == 12 * Credits(p, false)
      && Images(p, true) == 12 * Images(p, false)
  {
  }

  /** `creemPriceId.yearly` or `.monthly`, per the toggle. */
  function PriceId(plan: PricingPlan, isYearly: bool): (id: string)
    ensures id == if isYearly then plan.creemPriceId.yearly else plan.creemPriceId.monthly
  {
    Choose(plan.creemPriceId, isYearly)
  }

  /** A string in which no 'e' is followed by an 'n' cannot contain "enterprise". */
  lemma NoEnterpriseWithoutEn(s: string)
    requires forall j :: 0 <= j < |s| - 1 ==> !(s[j] == 'e' && s[j + 1] == 'n')
    ensures !exists i: nat :: OccursAt(s, "enterprise", i)
  {
    forall i: nat
      ensures !OccursAt(s, "enterprise", i)
    {
      if i + 10 <= |s| {
        assert s[i..i + 10][0] == s[i] && s[i..i + 10][1] == s[i + 1];
      }
    }
  }

  /** No price id on the page names "enterprise": in mock mode every plan checks out as "pro". */
  lemma MockModeAlwaysPro(plan: PricingPlan, isYearly: bool)
    requires plan in PricingPlans
    ensures Creem.MockPlanId(PriceId(plan, isYearly)) == "pro"
  {
    NoEnterpriseWithoutEn(PriceId(plan, isYearly));
  }

  /** The JSON body posted to `/api/create-checkout-session`. */
  datatype CheckoutRequest = CheckoutRequest(priceId: string, planId: string, billingPeriod: string)

  /** What clicking Subscribe does first: go to the login page, or post a checkout request. */
  datatype SubscribeStart = GoToLogin | Post(request: CheckoutRequest)

  /** What the post gives back: it threw (or its body was not JSON), or the body's `url`. */
  datatype SubscribeReply = RequestFailed | Answered(url: Option<string>)

  /** The page's state: the billing toggle and the id of the plan whose button is busy. */
  class PricingPageState {
    var isYearly: bool
    var isLoading: Option<string>

    constructor ()
      ensures isYearly && isLoading.None?
    {
      isYearly, isLoading := true, None;
    }

    method SetYearly(value: bool)
      modifies this`isYearly
      ensures isYearly == value
    {
      isYearly := value;
    }

    /** `disabled={isLoading === plan.id}` */
    predicate SubscribeDisabled(plan: PricingPlan)
      reads this
      ensures SubscribeDisabled(plan) ==> isLoading.Some?
      ensures SubscribeDisabled(plan) && plan in PricingPlans ==>
        forall q :: q in PricingPlans && isLoading == Some(q.id) ==> q == plan
    {
      isLoading == Some(plan.id)
    }

    /** `handleSubscribe` up to the fetch. */
    method BeginSubscribe(plan: PricingPlan, auth: Auth) returns (start: SubscribeStart)
      modifies this`isLoading
      ensures auth.None? ==> start == GoToLogin && isLoading == old(isLoading)
      ensures auth.Some? ==> isLoading == Some(plan.id)
      ensures auth.Some? ==> start == Post(CheckoutRequest(
        PriceId(plan, isYearly), plan.id, if isYearly then "yearly" else "monthly"))
    {
      if auth.None? {
        return GoToLogin;
      }
      isLoading := Some(plan.id);
      var priceId := if isYearly then plan.creemPriceId.yearly else plan.creemPriceId.monthly;
      start := Post(CheckoutRequest(priceId, plan.id, if isYearly then "yearly" else "monthly"));
    }

    /** The rest of `handleSubscribe`: follow a truthy `url`, then clear the busy state. */
    method FinishSubscribe(reply: SubscribeReply) returns (navigateTo: Option<string>)
      modifies this`isLoading
      ensures isLoading.None?
      ensures navigateTo.Some? <==> reply.Answered? && Truthy(reply.url)
      ensures navigateTo.Some? ==> navigateTo == reply.url
    {
      isLoading := None;
      if reply.Answered? && Truthy(reply.url) {
        navigateTo := reply.url;
      } else {
        navigateTo := None;
      }
    }
  }
}
