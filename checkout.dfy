/**
 * Checkout routes: which requests become a Stripe Checkout Session and with which
 * parameters. Creating the session itself is a call into Stripe and is not modelled;
 * each operation returns the parameters it would send, or the HTTP error it raises.
 */
module Checkout {
  import opened Wrappers
  import opened Text
  import opened Config

  datatype HttpError = HttpError(status: int, detail: string)

  /** Stripe metadata: every value is a string. */
  type Metadata = map<string, string>

  /** Parameters of a subscription session created through `/create-checkout-session`. */
  datatype SubscriptionCheckout = SubscriptionCheckout(
    priceId: string, metadata: Metadata, subscriptionMetadata: Metadata, customerEmail: Option<string>)

  /** Parameters of a subscription session created through the legacy endpoint. */
  datatype LegacyCheckout = LegacyCheckout(priceId: string, clientReferenceId: string, metadata: Metadata)

  /** Parameters of a one-time credit purchase session. */
  datatype CreditPackCheckout = CreditPackCheckout(productName: string, description: string, unitAmount: int, metadata: Metadata)

  /** A row of the price list served to the frontend. */
  datatype PriceEntry = PriceEntry(priceId: string, key: string, plan: PlanDict)

  /** `create_checkout_session`: rejects unconfigured price ids; otherwise describes the plan in the metadata. */
  function CreateCheckoutSession(config: StripeConfig, priceId: string, userId: string, userEmail: Option<string>)
    : (r: Result<SubscriptionCheckout, HttpError>)
    reads config
    requires config.Valid()
    ensures r.Err? <==> !config.IsValidPriceId(priceId)
    ensures r.Err? ==> r.error.status == 400
    ensures r.Ok? ==>
      var info := config.GetPlanType(priceId).value;
      var m := r.value.metadata;
      && r.value.priceId == priceId
      && r.value.subscriptionMetadata == m
      && m.Keys == {"userId", "plan", "tier", "planFamily", "interval", "credits"}
      && m["userId"] == userId
      && Some(m["plan"]) == config.GetPlanNameFromPriceId(priceId)
      && GetCreditsForPlan(m["plan"]) == info.credits
      && ParseInt(m["credits"]) == Some(info.credits as int)
    ensures r.Ok? ==> (r.value.customerEmail.Some? <==> userEmail.Some? && userEmail.value != "")
  {
    if !config.IsValidPriceId(priceId) then
      Err(HttpError(400, "Invalid price ID. Must be one of the configured Stripe prices."))
    else
      var info := PlanTypeDict(config, priceId).value;
      var planName := config.GetPlanNameFromPriceId(priceId).value;
      ParseIntOfIntToString(info.credits);
      var metadata := map[
        "userId" := userId, "plan" := planName, "tier" := info.tier,
        "planFamily" := info.planFamily, "interval" := info.interval,
        "credits" := IntToString(info.credits)];
      var email := if userEmail.Some? && userEmail.value != "" then userEmail else None;
      Ok(SubscriptionCheckout(priceId, metadata, metadata, email))
  }

  /** The legacy endpoint reads a yearly price for interval `yearly` or `annual`, the monthly one otherwise. */
  predicate WantsYearly(interval: string) {
    interval == "yearly" || interval == "annual"
  }

  /** The six plan names the legacy endpoint accepts. */
  const LegacyPlans: set<string> := {"creator_basic", "creator_pro", "creator_max", "starter", "pro", "max"}

  /** The if/elif chain of the legacy endpoint; `""` when the plan is unknown or its price variable unset. */
  function LegacyPriceId(env: PriceEnv, plan: string, interval: string): (r: string)
    ensures plan !in LegacyPlans ==> r == ""
  {
    var yearly := WantsYearly(interval);
    if plan == "creator_basic" then (if yearly then env.basicYearly else env.basicMonthly)
    else if plan == "creator_pro" then (if yearly then env.proYearly else env.proMonthly)
    else if plan == "creator_max" then (if yearly then env.maxYearly else env.maxMonthly)
    else if plan == "starter" then (if yearly then env.starterAnnual else env.starter)
    else if plan == "pro" then (if yearly then env.proAnnual else env.pro)
    else if plan == "max" then (if yearly then env.maxAnnual else env.max)
    else ""
  }

  /**
   * `create_checkout_legacy`. A missing or empty `plan` or `user_id` is modelled as `""`
   * (both are falsy); a missing `interval` as `None`, which reads as `monthly`.
   */
  function CreateCheckoutLegacy(config: StripeConfig, plan: string, userId: string, interval: Option<string>)
    : (r: Result<LegacyCheckout, HttpError>)
    reads config
    requires config.Valid()
    ensures r.Err? ==> r.error.status == 400
    ensures r.Err? <==> plan == "" || userId == "" || LegacyPriceId(config.env, plan, interval.GetOr("monthly")) == ""
    ensures r.Ok? ==> plan in LegacyPlans && config.IsValidPriceId(r.value.priceId)
    ensures r.Ok? ==> r.value.priceId == LegacyPriceId(config.env, plan, interval.GetOr("monthly"))
    ensures r.Ok? ==>
      && r.value.clientReferenceId == userId
      && r.value.metadata.Keys == {"user_id", "plan", "tier_type", "type"}
      && r.value.metadata["user_id"] == userId
      && r.value.metadata["type"] == "subscription"
      && Some(r.value.metadata["plan"]) == config.GetPlanNameFromPriceId(r.value.priceId)
  {
    if plan == "" || userId == "" then
      Err(HttpError(400, "plan and user_id are required"))
    else
      var priceId := LegacyPriceId(config.env, plan, interval.GetOr("monthly"));
      if priceId == "" then
        Err(HttpError(400, "Invalid plan: " + plan
          + ". Valid plans: creator_basic, creator_pro, creator_max, starter, pro, max"))
      else
        assert priceId in ConfiguredIds(config.env) by {
          var c := Catalogue(config.env);
          LegacyPriceIdIsCatalogued(config.env, plan, interval.GetOr("monthly"));
          assert c[LegacyEntry(plan, WantsYearly(interval.GetOr("monthly")))] in c;
        }
        var planName := config.GetPlanNameFromPriceId(priceId).value;
        var tierType := PlanTypeDict(config, priceId).value.planFamily;
        Ok(LegacyCheckout(priceId, userId, map[
          "user_id" := userId, "plan" := planName, "tier_type" := tierType, "type" := "subscription"]))
  }

  /** The Catalogue entry each legacy plan selects, as an index into `Catalogue(env)`. */
  function LegacyEntry(plan: string, yearly: bool): (i: nat)
    requires plan in LegacyPlans
    ensures i < 12
  {
    (if plan == "starter" then 0 else if plan == "pro" then 2 else if plan == "max" then 4
     else if plan == "creator_basic" then 6 else if plan == "creator_pro" then 8 else 10)
    + (if yearly then 1 else 0)
  }

  /** The price a legacy plan reads is the catalogue entry `LegacyEntry` names. */
  lemma LegacyPriceIdIsCatalogued(env: PriceEnv, plan: string, interval: string)
    requires plan in LegacyPlans
    ensures Catalogue(env)[LegacyEntry(plan, WantsYearly(interval))].0 == LegacyPriceId(env, plan, interval)
  {
  }

  /**
   * With distinct price ids, a legacy plan bought monthly is stored under its own
   * name, and bought yearly under its name plus `_yearly` (creator) or `_annual`
   * (professional).
   */
  lemma LegacyPlanNameRoundTrip(config: StripeConfig, plan: string, userId: string, interval: Option<string>)
    requires config.Valid() && DistinctIds(config.env)
    requires CreateCheckoutLegacy(config, plan, userId, interval).Ok?
    ensures var m := CreateCheckoutLegacy(config, plan, userId, interval).value.metadata;
      if !WantsYearly(interval.GetOr("monthly")) then m["plan"] == plan
      else if plan in {"starter", "pro", "max"} then m["plan"] == plan + "_annual"
      else m["plan"] == plan + "_yearly"
  {
    var yearly := WantsYearly(interval.GetOr("monthly"));
    var i := LegacyEntry(plan, yearly);
    var priceId := LegacyPriceId(config.env, plan, interval.GetOr("monthly"));
    var m := CreateCheckoutLegacy(config, plan, userId, interval).value.metadata;
    LegacyPriceIdIsCatalogued(config.env, plan, interval.GetOr("monthly"));
    config.ConfiguredIdSellsItsPlan(i);
    assert Some(m["plan"]) == config.GetPlanNameFromPriceId(priceId);
    assert m["plan"] == PlanNameOf(Catalogue(config.env)[i].1);
    LegacyEntryName(config.env, plan, yearly);
  }

  /** The stored name of the plan each legacy entry sells. */
  lemma LegacyEntryName(env: PriceEnv, plan: string, yearly: bool)
    requires plan in LegacyPlans
    ensures var name := PlanNameOf(Catalogue(env)[LegacyEntry(plan, yearly)].1);
      if !yearly then name == plan
      else if plan in {"starter", "pro", "max"} then name == plan + "_annual"
      else name == plan + "_yearly"
  {
    PlanNameTable();
  }

  /** The one-time packs: credits to price in EUR. */
  const CreditPacks: map<int, int> := map[60 := 9, 120 := 15, 300 := 29]

  /** The `credit_packs` list that `get_available_prices` serves. */
  const CreditPackList: seq<(int, int)> := [(60, 9), (120, 15), (300, 29)]

  /**
   * `buy_credits`: rejects a non-positive credit count or amount, and a known pack
   * size paired with another price; any other positive count is not price-checked.
   */
  function BuyCredits(userId: string, credits: int, amount: int): (r: Result<CreditPackCheckout, HttpError>)
    ensures r.Err? <==> credits <= 0 || amount <= 0 || (credits in CreditPacks && CreditPacks[credits] != amount)
    ensures r.Err? ==> r.error.status == 400
    ensures r.Ok? ==>
      && r.value.metadata.Keys == {"user_id", "credits", "type"}
      && r.value.unitAmount == amount * 100
      && r.value.description == IntToString(credits / 6) + " videos of 60s"
      && r.value.productName == IntToString(credits) + " Vykso Credits"
      && r.value.metadata["user_id"] == userId
      && r.value.metadata["type"] == "credit_purchase"
      && ParseInt(r.value.metadata["credits"]) == Some(credits)
  {
    if credits <= 0 || amount <= 0 then
      Err(HttpError(400, "Invalid credits or amount"))
    else if credits in CreditPacks && CreditPacks[credits] != amount then
      Err(HttpError(400, "Invalid amount for selected credits pack"))
    else
      ParseIntOfIntToString(credits);
      Ok(CreditPackCheckout(
        IntToString(credits) + " Vykso Credits",
        IntToString(credits / 6) + " videos of 60s",
        amount * 100,
        map["user_id" := userId, "credits" := IntToString(credits), "type" := "credit_purchase"]))
  }

  /** Every pack the price list advertises is accepted by `buy_credits` at exactly its listed price. */
  lemma AdvertisedPacksAreAccepted(k: nat, userId: string, amount: int)
    requires k < |CreditPackList|
    ensures BuyCredits(userId, CreditPackList[k].0, amount).Ok? <==> amount == CreditPackList[k].1
  {
  }

  /** The price list built from (key, price id) pairs: unset or unknown ids are skipped, order is kept. */
  function PriceList(config: StripeConfig, ids: seq<(string, string)>): seq<PriceEntry>
    reads config
    requires config.Valid()
  {
    if ids == [] then []
    else
      var rest := PriceList(config, ids[..|ids| - 1]);
      var (key, priceId) := ids[|ids| - 1];
      if priceId != "" && PlanTypeDict(config, priceId).Some?
      then rest + [PriceEntry(priceId, key, PlanTypeDict(config, priceId).value)]
      else rest
  }

  lemma CreatorIdsConfigured(env: PriceEnv)
    ensures forall k :: 0 <= k < 6 && CreatorPriceIds(env)[k].1 != "" ==> CreatorPriceIds(env)[k].1 in ConfiguredIds(env)
  {
    var c := Catalogue(env);
    forall k | 0 <= k < 6 && CreatorPriceIds(env)[k].1 != "" ensures CreatorPriceIds(env)[k].1 in ConfiguredIds(env) {
      assert c[6 + k].0 == CreatorPriceIds(env)[k].1;
    }
  }

  lemma ProfessionalIdsConfigured(env: PriceEnv)
    ensures forall k :: 0 <= k < 6 && ProfessionalPriceIds(env)[k].1 != "" ==> ProfessionalPriceIds(env)[k].1 in ConfiguredIds(env)
  {
    var c := Catalogue(env);
    forall k | 0 <= k < 6 && ProfessionalPriceIds(env)[k].1 != "" ensures ProfessionalPriceIds(env)[k].1 in ConfiguredIds(env) {
      assert c[k].0 == ProfessionalPriceIds(env)[k].1;
    }
  }

  /** Every row of the price list comes from a set, configured id, with the plan the catalogue sells under it. */
  lemma {:induction false} PriceListSound(config: StripeConfig, ids: seq<(string, string)>)
    requires config.Valid()
    ensures |PriceList(config, ids)| <= |ids|
    ensures forall e :: e in PriceList(config, ids) ==>
      (e.key, e.priceId) in ids && config.IsValidPriceId(e.priceId) && PlanTypeDict(config, e.priceId) == Some(e.plan)
  {
    if ids != [] {
      var init := ids[..|ids| - 1];
      PriceListSound(config, init);
      forall e | e in PriceList(config, ids)
        ensures (e.key, e.priceId) in ids
      {
        if e in PriceList(config, init) {
          var k :| 0 <= k < |init| && init[k] == (e.key, e.priceId);
          assert ids[k] == init[k];
        } else {
          assert ids[|ids| - 1] == (e.key, e.priceId);
        }
      }
    }
  }

  /** Every set, configured id of the input has its row in the price list. */
  lemma {:induction false} PriceListComplete(config: StripeConfig, ids: seq<(string, string)>, k: nat)
    requires config.Valid()
    requires k < |ids| && config.IsValidPriceId(ids[k].1)
    ensures PriceEntry(ids[k].1, ids[k].0, PlanTypeDict(config, ids[k].1).value) in PriceList(config, ids)
  {
    if k < |ids| - 1 {
      PriceListComplete(config, ids[..|ids| - 1], k);
    }
  }

  /** The creator list holds only creator plans, whatever ids the environment repeats. */
  lemma CreatorListHoldsCreatorPlans(config: StripeConfig, e: PriceEntry)
    requires config.Valid()
    requires e in PriceList(config, CreatorPriceIds(config.env))
    ensures e.plan.planFamily == "creator"
  {
    var ids := CreatorPriceIds(config.env);
    PriceListSound(config, ids);
    var k :| 0 <= k < |ids| && ids[k] == (e.key, e.priceId);
    assert Catalogue(config.env)[6 + k].0 == e.priceId;
    config.CreatorIdSellsCreatorPlan(6 + k);
  }

  /** With distinct price ids, the professional list holds only professional plans. */
  lemma ProfessionalListHoldsProfessionalPlans(config: StripeConfig, e: PriceEntry)
    requires config.Valid() && DistinctIds(config.env)
    requires e in PriceList(config, ProfessionalPriceIds(config.env))
    ensures e.plan.planFamily == "professional"
  {
    var ids := ProfessionalPriceIds(config.env);
    PriceListSound(config, ids);
    var k :| 0 <= k < |ids| && ids[k] == (e.key, e.priceId);
    assert Catalogue(config.env)[k].0 == e.priceId;
    config.ConfiguredIdSellsItsPlan(k);
  }

  /** `get_available_prices`: two loops appending one row per set price id. */
  method GetAvailablePrices(config: StripeConfig) returns (creator: seq<PriceEntry>, professional: seq<PriceEntry>, packs: seq<(int, int)>)
    requires config.Valid()
    ensures creator == PriceList(config, CreatorPriceIds(config.env))
    ensures professional == PriceList(config, ProfessionalPriceIds(config.env))
    ensures packs == CreditPackList
  {
    var creatorIds := CreatorPriceIds(config.env);
    creator := [];
    for i := 0 to |creatorIds|
      invariant creator == PriceList(config, creatorIds[..i])
    {
      var (key, priceId) := creatorIds[i];
      assert creatorIds[..i + 1][..i] == creatorIds[..i];
      if priceId != "" {
        var info := PlanTypeDict(config, priceId);
        if info.Some? {
          creator := creator + [PriceEntry(priceId, key, info.value)];
        }
      }
    }
    assert creatorIds[..|creatorIds|] == creatorIds;
    var professionalIds := ProfessionalPriceIds(config.env);
    professional := [];
    for i := 0 to |professionalIds|
      invariant professional == PriceList(config, professionalIds[..i])
    {
      var (key, priceId) := professionalIds[i];
      assert professionalIds[..i + 1][..i] == professionalIds[..i];
      if priceId != "" {
        var info := PlanTypeDict(config, priceId);
        if info.Some? {
          professional := professional + [PriceEntry(priceId, key, info.value)];
        }
      }
    }
    assert professionalIds[..|professionalIds|] == professionalIds;
    packs := CreditPackList;
  }
}
