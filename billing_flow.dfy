/**
 * End-to-end properties of the billing flow: what a checkout route puts into a
 * session's metadata is what the webhook later reads back, and the plan a
 * subscription checkout stores is the one a renewal recharges from.
 */
module BillingFlow {
  import opened Wrappers
  import opened Text
  import opened Config
  import opened Checkout
  import opened SupabaseService
  import opened Webhook

  /**
   * A session opened by `create_checkout_session` for a configured price, once completed
   * with that price as its first item, stores the plan name and the plan credits the
   * route wrote into the metadata.
   */
  lemma SubscriptionSessionRoundTrip(
    config: StripeConfig, stripe: StripeApi, priceId: string, userId: string, email: Option<string>,
    session: StripeObject)
    requires config.Valid()
    requires userId != ""
    requires CreateCheckoutSession(config, priceId, userId, email).Ok?
    requires session.metadata == CreateCheckoutSession(config, priceId, userId, email).value.metadata
    requires Truthy(session.subscription) && session.subscription.value in stripe
    requires stripe[session.subscription.value].priceIds != [] && stripe[session.subscription.value].priceIds[0] == priceId
    ensures var m := session.metadata;
      var r := CheckoutEffect(config, stripe, session);
      && r.Ok? && r.value.UpdateSubscription?
      && r.value.userId == userId
      && r.value.data["plan"] == Str(m["plan"])
      && Some(r.value.data["credits"].i) == ParseInt(m["credits"])
      && r.value.data["status"] == Str("active")
  {
    var m := session.metadata;
    assert UserIdFrom(m) == Some(userId);
    assert !IsCreditPurchase(m);
    assert RetrievePrice(stripe, session.subscription.value).Ok?;
  }

  /** A `buy_credits` session, once completed, adds exactly the purchased credits to the buyer. */
  lemma CreditPackSessionRoundTrip(
    config: StripeConfig, stripe: StripeApi, userId: string, credits: int, amount: int, session: StripeObject)
    requires config.Valid()
    requires userId != ""
    requires BuyCredits(userId, credits, amount).Ok?
    requires session.metadata == BuyCredits(userId, credits, amount).value.metadata
    ensures CheckoutEffect(config, stripe, session) == Ok(AddCredits(userId, credits))
  {
    var m := session.metadata;
    assert "userId" !in m;
    assert UserIdFrom(m) == Some(userId);
    assert IsCreditPurchase(m);
  }

  /**
   * After a subscription checkout for a configured price, the stored plan recharges, at
   * renewal, exactly the credits the checkout set: renewals neither grow nor shrink the balance target.
   */
  lemma CheckoutPlanIsRenewedAtSameCredits(
    config: StripeConfig, row: Row, customer: Option<string>, subscriptionId: string, priceId: string,
    periodEnd: string, now: string)
    requires config.Valid() && config.IsValidPriceId(priceId)
    ensures var f := KnownPlanFields(config, priceId);
      var r := UpdatedRow(row, CheckoutData(customer, subscriptionId, priceId, f, periodEnd), now);
      && StoredPlanCredits(r) == f.credits
      && CreditsOf(r) == Some(f.credits)
      && f.credits > 0
  {
    var f := KnownPlanFields(config, priceId);
    var d := CheckoutData(customer, subscriptionId, priceId, f, periodEnd);
    assert InputKey("plan") in d && InputKey("credits") in d;
    var info := config.GetPlanType(priceId).value;
    PlanNameGrantsPlanCredits(info);
  }

  /** After a deletion the stored plan is `free`, which recharges nothing; a renewal then asks Stripe for the price. */
  lemma DeletedPlanRechargesNothing(row: Row, now: string)
    ensures var r := UpdatedRow(row, DeletedData(now), now);
      StoredPlanCredits(r) == 0 && CreditsOf(r) == Some(0)
  {
    var d := DeletedData(now);
    assert InputKey("plan") in d && InputKey("credits") in d;
    assert "free" !in AllCredits by { CreditTablesMergeLosesNothing(); }
  }
}
