/**
 * The Stripe webhook: the dispatcher and its five event handlers as transitions of
 * the profile store. Signature checking happens before dispatch and is not modelled;
 * `stripe.Subscription.retrieve` is a map from subscription id to what it returns.
 * Each handler's decision is stated by a pure effect function; the handler methods
 * perform it on the store.
 */
module Webhook {
  import opened Wrappers
  import opened Text
  import opened Config
  import opened SupabaseService

  /** The fields of an event's `data.object` the handlers read: a session, a subscription or an invoice. */
  datatype StripeObject = StripeObject(
    id: string,
    metadata: map<string, string>,
    subscription: Option<string>,
    customer: Option<string>,
    priceIds: seq<string>,
    status: string,
    currentPeriodEnd: string,
    billingReason: Option<string>,
    hostedInvoiceUrl: Option<string>)

  datatype StripeEvent = StripeEvent(eventType: string, id: string, payload: StripeObject)

  /** What `stripe.Subscription.retrieve` returns: the item price ids and the rendered period end. */
  datatype RetrievedSubscription = RetrievedSubscription(priceIds: seq<string>, currentPeriodEnd: string)

  /** Subscriptions Stripe knows; retrieving any other id raises. */
  type StripeApi = map<string, RetrievedSubscription>

  /** The one store call a handler ends with, if any. */
  datatype Effect =
    | NoEffect
    | AddCredits(userId: string, credits: int)
    | UpdateSubscription(userId: string, data: map<string, Value>)
    | NotifyFailure(userId: string, invoiceUrl: Option<string>)

  datatype WebhookResponse = WebhookResponse(status: string, eventType: string, error: Option<string>)

  const NoSuchSubscription := "No such subscription"
  const NoSubscriptionItems := "list index out of range"
  const NotAnInteger := "invalid literal for int()"

  /** The five event types that reach a handler. */
  const HandledTypes: set<string> := {
    "checkout.session.completed", "customer.subscription.updated", "customer.subscription.deleted",
    "invoice.payment_succeeded", "invoice.payment_failed"}

  /** A Python truth test on an optional string. */
  predicate Truthy(o: Option<string>) {
    o.Some? && o.value != ""
  }

  /** `metadata.get('userId') or metadata.get('user_id')`; an empty result counts as absent. */
  function UserIdFrom(metadata: map<string, string>): (r: Option<string>)
    ensures r.Some? ==> r.value != ""
    ensures "userId" in metadata && metadata["userId"] != "" ==> r == Some(metadata["userId"])
    ensures r.None? <==> ("userId" !in metadata || metadata["userId"] == "") && ("user_id" !in metadata || metadata["user_id"] == "")
  {
    if "userId" in metadata && metadata["userId"] != "" then Some(metadata["userId"])
    else if "user_id" in metadata && metadata["user_id"] != "" then Some(metadata["user_id"])
    else None
  }

  /** `metadata.get(key, default)`. */
  function MetaGet(metadata: map<string, string>, key: string, default: string): string {
    if key in metadata then metadata[key] else default
  }

  /** `int(metadata.get(key, default))`: the default is already an int; a stored string must parse. */
  function MetaInt(metadata: map<string, string>, key: string, default: int): Option<int> {
    if key in metadata then ParseInt(metadata[key]) else Some(default)
  }

  predicate IsCreditPurchase(metadata: map<string, string>) {
    "type" in metadata && metadata["type"] == "credit_purchase"
  }

  function ValueOf(o: Option<string>): Value {
    match o
    case None => Null
    case Some(s) => Str(s)
  }

  function ErrorOf(r: Result<Effect, string>): Option<string> {
    match r
    case Ok(_) => None
    case Err(e) => Some(e)
  }

  /** The plan fields a handler writes. */
  datatype PlanFields = PlanFields(plan: string, tier: string, interval: string, family: string, credits: int)

  /** Plan fields of a configured price: the derived plan name and the catalogue record. */
  function KnownPlanFields(config: StripeConfig, priceId: string): (f: PlanFields)
    reads config
    requires config.Valid() && config.IsValidPriceId(priceId)
    ensures Some(f.plan) == config.GetPlanNameFromPriceId(priceId)
    ensures f.credits == config.GetPlanType(priceId).value.credits
    ensures GetCreditsForPlan(f.plan) == f.credits
  {
    var info := PlanTypeDict(config, priceId).value;
    PlanFields(config.GetPlanNameFromPriceId(priceId).value, info.tier, info.interval, info.planFamily, info.credits)
  }

  /** Plan fields of a checkout: from the catalogue, or from the session metadata with defaults when the price is unknown. */
  function CheckoutPlanFields(config: StripeConfig, priceId: string, metadata: map<string, string>): (r: Option<PlanFields>)
    reads config
    requires config.Valid()
    ensures config.IsValidPriceId(priceId) ==> r == Some(KnownPlanFields(config, priceId))
    ensures !config.IsValidPriceId(priceId) ==>
      && (r.Some? <==> MetaInt(metadata, "credits", 100).Some?)
      && (r.Some? ==>
            && r.value.plan == MetaGet(metadata, "tier", "unknown")
            && r.value.tier == MetaGet(metadata, "tier", "unknown")
            && r.value.interval == MetaGet(metadata, "interval", "monthly")
            && r.value.family == MetaGet(metadata, "planFamily", "creator")
            && Some(r.value.credits) == MetaInt(metadata, "credits", 100))
  {
    if config.IsValidPriceId(priceId) then Some(KnownPlanFields(config, priceId))
    else match MetaInt(metadata, "credits", 100)
      case None => None
      case Some(credits) =>
        var tier := MetaGet(metadata, "tier", "unknown");
        Some(PlanFields(tier, tier, MetaGet(metadata, "interval", "monthly"), MetaGet(metadata, "planFamily", "creator"), credits))
  }

  /** The ten fields a subscription checkout writes. */
  function CheckoutData(customer: Option<string>, subscriptionId: string, priceId: string, f: PlanFields, periodEnd: string)
    : (d: map<string, Value>)
    ensures d.Keys == {"stripe_customer_id", "stripe_subscription_id", "price_id", "status", "plan",
                       "plan_tier", "plan_interval", "plan_family", "credits", "current_period_end"}
    ensures d["status"] == Str("active") && d["stripe_subscription_id"] == Str(subscriptionId)
    ensures d["price_id"] == Str(priceId) && d["current_period_end"] == Str(periodEnd)
    ensures d["plan"] == Str(f.plan) && d["plan_tier"] == Str(f.tier) && d["plan_interval"] == Str(f.interval)
    ensures d["plan_family"] == Str(f.family) && d["credits"] == Int(f.credits)
    ensures d["stripe_customer_id"] == ValueOf(customer)
  {
    map[
      "stripe_customer_id" := ValueOf(customer),
      "stripe_subscription_id" := Str(subscriptionId),
      "price_id" := Str(priceId),
      "status" := Str("active"),
      "plan" := Str(f.plan),
      "plan_tier" := Str(f.tier),
      "plan_interval" := Str(f.interval),
      "plan_family" := Str(f.family),
      "credits" := Int(f.credits),
      "current_period_end" := Str(periodEnd)]
  }

  /** The first item price of a subscription, as `subscription['items']['data'][0]['price']['id']` reads it. */
  function RetrievePrice(stripe: StripeApi, subscriptionId: string): (r: Result<(string, string), string>)
    ensures r.Ok? <==> subscriptionId in stripe && |stripe[subscriptionId].priceIds| > 0
    ensures r.Ok? ==> r.value == (stripe[subscriptionId].priceIds[0], stripe[subscriptionId].currentPeriodEnd)
  {
    if subscriptionId !in stripe then Err(NoSuchSubscription)
    else if |stripe[subscriptionId].priceIds| == 0 then Err(NoSubscriptionItems)
    else Ok((stripe[subscriptionId].priceIds[0], stripe[subscriptionId].currentPeriodEnd))
  }

  /** `checkout.session.completed`. */
  function CheckoutEffect(config: StripeConfig, stripe: StripeApi, session: StripeObject): (r: Result<Effect, string>)
    reads config
    requires config.Valid()
    ensures UserIdFrom(session.metadata).None? ==> r == Ok(NoEffect)
    // a credit purchase adds the metadata count (default 0) and writes no subscription field
    ensures UserIdFrom(session.metadata).Some? && IsCreditPurchase(session.metadata) ==>
      (r.Ok? <==> MetaInt(session.metadata, "credits", 0).Some?)
      && (r.Ok? ==> r.value == AddCredits(UserIdFrom(session.metadata).value, MetaInt(session.metadata, "credits", 0).value))
    ensures r.Ok? && r.value.AddCredits? ==> IsCreditPurchase(session.metadata)
    ensures UserIdFrom(session.metadata).Some? && !IsCreditPurchase(session.metadata) && !Truthy(session.subscription) ==>
      r == Ok(NoEffect)
    // a subscription checkout sets status `active`, the plan and (not adds) its credits for the metadata user
    ensures r.Ok? && r.value.UpdateSubscription? ==>
      && Truthy(session.subscription)
      && RetrievePrice(stripe, session.subscription.value).Ok?
      && var (priceId, periodEnd) := RetrievePrice(stripe, session.subscription.value).value;
      && CheckoutPlanFields(config, priceId, session.metadata).Some?
      && r.value == UpdateSubscription(UserIdFrom(session.metadata).value,
           CheckoutData(session.customer, session.subscription.value, priceId,
                        CheckoutPlanFields(config, priceId, session.metadata).value, periodEnd))
    ensures (UserIdFrom(session.metadata).Some? && !IsCreditPurchase(session.metadata) && Truthy(session.subscription)
             && RetrievePrice(stripe, session.subscription.value).Ok?
             && CheckoutPlanFields(config, RetrievePrice(stripe, session.subscription.value).value.0, session.metadata).Some?) ==>
      var (priceId, periodEnd) := RetrievePrice(stripe, session.subscription.value).value;
      r == Ok(UpdateSubscription(UserIdFrom(session.metadata).value,
             CheckoutData(session.customer, session.subscription.value, priceId,
                          CheckoutPlanFields(config, priceId, session.metadata).value, periodEnd)))
    // it raises exactly when a credit count does not parse or the subscription cannot be read
    ensures r.Err? <==>
      && UserIdFrom(session.metadata).Some?
      && (if IsCreditPurchase(session.metadata) then MetaInt(session.metadata, "credits", 0).None?
          else (Truthy(session.subscription)
                && (RetrievePrice(stripe, session.subscription.value).Err?
                    || CheckoutPlanFields(config, RetrievePrice(stripe, session.subscription.value).value.0, session.metadata).None?)))
    ensures r.Ok? ==> !r.value.NotifyFailure?
  {
    var metadata := session.metadata;
    match UserIdFrom(metadata)
    case None => Ok(NoEffect)
    case Some(userId) =>
      if IsCreditPurchase(metadata) then
        match MetaInt(metadata, "credits", 0)
        case None => Err(NotAnInteger)
        case Some(credits) => Ok(AddCredits(userId, credits))
      else if !Truthy(session.subscription) then Ok(NoEffect)
      else
        match RetrievePrice(stripe, session.subscription.value)
        case Err(e) => Err(e)
        case Ok((priceId, periodEnd)) =>
          match CheckoutPlanFields(config, priceId, metadata)
          case None => Err(NotAnInteger)
          case Some(f) => Ok(UpdateSubscription(userId, CheckoutData(session.customer, session.subscription.value, priceId, f, periodEnd)))
  }

  /**
   * The user a subscription event is for: the metadata user, else the owner of the
   * subscription id in the store, provided that id is non-empty.
   */
  function ResolveUser(metadata: map<string, string>, online: bool, profiles: map<string, Row>, subscriptionId: string)
    : (r: Option<string>)
    ensures UserIdFrom(metadata).Some? ==> r == UserIdFrom(metadata)
    ensures UserIdFrom(metadata).None? && r.Some? ==>
      online && SubscriptionOwner(profiles, subscriptionId) == r && r.value != ""
    ensures r.None? ==> UserIdFrom(metadata).None?
  {
    match UserIdFrom(metadata)
    case Some(userId) => Some(userId)
    case None =>
      var owner := if online then SubscriptionOwner(profiles, subscriptionId) else None;
      if owner.Some? && owner.value != "" then owner else None
  }

  /** The fields `customer.subscription.updated` writes: credits only when the new status is `active`. */
  function SubscriptionUpdateData(priceId: string, status: string, f: PlanFields, periodEnd: string): (d: map<string, Value>)
    ensures d.Keys == {"price_id", "status", "plan", "plan_tier", "plan_interval", "plan_family", "current_period_end"}
      + (if status == "active" then {"credits"} else {})
    ensures d["price_id"] == Str(priceId) && d["status"] == Str(status) && d["plan"] == Str(f.plan)
    ensures d["plan_tier"] == Str(f.tier) && d["plan_interval"] == Str(f.interval) && d["plan_family"] == Str(f.family)
    ensures d["current_period_end"] == Str(periodEnd)
    ensures status == "active" ==> d["credits"] == Int(f.credits)
  {
    var d := map[
      "price_id" := Str(priceId), "status" := Str(status), "plan" := Str(f.plan), "plan_tier" := Str(f.tier),
      "plan_interval" := Str(f.interval), "plan_family" := Str(f.family), "current_period_end" := Str(periodEnd)];
    if status == "active" then d["credits" := Int(f.credits)] else d
  }

  /** `customer.subscription.updated`. */
  function SubscriptionUpdatedEffect(config: StripeConfig, online: bool, profiles: map<string, Row>, subscription: StripeObject)
    : (r: Result<Effect, string>)
    reads config
    requires config.Valid()
    ensures ResolveUser(subscription.metadata, online, profiles, subscription.id).None? ==> r == Ok(NoEffect)
    ensures r.Err? <==> ResolveUser(subscription.metadata, online, profiles, subscription.id).Some? && subscription.priceIds == []
    // an unknown price changes nothing
    ensures subscription.priceIds != [] && !config.IsValidPriceId(subscription.priceIds[0]) ==> r == Ok(NoEffect)
    // a known price updates the resolved user's plan fields, and its credits when the status is `active`
    ensures (ResolveUser(subscription.metadata, online, profiles, subscription.id).Some? && subscription.priceIds != []
             && config.IsValidPriceId(subscription.priceIds[0])) ==>
      r == Ok(UpdateSubscription(ResolveUser(subscription.metadata, online, profiles, subscription.id).value,
             SubscriptionUpdateData(subscription.priceIds[0], subscription.status,
               KnownPlanFields(config, subscription.priceIds[0]), subscription.currentPeriodEnd)))
    ensures r.Ok? && r.value != NoEffect ==>
      && r.value.UpdateSubscription?
      && Some(r.value.userId) == ResolveUser(subscription.metadata, online, profiles, subscription.id)
      && subscription.priceIds != []
      && config.IsValidPriceId(subscription.priceIds[0])
      && r.value.data == SubscriptionUpdateData(subscription.priceIds[0], subscription.status,
           KnownPlanFields(config, subscription.priceIds[0]), subscription.currentPeriodEnd)
  {
    match ResolveUser(subscription.metadata, online, profiles, subscription.id)
    case None => Ok(NoEffect)
    case Some(userId) =>
      if subscription.priceIds == [] then Err(NoSubscriptionItems)
      else
        var priceId := subscription.priceIds[0];
        if !config.IsValidPriceId(priceId) then Ok(NoEffect)
        else
          Ok(UpdateSubscription(userId, SubscriptionUpdateData(priceId, subscription.status,
            KnownPlanFields(config, priceId), subscription.currentPeriodEnd)))
  }

  /** The fields `customer.subscription.deleted` writes. */
  function DeletedData(now: string): (d: map<string, Value>)
    ensures d.Keys == {"status", "credits", "canceled_at", "plan"}
    ensures d["status"] == Str("canceled") && d["credits"] == Int(0) && d["plan"] == Str("free")
    ensures d["canceled_at"] == Str(now)
  {
    map["status" := Str("canceled"), "credits" := Int(0), "canceled_at" := Str(now), "plan" := Str("free")]
  }

  /** `customer.subscription.deleted`: never raises; zeroes the resolved user's credits. */
  function SubscriptionDeletedEffect(online: bool, profiles: map<string, Row>, subscription: StripeObject, now: string)
    : (r: Result<Effect, string>)
    ensures r.Ok?
    ensures ResolveUser(subscription.metadata, online, profiles, subscription.id).None? <==> r.value == NoEffect
    ensures r.value != NoEffect ==>
      r.value == UpdateSubscription(ResolveUser(subscription.metadata, online, profiles, subscription.id).value, DeletedData(now))
  {
    match ResolveUser(subscription.metadata, online, profiles, subscription.id)
    case None => Ok(NoEffect)
    case Some(userId) => Ok(UpdateSubscription(userId, DeletedData(now)))
  }

  /** Credits of the plan stored in a row, as `get_credits_for_plan(user.get('plan', 'free'))`; a non-string plan finds nothing. */
  function StoredPlanCredits(row: Row): (r: nat)
    ensures "plan" in row && row["plan"].Str? ==> r == GetCreditsForPlan(row["plan"].s)
    ensures r > 0 ==> "plan" in row && row["plan"].Str? && row["plan"].s in AllCredits
  {
    if "plan" !in row then GetCreditsForPlan("free")
    else match row["plan"]
      case Str(plan) => GetCreditsForPlan(plan)
      case _ => 0
  }

  /** The owner of an invoice's subscription, found through the store. */
  function InvoiceOwner(online: bool, profiles: map<string, Row>, invoice: StripeObject): (r: Option<string>)
    ensures r.Some? ==> Truthy(invoice.subscription) && r.value in profiles
    ensures r.Some? <==> Truthy(invoice.subscription) && online && SubscriptionOwner(profiles, invoice.subscription.value).Some?
  {
    if Truthy(invoice.subscription) && online then SubscriptionOwner(profiles, invoice.subscription.value) else None
  }

  /**
   * `invoice.payment_succeeded`: only a `subscription_cycle` invoice recharges, and it
   * sets the credits of the stored plan, or of the subscription's price when the stored
   * plan is unknown, provided that amount is positive.
   */
  function PaymentSucceededEffect(config: StripeConfig, stripe: StripeApi, online: bool, profiles: map<string, Row>, invoice: StripeObject)
    : (r: Result<Effect, string>)
    reads config
    requires config.Valid()
    ensures InvoiceOwner(online, profiles, invoice).None? ==> r == Ok(NoEffect)
    ensures invoice.billingReason != Some("subscription_cycle") ==> r == Ok(NoEffect)
    ensures r.Ok? && r.value != NoEffect ==>
      && invoice.billingReason == Some("subscription_cycle")
      && InvoiceOwner(online, profiles, invoice) == Some(r.value.userId)
      && r.value.UpdateSubscription?
      && r.value.data.Keys == {"credits"}
      && r.value.data["credits"].Int? && r.value.data["credits"].i > 0
    // a known stored plan is recharged with its own credits, without asking Stripe
    ensures (InvoiceOwner(online, profiles, invoice).Some? && invoice.billingReason == Some("subscription_cycle")
      && StoredPlanCredits(profiles[InvoiceOwner(online, profiles, invoice).value]) > 0) ==>
      var userId := InvoiceOwner(online, profiles, invoice).value;
      r == Ok(UpdateSubscription(userId, map["credits" := Int(StoredPlanCredits(profiles[userId]))]))
    // an unknown stored plan falls back to the credits of the subscription's current price
    ensures (InvoiceOwner(online, profiles, invoice).Some? && invoice.billingReason == Some("subscription_cycle")
      && StoredPlanCredits(profiles[InvoiceOwner(online, profiles, invoice).value]) == 0) ==>
      var userId := InvoiceOwner(online, profiles, invoice).value;
      var retrieved := RetrievePrice(stripe, invoice.subscription.value);
      && (retrieved.Err? ==> r == Err(retrieved.error))
      && (retrieved.Ok? && config.IsValidPriceId(retrieved.value.0) ==>
            r == Ok(UpdateSubscription(userId, map["credits" := Int(config.GetPlanType(retrieved.value.0).value.credits)])))
      && (retrieved.Ok? && !config.IsValidPriceId(retrieved.value.0) ==> r == Ok(NoEffect))
    ensures r.Err? ==> RetrievePrice(stripe, invoice.subscription.value).Err?
  {
    match InvoiceOwner(online, profiles, invoice)
    case None => Ok(NoEffect)
    case Some(userId) =>
      if invoice.billingReason != Some("subscription_cycle") then Ok(NoEffect)
      else
        var stored := StoredPlanCredits(profiles[userId]);
        var credits :=
          if stored != 0 then Ok(stored)
          else match RetrievePrice(stripe, invoice.subscription.value)
            case Err(e) => Err(e)
            case Ok((priceId, _)) =>
              Ok(if config.IsValidPriceId(priceId) then config.GetPlanType(priceId).value.credits else 0);
        match credits
        case Err(e) => Err(e)
        case Ok(c) => if c > 0 then Ok(UpdateSubscription(userId, map["credits" := Int(c)])) else Ok(NoEffect)
  }

  /** `invoice.payment_failed`: never raises and never touches plan or credits; it only notifies. */
  function PaymentFailedEffect(online: bool, profiles: map<string, Row>, invoice: StripeObject): (r: Result<Effect, string>)
    ensures r.Ok? && (r.value.NoEffect? || r.value.NotifyFailure?)
    ensures r.value.NotifyFailure? <==> InvoiceOwner(online, profiles, invoice).Some?
    ensures r.value.NotifyFailure? ==>
      r.value == NotifyFailure(InvoiceOwner(online, profiles, invoice).value, invoice.hostedInvoiceUrl)
  {
    match InvoiceOwner(online, profiles, invoice)
    case None => Ok(NoEffect)
    case Some(userId) => Ok(NotifyFailure(userId, invoice.hostedInvoiceUrl))
  }

  /** The dispatcher's choice of handler; any other event type changes nothing. */
  function EventEffect(config: StripeConfig, stripe: StripeApi, online: bool, profiles: map<string, Row>, event: StripeEvent, now: string)
    : (r: Result<Effect, string>)
    reads config
    requires config.Valid()
    ensures event.eventType !in HandledTypes ==> r == Ok(NoEffect)
    ensures r.Ok? && r.value.AddCredits? ==> event.eventType == "checkout.session.completed"
    ensures r.Ok? && r.value.NotifyFailure? ==> event.eventType == "invoice.payment_failed"
    ensures r.Err? ==> event.eventType in {"checkout.session.completed", "customer.subscription.updated", "invoice.payment_succeeded"}
  {
    var obj := event.payload;
    if event.eventType == "checkout.session.completed" then CheckoutEffect(config, stripe, obj)
    else if event.eventType == "customer.subscription.updated" then SubscriptionUpdatedEffect(config, online, profiles, obj)
    else if event.eventType == "customer.subscription.deleted" then SubscriptionDeletedEffect(online, profiles, obj, now)
    else if event.eventType == "invoice.payment_succeeded" then PaymentSucceededEffect(config, stripe, online, profiles, obj)
    else if event.eventType == "invoice.payment_failed" then PaymentFailedEffect(online, profiles, obj)
    else Ok(NoEffect)
  }

  /** The store before (`p0`, `t0`, `n0`) and after (`p1`, `t1`, `n1`) a handler whose decision was `r`. */
  predicate StoreStep(
    online: bool, hasLog: bool, hasNotifications: bool,
    p0: map<string, Row>, t0: seq<CreditTransaction>, n0: seq<Notification>,
    p1: map<string, Row>, t1: seq<CreditTransaction>, n1: seq<Notification>,
    r: Result<Effect, string>, now: string)
  {
    match r
    case Err(_) => p1 == p0 && t1 == t0 && n1 == n0
    case Ok(NoEffect) => p1 == p0 && t1 == t0 && n1 == n0
    case Ok(AddCredits(userId, credits)) =>
      var ok := online && userId in p0 && CreditsOf(p0[userId]).Some?;
      && p1 == (if ok then p0[userId := CreditedRow(p0[userId], credits, now)] else p0)
      && t1 == t0 + (if ok && hasLog
                     then [CreditTransaction(userId, credits, "purchase", "Credit purchase: +" + IntToString(credits), now)]
                     else [])
      && n1 == n0
    case Ok(UpdateSubscription(userId, data)) =>
      p1 == ProfilesAfterUpdate(online, p0, userId, data, now) && t1 == t0 && n1 == n0
    case Ok(NotifyFailure(userId, url)) =>
      && p1 == p0 && t1 == t0
      && n1 == n0 + (if online && hasNotifications
                     then [Notification(userId, "payment_failed", "\U{C9}chec de paiement", url, false, now)]
                     else [])
  }

  method HandleCheckoutCompleted(store: ProfileStore, config: StripeConfig, stripe: StripeApi, session: StripeObject, now: string)
    returns (raised: Option<string>)
    requires config.Valid()
    modifies store`profiles, store`transactions
    ensures raised == ErrorOf(CheckoutEffect(config, stripe, session))
    ensures StoreStep(store.online, store.hasTransactionLog, store.hasNotifications,
      old(store.profiles), old(store.transactions), old(store.notifications),
      store.profiles, store.transactions, store.notifications, CheckoutEffect(config, stripe, session), now)
  {
    var metadata := session.metadata;
    var userId := UserIdFrom(metadata);
    if userId.None? {
      return None;
    }
    if IsCreditPurchase(metadata) {
      var credits := MetaInt(metadata, "credits", 0);
      if credits.None? {
        return Some(NotAnInteger);
      }
      var ok := store.AddCreditsToUser(userId.value, credits.value, now);
      return None;
    }
    if !Truthy(session.subscription) {
      return None;
    }
    var subscriptionId := session.subscription.value;
    var retrieved := RetrievePrice(stripe, subscriptionId);
    if retrieved.Err? {
      return Some(retrieved.error);
    }
    var (priceId, periodEnd) := retrieved.value;
    var fields := CheckoutPlanFields(config, priceId, metadata);
    if fields.None? {
      return Some(NotAnInteger);
    }
    var ok := store.UpdateUserSubscription(userId.value,
      CheckoutData(session.customer, subscriptionId, priceId, fields.value, periodEnd), now);
    raised := None;
  }

  method HandleSubscriptionUpdated(store: ProfileStore, config: StripeConfig, subscription: StripeObject, now: string)
    returns (raised: Option<string>)
    requires config.Valid()
    modifies store`profiles
    ensures raised == ErrorOf(SubscriptionUpdatedEffect(config, store.online, old(store.profiles), subscription))
    ensures StoreStep(store.online, store.hasTransactionLog, store.hasNotifications,
      old(store.profiles), store.transactions, store.notifications,
      store.profiles, store.transactions, store.notifications,
      SubscriptionUpdatedEffect(config, store.online, old(store.profiles), subscription), now)
  {
    var userId := UserIdFrom(subscription.metadata);
    if userId.None? {
      var user := store.GetUserByStripeSubscription(subscription.id);
      if user.Some? && user.value != "" {
        userId := user;
      }
    }
    if userId.None? {
      return None;
    }
    if subscription.priceIds == [] {
      return Some(NoSubscriptionItems);
    }
    var priceId := subscription.priceIds[0];
    var status := subscription.status;
    if !config.IsValidPriceId(priceId) {
      return None;
    }
    var f := KnownPlanFields(config, priceId);
    var updateData := map[
      "price_id" := Str(priceId), "status" := Str(status), "plan" := Str(f.plan), "plan_tier" := Str(f.tier),
      "plan_interval" := Str(f.interval), "plan_family" := Str(f.family),
      "current_period_end" := Str(subscription.currentPeriodEnd)];
    if status == "active" {
      updateData := updateData["credits" := Int(f.credits)];
    }
    var ok := store.UpdateUserSubscription(userId.value, updateData, now);
    raised := None;
  }

  method HandleSubscriptionDeleted(store: ProfileStore, subscription: StripeObject, now: string)
    modifies store`profiles
    ensures StoreStep(store.online, store.hasTransactionLog, store.hasNotifications,
      old(store.profiles), store.transactions, store.notifications,
      store.profiles, store.transactions, store.notifications,
      SubscriptionDeletedEffect(store.online, old(store.profiles), subscription, now), now)
  {
    var userId := UserIdFrom(subscription.metadata);
    if userId.None? {
      var user := store.GetUserByStripeSubscription(subscription.id);
      if user.Some? && user.value != "" {
        userId := user;
      }
    }
    if userId.None? {
      return;
    }
    var ok := store.UpdateUserSubscription(userId.value,
      map["status" := Str("canceled"), "credits" := Int(0), "canceled_at" := Str(now), "plan" := Str("free")], now);
  }

  method HandlePaymentSucceeded(store: ProfileStore, config: StripeConfig, stripe: StripeApi, invoice: StripeObject, now: string)
    returns (raised: Option<string>)
    requires config.Valid()
    modifies store`profiles
    ensures raised == ErrorOf(PaymentSucceededEffect(config, stripe, store.online, old(store.profiles), invoice))
    ensures StoreStep(store.online, store.hasTransactionLog, store.hasNotifications,
      old(store.profiles), store.transactions, store.notifications,
      store.profiles, store.transactions, store.notifications,
      PaymentSucceededEffect(config, stripe, store.online, old(store.profiles), invoice), now)
  {
    if !Truthy(invoice.subscription) {
      return None;
    }
    var subscriptionId := invoice.subscription.value;
    var user := store.GetUserByStripeSubscription(subscriptionId);
    if user.None? {
      return None;
    }
    var userId := user.value;
    if invoice.billingReason == Some("subscription_cycle") {
      var credits := StoredPlanCredits(store.profiles[userId]);
      if credits == 0 {
        var retrieved := RetrievePrice(stripe, subscriptionId);
        if retrieved.Err? {
          return Some(retrieved.error);
        }
        var planInfo := config.GetPlanType(retrieved.value.0);
        if planInfo.Some? {
          credits := planInfo.value.credits;
        }
      }
      if credits > 0 {
        var ok := store.UpdateUserSubscription(userId, map["credits" := Int(credits)], now);
      }
    }
    raised := None;
  }

  method HandlePaymentFailed(store: ProfileStore, invoice: StripeObject, now: string)
    modifies store`notifications
    ensures StoreStep(store.online, store.hasTransactionLog, store.hasNotifications,
      store.profiles, store.transactions, old(store.notifications),
      store.profiles, store.transactions, store.notifications,
      PaymentFailedEffect(store.online, store.profiles, invoice), now)
  {
    if !Truthy(invoice.subscription) {
      return;
    }
    var user := store.GetUserByStripeSubscription(invoice.subscription.value);
    if user.None? {
      return;
    }
    store.NotifyPaymentFailed(user.value, invoice.hostedInvoiceUrl, now);
  }

  /**
   * `stripe_webhook` after signature verification: route by event type; a handler
   * that raises yields an `error` response rather than an HTTP error.
   */
  method StripeWebhook(store: ProfileStore, config: StripeConfig, stripe: StripeApi, event: StripeEvent, now: string)
    returns (response: WebhookResponse)
    requires config.Valid()
    modifies store`profiles, store`transactions, store`notifications
    ensures var r := EventEffect(config, stripe, store.online, old(store.profiles), event, now);
      && response.eventType == event.eventType
      && response.status == (if r.Err? then "error" else "success")
      && response.error == ErrorOf(r)
      && StoreStep(store.online, store.hasTransactionLog, store.hasNotifications,
           old(store.profiles), old(store.transactions), old(store.notifications),
           store.profiles, store.transactions, store.notifications, r, now)
  {
    var eventType := event.eventType;
    var raised: Option<string> := None;
    if eventType == "checkout.session.completed" {
      raised := HandleCheckoutCompleted(store, config, stripe, event.payload, now);
    } else if eventType == "customer.subscription.updated" {
      raised := HandleSubscriptionUpdated(store, config, event.payload, now);
    } else if eventType == "customer.subscription.deleted" {
      HandleSubscriptionDeleted(store, event.payload, now);
    } else if eventType == "invoice.payment_succeeded" {
      raised := HandlePaymentSucceeded(store, config, stripe, event.payload, now);
    } else if eventType == "invoice.payment_failed" {
      HandlePaymentFailed(store, event.payload, now);
    }
    if raised.Some? {
      response := WebhookResponse("error", eventType, raised);
    } else {
      response := WebhookResponse("success", eventType, None);
    }
  }
}
