/**
 * The `profiles` store behind the billing code: subscription updates through the
 * input-key-to-column mapping, credit top-ups with their audit log, payment-failure
 * notifications, and the cancel/reactivate helpers. The database is a map from
 * profile id to row; a failing client (missing credentials) and a missing optional
 * table are constants of the store.
 */
module SupabaseService {
  import opened Wrappers
  import opened Text

  /** A column value of a row. */
  datatype Value = Null | Str(s: string) | Int(i: int)

  type Row = map<string, Value>

  /** A row of the optional `credit_transactions` table. */
  datatype CreditTransaction = CreditTransaction(userId: string, amount: int, transactionType: string, description: string, createdAt: string)

  /** A row of the optional `notifications` table (the message text, which embeds a float amount, is left out). */
  datatype Notification = Notification(userId: string, kind: string, title: string, actionUrl: Option<string>, read: bool, createdAt: string)

  /** `field_mapping` of `update_user_subscription`: input key and column, in dictionary order. */
  const FieldMapping: seq<(string, string)> := [
    ("stripe_customer_id", "stripe_customer_id"),
    ("stripe_subscription_id", "stripe_subscription_id"),
    ("price_id", "price_id"),
    ("status", "subscription_status"),
    ("plan", "plan"),
    ("plan_tier", "plan_tier"),
    ("plan_interval", "plan_interval"),
    ("plan_family", "plan_family"),
    ("credits", "credits"),
    ("current_period_end", "current_period_end"),
    ("canceled_at", "canceled_at")]

  /** The columns an update may write besides `updated_at`. */
  const Columns: set<string> := {
    "stripe_customer_id", "stripe_subscription_id", "price_id", "subscription_status", "plan",
    "plan_tier", "plan_interval", "plan_family", "credits", "current_period_end", "canceled_at"}

  /** The input key a column is filled from: only `status` is renamed. */
  function InputKey(column: string): string {
    if column == "subscription_status" then "status" else column
  }

  /** The copy loop over `pairs`, as a fold from the last pair. */
  function Collect(data: map<string, Value>, pairs: seq<(string, string)>): map<string, Value> {
    if pairs == [] then map[]
    else
      var m := Collect(data, pairs[..|pairs| - 1]);
      var (key, column) := pairs[|pairs| - 1];
      if key in data then m[column := data[key]] else m
  }

  lemma {:induction false} CollectKeys(data: map<string, Value>, pairs: seq<(string, string)>, c: string)
    ensures c in Collect(data, pairs) <==> exists j :: 0 <= j < |pairs| && pairs[j].1 == c && pairs[j].0 in data
  {
    if pairs != [] {
      var init := pairs[..|pairs| - 1];
      CollectKeys(data, init, c);
      if c in Collect(data, init) {
        var j :| 0 <= j < |init| && init[j].1 == c && init[j].0 in data;
        assert pairs[j] == init[j];
      }
      if exists j :: 0 <= j < |pairs| && pairs[j].1 == c && pairs[j].0 in data {
        var j :| 0 <= j < |pairs| && pairs[j].1 == c && pairs[j].0 in data;
        if j < |init| {
          assert init[j] == pairs[j];
        }
      }
    }
  }

  /** Each pair fills its column from the column's own input key, so a later pair never clobbers an earlier one. */
  lemma {:induction false} CollectValues(data: map<string, Value>, pairs: seq<(string, string)>)
    requires forall j :: 0 <= j < |pairs| ==> InputKey(pairs[j].1) == pairs[j].0
    ensures forall c :: c in Collect(data, pairs) ==> InputKey(c) in data && Collect(data, pairs)[c] == data[InputKey(c)]
  {
    if pairs != [] {
      CollectValues(data, pairs[..|pairs| - 1]);
    }
  }

  lemma FieldMappingKeys()
    ensures forall j :: 0 <= j < |FieldMapping| ==> InputKey(FieldMapping[j].1) == FieldMapping[j].0
  {
  }

  lemma FieldMappingColumns(c: string)
    ensures c in Columns <==> exists j :: 0 <= j < |FieldMapping| && FieldMapping[j].1 == c
  {
    if c in Columns {
      if c == "stripe_customer_id" { assert FieldMapping[0].1 == c; }
      else if c == "stripe_subscription_id" { assert FieldMapping[1].1 == c; }
      else if c == "price_id" { assert FieldMapping[2].1 == c; }
      else if c == "subscription_status" { assert FieldMapping[3].1 == c; }
      else if c == "plan" { assert FieldMapping[4].1 == c; }
      else if c == "plan_tier" { assert FieldMapping[5].1 == c; }
      else if c == "plan_interval" { assert FieldMapping[6].1 == c; }
      else if c == "plan_family" { assert FieldMapping[7].1 == c; }
      else if c == "credits" { assert FieldMapping[8].1 == c; }
      else if c == "current_period_end" { assert FieldMapping[9].1 == c; }
      else { assert FieldMapping[10].1 == c; }
    }
  }

  /**
   * The fields `update_user_subscription` copies: a column is written exactly when its
   * input key is present, with that key's value; `status` lands in `subscription_status`
   * and every other key outside the mapping is dropped.
   */
  function Renamed(data: map<string, Value>): (u: map<string, Value>)
    ensures forall c :: c in u <==> c in Columns && InputKey(c) in data
    ensures forall c :: c in u ==> u[c] == data[InputKey(c)]
  {
    FieldMappingKeys();
    CollectValues(data, FieldMapping);
    var u := Collect(data, FieldMapping);
    assert forall c :: c in u <==> c in Columns && InputKey(c) in data by {
      forall c ensures c in u <==> c in Columns && InputKey(c) in data {
        CollectKeys(data, FieldMapping, c);
        FieldMappingColumns(c);
      }
    }
    u
  }

  /** An input key that is not in the mapping never reaches the row. */
  lemma UnmappedKeysAreDropped(data: map<string, Value>, key: string)
    requires key !in Columns && key != "status"
    ensures key !in Renamed(data)
    ensures "status" !in Renamed(data)
    ensures "subscription_status" in Renamed(data) <==> "status" in data
  {
  }

  /** `update_data` of `update_user_subscription`: the copy loop, then `updated_at`. */
  method BuildUpdateData(data: map<string, Value>, now: string) returns (u: map<string, Value>)
    ensures u == Renamed(data)["updated_at" := Str(now)]
  {
    u := map[];
    for i := 0 to |FieldMapping|
      invariant u == Collect(data, FieldMapping[..i])
    {
      var (key, column) := FieldMapping[i];
      assert FieldMapping[..i + 1][..i] == FieldMapping[..i];
      if key in data {
        u := u[column := data[key]];
      }
    }
    assert FieldMapping[..|FieldMapping|] == FieldMapping;
    u := u["updated_at" := Str(now)];
  }

  /** A row after `update_user_subscription`: mapped fields overwritten, `updated_at` set, nothing else changes. */
  function UpdatedRow(row: Row, data: map<string, Value>, now: string): (r: Row)
    ensures r.Keys == row.Keys + Renamed(data).Keys + {"updated_at"}
    ensures r["updated_at"] == Str(now)
    ensures forall c :: c in Columns && InputKey(c) in data ==> r[c] == data[InputKey(c)]
    ensures forall c :: c in row && c != "updated_at" && !(c in Columns && InputKey(c) in data) ==> r[c] == row[c]
  {
    row + Renamed(data)["updated_at" := Str(now)]
  }

  /** The credit balance `add_credits_to_user` reads: a missing field counts as 0, a non-integer raises. */
  function CreditsOf(row: Row): Option<int> {
    if "credits" !in row then Some(0)
    else match row["credits"]
      case Int(i) => Some(i)
      case _ => None
  }

  /** A row after `add_credits_to_user`: the balance grows by `credits`; only `credits` and `updated_at` change. */
  function CreditedRow(row: Row, credits: int, now: string): (r: Row)
    requires CreditsOf(row).Some?
    ensures r.Keys == row.Keys + {"credits", "updated_at"}
    ensures CreditsOf(r) == Some(CreditsOf(row).value + credits)
    ensures r["updated_at"] == Str(now)
    ensures forall c :: c in row && c != "credits" && c != "updated_at" ==> r[c] == row[c]
  {
    row["credits" := Int(CreditsOf(row).value + credits)]["updated_at" := Str(now)]
  }

  /** Two top-ups add up: the balance is a running sum, never a reset. */
  lemma CreditsAccumulate(row: Row, a: int, b: int, t1: string, t2: string)
    requires CreditsOf(row).Some?
    ensures CreditsOf(CreditedRow(row, a, t1)).Some?
    ensures CreditsOf(CreditedRow(CreditedRow(row, a, t1), b, t2)) == Some(CreditsOf(row).value + a + b)
  {
  }

  /** The whole table after `update_user_subscription`: one profile changes, and only when it exists. */
  function ProfilesAfterUpdate(online: bool, profiles: map<string, Row>, userId: string, data: map<string, Value>, now: string)
    : (r: map<string, Row>)
    ensures r.Keys == profiles.Keys
    ensures forall id :: id in profiles && id != userId ==> r[id] == profiles[id]
    ensures online && userId in profiles ==> r[userId] == UpdatedRow(profiles[userId], data, now)
    ensures !online || userId !in profiles ==> r == profiles
  {
    if online && userId in profiles then profiles[userId := UpdatedRow(profiles[userId], data, now)] else profiles
  }

  /** The profiles whose `stripe_subscription_id` is the given id. */
  function Subscribers(profiles: map<string, Row>, subscriptionId: string): set<string> {
    set id | id in profiles && "stripe_subscription_id" in profiles[id]
      && profiles[id]["stripe_subscription_id"] == Str(subscriptionId)
  }

  lemma SingletonHasOneMember(s: set<string>)
    requires |s| == 1
    ensures exists x :: x in s
    ensures forall x, y :: x in s && y in s ==> x == y
  {
    var x :| x in s;
    assert |s - {x}| == 0;
    assert s - {x} == {};
  }

  /** The `.single()` lookup: a result only when exactly one profile carries the subscription id. */
  function SubscriptionOwner(profiles: map<string, Row>, subscriptionId: string): (r: Option<string>)
    ensures r.Some? <==> |Subscribers(profiles, subscriptionId)| == 1
    ensures r.Some? ==> Subscribers(profiles, subscriptionId) == {r.value}
    ensures r.Some? ==> (r.value in profiles && "stripe_subscription_id" in profiles[r.value]
      && profiles[r.value]["stripe_subscription_id"] == Str(subscriptionId))
  {
    var ids := Subscribers(profiles, subscriptionId);
    if |ids| == 1 then
      SingletonHasOneMember(ids);
      var id :| id in ids;
      Some(id)
    else
      None
  }

  /** The data `cancel_subscription` sends. */
  function CancelData(immediate: bool, now: string): map<string, Value> {
    map["status" := Str("canceled"), "canceled_at" := Str(now)]
      + (if immediate then map["credits" := Int(0), "plan" := Str("free")] else map[])
  }

  /** The data `reactivate_subscription` sends. */
  function ReactivateData(plan: string, credits: int): map<string, Value> {
    map["status" := Str("active"), "plan" := Str(plan), "credits" := Int(credits), "canceled_at" := Null]
  }

  /** Cancelling marks the row canceled; only an immediate cancel also zeroes credits and drops the plan to `free`. */
  lemma CancelledRow(row: Row, immediate: bool, now: string)
    ensures var r := UpdatedRow(row, CancelData(immediate, now), now);
      && r["subscription_status"] == Str("canceled")
      && r["canceled_at"] == Str(now)
      && (immediate ==> r["credits"] == Int(0) && r["plan"] == Str("free"))
      && (!immediate ==> forall c :: c in row && c in {"credits", "plan", "price_id"} ==> r[c] == row[c])
  {
    var d := CancelData(immediate, now);
    assert InputKey("subscription_status") in d;
    assert InputKey("canceled_at") in d;
    if !immediate {
      assert "credits" !in d && "plan" !in d && "price_id" !in d;
    }
  }

  /** Reactivating sets status `active`, plan and credits, and clears `canceled_at`. */
  lemma ReactivatedRow(row: Row, plan: string, credits: int, now: string)
    ensures var r := UpdatedRow(row, ReactivateData(plan, credits), now);
      && r["subscription_status"] == Str("active")
      && r["plan"] == Str(plan)
      && CreditsOf(r) == Some(credits)
      && r["canceled_at"] == Null
  {
    var d := ReactivateData(plan, credits);
    assert InputKey("subscription_status") in d && InputKey("plan") in d;
    assert InputKey("credits") in d && InputKey("canceled_at") in d;
  }

  class ProfileStore {
    /** The `profiles` table, by profile id. */
    var profiles: map<string, Row>
    /** The `credit_transactions` table, in insertion order. */
    var transactions: seq<CreditTransaction>
    /** The `notifications` table, in insertion order. */
    var notifications: seq<Notification>
    /** The client can be built (the URL and a service key are set); otherwise every call raises inside its `try`. */
    const online: bool
    /** The optional `credit_transactions` table exists. */
    const hasTransactionLog: bool
    /** The optional `notifications` table exists. */
    const hasNotifications: bool

    constructor(online: bool, hasTransactionLog: bool, hasNotifications: bool, profiles: map<string, Row>)
      ensures this.online == online && this.hasTransactionLog == hasTransactionLog && this.hasNotifications == hasNotifications
      ensures this.profiles == profiles && transactions == [] && notifications == []
    {
      this.online := online;
      this.hasTransactionLog := hasTransactionLog;
      this.hasNotifications := hasNotifications;
      this.profiles := profiles;
      transactions := [];
      notifications := [];
    }

    /** `update_user_subscription`: true exactly when the profile exists; otherwise nothing is written. */
    method UpdateUserSubscription(userId: string, data: map<string, Value>, now: string) returns (ok: bool)
      modifies this`profiles
      ensures ok <==> online && userId in old(profiles)
      ensures profiles == ProfilesAfterUpdate(online, old(profiles), userId, data, now)
    {
      if !online {
        return false;
      }
      var updateData := BuildUpdateData(data, now);
      if userId in profiles {
        profiles := profiles[userId := profiles[userId] + updateData];
        ok := true;
      } else {
        ok := false;
      }
    }

    /** `log_credit_transaction`: one row appended when the table exists; any failure is swallowed. */
    method LogCreditTransaction(userId: string, amount: int, transactionType: string, description: string, now: string)
      modifies this`transactions
      ensures transactions == old(transactions)
        + (if online && hasTransactionLog then [CreditTransaction(userId, amount, transactionType, description, now)] else [])
    {
      if online && hasTransactionLog {
        transactions := transactions + [CreditTransaction(userId, amount, transactionType, description, now)];
      }
    }

    /**
     * `add_credits_to_user`: read the balance, write old + credits, then log one
     * `purchase` transaction. An unknown user or a non-integer balance writes nothing.
     */
    method AddCreditsToUser(userId: string, credits: int, now: string) returns (ok: bool)
      modifies this`profiles, this`transactions
      ensures ok <==> online && userId in old(profiles) && CreditsOf(old(profiles)[userId]).Some?
      ensures ok ==> profiles == old(profiles)[userId := CreditedRow(old(profiles)[userId], credits, now)]
      ensures !ok ==> profiles == old(profiles)
      ensures transactions == old(transactions)
        + (if ok && hasTransactionLog
           then [CreditTransaction(userId, credits, "purchase", "Credit purchase: +" + IntToString(credits), now)]
           else [])
    {
      if !online || userId !in profiles {
        return false;
      }
      var current := CreditsOf(profiles[userId]);
      if current.None? {
        return false;
      }
      var newCredits := current.value + credits;
      profiles := profiles[userId := profiles[userId]["credits" := Int(newCredits)]["updated_at" := Str(now)]];
      LogCreditTransaction(userId, credits, "purchase", "Credit purchase: +" + IntToString(credits), now);
      ok := true;
    }

    /** `get_user_by_stripe_subscription`: the owning profile id, or none (also when the client fails). */
    function GetUserByStripeSubscription(subscriptionId: string): (r: Option<string>)
      reads this
      ensures r.Some? <==> online && |Subscribers(profiles, subscriptionId)| == 1
      ensures r.Some? ==> (r.value in profiles && "stripe_subscription_id" in profiles[r.value]
        && profiles[r.value]["stripe_subscription_id"] == Str(subscriptionId))
    {
      if online then SubscriptionOwner(profiles, subscriptionId) else None
    }

    /** `notify_payment_failed`: one unread notification appended when the table exists; nothing else changes. */
    method NotifyPaymentFailed(userId: string, invoiceUrl: Option<string>, now: string)
      modifies this`notifications
      ensures notifications == old(notifications)
        + (if online && hasNotifications
           then [Notification(userId, "payment_failed", "\U{C9}chec de paiement", invoiceUrl, false, now)]
           else [])
    {
      if online && hasNotifications {
        notifications := notifications + [Notification(userId, "payment_failed", "\U{C9}chec de paiement", invoiceUrl, false, now)];
      }
    }

    /** `cancel_subscription`: an update with `CancelData`. */
    method CancelSubscription(userId: string, immediate: bool, now: string) returns (ok: bool)
      modifies this`profiles
      ensures ok <==> online && userId in old(profiles)
      ensures profiles == ProfilesAfterUpdate(online, old(profiles), userId, CancelData(immediate, now), now)
    {
      var data := map["status" := Str("canceled"), "canceled_at" := Str(now)];
      if immediate {
        data := data["credits" := Int(0)]["plan" := Str("free")];
      }
      assert data == CancelData(immediate, now);
      ok := UpdateUserSubscription(userId, data, now);
    }

    /** `reactivate_subscription`: an update with `ReactivateData`. */
    method ReactivateSubscription(userId: string, plan: string, credits: int, now: string) returns (ok: bool)
      modifies this`profiles
      ensures ok <==> online && userId in old(profiles)
      ensures profiles == ProfilesAfterUpdate(online, old(profiles), userId, ReactivateData(plan, credits), now)
    {
      ok := UpdateUserSubscription(userId, ReactivateData(plan, credits), now);
    }
  }
}
