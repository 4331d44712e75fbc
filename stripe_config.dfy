/**
 * The plan catalogue: which Stripe price ids are configured, what plan each one
 * sells, how many credits a plan grants, and the plan name stored in a profile.
 */
module Config {
  import opened Wrappers

  /** Billing interval: creator plans say `yearly`, professional plans say `annual`. */
  datatype Interval = Monthly | Yearly | Annual

  datatype Family = Creator | Professional

  /** A catalogue entry; the floating-point prices are not modelled. */
  datatype PlanInfo = PlanInfo(tier: string, interval: Interval, credits: nat, family: Family, name: string)

  function IntervalName(i: Interval): string {
    match i
    case Monthly => "monthly"
    case Yearly => "yearly"
    case Annual => "annual"
  }

  function FamilyName(f: Family): string {
    match f
    case Creator => "creator"
    case Professional => "professional"
  }

  /**
   * The twelve `STRIPE_PRICE_*` environment variables. `""` stands for a variable
   * that is unset or empty: both are falsy, and the catalogue skips both alike.
   */
  datatype PriceEnv = PriceEnv(
    pro: string, proAnnual: string,
    max: string, maxAnnual: string,
    starter: string, starterAnnual: string,
    basicMonthly: string, basicYearly: string,
    proMonthly: string, proYearly: string,
    maxMonthly: string, maxYearly: string)

  const StarterMonthlyPlan := PlanInfo("starter", Monthly, 600, Professional, "Professionnel Premium")
  const StarterAnnualPlan := PlanInfo("starter", Annual, 600, Professional, "Professionnel Premium Annuel")
  const ProMonthlyPlan := PlanInfo("pro-business", Monthly, 1200, Professional, "Professionnel Pro")
  const ProAnnualPlan := PlanInfo("pro-business", Annual, 1200, Professional, "Professionnel Pro Annuel")
  const MaxMonthlyPlan := PlanInfo("max-business", Monthly, 1800, Professional, "Professionnel Max")
  const MaxAnnualPlan := PlanInfo("max-business", Annual, 1800, Professional, "Professionnel Max Annuel")
  const BasicMonthlyPlan := PlanInfo("basic", Monthly, 100, Creator, "Creator Basic")
  const BasicYearlyPlan := PlanInfo("basic", Yearly, 100, Creator, "Creator Basic Annuel")
  const CreatorProMonthlyPlan := PlanInfo("pro", Monthly, 200, Creator, "Creator Pro")
  const CreatorProYearlyPlan := PlanInfo("pro", Yearly, 200, Creator, "Creator Pro Annuel")
  const CreatorMaxMonthlyPlan := PlanInfo("max", Monthly, 300, Creator, "Creator Max")
  const CreatorMaxYearlyPlan := PlanInfo("max", Yearly, 300, Creator, "Creator Max Annuel")

  /** The six professional inserts of the price mapping, in the order the constructor performs them. */
  function ProfessionalCatalogue(env: PriceEnv): seq<(string, PlanInfo)> {
    [ (env.starter, StarterMonthlyPlan), (env.starterAnnual, StarterAnnualPlan),
      (env.pro, ProMonthlyPlan), (env.proAnnual, ProAnnualPlan),
      (env.max, MaxMonthlyPlan), (env.maxAnnual, MaxAnnualPlan) ]
  }

  /** The six creator inserts, performed after the professional ones. */
  function CreatorCatalogue(env: PriceEnv): seq<(string, PlanInfo)> {
    [ (env.basicMonthly, BasicMonthlyPlan), (env.basicYearly, BasicYearlyPlan),
      (env.proMonthly, CreatorProMonthlyPlan), (env.proYearly, CreatorProYearlyPlan),
      (env.maxMonthly, CreatorMaxMonthlyPlan), (env.maxYearly, CreatorMaxYearlyPlan) ]
  }

  /** All twelve conditional inserts of the price mapping, in order. */
  function Catalogue(env: PriceEnv): seq<(string, PlanInfo)> {
    ProfessionalCatalogue(env) + CreatorCatalogue(env)
  }

  /** Every plan the catalogue can sell. */
  const CataloguePlans: set<PlanInfo> := {
    StarterMonthlyPlan, StarterAnnualPlan, ProMonthlyPlan, ProAnnualPlan, MaxMonthlyPlan, MaxAnnualPlan,
    BasicMonthlyPlan, BasicYearlyPlan, CreatorProMonthlyPlan, CreatorProYearlyPlan,
    CreatorMaxMonthlyPlan, CreatorMaxYearlyPlan }

  /** The price ids that are set, whichever plan they end up selling. */
  function ConfiguredIds(env: PriceEnv): set<string> {
    set e | e in Catalogue(env) && e.0 != "" :: e.0
  }

  /** The twelve env ids are pairwise distinct wherever they are set. */
  ghost predicate DistinctIds(env: PriceEnv) {
    var c := Catalogue(env);
    forall i, j :: 0 <= i < j < |c| && c[i].0 != "" ==> c[i].0 != c[j].0
  }

  /** Starting from `m`, insert every entry whose id is set, later entries overwriting earlier ones. */
  function InsertAll(m: map<string, PlanInfo>, entries: seq<(string, PlanInfo)>): map<string, PlanInfo> {
    if entries == [] then m
    else
      var r := InsertAll(m, entries[..|entries| - 1]);
      var e := entries[|entries| - 1];
      if e.0 != "" then r[e.0 := e.1] else r
  }

  /** The price mapping built from nothing. */
  function Inserted(entries: seq<(string, PlanInfo)>): map<string, PlanInfo> {
    InsertAll(map[], entries)
  }

  /** One more conditional insert. */
  lemma InsertAllSnoc(m: map<string, PlanInfo>, entries: seq<(string, PlanInfo)>, e: (string, PlanInfo))
    ensures InsertAll(m, entries + [e]) == if e.0 != "" then InsertAll(m, entries)[e.0 := e.1] else InsertAll(m, entries)
  {
    assert (entries + [e])[..|entries|] == entries;
  }

  /** Inserting two runs of entries one after the other is inserting their concatenation. */
  lemma {:induction false} InsertAllAppend(m: map<string, PlanInfo>, a: seq<(string, PlanInfo)>, b: seq<(string, PlanInfo)>)
    ensures InsertAll(InsertAll(m, a), b) == InsertAll(m, a + b)
    decreases |b|
  {
    if b == [] {
      assert a + b == a;
    } else {
      var init := b[..|b| - 1];
      InsertAllAppend(m, a, init);
      assert (a + b)[..|a + b| - 1] == a + init;
    }
  }

  lemma {:induction false} InsertedKeys(entries: seq<(string, PlanInfo)>, k: string)
    ensures k in Inserted(entries) <==> k != "" && exists e :: e in entries && e.0 == k
  {
    if entries != [] {
      var init := entries[..|entries| - 1];
      InsertedKeys(init, k);
      assert forall e :: e in entries <==> e in init || e == entries[|entries| - 1];
    }
  }

  lemma {:induction false} InsertedValues(entries: seq<(string, PlanInfo)>, k: string)
    requires k in Inserted(entries)
    ensures exists e :: e in entries && e.0 == k && e.1 == Inserted(entries)[k]
  {
    var init := entries[..|entries| - 1];
    var last := entries[|entries| - 1];
    if last.0 != "" && last.0 == k {
      assert last in entries;
    } else {
      InsertedValues(init, k);
      var e :| e in init && e.0 == k && e.1 == Inserted(init)[k];
      assert e in entries;
    }
  }

  /** An entry that no later entry overwrites keeps its plan. */
  lemma {:induction false} InsertedLastWriter(entries: seq<(string, PlanInfo)>, i: nat)
    requires i < |entries| && entries[i].0 != ""
    requires forall j :: i < j < |entries| ==> entries[j].0 != entries[i].0
    ensures entries[i].0 in Inserted(entries) && Inserted(entries)[entries[i].0] == entries[i].1
  {
    if i < |entries| - 1 {
      var init := entries[..|entries| - 1];
      InsertedLastWriter(init, i);
    }
  }

  /** Whatever ids repeat, the plan stored under an entry's id was written by that entry or a later one. */
  lemma {:induction false} InsertedLaterWriter(entries: seq<(string, PlanInfo)>, i: nat)
    requires i < |entries| && entries[i].0 != ""
    ensures entries[i].0 in Inserted(entries)
    ensures exists j :: i <= j < |entries| && entries[j].0 == entries[i].0 && entries[j].1 == Inserted(entries)[entries[i].0]
  {
    var n := |entries| - 1;
    var init := entries[..n];
    if entries[n].0 == entries[i].0 {
      assert Inserted(entries) == Inserted(init)[entries[n].0 := entries[n].1];
    } else {
      InsertedLaterWriter(init, i);
      var j :| i <= j < |init| && init[j].0 == init[i].0 && init[j].1 == Inserted(init)[init[i].0];
      assert entries[j] == init[j];
    }
  }

  /** `get_creator_price_ids` as (key, price id) pairs in dictionary order. */
  function CreatorPriceIds(env: PriceEnv): seq<(string, string)> {
    [ ("basic_monthly", env.basicMonthly), ("basic_yearly", env.basicYearly),
      ("pro_monthly", env.proMonthly), ("pro_yearly", env.proYearly),
      ("max_monthly", env.maxMonthly), ("max_yearly", env.maxYearly) ]
  }

  /** `get_professional_price_ids` as (key, price id) pairs in dictionary order. */
  function ProfessionalPriceIds(env: PriceEnv): seq<(string, string)> {
    [ ("starter_monthly", env.starter), ("starter_annual", env.starterAnnual),
      ("pro_monthly", env.pro), ("pro_annual", env.proAnnual),
      ("max_monthly", env.max), ("max_annual", env.maxAnnual) ]
  }

  const CreatorCredits: map<string, nat> := map[
    "creator_basic" := 100, "creator_basic_yearly" := 100,
    "creator_pro" := 200, "creator_pro_yearly" := 200,
    "creator_max" := 300, "creator_max_yearly" := 300]

  const ProfessionalCredits: map<string, nat> := map[
    "starter" := 600, "starter_annual" := 600,
    "pro" := 1200, "pro_annual" := 1200,
    "max" := 1800, "max_annual" := 1800]

  /** `{**CREATOR_CREDITS, **PROFESSIONAL_CREDITS}`: on a shared key the professional value would win. */
  const AllCredits: map<string, nat> := CreatorCredits + ProfessionalCredits

  /** Every creator plan name starts with `c` and no professional one does. */
  lemma CreditTablesDisjoint()
    ensures CreatorCredits.Keys !! ProfessionalCredits.Keys
  {
    assert forall k :: k in CreatorCredits ==> |k| > 0 && k[0] == 'c';
    assert forall k :: k in ProfessionalCredits ==> |k| > 0 && k[0] != 'c';
  }

  /** The two credit tables share no plan name, so the merge keeps every entry of both. */
  lemma CreditTablesMergeLosesNothing()
    ensures CreatorCredits.Keys !! ProfessionalCredits.Keys
    ensures AllCredits.Keys == CreatorCredits.Keys + ProfessionalCredits.Keys
    ensures forall k :: k in CreatorCredits ==> AllCredits[k] == CreatorCredits[k]
    ensures forall k :: k in ProfessionalCredits ==> AllCredits[k] == ProfessionalCredits[k]
  {
    CreditTablesDisjoint();
  }

  /** `get_credits_for_plan`: the table value for the twelve plan names, 0 for any other string. */
  function GetCreditsForPlan(planName: string): (r: nat)
    ensures planName in CreatorCredits ==> r == CreatorCredits[planName]
    ensures planName in ProfessionalCredits ==> r == ProfessionalCredits[planName]
    ensures planName !in CreatorCredits && planName !in ProfessionalCredits ==> r == 0
    ensures r > 0 <==> planName in AllCredits
  {
    if planName in AllCredits then AllCredits[planName] else 0
  }

  /**
   * The plan name stored in a profile: `creator_<tier>` (plus `_yearly`) for the
   * creator family; `pro`, `max` or the tier itself (plus `_annual`) for professional plans.
   */
  function PlanNameOf(info: PlanInfo): string {
    match info.family
    case Creator =>
      var base := "creator_" + info.tier;
      if info.interval == Yearly then base + "_yearly" else base
    case Professional =>
      var base := if info.tier == "pro-business" then "pro"
                  else if info.tier == "max-business" then "max"
                  else info.tier;
      if info.interval == Annual then base + "_annual" else base
  }

  /** The stored name of each of the twelve catalogue plans. */
  lemma PlanNameTable()
    ensures PlanNameOf(StarterMonthlyPlan) == "starter"
    ensures PlanNameOf(StarterAnnualPlan) == "starter_annual"
    ensures PlanNameOf(ProMonthlyPlan) == "pro"
    ensures PlanNameOf(ProAnnualPlan) == "pro_annual"
    ensures PlanNameOf(MaxMonthlyPlan) == "max"
    ensures PlanNameOf(MaxAnnualPlan) == "max_annual"
    ensures PlanNameOf(BasicMonthlyPlan) == "creator_basic"
    ensures PlanNameOf(BasicYearlyPlan) == "creator_basic_yearly"
    ensures PlanNameOf(CreatorProMonthlyPlan) == "creator_pro"
    ensures PlanNameOf(CreatorProYearlyPlan) == "creator_pro_yearly"
    ensures PlanNameOf(CreatorMaxMonthlyPlan) == "creator_max"
    ensures PlanNameOf(CreatorMaxYearlyPlan) == "creator_max_yearly"
  {
  }

  /** Every catalogue plan's stored name is a known plan name that grants that plan's credits. */
  lemma PlanNameGrantsPlanCredits(info: PlanInfo)
    requires info in CataloguePlans
    ensures PlanNameOf(info) in AllCredits
    ensures GetCreditsForPlan(PlanNameOf(info)) == info.credits
  {
    PlanNameTable();
  }

  /** Creator plans bill monthly or yearly, professional plans monthly or annually. */
  lemma CatalogueIntervals(info: PlanInfo)
    requires info in CataloguePlans
    ensures info.family == Creator ==> info.interval in {Monthly, Yearly}
    ensures info.family == Professional ==> info.interval in {Monthly, Annual}
  {
  }

  lemma CatalogueEntriesArePlans(env: PriceEnv)
    ensures forall e :: e in Catalogue(env) ==> e.1 in CataloguePlans
  {
  }

  /** The mapping's keys are exactly the configured ids; its values are catalogue plans. */
  lemma PriceMappingShape(env: PriceEnv, p: string)
    ensures p in Inserted(Catalogue(env)) <==> p in ConfiguredIds(env)
    ensures p in Inserted(Catalogue(env)) ==> Inserted(Catalogue(env))[p] in CataloguePlans
  {
    InsertedKeys(Catalogue(env), p);
    if p in Inserted(Catalogue(env)) {
      InsertedValues(Catalogue(env), p);
      CatalogueEntriesArePlans(env);
    }
  }

  /** Built once from the environment; afterwards read-only. */
  class StripeConfig {
    const env: PriceEnv
    var priceToPlan: map<string, PlanInfo>

    ghost predicate Valid()
      reads this
    {
      priceToPlan == Inserted(Catalogue(env))
    }

    constructor(env: PriceEnv)
      ensures this.env == env && Valid()
    {
      this.env := env;
      new;
      BuildPriceMapping();
    }

    /** `_build_price_mapping`: start empty, then the professional inserts, then the creator inserts. */
    method BuildPriceMapping()
      modifies this`priceToPlan
      ensures Valid()
    {
      priceToPlan := map[];
      AddProfessionalPrices();
      AddCreatorPrices();
      InsertAllAppend(map[], ProfessionalCatalogue(env), CreatorCatalogue(env));
    }

    /** One conditional insert per professional price variable. */
    method AddProfessionalPrices()
      modifies this`priceToPlan
      ensures priceToPlan == InsertAll(old(priceToPlan), ProfessionalCatalogue(env))
    {
      ghost var m0 := priceToPlan;
      ghost var done: seq<(string, PlanInfo)> := [];
      if env.starter != "" { priceToPlan := priceToPlan[env.starter := StarterMonthlyPlan]; }
      assert priceToPlan == InsertAll(m0, done + [(env.starter, StarterMonthlyPlan)]) by { InsertAllSnoc(m0, done, (env.starter, StarterMonthlyPlan)); }
      done := done + [(env.starter, StarterMonthlyPlan)];
      if env.starterAnnual != "" { priceToPlan := priceToPlan[env.starterAnnual := StarterAnnualPlan]; }
      assert priceToPlan == InsertAll(m0, done + [(env.starterAnnual, StarterAnnualPlan)]) by { InsertAllSnoc(m0, done, (env.starterAnnual, StarterAnnualPlan)); }
      done := done + [(env.starterAnnual, StarterAnnualPlan)];
      if env.pro != "" { priceToPlan := priceToPlan[env.pro := ProMonthlyPlan]; }
      assert priceToPlan == InsertAll(m0, done + [(env.pro, ProMonthlyPlan)]) by { InsertAllSnoc(m0, done, (env.pro, ProMonthlyPlan)); }
      done := done + [(env.pro, ProMonthlyPlan)];
      if env.proAnnual != "" { priceToPlan := priceToPlan[env.proAnnual := ProAnnualPlan]; }
      assert priceToPlan == InsertAll(m0, done + [(env.proAnnual, ProAnnualPlan)]) by { InsertAllSnoc(m0, done, (env.proAnnual, ProAnnualPlan)); }
      done := done + [(env.proAnnual, ProAnnualPlan)];
      if env.max != "" { priceToPlan := priceToPlan[env.max := MaxMonthlyPlan]; }
      assert priceToPlan == InsertAll(m0, done + [(env.max, MaxMonthlyPlan)]) by { InsertAllSnoc(m0, done, (env.max, MaxMonthlyPlan)); }
      done := done + [(env.max, MaxMonthlyPlan)];
      if env.maxAnnual != "" { priceToPlan := priceToPlan[env.maxAnnual := MaxAnnualPlan]; }
      assert priceToPlan == InsertAll(m0, done + [(env.maxAnnual, MaxAnnualPlan)]) by { InsertAllSnoc(m0, done, (env.maxAnnual, MaxAnnualPlan)); }
      done := done + [(env.maxAnnual, MaxAnnualPlan)];
      assert done == ProfessionalCatalogue(env);
    }

    /** One conditional insert per creator price variable. */
    method AddCreatorPrices()
      modifies this`priceToPlan
      ensures priceToPlan == InsertAll(old(priceToPlan), CreatorCatalogue(env))
    {
      ghost var m0 := priceToPlan;
      ghost var done: seq<(string, PlanInfo)> := [];
      if env.basicMonthly != "" { priceToPlan := priceToPlan[env.basicMonthly := BasicMonthlyPlan]; }
      assert priceToPlan == InsertAll(m0, done + [(env.basicMonthly, BasicMonthlyPlan)]) by { InsertAllSnoc(m0, done, (env.basicMonthly, BasicMonthlyPlan)); }
      done := done + [(env.basicMonthly, BasicMonthlyPlan)];
      if env.basicYearly != "" { priceToPlan := priceToPlan[env.basicYearly := BasicYearlyPlan]; }
      assert priceToPlan == InsertAll(m0, done + [(env.basicYearly, BasicYearlyPlan)]) by { InsertAllSnoc(m0, done, (env.basicYearly, BasicYearlyPlan)); }
      done := done + [(env.basicYearly, BasicYearlyPlan)];
      if env.proMonthly != "" { priceToPlan := priceToPlan[env.proMonthly := CreatorProMonthlyPlan]; }
      assert priceToPlan == InsertAll(m0, done + [(env.proMonthly, CreatorProMonthlyPlan)]) by { InsertAllSnoc(m0, done, (env.proMonthly, CreatorProMonthlyPlan)); }
      done := done + [(env.proMonthly, CreatorProMonthlyPlan)];
      if env.proYearly != "" { priceToPlan := priceToPlan[env.proYearly := CreatorProYearlyPlan]; }
      assert priceToPlan == InsertAll(m0, done + [(env.proYearly, CreatorProYearlyPlan)]) by { InsertAllSnoc(m0, done, (env.proYearly, CreatorProYearlyPlan)); }
      done := done + [(env.proYearly, CreatorProYearlyPlan)];
      if env.maxMonthly != "" { priceToPlan := priceToPlan[env.maxMonthly := CreatorMaxMonthlyPlan]; }
      assert priceToPlan == InsertAll(m0, done + [(env.maxMonthly, CreatorMaxMonthlyPlan)]) by { InsertAllSnoc(m0, done, (env.maxMonthly, CreatorMaxMonthlyPlan)); }
      done := done + [(env.maxMonthly, CreatorMaxMonthlyPlan)];
      if env.maxYearly != "" { priceToPlan := priceToPlan[env.maxYearly := CreatorMaxYearlyPlan]; }
      assert priceToPlan == InsertAll(m0, done + [(env.maxYearly, CreatorMaxYearlyPlan)]) by { InsertAllSnoc(m0, done, (env.maxYearly, CreatorMaxYearlyPlan)); }
      done := done + [(env.maxYearly, CreatorMaxYearlyPlan)];
      assert done == CreatorCatalogue(env);
    }

    /** `get_plan_type`: the plan a configured price id sells, `None` for any other id. */
    function GetPlanType(priceId: string): (r: Option<PlanInfo>)
      reads this
      requires Valid()
      ensures r.Some? <==> priceId in ConfiguredIds(env)
      ensures r.Some? ==> r.value in CataloguePlans && r.value.credits > 0
    {
      PriceMappingShape(env, priceId);
      if priceId in priceToPlan then Some(priceToPlan[priceId]) else None
    }

    /** `is_valid_price_id`: exactly the ids `get_plan_type` knows. */
    function IsValidPriceId(priceId: string): (r: bool)
      reads this
      requires Valid()
      ensures r <==> GetPlanType(priceId).Some?
      ensures r <==> priceId != "" && priceId in ConfiguredIds(env)
    {
      priceId in priceToPlan
    }

    /** `get_all_valid_price_ids`, as a set (the list order is not modelled). */
    function AllValidPriceIds(): (r: set<string>)
      reads this
      requires Valid()
      ensures r == ConfiguredIds(env)
      ensures "" !in r
    {
      PriceMappingShapeAll();
      set p | p in priceToPlan && p != ""
    }

    lemma PriceMappingShapeAll()
      requires Valid()
      ensures priceToPlan.Keys == ConfiguredIds(env)
    {
      forall p ensures p in priceToPlan <==> p in ConfiguredIds(env) {
        PriceMappingShape(env, p);
      }
    }

    /**
     * `get_plan_name_from_price_id`: `None` exactly for unknown ids; otherwise a
     * plan name that `get_credits_for_plan` maps back to the plan's own credits.
     */
    function GetPlanNameFromPriceId(priceId: string): (r: Option<string>)
      reads this
      requires Valid()
      ensures r.None? <==> !IsValidPriceId(priceId)
      ensures r.Some? ==> r.value == PlanNameOf(GetPlanType(priceId).value)
      ensures r.Some? ==> r.value in AllCredits
      ensures r.Some? ==> GetCreditsForPlan(r.value) == GetPlanType(priceId).value.credits
    {
      match GetPlanType(priceId)
      case None => None
      case Some(info) =>
        PlanNameGrantsPlanCredits(info);
        Some(PlanNameOf(info))
    }

    /** A set creator variable sells a creator plan, even when it repeats another variable: creator inserts come last. */
    lemma CreatorIdSellsCreatorPlan(i: nat)
      requires Valid()
      requires 6 <= i < 12 && Catalogue(env)[i].0 != ""
      ensures GetPlanType(Catalogue(env)[i].0).Some?
      ensures GetPlanType(Catalogue(env)[i].0).value.family == Creator
    {
      var c := Catalogue(env);
      InsertedLaterWriter(c, i);
      var j :| i <= j < |c| && c[j].0 == c[i].0 && c[j].1 == Inserted(c)[c[i].0];
      assert c[j].1.family == Creator;
    }

    /** With distinct ids, each configured variable sells the plan written next to it. */
    lemma ConfiguredIdSellsItsPlan(i: nat)
      requires Valid() && DistinctIds(env)
      requires i < 12 && Catalogue(env)[i].0 != ""
      ensures GetPlanType(Catalogue(env)[i].0) == Some(Catalogue(env)[i].1)
    {
      InsertedLastWriter(Catalogue(env), i);
    }
  }

  /** The dictionary the module-level `get_plan_type` helper returns (prices left out). */
  datatype PlanDict = PlanDict(tier: string, interval: string, credits: nat, planFamily: string, name: string)

  /** Module-level `get_plan_type`: `None` exactly when the method says so, otherwise a field-by-field copy. */
  function PlanTypeDict(config: StripeConfig, priceId: string): (r: Option<PlanDict>)
    reads config
    requires config.Valid()
    ensures r.None? <==> config.GetPlanType(priceId).None?
    ensures r.Some? ==>
      var info := config.GetPlanType(priceId).value;
      r.value == PlanDict(info.tier, IntervalName(info.interval), info.credits, FamilyName(info.family), info.name)
  {
    match config.GetPlanType(priceId)
    case None => None
    case Some(info) =>
      Some(PlanDict(info.tier, IntervalName(info.interval), info.credits, FamilyName(info.family), info.name))
  }
}
