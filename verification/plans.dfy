/** The static plan catalog of lib/donation-plans.ts and its two lookups. */
module Plans {
  import opened Wrappers
  import opened Schemas

  /** The process environment, read once; only the plan-code overrides matter here. */
  type Env = map<string, string>

  /** `process.env[name] || fallback`: an unset or empty variable falls back
      to the literal default. */
  function EnvOr(env: Env, name: string, fallback: string): (r: string)
    ensures fallback != "" ==> r != ""
    ensures name in env && env[name] != "" ==> r == env[name]
    ensures (name !in env || env[name] == "") ==> r == fallback
  {
    if name in env && env[name] != "" then env[name] else fallback
  }

  function Recurring(env: Env, id: string, name: string, amount: int, interval: Interval,
                     variable: string, defaultCode: string, description: string): DonationPlan
  {
    DonationPlan(id, name, amount, "ZAR", interval, Some(EnvOr(env, variable, defaultCode)), Some(description))
  }

  function OneOffPlan(id: string, name: string, amount: int, description: string): DonationPlan
  {
    DonationPlan(id, name, amount, "ZAR", OneOff, None, Some(description))
  }

  function MonthlyPlans(env: Env): seq<DonationPlan>
  {
    [ Recurring(env, "monthly-100", "R100 Monthly", 100, Monthly,
        "NEXT_PUBLIC_PLAN_MONTHLY_100", "PLN_6esb90pg4anp9zq", "Support with R100 monthly"),
      Recurring(env, "monthly-200", "R200 Monthly", 200, Monthly,
        "NEXT_PUBLIC_PLAN_MONTHLY_200", "PLN_gbdvu0avcfc0pam", "Support with R200 monthly"),
      Recurring(env, "monthly-500", "R500 Monthly", 500, Monthly,
        "NEXT_PUBLIC_PLAN_MONTHLY_500", "PLN_cxf9b3batni3vbw", "Support with R500 monthly"),
      Recurring(env, "monthly-1000", "R1,000 Monthly", 1000, Monthly,
        "NEXT_PUBLIC_PLAN_MONTHLY_1000", "PLN_pjim6eus6gb4cps", "Support with R1,000 monthly"),
      Recurring(env, "monthly-2000", "R2,000 Monthly", 2000, Monthly,
        "NEXT_PUBLIC_PLAN_MONTHLY_2000", "PLN_3qmpozj5pw7zywn", "Support with R2,000 monthly"),
      Recurring(env, "monthly-5000", "R5,000 Monthly", 5000, Monthly,
        "NEXT_PUBLIC_PLAN_MONTHLY_5000", "PLN_wbvihpcg770t4et", "Support with R5,000 monthly") ]
  }

  function AnnualPlans(env: Env): seq<DonationPlan>
  {
    [ Recurring(env, "annual-1200", "R1,200 Annually", 1200, Annually,
        "NEXT_PUBLIC_PLAN_ANNUAL_1200", "PLN_95wv2r523jlipyo", "Support with R1,200 annually"),
      Recurring(env, "annual-2400", "R2,400 Annually", 2400, Annually,
        "NEXT_PUBLIC_PLAN_ANNUAL_2400", "PLN_71kwj3au6tcys9p", "Support with R2,400 annually"),
      Recurring(env, "annual-6000", "R6,000 Annually", 6000, Annually,
        "NEXT_PUBLIC_PLAN_ANNUAL_6000", "PLN_zc8fhee0zlrwtqf", "Support with R6,000 annually"),
      Recurring(env, "annual-12000", "R12,000 Annually", 12000, Annually,
        "NEXT_PUBLIC_PLAN_ANNUAL_12000", "PLN_bm2ybbv7m421xbv", "Support with R12,000 annually"),
      Recurring(env, "annual-15000", "R15,000 Annually", 15000, Annually,
        "NEXT_PUBLIC_PLAN_ANNUAL_15000", "PLN_2yp34fcr8vj03j5", "Support with R15,000 annually"),
      Recurring(env, "annual-20000", "R20,000 Annually", 20000, Annually,
        "NEXT_PUBLIC_PLAN_ANNUAL_20000", "PLN_ecx205ldzx198yh", "Support with R20,000 annually") ]
  }

  const OneOffPlans: seq<DonationPlan> :=
    [ OneOffPlan("one-off-1000", "R1,000 One-Off", 1000, "Support with R1,000 one-time donation"),
      OneOffPlan("one-off-2000", "R2,000 One-Off", 2000, "Support with R2,000 one-time donation"),
      OneOffPlan("one-off-3000", "R3,000 One-Off", 3000, "Support with R3,000 one-time donation"),
      OneOffPlan("one-off-4000", "R4,000 One-Off", 4000, "Support with R4,000 one-time donation"),
      OneOffPlan("one-off-5000", "R5,000 One-Off", 5000, "Support with R5,000 one-time donation"),
      OneOffPlan("one-off-10000", "R10,000 One-Off", 10000, "Support with R10,000 one-time donation") ]

  /** `ALL_PLANS`. */
  function AllPlans(env: Env): seq<DonationPlan>
  {
    MonthlyPlans(env) + AnnualPlans(env) + OneOffPlans
  }

  /** The plan ids, in catalog order; they do not depend on the environment. */
  const PlanIds: seq<string> :=
    [ "monthly-100", "monthly-200", "monthly-500", "monthly-1000", "monthly-2000", "monthly-5000",
      "annual-1200", "annual-2400", "annual-6000", "annual-12000", "annual-15000", "annual-20000",
      "one-off-1000", "one-off-2000", "one-off-3000", "one-off-4000", "one-off-5000", "one-off-10000" ]

  /** `ALL_PLANS.find(plan => plan.id === id)`: the first plan with that id. */
  function FindById(plans: seq<DonationPlan>, id: string): (r: Option<DonationPlan>)
    ensures r.None? <==> forall k :: 0 <= k < |plans| ==> plans[k].id != id
    ensures r.Some? ==> exists k :: 0 <= k < |plans| && plans[k] == r.value
                          && r.value.id == id
                          && forall j :: 0 <= j < k ==> plans[j].id != id
  {
    if |plans| == 0 then None
    else if plans[0].id == id then Some(plans[0])
    else
      var r := FindById(plans[1..], id);
      if r.Some? then
        var k :| 0 <= k < |plans[1..]| && plans[1..][k] == r.value && r.value.id == id
                 && forall j :: 0 <= j < k ==> plans[1..][j].id != id;
        assert plans[k + 1] == r.value;
        r
      else r
  }

  /** `ALL_PLANS.find(plan => plan.planCode === planCode)`: the first plan
      carrying that code; a plan without a code never matches. */
  function FindByCode(plans: seq<DonationPlan>, code: string): (r: Option<DonationPlan>)
    ensures r.None? <==> forall k :: 0 <= k < |plans| ==> plans[k].planCode != Some(code)
    ensures r.Some? ==> exists k :: 0 <= k < |plans| && plans[k] == r.value
                          && r.value.planCode == Some(code)
                          && forall j :: 0 <= j < k ==> plans[j].planCode != Some(code)
  {
    if |plans| == 0 then None
    else if plans[0].planCode == Some(code) then Some(plans[0])
    else
      var r := FindByCode(plans[1..], code);
      if r.Some? then
        var k :| 0 <= k < |plans[1..]| && plans[1..][k] == r.value && r.value.planCode == Some(code)
                 && forall j :: 0 <= j < k ==> plans[1..][j].planCode != Some(code);
        assert plans[k + 1] == r.value;
        r
      else r
  }

  /** `getPlanById`. */
  function GetPlanById(env: Env, id: string): (r: Option<DonationPlan>)
    ensures r.Some? ==> r.value.id == id && r.value in AllPlans(env)
  {
    FindById(AllPlans(env), id)
  }

  /** `getPlanByCode`. */
  function GetPlanByCode(env: Env, code: string): (r: Option<DonationPlan>)
    ensures r.Some? ==> r.value.planCode == Some(code) && r.value in AllPlans(env)
  {
    FindByCode(AllPlans(env), code)
  }

  /** The catalog is the monthly, annual and one-off lists in that order, six
      plans each, with the ids of `PlanIds`. */
  lemma CatalogLayout(env: Env)
    ensures |MonthlyPlans(env)| == 6 && |AnnualPlans(env)| == 6 && |OneOffPlans| == 6
    ensures |AllPlans(env)| == 18
    ensures AllPlans(env)[..6] == MonthlyPlans(env)
    ensures AllPlans(env)[6..12] == AnnualPlans(env)
    ensures AllPlans(env)[12..] == OneOffPlans
    ensures forall k :: 0 <= k < 18 ==> AllPlans(env)[k].id == PlanIds[k]
  {
    var all := AllPlans(env);
    assert all[..6] == MonthlyPlans(env);
    assert all[6..12] == AnnualPlans(env);
    assert all[12..] == OneOffPlans;
  }

  lemma MonthlyInvariants(env: Env)
    ensures forall k :: 0 <= k < |MonthlyPlans(env)| ==>
      var p := MonthlyPlans(env)[k];
      p.interval == Monthly && p.currency == "ZAR" && p.amount > 0
      && p.planCode.Some? && p.planCode.value != ""
  {
  }

  lemma AnnualInvariants(env: Env)
    ensures forall k :: 0 <= k < |AnnualPlans(env)| ==>
      var p := AnnualPlans(env)[k];
      p.interval == Annually && p.currency == "ZAR" && p.amount > 0
      && p.planCode.Some? && p.planCode.value != ""
  {
  }

  lemma OneOffInvariants()
    ensures forall k :: 0 <= k < |OneOffPlans| ==>
      var p := OneOffPlans[k];
      p.interval == OneOff && p.currency == "ZAR" && p.amount > 0 && p.planCode.None?
  {
  }

  /** Every plan's interval matches its list, its currency is ZAR and its
      amount is positive; recurring plans carry a non-empty plan code whatever
      the environment, one-off plans carry none. */
  lemma CatalogInvariants(env: Env)
    ensures forall p :: p in MonthlyPlans(env) ==> p.interval == Monthly
    ensures forall p :: p in AnnualPlans(env) ==> p.interval == Annually
    ensures forall p :: p in OneOffPlans ==> p.interval == OneOff
    ensures forall p :: p in AllPlans(env) ==> p.currency == "ZAR" && p.amount > 0
    ensures forall p :: p in AllPlans(env) && p.interval != OneOff ==>
      p.planCode.Some? && p.planCode.value != ""
    ensures forall p :: p in AllPlans(env) && p.interval == OneOff ==> p.planCode.None?
  {
    MonthlyInvariants(env);
    AnnualInvariants(env);
    OneOffInvariants();
    var m, a, o := MonthlyPlans(env), AnnualPlans(env), OneOffPlans;
    forall p | p in AllPlans(env)
      ensures p.currency == "ZAR" && p.amount > 0
      ensures p.interval != OneOff ==> p.planCode.Some? && p.planCode.value != ""
      ensures p.interval == OneOff ==> p.planCode.None?
    {
      assert p in m || p in a || p in o;
    }
  }

  /** No two plans share an id. */
  lemma PlanIdsDistinct(env: Env)
    ensures forall i, j :: 0 <= i < j < |AllPlans(env)| ==> AllPlans(env)[i].id != AllPlans(env)[j].id
  {
    CatalogLayout(env);
    assert forall i, j :: 0 <= i < j < 18 ==> PlanIds[i] != PlanIds[j] by {
      forall i, j | 0 <= i < j < 18 ensures PlanIds[i] != PlanIds[j] {
        IdsDiffer(i, j);
      }
    }
  }

  lemma IdsDiffer(i: int, j: int)
    requires 0 <= i < j < 18
    ensures PlanIds[i] != PlanIds[j]
  {
    var a, b := PlanIds[i], PlanIds[j];
    // the ids differ in length, in their family's first letter, or in the
    // leading digits of the amount
    assert |a| != |b| || a[0] != b[0] || a[7] != b[7] || a[8] != b[8];
  }

  /** Looking up any catalog plan by its id returns that plan; an id outside
      the catalog finds nothing. */
  lemma GetPlanByIdFindsPlan(env: Env, p: DonationPlan)
    requires p in AllPlans(env)
    ensures GetPlanById(env, p.id) == Some(p)
  {
    var all := AllPlans(env);
    PlanIdsDistinct(env);
    var r := GetPlanById(env, p.id);
    var k :| 0 <= k < |all| && all[k] == r.value && r.value.id == p.id
             && forall j :: 0 <= j < k ==> all[j].id != p.id;
    var i :| 0 <= i < |all| && all[i] == p;
  }

  /** An id outside the catalog finds nothing. */
  lemma GetPlanByIdMissing(env: Env, id: string)
    requires id !in PlanIds
    ensures GetPlanById(env, id).None?
  {
    CatalogLayout(env);
    forall k | 0 <= k < |AllPlans(env)| ensures AllPlans(env)[k].id != id {
      assert AllPlans(env)[k].id == PlanIds[k];
    }
  }

  /** Lookup by code never yields a one-off plan, and whatever it yields is a
      catalog plan carrying that code. */
  lemma GetPlanByCodeRecurring(env: Env, code: string)
    ensures GetPlanByCode(env, code).Some? ==>
      GetPlanByCode(env, code).value in AllPlans(env)
      && GetPlanByCode(env, code).value.interval != OneOff
      && GetPlanByCode(env, code).value.planCode == Some(code)
  {
    CatalogInvariants(env);
  }
}
