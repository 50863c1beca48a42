/**
 * The entitlement catalogue and the trial lifecycle of a tenant's subscription:
 * the fixed four-plan feature/price table with its fall-back to `free`, the
 * trial-expiry predicate and the per-feature flag test.
 */
module Subscription {
  import opened Common

  datatype Plan = Free | Starter | Professional | Enterprise

  datatype Status = Trial | Active | Inactive | Cancelled | Expired

  /** A stored feature flag: a capability switch or a numeric limit (`-1` is the "unlimited" sentinel). */
  datatype Flag = Bool(b: bool) | Num(n: int)

  datatype Features = Features(
    productLimit: int,
    storageLimit: int,
    customDomain: bool,
    aiLandingPage: bool,
    advancedAnalytics: bool,
    prioritySupport: bool,
    removeWatermark: bool,
    multipleStores: int,
    teamMembers: int,
    apiAccess: bool,
    exportData: bool,
    chatSupport: bool,
    whatsappIntegration: bool,
    emailMarketing: bool,
    abandonedCartRecovery: bool)

  /** One bundle of the plan table: display name, IDR prices and features. */
  datatype PlanDetails = PlanDetails(name: string, monthly: int, yearly: int, features: Features)

  /** The persisted subscription fields that entitlement and the trial lifecycle depend on; dates are epoch milliseconds. */
  datatype Subscription = Subscription(
    user: UserId,
    store: StoreId,
    plan: Plan,
    status: Status,
    features: Features,
    trialStartDate: int,
    trialEndDate: int)

  const MiB: int := 1024 * 1024
  const GiB: int := 1024 * MiB
  const DayMs: int := 24 * 60 * 60 * 1000
  /** Default trial window: fourteen days. */
  const TrialWindowMs: int := 14 * DayMs

  /** The key under which a plan is stored and looked up. */
  function PlanKey(p: Plan): string
  {
    match p
    case Free => "free"
    case Starter => "starter"
    case Professional => "professional"
    case Enterprise => "enterprise"
  }

  const PlanKeys: set<string> := {"free", "starter", "professional", "enterprise"}

  /** Position of a plan in the upgrade order free < starter < professional < enterprise. */
  function Rank(p: Plan): nat
  {
    match p
    case Free => 0
    case Starter => 1
    case Professional => 2
    case Enterprise => 3
  }

  /** The fixed plan table. */
  function Details(p: Plan): PlanDetails
  {
    match p
    case Free =>
      PlanDetails("Free", 0, 0,
        Features(10, 100 * MiB, false, false, false, false, false, 1, 1, false, true, false, true, false, false))
    case Starter =>
      PlanDetails("Starter", 99000, 990000,
        Features(100, GiB, false, false, true, false, true, 1, 3, false, true, true, true, true, false))
    case Professional =>
      PlanDetails("Professional", 299000, 2990000,
        Features(1000, 5 * GiB, true, false, true, true, true, 3, 10, true, true, true, true, true, true))
    case Enterprise =>
      PlanDetails("Enterprise", 999000, 9990000,
        Features(-1, 50 * GiB, true, true, true, true, true, -1, -1, true, true, true, true, true, true))
  }

  /** `getPlanDetails(planName)`: the bundle stored under the name, or the free bundle for any other name. */
  function GetPlanDetails(name: string): (d: PlanDetails)
    ensures forall p :: name == PlanKey(p) ==> d == Details(p)
    ensures name !in PlanKeys ==> d == Details(Free)
  {
    if name == "starter" then Details(Starter)
    else if name == "professional" then Details(Professional)
    else if name == "enterprise" then Details(Enterprise)
    else Details(Free)
  }

  /** The features the schema gives a subscription created without explicit features. */
  const SchemaDefaultFeatures: Features :=
    Features(10, 100 * MiB, false, false, false, false, false, 1, 1, false, true, true, true, false, false)
  /** The fifteen feature fields of a subscription. */
  datatype Feature =
    | ProductLimit | StorageLimit | CustomDomain | AiLandingPage | AdvancedAnalytics
    | PrioritySupport | RemoveWatermark | MultipleStores | TeamMembers | ApiAccess
    | ExportData | ChatSupport | WhatsappIntegration | EmailMarketing | AbandonedCartRecovery

  /** The name under which a feature field is stored and asked for. */
  function FeatureName(x: Feature): string
  {
    match x
    case ProductLimit => "productLimit"
    case StorageLimit => "storageLimit"
    case CustomDomain => "customDomain"
    case AiLandingPage => "aiLandingPage"
    case AdvancedAnalytics => "advancedAnalytics"
    case PrioritySupport => "prioritySupport"
    case RemoveWatermark => "removeWatermark"
    case MultipleStores => "multipleStores"
    case TeamMembers => "teamMembers"
    case ApiAccess => "apiAccess"
    case ExportData => "exportData"
    case ChatSupport => "chatSupport"
    case WhatsappIntegration => "whatsappIntegration"
    case EmailMarketing => "emailMarketing"
    case AbandonedCartRecovery => "abandonedCartRecovery"
  }

  /** The feature a name denotes, if it is one of the fifteen field names. */
  function ParseFeature(name: string): (r: Option<Feature>)
    ensures r.Some? ==> FeatureName(r.value) == name
  {
    if name == "productLimit" then Some(ProductLimit)
    else if name == "storageLimit" then Some(StorageLimit)
    else if name == "customDomain" then Some(CustomDomain)
    else if name == "aiLandingPage" then Some(AiLandingPage)
    else if name == "advancedAnalytics" then Some(AdvancedAnalytics)
    else if name == "prioritySupport" then Some(PrioritySupport)
    else if name == "removeWatermark" then Some(RemoveWatermark)
    else if name == "multipleStores" then Some(MultipleStores)
    else if name == "teamMembers" then Some(TeamMembers)
    else if name == "apiAccess" then Some(ApiAccess)
    else if name == "exportData" then Some(ExportData)
    else if name == "chatSupport" then Some(ChatSupport)
    else if name == "whatsappIntegration" then Some(WhatsappIntegration)
    else if name == "emailMarketing" then Some(EmailMarketing)
    else if name == "abandonedCartRecovery" then Some(AbandonedCartRecovery)
    else None
  }

  /** The four numeric limits; every other feature is a capability switch. */
  predicate IsLimit(x: Feature)
  {
    x == ProductLimit || x == StorageLimit || x == MultipleStores || x == TeamMembers
  }

  /** The flag stored in a feature's field: a number for the limits, a boolean for the switches. */
  function Field(f: Features, x: Feature): (v: Flag)
    ensures v.Num? <==> IsLimit(x)
  {
    match x
    case ProductLimit => Num(f.productLimit)
    case StorageLimit => Num(f.storageLimit)
    case CustomDomain => Bool(f.customDomain)
    case AiLandingPage => Bool(f.aiLandingPage)
    case AdvancedAnalytics => Bool(f.advancedAnalytics)
    case PrioritySupport => Bool(f.prioritySupport)
    case RemoveWatermark => Bool(f.removeWatermark)
    case MultipleStores => Num(f.multipleStores)
    case TeamMembers => Num(f.teamMembers)
    case ApiAccess => Bool(f.apiAccess)
    case ExportData => Bool(f.exportData)
    case ChatSupport => Bool(f.chatSupport)
    case WhatsappIntegration => Bool(f.whatsappIntegration)
    case EmailMarketing => Bool(f.emailMarketing)
    case AbandonedCartRecovery => Bool(f.abandonedCartRecovery)
  }

  /** `this.features[feature]`: the flag stored under a feature name, absent for any other name. */
  function Lookup(f: Features, name: string): (v: Option<Flag>)
    ensures v.Some? <==> exists x :: FeatureName(x) == name
  {
    var r := ParseFeature(name);
    if r.Some? then Some(Field(f, r.value))
    else
      assert forall x :: FeatureName(x) != name by {
        forall x ensures FeatureName(x) != name { FeatureNameRoundTrip(x); }
      }
      None
  }

  const AllFeatures: set<Feature> := {
    ProductLimit, StorageLimit, CustomDomain, AiLandingPage, AdvancedAnalytics,
    PrioritySupport, RemoveWatermark, MultipleStores, TeamMembers, ApiAccess,
    ExportData, ChatSupport, WhatsappIntegration, EmailMarketing, AbandonedCartRecovery}

  /** The boolean capabilities switched on in a feature record. */
  function Enabled(f: Features): (s: set<Feature>)
    ensures forall x :: x in s <==> Field(f, x) == Bool(true)
  {
    set x | x in AllFeatures && Field(f, x) == Bool(true)
  }

  /** `isTrialExpired()`, with the clock passed in as `now`. */
  predicate IsTrialExpired(s: Subscription, now: int)
  {
    if s.status != Trial then false else now > s.trialEndDate
  }

  /** `canAccessFeature(feature)`: the flag is exactly `true`, or a number greater than zero. */
  predicate CanAccessFeature(f: Features, feature: string)
  {
    match Lookup(f, feature)
    case Some(Bool(b)) => b
    case Some(Num(n)) => n > 0
    case None => false
  }

  /** A subscription created with the schema's status and trial-window defaults at time `now`. */
  function NewTrial(user: UserId, store: StoreId, plan: Plan, features: Features, now: int): (s: Subscription)
    ensures s.status == Trial && s.trialStartDate == now
    ensures s.trialEndDate - s.trialStartDate == 14 * 24 * 60 * 60 * 1000
    ensures s.user == user && s.store == store && s.plan == plan && s.features == features
  {
    Subscription(user, store, plan, Trial, features, now, now + TrialWindowMs)
  }

  /** Status changes the lifecycle permits: trial to active or expired, active to cancelled or expired. */
  predicate AllowedTransition(from: Status, to: Status)
  {
    from == to
    || (from == Trial && (to == Active || to == Expired))
    || (from == Active && (to == Cancelled || to == Expired))
  }

  /** The one status write in scope: a trial found expired is set to `expired`, nothing else changes. */
  function ExpireTrial(s: Subscription): (e: Subscription)
    requires s.status == Trial
    ensures AllowedTransition(s.status, e.status) && e.status == Expired
    ensures e.(status := s.status) == s
  {
    s.(status := Expired)
  }

  // ---------------------------------------------------------------- properties

  lemma PlanKeyRoundTrip(p: Plan)
    ensures GetPlanDetails(PlanKey(p)) == Details(p)
    ensures forall q :: PlanKey(q) == PlanKey(p) ==> q == p
    ensures PlanKey(p) in PlanKeys
  {
  }

  /** Any name outside the four plan keys fails closed to the free bundle. */
  lemma UnknownPlanIsFree(name: string)
    requires name !in PlanKeys
    ensures GetPlanDetails(name) == GetPlanDetails("free")
  {
  }

  /** Yearly price is ten months, and monthly prices strictly rise with the plan order. */
  lemma PricingLaws(p: Plan, q: Plan)
    ensures Details(p).yearly == 10 * Details(p).monthly
    ensures Rank(p) < Rank(q) ==> Details(p).monthly < Details(q).monthly
    ensures Details(p).monthly >= 0
  {
  }


  /** Every feature's name parses back to that feature, so distinct features have distinct names. */
  lemma FeatureNameRoundTrip(x: Feature)
    ensures ParseFeature(FeatureName(x)) == Some(x)
  {
    if x.ProductLimit? || x.StorageLimit? || x.CustomDomain? || x.AiLandingPage? || x.AdvancedAnalytics? {
      EarlyNamesRoundTrip(x);
    } else if x.PrioritySupport? || x.RemoveWatermark? || x.MultipleStores? || x.TeamMembers? || x.ApiAccess? {
      MiddleNamesRoundTrip(x);
    } else {
      LateNamesRoundTrip(x);
    }
  }

  lemma EarlyNamesRoundTrip(x: Feature)
    requires x.ProductLimit? || x.StorageLimit? || x.CustomDomain? || x.AiLandingPage? || x.AdvancedAnalytics?
    ensures ParseFeature(FeatureName(x)) == Some(x)
  {
  }

  lemma MiddleNamesRoundTrip(x: Feature)
    requires x.PrioritySupport? || x.RemoveWatermark? || x.MultipleStores? || x.TeamMembers? || x.ApiAccess?
    ensures ParseFeature(FeatureName(x)) == Some(x)
  {
  }

  lemma LateNamesRoundTrip(x: Feature)
    requires x.ExportData? || x.ChatSupport? || x.WhatsappIntegration? || x.EmailMarketing? || x.AbandonedCartRecovery?
    ensures ParseFeature(FeatureName(x)) == Some(x)
  {
  }

  /** Asking for a feature by its name reads that feature's own field. */
  lemma LookupByName(f: Features, x: Feature)
    ensures Lookup(f, FeatureName(x)) == Some(Field(f, x))
  {
    FeatureNameRoundTrip(x);
  }

  /** The set of switched-on capabilities only grows along the upgrade order. */
  lemma {:induction false} EnabledGrowsWithPlan(p: Plan, q: Plan)
    requires Rank(p) <= Rank(q)
    ensures Enabled(Details(p).features) <= Enabled(Details(q).features)
  {
    var fp, fq := Details(p).features, Details(q).features;
    forall x | x in Enabled(fp) ensures x in Enabled(fq) {
      assert Field(fp, x) == Bool(true);
    }
  }

  lemma AiLandingPageOnlyEnterprise(p: Plan)
    ensures AiLandingPage in Enabled(Details(p).features) <==> p == Enterprise
  {
  }

  /** A numeric limit read with `-1` as "unlimited". */
  predicate LimitAtMost(a: int, b: int)
  {
    b == -1 || (a != -1 && a <= b)
  }

  /** Read with `-1` as unlimited, every numeric limit also grows along the upgrade order. */
  lemma NumericLimitsGrowWithPlan(p: Plan, q: Plan, x: Feature)
    requires Rank(p) <= Rank(q) && IsLimit(x)
    ensures LimitAtMost(Field(Details(p).features, x).n, Field(Details(q).features, x).n)
  {
  }

  /** The flag test is literal: only `true` and positive numbers grant; `false`, `0`, `-1` and unknown names deny. */
  lemma FeatureAccessCases(f: Features, feature: string)
    ensures Lookup(f, feature) == Some(Bool(true)) ==> CanAccessFeature(f, feature)
    ensures Lookup(f, feature) == Some(Bool(false)) ==> !CanAccessFeature(f, feature)
    ensures forall n :: Lookup(f, feature) == Some(Num(n)) ==> (CanAccessFeature(f, feature) <==> n > 0)
    ensures Lookup(f, feature) == Some(Num(-1)) ==> !CanAccessFeature(f, feature)
    ensures (forall x :: FeatureName(x) != feature) ==> !CanAccessFeature(f, feature)
  {
  }

  /**
   * Because of the literal test, the enterprise bundle's "unlimited" team members,
   * stores and products are denied where the free bundle's positive limits grant.
   */
  lemma UnlimitedSentinelDenied(x: Feature)
    requires x == ProductLimit || x == MultipleStores || x == TeamMembers
    ensures CanAccessFeature(Details(Free).features, FeatureName(x))
    ensures !CanAccessFeature(Details(Enterprise).features, FeatureName(x))
  {
    LookupByName(Details(Free).features, x);
    LookupByName(Details(Enterprise).features, x);
  }

  /** A boolean capability grants exactly when it is switched on. */
  lemma BooleanAccessIsEnabled(f: Features, x: Feature)
    requires !IsLimit(x)
    ensures CanAccessFeature(f, FeatureName(x)) <==> x in Enabled(f)
  {
    LookupByName(f, x);
  }

  /** A non-trial subscription is never trial-expired, whatever the dates. */
  lemma OnlyTrialsExpire(s: Subscription, now: int)
    requires s.status != Trial
    ensures !IsTrialExpired(s, now)
  {
  }

  /** For a trial, expiry is strict: not expired at the end instant, expired from the next millisecond on. */
  lemma TrialExpiryBoundary(s: Subscription)
    requires s.status == Trial
    ensures !IsTrialExpired(s, s.trialEndDate)
    ensures forall t :: t > s.trialEndDate ==> IsTrialExpired(s, t)
    ensures forall t :: t <= s.trialEndDate ==> !IsTrialExpired(s, t)
  {
  }

  /** Once expired, a trial stays expired as time passes. */
  lemma TrialExpiryMonotone(s: Subscription, t: int, t': int)
    requires t <= t' && IsTrialExpired(s, t)
    ensures IsTrialExpired(s, t')
  {
  }

  /** A fresh trial is usable for exactly fourteen days from its creation instant. */
  lemma NewTrialLifecycle(user: UserId, store: StoreId, plan: Plan, f: Features, created: int, t: int)
    ensures IsTrialExpired(NewTrial(user, store, plan, f, created), t) <==> t > created + 1209600000
  {
  }

  /** Switching `chatSupport` on adds exactly that capability. */
  lemma EnablingChatSupport(f: Features)
    ensures Enabled(f.(chatSupport := true)) == Enabled(f) + {ChatSupport}
  {
    var g := f.(chatSupport := true);
    forall x ensures x in Enabled(g) <==> x in Enabled(f) + {ChatSupport} {
      ChatSupportField(f, x);
    }
  }

  lemma ChatSupportField(f: Features, x: Feature)
    ensures Field(f.(chatSupport := true), x) == if x == ChatSupport then Bool(true) else Field(f, x)
  {
  }

  /** The schema defaults differ from the free bundle only in `chatSupport`. */
  lemma SchemaDefaultsVersusFree()
    ensures SchemaDefaultFeatures == Details(Free).features.(chatSupport := true)
    ensures Enabled(SchemaDefaultFeatures) == Enabled(Details(Free).features) + {ChatSupport}
  {
    EnablingChatSupport(Details(Free).features);
  }
}
