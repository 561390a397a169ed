/** The integer limit fields of the pricing plans in lib/pricing-config.ts and the helpers over them. */
module PricingConfig {
  import opened UsageLimits

  /** The billing period of a paid plan. */
  datatype BillingCycle = Monthly | Yearly

  function CycleName(c: BillingCycle): string {
    match c
    case Monthly => "monthly"
    case Yearly => "yearly"
  }

  /** The keys of a plan's `limits` object. */
  datatype Feature = MonthlyInterpretations | MaxDreamLength | HistoryRetention | ExportEnabled | PrioritySupport

  /** A limit value: a number, or a flag. */
  datatype LimitValue = Num(n: int) | Flag(b: bool)

  /** `historyRetention` is in days; -1 stands for "kept forever". */
  datatype PlanLimits = PlanLimits(
    monthlyInterpretations: int,
    maxDreamLength: int,
    historyRetention: int,
    exportEnabled: bool,
    prioritySupport: bool)

  datatype PricingPlan = PricingPlan(tier: Tier, limits: PlanLimits)

  const FREE_PLAN: PricingPlan := PricingPlan(Free, PlanLimits(10, 500, 0, false, false))
  const BASIC_PLAN: PricingPlan := PricingPlan(Basic, PlanLimits(50, 1000, 365, true, false))
  const PRO_PLAN: PricingPlan := PricingPlan(Pro, PlanLimits(200, 2000, -1, true, true))

  /** `getPricingConfig`: free, basic and pro have their own plans; any other tier reads as free. */
  function GetPricingConfig(t: Tier): (r: PricingPlan)
    ensures t == Free || t == Basic || t == Pro ==> r.tier == t
    ensures !(t == Free || t == Basic || t == Pro) ==> r == FREE_PLAN
  {
    match t
    case Free => FREE_PLAN
    case Basic => BASIC_PLAN
    case Pro => PRO_PLAN
    case _ => FREE_PLAN
  }

  /** `config.limits[feature]`. */
  function LimitOf(l: PlanLimits, f: Feature): LimitValue {
    match f
    case MonthlyInterpretations => Num(l.monthlyInterpretations)
    case MaxDreamLength => Num(l.maxDreamLength)
    case HistoryRetention => Num(l.historyRetention)
    case ExportEnabled => Flag(l.exportEnabled)
    case PrioritySupport => Flag(l.prioritySupport)
  }

  /** `hasFeature`: a flag as it is, a number as "positive". */
  function HasFeature(t: Tier, f: Feature): bool {
    match LimitOf(GetPricingConfig(t).limits, f)
    case Flag(b) => b
    case Num(n) => n > 0
  }

  /** `getRemainingInterpretations`: the monthly quota left, clamped at zero. */
  function GetRemainingInterpretations(t: Tier, usedCount: int): (r: int)
    ensures r >= 0
    ensures r >= GetPricingConfig(t).limits.monthlyInterpretations - usedCount
    ensures r == 0 || r == GetPricingConfig(t).limits.monthlyInterpretations - usedCount
    ensures usedCount >= 0 ==> r <= GetPricingConfig(t).limits.monthlyInterpretations
  {
    var limit := GetPricingConfig(t).limits.monthlyInterpretations;
    if limit - usedCount > 0 then limit - usedCount else 0
  }

  /** `shouldDowngradeModel`: only pro, and only from the pro plan's monthly count on. */
  function ShouldDowngradeModel(t: Tier, usedCount: int): bool {
    if t != Pro then false
    else usedCount >= GetPricingConfig(Pro).limits.monthlyInterpretations
  }

  /** The three plans' limit fields. */
  lemma PlanTable()
    ensures GetPricingConfig(Free).limits == PlanLimits(10, 500, 0, false, false)
    ensures GetPricingConfig(Basic).limits == PlanLimits(50, 1000, 365, true, false)
    ensures GetPricingConfig(Pro).limits == PlanLimits(200, 2000, -1, true, true)
  {
  }

  /** The longest accepted dream grows strictly with the plan. */
  lemma MaxDreamLengthIncreases()
    ensures GetPricingConfig(Free).limits.maxDreamLength < GetPricingConfig(Basic).limits.maxDreamLength
    ensures GetPricingConfig(Basic).limits.maxDreamLength < GetPricingConfig(Pro).limits.maxDreamLength
    ensures GetPricingConfig(Anonymous).limits.maxDreamLength == 500
  {
  }

  /** Downgrading is a pro-only decision, taken exactly from 200 uses on. */
  lemma ShouldDowngradeCases(t: Tier, usedCount: int)
    ensures t != Pro ==> !ShouldDowngradeModel(t, usedCount)
    ensures ShouldDowngradeModel(Pro, usedCount) <==> usedCount >= 200
  {
  }

  /** A numeric limit counts as a feature only when positive, so the pro plan's unbounded history (-1) is not a feature. */
  lemma HasFeatureCases(t: Tier, f: Feature)
    ensures LimitOf(GetPricingConfig(t).limits, f).Flag? ==> HasFeature(t, f) == LimitOf(GetPricingConfig(t).limits, f).b
    ensures LimitOf(GetPricingConfig(t).limits, f).Num? ==> (HasFeature(t, f) <==> LimitOf(GetPricingConfig(t).limits, f).n > 0)
    ensures !HasFeature(Pro, HistoryRetention)
    ensures !HasFeature(Free, HistoryRetention) && !HasFeature(Free, ExportEnabled) && !HasFeature(Free, PrioritySupport)
    ensures HasFeature(Free, MonthlyInterpretations) && HasFeature(Free, MaxDreamLength)
  {
  }
}
