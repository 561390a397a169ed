/** The tier catalog of lib/usage-limits.ts: caps, model, downgrade point and warning thresholds. */
module UsageLimits {
  import opened Wrappers
  import opened Text
  import AiConfig

  /** A stored or cached tier string that names none of the four tiers. */
  type OtherName = s: string | s != "anonymous" && s != "free" && s != "basic" && s != "pro" witness ""

  /**
   * The usage tier. Tier strings come back from the database and from device storage
   * unchecked (`as UserTier`), so a value outside the four names is kept as `Unknown`.
   */
  datatype Tier = Anonymous | Free | Basic | Pro | Unknown(name: OtherName)

  function TierName(t: Tier): string {
    match t
    case Anonymous => "anonymous"
    case Free => "free"
    case Basic => "basic"
    case Pro => "pro"
    case Unknown(n) => n
  }

  function ParseTier(s: string): (t: Tier)
    ensures TierName(t) == s
  {
    if s == "anonymous" then Anonymous
    else if s == "free" then Free
    else if s == "basic" then Basic
    else if s == "pro" then Pro
    else Unknown(s)
  }

  /** Tier names and tiers are in one-to-one correspondence. */
  lemma ParseTierName(t: Tier)
    ensures ParseTier(TierName(t)) == t
  {
  }

  datatype Warning = Warning(gentle: nat, urgent: Option<nat>)
  datatype WarningConfig = WarningConfig(daily: Warning, monthly: Warning)

  datatype TierLimits = TierLimits(
    daily: nat,
    monthly: nat,
    model: string,
    fallbackModel: Option<string>,
    downgradeThreshold: Option<nat>,
    warningThresholds: Option<WarningConfig>)

  const ANONYMOUS_LIMITS: TierLimits :=
    TierLimits(2, 4, AiConfig.STANDARD_MODEL, None, None,
               Some(WarningConfig(Warning(1, None), Warning(2, Some(1)))))
  const FREE_LIMITS: TierLimits :=
    TierLimits(5, 10, AiConfig.STANDARD_MODEL, None, None,
               Some(WarningConfig(Warning(2, Some(1)), Warning(5, Some(2)))))
  const BASIC_LIMITS: TierLimits :=
    TierLimits(10, 50, AiConfig.STANDARD_MODEL, None, None,
               Some(WarningConfig(Warning(5, Some(2)), Warning(25, Some(10)))))
  const PRO_LIMITS: TierLimits :=
    TierLimits(20, 200, AiConfig.PREMIUM_MODEL, Some(AiConfig.STANDARD_MODEL), Some(100),
               Some(WarningConfig(Warning(10, Some(4)), Warning(100, Some(40)))))

  /** Thresholds used when a table entry has none. */
  const DEFAULT_WARNINGS: WarningConfig := WarningConfig(Warning(2, Some(1)), Warning(5, Some(2)))

  /** `USAGE_LIMITS[tier]`: the table has exactly the four named tiers. */
  function Entry(t: Tier): Option<TierLimits> {
    match t
    case Anonymous => Some(ANONYMOUS_LIMITS)
    case Free => Some(FREE_LIMITS)
    case Basic => Some(BASIC_LIMITS)
    case Pro => Some(PRO_LIMITS)
    case Unknown(_) => None
  }

  /** A warning level lies strictly below its cap, and an urgent level below the gentle one. */
  predicate WarningBelow(w: Warning, cap: nat) {
    w.gentle < cap && (w.urgent.Some? ==> w.urgent.value < w.gentle)
  }

  /** The design invariants of a catalog entry. */
  predicate WellFormedLimits(l: TierLimits) {
    && l.daily <= l.monthly
    && (l.downgradeThreshold.Some? ==> l.downgradeThreshold.value <= l.monthly)
    && (l.warningThresholds.Some? ==>
          WarningBelow(l.warningThresholds.value.daily, l.daily) &&
          WarningBelow(l.warningThresholds.value.monthly, l.monthly))
  }

  /** `getLimits`: the tier's entry, falling back to the anonymous entry for a tier outside the table. */
  function GetLimits(t: Tier): (r: TierLimits)
    ensures WellFormedLimits(r)
    ensures Entry(t).None? ==> r == ANONYMOUS_LIMITS
    ensures Entry(t).Some? ==> r == Entry(t).value
  {
    match Entry(t)
    case Some(l) => l
    case None => ANONYMOUS_LIMITS
  }

  function GetModelForTier(t: Tier): string {
    GetLimits(t).model
  }

  function GetFallbackModel(t: Tier): Option<string> {
    if t == Pro then PRO_LIMITS.fallbackModel else None
  }

  function GetDowngradeThreshold(t: Tier): Option<nat> {
    if t == Pro then PRO_LIMITS.downgradeThreshold else None
  }

  function GetWarningThresholds(t: Tier): WarningConfig {
    GetLimits(t).warningThresholds.GetOr(DEFAULT_WARNINGS)
  }

  datatype LimitDescription = LimitDescription(daily: string, monthly: string)

  /** `getLimitDescription`: the two caps rendered as sentences. */
  function GetLimitDescription(t: Tier): LimitDescription {
    LimitDescription(NatToDecimal(GetLimits(t).daily) + " interpretations per day",
                     NatToDecimal(GetLimits(t).monthly) + " interpretations per month")
  }

  /** The caps of the four tiers; an unknown tier gets the anonymous caps. */
  lemma CapsTable(t: Tier)
    ensures GetLimits(Anonymous).daily == 2 && GetLimits(Anonymous).monthly == 4
    ensures GetLimits(Free).daily == 5 && GetLimits(Free).monthly == 10
    ensures GetLimits(Basic).daily == 10 && GetLimits(Basic).monthly == 50
    ensures GetLimits(Pro).daily == 20 && GetLimits(Pro).monthly == 200
    ensures t.Unknown? ==> GetLimits(t) == GetLimits(Anonymous)
  {
  }

  /** Pro is served by the premium model; every other tier, unknown ones included, by the standard model. */
  lemma ModelForTierTable(t: Tier)
    ensures GetModelForTier(t) == (if t == Pro then AiConfig.PREMIUM_MODEL else AiConfig.STANDARD_MODEL)
  {
  }

  /** Only pro has a downgrade: the fallback is the standard model and the threshold is 100, within the pro cap. */
  lemma DowngradeOnlyForPro(t: Tier)
    ensures GetFallbackModel(t).Some? <==> t == Pro
    ensures GetDowngradeThreshold(t).Some? <==> t == Pro
    ensures GetFallbackModel(Pro) == Some(AiConfig.STANDARD_MODEL)
    ensures GetDowngradeThreshold(Pro) == Some(100)
    ensures GetDowngradeThreshold(Pro).value <= GetLimits(Pro).monthly
    ensures GetFallbackModel(Pro).value != GetModelForTier(Pro)
  {
    AiConfig.ModelsDistinct();
  }

  /** Every table entry carries thresholds, so the default object is never reached; the thresholds sit below the caps. */
  lemma WarningThresholdsFromTable(t: Tier)
    ensures GetWarningThresholds(t) == GetLimits(t).warningThresholds.value
    ensures WarningBelow(GetWarningThresholds(t).daily, GetLimits(t).daily)
    ensures WarningBelow(GetWarningThresholds(t).monthly, GetLimits(t).monthly)
  {
  }

  /** The description sentences start with the decimal digits of the caps. */
  lemma LimitDescriptionNamesCaps(t: Tier)
    ensures var d := NatToDecimal(GetLimits(t).daily);
            StartsWith(GetLimitDescription(t).daily, d) && DecimalValue(d) == GetLimits(t).daily
    ensures var m := NatToDecimal(GetLimits(t).monthly);
            StartsWith(GetLimitDescription(t).monthly, m) && DecimalValue(m) == GetLimits(t).monthly
  {
    DecimalRoundTrip(GetLimits(t).daily);
    DecimalRoundTrip(GetLimits(t).monthly);
    var d := NatToDecimal(GetLimits(t).daily);
    assert (d + " interpretations per day")[..|d|] == d;
    var m := NatToDecimal(GetLimits(t).monthly);
    assert (m + " interpretations per month")[..|m|] == m;
  }
}
