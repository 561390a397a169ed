/** Model selection with the pro downgrade: `selectModel` of lib/services/ai-service.ts. */
module AiService {
  import opened Wrappers
  import opened UsageLimits
  import AiConfig
  import opened UsageService
  import PricingConfig

  datatype ModelChoice = ModelChoice(modelId: string, isDowngraded: bool)

  /** `getDowngradeThreshold(tier) || 100`: a missing or zero threshold reads as 100. */
  function EffectiveThreshold(t: Tier): nat {
    var th := GetDowngradeThreshold(t);
    if th.Some? && th.value != 0 then th.value else 100
  }

  /**
   * `selectModel`: the tier's model, except that a pro caller whose monthly count has
   * reached the downgrade threshold is moved to the fallback model.
   */
  function SelectModel(t: Tier, usage: Option<UsageData>): (r: ModelChoice)
    ensures r.isDowngraded ==> t == Pro && GetFallbackModel(Pro).Some? && r.modelId == GetFallbackModel(Pro).value
    ensures !r.isDowngraded ==> r.modelId == GetModelForTier(t)
  {
    var modelId := GetModelForTier(t);
    if t == Pro && usage.Some? then
      var threshold := EffectiveThreshold(t);
      if usage.value.monthly >= threshold then
        var fallback := GetFallbackModel(t);
        if fallback.Some? && fallback.value != "" then ModelChoice(fallback.value, true)
        else ModelChoice(modelId, false)
      else ModelChoice(modelId, false)
    else ModelChoice(modelId, false)
  }

  /** Every tier but pro keeps its own model, undowngraded. */
  lemma NonProKeepsModel(t: Tier, usage: Option<UsageData>)
    requires t != Pro
    ensures SelectModel(t, usage) == ModelChoice(GetModelForTier(t), false)
    ensures SelectModel(t, usage).modelId == AiConfig.STANDARD_MODEL
  {
  }

  /** Pro is served the premium model below 100 uses this month (or without usage data) and the standard model from 100 on. */
  lemma ProDowngradeCases(usage: Option<UsageData>)
    ensures EffectiveThreshold(Pro) == 100
    ensures usage.None? || usage.value.monthly < 100 ==> SelectModel(Pro, usage) == ModelChoice(AiConfig.PREMIUM_MODEL, false)
    ensures usage.Some? && usage.value.monthly >= 100 ==> SelectModel(Pro, usage) == ModelChoice(AiConfig.STANDARD_MODEL, true)
  {
  }

  /** Once downgraded at some monthly count, a pro caller stays downgraded at every larger count. */
  lemma DowngradeMonotone(u: UsageData, u': UsageData)
    requires SelectModel(Pro, Some(u)).isDowngraded
    requires u'.monthly >= u.monthly
    ensures SelectModel(Pro, Some(u')).isDowngraded
    ensures SelectModel(Pro, Some(u')).modelId == SelectModel(Pro, Some(u)).modelId
  {
  }

  /**
   * The two downgrade rules disagree: between 100 and 199 uses a pro caller is served the
   * fallback model although the pricing helper says no downgrade is due.
   */
  lemma DowngradeRulesDisagree(u: UsageData)
    requires 100 <= u.monthly < 200
    ensures SelectModel(Pro, Some(u)).isDowngraded
    ensures !PricingConfig.ShouldDowngradeModel(Pro, u.monthly)
  {
  }
}
