/** Model identifiers and the model pickers of lib/ai-config.ts. */
module AiConfig {
  import opened Wrappers

  const FREE_MODEL: string := "google/gemini-2.0-flash-exp:free"
  const STANDARD_MODEL: string := "anthropic/claude-3.5-haiku"
  const PREMIUM_MODEL: string := "anthropic/claude-3.5-sonnet"
  const CHINESE_MODEL: string := "deepseek/deepseek-chat"
  const EXPERT_MODEL: string := "perplexity/llama-3.1-sonar-large-128k-online"

  /** The configured model wins when the variable is set and non-empty; otherwise the free model. */
  function GetCurrentModel(envAiModel: Option<string>): (r: string)
    ensures envAiModel.Some? && envAiModel.value != "" ==> r == envAiModel.value
    ensures envAiModel.None? || envAiModel.value == "" ==> r == FREE_MODEL
    ensures r != ""
  {
    if envAiModel.Some? && envAiModel.value != "" then envAiModel.value else FREE_MODEL
  }

  /** The table free/standard/premium; any other name reads as a miss. */
  function ModelMap(tier: string): Option<string> {
    if tier == "free" then Some(FREE_MODEL)
    else if tier == "standard" then Some(STANDARD_MODEL)
    else if tier == "premium" then Some(PREMIUM_MODEL)
    else None
  }

  function GetModelByTier(tier: string): string {
    ModelMap(tier).GetOr(FREE_MODEL)
  }

  function GetModelByComplexity(dreamLength: int, userTier: string := "free"): string {
    if userTier == "free" then FREE_MODEL
    else if dreamLength > 500 then (if userTier == "premium" then PREMIUM_MODEL else STANDARD_MODEL)
    else STANDARD_MODEL
  }

  /** The model identifiers are pairwise distinct. */
  lemma ModelsDistinct()
    ensures FREE_MODEL != STANDARD_MODEL && FREE_MODEL != PREMIUM_MODEL && STANDARD_MODEL != PREMIUM_MODEL
    ensures CHINESE_MODEL != FREE_MODEL && CHINESE_MODEL != STANDARD_MODEL && CHINESE_MODEL != PREMIUM_MODEL
    ensures EXPERT_MODEL != FREE_MODEL && EXPERT_MODEL != STANDARD_MODEL && EXPERT_MODEL != PREMIUM_MODEL
  {
    assert |FREE_MODEL| == 32 && |STANDARD_MODEL| == 26 && |PREMIUM_MODEL| == 27;
    assert |CHINESE_MODEL| == 22 && |EXPERT_MODEL| == 44;
  }

  /** Each of the three tier names picks its own model and every other name picks the free model. */
  lemma ModelByTierTable(tier: string)
    ensures GetModelByTier("free") == FREE_MODEL
    ensures GetModelByTier("standard") == STANDARD_MODEL
    ensures GetModelByTier("premium") == PREMIUM_MODEL
    ensures tier != "free" && tier != "standard" && tier != "premium" ==> GetModelByTier(tier) == FREE_MODEL
  {
  }

  /**
   * The complexity picker: the free tier always gets the free model; only the premium tier
   * with a dream longer than 500 characters gets the premium model; every other
   * non-free caller gets the standard model.
   */
  lemma ModelByComplexityCases(dreamLength: int, userTier: string)
    ensures userTier == "free" ==> GetModelByComplexity(dreamLength, userTier) == FREE_MODEL
    ensures GetModelByComplexity(dreamLength, userTier) == PREMIUM_MODEL <==> userTier == "premium" && dreamLength > 500
    ensures userTier != "free" && !(userTier == "premium" && dreamLength > 500) ==>
              GetModelByComplexity(dreamLength, userTier) == STANDARD_MODEL
    ensures GetModelByComplexity(dreamLength) == FREE_MODEL
  {
    ModelsDistinct();
  }
}
