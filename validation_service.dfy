/** The request validators of lib/services/validation-service.ts. */
module ValidationService {
  import opened Wrappers
  import opened Text
  import opened UsageLimits
  import opened PricingConfig

  /** The JSON value found under `dream` in the request body. */
  datatype DreamInput = Undefined | Null | Bool(b: bool) | Number(n: int) | Str(s: string) | Object

  /** JavaScript's `typeof` on such a value. */
  function TypeOf(d: DreamInput): string {
    match d
    case Undefined => "undefined"
    case Null => "object"
    case Bool(_) => "boolean"
    case Number(_) => "number"
    case Str(_) => "string"
    case Object => "object"
  }

  /** JavaScript falsiness on such a value. */
  predicate Falsy(d: DreamInput) {
    d == Undefined || d == Null || d == Bool(false) || d == Number(0) || d == Str("")
  }

  datatype ErrorDetails =
    | TypeMismatch(expectedType: string, receivedType: string)
    | LengthExceeded(maxLength: int, currentLength: int, userTier: Tier, upgradeAvailable: bool)
    | MissingConfig(missingConfig: string)

  datatype ValidationError = ValidationError(message: string, details: Option<ErrorDetails>)

  datatype ValidationResult = Valid | Invalid(error: ValidationError)

  const REQUIRED_MESSAGE: string := "Dream description is required"
  const EMPTY_MESSAGE: string := "Dream description cannot be empty"
  const NOT_CONFIGURED_MESSAGE: string := "AI service is not configured. Please contact support."

  /**
   * `validateDreamInput`. A missing, falsy or non-string value is "required" (so the empty
   * string is "required" too); a string of whitespace only "cannot be empty"; any other
   * string is accepted.
   */
  function ValidateDreamInput(dream: DreamInput): (r: ValidationResult)
    ensures r.Valid? <==> dream.Str? && !AllWhitespace(dream.s)
    ensures !dream.Str? || dream.s == [] ==>
              r == Invalid(ValidationError(REQUIRED_MESSAGE, Some(TypeMismatch("string", TypeOf(dream)))))
    ensures dream.Str? && dream.s != [] && AllWhitespace(dream.s) ==>
              r == Invalid(ValidationError(EMPTY_MESSAGE, None))
  {
    if Falsy(dream) || !dream.Str? then
      Invalid(ValidationError(REQUIRED_MESSAGE, Some(TypeMismatch("string", TypeOf(dream)))))
    else
      TrimEmptyIff(dream.s);
      if |Trim(dream.s)| == 0 then Invalid(ValidationError(EMPTY_MESSAGE, None))
      else Valid
  }

  /** A dream of a lone no-break space is blank, not missing. */
  lemma NoBreakSpaceDream()
    ensures ValidateDreamInput(Str("\U{00A0}")) == Invalid(ValidationError(EMPTY_MESSAGE, None))
  {
  }

  /** The longest dream a tier may submit: anonymous callers get the free plan's length. */
  function MaxDreamLengthFor(t: Tier): (r: int)
    ensures r >= 500
  {
    GetPricingConfig(if t == Anonymous then Free else t).limits.maxDreamLength
  }

  /** ASCII upper-casing of a first letter. */
  function Capitalize(s: string): string {
    if s == [] then []
    else if 'a' <= s[0] <= 'z' then [(s[0] as int - 32) as char] + s[1..]
    else s
  }

  function TooLongMessage(t: Tier, maxLength: nat): string {
    "Dream description is too long. " + Capitalize(TierName(t)) + " users can use up to "
      + NatToDecimal(maxLength) + " characters. Please upgrade for longer dreams."
  }

  /** `validateDreamLength`: rejected exactly when longer than the tier's maximum; the maximum itself is fine. */
  function ValidateDreamLength(dream: string, t: Tier): (r: ValidationResult)
    ensures r.Valid? <==> |dream| <= MaxDreamLengthFor(t)
    ensures r.Invalid? ==>
              r.error.details == Some(LengthExceeded(MaxDreamLengthFor(t), |dream|, t, t != Pro))
  {
    var maxLength := MaxDreamLengthFor(t);
    if |dream| > maxLength then
      Invalid(ValidationError(TooLongMessage(t, maxLength),
                              Some(LengthExceeded(maxLength, |dream|, t, t != Pro))))
    else
      Valid
  }

  /** `validateApiConfig`: the key variable must be set and non-empty. */
  function ValidateApiConfig(apiKey: Option<string>): (r: ValidationResult)
    ensures r.Valid? <==> apiKey.Some? && apiKey.value != ""
    ensures r.Invalid? ==>
              r == Invalid(ValidationError(NOT_CONFIGURED_MESSAGE, Some(MissingConfig("OPENROUTER_API_KEY"))))
  {
    if apiKey.None? || apiKey.value == "" then
      Invalid(ValidationError(NOT_CONFIGURED_MESSAGE, Some(MissingConfig("OPENROUTER_API_KEY"))))
    else
      Valid
  }

  /** Anonymous callers share the free limit; the paid plans allow longer dreams; unknown tiers read as free. */
  lemma MaxDreamLengthTable(t: Tier)
    ensures MaxDreamLengthFor(Anonymous) == MaxDreamLengthFor(Free) == 500
    ensures MaxDreamLengthFor(Basic) == 1000 && MaxDreamLengthFor(Pro) == 2000
    ensures t.Unknown? ==> MaxDreamLengthFor(t) == 500
  {
  }

  /** The too-long message names the tier, capitalised, and the maximum in decimal. */
  lemma TooLongMessageNamesLimit(t: Tier, maxLength: nat)
    ensures var prefix := "Dream description is too long. " + Capitalize(TierName(t)) + " users can use up to ";
            var digits := NatToDecimal(maxLength);
            TooLongMessage(t, maxLength)[|prefix|..|prefix| + |digits|] == digits && DecimalValue(digits) == maxLength
  {
    DecimalRoundTrip(maxLength);
  }
}
