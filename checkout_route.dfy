/**
 * Checkout session creation, POST /api/checkout/create-session:
 * app/api/checkout/create-session/route.ts. The provider's HTTP call is an input: the session
 * it returns or the message of the error it throws.
 */
module CheckoutRoute {
  import opened Wrappers
  import opened Text
  import opened Calendar
  import opened UsageLimits
  import opened PricingConfig
  import opened ApiResponse
  import opened AuthService
  import opened CreemConfig

  /** The JSON body's `tier` and `billingCycle`; an absent field is `None`. */
  datatype CheckoutBody = CheckoutBody(tier: Option<string>, billingCycle: Option<string>)

  /** The outcome of the parameter guards. */
  datatype ParamCheck = ParamsOk(plan: Plan) | ParamsBad(message: string, code: string)

  function ParsePaidTier(s: string): Option<PaidTier> {
    if s == "basic" then Some(Basic) else if s == "pro" then Some(Pro) else None
  }

  function ParseCycle(s: string): Option<BillingCycle> {
    if s == "monthly" then Some(Monthly) else if s == "yearly" then Some(Yearly) else None
  }

  /**
   * The guards, in order: both parameters present and non-empty, the tier not free, the
   * tier basic or pro, the cycle monthly or yearly.
   */
  function CheckParams(body: CheckoutBody): (r: ParamCheck)
    ensures r.ParamsOk? <==>
              && body.tier.Some? && (body.tier.value == "basic" || body.tier.value == "pro")
              && body.billingCycle.Some? && (body.billingCycle.value == "monthly" || body.billingCycle.value == "yearly")
    ensures r.ParamsOk? ==> TierName(r.plan.tier) == body.tier.value && CycleName(r.plan.cycle) == body.billingCycle.value
    ensures body.tier.None? || body.tier == Some("") || body.billingCycle.None? || body.billingCycle == Some("") ==>
              r == ParamsBad("Missing tier or billingCycle", "INVALID_PARAMETERS")
  {
    if body.tier.None? || body.tier.value == "" || body.billingCycle.None? || body.billingCycle.value == "" then
      ParamsBad("Missing tier or billingCycle", "INVALID_PARAMETERS")
    else if body.tier.value == "free" then ParamsBad("Free tier does not require checkout", "INVALID_TIER")
    else if ParsePaidTier(body.tier.value).None? then ParamsBad("Invalid tier", "INVALID_TIER")
    else if ParseCycle(body.billingCycle.value).None? then ParamsBad("Invalid billing cycle", "INVALID_BILLING_CYCLE")
    else ParamsOk(Plan(ParsePaidTier(body.tier.value).value, ParseCycle(body.billingCycle.value).value))
  }

  /** Which guard refuses which present, non-empty parameters. */
  lemma ParamCodes(tier: string, cycle: string)
    requires tier != [] && cycle != []
    ensures tier == "free" ==> CheckParams(CheckoutBody(Some(tier), Some(cycle))).code == "INVALID_TIER"
    ensures tier != "basic" && tier != "pro" ==> CheckParams(CheckoutBody(Some(tier), Some(cycle))).code == "INVALID_TIER"
    ensures (tier == "basic" || tier == "pro") && cycle != "monthly" && cycle != "yearly" ==>
              CheckParams(CheckoutBody(Some(tier), Some(cycle))).code == "INVALID_BILLING_CYCLE"
  {
  }

  /** The session the provider returns. */
  datatype CreemSession = CreemSession(id: string, checkoutUrl: string)

  /** The request sent to the provider. */
  datatype CheckoutParams = CheckoutParams(productId: string, successUrl: string, metadata: map<string, string>)

  /** The data of a successful answer: `{sessionId, checkoutUrl}`. */
  datatype CheckoutData = CheckoutData(sessionId: string, checkoutUrl: string)

  /**
   * What the route sees: the parsed body (`Failure` when it is not JSON), the session
   * (`Failure` when reading it throws), the configuration, and the provider's answer.
   */
  datatype CheckoutEnv = CheckoutEnv(body: Result<CheckoutBody, string>, session: Result<Option<User>, string>, now: DateTime,
                                     productIds: ProductIds, settings: CreemSettings, created: Result<CreemSession, string>)

  /** The answer, and the request sent to the provider if one was. */
  datatype CheckoutResult = CheckoutResult(sent: Option<CheckoutParams>, response: HttpResponse<CheckoutData>)

  function CheckoutError(now: DateTime, message: string): HttpResponse<CheckoutData> {
    ErrorResponse(now, "Failed to create checkout session", 500, Some("CHECKOUT_ERROR"), map["error" := VStr(message)])
  }

  /** The metadata handed to the provider, which the webhook later reads `user_id` from. */
  function SessionMetadata(user: User, body: CheckoutBody): map<string, string>
    requires body.tier.Some? && body.billingCycle.Some?
  {
    map["user_id" := user.id, "user_email" := OrElse(user.email, Some("")).value,
        "tier" := body.tier.value, "billing_cycle" := body.billingCycle.value]
  }

  /** POST /api/checkout/create-session. */
  function Post(env: CheckoutEnv): CheckoutResult {
    if env.body.Failure? then CheckoutResult(None, CheckoutError(env.now, env.body.error))
    else
      var body := env.body.value;
      match CheckParams(body)
      case ParamsBad(message, code) => CheckoutResult(None, ErrorResponse(env.now, message, 400, Some(code)))
      case ParamsOk(plan) =>
        if env.session.Failure? then CheckoutResult(None, CheckoutError(env.now, env.session.error))
        else if env.session.value.None? then
          CheckoutResult(None, ErrorResponse(env.now, "Please sign in to subscribe", 401, Some("AUTH_REQUIRED")))
        else
          var user := env.session.value.value;
          match GetCreemProductId(env.productIds, plan.tier, plan.cycle)
          case Failure(e) => CheckoutResult(None, CheckoutError(env.now, e))
          case Success(productId) =>
            var params := CheckoutParams(productId, env.settings.successUrl, SessionMetadata(user, body));
            match env.created
            case Failure(e) => CheckoutResult(Some(params), CheckoutError(env.now, e))
            case Success(s) =>
              CheckoutResult(Some(params), SuccessResponse(env.now, CheckoutData(s.id, s.checkoutUrl),
                map["userId" := VStr(user.id), "tier" := VStr(body.tier.value),
                    "billingCycle" := VStr(body.billingCycle.value), "productId" := VStr(productId)]))
  }

  /**
   * The guard chain: a readable body with bad parameters gets the guard's 400 whoever is
   * signed in; good parameters without a user get 401; in neither case is the provider called.
   */
  lemma GuardOrder(env: CheckoutEnv)
    requires env.body.Success?
    ensures var c := CheckParams(env.body.value);
            && (c.ParamsBad? ==> Post(env) == CheckoutResult(None, ErrorResponse(env.now, c.message, 400, Some(c.code))))
            && (c.ParamsOk? && env.session == Success(None) ==>
                  Post(env).sent.None? && Post(env).response.status == 401 && Post(env).response.body.code == Some("AUTH_REQUIRED"))
  {
  }

  /**
   * The provider is called only for a signed-in user with good parameters and a configured
   * product id, and then with that product id and metadata naming the user and the plan.
   */
  lemma ProviderCallCarriesUser(env: CheckoutEnv)
    ensures Post(env).sent.Some? ==>
              && env.body.Success? && CheckParams(env.body.value).ParamsOk?
              && env.session.Success? && env.session.value.Some?
              && var plan := CheckParams(env.body.value).plan;
                 && GetCreemProductId(env.productIds, plan.tier, plan.cycle) == Success(Post(env).sent.value.productId)
                 && Post(env).sent.value.metadata["user_id"] == env.session.value.value.id
                 && Post(env).sent.value.metadata["tier"] == TierName(plan.tier)
                 && Post(env).sent.value.metadata["billing_cycle"] == CycleName(plan.cycle)
    ensures Post(env).response.status == 200 ==> Post(env).sent.Some? && env.created.Success?
  {
  }
}
