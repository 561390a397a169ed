/**
 * `POST /api/interpret` (app/api/interpret/route.ts): the request pipeline. The checks run
 * in the order input, configuration, authentication, length, usage, and the first failure
 * answers. Usage is recorded only after the AI step has produced an interpretation.
 */
module InterpretRoute {
  import opened Wrappers
  import opened Calendar
  import opened UsageLimits
  import opened Database
  import opened ApiResponse
  import opened ValidationService
  import opened AuthService
  import opened UsageService
  import opened AiService

  /** Everything the route reads from outside: configuration, session, headers, clock and query outcomes. */
  datatype InterpretEnv = InterpretEnv(
    apiKey: Option<string>,
    user: Option<User>,
    forwardedFor: Option<string>,
    realIp: Option<string>,
    now: DateTime,
    localHour: int,
    subscriptionReadOk: bool,
    usageReadOk: bool,
    anonDailyReadOk: bool,
    anonMonthlyReadOk: bool,
    recordReadOk: bool,
    recordWriteOk: bool)

  /** What the language model returned: the text and its usage report (a missing token count is `None`). */
  datatype AiOutput = AiOutput(
    text: string,
    promptVersion: string,
    inputTokens: Option<int>,
    outputTokens: Option<int>,
    totalTokens: Option<int>,
    finishReason: string)

  datatype InterpretData = InterpretData(interpretation: string)

  /** Whose quota a request is charged to. */
  datatype Principal = ByUser(userId: UserId) | ByIp(ip: string)

  const INTERNAL_MESSAGE: string := "We couldn't process your dream at this moment. Please try again later."

  /** The result of `getUserAuth` against the subscription table. */
  function AuthOf(subscriptions: map<UserId, SubscriptionRow>, env: InterpretEnv): AuthResult
    requires ValidDate(env.now.date)
  {
    var lookup := if env.user.Some? then Select(subscriptions, env.user.value.id, env.subscriptionReadOk) else NoRow;
    GetUserAuth(env.user, lookup, EpochMs(env.now))
  }

  /** `auth.isAuthenticated && auth.userId`: a user with an id is charged by id, everyone else by ip. */
  function PrincipalOf(auth: AuthResult, env: InterpretEnv): Principal {
    if auth.isAuthenticated && auth.userId.Some? && auth.userId.value != "" then ByUser(auth.userId.value)
    else ByIp(GetUserIP(env.forwardedFor, env.realIp))
  }

  /** The usage decision for the principal. */
  function UsageCheck(usage: map<UsageKey, UsageRow>, anonymous: map<AnonKey, nat>, auth: AuthResult, env: InterpretEnv): UsageValidation
    requires ValidDate(env.now.date)
  {
    match PrincipalOf(auth, env)
    case ByUser(id) => ValidateUserUsage(Select(usage, UsageKey(id, MonthOf(env.now.date)), env.usageReadOk), auth.tier, env.now)
    case ByIp(ip) => ValidateAnonymousUsage(anonymous, ip, env.now, env.anonDailyReadOk, env.anonMonthlyReadOk)
  }

  function DetailsOf(e: ValidationError): map<string, Value> {
    match e.details
    case None => map[]
    case Some(TypeMismatch(expected, received)) =>
      map["expectedType" := VStr(expected), "receivedType" := VStr(received)]
    case Some(LengthExceeded(maxLength, currentLength, userTier, upgradeAvailable)) =>
      map["maxLength" := VInt(maxLength), "currentLength" := VInt(currentLength),
          "userTier" := VStr(TierName(userTier)), "upgradeAvailable" := VBool(upgradeAvailable)]
    case Some(MissingConfig(name)) => map["missingConfig" := VStr(name)]
  }

  /** `{...result.metadata, currentUsage}` of a successful interpretation. */
  function SuccessMetadata(t: Tier, choice: ModelChoice, out: AiOutput, updated: UsageData): (r: map<string, Value>)
    ensures "currentUsage" in r && r["currentUsage"] == UsageDataValue(updated)
    ensures "model" in r && r["model"] == VStr(choice.modelId)
    ensures "isDowngraded" in r && r["isDowngraded"] == VBool(choice.isDowngraded)
  {
    map[
      "userTier" := VStr(TierName(t)),
      "model" := VStr(choice.modelId),
      "isDowngraded" := VBool(choice.isDowngraded),
      "promptVersion" := VStr(out.promptVersion),
      "usage" := VObj(map[
        "inputTokens" := VInt(out.inputTokens.GetOr(0)),
        "outputTokens" := VInt(out.outputTokens.GetOr(0)),
        "totalTokens" := VInt(out.totalTokens.GetOr(0))]),
      "finishReason" := VStr(out.finishReason),
      "currentUsage" := UsageDataValue(updated)]
  }

  /** The answer to an admitted caller whose interpretation is `out`. */
  function Served(stamp: DateTime, auth: AuthResult, usageData: UsageData, out: AiOutput): HttpResponse<InterpretData> {
    SuccessResponse(stamp, InterpretData(out.text),
                    SuccessMetadata(auth.tier, SelectModel(auth.tier, Some(usageData)), out,
                                    UsageData(usageData.daily + 1, usageData.monthly + 1, usageData.limits)))
  }

  /** The answer of the catch block; `reason` is the thrown error's message. */
  function InternalError(stamp: DateTime, reason: string): HttpResponse<InterpretData> {
    ErrorResponse(stamp, INTERNAL_MESSAGE, 500, Some("INTERNAL_ERROR"), map["originalError" := VStr(reason)])
  }

  predicate Rejected(resp: HttpResponse<InterpretData>, status: int, code: string) {
    resp.status == status && resp.body.ErrorBody? && resp.body.code == Some(code)
  }

  /** The gates before the AI step: a rejection to answer with, or the caller admitted with its pre-request usage. */
  datatype Admission =
    | Reject(response: HttpResponse<InterpretData>)
    | Admit(auth: AuthResult, principal: Principal, usageData: UsageData)

  /** The checks of steps 1 to 6, in the route's order; the first failing one decides. */
  function AdmissionOf(subscriptions: map<UserId, SubscriptionRow>, usage: map<UsageKey, UsageRow>, anonymous: map<AnonKey, nat>,
                       body: Result<DreamInput, string>, env: InterpretEnv): Admission
    requires ValidDate(env.now.date)
  {
    if body.Failure? then Reject(InternalError(env.now, body.error))
    else
      var dream := body.value;
      var inputValidation := ValidateDreamInput(dream);
      if inputValidation.Invalid? then
        Reject(ErrorResponse(env.now, inputValidation.error.message, 400, Some("INVALID_INPUT"), DetailsOf(inputValidation.error)))
      else
        var apiValidation := ValidateApiConfig(env.apiKey);
        if apiValidation.Invalid? then
          Reject(ErrorResponse(env.now, apiValidation.error.message, 500, Some("CONFIG_ERROR"), DetailsOf(apiValidation.error)))
        else
          var auth := AuthOf(subscriptions, env);
          var lengthValidation := ValidateDreamLength(dream.s, auth.tier);
          if lengthValidation.Invalid? then
            Reject(ErrorResponse(env.now, lengthValidation.error.message, 400, Some("DREAM_TOO_LONG"), DetailsOf(lengthValidation.error)))
          else
            var check := UsageCheck(usage, anonymous, auth, env);
            if check.Denied? then
              Reject(ErrorResponse(env.now, check.denial.message, 429, Some("RATE_LIMIT_EXCEEDED"), DenialDetailsValue(check.denial.details)))
            else
              Admit(auth, PrincipalOf(auth, env), check.usageData)
  }

  /** The tables after step 8 has recorded the request against `p`. */
  predicate LedgerRecorded(usage: map<UsageKey, UsageRow>, anonymous: map<AnonKey, nat>,
                           usage': map<UsageKey, UsageRow>, anonymous': map<AnonKey, nat>, p: Principal, env: InterpretEnv) {
    match p
    case ByUser(id) =>
      usage' == UserUsageAfterRecord(usage, id, env.now.date, env.recordReadOk, env.recordWriteOk) && anonymous' == anonymous
    case ByIp(ip) =>
      anonymous' == AnonymousAfterRecord(anonymous, AnonKey(ip, env.now.date, env.localHour), env.recordReadOk, env.recordWriteOk)
      && usage' == usage
  }

  /** Steps 1 to 6 of the route, run against the tables as they stand. */
  method CheckRequest(db: Db, body: Result<DreamInput, string>, env: InterpretEnv) returns (a: Admission)
    requires ValidDateTime(env.now)
    ensures a == AdmissionOf(db.subscriptions, db.usage, db.anonymous, body, env)
  {
    if body.Failure? {
      return Reject(InternalError(env.now, body.error));
    }
    var dream := body.value;

    var inputValidation := ValidateDreamInput(dream);
    if inputValidation.Invalid? {
      return Reject(ErrorResponse(env.now, inputValidation.error.message, 400, Some("INVALID_INPUT"), DetailsOf(inputValidation.error)));
    }

    var apiValidation := ValidateApiConfig(env.apiKey);
    if apiValidation.Invalid? {
      return Reject(ErrorResponse(env.now, apiValidation.error.message, 500, Some("CONFIG_ERROR"), DetailsOf(apiValidation.error)));
    }

    var subscription := if env.user.Some? then Select(db.subscriptions, env.user.value.id, env.subscriptionReadOk) else NoRow;
    var auth := GetUserAuth(env.user, subscription, EpochMs(env.now));
    assert auth == AuthOf(db.subscriptions, env);

    var lengthValidation := ValidateDreamLength(dream.s, auth.tier);
    if lengthValidation.Invalid? {
      return Reject(ErrorResponse(env.now, lengthValidation.error.message, 400, Some("DREAM_TOO_LONG"), DetailsOf(lengthValidation.error)));
    }

    var usageValidation: UsageValidation;
    var principal: Principal;
    if auth.isAuthenticated && auth.userId.Some? && auth.userId.value != "" {
      principal := ByUser(auth.userId.value);
      var key := UsageKey(auth.userId.value, MonthOf(env.now.date));
      usageValidation := ValidateUserUsage(Select(db.usage, key, env.usageReadOk), auth.tier, env.now);
    } else {
      var ip := GetUserIP(env.forwardedFor, env.realIp);
      principal := ByIp(ip);
      usageValidation := ValidateAnonymousUsage(db.anonymous, ip, env.now, env.anonDailyReadOk, env.anonMonthlyReadOk);
    }

    assert usageValidation == UsageCheck(db.usage, db.anonymous, auth, env) && principal == PrincipalOf(auth, env);
    if usageValidation.Denied? {
      return Reject(ErrorResponse(env.now, usageValidation.denial.message, 429, Some("RATE_LIMIT_EXCEEDED"),
                                  DenialDetailsValue(usageValidation.denial.details)));
    }
    return Admit(auth, principal, usageValidation.usageData);
  }

  /**
   * Steps 7 to 10 for an admitted caller: the AI step, then the record against the
   * principal, then the answer with the pre-request counts plus one. A failed AI step
   * records nothing.
   */
  method Serve(db: Db, auth: AuthResult, principal: Principal, usageData: UsageData, env: InterpretEnv, ai: Result<AiOutput, string>)
    returns (resp: HttpResponse<InterpretData>)
    requires ValidDateTime(env.now) && 0 <= env.localHour < 24
    modifies db`usage, db`anonymous
    ensures ai.Failure? ==> resp == InternalError(env.now, ai.error) && unchanged(db)
    ensures ai.Success? ==> resp == Served(env.now, auth, usageData, ai.value)
    ensures ai.Success? ==> LedgerRecorded(old(db.usage), old(db.anonymous), db.usage, db.anonymous, principal, env)
  {
    var choice := SelectModel(auth.tier, Some(usageData));
    if ai.Failure? {
      return InternalError(env.now, ai.error);
    }
    var result := ai.value;

    match principal {
      case ByUser(id) => RecordUserUsage(db, id, env.now, env.recordReadOk, env.recordWriteOk);
      case ByIp(ip) => RecordAnonymousUsage(db, ip, env.now, env.localHour, env.recordReadOk, env.recordWriteOk);
    }

    var updatedUsageData := UsageData(usageData.daily + 1, usageData.monthly + 1, usageData.limits);
    resp := SuccessResponse(env.now, InterpretData(result.text), SuccessMetadata(auth.tier, choice, result, updatedUsageData));
    assert resp == Served(env.now, auth, usageData, result);
  }

  /**
   * The route. `body` is the parsed request body (`Failure` when it is not JSON), `ai` the
   * outcome of the AI step (`Failure` with the error's message when it throws); the model
   * is the one `selectModel` picks for the caller's tier and pre-request usage. A rejected
   * request and a failed AI step leave both usage tables as they were; a served one is
   * recorded against the same principal the usage check used, and answers with the
   * pre-request counts plus one.
   */
  method Post(db: Db, body: Result<DreamInput, string>, env: InterpretEnv, ai: Result<AiOutput, string>)
    returns (resp: HttpResponse<InterpretData>)
    requires ValidDateTime(env.now) && 0 <= env.localHour < 24
    modifies db`usage, db`anonymous
    ensures var a := AdmissionOf(old(db.subscriptions), old(db.usage), old(db.anonymous), body, env);
            && (a.Reject? ==> resp == a.response && unchanged(db))
            && (a.Admit? && ai.Failure? ==> resp == InternalError(env.now, ai.error) && unchanged(db))
            && (a.Admit? && ai.Success? ==>
                  && resp == Served(env.now, a.auth, a.usageData, ai.value)
                  && LedgerRecorded(old(db.usage), old(db.anonymous), db.usage, db.anonymous, a.principal, env))
  {
    var admission := CheckRequest(db, body, env);
    if admission.Reject? {
      return admission.response;
    }
    resp := Serve(db, admission.auth, admission.principal, admission.usageData, env, ai);
  }

  /** The gates run in the route's order and each failure answers with its own status and code. */
  lemma AdmissionOrder(subscriptions: map<UserId, SubscriptionRow>, usage: map<UsageKey, UsageRow>, anonymous: map<AnonKey, nat>,
                       body: Result<DreamInput, string>, env: InterpretEnv)
    requires ValidDate(env.now.date)
    ensures var a := AdmissionOf(subscriptions, usage, anonymous, body, env);
            && (body.Failure? ==> a.Reject? && Rejected(a.response, 500, "INTERNAL_ERROR"))
            && (body.Success? && ValidateDreamInput(body.value).Invalid? ==>
                  a.Reject? && Rejected(a.response, 400, "INVALID_INPUT"))
            && (body.Success? && ValidateDreamInput(body.value).Valid? && ValidateApiConfig(env.apiKey).Invalid? ==>
                  a.Reject? && Rejected(a.response, 500, "CONFIG_ERROR"))
            && (body.Success? && ValidateDreamInput(body.value).Valid? && ValidateApiConfig(env.apiKey).Valid? ==>
                  var auth := AuthOf(subscriptions, env);
                  var check := UsageCheck(usage, anonymous, auth, env);
                  && (ValidateDreamLength(body.value.s, auth.tier).Invalid? ==>
                        a.Reject? && Rejected(a.response, 400, "DREAM_TOO_LONG"))
                  && (ValidateDreamLength(body.value.s, auth.tier).Valid? && check.Denied? ==>
                        a.Reject? && Rejected(a.response, 429, "RATE_LIMIT_EXCEEDED") && a.response.body.message == check.denial.message)
                  && (ValidateDreamLength(body.value.s, auth.tier).Valid? && check.Allowed? ==>
                        a == Admit(auth, PrincipalOf(auth, env), check.usageData)))
  {
  }

  /** An admitted caller passed every gate. */
  lemma AdmittedPassedAll(subscriptions: map<UserId, SubscriptionRow>, usage: map<UsageKey, UsageRow>, anonymous: map<AnonKey, nat>,
                          body: Result<DreamInput, string>, env: InterpretEnv)
    requires ValidDate(env.now.date)
    requires AdmissionOf(subscriptions, usage, anonymous, body, env).Admit?
    ensures body.Success? && ValidateDreamInput(body.value).Valid? && ValidateApiConfig(env.apiKey).Valid?
    ensures var auth := AuthOf(subscriptions, env);
            && ValidateDreamLength(body.value.s, auth.tier).Valid?
            && UsageCheck(usage, anonymous, auth, env).Allowed?
  {
  }

  /** A signed-in caller with an id is charged by that id; anyone else by the one ip address the headers yield. */
  lemma PrincipalChoice(env: InterpretEnv, user: User, subscription: Lookup<SubscriptionRow>)
    requires ValidDate(env.now.date)
    ensures var signedIn := GetUserAuth(Some(user), subscription, EpochMs(env.now));
            PrincipalOf(signedIn, env) == if user.id != "" then ByUser(user.id) else ByIp(GetUserIP(env.forwardedFor, env.realIp))
    ensures PrincipalOf(GetUserAuth(None, subscription, EpochMs(env.now)), env) == ByIp(GetUserIP(env.forwardedFor, env.realIp))
  {
  }

  /** A served request answers 200 with the interpretation and the pre-request counts plus one under the same caps. */
  lemma ServedReport(stamp: DateTime, auth: AuthResult, u: UsageData, out: AiOutput)
    ensures var r := Served(stamp, auth, u, out);
            && r.status == 200 && r.body.SuccessBody? && r.body.data == InterpretData(out.text)
            && "currentUsage" in r.body.metadata
            && r.body.metadata["currentUsage"] == UsageDataValue(UsageData(u.daily + 1, u.monthly + 1, u.limits))
            && r.body.metadata["model"] == VStr(SelectModel(auth.tier, Some(u)).modelId)
  {
    ServedEnvelope(stamp, auth, u, out);
    ServedCounts(stamp, auth, u, out);
    ServedModel(stamp, auth, u, out);
  }

  lemma ServedEnvelope(stamp: DateTime, auth: AuthResult, u: UsageData, out: AiOutput)
    ensures var r := Served(stamp, auth, u, out);
            r.status == 200 && r.body.SuccessBody? && r.body.data == InterpretData(out.text)
  {
  }

  lemma ServedCounts(stamp: DateTime, auth: AuthResult, u: UsageData, out: AiOutput)
    ensures var r := Served(stamp, auth, u, out);
            r.body.SuccessBody? && "currentUsage" in r.body.metadata
            && r.body.metadata["currentUsage"] == UsageDataValue(UsageData(u.daily + 1, u.monthly + 1, u.limits))
  {
  }

  lemma ServedModel(stamp: DateTime, auth: AuthResult, u: UsageData, out: AiOutput)
    ensures var r := Served(stamp, auth, u, out);
            r.body.SuccessBody? && "model" in r.body.metadata
            && r.body.metadata["model"] == VStr(SelectModel(auth.tier, Some(u)).modelId)
  {
  }

  /**
   * For a signed-in caller whose month row is missing or was last written today, the
   * `currentUsage` a served request reports is what the ledger then holds.
   */
  lemma UserReportMatchesLedger(usage: map<UsageKey, UsageRow>, userId: UserId, t: Tier, now: DateTime)
    requires ValidDate(now.date)
    requires var key := UsageKey(userId, MonthOf(now.date));
             key !in usage || usage[key].day == now.date
    requires ValidateUserUsage(Select(usage, UsageKey(userId, MonthOf(now.date)), true), t, now).Allowed?
    ensures var key := UsageKey(userId, MonthOf(now.date));
            var u := ValidateUserUsage(Select(usage, key, true), t, now).usageData;
            var usage' := UserUsageAfterRecord(usage, userId, now.date, true, true);
            key in usage' && usage'[key] == UsageRow(now.date, u.daily + 1, u.monthly + 1)
  {
  }

  /**
   * For a signed-in caller whose month row was last written on an earlier day, the report
   * and the ledger part: the served `currentUsage.daily` is the stale stored count plus one,
   * while the recorder restarts the day at 1. Only the monthly figure agrees.
   */
  lemma UserReportStaleRow(usage: map<UsageKey, UsageRow>, userId: UserId, t: Tier, now: DateTime)
    requires ValidDate(now.date)
    requires var key := UsageKey(userId, MonthOf(now.date));
             key in usage && usage[key].day != now.date
    requires ValidateUserUsage(Select(usage, UsageKey(userId, MonthOf(now.date)), true), t, now).Allowed?
    ensures var key := UsageKey(userId, MonthOf(now.date));
            var u := ValidateUserUsage(Select(usage, key, true), t, now).usageData;
            var usage' := UserUsageAfterRecord(usage, userId, now.date, true, true);
            && key in usage' && usage'[key] == UsageRow(now.date, 1, u.monthly + 1)
            && u.daily == usage[key].dailyCount
            && (usage'[key].dailyCount == u.daily + 1 <==> usage[key].dailyCount == 0)
  {
  }

  /**
   * For an anonymous caller, when every query succeeds, the `currentUsage` a served
   * request reports is what the next usage check reads.
   */
  lemma AnonymousReportMatchesLedger(anonymous: map<AnonKey, nat>, ip: string, now: DateTime, localHour: int)
    requires ValidDate(now.date) && 0 <= localHour < 24
    requires ValidateAnonymousUsage(anonymous, ip, now, true, true).Allowed?
    ensures var u := ValidateAnonymousUsage(anonymous, ip, now, true, true).usageData;
            var anonymous' := AnonymousAfterRecord(anonymous, AnonKey(ip, now.date, localHour), true, true);
            AnonymousUsageRead(anonymous', ip, now.date, true, true) == Caps(u.daily + 1, u.monthly + 1)
  {
    AnonymousRecordTotals(anonymous, ip, now, localHour, true, true);
  }
}
