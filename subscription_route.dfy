/**
 * Subscription management, GET and DELETE /api/subscription/manage:
 * app/api/subscription/manage/route.ts. GET reads the caller's row; DELETE cancels it at the
 * provider and marks the row canceled.
 */
module SubscriptionRoute {
  import opened Wrappers
  import opened Calendar
  import opened UsageLimits
  import opened Database
  import opened ApiResponse
  import opened AuthService
  import opened UserInfoRoute

  /** What GET sees: the session (`Failure` when reading it throws), the clock and whether the read succeeds. */
  datatype ManageEnv = ManageEnv(session: Result<Option<User>, string>, now: DateTime, readOk: bool)

  /**
   * GET: 401 without a user; a failed read or a missing row (both are query errors of a
   * `.single()` read) reads as an active free plan from the "default" source; a row is
   * returned whole from the "database" source regardless of its status.
   */
  function Get(subscriptions: map<UserId, SubscriptionRow>, env: ManageEnv): (r: HttpResponse<SubscriptionView>)
    ensures env.session.Failure? ==> r == ErrorResponse(env.now, "Failed to get subscription", 500, Some("SUBSCRIPTION_ERROR"))
    ensures env.session == Success(None) ==> r == ErrorResponse(env.now, "Unauthorized", 401, Some("AUTH_REQUIRED"))
    ensures env.session.Success? && env.session.value.Some? ==>
              var id := env.session.value.value.id;
              && r.status == 200 && r.body.SuccessBody?
              && (env.readOk && id in subscriptions ==>
                    && r.body.data == StoredRow(subscriptions[id])
                    && r.body.metadata == Stamped(env.now, map["source" := VStr("database"), "userId" := VStr(id)]))
              && (!(env.readOk && id in subscriptions) ==>
                    && r.body.data == Placeholder(Free, "active")
                    && r.body.metadata == Stamped(env.now, map["source" := VStr("default"), "userId" := VStr(id)]))
  {
    match env.session
    case Failure(_) => ErrorResponse(env.now, "Failed to get subscription", 500, Some("SUBSCRIPTION_ERROR"))
    case Success(None) => ErrorResponse(env.now, "Unauthorized", 401, Some("AUTH_REQUIRED"))
    case Success(Some(user)) =>
      match Select(subscriptions, user.id, env.readOk)
      case Row(row) => SuccessResponse(env.now, StoredRow(row), map["source" := VStr("database"), "userId" := VStr(user.id)])
      case _ => SuccessResponse(env.now, Placeholder(Free, "active"), map["source" := VStr("default"), "userId" := VStr(user.id)])
  }

  /**
   * GET reports the stored row even when it grants nothing (canceled, expired or past its
   * period end), unlike GET /api/user-info, which shows such a row as the free placeholder.
   */
  lemma GetShowsUnentitledRow(subscriptions: map<UserId, SubscriptionRow>, env: ManageEnv, user: User)
    requires env.session == Success(Some(user)) && env.readOk && user.id in subscriptions
    requires ValidDate(env.now.date) && !Entitled(subscriptions[user.id], EpochMs(env.now))
    ensures Get(subscriptions, env).body.data == StoredRow(subscriptions[user.id])
    ensures UserInfoRoute.Get(subscriptions, map[], UserInfoEnv(env.session, env.now, true, true)).body.data.subscription
              == Placeholder(Free, "active")
  {
  }

  // ---------------------------------------------------------------- DELETE

  /**
   * What DELETE sees: the session, the clock, whether the read succeeds, the message of the
   * error the provider's cancel call throws (if it does) and that of the update (if it fails).
   */
  datatype CancelEnv = CancelEnv(session: Result<Option<User>, string>, now: DateTime, readOk: bool,
                                 cancelError: Option<string>, updateError: Option<string>)

  /** The data of a successful cancellation: `{message, canceledAt}`. */
  datatype CancelData = CancelData(message: string, canceledAt: DateTime)

  /** The answer, the provider subscription cancelled (if the call was made), and the table after. */
  datatype CancelResult = CancelResult(response: HttpResponse<CancelData>, providerCancel: Option<string>,
                                       subscriptions: map<UserId, SubscriptionRow>)

  function CancelError(now: DateTime, message: string): HttpResponse<CancelData> {
    ErrorResponse(now, "Failed to cancel subscription", 500, Some("CANCEL_ERROR"), map["error" := VStr(message)])
  }

  function OptionalString(v: Option<string>): Value {
    if v.Some? then VStr(v.value) else VNull
  }

  /** DELETE as a function of the table and the environment. */
  function CancelOutcome(subs: map<UserId, SubscriptionRow>, env: CancelEnv): CancelResult {
    match env.session
    case Failure(e) => CancelResult(CancelError(env.now, e), None, subs)
    case Success(None) => CancelResult(ErrorResponse(env.now, "Unauthorized", 401, Some("AUTH_REQUIRED")), None, subs)
    case Success(Some(user)) =>
      match Select(subs, user.id, env.readOk)
      case Row(row) =>
        var call := if row.creemSubscriptionId.Some? && row.creemSubscriptionId.value != "" then row.creemSubscriptionId else None;
        if call.Some? && env.cancelError.Some? then CancelResult(CancelError(env.now, env.cancelError.value), call, subs)
        else if env.updateError.Some? then CancelResult(CancelError(env.now, env.updateError.value), call, subs)
        else
          CancelResult(SuccessResponse(env.now, CancelData("Subscription canceled successfully", env.now),
                                       map["userId" := VStr(user.id), "subscriptionId" := OptionalString(row.creemSubscriptionId)]),
                       call, subs[user.id := row.(status := "canceled")])
      case _ =>
        CancelResult(ErrorResponse(env.now, "No active subscription found", 404, Some("SUBSCRIPTION_NOT_FOUND")), None, subs)
  }

  /**
   * DELETE: after the user and row checks, the provider cancel is called when the row has a
   * provider subscription id; then only the caller's row is marked canceled.
   */
  method Delete(db: Db, env: CancelEnv) returns (resp: HttpResponse<CancelData>, providerCancel: Option<string>)
    modifies db`subscriptions
    ensures CancelResult(resp, providerCancel, db.subscriptions) == CancelOutcome(old(db.subscriptions), env)
  {
    providerCancel := None;
    if env.session.Failure? {
      return CancelError(env.now, env.session.error), providerCancel;
    }
    var user := env.session.value;
    if user.None? {
      return ErrorResponse(env.now, "Unauthorized", 401, Some("AUTH_REQUIRED")), providerCancel;
    }
    var subscription := Select(db.subscriptions, user.value.id, env.readOk);
    if !subscription.Row? {
      return ErrorResponse(env.now, "No active subscription found", 404, Some("SUBSCRIPTION_NOT_FOUND")), providerCancel;
    }
    var row := subscription.value;
    if row.creemSubscriptionId.Some? && row.creemSubscriptionId.value != "" {
      providerCancel := row.creemSubscriptionId;
      if env.cancelError.Some? {
        return CancelError(env.now, env.cancelError.value), providerCancel;
      }
    }
    if env.updateError.Some? {
      return CancelError(env.now, env.updateError.value), providerCancel;
    }
    db.subscriptions := db.subscriptions[user.value.id := row.(status := "canceled")];
    resp := SuccessResponse(env.now, CancelData("Subscription canceled successfully", env.now),
                            map["userId" := VStr(user.value.id), "subscriptionId" := OptionalString(row.creemSubscriptionId)]);
  }

  /**
   * A successful cancellation sets only the caller's status to canceled, keeps the tier and
   * every other field, leaves every other row alone, and ends the caller's entitlement.
   */
  lemma CancelEffects(subs: map<UserId, SubscriptionRow>, env: CancelEnv, user: User, nowMs: int)
    requires env.session == Success(Some(user))
    requires CancelOutcome(subs, env).response.status == 200
    ensures var subs' := CancelOutcome(subs, env).subscriptions;
            && user.id in subs && user.id in subs'
            && subs'[user.id] == subs[user.id].(status := "canceled")
            && subs'[user.id].tier == subs[user.id].tier
            && (forall u :: u != user.id ==> (u in subs' <==> u in subs) && (u in subs ==> subs'[u] == subs[u]))
            && SignedInTier(Row(subs'[user.id]), nowMs) == Free
  {
  }

  /**
   * The provider is asked to cancel exactly when the caller has a row with a provider
   * subscription id, and every failure (no user, no row, a provider or update error) leaves
   * the table unchanged.
   */
  lemma CancelGuards(subs: map<UserId, SubscriptionRow>, env: CancelEnv)
    ensures var r := CancelOutcome(subs, env);
            && (r.providerCancel.Some? <==>
                  env.session.Success? && env.session.value.Some? && env.readOk && env.session.value.value.id in subs &&
                  subs[env.session.value.value.id].creemSubscriptionId.Some? &&
                  subs[env.session.value.value.id].creemSubscriptionId.value != "")
            && (r.response.status != 200 ==> r.subscriptions == subs)
            && (env.session.Success? && env.session.value.Some? && !(env.readOk && env.session.value.value.id in subs) ==>
                  r.response.status == 404 && r.response.body.code == Some("SUBSCRIPTION_NOT_FOUND"))
            && (env.session == Success(None) ==> r.response.status == 401)
  {
  }
}
