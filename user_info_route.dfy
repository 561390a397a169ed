/** The combined read endpoint, GET /api/user-info: app/api/user-info/route.ts. */
module UserInfoRoute {
  import opened Wrappers
  import opened Calendar
  import opened UsageLimits
  import opened Database
  import opened ApiResponse
  import opened AuthService
  import opened UsageService
  import opened UsageRoute

  /** The `subscription` object: the whole stored row, or the `{tier, status}` placeholder. */
  datatype SubscriptionView = StoredRow(row: SubscriptionRow) | Placeholder(tier: Tier, status: string)

  /** The data of a successful GET /api/user-info: `{subscription, usage, limits, remaining}`. */
  datatype UserInfo = UserInfo(subscription: SubscriptionView, summary: UsageSummary)

  /** The tier used for the limits and the subscription object reported beside it. */
  datatype Entitlement = Entitlement(tier: Tier, view: SubscriptionView)

  /** Only an entitled row is shown, with its tier; anything else reads as an active free plan. */
  function EntitlementOf(subscription: Lookup<SubscriptionRow>, nowMs: int): (e: Entitlement)
    ensures e.tier == SignedInTier(subscription, nowMs)
    ensures e.view.StoredRow? <==> subscription.Row? && Entitled(subscription.value, nowMs)
    ensures e.view.StoredRow? ==> e.view.row == subscription.value && e.tier == e.view.row.tier
    ensures e.view.Placeholder? ==> e.view == Placeholder(Free, "active") && e.tier == Free
  {
    match subscription
    case Row(row) =>
      if Entitled(row, nowMs) then Entitlement(row.tier, StoredRow(row)) else Entitlement(Free, Placeholder(Free, "active"))
    case _ => Entitlement(Free, Placeholder(Free, "active"))
  }

  /** What the route sees of the outside world; both reads are issued together. */
  datatype UserInfoEnv = UserInfoEnv(session: Result<Option<User>, string>, now: DateTime, subscriptionReadOk: bool, usageReadOk: bool)

  function UserInfoMetadata(userId: UserId, today: Date, t: Tier): map<string, Value> {
    map["source" := VStr("database"), "userId" := VStr(userId), "currentMonth" := VMonth(MonthOf(today)),
        "currentDay" := VDay(today), "tier" := VStr(TierName(t))]
  }

  /**
   * GET /api/user-info: the subscription and this month's usage in one answer. Signed out,
   * the anonymous placeholder with zero usage; signed in, the entitlement of the stored row
   * and the rolled-over counts held against the caps of that tier.
   */
  function Get(subscriptions: map<UserId, SubscriptionRow>, usage: map<UsageKey, UsageRow>, env: UserInfoEnv): (r: HttpResponse<UserInfo>)
    requires ValidDate(env.now.date)
    ensures env.session.Failure? <==> r.status == 500
    ensures env.session.Failure? ==>
              r == ErrorResponse(env.now, "Failed to fetch user information", 500, Some("USER_INFO_ERROR"), map["error" := VStr(env.session.error)])
    ensures env.session.Success? ==> r.status == 200 && r.body.SuccessBody?
    ensures env.session == Success(None) ==>
              && r.body.data == UserInfo(Placeholder(Anonymous, "active"), UsageSummary(Caps(0, 0), CapsOf(Anonymous), CapsOf(Anonymous)))
              && r.body.metadata == Stamped(env.now, map["source" := VStr("default"), "userType" := VStr("anonymous")])
    ensures env.session.Success? && env.session.value.Some? ==>
              var id := env.session.value.value.id;
              var e := EntitlementOf(Select(subscriptions, id, env.subscriptionReadOk), EpochMs(env.now));
              && r.body.data.subscription == e.view
              && r.body.data.summary == Summarize(e.tier, Select(usage, UsageKey(id, MonthOf(env.now.date)), env.usageReadOk).Data(), env.now.date)
              && r.body.metadata == Stamped(env.now, UserInfoMetadata(id, env.now.date, e.tier))
  {
    match env.session
    case Failure(e) => ErrorResponse(env.now, "Failed to fetch user information", 500, Some("USER_INFO_ERROR"), map["error" := VStr(e)])
    case Success(None) =>
      SuccessResponse(env.now, UserInfo(Placeholder(Anonymous, "active"), Summarize(Anonymous, None, env.now.date)),
                      map["source" := VStr("default"), "userType" := VStr("anonymous")])
    case Success(Some(user)) =>
      var e := EntitlementOf(Select(subscriptions, user.id, env.subscriptionReadOk), EpochMs(env.now));
      var row := Select(usage, UsageKey(user.id, MonthOf(env.now.date)), env.usageReadOk).Data();
      SuccessResponse(env.now, UserInfo(e.view, Summarize(e.tier, row, env.now.date)), UserInfoMetadata(user.id, env.now.date, e.tier))
  }

  /**
   * The two read endpoints agree: for the same tables and reads, user-info reports the
   * usage, limits and remaining counts of GET /api/usage, and its metadata tier is the tier
   * GET /api/usage reports and the tier of the limits.
   */
  lemma AgreesWithUsageRoute(subscriptions: map<UserId, SubscriptionRow>, usage: map<UsageKey, UsageRow>, env: UserInfoEnv, user: User)
    requires ValidDate(env.now.date) && env.session == Success(Some(user))
    ensures var info := Get(subscriptions, usage, env);
            var rep := UsageRoute.Get(subscriptions, usage, UsageEnv(env.session, env.now, env.subscriptionReadOk, env.usageReadOk));
            && info.body.data.summary == rep.body.data.summary
            && info.body.metadata["tier"] == VStr(TierName(rep.body.data.tier))
            && info.body.data.summary.limits == CapsOf(rep.body.data.tier)
  {
  }

  /**
   * The subscription shown is the stored row exactly when it grants its tier; in every other
   * case, a failed read included, it is the free placeholder.
   */
  lemma ViewRule(subscriptions: map<UserId, SubscriptionRow>, usage: map<UsageKey, UsageRow>, env: UserInfoEnv, user: User)
    requires ValidDate(env.now.date) && env.session == Success(Some(user))
    ensures var info := Get(subscriptions, usage, env);
            var granted := env.subscriptionReadOk && user.id in subscriptions && Entitled(subscriptions[user.id], EpochMs(env.now));
            && (granted ==> info.body.data.subscription == StoredRow(subscriptions[user.id]))
            && (!granted ==> info.body.data.subscription == Placeholder(Free, "active"))
  {
  }
}
