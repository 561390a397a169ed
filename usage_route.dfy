/** The usage read endpoint, GET /api/usage: app/api/usage/route.ts. */
module UsageRoute {
  import opened Wrappers
  import opened Calendar
  import opened UsageLimits
  import opened Database
  import opened ApiResponse
  import opened AuthService
  import opened UsageService

  /** `Math.max(0, limit - count)`: what is left of a cap, never negative. */
  function Remaining(limit: int, count: int): (r: int)
    ensures r >= 0 && r >= limit - count
    ensures r == 0 || r == limit - count
    ensures r == 0 <==> count >= limit
    ensures 0 <= count && 0 <= limit ==> r <= limit
  {
    if limit - count > 0 then limit - count else 0
  }

  /** The `usage`, `limits` and `remaining` objects the read endpoints return. */
  datatype UsageSummary = UsageSummary(usage: Caps, limits: Caps, remaining: Caps)

  /**
   * The counts of this month's row as seen today (the daily count restarts on a new day)
   * held against the caps of tier `t`.
   */
  function Summarize(t: Tier, row: Option<UsageRow>, today: Date): UsageSummary {
    var daily := DailyAsOf(row, today);
    var monthly := MonthlyOf(row);
    var limits := CapsOf(t);
    UsageSummary(Caps(daily, monthly), limits, Caps(Remaining(limits.daily, daily), Remaining(limits.monthly, monthly)))
  }

  /** The data of a successful GET /api/usage: `{tier, usage, limits, remaining}`. */
  datatype UsageReport = UsageReport(tier: Tier, summary: UsageSummary)

  /**
   * What the route sees of the outside world: the session (`Failure` when building the
   * client or reading the session throws), the clock, and whether each table read succeeds.
   */
  datatype UsageEnv = UsageEnv(session: Result<Option<User>, string>, now: DateTime, subscriptionReadOk: bool, usageReadOk: bool)

  /** The metadata of a signed-in answer. */
  function DatabaseMetadata(userId: UserId, today: Date): map<string, Value> {
    map["source" := VStr("database"), "userId" := VStr(userId), "currentMonth" := VMonth(MonthOf(today)), "currentDay" := VDay(today)]
  }

  /**
   * GET /api/usage against the subscription and usage tables. A signed-out caller gets the
   * anonymous caps untouched; a signed-in one gets the tier its subscription grants (a
   * failed read counts as no row) and this month's row rolled over to today.
   */
  function Get(subscriptions: map<UserId, SubscriptionRow>, usage: map<UsageKey, UsageRow>, env: UsageEnv): (r: HttpResponse<UsageReport>)
    requires ValidDate(env.now.date)
    ensures env.session.Failure? <==> r.status == 500
    ensures env.session.Failure? ==>
              r == ErrorResponse(env.now, "Failed to fetch usage data", 500, Some("USAGE_ERROR"), map["error" := VStr(env.session.error)])
    ensures env.session.Success? ==> r.status == 200 && r.body.SuccessBody?
    ensures env.session == Success(None) ==>
              && r.body.data == UsageReport(Anonymous, UsageSummary(Caps(0, 0), CapsOf(Anonymous), CapsOf(Anonymous)))
              && r.body.metadata == Stamped(env.now, map["source" := VStr("default")])
    ensures env.session.Success? && env.session.value.Some? ==>
              var id := env.session.value.value.id;
              && r.body.data.tier == SignedInTier(Select(subscriptions, id, env.subscriptionReadOk), EpochMs(env.now))
              && r.body.data.summary.usage.daily == DailyAsOf(Select(usage, UsageKey(id, MonthOf(env.now.date)), env.usageReadOk).Data(), env.now.date)
              && r.body.data.summary.usage.monthly == MonthlyOf(Select(usage, UsageKey(id, MonthOf(env.now.date)), env.usageReadOk).Data())
              && r.body.data.summary.limits == CapsOf(r.body.data.tier)
              && r.body.data.summary.remaining
                   == Caps(Remaining(r.body.data.summary.limits.daily, r.body.data.summary.usage.daily),
                           Remaining(r.body.data.summary.limits.monthly, r.body.data.summary.usage.monthly))
              && r.body.metadata == Stamped(env.now, DatabaseMetadata(id, env.now.date))
  {
    match env.session
    case Failure(e) => ErrorResponse(env.now, "Failed to fetch usage data", 500, Some("USAGE_ERROR"), map["error" := VStr(e)])
    case Success(None) =>
      SuccessResponse(env.now, UsageReport(Anonymous, Summarize(Anonymous, None, env.now.date)), map["source" := VStr("default")])
    case Success(Some(user)) =>
      var tier := SignedInTier(Select(subscriptions, user.id, env.subscriptionReadOk), EpochMs(env.now));
      var row := Select(usage, UsageKey(user.id, MonthOf(env.now.date)), env.usageReadOk).Data();
      SuccessResponse(env.now, UsageReport(tier, Summarize(tier, row, env.now.date)), DatabaseMetadata(user.id, env.now.date))
  }

  /**
   * Every summary keeps `0 <= remaining <= limit` per window, reports a window as exhausted
   * (remaining 0) exactly when its count has reached the cap, and otherwise counts and
   * remaining add up to the cap.
   */
  lemma SummaryBounds(t: Tier, row: Option<UsageRow>, today: Date)
    ensures var s := Summarize(t, row, today);
            && 0 <= s.remaining.daily <= s.limits.daily
            && 0 <= s.remaining.monthly <= s.limits.monthly
            && (s.remaining.daily == 0 <==> s.usage.daily >= s.limits.daily)
            && (s.remaining.monthly == 0 <==> s.usage.monthly >= s.limits.monthly)
            && (s.usage.daily <= s.limits.daily ==> s.usage.daily + s.remaining.daily == s.limits.daily)
            && (s.usage.monthly <= s.limits.monthly ==> s.usage.monthly + s.remaining.monthly == s.limits.monthly)
  {
  }

  /**
   * Day rollover: the daily count is 0 without a row or when the row was written on another
   * day, and the stored count when it was written today; the monthly count is the stored
   * count, or 0 without a row.
   */
  lemma SummaryRollover(t: Tier, row: Option<UsageRow>, today: Date)
    ensures row.None? ==> Summarize(t, row, today).usage == Caps(0, 0)
    ensures row.Some? && row.value.day != today ==> Summarize(t, row, today).usage == Caps(0, row.value.monthlyCount)
    ensures row.Some? && row.value.day == today ==>
              Summarize(t, row, today).usage == Caps(row.value.dailyCount, row.value.monthlyCount)
    ensures Summarize(t, None, today) == UsageSummary(Caps(0, 0), CapsOf(t), CapsOf(t))
  {
  }

  /**
   * The read endpoint agrees with the ledger: after a successful `recordUserUsage` today,
   * it reports one more than it reported before in both windows.
   */
  lemma ReadAfterRecord(usage: map<UsageKey, UsageRow>, t: Tier, userId: UserId, today: Date)
    ensures var key := UsageKey(userId, MonthOf(today));
            var before := Summarize(t, Select(usage, key, true).Data(), today).usage;
            var after := Summarize(t, Select(UserUsageAfterRecord(usage, userId, today, true, true), key, true).Data(), today).usage;
            after == Caps(before.daily + 1, before.monthly + 1)
  {
    UserRecordCounts(usage, userId, today, true, true);
  }

  /**
   * A signed-in caller whose subscription is active and unexpired is reported at its stored
   * tier, any other signed-in caller at free, whatever the usage read returns.
   */
  lemma GetTierRule(subscriptions: map<UserId, SubscriptionRow>, usage: map<UsageKey, UsageRow>, env: UsageEnv, user: User)
    requires ValidDate(env.now.date) && env.session == Success(Some(user))
    ensures var r := Get(subscriptions, usage, env);
            && (env.subscriptionReadOk && user.id in subscriptions && Entitled(subscriptions[user.id], EpochMs(env.now)) ==>
                  r.body.data.tier == subscriptions[user.id].tier)
            && (!(env.subscriptionReadOk && user.id in subscriptions && Entitled(subscriptions[user.id], EpochMs(env.now))) ==>
                  r.body.data.tier == Free)
            && r.body.metadata["source"] == VStr("database")
            && r.body.metadata["userId"] == VStr(user.id)
  {
  }
}
