/**
 * Admission and the usage ledger: lib/services/usage-service.ts. The validators are
 * decisions over what the tables hold; the recorders are read-then-upsert writes of one key.
 */
module UsageService {
  import opened Wrappers
  import opened Text
  import opened Calendar
  import opened UsageLimits
  import opened Database
  import opened ApiResponse

  /** A `{daily, monthly}` pair. */
  datatype Caps = Caps(daily: int, monthly: int)

  /** `UsageData`: the counts read before a request, and the caps they are held to. */
  datatype UsageData = UsageData(daily: int, monthly: int, limits: Caps)

  function CapsOf(t: Tier): (c: Caps)
    ensures 0 <= c.daily <= c.monthly
  {
    Caps(GetLimits(t).daily, GetLimits(t).monthly)
  }

  /** Which cap a denial names (its message starts with "Daily" or "Monthly"). */
  datatype LimitWindow = DailyWindow | MonthlyWindow

  datatype DenialDetails = DenialDetails(
    currentUsage: Caps,
    limits: Caps,
    resetTime: ResetTimes,
    hint: Option<string>,
    userTier: Tier,
    upgradeAvailable: Option<bool>)

  datatype UsageDenial = UsageDenial(window: LimitWindow, message: string, details: DenialDetails)

  datatype UsageValidation = Allowed(usageData: UsageData) | Denied(denial: UsageDenial)

  // ---------------------------------------------------------------- anonymous ledger

  /** The count in one bucket; a missing bucket counts 0. */
  function Count(t: map<AnonKey, nat>, k: AnonKey): nat {
    if k in t then t[k] else 0
  }

  /** The bucket hours the recorder writes are 0 .. 23 and the dates are calendar dates. */
  predicate WellFormedAnonymous(t: map<AnonKey, nat>) {
    forall k :: k in t ==> 0 <= k.hour < 24 && ValidDate(k.date)
  }

  /** Sum of the buckets of `ip` on `date` for the hours 0 .. n-1. */
  function HourSum(t: map<AnonKey, nat>, ip: string, date: Date, n: nat): nat {
    if n == 0 then 0 else HourSum(t, ip, date, n - 1) + Count(t, AnonKey(ip, date, n - 1))
  }

  /** What the daily query adds up: every hour bucket of `ip` dated `date`. */
  function AnonymousDailyTotal(t: map<AnonKey, nat>, ip: string, date: Date): nat {
    HourSum(t, ip, date, 24)
  }

  /** Sum of the daily totals of `ip` on the days 1 .. n of month `ym`. */
  function DaySum(t: map<AnonKey, nat>, ip: string, ym: YearMonth, n: nat): nat {
    if n == 0 then 0 else DaySum(t, ip, ym, n - 1) + AnonymousDailyTotal(t, ip, Date(ym.year, ym.month, n))
  }

  /** What the monthly query adds up: every bucket of `ip` dated `YYYY-MM-01` .. `YYYY-MM-31`. */
  function AnonymousMonthlyTotal(t: map<AnonKey, nat>, ip: string, ym: YearMonth): nat {
    DaySum(t, ip, ym, 31)
  }

  /** The two totals the anonymous validator sees; a failed query yields no rows, so 0. */
  function AnonymousUsageRead(t: map<AnonKey, nat>, ip: string, today: Date, dailyReadOk: bool, monthlyReadOk: bool): Caps {
    Caps(if dailyReadOk then AnonymousDailyTotal(t, ip, today) else 0,
         if monthlyReadOk then AnonymousMonthlyTotal(t, ip, MonthOf(today)) else 0)
  }

  const ANON_MONTHLY_MESSAGE: string := "Monthly limit reached. Please sign in for more interpretations."
  const ANON_DAILY_MESSAGE: string := "Daily limit reached. Please sign in for more interpretations."
  const ANON_HINT: string := "Create a free account to get 10 interpretations per month!"

  /**
   * `validateAnonymousUsage`: the monthly cap is checked first, then the daily one; an
   * allowed result carries the totals read and the anonymous caps.
   */
  function ValidateAnonymousUsage(t: map<AnonKey, nat>, ip: string, now: DateTime, dailyReadOk: bool, monthlyReadOk: bool): (r: UsageValidation)
    requires ValidDate(now.date)
    ensures var u := AnonymousUsageRead(t, ip, now.date, dailyReadOk, monthlyReadOk);
            && (r.Allowed? <==> u.daily < CapsOf(Anonymous).daily && u.monthly < CapsOf(Anonymous).monthly)
            && (r.Allowed? ==> r.usageData == UsageData(u.daily, u.monthly, CapsOf(Anonymous)))
            && (r.Denied? ==> (r.denial.window == MonthlyWindow <==> u.monthly >= CapsOf(Anonymous).monthly))
            && (r.Denied? ==> r.denial.details == DenialDetails(u, CapsOf(Anonymous), ResetTimesAt(now), Some(ANON_HINT), Anonymous, None))
  {
    var limits := CapsOf(Anonymous);
    var u := AnonymousUsageRead(t, ip, now.date, dailyReadOk, monthlyReadOk);
    var details := DenialDetails(u, limits, ResetTimesAt(now), Some(ANON_HINT), Anonymous, None);
    if u.monthly >= limits.monthly then Denied(UsageDenial(MonthlyWindow, ANON_MONTHLY_MESSAGE, details))
    else if u.daily >= limits.daily then Denied(UsageDenial(DailyWindow, ANON_DAILY_MESSAGE, details))
    else Allowed(UsageData(u.daily, u.monthly, limits))
  }

  /** The anonymous table after `recordAnonymousUsage` for bucket `key`. */
  function AnonymousAfterRecord(t: map<AnonKey, nat>, key: AnonKey, readOk: bool, writeOk: bool): map<AnonKey, nat> {
    var current := Select(t, key, readOk).Data();
    var newCount := (if current.Some? then current.value else 0) + 1;
    if writeOk then t[key := newCount] else t
  }

  /** `recordAnonymousUsage`: read the bucket of this ip, UTC date and local hour, then upsert count + 1. */
  method RecordAnonymousUsage(db: Db, ip: string, now: DateTime, localHour: int, readOk: bool, writeOk: bool)
    requires 0 <= localHour < 24
    modifies db`anonymous
    ensures db.anonymous == AnonymousAfterRecord(old(db.anonymous), AnonKey(ip, now.date, localHour), readOk, writeOk)
    ensures WellFormedAnonymous(old(db.anonymous)) && ValidDate(now.date) ==> WellFormedAnonymous(db.anonymous)
  {
    var key := AnonKey(ip, now.date, localHour);
    var hourUsage := Select(db.anonymous, key, readOk).Data();
    var newCount := (if hourUsage.Some? then hourUsage.value else 0) + 1;
    if writeOk {
      db.anonymous := db.anonymous[key := newCount];
    }
  }

  /** One bucket written: the bucket of `key` is one more than read and every other bucket is as it was. */
  lemma AnonymousRecordPoint(t: map<AnonKey, nat>, key: AnonKey, readOk: bool, writeOk: bool, other: AnonKey)
    ensures var t' := AnonymousAfterRecord(t, key, readOk, writeOk);
            && (writeOk ==> Count(t', key) == (if readOk then Count(t, key) else 0) + 1)
            && (!writeOk ==> t' == t)
            && (other != key ==> Count(t', other) == Count(t, other))
            && (WellFormedAnonymous(t) && 0 <= key.hour < 24 && ValidDate(key.date) ==> WellFormedAnonymous(t'))
  {
  }

  lemma {:induction false} HourSumUpdate(t: map<AnonKey, nat>, k: AnonKey, v: nat, ip: string, date: Date, n: nat)
    ensures HourSum(t[k := v], ip, date, n) ==
            HourSum(t, ip, date, n) + (if k.ip == ip && k.date == date && 0 <= k.hour < n then v - Count(t, k) else 0)
  {
    if n > 0 {
      HourSumUpdate(t, k, v, ip, date, n - 1);
    }
  }

  lemma {:induction false} DaySumUpdate(t: map<AnonKey, nat>, k: AnonKey, v: nat, ip: string, ym: YearMonth, n: nat)
    ensures DaySum(t[k := v], ip, ym, n) ==
            DaySum(t, ip, ym, n) +
            (if k.ip == ip && MonthOf(k.date) == ym && 1 <= k.date.day <= n && 0 <= k.hour < 24 then v - Count(t, k) else 0)
  {
    if n > 0 {
      DaySumUpdate(t, k, v, ip, ym, n - 1);
      HourSumUpdate(t, k, v, ip, Date(ym.year, ym.month, n), 24);
    }
  }

  /**
   * A recorded anonymous request adds exactly one to the caller's daily and monthly totals
   * when both queries succeed; a failed read restarts the bucket at 1, so the totals never
   * grow by more than one.
   */
  lemma AnonymousRecordTotals(t: map<AnonKey, nat>, ip: string, now: DateTime, hour: int, readOk: bool, writeOk: bool)
    requires ValidDate(now.date) && 0 <= hour < 24
    ensures var t' := AnonymousAfterRecord(t, AnonKey(ip, now.date, hour), readOk, writeOk);
            && (readOk && writeOk ==> AnonymousDailyTotal(t', ip, now.date) == AnonymousDailyTotal(t, ip, now.date) + 1)
            && (readOk && writeOk ==> AnonymousMonthlyTotal(t', ip, MonthOf(now.date)) == AnonymousMonthlyTotal(t, ip, MonthOf(now.date)) + 1)
            && AnonymousDailyTotal(t', ip, now.date) <= AnonymousDailyTotal(t, ip, now.date) + 1
            && AnonymousMonthlyTotal(t', ip, MonthOf(now.date)) <= AnonymousMonthlyTotal(t, ip, MonthOf(now.date)) + 1
  {
    var key := AnonKey(ip, now.date, hour);
    if writeOk {
      var v := (if readOk && key in t then t[key] else 0) + 1;
      HourSumUpdate(t, key, v, ip, now.date, 24);
      DaySumUpdate(t, key, v, ip, MonthOf(now.date), 31);
    }
  }

  /** Recording for one caller changes no other caller's totals and no other day's or month's. */
  lemma AnonymousRecordOthers(t: map<AnonKey, nat>, ip: string, now: DateTime, hour: int, readOk: bool, writeOk: bool,
                              ip2: string, date2: Date)
    requires ValidDate(now.date) && 0 <= hour < 24
    ensures var t' := AnonymousAfterRecord(t, AnonKey(ip, now.date, hour), readOk, writeOk);
            && ((ip2, date2) != (ip, now.date) ==> AnonymousDailyTotal(t', ip2, date2) == AnonymousDailyTotal(t, ip2, date2))
            && ((ip2, MonthOf(date2)) != (ip, MonthOf(now.date)) ==>
                  AnonymousMonthlyTotal(t', ip2, MonthOf(date2)) == AnonymousMonthlyTotal(t, ip2, MonthOf(date2)))
  {
    var key := AnonKey(ip, now.date, hour);
    if writeOk {
      var v := (if readOk && key in t then t[key] else 0) + 1;
      HourSumUpdate(t, key, v, ip2, date2, 24);
      DaySumUpdate(t, key, v, ip2, MonthOf(date2), 31);
    }
  }

  // ---------------------------------------------------------------- user ledger

  /** The daily count of a month row as of `today`: 0 without a row or when the row was last written on another day. */
  function DailyAsOf(row: Option<UsageRow>, today: Date): nat {
    if row.None? || row.value.day != today then 0 else row.value.dailyCount
  }

  function MonthlyOf(row: Option<UsageRow>): nat {
    if row.None? then 0 else row.value.monthlyCount
  }

  function UpgradeHint(t: Tier): string {
    if t == Free then "Upgrade to Basic for 50/month!"
    else if t == Basic then "Upgrade to Pro for 200/month!"
    else "See you next month!"
  }

  function UserDailyMessage(c: Caps): string
    requires c.daily >= 0
  {
    "Daily limit reached. You can use " + NatToDecimal(c.daily) + " interpretations per day. Come back tomorrow!"
  }

  function UserMonthlyMessage(c: Caps, t: Tier): string
    requires c.monthly >= 0
  {
    "Monthly limit reached. You can use " + NatToDecimal(c.monthly) + " interpretations per month. " + UpgradeHint(t)
  }

  /**
   * `validateUserUsage` over the outcome of reading the caller's row for this month. A failed
   * read and a missing row both admit with zero counts. Otherwise the stored daily count is
   * checked first and the monthly count second; the stored day is not consulted.
   */
  function ValidateUserUsage(usage: Lookup<UsageRow>, t: Tier, now: DateTime): (r: UsageValidation)
    requires ValidDate(now.date)
    ensures !usage.Row? ==> r == Allowed(UsageData(0, 0, CapsOf(t)))
    ensures usage.Row? ==>
              (r.Allowed? <==> usage.value.dailyCount < CapsOf(t).daily && usage.value.monthlyCount < CapsOf(t).monthly)
    ensures usage.Row? && r.Allowed? ==>
              r.usageData == UsageData(usage.value.dailyCount, usage.value.monthlyCount, CapsOf(t))
    ensures r.Denied? ==>
              && r.denial.window == (if usage.value.dailyCount >= CapsOf(t).daily then DailyWindow else MonthlyWindow)
              && r.denial.details.currentUsage == Caps(usage.value.dailyCount, usage.value.monthlyCount)
              && r.denial.details.limits == CapsOf(t)
              && r.denial.details.userTier == t
              && r.denial.details.hint.None?
              && r.denial.details.upgradeAvailable == (if r.denial.window == MonthlyWindow then Some(t != Pro) else None)
  {
    var limits := CapsOf(t);
    match usage
    case Row(row) =>
      var current := Caps(row.dailyCount, row.monthlyCount);
      if row.dailyCount >= limits.daily then
        Denied(UsageDenial(DailyWindow, UserDailyMessage(limits),
                           DenialDetails(current, limits, ResetTimesAt(now), None, t, None)))
      else if row.monthlyCount >= limits.monthly then
        Denied(UsageDenial(MonthlyWindow, UserMonthlyMessage(limits, t),
                           DenialDetails(current, limits, ResetTimesAt(now), None, t, Some(t != Pro))))
      else
        Allowed(UsageData(row.dailyCount, row.monthlyCount, limits))
    case _ => Allowed(UsageData(0, 0, limits))
  }

  /** The user table after `recordUserUsage` for `userId` on `today`. */
  function UserUsageAfterRecord(m: map<UsageKey, UsageRow>, userId: UserId, today: Date, readOk: bool, writeOk: bool): map<UsageKey, UsageRow> {
    var key := UsageKey(userId, MonthOf(today));
    var current := Select(m, key, readOk).Data();
    var isDifferentDay := current.None? || current.value.day != today;
    var newDaily := if isDifferentDay then 1 else current.value.dailyCount + 1;
    var newMonthly := (if current.Some? then current.value.monthlyCount else 0) + 1;
    if writeOk then m[key := UsageRow(today, newDaily, newMonthly)] else m
  }

  /** `recordUserUsage`: read this month's row, restart the daily count on a new day, upsert. */
  method RecordUserUsage(db: Db, userId: UserId, now: DateTime, readOk: bool, writeOk: bool)
    modifies db`usage
    ensures db.usage == UserUsageAfterRecord(old(db.usage), userId, now.date, readOk, writeOk)
  {
    var key := UsageKey(userId, MonthOf(now.date));
    var currentUsage := Select(db.usage, key, readOk).Data();
    var isDifferentDay := currentUsage.None? || currentUsage.value.day != now.date;
    var newDailyCount := if isDifferentDay then 1 else currentUsage.value.dailyCount + 1;
    var newMonthlyCount := (if currentUsage.Some? then currentUsage.value.monthlyCount else 0) + 1;
    if writeOk {
      db.usage := db.usage[key := UsageRow(now.date, newDailyCount, newMonthlyCount)];
    }
  }

  /**
   * A recorded request leaves the row stamped today with one more than today's count and
   * one more than the month's count; a failed read restarts both at 1; a failed write
   * changes nothing; no other row changes.
   */
  lemma UserRecordCounts(m: map<UsageKey, UsageRow>, userId: UserId, today: Date, readOk: bool, writeOk: bool)
    ensures var key := UsageKey(userId, MonthOf(today));
            var m' := UserUsageAfterRecord(m, userId, today, readOk, writeOk);
            var before := Select(m, key, readOk).Data();
            && (writeOk ==> key in m' && m'[key] == UsageRow(today, DailyAsOf(before, today) + 1, MonthlyOf(before) + 1))
            && (writeOk && !readOk ==> m'[key] == UsageRow(today, 1, 1))
            && (!writeOk ==> m' == m)
            && (forall k :: k != key ==> (k in m' <==> k in m) && (k in m ==> m'[k] == m[k]))
  {
  }

  /** `n` successful recordings on the same day. */
  function RecordedTimes(m: map<UsageKey, UsageRow>, userId: UserId, today: Date, n: nat): map<UsageKey, UsageRow> {
    if n == 0 then m else UserUsageAfterRecord(RecordedTimes(m, userId, today, n - 1), userId, today, true, true)
  }

  /** Starting from no row this month, `n > 0` recordings on one day leave the row (today, n, n). */
  lemma {:induction false} RecordedTimesCounts(m: map<UsageKey, UsageRow>, userId: UserId, today: Date, n: nat)
    requires UsageKey(userId, MonthOf(today)) !in m
    ensures var key := UsageKey(userId, MonthOf(today));
            && (n == 0 ==> key !in RecordedTimes(m, userId, today, n))
            && (n > 0 ==> key in RecordedTimes(m, userId, today, n) && RecordedTimes(m, userId, today, n)[key] == UsageRow(today, n, n))
  {
    if n > 0 {
      RecordedTimesCounts(m, userId, today, n - 1);
    }
  }

  /**
   * The daily quota boundary: after `n` recorded requests on a fresh day of a fresh month,
   * the next request is admitted exactly when `n` is below the tier's daily cap.
   */
  lemma DailyQuotaBoundary(m: map<UsageKey, UsageRow>, userId: UserId, now: DateTime, t: Tier, n: nat)
    requires ValidDate(now.date)
    requires UsageKey(userId, MonthOf(now.date)) !in m
    ensures var m' := RecordedTimes(m, userId, now.date, n);
            ValidateUserUsage(Select(m', UsageKey(userId, MonthOf(now.date)), true), t, now).Allowed? <==> n < CapsOf(t).daily
  {
    RecordedTimesCounts(m, userId, now.date, n);
  }

  /**
   * The user validator ignores the stored day: a row that reached the daily cap on an
   * earlier day of this month still denies today, although the day-rolled count the read
   * endpoints report for today is 0.
   */
  lemma StaleDailyCountDenies(row: UsageRow, t: Tier, now: DateTime)
    requires ValidDate(now.date)
    requires row.day != now.date && row.dailyCount >= CapsOf(t).daily
    ensures ValidateUserUsage(Row(row), t, now).Denied?
    ensures ValidateUserUsage(Row(row), t, now).denial.window == DailyWindow
    ensures DailyAsOf(Some(row), now.date) == 0
  {
  }

  // ---------------------------------------------------------------- response details

  function CapsValue(c: Caps): Value {
    VObj(map["daily" := VInt(c.daily), "monthly" := VInt(c.monthly)])
  }

  function UsageDataValue(u: UsageData): Value {
    VObj(map["daily" := VInt(u.daily), "monthly" := VInt(u.monthly), "limits" := CapsValue(u.limits)])
  }

  /** The `details` object of a denial as it goes into the error envelope. */
  function DenialDetailsValue(d: DenialDetails): (r: map<string, Value>)
    ensures "currentUsage" in r && r["currentUsage"] == CapsValue(d.currentUsage)
    ensures "limits" in r && r["limits"] == CapsValue(d.limits)
    ensures "userTier" in r && r["userTier"] == VStr(TierName(d.userTier))
    ensures "hint" in r <==> d.hint.Some?
    ensures "upgradeAvailable" in r <==> d.upgradeAvailable.Some?
  {
    var base := map[
      "currentUsage" := CapsValue(d.currentUsage),
      "limits" := CapsValue(d.limits),
      "resetTime" := VObj(map["daily" := VTime(d.resetTime.daily), "monthly" := VTime(d.resetTime.monthly)]),
      "userTier" := VStr(TierName(d.userTier))];
    var withHint := if d.hint.Some? then base["hint" := VStr(d.hint.value)] else base;
    if d.upgradeAvailable.Some? then withHint["upgradeAvailable" := VBool(d.upgradeAvailable.value)] else withHint
  }
}
