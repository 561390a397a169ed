/**
 * The three tables the core reads and writes, as maps. A query's outcome is a `Lookup`:
 * the row, no row, or a failed query; a `.single()` read with no row and one that fails
 * both yield `null` data in the source, and the callers below treat them alike unless
 * stated otherwise.
 */
module Database {
  import opened Wrappers
  import opened Calendar
  import opened UsageLimits
  import opened PricingConfig

  type UserId = string

  /** A row of `user_subscriptions`, keyed by user id. Times are milliseconds since the epoch. */
  datatype SubscriptionRow = SubscriptionRow(
    tier: Tier,
    billingCycle: Option<BillingCycle>,
    status: string,
    creemSubscriptionId: Option<string>,
    creemCustomerEmail: Option<string>,
    creemProductId: Option<string>,
    currentPeriodStart: Option<int>,
    currentPeriodEnd: Option<int>)

  /** The key of `usage_tracking`: one row per user and `YYYY-MM` month. */
  datatype UsageKey = UsageKey(userId: UserId, month: YearMonth)

  /** A row of `usage_tracking`: the day of the last write and the two counters. */
  datatype UsageRow = UsageRow(day: Date, dailyCount: nat, monthlyCount: nat)

  /** The key of `anonymous_usage`: one bucket per ip address, date and hour. */
  datatype AnonKey = AnonKey(ip: string, date: Date, hour: int)

  datatype Lookup<T> = Row(value: T) | NoRow | QueryError {
    /** The `data` the source sees: the row, or null. */
    function Data(): Option<T> {
      match this
      case Row(v) => Some(v)
      case _ => None
    }
  }

  /** A single-row read of key `k`; `ok` is false when the query fails. */
  function Select<K, V>(m: map<K, V>, k: K, ok: bool): (r: Lookup<V>)
    ensures r.Row? <==> ok && k in m
    ensures r.Row? ==> r.value == m[k]
    ensures r == QueryError <==> !ok
  {
    if !ok then QueryError else if k in m then Row(m[k]) else NoRow
  }

  /** The application database. */
  class Db {
    var subscriptions: map<UserId, SubscriptionRow>
    var usage: map<UsageKey, UsageRow>
    var anonymous: map<AnonKey, nat>

    constructor(subscriptions: map<UserId, SubscriptionRow>, usage: map<UsageKey, UsageRow>, anonymous: map<AnonKey, nat>)
      ensures this.subscriptions == subscriptions && this.usage == usage && this.anonymous == anonymous
    {
      this.subscriptions := subscriptions;
      this.usage := usage;
      this.anonymous := anonymous;
    }
  }
}
