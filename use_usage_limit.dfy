/**
 * The older single-counter hook of hooks/use-usage-limit.ts: one daily count kept in
 * device storage under "lumi_usage_data", held to a limit that depends only on whether
 * the visitor is signed in. The two limits are read from configuration with `parseInt`,
 * so a configured value that is not a number gives NaN, modelled as `None`.
 */
module UseUsageLimit {
  import opened Wrappers
  import opened Text
  import opened Calendar
  import UsageRoute

  /** The stored `{count, date}` pair: absent, unparseable, or a count stamped with its day. */
  datatype StoredCount = NoCount | BadCount | Count(count: int, date: Date)

  /** `UsageData` as `getUsageData` returns it. */
  datatype DayCount = DayCount(count: int, date: Date)

  /** `parseInt(setting || fallback, 10)`: an unset or empty setting reads as the fallback. */
  function LimitSetting(setting: Option<string>, fallback: string): (r: Option<int>)
    ensures setting.None? || setting.value == [] ==> r == ParseInt(fallback)
    ensures setting.Some? && setting.value != [] ==> r == ParseInt(setting.value)
  {
    ParseInt(OrElse(setting, Some(fallback)).GetOr(fallback))
  }

  /** The signed-out limit, `NEXT_PUBLIC_ANONYMOUS_USAGE_LIMIT` or 5. */
  function AnonymousLimitOf(setting: Option<string>): Option<int> {
    LimitSetting(setting, "5")
  }

  /** The signed-in limit, `NEXT_PUBLIC_AUTHENTICATED_USAGE_LIMIT` or 10. */
  function AuthenticatedLimitOf(setting: Option<string>): Option<int> {
    LimitSetting(setting, "10")
  }

  /** Without configuration the limits are 5 signed out and 10 signed in. */
  lemma DefaultLimits()
    ensures AnonymousLimitOf(None) == AnonymousLimitOf(Some("")) == Some(5)
    ensures AuthenticatedLimitOf(None) == AuthenticatedLimitOf(Some("")) == Some(10)
  {
    ParseIntOfDecimal(5);
    ParseIntOfDecimal(10);
    assert NatToDecimal(5) == "5";
    assert NatToDecimal(10) == "10";
  }

  /** A configured decimal number is the limit it names. */
  lemma ConfiguredLimit(n: nat, fallback: string)
    ensures LimitSetting(Some(NatToDecimal(n)), fallback) == Some(n)
  {
    ParseIntOfDecimal(n);
  }

  /** `getUsageData`: the stored count while its day is today, otherwise zero for today. */
  function RolledCount(stored: StoredCount, today: Date): (d: DayCount)
    ensures d.date == today
    ensures d.count == 0 || (stored.Count? && stored.date == today && d.count == stored.count)
  {
    match stored
    case Count(c, date) => if date != today then DayCount(0, today) else DayCount(c, date)
    case _ => DayCount(0, today)
  }

  /** `count < limit`, false against NaN. */
  predicate Below(limit: Option<int>, count: int) {
    limit.Some? && count < limit.value
  }

  /** `count >= limit`, also false against NaN. */
  predicate AtOrAbove(limit: Option<int>, count: int) {
    limit.Some? && count >= limit.value
  }

  /** `Math.max(0, limit - count)`, NaN against NaN. */
  function RemainingOf(limit: Option<int>, count: int): (r: Option<int>)
    ensures r.None? <==> limit.None?
    ensures r.Some? ==> r.value == UsageRoute.Remaining(limit.value, count)
  {
    match limit
    case None => None
    case Some(l) => Some(UsageRoute.Remaining(l, count))
  }

  /**
   * With a numeric limit the flag `updateLimitStatus` sets is exactly `!canUse` for the
   * same count, and something remains exactly when the count may go on.
   */
  lemma StatusMatchesCanUse(limit: Option<int>, count: int)
    requires limit.Some?
    ensures AtOrAbove(limit, count) == !Below(limit, count)
    ensures RemainingOf(limit, count).value > 0 <==> Below(limit, count)
  {
  }

  /** Against a NaN limit nobody can go on, yet the limit is never reported as reached. */
  lemma NaNLimit(count: int)
    ensures !Below(None, count) && !AtOrAbove(None, count) && RemainingOf(None, count).None?
  {
  }

  class UsageLimitHook {
    const anonymousLimit: Option<int>
    const authenticatedLimit: Option<int>
    var isAuthenticated: bool
    var usageCount: int
    var isLimitReached: bool
    var remainingCount: Option<int>
    /** Device storage under the key "lumi_usage_data". */
    var stored: StoredCount

    /**
     * The hook on first render. The two limits are the module constants, which the
     * source computes once from configuration as `AnonymousLimitOf` and
     * `AuthenticatedLimitOf` state.
     */
    constructor(anonymousLimit: Option<int>, authenticatedLimit: Option<int>, isAuthenticated: bool, stored: StoredCount)
      ensures this.anonymousLimit == anonymousLimit && this.authenticatedLimit == authenticatedLimit
      ensures this.isAuthenticated == isAuthenticated && this.stored == stored
      ensures usageCount == 0 && !isLimitReached && remainingCount == Some(0)
    {
      this.anonymousLimit := anonymousLimit;
      this.authenticatedLimit := authenticatedLimit;
      this.isAuthenticated := isAuthenticated;
      this.stored := stored;
      usageCount := 0;
      isLimitReached := false;
      remainingCount := Some(0);
    }

    /** `getLimit`. */
    function Limit(): Option<int>
      reads this
    {
      if isAuthenticated then authenticatedLimit else anonymousLimit
    }

    function GetUsageData(today: Date): DayCount
      reads this
    {
      RolledCount(stored, today)
    }

    /** `canUse`: today's count is under the current limit. */
    predicate CanUse(today: Date)
      reads this
    {
      Below(Limit(), GetUsageData(today).count)
    }

    /** `updateLimitStatus(count)`. */
    method UpdateLimitStatus(count: int)
      modifies this`remainingCount, this`isLimitReached
      ensures remainingCount == RemainingOf(Limit(), count)
      ensures isLimitReached == AtOrAbove(Limit(), count)
    {
      var limit := if isAuthenticated then authenticatedLimit else anonymousLimit;
      match limit {
        case None =>
          remainingCount := None;
          isLimitReached := false;
        case Some(l) =>
          remainingCount := Some(if l - count > 0 then l - count else 0);
          isLimitReached := count >= l;
      }
    }

    /** The initialisation effect, run on mount and whenever the sign-in state changes. */
    method InitEffect(today: Date)
      modifies this`usageCount, this`remainingCount, this`isLimitReached
      ensures usageCount == RolledCount(stored, today).count
      ensures remainingCount == RemainingOf(Limit(), usageCount)
      ensures Limit().Some? ==> isLimitReached == !CanUse(today)
    {
      var data := GetUsageData(today);
      usageCount := data.count;
      UpdateLimitStatus(data.count);
    }

    /** `incrementUsage`: today's count plus one is stored, stamped today. */
    method IncrementUsage(today: Date)
      modifies this`stored, this`usageCount, this`remainingCount, this`isLimitReached
      ensures stored == Count(RolledCount(old(stored), today).count + 1, today)
      ensures usageCount == stored.count
      ensures remainingCount == RemainingOf(Limit(), usageCount)
      ensures Limit().Some? ==> isLimitReached == !CanUse(today)
    {
      var data := GetUsageData(today);
      var newCount := data.count + 1;
      stored := Count(newCount, today);
      usageCount := newCount;
      UpdateLimitStatus(newCount);
    }

    /** A sign-in change as the hook sees it: the new state, then the initialisation effect. */
    method AuthChanged(auth: bool, today: Date)
      modifies this`isAuthenticated, this`usageCount, this`remainingCount, this`isLimitReached
      ensures isAuthenticated == auth
      ensures usageCount == RolledCount(stored, today).count
      ensures Limit().Some? ==> isLimitReached == !CanUse(today)
    {
      isAuthenticated := auth;
      InitEffect(today);
    }

    /** `getLimitMessage`. */
    function GetLimitMessage(): string
      reads this
    {
      var remaining := if remainingCount.Some? && remainingCount.value >= 0 then NatToDecimal(remainingCount.value) else "NaN";
      if isAuthenticated then
        if isLimitReached then "You've reached your daily limit of 10 interpretations. Please try again tomorrow."
        else "You have " + remaining + " of " + LimitText(authenticatedLimit) + " interpretations left today."
      else
        if isLimitReached then "You've used all 5 free interpretations. Please sign in to get 5 more interpretations today!"
        else "You have " + remaining + " of " + LimitText(anonymousLimit) + " free interpretations left today."
    }
  }

  /** A limit as a template literal prints it. */
  function LimitText(limit: Option<int>): string {
    match limit
    case None => "NaN"
    case Some(l) => if l >= 0 then NatToDecimal(l) else "-" + NatToDecimal(-l)
  }
}
