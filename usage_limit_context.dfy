/**
 * The client-side usage cache of contexts/usage-limit-context.tsx: a snapshot of the day's
 * and the month's counts kept in React state and mirrored to device storage under the key
 * "lumi_usage_data_v2", the last known tier cached under "lumi_user_tier", and the
 * module-level `globalPrevAuth` used to notice a sign-out.
 *
 * The provider's state is a class whose methods are the callbacks and effects; each
 * method's new state is stated through a pure transition on `ProviderState`, and the
 * properties of the cache are lemmas about those transitions.
 */
module UsageLimitContext {
  import opened Wrappers
  import opened Text
  import opened Calendar
  import opened UsageLimits
  import opened UsageService
  import UsageRoute

  /** `UsageData`: the counts of one day and one month, stamped with that day and month. */
  datatype Snapshot = Snapshot(dailyCount: int, date: Date, monthlyCount: int, month: YearMonth)

  /** What device storage holds under the usage key: nothing, something that does not parse, or a snapshot. */
  datatype Stored = Absent | Corrupt | Present(data: Snapshot)

  /** The `{tier, status}` part of a subscription object the client keeps (an empty tier is falsy). */
  datatype ClientSubscription = ClientSubscription(tier: string, status: string)

  /** The subscription the client assumes when the user-info request fails. */
  const FALLBACK_SUBSCRIPTION: ClientSubscription := ClientSubscription("free", "active")

  /** A snapshot with both counts at zero. */
  function Fresh(today: Date, thisMonth: YearMonth): Snapshot {
    Snapshot(0, today, 0, thisMonth)
  }

  /**
   * `getUsageData`: the stored counts read on `today` (a UTC date) in `thisMonth` (a
   * local-time month). A count survives only while its day or month is still current;
   * the result is always stamped with the current day and month.
   */
  function Rolled(stored: Stored, today: Date, thisMonth: YearMonth): (d: Snapshot)
    ensures d.date == today && d.month == thisMonth
    ensures d.dailyCount == 0 || (stored.Present? && stored.data.date == today && d.dailyCount == stored.data.dailyCount)
    ensures d.monthlyCount == 0 || (stored.Present? && stored.data.month == thisMonth && d.monthlyCount == stored.data.monthlyCount)
  {
    match stored
    case Present(data) =>
      Snapshot(if data.date != today then 0 else data.dailyCount, today,
               if data.month != thisMonth then 0 else data.monthlyCount, thisMonth)
    case _ => Fresh(today, thisMonth)
  }

  /** Reading the cache twice in the same day and month gives what the first read gave. */
  lemma RolledIdempotent(stored: Stored, today: Date, thisMonth: YearMonth)
    ensures Rolled(Present(Rolled(stored, today, thisMonth)), today, thisMonth) == Rolled(stored, today, thisMonth)
  {
  }

  /** A snapshot of the current day and month reads back unchanged; one of an earlier day keeps only its monthly count. */
  lemma RolledKeepsCurrent(d: Snapshot, today: Date, thisMonth: YearMonth)
    ensures d.date == today && d.month == thisMonth ==> Rolled(Present(d), today, thisMonth) == d
    ensures d.date != today && d.month == thisMonth ==> Rolled(Present(d), today, thisMonth) == Snapshot(0, today, d.monthlyCount, thisMonth)
    ensures Rolled(Absent, today, thisMonth) == Rolled(Corrupt, today, thisMonth) == Fresh(today, thisMonth)
  {
  }

  /**
   * The tier `updateLimitStatus` holds the counts to: an explicit non-empty tier, else
   * anonymous when signed out, else the subscription's non-empty tier; `None` when the
   * caller is signed in and no subscription tier is known yet.
   */
  function LimitTierFor(tier: Option<string>, isAuthenticated: bool, subscription: Option<ClientSubscription>): (r: Option<Tier>)
    ensures tier.Some? && tier.value != [] ==> r == Some(ParseTier(tier.value))
    ensures (tier.None? || tier.value == []) && !isAuthenticated ==> r == Some(Anonymous)
    ensures r.None? <==> (tier.None? || tier.value == []) && isAuthenticated && (subscription.None? || subscription.value.tier == [])
  {
    if tier.Some? && tier.value != "" then Some(ParseTier(tier.value))
    else if !isAuthenticated then Some(Anonymous)
    else if subscription.Some? && subscription.value.tier != "" then Some(ParseTier(subscription.value.tier))
    else None
  }

  /** A snapshot has reached tier `t`'s limit when either count is at or over its cap. */
  predicate Reached(d: Snapshot, t: Tier) {
    d.dailyCount >= CapsOf(t).daily || d.monthlyCount >= CapsOf(t).monthly
  }

  /** Which limit a snapshot has hit, as `getLimitType` reports it. */
  datatype LimitType = DailyLimit | MonthlyLimit | NoLimit

  /** All of the provider's state: React state, the two storage entries, and `globalPrevAuth`. */
  datatype ProviderState = ProviderState(
    isAuthenticated: bool,
    usageData: Option<Snapshot>,
    isLimitReached: bool,
    subscription: Option<ClientSubscription>,
    subscriptionLoading: bool,
    initialized: bool,
    storedUsage: Stored,
    storedTier: Option<string>,
    prevAuth: Option<bool>)

  /** The limit flag after `updateLimitStatus(d, tier)`: recomputed for the chosen tier, or kept when none can be chosen. */
  function LimitStatus(s: ProviderState, d: Snapshot, tier: Option<string>): bool {
    match LimitTierFor(tier, s.isAuthenticated, s.subscription)
    case Some(t) => Reached(d, t)
    case None => s.isLimitReached
  }

  /**
   * The `userTier` memo: anonymous when signed out; the subscription's tier when it is
   * known; while the subscription is loading, a cached tier that is free, basic or pro;
   * otherwise free.
   */
  function UserTierOf(s: ProviderState): (t: Tier)
    ensures !s.isAuthenticated ==> t == Anonymous
    ensures s.isAuthenticated && s.subscription.Some? && s.subscription.value.tier != [] ==> t == ParseTier(s.subscription.value.tier)
    ensures s.isAuthenticated && (s.subscription.None? || s.subscription.value.tier == []) ==> t == Free || t == Basic || t == Pro
  {
    if !s.isAuthenticated then Anonymous
    else if s.subscription.Some? && s.subscription.value.tier != "" then ParseTier(s.subscription.value.tier)
    else if s.subscriptionLoading && s.storedTier.Some? && s.storedTier.value in ["free", "basic", "pro"] then ParseTier(s.storedTier.value)
    else Free
  }

  /** `limits`: the caps of the current user tier. */
  function LimitsOf(s: ProviderState): Caps {
    CapsOf(UserTierOf(s))
  }

  /** `canUse`: true without a snapshot, otherwise exactly when both counts are under their caps. */
  predicate CanUseIn(s: ProviderState) {
    s.usageData.None? ||
    (s.usageData.value.dailyCount < LimitsOf(s).daily && s.usageData.value.monthlyCount < LimitsOf(s).monthly)
  }

  /** `getRemainingCount`: what is left of each cap, or zeros without a snapshot. */
  function RemainingIn(s: ProviderState): (r: Caps)
    ensures r.daily >= 0 && r.monthly >= 0
    ensures s.usageData.None? ==> r == Caps(0, 0)
    ensures s.usageData.Some? ==> r.daily == UsageRoute.Remaining(LimitsOf(s).daily, s.usageData.value.dailyCount)
    ensures s.usageData.Some? ==> r.monthly == UsageRoute.Remaining(LimitsOf(s).monthly, s.usageData.value.monthlyCount)
  {
    match s.usageData
    case None => Caps(0, 0)
    case Some(d) => Caps(UsageRoute.Remaining(LimitsOf(s).daily, d.dailyCount), UsageRoute.Remaining(LimitsOf(s).monthly, d.monthlyCount))
  }

  /** `remainingCount`: the smaller of the two remaining counts. */
  function RemainingCount(s: ProviderState): (n: nat)
    ensures n <= RemainingIn(s).daily && n <= RemainingIn(s).monthly
    ensures n == RemainingIn(s).daily || n == RemainingIn(s).monthly
  {
    var r := RemainingIn(s);
    if r.daily <= r.monthly then r.daily else r.monthly
  }

  /** `getLimitType`: the daily cap is reported first, then the monthly cap. */
  function LimitTypeIn(s: ProviderState): LimitType {
    match s.usageData
    case None => NoLimit
    case Some(d) =>
      if d.dailyCount >= LimitsOf(s).daily then DailyLimit
      else if d.monthlyCount >= LimitsOf(s).monthly then MonthlyLimit
      else NoLimit
  }

  /** `usageCount`: the monthly count, or 0 without a snapshot. */
  function UsageCountOf(s: ProviderState): int {
    match s.usageData
    case None => 0
    case Some(d) => d.monthlyCount
  }

  /** `getLimitMessage`: the sentence shown for the current limit state. */
  function LimitMessageIn(s: ProviderState): string {
    var remaining := RemainingIn(s);
    var limits := LimitsOf(s);
    var limitType := LimitTypeIn(s);
    if s.isLimitReached && limitType == DailyLimit then
      "You've reached your daily limit of " + NatToDecimal(limits.daily) + " interpretations. Please try again tomorrow."
    else if s.isLimitReached && limitType == MonthlyLimit then
      "You've reached your monthly limit of " + NatToDecimal(limits.monthly) + " interpretations. Upgrade for more!"
    else if UserTierOf(s) == Anonymous then
      "You have " + NatToDecimal(RemainingCount(s)) + " of " + NatToDecimal(limits.monthly) + " free interpretations left this month."
    else
      "You have " + NatToDecimal(RemainingCount(s)) + " interpretations left (" + NatToDecimal(remaining.daily)
      + " today, " + NatToDecimal(remaining.monthly) + " this month)."
  }

  // Transitions: the new state after each callback and effect.

  /** `syncFromResponse`: the server's counts replace the cached ones for the current day and month. */
  function Synced(s: ProviderState, daily: int, monthly: int, today: Date, thisMonth: YearMonth): ProviderState {
    var d := Snapshot(daily, today, monthly, thisMonth);
    s.(usageData := Some(d), storedUsage := Present(d), isLimitReached := LimitStatus(s, d, None))
  }

  /** `incrementUsage`: both counts of the current snapshot go up by one, keeping its day and month. */
  function Incremented(s: ProviderState): ProviderState {
    match s.usageData
    case None => s
    case Some(u) =>
      var d := Snapshot(u.dailyCount + 1, u.date, u.monthlyCount + 1, u.month);
      s.(usageData := Some(d), storedUsage := Present(d), isLimitReached := LimitStatus(s, d, None))
  }

  /** The payload of a successful GET /api/user-info that the client reads. */
  datatype UserInfoPayload = UserInfoPayload(subscription: ClientSubscription, daily: int, monthly: int)

  /**
   * The end of `fetchUserInfo`, once the request has answered. A successful answer sets
   * the subscription, caches its tier (free when empty) and replaces the counts; any
   * failure falls back to a free, active subscription with zero counts. Loading ends
   * either way.
   */
  function UserInfoLoaded(s: ProviderState, reply: Result<UserInfoPayload, string>, today: Date, thisMonth: YearMonth): ProviderState {
    match reply
    case Success(p) =>
      var tier := if p.subscription.tier != "" then p.subscription.tier else "free";
      var d := Snapshot(p.daily, today, p.monthly, thisMonth);
      s.(subscription := Some(p.subscription), storedTier := Some(tier), storedUsage := Present(d),
         usageData := Some(d), isLimitReached := LimitStatus(s, d, Some(tier)), subscriptionLoading := false)
    case Failure(_) =>
      var d := Fresh(today, thisMonth);
      s.(subscription := Some(FALLBACK_SUBSCRIPTION), storedUsage := Present(d),
         usageData := Some(d), isLimitReached := LimitStatus(s, d, Some("free")), subscriptionLoading := false)
  }

  /** The global initialisation effect: a signed-in user not yet initialised starts a user-info request. */
  function InitStarted(s: ProviderState, hasUser: bool): ProviderState {
    if s.isAuthenticated && hasUser && !s.initialized then s.(subscriptionLoading := true, initialized := true) else s
  }

  /** The logout-detection effect: a change from signed in to signed out wipes the cache; otherwise the state is remembered. */
  function LogoutChecked(s: ProviderState): ProviderState {
    if s.prevAuth == Some(true) && !s.isAuthenticated then
      s.(storedTier := None, storedUsage := Absent, subscription := None, usageData := None,
         isLimitReached := false, subscriptionLoading := false, initialized := false, prevAuth := None)
    else s.(prevAuth := Some(s.isAuthenticated))
  }

  /** The data-initialisation effect: the snapshot is read from storage; a signed-out visitor's flag is set against the anonymous caps. */
  function DataInitialized(s: ProviderState, today: Date, thisMonth: YearMonth): ProviderState {
    var d := Rolled(s.storedUsage, today, thisMonth);
    if !s.isAuthenticated then s.(usageData := Some(d), isLimitReached := LimitStatus(s, d, Some("anonymous")))
    else s.(usageData := Some(d))
  }

  /** A render with a new sign-in state runs the three effects in declaration order. */
  function AuthApplied(s: ProviderState, isAuthenticated: bool, hasUser: bool, today: Date, thisMonth: YearMonth): ProviderState {
    DataInitialized(LogoutChecked(InitStarted(s.(isAuthenticated := isAuthenticated), hasUser)), today, thisMonth)
  }

  class UsageLimitProvider {
    var isAuthenticated: bool
    var usageData: Option<Snapshot>
    var isLimitReached: bool
    var subscription: Option<ClientSubscription>
    var subscriptionLoading: bool
    var initialized: bool
    /** Device storage under the usage key. */
    var storedUsage: Stored
    /** Device storage under the tier key. */
    var storedTier: Option<string>
    /** `globalPrevAuth`, which outlives the component. */
    var prevAuth: Option<bool>

    function State(): ProviderState
      reads this
    {
      ProviderState(isAuthenticated, usageData, isLimitReached, subscription, subscriptionLoading,
                    initialized, storedUsage, storedTier, prevAuth)
    }

    /** A freshly mounted provider over what storage and `globalPrevAuth` already hold. */
    constructor(isAuthenticated: bool, storedUsage: Stored, storedTier: Option<string>, prevAuth: Option<bool>)
      ensures State() == ProviderState(isAuthenticated, None, false, None, false, false, storedUsage, storedTier, prevAuth)
    {
      this.isAuthenticated := isAuthenticated;
      this.usageData := None;
      this.isLimitReached := false;
      this.subscription := None;
      this.subscriptionLoading := false;
      this.initialized := false;
      this.storedUsage := storedUsage;
      this.storedTier := storedTier;
      this.prevAuth := prevAuth;
    }

    function GetUsageData(today: Date, thisMonth: YearMonth): Snapshot
      reads this
    {
      Rolled(storedUsage, today, thisMonth)
    }

    function UserTier(): Tier
      reads this
    {
      UserTierOf(State())
    }

    predicate CanUse()
      reads this
    {
      CanUseIn(State())
    }

    function GetRemainingCount(): Caps
      reads this
    {
      RemainingIn(State())
    }

    function GetLimitType(): LimitType
      reads this
    {
      LimitTypeIn(State())
    }

    function GetLimitMessage(): string
      reads this
    {
      LimitMessageIn(State())
    }

    /** `updateLimitStatus(data, tier)`. */
    method UpdateLimitStatus(data: Snapshot, tier: Option<string>)
      modifies this`isLimitReached
      ensures State() == old(State()).(isLimitReached := LimitStatus(old(State()), data, tier))
    {
      var currentTier: Tier;
      if tier.Some? && tier.value != "" {
        currentTier := ParseTier(tier.value);
      } else if !isAuthenticated {
        currentTier := Anonymous;
      } else if subscription.Some? && subscription.value.tier != "" {
        currentTier := ParseTier(subscription.value.tier);
      } else {
        return;
      }
      var limits := GetLimits(currentTier);
      var dailyReached := data.dailyCount >= limits.daily;
      var monthlyReached := data.monthlyCount >= limits.monthly;
      isLimitReached := dailyReached || monthlyReached;
    }

    method SyncFromResponse(daily: int, monthly: int, today: Date, thisMonth: YearMonth)
      modifies this`usageData, this`storedUsage, this`isLimitReached
      ensures State() == Synced(old(State()), daily, monthly, today, thisMonth)
    {
      var synced := Snapshot(daily, today, monthly, thisMonth);
      storedUsage := Present(synced);
      usageData := Some(synced);
      UpdateLimitStatus(synced, None);
    }

    method IncrementUsage()
      modifies this`usageData, this`storedUsage, this`isLimitReached
      ensures State() == Incremented(old(State()))
    {
      if usageData.None? {
        return;
      }
      var u := usageData.value;
      var newData := Snapshot(u.dailyCount + 1, u.date, u.monthlyCount + 1, u.month);
      storedUsage := Present(newData);
      usageData := Some(newData);
      UpdateLimitStatus(newData, None);
    }

    /** What `fetchUserInfo` does once GET /api/user-info has answered with `reply`. */
    method CompleteUserInfo(reply: Result<UserInfoPayload, string>, today: Date, thisMonth: YearMonth)
      modifies this`subscription, this`storedTier, this`storedUsage, this`usageData, this`isLimitReached, this`subscriptionLoading
      ensures State() == UserInfoLoaded(old(State()), reply, today, thisMonth)
    {
      match reply {
        case Success(p) =>
          subscription := Some(p.subscription);
          var tier := if p.subscription.tier != "" then p.subscription.tier else "free";
          storedTier := Some(tier);
          var synced := Snapshot(p.daily, today, p.monthly, thisMonth);
          storedUsage := Present(synced);
          usageData := Some(synced);
          UpdateLimitStatus(synced, Some(tier));
        case Failure(_) =>
          subscription := Some(FALLBACK_SUBSCRIPTION);
          var defaultData := Fresh(today, thisMonth);
          storedUsage := Present(defaultData);
          usageData := Some(defaultData);
          UpdateLimitStatus(defaultData, Some("free"));
      }
      subscriptionLoading := false;
    }

    /**
     * `fetchUserInfo(skipLoadingCheck)`, with the request's answer as an input. Unless the
     * check is skipped, a request already in flight makes the call do nothing.
     */
    method FetchUserInfo(skipLoadingCheck: bool, reply: Result<UserInfoPayload, string>, today: Date, thisMonth: YearMonth)
      returns (fetched: bool)
      modifies this`subscription, this`storedTier, this`storedUsage, this`usageData, this`isLimitReached, this`subscriptionLoading
      ensures fetched == (skipLoadingCheck || !old(subscriptionLoading))
      ensures fetched ==> State() == UserInfoLoaded(old(State()), reply, today, thisMonth)
      ensures !fetched ==> State() == old(State())
    {
      if !skipLoadingCheck && subscriptionLoading {
        return false;
      }
      if !skipLoadingCheck {
        subscriptionLoading := true;
      }
      CompleteUserInfo(reply, today, thisMonth);
      return true;
    }

    /**
     * The global initialisation effect. When it starts a user-info request the caller
     * completes it later with `CompleteUserInfo`.
     */
    method InitEffect(hasUser: bool) returns (fetchStarted: bool)
      modifies this`subscriptionLoading, this`initialized
      ensures fetchStarted == (old(isAuthenticated) && hasUser && !old(initialized))
      ensures State() == InitStarted(old(State()), hasUser)
    {
      fetchStarted := isAuthenticated && hasUser && !initialized;
      if fetchStarted {
        subscriptionLoading := true;
        initialized := true;
      }
    }

    method LogoutEffect()
      modifies this
      ensures State() == LogoutChecked(old(State()))
    {
      var prev := prevAuth;
      if prev == Some(true) && !isAuthenticated {
        storedTier := None;
        storedUsage := Absent;
        subscription := None;
        usageData := None;
        isLimitReached := false;
        subscriptionLoading := false;
        initialized := false;
        prevAuth := None;
      } else {
        prevAuth := Some(isAuthenticated);
      }
    }

    method DataInitEffect(today: Date, thisMonth: YearMonth)
      modifies this`usageData, this`isLimitReached
      ensures State() == DataInitialized(old(State()), today, thisMonth)
    {
      var data := GetUsageData(today, thisMonth);
      usageData := Some(data);
      if !isAuthenticated {
        UpdateLimitStatus(data, Some("anonymous"));
      }
    }

    /** A render after the sign-in state became `auth`: the three effects run in order. */
    method AuthChanged(auth: bool, hasUser: bool, today: Date, thisMonth: YearMonth) returns (fetchStarted: bool)
      modifies this
      ensures State() == AuthApplied(old(State()), auth, hasUser, today, thisMonth)
    {
      isAuthenticated := auth;
      fetchStarted := InitEffect(hasUser);
      LogoutEffect();
      DataInitEffect(today, thisMonth);
    }
  }

  // Properties of the cache.

  /** With a snapshot, `canUse` holds exactly when something is left of both caps; without one it holds although nothing is shown as left. */
  lemma CanUseIffRemaining(s: ProviderState)
    ensures s.usageData.Some? ==> (CanUseIn(s) <==> RemainingCount(s) > 0)
    ensures s.usageData.None? ==> CanUseIn(s) && RemainingCount(s) == 0
  {
  }

  /** `getLimitType` names a limit exactly when `canUse` fails, and names the daily limit whenever the daily cap is hit. */
  lemma LimitTypeOrder(s: ProviderState)
    ensures LimitTypeIn(s) == NoLimit <==> CanUseIn(s)
    ensures s.usageData.Some? && s.usageData.value.dailyCount >= LimitsOf(s).daily ==> LimitTypeIn(s) == DailyLimit
    ensures LimitTypeIn(s) == MonthlyLimit ==> s.usageData.value.dailyCount < LimitsOf(s).daily && s.usageData.value.monthlyCount >= LimitsOf(s).monthly
  {
  }

  /**
   * Whenever `updateLimitStatus` picks a tier from the provider state itself (no explicit
   * tier), it picks the tier of the `userTier` memo, so the flag it sets is `!canUse` of
   * the new snapshot.
   */
  lemma StatusAgreesWithUserTier(s: ProviderState, d: Snapshot)
    requires LimitTierFor(None, s.isAuthenticated, s.subscription).Some?
    ensures LimitTierFor(None, s.isAuthenticated, s.subscription) == Some(UserTierOf(s))
    ensures LimitStatus(s, d, None) == !CanUseIn(s.(usageData := Some(d)))
  {
  }

  /** After a server sync the flag agrees with `canUse` whenever a tier is known; signed in without a subscription tier the flag is left as it was. */
  lemma SyncFlag(s: ProviderState, daily: int, monthly: int, today: Date, thisMonth: YearMonth)
    ensures var s' := Synced(s, daily, monthly, today, thisMonth);
      s'.usageData == Some(Snapshot(daily, today, monthly, thisMonth)) && s'.storedUsage == Present(s'.usageData.value)
    ensures var s' := Synced(s, daily, monthly, today, thisMonth);
      LimitTierFor(None, s.isAuthenticated, s.subscription).Some? ==> s'.isLimitReached == !CanUseIn(s')
    ensures var s' := Synced(s, daily, monthly, today, thisMonth);
      LimitTierFor(None, s.isAuthenticated, s.subscription).None? ==> s'.isLimitReached == s.isLimitReached
  {
    if LimitTierFor(None, s.isAuthenticated, s.subscription).Some? {
      StatusAgreesWithUserTier(s, Snapshot(daily, today, monthly, thisMonth));
    }
  }

  /**
   * Once the user-info request has answered for a signed-in user, the flag agrees with
   * `canUse`: the tier passed explicitly is the one the `userTier` memo then derives.
   * A failed request leaves a free user with zero counts who may go on.
   */
  lemma UserInfoFlag(s: ProviderState, reply: Result<UserInfoPayload, string>, today: Date, thisMonth: YearMonth)
    requires s.isAuthenticated
    ensures var s' := UserInfoLoaded(s, reply, today, thisMonth);
      s'.isLimitReached == !CanUseIn(s') && !s'.subscriptionLoading
    ensures reply.Failure? ==> var s' := UserInfoLoaded(s, reply, today, thisMonth);
      UserTierOf(s') == Free && s'.usageData == Some(Fresh(today, thisMonth)) && CanUseIn(s') && !s'.isLimitReached
    ensures reply.Success? ==> var s' := UserInfoLoaded(s, reply, today, thisMonth);
      s'.storedTier.Some? && ParseTier(s'.storedTier.value) == UserTierOf(s')
  {
    var s' := UserInfoLoaded(s, reply, today, thisMonth);
    if reply.Success? {
      var tier := if reply.value.subscription.tier != "" then reply.value.subscription.tier else "free";
      assert UserTierOf(s') == ParseTier(tier);
    }
  }

  /** `incrementUsage` adds one to both counts and nothing else; without a snapshot nothing happens. */
  lemma IncrementAddsOne(s: ProviderState)
    ensures s.usageData.None? ==> Incremented(s) == s
    ensures s.usageData.Some? ==> var u := s.usageData.value; var s' := Incremented(s);
      s'.usageData == Some(u.(dailyCount := u.dailyCount + 1, monthlyCount := u.monthlyCount + 1))
      && s'.storedUsage == Present(s'.usageData.value)
      && UsageCountOf(s') == UsageCountOf(s) + 1
      && s'.subscription == s.subscription && s'.isAuthenticated == s.isAuthenticated
  {
  }

  /**
   * Signing out after being signed in clears both storage entries and the subscription;
   * the visitor then starts from a zero snapshot of the current day and month, under the
   * anonymous caps and allowed to go on.
   */
  lemma LogoutResets(s: ProviderState, hasUser: bool, today: Date, thisMonth: YearMonth)
    requires s.prevAuth == Some(true)
    ensures AuthApplied(s, false, hasUser, today, thisMonth)
      == ProviderState(false, Some(Fresh(today, thisMonth)), false, None, false, false, Absent, None, None)
    ensures var s' := AuthApplied(s, false, hasUser, today, thisMonth);
      UserTierOf(s') == Anonymous && CanUseIn(s') && RemainingIn(s') == CapsOf(Anonymous)
  {
  }

  /** Any other render remembers the sign-in state and leaves the storage entries alone. */
  lemma NoLogoutKeepsStorage(s: ProviderState, auth: bool, hasUser: bool, today: Date, thisMonth: YearMonth)
    requires !(s.prevAuth == Some(true) && !auth)
    ensures var s' := AuthApplied(s, auth, hasUser, today, thisMonth);
      s'.prevAuth == Some(auth) && s'.storedUsage == s.storedUsage && s'.storedTier == s.storedTier
      && s'.usageData == Some(Rolled(s.storedUsage, today, thisMonth))
  {
  }

  /** Signing in with a user not yet initialised marks the provider loading and initialised, which is when the cached tier is used. */
  lemma LoginStartsLoading(s: ProviderState, today: Date, thisMonth: YearMonth)
    requires !s.initialized
    ensures var s' := AuthApplied(s, true, true, today, thisMonth);
      s'.subscriptionLoading && s'.initialized && s'.prevAuth == Some(true)
    ensures var s' := AuthApplied(s, true, true, today, thisMonth);
      s'.subscription == s.subscription && s'.isLimitReached == s.isLimitReached
  {
  }
}
