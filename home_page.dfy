/**
 * The decision logic of the home page, app/page.tsx: which tier's limits the page applies,
 * the three checks before a dream is sent, how the answer is folded back into the usage
 * cache, which single toast a successful interpretation earns, the login and upgrade
 * prompts, and the pro user's premium-uses badge.
 *
 * The request to POST /api/interpret is an input (`InterpretReply`); the clock is the
 * UTC date and the local-time month the usage cache is stamped with.
 */
module HomePage {
  import opened Wrappers
  import opened Text
  import opened Calendar
  import opened UsageLimits
  import PricingConfig
  import opened UsageService
  import ValidationService
  import AiService
  import UsageRoute
  import opened UsageLimitContext

  /** The page's `userTier` memo: anonymous when signed out, else the subscription's non-empty tier, else free. */
  function PageTier(isAuthenticated: bool, subscription: Option<ClientSubscription>): (t: Tier)
    ensures !isAuthenticated ==> t == Anonymous
    ensures isAuthenticated && (subscription.None? || subscription.value.tier == []) ==> t == Free
    ensures isAuthenticated && subscription.Some? && subscription.value.tier != [] ==> TierName(t) == subscription.value.tier
  {
    if !isAuthenticated then Anonymous
    else if subscription.Some? && subscription.value.tier != "" then ParseTier(subscription.value.tier)
    else Free
  }

  /**
   * The page and the usage cache agree on the tier except while the subscription is
   * loading, when the cache may already use the cached tier and the page still says free.
   */
  lemma PageTierAgreesWithCache(s: ProviderState)
    ensures !s.subscriptionLoading ==> PageTier(s.isAuthenticated, s.subscription) == UserTierOf(s)
    ensures s.subscription.Some? && s.subscription.value.tier != [] ==> PageTier(s.isAuthenticated, s.subscription) == UserTierOf(s)
    ensures s.isAuthenticated && s.subscription.None? && s.subscriptionLoading && s.storedTier == Some("pro") ==>
              PageTier(s.isAuthenticated, s.subscription) == Free && UserTierOf(s) == Pro
  {
  }

  /** The `maxDreamLength` memo: an anonymous visitor gets the free plan's length, everyone else their own plan's. */
  function MaxDreamLength(t: Tier): (n: nat)
    ensures n >= 500
  {
    var tierForConfig := if t == Anonymous then Free else t;
    PricingConfig.GetPricingConfig(tierForConfig).limits.maxDreamLength
  }

  /** The page's length check is the server's: a dream the page lets through passes the server's length validation for the same tier. */
  lemma MaxDreamLengthMatchesServer(t: Tier, dream: string)
    ensures MaxDreamLength(t) == ValidationService.MaxDreamLengthFor(t)
    ensures |dream| <= MaxDreamLength(t) <==> ValidationService.ValidateDreamLength(dream, t).Valid?
    ensures MaxDreamLength(Anonymous) == MaxDreamLength(Free) == 500
    ensures MaxDreamLength(Basic) == 1000 && MaxDreamLength(Pro) == 2000
  {
  }

  // Toasts after a successful interpretation.

  /** The five toasts, in the order of the checks that pick them. */
  datatype Toast = PremiumComplete | MonthlyUrgent | MonthlyGentle | DailyUrgent | DailyGentle

  /** The number of toasts. */
  const TOAST_COUNT: nat := 5

  /** The toast checked `i`-th. */
  function Ranked(i: nat): Toast
    requires i < TOAST_COUNT
  {
    match i
    case 0 => PremiumComplete
    case 1 => MonthlyUrgent
    case 2 => MonthlyGentle
    case 3 => DailyUrgent
    case _ => DailyGentle
  }

  /** The position of a toast in the priority order. */
  function Rank(k: Toast): (i: nat)
    ensures i < TOAST_COUNT && Ranked(i) == k
  {
    match k
    case PremiumComplete => 0
    case MonthlyUrgent => 1
    case MonthlyGentle => 2
    case DailyUrgent => 3
    case DailyGentle => 4
  }

  /** `'urgent' in w && w.urgent && remaining === w.urgent`: an urgent level that is set and non-zero, met exactly. */
  predicate UrgentMet(w: Warning, remaining: int) {
    w.urgent.Some? && w.urgent.value != 0 && remaining == w.urgent.value
  }

  /** Whether toast `k`'s own condition holds for the new remaining counts. */
  predicate Qualifies(k: Toast, tier: Tier, daily: int, monthly: int) {
    var w := GetWarningThresholds(tier);
    match k
    case PremiumComplete => tier == Pro && monthly == 100
    case MonthlyUrgent => UrgentMet(w.monthly, monthly)
    case MonthlyGentle => monthly == w.monthly.gentle
    case DailyUrgent => UrgentMet(w.daily, daily)
    case DailyGentle => daily == w.daily.gentle
  }

  /** The first position from `from` on whose toast qualifies, or `TOAST_COUNT` when none does. */
  function FirstQualifying(from: nat, tier: Tier, daily: int, monthly: int): (i: nat)
    requires from <= TOAST_COUNT
    ensures from <= i <= TOAST_COUNT
    ensures forall j :: from <= j < i ==> !Qualifies(Ranked(j), tier, daily, monthly)
    ensures i < TOAST_COUNT ==> Qualifies(Ranked(i), tier, daily, monthly)
    decreases TOAST_COUNT - from
  {
    if from == TOAST_COUNT then TOAST_COUNT
    else if Qualifies(Ranked(from), tier, daily, monthly) then from
    else FirstQualifying(from + 1, tier, daily, monthly)
  }

  /** The toast a success earns: none for a signed-out visitor, else the first in priority order that qualifies. */
  function ToastFor(isAuthenticated: bool, tier: Tier, daily: int, monthly: int): Option<Toast> {
    if !isAuthenticated then None
    else
      var i := FirstQualifying(0, tier, daily, monthly);
      if i < TOAST_COUNT then Some(Ranked(i)) else None
  }

  /**
   * The toast priority: a signed-in user gets a toast exactly when some toast qualifies,
   * and then the one of highest priority among those that qualify; a signed-out visitor
   * never gets one.
   */
  lemma ToastPriority(isAuthenticated: bool, tier: Tier, daily: int, monthly: int)
    ensures !isAuthenticated ==> ToastFor(isAuthenticated, tier, daily, monthly).None?
    ensures isAuthenticated ==>
              (ToastFor(isAuthenticated, tier, daily, monthly).None? <==> forall k :: !Qualifies(k, tier, daily, monthly))
    ensures ToastFor(isAuthenticated, tier, daily, monthly).Some? ==>
              var t := ToastFor(isAuthenticated, tier, daily, monthly).value;
              Qualifies(t, tier, daily, monthly) && forall k :: Rank(k) < Rank(t) ==> !Qualifies(k, tier, daily, monthly)
  {
    if isAuthenticated {
      var i := FirstQualifying(0, tier, daily, monthly);
      forall k | Rank(k) < i ensures !Qualifies(k, tier, daily, monthly) {
        assert Ranked(Rank(k)) == k;
      }
      if i < TOAST_COUNT {
        assert Rank(Ranked(i)) == i;
      }
    }
  }

  /** `ToastFor` checks the five conditions one after another, in priority order. */
  lemma ToastForUnrolled(isAuthenticated: bool, tier: Tier, daily: int, monthly: int)
    requires isAuthenticated
    ensures ToastFor(isAuthenticated, tier, daily, monthly) ==
      if Qualifies(PremiumComplete, tier, daily, monthly) then Some(PremiumComplete)
      else if Qualifies(MonthlyUrgent, tier, daily, monthly) then Some(MonthlyUrgent)
      else if Qualifies(MonthlyGentle, tier, daily, monthly) then Some(MonthlyGentle)
      else if Qualifies(DailyUrgent, tier, daily, monthly) then Some(DailyUrgent)
      else if Qualifies(DailyGentle, tier, daily, monthly) then Some(DailyGentle)
      else None
  {
    assert FirstQualifying(4, tier, daily, monthly) == if Qualifies(DailyGentle, tier, daily, monthly) then 4 else 5;
    assert FirstQualifying(3, tier, daily, monthly) == if Qualifies(DailyUrgent, tier, daily, monthly) then 3 else FirstQualifying(4, tier, daily, monthly);
    assert FirstQualifying(2, tier, daily, monthly) == if Qualifies(MonthlyGentle, tier, daily, monthly) then 2 else FirstQualifying(3, tier, daily, monthly);
    assert FirstQualifying(1, tier, daily, monthly) == if Qualifies(MonthlyUrgent, tier, daily, monthly) then 1 else FirstQualifying(2, tier, daily, monthly);
  }

  /**
   * The toast selection as the page runs it: a `toastShown` flag set by the first check
   * that fires and tested by every later one.
   */
  method ChooseToast(isAuthenticated: bool, userTier: Tier, newRemainingDaily: int, newRemainingMonthly: int)
    returns (toast: Option<Toast>)
    ensures toast == ToastFor(isAuthenticated, userTier, newRemainingDaily, newRemainingMonthly)
  {
    toast := None;
    if isAuthenticated {
      var warningThresholds := GetWarningThresholds(userTier);
      var toastShown := false;
      if userTier == Pro && newRemainingMonthly == 100 {
        toast := Some(PremiumComplete);
        toastShown := true;
      }
      if !toastShown {
        toast := LevelToast(warningThresholds.monthly, newRemainingMonthly, MonthlyUrgent, MonthlyGentle);
        toastShown := toast.Some?;
      }
      if !toastShown {
        toast := LevelToast(warningThresholds.daily, newRemainingDaily, DailyUrgent, DailyGentle);
        toastShown := toast.Some?;
      }
      ToastForUnrolled(isAuthenticated, userTier, newRemainingDaily, newRemainingMonthly);
    }
  }

  /** The urgent check, then the gentle one, for one of the two limits. */
  method LevelToast(w: Warning, remaining: int, urgent: Toast, gentle: Toast) returns (toast: Option<Toast>)
    ensures toast == if UrgentMet(w, remaining) then Some(urgent) else if remaining == w.gentle then Some(gentle) else None
  {
    toast := None;
    var toastShown := false;
    if w.urgent.Some? && w.urgent.value != 0 && remaining == w.urgent.value {
      toast := Some(urgent);
      toastShown := true;
    }
    if !toastShown && remaining == w.gentle {
      toast := Some(gentle);
      toastShown := true;
    }
  }

  /**
   * With the remaining count taken from the server's limits, the premium toast comes on
   * the request that brings a pro user's monthly count to 100, the point from which the
   * interpretation service serves the fallback model.
   */
  lemma PremiumToastAtDowngrade(monthlyCount: int, daily: int)
    ensures Qualifies(PremiumComplete, Pro, daily, CapsOf(Pro).monthly - monthlyCount) <==> monthlyCount == AiService.EffectiveThreshold(Pro)
    ensures monthlyCount == 100 ==> AiService.SelectModel(Pro, Some(UsageData(daily, monthlyCount, CapsOf(Pro)))).isDowngraded
    ensures monthlyCount == 99 ==> !AiService.SelectModel(Pro, Some(UsageData(daily, monthlyCount, CapsOf(Pro)))).isDowngraded
  {
    AiService.ProDowngradeCases(Some(UsageData(daily, monthlyCount, CapsOf(Pro))));
  }

  // The pro badge.

  /** The usage line above the input: pro users see their premium uses while more than 100 remain. */
  datatype UsageBadge =
    | PremiumBadge(premium: int, today: int)
    | StandardBadge(left: int, today: int)
    | PlainBadge(today: int, thisMonth: int)

  function Badge(userTier: Tier, remainingDaily: int, remainingMonthly: int): (b: UsageBadge)
    ensures b.PremiumBadge? <==> userTier == Pro && remainingMonthly > 100
    ensures b.PremiumBadge? ==> b.premium == remainingMonthly - 100 && b.premium > 0 && b.today == remainingDaily
    ensures b.StandardBadge? <==> userTier == Pro && remainingMonthly <= 100
    ensures b.PlainBadge? ==> b == PlainBadge(remainingDaily, remainingMonthly)
  {
    if userTier == Pro then
      if remainingMonthly > 100 then PremiumBadge(remainingMonthly - 100, remainingDaily)
      else StandardBadge(remainingMonthly, remainingDaily)
    else PlainBadge(remainingDaily, remainingMonthly)
  }

  /**
   * For a pro user with `monthlyCount` uses this month the badge counts premium uses
   * exactly while the interpretation service still serves the premium model, and the
   * count is the number of premium uses left.
   */
  lemma BadgeMatchesModel(monthlyCount: int, daily: int, remainingDaily: int)
    requires 0 <= monthlyCount
    ensures var b := Badge(Pro, remainingDaily, UsageRoute.Remaining(CapsOf(Pro).monthly, monthlyCount));
      b.PremiumBadge? <==> !AiService.SelectModel(Pro, Some(UsageData(daily, monthlyCount, CapsOf(Pro)))).isDowngraded
    ensures var b := Badge(Pro, remainingDaily, UsageRoute.Remaining(CapsOf(Pro).monthly, monthlyCount));
      b.PremiumBadge? ==> b.premium == AiService.EffectiveThreshold(Pro) - monthlyCount
  {
    AiService.ProDowngradeCases(Some(UsageData(daily, monthlyCount, CapsOf(Pro))));
  }

  // Submitting a dream.

  /** The `currentUsage` object an interpret response may carry. */
  datatype CurrentUsage = CurrentUsage(daily: int, monthly: int, limits: Option<Caps>)

  /** What the interpret request gives back. */
  datatype InterpretReply =
    | NoReply
    | Refused(errorUsage: Option<CurrentUsage>)
    | Answered(text: string, metadataUsage: Option<CurrentUsage>)

  /** What the page's error line holds; `ErrorText` is the text it shows. */
  datatype PageError =
    | NoError
    | EmptyDream
    | TooLong(length: nat, maxLength: nat)
    | LimitReached(message: string)
    | Foggy

  function ErrorText(e: PageError): string
  {
    match e
    case NoError => ""
    case EmptyDream => "What did you dream of, my friend? Please share your dream above."
    case TooLong(length, maxLength) =>
      "Your dream description is too long (" + NatToDecimal(length) + "/" + NatToDecimal(maxLength)
        + " characters). Please upgrade for longer dreams."
    case LimitReached(message) => message
    // The one message every failed request shows, whatever the server said.
    case Foggy => "It seems the connection is a bit foggy right now. Let's try again in a moment."
  }

  /** The page's own state. */
  datatype HomeState = HomeState(
    dream: string,
    interpretation: string,
    isLoading: bool,
    error: PageError,
    showLoginPrompt: bool,
    showUpgradePrompt: bool,
    showLengthUpgradePrompt: bool)

  /** What a submission leaves behind: both states, whether the request went out, and the toast. */
  datatype Submission = Submission(home: HomeState, cache: ProviderState, sent: bool, toast: Option<Toast>)

  /** The remaining counts the toast checks use: from the server's limits when present, else one less than shown before the request. */
  function NewRemaining(before: Caps, usage: Option<CurrentUsage>): Caps {
    if usage.Some? && usage.value.limits.Some? then
      Caps(usage.value.limits.value.daily - usage.value.daily, usage.value.limits.value.monthly - usage.value.monthly)
    else Caps(before.daily - 1, before.monthly - 1)
  }

  /** The three checks before sending: the page state after a refusal, or `None` when the dream goes out. */
  function Refusal(h: HomeState, p: ProviderState): Option<HomeState> {
    var tier := PageTier(p.isAuthenticated, p.subscription);
    if Trim(h.dream) == [] then Some(h.(error := EmptyDream))
    else if |h.dream| > MaxDreamLength(tier) then
      Some(h.(error := TooLong(|h.dream|, MaxDreamLength(tier)), showLengthUpgradePrompt := true))
    else if !CanUseIn(p) then Some(h.(error := LimitReached(LimitMessageIn(p))))
    else None
  }

  /** A reply handled: the cache is synced or counted up, and a success may earn a toast. */
  function Received(h: HomeState, p: ProviderState, reply: InterpretReply, today: Date, thisMonth: YearMonth): Submission {
    match reply
    case NoReply => Failed(h, p, None, today, thisMonth)
    case Refused(usage) => Failed(h, p, usage, today, thisMonth)
    case Answered(text, usage) => Succeeded(h, p, text, usage, today, thisMonth)
  }

  /** A failed request: the server's counts, when the refusal carries them, are synced; the error is always the same. */
  function Failed(h: HomeState, p: ProviderState, usage: Option<CurrentUsage>, today: Date, thisMonth: YearMonth): Submission {
    var p' := if usage.Some? then Synced(p, usage.value.daily, usage.value.monthly, today, thisMonth) else p;
    Submission(h.(interpretation := "", isLoading := false, error := Foggy), p', true, None)
  }

  /** The cache after a success: synced to the server's counts, or counted up by one without them. */
  function Recorded(p: ProviderState, usage: Option<CurrentUsage>, today: Date, thisMonth: YearMonth): ProviderState {
    if usage.Some? then Synced(p, usage.value.daily, usage.value.monthly, today, thisMonth) else Incremented(p)
  }

  /** A successful request: the interpretation is shown, the cache recorded, and a toast chosen. */
  function Succeeded(h: HomeState, p: ProviderState, text: string, usage: Option<CurrentUsage>, today: Date, thisMonth: YearMonth): Submission {
    var remaining := NewRemaining(RemainingIn(p), usage);
    Submission(h.(interpretation := text, isLoading := false, error := NoError), Recorded(p, usage, today, thisMonth), true,
               ToastFor(p.isAuthenticated, PageTier(p.isAuthenticated, p.subscription), remaining.daily, remaining.monthly))
  }

  /** `handleInterpret` from the page state and the usage cache as rendered, and the reply. */
  function Submitted(h: HomeState, p: ProviderState, reply: InterpretReply, today: Date, thisMonth: YearMonth): Submission {
    match Refusal(h, p)
    case Some(h') => Submission(h', p, false, None)
    case None => Received(h, p, reply, today, thisMonth)
  }

  lemma SubmittedRefused(h: HomeState, p: ProviderState, reply: InterpretReply, today: Date, thisMonth: YearMonth)
    requires Refusal(h, p).Some?
    ensures Submitted(h, p, reply, today, thisMonth) == Submission(Refusal(h, p).value, p, false, None)
  {
  }

  lemma SubmittedSent(h: HomeState, p: ProviderState, reply: InterpretReply, today: Date, thisMonth: YearMonth)
    requires Refusal(h, p).None?
    ensures Submitted(h, p, reply, today, thisMonth) == Received(h, p, reply, today, thisMonth)
  {
  }

  /** An empty dream, an over-long one, and a used-up allowance are refused in that order, before any request and without touching the cache. */
  lemma SubmitGuards(h: HomeState, p: ProviderState, reply: InterpretReply, today: Date, thisMonth: YearMonth)
    ensures var r := Submitted(h, p, reply, today, thisMonth);
      r.sent <==> Trim(h.dream) != [] && |h.dream| <= MaxDreamLength(PageTier(p.isAuthenticated, p.subscription)) && CanUseIn(p)
    ensures var r := Submitted(h, p, reply, today, thisMonth);
      !r.sent ==> r.cache == p && r.toast.None? && r.home.interpretation == h.interpretation && r.home.isLoading == h.isLoading
    ensures Trim(h.dream) == [] ==> Submitted(h, p, reply, today, thisMonth).home.error == EmptyDream
    ensures var r := Submitted(h, p, reply, today, thisMonth);
      r.home.showLengthUpgradePrompt != h.showLengthUpgradePrompt ==>
        !r.sent && Trim(h.dream) != [] && |h.dream| > MaxDreamLength(PageTier(p.isAuthenticated, p.subscription))
  {
  }

  /**
   * A refusal carrying the server's counts is synced into the cache before the error is
   * shown; a success without counts falls back to counting one locally. Any failure
   * shows the same message and no toast.
   */
  lemma ReplyHandling(h: HomeState, p: ProviderState, reply: InterpretReply, today: Date, thisMonth: YearMonth)
    requires Submitted(h, p, reply, today, thisMonth).sent
    ensures var r := Submitted(h, p, reply, today, thisMonth);
      reply.Refused? && reply.errorUsage.Some? ==>
        r.cache.usageData == Some(Snapshot(reply.errorUsage.value.daily, today, reply.errorUsage.value.monthly, thisMonth))
    ensures var r := Submitted(h, p, reply, today, thisMonth);
      !reply.Answered? ==> r.home.error == Foggy && r.toast.None? && r.home.interpretation == ""
    ensures var r := Submitted(h, p, reply, today, thisMonth);
      reply.Answered? ==> r.home.error == NoError && r.home.interpretation == reply.text
    ensures var r := Submitted(h, p, reply, today, thisMonth);
      reply.Answered? && reply.metadataUsage.None? ==> r.cache == Incremented(p)
    ensures !Submitted(h, p, reply, today, thisMonth).home.isLoading
    ensures Submitted(h, p, reply, today, thisMonth).toast.Some? ==> p.isAuthenticated && reply.Answered?
  {
  }

  class Home {
    var dream: string
    var interpretation: string
    var isLoading: bool
    var error: PageError
    var showLoginPrompt: bool
    var showUpgradePrompt: bool
    var showLengthUpgradePrompt: bool
    /** The usage cache the page reads through `useUsageLimitV2`. */
    const usage: UsageLimitProvider

    function Page(): HomeState
      reads this
    {
      HomeState(dream, interpretation, isLoading, error, showLoginPrompt, showUpgradePrompt, showLengthUpgradePrompt)
    }

    constructor(usage: UsageLimitProvider)
      ensures this.usage == usage
      ensures Page() == HomeState("", "", false, NoError, false, false, false)
    {
      this.usage := usage;
      dream := "";
      interpretation := "";
      isLoading := false;
      error := NoError;
      showLoginPrompt := false;
      showUpgradePrompt := false;
      showLengthUpgradePrompt := false;
    }

    /** `setDream`. */
    method SetDream(text: string)
      modifies this`dream
      ensures Page() == old(Page()).(dream := text)
    {
      dream := text;
    }

    /** `handleInterpret`, with the interpret request's answer as an input. */
    method HandleInterpret(reply: InterpretReply, today: Date, thisMonth: YearMonth) returns (sent: bool, toast: Option<Toast>)
      modifies this`interpretation, this`isLoading, this`error, this`showLengthUpgradePrompt
      modifies usage`usageData, usage`storedUsage, usage`isLimitReached
      ensures Submission(Page(), usage.State(), sent, toast) == Submitted(old(Page()), old(usage.State()), reply, today, thisMonth)
    {
      var passed := CheckDream();
      if !passed {
        SubmittedRefused(old(Page()), old(usage.State()), reply, today, thisMonth);
        return false, None;
      }
      SubmittedSent(old(Page()), old(usage.State()), reply, today, thisMonth);
      toast := Send(reply, today, thisMonth);
      sent := true;
    }

    /** The three checks at the top of `handleInterpret`; a failed one sets the error (and the length prompt). */
    method CheckDream() returns (passed: bool)
      modifies this`error, this`showLengthUpgradePrompt
      ensures passed <==> Refusal(old(Page()), usage.State()).None?
      ensures !passed ==> Page() == Refusal(old(Page()), usage.State()).value
      ensures passed ==> Page() == old(Page())
    {
      passed := CheckNotEmpty();
      if passed {
        passed := CheckLength();
        if passed {
          passed := CheckAllowance();
        }
      }
    }

    /** An empty or blank dream is refused. */
    method CheckNotEmpty() returns (passed: bool)
      modifies this`error
      ensures passed <==> Trim(dream) != []
      ensures Page() == if passed then old(Page()) else old(Page()).(error := EmptyDream)
    {
      passed := Trim(dream) != "";
      if !passed {
        error := EmptyDream;
      }
    }

    /** A dream longer than the tier allows is refused and opens the length prompt. */
    method CheckLength() returns (passed: bool)
      modifies this`error, this`showLengthUpgradePrompt
      ensures passed <==> |dream| <= MaxDreamLength(PageTier(usage.isAuthenticated, usage.subscription))
      ensures var maxLength := MaxDreamLength(PageTier(usage.isAuthenticated, usage.subscription));
        Page() == if passed then old(Page())
                  else old(Page()).(error := TooLong(|dream|, maxLength), showLengthUpgradePrompt := true)
    {
      var userTier := PageTier(usage.isAuthenticated, usage.subscription);
      var maxDreamLength := MaxDreamLength(userTier);
      passed := |dream| <= maxDreamLength;
      if !passed {
        error := TooLong(|dream|, maxDreamLength);
        showLengthUpgradePrompt := true;
      }
    }

    /** A visitor whose allowance is used up is refused with the cache's limit message. */
    method CheckAllowance() returns (passed: bool)
      modifies this`error
      ensures passed <==> CanUseIn(usage.State())
      ensures Page() == if passed then old(Page()) else old(Page()).(error := LimitReached(LimitMessageIn(usage.State())))
    {
      passed := usage.CanUse();
      if !passed {
        error := LimitReached(usage.GetLimitMessage());
      }
    }

    /** The part of `handleInterpret` from the request on, once the three checks have passed. */
    method Send(reply: InterpretReply, today: Date, thisMonth: YearMonth) returns (toast: Option<Toast>)
      modifies this`interpretation, this`isLoading, this`error
      modifies usage`usageData, usage`storedUsage, usage`isLimitReached
      ensures Submission(Page(), usage.State(), true, toast) == Received(old(Page()), old(usage.State()), reply, today, thisMonth)
    {
      match reply {
        case NoReply =>
          SendFailed(None, today, thisMonth);
          toast := None;
        case Refused(errorUsage) =>
          SendFailed(errorUsage, today, thisMonth);
          toast := None;
        case Answered(text, metadataUsage) =>
          toast := SendSucceeded(text, metadataUsage, today, thisMonth);
      }
    }

    /** The request failed; a refusal may carry the server's counts, which are synced first. */
    method SendFailed(errorUsage: Option<CurrentUsage>, today: Date, thisMonth: YearMonth)
      modifies this`interpretation, this`isLoading, this`error
      modifies usage`usageData, usage`storedUsage, usage`isLimitReached
      ensures Submission(Page(), usage.State(), true, None) == Failed(old(Page()), old(usage.State()), errorUsage, today, thisMonth)
    {
      isLoading := true;
      error := NoError;
      interpretation := "";
      if errorUsage.Some? {
        usage.SyncFromResponse(errorUsage.value.daily, errorUsage.value.monthly, today, thisMonth);
      }
      error := Foggy;
      isLoading := false;
    }

    /** The request succeeded: show the text, record the use, and pick a toast from the values of the render. */
    method SendSucceeded(text: string, metadataUsage: Option<CurrentUsage>, today: Date, thisMonth: YearMonth) returns (toast: Option<Toast>)
      modifies this`interpretation, this`isLoading, this`error
      modifies usage`usageData, usage`storedUsage, usage`isLimitReached
      ensures Submission(Page(), usage.State(), true, toast) == Succeeded(old(Page()), old(usage.State()), text, metadataUsage, today, thisMonth)
    {
      ghost var p := usage.State();
      // Values of the render the handler was created in.
      var userTier := PageTier(usage.isAuthenticated, usage.subscription);
      var isAuthenticated := usage.isAuthenticated;
      var remaining := usage.GetRemainingCount();

      isLoading := true;
      error := NoError;
      interpretation := "";
      interpretation := text;
      var newRemainingDaily := remaining.daily - 1;
      var newRemainingMonthly := remaining.monthly - 1;
      if metadataUsage.Some? && metadataUsage.value.limits.Some? {
        newRemainingDaily := metadataUsage.value.limits.value.daily - metadataUsage.value.daily;
        newRemainingMonthly := metadataUsage.value.limits.value.monthly - metadataUsage.value.monthly;
      }
      assert Caps(newRemainingDaily, newRemainingMonthly) == NewRemaining(RemainingIn(p), metadataUsage);
      RecordUsage(metadataUsage, today, thisMonth);
      toast := ChooseToast(isAuthenticated, userTier, newRemainingDaily, newRemainingMonthly);
      isLoading := false;
    }

    /** The cache update after a success: `syncFromResponse` with the server's counts, else `incrementUsage`. */
    method RecordUsage(metadataUsage: Option<CurrentUsage>, today: Date, thisMonth: YearMonth)
      modifies usage`usageData, usage`storedUsage, usage`isLimitReached
      ensures usage.State() == Recorded(old(usage.State()), metadataUsage, today, thisMonth)
    {
      if metadataUsage.Some? {
        usage.SyncFromResponse(metadataUsage.value.daily, metadataUsage.value.monthly, today, thisMonth);
      } else {
        usage.IncrementUsage();
      }
    }

    /**
     * The prompt effect: nothing while sign-in is still loading; then the login prompt
     * for a signed-out visitor at the limit, the upgrade prompt for a signed-in user at
     * the limit, and neither otherwise.
     */
    method PromptEffect(authLoading: bool)
      modifies this`showLoginPrompt, this`showUpgradePrompt
      ensures authLoading ==> Page() == old(Page())
      ensures !authLoading ==> Page() == old(Page()).(
        showLoginPrompt := !usage.isAuthenticated && usage.isLimitReached,
        showUpgradePrompt := usage.isAuthenticated && usage.isLimitReached)
      ensures !(showLoginPrompt && showUpgradePrompt) || (authLoading && old(showLoginPrompt && showUpgradePrompt))
    {
      if authLoading {
        return;
      }
      if !usage.isAuthenticated && usage.isLimitReached {
        showLoginPrompt := true;
        showUpgradePrompt := false;
      } else if usage.isAuthenticated && usage.isLimitReached {
        showLoginPrompt := false;
        showUpgradePrompt := true;
      } else {
        showLoginPrompt := false;
        showUpgradePrompt := false;
      }
    }
  }
}
