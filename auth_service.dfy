/** Who is calling and at which tier: lib/services/auth-service.ts. */
module AuthService {
  import opened Wrappers
  import opened Text
  import opened UsageLimits
  import opened Database

  /** The signed-in user of the session, as the auth library reports it. */
  datatype User = User(id: UserId, email: Option<string>)

  datatype AuthResult = AuthResult(userId: Option<UserId>, tier: Tier, isAuthenticated: bool)

  /** A stored subscription grants its tier only while active and not past its period end (milliseconds). */
  predicate Entitled(row: SubscriptionRow, nowMs: int) {
    row.status == "active" && (row.currentPeriodEnd.None? || row.currentPeriodEnd.value > nowMs)
  }

  /** The tier a signed-in user's subscription lookup grants: the stored tier when entitled, else free. */
  function SignedInTier(subscription: Lookup<SubscriptionRow>, nowMs: int): (t: Tier)
    ensures subscription.Row? && Entitled(subscription.value, nowMs) ==> t == subscription.value.tier
    ensures !(subscription.Row? && Entitled(subscription.value, nowMs)) ==> t == Free
  {
    match subscription
    case Row(row) => if Entitled(row, nowMs) then row.tier else Free
    case _ => Free
  }

  /**
   * `getUserAuth`, with the session user and the subscription query's outcome as inputs:
   * anonymous without a user; otherwise the user's id with the tier the subscription grants.
   */
  function GetUserAuth(user: Option<User>, subscription: Lookup<SubscriptionRow>, nowMs: int): (r: AuthResult)
    ensures user.None? ==> r == AuthResult(None, Anonymous, false)
    ensures user.Some? ==> r.isAuthenticated && r.userId == Some(user.value.id)
    ensures user.Some? ==> r.tier == SignedInTier(subscription, nowMs)
  {
    if user.None? then AuthResult(None, Anonymous, false)
    else AuthResult(Some(user.value.id), SignedInTier(subscription, nowMs), true)
  }

  /** A signed-in caller is never anonymous unless the stored row itself says so, and any failed or empty lookup means free. */
  lemma SignedInTierCases(subscription: Lookup<SubscriptionRow>, nowMs: int)
    ensures subscription == QueryError || subscription == NoRow ==> SignedInTier(subscription, nowMs) == Free
    ensures subscription.Row? && subscription.value.status != "active" ==> SignedInTier(subscription, nowMs) == Free
    ensures subscription.Row? && subscription.value.currentPeriodEnd.Some? &&
            subscription.value.currentPeriodEnd.value <= nowMs
            ==> SignedInTier(subscription, nowMs) == Free
    ensures SignedInTier(subscription, nowMs) == Anonymous ==> subscription.Row? && subscription.value.tier == Anonymous
  {
  }

  /**
   * `getUserIP`: the first comma-separated entry of `x-forwarded-for`, trimmed; when that is
   * absent or empty, `x-real-ip`; when that is absent or empty too, "unknown".
   */
  function GetUserIP(forwardedFor: Option<string>, realIp: Option<string>): (ip: string)
    ensures ip != ""
    ensures forwardedFor.Some? && Trim(BeforeFirst(forwardedFor.value, ',')) != [] ==>
              ip == Trim(BeforeFirst(forwardedFor.value, ','))
    ensures (forwardedFor.None? || Trim(BeforeFirst(forwardedFor.value, ',')) == []) && realIp.Some? && realIp.value != [] ==>
              ip == realIp.value
    ensures (forwardedFor.None? || Trim(BeforeFirst(forwardedFor.value, ',')) == []) && (realIp.None? || realIp.value == []) ==>
              ip == "unknown"
  {
    var first := if forwardedFor.Some? then Trim(BeforeFirst(forwardedFor.value, ',')) else "";
    if first != "" then first
    else if realIp.Some? && realIp.value != "" then realIp.value
    else "unknown"
  }

  /**
   * A forwarded address is taken up to its first comma, without surrounding whitespace:
   * it is the piece `forwardedFor[i..j]` and holds no comma.
   */
  lemma ForwardedFirstEntry(forwardedFor: string, realIp: Option<string>) returns (i: nat, j: nat)
    requires Trim(BeforeFirst(forwardedFor, ',')) != []
    ensures GetUserIP(Some(forwardedFor), realIp) == Trim(BeforeFirst(forwardedFor, ','))
    ensures i <= j <= |forwardedFor| && GetUserIP(Some(forwardedFor), realIp) == forwardedFor[i..j]
    ensures ',' !in GetUserIP(Some(forwardedFor), realIp)
  {
    var b := BeforeFirst(forwardedFor, ',');
    i, j := TrimSlice(b);
    SliceOfPrefix(forwardedFor, |b|, i, j);
    NotInSlice(b, i, j, ',');
  }
}
