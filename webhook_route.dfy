/**
 * The payment provider's webhook, POST /api/webhooks/creem: app/api/webhooks/creem/route.ts.
 * The request is reduced to its headers, the parsed JSON event and the digests of its raw
 * body; the handlers update the subscription table in place.
 */
module WebhookRoute {
  import opened Wrappers
  import opened Text
  import opened Calendar
  import opened UsageLimits
  import opened PricingConfig
  import opened Database
  import opened ApiResponse
  import opened AuthService
  import opened CreemConfig

  // ---------------------------------------------------------------- signature header

  /** The header names tried for the signature, in this order (header names are lower case). */
  const SIGNATURE_HEADERS: seq<string> :=
    ["x-creem-signature", "x-signature", "signature", "creem-signature", "webhook-signature", "x-webhook-signature"]

  datatype SignatureHeader = SignatureHeader(name: string, value: string)

  /** `headers.get(name)` used as a truth value: present and non-empty. */
  predicate Carries(headers: map<string, string>, name: string) {
    name in headers && headers[name] != []
  }

  /** The first of `names` whose header carries a value, with that value. */
  function FirstSignature(headers: map<string, string>, names: seq<string>): (r: Option<SignatureHeader>)
    ensures r.None? <==> forall i :: 0 <= i < |names| ==> !Carries(headers, names[i])
    ensures r.Some? ==> r.value.name in names && Carries(headers, r.value.name) && r.value.value == headers[r.value.name]
  {
    if names == [] then None
    else if Carries(headers, names[0]) then Some(SignatureHeader(names[0], headers[names[0]]))
    else FirstSignature(headers, names[1..])
  }

  /** The header found is the earliest listed one that carries a value. */
  lemma {:induction false} FirstSignatureIsEarliest(headers: map<string, string>, names: seq<string>) returns (i: nat)
    requires FirstSignature(headers, names).Some?
    ensures i < |names| && names[i] == FirstSignature(headers, names).value.name
    ensures forall j :: 0 <= j < i ==> !Carries(headers, names[j])
  {
    if Carries(headers, names[0]) {
      i := 0;
    } else {
      var k := FirstSignatureIsEarliest(headers, names[1..]);
      i := k + 1;
      assert forall j :: 1 <= j < i ==> names[j] == names[1..][j - 1];
    }
  }

  /**
   * The header search: walks the names in order and stops at the first header that carries
   * a value, remembering its value and its name.
   */
  method FindSignature(headers: map<string, string>) returns (signature: Option<string>, signatureHeaderName: Option<string>)
    ensures var found := FirstSignature(headers, SIGNATURE_HEADERS);
            && (signature.Some? <==> found.Some?)
            && (found.Some? ==> signature == Some(found.value.value) && signatureHeaderName == Some(found.value.name))
  {
    signature := None;
    signatureHeaderName := None;
    var names := SIGNATURE_HEADERS;
    var i := 0;
    while i < |names|
      invariant 0 <= i <= |names|
      invariant FirstSignature(headers, names) == FirstSignature(headers, names[i..])
      invariant signature.None?
    {
      var headerName := names[i];
      var value := if headerName in headers then headers[headerName] else "";
      if value != "" {
        signature := Some(value);
        signatureHeaderName := Some(headerName);
        break;
      }
      assert names[i..][1..] == names[i + 1..];
      i := i + 1;
    }
  }

  // ---------------------------------------------------------------- events

  /**
   * The fields of an event payload the handlers read. Checkout payloads nest the product,
   * order, customer, subscription and metadata objects; subscription payloads are flat.
   */
  datatype EventData = EventData(
    id: Option<string>,                     // data.id
    status: Option<string>,                 // data.status
    productId: Option<string>,              // data.product_id
    customerEmail: Option<string>,          // data.customer?.email
    productObjectId: Option<string>,        // data.product?.id
    orderProduct: Option<string>,           // data.order?.product
    subscriptionObjectId: Option<string>,   // data.subscription?.id
    orderSubscription: Option<string>,      // data.order?.subscription
    metadataUserId: Option<string>)         // (data.metadata || {}).user_id

  /** The parsed event envelope: the three type fields and the two payload fields. */
  datatype WebhookEvent = WebhookEvent(
    eventType: Option<string>,              // event.eventType
    typeName: Option<string>,               // event.type
    eventName: Option<string>,              // event.event
    obj: Option<EventData>,                 // event.object
    data: Option<EventData>)                // event.data

  /** `event.eventType || event.type || event.event`. */
  function EventTypeOf(e: WebhookEvent): Option<string> {
    OrElse(OrElse(e.eventType, e.typeName), e.eventName)
  }

  /** `event.object || event.data`. */
  function EventDataOf(e: WebhookEvent): Option<EventData> {
    if e.obj.Some? then e.obj else e.data
  }

  datatype EventKind = CheckoutCompleted | SubscriptionCreated | SubscriptionUpdated | SubscriptionCanceled
                     | SubscriptionExpired | Unhandled

  /** The `switch` on the event type; both checkout spellings share one case. */
  function KindOf(eventType: Option<string>): EventKind {
    if eventType == Some("checkout.completed") || eventType == Some("checkout.session.completed") then CheckoutCompleted
    else if eventType == Some("subscription.created") then SubscriptionCreated
    else if eventType == Some("subscription.updated") then SubscriptionUpdated
    else if eventType == Some("subscription.canceled") then SubscriptionCanceled
    else if eventType == Some("subscription.expired") then SubscriptionExpired
    else Unhandled
  }

  // ---------------------------------------------------------------- handlers, as table updates

  /** A handler's verdict and the subscription table it leaves. */
  datatype Handled = Handled(ok: bool, subscriptions: map<UserId, SubscriptionRow>)

  /** Days a paid period lasts. */
  function PeriodDays(c: BillingCycle): nat {
    if c == Yearly then 365 else 30
  }

  /** An upserted column whose value is `undefined` is left out and keeps its stored value (null for a new row). */
  function Kept(v: Option<string>, stored: Option<string>): Option<string> {
    if v.Some? then v else stored
  }

  /** The product id of a checkout payload: `data.product?.id || data.order?.product`. */
  function CheckoutProductId(data: EventData): Option<string> {
    OrElse(data.productObjectId, data.orderProduct)
  }

  /** The row the checkout upsert writes for `userId`, starting a period at `nowMs`. */
  function CheckoutRow(prior: Option<SubscriptionRow>, plan: Plan, data: EventData, nowMs: int): SubscriptionRow {
    SubscriptionRow(
      plan.tier, Some(plan.cycle), "active",
      Kept(OrElse(data.subscriptionObjectId, data.orderSubscription), if prior.Some? then prior.value.creemSubscriptionId else None),
      Kept(data.customerEmail, if prior.Some? then prior.value.creemCustomerEmail else None),
      Kept(CheckoutProductId(data), if prior.Some? then prior.value.creemProductId else None),
      Some(nowMs), Some(nowMs + PeriodDays(plan.cycle) * MS_PER_DAY))
  }

  /**
   * `handleCheckoutCompleted`: an unknown product fails first, a missing user id second, a
   * failed write third; otherwise the user's row is upserted as an active paid period.
   */
  function AfterCheckout(subs: map<UserId, SubscriptionRow>, data: EventData, ids: ProductIds, nowMs: int, writeOk: bool): Handled {
    var plan := FirstMatch(Entries(ids), CheckoutProductId(data));
    if plan.None? then Handled(false, subs)
    else if data.metadataUserId.None? || data.metadataUserId.value == "" then Handled(false, subs)
    else if !writeOk then Handled(false, subs)
    else
      var userId := data.metadataUserId.value;
      var prior := if userId in subs then Some(subs[userId]) else None;
      Handled(true, subs[userId := CheckoutRow(prior, plan.value, data, nowMs)])
  }

  /** `.eq("creem_subscription_id", id)`: an absent id selects no row. */
  predicate Matches(row: SubscriptionRow, subscriptionId: Option<string>) {
    subscriptionId.Some? && row.creemSubscriptionId == subscriptionId
  }

  /** The rows of `subscriptionId` get the plan and, when the payload has one, its status. */
  function UpdatedRows(subs: map<UserId, SubscriptionRow>, subscriptionId: Option<string>, plan: Plan, status: Option<string>): map<UserId, SubscriptionRow> {
    map u | u in subs :: if Matches(subs[u], subscriptionId)
                         then subs[u].(tier := plan.tier, billingCycle := Some(plan.cycle),
                                       status := if status.Some? then status.value else subs[u].status)
                         else subs[u]
  }

  /** `handleSubscriptionUpdated`: an unknown product or a failed write fails; otherwise the matching rows are updated. */
  function AfterUpdate(subs: map<UserId, SubscriptionRow>, data: EventData, ids: ProductIds, writeOk: bool): Handled {
    var plan := FirstMatch(Entries(ids), data.productId);
    if plan.None? || !writeOk then Handled(false, subs)
    else Handled(true, UpdatedRows(subs, data.id, plan.value, data.status))
  }

  /** The rows of `subscriptionId` with the status given and, for an expiry, the free tier. */
  function StatusRows(subs: map<UserId, SubscriptionRow>, subscriptionId: Option<string>, status: string, toFree: bool): map<UserId, SubscriptionRow> {
    map u | u in subs :: if Matches(subs[u], subscriptionId)
                         then (if toFree then subs[u].(status := status, tier := Free) else subs[u].(status := status))
                         else subs[u]
  }

  /** `handleSubscriptionCanceled` (status canceled, tier kept) and `handleSubscriptionExpired` (status expired, tier free). */
  function AfterStatusChange(subs: map<UserId, SubscriptionRow>, data: EventData, expired: bool, writeOk: bool): Handled {
    if !writeOk then Handled(false, subs)
    else if expired then Handled(true, StatusRows(subs, data.id, "expired", true))
    else Handled(true, StatusRows(subs, data.id, "canceled", false))
  }

  /** What the handler of `kind` does with a payload. */
  function Dispatch(subs: map<UserId, SubscriptionRow>, kind: EventKind, data: EventData, ids: ProductIds, nowMs: int, writeOk: bool): Handled {
    match kind
    case CheckoutCompleted => AfterCheckout(subs, data, ids, nowMs, writeOk)
    case SubscriptionCreated => Handled(true, subs)
    case SubscriptionUpdated => AfterUpdate(subs, data, ids, writeOk)
    case SubscriptionCanceled => AfterStatusChange(subs, data, false, writeOk)
    case SubscriptionExpired => AfterStatusChange(subs, data, true, writeOk)
    case Unhandled => Handled(true, subs)
  }

  // ---------------------------------------------------------------- handlers, as methods

  method HandleCheckoutCompleted(db: Db, data: EventData, ids: ProductIds, nowMs: int, writeOk: bool) returns (handled: bool)
    modifies db`subscriptions
    ensures Handled(handled, db.subscriptions) == AfterCheckout(old(db.subscriptions), data, ids, nowMs, writeOk)
  {
    var productId := OrElse(data.productObjectId, data.orderProduct);
    var tierInfo := ParseTierFromProductId(ids, productId);
    if tierInfo.None? {
      return false;
    }
    var userId := data.metadataUserId;
    if userId.None? || userId.value == "" {
      return false;
    }
    if !writeOk {
      return false;
    }
    var prior := if userId.value in db.subscriptions then Some(db.subscriptions[userId.value]) else None;
    db.subscriptions := db.subscriptions[userId.value := CheckoutRow(prior, tierInfo.value, data, nowMs)];
    return true;
  }

  method HandleSubscriptionUpdated(db: Db, data: EventData, ids: ProductIds, writeOk: bool) returns (handled: bool)
    modifies db`subscriptions
    ensures Handled(handled, db.subscriptions) == AfterUpdate(old(db.subscriptions), data, ids, writeOk)
  {
    var tierInfo := ParseTierFromProductId(ids, data.productId);
    if tierInfo.None? {
      return false;
    }
    if !writeOk {
      return false;
    }
    db.subscriptions := UpdatedRows(db.subscriptions, data.id, tierInfo.value, data.status);
    return true;
  }

  method HandleSubscriptionStatus(db: Db, data: EventData, expired: bool, writeOk: bool) returns (handled: bool)
    modifies db`subscriptions
    ensures Handled(handled, db.subscriptions) == AfterStatusChange(old(db.subscriptions), data, expired, writeOk)
  {
    if !writeOk {
      return false;
    }
    if expired {
      db.subscriptions := StatusRows(db.subscriptions, data.id, "expired", true);
    } else {
      db.subscriptions := StatusRows(db.subscriptions, data.id, "canceled", false);
    }
    return true;
  }

  // ---------------------------------------------------------------- the route

  /** What the route sees: headers, the parsed body (`None` when it is not JSON), the body's digests, the product ids, the clock and whether the table write succeeds. */
  datatype WebhookEnv = WebhookEnv(headers: map<string, string>, event: Option<WebhookEvent>, expected: Digests,
                                   productIds: ProductIds, nowMs: int, writeOk: bool)

  /** A plain JSON response (the webhook does not use the API envelope). */
  datatype WebhookResponse = WebhookResponse(status: int, body: map<string, Value>)

  function MissingSignature(): WebhookResponse {
    WebhookResponse(401, map["error" := VStr("Missing signature"),
                             "debug" := VObj(map["checked_headers" := VList(seq(|SIGNATURE_HEADERS|, i requires 0 <= i < |SIGNATURE_HEADERS| => VStr(SIGNATURE_HEADERS[i])))])])
  }

  const INVALID_SIGNATURE: WebhookResponse := WebhookResponse(401, map["error" := VStr("Invalid signature")])
  const PROCESSING_FAILED: WebhookResponse := WebhookResponse(500, map["error" := VStr("Webhook processing failed")])
  const EVENT_FAILED: WebhookResponse := WebhookResponse(500, map["error" := VStr("Failed to process webhook event")])
  const RECEIVED: WebhookResponse := WebhookResponse(200, map["received" := VBool(true)])

  datatype WebhookResult = WebhookResult(response: WebhookResponse, subscriptions: map<UserId, SubscriptionRow>)

  /**
   * The whole route: the signature gate, then the parse, then the dispatch. A known event
   * without a payload fails as the handler's first read of it throws; an unknown event is
   * acknowledged so that the provider stops retrying.
   */
  function WebhookOutcome(subs: map<UserId, SubscriptionRow>, env: WebhookEnv): WebhookResult {
    var found := FirstSignature(env.headers, SIGNATURE_HEADERS);
    if found.None? then WebhookResult(MissingSignature(), subs)
    else if !VerifyWebhookSignature(found.value.value, env.expected) then WebhookResult(INVALID_SIGNATURE, subs)
    else if env.event.None? then WebhookResult(PROCESSING_FAILED, subs)
    else
      var kind := KindOf(EventTypeOf(env.event.value));
      var data := EventDataOf(env.event.value);
      if kind != Unhandled && data.None? then WebhookResult(PROCESSING_FAILED, subs)
      else
        var h := if kind == Unhandled then Handled(true, subs) else Dispatch(subs, kind, data.value, env.productIds, env.nowMs, env.writeOk);
        WebhookResult(if h.ok then RECEIVED else EVENT_FAILED, h.subscriptions)
  }

  /** POST /api/webhooks/creem. */
  method Post(db: Db, env: WebhookEnv) returns (resp: WebhookResponse)
    modifies db`subscriptions
    ensures WebhookResult(resp, db.subscriptions) == WebhookOutcome(old(db.subscriptions), env)
  {
    var signature, signatureHeaderName := FindSignature(env.headers);
    if signature.None? {
      return MissingSignature();
    }
    var isValid := VerifyWebhookSignature(signature.value, env.expected);
    if !isValid {
      return INVALID_SIGNATURE;
    }
    if env.event.None? {
      return PROCESSING_FAILED;
    }
    var event := env.event.value;
    var eventType := EventTypeOf(event);
    var eventData := EventDataOf(event);
    var handled := false;
    match KindOf(eventType) {
    case CheckoutCompleted =>
      if eventData.None? {
        return PROCESSING_FAILED;
      }
      handled := HandleCheckoutCompleted(db, eventData.value, env.productIds, env.nowMs, env.writeOk);
    case SubscriptionCreated =>
      if eventData.None? {
        return PROCESSING_FAILED;
      }
      handled := true;
    case SubscriptionUpdated =>
      if eventData.None? {
        return PROCESSING_FAILED;
      }
      handled := HandleSubscriptionUpdated(db, eventData.value, env.productIds, env.writeOk);
    case SubscriptionCanceled =>
      if eventData.None? {
        return PROCESSING_FAILED;
      }
      handled := HandleSubscriptionStatus(db, eventData.value, false, env.writeOk);
    case SubscriptionExpired =>
      if eventData.None? {
        return PROCESSING_FAILED;
      }
      handled := HandleSubscriptionStatus(db, eventData.value, true, env.writeOk);
    case Unhandled =>
      handled := true;
    }
    if !handled {
      return EVENT_FAILED;
    }
    return RECEIVED;
  }

  // ---------------------------------------------------------------- properties

  /**
   * The signature gate: without a carrying header, or with a signature that matches none of
   * the accepted renderings, the answer is 401 and the table is untouched.
   */
  lemma SignatureGate(subs: map<UserId, SubscriptionRow>, env: WebhookEnv)
    ensures var r := WebhookOutcome(subs, env);
            var found := FirstSignature(env.headers, SIGNATURE_HEADERS);
            && (found.None? ==> r.response.status == 401 && r.response.body["error"] == VStr("Missing signature"))
            && (found.None? || !VerifyWebhookSignature(found.value.value, env.expected) <==> r.response.status == 401)
            && (r.response.status == 401 ==> r.subscriptions == subs)
  {
  }

  /**
   * The answer is 200 `{received: true}` exactly when the signature is accepted, the body
   * parses and the handler reports success; every failure leaves the table as it was.
   */
  lemma StatusMapping(subs: map<UserId, SubscriptionRow>, env: WebhookEnv)
    ensures var r := WebhookOutcome(subs, env);
            && (r.response.status == 200 <==> r.response == RECEIVED)
            && (r.response.status != 200 ==> r.subscriptions == subs)
            && (r.response.status == 200 ==>
                  env.event.Some? &&
                  (KindOf(EventTypeOf(env.event.value)) == Unhandled ||
                   (EventDataOf(env.event.value).Some? &&
                    Dispatch(subs, KindOf(EventTypeOf(env.event.value)), EventDataOf(env.event.value).value,
                             env.productIds, env.nowMs, env.writeOk).ok)))
  {
    OnlyReceivedIs200(subs, env);
    FailureKeepsTable(subs, env);
    SuccessWasHandled(subs, env);
  }

  lemma OnlyReceivedIs200(subs: map<UserId, SubscriptionRow>, env: WebhookEnv)
    ensures var r := WebhookOutcome(subs, env);
            r.response.status == 200 <==> r.response == RECEIVED
  {
    ResponseStatuses();
  }

  lemma FailureKeepsTable(subs: map<UserId, SubscriptionRow>, env: WebhookEnv)
    ensures var r := WebhookOutcome(subs, env);
            r.response.status != 200 ==> r.subscriptions == subs
  {
    var found := FirstSignature(env.headers, SIGNATURE_HEADERS);
    if found.Some? && VerifyWebhookSignature(found.value.value, env.expected) && env.event.Some? {
      var kind := KindOf(EventTypeOf(env.event.value));
      var data := EventDataOf(env.event.value);
      if kind != Unhandled && data.Some? {
        var h := Dispatch(subs, kind, data.value, env.productIds, env.nowMs, env.writeOk);
        assert WebhookOutcome(subs, env) == WebhookResult(if h.ok then RECEIVED else EVENT_FAILED, h.subscriptions);
        DispatchFailureKeepsTable(subs, kind, data.value, env.productIds, env.nowMs, env.writeOk);
      }
    }
  }

  lemma SuccessWasHandled(subs: map<UserId, SubscriptionRow>, env: WebhookEnv)
    ensures var r := WebhookOutcome(subs, env);
            r.response.status == 200 ==>
              env.event.Some? &&
              (KindOf(EventTypeOf(env.event.value)) == Unhandled ||
               (EventDataOf(env.event.value).Some? &&
                Dispatch(subs, KindOf(EventTypeOf(env.event.value)), EventDataOf(env.event.value).value,
                         env.productIds, env.nowMs, env.writeOk).ok))
  {
    ResponseStatuses();
  }

  /** A handler that fails leaves the table as it was. */
  lemma DispatchFailureKeepsTable(subs: map<UserId, SubscriptionRow>, kind: EventKind, data: EventData, ids: ProductIds, nowMs: int, writeOk: bool)
    ensures !Dispatch(subs, kind, data, ids, nowMs, writeOk).ok ==> Dispatch(subs, kind, data, ids, nowMs, writeOk).subscriptions == subs
  {
  }

  /** Only the acknowledgement carries status 200. */
  lemma ResponseStatuses()
    ensures MissingSignature().status == INVALID_SIGNATURE.status == 401
    ensures PROCESSING_FAILED.status == EVENT_FAILED.status == 500
    ensures RECEIVED.status == 200
  {
  }

  /** Events the route acknowledges without touching the table: `subscription.created` and any type it does not know. */
  lemma NoOpEvents(subs: map<UserId, SubscriptionRow>, env: WebhookEnv, e: WebhookEvent)
    requires env.event == Some(e)
    requires FirstSignature(env.headers, SIGNATURE_HEADERS).Some?
    requires VerifyWebhookSignature(FirstSignature(env.headers, SIGNATURE_HEADERS).value.value, env.expected)
    requires KindOf(EventTypeOf(e)) == Unhandled || (KindOf(EventTypeOf(e)) == SubscriptionCreated && EventDataOf(e).Some?)
    ensures WebhookOutcome(subs, env) == WebhookResult(RECEIVED, subs)
  {
  }

  /**
   * A completed checkout activates the buyer's plan: the row is active with the product's
   * tier and cycle, the user is entitled to that tier from `nowMs` until the period of 30 or
   * 365 days ends and free afterwards, and no other user's row changes.
   */
  lemma CheckoutEntitles(subs: map<UserId, SubscriptionRow>, data: EventData, ids: ProductIds, nowMs: int, t: int)
    requires AfterCheckout(subs, data, ids, nowMs, true).ok
    ensures var plan := FirstMatch(Entries(ids), CheckoutProductId(data)).value;
            var userId := data.metadataUserId.value;
            var subs' := AfterCheckout(subs, data, ids, nowMs, true).subscriptions;
            && userId in subs'
            && subs'[userId].status == "active" && subs'[userId].tier == plan.tier && subs'[userId].billingCycle == Some(plan.cycle)
            && (nowMs <= t < nowMs + PeriodDays(plan.cycle) * MS_PER_DAY ==> SignedInTier(Row(subs'[userId]), t) == plan.tier)
            && (t >= nowMs + PeriodDays(plan.cycle) * MS_PER_DAY ==> SignedInTier(Row(subs'[userId]), t) == Free)
            && (forall u :: u != userId ==> (u in subs' <==> u in subs) && (u in subs ==> subs'[u] == subs[u]))
  {
  }

  /** A checkout is refused for an unknown product even when the user id is missing too, and for a missing user id. */
  lemma CheckoutRefusals(subs: map<UserId, SubscriptionRow>, data: EventData, ids: ProductIds, nowMs: int, writeOk: bool)
    ensures FirstMatch(Entries(ids), CheckoutProductId(data)).None? ==> AfterCheckout(subs, data, ids, nowMs, writeOk) == Handled(false, subs)
    ensures data.metadataUserId.None? || data.metadataUserId == Some("") ==> AfterCheckout(subs, data, ids, nowMs, writeOk) == Handled(false, subs)
  {
  }

  /**
   * Cancelling and expiring touch only the rows of the event's subscription id: a
   * cancellation keeps the tier, an expiry sets it to free, and both end the entitlement.
   */
  lemma StatusChangeEffects(subs: map<UserId, SubscriptionRow>, data: EventData, expired: bool, u: UserId, nowMs: int)
    requires u in subs
    ensures var subs' := AfterStatusChange(subs, data, expired, true).subscriptions;
            && u in subs'
            && (!Matches(subs[u], data.id) ==> subs'[u] == subs[u])
            && (Matches(subs[u], data.id) && !expired ==> subs'[u] == subs[u].(status := "canceled"))
            && (Matches(subs[u], data.id) && expired ==> subs'[u] == subs[u].(status := "expired", tier := Free))
            && (Matches(subs[u], data.id) ==> SignedInTier(Row(subs'[u]), nowMs) == Free)
  {
  }

  /** An update touches only the rows of the event's subscription id, and keeps their status when the payload has none. */
  lemma UpdateEffects(subs: map<UserId, SubscriptionRow>, data: EventData, ids: ProductIds, u: UserId)
    requires u in subs && AfterUpdate(subs, data, ids, true).ok
    ensures var plan := FirstMatch(Entries(ids), data.productId).value;
            var subs' := AfterUpdate(subs, data, ids, true).subscriptions;
            && u in subs'
            && (!Matches(subs[u], data.id) ==> subs'[u] == subs[u])
            && (Matches(subs[u], data.id) ==> subs'[u].tier == plan.tier && subs'[u].billingCycle == Some(plan.cycle))
            && (Matches(subs[u], data.id) && data.status.None? ==> subs'[u].status == subs[u].status)
            && (Matches(subs[u], data.id) && data.status.Some? ==> subs'[u].status == data.status.value)
  {
  }

  /** Handling the same checkout twice at the same instant leaves the table of handling it once. */
  lemma CheckoutIdempotent(subs: map<UserId, SubscriptionRow>, data: EventData, ids: ProductIds, nowMs: int, writeOk: bool)
    ensures var h := AfterCheckout(subs, data, ids, nowMs, writeOk);
            AfterCheckout(h.subscriptions, data, ids, nowMs, writeOk) == h
  {
    var h := AfterCheckout(subs, data, ids, nowMs, writeOk);
    if h.ok {
      var userId := data.metadataUserId.value;
      var plan := FirstMatch(Entries(ids), CheckoutProductId(data)).value;
      var prior := if userId in subs then Some(subs[userId]) else None;
      var row := CheckoutRow(prior, plan, data, nowMs);
      assert h.subscriptions[userId] == row;
      assert CheckoutRow(Some(row), plan, data, nowMs) == row;
    }
  }

  /** Handling the same update twice leaves the table of handling it once. */
  lemma UpdateIdempotent(subs: map<UserId, SubscriptionRow>, data: EventData, ids: ProductIds, writeOk: bool)
    ensures var h := AfterUpdate(subs, data, ids, writeOk);
            AfterUpdate(h.subscriptions, data, ids, writeOk) == h
  {
    var h := AfterUpdate(subs, data, ids, writeOk);
    if h.ok {
      var plan := FirstMatch(Entries(ids), data.productId).value;
      var once := UpdatedRows(subs, data.id, plan, data.status);
      var twice := UpdatedRows(once, data.id, plan, data.status);
      assert forall u :: u in once ==> twice[u] == once[u];
      assert twice == once;
    }
  }

  /** Handling the same cancellation or expiry twice leaves the table of handling it once. */
  lemma StatusChangeIdempotent(subs: map<UserId, SubscriptionRow>, data: EventData, expired: bool, writeOk: bool)
    ensures var h := AfterStatusChange(subs, data, expired, writeOk);
            AfterStatusChange(h.subscriptions, data, expired, writeOk) == h
  {
    var h := AfterStatusChange(subs, data, expired, writeOk);
    if h.ok {
      var status := if expired then "expired" else "canceled";
      var once := StatusRows(subs, data.id, status, expired);
      var twice := StatusRows(once, data.id, status, expired);
      assert forall u :: u in once ==> twice[u] == once[u];
      assert twice == once;
    }
  }

  /** Every handler is idempotent when the repeat is handled at the same instant. */
  lemma DispatchIdempotent(subs: map<UserId, SubscriptionRow>, kind: EventKind, data: EventData, ids: ProductIds, nowMs: int, writeOk: bool)
    ensures var h := Dispatch(subs, kind, data, ids, nowMs, writeOk);
            Dispatch(h.subscriptions, kind, data, ids, nowMs, writeOk) == h
  {
    match kind
    case CheckoutCompleted => CheckoutIdempotent(subs, data, ids, nowMs, writeOk);
    case SubscriptionUpdated => UpdateIdempotent(subs, data, ids, writeOk);
    case SubscriptionCanceled => StatusChangeIdempotent(subs, data, false, writeOk);
    case SubscriptionExpired => StatusChangeIdempotent(subs, data, true, writeOk);
    case _ =>
  }

  /**
   * A redelivery handled at the same instant changes nothing more: handling the same event
   * twice equals handling it once.
   */
  lemma RedeliveryIdempotent(subs: map<UserId, SubscriptionRow>, env: WebhookEnv)
    ensures var once := WebhookOutcome(subs, env);
            WebhookOutcome(once.subscriptions, env) == once
  {
    var found := FirstSignature(env.headers, SIGNATURE_HEADERS);
    if found.Some? && VerifyWebhookSignature(found.value.value, env.expected) && env.event.Some? {
      var kind := KindOf(EventTypeOf(env.event.value));
      var data := EventDataOf(env.event.value);
      if kind != Unhandled && data.Some? {
        DispatchIdempotent(subs, kind, data.value, env.productIds, env.nowMs, env.writeOk);
      }
    }
  }

  /** Two tables that differ at most in the period columns of their rows. */
  predicate SameButPeriods(a: map<UserId, SubscriptionRow>, b: map<UserId, SubscriptionRow>) {
    && a.Keys == b.Keys
    && forall u :: u in a ==> a[u].(currentPeriodStart := b[u].currentPeriodStart, currentPeriodEnd := b[u].currentPeriodEnd) == b[u]
  }

  /**
   * A checkout redelivered at a later instant `laterMs` succeeds or fails as the first
   * delivery did and keeps every tier, cycle, status and provider id; only the buyer's
   * period restarts at `laterMs`, with the same length.
   */
  lemma CheckoutRedeliveredLater(subs: map<UserId, SubscriptionRow>, data: EventData, ids: ProductIds, nowMs: int, laterMs: int, writeOk: bool)
    ensures var h := AfterCheckout(subs, data, ids, nowMs, writeOk);
            var h2 := AfterCheckout(h.subscriptions, data, ids, laterMs, writeOk);
            && h2.ok == h.ok
            && SameButPeriods(h2.subscriptions, h.subscriptions)
            && (h.ok ==> var u := data.metadataUserId.value;
                         var cycle := FirstMatch(Entries(ids), CheckoutProductId(data)).value.cycle;
                         && h2.subscriptions[u].currentPeriodStart == Some(laterMs)
                         && h2.subscriptions[u].currentPeriodEnd == Some(laterMs + PeriodDays(cycle) * MS_PER_DAY)
                         && (forall v :: v in h.subscriptions && v != u ==> h2.subscriptions[v] == h.subscriptions[v]))
  {
    var h := AfterCheckout(subs, data, ids, nowMs, writeOk);
    if h.ok {
      var userId := data.metadataUserId.value;
      var plan := FirstMatch(Entries(ids), CheckoutProductId(data)).value;
      var prior := if userId in subs then Some(subs[userId]) else None;
      var row := CheckoutRow(prior, plan, data, nowMs);
      assert h.subscriptions[userId] == row;
      var row2 := CheckoutRow(Some(row), plan, data, laterMs);
      assert row2.(currentPeriodStart := row.currentPeriodStart, currentPeriodEnd := row.currentPeriodEnd) == row;
    }
  }

  /**
   * A redelivery handled at a later instant gives the same response as the first delivery
   * and a table that differs from the first one at most in the period columns.
   */
  lemma RedeliveredLater(subs: map<UserId, SubscriptionRow>, env: WebhookEnv, laterMs: int)
    ensures var once := WebhookOutcome(subs, env);
            var again := WebhookOutcome(once.subscriptions, env.(nowMs := laterMs));
            again.response == once.response && SameButPeriods(again.subscriptions, once.subscriptions)
  {
    var once := WebhookOutcome(subs, env);
    var found := FirstSignature(env.headers, SIGNATURE_HEADERS);
    if found.Some? && VerifyWebhookSignature(found.value.value, env.expected) && env.event.Some? {
      var kind := KindOf(EventTypeOf(env.event.value));
      var data := EventDataOf(env.event.value);
      if kind != Unhandled && data.Some? {
        if kind == CheckoutCompleted {
          CheckoutRedeliveredLater(subs, data.value, env.productIds, env.nowMs, laterMs, env.writeOk);
        } else {
          DispatchIdempotent(subs, kind, data.value, env.productIds, env.nowMs, env.writeOk);
          assert Dispatch(once.subscriptions, kind, data.value, env.productIds, laterMs, env.writeOk)
              == Dispatch(once.subscriptions, kind, data.value, env.productIds, env.nowMs, env.writeOk);
        }
      }
    }
  }
}
