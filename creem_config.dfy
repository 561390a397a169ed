/**
 * The payment provider's configuration: lib/creem-config.ts. The HMAC-SHA256 digests and the
 * HTTP calls of the client are outside the model; the digests arrive as inputs.
 */
module CreemConfig {
  import opened Wrappers
  import opened Text
  import opened UsageLimits
  import opened PricingConfig

  const DEFAULT_API_URL: string := "https://api.creem.io"

  /** The four product ids read from the environment; an unset variable is `None`. */
  datatype ProductIds = ProductIds(basicMonthly: Option<string>, basicYearly: Option<string>,
                                   proMonthly: Option<string>, proYearly: Option<string>)

  /** The environment variables the configuration is built from. */
  datatype CreemEnv = CreemEnv(apiKey: Option<string>, apiUrl: Option<string>, webhookSecret: Option<string>,
                               appUrl: Option<string>, productIds: ProductIds)

  /** `CREEM_CONFIG`. */
  datatype CreemSettings = CreemSettings(apiKey: Option<string>, apiUrl: string, webhookSecret: Option<string>,
                                         successUrl: string, cancelUrl: string)

  /** How a template literal prints an unset variable. */
  function Interpolate(v: Option<string>): string {
    if v.Some? then v.value else "undefined"
  }

  /** The settings: an unset or empty API URL falls back to the provider's public endpoint. */
  function SettingsOf(env: CreemEnv): (c: CreemSettings)
    ensures c.apiUrl != []
    ensures env.apiUrl.Some? && env.apiUrl.value != [] ==> c.apiUrl == env.apiUrl.value
    ensures env.apiUrl.None? || env.apiUrl.value == [] ==> c.apiUrl == DEFAULT_API_URL
    ensures c.apiKey == env.apiKey && c.webhookSecret == env.webhookSecret
    ensures StartsWith(c.successUrl, Interpolate(env.appUrl)) && StartsWith(c.cancelUrl, Interpolate(env.appUrl))
  {
    CreemSettings(env.apiKey, OrElse(env.apiUrl, Some(DEFAULT_API_URL)).value, env.webhookSecret,
                  Interpolate(env.appUrl) + "/pricing/success", Interpolate(env.appUrl) + "/pricing")
  }

  /** The provider client. Its HTTP methods (checkout, subscription read, cancel) are not modelled. */
  class CreemClient {
    var apiKey: Option<string>
    var apiUrl: string

    /** Each argument that is absent or empty falls back to the configured value. */
    constructor(apiKey: Option<string>, apiUrl: Option<string>, config: CreemSettings)
      ensures this.apiKey == OrElse(apiKey, config.apiKey)
      ensures apiUrl.Some? && apiUrl.value != [] ==> this.apiUrl == apiUrl.value
      ensures apiUrl.None? || apiUrl.value == [] ==> this.apiUrl == config.apiUrl
    {
      this.apiKey := OrElse(apiKey, config.apiKey);
      this.apiUrl := if apiUrl.Some? && apiUrl.value != [] then apiUrl.value else config.apiUrl;
    }
  }

  // ---------------------------------------------------------------- webhook signatures

  /** The HMAC-SHA256 of a payload under the webhook secret, as hex and as base64 text. */
  datatype Digests = Digests(hex: string, base64: string)

  /** The shapes the digest renderings have: 64 hex characters and 44 base64 characters. */
  predicate WellFormedDigests(d: Digests) {
    |d.hex| == 64 && |d.base64| == 44
  }

  const SIGNATURE_PREFIX: string := "sha256="

  /**
   * `verifyWebhookSignature`: the signature is compared with the hex digest, then the
   * base64 digest, then, behind a `sha256=` prefix, with the hex digest again.
   */
  function VerifyWebhookSignature(signature: string, expected: Digests): (ok: bool)
    ensures ok <==> signature == expected.hex || signature == expected.base64 || signature == SIGNATURE_PREFIX + expected.hex
  {
    if signature == expected.hex then true
    else if signature == expected.base64 then true
    else if StartsWith(signature, SIGNATURE_PREFIX) then
      assert signature == SIGNATURE_PREFIX + signature[7..];
      signature[7..] == expected.hex
    else false
  }

  /** The prefix is paired with the hex rendering only: a prefixed base64 digest is refused. */
  lemma PrefixedBase64Rejected(expected: Digests)
    requires WellFormedDigests(expected)
    ensures !VerifyWebhookSignature(SIGNATURE_PREFIX + expected.base64, expected)
  {
    assert |SIGNATURE_PREFIX + expected.base64| == 51;
  }

  // ---------------------------------------------------------------- product ids

  /** The paid tiers a product can sell. */
  type PaidTier = t: Tier | t == Basic || t == Pro witness Basic

  datatype Plan = Plan(tier: PaidTier, cycle: BillingCycle)

  /** The key of a plan in the product table: `${tier}_${billingCycle}`. */
  function KeyOf(p: Plan): string {
    TierName(p.tier) + "_" + CycleName(p.cycle)
  }

  /** A key of the product table splits at its `_` into the plan's tier and cycle names. */
  lemma KeySplits(p: Plan)
    ensures BeforeFirst(KeyOf(p), '_') == TierName(p.tier)
    ensures KeyOf(p)[|TierName(p.tier)| + 1..] == CycleName(p.cycle)
  {
    var k := KeyOf(p);
    var n := |TierName(p.tier)|;
    var b := BeforeFirst(k, '_');
    assert k[n] == '_';
    assert forall i :: 0 <= i < n ==> k[i] != '_';
  }

  /** `CREEM_PRODUCT_IDS[key]`: the configured id of a key, `None` for any other key. */
  function IdForKey(ids: ProductIds, key: string): Option<string> {
    if key == "basic_monthly" then ids.basicMonthly
    else if key == "basic_yearly" then ids.basicYearly
    else if key == "pro_monthly" then ids.proMonthly
    else if key == "pro_yearly" then ids.proYearly
    else None
  }

  datatype ProductEntry = ProductEntry(plan: Plan, id: Option<string>)

  /** `Object.entries(CREEM_PRODUCT_IDS)`, in declaration order. */
  function Entries(ids: ProductIds): (es: seq<ProductEntry>)
    ensures |es| == 4
    ensures forall i :: 0 <= i < |es| ==> es[i].id == IdForKey(ids, KeyOf(es[i].plan))
    ensures forall p: Plan :: es[PlanIndex(p)].plan == p
  {
    [ProductEntry(Plan(Basic, Monthly), ids.basicMonthly), ProductEntry(Plan(Basic, Yearly), ids.basicYearly),
     ProductEntry(Plan(Pro, Monthly), ids.proMonthly), ProductEntry(Plan(Pro, Yearly), ids.proYearly)]
  }

  function PlanIndex(p: Plan): (i: nat)
    ensures i < 4
  {
    (if p.tier == Basic then 0 else 2) + (if p.cycle == Monthly then 0 else 1)
  }

  /**
   * `getCreemProductId`: the configured id of the plan's key; a missing or empty id is an
   * error naming the tier and cycle.
   */
  function GetCreemProductId(ids: ProductIds, tier: PaidTier, cycle: BillingCycle): (r: Result<string, string>)
    ensures var id := IdForKey(ids, KeyOf(Plan(tier, cycle)));
            && (r.Success? <==> id.Some? && id.value != [])
            && (r.Success? ==> id == Some(r.value))
            && (r.Failure? ==> r.error == "Invalid tier or billing cycle: " + TierName(tier) + " " + CycleName(cycle))
  {
    var id := IdForKey(ids, KeyOf(Plan(tier, cycle)));
    if id.None? || id.value == "" then Failure("Invalid tier or billing cycle: " + TierName(tier) + " " + CycleName(cycle))
    else Success(id.value)
  }

  /**
   * The plan of the first entry whose id equals `productId`. Equality is JavaScript's `===`
   * on possibly undefined values: an absent product id equals an unset entry.
   */
  function FirstMatch(es: seq<ProductEntry>, productId: Option<string>): (r: Option<Plan>)
    ensures r.None? <==> forall i :: 0 <= i < |es| ==> es[i].id != productId
    ensures r.Some? ==> es[FirstMatchIndex(es, productId)].plan == r.value
  {
    if es == [] then None
    else if es[0].id == productId then Some(es[0].plan)
    else FirstMatch(es[1..], productId)
  }

  /** Where `FirstMatch` found its entry: the earliest index whose id equals `productId`. */
  function FirstMatchIndex(es: seq<ProductEntry>, productId: Option<string>): (i: nat)
    ensures i <= |es|
    ensures i < |es| ==> es[i].id == productId
    ensures forall j :: 0 <= j < i ==> es[j].id != productId
  {
    if es == [] then 0
    else if es[0].id == productId then 0
    else 1 + FirstMatchIndex(es[1..], productId)
  }

  /**
   * `parseTierFromProductId`: scans the entries in order and returns the plan of the first
   * one whose id equals `productId`, or `None` when no entry does.
   */
  method ParseTierFromProductId(ids: ProductIds, productId: Option<string>) returns (r: Option<Plan>)
    ensures r == FirstMatch(Entries(ids), productId)
  {
    var es := Entries(ids);
    var i := 0;
    while i < |es|
      invariant 0 <= i <= |es|
      invariant FirstMatch(es, productId) == FirstMatch(es[i..], productId)
    {
      if es[i].id == productId {
        return Some(es[i].plan);
      }
      assert es[i..][1..] == es[i + 1..];
      i := i + 1;
    }
    return None;
  }

  /** The configured ids are all set, non-empty and pairwise distinct. */
  predicate DistinctIds(ids: ProductIds) {
    && ids.basicMonthly.Some? && ids.basicYearly.Some? && ids.proMonthly.Some? && ids.proYearly.Some?
    && ids.basicMonthly.value != [] && ids.basicYearly.value != [] && ids.proMonthly.value != [] && ids.proYearly.value != []
    && ids.basicMonthly != ids.basicYearly && ids.basicMonthly != ids.proMonthly && ids.basicMonthly != ids.proYearly
    && ids.basicYearly != ids.proMonthly && ids.basicYearly != ids.proYearly && ids.proMonthly != ids.proYearly
  }

  /** With distinct, configured ids, parsing the product id of a plan gives that plan back. */
  lemma ProductIdRoundTrip(ids: ProductIds, p: Plan)
    requires DistinctIds(ids)
    ensures GetCreemProductId(ids, p.tier, p.cycle).Success?
    ensures FirstMatch(Entries(ids), Some(GetCreemProductId(ids, p.tier, p.cycle).value)) == Some(p)
  {
    var es := Entries(ids);
    var id := Some(GetCreemProductId(ids, p.tier, p.cycle).value);
    assert es[PlanIndex(p)].id == id;
    var i := FirstMatchIndex(es, id);
    assert i <= PlanIndex(p);
    assert es[i].plan == p;
  }

  /**
   * An event without a product id is taken for the first plan whose id is unset, since
   * `undefined === undefined`; with every id set it matches nothing.
   */
  lemma MissingProductId(ids: ProductIds)
    ensures ids.basicMonthly.None? ==> FirstMatch(Entries(ids), None) == Some(Plan(Basic, Monthly))
    ensures DistinctIds(ids) ==> FirstMatch(Entries(ids), None) == None
  {
  }
}
