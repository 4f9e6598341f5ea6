/**
 * The checkout side of the payment provider: the lazily created, cached SDK
 * client, the choice of plan id, and the checkout request. The SDK's network
 * calls are not modelled; the request it would receive is the result.
 */
module Freemius {
  import opened Wrappers
  import opened Text

  const MISSING_CREDENTIALS: string := "Missing Freemius credentials."
  const MISSING_PLAN_ID: string := "Missing Freemius plan id."

  datatype PlanKey = Yearly | Lifetime

  /** A configured plan id: JavaScript configuration may hold a number or a string. */
  datatype PlanIdValue = NumberId(n: int) | TextId(s: string)

  /** JavaScript truthiness of a plan id: not 0 and not "". */
  predicate TruthyId(id: PlanIdValue) {
    match id
    case NumberId(n) => n != 0
    case TextId(s) => s != []
  }

  /** `String(planId)`. */
  function IdText(id: PlanIdValue): string {
    match id
    case NumberId(n) => IntToString(n)
    case TextId(s) => s
  }

  /** One entry of the configured `plans` object, in its key order; the entry may be empty. */
  datatype PlanEntry = PlanEntry(key: PlanKey, planId: Option<PlanIdValue>)

  predicate HasTruthyId(e: PlanEntry) {
    e.planId.Some? && TruthyId(e.planId.value)
  }

  datatype FreemiusConfig = FreemiusConfig(
    productId: string, apiKey: string, secretKey: string, publicKey: string,
    plans: seq<PlanEntry>, isSandbox: bool)

  /** `config.freemius?.plans?.[plan]`: the entry configured under `key`. */
  function PlanFor(plans: seq<PlanEntry>, key: PlanKey): (r: Option<PlanEntry>)
    ensures r.Some? ==> r.value in plans && r.value.key == key
    ensures r.None? ==> forall k :: 0 <= k < |plans| ==> plans[k].key != key
  {
    if plans == [] then None
    else if plans[0].key == key then Some(plans[0])
    else PlanFor(plans[1..], key)
  }

  /** `Object.values(plans).find(entry => entry?.planId)`: the first entry with a truthy id. */
  function FirstWithId(plans: seq<PlanEntry>): (r: Option<nat>)
    ensures r.Some? ==> r.value < |plans| && HasTruthyId(plans[r.value])
    ensures r.Some? ==> forall k :: 0 <= k < r.value ==> !HasTruthyId(plans[k])
    ensures r.None? ==> forall k :: 0 <= k < |plans| ==> !HasTruthyId(plans[k])
  {
    if plans == [] then None
    else if HasTruthyId(plans[0]) then Some(0)
    else match FirstWithId(plans[1..])
      case None => None
      case Some(k) => Some(k + 1)
  }

  /**
   * `resolvePlanId`: the requested plan's id when it has a truthy one, else
   * the first truthy id in configuration order, else none.
   */
  function ResolvePlanId(config: Option<FreemiusConfig>, plan: Option<PlanKey>): (r: Option<string>)
    ensures var plans := if config.Some? then config.value.plans else [];
      plan.Some? && PlanFor(plans, plan.value).Some? && HasTruthyId(PlanFor(plans, plan.value).value) ==>
        r == Some(IdText(PlanFor(plans, plan.value).value.planId.value))
    ensures var plans := if config.Some? then config.value.plans else [];
      !(plan.Some? && PlanFor(plans, plan.value).Some? && HasTruthyId(PlanFor(plans, plan.value).value)) ==>
        (r.None? <==> forall k :: 0 <= k < |plans| ==> !HasTruthyId(plans[k]))
    ensures var plans := if config.Some? then config.value.plans else [];
      r.Some? ==> exists k :: 0 <= k < |plans| && HasTruthyId(plans[k]) && r.value == IdText(plans[k].planId.value)
  {
    var plans := if config.Some? then config.value.plans else [];
    var requested := if plan.Some? then PlanFor(plans, plan.value) else None;
    if requested.Some? && HasTruthyId(requested.value) then
      Some(IdText(requested.value.planId.value))
    else match FirstWithId(plans)
      case None => None
      case Some(k) => Some(IdText(plans[k].planId.value))
  }

  /** A plan id is found exactly when some configured plan has a truthy id. */
  lemma PlanIdFoundIffConfigured(config: Option<FreemiusConfig>, plan: Option<PlanKey>)
    ensures var plans := if config.Some? then config.value.plans else [];
      ResolvePlanId(config, plan).Some? <==> exists k :: 0 <= k < |plans| && HasTruthyId(plans[k])
  {
    var plans := if config.Some? then config.value.plans else [];
    if plan.Some? && PlanFor(plans, plan.value).Some? && HasTruthyId(PlanFor(plans, plan.value).value) {
      var e := PlanFor(plans, plan.value).value;
      var k :| 0 <= k < |plans| && plans[k] == e;
      assert HasTruthyId(plans[k]);
    }
  }

  /** The checkout user: none without an e-mail, the name only when it is given. */
  datatype CheckoutUser = CheckoutUser(email: string, name: Option<string>)

  /** `buildCheckoutUser`. */
  function BuildCheckoutUser(email: Option<string>, name: Option<string>): (r: Option<CheckoutUser>)
    ensures r.Some? <==> email.Some? && email.value != []
    ensures r.Some? ==> r.value.email == email.value
    ensures r.Some? ==> (r.value.name.Some? <==> name.Some? && name.value != [])
    ensures r.Some? && r.value.name.Some? ==> r.value.name == name
  {
    if email.None? || email.value == "" then None
    else if name.None? || name.value == "" then Some(CheckoutUser(email.value, None))
    else Some(CheckoutUser(email.value, name))
  }

  /** The SDK client, created from the four credentials. */
  class FreemiusClient {
    const productId: string
    const apiKey: string
    const secretKey: string
    const publicKey: string

    constructor(productId: string, apiKey: string, secretKey: string, publicKey: string)
      ensures this.productId == productId && this.apiKey == apiKey
      ensures this.secretKey == secretKey && this.publicKey == publicKey
    {
      this.productId := productId;
      this.apiKey := apiKey;
      this.secretKey := secretKey;
      this.publicKey := publicKey;
    }
  }

  predicate HasCredentials(config: Option<FreemiusConfig>) {
    config.Some? && config.value.productId != [] && config.value.apiKey != [] &&
    config.value.secretKey != [] && config.value.publicKey != []
  }

  /** The checkout request handed to the SDK. */
  datatype CheckoutRequest = CheckoutRequest(planId: string, isSandbox: bool, user: Option<CheckoutUser>)

  /** The module-level cache of the client. */
  class ClientCache {
    var client: FreemiusClient?

    constructor()
      ensures client == null
    {
      client := null;
    }

    /**
     * `getFreemiusClient`: the cached client when there is one; otherwise a new
     * client from complete credentials, which is cached, or the credentials error.
     */
    method GetClient(config: Option<FreemiusConfig>) returns (r: Result<FreemiusClient, string>)
      modifies this
      ensures old(client) != null ==> r.Ok? && r.value == old(client) && client == old(client)
      ensures old(client) == null && !HasCredentials(config) ==> r == Err(MISSING_CREDENTIALS) && client == null
      ensures old(client) == null && HasCredentials(config) ==>
        r.Ok? && fresh(r.value) && client == r.value &&
        r.value.productId == config.value.productId && r.value.apiKey == config.value.apiKey &&
        r.value.secretKey == config.value.secretKey && r.value.publicKey == config.value.publicKey
    {
      if client != null {
        return Ok(client);
      }
      if !HasCredentials(config) {
        return Err(MISSING_CREDENTIALS);
      }
      var c := config.value;
      client := new FreemiusClient(c.productId, c.apiKey, c.secretKey, c.publicKey);
      r := Ok(client);
    }

    /**
     * `createCheckoutLink` up to the SDK call: the client must be available
     * first, then a plan id must resolve.
     */
    method CreateCheckout(config: Option<FreemiusConfig>, plan: Option<PlanKey>, email: Option<string>, name: Option<string>)
      returns (r: Result<CheckoutRequest, string>)
      modifies this
      ensures old(client) == null && !HasCredentials(config) ==> r == Err(MISSING_CREDENTIALS)
      ensures (old(client) != null || HasCredentials(config)) && ResolvePlanId(config, plan).None? ==> r == Err(MISSING_PLAN_ID)
      ensures r.Ok? ==> (ResolvePlanId(config, plan) == Some(r.value.planId) &&
                         r.value.isSandbox == (config.Some? && config.value.isSandbox) &&
                         r.value.user == BuildCheckoutUser(email, name))
      ensures (old(client) != null || HasCredentials(config)) && ResolvePlanId(config, plan).Some? ==> r.Ok?
      ensures old(client) != null ==> client == old(client)
      ensures client != null <==> old(client) != null || HasCredentials(config)
    {
      var c := GetClient(config);
      if c.Err? {
        return Err(c.error);
      }
      var planId := ResolvePlanId(config, plan);
      if planId.None? {
        return Err(MISSING_PLAN_ID);
      }
      r := Ok(CheckoutRequest(planId.value, config.Some? && config.value.isSandbox, BuildCheckoutUser(email, name)));
    }
  }

  /** Two calls in a row hand out the same client: the first creates it, the second finds it. */
  method ClientIsCreatedOnce(config: FreemiusConfig) returns (first: FreemiusClient, second: FreemiusClient)
    requires HasCredentials(Some(config))
    ensures first == second
  {
    var cache := new ClientCache();
    var r1 := cache.GetClient(Some(config));
    var r2 := cache.GetClient(None);
    first, second := r1.value, r2.value;
  }
}
