/**
 * Customer accounts and their API keys (`routers/customers.py`).
 *
 * Hashing and key generation are parameters: `hash` stands for the SHA-256 hex digest and
 * `token` for the random URL-safe token a raw key is made of. Customer and key ids are fresh
 * values supplied by the caller. Rows are stored without running the record validators.
 */
module CustomersRouter {
  import opened Common
  import opened Models
  import opened Database
  import Text

  /** A tier's quota: how many agents, and how many requests per minute. */
  datatype Limits = Limits(maxAgents: int, maxRequestsPerMinute: int)

  /**
   * The tier table: defined exactly on the four tiers the record validator accepts, each with a
   * per-minute request quota twice its agent quota.
   */
  function TierLimits(tier: string): (l: Option<Limits>)
    ensures l.Some? <==> ValidateTier(tier).Success?
    ensures l.Some? ==> l.value.maxRequestsPerMinute == 2 * l.value.maxAgents
  {
    if tier == "free" then Some(Limits(5, 10))
    else if tier == "starter" then Some(Limits(50, 100))
    else if tier == "pro" then Some(Limits(500, 1000))
    else if tier == "enterprise" then Some(Limits(5000, 10000))
    else None
  }

  const STARTER_LIMITS := Limits(50, 100)

  /**
   * A check on the table's values only: each tier's quota is ten times the one below it. No
   * handler depends on this shape.
   */
  lemma TiersGrowTenfold()
    ensures TierLimits("starter").value.maxAgents == 10 * TierLimits("free").value.maxAgents
    ensures TierLimits("pro").value.maxAgents == 10 * TierLimits("starter").value.maxAgents
    ensures TierLimits("enterprise").value.maxAgents == 10 * TierLimits("pro").value.maxAgents
    ensures TierLimits("starter").value.maxRequestsPerMinute == 10 * TierLimits("free").value.maxRequestsPerMinute
    ensures TierLimits("pro").value.maxRequestsPerMinute == 10 * TierLimits("starter").value.maxRequestsPerMinute
    ensures TierLimits("enterprise").value.maxRequestsPerMinute == 10 * TierLimits("pro").value.maxRequestsPerMinute
  {
  }

  /** A raw API key: "sk-" followed by the token. */
  function RawKey(token: string): (k: string)
    ensures |k| == |token| + 3 && k[..3] == "sk-" && k[3..] == token
  {
    "sk-" + token
  }

  /** An email already on file. */
  predicate EmailTaken(customers: map<string, Customer>, email: string) {
    exists id :: id in customers && customers[id].email == email
  }

  /** The response that hands out a raw key, once. */
  datatype KeyIssued = KeyIssued(apiKey: string, keyId: string, message: string)

  const SAVE_KEY_MESSAGE := "\U{26A0}\U{FE0F}  Save this API key somewhere safe. You won't be able to see it again."

  /**
   * The customer row `register_customer` stores for a valid body: the email lower-cased, the
   * tier as requested, and that tier's quota, or the starter quota for a tier the table lacks.
   */
  function NewCustomer(id: string, body: CreateCustomerBody, keyHash: string, now: int): (c: Customer)
    ensures c.id == id && c.name == body.name && c.subscriptionTier == body.subscriptionTier
    ensures c.email == Text.Lower(body.email)
    ensures c.apiKeyHash == keyHash && c.isActive && c.totalApiCalls == 0
  {
    var limits := TierLimits(body.subscriptionTier).GetOr(STARTER_LIMITS);
    Customer(id, body.name, Text.Lower(body.email), body.subscriptionTier, keyHash,
             limits.maxAgents, limits.maxRequestsPerMinute, 0, true, now, now)
  }

  /** A new customer gets its tier's quota, or the starter quota for a tier outside the table. */
  lemma NewCustomerQuota(id: string, body: CreateCustomerBody, keyHash: string, now: int)
    ensures var c := NewCustomer(id, body, keyHash, now);
      && (ValidateTier(body.subscriptionTier).Success? ==>
            Limits(c.maxAgents, c.maxRequestsPerMinute) == TierLimits(body.subscriptionTier).value)
      && (ValidateTier(body.subscriptionTier).Failure? ==> Limits(c.maxAgents, c.maxRequestsPerMinute) == STARTER_LIMITS)
  {
  }

  /** The stored email of a new customer is exactly the validated request email. */
  lemma NewCustomerEmailIsNormalised(id: string, name: string, email: string, tier: Option<string>, keyHash: string, now: int)
    requires ValidateCreateCustomer(name, email, tier).Success?
    ensures NewCustomer(id, ValidateCreateCustomer(name, email, tier).value, keyHash, now).email
         == Text.Lower(Text.Strip(email))
  {
    Text.LowerIdempotent(Text.Strip(email));
  }

  function RegisteredMessage(id: string): string {
    "\U{2705} Registration successful! Customer ID: " + id + "\n" + SAVE_KEY_MESSAGE
  }

  /**
   * `register_customer` once the body is valid: 409 when the lower-cased email is on file;
   * otherwise one customer is added holding only the hash of the raw key it returns.
   */
  method RegisterValid(db: Tables, req: CreateCustomerBody, token: string, hash: string -> string, newId: string, now: int)
    returns (r: Result<KeyIssued, HttpError>)
    requires db.Valid() && newId !in db.customers
    modifies db`customers
    ensures db.Valid()
    ensures EmailTaken(old(db.customers), Text.Lower(req.email)) ==>
      r == Failure(Conflict) && db.customers == old(db.customers)
    ensures !EmailTaken(old(db.customers), Text.Lower(req.email)) ==>
      && db.customers == old(db.customers)[newId := NewCustomer(newId, req, hash(RawKey(token)), now)]
      && r == Success(KeyIssued(RawKey(token), newId, RegisteredMessage(newId)))
  {
    var apiKey := RawKey(token);
    var keyHash := hash(apiKey);
    if EmailTaken(db.customers, Text.Lower(req.email)) {
      return Failure(Conflict);
    }
    var customer := NewCustomer(newId, req, keyHash, now);
    db.customers := db.customers[newId := customer];
    return Success(KeyIssued(apiKey, customer.id, RegisteredMessage(customer.id)));
  }

  /** `register_customer`: 422 for an invalid body, then as `RegisterValid`. */
  method RegisterCustomer(
    db: Tables, name: string, email: string, tier: Option<string>,
    token: string, hash: string -> string, newId: string, now: int)
    returns (r: Result<KeyIssued, HttpError>)
    requires db.Valid() && newId !in db.customers
    modifies db`customers
    ensures db.Valid()
    ensures ValidateCreateCustomer(name, email, tier).Failure? ==>
      r == Failure(Unprocessable) && db.customers == old(db.customers)
    ensures ValidateCreateCustomer(name, email, tier).Success? ==>
      var req := ValidateCreateCustomer(name, email, tier).value;
      if EmailTaken(old(db.customers), Text.Lower(req.email)) then
        r == Failure(Conflict) && db.customers == old(db.customers)
      else
        && db.customers == old(db.customers)[newId := NewCustomer(newId, req, hash(RawKey(token)), now)]
        && r == Success(KeyIssued(RawKey(token), newId, RegisteredMessage(newId)))
  {
    var v := ValidateCreateCustomer(name, email, tier);
    if v.Failure? {
      return Failure(v.error);
    }
    r := RegisterValid(db, v.value, token, hash, newId, now);
  }

  /** Registration never stores an email twice: a second sign-up with the same address is refused. */
  lemma RegisteredEmailIsTaken(customers: map<string, Customer>, id: string, body: CreateCustomerBody, keyHash: string, now: int)
    ensures EmailTaken(customers[id := NewCustomer(id, body, keyHash, now)], Text.Lower(body.email))
  {
    assert id in customers[id := NewCustomer(id, body, keyHash, now)];
  }

  /** The fields `CustomerResponse` shows. */
  datatype CustomerView = CustomerView(
    id: string, name: string, email: string, subscriptionTier: string, maxAgents: int,
    maxRequestsPerMinute: int, totalApiCalls: int, isActive: bool, createdAt: int)

  function ViewOf(c: Customer): CustomerView {
    CustomerView(c.id, c.name, c.email, c.subscriptionTier, c.maxAgents, c.maxRequestsPerMinute,
                 c.totalApiCalls, c.isActive, c.createdAt)
  }

  /**
   * `upgrade_subscription`: 404 for an unknown customer, 400 for a tier outside the table; otherwise
   * the tier and both quotas are set to that tier's row and nothing else but the update time changes.
   */
  method UpgradeSubscription(db: Tables, customerId: string, newTier: string, now: int)
    returns (r: Result<CustomerView, HttpError>)
    requires db.Valid()
    modifies db`customers
    ensures db.Valid()
    ensures customerId !in old(db.customers) ==> r == Failure(NotFound) && db.customers == old(db.customers)
    ensures customerId in old(db.customers) && TierLimits(newTier).None? ==>
      r == Failure(BadRequest) && db.customers == old(db.customers)
    ensures customerId in old(db.customers) && TierLimits(newTier).Some? ==>
      var c := old(db.customers)[customerId];
      var l := TierLimits(newTier).value;
      var c' := c.(subscriptionTier := newTier, maxAgents := l.maxAgents, maxRequestsPerMinute := l.maxRequestsPerMinute, updatedAt := now);
      db.customers == old(db.customers)[customerId := c'] && r == Success(ViewOf(c'))
  {
    if customerId !in db.customers {
      return Failure(NotFound);
    }
    var customer := db.customers[customerId];
    var limits := TierLimits(newTier);
    if limits.None? {
      return Failure(BadRequest);
    }
    customer := customer.(subscriptionTier := newTier);
    customer := customer.(maxAgents := limits.value.maxAgents);
    customer := customer.(maxRequestsPerMinute := limits.value.maxRequestsPerMinute);
    customer := customer.(updatedAt := now);
    db.customers := db.customers[customerId := customer];
    return Success(ViewOf(customer));
  }

  /**
   * `generate_api_key_endpoint`: 404 for an unknown customer, 403 for an inactive one; otherwise one
   * active key owned by that customer is added, named `key_name` or "API Key", storing only the hash.
   */
  method GenerateApiKey(
    db: Tables, customerId: string, keyName: Option<string>,
    token: string, hash: string -> string, newKeyId: string, now: int)
    returns (r: Result<KeyIssued, HttpError>)
    requires db.Valid() && newKeyId !in db.apiKeys
    modifies db`apiKeys
    ensures db.Valid()
    ensures customerId !in old(db.customers) ==> r == Failure(NotFound) && db.apiKeys == old(db.apiKeys)
    ensures customerId in old(db.customers) && !old(db.customers)[customerId].isActive ==>
      r == Failure(Forbidden) && db.apiKeys == old(db.apiKeys)
    ensures customerId in old(db.customers) && old(db.customers)[customerId].isActive ==>
      var name := if Truthy(keyName) then keyName.value else "API Key";
      && db.apiKeys == old(db.apiKeys)[newKeyId := ApiKey(newKeyId, customerId, hash(RawKey(token)), name, None, true, now)]
      && r == Success(KeyIssued(RawKey(token), newKeyId, SAVE_KEY_MESSAGE))
  {
    if customerId !in db.customers {
      return Failure(NotFound);
    }
    var customer := db.customers[customerId];
    if !customer.isActive {
      return Failure(Forbidden);
    }
    var apiKey := RawKey(token);
    var name := if Truthy(keyName) then keyName.value else "API Key";
    var key := ApiKey(newKeyId, customerId, hash(apiKey), name, None, true, now);
    db.apiKeys := db.apiKeys[newKeyId := key];
    return Success(KeyIssued(apiKey, key.id, SAVE_KEY_MESSAGE));
  }

  /** A key the customer owns. */
  predicate OwnsKey(apiKeys: map<string, ApiKey>, customerId: string, keyId: string) {
    keyId in apiKeys && apiKeys[keyId].customerId == customerId
  }

  /**
   * `revoke_api_key`: 404 unless the customer exists and the key exists and belongs to it; otherwise
   * the key is kept and only its `is_active` becomes false.
   */
  method RevokeApiKey(db: Tables, customerId: string, keyId: string) returns (r: Result<string, HttpError>)
    requires db.Valid()
    modifies db`apiKeys
    ensures db.Valid()
    ensures customerId !in old(db.customers) || !OwnsKey(old(db.apiKeys), customerId, keyId) ==>
      r == Failure(NotFound) && db.apiKeys == old(db.apiKeys)
    ensures customerId in old(db.customers) && OwnsKey(old(db.apiKeys), customerId, keyId) ==>
      && db.apiKeys == old(db.apiKeys)[keyId := old(db.apiKeys)[keyId].(isActive := false)]
      && db.apiKeys.Keys == old(db.apiKeys).Keys
      && r == Success("API key revoked successfully")
  {
    if customerId !in db.customers {
      return Failure(NotFound);
    }
    if keyId !in db.apiKeys || db.apiKeys[keyId].customerId != customerId {
      return Failure(NotFound);
    }
    var key := db.apiKeys[keyId];
    key := key.(isActive := false);
    db.apiKeys := db.apiKeys[keyId := key];
    return Success("API key revoked successfully");
  }

  /** `deactivate_customer`: 404 for an unknown customer; otherwise a soft delete that keeps the row. */
  method DeactivateCustomer(db: Tables, customerId: string, now: int) returns (r: Result<string, HttpError>)
    requires db.Valid()
    modifies db`customers
    ensures db.Valid()
    ensures customerId !in old(db.customers) ==> r == Failure(NotFound) && db.customers == old(db.customers)
    ensures customerId in old(db.customers) ==>
      && db.customers == old(db.customers)[customerId := old(db.customers)[customerId].(isActive := false, updatedAt := now)]
      && db.customers.Keys == old(db.customers).Keys
      && r == Success("Customer account deactivated")
  {
    if customerId !in db.customers {
      return Failure(NotFound);
    }
    var customer := db.customers[customerId];
    customer := customer.(isActive := false, updatedAt := now);
    db.customers := db.customers[customerId := customer];
    return Success("Customer account deactivated");
  }
}
