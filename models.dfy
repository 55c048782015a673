/**
 * The records the service stores (agents, the system state row, permissions, audit logs,
 * pending escalations, customers and API keys), the request bodies it accepts, and the
 * field validators that normalise them.
 *
 * Timestamps are integers (the clock is a parameter wherever a record is created).
 */
module Models {
  import opened Common
  import Text

  const ACTIVE := "active"
  const DISABLED := "disabled"
  const ENABLED := "enabled"
  const APPROVED := "approved"
  const DENIED := "denied"
  const PENDING := "pending"
  const RESOLVED := "resolved"
  const HUMAN_INTERVENTION := "human_intervention"
  const SYSTEM_KILL_SWITCH_KEY := "system_kill_switch"

  /** An agent; `status` is "active" or "disabled" when it went through `ValidateStatus`. */
  datatype Agent = Agent(id: string, name: string, owner: string, status: string, createdAt: int)

  /** A row of the `system_state` table, keyed by `key`. */
  datatype SystemState = SystemState(key: string, value: string, updatedAt: int)

  /** A standing rule; `condition` is stored but never evaluated. */
  datatype Permission = Permission(id: string, agentId: string, action: string, resource: string, condition: Option<string>)

  /** An audit record; `result` is "approved"/"denied", or "enabled"/"disabled" for kill-switch events. */
  datatype Log = Log(id: string, agentId: string, action: string, resource: string, result: string, timestamp: int)

  datatype RuleResult = Passed | Failed

  /** One element of a decision trace: `{rule_checked, rule_result, notes}`. */
  datatype TraceEntry = TraceEntry(ruleChecked: string, ruleResult: RuleResult, notes: string)

  /** An escalation waiting for a human; the trace is kept as a structured sequence. */
  datatype PendingRequest = PendingRequest(
    requestId: string, agentId: string, action: string, resource: string, reason: string,
    decisionTrace: seq<TraceEntry>, actionRequired: string, createdAt: int, status: string)

  datatype Customer = Customer(
    id: string, name: string, email: string, subscriptionTier: string, apiKeyHash: string,
    maxAgents: int, maxRequestsPerMinute: int, totalApiCalls: int, isActive: bool,
    createdAt: int, updatedAt: int)

  datatype ApiKey = ApiKey(
    id: string, customerId: string, keyHash: string, name: string, lastUsed: Option<int>,
    isActive: bool, createdAt: int)

  /** A new agent: the status defaults to "active" when none is given. */
  function NewAgent(id: string, name: string, owner: string, status: Option<string>, now: int): (a: Agent)
    ensures a.id == id && a.name == name && a.owner == owner && a.createdAt == now
    ensures status.None? ==> a.status == ACTIVE
    ensures status.Some? ==> a.status == status.value
  {
    Agent(id, name, owner, status.GetOr(ACTIVE), now)
  }

  /** A new escalation record: status "pending" and `action_required` "human_intervention" by default. */
  function NewPendingRequest(
    requestId: string, agentId: string, action: string, resource: string, reason: string,
    trace: seq<TraceEntry>, now: int): (p: PendingRequest)
    ensures p.status == PENDING && p.actionRequired == HUMAN_INTERVENTION
    ensures p.requestId == requestId && p.decisionTrace == trace && p.reason == reason
    ensures p.agentId == agentId && p.action == action && p.resource == resource && p.createdAt == now
  {
    PendingRequest(requestId, agentId, action, resource, reason, trace, HUMAN_INTERVENTION, now, PENDING)
  }

  // ---------------------------------------------------------------------------------------
  // Field validators. A failure carries the message of the `ValueError` the validator raises.
  // ---------------------------------------------------------------------------------------

  /** `Agent.validate_status`: only "active" and "disabled" pass, unchanged. */
  function ValidateStatus(v: string): (r: Result<string, string>)
    ensures r.Success? <==> (v == ACTIVE || v == DISABLED)
    ensures r.Success? ==> r.value == v
  {
    if v == ACTIVE || v == DISABLED then Success(v)
    else Failure("status must be 'active' or 'disabled'")
  }

  /** `validate_not_empty`: a blank value is refused; otherwise the value comes back stripped. */
  function ValidateNotEmpty(v: string): (r: Result<string, string>)
    ensures r.Success? <==> !Text.IsBlank(v)
    ensures r.Success? ==> r.value != [] && !Text.IsSpace(r.value[0]) && !Text.IsSpace(r.value[|r.value| - 1])
    ensures r.Success? ==> |r.value| <= |v|
  {
    var t := Text.Strip(v);
    Text.StripDropsOnlySpace(v);
    if t == [] then Failure("Field cannot be empty or whitespace") else Success(t)
  }

  /** A value that passed `ValidateNotEmpty` passes it again unchanged. */
  lemma ValidateNotEmptyIdempotent(v: string)
    requires ValidateNotEmpty(v).Success?
    ensures ValidateNotEmpty(ValidateNotEmpty(v).value) == ValidateNotEmpty(v)
  {
    Text.StripIdempotent(v);
  }

  /** `Customer.validate_email`: needs an "@"; the value comes back lower-cased and stripped. */
  function ValidateCustomerEmail(v: string): (r: Result<string, string>)
    ensures r.Success? <==> '@' in v
    ensures r.Success? ==> r.value == Text.Lower(Text.Strip(v))
    ensures r.Success? ==> '@' in r.value
    ensures r.Success? ==> forall i :: 0 <= i < |r.value| ==> !('A' <= r.value[i] <= 'Z')
  {
    if '@' !in v then Failure("Invalid email format")
    else
      Text.LowerKeepsAt(v);
      Text.LowerStripCommute(v);
      StripKeepsAt(Text.Lower(v));
      Success(Text.Strip(Text.Lower(v)))
  }

  lemma StripKeepsAt(v: string)
    requires '@' in v
    ensures '@' in Text.Strip(v)
  {
    var i :| 0 <= i < |v| && v[i] == '@';
    Text.StripDropsOnlySpace(v);
    assert !Text.IsSpace('@');
    assert Text.Strip(v)[i - Text.StripStart(v)] == '@';
  }

  const VALID_TIERS: seq<string> := ["free", "starter", "pro", "enterprise"]

  /** `Customer.validate_tier`: only the four tiers pass, unchanged. */
  function ValidateTier(v: string): (r: Result<string, string>)
    ensures r.Success? <==> v in {"free", "starter", "pro", "enterprise"}
    ensures r.Success? ==> r.value == v
  {
    if v in VALID_TIERS then Success(v)
    else Failure("subscription_tier must be one of ['free', 'starter', 'pro', 'enterprise']")
  }

  // ---------------------------------------------------------------------------------------
  // Request bodies. A field's length bounds are checked on the raw value, then its
  // validators run in the order they are declared; any failure is a 422 response.
  // ---------------------------------------------------------------------------------------

  /** A string field with length bounds and `validate_not_empty`. */
  function ValidateTextField(v: string, minLen: nat, maxLen: nat): (r: Result<string, HttpError>)
    ensures r.Success? <==> minLen <= |v| <= maxLen && !Text.IsBlank(v)
    ensures r.Success? ==> r == Success(ValidateNotEmpty(v).value)
    ensures r.Failure? ==> r.error == Unprocessable
  {
    if !(minLen <= |v| <= maxLen) then Failure(Unprocessable)
    else match ValidateNotEmpty(v)
      case Success(t) => Success(t)
      case Failure(_) => Failure(Unprocessable)
  }

  datatype AgentRequestBody = AgentRequestBody(agentId: string, action: string, resource: string)

  /** `AgentRequest`: agent_id 1..255, action 1..100, resource 1..255 characters, none blank; all stored stripped. */
  function ValidateAgentRequest(agentId: string, action: string, resource: string): (r: Result<AgentRequestBody, HttpError>)
    ensures r.Success? <==>
      && 1 <= |agentId| <= 255 && !Text.IsBlank(agentId)
      && 1 <= |action| <= 100 && !Text.IsBlank(action)
      && 1 <= |resource| <= 255 && !Text.IsBlank(resource)
    ensures r.Success? ==>
      && r.value.agentId == Text.Strip(agentId)
      && r.value.action == Text.Strip(action)
      && r.value.resource == Text.Strip(resource)
  {
    match (ValidateTextField(agentId, 1, 255), ValidateTextField(action, 1, 100), ValidateTextField(resource, 1, 255))
    case (Success(a), Success(b), Success(c)) => Success(AgentRequestBody(a, b, c))
    case _ => Failure(Unprocessable)
  }

  datatype HumanDecisionBody = HumanDecisionBody(requestId: string, humanId: string, notes: Option<string>)

  /** `HumanDecisionRequest`: request_id and human_id 1..255 and not blank, stored stripped; notes optional, at most 500. */
  function ValidateHumanDecision(requestId: string, humanId: string, notes: Option<string>): (r: Result<HumanDecisionBody, HttpError>)
    ensures r.Success? <==>
      && 1 <= |requestId| <= 255 && !Text.IsBlank(requestId)
      && 1 <= |humanId| <= 255 && !Text.IsBlank(humanId)
      && (notes.Some? ==> |notes.value| <= 500)
    ensures r.Success? ==>
      && r.value.requestId == Text.Strip(requestId)
      && r.value.humanId == Text.Strip(humanId)
      && r.value.notes == notes
  {
    if notes.Some? && |notes.value| > 500 then Failure(Unprocessable)
    else match (ValidateTextField(requestId, 1, 255), ValidateTextField(humanId, 1, 255))
      case (Success(a), Success(b)) => Success(HumanDecisionBody(a, b, notes))
      case _ => Failure(Unprocessable)
  }

  datatype AgentKillBody = AgentKillBody(agentId: string, owner: string, enabled: bool)

  /** `AgentKillRequest`: agent_id and owner 1..255 and not blank, stored stripped. */
  function ValidateAgentKill(agentId: string, owner: string, enabled: bool): (r: Result<AgentKillBody, HttpError>)
    ensures r.Success? <==>
      && 1 <= |agentId| <= 255 && !Text.IsBlank(agentId)
      && 1 <= |owner| <= 255 && !Text.IsBlank(owner)
    ensures r.Success? ==>
      r.value == AgentKillBody(Text.Strip(agentId), Text.Strip(owner), enabled)
  {
    match (ValidateTextField(agentId, 1, 255), ValidateTextField(owner, 1, 255))
    case (Success(a), Success(b)) => Success(AgentKillBody(a, b, enabled))
    case _ => Failure(Unprocessable)
  }

  datatype CreateCustomerBody = CreateCustomerBody(name: string, email: string, subscriptionTier: string)

  /**
   * `CreateCustomerRequest`: name 1..255, email 5..255 (raw lengths), neither blank; the email is
   * stripped, must contain "@", and is lower-cased; the tier defaults to "starter" and is not checked.
   */
  function ValidateCreateCustomer(name: string, email: string, tier: Option<string>): (r: Result<CreateCustomerBody, HttpError>)
    ensures r.Success? <==>
      && 1 <= |name| <= 255 && !Text.IsBlank(name)
      && 5 <= |email| <= 255 && !Text.IsBlank(email) && '@' in Text.Strip(email)
    ensures r.Success? ==>
      && r.value.name == Text.Strip(name)
      && r.value.email == Text.Lower(Text.Strip(email))
      && '@' in r.value.email
      && r.value.subscriptionTier == tier.GetOr("starter")
  {
    match (ValidateTextField(name, 1, 255), ValidateTextField(email, 5, 255))
    case (Success(n), Success(e)) =>
      if '@' !in e then Failure(Unprocessable)
      else
        Text.LowerKeepsAt(e);
        Success(CreateCustomerBody(n, Text.Lower(e), tier.GetOr("starter")))
    case _ => Failure(Unprocessable)
  }

  /**
   * An email that passed the request validator is unchanged by `Customer.validate_email`,
   * so applying the record's validator after the request's changes nothing.
   */
  lemma CustomerEmailStable(name: string, email: string, tier: Option<string>)
    requires ValidateCreateCustomer(name, email, tier).Success?
    ensures ValidateCustomerEmail(ValidateCreateCustomer(name, email, tier).value.email)
         == Success(ValidateCreateCustomer(name, email, tier).value.email)
  {
    var s := Text.Strip(email);
    var e := Text.Lower(s);
    Text.LowerIdempotent(s);
    Text.LowerStripCommute(s);
    Text.StripIdempotent(email);
    assert Text.Strip(e) == Text.Lower(Text.Strip(s)) == e;
    assert Text.Strip(Text.Lower(e)) == e;
  }
}
