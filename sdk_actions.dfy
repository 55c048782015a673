/**
 * The SDK's action runner (`sdk/actions.py`): business logic runs only after the policy service
 * has approved the action, unless the caller explicitly skips the check.
 *
 * The policy service and the executor are oracles. What the service answers, and what the
 * executor does when it is called, are parameters; what the runner does with the outside world
 * is its result `calls`, the sequence of HTTP requests it sends and executor runs it makes.
 */
module SdkActions {
  import opened Common
  import opened SdkClient

  /** The JSON bodies the runner sends. */
  datatype Payload =
    | AgentRequestPayload(agentId: string, action: string, resource: string)
    | KillPayload(agentId: string, owner: string, enabled: bool)

  /** One effect on the outside world. */
  datatype Call = Post(url: string, payload: Payload) | RunExecutor

  /**
   * What `PolicyManager.check_permission` answers: a decision, an SDK error it raised, or another
   * exception, such as the one `model_validate` raises on a response that does not fit the model.
   */
  datatype PolicyReply =
    | Decided(result: string, message: string)
    | PolicyFailed(error: SdkError)
    | PolicyRaisedOther(exception: string)

  /** What leaves the runner: an SDK error, or another exception that passes through unwrapped. */
  datatype Thrown = Sdk(error: SdkError) | Other(exception: string)

  /** What the executor does when called: return a value, or raise. */
  datatype ExecOutcome<V> = Returned(value: V) | RaisedSdkError(error: SdkError) | RaisedOther(exception: string)

  /** `executor_func`: either not callable at all, or a callable with the outcome of calling it. */
  datatype Executor<V> = NotCallable | Callable(outcome: ExecOutcome<V>)

  /** What the service answers to the kill request: the response's message, an SDK error, or another exception. */
  datatype KillReply = KillAnswered(message: string) | KillFailed(error: SdkError) | KillRaisedOther(exception: string)

  /** `PolicyManager`: the policy checks go through the runner's own client. */
  datatype PolicyManager = PolicyManager(client: AgentClient)

  const AGENT_REQUEST_ENDPOINT := "/agent/request"
  const AGENT_KILL_ENDPOINT := "/agent/kill"

  /** The request `check_permission` sends. */
  function PolicyCall(policy: PolicyManager, agentId: string, action: string, resource: string): Call {
    Post(RequestUrl(policy.client.baseUrl, AGENT_REQUEST_ENDPOINT), AgentRequestPayload(agentId, action, resource))
  }

  /** `AgentResponse.is_approved`. */
  predicate IsApproved(reply: PolicyReply) {
    reply.Decided? && reply.result == "approved"
  }

  class ActionRunner {
    const client: AgentClient
    const policy: PolicyManager

    /** `__init__` once a client is present: the policy manager shares the runner's client. */
    constructor (client: AgentClient)
      ensures this.client == client && policy == PolicyManager(client)
    {
      this.client := client;
      this.policy := PolicyManager(client);
    }

    /**
     * `execute`: each empty argument, then a non-callable executor, is refused before anything is
     * sent. Unless skipped, the policy is asked first, and the executor is called exactly once,
     * and only when the policy approved; its value is returned unchanged, an SDK error it raises
     * passes through, and any other exception becomes "Action execution failed". An exception the
     * policy check raises is not caught: it leaves `execute` as it is.
     */
    method Execute<V>(
      agentId: string, action: string, resource: string, executor: Executor<V>,
      skipPolicyCheck: bool, reply: PolicyReply)
      returns (r: Result<V, Thrown>, calls: seq<Call>)
      ensures agentId == "" ==> r == Failure(Sdk(ValidationError("agent_id is required"))) && calls == []
      ensures agentId != "" && action == "" ==> r == Failure(Sdk(ValidationError("action is required"))) && calls == []
      ensures agentId != "" && action != "" && resource == "" ==>
        r == Failure(Sdk(ValidationError("resource is required"))) && calls == []
      ensures agentId != "" && action != "" && resource != "" && executor.NotCallable? ==>
        r == Failure(Sdk(ValidationError("executor_func must be callable"))) && calls == []
      ensures agentId != "" && action != "" && resource != "" && executor.Callable? ==>
        && calls == (if skipPolicyCheck then [] else [PolicyCall(policy, agentId, action, resource)])
                    + (if skipPolicyCheck || IsApproved(reply) then [RunExecutor] else [])
        && (!skipPolicyCheck && reply.PolicyFailed? ==> r == Failure(Sdk(reply.error)))
        && (!skipPolicyCheck && reply.PolicyRaisedOther? ==> r == Failure(Other(reply.exception)))
        && (!skipPolicyCheck && reply.Decided? && !IsApproved(reply) ==>
              r == Failure(Sdk(SdkError(General, "Action denied: " + reply.message, None, None, None))))
        && (skipPolicyCheck || IsApproved(reply) ==> r == ExecutorResult(executor.outcome))
      ensures |calls| <= 2 && multiset(calls)[RunExecutor] <= 1
      ensures r.Success? ==> RunExecutor in calls && executor.Callable? && executor.outcome.Returned?
      ensures r.Failure? && r.error.Other? ==> !skipPolicyCheck && reply.PolicyRaisedOther?
    {
      calls := [];
      if agentId == "" {
        return Failure(Sdk(ValidationError("agent_id is required"))), calls;
      }
      if action == "" {
        return Failure(Sdk(ValidationError("action is required"))), calls;
      }
      if resource == "" {
        return Failure(Sdk(ValidationError("resource is required"))), calls;
      }
      if executor.NotCallable? {
        return Failure(Sdk(ValidationError("executor_func must be callable"))), calls;
      }
      r, calls := Enforce(agentId, action, resource, executor.outcome, skipPolicyCheck, reply);
    }

    /** The policy check unless skipped, then the executor, once and only after an approval. */
    method Enforce<V>(agentId: string, action: string, resource: string, outcome: ExecOutcome<V>,
                      skipPolicyCheck: bool, reply: PolicyReply)
      returns (r: Result<V, Thrown>, calls: seq<Call>)
      ensures calls == (if skipPolicyCheck then [] else [PolicyCall(policy, agentId, action, resource)])
                       + (if skipPolicyCheck || IsApproved(reply) then [RunExecutor] else [])
      ensures !skipPolicyCheck && reply.PolicyFailed? ==> r == Failure(Sdk(reply.error))
      ensures !skipPolicyCheck && reply.PolicyRaisedOther? ==> r == Failure(Other(reply.exception))
      ensures !skipPolicyCheck && reply.Decided? && !IsApproved(reply) ==>
        r == Failure(Sdk(SdkError(General, "Action denied: " + reply.message, None, None, None)))
      ensures skipPolicyCheck || IsApproved(reply) ==> r == ExecutorResult(outcome)
    {
      calls := [];
      if !skipPolicyCheck {
        calls := [PolicyCall(policy, agentId, action, resource)];
        match reply
        case PolicyFailed(e) =>
          return Failure(Sdk(e)), calls;
        case PolicyRaisedOther(x) =>
          return Failure(Other(x)), calls;
        case Decided(_, message) =>
          if !IsApproved(reply) {
            return Failure(Sdk(SdkError(General, "Action denied: " + message, None, None, None))), calls;
          }
      }
      calls := calls + [RunExecutor];
      r := ExecutorResult(outcome);
    }

    /**
     * `kill_agent`: with both an agent id and an owner it sends exactly one kill request, always
     * with `enabled` false, and returns the response's message; otherwise it sends nothing.
     * Whatever the request raises passes through unchanged.
     */
    method KillAgent(agentId: string, owner: string, reply: KillReply)
      returns (r: Result<string, Thrown>, calls: seq<Call>)
      ensures agentId == "" || owner == "" ==>
        r == Failure(Sdk(ValidationError("agent_id and owner are required"))) && calls == []
      ensures agentId != "" && owner != "" ==>
        && calls == [Post(RequestUrl(client.baseUrl, AGENT_KILL_ENDPOINT), KillPayload(agentId, owner, false))]
        && r == (match reply
                 case KillAnswered(m) => Success(m)
                 case KillFailed(e) => Failure(Sdk(e))
                 case KillRaisedOther(x) => Failure(Other(x)))
      ensures forall c :: c in calls ==> c.Post? && c.payload.KillPayload? && !c.payload.enabled
    {
      if agentId == "" || owner == "" {
        return Failure(Sdk(ValidationError("agent_id and owner are required"))), [];
      }
      var payload := KillPayload(agentId, owner, false);
      calls := [Post(RequestUrl(client.baseUrl, AGENT_KILL_ENDPOINT), payload)];
      match reply
      case KillAnswered(m) => r := Success(m);
      case KillFailed(e) => r := Failure(Sdk(e));
      case KillRaisedOther(x) => r := Failure(Other(x));
    }
  }

  /**
   * The `try` block around the executor: its value is returned unchanged, an SDK error passes
   * through, and any other exception becomes "Action execution failed" carrying the original.
   */
  function ExecutorResult<V>(outcome: ExecOutcome<V>): (r: Result<V, Thrown>)
    ensures r.Success? <==> outcome.Returned?
    ensures r.Success? ==> r.value == outcome.value
    ensures outcome.RaisedSdkError? ==> r == Failure(Sdk(outcome.error))
    ensures outcome.RaisedOther? ==>
      r.Failure? && r.error.Sdk? && r.error.error.kind == General
      && r.error.error.message == "Action execution failed"
      && r.error.error.originalError == Some(outcome.exception)
  {
    match outcome
    case Returned(v) => Success(v)
    case RaisedSdkError(e) => Failure(Sdk(e))
    case RaisedOther(x) => Failure(Sdk(SdkError(General, "Action execution failed", None, None, Some(x))))
  }

  /** `ActionRunner(client)`: refused with a validation error when there is no client. */
  method NewActionRunner(client: Option<AgentClient>) returns (r: Result<ActionRunner, SdkError>)
    ensures client.None? ==> r == Failure(ValidationError("AgentClient is required"))
    ensures client.Some? ==> r.Success? && r.value.client == client.value && r.value.policy.client == client.value
  {
    if client.None? {
      return Failure(ValidationError("AgentClient is required"));
    }
    var runner := new ActionRunner(client.value);
    return Success(runner);
  }
}
