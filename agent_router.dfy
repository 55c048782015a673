/**
 * The agent authorization pipeline (`routers/agent.py`).
 *
 * A request for (agent, action, resource) passes three ordered gates: the system-wide kill
 * switch, the agent's status, and an exact-match permission lookup. Each gate adds one entry to
 * a decision trace; every terminal path writes an audit log, and kill-switch and system-error
 * denials file an escalation (`PendingRequest`) that a human later approves or denies once.
 *
 * The failures the handler's `except Exception` catches are an explicit parameter: `Faults`
 * names the first database step that raises (if any) and whether the two best-effort writes of
 * the handler raise too. A step that raises has no effect on the tables.
 */
module AgentRouter {
  import opened Common
  import opened Models
  import opened Database

  datatype Verdict = Approved | Denied

  function VerdictText(v: Verdict): string {
    match v
    case Approved => APPROVED
    case Denied => DENIED
  }

  /** The `reason` codes of the responses. */
  datatype Reason =
    | KillSwitchEnabled
    | AgentDisabled
    | PermissionRuleFailed
    | AllChecksPassed
    | SystemError
    | HumanOverride

  function ReasonCode(r: Reason): string {
    match r
    case KillSwitchEnabled => "system_kill_switch_enabled"
    case AgentDisabled => "agent_disabled"
    case PermissionRuleFailed => "permission_rule_failed"
    case AllChecksPassed => "all_checks_passed"
    case SystemError => "system_error"
    case HumanOverride => "human_override"
  }

  /** `AgentRequestResponse`. */
  datatype Decision = Decision(
    verdict: Verdict, message: string, reason: Reason, trace: seq<TraceEntry>, actionRequired: Option<string>)

  // ---------------------------------------------------------------------------------------
  // The two lookups.
  // ---------------------------------------------------------------------------------------

  /** `check_system_kill_switch`: the switch is on only when its row exists and holds exactly "enabled". */
  function CheckSystemKillSwitch(state: map<string, SystemState>): (on: bool)
    ensures SYSTEM_KILL_SWITCH_KEY !in state ==> !on
    ensures SYSTEM_KILL_SWITCH_KEY in state ==> (on <==> state[SYSTEM_KILL_SWITCH_KEY].value == ENABLED)
  {
    SYSTEM_KILL_SWITCH_KEY in state && state[SYSTEM_KILL_SWITCH_KEY].value == ENABLED
  }

  predicate Grants(p: Permission, agentId: string, action: string, resource: string) {
    p.agentId == agentId && p.action == action && p.resource == resource
  }

  /**
   * `check_permission`: the first permission row (in storage order) whose agent, action and
   * resource are all equal; the stored `condition` plays no part.
   */
  function CheckPermission(perms: seq<Permission>, agentId: string, action: string, resource: string): (granted: bool)
    ensures granted <==> exists i :: 0 <= i < |perms| && Grants(perms[i], agentId, action, resource)
  {
    if perms == [] then false
    else if Grants(perms[0], agentId, action, resource) then true
    else
      var rest := CheckPermission(perms[1..], agentId, action, resource);
      assert forall i :: 1 <= i < |perms| ==> perms[i] == perms[1..][i - 1];
      rest
  }

  /** Conditions are never evaluated: two rule sets that differ only in conditions grant the same requests. */
  lemma {:induction false} ConditionIgnored(perms: seq<Permission>, conds: seq<Option<string>>, agentId: string, action: string, resource: string)
    requires |conds| == |perms|
    ensures CheckPermission(seq(|perms|, i requires 0 <= i < |perms| => perms[i].(condition := conds[i])), agentId, action, resource)
         == CheckPermission(perms, agentId, action, resource)
  {
    var q := seq(|perms|, i requires 0 <= i < |perms| => perms[i].(condition := conds[i]));
    if CheckPermission(perms, agentId, action, resource) {
      var i :| 0 <= i < |perms| && Grants(perms[i], agentId, action, resource);
      assert Grants(q[i], agentId, action, resource);
    }
    if CheckPermission(q, agentId, action, resource) {
      var i :| 0 <= i < |q| && Grants(q[i], agentId, action, resource);
      assert Grants(perms[i], agentId, action, resource);
    }
  }

  // ---------------------------------------------------------------------------------------
  // Writes.
  // ---------------------------------------------------------------------------------------

  /** `log_action`: append one audit record. */
  method LogAction(db: Tables, id: string, agentId: string, action: string, resource: string, result: string, now: int)
    requires db.Valid() && LogIdUnused(db.logs, id)
    modifies db`logs
    ensures db.Valid()
    ensures db.logs == old(db.logs) + [Log(id, agentId, action, resource, result, now)]
  {
    db.logs := db.logs + [Log(id, agentId, action, resource, result, now)];
  }

  /** Adding a `PendingRequest` row. */
  method AddPending(db: Tables, p: PendingRequest)
    requires db.Valid() && RequestIdUnused(db.pending, p.requestId)
    modifies db`pending
    ensures db.Valid()
    ensures db.pending == old(db.pending) + [p]
  {
    db.pending := db.pending + [p];
  }

  // ---------------------------------------------------------------------------------------
  // POST /agent/request
  // ---------------------------------------------------------------------------------------

  /** The database steps inside the `try` block that may raise. */
  datatype Step = ReadKillSwitch | ReadAgent | ReadPermission | WriteLog | WritePending

  /**
   * `failAt`: the step that raises (each step occurs at most once on a path), with the text of the
   * exception; `fallbackLogFails`, `fallbackPendingFails`: the handler's own writes raise.
   */
  datatype Faults = Faults(failAt: Option<Step>, error: string, fallbackLogFails: bool, fallbackPendingFails: bool)

  /** The values `utcnow()` and `uuid4()` produce during one request. */
  datatype Fresh = Fresh(now: int, logId: string, fallbackLogId: string, requestId: string, fallbackRequestId: string)

  predicate FreshFor(logs: seq<Log>, pending: seq<PendingRequest>, gen: Fresh) {
    && LogIdUnused(logs, gen.logId) && LogIdUnused(logs, gen.fallbackLogId) && gen.logId != gen.fallbackLogId
    && RequestIdUnused(pending, gen.requestId) && RequestIdUnused(pending, gen.fallbackRequestId)
  }

  /** What the `try` block does: it returns a decision, raises the 404, or raises another exception. */
  datatype Attempt =
    | Returned(decision: Decision, logs: seq<Log>, pending: seq<PendingRequest>)
    | NotFoundRaised
    | ErrorRaised(trace: seq<TraceEntry>, logs: seq<Log>)

  function AttemptLogs(a: Attempt): seq<Log> {
    match a
    case Returned(_, logs, _) => logs
    case NotFoundRaised => []
    case ErrorRaised(_, logs) => logs
  }

  function AttemptPending(a: Attempt): seq<PendingRequest> {
    if a.Returned? then a.pending else []
  }

  function RequestLog(id: string, req: AgentRequestBody, result: Verdict, now: int): Log {
    Log(id, req.agentId, req.action, req.resource, VerdictText(result), now)
  }

  /** The fixed messages of the decisions and responses. */
  const KILL_SWITCH_MESSAGE := "System-wide kill switch is enabled. All agent actions are blocked."
  const SYSTEM_ERROR_MESSAGE := "System error occurred during request processing"
  const KILL_SWITCH_NOTE := "kill switch enabled - all requests blocked"
  const DEFAULT_STATE_MESSAGE := "System kill switch is disabled (default state)"

  const KILL_SWITCH_ON_ENTRY := TraceEntry("kill_switch", Failed, KILL_SWITCH_NOTE)
  const KILL_SWITCH_OFF_ENTRY := TraceEntry("kill_switch", Passed, "kill switch off")
  const AGENT_ACTIVE_ENTRY := TraceEntry("agent_status", Passed, "agent active")

  function AgentDisabledEntry(agentId: string): TraceEntry {
    TraceEntry("agent_status", Failed, "agent " + agentId + " is disabled")
  }

  function PermissionGrantedEntry(action: string, resource: string): TraceEntry {
    TraceEntry("permission_rule", Passed, "permission granted for " + action + " on " + resource)
  }

  function PermissionMissingEntry(action: string, resource: string): TraceEntry {
    TraceEntry("permission_rule", Failed, "no permission for " + action + " on " + resource)
  }

  function SystemErrorEntry(error: string): TraceEntry {
    TraceEntry("system_error", Failed, "system error occurred: " + error)
  }

  /** The `try` block of `agent_request`, over the tables as they were when the request arrived. */
  function TryBlock(
    state: map<string, SystemState>, agents: map<string, Agent>, perms: seq<Permission>,
    req: AgentRequestBody, faults: Faults, gen: Fresh): Attempt
  {
    if faults.failAt == Some(ReadKillSwitch) then ErrorRaised([], [])
    else if CheckSystemKillSwitch(state) then
      var trace := [KILL_SWITCH_ON_ENTRY];
      if faults.failAt == Some(WriteLog) then ErrorRaised(trace, [])
      else if faults.failAt == Some(WritePending) then ErrorRaised(trace, [RequestLog(gen.logId, req, Denied, gen.now)])
      else
        Returned(
          Decision(Denied, KILL_SWITCH_MESSAGE,
                   KillSwitchEnabled, trace, Some(HUMAN_INTERVENTION)),
          [RequestLog(gen.logId, req, Denied, gen.now)],
          [NewPendingRequest(gen.requestId, req.agentId, req.action, req.resource,
                             ReasonCode(KillSwitchEnabled), trace, gen.now)])
    else
      var trace := [KILL_SWITCH_OFF_ENTRY];
      if faults.failAt == Some(ReadAgent) then ErrorRaised(trace, [])
      else if req.agentId !in agents then NotFoundRaised
      else if agents[req.agentId].status == DISABLED then
        var trace := trace + [AgentDisabledEntry(req.agentId)];
        if faults.failAt == Some(WriteLog) then ErrorRaised(trace, [])
        else
          Returned(Decision(Denied, "Agent " + req.agentId + " is disabled", AgentDisabled, trace, None),
                   [RequestLog(gen.logId, req, Denied, gen.now)], [])
      else
        var trace := trace + [AGENT_ACTIVE_ENTRY];
        if faults.failAt == Some(ReadPermission) then ErrorRaised(trace, [])
        else if CheckPermission(perms, req.agentId, req.action, req.resource) then
          var trace := trace + [PermissionGrantedEntry(req.action, req.resource)];
          if faults.failAt == Some(WriteLog) then ErrorRaised(trace, [])
          else
            Returned(Decision(Approved, "Permission granted for " + req.action + " on " + req.resource,
                              AllChecksPassed, trace, None),
                     [RequestLog(gen.logId, req, Approved, gen.now)], [])
        else
          var trace := trace + [PermissionMissingEntry(req.action, req.resource)];
          if faults.failAt == Some(WriteLog) then ErrorRaised(trace, [])
          else
            Returned(Decision(Denied, "No permission for " + req.action + " on " + req.resource,
                              PermissionRuleFailed, trace, None),
                     [RequestLog(gen.logId, req, Denied, gen.now)], [])
  }

  /** A decision together with the audit logs and escalations it appended. */
  datatype Outcome = Outcome(decision: Decision, logs: seq<Log>, pending: seq<PendingRequest>)

  /**
   * `agent_request` after the body validated: the `try` block, the 404 it re-raises, and the
   * fail-safe handler that turns every other exception into a `system_error` denial with
   * best-effort log and escalation.
   */
  function HandleRequest(
    state: map<string, SystemState>, agents: map<string, Agent>, perms: seq<Permission>,
    req: AgentRequestBody, faults: Faults, gen: Fresh): Result<Outcome, HttpError>
  {
    match TryBlock(state, agents, perms, req, faults, gen)
    case Returned(d, logs, pending) => Success(Outcome(d, logs, pending))
    case NotFoundRaised => Failure(NotFound)
    case ErrorRaised(trace, logs) =>
      var o := FallbackOutcome(req, faults, gen, trace);
      Success(Outcome(o.decision, logs + o.logs, o.pending))
  }

  /**
   * The `except` handler: the trace gains a `system_error` entry, and a denial asking for human
   * intervention is returned; its log and its pending row are each written unless that write fails.
   */
  function FallbackOutcome(req: AgentRequestBody, faults: Faults, gen: Fresh, trace: seq<TraceEntry>): Outcome {
    var trace := trace + [SystemErrorEntry(faults.error)];
    var logs := if faults.fallbackLogFails then [] else [RequestLog(gen.fallbackLogId, req, Denied, gen.now)];
    var pending := if faults.fallbackPendingFails then [] else
      [NewPendingRequest(gen.fallbackRequestId, req.agentId, req.action, req.resource,
                         ReasonCode(SystemError), trace, gen.now)];
    Outcome(Decision(Denied, SYSTEM_ERROR_MESSAGE, SystemError, trace, Some(HUMAN_INTERVENTION)), logs, pending)
  }

  /** The whole endpoint: a body that fails validation is a 422 before anything is read. */
  function AgentRequestSpec(
    state: map<string, SystemState>, agents: map<string, Agent>, perms: seq<Permission>,
    agentId: string, action: string, resource: string, faults: Faults, gen: Fresh): Result<Outcome, HttpError>
  {
    match ValidateAgentRequest(agentId, action, resource)
    case Failure(e) => Failure(e)
    case Success(req) => HandleRequest(state, agents, perms, req, faults, gen)
  }

  /** The end of a path through the gates: the decision's audit log is written, unless that write raises. */
  method Conclude(db: Tables, req: AgentRequestBody, faults: Faults, gen: Fresh, d: Decision) returns (a: Attempt)
    requires db.Valid() && LogIdUnused(db.logs, gen.logId)
    modifies db`logs
    ensures db.Valid()
    ensures faults.failAt == Some(WriteLog) ==> a == ErrorRaised(d.trace, []) && db.logs == old(db.logs)
    ensures faults.failAt != Some(WriteLog) ==>
      && a == Returned(d, [RequestLog(gen.logId, req, d.verdict, gen.now)], [])
      && db.logs == old(db.logs) + [RequestLog(gen.logId, req, d.verdict, gen.now)]
  {
    if faults.failAt == Some(WriteLog) {
      return ErrorRaised(d.trace, []);
    }
    LogAction(db, gen.logId, req.agentId, req.action, req.resource, VerdictText(d.verdict), gen.now);
    return Returned(d, [RequestLog(gen.logId, req, d.verdict, gen.now)], []);
  }

  /** The kill-switch gate failed: a denied log, then an escalation, each of which may raise. */
  method KillSwitchOn(db: Tables, req: AgentRequestBody, faults: Faults, gen: Fresh) returns (a: Attempt)
    requires db.Valid() && FreshFor(db.logs, db.pending, gen)
    requires faults.failAt != Some(ReadKillSwitch) && CheckSystemKillSwitch(db.systemState)
    modifies db`logs, db`pending
    ensures db.Valid()
    ensures a == TryBlock(old(db.systemState), old(db.agents), old(db.permissions), req, faults, gen)
    ensures db.logs == old(db.logs) + AttemptLogs(a)
    ensures db.pending == old(db.pending) + AttemptPending(a)
  {
    var trace := [KILL_SWITCH_ON_ENTRY];
    if faults.failAt == Some(WriteLog) {
      return ErrorRaised(trace, []);
    }
    var log := RequestLog(gen.logId, req, Denied, gen.now);
    LogAction(db, gen.logId, req.agentId, req.action, req.resource, DENIED, gen.now);
    if faults.failAt == Some(WritePending) {
      return ErrorRaised(trace, [log]);
    }
    var escalation := NewPendingRequest(gen.requestId, req.agentId, req.action, req.resource,
                                        ReasonCode(KillSwitchEnabled), trace, gen.now);
    AddPending(db, escalation);
    var d := Decision(Denied, KILL_SWITCH_MESSAGE,
                      KillSwitchEnabled, trace, Some(HUMAN_INTERVENTION));
    return Returned(d, [log], [escalation]);
  }

  /** The `try` block, step by step: the trace grows by one entry per gate passed or failed. */
  method TryChecks(db: Tables, req: AgentRequestBody, faults: Faults, gen: Fresh) returns (a: Attempt)
    requires db.Valid() && FreshFor(db.logs, db.pending, gen)
    modifies db`logs, db`pending
    ensures db.Valid()
    ensures a == TryBlock(old(db.systemState), old(db.agents), old(db.permissions), req, faults, gen)
    ensures db.logs == old(db.logs) + AttemptLogs(a)
    ensures db.pending == old(db.pending) + AttemptPending(a)
  {
    var trace: seq<TraceEntry> := [];
    if faults.failAt == Some(ReadKillSwitch) {
      return ErrorRaised(trace, []);
    }
    if CheckSystemKillSwitch(db.systemState) {
      a := KillSwitchOn(db, req, faults, gen);
      return;
    }
    trace := trace + [KILL_SWITCH_OFF_ENTRY];
    if faults.failAt == Some(ReadAgent) {
      return ErrorRaised(trace, []);
    }
    if req.agentId !in db.agents {
      return NotFoundRaised;
    }
    var agent := db.agents[req.agentId];
    if agent.status == DISABLED {
      trace := trace + [AgentDisabledEntry(req.agentId)];
      var d := Decision(Denied, "Agent " + req.agentId + " is disabled", AgentDisabled, trace, None);
      a := Conclude(db, req, faults, gen, d);
      return;
    }
    trace := trace + [AGENT_ACTIVE_ENTRY];
    if faults.failAt == Some(ReadPermission) {
      return ErrorRaised(trace, []);
    }
    if CheckPermission(db.permissions, req.agentId, req.action, req.resource) {
      trace := trace + [PermissionGrantedEntry(req.action, req.resource)];
      var d := Decision(Approved, "Permission granted for " + req.action + " on " + req.resource,
                        AllChecksPassed, trace, None);
      a := Conclude(db, req, faults, gen, d);
      return;
    }
    trace := trace + [PermissionMissingEntry(req.action, req.resource)];
    var d := Decision(Denied, "No permission for " + req.action + " on " + req.resource,
                      PermissionRuleFailed, trace, None);
    a := Conclude(db, req, faults, gen, d);
  }

  /** `agent_request` once the body is valid: the `try` block and its two `except` clauses. */
  method HandleValidRequest(db: Tables, req: AgentRequestBody, faults: Faults, gen: Fresh)
    returns (r: Result<Decision, HttpError>)
    requires db.Valid() && FreshFor(db.logs, db.pending, gen)
    modifies db`logs, db`pending
    ensures db.Valid()
    ensures var spec := HandleRequest(old(db.systemState), old(db.agents), old(db.permissions), req, faults, gen);
      if spec.Success? then
        r == Success(spec.value.decision)
        && db.logs == old(db.logs) + spec.value.logs
        && db.pending == old(db.pending) + spec.value.pending
      else
        r == Failure(spec.error) && db.logs == old(db.logs) && db.pending == old(db.pending)
  {
    var a := TryChecks(db, req, faults, gen);
    match a
    case Returned(d, _, _) =>
      r := Success(d);
    case NotFoundRaised =>
      r := Failure(NotFound);
    case ErrorRaised(trace, written) =>
      assert db.logs == old(db.logs) + written;
      var d := Fallback(db, req, faults, gen, trace);
      r := Success(d);
  }

  /** The `except` handler of `agent_request`, as `FallbackOutcome` describes it. */
  method Fallback(db: Tables, req: AgentRequestBody, faults: Faults, gen: Fresh, trace: seq<TraceEntry>)
    returns (d: Decision)
    requires db.Valid() && LogIdUnused(db.logs, gen.fallbackLogId) && RequestIdUnused(db.pending, gen.fallbackRequestId)
    modifies db`logs, db`pending
    ensures db.Valid()
    ensures var o := FallbackOutcome(req, faults, gen, trace);
      d == o.decision && db.logs == old(db.logs) + o.logs && db.pending == old(db.pending) + o.pending
  {
    var trace := trace + [SystemErrorEntry(faults.error)];
    if !faults.fallbackLogFails {
      LogAction(db, gen.fallbackLogId, req.agentId, req.action, req.resource, DENIED, gen.now);
    }
    if !faults.fallbackPendingFails {
      AddPending(db, NewPendingRequest(gen.fallbackRequestId, req.agentId, req.action, req.resource,
                                       ReasonCode(SystemError), trace, gen.now));
    }
    d := Decision(Denied, SYSTEM_ERROR_MESSAGE, SystemError, trace, Some(HUMAN_INTERVENTION));
  }

  /** `agent_request`: a body that fails validation is a 422 before anything is read or written. */
  method AgentRequest(db: Tables, agentId: string, action: string, resource: string, faults: Faults, gen: Fresh)
    returns (r: Result<Decision, HttpError>)
    requires db.Valid() && FreshFor(db.logs, db.pending, gen)
    modifies db`logs, db`pending
    ensures db.Valid()
    ensures var spec := AgentRequestSpec(old(db.systemState), old(db.agents), old(db.permissions),
                                         agentId, action, resource, faults, gen);
      if spec.Success? then
        r == Success(spec.value.decision)
        && db.logs == old(db.logs) + spec.value.logs
        && db.pending == old(db.pending) + spec.value.pending
      else
        r == Failure(spec.error) && db.logs == old(db.logs) && db.pending == old(db.pending)
  {
    var body := ValidateAgentRequest(agentId, action, resource);
    if body.Failure? {
      return Failure(body.error);
    }
    r := HandleValidRequest(db, body.value, faults, gen);
  }

  // ---------------------------------------------------------------------------------------
  // Properties of a request.
  // ---------------------------------------------------------------------------------------

  /**
   * With the kill switch on and nothing failing, every request is denied with reason
   * `system_kill_switch_enabled` and a single failed `kill_switch` trace entry; one denied log is
   * written and one pending escalation is filed.
   */
  lemma KillSwitchDeniesEverything(
    state: map<string, SystemState>, agents: map<string, Agent>, perms: seq<Permission>,
    req: AgentRequestBody, faults: Faults, gen: Fresh)
    requires CheckSystemKillSwitch(state) && faults.failAt.None?
    ensures var r := HandleRequest(state, agents, perms, req, faults, gen);
      && r.Success?
      && r.value.decision.verdict == Denied
      && r.value.decision.reason == KillSwitchEnabled
      && r.value.decision.actionRequired == Some(HUMAN_INTERVENTION)
      && r.value.decision.trace == [TraceEntry("kill_switch", Failed, KILL_SWITCH_NOTE)]
      && r.value.logs == [Log(gen.logId, req.agentId, req.action, req.resource, DENIED, gen.now)]
      && |r.value.pending| == 1
      && r.value.pending[0].requestId == gen.requestId
      && r.value.pending[0].status == PENDING
      && r.value.pending[0].actionRequired == HUMAN_INTERVENTION
      && r.value.pending[0].reason == "system_kill_switch_enabled"
  {
  }

  /**
   * The kill switch is consulted before the agent and permission tables: while it is on, the
   * outcome does not depend on them at all (unknown and disabled agents included), whatever fails.
   */
  lemma KillSwitchPrecedesAgentChecks(
    state: map<string, SystemState>, agents1: map<string, Agent>, perms1: seq<Permission>,
    agents2: map<string, Agent>, perms2: seq<Permission>, req: AgentRequestBody, faults: Faults, gen: Fresh)
    requires CheckSystemKillSwitch(state)
    ensures HandleRequest(state, agents1, perms1, req, faults, gen) == HandleRequest(state, agents2, perms2, req, faults, gen)
  {
  }

  /** A missing kill-switch row reads the same as one holding "disabled". */
  lemma MissingSwitchReadsOff(state: map<string, SystemState>, now: int)
    requires SYSTEM_KILL_SWITCH_KEY !in state
    ensures !CheckSystemKillSwitch(state)
    ensures CheckSystemKillSwitch(state) == CheckSystemKillSwitch(state[SYSTEM_KILL_SWITCH_KEY := SystemState(SYSTEM_KILL_SWITCH_KEY, DISABLED, now)])
  {
  }

  /** With the switch off, an unknown agent is a 404 rather than a decision; nothing is written. */
  lemma UnknownAgentNotFound(
    state: map<string, SystemState>, agents: map<string, Agent>, perms: seq<Permission>,
    req: AgentRequestBody, faults: Faults, gen: Fresh)
    requires !CheckSystemKillSwitch(state) && req.agentId !in agents
    requires faults.failAt != Some(ReadKillSwitch) && faults.failAt != Some(ReadAgent)
    ensures HandleRequest(state, agents, perms, req, faults, gen) == Failure(NotFound)
    ensures TryBlock(state, agents, perms, req, faults, gen) == NotFoundRaised
  {
  }

  /**
   * A disabled agent, switch off and nothing failing: denied with reason `agent_disabled` and the
   * trace [kill_switch passed, agent_status failed], one denied log and no escalation, even when
   * a permission would grant the request.
   */
  lemma DisabledAgentDenied(
    state: map<string, SystemState>, agents: map<string, Agent>, perms: seq<Permission>,
    req: AgentRequestBody, faults: Faults, gen: Fresh)
    requires !CheckSystemKillSwitch(state) && req.agentId in agents && agents[req.agentId].status == DISABLED
    requires faults.failAt.None?
    ensures var r := HandleRequest(state, agents, perms, req, faults, gen);
      && r.Success?
      && r.value.decision.verdict == Denied
      && r.value.decision.reason == AgentDisabled
      && r.value.decision.actionRequired.None?
      && |r.value.decision.trace| == 2
      && r.value.decision.trace[0] == TraceEntry("kill_switch", Passed, "kill switch off")
      && r.value.decision.trace[1].ruleChecked == "agent_status"
      && r.value.decision.trace[1].ruleResult == Failed
      && r.value.logs == [Log(gen.logId, req.agentId, req.action, req.resource, DENIED, gen.now)]
      && r.value.pending == []
  {
  }

  /**
   * Without faults, a request about a known agent is approved exactly when the switch is off, the
   * agent is not disabled and some permission row matches agent, action and resource exactly.
   * An approval carries `all_checks_passed` and three passed entries; a denial at the last gate
   * carries `permission_rule_failed` and ends with a failed `permission_rule` entry.
   */
  lemma ApprovedIffAllGatesPass(
    state: map<string, SystemState>, agents: map<string, Agent>, perms: seq<Permission>,
    req: AgentRequestBody, faults: Faults, gen: Fresh)
    requires req.agentId in agents && faults.failAt.None?
    ensures var r := HandleRequest(state, agents, perms, req, faults, gen);
      && r.Success?
      && (r.value.decision.verdict == Approved <==>
            && !CheckSystemKillSwitch(state)
            && agents[req.agentId].status != DISABLED
            && exists i :: 0 <= i < |perms| && Grants(perms[i], req.agentId, req.action, req.resource))
      && (r.value.decision.verdict == Approved ==>
            && r.value.decision.reason == AllChecksPassed
            && |r.value.decision.trace| == 3
            && (forall k :: 0 <= k < 3 ==> r.value.decision.trace[k].ruleResult == Passed)
            && r.value.logs == [Log(gen.logId, req.agentId, req.action, req.resource, APPROVED, gen.now)])
      && (!CheckSystemKillSwitch(state) && agents[req.agentId].status != DISABLED && r.value.decision.verdict == Denied ==>
            && r.value.decision.reason == PermissionRuleFailed
            && |r.value.decision.trace| == 3
            && r.value.decision.trace[2] == TraceEntry("permission_rule", Failed, "no permission for " + req.action + " on " + req.resource)
            && r.value.logs == [Log(gen.logId, req.agentId, req.action, req.resource, DENIED, gen.now)])
  {
  }

  /**
   * Fail-safe: an approval, whatever the faults, means every gate passed and no step on the
   * approval path raised.
   */
  lemma ApprovalOnlyThroughEveryGate(
    state: map<string, SystemState>, agents: map<string, Agent>, perms: seq<Permission>,
    req: AgentRequestBody, faults: Faults, gen: Fresh)
    requires HandleRequest(state, agents, perms, req, faults, gen).Success?
    requires HandleRequest(state, agents, perms, req, faults, gen).value.decision.verdict == Approved
    ensures !CheckSystemKillSwitch(state)
    ensures req.agentId in agents && agents[req.agentId].status != DISABLED
    ensures CheckPermission(perms, req.agentId, req.action, req.resource)
    ensures faults.failAt != Some(ReadKillSwitch) && faults.failAt != Some(ReadAgent)
    ensures faults.failAt != Some(ReadPermission) && faults.failAt != Some(WriteLog)
  {
  }

  /**
   * A fault raised by any step that the path reaches turns into a `system_error` denial that asks
   * for human intervention and whose trace ends with the failed `system_error` entry.
   */
  lemma FaultsBecomeDenials(
    state: map<string, SystemState>, agents: map<string, Agent>, perms: seq<Permission>,
    req: AgentRequestBody, faults: Faults, gen: Fresh)
    requires
      || faults.failAt == Some(ReadKillSwitch)
      || (faults.failAt == Some(ReadAgent) && !CheckSystemKillSwitch(state))
      || (faults.failAt == Some(WritePending) && CheckSystemKillSwitch(state))
      || (faults.failAt == Some(WriteLog) && (CheckSystemKillSwitch(state) || req.agentId in agents))
      || (faults.failAt == Some(ReadPermission) && !CheckSystemKillSwitch(state)
          && req.agentId in agents && agents[req.agentId].status != DISABLED)
    ensures var r := HandleRequest(state, agents, perms, req, faults, gen);
      && r.Success?
      && r.value.decision.verdict == Denied
      && r.value.decision.reason == SystemError
      && r.value.decision.actionRequired == Some(HUMAN_INTERVENTION)
      && r.value.decision.message == SYSTEM_ERROR_MESSAGE
      && |r.value.decision.trace| >= 1
      && r.value.decision.trace[|r.value.decision.trace| - 1] == TraceEntry("system_error", Failed, "system error occurred: " + faults.error)
  {
  }

  /** The best-effort writes of the handler never change the returned decision. */
  lemma BestEffortWritesKeepDecision(
    state: map<string, SystemState>, agents: map<string, Agent>, perms: seq<Permission>,
    req: AgentRequestBody, f1: Faults, f2: Faults, gen: Fresh)
    requires f1.failAt == f2.failAt && f1.error == f2.error
    ensures HandleRequest(state, agents, perms, req, f1, gen).Success? == HandleRequest(state, agents, perms, req, f2, gen).Success?
    ensures HandleRequest(state, agents, perms, req, f1, gen).Success? ==>
      HandleRequest(state, agents, perms, req, f1, gen).value.decision == HandleRequest(state, agents, perms, req, f2, gen).value.decision
  {
  }

  /**
   * The audit trail agrees with the answer: every log a request writes is about that request and
   * records the returned verdict. A fault-free path writes exactly one log; no path writes more than two.
   */
  lemma LogsRecordTheVerdict(
    state: map<string, SystemState>, agents: map<string, Agent>, perms: seq<Permission>,
    req: AgentRequestBody, faults: Faults, gen: Fresh)
    requires HandleRequest(state, agents, perms, req, faults, gen).Success?
    ensures var o := HandleRequest(state, agents, perms, req, faults, gen).value;
      && (forall k :: 0 <= k < |o.logs| ==>
            && o.logs[k].result == VerdictText(o.decision.verdict)
            && o.logs[k].agentId == req.agentId && o.logs[k].action == req.action && o.logs[k].resource == req.resource)
      && 1 <= |o.logs| + (if faults.fallbackLogFails then 1 else 0)
      && |o.logs| <= 2
      && (faults.failAt.None? ==> |o.logs| == 1)
  {
    TryBlockLogs(state, agents, perms, req, faults, gen);
  }

  /** The `try` block writes at most the one log of its path, recording that path's verdict. */
  lemma TryBlockLogs(
    state: map<string, SystemState>, agents: map<string, Agent>, perms: seq<Permission>,
    req: AgentRequestBody, faults: Faults, gen: Fresh)
    ensures var a := TryBlock(state, agents, perms, req, faults, gen);
      && (a.Returned? ==> a.logs == [RequestLog(gen.logId, req, a.decision.verdict, gen.now)])
      && (a.ErrorRaised? ==> a.logs == [] || a.logs == [RequestLog(gen.logId, req, Denied, gen.now)])
  {
  }

  /**
   * Escalations are filed only for kill-switch and system-error denials, at most one per request,
   * pending and carrying the reason and the trace of the returned decision.
   */
  lemma EscalationOnlyWhenBlocked(
    state: map<string, SystemState>, agents: map<string, Agent>, perms: seq<Permission>,
    req: AgentRequestBody, faults: Faults, gen: Fresh)
    requires HandleRequest(state, agents, perms, req, faults, gen).Success?
    ensures var o := HandleRequest(state, agents, perms, req, faults, gen).value;
      && |o.pending| <= 1
      && (|o.pending| == 1 ==>
            && (o.decision.reason == KillSwitchEnabled || o.decision.reason == SystemError)
            && o.pending[0].status == PENDING
            && o.pending[0].actionRequired == HUMAN_INTERVENTION
            && o.pending[0].reason == ReasonCode(o.decision.reason)
            && o.pending[0].decisionTrace == o.decision.trace
            && o.pending[0].agentId == req.agentId)
      && ((o.decision.reason == KillSwitchEnabled || (o.decision.reason == SystemError && !faults.fallbackPendingFails)) ==> |o.pending| == 1)
  {
  }

  // ---------------------------------------------------------------------------------------
  // POST /agent/kill
  // ---------------------------------------------------------------------------------------

  datatype KillResponse = KillResponse(result: string, message: string)

  /**
   * `agent_kill`: only the agent's owner may switch it; enabling sets "active", disabling sets
   * "disabled", and the change is logged as action "kill" on resource "agent".
   */
  method AgentKill(db: Tables, agentId: string, owner: string, enabled: bool, logId: string, now: int)
    returns (r: Result<KillResponse, HttpError>)
    requires db.Valid() && LogIdUnused(db.logs, logId)
    modifies db`agents, db`logs
    ensures db.Valid()
    ensures var body := ValidateAgentKill(agentId, owner, enabled);
      if body.Failure? then
        r == Failure(Unprocessable) && db.agents == old(db.agents) && db.logs == old(db.logs)
      else if body.value.agentId !in old(db.agents) then
        r == Failure(NotFound) && db.agents == old(db.agents) && db.logs == old(db.logs)
      else if old(db.agents)[body.value.agentId].owner != body.value.owner then
        r == Failure(Forbidden) && db.agents == old(db.agents) && db.logs == old(db.logs)
      else
        var id := body.value.agentId;
        var word := if enabled then ENABLED else DISABLED;
        && db.agents == old(db.agents)[id := old(db.agents)[id].(status := if enabled then ACTIVE else DISABLED)]
        && db.logs == old(db.logs) + [Log(logId, id, "kill", "agent", word, now)]
        && r == Success(KillResponse(word, "Agent " + id + " has been " + word + " by owner " + body.value.owner))
  {
    var v := ValidateAgentKill(agentId, owner, enabled);
    if v.Failure? {
      return Failure(v.error);
    }
    var req := v.value;
    if req.agentId !in db.agents {
      return Failure(NotFound);
    }
    var agent := db.agents[req.agentId];
    if agent.owner != req.owner {
      return Failure(Forbidden);
    }
    var resultStatus: string;
    if req.enabled {
      agent := agent.(status := ACTIVE);
      resultStatus := ENABLED;
    } else {
      agent := agent.(status := DISABLED);
      resultStatus := DISABLED;
    }
    db.agents := db.agents[req.agentId := agent];
    LogAction(db, logId, req.agentId, "kill", "agent", resultStatus, now);
    return Success(KillResponse(resultStatus, "Agent " + req.agentId + " has been " + resultStatus + " by owner " + req.owner));
  }

  // ---------------------------------------------------------------------------------------
  // The system-wide kill switch endpoints.
  // ---------------------------------------------------------------------------------------

  datatype KillSwitchResponse = KillSwitchResponse(status: string, message: string)

  /** `get_system_kill_switch`: a missing row reports "disabled"; otherwise the stored value. */
  function GetSystemKillSwitch(state: map<string, SystemState>): (r: KillSwitchResponse)
    ensures SYSTEM_KILL_SWITCH_KEY !in state ==> r.status == DISABLED
    ensures SYSTEM_KILL_SWITCH_KEY in state ==> r.status == state[SYSTEM_KILL_SWITCH_KEY].value
  {
    if SYSTEM_KILL_SWITCH_KEY !in state then
      KillSwitchResponse(DISABLED, DEFAULT_STATE_MESSAGE)
    else
      var status := state[SYSTEM_KILL_SWITCH_KEY].value;
      KillSwitchResponse(status, "System kill switch is " + status + ". All agent requests are "
                                 + (if status == ENABLED then "denied" else "processed normally") + ".")
  }

  /** What the GET endpoint reports agrees with what the request pipeline enforces. */
  lemma ReportedStatusIsEnforced(state: map<string, SystemState>)
    ensures CheckSystemKillSwitch(state) <==> GetSystemKillSwitch(state).status == ENABLED
  {
  }

  /**
   * `set_system_kill_switch`: upsert the single row under its key, then log the change as agent
   * "system", action "system_kill_switch", resource "system".
   */
  method SetSystemKillSwitch(db: Tables, enabled: bool, logId: string, now: int) returns (r: KillSwitchResponse)
    requires db.Valid() && LogIdUnused(db.logs, logId)
    modifies db`systemState, db`logs
    ensures db.Valid()
    ensures var status := if enabled then ENABLED else DISABLED;
      && db.systemState == old(db.systemState)[SYSTEM_KILL_SWITCH_KEY := SystemState(SYSTEM_KILL_SWITCH_KEY, status, now)]
      && db.logs == old(db.logs) + [Log(logId, "system", "system_kill_switch", "system", status, now)]
      && r.status == status
      && r.message == "System kill switch has been " + status + ". All agent requests will be "
                      + (if enabled then "denied" else "processed normally") + "."
    ensures CheckSystemKillSwitch(db.systemState) == enabled
    ensures GetSystemKillSwitch(db.systemState).status == r.status
  {
    var status := if enabled then ENABLED else DISABLED;
    db.systemState := db.systemState[SYSTEM_KILL_SWITCH_KEY := SystemState(SYSTEM_KILL_SWITCH_KEY, status, now)];
    LogAction(db, logId, "system", "system_kill_switch", "system", status, now);
    r := KillSwitchResponse(status, "System kill switch has been " + status + ". All agent requests will be "
                                    + (if enabled then "denied" else "processed normally") + ".");
  }

  // ---------------------------------------------------------------------------------------
  // Escalations and the human decision on them.
  // ---------------------------------------------------------------------------------------

  /** `PendingApprovalResponse`. */
  datatype PendingApproval = PendingApproval(
    requestId: string, agentId: string, action: string, resource: string, reason: string,
    trace: seq<TraceEntry>, actionRequired: string)

  predicate Awaiting(p: PendingRequest) {
    p.status == PENDING && p.actionRequired == HUMAN_INTERVENTION
  }

  /** The rows the approval queue selects, in storage order. */
  function AwaitingRows(pending: seq<PendingRequest>): (r: seq<PendingRequest>)
    ensures |r| <= |pending|
    ensures forall p :: p in r <==> p in pending && Awaiting(p)
    ensures forall p :: multiset(r)[p] == if Awaiting(p) then multiset(pending)[p] else 0
  {
    if pending == [] then []
    else
      var rest := AwaitingRows(pending[1..]);
      assert pending == [pending[0]] + pending[1..];
      assert forall p :: p in pending <==> p == pending[0] || p in pending[1..];
      if Awaiting(pending[0]) then [pending[0]] + rest else rest
  }

  /** With distinct request ids in the table, the awaiting rows carry distinct ids too. */
  lemma {:induction false} AwaitingRowsUnique(pending: seq<PendingRequest>)
    requires UniqueRequestIds(pending)
    ensures UniqueRequestIds(AwaitingRows(pending))
  {
    if pending != [] {
      var tail := pending[1..];
      TailUnique(pending);
      AwaitingRowsUnique(tail);
      if Awaiting(pending[0]) {
        var rest := AwaitingRows(tail);
        forall k | 0 <= k < |rest| ensures rest[k].requestId != pending[0].requestId {
          assert rest[k] in tail;
          var m :| 0 <= m < |tail| && tail[m] == rest[k];
          assert tail[m] == pending[m + 1];
        }
        ConsUnique(pending[0], rest);
      }
    }
  }

  lemma TailUnique(pending: seq<PendingRequest>)
    requires pending != [] && UniqueRequestIds(pending)
    ensures UniqueRequestIds(pending[1..])
  {
    var tail := pending[1..];
    forall i, j | 0 <= i < j < |tail| ensures tail[i].requestId != tail[j].requestId {
      assert tail[i] == pending[i + 1] && tail[j] == pending[j + 1];
    }
  }

  lemma ConsUnique(p: PendingRequest, rest: seq<PendingRequest>)
    requires UniqueRequestIds(rest) && forall k :: 0 <= k < |rest| ==> rest[k].requestId != p.requestId
    ensures UniqueRequestIds([p] + rest)
  {
    var r := [p] + rest;
    forall i, j | 0 <= i < j < |r| ensures r[i].requestId != r[j].requestId {
      assert r[j] == rest[j - 1];
      if i > 0 {
        assert r[i] == rest[i - 1];
      }
    }
  }

  function ApprovalOf(p: PendingRequest): PendingApproval {
    PendingApproval(p.requestId, p.agentId, p.action, p.resource, p.reason, p.decisionTrace, p.actionRequired)
  }

  /** `get_pending_approvals`: every row still pending that asks for human intervention. */
  function GetPendingApprovals(pending: seq<PendingRequest>): (r: seq<PendingApproval>)
    ensures forall k :: 0 <= k < |r| ==> exists p :: p in pending && Awaiting(p) && r[k] == ApprovalOf(p)
    ensures forall p :: p in pending && Awaiting(p) ==> ApprovalOf(p) in r
    ensures |r| == |AwaitingRows(pending)|
    ensures forall k :: 0 <= k < |r| ==> r[k] == ApprovalOf(AwaitingRows(pending)[k])
  {
    ListedRowsAwait(pending);
    AwaitingRowsListed(pending);
    ApprovalsOf(AwaitingRows(pending))
  }

  lemma ListedRowsAwait(pending: seq<PendingRequest>)
    ensures var r := ApprovalsOf(AwaitingRows(pending));
      forall k :: 0 <= k < |r| ==> exists p :: p in pending && Awaiting(p) && r[k] == ApprovalOf(p)
  {
    var rows := AwaitingRows(pending);
    var r := ApprovalsOf(rows);
    forall k | 0 <= k < |r| ensures exists p :: p in pending && Awaiting(p) && r[k] == ApprovalOf(p) {
      var p := rows[k];
      assert p in rows;
    }
  }

  lemma AwaitingRowsListed(pending: seq<PendingRequest>)
    ensures forall p :: p in pending && Awaiting(p) ==> ApprovalOf(p) in ApprovalsOf(AwaitingRows(pending))
  {
    var rows := AwaitingRows(pending);
    forall p | p in pending && Awaiting(p) ensures ApprovalOf(p) in ApprovalsOf(rows) {
      assert p in rows;
    }
  }

  /** The response rows for the selected rows, one each, in the same order. */
  function ApprovalsOf(rows: seq<PendingRequest>): (r: seq<PendingApproval>)
    ensures |r| == |rows| && forall k :: 0 <= k < |r| ==> r[k] == ApprovalOf(rows[k])
    ensures forall p :: p in rows ==> ApprovalOf(p) in r
  {
    var r := seq(|rows|, k requires 0 <= k < |rows| => ApprovalOf(rows[k]));
    assert forall p :: p in rows ==> ApprovalOf(p) in r by {
      forall p | p in rows ensures ApprovalOf(p) in r {
        var k :| 0 <= k < |rows| && rows[k] == p;
        assert r[k] == ApprovalOf(p);
      }
    }
    r
  }

  /** `HumanDecisionResponse`. */
  datatype HumanDecision = HumanDecision(verdict: Verdict, reason: Reason, trace: seq<TraceEntry>, actionRequired: Option<string>)

  /** A request id is open when a row with that key exists and is still "pending". */
  predicate Open(pending: seq<PendingRequest>, requestId: string) {
    var i := FindPending(pending, requestId);
    i.Some? && pending[i.value].status == PENDING
  }

  function NotOpenResponse(requestId: string): HumanDecision {
    HumanDecision(Denied, SystemError,
      [TraceEntry("human_decision", Failed, "request_id " + requestId + " not found or already resolved")], None)
  }

  /** The entry a human decision appends: approvals ignore the notes; denials quote them when given. */
  function HumanEntry(verdict: Verdict, humanId: string, notes: Option<string>): (e: TraceEntry)
    ensures e.ruleChecked == "human_decision"
    ensures e.ruleResult == (if verdict == Approved then Passed else Failed)
    ensures verdict == Approved ==> e.notes == "approved by human " + humanId
    ensures verdict == Denied && !Truthy(notes) ==> e.notes == "denied by human " + humanId
    ensures verdict == Denied && Truthy(notes) ==> e.notes == "denied by human " + humanId + " (" + notes.value + ")"
  {
    match verdict
    case Approved => TraceEntry("human_decision", Passed, "approved by human " + humanId)
    case Denied =>
      TraceEntry("human_decision", Failed,
                 "denied by human " + humanId + (if Truthy(notes) then " (" + notes.value + ")" else ""))
  }

  /** The table after a request is resolved: the same rows, with that one row's status "resolved". */
  function ResolveRow(pending: seq<PendingRequest>, i: nat): (r: seq<PendingRequest>)
    requires i < |pending|
    ensures |r| == |pending| && r[i].status == RESOLVED
    ensures r[i] == pending[i].(status := RESOLVED)
    ensures forall k :: 0 <= k < |pending| && k != i ==> r[k] == pending[k]
  {
    pending[i := pending[i].(status := RESOLVED)]
  }

  /** What a human decision on a valid body answers, and the two tables it leaves behind. */
  datatype Resolution = Resolution(response: HumanDecision, pending: seq<PendingRequest>, logs: seq<Log>)

  /**
   * `human_approve` (verdict Approved) and `human_deny` (verdict Denied) once the body is valid:
   * for an open request the answer's trace is the stored trace plus one `human_decision` entry,
   * the row is marked resolved (its stored trace is left as it was) and the verdict is logged
   * against its agent, action and resource; any other id is answered `system_error` and nothing
   * changes.
   */
  function ResolveSpec(pending: seq<PendingRequest>, logs: seq<Log>, verdict: Verdict, body: HumanDecisionBody, logId: string, now: int): Resolution
  {
    if !Open(pending, body.requestId) then Resolution(NotOpenResponse(body.requestId), pending, logs)
    else
      var i := FindPending(pending, body.requestId).value;
      var p := pending[i];
      Resolution(
        HumanDecision(verdict, HumanOverride, p.decisionTrace + [HumanEntry(verdict, body.humanId, body.notes)], None),
        ResolveRow(pending, i),
        logs + [Log(logId, p.agentId, p.action, p.resource, VerdictText(verdict), now)])
  }

  /** Both human endpoints: validate the body (422), then resolve. */
  method Resolve(db: Tables, verdict: Verdict, requestId: string, humanId: string, notes: Option<string>, logId: string, now: int)
    returns (r: Result<HumanDecision, HttpError>)
    requires db.Valid() && LogIdUnused(db.logs, logId)
    modifies db`pending, db`logs
    ensures db.Valid()
    ensures var body := ValidateHumanDecision(requestId, humanId, notes);
      if body.Failure? then
        r == Failure(Unprocessable) && db.pending == old(db.pending) && db.logs == old(db.logs)
      else
        var s := ResolveSpec(old(db.pending), old(db.logs), verdict, body.value, logId, now);
        r == Success(s.response) && db.pending == s.pending && db.logs == s.logs
  {
    var v := ValidateHumanDecision(requestId, humanId, notes);
    if v.Failure? {
      return Failure(v.error);
    }
    var req := v.value;
    var found := FindPending(db.pending, req.requestId);
    if found.None? || db.pending[found.value].status != PENDING {
      return Success(NotOpenResponse(req.requestId));
    }
    var i := found.value;
    var row := db.pending[i];
    var trace := row.decisionTrace;
    trace := trace + [HumanEntry(verdict, req.humanId, req.notes)];
    ResolvedIsClosed(db.pending, i);
    db.pending := db.pending[i := row.(status := RESOLVED)];
    LogAction(db, logId, row.agentId, row.action, row.resource, VerdictText(verdict), now);
    return Success(HumanDecision(verdict, HumanOverride, trace, None));
  }

  /** `human_approve`. */
  method HumanApprove(db: Tables, requestId: string, humanId: string, notes: Option<string>, logId: string, now: int)
    returns (r: Result<HumanDecision, HttpError>)
    requires db.Valid() && LogIdUnused(db.logs, logId)
    modifies db`pending, db`logs
    ensures db.Valid()
    ensures var body := ValidateHumanDecision(requestId, humanId, notes);
      if body.Failure? then
        r == Failure(Unprocessable) && db.pending == old(db.pending) && db.logs == old(db.logs)
      else
        var s := ResolveSpec(old(db.pending), old(db.logs), Approved, body.value, logId, now);
        r == Success(s.response) && db.pending == s.pending && db.logs == s.logs
  {
    r := Resolve(db, Approved, requestId, humanId, notes, logId, now);
  }

  /** `human_deny`. */
  method HumanDeny(db: Tables, requestId: string, humanId: string, notes: Option<string>, logId: string, now: int)
    returns (r: Result<HumanDecision, HttpError>)
    requires db.Valid() && LogIdUnused(db.logs, logId)
    modifies db`pending, db`logs
    ensures db.Valid()
    ensures var body := ValidateHumanDecision(requestId, humanId, notes);
      if body.Failure? then
        r == Failure(Unprocessable) && db.pending == old(db.pending) && db.logs == old(db.logs)
      else
        var s := ResolveSpec(old(db.pending), old(db.logs), Denied, body.value, logId, now);
        r == Success(s.response) && db.pending == s.pending && db.logs == s.logs
  {
    r := Resolve(db, Denied, requestId, humanId, notes, logId, now);
  }

  /**
   * On an open request a human decision answers with the stored trace plus exactly one
   * `human_decision` entry (passed for an approval, failed for a denial), marks that row resolved, leaves every
   * other row as it was, adds one log with the verdict, and answers `human_override` with no
   * further action required.
   */
  lemma ResolutionOfOpenRequest(pending: seq<PendingRequest>, logs: seq<Log>, verdict: Verdict, body: HumanDecisionBody, logId: string, now: int)
    requires Open(pending, body.requestId)
    ensures var s := ResolveSpec(pending, logs, verdict, body, logId, now);
      var i := FindPending(pending, body.requestId).value;
      && s.response.verdict == verdict && s.response.reason == HumanOverride && s.response.actionRequired.None?
      && s.response.trace[..|s.response.trace| - 1] == pending[i].decisionTrace
      && s.response.trace[|s.response.trace| - 1].ruleChecked == "human_decision"
      && s.response.trace[|s.response.trace| - 1].ruleResult == (if verdict == Approved then Passed else Failed)
      && s.response.trace[|s.response.trace| - 1] == HumanEntry(verdict, body.humanId, body.notes)
      && |s.pending| == |pending| && s.pending[i].status == RESOLVED
      && (forall k :: 0 <= k < |pending| && k != i ==> s.pending[k] == pending[k])
      && |s.logs| == |logs| + 1 && s.logs[..|logs|] == logs
      && s.logs[|logs|].result == VerdictText(verdict) && s.logs[|logs|].agentId == pending[i].agentId
  {
  }

  /**
   * Resolve-once: after any human decision on an id, a second decision on the same id, approve
   * or deny, is answered `system_error` and changes nothing.
   */
  lemma ResolveOnce(
    pending: seq<PendingRequest>, logs: seq<Log>, v1: Verdict, b1: HumanDecisionBody, id1: string, now1: int,
    v2: Verdict, b2: HumanDecisionBody, id2: string, now2: int)
    requires UniqueRequestIds(pending) && b1.requestId == b2.requestId
    ensures var s1 := ResolveSpec(pending, logs, v1, b1, id1, now1);
      ResolveSpec(s1.pending, s1.logs, v2, b2, id2, now2) == Resolution(NotOpenResponse(b2.requestId), s1.pending, s1.logs)
  {
    if Open(pending, b1.requestId) {
      ResolvedIsClosed(pending, FindPending(pending, b1.requestId).value);
    }
  }

  /**
   * Resolve-once: once a request is resolved, its id is no longer open, so a second approve or
   * deny of it is answered `system_error` and changes nothing. Other requests keep their state.
   */
  lemma {:induction false} ResolvedIsClosed(pending: seq<PendingRequest>, i: nat)
    requires UniqueRequestIds(pending) && i < |pending|
    ensures UniqueRequestIds(ResolveRow(pending, i))
    ensures !Open(ResolveRow(pending, i), pending[i].requestId)
    ensures forall id :: id != pending[i].requestId ==> (Open(ResolveRow(pending, i), id) <==> Open(pending, id))
  {
    var q := ResolveRow(pending, i);
    assert forall k :: 0 <= k < |q| ==> q[k].requestId == pending[k].requestId;
    FindPendingUnique(q, pending[i].requestId, i);
    forall id | id != pending[i].requestId
      ensures Open(q, id) <==> Open(pending, id)
    {
      FindPendingSameKeys(pending, q, id);
    }
  }

  /** Changing only statuses does not move any row's key. */
  lemma {:induction false} FindPendingSameKeys(p: seq<PendingRequest>, q: seq<PendingRequest>, id: string)
    requires |p| == |q| && forall k :: 0 <= k < |p| ==> p[k].requestId == q[k].requestId
    ensures FindPending(p, id) == FindPending(q, id)
  {
    if p != [] {
      FindPendingSameKeys(p[1..], q[1..], id);
    }
  }

  /** A resolved request leaves the approval queue. */
  lemma ResolvedLeavesQueue(pending: seq<PendingRequest>, i: nat)
    requires UniqueRequestIds(pending) && i < |pending|
    ensures forall a :: a in GetPendingApprovals(ResolveRow(pending, i)) ==> a.requestId != pending[i].requestId
  {
    var q := ResolveRow(pending, i);
    var r := GetPendingApprovals(q);
    OthersStillAwaiting(pending, i);
    forall a | a in r
      ensures a.requestId != pending[i].requestId
    {
      var k :| 0 <= k < |r| && r[k] == a;
      var p :| p in q && Awaiting(p) && r[k] == ApprovalOf(p);
    }
  }

  /** After a resolution, the rows still awaiting a human all carry other ids. */
  lemma OthersStillAwaiting(pending: seq<PendingRequest>, i: nat)
    requires UniqueRequestIds(pending) && i < |pending|
    ensures forall p :: p in ResolveRow(pending, i) && Awaiting(p) ==> p.requestId != pending[i].requestId
  {
    var q := ResolveRow(pending, i);
    forall p | p in q && Awaiting(p)
      ensures p.requestId != pending[i].requestId
    {
      var j :| 0 <= j < |q| && q[j] == p;
      assert j != i by { assert !Awaiting(q[i]); }
      assert p == pending[j];
      if j < i {
        assert pending[j].requestId != pending[i].requestId;
      } else {
        assert pending[i].requestId != pending[j].requestId;
      }
    }
  }

  /** With distinct request ids, no request is listed twice. */
  lemma ListedOnce(pending: seq<PendingRequest>)
    requires UniqueRequestIds(pending)
    ensures var r := GetPendingApprovals(pending);
      forall i, j :: 0 <= i < j < |r| ==> r[i].requestId != r[j].requestId
  {
    AwaitingRowsUnique(pending);
  }

  /** An escalation filed by a request is listed in the approval queue. */
  lemma EscalationIsListed(pending: seq<PendingRequest>, p: PendingRequest)
    requires Awaiting(p)
    ensures ApprovalOf(p) in GetPendingApprovals(pending + [p])
  {
    assert p in pending + [p];
  }
}
