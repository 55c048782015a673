# A verified model of the AI-agent policy layer

This project models the core of `ai_agent_mvp`, an HTTP service that sits between AI agents and
the actions they want to take. Every agent request (agent, action, resource) passes three ordered
gates:

1. the system-wide kill switch;
2. the agent's status;
3. an exact-match permission lookup.

The service answers "approved" or "denied" with a machine-readable reason and a decision trace,
and writes an audit log. Kill-switch denials and internal failures are escalated to a queue that
a human resolves once, by approving or denying. Around this pipeline sit:

- the admin endpoints for agents and permissions;
- the customer and API-key endpoints;
- the audit-log query;
- a request-size guard;
- the SDK's action runner and HTTP error mapping.

## Modules

| Module | What it holds |
|---|---|
| `Common` | `Option`, `Result`, and the HTTP errors the routers raise. |
| `Text` | Python's `str.strip`, ASCII `lower`, `lstrip(c)` and `replace` of one character. |
| `Numerals` | Python's `int()` on a decimal string and `str()` of an integer, with their round trip. |
| `Models` | The records, their constructors with defaults, and the field validators of the request bodies (a failure is a 422). |
| `Database` | One `Tables` object holding every table. Keyed tables are maps; permissions, logs and escalations are sequences in storage order with distinct keys. |
| `AgentRouter` | The request pipeline and its fail-safe handler, the per-agent and system kill switches, the approval queue, and human approve/deny. |
| `AdminRouter` | Create, get, update and delete agents; create, list and delete permissions. |
| `CustomersRouter` | The tier table, registration, upgrades, API key issue and revocation, and deactivation. |
| `LogsRouter` | The audit-log query. |
| `ValidationMiddleware` | The Content-Length guard. |
| `SdkClient` | The SDK's URL join and its status-to-error mapping. |
| `SdkActions` | The SDK's action runner, whose effects on the outside world are returned as a sequence of calls. |

### What the caller supplies

- **Failures inside the `try` block.** Database errors there are an explicit `Faults` value naming the step that raises. The handler's own best-effort writes can be made to raise as well.
- **Clocks and ids.** `utcnow()` and `uuid4()` values come in as parameters.
- **Hashing and token generation.** `sha256` and `token_urlsafe` are function parameters, and so is ISO-8601 date parsing.
- **The SDK's remote collaborators.** What the policy service and the executor answer are parameters. What the runner sends is returned as `calls`.

### Where the code and the documented behaviour differ

The model follows the code in each of these cases:

- **Audit logs per request.** The handler's docstring lists "Log action (must log in all cases)" as a step (`routers/agent.py:130`). The code does not keep that in two cases:
  - An unknown agent gets a 404 with no log at all (`routers/agent.py:202-211`), even when nothing fails. `AgentRouter.UnknownAgentNotFound` states this.
  - On the kill-switch path the log can commit and the escalation insert can then fail. The fail-safe handler then writes a second denied log.

  `AgentRouter.LogsRecordTheVerdict` proves the bound the code does keep: at most two logs, every one recording the returned verdict, and exactly one when nothing fails.
- **`create_agent` ids.** The docstring says the id is generated. The code passes `id=agent_data.get("id")` explicitly, so a body without an id stores a NULL primary key, the insert fails, and the answer is 400.
- **Unchecked status and tier.** The table records do not run their validators. A status other than "active"/"disabled" is stored as given. A customer tier outside the table is stored as given, with the starter quota.

## Model

| member | source | states |
|---|---|---|
| Models.NewAgent | ai_agent_mvp/models.py:14-29 | A new agent keeps the given id, name and owner; its status defaults to "active" when none is given. |
| Models.NewPendingRequest | ai_agent_mvp/models.py:93-121 | A new escalation is "pending" and requires "human_intervention", with the given key, reason and trace. |
| Models.ValidateStatus | ai_agent_mvp/models.py:31-37 | Exactly "active" and "disabled" pass, unchanged. |
| Models.ValidateNotEmpty | ai_agent_mvp/models.py:201-206 | Passes exactly the non-blank values; the result is non-empty, no longer than the input, and has no whitespace at either end. |
| Models.ValidateNotEmptyIdempotent | ai_agent_mvp/models.py:201-206 | Validating an already validated value changes nothing. |
| Models.ValidateCustomerEmail | ai_agent_mvp/models.py:153-158 | Passes exactly the values containing "@". The result is the value stripped and lower-cased; it still contains "@" and has no upper-case letter. |
| Models.ValidateTier | ai_agent_mvp/models.py:160-166 | Exactly the four tiers pass, unchanged. |
| Models.ValidateTextField | ai_agent_mvp/models.py:197-206 | A field passes iff its raw length is within bounds and it is not blank; it is then stored stripped; otherwise the answer is 422. |
| Models.ValidateAgentRequest | ai_agent_mvp/models.py:195-206 | Passes iff agent_id is 1..255 characters, action 1..100, resource 1..255, and none is blank; each is stored stripped. |
| Models.ValidateHumanDecision | ai_agent_mvp/models.py:277-288 | Passes iff request_id and human_id are 1..255 characters and not blank, and notes are at most 500; ids are stored stripped and notes as given. |
| Models.ValidateAgentKill | ai_agent_mvp/models.py:227-238 | Passes iff agent_id and owner are 1..255 characters and not blank; both are stored stripped and `enabled` as given. |
| Models.ValidateCreateCustomer | ai_agent_mvp/models.py:314-332 | Passes iff the name is 1..255 characters, the email 5..255, neither is blank, and the stripped email contains "@". The email is stored stripped and lower-cased; the tier defaults to "starter" and is not checked. |
| Models.CustomerEmailStable | ai_agent_mvp/models.py:153-158 | An email the request validator accepted passes the record's email validator unchanged. |
| Text.StripIdempotent | ai_agent_mvp/models.py:203-206 | Stripping twice is stripping once. |
| Text.Strip | ai_agent_mvp/models.py:203-206 | `str.strip()` gives the infix between the two strip points, and it neither starts nor ends with whitespace. |
| Text.Lower | ai_agent_mvp/models.py:158 | `str.lower()` keeps the length, lowers each character, and leaves no ASCII upper-case letter. |
| Text.StripDropsOnlySpace | ai_agent_mvp/models.py:203-206 | What stripping drops at either end is whitespace, and the result is empty exactly for a blank string. |
| Text.LowerStripCommute | ai_agent_mvp/models.py:153-158 | Lower-casing and stripping commute. |
| Numerals.IntToString | ai_agent_mvp/middleware/validation.py:41-42 | `str(n)` is a non-empty numeral that `int()` reads back as n, for every integer n. |
| Numerals.BlankIsNotANumber | ai_agent_mvp/middleware/validation.py:41-44 | `int()` rejects a blank string. |
| Numerals.ParseInt | ai_agent_mvp/middleware/validation.py:41-42 | A string `int()` accepts has a non-empty stripped form that starts with a digit or a sign and ends with a digit; a negative value needs a leading "-". |
| Database.FindPending | ai_agent_mvp/routers/agent.py:555 | The lookup by key finds a row with that key, the first such row, and finds none exactly when no row has that key. |
| Database.FindPendingUnique | ai_agent_mvp/routers/agent.py:555 | With distinct keys, the row found is the only row with that key. |
| Database.Tables.constructor | ai_agent_mvp/database.py:30-44 | A fresh database holds only the kill-switch row, "disabled", and satisfies the key invariants. |
| AgentRouter.CheckPermission | ai_agent_mvp/routers/agent.py:61-92 | Granted iff some permission row matches agent, action and resource exactly. |
| AgentRouter.CheckSystemKillSwitch | ai_agent_mvp/routers/agent.py:34-58 | A missing row reads off. A stored row reads on exactly when its value is "enabled"; any other value is off. |
| AgentRouter.ConditionIgnored | ai_agent_mvp/routers/agent.py:79-90 | Rule sets that differ only in their conditions grant the same requests. |
| AgentRouter.LogAction | ai_agent_mvp/routers/agent.py:95-114 | Appends exactly one audit record with the given fields; the key invariants are kept. |
| AgentRouter.AddPending | ai_agent_mvp/routers/agent.py:172-185 | Appends exactly the given escalation; request ids stay distinct. |
| AgentRouter.KillSwitchOn | ai_agent_mvp/routers/agent.py:162-193 | With the switch on, the attempt and the writes are exactly the specified ones: a denied log, then a pending escalation, then the kill-switch denial. A write that raises ends the path there. |
| AgentRouter.Conclude | ai_agent_mvp/routers/agent.py:213-268 | A gate path ends by writing one log with its verdict and returning its decision; if that write raises, nothing is written and the trace so far goes to the handler. |
| AgentRouter.TryChecks | ai_agent_mvp/routers/agent.py:157-268 | The gates run step by step and produce exactly the specified attempt; the tables grow by exactly the logs and escalations that attempt wrote. |
| AgentRouter.HandleValidRequest | ai_agent_mvp/routers/agent.py:157-310 | Produces the specified outcome: the 404 is re-raised, and every other exception becomes a system_error denial with a best-effort log and escalation. |
| AgentRouter.Fallback | ai_agent_mvp/routers/agent.py:273-310 | The handler appends the system_error entry, writes its denied log and its escalation each unless that write fails, and returns the system_error denial asking for human intervention. |
| AgentRouter.AgentRequest | ai_agent_mvp/routers/agent.py:119-310 | A body that fails validation is a 422 with no effect; otherwise the outcome is as specified. |
| AgentRouter.KillSwitchDeniesEverything | ai_agent_mvp/routers/agent.py:159-200 | Switch on, no faults: denied with system_kill_switch_enabled and a single failed trace entry; one log and one escalation are written. |
| AgentRouter.KillSwitchPrecedesAgentChecks | ai_agent_mvp/routers/agent.py:159-200 | While the switch is on, the outcome does not depend on the agent or permission tables. |
| AgentRouter.MissingSwitchReadsOff | ai_agent_mvp/routers/agent.py:34-58 | A missing kill-switch row reads the same as "disabled". |
| AgentRouter.UnknownAgentNotFound | ai_agent_mvp/routers/agent.py:202-211 | Switch off and agent unknown: a 404 and nothing written. |
| AgentRouter.DisabledAgentDenied | ai_agent_mvp/routers/agent.py:213-231 | A disabled agent is denied with agent_disabled and a two-entry trace, with one log and no escalation, even when a permission would grant the request. |
| AgentRouter.ApprovedIffAllGatesPass | ai_agent_mvp/routers/agent.py:233-268 | Without faults: approved iff the switch is off, the agent is not disabled and a permission matches. The reasons and traces of both outcomes are given. |
| AgentRouter.ApprovalOnlyThroughEveryGate | ai_agent_mvp/routers/agent.py:157-310 | Whatever the faults, an approval means every gate passed and no step on the approval path raised. |
| AgentRouter.FaultsBecomeDenials | ai_agent_mvp/routers/agent.py:273-310 | A fault on the path gives a system_error denial that requires human intervention; its trace ends with the failed system_error entry. |
| AgentRouter.BestEffortWritesKeepDecision | ai_agent_mvp/routers/agent.py:281-303 | Whether the handler's own writes fail never changes the returned decision. |
| AgentRouter.LogsRecordTheVerdict | ai_agent_mvp/routers/agent.py:157-310 | Every log a request writes is about that request and records its verdict. At most two logs are written, and exactly one when nothing fails. |
| AgentRouter.TryBlockLogs | ai_agent_mvp/routers/agent.py:157-268 | The `try` block writes at most one log, recording its verdict. |
| AgentRouter.EscalationOnlyWhenBlocked | ai_agent_mvp/routers/agent.py:172-185 | Escalations are filed only for kill-switch and system-error denials, at most one per request. Each is pending and carries the decision's reason and trace. |
| AgentRouter.AgentKill | ai_agent_mvp/routers/agent.py:314-370 | A 422, 404 or 403 changes nothing. Otherwise the status becomes "active" or "disabled" as asked, and one "kill"/"agent" log is written. |
| AgentRouter.GetSystemKillSwitch | ai_agent_mvp/routers/agent.py:431-455 | A missing row reports "disabled"; otherwise the stored value. |
| AgentRouter.ReportedStatusIsEnforced | ai_agent_mvp/routers/agent.py:431-455 | The reported status is "enabled" iff the request pipeline treats the switch as on. |
| AgentRouter.SetSystemKillSwitch | ai_agent_mvp/routers/agent.py:374-427 | Upserts the row so that the pipeline reads the switch as requested, touches no other row, and logs the change. |
| AgentRouter.AwaitingRows | ai_agent_mvp/routers/agent.py:484-489 | Exactly the pending rows that require human intervention, each as often as it is stored. |
| AgentRouter.GetPendingApprovals | ai_agent_mvp/routers/agent.py:458-510 | A request is listed iff its row is pending and requires human intervention. There is one response row per selected row, built from that row. |
| AgentRouter.ListedOnce | ai_agent_mvp/routers/agent.py:484-510 | With distinct request ids in the table, no request is listed twice. |
| AgentRouter.AwaitingRowsUnique | ai_agent_mvp/routers/agent.py:484-489 | Selecting the awaiting rows keeps request ids distinct. |
| AgentRouter.HumanEntry | ai_agent_mvp/routers/agent.py:577-672 | The appended entry checks `human_decision`. An approval is passed, with notes "approved by human H" whatever notes were given. A denial is failed, with notes "denied by human H", followed by " (notes)" only when the notes are non-empty. |
| AgentRouter.ResolveRow | ai_agent_mvp/routers/agent.py:582-584 | Only the chosen row changes, and only its status, which becomes "resolved"; the stored trace is not rewritten. |
| AgentRouter.Resolve | ai_agent_mvp/routers/agent.py:514-597 | A 422 for an invalid body; otherwise the tables and answer are as specified. |
| AgentRouter.HumanApprove | ai_agent_mvp/routers/agent.py:514-597 | Resolves the request as an approval, as specified. |
| AgentRouter.HumanDeny | ai_agent_mvp/routers/agent.py:601-690 | Resolves the request as a denial, as specified. |
| AgentRouter.ResolutionOfOpenRequest | ai_agent_mvp/routers/agent.py:570-597 | For an open request, the answer's trace is the stored trace plus exactly the HumanEntry for that verdict, human and notes, and the answer is human_override. The row is marked resolved, other rows are untouched, and one log records the verdict. |
| AgentRouter.ResolveOnce | ai_agent_mvp/routers/agent.py:557-568 | After one decision on an id, a second decision on it is answered system_error and changes nothing. |
| AgentRouter.ResolvedIsClosed | ai_agent_mvp/routers/agent.py:557-568 | A resolved row's id is no longer open; every other id keeps its state. |
| AgentRouter.ResolvedLeavesQueue | ai_agent_mvp/routers/agent.py:484-489 | Once resolved, a request is no longer listed in the approval queue. |
| AgentRouter.OthersStillAwaiting | ai_agent_mvp/routers/agent.py:484-489 | After a resolution, every row still awaiting a human carries another id. |
| AgentRouter.EscalationIsListed | ai_agent_mvp/routers/agent.py:484-489 | An escalation the pipeline files is listed in the queue. |
| AdminRouter.CreateAgent | ai_agent_mvp/routers/admin.py:29-70 | A missing id, name or owner, or an id in use, is a 400 with no change. Otherwise the new agent is stored with its status defaulting to "active". |
| AdminRouter.GetAgent | ai_agent_mvp/routers/admin.py:95-117 | The stored agent's fields, or 404 exactly when the id is unknown. |
| AdminRouter.ApplyPatch | ai_agent_mvp/routers/admin.py:149-154 | Each field the patch carries is written; the others and the id are kept. |
| AdminRouter.ApplyPatchIdempotent | ai_agent_mvp/routers/admin.py:149-154 | Applying a patch twice equals applying it once. |
| AdminRouter.EmptyPatchIsIdentity | ai_agent_mvp/routers/admin.py:149-154 | An empty patch changes nothing. |
| AdminRouter.UpdateAgent | ai_agent_mvp/routers/admin.py:121-167 | A 404 for an unknown id; otherwise the agent becomes the patched agent. |
| AdminRouter.PermissionsOf | ai_agent_mvp/routers/admin.py:270-272 | Exactly the rows of that agent. |
| AdminRouter.PermissionsNotOf | ai_agent_mvp/routers/admin.py:191-195 | Exactly the rows of other agents. |
| AdminRouter.FiltersPartition | ai_agent_mvp/routers/admin.py:191-195 | The two filters together hold every row exactly once. |
| AdminRouter.PermissionsNotOfUnique | ai_agent_mvp/routers/admin.py:191-195 | Filtering keeps permission ids distinct. |
| AdminRouter.DeleteAgent | ai_agent_mvp/routers/admin.py:171-206 | A 404 for an unknown id. Otherwise the agent and exactly its permissions are removed; other permissions keep their order, and logs are untouched. |
| AdminRouter.KeepPermissionsNotOf | ai_agent_mvp/routers/admin.py:191-195 | The filtering loop keeps exactly the rows of other agents, in storage order. |
| AdminRouter.DeletedAgentHasNoPermissions | ai_agent_mvp/routers/admin.py:191-197 | After the delete, the agent has no permissions and every other agent keeps all of its own. |
| AdminRouter.NoPermissionsOf | ai_agent_mvp/routers/admin.py:270-272 | A table with no row for an agent lists none for it. |
| AdminRouter.CreatePermission | ai_agent_mvp/routers/admin.py:210-253 | A missing agent, action or resource is a 400; otherwise one row with a fresh id is appended. |
| AdminRouter.ListPermissions | ai_agent_mvp/routers/admin.py:257-284 | With a non-empty agent id, exactly that agent's rows; otherwise every row. |
| AdminRouter.FindPermission | ai_agent_mvp/routers/admin.py:301-302 | Finds the row with that id, or none exactly when no row has it. |
| AdminRouter.RemoveExactlyOne | ai_agent_mvp/routers/admin.py:305 | With distinct ids, removing the found row removes exactly that permission. |
| AdminRouter.DeletePermission | ai_agent_mvp/routers/admin.py:288-313 | A 404 for an unknown id; otherwise exactly that row is removed. |
| CustomersRouter.TierLimits | ai_agent_mvp/routers/customers.py:64-69 | Defined exactly on the four tiers the record validator accepts; each tier allows twice as many requests per minute as agents. |
| CustomersRouter.TiersGrowTenfold | ai_agent_mvp/routers/customers.py:64-69 | A check on the tier table's values only: each tier's quotas are ten times the previous tier's. No handler relies on this. |
| CustomersRouter.RawKey | ai_agent_mvp/routers/customers.py:30-32 | A key is "sk-" followed by the token. |
| CustomersRouter.NewCustomer | ai_agent_mvp/routers/customers.py:74-81 | The new row keeps the name and the tier as requested and stores the email lower-cased. It is active, has no API calls, and holds the given hash. |
| CustomersRouter.NewCustomerQuota | ai_agent_mvp/routers/customers.py:71-81 | A tier in the table gets its own quota; any other tier gets the starter quota. |
| CustomersRouter.NewCustomerEmailIsNormalised | ai_agent_mvp/routers/customers.py:52-76 | The stored email is the submitted one, stripped and lower-cased. |
| CustomersRouter.RegisterValid | ai_agent_mvp/routers/customers.py:51-93 | A 409 with no change when the email is on file. Otherwise one customer holding only the key's hash is added, and the raw key is returned once. |
| CustomersRouter.RegisterCustomer | ai_agent_mvp/routers/customers.py:40-93 | A 422 for an invalid body; otherwise as RegisterValid. |
| CustomersRouter.RegisteredEmailIsTaken | ai_agent_mvp/routers/customers.py:51-57 | After registration the email is on file, so registering it again is refused. |
| CustomersRouter.UpgradeSubscription | ai_agent_mvp/routers/customers.py:157-206 | A 404 or a 400 changes nothing. Otherwise the tier and both quotas become the tier's row; only the update time also changes. |
| CustomersRouter.GenerateApiKey | ai_agent_mvp/routers/customers.py:210-246 | A 404, or a 403 for an inactive customer, changes nothing. Otherwise one active key owned by the customer is added, named `key_name` or "API Key". |
| CustomersRouter.RevokeApiKey | ai_agent_mvp/routers/customers.py:278-301 | A 404 unless the key exists and belongs to that customer; otherwise the key stays and only becomes inactive. |
| CustomersRouter.DeactivateCustomer | ai_agent_mvp/routers/customers.py:305-323 | A 404 for an unknown customer; otherwise a soft delete that keeps the row. |
| LogsRouter.ParseBound | ai_agent_mvp/routers/logs.py:51-69 | An absent or empty bound means no bound. Otherwise the bound parses iff the text with "Z" rewritten to "+00:00" parses, and it is then exactly the instant that text parses to. |
| Text.ReplaceCharLength | ai_agent_mvp/routers/logs.py:53 | Each replaced character adds one character fewer than the replacement holds, so rewriting "Z" as "+00:00" adds five per "Z". |
| Text.ReplaceCharConcat | ai_agent_mvp/routers/logs.py:53 | The replacement works character by character: it distributes over concatenation, maps the replaced character to the replacement and keeps every other character. |
| LogsRouter.Filter | ai_agent_mvp/routers/logs.py:46-64 | Exactly the stored logs that pass every filter, each as often as it is stored. |
| LogsRouter.Insert | ai_agent_mvp/routers/logs.py:71 | Inserting into a newest-first list keeps it newest first and adds exactly that log. |
| LogsRouter.SortNewestFirst | ai_agent_mvp/routers/logs.py:71-72 | The result is newest first and a permutation of the input. |
| LogsRouter.GetLogs | ai_agent_mvp/routers/logs.py:23-84 | A 400 for an unparseable start time, then for an unparseable end time. Otherwise every matching stored log, each as often as stored, newest first, with inclusive bounds. |
| LogsRouter.UnfilteredQueryReturnsAll | ai_agent_mvp/routers/logs.py:46-72 | Without filters the query returns every stored log. |
| LogsRouter.WiderRangeKeepsLogs | ai_agent_mvp/routers/logs.py:51-64 | Widening the time range never loses a log. |
| ValidationMiddleware.DemoModeEnabled | ai_agent_mvp/middleware/validation.py:25 | Demo mode is on exactly when the variable is unset or spells "true" in any mix of upper and lower case ("true", "True", "TRUE", "tRuE", ...); in particular off for any value that is not four characters long. |
| ValidationMiddleware.ChosenLimit | ai_agent_mvp/middleware/validation.py:52-58 | The demo limit exactly for demo clients; the production limit otherwise. |
| ValidationMiddleware.Dispatch | ai_agent_mvp/middleware/validation.py:32-73 | No header passes. A header `int()` rejects is a 400 INVALID_CONTENT_LENGTH. A 413 PAYLOAD_TOO_LARGE, carrying the limit, iff the length exceeds the chosen limit. |
| ValidationMiddleware.DeclaredLengthDecides | ai_agent_mvp/middleware/validation.py:60-73 | A declared length above the limit is refused; one at or below it, the limit itself included, passes. |
| ValidationMiddleware.LongerBodiesStayRejected | ai_agent_mvp/middleware/validation.py:60-68 | Any longer declared length than a refused one is refused too. |
| ValidationMiddleware.DemoClientsGetTheSmallerLimit | ai_agent_mvp/middleware/validation.py:19-28 | With the default settings the limit is 1 MiB exactly for demo clients in demo mode, and otherwise 10 MiB. |
| ValidationMiddleware.PatchedLimitRejectsLargerBody | ai_agent_mvp/tests/test_middleware.py:47-63 | With the limit patched to 100, a 150-byte body is a 413 PAYLOAD_TOO_LARGE naming 100. |
| SdkClient.RequestUrl | ai_agent_mvp/sdk/client.py:66 | The URL is the base, one "/", and the endpoint without its leading slashes; nothing else of the endpoint is lost. |
| Text.LStripCharDropsOnly | ai_agent_mvp/sdk/client.py:66 | `lstrip(c)` drops only leading copies of c. |
| Text.LStripChar | ai_agent_mvp/sdk/client.py:66 | `lstrip(c)` gives a suffix of the string that does not start with c. |
| SdkClient.LeadingSlashIgnored | ai_agent_mvp/sdk/client.py:66 | One leading slash more or less on the endpoint gives the same URL, so any number of them does. |
| SdkClient.HandleErrorResponse | ai_agent_mvp/sdk/client.py:99-124 | The error class follows from the status alone: 401/403, 400/422, 429, 5xx, or the base class, each an iff. Details come only on validation errors and Retry-After only on rate limits; the message ends with the body's message or the raw text. |
| SdkClient.RouterErrorsAsSdkErrors | ai_agent_mvp/sdk/client.py:110-124 | The routers' 403 reaches SDK callers as an authentication error, 400/422 as validation errors, and 404/409 as the base class. |
| SdkActions.ActionRunner.constructor | ai_agent_mvp/sdk/actions.py:26-28 | The runner and its policy manager share the given client. |
| SdkActions.NewActionRunner | ai_agent_mvp/sdk/actions.py:22-28 | No client is a validation error; otherwise a runner over that client. |
| SdkActions.ActionRunner.Execute | ai_agent_mvp/sdk/actions.py:30-142 | Invalid inputs send nothing. Otherwise exactly the policy request (unless skipped) and then the executor run (iff skipped or approved) are sent, in that order. A denial, an SDK error and any other exception from the policy check are each surfaced as they are; the executor's outcome is mapped as ExecutorResult states. |
| SdkActions.ActionRunner.Enforce | ai_agent_mvp/sdk/actions.py:72-142 | The calls are the policy request unless skipped, then one executor run iff skipped or approved. A failed or raising policy check and a denial each give their own error. |
| SdkActions.ExecutorResult | ai_agent_mvp/sdk/actions.py:112-142 | Success iff the executor returned, with its value unchanged. An SDK error passes through; any other exception becomes a base-class "Action execution failed" carrying the original. |
| SdkActions.ActionRunner.KillAgent | ai_agent_mvp/sdk/actions.py:144-169 | Missing arguments send nothing. Otherwise exactly one kill request is sent, with `enabled` false, and the response's message is returned; an error the request raises passes through unchanged. |

## Left out

- Network transport, retries, sessions and timeouts in the SDK client are left out; only the URL join and the error mapping are pure.
- The client imports a `ConnectionError` that the SDK's errors module does not define, so the module would fail on import. This model does not capture that.
- The SDK and the server disagree on two response formats. Neither mismatch is modelled as a cross-process contract; the SDK sees each as an exception from the request, which the model covers as `PolicyRaisedOther` and `KillRaisedOther`.
  - Trace entries: the SDK expects "approved"/"denied", while the server writes "passed"/"failed".
  - Kill responses: the SDK's `KillResponse` accepts only "success"/"failed" as the result, while the server's `agent_kill` answers "enabled"/"disabled". Against this server, `kill_agent` therefore always fails with a validation error.
- Logging calls and their messages are left out, as is every `logger` field.
- Ids, clock readings, hashes, random tokens and ISO-8601 parsing are parameters, not computed.
- Time-zone awareness of parsed bounds is left out: bounds and timestamps are plain instants.
- Decision traces are stored as sequences of entries rather than JSON text. The `json.loads` fallbacks for unreadable stored traces are therefore not modelled.
- Session rollback is left out. A step that raises is modelled as having no effect, and the handler's best-effort writes failing are explicit flags.
- The approval queue, the permission filters and the permission listing have no ORDER BY. The model returns them in storage order, but no contract promises any order.
- Concurrency is left out: two requests racing to resolve the same escalation, or to register the same email, are outside the model.
- Foreign keys are not modelled: SQLite does not enforce them in this configuration, so a permission may name an unknown agent.
- Admin bodies are dictionaries. The model covers a key being absent, but not an explicit JSON null or non-string values.
- `Text.Lower` lowers ASCII letters only. Python's Unicode case mapping and Unicode digits in `int()` are not modelled.
- Registration creates only the customer row: the code stores the key's hash on the customer and creates no API-key row. Hash collisions are not modelled.
- `list_agents`, `get_current_customer`, `get_customer` and `list_api_keys` are plain reads and are not modelled. The authentication dependency behind `/customers/me` is not modelled either.
- The application set-up, CORS, rate limiting, the audit middleware and the scripts are left out.
- ValidationMiddleware.Dispatch: header lookup is done by the caller, which passes the two header values. The framework's case-insensitive header matching is not modelled.
- LogsRouter.GetLogs: only the `LogResponse` fields are returned, and the order among logs with equal timestamps is fixed to storage order, which the SQL query leaves open.
