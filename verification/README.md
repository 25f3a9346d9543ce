# Verified model of the ERP security gateway

This project models the parts of the gateway that decide: containment and its human approval gate, the
tamper-evident audit chain, the request pipeline with its sliding windows, canary rollout and circuit breaker,
content inspection, route selection and the telemetry queue. Each component of the program is a module here.
Objects that the program updates in place are classes with the same fields; every method of such a class is proved
equal to a function on snapshots (`Apply`, `Evaluate`, `Handle`, `StepState`, ...), and the results about runs are
lemmas over sequences of steps of those functions.

Check everything with `dafny verify dfyconfig.toml` (Dafny 4.11).

## What is proved, in brief

* **Approval gate.** In every interleaving of security events, approvals, rejections, revocations and requests, a
  principal is suspended only under an action on that principal that an analyst approved and nobody revoked; no action
  is enforced twice, nor after a rejection or revocation. Conversely no approved suspension is lost: a principal is
  suspended if and only if a suspension of it was approved and none was revoked since.
* **Replicas.** A suspension or token revocation applied anywhere is enforced everywhere until it is rolled back, and
  afterwards only replicas with an entry of their own can still hold it. Quarantine denials are at most an hour old.
* **Audit chain.** An accepted log made of the signatures of one run repeats the first records of that run in everything
  that is signed, or exhibits two signed texts of its own and the run's that share a digest. A run of appends, failed
  appends and restarts, of any number of processes over one file, leaves a verifying log exactly when a small health
  automaton over its steps says so.
* **Containments.** From any state an applied action refuses exactly the requests that name its target, under its own
  status, until its last moment, and nothing afterwards.
* **Pipeline.** Whatever arrives at one worker process, at most 100 sensitive requests per client and minute and one
  identical order with a body per five seconds reach the ERP; equal nonces are more than the skew apart; nothing
  passes that fires a rule, is suspended, carries a revoked token, shows an attack in any decoding of any of its
  texts, changes state without a nonce, key or timestamp, comes from an address with too many failed logins in the
  window, or arrives within the recovery timeout of a tripped breaker. A blameless first request does reach it.
* **Canary, breaker, WAF, routes, telemetry.** Rollback exactly on a breach counted over the window; breaker counters
  equal to what the history says; early-exit scanning equal to the exhaustive maximum; longest-prefix selection;
  conservation of every emitted event, and the order of the main file, under any number of emitters and drainers.

## Where the code differs from what it promises

Each of these is a lemma here, stated for all inputs or with the exact condition under which the promise fails.

* Rejecting an action does not look at its status. Rejecting one that is already enforced leaves it enforced and no
  longer revocable (`Orchestrator.StrandedExactly`, `Orchestrator.RejectionCanStrand`).
* A replica that meets its own expired quarantine deletes the store's copy, even when another replica has renewed it
  (`Mitigation.SweepLosesLiveRecord`; from empty replicas, `Replicas.SweepUndoesRenewal`). An expired record also hides
  live ones for that call (`Mitigation.EvaluateByPriority`).
* Principal revocations are written to the store but never read from it (`Mitigation.SharedPrincipalRevocationsUnread`,
  `Replicas.PrincipalRevokedOnOneReplica`).
* Rolling back a revocation of a principal also restores a token of the same text (`Mitigation.RollbackTokens`,
  `Replicas.PrincipalRollbackRestoresToken`).
* The audit documentation says that any deletion or modification is detected. Dropping records from the end is not, and
  neither is rewriting a timestamp or any other key that the signature does not cover
  (`AuditChain.AcceptedExactlyPrefixes`, `AuditChain.VerifyIgnoresUnsigned`, `AuditChain.StampCanBeRewritten`).
* An append that fails after its record landed leaves memory behind until a restart, and one more record before that
  restart, or after a line that lost its end, or any torn write, breaks the log for good
  (`AuditChain.RunVerifiesExactly`). So does a second process that appends to the same file (`AuditChain.ForkBreaks`);
  the deployment starts four (gateway/Dockerfile, line 23). So does an event whose JSON does not read back to the text
  that was signed, such as one with the integer keys 9 and 10 (`AuditChain.StepSpoils`).
* Nonces are meant to be single-use. A request stamped ahead of the clock can pass twice, and only such a one
  (`ReplayGuard.TwiceExactly`); a timestamp that reads as NaN passes the freshness test, so such a request can be
  accepted without bound (`ReplayGuard.AtMostTwiceExactly`).
* The duplicate-order rule looks only at orders with a body. A posted order without one can be repeated at once
  under another nonce (`Pipeline.OrdersRepeatExactly`, `Pipeline.EmptyOrderIsQuiet`).
* A worse WAF finding can lower the risk score: at 90 it displaces a rule or authentication finding that is worse still
  (`RiskEngine.ScoreFallsExactly`). The decision never relaxes for it (`RiskEngine.DecisionMonotoneInWaf`), but it can
  for a more severe rule (`RiskEngine.DecisionFallsInRuleExactly`) and for a more severe authentication anomaly
  (`RiskEngine.DecisionFallsInAuthExactly`).
* The breaker's comments speak of limited trial calls; while half open every request is admitted
  (`CircuitBreaker.HalfOpenAdmitsAll`, `CircuitBreaker.HalfOpenFloods`).
* A rule that raises does not fire: a textual price hides a negative one behind it
  (`RuleChecks.NegativeItemUnnoticedExactly`).
* The telemetry pipeline promises that no event is lost; an event whose disk write fails is
  (`Telemetry.LossIsFailedWrites`). A flush beside the worker can reorder events (`Telemetry.FileOrderExactly`).
* Two exact route patterns of equal length that match one path are resolved by registration order
  (`RouteAllowlist.OrderMattersExactly`, `RouteAllowlist.TieIsReachable`).
* The rule histories live in each worker process, so a deployment multiplies the rate bounds by its workers
  (`Pipeline.WorkersForwardAtMost`).

## How things are represented

Clock readings are integers in microseconds and enter as parameters, one reading per call; results about runs ask that
they do not go back. Action identifiers, the whitelist test, hash functions, regular expressions, percent-decoding,
the canonical JSON text, disk outcomes and random draws are parameters as well. Identifiers that the program treats
alike when absent or empty are strings with the empty string for absent. Risk scores, error rates and canary weights
are exact reals with the program's rounding written out; latencies are whole hundredths of a millisecond. The index
`int(0.95 * (n - 1))` is `95 * (n - 1) / 100`. The digest of the audit chain (HMAC, section 2 of RFC 2104) and the
percent-decoding (section 2.1 of RFC 3986) are arbitrary functions, and so is what writing a payload as JSON and
reading it back makes of it; that it keeps the signed text is never assumed but part of the conditions. Where
hexadecimal output matters it is a stated hypothesis, and collisions appear in conclusions only. An audit record is
its position, link, signature and payload, and one text for the timestamp and whatever else no signature covers. The
pipeline composes the scanner, the route catalogue, the rules and every stateful component; the JSON parser, the two
request schemas and the verdicts on token and object are parameters of a configuration or a request.

## Model

| member | source | states |
|---|---|---|
| `StateStore.InMemoryStateStore.SetNonceNx` | gateway/state_store.py:28-39 | a nonce is claimed unless an unexpired claim exists; a refused claim changes nothing |
| `StateStore.InMemoryStateStore.AddToSet` | gateway/state_store.py:41-45 | the named set gains the member, all other collections keep their contents |
| `StateStore.InMemoryStateStore.RemoveFromSet` | gateway/state_store.py:47-52 | the named set loses the member, and the answer says whether it was there |
| `StateStore.InMemoryStateStore.SetHashEntry` | gateway/state_store.py:62-66 | one entry of one named hash is set, all other collections keep their contents |
| `StateStore.InMemoryStateStore.DeleteHashEntry` | gateway/state_store.py:76-81 | one entry of one named hash goes, and the answer says whether it was there |
| `Actions.AgentAction.constructor` | agents/base.py:58-79 | the fields as given or defaulted; a high-impact action goes behind the human gate and, if its status is the default, is pending; any other status stays as given |
| `Actions.GatedStatus` | agents/base.py:47-79 | the four high-impact kinds need a human and start pending; no other status is changed, so construction never makes an action approved or executed that was not stated to be |
| `Mitigation.MitigationEngine.ApplyAction` | gateway/mitigation_engine.py:74-185 | the whole new state and the outcome: refused without approval, declined when whitelisted or unsupported, otherwise registered and in force |
| `Mitigation.MitigationEngine.Register` | gateway/mitigation_engine.py:111-183 | the containment each kind of action puts in local memory and in the store, with its capped expiry |
| `Mitigation.MitigationEngine.RollbackAction` | gateway/mitigation_engine.py:187-213 | an unknown action changes nothing; a known one is released locally and in the store and forgotten |
| `Mitigation.MitigationEngine.EvaluateRequest` | gateway/mitigation_engine.py:215-331 | verdict and swept state of one evaluation equal the staged specification |
| `Mitigation.MitigationEngine.FindQuarantine` | gateway/mitigation_engine.py:246-260 | the one quarantine record a call consults, local before store, address before principal |
| `Mitigation.MitigationEngine.EvaluateSession` | gateway/mitigation_engine.py:275-300 | token and principal revocations as specified, expired ones swept |
| `Mitigation.MitigationEngine.EvaluateStepUp` | gateway/mitigation_engine.py:302-328 | MFA challenges and dynamic rate limits as specified, expired ones swept |
| `Mitigation.ReleaseLifts` | gateway/mitigation_engine.py:195-210 | releasing leaves no containment of that kind on that target anywhere and touches nothing recorded apart from it |
| `Mitigation.ReleaseChanges` | gateway/mitigation_engine.py:195-210 | releasing changes the state exactly when the target was contained |
| `Mitigation.RollbackLifts` | gateway/mitigation_engine.py:187-213 | after a rollback the target is free of that containment locally and in the store, the action is forgotten, and other containments stand |
| `Mitigation.ApplyRollback` | gateway/mitigation_engine.py:74-213 | applying a fresh action and rolling it back equals releasing its target |
| `Mitigation.ApplyThenRollback` | gateway/mitigation_engine.py:74-213 | apply then rollback restores the exact prior state if and only if the target had no containment of that kind |
| `Mitigation.ApplyEffects` | gateway/mitigation_engine.py:74-185 | exactly which suspensions, quarantines and registry entries an action changes |
| `Mitigation.RollbackEffects` | gateway/mitigation_engine.py:187-213 | exactly which suspensions, quarantines and registry entries a rollback removes |
| `Mitigation.ApplyTokens` | gateway/mitigation_engine.py:134-152 | only a revocation of a token target revokes a token, locally and in the store |
| `Mitigation.RollbackTokens` | gateway/mitigation_engine.py:198-203 | rolling back any revocation, of a token or of a principal, takes the clean text of its target out of the revoked tokens |
| `Mitigation.QuarantineVisible` | gateway/mitigation_engine.py:245-263 | the consulted quarantine is live exactly when a live quarantine names the request and is not hidden |
| `Mitigation.SessionVerdict` | gateway/mitigation_engine.py:275-328 | token, principal, MFA and rate-limit verdicts, each exactly when the containment exists and no earlier one applies |
| `Mitigation.EvaluateByPriority` | gateway/mitigation_engine.py:215-331 | the verdict is the first live containment in priority order: sound always, complete except for quarantines and rate limits hidden behind an expired record |
| `Mitigation.EvaluateFrame` | gateway/mitigation_engine.py:215-331 | an evaluation never touches suspensions, revoked tokens or the registry and only ever removes quarantines |
| `Mitigation.OutcomeExactly` | gateway/mitigation_engine.py:81-185 | which actions are carried out, which are an error and which are declined, by kind, status and whitelist |
| `Mitigation.InForceExactly` | gateway/mitigation_engine.py:89-331 | from any state: until its last moment (its duration, 900 s by default, at most 3600 s for a quarantine) an applied action refuses every request that names its target; a request that would otherwise pass is refused by exactly that action, with its status and retry time, or else passes as before |
| `Mitigation.RateLimitInForce` | gateway/mitigation_engine.py:154-162 | a rate limit refuses with 429 for its duration and records a limit of 5 in 60 seconds |
| `Mitigation.MfaInForce` | gateway/mitigation_engine.py:154-157 | an MFA challenge refuses its principal with 403 for its duration |
| `Mitigation.RevocationInForce` | gateway/mitigation_engine.py:134-152 | a revocation refuses its token for ever, or its principal for its duration, with 401 |
| `Mitigation.QuarantineInForce` | gateway/mitigation_engine.py:111-130 | a quarantine refuses its address or principal with 403 and the remaining seconds |
| `Mitigation.SuspensionInForce` | gateway/mitigation_engine.py:164-181 | a suspension refuses its principal with 403 for ever |
| `Mitigation.PassSweeps` | gateway/mitigation_engine.py:243-331 | a request that passes leaves none of the expired records it consulted behind |
| `Mitigation.CleanTokenTells` | gateway/mitigation_engine.py:137 | the scheme in front of a token does not matter, and its clean text has no blanks at its ends |
| `Mitigation.CleanTokenStands` | gateway/mitigation_engine.py:137 | a token without scheme and blanks is its own clean text |
| `Mitigation.SweepLosesLiveRecord` | gateway/mitigation_engine.py:245-273 | the store loses a live quarantine exactly when the evaluating replica picks its own expired copy of it |
| `Mitigation.SharedPrincipalRevocationsUnread` | gateway/mitigation_engine.py:143-152 | the store's principal revocations influence no verdict |
| `Replicas.StepSuspension` | gateway/mitigation_engine.py:164-213 | one step of any replica changes who is suspended exactly as its kind says, in the store and on that replica |
| `Replicas.SuspensionHolds` | gateway/mitigation_engine.py:229-243 | while no replica rolls the suspension back, every replica denies the account, over every run |
| `Replicas.SuspensionReachesEveryReplica` | gateway/mitigation_engine.py:164-185 | an approved suspension applied on one replica is enforced by all at once |
| `Replicas.SuspensionReleased` | gateway/mitigation_engine.py:187-243 | after the rollback only replicas with an entry of their own still deny, over every run without a new suspension |
| `Replicas.StepToken` | gateway/mitigation_engine.py:124-203 | one step of any replica changes which tokens are revoked exactly as its kind says |
| `Replicas.RevocationHolds` | gateway/mitigation_engine.py:275-283 | a revoked token is denied by every replica until a revocation with its clean text is rolled back, over every run |
| `Replicas.RevocationReleased` | gateway/mitigation_engine.py:187-283 | after the rollback the store no longer holds the token, and only replicas with their own entry can refuse a request for it, over every run without a new revocation |
| `Replicas.QuarantinesBacked` | gateway/mitigation_engine.py:90-122 | in every run each quarantine record stems from an order on a target that is not whitelisted and lasts an hour at most |
| `Replicas.QuarantineDenialIsRecent` | gateway/mitigation_engine.py:245-271 | every quarantine denial names an address or principal quarantined at most 3600 s before and never whitelisted |
| `Replicas.QuarantineReachesEveryReplica` | gateway/mitigation_engine.py:119-130 | a quarantine applied on one replica is enforced until its last moment by every replica without entries of its own for the request |
| `Replicas.SweepUndoesRenewal` | gateway/mitigation_engine.py:245-271 | a run from empty replicas: a quarantine renewed by one replica is deleted from the store by another whose own copy has expired, and a third lets the address pass |
| `Replicas.PrincipalRevokedOnOneReplica` | gateway/mitigation_engine.py:143-152 | a run from empty replicas: a principal revoked on one replica is refused there and admitted by the other |
| `Replicas.PrincipalRollbackRestoresToken` | gateway/mitigation_engine.py:198-203 | a run from empty replicas: rolling back the revocation of a principal lets the revoked token of the same text pass everywhere |
| `Response.ProposedShape` | agents/response_agent.py:77-121 | at most one action per kind, in order, on the alert's target; a suspension exactly for critical alerts and privilege escalation |
| `Response.ProposedExactly` | agents/response_agent.py:77-121 | in terms of the severity and category texts: which alert calls for which of the four actions, for how many seconds, each at most once, and for nothing else |
| `Response.LifeCycle` | agents/response_agent.py:157-219 | approving, rejecting and revoking: which status each demands, what it sets, what it answers otherwise, and that nothing else about any action changes |
| `Response.TablesFollow` | agents/response_agent.py:221-241 | which targets the containment tables list, and with what, after executing or revoking an action |
| `Response.TablesByAction` | agents/response_agent.py:127-219 | filing, approving and revoking touch the tables by exactly the action that they execute or revoke |
| `Response.ResponseAgent.Propose` | agents/response_agent.py:77-121 | the action objects created are new, distinct and those the alert calls for |
| `Response.ResponseAgent.RegisterAction` | agents/response_agent.py:127-135 | one action is filed; without a human it is contained and marked executed |
| `Response.ResponseAgent.FormulateResponsePlan` | agents/response_agent.py:66-155 | registry and containment tables after filing every proposed action, and the executed ones in order |
| `Response.ResponseAgent.ApplyContainment` | agents/response_agent.py:221-231 | the containment table each kind of action writes |
| `Response.ResponseAgent.ReleaseContainment` | agents/response_agent.py:233-241 | the containment table each kind of action clears |
| `Response.ResponseAgent.ApproveAction` | agents/response_agent.py:157-180 | only a pending action is approved; it ends executed under the analyst's name |
| `Response.ResponseAgent.RejectAction` | agents/response_agent.py:182-196 | any registered action is marked rejected, whatever its status |
| `Response.ResponseAgent.RevokeAction` | agents/response_agent.py:198-219 | only an executed action is revoked and released |
| `Orchestrator.SecurityOrchestrator.Submit` | agents/orchestrator.py:97-101 | one action is offered to the engine, and the log notes it exactly if it was accepted |
| `Orchestrator.SecurityOrchestrator.ProcessSecurityEvent` | agents/orchestrator.py:51-106 | a disabled orchestrator or an event without alert changes nothing; otherwise the plan is filed and its automatic actions enforced |
| `Orchestrator.SecurityOrchestrator.ApproveAction` | agents/orchestrator.py:173-183 | agent and engine after an approval, the approved action being enforced at once |
| `Orchestrator.SecurityOrchestrator.RejectAction` | agents/orchestrator.py:185-189 | agent after a rejection, the engine untouched |
| `Orchestrator.SecurityOrchestrator.RevokeAction` | agents/orchestrator.py:191-198 | agent and engine after a revocation, the containment rolled back |
| `Orchestrator.EnactKeepsInv` | agents/orchestrator.py:95-101 | handing the engine an executed action that is new to it, or just approved, keeps the gate's invariant |
| `Orchestrator.FileAllKeepsInv` | agents/response_agent.py:123-135 | filing any list of new actions keeps the gate's invariant and adds nothing else |
| `Orchestrator.EnactAllKeepsInv` | agents/orchestrator.py:95-101 | enforcing automatic actions, once each, keeps the gate's invariant |
| `Orchestrator.EnactAllLogs` | agents/orchestrator.py:95-101 | enforcing actions logs their enforcements and nothing else |
| `Orchestrator.StepKeepsInv` | agents/orchestrator.py:51-198 | every step of the orchestrator and every request evaluation keeps the gate's invariant |
| `Orchestrator.RunKeepsInv` | agents/orchestrator.py:51-198 | the gate's invariant holds in every reachable state |
| `Orchestrator.SuspendedOnlyIfApproved` | agents/response_agent.py:157-180 | in every run a suspended principal, locally or in the store, stands under an approved and unrevoked action on it, and the record names the approving analyst |
| `Orchestrator.EnforcedOnceAndInTime` | agents/orchestrator.py:92-198 | in every run nothing but an approval precedes an enforcement, so none is repeated or follows a rejection or revocation; a high-impact one comes straight after its approval |
| `Orchestrator.EventEnforces` | agents/orchestrator.py:51-106 | a security event files every action its alert calls for and enforces all but a suspension, which waits, and a quarantine of a whitelisted address |
| `Orchestrator.EnactLogs` | agents/orchestrator.py:97-101 | an action handed to the engine is logged exactly if its outcome is that it was applied |
| `Orchestrator.StepSuspends` | agents/response_agent.py:157-219 | one step changes who is suspended exactly by approving a pending suspension or revoking an executed one |
| `Orchestrator.SuspendedExactly` | agents/orchestrator.py:173-198 | over every run a principal is suspended if and only if some step approved a suspension of it and no later step revoked one; engine memory and store agree |
| `Orchestrator.StepStrands` | agents/response_agent.py:182-219 | a step leaves an action rejected yet enforced exactly by rejecting it while enforced, and no step ever frees one |
| `Orchestrator.StrandedExactly` | agents/response_agent.py:182-219 | over every run an action ends rejected yet enforced if and only if some step rejected it while it was enforced |
| `Orchestrator.RejectionCanStrand` | agents/response_agent.py:182-211 | a two-step run from the empty state that strands an action, which the agent then refuses to revoke |
| `AuditChain.SignStringInjective` | gateway/compliance.py:58-62 | the signing string determines index, link and canonical payload when the links hold no colon |
| `AuditChain.SignStringAmbiguous` | gateway/compliance.py:58-62 | without that proviso it does not |
| `AuditChain.DigitsRead` | gateway/compliance.py:58-62 | positions are signed in decimal notation |
| `AuditChain.GenesisIsZeros` | gateway/compliance.py:23 | the first record links to sixty-four zeros |
| `AuditChain.TamperEvidentAuditChain.constructor` | gateway/compliance.py:29-41 | opening a chain takes last signature and count from the existing log |
| `AuditChain.TamperEvidentAuditChain.InitializeFromExistingLog` | gateway/compliance.py:43-56 | reading stops at the first malformed line, or after taking the signature of a record whose position is no number, and keeps what it read |
| `AuditChain.TamperEvidentAuditChain.AppendEvent` | gateway/compliance.py:64-88 | the sealed and stamped record is appended, for every way the write can go, and the memory advanced exactly when the write succeeds |
| `AuditChain.TamperEvidentAuditChain.CheckBlock` | gateway/compliance.py:113-129 | index, link and signature checks in order, each with its verdict |
| `AuditChain.TamperEvidentAuditChain.VerifyChain` | gateway/compliance.py:90-134 | the sequential verification equals the specification on every file |
| `AuditChain.VerifyAcceptsChains` | gateway/compliance.py:99-134 | a log is accepted exactly when no line is malformed and its records form a chain |
| `AuditChain.VerifyCountsLongestPrefix` | gateway/compliance.py:99-134 | on any log the returned count is the number of records of the longest acceptable prefix |
| `AuditChain.RaisesExactly` | gateway/compliance.py:113-129 | the verifier raises rather than answers exactly at a record that continues the chain but whose signature is missing or not ASCII |
| `AuditChain.SameSignature` | gateway/compliance.py:58-62 | two sealed records with one signature agree in everything that is signed, or their signed texts collide |
| `AuditChain.VerifyIgnoresUnsigned` | gateway/compliance.py:71-134 | rewriting what no signature covers, such as timestamps, in any records of any log changes no verdict |
| `AuditChain.EditAcceptedExactly` | gateway/compliance.py:58-134 | an accepted log with one record replaced under its old signature stays accepted exactly when position and link are the same and the signed text has the same digest |
| `AuditChain.StampCanBeRewritten` | gateway/compliance.py:71-134 | a log written by one append is accepted under any other timestamp |
| `AuditChain.AcceptedExactlyPrefixes` | gateway/compliance.py:58-134 | a well-formed log that repeats the first records of a run up to what is unsigned is accepted; an accepted log made of the signatures of a run does so, or exhibits two different signed texts of the two logs with one digest |
| `AuditChain.RunTamperEvident` | gateway/compliance.py:58-134 | for every run, of any number of processes, that did not break its file, an accepted log made of its signatures is a prefix of what it wrote up to what is unsigned, payload for payload, or exhibits a collision; every such prefix is accepted |
| `AuditChain.NothingIsInvented` | gateway/compliance.py:58-134 | for every run at all, each record of an accepted log made of the signatures it issued is, up to what is unsigned, one it sealed, or there is a collision |
| `AuditChain.LoadAgrees` | gateway/compliance.py:43-56 | reloading a valid log finds its length and its last signature |
| `AuditChain.LoadPastDamage` | gateway/compliance.py:43-56 | a reload stops at the first damaged line, or at the first record whose position is no number, with what it had; whatever follows |
| `AuditChain.StepKeeps` | gateway/compliance.py:43-88 | a step that breaks nothing adds exactly the landed record and says whether its process is then up to date and the last line ended |
| `AuditChain.StepSpoils` | gateway/compliance.py:43-134 | a fragment, a record after an unended line, a record of a process that is behind, or one whose payload does not read back as signed, leaves a file that is rejected |
| `AuditChain.MoveHealth` | gateway/compliance.py:43-88 | one move of one of several processes changes who is behind, and whether the file is intact, as the health says |
| `AuditChain.RunVerifiesExactly` | gateway/compliance.py:43-134 | after any run of appends, failed appends and restarts of any number of processes the log verifies with count equal to the block count of a process if and only if nothing broke and that process is up to date, and verifies at all if and only if nothing broke; its payloads are then the events that landed, as read back, in order |
| `AuditChain.ForkBreaks` | gateway/compliance.py:64-134 | two processes that append to one log without a restart in between break it for good |
| `AuditChain.BrokenStays` | gateway/compliance.py:99-134 | no later line makes a rejected file acceptable |
| `AuditChain.TornForever` | gateway/compliance.py:79-134 | after a fragment that does not parse the log is rejected for ever |
| `ReplayGuard.RejectionChangesNothing` | gateway/replay_guard.py:43-69 | a rejected request leaves the store unchanged; an accepted one changes only its own key |
| `ReplayGuard.ThreatsInFigures` | gateway/replay_guard.py:43-69 | which requests are refused, and with 80, 85 or 95; the key is the nonce before the idempotency key |
| `ReplayGuard.AcceptancesSpaced` | gateway/replay_guard.py:57-64 | in every run two acceptances of one key are more than the skew apart |
| `ReplayGuard.AcceptedOnceIfNotAhead` | gateway/replay_guard.py:43-69 | a request whose timestamp was not ahead of the clock when accepted is never accepted again |
| `ReplayGuard.AtMostTwiceExactly` | gateway/replay_guard.py:43-69 | a request can be accepted three times exactly when its timestamp is absent or NaN, or it has no key and a readable timestamp; it can then be accepted any number of times |
| `ReplayGuard.TwiceExactly` | gateway/replay_guard.py:43-69 | a keyed request accepted at some time can be accepted again in some run if and only if its timestamp was ahead of the clock then |
| `ReplayGuard.ReplayGuard.ValidateRequest` | gateway/replay_guard.py:32-69 | outcome and nonce table of one validation, for every form of header |
| `CircuitBreaker.CountersRefineHistory` | gateway/ha_dr.py:46-87 | phase, failure count, success count and time of change are those the call history determines, with their bounds |
| `CircuitBreaker.TurnsExactly` | gateway/ha_dr.py:46-87 | opening, closing, starting a trial and refusing, each if and only if the history says so |
| `CircuitBreaker.NoAdmissionWithinTimeout` | gateway/ha_dr.py:46-58 | in every run no request is admitted less than the recovery timeout after a trip |
| `CircuitBreaker.HalfOpenAdmitsAll` | gateway/ha_dr.py:46-60 | while half open every request is admitted, however many come before an answer |
| `CircuitBreaker.HalfOpenFloods` | gateway/ha_dr.py:46-87 | a run in which one trial and any number of further requests are admitted at once |
| `CircuitBreaker.CircuitBreaker.AllowRequest` | gateway/ha_dr.py:46-58 | state and answer of an admission request |
| `CircuitBreaker.CircuitBreaker.RecordSuccess` | gateway/ha_dr.py:60-71 | state after a success in each phase |
| `CircuitBreaker.CircuitBreaker.RecordFailure` | gateway/ha_dr.py:73-87 | state after a failure in each phase |
| `SlidingWindow.Purge` | gateway/rate_limiter.py:22 | purging a list keeps exactly the later times, in order |
| `SlidingWindow.AfterExactly` | gateway/rate_limiter.py:16-24 | what is kept is exactly what is later than the cutoff, as often as it was there |
| `SlidingWindow.AfterKeepsOrder` | gateway/rate_limiter.py:16-24 | it is kept in order |
| `SlidingWindow.AfterAfter` | gateway/rate_limiter.py:22 | purging early loses nothing a later purge would keep |
| `SlidingWindow.WindowIsExact` | gateway/rate_limiter.py:16-24 | in every run the pruned list shows any current or later window exactly what the full history would |
| `SlidingWindow.HitCountIsExact` | gateway/rate_limiter.py:16-24 | the list after a hit holds that hit and every earlier one of its window |
| `SlidingWindow.PassedAtMostLimit` | gateway/rules_engine.py:356-363 | in any half-open interval as long as the window at most the limit of hits find themselves within the limit |
| `RateLimiter.InMemoryRateLimiter.CheckAndIncrement` | gateway/rate_limiter.py:16-24 | the count equals the naive count over the whole history |
| `RateLimiter.RateScoreGrades` | gateway/rate_limiter.py:98-108 | the five grades and their bounds; the score only rises with the count |
| `AlertDeduplicator.AlertDeduplicator.ShouldAlert` | ml/retraining_pipeline.py:117-136 | an alert is forwarded exactly while its cluster, counted over the whole history, is within the maximum |
| `AlertDeduplicator.KeysApart` | ml/retraining_pipeline.py:117-136 | alerts cluster by entity and type together, as long as types hold no colon |
| `AlertDeduplicator.ForwardedAtMostMax` | ml/retraining_pipeline.py:117-136 | in any half-open window at most the maximum of alerts of one cluster is forwarded |
| `CredentialDefense.ListsAreExact` | gateway/credential_defense.py:18-44 | in every run the pruned lists show any current or later window exactly what the full failure history would |
| `CredentialDefense.CheckIsExact` | gateway/credential_defense.py:25-56 | a check flags exactly when the full history holds the threshold of failures in the window, by address or by user |
| `CredentialDefense.CredentialDefense.RecordFailure` | gateway/credential_defense.py:18-23 | a failure is added to the address and, if named, to the user |
| `CredentialDefense.CredentialDefense.CheckStatus` | gateway/credential_defense.py:25-56 | flag, threat and pruned lists of one check |
| `RiskEngine.GetEndpointSensitivity` | gateway/risk_engine.py:28-33 | the first covering prefix of the catalogue, or the default |
| `RiskEngine.SensitivityInFigures` | gateway/risk_engine.py:10-33 | the rating of every path, by the literal prefixes |
| `RiskEngine.RoundMonotone` | gateway/risk_engine.py:96 | rounding half to even keeps order |
| `RiskEngine.RoundIsNear` | gateway/risk_engine.py:96 | rounding moves a figure by half a hundredth at most, to a whole number of hundredths |
| `RiskEngine.CompositeInFigures` | gateway/risk_engine.py:50-82 | for nominal signals the threat is the greater of the average severity and the decisive one, and the composite weighs threat, endpoint, missing trust and context 40, 25, 20 and 15 |
| `RiskEngine.ScoreInFigures` | gateway/risk_engine.py:84-98 | the score by branch: floors of 85, 65 and 60, the ceiling of 74, else the rounded composite |
| `RiskEngine.DecisionInFigures` | gateway/risk_engine.py:98-106 | the four decisions by the score: up to 20, 50, 75 and above |
| `RiskEngine.ScoreMonotone` | gateway/risk_engine.py:50-106 | the score lies in 0 to 100 and never falls with more request pressure, more anomaly or less trust |
| `RiskEngine.Floors` | gateway/risk_engine.py:84-106 | a WAF or rule severity of 80 forces a block, a rule of 60 at least a challenge, a lone authentication anomaly exactly a challenge |
| `RiskEngine.QuietIsTolerated` | gateway/risk_engine.py:50-106 | without findings, trust of at least one half and anomaly of at most 50 are never challenged |
| `RiskEngine.DecisionMonotoneInWaf` | gateway/risk_engine.py:50-106 | a more severe WAF finding never relaxes the decision, and on either side of 90 never lowers the score |
| `RiskEngine.CompositeFallsExactly` | gateway/risk_engine.py:50-82 | a more severe WAF finding lowers the composite exactly when it crosses 90 and takes the place of a rule or authentication finding that is worse than it and than the average |
| `RiskEngine.ScoreFallsExactly` | gateway/risk_engine.py:50-106 | the score falls exactly when such a displacement happens above the block floor, uncapped, and survives rounding |
| `RiskEngine.WideFallSurvives` | gateway/risk_engine.py:50-106 | on the inputs: a displacement that costs more than 0.025 of threat above the block floor, uncapped, does lower the score |
| `RiskEngine.ScoreDipsInWaf` | gateway/risk_engine.py:55-64 | such a fall is within reach: a WAF finding of 90 displaces a rule of 100 |
| `RiskEngine.DecisionFallsInRuleExactly` | gateway/risk_engine.py:84-106 | a more severe rule relaxes the decision exactly when its branch of 60 pre-empts the block of a strong authentication anomaly combined with a WAF finding of 75 to 80, and the composite does not block by itself |
| `RiskEngine.RuleCanRelax` | gateway/risk_engine.py:84-106 | such a fall is within reach: a rule of 60 turns a block into a challenge |
| `RiskEngine.DecisionFallsInAuthExactly` | gateway/risk_engine.py:84-106 | a more severe authentication anomaly relaxes the decision exactly when it brings in the ceiling of a lone anomaly on a request that the composite would block |
| `RulesEngine.SeverityTells` | gateway/rules_engine.py:190-212 | the severity is zero when nothing fires and at least the least severity otherwise |
| `RulesEngine.SeverityIsHighest` | gateway/rules_engine.py:190-212 | for any rules, whatever fires is reported and nothing that fires is more severe than the severity |
| `RulesEngine.ReportedFires` | gateway/rules_engine.py:190-212 | for any rules, each reported identifier fires, and so does a rule of the reported severity unless nothing is reported |
| `RulesEngine.ShippedVerdict` | gateway/rules_engine.py:190-365 | with the configured rules: which identifiers are reported in which order at which severity, the two histories counted over five seconds and one minute |
| `RulesEngine.ShippedEffect` | gateway/rules_engine.py:190-365 | with the configured rules each history takes one entry per covered request, and a severity below 60 means nothing fired and both limits hold |
| `RulesEngine.ShippedSilentExactly` | gateway/rules_engine.py:190-365 | with the configured rules nothing fires exactly when every stateless check is silent and neither history is at its limit |
| `RulesEngine.RulesEngine.CheckDuplicateOrder` | gateway/rules_engine.py:242-275 | order history and finding of the duplicate check |
| `RulesEngine.RulesEngine.CheckMassAccess` | gateway/rules_engine.py:346-365 | access history and finding of the mass-access check |
| `RulesEngine.RulesEngine.EvaluateRules` | gateway/rules_engine.py:190-212 | histories, highest severity and fired rules after all rules in order |
| `RuleChecks.FirstDecisiveExactly` | gateway/rules_engine.py:236-240 | an item loop fires or raises exactly at the first item that is not quiet |
| `RuleChecks.NegativePriceExactly` | gateway/rules_engine.py:218-240 | exactly which orders the negative-price check fires on, exceptions included |
| `RuleChecks.NumbersTell` | gateway/rules_engine.py:218-313 | what counts as negative, as too much and as no number, booleans and infinities included |
| `RuleChecks.NegativeItemExactly` | gateway/rules_engine.py:231-239 | an item is negative by price, unit price or quantity, in this order, absent ones being zero |
| `RuleChecks.NegativeItemUnnoticedExactly` | gateway/rules_engine.py:202-240 | a negative item goes unnoticed exactly when the total is no number or an earlier item raises before any fires |
| `RuleChecks.TextPriceHidesNegative` | gateway/rules_engine.py:202-240 | such an order exists: a textual price before a negative one |
| `RuleChecks.DepletesExactly` | gateway/rules_engine.py:277-313 | exactly which orders the inventory check fires on, exceptions included |
| `RuleChecks.DemandOfObject` | gateway/rules_engine.py:288-293 | the product of an item is its first non-empty of sku, name and item_id, its quantity one by default |
| `RuleChecks.DemandOfText` | gateway/rules_engine.py:294-305 | a textual item names product and quantity around its first colon, the quantity one if it is no number |
| `RuleChecks.RoleAndSequenceExactly` | gateway/rules_engine.py:315-344 | granting the admin role without having it, and posting an order without a principal |
| `Pipeline.Gateway.ScreenRequest` | gateway/app.py:474-629 | containment, size, brute force, WAF, route and schema gates in order, with their statuses, over the scanner and the route catalogue themselves |
| `Pipeline.Gateway.ScanRequest` | gateway/app.py:547-568 | the three scans of URL, body text and parsed body |
| `Pipeline.Gateway.CheckSchema` | gateway/app.py:610-629 | malformed JSON and refused schemas of posted and put bodies |
| `Pipeline.Gateway.CheckFreshness` | gateway/app.py:631-697 | freshness requirement and replay check of state-changing requests |
| `Pipeline.Gateway.CheckIdentity` | gateway/app.py:699-735 | token verification and the principal's containments, unless exempt |
| `Pipeline.Gateway.ConsultHistories` | gateway/app.py:761-831 | rules and rate counter of one request |
| `Pipeline.Gateway.DecideRequest` | gateway/app.py:833-896 | risk decision, hard rate cap and circuit breaker, with their statuses |
| `Pipeline.Gateway.HandleRequest` | gateway/app.py:443-896 | the whole order of gates from arrival to the forward-or-deny decision |
| `Pipeline.BypassExactly` | gateway/app.py:452-472 | which paths the gateway answers itself |
| `Pipeline.ScreenInFigures` | gateway/app.py:474-629 | the first gates in order, each with its status |
| `Pipeline.FreshnessInFigures` | gateway/app.py:631-697 | which state-changing requests are refused with 400 for want of freshness, and which are exempt, by the literal methods and paths |
| `Pipeline.IdentityInFigures` | gateway/app.py:699-735 | who needs no token, and what the others are refused with |
| `Pipeline.ViewInFigures` | gateway/app.py:737-769 | what the rules are shown of a request |
| `Pipeline.EmbeddedInFigures` | gateway/waf.py:160-170 | which JSON the scanner looks for inside a text |
| `Pipeline.SignalsInFigures` | gateway/app.py:740-843 | what the risk engine is told of a request |
| `Pipeline.DecideInFigures` | gateway/app.py:833-896 | the last gates in order, each with its status |
| `Pipeline.StepsInFigures` | gateway/app.py:897-942 | what answers and failures of the ERP and containment orders do to the components |
| `Pipeline.ForwardedIsFresh` | gateway/app.py:645-660 | in every run no request but a login reaches the ERP that changes state and carries neither nonce nor idempotency key nor timestamp |
| `Pipeline.BareChangeIsRefused` | gateway/app.py:645-660 | such a request, once past the screen, is refused with 400, and nothing but the screen has seen it |
| `Pipeline.PassingDecision` | gateway/app.py:833-888 | a decision that lets a request through had no rule of 60 or more and no object-level violation behind it |
| `Pipeline.DecideEffect` | gateway/app.py:761-896 | the last gates record the request in the histories and forward it only if no rule fired and both limits hold |
| `Pipeline.HandleEffect` | gateway/app.py:443-896 | what one request adds to the histories, and what is true of it if forwarded |
| `Pipeline.RunIsFaithful` | gateway/app.py:443-896 | over every run the nonce table and both rule histories are what the recorded hits make of them |
| `Pipeline.ForwardedAmongPassed` | gateway/app.py:772-896 | each forwarded request is one its history found within the limit |
| `Pipeline.ForwardedAtMostLimit` | gateway/app.py:772-942 | in every run of one worker, no more is forwarded under one key of the order, access and rate histories in any half-open window than its limit |
| `Pipeline.BoundsInFigures` | gateway/app.py:772-896 | in every run of one worker: at most 100 requests of a client for orders or users in any half-open 60 s, one of identical orders with a body in any 5 s, and 1000 from an address in any window of the rate limiter |
| `Pipeline.RunRates` | gateway/rate_limiter.py:16-24 | over every run the rate limiter's lists are what the counted requests make of them |
| `Pipeline.WorkersForwardAtMost` | gateway/Dockerfile:23 | a deployment of several workers forwards at most their number times these limits |
| `Pipeline.IdenticalOrdersApart` | gateway/rules_engine.py:242-275 | in every run two orders with one client and one body that is not empty reach the ERP at least five seconds apart |
| `Pipeline.OrdersRepeatExactly` | gateway/rules_engine.py:242-275 | a blameless order can reach the ERP twice within five seconds in some run if and only if its parsed body is empty or otherwise false |
| `Pipeline.EmptyOrderIsQuiet` | gateway/rules_engine.py:202-330 | with the configured rules a posted order without body passes every stateless check and the schema gate |
| `Pipeline.ForwardedWasAccepted` | gateway/app.py:649-697 | a forwarded state-changing request was accepted by the replay guard |
| `Pipeline.ForwardedNoncesApart` | gateway/app.py:649-697 | in every run two forwarded state-changing requests with one key are more than the skew apart |
| `Pipeline.ForwardedIsClean` | gateway/app.py:474-896 | in every run nothing is forwarded under a suspended principal or a revoked token, that fires a rule, touches a refused object, shows any family of patterns in any variant of any of its texts, or is not permitted by its best matching route |
| `Pipeline.NoAttackExactly` | gateway/app.py:547-568 | the scanner gate lets a request pass exactly when every text in it is harmless in every variant |
| `Pipeline.ForwardedBelowThreshold` | gateway/credential_defense.py:18-56 | in every run nothing is forwarded from an address that reached the threshold of failed logins in the window, counted over the whole history |
| `Pipeline.NothingForwardedWhileOpen` | gateway/ha_dr.py:46-87 | in every run nothing is forwarded less than the recovery timeout after the breaker opened |
| `Pipeline.BlamelessReaches` | gateway/app.py:443-896 | a blameless first request reaches the ERP: the gates do not satisfy the bounds by refusing everything |
| `Pipeline.ConfiguredRulesAreShipped` | config/rules.yaml:4-50 | the configured rule list meets the hypothesis of the pipeline results |
| `TrafficMetrics.Sorted` | gateway/canary_router.py:70 | the ascending rearrangement of the samples |
| `TrafficMetrics.RankOf` | gateway/canary_router.py:70-73 | in ascending order position k exceeds a limit exactly when at most k entries respect it |
| `TrafficMetrics.PercentileExceeds` | gateway/canary_router.py:70-85 | a percentile exceeds a limit exactly when at most its index many samples of the window respect it |
| `TrafficMetrics.P95MeansMoreThanFivePercent` | gateway/canary_router.py:72-85 | a 95th percentile over the limit means that more than one sample in twenty is |
| `TrafficMetrics.PushKeepsLast` | gateway/canary_router.py:45-51 | the bounded deque holds the last entries of everything pushed |
| `TrafficMetrics.ObserveIsExact` | gateway/canary_router.py:50-55 | recording a request keeps the metrics those of the history: its last latencies, its length, its errors |
| `TrafficMetrics.StatsTell` | gateway/canary_router.py:57-86 | the statistics of a history by counting: the three percentiles at their index and the rounded share of its errors |
| `TrafficMetrics.ErrorRateIsClose` | gateway/canary_router.py:77-82 | the rounded error rate is within half a ten-thousandth of the true one |
| `TrafficMetrics.TrafficMetrics.Record` | gateway/canary_router.py:50-55 | one request recorded; window, total and error count stay those of the requests since the reset |
| `TrafficMetrics.TrafficMetrics.GetStats` | gateway/canary_router.py:57-86 | the statistics are the percentiles and the error rate of the recorded requests |
| `TrafficMetrics.TrafficMetrics.Reset` | gateway/canary_router.py:88-92 | everything recorded is forgotten |
| `CanaryRouter.BreachByCounting` | gateway/canary_router.py:300-334 | the breach test, restated by counting samples over the limit |
| `CanaryRouter.RollsBackExactly` | gateway/canary_router.py:260-334 | after a canary request the router is rolled back at weight 0 if and only if the route or the aggregate is over budget by count; otherwise stage and weight stand |
| `CanaryRouter.MetricsAreExact` | gateway/canary_router.py:181-288 | in every run the recorders count exactly the canary requests since the last promotion, all and by route, and all stable ones: last 500 latencies, every request, every status of 500 or more |
| `CanaryRouter.RunRollsBackExactly` | gateway/canary_router.py:260-334 | in every run a canary request rolls the canary back if and only if the requests counted since the last promotion, all or those to its route, are over budget |
| `CanaryRouter.WeightsInFigures` | gateway/canary_router.py:165-201 | weight and stage after setting a weight, promoting and rolling back, and which metrics are cleared |
| `CanaryRouter.BudgetsTell` | gateway/canary_router.py:138-153 | the first path entry decides, its gaps filled by the limits of the router; else the default for the method |
| `CanaryRouter.NamedBudgetTells` | gateway/canary_router.py:147-153 | a named default is the first entry of its name |
| `CanaryRouter.DefaultBudgets` | gateway/canary_router.py:95-102 | the budget of every path and method without configuration |
| `CanaryRouter.PiecesShareKey` | gateway/canary_router.py:155-163 | requests to the pieces of an order or a user count as one route |
| `CanaryRouter.RouteKeyIgnores` | gateway/canary_router.py:155-163 | a query and a final slash do not matter to the route |
| `CanaryRouter.PathIsKey` | gateway/canary_router.py:155-163 | any other path is its own route |
| `CanaryRouter.WeightMatchesStage` | gateway/canary_router.py:165-215 | in every run the weight lies in the band of its stage, and is 0 exactly when disabled or rolled back |
| `CanaryRouter.StickyAndMonotone` | gateway/canary_router.py:217-258 | what is routed to the canary at one weight is routed there at every larger one, and an identifier regardless of the draw |
| `CanaryRouter.RoutesExactly` | gateway/canary_router.py:217-258 | who is routed to the canary: by header, weight, the ten thousand buckets of user before address, or the draw |
| `CanaryRouter.RolledBackStays` | gateway/canary_router.py:195-258 | after a rollback only the override header reaches the canary until a promotion or a new weight |
| `CanaryRouter.CanaryRouter.GetRouteBudget` | gateway/canary_router.py:138-153 | first matching route prefix, then the method's default, then the router's limits |
| `CanaryRouter.CanaryRouter.SetCanaryWeight` | gateway/canary_router.py:165-179 | clamped weight and its stage |
| `CanaryRouter.CanaryRouter.PromoteTo` | gateway/canary_router.py:181-193 | stage, weight and cleared metrics after a promotion |
| `CanaryRouter.CanaryRouter.RollBackNow` | gateway/canary_router.py:195-201 | stage and weight after a rollback, metrics untouched |
| `CanaryRouter.CanaryRouter.ObserveRequest` | gateway/canary_router.py:274-288 | which recorders a request is noted in |
| `CanaryRouter.CanaryRouter.OverLimit` | gateway/canary_router.py:302-313 | the limit test on one recorder |
| `CanaryRouter.CanaryRouter.EvaluateCanarySlo` | gateway/canary_router.py:290-334 | rollback exactly when the specified test says so |
| `CanaryRouter.CanaryRouter.RecordRequest` | gateway/canary_router.py:260-288 | the whole effect of recording one request |
| `CanaryRouter.CanaryRouter.ShouldRouteToCanary` | gateway/canary_router.py:217-258 | the routing decision in its order of precedence |
| `Waf.WorstIsMaximum` | gateway/waf.py:105-158 | the exhaustive score is the maximum over every family and every variant, and is attained |
| `Waf.ScoreByDetectors` | gateway/waf.py:105-158 | what 95, 90, 85 and 0 mean in terms of the five lists of literals and patterns |
| `Waf.VariantsCover` | gateway/waf.py:87-103 | the variants include the text, both decodings and the unescaping of each, and are at most nine |
| `Waf.VariantsOnly` | gateway/waf.py:87-103 | nothing else is a variant but decodings, unescapings and decoded unescapings |
| `Waf.UnescapingIsDecoded` | gateway/waf.py:97-103 | what unescaping the text reveals is decoded once more |
| `Waf.RevealedIsDecoded` | gateway/waf.py:97-103 | the same for every text that is unescaped |
| `Waf.BuildVariants` | gateway/waf.py:87-103 | the list of variants as built |
| `Waf.Search` | gateway/waf.py:111-125 | one family finds something in one variant exactly when a literal or pattern of it does |
| `Waf.Scan` | gateway/waf.py:108-158 | one early-exit pass raises the score exactly as an exhaustive one would |
| `Waf.InspectText` | gateway/waf.py:78-175 | with all early exits, score and flag equal the exhaustive reading |
| `Waf.MaxThreatBounds` | gateway/waf.py:186-210 | the maximum over some texts bounds each, is attained and lies in 0 to 95 |
| `Waf.TextsExactly` | gateway/waf.py:189-206 | the traversal meets a text exactly if some path of array items, field values and a final field name leads to it |
| `Waf.MaxThreatIsScore` | gateway/waf.py:178-210 | no text anywhere in a value threatens more than its score, and unless that is zero some text threatens as much |
| `Waf.NoThreatExactly` | gateway/waf.py:78-175 | a text scores zero exactly when no family finds anything in any of its variants |
| `Waf.Traverse` | gateway/waf.py:189-206 | the traversal accumulates the maximum over every key and every string leaf |
| `Waf.InspectPayload` | gateway/waf.py:178-210 | the score of a payload bounds the threat at every path and is attained at one; the flag says whether it is positive |
| `Waf.InspectContent` | gateway/waf.py:78-175 | text and embedded JSON combined by maximum |
| `RouteAllowlist.SortedOrderInOrder` | gateway/route_allowlist.py:79-82 | the stable sort puts every pair of rules in key order, ties by registration |
| `RouteAllowlist.SelectsBest` | gateway/route_allowlist.py:76-89 | sorting and taking the first match selects the unique best match, if any |
| `RouteAllowlist.ExactBeatsWildcard` | gateway/route_allowlist.py:78-86 | when an exact pattern matches, the selected rule is exact and no matching exact pattern is longer |
| `RouteAllowlist.WildcardExactly` | gateway/route_allowlist.py:16-28 | what a wildcard matches: its prefix, or its prefix, a slash and any one line, either with a final newline |
| `RouteAllowlist.LongestPrefixWins` | gateway/route_allowlist.py:16-24 | when no exact pattern matches, the wildcard with the strictly longest matching prefix is selected |
| `RouteAllowlist.OrderMattersExactly` | gateway/route_allowlist.py:78-86 | the selection depends on registration order exactly when two exact patterns of equal length match best |
| `RouteAllowlist.TieIsReachable` | gateway/route_allowlist.py:16-24 | such a tie exists: a placeholder at the end of one pattern and at the start of the other |
| `RouteAllowlist.WithoutKeepsDistinct` | gateway/route_allowlist.py:47-48 | dropping a pattern keeps the others, all and distinct |
| `RouteAllowlist.RouteAllowlist.AddRoute` | gateway/route_allowlist.py:44-50 | a registration replaces the rule of its pattern, keeps the others in order and stays free of duplicates |
| `RouteAllowlist.RouteAllowlist.ValidateRoute` | gateway/route_allowlist.py:71-94 | unknown path, refused method or permitted rule, by the selected rule |
| `Telemetry.EveryEventAccountedFor` | gateway/telemetry/event_pipeline.py:30-64 | under any interleaving of emitters, worker and any number of flushes every emitted event is found, as often as emitted, in the queue, a thread, the main file, the overflow file or among failed writes |
| `Telemetry.QueueBounded` | gateway/telemetry/event_pipeline.py:25 | the queue never outgrows its bound |
| `Telemetry.LossIsFailedWrites` | gateway/telemetry/event_pipeline.py:49-54 | exactly as many events are lost as disk writes failed |
| `Telemetry.EmitExactly` | gateway/telemetry/event_pipeline.py:30-64 | where each move puts an event: the queue unless full, then the overflow file; the oldest to a drainer; what it holds to the main file |
| `Telemetry.FileOrderExactly` | gateway/telemetry/event_pipeline.py:38-64 | under any interleaving the main file is out of the order of acceptance if and only if some write landed while another thread held an older event that was written later |
| `Telemetry.OneDrainerKeepsOrder` | gateway/telemetry/event_pipeline.py:38-47 | with one draining thread the main file is in order, failed writes or not |
| `Telemetry.OneDrainerIsFifo` | gateway/telemetry/event_pipeline.py:38-47 | if its writes all go through, the main file is first in, first out |
| `Telemetry.FlushCanOvertake` | gateway/telemetry/event_pipeline.py:56-64 | overtaking is within reach of a flush beside the worker |
| `Telemetry.DrainedInOrder` | gateway/telemetry/event_pipeline.py:56-64 | a flush whose writes succeed moves the whole queue, in order, to the main file |
| `Telemetry.TelemetryPipeline.EmitEvent` | gateway/telemetry/event_pipeline.py:30-36 | an event is queued, or written to the overflow when the queue is full |
| `Telemetry.TelemetryPipeline.TakeOldest` | gateway/telemetry/event_pipeline.py:38-41 | a draining thread takes the oldest event |
| `Telemetry.TelemetryPipeline.WriteHeld` | gateway/telemetry/event_pipeline.py:42-47 | a draining thread writes what it holds |
| `Telemetry.TelemetryPipeline.Flush` | gateway/telemetry/event_pipeline.py:56-64 | the queue is drained |
| `AntiPoisoning.PristineExactly` | gateway/telemetry/anti_poisoning.py:33-64 | an event is pristine exactly when allowed, low-risk, free of findings, and from a seasoned account without incidents |
| `AntiPoisoning.ReviewExactly` | gateway/telemetry/anti_poisoning.py:33-64 | which events wait for review and which are quarantined for good |
| `AntiPoisoning.BaselineIsPristine` | gateway/telemetry/anti_poisoning.py:66-125 | under any interleaving what reaches a file, also by overflow, reaches the baseline file exactly when it is pristine |
| `AntiPoisoning.AntiPoisoningFilter.ProcessEvent` | gateway/telemetry/anti_poisoning.py:66-98 | tier and quarantine flag, and the queue entry for the tier's file |
| `Text.SplitJoin` | gateway/canary_router.py:155-163 | splitting cuts at every separator and loses nothing |
| `Text.StripExactly` | gateway/mitigation_engine.py:137 | stripping takes off spaces at both ends and nothing else |
| `Text.TrimRightExactly` | gateway/canary_router.py:155-163 | trimming takes off one character at the end as often as it stands there |
| `Text.UpperExactly` | gateway/route_allowlist.py:71-76 | upper-casing changes exactly the small letters |
| `JsonValues.LookupExactly` | gateway/rules_engine.py:226-240 | a lookup finds the field of the name, or none |

## Left out

- Redis, its sockets and fallback switching, and the expiry of whole hashes in Redis: foreign calls; the in-memory store is the shared store.
- HMAC, SHA-256, MD5, regular expressions, percent-decoding, JSON and YAML parsing, JWT decoding: parameters of the model.
- The detection, threat-intelligence and investigation agents: an alert is an arbitrary input.
- The alert, incident and plan registries of the orchestrator, its audit-record flush, and an orchestrator without an engine: nothing in the gate reads them.
- Timestamps, free-text justifications and log messages of actions (not of audit records): carried along or dropped, never decided on.
- Pipeline.Gateway.HandleRequest: object-level authorisation, token decoding, the anomaly detector and the ML score enter as inputs, the two request schemas as predicates; the ML score is advisory and decides nothing.
- The proxy call itself, response headers, the retry on a closed event loop, and canary metrics inside the pipeline run: I/O; the upstream's answer is a step of the run.
- Hot reload of rules and routes: a run keeps one configuration.
- Pipeline.WorkersForwardAtMost: each worker runs with a store of its own; containments shared between workers are the subject of the replica results.
- CredentialDefense.CredentialDefense.CheckStatus: the administrative reset of counters is not a step of the runs.
- AuditChain.TamperEvidentAuditChain.VerifyChain: an index that JSON spells as a boolean or a decimal fraction, a link or signature that is JSON but no string, and a line that is JSON but no object, are not distinguished; a missing field is.
- CanaryRouter.CanaryRouter.SetCanaryWeight: a weight that is NaN is not representable among exact reals.
- RiskEngine.ScoreMonotone: binary floating-point error before rounding is not modelled; the arithmetic is exact.
- RouteAllowlist.RouteAllowlist.ValidateRoute: the compiled regular expression of a template pattern is a parameter of its rule; wildcards are modelled in full.
- Telemetry.EveryEventAccountedFor: an event object changed by its emitter after it was queued is not modelled.
- Locks: every method is one atomic step, which is what the program's locks provide; the telemetry worker and flush, which hold none, are split into their moves, as are emitters that meet a full queue.
- Readiness probes, compliance reports, SOC feedback, KPI counters, baseline gates, redaction, drift detection and training: wrappers or library-bound, with no interplay to prove.
