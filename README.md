# Nexus-Poc control loop and services, modelled in Dafny

Nexus-Poc runs a closed loop. A meta-controller holds one strategic objective. Each cycle it
does four things:

- observes latency metrics and flags anomalies;
- asks a risk assessor whether the affected metrics are stable;
- takes a causal decision;
- when the decision says APPLY_INTERVENTION, sends a modification proposal to the code
  modifier.

The code modifier validates the proposal and rewrites the orchestrator's
`get_knowledge_context` function. The rewrite either adds `timeout=15` to its
`requests.post` call or puts `@cached` on it. The change must pass a Bandit security gate and
a Pylint quality gate. It is then written on a fresh Git branch and committed.

Around the loop sit small services:

- a cache-aside decorator over Redis;
- a code-execution sandbox that screens requests;
- a keyword-based agent selector;
- two per-session event stores, one file-backed and one Redis-backed.

Each source file of that core has one Dafny module. Shared modules:

- `Base`: optional values, decoded JSON and Python truthiness.
- `Text`: Python's `in` on strings, string ordering, `lower()`, `":".join` and POSIX
  `os.path.join`.
- `PyAst`: the part of Python's syntax tree that the code modifier touches. It has path
  addressing and the breadth-first order of `ast.walk`.
- `MemoryApi`: the replies and the append-only log shared by the two memory services.

Where the source updates state in place, the model is a class: `GitManager`,
`EnterpriseCodeModifier`, the meta-controller's objective and counters, the cache store, and
the two memory stores. Where the source computes a value, the model is a function. Each loop
of the source is a method, and the method is proved equal to a specification function.
Lemmas then state the properties of those functions.

Everything outside the core is a parameter:

- the clock, Git's verdicts, Bandit's findings and Pylint's score;
- the DML estimate, the ADF/KPSS p-values and Prometheus' replies;
- the interpreter run by the sandbox;
- SHA-256, and the `str()` rendering of values.

Where the written design and the code differ, the model follows the code. There are two
exceptions, both listed under "## Findings":

- the security gate of the code modifier, where the model uses the ranked gate the docstring
  describes;
- the meta-controller's cycle, where the model takes the log line before the risk gate to
  succeed.

The differences where the model follows the code:

- The code modifier checks only that the keys `service`, `type` and `description` are
  present. Their values may be empty.
- The risk assessor needs 20 non-missing points. It judges stationarity by ADF p < 0.05 and
  KPSS p > 0.05, with no other test.
- The meta-controller's cycle never reads `formally_verified`. It has an anomaly gate before
  the risk gate. Its observation, risk data and causal decision are fixed stand-ins in
  `src/meta_controller/app.py`, so the model takes them as inputs to the cycle.
- `add_timeout` does not stop at the first `get_knowledge_context` function. It edits the
  first such function, in walk order, that holds a `requests.post` call.

## Model

| member | source | states |
|---|---|---|
| PyAst.WalkComplete | src/code_modifier/safe_code_modifier.py:185-187 | `ast.walk` visits every node of the tree, each with the path that leads to it |
| PyAst.WalkLocated | src/code_modifier/safe_code_modifier.py:185-187 | every node `ast.walk` yields is a node of the tree, at the path recorded for it |
| PyAst.ReplaceAtFrame | src/code_modifier/safe_code_modifier.py:199-205 | mutating one node in place leaves every node apart from it unchanged and every ancestor of the same kind; the node itself becomes the new one |
| CodeTransforms.FirstEntry | src/code_modifier/safe_code_modifier.py:185-194 | the search with `break` finds the first entry of the walk that matches, or reports that none does |
| CodeTransforms.FirstTimeout | src/code_modifier/safe_code_modifier.py:197-201 | the first `timeout` keyword of the call, or none when no keyword is named `timeout` |
| CodeTransforms.TimeoutSite | src/code_modifier/safe_code_modifier.py:185-194 | the chosen site is a `get_knowledge_context` function of the module and a `requests.post` call inside it |
| CodeTransforms.UpdateOrAppendTimeout | src/code_modifier/safe_code_modifier.py:196-206 | the keyword loop gives the list in which the first `timeout` keyword is set to 15, or `timeout=15` is appended |
| CodeTransforms.HandleAddTimeout | src/code_modifier/safe_code_modifier.py:183-217 | the nested walks with `break` give exactly the rewrite that `AddTimeout` specifies, or none |
| CodeTransforms.WithTimeoutEdits | src/code_modifier/safe_code_modifier.py:196-206 | only the first `timeout` keyword changes, to 15, and every other keyword keeps its place and value; with no `timeout` keyword, `timeout=15` goes last |
| CodeTransforms.WithTimeoutIdempotent | src/code_modifier/safe_code_modifier.py:196-206 | after the edit the first `timeout` keyword is 15, and a second edit changes nothing |
| CodeTransforms.CandidateIsFound | src/code_modifier/safe_code_modifier.py:185-194 | a `requests.post` call anywhere inside a `get_knowledge_context` function is always reached, so a site is found |
| CodeTransforms.AddTimeoutFailsIff | src/code_modifier/safe_code_modifier.py:185-215 | `add_timeout` returns nothing exactly when no `get_knowledge_context` function holds a `requests.post` call |
| CodeTransforms.TimeoutSiteIsFirst | src/code_modifier/safe_code_modifier.py:185-211 | the edited function is the first suitable one in walk order, and the edited call is the first `requests.post` in that function's walk |
| CodeTransforms.AddTimeoutChangesOnlyTheCall | src/code_modifier/safe_code_modifier.py:197-209 | the chosen call keeps its callee and positional arguments and gets the edited keywords; every node apart from it is unchanged and every ancestor keeps its kind |
| CodeTransforms.CachingSite | src/code_modifier/safe_code_modifier.py:226-233 | the chosen node is a function named `get_knowledge_context` in the module |
| CodeTransforms.HandleEnableCaching | src/code_modifier/safe_code_modifier.py:224-239 | the walk with `break` gives exactly the rewrite that `EnableCaching` specifies, or none |
| CodeTransforms.TargetIsFound | src/code_modifier/safe_code_modifier.py:226-227 | a `get_knowledge_context` function anywhere in the module is always reached |
| CodeTransforms.EnableCachingFailsIff | src/code_modifier/safe_code_modifier.py:226-237 | `enable_caching` returns nothing exactly when no function is named `get_knowledge_context` |
| CodeTransforms.EnableCachingDecoratesOnce | src/code_modifier/safe_code_modifier.py:229-231 | `cached` is inserted at index 0 of the first target's decorators; the old decorators follow in order, its other fields stay, and the rest of the tree is unchanged |
| CodeModifier.ReasonsDistinct | src/code_modifier/safe_code_modifier.py:80-124 | every failure reason string names a single exit, so an outcome can be told from its reason |
| CodeModifier.TargetFilePlacement | src/code_modifier/safe_code_modifier.py:82-84 | the target is `/app/src/<service>/app.py` for a plain service name; an absolute service name replaces the source root |
| CodeModifier.CodeChangeFails | src/code_modifier/safe_code_modifier.py:137-165 | generation gives nothing exactly when the file is unreadable, the type is unknown or the transform finds no site; it raises exactly when a known transform meets a file that does not parse |
| CodeModifier.SeverityComparedAsText | src/code_modifier/safe_code_modifier.py:262-263 | the gate as written lets a HIGH issue pass and blocks an UNDEFINED one |
| CodeModifier.SecurityGatesDisagree | src/code_modifier/safe_code_modifier.py:241-267 | the ranked gate blocks exactly MEDIUM and HIGH issues, and differs from the gate as written exactly on HIGH and UNDEFINED |
| CodeModifier.InvalidRequestTouchesNothing | src/code_modifier/safe_code_modifier.py:79-80 | a request missing `service`, `type` or `description` fails with "Invalid request." before any read, branch, write or commit |
| CodeModifier.NoEffectBeforeGates | src/code_modifier/safe_code_modifier.py:79-103 | no branch, write or commit happens unless the request is valid, a change was generated and both gates passed |
| CodeModifier.EffectsInOrder | src/code_modifier/safe_code_modifier.py:99-112 | the write follows the branch and holds the generated change at the target file; the commit follows the write and records that file and message on that branch |
| CodeModifier.SuccessIff | src/code_modifier/safe_code_modifier.py:70-118 | SUCCESS exactly when every stage succeeds; it names the target file and a branch `feature/nexus-auto-mod-` followed by the 14-digit stamp |
| CodeModifier.GitFailures | src/code_modifier/safe_code_modifier.py:102-118 | a refused commit leaves the file written on the new branch; a refused branch writes nothing; without a repository nothing happens |
| CodeModifier.GitManager.constructor | src/code_modifier/safe_code_modifier.py:19-28 | a manager over a repository or over none, with no branches or commits made yet |
| CodeModifier.GitManager.CreateAndCheckoutBranch | src/code_modifier/safe_code_modifier.py:30-41 | true exactly when there is a repository and Git accepts; the branch is then added and checked out, otherwise nothing changes |
| CodeModifier.GitManager.CommitChanges | src/code_modifier/safe_code_modifier.py:43-53 | true exactly when there is a repository and Git accepts; one commit of those files and that message then lands on the checked-out branch |
| CodeModifier.EnterpriseCodeModifier.constructor | src/code_modifier/safe_code_modifier.py:63-67 | the quality threshold is the configured `pylint_threshold`, 8.0 when absent |
| CodeModifier.EnterpriseCodeModifier.GenerateCodeChange | src/code_modifier/safe_code_modifier.py:137-176 | the read, dispatch and transform give the change that `CodeChange` specifies |
| CodeModifier.EnterpriseCodeModifier.SecurityScan | src/code_modifier/safe_code_modifier.py:241-275 | the scan passes exactly when Bandit ran and no issue ranks MEDIUM or above (the corrected gate of the Findings row) |
| CodeModifier.EnterpriseCodeModifier.ApplyModification | src/code_modifier/safe_code_modifier.py:70-124 | the outcome, the files, the branches, the head and the commits are those the pipeline specification gives, with the corrected security gate |
| CausalEngine.DecisionRule | src/meta_controller/causal_engine.py:129-153 | APPLY_INTERVENTION exactly for a "reduce" metric with a negative effect or an "increase" metric with a positive one; confidence is 0.90 or 0.85; the goal fields and the version are echoed |
| CausalEngine.OnlySignMatters | src/meta_controller/causal_engine.py:135-143 | the action and confidence depend only on the sign of the effect |
| CausalEngine.NoActionWithoutDirection | src/meta_controller/causal_engine.py:135-143 | a zero effect, or a metric naming neither direction, is never acted on |
| CausalEngine.VerificationInterval | src/meta_controller/causal_engine.py:107-127 | verified exactly when the effect lies strictly between -1.0 and 1.0, with the matching reason; a missing effect counts as 0.0 |
| CausalEngine.InvalidGoalIff | src/meta_controller/causal_engine.py:35-43 | an error, and no decision, exactly when the target metric or the intervention is missing or empty |
| CausalEngine.DecisionEchoesGoal | src/meta_controller/causal_engine.py:25-65 | a decision carries the goal's intervention and metric and the estimate, and is marked verified exactly when the estimate is within bounds |
| CausalEngine.MissingDataFallsBack | src/meta_controller/causal_engine.py:76-105 | a missing column or a missing estimate gives effect 0.0, hence DO_NOT_APPLY at 0.85 and verified |
| RiskAssessor.EnterpriseRiskAssessor.constructor | src/meta_controller/risk_assessor.py:13-18 | the assessor keeps the historical data it is given |
| RiskAssessor.EnterpriseRiskAssessor.AssessStabilityRisk | src/meta_controller/risk_assessor.py:20-78 | the loop's overall level and per-metric entries are those `Level` and `Scores` specify |
| RiskAssessor.AssessCases | src/meta_controller/risk_assessor.py:31-70 | an error for a missing metric or for fewer than 20 present values; otherwise the p-values, stationary exactly when ADF < 0.05 and KPSS > 0.05 |
| RiskAssessor.HighIffSomeUnstable | src/meta_controller/risk_assessor.py:29-64 | the level is HIGH exactly when some requested metric was tested and found not stationary |
| RiskAssessor.LevelMonotone | src/meta_controller/risk_assessor.py:63-64 | once HIGH, further metrics never bring the level back to LOW |
| RiskAssessor.ScoresCoverRequested | src/meta_controller/risk_assessor.py:28-70 | there is exactly one entry per requested metric and no other, each the metric's own assessment |
| AdvancedMetrics.QueryPrometheusMetrics | src/meta_controller/advanced_metrics.py:34-71 | both named metrics are present, each the first result's value, 0.0 for an empty result, or none on any failure |
| AdvancedMetrics.CollectComprehensiveMetrics | src/meta_controller/advanced_metrics.py:18-32 | the report holds the queried metrics and the anomalies detected in them |
| AdvancedMetrics.AnomalyIff | src/meta_controller/advanced_metrics.py:73-103 | at most one anomaly, present exactly when `p95_latency` is known and above 1.0, recording the value, the threshold and the method |
| AdvancedMetrics.OnlyLatencyMatters | src/meta_controller/advanced_metrics.py:88-90 | no other metric changes the verdict, and without `p95_latency` there is no anomaly |
| AdvancedMetrics.CollectedAnomalyIff | src/meta_controller/advanced_metrics.py:28-30 | a collection reports an anomaly exactly when the latency query gave a value above 1.0; a failed query never does |
| MetaController.Inc | src/meta_controller/app.py:138-140 | one counter, keyed by the `str()` of its labels, goes up by one and every other stays |
| MetaController.MetaController.constructor | src/meta_controller/app.py:33 | the service starts with no objective, no counts and no proposals |
| MetaController.MetaController.ProposeModification | src/meta_controller/app.py:158-172 | the proposal is sent; a failed send changes nothing else |
| MetaController.MetaController.AnalyzeAndAct | src/meta_controller/app.py:64-155 | the counters and the proposals sent are those the cycle specification gives; the objective stays |
| MetaController.MetaController.SetObjective | src/meta_controller/app.py:36-61 | 400 with no change exactly when a required key is missing; otherwise 200, the objective becomes the body, and one cycle runs on it |
| MetaController.EmptyObjectiveStandsBy | src/meta_controller/app.py:68-70 | with no objective no counter moves and nothing is proposed |
| MetaController.OneIncrementPerCycle | src/meta_controller/app.py:81-140 | with an objective exactly one counter, labelled with the goal, goes up by one |
| MetaController.AbortsInOrder | src/meta_controller/app.py:81-122 | anomalies abort before the risk check, HIGH risk before the decision; each abort is counted under its own outcome and proposes nothing |
| MetaController.LoggingRaisesAsWritten | src/meta_controller/app.py:106-113 | as written, an objective naming a metric with 20 or more present values makes the cycle raise at the log line, with nothing counted, where the intended cycle counts one outcome |
| MetaController.RiskAbortUnreachableAsWritten | src/meta_controller/app.py:106-122 | as written, every cycle that gets past the log line has seen a LOW verdict, so ABORTED_RISK is never counted |
| MetaController.ProposalIff | src/meta_controller/app.py:136-149 | a proposal exactly when the decision says APPLY_INTERVENTION after both gates; it goes to the orchestrator and its description names the intervention, the metric and the effect |
| Caching.SortByNameSpec | src/orchestrator/caching.py:64 | `sorted(kwargs.items())` orders the arguments strictly by name and keeps them all |
| Caching.SortedUnique | src/orchestrator/caching.py:64 | the sorted order of distinct names is unique |
| Caching.KeyIgnoresKeywordOrder | src/orchestrator/caching.py:58-68 | the order in which keyword arguments are passed never changes the key |
| Caching.KeyPartsLayout | src/orchestrator/caching.py:62-67 | the key parts are the function name, the positional arguments in order, then one `name=value` per keyword argument in name order |
| Caching.SeparatorInArgumentCollides | src/orchestrator/caching.py:62-68 | an argument containing ":" yields the same key as the arguments it splits into |
| Caching.IntelligentCacheSystem.constructor | src/orchestrator/caching.py:15-27 | a client that did or did not connect, over an empty store |
| Caching.IntelligentCacheSystem.Get | src/orchestrator/caching.py:29-41 | a value exactly when connected, with no backend error, and the key is stored; it is then the stored value |
| Caching.IntelligentCacheSystem.Set | src/orchestrator/caching.py:43-51 | the store gains the entry when connected and there is no backend error, and is unchanged otherwise |
| Caching.CachedCall | src/orchestrator/caching.py:71-94 | on a hit the cached value is returned without running the function; on a miss the function runs, and its result is returned and stored unless it is `None` |
| ExecutionSandbox.FirstOccurring | src/execution_sandbox/app.py:19-21 | the first keyword of the list for which `keyword in code` holds (substring of text, element of a list, key of a dict), or none when none does |
| ExecutionSandbox.ScanKeywords | src/execution_sandbox/app.py:19-21 | the loop leaves at the first keyword that occurs, the position `FirstOccurring` gives |
| ExecutionSandbox.ExecuteCode | src/execution_sandbox/app.py:10-53 | the handler gives the reply `Execute` specifies for any JSON `code`; the interpreter sees the code exactly when the request gets that far, and then it is text |
| ExecutionSandbox.LanguageCheckedFirst | src/execution_sandbox/app.py:15-16 | a language other than "python" is refused with 400 before any keyword check |
| ExecutionSandbox.RejectsFirstKeyword | src/execution_sandbox/app.py:7-21 | code in which a dangerous keyword occurs is refused with 400, naming the earliest such keyword of the list |
| ExecutionSandbox.OnlyCleanCodeRuns | src/execution_sandbox/app.py:15-27 | only Python code given as text and free of every keyword reaches the interpreter; any other request is answered the same whatever the interpreter would do |
| ExecutionSandbox.NonTextCode | src/execution_sandbox/app.py:13-53 | code that is not text never runs: without `in` (missing, null, number, boolean) the request fails outside the handler; a list is refused exactly when one of its elements is a keyword, and a list or dict that passes the scan gets 500 with the `TypeError` text |
| ExecutionSandbox.ListCodeExamples | src/execution_sandbox/app.py:19-53 | `["os"]` is refused naming "os"; `["import os"]` passes the scan and gets 500 from `subprocess.run` |
| ExecutionSandbox.RunStatusMapping | src/execution_sandbox/app.py:33-53 | exit 0 gives 200 "success" and any other exit 400 "error", both with the output; a timeout gives 408 and any other exception 500 |
| AgentManager.RoutingIff | src/agent_manager/app.py:8-23 | execution words select `execution_agent`; otherwise knowledge words select `knowledge_agent`; otherwise `default_agent`; always at 0.95 |
| AgentManager.ExecutionTakesPriority | src/agent_manager/app.py:13-16 | a query with both kinds of words goes to the execution agent |
| AgentManager.CaseInsensitive | src/agent_manager/app.py:8 | a query and its lower-cased form are routed alike |
| AgentManager.MissingQueryIsDefault | src/agent_manager/app.py:8-18 | a missing query goes to `default_agent`; a query that is not a string gets no agent |
| MemoryApi.Append | src/memory_layer/app.py:33-34 | the event goes to the tail of its key's log and every other log is unchanged |
| MemoryApi.AppendTwice | src/memory_layer_mock/app.py:23-24 | two stores under one key are read back in insertion order |
| MemoryLayerMock.MemoryLayerMock.constructor | src/memory_layer_mock/app.py:6-9 | the service starts with no session files |
| MemoryLayerMock.MemoryLayerMock.StoreMemory | src/memory_layer_mock/app.py:11-27 | 400 with no write exactly when a field is falsy; otherwise 201 and the event is appended to the session's file alone |
| MemoryLayerMock.MemoryLayerMock.RetrieveMemory | src/memory_layer_mock/app.py:29-46 | 400 exactly when an id is falsy; otherwise 200 with the session's events in order, none for a session never stored |
| MemoryLayerMock.FileUnderMemoryDir | src/memory_layer_mock/app.py:21 | plain ids name the file `/tmp/nexus_memory/<user>_<session>.json` |
| MemoryLayerMock.AbsoluteUserIdLeavesMemoryDir | src/memory_layer_mock/app.py:21 | a user id starting with "/" puts the file outside the memory directory |
| MemoryLayerMock.JoinedIdsShareFile | src/memory_layer_mock/app.py:21 | ids that join to the same `user_session` text share one log |
| MemoryLayer.RedisMemoryService.constructor | src/memory_layer/app.py:10-17 | a client that did or did not connect, over no lists |
| MemoryLayer.RedisMemoryService.StoreMemory | src/memory_layer/app.py:19-37 | 503 exactly without a client; then 400 exactly when a field is falsy; otherwise 201 and the event is pushed onto its session's list alone |
| MemoryLayer.RedisMemoryService.RetrieveMemory | src/memory_layer/app.py:39-58 | 503 exactly without a client; then 400 exactly when an id is falsy; otherwise 200 with the whole list in order, empty if nothing was stored |
| MemoryLayer.LRange | src/memory_layer/app.py:54-55 | `lrange(key, 0, -1)` gives every element of the list, head to tail |
| MemoryLayer.KeysSeparateSessions | src/memory_layer/app.py:33 | when neither user id contains ":", equal session keys mean equal ids |
| MemoryLayer.ColonIdsShareList | src/memory_layer/app.py:33 | a user id containing ":" can share a list with a different pair of ids |

## Left out

- In-place mutation of the syntax tree is modelled on values. A rewrite gives a new tree, related to the old one by paths, so aliasing between nodes is not modelled.
- `ast.parse`, `ast.unparse`, black and isort are not modelled. A file is held as the tree it parses to, or as text that does not parse. Formatting and unparsing are taken to give that same tree back.
- The syntax tree keeps only the node kinds the rewrites inspect. Every other node is `Other`, with its children in field order.
- Git, Bandit and Pylint are inputs. Their verdicts, the severities they report, the score and any exception they raise are given in the `World`.
- Temporary files and the `utcnow` / `Timestamp.now` clocks are left out. The timestamp is a parameter.
- A Git repository path that does not exist is left out. Only the invalid-repository case, which yields a manager without a repository, is modelled.
- MetaController.MetaController.AnalyzeAndAct: follows `Cycle`, the corrected cycle of the Findings row. The `json.dumps` of the risk assessment in the log line is taken to succeed, whereas as written it raises whenever an affected metric was tested (`CycleAsWritten`).
- MetaController.MetaController.SetObjective: runs the corrected cycle. As written, an objective naming a tested metric gets a bare 500, with the objective already replaced.
- MetaController.OneIncrementPerCycle: states the corrected cycle. As written, a cycle that raises at the log line counts nothing.
- MetaController.AbortsInOrder: states the corrected cycle. As written, the HIGH-risk abort is never reached (`RiskAbortUnreachableAsWritten`).
- MetaController.ProposalIff: states the corrected cycle. As written, no proposal goes out once an affected metric was tested, because the cycle raises first.
- CodeModifier.EnterpriseCodeModifier.SecurityScan: uses the ranked gate of the Findings row, not the string comparison at src/code_modifier/safe_code_modifier.py:263. A report whose only issues are HIGH fails here, though it passes as written; one with an UNDEFINED issue passes here, though it fails as written.
- CodeModifier.EnterpriseCodeModifier.ApplyModification: follows `Pipeline` with the corrected security gate, so a HIGH-only Bandit report ends in a security failure, where the code as written can go on to SUCCESS and commit.
- CodeModifier.Pipeline: its security stage is the corrected, ranked gate, with the same consequences as for `ApplyModification`.
- CodeModifier.Pipeline: when the file write fails partway, the file's partial contents are not modelled. The failure is reported with its message and the file keeps its old content.
- Request values other than strings in the code modifier are left out. The request is a map of strings.
- The DML estimator, the ADF and KPSS tests and Z3 are not modelled. The estimate and the p-values are inputs, and Z3's check is the open interval it decides.
- Prometheus, the HTTP calls to it and to the code modifier, and the counter library are left out. Replies are inputs and the counter is a map.
- `collect_comprehensive_metrics` never uses its `step` argument, so it is left out.
- The meta-controller's fixed observation, simulated data frame and mocked causal decision are inputs to each cycle: the anomalies, the risk level, the action and the effect.
- `str()`, `:.4f`, SHA-256 and pickle are left out. Renderings and the digest are parameters, and cached values are kept as they are.
- The cache's time-to-live is left out. Entries never expire.
- Concurrency between requests and the Flask routing around the handlers are left out.
- A request body that is not a JSON object is left out.
- AgentManager.SelectAgent lower-cases ASCII letters only. Python's `lower()` also folds other scripts.
- The `json.dumps` / `json.loads` round trip of stored events is taken to give the event back.
- A failing file write or read in the file-backed memory service is left out.
- MemoryLayerMock.MemoryLayerMock.constructor: the service starts with no session files. Files left in /tmp/nexus_memory by an earlier run of the process are not modelled.
- MemoryLayer.RedisMemoryService.constructor: the service starts with no lists. Data that Redis kept from an earlier run of the process is not modelled.
- AdvancedMetrics.QueryPrometheusMetrics: a sample value is a real number. The "NaN", "+Inf" and "-Inf" that `float()` accepts from Prometheus are not modelled; among them, "+Inf" for `p95_latency` would raise an anomaly.
- MemoryLayerMock.MemoryLayerMock.StoreMemory: session files are keyed by the joined path text, with no normalisation by the file system. Paths that name one file through ".", repeated "/" or ".." are separate logs in the model. For example, user "./a" with session "b" and user "a" with session "b" write one file in the source, but two logs here. So the frame "every other log unchanged" holds of path texts, not of files.
- MemoryLayerMock.MemoryLayerMock.RetrieveMemory: for the same reason, reading ("a", "b") after storing under ("./a", "b") gives no events in the model, but that event in the source.
- ExecutionSandbox.ExecuteCode: the text of the `TypeError` for a list or dict `code` is CPython's text on POSIX systems. Other interpreters may word it differently.
- Redis errors after start-up are left out in the memory service. Only a client that never connected is modelled.

## Findings

| source | as written | input that shows it | evidently intended | confidence | as-written member | corrected member |
|---|---|---|---|---|---|---|
| src/meta_controller/app.py:111-113 | the risk assessment is logged with `json.dumps` before the risk gate, and the verdict of each tested metric is the NumPy boolean that `adf_pvalue < 0.05 and kpss_pvalue > 0.05` gives (src/meta_controller/risk_assessor.py:61), which the JSON encoder refuses | the example objective of the `set_objective` docstring, whose `affected_metrics` names "latency", a column of 100 values in the simulated frame | log the assessment without failing, so that the risk gate and the decision run | not executed; relies on `adfuller` and `kpss` returning NumPy p-values | MetaController.LoggingRaisesAsWritten | MetaController.AbortsInOrder |
| src/code_modifier/safe_code_modifier.py:262-263 | `issue.severity >= bandit.core.constants.MEDIUM` compares two severity names as strings, because Bandit binds `MEDIUM` to the text "MEDIUM" | an issue of severity HIGH: "HIGH" < "MEDIUM", so the scan passes; an issue of severity UNDEFINED: "UNDEFINED" >= "MEDIUM", so the scan fails | reject exactly MEDIUM and HIGH issues, as the docstring at line 244 says, by rank | not executed; relies on Bandit's constants module holding rank names as strings | CodeModifier.SeverityComparedAsText | CodeModifier.SecurityGatesDisagree |
