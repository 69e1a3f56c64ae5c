# Creator Agent Toolbox — a verified model of the workflow core

Creator Agent Toolbox turns a topic into a short video package. A LangGraph workflow analyses
trends, has an LLM write three scripts, waits for a human to approve one, draws three
thumbnails, waits for a human to pick one, and then A/B-tests the thumbnails against simulated
analytics until a two-proportion z-test declares a winner, 72 hours pass, or a human overrides.
A FastAPI layer stores the workflow snapshot and resumes the graph after each human decision.
A React dashboard shows each workflow's status and the test timer.

This project models that core in Dafny and proves properties of it:

* `workflow.dfy` (module `Workflow`) — the graph: the entry router, both human gates, the A/B
  check, `_finalize`, `_checkpoint_target`, and one invocation of the graph as a loop over the
  nodes and edges. It is proved to always end and to stop only where the entry route predicts.
* `ab_test_orchestrator.dfy` (`ABTestOrchestrator`) — initialising and updating an experiment,
  the declare/timeout/continue decision, and the manual override.
* `statistics.dfy` (`Statistics`) — the two-proportion z-test and the best-versus-control
  comparison. The square root and the normal CDF are parameters.
* `analytics_mock.dfy` (`AnalyticsMock`) — the simulated metrics over an abstract stream of
  standard normal draws, with the per-draw state as a class field.
* `workflows_api.dfy` (`WorkflowsApi`) — the approve, select-thumbnail, declare-winner and
  stop-test edits on the snapshot; the status mapping; the A/B status and final results
  endpoints.
* `script_architect.dfy`, `visual_engineer.dfy`, `trend_analyst.dfy`, `agent_base.dfy` — the
  agents: how LLM output is parsed and normalised, the fallback scripts, thumbnail seeds and
  URLs, the static trend record, and the token-usage counters.
* `state.dfy` (`State`) — the workflow snapshot as a class, the experiment as a datatype, and
  the request models' validation.
* `config.dfy`, `auth.dfy`, `fix_config.dfy` — the settings validators, the in-memory user
  registry and token claims, and the one-off patch script with its embedded URL validator.
* `test_timer.dfy`, `workflow_card.dfy` — the dashboard's duration formatting, its timeout
  display and its workflow card, each tied to what the backend reports.
* `strings.dfy`, `wrappers.dfy`, `externals.dfy` — Python string operations, `Option`/`Result`,
  and the collaborators the core calls: the clock, random draws, hashing, URL quoting, the uuid
  supply, LLM replies and `json.loads`.

Objects the source mutates in place are classes: the workflow snapshot, the analytics provider's
random generator, the user registry and the uuid supply. The nested dicts of the snapshot
(`ab_test`, `human_approval_status`, `token_usage`) are datatype values held in its fields.
Python's truthiness, `dict.get` defaults and `max` (which keeps the first maximum) are written
out.

## Model

| member | source | states |
|---|---|---|
| Workflow.RouteFromEntry | archives/generator-attempt/backend/app/orchestration/workflow.py:135-167 | each of the four routes holds exactly when its rule applies and no earlier rule does: the A/B phase first, then the thumbnail gate, then the script gate, else the start |
| Workflow.RouteAfterScriptGate | archives/generator-attempt/backend/app/orchestration/workflow.py:185-193 | approved iff `scripts_approved`; rejected iff not approved and `scripts_rejected`; pending otherwise |
| Workflow.RouteAfterThumbnailGate | archives/generator-attempt/backend/app/orchestration/workflow.py:208-211 | selected iff the selected thumbnail id is truthy |
| Workflow.RouteAfterAbCheck | archives/generator-attempt/backend/app/orchestration/workflow.py:222-234 | finalize iff there is an experiment with a terminal status (completed, timeout, manual_override); error iff not that and errors are recorded; running otherwise, including when there is no experiment |
| Workflow.CheckpointTarget | archives/generator-attempt/backend/app/orchestration/workflow.py:245-250 | a URL starting with `sqlite+aiosqlite:///` loses that prefix; any other string is returned unchanged |
| Workflow.CheckpointTargetRemovesOnce | archives/generator-attempt/backend/app/orchestration/workflow.py:248-249 | the prefix is removed only once: a doubled prefix leaves one copy behind |
| Workflow.SuspensionsAreWaitingSteps | archives/generator-attempt/backend/app/orchestration/workflow.py:97-129 | every step an invocation can stop at is awaiting_approval, awaiting_thumbnail_selection, ab_testing, error or completed; a rejected script gate always ends the same invocation at awaiting_approval |
| Workflow.Touch | archives/generator-attempt/backend/app/orchestration/workflow.py:131-133 | `_entry_router` (and `_check_ab_status`, lines 217-220) set `updated_ts` to the truncated clock and change nothing else |
| Workflow.HumanGateScriptsNode | archives/generator-attempt/backend/app/orchestration/workflow.py:169-183 | the step written matches the gate's route, and the node does not change that route; a rejection empties the thumbnails, clears their selection and sets `thumbnails_approved` false; otherwise thumbnails, selection and flags are unchanged |
| Workflow.HumanGateThumbnailsNode | archives/generator-attempt/backend/app/orchestration/workflow.py:195-206 | `thumbnails_approved` becomes "a thumbnail is selected" and nothing else in the flags changes; the step is thumbnail_selected or awaiting_thumbnail_selection to match; the route agrees with the flag |
| Workflow.FinalizeNode | archives/generator-attempt/backend/app/orchestration/workflow.py:236-243 | the step becomes completed; a truthy winner becomes the selected thumbnail, which is otherwise untouched; with no experiment it raises after writing the step, and `updated_ts` is then unchanged |
| Workflow.ContentWorkflow.constructor | archives/generator-attempt/backend/app/orchestration/workflow.py:21-28 | the script architect and the visual engineer are built from the same settings: provider, client flag, image base and size |
| Workflow.ContentWorkflow.GenerateScriptsNode | archives/generator-attempt/backend/app/orchestration/workflow.py:73-95 | `generate_scripts` is the script architect's `run`: its stored scripts, cleared decisions, step and merged counters; the cleared approval flags are what lets the reject loop end |
| Workflow.ContentWorkflow.GenerateScriptsEdge | archives/generator-attempt/backend/app/orchestration/workflow.py:73-95 | the node followed by its edge to the script gate lowers the measure and adds no stop |
| Workflow.ContentWorkflow.GenerateThumbnailsNode | archives/generator-attempt/backend/app/orchestration/workflow.py:75-107 | `generate_thumbnails` is the visual engineer's `run`: the three thumbnails of the resolved script, the uuids they draw, no selection, thumbnails_approved reset |
| Workflow.ContentWorkflow.GenerateThumbnailsEdge | archives/generator-attempt/backend/app/orchestration/workflow.py:75-107 | the node followed by its edge to the thumbnail gate lowers the measure and adds no stop |
| Workflow.ContentWorkflow.RunAbTestNode | archives/generator-attempt/backend/app/orchestration/workflow.py:213-215 | unless the orchestrator raises, the step is error, ab_testing, or ab_test_complete with a terminal experiment |
| Workflow.ContentWorkflow.Step | archives/generator-attempt/backend/app/orchestration/workflow.py:70-129 | one node and its outgoing edge: unless the node raises, the termination measure strictly decreases and the set of steps the run can still stop at does not grow |
| Workflow.ContentWorkflow.Run | archives/generator-attempt/backend/app/orchestration/workflow.py:62-68 | an invocation always reaches `END`; unless a node raises, it stops at a step in the suspension set predicted by the entry route of the snapshot it was given |
| ABTestOrchestrator.InitialMetrics | backend/app/agents/ab_test_orchestrator.py:55-65 | one metrics entry per thumbnail, in order, with the thumbnail's id and style and every counter zero |
| ABTestOrchestrator.InitialExperiment | backend/app/agents/ab_test_orchestrator.py:67-76 | a new experiment is running, has no winner and no final stats, has confidence 0, zero totals, and starts and was last updated now |
| ABTestOrchestrator.InitialExperimentConsistent | backend/app/agents/ab_test_orchestrator.py:67-76 | a new experiment's total impressions equal the sum over its arms, and its status agrees with its winner and final stats |
| ABTestOrchestrator.Decide | backend/app/agents/ab_test_orchestrator.py:106-133 | a winner is declared iff the recommendation is declare_winner and the winner id is truthy; otherwise the test times out iff more than 72·60 minutes have elapsed (strictly); the timeout winner is the first arm of greatest ctr, and an empty batch there raises |
| ABTestOrchestrator.Updated | backend/app/agents/ab_test_orchestrator.py:95-128 | the batch replaces the variants; `check_count` goes up by exactly one; total impressions are the batch sum; confidence is the stats' winner confidence; winner, status and final stats follow the decision, and a continuing test keeps them unchanged |
| ABTestOrchestrator.UpdatePreservesConsistency | backend/app/agents/ab_test_orchestrator.py:95-133 | an update keeps total impressions equal to the sum over the arms, and keeps the status in agreement with the winner and final stats |
| ABTestOrchestrator.DeclaredWinnerIsAnArm | backend/app/agents/ab_test_orchestrator.py:101-109 | a declared winner is the control or the challenger of the batch the statistics compared |
| ABTestOrchestrator.TimeoutWinnerIsFirstBest | backend/app/agents/ab_test_orchestrator.py:124 | the timeout winner has the greatest ctr, and every earlier arm has a strictly smaller ctr (Python's `max` keeps the first) |
| ABTestOrchestrator.Forced | backend/app/agents/ab_test_orchestrator.py:148-150 | the winner becomes the given id, the status manual_override, and final stats `{reason: manual_override}`; the rest of the experiment is unchanged |
| ABTestOrchestrator.ForceWinnerLastCallWins | backend/app/agents/ab_test_orchestrator.py:145-152 | forcing twice is the same as forcing the second id once |
| ABTestOrchestrator.ForcedConsistent | backend/app/agents/ab_test_orchestrator.py:148-150 | a forced experiment is consistent whatever its status was before |
| ABTestOrchestrator.InitializeTest | backend/app/agents/ab_test_orchestrator.py:44-79 | with fewer than two thumbnails exactly one error is appended, the step becomes error and no experiment is created; otherwise the initial experiment is stored and the step becomes ab_testing |
| ABTestOrchestrator.UpdateTest | backend/app/agents/ab_test_orchestrator.py:81-143 | the experiment becomes the update by the mock batch at the truncated elapsed minutes and its statistics; the step follows the decision; it raises exactly when a timeout meets an empty batch |
| ABTestOrchestrator.Process | backend/app/agents/ab_test_orchestrator.py:32-42 | a missing experiment is initialised (which never raises) and a present one is updated, whatever its status; the errors list changes only in the initialise-with-too-few case |
| ABTestOrchestrator.ForceWinner | backend/app/agents/ab_test_orchestrator.py:145-152 | with an experiment it stores the forced experiment and sets the step to ab_test_complete; without one nothing changes |
| Statistics.RelativeGain | generator-attempt/backend/app/services/statistics.py:80-83 | the gain times the loser's rate is the winner's rate minus the loser's; the gain is 0 when the loser's rate is 0 |
| Statistics.CalculateSignificance | generator-attempt/backend/app/services/statistics.py:22-100 | an arm with no impressions, or a zero standard error, gives the degenerate result (no winner, confidence 0, not significant, uplift 0, wait, p 1.0); otherwise confidence is 1 − p; significant iff confidence ≥ min_confidence; the winner is treatment iff significant and p2 > p1, control iff significant and p2 ≤ p1; uplift is the rounded relative gain of the winner, 0 when not significant; wait iff not significant and an arm has fewer than 1000 impressions; a winner iff declare_winner iff significant |
| Statistics.RemoveAt | generator-attempt/backend/app/services/statistics.py:142 | removing index i keeps the elements before i and shifts the ones after it down by one |
| Statistics.ChallengerIndex | generator-attempt/backend/app/services/statistics.py:136-142 | the challenger is the first arm of greatest ctr, as the stable descending sort puts it first; when that arm has the control's id, it is the next one in sorted order: the first arm of greatest ctr among the others |
| Statistics.RemovedFirstMax | generator-attempt/backend/app/services/statistics.py:136-142 | the first maximum of the list without index i0, mapped back, is a maximum of the other arms and the first one in list order |
| Statistics.CalculateMultiVariant | generator-attempt/backend/app/services/statistics.py:124-169 | fewer than two arms gives only the error; otherwise control is the first arm and the challenger as above, and the comparison text, both ctrs, confidence, significance, uplift, recommendation and p value come from the significance test; the winner id maps treatment to the challenger's id and control to the control's; the winner id is set iff the recommendation is declare_winner |
| Statistics.DeclaredWinnerIsComparedArm | generator-attempt/backend/app/services/statistics.py:153-163 | a winner id, when there is one, comes with declare_winner and is the id of the control or of the challenger |
| Statistics.ChallengerIsBestWhenDistinct | generator-attempt/backend/app/services/statistics.py:136-142 | when no other arm shares the control's id and the best arm is not the control, the challenger is that best arm |
| Statistics.ChallengerWhenControlLeads | generator-attempt/backend/app/services/statistics.py:140-142 | when the control leads strictly, the challenger is a best arm among the others |
| State.FirstMaxCtrIndex | backend/app/agents/ab_test_orchestrator.py:124 | the index of the first arm of greatest ctr: nothing has a higher ctr, and everything earlier has a strictly lower one |
| State.ValidateStartRequest | generator-attempt/backend/app/models/state.py:70-74 | a request is accepted iff the topic is present with at least one character; the platforms default to youtube, the user to user_001, the brand voice to educational |
| State.ValidateApproveRequest | generator-attempt/backend/app/models/state.py:77-79 | accepted iff the action is absent, approve or reject; a missing action means approve; the script id is optional and passed through |
| State.ValidateNonEmpty | generator-attempt/backend/app/models/state.py:83-87 | a required string field is accepted iff present and non-empty, and the error names the field |
| State.ValidateThumbnailSelectRequest | generator-attempt/backend/app/models/state.py:82-83 | accepted iff the thumbnail id is present and non-empty |
| State.ValidateDeclareWinnerRequest | generator-attempt/backend/app/models/state.py:86-87 | accepted iff the thumbnail id is present and non-empty |
| State.ValidateStopTestRequest | generator-attempt/backend/app/models/state.py:90-91 | the reason defaults to manual_stop |
| AnalyticsMock.UnknownStyleUsesFaceFocus | backend/app/services/analytics_mock.py:23-43 | a style missing from the baseline table gets the face_focus baseline (0.085, 0.015, 45) |
| AnalyticsMock.NoiseFactor | backend/app/services/analytics_mock.py:57 | the noise factor is never below 0.1, never below 1 − minutes/1440, and equals one of the two |
| AnalyticsMock.ObservedCtr | backend/app/services/analytics_mock.py:55-59 | the observed ctr is clamped into [0.01, 0.35] |
| AnalyticsMock.ObservedCtrInRange | backend/app/services/analytics_mock.py:58-59 | a raw rate already inside [0.01, 0.35] is kept as drawn |
| AnalyticsMock.MetricsShape | backend/app/services/analytics_mock.py:47-70 | reported impressions are at least 100 and at least the drawn count; clicks are at least 1 and at least the floored product; the reported ctr is the rounded clamped rate, not clicks over impressions |
| AnalyticsMock.BatchShape | backend/app/services/analytics_mock.py:72-92 | one record per variant, in order, with the variant's id and style, confidence 0.0, impressions ≥ 100, clicks ≥ 1, and the ctr drawn for its position in the random stream |
| AnalyticsMock.BatchImpressionsAtLeast | backend/app/services/analytics_mock.py:65-85 | a batch has at least 100 impressions per variant in total |
| AnalyticsMock.BatchPrefixAt | backend/app/services/analytics_mock.py:75-91 | record i of a batch belongs to variant i and is computed from the i-th block of five draws |
| AnalyticsMock.BatchPrefixExtend | backend/app/services/analytics_mock.py:75-91 | the records of the first n+1 variants are those of the first n plus the record of variant n, computed from the metrics the next draws give |
| AnalyticsMock.MockAnalyticsProvider.constructor | backend/app/services/analytics_mock.py:32-36 | a fresh provider for a workflow id starts at the beginning of that id's random stream |
| AnalyticsMock.MockAnalyticsProvider.Gauss | backend/app/services/analytics_mock.py:48-58 | one `gauss` call takes the next standard normal draw, scales and shifts it, and advances the stream by one |
| AnalyticsMock.MockAnalyticsProvider.DrawImpressions | backend/app/services/analytics_mock.py:47-52 | the impressions of the three growth phases (under 60, under 360, later) from one draw |
| AnalyticsMock.MockAnalyticsProvider.DrawObservedCtr | backend/app/services/analytics_mock.py:55-59 | the clamped observed rate from the next two draws |
| AnalyticsMock.MockAnalyticsProvider.GetMetrics | backend/app/services/analytics_mock.py:38-70 | the metrics are the specification function of the stream position, and exactly five draws are used |
| AnalyticsMock.MockAnalyticsProvider.SimulateBatch | backend/app/services/analytics_mock.py:72-92 | the batch equals the batch function of the stream position (so a fresh provider with the same inputs gives the same batch), using five draws per variant |
| AgentBase.Usage | archives/generator-attempt/backend/app/agents/base.py:15-19 | a usage dict has exactly the three counter keys, holding the given counts |
| AgentBase.ResponseUsage | archives/generator-attempt/backend/app/agents/base.py:18-38 | the counters of a response are always the three usage keys |
| AgentBase.ExtractTokenUsage | archives/generator-attempt/backend/app/agents/base.py:14-38 | no response gives zeros; a dict `usage_metadata` gives its input/output/total counts; otherwise a dict `token_usage` under a dict `response_metadata` gives its counts; missing metadata gives zeros; a `token_usage` that is not a dict raises, and nothing else does; a result on a response is that response's `ResponseUsage` |
| AgentBase.MergeTokenUsage | archives/generator-attempt/backend/app/agents/base.py:41-47 | the merge has exactly the three keys, each the sum of the two inputs' counts, a missing one read as 0 |
| AgentBase.UsageExtensional | archives/generator-attempt/backend/app/agents/base.py:42-46 | two usage dicts with the same three counts are equal |
| AgentBase.MergeZeroIdentity | archives/generator-attempt/backend/app/agents/base.py:41-47 | merging with zero usage, on either side, changes nothing |
| AgentBase.MergeCommutative | archives/generator-attempt/backend/app/agents/base.py:41-47 | the merge does not depend on argument order |
| AgentBase.MergeAssociative | archives/generator-attempt/backend/app/agents/base.py:41-47 | merging three counters gives the same result in either grouping |
| ScriptArchitect.DropFenceLinesKeeps | archives/generator-attempt/backend/app/agents/script_architect.py:188-189 | the filter keeps every line that is not a fence line and keeps only such lines |
| ScriptArchitect.BraceSpanShape | archives/generator-attempt/backend/app/agents/script_architect.py:199-204 | there is no span iff no `{` comes before a `}`; otherwise the span runs from the first `{` to the last `}`, both included |
| ScriptArchitect.SafeJsonLoadCases | archives/generator-attempt/backend/app/agents/script_architect.py:184-207 | a candidate that loads as an object is the result; otherwise a missing or misordered brace pair raises "Unable to parse…"; otherwise the brace span must load as an object, a non-object raises "…not a JSON object", and a decode error raises |
| ScriptArchitect.Retention | archives/generator-attempt/backend/app/agents/script_architect.py:162-166 | raises iff `float()` rejects the value; otherwise the retention lies in [0.60, 0.90]: a missing or falsy value becomes 0.75, a value in range is kept, one below or above is clamped to the nearer bound |
| ScriptArchitect.OrDefault | archives/generator-attempt/backend/app/agents/script_architect.py:169-173 | `item.get(field) or default`: a non-empty field is kept, otherwise the default is used |
| ScriptArchitect.NormalizeItem | archives/generator-attempt/backend/app/agents/script_architect.py:162-176 | an element raises iff it is not an object or its retention is not a number; a normalised item has a non-empty id (its own when truthy, else the fresh uuid) and a retention in [0.60, 0.90] |
| ScriptArchitect.FirstUnusable | archives/generator-attempt/backend/app/agents/script_architect.py:161-162 | the position of the first element the loop raises on: every earlier one gets through, the one there does not |
| ScriptArchitect.FirstUnusableOfPrefix | archives/generator-attempt/backend/app/agents/script_architect.py:161-162 | the first ill-typed element among `variants[:3]` is the first of the whole list, and the uuids drawn before it are the same |
| ScriptArchitect.FallbackVariantsShape | archives/generator-attempt/backend/app/agents/script_architect.py:209-241 | exactly three scripts with tones pattern_interrupt, curiosity_gap and authority_play and retentions 0.78, 0.81 and 0.76, taking the three fresh ids in order; hook i is `suggested_hooks[i]` when present, else the topic-based default |
| ScriptArchitect.FallbackWellFormed | archives/generator-attempt/backend/app/agents/script_architect.py:216-241 | the fallback is three well-formed scripts |
| ScriptArchitect.NormalizedPrefixAt | archives/generator-attempt/backend/app/agents/script_architect.py:160-176 | item j of the normalised list is item j normalised, with the fresh id that the missing ids before it leave next |
| ScriptArchitect.NormalizedPrefixBounds | archives/generator-attempt/backend/app/agents/script_architect.py:162-176 | every normalised item has a non-empty id and a clamped retention |
| ScriptArchitect.FirstThree | archives/generator-attempt/backend/app/agents/script_architect.py:161 | `variants[:3]`: a prefix of at most three items, exactly three iff the input has at least three |
| ScriptArchitect.ParsedScriptsShape | archives/generator-attempt/backend/app/agents/script_architect.py:152-181 | parsing fails iff loading failed, `variants` cannot be sliced, or one of its first three elements is not an object or has a retention `float()` rejects; a result is always three well-formed scripts: the first three items normalised when there are three, else the fallback |
| ScriptArchitect.ParseRaisesAtFirstUnusable | archives/generator-attempt/backend/app/agents/script_architect.py:161-162 | an ill-typed element among the first three raises at the first such element, with that element's exception |
| ScriptArchitect.ParseRaiseDraws | archives/generator-attempt/backend/app/agents/script_architect.py:161-169 | before that raise the loop has drawn one uuid per earlier item without an id, and none for the fallback |
| ScriptArchitect.ParsedScriptsOfThree | archives/generator-attempt/backend/app/agents/script_architect.py:161-181 | with three or more items and no ill-typed one among the first three, the result is the first three, normalised |
| ScriptArchitect.ParsedScriptsOfFewer | archives/generator-attempt/backend/app/agents/script_architect.py:178-179 | with fewer than three well-typed items the result is the fallback, drawn after the ids the partial list used |
| ScriptArchitect.ScriptArchitectAgent.constructor | archives/generator-attempt/backend/app/agents/script_architect.py:18-42 | the agent keeps the configured provider and has an OpenAI client iff the provider is openai and an API key is set |
| ScriptArchitect.ScriptArchitectAgent.DrawFallbackVariants | archives/generator-attempt/backend/app/agents/script_architect.py:209-241 | the fallback built from the next three uuids, which are consumed |
| ScriptArchitect.ScriptArchitectAgent.NormalizeItems | archives/generator-attempt/backend/app/agents/script_architect.py:160-176 | the loop raises at the first ill-typed element, after one uuid per earlier item without an id; otherwise it builds the normalised list, one uuid per item without an id |
| ScriptArchitect.ScriptArchitectAgent.ParseLoaded | archives/generator-attempt/backend/app/agents/script_architect.py:158-181 | the parsed scripts of the loaded data, drawing exactly the uuids the specification counts |
| ScriptArchitect.ScriptArchitectAgent.ParseLlmOutput | archives/generator-attempt/backend/app/agents/script_architect.py:152-181 | the parsed scripts of `_safe_json_load` of the text, raising exactly when loading raises or the loaded `variants` is ill-typed |
| ScriptArchitect.ScriptArchitectAgent.GenerateWithOpenAi | archives/generator-attempt/backend/app/agents/script_architect.py:84-98 | a model call that raises gives an error and draws nothing; otherwise it fails iff parsing (ill-typed `variants` included) or token extraction raises; a result holds the parsed scripts, which are well-formed, and the counters `extract_token_usage` reads from the reply |
| ScriptArchitect.ScriptArchitectAgent.GenerateWithOllama | archives/generator-attempt/backend/app/agents/script_architect.py:100-128 | a request that raises gives an error and draws nothing; otherwise it fails iff parsing raises (ill-typed `variants` included) or `int()` rejects a counter; a result holds the parsed scripts and the usage prompt_eval_count, eval_count and their sum |
| ScriptArchitect.ScriptArchitectAgent.ProviderScripts | archives/generator-attempt/backend/app/agents/script_architect.py:48-55 | provider scripts exist iff the chosen provider path neither is skipped nor raises; they are the well-formed scripts parsed from the reply's text, with the uuid stream where it stood, and come with the reply's counters |
| ScriptArchitect.ScriptArchitectAgent.Generate | archives/generator-attempt/backend/app/agents/script_architect.py:44-62 | always well-formed scripts and three-key usage; an unknown or mock provider, or any provider exception, gives the fallback (drawn with the last three uuids) with zero usage; otherwise the scripts parsed from the reply's text and the reply's counters (ollama: prompt, completion and their sum) |
| ScriptArchitect.ScriptArchitectAgent.Run | archives/generator-attempt/backend/app/agents/script_architect.py:44-82 | stores well-formed scripts; clears the selected script, all three approval flags, the thumbnails and their selection; sets step scripts_generated and the timestamp; the counters become the old counters plus the reply's counters, or plus zeros on fallback; the stored scripts are the fallback or the scripts parsed from the reply |
| VisualEngineer.HexValue | archives/generator-attempt/backend/app/agents/visual_engineer.py:105 | the value of n hex digits is below 16^n |
| VisualEngineer.EightDigitsBound | archives/generator-attempt/backend/app/agents/visual_engineer.py:105 | eight hex digits read as a number below 2^32 |
| VisualEngineer.SeedDigits | archives/generator-attempt/backend/app/agents/visual_engineer.py:104-105 | the seed reads exactly the first eight digits of the sha256 hex digest of `"{workflow_id}:{index}"` |
| VisualEngineer.SeedFor | archives/generator-attempt/backend/app/agents/visual_engineer.py:102-106 | the seed lies in [1, 2^32): the digits' value when it is at least 1, and 1 when they read zero |
| VisualEngineer.SeedsAt | archives/generator-attempt/backend/app/agents/visual_engineer.py:41-47 | thumbnail i gets `_seed_for(workflow_id, i)`, which lies in [1, 2^32) |
| VisualEngineer.UrlParts | archives/generator-attempt/backend/app/agents/visual_engineer.py:100 | `{base}/{encoded}?{query}` starts with the base and a slash, ends with `?` and the query, and has the encoded prompt exactly between them |
| VisualEngineer.ImageUrlShape | archives/generator-attempt/backend/app/agents/visual_engineer.py:89-100 | the image URL is the base URL, a slash, the quoted prompt, `?`, and the seed/width/height/nologo/enhance query |
| VisualEngineer.PromptShape | archives/generator-attempt/backend/app/agents/visual_engineer.py:25-46 | every prompt starts with the fixed thumbnail preamble, the style's direction and the topic, and ends with `Hook text: {hook}.` |
| VisualEngineer.FirstWithId | archives/generator-attempt/backend/app/agents/visual_engineer.py:73-75 | the position of the first script with the id, or none iff no script has it |
| VisualEngineer.ResolvedScriptCases | archives/generator-attempt/backend/app/agents/visual_engineer.py:67-87 | a truthy selected id that some script has resolves to the first such script; otherwise the first script; with no scripts, a fallback with tone fallback and a fresh id |
| VisualEngineer.VisualEngineerAgent.constructor | archives/generator-attempt/backend/app/agents/visual_engineer.py:14-19 | the base URL is the configured one without trailing slashes; width and height are the configured ones |
| VisualEngineer.VisualEngineerAgent.ThumbnailAtShape | archives/generator-attempt/backend/app/agents/visual_engineer.py:42-55 | one thumbnail has the fresh id, the style, the seed, the style's prompt and the image URL built from them |
| VisualEngineer.VisualEngineerAgent.ThumbnailsAt | archives/generator-attempt/backend/app/agents/visual_engineer.py:41-56 | thumbnail i is built from spec i, seed i and uuid draw k + i |
| VisualEngineer.VisualEngineerAgent.ThumbnailsShape | archives/generator-attempt/backend/app/agents/visual_engineer.py:25-56 | exactly three thumbnails with styles face_focused, product_focused and text_heavy, in that order, each with its seed in [1, 2^32), its prompt and URL shape |
| VisualEngineer.VisualEngineerAgent.ResolveScript | archives/generator-attempt/backend/app/agents/visual_engineer.py:67-87 | the loop returns the resolved script and draws a uuid only for the fallback |
| VisualEngineer.VisualEngineerAgent.MakeThumbnails | archives/generator-attempt/backend/app/agents/visual_engineer.py:40-56 | the loop builds the specified thumbnail list, drawing one uuid per thumbnail |
| VisualEngineer.VisualEngineerAgent.Run | archives/generator-attempt/backend/app/agents/visual_engineer.py:21-65 | stores the three thumbnails for the resolved script's hook; clears the selection; sets only `thumbnails_approved` false among the flags; sets step thumbnails_generated and the timestamp; leaves the script fields alone |
| TrendAnalyst.PrimaryPlatform | generator-attempt/backend/app/agents/trend_analyst.py:15 | the first target platform, or youtube when there is none |
| TrendAnalyst.TrendFor | generator-attempt/backend/app/agents/trend_analyst.py:17-30 | the static trend record names the primary platform and carries the three suggested hooks |
| TrendAnalyst.HooksMentionTopic | generator-attempt/backend/app/agents/trend_analyst.py:20-24 | there are three hooks and each ends with the topic |
| TrendAnalyst.Run | generator-attempt/backend/app/agents/trend_analyst.py:13-37 | stores the trend record of the topic and platforms, sets step trend_analysis_complete and the timestamp |
| Config.WordListsDisjoint | backend/app/core/config.py:70-73 | no word is both a true word and a false word, so the order of the two checks does not matter |
| Config.CoerceDebug | backend/app/core/config.py:61-74 | a bool is kept; None gives true; any other value is false iff its stripped, ASCII-lower-cased text is a false word (0, false, no, off), so true words and unknown text give true |
| Config.NormalizeProvider | backend/app/core/config.py:76-85 | the result is always openai, ollama or mock: None gives ollama, a known name (after strip and ASCII lower-casing) is itself, anything else ollama |
| Config.NormalizeProviderIdempotent | backend/app/core/config.py:76-85 | normalising a normalised provider changes nothing |
| Config.ProviderIsNormal | backend/app/core/config.py:82-84 | each known provider name is its own stripped lower-case form |
| Config.CorsList | backend/app/core/config.py:87-89 | one origin per comma-separated field (commas + 1 of them), each the stripped field |
| Config.SqliteFilePath | backend/app/core/config.py:91-96 | a file part iff the URL starts with `sqlite+aiosqlite:///` or `sqlite:///`: the raw text after the first matching prefix in that order |
| Config.DefaultSettings | backend/app/core/config.py:16-59 | the defaults have provider ollama (a normal provider), debug off and no OpenAI key |
| State.WorkflowState.constructor | archives/generator-attempt/backend/app/api/v1/workflows.py:62-88 | the initial snapshot of `start_workflow`: the request's fields, nothing generated, no experiment, step init, all flags false, zero token counters, no errors, both timestamps now |
| WorkflowsApi.MapStatus | archives/generator-attempt/backend/app/api/v1/workflows.py:214-223 | the record status is always one of the five record statuses: completed and the two awaiting steps map to themselves, both A/B steps to ab_testing, and every other step (error included) to running |
| WorkflowsApi.MapStatusIdempotent | archives/generator-attempt/backend/app/api/v1/workflows.py:214-223 | mapping a mapped status changes nothing |
| WorkflowsApi.RequiresAction | archives/generator-attempt/backend/app/api/v1/workflows.py:227-235 | an action is required iff the mapped status is one of the two awaiting statuses or ab_testing; the action is script_approval, thumbnail_selection or ab_test_monitoring to match |
| WorkflowsApi.ResponsesAtSuspensions | archives/generator-attempt/backend/app/api/v1/workflows.py:214-235 | at each step where a run stops, the status and required action the client sees; an error stop is reported as running with no action |
| WorkflowsApi.ToResponse | archives/generator-attempt/backend/app/api/v1/workflows.py:226-247 | the response carries the id, the step, its mapped status and its required action, and the snapshot's scripts, thumbnails, both selections and token counters |
| WorkflowsApi.ChosenScriptId | archives/generator-attempt/backend/app/api/v1/workflows.py:144 | a truthy requested id is used; otherwise the first script's id, which is among the scripts |
| WorkflowsApi.ApplyScriptDecision | archives/generator-attempt/backend/app/api/v1/workflows.py:140-161 | no scripts gives 400 "No scripts…"; an approve of an id not among the scripts gives 400 "Invalid selected_script_id"; an error changes nothing; approve stores the chosen id and flags (approved, not rejected, thumbnails not approved); reject clears the selection and flags (not approved, rejected, not approved); both clear the thumbnail selection and set the timestamp |
| WorkflowsApi.ApplyThumbnailChoice | archives/generator-attempt/backend/app/api/v1/workflows.py:190-200 | no thumbnails gives 400 "No thumbnails…"; an id not among them gives 400 "Invalid selected_thumbnail_id"; success iff the id is among them; an error changes nothing; success stores the id, sets `thumbnails_approved` and the timestamp |
| WorkflowsApi.ApproveWorkflow | archives/generator-attempt/backend/app/api/v1/workflows.py:124-172 | the two validation errors leave the snapshot unchanged; a success responds with the resumed snapshot; outside the A/B phase an approve stops at awaiting_thumbnail_selection, and a reject stops at awaiting_approval (or at awaiting_thumbnail_selection when the workflow was waiting there); inside the A/B phase it stops at an A/B stop |
| WorkflowsApi.SelectThumbnail | archives/generator-attempt/backend/app/api/v1/workflows.py:175-211 | the two validation errors leave the snapshot unchanged; with a valid id the resumed run goes into the A/B test and stops there (polling, error or completed) |
| WorkflowsApi.DeclareWinnerManually | archives/generator-attempt/backend/app/api/v1/workflows.py:293-333 | an id not among the thumbnails gives 400 "Invalid thumbnail ID" and changes nothing; with an experiment the forced winner makes the resumed run stop at an A/B stop; without one the run resumes as the router routes the snapshot |
| WorkflowsApi.StopTestPickAsWritten | archives/generator-attempt/backend/app/api/v1/workflows.py:355-358 | as written: a stored `ab_test: None` makes `.get` raise, a 500; otherwise as the corrected pick |
| WorkflowsApi.StopTestPick | archives/generator-attempt/backend/app/api/v1/workflows.py:355-380 | a pick iff the experiment is running and has variants: no experiment or not running gives 400 "Test not running", no variants 400 "No variants to evaluate"; the pick is the first variant of greatest ctr |
| WorkflowsApi.StopBeforeTestIsServerError | archives/generator-attempt/backend/app/api/v1/workflows.py:355-358 | stopping before a test started is a 500 as written and the intended 400 "Test not running" once corrected |
| WorkflowsApi.StopTestPickDiffersOnlyWithoutTest | archives/generator-attempt/backend/app/api/v1/workflows.py:355-358 | the two picks differ exactly when there is no experiment |
| WorkflowsApi.StopAbTest | archives/generator-attempt/backend/app/api/v1/workflows.py:336-380 | built on the corrected pick: a refused stop returns its error (400 "Test not running" also for a snapshot without an experiment, where the code as written gives a 500) and changes nothing; a stop forces the best variant and the resumed run ends at an A/B stop |
| WorkflowsApi.TimeRemaining | archives/generator-attempt/backend/app/api/v1/workflows.py:275-276 | never negative: 72 hours minus the elapsed seconds, or 0 once they are used up |
| WorkflowsApi.AbStatus | archives/generator-attempt/backend/app/api/v1/workflows.py:268-290 | no experiment gives 400 "A/B test not started yet" and nothing else does; the response copies status, variants, confidence, totals, winner and check count; it is running iff the status is running; elapsed and remaining are truncated seconds; early declaring is allowed iff confidence > 0.90 or more than an hour has passed |
| WorkflowsApi.ElapsedPlusRemaining | archives/generator-attempt/backend/app/api/v1/workflows.py:274-287 | within the 72 hours, elapsed plus remaining seconds is 72·3600 or one less (both are truncated) |
| WorkflowsApi.RemainingNeverGrows | archives/generator-attempt/backend/app/api/v1/workflows.py:274-287 | a later poll never reports more time remaining |
| WorkflowsApi.NoTimeLeftAtOrchestratorTimeout | archives/generator-attempt/backend/app/api/v1/workflows.py:275-276 | once the orchestrator's 72-hour timeout applies, the status endpoint reports no time remaining |
| WorkflowsApi.FirstThumbnailWithId | archives/generator-attempt/backend/app/api/v1/workflows.py:413-416 | the position of the first thumbnail with the id, none iff no thumbnail has it |
| WorkflowsApi.WinningScript | archives/generator-attempt/backend/app/api/v1/workflows.py:405-409 | a script iff the selected id is set and some script has it; it is the first such script |
| WorkflowsApi.WinningThumbnail | archives/generator-attempt/backend/app/api/v1/workflows.py:412-416 | a thumbnail iff the selected id is set and some thumbnail has it; it is the first such thumbnail |
| WorkflowsApi.CombinedCtr | archives/generator-attempt/backend/app/api/v1/workflows.py:418-433 | a non-zero treatment ctr in the final stats is used; otherwise, a value iff there are variants, and then a greatest variant ctr |
| WorkflowsApi.FinalResultsOf | archives/generator-attempt/backend/app/api/v1/workflows.py:399-443 | a step other than completed gives 400 "Workflow not completed yet"; completed without an experiment raises on `.get`; otherwise the results name the winning script and thumbnail, the combined ctr, the duration in hours, the totals, and a manual override iff the status is manual_override |
| WorkflowsApi.OverrideResults | archives/generator-attempt/backend/app/api/v1/workflows.py:418-440 | after a forced winner the results report a manual override, the best variant ctr, and the forced thumbnail when it is among the thumbnails |
| Auth.ExpiryDelta | backend/app/core/auth.py:36-39 | a given non-zero delta is used; a missing or zero delta (a falsy `timedelta`) gives seven days |
| Auth.AccessTokenClaims | backend/app/core/auth.py:32-41 | the signed claims are the caller's claims plus `exp`, which is now plus the delta; every other claim is kept |
| Auth.UserIdFromToken | backend/app/core/auth.py:57-67 | none iff the token does not decode or `sub` is missing or null; otherwise `sub` as stored |
| Auth.TokenCarriesSubject | backend/app/core/auth.py:32-67 | a token made for a user id gives that id back, when decoding returns what was signed |
| Auth.FirstWithEmail | backend/app/core/auth.py:96-97 | the insertion position of the first user with the email, none iff no user has it |
| Auth.Authentication | backend/app/core/auth.py:93-103 | a user id iff the first user with the email exists and the password verifies against that user's hash; then it is a registered user with that email |
| Auth.ShadowedUserNeverAuthenticates | backend/app/core/auth.py:96-101 | a later user with an earlier user's email never logs in, whatever the password |
| Auth.NewUserAuthenticates | backend/app/core/auth.py:76-103 | a new user with a fresh email and a verifying password logs in as themselves |
| Auth.UserStore.constructor | backend/app/core/auth.py:73 | the registry starts empty |
| Auth.UserStore.CreateUser | backend/app/core/auth.py:76-90 | the next uuid is the user id; its entry holds the email, the hashed password and the creation time; nothing else changes; a new id goes to the end of the insertion order |
| Auth.UserStore.AuthenticateUser | backend/app/core/auth.py:93-103 | the scan in insertion order answers what the authentication function specifies |
| Auth.UserStore.UserById | backend/app/core/auth.py:106-108 | the entry iff the id is registered |
| Auth.UserStore.SeedDemoUser | backend/app/core/auth.py:111-115 | an empty registry gets exactly the demo user; a non-empty one, and the uuid supply, are left alone |
| FixConfig.ReplacementShape | fix_config.py:6-18 | the inserted text names `_ensure_async_sqlite` and ends with the `debug` decorator line it replaces |
| FixConfig.Patched | fix_config.py:20-23 | a text that already names the validator, or lacks the decorator line, is unchanged; otherwise the result contains the new validator and still has the decorator line |
| FixConfig.PatchIdempotent | fix_config.py:20-26 | patching twice is the same as patching once |
| FixConfig.PatchKeepsDebugValidator | fix_config.py:6-21 | the `debug` validator survives the patch |
| FixConfig.AsyncSqliteUrl | fix_config.py:11-16 | `sqlite:///` becomes `sqlite+aiosqlite:///`; other sqlite and postgresql URLs are kept; anything else loses its leading dots and slashes and gets the async prefix |
| FixConfig.EnsureAsyncSqlite | fix_config.py:9-16 | a falsy value passes through; any other is rewritten as its text's async URL |
| FixConfig.EnsureAsyncSqliteIdempotent | fix_config.py:9-16 | the validator applied to its own output changes nothing |
| FixConfig.AsyncUrlIsKept | fix_config.py:12-16 | any URL with the async prefix is kept by the validator |
| FixConfig.RewriteKeepsSqliteFile | fix_config.py:12 | rewriting a `sqlite:///` URL keeps the file that `_sqlite_file_path` finds in it |
| TestTimer.JsRem | archives/generator-attempt/frontend/src/components/ab-testing/TestTimer.tsx:8-9 | JavaScript's `%`: the Euclidean remainder for non-negative operands, a non-positive remainder above −b for negative ones |
| TestTimer.Parts | archives/generator-attempt/frontend/src/components/ab-testing/TestTimer.tsx:7-9 | for non-negative seconds hours, minutes and seconds add back up to the input, with minutes and seconds below 60; for negative seconds none of them is positive |
| TestTimer.PartsAddUp | archives/generator-attempt/frontend/src/components/ab-testing/TestTimer.tsx:7-9 | h·3600 + m·60 + s gives back the count, with m below 60 |
| TestTimer.FormatDuration | archives/generator-attempt/frontend/src/components/ab-testing/TestTimer.tsx:6-17 | an hour or more prints "Hh Mm Ss"; a minute or more "Mm Ss"; less (negative included) "Ss"; the text always ends in s |
| TestTimer.RemainingText | archives/generator-attempt/frontend/src/components/ab-testing/TestTimer.tsx:20-38 | the remaining row reads "Timeout" iff no time is left, and is the formatted duration otherwise |
| TestTimer.TimerShowsTimeoutAtDeadline | archives/generator-attempt/frontend/src/components/ab-testing/TestTimer.tsx:20-38 | fed by the status endpoint, the timer reads "Timeout" exactly when less than a second of the 72 hours is left |
| WorkflowCard.StatusDisplay | archives/generator-attempt/frontend/src/components/WorkflowCard.tsx:12-27 | a fixed pill (class and text) per known status; any other status is shown as its own text with the running style; the pill pulses iff the status is ab_testing |
| WorkflowCard.ActionText | archives/generator-attempt/frontend/src/components/WorkflowCard.tsx:29-41 | the text is View, Review or Monitor: Review iff an approval is awaited, Monitor iff a test runs |
| WorkflowCard.LinkTarget | archives/generator-attempt/frontend/src/components/WorkflowCard.tsx:69-76 | the A/B page iff the status is ab_testing; the workflow page otherwise |
| WorkflowCard.CardKnowsEveryRecordStatus | archives/generator-attempt/frontend/src/components/WorkflowCard.tsx:12-27 | every status the backend stores for a record gets its own pill, never the fallback, and it pulses iff the backend asks the client to monitor |
| WorkflowCard.ActionMatchesRequiredAction | archives/generator-attempt/frontend/src/components/WorkflowCard.tsx:29-41 | the button says Review iff the backend requires approval or a thumbnail choice, Monitor iff it requires monitoring, and View iff nothing is required |
| WorkflowCard.LinkFollowsAction | archives/generator-attempt/frontend/src/components/WorkflowCard.tsx:69-76 | the button leads to the A/B page iff it says Monitor |

## Left out

- The LangGraph runtime, its checkpoint store and `thread_id`: one invocation is modelled as a loop over the graph's edges.
- Persistence, the 404 record lookups and the commit after each endpoint: the endpoints act on a snapshot already loaded.
- `list_workflows`, `start_workflow`'s database record and `workflow_status`: they only read or store records; the initial snapshot is `State.WorkflowState.constructor`.
- Logging is left out, because it has no effect on state. So is the `print` in `fix_config.py`, and the file reading and writing around its patch: the patch is a function of the text.
- The clock is a parameter (`now`): `int(time.time())` is `Trunc(now)`. One reading is modelled per invocation: every `time.time()` of one run reads the same `now`, although `_initialize_test` reads the clock twice (backend/app/agents/ab_test_orchestrator.py, lines 68-69) and so does `_update_test` (lines 87 and 96), so the model does not capture a clock that moves between those reads.
- `uuid.uuid4` is a stream of ids (`Externals.UuidSource`) whose draws the methods count.
- `random.Random` seeded from md5 is a stream of standard normal draws per workflow id. `random.gauss` is mu + sigma · draw.
- `math.sqrt`, `_normal_cdf`, `math.exp` and `round` are parameters (`Numerics`). Floating point is modelled as exact reals.
- Exact p-values and confidences are therefore left out, and so is the Abramowitz–Stegun approximation.
- sha256, `quote` and `urlencode` are parameters; bcrypt hashing and verification, and JWT encoding and decoding, are parameters too.
- JWT signing, and the expiry check done by `jwt.decode`, are left out.
- `ScriptArchitectAgent._build_prompts` and the HTTP and LLM calls are left out: the prompts are constant text sent to a model, and the reply is a parameter (returned or raised).
- `_generate_with_ollama`'s `str(...)` of the message content is left out: the reply's content is given as text.
- Python exceptions carried by `Result` are kept to the ones the core raises, with the ill-typed JSON the model's reply can hold (a `variants` that cannot be sliced, an element that is not an object, a retention `float()` rejects, an Ollama counter `int()` rejects) among them; an Ollama reply whose body or `message` lookup raises is a raised call. A node that raises part-way leaves the snapshot as modelled up to the raise.
- The snapshot is not persisted after a raise, so that state is never read again.
- `ensure_data_dir` is left out, because it only creates directories, and `get_settings`' cache holds no logic.
- Reading settings from the environment and `.env` is left out: the settings are a value handed to the agents, and `Config.DefaultSettings` holds the declared defaults.
- The TestTimer progress bar is left out: it is a float percentage for display only.
- TestTimer seconds are modelled as integers: the backend sends whole seconds, and fractional seconds are left out.
- The dashboard's React rendering and routing are left out: the card is modelled by what it shows and links to.
- `StopTestRequest.reason` is validated but not read by `stop_ab_test`, so it has no effect in the model.
- `VisualEngineer.VisualEngineerAgent.Run`: `script.get("hook", …)` is modelled as the script's hook, because every script the model produces has one.
- Lower: folds only ASCII `A`–`Z`, where Python's `str.lower()` also folds other letters (U+212A KELVIN SIGN lowers to `k`); full Unicode case mapping is a table outside this model.
- CoerceDebug: by that ASCII-only folding, non-ASCII upper-case text is classified by its ASCII-folded form, which can differ from `str.lower()`.
- NormalizeProvider: by that ASCII-only folding, "MOC\u212A" gives ollama where the settings module gives mock.
- SqliteFilePath: returns the raw text after the prefix, not the normalised `Path` (`./data/app.db` is `data/app.db` as a `Path`); path normalisation is left out.
- AnalyticsMock: `avg_view_duration` and `engagement_rate` are drawn as the source draws them, but nothing is proved about their values, because the core never reads them.

## Findings

| source | as written | input that shows it | evidently intended | confidence | as-written member | corrected member |
|---|---|---|---|---|---|---|
| archives/generator-attempt/backend/app/api/v1/workflows.py:355-358 | `state.get("ab_test", {})` returns the stored `None` (the start snapshot has `"ab_test": None`), so `ab_test.get("status")` raises and the client gets a 500 | stop-test on a workflow awaiting thumbnail selection, before any test started | 400 "Test not running" | not executed | WorkflowsApi.StopTestPickAsWritten, WorkflowsApi.StopBeforeTestIsServerError | WorkflowsApi.StopTestPick |

`WorkflowsApi.StopAbTest`, like the rest of the model, is built on the corrected pick: for a snapshot
without an experiment it answers 400 "Test not running", where the code as written answers 500.

The same `.get` default on a stored `None` is at `workflows.py:418-419` in `get_final_results`.
It gives a 500 for a completed workflow without an experiment, and `FinalResultsOf` keeps that.
No such snapshot can be stored, because `_finalize` raises in that case before the record is
saved.

Other behaviours the model keeps as written:

* A workflow at the error step is stored and reported with status running.
* A reject sent while the workflow awaits a thumbnail does not regenerate scripts, because the
  router sends the snapshot back to the thumbnail gate.
* After `declare_winner_manually` or `stop_ab_test`, the resumed run passes through `process` and
  `_update_test` again, so a statistical winner or the timeout can replace the `manual_override`
  status and its winner.
* A zero `timedelta` falls back to the seven-day expiry.
* A zero `treatment_ctr` in the final stats is falsy, so the best variant's ctr is reported
  instead.
* In the embedded URL validator, the branch for a path that still starts with `/` after
  `lstrip("./")` can never be taken.
