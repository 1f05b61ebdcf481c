# Neuraline orchestration core, in Dafny

Neuraline is a conversational companion. Several language-model "agents" work on one user query:
- the reflector surfaces emotions;
- the strategist turns them into a plan;
- the coach turns the plan into habits;
- the purpose agent ties the plan to values.

This project models the code that coordinates the agents and proves properties of it. Modules, one per source file:

- `SharedState` (`blackboard.py`) models the blackboard, the key/value store the agents share. It is a class whose `store` map the methods update in place.
- `BaseAgent` (`base_agent.py`) models the router-or-fallback model call and the common tail of every agent's `run`. The tail calls the model and merges one field into the agent's own blackboard key.
- `ReflectorAgent`, `StrategistAgent`, `CoachAgent` and `PurposeAgent` model the four agents. Each one has:
  - its prompt;
  - the blackboard entries it reads, with their defaults and their failure on a non-dict;
  - a `Run` method proved against a store-transition function.
- `Evaluator` (`evaluator.py`) models the score of an output against the query, the stable descending sort, and the best/combined/ranked verdict.
- `Coordinator` (`coordinator.py`) covers:
  - the routing table and the `_run_agent` placeholders;
  - `run_chain`;
  - `run_parallel`. Here an agent whose model call suspends the event loop sees the blackboard as it was when it started, and its write lands after every job has started.
- `McpEngine` (`mcp_engine.py`) covers:
  - the agent prompt builder;
  - `_fuse_dialogue`;
  - the `_call_agent` retry loop with its `0.5 * attempt` sleeps;
  - both run modes, the best role, and the `run_mcp` defaults.
- `Retry` (`_retry.py`) models the `retry_async` decorator: at most `retries + 1` calls, a sleep of `delay * 2**i` after failure `i` when another attempt follows, and the last exception re-raised.
- `ConversationManager` (`conversation_manager.py`) covers:
  - the keyword classifier and the template table;
  - the context-retrieval gate;
  - the per-session memory map (`_get_memory`);
  - `chat`, including its memory-buffer fallback.
- `ResponseValidator` (`response_validator.py`) models the phrase-replacement loop of `clean`.

Helper modules:
- `Wrappers` holds `Option` and `Result`.
- `PyString` holds the Python `str` operations the code uses (`lower`, `upper`, `strip`, `split`, `replace`, `in`, `join`) and lemmas about them.
- `Generation` holds the outcome of a model call: its text or the exception it raised, and how long it took.

A call times out exactly when its latency exceeds the timeout. A latency of 0 means the call returned without suspending.

Scores are integers in units of 1/400 of the source's score. The length term `min(1.0, len/400)` becomes `min(400, len)` and the bonus `0.5` becomes `200`. These integers are the real-number values of the source's formula. The source computes in IEEE doubles, whose rounding can differ in the last bit (see `Evaluator.SortRanks` under "## Left out").

## Model

| member | source | states |
|---|---|---|
| SharedState.Blackboard.constructor | backend/app/agents/blackboard.py:7-9 | A new blackboard holds nothing. |
| SharedState.Blackboard.Read | backend/app/agents/blackboard.py:11-13 | Returns the stored value for a present key and the default otherwise; the store is untouched. |
| SharedState.Blackboard.Write | backend/app/agents/blackboard.py:15-17 | The key now holds the value; every other key reads as before. |
| SharedState.Blackboard.UpdateDict | backend/app/agents/blackboard.py:19-26 | The key holds the shallow merge of the existing dict (or `{}` for a missing key or a non-dict) with the values; no other key appears, disappears or changes. |
| SharedState.MergedEntries | backend/app/agents/blackboard.py:22-25 | On a dict, the merge keeps old entries that the values do not override, holds every entry of the values with the values winning, and adds nothing else; on a missing key or a non-dict it is exactly the values. |
| SharedState.UpdateDictFrame | backend/app/agents/blackboard.py:26 | `update_dict` leaves every other key's presence and value alone. |
| SharedState.UpdateDictCommute | backend/app/agents/blackboard.py:19-26 | Two merges under different keys give the same store in either order. |
| SharedState.Blackboard.Dump | backend/app/agents/blackboard.py:28-30 | Returns a map equal to the store and changes nothing. |
| SharedState.Blackboard.Clear | backend/app/agents/blackboard.py:32-34 | The store is empty, so every later read returns its default. |
| BaseAgent.Fallback | backend/app/agents/base_agent.py:27 | The fallback is the agent's `(local fallback by <name>) ` prefix followed by the first 300 characters of the prompt (all of it when shorter). |
| BaseAgent.CallModel | backend/app/agents/base_agent.py:20-27 | Without a router it gives the fallback; with one it gives the router's reply, or the fallback when the router raises, and it is cancelled when the call outlasts the enclosing timeout. |
| BaseAgent.CallModelNeverRaises | backend/app/agents/base_agent.py:22-27 | A router exception never escapes; the call ends without text exactly when a router call exceeds the timeout. |
| BaseAgent.BaseRun | backend/app/agents/base_agent.py:16-18 | The abstract `run` always raises `NotImplementedError` with an empty message and never returns. |
| BaseAgent.GetField | backend/app/agents/strategist_agent.py:9 | `.get(field, default)` answers exactly when the value read is a dict: its entry, or the default when the field is absent; a non-dict raises. |
| BaseAgent.StepWritesOwnKey | backend/app/agents/reflector_agent.py:23-25 | A returned run's result has the agent's own role, and the store gains exactly `{field: output}` merged under the agent's name; a run that does not return leaves the store alone; other keys never change. |
| BaseAgent.Finish | backend/app/agents/reflector_agent.py:23-25 | The model call followed by `update_dict(name, {field: reply})` yields the outcome and store that the step function prescribes. |
| ReflectorAgent.PromptEmbedsQuery | backend/app/agents/reflector_agent.py:8-22 | The prompt contains the query, and different queries give different prompts. |
| ReflectorAgent.Run | backend/app/agents/reflector_agent.py:7-25 | The reflector's run is the step that writes `insight` under `reflector`; it never fails, since it reads nothing. |
| StrategistAgent.SeedIsInsight | backend/app/agents/strategist_agent.py:8-9 | The seed is `""` with no reflector entry, the reflector's `insight` (or `""`) when the entry is a dict, and an exception when it is not a dict. |
| StrategistAgent.PromptEmbeds | backend/app/agents/strategist_agent.py:10-29 | The prompt contains both the query and the seed. |
| StrategistAgent.Run | backend/app/agents/strategist_agent.py:7-32 | The run reads the reflector entry, builds the prompt, or fails when the read value has no `.get`, and writes `plan` under `strategist`. |
| CoachAgent.PlanIsStrategistPlan | backend/app/agents/coach_agent.py:8-9 | The plan is `""` with no strategist entry, the strategist's `plan` (or `""`) when the entry is a dict, and an exception otherwise. |
| CoachAgent.PromptEmbeds | backend/app/agents/coach_agent.py:10-28 | The prompt contains the query and the plan. |
| CoachAgent.Run | backend/app/agents/coach_agent.py:7-31 | The run reads the strategist entry and writes `nudges` under `coach`, or fails on a non-dict. |
| PurposeAgent.PromptDefaults | backend/app/agents/purpose_agent.py:8-16 | On a blackboard without the two entries the prompt says "No reflection provided" and "No plan available"; with both written it carries the insight and the plan. |
| PurposeAgent.PromptEmbeds | backend/app/agents/purpose_agent.py:10-26 | The prompt contains the insight, the plan and the query. |
| PurposeAgent.Run | backend/app/agents/purpose_agent.py:7-29 | The run reads both entries, with the reflector's checked first, and writes `alignment` under `purpose`. |
| Evaluator.Score | backend/app/agents/evaluator.py:4-10 | Empty text scores 0; otherwise the score is `min(len, 400)` plus 200 when some query word occurs in the text, ignoring case; it lies between 0 and 600. |
| Evaluator.BlankQueryNoBonus | backend/app/agents/evaluator.py:8-9 | A whitespace-only query has no words, so it never earns the bonus. |
| Evaluator.ScoreMonotone | backend/app/agents/evaluator.py:7-10 | With the same keyword verdict, a longer output never scores lower. |
| Evaluator.WordEarnsBonus | backend/app/agents/evaluator.py:8-9 | A query word found in the lower-cased output earns the bonus. |
| Evaluator.SortPermutes | backend/app/agents/evaluator.py:20 | The sort is a permutation of its input. |
| Evaluator.SortRanks | backend/app/agents/evaluator.py:20 | On entries in arrival order, the sort orders by score descending, with ties kept in arrival order. |
| Evaluator.ScoresShape | backend/app/agents/evaluator.py:16-19 | The scores list holds, for each result in order, its score and the result itself. |
| Evaluator.RankingCorrect | backend/app/agents/evaluator.py:16-23 | The ranking holds each result exactly once, carrying its own score, ordered by score with ties in arrival order. |
| Evaluator.BestIsTopScore | backend/app/agents/evaluator.py:20-21 | `best` is empty exactly when there are no results; otherwise it is a result that no result outscores and that no earlier result ties. |
| Evaluator.NoResults | backend/app/agents/evaluator.py:21-23 | With no results, best is `{}`, combined is `""` and ranked is empty. |
| Evaluator.Evaluate | backend/app/agents/evaluator.py:15-23 | The scoring loop, the sort and the three fields give the evaluation function's verdict, with one ranked entry per result. |
| Coordinator.RoleOf | backend/app/agents/coordinator.py:54-59 | `name_map` knows exactly the four agent names, each naming its own agent. |
| Coordinator.ResultOf | backend/app/agents/coordinator.py:39-49 | A returned run gives the agent's dict; a timeout gives `"<name> timed out."` and any other exception gives `"<name> failed: <message>"`, both under the agent's role. |
| Coordinator.RoutesAreKnownAndDistinct | backend/app/agents/coordinator.py:31-37 | Every routed name is a known agent, none repeats, and an unknown task type routes to reflector then strategist. |
| Coordinator.StepRole | backend/app/agents/coordinator.py:39-49 | `_run_agent`'s result always carries the agent's own role. |
| Coordinator.ChainResultsFollowChain | backend/app/agents/coordinator.py:75-81 | `run_chain` yields one result per known name, in chain order and under that name; unknown names are skipped and repeated names run again. |
| Coordinator.ChainFrame | backend/app/agents/coordinator.py:76-81 | Keys that no agent in the chain is named after keep their values through the chain. |
| Coordinator.ChainPassesOutputsOn | backend/app/agents/coordinator.py:76-81 | In a chain, a returned reflector's output is the seed the strategist reads next, and a returned strategist's output is the coach's plan. |
| Coordinator.StepStoresOutput | backend/app/agents/coordinator.py:39-49 | A run that returns leaves exactly its output merged under the agent's own name under its field; a run that fails or times out leaves the blackboard unchanged. |
| Coordinator.PurposeSeesBoth | backend/app/agents/purpose_agent.py:8-15 | Once the reflector's insight and then the strategist's plan are merged, the purpose agent's prompt is built from that insight and that plan. |
| Coordinator.ResumptionOrderIrrelevant | backend/app/agents/coordinator.py:60-61 | Pending merges under pairwise different keys give the same final store in every reordering, not just a swap of two. |
| Coordinator.PendingDistinct | backend/app/agents/coordinator.py:53-60 | On a route that names no agent twice, every merge left pending at launch is under a routed name, and no two are under the same key. |
| Coordinator.ParallelStoreIgnoresResumptionOrder | backend/app/agents/coordinator.py:60-61 | On such a route `run_parallel` ends with the same blackboard whatever order the suspended agents resume in. |
| Coordinator.ParallelWithoutRouterIsChain | backend/app/agents/coordinator.py:60-61 | Without a router nothing suspends, so `run_parallel` gives exactly the chain's results and store. |
| Coordinator.ParallelAgentsSeeStartingStore | backend/app/agents/coordinator.py:60-61 | When every model call suspends, every agent builds its prompt from the store as it was before the run. |
| Coordinator.ParallelResultsFollowRoute | backend/app/agents/coordinator.py:53-61 | `run_parallel` yields one result per routed known name, in routing order, under that name. |
| Coordinator.CoordinatorAgent.constructor | backend/app/agents/coordinator.py:18-23 | The coordinator owns a fresh, empty blackboard and keeps the router and timeout. |
| Coordinator.CoordinatorAgent.RunAgent | backend/app/agents/coordinator.py:39-49 | Runs the named agent on the blackboard and returns its dict or placeholder, with the store the agent's step leaves. |
| Coordinator.CoordinatorAgent.RunChain | backend/app/agents/coordinator.py:67-85 | The results and final store are the chain function's; the verdict is the evaluation of those results; the snapshot is the store after all agents. |
| Coordinator.CoordinatorAgent.ChainStep | backend/app/agents/coordinator.py:76-81 | One round of the chain loop runs the agent that `name_map` gives for the name and appends its result, or skips an unknown name, as the chain step prescribes. |
| Coordinator.CoordinatorAgent.StartJob | backend/app/agents/coordinator.py:60 | Starting one job applies an immediate write to the blackboard, or queues the write of a suspended agent, as the launch step prescribes. |
| Coordinator.CoordinatorAgent.LaunchAll | backend/app/agents/coordinator.py:60 | Starting every routed job in order gives the launch function's results, blackboard and pending merges. |
| Coordinator.CoordinatorAgent.ApplyPending | backend/app/agents/coordinator.py:60-61 | The suspended agents' merges land on the blackboard in order, as the apply function prescribes. |
| Coordinator.CoordinatorAgent.RunParallel | backend/app/agents/coordinator.py:51-65 | The results and final store are the parallel function's for `routing_table.get(task_type, default)`; the verdict evaluates those results; the snapshot is the store at the end. |
| McpEngine.Put | backend/app/mcp/mcp_engine.py:194-195 | `d[k] = v` makes `k` map to `v` and leaves other keys alone; a new key goes last, and an existing key keeps its position. |
| McpEngine.PromptShape | backend/app/mcp/mcp_engine.py:60-77 | The prompt starts with `[<ROLE> AGENT]` and carries the role's profile (or `"<role> agent"`), the context (or "No context available.") and the query. |
| McpEngine.SnapshotSectionIffNonEmpty | backend/app/mcp/mcp_engine.py:64-68 | The snapshot section is present exactly when the snapshot is non-empty. |
| McpEngine.FuseDialogue | backend/app/mcp/mcp_engine.py:79-105 | The loop over the snapshot and the flattening give the fusion function's result. |
| McpEngine.FallbackWhenAllEmpty | backend/app/mcp/mcp_engine.py:85-101 | No part is collected exactly when every output is empty, and then the fixed reply is returned. |
| McpEngine.PartsOfOutputs | backend/app/mcp/mcp_engine.py:86-98 | Each non-empty output contributes its role's phrase followed by its stripped text. |
| McpEngine.UnknownRolePart | backend/app/mcp/mcp_engine.py:97-98 | An output under an unknown role contributes only its stripped text. |
| McpEngine.FlattenIsOneClean | backend/app/mcp/mcp_engine.py:103-104 | The joined text holds no newline and has no whitespace at either end. |
| McpEngine.FallbackIsOneLine | backend/app/mcp/mcp_engine.py:101 | The fixed reply holds no newline and no outer whitespace. |
| McpEngine.FusedIsOneLine | backend/app/mcp/mcp_engine.py:100-105 | Every fused reply holds no newline and no outer whitespace. |
| McpEngine.ThreeSpacesBecomeTwo | backend/app/mcp/mcp_engine.py:104 | One pass of `replace("  ", " ")` turns three spaces into two. |
| McpEngine.DoubleSpaceSurvives | backend/app/mcp/mcp_engine.py:104 | So a fused reply can still hold a double space. |
| McpEngine.FirstSuccessWins | backend/app/mcp/mcp_engine.py:118-125 | The first attempt that answers in time ends the loop with success, after one sleep of `0.5 * n` per earlier failure `n`. |
| McpEngine.AllAttemptsFail | backend/app/mcp/mcp_engine.py:126-135 | When every attempt fails, `retries + 1` attempts and sleeps are made, and the give-up result carries the last error. |
| McpEngine.AttemptsBounded | backend/app/mcp/mcp_engine.py:118-135 | At most `retries + 1` attempts are made; success carries no error, and failure carries the give-up text and an error; the role is kept. |
| McpEngine.NoAttemptWithNegativeRetries | backend/app/mcp/mcp_engine.py:118-135 | A negative retry count makes no attempt and reports the error "None". |
| McpEngine.RolesOrDefault | backend/app/mcp/mcp_engine.py:148 | The roles are never empty: the given roles when non-empty, else the four default roles. |
| McpEngine.FirstSuccessIsFirst | backend/app/mcp/mcp_engine.py:178 | The search finds a succeeded role with no succeeded role before it, or reports that none succeeded. |
| McpEngine.ChainCollectsEveryRole | backend/app/mcp/mcp_engine.py:191-195 | In chain mode, exactly the requested roles have results and snapshot entries, and each snapshot entry is that role's output. |
| McpEngine.ParallelCollectsEveryRole | backend/app/mcp/mcp_engine.py:169-176 | The same holds in parallel mode. |
| McpEngine.ParallelIgnoresOtherRoles | backend/app/mcp/mcp_engine.py:168-176 | In parallel mode every requested role holds the result of its own call on a prompt built without a snapshot, whatever the other roles produce; a role that was not requested holds nothing. |
| McpEngine.GatherThenRecord | backend/app/mcp/mcp_engine.py:168-176 | The gather yields one result per role, and recording each gathered result under its own `role` field gives the parallel results and snapshot, because every call result carries the role it was made for. |
| McpEngine.RecordGathered | backend/app/mcp/mcp_engine.py:174-176 | The loop over the gathered results stores each result and its output under the result's own role, in order. |
| McpEngine.ChainFirstPromptIsParallelPrompt | backend/app/mcp/mcp_engine.py:191-195 | In chain mode the first role sees an empty snapshot, and every later role's snapshot lists all earlier roles. |
| McpEngine.BestRoleIsFirstSuccess | backend/app/mcp/mcp_engine.py:197 | The best role is the first requested role that succeeded, or the first requested role when none did. |
| McpEngine.Engine.constructor | backend/app/mcp/mcp_engine.py:40-50 | A new engine has a 30-second agent timeout and one retry. |
| McpEngine.Engine.CallAgent | backend/app/mcp/mcp_engine.py:113-135 | The retry loop returns the call result and the sleeps that the specification function gives, under the caller's role. |
| McpEngine.Engine.CallEach | backend/app/mcp/mcp_engine.py:169-173 | The task loop and the gather return, in role order, each role's call on a prompt built without a snapshot. |
| McpEngine.Engine.GatherAll | backend/app/mcp/mcp_engine.py:168-176 | The parallel branch yields the parallel function's results and snapshot. |
| McpEngine.Engine.ChainRole | backend/app/mcp/mcp_engine.py:191-195 | One round of the chain calls the role on a prompt carrying the snapshot so far and records the result and its output under that role. |
| McpEngine.Engine.ChainAll | backend/app/mcp/mcp_engine.py:190-195 | The chain branch yields the chain function's results and snapshot. |
| McpEngine.Engine.Run | backend/app/mcp/mcp_engine.py:137-207 | A non-zero timeout replaces the agent timeout for good; the report is the run function's for the defaulted roles and for the context, or else the memory text. |
| McpEngine.Engine.RunWith | backend/app/mcp/mcp_engine.py:168-207 | The report names the mode ("parallel", else "chain"), the first succeeded role, the snapshot, its fusion and the results of the branch that the mode selects. |
| McpEngine.Engine.RunMcp | backend/app/mcp/mcp_engine.py:209-219 | A missing query is `None` and a missing mode is `"chain"`; the rest is forwarded to `run`. |
| Retry.TriesShape | backend/app/agents/_retry.py:11-20 | From any attempt on, at most the remaining attempts are made, one sleep separates consecutive calls and doubles each time, every call but the last raised, and a returned value is the last call's. |
| Retry.CallsBounded | backend/app/agents/_retry.py:12-20 | The wrapped coroutine runs at most `retries + 1` times; the `k`-th sleep is `delay * 2**k`; there is one sleep fewer than calls. |
| Retry.FirstSuccessReturned | backend/app/agents/_retry.py:12-14 | The first call that returns ends the loop with its value, after the backoff sleeps of the failures before it. |
| Retry.AllFailReraisesLast | backend/app/agents/_retry.py:16-20 | When every attempt raises, `retries + 1` calls and exactly `retries` sleeps are made, and the last exception is raised. |
| Retry.NoRetries | backend/app/agents/_retry.py:12-19 | With `retries = 0` there is one call, no sleep, and that call's outcome. |
| Retry.NegativeRetries | backend/app/agents/_retry.py:11-20 | A negative `retries` makes no call, and raising `None` gives a TypeError. |
| Retry.RetryAsync | backend/app/agents/_retry.py:10-20 | The attempt loop yields the specification's outcome, sleeps and number of calls. |
| ConversationManager.Classify | backend/app/services/conversation_manager.py:43-56 | The category is always one of the six task types. |
| ConversationManager.ClassifyPriority | backend/app/services/conversation_manager.py:45-56 | A category is chosen exactly when its group matches and no earlier group does; `general_chat` is chosen exactly when no group matches. |
| ConversationManager.ReflectionWins | backend/app/services/conversation_manager.py:46-47 | A reflection keyword in the lower-cased prompt wins over every other group. |
| ConversationManager.ClassifyIgnoresCase | backend/app/services/conversation_manager.py:45 | The prompt, lower-cased or upper-cased, gets the same category. |
| ConversationManager.PurposeTakesDefaultRoute | backend/app/services/conversation_manager.py:54-55 | Every category except `purpose_alignment` is in the coordinator's routing table; `purpose_alignment` takes the coordinator's default route. |
| ConversationManager.TemplateChoice | backend/app/services/conversation_manager.py:58-68 | Every category has a template; `rag_query` and `cognitive_reasoning` share the reasoning template and no other two share one; an unknown type gets the general template. |
| ConversationManager.ContextOnlyWhenNeeded | backend/app/services/conversation_manager.py:83-96 | Context is non-empty only for the four gated task types when retrieval returned it; coaching and general chat never get context. |
| ConversationManager.RetrieveContext | backend/app/services/conversation_manager.py:83-96 | The retrieval gate yields the context function's value, with `""` on a retrieval error. |
| ConversationManager.ChatPromptEmbeds | backend/app/services/conversation_manager.py:101-110 | The prompt opens with the persona line and carries the user input, the memory and the context, or "No context available." when the context is empty. |
| ConversationManager.TurnIsRecorded | backend/app/services/conversation_manager.py:113-131 | A failed model call re-raises and leaves the buffer alone. A successful one returns the reply. If `save_context` fails, the buffer becomes old + `"\nUser: "` + input + `"\nAI: "` + reply. |
| ConversationManager.AppendedTurn | backend/app/services/conversation_manager.py:124 | The appended buffer keeps the old buffer in front and holds the input and the reply. |
| ConversationManager.Memory.constructor | backend/app/services/conversation_manager.py:37-40 | A new memory has an empty buffer. |
| ConversationManager.Memory.Record | backend/app/services/conversation_manager.py:120-124 | The buffer becomes what `save_context` made of it, or the turn appended by hand when it fails. |
| ConversationManager.Manager.constructor | backend/app/services/conversation_manager.py:32 | A new manager has no session memories. |
| ConversationManager.Manager.GetMemory | backend/app/services/conversation_manager.py:34-41 | A known session gets its own memory back with nothing changed; a new session gets a fresh, empty memory added under its id, and other sessions are untouched. |
| ConversationManager.Manager.Chat | backend/app/services/conversation_manager.py:70-131 | One turn gives the chat function's reply and new buffer. Only the session's own memory changes, and it is created when the session is new. |
| ResponseValidator.Clean | backend/app/services/safety/response_validator.py:4-11 | The loop over the three phrases yields the clean function's result. |
| ResponseValidator.CleanRounds | backend/app/services/safety/response_validator.py:7-10 | For any list of non-empty phrases, the loop replaces each phrase in turn when the lower-cased text contains it, giving the clean function's result. |
| ResponseValidator.StepRemoves | backend/app/services/safety/response_validator.py:9-10 | After a phrase's round the phrase no longer occurs exactly, and a phrase that was absent stays absent. |
| ResponseValidator.NothingDisallowedRemains | backend/app/services/safety/response_validator.py:7-11 | The output holds no exact lower-case occurrence of any of the three phrases. |
| ResponseValidator.UnchangedWithoutExactPhrase | backend/app/services/safety/response_validator.py:5-11 | Empty text comes back unchanged. So does any text without an exact lower-case phrase, whatever the case-insensitive test says; this covers text free of the phrases in every case. |
| ResponseValidator.CapitalisedPhraseKept | backend/app/services/safety/response_validator.py:9-10 | `"Violence"` triggers the case-insensitive test, yet comes back unchanged. |

## Left out

- Concurrency is not modelled: asyncio, the blackboard lock, `asyncio.sleep` and `log_event`/logging. Sleeps are recorded as values, not taken.
- `asyncio.gather` interleaving in `run_parallel` is reduced to two cases. An agent whose model call returns without suspending runs to completion at launch. An agent whose call suspends writes after every launch. The suspended agents' writes are applied in routing order. `run_parallel` takes its route from the routing table or the default, and none of these names an agent twice (`Coordinator.RoutesAreKnownAndDistinct`). So the writes are under distinct keys, and every other resumption order gives the same final blackboard (`Coordinator.ParallelStoreIgnoresResumptionOrder`).
- The language-model clients and `ModelRouter` are not modelled. Each model call is a function parameter from prompt (and task type or attempt number) to a reply or exception plus a latency.
- The retriever, the Chroma session store and `ConversationBufferMemory.save_context` are not modelled. Their results are parameters.
- ConversationManager.TurnIsRecorded (and ConversationManager.Memory.Record): the model follows the code's evident intent, a `buffer` that can be assigned. In LangChain versions where `ConversationBufferMemory.buffer` is a read-only property, the assignment in the `save_context` fallback (conversation_manager.py:122-124) raises. The outer handler then re-raises, so `chat` fails instead of returning the reply. LangChain's own code is not part of this model.
- Floating-point arithmetic is replaced by exact integers. Scores use units of 1/400; the engine's sleeps use units of 0.5 s; `retry_async` sleeps use units of its `delay`.
- PyString.Lower: only ASCII letters change case, whereas Python's `str.lower` covers all of Unicode. The classifier and the evaluator's keyword test inherit this.
- PyString.Upper: only ASCII letters change case, whereas Python's `str.upper` covers all of Unicode and can change the length (`ß` becomes `SS`; `ı` and `ſ` become `I` and `S`).
- ConversationManager.ClassifyIgnoresCase: the upper-case half holds for the program only on ASCII prompts. Python classifies `"habıt"` as `general_chat` but its upper-cased form `"HABIT"` as `behavioral_coaching`; the model's `Upper` leaves `ı` alone, so the lemma does not see this.
- McpEngine.PromptShape: the `[<ROLE> AGENT]` header upper-cases the role with the ASCII-only `Upper`. For a role with non-ASCII letters Python's `role.upper()` differs: `"straße"` gives `[STRASSE AGENT]` in the source and `[STRAßE AGENT]` in the model. The four built-in roles are ASCII, so their headers agree.
- Evaluator.SortRanks (and Evaluator.RankingCorrect, Evaluator.BestIsTopScore, Evaluator.Evaluate): a tie in the model's exact scores may be a strict order in the source. The source adds `len/400.0` and `0.5` in doubles, and for some lengths the sum differs in the last bit from `(len+200)/400`. For example, a 28-character output with a query word scores 0.5700000000000001, against 0.57 for a 228-character output without one. The model scores both 228 and keeps arrival order, whereas the source ranks the first strictly higher. So `best`, `combined` and `ranked` can differ from the source on such near-ties.
- Timeouts are whole numbers and a call with zero latency never times out. The behaviour of `wait_for` for non-positive timeouts is left to the latency comparison.
- Blackboard values are a dict of scalars or a scalar. Scalars are strings or other objects with their type name and `str()` form. Nested containers are not modelled.
- SharedState.Blackboard.Dump: the copy is a value, so the aliasing between the shallow copy's inner dicts and the live store is not captured.
- Only string outputs are modelled in the engine's snapshot. The `isinstance(text, str)` test and the exception branch of `_fuse_dialogue` therefore never apply.
- `session_id` is used only for logging and as the conversation manager's memory key; elsewhere it is dropped.
- The prompt templates of `backend/app/prompts/templates.py` are rendered as fixed text around the three fields. LangChain's `PromptTemplate` machinery is not part of this model.
- `ContentFilter`, the web routes, `main.py`, the orchestrator wrapper, the Streamlit front end, configuration and the demo script are not part of this model.
