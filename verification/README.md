# ThinkFlow control logic in Dafny

A model of the control logic ThinkFlow wraps around its language-model
calls, with proofs about it. Every backend call is an oracle: a function-typed
field of a `Backend` datatype, or a function parameter. Three drivers are
modelled.

- **Tree-of-Thought graph** (`langgraph_tot.dfy`, module `TreeOfThought`).
  This is the LangGraph workflow generate → evaluate → decide →
  (generate | select_best) → END. It is written as an explicit transition
  function `Step` over a configuration (node, `ToTState`). `Run` iterates
  `Step` to a terminal node and returns the trace. The generation and
  scoring calls are not guarded by `try` in this driver, so a failed call
  ends the run in the `Raised` node. The same holds for an empty batch,
  because `max` raises on it.
- **Single-pass orchestrator** (`tot_orchestrator.dfy`, module
  `Orchestrator`). It makes one generation call and no retries. It fails
  closed: a failed generation gives an empty batch, and a failed scoring
  call gives a score-0 record. Missing keys default to `0` and `"N/A"`. An
  empty batch gives `None`.
- **Planner/executor agent** (`planner_agent.dfy`, module `Planner`). The
  planning reply is reduced to the slice from its first `{` to its last `}`
  and then parsed. `{}` stands for every failure. The executor walks the
  plan with a step counter, and the router ends the graph once
  `step > len(plan)`.

Shared pieces live in `evaluations.dfy` (module `Evaluations`): the
evaluation record, the best score of a batch, and the selection of the
first best-scoring record. Both Tree-of-Thought drivers use them.
`results.dfy` (module `Results`) holds `Option` and `Result`.

Python's `max(evals, key=score)` scans left to right. It replaces the kept
element only when a later key is strictly greater, so the first maximal
element wins ties. `ScanFrom` is that scan. `IsFirstMax` is the independent
definition it is proved against.

An empty batch in the graph driver raises. The router computes
`max(evaluation["score"] for evaluation in evaluations)` at
src/tot/langgraph_tot.py:123, and `max` raises on an empty sequence. So
`DecideNextStep` requires a non-empty batch, and `Step` moves an empty
batch to `Raised`.

## Model

| member | source | states |
|---|---|---|
| Evaluations.BestScore | src/tot/langgraph_tot.py:123 | The best score of a non-empty batch is at least every record's score and is attained by some record. |
| Evaluations.ScanFrom | src/tot/langgraph_tot.py:103 | The left-to-right `max` scan keeps a first maximal position as its invariant and so ends at the first maximal position of the whole batch. |
| Evaluations.FirstMaxIndex | src/tot/tot_orchestrator.py:120 | The position `max(..., key=score)` picks is the first position whose score no other record exceeds. |
| Evaluations.SelectBest | src/tot/langgraph_tot.py:103 | The selected record belongs to the batch and carries the batch's best score. Every earlier record scores strictly less, so it is the first maximal record. |
| Evaluations.FirstMaxUnique | src/tot/langgraph_tot.py:103 | Only one position can be the first maximal one, so selection is well defined on ties. |
| TreeOfThought.GenerateNode | src/tot/langgraph_tot.py:62-65 | A generation step adds exactly 1 to the retry counter and replaces the thought list wholesale. No other field changes. |
| TreeOfThought.EvaluateBatch | src/tot/langgraph_tot.py:74-92 | The batch succeeds exactly when every thought's reply parses and has a score. It then has one record per thought, in the same order, each tagged with its own thought and carrying that thought's score and reason. |
| TreeOfThought.DecideNextStep | src/tot/langgraph_tot.py:120-135 | The router picks "generate" exactly when every score is below 7 and retries < 3. At retries ≥ 3, or with any score ≥ 7, it picks "select". It requires a non-empty batch because `max` raises on an empty one. |
| TreeOfThought.SelectBestNode | src/tot/langgraph_tot.py:95-105 | The node stores the first best-scoring record of the batch as `best_thought` and changes nothing else. |
| TreeOfThought.Step | src/tot/langgraph_tot.py:144-163 | One graph transition. From generate, the run moves to evaluate exactly when the generation call succeeds, and raises otherwise. From evaluate with a non-empty scored batch, the batch is stored and the run moves to generate exactly when the router says "generate" and to selection exactly when it says "select"; a failed or empty batch raises. From selection, the run stores the best record and ends. Retries grow by 1 exactly on a generate→evaluate transition and never shrink. The problem never changes, the reachability invariant is preserved, and the termination measure decreases on every non-terminal step. |
| TreeOfThought.Run | src/tot/langgraph_tot.py:150-163 | The run is a finite trace starting at the given configuration. Consecutive entries are related by one graph transition, only the last entry is terminal, and every entry satisfies the invariant (retries ≤ 3, selection only after the gate passed). |
| TreeOfThought.RunToT | src/tot/langgraph_tot.py:179-186 | Streaming the graph starts at the generate node with `{problem, retries: 0}`, follows one graph transition per entry, and always reaches END or an exception. |
| TreeOfThought.GenerationsBounded | src/tot/langgraph_tot.py:127-135 | From any reachable configuration, at most `3 - retries` more generate steps occur. |
| TreeOfThought.AtMostThreeGenerations | src/tot/langgraph_tot.py:179-182 | A run starting at retries = 0 performs at most three generate steps. |
| TreeOfThought.RetriesMonotone | src/tot/langgraph_tot.py:62-65 | Along a run, the retry counter never decreases and never exceeds 3. |
| TreeOfThought.FinishedResult | src/tot/langgraph_tot.py:95-135 | A run that reaches END exposes the first best-scoring record of its last batch. That record scores ≥ 7, or all three attempts were used. |
| TreeOfThought.ReliableRunFinishes | src/tot/langgraph_tot.py:150-163 | From any reachable configuration that has not raised, if every remaining generation call returns a non-empty list whose every thought gets a scored reply, the run ends at END rather than in an exception. |
| TreeOfThought.ReliableBackendFinishes | src/tot/langgraph_tot.py:179-186 | For any backend whose first three generation calls each return a non-empty, fully scored batch, `run_tot` reaches END: the only ways a run raises are a failed call, an unscored reply or an empty batch. |
| TreeOfThought.CeilingIsReached | src/tot/langgraph_tot.py:127-135 | If every batch scores 2, the run makes exactly three generation attempts and ends normally by selecting from the third batch. The ceiling is an exit, not an error. |
| Orchestrator.GenerateThoughts | src/tot/tot_orchestrator.py:33-49 | The batch is exactly the backend's list when the call succeeds, never a partial one. A failed call gives the empty batch. |
| Orchestrator.EvaluateThought | src/tot/tot_orchestrator.py:66-81 | A failed scoring call never propagates. It becomes a reply with score 0 and reason "评估失败: " followed by the error text. |
| Orchestrator.MakeRecord | src/tot/tot_orchestrator.py:107-111 | The stored record carries its thought, the reply's score or 0 when missing, and the reply's reason or "N/A" when missing. |
| Orchestrator.EvaluateRecord | src/tot/tot_orchestrator.py:104-111 | A thought's record is tagged with that thought. A failed call gives score 0 with the failure reason. A successful reply gives its score, or 0 when missing, and its reason, or "N/A" when missing. A non-zero score can only come from a successful reply that carries that score. |
| Orchestrator.EvaluateAll | src/tot/tot_orchestrator.py:99-111 | The evaluation loop yields one record per thought, in the same order. |
| Orchestrator.EvaluateAllShape | src/tot/tot_orchestrator.py:104-111 | The records have the batch's length and order. Each record carries its own thought, and a failed call lowers only that thought's record to 0. |
| Orchestrator.RunOrchestrator | src/tot/tot_orchestrator.py:84-133 | The result is `None` exactly when generation failed or produced no thoughts, and a failed generation always gives `None`. Otherwise the result is the first best-scoring record of the single batch, and it carries one of the generated thoughts. |
| Orchestrator.SingleGeneration | src/tot/tot_orchestrator.py:91-96 | There is exactly one generation attempt and no retry: two backends that agree on the first attempt for `(problem, k)` and on scoring give the same result, however their later attempts differ. |
| Planner.Find | src/agent/planner_agent.py:42 | `find('{')` is -1 exactly when there is no '{'. Otherwise it is a position holding '{' with no '{' before it. |
| Planner.RFind | src/agent/planner_agent.py:43 | `rfind('}')` is -1 exactly when there is no '}'. Otherwise it is a position holding '}' with no '}' after it. |
| Planner.ExtractJson | src/agent/planner_agent.py:42-50 | Extraction fails exactly when the text lacks '{' or lacks '}'. A non-empty extracted slice has at least two characters, starts with '{' and ends with '}'. |
| Planner.ExtractJsonSplits | src/agent/planner_agent.py:42-50 | A non-empty extracted slice splits the reply into a prefix without '{', the slice, and a suffix without '}'. |
| Planner.ExtractJsonUnique | src/agent/planner_agent.py:42-50 | Conversely, any split of the reply into a prefix without '{', a payload opening with '{' and closing with '}', and a suffix without '}' is exactly what extraction returns. |
| Planner.ExtractJsonEmptySlice | src/agent/planner_agent.py:50 | When the last '}' comes before the first '{', the inclusive slice is empty, as Python slicing gives. |
| Planner.GeneratePlan | src/agent/planner_agent.py:23-60 | A failed call, a missing brace, an empty slice (last '}' before the first '{') or a failed parse gives `{}`, never an exception. A successful parse of a non-empty slice is the result, and a non-empty result is always such a parse. |
| Planner.PlannerNode | src/agent/planner_agent.py:70-81 | The planner sets the step to 1 and the plan to the dictionary's "plan" list, or [] when that key is absent. |
| Planner.ExecutorNode | src/agent/planner_agent.py:84-106 | With an empty plan or step > len(plan), the executor reports "执行错误" and leaves the step unchanged. With 1 ≤ step ≤ len(plan), it completes `plan[step-1]` and adds exactly 1 to the step. With 1 - len(plan) ≤ step ≤ 0, Python's negative index makes it complete `plan[len(plan) + step - 1]` and add 1. It raises only for steps below `1 - len(plan)`. |
| Planner.ShouldContinue | src/agent/planner_agent.py:109-122 | The router ends exactly when step > len(plan). |
| Planner.ExecutorAndRouterAgree | src/agent/planner_agent.py:93-122 | From a positive step, the executor never raises. If it reports an error, the router then ends. When the router continues, the executor advances the step by 1. |
| Planner.ExecuteFrom | src/agent/planner_agent.py:138-147 | From step s ≤ len(plan), the loop completes entries s…len(plan) once each, in order, and ends at step len(plan)+1. From a step past the end, it runs the executor once, reports the error and ends. |
| Planner.RunPlannerAgent | src/agent/planner_agent.py:155-169 | After planning, every plan entry is executed exactly once, in order, and the run ends. With an empty plan, the executor runs once, reports the error and the run ends. |

## Left out

- The orchestrator's thought count `k` is a parameter of `RunOrchestrator`; its default of 6 in `run_tot_orchestrator` is a caller's choice and is not modelled.
- Planner.GeneratePlan: the empty slice is not passed to the parse oracle. `json.loads` raises on the empty string for every input, so the source's `except` returns `{}`, and the model returns `{}` directly.
- Backend calls (`client.chat.completions.create`), prompts (including the requested count of 6 thoughts), temperatures and `json.loads` are oracles. A backend exception or parse failure is `None` or `Err`.
- The scoring oracle is a function of (problem, thought). Scoring the same thought twice in a run therefore gives the same reply. The source scores at temperature 0 but does not guarantee this.
- LangGraph itself (`StateGraph`, `compile`, `stream`) is replaced by `Step` and `Run`. Its default recursion limit on graph steps is not modelled. A plan long enough to exceed it would make the planner graph raise, and `run_planner_agent` would catch that.
- `run_tot` returns the last streamed node update rather than the full state. The model returns the trace of full configurations instead.
- TreeOfThought.EvaluateBatch: a scoring reply without "score" makes the source raise in `decide_next_step`. In the model the run raises at the end of the evaluate step. No state change separates the two, so the run's outcome is the same. Keys of the reply other than score and reason are not kept.
- JSON values of unexpected types are not modelled: scores are integers, `thoughts` and `plan` are lists of strings, and replies are objects. In the orchestrator, a non-object scoring reply would raise outside any `try` at `evaluation.get`.
- A parsed plan dictionary is modelled by its "plan" key alone, since nothing else is read. The planner graph's initial state fills the fields Python leaves unset with [], 0 and "". No node reads them before the planner sets them.
- `print` output, `time.sleep`, environment and credential setup are not modelled.
- src/tools/tools.py (search, retrieval and image-analysis wrappers, and the regex/float calculator), src/agent/multi_modal_agent.py, main.py and the `__init__.py` re-exports are not part of this model.
