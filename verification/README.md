# Proposal evaluator: fan-out construction model

A Dafny model of the deterministic core of the proposal evaluator's `main()`
(`src/proposal_evaluator_flow/main.py`). The model runs from the moment the
dispatcher's raw reply is available up to the final report. It covers:

- **Fail-soft decode** (lines 76-83). The dispatcher's reply is decoded into
  an ordered category -> items mapping. A reply that `json.loads` rejects
  leaves the mapping empty. Every other failure in that block propagates.
- **Construction loop** (lines 91-115). For each category, in key order, the
  loop builds one specialist agent. It then builds one evaluation task per
  item of that category, bound to that specialist.
- **Empty-work branch** (lines 118, 147-148). Without tasks the run ends with
  the "nothing to evaluate" message and no model is consulted.
- **Reduction input** (line 128). The values obtained by iterating what
  `kickoff_async()` returns are joined with a blank line and handed to the
  reporter's single task. The model assumes these are one result per task,
  in submission order (see "## Left out").
- **Placeholder retrieval** (`get_context_for_topic`, lines 25-27). This is a
  pure string function.

Modules:

| module | what it holds |
|---|---|
| `Fallible` | `Option`, `Result` (a `Failure` is an uncaught Python exception), and `AllOk`, which runs steps in order and stops at the first failure |
| `Text` | `OccursAt`/`Embeds`, Python's `sep.join`, and the layout of a join |
| `Seqs` | blocks laid end to end (`Flat`) and positions in the result |
| `Json` | decoded JSON values and the Python operations applied to them: `len`, `for x in v`, `d[key]`, `str()` |
| `Context` | `get_context_for_topic` |
| `CrewTypes` | agents, tasks and crews as plain records; the specialist and reporter templates |
| `Dispatch` | the decode of lines 76-83 and the errors the step can raise |
| `Construction` | the loop of lines 91-115, both as functions and as the loops written in the source (`AppendTasks`, `BuildCrew`) |
| `Pipeline` | lines 76-148 end to end, with the language model as a parameter |
| `Scenarios` | the run intended for the source's own five items, and the runs with no work or with an unusable reply |

Python behaviour is modelled where it decides the outcome:

- `.items()` on a decoded value that is not a dict raises `AttributeError`.
- `len(items)` on a number, boolean or `null` raises `TypeError`. It sits
  inside the `try` at line 80 but is not caught.
- `for item in items` walks the elements of a list, the characters of a
  string, or the keys of a dict.
- `item['topic']` is read before `item['criteria']`. On a non-dict it raises
  `TypeError`; on a missing key it raises `KeyError`.

Where the code could have been read more generously, the model follows it as
written:

- **Only a decode error is recovered.** The `except` at line 81 names
  `json.JSONDecodeError` alone. Valid JSON that is not an object raises
  `AttributeError` at line 79, and a value without a length raises
  `TypeError` at line 80. Neither is caught (`Dispatch.Decode`,
  `Scenarios.ArrayReplyRaises`).
- **The early exit tests the task list.** Line 118 tests
  `evaluation_tasks`, not the mapping. A mapping whose item lists are all
  empty builds one specialist per key and then ends with the message of
  line 148 (`Pipeline.EmptyGroupsMeanNoWork`).
- **The grouping is not checked.** Nothing in the code compares the
  dispatcher's groups with the item list of lines 33-39. The model states no
  relation between them.
- **Malformed items raise.** An item missing `topic` or `criteria` raises
  `KeyError` at line 109 or 111, and an item that is not a dict raises
  `TypeError` (`Construction.TaskFor`, `Scenarios.MissingCriteriaRaises`).

## Model

| member | source | states |
|---|---|---|
| Context.ForTopicLayout | src/proposal_evaluator_flow/main.py:25-27 | `ForTopic`, the model of `get_context_for_topic`: the retrieved context quotes the document name right after the opening quote and the topic right after the document name, around a fixed text of 28 characters |
| Context.ForTopicDeterminesTopic | src/proposal_evaluator_flow/main.py:25-27 | for one document, two topics give the same context exactly when they are the same topic |
| Context.ForTopicDeterminesFile | src/proposal_evaluator_flow/main.py:25-27 | for one topic, two documents give the same context exactly when they are the same document |
| Json.IterateStringRoundTrip | src/proposal_evaluator_flow/main.py:108 | `Iterate`, the model of `for item in items`: over a string it visits one-character strings that, joined back together, give the string |
| Json.IterateDictVisitsKeys | src/proposal_evaluator_flow/main.py:108 | `Iterate` over a dict visits exactly its keys: each value visited is a key `d[key]` finds, and each key `d[key]` finds is visited |
| Json.GetSpec | src/proposal_evaluator_flow/main.py:109-111 | `Get`, the model of `item['topic']` and `item['criteria']`: it finds nothing exactly when no entry carries the key; otherwise it returns the value stored under the key |
| Dispatch.GroupsOf | src/proposal_evaluator_flow/main.py:79-80 | the decoded dict's entries become groups, in order, each holding what iterating its value visits; the first value without a length raises `TypeError` with that category |
| Dispatch.Decode | src/proposal_evaluator_flow/main.py:76-83 | a rejected reply gives the empty mapping; the decode raises exactly when the reply is valid JSON that is not an object or holds an unsized value; a non-object raises `AttributeError`; an object is handed whole to the per-key grouping, so an unsized value raises `TypeError` naming its first such key; on success there is one group per key, in key order |
| Dispatch.DecodeKeepsKeysDistinct | src/proposal_evaluator_flow/main.py:77-79 | a dict's distinct keys give groups with distinct categories |
| CrewTypes.WellBoundExtend | src/proposal_evaluator_flow/main.py:105-115 | appending a specialist together with tasks bound to its position keeps every task bound to an agent of the crew |
| CrewTypes.SpecialistNamesCategory | src/proposal_evaluator_flow/main.py:98-104 | `Specialist`, the agent of lines 98-104: its role quotes its category right after the opening quote, and its goal and backstory both contain the category |
| CrewTypes.SpecialistInjective | src/proposal_evaluator_flow/main.py:98-104 | two specialists are equal exactly when their categories are, so a specialist identifies its category |
| CrewTypes.ReportingTaskCarriesReports | src/proposal_evaluator_flow/main.py:137-141 | `ReportingTask`, the task of lines 137-141: its description contains the joined reports verbatim, right after the fixed header |
| CrewTypes.ReportingCrew | src/proposal_evaluator_flow/main.py:137-142 | the reporting crew has exactly one task, bound to one of its own agents |
| Construction.EvaluationTaskLayout | src/proposal_evaluator_flow/main.py:110-114 | `EvaluationTask`, the task of lines 110-114: its description quotes the category right after the opening quote and contains the topic, the criteria and the context; the expected output quotes the topic first |
| Construction.TaskFor | src/proposal_evaluator_flow/main.py:108-115 | an item yields a task exactly when it is a dict with `topic` and `criteria`; a non-dict raises `TypeError`; a missing `topic` raises `KeyError('topic')` before `criteria` is read; the task is bound to the given agent |
| Construction.TaskDescribesItem | src/proposal_evaluator_flow/main.py:109-114 | a usable item's task names the category, the topic and the criteria, each rendered by `Str` as the f-string's `str()` does (a string is itself), and the context retrieved for that topic in the fixed document |
| Construction.Block | src/proposal_evaluator_flow/main.py:108-115 | a category's items yield tasks exactly when every item is usable: one task per item, all bound to that category's specialist |
| Construction.BlockTaskAt | src/proposal_evaluator_flow/main.py:108-115 | task `j` of a category's block is the task built from item `j` |
| Construction.BlockOfTasks | src/proposal_evaluator_flow/main.py:108-115 | when every item turns into the corresponding task of a list, in order, the block is exactly that list |
| Construction.BlockFailsAt | src/proposal_evaluator_flow/main.py:108-115 | a block raises the error of its first unusable item |
| Construction.Build | src/proposal_evaluator_flow/main.py:91-115 | construction succeeds exactly when every item of every group is usable; it then builds one specialist per key, in key order, and as many tasks as there are items in total, each bound to an agent of the crew |
| Construction.BuildFailureExtends | src/proposal_evaluator_flow/main.py:95-115 | once the walk over a prefix of the groups raises, the whole walk raises that same error |
| Construction.BuildLast | src/proposal_evaluator_flow/main.py:95-115 | a successful walk's tasks are the tasks of all but the last group, followed by the last group's block |
| Construction.BuildIsFlat | src/proposal_evaluator_flow/main.py:91-115 | a successful walk's task list is the per-category blocks concatenated in key order |
| Construction.PrefixBuilds | src/proposal_evaluator_flow/main.py:95-115 | a walk that succeeds also succeeds on every prefix of the groups |
| Construction.OffsetIsFlatOffset | src/proposal_evaluator_flow/main.py:95-115 | in a successful walk, group `i`'s block begins after all items of the earlier groups |
| Construction.BlockOfGroup | src/proposal_evaluator_flow/main.py:108-115 | in a successful walk, block `i` is group `i`'s tasks, one per item |
| Construction.OffsetMonotone | src/proposal_evaluator_flow/main.py:95-115 | all of a group's task positions come before those of any later group |
| Construction.TaskAt | src/proposal_evaluator_flow/main.py:108-115 | item `j` of group `i` becomes the task at position `Offset(i) + j`, so no item is skipped |
| Construction.TaskOrigin | src/proposal_evaluator_flow/main.py:95-115 | every task position is `Offset(i) + j` for some item `j` of some group `i`, so no task is invented |
| Construction.TaskBoundToOwnSpecialist | src/proposal_evaluator_flow/main.py:98-113 | the task built from item `j` of category `i` is bound to the specialist built for that same category, never another's, and its description names that category |
| Construction.TasksInOrder | src/proposal_evaluator_flow/main.py:95-115 | tasks are ordered by category iteration order, then by item order within a category |
| Construction.OneSpecialistPerCategory | src/proposal_evaluator_flow/main.py:95-105 | with distinct keys, no two specialists of the crew are equal: exactly one per key |
| Construction.AppendTasks | src/proposal_evaluator_flow/main.py:108-115 | the inner loop as written appends exactly the category's block to the task list, or raises the block's error |
| Construction.BuildCrew | src/proposal_evaluator_flow/main.py:91-115 | the outer loop as written builds exactly the crew `Build` describes, and raises exactly when and what `Build` raises |
| Text.JoinLayout | src/proposal_evaluator_flow/main.py:128 | `Join`, the model of `sep.join`: in a join of `n` results, result `i` sits at its computed offset; a separator follows every result except the last, and nothing follows the last; no results give the empty string |
| Text.JoinLength | src/proposal_evaluator_flow/main.py:128 | a join's length is the results' total length plus `n - 1` separators |
| Fallible.AllOk | src/proposal_evaluator_flow/main.py:108-115 | steps run in order succeed exactly when every step succeeds, giving every value in order; otherwise they raise the error of the first failing step |
| Fallible.AllOkFailsAt | src/proposal_evaluator_flow/main.py:108-115 | if every step before `j` succeeds and step `j` fails, the combined result is step `j`'s error |
| Seqs.FlatAt | src/proposal_evaluator_flow/main.py:115 | element `j` of block `i` sits in the concatenation right after the earlier blocks' elements |
| Seqs.FlatOrigin | src/proposal_evaluator_flow/main.py:115 | every position of the concatenation holds element `j` of some block `i` |
| Pipeline.Results | src/proposal_evaluator_flow/main.py:124 | the batch gives one result per task |
| Pipeline.AnyAnswersPossible | src/proposal_evaluator_flow/main.py:124 | the backend constrains nothing beyond the agent and the task: any answers, one per task, are the results of some backend |
| Pipeline.Report | src/proposal_evaluator_flow/main.py:128-143 | the reporter's input places result `i` at its computed offset, with a blank line after every result but the last (`n` results, `n - 1` separators) and nothing after the last; the reporter's task carries that text verbatim after its header; the final report is the reporter's answer to that task |
| Pipeline.Run | src/proposal_evaluator_flow/main.py:76-148 | a rejected reply ends in "no work"; the run raises exactly when decoding or construction raises, and then with that same error, the decode's first, unchanged; it ends in "no work" exactly when both succeed with zero items |
| Pipeline.NoWorkIgnoresBackend | src/proposal_evaluator_flow/main.py:118-148 | a "no work" run consults no model: its outcome is the same for every backend |
| Pipeline.EmptyGroupsMeanNoWork | src/proposal_evaluator_flow/main.py:95-118 | if every category's list is empty, the run ends in "no work" even though one specialist per key was built |
| Pipeline.NoItemsNoTasks | src/proposal_evaluator_flow/main.py:108-118 | groups with no items give a total item count of zero |
| Pipeline.ReporterInput | src/proposal_evaluator_flow/main.py:118-143 | when decoding and construction succeed with at least one item, the run reports; there is one result per item; the reporter's input is their join; the final report is the reporter's answer to its task built from that input |
| Pipeline.ResultFromOwnSpecialist | src/proposal_evaluator_flow/main.py:113-128 | the result the reporter sees for item `j` of category `i` was produced by that category's specialist, working on the task built from that item |
| Scenarios.ItemIsUsable | src/proposal_evaluator_flow/main.py:33-39 | an item shaped like the source's items can be turned into a task |
| Scenarios.GroupedReplyDecodes | src/proposal_evaluator_flow/main.py:76-80 | the intended grouping of the five items decodes to three groups in reply order |
| Scenarios.GroupedReplyItems | src/proposal_evaluator_flow/main.py:33-39 | those groups hold five usable items |
| Scenarios.GroupedReplyIsEvaluated | src/proposal_evaluator_flow/main.py:91-128 | that reply yields three specialists and five tasks, and the run reports |
| Scenarios.EmptyReplyIsNoWork | src/proposal_evaluator_flow/main.py:147-148 | an empty reply object builds no agents and no tasks, and the run ends in "no work" |
| Scenarios.ArrayReplyRaises | src/proposal_evaluator_flow/main.py:76-83 | a reply that is a valid JSON array is not recovered: the run raises `AttributeError` |
| Scenarios.MissingCriteriaRaises | src/proposal_evaluator_flow/main.py:108-111 | an item without `criteria` is not recovered: the run raises `KeyError('criteria')` |

## Left out

- Every language-model and agent-framework call:
  - the `LLM` binding at lines 18-21;
  - the dispatcher crew, its prompt, and the `json.dumps` of the item list at lines 44-74;
  - `kickoff` and `kickoff_async`.
  The dispatcher's raw reply is an input. All later model calls are one function parameter, `Backend`. It is given the call's position, so answers need not repeat, and any answers at all are possible (`Pipeline.AnyAnswersPossible`).
- What `kickoff_async()` returns (line 124). The model assumes that iterating it at line 128 gives one result per task, in submission order, each produced by the task's own agent. The source does not establish this. Lines 77 and 146 treat a kickoff result as a single output with a `.raw` field, so line 128 may join something other than per-task results. The concurrency of the call is not modelled either.
- Whether an answer depends on earlier tasks' answers. The framework may pass earlier outputs to later tasks; the model names no such dependence, and the backend may still depend on the position in any way.
- Exceptions raised inside the framework or by the model are not modelled.
- `json.loads` itself. It is a parameter that returns `None` for a `JSONDecodeError`.
- A JSON text with a repeated key. `json.loads` keeps the last value for it, and the model does not re-derive this. Distinct keys are assumed only where the one-agent-per-key property needs them.
- `str()` of a value that is not a string, in the f-strings of lines 109-112 and at line 128:
  - non-string item fields go through a `show` parameter;
  - the batch results are taken to be their string form already.
- JSON floating-point numbers. A number is an integer in the model. This makes no difference to the behaviour modelled: a number has no length, and its text goes through `show`.
- The `print` calls and the logging line inside `get_context_for_topic`. These are output only. The message of line 148 is the outcome `NothingToEvaluate`.
- `load_dotenv`, `asyncio.run` and the `__main__` guard. These are bootstrapping.
- Pipeline.Results: states only the number of results. What each result is follows from the assumption about `kickoff_async()` above, and `Pipeline.ResultFromOwnSpecialist` states it.
- Any claim that the dispatcher's grouping partitions the input items. The code never checks it.
