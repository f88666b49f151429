# Knowledge loop of a browser-automation agent, in Dafny

This project models the bookkeeping around a browser agent that retries a
task and learns from each attempt. The LLM calls, the browser and the
vector database stay outside the model. The modelled loop works like this:

- **Evaluator-response parser.** It reads an evaluator's free-text answer
  and extracts three parts:
  - a fenced JSON navigation graph;
  - a `<verdict>` section, from which the status is derived
    (SUCCESS, FAILURE, IMPOSSIBLE or UNKNOWN);
  - a `<guide>` section.
- **Navigation-graph store.** A directory of `<domain key>_graph.json`
  files. It maps a URL to its domain key, finds a domain's graph file by
  direct or flexible name matching, applies an age cutoff, renders a
  prompt context and saves a graph by overwriting the file.
- **Plan store.** An append-only collection of successful plans, each
  embedded by its title. It supports bulk insert, top-k lookup, a
  numbered context, statistics, a listing, delete-by-title and clear-all.
- **History parser.** It turns an agent history into one message per
  step (step number, truncated URL, one phrase per action) and saves the
  screenshots.
- **Guide generator.** It classifies the task by keywords, formats the
  previous guide and gathers the plan and graph contexts into the LLM
  prompt. When the LLM call fails, it falls back to a template guide.
- **Task evaluator.** It runs at most `max_attempts` attempts. Each
  attempt executes the task, evaluates it, writes the attempt's graph
  file and records the result. The guide of the last FAILURE is carried
  into the next attempt's context. The loop stops on SUCCESS or
  IMPOSSIBLE, and otherwise ends with FAILURE_AFTER_MAX_ATTEMPTS.

Modules, one per file:
- `Text` (text.dfy): the string toolkit — strip, find, split/join, ASCII
  case mapping and decimal rendering;
- `ResponseParser` (response_parser.dfy);
- `NavigationGraphs` (navigation_graphs.dfy);
- `PlanStore` (plan_store.dfy);
- `HistoryParser` (history_parser.dfy);
- `GuideGenerator` (guide_generator.dfy);
- `TaskEvaluator` (task_evaluator.dfy).

Effects outside the program are parameters:
- JSON decoding is a partial function `string -> Result<G, string>`;
- the embedding model is a function;
- the vector index's answer to a query is a value;
- the LLM is a function that may fail (`string -> Option<string>`);
- an attempt's execution and evaluation is a scripted outcome per
  attempt and context;
- file writes are success flags, or for a graph file how far the write
  gets;
- a database call or a file read that can raise is a success flag, and
  a failure gives the value the source's `except` returns;
- the clock and Python's `hash` are values.

State that the source mutates is modelled as classes:
- the graph directory is a map of files plus a listing order;
- the plan collection is a sequence of records.

Each class method is proved against a specification function. The
properties of those functions are proved as lemmas.

## Model

| member | source | states |
|---|---|---|
| ResponseParser.Parse | knowledge_management/utils/llm_response_parser.py:25-53 | Missing graph section ⇔ NoGraphFound; undecodable graph ⇔ InvalidGraphJson; missing verdict after a good graph ⇔ NoVerdictFound; on success the graph is the decoded fence text, verdict and guide are the stripped sections, status comes from the verdict, raw text is the input unchanged |
| ResponseParser.ExtractGuide | knowledge_management/utils/llm_response_parser.py:88-94 | A response without a `<guide>…</guide>` section yields the empty guide, not an error |
| ResponseParser.SectionTrimmed | knowledge_management/utils/llm_response_parser.py:22-23 | An extracted section never starts or ends with whitespace |
| ResponseParser.SectionOf | knowledge_management/utils/llm_response_parser.py:69-73 | The text between the first opening tag and the next closing tag is extracted, stripped |
| ResponseParser.DetermineStatus | knowledge_management/utils/llm_response_parser.py:75-86 | The status derived from the verdict; stated by StatusPriority, StatusIgnoresCase and UnsuccessfulIsSuccess |
| ResponseParser.StatusIgnoresCase | knowledge_management/utils/llm_response_parser.py:75-86 | The status does not depend on the verdict's letter case |
| ResponseParser.StatusPriority | knowledge_management/utils/llm_response_parser.py:75-86 | SUCCESS iff the verdict mentions success; FAILURE iff failure but not success; IMPOSSIBLE iff impossible but neither; UNKNOWN iff none of the three |
| ResponseParser.UnsuccessfulIsSuccess | knowledge_management/utils/llm_response_parser.py:77-80 | A verdict containing "unsuccessful" is classified SUCCESS |
| ResponseParser.ParseRender | knowledge_management/utils/llm_response_parser.py:25-53 | Round trip: a rendered completion parses back to its graph, verdict, the verdict's status, guide and its own text |
| ResponseParser.NoFenceNoGraph | knowledge_management/utils/llm_response_parser.py:36-39 | A response without a JSON fence is rejected for the missing graph before the verdict is looked at |
| NavigationGraphs.DomainKey | knowledge_management/utils/navigation_graph_manager.py:38-86 | The file key of a URL's host: lower-cased, without "www.", the last label dropped, a one-label host kept; stated by KeyIgnoresCase, WwwIgnored, KeyDropsLastLabel, SingleLabelKey and KeyHasNoDot |
| NavigationGraphs.KeyHasNoDot | knowledge_management/utils/navigation_graph_manager.py:57-66 | A domain key never contains "." |
| NavigationGraphs.KeyDropsLastLabel | knowledge_management/utils/navigation_graph_manager.py:50-64 | For a host of two or more labels, in any case, the key is its lower-cased labels without the last, joined with "_"; a lower-case host keeps its labels verbatim |
| NavigationGraphs.SingleLabelKey | knowledge_management/utils/navigation_graph_manager.py:50-66 | A host without a dot is its own key, lower-cased |
| NavigationGraphs.KeyIgnoresCase | knowledge_management/utils/navigation_graph_manager.py:49-50 | Two URLs that differ only in letter case, scheme and host included, have the same key |
| NavigationGraphs.WwwIgnored | knowledge_management/utils/navigation_graph_manager.py:48-54 | A leading "www." in the URL's host does not change the domain key |
| NavigationGraphs.FirstCandidate | knowledge_management/utils/navigation_graph_manager.py:103-130 | Returns the first listed name matching the key in the given pass, or none when no name does |
| NavigationGraphs.FindGraphFileChoice | knowledge_management/utils/navigation_graph_manager.py:88-134 | The found file is a listed graph file; a direct match is preferred over a first-segment match; nothing is found iff neither pass matches |
| NavigationGraphs.SavedIsFound | knowledge_management/utils/navigation_graph_manager.py:236 | Once the file for a URL is listed, looking that URL up finds a file |
| NavigationGraphs.TruncatedShape | knowledge_management/utils/navigation_graph_manager.py:211-213 | A graph over 10000 characters is cut to its first 10000 plus the marker; a shorter one is kept whole |
| NavigationGraphs.TruncatedContents | knowledge_management/utils/navigation_graph_manager.py:207-216 | One cut content per graph, in order |
| NavigationGraphs.NavigationContext | knowledge_management/utils/navigation_graph_manager.py:186-218 | The header and the first `max_graphs` graphs, cut; stated by NavigationContextShape |
| NavigationGraphs.NavigationContextShape | knowledge_management/utils/navigation_graph_manager.py:197-218 | For a non-empty list the context starts with the header, holds at most `max_graphs` graphs (Python slice semantics for negatives) and shows each selected graph's cut content |
| NavigationGraphs.BuildNavigationContext | knowledge_management/utils/navigation_graph_manager.py:186-218 | The loop builds exactly the specified context |
| NavigationGraphs.GraphsFor | knowledge_management/utils/navigation_graph_manager.py:136-184 | The website's graph if its file is found, can be read and is recent enough; nothing when the stat or read of the found file fails; stated by GraphsForShape |
| NavigationGraphs.GraphsForShape | knowledge_management/utils/navigation_graph_manager.py:136-184 | At most one graph; one iff the looked-up file exists, its stat and read succeed and it is not older than the cutoff; a failed read gives none; the graph carries that file's content and the URL |
| NavigationGraphs.GraphDirectory.constructor | knowledge_management/utils/navigation_graph_manager.py:23-36 | The manager attaches to the directory as found: the graphs stored by earlier runs, in their listing order |
| NavigationGraphs.GraphDirectory.FindGraphFileByDomain | knowledge_management/utils/navigation_graph_manager.py:88-134 | The two loops with early return give the specified lookup on the current listing |
| NavigationGraphs.GraphDirectory.FindNavigationGraphsForWebsite | knowledge_management/utils/navigation_graph_manager.py:136-184 | Returns the specified graphs for the current directory contents |
| NavigationGraphs.GraphDirectory.SaveNavigationGraph | knowledge_management/utils/navigation_graph_manager.py:220-248 | True iff the whole graph is written, and then the domain's file holds exactly it, with no merge; a file that cannot be opened changes nothing; a serialization that raises leaves the file created or truncated, holding what was written, and still listed; the listing gains the name at its end iff the file is new, and is otherwise unchanged |
| PlanStore.CreatePlanDocument | knowledge_management/utils/plan_rag_manager.py:58-78 | The document carries its four fields and embeds the title alone |
| PlanStore.StoredShape | knowledge_management/utils/plan_rag_manager.py:99-124 | One record per successful insert, each with the call's task id and date, its own title and body, and the embedding of its title |
| PlanStore.StoredHasEntry | knowledge_management/utils/plan_rag_manager.py:99-124 | Every successfully inserted plan is in the store |
| PlanStore.PlanCollection.constructor | knowledge_management/utils/plan_rag_manager.py:42-56 | The manager opens the persistent collection with the records stored by earlier runs |
| PlanStore.PlanCollection.StoreSuccessfulPlan | knowledge_management/utils/plan_rag_manager.py:80-142 | Appends exactly the stored records; returns true iff the dict is empty or at least one insert succeeded |
| PlanStore.SimilarPlans | knowledge_management/utils/plan_rag_manager.py:145-184 | The plans of the index's hits, at most `top_k`; stated by SimilarPlansShape |
| PlanStore.SimilarPlansShape | knowledge_management/utils/plan_rag_manager.py:145-184 | At most top-k plans, each a stored record paired with its own distance in query order; a failed query gives none; a successful query gives one plan per returned hit, that is min(hits, top-k) |
| PlanStore.HitsToPlans | knowledge_management/utils/plan_rag_manager.py:168-177 | The k-th plan is the k-th hit's metadata with its distance as similarity score |
| PlanStore.GuideLines | knowledge_management/utils/plan_rag_manager.py:204-210 | Four lines per plan |
| PlanStore.GuideLinesAt | knowledge_management/utils/plan_rag_manager.py:204-210 | Plan k has its heading numbered from the first index, then its body verbatim, each followed by an empty line |
| PlanStore.BuildContextFromSimilarPlans | knowledge_management/utils/plan_rag_manager.py:186-216 | "" for no plans, else the numbered context; stated by ContextShape |
| PlanStore.ContextShape | knowledge_management/utils/plan_rag_manager.py:186-216 | The context opens with the intro, numbers guides from 1 in input order, shows every plan body and ends with the closing sentence |
| PlanStore.StatisticsBound | knowledge_management/utils/plan_rag_manager.py:218-244 | The total is the record count, and there are never more distinct titles than plans |
| PlanStore.PlanCollection.GetPlansStatistics | knowledge_management/utils/plan_rag_manager.py:218-244 | When the database answers: the record count and the stored titles; when it raises: zero plans and no titles; never more distinct titles than plans |
| PlanStore.TitlesAreStored | knowledge_management/utils/plan_rag_manager.py:226-233 | The title set is exactly the set of stored titles |
| PlanStore.PreviewShape | knowledge_management/utils/plan_rag_manager.py:304 | The preview of a non-empty plan is its first 100 characters followed by "...", so min(length, 100) + 3 long; it is "No plan" iff the plan is empty |
| PlanStore.Listings | knowledge_management/utils/plan_rag_manager.py:286-309 | One listing per record, with that record's title, id, date and preview |
| PlanStore.PlanCollection.ListAllPlans | knowledge_management/utils/plan_rag_manager.py:286-309 | When the database answers: one listing per record, in order, with its title and preview; when it raises: an empty list |
| PlanStore.PlanCollection.ClearAllPlans | knowledge_management/utils/plan_rag_manager.py:246-265 | On success no record remains; on failure nothing changes |
| PlanStore.PlanCollection.DeletePlansByTaskTitle | knowledge_management/utils/plan_rag_manager.py:267-284 | On success exactly the records with that title are removed |
| PlanStore.RemoveTitleMembers | knowledge_management/utils/plan_rag_manager.py:279 | What remains is exactly the records whose title differs |
| HistoryParser.Messages | knowledge_management/utils/history_parser.py:44-90 | One message per history step |
| HistoryParser.HistoryToMessages | knowledge_management/utils/history_parser.py:29-90 | The loop builds exactly the specified messages, in step order |
| HistoryParser.MessageStarts | knowledge_management/utils/history_parser.py:67 | Step i's message begins "This is step i, " |
| HistoryParser.UrlSentenceShape | knowledge_management/utils/history_parser.py:69-73 | An empty URL adds nothing; a URL of at most 120 characters is shown whole; a longer one is cut to its first 120 characters followed by "...", 123 in all |
| HistoryParser.MessageUrl | knowledge_management/utils/history_parser.py:69-73 | The message opens with the step prefix directly followed by the URL sentence, or has no URL sentence for an empty URL |
| HistoryParser.MessageEnds | knowledge_management/utils/history_parser.py:75-81 | The message ends with its action tail |
| HistoryParser.MessageTail | knowledge_management/utils/history_parser.py:75-81 | No actions: the fixed sentence; one action: its description; more: every numbered action line |
| HistoryParser.StepActionsShown | knowledge_management/utils/history_parser.py:75-81 | With several actions, each action's description appears in its numbered line |
| HistoryParser.StepSingleAction | knowledge_management/utils/history_parser.py:75-76 | A single action's description ends the message |
| HistoryParser.StepNoActions | knowledge_management/utils/history_parser.py:80-81 | An absent or empty action list ends the message with the no-actions sentence |
| HistoryParser.NumberedActionsShow | knowledge_management/utils/history_parser.py:77-79 | Every action appears in its numbered line |
| HistoryParser.StepMessageText | knowledge_management/utils/history_parser.py:52-81 | The per-step loop builds exactly the specified message text |
| HistoryParser.MessageOf | knowledge_management/utils/history_parser.py:67-81 | The string built with `+=` is the specified message text |
| HistoryParser.DescribeActions | knowledge_management/utils/history_parser.py:56-60 | One description per action, in order |
| HistoryParser.NumberActions | knowledge_management/utils/history_parser.py:77-79 | The numbering loop gives the specified numbered lines |
| HistoryParser.Descriptions | knowledge_management/utils/history_parser.py:56-60 | One description per action |
| HistoryParser.DescriptionsAt | knowledge_management/utils/history_parser.py:58-60 | The j-th description is that of the j-th action |
| HistoryParser.UnknownActionNamed | knowledge_management/utils/history_parser.py:142-143 | An unknown action is described by its name |
| HistoryParser.SelectDropdownChoice | knowledge_management/utils/history_parser.py:107-112 | A dropdown choice names its non-empty text, otherwise its index, with "unknown" for a missing index |
| HistoryParser.ScreenshotSteps | knowledge_management/utils/history_parser.py:189-195 | Only step indices within the history are selected |
| HistoryParser.ScreenshotStepsShape | knowledge_management/utils/history_parser.py:189-195 | Exactly the steps with a non-empty screenshot are selected, in increasing order |
| HistoryParser.SavedPathsShape | knowledge_management/utils/history_parser.py:197-208 | A path is returned iff it is the path of a selected step whose save succeeded; no more paths than selected steps |
| HistoryParser.SavedPathsSteps | knowledge_management/utils/history_parser.py:199-206 | The j-th returned path is the path of the j-th selected step whose save succeeded, and that save succeeded |
| HistoryParser.SaveAllScreenshotsOrder | knowledge_management/utils/history_parser.py:175-208 | One path per step that has a screenshot and whose save succeeded, each that step's `step_<i>.png` path, in increasing step order, and none missing |
| HistoryParser.PathJoinShape | knowledge_management/utils/history_parser.py:201-202 | `Path(dir) / name` ends with the name; a directory without components gives its anchor and the name; otherwise a slash precedes the name |
| HistoryParser.NormalDirectoryKept | knowledge_management/utils/history_parser.py:201-202 | A relative or single-slash absolute directory with no empty or "." component is kept as given: the directory, a slash, the name |
| HistoryParser.SaveAllScreenshots | knowledge_management/utils/history_parser.py:175-208 | The two loops return exactly the specified saved paths, whose order and contents SaveAllScreenshotsOrder states |
| HistoryParser.SaveScreenshots | knowledge_management/utils/history_parser.py:197-206 | The saving loop returns, in order, the path of each selected step whose save succeeded |
| GuideGenerator.DetermineTaskType | knowledge_management/utils/guide_generator.py:142-157 | The task type is one of the five group labels or General |
| GuideGenerator.FirstGroup | knowledge_management/utils/guide_generator.py:146-157 | Finds the first keyword group the task mentions, or none |
| GuideGenerator.TaskTypeIsFirstGroup | knowledge_management/utils/guide_generator.py:142-157 | The type is the label of the first mentioned group, else General |
| GuideGenerator.TaskTypePriority | knowledge_management/utils/guide_generator.py:142-157 | Group g's label iff the task mentions group g and no earlier group; General iff it mentions none |
| GuideGenerator.TaskTypeIgnoresCase | knowledge_management/utils/guide_generator.py:144 | The type does not depend on the task's letter case |
| GuideGenerator.LoginIsAuthentication | knowledge_management/utils/guide_generator.py:146-147 | Any task mentioning LOGIN is an Authentication task, whatever else it mentions |
| GuideGenerator.FormatPreviousGuide | knowledge_management/utils/guide_generator.py:132-140 | The placeholder for a missing or empty guide, else the guide between a header and a footer; stated by PreviousGuideRecovered and FormatPreviousGuideInjective |
| GuideGenerator.PreviousGuideRecovered | knowledge_management/utils/guide_generator.py:132-140 | A given guide is shown verbatim between the fixed header and footer |
| GuideGenerator.FormatPreviousGuideInjective | knowledge_management/utils/guide_generator.py:132-140 | Two previous guides format alike iff they have the same text (missing and empty alike) |
| GuideGenerator.BindTopK | knowledge_management/utils/plan_rag_manager.py:145 | Python's argument binding for `(task_title, top_k)`: a binding exists iff one positional is given, or two with no `top_k` keyword |
| GuideGenerator.RagPlansContextAsWritten | knowledge_management/utils/guide_generator.py:105-118 | The lookup as written, with the URL bound positionally; its result is stated by RagAsWrittenAlwaysErrors |
| GuideGenerator.RagPlansContext | knowledge_management/utils/guide_generator.py:105-118 | The lookup as intended, called with the title and `top_k=3`; its result is stated by RagPlansContextShape |
| GuideGenerator.RagAsWrittenAlwaysErrors | knowledge_management/utils/guide_generator.py:105-118 | As written, every non-empty title gives the error text, which differs from the intended result whenever plans are found |
| GuideGenerator.RagPlansContextShape | knowledge_management/utils/guide_generator.py:105-118 | Corrected call: no title gives the no-title text; no plans give the not-found text; found plans (at most 3) give the store's context showing each plan |
| GuideGenerator.ContextIsNotError | knowledge_management/utils/plan_rag_manager.py:196-216 | A context of found plans is never the error text |
| GuideGenerator.NavigationContextFor | knowledge_management/utils/guide_generator.py:120-130 | The graph store's context of the website's recent graphs, or the placeholder; stated by NavigationContextForShape |
| GuideGenerator.NavigationContextForShape | knowledge_management/utils/guide_generator.py:120-130 | No recent graph gives the placeholder; otherwise the context of at most 3 graphs, showing the graph |
| GuideGenerator.FallbackGuide | knowledge_management/utils/guide_generator.py:192-220 | The template guide, lines joined by newlines; stated by FallbackLinesShape and FallbackGuideShape |
| GuideGenerator.FallbackLinesShape | knowledge_management/utils/guide_generator.py:192-220 | 12 lines, or 15 with a previous guide; the task line and five steps in place; an insights section iff a previous guide is given, holding that guide; the note last |
| GuideGenerator.FallbackGuideShape | knowledge_management/utils/guide_generator.py:192-220 | The fallback starts with its title, ends with the note and shows the task line and any previous guide |
| GuideGenerator.UserPrompt | knowledge_management/prompts/guide_generation_prompts.py:57-73 | The prompt shows the task, both contexts, the previous guide and the URL |
| GuideGenerator.GenerateOptimizedGuide | knowledge_management/utils/guide_generator.py:50-103 | The completion of the prompt built from the as-written plan lookup, the navigation context and the formatted previous guide, or the fallback guide when the call raises; stated by GenerateOptimizedGuideOutcome and GuidePromptRag |
| GuideGenerator.GenerateOptimizedGuideOutcome | knowledge_management/utils/guide_generator.py:50-103 | For the prompt as the source builds it: the guide is the completion verbatim, or the fallback when the call fails; the attempt count changes nothing; the prompt shows the task, URL and previous guide |
| GuideGenerator.GuidePromptRag | knowledge_management/utils/guide_generator.py:74-96 | The prompt carries the as-written lookup's text: the no-title text without a title, and "Error retrieving RAG plans." for every titled task, whatever the store holds |
| TaskEvaluator.TaskHash | knowledge_management/main_task_evaluator.py:92 | The task hash is in [0, 9999] and congruent to the hash modulo 10000 (floor modulo) |
| TaskEvaluator.StampFields | knowledge_management/main_task_evaluator.py:91 | The stamp is `%Y%m%d_%H%M%S`: 15 characters, each clock field read back from its place |
| TaskEvaluator.TaskId | knowledge_management/main_task_evaluator.py:89-93 | The task id from the clock and the task's hash; stated by TaskIdShape, StampFields and TaskHash |
| TaskEvaluator.TaskIdShape | knowledge_management/main_task_evaluator.py:89-93 | The id is "task_", the stamp, "_" and the decimal task hash, read back from the tail |
| TaskEvaluator.AttemptGraphFileNameInjective | knowledge_management/main_task_evaluator.py:95-97 | Attempt graph names end in "_graph.json", and two attempts share a name iff they are the same attempt |
| TaskEvaluator.BuildSystemPromptWithGuide | knowledge_management/main_task_evaluator.py:115-122 | The guide between the fixed header and footer; stated by SystemPromptRecovered |
| TaskEvaluator.SystemPromptRecovered | knowledge_management/main_task_evaluator.py:115-122 | The guide sits verbatim between the fixed header and footer |
| TaskEvaluator.MessageContext | knowledge_management/main_task_evaluator.py:220-222 | A context is given iff the carried guide is present and non-empty |
| TaskEvaluator.RunStops | knowledge_management/main_task_evaluator.py:250-266 | Once a final status is set, later iterations change nothing |
| TaskEvaluator.AttemptRecords | knowledge_management/main_task_evaluator.py:236-275 | An attempt appends one or two records numbered with the attempt and keeps earlier ones |
| TaskEvaluator.AttemptTwoRecords | knowledge_management/main_task_evaluator.py:245-275 | Two records iff SUCCESS and then saving the plan raised: the success, then the error, and the loop goes on |
| TaskEvaluator.AttemptNumbered | knowledge_management/main_task_evaluator.py:215 | One attempt keeps the records numbered consecutively up to its own number |
| TaskEvaluator.RunNumbers | knowledge_management/main_task_evaluator.py:215 | Attempts are numbered 1, 2, … in increasing order, never more than the iterations run |
| TaskEvaluator.RunAttemptNumber | knowledge_management/main_task_evaluator.py:215 | Before a stop, iteration n makes exactly attempt n |
| TaskEvaluator.LastFailureGuideAppend | knowledge_management/main_task_evaluator.py:258-260 | The last FAILURE guide changes only with a new FAILURE record |
| TaskEvaluator.CarriedGuide | knowledge_management/main_task_evaluator.py:213-260 | The carried guide is always the guide of the last FAILURE so far (none before one) |
| TaskEvaluator.AttemptGuide | knowledge_management/main_task_evaluator.py:258-275 | One attempt keeps the carried guide equal to the last FAILURE guide |
| TaskEvaluator.ContextsGiven | knowledge_management/main_task_evaluator.py:220-222 | Each attempt's context comes from the guide carried before it; attempt 1 gets none |
| TaskEvaluator.GraphFilesRecorded | knowledge_management/main_task_evaluator.py:231-242 | Every graph file written is recorded, under the attempt's name, by an evaluated attempt |
| TaskEvaluator.AttemptFiles | knowledge_management/main_task_evaluator.py:231-242 | One attempt keeps every written graph file recorded |
| TaskEvaluator.FinalStatusSet | knowledge_management/main_task_evaluator.py:250-266 | A plan is kept iff the status is SUCCESS, and it is that evaluation's guide; IMPOSSIBLE comes from an IMPOSSIBLE evaluation; the last record is the deciding one |
| TaskEvaluator.AttemptFinal | knowledge_management/main_task_evaluator.py:250-266 | One attempt sets the final status only as described for FinalStatusSet |
| TaskEvaluator.TaskResults | knowledge_management/main_task_evaluator.py:205-282 | The results dict after the loop and the default status; stated by ResultsOutcome and RunTaskWithEvaluation |
| TaskEvaluator.ResultsOutcome | knowledge_management/main_task_evaluator.py:277-279 | The final status is one of three; FAILURE_AFTER_MAX_ATTEMPTS means every attempt was made and no plan kept; a plan iff SUCCESS |
| TaskEvaluator.RunAttempts | knowledge_management/main_task_evaluator.py:213-275 | The attempt loop, left at the first final status, ends with the records, final status, plan and graph files of the specified run |
| TaskEvaluator.Iteration | knowledge_management/main_task_evaluator.py:216-275 | One iteration (context from the carried guide, execution, recording) advances the specified run by exactly one attempt |
| TaskEvaluator.AttemptBody | knowledge_management/main_task_evaluator.py:218-275 | A raised attempt, a failed graph write and an evaluation each update the records, carried guide and graph files as specified |
| TaskEvaluator.RecordEvaluation | knowledge_management/main_task_evaluator.py:237-266 | An evaluated attempt appends its record and then applies the SUCCESS, FAILURE or IMPOSSIBLE branch |
| TaskEvaluator.RunOutcome | knowledge_management/main_task_evaluator.py:215-279 | Without a final status all n iterations ran, one context each, and no plan is kept; never more than n iterations; a plan iff SUCCESS; the loop never sets FAILURE_AFTER_MAX_ATTEMPTS |
| TaskEvaluator.RunTaskWithEvaluation | knowledge_management/main_task_evaluator.py:191-282 | The loop with `break` gives exactly the specified results and graph files |

## Left out

- Browser, agent and LLM calls are not modelled. Each attempt's
  execution and evaluation is a scripted outcome per attempt number and
  context. The guide LLM is a function that may fail. The system prompt
  and the evaluator prompt texts are not modelled.
- The evaluator's conversion of a history into LLM messages is not
  modelled. `history_to_llm_messages` is not part of this model. The
  evaluator imports it from history_parser.py, which defines only
  `history_to_messages`, so importing the evaluator as shipped raises an
  ImportError; the model assumes the import succeeds.
- `load_history_from_file` is not modelled, because it is file I/O.
- The base64 decode and file write of `save_screenshot_to_file` are a
  success function of path and data.
- HistoryParser.ScreenshotPath follows the POSIX rules of `Path`: empty
  and "." components are dropped and the anchor is kept. Windows paths
  and ".." components are kept as text, not resolved, as `Path` does.
- The screenshot saving inside the evaluator (`_save_screenshots`) is a
  value in each scripted outcome.
- JSON decoding (RFC 8259) is an abstract partial function. The graph is
  never serialized.
- ChromaDB and the sentence embedder are replaced by in-memory records:
  - the embedding is a function;
  - the index's answer (record index and distance per hit, nearest
    first) is a given value;
  - distances and ordering are not computed.
- The record id includes a timestamp; stamps are given per plan.
- `urlparse` is simplified to the text after the first "://" up to the
  first "/", "?" or "#". A port stays in the host, as in `netloc`
  ("http://localhost:8000/x" gives the key "localhost:8000"). The
  `except` fallback of `_extract_domain` is not modelled. A URL without
  "://" gives an empty host, whose key is empty. Two cases differ from
  `urlparse`: a scheme-relative URL such as "//host/x" has the netloc
  "host" there but an empty host here, and a URL whose scheme is not
  valid, such as "1http://x.com", has an empty netloc there but the host
  "x.com" here.
- `Path` handling and file modification times are a name→file map plus a
  listing order. The time is a parameter.
- NavigationGraphs.GraphDirectory.WriteFile appends a new name at the end
  of the listing. `Path.glob` yields names in the file system's order,
  which is not modelled. The lookup lemmas hold for any listing, so only
  the class fixes this order.
- NavigationGraphs.GraphDirectory.SaveNavigationGraph takes the serialized
  text and how far the write gets as parameters. The text written before
  a serialization error is a given value, not derived from the graph.
- Python's `hash` is a parameter. The clock is a parameter, and the
  stamp needs a four-digit year.
- Case mapping is ASCII only (`lower()`/`upper()` on other letters are not
  modelled).
- Logging is left out.
- `get_system_statistics` is not modelled. It calls a method the graph
  manager does not have.
- `_save_successful_plan`'s file name and write are a possible error in
  the scripted outcome. The file name is not modelled.
- The "Error retrieving navigation patterns." branch is not modelled. The
  graph store catches its own errors, so this branch cannot be reached.
- In the corrected lookup, the "Error retrieving RAG plans." branch is not
  modelled, for the same reason: the plan store catches its own errors.
- The evaluator's structured result dialect and graph merging have no
  parser or implementation in the source, so they are not modelled.
- The batch runner, launchers and RAG utility scripts are out of scope.
  The prompt modules are constant text, apart from the user prompt's
  placeholders.
- GuideGenerator.GenerateOptimizedGuide computes the task type and passes
  it to the LLM call, which does not use it in the prompt. The model
  drops it.
- NavigationGraphs.WwwIgnored requires that the rest of the host does not
  itself start with "www.". For "www.www.a.com", the source drops only
  one prefix.
- NavigationGraphs.TruncatedShape states the prefix, the bound and both
  cases, but not an iff on truncation.
- HistoryParser.ActionDescription has no contract of its own. Its cases
  are stated by UnknownActionNamed and SelectDropdownChoice; the other
  phrasings are not stated separately.
- TaskEvaluator.RunTaskWithEvaluation: a graph write that raises records
  an error and no graph file, as in the source. The file contents are
  not modelled.

## Findings

| source | as written | input that shows it | evidently intended | confidence | as-written member | corrected member |
|---|---|---|---|---|---|---|
| knowledge_management/utils/guide_generator.py:111 | `find_similar_plans(task_title, website_url, top_k=3)` against the signature `find_similar_plans(task_title, top_k)` at plan_rag_manager.py:145, so Python raises a TypeError ("multiple values for argument 'top_k'") that the `except` turns into "Error retrieving RAG plans." | any non-empty task title, e.g. "Book a flight", with a store holding a matching plan | `find_similar_plans(task_title, top_k=3)`, giving the similar plans' context | not executed | GuideGenerator.RagAsWrittenAlwaysErrors | GuideGenerator.RagPlansContextShape |

The guide generator keeps the lookup as written: its prompt carries the
error text for every titled task (GuideGenerator.GuidePromptRag). The
corrected lookup and its property stand beside it.
