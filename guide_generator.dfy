/** The guide generator: before an attempt, it gathers what the knowledge
    stores hold about the task (similar successful plans, the website's
    navigation graph, the previous attempt's guide), classifies the task
    by keywords and asks a language model for an execution guide, falling
    back to a fixed template when the model call fails. The model is an
    oracle from the user prompt to a completion, or None when it raised. */
module GuideGenerator {
  import opened Text
  import PlanStore
  import NavigationGraphs

  const NoTaskTitle := "No task title available for RAG search."
  const NoSimilarPlans := "No similar successful plans found in RAG database."
  const RagError := "Error retrieving RAG plans."
  const NavigationError := "Error retrieving navigation patterns."
  const NoPreviousGuide := "No previous attempt guide available."
  const PreviousGuideHeader := "Previous attempt guide:\n"
  const PreviousGuideFooter := "\n\nUse this guide to understand what was tried before and avoid repeating unsuccessful approaches."

  /** Arguments of the store lookups. */
  const RagTopK := 3
  const DefaultTopK := 10
  const NavigationMaxAgeDays := 30
  const NavigationMaxGraphs := 3

  // ---------------------------------------------------------------------
  // Task classification
  // ---------------------------------------------------------------------

  const AuthenticationWords := ["login", "sign in", "authenticate"]
  const SearchWords := ["search", "find", "look for"]
  const CreationWords := ["save", "add", "create", "book"]
  const DeletionWords := ["remove", "delete", "cancel"]
  const NavigationWords := ["navigate", "go to", "visit"]

  /** The keyword groups in the order they are tried, and their labels. */
  const KeywordGroups := [AuthenticationWords, SearchWords, CreationWords, DeletionWords, NavigationWords]
  const GroupLabels := ["Authentication", "Search", "Creation/Booking", "Deletion/Cancellation", "Navigation"]
  const General := "General"

  /** Some word of `words` occurs in `text`. */
  predicate Mentions(text: string, words: seq<string>)
  {
    exists k :: 0 <= k < |words| && Contains(text, words[k])
  }

  /** `_determine_task_type`: the first keyword group, in a fixed order,
      that the lower-cased task mentions; "General" when none does. */
  function DetermineTaskType(task: string): (r: string)
    ensures r in GroupLabels || r == General
  {
    TypeOfLowered(Lower(task))
  }

  /** The if-chain of `_determine_task_type` on the lower-cased task. */
  function TypeOfLowered(t: string): (r: string)
    ensures r in GroupLabels || r == General
  {
    if Mentions(t, AuthenticationWords) then "Authentication"
    else if Mentions(t, SearchWords) then "Search"
    else if Mentions(t, CreationWords) then "Creation/Booking"
    else if Mentions(t, DeletionWords) then "Deletion/Cancellation"
    else if Mentions(t, NavigationWords) then "Navigation"
    else General
  }

  /** The index of the first group from `i` on that `t` mentions. */
  function FirstGroup(t: string, i: nat): (r: Option<nat>)
    requires i <= |KeywordGroups|
    ensures r.Some? ==> i <= r.value < |KeywordGroups| && Mentions(t, KeywordGroups[r.value])
    ensures r.Some? ==> forall j :: i <= j < r.value ==> !Mentions(t, KeywordGroups[j])
    ensures r.None? ==> forall j :: i <= j < |KeywordGroups| ==> !Mentions(t, KeywordGroups[j])
    decreases |KeywordGroups| - i
  {
    if i == |KeywordGroups| then None
    else if Mentions(t, KeywordGroups[i]) then Some(i)
    else FirstGroup(t, i + 1)
  }

  /** The task type is the label of the first keyword group mentioned. */
  lemma TaskTypeIsFirstGroup(task: string)
    ensures DetermineTaskType(task) ==
      match FirstGroup(Lower(task), 0)
      case Some(g) => GroupLabels[g]
      case None => General
  {
    var t := Lower(task);
    assert DetermineTaskType(task) == TypeOfLowered(t);
    assert FirstGroup(t, 0) == (if Mentions(t, AuthenticationWords) then Some(0) else FirstGroup(t, 1));
    assert FirstGroup(t, 1) == (if Mentions(t, SearchWords) then Some(1) else FirstGroup(t, 2));
    assert FirstGroup(t, 2) == (if Mentions(t, CreationWords) then Some(2) else FirstGroup(t, 3));
    assert FirstGroup(t, 3) == (if Mentions(t, DeletionWords) then Some(3) else FirstGroup(t, 4));
    assert FirstGroup(t, 4) == (if Mentions(t, NavigationWords) then Some(4) else FirstGroup(t, 5));
  }

  /** Group `g` is chosen exactly when the task mentions one of its words
      and none of an earlier group's; "General" exactly when it mentions
      no keyword at all. */
  lemma TaskTypePriority(task: string, g: nat)
    requires g < |KeywordGroups|
    ensures DetermineTaskType(task) == GroupLabels[g] <==>
      Mentions(Lower(task), KeywordGroups[g]) && forall j :: 0 <= j < g ==> !Mentions(Lower(task), KeywordGroups[j])
    ensures DetermineTaskType(task) == General <==>
      forall j :: 0 <= j < |KeywordGroups| ==> !Mentions(Lower(task), KeywordGroups[j])
  {
    TaskTypeIsFirstGroup(task);
    var f := FirstGroup(Lower(task), 0);
    assert GroupLabels[0] != GroupLabels[1] && GroupLabels[1] != GroupLabels[2] && GroupLabels[2] != GroupLabels[3] && GroupLabels[3] != GroupLabels[4];
    assert GroupLabels[0] != GroupLabels[2] && GroupLabels[0] != GroupLabels[3] && GroupLabels[0] != GroupLabels[4];
    assert GroupLabels[1] != GroupLabels[3] && GroupLabels[1] != GroupLabels[4] && GroupLabels[2] != GroupLabels[4];
    assert General !in GroupLabels;
    if f.Some? && f.value != g {
      assert GroupLabels[f.value] != GroupLabels[g];
    }
  }

  /** Classification ignores letter case. */
  lemma TaskTypeIgnoresCase(task: string)
    ensures DetermineTaskType(Upper(task)) == DetermineTaskType(task)
  {
    LowerOfUpper(task);
    assert DetermineTaskType(Upper(task)) == TypeOfLowered(Lower(task));
  }

  /** A task that mentions "login", in any case, is an authentication task. */
  lemma LoginIsAuthentication(pre: string, post: string)
    ensures DetermineTaskType(pre + "LOGIN" + post) == "Authentication"
  {
    var t := Lower(pre + "LOGIN" + post);
    LowerAppend(pre + "LOGIN", post);
    LowerAppend(pre, "LOGIN");
    assert Lower("LOGIN") == "login";
    ContainsMiddle(Lower(pre), "login", Lower(post));
    assert Contains(t, AuthenticationWords[0]);
  }

  // ---------------------------------------------------------------------
  // The previous attempt's guide
  // ---------------------------------------------------------------------

  /** The text of an optional guide; a missing guide is empty. */
  function GuideText(previous: Option<string>): string
  {
    if previous.None? then "" else previous.value
  }

  /** `_format_previous_guide`. */
  function FormatPreviousGuide(previous: Option<string>): string
  {
    if GuideText(previous) == "" then NoPreviousGuide
    else PreviousGuideHeader + previous.value + PreviousGuideFooter
  }

  /** A given guide appears verbatim between the header and the footer, and
      can be cut back out of the formatted text. */
  lemma PreviousGuideRecovered(guide: string)
    requires guide != ""
    ensures var r := FormatPreviousGuide(Some(guide));
      && StartsWith(r, PreviousGuideHeader) && EndsWith(r, PreviousGuideFooter)
      && r[|PreviousGuideHeader|..|r| - |PreviousGuideFooter|] == guide
  {
    var r := FormatPreviousGuide(Some(guide));
    assert r[..|PreviousGuideHeader|] == PreviousGuideHeader;
    assert r[|r| - |PreviousGuideFooter|..] == PreviousGuideFooter;
  }

  /** Two optional guides format to the same text exactly when they have
      the same text: a missing and an empty guide are alike, and no given
      guide is mistaken for the placeholder. */
  lemma FormatPreviousGuideInjective(a: Option<string>, b: Option<string>)
    ensures FormatPreviousGuide(a) == FormatPreviousGuide(b) <==> GuideText(a) == GuideText(b)
  {
    if FormatPreviousGuide(a) == FormatPreviousGuide(b) {
      if GuideText(a) != "" && GuideText(b) != "" {
        PreviousGuideRecovered(a.value);
        PreviousGuideRecovered(b.value);
      }
    }
  }

  // ---------------------------------------------------------------------
  // Similar plans
  // ---------------------------------------------------------------------

  /** An argument of a Python call. */
  datatype Arg = StrArg(s: string) | IntArg(n: int)

  /** The value bound to the `top_k` parameter of
      `find_similar_plans(task_title, top_k=10)` by a call with the given
      positional arguments and `top_k` keyword argument; None when the call
      raises a TypeError (a missing title, too many arguments, or `top_k`
      given both by position and by keyword). */
  function BindTopK(positional: seq<Arg>, topK: Option<int>): (r: Option<Arg>)
    ensures r.Some? <==> (|positional| == 1 || (|positional| == 2 && topK.None?))
  {
    if |positional| == 0 || |positional| > 2 then None
    else if |positional| == 2 then (if topK.Some? then None else Some(positional[1]))
    else Some(IntArg(if topK.Some? then topK.value else DefaultTopK))
  }

  /** The context built from the outcome of binding the lookup call; the
      store answers the query with `answer`. A `top_k` that is not a number
      makes the query raise inside the lookup, which returns no plans. */
  function RagContextOfCall<E, D>(records: seq<PlanStore.PlanRecord<E>>, bound: Option<Arg>,
                                  answer: Option<seq<PlanStore.Hit<D>>>): string
  {
    match bound
    case None => RagError
    case Some(StrArg(_)) => NoSimilarPlans
    case Some(IntArg(k)) =>
      var plans := PlanStore.SimilarPlans(records, k, answer);
      if plans == [] then NoSimilarPlans else PlanStore.BuildContextFromSimilarPlans(plans)
  }

  /** `_get_rag_plans_context` as written: the lookup is called with the
      website URL as a second positional argument and `top_k=3`. */
  function RagPlansContextAsWritten<E, D>(records: seq<PlanStore.PlanRecord<E>>, taskTitle: Option<string>,
                                          websiteUrl: string, answer: Option<seq<PlanStore.Hit<D>>>): string
  {
    if GuideText(taskTitle) == "" then NoTaskTitle
    else RagContextOfCall(records, BindTopK([StrArg(taskTitle.value), StrArg(websiteUrl)], Some(RagTopK)), answer)
  }

  /** `_get_rag_plans_context` as intended: the lookup is called with the
      title and `top_k=3`. */
  function RagPlansContext<E, D>(records: seq<PlanStore.PlanRecord<E>>, taskTitle: Option<string>,
                                 answer: Option<seq<PlanStore.Hit<D>>>): string
  {
    if GuideText(taskTitle) == "" then NoTaskTitle
    else RagContextOfCall(records, BindTopK([StrArg(taskTitle.value)], Some(RagTopK)), answer)
  }

  /** As written, every titled lookup ends in the error text, whatever the
      store holds; and wherever the intended lookup finds plans, the two
      disagree. */
  lemma RagAsWrittenAlwaysErrors<E, D>(records: seq<PlanStore.PlanRecord<E>>, title: string, websiteUrl: string,
                                       answer: Option<seq<PlanStore.Hit<D>>>)
    requires title != ""
    ensures RagPlansContextAsWritten(records, Some(title), websiteUrl, answer) == RagError
    ensures PlanStore.SimilarPlans(records, RagTopK, answer) != [] ==>
      RagPlansContextAsWritten(records, Some(title), websiteUrl, answer) != RagPlansContext(records, Some(title), answer)
  {
    assert BindTopK([StrArg(title), StrArg(websiteUrl)], Some(RagTopK)).None?;
    assert BindTopK([StrArg(title)], Some(RagTopK)) == Some(IntArg(RagTopK));
    var plans := PlanStore.SimilarPlans(records, RagTopK, answer);
    if plans != [] {
      ContextIsNotError(plans);
    }
  }

  /** A context of found plans is never the error text. */
  lemma ContextIsNotError<D>(plans: seq<PlanStore.SimilarPlan<D>>)
    requires plans != []
    ensures PlanStore.BuildContextFromSimilarPlans(plans) != RagError
  {
    PlanStore.ContextShape(plans);
    var c := PlanStore.BuildContextFromSimilarPlans(plans);
    assert c[0] == PlanStore.ContextIntro[0];
  }

  /** The intended lookup: no title gives the no-title text; otherwise at
      most three plans are found, none gives the not-found text, and found
      plans give the plan store's context, which shows every found plan. */
  lemma RagPlansContextShape<E, D>(records: seq<PlanStore.PlanRecord<E>>, taskTitle: Option<string>,
                                   answer: Option<seq<PlanStore.Hit<D>>>)
    ensures var r := RagPlansContext(records, taskTitle, answer);
      var plans := PlanStore.SimilarPlans(records, RagTopK, answer);
      && (GuideText(taskTitle) == "" ==> r == NoTaskTitle)
      && |plans| <= RagTopK
      && (GuideText(taskTitle) != "" && plans == [] ==> r == NoSimilarPlans)
      && (GuideText(taskTitle) != "" && plans != [] ==>
            StartsWith(r, PlanStore.ContextIntro)
            && forall k :: 0 <= k < |plans| ==> Contains(r, plans[k].plan))
  {
    var plans := PlanStore.SimilarPlans(records, RagTopK, answer);
    PlanStore.SimilarPlansShape(records, RagTopK, answer);
    if plans != [] {
      PlanStore.ContextShape(plans);
    }
  }

  // ---------------------------------------------------------------------
  // Navigation graphs
  // ---------------------------------------------------------------------

  /** `_get_navigation_context` on the graph directory's contents at time
      `now`: the website's graph if it is at most 30 days old, shown as the
      store's context of at most three graphs. */
  function NavigationContextFor(dir: string, files: map<string, NavigationGraphs.GraphFile>, names: seq<string>,
                                url: string, now: int, readOk: bool): string
  {
    var graphs := NavigationGraphs.GraphsFor(dir, files, names, url, NavigationMaxAgeDays, now, readOk);
    if graphs != [] then NavigationGraphs.NavigationContext(graphs, NavigationMaxGraphs)
    else NavigationGraphs.NoPatterns
  }

  /** No recent graph gives the placeholder; a recent one gives a context
      that opens with the header and shows the graph (cut if too long). */
  lemma NavigationContextForShape(dir: string, files: map<string, NavigationGraphs.GraphFile>, names: seq<string>,
                                  url: string, now: int, readOk: bool)
    ensures var graphs := NavigationGraphs.GraphsFor(dir, files, names, url, NavigationMaxAgeDays, now, readOk);
      var r := NavigationContextFor(dir, files, names, url, now, readOk);
      && (graphs == [] ==> r == NavigationGraphs.NoPatterns)
      && (graphs != [] ==>
            StartsWith(r, NavigationGraphs.ContextHeader)
            && Contains(r, NavigationGraphs.Truncated(graphs[0].graphContent)))
  {
    var graphs := NavigationGraphs.GraphsFor(dir, files, names, url, NavigationMaxAgeDays, now, readOk);
    if graphs != [] {
      NavigationGraphs.NavigationContextShape(graphs, NavigationMaxGraphs);
    }
  }

  // ---------------------------------------------------------------------
  // The fallback guide
  // ---------------------------------------------------------------------

  const FallbackTitle := "## Fallback Guide (Generated due to system error)"
  const BasicApproach := "### Basic Approach:"
  const BasicSteps := ["1. Navigate to the website",
                       "2. Identify the main elements needed for the task",
                       "3. Follow a logical sequence of actions",
                       "4. Verify each step before proceeding",
                       "5. Check for success indicators"]
  const InsightsHeading := "### Previous Attempt Insights:"
  const FallbackNote := "**Note:** This is a fallback guide. Consider reviewing the task and previous attempts for better guidance."

  function TaskLine(task: string): string
  {
    "**Task:** " + task
  }

  /** The lines of the fallback guide. */
  function FallbackLines(task: string, previous: Option<string>): seq<string>
  {
    [FallbackTitle, "", TaskLine(task), "", BasicApproach] + BasicSteps + [""]
    + (if GuideText(previous) != "" then [InsightsHeading, previous.value, ""] else [])
    + [FallbackNote]
  }

  /** `_generate_fallback_guide`. */
  function FallbackGuide(task: string, previous: Option<string>): string
  {
    Join("\n", FallbackLines(task, previous))
  }

  /** The fallback opens with its title and the task, lists the five
      generic steps, has an insights section echoing the previous guide
      exactly when one is given, and ends with the note. */
  lemma FallbackLinesShape(task: string, previous: Option<string>)
    ensures var lines := FallbackLines(task, previous);
      && |lines| == (if GuideText(previous) != "" then 15 else 12)
      && lines[0] == FallbackTitle && lines[2] == TaskLine(task)
      && lines[5..10] == BasicSteps
      && lines[|lines| - 1] == FallbackNote
      && (GuideText(previous) != "" <==> InsightsHeading in lines)
      && (GuideText(previous) != "" ==> lines[11] == InsightsHeading && lines[12] == previous.value)
  {
    var lines := FallbackLines(task, previous);
    if GuideText(previous) == "" {
      assert forall k :: 0 <= k < |lines| ==> lines[k] != InsightsHeading by {
        forall k | 0 <= k < |lines|
          ensures lines[k] != InsightsHeading
        {
          if k == 2 {
            assert lines[k][0] == '*' != InsightsHeading[0];
          } else if 5 <= k < 10 {
            var m := k - 5;
            assert lines[k] == BasicSteps[m];
            assert |BasicSteps[m]| != |InsightsHeading|;
          } else if k == 0 || k == 4 {
            assert |lines[k]| != |InsightsHeading|;
          }
        }
      }
    }
  }

  /** In text: the fallback starts with its title, ends with the note and
      contains the task line and, when given, the previous guide. */
  lemma FallbackGuideShape(task: string, previous: Option<string>)
    ensures var r := FallbackGuide(task, previous);
      && StartsWith(r, FallbackTitle) && EndsWith(r, FallbackNote)
      && Contains(r, TaskLine(task))
      && (GuideText(previous) != "" ==> Contains(r, previous.value))
  {
    var lines := FallbackLines(task, previous);
    FallbackLinesShape(task, previous);
    JoinEnds("\n", lines);
    JoinShows("\n", lines, 2);
    if GuideText(previous) != "" {
      JoinShows("\n", lines, 12);
    }
  }

  // ---------------------------------------------------------------------
  // Guide generation
  // ---------------------------------------------------------------------

  /** The contents of the knowledge stores at the time of the call. */
  datatype Knowledge<E, D> = Knowledge(
    records: seq<PlanStore.PlanRecord<E>>,   // the plan store
    answer: Option<seq<PlanStore.Hit<D>>>,   // its answer to the title query
    graphDir: string,                        // the graph directory
    files: map<string, NavigationGraphs.GraphFile>,
    names: seq<string>,
    graphReadOk: bool,                       // whether its found file can be read
    now: int)                                // the clock, in seconds

  /** The fixed parts of the user prompt template, around its five fields. */
  const PromptTask := "## Current Task\n"
  const PromptPlans := "\n\n## Previous Successful Plans for Tasks that could be useful:\n"
  const PromptGraph := "\n\n## Website Navigation Graph (to understand the website structure)\n"
  const PromptPrevious := "\n\n## Previous Attempt Guide (if applicable)\nAn evaluator reviewed the previous attempt and left the following recommendations to try. This could be helpful recommendations that have not beed tried.\n"
  const PromptUrl := "\n\n## Additional Context\n- Website URL: "
  const PromptEnd := "\n\nPlease generate an optimized execution guide for this task."

  /** The template filled in with five values. */
  function Fill(a: string, x: string, b: string, y: string, c: string, z: string,
                d: string, w: string, e: string, v: string, f: string): string
  {
    a + (x + (b + (y + (c + (z + (d + (w + (e + (v + f)))))))))
  }

  /** Every value filled into a template appears verbatim in the result. */
  lemma FillShows(a: string, x: string, b: string, y: string, c: string, z: string,
                  d: string, w: string, e: string, v: string, f: string)
    ensures var p := Fill(a, x, b, y, c, z, d, w, e, v, f);
      Contains(p, x) && Contains(p, y) && Contains(p, z) && Contains(p, w) && Contains(p, v)
  {
    var tv := v + f;
    var tw := w + (e + tv);
    var tz := z + (d + tw);
    var ty := y + (c + tz);
    var tx := x + (b + ty);
    ContainsHead(v, f);
    ContainsInRight(e, tv, v);
    ContainsHead(w, e + tv);
    ContainsInRight(w, e + tv, v);
    ContainsInRight(d, tw, v);
    ContainsInRight(d, tw, w);
    ContainsHead(z, d + tw);
    ContainsInRight(z, d + tw, v);
    ContainsInRight(z, d + tw, w);
    ContainsInRight(c, tz, v);
    ContainsInRight(c, tz, w);
    ContainsInRight(c, tz, z);
    ContainsHead(y, c + tz);
    ContainsInRight(y, c + tz, v);
    ContainsInRight(y, c + tz, w);
    ContainsInRight(y, c + tz, z);
    ContainsInRight(b, ty, v);
    ContainsInRight(b, ty, w);
    ContainsInRight(b, ty, z);
    ContainsInRight(b, ty, y);
    ContainsHead(x, b + ty);
    ContainsInRight(x, b + ty, v);
    ContainsInRight(x, b + ty, w);
    ContainsInRight(x, b + ty, z);
    ContainsInRight(x, b + ty, y);
    ContainsInRight(a, tx, v);
    ContainsInRight(a, tx, w);
    ContainsInRight(a, tx, z);
    ContainsInRight(a, tx, y);
    ContainsInRight(a, tx, x);
  }

  lemma ContainsHead(x: string, y: string)
    ensures Contains(x + y, x)
  {
    ContainsSelf(x);
    ContainsInLeft(x, y, x);
  }

  /** The user prompt: the template filled with the task, the three
      contexts and the URL (it has no place for the task type or the
      attempt count). */
  function UserPrompt(task: string, rag: string, nav: string, previous: string, url: string): (p: string)
    ensures Contains(p, task) && Contains(p, rag) && Contains(p, nav) && Contains(p, previous) && Contains(p, url)
  {
    FillShows(PromptTask, task, PromptPlans, rag, PromptGraph, nav, PromptPrevious, previous, PromptUrl, url, PromptEnd);
    Fill(PromptTask, task, PromptPlans, rag, PromptGraph, nav, PromptPrevious, previous, PromptUrl, url, PromptEnd)
  }

  /** The prompt sent for a task. Its plans context comes from the lookup
      as written, so a titled task always carries the error text there. */
  function GuidePrompt<E, D>(k: Knowledge<E, D>, task: string, websiteUrl: string,
                             taskTitle: Option<string>, previous: Option<string>): string
  {
    UserPrompt(task,
               RagPlansContextAsWritten(k.records, taskTitle, websiteUrl, k.answer),
               NavigationContextFor(k.graphDir, k.files, k.names, websiteUrl, k.now, k.graphReadOk),
               FormatPreviousGuide(previous),
               websiteUrl)
  }

  /** The prompt's plans context is the as-written lookup's: the no-title
      text without a title, and the error text for every titled task,
      whatever the plan store holds. */
  lemma GuidePromptRag<E, D>(k: Knowledge<E, D>, task: string, websiteUrl: string,
                             taskTitle: Option<string>, previous: Option<string>)
    ensures var p := GuidePrompt(k, task, websiteUrl, taskTitle, previous);
      && Contains(p, RagPlansContextAsWritten(k.records, taskTitle, websiteUrl, k.answer))
      && (GuideText(taskTitle) == "" ==> Contains(p, NoTaskTitle))
      && (GuideText(taskTitle) != "" ==> Contains(p, RagError))
  {
    if GuideText(taskTitle) != "" {
      RagAsWrittenAlwaysErrors(k.records, taskTitle.value, websiteUrl, k.answer);
    }
  }

  /** `generate_optimized_guide`: the model's completion of the prompt,
      or the fallback guide when the model call raises. The task type and
      the attempt count are computed but never reach the prompt. */
  function GenerateOptimizedGuide<E, D>(k: Knowledge<E, D>, task: string, websiteUrl: string,
                                        taskTitle: Option<string>, previous: Option<string>,
                                        attemptCount: int, llm: string -> Option<string>): string
  {
    var _ := DetermineTaskType(task);
    match llm(GuidePrompt(k, task, websiteUrl, taskTitle, previous))
    case None => FallbackGuide(task, previous)
    case Some(completion) => completion
  }

  /** The guide is the model's completion verbatim, or, when the call
      fails, the fallback guide for the task and the previous guide; the
      attempt count changes nothing; the prompt shows the task, the URL and
      the formatted previous guide. */
  lemma GenerateOptimizedGuideOutcome<E, D>(k: Knowledge<E, D>, task: string, websiteUrl: string,
                                            taskTitle: Option<string>, previous: Option<string>,
                                            attemptCount: int, otherCount: int, llm: string -> Option<string>)
    ensures var p := GuidePrompt(k, task, websiteUrl, taskTitle, previous);
      var r := GenerateOptimizedGuide(k, task, websiteUrl, taskTitle, previous, attemptCount, llm);
      && (llm(p).Some? ==> r == llm(p).value)
      && (llm(p).None? ==> r == FallbackGuide(task, previous) && StartsWith(r, FallbackTitle))
      && r == GenerateOptimizedGuide(k, task, websiteUrl, taskTitle, previous, otherCount, llm)
      && Contains(p, task) && Contains(p, websiteUrl) && Contains(p, FormatPreviousGuide(previous))
  {
    FallbackGuideShape(task, previous);
  }
}
