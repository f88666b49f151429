/** The conversion of an agent's run history into one text message per
    step (with the step's screenshot), and the selection of the screenshots
    written to disk. */
module HistoryParser {
  import opened Text

  const NoActions := "No actions found for this step"
  const UrlLimit := 120
  const Unknown := "unknown"

  /** One action of a step: its name (the first key of the action object)
      and its parameters, each already rendered as text. */
  datatype Action = Action(name: string, params: map<string, string>)

  /** One history step: the actions of the model output (None when the
      output or its action list is missing), the URL and the screenshot
      of the state ("" when absent). */
  datatype Step = Step(actions: Option<seq<Action>>, url: string, screenshot: string)

  /** One element of the result: the message and the screenshot. */
  datatype StepMessage = StepMessage(actions: string, screenshot: string)

  /** `params.get(key, default)`. */
  function Param(params: map<string, string>, key: string, default: string): string
  {
    if key in params then params[key] else default
  }

  /** `get_detailed_action_decription`. */
  function ActionDescription(a: Action): string
  {
    var p := a.params;
    match a.name
    case "click_element_by_index" => "The user clicked on element " + Param(p, "index", Unknown) + "."
    case "get_dropdown_options" => "The user clicked on dropdown option " + Param(p, "index", Unknown) + "."
    case "select_dropdown_option" =>
      var text := Param(p, "text", "");
      if text != "" then "The user clicked on dropdown option " + text + "."
      else "The user clicked on dropdown option " + Param(p, "index", Unknown) + "."
    case "input_text" =>
      "The user typed: '" + Param(p, "text", "unknown text") + "' in element " + Param(p, "index", Unknown) + "."
    case "scroll_down" => "The user scrolled down for " + Param(p, "amount", Unknown) + " pixels."
    case "scroll_up" => "The user scrolled up for " + Param(p, "amount", Unknown) + " pixels."
    case "switch_tab" => "The user switched to tab " + Param(p, "page_id", Unknown) + "."
    case "go_to_url" => "The user navigated to: " + Param(p, "url", "unknown url")
    case "write_file" => "The user wrote to file: " + Param(p, "file_name", "unknown file")
    case "search_google" => "The user searched Google for: '" + Param(p, "query", "unknown query") + "'"
    case "wait" => "The user waited for " + Param(p, "seconds", Unknown) + " seconds."
    case "done" => "The user stopped the tasks"
    case _ => "The user performed action: " + a.name
  }

  const KnownActions: set<string> := {
    "click_element_by_index", "get_dropdown_options", "select_dropdown_option", "input_text",
    "scroll_down", "scroll_up", "switch_tab", "go_to_url", "write_file", "search_google", "wait", "done"
  }

  /** An action the dispatch does not know is reported by name. */
  lemma UnknownActionNamed(a: Action)
    requires a.name !in KnownActions
    ensures ActionDescription(a) == "The user performed action: " + a.name
  {
  }

  /** A dropdown selection names the chosen text when there is one, and
      otherwise the index, or "unknown" without one. */
  lemma SelectDropdownChoice(p: map<string, string>)
    ensures var r := ActionDescription(Action("select_dropdown_option", p));
      && ("text" in p && p["text"] != "" ==> Contains(r, p["text"]))
      && (("text" !in p || p["text"] == "") && "index" in p ==> Contains(r, p["index"]))
      && (("text" !in p || p["text"] == "") && "index" !in p ==> r == "The user clicked on dropdown option unknown.")
  {
    var pre := "The user clicked on dropdown option ";
    if "text" in p && p["text"] != "" {
      ContainsSelf(p["text"]);
      ContainsInRight(pre, p["text"], p["text"]);
      ContainsInLeft(pre + p["text"], ".", p["text"]);
    } else if "index" in p {
      ContainsSelf(p["index"]);
      ContainsInRight(pre, p["index"], p["index"]);
      ContainsInLeft(pre + p["index"], ".", p["index"]);
    }
  }

  /** The descriptions of a step's actions, in order. */
  function Descriptions(actions: seq<Action>): (r: seq<string>)
    ensures |r| == |actions|
  {
    if actions == [] then []
    else Descriptions(actions[..|actions| - 1]) + [ActionDescription(actions[|actions| - 1])]
  }

  lemma {:induction false} DescriptionsAt(actions: seq<Action>, j: nat)
    requires j < |actions|
    ensures Descriptions(actions)[j] == ActionDescription(actions[j])
  {
    if j < |actions| - 1 {
      DescriptionsAt(actions[..|actions| - 1], j);
    }
  }

  /** The URL as it appears in a message: at most 120 characters, then
      "..." when it was cut. */
  function TruncatedUrl(url: string): string
  {
    if |url| > UrlLimit then url[..UrlLimit] + "..." else url
  }

  /** The URL sentence of a step; none for an empty URL. */
  function UrlSentence(url: string): string
  {
    if url == "" then "" else "the screenshot has been taken at this url " + TruncatedUrl(url) + ". "
  }

  lemma UrlSentenceShape(url: string)
    ensures url == "" <==> UrlSentence(url) == ""
    ensures |TruncatedUrl(url)| <= UrlLimit + 3
    ensures StartsWith(TruncatedUrl(url), Prefix(url, UrlLimit))
    ensures |url| <= UrlLimit ==> TruncatedUrl(url) == url
    ensures |url| > UrlLimit ==> EndsWith(TruncatedUrl(url), "...") && |TruncatedUrl(url)| == UrlLimit + 3
  {
    var t := TruncatedUrl(url);
    if |url| > UrlLimit {
      assert t[..UrlLimit] == url[..UrlLimit];
    }
  }

  /** The line that introduces action `j` of step `i` in a multi-action step. */
  function ActionLine(i: nat, j: nat, description: string): string
  {
    "The " + NatToString(j) + "th action taken for step " + NatToString(i) + " is " + description
  }

  /** The numbered lines of the first `n` descriptions, concatenated. */
  function NumberedActions(i: nat, ds: seq<string>, n: nat): string
    requires n <= |ds|
  {
    if n == 0 then "" else NumberedActions(i, ds, n - 1) + ActionLine(i, n - 1, ds[n - 1])
  }

  /** What follows the URL sentence: the only description, the numbered
      descriptions, or the no-action text. */
  function ActionsTail(i: nat, ds: seq<string>): string
  {
    if |ds| == 1 then ds[0]
    else if |ds| > 1 then NumberedActions(i, ds, |ds|)
    else NoActions
  }

  /** Every numbered line is present, each with its own index. */
  lemma {:induction false} NumberedActionsShow(i: nat, ds: seq<string>, n: nat, j: nat)
    requires j < n <= |ds|
    ensures Contains(NumberedActions(i, ds, n), ActionLine(i, j, ds[j]))
  {
    if j == n - 1 {
      ContainsSelf(ActionLine(i, j, ds[j]));
      ContainsInRight(NumberedActions(i, ds, n - 1), ActionLine(i, j, ds[j]), ActionLine(i, j, ds[j]));
    } else {
      NumberedActionsShow(i, ds, n - 1, j);
      ContainsInLeft(NumberedActions(i, ds, n - 1), ActionLine(i, n - 1, ds[n - 1]), ActionLine(i, j, ds[j]));
    }
  }

  function StepPrefix(i: nat): string
  {
    "This is step " + NatToString(i) + ", "
  }

  /** The descriptions of a step's actions; none without a model output. */
  function StepDescriptions(step: Step): seq<string>
  {
    if step.actions.Some? then Descriptions(step.actions.value) else []
  }

  /** The message of step `i`, whose URL is `url` and whose actions are
      described by `ds`. */
  function MessageText(i: nat, url: string, ds: seq<string>): string
  {
    StepPrefix(i) + UrlSentence(url) + ActionsTail(i, ds)
  }

  function StepText(i: nat, step: Step): string
  {
    MessageText(i, step.url, StepDescriptions(step))
  }

  /** `history_to_messages` as a specification: one message per step, in
      step order, each with the step's text and screenshot. */
  function Messages(history: seq<Step>): (r: seq<StepMessage>)
    ensures |r| == |history|
  {
    seq(|history|, i requires 0 <= i < |history| => StepMessage(StepText(i, history[i]), history[i].screenshot))
  }

  /** The message of step i opens with "This is step i, ". */
  lemma MessageStarts(i: nat, url: string, ds: seq<string>)
    ensures StartsWith(MessageText(i, url, ds), StepPrefix(i))
  {
    var t := MessageText(i, url, ds);
    assert t[..|StepPrefix(i)|] == StepPrefix(i);
  }

  lemma MessageEnds(i: nat, url: string, ds: seq<string>)
    ensures EndsWith(MessageText(i, url, ds), ActionsTail(i, ds))
  {
    var t := MessageText(i, url, ds);
    var tail := ActionsTail(i, ds);
    assert t == (StepPrefix(i) + UrlSentence(url)) + tail;
    assert t[|t| - |tail|..] == tail;
  }

  /** The three shapes of a message's tail: the no-action text, the only
      description, or every description after its numbered introduction. */
  lemma MessageTail(i: nat, url: string, ds: seq<string>)
    ensures |ds| == 0 ==> EndsWith(MessageText(i, url, ds), NoActions)
    ensures |ds| == 1 ==> EndsWith(MessageText(i, url, ds), ds[0])
    ensures |ds| > 1 ==> forall j :: 0 <= j < |ds| ==> Contains(MessageText(i, url, ds), ActionLine(i, j, ds[j]))
  {
    MessageEnds(i, url, ds);
    if |ds| > 1 {
      forall j | 0 <= j < |ds|
        ensures Contains(MessageText(i, url, ds), ActionLine(i, j, ds[j]))
      {
        NumberedActionsShow(i, ds, |ds|, j);
        ContainsInRight(StepPrefix(i) + UrlSentence(url), ActionsTail(i, ds), ActionLine(i, j, ds[j]));
      }
    }
  }

  /** The message of a step with a URL carries the URL sentence right after
      the step number; one without carries none. */
  lemma MessageUrl(i: nat, url: string, ds: seq<string>)
    ensures url != "" ==>
      Contains(MessageText(i, url, ds), "the screenshot has been taken at this url " + TruncatedUrl(url) + ". ")
    ensures url != "" ==>
      StartsWith(MessageText(i, url, ds), StepPrefix(i) + "the screenshot has been taken at this url " + TruncatedUrl(url) + ". ")
    ensures url == "" ==> MessageText(i, url, ds) == StepPrefix(i) + ActionsTail(i, ds)
  {
    if url != "" {
      MessageUrlShown(i, url, ds);
      MessageUrlFirst(i, url, ds);
    } else {
      MessageNoUrl(i, ds);
    }
  }

  lemma MessageNoUrl(i: nat, ds: seq<string>)
    ensures MessageText(i, "", ds) == StepPrefix(i) + ActionsTail(i, ds)
  {
    assert StepPrefix(i) + UrlSentence("") == StepPrefix(i);
  }

  lemma MessageUrlShown(i: nat, url: string, ds: seq<string>)
    requires url != ""
    ensures Contains(MessageText(i, url, ds), "the screenshot has been taken at this url " + TruncatedUrl(url) + ". ")
  {
    var u := UrlSentence(url);
    ContainsSelf(u);
    ContainsInRight(StepPrefix(i), u, u);
    ContainsInLeft(StepPrefix(i) + u, ActionsTail(i, ds), u);
  }

  lemma MessageUrlFirst(i: nat, url: string, ds: seq<string>)
    requires url != ""
    ensures StartsWith(MessageText(i, url, ds), StepPrefix(i) + "the screenshot has been taken at this url " + TruncatedUrl(url) + ". ")
  {
    var p, lit, t := StepPrefix(i), "the screenshot has been taken at this url ", TruncatedUrl(url);
    assert UrlSentence(url) == lit + t + ". ";
    ConcatAssoc(p, lit, t);
    ConcatAssoc(p, lit + t, ". ");
    StartsWithAppend(p + UrlSentence(url), ActionsTail(i, ds));
  }

  /** Each action of a step with several actions is introduced by its
      number and the step's number, followed by its own description. */
  lemma StepActionsShown(i: nat, step: Step, j: nat)
    requires step.actions.Some? && 1 < |step.actions.value| && j < |step.actions.value|
    ensures Contains(StepText(i, step), ActionLine(i, j, ActionDescription(step.actions.value[j])))
  {
    DescriptionsAt(step.actions.value, j);
    MessageTail(i, step.url, StepDescriptions(step));
  }

  /** A step with exactly one action ends with that action's description. */
  lemma StepSingleAction(i: nat, step: Step)
    requires step.actions.Some? && |step.actions.value| == 1
    ensures EndsWith(StepText(i, step), ActionDescription(step.actions.value[0]))
  {
    DescriptionsAt(step.actions.value, 0);
    MessageTail(i, step.url, StepDescriptions(step));
  }

  /** A step without a model output, or with an empty action list, ends
      with the no-action text. */
  lemma StepNoActions(i: nat, step: Step)
    requires step.actions.None? || step.actions.value == []
    ensures EndsWith(StepText(i, step), NoActions)
  {
    MessageTail(i, step.url, StepDescriptions(step));
  }

  /** `history_to_messages`: the message of each step is built up piece by
      piece. */
  method HistoryToMessages(history: seq<Step>) returns (steps: seq<StepMessage>)
    ensures steps == Messages(history)
  {
    steps := [];
    for i := 0 to |history|
      invariant steps == Messages(history)[..i]
    {
      steps := AppendMessage(history, i, steps);
    }
    assert Messages(history)[..|history|] == Messages(history);
  }

  /** One iteration: the message of step `i` joins those of the steps before it. */
  method AppendMessage(history: seq<Step>, i: nat, steps: seq<StepMessage>) returns (steps': seq<StepMessage>)
    requires i < |history| && steps == Messages(history)[..i]
    ensures steps' == Messages(history)[..i + 1]
  {
    var actionsStr := StepMessageText(i, history[i]);
    var message := StepMessage(actionsStr, history[i].screenshot);
    ghost var messages := Messages(history);
    assert message == messages[i];
    TakeSnoc(messages, i);
    steps' := steps + [message];
  }

  /** The message of one step. */
  method StepMessageText(i: nat, step: Step) returns (actionsStr: string)
    ensures actionsStr == StepText(i, step)
  {
    var actionStrings: seq<string> := [];
    if step.actions.Some? {
      actionStrings := DescribeActions(step.actions.value);
    }
    assert actionStrings == StepDescriptions(step);
    actionsStr := MessageOf(i, step.url, actionStrings);
  }

  method MessageOf(i: nat, url: string, actionStrings: seq<string>) returns (actionsStr: string)
    ensures actionsStr == MessageText(i, url, actionStrings)
  {
    actionsStr := StepPrefix(i);
    if url != "" {
      actionsStr := actionsStr + ("the screenshot has been taken at this url " + TruncatedUrl(url) + ". ");
    }
    assert actionsStr == StepPrefix(i) + UrlSentence(url);
    var tail: string;
    if |actionStrings| == 1 {
      tail := actionStrings[0];
    } else if |actionStrings| > 1 {
      tail := NumberActions(i, actionStrings);
    } else {
      tail := NoActions;
    }
    assert tail == ActionsTail(i, actionStrings);
    actionsStr := actionsStr + tail;
  }

  method DescribeActions(actions: seq<Action>) returns (actionStrings: seq<string>)
    ensures actionStrings == Descriptions(actions)
  {
    actionStrings := [];
    for k := 0 to |actions|
      invariant actionStrings == Descriptions(actions[..k])
    {
      assert actions[..k + 1][..k] == actions[..k];
      actionStrings := actionStrings + [ActionDescription(actions[k])];
    }
    assert actions[..|actions|] == actions;
  }

  /** The numbered lines of a multi-action step, appended one at a time. */
  method NumberActions(i: nat, actionStrings: seq<string>) returns (numbered: string)
    ensures numbered == NumberedActions(i, actionStrings, |actionStrings|)
  {
    numbered := "";
    for j := 0 to |actionStrings|
      invariant numbered == NumberedActions(i, actionStrings, j)
    {
      numbered := numbered + ActionLine(i, j, actionStrings[j]);
    }
  }

  // ---------------------------------------------------------------------
  // Screenshots
  // ---------------------------------------------------------------------

  /** `step_<i>.png`. */
  function ScreenshotName(i: nat): string
  {
    "step_" + NatToString(i) + ".png"
  }

  /** `str(Path(outputDir) / ScreenshotName(i))`. */
  function ScreenshotPath(outputDir: string, i: nat): string
  {
    PathJoin(outputDir, ScreenshotName(i))
  }

  /** The anchor of a POSIX path: exactly two leading slashes are kept,
      one or three and more become one, a relative path has none. */
  function PathRoot(s: string): string
  {
    if |s| >= 2 && s[0] == '/' && s[1] == '/' && !(|s| >= 3 && s[2] == '/') then "//"
    else if |s| >= 1 && s[0] == '/' then "/"
    else ""
  }

  /** The components that survive normalisation: empty ones (from repeated
      or trailing slashes) and "." are dropped, ".." is kept. */
  function PathComponents(parts: seq<string>): (r: seq<string>)
    ensures forall k :: 0 <= k < |r| ==> r[k] != "" && r[k] != "."
    ensures |r| <= |parts|
  {
    if parts == [] then []
    else (if parts[0] == "" || parts[0] == "." then [] else [parts[0]]) + PathComponents(parts[1..])
  }

  /** `str(PurePosixPath(dir) / name)` for a single file name. */
  function PathJoin(dir: string, name: string): string
  {
    PathRoot(dir) + Join("/", PathComponents(Split(dir, '/')) + [name])
  }

  /** A directory without components (such as "" or ".") gives the bare
      file name after its anchor; otherwise the path ends with a slash and
      the file name. */
  lemma PathJoinShape(dir: string, name: string)
    ensures var p, comps := PathJoin(dir, name), PathComponents(Split(dir, '/'));
      && EndsWith(p, name)
      && (comps == [] ==> p == PathRoot(dir) + name)
      && (comps != [] ==> EndsWith(p, "/" + name))
  {
    var comps := PathComponents(Split(dir, '/'));
    var root := PathRoot(dir);
    if comps != [] {
      JoinConcat("/", comps, [name]);
      var j := Join("/", comps);
      assert PathJoin(dir, name) == (root + j) + ("/" + name);
      EndsWithAppend(root + j, "/" + name);
      EndsWithAppend(root + j + "/", name);
      ConcatAssoc(root + j, "/", name);
    } else {
      assert comps + [name] == [name];
      EndsWithAppend(root, name);
    }
  }

  /** A relative or absolute directory with no empty or "." component is
      not rewritten: the path is the directory, a slash and the file name. */
  lemma NormalDirectoryKept(root: string, rel: string, name: string)
    requires root == "" || root == "/"
    requires forall k :: 0 <= k < |Split(rel, '/')| ==> Split(rel, '/')[k] != "" && Split(rel, '/')[k] != "."
    ensures PathJoin(root + rel, name) == root + rel + "/" + name
  {
    var parts := Split(rel, '/');
    ComponentsKept(parts);
    RelativeStart(rel);
    SplitJoin(rel, '/');
    if root == "/" {
      AbsoluteParts(rel);
    } else {
      assert root + rel == rel;
    }
    PathJoinParts(root + rel, name, root, parts);
  }

  /** The path from a known anchor and known components. */
  lemma PathJoinParts(dir: string, name: string, root: string, parts: seq<string>)
    requires PathRoot(dir) == root && PathComponents(Split(dir, '/')) == parts && parts != []
    ensures PathJoin(dir, name) == root + Join("/", parts) + "/" + name
  {
    JoinConcat("/", parts, [name]);
  }

  /** One leading slash before a relative text: the anchor is "/" and the
      components are the relative text's. */
  lemma AbsoluteParts(rel: string)
    requires rel != [] && rel[0] != '/'
    ensures PathRoot("/" + rel) == "/"
    ensures PathComponents(Split("/" + rel, '/')) == PathComponents(Split(rel, '/'))
  {
    SplitAfterSlash(rel);
    ComponentsDropEmpty(Split(rel, '/'));
  }

  /** A text whose split pieces are all non-empty does not start with a slash. */
  lemma RelativeStart(rel: string)
    requires forall k :: 0 <= k < |Split(rel, '/')| ==> Split(rel, '/')[k] != ""
    ensures rel != [] && rel[0] != '/'
  {
    var parts := Split(rel, '/');
    assert parts[0] != "";
    if rel != [] && rel[0] == '/' {
      IndexOfCharIs(rel, '/', 0);
    }
  }

  /** A leading slash splits off an empty first piece. */
  lemma SplitAfterSlash(rel: string)
    ensures Split("/" + rel, '/') == [""] + Split(rel, '/')
  {
    var dir := "/" + rel;
    IndexOfCharIs(dir, '/', 0);
    assert dir[1..] == rel;
  }

  /** An empty leading component is dropped. */
  lemma ComponentsDropEmpty(parts: seq<string>)
    ensures PathComponents([""] + parts) == PathComponents(parts)
  {
    assert ([""] + parts)[1..] == parts;
  }

  /** Components that are neither empty nor "." all survive. */
  lemma {:induction false} ComponentsKept(parts: seq<string>)
    requires forall k :: 0 <= k < |parts| ==> parts[k] != "" && parts[k] != "."
    ensures PathComponents(parts) == parts
  {
    if parts != [] {
      ComponentsKept(parts[1..]);
      assert parts == [parts[0]] + parts[1..];
    }
  }

  /** The steps among the first `n` that have a screenshot, in step order. */
  function ScreenshotSteps(history: seq<Step>, n: nat): (r: seq<nat>)
    requires n <= |history|
    ensures forall k :: 0 <= k < |r| ==> r[k] < n
  {
    if n == 0 then []
    else ScreenshotSteps(history, n - 1) + (if history[n - 1].screenshot != "" then [n - 1] else [])
  }

  /** Exactly the steps with a non-empty screenshot, in increasing order. */
  lemma ScreenshotStepsShape(history: seq<Step>, n: nat)
    requires n <= |history|
    ensures var r := ScreenshotSteps(history, n);
      && (forall k :: 0 <= k < |r| ==> r[k] < n && history[r[k]].screenshot != "")
      && (forall k, l :: 0 <= k < l < |r| ==> r[k] < r[l])
      && (forall i :: 0 <= i < n && history[i].screenshot != "" ==> i in r)
  {
    ScreenshotStepsSelected(history, n);
    ScreenshotStepsIncreasing(history, n);
    ScreenshotStepsComplete(history, n);
  }

  /** Every index in `s` names a step of `history` with a screenshot. */
  predicate WithScreenshot(history: seq<Step>, s: seq<nat>)
  {
    forall k :: 0 <= k < |s| ==> s[k] < |history| && history[s[k]].screenshot != ""
  }

  /** The indices in `s` are strictly increasing. */
  predicate Increasing(s: seq<nat>)
  {
    forall k, l :: 0 <= k < l < |s| ==> s[k] < s[l]
  }

  lemma {:induction false} ScreenshotStepsSelected(history: seq<Step>, n: nat)
    requires n <= |history|
    ensures WithScreenshot(history, ScreenshotSteps(history, n))
  {
    if n > 0 {
      ScreenshotStepsSelected(history, n - 1);
      var prev := ScreenshotSteps(history, n - 1);
      var r := ScreenshotSteps(history, n);
      forall k | 0 <= k < |r|
        ensures history[r[k]].screenshot != ""
      {
        if k < |prev| {
          assert r[k] == prev[k];
        } else {
          assert r == prev + [n - 1] && r[k] == n - 1;
        }
      }
    }
  }

  lemma {:induction false} ScreenshotStepsIncreasing(history: seq<Step>, n: nat)
    requires n <= |history|
    ensures Increasing(ScreenshotSteps(history, n))
  {
    if n > 0 {
      ScreenshotStepsIncreasing(history, n - 1);
      var prev := ScreenshotSteps(history, n - 1);
      if history[n - 1].screenshot != "" {
        AppendLarger(prev, n - 1);
        assert ScreenshotSteps(history, n) == prev + [n - 1];
      } else {
        assert ScreenshotSteps(history, n) == prev;
      }
    }
  }

  lemma {:induction false} ScreenshotStepsComplete(history: seq<Step>, n: nat)
    requires n <= |history|
    ensures var r := ScreenshotSteps(history, n);
      forall i :: 0 <= i < n && history[i].screenshot != "" ==> i in r
  {
    if n > 0 {
      ScreenshotStepsComplete(history, n - 1);
      var prev := ScreenshotSteps(history, n - 1);
      var r := ScreenshotSteps(history, n);
      forall i | 0 <= i < n && history[i].screenshot != ""
        ensures i in r
      {
        if i < n - 1 {
          assert i in prev;
        } else {
          assert r[|prev|] == i;
        }
      }
    }
  }

  /** Appending an index larger than all others keeps the indices
      increasing. */
  lemma AppendLarger(prev: seq<nat>, x: nat)
    requires forall k :: 0 <= k < |prev| ==> prev[k] < x
    requires Increasing(prev)
    ensures Increasing(prev + [x])
  {
    var r := prev + [x];
    forall k, l | 0 <= k < l < |r|
      ensures r[k] < r[l]
    {
      if l < |prev| {
        assert r[k] == prev[k] && r[l] == prev[l];
      } else {
        assert r[k] == prev[k];
      }
    }
  }

  /** The screenshot path of each step under `outputDir`. */
  function PathsUnder(outputDir: string): nat -> string
  {
    (i: nat) => ScreenshotPath(outputDir, i)
  }

  /** The paths saved for a list of screenshot steps: those whose decoding
      and writing succeed, in the same order; `pathOf` gives a step's path. */
  function SavedPaths(history: seq<Step>, pathOf: nat -> string, save: (string, string) -> bool,
                      selected: seq<nat>, n: nat): seq<string>
    requires n <= |selected|
    requires forall k :: 0 <= k < |selected| ==> selected[k] < |history|
  {
    if n == 0 then []
    else
      var i := selected[n - 1];
      SavedPaths(history, pathOf, save, selected, n - 1)
      + (if save(history[i].screenshot, pathOf(i)) then [pathOf(i)] else [])
  }

  /** The steps among the first `n` selected ones whose save succeeds, in
      the same order. */
  function SavedSteps(history: seq<Step>, pathOf: nat -> string, save: (string, string) -> bool,
                      selected: seq<nat>, n: nat): (r: seq<nat>)
    requires n <= |selected|
    requires forall k :: 0 <= k < |selected| ==> selected[k] < |history|
    ensures forall j :: 0 <= j < |r| ==> r[j] < |history| && r[j] in selected
  {
    if n == 0 then []
    else
      var i := selected[n - 1];
      SavedSteps(history, pathOf, save, selected, n - 1)
      + (if save(history[i].screenshot, pathOf(i)) then [i] else [])
  }

  /** Every saved path names a step that has a screenshot and whose save
      succeeded, and a path is returned for every such step. */
  lemma {:induction false} SavedPathsShape(history: seq<Step>, pathOf: nat -> string, save: (string, string) -> bool,
                                           selected: seq<nat>, n: nat)
    requires n <= |selected|
    requires forall k :: 0 <= k < |selected| ==> selected[k] < |history|
    ensures |SavedPaths(history, pathOf, save, selected, n)| <= n
    ensures forall p :: p in SavedPaths(history, pathOf, save, selected, n) <==>
      exists k :: 0 <= k < n && p == pathOf(selected[k])
                  && save(history[selected[k]].screenshot, p)
  {
    if n > 0 {
      SavedPathsShape(history, pathOf, save, selected, n - 1);
    }
  }

  /** The j-th saved path is the path of the j-th step whose save
      succeeded. */
  lemma {:induction false} SavedPathsSteps(history: seq<Step>, pathOf: nat -> string, save: (string, string) -> bool,
                                           selected: seq<nat>, n: nat)
    requires n <= |selected|
    requires forall k :: 0 <= k < |selected| ==> selected[k] < |history|
    ensures var r, s := SavedPaths(history, pathOf, save, selected, n), SavedSteps(history, pathOf, save, selected, n);
      && |r| == |s|
      && forall j :: 0 <= j < |r| ==> r[j] == pathOf(s[j]) && save(history[s[j]].screenshot, r[j])
  {
    if n > 0 {
      SavedPathsSteps(history, pathOf, save, selected, n - 1);
    }
  }

  /** Steps taken in increasing order stay in increasing order. */
  lemma {:induction false} SavedStepsIncreasing(history: seq<Step>, pathOf: nat -> string, save: (string, string) -> bool,
                                                selected: seq<nat>, n: nat)
    requires n <= |selected|
    requires forall k :: 0 <= k < |selected| ==> selected[k] < |history|
    requires Increasing(selected)
    ensures Increasing(SavedSteps(history, pathOf, save, selected, n))
  {
    if n > 0 {
      SavedStepsIncreasing(history, pathOf, save, selected, n - 1);
      var prev := SavedSteps(history, pathOf, save, selected, n - 1);
      var i := selected[n - 1];
      if save(history[i].screenshot, pathOf(i)) {
        if n > 1 {
          SavedStepsBounded(history, pathOf, save, selected, n - 1);
          assert selected[n - 2] < i;
        }
        AppendLarger(prev, i);
        assert SavedSteps(history, pathOf, save, selected, n) == prev + [i];
      } else {
        assert SavedSteps(history, pathOf, save, selected, n) == prev;
      }
    }
  }

  /** With steps in increasing order, no saved step exceeds the last one
      considered. */
  lemma {:induction false} SavedStepsBounded(history: seq<Step>, pathOf: nat -> string, save: (string, string) -> bool,
                                             selected: seq<nat>, n: nat)
    requires 0 < n <= |selected|
    requires forall k :: 0 <= k < |selected| ==> selected[k] < |history|
    requires Increasing(selected)
    ensures forall j :: 0 <= j < |SavedSteps(history, pathOf, save, selected, n)| ==>
      SavedSteps(history, pathOf, save, selected, n)[j] <= selected[n - 1]
  {
    var prev := SavedSteps(history, pathOf, save, selected, n - 1);
    var r := SavedSteps(history, pathOf, save, selected, n);
    if n > 1 {
      SavedStepsBounded(history, pathOf, save, selected, n - 1);
      assert selected[n - 2] < selected[n - 1];
    }
    forall j | 0 <= j < |r|
      ensures r[j] <= selected[n - 1]
    {
      if j < |prev| {
        assert r[j] == prev[j];
      }
    }
  }

  /** Every selected step whose save succeeds is among the saved steps. */
  lemma {:induction false} SavedStepsComplete(history: seq<Step>, pathOf: nat -> string, save: (string, string) -> bool,
                                              selected: seq<nat>, n: nat)
    requires n <= |selected|
    requires forall k :: 0 <= k < |selected| ==> selected[k] < |history|
    ensures forall k :: 0 <= k < n && save(history[selected[k]].screenshot, pathOf(selected[k])) ==>
      selected[k] in SavedSteps(history, pathOf, save, selected, n)
  {
    if n > 0 {
      SavedStepsComplete(history, pathOf, save, selected, n - 1);
      var prev := SavedSteps(history, pathOf, save, selected, n - 1);
      var r := SavedSteps(history, pathOf, save, selected, n);
      forall k | 0 <= k < n && save(history[selected[k]].screenshot, pathOf(selected[k]))
        ensures selected[k] in r
      {
        if k < n - 1 {
          assert selected[k] in prev;
        } else {
          assert r == prev + [selected[k]];
        }
      }
    }
  }

  /** `save_all_screenshots` returns the paths of exactly the steps that
      have a screenshot and whose save succeeded, one per step, in step
      order. */
  lemma SaveAllScreenshotsOrder(history: seq<Step>, outputDir: string, save: (string, string) -> bool)
    ensures var sel := ScreenshotSteps(history, |history|);
      var r := SavedPaths(history, PathsUnder(outputDir), save, sel, |sel|);
      var s := SavedSteps(history, PathsUnder(outputDir), save, sel, |sel|);
      && |r| == |s| && Increasing(s)
      && (forall j :: 0 <= j < |s| ==>
            && history[s[j]].screenshot != ""
            && r[j] == ScreenshotPath(outputDir, s[j])
            && save(history[s[j]].screenshot, r[j]))
      && (forall i ::
            (0 <= i < |history| && history[i].screenshot != ""
             && save(history[i].screenshot, ScreenshotPath(outputDir, i))) ==> i in s)
  {
    var sel := ScreenshotSteps(history, |history|);
    var pathOf := PathsUnder(outputDir);
    ScreenshotStepsSelected(history, |history|);
    ScreenshotStepsIncreasing(history, |history|);
    ScreenshotStepsComplete(history, |history|);
    SavedPathsSteps(history, pathOf, save, sel, |sel|);
    SavedStepsIncreasing(history, pathOf, save, sel, |sel|);
    SavedStepsComplete(history, pathOf, save, sel, |sel|);
  }

  /** `save_all_screenshots`; `save` says whether decoding a screenshot and
      writing it to a path succeeds. */
  method SaveAllScreenshots(history: seq<Step>, outputDir: string, save: (string, string) -> bool)
    returns (savedFiles: seq<string>)
    ensures savedFiles == SavedPaths(history, PathsUnder(outputDir), save, ScreenshotSteps(history, |history|),
                                     |ScreenshotSteps(history, |history|)|)
  {
    var screenshots: seq<nat> := [];
    for i := 0 to |history|
      invariant screenshots == ScreenshotSteps(history, i)
    {
      if history[i].screenshot != "" {
        screenshots := screenshots + [i];
      }
    }
    savedFiles := SaveScreenshots(history, PathsUnder(outputDir), save, screenshots);
  }

  /** The saving loop over the selected steps, each saved under `pathOf`. */
  method SaveScreenshots(history: seq<Step>, pathOf: nat -> string, save: (string, string) -> bool,
                         screenshots: seq<nat>) returns (savedFiles: seq<string>)
    requires forall k :: 0 <= k < |screenshots| ==> screenshots[k] < |history|
    ensures savedFiles == SavedPaths(history, pathOf, save, screenshots, |screenshots|)
  {
    savedFiles := [];
    for k := 0 to |screenshots|
      invariant savedFiles == SavedPaths(history, pathOf, save, screenshots, k)
    {
      var stepNumber := screenshots[k];
      var outputPath := pathOf(stepNumber);
      if save(history[stepNumber].screenshot, outputPath) {
        savedFiles := savedFiles + [outputPath];
      }
    }
  }
}
