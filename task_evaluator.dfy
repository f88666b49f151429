/** The retry orchestrator (`knowledge_management/main_task_evaluator.py`):
    a task is attempted at most `max_attempts` times. Each attempt runs the
    browsing agent, with the last failure's guide as extra context when
    there is one, has an evaluator model judge the run, parses its answer,
    records the attempt, and stops on SUCCESS or IMPOSSIBLE. The agent run
    together with the evaluator call is an oracle from the attempt number
    and the context to an outcome; file writes that can fail are part of
    the outcome. */
module TaskEvaluator {
  import opened Text
  import ResponseParser

  const GuideContextHeader := "## A precedent user already tried this task before and let some recommendations that might be helpful.\n\n"
  const GuideContextFooter := "\n\nUse this guide to improve your approach."
  const TaskHashModulus := 10000
  const TaskIdPrefix := "task_"
  const AttemptInfix := "_attempt_"
  const AttemptGraphSuffix := "_graph.json"

  // ---------------------------------------------------------------------
  // Task ids and file names
  // ---------------------------------------------------------------------

  /** A reading of the local clock. */
  datatype DateTime = DateTime(year: nat, month: nat, day: nat, hour: nat, minute: nat, second: nat)

  predicate ValidClock(t: DateTime)
  {
    1000 <= t.year <= 9999 && 1 <= t.month <= 12 && 1 <= t.day <= 31
    && t.hour < 24 && t.minute < 60 && t.second < 61
  }

  /** The `%Y%m%d_%H%M%S` format. */
  function Stamp(t: DateTime): string
  {
    Padded(t.year, 4) + Padded(t.month, 2) + Padded(t.day, 2) + "_"
    + Padded(t.hour, 2) + Padded(t.minute, 2) + Padded(t.second, 2)
  }

  /** `hash(task) % 10000`, Python's remainder, which is never negative for
      a positive modulus. */
  function TaskHash(taskHash: int): (r: nat)
    ensures r < TaskHashModulus
    ensures (taskHash - r) % TaskHashModulus == 0
  {
    taskHash % TaskHashModulus
  }

  /** `_generate_task_id`, given the clock and the task's hash. */
  function TaskId(t: DateTime, taskHash: int): string
  {
    TaskIdPrefix + Stamp(t) + "_" + NatToString(TaskHash(taskHash))
  }

  /** The stamp is fifteen characters, digits around one underscore, and
      every clock field is read back from its place. */
  lemma StampFields(t: DateTime)
    requires ValidClock(t)
    ensures var s := Stamp(t);
      && |s| == 15 && s[8] == '_'
      && IsDigits(s[..8]) && IsDigits(s[9..])
      && DigitsValue(s[0..4]) == t.year && DigitsValue(s[4..6]) == t.month
      && DigitsValue(s[6..8]) == t.day && DigitsValue(s[9..11]) == t.hour
      && DigitsValue(s[11..13]) == t.minute && DigitsValue(s[13..15]) == t.second
  {
    var s := Stamp(t);
    assert s[0..4] == Padded(t.year, 4);
    assert s[4..6] == Padded(t.month, 2);
    assert s[6..8] == Padded(t.day, 2);
    assert s[9..11] == Padded(t.hour, 2);
    assert s[11..13] == Padded(t.minute, 2);
    assert s[13..15] == Padded(t.second, 2);
    assert Pow10(2) == 100 && Pow10(4) == 10000;
    PaddedValue(t.year, 4);
    PaddedValue(t.month, 2);
    PaddedValue(t.day, 2);
    PaddedValue(t.hour, 2);
    PaddedValue(t.minute, 2);
    PaddedValue(t.second, 2);
  }

  /** The id is "task_", the stamp, "_" and the task hash, which lies in
      [0, 9999] and is read back from the id's tail. */
  lemma TaskIdShape(t: DateTime, taskHash: int)
    requires ValidClock(t)
    ensures var id := TaskId(t, taskHash);
      && StartsWith(id, TaskIdPrefix)
      && id[5..20] == Stamp(t) && id[20] == '_'
      && IsDigits(id[21..]) && DigitsValue(id[21..]) == TaskHash(taskHash) < TaskHashModulus
  {
    var id := TaskId(t, taskHash);
    StampFields(t);
    assert id[..5] == TaskIdPrefix;
    assert id[5..20] == Stamp(t);
    assert id[21..] == NatToString(TaskHash(taskHash));
    NatToStringValue(TaskHash(taskHash));
  }

  /** The graph file name of an attempt, as written and as recorded. */
  function AttemptGraphFileName(taskId: string, attempt: nat): string
  {
    taskId + AttemptInfix + NatToString(attempt) + AttemptGraphSuffix
  }

  /** Attempts of one task write distinct graph files, each ending in the
      store's graph suffix. */
  lemma AttemptGraphFileNameInjective(taskId: string, n: nat, m: nat)
    ensures EndsWith(AttemptGraphFileName(taskId, n), AttemptGraphSuffix)
    ensures AttemptGraphFileName(taskId, n) == AttemptGraphFileName(taskId, m) <==> n == m
  {
    var a := AttemptGraphFileName(taskId, n);
    var b := AttemptGraphFileName(taskId, m);
    var p := |taskId + AttemptInfix|;
    assert a[|a| - |AttemptGraphSuffix|..] == AttemptGraphSuffix;
    if a == b {
      assert a[p..|a| - |AttemptGraphSuffix|] == NatToString(n);
      assert b[p..|b| - |AttemptGraphSuffix|] == NatToString(m);
      NatToStringInjective(n, m);
    }
  }

  // ---------------------------------------------------------------------
  // The guide given to the agent
  // ---------------------------------------------------------------------

  /** `_build_system_prompt_with_guide`. */
  function BuildSystemPromptWithGuide(guide: string): string
  {
    GuideContextHeader + guide + GuideContextFooter
  }

  /** The guide sits verbatim between the fixed header and footer and is
      cut back out of the context. */
  lemma SystemPromptRecovered(guide: string)
    ensures var c := BuildSystemPromptWithGuide(guide);
      && StartsWith(c, GuideContextHeader) && EndsWith(c, GuideContextFooter)
      && c[|GuideContextHeader|..|c| - |GuideContextFooter|] == guide
  {
    var c := BuildSystemPromptWithGuide(guide);
    assert c[..|GuideContextHeader|] == GuideContextHeader;
    assert c[|c| - |GuideContextFooter|..] == GuideContextFooter;
  }

  /** The context of an attempt: present only when the carried guide is
      given and non-empty. */
  function MessageContext(guide: Option<string>): (r: Option<string>)
    ensures r.Some? <==> guide.Some? && guide.value != ""
  {
    if guide.Some? && guide.value != "" then Some(BuildSystemPromptWithGuide(guide.value)) else None
  }

  // ---------------------------------------------------------------------
  // Attempts
  // ---------------------------------------------------------------------

  /** What one attempt does: an exception from the agent run or the
      evaluator call, or the evaluator's completion together with the
      results of the writes that follow (the graph file, the screenshots,
      and the plan file of a success), a failed write carrying its message. */
  datatype AttemptOutcome =
    | Raised(error: string)
    | Completed(completion: string, graphWriteError: Option<string>,
                screenshots: seq<string>, planWriteError: Option<string>)

  /** A recorded attempt: an evaluated one, or one that raised. */
  datatype AttemptRecord =
    | Evaluated(number: nat, status: ResponseParser.Status, verdict: string, guide: string,
                graphFile: string, screenshots: seq<string>)
    | Errored(number: nat, error: string)

  datatype FinalStatus = Succeeded | Impossible | FailureAfterMaxAttempts

  function FinalStatusName(s: FinalStatus): string
  {
    match s
    case Succeeded => "SUCCESS"
    case Impossible => "IMPOSSIBLE"
    case FailureAfterMaxAttempts => "FAILURE_AFTER_MAX_ATTEMPTS"
  }

  /** The results dictionary. */
  datatype Results = Results(taskId: string, task: string, attempts: seq<AttemptRecord>,
                             finalStatus: FinalStatus, successfulPlan: Option<string>)

  /** The state of the loop between attempts: the records, the carried
      guide, the final status once set, the successful plan, the context
      given to each attempt made, and the graph files written. */
  datatype Progress = Progress(attempts: seq<AttemptRecord>, guide: Option<string>,
                               final: Option<FinalStatus>, plan: Option<string>,
                               contexts: seq<Option<string>>, graphsWritten: seq<string>)

  const Start := Progress([], None, None, None, [], [])

  /** Appends a record. */
  function Record(p: Progress, r: AttemptRecord): Progress
  {
    p.(attempts := p.attempts + [r])
  }

  /** An attempt's outcome once the evaluator's completion is parsed: an
      exception (from the agent, the evaluator or the parser), or the
      evaluation and the results of the writes that follow. */
  datatype Judgement =
    | Threw(error: string)
    | Judged(status: ResponseParser.Status, verdict: string, guide: string,
             graphWriteError: Option<string>, screenshots: seq<string>, planWriteError: Option<string>)

  /** Parses the completion of an attempt; a parse error is raised, with its
      message. */
  function Judge<G>(decode: string -> Result<G, string>, outcome: AttemptOutcome): Judgement
  {
    match outcome
    case Raised(e) => Threw(e)
    case Completed(text, graphError, shots, planError) =>
      match ResponseParser.Parse(decode, text)
      case Err(pe) => Threw(ResponseParser.ErrorMessage(pe))
      case Ok(ev) => Judged(ev.status, ev.verdict, ev.guide, graphError, shots, planError)
  }

  /** The body of the loop for attempt `n`, once the context is chosen and
      the outcome judged. */
  function Attempt(taskId: string, p: Progress, n: nat, j: Judgement): Progress
  {
    match j
    case Threw(e) => Record(p, Errored(n, e))
    case Judged(status, verdict, guide, graphError, shots, planError) =>
      if graphError.Some? then Record(p, Errored(n, graphError.value))
      else
        var file := AttemptGraphFileName(taskId, n);
        var q := Record(p, Evaluated(n, status, verdict, guide, file, shots)).(graphsWritten := p.graphsWritten + [file]);
        match status
        case Success =>
          if planError.Some? then Record(q, Errored(n, planError.value))
          else q.(final := Some(Succeeded), plan := Some(guide))
        case Failure => q.(guide := Some(guide))
        case Impossible => q.(final := Some(Impossible))
        case Unknown => q
  }

  /** The loop after its first `n` iterations, for an agent-and-evaluator
      oracle already judged: an iteration is skipped once a final status is
      set (the loop has broken out). */
  function Run(taskId: string, judged: (nat, Option<string>) -> Judgement, n: nat): Progress
  {
    if n == 0 then Start
    else
      var p := Run(taskId, judged, n - 1);
      if p.final.Some? then p
      else
        var context := MessageContext(p.guide);
        Attempt(taskId, p.(contexts := p.contexts + [context]), n, judged(n, context))
  }

  /** The oracle of a run, judged with the parser. */
  function Judging<G>(decode: string -> Result<G, string>, run: (nat, Option<string>) -> AttemptOutcome):
    (nat, Option<string>) -> Judgement
  {
    (n: nat, context: Option<string>) => Judge(decode, run(n, context))
  }

  function AttemptCount(maxAttempts: int): nat
  {
    if maxAttempts < 0 then 0 else maxAttempts
  }

  /** `run_task_with_evaluation` as a function of its inputs. */
  function TaskResults<G>(decode: string -> Result<G, string>, task: string, taskId: string,
                          run: (nat, Option<string>) -> AttemptOutcome, maxAttempts: int): Results
  {
    var p := Run(taskId, Judging(decode, run), AttemptCount(maxAttempts));
    Results(taskId, task, p.attempts,
            if p.final.Some? then p.final.value else FailureAfterMaxAttempts, p.plan)
  }

  /** The results, read off the state the loop ends in. */
  lemma ResultsOfRun<G>(decode: string -> Result<G, string>, task: string, taskId: string,
                        run: (nat, Option<string>) -> AttemptOutcome, maxAttempts: int, p: Progress)
    requires p == Run(taskId, Judging(decode, run), AttemptCount(maxAttempts))
    ensures TaskResults(decode, task, taskId, run, maxAttempts)
            == Results(taskId, task, p.attempts, if p.final.Some? then p.final.value else FailureAfterMaxAttempts, p.plan)
  {
  }

  // ---------------------------------------------------------------------
  // Properties of the loop
  // ---------------------------------------------------------------------

  /** Iteration `n` of a loop that has not stopped is one attempt, given
      the context built from the carried guide. */
  lemma RunStep(taskId: string, judged: (nat, Option<string>) -> Judgement, n: nat)
    requires n > 0 && Run(taskId, judged, n - 1).final.None?
    ensures var p := Run(taskId, judged, n - 1);
      var context := MessageContext(p.guide);
      Run(taskId, judged, n) == Attempt(taskId, p.(contexts := p.contexts + [context]), n, judged(n, context))
  {
  }

  /** Once SUCCESS or IMPOSSIBLE is reached, nothing more happens. */
  lemma {:induction false} RunStops(taskId: string, judged: (nat, Option<string>) -> Judgement, n: nat, m: nat)
    requires n <= m && Run(taskId, judged, n).final.Some?
    ensures Run(taskId, judged, m) == Run(taskId, judged, n)
  {
    if n < m {
      RunStops(taskId, judged, n, m - 1);
    }
  }

  /** One attempt adds one record, or two when a write after the record
      fails, all numbered with the attempt, and keeps what came before. */
  lemma AttemptRecords(taskId: string, p: Progress, n: nat, j: Judgement)
    ensures var q := Attempt(taskId, p, n, j);
      && |p.attempts| < |q.attempts| <= |p.attempts| + 2
      && q.attempts[..|p.attempts|] == p.attempts
      && (forall k :: |p.attempts| <= k < |q.attempts| ==> q.attempts[k].number == n)
      && q.contexts == p.contexts
  {
  }

  /** An attempt leaves two records only when the evaluation said SUCCESS
      and saving the plan then raised: the success is recorded, then the
      error, and no final status is set, so the loop goes on to the next
      attempt although the task succeeded. */
  lemma AttemptTwoRecords(taskId: string, p: Progress, n: nat, j: Judgement)
    requires p.final.None?
    ensures var q := Attempt(taskId, p, n, j);
      |q.attempts| == |p.attempts| + 2 <==>
        j.Judged? && j.graphWriteError.None? && j.status == ResponseParser.Success && j.planWriteError.Some?
    ensures var q := Attempt(taskId, p, n, j);
      |q.attempts| == |p.attempts| + 2 ==>
        && q.attempts[|p.attempts|].Evaluated? && q.attempts[|p.attempts|].status == ResponseParser.Success
        && q.attempts[|p.attempts| + 1] == Errored(n, j.planWriteError.value)
        && q.final.None? && q.plan == p.plan
  {
  }

  /** Records numbered from 1 to `c` in increasing order, at least one
      and at most two per attempt, the last with number `c`. */
  predicate NumberedUpTo(records: seq<AttemptRecord>, c: nat)
  {
    && c <= |records| <= 2 * c
    && (forall k :: 0 <= k < |records| ==> 1 <= records[k].number <= c)
    && (forall k :: 0 < k < |records| ==> records[k - 1].number <= records[k].number)
    && (records != [] ==> records[|records| - 1].number == c)
  }

  lemma AttemptNumbered(taskId: string, p: Progress, n: nat, j: Judgement)
    requires n >= 1 && NumberedUpTo(p.attempts, n - 1)
    ensures NumberedUpTo(Attempt(taskId, p, n, j).attempts, n)
  {
    AttemptRecords(taskId, p, n, j);
    NumberedExtend(p.attempts, Attempt(taskId, p, n, j).attempts, n);
  }

  /** Appending one or two records numbered `n` to records numbered up to
      `n - 1` gives records numbered up to `n`. */
  lemma NumberedExtend(a: seq<AttemptRecord>, b: seq<AttemptRecord>, n: nat)
    requires n >= 1 && NumberedUpTo(a, n - 1)
    requires |a| < |b| <= |a| + 2 && b[..|a|] == a
    requires forall k :: |a| <= k < |b| ==> b[k].number == n
    ensures NumberedUpTo(b, n)
  {
    forall k | 0 <= k < |a|
      ensures b[k] == a[k]
    {
      assert b[k] == b[..|a|][k];
    }
    forall k | 0 < k < |b|
      ensures b[k - 1].number <= b[k].number
    {
      if k < |a| {
        assert b[k - 1] == a[k - 1] && b[k] == a[k];
      }
    }
  }

  /** Records are numbered 1 to the number of attempts made, in
      increasing order, at least one and at most two per attempt; at most
      `n` attempts are made in `n` iterations. */
  lemma {:induction false} RunNumbers(taskId: string, judged: (nat, Option<string>) -> Judgement, n: nat)
    ensures |Run(taskId, judged, n).contexts| <= n
    ensures NumberedUpTo(Run(taskId, judged, n).attempts, |Run(taskId, judged, n).contexts|)
  {
    if n > 0 {
      RunNumbers(taskId, judged, n - 1);
      var p := Run(taskId, judged, n - 1);
      if p.final.None? {
        RunAttemptNumber(taskId, judged, n);
        RunNumbersStep(taskId, judged, n);
      } else {
        assert Run(taskId, judged, n) == p;
      }
    }
  }

  lemma RunNumbersStep(taskId: string, judged: (nat, Option<string>) -> Judgement, n: nat)
    requires n > 0 && Run(taskId, judged, n - 1).final.None?
    requires |Run(taskId, judged, n - 1).contexts| == n - 1
    requires NumberedUpTo(Run(taskId, judged, n - 1).attempts, n - 1)
    ensures |Run(taskId, judged, n).contexts| == n
    ensures NumberedUpTo(Run(taskId, judged, n).attempts, n)
  {
    var p := Run(taskId, judged, n - 1);
    var context := MessageContext(p.guide);
    var pp := p.(contexts := p.contexts + [context]);
    var j := judged(n, context);
    RunStep(taskId, judged, n);
    AttemptNumbered(taskId, pp, n, j);
    AttemptRecords(taskId, pp, n, j);
  }

  /** While no final status is set, `n` iterations are `n` attempts. */
  lemma {:induction false} RunAttemptNumber(taskId: string, judged: (nat, Option<string>) -> Judgement, n: nat)
    requires n > 0 && Run(taskId, judged, n - 1).final.None?
    ensures |Run(taskId, judged, n - 1).contexts| == n - 1
  {
    if n > 1 {
      RunAttemptNumber(taskId, judged, n - 1);
    }
  }

  /** The guide of the most recent FAILURE record, if any. */
  function LastFailureGuide(records: seq<AttemptRecord>): Option<string>
  {
    if records == [] then None
    else
      var r := records[|records| - 1];
      if r.Evaluated? && r.status == ResponseParser.Failure then Some(r.guide)
      else LastFailureGuide(records[..|records| - 1])
  }

  lemma LastFailureGuideAppend(records: seq<AttemptRecord>, r: AttemptRecord)
    ensures LastFailureGuide(records + [r]) ==
      if r.Evaluated? && r.status == ResponseParser.Failure then Some(r.guide) else LastFailureGuide(records)
  {
    assert (records + [r])[..|records|] == records;
  }

  /** The carried guide is the guide of the latest FAILURE evaluation:
      FAILURE replaces it, and nothing else changes it. */
  lemma {:induction false} CarriedGuide(taskId: string, judged: (nat, Option<string>) -> Judgement, n: nat)
    ensures Run(taskId, judged, n).guide == LastFailureGuide(Run(taskId, judged, n).attempts)
  {
    if n > 0 {
      CarriedGuide(taskId, judged, n - 1);
      var p := Run(taskId, judged, n - 1);
      if p.final.None? {
        var context := MessageContext(p.guide);
        AttemptGuide(taskId, p.(contexts := p.contexts + [context]), n, judged(n, context));
      }
    }
  }

  lemma AttemptGuide(taskId: string, p: Progress, n: nat, j: Judgement)
    requires p.guide == LastFailureGuide(p.attempts)
    ensures var q := Attempt(taskId, p, n, j);
      q.guide == LastFailureGuide(q.attempts)
  {
    match j
    case Threw(e) =>
      LastFailureGuideAppend(p.attempts, Errored(n, e));
    case Judged(status, verdict, guide, graphError, shots, planError) =>
      if graphError.Some? {
        LastFailureGuideAppend(p.attempts, Errored(n, graphError.value));
      } else {
        var r := Evaluated(n, status, verdict, guide, AttemptGraphFileName(taskId, n), shots);
        LastFailureGuideAppend(p.attempts, r);
        if status == ResponseParser.Success && planError.Some? {
          LastFailureGuideAppend(p.attempts + [r], Errored(n, planError.value));
        }
      }
  }

  /** Attempt k + 1 was given the context built from the guide carried
      after k iterations; so the first attempt never gets one, and an
      attempt gets one only after a FAILURE with a non-empty guide. */
  lemma ContextsGiven(taskId: string, judged: (nat, Option<string>) -> Judgement, n: nat)
    ensures var p := Run(taskId, judged, n);
      && (forall k :: 0 <= k < |p.contexts| ==>
            p.contexts[k] == MessageContext(Run(taskId, judged, k).guide))
      && (p.contexts != [] ==> p.contexts[0] == None)
  {
    var p := Run(taskId, judged, n);
    forall k | 0 <= k < |p.contexts|
      ensures p.contexts[k] == MessageContext(Run(taskId, judged, k).guide)
    {
      ContextAt(taskId, judged, n, k);
    }
    if p.contexts != [] {
      ContextAt(taskId, judged, n, 0);
      assert Run(taskId, judged, 0) == Start;
    }
  }

  /** The context of attempt `k + 1` is built from the guide carried after
      `k` iterations. */
  lemma {:induction false} ContextAt(taskId: string, judged: (nat, Option<string>) -> Judgement, n: nat, k: nat)
    requires k < |Run(taskId, judged, n).contexts|
    ensures Run(taskId, judged, n).contexts[k] == MessageContext(Run(taskId, judged, k).guide)
  {
    var p := Run(taskId, judged, n - 1);
    if p.final.Some? {
      assert Run(taskId, judged, n) == p;
      ContextAt(taskId, judged, n - 1, k);
    } else {
      RunAttemptNumber(taskId, judged, n);
      ContextsStep(taskId, judged, n);
      if k < |p.contexts| {
        ContextAt(taskId, judged, n - 1, k);
      } else {
        assert k == n - 1;
      }
    }
  }

  lemma ContextsStep(taskId: string, judged: (nat, Option<string>) -> Judgement, n: nat)
    requires n > 0 && Run(taskId, judged, n - 1).final.None?
    requires |Run(taskId, judged, n - 1).contexts| == n - 1
    ensures Run(taskId, judged, n).contexts
            == Run(taskId, judged, n - 1).contexts + [MessageContext(Run(taskId, judged, n - 1).guide)]
  {
    var p := Run(taskId, judged, n - 1);
    var context := MessageContext(p.guide);
    RunStep(taskId, judged, n);
    AttemptContexts(taskId, p.(contexts := p.contexts + [context]), n, judged(n, context));
  }

  lemma AttemptContexts(taskId: string, p: Progress, n: nat, j: Judgement)
    ensures Attempt(taskId, p, n, j).contexts == p.contexts
  {
  }

  /** Every evaluated record names the graph file written for its attempt,
      and the written files are exactly those the records name. */
  predicate FilesRecorded(taskId: string, p: Progress)
  {
    && (forall k :: 0 <= k < |p.attempts| && p.attempts[k].Evaluated? ==>
          p.attempts[k].graphFile == AttemptGraphFileName(taskId, p.attempts[k].number)
          && p.attempts[k].graphFile in p.graphsWritten)
    && (forall f :: f in p.graphsWritten ==>
          exists k :: 0 <= k < |p.attempts| && p.attempts[k].Evaluated? && p.attempts[k].graphFile == f)
  }

  lemma {:induction false} GraphFilesRecorded(taskId: string, judged: (nat, Option<string>) -> Judgement, n: nat)
    ensures FilesRecorded(taskId, Run(taskId, judged, n))
  {
    if n > 0 {
      GraphFilesRecorded(taskId, judged, n - 1);
      var p := Run(taskId, judged, n - 1);
      if p.final.None? {
        var context := MessageContext(p.guide);
        var pp := p.(contexts := p.contexts + [context]);
        assert pp.attempts == p.attempts && pp.graphsWritten == p.graphsWritten;
        AttemptFiles(taskId, pp, n, judged(n, context));
      }
    }
  }

  lemma AttemptFiles(taskId: string, p: Progress, n: nat, j: Judgement)
    requires FilesRecorded(taskId, p)
    ensures FilesRecorded(taskId, Attempt(taskId, p, n, j))
  {
    var q := Attempt(taskId, p, n, j);
    AttemptWrites(taskId, p, n, j);
    var m := |p.attempts|;
    forall k | 0 <= k < |q.attempts| && q.attempts[k].Evaluated?
      ensures q.attempts[k].graphFile == AttemptGraphFileName(taskId, q.attempts[k].number)
      ensures q.attempts[k].graphFile in q.graphsWritten
    {
      if k < m {
        assert q.attempts[k] == p.attempts[k];
      }
    }
    forall f | f in q.graphsWritten
      ensures exists k :: 0 <= k < |q.attempts| && q.attempts[k].Evaluated? && q.attempts[k].graphFile == f
    {
      if f in p.graphsWritten {
        var k :| 0 <= k < m && p.attempts[k].Evaluated? && p.attempts[k].graphFile == f;
        assert q.attempts[k] == p.attempts[k];
      } else {
        assert q.attempts[m].Evaluated? && q.attempts[m].graphFile == f;
      }
    }
  }

  /** What one attempt writes: the attempt's graph file exactly when its
      evaluation is recorded, and that record (the first of the attempt)
      names it; any other record of the attempt is an error. */
  lemma AttemptWrites(taskId: string, p: Progress, n: nat, j: Judgement)
    ensures var q := Attempt(taskId, p, n, j);
      var m := |p.attempts|;
      && m < |q.attempts| <= m + 2
      && q.attempts[..m] == p.attempts
      && (forall k :: m < k < |q.attempts| ==> q.attempts[k].Errored?)
      && (q.attempts[m].Evaluated? ==>
            q.graphsWritten == p.graphsWritten + [AttemptGraphFileName(taskId, n)]
            && q.attempts[m].graphFile == AttemptGraphFileName(taskId, n) && q.attempts[m].number == n)
      && (q.attempts[m].Errored? ==> q.graphsWritten == p.graphsWritten)
  {
  }

  /** A final status is set exactly by a SUCCESS whose plan was saved or by
      an IMPOSSIBLE; it is the last record, and only a success leaves a
      plan, which is that evaluation's guide. */
  lemma {:induction false} FinalStatusSet(taskId: string, judged: (nat, Option<string>) -> Judgement, n: nat)
    ensures var p := Run(taskId, judged, n);
      && (p.plan.Some? <==> p.final == Some(Succeeded))
      && p.final != Some(FailureAfterMaxAttempts)
      && (p.final.Some? ==> p.attempts != [] && p.attempts[|p.attempts| - 1].Evaluated?)
      && (p.final == Some(Succeeded) ==>
            p.attempts[|p.attempts| - 1].status == ResponseParser.Success
            && p.plan == Some(p.attempts[|p.attempts| - 1].guide))
      && (p.final == Some(Impossible) ==> p.attempts[|p.attempts| - 1].status == ResponseParser.Impossible)
  {
    if n > 0 {
      FinalStatusSet(taskId, judged, n - 1);
      var p := Run(taskId, judged, n - 1);
      if p.final.None? {
        var context := MessageContext(p.guide);
        AttemptFinal(taskId, p.(contexts := p.contexts + [context]), n, judged(n, context));
      }
    }
  }

  lemma AttemptFinal(taskId: string, p: Progress, n: nat, j: Judgement)
    requires p.final.None? && p.plan.None?
    ensures var q := Attempt(taskId, p, n, j);
      && (q.plan.Some? <==> q.final == Some(Succeeded))
      && q.final != Some(FailureAfterMaxAttempts)
      && (q.final.Some? ==> q.attempts != [] && q.attempts[|q.attempts| - 1].Evaluated?)
      && (q.final == Some(Succeeded) ==>
            q.attempts[|q.attempts| - 1].status == ResponseParser.Success
            && q.plan == Some(q.attempts[|q.attempts| - 1].guide))
      && (q.final == Some(Impossible) ==> q.attempts[|q.attempts| - 1].status == ResponseParser.Impossible)
  {
  }

  /** Without SUCCESS or IMPOSSIBLE, every allowed attempt was made and the
      outcome is FAILURE_AFTER_MAX_ATTEMPTS with no plan; so the final
      status is always one of the three. */
  lemma ResultsOutcome<G>(decode: string -> Result<G, string>, task: string, taskId: string,
                          run: (nat, Option<string>) -> AttemptOutcome, maxAttempts: int)
    ensures var r := TaskResults(decode, task, taskId, run, maxAttempts);
      var p := Run(taskId, Judging(decode, run), AttemptCount(maxAttempts));
      && FinalStatusName(r.finalStatus) in {"SUCCESS", "IMPOSSIBLE", "FAILURE_AFTER_MAX_ATTEMPTS"}
      && (r.finalStatus == FailureAfterMaxAttempts ==>
            r.successfulPlan == None && |p.contexts| == AttemptCount(maxAttempts))
      && (r.successfulPlan.Some? <==> r.finalStatus == Succeeded)
      && |p.contexts| <= AttemptCount(maxAttempts)
  {
    var n := AttemptCount(maxAttempts);
    var p := Run(taskId, Judging(decode, run), n);
    ResultsOfRun(decode, task, taskId, run, maxAttempts, p);
    RunOutcome(taskId, Judging(decode, run), n);
    NamesOfFinal(TaskResults(decode, task, taskId, run, maxAttempts).finalStatus);
  }

  lemma NamesOfFinal(s: FinalStatus)
    ensures FinalStatusName(s) in {"SUCCESS", "IMPOSSIBLE", "FAILURE_AFTER_MAX_ATTEMPTS"}
  {
  }

  /** How a run of `n` iterations ends: without a final status only after
      `n` attempts and with no plan; with a plan exactly on SUCCESS. */
  lemma RunOutcome(taskId: string, judged: (nat, Option<string>) -> Judgement, n: nat)
    ensures var p := Run(taskId, judged, n);
      && (p.final.None? ==> p.plan == None && |p.contexts| == n)
      && (p.plan.Some? <==> p.final == Some(Succeeded))
      && p.final != Some(FailureAfterMaxAttempts)
      && |p.contexts| <= n
  {
    FinalStatusSet(taskId, judged, n);
    RunNumbers(taskId, judged, n);
    if Run(taskId, judged, n).final.None? {
      RunAttemptNumber(taskId, judged, n + 1);
    }
  }

  // ---------------------------------------------------------------------
  // The loop
  // ---------------------------------------------------------------------

  /** The body of the loop once attempt `attempt` has been executed and its
      completion parsed: record an error, or write the graph file, record the
      evaluation and react to its status. */
  method AttemptBody(taskId: string, attempt: nat, judgement: Judgement,
                     attempts: seq<AttemptRecord>, currentGuide: Option<string>, graphFiles: seq<string>,
                        ghost contexts: seq<Option<string>>)
    returns (attempts': seq<AttemptRecord>, currentGuide': Option<string>, finalStatus: Option<FinalStatus>,
             successfulPlan: Option<string>, graphFiles': seq<string>)
    ensures Progress(attempts', currentGuide', finalStatus, successfulPlan, contexts, graphFiles')
            == Attempt(taskId, Progress(attempts, currentGuide, None, None, contexts, graphFiles), attempt, judgement)
  {
    attempts', currentGuide', finalStatus, successfulPlan, graphFiles' := attempts, currentGuide, None, None, graphFiles;
    ghost var p := Progress(attempts, currentGuide, None, None, contexts, graphFiles);
    match judgement {
      case Threw(e) =>
        attempts' := attempts' + [Errored(attempt, e)];
        assert Attempt(taskId, p, attempt, judgement) == Record(p, Errored(attempt, e));
      case Judged(status, verdict, guide, graphError, shots, planError) =>
        if graphError.Some? {
          var error := graphError.value;
          attempts' := attempts' + [Errored(attempt, error)];
          assert Attempt(taskId, p, attempt, judgement) == Record(p, Errored(attempt, error));
        } else {
          attempts', currentGuide', finalStatus, successfulPlan, graphFiles' :=
            RecordEvaluation(taskId, attempt, status, verdict, guide, shots, planError,
                             attempts, currentGuide, graphFiles, contexts);
        }
    }
  }

  /** The evaluated branch of the loop body: write the graph file, record the
      evaluation and react to its status. */
  method RecordEvaluation(taskId: string, attempt: nat, status: ResponseParser.Status, verdict: string, guide: string,
                          shots: seq<string>, planError: Option<string>,
                          attempts: seq<AttemptRecord>, currentGuide: Option<string>, graphFiles: seq<string>,
                          ghost contexts: seq<Option<string>>)
    returns (attempts': seq<AttemptRecord>, currentGuide': Option<string>, finalStatus: Option<FinalStatus>,
             successfulPlan: Option<string>, graphFiles': seq<string>)
    ensures Progress(attempts', currentGuide', finalStatus, successfulPlan, contexts, graphFiles')
            == Attempt(taskId, Progress(attempts, currentGuide, None, None, contexts, graphFiles),
                       attempt, Judged(status, verdict, guide, None, shots, planError))
  {
    currentGuide', finalStatus, successfulPlan := currentGuide, None, None;
    var file := AttemptGraphFileName(taskId, attempt);
    graphFiles' := graphFiles + [file];
    attempts' := attempts + [Evaluated(attempt, status, verdict, guide, file, shots)];
    if status == ResponseParser.Success {
      if planError.Some? {
        attempts' := attempts' + [Errored(attempt, planError.value)];
      } else {
        finalStatus := Some(Succeeded);
        successfulPlan := Some(guide);
      }
    } else if status == ResponseParser.Failure {
      currentGuide' := Some(guide);
    } else if status == ResponseParser.Impossible {
      finalStatus := Some(Impossible);
    }
  }

  /** One attempt: run the agent and the evaluator with the given context,
      then parse the evaluator's completion. */
  method ExecuteAttempt<G>(decode: string -> Result<G, string>, run: (nat, Option<string>) -> AttemptOutcome,
                           attempt: nat, context: Option<string>)
    returns (judgement: Judgement)
    ensures judgement == Judging(decode, run)(attempt, context)
  {
    var outcome := run(attempt, context);
    judgement := Judge(decode, outcome);
  }

  /** The loop of `run_task_with_evaluation`: at most `count` attempts, the
      carried guide feeding each context, stopping at the first final status. */
  method RunAttempts<G>(decode: string -> Result<G, string>, taskId: string,
                        run: (nat, Option<string>) -> AttemptOutcome, count: nat)
    returns (attempts: seq<AttemptRecord>, finalStatus: Option<FinalStatus>, successfulPlan: Option<string>,
             graphFiles: seq<string>)
    ensures var p := Run(taskId, Judging(decode, run), count);
      && attempts == p.attempts && finalStatus == p.final && successfulPlan == p.plan
      && graphFiles == p.graphsWritten
  {
    ghost var judged := Judging(decode, run);
    attempts, finalStatus, successfulPlan, graphFiles := [], None, None, [];
    var currentGuide: Option<string> := None;
    ghost var contexts: seq<Option<string>> := [];
    var attempt := 1;
    while attempt <= count
      invariant 1 <= attempt <= count + 1
      invariant Progress(attempts, currentGuide, finalStatus, successfulPlan, contexts, graphFiles)
                == Run(taskId, judged, attempt - 1)
      invariant finalStatus.None? && successfulPlan.None?
    {
      attempts, currentGuide, finalStatus, successfulPlan, graphFiles, contexts :=
        Iteration(decode, taskId, run, attempt, attempts, currentGuide, graphFiles, contexts);
      FinalStatusSet(taskId, judged, attempt);
      if finalStatus.Some? {
        RunStops(taskId, judged, attempt, count);
        break;
      }
      attempt := attempt + 1;
    }
  }

  /** Iteration `attempt` of the loop, entered with no final status set. */
  method Iteration<G>(decode: string -> Result<G, string>, taskId: string,
                      run: (nat, Option<string>) -> AttemptOutcome, attempt: nat,
                      attempts: seq<AttemptRecord>, currentGuide: Option<string>, graphFiles: seq<string>,
                      ghost contexts: seq<Option<string>>)
    returns (attempts': seq<AttemptRecord>, currentGuide': Option<string>, finalStatus: Option<FinalStatus>,
             successfulPlan: Option<string>, graphFiles': seq<string>, ghost contexts': seq<Option<string>>)
    requires attempt >= 1
    requires Progress(attempts, currentGuide, None, None, contexts, graphFiles)
             == Run(taskId, Judging(decode, run), attempt - 1)
    ensures Progress(attempts', currentGuide', finalStatus, successfulPlan, contexts', graphFiles')
            == Run(taskId, Judging(decode, run), attempt)
  {
    ghost var judged := Judging(decode, run);
    var messageContext := MessageContext(currentGuide);
    contexts' := contexts + [messageContext];
    var judgement := ExecuteAttempt(decode, run, attempt, messageContext);
    attempts', currentGuide', finalStatus, successfulPlan, graphFiles' :=
      AttemptBody(taskId, attempt, judgement, attempts, currentGuide, graphFiles, contexts');
    RunStep(taskId, judged, attempt);
  }

  /** `run_task_with_evaluation`: the task id from the clock and the hash,
      then at most `maxAttempts` attempts. Also returns the graph files it
      wrote. */
  method RunTaskWithEvaluation<G>(decode: string -> Result<G, string>, task: string, maxAttempts: int,
                                  clock: DateTime, taskHash: int,
                                  run: (nat, Option<string>) -> AttemptOutcome)
    returns (results: Results, graphFiles: seq<string>)
    ensures results == TaskResults(decode, task, TaskId(clock, taskHash), run, maxAttempts)
    ensures graphFiles == Run(TaskId(clock, taskHash), Judging(decode, run), AttemptCount(maxAttempts)).graphsWritten
  {
    var taskId := TaskId(clock, taskHash);
    var attempts, finalStatus, successfulPlan;
    attempts, finalStatus, successfulPlan, graphFiles := RunAttempts(decode, taskId, run, AttemptCount(maxAttempts));
    ghost var done := Run(taskId, Judging(decode, run), AttemptCount(maxAttempts));
    ResultsOfRun(decode, task, taskId, run, maxAttempts, done);
    if finalStatus.None? {
      finalStatus := Some(FailureAfterMaxAttempts);
    }
    results := Results(taskId, task, attempts, finalStatus.value, successfulPlan);
  }
}
