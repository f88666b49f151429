/** The store of successful plans: a collection of records, each a plan
    body filed under a generalized task title, embedded by its title and
    looked up by similarity of titles. The vector database is an in-memory
    sequence of records; the embedding is a function parameter and the
    similarity ranking a query result handed in by the caller. */
module PlanStore {
  import opened Text

  const ContextIntro := "## The user found potential helpful guides for this task:"
  const ContextClosing := "If useful, use these previous successful plans as reference to improve your approach "
  const PreviewLength := 100
  const NoPlan := "No plan"

  /** One (title, plan body) item of the plans dictionary. */
  datatype PlanEntry = PlanEntry(title: string, content: string)

  /** `_create_plan_document`. */
  datatype PlanDocument = PlanDocument(taskTitle: string, plan: string, taskId: string,
                                       executionDate: string, textForEmbedding: string)

  /** A stored record: the id, the embedding, the embedded document text and
      the metadata. */
  datatype PlanRecord<E> = PlanRecord(id: string, embedding: E, document: string,
                                      taskTitle: string, plan: string, taskId: string,
                                      executionDate: string)

  /** One answer of a similarity query: a record and its distance. */
  datatype SimilarPlan<D> = SimilarPlan(taskTitle: string, plan: string, taskId: string,
                                        executionDate: string, similarityScore: D)

  /** A hit of the vector index: which record, at which distance. */
  datatype Hit<D> = Hit(index: nat, distance: D)

  datatype PlansStatistics = PlansStatistics(totalPlans: nat, uniqueTaskTitles: nat, taskTitles: set<string>)

  datatype PlanListing = PlanListing(taskTitle: string, taskId: string, executionDate: string, planPreview: string)

  /** The document of a plan: only the title is the text that gets embedded;
      the body travels as metadata. */
  function CreatePlanDocument(title: string, plan: string, taskId: string, executionDate: string): (d: PlanDocument)
    ensures d.textForEmbedding == title
    ensures d.taskTitle == title && d.plan == plan && d.taskId == taskId && d.executionDate == executionDate
  {
    PlanDocument(title, plan, taskId, executionDate, title)
  }

  /** The id of a stored plan, `plan_<task id>_<title>_<timestamp>`. */
  function PlanId(taskId: string, title: string, stamp: string): string
  {
    "plan_" + taskId + "_" + title + "_" + stamp
  }

  function RecordOf<E>(embed: string -> E, entry: PlanEntry, taskId: string, executionDate: string, stamp: string): PlanRecord<E>
  {
    var doc := CreatePlanDocument(entry.title, entry.content, taskId, executionDate);
    PlanRecord(PlanId(taskId, entry.title, stamp), embed(doc.textForEmbedding), doc.textForEmbedding,
               doc.taskTitle, doc.plan, doc.taskId, doc.executionDate)
  }

  /** The records added by the first `n` items of one call of
      `store_successful_plan`: one per item whose insertion succeeded, in
      item order. */
  function Stored<E>(embed: string -> E, plans: seq<PlanEntry>, taskId: string, executionDate: string,
                     stamps: seq<string>, insertOk: seq<bool>, n: nat): seq<PlanRecord<E>>
    requires n <= |plans| == |stamps| == |insertOk|
  {
    if n == 0 then []
    else Stored(embed, plans, taskId, executionDate, stamps, insertOk, n - 1)
         + (if insertOk[n - 1] then [RecordOf(embed, plans[n - 1], taskId, executionDate, stamps[n - 1])] else [])
  }

  /** The number of successful insertions among the first `n`. */
  function CountTrue(bs: seq<bool>, n: nat): nat
    requires n <= |bs|
  {
    if n == 0 then 0 else CountTrue(bs, n - 1) + (if bs[n - 1] then 1 else 0)
  }

  lemma {:induction false} CountTruePositive(bs: seq<bool>, n: nat)
    requires n <= |bs|
    ensures CountTrue(bs, n) > 0 <==> true in bs[..n]
  {
    if n > 0 {
      CountTruePositive(bs, n - 1);
      assert bs[..n] == bs[..n - 1] + [bs[n - 1]];
    }
  }

  /** One record per successful insertion; every record carries the call's
      task id and execution date, and an embedding of its title alone. */
  lemma {:induction false} StoredShape<E>(embed: string -> E, plans: seq<PlanEntry>, taskId: string, executionDate: string,
                                          stamps: seq<string>, insertOk: seq<bool>, n: nat)
    requires n <= |plans| == |stamps| == |insertOk|
    ensures var r := Stored(embed, plans, taskId, executionDate, stamps, insertOk, n);
      && |r| == CountTrue(insertOk, n)
      && forall k :: 0 <= k < |r| ==>
           && r[k].taskId == taskId && r[k].executionDate == executionDate
           && r[k].embedding == embed(r[k].taskTitle) && r[k].document == r[k].taskTitle
           && exists j :: 0 <= j < n && insertOk[j] && r[k].taskTitle == plans[j].title && r[k].plan == plans[j].content
  {
    if n > 0 {
      StoredShape(embed, plans, taskId, executionDate, stamps, insertOk, n - 1);
      var prev := Stored(embed, plans, taskId, executionDate, stamps, insertOk, n - 1);
      var r := Stored(embed, plans, taskId, executionDate, stamps, insertOk, n);
      forall k | 0 <= k < |r|
        ensures exists j :: 0 <= j < n && insertOk[j] && r[k].taskTitle == plans[j].title && r[k].plan == plans[j].content
      {
        if k < |prev| {
          assert r[k] == prev[k];
          var j :| 0 <= j < n - 1 && insertOk[j] && prev[k].taskTitle == plans[j].title && prev[k].plan == plans[j].content;
        } else {
          assert insertOk[n - 1] && r[k] == RecordOf(embed, plans[n - 1], taskId, executionDate, stamps[n - 1]);
        }
      }
    }
  }

  /** Each successfully inserted item is in the store afterwards. */
  lemma {:induction false} StoredHasEntry<E>(embed: string -> E, plans: seq<PlanEntry>, taskId: string, executionDate: string,
                                             stamps: seq<string>, insertOk: seq<bool>, n: nat, j: nat)
    requires n <= |plans| == |stamps| == |insertOk|
    requires j < n && insertOk[j]
    ensures RecordOf(embed, plans[j], taskId, executionDate, stamps[j])
            in Stored(embed, plans, taskId, executionDate, stamps, insertOk, n)
  {
    if j < n - 1 {
      StoredHasEntry(embed, plans, taskId, executionDate, stamps, insertOk, n - 1, j);
    }
  }

  /** The records of a store without those filed under `title`. */
  function RemoveTitle<E>(records: seq<PlanRecord<E>>, title: string): seq<PlanRecord<E>>
  {
    if records == [] then []
    else (if records[0].taskTitle == title then [] else [records[0]]) + RemoveTitle(records[1..], title)
  }

  /** Deleting by title removes exactly the records with that title. */
  lemma {:induction false} RemoveTitleMembers<E>(records: seq<PlanRecord<E>>, title: string)
    ensures forall x :: x in RemoveTitle(records, title) <==> x in records && x.taskTitle != title
    ensures |RemoveTitle(records, title)| <= |records|
  {
    if records != [] {
      RemoveTitleMembers(records[1..], title);
      assert records == [records[0]] + records[1..];
    }
  }

  /** The titles present in a store. */
  function Titles<E>(records: seq<PlanRecord<E>>): (r: set<string>)
  {
    if records == [] then {} else {records[0].taskTitle} + Titles(records[1..])
  }

  lemma {:induction false} TitlesAreStored<E>(records: seq<PlanRecord<E>>)
    ensures forall t :: t in Titles(records) <==> exists k :: 0 <= k < |records| && records[k].taskTitle == t
    ensures |Titles(records)| <= |records|
  {
    if records != [] {
      TitlesAreStored(records[1..]);
      forall t | t in Titles(records)
        ensures exists k :: 0 <= k < |records| && records[k].taskTitle == t
      {
        if t != records[0].taskTitle {
          var k :| 0 <= k < |records[1..]| && records[1..][k].taskTitle == t;
          assert records[k + 1].taskTitle == t;
        }
      }
      forall t | exists k :: 0 <= k < |records| && records[k].taskTitle == t
        ensures t in Titles(records)
      {
        var k :| 0 <= k < |records| && records[k].taskTitle == t;
        if k > 0 {
          assert records[1..][k - 1].taskTitle == t;
        }
      }
    }
  }

  /** `get_plans_statistics`. */
  function Statistics<E>(records: seq<PlanRecord<E>>): PlansStatistics
  {
    var titles := Titles(records);
    PlansStatistics(|records|, |titles|, titles)
  }

  /** There are never more distinct titles than plans. */
  lemma StatisticsBound<E>(records: seq<PlanRecord<E>>)
    ensures Statistics(records).uniqueTaskTitles <= Statistics(records).totalPlans
    ensures Statistics(records).totalPlans == |records|
  {
    TitlesAreStored(records);
  }

  /** The list preview of a plan: its first 100 characters and "...", or
      "No plan" for an empty plan. */
  function Preview(plan: string): string
  {
    if plan != [] then Prefix(plan, PreviewLength) + "..." else NoPlan
  }

  /** A preview is bounded, starts with the plan, and is the placeholder
      exactly for an empty plan. */
  lemma PreviewShape(plan: string)
    ensures |Preview(plan)| <= PreviewLength + 3
    ensures StartsWith(Preview(plan), Prefix(plan, PreviewLength))
    ensures Preview(plan) == NoPlan <==> plan == []
    ensures plan != [] ==>
      EndsWith(Preview(plan), "...") && |Preview(plan)| == (if |plan| < PreviewLength then |plan| else PreviewLength) + 3
  {
    var p := Preview(plan);
    if plan != [] {
      assert p[..|Prefix(plan, PreviewLength)|] == Prefix(plan, PreviewLength);
      assert p[|p| - 1] == '.';
      assert NoPlan[|NoPlan| - 1] == 'n';
    }
  }

  /** `list_all_plans`. */
  function Listings<E>(records: seq<PlanRecord<E>>): (r: seq<PlanListing>)
    ensures |r| == |records|
    ensures forall k :: 0 <= k < |r| ==>
      r[k] == PlanListing(records[k].taskTitle, records[k].taskId, records[k].executionDate, Preview(records[k].plan))
  {
    if records == [] then []
    else [PlanListing(records[0].taskTitle, records[0].taskId, records[0].executionDate, Preview(records[0].plan))]
         + Listings(records[1..])
  }

  /** `find_similar_plans` given the answer of the vector index to the
      query (None when the query raised). The index answers with at most
      `topK` hits, nearest first; a `topK` below 1 is refused by the index. */
  function SimilarPlans<E, D>(records: seq<PlanRecord<E>>, topK: int, answer: Option<seq<Hit<D>>>): seq<SimilarPlan<D>>
  {
    if topK < 1 || answer.None? then []
    else
      var hits := Prefix(answer.value, topK);
      if exists k :: 0 <= k < |hits| && hits[k].index >= |records| then []
      else HitsToPlans(records, hits)
  }

  function HitsToPlans<E, D>(records: seq<PlanRecord<E>>, hits: seq<Hit<D>>): (r: seq<SimilarPlan<D>>)
    requires forall k :: 0 <= k < |hits| ==> hits[k].index < |records|
    ensures |r| == |hits|
    ensures forall k :: 0 <= k < |r| ==>
      var rec := records[hits[k].index];
      r[k] == SimilarPlan(rec.taskTitle, rec.plan, rec.taskId, rec.executionDate, hits[k].distance)
  {
    if hits == [] then []
    else
      var rec := records[hits[0].index];
      [SimilarPlan(rec.taskTitle, rec.plan, rec.taskId, rec.executionDate, hits[0].distance)]
      + HitsToPlans(records, hits[1..])
  }

  /** At most `topK` plans come back, each a stored record paired with its
      own distance, in the index's order; a failed query gives none, and a
      successful one gives one plan per hit it returns. */
  lemma SimilarPlansShape<E, D>(records: seq<PlanRecord<E>>, topK: int, answer: Option<seq<Hit<D>>>)
    ensures var r := SimilarPlans(records, topK, answer);
      && (topK < 1 || answer.None? ==> r == [])
      && |r| <= (if topK < 1 then 0 else topK)
      && (r != [] ==> forall k :: 0 <= k < |r| ==>
            && answer.Some? && k < |answer.value| && answer.value[k].index < |records|
            && r[k].similarityScore == answer.value[k].distance
            && r[k].taskTitle == records[answer.value[k].index].taskTitle
            && r[k].plan == records[answer.value[k].index].plan)
      && (topK >= 1 && answer.Some?
          && (forall k :: 0 <= k < |answer.value| && k < topK ==> answer.value[k].index < |records|) ==>
            |r| == (if |answer.value| < topK then |answer.value| else topK))
  {
  }

  /** The lines of the context for a non-empty list of similar plans. */
  function ContextLines<D>(plans: seq<SimilarPlan<D>>): seq<string>
  {
    [ContextIntro, ""] + GuideLines(plans, 1) + [ContextClosing]
  }

  function GuideHeading(i: nat, title: string): string
  {
    "### Guide " + NatToString(i) + ": " + title
  }

  /** Four lines per plan, numbered from `first`. */
  function GuideLines<D>(plans: seq<SimilarPlan<D>>, first: nat): (r: seq<string>)
    ensures |r| == 4 * |plans|
  {
    if plans == [] then []
    else [GuideHeading(first, plans[0].taskTitle), "", plans[0].plan, ""] + GuideLines(plans[1..], first + 1)
  }

  /** Lines `m` to `m + 3` of `r` are `heading`, an empty line, `body` and
      an empty line. */
  predicate BlockAt(r: seq<string>, m: nat, heading: string, body: string)
  {
    m + 3 < |r| && r[m] == heading && r[m + 1] == "" && r[m + 2] == body && r[m + 3] == ""
  }

  /** Plan k (from 0) has its heading, numbered `first + k`, on line `4k`
      and its body on line `4k + 2`, with empty lines after each. */
  lemma {:induction false} GuideLinesAt<D>(plans: seq<SimilarPlan<D>>, first: nat, k: nat)
    requires k < |plans|
    ensures BlockAt(GuideLines(plans, first), 4 * k, GuideHeading(first + k, plans[k].taskTitle), plans[k].plan)
  {
    if k == 0 {
      GuideLinesHead(plans, first);
    } else {
      GuideLinesAt(plans[1..], first + 1, k - 1);
      assert plans[1..][k - 1] == plans[k] && first + 1 + (k - 1) == first + k;
      GuideLinesStep(plans, first, k, GuideHeading(first + k, plans[k].taskTitle), plans[k].plan);
    }
  }

  lemma GuideLinesHead<D>(plans: seq<SimilarPlan<D>>, first: nat)
    requires plans != []
    ensures BlockAt(GuideLines(plans, first), 0, GuideHeading(first, plans[0].taskTitle), plans[0].plan)
  {
    var block := [GuideHeading(first, plans[0].taskTitle), "", plans[0].plan, ""];
    assert GuideLines(plans, first) == block + GuideLines(plans[1..], first + 1);
  }

  /** The block of plan `k` is the block of plan `k - 1` of the rest. */
  lemma GuideLinesStep<D>(plans: seq<SimilarPlan<D>>, first: nat, k: nat, heading: string, body: string)
    requires 0 < k < |plans|
    requires BlockAt(GuideLines(plans[1..], first + 1), 4 * (k - 1), heading, body)
    ensures BlockAt(GuideLines(plans, first), 4 * k, heading, body)
  {
    GuideLinesTail(plans, first, 4 * (k - 1));
  }

  /** Past the first block, the lines are those of the remaining plans. */
  lemma GuideLinesTail<D>(plans: seq<SimilarPlan<D>>, first: nat, m: nat)
    requires plans != [] && m + 3 < 4 * (|plans| - 1)
    ensures var r, rest := GuideLines(plans, first), GuideLines(plans[1..], first + 1);
      && r[m + 4] == rest[m] && r[m + 5] == rest[m + 1]
      && r[m + 6] == rest[m + 2] && r[m + 7] == rest[m + 3]
  {
    var block := [GuideHeading(first, plans[0].taskTitle), "", plans[0].plan, ""];
    var rest := GuideLines(plans[1..], first + 1);
    assert GuideLines(plans, first) == block + rest;
    ShiftBlock(block, rest, m);
  }

  /** Line `m + 4 + d` after a leading block of four is line `m + d` of the rest. */
  lemma ShiftBlock(block: seq<string>, rest: seq<string>, m: nat)
    requires |block| == 4 && m + 3 < |rest|
    ensures var r := block + rest;
      && r[m + 4] == rest[m] && r[m + 5] == rest[m + 1]
      && r[m + 6] == rest[m + 2] && r[m + 7] == rest[m + 3]
  {
  }

  /** `build_context_from_similar_plans`. */
  function BuildContextFromSimilarPlans<D>(plans: seq<SimilarPlan<D>>): string
  {
    if plans == [] then "" else Join("\n", ContextLines(plans))
  }

  /** The context of a non-empty list opens with the introduction, shows
      each plan under its numbered heading and its body verbatim, in input
      order, and ends with the closing sentence. */
  lemma ContextShape<D>(plans: seq<SimilarPlan<D>>)
    requires plans != []
    ensures var lines := ContextLines(plans);
      && |lines| == 4 * |plans| + 3
      && lines[0] == ContextIntro && lines[|lines| - 1] == ContextClosing
      && forall k :: 0 <= k < |plans| ==>
           lines[2 + 4 * k] == GuideHeading(k + 1, plans[k].taskTitle) && lines[4 + 4 * k] == plans[k].plan
    ensures StartsWith(BuildContextFromSimilarPlans(plans), ContextIntro)
    ensures EndsWith(BuildContextFromSimilarPlans(plans), ContextClosing)
    ensures forall k :: 0 <= k < |plans| ==> Contains(BuildContextFromSimilarPlans(plans), plans[k].plan)
  {
    ContextLinesShape(plans);
    ContextTextShape(plans);
  }

  lemma ContextLinesShape<D>(plans: seq<SimilarPlan<D>>)
    requires plans != []
    ensures var lines := ContextLines(plans);
      && |lines| == 4 * |plans| + 3
      && lines[0] == ContextIntro && lines[|lines| - 1] == ContextClosing
      && forall k :: 0 <= k < |plans| ==>
           lines[2 + 4 * k] == GuideHeading(k + 1, plans[k].taskTitle) && lines[4 + 4 * k] == plans[k].plan
  {
    var lines := ContextLines(plans);
    forall k | 0 <= k < |plans|
      ensures lines[2 + 4 * k] == GuideHeading(k + 1, plans[k].taskTitle) && lines[4 + 4 * k] == plans[k].plan
    {
      ContextLinesAt(plans, k);
    }
  }

  lemma ContextTextShape<D>(plans: seq<SimilarPlan<D>>)
    requires plans != []
    ensures StartsWith(BuildContextFromSimilarPlans(plans), ContextIntro)
    ensures EndsWith(BuildContextFromSimilarPlans(plans), ContextClosing)
    ensures forall k :: 0 <= k < |plans| ==> Contains(BuildContextFromSimilarPlans(plans), plans[k].plan)
  {
    var lines := ContextLines(plans);
    var c := BuildContextFromSimilarPlans(plans);
    assert c == Join("\n", lines);
    JoinEnds("\n", lines);
    forall k | 0 <= k < |plans|
      ensures Contains(c, plans[k].plan)
    {
      ContextLinesAt(plans, k);
      JoinShows("\n", lines, 4 + 4 * k);
    }
  }

  /** Plan k's heading and body in the context lines, after the two
      introductory lines. */
  lemma ContextLinesAt<D>(plans: seq<SimilarPlan<D>>, k: nat)
    requires k < |plans|
    ensures var lines := ContextLines(plans);
      |lines| == 4 * |plans| + 3
      && lines[2 + 4 * k] == GuideHeading(k + 1, plans[k].taskTitle) && lines[4 + 4 * k] == plans[k].plan
  {
    var g := GuideLines(plans, 1);
    GuideLinesAt(plans, 1, k);
    var lines := ContextLines(plans);
    assert lines[2 + 4 * k] == g[4 * k];
    assert lines[4 + 4 * k] == g[4 * k + 2];
  }

  /** The plan collection. `embed` is the sentence-embedding model. */
  class PlanCollection<E> {
    var records: seq<PlanRecord<E>>
    const embed: string -> E

    /** Opens the persistent collection, created empty when absent:
        `stored` are the records that earlier runs left in it. */
    constructor(embed: string -> E, stored: seq<PlanRecord<E>>)
      ensures records == stored && this.embed == embed
    {
      records := stored;
      this.embed := embed;
    }

    /** `store_successful_plan`: the items are inserted one by one;
        `insertOk[i]` says whether embedding and inserting item i succeeded
        and `stamps[i]` is the timestamp in its id. The answer is true for an
        empty dictionary and otherwise whether at least one item was stored. */
    method StoreSuccessfulPlan(plans: seq<PlanEntry>, taskId: string, executionDate: string,
                               stamps: seq<string>, insertOk: seq<bool>) returns (ok: bool)
      requires |plans| == |stamps| == |insertOk|
      modifies this
      ensures records == old(records) + Stored(embed, plans, taskId, executionDate, stamps, insertOk, |plans|)
      ensures ok <==> plans == [] || true in insertOk
    {
      if plans == [] {
        return true;
      }
      var successCount := 0;
      var totalCount := |plans|;
      for i := 0 to |plans|
        invariant records == old(records) + Stored(embed, plans, taskId, executionDate, stamps, insertOk, i)
        invariant successCount == CountTrue(insertOk, i)
      {
        if insertOk[i] {
          var doc := CreatePlanDocument(plans[i].title, plans[i].content, taskId, executionDate);
          var embedding := embed(doc.textForEmbedding);
          records := records + [PlanRecord(PlanId(taskId, plans[i].title, stamps[i]), embedding, doc.textForEmbedding,
                                           plans[i].title, plans[i].content, taskId, executionDate)];
          successCount := successCount + 1;
        }
      }
      CountTruePositive(insertOk, |plans|);
      assert insertOk[..|plans|] == insertOk;
      if successCount == totalCount {
        ok := true;
      } else if successCount > 0 {
        ok := true;
      } else {
        ok := false;
      }
    }

    /** `find_similar_plans` against the current records. */
    function FindSimilarPlans<D>(topK: int, answer: Option<seq<Hit<D>>>): seq<SimilarPlan<D>>
      reads this
    {
      SimilarPlans(records, topK, answer)
    }

    /** `get_plans_statistics`; `backendOk` is whether the database
        answers. A failure is logged and reported as no plans at all. */
    function GetPlansStatistics(backendOk: bool): (r: PlansStatistics)
      reads this
      ensures r.uniqueTaskTitles <= r.totalPlans
      ensures backendOk ==> r.totalPlans == |records| && r.taskTitles == Titles(records)
      ensures !backendOk ==> r.totalPlans == 0 && r.taskTitles == {}
    {
      StatisticsBound(records);
      if backendOk then Statistics(records) else PlansStatistics(0, 0, {})
    }

    /** `list_all_plans`; `backendOk` is whether the database answers. A
        failure is logged and gives an empty list. */
    function ListAllPlans(backendOk: bool): (r: seq<PlanListing>)
      reads this
      ensures |r| == (if backendOk then |records| else 0)
      ensures backendOk ==> forall k :: 0 <= k < |r| ==>
        r[k].taskTitle == records[k].taskTitle && r[k].planPreview == Preview(records[k].plan)
    {
      if backendOk then Listings(records) else []
    }

    /** `clear_all_plans`; `backendOk` is whether the database answers. */
    method ClearAllPlans(backendOk: bool) returns (ok: bool)
      modifies this
      ensures ok == backendOk
      ensures ok ==> records == []
      ensures !ok ==> records == old(records)
    {
      if !backendOk {
        return false;
      }
      if records != [] {
        records := [];
      }
      return true;
    }

    /** `delete_plans_by_task_title`; `backendOk` is whether the database answers. */
    method DeletePlansByTaskTitle(title: string, backendOk: bool) returns (ok: bool)
      modifies this
      ensures ok == backendOk
      ensures ok ==> records == RemoveTitle(old(records), title)
      ensures !ok ==> records == old(records)
    {
      if !backendOk {
        return false;
      }
      records := RemoveTitle(records, title);
      return true;
    }
  }
}
