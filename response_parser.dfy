/**
  The evaluator-response parser (`knowledge_management/utils/llm_response_parser.py`).

  An evaluator completion is free text holding a fenced ```json block (the
  navigation graph), a `<verdict>` section and an optional `<guide>` section.
  Each is found by a non-greedy regular expression; the model states each
  search as "first opening delimiter, then the nearest closing delimiter after
  it, contents stripped", which is what the leftmost non-greedy match returns.
  JSON decoding is a parameter: a partial function from text to a graph value.
 */
module ResponseParser {
  import opened Text

  /** The four statuses `_determine_status` can return. */
  datatype Status = Success | Failure | Impossible | Unknown

  function StatusName(s: Status): string
  {
    match s
    case Success => "SUCCESS"
    case Failure => "FAILURE"
    case Impossible => "IMPOSSIBLE"
    case Unknown => "UNKNOWN"
  }

  /** The `ValueError`s `parse` raises, one per failing stage. */
  datatype ParseError = NoGraphFound | InvalidGraphJson(detail: string) | NoVerdictFound

  /** `str(e)` of each raised `ValueError`. */
  function ErrorMessage(e: ParseError): string
  {
    match e
    case NoGraphFound => "Aucun graph de navigation JSON trouvé dans la réponse"
    case InvalidGraphJson(d) => "Erreur de parsing JSON du graph de navigation: " + d
    case NoVerdictFound => "Aucun verdict trouvé dans la réponse"
  }

  /** `ParsedLLMResponse`: the graph decoded from the JSON block, the verdict,
      the status derived from it, the guide, and the raw input. */
  datatype ParsedResponse<G> = ParsedResponse(
    navigationGraph: G,
    verdict: string,
    status: Status,
    guide: string,
    rawResponse: string)

  const JsonOpen := "```json"
  const Fence := "```"
  const VerdictOpen := "<verdict>"
  const VerdictClose := "</verdict>"
  const GuideOpen := "<guide>"
  const GuideClose := "</guide>"

  /** `re.search(open + r'\s*(.*?)\s*' + close, response, re.DOTALL)` followed
      by `group(1).strip()`: the stripped text between the first `open` and
      the nearest `close` after it, or None when there is no such pair. */
  function Section(response: string, open: string, close: string): (r: Option<string>)
  {
    match Between(response, open, close)
    case None => None
    case Some(inner) => Some(Strip(inner))
  }

  /** The raw text between the first `open` and the nearest `close` after it. */
  function Between(response: string, open: string, close: string): (r: Option<string>)
  {
    var p := FindFrom(response, open, 0);
    if p.None? then None
    else
      var c := FindFrom(response, close, p.value + |open|);
      if c.None? then None
      else Some(response[p.value + |open|..c.value])
  }

  /** The contents of a section carry no whitespace at either end. */
  lemma SectionTrimmed(response: string, open: string, close: string)
    requires Section(response, open, close).Some?
    ensures Trimmed(Section(response, open, close).value)
  {
    StripTrimmed(Between(response, open, close).value);
  }


  /** `_determine_status`: a case-insensitive substring test in the fixed
      priority order SUCCESS, FAILURE, IMPOSSIBLE. */
  function DetermineStatus(verdict: string): Status
  {
    var upper := Upper(verdict);
    if Contains(upper, "SUCCESS") then Success
    else if Contains(upper, "FAILURE") then Failure
    else if Contains(upper, "IMPOSSIBLE") then Impossible
    else Unknown
  }

  /** `_extract_guide`: a missing guide section is the empty guide, not an error. */
  function ExtractGuide(response: string): (r: string)
    ensures Section(response, GuideOpen, GuideClose).None? ==> r == ""
  {
    match Section(response, GuideOpen, GuideClose)
    case None => ""
    case Some(g) => g
  }

  /** `LLMResponseParser.parse` (and `parse_llm_evaluation_response`, which
      only builds a parser and calls it). The stages run in the order graph,
      verdict, status, guide, so a missing JSON block is reported even when
      the verdict is missing too. */
  function Parse<G>(decode: string -> Result<G, string>, response: string): (r: Result<ParsedResponse<G>, ParseError>)
    ensures r == Err(NoGraphFound) <==> Section(response, JsonOpen, Fence).None?
    ensures (r.Err? && r.error.InvalidGraphJson?) <==>
      (Section(response, JsonOpen, Fence).Some? && decode(Section(response, JsonOpen, Fence).value).Err?)
    ensures r == Err(NoVerdictFound) <==>
      (Section(response, JsonOpen, Fence).Some? && decode(Section(response, JsonOpen, Fence).value).Ok?
       && Section(response, VerdictOpen, VerdictClose).None?)
    ensures r.Ok? ==>
      && decode(Section(response, JsonOpen, Fence).value) == Ok(r.value.navigationGraph)
      && Section(response, VerdictOpen, VerdictClose) == Some(r.value.verdict)
      && r.value.status == DetermineStatus(r.value.verdict)
      && r.value.guide == ExtractGuide(response)
      && r.value.rawResponse == response
  {
    match Section(response, JsonOpen, Fence)
    case None => Err(NoGraphFound)
    case Some(json) =>
      match decode(json)
      case Err(detail) => Err(InvalidGraphJson(detail))
      case Ok(graph) =>
        match Section(response, VerdictOpen, VerdictClose)
        case None => Err(NoVerdictFound)
        case Some(verdict) =>
          Ok(ParsedResponse(graph, verdict, DetermineStatus(verdict), ExtractGuide(response), response))
  }

  /** Upper-casing after lower-casing is upper-casing. */
  lemma UpperOfLower(s: string)
    ensures Upper(Lower(s)) == Upper(s)
  {
    forall k | 0 <= k < |s|
      ensures Upper(Lower(s))[k] == Upper(s)[k]
    {
      var c := s[k];
      assert UpperChar(LowerChar(c)) == UpperChar(c);
    }
  }

  /** The status does not depend on the letter case of the verdict. */
  lemma StatusIgnoresCase(verdict: string)
    ensures DetermineStatus(Lower(verdict)) == DetermineStatus(verdict)
    ensures DetermineStatus(Upper(verdict)) == DetermineStatus(verdict)
  {
    UpperOfLower(verdict);
    assert Upper(Upper(verdict)) == Upper(verdict) by {
      forall k | 0 <= k < |verdict|
        ensures Upper(Upper(verdict))[k] == Upper(verdict)[k]
      {
        var c := verdict[k];
        assert UpperChar(UpperChar(c)) == UpperChar(c);
      }
    }
  }

  /** The priority order: a verdict that mentions success wins over any
      mention of failure or impossibility, and failure over impossibility. */
  lemma StatusPriority(verdict: string)
    ensures DetermineStatus(verdict) == Success <==> Contains(Upper(verdict), "SUCCESS")
    ensures DetermineStatus(verdict) == Failure <==>
      !Contains(Upper(verdict), "SUCCESS") && Contains(Upper(verdict), "FAILURE")
    ensures DetermineStatus(verdict) == Impossible <==>
      !Contains(Upper(verdict), "SUCCESS") && !Contains(Upper(verdict), "FAILURE")
      && Contains(Upper(verdict), "IMPOSSIBLE")
    ensures DetermineStatus(verdict) == Unknown <==>
      !Contains(Upper(verdict), "SUCCESS") && !Contains(Upper(verdict), "FAILURE")
      && !Contains(Upper(verdict), "IMPOSSIBLE")
  {
  }

  /** "Unsuccessful" contains "success": a verdict that calls the attempt
      unsuccessful, in any letter case and whatever else it says (FAILURE
      included), is classified SUCCESS. */
  lemma UnsuccessfulIsSuccess(verdict: string)
    requires Contains(Upper(verdict), "UNSUCCESSFUL")
    ensures DetermineStatus(verdict) == Success
  {
    var u := Upper(verdict);
    var k := FindFrom(u, "UNSUCCESSFUL", 0).value;
    assert u[k..k + 12] == "UNSUCCESSFUL";
    assert u[k + 2..k + 9] == "SUCCESS" by {
      forall i | 0 <= i < 7
        ensures u[k + 2..k + 9][i] == "SUCCESS"[i]
      {
        assert u[k + 2 + i] == u[k..k + 12][2 + i] == "UNSUCCESSFUL"[2 + i];
      }
    }
    ContainsAt(u, "SUCCESS", k + 2);
  }

  /** Whatever surrounds the opening delimiter, a section whose delimiters
      occur exactly once yields the stripped text between them. */
  lemma SectionOf(a: string, open: string, mid: string, close: string, b: string)
    requires !Contains(a, open)
    requires a == [] || a[|a| - 1] !in open
    requires !Contains(mid, close)
    requires mid != [] && mid[|mid| - 1] !in close
    ensures Section(a + open + mid + close + b, open, close) == Some(Strip(mid))
  {
    BetweenOf(a, open, mid, close, b);
  }

  lemma BetweenOf(a: string, open: string, mid: string, close: string, b: string)
    requires !Contains(a, open)
    requires a == [] || a[|a| - 1] !in open
    requires !Contains(mid, close)
    requires mid != [] && mid[|mid| - 1] !in close
    ensures Between(a + open + mid + close + b, open, close) == Some(mid)
  {
    var z := a + open + mid + close + b;
    OpenFound(a, open, mid, close, b);
    CloseFound(a, open, mid, close, b);
    MiddleSlice(a, open, mid, close, b);
    SectionAt(z, open, close, |a|, |a| + |open| + |mid|, mid);
  }

  lemma MiddleSlice(a: string, open: string, mid: string, close: string, b: string)
    ensures (a + open + mid + close + b)[|a| + |open|..|a| + |open| + |mid|] == mid
  {
    var z := a + open + mid + close + b;
    forall i | 0 <= i < |mid|
      ensures z[|a| + |open| + i] == mid[i]
    {
    }
  }

  lemma SectionAt(z: string, open: string, close: string, p: nat, c: nat, inner: string)
    requires FindFrom(z, open, 0) == Some(p)
    requires FindFrom(z, close, p + |open|) == Some(c)
    requires p + |open| <= c <= |z| && z[p + |open|..c] == inner
    ensures Between(z, open, close) == Some(inner)
  {
    var start := p + |open|;
    assert FindFrom(z, close, start) == Some(c);
    assert z[start..c] == inner;
  }

  lemma OpenFound(a: string, open: string, mid: string, close: string, b: string)
    requires !Contains(a, open)
    requires a == [] || a[|a| - 1] !in open
    ensures FindFrom(a + open + mid + close + b, open, 0) == Some(|a|)
  {
    assert a + open + mid + close + b == a + open + (mid + close + b);
    FirstOccurrenceAfter(a, open, mid + close + b, 0);
  }

  lemma CloseFound(a: string, open: string, mid: string, close: string, b: string)
    requires !Contains(mid, close)
    requires mid != [] && mid[|mid| - 1] !in close
    ensures FindFrom(a + open + mid + close + b, close, |a| + |open|) == Some(|a| + |open| + |mid|)
  {
    NoOccurrenceAfterPrefix(a + open, mid, close);
    FirstOccurrenceAfter(a + open + mid, close, b, |a| + |open|);
  }

  /** A completion in the format the evaluator prompt asks for: each marker
      and each section body on lines of their own. */
  function Render(json: string, verdict: string, guide: string): string
  {
    Join("\n", RenderLines(json, verdict, guide))
  }

  /** What the sections of a rendered completion may not contain for the
      parser to find them again. */
  predicate Renderable(json: string, verdict: string, guide: string)
  {
    && Trimmed(json) && Trimmed(verdict) && Trimmed(guide)
    && !Contains(json, Fence) && !Contains(json, VerdictOpen) && !Contains(json, GuideOpen)
    && !Contains(verdict, VerdictClose) && !Contains(verdict, GuideOpen)
    && !Contains(guide, GuideClose)
  }

  lemma {:induction false} StripNewlines(s: string)
    requires Trimmed(s)
    ensures Strip("\n" + s + "\n") == s
  {
    StripPadded("\n", s, "\n");
  }

  lemma EmptyAvoids(pat: string)
    requires pat != []
    ensures !Contains("", pat)
  {
    assert FindFrom("", pat, 0).None?;
  }

  /** The text that precedes line `|pre|` of a joined block of lines. */
  function LinesBefore(pre: seq<string>): string
  {
    if pre == [] then [] else Join("\n", pre) + "\n"
  }

  /** The text that follows the last line of a block followed by `post`. */
  function LinesAfter(post: seq<string>): string
  {
    if post == [] then [] else "\n" + Join("\n", post)
  }

  lemma JoinBlock(open: string, x: string, close: string)
    ensures Join("\n", [open, x, close]) == open + ("\n" + x + "\n") + close
  {
    var block := [open, x, close];
    assert block[1..] == [x, close] && [x, close][1..] == [close];
    assert Join("\n", [x, close]) == x + "\n" + close;
    assert Join("\n", block) == open + "\n" + (x + "\n" + close);
  }

  /** A block of lines followed by more lines. */
  lemma {:induction false} JoinBlockAfter(block: seq<string>, post: seq<string>)
    requires block != []
    ensures Join("\n", block + post) == Join("\n", block) + LinesAfter(post)
  {
    if post != [] {
      JoinConcat("\n", block, post);
    } else {
      assert block + post == block;
    }
  }

  /** A block of lines preceded by more lines. */
  lemma {:induction false} JoinBlockBefore(pre: seq<string>, rest: seq<string>)
    requires rest != []
    ensures Join("\n", pre + rest) == LinesBefore(pre) + Join("\n", rest)
  {
    if pre != [] {
      JoinConcat("\n", pre, rest);
    } else {
      assert pre + rest == rest;
    }
  }

  lemma {:induction false} JoinAround(pre: seq<string>, open: string, x: string, close: string, post: seq<string>)
    ensures Join("\n", pre + [open, x, close] + post)
      == LinesBefore(pre) + open + ("\n" + x + "\n") + close + LinesAfter(post)
  {
    var block := [open, x, close];
    var b, a := LinesBefore(pre), LinesAfter(post);
    JoinBlock(open, x, close);
    JoinBlockAfter(block, post);
    assert pre + block + post == pre + (block + post);
    JoinBlockBefore(pre, block + post);
    calc {
      Join("\n", pre + block + post);
      b + Join("\n", block + post);
      b + (Join("\n", block) + a);
      b + (open + ("\n" + x + "\n") + close + a);
    }
  }

  lemma {:induction false} LinesBeforeAvoid(pre: seq<string>, pat: string)
    requires pat != [] && '\n' !in pat
    requires forall k :: 0 <= k < |pre| ==> !Contains(pre[k], pat)
    ensures !Contains(LinesBefore(pre), pat)
    ensures LinesBefore(pre) == [] || LinesBefore(pre)[|LinesBefore(pre)| - 1] !in pat
  {
    EmptyAvoids(pat);
    if pre != [] {
      JoinConcat("\n", pre, [""]);
      assert forall k :: 0 <= k < |pre + [""]| ==> !Contains((pre + [""])[k], pat);
      JoinAvoidsPattern("\n", pre + [""], pat);
      assert Join("\n", pre + [""]) == LinesBefore(pre);
    }
  }

  lemma {:induction false} LineAvoids(x: string, pat: string)
    requires pat != [] && '\n' !in pat
    requires !Contains(x, pat)
    ensures !Contains("\n" + x + "\n", pat)
  {
    EmptyAvoids(pat);
    assert ["", x, ""][1..] == [x, ""] && [x, ""][1..] == [""];
    assert Join("\n", [x, ""]) == x + "\n";
    assert Join("\n", ["", x, ""]) == "\n" + x + "\n";
    JoinAvoidsPattern("\n", ["", x, ""], pat);
  }

  /** A section written on lines of its own, after lines none of which holds
      its opening marker, is found again with its body intact. */
  lemma {:induction false} SectionInLines(pre: seq<string>, open: string, x: string, close: string, post: seq<string>)
    requires open != [] && close != [] && '\n' !in open && '\n' !in close
    requires forall k :: 0 <= k < |pre| ==> !Contains(pre[k], open)
    requires !Contains(x, close) && Trimmed(x)
    ensures Section(Join("\n", pre + [open, x, close] + post), open, close) == Some(x)
  {
    JoinAround(pre, open, x, close, post);
    LinesBeforeAvoid(pre, open);
    LineAvoids(x, close);
    SectionOf(LinesBefore(pre), open, "\n" + x + "\n", close, LinesAfter(post));
    StripNewlines(x);
  }

  function RenderLines(json: string, verdict: string, guide: string): seq<string>
  {
    [JsonOpen, json, Fence, VerdictOpen, verdict, VerdictClose, GuideOpen, guide, GuideClose]
  }

  lemma MarkersApart()
    ensures !Contains(JsonOpen, VerdictOpen) && !Contains(Fence, VerdictOpen)
    ensures !Contains(JsonOpen, GuideOpen) && !Contains(Fence, GuideOpen)
    ensures !Contains(VerdictOpen, GuideOpen) && !Contains(VerdictClose, GuideOpen)
  {
    assert JsonOpen[0..7][0] != GuideOpen[0];
    assert VerdictOpen[2..9][0] != GuideOpen[0];
    assert VerdictOpen[1..8][0] != GuideOpen[0];
    assert VerdictOpen[0..7][1] != GuideOpen[1];
    assert FindFrom(VerdictOpen, GuideOpen, 2).None?;
    assert VerdictClose[3..10][0] != GuideOpen[0];
    assert VerdictClose[2..9][0] != GuideOpen[0];
    assert VerdictClose[1..8][0] != GuideOpen[0];
    assert VerdictClose[0..7][1] != GuideOpen[1];
    assert FindFrom(VerdictClose, GuideOpen, 3).None?;
  }

  /** Every marker is a non-empty single line. */
  lemma MarkerShapes()
    ensures JsonOpen != [] && '\n' !in JsonOpen && Fence != [] && '\n' !in Fence
    ensures VerdictOpen != [] && '\n' !in VerdictOpen && VerdictClose != [] && '\n' !in VerdictClose
    ensures GuideOpen != [] && '\n' !in GuideOpen && GuideClose != [] && '\n' !in GuideClose
  {
  }

  lemma VerdictAvoided(json: string)
    requires !Contains(json, VerdictOpen)
    ensures forall k :: 0 <= k < 3 ==> !Contains([JsonOpen, json, Fence][k], VerdictOpen)
  {
    MarkersApart();
  }

  lemma GuideAvoided(json: string, verdict: string)
    requires !Contains(json, GuideOpen) && !Contains(verdict, GuideOpen)
    ensures forall k :: 0 <= k < 6 ==>
      !Contains([JsonOpen, json, Fence, VerdictOpen, verdict, VerdictClose][k], GuideOpen)
  {
    MarkersApart();
  }

  lemma JsonOfRender(json: string, verdict: string, guide: string)
    requires Renderable(json, verdict, guide)
    ensures Section(Render(json, verdict, guide), JsonOpen, Fence) == Some(json)
  {
    var lines := RenderLines(json, verdict, guide);
    assert lines == [] + [JsonOpen, json, Fence] + lines[3..];
    SectionInLines([], JsonOpen, json, Fence, lines[3..]);
  }

  lemma VerdictOfRender(json: string, verdict: string, guide: string)
    requires Renderable(json, verdict, guide)
    ensures Section(Render(json, verdict, guide), VerdictOpen, VerdictClose) == Some(verdict)
  {
    var pre, post := [JsonOpen, json, Fence], [GuideOpen, guide, GuideClose];
    assert RenderLines(json, verdict, guide) == pre + [VerdictOpen, verdict, VerdictClose] + post;
    MarkerShapes();
    VerdictAvoided(json);
    SectionInLines(pre, VerdictOpen, verdict, VerdictClose, post);
  }

  lemma GuideOfRender(json: string, verdict: string, guide: string)
    requires Renderable(json, verdict, guide)
    ensures Section(Render(json, verdict, guide), GuideOpen, GuideClose) == Some(guide)
  {
    var pre := [JsonOpen, json, Fence, VerdictOpen, verdict, VerdictClose];
    assert RenderLines(json, verdict, guide) == pre + [GuideOpen, guide, GuideClose] + [];
    MarkerShapes();
    GuideAvoided(json, verdict);
    SectionInLines(pre, GuideOpen, guide, GuideClose, []);
  }

  /** Round trip: parsing a rendered completion gives back its graph, its
      verdict (and the status of that verdict), its guide and the text itself. */
  lemma ParseRender<G>(decode: string -> Result<G, string>, json: string, verdict: string, guide: string)
    requires Renderable(json, verdict, guide)
    requires decode(json).Ok?
    ensures var text := Render(json, verdict, guide);
      Parse(decode, text) == Ok(ParsedResponse(decode(json).value, verdict, DetermineStatus(verdict), guide, text))
  {
    JsonOfRender(json, verdict, guide);
    VerdictOfRender(json, verdict, guide);
    GuideOfRender(json, verdict, guide);
  }

  /** A completion without any code fence is rejected for its missing graph,
      whether or not it holds a verdict. */
  lemma NoFenceNoGraph<G>(decode: string -> Result<G, string>, response: string)
    requires !Contains(response, Fence)
    ensures Parse(decode, response) == Err(NoGraphFound)
  {
    if FindFrom(response, JsonOpen, 0).Some? {
      var k := FindFrom(response, JsonOpen, 0).value;
      assert response[k..k + |Fence|] == response[k..k + |JsonOpen|][..|Fence|];
      ContainsAt(response, Fence, k);
    }
  }
}
