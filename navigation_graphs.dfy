/** The navigation-graph store: one JSON file per website domain in a
    directory, found again by substring matching between the domain key of a
    URL and the stored file names. */
module NavigationGraphs {
  import opened Text

  const GraphSuffix := "_graph.json"
  const JsonExtension := ".json"
  const Www := "www."
  const NoPatterns := "No previous navigation patterns available for this website."
  const ContextHeader := "## Navigation graph of this website:\n"
  const MaxGraphChars := 10000
  const TruncationMarker := "...\n[Content truncated for brevity]"
  const SecondsPerDay := 86400

  // ---------------------------------------------------------------------
  // Domain keys
  // ---------------------------------------------------------------------

  predicate IsHostStop(c: char)
  {
    c == '/' || c == '?' || c == '#'
  }

  /** The authority part of what follows "://": everything up to the first
      '/', '?' or '#'. */
  function HostPrefix(s: string): (r: string)
    ensures |r| <= |s| && r == s[..|r|]
    ensures forall k :: 0 <= k < |r| ==> !IsHostStop(r[k])
    ensures |r| < |s| ==> IsHostStop(s[|r|])
  {
    if s == [] || IsHostStop(s[0]) then [] else [s[0]] + HostPrefix(s[1..])
  }

  /** `urlparse(url).netloc`: the authority after the first "://", and the
      empty string for a URL without one. */
  function Netloc(url: string): string
  {
    match FindFrom(url, "://", 0)
    case None => ""
    case Some(i) => HostPrefix(url[i + 3..])
  }

  function DropWww(host: string): string
  {
    if StartsWith(host, Www) then host[4..] else host
  }

  /** The key of a host: lower-cased, without a leading "www.", the last
      dot-label dropped and the other labels joined with '_'. A host with a
      single label is its own key. */
  function KeyOfHost(host: string): string
  {
    KeyOfDomain(DropWww(Lower(host)))
  }

  /** The labels of a domain but the last, joined with '_'; a single label
      is kept as it is. */
  function KeyOfDomain(d: string): string
  {
    var labels := Split(d, '.');
    if |labels| > 1 then Join("_", labels[..|labels| - 1]) else d
  }

  /** `_extract_domain`. */
  function DomainKey(url: string): string
  {
    KeyOfHost(Netloc(url))
  }

  /** A domain key never holds a dot, so it is one file-name component. */
  lemma KeyHasNoDot(d: string)
    ensures '.' !in KeyOfDomain(d)
  {
    var labels := Split(d, '.');
    if |labels| > 1 {
      JoinAvoids("_", labels[..|labels| - 1], '.');
    }
  }

  predicate IsLowerCase(s: string)
  {
    forall k :: 0 <= k < |s| ==> LowerChar(s[k]) == s[k]
  }

  /** A host made of two or more labels, not starting with "www." in any
      case, has as key its lower-cased labels but the last, joined with '_';
      a host already in lower case keeps its labels as they are. */
  lemma KeyDropsLastLabel(labels: seq<string>)
    requires |labels| > 1
    requires forall k :: 0 <= k < |labels| ==> '.' !in labels[k]
    requires !StartsWith(Lower(Join(".", labels)), Www)
    ensures KeyOfHost(Join(".", labels)) == Join("_", LowerAll(labels)[..|labels| - 1])
    ensures IsLowerCase(Join(".", labels)) ==> KeyOfHost(Join(".", labels)) == Join("_", labels[..|labels| - 1])
  {
    var host := Join(".", labels);
    assert KeyOfHost(host) == Join("_", LowerAll(labels)[..|labels| - 1]) by {
      KeyOfLoweredLabels(labels);
    }
    if IsLowerCase(host) {
      assert KeyOfHost(host) == Join("_", labels[..|labels| - 1]) by {
        KeyOfLowerCaseLabels(labels);
      }
    }
  }

  lemma KeyOfLowerCaseLabels(labels: seq<string>)
    requires |labels| > 1
    requires forall k :: 0 <= k < |labels| ==> '.' !in labels[k]
    requires IsLowerCase(Join(".", labels)) && !StartsWith(Lower(Join(".", labels)), Www)
    ensures KeyOfHost(Join(".", labels)) == Join("_", labels[..|labels| - 1])
  {
    var host := Join(".", labels);
    assert Lower(host) == host;
    KeyOfJoinedDomain(labels);
  }

  lemma KeyOfLoweredLabels(labels: seq<string>)
    requires |labels| > 1
    requires forall k :: 0 <= k < |labels| ==> '.' !in labels[k]
    requires !StartsWith(Lower(Join(".", labels)), Www)
    ensures KeyOfHost(Join(".", labels)) == Join("_", LowerAll(labels)[..|labels| - 1])
  {
    var lowered := LowerAll(labels);
    LowerJoin(".", labels);
    LoweredLabelsHaveNoDot(labels);
    KeyOfJoinedNoWww(lowered);
    KeyOfLoweredHost(Join(".", labels), Join(".", lowered));
  }

  lemma LoweredLabelsHaveNoDot(labels: seq<string>)
    requires forall k :: 0 <= k < |labels| ==> '.' !in labels[k]
    ensures forall k :: 0 <= k < |labels| ==> '.' !in LowerAll(labels)[k]
  {
    forall k | 0 <= k < |labels|
      ensures '.' !in LowerAll(labels)[k]
    {
      LowerKeepsDot(labels[k]);
    }
  }

  lemma KeyOfLoweredHost(host: string, lowered: string)
    requires Lower(host) == lowered
    ensures KeyOfHost(host) == KeyOfDomain(DropWww(lowered))
  {
  }

  lemma KeyOfJoinedNoWww(labels: seq<string>)
    requires |labels| > 1
    requires forall k :: 0 <= k < |labels| ==> '.' !in labels[k]
    requires !StartsWith(Join(".", labels), Www)
    ensures KeyOfDomain(DropWww(Join(".", labels))) == Join("_", labels[..|labels| - 1])
  {
    KeyOfJoinedDomain(labels);
  }

  lemma KeyOfJoinedDomain(labels: seq<string>)
    requires |labels| > 1
    requires forall k :: 0 <= k < |labels| ==> '.' !in labels[k]
    ensures KeyOfDomain(Join(".", labels)) == Join("_", labels[..|labels| - 1])
  {
    JoinSplit(labels, '.');
  }

  /** A host without a dot is its own key, lower-cased. */
  lemma SingleLabelKey(host: string)
    requires '.' !in host
    ensures KeyOfHost(host) == Lower(host)
  {
    LowerKeepsDot(host);
    KeyOfPlainLabel(Lower(host));
  }

  lemma KeyOfPlainLabel(d: string)
    requires '.' !in d
    ensures KeyOfDomain(DropWww(d)) == d
  {
    if |d| >= 4 {
      assert d[..4][3] == d[3] != '.';
    }
  }

  /** Two URLs that differ only in letter case have the same key. */
  lemma KeyIgnoresCase(u: string, v: string)
    requires Lower(u) == Lower(v)
    ensures DomainKey(u) == DomainKey(v)
  {
    NetlocLower(u);
    NetlocLower(v);
    assert KeyOfHost(Netloc(u)) == KeyOfDomain(DropWww(Netloc(Lower(u))));
  }

  /** The key does not see the case of the host: lower-casing the URL
      lower-cases its authority. */
  lemma NetlocLower(url: string)
    ensures Lower(Netloc(url)) == Netloc(Lower(url))
  {
    FindFromLower(url, 0);
    var found := FindFrom(url, "://", 0);
    if found.Some? {
      var i := found.value;
      assert Lower(url)[i + 3..] == Lower(url[i + 3..]);
      HostPrefixLower(url[i + 3..]);
    }
  }

  lemma {:induction false} FindFromLower(s: string, i: nat)
    decreases |s| - i
    ensures FindFrom(Lower(s), "://", i) == FindFrom(s, "://", i)
  {
    if i + 3 <= |s| {
      WindowLower(s, i);
      if s[i..i + 3] != "://" {
        FindFromLower(s, i + 1);
      }
    }
  }

  /** "://" holds no letter, so lower-casing neither makes nor breaks it. */
  lemma WindowLower(s: string, i: nat)
    requires i + 3 <= |s|
    ensures Lower(s)[i..i + 3] == "://" <==> s[i..i + 3] == "://"
  {
    var l := Lower(s);
    LowerKeepsPunctuation(s[i]);
    LowerKeepsPunctuation(s[i + 1]);
    LowerKeepsPunctuation(s[i + 2]);
    SchemeSeparatorAt(s, i);
    SchemeSeparatorAt(l, i);
  }

  lemma LowerKeepsPunctuation(c: char)
    ensures LowerChar(c) == ':' <==> c == ':'
    ensures LowerChar(c) == '/' <==> c == '/'
  {
  }

  lemma SchemeSeparatorAt(s: string, i: nat)
    requires i + 3 <= |s|
    ensures s[i..i + 3] == "://" <==> s[i] == ':' && s[i + 1] == '/' && s[i + 2] == '/'
  {
    if s[i] == ':' && s[i + 1] == '/' && s[i + 2] == '/' {
      assert s[i..i + 3] == [s[i], s[i + 1], s[i + 2]];
    }
  }

  lemma {:induction false} HostPrefixLower(s: string)
    ensures Lower(HostPrefix(s)) == HostPrefix(Lower(s))
  {
    if s != [] {
      assert Lower(s)[1..] == Lower(s[1..]);
      HostPrefixLower(s[1..]);
      if !IsHostStop(s[0]) {
        LowerAppend([s[0]], HostPrefix(s[1..]));
      }
    }
  }

  /** Lower-casing neither adds nor removes a dot. */
  lemma LowerKeepsDot(s: string)
    ensures '.' in Lower(s) <==> '.' in s
  {
    if '.' in Lower(s) {
      var k :| 0 <= k < |s| && Lower(s)[k] == '.';
    }
    if '.' in s {
      var k :| 0 <= k < |s| && s[k] == '.';
      assert Lower(s)[k] == '.';
    }
  }

  /** Two URLs that differ only by "www." in front of the host share a key. */
  lemma WwwIgnored(scheme: string, rest: string)
    requires ':' !in scheme && '/' !in scheme
    requires !StartsWith(Lower(rest), Www)
    ensures DomainKey(scheme + "://" + (Www + rest)) == DomainKey(scheme + "://" + rest)
  {
    NetlocWww(scheme, rest);
    NetlocAfterScheme(scheme, rest);
    LowerPrefixStart(HostPrefix(rest), rest);
    KeyOfHostWww(HostPrefix(rest));
  }

  lemma NetlocWww(scheme: string, rest: string)
    requires ':' !in scheme && '/' !in scheme
    ensures Netloc(scheme + "://" + (Www + rest)) == Www + HostPrefix(rest)
  {
    NetlocAfterScheme(scheme, Www + rest);
    WwwHasNoStop();
    HostPrefixAfter(Www, rest);
  }

  lemma WwwHasNoStop()
    ensures forall k :: 0 <= k < |Www| ==> !IsHostStop(Www[k])
  {
  }

  lemma KeyOfHostWww(h: string)
    requires !StartsWith(Lower(h), Www)
    ensures KeyOfHost(Www + h) == KeyOfHost(h)
  {
    LowerAppend(Www, h);
    LowerWww();
    ConcatParts(Www, Lower(h));
    assert DropWww(Lower(Www + h)) == Lower(h);
  }

  lemma LowerWww()
    ensures Lower(Www) == Www && |Www| == 4
  {
  }

  /** The lower-cased prefix of a string that does not start with "www."
      in lower case does not either. */
  lemma LowerPrefixStart(h: string, s: string)
    requires |h| <= |s| && h == s[..|h|]
    requires !StartsWith(Lower(s), Www)
    ensures !StartsWith(Lower(h), Www)
  {
    if |h| >= 4 {
      assert Lower(s)[..4] == Lower(h)[..4];
    }
  }

  lemma NetlocAfterScheme(scheme: string, rest: string)
    requires ':' !in scheme && '/' !in scheme
    ensures Netloc(scheme + "://" + rest) == HostPrefix(rest)
  {
    forall k | 0 <= k
      ensures !OccursAt(scheme, "://", k)
    {
      if OccursAt(scheme, "://", k) {
        OccursFirstChar(scheme, "://", k);
      }
    }
    FirstOccurrenceAfter(scheme, "://", rest, 0);
    assert (scheme + "://" + rest)[|scheme| + 3..] == rest;
  }

  lemma OccursFirstChar(s: string, pat: string, k: int)
    requires OccursAt(s, pat, k) && pat != []
    ensures s[k] == pat[0]
  {
    assert s[k..k + |pat|][0] == s[k];
  }

  lemma {:induction false} HostPrefixAfter(p: string, s: string)
    requires forall k :: 0 <= k < |p| ==> !IsHostStop(p[k])
    ensures HostPrefix(p + s) == p + HostPrefix(s)
  {
    if p != [] {
      HostPrefixAfter(p[1..], s);
      HeadTail(p, s);
      HostPrefixCons(p[0], p[1..] + s);
      HeadTail(p, HostPrefix(s));
    } else {
      assert p + s == s && p + HostPrefix(s) == HostPrefix(s);
    }
  }

  lemma HostPrefixCons(c: char, t: string)
    requires !IsHostStop(c)
    ensures HostPrefix([c] + t) == [c] + HostPrefix(t)
  {
    assert ([c] + t)[1..] == t;
  }

  // ---------------------------------------------------------------------
  // Looking a key up among the stored file names
  // ---------------------------------------------------------------------

  /** The names the directory glob `*_graph.json` yields. */
  predicate IsGraphName(name: string)
  {
    EndsWith(name, GraphSuffix)
  }

  /** `Path.stem`: the name without its ".json" extension. */
  function Stem(name: string): string
    requires IsGraphName(name)
  {
    name[..|name| - |JsonExtension|]
  }

  /** The first '_'-separated segment of a key. */
  function MainSegment(key: string): string
  {
    if '_' in key then Split(key, '_')[0] else key
  }

  /** Whether a listed file qualifies: in the first pass its stem contains
      the key or lies inside it; in the second (flexible) pass its stem
      contains the key's main segment. */
  predicate Candidate(name: string, key: string, flexible: bool)
  {
    && IsGraphName(name)
    && if flexible then Contains(Stem(name), MainSegment(key))
       else Contains(Stem(name), key) || Contains(key, Stem(name))
  }

  /** Index of the first qualifying name at or after `i`. */
  function FirstCandidate(names: seq<string>, key: string, flexible: bool, i: nat): (r: Option<nat>)
    decreases |names| - i
    ensures r.Some? ==> i <= r.value < |names| && Candidate(names[r.value], key, flexible)
    ensures r.Some? ==> forall j :: i <= j < r.value ==> !Candidate(names[j], key, flexible)
    ensures r.None? ==> forall j :: i <= j < |names| ==> !Candidate(names[j], key, flexible)
  {
    if i >= |names| then None
    else if Candidate(names[i], key, flexible) then Some(i)
    else FirstCandidate(names, key, flexible, i + 1)
  }

  /** `_find_graph_file_by_domain` on the key of the URL. */
  function FindGraphFile(names: seq<string>, key: string): Option<string>
  {
    match FirstCandidate(names, key, false, 0)
    case Some(k) => Some(names[k])
    case None =>
      match FirstCandidate(names, key, true, 0)
      case Some(k) => Some(names[k])
      case None => None
  }

  /** The lookup answers with a listed graph file; it prefers a direct match,
      in listing order, over a flexible one, and fails only when neither
      pass finds anything. */
  lemma FindGraphFileChoice(names: seq<string>, key: string)
    ensures var r := FindGraphFile(names, key);
      && (r.Some? ==> r.value in names && IsGraphName(r.value))
      && ((exists k :: 0 <= k < |names| && Candidate(names[k], key, false)) ==>
            r.Some? && Candidate(r.value, key, false))
      && ((forall k :: 0 <= k < |names| ==> !Candidate(names[k], key, false)) ==>
            r == (match FirstCandidate(names, key, true, 0)
                  case Some(k) => Some(names[k])
                  case None => None))
      && (r.None? <==> forall k :: 0 <= k < |names| ==>
            !Candidate(names[k], key, false) && !Candidate(names[k], key, true))
  {
    if FirstCandidate(names, key, false, 0).None? && FirstCandidate(names, key, true, 0).Some? {
      var k := FirstCandidate(names, key, true, 0).value;
      assert Candidate(names[k], key, true);
    }
  }

  /** The file name a graph for `url` is saved under. */
  function GraphFileName(url: string): string
  {
    DomainKey(url) + GraphSuffix
  }

  /** Once a graph has been saved for a URL, looking that URL up finds a file
      (its own, or an earlier-listed one that also matches). */
  lemma SavedIsFound(names: seq<string>, url: string)
    requires GraphFileName(url) in names
    ensures FindGraphFile(names, DomainKey(url)).Some?
  {
    KeyFileFound(names, DomainKey(url));
  }

  /** A listed file named after a key is a direct candidate for that key. */
  lemma KeyFileFound(names: seq<string>, key: string)
    requires key + GraphSuffix in names
    ensures FindGraphFile(names, key).Some?
  {
    var name := key + GraphSuffix;
    var k :| 0 <= k < |names| && names[k] == name;
    assert name[|name| - |GraphSuffix|..] == GraphSuffix;
    assert Stem(name)[..|key|] == key;
    ContainsAt(Stem(name), key, 0);
    assert Candidate(names[k], key, false);
  }

  // ---------------------------------------------------------------------
  // The prompt context
  // ---------------------------------------------------------------------

  datatype GraphFile = GraphFile(content: string, mtime: int)

  /** One entry of `find_navigation_graphs_for_website`. */
  datatype GraphEntry = GraphEntry(filePath: string, graphContent: string, fileTime: int, websiteUrl: string)

  /** A graph's content as it enters the prompt: at most `MaxGraphChars`
      characters of it, then a truncation marker when it was cut. */
  function Truncated(content: string): string
  {
    if |content| > MaxGraphChars then content[..MaxGraphChars] + TruncationMarker else content
  }

  /** A graph short enough enters whole; a longer one is cut to exactly
      `MaxGraphChars` characters of its start, followed by the marker. */
  lemma TruncatedShape(content: string)
    ensures |Truncated(content)| <= MaxGraphChars + |TruncationMarker|
    ensures StartsWith(Truncated(content), Prefix(content, MaxGraphChars))
    ensures |content| <= MaxGraphChars ==> Truncated(content) == content
    ensures |content| > MaxGraphChars ==>
      |Truncated(content)| == MaxGraphChars + |TruncationMarker| && EndsWith(Truncated(content), TruncationMarker)
  {
    var t := Truncated(content);
    if |content| > MaxGraphChars {
      assert t[..MaxGraphChars] == content[..MaxGraphChars];
      assert t[|t| - |TruncationMarker|..] == TruncationMarker;
    }
  }

  function TruncatedContents(graphs: seq<GraphEntry>): (r: seq<string>)
    ensures |r| == |graphs|
    ensures forall i :: 0 <= i < |graphs| ==> r[i] == Truncated(graphs[i].graphContent)
  {
    if graphs == [] then [] else [Truncated(graphs[0].graphContent)] + TruncatedContents(graphs[1..])
  }

  /** The lines of the context: the header, then the first `maxGraphs`
      graphs (Python slice semantics) in input order. */
  function ContextParts(graphs: seq<GraphEntry>, maxGraphs: int): seq<string>
  {
    [ContextHeader] + TruncatedContents(PySlicePrefix(graphs, maxGraphs))
  }

  /** `build_navigation_context`. */
  function NavigationContext(graphs: seq<GraphEntry>, maxGraphs: int): string
  {
    if graphs == [] then NoPatterns else Join("\n", ContextParts(graphs, maxGraphs))
  }

  /** A non-empty list gives a context that opens with the header, shows
      every selected graph (truncated), and selects at most `maxGraphs` of
      them, the first ones. */
  lemma NavigationContextShape(graphs: seq<GraphEntry>, maxGraphs: int)
    requires graphs != []
    ensures StartsWith(NavigationContext(graphs, maxGraphs), ContextHeader)
    ensures |ContextParts(graphs, maxGraphs)| - 1 <= |graphs|
    ensures maxGraphs >= 0 ==> |ContextParts(graphs, maxGraphs)| - 1 <= maxGraphs
    ensures forall i :: 0 <= i < |graphs| && (maxGraphs < 0 || i < maxGraphs) && i < |graphs| + maxGraphs ==>
      Contains(NavigationContext(graphs, maxGraphs), Truncated(graphs[i].graphContent))
  {
    var parts := ContextParts(graphs, maxGraphs);
    assert NavigationContext(graphs, maxGraphs) == Join("\n", parts);
    JoinEnds("\n", parts);
    forall i | 0 <= i < |graphs| && (maxGraphs < 0 || i < maxGraphs) && i < |graphs| + maxGraphs
      ensures Contains(NavigationContext(graphs, maxGraphs), Truncated(graphs[i].graphContent))
    {
      var c := Truncated(graphs[i].graphContent);
      ContextPartAt(graphs, maxGraphs, i);
      assert parts[i + 1] == c;
      JoinShows("\n", parts, i + 1);
      assert Contains(Join("\n", parts), c);
    }
  }

  /** Part `i + 1` of the context is graph `i`, cut, when the slice keeps it. */
  lemma ContextPartAt(graphs: seq<GraphEntry>, maxGraphs: int, i: nat)
    requires i < |graphs| && (maxGraphs < 0 || i < maxGraphs) && i < |graphs| + maxGraphs
    ensures i + 1 < |ContextParts(graphs, maxGraphs)|
    ensures ContextParts(graphs, maxGraphs)[i + 1] == Truncated(graphs[i].graphContent)
  {
    var selected := PySlicePrefix(graphs, maxGraphs);
    assert i < |selected| && selected[i] == graphs[i];
    ConsIndex(ContextHeader, TruncatedContents(selected), i);
  }

  /** `build_navigation_context`, appending the parts one graph at a time. */
  method BuildNavigationContext(graphs: seq<GraphEntry>, maxGraphs: int) returns (r: string)
    ensures r == NavigationContext(graphs, maxGraphs)
  {
    if graphs == [] {
      return NoPatterns;
    }
    var selected := PySlicePrefix(graphs, maxGraphs);
    var parts := [ContextHeader];
    for i := 0 to |selected|
      invariant parts == [ContextHeader] + TruncatedContents(selected[..i])
    {
      var content := selected[i].graphContent;
      if |content| > MaxGraphChars {
        content := content[..MaxGraphChars] + TruncationMarker;
      }
      assert content == Truncated(selected[i].graphContent);
      TruncatedContentsSnoc(selected, i);
      parts := parts + [content];
    }
    assert selected[..|selected|] == selected;
    assert parts == ContextParts(graphs, maxGraphs);
    r := Join("\n", parts);
  }

  lemma TruncatedContentsSnoc(graphs: seq<GraphEntry>, i: nat)
    requires i < |graphs|
    ensures TruncatedContents(graphs[..i + 1]) == TruncatedContents(graphs[..i]) + [Truncated(graphs[i].graphContent)]
  {
    var a, b := TruncatedContents(graphs[..i + 1]), TruncatedContents(graphs[..i]) + [Truncated(graphs[i].graphContent)];
    assert |a| == |b|;
    forall k | 0 <= k < |a|
      ensures a[k] == b[k]
    {
      if k < i {
        assert graphs[..i + 1][k] == graphs[..i][k];
      }
    }
  }

  /** `find_navigation_graphs_for_website` on given directory contents: the
      matched file, if it exists and is not older than `maxAgeDays` days
      before `now` (seconds). */
  function GraphsFor(dir: string, files: map<string, GraphFile>, names: seq<string>,
                     url: string, maxAgeDays: int, now: int, readOk: bool): seq<GraphEntry>
  {
    match FindGraphFile(names, DomainKey(url))
    case None => []
    case Some(name) =>
      if name in files && readOk && files[name].mtime >= now - maxAgeDays * SecondsPerDay
      then [GraphEntry(dir + "/" + name, files[name].content, files[name].mtime, url)]
      else []
  }

  /** At most one graph is returned; it is the looked-up file's content,
      and only a file modified at or after the cutoff is returned. */
  lemma GraphsForShape(dir: string, files: map<string, GraphFile>, names: seq<string>,
                       url: string, maxAgeDays: int, now: int, readOk: bool)
    ensures var r := GraphsFor(dir, files, names, url, maxAgeDays, now, readOk);
      && |r| <= 1
      && (!readOk ==> r == [])
      && (|r| == 1 <==> (FindGraphFile(names, DomainKey(url)).Some?
                         && FindGraphFile(names, DomainKey(url)).value in files && readOk
                         && files[FindGraphFile(names, DomainKey(url)).value].mtime >= now - maxAgeDays * SecondsPerDay))
      && (|r| == 1 ==> r[0].graphContent == files[FindGraphFile(names, DomainKey(url)).value].content
                       && r[0].fileTime >= now - maxAgeDays * SecondsPerDay
                       && r[0].websiteUrl == url)
  {
  }

  // ---------------------------------------------------------------------
  // The directory
  // ---------------------------------------------------------------------

  /** How far writing a graph file gets: the file cannot be opened; it is
      opened (created or truncated) and the serialization raises after
      writing `partial`; or the whole graph is written. */
  datatype WriteOutcome = OpenFailed | DumpFailed(partial: string) | Written

  /** The graphs directory: file contents by name, and the order in which
      a listing of the directory yields the names. */
  class GraphDirectory {
    const dir: string
    var files: map<string, GraphFile>
    var listing: seq<string>

    ghost predicate Valid()
      reads this
    {
      && (forall i, j :: 0 <= i < j < |listing| ==> listing[i] != listing[j])
      && (forall n :: n in files <==> n in listing)
    }

    /** Attaches to the directory `dir` as it is found: `stored` are the
        graph files left there by earlier runs and `found` the order in
        which a listing yields their names. A directory that does not yet
        exist is created empty. */
    constructor(dir: string, stored: map<string, GraphFile>, found: seq<string>)
      requires forall i, j :: 0 <= i < j < |found| ==> found[i] != found[j]
      requires forall n :: n in stored <==> n in found
      ensures Valid()
      ensures this.dir == dir && files == stored && listing == found
    {
      this.dir := dir;
      files := stored;
      listing := found;
    }

    /** Writes (creates or overwrites) one file; `now` is its modification time. */
    method WriteFile(name: string, content: string, now: int)
      requires Valid()
      modifies this
      ensures Valid()
      ensures files == old(files)[name := GraphFile(content, now)]
      ensures listing == if name in old(files) then old(listing) else old(listing) + [name]
    {
      if name !in files {
        listing := listing + [name];
      }
      files := files[name := GraphFile(content, now)];
    }

    /** `_find_graph_file_by_domain`: two passes over the listing, each
        returning at the first qualifying name. */
    method FindGraphFileByDomain(url: string) returns (r: Option<string>)
      ensures r == FindGraphFile(listing, DomainKey(url))
    {
      r := FindGraphFileByKey(DomainKey(url));
    }

    /** The two passes over the listing, each returning at its first match. */
    method FindGraphFileByKey(key: string) returns (r: Option<string>)
      ensures r == FindGraphFile(listing, key)
    {
      r := DirectPass(key);
      if r.None? {
        r := FlexiblePass(key);
      }
    }

    /** The first pass: a stem containing the key or contained in it. */
    method DirectPass(key: string) returns (r: Option<string>)
      ensures r == match FirstCandidate(listing, key, false, 0)
                   case Some(k) => Some(listing[k])
                   case None => None
    {
      var i := 0;
      while i < |listing|
        invariant 0 <= i <= |listing|
        invariant FirstCandidate(listing, key, false, 0) == FirstCandidate(listing, key, false, i)
      {
        var name := listing[i];
        if IsGraphName(name) {
          var stem := Stem(name);
          if Contains(stem, key) {
            return Some(name);
          }
          if Contains(key, stem) {
            return Some(name);
          }
        }
        i := i + 1;
      }
      return None;
    }

    /** The second pass: a stem containing the key's main segment. */
    method FlexiblePass(key: string) returns (r: Option<string>)
      ensures r == match FirstCandidate(listing, key, true, 0)
                   case Some(k) => Some(listing[k])
                   case None => None
    {
      var main := MainSegment(key);
      var i := 0;
      while i < |listing|
        invariant 0 <= i <= |listing|
        invariant FirstCandidate(listing, key, true, 0) == FirstCandidate(listing, key, true, i)
      {
        var name := listing[i];
        if IsGraphName(name) && Contains(Stem(name), main) {
          return Some(name);
        }
        assert !Candidate(name, key, true);
        i := i + 1;
      }
      return None;
    }

    /** `find_navigation_graphs_for_website`, with the clock as a parameter. */
    method FindNavigationGraphsForWebsite(url: string, maxAgeDays: int, now: int, readOk: bool) returns (r: seq<GraphEntry>)
      ensures r == GraphsFor(dir, files, listing, url, maxAgeDays, now, readOk)
    {
      var cutoff := now - maxAgeDays * SecondsPerDay;
      var target := FindGraphFileByDomain(url);
      r := [];
      if target.Some? && target.value in files && readOk {
        var file := files[target.value];
        if file.mtime >= cutoff {
          r := [GraphEntry(dir + "/" + target.value, file.content, file.mtime, url)];
        }
      }
    }

    /** `save_navigation_graph`: opens the domain's file for writing, which
        creates or truncates it, then streams the serialized graph into it.
        `write` says how far this gets; a serialization that raises midway
        leaves the file with the text written so far. */
    method SaveNavigationGraph(content: string, url: string, now: int, write: WriteOutcome) returns (ok: bool)
      requires Valid()
      modifies this
      ensures Valid()
      ensures ok <==> write.Written?
      ensures write.Written? ==> files == old(files)[GraphFileName(url) := GraphFile(content, now)]
      ensures write.DumpFailed? ==> files == old(files)[GraphFileName(url) := GraphFile(write.partial, now)]
      ensures !write.OpenFailed? ==> GraphFileName(url) in listing
      ensures !write.OpenFailed? ==>
        listing == (if GraphFileName(url) in old(files) then old(listing) else old(listing) + [GraphFileName(url)])
      ensures write.OpenFailed? ==> files == old(files) && listing == old(listing)
    {
      match write
      case OpenFailed =>
        ok := false;
      case DumpFailed(partial) =>
        WriteFile(GraphFileName(url), partial, now);
        ok := false;
      case Written =>
        WriteFile(GraphFileName(url), content, now);
        ok := true;
    }
  }
}
