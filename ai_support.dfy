/** The issue-prioritisation engine of the AI support assistant: flattening
    the analyzers' issue lists into one list, ranking it, picking quick wins,
    estimating fix time, gating tutorial generation on configuration, and the
    local knowledge-base lookup. Issue records are values here; the HTTP
    exchange with the language-model service is an input. */
module AiSupport {
  import opened Prelude
  import opened Sequences

  // ---------------------------------------------------------------------------
  // Data model

  /** A value stored under a record key: a string or Python's `None`. */
  datatype Value = Text(s: string) | Null

  /** An issue record, reduced to the keys this component reads or writes.
      `None` means the key is absent. */
  datatype Issue = Issue(
    title: Option<string>,
    description: Option<string>,
    severity: Option<Value>,
    category: Option<string>)

  /** An element of an analyzer's `issues` list. Analyzers normally store
      mappings; the Core Web Vitals analyzer stores a plain message on error. */
  datatype Entry = Mapping(issue: Issue) | Message(text: string)

  /** What an analysis key maps to: a mapping, which may hold an `issues`
      list (`None` when that key is absent), or some other value. */
  datatype AnalyzerData = Record(issues: Option<seq<Entry>>) | NotMapping

  type AnalysisResults = map<string, AnalyzerData>

  /** The analysis keys whose issues are collected, in collection order. */
  const Analyzers: seq<string> := [
    "performance", "security", "seo", "coding_standards",
    "user_friendliness", "mobile_optimization", "accessibility",
    "advanced_metrics", "core_web_vitals"]

  function TitleOr(issue: Issue, default: string): string
  {
    match issue.title
    case Some(t) => t
    case None => default
  }

  // ---------------------------------------------------------------------------
  // Extraction

  /** The issue list stored under `name`, or nothing when the key is missing,
      its value is not a mapping, or the mapping has no `issues` key. */
  function EntriesOf(results: AnalysisResults, name: string): seq<Entry>
  {
    if name in results && results[name].Record? && results[name].issues.Some?
    then results[name].issues.value
    else []
  }

  predicate AllMappings(entries: seq<Entry>)
  {
    forall e :: e in entries ==> e.Mapping?
  }

  /** Every collected issue list holds only mappings; a plain string in one
      of them makes the assignment of its `category` raise. */
  predicate EntriesAreMappings(results: AnalysisResults)
  {
    forall n :: 0 <= n < |Analyzers| ==> AllMappings(EntriesOf(results, Analyzers[n]))
  }

  /** The issue as it is after extraction: its category set to the analysis
      key, and a severity of "medium" written only when the key is absent. */
  function Tag(issue: Issue, name: string): Issue
  {
    issue.(category := Some(name),
           severity := if issue.severity.None? then Some(Text("medium")) else issue.severity)
  }

  function TagAll(entries: seq<Entry>, name: string): (r: seq<Issue>)
    requires AllMappings(entries)
    ensures |r| == |entries|
    ensures forall k :: 0 <= k < |r| ==> r[k].severity.Some? && r[k].category == Some(name)
    ensures forall k :: 0 <= k < |r| ==>
              var i := entries[k].issue;
              r[k].title == i.title && r[k].description == i.description &&
              r[k].category == Some(name) &&
              (i.severity.Some? ==> r[k].severity == i.severity) &&
              (i.severity.None? ==> r[k].severity == Some(Text("medium")))
  {
    if entries == [] then []
    else TagAll(entries[..|entries| - 1], name) + [Tag(entries[|entries| - 1].issue, name)]
  }

  /** The extracted issues of one analysis key. */
  function CategoryIssues(results: AnalysisResults, name: string): seq<Issue>
    requires AllMappings(EntriesOf(results, name))
  {
    TagAll(EntriesOf(results, name), name)
  }

  /** The extracted issues of the first `n` analysis keys. */
  function ExtractUpTo(results: AnalysisResults, n: nat): seq<Issue>
    requires n <= |Analyzers| && EntriesAreMappings(results)
  {
    if n == 0 then []
    else ExtractUpTo(results, n - 1) + CategoryIssues(results, Analyzers[n - 1])
  }

  function Extracted(results: AnalysisResults): seq<Issue>
    requires EntriesAreMappings(results)
  {
    ExtractUpTo(results, |Analyzers|)
  }

  /** `_extract_all_issues`: visits the analysis keys in list order and
      appends each of their issues, tagged, in stored order. */
  method ExtractAllIssues(results: AnalysisResults) returns (issues: seq<Issue>)
    requires EntriesAreMappings(results)
    ensures issues == Extracted(results)
  {
    issues := [];
    var n := 0;
    while n < |Analyzers|
      invariant 0 <= n <= |Analyzers|
      invariant issues == ExtractUpTo(results, n)
    {
      var name := Analyzers[n];
      ghost var cat := CategoryIssues(results, name);
      ghost var next := ExtractUpTo(results, n + 1);
      assert next == issues + cat;
      if name in results && results[name].Record? && results[name].issues.Some? {
        var entries := results[name].issues.value;
        assert cat == TagAll(entries, name);
        issues := AppendTagged(issues, entries, name);
      } else {
        assert cat == [];
        assert issues + cat == issues;
      }
      assert issues == next;
      n := n + 1;
    }
  }

  /** The inner loop of `_extract_all_issues`: tags each entry of one list
      and appends it. */
  method AppendTagged(issues: seq<Issue>, entries: seq<Entry>, name: string) returns (out: seq<Issue>)
    requires AllMappings(entries)
    ensures out == issues + TagAll(entries, name)
  {
    out := issues;
    var k := 0;
    while k < |entries|
      invariant 0 <= k <= |entries|
      invariant out == issues + TagAll(entries[..k], name)
    {
      assert entries[..k + 1][..k] == entries[..k];
      out := out + [Tag(entries[k].issue, name)];
      k := k + 1;
    }
    assert entries[..k] == entries;
  }

  /** The issue has a severity key and one of `names` as its category. */
  predicate TaggedBy(issue: Issue, names: seq<string>)
  {
    issue.severity.Some? && issue.category.Some? && issue.category.value in names
  }

  /** Every extracted issue carries one of the nine analysis keys as its
      category and has a severity key. */
  lemma {:induction false} ExtractedFields(results: AnalysisResults, n: nat)
    requires n <= |Analyzers| && EntriesAreMappings(results)
    ensures forall k :: 0 <= k < |ExtractUpTo(results, n)| ==> TaggedBy(ExtractUpTo(results, n)[k], Analyzers[..n])
  {
    if n > 0 {
      ExtractedFields(results, n - 1);
      var prev: seq<Issue> := ExtractUpTo(results, n - 1);
      var cat: seq<Issue> := CategoryIssues(results, Analyzers[n - 1]);
      var all: seq<Issue> := prev + cat;
      var names := Analyzers[..n];
      assert names == Analyzers[..n - 1] + [Analyzers[n - 1]];
      forall k | 0 <= k < |all|
        ensures TaggedBy(all[k], names)
      {
        if k < |prev| {
          assert all[k] == prev[k] && TaggedBy(prev[k], Analyzers[..n - 1]);
        } else {
          assert all[k] == cat[k - |prev|];
        }
      }
    }
  }

  /** Extraction reads nothing but the issue lists of the nine keys. */
  lemma {:induction false} ExtractReadsOnlyAnalyzerKeys(r1: AnalysisResults, r2: AnalysisResults, n: nat)
    requires n <= |Analyzers| && EntriesAreMappings(r1)
    requires forall j :: 0 <= j < |Analyzers| ==> EntriesOf(r1, Analyzers[j]) == EntriesOf(r2, Analyzers[j])
    ensures EntriesAreMappings(r2)
    ensures ExtractUpTo(r1, n) == ExtractUpTo(r2, n)
  {
    if n > 0 {
      ExtractReadsOnlyAnalyzerKeys(r1, r2, n - 1);
    }
  }

  /** Adding or changing a key outside the nine changes nothing. */
  lemma UnknownKeyIgnored(results: AnalysisResults, key: string, v: AnalyzerData)
    requires EntriesAreMappings(results) && key !in Analyzers
    ensures EntriesAreMappings(results[key := v])
    ensures Extracted(results[key := v]) == Extracted(results)
  {
    var r2 := results[key := v];
    forall j | 0 <= j < |Analyzers|
      ensures EntriesOf(results, Analyzers[j]) == EntriesOf(r2, Analyzers[j])
    {
      assert Analyzers[j] != key;
    }
    ExtractReadsOnlyAnalyzerKeys(results, r2, |Analyzers|);
  }

  // ---------------------------------------------------------------------------
  // Prioritisation

  /** `severity_order.get(issue.get('severity', 'medium'), 99)`. */
  function SeverityRank(severity: Option<Value>): (rank: int)
    ensures rank == 2 <==> severity.None? || severity == Some(Text("medium"))
    ensures 0 <= rank <= 3 || rank == 99
  {
    match severity
    case None => 2
    case Some(Null) => 99
    case Some(Text(s)) =>
      if s == "critical" then 0
      else if s == "high" then 1
      else if s == "medium" then 2
      else if s == "low" then 3
      else 99
  }

  function DescriptionLength(issue: Issue): nat
  {
    match issue.description
    case Some(d) => |d|
    case None => 0
  }

  /** The sort key: more severe first, then the longer description first. */
  function PriorityKey(issue: Issue): (int, int)
  {
    (SeverityRank(issue.severity), -(DescriptionLength(issue) as int))
  }

  /** `_prioritize_issues`: the stable sort by `PriorityKey`, cut to 20. */
  function Prioritize(issues: seq<Issue>): (r: seq<Issue>)
    ensures |r| == Min(20, |issues|)
    ensures SortedBy(r, PriorityKey)
    ensures multiset(r) <= multiset(issues)
  {
    SortSpec(issues, PriorityKey);
    var sorted := Sort(issues, PriorityKey);
    var m := Min(20, |issues|);
    assert sorted == sorted[..m] + sorted[m..];
    sorted[..m]
  }

  /** Ranked output is non-decreasing in severity rank and, within a rank,
      non-increasing in description length. */
  lemma PrioritizedOrder(issues: seq<Issue>, i: nat, j: nat)
    requires i < j < |Prioritize(issues)|
    ensures var r := Prioritize(issues);
            SeverityRank(r[i].severity) <= SeverityRank(r[j].severity) &&
            (SeverityRank(r[i].severity) == SeverityRank(r[j].severity) ==>
               DescriptionLength(r[i]) >= DescriptionLength(r[j]))
  {
    var r := Prioritize(issues);
    assert KeyLe(PriorityKey(r[i]), PriorityKey(r[j]));
  }

  /** Stability: the kept issues sharing a key are the first ones of the
      input with that key, in input order. */
  lemma PrioritizeStable(issues: seq<Issue>, k: (int, int))
    ensures var kept := WithKey(Prioritize(issues), PriorityKey, k);
            var all := WithKey(issues, PriorityKey, k);
            |kept| <= |all| && kept == all[..|kept|]
  {
    var sorted := Sort(issues, PriorityKey);
    SortSpec(issues, PriorityKey);
    var m := Min(20, |issues|);
    assert sorted == sorted[..m] + sorted[m..];
    WithKeyAppend(sorted[..m], sorted[m..], PriorityKey, k);
    SortStable(issues, PriorityKey, k);
  }

  /** Nothing dropped by the cut ranks before anything kept. */
  lemma PrioritizeKeepsBest(issues: seq<Issue>, x: Issue, y: Issue)
    requires x in Prioritize(issues)
    requires y in multiset(issues) - multiset(Prioritize(issues))
    ensures KeyLe(PriorityKey(x), PriorityKey(y))
  {
    var sorted := Sort(issues, PriorityKey);
    SortSpec(issues, PriorityKey);
    var m := Min(20, |issues|);
    assert Prioritize(issues) == sorted[..m];
    var j := DroppedInSuffix(sorted, m, y);
    var i :| 0 <= i < m && sorted[..m][i] == x;
    assert sorted[i] == x;
  }

  // ---------------------------------------------------------------------------
  // Quick wins

  const QuickWinKeywords: seq<string> := ["meta", "title", "alt text", "heading", "compression", "cache"]

  predicate HasQuickWinKeyword(text: string)
  {
    exists kw :: kw in QuickWinKeywords && Contains(text, kw)
  }

  /** The lower-cased title (empty when absent) contains a quick-win keyword. */
  predicate IsQuickWin(issue: Issue)
  {
    HasQuickWinKeyword(Lower(TitleOr(issue, "")))
  }

  datatype QuickWin = QuickWin(
    title: Option<string>,
    category: Option<string>,
    description: Option<string>,
    estimatedTimeMinutes: int)

  function AsQuickWin(issue: Issue): QuickWin
  {
    QuickWin(issue.title, issue.category, issue.description, 5)
  }

  /** The quick-win records of the matching issues, in input order. */
  function QuickWinCandidates(issues: seq<Issue>): (r: seq<QuickWin>)
    ensures |r| == CountWhere(issues, IsQuickWin)
  {
    if issues == [] then []
    else
      var last := issues[|issues| - 1];
      QuickWinCandidates(issues[..|issues| - 1]) + (if IsQuickWin(last) then [AsQuickWin(last)] else [])
  }

  /** The first five candidates. */
  function QuickWins(issues: seq<Issue>): seq<QuickWin>
  {
    var c := QuickWinCandidates(issues);
    c[..Min(5, |c|)]
  }

  /** `_identify_quick_wins`. */
  method IdentifyQuickWins(issues: seq<Issue>) returns (wins: seq<QuickWin>)
    ensures wins == QuickWins(issues)
  {
    var all: seq<QuickWin> := [];
    var k := 0;
    while k < |issues|
      invariant 0 <= k <= |issues|
      invariant all == QuickWinCandidates(issues[..k])
    {
      assert issues[..k + 1][..k] == issues[..k];
      if IsQuickWin(issues[k]) {
        all := all + [AsQuickWin(issues[k])];
      }
      k := k + 1;
    }
    assert issues[..k] == issues;
    wins := all[..Min(5, |all|)];
  }

  /** Each candidate copies a matching issue's fields with a 5-minute estimate;
      the candidates are exactly the matching issues. */
  lemma {:induction false} QuickWinCandidatesSpec(issues: seq<Issue>)
    ensures var c := QuickWinCandidates(issues);
            var m := Filter(issues, IsQuickWin);
            |c| == |m| &&
            forall k :: 0 <= k < |c| ==>
              c[k] == QuickWin(m[k].title, m[k].category, m[k].description, 5)
  {
    if issues != [] {
      QuickWinCandidatesSpec(issues[..|issues| - 1]);
    }
  }

  /** At most five quick wins, each five minutes, each the copy of an issue
      whose title is present and contains a keyword once lower-cased. */
  lemma QuickWinsShape(issues: seq<Issue>)
    ensures |QuickWins(issues)| <= 5
    ensures forall k :: 0 <= k < |QuickWins(issues)| ==>
              var w := QuickWins(issues)[k];
              w.estimatedTimeMinutes == 5 && w.title.Some? && HasQuickWinKeyword(Lower(w.title.value))
  {
    QuickWinCandidatesSpec(issues);
    var c := QuickWinCandidates(issues);
    var m := Filter(issues, IsQuickWin);
    forall k | 0 <= k < |c|
      ensures c[k].estimatedTimeMinutes == 5 && c[k].title.Some? && HasQuickWinKeyword(Lower(c[k].title.value))
    {
      assert IsQuickWin(m[k]);
      if m[k].title.None? {
        MissingTitleNeverQuickWin(m[k]);
      }
    }
  }

  /** An issue without a title never matches. */
  lemma MissingTitleNeverQuickWin(issue: Issue)
    requires issue.title.None?
    ensures !IsQuickWin(issue)
  {
    forall kw | kw in QuickWinKeywords
      ensures !Contains(Lower(""), kw)
    {
      assert kw[0] in kw;
      NotContainsChar(Lower(""), kw, kw[0]);
    }
  }

  // ---------------------------------------------------------------------------
  // Fix-time estimate

  /** `time_estimates.get(issue.get('severity', 'medium'), 15)`. */
  function FixMinutes(issue: Issue): int
  {
    match issue.severity
    case Some(Text(s)) =>
      if s == "critical" then 60 else if s == "high" then 30 else if s == "low" then 5 else 15
    case _ => 15
  }

  predicate IsCritical(issue: Issue) { issue.severity == Some(Text("critical")) }

  predicate IsHigh(issue: Issue) { issue.severity == Some(Text("high")) }

  predicate IsLow(issue: Issue) { issue.severity == Some(Text("low")) }

  /** The minutes an issue adds to the priority focus: only critical and high count. */
  function PriorityMinutes(issue: Issue): int
  {
    if IsCritical(issue) || IsHigh(issue) then FixMinutes(issue) else 0
  }

  datatype FixTime = FixTime(totalMinutes: int, priorityFocusMinutes: int)

  /** `_estimate_fix_time`, without the rounded hour figure. */
  function EstimateFixTime(issues: seq<Issue>): FixTime
  {
    FixTime(SumOf(issues, FixMinutes), SumOf(issues, PriorityMinutes))
  }

  /** The estimate by counting: 60 per critical, 30 per high, 5 per low and 15
      for every other issue; the focus is the critical and high part only. */
  lemma {:induction false} FixTimeByCounts(issues: seq<Issue>)
    ensures var c := CountWhere(issues, IsCritical);
            var h := CountWhere(issues, IsHigh);
            var l := CountWhere(issues, IsLow);
            var t := EstimateFixTime(issues);
            c + h + l <= |issues| &&
            t.totalMinutes == 60 * c + 30 * h + 5 * l + 15 * (|issues| - c - h - l) &&
            t.priorityFocusMinutes == 60 * c + 30 * h
  {
    if issues != [] {
      var init, x := issues[..|issues| - 1], issues[|issues| - 1];
      FixTimeByCounts(init);
      assert SumOf(issues, FixMinutes) == SumOf(init, FixMinutes) + FixMinutes(x);
      assert SumOf(issues, PriorityMinutes) == SumOf(init, PriorityMinutes) + PriorityMinutes(x);
      assert CountWhere(issues, IsCritical) == CountWhere(init, IsCritical) + (if IsCritical(x) then 1 else 0);
      assert CountWhere(issues, IsHigh) == CountWhere(init, IsHigh) + (if IsHigh(x) then 1 else 0);
      assert CountWhere(issues, IsLow) == CountWhere(init, IsLow) + (if IsLow(x) then 1 else 0);
    }
  }

  /** The focus never exceeds the total, which lies between 5 and 60 minutes per issue. */
  lemma FixTimeBounds(issues: seq<Issue>)
    ensures var t := EstimateFixTime(issues);
            0 <= t.priorityFocusMinutes <= t.totalMinutes &&
            5 * |issues| <= t.totalMinutes <= 60 * |issues|
  {
    FixTimeByCounts(issues);
  }

  // ---------------------------------------------------------------------------
  // Analytics

  const NoIssuesMessage: string := "No issues found! Your website is in great shape."

  datatype Analytics =
    | NoIssuesFound(message: string)
    | IssueReport(
        totalIssues: nat,
        criticalIssues: nat,
        highPriorityIssues: nat,
        prioritizedIssues: seq<Issue>,
        quickWins: seq<QuickWin>,
        estimatedFixTime: FixTime)

  /** `get_issue_analytics` (its status is always "success"). */
  method GetIssueAnalytics(results: AnalysisResults) returns (a: Analytics)
    requires EntriesAreMappings(results)
    ensures a.NoIssuesFound? <==> Extracted(results) == []
    ensures a.NoIssuesFound? ==> a.message == NoIssuesMessage
    ensures a.IssueReport? ==>
              var issues := Extracted(results);
              a.totalIssues == |issues| &&
              a.criticalIssues == CountWhere(issues, IsCritical) &&
              a.highPriorityIssues == CountWhere(issues, IsHigh) &&
              a.criticalIssues + a.highPriorityIssues <= a.totalIssues &&
              a.prioritizedIssues == Prioritize(issues) &&
              a.quickWins == QuickWins(issues) &&
              a.estimatedFixTime == EstimateFixTime(issues)
  {
    var issues := ExtractAllIssues(results);
    if issues == [] {
      return NoIssuesFound(NoIssuesMessage);
    }
    var critical := CountWhere(issues, IsCritical);
    var high := CountWhere(issues, IsHigh);
    CountWhereDisjoint(issues, IsCritical, IsHigh);
    var wins := IdentifyQuickWins(issues);
    a := IssueReport(|issues|, critical, high, Prioritize(issues), wins, EstimateFixTime(issues));
  }

  // ---------------------------------------------------------------------------
  // Tutorials

  /** What one request to the tutorial service came to: a response with its
      status code and the generated text it carries, or an exception. */
  datatype HttpOutcome = Response(statusCode: int, content: string) | Raised(error: string)

  datatype Tutorial =
    | Generated(issueTitle: string, issueSeverity: Value, issueDescription: string, tutorial: string)
    | Failed(issueTitle: string, error: string)

  const PromptHead: string :=
    "You are an expert web developer and SEO specialist providing clear, actionable tutorials.\n\n" +
    "WEBSITE ISSUE DETECTED:\n"

  const PromptTail: string :=
    "Please provide a comprehensive tutorial that includes:\n\n" +
    "1. **Problem Explanation**: Briefly explain what this issue means and why it matters\n" +
    "2. **Impact**: How this affects website performance, SEO, or user experience\n" +
    "3. **Step-by-Step Solution**:\n" +
    "   - List 3-5 clear, numbered steps to fix this issue\n" +
    "   - Include code examples where relevant\n" +
    "   - Provide specific HTML/CSS/JavaScript snippets if applicable\n" +
    "4. **Quick Wins**: Any immediate fixes that can be done in minutes\n" +
    "5. **Best Practices**: General recommendations to prevent this issue in the future\n" +
    "6. **Tools to Verify**: Tools or methods to verify the fix is working\n" +
    "7. **Resources**: Links to documentation (Google Docs, MDN, official guides)\n\n" +
    "Keep the language simple but professional. Focus on practical solutions over theory.\n" +
    "Be specific to the detected issue. Use markdown formatting for clarity."

  /** The severity as the prompt prints it: "medium" when absent, "None" for `None`. */
  function SeverityText(issue: Issue): string
  {
    match issue.severity
    case None => "medium"
    case Some(Text(s)) => s
    case Some(Null) => "None"
  }

  function DescriptionOr(issue: Issue): string
  {
    match issue.description
    case Some(d) => d
    case None => ""
  }

  /** `_build_prompt`. */
  function BuildPrompt(issue: Issue): string
  {
    PromptAround(PromptHead, PromptTail, issue)
  }

  /** The issue's title, severity and description lines between a fixed
      preamble and fixed closing instructions. */
  function PromptAround(head: string, tail: string, issue: Issue): string
  {
    head +
    "Title: " + TitleOr(issue, "Unknown Issue") + "\n" +
    "Severity: " + SeverityText(issue) + "\n" +
    "Description: " + DescriptionOr(issue) + "\n\n" +
    tail
  }

  /** The prompt opens with the fixed preamble and the issue's title line,
      carries its severity and description lines, and closes with the fixed
      instructions. */
  lemma BuildPromptMentionsIssue(issue: Issue)
    ensures StartsWith(BuildPrompt(issue), PromptHead + "Title: " + TitleOr(issue, "Unknown Issue") + "\n")
    ensures Contains(BuildPrompt(issue), "Severity: " + SeverityText(issue) + "\n")
    ensures Contains(BuildPrompt(issue), "Description: " + DescriptionOr(issue) + "\n\n")
    ensures |PromptTail| <= |BuildPrompt(issue)| &&
            BuildPrompt(issue)[|BuildPrompt(issue)| - |PromptTail|..] == PromptTail
  {
    PromptLayout(PromptHead, PromptTail, issue);
  }

  lemma PromptLayout(head: string, tail: string, issue: Issue)
    ensures var p := PromptAround(head, tail, issue);
            StartsWith(p, head + "Title: " + TitleOr(issue, "Unknown Issue") + "\n") &&
            Contains(p, "Severity: " + SeverityText(issue) + "\n") &&
            Contains(p, "Description: " + DescriptionOr(issue) + "\n\n") &&
            |tail| <= |p| && p[|p| - |tail|..] == tail
  {
    var a := head + "Title: " + TitleOr(issue, "Unknown Issue") + "\n";
    var b := "Severity: " + SeverityText(issue) + "\n";
    var c := "Description: " + DescriptionOr(issue) + "\n\n";
    assert PromptAround(head, tail, issue) == a + b + c + tail;
    FourParts(a, b, c, tail);
  }

  lemma FourParts(a: string, b: string, c: string, d: string)
    ensures StartsWith(a + b + c + d, a)
    ensures Contains(a + b + c + d, b) && Contains(a + b + c + d, c)
    ensures (a + b + c + d)[|a + b + c|..] == d
  {
    var p := a + b + c + d;
    assert p[..|a|] == a;
    assert p[|a|..|a| + |b|] == b;
    ContainsAt(p, b, |a|);
    assert p[|a + b|..|a + b| + |c|] == c;
    ContainsAt(p, c, |a + b|);
  }

  /** `_generate_tutorial` given the outcome of its request: a tutorial for a
      200 response, nothing for any other status, an error record when the
      request raised. */
  function GenerateTutorial(issue: Issue, outcome: HttpOutcome): Option<Tutorial>
  {
    match outcome
    case Response(status, content) =>
      if status == 200 then
        Some(Generated(
          TitleOr(issue, "Unknown Issue"),
          if issue.severity.Some? then issue.severity.value else Text("medium"),
          DescriptionOr(issue),
          content))
      else None
    case Raised(error) => Some(Failed(TitleOr(issue, "Unknown Issue"), error))
  }

  /** An outcome that yields a record: anything but a non-200 response. */
  predicate Answered(outcome: HttpOutcome)
  {
    !(outcome.Response? && outcome.statusCode != 200)
  }

  /** The records for `issues`, the k-th issue's request having ended in `outcomes[k]`. */
  function TutorialsFor(issues: seq<Issue>, outcomes: seq<HttpOutcome>): seq<Tutorial>
    requires |outcomes| >= |issues|
  {
    if issues == [] then []
    else
      var n := |issues| - 1;
      var t := GenerateTutorial(issues[n], outcomes[n]);
      TutorialsFor(issues[..n], outcomes) + (if t.Some? then [t.value] else [])
  }

  /** One record per answered request, in issue order, each naming its issue. */
  lemma {:induction false} TutorialsCount(issues: seq<Issue>, outcomes: seq<HttpOutcome>)
    requires |outcomes| >= |issues|
    ensures |TutorialsFor(issues, outcomes)| == CountWhere(outcomes[..|issues|], Answered)
  {
    if issues != [] {
      var n := |issues| - 1;
      TutorialsCount(issues[..n], outcomes);
      assert outcomes[..|issues|][..n] == outcomes[..n];
    }
  }

  const NotConfiguredMessage: string := "AI support not configured. Set GOOGLE_API_KEY environment variable."

  datatype TutorialsResult =
    | NotConfigured(message: string)
    | TutorialsReport(totalIssues: nat, tutorialsGenerated: nat, tutorials: seq<Tutorial>)

  /** `get_issue_tutorials`: with an API key, one request per issue among the
      first ten; `outcomes[k]` is how the request carrying `BuildPrompt(issues[k])`
      ended. */
  method GetIssueTutorials(apiKey: string, issues: seq<Issue>, outcomes: seq<HttpOutcome>)
    returns (r: TutorialsResult)
    requires |outcomes| >= Min(10, |issues|)
    ensures apiKey == [] ==> r == NotConfigured(NotConfiguredMessage)
    ensures apiKey != [] ==>
              var attempted := issues[..Min(10, |issues|)];
              r.TutorialsReport? &&
              r.totalIssues == |issues| &&
              r.tutorials == TutorialsFor(attempted, outcomes) &&
              r.tutorialsGenerated == |r.tutorials| &&
              r.tutorialsGenerated == CountWhere(outcomes[..|attempted|], Answered) &&
              r.tutorialsGenerated <= 10
  {
    if apiKey == [] {
      return NotConfigured(NotConfiguredMessage);
    }
    var attempted := issues[..Min(10, |issues|)];
    var tutorials: seq<Tutorial> := [];
    var k := 0;
    while k < |attempted|
      invariant 0 <= k <= |attempted|
      invariant tutorials == TutorialsFor(attempted[..k], outcomes)
    {
      assert attempted[..k + 1][..k] == attempted[..k];
      var t := GenerateTutorial(attempted[k], outcomes[k]);
      if t.Some? {
        tutorials := tutorials + [t.value];
      }
      k := k + 1;
    }
    assert attempted[..k] == attempted;
    TutorialsCount(attempted, outcomes);
    r := TutorialsReport(|issues|, |tutorials|, tutorials);
  }

  // ---------------------------------------------------------------------------
  // Local knowledge base

  datatype KnownIssue = KnownIssue(title: string, solution: string)

  const KnowledgeBase: map<string, seq<KnownIssue>> := map[
    "performance" := [
      KnownIssue("Large Images",
        "1. Use modern formats (WebP, AVIF)\n2. Compress images with tools like TinyPNG\n3. Implement responsive images with srcset\n4. Use lazy loading"),
      KnownIssue("Render-Blocking Resources",
        "1. Defer non-critical JavaScript\n2. Inline critical CSS\n3. Split large CSS files\n4. Load scripts asynchronously"),
      KnownIssue("Poor Caching",
        "1. Set cache headers (max-age, etag)\n2. Implement service workers\n3. Use CDN for static assets\n4. Version your assets")],
    "seo" := [
      KnownIssue("Missing Meta Tags",
        "1. Add meta title (50-60 chars)\n2. Add meta description (150-160 chars)\n3. Use semantic HTML tags\n4. Add Open Graph tags for social sharing"),
      KnownIssue("Poor Heading Structure",
        "1. Use one H1 per page\n2. Use H2, H3 hierarchically\n3. Avoid skipping levels\n4. Include keywords naturally")],
    "security" := [
      KnownIssue("Missing HTTPS",
        "1. Get SSL certificate (free via Let's Encrypt)\n2. Install certificate on server\n3. Redirect HTTP to HTTPS\n4. Update internal links"),
      KnownIssue("Missing Security Headers",
        "1. Add CSP header\n2. Add X-Frame-Options\n3. Add X-Content-Type-Options\n4. Add Strict-Transport-Security")]]

  const NoSolution: string := "See documentation for detailed troubleshooting steps."

  function KnownIssuesOf(category: string): seq<KnownIssue>
  {
    if category in KnowledgeBase then KnowledgeBase[category] else []
  }

  /** The entry's lower-cased title occurs in the lower-cased issue title. */
  predicate TitleMatches(known: KnownIssue, issueTitle: string)
  {
    Contains(Lower(issueTitle), Lower(known.title))
  }

  /** Index of the first matching entry, searching from the front. */
  function FirstMatch(entries: seq<KnownIssue>, issueTitle: string): (r: Option<nat>)
    ensures r.Some? ==> r.value < |entries| && TitleMatches(entries[r.value], issueTitle) &&
                        forall j :: 0 <= j < r.value ==> !TitleMatches(entries[j], issueTitle)
    ensures r.None? ==> forall j :: 0 <= j < |entries| ==> !TitleMatches(entries[j], issueTitle)
  {
    if entries == [] then None
    else if TitleMatches(entries[0], issueTitle) then Some(0)
    else match FirstMatch(entries[1..], issueTitle)
      case Some(k) => Some(k + 1)
      case None => None
  }

  /** `LocalSupportAssistant.get_solution`. */
  function GetSolution(issueTitle: string, category: string): (r: string)
    ensures category !in KnowledgeBase ==> r == NoSolution
    ensures var entries := KnownIssuesOf(category);
            (exists k :: 0 <= k < |entries| && TitleMatches(entries[k], issueTitle) &&
                         (forall j :: 0 <= j < k ==> !TitleMatches(entries[j], issueTitle)) &&
                         r == entries[k].solution) ||
            ((forall j :: 0 <= j < |entries| ==> !TitleMatches(entries[j], issueTitle)) &&
             r == NoSolution)
  {
    var entries := KnownIssuesOf(category);
    match FirstMatch(entries, issueTitle)
    case Some(k) => entries[k].solution
    case None => NoSolution
  }

  /** The lookup ignores the case of the issue title. */
  lemma GetSolutionIgnoresCase(issueTitle: string, category: string)
    ensures GetSolution(Lower(issueTitle), category) == GetSolution(issueTitle, category)
  {
    FirstMatchIgnoresCase(KnownIssuesOf(category), issueTitle);
  }

  lemma {:induction false} FirstMatchIgnoresCase(entries: seq<KnownIssue>, issueTitle: string)
    ensures FirstMatch(entries, Lower(issueTitle)) == FirstMatch(entries, issueTitle)
  {
    LowerIdempotent(issueTitle);
    if entries != [] {
      FirstMatchIgnoresCase(entries[1..], issueTitle);
    }
  }
}
