/**
 * The proof-of-concept runner: the same four phases without error wrapping,
 * failure tolerance or timings, and the Markdown rendering of its report.
 */
module PocRunner {
  import opened Outcomes
  import opened Text
  import opened JsonValue
  import opened Models
  import Workflow

  /** What escapes the runner: an agent's own exception, or the group a task group raises. */
  datatype PocError =
    | Raised(reason: string)
    | TaskGroupFailed(reasons: seq<string>)

  /** The first failure in completion order: the task group cancels the searches still running. */
  function FirstFailure(os: seq<Outcome<SearchResult>>, order: seq<nat>): (r: Option<string>)
    ensures r.None? <==> forall k :: 0 <= k < |order| && order[k] < |os| ==> os[order[k]].Succeeded?
    ensures r.Some? ==> exists k :: 0 <= k < |order| && order[k] < |os| && os[order[k]] == Failed(r.value)
    decreases |order|
  {
    if |order| == 0 then None
    else if order[0] < |os| && os[order[0]].Failed? then Some(os[order[0]].reason)
    else FirstFailure(os, order[1..])
  }

  /**
   * `run_research`: the dictionary it returns (no timings), or the exception
   * that escapes it. Search results are read from the tasks in plan order once
   * all of them have finished; one failed search fails the whole run.
   */
  function RunResearch(
    query: string,
    plan: string -> Outcome<ResearchPlan>,
    gather: (nat, string) -> Outcome<SearchResult>,
    order: seq<nat>,
    synthesize: (string, ResearchPlan, seq<SearchResult>) -> Outcome<ResearchReport>,
    verify: ResearchReport -> Outcome<ValidationResult>)
    : (r: Result<Json, PocError>)
    requires plan(query).Succeeded? ==> IsPermutation(order, |plan(query).output.webSearchSteps|)
    ensures plan(query).Failed? ==> r == Err(Raised(plan(query).reason))
    ensures r.Ok? ==> r.value.JObj? && r.value.fields.Keys == {"query", "plan", "search_results", "report", "validation"}
    ensures r.Ok? ==> plan(query).Succeeded?
                      && forall i :: 0 <= i < |plan(query).output.webSearchSteps| ==>
                           gather(i, plan(query).output.webSearchSteps[i].searchTerms).Succeeded?
    ensures plan(query).Succeeded? && AllGathered(plan(query).output, gather) ==>
              var p := plan(query).output;
              var results := PlanOrderResults(p, gather);
              var synthesis := synthesize(query, p, results);
              && (synthesis.Failed? ==> r == Err(Raised(synthesis.reason)))
              && (synthesis.Succeeded? && verify(synthesis.output).Failed? ==>
                    r == Err(Raised(verify(synthesis.output).reason)))
              && (synthesis.Succeeded? && verify(synthesis.output).Succeeded? ==>
                    r == Ok(RunJson(query, p, results, synthesis.output, verify(synthesis.output).output)))
  {
    match plan(query)
    case Failed(reason) => Err(Raised(reason))
    case Succeeded(p) =>
      var os := Workflow.SearchOutcomes(p.webSearchSteps, gather);
      match FirstFailure(os, order)
      case Some(reason) => Err(TaskGroupFailed([reason]))
      case None =>
        AllSucceeded(os, order, |p.webSearchSteps|);
        var results := PlanOrderResults(p, gather);
        match synthesize(query, p, results)
        case Failed(reason) => Err(Raised(reason))
        case Succeeded(report) =>
          match verify(report)
          case Failed(reason) => Err(Raised(reason))
          case Succeeded(validation) =>
            Ok(RunJson(query, p, results, report, validation))
  }

  predicate AllGathered(p: ResearchPlan, gather: (nat, string) -> Outcome<SearchResult>) {
    forall i :: 0 <= i < |p.webSearchSteps| ==> gather(i, p.webSearchSteps[i].searchTerms).Succeeded?
  }

  /** The search outputs read from the tasks in plan order, once every search has succeeded. */
  function PlanOrderResults(p: ResearchPlan, gather: (nat, string) -> Outcome<SearchResult>): (rs: seq<SearchResult>)
    requires AllGathered(p, gather)
    ensures |rs| == |p.webSearchSteps|
    ensures forall i :: 0 <= i < |rs| ==> gather(i, p.webSearchSteps[i].searchTerms) == Succeeded(rs[i])
  {
    seq(|p.webSearchSteps|, i requires 0 <= i < |p.webSearchSteps| => gather(i, p.webSearchSteps[i].searchTerms).output)
  }

  /** The dictionary `run_research` returns: the query and the four phases' outputs. */
  function RunJson(query: string, p: ResearchPlan, results: seq<SearchResult>, report: ResearchReport,
                   validation: ValidationResult): (j: Json)
    ensures j.JObj? && j.fields.Keys == {"query", "plan", "search_results", "report", "validation"}
    ensures j.fields["query"] == JStr(query) && j.fields["report"] == ReportToJson(report)
  {
    JObj(map[
      "query" := JStr(query),
      "plan" := PlanToJson(p),
      "search_results" := JArr(EncodeAll(results, SearchResultToJson)),
      "report" := ReportToJson(report),
      "validation" := ValidationToJson(validation)])
  }

  lemma AllSucceeded(os: seq<Outcome<SearchResult>>, order: seq<nat>, n: nat)
    requires |os| == n && IsPermutation(order, n)
    requires forall k :: 0 <= k < |order| && order[k] < |os| ==> os[order[k]].Succeeded?
    ensures forall i :: 0 <= i < |os| ==> os[i].Succeeded?
  {
    forall i | 0 <= i < |os| ensures os[i].Succeeded? {
      CompletedSomewhere(order, n, i);
    }
  }

  /**
   * When every phase succeeds, the search results are in plan order, whatever
   * order the searches finished in.
   */
  lemma SearchResultsInPlanOrder(
    query: string,
    plan: string -> Outcome<ResearchPlan>,
    gather: (nat, string) -> Outcome<SearchResult>,
    order: seq<nat>,
    synthesize: (string, ResearchPlan, seq<SearchResult>) -> Outcome<ResearchReport>,
    verify: ResearchReport -> Outcome<ValidationResult>)
    requires plan(query).Succeeded? ==> IsPermutation(order, |plan(query).output.webSearchSteps|)
    requires RunResearch(query, plan, gather, order, synthesize, verify).Ok?
    ensures var steps := plan(query).output.webSearchSteps;
            var results := seq(|steps|, i requires 0 <= i < |steps| => gather(i, steps[i].searchTerms).output);
            RunResearch(query, plan, gather, order, synthesize, verify).value.fields["search_results"]
              == JArr(EncodeAll(results, SearchResultToJson))
  {
  }

  /** Every index below `n` has a place in a completion order of `n` tasks. */
  lemma CompletedSomewhere(order: seq<nat>, n: nat, i: nat)
    requires IsPermutation(order, n) && i < n
    ensures exists k :: 0 <= k < |order| && order[k] == i
  {
    assert Iota(n)[i] == i;
    assert i in multiset(Iota(n));
    assert i in multiset(order);
  }

  /** One failed search fails the run with a task-group error, even when the others succeed. */
  lemma OneFailedSearchFailsRun(
    query: string,
    plan: string -> Outcome<ResearchPlan>,
    gather: (nat, string) -> Outcome<SearchResult>,
    order: seq<nat>,
    synthesize: (string, ResearchPlan, seq<SearchResult>) -> Outcome<ResearchReport>,
    verify: ResearchReport -> Outcome<ValidationResult>,
    i: nat)
    requires plan(query).Succeeded? && IsPermutation(order, |plan(query).output.webSearchSteps|)
    requires i < |plan(query).output.webSearchSteps|
    requires gather(i, plan(query).output.webSearchSteps[i].searchTerms).Failed?
    ensures RunResearch(query, plan, gather, order, synthesize, verify).Err?
    ensures RunResearch(query, plan, gather, order, synthesize, verify).error.TaskGroupFailed?
  {
    var steps := plan(query).output.webSearchSteps;
    var os := Workflow.SearchOutcomes(steps, gather);
    CompletedSomewhere(order, |steps|, i);
    var k :| 0 <= k < |order| && order[k] == i;
    assert os[order[k]].Failed?;
    assert FirstFailure(os, order).Some?;
  }

  /** `main`: the query is the first command-line argument; without one the runner exits with status 1. */
  function CliQuery(argv: seq<string>): (r: Result<string, int>)
    ensures |argv| < 2 <==> r == Err(1)
    ensures |argv| >= 2 ==> r == Ok(argv[1])
  {
    if |argv| < 2 then Err(1) else Ok(argv[1])
  }

  // ---------------------------------------------------------------------------
  // Markdown rendering
  // ---------------------------------------------------------------------------

  /** Python's `str(b)` for a boolean. */
  function BoolText(b: bool): string {
    if b then "True" else "False"
  }

  /** `f"{x:.2f}"`. */
  function Fixed2(x: real): (r: string)
    ensures '\n' !in r
  {
    if x < 0.0 then
      var s := Fixed2Abs(-x);
      NotInConcat("-", s, '\n');
      "-" + s
    else Fixed2Abs(x)
  }

  function Fixed2Abs(x: real): (r: string)
    requires x >= 0.0
    ensures '\n' !in r
  {
    var n := Hundredths(x);
    var frac := n % 100;
    var s := NatToString(n / 100) + "." + (if frac < 10 then "0" else "") + NatToString(frac);
    assert forall i :: 0 <= i < |s| ==> s[i] != '\n';
    s
  }

  /** "1. a", "2. b", ...: each item numbered from 1, optionally followed by a blank line. */
  function Numbered(items: seq<string>, start: nat, blankAfter: bool): (r: seq<string>)
    ensures |r| == |items| * (if blankAfter then 2 else 1)
    decreases |items|
  {
    if |items| == 0 then []
    else
      [NatToString(start) + ". " + items[0]] + (if blankAfter then [""] else []) + Numbered(items[1..], start + 1, blankAfter)
  }

  function Bulleted(items: seq<string>): (r: seq<string>)
    ensures |r| == |items|
    ensures forall i :: 0 <= i < |items| ==> r[i] == "- " + items[i]
  {
    seq(|items|, i requires 0 <= i < |items| => "- " + items[i])
  }

  function Links(sources: seq<string>): (r: seq<string>)
    ensures |r| == |sources|
    ensures forall i :: 0 <= i < |sources| ==> r[i] == "[" + sources[i] + "](" + sources[i] + ")"
  {
    seq(|sources|, i requires 0 <= i < |sources| => "[" + sources[i] + "](" + sources[i] + ")")
  }

  /** Title, query, summary and the key-findings heading. */
  function HeaderLines(report: ResearchReport, query: string): (lines: seq<string>)
    ensures |lines| == 14
  {
    ["# " + report.title, "", "**Research Query:** " + query, "", "---", "", "## Summary", "", report.summary, "",
     "---", "", "## Key Findings", ""]
  }

  const SourcesHeading: seq<string> := ["---", "", "## Sources", ""]

  /** Limitations and the validity and confidence lines. */
  function ValidationLines(report: ResearchReport, validation: ValidationResult): (lines: seq<string>)
    ensures |lines| == 13
  {
    ["", "---", "", "## Limitations", "", report.limitations, "", "---", "", "## Quality Validation", "",
     "- **Valid:** " + BoolText(validation.isValid),
     "- **Confidence Score:** " + Fixed2(validation.confidenceScore)]
  }

  /** An optional bulleted section: present only when the list is non-empty. */
  function OptionalSection(heading: string, items: seq<string>): (lines: seq<string>)
    ensures |items| == 0 ==> lines == []
    ensures |items| > 0 ==> |lines| == 3 + |items| && lines[1] == heading
  {
    if |items| > 0 then ["", heading, ""] + Bulleted(items) else []
  }

  /** The lines of the Markdown report, before they are joined. */
  function MarkdownLines(report: ResearchReport, query: string, validation: ValidationResult): seq<string> {
    HeaderLines(report, query) + (Numbered(report.keyFindings, 1, true) + SourcesAndValidation(report, validation))
  }

  /** Everything after the key findings. */
  function SourcesAndValidation(report: ResearchReport, validation: ValidationResult): seq<string> {
    SourcesHeading + (Numbered(Links(report.sources), 1, false) + Trailer(report, validation))
  }

  function Trailer(report: ResearchReport, validation: ValidationResult): seq<string> {
    ValidationLines(report, validation)
    + OptionalSection("**Issues Found:**", validation.issuesFound)
    + OptionalSection("**Recommendations:**", validation.recommendations)
  }

  /** `_format_report_as_markdown`. */
  function FormatReportAsMarkdown(report: ResearchReport, query: string, validation: ValidationResult): string {
    Join(MarkdownLines(report, query, validation), "\n")
  }

  /** How many lines the report has: fixed headings plus one per item, with the two optional sections. */
  lemma MarkdownLineCount(report: ResearchReport, query: string, validation: ValidationResult)
    ensures |MarkdownLines(report, query, validation)|
            == 31 + 2 * |report.keyFindings| + |report.sources|
               + (if |validation.issuesFound| > 0 then 3 + |validation.issuesFound| else 0)
               + (if |validation.recommendations| > 0 then 3 + |validation.recommendations| else 0)
  {
  }

  /** The report opens with the title as a level-one heading, then the query, then the summary. */
  lemma MarkdownHead(report: ResearchReport, query: string, validation: ValidationResult)
    ensures var lines := MarkdownLines(report, query, validation);
            && |lines| > 8
            && lines[0] == "# " + report.title
            && lines[2] == "**Research Query:** " + query
            && lines[8] == report.summary
  {
    HeadLine(report, query, validation, 0);
    HeadLine(report, query, validation, 2);
    HeadLine(report, query, validation, 8);
  }

  /** Right after the sources comes the limitations text verbatim under its heading. */
  lemma MarkdownLimitations(report: ResearchReport, query: string, validation: ValidationResult)
    ensures var lines := MarkdownLines(report, query, validation);
            var after := 18 + 2 * |report.keyFindings| + |report.sources|;
            && |lines| > after + 5
            && lines[after + 3] == "## Limitations"
            && lines[after + 5] == report.limitations
  {
    TrailerLine(report, query, validation, 3);
    TrailerLine(report, query, validation, 5);
    ValidationLinesShape(report, validation);
  }

  /** The validation section ends with the validity and the confidence score to two decimals. */
  lemma MarkdownValidity(report: ResearchReport, query: string, validation: ValidationResult)
    ensures var lines := MarkdownLines(report, query, validation);
            var after := 18 + 2 * |report.keyFindings| + |report.sources|;
            && |lines| > after + 12
            && lines[after + 11] == "- **Valid:** " + BoolText(validation.isValid)
            && lines[after + 12] == "- **Confidence Score:** " + Fixed2(validation.confidenceScore)
  {
    TrailerLine(report, query, validation, 11);
    TrailerLine(report, query, validation, 12);
    ValidationLinesShape(report, validation);
  }

  lemma ValidationLinesShape(report: ResearchReport, validation: ValidationResult)
    ensures var lines := ValidationLines(report, validation);
            && lines[3] == "## Limitations"
            && lines[5] == report.limitations
            && lines[11] == "- **Valid:** " + BoolText(validation.isValid)
            && lines[12] == "- **Confidence Score:** " + Fixed2(validation.confidenceScore)
  {
  }

  /** The first 14 lines are the header block. */
  lemma HeadLine(report: ResearchReport, query: string, validation: ValidationResult, k: nat)
    requires k < 14
    ensures |MarkdownLines(report, query, validation)| > k
    ensures MarkdownLines(report, query, validation)[k] == HeaderLines(report, query)[k]
  {
    var rest := Numbered(report.keyFindings, 1, true) + SourcesAndValidation(report, validation);
    ConcatIndex(HeaderLines(report, query), rest, k);
  }

  /** Line `k` of the trailer, counted from the end of the source links, is line `k` of the validation block. */
  lemma TrailerLine(report: ResearchReport, query: string, validation: ValidationResult, k: nat)
    requires k < 13
    ensures |MarkdownLines(report, query, validation)| > 18 + 2 * |report.keyFindings| + |report.sources| + k
    ensures MarkdownLines(report, query, validation)[18 + 2 * |report.keyFindings| + |report.sources| + k]
            == ValidationLines(report, validation)[k]
  {
    var head := HeaderLines(report, query);
    var findings := Numbered(report.keyFindings, 1, true);
    var links := Numbered(Links(report.sources), 1, false);
    var trailer := Trailer(report, validation);
    var validationLines := ValidationLines(report, validation);
    var issues := OptionalSection("**Issues Found:**", validation.issuesFound);
    var recommendations := OptionalSection("**Recommendations:**", validation.recommendations);
    var tail := SourcesAndValidation(report, validation);
    assert trailer == (validationLines + issues) + recommendations;
    ConcatIndex(validationLines, issues, k);
    ConcatIndex(validationLines + issues, recommendations, k);
    assert tail == SourcesHeading + (links + trailer);
    ConcatIndex(links, trailer, |links| + k);
    ConcatIndex(SourcesHeading, links + trailer, 4 + |links| + k);
    ConcatIndex(findings, tail, |findings| + 4 + |links| + k);
    ConcatIndex(head, findings + tail, 14 + |findings| + 4 + |links| + k);
  }

  /** Two decimals, ties to the even hundredth: 0.85 shows as "0.85", 1 as "1.00", 0.125 as "0.12". */
  lemma Fixed2Examples()
    ensures Fixed2(0.85) == "0.85"
    ensures Fixed2(1.0) == "1.00"
    ensures Fixed2(0.125) == "0.12"
  {
    Fixed2Score();
    Fixed2One();
    Fixed2Tie();
  }

  lemma Fixed2Score()
    ensures Fixed2(0.85) == "0.85"
  {
    Fixed2Digits(0.85, 85);
    assert NatToString(85) == "85";
  }

  lemma Fixed2One()
    ensures Fixed2(1.0) == "1.00"
  {
    Fixed2Digits(1.0, 100);
  }

  lemma Fixed2Tie()
    ensures Fixed2(0.125) == "0.12"
  {
    Fixed2Digits(0.125, 12);
    assert NatToString(12) == "12";
  }

  /** A non-negative value that rounds to `n` hundredths shows the whole part, a dot and two digits of `n`. */
  lemma Fixed2Digits(x: real, n: int)
    requires x >= 0.0 && NearestHundredth(x, n)
    ensures n >= 0
    ensures Fixed2(x) == NatToString(n / 100) + "." + (if n % 100 < 10 then "0" else "") + NatToString(n % 100)
  {
    HundredthsNearest(x, n);
  }

  /** `n` hundredths is nearest to `x`, and on a tie `n` is even. */
  predicate NearestHundredth(x: real, n: int) {
    && (n as real) - 0.5 <= x * 100.0 <= (n as real) + 0.5
    && (n % 2 == 0 || (n as real) - 0.5 < x * 100.0 < (n as real) + 0.5)
  }

  /** The rounding gives the nearest hundredth, the even one on a tie. */
  lemma HundredthsNearest(x: real, n: int)
    requires x >= 0.0 && NearestHundredth(x, n)
    ensures Hundredths(x) == n
  {
  }

  /** Item `k` of a numbered list carries the number `start + k`. */
  lemma {:induction false} NumberedAt(items: seq<string>, start: nat, blankAfter: bool, k: nat)
    requires k < |items|
    ensures Numbered(items, start, blankAfter)[k * (if blankAfter then 2 else 1)] == NatToString(start + k) + ". " + items[k]
    decreases k
  {
    if k > 0 {
      NumberedAt(items[1..], start + 1, blankAfter, k - 1);
      var step := if blankAfter then 2 else 1;
      var head := [NatToString(start) + ". " + items[0]] + (if blankAfter then [""] else []);
      assert |head| == step;
      assert Numbered(items, start, blankAfter) == head + Numbered(items[1..], start + 1, blankAfter);
      assert k * step == step + (k - 1) * step;
    }
  }

  /** The i-th key finding is the line "i+1. finding", each followed by a blank line, after the 14 header lines. */
  lemma FindingLine(report: ResearchReport, query: string, validation: ValidationResult, i: nat)
    requires i < |report.keyFindings|
    ensures MarkdownLines(report, query, validation)[14 + 2 * i] == NatToString(i + 1) + ". " + report.keyFindings[i]
    ensures MarkdownLines(report, query, validation)[15 + 2 * i] == ""
  {
    var a := HeaderLines(report, query);
    var b := Numbered(report.keyFindings, 1, true);
    var tail := SourcesAndValidation(report, validation);
    NumberedAt(report.keyFindings, 1, true, i);
    NumberedBlank(report.keyFindings, 1, i);
    ConcatIndex(b, tail, 2 * i);
    ConcatIndex(b, tail, 2 * i + 1);
    ConcatIndex(a, b + tail, 14 + 2 * i);
    ConcatIndex(a, b + tail, 15 + 2 * i);
  }

  lemma {:induction false} NumberedBlank(items: seq<string>, start: nat, k: nat)
    requires k < |items|
    ensures Numbered(items, start, true)[2 * k + 1] == ""
    decreases k
  {
    if k > 0 {
      NumberedBlank(items[1..], start + 1, k - 1);
      assert Numbered(items, start, true) == [NatToString(start) + ". " + items[0], ""] + Numbered(items[1..], start + 1, true);
    }
  }

  /** The i-th source is a numbered Markdown link to itself, after the findings and the sources heading. */
  lemma SourceLine(report: ResearchReport, query: string, validation: ValidationResult, i: nat)
    requires i < |report.sources|
    ensures MarkdownLines(report, query, validation)[18 + 2 * |report.keyFindings| + i]
            == NatToString(i + 1) + ". " + ("[" + report.sources[i] + "](" + report.sources[i] + ")")
  {
    var head := HeaderLines(report, query);
    var findings := Numbered(report.keyFindings, 1, true);
    var links := Numbered(Links(report.sources), 1, false);
    var trailer := Trailer(report, validation);
    var tail := SourcesAndValidation(report, validation);
    assert tail == SourcesHeading + (links + trailer);
    NumberedAt(Links(report.sources), 1, false, i);
    ConcatIndex(links, trailer, i);
    ConcatIndex(SourcesHeading, links + trailer, 4 + i);
    ConcatIndex(findings, tail, 2 * |report.keyFindings| + 4 + i);
    ConcatIndex(head, findings + tail, 18 + 2 * |report.keyFindings| + i);
  }

  /** Indexing into a concatenation reads the first part, or the second part past the first. */
  lemma ConcatIndex<T>(a: seq<T>, b: seq<T>, k: nat)
    requires k < |a| + |b|
    ensures (a + b)[k] == if k < |a| then a[k] else b[k - |a|]
  {
  }


  predicate SingleLine(s: string) {
    '\n' !in s
  }

  predicate AllSingleLine(xs: seq<string>) {
    forall i :: 0 <= i < |xs| ==> SingleLine(xs[i])
  }

  lemma {:induction false} NumberedSingleLine(items: seq<string>, start: nat, blankAfter: bool)
    requires AllSingleLine(items)
    ensures AllSingleLine(Numbered(items, start, blankAfter))
    decreases |items|
  {
    if |items| > 0 {
      NumberedSingleLine(items[1..], start + 1, blankAfter);
      NotInConcat(NatToString(start), ". ", '\n');
      NotInConcat(NatToString(start) + ". ", items[0], '\n');
    }
  }

  lemma PrefixedSingleLine(prefix: string, xs: seq<string>)
    requires SingleLine(prefix) && AllSingleLine(xs)
    ensures forall i :: 0 <= i < |xs| ==> SingleLine(prefix + xs[i])
  {
    forall i | 0 <= i < |xs| ensures SingleLine(prefix + xs[i]) {
      NotInConcat(prefix, xs[i], '\n');
    }
  }

  lemma LinksSingleLine(sources: seq<string>)
    requires AllSingleLine(sources)
    ensures AllSingleLine(Links(sources))
  {
    forall i | 0 <= i < |sources| ensures SingleLine(Links(sources)[i]) {
      var s := sources[i];
      NotInConcat("[", s, '\n');
      NotInConcat("[" + s, "](", '\n');
      NotInConcat("[" + s + "](", s, '\n');
      NotInConcat("[" + s + "](" + s, ")", '\n');
    }
  }

  predicate OneLineFields(report: ResearchReport, query: string, validation: ValidationResult) {
    && SingleLine(report.title) && SingleLine(report.summary) && SingleLine(report.limitations) && SingleLine(query)
    && AllSingleLine(report.keyFindings) && AllSingleLine(report.sources)
    && AllSingleLine(validation.issuesFound) && AllSingleLine(validation.recommendations)
  }

  lemma HeaderSingleLine(report: ResearchReport, query: string)
    requires SingleLine(report.title) && SingleLine(report.summary) && SingleLine(query)
    ensures AllSingleLine(HeaderLines(report, query))
  {
    NotInConcat("# ", report.title, '\n');
    NotInConcat("**Research Query:** ", query, '\n');
  }

  lemma ValidationSingleLine(report: ResearchReport, validation: ValidationResult)
    requires SingleLine(report.limitations)
    ensures AllSingleLine(ValidationLines(report, validation))
  {
    NotInConcat("- **Valid:** ", BoolText(validation.isValid), '\n');
    NotInConcat("- **Confidence Score:** ", Fixed2(validation.confidenceScore), '\n');
  }

  lemma MarkdownLinesSingle(report: ResearchReport, query: string, validation: ValidationResult)
    requires OneLineFields(report, query, validation)
    ensures AllSingleLine(MarkdownLines(report, query, validation))
  {
    var a := HeaderLines(report, query);
    var b := Numbered(report.keyFindings, 1, true);
    var rest := SourcesAndValidation(report, validation);
    HeaderSingleLine(report, query);
    NumberedSingleLine(report.keyFindings, 1, true);
    SourcesAndValidationSingleLine(report, query, validation);
    ConcatSingleLine(b, rest);
    ConcatSingleLine(a, b + rest);
  }

  lemma SourcesAndValidationSingleLine(report: ResearchReport, query: string, validation: ValidationResult)
    requires OneLineFields(report, query, validation)
    ensures AllSingleLine(SourcesAndValidation(report, validation))
  {
    var c := SourcesHeading;
    var d := Numbered(Links(report.sources), 1, false);
    TrailerSingleLine(report, query, validation);
    assert AllSingleLine(c);
    LinksSingleLine(report.sources);
    NumberedSingleLine(Links(report.sources), 1, false);
    ConcatSingleLine(d, Trailer(report, validation));
    ConcatSingleLine(c, d + Trailer(report, validation));
  }

  lemma TrailerSingleLine(report: ResearchReport, query: string, validation: ValidationResult)
    requires OneLineFields(report, query, validation)
    ensures AllSingleLine(Trailer(report, validation))
  {
    var e := ValidationLines(report, validation);
    var f := OptionalSection("**Issues Found:**", validation.issuesFound);
    var g := OptionalSection("**Recommendations:**", validation.recommendations);
    ValidationSingleLine(report, validation);
    OptionalSectionSingleLine("**Issues Found:**", validation.issuesFound);
    OptionalSectionSingleLine("**Recommendations:**", validation.recommendations);
    ConcatSingleLine(e, f);
    ConcatSingleLine(e + f, g);
  }

  lemma ConcatSingleLine(xs: seq<string>, ys: seq<string>)
    requires AllSingleLine(xs) && AllSingleLine(ys)
    ensures AllSingleLine(xs + ys)
  {
    forall i | 0 <= i < |xs + ys| ensures SingleLine((xs + ys)[i]) {
      if i < |xs| { assert (xs + ys)[i] == xs[i]; } else { assert (xs + ys)[i] == ys[i - |xs|]; }
    }
  }

  lemma OptionalSectionSingleLine(heading: string, items: seq<string>)
    requires SingleLine(heading) && AllSingleLine(items)
    ensures AllSingleLine(OptionalSection(heading, items))
  {
    if |items| > 0 {
      PrefixedSingleLine("- ", items);
      ConcatSingleLine(["", heading, ""], Bulleted(items));
    }
  }

  /**
   * When no field spans several lines, the Markdown text splits back into
   * exactly its lines, so each heading, finding, link and bullet is a line of
   * its own.
   */
  lemma MarkdownSplitsIntoLines(report: ResearchReport, query: string, validation: ValidationResult)
    requires OneLineFields(report, query, validation)
    ensures Split(FormatReportAsMarkdown(report, query, validation), '\n') == MarkdownLines(report, query, validation)
  {
    MarkdownLinesSingle(report, query, validation);
    SplitJoin(MarkdownLines(report, query, validation), '\n');
  }
}
