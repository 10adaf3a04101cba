/**
 * The proof-of-concept package's data model. Its records have the same fields
 * as the production ones, so the production datatypes are reused; only the
 * constraints differ: the plan is bounded above by five steps and nowhere
 * below, strings may be empty, the confidence score is any float, and no
 * field has a default.
 */
module PocModels {
  import opened Outcomes
  import opened JsonValue
  import opened Models

  predicate PocValidPlan(p: ResearchPlan) {
    |p.webSearchSteps| <= MaxSearchSteps
  }

  function PocSearchStepFromJson(j: Json): (r: Option<SearchStep>)
    ensures r.Some? <==> j.JObj? && GetStr(j.fields, "search_terms").Some? && GetStr(j.fields, "purpose").Some?
  {
    if !j.JObj? then None
    else
      var terms := GetStr(j.fields, "search_terms");
      var purpose := GetStr(j.fields, "purpose");
      if terms.None? || purpose.None? then None else Some(SearchStep(terms.value, purpose.value))
  }

  /**
   * The steps are read with the proof-of-concept step parser; the only bound
   * is the upper one, so an empty list passes.
   */
  function PocPlanFromJson(j: Json): (r: Option<ResearchPlan>)
    ensures r.Some? ==> PocValidPlan(r.value)
    ensures r.Some? ==> j.JObj? && GetStr(j.fields, "executive_summary") == Some(r.value.executiveSummary)
                        && GetStr(j.fields, "analysis_instructions") == Some(r.value.analysisInstructions)
    ensures r.Some? ==> j.JObj? && "web_search_steps" in j.fields && j.fields["web_search_steps"].JArr?
                        && |j.fields["web_search_steps"].items| == |r.value.webSearchSteps|
                        && forall i :: 0 <= i < |r.value.webSearchSteps| ==>
                             PocSearchStepFromJson(j.fields["web_search_steps"].items[i]) == Some(r.value.webSearchSteps[i])
    ensures (j.JObj? && "web_search_steps" in j.fields && j.fields["web_search_steps"].JArr?
             && |j.fields["web_search_steps"].items| > MaxSearchSteps) ==> r.None?
    ensures (!j.JObj? || GetStr(j.fields, "executive_summary").None?
             || GetStr(j.fields, "analysis_instructions").None?) ==> r.None?
  {
    if !j.JObj? then None
    else
      var summary := GetStr(j.fields, "executive_summary");
      var instructions := GetStr(j.fields, "analysis_instructions");
      if summary.None? || instructions.None? || "web_search_steps" !in j.fields
         || !j.fields["web_search_steps"].JArr? then None
      else
        var steps := ParseAll(j.fields["web_search_steps"].items, PocSearchStepFromJson);
        if steps.None? then None
        else
          var p := ResearchPlan(summary.value, steps.value, instructions.value);
          if PocValidPlan(p) then Some(p) else None
  }

  /** Every field, `limitations` included, is required. */
  function PocReportFromJson(j: Json): (r: Option<ResearchReport>)
    ensures r.Some? <==> j.JObj? && GetStr(j.fields, "title").Some? && GetStr(j.fields, "summary").Some?
                         && GetStrList(j.fields, "key_findings").Some? && GetStrList(j.fields, "sources").Some?
                         && GetStr(j.fields, "limitations").Some?
    ensures r.Some? ==> j.JObj? && "limitations" in j.fields && "key_findings" in j.fields && "sources" in j.fields
    ensures r.Some? ==> GetStr(j.fields, "title") == Some(r.value.title)
                        && GetStr(j.fields, "summary") == Some(r.value.summary)
                        && GetStrList(j.fields, "key_findings") == Some(r.value.keyFindings)
                        && GetStrList(j.fields, "sources") == Some(r.value.sources)
                        && GetStr(j.fields, "limitations") == Some(r.value.limitations)
  {
    if !j.JObj? then None
    else
      var title := GetStr(j.fields, "title");
      var summary := GetStr(j.fields, "summary");
      var keyFindings := GetStrList(j.fields, "key_findings");
      var sources := GetStrList(j.fields, "sources");
      var limitations := GetStr(j.fields, "limitations");
      if title.None? || summary.None? || keyFindings.None? || sources.None? || limitations.None? then None
      else Some(ResearchReport(title.value, summary.value, keyFindings.value, sources.value, limitations.value))
  }

  /** The confidence score is not range-checked. */
  function PocValidationFromJson(j: Json): (r: Option<ValidationResult>)
    ensures r.Some? <==> j.JObj? && GetBool(j.fields, "is_valid").Some? && GetFloat(j.fields, "confidence_score").Some?
                         && GetStrList(j.fields, "issues_found").Some? && GetStrList(j.fields, "recommendations").Some?
    ensures r.Some? ==> j.JObj? && GetFloat(j.fields, "confidence_score") == Some(r.value.confidenceScore)
                        && GetBool(j.fields, "is_valid") == Some(r.value.isValid)
                        && GetStrList(j.fields, "issues_found") == Some(r.value.issuesFound)
                        && GetStrList(j.fields, "recommendations") == Some(r.value.recommendations)
  {
    if !j.JObj? then None
    else
      var isValid := GetBool(j.fields, "is_valid");
      var score := GetFloat(j.fields, "confidence_score");
      var issues := GetStrList(j.fields, "issues_found");
      var recs := GetStrList(j.fields, "recommendations");
      if isValid.None? || score.None? || issues.None? || recs.None? then None
      else Some(ValidationResult(isValid.value, score.value, issues.value, recs.value))
  }

  /** Both lists are required; there is no default. */
  function PocSearchResultFromJson(j: Json): (r: Option<SearchResult>)
    ensures r.Some? <==> j.JObj? && GetStr(j.fields, "query").Some?
                         && GetStrList(j.fields, "findings").Some? && GetStrList(j.fields, "sources").Some?
    ensures r.Some? ==> GetStr(j.fields, "query") == Some(r.value.query)
                        && GetStrList(j.fields, "findings") == Some(r.value.findings)
                        && GetStrList(j.fields, "sources") == Some(r.value.sources)
  {
    if !j.JObj? then None
    else
      var query := GetStr(j.fields, "query");
      var findings := GetStrList(j.fields, "findings");
      var sources := GetStrList(j.fields, "sources");
      if query.None? || findings.None? || sources.None? then None
      else Some(SearchResult(query.value, findings.value, sources.value))
  }

  /** Any step survives the proof-of-concept step parser, empty fields included. */
  lemma PocSearchStepRoundTrip(s: SearchStep)
    ensures PocSearchStepFromJson(SearchStepToJson(s)) == Some(s)
  {
  }

  /** A plan comes back unchanged iff it has at most five steps, whatever the steps hold. */
  lemma PocPlanRoundTrip(p: ResearchPlan)
    ensures PocPlanFromJson(PlanToJson(p)) == (if PocValidPlan(p) then Some(p) else None)
  {
    forall i | 0 <= i < |p.webSearchSteps|
      ensures PocSearchStepFromJson(SearchStepToJson(p.webSearchSteps[i])) == Some(p.webSearchSteps[i])
    {
      PocSearchStepRoundTrip(p.webSearchSteps[i]);
    }
    ParseAllEncodeAll(p.webSearchSteps, SearchStepToJson, PocSearchStepFromJson);
  }

  /** Every report, with every field present, comes back unchanged. */
  lemma PocReportRoundTrip(r: ResearchReport)
    ensures PocReportFromJson(ReportToJson(r)) == Some(r)
  {
    StrListRoundTrip(r.keyFindings);
    StrListRoundTrip(r.sources);
  }

  /** Every validation result comes back unchanged, whatever its confidence score. */
  lemma PocValidationRoundTrip(v: ValidationResult)
    ensures PocValidationFromJson(ValidationToJson(v)) == Some(v)
  {
    StrListRoundTrip(v.issuesFound);
    StrListRoundTrip(v.recommendations);
  }

  /** Every search result comes back unchanged. */
  lemma PocSearchResultRoundTrip(r: SearchResult)
    ensures PocSearchResultFromJson(SearchResultToJson(r)) == Some(r)
  {
    StrListRoundTrip(r.findings);
    StrListRoundTrip(r.sources);
  }

  /** A search result holding only the query validates in production (both lists empty) and is rejected here. */
  lemma SearchResultListsRequiredOnlyInPoc(q: string)
    ensures SearchResultFromJson(JObj(map["query" := JStr(q)])) == Some(SearchResult(q, [], []))
    ensures PocSearchResultFromJson(JObj(map["query" := JStr(q)])).None?
  {
    SearchResultDefaults(q);
  }

  /** Every plan the production model accepts, the proof-of-concept model accepts too. */
  lemma ProductionPlanIsPocPlan(j: Json)
    requires PlanFromJson(j).Some?
    ensures PocPlanFromJson(j) == PlanFromJson(j)
  {
    var items := j.fields["web_search_steps"].items;
    var strict := ParseAll(items, SearchStepFromJson);
    var loose := ParseAll(items, PocSearchStepFromJson);
    assert strict.Some?;
    forall i | 0 <= i < |items| ensures PocSearchStepFromJson(items[i]) == SearchStepFromJson(items[i]) {
      assert SearchStepFromJson(items[i]).Some?;
    }
    ParseAllAgree(items, SearchStepFromJson, PocSearchStepFromJson);
  }

  /** Two parsers that agree on every element agree on the whole array. */
  lemma {:induction false} ParseAllAgree<T>(items: seq<Json>, f: Json -> Option<T>, g: Json -> Option<T>)
    requires forall i :: 0 <= i < |items| ==> f(items[i]) == g(items[i])
    ensures ParseAll(items, f) == ParseAll(items, g)
    decreases |items|
  {
    if |items| > 0 {
      assert forall i :: 0 <= i < |items[1..]| ==> f(items[1..][i]) == g(items[1..][i]) by {
        forall i | 0 <= i < |items[1..]| ensures f(items[1..][i]) == g(items[1..][i]) {
          assert items[1..][i] == items[i + 1];
        }
      }
      ParseAllAgree(items[1..], f, g);
    }
  }

  /** The converse fails: an empty plan, or a step with an empty field, passes only here. */
  lemma PocAcceptsMore()
    ensures PocPlanFromJson(PlanToJson(ResearchPlan("", [], ""))).Some?
    ensures PlanFromJson(PlanToJson(ResearchPlan("", [], ""))).None?
    ensures PocPlanFromJson(PlanToJson(ResearchPlan("", [SearchStep("", "")], ""))).Some?
    ensures PlanFromJson(PlanToJson(ResearchPlan("", [SearchStep("", "")], ""))).None?
  {
    PlanRoundTrip(ResearchPlan("", [], ""));
    PlanRoundTrip(ResearchPlan("", [SearchStep("", "")], ""));
    var one := PlanToJson(ResearchPlan("", [SearchStep("", "")], ""));
    assert one.fields["web_search_steps"].items == [SearchStepToJson(SearchStep("", ""))];
    assert PocSearchStepFromJson(SearchStepToJson(SearchStep("", ""))) == Some(SearchStep("", ""));
    var empty := PlanToJson(ResearchPlan("", [], ""));
    assert empty.fields["web_search_steps"].items == [];
  }

  /** A report without `limitations` validates in production (as "") and is rejected here. */
  lemma LimitationsRequiredOnlyInPoc()
    ensures ReportFromJson(JObj(map["title" := JStr("T"), "summary" := JStr("S")]))
         == Some(ResearchReport("T", "S", [], [], ""))
    ensures PocReportFromJson(JObj(map["title" := JStr("T"), "summary" := JStr("S")])).None?
  {
  }

  /** A confidence above 1.0 is rejected in production and accepted here. */
  lemma ConfidenceUncheckedInPoc()
    ensures ValidationFromJson(ValidationToJson(ValidationResult(true, 1.5, [], []))).None?
    ensures PocValidationFromJson(ValidationToJson(ValidationResult(true, 1.5, [], [])))
         == Some(ValidationResult(true, 1.5, [], []))
  {
    ValidationRoundTrip(ValidationResult(true, 1.5, [], []));
    StrListRoundTrip([]);
  }
}
