/**
 * The production data model: the records exchanged between the four phases
 * and returned to callers, with the field constraints pydantic enforces when
 * a record is built or validated, and their dictionary form.
 *
 * A record value of these datatypes may violate its constraints; the
 * `Valid...` predicates say which ones pydantic would accept, and the
 * `...FromJson` functions are `model_validate` on the dictionary form
 * (`None` stands for a raised `ValidationError`). Floats are modelled as reals.
 */
module Models {
  import opened Outcomes
  import opened JsonValue

  datatype SearchStep = SearchStep(searchTerms: string, purpose: string)

  datatype ResearchPlan = ResearchPlan(
    executiveSummary: string,
    webSearchSteps: seq<SearchStep>,
    analysisInstructions: string)

  datatype SearchResult = SearchResult(query: string, findings: seq<string>, sources: seq<string>)

  datatype ResearchReport = ResearchReport(
    title: string,
    summary: string,
    keyFindings: seq<string>,
    sources: seq<string>,
    limitations: string)

  datatype ValidationResult = ValidationResult(
    isValid: bool,
    confidenceScore: real,
    issuesFound: seq<string>,
    recommendations: seq<string>)

  datatype PhaseTimings = PhaseTimings(
    planningMs: int,
    gatheringMs: int,
    synthesisMs: int,
    verificationMs: int,
    totalMs: int)

  datatype ResearchResult = ResearchResult(
    query: string,
    plan: ResearchPlan,
    searchResults: seq<SearchResult>,
    report: ResearchReport,
    validation: ValidationResult,
    timings: PhaseTimings)

  /** Bounds on the number of search steps in a plan. */
  const MinSearchSteps: nat := 1
  const MaxSearchSteps: nat := 5

  // ---------------------------------------------------------------------------
  // Field constraints
  // ---------------------------------------------------------------------------

  predicate ValidSearchStep(s: SearchStep) {
    |s.searchTerms| >= 1 && |s.purpose| >= 1
  }

  predicate ValidPlan(p: ResearchPlan) {
    && MinSearchSteps <= |p.webSearchSteps| <= MaxSearchSteps
    && forall i :: 0 <= i < |p.webSearchSteps| ==> ValidSearchStep(p.webSearchSteps[i])
  }

  predicate ValidValidation(v: ValidationResult) {
    0.0 <= v.confidenceScore <= 1.0
  }

  predicate ValidTimings(t: PhaseTimings) {
    t.planningMs >= 0 && t.gatheringMs >= 0 && t.synthesisMs >= 0 && t.verificationMs >= 0 && t.totalMs >= 0
  }

  /** Search results and reports carry no constraints; nested records are checked too. */
  predicate ValidResult(r: ResearchResult) {
    && |r.query| >= 1
    && ValidPlan(r.plan)
    && ValidValidation(r.validation)
    && ValidTimings(r.timings)
  }

  // ---------------------------------------------------------------------------
  // Dictionary form (`model_dump`)
  // ---------------------------------------------------------------------------

  function SearchStepToJson(s: SearchStep): Json {
    JObj(map["search_terms" := JStr(s.searchTerms), "purpose" := JStr(s.purpose)])
  }

  function PlanToJson(p: ResearchPlan): Json {
    JObj(map[
      "executive_summary" := JStr(p.executiveSummary),
      "web_search_steps" := JArr(EncodeAll(p.webSearchSteps, SearchStepToJson)),
      "analysis_instructions" := JStr(p.analysisInstructions)])
  }

  function SearchResultToJson(r: SearchResult): Json {
    JObj(map["query" := JStr(r.query), "findings" := StrList(r.findings), "sources" := StrList(r.sources)])
  }

  function ReportToJson(r: ResearchReport): Json {
    JObj(map[
      "title" := JStr(r.title),
      "summary" := JStr(r.summary),
      "key_findings" := StrList(r.keyFindings),
      "sources" := StrList(r.sources),
      "limitations" := JStr(r.limitations)])
  }

  function ValidationToJson(v: ValidationResult): Json {
    JObj(map[
      "is_valid" := JBool(v.isValid),
      "confidence_score" := JFloat(v.confidenceScore),
      "issues_found" := StrList(v.issuesFound),
      "recommendations" := StrList(v.recommendations)])
  }

  function TimingsToJson(t: PhaseTimings): Json {
    JObj(map[
      "planning_ms" := JInt(t.planningMs),
      "gathering_ms" := JInt(t.gatheringMs),
      "synthesis_ms" := JInt(t.synthesisMs),
      "verification_ms" := JInt(t.verificationMs),
      "total_ms" := JInt(t.totalMs)])
  }

  function ResultToJson(r: ResearchResult): Json {
    JObj(map[
      "query" := JStr(r.query),
      "plan" := PlanToJson(r.plan),
      "search_results" := JArr(EncodeAll(r.searchResults, SearchResultToJson)),
      "report" := ReportToJson(r.report),
      "validation" := ValidationToJson(r.validation),
      "timings" := TimingsToJson(r.timings)])
  }

  // ---------------------------------------------------------------------------
  // Validation (`model_validate` on the dictionary form)
  // ---------------------------------------------------------------------------

  function SearchStepFromJson(j: Json): (r: Option<SearchStep>)
    ensures r.Some? ==> ValidSearchStep(r.value)
    ensures r.Some? <==> j.JObj? && GetStr(j.fields, "search_terms").Some? && GetStr(j.fields, "purpose").Some?
                         && |GetStr(j.fields, "search_terms").value| >= 1 && |GetStr(j.fields, "purpose").value| >= 1
  {
    if !j.JObj? then None
    else
      var terms := GetStr(j.fields, "search_terms");
      var purpose := GetStr(j.fields, "purpose");
      if terms.None? || purpose.None? then None
      else
        var s := SearchStep(terms.value, purpose.value);
        if ValidSearchStep(s) then Some(s) else None
  }

  function PlanFromJson(j: Json): (r: Option<ResearchPlan>)
    ensures r.Some? ==> ValidPlan(r.value)
    ensures (j.JObj? && "web_search_steps" in j.fields && j.fields["web_search_steps"].JArr?
             && !(1 <= |j.fields["web_search_steps"].items| <= 5)) ==> r.None?
  {
    if !j.JObj? then None
    else
      var summary := GetStr(j.fields, "executive_summary");
      var instructions := GetStr(j.fields, "analysis_instructions");
      if summary.None? || instructions.None? || "web_search_steps" !in j.fields
         || !j.fields["web_search_steps"].JArr? then None
      else
        var steps := ParseAll(j.fields["web_search_steps"].items, SearchStepFromJson);
        if steps.None? then None
        else
          var p := ResearchPlan(summary.value, steps.value, instructions.value);
          if ValidPlan(p) then Some(p) else None
  }

  /** `findings` and `sources` default to empty lists when absent. */
  function SearchResultFromJson(j: Json): (r: Option<SearchResult>)
    ensures j.JObj? && "findings" !in j.fields && r.Some? ==> r.value.findings == []
    ensures j.JObj? && "sources" !in j.fields && r.Some? ==> r.value.sources == []
    ensures r.Some? ==> j.JObj? && GetStr(j.fields, "query") == Some(r.value.query)
  {
    if !j.JObj? then None
    else
      var query := GetStr(j.fields, "query");
      var findings := GetStrListOrEmpty(j.fields, "findings");
      var sources := GetStrListOrEmpty(j.fields, "sources");
      if query.None? || findings.None? || sources.None? then None
      else Some(SearchResult(query.value, findings.value, sources.value))
  }

  /** `key_findings` and `sources` default to empty lists and `limitations` to "". */
  function ReportFromJson(j: Json): (r: Option<ResearchReport>)
    ensures j.JObj? && "key_findings" !in j.fields && r.Some? ==> r.value.keyFindings == []
    ensures j.JObj? && "sources" !in j.fields && r.Some? ==> r.value.sources == []
    ensures j.JObj? && "limitations" !in j.fields && r.Some? ==> r.value.limitations == ""
    ensures r.Some? ==> j.JObj? && GetStr(j.fields, "title") == Some(r.value.title)
                        && GetStr(j.fields, "summary") == Some(r.value.summary)
  {
    if !j.JObj? then None
    else
      var title := GetStr(j.fields, "title");
      var summary := GetStr(j.fields, "summary");
      var keyFindings := GetStrListOrEmpty(j.fields, "key_findings");
      var sources := GetStrListOrEmpty(j.fields, "sources");
      var limitations := GetStrOr(j.fields, "limitations", "");
      if title.None? || summary.None? || keyFindings.None? || sources.None? || limitations.None? then None
      else Some(ResearchReport(title.value, summary.value, keyFindings.value, sources.value, limitations.value))
  }

  /** The confidence score must lie in [0, 1], both ends included; the two lists default to empty. */
  function ValidationFromJson(j: Json): (r: Option<ValidationResult>)
    ensures r.Some? ==> ValidValidation(r.value)
    ensures j.JObj? && "issues_found" !in j.fields && r.Some? ==> r.value.issuesFound == []
    ensures j.JObj? && "recommendations" !in j.fields && r.Some? ==> r.value.recommendations == []
    ensures (j.JObj? && GetFloat(j.fields, "confidence_score").Some?
             && !(0.0 <= GetFloat(j.fields, "confidence_score").value <= 1.0)) ==> r.None?
  {
    if !j.JObj? then None
    else
      var isValid := GetBool(j.fields, "is_valid");
      var score := GetFloat(j.fields, "confidence_score");
      var issues := GetStrListOrEmpty(j.fields, "issues_found");
      var recs := GetStrListOrEmpty(j.fields, "recommendations");
      if isValid.None? || score.None? || issues.None? || recs.None? then None
      else
        var v := ValidationResult(isValid.value, score.value, issues.value, recs.value);
        if ValidValidation(v) then Some(v) else None
  }

  /** Every duration is required and must be non-negative. */
  function TimingsFromJson(j: Json): (r: Option<PhaseTimings>)
    ensures r.Some? ==> ValidTimings(r.value)
    ensures r.Some? ==> j.JObj? && GetInt(j.fields, "total_ms") == Some(r.value.totalMs)
  {
    if !j.JObj? then None
    else
      var p := GetInt(j.fields, "planning_ms");
      var g := GetInt(j.fields, "gathering_ms");
      var s := GetInt(j.fields, "synthesis_ms");
      var v := GetInt(j.fields, "verification_ms");
      var t := GetInt(j.fields, "total_ms");
      if p.None? || g.None? || s.None? || v.None? || t.None? then None
      else
        var timings := PhaseTimings(p.value, g.value, s.value, v.value, t.value);
        if ValidTimings(timings) then Some(timings) else None
  }

  /** Validates the field `key` with `parse`; a missing field is an error. */
  function Field<T>(m: map<string, Json>, key: string, parse: Json -> Option<T>): (r: Option<T>)
    ensures key !in m ==> r.None?
    ensures key in m ==> r == parse(m[key])
  {
    if key in m then parse(m[key]) else None
  }

  function SearchResultsFromJson(j: Json): (r: Option<seq<SearchResult>>)
    ensures r.Some? ==> j.JArr? && |r.value| == |j.items|
  {
    if j.JArr? then ParseAll(j.items, SearchResultFromJson) else None
  }

  function ResultFromJson(j: Json): (r: Option<ResearchResult>)
    ensures r.Some? ==> ValidResult(r.value)
    ensures r.Some? ==> j.JObj? && GetStr(j.fields, "query") == Some(r.value.query)
  {
    if !j.JObj? then None
    else
      ResultFromParts(
        GetStr(j.fields, "query"),
        Field(j.fields, "plan", PlanFromJson),
        Field(j.fields, "search_results", SearchResultsFromJson),
        Field(j.fields, "report", ReportFromJson),
        Field(j.fields, "validation", ValidationFromJson),
        Field(j.fields, "timings", TimingsFromJson))
  }

  /** Builds the result once every field has validated; the query must be non-empty. */
  function ResultFromParts(
    query: Option<string>, plan: Option<ResearchPlan>, results: Option<seq<SearchResult>>,
    report: Option<ResearchReport>, validation: Option<ValidationResult>, timings: Option<PhaseTimings>)
    : (r: Option<ResearchResult>)
    requires plan.Some? ==> ValidPlan(plan.value)
    requires validation.Some? ==> ValidValidation(validation.value)
    requires timings.Some? ==> ValidTimings(timings.value)
    ensures r.Some? ==> ValidResult(r.value) && query == Some(r.value.query)
    ensures r.Some? <==> query.Some? && |query.value| >= 1 && plan.Some? && results.Some?
                         && report.Some? && validation.Some? && timings.Some?
  {
    if query.None? || plan.None? || results.None? || report.None? || validation.None? || timings.None? then None
    else if |query.value| >= 1 then
      Some(ResearchResult(query.value, plan.value, results.value, report.value, validation.value, timings.value))
    else None
  }

  // ---------------------------------------------------------------------------
  // Validity as acceptance, and the serialisation round trip
  // ---------------------------------------------------------------------------

  /** A search step validates iff both of its fields are non-empty, and it then comes back unchanged. */
  lemma SearchStepRoundTrip(s: SearchStep)
    ensures SearchStepFromJson(SearchStepToJson(s)) == (if ValidSearchStep(s) then Some(s) else None)
  {
  }

  /** A plan validates iff it has 1 to 5 valid steps, and it then comes back unchanged. */
  lemma PlanRoundTrip(p: ResearchPlan)
    ensures PlanFromJson(PlanToJson(p)) == (if ValidPlan(p) then Some(p) else None)
  {
    var items := EncodeAll(p.webSearchSteps, SearchStepToJson);
    var parsed := ParseAll(items, SearchStepFromJson);
    if forall i :: 0 <= i < |p.webSearchSteps| ==> ValidSearchStep(p.webSearchSteps[i]) {
      forall i | 0 <= i < |p.webSearchSteps|
        ensures SearchStepFromJson(SearchStepToJson(p.webSearchSteps[i])) == Some(p.webSearchSteps[i])
      {
        SearchStepRoundTrip(p.webSearchSteps[i]);
      }
      ParseAllEncodeAll(p.webSearchSteps, SearchStepToJson, SearchStepFromJson);
    } else {
      var k :| 0 <= k < |p.webSearchSteps| && !ValidSearchStep(p.webSearchSteps[k]);
      SearchStepRoundTrip(p.webSearchSteps[k]);
      assert items[k] == SearchStepToJson(p.webSearchSteps[k]);
      assert parsed.None?;
    }
  }

  /** A dictionary holding only the query validates, with both lists empty. */
  lemma SearchResultDefaults(q: string)
    ensures SearchResultFromJson(JObj(map["query" := JStr(q)])) == Some(SearchResult(q, [], []))
  {
  }

  lemma SearchResultRoundTrip(r: SearchResult)
    ensures SearchResultFromJson(SearchResultToJson(r)) == Some(r)
  {
    StrListRoundTrip(r.findings);
    StrListRoundTrip(r.sources);
  }

  lemma ReportRoundTrip(r: ResearchReport)
    ensures ReportFromJson(ReportToJson(r)) == Some(r)
  {
    StrListRoundTrip(r.keyFindings);
    StrListRoundTrip(r.sources);
  }

  lemma ValidationRoundTrip(v: ValidationResult)
    ensures ValidationFromJson(ValidationToJson(v)) == (if ValidValidation(v) then Some(v) else None)
  {
    StrListRoundTrip(v.issuesFound);
    StrListRoundTrip(v.recommendations);
  }

  lemma TimingsRoundTrip(t: PhaseTimings)
    ensures TimingsFromJson(TimingsToJson(t)) == (if ValidTimings(t) then Some(t) else None)
  {
  }

  /**
   * Dumping a result and validating the dump gives back the same result exactly
   * when the result satisfies every constraint; otherwise validation fails.
   */
  lemma ResultRoundTrip(r: ResearchResult)
    ensures ResultFromJson(ResultToJson(r)) == (if ValidResult(r) then Some(r) else None)
  {
    var m := ResultToJson(r).fields;
    ResultFieldsDecode(r);
    var plan := Field(m, "plan", PlanFromJson);
    var validation := Field(m, "validation", ValidationFromJson);
    var timings := Field(m, "timings", TimingsFromJson);
    var parts := ResultFromParts(Some(r.query), plan, Some(r.searchResults), Some(r.report), validation, timings);
    assert ResultFromJson(ResultToJson(r)) == parts;
    if ValidResult(r) {
      assert parts == Some(r);
    } else {
      assert parts == None;
    }
  }

  /** Each field of a dumped result validates back to that field, or fails exactly when the field is invalid. */
  lemma ResultFieldsDecode(r: ResearchResult)
    ensures var m := ResultToJson(r).fields;
            && GetStr(m, "query") == Some(r.query)
            && Field(m, "plan", PlanFromJson) == (if ValidPlan(r.plan) then Some(r.plan) else None)
            && Field(m, "search_results", SearchResultsFromJson) == Some(r.searchResults)
            && Field(m, "report", ReportFromJson) == Some(r.report)
            && Field(m, "validation", ValidationFromJson) == (if ValidValidation(r.validation) then Some(r.validation) else None)
            && Field(m, "timings", TimingsFromJson) == (if ValidTimings(r.timings) then Some(r.timings) else None)
  {
    var m := ResultToJson(r).fields;
    ResultJsonFields(r);
    PlanRoundTrip(r.plan);
    SearchResultsRoundTrip(r.searchResults);
    ReportRoundTrip(r.report);
    ValidationRoundTrip(r.validation);
    TimingsRoundTrip(r.timings);
  }

  /** The dumped result holds each field under its name. */
  lemma ResultJsonFields(r: ResearchResult)
    ensures var m := ResultToJson(r).fields;
            && "query" in m && m["query"] == JStr(r.query)
            && "plan" in m && m["plan"] == PlanToJson(r.plan)
            && "search_results" in m && m["search_results"] == JArr(EncodeAll(r.searchResults, SearchResultToJson))
            && "report" in m && m["report"] == ReportToJson(r.report)
            && "validation" in m && m["validation"] == ValidationToJson(r.validation)
            && "timings" in m && m["timings"] == TimingsToJson(r.timings)
  {
  }

  lemma SearchResultsRoundTrip(rs: seq<SearchResult>)
    ensures SearchResultsFromJson(JArr(EncodeAll(rs, SearchResultToJson))) == Some(rs)
  {
    forall i | 0 <= i < |rs|
      ensures SearchResultFromJson(SearchResultToJson(rs[i])) == Some(rs[i])
    {
      SearchResultRoundTrip(rs[i]);
    }
    ParseAllEncodeAll(rs, SearchResultToJson, SearchResultFromJson);
  }

  /** Nothing ties the number of search results to the number of plan steps. */
  lemma ResultCountIndependentOfSteps()
    ensures exists r :: ValidResult(r) && |r.searchResults| != |r.plan.webSearchSteps|
  {
    var plan := ResearchPlan("Summary", [SearchStep("q", "p")], "Instructions");
    var r := ResearchResult(
      "test query", plan, [],
      ResearchReport("T", "S", [], [], ""),
      ValidationResult(true, 0.9, [], []),
      PhaseTimings(0, 0, 0, 0, 0));
    assert ValidResult(r);
  }
}
