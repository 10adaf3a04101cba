/**
 * Demo mode: a fixed research result and a fixed event stream served without
 * calling any agent, allowed only in development and staging.
 */
module Demo {
  import opened Outcomes
  import opened JsonValue
  import opened Models
  import opened Exceptions
  import opened Events

  /** `ENVIRONMENT` unset counts as "development". */
  function DemoModeAllowed(environment: Option<string>): (r: bool)
    ensures environment.None? ==> r
    ensures environment.Some? ==> (r <==> environment.value == "development" || environment.value == "staging")
  {
    var env := if environment.Some? then environment.value else "development";
    env in ["development", "staging"]
  }

  /** Production, and any other name, turns demo mode off; the comparison is case-sensitive. */
  lemma DemoModeOnlyInDevelopmentAndStaging()
    ensures !DemoModeAllowed(Some("production"))
    ensures !DemoModeAllowed(Some("Development"))
    ensures !DemoModeAllowed(Some(""))
    ensures DemoModeAllowed(None) && DemoModeAllowed(Some("staging"))
  {
  }

  const DemoSummary: string :=
    "Research quantum computing by exploring recent breakthroughs, practical applications, and current limitations"
  const DemoTitle: string := "Recent Advances in Quantum Computing: 2024 Analysis"

  // Search terms and source links, each shared by more than one part of the fixture.
  const BreakthroughsTerms: string := "quantum computing breakthroughs 2024"
  const ApplicationsTerms: string := "quantum computing applications industry"
  const LimitationsTerms: string := "quantum computing limitations challenges"
  const NatureSource: string := "https://www.nature.com/articles/quantum-2024"
  const IbmSource: string := "https://research.ibm.com/quantum"
  const MicrosoftSource: string := "https://www.microsoft.com/research/quantum"
  const PharmaSource: string := "https://www.pharmaceutical-technology.com/quantum"
  const JpMorganSource: string := "https://www.jpmorgan.com/quantum-research"
  const NistSource: string := "https://www.nist.gov/quantum-cryptography"

  // The rest of the fixture's text, in the order it appears.
  const BreakthroughsPurpose: string :=
    "Identify recent technical advances in quantum error correction"
  const ApplicationsPurpose: string :=
    "Find practical use cases and commercial implementations"
  const LimitationsPurpose: string :=
    "Understand current technical barriers and constraints"
  const DemoInstructions: string :=
    "Focus on recent developments, emphasize practical applications, note technical limitations and challenges"
  const Finding1: string :=
    "Google achieved quantum error correction breakthrough with surface code implementation"
  const Finding2: string :=
    "IBM announced 127-qubit quantum processor with improved coherence times exceeding 100 microseconds"
  const Finding3: string :=
    "Microsoft demonstrated topological qubits with reduced error rates"
  const Finding4: string :=
    "Drug discovery companies using quantum simulation for molecular modeling"
  const Finding5: string :=
    "Financial institutions applying quantum algorithms to portfolio optimization"
  const Finding6: string :=
    "Cryptography research accelerating post-quantum encryption standards"
  const ReportSummary: string :=
    "Quantum computing achieved significant breakthroughs in 2024, with major advances in error correction and qubit scalability. Industry applications are emerging in pharmaceuticals, finance, and cryptography, though hardware costs and error rates remain barriers to widespread adoption."
  const KeyFinding1: string :=
    "Error correction techniques reduced qubit error rates by 50% using surface code implementations"
  const KeyFinding2: string :=
    "Commercial applications now viable in drug discovery, financial modeling, and cryptography"
  const KeyFinding3: string :=
    "127-qubit systems demonstrated with coherence times exceeding 100 microseconds"
  const KeyFinding4: string :=
    "Hardware costs remain a barrier to widespread adoption outside research institutions"
  const KeyFinding5: string :=
    "Post-quantum cryptography standards accelerating due to quantum threat awareness"
  const DemoLimitations: string :=
    "Limited data on long-term stability of qubit systems; most sources focus on recent developments from major tech companies"
  const Issue1: string :=
    "Limited geographic diversity in sources"
  const Issue2: string :=
    "Primarily industry sources rather than peer-reviewed research"
  const Recommendation1: string :=
    "Add more peer-reviewed academic sources"
  const Recommendation2: string :=
    "Expand analysis of emerging competitors beyond IBM/Google/Microsoft"
  const Recommendation3: string :=
    "Include perspectives from quantum computing startups"

  function DemoPlan(): ResearchPlan {
    ResearchPlan(
      DemoSummary,
      [ SearchStep(BreakthroughsTerms, BreakthroughsPurpose),
        SearchStep(ApplicationsTerms, ApplicationsPurpose),
        SearchStep(LimitationsTerms, LimitationsPurpose) ],
      DemoInstructions)
  }

  function DemoSearchResults(): seq<SearchResult> {
    [ SearchResult(
        BreakthroughsTerms,
        [Finding1, Finding2, Finding3],
        [NatureSource, IbmSource, MicrosoftSource]),
      SearchResult(
        ApplicationsTerms,
        [Finding4, Finding5, Finding6],
        [PharmaSource, JpMorganSource, NistSource]) ]
  }

  function DemoReport(): ResearchReport {
    ResearchReport(
      DemoTitle,
      ReportSummary,
      [KeyFinding1, KeyFinding2, KeyFinding3, KeyFinding4, KeyFinding5],
      [NatureSource, IbmSource, MicrosoftSource, PharmaSource, JpMorganSource, NistSource],
      DemoLimitations)
  }

  function DemoValidation(): ValidationResult {
    ValidationResult(
      true, 0.85,
      [Issue1, Issue2],
      [Recommendation1, Recommendation2, Recommendation3])
  }

  const DemoTimings: PhaseTimings := PhaseTimings(100, 200, 150, 50, 500)

  /**
   * `get_demo_research_result(query)`: the fixed result with the caller's query;
   * an empty query fails the result's own validation.
   */
  function DemoResult(query: string): (r: Result<ResearchResult, Failure>)
    ensures |query| == 0 <==> r.Err?
    ensures r.Err? ==> r.error == ValidationFailure("ResearchResult")
    ensures r.Ok? ==> ValidResult(r.value) && r.value.query == query
  {
    var result := ResearchResult(query, DemoPlan(), DemoSearchResults(), DemoReport(), DemoValidation(), DemoTimings);
    if |query| == 0 then Err(ValidationFailure("ResearchResult")) else Ok(result)
  }

  /**
   * The fixture is internally consistent: each search result answers the plan
   * step at its position, the report cites exactly the search results' sources
   * in order, and the phase durations add up to the total.
   */
  lemma DemoFixtureConsistent(query: string)
    requires |query| >= 1
    ensures var r := DemoResult(query).value;
            && |r.searchResults| <= |r.plan.webSearchSteps|
            && (forall i :: 0 <= i < |r.searchResults| ==> r.searchResults[i].query == r.plan.webSearchSteps[i].searchTerms)
            && r.report.sources == r.searchResults[0].sources + r.searchResults[1].sources
            && r.timings.planningMs + r.timings.gatheringMs + r.timings.synthesisMs + r.timings.verificationMs
               == r.timings.totalMs
  {
  }

  function PhaseSummary(phase: string, durationMs: int, summary: map<string, Json>): SseEvent {
    SseEvent(PhaseCompleteEvent, PhaseComplete,
             map["phase" := JStr(phase), "duration_ms" := JInt(durationMs), "output_summary" := JObj(summary)])
  }

  /** The events the demo stream yields before its final one. */
  function DemoPhaseEvents(): seq<SseEvent> {
    [ NewPhaseStart("planning"),
      PhaseSummary("planning", 100, map["executive_summary" := JStr(DemoSummary), "search_steps" := JInt(3)]),
      NewPhaseStart("gathering"),
      PhaseSummary("gathering", 200, map["searches_completed" := JInt(2), "total_findings" := JInt(6)]),
      NewPhaseStart("synthesis"),
      PhaseSummary("synthesis", 150, map["title" := JStr(DemoTitle), "key_findings_count" := JInt(5)]),
      NewPhaseStart("verification"),
      PhaseSummary("verification", 50, map["is_valid" := JBool(true), "confidence_score" := JFloat(0.85)]) ]
  }

  /** A generator's yield: the events it produced, and the error it stopped with, if any. */
  datatype Emitted = Emitted(events: seq<SseEvent>, raised: Option<Failure>)

  const PhaseNames: seq<string> := ["planning", "gathering", "synthesis", "verification"]

  /**
   * `generate_demo_sse_stream(query)`: a start and a completion event per phase,
   * then the demo result; an empty query makes the last step raise.
   */
  function DemoStream(query: string): (r: Emitted)
    ensures |query| >= 1 ==> r.raised.None? && |r.events| == 9
    ensures |query| == 0 ==> r.raised == Some(ValidationFailure("ResearchResult")) && |r.events| == 8
    ensures r.events[..8] == DemoPhaseEvents()
  {
    match DemoResult(query)
    case Ok(result) => Emitted(DemoPhaseEvents() + [NewComplete(ResultToJson(result).fields)], None)
    case Err(f) => Emitted(DemoPhaseEvents(), Some(f))
  }

  /**
   * The stream walks the four phases in order, each opened by a start event and
   * closed by a completion event whose duration is the fixture's timing for that
   * phase, and ends with the full result.
   */
  lemma DemoStreamMatchesResult(query: string)
    requires |query| >= 1
    ensures var events := DemoStream(query).events;
            var t := DemoResult(query).value.timings;
            var durations := [t.planningMs, t.gatheringMs, t.synthesisMs, t.verificationMs];
            && (forall k :: 0 <= k < 4 ==>
                  && events[2 * k] == NewPhaseStart(PhaseNames[k])
                  && events[2 * k + 1].kind == PhaseComplete
                  && events[2 * k + 1].data["phase"] == JStr(PhaseNames[k])
                  && events[2 * k + 1].data["duration_ms"] == JInt(durations[k]))
            && events[8] == NewComplete(ResultToJson(DemoResult(query).value).fields)
  {
    var events := DemoStream(query).events;
    var phases := DemoPhaseEvents();
    assert DemoResult(query).value.timings == DemoTimings;
    assert events[..8] == phases;
    forall k | 0 <= k < 8 ensures events[k] == phases[k] {
      assert events[..8][k] == events[k];
    }
    DemoPhasesInOrder();
  }

  /** The phase events pair a start with a completion carrying the fixture's duration, phase by phase. */
  lemma DemoPhasesInOrder()
    ensures var events := DemoPhaseEvents();
            var t := DemoTimings;
            var durations := [t.planningMs, t.gatheringMs, t.synthesisMs, t.verificationMs];
            forall k :: 0 <= k < 4 ==>
              && events[2 * k] == NewPhaseStart(PhaseNames[k])
              && events[2 * k + 1].kind == PhaseComplete
              && events[2 * k + 1].data["phase"] == JStr(PhaseNames[k])
              && events[2 * k + 1].data["duration_ms"] == JInt(durations[k])
  {
  }
}
