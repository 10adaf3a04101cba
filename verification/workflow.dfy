/**
 * The four-phase research workflow: plan, gather (concurrently, tolerating
 * partial failure), synthesise, verify; each phase timed.
 *
 * The agents are parameters. `plan`, `synthesize` and `verify` are functions of
 * the data their prompt is rendered from; `gather(i, terms)` is the outcome of
 * the search task started for step `i`. The concurrent tasks finish in an
 * order chosen by the scheduler, given as `order`, a permutation of the step
 * indices. The monotonic clock is `now(k)`, the k-th reading in seconds.
 */
module Workflow {
  import opened Outcomes
  import opened Sequences
  import opened Models
  import opened Exceptions

  // ---------------------------------------------------------------------------
  // Gathering
  // ---------------------------------------------------------------------------

  /** What task `i` of the gathering phase contributes to the result list. */
  function Pick(os: seq<Outcome<SearchResult>>): nat -> seq<SearchResult> {
    (i: nat) => if i < |os| && os[i].Succeeded? then [os[i].output] else []
  }

  /** The successful outputs, in plan order. */
  function Successes(os: seq<Outcome<SearchResult>>): (r: seq<SearchResult>)
    ensures |r| <= |os|
    ensures |r| == 0 <==> forall i :: 0 <= i < |os| ==> os[i].Failed?
  {
    if |os| == 0 then []
    else
      Successes(os[..|os| - 1]) + (if os[|os| - 1].Succeeded? then [os[|os| - 1].output] else [])
  }

  function FailureCount(os: seq<Outcome<SearchResult>>): (r: nat)
    ensures r == |os| - |Successes(os)|
  {
    if |os| == 0 then 0 else FailureCount(os[..|os| - 1]) + (if os[|os| - 1].Failed? then 1 else 0)
  }

  /** The outcome of every step's search task, indexed by step. */
  function SearchOutcomes(steps: seq<SearchStep>, gather: (nat, string) -> Outcome<SearchResult>)
    : (os: seq<Outcome<SearchResult>>)
    ensures |os| == |steps|
    ensures forall i :: 0 <= i < |steps| ==> os[i] == gather(i, steps[i].searchTerms)
  {
    seq(|steps|, i requires 0 <= i < |steps| => gather(i, steps[i].searchTerms))
  }

  /** Each task appends its output when it finishes, so the list is in completion order. */
  function Collected(os: seq<Outcome<SearchResult>>, order: seq<nat>): seq<SearchResult> {
    FlatMap(order, Pick(os))
  }

  /** In plan order, collecting is exactly keeping the successes. */
  lemma {:induction false} CollectedInPlanOrder(os: seq<Outcome<SearchResult>>)
    ensures Collected(os, Iota(|os|)) == Successes(os)
    decreases |os|
  {
    var n := |os|;
    if n > 0 {
      var front := os[..n - 1];
      var last: seq<nat> := [n - 1];
      FlatMapAppend(Iota(n - 1), last, Pick(os));
      assert Iota(n) == Iota(n - 1) + last;
      FlatMapCongruence(Iota(n - 1), Pick(os), Pick(front));
      CollectedInPlanOrder(front);
    }
  }

  /** Whatever the completion order, the same results are collected, each as often. */
  lemma CollectedIsRearrangement(os: seq<Outcome<SearchResult>>, order: seq<nat>)
    requires IsPermutation(order, |os|)
    ensures multiset(Collected(os, order)) == multiset(Successes(os))
  {
    FlatMapPermutation(order, Iota(|os|), Pick(os));
    CollectedInPlanOrder(os);
  }

  // ---------------------------------------------------------------------------
  // Timing
  // ---------------------------------------------------------------------------

  /** Python's `int(x)` on a float: truncation toward zero. */
  function Truncate(x: real): (r: int)
    ensures x >= 0.0 ==> 0 <= r && r as real <= x < r as real + 1.0
    ensures x < 0.0 ==> r <= 0 && r as real - 1.0 < x <= r as real
  {
    if x >= 0.0 then x.Floor else -((-x).Floor)
  }

  /** `int((end - start) * 1000)`: elapsed milliseconds between two readings. */
  function ElapsedMs(now: nat -> real, start: nat, end: nat): int {
    Truncate((now(end) - now(start)) * 1000.0)
  }

  /** Clock readings: 0 workflow start; 1, 3, 5, 7 phase starts; 2, 4, 6, 8 phase ends; 9 the end. */
  function Timings(now: nat -> real): PhaseTimings {
    PhaseTimings(ElapsedMs(now, 1, 2), ElapsedMs(now, 3, 4), ElapsedMs(now, 5, 6), ElapsedMs(now, 7, 8),
                 ElapsedMs(now, 0, 9))
  }

  ghost predicate Monotonic(now: nat -> real) {
    forall i: nat, j: nat :: i <= j ==> now(i) <= now(j)
  }

  /** With a monotonic clock every duration is non-negative and the total covers the four phases. */
  lemma MonotonicTimings(now: nat -> real)
    requires Monotonic(now)
    ensures ValidTimings(Timings(now))
    ensures var t := Timings(now);
            t.planningMs + t.gatheringMs + t.synthesisMs + t.verificationMs <= t.totalMs
  {
    var t := Timings(now);
    assert now(0) <= now(1) <= now(2) <= now(3) <= now(4) <= now(5) <= now(6) <= now(7) <= now(8) <= now(9);
    var sum := (now(2) - now(1)) + (now(4) - now(3)) + (now(6) - now(5)) + (now(8) - now(7));
    assert sum <= now(9) - now(0);
    assert (t.planningMs + t.gatheringMs + t.synthesisMs + t.verificationMs) as real <= sum * 1000.0;
    assert t.totalMs as real + 1.0 > (now(9) - now(0)) * 1000.0;
  }

  // ---------------------------------------------------------------------------
  // The workflow
  // ---------------------------------------------------------------------------

  /** The search results handed to synthesis: every successful search, in completion order. */
  function Gathered(p: ResearchPlan, gather: (nat, string) -> Outcome<SearchResult>, order: seq<nat>)
    : seq<SearchResult>
  {
    Collected(SearchOutcomes(p.webSearchSteps, gather), order)
  }

  /**
   * `run_research_workflow`: the first phase that fails decides the error; a
   * failed search only drops its result, unless every search failed. The final
   * records are built last: the timings first, then the result (whose query
   * must be non-empty).
   */
  function RunWorkflow(
    query: string,
    plan: string -> Outcome<ResearchPlan>,
    gather: (nat, string) -> Outcome<SearchResult>,
    order: seq<nat>,
    synthesize: (string, ResearchPlan, seq<SearchResult>) -> Outcome<ResearchReport>,
    verify: ResearchReport -> Outcome<ValidationResult>,
    now: nat -> real)
    : (r: Result<ResearchResult, Failure>)
    requires plan(query).Succeeded? ==> ValidPlan(plan(query).output)
    requires forall rep :: verify(rep).Succeeded? ==> ValidValidation(verify(rep).output)
    ensures plan(query).Failed? ==> r == Err(Pipeline(PlanningError(query, plan(query).reason)))
    ensures plan(query).Succeeded? ==>
              var p := plan(query).output;
              |Gathered(p, gather, order)| == 0 ==>
                r == Err(Pipeline(GatheringError(|p.webSearchSteps|, FailureCount(SearchOutcomes(p.webSearchSteps, gather)))))
    ensures plan(query).Succeeded? ==>
              var p := plan(query).output;
              var rs := Gathered(p, gather, order);
              |rs| >= 1 && synthesize(query, p, rs).Failed? ==>
                r == Err(Pipeline(SynthesisError(synthesize(query, p, rs).reason)))
    ensures plan(query).Succeeded? ==>
              var p := plan(query).output;
              var rs := Gathered(p, gather, order);
              |rs| >= 1 && synthesize(query, p, rs).Succeeded? && verify(synthesize(query, p, rs).output).Failed? ==>
                r == Err(Pipeline(VerificationError(verify(synthesize(query, p, rs).output).reason)))
    ensures r.Ok? ==> ValidResult(r.value) && r.value.query == query
    ensures r.Ok? ==> plan(query).Succeeded? && r.value.plan == plan(query).output
    ensures r.Ok? ==> r.value.searchResults == Gathered(r.value.plan, gather, order)
                      && |r.value.searchResults| >= 1
    ensures r.Ok? ==> synthesize(query, r.value.plan, r.value.searchResults) == Succeeded(r.value.report)
    ensures r.Ok? ==> verify(r.value.report) == Succeeded(r.value.validation)
    ensures r.Ok? ==> r.value.timings == Timings(now)
  {
    match plan(query)
    case Failed(reason) => Err(Pipeline(PlanningError(query, reason)))
    case Succeeded(p) =>
      var os := SearchOutcomes(p.webSearchSteps, gather);
      var results := Collected(os, order);
      if |results| == 0 then
        Err(Pipeline(GatheringError(|p.webSearchSteps|, FailureCount(os))))
      else
        match synthesize(query, p, results)
        case Failed(reason) => Err(Pipeline(SynthesisError(reason)))
        case Succeeded(report) =>
          match verify(report)
          case Failed(reason) => Err(Pipeline(VerificationError(reason)))
          case Succeeded(validation) =>
            var timings := Timings(now);
            if !ValidTimings(timings) then Err(ValidationFailure("PhaseTimings"))
            else if |query| == 0 then Err(ValidationFailure("ResearchResult"))
            else Ok(ResearchResult(query, p, results, report, validation, timings))
  }

  /**
   * The gathering phase fails exactly when every search failed, and then the
   * error reports as many failures as attempts (at least one).
   */
  lemma GatheringFailsOnlyWhenAllFail(
    query: string,
    plan: string -> Outcome<ResearchPlan>,
    gather: (nat, string) -> Outcome<SearchResult>,
    order: seq<nat>,
    synthesize: (string, ResearchPlan, seq<SearchResult>) -> Outcome<ResearchReport>,
    verify: ResearchReport -> Outcome<ValidationResult>,
    now: nat -> real)
    requires plan(query).Succeeded? && ValidPlan(plan(query).output)
    requires forall rep :: verify(rep).Succeeded? ==> ValidValidation(verify(rep).output)
    requires IsPermutation(order, |plan(query).output.webSearchSteps|)
    ensures var steps := plan(query).output.webSearchSteps;
            var r := RunWorkflow(query, plan, gather, order, synthesize, verify, now);
            (r.Err? && r.error.Pipeline? && r.error.err.GatheringError?)
            <==> forall i :: 0 <= i < |steps| ==> gather(i, steps[i].searchTerms).Failed?
    ensures var steps := plan(query).output.webSearchSteps;
            RunWorkflow(query, plan, gather, order, synthesize, verify, now) == Err(Pipeline(GatheringError(|steps|, |steps|)))
            <==> forall i :: 0 <= i < |steps| ==> gather(i, steps[i].searchTerms).Failed?
  {
    var p := plan(query).output;
    var os := SearchOutcomes(p.webSearchSteps, gather);
    CollectedIsRearrangement(os, order);
    assert |Collected(os, order)| == |Successes(os)| by {
      assert |multiset(Collected(os, order))| == |multiset(Successes(os))|;
    }
  }

  /**
   * The synthesis phase sees every successful search result, each exactly once,
   * whatever order the searches finished in.
   */
  lemma ResultsAreTheSuccessfulSearches(p: ResearchPlan, gather: (nat, string) -> Outcome<SearchResult>, order: seq<nat>)
    requires IsPermutation(order, |p.webSearchSteps|)
    ensures multiset(Gathered(p, gather, order)) == multiset(Successes(SearchOutcomes(p.webSearchSteps, gather)))
    ensures forall x :: x in Gathered(p, gather, order) <==>
              exists i :: 0 <= i < |p.webSearchSteps| && gather(i, p.webSearchSteps[i].searchTerms) == Succeeded(x)
  {
    var os := SearchOutcomes(p.webSearchSteps, gather);
    CollectedIsRearrangement(os, order);
    forall x ensures x in Gathered(p, gather, order) <==> exists i :: 0 <= i < |os| && os[i] == Succeeded(x) {
      CollectedMember(os, order, x);
    }
  }

  /** A result is collected exactly when some search produced it. */
  lemma CollectedMember(os: seq<Outcome<SearchResult>>, order: seq<nat>, x: SearchResult)
    requires IsPermutation(order, |os|)
    ensures x in Collected(os, order) <==> exists i :: 0 <= i < |os| && os[i] == Succeeded(x)
  {
    CollectedIsRearrangement(os, order);
    assert x in Collected(os, order) <==> x in multiset(Collected(os, order));
    assert x in Successes(os) <==> x in multiset(Successes(os));
    SuccessesMembers(os, x);
  }

  lemma {:induction false} SuccessesMembers(os: seq<Outcome<SearchResult>>, x: SearchResult)
    ensures x in Successes(os) <==> exists i :: 0 <= i < |os| && os[i] == Succeeded(x)
    decreases |os|
  {
    if |os| > 0 {
      var front := os[..|os| - 1];
      SuccessesMembers(front, x);
      if exists i :: 0 <= i < |os| && os[i] == Succeeded(x) {
        var i :| 0 <= i < |os| && os[i] == Succeeded(x);
        if i < |os| - 1 {
          assert front[i] == os[i];
        }
      }
      if exists i :: 0 <= i < |front| && front[i] == Succeeded(x) {
        var i :| 0 <= i < |front| && front[i] == Succeeded(x);
        assert os[i] == front[i];
      }
    }
  }

  /** Results are in completion order, not plan order: two searches finishing in reverse come back reversed. */
  lemma CompletionOrderWitness(a: SearchResult, b: SearchResult)
    ensures var p := ResearchPlan("s", [SearchStep("x", "p"), SearchStep("y", "p")], "i");
            var gather := (i: nat, t: string) => if i == 0 then Succeeded(a) else Succeeded(b);
            Gathered(p, gather, [1, 0]) == [b, a] && Gathered(p, gather, [0, 1]) == [a, b]
  {
    var p := ResearchPlan("s", [SearchStep("x", "p"), SearchStep("y", "p")], "i");
    var gather := (i: nat, t: string) => if i == 0 then Succeeded(a) else Succeeded(b);
    var os := SearchOutcomes(p.webSearchSteps, gather);
    assert os == [Succeeded(a), Succeeded(b)];
    var reversed: seq<nat> := [1, 0];
    var inPlan: seq<nat> := [0, 1];
    assert reversed[1..] == inPlan[..1];
    assert inPlan[1..] == reversed[..1];
    assert FlatMap(reversed, Pick(os)) == [b] + FlatMap(inPlan[..1], Pick(os));
    assert FlatMap(inPlan, Pick(os)) == [a] + FlatMap(reversed[..1], Pick(os));
  }

  /**
   * The workflow succeeds exactly when planning succeeds, some search succeeds,
   * synthesis and verification succeed, the query is non-empty and the clock
   * yields valid timings; with a monotonic clock the last condition always holds.
   */
  lemma WorkflowSucceedsIff(
    query: string,
    plan: string -> Outcome<ResearchPlan>,
    gather: (nat, string) -> Outcome<SearchResult>,
    order: seq<nat>,
    synthesize: (string, ResearchPlan, seq<SearchResult>) -> Outcome<ResearchReport>,
    verify: ResearchReport -> Outcome<ValidationResult>,
    now: nat -> real)
    requires plan(query).Succeeded? ==> ValidPlan(plan(query).output) && IsPermutation(order, |plan(query).output.webSearchSteps|)
    requires forall rep :: verify(rep).Succeeded? ==> ValidValidation(verify(rep).output)
    requires Monotonic(now)
    ensures RunWorkflow(query, plan, gather, order, synthesize, verify, now).Ok? <==>
            && plan(query).Succeeded?
            && |query| >= 1
            && (exists i :: 0 <= i < |plan(query).output.webSearchSteps|
                  && gather(i, plan(query).output.webSearchSteps[i].searchTerms).Succeeded?)
            && synthesize(query, plan(query).output, Gathered(plan(query).output, gather, order)).Succeeded?
            && verify(synthesize(query, plan(query).output, Gathered(plan(query).output, gather, order)).output).Succeeded?
  {
    MonotonicTimings(now);
    if plan(query).Succeeded? {
      var p := plan(query).output;
      var os := SearchOutcomes(p.webSearchSteps, gather);
      CollectedIsRearrangement(os, order);
      assert |Collected(os, order)| == |Successes(os)| by {
        assert |multiset(Collected(os, order))| == |multiset(Successes(os))|;
      }
    }
  }
}
