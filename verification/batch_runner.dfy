/**
 * The batch runner of the proof-of-concept: which questions a batch runs, the
 * record kept for each query, the aggregate summary, and the command line's
 * argument checks and exit status. Each query's research run is a parameter:
 * its confidence score or the text of the exception it raised. Clocks become
 * the per-query and total durations the caller passes in.
 */
module BatchRunner {
  import opened Outcomes
  import opened Text
  import opened Datasets
  import Workflow

  datatype BatchMode = SampleMode | CategoryMode | FullMode

  /** The `--mode` choices. */
  function ModeFromLabel(s: string): Option<BatchMode> {
    if s == "sample" then Some(SampleMode)
    else if s == "category" then Some(CategoryMode)
    else if s == "full" then Some(FullMode)
    else None
  }

  datatype BatchConfig = BatchConfig(
    mode: BatchMode,
    sampleSize: Option<int>,
    category: Option<Category>,
    runId: string)

  const DefaultSampleSize: int := 10
  const CategoryRequired: string := "Category mode requires category to be specified"

  /** `config.sample_size or 10`: an absent size and a size of 0 both mean 10. */
  function EffectiveSampleSize(size: Option<int>): (n: int)
    ensures size.None? ==> n == DefaultSampleSize
    ensures size.Some? && size.value == 0 ==> n == DefaultSampleSize
    ensures size.Some? && size.value != 0 ==> n == size.value
  {
    if size.None? || size.value == 0 then DefaultSampleSize else size.value
  }

  /** The question selection at the top of `execute_batch`. */
  function SelectQuestions(config: BatchConfig, ds: Dataset, draw: seq<nat>): (r: Result<seq<Question>, string>)
    requires IsPermutation(draw, |ds.questions|)
    ensures r.Ok? ==> |r.value| <= |ds.questions| && forall q :: q in r.value ==> q in ds.questions
    ensures config.mode == CategoryMode ==> (r.Err? <==> config.category.None?)
    ensures config.mode == CategoryMode && r.Ok? ==> forall q :: q in r.value ==> q.category == config.category.value
    ensures config.mode == FullMode ==> r == Ok(ds.questions)
    ensures config.mode == SampleMode && r.Ok? ==> |r.value| == Min(EffectiveSampleSize(config.sampleSize), |ds.questions|)
    ensures config.mode == SampleMode ==> (r.Err? <==> EffectiveSampleSize(config.sampleSize) < 0)
    ensures config.mode == SampleMode ==> r == Sample(ds.questions, EffectiveSampleSize(config.sampleSize), draw)
    ensures config.mode == CategoryMode && config.category.Some? ==> r == Ok(ByCategory(ds.questions, config.category.value))
  {
    match config.mode
    case SampleMode =>
      var r := Sample(ds.questions, EffectiveSampleSize(config.sampleSize), draw);
      if r.Ok? then
        SampleMembers(ds.questions, EffectiveSampleSize(config.sampleSize), draw);
        r
      else r
    case CategoryMode =>
      if config.category.None? then Err(CategoryRequired)
      else
        Ok(ByCategory(ds.questions, config.category.value))
    case FullMode => Ok(ds.questions)
  }

  lemma SampleMembers(qs: seq<Question>, n: int, draw: seq<nat>)
    requires IsPermutation(draw, |qs|)
    requires Sample(qs, n, draw).Ok?
    ensures |Sample(qs, n, draw).value| <= |qs|
    ensures forall q :: q in Sample(qs, n, draw).value ==> q in qs
  {
    var s := Sample(qs, n, draw).value;
    forall q | q in s ensures q in qs {
      var i :| 0 <= i < |s| && s[i] == q;
      assert s[i] == qs[draw[i]];
    }
  }

  /** What `execute_batch` records for one query (the timestamp is left out). */
  datatype QueryResult = QueryResult(
    questionId: string,
    query: string,
    category: Category,
    success: bool,
    durationMs: int,
    validationScore: Option<real>,
    error: Option<string>)

  /**
   * One query's record: the validation score on success, the exception text on
   * failure. `run` gives the research run's confidence score, or the text of
   * what it raised.
   */
  function Record(q: Question, run: string -> Outcome<real>, durationMs: nat): (r: QueryResult)
    ensures r.questionId == q.id && r.query == q.query && r.category == q.category && r.durationMs == durationMs
    ensures r.success <==> run(q.query).Succeeded?
    ensures r.success ==> r.validationScore == Some(run(q.query).output) && r.error.None?
    ensures !r.success ==> r.validationScore.None? && r.error == Some(run(q.query).reason)
  {
    match run(q.query)
    case Succeeded(score) => QueryResult(q.id, q.query, q.category, true, durationMs, Some(score), None)
    case Failed(reason) => QueryResult(q.id, q.query, q.category, false, durationMs, None, Some(reason))
  }

  /** The sequential loop of `execute_batch`: one record per question, in order. */
  function RunAll(qs: seq<Question>, run: string -> Outcome<real>, durations: nat -> nat): (rs: seq<QueryResult>)
    ensures |rs| == |qs|
    ensures forall i :: 0 <= i < |qs| ==> rs[i] == Record(qs[i], run, durations(i))
  {
    seq(|qs|, i requires 0 <= i < |qs| => Record(qs[i], run, durations(i)))
  }

  // ---------------------------------------------------------------------------
  // Summary
  // ---------------------------------------------------------------------------

  datatype CategoryStats = CategoryStats(total: nat, successful: nat, successRate: real, avgScore: real)

  datatype FailedQuery = FailedQuery(id: string, query: string, error: string)

  datatype BatchSummary = BatchSummary(
    runId: string,
    config: BatchConfig,
    totalDurationMs: int,
    totalQueries: nat,
    successful: nat,
    failed: nat,
    successRate: real,
    avgValidationScore: Option<real>,
    avgDurationMs: int,
    categoryStats: seq<(string, CategoryStats)>,
    failedQueries: seq<FailedQuery>)

  /** The results that succeeded (`success` true), in order. */
  function Successes(rs: seq<QueryResult>): (r: seq<QueryResult>)
    ensures |r| <= |rs|
    ensures forall x :: x in r <==> x in rs && x.success
  {
    if |rs| == 0 then []
    else (if rs[0].success then [rs[0]] else []) + Successes(rs[1..])
  }

  function Failures(rs: seq<QueryResult>): (r: seq<QueryResult>)
    ensures |r| <= |rs|
    ensures forall x :: x in r <==> x in rs && !x.success
  {
    if |rs| == 0 then []
    else (if !rs[0].success then [rs[0]] else []) + Failures(rs[1..])
  }

  /** Every result is a success or a failure, never both. */
  lemma {:induction false} SuccessesAndFailures(rs: seq<QueryResult>)
    ensures |Successes(rs)| + |Failures(rs)| == |rs|
  {
    if |rs| > 0 {
      SuccessesAndFailures(rs[1..]);
    }
  }

  /** The scores carried by the given results, in order, skipping results without one. */
  function Scores(rs: seq<QueryResult>): (r: seq<real>)
    ensures |r| <= |rs|
    ensures forall x :: x in r <==> exists i :: 0 <= i < |rs| && rs[i].validationScore == Some(x)
    ensures (forall i :: 0 <= i < |rs| ==> rs[i].validationScore.Some?) ==>
              |r| == |rs| && forall i :: 0 <= i < |rs| ==> r[i] == rs[i].validationScore.value
  {
    if |rs| == 0 then []
    else (if rs[0].validationScore.Some? then [rs[0].validationScore.value] else []) + Scores(rs[1..])
  }

  function SumReals(xs: seq<real>): real {
    if |xs| == 0 then 0.0 else xs[0] + SumReals(xs[1..])
  }

  function SumDurations(rs: seq<QueryResult>): int {
    if |rs| == 0 then 0 else rs[0].durationMs + SumDurations(rs[1..])
  }

  /** The mean, when there is anything to average. */
  function Mean(xs: seq<real>): (r: Option<real>)
    ensures r.None? <==> |xs| == 0
    ensures r.Some? ==> r.value * (|xs| as real) == SumReals(xs)
  {
    if |xs| == 0 then None else Some(SumReals(xs) / (|xs| as real))
  }

  /** `round(avg, 2) if avg else None`: a mean of exactly 0.0 is reported as missing too. */
  function AverageScore(successes: seq<QueryResult>): (r: Option<real>)
    ensures r.Some? <==> Mean(Scores(successes)).Some? && Mean(Scores(successes)).value != 0.0
    ensures r.Some? ==> r.value == Round2(Mean(Scores(successes)).value)
  {
    var m := Mean(Scores(successes));
    if m.Some? && m.value != 0.0 then Some(Round2(m.value)) else None
  }

  /** `int(sum / total)`, or 0 for an empty batch. */
  function AverageDuration(rs: seq<QueryResult>): int {
    if |rs| > 0 then Workflow.Truncate(SumDurations(rs) as real / |rs| as real) else 0
  }

  /** One category's entry of `category_stats`. */
  function StatsOf(rs: seq<QueryResult>): (s: CategoryStats)
    requires |rs| > 0
    ensures s.total == |rs| && s.successful == |Successes(rs)| <= s.total
  {
    var ok := Successes(rs);
    var scores := Mean(Scores(ok));
    CategoryStats(|rs|, |ok|, Round2(|ok| as real / |rs| as real),
                  Round2(if scores.Some? then scores.value else 0.0))
  }

  function OfCategoryResults(rs: seq<QueryResult>, c: Category): seq<QueryResult> {
    OfCategory(rs, (r: QueryResult) => r.category, c)
  }

  /** `category_stats`: one entry per category that has results, in the enum's order. */
  function CategoryStatsOver(rs: seq<QueryResult>, cs: seq<Category>): (r: seq<(string, CategoryStats)>)
    ensures |r| <= |cs|
    ensures forall e :: e in r ==>
              exists c :: c in cs && |OfCategoryResults(rs, c)| > 0 && e == (CategoryLabel(c), StatsOf(OfCategoryResults(rs, c)))
    ensures forall c :: c in cs && |OfCategoryResults(rs, c)| > 0 ==>
              (CategoryLabel(c), StatsOf(OfCategoryResults(rs, c))) in r
    decreases |cs|
  {
    if |cs| == 0 then []
    else
      var mine := OfCategoryResults(rs, cs[0]);
      (if |mine| > 0 then [(CategoryLabel(cs[0]), StatsOf(mine))] else []) + CategoryStatsOver(rs, cs[1..])
  }

  /** The error text a failed query shows: a missing error becomes "". */
  function ErrorText(e: Option<string>): string {
    if e.Some? then e.value else ""
  }

  /** One entry of `failed_queries`: the query cut to 100 and the error to 200 characters, each marked with "...". */
  function FailedEntry(r: QueryResult): (f: FailedQuery)
    ensures f.id == r.questionId
    ensures |f.query| <= 103 && |f.error| <= 203
    ensures |r.query| <= 100 ==> f.query == r.query
    ensures |ErrorText(r.error)| <= 200 ==> f.error == ErrorText(r.error)
    ensures |r.query| > 100 ==> f.query == r.query[..100] + "..."
    ensures |ErrorText(r.error)| > 200 ==> f.error == ErrorText(r.error)[..200] + "..."
  {
    FailedQuery(r.questionId, Ellipsize(r.query, 100, 100), Ellipsize(ErrorText(r.error), 200, 200))
  }

  /** `round(successful / total, 2)`, or 0 for an empty batch. */
  function SuccessRate(successful: nat, total: nat): (r: real)
    ensures total == 0 ==> r == 0.0
    ensures total > 0 ==> -0.005 <= r - (successful as real / total as real) <= 0.005
    ensures total > 0 ==> r * 100.0 == Hundredths(successful as real / total as real) as real
  {
    if total > 0 then Round2(successful as real / total as real) else 0.0
  }

  /** The `failed_queries` list: one entry per failure, in run order. */
  function FailedList(bad: seq<QueryResult>): (f: seq<FailedQuery>)
    ensures |f| == |bad|
    ensures forall i :: 0 <= i < |bad| ==> f[i] == FailedEntry(bad[i])
  {
    seq(|bad|, i requires 0 <= i < |bad| => FailedEntry(bad[i]))
  }

  /** `_generate_summary` (the start and end timestamps are left out). */
  function GenerateSummary(config: BatchConfig, rs: seq<QueryResult>, totalDurationMs: int): (s: BatchSummary)
    ensures s.runId == config.runId && s.config == config && s.totalDurationMs == totalDurationMs
    ensures s.totalQueries == |rs| && s.successful + s.failed == s.totalQueries
    ensures |rs| == 0 ==> s.successRate == 0.0 && s.avgDurationMs == 0
    ensures |rs| > 0 ==> -0.005 <= s.successRate - (s.successful as real / |rs| as real) <= 0.005
    ensures |s.failedQueries| == s.failed
    ensures |s.failedQueries| == |Failures(rs)|
            && forall i :: 0 <= i < |s.failedQueries| ==> s.failedQueries[i] == FailedEntry(Failures(rs)[i])
    ensures s.successful == |Successes(rs)| && s.failed == |Failures(rs)|
    ensures s.avgValidationScore == AverageScore(Successes(rs))
    ensures s.avgDurationMs == AverageDuration(rs)
    ensures s.categoryStats == CategoryStatsOver(rs, AllCategories) && TotalOf(s.categoryStats) == |rs|
  {
    var ok := Successes(rs);
    var bad := Failures(rs);
    SuccessesAndFailures(rs);
    CategoryTotalsCoverBatch(rs);
    BatchSummary(
      config.runId, config, totalDurationMs,
      |rs|, |ok|, |bad|,
      SuccessRate(|ok|, |rs|),
      AverageScore(ok),
      AverageDuration(rs),
      CategoryStatsOver(rs, AllCategories),
      FailedList(bad))
  }

  /** The average duration is the floor of the mean: it never overstates and is within 1 ms of it. */
  lemma AverageDurationBounds(rs: seq<QueryResult>)
    requires |rs| > 0
    requires forall i :: 0 <= i < |rs| ==> rs[i].durationMs >= 0
    ensures var avg := AverageDuration(rs);
            avg * |rs| <= SumDurations(rs) < (avg + 1) * |rs|
  {
    SumDurationsNonNegative(rs);
    var avg := AverageDuration(rs);
    ScaleBounds(SumDurations(rs), |rs|, avg);
  }

  /** `a <= s / n < a + 1` over the reals gives `a * n <= s < (a + 1) * n` over the integers. */
  lemma ScaleBounds(s: int, n: int, a: int)
    requires n > 0
    requires a as real <= s as real / n as real < a as real + 1.0
    ensures a * n <= s < (a + 1) * n
  {
    LowerBound(s, n, a);
    UpperBound(s, n, a);
  }

  lemma LowerBound(s: int, n: int, a: int)
    requires n > 0 && a as real <= s as real / n as real
    ensures a * n <= s
  {
    var q, nr := s as real / n as real, n as real;
    DivMul(s as real, nr);
    ScaleWeak(a as real, q, nr);
    CastProduct(a, n);
  }

  lemma UpperBound(s: int, n: int, a: int)
    requires n > 0 && s as real / n as real < a as real + 1.0
    ensures s < (a + 1) * n
  {
    var q, nr := s as real / n as real, n as real;
    DivMul(s as real, nr);
    ScaleStrict(q, a as real + 1.0, nr);
    CastProduct(a + 1, n);
    assert (a + 1) as real == a as real + 1.0;
  }

  lemma DivMul(x: real, k: real)
    requires k > 0.0
    ensures x / k * k == x
  {
  }

  lemma ScaleStrict(x: real, y: real, k: real)
    requires k > 0.0 && x < y
    ensures x * k < y * k
  {
  }

  lemma ScaleWeak(x: real, y: real, k: real)
    requires k > 0.0 && x <= y
    ensures x * k <= y * k
  {
  }

  lemma CastProduct(a: int, b: int)
    ensures (a * b) as real == a as real * b as real
  {
  }

  lemma {:induction false} SumDurationsNonNegative(rs: seq<QueryResult>)
    requires forall i :: 0 <= i < |rs| ==> rs[i].durationMs >= 0
    ensures SumDurations(rs) >= 0
  {
    if |rs| > 0 {
      SumDurationsNonNegative(rs[1..]);
    }
  }

  /** Category entries: only categories with results, each with at most as many successes as queries
      (a consequence of CategoryStatsOver's and StatsOf's contracts). */
  lemma CategoryStatsShape(rs: seq<QueryResult>, cs: seq<Category>)
    ensures forall e :: e in CategoryStatsOver(rs, cs) ==>
              e.1.successful <= e.1.total && e.1.total > 0
              && exists c :: c in cs && e.0 == CategoryLabel(c) && e.1.total == |OfCategoryResults(rs, c)|
  {
  }

  /** The category totals add up to the number of queries. */
  lemma CategoryTotalsCoverBatch(rs: seq<QueryResult>)
    ensures TotalOf(CategoryStatsOver(rs, AllCategories)) == |rs|
  {
    StatsTotalIsCount(rs, AllCategories);
    CategoriesPartition(rs, (r: QueryResult) => r.category);
  }

  function TotalOf(stats: seq<(string, CategoryStats)>): nat {
    if |stats| == 0 then 0 else stats[0].1.total + TotalOf(stats[1..])
  }

  lemma {:induction false} TotalOfAppend(a: seq<(string, CategoryStats)>, b: seq<(string, CategoryStats)>)
    ensures TotalOf(a + b) == TotalOf(a) + TotalOf(b)
    decreases |a|
  {
    if |a| == 0 {
      assert a + b == b;
    } else {
      assert (a + b)[1..] == a[1..] + b;
      TotalOfAppend(a[1..], b);
    }
  }

  lemma {:induction false} StatsTotalIsCount(rs: seq<QueryResult>, cs: seq<Category>)
    ensures TotalOf(CategoryStatsOver(rs, cs)) == CountAcross(rs, (r: QueryResult) => r.category, cs)
    decreases |cs|
  {
    if |cs| > 0 {
      var mine := OfCategoryResults(rs, cs[0]);
      var head: seq<(string, CategoryStats)> := if |mine| > 0 then [(CategoryLabel(cs[0]), StatsOf(mine))] else [];
      assert CategoryStatsOver(rs, cs) == head + CategoryStatsOver(rs, cs[1..]);
      TotalOfAppend(head, CategoryStatsOver(rs, cs[1..]));
      StatsTotalIsCount(rs, cs[1..]);
    }
  }

  // ---------------------------------------------------------------------------
  // Command line
  // ---------------------------------------------------------------------------

  /** The parsed command line: `--mode`, `--size`, `--category`, each possibly absent. */
  datatype CliArgs = CliArgs(mode: Option<string>, size: Option<int>, category: Option<string>)

  /** argparse's and `parser.error`'s exit status. */
  const UsageError: int := 2

  /** The argument checks of `main` and the configuration it builds; `timestamp` is the formatted clock. */
  function ParseCli(args: CliArgs, timestamp: string): (r: Result<BatchConfig, int>)
    ensures r.Err? ==> r.error == UsageError
    ensures r.Ok? <==> (args.mode.Some? && ModeFromLabel(args.mode.value).Some?
                        && (args.category.Some? ==> CategoryFromLabel(args.category.value).Some?)
                        && (args.mode.value == "sample" ==> args.size.Some?)
                        && (args.mode.value == "category" ==> args.category.Some?))
    ensures r.Ok? ==> r.value.mode == ModeFromLabel(args.mode.value).value
    ensures r.Ok? && r.value.mode == SampleMode ==> r.value.sampleSize == args.size && r.value.category.None?
    ensures r.Ok? && r.value.mode == CategoryMode ==>
              r.value.category == CategoryFromLabel(args.category.value) && r.value.sampleSize.None?
    ensures r.Ok? && r.value.mode == FullMode ==> r.value.sampleSize.None? && r.value.category.None?
  {
    if args.mode.None? || ModeFromLabel(args.mode.value).None? then Err(UsageError)
    else if args.category.Some? && CategoryFromLabel(args.category.value).None? then Err(UsageError)
    else
      var mode := ModeFromLabel(args.mode.value).value;
      if mode == SampleMode && args.size.None? then Err(UsageError)
      else if mode == CategoryMode && args.category.None? then Err(UsageError)
      else
        var runId := match mode
          case SampleMode => "sample_" + IntToString(args.size.value) + "_" + timestamp
          case CategoryMode => "category_" + args.category.value + "_" + timestamp
          case FullMode => "full_" + timestamp;
        Ok(BatchConfig(
          mode,
          if mode == SampleMode then args.size else None,
          if mode == CategoryMode then CategoryFromLabel(args.category.value) else None,
          runId))
  }

  /** `execute_batch`: select, run each question in turn, summarise. */
  function ExecuteBatch(
    config: BatchConfig, ds: Dataset, draw: seq<nat>,
    run: string -> Outcome<real>, durations: nat -> nat, totalDurationMs: int)
    : (r: Result<BatchSummary, string>)
    requires IsPermutation(draw, |ds.questions|)
    ensures r.Ok? <==> SelectQuestions(config, ds, draw).Ok?
    ensures r.Ok? ==> r.value.totalQueries == |SelectQuestions(config, ds, draw).value|
    ensures r.Ok? ==> r.value == GenerateSummary(config, RunAll(SelectQuestions(config, ds, draw).value, run, durations), totalDurationMs)
  {
    match SelectQuestions(config, ds, draw)
    case Err(e) => Err(e)
    case Ok(qs) => Ok(GenerateSummary(config, RunAll(qs, run, durations), totalDurationMs))
  }

  /** `main`'s exit status: 2 for bad arguments, 1 when the batch raised or any query failed, 0 otherwise. */
  function MainExitCode(
    args: CliArgs, timestamp: string, ds: Dataset, draw: seq<nat>,
    run: string -> Outcome<real>, durations: nat -> nat, totalDurationMs: int)
    : (code: int)
    requires IsPermutation(draw, |ds.questions|)
    ensures code == 0 || code == 1 || code == UsageError
    ensures code == UsageError <==> ParseCli(args, timestamp).Err?
  {
    match ParseCli(args, timestamp)
    case Err(status) => status
    case Ok(config) =>
      match ExecuteBatch(config, ds, draw, run, durations, totalDurationMs)
      case Err(_) => 1
      case Ok(summary) => if summary.failed == 0 then 0 else 1
  }

  /** The batch exits 0 exactly when the arguments are valid and every selected query succeeded. */
  lemma ExitZeroIffAllSucceeded(
    args: CliArgs, timestamp: string, ds: Dataset, draw: seq<nat>,
    run: string -> Outcome<real>, durations: nat -> nat, totalDurationMs: int)
    requires IsPermutation(draw, |ds.questions|)
    ensures MainExitCode(args, timestamp, ds, draw, run, durations, totalDurationMs) == 0 <==>
              ParseCli(args, timestamp).Ok?
              && SelectQuestions(ParseCli(args, timestamp).value, ds, draw).Ok?
              && forall q :: q in SelectQuestions(ParseCli(args, timestamp).value, ds, draw).value ==> run(q.query).Succeeded?
  {
    var p := ParseCli(args, timestamp);
    if p.Ok? && SelectQuestions(p.value, ds, draw).Ok? {
      var qs := SelectQuestions(p.value, ds, draw).value;
      var rs := RunAll(qs, run, durations);
      NoFailuresIff(rs);
      if forall q :: q in qs ==> run(q.query).Succeeded? {
        forall i | 0 <= i < |rs| ensures rs[i].success { assert qs[i] in qs; }
      } else {
        var q :| q in qs && !run(q.query).Succeeded?;
        var i :| 0 <= i < |qs| && qs[i] == q;
        assert !rs[i].success;
      }
    }
  }

  lemma {:induction false} NoFailuresIff(rs: seq<QueryResult>)
    ensures |Failures(rs)| == 0 <==> forall i :: 0 <= i < |rs| ==> rs[i].success
  {
    if |rs| > 0 {
      NoFailuresIff(rs[1..]);
      if !rs[0].success {
        assert rs[0] in Failures(rs);
      }
      if forall i :: 0 <= i < |rs[1..]| ==> rs[1..][i].success {
        assert forall i :: 1 <= i < |rs| ==> rs[i].success by {
          forall i | 1 <= i < |rs| ensures rs[i].success { assert rs[i] == rs[1..][i - 1]; }
        }
      }
    }
  }

  /** `--size 0` is accepted and names the run "sample_0_...", yet runs ten questions. */
  lemma SampleSizeZeroRunsTen(timestamp: string, ds: Dataset, draw: seq<nat>)
    requires IsPermutation(draw, |ds.questions|) && |ds.questions| >= 10
    ensures var r := ParseCli(CliArgs(Some("sample"), Some(0), None), timestamp);
            r.Ok? && r.value.runId == "sample_0_" + timestamp
            && SelectQuestions(r.value, ds, draw).Ok? && |SelectQuestions(r.value, ds, draw).value| == 10
  {
    assert IntToString(0) == "0";
  }
}
