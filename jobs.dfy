/**
 * The scraping job record and what `run_scraping_job` does to it, as pure
 * functions: one step per requested "city, state" entry, folded over the
 * entries, then the transition to a terminal state. The imperative runner in
 * module Store is proved equal to `RunPlan`; the lemmas here state what the
 * runner promises about status, progress, results and logs.
 */
module Jobs {
  import opened Wrappers
  import opened Text
  import opened Extraction

  datatype Status = Pending | Running | Completed | Failed

  /** A scraping job as the job table stores it. Timestamps are opaque strings. */
  datatype Job = Job(
    jobId: string,
    status: Status,
    progress: int,
    totalCities: int,
    currentCity: string,
    results: seq<Record>,
    error: Option<string>,
    createdAt: string,
    completedAt: Option<string>,
    logs: seq<string>)

  /** A creation request: a category and a list of "city, state" strings. */
  datatype Request = Request(category: string, citiesData: seq<string>, maxResultsPerCity: int)

  /** A parsed "city, state" entry. */
  datatype Location = Location(city: string, state: string)

  // ---------------------------------------------------------------- logs

  function CreatedLog(category: string): string {
    "Job created for category: " + category
  }

  function StartLog(category: string): string {
    "Starting scraping job for category: " + category
  }

  function Label(loc: Location): string {
    loc.city + ", " + loc.state
  }

  function ProcessingLog(idx: nat, n: nat, loc: Location): string {
    "Processing city " + NatToString(idx + 1) + "/" + NatToString(n) + ": " + Label(loc)
  }

  function FoundLog(count: nat, loc: Location): string {
    "Found " + NatToString(count) + " businesses in " + Label(loc)
  }

  function CompletedLog(total: nat): string {
    "Job completed successfully. Total businesses found: " + NatToString(total)
  }

  function FailedLog(message: string): string {
    "Job failed with error: " + message
  }

  // ---------------------------------------------------------------- creation

  /** The job `create_scraping_job` stores: pending, empty, with one creation log. */
  function NewJob(jobId: string, category: string, createdAt: string): Job {
    Job(jobId, Pending, 0, 0, "", [], None, createdAt, None, [CreatedLog(category)])
  }

  /**
   * The consistency every stored job keeps: progress is a percentage; a
   * pending job has done nothing; a completed job is at 100 with no error; a
   * failed job carries its error; only finished jobs have a completion time.
   */
  predicate WellFormed(job: Job) {
    && 0 <= job.progress <= 100
    && (job.status == Pending ==>
          job.progress == 0 && job.results == [] && job.error.None? && job.completedAt.None?)
    && (job.status == Running ==> job.completedAt.None?)
    && (job.status == Completed ==> job.progress == 100 && job.error.None? && job.completedAt.Some?)
    && (job.status == Failed ==> job.error.Some? && job.completedAt.Some?)
  }

  // ---------------------------------------------------------------- parsing

  /**
   * `city_state.split(",")`: an entry with no comma is skipped; otherwise the
   * stripped first two pieces are the city and the state, and any further
   * pieces are ignored.
   */
  function ParseCityState(entry: string): (loc: Option<Location>)
    ensures loc.Some? <==> ',' in entry
  {
    var parts := Split(entry, ',');
    SplitHasTwoParts(entry, ',');
    if |parts| >= 2 then Some(Location(Strip(parts[0]), Strip(parts[1]))) else None
  }

  /** The city is the text before the first comma and the state the text up to the next one, both stripped. */
  lemma ParseCityStateSpec(city: string, state: string, rest: string)
    requires ',' !in city && ',' !in state
    requires rest == [] || rest[0] == ','
    ensures ParseCityState(city + [','] + state + rest) == Some(Location(Strip(city), Strip(state)))
  {
    var parts := Split(city + [','] + state + rest, ',');
    FirstTwoPieces(city, state, rest);
    assert |parts| >= 2 && parts[0] == city && parts[1] == state;
  }

  lemma FirstTwoPieces(city: string, state: string, rest: string)
    requires ',' !in city && ',' !in state
    requires rest == [] || rest[0] == ','
    ensures var parts := Split(city + [','] + state + rest, ',');
      |parts| >= 2 && parts[0] == city && parts[1] == state
  {
    assert city + [','] + state + rest == city + [','] + (state + rest);
    SplitConcat(city, state + rest, ',');
    if rest == [] {
      assert state + rest == state;
      SplitNoSeparator(state, ',');
    } else {
      assert state + rest == state + [','] + rest[1..];
      SplitConcat(state, rest[1..], ',');
    }
  }

  /** The label written to `current_city` parses back to the same location. */
  lemma LabelRoundTrip(loc: Location)
    requires ',' !in loc.city && ',' !in loc.state
    requires Trimmed(loc.city) && Trimmed(loc.state)
    ensures ParseCityState(Label(loc)) == Some(loc)
  {
    var tail := [' '] + loc.state;
    assert Label(loc) == loc.city + [','] + tail;
    SplitConcat(loc.city, tail, ',');
    SplitNoSeparator(tail, ',');
    assert Split(Label(loc), ',') == [loc.city, tail];
    StripFixesTrimmed(loc.city);
    StripLeadingBlank(loc.state);
  }

  lemma StripLeadingBlank(s: string)
    requires Trimmed(s)
    ensures Strip([' '] + s) == s
  {
    var t := [' '] + s;
    assert t[1..] == s;
    assert TrimStart(t) == TrimStart(s);
    if s != [] {
      assert TrimStart(s) == s;
      assert TrimEnd(s) == s;
    }
  }

  /**
   * A request as the loop reads it: the category, every entry parsed, and
   * the cap. Parsing has no effect, so parsing every entry up front is the
   * same as parsing each one when the loop reaches it.
   */
  datatype Plan = Plan(category: string, entries: seq<Option<Location>>, maxResultsPerCity: int)

  function PlanOf(req: Request): (plan: Plan)
    ensures |plan.entries| == |req.citiesData|
    ensures plan.category == req.category && plan.maxResultsPerCity == req.maxResultsPerCity
  {
    Plan(req.category, ParseAll(req.citiesData), req.maxResultsPerCity)
  }

  /** Every entry parsed, in order. */
  function ParseAll(entries: seq<string>): (parsed: seq<Option<Location>>)
    ensures |parsed| == |entries|
  {
    if entries == [] then []
    else ParseAll(entries[..|entries| - 1]) + [ParseCityState(entries[|entries| - 1])]
  }

  /** Entry `i` of the parsed list is the parse of entry `i`. */
  lemma {:induction false} ParseAllEntry(entries: seq<string>, i: nat)
    requires i < |entries|
    ensures ParseAll(entries)[i] == ParseCityState(entries[i])
  {
    var init := entries[..|entries| - 1];
    var last := [ParseCityState(entries[|entries| - 1])];
    assert ParseAll(entries) == ParseAll(init) + last;
    if i < |init| {
      ParseAllEntry(init, i);
      assert entries[i] == init[i];
      assert (ParseAll(init) + last)[i] == ParseAll(init)[i];
    }
  }

  /** An entry of the plan is the parse of the request's entry, scraped exactly when it holds a comma. */
  lemma PlanOfEntry(req: Request, i: nat)
    requires i < |req.citiesData|
    ensures PlanOf(req).entries[i] == ParseCityState(req.citiesData[i])
    ensures PlanOf(req).entries[i].Some? <==> ',' in req.citiesData[i]
  {
    ParseAllEntry(req.citiesData, i);
  }

  /** Every entry of the plan is scraped exactly when the request's entry holds a comma. */
  lemma PlanOfEntries(req: Request)
    ensures forall i :: 0 <= i < |req.citiesData| ==>
      && PlanOf(req).entries[i] == ParseCityState(req.citiesData[i])
      && (PlanOf(req).entries[i].Some? <==> ',' in req.citiesData[i])
  {
    forall i | 0 <= i < |req.citiesData|
      ensures PlanOf(req).entries[i] == ParseCityState(req.citiesData[i])
    {
      PlanOfEntry(req, i);
    }
  }

  // ---------------------------------------------------------------- progress

  /** Progress when entry `idx` of `n` starts: `(idx + 1) * 100 / n`, rounded down. */
  function Progress(idx: nat, n: nat): int
    requires idx < n
  {
    (idx + 1) * 100 / n
  }

  lemma {:induction false} MulMonotone(x: nat, y: nat, n: nat)
    requires x <= y
    ensures x * n <= y * n
  {
    if x < y {
      MulMonotone(x, y - 1, n);
      assert y * n == (y - 1) * n + n;
    }
  }

  lemma DivAtMost(a: nat, n: nat, c: nat)
    requires n > 0 && a <= c * n
    ensures a / n <= c
  {
    var q := a / n;
    if q > c {
      MulMonotone(c + 1, q, n);
    }
  }

  lemma DivAtLeast(a: nat, n: nat, c: nat)
    requires n > 0 && c * n <= a
    ensures c <= a / n
  {
    var q := a / n;
    if q < c {
      MulMonotone(q + 1, c, n);
    }
  }

  lemma DivMonotone(a: nat, b: nat, n: nat)
    requires a <= b && n > 0
    ensures a / n <= b / n
  {
    DivAtLeast(b, n, a / n);
  }

  /**
   * Progress is a percentage, is positive exactly when at least one
   * hundredth of the entries has been reached, and is 100 at the last entry.
   */
  lemma ProgressRange(idx: nat, n: nat)
    requires idx < n
    ensures 0 <= Progress(idx, n) <= 100
    ensures Progress(idx, n) >= 1 <==> (idx + 1) * 100 >= n
    ensures idx == n - 1 ==> Progress(idx, n) == 100
  {
    var a := (idx + 1) * 100;
    MulMonotone(idx + 1, n, 100);
    DivAtMost(a, n, 100);
    if a >= n {
      DivAtLeast(a, n, 1);
    } else if a / n >= 1 {
      DivAtLeast(a, n, a / n);
      MulMonotone(1, a / n, n);
    }
    if idx == n - 1 {
      DivAtLeast(a, n, 100);
    }
  }

  /** A later entry never shows a lower progress. */
  lemma ProgressMonotone(i: nat, j: nat, n: nat)
    requires i <= j < n
    ensures Progress(i, n) <= Progress(j, n)
  {
    DivMonotone((i + 1) * 100, (j + 1) * 100, n);
  }

  // ---------------------------------------------------------------- the run

  /**
   * The runner's local state: the job as stored, the records gathered so far
   * (`all_results`), whether the scraper's page is open, and the message of
   * an exception that has escaped the loop, if any.
   */
  datatype RunState = RunState(job: Job, found: seq<Record>, pageOpen: bool, fault: Option<string>)

  /** The loop does nothing more once an exception escaped or the job is marked failed. */
  predicate Halted(st: RunState) {
    st.fault.Some? || st.job.status == Failed
  }

  /** The job once the runner starts: running, with its entry count and a start log. */
  function Started(job: Job, plan: Plan): Job {
    job.(status := Running, totalCities := |plan.entries|,
         logs := job.logs + [StartLog(plan.category)])
  }

  function InitialState(job: Job, plan: Plan): RunState {
    RunState(Started(job, plan), [], false, None)
  }

  /**
   * The job while entry `idx` of `n` is being scraped: it shows the entry's
   * label, the entry's progress and the processing log line.
   */
  function Entered(job: Job, idx: nat, n: nat, loc: Location): Job
    requires idx < n
  {
    job.(currentCity := Label(loc), progress := Progress(idx, n),
         logs := job.logs + [ProcessingLog(idx, n, loc)])
  }

  /**
   * Entry `idx`, parsed as `loc`, scraped: the job is entered, then the
   * extractor either raises (the message escapes the loop) or returns
   * records, which extend the gathered list and the stored results, followed
   * by the found log.
   */
  function Scraped(st: RunState, plan: Plan, ex: Extractor, idx: nat, loc: Location): RunState
    requires idx < |plan.entries|
  {
    var n := |plan.entries|;
    var job := Entered(st.job, idx, n, loc);
    var pageNowOpen := st.pageOpen || ex.launchError.None?;
    match CityExtraction(ex, st.pageOpen, plan.category, loc.city, loc.state, plan.maxResultsPerCity)
    case Raised(message) => RunState(job, st.found, pageNowOpen, Some(message))
    case Returned(records) =>
      var found := st.found + records;
      RunState(job.(results := found, logs := job.logs + [FoundLog(|records|, loc)]), found, pageNowOpen, None)
  }

  /** One iteration of the loop over the entries, for entry `idx`. */
  function CityStep(st: RunState, plan: Plan, ex: Extractor, idx: nat): RunState
    requires idx < |plan.entries|
  {
    if Halted(st) then st
    else match plan.entries[idx]
      case None => st
      case Some(loc) => Scraped(st, plan, ex, idx, loc)
  }

  /** The state after the first `k` iterations. */
  function RunUpTo(st0: RunState, plan: Plan, ex: Extractor, k: nat): RunState
    requires k <= |plan.entries|
  {
    if k == 0 then st0 else CityStep(RunUpTo(st0, plan, ex, k - 1), plan, ex, k - 1)
  }

  /** After the loop: completed when it ran out of entries, failed when an exception escaped. */
  function Finish(st: RunState, now: string): Job {
    match st.fault
    case None =>
      st.job.(status := Completed, progress := 100, completedAt := Some(now),
              logs := st.job.logs + [CompletedLog(|st.found|)])
    case Some(message) =>
      st.job.(status := Failed, error := Some(message), completedAt := Some(now),
              logs := st.job.logs + [FailedLog(message)])
  }

  /** The whole run on a plan: the loop over every entry, then the terminal transition. */
  function RunPlan(job: Job, plan: Plan, ex: Extractor, now: string): Job {
    Finish(RunUpTo(InitialState(job, plan), plan, ex, |plan.entries|), now)
  }

  /** `run_scraping_job` on a job, a request, the extractor and the finishing time. */
  function RunJob(job: Job, req: Request, ex: Extractor, now: string): Job {
    RunPlan(job, PlanOf(req), ex, now)
  }

  // ---------------------------------------------------------------- reference definitions

  /** The records entry `i` contributes when the browser is up. */
  function CityResults(plan: Plan, ex: Extractor, i: nat): seq<Record>
    requires i < |plan.entries|
  {
    match plan.entries[i]
    case None => []
    case Some(loc) => ex.cityRecords(plan.category, loc.city, loc.state, plan.maxResultsPerCity)
  }

  /** The two log lines entry `i` adds when the browser is up: processing, then found. */
  function CityLogs(plan: Plan, ex: Extractor, i: nat): seq<string>
    requires i < |plan.entries|
  {
    match plan.entries[i]
    case None => []
    case Some(loc) =>
      var n := |plan.entries|;
      [ProcessingLog(i, n, loc),
       FoundLog(|ex.cityRecords(plan.category, loc.city, loc.state, plan.maxResultsPerCity)|, loc)]
  }

  /** The concatenation, in entry order, of the records of the first `k` entries. */
  function ResultsUpTo(plan: Plan, ex: Extractor, k: nat): seq<Record>
    requires k <= |plan.entries|
  {
    if k == 0 then [] else ResultsUpTo(plan, ex, k - 1) + CityResults(plan, ex, k - 1)
  }

  /** The concatenation, in entry order, of the log lines of the first `k` entries. */
  function LogsUpTo(plan: Plan, ex: Extractor, k: nat): seq<string>
    requires k <= |plan.entries|
  {
    if k == 0 then [] else LogsUpTo(plan, ex, k - 1) + CityLogs(plan, ex, k - 1)
  }

  /** Number of the first `k` entries that are scraped. */
  function ParsedUpTo(plan: Plan, k: nat): nat
    requires k <= |plan.entries|
  {
    if k == 0 then 0
    else ParsedUpTo(plan, k - 1) + (if plan.entries[k - 1].Some? then 1 else 0)
  }

  /** `current_city` after the first `k` entries: the label of the last one scraped. */
  function LastLabel(plan: Plan, k: nat, initial: string): string
    requires k <= |plan.entries|
  {
    if k == 0 then initial
    else match plan.entries[k - 1]
      case Some(loc) => Label(loc)
      case None => LastLabel(plan, k - 1, initial)
  }

  // ---------------------------------------------------------------- lemmas about the run

  /** Once halted the loop changes nothing, so breaking out early is the same as running on. */
  lemma {:induction false} HaltedStaysPut(st0: RunState, plan: Plan, ex: Extractor, j: nat, k: nat)
    requires j <= k <= |plan.entries|
    requires Halted(RunUpTo(st0, plan, ex, j))
    ensures RunUpTo(st0, plan, ex, k) == RunUpTo(st0, plan, ex, j)
  {
    if j < k {
      HaltedStaysPut(st0, plan, ex, j, k - 1);
    }
  }

  /**
   * A job already marked failed when the loop is reached scrapes no entry,
   * yet the runner still marks it completed, at 100.
   */
  lemma FailedJobSkipsCities(st0: RunState, plan: Plan, ex: Extractor, now: string)
    requires st0.job.status == Failed && st0.fault.None?
    ensures RunUpTo(st0, plan, ex, |plan.entries|) == st0
    ensures var job := Finish(RunUpTo(st0, plan, ex, |plan.entries|), now);
      job.status == Completed && job.progress == 100 && job.results == st0.job.results
  {
    HaltedStaysPut(st0, plan, ex, 0, |plan.entries|);
  }

  /**
   * The loop never touches the status, the entry count, the identity, the
   * creation time, the error or the completion time.
   */
  lemma {:induction false} LoopKeepsFields(st0: RunState, plan: Plan, ex: Extractor, k: nat)
    requires k <= |plan.entries|
    ensures var st := RunUpTo(st0, plan, ex, k);
      && st.job.status == st0.job.status
      && st.job.totalCities == st0.job.totalCities
      && st.job.jobId == st0.job.jobId
      && st.job.createdAt == st0.job.createdAt
      && st.job.error == st0.job.error
      && st.job.completedAt == st0.job.completedAt
  {
    if k > 0 {
      LoopKeepsFields(st0, plan, ex, k - 1);
    }
  }

  /** The progress after `k` iterations is a percentage no higher than that of entry `k - 1`. */
  lemma {:induction false} ProgressBelow(st0: RunState, plan: Plan, ex: Extractor, k: nat)
    requires k <= |plan.entries|
    requires st0.job.progress == 0
    ensures var p := RunUpTo(st0, plan, ex, k).job.progress;
      0 <= p && (k > 0 ==> p <= Progress(k - 1, |plan.entries|))
  {
    var n := |plan.entries|;
    if k > 0 {
      ProgressBelow(st0, plan, ex, k - 1);
      ProgressRange(k - 1, n);
      if k > 1 {
        ProgressMonotone(k - 2, k - 1, n);
      }
    }
  }

  /** One iteration never lowers the progress and keeps it a percentage. */
  lemma ProgressStep(st0: RunState, plan: Plan, ex: Extractor, k: nat)
    requires k < |plan.entries|
    requires st0.job.progress == 0
    ensures RunUpTo(st0, plan, ex, k).job.progress <= RunUpTo(st0, plan, ex, k + 1).job.progress <= 100
  {
    var n := |plan.entries|;
    ProgressBelow(st0, plan, ex, k);
    ProgressRange(k, n);
    if k > 0 {
      ProgressMonotone(k - 1, k, n);
    }
  }

  /** Polled repeatedly, a running job's progress never goes backward and stays a percentage. */
  lemma {:induction false} ProgressNeverDecreases(st0: RunState, plan: Plan, ex: Extractor, j: nat, k: nat)
    requires j <= k <= |plan.entries|
    requires st0.job.progress == 0
    ensures RunUpTo(st0, plan, ex, j).job.progress <= RunUpTo(st0, plan, ex, k).job.progress
    ensures 0 <= RunUpTo(st0, plan, ex, k).job.progress <= 100
  {
    ProgressBelow(st0, plan, ex, k);
    if k > 0 {
      ProgressStep(st0, plan, ex, k - 1);
    }
    if j < k {
      ProgressNeverDecreases(st0, plan, ex, j, k - 1);
    }
  }

  /**
   * Logs and gathered records only grow: an earlier poll sees a prefix of a
   * later one. The stored results are the gathered records, once the job
   * started with none.
   */
  lemma {:induction false} AppendOnly(st0: RunState, plan: Plan, ex: Extractor, j: nat, k: nat)
    requires j <= k <= |plan.entries|
    requires st0.job.results == st0.found
    ensures var a := RunUpTo(st0, plan, ex, j);
      var b := RunUpTo(st0, plan, ex, k);
      && a.job.logs <= b.job.logs
      && a.found <= b.found
      && b.job.results == b.found
  {
    if j < k {
      AppendOnly(st0, plan, ex, j, k - 1);
    } else if k > 0 {
      AppendOnly(st0, plan, ex, k - 1, k - 1);
    }
  }

  /**
   * The job a poller sees while entry `k` is being scraped lies between the
   * states before and after that entry: its progress is already the one the
   * entry ends with and no lower than before, its logs extend the earlier
   * ones and are a prefix of the later ones, and its results are still the
   * earlier ones.
   */
  lemma MidEntryBetween(st0: RunState, plan: Plan, ex: Extractor, k: nat)
    requires k < |plan.entries| && plan.entries[k].Some?
    requires st0.job.progress == 0 && st0.job.results == st0.found
    requires !Halted(RunUpTo(st0, plan, ex, k))
    ensures var a := RunUpTo(st0, plan, ex, k);
      var b := RunUpTo(st0, plan, ex, k + 1);
      var m := Entered(a.job, k, |plan.entries|, plan.entries[k].value);
      && a.job.progress <= m.progress == b.job.progress <= 100
      && a.job.logs <= m.logs <= b.job.logs
      && m.results == a.job.results == a.found
  {
    ProgressStep(st0, plan, ex, k);
    AppendOnly(st0, plan, ex, k, k);
  }

  /** `current_city` names the last entry scraped so far. */
  lemma {:induction false} CurrentCityIsLastScraped(st0: RunState, plan: Plan, ex: Extractor, k: nat)
    requires k <= |plan.entries|
    requires !Halted(RunUpTo(st0, plan, ex, k))
    ensures RunUpTo(st0, plan, ex, k).job.currentCity == LastLabel(plan, k, st0.job.currentCity)
  {
    if k > 0 {
      CurrentCityIsLastScraped(st0, plan, ex, k - 1);
    }
  }

  /** One iteration with a browser that launches adds exactly that entry's records and log lines. */
  lemma LaunchedStep(st0: RunState, plan: Plan, ex: Extractor, k: nat)
    requires 0 < k <= |plan.entries|
    requires ex.launchError.None? && !Halted(RunUpTo(st0, plan, ex, k - 1))
    ensures !Halted(RunUpTo(st0, plan, ex, k))
    ensures RunUpTo(st0, plan, ex, k).found == RunUpTo(st0, plan, ex, k - 1).found + CityResults(plan, ex, k - 1)
    ensures RunUpTo(st0, plan, ex, k).job.logs == RunUpTo(st0, plan, ex, k - 1).job.logs + CityLogs(plan, ex, k - 1)
  {
  }

  lemma {:induction false} LaunchedNeverHalts(st0: RunState, plan: Plan, ex: Extractor, k: nat)
    requires k <= |plan.entries|
    requires ex.launchError.None? && !Halted(st0)
    ensures !Halted(RunUpTo(st0, plan, ex, k))
  {
    if k > 0 {
      LaunchedNeverHalts(st0, plan, ex, k - 1);
      LaunchedStep(st0, plan, ex, k);
    }
  }

  lemma {:induction false} LaunchedResults(st0: RunState, plan: Plan, ex: Extractor, k: nat)
    requires k <= |plan.entries|
    requires ex.launchError.None? && !Halted(st0)
    ensures RunUpTo(st0, plan, ex, k).found == st0.found + ResultsUpTo(plan, ex, k)
  {
    if k > 0 {
      LaunchedResults(st0, plan, ex, k - 1);
      LaunchedNeverHalts(st0, plan, ex, k - 1);
      LaunchedStep(st0, plan, ex, k);
      var before := ResultsUpTo(plan, ex, k - 1);
      var added := CityResults(plan, ex, k - 1);
      assert ResultsUpTo(plan, ex, k) == before + added;
      assert (st0.found + before) + added == st0.found + (before + added);
    }
  }

  lemma {:induction false} LaunchedLogs(st0: RunState, plan: Plan, ex: Extractor, k: nat)
    requires k <= |plan.entries|
    requires ex.launchError.None? && !Halted(st0)
    ensures RunUpTo(st0, plan, ex, k).job.logs == st0.job.logs + LogsUpTo(plan, ex, k)
  {
    if k > 0 {
      LaunchedLogs(st0, plan, ex, k - 1);
      LaunchedNeverHalts(st0, plan, ex, k - 1);
      LaunchedStep(st0, plan, ex, k);
      var before := LogsUpTo(plan, ex, k - 1);
      var added := CityLogs(plan, ex, k - 1);
      assert (st0.job.logs + before) + added == st0.job.logs + (before + added);
    }
  }

  /** An entry without a comma, wherever it sits, leaves the runner's state as it was. */
  lemma UnparsedEntrySkipped(st0: RunState, plan: Plan, ex: Extractor, k: nat)
    requires k < |plan.entries| && plan.entries[k].None?
    ensures RunUpTo(st0, plan, ex, k + 1) == RunUpTo(st0, plan, ex, k)
  {
  }

  /** Entries that are not scraped change nothing: while none has been scraped, the state is untouched. */
  lemma {:induction false} UnparsedPrefixSkipped(st0: RunState, plan: Plan, ex: Extractor, k: nat)
    requires k <= |plan.entries|
    requires forall i :: 0 <= i < k ==> plan.entries[i].None?
    ensures RunUpTo(st0, plan, ex, k) == st0
  {
    if k > 0 {
      UnparsedPrefixSkipped(st0, plan, ex, k - 1);
      UnparsedEntrySkipped(st0, plan, ex, k - 1);
    }
  }

  /**
   * A browser that fails to launch raises on the first entry that is
   * scraped: the loop stops there having recorded only that entry's city,
   * progress and processing log, and with no records.
   */
  lemma LaunchFailureLoop(st0: RunState, plan: Plan, ex: Extractor, i: nat)
    requires i < |plan.entries|
    requires ex.launchError.Some? && !Halted(st0) && !st0.pageOpen
    requires plan.entries[i].Some?
    requires forall j :: 0 <= j < i ==> plan.entries[j].None?
    ensures var n := |plan.entries|;
      var loc := plan.entries[i].value;
      RunUpTo(st0, plan, ex, n) ==
        RunState(st0.job.(currentCity := Label(loc), progress := Progress(i, n),
                          logs := st0.job.logs + [ProcessingLog(i, n, loc)]),
                 st0.found, false, Some(ex.launchError.value))
  {
    UnparsedPrefixSkipped(st0, plan, ex, i);
    HaltedStaysPut(st0, plan, ex, i + 1, |plan.entries|);
  }

  // ---------------------------------------------------------------- the whole run

  /**
   * A run whose browser launches completes: every entry counted in
   * `total_cities`, skipped ones included, progress 100, results the
   * concatenation in entry order of every scraped entry's records, logs the
   * start line, two lines per scraped entry and the completion line with the
   * total, and `current_city` left at the last entry scraped.
   */
  lemma RunPlanCompletes(job: Job, plan: Plan, ex: Extractor, now: string)
    requires ex.launchError.None?
    requires job.results == []
    ensures var r := RunPlan(job, plan, ex, now);
      var n := |plan.entries|;
      && r.status == Completed
      && r.totalCities == n
      && r.progress == 100
      && r.results == ResultsUpTo(plan, ex, n)
      && r.logs == job.logs + [StartLog(plan.category)] + LogsUpTo(plan, ex, n)
                   + [CompletedLog(|ResultsUpTo(plan, ex, n)|)]
      && r.currentCity == LastLabel(plan, n, job.currentCity)
      && r.error == job.error
      && r.completedAt == Some(now)
  {
    var st0 := InitialState(job, plan);
    var n := |plan.entries|;
    LaunchedNeverHalts(st0, plan, ex, n);
    LaunchedResults(st0, plan, ex, n);
    LaunchedLogs(st0, plan, ex, n);
    LoopKeepsFields(st0, plan, ex, n);
    AppendOnly(st0, plan, ex, n, n);
    CurrentCityIsLastScraped(st0, plan, ex, n);
    assert [] + ResultsUpTo(plan, ex, n) == ResultsUpTo(plan, ex, n);
  }

  /**
   * A run whose browser fails to launch fails at the first entry that is
   * scraped: the error is the launch message, no record is kept, and the logs
   * are the start line, that entry's processing line and the failure line.
   */
  lemma RunPlanFailsOnLaunch(job: Job, plan: Plan, ex: Extractor, now: string, i: nat)
    requires ex.launchError.Some?
    requires i < |plan.entries| && plan.entries[i].Some?
    requires forall j :: 0 <= j < i ==> plan.entries[j].None?
    ensures var r := RunPlan(job, plan, ex, now);
      var n := |plan.entries|;
      var loc := plan.entries[i].value;
      var message := ex.launchError.value;
      && r.status == Failed
      && r.totalCities == n
      && r.error == Some(message)
      && r.results == job.results
      && r.progress == Progress(i, n)
      && r.currentCity == Label(loc)
      && r.logs == job.logs + [StartLog(plan.category), ProcessingLog(i, n, loc), FailedLog(message)]
      && r.completedAt == Some(now)
  {
    LaunchFailureLoop(InitialState(job, plan), plan, ex, i);
  }

  /** A run ends failed exactly when the browser fails to launch and some entry is scraped. */
  lemma RunPlanFailedIff(job: Job, plan: Plan, ex: Extractor, now: string)
    ensures var r := RunPlan(job, plan, ex, now);
      && (r.status == Completed || r.status == Failed)
      && (r.status == Failed <==>
            ex.launchError.Some? && exists i :: 0 <= i < |plan.entries| && plan.entries[i].Some?)
  {
    var st0 := InitialState(job, plan);
    var n := |plan.entries|;
    if ex.launchError.None? {
      LaunchedNeverHalts(st0, plan, ex, n);
    } else if i :| 0 <= i < n && plan.entries[i].Some? {
      var first := FirstScraped(plan, i);
      LaunchFailureLoop(st0, plan, ex, first);
    } else {
      UnparsedPrefixSkipped(st0, plan, ex, n);
    }
  }

  /** The first scraped entry, given that entry `i` is scraped. */
  function FirstScraped(plan: Plan, i: nat): (f: nat)
    requires i < |plan.entries| && plan.entries[i].Some?
    ensures f <= i && plan.entries[f].Some?
    ensures forall j :: 0 <= j < f ==> plan.entries[j].None?
  {
    if i == 0 || forall j :: 0 <= j < i ==> plan.entries[j].None? then i
    else
      var j :| 0 <= j < i && plan.entries[j].Some?;
      FirstScraped(plan, j)
  }

  /** A scraped entry adds at most the cap, a skipped one nothing. */
  lemma CityResultsBound(plan: Plan, ex: Extractor, i: nat)
    requires i < |plan.entries|
    requires plan.maxResultsPerCity >= 0 && WithinCap(ex)
    ensures plan.entries[i].Some? ==> |CityResults(plan, ex, i)| <= plan.maxResultsPerCity
    ensures plan.entries[i].None? ==> CityResults(plan, ex, i) == []
  {
    match plan.entries[i]
    case None =>
    case Some(loc) =>
      assert |ex.cityRecords(plan.category, loc.city, loc.state, plan.maxResultsPerCity)| <= plan.maxResultsPerCity;
  }

  /** The sum of the caps of the first `k` entries: the cap for each scraped entry, nothing for the others. */
  function CapUpTo(plan: Plan, k: nat): int
    requires k <= |plan.entries|
  {
    if k == 0 then 0
    else CapUpTo(plan, k - 1) + (if plan.entries[k - 1].Some? then plan.maxResultsPerCity else 0)
  }

  lemma {:induction false} CapUpToIsProduct(plan: Plan, k: nat)
    requires k <= |plan.entries|
    ensures CapUpTo(plan, k) == ParsedUpTo(plan, k) * plan.maxResultsPerCity
  {
    if k > 0 {
      CapUpToIsProduct(plan, k - 1);
      var p := ParsedUpTo(plan, k - 1);
      var m := plan.maxResultsPerCity;
      assert (p + 1) * m == p * m + m;
    }
  }

  lemma {:induction false} ResultsWithinCaps(plan: Plan, ex: Extractor, k: nat)
    requires k <= |plan.entries|
    requires plan.maxResultsPerCity >= 0 && WithinCap(ex)
    ensures |ResultsUpTo(plan, ex, k)| <= CapUpTo(plan, k)
  {
    if k > 0 {
      ResultsWithinCaps(plan, ex, k - 1);
      ResultsStepWithinCap(plan, ex, k);
    }
  }

  lemma ResultsStepWithinCap(plan: Plan, ex: Extractor, k: nat)
    requires 0 < k <= |plan.entries|
    requires plan.maxResultsPerCity >= 0 && WithinCap(ex)
    ensures |ResultsUpTo(plan, ex, k)| - |ResultsUpTo(plan, ex, k - 1)| <= CapUpTo(plan, k) - CapUpTo(plan, k - 1)
  {
    CityResultsBound(plan, ex, k - 1);
  }

  /** Each scraped entry contributes at most `max_results_per_city` records. */
  lemma ResultsBound(plan: Plan, ex: Extractor, k: nat)
    requires k <= |plan.entries|
    requires plan.maxResultsPerCity >= 0 && WithinCap(ex)
    ensures |ResultsUpTo(plan, ex, k)| <= ParsedUpTo(plan, k) * plan.maxResultsPerCity
  {
    ResultsWithinCaps(plan, ex, k);
    CapUpToIsProduct(plan, k);
  }

  /** The run keeps the job's id and creation time. */
  lemma RunPlanKeepsIdentity(job: Job, plan: Plan, ex: Extractor, now: string)
    ensures RunPlan(job, plan, ex, now).jobId == job.jobId
    ensures RunPlan(job, plan, ex, now).createdAt == job.createdAt
  {
    LoopKeepsFields(InitialState(job, plan), plan, ex, |plan.entries|);
  }

  /** Running a well-formed pending job leaves a well-formed terminal job. */
  lemma RunPlanWellFormed(job: Job, plan: Plan, ex: Extractor, now: string)
    requires WellFormed(job) && job.status == Pending
    ensures WellFormed(RunPlan(job, plan, ex, now))
  {
    var st0 := InitialState(job, plan);
    var n := |plan.entries|;
    LoopKeepsFields(st0, plan, ex, n);
    ProgressNeverDecreases(st0, plan, ex, n, n);
  }

  // ---------------------------------------------------------------- the run on a request

  /**
   * With a browser that fails to launch, a request fails at its first entry
   * holding a comma: the error is the launch message, no record is kept, and
   * the logs are the start line, that entry's processing line and the
   * failure line.
   */
  lemma RunJobFailsOnLaunch(job: Job, req: Request, ex: Extractor, now: string, i: nat)
    requires ex.launchError.Some?
    requires i < |req.citiesData| && ',' in req.citiesData[i]
    requires forall j :: 0 <= j < i ==> ',' !in req.citiesData[j]
    ensures var r := RunJob(job, req, ex, now);
      var n := |req.citiesData|;
      var loc := ParseCityState(req.citiesData[i]).value;
      var message := ex.launchError.value;
      && r.status == Failed
      && r.totalCities == n
      && r.error == Some(message)
      && r.results == job.results
      && r.progress == Progress(i, n)
      && r.currentCity == Label(loc)
      && r.logs == job.logs + [StartLog(req.category), ProcessingLog(i, n, loc), FailedLog(message)]
      && r.completedAt == Some(now)
  {
    PlanOfEntries(req);
    RunPlanFailsOnLaunch(job, PlanOf(req), ex, now, i);
  }

  /**
   * A failed job can show progress 100: with one entry and a browser that
   * fails to launch, progress is set to 100 before the launch raises, and the
   * failure keeps it.
   */
  lemma FailedAtFullProgress(job: Job, category: string, cap: int, ex: Extractor, now: string)
    requires ex.launchError.Some?
    ensures var r := RunJob(job, Request(category, ["a, b"], cap), ex, now);
      r.status == Failed && r.progress == 100
  {
    var req := Request(category, ["a, b"], cap);
    assert ',' in req.citiesData[0];
    RunJobFailsOnLaunch(job, req, ex, now, 0);
    ProgressRange(0, 1);
  }

  /** A request's job ends failed exactly when the browser fails to launch and some entry holds a comma. */
  lemma RunJobFailedIff(job: Job, req: Request, ex: Extractor, now: string)
    ensures var r := RunJob(job, req, ex, now);
      && (r.status == Completed || r.status == Failed)
      && (r.status == Failed <==>
            ex.launchError.Some? && exists i :: 0 <= i < |req.citiesData| && ',' in req.citiesData[i])
  {
    var plan := PlanOf(req);
    PlanOfEntries(req);
    RunPlanFailedIff(job, plan, ex, now);
    if exists i :: 0 <= i < |req.citiesData| && ',' in req.citiesData[i] {
      var i :| 0 <= i < |req.citiesData| && ',' in req.citiesData[i];
      assert plan.entries[i].Some?;
    }
  }
}
