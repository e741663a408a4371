/**
 * The service's in-memory job table (`jobs`) and the operations on it: job
 * creation, the status, results and download endpoints with their 404 and
 * 400 guards, and the background runner that drives one job to a terminal
 * state. The runner is the imperative loop of `run_scraping_job`, proved to
 * leave the table exactly as `Jobs.RunJob` says.
 */
module Store {
  import opened Wrappers
  import opened Text
  import opened Extraction
  import opened Jobs

  /** An HTTP error an endpoint raises: status code and detail. */
  datatype HttpError = HttpError(statusCode: int, detail: string)

  const JobNotFound: HttpError := HttpError(404, "Job not found")
  const JobNotCompleted: HttpError := HttpError(400, "Job not completed")

  /** The body of the results endpoint. */
  datatype JobResults = JobResults(jobId: string, totalResults: int, results: seq<Record>)

  /** The body of the download endpoint; the CSV text is stood for by the rows it renders. */
  datatype Download = Download(filename: string, rows: seq<Record>, contentType: string)

  /** The file name the download endpoint proposes for a job's CSV. */
  function CsvFileName(jobId: string): string {
    "business_results_" + jobId + ".csv"
  }

  /** Every job is stored under its own id and is well formed. */
  ghost predicate ValidTable(jobs: map<string, Job>) {
    forall id :: id in jobs ==> jobs[id].jobId == id && WellFormed(jobs[id])
  }

  /** Storing a well-formed job under its own id keeps the table valid. */
  lemma StoreKeepsValid(jobs: map<string, Job>, job: Job)
    requires ValidTable(jobs) && WellFormed(job)
    ensures ValidTable(jobs[job.jobId := job])
  {
  }

  class JobStore {
    var jobs: map<string, Job>

    ghost predicate Valid()
      reads this
    {
      ValidTable(jobs)
    }

    constructor ()
      ensures jobs == map[] && Valid()
    {
      jobs := map[];
    }

    /**
     * `create_scraping_job`: stores a pending job under a fresh id (the
     * caller's `uuid4`) with the creation time and a single creation log.
     */
    method CreateScrapingJob(req: Request, jobId: string, now: string) returns (job: Job)
      requires jobId !in jobs
      modifies this
      ensures job.jobId == jobId && job.status == Pending
      ensures job.progress == 0 && job.totalCities == 0 && job.currentCity == ""
      ensures job.results == [] && job.error.None? && job.completedAt.None?
      ensures job.createdAt == now
      ensures job.logs == ["Job created for category: " + req.category]
      ensures jobs == old(jobs)[jobId := job]
      ensures old(Valid()) ==> Valid()
    {
      job := NewJob(jobId, req.category, now);
      if Valid() {
        StoreKeepsValid(jobs, job);
      }
      jobs := jobs[jobId := job];
    }

    /** `get_job_status`: the stored job, or 404. */
    function GetJobStatus(jobId: string): (r: Result<Job, HttpError>)
      reads this
      ensures r.Ok? <==> jobId in jobs
      ensures r.Ok? ==> r.value == jobs[jobId]
      ensures r.Err? ==> r.error == JobNotFound
    {
      if jobId in jobs then Ok(jobs[jobId]) else Err(JobNotFound)
    }

    /** The guard shared by the results and download endpoints: 404 for an unknown id, 400 until completed. */
    function CompletedJob(jobId: string): (r: Result<Job, HttpError>)
      reads this
      ensures r.Ok? <==> jobId in jobs && jobs[jobId].status == Completed
      ensures r.Ok? ==> r.value == jobs[jobId]
      ensures jobId !in jobs ==> r == Err(JobNotFound)
      ensures jobId in jobs && jobs[jobId].status != Completed ==> r == Err(JobNotCompleted)
      ensures Valid() && r.Ok? ==> r.value.progress == 100 && r.value.error.None? && r.value.completedAt.Some?
    {
      if jobId !in jobs then Err(JobNotFound)
      else if jobs[jobId].status != Completed then Err(JobNotCompleted)
      else Ok(jobs[jobId])
    }

    /** `get_job_results`: the id, the count and the records of a completed job. */
    function GetJobResults(jobId: string): (r: Result<JobResults, HttpError>)
      reads this
      ensures r.Ok? <==> jobId in jobs && jobs[jobId].status == Completed
      ensures jobId !in jobs ==> r == Err(JobNotFound)
      ensures jobId in jobs && jobs[jobId].status != Completed ==> r == Err(JobNotCompleted)
      ensures r.Ok? ==> && r.value.jobId == jobId
                        && r.value.results == jobs[jobId].results
                        && r.value.totalResults == |r.value.results|
      ensures Valid() && r.Ok? ==> jobs[jobId].progress == 100 && jobs[jobId].error.None?
    {
      match CompletedJob(jobId)
      case Err(e) => Err(e)
      case Ok(job) => Ok(JobResults(jobId, |job.results|, job.results))
    }

    /** `download_results`: a completed job's records as a CSV download named after the job. */
    function DownloadResults(jobId: string): (r: Result<Download, HttpError>)
      reads this
      ensures r.Ok? <==> jobId in jobs && jobs[jobId].status == Completed
      ensures jobId !in jobs ==> r == Err(JobNotFound)
      ensures jobId in jobs && jobs[jobId].status != Completed ==> r == Err(JobNotCompleted)
      ensures r.Ok? ==> && r.value.rows == jobs[jobId].results
                        && r.value.filename == CsvFileName(jobId)
                        && r.value.contentType == "text/csv"
    {
      match CompletedJob(jobId)
      case Err(e) => Err(e)
      case Ok(job) => Ok(Download(CsvFileName(jobId), job.results, "text/csv"))
    }

    /**
     * One assignment to a field of the stored job (`jobs[job_id].f = v`):
     * the entry under `jobId` becomes `job` and every other entry stays as
     * it is in `base`.
     */
    method Put(ghost base: map<string, Job>, jobId: string, job: Job)
      requires jobId in jobs && jobs == base[jobId := jobs[jobId]]
      modifies this
      ensures jobs == base[jobId := job]
    {
      jobs := jobs[jobId := job];
    }

    /** The start of `run_scraping_job`: the job is marked running, with its entry count and a start log. */
    method StartJob(ghost base: map<string, Job>, jobId: string, req: Request)
      requires jobId in jobs && jobs == base[jobId := jobs[jobId]]
      modifies this
      ensures jobId in jobs && jobs == base[jobId := jobs[jobId]]
      ensures jobs[jobId] == Started(old(jobs[jobId]), PlanOf(req))
    {
      Put(base, jobId, jobs[jobId].(status := Running));
      Put(base, jobId, jobs[jobId].(totalCities := |req.citiesData|));
      Put(base, jobId, jobs[jobId].(logs := jobs[jobId].logs + [StartLog(req.category)]));
    }

    /** The writes made before an entry is scraped: its label, its progress and its processing log. */
    method EnterEntry(ghost base: map<string, Job>, jobId: string, idx: nat, n: nat, loc: Location)
      requires jobId in jobs && jobs == base[jobId := jobs[jobId]]
      requires idx < n
      modifies this
      ensures jobId in jobs && jobs == base[jobId := jobs[jobId]]
      ensures jobs[jobId] == Entered(old(jobs[jobId]), idx, n, loc)
    {
      Put(base, jobId, jobs[jobId].(currentCity := Label(loc)));
      Put(base, jobId, jobs[jobId].(progress := Progress(idx, n)));
      Put(base, jobId, jobs[jobId].(logs := jobs[jobId].logs + [ProcessingLog(idx, n, loc)]));
    }

    /** The writes made after an entry is scraped: the gathered records and the found log. */
    method RecordFound(ghost base: map<string, Job>, jobId: string, found: seq<Record>, count: nat, loc: Location)
      requires jobId in jobs && jobs == base[jobId := jobs[jobId]]
      modifies this
      ensures jobId in jobs && jobs == base[jobId := jobs[jobId]]
      ensures jobs[jobId] == old(jobs[jobId]).(results := found, logs := old(jobs[jobId]).logs + [FoundLog(count, loc)])
    {
      Put(base, jobId, jobs[jobId].(results := found));
      Put(base, jobId, jobs[jobId].(logs := jobs[jobId].logs + [FoundLog(count, loc)]));
    }

    /**
     * The part of a pass of the loop for an entry that parses as `loc`: the
     * job shows the city, the progress and a processing log, the scraper is
     * asked for the city's records and, unless it raises, they are added to
     * the results with a log of how many were found. `fault` is the message
     * of an exception that escapes the scraper.
     */
    method ScrapeCity(ghost base: map<string, Job>, jobId: string, req: Request, scraper: BusinessScraper,
                      idx: nat, loc: Location, found: seq<Record>, ghost plan: Plan, ghost ex: Extractor)
      returns (found': seq<Record>, fault: Option<string>)
      requires jobId in jobs && jobs == base[jobId := jobs[jobId]]
      requires idx < |req.citiesData| && plan == PlanOf(req) && ex == ExtractorOf(scraper.browser)
      modifies this, scraper
      ensures jobId in jobs && jobs == base[jobId := jobs[jobId]]
      ensures RunState(jobs[jobId], found', scraper.pageOpen, fault)
           == Scraped(RunState(old(jobs[jobId]), found, old(scraper.pageOpen), None), plan, ex, idx, loc)
    {
      EnterEntry(base, jobId, idx, |req.citiesData|, loc);
      var e := scraper.ScrapeLocation(req.category, loc.city, loc.state, req.maxResultsPerCity);
      if e.Raised? {
        return found, Some(e.message);
      }
      found', fault := found + e.records, None;
      RecordFound(base, jobId, found', |e.records|, loc);
    }

    /**
     * One pass of the loop of `run_scraping_job`, for entry `idx`, on a job
     * that is not marked failed: an entry that splits into fewer than two
     * pieces is skipped; otherwise its stripped first two pieces are the city
     * and the state, and the city is scraped.
     */
    method ScrapeEntry(ghost base: map<string, Job>, jobId: string, req: Request,
                       scraper: BusinessScraper, idx: nat, found: seq<Record>,
                       ghost st0: RunState, ghost plan: Plan, ghost ex: Extractor)
      returns (found': seq<Record>, fault: Option<string>)
      requires jobId in jobs && jobs == base[jobId := jobs[jobId]]
      requires plan == PlanOf(req) && ex == ExtractorOf(scraper.browser)
      requires idx < |req.citiesData| && jobs[jobId].status != Failed
      requires RunState(jobs[jobId], found, scraper.pageOpen, None) == RunUpTo(st0, plan, ex, idx)
      modifies this, scraper
      ensures jobId in jobs && jobs == base[jobId := jobs[jobId]]
      ensures RunState(jobs[jobId], found', scraper.pageOpen, fault) == RunUpTo(st0, plan, ex, idx + 1)
    {
      PlanOfEntry(req, idx);
      var parts := Split(req.citiesData[idx], ',');
      if |parts| >= 2 {
        var loc := Location(Strip(parts[0]), Strip(parts[1]));
        assert plan.entries[idx] == Some(loc);
        found', fault := ScrapeCity(base, jobId, req, scraper, idx, loc, found, plan, ex);
      } else {
        assert plan.entries[idx] == None;
        found', fault := found, None;
      }
    }

    /** The end of `run_scraping_job`: completed when the loop ran out of entries, failed when an exception escaped. */
    method FinishJob(ghost base: map<string, Job>, jobId: string, ghost st: RunState,
                     found: seq<Record>, fault: Option<string>, now: string)
      requires jobId in jobs && jobs == base[jobId := jobs[jobId]]
      requires st.job == jobs[jobId] && st.found == found && st.fault == fault
      modifies this
      ensures jobs == base[jobId := Finish(st, now)]
    {
      if fault.None? {
        Put(base, jobId, jobs[jobId].(status := Completed));
        Put(base, jobId, jobs[jobId].(progress := 100));
        Put(base, jobId, jobs[jobId].(completedAt := Some(now)));
        Put(base, jobId, jobs[jobId].(logs := jobs[jobId].logs + [CompletedLog(|found|)]));
      } else {
        Put(base, jobId, jobs[jobId].(status := Failed));
        Put(base, jobId, jobs[jobId].(error := fault));
        Put(base, jobId, jobs[jobId].(completedAt := Some(now)));
        Put(base, jobId, jobs[jobId].(logs := jobs[jobId].logs + [FailedLog(fault.value)]));
      }
    }

    /**
     * The loop of `run_scraping_job` over every entry of the request, on a
     * scraper whose page is not open yet: it stops early when the job is
     * marked failed or the scraper raises, and otherwise ends as `RunUpTo`
     * over all entries says.
     */
    method ScrapeEntries(ghost base: map<string, Job>, jobId: string, req: Request, scraper: BusinessScraper)
      returns (found: seq<Record>, fault: Option<string>)
      requires jobId in jobs && jobs == base[jobId := jobs[jobId]]
      requires !scraper.pageOpen
      modifies this, scraper
      ensures jobId in jobs && jobs == base[jobId := jobs[jobId]]
      ensures RunState(jobs[jobId], found, scraper.pageOpen, fault)
           == RunUpTo(RunState(old(jobs[jobId]), [], false, None), PlanOf(req), ExtractorOf(scraper.browser),
                      |req.citiesData|)
    {
      ghost var plan := PlanOf(req);
      ghost var ex := ExtractorOf(scraper.browser);
      ghost var st0 := RunState(jobs[jobId], [], false, None);
      var n := |req.citiesData|;
      found, fault := [], None;
      var idx := 0;
      while idx < n
        invariant 0 <= idx <= n
        invariant jobId in jobs && jobs == base[jobId := jobs[jobId]]
        invariant RunState(jobs[jobId], found, scraper.pageOpen, None) == RunUpTo(st0, plan, ex, idx)
        invariant fault.None?
      {
        if jobs[jobId].status == Failed {
          HaltedStaysPut(st0, plan, ex, idx, n);
          break;
        }
        found, fault := ScrapeEntry(base, jobId, req, scraper, idx, found, st0, plan, ex);
        idx := idx + 1;
        if fault.Some? {
          HaltedStaysPut(st0, plan, ex, idx, n);
          break;
        }
      }
      assert RunState(jobs[jobId], found, scraper.pageOpen, fault) == RunUpTo(st0, plan, ex, n);
    }

    /**
     * `run_scraping_job`: marks the job running, walks the entries in order
     * through a fresh scraper, and ends completed, or failed when the scraper
     * raises. Only that job's entry of the table changes, and it changes
     * exactly as `RunJob` says.
     */
    method RunScrapingJob(jobId: string, req: Request, browser: Browser, now: string)
      requires jobId in jobs
      modifies this
      ensures jobs == old(jobs)[jobId := RunJob(old(jobs[jobId]), req, ExtractorOf(browser), now)]
      ensures jobs[jobId].status == Completed || jobs[jobId].status == Failed
      ensures old(Valid()) && old(jobs[jobId].status) == Pending ==> Valid()
    {
      ghost var base := jobs;
      ghost var job0 := jobs[jobId];
      ghost var plan := PlanOf(req);
      assert jobs == base[jobId := job0];
      var scraper := new BusinessScraper(browser);
      StartJob(base, jobId, req);
      var found, fault := ScrapeEntries(base, jobId, req, scraper);
      ghost var st := RunState(jobs[jobId], found, scraper.pageOpen, fault);
      FinishJob(base, jobId, st, found, fault, now);
      RunPlanKeepsIdentity(job0, plan, ExtractorOf(browser), now);
      if old(Valid()) && job0.status == Pending {
        RunPlanWellFormed(job0, plan, ExtractorOf(browser), now);
        StoreKeepsValid(base, jobs[jobId]);
      }
    }
  }
}
