# Scraping-job orchestrator of the Google Business Scraper backend

This project models the job orchestrator of the scraper's FastAPI backend (`backend/main.py`). The model has four parts:

- **The job table.** This is the in-memory `jobs` dictionary. It is the class `Store.JobStore`, whose field `jobs` is a `map<string, Job>`. Its operations are:
  - `create_scraping_job`;
  - `get_job_status`;
  - `get_job_results` and `download_results`, with their 404 ("Job not found") and 400 ("Job not completed") guards.
- **The background runner `run_scraping_job`.** It is an imperative method on the table, split into the source's three phases:
  - start the job;
  - loop over the `"city, state"` entries, one entry per pass;
  - finish the job.
  Each write `jobs[job_id].field = value` is one `Put` of the updated record. The runner is proved to leave the table exactly as the pure function `Jobs.RunJob` says, and to change no other entry.
- **The runner as a pure specification** (module `Jobs`):
  - one step per entry (`CityStep`), folded over the entries (`RunUpTo`), then the terminal transition (`Finish`);
  - lemmas about status, progress, results, logs and `current_city`;
  - whole-run theorems for a browser that launches and for one that does not.
- **The per-city extraction of `scrape_location`** (module `Extraction`). Each listing `href` is cut at its first `?`, the links are de-duplicated, at most `max_results` of them are kept, and each page that opens becomes one record. The class `BusinessScraper` models the scraper object, with its page-open state.

The runner's lemmas are stated over an abstract `Extractor`: a launch outcome plus a function from (category, city, state, cap) to records. `ExtractorOf(browser)` is the extractor the scraper implements. It is proved to keep the cap (`ExtractorOfWithinCap`). It raises only when the browser fails to launch, on the first city that is scraped. After launch, a missing feed or a failing search step gives the city an empty list; a listing whose visit raises is skipped, and the city keeps the records of its other listings.

Module `Text` models the Python string operations the code relies on:

- `str.split` with a one-character separator;
- `str.strip()` over the characters `str.isspace()` accepts;
- `s.split(sep)[0]`;
- `str(n)` for a natural number.

Module `Wrappers` holds `Option` and `Result`.

The browser, the clock and the id generator are inputs:

- a `Browser` value answers whether the browser launches, which listing links a search shows, and which fields a listing page shows;
- `now` is the completion timestamp, an opaque string;
- `jobId` is the fresh id, which must not already be in the table.

### Behaviour that differs from what the API suggests (the model follows the code)

- **Request validation.** No request is validated. An empty city list and a cap of zero or less are both accepted. A negative cap follows Python's slice rule: `s[:m]` drops the last `-m` links (`Extraction.PyTake`).
- **Per-city retry.** There is no per-city retry and no "skipped" log line. A city whose feed never appears, or whose page steps raise, contributes no records and logs "Found 0 businesses in …". The only failure that ends a job is a browser launch failure, on the first entry that is scraped.
- **Malformed entries.** An entry without a comma is skipped silently: no log line, no progress update, no `current_city` change. It still counts in `total_cities`.
- **Progress.** Progress is set *before* an entry is scraped, to `(idx+1)*100/n`. It is not set after the entry completes. When there are more than 100 entries, the first entries show progress 0 (`Jobs.ProgressRange`).
- **A failed job at 100.** A failed job can show progress 100, although one might expect progress 100 only for completed jobs. Take one entry `"a, b"` and a browser that fails to launch. Progress is set to 100 (main.py:222) before the scrape call raises (main.py:227), and the failure handler (main.py:249-252) keeps it (`Jobs.FailedAtFullProgress`).
- **`current_city`.** It is not reset to `""` on completion. It keeps the label of the last entry that was scraped (`Jobs.CurrentCityIsLastScraped`).
- **Failed jobs.** The results and download endpoints answer 400 for a failed job. Partial results of a failed job are visible only through the status endpoint.
- **Cancellation.** There is no cancellation. The loop does check `status == FAILED` at the top of each pass, but that check is unreachable in a sequential run: the status was set to `RUNNING` just before the loop, and only the exception handler sets `FAILED`. `Jobs.FailedJobSkipsCities` states what the check would do: no further entry is scraped, and the job is still marked completed at 100.
- **The per-city cap.** The cap limits the links visited, not the records yielded: one record per visited link whose page opens.

## Model

| member | source | states |
|---|---|---|
| Store.JobStore.constructor | backend/main.py:48 | the job table starts empty (and valid) |
| Store.JobStore.CreateScrapingJob | backend/main.py:259-276 | inserts, under an id not in the table, a pending job with progress 0, total_cities 0, empty current city, results, error and completion time, the given creation time and exactly the log "Job created for category: <category>"; no other entry changes; a valid table stays valid |
| Store.JobStore.GetJobStatus | backend/main.py:278-285 | succeeds exactly when the id is in the table, returning the stored job; otherwise 404 "Job not found" |
| Store.JobStore.CompletedJob | backend/main.py:290-295 | the shared guard: Ok exactly when the job exists and is completed; 404 for an unknown id; 400 "Job not completed" for any other status; in a valid table the job it lets through is at progress 100 with no error and a completion time |
| Store.JobStore.GetJobResults | backend/main.py:287-301 | Ok exactly when the job exists and is completed, with the job id, its results and `total_results == len(results)`; otherwise 404 or 400 as above; in a valid table a job whose results are served is at progress 100 with no error |
| Store.CsvFileName | backend/main.py:318 | defines the download's file name, "business_results_", the job id and ".csv" |
| Store.JobStore.DownloadResults | backend/main.py:303-321 | same guards; a completed job's download carries its results as rows, the name `business_results_<id>.csv` and type `text/csv` |
| Store.JobStore.Put | backend/main.py:205-252 | one field write `jobs[job_id].f = v`: the job's entry becomes the updated record and every other entry is unchanged |
| Store.JobStore.StartJob | backend/main.py:205-207 | the job becomes running, `total_cities` is the number of entries, and the start log is appended |
| Store.JobStore.EnterEntry | backend/main.py:221-223 | the three writes before a scrape leave the job equal to `Entered`: the entry's label, its progress and its processing line; no other entry changes |
| Store.JobStore.RecordFound | backend/main.py:234-236 | the two writes after a scrape store the gathered records as results and append the found line; no other entry changes |
| Store.JobStore.ScrapeCity | backend/main.py:221-236 | for a parsed entry, entering it, calling `scrape_location` and recording what it found (or letting its exception escape) is exactly `Scraped` |
| Store.JobStore.ScrapeEntry | backend/main.py:212-240 | one pass of the loop (split on the comma, skip an entry with fewer than two pieces, strip city and state, scrape the city) takes the runner's state from `RunUpTo` of the first idx entries to `RunUpTo` of the first idx+1; no other entry changes |
| Store.JobStore.ScrapeEntries | backend/main.py:209-240 | the loop over all entries, stopping on a failed status or an escaping exception, ends in the state `RunUpTo` gives for all entries |
| Store.JobStore.FinishJob | backend/main.py:242-252 | completed with progress 100, completion time and the total-count log when no exception escaped; otherwise failed with the message as error, completion time and the failure log |
| Store.JobStore.RunScrapingJob | backend/main.py:199-257 | the table after the run is the table before with only this job replaced by `RunJob` of it; the job ends completed or failed; a valid table with the job pending stays valid |
| Jobs.Label | backend/main.py:221 | defines the `current_city` label "<city>, <state>", also used in the processing and found log lines (main.py:223, 236) |
| Jobs.CreatedLog | backend/main.py:268 | defines the creation log line, "Job created for category: " and the category |
| Jobs.StartLog | backend/main.py:207 | defines the start log line, "Starting scraping job for category: " and the category |
| Jobs.ProcessingLog | backend/main.py:223 | defines the processing line, "Processing city i/n: city, state" with i one-based |
| Jobs.FoundLog | backend/main.py:236 | defines the per-city line, "Found k businesses in city, state" |
| Jobs.CompletedLog | backend/main.py:245 | defines the completion line, with the total number of records |
| Jobs.FailedLog | backend/main.py:252 | defines the failure line, with the exception message |
| Jobs.NewJob | backend/main.py:264-269 | defines the job `create_scraping_job` builds: pending, with the model's field defaults (main.py:61-71), the creation time and the creation log |
| Jobs.ParseCityState | backend/main.py:216-219 | an entry is scraped exactly when it contains a comma |
| Jobs.ParseCityStateSpec | backend/main.py:216-219 | the city is the stripped text before the first comma and the state the stripped text up to the next comma; further pieces are ignored |
| Jobs.LabelRoundTrip | backend/main.py:221 | the `current_city` label of a stripped, comma-free location parses back to the same location |
| Jobs.PlanOf | backend/main.py:211-219 | the runner's view of a request keeps one entry per requested string, the category and the cap |
| Jobs.ParseAll | backend/main.py:211-219 | one parse per requested string |
| Jobs.ParseAllEntry | backend/main.py:216-219 | element i of the parsed list is the parse of string i |
| Jobs.PlanOfEntry | backend/main.py:216-217 | entry i of the plan is the parse of string i, present exactly when that string contains a comma |
| Jobs.PlanOfEntries | backend/main.py:216-217 | the same for every entry at once |
| Jobs.Progress | backend/main.py:222 | defines the progress written for entry idx of n, `(idx+1)*100` divided by n and rounded down |
| Jobs.ProgressRange | backend/main.py:222 | progress is within 0..100, is at least 1 exactly when `(idx+1)*100 >= n`, and is 100 at the last entry |
| Jobs.ProgressMonotone | backend/main.py:222 | a later entry never shows a lower progress |
| Jobs.Started | backend/main.py:205-207 | defines the job as the runner starts it: running, `total_cities` the number of entries, the start log appended |
| Jobs.Entered | backend/main.py:221-223 | defines the job while an entry is scraped: the entry's label as `current_city`, its progress, and its processing line appended |
| Jobs.Scraped | backend/main.py:221-236 | defines the scrape of a parsed entry: the entry is entered, then the extractor either raises (the exception escapes) or returns records that extend the results and add the found line |
| Jobs.CityStep | backend/main.py:212-240 | defines one pass of the loop: nothing after a failure or a FAILED status; a comma-free entry is skipped; any other entry is `Scraped` |
| Jobs.RunUpTo | backend/main.py:211-240 | defines the state after the first k passes of the loop |
| Jobs.Finish | backend/main.py:242-252 | defines the terminal transition: completed at 100 with the total-count line when no exception escaped, otherwise failed with the message as error and the failure line; completion time set either way |
| Jobs.RunPlan | backend/main.py:199-252 | defines the whole run on a parsed request: start, the loop over every entry, then the terminal transition |
| Jobs.RunJob | backend/main.py:199-252 | defines `run_scraping_job` on a job and a request, given the extractor and the completion time |
| Jobs.HaltedStaysPut | backend/main.py:211-213 | once an exception escaped or the job is failed, further iterations change nothing, so breaking out equals running on |
| Jobs.FailedJobSkipsCities | backend/main.py:212-243 | a job already failed at the loop scrapes nothing and is still marked completed at 100 with its results unchanged |
| Jobs.LoopKeepsFields | backend/main.py:211-240 | the loop never changes status (running throughout), total_cities, id, creation time, error or completion time |
| Jobs.ProgressNeverDecreases | backend/main.py:222 | progress seen by repeated polling never goes backward and stays a percentage |
| Jobs.AppendOnly | backend/main.py:207-236 | logs and gathered results only grow (an earlier state's are a prefix of a later one's) and the stored results are the gathered list |
| Jobs.MidEntryBetween | backend/main.py:221-236 | the job a poller sees while an entry is being scraped lies between the states before and after it: progress already that entry's final value, no lower than before and at most 100; logs a prefix-extension of the earlier logs and a prefix of the later ones; results still the earlier ones |
| Jobs.CurrentCityIsLastScraped | backend/main.py:221 | `current_city` is the label of the last entry scraped so far, skipped entries leaving it alone |
| Jobs.LaunchedNeverHalts | backend/main.py:227-236 | with a browser that launches, no exception escapes the loop |
| Jobs.LaunchedResults | backend/main.py:234-235 | with a browser that launches, results are the concatenation in entry order of each scraped entry's records |
| Jobs.LaunchedLogs | backend/main.py:223-236 | with a browser that launches, each scraped entry adds its processing line then its found line, in entry order |
| Jobs.UnparsedEntrySkipped | backend/main.py:216-217 | an entry without a comma, at any position, leaves the runner's state as it was |
| Jobs.UnparsedPrefixSkipped | backend/main.py:216-217 | a leading run of entries without a comma leaves the runner's state as it was |
| Jobs.LaunchFailureLoop | backend/main.py:89-90 | a browser that fails to launch raises on the first scraped entry, after its city, progress and processing log were recorded, with no records gathered |
| Jobs.RunPlanCompletes | backend/main.py:199-246 | a run whose browser launches ends completed, total_cities = all entries, progress 100, results = concatenation of every scraped entry's records, logs = start line + two lines per scraped entry + completion line with the total, current city = last scraped, completion time set |
| Jobs.RunPlanFailsOnLaunch | backend/main.py:248-252 | a run whose browser fails to launch ends failed with the launch message as error, earlier results kept, progress and current city of the first scraped entry, logs = start line + its processing line + failure line |
| Jobs.RunPlanFailedIff | backend/main.py:203-252 | a run always ends completed or failed, and ends failed exactly when the browser fails to launch and some entry is scraped |
| Jobs.FirstScraped | backend/main.py:211-217 | the first scraped entry at or before a scraped entry: no entry before it is scraped |
| Jobs.CityResultsBound | backend/main.py:131 | a scraped entry adds at most the cap, a skipped one nothing |
| Jobs.CapUpToIsProduct | backend/main.py:131 | the summed caps of the first k entries are the number scraped times the cap |
| Jobs.ResultsWithinCaps | backend/main.py:234 | the results of the first k entries are within the summed caps |
| Jobs.ResultsBound | backend/main.py:131-236 | the results after k entries number at most (entries scraped) × `max_results_per_city` |
| Jobs.RunPlanKeepsIdentity | backend/main.py:205-252 | the run keeps the job's id and creation time |
| Jobs.RunPlanWellFormed | backend/main.py:199-252 | a well-formed pending job ends well formed: progress a percentage, completed at 100 without error, failed with its error, completion time set |
| Jobs.RunJobFailsOnLaunch | backend/main.py:199-252 | on a request, a launch failure fails the job at its first entry containing a comma, as in `RunPlanFailsOnLaunch` |
| Jobs.FailedAtFullProgress | backend/main.py:222-252 | with the single entry "a, b" and a browser that fails to launch, the job ends failed at progress 100 |
| Jobs.RunJobFailedIff | backend/main.py:199-252 | on a request, the job ends failed exactly when the launch fails and some entry contains a comma; otherwise completed |
| Extraction.SearchTerm | backend/main.py:93 | defines the search text, "category in city, state" |
| Extraction.Truthy | backend/main.py:128 | defines Python truthiness of an `href`: present and non-empty |
| Extraction.CutAtQuery | backend/main.py:129 | the cut link has no `?` and is the first piece of `href.split('?')` |
| Extraction.CutAll | backend/main.py:126-129 | at most one collected link per listing |
| Extraction.CutAllMembers | backend/main.py:126-129 | a link is collected exactly when it is the cut of some truthy `href` |
| Extraction.CutAllNoQuery | backend/main.py:129 | no collected link keeps a query string |
| Extraction.CollectUrls | backend/main.py:124-129 | the collecting loop returns exactly the cuts of the truthy `href`s in page order |
| Extraction.Dedupe | backend/main.py:131 | defines `list(set(urls))` as the distinct links in first-occurrence order |
| Extraction.DedupeSpec | backend/main.py:131 | `list(set(urls))` holds no duplicate, holds exactly the elements of `urls`, and has as many elements as there are distinct links |
| Extraction.PyTake | backend/main.py:131 | Python's `s[:m]`: a prefix of length `min(m, len)` for `m >= 0`, of length `max(0, len+m)` for negative `m` |
| Extraction.SelectUrls | backend/main.py:131 | defines `list(set(urls))[:max_results]` |
| Extraction.SelectUrlsSpec | backend/main.py:131 | the visited links are distinct collected links, `min(max_results, #distinct)` of them for a non-negative cap, all of them when the cap covers every distinct link, and Python's negative-slice count otherwise |
| Extraction.MakeRecord | backend/main.py:141-177 | defines the record of one visited page: its name, phone, website and address, each "N/A" when the page lacks it, with the category, city, state and link |
| Extraction.VisitAll | backend/main.py:135-185 | at most one record per visited link |
| Extraction.VisitAllFields | backend/main.py:168-178 | every record comes from a visited link and carries the search's category, city and state |
| Extraction.VisitAllDistinct | backend/main.py:135-185 | visiting distinct links gives records with distinct maps URLs |
| Extraction.CityRecords | backend/main.py:104-188 | defines one city's records once the browser is up: none when the search gives no feed, otherwise one record per selected link whose page opens |
| Extraction.CityRecordsSpec | backend/main.py:104-192 | a city yields at most `max_results` records, all tagged with its category, city and state, with query-free, pairwise distinct maps URLs |
| Extraction.CityExtraction | backend/main.py:87-90 | one extractor call raises exactly when the page is not open yet and the launch fails |
| Extraction.ExtractorOf | backend/main.py:87-192 | defines the extractor the scraper implements: the browser's launch outcome and `CityRecords` |
| Extraction.ExtractorOfWithinCap | backend/main.py:131-178 | the scraper's extractor never returns more records than a non-negative cap |
| Extraction.ExtractorOfSpec | backend/main.py:87-192 | the scraper's extractor raises exactly on a launch failure with a closed page, with the launch message; otherwise it returns capped, correctly tagged, query-free records with distinct URLs |
| Extraction.BusinessScraper.constructor | backend/main.py:74-76 | a new scraper has no page open |
| Extraction.BusinessScraper.InitBrowser | backend/main.py:78-82 | launching reports the browser's launch error, and the page is open exactly when there is none |
| Extraction.BusinessScraper.VisitUrls | backend/main.py:135-185 | the visiting loop returns exactly the records of the pages that open, in link order |
| Extraction.BusinessScraper.ScrapeLocation | backend/main.py:87-192 | `scrape_location` returns what `CityExtraction` of the scraper's extractor gives, and leaves the page open once the launch has succeeded |
| Text.Strip | backend/main.py:218-219 | the stripped string neither starts nor ends with whitespace |
| Text.StripSpec | backend/main.py:218-219 | the stripped string is a slice of the input framed by whitespace on both sides |
| Text.StripIdempotent | backend/main.py:218-219 | stripping twice is stripping once |
| Text.Split | backend/main.py:216 | one more piece than there are separators |
| Text.SplitPiecesFree | backend/main.py:216 | no piece contains the separator |
| Text.SplitHasTwoParts | backend/main.py:216-217 | `len(s.split(sep)) >= 2` exactly when `sep` occurs in `s` |
| Text.JoinSplit | backend/main.py:216 | joining the pieces with the separator restores the string |
| Text.SplitJoin | backend/main.py:216 | splitting a join of separator-free pieces gives the pieces back |
| Text.BeforeFirst | backend/main.py:129 | `s.split(sep)[0]` is the longest separator-free prefix of `s` |
| Text.BeforeFirstIsFirstPiece | backend/main.py:129 | that prefix is the first piece `split` returns |
| Text.NatToString | backend/main.py:223 | the decimal rendering of a count is non-empty with no leading zero |
| Text.NatToStringDigits | backend/main.py:223 | it consists of decimal digits only |
| Text.NatToStringRoundTrip | backend/main.py:223 | reading the digits back gives the number |

## Left out

- Playwright automation is not modelled. `init_browser` is reduced to its outcome, `Browser.launchError` (`BusinessScraper.InitBrowser`). Also left out: page navigation, selectors, the scrolling loop (main.py:110-120), `inner_text`/`get_attribute`, image blocking and `close` (main.py:194-197, 255-257). The `Browser` value stands for what the browser would answer. Its answers are fixed for the whole job: `Browser.search` is a function of the search term and `Browser.visit` of the URL, so a repeated "city, state" entry gets the same links and page fields both times, while a live browser may answer differently.
- Extraction.MakeRecord takes the listing's fields as the page shows them. The `"Phone: "`/`"Address: "` prefix removal and the `strip` (main.py:157, 165) are inside the browser abstraction. So is the case of an element that is present but has no attribute: Python then stores `None`, not `"N/A"`.
- Extraction.CityRecords: a search answered `None` stands for both outcomes that return `[]` after launch, the missing results feed (main.py:104-108) and any exception in the page steps (main.py:190-192). A visit answered `None` stands for a listing whose visit raises (main.py:183-185).
- Extraction.Dedupe: `list(set(urls))` has an unspecified order. The model uses first-occurrence order and claims only distinctness, membership and size (`DedupeSpec`, `SelectUrlsSpec`). Which links survive the cap when there are more distinct links than the cap is therefore not captured.
- Jobs.Progress: the source computes `int((idx + 1) / n * 100)` in floating point. The model uses the exact integer `(idx+1)*100 div n`. The float version can be one lower at some boundaries, for example 29/100 gives 28.
- Asynchrony and concurrency are not modelled: `BackgroundTasks`, `asyncio.sleep`, and pollers interleaving with the runner. The runner is one sequential method. Polling behaviour is stated over the states between entries (`RunUpTo(st0, plan, ex, k)`) and the state during an entry's scrape (`Jobs.MidEntryBetween`). The states between two single field writes are not covered.
- Aliasing is not modelled: `jobs[job_id].results = all_results` makes the stored results the same list object as `all_results`. The model assigns the value after each extend, which is equal in a sequential run.
- `uuid.uuid4()` and `datetime.now()` are parameters: the fresh id and opaque timestamp strings. The creation endpoint's scheduling of the background task is the caller's separate call of `RunScrapingJob`.
- Store.JobStore.RunScrapingJob requires the job to be in the table. In the source, `create_scraping_job` inserts it before scheduling the runner. With a missing id, the handler's own `jobs[job_id]` would raise and the task would crash.
- Store.JobStore.DownloadResults: the CSV text rendered by pandas (main.py:314-315) is stood for by the rows it renders.
- Logging calls, FastAPI routing and CORS are not modelled. Neither are the health, states and cities endpoints, which only read a JSON file loaded at start-up.
- `backend/database.py` (table definitions and password hashing) is not part of this model. Neither is `test_backend.py` at the repository root (an HTTP client script).
- The default cap of 10 (main.py:59) is not modelled. Filling it in is request parsing, outside the model, and every `Request` carries its cap.
