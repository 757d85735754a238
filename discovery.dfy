/**
 * The discovery pipeline: search a provider for a keyword, pass each
 * result through the robots gate, scrape the allowed pages, deduplicate
 * the candidates, merge them into the lead table with one provenance row
 * each, and record the attempt on the job row.
 */
module Discovery {

  import opened Wrappers
  import opened Text
  import opened Http
  import opened FirstWins
  import opened Robots
  import opened Extraction
  import opened Statuses
  import opened Store

  /** One entry of the provider's JSON answer. */
  datatype SearchResult = SearchResult(url: string, title: string)

  /** The provider's answer: a fetch or JSON parse that throws, or a response with its status and results. */
  datatype SearchAnswer = SearchUnreachable | SearchResponse(status: int, results: seq<SearchResult>)

  /** The `q` and `limit` parameters of a provider request. */
  datatype SearchQuery = SearchQuery(keyword: string, limit: nat)

  /**
   * The outside world during one run: the configured provider URL (if
   * any), the provider's answer per query, the robots.txt response per
   * robots URL and the page per page URL.
   */
  datatype Web = Web(
    provider: Option<string>,
    search: map<SearchQuery, SearchAnswer>,
    robots: map<string, Response>,
    pages: map<string, Page>)

  /** The limit used when the request gives none. */
  const DefaultLimit: nat := 20

  /** `SEARCH_PROVIDER_URL` is set and non-empty. */
  predicate ProviderConfigured(web: Web)
  {
    web.provider.Some? && web.provider.value != []
  }

  function Search(web: Web, q: SearchQuery): SearchAnswer
  {
    if q in web.search then web.search[q] else SearchUnreachable
  }

  /** The results the pipeline looks at: the first `limit`, in provider order. */
  function Considered(results: seq<SearchResult>, limit: nat): (rs: seq<SearchResult>)
    ensures |rs| <= limit && |rs| <= |results| && rs == results[..|rs|]
    ensures |rs| == limit || rs == results
  {
    if limit < |results| then results[..limit] else results
  }

  /**
   * The loop of `searchAndScrape` over results `rs`: skip what robots.txt
   * denies, append each allowed page's candidates, stop at the first page
   * whose fetch throws.
   */
  function Gather(web: Web, allowed: string -> bool, rs: seq<SearchResult>): Result<seq<Candidate>, JobError>
  {
    if rs == [] then Success([])
    else
      match Gather(web, allowed, rs[..|rs| - 1])
      case Failure(e) => Failure(e)
      case Success(acc) =>
        var url := rs[|rs| - 1].url;
        if !allowed(url) then Success(acc)
        else
          match Scrape(url, web.pages)
          case Failure(e) => Failure(e)
          case Success(found) => Success(acc + found)
  }

  /** The robots gate, as a verdict per page URL. */
  function Gate(web: Web): string -> bool
  {
    url => RobotsAllows(url, web.robots)
  }

  /** What `searchAndScrape(keyword, limit)` returns or throws. */
  function SearchAndScrapeSpec(web: Web, keyword: string, limit: nat): Result<seq<Candidate>, JobError>
  {
    if !ProviderConfigured(web) then Success([])
    else
      match Search(web, SearchQuery(keyword, limit))
      case SearchUnreachable => Failure(ProviderUnreachable)
      case SearchResponse(status, results) =>
        if 200 <= status <= 299 then Gather(web, Gate(web), Considered(results, limit))
        else Failure(ProviderStatus(status))
  }

  /** `searchAndScrape`: query the provider, then gate and scrape each considered result in turn. */
  method SearchAndScrape(keyword: string, limit: nat, web: Web) returns (r: Result<seq<Candidate>, JobError>)
    ensures r == SearchAndScrapeSpec(web, keyword, limit)
  {
    if !ProviderConfigured(web) {
      return Success([]);
    }
    var res := Search(web, SearchQuery(keyword, limit));
    if res.SearchUnreachable? {
      return Failure(ProviderUnreachable);
    }
    if !(200 <= res.status <= 299) {
      return Failure(ProviderStatus(res.status));
    }
    r := GatherResults(Considered(res.results, limit), web);
  }

  /** The loop of `searchAndScrape` over the considered results. */
  method GatherResults(considered: seq<SearchResult>, web: Web) returns (r: Result<seq<Candidate>, JobError>)
    ensures r == Gather(web, Gate(web), considered)
  {
    var leads: seq<Candidate> := [];
    for i := 0 to |considered|
      invariant Gather(web, Gate(web), considered[..i]) == Success(leads)
    {
      GatherPrefix(web, Gate(web), considered, i);
      var url := considered[i].url;
      var allowed := IsAllowedByRobots(url, web.robots);
      assert allowed == Gate(web)(url);
      if !allowed {
        continue;
      }
      var scraped := ScrapePage(url, web.pages);
      if scraped.Failure? {
        GatherStops(web, Gate(web), considered, i + 1);
        return scraped;
      }
      leads := leads + scraped.value;
    }
    assert considered[..|considered|] == considered;
    return Success(leads);
  }

  /** `Gather` over one more result of a prefix that succeeded. */
  lemma GatherPrefix(web: Web, allowed: string -> bool, rs: seq<SearchResult>, i: nat)
    requires i < |rs| && Gather(web, allowed, rs[..i]).Success?
    ensures !allowed(rs[i].url) ==> Gather(web, allowed, rs[..i + 1]) == Gather(web, allowed, rs[..i])
    ensures allowed(rs[i].url) && Scrape(rs[i].url, web.pages).Failure? ==>
      Gather(web, allowed, rs[..i + 1]) == Failure(Scrape(rs[i].url, web.pages).error)
    ensures allowed(rs[i].url) && Scrape(rs[i].url, web.pages).Success? ==>
      Gather(web, allowed, rs[..i + 1]) == Success(Gather(web, allowed, rs[..i]).value + Scrape(rs[i].url, web.pages).value)
  {
    assert rs[..i + 1][..i] == rs[..i];
  }

  /** Once a page fetch has thrown, the rest of the results are not looked at. */
  lemma {:induction false} GatherStops(web: Web, allowed: string -> bool, rs: seq<SearchResult>, i: nat)
    requires i <= |rs| && Gather(web, allowed, rs[..i]).Failure?
    ensures Gather(web, allowed, rs) == Gather(web, allowed, rs[..i])
    decreases |rs|
  {
    if i < |rs| {
      var init := rs[..|rs| - 1];
      assert init[..i] == rs[..i];
      GatherStops(web, allowed, init, i);
    } else {
      assert rs[..i] == rs;
    }
  }

  /** Every candidate a page yields names that page as its source. */
  lemma ScrapeSources(url: string, pages: map<string, Page>)
    ensures Scrape(url, pages).Success? ==>
      forall c :: c in Scrape(url, pages).value ==> c.sourceUrl == url
  {
    if Scrape(url, pages).Success? && FetchPage(pages, url).PageResponse? {
      var p := FetchPage(pages, url);
      PageCandidatesSpec(url, p.matches, p.title);
    }
  }

  /** Candidate `c` was found on the page of one of the results `rs` that the gate lets through. */
  predicate FromAllowedResult(c: Candidate, rs: seq<SearchResult>, allowed: string -> bool)
  {
    exists i :: 0 <= i < |rs| && c.sourceUrl == rs[i].url && allowed(rs[i].url)
  }

  /** One step of `Gather`: a success over `rs` extends the success over all but the last result. */
  lemma GatherLast(web: Web, allowed: string -> bool, rs: seq<SearchResult>)
    requires rs != [] && Gather(web, allowed, rs).Success?
    ensures Gather(web, allowed, rs[..|rs| - 1]).Success?
    ensures var acc, cs, url := Gather(web, allowed, rs[..|rs| - 1]).value, Gather(web, allowed, rs).value, rs[|rs| - 1].url;
      && (!allowed(url) ==> cs == acc)
      && (allowed(url) ==> Scrape(url, web.pages).Success? && cs == acc + Scrape(url, web.pages).value)
  {
  }

  /**
   * Provenance: every gathered candidate comes from one of the results,
   * and from one that robots.txt allows; denied results contribute nothing.
   */
  lemma {:induction false} GatherProvenance(web: Web, allowed: string -> bool, rs: seq<SearchResult>)
    ensures Gather(web, allowed, rs).Success? ==>
      forall c :: c in Gather(web, allowed, rs).value ==> FromAllowedResult(c, rs, allowed)
  {
    if rs != [] && Gather(web, allowed, rs).Success? {
      var n := |rs| - 1;
      var init := rs[..n];
      GatherLast(web, allowed, rs);
      GatherProvenance(web, allowed, init);
      var acc := Gather(web, allowed, init).value;
      var cs := Gather(web, allowed, rs).value;
      var url := rs[n].url;
      ScrapeSources(url, web.pages);
      forall c | c in cs
        ensures FromAllowedResult(c, rs, allowed)
      {
        if c in acc {
          assert FromAllowedResult(c, init, allowed);
          var i :| 0 <= i < |init| && c.sourceUrl == init[i].url && allowed(init[i].url);
          assert init[i] == rs[i];
        } else {
          assert allowed(url) && c in Scrape(url, web.pages).value;
          assert c.sourceUrl == rs[n].url;
        }
      }
    }
  }

  /**
   * What `searchAndScrape` promises: nothing without a provider; otherwise
   * each candidate comes from one of the first `limit` results, in a page
   * that robots.txt allows.
   */
  lemma SearchProvenance(web: Web, keyword: string, limit: nat)
    ensures !ProviderConfigured(web) ==> SearchAndScrapeSpec(web, keyword, limit) == Success([])
    ensures var r, ans := SearchAndScrapeSpec(web, keyword, limit), Search(web, SearchQuery(keyword, limit));
      ProviderConfigured(web) && r.Success? ==>
        && ans.SearchResponse? && 200 <= ans.status <= 299
        && forall k :: 0 <= k < |r.value| ==>
             exists i ::
               && 0 <= i < limit && i < |ans.results|
               && r.value[k].sourceUrl == ans.results[i].url && RobotsAllows(ans.results[i].url, web.robots)
  {
    var r, ans := SearchAndScrapeSpec(web, keyword, limit), Search(web, SearchQuery(keyword, limit));
    if ProviderConfigured(web) && r.Success? {
      SearchSucceeded(web, keyword, limit);
      var rs := Considered(ans.results, limit);
      GatherProvenance(web, Gate(web), rs);
      forall k | 0 <= k < |r.value|
        ensures exists i ::
          && 0 <= i < limit && i < |ans.results|
          && r.value[k].sourceUrl == ans.results[i].url && RobotsAllows(ans.results[i].url, web.robots)
      {
        assert FromAllowedResult(r.value[k], rs, Gate(web));
        var i :| 0 <= i < |rs| && r.value[k].sourceUrl == rs[i].url && Gate(web)(rs[i].url);
        assert rs[i] == ans.results[i];
        assert Gate(web)(rs[i].url) == RobotsAllows(ans.results[i].url, web.robots);
      }
    }
  }

  /** A successful search is a 2xx answer whose considered results were all gathered. */
  lemma SearchSucceeded(web: Web, keyword: string, limit: nat)
    requires ProviderConfigured(web) && SearchAndScrapeSpec(web, keyword, limit).Success?
    ensures Search(web, SearchQuery(keyword, limit)).SearchResponse?
    ensures 200 <= Search(web, SearchQuery(keyword, limit)).status <= 299
    ensures SearchAndScrapeSpec(web, keyword, limit) ==
      Gather(web, Gate(web), Considered(Search(web, SearchQuery(keyword, limit)).results, limit))
  {
  }

  /** A page's candidates name a company only when the page's title is not blank. */
  lemma ScrapeCompanies(url: string, pages: map<string, Page>)
    ensures Scrape(url, pages).Success? ==>
      forall c :: c in Scrape(url, pages).value ==> c.company != Some("")
  {
    if Scrape(url, pages).Success? && FetchPage(pages, url).PageResponse? {
      var p := FetchPage(pages, url);
      PageCandidatesSpec(url, p.matches, p.title);
    }
  }

  /** No gathered candidate has an empty company. */
  lemma {:induction false} GatherCompanies(web: Web, allowed: string -> bool, rs: seq<SearchResult>)
    ensures Gather(web, allowed, rs).Success? ==>
      forall c :: c in Gather(web, allowed, rs).value ==> c.company != Some("")
  {
    if rs != [] && Gather(web, allowed, rs).Success? {
      GatherLast(web, allowed, rs);
      GatherCompanies(web, allowed, rs[..|rs| - 1]);
      ScrapeCompanies(rs[|rs| - 1].url, web.pages);
    }
  }

  /**
   * `searchAndScrape` never yields a candidate whose company is the empty
   * string: a blank title gives no company at all.
   */
  lemma SearchCompaniesNonEmpty(web: Web, keyword: string, limit: nat)
    ensures SearchAndScrapeSpec(web, keyword, limit).Success? ==>
      forall i :: 0 <= i < |SearchAndScrapeSpec(web, keyword, limit).value| ==>
        SearchAndScrapeSpec(web, keyword, limit).value[i].company != Some("")
  {
    if ProviderConfigured(web) && SearchAndScrapeSpec(web, keyword, limit).Success? {
      SearchSucceeded(web, keyword, limit);
      GatherCompanies(web, Gate(web), Considered(Search(web, SearchQuery(keyword, limit)).results, limit));
    }
  }

  // ---------------------------------------------------------------------
  // Merging candidates into the lead and source tables

  /** The lead and provenance tables the merge writes. */
  datatype Tables = Tables(leads: seq<Lead>, sources: seq<Source>)

  /** `rl.name || rl.email.split('@')[0]`. */
  function NewLeadName(c: Candidate): string
  {
    if c.name.Some? && c.name.value != [] then c.name.value else FirstField(c.email, '@')
  }

  /** `rl.company || 'Unknown'`. */
  function NewLeadCompany(c: Candidate): string
  {
    if c.company.Some? && c.company.value != [] then c.company.value else "Unknown"
  }

  /** The lead row created for a candidate no stored lead matches. */
  function NewDiscoveredLead(id: nat, c: Candidate): (l: Lead)
    ensures l.id == id && l.email == c.email && l.status == New && l.score == 50
    ensures l.deletedAt.None? && l.websiteUrl == c.website
    ensures c.name.None? ==> l.name == FirstField(c.email, '@')
    ensures c.company.None? ==> l.company == "Unknown"
    ensures c.company.Some? && c.company.value != [] ==> l.company == c.company.value
  {
    Lead(id, c.email, NewLeadName(c), NewLeadCompany(c), c.website, New, 50, None, None)
  }

  /** One pass of the merge loop: find or create the lead, then record where it was found. */
  function MergeStep(t: Tables, c: Candidate, keyword: string): Tables
  {
    match FindFirstLead(t.leads, c.email, c.company)
    case Some(k) => Tables(t.leads, t.sources + [Source(t.leads[k].id, "web_search", c.sourceUrl, keyword)])
    case None =>
      var id := |t.leads|;
      Tables(t.leads + [NewDiscoveredLead(id, c)], t.sources + [Source(id, "web_search", c.sourceUrl, keyword)])
  }

  /** The merge loop over the deduplicated candidates, in order. */
  function MergeAll(t: Tables, cs: seq<Candidate>, keyword: string): Tables
  {
    if cs == [] then t
    else MergeStep(MergeAll(t, cs[..|cs| - 1], keyword), cs[|cs| - 1], keyword)
  }

  /**
   * The merge only appends: stored leads and sources stay as they were
   * (a reused lead is never modified), and exactly one source row is
   * added per candidate.
   */
  lemma {:induction false} MergeAppends(t: Tables, cs: seq<Candidate>, keyword: string)
    requires LeadIdsArePositions(t.leads)
    ensures var r := MergeAll(t, cs, keyword);
      && LeadIdsArePositions(r.leads)
      && t.leads <= r.leads
      && t.sources <= r.sources && |r.sources| == |t.sources| + |cs|
  {
    if cs != [] {
      MergeAppends(t, cs[..|cs| - 1], keyword);
    }
  }

  /** A provenance row for `c`: its page, the keyword, and a lead that `c`'s lookup matches. */
  predicate RecordsCandidate(leads: seq<Lead>, s: Source, c: Candidate, keyword: string)
  {
    && s.source == "web_search" && s.url == c.sourceUrl && s.keyword == keyword
    && s.leadId < |leads| && LeadMatches(leads[s.leadId], c.email, c.company)
  }

  /** The row one merge step appends records its candidate. */
  lemma MergeStepRecords(t: Tables, c: Candidate, keyword: string)
    requires LeadIdsArePositions(t.leads)
    requires c.company != Some("")
    ensures |MergeStep(t, c, keyword).sources| == |t.sources| + 1
    ensures t.leads <= MergeStep(t, c, keyword).leads && t.sources <= MergeStep(t, c, keyword).sources
    ensures RecordsCandidate(MergeStep(t, c, keyword).leads, MergeStep(t, c, keyword).sources[|t.sources|], c, keyword)
  {
  }

  /**
   * The i-th new source row names the i-th candidate's page and the job's
   * keyword, and points at a non-deleted lead with the candidate's e-mail
   * that the candidate's lookup finds (given that no candidate carries an
   * empty company, which the scraper never produces).
   */
  lemma {:induction false} MergeSources(t: Tables, cs: seq<Candidate>, keyword: string)
    requires LeadIdsArePositions(t.leads)
    requires forall i :: 0 <= i < |cs| ==> cs[i].company != Some("")
    ensures |MergeAll(t, cs, keyword).sources| == |t.sources| + |cs|
    ensures RecordsAll(MergeAll(t, cs, keyword).leads, MergeAll(t, cs, keyword).sources[|t.sources|..], cs, keyword)
  {
    MergeAppends(t, cs, keyword);
    if cs != [] {
      var n := |cs| - 1;
      var init := cs[..n];
      MergeSources(t, init, keyword);
      MergeAppends(t, init, keyword);
      var prev := MergeAll(t, init, keyword);
      var r := MergeAll(t, cs, keyword);
      assert r == MergeStep(prev, cs[n], keyword);
      MergeStepRecords(prev, cs[n], keyword);
      var row := r.sources[|prev.sources|];
      assert r.sources == prev.sources + [row];
      RecordsAllExtend(prev.leads, r.leads, prev.sources[|t.sources|..], row, init, cs[n], keyword);
      assert prev.sources[|t.sources|..] + [row] == r.sources[|t.sources|..];
      assert init + [cs[n]] == cs;
    }
  }

  /** The i-th row records the i-th candidate, for every i. */
  predicate RecordsAll(leads: seq<Lead>, rows: seq<Source>, cs: seq<Candidate>, keyword: string)
  {
    |rows| == |cs| && forall i :: 0 <= i < |cs| ==> RecordsCandidate(leads, rows[i], cs[i], keyword)
  }

  /** Recorded rows stay recorded as the lead table grows, and one more row records one more candidate. */
  lemma RecordsAllExtend(before: seq<Lead>, after: seq<Lead>, rows: seq<Source>, row: Source,
                         cs: seq<Candidate>, c: Candidate, keyword: string)
    requires before <= after && RecordsAll(before, rows, cs, keyword) && RecordsCandidate(after, row, c, keyword)
    ensures RecordsAll(after, rows + [row], cs + [c], keyword)
  {
    forall i | 0 <= i < |cs|
      ensures RecordsCandidate(after, rows[i], cs[i], keyword)
    {
      RecordsPersist(before, after, rows[i], cs[i], keyword);
    }
  }

  /** A provenance row keeps recording its candidate while the lead table only grows. */
  lemma RecordsPersist(before: seq<Lead>, after: seq<Lead>, s: Source, c: Candidate, keyword: string)
    requires before <= after && RecordsCandidate(before, s, c, keyword)
    ensures RecordsCandidate(after, s, c, keyword)
  {
    assert after[s.leadId] == before[s.leadId];
  }

  /** Every lead the merge adds is built from one of the candidates. */
  lemma {:induction false} MergeNewLeads(t: Tables, cs: seq<Candidate>, keyword: string)
    requires LeadIdsArePositions(t.leads)
    ensures forall j :: |t.leads| <= j < |MergeAll(t, cs, keyword).leads| ==>
      exists i :: 0 <= i < |cs| && MergeAll(t, cs, keyword).leads[j] == NewDiscoveredLead(j, cs[i])
  {
    MergeAppends(t, cs, keyword);
    if cs != [] {
      var n := |cs| - 1;
      MergeNewLeads(t, cs[..n], keyword);
      MergeAppends(t, cs[..n], keyword);
      var prev := MergeAll(t, cs[..n], keyword);
      var r := MergeAll(t, cs, keyword);
      forall j | |t.leads| <= j < |r.leads|
        ensures exists i :: 0 <= i < |cs| && r.leads[j] == NewDiscoveredLead(j, cs[i])
      {
        if j < |prev.leads| {
          assert r.leads[j] == prev.leads[j];
          var i :| 0 <= i < n && prev.leads[j] == NewDiscoveredLead(j, cs[..n][i]);
          assert cs[..n][i] == cs[i];
        } else {
          assert r.leads[j] == NewDiscoveredLead(j, cs[n]);
        }
      }
    }
  }

  /** When every candidate already has a matching lead, the merge adds no lead. */
  lemma {:induction false} MergeKnown(t: Tables, cs: seq<Candidate>, keyword: string)
    requires forall i :: 0 <= i < |cs| ==> FindFirstLead(t.leads, cs[i].email, cs[i].company).Some?
    ensures MergeAll(t, cs, keyword).leads == t.leads
  {
    if cs != [] {
      var n := |cs| - 1;
      assert forall i :: 0 <= i < n ==> cs[..n][i] == cs[i];
      MergeKnown(t, cs[..n], keyword);
    }
  }

  /** Re-running the merge on the same candidates adds no leads, only source rows. */
  lemma MergeTwiceAddsNoLeads(t: Tables, cs: seq<Candidate>, keyword: string)
    requires LeadIdsArePositions(t.leads)
    requires forall i :: 0 <= i < |cs| ==> cs[i].company != Some("")
    ensures var once := MergeAll(t, cs, keyword);
      && MergeAll(once, cs, keyword).leads == once.leads
      && |MergeAll(once, cs, keyword).sources| == |once.sources| + |cs|
  {
    var once := MergeAll(t, cs, keyword);
    MergeSources(t, cs, keyword);
    MergeAppends(t, cs, keyword);
    MergeAppends(once, cs, keyword);
    forall i | 0 <= i < |cs|
      ensures FindFirstLead(once.leads, cs[i].email, cs[i].company).Some?
    {
      assert RecordsCandidate(once.leads, once.sources[|t.sources|..][i], cs[i], keyword);
    }
    MergeKnown(once, cs, keyword);
  }

  // ---------------------------------------------------------------------
  // The job state machine

  /** A job `processJob` would run: not completed and with attempts left. */
  predicate Runnable(job: Job)
  {
    job.status != Completed && job.attempts < job.maxAttempts
  }

  /** The error an attempt ended with, if it threw. */
  function ErrorOf(outcome: Result<seq<Candidate>, JobError>): Option<JobError>
  {
    if outcome.Failure? then Some(outcome.error) else None
  }

  /** The job row an attempt writes: success completes it, failure retries until attempts run out. */
  function Advance(job: Job, err: Option<JobError>): Job
  {
    var attempts := job.attempts + 1;
    match err
    case None => job.(status := Completed, attempts := attempts, lastError := None)
    case Some(e) => job.(status := if attempts >= job.maxAttempts then Failed else Pending, attempts := attempts, lastError := Some(e))
  }

  /** The fresh row `discoveryJob.create` makes. */
  function FreshJob(id: nat, ownerId: string, keyword: string): (job: Job)
    ensures job.id == id && job.ownerId == ownerId && job.keyword == keyword
    ensures job.status == Pending && job.attempts == 0 && job.lastError.None?
    ensures job.maxAttempts == DefaultMaxAttempts
    ensures JobConsistent(job) && Runnable(job)
  {
    Job(id, ownerId, keyword, Pending, 0, DefaultMaxAttempts, None)
  }

  /**
   * An attempt keeps the job rows consistent: it counts one more attempt,
   * keeps identity, owner, keyword and maximum, completes on success, and
   * on failure records the error and fails exactly when the attempts are used up.
   */
  lemma AdvanceConsistent(job: Job, err: Option<JobError>)
    requires JobConsistent(job) && Runnable(job)
    ensures var r := Advance(job, err);
      && JobConsistent(r)
      && r.attempts == job.attempts + 1
      && r.id == job.id && r.ownerId == job.ownerId && r.keyword == job.keyword && r.maxAttempts == job.maxAttempts
      && (err.None? ==> r.status == Completed && r.lastError.None?)
      && (err.Some? ==> r.lastError == err && (r.status == Failed <==> r.attempts == job.maxAttempts) && r.status != Completed)
  {
  }

  /** `processJob`'s effect on the job row: an attempt when runnable, otherwise nothing. */
  function Run(job: Job, err: Option<JobError>): Job
  {
    if Runnable(job) then Advance(job, err) else job
  }

  /** The job row after `n` invocations of `processJob` that all fail with `e`. */
  function RunFailing(job: Job, e: JobError, n: nat): Job
  {
    if n == 0 then job else Run(RunFailing(job, e, n - 1), Some(e))
  }

  /**
   * Retries: a fresh job that keeps failing stays pending with one more
   * attempt per run until it has used `maxAttempts`; from then on it is
   * failed, and further runs change nothing.
   */
  lemma {:induction false} RetriesThenFails(job: Job, e: JobError, n: nat)
    requires job.status == Pending && job.attempts == 0 && 1 <= job.maxAttempts
    ensures var r := RunFailing(job, e, n);
      && r.attempts == (if n < job.maxAttempts then n else job.maxAttempts)
      && r.status == (if n < job.maxAttempts then Pending else Failed)
      && (n > 0 ==> r.lastError == Some(e))
      && r.maxAttempts == job.maxAttempts
  {
    if n > 0 {
      RetriesThenFails(job, e, n - 1);
    }
  }

  /** A completed job is final: running it again changes nothing. */
  lemma {:induction false} CompletedIsFinal(job: Job, errs: seq<Option<JobError>>)
    requires job.status == Completed
    ensures RunAll(job, errs) == job
    decreases |errs|
  {
    if errs != [] {
      CompletedIsFinal(job, errs[1..]);
    }
  }

  /** The job row after one `processJob` run per outcome in `errs`. */
  function RunAll(job: Job, errs: seq<Option<JobError>>): Job
    decreases |errs|
  {
    if errs == [] then job else RunAll(Run(job, errs[0]), errs[1..])
  }

  /**
   * The tables after one attempt of a job for `keyword` that runs: on
   * success its deduplicated candidates are merged, on failure nothing
   * changes.
   */
  function AttemptEffect(t: Tables, keyword: string, limit: nat, web: Web): Tables
  {
    var outcome := SearchAndScrapeSpec(web, keyword, limit);
    if outcome.Success? then MergeAll(t, KeepFirst(outcome.value, Key), keyword) else t
  }

  /** The tables after one attempt for each keyword in turn. */
  function RunBatch(t: Tables, keywords: seq<string>, limit: nat, web: Web): Tables
  {
    if keywords == [] then t
    else AttemptEffect(RunBatch(t, keywords[..|keywords| - 1], limit, web), keywords[|keywords| - 1], limit, web)
  }

  /** A batch only appends leads and source rows, and keeps lead ids equal to positions. */
  lemma {:induction false} RunBatchAppends(t: Tables, keywords: seq<string>, limit: nat, web: Web)
    requires LeadIdsArePositions(t.leads)
    ensures LeadIdsArePositions(RunBatch(t, keywords, limit, web).leads)
    ensures t.leads <= RunBatch(t, keywords, limit, web).leads
    ensures t.sources <= RunBatch(t, keywords, limit, web).sources
  {
    if keywords != [] {
      var n := |keywords| - 1;
      RunBatchAppends(t, keywords[..n], limit, web);
      var prev := RunBatch(t, keywords[..n], limit, web);
      var outcome := SearchAndScrapeSpec(web, keywords[n], limit);
      if outcome.Success? {
        MergeAppends(prev, KeepFirst(outcome.value, Key), keywords[n]);
      }
    }
  }

  /**
   * Running a keyword's attempt a second time over the same web adds no
   * leads: each candidate now finds the lead the first run made or matched.
   * It still records one more source row per deduplicated candidate.
   */
  lemma AttemptTwiceAddsNoLeads(t: Tables, keyword: string, limit: nat, web: Web)
    requires LeadIdsArePositions(t.leads)
    ensures AttemptEffect(AttemptEffect(t, keyword, limit, web), keyword, limit, web).leads
         == AttemptEffect(t, keyword, limit, web).leads
    ensures var outcome := SearchAndScrapeSpec(web, keyword, limit);
      |AttemptEffect(AttemptEffect(t, keyword, limit, web), keyword, limit, web).sources|
      == |AttemptEffect(t, keyword, limit, web).sources| + (if outcome.Success? then |KeepFirst(outcome.value, Key)| else 0)
  {
    var outcome := SearchAndScrapeSpec(web, keyword, limit);
    if outcome.Success? {
      var cs := KeepFirst(outcome.value, Key);
      SearchCompaniesNonEmpty(web, keyword, limit);
      KeepFirstSelects(outcome.value, Key);
      assert forall i :: 0 <= i < |cs| ==> cs[i].company != Some("");
      MergeTwiceAddsNoLeads(t, cs, keyword);
    }
  }

  /** What `enqueueDiscovery` reports per job: its row as created. */
  datatype JobSummary = JobSummary(id: nat, keyword: string, status: JobStatus)

  /** The discovery service over the database it writes. */
  class DiscoveryService {
    const db: Db

    constructor (db: Db)
      ensures this.db == db
    {
      this.db := db;
    }

    /**
     * `processJob`: a missing, completed or exhausted job is returned as it
     * is; otherwise one attempt runs, its candidates (on success) are
     * merged, and the job row records the attempt.
     */
    method ProcessJob(jobId: nat, limit: nat, web: Web) returns (r: Option<Job>)
      requires db.Valid()
      modifies db
      ensures db.Valid()
      ensures jobId >= |old(db.jobs)| ==> r.None? && unchanged(db)
      ensures jobId < |old(db.jobs)| && !Runnable(old(db.jobs[jobId])) ==>
        r == Some(old(db.jobs[jobId])) && unchanged(db)
      ensures jobId < |old(db.jobs)| && Runnable(old(db.jobs[jobId])) ==>
        var job := old(db.jobs[jobId]);
        var outcome := SearchAndScrapeSpec(web, job.keyword, limit);
        && db.jobs == old(db.jobs)[jobId := Advance(job, ErrorOf(outcome))]
        && r == Some(Advance(job, ErrorOf(outcome)))
        && Tables(db.leads, db.sources) == AttemptEffect(Tables(old(db.leads), old(db.sources)), job.keyword, limit, web)
      ensures old(db.leads) <= db.leads && old(db.sources) <= db.sources
      ensures |db.jobs| == |old(db.jobs)|
      ensures db.activity == old(db.activity) && db.campaigns == old(db.campaigns) && db.executions == old(db.executions)
    {
      if jobId >= |db.jobs| {
        return None;
      }
      var job := db.jobs[jobId];
      if job.status == Completed {
        return Some(job);
      }
      if job.attempts >= job.maxAttempts {
        return Some(job);
      }
      var attempts := job.attempts + 1;
      var outcome := SearchAndScrape(job.keyword, limit, web);
      var updated: Job;
      if outcome.Success? {
        var deduped := Deduplicate(outcome.value);
        MergeCandidates(deduped, job.keyword);
        updated := job.(status := Completed, attempts := attempts, lastError := None);
      } else {
        updated := job.(status := if attempts >= job.maxAttempts then Failed else Pending,
                        attempts := attempts, lastError := Some(outcome.error));
      }
      AdvanceConsistent(job, ErrorOf(outcome));
      db.jobs := db.jobs[jobId := updated];
      return Some(updated);
    }

    /** The merge loop of `processJob`: find or create each candidate's lead and record its source. */
    method MergeCandidates(cands: seq<Candidate>, keyword: string)
      requires db.Valid()
      modifies db
      ensures db.Valid()
      ensures Tables(db.leads, db.sources) == MergeAll(Tables(old(db.leads), old(db.sources)), cands, keyword)
      ensures old(db.leads) <= db.leads && old(db.sources) <= db.sources
      ensures db.jobs == old(db.jobs)
      ensures db.activity == old(db.activity) && db.campaigns == old(db.campaigns) && db.executions == old(db.executions)
    {
      ghost var t0 := Tables(db.leads, db.sources);
      MergeAppends(t0, cands, keyword);
      for i := 0 to |cands|
        invariant db.Valid()
        invariant Tables(db.leads, db.sources) == MergeAll(t0, cands[..i], keyword)
        invariant db.jobs == old(db.jobs)
        invariant db.activity == old(db.activity) && db.campaigns == old(db.campaigns) && db.executions == old(db.executions)
      {
        assert cands[..i + 1][..i] == cands[..i];
        var c := cands[i];
        var existing := FindFirstLead(db.leads, c.email, c.company);
        var leadId: nat;
        if existing.Some? {
          leadId := db.leads[existing.value].id;
        } else {
          leadId := |db.leads|;
          db.leads := db.leads + [NewDiscoveredLead(leadId, c)];
        }
        db.sources := db.sources + [Source(leadId, "web_search", c.sourceUrl, keyword)];
      }
      assert cands[..|cands|] == cands;
    }

    /**
     * `enqueueDiscovery`: create one pending job per keyword, in order, run
     * each once with the request's limit (20 when absent), and report each
     * job as it was created.
     */
    method EnqueueDiscovery(keywords: seq<string>, limit: Option<int>, ownerId: string, web: Web)
      returns (summaries: seq<JobSummary>)
      requires db.Valid()
      requires limit.Some? ==> 1 <= limit.value <= 100
      modifies db
      ensures db.Valid()
      ensures var n, lim := |old(db.jobs)|, if limit.Some? then limit.value else DefaultLimit;
        && lim >= 0
        && |db.jobs| == n + |keywords| && db.jobs[..n] == old(db.jobs)
        && |summaries| == |keywords|
        && forall i :: 0 <= i < |keywords| ==>
             && summaries[i] == JobSummary(n + i, keywords[i], Pending)
             && db.jobs[n + i] == Advance(FreshJob(n + i, ownerId, keywords[i]), ErrorOf(SearchAndScrapeSpec(web, keywords[i], lim)))
      ensures Tables(db.leads, db.sources) ==
        RunBatch(Tables(old(db.leads), old(db.sources)), keywords, if limit.Some? then limit.value else DefaultLimit, web)
      ensures old(db.leads) <= db.leads && old(db.sources) <= db.sources
      ensures db.activity == old(db.activity) && db.campaigns == old(db.campaigns) && db.executions == old(db.executions)
    {
      var n := |db.jobs|;
      var created := CreateJobs(keywords, ownerId);
      var lim: nat := if limit.Some? then limit.value else DefaultLimit;
      RunJobs(created, keywords, n, lim, web);
      summaries := seq(|created|, i requires 0 <= i < |created| => JobSummary(created[i].id, created[i].keyword, created[i].status));
    }

    /** The processing loop of `enqueueDiscovery`: each newly created job is run once, in order. */
    method RunJobs(created: seq<Job>, keywords: seq<string>, n: nat, lim: nat, web: Web)
      requires db.Valid()
      requires n + |created| == |db.jobs| && db.jobs[n..] == created
      requires |keywords| == |created|
      requires forall j :: 0 <= j < |created| ==> created[j].id == n + j && created[j].keyword == keywords[j] && Runnable(created[j])
      modifies db
      ensures db.Valid()
      ensures |db.jobs| == n + |created| && db.jobs[..n] == old(db.jobs[..n])
      ensures forall j :: 0 <= j < |created| ==>
        db.jobs[n + j] == Advance(created[j], ErrorOf(SearchAndScrapeSpec(web, created[j].keyword, lim)))
      ensures Tables(db.leads, db.sources) == RunBatch(Tables(old(db.leads), old(db.sources)), keywords, lim, web)
      ensures old(db.leads) <= db.leads && old(db.sources) <= db.sources
      ensures db.activity == old(db.activity) && db.campaigns == old(db.campaigns) && db.executions == old(db.executions)
    {
      ghost var t0 := Tables(db.leads, db.sources);
      for i := 0 to |created|
        invariant db.Valid()
        invariant |db.jobs| == n + |created| && db.jobs[..n] == old(db.jobs[..n])
        invariant forall j :: 0 <= j < |created| ==>
          db.jobs[n + j] == if j < i then Advance(created[j], ErrorOf(SearchAndScrapeSpec(web, created[j].keyword, lim))) else created[j]
        invariant Tables(db.leads, db.sources) == RunBatch(t0, keywords[..i], lim, web)
        invariant db.activity == old(db.activity) && db.campaigns == old(db.campaigns) && db.executions == old(db.executions)
      {
        assert db.jobs[n + i] == created[i];
        assert keywords[..i + 1][..i] == keywords[..i];
        ghost var jobs := db.jobs;
        var _ := ProcessJob(n + i, lim, web);
        assert db.jobs == jobs[n + i := Advance(created[i], ErrorOf(SearchAndScrapeSpec(web, keywords[i], lim)))];
      }
      assert keywords[..|keywords|] == keywords;
      RunBatchAppends(t0, keywords, lim, web);
    }

    /** The job creation of `enqueueDiscovery`: one fresh job per keyword, in order. */
    method CreateJobs(keywords: seq<string>, ownerId: string) returns (created: seq<Job>)
      requires db.Valid()
      modifies db
      ensures db.Valid()
      ensures var n := |old(db.jobs)|;
        && |created| == |keywords| && db.jobs == old(db.jobs) + created
        && forall j :: 0 <= j < |keywords| ==> created[j] == FreshJob(n + j, ownerId, keywords[j])
      ensures db.leads == old(db.leads) && db.sources == old(db.sources)
      ensures db.activity == old(db.activity) && db.campaigns == old(db.campaigns) && db.executions == old(db.executions)
    {
      created := [];
      for i := 0 to |keywords|
        invariant db.Valid()
        invariant |created| == i && db.jobs == old(db.jobs) + created
        invariant forall j :: 0 <= j < i ==> created[j] == FreshJob(|old(db.jobs)| + j, ownerId, keywords[j])
        invariant db.leads == old(db.leads) && db.sources == old(db.sources)
        invariant db.activity == old(db.activity) && db.campaigns == old(db.campaigns) && db.executions == old(db.executions)
      {
        var job := FreshJob(|db.jobs|, ownerId, keywords[i]);
        db.jobs := db.jobs + [job];
        created := created + [job];
      }
    }
  }
}
