# Linkly CRM core, modelled in Dafny

This project models the core of the Linkly AI CRM: the lead-discovery pipeline of the back end, the lead and campaign services, and two pieces of front-end logic (the lead table's filter and badges, and the global app store).

- **Discovery** (`discovery.dfy`, `robots.dfy`, `extraction.dfy`, `http.dfy`). Discovery jobs are created per keyword and run one after the other. A run queries a search provider and keeps the first `limit` results. It checks every result page against that origin's robots.txt, extracts e-mail candidates from the allowed pages and collapses them by `email|company`. It then merges them into the lead table: a lead is reused or created, and one provenance row is recorded per candidate. The job row counts attempts and completes on success. On failure it records the error and stays pending, so a later `processJob` call may run it again, until `maxAttempts` is reached and it fails. `enqueueDiscovery` itself runs each job once.
- **Leads** (`leads.dfy`). Paged newest-first listing; `get`/`ensureExists`; find-or-create with lead scoring; patching and soft deletion, each logged in the activity table.
- **Campaigns** (`campaigns.dfy`). Owner-scoped listing and lookup; creation; updates; the pause/resume/kill lifecycle through one `setStatus` that logs an execution row and an activity row.
- **Front end** (`lead_list.dfy`, `app_store.dfy`, `ui_types.dfy`). The lead table's search/status filter, the status badge colour and the score-bar colour; the zustand store with its initial state and five setters.
- **Shared pieces**:
  - `store.dfy` holds the database. It is a class with one `seq` per table. Row ids are positions and creation order is table order.
  - `statuses.dfy` holds the status enumerations.
  - `text.dfy` models the JavaScript string operations used: `trim`, ASCII `toLowerCase`, `startsWith`, `includes` and `split`.
  - `first_wins.dfy` models a `Set`/`Map` filled in a loop, where the first entry per key is kept in insertion order.
  - `newest.dfy` models `orderBy createdAt desc` over a filtered table.
  - `wrappers.dfy` defines `Option` and `Result`.

The code works by updating things in place, and the model follows it. The services are classes over the `Db` object and their methods change its tables. The loops of `isAllowedByRobots`, `scrapePage`, `deduplicate`, `searchAndScrape`, the merge and `enqueueDiscovery` are `while`/`for` loops. Each loop is proved against a function that specifies it. Those functions carry the properties as lemmas.

## Model

| member | source | states |
|---|---|---|
| Text.Lower | components/LeadList.tsx:16-18 | lowercasing keeps the length and folds each character on its own |
| Text.Trim | backend/src/modules/discovery/discovery.service.ts:166 | the line is the trimmed text with only white space before and after it, and the trimmed text neither starts nor ends with white space |
| Text.TrimStart | backend/src/modules/discovery/discovery.service.ts:166 | only leading white space is removed, and all of it |
| Text.TrimEnd | backend/src/modules/discovery/discovery.service.ts:166 | only trailing white space is removed, and all of it |
| Text.ContainsAt | components/LeadList.tsx:16-18 | `includes` holds iff the term occurs at some position |
| Text.RawLines | backend/src/modules/discovery/discovery.service.ts:161 | the pieces between line feeds join back to the text and hold no line feed |
| Text.SplitLines | backend/src/modules/discovery/discovery.service.ts:161 | splitting on `\r?\n` yields at least one line and no line holds a line feed |
| Text.SplitLinesPieces | backend/src/modules/discovery/discovery.service.ts:161 | the lines are the line-feed pieces of the text (which join back to it), each piece that a line feed follows without one trailing `\r`, the last piece unchanged |
| Text.SecondField | backend/src/modules/discovery/discovery.service.ts:169-173 | `split(':')[1]` is undefined iff there is no colon; otherwise it is the colon-free text that runs from just after the first colon to the second colon or the end |
| Text.FirstField | backend/src/modules/discovery/discovery.service.ts:67 | `split('@')[0]` is the longest separator-free prefix |
| Text.IndexOf | backend/src/modules/discovery/discovery.service.ts:169 | the first position of the character, or the length when it is absent |
| Robots.IsAllowedByRobots | backend/src/modules/discovery/discovery.service.ts:153-188 | the gate's verdict equals `RobotsAllows`, the robots.txt decision for the page URL |
| Robots.CollectDisallows | backend/src/modules/discovery/discovery.service.ts:161-176 | the parse loop collects exactly the disallow values of the line-by-line scan of the body split on `\r?\n` |
| Robots.ScanLine | backend/src/modules/discovery/discovery.service.ts:166-175 | one loop pass is one scan step: comment/blank lines skipped, `User-agent` sets the flag, `Disallow` appends a non-empty value only while the flag is set |
| Robots.AnyBlocks | backend/src/modules/discovery/discovery.service.ts:178-184 | the check loop denies iff some collected value is `/` or a prefix of the path |
| Robots.KindsAt | backend/src/modules/discovery/discovery.service.ts:165-176 | the line classification is taken line by line, in order |
| Robots.ScanNext | backend/src/modules/discovery/discovery.service.ts:165-176 | the state after `i+1` lines is one step after the state after `i` lines |
| Robots.NotBoth | backend/src/modules/discovery/discovery.service.ts:168-172 | no line is both a `User-agent` and a `Disallow` line |
| Robots.ScanActive | backend/src/modules/discovery/discovery.service.ts:163-171 | the agent flag holds iff the most recent `User-agent` line names `*` or contains `linkly`; it is false before the first such line |
| Robots.ScanCollects | backend/src/modules/discovery/discovery.service.ts:172-175 | a value is collected iff some `Disallow` line carries it while the flag is set |
| Robots.ScanDeniesIff | backend/src/modules/discovery/discovery.service.ts:161-184 | the scan denies a path iff some rule addressed to this crawler denies it (both directions) |
| Robots.VerdictDeniesIff | backend/src/modules/discovery/discovery.service.ts:157-184 | for one origin's response, the path is denied iff the response is 2xx and a rule for this crawler denies it |
| Robots.RobotsDeniesIff | backend/src/modules/discovery/discovery.service.ts:153-188 | a page URL is denied iff it parses, its origin's robots.txt answers 2xx, and a rule for this crawler denies its path |
| Robots.RobotsFailsOpen | backend/src/modules/discovery/discovery.service.ts:155-158 | an unparsable URL, a thrown fetch or a non-2xx robots.txt answer allows the page |
| Robots.AgentLinesNotGrouped | backend/src/modules/discovery/discovery.service.ts:168-171 | consecutive `User-agent` lines do not form a group: the last one alone decides, so `*` followed by another agent collects nothing |
| Robots.AllowLineIgnored | backend/src/modules/discovery/discovery.service.ts:168-172 | an `Allow` line is neither an agent nor a disallow line, so it has no effect |
| Robots.DirectiveValue | backend/src/modules/discovery/discovery.service.ts:173-174 | a directive value, when present, is non-empty |
| Http.ParseUrl | backend/src/modules/discovery/discovery.service.ts:155 | after stripping C0 controls and spaces at the ends, a parsed http(s) URL has a non-empty host and a path starting with `/`; ParseHref is its round trip |
| Http.StripC0 | backend/src/modules/discovery/discovery.service.ts:155 | the parser's input is cut to the slice between leading and trailing C0 controls and spaces, and no such character remains at either end |
| Http.ParseHref | backend/src/modules/discovery/discovery.service.ts:155-156 | a URL in normal form (lower-case host, printable path from `/`, no query) parses back from its `href` to the same protocol, host and path |
| Http.Scheme | backend/src/modules/discovery/discovery.service.ts:155-156 | the protocol is `http:` or `https:` or absent, and always fits the text |
| Extraction.ScrapePage | backend/src/modules/discovery/discovery.service.ts:190-220 | `scrapePage` yields `Scrape`: a thrown fetch is an error, a non-2xx page yields nothing, a 2xx page yields its candidates |
| Extraction.CollectEmails | backend/src/modules/discovery/discovery.service.ts:197-205 | the e-mail set loop yields each lowercased match once, in first-occurrence order |
| Extraction.EmitCandidates | backend/src/modules/discovery/discovery.service.ts:209-217 | one candidate per e-mail, in set order |
| Extraction.DistinctEmailsSpec | backend/src/modules/discovery/discovery.service.ts:197-205 | the page's e-mails are pairwise distinct and form exactly the set of lowercased matches |
| Extraction.DistinctEmailsOrder | backend/src/modules/discovery/discovery.service.ts:203-205 | the e-mails come out in the order of their first match |
| Extraction.PageCandidatesSpec | backend/src/modules/discovery/discovery.service.ts:207-217 | each candidate has no name, the trimmed title (or none if empty) as company, and the page as website and source; the candidates' e-mails are pairwise distinct and form exactly the set of lowercased matches |
| Extraction.CompanyOf | backend/src/modules/discovery/discovery.service.ts:207-213 | the company is never the empty string |
| Extraction.LowerAll | backend/src/modules/discovery/discovery.service.ts:204 | each match is lowercased, position by position |
| Extraction.Candidates | backend/src/modules/discovery/discovery.service.ts:209-217 | one candidate per e-mail |
| Extraction.Deduplicate | backend/src/modules/discovery/discovery.service.ts:222-229 | `deduplicate` keeps the first candidate per key (e-mail, bar, company or empty), in first-appearance order |
| Extraction.KeyInjective | backend/src/modules/discovery/discovery.service.ts:225 | for e-mails without a bar character, equal keys mean equal e-mail and equal company-or-empty |
| Extraction.LoweredMatchHasNoBar | backend/src/modules/discovery/discovery.service.ts:201-204 | a lowercased match of the e-mail pattern contains no bar character |
| FirstWins.KeepFirst | backend/src/modules/discovery/discovery.service.ts:223-228 | collapsing keeps the set of keys and never grows the sequence |
| FirstWins.KeepFirstSelects | backend/src/modules/discovery/discovery.service.ts:223-228 | exactly the first element of each key is kept, each once, as an order-preserving subsequence |
| FirstWins.KeepFirstDistinct | backend/src/modules/discovery/discovery.service.ts:223-228 | no two kept elements share a key |
| FirstWins.KeepFirstOfDistinct | backend/src/modules/discovery/discovery.service.ts:223-228 | input whose keys are already distinct is returned unchanged |
| FirstWins.KeepFirstIdempotent | backend/src/modules/discovery/discovery.service.ts:222-229 | deduplicating twice is deduplicating once |
| Discovery.Considered | backend/src/modules/discovery/discovery.service.ts:140 | the first `limit` results are considered, in provider order, or all of them when there are fewer |
| Discovery.SearchAndScrape | backend/src/modules/discovery/discovery.service.ts:117-151 | `searchAndScrape` yields `SearchAndScrapeSpec`: no provider gives nothing, an unreachable or non-2xx provider is an error, otherwise the gathered candidates |
| Discovery.GatherResults | backend/src/modules/discovery/discovery.service.ts:138-150 | the loop skips denied results, concatenates page candidates in result order, and stops at the first page fetch that throws |
| Discovery.GatherPrefix | backend/src/modules/discovery/discovery.service.ts:140-148 | one more result over a prefix that succeeded: a denied result adds nothing, a page fetch that throws fails the whole gather, otherwise the page's candidates are appended |
| Discovery.GatherStops | backend/src/modules/discovery/discovery.service.ts:146 | once a page fetch has thrown, later results do not change the outcome |
| Discovery.ScrapeSources | backend/src/modules/discovery/discovery.service.ts:214-215 | every candidate of a page names that page as its source |
| Discovery.GatherProvenance | backend/src/modules/discovery/discovery.service.ts:140-148 | every gathered candidate comes from a considered result that the gate allows |
| Discovery.SearchProvenance | backend/src/modules/discovery/discovery.service.ts:121-150 | without a provider the result is empty; a success comes from a 2xx answer and each candidate from one of the first `limit` results that robots.txt allows |
| Discovery.SearchSucceeded | backend/src/modules/discovery/discovery.service.ts:131-140 | a successful search is a 2xx answer whose considered results were gathered |
| Discovery.NewDiscoveredLead | backend/src/modules/discovery/discovery.service.ts:64-73 | a new lead has the candidate's e-mail and website, status New, score 50, the e-mail's local part as default name, and `Unknown` as default company |
| Discovery.MergeAppends | backend/src/modules/discovery/discovery.service.ts:57-85 | the merge only appends: stored leads and sources are kept as they were, and exactly one source row is added per candidate |
| Discovery.MergeStepRecords | backend/src/modules/discovery/discovery.service.ts:58-84 | one merge step appends a source row recording its candidate |
| Discovery.MergeSources | backend/src/modules/discovery/discovery.service.ts:57-85 | the i-th new source row has source `web_search`, the i-th candidate's page and the job keyword, and points to a non-deleted lead the candidate's lookup matches |
| Discovery.RecordsPersist | backend/src/modules/discovery/discovery.service.ts:62-73 | a recorded lead stays recorded while the lead table only grows |
| Discovery.MergeNewLeads | backend/src/modules/discovery/discovery.service.ts:62-73 | every lead the merge adds is built from one of the candidates |
| Discovery.MergeKnown | backend/src/modules/discovery/discovery.service.ts:58-63 | when every candidate's lookup finds a lead, no lead is added |
| Discovery.ScrapeCompanies | backend/src/modules/discovery/discovery.service.ts:207-213 | a page's candidates never carry the empty string as company: a blank title gives none |
| Discovery.GatherCompanies | backend/src/modules/discovery/discovery.service.ts:138-150 | no gathered candidate carries the empty string as company |
| Discovery.SearchCompaniesNonEmpty | backend/src/modules/discovery/discovery.service.ts:121-150 | no candidate `searchAndScrape` returns carries the empty string as company |
| Discovery.MergeTwiceAddsNoLeads | backend/src/modules/discovery/discovery.service.ts:57-85 | re-running the merge on the same candidates adds no leads, only one source row per candidate |
| Discovery.FreshJob | backend/src/modules/discovery/discovery.service.ts:24-29 | a new job carries its id, owner and keyword, is pending with no attempts and no error, has the default maximum, and is consistent and runnable |
| Discovery.AdvanceConsistent | backend/src/modules/discovery/discovery.service.ts:51-110 | one attempt adds one to `attempts`; success completes with no error; failure records the error and fails iff attempts reach `maxAttempts`; `attempts <= maxAttempts` is kept |
| Discovery.RetriesThenFails | backend/src/modules/discovery/discovery.service.ts:49-110 | a job that keeps failing stays pending with one more attempt per run until `maxAttempts`, then is failed and unchanged |
| Discovery.CompletedIsFinal | backend/src/modules/discovery/discovery.service.ts:48 | further runs leave a completed job as it is |
| Discovery.RunBatchAppends | backend/src/modules/discovery/discovery.service.ts:37-39 | running a batch of jobs only appends leads and source rows, and lead ids stay equal to positions |
| Discovery.AttemptTwiceAddsNoLeads | backend/src/modules/discovery/discovery.service.ts:53-85 | a second attempt of the same keyword over the same web adds no leads, and records one more source row per deduplicated candidate when the attempt succeeds |
| Discovery.DiscoveryService.ProcessJob | backend/src/modules/discovery/discovery.service.ts:44-115 | a missing, completed or exhausted job writes nothing; otherwise the job row is advanced once, and the tables become the attempt's effect: on success the deduplicated candidates merged, on failure unchanged |
| Discovery.DiscoveryService.MergeCandidates | backend/src/modules/discovery/discovery.service.ts:57-85 | the merge loop leaves the lead and source tables as `MergeAll` |
| Discovery.DiscoveryService.EnqueueDiscovery | backend/src/modules/discovery/discovery.service.ts:21-42 | one job per keyword, in order, each processed once with the limit (default 20); the summaries report each job as created (pending); the lead and source tables become those of the attempts run one keyword after another |
| Discovery.DiscoveryService.CreateJobs | backend/src/modules/discovery/discovery.service.ts:22-31 | one fresh pending job per keyword is appended, in keyword order |
| Discovery.DiscoveryService.RunJobs | backend/src/modules/discovery/discovery.service.ts:37-39 | each created job is processed once, in order, and the tables are the result of each job's attempt applied in that order |
| Store.FindFirstLead | backend/src/modules/discovery/discovery.service.ts:58-60 | the lookup returns the first non-deleted lead with the e-mail and (unless absent) the company, or none iff no such lead exists |
| Newest.NewestFirst | backend/src/modules/leads/leads.service.ts:13-21 | the filtered table, newest first, is never longer than the table |
| Newest.NewestFirstMembers | backend/src/modules/leads/leads.service.ts:13-21 | the result holds exactly the rows that pass the filter |
| Newest.NewestFirstOrder | backend/src/modules/leads/leads.service.ts:20 | ids in the result strictly decrease (newest first) |
| Leads.List | backend/src/modules/leads/leads.service.ts:11-22 | at most `take` (default 50) rows, the visible rows after skipping `skip` (default 0); a short page reaches the end |
| Leads.ListSpec | backend/src/modules/leads/leads.service.ts:11-22 | every listed lead is non-deleted and in the requested campaign, newest first; with no skip and all visible leads fitting, every such lead is listed |
| Leads.WindowKeeps | backend/src/modules/leads/leads.service.ts:18-20 | a page of a newest-first list holds only its leads and stays newest first |
| Leads.Get | backend/src/modules/leads/leads.service.ts:24-28 | `get`, like `ensureExists` at lines 109-113, succeeds iff a non-deleted lead with the id exists, and then returns it |
| Leads.ScoreLead | backend/src/modules/leads/leads.service.ts:115-120 | the score is 50, 55, 60 or 65; it is at least 60 iff the website contains `.io`, and odd iff the lowercased company contains `labs` |
| Leads.Clamp | backend/src/modules/leads/leads.service.ts:119 | the result lies in `[lo, hi]` and equals the input when the input is inside |
| Leads.CreatedLead | backend/src/modules/leads/leads.service.ts:44-56 | the inserted row has status New and the given score (an explicit 0 included), otherwise the computed score |
| Leads.ApplyPatch | backend/src/modules/leads/leads.service.ts:72-77 | each field the patch sets takes the patch's value and every other field keeps its old value; the id and deletion mark are kept |
| Leads.SoftDeleted | backend/src/modules/leads/leads.service.ts:93-96 | the lead becomes itself with `deletedAt` set to the time, and every other row is unchanged |
| Leads.SoftDeleteHides | backend/src/modules/leads/leads.service.ts:90-107 | after a soft delete, `get` fails, `list` omits the lead, and the find-or-create lookup no longer returns it |
| Leads.LeadsService.Create | backend/src/modules/leads/leads.service.ts:30-67 | an existing non-deleted lead with the same e-mail and company is returned with no write; otherwise one lead and one `lead.created` activity are appended |
| Leads.LeadsService.Update | backend/src/modules/leads/leads.service.ts:69-88 | a missing or deleted lead is NotFound with no write; otherwise the lead is patched and one `lead.updated` activity is appended |
| Leads.LeadsService.SoftDelete | backend/src/modules/leads/leads.service.ts:90-107 | a missing or deleted lead is NotFound with no write; otherwise `deletedAt` is stamped, one `lead.deleted` activity is appended, and success is returned |
| Campaigns.ListForUserSpec | backend/src/modules/campaigns/campaigns.service.ts:11-16 | exactly the user's campaigns, newest first |
| Campaigns.GetForUser | backend/src/modules/campaigns/campaigns.service.ts:18-22 | `getForUser`, like `ensureExists` at lines 108-112, succeeds iff the campaign exists and the user owns it |
| Campaigns.OwnerScoped | backend/src/modules/campaigns/campaigns.service.ts:11-22 | another user's campaign is neither listed nor found |
| Campaigns.CampaignsService.Create | backend/src/modules/campaigns/campaigns.service.ts:24-43 | a new Active campaign owned by the user, and one `campaign.created` activity |
| Campaigns.CampaignsService.Update | backend/src/modules/campaigns/campaigns.service.ts:45-65 | NotFound with no write unless the user owns the campaign; otherwise the name is patched and one `campaign.updated` activity is appended |
| Campaigns.CampaignsService.Pause | backend/src/modules/campaigns/campaigns.service.ts:67-69 | on success the status is Paused |
| Campaigns.CampaignsService.Resume | backend/src/modules/campaigns/campaigns.service.ts:71-73 | on success the status is Active |
| Campaigns.CampaignsService.Kill | backend/src/modules/campaigns/campaigns.service.ts:75-77 | on success the status is Killed |
| Campaigns.CampaignsService.SetStatus | backend/src/modules/campaigns/campaigns.service.ts:79-106 | NotFound with no write unless owned; otherwise the status is written whatever it was, and one `lifecycle` execution row and one `campaign.status_changed` activity are appended |
| Campaigns.CampaignsService.KillThenResume | backend/src/modules/campaigns/campaigns.service.ts:71-85 | a killed campaign can be resumed to Active |
| LeadList.FilteredLeads | components/LeadList.tsx:15-21 | the filter never adds leads |
| LeadList.FilteredMembers | components/LeadList.tsx:15-21 | a lead is kept iff it is in the list and both the search and the status filter accept it |
| LeadList.FilteredAppend | components/LeadList.tsx:15 | filtering works lead by lead, so kept leads keep their order |
| LeadList.EmptySearchShowsAll | components/LeadList.tsx:16-19 | an empty search with status `All` shows every lead |
| LeadList.StatusFilterSpec | components/LeadList.tsx:19 | `All` does not restrict by status; any other value keeps only leads with that status text |
| LeadList.SearchSpec | components/LeadList.tsx:16-18 | the search matches iff the lowercased term occurs in the lowercased name, e-mail or company |
| LeadList.StatusColor | components/LeadList.tsx:23-32 | the default grey badge goes exactly to New and Not Interested |
| LeadList.ScoreBarClass | components/LeadList.tsx:125 | green iff score > 70, orange iff 40 < score <= 70, red iff score <= 40 |
| AppStore.AppState.constructor | store/appStore.ts:27-33 | dashboard view, no selection, no user or token, initializing, no campaigns |
| AppStore.AppState.SetView | store/appStore.ts:34 | only the view changes |
| AppStore.AppState.SelectLead | store/appStore.ts:35-39 | the selection is set, and the view is the detail when a lead is given and the list otherwise |
| AppStore.AppState.SetAuth | store/appStore.ts:40-44 | exactly the user and the token change |
| AppStore.AppState.SetCampaigns | store/appStore.ts:45 | only the campaigns change |
| AppStore.AppState.SetInitializing | store/appStore.ts:46 | only the flag changes |
| AppStore.DetailWithoutLead | store/appStore.ts:34 | the detail view with no selected lead is reachable |
| AppStore.SelectThenClear | store/appStore.ts:35-39 | selecting and then clearing returns to the list with nothing selected |

## Left out

- Network I/O is replaced by the `Web` value. It holds the provider setting, one answer per search query, the robots.txt response per robots URL, and one page outcome per page URL. A missing entry means the fetch threw. Timeouts and the JSON decoding of the provider body are not modelled.
- The e-mail regular expression and the cheerio HTML parser are not modelled. A page gives its list of regex matches and its title text as inputs. The model covers what the code does with them.
- `new URL(...)` is modelled only for absolute `http`/`https` URLs. Leading and trailing C0 controls and spaces are stripped first, as the URL parser does (a no-break space is not stripped). The host runs to the first `/`, `?` or `#` and is lowercased. Ports, user info, percent-encoding and IDNA are not modelled.
- Http.ParseUrl: after the strip, text that does not start with `http://` or `https://` (in any case) counts as a constructor that throws. The URL parser also accepts some such text for these schemes, such as `https:h/x` with the slashes missing or with `\` for `/`; the model treats those as throwing, so the robots check allows them.
- Http.ParseUrl: the path is kept as written. The WHATWG URL parser's removal of `.` and `..` segments, its reading of `\` as `/` in http(s) URLs, and its removal of tab and newline characters are not modelled. A page URL such as `https://h/x/../private` is therefore matched against robots.txt with its raw path, where the code would match `/private`, so the two robots verdicts can differ for such URLs.
- Store.FindFirstLead: Prisma's `findFirst` without `orderBy` fixes no row order. The model returns the earliest matching row in table order, which is one of the answers the database may give.
- `toLowerCase` is ASCII only. Unicode case mapping is not modelled.
- Prisma is replaced by in-memory tables in one `Db` object. Database failures, transactions and the `Promise.all`/check-then-create races are not modelled, and everything runs sequentially.
- Ids are row positions, and `createdAt` order is insertion order. Owner, campaign and lead ids other than these positions are plain strings.
- Logging is left out. Error-message text is also left out: `lastError` holds a `JobError` value instead of the message string.
- The Prisma schema, `UpdateLeadDto` and `UpdateCampaignDto` are not part of this model. The following are assumed:
  - `maxAttempts` defaults to 3 and the job status defaults to `pending`;
  - a lead patch may set any of the lead's fields;
  - a campaign patch may set the name.
- Leads.List: `skip` and `take` are natural numbers. The service passes through whatever number the controller parsed (leads.controller.ts:21-22). A negative `take` (which makes Prisma return rows counted from the end), a negative `skip`, `NaN` and fractional values are not modelled.
- Discovery.MergeTwiceAddsNoLeads: requires that no candidate carries the empty string as company. The scraper never produces one (`Discovery.SearchCompaniesNonEmpty`), so the requirement holds for every real attempt (`Discovery.AttemptTwiceAddsNoLeads`). A candidate with company `""` would be looked up by `company: ""` but stored as `Unknown`, so a second run would add the lead again.
- The UI types omit a lead's `lastContacted` and `history`. The campaign's `stats` object is flattened into `totalLeads`, `sent`, `replies` and `meetings` fields. The JSX rendering is not modelled.
- A page fetch that throws fails the whole job. `scrapePage` has no `catch`, so the error reaches `processJob`'s failure branch. The model follows the code.
